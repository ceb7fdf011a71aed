/** Players entering, and two players trading. */
module SaveArrivals {
  import opened Items
  import opened Seqs
  import opened SaveTypes
  import opened SaveSteps
  import opened SaveInvariant
  import opened SaveViews
  import opened SaveKeeps
  import opened SavePairs
  import opened SaveWorker

  // ----- spawning

  /** A player may enter from any load that is handed on: the session number is new, and the account is neither in the
      hub nor waiting as a leave record. What the invariant needs besides is that it is on no link. */
  ghost predicate CanSpawn(w: World, r: LoadResult) {
    && r.session != LEFT && r.session !in w.used
    && r.account !in w.owner && r.account !in w.leave && !Linked(w.pairs, r.account)
  }

  lemma MoneyIsGood(d: DbChar)
    ensures GoodMoney(ReadMoney(d))
  {
  }

  lemma BagIsGood(table: ItemTable, raw: map<nat, Item>)
    ensures GoodBag(table, ReadBag(table, raw))
  {
  }

  lemma SpawnFrame(w: World, r: LoadResult, place: Place, values: Values, saved: Values, dirty: bool)
    requires Frame(w) && r.session != LEFT && r.session !in w.used && r.account !in w.owner
    ensures Frame(Spawn(w, r, place, values, saved, dirty))
  {
    hide ReadBag, ReadMoney;
    var v := Spawn(w, r, place, values, saved, dirty);
    assert Flying(v) == Flying(w);
    hide Flying;
    forall i | 0 <= i < |v.jobs| ensures JobOk(v, v.jobs[i]) { assert JobOk(w, w.jobs[i]); }
    forall i | 0 <= i < |v.replies| ensures SessionOk(v, v.replies[i].session, v.replies[i].account) {
      assert SessionOk(w, w.replies[i].session, w.replies[i].account);
    }
  }

  lemma SpawnViews(w: World, r: LoadResult, place: Place, values: Values, saved: Values, dirty: bool)
    requires Frame(w) && r.session != LEFT && r.session !in w.used && r.account !in w.owner && r.account !in w.leave
    ensures var v, p, a := Spawn(w, r, place, values, saved, dirty), SpawnedPlayer(w, r, place, values, saved, dirty),
            r.account;
            && ViewOf(v, a) == EnteredView(ViewOf(w, a), r.session, p)
            && ViewOf(w, a).live == None && ViewOf(w, a).rec == None
            && forall b :: b != a ==> ViewOf(v, b) == ViewOf(w, b)
  {
    hide ReadMoney, Gather, ReadChar, ReadBag, QueuesOk, Flying;
  }

  lemma SpawnKeeps(w: World, r: LoadResult, place: Place, values: Values, saved: Values, dirty: bool)
    requires Inv(w) && CanSpawn(w, r)
    ensures Inv(Spawn(w, r, place, values, saved, dirty))
  {
    hide ViewOk, LinkOk, QueuesOk, Flying, TradesOk, Base, LinksOk, ViewsOk, ViewOf, Linked, Has, Paired, SpawnedPlayer;
    var v, p, a := Spawn(w, r, place, values, saved, dirty), SpawnedPlayer(w, r, place, values, saved, dirty),
        r.account;
    SpawnFrame(w, r, place, values, saved, dirty);
    SpawnViews(w, r, place, values, saved, dirty);
    TheView(w, a);
    SpawnedIs(w, r, place, values, saved, dirty);
    SpawnedView(w.table, ViewOf(w, a), a, r.session, p);
    FreeMates(w, a);
    NotPaired(ViewOf(v, a));
    assert forall i :: 0 <= i < |w.pairs| ==> !Has(w.pairs[i], a) by { FreeOfLinks(w.pairs, a); }
    OneAccountLinks(w, v, a);
    SpawnedDbAt(w, r, place, values, saved, dirty);
    TradesForFree(w, v, a);
  }

  lemma FreeOfLinks(pairs: seq<PairLink>, a: Account)
    requires !Linked(pairs, a)
    ensures forall i :: 0 <= i < |pairs| ==> !Has(pairs[i], a)
  {
    hide Has;
  }

  lemma SpawnedDbAt(w: World, r: LoadResult, place: Place, values: Values, saved: Values, dirty: bool)
    requires Inv(w)
    ensures var v := Spawn(w, r, place, values, saved, dirty);
            && v.jobs == w.jobs && v.pairs == w.pairs && v.trades == w.trades && v.table == w.table
            && (forall b :: DbAt(w, b) <= DbAt(v, b)) && forall b :: b != r.account ==> DbAt(v, b) == DbAt(w, b)
  {
    hide ViewOk, LinkOk, QueuesOk, Flying, TradesOk, Base, LinksOk, ViewsOk, ViewOf, ComesBack, HistOf, SpawnedPlayer;
    TheView(w, r.account);
    StoredAt(w.table, ViewOf(w, r.account), r.account);
    ViewHist(w, r.account);
  }

  lemma ViewHist(w: World, a: Account)
    ensures ViewOf(w, a).hist == HistOf(w, a) && ViewOf(w, a).dbAt == DbAt(w, a)
  {
    hide Gather, ReadChar;
  }

  lemma StoredAt(table: ItemTable, v: View, a: Account)
    requires ViewOk(table, v, a)
    ensures v.dbAt < |v.hist|
  {
    hide QueueOk, LiveOk, RecordOk, GoodSnap;
  }

  lemma SpawnedIs(w: World, r: LoadResult, place: Place, values: Values, saved: Values, dirty: bool)
    ensures var p := SpawnedPlayer(w, r, place, values, saved, dirty);
            && p.account == r.account && p.unsaved == {} && p.flight.slots == {} && p.flight.bundleNo == 0
            && p.flight.nextNo != 0 && !p.flight.paired
            && GoodMoney(p.values.money) && GoodBag(w.table, p.bag) && p.track == Track(false, None, false, false)
  {
    hide ReadBag, ReadMoney, GoodBag;
    MoneyIsGood(r.data);
    BagIsGood(w.table, r.data.bag);
  }

  // ----- trading

  /** The two players on a new link that has not been sent yet. */
  function TradeLink(w: World, p: Player, s: Session, q: Player, t: Session): PairLink {
    PairLink([Side(p.account, s, 0, false, Top(w, p.account)), Side(q.account, t, 0, false, Top(w, q.account))], true,
             false)
  }

  function Hold(p: Player): Player { p.(flight := p.flight.(paired := true)) }

  function Tied(w: World, s: Session, t: Session): World
    requires s in w.players && t in w.players
  {
    var p, q := w.players[s], w.players[t];
    w.(players := w.players[s := Hold(p)][t := Hold(q)],
       pairs := w.pairs + [TradeLink(w, p, s, q, t)],
       trades := w.trades + [Trade(p.account, q.account, Top(w, p.account), Top(w, q.account))])
  }

  lemma TradeIs(w: World, s: Session, t: Session)
    requires s in w.players && t in w.players
    ensures |Tied(w, s, t).pairs| == |w.pairs| + 1 && TwoSided(Tied(w, s, t).pairs[|w.pairs|])
            && !Tied(w, s, t).pairs[|w.pairs|].inFlight
    ensures SaveTrade(w, s, t) == SendPair(Tied(w, s, t), |w.pairs|)
  {
    hide SendPair;
  }

  /** Both players are free and each is in a state the database cannot hold yet. */
  ghost predicate CanTie(w: World, s: Session, t: Session) {
    && s in w.players && t in w.players && s != t
    && CanSaveTradeNow(w.players[s], w.players[t])
    && DbAt(w, w.players[s].account) < Top(w, w.players[s].account)
    && DbAt(w, w.players[t].account) < Top(w, w.players[t].account)
  }

  lemma HoldView(w: World, s: Session, a: Account)
    requires Inv(w) && s in w.players && a == w.players[s].account && w.players[s].flight.bundleNo == 0
             && !w.players[s].flight.paired
    ensures ViewOk(w.table, ViewOf(w, a).(live := Some(Hold(w.players[s]))), a)
    ensures ViewOf(w, a).live == Some(w.players[s]) && ViewOf(w, a).session == s && s != LEFT
    ensures ViewOf(w, a).ws == [] && ViewOf(w, a).rs == [] && ViewOf(w, a).rec == None && |ViewOf(w, a).hist| > 0
    ensures Top(w, a) == |ViewOf(w, a).hist| - 1
    ensures !Linked(w.pairs, a)
  {
    hide ViewOk, LinkOk, QueuesOk, Flying, TradesOk, LinksOk, ViewsOk, ViewOf, Linked, Has, Paired;
    Ownership(w, s);
    TheView(w, a);
    LinkedIsPaired(w, s);
    LiveIdle(w.table, ViewOf(w, a), a);
    TopView(w, a);
    FlagsView(w.table, ViewOf(w, a), a, w.players[s], Hold(w.players[s]));
  }

  /** Seen from an account, tying is holding its player. */
  lemma TiedViews(w: World, s: Session, t: Session)
    requires Frame(w) && s in w.players && t in w.players && s != t
    ensures Frame(Tied(w, s, t))
    ensures var v, p, q := Tied(w, s, t), w.players[s], w.players[t];
            && p.account != q.account
            && ViewOf(v, p.account) == ViewOf(w, p.account).(live := Some(Hold(p)))
            && ViewOf(v, q.account) == ViewOf(w, q.account).(live := Some(Hold(q)))
            && forall b :: b != p.account && b != q.account ==> ViewOf(v, b) == ViewOf(w, b)
  {
    hide Frame, ViewOf;
    var p, q := w.players[s], w.players[t];
    assert p.account != q.account by { DifferentAccounts(w, s, t); }
    FrameBase(w);
    SetPlayerFrame(w, s, Hold(p));
    SetPlayerViews(w, s, Hold(p));
    var u := SetPlayer(w, s, Hold(p));
    FrameBase(u);
    SetPlayerFrame(u, t, Hold(q));
    SetPlayerViews(u, t, Hold(q));
    var x := SetPlayer(u, t, Hold(q));
    PairsFrame(x, Tied(w, s, t).pairs);
    NewTradesFrame(x.(pairs := Tied(w, s, t).pairs), Tied(w, s, t).trades);
    assert Tied(w, s, t) == x.(pairs := Tied(w, s, t).pairs).(trades := Tied(w, s, t).trades);
  }

  lemma DifferentAccounts(w: World, s: Session, t: Session)
    requires Frame(w) && s in w.players && t in w.players && s != t
    ensures w.players[s].account != w.players[t].account
  {
    hide Flying, QueuesOk;
  }

  lemma NewTradesFrame(w: World, ts: seq<Trade>)
    requires Frame(w)
    ensures Frame(w.(trades := ts))
    ensures forall a :: ViewOf(w.(trades := ts), a) == ViewOf(w, a)
  {
    var v := w.(trades := ts);
    assert Flying(v) == Flying(w);
    hide Flying, Gather, ReadChar;
    forall i | 0 <= i < |v.jobs| ensures JobOk(v, v.jobs[i]) { assert JobOk(w, w.jobs[i]); }
  }

  /** A fresh link between two idle players is in order. */
  lemma NewLinkOk(jobs: seq<Job>, l: PairLink, v0: View, v1: View)
    requires TwoSided(l) && l.sides[0].account != l.sides[1].account && !l.inFlight
    requires FreshSide(l, 0, v0) && FreshSide(l, 1, v1)
    ensures LinkOk(jobs, l, v0, v1)
  {
  }

  ghost predicate FreshSide(l: PairLink, k: nat, v: View)
    requires TwoSided(l) && k < 2
  {
    var sd := l.sides[k];
    && sd.session != LEFT && v.live.Some? && v.session == sd.session && v.live.value.flight.paired
    && v.ws == [] && v.rs == [] && sd.tradeAt < |v.hist| && v.dbAt < sd.tradeAt
  }

  lemma LinksAppended(w: World, v: World, l: PairLink)
    requires Inv(w) && v.pairs == w.pairs + [l] && v.jobs == w.jobs && TwoSided(l)
    requires !Linked(w.pairs, l.sides[0].account) && !Linked(w.pairs, l.sides[1].account)
    requires forall b :: b != l.sides[0].account && b != l.sides[1].account ==> ViewOf(v, b) == ViewOf(w, b)
    requires LinkOk(v.jobs, l, ViewOf(v, l.sides[0].account), ViewOf(v, l.sides[1].account))
    ensures LinksOk(v)
  {
    hide LinkOk, ViewOf, Paired, Has, Inv, LinksOk;
    var n := |w.pairs|;
    forall m | 0 <= m < |v.pairs|
      ensures TwoSided(v.pairs[m])
      ensures LinkOk(v.jobs, v.pairs[m], ViewOf(v, v.pairs[m].sides[0].account), ViewOf(v, v.pairs[m].sides[1].account))
    {
      if m < n {
        TheLink(w, m);
        SameHas(w.pairs[m], w.pairs[m], 0);
        assert Has(w.pairs[m], w.pairs[m].sides[0].account) && Has(w.pairs[m], w.pairs[m].sides[1].account);
      }
    }
    forall i, j, c | 0 <= i < |v.pairs| && 0 <= j < |v.pairs| && Has(v.pairs[i], c) && Has(v.pairs[j], c)
        ensures i == j {
      if i < n && j < n { OneLinkEach(w, i, j, c); } else { HasSide(l, c); }
    }
    forall c | Paired(ViewOf(v, c)) ensures Linked(v.pairs, c) {
      SameHas(l, l, c);
      assert v.pairs[n] == l;
      if c != l.sides[0].account && c != l.sides[1].account {
        TheView(w, c);
        var m :| 0 <= m < |w.pairs| && Has(w.pairs[m], c);
        assert v.pairs[m] == w.pairs[m];
      }
    }
    LinksOkFrom(v);
  }

  lemma HasSide(l: PairLink, c: Account)
    requires TwoSided(l)
    ensures Has(l, c) ==> c == l.sides[0].account || c == l.sides[1].account
  {
  }

  lemma TradesAppended(w: World, v: World, l: PairLink, t: Trade)
    requires TradesOk(w) && v.pairs == w.pairs + [l] && v.trades == w.trades + [t] && IsTrade(l, t)
    requires forall b :: DbAt(v, b) == DbAt(w, b)
    requires t.a != t.b && DbAt(w, t.a) < t.aAt && DbAt(w, t.b) < t.bAt
    ensures TradesOk(v)
  {
    hide DbAt, IsTrade;
    forall k | 0 <= k < |v.trades| ensures TradeOk(v, v.trades[k]) {
      if k < |w.trades| {
        assert TradeOk(w, w.trades[k]);
        if DbAt(w, w.trades[k].a) < w.trades[k].aAt {
          var m :| 0 <= m < |w.pairs| && IsTrade(w.pairs[m], w.trades[k]);
          assert v.pairs[m] == w.pairs[m];
        }
      } else {
        assert v.trades[k] == t && v.pairs[|w.pairs|] == l;
      }
    }
  }

  lemma TiedKeeps(w: World, s: Session, t: Session)
    requires Inv(w) && CanTie(w, s, t)
    ensures Inv(Tied(w, s, t))
  {
    hide ViewOk, LinkOk, QueuesOk, Flying, TradesOk, Base, LinksOk, ViewsOk, ViewOf, Linked, Has, Paired, DbAt, Top,
         IsTrade;
    var v := Tied(w, s, t);
    var p, q := w.players[s], w.players[t];
    var a, b := p.account, q.account;
    var l := TradeLink(w, p, s, q, t);
    HoldView(w, s, a);
    HoldView(w, t, b);
    TiedViews(w, s, t);
    ViewsAfter(w, v, a, b);
    DbAtIs(w, a);
    DbAtIs(w, b);
    NewLinkOk(v.jobs, l, ViewOf(v, a), ViewOf(v, b));
    LinksAppended(w, v, l);
    var x := Trade(a, b, Top(w, a), Top(w, b));
    assert IsTrade(l, x) by { TradeLinkIs(w, p, s, q, t); }
    assert forall c :: DbAt(v, c) == DbAt(w, c) by { TiedDbAt(w, s, t); }
    TradesAppended(w, v, l, x);
  }

  lemma TiedDbAt(w: World, s: Session, t: Session)
    requires s in w.players && t in w.players
    ensures forall c :: DbAt(Tied(w, s, t), c) == DbAt(w, c)
  {
    hide TradeLink, Hold, Top;
  }

  lemma DbAtIs(w: World, a: Account)
    ensures ViewOf(w, a).dbAt == DbAt(w, a)
  {
    hide Gather, ReadChar;
  }

  lemma TradeLinkIs(w: World, p: Player, s: Session, q: Player, t: Session)
    ensures IsTrade(TradeLink(w, p, s, q, t), Trade(p.account, q.account, Top(w, p.account), Top(w, q.account)))
  {
    hide Top;
  }

  lemma SaveTradeKeeps(w: World, s: Session, t: Session)
    requires Inv(w) && CanTie(w, s, t)
    ensures Inv(SaveTrade(w, s, t))
  {
    hide Inv, SaveTrade, Tied, SendPair, TwoSided, CanTie;
    TiedKeeps(w, s, t);
    CanTieIn(w, s, t);
    TradeIs(w, s, t);
    SendPairKeeps(Tied(w, s, t), |w.pairs|);
  }

  lemma CanTieIn(w: World, s: Session, t: Session)
    requires CanTie(w, s, t)
    ensures s in w.players && t in w.players
  {
  }

  // ----- a trade: the swap, then its save

  /** The two players as the swap leaves them. */
  function Swapped(w: World, s: Session, t: Session, p: Player, q: Player): World
    requires s in w.players && t in w.players
  {
    Played(Played(w, s, p), t, q)
  }

  lemma TradeKeeps(w: World, s: Session, t: Session, p: Player, q: Player)
    requires Inv(w) && s in w.players && t in w.players && s != t
    requires CanSaveTradeNow(w.players[s], w.players[t])
    requires Plays(w.table, w.players[s], p) && Plays(w.table, w.players[t], q)
    ensures Inv(SaveTrade(Swapped(w, s, t, p, q), s, t))
  {
    hide Inv, SaveTrade, Plays, ViewOf, ViewOk;
    var u := Played(w, s, p);
    PlayedKeeps(w, s, p);
    PlayedKeeps(u, t, q);
    var v := Played(u, t, q);
    PlaysFlight(w.table, w.players[s], p);
    PlaysFlight(w.table, w.players[t], q);
    InvDiffer(w, s, t);
    AheadOfDb(w, p.account);
    AheadOfDb(w, q.account);
    assert CanTie(v, s, t);
    SaveTradeKeeps(v, s, t);
  }

  lemma InvDiffer(w: World, s: Session, t: Session)
    requires Inv(w) && s in w.players && t in w.players && s != t
    ensures w.players[s].account != w.players[t].account
  {
    DifferentAccounts(w, s, t);
  }

  /** The database holds a state the account has been in, so it is behind any new one. */
  lemma AheadOfDb(w: World, a: Account)
    requires Inv(w)
    ensures DbAt(w, a) < |HistOf(w, a)|
  {
    hide ViewOk, LinkOk, QueuesOk, Flying, TradesOk, Base, LinksOk, ViewsOk, Paired, Linked, Gather, ReadChar;
    TheView(w, a);
    InHistory(w.table, ViewOf(w, a), a);
  }

  lemma InHistory(table: ItemTable, v: View, a: Account)
    requires ViewOk(table, v, a)
    ensures v.dbAt < |v.hist| && v.snap.row == v.hist[v.dbAt].row && (!v.stale ==> v.snap == v.hist[v.dbAt])
  {
    hide QueueOk, Agree, LiveOk, RecordOk, GoodSnap;
  }
}
