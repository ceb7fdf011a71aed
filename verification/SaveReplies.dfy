/** Handling one reply: the bundle is confirmed or its marks come back, and a link whose two heads have both been
    answered is released or kept for another attempt. */
module SaveReplies {
  import opened Items
  import opened Seqs
  import opened SaveTypes
  import opened SaveSteps
  import opened SaveInvariant
  import opened SaveViews
  import opened SaveKeeps
  import opened SaveWorker

  /** The first reply taken off the list and handled, as ProcessDbResults does for each reply. */
  function HandleReply(w: World): World
    requires w.replies != []
  {
    var r := w.replies[0];
    OnPairReply(OnSaveReply(w.(replies := w.replies[1..]), r), r)
  }

  // ----- one account

  function HandledPlayer(p: Player, r: Reply): Player {
    if r.ok then
      var q := LandedOk(p);
      q.(flight := q.flight.(listed := p.flight.listed || p.flight.again))
    else LandedFailed(p, r)
  }

  /** The view of an account after its first reply has been handled. */
  function HandledView(v: View): View
    requires v.rs != []
  {
    var r := v.rs[0];
    var u := v.(rs := v.rs[1..]);
    if v.live.Some? then u.(live := Some(HandledPlayer(v.live.value, r)))
    else if v.rec.Some? && r.session == LEFT then
      u.(rec := if r.ok then None else Some(v.rec.value.(inFlight := false)))
    else u
  }

  lemma HandledOk(table: ItemTable, v: View, a: Account)
    requires ViewOk(table, v, a) && v.rs != []
    ensures ViewOk(table, HandledView(v), a)
    ensures v.rec.Some? || v.live.Some?
    ensures v.live.Some? ==>
              |v.rs| == 1 && v.rs[0].session == v.session && v.rs[0].bundleNo == v.live.value.flight.bundleNo
                             && v.rs[0].bundleNo != 0
    ensures v.rec.Some? && v.rs[0].session == LEFT ==>
              v.rec.value.inFlight && v.rec.value.bundleNo == v.rs[0].bundleNo && |v.rs| == 1
  {
    hide ViewOk;
    var u := HandledView(v);
    if v.live.Some? {
      var p := v.live.value;
      AnsweredLiveView(table, v, a, p);
      LiveOrLeft(table, v, a);
      if v.rs[0].ok {
        var q := v.(live := Some(LandedOk(p)), rs := []);
        FlagsView(table, q, a, LandedOk(p), HandledPlayer(p, v.rs[0]));
        assert u == q.(live := Some(HandledPlayer(p, v.rs[0])));
      } else {
        assert u == v.(live := Some(LandedFailed(p, v.rs[0])), rs := []);
      }
    } else {
      LiveOrLeft(table, v, a);
      if v.rs[0].session == LEFT {
        ConfirmedView(table, v, a, v.rec.value);
        assert u == v.(rec := if v.rs[0].ok then None else Some(v.rec.value.(inFlight := false)), rs := []);
      } else {
        OrphanView(table, v, a);
        assert u == v.(rs := v.rs[1..]);
      }
    }
  }

  lemma LiveOrLeft(table: ItemTable, v: View, a: Account)
    requires ViewOk(table, v, a) && v.rs != []
    ensures v.live.Some? ==> v.rec == None
    ensures v.live == None ==> v.rec.Some?
    ensures v.rs[0].account == a
  {
    hide HistoryOk, Agree, WriteOk;
  }

  // ----- the state

  lemma HeadReply(w: World, a: Account)
    requires w.replies != []
    ensures RepliesFor(w.replies, a) == (if w.replies[0].account == a then [w.replies[0]] else [])
            + RepliesFor(w.replies[1..], a)
  {
    hide Gather;
    var x := w.replies;
    assert [x[0]] + x[1..] == x;
    GatherConcat(ReplierOf(a), [x[0]], x[1..]);
    RepliesAppended([], x[0], a);
    assert [] + [x[0]] == [x[0]];
    assert RepliesFor([], a) == [] by { GatherNothing(ReplierOf(a), []); }
  }

  function Tail(w: World): World
    requires w.replies != []
  {
    w.(replies := w.replies[1..])
  }

  lemma TailFrame(w: World)
    requires Frame(w) && w.replies != []
    ensures Frame(Tail(w))
    ensures SessionOk(w, w.replies[0].session, w.replies[0].account)
  {
    var v := Tail(w);
    assert Flying(v) == Flying(w);
    hide Flying;
    forall i | 0 <= i < |v.jobs| ensures JobOk(v, v.jobs[i]) { assert JobOk(w, w.jobs[i]); }
    forall i | 0 <= i < |v.replies| ensures SessionOk(v, v.replies[i].session, v.replies[i].account) {
      assert v.replies[i] == w.replies[i + 1];
    }
  }

  lemma TailViews(w: World)
    requires w.replies != []
    ensures var a := w.replies[0].account;
            ViewOf(w, a).rs != [] && ViewOf(w, a).rs[0] == w.replies[0]
            && ViewOf(Tail(w), a) == ViewOf(w, a).(rs := ViewOf(w, a).rs[1..])
    ensures forall b :: b != w.replies[0].account ==> ViewOf(Tail(w), b) == ViewOf(w, b)
  {
    hide Gather, ReadChar, RepliesFor;
    forall b ensures RepliesFor(w.replies, b)
        == (if w.replies[0].account == b then [w.replies[0]] else []) + RepliesFor(w.replies[1..], b) {
      HeadReply(w, b);
    }
  }

  /** OnSaveReply on the first reply changes its account's view as HandledView says, and nothing else a view, link
      or trade can see. */
  lemma SaveReplyFrame(w: World)
    requires Inv(w) && w.replies != []
    ensures var v := OnSaveReply(Tail(w), w.replies[0]);
            && Frame(v)
            && v.table == w.table && v.pairs == w.pairs && v.trades == w.trades && v.jobs == w.jobs && v.dbAt == w.dbAt
            && ViewOf(w, w.replies[0].account).rs != []
            && ViewOf(w, w.replies[0].account).rs[0] == w.replies[0]
            && ViewOf(v, w.replies[0].account) == HandledView(ViewOf(w, w.replies[0].account))
            && forall b :: b != w.replies[0].account ==> ViewOf(v, b) == ViewOf(w, b)
  {
    hide ViewOk, LinkOk, Flying, TradesOk, Base, LinksOk, ViewsOk, Paired, ViewOf, QueuesOk, Linked, Has, Tail,
         SessionOk;
    var r := w.replies[0];
    var a := r.account;
    TheView(w, a);
    TailFrame(w);
    TailViews(w);
    TailSame(w);
    HandledOk(w.table, ViewOf(w, a), a);
    if ViewOf(w, a).live.Some? {
      LiveReplyFrame(w, Tail(w), r);
    } else if r.session == LEFT {
      RecordReplyFrame(w, Tail(w), r);
    } else {
      OrphanReply(w, Tail(w), r);
    }
  }

  lemma TailSame(w: World)
    requires w.replies != []
    ensures Tail(w) == w.(replies := Tail(w).replies)
  {
  }

  lemma LiveReplyFrame(w: World, u: World, r: Reply)
    requires Frame(w) && Frame(u) && u == w.(replies := u.replies)
    requires ViewOf(w, r.account).live.Some? && ViewOf(w, r.account).session == r.session
    requires ViewOf(w, r.account).live.value.flight.bundleNo == r.bundleNo && r.bundleNo != 0
    requires ViewOf(w, r.account).rs != [] && ViewOf(w, r.account).rs[0] == r
    requires ViewOf(u, r.account) == ViewOf(w, r.account).(rs := ViewOf(w, r.account).rs[1..])
    requires forall b :: b != r.account ==> ViewOf(u, b) == ViewOf(w, b)
    ensures var v := OnSaveReply(u, r);
            && Frame(v)
            && v.table == w.table && v.pairs == w.pairs && v.trades == w.trades && v.jobs == w.jobs && v.dbAt == w.dbAt
            && ViewOf(v, r.account) == HandledView(ViewOf(w, r.account))
            && forall b :: b != r.account ==> ViewOf(v, b) == ViewOf(w, b)
  {
    hide ViewOf, Flying, QueuesOk;
    LiveSession(w, r.account);
    var s, p := r.session, w.players[r.session];
    var q := HandledPlayer(p, r);
    var t := OnSaveReply(u, r).tickEnd;
    SetPlayerFrame(u, s, q);
    SetPlayerViews(u, s, q);
    TickEndSame(SetPlayer(u, s, q), t);
    LiveReply(u, r);
  }

  lemma LiveSession(w: World, a: Account)
    requires Base(w) && ViewOf(w, a).live.Some?
    ensures ViewOf(w, a).session in w.players && w.players[ViewOf(w, a).session].account == a
    ensures ViewOf(w, a).live.value == w.players[ViewOf(w, a).session] && ViewOf(w, a).session != LEFT
  {
    hide Gather, ReadChar;
  }

  lemma LiveReply(u: World, r: Reply)
    requires r.session != LEFT && ForLive(u, r) && r.bundleNo != 0
    ensures OnSaveReply(u, r)
            == SetPlayer(u, r.session, HandledPlayer(u.players[r.session], r)).(tickEnd := OnSaveReply(u, r).tickEnd)
  {
    hide LandedOk, LandedFailed, RequestSave, HandledPlayer, SetPlayer, OnSaveReply;
    var s, p := r.session, u.players[r.session];
    Landed(p, r);
    var v := u.(inflight := u.inflight - 1,
                players := u.players[s := if r.ok then LandedOk(p) else LandedFailed(p, r)]);
    assert OnSaveReply(u, r) == if r.ok && p.flight.again then RequestSave(v, s) else v by { LiveReplyIs(u, r); }
    assert SetPlayer(u, s, HandledPlayer(p, r))
           == u.(inflight := u.inflight - 1, players := u.players[s := HandledPlayer(p, r)]) by {
      LandedPlayer(u, s, HandledPlayer(p, r));
    }
    if r.ok && p.flight.again {
      RequestIs(v, s);
      assert ListedIn(v.players, s) == u.players[s := HandledPlayer(p, r)];
    }
  }

  lemma LiveReplyIs(u: World, r: Reply)
    requires r.session != LEFT && ForLive(u, r)
    ensures var s, p := r.session, u.players[r.session];
            var v := u.(inflight := u.inflight - 1,
                        players := u.players[s := if r.ok then LandedOk(p) else LandedFailed(p, r)]);
            OnSaveReply(u, r) == if r.ok && p.flight.again then RequestSave(v, s) else v
  {
    hide LandedOk, LandedFailed, RequestSave;
  }

  lemma LandedPlayer(u: World, s: Session, q: Player)
    requires s in u.players && u.players[s].flight.bundleNo != 0 && q.flight.bundleNo == 0
    ensures SetPlayer(u, s, q) == u.(inflight := u.inflight - 1, players := u.players[s := q])
  {
  }

  lemma Landed(p: Player, r: Reply)
    ensures HandledPlayer(p, r).flight.bundleNo == 0
    ensures !r.ok ==> HandledPlayer(p, r) == LandedFailed(p, r)
    ensures r.ok && !p.flight.again ==> HandledPlayer(p, r) == LandedOk(p)
    ensures r.ok && p.flight.again ==>
              HandledPlayer(p, r) == LandedOk(p).(flight := LandedOk(p).flight.(listed := true))
  {
  }

  lemma RecordReplyFrame(w: World, u: World, r: Reply)
    requires Frame(w) && Frame(u) && u == w.(replies := u.replies) && r.session == LEFT
    requires ViewOf(w, r.account).live == None && ViewOf(w, r.account).rec.Some?
    requires ViewOf(w, r.account).rec.value.inFlight && ViewOf(w, r.account).rec.value.bundleNo == r.bundleNo
    requires ViewOf(w, r.account).rs != [] && ViewOf(w, r.account).rs[0] == r
    requires ViewOf(u, r.account) == ViewOf(w, r.account).(rs := ViewOf(w, r.account).rs[1..])
    requires forall b :: b != r.account ==> ViewOf(u, b) == ViewOf(w, b)
    ensures var v := OnSaveReply(u, r);
            && Frame(v)
            && v.table == w.table && v.pairs == w.pairs && v.trades == w.trades && v.jobs == w.jobs && v.dbAt == w.dbAt
            && ViewOf(v, r.account) == HandledView(ViewOf(w, r.account))
            && forall b :: b != r.account ==> ViewOf(v, b) == ViewOf(w, b)
  {
    hide ViewOf, Flying, QueuesOk, Base;
    var a := r.account;
    RecordIn(w, a);
    if r.ok {
      DropRecordFrame(u, a);
    } else {
      var q := w.leave[a].(inFlight := false);
      SetRecordFrame(u, a, q, u.leaveSeq);
      assert OnSaveReply(u, r) == SetRecord(u, a, q, u.leaveSeq);
    }
  }

  lemma RecordIn(w: World, a: Account)
    requires ViewOf(w, a).rec.Some?
    ensures a in w.leave && w.leave[a] == ViewOf(w, a).rec.value
  {
    hide Gather, ReadChar;
  }

  lemma DropRecordFrame(w: World, a: Account)
    requires Frame(w)
    ensures Frame(w.(leave := w.leave - {a}))
    ensures ViewOf(w.(leave := w.leave - {a}), a) == ViewOf(w, a).(rec := None)
    ensures forall b :: b != a ==> ViewOf(w.(leave := w.leave - {a}), b) == ViewOf(w, b)
  {
    var v := w.(leave := w.leave - {a});
    assert Flying(v) == Flying(w);
    hide Flying, Gather, ReadChar;
    forall i | 0 <= i < |v.jobs| ensures JobOk(v, v.jobs[i]) { assert JobOk(w, w.jobs[i]); }
  }

  lemma OrphanReply(w: World, u: World, r: Reply)
    requires Base(w) && SessionOk(w, r.session, r.account) && u == w.(replies := u.replies) && r.session != LEFT
    requires ViewOf(w, r.account).live == None
    ensures OnSaveReply(u, r) == u
  {
    hide Gather, ReadChar;
    if r.session in w.players {
      Ownership(w, r.session);
    }
  }

  // ----- the link

  function MarkedLink(l: PairLink, k: nat, ok: bool): PairLink
    requires TwoSided(l) && k < 2
  {
    l.(sides := l.sides[k := l.sides[k].(replied := true)], ok := l.ok && ok)
  }

  /** The first head of a pair has been answered: the link waits for the other. */
  lemma LinkFirstAnswer0(jobs: seq<Job>, l: PairLink, v0: View, v1: View)
    requires LinkOk(jobs, l, v0, v1) && v0.rs != [] && !l.sides[1].replied
    ensures LinkOk(jobs, MarkedLink(l, 0, v0.rs[0].ok), HandledView(v0), v1)
  {
  }

  lemma LinkFirstAnswer1(jobs: seq<Job>, l: PairLink, v0: View, v1: View)
    requires LinkOk(jobs, l, v0, v1) && v1.rs != [] && !l.sides[0].replied
    ensures LinkOk(jobs, MarkedLink(l, 1, v1.rs[0].ok), v0, HandledView(v1))
  {
  }

  /** Both heads have been answered with a failure: the link stays for another attempt. */
  lemma LinkFailed0(jobs: seq<Job>, l: PairLink, v0: View, v1: View)
    requires LinkOk(jobs, l, v0, v1) && v0.rs != [] && l.sides[1].replied && !(l.ok && v0.rs[0].ok)
    ensures LinkOk(jobs, MarkedLink(l, 0, v0.rs[0].ok).(inFlight := false), HandledView(v0), v1)
  {
  }

  lemma LinkFailed1(jobs: seq<Job>, l: PairLink, v0: View, v1: View)
    requires LinkOk(jobs, l, v0, v1) && v1.rs != [] && l.sides[0].replied && !(l.ok && v1.rs[0].ok)
    ensures LinkOk(jobs, MarkedLink(l, 1, v1.rs[0].ok).(inFlight := false), v0, HandledView(v1))
  {
  }

  /** A reply for an account on a link answers that link's head. */
  lemma LinkMatches(jobs: seq<Job>, l: PairLink, v0: View, v1: View)
    requires LinkOk(jobs, l, v0, v1)
    ensures v0.rs != [] ==> l.inFlight && !l.sides[0].replied && l.sides[0].bundleNo == v0.rs[0].bundleNo
    ensures v1.rs != [] ==> l.inFlight && !l.sides[1].replied && l.sides[1].bundleNo == v1.rs[0].bundleNo
    ensures v0.rs != [] && l.sides[1].replied && l.ok && v0.rs[0].ok ==>
              Settled(l, 0, v0) && Settled(l, 1, v1) && Finished(l, 0, v0) && Finished(l, 1, v1)
    ensures v1.rs != [] && l.sides[0].replied && l.ok && v1.rs[0].ok ==>
              Settled(l, 0, v0) && Settled(l, 1, v1) && Finished(l, 0, v0) && Finished(l, 1, v1)
  {
  }

  /** One side of a link that is about to be released: at most its own reply is left to handle. */
  ghost predicate Finished(l: PairLink, k: nat, v: View)
    requires TwoSided(l) && k < 2
  {
    && v.ws == []
    && (v.rs == [] || |v.rs| == 1)
    && (l.sides[k].session != LEFT ==> v.live.Some? && v.session == l.sides[k].session && v.live.value.flight.paired)
    && (l.sides[k].session == LEFT ==> (v.rec.Some? && v.rec.value.paired) || (v.live.None? && v.rec.None?))
  }

  lemma HandledPaired(v: View)
    requires v.rs != [] && Paired(HandledView(v))
    ensures Paired(v)
  {
  }

  lemma MarkedTrade(l: PairLink, k: nat, ok: bool, f: bool)
    requires TwoSided(l) && k < 2
    ensures forall t ::
              IsTrade(l, t) ==> IsTrade(MarkedLink(l, k, ok), t) && IsTrade(MarkedLink(l, k, ok).(inFlight := f), t)
    ensures TwoSided(MarkedLink(l, k, ok))
    ensures MarkedLink(l, k, ok).sides[0].account == l.sides[0].account
            && MarkedLink(l, k, ok).sides[1].account == l.sides[1].account
  {
  }

  // ----- the reply, on no link

  lemma ReplyFreeKeeps(w: World)
    requires Inv(w) && w.replies != [] && !Linked(w.pairs, w.replies[0].account)
    ensures Inv(HandleReply(w))
  {
    hide ViewOk, LinkOk, Flying, TradesOk, Base, LinksOk, ViewsOk, Paired, ViewOf, QueuesOk, Has, OnSaveReply;
    var r := w.replies[0];
    var v := OnSaveReply(Tail(w), r);
    SaveReplyFrame(w);
    assert OnPairReply(v, r) == v by {
      var i := FindPair(w.pairs, r.account);
      assert i == |w.pairs|;
    }
    hide OnPairReply, Linked;
    TheView(w, r.account);
    HandledOk(w.table, ViewOf(w, r.account), r.account);
    if Paired(ViewOf(v, r.account)) { HandledPaired(ViewOf(w, r.account)); }
    assert DbAt(v, r.account) == DbAt(w, r.account);
    OneFreeAccount(w, v, r.account);
  }

  // ----- the reply, on a link that stays

  lemma LinkStaysKeeps(w: World, v: World, i: nat, m: PairLink)
    requires Inv(w) && w.replies != [] && i < |w.pairs| && Has(w.pairs[i], w.replies[0].account)
    requires v == OnSaveReply(Tail(w), w.replies[0])
    requires TwoSided(w.pairs[i]) && TwoSided(m)
    requires m.sides[0].account == w.pairs[i].sides[0].account && m.sides[1].account == w.pairs[i].sides[1].account
    requires forall t :: IsTrade(w.pairs[i], t) ==> IsTrade(m, t)
    requires LinkOk(w.jobs, m, ViewOf(v, m.sides[0].account), ViewOf(v, m.sides[1].account))
    ensures Inv(v.(pairs := w.pairs[i := m]))
  {
    hide ViewOk, LinkOk, Flying, TradesOk, Base, LinksOk, ViewsOk, Paired, ViewOf, QueuesOk, OnSaveReply, IsTrade,
         Linked;
    var r := w.replies[0];
    var u := v.(pairs := w.pairs[i := m]);
    SaveReplyFrame(w);
    PairsFrame(v, w.pairs[i := m]);
    forall b ensures ViewOk(w.table, ViewOf(v, b), b) {
      TheView(w, b);
      if b == r.account { HandledOk(w.table, ViewOf(w, b), b); }
    }
    assert forall b :: DbAt(u, b) == DbAt(w, b);
    TradesSame(w, u, i, m);
    HasEither(w.pairs[i], r.account);
    OneLink(w, u, i, m);
  }

  lemma HasEither(l: PairLink, a: Account)
    requires TwoSided(l) && Has(l, a)
    ensures l.sides[0].account == a || l.sides[1].account == a
  {
  }

  // ----- the reply that releases a link

  /** The side's hold is gone, and nothing else has happened yet. */
  function Clear(w: World, sd: Side): World { w.(players := Unpaired(w.players, sd), leave := Unheld(w.leave, sd)) }

  function Unpaired(players: map<Session, Player>, sd: Side): map<Session, Player> {
    if sd.session != LEFT && sd.session in players && players[sd.session].account == sd.account then
      var p := players[sd.session];
      players[sd.session := p.(flight := p.flight.(paired := false))]
    else players
  }

  function Unheld(leave: map<Account, LeaveRecord>, sd: Side): map<Account, LeaveRecord> {
    if sd.session == LEFT && sd.account in leave then leave[sd.account := leave[sd.account].(paired := false)]
       else leave
  }

  /** What the release sets going again: a save request, or the held record. */
  function Follow(w: World, sd: Side): World {
    if sd.session != LEFT then
      if sd.session in w.players && w.players[sd.session].account == sd.account then RequestSave(w, sd.session) else w
    else if sd.account in w.leave && !w.leave[sd.account].inFlight then SendLeaveRecord(w, sd.account)
    else w
  }

  lemma ReleaseIs(w: World, sd: Side)
    requires sd.session == LEFT && sd.account in w.leave ==> w.leave[sd.account].paired
    ensures ReleasePairSide(w, sd) == Follow(Clear(w, sd), sd)
  {
    hide SendLeaveRecord, RequestSave;
  }

  /** Releasing one side does not touch the other. */
  lemma ClearAfterFollow(w: World, d0: Side, d1: Side)
    requires d0.account != d1.account && (d0.session != LEFT ==> d0.session != d1.session)
    ensures Clear(Follow(w, d0), d1) == Follow(Clear(w, d1), d0)
    ensures Follow(w, d0).leave.Keys == w.leave.Keys
    ensures d1.account in w.leave ==> Follow(w, d0).leave[d1.account] == w.leave[d1.account]
  {
    if d0.session != LEFT {
      if d0.session in w.players { ClearAfterRequest(w, d0.session, d1); } else { NotInHub(w, d0, d1); }
    } else {
      if d0.account in w.leave { ClearAfterSend(w, d0.account, d1); }
    }
  }

  lemma NotInHub(w: World, d0: Side, d1: Side)
    requires d0.session != LEFT && d0.session !in w.players
    ensures d0.session !in Clear(w, d1).players
  {
  }

  function ListedIn(players: map<Session, Player>, s: Session): map<Session, Player>
    requires s in players
  {
    players[s := players[s].(flight := players[s].flight.(listed := true))]
  }

  function TickEndOf(w: World, s: Session, p: Player): seq<Session> {
    if p.flight.listed then w.tickEnd else w.tickEnd + [s]
  }

  lemma RequestIs(w: World, s: Session)
    requires s in w.players
    ensures RequestSave(w, s) == w.(players := ListedIn(w.players, s), tickEnd := TickEndOf(w, s, w.players[s]))
  {
    var p := w.players[s];
    if p.flight.listed {
      assert p == p.(flight := p.flight.(listed := true));
      assert w.players[s := p] == w.players;
    }
  }

  lemma UnpairedListed(players: map<Session, Player>, s: Session, d: Side)
    requires s in players && s != d.session
    ensures s in Unpaired(players, d) && Unpaired(players, d)[s] == players[s]
    ensures Unpaired(ListedIn(players, s), d) == ListedIn(Unpaired(players, d), s)
  {
  }

  lemma ClearAfterRequest(w: World, s: Session, d1: Side)
    requires s != d1.session && s != LEFT && s in w.players
    ensures s in Clear(w, d1).players
    ensures Clear(w, d1).players[s] == w.players[s]
    ensures Clear(RequestSave(w, s), d1) == RequestSave(Clear(w, d1), s)
    ensures RequestSave(w, s).leave == w.leave
  {
    hide RequestSave, ListedIn, Unpaired, Unheld, TickEndOf;
    UnpairedListed(w.players, s, d1);
    RequestIs(w, s);
    RequestIs(Clear(w, d1), s);
    assert TickEndOf(w, s, w.players[s]) == TickEndOf(Clear(w, d1), s, w.players[s]) by {
      SameTickEnd(w, Clear(w, d1), s, w.players[s]);
    }
  }

  lemma SameTickEnd(w: World, v: World, s: Session, p: Player)
    requires v.tickEnd == w.tickEnd
    ensures TickEndOf(w, s, p) == TickEndOf(v, s, p)
  {
  }

  lemma ClearAfterSend(w: World, a: Account, d1: Side)
    requires a in w.leave && a != d1.account
    ensures Clear(SendLeaveRecord(w, a), d1) == SendLeaveRecord(Clear(w, d1), a)
    ensures SendLeaveRecord(w, a).leave.Keys == w.leave.Keys
    ensures d1.account in w.leave ==> SendLeaveRecord(w, a).leave[d1.account] == w.leave[d1.account]
    ensures a in Clear(w, d1).leave && Clear(w, d1).leave[a] == w.leave[a]
  {
    hide PushSave, SaveFits, LeaveWrite, NextNo, Clear;
    var n := NextNo(w.leaveSeq);
    var r := w.leave[a].(bundleNo := n);
    var x := LeaveWrite(a, r, None);
    var t, f := r.(inFlight := true), r.(inFlight := false);
    FitsAfterClear(w, x, d1);
    ClearKeeps(w, d1, a, n, t);
    ClearKeeps(w, d1, a, n, f);
    PushCommutes(w.(leaveSeq := n, leave := w.leave[a := t]), x, d1);
  }

  /** Clearing one side and putting down another account's record do not meet. */
  lemma ClearKeeps(w: World, d: Side, a: Account, n: nat, r: LeaveRecord)
    requires a in w.leave && a != d.account
    ensures Clear(w.(leaveSeq := n, leave := w.leave[a := r]), d)
            == Clear(w, d).(leaveSeq := n, leave := Clear(w, d).leave[a := r])
    ensures a in Clear(w, d).leave && Clear(w, d).leave[a] == w.leave[a] && Clear(w, d).leaveSeq == w.leaveSeq
  {
    if d.session == LEFT && d.account in w.leave {
      var q := w.leave[d.account].(paired := false);
      assert w.leave[a := r][d.account := q] == w.leave[d.account := q][a := r];
    }
  }

  lemma PushKeepsLeave(w: World, x: Write, ls: map<Account, LeaveRecord>)
    ensures PushSave(w, x).(leave := ls) == PushSave(w.(leave := ls), x)
    ensures PushSave(w, x).leave == w.leave
  {
  }

  lemma PushCommutes(w: World, x: Write, d: Side)
    ensures Clear(PushSave(w, x), d) == PushSave(Clear(w, d), x)
    ensures PushSave(w, x).leave == w.leave && PushSave(w, x).players == w.players
  {
    hide PushSave;
    PushKeepsPlayers(w, x, Clear(w, d).players);
    PushKeepsLeave(w, x, Clear(w, d).leave);
  }

  lemma FitsAfterClear(w: World, x: Write, d: Side)
    ensures SaveFits(Clear(w, d), x) == SaveFits(w, x)
  {
  }

  function ClearedView(v: View): View {
    if v.live.Some? then v.(live := Some(v.live.value.(flight := v.live.value.flight.(paired := false))))
    else if v.rec.Some? then v.(rec := Some(v.rec.value.(paired := false)))
    else v
  }

  lemma ClearedOk(table: ItemTable, v: View, a: Account)
    requires ViewOk(table, v, a) && v.ws == [] && v.rs == []
    ensures ViewOk(table, ClearedView(v), a)
    ensures !Paired(ClearedView(v))
    ensures v.rec.Some? ==> !v.rec.value.inFlight
  {
    hide ViewOk;
    if v.live.Some? {
      var p := v.live.value;
      FlagsView(table, v, a, p, p.(flight := p.flight.(paired := false)));
      LiveHasNoRecord(table, v, a);
    } else if v.rec.Some? {
      QuietRecord(table, v, a);
      RenumberedView(table, v, a, v.rec.value, v.rec.value.(paired := false));
    }
  }

  lemma LiveHasNoRecord(table: ItemTable, v: View, a: Account)
    requires ViewOk(table, v, a) && v.live.Some?
    ensures v.rec == None
  {
    hide HistoryOk, QueueOk, Agree;
  }

  lemma QuietRecord(table: ItemTable, v: View, a: Account)
    requires ViewOk(table, v, a) && v.rec.Some? && v.ws == [] && v.rs == []
    ensures !v.rec.value.inFlight
  {
    hide HistoryOk, QueueOk, Agree;
  }

  /** Clearing one side clears its view. */
  lemma ClearFrame(w: World, sd: Side)
    requires Frame(w)
    requires sd.session != LEFT ==> ViewOf(w, sd.account).live.Some? && ViewOf(w, sd.account).session == sd.session
    requires sd.session == LEFT ==> ViewOf(w, sd.account).live.None?
    ensures Frame(Clear(w, sd))
    ensures ViewOf(Clear(w, sd), sd.account) == ClearedView(ViewOf(w, sd.account))
    ensures forall b :: b != sd.account ==> ViewOf(Clear(w, sd), b) == ViewOf(w, b)
    ensures Clear(w, sd) == w.(players := Clear(w, sd).players, leave := Clear(w, sd).leave)
    ensures sd.account in w.leave <==> sd.account in Clear(w, sd).leave
  {
    hide ViewOf, Flying, QueuesOk, Base;
    var a := sd.account;
    if sd.session != LEFT {
      LiveSession(w, a) by { FrameIsBase(w); }
      var p := w.players[sd.session];
      SetPlayerFrame(w, sd.session, p.(flight := p.flight.(paired := false)));
      SetPlayerViews(w, sd.session, p.(flight := p.flight.(paired := false))) by { FrameIsBase(w); }
    } else if sd.account in w.leave {
      RecordSeen(w, a);
      SetRecordFrame(w, a, w.leave[a].(paired := false), w.leaveSeq);
    } else {
      NoRecordSeen(w, a);
    }
  }

  lemma FrameIsBase(w: World)
    requires Frame(w)
    ensures Base(w)
  {
  }

  lemma RecordSeen(w: World, a: Account)
    requires a in w.leave
    ensures ViewOf(w, a).rec == Some(w.leave[a])
  {
    hide Gather, ReadChar;
  }

  lemma NoRecordSeen(w: World, a: Account)
    requires a !in w.leave
    ensures ViewOf(w, a).rec == None
  {
    hide Gather, ReadChar;
  }

  /** A side all of whose answers have been handled and that still holds its player or record. */
  ghost predicate ReadyToClear(v: View, sd: Side) {
    && v.ws == [] && v.rs == []
    && (sd.session != LEFT ==> v.live.Some? && v.session == sd.session)
    && (sd.session == LEFT ==> v.live.None? && (v.rec.Some? ==> v.rec.value.paired))
  }

  lemma FinishedClears(table: ItemTable, v: View, a: Account, l: PairLink, k: nat)
    requires ViewOk(table, v, a) && TwoSided(l) && k < 2 && Finished(l, k, v)
    ensures v.rs == [] ==> ReadyToClear(v, l.sides[k])
    ensures v.rs != [] ==> ReadyToClear(HandledView(v), l.sides[k])
  {
    hide HistoryOk, QueueOk, Agree;
  }

  /** Clearing both sides. */
  function Cleared2(w: World, d0: Side, d1: Side): World { Clear(Clear(w, d0), d1) }

  lemma BothClear(w: World, d0: Side, d1: Side)
    requires Frame(w) && d0.account != d1.account
    requires ReadyToClear(ViewOf(w, d0.account), d0) && ReadyToClear(ViewOf(w, d1.account), d1)
    ensures Frame(Cleared2(w, d0, d1))
    ensures ViewOf(Cleared2(w, d0, d1), d0.account) == ClearedView(ViewOf(w, d0.account))
    ensures ViewOf(Cleared2(w, d0, d1), d1.account) == ClearedView(ViewOf(w, d1.account))
    ensures forall b :: b != d0.account && b != d1.account ==> ViewOf(Cleared2(w, d0, d1), b) == ViewOf(w, b)
    ensures var v := Cleared2(w, d0, d1); v == w.(players := v.players, leave := v.leave)
    ensures d0.session != LEFT ==> d0.session != d1.session
  {
    hide Frame, ViewOf, Clear, ClearedView;
    ClearFrame(w, d0);
    assert ViewOf(Clear(w, d0), d1.account) == ViewOf(w, d1.account);
    ClearFrame(Clear(w, d0), d1);
    SessionsDiffer(w, d0, d1);
  }

  lemma SessionsDiffer(w: World, d0: Side, d1: Side)
    requires Frame(w) && d0.account != d1.account
    requires ReadyToClear(ViewOf(w, d0.account), d0) && ReadyToClear(ViewOf(w, d1.account), d1)
    ensures d0.session != LEFT ==> d0.session != d1.session
  {
    hide ViewOf, Flying, QueuesOk;
    if d0.session != LEFT && d1.session != LEFT {
      LiveSession(w, d0.account);
      LiveSession(w, d1.account);
    }
  }

  lemma ReleaseTwo(w: World, d0: Side, d1: Side)
    requires d0.account != d1.account && (d0.session != LEFT ==> d0.session != d1.session)
    requires d0.session == LEFT && d0.account in w.leave ==> w.leave[d0.account].paired
    requires d1.session == LEFT && d1.account in w.leave ==> w.leave[d1.account].paired
    ensures ReleasePairSide(ReleasePairSide(w, d0), d1) == Follow(Follow(Cleared2(w, d0, d1), d0), d1)
  {
    hide ReleasePairSide, Follow, Clear;
    ReleaseIs(w, d0);
    ClearAfterFollow(Clear(w, d0), d0, d1);
    ClearOther(w, d0, d1.account);
    ReleaseIs(Follow(Clear(w, d0), d0), d1);
  }

  lemma ClearOther(w: World, d: Side, a: Account)
    requires a != d.account
    ensures Clear(w, d).leave.Keys == w.leave.Keys
    ensures a in w.leave ==> Clear(w, d).leave[a] == w.leave[a]
  {
  }

  /** A record the link no longer holds. */
  ghost predicate LetGo(w: World, sd: Side) {
    sd.session == LEFT && sd.account in w.leave ==> !w.leave[sd.account].paired
  }

  lemma FollowKeeps(w: World, sd: Side)
    requires Inv(w) && LetGo(w, sd)
    ensures Inv(Follow(w, sd))
  {
    hide Inv, RequestSave, SendLeaveRecord;
    if sd.session != LEFT {
      if sd.session in w.players { RequestSaveKeeps(w, sd.session); }
    } else {
      if sd.account in w.leave && !w.leave[sd.account].inFlight { SendLeaveRecordKeeps(w, sd.account); }
    }
  }

  // ----- the link is gone

  lemma TradesReleased(w: World, v: World, i: nat)
    requires TradesOk(w) && i < |w.pairs| && TwoSided(w.pairs[i])
    requires v.trades == w.trades && v.pairs == Without(w.pairs, i)
    requires forall b :: DbAt(v, b) == DbAt(w, b)
    requires DbAt(w, w.pairs[i].sides[0].account) >= w.pairs[i].sides[0].tradeAt
    ensures TradesOk(v)
  {
    hide DbAt;
    forall k | 0 <= k < |v.trades| ensures TradeOk(v, v.trades[k]) {
      var t := w.trades[k];
      assert TradeOk(w, t);
      if DbAt(w, t.a) < t.aAt {
        var m :| 0 <= m < |w.pairs| && IsTrade(w.pairs[m], t);
        assert m != i;
        assert v.pairs[if m < i then m else m - 1] == w.pairs[m];
      }
    }
  }

  lemma NotOnOther(w: World, i: nat, n: nat, c: Account)
    requires Inv(w) && i < |w.pairs| && n < |w.pairs| && n != i && TwoSided(w.pairs[i]) && Has(w.pairs[n], c)
    ensures c != w.pairs[i].sides[0].account && c != w.pairs[i].sides[1].account
  {
    hide Inv, Has;
    SameHas(w.pairs[i], w.pairs[i], c);
    if Has(w.pairs[i], c) { OneLinkEach(w, i, n, c); }
  }

  lemma LinksWithout(w: World, v: World, i: nat)
    requires Inv(w) && i < |w.pairs| && TwoSided(w.pairs[i]) && v.pairs == Without(w.pairs, i) && v.jobs == w.jobs
    requires forall b ::
               b != w.pairs[i].sides[0].account && b != w.pairs[i].sides[1].account ==> ViewOf(v, b) == ViewOf(w, b)
    requires !Paired(ViewOf(v, w.pairs[i].sides[0].account)) && !Paired(ViewOf(v, w.pairs[i].sides[1].account))
    ensures LinksOk(v)
  {
    hide LinkOk, ViewOf, Paired, Has, Inv, LinksOk;
    forall m | 0 <= m < |v.pairs|
      ensures TwoSided(v.pairs[m])
      ensures LinkOk(v.jobs, v.pairs[m], ViewOf(v, v.pairs[m].sides[0].account), ViewOf(v, v.pairs[m].sides[1].account))
    {
      var n := if m < i then m else m + 1;
      TheLink(w, n);
      SameHas(w.pairs[n], w.pairs[n], 0);
      NotOnOther(w, i, n, w.pairs[n].sides[0].account);
      NotOnOther(w, i, n, w.pairs[n].sides[1].account);
    }
    forall m, n, c | 0 <= m < |v.pairs| && 0 <= n < |v.pairs| && Has(v.pairs[m], c) && Has(v.pairs[n], c)
        ensures m == n {
      OneLinkEach(w, if m < i then m else m + 1, if n < i then n else n + 1, c);
    }
    forall c | Paired(ViewOf(v, c)) ensures Linked(v.pairs, c) { StillLinked(w, v, i, c); }
    LinksOkFrom(v);
  }

  lemma StillLinked(w: World, v: World, i: nat, c: Account)
    requires Inv(w) && i < |w.pairs| && TwoSided(w.pairs[i]) && v.pairs == Without(w.pairs, i)
    requires c != w.pairs[i].sides[0].account && c != w.pairs[i].sides[1].account && Paired(ViewOf(w, c))
    ensures Linked(v.pairs, c)
  {
    hide LinkOk, ViewOf, Paired, Has, Inv;
    TheView(w, c);
    var m :| 0 <= m < |w.pairs| && Has(w.pairs[m], c);
    if m == i { HasEither(w.pairs[i], c); }
    assert v.pairs[if m < i then m else m - 1] == w.pairs[m];
  }
}
