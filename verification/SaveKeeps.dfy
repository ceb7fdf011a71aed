/** Every step of the save protocol keeps its invariant. */
module SaveKeeps {
  import opened Items
  import opened Seqs
  import opened SaveTypes
  import opened SaveSteps
  import opened SaveInvariant
  import opened SaveViews

  // ----- reading the invariant

  lemma TheView(w: World, a: Account)
    requires Inv(w)
    ensures ViewOk(w.table, ViewOf(w, a), a)
    ensures Paired(ViewOf(w, a)) ==> Linked(w.pairs, a)
  {
    hide ViewOk, LinkOk, Base, QueuesOk, Paired, Linked, Flying, ViewOf, TradesOk;
  }

  lemma TheLink(w: World, i: nat)
    requires Inv(w) && i < |w.pairs|
    ensures TwoSided(w.pairs[i])
    ensures LinkOk(w.jobs, w.pairs[i], ViewOf(w, w.pairs[i].sides[0].account), ViewOf(w, w.pairs[i].sides[1].account))
  {
    hide ViewOk, LinkOk, Base, QueuesOk, Paired, Linked, Flying, ViewOf, TradesOk, Has;
  }

  lemma OneLinkEach(w: World, i: nat, j: nat, a: Account)
    requires Inv(w) && i < |w.pairs| && j < |w.pairs| && Has(w.pairs[i], a) && Has(w.pairs[j], a)
    ensures i == j
  {
    hide ViewOk, LinkOk, Base, QueuesOk, Paired, Linked, Flying, ViewOf, TradesOk;
  }

  // ----- putting it together again

  lemma LinkOkMoreJobs(jobs: seq<Job>, more: seq<Job>, l: PairLink, v0: View, v1: View)
    requires LinkOk(jobs, l, v0, v1)
    requires forall j :: j in jobs ==> j in more
    ensures LinkOk(more, l, v0, v1)
  {
    hide SideOk, AnsweredAlike, Settled;
  }

  /** A step that touches one account and queues at most new jobs. */
  lemma OneAccountLinks(w: World, v: World, a: Account)
    requires Inv(w)
    requires v.table == w.table && v.pairs == w.pairs
    requires forall b :: b != a ==> ViewOf(v, b) == ViewOf(w, b)
    requires ViewOk(v.table, ViewOf(v, a), a)
    requires Paired(ViewOf(v, a)) ==> Linked(w.pairs, a)
    requires forall j :: j in w.jobs ==> j in v.jobs
    requires forall i :: 0 <= i < |w.pairs| && Has(w.pairs[i], a) ==>
               TwoSided(w.pairs[i]) &&
               LinkOk(v.jobs, w.pairs[i], ViewOf(v, w.pairs[i].sides[0].account),
                      ViewOf(v, w.pairs[i].sides[1].account))
    ensures ViewsOk(v) && LinksOk(v)
  {
    hide ViewOk, LinkOk, Base, QueuesOk, Paired, Linked, Flying, ViewOf, TradesOk;
    forall b ensures ViewOk(v.table, ViewOf(v, b), b) && (Paired(ViewOf(v, b)) ==> Linked(v.pairs, b)) {
      if b != a { assert ViewOf(v, b) == ViewOf(w, b); }
    }
    forall i | 0 <= i < |v.pairs|
      ensures TwoSided(v.pairs[i]) &&
              LinkOk(v.jobs, v.pairs[i], ViewOf(v, v.pairs[i].sides[0].account), ViewOf(v, v.pairs[i].sides[1].account))
    {
      var l := w.pairs[i];
      if !Has(l, a) {
        assert l.sides[0].account != a && l.sides[1].account != a;
        LinkOkMoreJobs(w.jobs, v.jobs, l, ViewOf(w, l.sides[0].account), ViewOf(w, l.sides[1].account));
      }
    }
  }

  /** And stores nothing. */
  lemma OneAccount(w: World, v: World, a: Account)
    requires Inv(w)
    requires Base(v) && QueuesOk(v) && v.table == w.table && v.pairs == w.pairs && v.trades == w.trades
    requires forall b :: b != a ==> ViewOf(v, b) == ViewOf(w, b)
    requires DbAt(v, a) == DbAt(w, a)
    requires ViewOk(v.table, ViewOf(v, a), a)
    requires Paired(ViewOf(v, a)) ==> Linked(w.pairs, a)
    requires forall j :: j in w.jobs ==> j in v.jobs
    requires forall i :: 0 <= i < |w.pairs| && Has(w.pairs[i], a) ==>
               TwoSided(w.pairs[i]) &&
               LinkOk(v.jobs, w.pairs[i], ViewOf(v, w.pairs[i].sides[0].account),
                      ViewOf(v, w.pairs[i].sides[1].account))
    requires v.inflight == |Flying(v)|
    ensures Inv(v)
  {
    hide ViewOk, LinkOk, Base, QueuesOk, Paired, Linked, Flying, ViewOf, ViewsOk, LinksOk;
    OneAccountLinks(w, v, a);
    forall i | 0 <= i < |v.trades| ensures TradeOk(v, v.trades[i]) {
      var t := w.trades[i];
      assert TradeOk(w, t);
      SameDbAt(w, v, a, t.a);
      SameDbAt(w, v, a, t.b);
    }
  }

  lemma SameDbAt(w: World, v: World, a: Account, b: Account)
    requires DbAt(v, a) == DbAt(w, a)
    requires b != a ==> ViewOf(v, b) == ViewOf(w, b)
    ensures DbAt(v, b) == DbAt(w, b)
  {
    if b != a { assert ViewOf(v, b).dbAt == ViewOf(w, b).dbAt; }
  }

  // ----- small changes of the state

  function Fly(p: Player): int { if p.flight.bundleNo != 0 then 1 else 0 }

  /** The parts of the invariant that do not speak of one account or link. */
  ghost predicate Frame(w: World) { Base(w) && QueuesOk(w) && w.inflight == |Flying(w)| }

  function SetPlayer(w: World, s: Session, p: Player): World
    requires s in w.players
  {
    w.(players := w.players[s := p], inflight := w.inflight + Fly(p) - Fly(w.players[s]))
  }

  lemma SetPlayerFrame(w: World, s: Session, p: Player)
    requires Frame(w) && s in w.players && p.account == w.players[s].account
    ensures Frame(SetPlayer(w, s, p))
  {
    var v := SetPlayer(w, s, p);
    assert Flying(v) == if Fly(p) == 1 then Flying(w) + {s} else Flying(w) - {s};
    assert Fly(w.players[s]) == 1 <==> s in Flying(w);
    assert QueuesOk(v) by {
      hide Base, Flying;
      forall i | 0 <= i < |w.jobs| ensures JobOk(v, v.jobs[i]) { assert JobOk(w, w.jobs[i]); }
    }
  }

  lemma SetPlayerViews(w: World, s: Session, p: Player)
    requires Base(w) && s in w.players && p.account == w.players[s].account
    ensures ViewOf(SetPlayer(w, s, p), p.account) == ViewOf(w, p.account).(live := Some(p))
    ensures forall b :: b != p.account ==> ViewOf(SetPlayer(w, s, p), b) == ViewOf(w, b)
  {
    hide Gather, ReadChar;
  }

  lemma PushSaveFrame(w: World, x: Write)
    requires Frame(w) && JobOk(w, Save(x))
    ensures Frame(PushSave(w, x))
  {
    var v := PushSave(w, x);
    assert Flying(v) == Flying(w);
    hide Flying;
    forall i | 0 <= i < |v.jobs| ensures JobOk(v, v.jobs[i]) {
      if i < |w.jobs| { assert JobOk(w, w.jobs[i]); } else { assert v.jobs[i] == Save(x); }
    }
    forall i | 0 <= i < |v.replies| ensures SessionOk(v, v.replies[i].session, v.replies[i].account) {
      assert SessionOk(w, w.replies[i].session, w.replies[i].account);
    }
  }

  lemma PushSaveViews(w: World, x: Write)
    ensures ViewOf(PushSave(w, x), x.account) == ViewOf(w, x.account).(ws := ViewOf(w, x.account).ws + [x])
    ensures forall b :: b != x.account ==> ViewOf(PushSave(w, x), b) == ViewOf(w, b)
  {
    hide Gather, ReadChar;
    forall b ensures WritesFor(w.jobs + [Save(x)], b) == WritesFor(w.jobs, b) + WritesIn(Save(x), b) {
      GatherSnoc(WriterOf(b), w.jobs, Save(x));
    }
  }

  // ----- links and paired accounts

  /** The two views look the same from a link. */
  ghost predicate SameOnLink(v: View, u: View) {
    && u.ws == v.ws && u.rs == v.rs && u.dbAt == v.dbAt && |u.hist| >= |v.hist| && u.session == v.session
    && u.live.Some? == v.live.Some? && u.rec.Some? == v.rec.Some?
    && (v.live.Some? ==> u.live.value.flight.paired == v.live.value.flight.paired)
    && (v.rec.Some? ==> u.rec.value.paired == v.rec.value.paired)
  }

  lemma LinkOkSame(jobs: seq<Job>, l: PairLink, v0: View, v1: View, u0: View, u1: View)
    requires LinkOk(jobs, l, v0, v1) && SameOnLink(v0, u0) && SameOnLink(v1, u1)
    ensures LinkOk(jobs, l, u0, u1)
  {
  }

  lemma Ownership(w: World, s: Session)
    requires Base(w) && s in w.players
    ensures w.players[s].account in w.owner && w.owner[w.players[s].account] == s && s != LEFT
    ensures ViewOf(w, w.players[s].account).live == Some(w.players[s])
    ensures ViewOf(w, w.players[s].account).session == s
  {
    hide Gather, ReadChar;
  }

  /** A live account is on a link exactly when its player says so. */
  lemma LinkedIsPaired(w: World, s: Session)
    requires Inv(w) && s in w.players
    ensures w.players[s].account !in w.leave
    ensures w.players[s].flight.paired <==> Linked(w.pairs, w.players[s].account)
  {
    hide ViewOk, LinkOk, QueuesOk, Paired, Flying, TradesOk, SideOk, TwoSided, Base, LinksOk, ViewsOk, Has, Gather,
         ReadChar;
    var a := w.players[s].account;
    Ownership(w, s);
    TheView(w, a);
    LivePaired(w.table, ViewOf(w, a), a);
    if Linked(w.pairs, a) {
      var i :| 0 <= i < |w.pairs| && Has(w.pairs[i], a);
      LinkedLive(w, i, a);
    }
  }

  lemma LinkedLive(w: World, i: nat, a: Account)
    requires Inv(w) && i < |w.pairs| && Has(w.pairs[i], a)
    requires ViewOf(w, a).live.Some? && ViewOf(w, a).rec.None?
    ensures ViewOf(w, a).live.value.flight.paired
  {
    hide ViewOk, LinkOk, QueuesOk, Paired, Flying, TradesOk, SideOk, Base, LinksOk, ViewsOk, ViewOf;
    TheLink(w, i);
    var l := w.pairs[i];
    LinkedSide(w.jobs, l, ViewOf(w, l.sides[0].account), ViewOf(w, l.sides[1].account));
  }

  lemma LivePaired(table: ItemTable, v: View, a: Account)
    requires ViewOk(table, v, a) && v.live.Some?
    ensures v.rec.None?
    ensures v.live.value.flight.paired ==> Paired(v)
  {
    hide HistoryOk, QueueOk, Agree;
  }

  lemma LinkedSide(jobs: seq<Job>, l: PairLink, v0: View, v1: View)
    requires LinkOk(jobs, l, v0, v1)
    ensures SideOk(l, 0, v0) && SideOk(l, 1, v1)
    ensures v0.live.Some? && v0.rec.None? ==> v0.live.value.flight.paired
    ensures v1.live.Some? && v1.rec.None? ==> v1.live.value.flight.paired
  {
    hide AnsweredAlike, Settled;
  }

  // ----- the game changes a player

  lemma PlayedKeeps(w: World, s: Session, p: Player)
    requires Inv(w) && s in w.players && Plays(w.table, w.players[s], p)
    ensures Inv(Played(w, s, p))
  {
    hide ViewOk, LinkOk, QueuesOk, Flying, TradesOk, Base, LinksOk, ViewsOk, ViewOf, Linked, Has, Paired, Plays;
    var v, a := Played(w, s, p), p.account;
    assert a == w.players[s].account && p.flight == w.players[s].flight by {
      assert Plays(w.table, w.players[s], p);
      PlaysFlight(w.table, w.players[s], p);
    }
    Ownership(w, s);
    TheView(w, a);
    PlayedFrame(w, s, p);
    PlayedView(w.table, ViewOf(w, a), a, w.players[s], p);
    PlayedDbAt(w, s, p);
    SamePaired(ViewOf(w, a), ViewOf(v, a));
    LinksAfter(w, v, a);
    OneAccount(w, v, a);
  }

  lemma PlaysFlight(table: ItemTable, o: Player, p: Player)
    requires Plays(table, o, p)
    ensures p.account == o.account && p.flight == o.flight
  {
  }

  lemma PlayedDbAt(w: World, s: Session, p: Player)
    requires s in w.players
    ensures DbAt(Played(w, s, p), p.account) == DbAt(w, p.account)
  {
  }

  lemma SamePaired(v: View, u: View)
    requires SameOnLink(v, u)
    ensures Paired(u) ==> Paired(v)
  {
  }

  /** Links are still in order after a step that links cannot see. */
  lemma LinksAfter(w: World, v: World, a: Account)
    requires Inv(w) && v.pairs == w.pairs && v.jobs == w.jobs
    requires forall b :: b != a ==> ViewOf(v, b) == ViewOf(w, b)
    requires SameOnLink(ViewOf(w, a), ViewOf(v, a))
    ensures forall i :: 0 <= i < |w.pairs| && Has(w.pairs[i], a) ==>
              TwoSided(w.pairs[i]) &&
              LinkOk(v.jobs, w.pairs[i], ViewOf(v, w.pairs[i].sides[0].account), ViewOf(v, w.pairs[i].sides[1].account))
  {
    hide ViewOk, LinkOk, QueuesOk, Flying, TradesOk, Base, LinksOk, ViewsOk, ViewOf, Linked, Has, Paired;
    forall i | 0 <= i < |w.pairs|
      ensures TwoSided(w.pairs[i]) &&
              LinkOk(v.jobs, w.pairs[i], ViewOf(v, w.pairs[i].sides[0].account), ViewOf(v, w.pairs[i].sides[1].account))
    {
      TheLink(w, i);
      var b, c := w.pairs[i].sides[0].account, w.pairs[i].sides[1].account;
      LinkOkSame(w.jobs, w.pairs[i], ViewOf(w, b), ViewOf(w, c), ViewOf(v, b), ViewOf(v, c));
    }
  }

  lemma PlayedFrame(w: World, s: Session, p: Player)
    requires Frame(w) && s in w.players && p.account == w.players[s].account && p.flight == w.players[s].flight
    ensures Frame(Played(w, s, p))
    ensures ViewOf(Played(w, s, p), p.account)
            == ViewOf(w, p.account).(live := Some(p), hist := ViewOf(w, p.account).hist + [SnapOf(p)])
    ensures forall b :: b != p.account ==> ViewOf(Played(w, s, p), b) == ViewOf(w, b)
  {
    var v, u := Played(w, s, p), SetPlayer(w, s, p);
    SetPlayerFrame(w, s, p);
    SetPlayerViews(w, s, p);
    assert v == u.(hist := v.hist);
    PlayedHist(u, v);
    hide Gather, ReadChar;
  }

  lemma PlayedHist(u: World, v: World)
    requires Frame(u) && v == u.(hist := v.hist)
    ensures Frame(v)
  {
    assert Flying(v) == Flying(u);
    hide Flying;
    forall i | 0 <= i < |v.jobs| ensures JobOk(v, v.jobs[i]) { assert JobOk(u, u.jobs[i]); }
  }

  // ----- flags, bundles and leave records of accounts that are on no link

  /** Nothing outstanding for the account needs a link. */
  lemma NotPaired(v: View)
    requires v.live.Some? ==> !v.live.value.flight.paired
    requires v.rec.Some? ==> !v.rec.value.paired
    requires forall i :: 0 <= i < |v.ws| ==> v.ws[i].mate == None
    ensures !Paired(v)
  {
  }

  lemma SetPlayerKeeps(w: World, s: Session, p: Player)
    requires Inv(w) && s in w.players
    requires p == w.players[s].(flight := w.players[s].flight.(again := p.flight.again, listed := p.flight.listed))
    ensures Inv(w.(players := w.players[s := p]))
  {
    hide ViewOk, LinkOk, QueuesOk, Flying, TradesOk, Base, LinksOk, ViewsOk, ViewOf, Linked, Has, Paired;
    var v, a := SetPlayer(w, s, p), p.account;
    assert v == w.(players := w.players[s := p]);
    Ownership(w, s);
    TheView(w, a);
    SetPlayerFrame(w, s, p);
    SetPlayerViews(w, s, p);
    FlagsView(w.table, ViewOf(w, a), a, w.players[s], p);
    SamePaired(ViewOf(w, a), ViewOf(v, a));
    LinksAfter(w, v, a);
    assert DbAt(v, a) == DbAt(w, a);
    OneAccount(w, v, a);
  }

  lemma TickEndKeeps(w: World, t: seq<Session>)
    requires Inv(w)
    ensures Inv(w.(tickEnd := t))
  {
    hide ViewOk, LinkOk, Linked, Has, Paired;
    var v := w.(tickEnd := t);
    TickEndSame(w, t);
    assert ViewsOk(v);
    assert LinksOk(v);
    assert TradesOk(v);
  }

  lemma TickEndSame(w: World, t: seq<Session>)
    requires Frame(w)
    ensures Frame(w.(tickEnd := t))
    ensures forall a :: ViewOf(w.(tickEnd := t), a) == ViewOf(w, a)
    ensures TradesOk(w) ==> TradesOk(w.(tickEnd := t))
  {
    var v := w.(tickEnd := t);
    assert Flying(v) == Flying(w);
    hide Flying;
    forall i | 0 <= i < |v.jobs| ensures JobOk(v, v.jobs[i]) { assert JobOk(w, w.jobs[i]); }
  }

  lemma RequestSaveKeeps(w: World, s: Session)
    requires Inv(w) && s in w.players
    ensures Inv(RequestSave(w, s))
  {
    hide Inv;
    var p := w.players[s];
    if !p.flight.listed {
      var q := p.(flight := p.flight.(listed := true));
      SetPlayerKeeps(w, s, q);
      TickEndKeeps(w.(players := w.players[s := q]), w.tickEnd + [s]);
      assert RequestSave(w, s) == w.(players := w.players[s := q]).(tickEnd := w.tickEnd + [s]);
    }
  }

  /** OneAccount for an account on no link. */
  lemma OneFreeAccount(w: World, v: World, a: Account)
    requires Inv(w) && Frame(v) && v.table == w.table && v.pairs == w.pairs && v.trades == w.trades
    requires forall b :: b != a ==> ViewOf(v, b) == ViewOf(w, b)
    requires DbAt(v, a) == DbAt(w, a)
    requires ViewOk(v.table, ViewOf(v, a), a)
    requires !Paired(ViewOf(v, a)) && !Linked(w.pairs, a)
    requires forall j :: j in w.jobs ==> j in v.jobs
    ensures Inv(v)
  {
    hide ViewOk, LinkOk, QueuesOk, Flying, TradesOk, Base, LinksOk, ViewsOk, ViewOf, Has, Paired;
    assert forall i :: 0 <= i < |w.pairs| ==> !Has(w.pairs[i], a);
    OneAccount(w, v, a);
  }

  lemma TopView(w: World, a: Account)
    ensures Top(w, a) == if |ViewOf(w, a).hist| > 0 then |ViewOf(w, a).hist| - 1 else 0
  {
    hide Gather, ReadChar;
  }

  lemma LiveIdle(table: ItemTable, v: View, a: Account)
    requires ViewOk(table, v, a) && v.live.Some? && v.live.value.flight.bundleNo == 0
    ensures v.ws == [] && v.rs == [] && v.rec == None && v.live.value.flight.nextNo != 0 && |v.hist| > 0
    ensures v.live.value.account == a && v.live.value.flight.slots == {}
  {
    hide QueueOk, Agree, GoodSnap;
  }

  lemma SendBundleKeeps(w: World, s: Session)
    requires Inv(w) && s in w.players
    ensures Inv(SendBundle(w, s))
  {
    hide Inv, PushSave, Prepared, Committed, Aborted, BundleOf;
    var p := w.players[s];
    if p.flight.paired {
    } else if p.flight.bundleNo != 0 {
      SetPlayerKeeps(w, s, p.(flight := p.flight.(again := true)));
    } else {
      var x := BundleOf(p, s, None, Top(w, p.account));
      if SaveFits(w, x) {
        BundleSent(w, s, x);
      } else {
        BundleRefused(w, s);
      }
    }
  }

  lemma BundleSent(w: World, s: Session, x: Write)
    requires Inv(w) && s in w.players && !w.players[s].flight.paired && w.players[s].flight.bundleNo == 0
    requires x == BundleOf(w.players[s], s, None, Top(w, w.players[s].account))
    ensures Inv(PushSave(w, x).(players := w.players[s := Committed(Prepared(w.players[s]), x.bundleNo)],
                                inflight := w.inflight + 1))
  {
    hide ViewOk, LinkOk, QueuesOk, Flying, TradesOk, Base, LinksOk, ViewsOk, ViewOf, Linked, Has, Paired;
    var p, a := w.players[s], w.players[s].account;
    var q := Committed(Prepared(p), x.bundleNo);
    var u := SetPlayer(w, s, q);
    var v := PushSave(u, x);
    LinkedIsPaired(w, s);
    Ownership(w, s);
    TheView(w, a);
    TopView(w, a);
    LiveIdle(w.table, ViewOf(w, a), a);
    SetPlayerFrame(w, s, q);
    SetPlayerViews(w, s, q);
    BundleJob(u, s, x);
    PushSaveFrame(u, x);
    PushSaveViews(u, x);
    SentView(w.table, ViewOf(w, a), a, p, x);
    assert ViewOf(v, a) == ViewOf(w, a).(live := Some(q), ws := [x]);
    NotPaired(ViewOf(v, a));
    assert DbAt(v, a) == DbAt(w, a);
    OneFreeAccount(w, v, a);
    assert v == PushSave(w, x).(players := w.players[s := q], inflight := w.inflight + 1);
  }

  lemma BundleJob(u: World, s: Session, x: Write)
    requires Base(u) && s in u.players && x.session == s && x.account == u.players[s].account && x.mate == None
    ensures JobOk(u, Save(x))
  {
  }

  lemma BundleRefused(w: World, s: Session)
    requires Inv(w) && s in w.players && !w.players[s].flight.paired && w.players[s].flight.bundleNo == 0
    ensures Inv(w.(players := w.players[s := Aborted(Prepared(w.players[s]))]))
  {
    hide ViewOk, LinkOk, QueuesOk, Flying, TradesOk, Base, LinksOk, ViewsOk, ViewOf, Linked, Has, Paired;
    var p, a := w.players[s], w.players[s].account;
    var q := Aborted(Prepared(p));
    var v := SetPlayer(w, s, q);
    LinkedIsPaired(w, s);
    Ownership(w, s);
    TheView(w, a);
    LiveIdle(w.table, ViewOf(w, a), a);
    SetPlayerFrame(w, s, q);
    SetPlayerViews(w, s, q);
    RefusedView(w.table, ViewOf(w, a), a, p);
    NotPaired(ViewOf(v, a));
    assert DbAt(v, a) == DbAt(w, a);
    OneFreeAccount(w, v, a);
    assert v == w.(players := w.players[s := q]);
  }

  function SetRecord(w: World, a: Account, r: LeaveRecord, n: nat): World {
    w.(leave := w.leave[a := r], leaveSeq := n)
  }

  lemma SetRecordFrame(w: World, a: Account, r: LeaveRecord, n: nat)
    requires Frame(w)
    ensures Frame(SetRecord(w, a, r, n))
    ensures ViewOf(SetRecord(w, a, r, n), a) == ViewOf(w, a).(rec := Some(r))
    ensures forall b :: b != a ==> ViewOf(SetRecord(w, a, r, n), b) == ViewOf(w, b)
  {
    var v := SetRecord(w, a, r, n);
    assert Flying(v) == Flying(w);
    hide Flying, Gather, ReadChar;
    forall i | 0 <= i < |v.jobs| ensures JobOk(v, v.jobs[i]) { assert JobOk(w, w.jobs[i]); }
  }

  /** A leave record is on a link exactly when it is held. */
  lemma RecordIsPaired(w: World, a: Account)
    requires Inv(w) && a in w.leave
    ensures ViewOf(w, a).rec == Some(w.leave[a])
    ensures ViewOf(w, a).live == None && a !in w.owner
    ensures w.leave[a].paired <==> Linked(w.pairs, a)
  {
    hide ViewOk, LinkOk, QueuesOk, Paired, Flying, TradesOk, SideOk, TwoSided, Base, LinksOk, ViewsOk, Has, Gather,
         ReadChar;
    TheView(w, a);
    RecordPaired(w.table, ViewOf(w, a), a);
    if a in w.owner { OwnerLives(w, a); }
    if Linked(w.pairs, a) {
      var i :| 0 <= i < |w.pairs| && Has(w.pairs[i], a);
      LinkedRecord(w, i, a);
    }
  }

  lemma OwnerLives(w: World, a: Account)
    requires Base(w) && a in w.owner
    ensures ViewOf(w, a).live.Some?
  {
    hide Gather, ReadChar;
  }

  lemma RecordPaired(table: ItemTable, v: View, a: Account)
    requires ViewOk(table, v, a) && v.rec.Some?
    ensures v.live.None?
    ensures v.rec.value.paired ==> Paired(v)
  {
    hide HistoryOk, QueueOk, Agree;
  }

  lemma LinkedRecord(w: World, i: nat, a: Account)
    requires Inv(w) && i < |w.pairs| && Has(w.pairs[i], a)
    requires ViewOf(w, a).rec.Some? && ViewOf(w, a).live.None?
    ensures ViewOf(w, a).rec.value.paired
  {
    hide ViewOk, LinkOk, QueuesOk, Paired, Flying, TradesOk, SideOk, Base, LinksOk, ViewsOk, ViewOf;
    TheLink(w, i);
    var l := w.pairs[i];
    LinkedSideRecord(w.jobs, l, ViewOf(w, l.sides[0].account), ViewOf(w, l.sides[1].account));
  }

  lemma LinkedSideRecord(jobs: seq<Job>, l: PairLink, v0: View, v1: View)
    requires LinkOk(jobs, l, v0, v1)
    ensures v0.rec.Some? && v0.live.None? ==> v0.rec.value.paired
    ensures v1.rec.Some? && v1.live.None? ==> v1.rec.value.paired
  {
    hide AnsweredAlike, Settled;
  }

  /** An account on no link has only single bundles queued. */
  lemma FreeMates(w: World, a: Account)
    requires Inv(w) && !Linked(w.pairs, a)
    ensures forall i :: 0 <= i < |ViewOf(w, a).ws| ==> ViewOf(w, a).ws[i].mate == None
  {
    hide ViewOk, LinkOk, QueuesOk, Flying, TradesOk, Base, LinksOk, ViewsOk, ViewOf, Linked;
    TheView(w, a);
  }

  lemma SendLeaveRecordKeeps(w: World, a: Account)
    requires Inv(w) && a in w.leave && !w.leave[a].inFlight && !w.leave[a].paired
    ensures Inv(SendLeaveRecord(w, a))
  {
    hide Inv, PushSave, LeaveWrite, SaveFits;
    var n := NextNo(w.leaveSeq);
    var r := w.leave[a].(bundleNo := n);
    if SaveFits(w, LeaveWrite(a, r, None)) {
      RecordSent(w, a, n);
    } else {
      RecordKept(w, a, n);
    }
  }

  lemma RecordSent(w: World, a: Account, n: nat)
    requires Inv(w) && a in w.leave && !w.leave[a].inFlight && !w.leave[a].paired && n != 0
    ensures var r := w.leave[a].(bundleNo := n);
            Inv(PushSave(SetRecord(w, a, r.(inFlight := true), n), LeaveWrite(a, r, None)))
  {
    hide ViewOk, LinkOk, QueuesOk, Flying, TradesOk, Base, LinksOk, ViewsOk, ViewOf, Linked, Has, Paired;
    var q := w.leave[a].(bundleNo := n, inFlight := true);
    var x := LeaveWrite(a, q, None);
    var u := SetRecord(w, a, q, n);
    var v := PushSave(u, x);
    RecordIsPaired(w, a);
    FreeMates(w, a);
    TheView(w, a);
    SetRecordFrame(w, a, q, n);
    PushSaveFrame(u, x);
    PushSaveViews(u, x);
    AttemptView(w.table, ViewOf(w, a), a, w.leave[a], q, None);
    NotPaired(ViewOf(v, a));
    assert DbAt(v, a) == DbAt(w, a);
    OneFreeAccount(w, v, a);
  }

  lemma RecordKept(w: World, a: Account, n: nat)
    requires Inv(w) && a in w.leave && !w.leave[a].inFlight && !w.leave[a].paired && n != 0
    ensures Inv(SetRecord(w, a, w.leave[a].(bundleNo := n, inFlight := false), n))
  {
    hide ViewOk, LinkOk, QueuesOk, Flying, TradesOk, Base, LinksOk, ViewsOk, ViewOf, Linked, Has, Paired;
    var q := w.leave[a].(bundleNo := n, inFlight := false);
    var v := SetRecord(w, a, q, n);
    RecordIsPaired(w, a);
    FreeMates(w, a);
    TheView(w, a);
    SetRecordFrame(w, a, q, n);
    RenumberedView(w.table, ViewOf(w, a), a, w.leave[a], q);
    NotPaired(ViewOf(v, a));
    assert DbAt(v, a) == DbAt(w, a);
    OneFreeAccount(w, v, a);
  }

  // ----- leaving

  /** The player gone from the hub and its leave record put down, but not yet sent. */
  function Gone(w: World, s: Session): World
    requires s in w.players
  {
    var p := w.players[s];
    w.(players := w.players - {s}, inflight := w.inflight - Fly(p),
       leave := w.leave[p.account := LastRecord(w, p)], owner := w.owner - {p.account})
  }

  lemma GoneFrame(w: World, s: Session)
    requires Frame(w) && s in w.players
    ensures Frame(Gone(w, s))
  {
    var v := Gone(w, s);
    assert Flying(v) == Flying(w) - {s};
    assert Fly(w.players[s]) == 1 <==> s in Flying(w);
    hide Flying;
    forall i | 0 <= i < |v.jobs| ensures JobOk(v, v.jobs[i]) { assert JobOk(w, w.jobs[i]); }
  }

  lemma GoneViews(w: World, s: Session)
    requires Base(w) && s in w.players
    ensures var a := w.players[s].account;
            ViewOf(Gone(w, s), a) == ViewOf(w, a).(live := None, session := LEFT,
                                                   rec := Some(LastRecord(w, w.players[s])))
    ensures forall b :: b != w.players[s].account ==> ViewOf(Gone(w, s), b) == ViewOf(w, b)
  {
    hide Gather, ReadChar;
  }

  lemma LeaveFreeKeeps(w: World, s: Session)
    requires Inv(w) && s in w.players && !w.players[s].flight.paired
    ensures Inv(Leave(w, s))
  {
    hide ViewOk, LinkOk, QueuesOk, Flying, TradesOk, Base, LinksOk, ViewsOk, ViewOf, Linked, Has, Paired;
    var p, a := w.players[s], w.players[s].account;
    var v := Gone(w, s);
    LinkedIsPaired(w, s);
    Ownership(w, s);
    TheView(w, a);
    FreeMates(w, a);
    GoneFrame(w, s);
    GoneViews(w, s);
    TopView(w, a);
    HistoryHas(w.table, ViewOf(w, a), a);
    LeftView(w.table, ViewOf(w, a), a, p, LastRecord(w, p));
    NotPaired(ViewOf(v, a));
    assert DbAt(v, a) == DbAt(w, a);
    OneFreeAccount(w, v, a);
    SendLeaveRecordKeeps(v, a);
    LeaveIsGone(w, s);
  }

  lemma HistoryHas(table: ItemTable, v: View, a: Account)
    requires ViewOk(table, v, a)
    ensures |v.hist| > 0
    ensures v.live.Some? ==> v.live.value.account == a
  {
    hide QueueOk, Agree, GoodSnap;
  }

  /** Queueing a write touches the queue and its counters only. */
  lemma PushIfRest(w: World, x: Write, fits: bool)
    ensures var v := PushIf(w, x, fits);
            && v.leave == w.leave && v.pairs == w.pairs && v.players == w.players
            && v.hist == w.hist && v.table == w.table && v.dbAt == w.dbAt && v.trades == w.trades && v.stale == w.stale
  {
  }

  lemma PushKeepsPlayers(w: World, x: Write, ps: map<Session, Player>)
    ensures PushSave(w, x).(players := ps) == PushSave(w.(players := ps), x)
    ensures PushSave(w, x).players == w.players
    ensures SaveFits(w.(players := ps), x) == SaveFits(w, x)
  {
  }

  lemma SendKeepsPlayers(w: World, a: Account, ps: map<Session, Player>)
    requires a in w.leave
    ensures SendLeaveRecord(w, a).(players := ps) == SendLeaveRecord(w.(players := ps), a)
    ensures SendLeaveRecord(w, a).players == w.players
  {
    hide PushSave, SaveFits, LeaveWrite, NextNo;
    var n := NextNo(w.leaveSeq);
    var r := w.leave[a].(bundleNo := n);
    var x := LeaveWrite(a, r, None);
    PushKeepsPlayers(w, x, ps);
    PushKeepsPlayers(w.(leaveSeq := n, leave := w.leave[a := r.(inFlight := true)]), x, ps);
  }

  lemma LeaveIsGone(w: World, s: Session)
    requires s in w.players && !w.players[s].flight.paired
    ensures Leave(w, s) == SendLeaveRecord(Gone(w, s), w.players[s].account)
  {
    hide SendLeaveRecord;
    var p := w.players[s];
    var q := Emptied(p);
    assert w.players[s := q] - {s} == w.players - {s};
    SendKeepsPlayers(Departed(w, s), p.account, w.players - {s});
  }

  // ----- steps of the accounts on one link

  lemma JobsKept(jobs: seq<Job>, more: seq<Job>, l: PairLink, v0: View, v1: View, a: Account, b: Account)
    requires LinkOk(jobs, l, v0, v1)
    requires forall j :: j in jobs && WritesIn(j, a) == [] && WritesIn(j, b) == [] ==> j in more
    requires !Has(l, a) && !Has(l, b)
    requires forall i :: 0 <= i < |v0.ws| ==> v0.ws[i].account == l.sides[0].account
    requires forall i :: 0 <= i < |v1.ws| ==> v1.ws[i].account == l.sides[1].account
    ensures LinkOk(more, l, v0, v1)
  {
    hide SideOk, AnsweredAlike, Settled;
    assert l.sides[0].account != a && l.sides[0].account != b && l.sides[1].account != a && l.sides[1].account != b;
  }

  lemma QueueAccounts(table: ItemTable, v: View, a: Account)
    requires ViewOk(table, v, a)
    ensures forall i :: 0 <= i < |v.ws| ==> v.ws[i].account == a && v.ws[i].bundleNo != 0
  {
    hide HistoryOk, LiveOk, RecordOk, Agree;
  }

  /** A step that touches the two accounts of link `i` only. */
  lemma OneLink(w: World, v: World, i: nat, l: PairLink)
    requires Inv(w) && Frame(v) && v.table == w.table && i < |w.pairs| && v.pairs == w.pairs[i := l]
    requires TwoSided(l) && TwoSided(w.pairs[i])
    requires l.sides[0].account == w.pairs[i].sides[0].account && l.sides[1].account == w.pairs[i].sides[1].account
    requires forall b :: b != l.sides[0].account && b != l.sides[1].account ==> ViewOf(v, b) == ViewOf(w, b)
    requires ViewOk(v.table, ViewOf(v, l.sides[0].account), l.sides[0].account)
    requires ViewOk(v.table, ViewOf(v, l.sides[1].account), l.sides[1].account)
    requires LinkOk(v.jobs, l, ViewOf(v, l.sides[0].account), ViewOf(v, l.sides[1].account))
    requires forall j ::
               j in w.jobs && WritesIn(j, l.sides[0].account) == [] && WritesIn(j, l.sides[1].account) == [] ==>
                 j in v.jobs
    requires TradesOk(v)
    ensures Inv(v)
  {
    hide ViewOk, LinkOk, QueuesOk, Flying, TradesOk, Base, ViewOf, Paired, Has, LinksOk, ViewsOk;
    var a, b := l.sides[0].account, l.sides[1].account;
    assert ViewsOk(v) by { ViewsAfter(w, v, a, b); }
    assert LinksOk(v) by { LinksRebuilt(w, v, i, l); }
  }

  lemma ViewsAfter(w: World, v: World, a: Account, b: Account)
    requires Inv(w) && v.table == w.table
    requires forall c :: c != a && c != b ==> ViewOf(v, c) == ViewOf(w, c)
    requires ViewOk(v.table, ViewOf(v, a), a) && ViewOk(v.table, ViewOf(v, b), b)
    ensures ViewsOk(v)
  {
    hide ViewOk, LinkOk, QueuesOk, Flying, TradesOk, Base, ViewOf, Paired, Has, LinksOk;
    forall c ensures ViewOk(v.table, ViewOf(v, c), c) {
      if c != a && c != b { TheView(w, c); }
    }
  }

  lemma SameHas(l: PairLink, m: PairLink, c: Account)
    requires TwoSided(l) && TwoSided(m) && l.sides[0].account == m.sides[0].account
             && l.sides[1].account == m.sides[1].account
    ensures Has(l, c) <==> Has(m, c)
    ensures Has(l, l.sides[0].account) && Has(l, l.sides[1].account)
  {
    assert l.sides[0].account == l.sides[0].account && l.sides[1].account == l.sides[1].account;
    if Has(l, c) {
      var k :| 0 <= k < |l.sides| && l.sides[k].account == c;
      assert m.sides[k].account == c;
    }
    if Has(m, c) {
      var k :| 0 <= k < |m.sides| && m.sides[k].account == c;
      assert l.sides[k].account == c;
    }
  }

  lemma LinksRebuilt(w: World, v: World, i: nat, l: PairLink)
    requires Inv(w) && v.table == w.table && i < |w.pairs| && v.pairs == w.pairs[i := l]
    requires TwoSided(l) && TwoSided(w.pairs[i])
    requires l.sides[0].account == w.pairs[i].sides[0].account && l.sides[1].account == w.pairs[i].sides[1].account
    requires forall b :: b != l.sides[0].account && b != l.sides[1].account ==> ViewOf(v, b) == ViewOf(w, b)
    requires LinkOk(v.jobs, l, ViewOf(v, l.sides[0].account), ViewOf(v, l.sides[1].account))
    requires forall j ::
               j in w.jobs && WritesIn(j, l.sides[0].account) == [] && WritesIn(j, l.sides[1].account) == [] ==>
                 j in v.jobs
    ensures LinksOk(v)
  {
    hide ViewOk, LinkOk, QueuesOk, Flying, TradesOk, Base, ViewOf, Paired, Has, LinksOk, ViewsOk;
    var a, b := l.sides[0].account, l.sides[1].account;
    forall m | 0 <= m < |v.pairs|
      ensures TwoSided(v.pairs[m])
      ensures LinkOk(v.jobs, v.pairs[m], ViewOf(v, v.pairs[m].sides[0].account), ViewOf(v, v.pairs[m].sides[1].account))
    {
      if m != i { OtherLink(w, v, i, m, a, b); }
    }
    forall m, n, c | 0 <= m < |v.pairs| && 0 <= n < |v.pairs| && Has(v.pairs[m], c) && Has(v.pairs[n], c)
        ensures m == n {
      SameHas(w.pairs[i], l, c);
      OneLinkEach(w, m, n, c);
    }
    forall c | Paired(ViewOf(v, c)) ensures Linked(v.pairs, c) {
      if c == a || c == b {
        SameHas(l, l, c);
        assert Has(v.pairs[i], c);
      } else {
        TheView(w, c);
        var m :| 0 <= m < |w.pairs| && Has(w.pairs[m], c);
        SameHas(w.pairs[i], l, c);
        assert Has(v.pairs[m], c);
      }
    }
    assert LinksOk(v) by { LinksOkFrom(v); }
  }

  lemma LinksOkFrom(v: World)
    requires forall i :: 0 <= i < |v.pairs| ==>
               TwoSided(v.pairs[i]) && LinkOk(v.jobs, v.pairs[i], ViewOf(v, v.pairs[i].sides[0].account),
                                              ViewOf(v, v.pairs[i].sides[1].account))
    requires forall i, j, a ::
               0 <= i < |v.pairs| && 0 <= j < |v.pairs| && Has(v.pairs[i], a) && Has(v.pairs[j], a) ==> i == j
    requires forall a :: Paired(ViewOf(v, a)) ==> Linked(v.pairs, a)
    ensures LinksOk(v)
  {
    hide LinkOk, ViewOf, Paired, Has, Linked;
  }

  lemma OtherLink(w: World, v: World, i: nat, m: nat, a: Account, b: Account)
    requires Inv(w) && i < |w.pairs| && m < |w.pairs| && m != i && TwoSided(w.pairs[i])
    requires a == w.pairs[i].sides[0].account && b == w.pairs[i].sides[1].account
    requires forall c :: c != a && c != b ==> ViewOf(v, c) == ViewOf(w, c)
    requires forall j :: j in w.jobs && WritesIn(j, a) == [] && WritesIn(j, b) == [] ==> j in v.jobs
    ensures TwoSided(w.pairs[m])
    ensures LinkOk(v.jobs, w.pairs[m], ViewOf(v, w.pairs[m].sides[0].account), ViewOf(v, w.pairs[m].sides[1].account))
  {
    hide ViewOk, LinkOk, QueuesOk, Flying, TradesOk, Base, ViewOf, Paired, Has, LinksOk, ViewsOk, WritesIn;
    TheLink(w, m);
    var l := w.pairs[m];
    var c, d := l.sides[0].account, l.sides[1].account;
    SameHas(w.pairs[i], w.pairs[i], a);
    SameHas(l, l, c);
    if Has(l, a) { OneLinkEach(w, i, m, a); }
    if Has(l, b) { OneLinkEach(w, i, m, b); }
    TheView(w, c);
    TheView(w, d);
    QueueAccounts(w.table, ViewOf(w, c), c);
    QueueAccounts(w.table, ViewOf(w, d), d);
    JobsKept(w.jobs, v.jobs, l, ViewOf(w, c), ViewOf(w, d), a, b);
  }

  /** Trades are unaffected when nothing is stored and every link keeps its sides and trade marks. */
  lemma TradesSame(w: World, v: World, i: nat, l: PairLink)
    requires TradesOk(w) && v.trades == w.trades && i < |w.pairs| && v.pairs == w.pairs[i := l]
    requires forall a :: DbAt(v, a) == DbAt(w, a)
    requires forall t :: IsTrade(w.pairs[i], t) ==> IsTrade(l, t)
    ensures TradesOk(v)
  {
    hide IsTrade, DbAt;
    forall k | 0 <= k < |v.trades| ensures TradeOk(v, v.trades[k]) {
      var t := w.trades[k];
      assert TradeOk(w, t);
      if DbAt(w, t.a) < t.aAt {
        var m :| 0 <= m < |w.pairs| && IsTrade(w.pairs[m], t);
        assert IsTrade(v.pairs[m], t);
      }
    }
  }

  // ----- leaving while a trade is being stored

  /** Side `k` of the link now stands for a held record. */
  function Detached(l: PairLink, k: nat): PairLink
    requires k < |l.sides|
  {
    l.(sides := l.sides[k := l.sides[k].(session := LEFT)])
  }

  lemma LinkOkDetached0(jobs: seq<Job>, l: PairLink, v0: View, v1: View, u0: View)
    requires LinkOk(jobs, l, v0, v1) && v0.live.Some?
    requires u0 == v0.(live := None, session := LEFT, rec := u0.rec) && u0.rec.Some? && u0.rec.value.paired
    ensures LinkOk(jobs, Detached(l, 0), u0, v1)
  {
  }

  lemma LinkOkDetached1(jobs: seq<Job>, l: PairLink, v0: View, v1: View, u1: View)
    requires LinkOk(jobs, l, v0, v1) && v1.live.Some?
    requires u1 == v1.(live := None, session := LEFT, rec := u1.rec) && u1.rec.Some? && u1.rec.value.paired
    ensures LinkOk(jobs, Detached(l, 1), v0, u1)
  {
  }

  lemma LinkOfPlayer(w: World, s: Session) returns (i: nat)
    requires Inv(w) && s in w.players && w.players[s].flight.paired
    ensures i == FindPair(w.pairs, w.players[s].account) && i < |w.pairs| && Has(w.pairs[i], w.players[s].account)
    ensures TwoSided(w.pairs[i])
    ensures w.pairs[i].sides[SideOf(w.pairs[i], w.players[s].account)].account == w.players[s].account
  {
    hide ViewOk, LinkOk, QueuesOk, Flying, TradesOk, Base, ViewOf, Paired, LinksOk, ViewsOk, Has;
    var a := w.players[s].account;
    LinkedIsPaired(w, s);
    i := FindPair(w.pairs, a);
    TheLink(w, i);
    SideHas(w.pairs[i], a);
  }

  lemma SideHas(l: PairLink, a: Account)
    requires TwoSided(l) && Has(l, a)
    ensures l.sides[SideOf(l, a)].account == a
  {
  }

  lemma LeavePairedKeeps(w: World, s: Session)
    requires Inv(w) && s in w.players && w.players[s].flight.paired
    ensures Inv(Leave(w, s))
  {
    hide ViewOk, LinkOk, QueuesOk, Flying, TradesOk, Base, ViewOf, Paired, LinksOk, ViewsOk, Has, Linked, IsTrade;
    var p, a := w.players[s], w.players[s].account;
    var i := LinkOfPlayer(w, s);
    var l := w.pairs[i];
    var k := SideOf(l, a);
    var m := Detached(l, k);
    var u := Gone(w, s);
    var v := u.(pairs := w.pairs[i := m]);
    Ownership(w, s);
    TheView(w, a);
    TheView(w, l.sides[1 - k].account);
    TheLink(w, i);
    GoneFrame(w, s);
    GoneViews(w, s);
    PairsFrame(u, w.pairs[i := m]);
    TopView(w, a);
    HistoryHas(w.table, ViewOf(w, a), a);
    LeftView(w.table, ViewOf(w, a), a, p, LastRecord(w, p));
    LinkSidesDiffer(w.jobs, l, ViewOf(w, l.sides[0].account), ViewOf(w, l.sides[1].account));
    if k == 0 {
      LinkOkDetached0(w.jobs, l, ViewOf(w, l.sides[0].account), ViewOf(w, l.sides[1].account), ViewOf(v, a));
    } else {
      LinkOkDetached1(w.jobs, l, ViewOf(w, l.sides[0].account), ViewOf(w, l.sides[1].account), ViewOf(v, a));
    }
    DetachedTrade(l, k);
    TradesSame(w, v, i, m);
    OneLink(w, v, i, m);
    LeavePairedIsGone(w, s, i, k);
  }

  lemma DetachedTrade(l: PairLink, k: nat)
    requires TwoSided(l) && k < 2
    ensures forall t :: IsTrade(l, t) ==> IsTrade(Detached(l, k), t)
  {
  }

  lemma LinkSidesDiffer(jobs: seq<Job>, l: PairLink, v0: View, v1: View)
    requires LinkOk(jobs, l, v0, v1)
    ensures l.sides[0].account != l.sides[1].account
  {
    hide SideOk, AnsweredAlike, Settled;
  }

  lemma PairsFrame(w: World, ps: seq<PairLink>)
    requires Frame(w)
    ensures Frame(w.(pairs := ps))
    ensures forall a :: ViewOf(w.(pairs := ps), a) == ViewOf(w, a)
  {
    var v := w.(pairs := ps);
    assert Flying(v) == Flying(w);
    hide Flying, Gather, ReadChar;
    forall i | 0 <= i < |v.jobs| ensures JobOk(v, v.jobs[i]) { assert JobOk(w, w.jobs[i]); }
  }

  lemma LeavePairedIsGone(w: World, s: Session, i: nat, k: nat)
    requires s in w.players && w.players[s].flight.paired
    requires i == FindPair(w.pairs, w.players[s].account) && i < |w.pairs| && TwoSided(w.pairs[i])
    requires k == SideOf(w.pairs[i], w.players[s].account)
    ensures Leave(w, s) == Gone(w, s).(pairs := w.pairs[i := Detached(w.pairs[i], k)])
  {
    hide FindPair;
    var p := w.players[s];
    var q := Emptied(p);
    assert w.players[s := q] - {s} == w.players - {s};
  }

  lemma LeaveKeeps(w: World, s: Session)
    requires Inv(w) && s in w.players
    ensures Inv(Leave(w, s))
  {
    hide Inv, Leave;
    if w.players[s].flight.paired { LeavePairedKeeps(w, s); } else { LeaveFreeKeeps(w, s); }
  }
}
