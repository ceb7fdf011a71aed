/** Every entry of a player on a link can be followed by a trade that is stored for one of its two accounts: a run keeps
    trades atomic, whatever comes next, only as long as nobody enters so. */
module SaveTangles {
  import opened Items
  import opened Seqs
  import opened SaveTypes
  import opened SaveSteps
  import opened SaveInvariant
  import opened SaveViews
  import opened SaveKeeps
  import opened SavePairs
  import opened SaveReplies
  import opened SaveRelease
  import opened SaveArrivals
  import opened SaveLoads
  import opened SaveRuns
  import opened SaveTheorems
  import opened SaveHalts
  import opened SaveMissing
  import opened SaveScenes
  import opened SaveLinkedEntry
  import opened SaveEntries

  // ----- numbers not taken yet

  lemma {:induction false} AboveAll(taken: set<int>) returns (n: int)
    ensures n > 0 && forall x :: x in taken ==> x < n
    decreases |taken|
  {
    n := 1;
    if x :| x in taken {
      var m := AboveAll(taken - {x});
      n := if m > x then m else x + 1;
      forall y | y in taken ensures y < n { if y != x { assert y in taken - {x}; } }
    }
  }

  // ----- steps that can be taken in any state

  /** The first `n` jobs fail. */
  lemma {:induction false} FailFirst(w: World, n: nat) returns (rs: seq<Reply>, ls: seq<LoadResult>)
    requires n <= |w.jobs|
    ensures Arrives(w, w.(jobs := w.jobs[n..], replies := w.replies + rs, loads := w.loads + ls))
    decreases n
  {
    hide Arrives;
    if n == 0 {
      rs, ls := [], [];
      assert w.(jobs := w.jobs[0..], replies := w.replies + [], loads := w.loads + []) == w;
      ArriveSelf(w);
    } else {
      var u := Execute(w, 0, false, false);
      var r, l := Answers(w.jobs[0], false, false), Reads(w, w.jobs[0], false);
      assert u == w.(jobs := w.jobs[1..], replies := w.replies + r, loads := w.loads + l);
      ArriveStep(w, Work(0, false, false));
      rs, ls := FailFirst(u, n - 1);
      var v := u.(jobs := u.jobs[n - 1..], replies := u.replies + rs, loads := u.loads + ls);
      ArriveTrans(w, u, v);
      rs, ls := r + rs, l + ls;
      assert v == w.(jobs := w.jobs[n..], replies := w.replies + rs, loads := w.loads + ls);
    }
  }

  lemma ArriveSelf(w: World)
    ensures Arrives(w, w)
  {
    assert CanRun(w, []) && Ran(w, []) == w;
  }

  /** Every load is handed on, and nobody enters. */
  lemma {:induction false} DropAll(w: World)
    ensures Arrives(w, w.(loads := []))
    decreases |w.loads|
  {
    hide Arrives;
    if w.loads == [] {
      ArriveSelf(w);
      assert w.(loads := []) == w;
    } else {
      var x := Stats(0, 0);
      ArriveStep(w, HandOn(false, HOME, x, x, false));
      DropAll(w.(loads := w.loads[1..]));
      ArriveTrans(w, w.(loads := w.loads[1..]), w.(loads := []));
    }
  }

  lemma Taken(w: World, k: nat)
    requires k < w.workers
    ensures Arrives(w, TakeOver(w, k))
  {
    hide Arrives, TakeOver;
    ArriveStep(w, Action.Take(k));
  }

  /** A reply overtakes all those of other accounts before it. */
  lemma {:induction false} ToFront(w: World, m: nat)
    requires m < |w.replies| && forall n :: 0 <= n < m ==> w.replies[n].account != w.replies[m].account
    ensures Arrives(w, w.(replies := [w.replies[m]] + Without(w.replies, m)))
    decreases m
  {
    hide Arrives;
    var v := w.(replies := [w.replies[m]] + Without(w.replies, m));
    if m == 0 {
      assert v == w by { assert [w.replies[0]] + Without(w.replies, 0) == w.replies; }
      ArriveSelf(w);
    } else {
      var u := Slip(w, m - 1);
      ArriveStep(w, Reorder(m - 1));
      ToFront(u, m - 1);
      assert [u.replies[m - 1]] + Without(u.replies, m - 1) == [w.replies[m]] + Without(w.replies, m);
      ArriveTrans(w, u, v);
    }
  }

  // ----- what is known after the entry

  /** Side `k`, of account `a`, is confirmed and gone; the other, of `b`, has not been answered. */
  ghost predicate HalfLink(l: PairLink, k: nat, a: Account, b: Account) {
    && TwoSided(l) && k < 2 && l.inFlight && l.ok && a != b
    && l.sides[k].account == a && l.sides[k].session == LEFT && l.sides[k].replied
    && l.sides[1 - k].account == b && !l.sides[1 - k].replied
  }

  /** Reply `m` is the first for `b`, and it is the good answer to the link's other side. */
  ghost predicate AnswerAt(w: World, m: nat, l: PairLink, k: nat, b: Account)
    requires TwoSided(l) && k < 2
  {
    && m < |w.replies| && w.replies[m].account == b && w.replies[m].ok
         && w.replies[m].bundleNo == l.sides[1 - k].bundleNo
    && forall n :: 0 <= n < m ==> w.replies[n].account != b
  }

  /** A player who can trade, in a state the database cannot hold yet once it is counted. */
  ghost predicate CanTrade(w: World, s: Session, a: Account) {
    && s != LEFT && s in w.players && w.players[s].account == a
    && w.players[s].flight.bundleNo == 0 && !w.players[s].flight.paired
    && Plays(w.table, w.players[s], w.players[s])
    && DbAt(w, a) < |HistOf(w, a)|
  }

  ghost predicate Queues(w: World) {
    w.workers > 0 && |w.bundles| == w.workers && |w.loadsQueued| == w.workers && w.queueMax >= 2
  }

  ghost predicate OnHalf(w: World, i: nat, k: nat, a: Account, b: Account) {
    i < |w.pairs| && HalfLink(w.pairs[i], k, a, b) && FindPair(w.pairs, a) == i && FindPair(w.pairs, b) == i
  }

  // ----- a trade with somebody else

  function WorkerOf(w: World, a: Account, c: Account): nat { Route(w, if a < c then a else c) }

  /** From `w` to `v` the two players have traded, and their pair is the only job. */
  ghost predicate Traded(w: World, v: World, s: Session, a: Account, c: Account) {
    && v.table == w.table && v.db == w.db && v.dbAt == w.dbAt && v.leave == w.leave && v.replies == w.replies
         && v.owner == w.owner
    && v.workers == w.workers && v.queueMax == w.queueMax && |v.bundles| == |w.bundles|
         && v.loadsQueued == w.loadsQueued
    && |v.jobs| == 1 && v.jobs[0].Pair?
    && |v.pairs| == |w.pairs| + 1 && v.pairs[..|w.pairs|] == w.pairs
    && v.trades == w.trades + [Trade(a, c, |HistOf(w, a)|, |HistOf(w, c)|)]
    && |HistOf(v, a)| == |HistOf(w, a)| + 1
    && s in v.players && v.players[s].account == a && v.players[s].flight.paired
  }

  lemma SameState(w: World, s: Session, t: Session, a: Account, c: Account)
    requires CanTrade(w, s, a) && CanTrade(w, t, c) && s != t && a != c
    ensures var u := Swapped(w, s, t, w.players[s], w.players[t]);
            && u == w.(hist := u.hist)
            && |HistOf(u, a)| == |HistOf(w, a)| + 1 && |HistOf(u, c)| == |HistOf(w, c)| + 1
  {
    hide Plays, SnapOf, ReadChar, DbAt;
    assert w.players[s := w.players[s]] == w.players && w.players[t := w.players[t]] == w.players;
  }

  lemma TwoTrade(w: World, s: Session, t: Session, a: Account, c: Account) returns (v: World)
    requires CanTrade(w, s, a) && CanTrade(w, t, c) && s != t && a != c && w.jobs == [] && Queues(w)
    requires HasRoom(w, WorkerOf(w, a, c), 2)
    ensures Arrives(w, v) && Traded(w, v, s, a, c)
  {
    hide Arrives, Plays, SendPair, Tied, Route, DbAt, HistOf, Traded;
    var act := Swap(s, t, w.players[s], w.players[t]);
    var u := Swapped(w, s, t, w.players[s], w.players[t]);
    v := SaveTrade(u, s, t);
    SameState(w, s, t, a, c);
    TradeIs(u, s, t);
    TiedSends(w, u, s, t, a, c);
    ArriveStep(w, act);
  }

  /** Two ready sides and room for both heads. */
  lemma SendsFits(z: World, i: nat, f: World, g: World, x: Write, y: Write)
    requires i < |z.pairs| && TwoSided(z.pairs[i])
    requires var d0, d1 := z.pairs[i].sides[0], z.pairs[i].sides[1];
             && SideReady(z, d0) && f == Flown(z, d0) && SideReady(f, d1) && g == Flown(f, d1)
             && x == HeadOf(z, d0, d1.account) && y == HeadOf(f, d1, d0.account)
    requires PairFits(z, x, y)
    ensures SendPair(z, i) == PushPair(g, x, y).(pairs := z.pairs[i := FlownLink(z.pairs[i], x.bundleNo, y.bundleNo)])
  {
    hide Flown, SideReady, HeadOf, PushPair, PairFits, FlownLink, Dropped;
  }

  lemma FlightOfHeld(p: Player, n: nat)
    ensures var q := Committed(Prepared(Hold(p)), n);
            q.account == p.account && q.flight.paired
  {
  }

  lemma TopIs(w: World, a: Account)
    requires HistOf(w, a) != []
    ensures Top(w, a) == |HistOf(w, a)| - 1
  {
  }

  lemma TiedSends(w: World, u: World, s: Session, t: Session, a: Account, c: Account)
    requires CanTrade(w, s, a) && CanTrade(w, t, c) && s != t && a != c && w.jobs == [] && Queues(w)
    requires HasRoom(w, WorkerOf(w, a, c), 2)
    requires u == w.(hist := u.hist) && |HistOf(u, a)| == |HistOf(w, a)| + 1 && |HistOf(u, c)| == |HistOf(w, c)| + 1
    requires |Tied(u, s, t).pairs| == |u.pairs| + 1 && TwoSided(Tied(u, s, t).pairs[|u.pairs|])
    ensures Traded(w, SendPair(Tied(u, s, t), |u.pairs|), s, a, c)
  {
    hide Plays, DbAt, HistOf, SendPair, Prepared, Committed, RowsOf, Route, Top, Bump, Hold;
    var z := Tied(u, s, t);
    TopIs(u, a);
    TopIs(u, c);
    var l := z.pairs[|u.pairs|];
    assert l == TradeLink(u, w.players[s], s, w.players[t], t);
    var d0, d1 := l.sides[0], l.sides[1];
    HeldAccount(w.players[s]);
    HeldAccount(w.players[t]);
    FlightOfHeld(w.players[s], Hold(w.players[s]).flight.nextNo);
    FlightOfHeld(w.players[t], Hold(w.players[t]).flight.nextNo);
    var f := z.(players := z.players[s := Committed(Prepared(Hold(w.players[s])), Hold(w.players[s]).flight.nextNo)],
                inflight := z.inflight + 1);
    var g := f.(players := f.players[t := Committed(Prepared(Hold(w.players[t])), Hold(w.players[t]).flight.nextNo)],
                inflight := f.inflight + 1);
    assert SideReady(z, d0) && Flown(z, d0) == f && SideReady(f, d1) && Flown(f, d1) == g;
    var x, y := HeadOf(z, d0, d1.account), HeadOf(f, d1, d0.account);
    assert x.account == a && y.account == c;
    FitsAs(w, z, x, y, a, c);
    SendsFits(z, |u.pairs|, f, g, x, y);
    TradeDone(w, u, z, g, s, t, a, c, x, y);
  }

  lemma HeldAccount(p: Player)
    ensures Hold(p).account == p.account
  {
  }

  lemma FitsAs(w: World, z: World, x: Write, y: Write, a: Account, c: Account)
    requires HasRoom(w, WorkerOf(w, a, c), 2) && z.workers == w.workers && z.queueMax == w.queueMax
             && z.bundles == w.bundles
    requires x.account == a && y.account == c
    ensures PairFits(z, x, y)
  {
  }

  lemma TradeDone(w: World, u: World, z: World, g: World, s: Session, t: Session, a: Account, c: Account, x: Write,
                  y: Write)
    requires CanTrade(w, s, a) && CanTrade(w, t, c) && s != t && a != c && w.jobs == [] && Queues(w)
    requires u == w.(hist := u.hist) && |HistOf(u, a)| == |HistOf(w, a)| + 1
    requires |z.pairs| == |w.pairs| + 1 && z.pairs == w.pairs + [z.pairs[|w.pairs|]] && TwoSided(z.pairs[|w.pairs|])
    requires z == u.(players := z.players, pairs := z.pairs, trades := z.trades)
    requires z.trades == w.trades + [Trade(a, c, |HistOf(w, a)|, |HistOf(w, c)|)]
    requires g == z.(players := g.players, inflight := g.inflight)
    requires s in g.players && g.players[s].account == a && g.players[s].flight.paired
    ensures Traded(w, PushPair(g, x, y).(pairs :=
                                         z.pairs[|w.pairs| := FlownLink(z.pairs[|w.pairs|], x.bundleNo, y.bundleNo)]),
                                         s, a, c)
  {
    hide Plays, DbAt, Route, FlownLink;
  }

  // ----- the player leaves again; the old link is the first with its account

  lemma {:induction false} FirstStays(pairs: seq<PairLink>, more: seq<PairLink>, a: Account)
    requires FindPair(pairs, a) < |pairs|
    ensures FindPair(pairs + more, a) == FindPair(pairs, a)
  {
    hide Has;
    if !Has(pairs[0], a) {
      assert (pairs + more)[1..] == pairs[1..] + more;
      FirstStays(pairs[1..], more, a);
    }
  }

  lemma DetachedAgain(pairs: seq<PairLink>, i: nat, k: nat, a: Account, b: Account)
    requires i < |pairs| && HalfLink(pairs[i], k, a, b) && FindPair(pairs, a) == i
    ensures Detach(pairs, a) == pairs
  {
    hide FindPair;
    var l := pairs[i];
    assert SideOf(l, a) == k;
    assert l.sides[k := l.sides[k].(session := LEFT)] == l.sides;
    assert pairs[i := l] == pairs;
  }

  /** What is left of the player who has traded: a held record. */
  ghost predicate LeftHeld(w: World, v: World, a: Account) {
    && v.table == w.table && v.db == w.db && v.dbAt == w.dbAt && v.jobs == w.jobs && v.pairs == w.pairs
         && v.replies == w.replies
    && v.trades == w.trades && v.hist == w.hist && v.workers == w.workers && v.queueMax == w.queueMax
         && v.bundles == w.bundles
    && v.loadsQueued == w.loadsQueued
    && a in v.leave && v.leave[a].paired && !v.leave[a].inFlight && v.leave[a].at == Top(w, a)
  }

  lemma LeavesAgain(w: World, s: Session, i: nat, k: nat, a: Account, b: Account) returns (v: World)
    requires s in w.players && w.players[s].account == a && w.players[s].flight.paired
    requires i < |w.pairs| && HalfLink(w.pairs[i], k, a, b) && FindPair(w.pairs, a) == i
    ensures Arrives(w, v) && LeftHeld(w, v, a)
  {
    hide Arrives, Detach, FindPair, Emptied, RowsOf, Top, HalfLink;
    DetachedAgain(w.pairs, i, k, a, b);
    v := Leave(w, s);
    ArriveStep(w, Depart(s));
  }

  // ----- the reply of the other side is handled

  lemma SavedReply(u: World, r: Reply)
    ensures var v := OnSaveReply(u, r);
            && v == u.(players := v.players, leave := v.leave, inflight := v.inflight, tickEnd := v.tickEnd)
            && forall x ::
                   x != r.account ==> ((x in v.leave <==> x in u.leave) && (x in u.leave ==> v.leave[x] == u.leave[x]))
  {
    hide LandedOk, LandedFailed, RequestSave;
    if r.session != LEFT && ForLive(u, r) {
      var p := u.players[r.session];
      var v := u.(inflight := u.inflight - 1,
                  players := u.players[r.session := if r.ok then LandedOk(p) else LandedFailed(p, r)]);
      RequestIs(v, r.session);
    }
  }

  /** What releasing a side may change of what `a` needs, if the side is not its own: at most one bundle is queued. */
  ghost predicate MoreQueued(u: World, v: World, a: Account) {
    && v.table == u.table && v.db == u.db && v.dbAt == u.dbAt && v.trades == u.trades && v.hist == u.hist
         && v.pairs == u.pairs
    && v.workers == u.workers && v.queueMax == u.queueMax && |v.bundles| == |u.bundles|
    && (a in u.leave ==> a in v.leave && v.leave[a] == u.leave[a])
    && (v.jobs == u.jobs || (|v.jobs| == |u.jobs| + 1 && v.jobs[..|u.jobs|] == u.jobs))
    && forall n :: 0 <= n < |u.bundles| ==> v.bundles[n] <= u.bundles[n] + 1
  }

  lemma SentIs(w: World, c: Account)
    requires c in w.leave
    ensures var v, x := SendLeaveRecord(w, c), LeaveWrite(c, w.leave[c].(bundleNo := NextNo(w.leaveSeq)), None);
            && v == w.(leaveSeq := v.leaveSeq, leave := v.leave, jobs := v.jobs, bundles := v.bundles,
                       issued := v.issued)
            && (forall a ::
                  a != c ==> ((a in v.leave <==> a in w.leave) && (a in w.leave ==> v.leave[a] == w.leave[a])))
            && v.jobs == (if HasRoom(w, Route(w, c), 1) then w.jobs + [Save(x)] else w.jobs)
            && v.bundles == (if HasRoom(w, Route(w, c), 1) then Bump(w.bundles, Route(w, c), 1) else w.bundles)
  {
    hide NextNo, SlotIndex, Bump;
  }

  lemma SentMore(w: World, c: Account, a: Account)
    requires c in w.leave && c != a
    ensures MoreQueued(w, SendLeaveRecord(w, c), a)
  {
    hide SendLeaveRecord, NextNo, LeaveWrite, Route;
    SentIs(w, c);
  }

  lemma ReleaseOther(u: World, sd: Side, a: Account)
    requires sd.account != a
    ensures MoreQueued(u, ReleasePairSide(u, sd), a)
  {
    hide SendLeaveRecord, RequestSave, MoreQueued;
    SameMore(u, u, a);
    if sd.session != LEFT {
      if sd.session in u.players && u.players[sd.session].account == sd.account {
        var p := u.players[sd.session];
        var v := u.(players := u.players[sd.session := p.(flight := p.flight.(paired := false))]);
        RequestIs(v, sd.session);
        SameMore(u, RequestSave(v, sd.session), a);
      }
    } else if sd.account in u.leave && u.leave[sd.account].paired {
      var v := u.(leave := u.leave[sd.account := u.leave[sd.account].(paired := false)]);
      SameMore(u, v, a);
      SentMore(v, sd.account, a);
      MoreAfter(u, v, SendLeaveRecord(v, sd.account), a);
    }
  }

  lemma SameMore(u: World, v: World, a: Account)
    requires v == u.(players := v.players, leave := v.leave, tickEnd := v.tickEnd)
    requires a in u.leave ==> a in v.leave && v.leave[a] == u.leave[a]
    ensures MoreQueued(u, v, a)
  {
  }

  lemma MoreAfter(u: World, v: World, z: World, a: Account)
    requires v == u.(leave := v.leave) && MoreQueued(v, z, a)
    requires a in u.leave ==> a in v.leave && v.leave[a] == u.leave[a]
    ensures MoreQueued(u, z, a)
  {
  }

  /** Its own record is let go, and queued as the last job. */
  ghost predicate OwnQueued(u: World, v: World, a: Account) {
    && v.table == u.table && v.db == u.db && v.dbAt == u.dbAt && v.trades == u.trades && v.hist == u.hist
         && v.pairs == u.pairs
    && v.workers == u.workers && v.queueMax == u.queueMax && |v.bundles| == |u.bundles|
    && |v.jobs| == |u.jobs| + 1 && v.jobs[..|u.jobs|] == u.jobs
    && v.jobs[|u.jobs|].Save? && v.jobs[|u.jobs|].w.account == a && a in u.leave
         && v.jobs[|u.jobs|].w.at == u.leave[a].at
  }

  lemma ReleaseMine(u: World, sd: Side, a: Account)
    requires sd.account == a && sd.session == LEFT && a in u.leave && u.leave[a].paired && !u.leave[a].inFlight
    requires HasRoom(u, Route(u, a), 1)
    ensures OwnQueued(u, ReleasePairSide(u, sd), a)
  {
    hide SendLeaveRecord, NextNo, Route;
    var v := u.(leave := u.leave[a := u.leave[a].(paired := false)]);
    RouteStays(u, v, a);
    SentIs(v, a);
  }

  /** One job of a few is a bundle of `a` alone, taken from its last state. */
  ghost predicate Alone(v: World, n: nat, a: Account, at: nat) {
    n < |v.jobs| && v.jobs[n].Save? && v.jobs[n].w.account == a && v.jobs[n].w.at == at
  }

  lemma BothReleased(u: World, l: PairLink, k: nat, a: Account, b: Account) returns (n: nat)
    requires HalfLink(l, k, a, b) && a in u.leave && u.leave[a].paired && !u.leave[a].inFlight
    requires Queues(u) && HasRoom(u, Route(u, a), 2)
    ensures var v := ReleasePairSide(ReleasePairSide(u, l.sides[0]), l.sides[1]);
            v.dbAt == u.dbAt && v.trades == u.trades && Alone(v, n, a, u.leave[a].at)
  {
    hide ReleasePairSide, Route;
    var x := ReleasePairSide(u, l.sides[0]);
    var v := ReleasePairSide(x, l.sides[1]);
    if k == 0 {
      ReleaseMine(u, l.sides[0], a);
      ReleaseOther(x, l.sides[1], a);
      n := |u.jobs|;
      assert v.jobs[n] == x.jobs[n];
    } else {
      ReleaseOther(u, l.sides[0], a);
      RouteStays(u, x, a);
      ReleaseMine(x, l.sides[1], a);
      n := |x.jobs|;
    }
  }

  lemma RouteStays(u: World, x: World, a: Account)
    requires x.workers == u.workers
    ensures Route(x, a) == Route(u, a)
  {
  }

  /** The other side's good answer, handled first: the old link goes, and `a`'s new record with it. */
  lemma AnswerReleases(w: World, i: nat, k: nat, a: Account, b: Account) returns (v: World, n: nat)
    requires OnHalf(w, i, k, a, b) && AnswerAt(w, 0, w.pairs[i], k, b)
    requires a in w.leave && w.leave[a].paired && !w.leave[a].inFlight && Queues(w) && HasRoom(w, Route(w, a), 2)
    ensures Arrives(w, v) && v.dbAt == w.dbAt && v.trades == w.trades && Alone(v, n, a, w.leave[a].at)
  {
    hide Arrives, OnSaveReply, ReleasePairSide, FindPair, Route;
    var r, l := w.replies[0], w.pairs[i];
    var x := OnSaveReply(Tail(w), r);
    SavedReply(Tail(w), r);
    assert SideOf(l, b) == 1 - k;
    var m := l.(sides := l.sides[1 - k := l.sides[1 - k].(replied := true)], ok := l.ok && r.ok);
    var z := x.(pairs := Without(w.pairs, i));
    v := ReleasePairSide(ReleasePairSide(z, m.sides[0]), m.sides[1]);
    assert OnPairReply(x, r) == v;
    n := ReleasedAs(z, l, m, k, a, b) by { RouteStays(w, z, a); }
    ArriveStep(w, Answer);
  }

  /** Release looks at account and session of a side only. */
  lemma ReleasedAs(z: World, l: PairLink, m: PairLink, k: nat, a: Account, b: Account) returns (n: nat)
    requires HalfLink(l, k, a, b) && a in z.leave && z.leave[a].paired && !z.leave[a].inFlight
    requires Queues(z) && HasRoom(z, Route(z, a), 2)
    requires m.sides == l.sides[1 - k := l.sides[1 - k].(replied := true)]
    ensures var v := ReleasePairSide(ReleasePairSide(z, m.sides[0]), m.sides[1]);
            v.dbAt == z.dbAt && v.trades == z.trades && Alone(v, n, a, z.leave[a].at)
  {
    hide ReleasePairSide, Route;
    SameRelease(z, l.sides[0], m.sides[0]);
    SameRelease(ReleasePairSide(z, l.sides[0]), l.sides[1], m.sides[1]);
    n := BothReleased(z, l, k, a, b);
  }

  lemma SameRelease(z: World, d: Side, e: Side)
    requires e.account == d.account && e.session == d.session
    ensures ReleasePairSide(z, e) == ReleasePairSide(z, d)
  {
  }

  // ----- the record is stored, the pair is not

  lemma StoresAlone(w: World, n: nat, a: Account, at: nat) returns (v: World)
    requires Alone(w, n, a, at)
    ensures Arrives(w, v) && DbAt(v, a) == at && v.trades == w.trades && forall c :: c != a ==> DbAt(v, c) == DbAt(w, c)
  {
    hide Arrives, Upsert;
    var rs, ls := FailFirst(w, n);
    var u := w.(jobs := w.jobs[n..], replies := w.replies + rs, loads := w.loads + ls);
    assert u.jobs[0] == w.jobs[n];
    v := Execute(u, 0, true, true);
    ArriveStep(u, Work(0, true, true));
    ArriveTrans(w, u, v);
  }

  // ----- what an entry on a link leaves behind

  ghost predicate Ready(w: World, i: nat, k: nat, a: Account, b: Account, s: Session) {
    && OnHalf(w, i, k, a, b) && CanTrade(w, s, a) && Queues(w) && a !in w.leave
    && exists m :: AnswerAt(w, m, w.pairs[i], k, b)
  }

  /** Nothing is changed but queues, loads and what is known of others; replies may be added. */
  ghost predicate KeepsReady(w: World, v: World, a: Account, s: Session) {
    && v.table == w.table && v.pairs == w.pairs && v.leave == w.leave && w.replies <= v.replies
    && v.workers == w.workers && v.queueMax == w.queueMax && |v.bundles| == |w.bundles|
         && |v.loadsQueued| == |w.loadsQueued|
    && (s in w.players ==> s in v.players && v.players[s] == w.players[s])
    && HistOf(v, a) == HistOf(w, a) && DbAt(v, a) == DbAt(w, a)
  }

  lemma StillReady(w: World, v: World, i: nat, k: nat, a: Account, b: Account, s: Session)
    requires Ready(w, i, k, a, b, s) && KeepsReady(w, v, a, s)
    ensures Ready(v, i, k, a, b, s)
  {
    hide Plays, HalfLink, HistOf, DbAt, FindPair;
    var m :| AnswerAt(w, m, w.pairs[i], k, b) by { HalfIs(w.pairs[i], k, a, b); }
    assert TwoSided(w.pairs[i]) && k < 2 by { HalfIs(w.pairs[i], k, a, b); }
    assert AnswerAt(v, m, v.pairs[i], k, b);
  }

  lemma HalfIs(l: PairLink, k: nat, a: Account, b: Account)
    requires HalfLink(l, k, a, b)
    ensures TwoSided(l) && k < 2 && a != b
  {
  }

  /** The link of the entering account, and the answer to its other side. */
  lemma LinkAtEntry(w: World, a: Account) returns (i: nat, k: nat, b: Account)
    requires Inv(w) && a !in w.owner && a !in w.leave && FindPair(w.pairs, a) < |w.pairs|
    ensures OnHalf(w, i, k, a, b) && exists m :: AnswerAt(w, m, w.pairs[i], k, b)
  {
    hide Inv, Has, SideGone, HalfLink;
    i := FindPair(w.pairs, a);
    k := SideWith(w.pairs[i], a);
    TwoSides(w, i);
    GoneIsAbsent(w, i, k);
    var l := w.pairs[i];
    b := l.sides[1 - k].account;
    GoneIsHalf(w, i, k);
    HalfIs(l, k, a, b);
    OthersLink(w, i, 1 - k);
    var m := AnswerOf(w, i, k);
    assert AnswerAt(w, m, w.pairs[i], k, b);
  }

  lemma GoneIsHalf(w: World, i: nat, k: nat)
    requires Inv(w) && SideGone(w, i, k)
    ensures HalfLink(w.pairs[i], k, w.pairs[i].sides[k].account, w.pairs[i].sides[1 - k].account)
  {
    hide Inv, ViewOf, SideOk, AnsweredAlike, Settled;
    TheLink(w, i);
  }

  lemma OthersLink(w: World, i: nat, k: nat)
    requires Inv(w) && i < |w.pairs| && k < |w.pairs[i].sides|
    ensures FindPair(w.pairs, w.pairs[i].sides[k].account) == i
  {
    hide Inv;
    var b := w.pairs[i].sides[k].account;
    assert Has(w.pairs[i], b);
    if FindPair(w.pairs, b) < |w.pairs| { OneLinkEach(w, i, FindPair(w.pairs, b), b); }
  }

  lemma AnswerOf(w: World, i: nat, k: nat) returns (m: nat)
    requires Inv(w) && SideGone(w, i, k)
    ensures AnswerAt(w, m, w.pairs[i], k, w.pairs[i].sides[1 - k].account)
  {
    hide Inv, ViewOf, Gather;
    var l := w.pairs[i];
    var b := l.sides[1 - k].account;
    TheLink(w, i);
    AnswerQueued(w.jobs, l, k, ViewOf(w, l.sides[0].account), ViewOf(w, l.sides[1].account));
    ViewParts(w, b);
    m := FirstFor(w.replies, b);
  }

  lemma AnswerQueued(jobs: seq<Job>, l: PairLink, k: nat, v0: View, v1: View)
    requires LinkOk(jobs, l, v0, v1) && k < 2 && l.inFlight && l.ok && l.sides[k].replied
    ensures var rs := if k == 0 then v1.rs else v0.rs;
            |rs| == 1 && rs[0].ok && rs[0].bundleNo == l.sides[1 - k].bundleNo
  {
    hide Settled;
  }

  lemma {:induction false} FirstFor(replies: seq<Reply>, b: Account) returns (m: nat)
    requires RepliesFor(replies, b) != []
    ensures m < |replies| && replies[m] == RepliesFor(replies, b)[0] && replies[m].account == b
    ensures forall n :: 0 <= n < m ==> replies[n].account != b
  {
    if replies[0].account == b {
      m := 0;
    } else {
      m := FirstFor(replies[1..], b);
      m := m + 1;
    }
  }

  lemma EntryReady(w: World, place: Place, values: Values, saved: Values, dirty: bool)
      returns (i: nat, k: nat, b: Account)
    requires Inv(w) && w.loads != [] && Admits(w, w.loads[0]) && FindPair(w.pairs, w.loads[0].account) < |w.pairs|
             && w.queueMax >= 2
    ensures Ready(HandedOn(w, true, place, values, saved, dirty), i, k, w.loads[0].account, b, w.loads[0].session)
    ensures HandedOn(w, true, place, values, saved, dirty).trades == w.trades
  {
    hide Inv, FindPair, HalfLink, Spawn, Plays;
    var r, u := w.loads[0], w.(loads := w.loads[1..]);
    i, k, b := LinkAtEntry(w, r.account);
    DropKeeps(w);
    InvBase(w);
    SpawnedTrades(u, r, place, values, saved, dirty);
    var m :| AnswerAt(w, m, w.pairs[i], k, b) by { HalfIs(w.pairs[i], k, r.account, b); }
    assert TwoSided(w.pairs[i]) && k < 2 by { HalfIs(w.pairs[i], k, r.account, b); }
    assert AnswerAt(HandedOn(w, true, place, values, saved, dirty), m, w.pairs[i], k, b);
  }

  lemma SpawnedTrades(w: World, r: LoadResult, place: Place, values: Values, saved: Values, dirty: bool)
    requires Inv(w) && r.session != LEFT
    ensures var v := Spawn(w, r, place, values, saved, dirty);
            && CanTrade(v, r.session, r.account)
            && v == w.(players := v.players, owner := v.owner, used := v.used, hist := v.hist, dbAt := v.dbAt,
                       stale := v.stale)
            && (forall x :: x != r.account ==> HistOf(v, x) == HistOf(w, x) && DbAt(v, x) == DbAt(w, x))
            && forall s :: s in w.players && s != r.session ==> s in v.players && v.players[s] == w.players[s]
  {
    hide Inv, SpawnedPlayer, ReadChar, GoodBag, GoodMoney, ViewOf;
    SpawnedIs(w, r, place, values, saved, dirty);
    PlaysSelf(w.table, SpawnedPlayer(w, r, place, values, saved, dirty));
    TheDbAt(w, r.account);
  }

  lemma PlaysSelf(table: ItemTable, p: Player)
    requires GoodBag(table, p.bag) && GoodMoney(p.values.money) && p.unsaved == {}
    ensures Plays(table, p, p)
  {
    hide GoodBag, GoodMoney;
  }

  lemma TheDbAt(w: World, a: Account)
    requires Inv(w)
    ensures DbAt(w, a) < |HistOf(w, a)|
  {
    hide Inv, ViewOf, ViewOk, HistOf, DbAt;
    TheView(w, a);
    ViewParts(w, a);
    StoredAt(w.table, ViewOf(w, a), a);
  }

  // ----- the continuation

  /** All jobs fail and all loads are handed on to nobody. */
  lemma Emptied1(w: World, i: nat, k: nat, a: Account, b: Account, s: Session) returns (v: World)
    requires Ready(w, i, k, a, b, s)
    ensures Arrives(w, v) && Ready(v, i, k, a, b, s) && v.trades == w.trades && v.jobs == [] && v.loads == []
    ensures v.owner == w.owner && v.used == w.used && v.leave == w.leave && v.pairs == w.pairs && v.hist == w.hist
            && v.dbAt == w.dbAt
    ensures v.workers == w.workers && v.db == w.db && v.table == w.table
  {
    hide Arrives, Ready;
    var rs, ls := FailFirst(w, |w.jobs|);
    var u := w.(jobs := w.jobs[|w.jobs|..], replies := w.replies + rs, loads := w.loads + ls);
    DropAll(u);
    v := u.(loads := []);
    ArriveTrans(w, u, v);
    StillReady(w, v, i, k, a, b, s);
  }

  /** A worker makes room. */
  lemma Roomy(w: World, n: nat, i: nat, k: nat, a: Account, b: Account, s: Session) returns (v: World)
    requires Ready(w, i, k, a, b, s) && n < w.workers
    ensures Arrives(w, v) && Ready(v, i, k, a, b, s) && v == w.(bundles := v.bundles, loadsQueued := v.loadsQueued)
    ensures n < |v.bundles| && v.bundles[n] == 0 && n < |v.loadsQueued| && v.loadsQueued[n] == 0
    ensures forall x ::
              0 <= x < |w.loadsQueued| && w.loadsQueued[x] == 0 && x < |v.loadsQueued| ==> v.loadsQueued[x] == 0
  {
    hide Arrives, Ready;
    ReadyQueues(w, i, k, a, b, s);
    Taken(w, n);
    v := TakeOver(w, n);
    StillReady(w, v, i, k, a, b, s);
  }

  lemma ReadyQueues(w: World, i: nat, k: nat, a: Account, b: Account, s: Session)
    requires Ready(w, i, k, a, b, s)
    ensures Queues(w) && OnHalf(w, i, k, a, b) && CanTrade(w, s, a) && a !in w.leave
  {
    hide OnHalf, CanTrade;
  }

  lemma RouteIn(w: World, a: Account)
    requires w.workers > 0
    ensures Route(w, a) < w.workers
  {
  }

  /** An account and a session nobody has used. */
  lemma Somebody(w: World, a: Account) returns (c: Account, t: Session)
    ensures c != a && c !in w.owner && c !in w.leave && FindPair(w.pairs, c) == |w.pairs|
    ensures t != LEFT && t !in w.used
  {
    var linked := set i, k | 0 <= i < |w.pairs| && 0 <= k < |w.pairs[i].sides| :: w.pairs[i].sides[k].account;
    c := AboveAll(w.owner.Keys + w.leave.Keys + linked + {a});
    t := AboveAll(w.used);
    forall i, k | 0 <= i < |w.pairs| && 0 <= k < |w.pairs[i].sides| ensures w.pairs[i].sides[k].account != c {
      assert w.pairs[i].sides[k].account in linked;
    }
  }

  /** Somebody else enters, free to trade. */
  lemma Joins(w: World, c: Account, t: Session, i: nat, k: nat, a: Account, b: Account, s: Session) returns (v: World)
    requires Ready(w, i, k, a, b, s) && w.jobs == [] && w.loads == []
    requires c != a && c !in w.owner && c !in w.leave && FindPair(w.pairs, c) == |w.pairs| && t != LEFT && t !in w.used
             && t != s
    requires Route(w, c) < |w.loadsQueued| && w.loadsQueued[Route(w, c)] == 0 && DbAt(w, c) <= |HistOf(w, c)|
    ensures Arrives(w, v) && Ready(v, i, k, a, b, s) && CanTrade(v, t, c) && v.trades == w.trades && v.jobs == []
    ensures v.bundles == w.bundles && v.workers == w.workers && v.queueMax == w.queueMax
  {
    hide Arrives, Reaches, Ready, Route, FindPair, Plays, CanTrade;
    ReadyQueues(w, i, k, a, b, s);
    Enters(w, t, c, Stats(1, 0), false);
    v := Entered(w, t, c, Stats(1, 0), false);
    ReachArrives(w, v);
    JoinedIs(w, c, t, a, s);
    StillReady(w, v, i, k, a, b, s);
  }

  lemma JoinedIs(w: World, c: Account, t: Session, a: Account, s: Session)
    requires DbAt(w, c) <= |HistOf(w, c)| && t != LEFT && s != t && c != a
    ensures var v := Entered(w, t, c, Stats(1, 0), false);
            && CanTrade(v, t, c) && KeepsReady(w, v, a, s) && v.trades == w.trades && v.jobs == w.jobs
                 && v.bundles == w.bundles
  {
    hide SpawnedPlayer, ReadChar, GoodBag, GoodMoney, Plays, Route;
    var q := Bump(w.loadsQueued, Route(w, c), 1);
    var u := w.(loadsQueued := q);
    SpawnedIs(u, Read(w, t, c), HOME, Stats(1, 0), Stats(1, 0), false);
    PlaysSelf(w.table, SpawnedPlayer(u, Read(w, t, c), HOME, Stats(1, 0), Stats(1, 0), false));
  }

  /** A trade that is stored for one of its accounts only. */
  ghost predicate HalfStored(w: World, t: Trade) { t.a != t.b && DbAt(w, t.a) >= t.aAt && DbAt(w, t.b) < t.bAt }

  lemma TradersAt(w: World, s: Session, a: Account)
    requires CanTrade(w, s, a)
    ensures s in w.players && w.players[s].account == a && DbAt(w, a) < |HistOf(w, a)|
  {
    hide Plays, DbAt, HistOf;
  }

  lemma StillOnHalf(w: World, v: World, i: nat, k: nat, a: Account, b: Account)
    requires OnHalf(w, i, k, a, b) && |w.pairs| <= |v.pairs| && v.pairs[..|w.pairs|] == w.pairs
    ensures OnHalf(v, i, k, a, b) && v.pairs[i] == w.pairs[i]
  {
    hide FindPair, HalfLink;
    FirstStays(w.pairs, v.pairs[|w.pairs|..], a);
    FirstStays(w.pairs, v.pairs[|w.pairs|..], b);
    assert v.pairs == w.pairs + v.pairs[|w.pairs|..];
    assert v.pairs[..|w.pairs|][i] == w.pairs[i];
  }

  /** From `w` to `y`: traded, left, and the queue of `a`'s worker taken over. */
  ghost predicate Leaving(w: World, y: World, a: Account, c: Account) {
    && y.dbAt == w.dbAt && y.replies == w.replies
         && y.trades == w.trades + [Trade(a, c, |HistOf(w, a)|, |HistOf(w, c)|)]
    && |w.pairs| <= |y.pairs| && y.pairs[..|w.pairs|] == w.pairs && Queues(y)
    && a in y.leave && y.leave[a].paired && !y.leave[a].inFlight && y.leave[a].at == |HistOf(w, a)|
  }

  lemma TradesAndLeaves(w: World, i: nat, k: nat, a: Account, b: Account, s: Session, c: Account, t: Session)
      returns (y: World)
    requires OnHalf(w, i, k, a, b) && Queues(w) && CanTrade(w, s, a) && CanTrade(w, t, c) && a != c && s != t
             && w.jobs == []
    requires HasRoom(w, WorkerOf(w, a, c), 2)
    ensures Arrives(w, y) && Leaving(w, y, a, c) && HasRoom(y, Route(y, a), 2)
  {
    hide Arrives, CanTrade, Route, OnHalf, LeftHeld, Traded, Leaving, HasRoom;
    var u := TwoTrade(w, s, t, a, c);
    var x := LeavesOnHalf(w, u, i, k, a, b, s, c);
    ArriveTrans(w, u, x);
    TradedQueues(w, u, x, s, a, c);
    RouteIn(x, a);
    Taken(x, Route(x, a));
    y := TakeOver(x, Route(x, a));
    ArriveTrans(w, x, y);
    TookRoom(x, a);
    LeavingIs(w, u, x, s, a, c);
  }

  lemma LeavesOnHalf(w: World, u: World, i: nat, k: nat, a: Account, b: Account, s: Session, c: Account)
      returns (x: World)
    requires OnHalf(w, i, k, a, b) && Traded(w, u, s, a, c)
    ensures Arrives(u, x) && LeftHeld(u, x, a)
  {
    hide Arrives, FindPair, HalfLink, LeftHeld;
    StillOnHalf(w, u, i, k, a, b);
    x := LeavesAgain(u, s, i, k, a, b);
  }

  lemma TradedQueues(w: World, u: World, x: World, s: Session, a: Account, c: Account)
    requires Queues(w) && Traded(w, u, s, a, c) && LeftHeld(u, x, a)
    ensures Queues(x)
  {
    hide HistOf;
  }

  lemma TookRoom(x: World, a: Account)
    requires Queues(x)
    ensures var y := TakeOver(x, Route(x, a)); HasRoom(y, Route(y, a), 2) && Queues(y)
  {
    hide Route;
    RouteIn(x, a);
    RouteStays(x, TakeOver(x, Route(x, a)), a);
  }

  lemma LeavingIs(w: World, u: World, x: World, s: Session, a: Account, c: Account)
    requires Traded(w, u, s, a, c) && LeftHeld(u, x, a) && Queues(TakeOver(x, Route(x, a)))
    ensures Leaving(w, TakeOver(x, Route(x, a)), a, c)
  {
    hide HistOf, Route;
    TopIs(u, a);
  }

  /** The answer comes to the front. */
  lemma AnswerFirst(w: World, y: World, i: nat, k: nat, a: Account, b: Account, s: Session, c: Account)
      returns (z: World)
    requires Ready(w, i, k, a, b, s) && Leaving(w, y, a, c)
    ensures Arrives(y, z) && z == y.(replies := z.replies) && OnHalf(z, i, k, a, b) && AnswerAt(z, 0, z.pairs[i], k, b)
  {
    hide Arrives, FindPair, HalfLink, HistOf, CanTrade;
    StillOnHalf(w, y, i, k, a, b);
    HalfIs(w.pairs[i], k, a, b);
    var m: nat :| AnswerAt(w, m, w.pairs[i], k, b);
    ToFront(y, m);
    z := y.(replies := [y.replies[m]] + Without(y.replies, m));
    assert z.replies[0] == w.replies[m];
  }

  lemma LeavingParts(w: World, y: World, z: World, a: Account, c: Account)
    requires Leaving(w, y, a, c) && z == y.(replies := z.replies) && HasRoom(y, Route(y, a), 2)
    ensures Queues(z) && HasRoom(z, Route(z, a), 2) && a in z.leave && z.leave[a].paired && !z.leave[a].inFlight
    ensures z.leave[a].at == |HistOf(w, a)| && z.dbAt == w.dbAt
    ensures z.trades == w.trades + [Trade(a, c, |HistOf(w, a)|, |HistOf(w, c)|)]
  {
    hide HistOf, SlotIndex;
  }

  /** With somebody to trade with and room in the queues: the trade, the departure, the answer, and the record alone. */
  lemma Breaks(w: World, i: nat, k: nat, a: Account, b: Account, s: Session, c: Account, t: Session) returns (v: World)
    requires Ready(w, i, k, a, b, s) && CanTrade(w, t, c) && a != c && s != t && w.jobs == []
    requires HasRoom(w, WorkerOf(w, a, c), 2)
    ensures Arrives(w, v) && |v.trades| == |w.trades| + 1 && HalfStored(v, v.trades[|w.trades|])
  {
    hide Arrives, Ready, CanTrade, Route, OnHalf, Leaving, AnswerAt, Alone, HasRoom, HistOf, Queues;
    ReadyQueues(w, i, k, a, b, s);
    TradersAt(w, t, c);
    var y := TradesAndLeaves(w, i, k, a, b, s, c, t);
    var z := AnswerFirst(w, y, i, k, a, b, s, c);
    ArriveTrans(w, y, z);
    LeavingParts(w, y, z, a, c);
    var q, n := AnswerReleases(z, i, k, a, b);
    ArriveTrans(w, z, q);
    v := StoresAlone(q, n, a, z.leave[a].at);
    ArriveTrans(w, q, v);
    SameDb(z, q);
    SameDb(w, z);
  }

  lemma SameDb(w: World, v: World)
    requires v.dbAt == w.dbAt
    ensures forall a :: DbAt(v, a) == DbAt(w, a)
  {
  }

  lemma SameHist(w: World, v: World, a: Account)
    requires v.hist == w.hist && v.db == w.db && v.table == w.table
    ensures HistOf(v, a) == HistOf(w, a)
  {
  }

  // ----- queues too short for a pair

  lemma {:induction false} DetachIdle(pairs: seq<PairLink>, a: Account)
    requires Idle(pairs)
    ensures Idle(Detach(pairs, a))
  {
    hide FindPair, SideOf;
  }

  lemma StepIdle(w: World, act: Action)
    requires Enabled(w, act)
    ensures Step(w, act).queueMax == w.queueMax && (w.queueMax < 2 && Idle(w.pairs) ==> Idle(Step(w, act).pairs))
  {
    hide Idle, Detach, Spawn, Leave;
    if act.Depart? {
      LeftIs(w, act.s);
      if Idle(w.pairs) { DetachIdle(w.pairs, w.players[act.s].account); }
    } else if act.HandOn? && act.enter {
      SpawnLinks(w.(loads := w.loads[1..]), w.loads[0], act.place, act.values, act.saved, act.dirty);
    } else {
      OtherIdle(w, act);
    }
  }

  lemma OtherIdle(w: World, act: Action)
    requires Enabled(w, act) && !act.Depart? && !(act.HandOn? && act.enter)
    ensures Step(w, act).queueMax == w.queueMax && (w.queueMax < 2 && Idle(w.pairs) ==> Idle(Step(w, act).pairs))
  {
    hide Enabled, Step, Idle;
    OtherKeepsHub(w, act);
  }

  lemma SpawnLinks(w: World, r: LoadResult, place: Place, values: Values, saved: Values, dirty: bool)
    ensures var v := Spawn(w, r, place, values, saved, dirty); v.pairs == w.pairs && v.queueMax == w.queueMax
  {
    hide SpawnedPlayer, EnteredHist, ComesBack, Stored;
  }

  lemma {:induction false} ShortQueues(w: World, acts: seq<Action>)
    requires CanRun(w, acts) && w.queueMax < 2 && Idle(w.pairs)
    ensures Ran(w, acts).queueMax < 2 && Idle(Ran(w, acts).pairs)
    decreases |acts|
  {
    hide Enabled, Step, Idle;
    if acts != [] {
      StepIdle(w, acts[0]);
      ShortQueues(Step(w, acts[0]), acts[1..]);
    }
  }

  lemma {:induction false} SameQueues(w: World, acts: seq<Action>)
    requires CanRun(w, acts)
    ensures Ran(w, acts).queueMax == w.queueMax
    decreases |acts|
  {
    hide Enabled, Step, Idle;
    if acts != [] {
      StepIdle(w, acts[0]);
      SameQueues(Step(w, acts[0]), acts[1..]);
    }
  }

  /** Where a linked player can enter, a pair was sent, so the queues are long enough for one. */
  lemma LinkedQueues(w0: World, acts: seq<Action>)
    requires Initial(w0) && FreeRun(w0, acts)
    requires var w := Ran(w0, acts);
             w.loads != [] && Admits(w, w.loads[0]) && FindPair(w.pairs, w.loads[0].account) < |w.pairs|
    ensures Ran(w0, acts).queueMax >= 2
  {
    hide FreeRun, Ran, CanRun, Inv, LoadsOk, FindPair, HalfLink, Idle;
    var w := Ran(w0, acts);
    RunSound(w0, acts);
    FreeIsRun(w0, acts);
    var i, k, b := LinkAtEntry(w, w.loads[0].account);
    HalfFlies(w.pairs[i], k, w.loads[0].account, b);
    NotIdle(w.pairs, i);
    SameQueues(w0, acts);
    if w0.queueMax < 2 {
      assert Idle(w0.pairs) by { NoneIdle(w0.pairs); }
      ShortQueues(w0, acts);
    }
  }

  lemma NoneIdle(pairs: seq<PairLink>)
    requires pairs == []
    ensures Idle(pairs)
  {
  }

  lemma HalfFlies(l: PairLink, k: nat, a: Account, b: Account)
    requires HalfLink(l, k, a, b)
    ensures l.inFlight
  {
  }

  /** From any state that a run without such an entry reaches: if the next load is handed on to a player whose account
      is on a link, the program can go on so that a trade is stored for one of its accounts only. No particular players,
      numbers, workers or queues are needed. */
  lemma LinkedEntryCanBreakATrade(w0: World, acts: seq<Action>, place: Place, values: Values, saved: Values,
                                  dirty: bool)
    returns (more: seq<Action>)
    requires Initial(w0) && FreeRun(w0, acts)
    requires Ran(w0, acts).loads != [] && Admits(Ran(w0, acts), Ran(w0, acts).loads[0])
    requires FindPair(Ran(w0, acts).pairs, Ran(w0, acts).loads[0].account) < |Ran(w0, acts).pairs|
    ensures Enabled(Ran(w0, acts), HandOn(true, place, values, saved, dirty))
    ensures var e := Step(Ran(w0, acts), HandOn(true, place, values, saved, dirty));
            && CanRun(e, more)
            && var v := Ran(e, more);
               |v.trades| == |e.trades| + 1 && HalfStored(v, v.trades[|e.trades|])
  {
    hide Initial, FreeRun, Ran, CanRun, Inv, LoadsOk, FindPair, Ready, Arrives, HalfStored, HandedOn;
    var w := Ran(w0, acts);
    RunSound(w0, acts);
    LinkedQueues(w0, acts);
    var i, k, b := EntryReady(w, place, values, saved, dirty);
    var e := HandedOn(w, true, place, values, saved, dirty);
    EntryFields(w, place, values, saved, dirty);
    var v := FromReady(e, i, k, w.loads[0].account, b, w.loads[0].session);
    more := ArriveTo(e, v);
  }

  lemma EntryFields(w: World, place: Place, values: Values, saved: Values, dirty: bool)
    requires Inv(w) && w.loads != [] && w.loads[0].session != LEFT
    ensures var e := HandedOn(w, true, place, values, saved, dirty);
            w.loads[0].session in e.used && forall x :: DbAt(e, x) <= |HistOf(e, x)|
  {
    hide Inv, HistOf, DbAt, Spawn;
    var r, u := w.loads[0], w.(loads := w.loads[1..]);
    DropKeeps(w);
    SpawnedTrades(u, r, place, values, saved, dirty);
    TradersAt(Spawn(u, r, place, values, saved, dirty), r.session, r.account);
    SpawnedUsed(u, r, place, values, saved, dirty);
    forall x ensures DbAt(HandedOn(w, true, place, values, saved, dirty), x)
        <= |HistOf(HandedOn(w, true, place, values, saved, dirty), x)| {
      TheDbAt(u, x);
    }
  }

  lemma SpawnedUsed(w: World, r: LoadResult, place: Place, values: Values, saved: Values, dirty: bool)
    ensures r.session in Spawn(w, r, place, values, saved, dirty).used
  {
  }

  /** Two workers taking over change nothing else. */
  lemma SameCounts(x: World, y: World, z: World, c: Account)
    requires y == x.(bundles := y.bundles, loadsQueued := y.loadsQueued)
             && z == y.(bundles := z.bundles, loadsQueued := z.loadsQueued)
    ensures Route(z, c) == Route(y, c) == Route(x, c) && DbAt(z, c) == DbAt(x, c) && HistOf(z, c) == HistOf(x, c)
  {
  }

  lemma RoomFor(z: World, q: World, a: Account, c: Account, n: nat)
    requires q.workers == z.workers && q.bundles == z.bundles && q.queueMax >= 2
    requires n == WorkerOf(z, a, c) && n < |z.bundles| && z.bundles[n] == 0
    ensures HasRoom(q, WorkerOf(q, a, c), 2)
  {
  }

  /** Emptied queues, room for three, somebody who joins, and the trade. */
  lemma FromReady(e: World, i: nat, k: nat, a: Account, b: Account, s: Session) returns (v: World)
    requires Ready(e, i, k, a, b, s) && s in e.used && forall x :: DbAt(e, x) <= |HistOf(e, x)|
    ensures Arrives(e, v) && |v.trades| == |e.trades| + 1 && HalfStored(v, v.trades[|e.trades|])
  {
    hide Arrives, Ready, CanTrade, Route, OnHalf, HalfStored, FindPair, HistOf, DbAt;
    var x := Emptied1(e, i, k, a, b, s);
    var c, t := Somebody(x, a);
    ReadyQueues(x, i, k, a, b, s);
    RouteIn(x, c);
    RouteIn(x, if a < c then a else c);
    var y := Roomy(x, Route(x, c), i, k, a, b, s);
    ArriveTrans(e, x, y);
    var z := Roomy(y, WorkerOf(x, a, c), i, k, a, b, s);
    ArriveTrans(e, y, z);
    ReadyQueues(z, i, k, a, b, s);
    SameCounts(x, y, z, c);
    SameCounts(x, y, z, if a < c then a else c);
    SameDb(e, x);
    assert HistOf(x, c) == HistOf(e, c) by { SameHist(e, x, c); }
    var q := Joins(z, c, t, i, k, a, b, s);
    ArriveTrans(e, z, q);
    ReadyQueues(q, i, k, a, b, s);
    RoomFor(z, q, a, c, WorkerOf(x, a, c));
    v := Breaks(q, i, k, a, b, s, c, t);
    ArriveTrans(e, q, v);
  }
}
