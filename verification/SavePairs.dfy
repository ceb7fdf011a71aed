/** Pair bundles: both sides of a trade are queued together, or neither is. */
module SavePairs {
  import opened Items
  import opened Seqs
  import opened SaveTypes
  import opened SaveSteps
  import opened SaveInvariant
  import opened SaveViews
  import opened SaveKeeps

  // ----- one side

  /** The view of a side once its head is queued. */
  function FlownView(v: View, sd: Side, x: Write): View {
    var u := v.(ws := v.ws + [x]);
    if sd.session != LEFT then
      if v.live.Some? then u.(live := Some(Committed(Prepared(v.live.value), x.bundleNo))) else u
    else
      if v.rec.Some? then u.(rec := Some(v.rec.value.(bundleNo := x.bundleNo, inFlight := true))) else u
  }

  function DroppedView(v: View, sd: Side, n: nat): View {
    if sd.session != LEFT then
      if v.live.Some? then v.(live := Some(Aborted(Prepared(v.live.value)))) else v
    else
      if v.rec.Some? then v.(rec := Some(v.rec.value.(bundleNo := n))) else v
  }

  /** The head `x` of a side seen as `v`, under number `n` if the side is a record. */
  ghost predicate IsHead(v: View, a: Account, sd: Side, mate: Account, n: nat, x: Write) {
    if sd.session != LEFT then
      v.live.Some? && |v.hist| > 0 && x == BundleOf(v.live.value, sd.session, Some(mate), |v.hist| - 1)
    else
      v.rec.Some? && x == LeaveWrite(a, v.rec.value.(bundleNo := n), Some(mate))
  }

  /** A side that waits for its link to be sent again: nothing outstanding, live and paired or held. */
  ghost predicate Waiting(v: View, sd: Side) {
    && v.ws == [] && v.rs == []
    && sd.tradeAt < |v.hist|
    && (sd.session != LEFT ==>
          v.live.Some? && v.session == sd.session && v.live.value.flight.paired && v.live.value.flight.bundleNo == 0)
    && (sd.session == LEFT ==> v.rec.Some? && v.live.None? && v.rec.value.paired && !v.rec.value.inFlight)
  }

  lemma SideWaits(table: ItemTable, v: View, a: Account, l: PairLink, k: nat)
    requires ViewOk(table, v, a) && TwoSided(l) && k < 2 && SideOk(l, k, v) && !l.inFlight
    ensures Waiting(v, l.sides[k])
  {
    hide HistoryOk, QueueOk, Agree;
  }

  lemma SideFlies(table: ItemTable, v: View, a: Account, sd: Side, mate: Account, n: nat, x: Write)
    requires ViewOk(table, v, a) && Waiting(v, sd) && n != 0 && IsHead(v, a, sd, mate, n, x)
    ensures ViewOk(table, FlownView(v, sd, x), a)
    ensures x.account == a && x.bundleNo != 0 && x.mate == Some(mate) && x.at == |v.hist| - 1 && x.session == sd.session
    ensures FlownView(v, sd, x).ws == [x] && FlownView(v, sd, x).rs == []
  {
    hide ViewOk;
    if sd.session != LEFT {
      LiveIdle(table, v, a);
      SentView(table, v, a, v.live.value, x);
      assert FlownView(v, sd, x) == v.(live := Some(Committed(Prepared(v.live.value), x.bundleNo)), ws := [x]);
    } else {
      var q := v.rec.value.(bundleNo := n, inFlight := true);
      RecordAt(table, v, a);
      AttemptView(table, v, a, v.rec.value, q, Some(mate));
      assert LeaveWrite(a, q, Some(mate)) == x;
      assert FlownView(v, sd, x) == v.(rec := Some(q), ws := v.ws + [x]);
    }
  }

  lemma RecordAt(table: ItemTable, v: View, a: Account)
    requires ViewOk(table, v, a) && v.rec.Some?
    ensures v.rec.value.at == |v.hist| - 1
  {
    hide HistoryOk, QueueOk, Agree;
  }

  lemma SideDrops(table: ItemTable, v: View, a: Account, sd: Side, n: nat)
    requires ViewOk(table, v, a) && Waiting(v, sd)
    ensures ViewOk(table, DroppedView(v, sd, n), a)
    ensures SameOnLink(v, DroppedView(v, sd, n))
  {
    hide ViewOk;
    if sd.session != LEFT {
      RefusedView(table, v, a, v.live.value);
    } else {
      RenumberedView(table, v, a, v.rec.value, v.rec.value.(bundleNo := n));
    }
  }

  // ----- the link

  lemma LinkFlies(jobs: seq<Job>, more: seq<Job>, l: PairLink, v0: View, v1: View, x: Write, y: Write)
    requires LinkOk(jobs, l, v0, v1) && !l.inFlight
    requires Waiting(v0, l.sides[0]) && Waiting(v1, l.sides[1])
    requires x.mate == Some(l.sides[1].account) && y.mate == Some(l.sides[0].account)
    requires x.at == |v0.hist| - 1 && y.at == |v1.hist| - 1
    requires Pair(x, y) in more
    ensures LinkOk(more, FlownLink(l, x.bundleNo, y.bundleNo), FlownView(v0, l.sides[0], x),
                   FlownView(v1, l.sides[1], y))
  {
  }

  lemma LinkDrops(jobs: seq<Job>, l: PairLink, v0: View, v1: View, u0: View, u1: View)
    requires LinkOk(jobs, l, v0, v1) && !l.inFlight && SameOnLink(v0, u0) && SameOnLink(v1, u1)
    ensures LinkOk(jobs, l.(inFlight := false), u0, u1)
  {
    LinkOkSame(jobs, l, v0, v1, u0, u1);
    assert l.(inFlight := false) == l;
  }

  // ----- the state

  lemma FlownFrame(w: World, sd: Side, x: Write, mate: Account)
    requires Frame(w) && SideReady(w, sd) && x == HeadOf(w, sd, mate)
    requires sd.session != LEFT ==>
               w.players[sd.session].flight.bundleNo == 0 && w.players[sd.session].flight.nextNo != 0
    requires sd.session == LEFT ==> sd.account !in w.owner
    ensures Frame(Flown(w, sd))
    ensures FlownView(ViewOf(w, sd.account), sd, x)
            == ViewOf(Flown(w, sd), sd.account).(ws := ViewOf(w, sd.account).ws + [x])
    ensures ViewOf(Flown(w, sd), sd.account).ws == ViewOf(w, sd.account).ws
    ensures forall b :: b != sd.account ==> ViewOf(Flown(w, sd), b) == ViewOf(w, b)
  {
    hide Frame, ViewOf;
    if sd.session != LEFT {
      var p := w.players[sd.session];
      var q := Committed(Prepared(p), p.flight.nextNo);
      assert Base(w) by { FrameBase(w); }
      Ownership(w, sd.session);
      SetPlayerFrame(w, sd.session, q);
      SetPlayerViews(w, sd.session, q);
      assert Flown(w, sd) == SetPlayer(w, sd.session, q);
    } else {
      var n := NextNo(w.leaveSeq);
      var r := w.leave[sd.account].(bundleNo := n, inFlight := true);
      RecordView(w, sd.account);
      SetRecordFrame(w, sd.account, r, n);
      assert Flown(w, sd) == SetRecord(w, sd.account, r, n);
    }
  }

  lemma FrameBase(w: World)
    requires Frame(w)
    ensures Base(w)
  {
  }

  lemma RecordView(w: World, a: Account)
    requires a in w.leave
    ensures ViewOf(w, a).rec == Some(w.leave[a])
  {
    hide Gather, ReadChar;
  }

  lemma DroppedFrame(w: World, sd: Side)
    requires Frame(w) && SideReady(w, sd)
    requires sd.session != LEFT ==> w.players[sd.session].flight.bundleNo == 0
    ensures Frame(Dropped(w, sd))
    ensures ViewOf(Dropped(w, sd), sd.account) == DroppedView(ViewOf(w, sd.account), sd, NextNo(w.leaveSeq))
    ensures forall b :: b != sd.account ==> ViewOf(Dropped(w, sd), b) == ViewOf(w, b)
  {
    hide Frame, ViewOf;
    if sd.session != LEFT {
      var p := w.players[sd.session];
      var q := Aborted(Prepared(p));
      assert Base(w) by { FrameBase(w); }
      Ownership(w, sd.session);
      SetPlayerFrame(w, sd.session, q);
      SetPlayerViews(w, sd.session, q);
      assert Dropped(w, sd) == SetPlayer(w, sd.session, q);
    } else {
      var n := NextNo(w.leaveSeq);
      var r := w.leave[sd.account].(bundleNo := n);
      RecordView(w, sd.account);
      SetRecordFrame(w, sd.account, r, n);
      assert Dropped(w, sd) == SetRecord(w, sd.account, r, n);
    }
  }

  lemma PushPairFrame(w: World, x: Write, y: Write)
    requires Frame(w) && JobOk(w, Pair(x, y))
    ensures Frame(PushPair(w, x, y))
  {
    var v := PushPair(w, x, y);
    assert Flying(v) == Flying(w);
    hide Flying;
    forall i | 0 <= i < |v.jobs| ensures JobOk(v, v.jobs[i]) {
      if i < |w.jobs| { assert JobOk(w, w.jobs[i]); } else { assert v.jobs[i] == Pair(x, y); }
    }
    forall i | 0 <= i < |v.replies| ensures SessionOk(v, v.replies[i].session, v.replies[i].account) {
      assert SessionOk(w, w.replies[i].session, w.replies[i].account);
    }
  }

  lemma PushPairViews(w: World, x: Write, y: Write)
    requires x.account != y.account
    ensures ViewOf(PushPair(w, x, y), x.account) == ViewOf(w, x.account).(ws := ViewOf(w, x.account).ws + [x])
    ensures ViewOf(PushPair(w, x, y), y.account) == ViewOf(w, y.account).(ws := ViewOf(w, y.account).ws + [y])
    ensures forall b :: b != x.account && b != y.account ==> ViewOf(PushPair(w, x, y), b) == ViewOf(w, b)
  {
    hide Gather, ReadChar;
    forall b ensures WritesFor(w.jobs + [Pair(x, y)], b) == WritesFor(w.jobs, b) + WritesIn(Pair(x, y), b) {
      GatherSnoc(WriterOf(b), w.jobs, Pair(x, y));
    }
  }

  lemma ReadySide(w: World, sd: Side)
    requires Base(w) && Waiting(ViewOf(w, sd.account), sd)
    ensures SideReady(w, sd)
    ensures sd.session != LEFT ==>
              && ViewOf(w, sd.account).live == Some(w.players[sd.session])
              && w.players[sd.session].flight.bundleNo == 0
    ensures sd.session == LEFT ==> sd.account !in w.owner && ViewOf(w, sd.account).rec == Some(w.leave[sd.account])
  {
    hide Gather, ReadChar;
    if sd.session == LEFT && sd.account in w.owner { OwnerLives(w, sd.account); }
  }

  lemma HeadIs(w: World, sd: Side, mate: Account)
    requires Base(w) && Waiting(ViewOf(w, sd.account), sd) && SideReady(w, sd)
    ensures IsHead(ViewOf(w, sd.account), sd.account, sd, mate, NextNo(w.leaveSeq), HeadOf(w, sd, mate))
  {
    hide Gather, ReadChar, ViewOf;
    ReadySide(w, sd);
    TopView(w, sd.account);
  }

  lemma LiveNumber(table: ItemTable, v: View, a: Account)
    requires ViewOk(table, v, a)
    ensures v.live.Some? ==> v.live.value.flight.nextNo != 0 && v.live.value.account == a
  {
    hide HistoryOk, QueueOk, Agree;
  }

  /** Both sides of a link that is not in flight can supply their heads: the asserts of SendPair hold and its
      "side missing" branch is dead. */
  lemma SidesReady(w: World, i: nat)
    requires Inv(w) && i < |w.pairs| && !w.pairs[i].inFlight
    ensures TwoSided(w.pairs[i])
    ensures var l := w.pairs[i];
            && l.sides[0].account != l.sides[1].account
            && Waiting(ViewOf(w, l.sides[0].account), l.sides[0]) && Waiting(ViewOf(w, l.sides[1].account), l.sides[1])
            && SideReady(w, l.sides[0]) && SideReady(w, l.sides[1])
  {
    hide ViewOk, LinkOk, QueuesOk, Flying, TradesOk, ViewOf, Paired, LinksOk, ViewsOk, Has, Waiting, Base;
    TheLink(w, i);
    var l := w.pairs[i];
    var a, b := l.sides[0].account, l.sides[1].account;
    LinkSidesDiffer(w.jobs, l, ViewOf(w, a), ViewOf(w, b));
    LinkedSide(w.jobs, l, ViewOf(w, a), ViewOf(w, b));
    TheView(w, a);
    TheView(w, b);
    SideWaits(w.table, ViewOf(w, a), a, l, 0);
    SideWaits(w.table, ViewOf(w, b), b, l, 1);
    ReadySide(w, l.sides[0]);
    ReadySide(w, l.sides[1]);
  }

  lemma SecondReady(w: World, i: nat)
    requires Inv(w) && i < |w.pairs| && !w.pairs[i].inFlight && TwoSided(w.pairs[i])
             && SideReady(w, w.pairs[i].sides[0])
    ensures SideReady(Flown(w, w.pairs[i].sides[0]), w.pairs[i].sides[1])
    ensures SideReady(Dropped(w, w.pairs[i].sides[0]), w.pairs[i].sides[1])
  {
    hide Inv, Waiting, Flown, Dropped, ViewOf;
    SidesReady(w, i);
    FlownSame(w, w.pairs[i].sides[0]);
    DroppedSame(w, w.pairs[i].sides[0]);
  }

  lemma SendPairKeeps(w: World, i: nat)
    requires Inv(w) && i < |w.pairs| && !w.pairs[i].inFlight
    ensures TwoSided(w.pairs[i]) && Inv(SendPair(w, i))
  {
    hide Inv, Flown, Dropped, HeadOf, PushPair, FlownLink, PairFits, SideReady;
    SidesReady(w, i);
    SecondReady(w, i);
    var l := w.pairs[i];
    var d0, d1 := l.sides[0], l.sides[1];
    var x, y := HeadOf(w, d0, d1.account), HeadOf(Flown(w, d0), d1, d0.account);
    if PairFits(w, x, y) {
      PairSent(w, i, x, y);
    } else {
      PairRefused(w, i);
    }
  }

  lemma PairSent(w: World, i: nat, x: Write, y: Write)
    requires Inv(w) && i < |w.pairs| && !w.pairs[i].inFlight && TwoSided(w.pairs[i])
    requires SideReady(w, w.pairs[i].sides[0]) && SideReady(Flown(w, w.pairs[i].sides[0]), w.pairs[i].sides[1])
    requires x == HeadOf(w, w.pairs[i].sides[0], w.pairs[i].sides[1].account)
    requires y == HeadOf(Flown(w, w.pairs[i].sides[0]), w.pairs[i].sides[1], w.pairs[i].sides[0].account)
    ensures Inv(PushPair(Flown(Flown(w, w.pairs[i].sides[0]), w.pairs[i].sides[1]), x, y).(
                  pairs := w.pairs[i := FlownLink(w.pairs[i], x.bundleNo, y.bundleNo)]))
  {
    hide ViewOk, LinkOk, QueuesOk, Flying, TradesOk, ViewOf, Paired, LinksOk, ViewsOk, Has, Waiting, Base, IsHead,
         Flown, HeadOf, FlownView, PushPair, SideReady, FlownLink;
    var l := w.pairs[i];
    var d0, d1 := l.sides[0], l.sides[1];
    var a, b := d0.account, d1.account;
    var w1 := Flown(w, d0);
    var w2 := Flown(w1, d1);
    var w3 := PushPair(w2, x, y);
    var m := FlownLink(l, x.bundleNo, y.bundleNo);
    var v := w3.(pairs := w.pairs[i := m]);
    SidesReady(w, i);
    TheLink(w, i);
    TheView(w, a);
    TheView(w, b);
    FirstFlies(w, d0, x, b);
    assert ViewOf(w1, b) == ViewOf(w, b);
    FlownSame(w, d0);
    FirstFlies(w1, d1, y, a);
    FlownSame(w1, d1);
    PairJob(w2, x, y, d0, d1);
    PushPairFrame(w2, x, y);
    PushPairViews(w2, x, y);
    PushedPair(w2, x, y);
    PairsFrame(w3, w.pairs[i := m]);
    assert ViewOf(v, a) == FlownView(ViewOf(w, a), d0, x);
    assert ViewOf(v, b) == FlownView(ViewOf(w, b), d1, y);
    LinkFlies(w.jobs, v.jobs, l, ViewOf(w, a), ViewOf(w, b), x, y);
    FlownTrade(l, x.bundleNo, y.bundleNo);
    TradesSame(w, v, i, m);
    OneLink(w, v, i, m);
  }

  /** One side's head queued, seen from the state and from its view. */
  lemma FirstFlies(w: World, sd: Side, x: Write, mate: Account)
    requires Frame(w) && Waiting(ViewOf(w, sd.account), sd) && SideReady(w, sd) && x == HeadOf(w, sd, mate)
    requires ViewOk(w.table, ViewOf(w, sd.account), sd.account)
    ensures Frame(Flown(w, sd))
    ensures FlownView(ViewOf(w, sd.account), sd, x)
            == ViewOf(Flown(w, sd), sd.account).(ws := ViewOf(Flown(w, sd), sd.account).ws + [x])
    ensures forall c :: c != sd.account ==> ViewOf(Flown(w, sd), c) == ViewOf(w, c)
    ensures ViewOk(w.table, FlownView(ViewOf(w, sd.account), sd, x), sd.account)
    ensures x.account == sd.account && x.bundleNo != 0 && x.mate == Some(mate) && x.session == sd.session
    ensures x.at == |ViewOf(w, sd.account).hist| - 1
    ensures sd.session != LEFT ==> sd.session in w.players && w.players[sd.session].account == sd.account
  {
    hide ViewOk, ViewOf, Waiting, Base, IsHead, Flown, HeadOf, FlownView, QueuesOk, Flying;
    ReadySide(w, sd);
    HeadIs(w, sd, mate);
    LiveNumber(w.table, ViewOf(w, sd.account), sd.account);
    SideFlies(w.table, ViewOf(w, sd.account), sd.account, sd, mate, NextNo(w.leaveSeq), x);
    FlownFrame(w, sd, x, mate);
  }

  lemma KeepsAccount(p: Player, n: nat)
    ensures Committed(Prepared(p), n).account == p.account
    ensures Aborted(Prepared(p)).account == p.account
  {
  }

  lemma FlownSame(w: World, sd: Side)
    requires SideReady(w, sd)
    ensures Flown(w, sd).table == w.table && Flown(w, sd).trades == w.trades && Flown(w, sd).jobs == w.jobs
    ensures Flown(w, sd).pairs == w.pairs && Flown(w, sd).dbAt == w.dbAt
    ensures Flown(w, sd).players.Keys == w.players.Keys
    ensures forall s :: s in w.players ==> Flown(w, sd).players[s].account == w.players[s].account
    ensures Flown(w, sd).leave.Keys == w.leave.Keys
    ensures forall a :: a in w.leave ==> Flown(w, sd).leave[a].paired == w.leave[a].paired
  {
    hide Prepared, Committed;
    if sd.session != LEFT {
      KeepsAccount(w.players[sd.session], w.players[sd.session].flight.nextNo);
    }
  }

  lemma DroppedSame(w: World, sd: Side)
    requires SideReady(w, sd)
    ensures Dropped(w, sd).table == w.table && Dropped(w, sd).trades == w.trades && Dropped(w, sd).jobs == w.jobs
    ensures Dropped(w, sd).pairs == w.pairs && Dropped(w, sd).dbAt == w.dbAt
    ensures Dropped(w, sd).players.Keys == w.players.Keys
    ensures forall s :: s in w.players ==> Dropped(w, sd).players[s].account == w.players[s].account
    ensures Dropped(w, sd).leave.Keys == w.leave.Keys
    ensures forall a :: a in w.leave ==> Dropped(w, sd).leave[a].paired == w.leave[a].paired
  {
    hide Prepared, Aborted;
    if sd.session != LEFT {
      KeepsAccount(w.players[sd.session], 0);
    }
  }

  lemma PushedPair(w: World, x: Write, y: Write)
    ensures PushPair(w, x, y).table == w.table && PushPair(w, x, y).trades == w.trades
            && PushPair(w, x, y).jobs == w.jobs + [Pair(x, y)]
    ensures PushPair(w, x, y).pairs == w.pairs && PushPair(w, x, y).dbAt == w.dbAt
  {
  }

  lemma PairJob(w: World, x: Write, y: Write, d0: Side, d1: Side)
    requires Frame(w) && d0.account != d1.account
    requires x.account == d0.account && x.session == d0.session && x.mate == Some(d1.account)
    requires y.account == d1.account && y.session == d1.session && y.mate == Some(d0.account)
    requires d0.session != LEFT ==> d0.session in w.players && w.players[d0.session].account == d0.account
    requires d1.session != LEFT ==> d1.session in w.players && w.players[d1.session].account == d1.account
    ensures JobOk(w, Pair(x, y))
  {
  }

  lemma FlownTrade(l: PairLink, n0: nat, n1: nat)
    requires TwoSided(l)
    ensures TwoSided(FlownLink(l, n0, n1))
    ensures FlownLink(l, n0, n1).sides[0].account == l.sides[0].account
    ensures FlownLink(l, n0, n1).sides[1].account == l.sides[1].account
    ensures forall t :: IsTrade(l, t) ==> IsTrade(FlownLink(l, n0, n1), t)
  {
  }

  lemma PairRefused(w: World, i: nat)
    requires Inv(w) && i < |w.pairs| && !w.pairs[i].inFlight && TwoSided(w.pairs[i])
    requires SideReady(w, w.pairs[i].sides[0]) && SideReady(Dropped(w, w.pairs[i].sides[0]), w.pairs[i].sides[1])
    ensures Inv(Dropped(Dropped(w, w.pairs[i].sides[0]), w.pairs[i].sides[1]).(
                  pairs := w.pairs[i := w.pairs[i].(inFlight := false)]))
  {
    hide ViewOk, LinkOk, QueuesOk, Flying, TradesOk, ViewOf, Paired, LinksOk, ViewsOk, Has, Waiting, Base, Dropped,
      DroppedView, SideReady;
    var l := w.pairs[i];
    var d0, d1 := l.sides[0], l.sides[1];
    var a, b := d0.account, d1.account;
    var w1 := Dropped(w, d0);
    var w2 := Dropped(w1, d1);
    var m := l.(inFlight := false);
    var v := w2.(pairs := w.pairs[i := m]);
    SidesReady(w, i);
    TheLink(w, i);
    TheView(w, a);
    TheView(w, b);
    OneDrops(w, d0);
    assert ViewOf(w1, b) == ViewOf(w, b);
    DroppedSame(w, d0);
    DroppedSame(w1, d1);
    OneDrops(w1, d1);
    PairsFrame(w2, w.pairs[i := m]);
    LinkDrops(w.jobs, l, ViewOf(w, a), ViewOf(w, b), ViewOf(v, a), ViewOf(v, b));
    TradesSame(w, v, i, m);
    OneLink(w, v, i, m);
  }

  lemma OneDrops(w: World, sd: Side)
    requires Frame(w) && Waiting(ViewOf(w, sd.account), sd) && SideReady(w, sd)
    requires ViewOk(w.table, ViewOf(w, sd.account), sd.account)
    ensures Frame(Dropped(w, sd))
    ensures forall c :: c != sd.account ==> ViewOf(Dropped(w, sd), c) == ViewOf(w, c)
    ensures ViewOk(w.table, ViewOf(Dropped(w, sd), sd.account), sd.account)
    ensures SameOnLink(ViewOf(w, sd.account), ViewOf(Dropped(w, sd), sd.account))
  {
    hide ViewOk, ViewOf, Waiting, Base, Dropped, DroppedView, QueuesOk, Flying;
    ReadySide(w, sd);
    SideDrops(w.table, ViewOf(w, sd.account), sd.account, sd, NextNo(w.leaveSeq));
    DroppedFrame(w, sd);
  }
}
