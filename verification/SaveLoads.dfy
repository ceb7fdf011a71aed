/** Loads: when the row a load read is still the account's present row. Steps that store nothing are seen by loads
    only through the numbers of writes issued and executed. */
module SaveLoads {
  import opened Items
  import opened Seqs
  import opened SaveTypes
  import opened SaveSteps
  import opened SaveInvariant
  import opened SaveKeeps
  import opened SaveReplies
  import opened SaveWorker
  import opened SaveArrivals

  /** From `w` to `v` nothing is stored or read; at most writes are queued and histories grow. */
  ghost predicate Still(w: World, v: World) {
    && v.table == w.table && v.db == w.db && v.loads == w.loads
    && Grown(w, v)
    && w.trades <= v.trades
    && (forall a :: HistOf(w, a) <= HistOf(v, a) && DbAt(w, a) <= DbAt(v, a))
  }

  ghost predicate Grown(w: World, v: World) {
    && w.jobs <= v.jobs
    && (forall k :: |w.jobs| <= k < |v.jobs| ==> !v.jobs[k].Load?)
    && (forall a :: Executed(v, a) == Executed(w, a) && Issued(v, a) >= Issued(w, a))
  }

  lemma StillTrans(w: World, u: World, v: World)
    requires Still(w, u) && Still(u, v)
    ensures Still(w, v)
  {
    hide Executed, HistOf, Issued;
    assert Grown(w, v) by { GrownTrans(w, u, v); }
    hide Grown;
    forall a ensures HistOf(w, a) <= HistOf(v, a) {
      PrefixTrans(HistOf(w, a), HistOf(u, a), HistOf(v, a));
    }
  }

  lemma PrefixTrans<T>(x: seq<T>, y: seq<T>, z: seq<T>)
    requires x <= y && y <= z
    ensures x <= z
  {
  }

  lemma GrownTrans(w: World, u: World, v: World)
    requires Grown(w, u) && Grown(u, v)
    ensures Grown(w, v)
  {
    hide Executed, HistOf, Issued;
    forall k | |w.jobs| <= k < |v.jobs| ensures !v.jobs[k].Load? {
      if k < |u.jobs| { assert v.jobs[k] == u.jobs[k]; }
    }
  }

  /** Everything a load could notice is unchanged. */
  lemma SameIsStill(w: World, v: World)
    requires v.table == w.table && v.db == w.db && v.dbAt == w.dbAt && v.loads == w.loads && v.jobs == w.jobs
    requires v.issued == w.issued && v.hist == w.hist && v.trades == w.trades
    ensures Still(w, v)
  {
  }

  lemma PushSaveStill(w: World, x: Write)
    ensures Still(w, PushSave(w, x))
    ensures PushSave(w, x).table == w.table && PushSave(w, x).pairs == w.pairs
  {
    hide Gather;
    forall b ensures WritesFor(w.jobs + [Save(x)], b) == WritesFor(w.jobs, b) + WritesIn(Save(x), b) {
      GatherSnoc(WriterOf(b), w.jobs, Save(x));
    }
  }

  lemma PushPairStill(w: World, x: Write, y: Write)
    ensures Still(w, PushPair(w, x, y))
  {
    hide Gather;
    forall b ensures WritesFor(w.jobs + [Pair(x, y)], b) == WritesFor(w.jobs, b) + WritesIn(Pair(x, y), b) {
      GatherSnoc(WriterOf(b), w.jobs, Pair(x, y));
    }
  }

  lemma PlayedStill(w: World, s: Session, p: Player)
    requires s in w.players
    ensures Still(w, Played(w, s, p))
  {
    hide Gather;
  }

  lemma SendBundleStill(w: World, s: Session)
    requires s in w.players
    ensures Still(w, SendBundle(w, s))
  {
    hide PushSave, Still, SaveFits, BundleOf, Prepared, Committed, Aborted;
    var p := w.players[s];
    var x := BundleOf(p, s, None, Top(w, p.account));
    PushSaveStill(w, x);
    var u := PushSave(w, x);
    SameIsStill(u, u.(players := w.players[s := Committed(Prepared(p), x.bundleNo)], inflight := w.inflight + 1));
    StillTrans(w, u, u.(players := w.players[s := Committed(Prepared(p), x.bundleNo)], inflight := w.inflight + 1));
    SameIsStill(w, w.(players := w.players[s := p.(flight := p.flight.(again := true))]));
    SameIsStill(w, w.(players := w.players[s := Aborted(Prepared(p))]));
    SameIsStill(w, w);
  }

  lemma RequestSaveStill(w: World, s: Session)
    requires s in w.players
    ensures Still(w, RequestSave(w, s))
  {
    hide Still, RequestSave, ListedIn, TickEndOf;
    RequestIs(w, s);
    SameIsStill(w, RequestSave(w, s));
  }

  lemma SendLeaveRecordStill(w: World, a: Account)
    requires a in w.leave
    ensures Still(w, SendLeaveRecord(w, a))
  {
    hide PushSave, Still, SaveFits, LeaveWrite, NextNo;
    var n := NextNo(w.leaveSeq);
    var r := w.leave[a].(bundleNo := n);
    var x := LeaveWrite(a, r, None);
    var u := w.(leaveSeq := n, leave := w.leave[a := r.(inFlight := true)]);
    SameIsStill(w, u);
    PushSaveStill(u, x);
    StillTrans(w, u, PushSave(u, x));
    SameIsStill(w, w.(leaveSeq := n, leave := w.leave[a := r.(inFlight := false)]));
  }

  lemma FlownStill(w: World, sd: Side)
    requires SideReady(w, sd)
    ensures Still(w, Flown(w, sd)) && Still(w, Dropped(w, sd))
  {
    hide Still, SideReady, Flown, Dropped;
    if sd.session != LEFT { LiveFlownStill(w, sd); } else { RecordFlownStill(w, sd); }
  }

  lemma LiveFlownStill(w: World, sd: Side)
    requires SideReady(w, sd) && sd.session != LEFT
    ensures Still(w, Flown(w, sd)) && Still(w, Dropped(w, sd))
  {
    hide Still, Prepared, Committed, Aborted;
    var p := w.players[sd.session];
    SameIsStill(w, w.(players := w.players[sd.session := Committed(Prepared(p), p.flight.nextNo)],
                      inflight := w.inflight + 1));
    SameIsStill(w, w.(players := w.players[sd.session := Aborted(Prepared(p))]));
  }

  lemma RecordFlownStill(w: World, sd: Side)
    requires SideReady(w, sd) && sd.session == LEFT
    ensures Still(w, Flown(w, sd)) && Still(w, Dropped(w, sd))
  {
    hide Still, NextNo;
    var n := NextNo(w.leaveSeq);
    SameIsStill(w, w.(leaveSeq := n, leave :=
                      w.leave[sd.account := w.leave[sd.account].(bundleNo := n, inFlight := true)]));
    SameIsStill(w, w.(leaveSeq := n, leave := w.leave[sd.account := w.leave[sd.account].(bundleNo := n)]));
  }

  lemma SendPairStill(w: World, i: nat)
    requires i < |w.pairs| && TwoSided(w.pairs[i])
    ensures Still(w, SendPair(w, i))
  {
    hide Still, PushPair, PairFits, HeadOf, Flown, Dropped, FlownLink, SideReady;
    var l := w.pairs[i];
    var d0, d1 := l.sides[0], l.sides[1];
    SameIsStill(w, w);
    if SideReady(w, d0) {
      FlownStill(w, d0);
      var u := Flown(w, d0);
      if SideReady(u, d1) {
        FlownStill(u, d1);
        var x, y := HeadOf(w, d0, d1.account), HeadOf(u, d1, d0.account);
        var z := Flown(u, d1);
        PairSentStill(w, u, z, x, y, w.pairs[i := FlownLink(l, x.bundleNo, y.bundleNo)]);
        if SideReady(Dropped(w, d0), d1) {
          FlownStill(Dropped(w, d0), d1);
          StillTrans(w, Dropped(w, d0), Dropped(Dropped(w, d0), d1));
          var v := Dropped(Dropped(w, d0), d1);
          PairsStill(w, v, w.pairs[i := l.(inFlight := false)]);
        }
      }
    }
  }

  lemma PairsStill(w: World, v: World, ps: seq<PairLink>)
    requires Still(w, v)
    ensures Still(w, v.(pairs := ps))
  {
    hide Still;
    SameIsStill(v, v.(pairs := ps));
    StillTrans(w, v, v.(pairs := ps));
  }

  lemma PairSentStill(w: World, u: World, z: World, x: Write, y: Write, ps: seq<PairLink>)
    requires Still(w, u) && Still(u, z)
    ensures Still(w, PushPair(z, x, y).(pairs := ps))
  {
    hide Still, PushPair;
    StillTrans(w, u, z);
    PushPairStill(z, x, y);
    StillTrans(w, z, PushPair(z, x, y));
    PairsStill(w, PushPair(z, x, y), ps);
  }

  lemma LeaveStill(w: World, s: Session)
    requires s in w.players
    ensures Still(w, LeaveFinal(w, s))
    ensures Still(w, Leave(w, s))
  {
    hide Still, SendLeaveRecord, Detach, LastRecord, Emptied;
    var p, v := w.players[s], Departed(w, s);
    SameIsStill(w, v);
    if !p.flight.paired {
      SendLeaveRecordStill(v, p.account);
      StillTrans(w, v, SendLeaveRecord(v, p.account));
    }
    var u := LeaveFinal(w, s);
    SameIsStill(u, u.(players := u.players - {s}));
    StillTrans(w, u, u.(players := u.players - {s}));
  }

  lemma OnSaveReplyStill(w: World, r: Reply)
    ensures Still(w, OnSaveReply(w, r))
  {
    hide Still, LandedOk, LandedFailed, ForLive, ForRecord;
    if r.session == LEFT { SameIsStill(w, OnSaveReply(w, r)); } else { LiveReplyStill(w, r); }
  }

  lemma LiveReplyStill(w: World, r: Reply)
    requires r.session != LEFT
    ensures Still(w, OnSaveReply(w, r))
  {
    hide Still, LandedOk, LandedFailed;
    SameIsStill(w, OnSaveReply(w, r));
  }

  lemma ReleasePairSideStill(w: World, sd: Side)
    ensures Still(w, ReleasePairSide(w, sd))
  {
    hide Still, RequestSave, SendLeaveRecord;
    SameIsStill(w, w);
    if sd.session != LEFT {
      if sd.session in w.players && w.players[sd.session].account == sd.account { ReleaseLiveStill(w, sd); }
    } else if sd.account in w.leave && w.leave[sd.account].paired {
      ReleaseLeftStill(w, sd.account);
    }
  }

  lemma ReleaseLiveStill(w: World, sd: Side)
    requires sd.session in w.players
    ensures var p := w.players[sd.session];
            Still(w, RequestSave(w.(players := w.players[sd.session := p.(flight := p.flight.(paired := false))]),
                                 sd.session))
  {
    hide Still, RequestSave;
    var p := w.players[sd.session];
    var u := w.(players := w.players[sd.session := p.(flight := p.flight.(paired := false))]);
    SameIsStill(w, u);
    RequestSaveStill(u, sd.session);
    StillTrans(w, u, RequestSave(u, sd.session));
  }

  lemma ReleaseLeftStill(w: World, a: Account)
    requires a in w.leave
    ensures var u := w.(leave := w.leave[a := w.leave[a].(paired := false)]);
            Still(w, u) && Still(w, SendLeaveRecord(u, a))
  {
    hide Still, SendLeaveRecord;
    var u := w.(leave := w.leave[a := w.leave[a].(paired := false)]);
    SameIsStill(w, u);
    SendLeaveRecordStill(u, a);
    StillTrans(w, u, SendLeaveRecord(u, a));
  }

  lemma OnPairReplyStill(w: World, r: Reply)
    ensures Still(w, OnPairReply(w, r))
  {
    hide Still, ReleasePairSide, FindPair, Without;
    SameIsStill(w, w);
    var i := FindPair(w.pairs, r.account);
    if i < |w.pairs| && TwoSided(w.pairs[i]) {
      var l := w.pairs[i];
      var k := SideOf(l, r.account);
      var m := l.(sides := l.sides[k := l.sides[k].(replied := true)], ok := l.ok && r.ok);
      PairsStill(w, w, w.pairs[i := m]);
      PairsStill(w, w, w.pairs[i := m.(inFlight := false)]);
      PairsStill(w, w, Without(w.pairs, i));
      var v := w.(pairs := Without(w.pairs, i));
      ReleasePairSideStill(v, m.sides[0]);
      ReleasePairSideStill(ReleasePairSide(v, m.sides[0]), m.sides[1]);
      StillTrans(w, v, ReleasePairSide(v, m.sides[0]));
      StillTrans(w, ReleasePairSide(v, m.sides[0]), ReleasePairSide(ReleasePairSide(v, m.sides[0]), m.sides[1]));
    }
  }

  lemma HandleReplyStill(w: World)
    requires w.replies != []
    ensures Still(w, HandleReply(w))
  {
    hide Still, OnSaveReply, OnPairReply;
    var r, u := w.replies[0], w.(replies := w.replies[1..]);
    SameIsStill(w, u);
    OnSaveReplyStill(u, r);
    OnPairReplyStill(OnSaveReply(u, r), r);
    StillTrans(w, u, OnSaveReply(u, r));
    StillTrans(w, OnSaveReply(u, r), OnPairReply(OnSaveReply(u, r), r));
  }

  lemma SaveTradeStill(w: World, s: Session, t: Session)
    requires s in w.players && t in w.players
    ensures Still(w, SaveTrade(w, s, t))
  {
    hide Still, SaveTrade, SendPair, Tied;
    TradeIs(w, s, t);
    TiedStill(w, s, t);
    SendPairStill(Tied(w, s, t), |w.pairs|);
    StillTrans(w, Tied(w, s, t), SendPair(Tied(w, s, t), |w.pairs|));
  }

  lemma TiedStill(w: World, s: Session, t: Session)
    requires s in w.players && t in w.players
    ensures Still(w, Tied(w, s, t))
  {
    hide Gather, TradeLink, Hold, Top;
  }

  // ----- what is known of loads

  ghost predicate NoMates(ws: seq<Write>) { forall i :: 0 <= i < |ws| ==> ws[i].mate == None }

  /** A queued load that was asked for alone: every write issued before it has been executed or is ahead of it in its
      account's own queue. */
  ghost predicate LoadJobOk(w: World, k: nat)
    requires k < |w.jobs| && w.jobs[k].Load?
  {
    var j := w.jobs[k];
    var ahead := WritesFor(w.jobs[..k], j.account);
    && j.after <= Issued(w, j.account)
    && (j.alone ==> j.after <= Executed(w, j.account) + |ahead| && NoMates(ahead))
    && (j.read.Some? ==> ReadOk(w, j.account, j.read.value) && (j.alone ==> j.after <= j.read.value.seen))
  }

  ghost predicate LoadOk(w: World, r: LoadResult) {
    && r.after <= Issued(w, r.account)
    && ReadOk(w, r.account, ReadBy(r))
    && (r.alone ==> r.after <= r.seen)
    && (r.seen == Executed(w, r.account) ==> r.data == DbOf(w, r.account))
    && r.rowAt <= r.bagAt <= DbAt(w, r.account)
    && BagIs(w, r.account, ReadBag(w.table, r.data.bag), r.bagAt, r.whole)
  }

  function ReadBy(r: LoadResult): RowRead { RowRead(r.data.row, r.seen, r.rowAt) }

  /** The row is that of the state that was stored when it was read, and of the one stored now if no write of the
      account has been executed since. */
  ghost predicate ReadOk(w: World, a: Account, x: RowRead) {
    && x.seen <= Executed(w, a)
    && x.at <= DbAt(w, a) && x.at < |HistOf(w, a)|
    && ReadRow(x.row) == HistOf(w, a)[x.at].row
    && (x.seen == Executed(w, a) ==> x.row == DbOf(w, a).row)
  }

  /** `bag` is that of the `at`th state account `a` has been in, if the account was stored whole. */
  ghost predicate BagIs(w: World, a: Account, bag: seq<Item>, at: nat, whole: bool) {
    at < |HistOf(w, a)| && (whole ==> bag == HistOf(w, a)[at].bag)
  }

  /** `s` is the `at`th state account `a` has been in; of a stale account, that state's row. */
  ghost predicate Depicts(w: World, a: Account, s: Snap, at: nat) {
    at < |HistOf(w, a)| && s.row == HistOf(w, a)[at].row && (a !in w.stale ==> s == HistOf(w, a)[at])
  }

  /** What is stored for an account afterwards does not change what was read. */
  lemma StillRead(w: World, v: World, a: Account, x: RowRead)
    requires ReadOk(w, a, x) && HistOf(w, a) <= HistOf(v, a) && DbAt(w, a) <= DbAt(v, a)
    requires Executed(v, a) > Executed(w, a) || (Executed(v, a) == Executed(w, a) && DbOf(v, a) == DbOf(w, a))
    ensures ReadOk(v, a, x)
  {
    hide Executed, DbAt, ReadRow;
  }

  ghost predicate LoadsOk(w: World) {
    && (forall k :: 0 <= k < |w.jobs| && w.jobs[k].Load? ==> LoadJobOk(w, k))
    && (forall i :: 0 <= i < |w.loads| ==> LoadOk(w, w.loads[i]))
  }

  lemma StillLoads(w: World, v: World)
    requires LoadsOk(w) && Still(w, v)
    ensures LoadsOk(v)
  {
    hide Executed, Issued, NoMates, WritesFor, ReadOk, BagIs, DbAt, HistOf;
    forall k | 0 <= k < |v.jobs| && v.jobs[k].Load? ensures LoadJobOk(v, k) {
      assert k < |w.jobs|;
      assert LoadJobOk(w, k);
      assert v.jobs[..k] == w.jobs[..k];
      var j := w.jobs[k];
      if j.read.Some? { StillRead(w, v, j.account, j.read.value) by { SameRows(w, v, j.account); } }
    }
    forall i | 0 <= i < |v.loads| ensures LoadOk(v, v.loads[i]) {
      var r := w.loads[i];
      assert LoadOk(w, r);
      SameRows(w, v, r.account);
      StillRead(w, v, r.account, ReadBy(r));
      StillBag(w, v, r.account, ReadBag(w.table, r.data.bag), r.bagAt, r.whole);
    }
  }

  lemma SameRows(w: World, v: World, a: Account)
    requires v.db == w.db
    ensures DbOf(v, a) == DbOf(w, a)
  {
  }

  lemma StillBag(w: World, v: World, a: Account, bag: seq<Item>, at: nat, whole: bool)
    requires BagIs(w, a, bag, at, whole) && HistOf(w, a) <= HistOf(v, a)
    ensures BagIs(v, a, bag, at, whole)
  {
    hide HistOf;
  }

  // ----- executing a job

  lemma ExecutedMore(w: World, k: nat, commit: bool, ok: bool, a: Account)
    requires k < |w.jobs|
    ensures var v := Execute(w, k, commit, ok);
            && Issued(v, a) == Issued(w, a) && v.jobs == Without(w.jobs, k)
            && Executed(v, a) == Executed(w, a) + |WritesIn(w.jobs[k], a)|
            && v.loads == w.loads + Reads(w, w.jobs[k], ok)
  {
    hide Gather, Execute, WritesIn, Without, Reads;
    ExecuteSame(w, k, commit, ok);
    ExecuteRest(w, k, commit, ok);
    GatherWithout(WriterOf(a), w.jobs, k);
  }

  lemma ExecuteRest(w: World, k: nat, commit: bool, ok: bool)
    requires k < |w.jobs|
    ensures Execute(w, k, commit, ok).issued == w.issued
    ensures Execute(w, k, commit, ok).loads == w.loads + Reads(w, w.jobs[k], ok)
  {
    hide Without, Answers, Reads, StoreJob;
    StoreSame(w, w.jobs[k]);
  }

  /** Writes ahead of position `n` of the queue once the job at `k` has left it. */
  lemma AheadAfter(w: World, k: nat, n: nat, a: Account)
    requires k < |w.jobs| && n < |w.jobs| && n != k
    ensures var m := if n < k then n else n - 1;
            var u := Without(w.jobs, k);
            && m < |u| && u[m] == w.jobs[n]
            && |WritesFor(u[..m], a)| + |WritesIn(w.jobs[k], a)| >= |WritesFor(w.jobs[..n], a)|
            && (NoMates(WritesFor(w.jobs[..n], a)) ==> NoMates(WritesFor(u[..m], a)))
  {
    hide Gather, WritesIn, NoMates;
    var u := Without(w.jobs, k);
    if n < k {
      assert u[..n] == w.jobs[..n];
    } else {
      assert u[..n - 1] == Without(w.jobs[..n], k);
      GatherWithout(WriterOf(a), w.jobs[..n], k);
      assert w.jobs[..n][k] == w.jobs[k];
      NoMatesParts(WritesFor(w.jobs[..n][..k], a), WritesIn(w.jobs[k], a), WritesFor(w.jobs[..n][k + 1..], a));
    }
  }

  lemma NoMatesParts(x: seq<Write>, y: seq<Write>, z: seq<Write>)
    ensures NoMates(x + y + z) ==> NoMates(x + z)
  {
    if NoMates(x + y + z) {
      forall i | 0 <= i < |x + z| ensures (x + z)[i].mate == None {
        assert (x + z)[i] == (x + y + z)[if i < |x| then i else i + |y|];
      }
    }
  }

  /** A load that is next in its queue has no write of its account ahead of it, unless one is part of a pair. */
  lemma NextLoadAhead(w: World, k: nat)
    requires QueuesOk(w) && IsNext(w, k) && w.jobs[k].Load? && NoMates(WritesFor(w.jobs[..k], w.jobs[k].account))
    ensures WritesFor(w.jobs[..k], w.jobs[k].account) == []
  {
    hide Gather, WritesIn, Route;
    var a := w.jobs[k].account;
    assert RouteOf(w, w.jobs[k]) == Route(w, a);
    forall i | 0 <= i < k ensures WritesIn(w.jobs[i], a) == [] {
      assert JobOk(w, w.jobs[i]);
      if WritesIn(w.jobs[i], a) != [] {
        var x := WritesIn(w.jobs[i], a)[0];
        AheadOf(w.jobs[..k], i, a, x);
        SoloRoute(w, w.jobs[i], a, x);
        assert false;
      }
    }
    GatherNothing(WriterOf(a), w.jobs[..k]);
  }

  lemma AheadOf(jobs: seq<Job>, i: nat, a: Account, x: Write)
    requires i < |jobs| && x in WritesIn(jobs[i], a)
    ensures x in WritesFor(jobs, a)
  {
    hide Gather, WritesIn;
    GatherHas(WriterOf(a), jobs, i, x);
  }

  lemma SoloRoute(w: World, j: Job, a: Account, x: Write)
    requires JobOk(w, j) && x in WritesIn(j, a) && x.mate == None
    ensures RouteOf(w, j) == Route(w, a)
  {
    hide Route, SessionOk;
  }

  /** What is stored is what it is counted as, and executing job `k` does not take it back. */
  ghost predicate CountedOk(w: World, k: nat, commit: bool, ok: bool)
    requires k < |w.jobs|
  {
    && (forall a :: Depicts(w, a, Stored(w, a), DbAt(w, a)))
    && (forall a :: DbAt(w, a) <= DbAt(Execute(w, k, commit, ok), a))
  }

  lemma ExecuteLoads(w: World, k: nat, commit: bool, ok: bool)
    requires QueuesOk(w) && LoadsOk(w) && IsNext(w, k) && CountedOk(w, k, commit, ok)
    ensures LoadsOk(Execute(w, k, commit, ok))
  {
    hide Execute, IsNext, Executed, Issued, WritesFor, WritesIn, Without, NoMates, QueuesOk, Reads, ReadOk, BagIs, DbAt,
         HistOf, CountedOk;
    NextInRange(w, k);
    var v := Execute(w, k, commit, ok);
    ExecuteRest(w, k, commit, ok);
    forall m | 0 <= m < |v.jobs| && v.jobs[m].Load? ensures LoadJobOk(v, m) { ExecuteLoadJob(w, k, commit, ok, m); }
    forall i | 0 <= i < |v.loads| ensures LoadOk(v, v.loads[i]) {
      if i < |w.loads| { ExecuteOldLoad(w, k, commit, ok, w.loads[i]); }
      else { ExecuteNewLoad(w, k, commit, ok, v.loads[i]); }
    }
  }

  lemma ExecuteRead(w: World, k: nat, commit: bool, ok: bool, a: Account, x: RowRead)
    requires QueuesOk(w) && k < |w.jobs| && ReadOk(w, a, x) && CountedOk(w, k, commit, ok)
    ensures ReadOk(Execute(w, k, commit, ok), a, x)
  {
    hide Execute, Executed, Issued, Without, Reads, ReadOk, WritesIn, Depicts, Stored, DbAt;
    var v := Execute(w, k, commit, ok);
    ExecutedMore(w, k, commit, ok, a);
    assert JobOk(w, w.jobs[k]);
    ExecuteStores(w, k, commit, ok, a);
    ExecuteSame(w, k, commit, ok);
    assert HistOf(v, a) == HistOf(w, a);
    StillRead(w, v, a, x);
  }

  lemma ExecuteLoadJob(w: World, k: nat, commit: bool, ok: bool, m: nat)
    requires QueuesOk(w) && LoadsOk(w) && k < |w.jobs| && CountedOk(w, k, commit, ok)
    requires m < |Execute(w, k, commit, ok).jobs| && Execute(w, k, commit, ok).jobs[m].Load?
    ensures LoadJobOk(Execute(w, k, commit, ok), m)
  {
    hide Execute, Executed, Issued, WritesFor, WritesIn, NoMates, Reads, ReadOk, CountedOk, QueuesOk;
    var n := if m < k then m else m + 1;
    var v := Execute(w, k, commit, ok);
    ExecutedMore(w, k, commit, ok, v.jobs[m].account);
    assert LoadJobOk(w, n);
    AheadAfter(w, k, n, w.jobs[n].account);
    if w.jobs[n].read.Some? { ExecuteRead(w, k, commit, ok, w.jobs[n].account, w.jobs[n].read.value); }
  }

  lemma ExecuteOldLoad(w: World, k: nat, commit: bool, ok: bool, r: LoadResult)
    requires QueuesOk(w) && k < |w.jobs| && LoadOk(w, r) && CountedOk(w, k, commit, ok)
    ensures LoadOk(Execute(w, k, commit, ok), r)
  {
    hide Execute, Executed, Issued, WritesIn, Without, Reads, ReadOk, BagIs, Depicts, Stored, DbAt;
    var v := Execute(w, k, commit, ok);
    ExecutedMore(w, k, commit, ok, r.account);
    assert JobOk(w, w.jobs[k]);
    ExecuteStores(w, k, commit, ok, r.account);
    ExecuteSame(w, k, commit, ok);
    ExecuteRead(w, k, commit, ok, r.account, ReadBy(r));
    assert HistOf(v, r.account) == HistOf(w, r.account);
    StillBag(w, v, r.account, ReadBag(w.table, r.data.bag), r.bagAt, r.whole);
    SeenLater(w, r);
  }

  lemma SeenLater(w: World, r: LoadResult)
    requires LoadOk(w, r)
    ensures r.seen <= Executed(w, r.account)
  {
    hide Executed;
  }

  lemma ReadNow(w: World, a: Account)
    requires Depicts(w, a, Stored(w, a), DbAt(w, a))
    ensures ReadOk(w, a, RowNow(w, a))
  {
    hide Executed, DbAt, ReadRow;
  }

  lemma BagNow(w: World, a: Account)
    requires Depicts(w, a, Stored(w, a), DbAt(w, a))
    ensures BagIs(w, a, ReadBag(w.table, DbOf(w, a).bag), DbAt(w, a), a !in w.stale)
  {
    hide ReadBag, DbAt;
  }

  /** A load that is next has seen every write it was asked behind. */
  lemma SeenBefore(w: World, k: nat)
    requires QueuesOk(w) && LoadsOk(w) && IsNext(w, k) && w.jobs[k].Load? && w.jobs[k].alone
    ensures w.jobs[k].after <= Executed(w, w.jobs[k].account)
  {
    hide Executed, IsNext, QueuesOk, NoMates, WritesFor, ReadOk;
    NextInRange(w, k);
    assert LoadJobOk(w, k);
    NextLoadAhead(w, k);
  }

  lemma ExecuteNewLoad(w: World, k: nat, commit: bool, ok: bool, r: LoadResult)
    requires QueuesOk(w) && LoadsOk(w) && IsNext(w, k) && r in Reads(w, w.jobs[k], ok) && CountedOk(w, k, commit, ok)
    ensures LoadOk(Execute(w, k, commit, ok), r)
  {
    hide Execute, Executed, IsNext, QueuesOk, DbAt, ReadOk, BagIs, CountedOk, LoadJobOk;
    NextInRange(w, k);
    assert w.jobs[k].Load?;
    assert LoadJobOk(w, k);
    NewLoadNow(w, k, ok, r) by { hide Execute; CountedNow(w, k, commit, ok); }
    ExecuteOldLoad(w, k, commit, ok, r);
  }

  lemma CountedNow(w: World, k: nat, commit: bool, ok: bool)
    requires k < |w.jobs| && CountedOk(w, k, commit, ok)
    ensures forall a :: Depicts(w, a, Stored(w, a), DbAt(w, a))
  {
  }

  lemma NewLoadNow(w: World, k: nat, ok: bool, r: LoadResult)
    requires QueuesOk(w) && LoadsOk(w) && IsNext(w, k) && r in Reads(w, w.jobs[k], ok)
    requires forall a :: Depicts(w, a, Stored(w, a), DbAt(w, a))
    ensures LoadOk(w, r)
  {
    hide Executed, IsNext, QueuesOk, NoMates, WritesFor, BagIs, Stored, Depicts, HistOf;
    NextInRange(w, k);
    var a := w.jobs[k].account;
    assert LoadJobOk(w, k);
    assert Depicts(w, a, Stored(w, a), DbAt(w, a));
    ReadNow(w, a);
    BagNow(w, a);
    if w.jobs[k].alone { SeenBefore(w, k); }
  }

  // ----- reading the row

  lemma FetchSame(w: World, k: nat)
    requires k < |w.jobs| && w.jobs[k].Load?
    ensures var v := Fetch(w, k);
            && v == w.(jobs := v.jobs) && |v.jobs| == |w.jobs|
            && (forall b :: WritesFor(v.jobs, b) == WritesFor(w.jobs, b))
            && (forall n, b :: 0 <= n <= |w.jobs| ==> WritesFor(v.jobs[..n], b) == WritesFor(w.jobs[..n], b))
  {
    hide Gather, RowNow;
    var v := Fetch(w, k);
    forall n, b | 0 <= n <= |w.jobs| ensures WritesFor(v.jobs[..n], b) == WritesFor(w.jobs[..n], b) {
      SameGather(WriterOf(b), w.jobs[..n], v.jobs[..n]);
    }
    assert v.jobs[..|w.jobs|] == v.jobs && w.jobs[..|w.jobs|] == w.jobs;
  }

  lemma FetchLoads(w: World, k: nat)
    requires QueuesOk(w) && LoadsOk(w) && IsNext(w, k) && w.jobs[k].Load?
    requires forall a :: Depicts(w, a, Stored(w, a), DbAt(w, a))
    ensures LoadsOk(Fetch(w, k)) && OnlyLoads(w, Fetch(w, k))
  {
    hide WritesFor, IsNext, QueuesOk, NoMates, Depicts, Stored, BagIs, RowNow;
    NextInRange(w, k);
    FetchSame(w, k);
    var v := Fetch(w, k);
    var a := w.jobs[k].account;
    assert Depicts(w, a, Stored(w, a), DbAt(w, a));
    ReadNow(w, a);
    if w.jobs[k].alone { SeenBefore(w, k); }
    forall m | 0 <= m < |v.jobs| && v.jobs[m].Load? ensures LoadJobOk(v, m) {
      assert LoadJobOk(w, m);
      FetchedRead(w, v, k, a);
    }
    forall i | 0 <= i < |v.loads| ensures LoadOk(v, v.loads[i]) {
      assert LoadOk(w, w.loads[i]);
      FetchedBag(w, v, w.loads[i]);
    }
  }

  lemma FetchedRead(w: World, v: World, k: nat, a: Account)
    requires k < |w.jobs| && w.jobs[k].Load? && v == Fetch(w, k) && a == w.jobs[k].account
    ensures v.jobs[k].read == Some(RowNow(w, a)) && RowNow(w, a).seen == Executed(w, a)
    ensures forall m :: 0 <= m < |w.jobs| && m != k ==> v.jobs[m] == w.jobs[m]
  {
    hide Executed;
  }

  lemma FetchedBag(w: World, v: World, r: LoadResult)
    requires v == w.(jobs := v.jobs) && BagIs(w, r.account, ReadBag(w.table, r.data.bag), r.bagAt, r.whole)
    ensures BagIs(v, r.account, ReadBag(v.table, r.data.bag), r.bagAt, r.whole)
  {
  }

  lemma FetchKeeps(w: World, k: nat)
    requires Inv(w) && k < |w.jobs| && w.jobs[k].Load?
    ensures Inv(Fetch(w, k))
  {
    hide ViewsOk, LinksOk, TradesOk, Gather, WritesFor, Flying;
    var v := Fetch(w, k);
    FetchSame(w, k);
    FetchFrame(w, k);
    hide Inv, Frame, Fetch;
    FetchViews(w, v);
    QuietKeeps(w, v);
  }

  lemma FetchViews(w: World, v: World)
    requires v == w.(jobs := v.jobs) && forall b :: WritesFor(v.jobs, b) == WritesFor(w.jobs, b)
    ensures forall b :: ViewOf(v, b) == ViewOf(w, b)
  {
    hide Gather, WritesFor, ReadChar;
  }

  lemma FetchFrame(w: World, k: nat)
    requires Inv(w) && k < |w.jobs| && w.jobs[k].Load?
    ensures Frame(Fetch(w, k))
    ensures forall x, y :: Pair(x, y) in w.jobs ==> Pair(x, y) in Fetch(w, k).jobs
  {
    hide ViewsOk, LinksOk, TradesOk, RowNow;
    var v := Fetch(w, k);
    assert Flying(v) == Flying(w);
    hide Flying;
    forall i | 0 <= i < |v.jobs| ensures JobOk(v, v.jobs[i]) { assert JobOk(w, w.jobs[i]); }
    forall x, y | Pair(x, y) in w.jobs ensures Pair(x, y) in v.jobs {
      var i :| 0 <= i < |w.jobs| && w.jobs[i] == Pair(x, y);
      assert v.jobs[i] == Pair(x, y);
    }
  }

  // ----- replies that change places

  lemma SlipKeeps(w: World, i: nat)
    requires Inv(w) && CanSlip(w, i)
    ensures Inv(Slip(w, i)) && Still(w, Slip(w, i))
  {
    hide ViewsOk, LinksOk, TradesOk, Flying, Gather;
    var v := Slip(w, i);
    SlipFrame(w, i);
    hide Inv, Frame, Still, Slip;
    SlipViews(w, i);
    QuietKeeps(w, v);
    SameIsStill(w, v);
  }

  lemma SlipFrame(w: World, i: nat)
    requires Inv(w) && CanSlip(w, i)
    ensures Frame(Slip(w, i)) && Slip(w, i) == w.(replies := Slip(w, i).replies)
  {
    hide ViewsOk, LinksOk, TradesOk;
    var v := Slip(w, i);
    assert Flying(v) == Flying(w);
    hide Flying;
    forall n | 0 <= n < |v.jobs| ensures JobOk(v, v.jobs[n]) { assert JobOk(w, w.jobs[n]); }
    forall n | 0 <= n < |v.replies| ensures SessionOk(v, v.replies[n].session, v.replies[n].account) {
      assert v.replies[n] in w.replies;
    }
  }

  lemma SlipViews(w: World, i: nat)
    requires CanSlip(w, i)
    ensures forall b :: ViewOf(Slip(w, i), b) == ViewOf(w, b)
  {
    hide Gather, ReadChar;
    forall b ensures RepliesFor(Slip(w, i).replies, b) == RepliesFor(w.replies, b) { SlipReplies(w.replies, i, b); }
  }

  lemma SlipReplies(rs: seq<Reply>, i: nat, b: Account)
    requires i + 1 < |rs| && rs[i].account != rs[i + 1].account
    ensures RepliesFor(rs[i := rs[i + 1]][i + 1 := rs[i]], b) == RepliesFor(rs, b)
  {
    hide Gather;
    var x, y, head, tail := rs[i], rs[i + 1], rs[..i], rs[i + 2..];
    assert rs == head + [x] + ([y] + tail);
    assert rs[i := y][i + 1 := x] == head + [y] + ([x] + tail);
    TwoInside(head, x, y, tail, b);
    TwoInside(head, y, x, tail, b);
  }

  lemma TwoInside(head: seq<Reply>, x: Reply, y: Reply, tail: seq<Reply>, b: Account)
    ensures RepliesFor(head + [x] + ([y] + tail), b)
            == RepliesFor(head, b) + ReplierOf(b)(x) + ReplierOf(b)(y) + RepliesFor(tail, b)
  {
    hide Gather;
    var f := ReplierOf(b);
    GatherParts(f, head, x, [y] + tail);
    GatherParts(f, [], y, tail);
    assert [] + [y] + tail == [y] + tail;
    GatherNothing(f, []);
  }

  // ----- asking for a load

  lemma RequestLoadLoads(w: World, s: Session, a: Account)
    requires Inv(w) && LoadsOk(w)
    ensures LoadsOk(RequestLoad(w, s, a))
    ensures OnlyLoads(w, RequestLoad(w, s, a))
  {
    hide Inv, LoadsOk, Still, SendLeaveRecord, FindPair, Route, Bump, OnlyLoads;
    var v := if a in w.leave && !w.leave[a].inFlight && !w.leave[a].paired then SendLeaveRecord(w, a) else w;
    if a in w.leave && !w.leave[a].inFlight && !w.leave[a].paired {
      SendLeaveRecordStill(w, a);
      SendLeaveRecordKeeps(w, a);
      SentPairs(w, a);
    } else {
      SameIsStill(w, w);
    }
    StillLoads(w, v);
    StillOnly(w, v);
    var j := Load(a, s, Issued(v, a), FindPair(w.pairs, a) == |w.pairs|, None);
    if j.alone { AloneWrites(v, a); }
    PushedLoad(v, j, Bump(v.loadsQueued, Route(w, a), 1));
    OnlyTrans(w, v, v.(jobs := v.jobs + [j], loadsQueued := Bump(v.loadsQueued, Route(w, a), 1)));
  }

  lemma SentPairs(w: World, a: Account)
    requires a in w.leave
    ensures SendLeaveRecord(w, a).pairs == w.pairs
  {
    hide SaveFits, LeaveWrite, NextNo, PushIf;
    var n := NextNo(w.leaveSeq);
    var x := LeaveWrite(a, w.leave[a].(bundleNo := n), None);
    PushIfRest(w.(leaveSeq := n, leave := w.leave[a := w.leave[a].(bundleNo := n, inFlight := SaveFits(w, x))]), x,
               SaveFits(w, x));
  }

  /** From `w` to `v` nothing but the bookkeeping of loads has changed in what is stored or known of any account. */
  ghost predicate OnlyLoads(w: World, v: World) {
    && v.table == w.table && v.db == w.db && w.trades <= v.trades
    && (forall a :: HistOf(w, a) <= HistOf(v, a) && DbAt(w, a) <= DbAt(v, a))
  }

  lemma StillOnly(w: World, v: World)
    requires Still(w, v)
    ensures OnlyLoads(w, v)
  {
    hide Grown, HistOf;
  }

  lemma OnlyTrans(w: World, u: World, v: World)
    requires OnlyLoads(w, u) && OnlyLoads(u, v)
    ensures OnlyLoads(w, v)
  {
    hide HistOf;
    forall a ensures HistOf(w, a) <= HistOf(v, a) { PrefixTrans(HistOf(w, a), HistOf(u, a), HistOf(v, a)); }
  }

  lemma AloneWrites(w: World, a: Account)
    requires Inv(w) && FindPair(w.pairs, a) == |w.pairs|
    ensures NoMates(WritesFor(w.jobs, a))
  {
    hide Inv, Has, Gather, ReadChar;
    assert !Linked(w.pairs, a) by {
      assert forall i :: 0 <= i < |w.pairs| ==> !Has(w.pairs[i], a);
    }
    FreeMates(w, a);
    assert ViewOf(w, a).ws == WritesFor(w.jobs, a);
  }

  lemma PushedLoad(w: World, j: Job, counts: seq<nat>)
    requires LoadsOk(w) && j.Load? && j.read.None? && j.after == Issued(w, j.account)
             && (j.alone ==> NoMates(WritesFor(w.jobs, j.account)))
    ensures LoadsOk(w.(jobs := w.jobs + [j], loadsQueued := counts))
    ensures OnlyLoads(w, w.(jobs := w.jobs + [j], loadsQueued := counts))
  {
    hide Gather, NoMates;
    var v := w.(jobs := w.jobs + [j], loadsQueued := counts);
    forall b ensures WritesFor(v.jobs, b) == WritesFor(w.jobs, b) { GatherSnoc(WriterOf(b), w.jobs, j); }
    forall k | 0 <= k < |v.jobs| && v.jobs[k].Load? ensures LoadJobOk(v, k) {
      if k < |w.jobs| {
        assert v.jobs[..k] == w.jobs[..k];
        assert LoadJobOk(w, k);
      } else {
        assert v.jobs[..k] == w.jobs;
      }
    }
    forall i | 0 <= i < |v.loads| ensures LoadOk(v, v.loads[i]) { assert LoadOk(w, w.loads[i]); }
  }

  lemma DroppedLoad(w: World)
    requires LoadsOk(w) && w.loads != []
    ensures LoadsOk(w.(loads := w.loads[1..]))
    ensures LoadOk(w, w.loads[0])
    ensures OnlyLoads(w, w.(loads := w.loads[1..]))
  {
    hide Gather, NoMates;
    var v := w.(loads := w.loads[1..]);
    forall k | 0 <= k < |v.jobs| && v.jobs[k].Load? ensures LoadJobOk(v, k) { assert LoadJobOk(w, k); }
    forall i | 0 <= i < |v.loads| ensures LoadOk(v, v.loads[i]) { assert LoadOk(w, w.loads[i + 1]); }
  }

  /** Load freshness: a load asked for when its account was on no link, with no write queued for the account since,
      read the row and bag that are stored now. */
  lemma LoadIsFresh(w: World, r: LoadResult)
    requires LoadOk(w, r) && r.alone && r.after == Issued(w, r.account)
    ensures r.data == DbOf(w, r.account)
    ensures WritesFor(w.jobs, r.account) == []
  {
    hide Gather;
  }
}
