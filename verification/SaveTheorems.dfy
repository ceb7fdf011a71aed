/** The promises of the save protocol, over runs from a server start: with any database, any order of the workers, any
    failures (a failed report may hide a commit) and any refusals by full queues.

    The runs are the free ones: nobody enters while a link still has a side of the account. The program does not ask for
    that; SaveLinkedEntry shows when such an entry is possible and what it breaks. A player may enter from a load that
    is not what is stored any more. Its account is stale from then on: what is said of whole bags does not hold of it,
    and SaveStaleLoad shows when an account becomes stale and how that fails; all else holds of it too. */
module SaveTheorems {
  import opened Items
  import opened Seqs
  import opened SaveTypes
  import opened SaveSteps
  import opened SaveInvariant
  import opened SaveViews
  import opened SaveKeeps
  import opened SavePairs
  import opened SaveReplies
  import opened SaveWorker
  import opened SaveArrivals
  import opened SaveLoads
  import opened SaveRuns

  function Last(w: World, a: Account): Snap
    requires HistOf(w, a) != []
  {
    HistOf(w, a)[|HistOf(w, a)| - 1]
  }

  lemma RunSound(w0: World, acts: seq<Action>)
    requires Initial(w0) && FreeRun(w0, acts)
    ensures Inv(Ran(w0, acts)) && LoadsOk(Ran(w0, acts))
  {
    hide Initial, FreeRun, Ran, Sound;
    InitialSound(w0);
    RunKeeps(w0, acts);
    SoundIs(Ran(w0, acts));
  }

  lemma ViewParts(w: World, a: Account)
    ensures ViewOf(w, a).snap == Stored(w, a) && ViewOf(w, a).dbAt == DbAt(w, a) && ViewOf(w, a).hist == HistOf(w, a)
    ensures ViewOf(w, a).rs == RepliesFor(w.replies, a) && ViewOf(w, a).ws == WritesFor(w.jobs, a)
    ensures ViewOf(w, a).stale <==> a in w.stale
  {
    hide Gather, ReadChar;
  }

  // ----- the database

  /** At every moment what is stored of an account, read as the loader reads, is one of the states the account has been
      in, row and whole bag together: no bundle ever leaves a mixture of two states behind. Of a stale account it is the
      row of one of them. A load reads row and bag at two moments; `HandedOnLoadIsFresh` is about loads. */
  lemma DatabaseHoldsAState(w0: World, acts: seq<Action>, a: Account)
    requires Initial(w0) && FreeRun(w0, acts)
    ensures var w := Ran(w0, acts);
            && DbAt(w, a) < |HistOf(w, a)|
            && Stored(w, a).row == HistOf(w, a)[DbAt(w, a)].row
            && (a !in w.stale ==> Stored(w, a) == HistOf(w, a)[DbAt(w, a)])
  {
    hide Initial, FreeRun, Ran, Inv, LoadsOk, HistOf, DbAt, Stored;
    RunSound(w0, acts);
    StoredDepicts(Ran(w0, acts), a);
  }

  /** No regress: whatever happens next, the database moves forward, or not at all, in an account's history. */
  lemma NeverGoesBack(w0: World, acts: seq<Action>, more: seq<Action>, a: Account)
    requires Initial(w0) && FreeRun(w0, acts) && FreeRun(Ran(w0, acts), more)
    ensures var w, v := Ran(w0, acts), Ran(Ran(w0, acts), more);
            HistOf(w, a) <= HistOf(v, a) && DbAt(w, a) <= DbAt(v, a)
  {
    hide Initial, FreeRun, Ran, Inv, LoadsOk, HistOf, DbAt, Sound;
    RunSound(w0, acts);
    SoundFrom(Ran(w0, acts));
    RunKeeps(Ran(w0, acts), more);
  }

  lemma SoundFrom(w: World)
    requires Inv(w) && LoadsOk(w)
    ensures Sound(w)
  {
  }

  /** Each committed write carries a snapshot at least as new as what was stored, and stores exactly that one; of a
      stale account, that one's row. */
  lemma CommitStoresItsSnapshot(w0: World, acts: seq<Action>, k: nat, ok: bool, a: Account, x: Write)
    requires Initial(w0) && FreeRun(w0, acts)
    requires IsNext(Ran(w0, acts), k) && WritesIn(Ran(w0, acts).jobs[k], a) == [x]
    ensures var w, v := Ran(w0, acts), Execute(Ran(w0, acts), k, true, ok);
            && DbAt(w, a) <= x.at && x.at < |HistOf(w, a)|
            && Stored(v, a).row == HistOf(w, a)[x.at].row
            && (a !in w.stale ==> Stored(v, a) == HistOf(w, a)[x.at])
  {
    hide Initial, FreeRun, Ran, Inv, LoadsOk, Execute, IsNext, WritesIn, HistOf, DbAt, Stored, HistoryOk, QueueOk,
         ViewOf, AfterWrite;
    var w := Ran(w0, acts);
    RunSound(w0, acts);
    InOrder(w, a);
    NextInRange(w, k);
    ExecutedAccount(w, k, true, ok, a, x);
    ViewParts(w, a);
    ViewParts(Execute(w, k, true, ok), a);
  }

  // ----- trades

  /** Trade atomicity: at every moment a trade is stored for both accounts or for neither. */
  lemma TradesAreAtomic(w0: World, acts: seq<Action>, i: nat)
    requires Initial(w0) && FreeRun(w0, acts) && i < |Ran(w0, acts).trades|
    ensures var w := Ran(w0, acts);
            var t := w.trades[i];
            t.a != t.b && (DbAt(w, t.a) >= t.aAt <==> DbAt(w, t.b) >= t.bAt)
  {
    hide Initial, FreeRun, Ran, LoadsOk, DbAt, Base, QueuesOk, ViewsOk, LinksOk, Flying;
    RunSound(w0, acts);
    assert TradeOk(Ran(w0, acts), Ran(w0, acts).trades[i]);
  }

  /** The trade a run records: two states that exist, the last ones right after the swap. */
  lemma TradeIsRecorded(w: World, s: Session, t: Session, p: Player, q: Player)
    requires Sound(w) && Enabled(w, Swap(s, t, p, q))
    ensures var v := Step(w, Swap(s, t, p, q));
            && v.trades == w.trades + [Trade(p.account, q.account, |HistOf(w, p.account)|, |HistOf(w, q.account)|)]
            && HistOf(v, p.account) == HistOf(w, p.account) + [SnapOf(p)]
            && HistOf(v, q.account) == HistOf(w, q.account) + [SnapOf(q)]
            && DbAt(v, p.account) <= |HistOf(w, p.account)| - 1 && DbAt(v, q.account) <= |HistOf(w, q.account)| - 1
  {
    hide Inv, LoadsOk, SendPair, Plays, Tied;
    PlaysFlight(w.table, w.players[s], p);
    PlaysFlight(w.table, w.players[t], q);
    InvDiffer(w, s, t);
    var u := Swapped(w, s, t, p, q);
    TradeIs(u, s, t);
    TiedFields(u, s, t);
    SendPairHist(Tied(u, s, t), |u.pairs|);
    AheadOfDb(w, p.account);
    AheadOfDb(w, q.account);
  }

  lemma TiedFields(w: World, s: Session, t: Session)
    requires s in w.players && t in w.players
    ensures var v, p, q := Tied(w, s, t), w.players[s], w.players[t];
            && v.hist == w.hist && v.table == w.table && v.dbAt == w.dbAt
            && v.trades == w.trades + [Trade(p.account, q.account, Top(w, p.account), Top(w, q.account))]
  {
    hide Top, TradeLink;
  }

  lemma SendPairHist(w: World, i: nat)
    requires i < |w.pairs| && TwoSided(w.pairs[i])
    ensures SamePast(w, SendPair(w, i))
  {
    hide PairFits, HeadOf, FlownLink, SideReady, Flown, Dropped, PushPair;
    var l := w.pairs[i];
    var d0, d1 := l.sides[0], l.sides[1];
    if SideReady(w, d0) {
      SideHist(w, d0);
      if SideReady(Flown(w, d0), d1) {
        SideHist(Flown(w, d0), d1);
        var x, y := HeadOf(w, d0, d1.account), HeadOf(Flown(w, d0), d1, d0.account);
        PushPairHist(Flown(Flown(w, d0), d1), x, y);
        if SideReady(Dropped(w, d0), d1) { SideHist(Dropped(w, d0), d1); }
      }
    }
  }

  /** The two worlds have the same past. */
  ghost predicate SamePast(w: World, v: World) {
    v.hist == w.hist && v.table == w.table && v.dbAt == w.dbAt && v.trades == w.trades && v.stale == w.stale
  }

  lemma SideHist(w: World, sd: Side)
    requires SideReady(w, sd)
    ensures SamePast(w, Flown(w, sd)) && SamePast(w, Dropped(w, sd))
  {
    hide SamePast, SideReady, Flown, Dropped;
    if sd.session != LEFT { LiveSideHist(w, sd); } else { RecordSideHist(w, sd); }
  }

  lemma LiveSideHist(w: World, sd: Side)
    requires SideReady(w, sd) && sd.session != LEFT
    ensures SamePast(w, Flown(w, sd)) && SamePast(w, Dropped(w, sd))
  {
    hide Prepared, Committed, Aborted;
  }

  lemma RecordSideHist(w: World, sd: Side)
    requires SideReady(w, sd) && sd.session == LEFT
    ensures SamePast(w, Flown(w, sd)) && SamePast(w, Dropped(w, sd))
  {
    hide NextNo;
  }

  lemma PushPairHist(w: World, x: Write, y: Write)
    ensures SamePast(w, PushPair(w, x, y))
  {
  }

  /** A pair bundle carries the two accounts' states of the moment it was sent, and committing it stores both,
      whatever has happened in between; of a stale account, the row. */
  lemma PairStoresOneInstant(w: World, i: nat, more: seq<Action>, k: nat, ok: bool)
    requires Sound(w) && i < |w.pairs| && !w.pairs[i].inFlight && TwoSided(w.pairs[i])
    requires |SendPair(w, i).jobs| > |w.jobs|
    requires FreeRun(SendPair(w, i), more)
    requires IsNext(Ran(SendPair(w, i), more), k) && Ran(SendPair(w, i), more).jobs[k] == SendPair(w, i).jobs[|w.jobs|]
    ensures HistOf(w, w.pairs[i].sides[0].account) != [] && HistOf(w, w.pairs[i].sides[1].account) != []
    ensures var v := Execute(Ran(SendPair(w, i), more), k, true, ok);
            && StoresLast(w, v, w.pairs[i].sides[0].account)
            && StoresLast(w, v, w.pairs[i].sides[1].account)
  {
    hide Inv, LoadsOk, SendPair, FreeRun, Ran, Execute, HistOf, Stored, IsNext, WritesIn, ViewOf, HistoryOk, QueueOk,
         Onward;
    var a, b := w.pairs[i].sides[0].account, w.pairs[i].sides[1].account;
    var u := SendPair(w, i);
    SendPairKeeps(w, i);
    SendPairStill(w, i);
    QuietStep(w, u);
    RunKeeps(u, more);
    var v := Ran(u, more);
    OnwardTrans(w, u, v);
    var x, y := PairQueued(w, i);
    OneInstant(w, v, k, ok, a, x);
    OneInstant(w, v, k, ok, b, y);
  }

  /** What is stored in `v` is the state account `a` is in in `w`; of a stale account, that state's row. */
  ghost predicate StoresLast(w: World, v: World, a: Account)
    requires HistOf(w, a) != []
  {
    Stored(v, a).row == Last(w, a).row && (a !in v.stale ==> Stored(v, a) == Last(w, a))
  }

  /** The queued pair: each head carries its account's last state. */
  lemma PairQueued(w: World, i: nat) returns (x: Write, y: Write)
    requires Inv(w) && i < |w.pairs| && !w.pairs[i].inFlight && TwoSided(w.pairs[i])
    requires |SendPair(w, i).jobs| > |w.jobs|
    ensures var a, b := w.pairs[i].sides[0].account, w.pairs[i].sides[1].account;
            && SendPair(w, i).jobs[|w.jobs|] == Pair(x, y) && a != b
            && WritesIn(Pair(x, y), a) == [x] && WritesIn(Pair(x, y), b) == [y]
            && HistOf(w, a) != [] && HistOf(w, b) != []
            && x.at == |HistOf(w, a)| - 1 && y.at == |HistOf(w, b)| - 1
  {
    hide Inv, Flown, Dropped, HeadOf, FlownLink, PairFits, SideReady, ViewOf, Waiting, IsHead, HistOf, PushPair;
    SidesReady(w, i);
    SecondReady(w, i);
    var l := w.pairs[i];
    var d0, d1 := l.sides[0], l.sides[1];
    x, y := HeadOf(w, d0, d1.account), HeadOf(Flown(w, d0), d1, d0.account);
    FlownSame(w, d0);
    DroppedSame(w, d0);
    DroppedSame(Dropped(w, d0), d1);
    FlownSame(Flown(w, d0), d1);
    assert PairFits(w, x, y);
    PushedPair(Flown(Flown(w, d0), d1), x, y);
    HeadAt(w, d0, d1.account);
    HeadAtSecond(w, i);
  }

  lemma HeadAt(w: World, sd: Side, mate: Account)
    requires Inv(w) && Waiting(ViewOf(w, sd.account), sd) && SideReady(w, sd)
    ensures HistOf(w, sd.account) != []
    ensures HeadOf(w, sd, mate).account == sd.account && HeadOf(w, sd, mate).at == |HistOf(w, sd.account)| - 1
  {
    hide ViewOk, LinkOk, QueuesOk, Flying, TradesOk, ViewOf, Paired, LinksOk, ViewsOk, Waiting, Base, IsHead, HeadOf,
         Flown, FlownView, HistOf;
    TheView(w, sd.account);
    FirstFlies(w, sd, HeadOf(w, sd, mate), mate);
    ViewParts(w, sd.account);
    HistoryHas(w.table, ViewOf(w, sd.account), sd.account);
  }

  lemma HeadAtSecond(w: World, i: nat)
    requires Inv(w) && i < |w.pairs| && !w.pairs[i].inFlight && TwoSided(w.pairs[i])
    requires SideReady(w, w.pairs[i].sides[0]) && SideReady(Flown(w, w.pairs[i].sides[0]), w.pairs[i].sides[1])
    ensures var d0, d1 := w.pairs[i].sides[0], w.pairs[i].sides[1];
            var y := HeadOf(Flown(w, d0), d1, d0.account);
            HistOf(w, d1.account) != [] && y.account == d1.account && y.at == |HistOf(w, d1.account)| - 1
  {
    hide ViewOk, LinkOk, QueuesOk, Flying, TradesOk, ViewOf, Paired, LinksOk, ViewsOk, Waiting, Base, IsHead, HeadOf,
         Flown, FlownView, HistOf, SideReady;
    SidesReady(w, i);
    var d0, d1 := w.pairs[i].sides[0], w.pairs[i].sides[1];
    TheView(w, d0.account);
    TheView(w, d1.account);
    FirstFlies(w, d0, HeadOf(w, d0, d1.account), d1.account);
    FlownSame(w, d0);
    FirstFlies(Flown(w, d0), d1, HeadOf(Flown(w, d0), d1, d0.account), d0.account);
    ViewParts(w, d1.account);
    HistoryHas(w.table, ViewOf(w, d1.account), d1.account);
  }

  lemma OneInstant(w: World, v: World, k: nat, ok: bool, a: Account, x: Write)
    requires Inv(v) && Onward(w, v) && IsNext(v, k) && WritesIn(v.jobs[k], a) == [x]
    requires HistOf(w, a) != [] && x.at == |HistOf(w, a)| - 1
    ensures StoresLast(w, Execute(v, k, true, ok), a)
  {
    hide Inv, Execute, IsNext, WritesIn, HistOf, DbAt, Stored, HistoryOk, QueueOk, ViewOf, AfterWrite;
    InOrder(v, a);
    NextInRange(v, k);
    ExecutedAccount(v, k, true, ok, a, x);
    ViewParts(v, a);
    ViewParts(Execute(v, k, true, ok), a);
    ExecuteHist(v, k, true, ok);
    assert HistOf(v, a)[x.at] == HistOf(w, a)[x.at];
  }

  // ----- live players

  /** Live coverage: a slot that is neither marked nor in flight is stored as it is; with a bundle still queued, a
      slot that is only in flight is in that bundle's rows as it is; with nothing in flight nothing is in flight.
      Of a stale account, what is said of the stored slots does not hold. */
  lemma LiveIsCovered(w0: World, acts: seq<Action>, s: Session)
    requires Initial(w0) && FreeRun(w0, acts) && s in Ran(w0, acts).players
    ensures var w := Ran(w0, acts);
            var p := w.players[s];
            var ws := WritesFor(w.jobs, p.account);
            && |Stored(w, p.account).bag| == SLOTS && |p.bag| == SLOTS
            && (p.account !in w.stale ==>
                  forall i ::
                        0 <= i < SLOTS && i !in p.unsaved && i !in p.flight.slots ==>
                          Stored(w, p.account).bag[i] == p.bag[i])
            && (p.flight.bundleNo == 0 ==> ws == [] && RepliesFor(w.replies, p.account) == [] && p.flight.slots == {})
            && (p.flight.bundleNo != 0 ==> |ws| + |RepliesFor(w.replies, p.account)| == 1)
            && (ws != [] ==>
                  && ws[0].bundleNo == p.flight.bundleNo && ws[0].rows.Keys == p.flight.slots
                  && forall i ::
                         i in p.flight.slots && i !in p.unsaved && p.account !in w.stale ==>
                           i < SLOTS && ws[0].rows[i] == p.bag[i])
  {
    hide Initial, FreeRun, Ran, Inv, LoadsOk, ViewOf, ViewOk, Stored, WritesFor, RepliesFor, Base;
    var w := Ran(w0, acts);
    RunSound(w0, acts);
    var a := w.players[s].account;
    Ownership(w, s) by { InvBase(w); }
    TheView(w, a);
    ViewParts(w, a);
    StoredSize(w, a);
    CoveredView(w.table, ViewOf(w, a), a, w.players[s]);
  }

  lemma StoredSize(w: World, a: Account)
    ensures |Stored(w, a).bag| == SLOTS
  {
  }

  lemma InvBase(w: World)
    requires Inv(w)
    ensures Base(w)
  {
    hide ViewsOk, LinksOk, QueuesOk, TradesOk, Flying;
  }

  lemma CoveredView(table: ItemTable, v: View, a: Account, p: Player)
    requires ViewOk(table, v, a) && v.live == Some(p) && |v.snap.bag| == SLOTS
    ensures |p.bag| == SLOTS
    ensures !v.stale ==>
              forall i :: 0 <= i < SLOTS && i !in p.unsaved && i !in p.flight.slots ==> v.snap.bag[i] == p.bag[i]
    ensures p.flight.bundleNo == 0 ==> v.ws == [] && v.rs == [] && p.flight.slots == {}
    ensures p.flight.bundleNo != 0 ==> |v.ws| + |v.rs| == 1
    ensures v.ws != [] ==>
              && v.ws[0].bundleNo == p.flight.bundleNo && v.ws[0].rows.Keys == p.flight.slots
              && forall i ::
                     i in p.flight.slots && i !in p.unsaved && !v.stale ==> i < SLOTS && v.ws[0].rows[i] == p.bag[i]
  {
    if v.ws != [] {
      var x := v.ws[0];
      assert WriteOk(v.hist, a, x);
      forall i | i in p.flight.slots && i !in p.unsaved && !v.stale ensures i < SLOTS && x.rows[i] == p.bag[i] {
        assert i in x.rows;
        assert x.rows[i] == v.hist[x.at].bag[i];
      }
    }
  }

  /** The in-flight gauge counts the players whose bundle number is not zero, so it is never negative. */
  lemma GaugeIsExact(w0: World, acts: seq<Action>)
    requires Initial(w0) && FreeRun(w0, acts)
    ensures var w := Ran(w0, acts);
            w.inflight == |set s | s in w.players && w.players[s].flight.bundleNo != 0|
  {
    hide Initial, FreeRun, Ran, LoadsOk, Base, QueuesOk, ViewsOk, LinksOk, TradesOk;
    RunSound(w0, acts);
  }

  /** The asserts of SendPair hold and its "side missing" branch is dead whenever a period resends a pair. */
  lemma PairSidesArePresent(w0: World, acts: seq<Action>, i: nat)
    requires Initial(w0) && FreeRun(w0, acts) && i < |Ran(w0, acts).pairs| && !Ran(w0, acts).pairs[i].inFlight
    ensures var w := Ran(w0, acts);
            var l := w.pairs[i];
            && TwoSided(l)
            && forall k :: 0 <= k < 2 ==>
                 if l.sides[k].session != LEFT then
                   && l.sides[k].session in w.players
                   && w.players[l.sides[k].session].account == l.sides[k].account
                   && w.players[l.sides[k].session].flight.paired && w.players[l.sides[k].session].flight.bundleNo == 0
                 else
                   l.sides[k].account in w.leave && w.leave[l.sides[k].account].paired
                       && !w.leave[l.sides[k].account].inFlight
  {
    hide Initial, FreeRun, Ran, Inv, LoadsOk, ViewOf, Base;
    var w := Ran(w0, acts);
    RunSound(w0, acts);
    InvBase(w);
    SidesReady(w, i);
    ReadySide(w, w.pairs[i].sides[0]);
    ReadySide(w, w.pairs[i].sides[1]);
  }

  // ----- players that have left

  /** A player that leaves has no record from an earlier departure, so none is ever overwritten. */
  lemma NoRecordIsOverwritten(w0: World, acts: seq<Action>, s: Session)
    requires Initial(w0) && FreeRun(w0, acts) && s in Ran(w0, acts).players
    ensures Ran(w0, acts).players[s].account !in Ran(w0, acts).leave
  {
    hide Initial, FreeRun, Ran, Inv, LoadsOk;
    RunSound(w0, acts);
    LinkedIsPaired(Ran(w0, acts), s);
  }

  /** The state a player leaves in is the last one its account has been in. */
  lemma LeftStateIsLast(w0: World, acts: seq<Action>, s: Session)
    requires Initial(w0) && FreeRun(w0, acts) && s in Ran(w0, acts).players
    ensures var w := Ran(w0, acts);
            var p := w.players[s];
            && HistOf(w, p.account) != [] && Last(w, p.account) == SnapOf(p)
            && HistOf(Leave(w, s), p.account) == HistOf(w, p.account)
  {
    hide Initial, FreeRun, Ran, Inv, LoadsOk, ViewOf, ViewOk, SnapOf, Leave;
    var w := Ran(w0, acts);
    var a := w.players[s].account;
    RunSound(w0, acts);
    Ownership(w, s) by { InvBase(w); }
    TheView(w, a);
    ViewParts(w, a);
    LiveIsLast(w.table, ViewOf(w, a), a, w.players[s]);
    LeaveHist(w, s);
  }

  lemma LiveIsLast(table: ItemTable, v: View, a: Account, p: Player)
    requires ViewOk(table, v, a) && v.live == Some(p)
    ensures v.hist != [] && v.hist[|v.hist| - 1] == SnapOf(p)
  {
    hide HistoryOk, QueueOk, Agree, SnapOf;
  }

  lemma LeaveHist(w: World, s: Session)
    requires s in w.players
    ensures SamePast(w, LeaveFinal(w, s)) && SamePast(w, Leave(w, s))
  {
    hide SendLeaveRecord, Detach, LastRecord, Emptied;
    if !w.players[s].flight.paired { SentHist(Departed(w, s), w.players[s].account); }
  }

  lemma SentHist(w: World, a: Account)
    requires a in w.leave
    ensures SamePast(w, SendLeaveRecord(w, a))
  {
    hide SaveFits, LeaveWrite, NextNo, PushIf;
    var n := NextNo(w.leaveSeq);
    var x := LeaveWrite(a, w.leave[a].(bundleNo := n), None);
    PushIfRest(w.(leaveSeq := n, leave := w.leave[a := w.leave[a].(bundleNo := n, inFlight := SaveFits(w, x))]), x,
               SaveFits(w, x));
  }

  /** Leave completeness: once an account is neither live nor waiting as a leave record, its row and whole bag in
      the database are its last state, although only marked slots were ever written. Of a stale account, the row is. */
  lemma LeaveIsComplete(w0: World, acts: seq<Action>, a: Account)
    requires Initial(w0) && FreeRun(w0, acts) && a !in Ran(w0, acts).owner && a !in Ran(w0, acts).leave
    ensures var w := Ran(w0, acts);
            && HistOf(w, a) != [] && DbAt(w, a) == |HistOf(w, a)| - 1
            && Stored(w, a).row == Last(w, a).row && (a !in w.stale ==> Stored(w, a) == Last(w, a))
            && WritesFor(w.jobs, a) == [] && RepliesFor(w.replies, a) == []
  {
    hide Initial, FreeRun, Ran, Inv, LoadsOk, ViewOf, ViewOk, HistOf, Stored, WritesFor, RepliesFor;
    var w := Ran(w0, acts);
    RunSound(w0, acts);
    TheView(w, a);
    ViewParts(w, a);
    Absent(w, a);
    AbsentIsStored(w.table, ViewOf(w, a), a);
  }

  lemma Absent(w: World, a: Account)
    requires a !in w.owner && a !in w.leave
    ensures ViewOf(w, a).live == None && ViewOf(w, a).rec == None
  {
    hide Gather, ReadChar;
  }

  lemma AbsentIsStored(table: ItemTable, v: View, a: Account)
    requires ViewOk(table, v, a) && v.live == None && v.rec == None
    ensures v.hist != [] && v.dbAt == |v.hist| - 1 && v.ws == [] && v.rs == []
    ensures v.snap.row == v.hist[|v.hist| - 1].row && (!v.stale ==> v.snap == v.hist[|v.hist| - 1])
  {
    hide QueueOk, Agree, GoodSnap;
  }

  // ----- loads

  /** Load freshness. A load reads the row first and the bag later, and other workers write in between. Of a load that
      is handed on, the row read is that of the state that was stored then, and so the one the account left with if and
      only if that state has it; the bag likewise, at its own later moment, if the account was stored whole then.
      Together they are one of the account's states if that row and that bag are. No row and no bag is out of date if no
      write of the account was executed since the row was read, and none was if the account was on no link and had no
      write queued for it after the load was asked for. */
  lemma HandedOnLoadIsFresh(w0: World, acts: seq<Action>)
    requires Initial(w0) && FreeRun(w0, acts) && Ran(w0, acts).loads != []
    requires HandsOn(Ran(w0, acts), Ran(w0, acts).loads[0]) && Ran(w0, acts).loads[0].account !in Ran(w0, acts).owner
    ensures var w := Ran(w0, acts);
            var r := w.loads[0];
            var a, h, read := r.account, HistOf(w, r.account), ReadChar(w.table, r.data);
            && h != [] && r.rowAt <= r.bagAt < |h|
            && read.row == h[r.rowAt].row && (read.row == Last(w, a).row <==> h[r.rowAt].row == Last(w, a).row)
            && (r.whole ==>
                  read.bag == h[r.bagAt].bag && (read.bag == Last(w, a).bag <==> h[r.bagAt].bag == Last(w, a).bag))
            && (r.whole ==> (read == h[r.bagAt] <==> h[r.rowAt].row == h[r.bagAt].row))
            && (r.seen == Executed(w, a) ==> r.data == DbOf(w, a))
            && (r.alone && r.after == Issued(w, a) ==> r.seen == Executed(w, a))
  {
    hide Initial, FreeRun, Ran, Inv, LoadsOk, HistOf, WritesFor, RepliesFor, Issued, ReadRow, ReadBag, Stored;
    var w := Ran(w0, acts);
    RunSound(w0, acts);
    LeaveIsComplete(w0, acts, w.loads[0].account);
    DroppedLoad(w);
  }
}
