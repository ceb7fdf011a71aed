/** A player who enters while a link still has a side of its account: when that can happen, and a run in which it breaks
    a trade. */
module SaveLinkedEntry {
  import opened Items
  import opened Seqs
  import opened SaveTypes
  import opened SaveSteps
  import opened SaveInvariant
  import opened SaveViews
  import opened SaveKeeps
  import opened SaveReplies
  import opened SaveRelease
  import opened SaveArrivals
  import opened SaveLoads
  import opened SaveRuns
  import opened SaveTheorems
  import opened SaveMissing
  import opened SaveScenes
  import opened SaveHalfAnswer

  /** An account that is neither in the hub nor a leave record is on a link if and only if one side of some link has
      been confirmed, record and all, while the link waits for the reply of the other. Only then can a player enter
      linked. */
  lemma WhenEntriesAreLinked(w0: World, acts: seq<Action>, a: Account)
    requires Initial(w0) && FreeRun(w0, acts) && a !in Ran(w0, acts).owner && a !in Ran(w0, acts).leave
    ensures var w := Ran(w0, acts);
            FindPair(w.pairs, a) < |w.pairs| <==> exists i: nat, k: nat :: SideGone(w, i, k) && OnSide(w, i, k, a)
  {
    hide Initial, FreeRun, Ran, Inv, LoadsOk, Has, SideGone;
    var w := Ran(w0, acts);
    RunSound(w0, acts);
    var i := FindPair(w.pairs, a);
    if i < |w.pairs| {
      var k := SideWith(w.pairs[i], a);
      TwoSides(w, i);
      GoneIsAbsent(w, i, k);
    }
    forall n: nat, k: nat | SideGone(w, n, k) && OnSide(w, n, k, a) ensures i < |w.pairs| { GoneIsLinked(w, n, k, a); }
  }

  ghost predicate OnSide(w: World, i: nat, k: nat, a: Account) {
    i < |w.pairs| && k < |w.pairs[i].sides| && w.pairs[i].sides[k].account == a
  }

  lemma GoneIsLinked(w: World, i: nat, k: nat, a: Account)
    requires SideGone(w, i, k) && OnSide(w, i, k, a)
    ensures FindPair(w.pairs, a) < |w.pairs|
  {
    assert Has(w.pairs[i], a);
  }

  lemma SideWith(l: PairLink, a: Account) returns (k: nat)
    requires Has(l, a)
    ensures k < |l.sides| && l.sides[k].account == a
  {
    k :| 0 <= k < |l.sides| && l.sides[k].account == a;
  }

  lemma TwoSides(w: World, i: nat)
    requires Inv(w) && i < |w.pairs|
    ensures |w.pairs[i].sides| == 2
  {
    hide Inv;
    GoneIsAbsent(w, i, 0);
  }

  // ----- runs in which that happens

  ghost predicate Arrives(w: World, v: World) { exists acts :: CanRun(w, acts) && Ran(w, acts) == v }

  lemma ReachArrives(w: World, v: World)
    requires Reaches(w, v)
    ensures Arrives(w, v)
  {
    hide FreeRun, CanRun, Ran;
    var acts := RunTo(w, v);
    FreeIsRun(w, acts);
  }

  lemma ArriveStep(w: World, act: Action)
    requires Enabled(w, act)
    ensures Arrives(w, Step(w, act))
  {
    hide Enabled, Step;
    var v := Step(w, act);
    assert [act][1..] == [];
    assert CanRun(v, []) && Ran(v, []) == v;
    assert CanRun(w, [act]) && Ran(w, [act]) == v;
  }

  lemma {:induction false} CanConcat(w: World, x: seq<Action>, y: seq<Action>)
    requires CanRun(w, x) && CanRun(Ran(w, x), y)
    ensures CanRun(w, x + y) && Ran(w, x + y) == Ran(Ran(w, x), y)
    decreases |x|
  {
    hide Enabled, Step;
    if x == [] {
      assert x + y == y;
    } else {
      CanConcat(Step(w, x[0]), x[1..], y);
      assert (x + y)[1..] == x[1..] + y;
    }
  }

  lemma ArriveTrans(w: World, u: World, v: World)
    requires Arrives(w, u) && Arrives(u, v)
    ensures Arrives(w, v)
  {
    hide CanRun, Ran;
    var x :| CanRun(w, x) && Ran(w, x) == u;
    var y :| CanRun(u, y) && Ran(u, y) == v;
    CanConcat(w, x, y);
  }

  // ----- A enters again from before the trade, and trades its hundred once more, with C

  function A13(): Player { Mine(A, 100, 100, Idle(100), NEW) }

  function HistA13(): seq<Snap> { HistA() + [Snapped(100)] }

  function U0(): World {
    World(map[], 2, 10, map[2 := B8(), 3 := A13()], map[], [OLDLINK], 1, 1, [], [], [0, 4], [2, 1],
          [Reply(B, 2, 2, true, None)], [], Db12(), map[B := 2, A := 3], {1, 2, 3},
          map[A := HistA13(), B := HistB()], map[A := 2, B := 2], map[A := 2, B := 2], [Trade(A, B, 2, 2)], {})
  }

  function C1(): Player { Mine(C, 0, 0, Idle(0), NEW) }

  function U1(): World {
    U0().(players := map[2 := B8(), 3 := A13(), 4 := C1()], owner := map[B := 2, A := 3, C := 4], used := {1, 2, 3, 4},
          loadsQueued := [2, 2], hist := map[A := HistA13(), B := HistB(), C := [NOBODY, Snapped(0)]])
  }

  function A14(): Player { A13().(values := Stats(10, 0)) }

  function C14(): Player { C1().(values := Stats(10, 100)) }

  function A15(): Player { Mine(A, 0, 0, Flight(2, 1, false, false, false, true, Stats(10, 100), {}), NEW) }

  function C15(): Player { Mine(C, 100, 100, Flight(2, 1, false, false, false, true, Stats(10, 0), {}), NEW) }

  function HistA15(): seq<Snap> { HistA13() + [Snapped(0)] }

  function HistC(): seq<Snap> { [NOBODY, Snapped(0), Snapped(100)] }

  const OLDLINK := Link(1, true, 2, false, true, true)

  function NewLink(n: nat, f: bool): PairLink { PairLink([Side(A, 3, n, false, 4), Side(C, 4, n, false, 2)], true, f) }

  const PAIR2 := Pair(Write(A, 3, 1, RowOf(0), map[], Some(C), 4), Write(C, 4, 1, RowOf(100), map[], Some(A), 2))

  /** Swapped and tied, not sent. */
  function U1b(): World {
    U1().(players := map[2 := B8(), 3 := Hold(A14()), 4 := Hold(C14())], pairs := [OLDLINK, NewLink(0, false)],
          hist := map[A := HistA15(), B := HistB(), C := HistC()], trades := [Trade(A, B, 2, 2), Trade(A, C, 4, 2)])
  }

  function U2(): World {
    U1b().(players := map[2 := B8(), 3 := A15(), 4 := C15()], pairs := [OLDLINK, NewLink(1, true)], inflight := 3,
           jobs := [PAIR2], bundles := [0, 6], issued := map[A := 3, B := 2, C := 1])
  }

  /** A leaves: the first link with its account is the old one. */
  function U3(): World {
    U2().(players := map[2 := B8(), 4 := C15()], owner := map[B := 2, C := 4], inflight := 2,
          leave := map[A := LeaveRecord(RowOf(0), map[], 0, false, true, 4)])
  }

  const ALONE := Save(Write(A, LEFT, 2, RowOf(0), map[], None, 4))

  function B16(): Player {
    Mine(B, 100, 100, Flight(3, 0, false, true, false, false, Stats(10, 0), {}), Track(true, None, false, false))
  }

  /** B's reply comes: the old link is released, and it lets go of A's new record. */
  function U4(): World {
    U3().(players := map[2 := B16(), 4 := C15()], inflight := 1, tickEnd := [2], replies := [],
          pairs := [NewLink(1, true)],
          leave := map[A := LeaveRecord(RowOf(0), map[], 2, true, false, 4)], leaveSeq := 2,
          jobs := [PAIR2, ALONE], bundles := [1, 6], issued := map[A := 4, B := 2, C := 1])
  }

  function U5(): World {
    U4().(jobs := [PAIR2], replies := [Reply(A, LEFT, 2, true, None)], dbAt := map[A := 4, B := 2])
  }

  // ----- the steps

  lemma Enter13()
    ensures Arrives(T12(), U0())
  {
    hide ReadBag, Arrives, FindPair, T12;
    Fields12();
    assert T12().loads[1..] == [];
    assert T12().used + {3} == {1, 2, 3};
    assert HistOf(T12(), A) + [SnapOf(A13())] == HistA13();
    var v := T12().(loads := []);
    assert SpawnedPlayer(v, OLD, HOME, Stats(10, 100), Stats(10, 100), false) == A13();
    assert A13().bag == Stored(v, A).bag;
    assert Step(T12(), HandOn(true, HOME, Stats(10, 100), Stats(10, 100), false)) == U0();
    ArriveStep(T12(), HandOn(true, HOME, Stats(10, 100), Stats(10, 100), false));
  }

  lemma NotOnIt(l: PairLink, a: Account)
    requires forall k :: 0 <= k < |l.sides| ==> l.sides[k].account != a
    ensures FindPair([l], a) == 1
  {
    assert !Has(l, a);
    assert [l][1..] == [];
  }

  lemma EnterC()
    ensures Reaches(U0(), U1())
  {
    hide ReadBag, Reaches, Route, FindPair;
    Routes(U0());
    NotOnIt(OLDLINK, C);
    Enters(U0(), 4, C, Stats(10, 0), false);
    assert U0().used + {4} == {1, 2, 3, 4};
    assert Bump(U0().loadsQueued, 1, 1) == [2, 2];
    assert HistOf(U0(), C) + [SnapOf(C1())] == [NOBODY, Snapped(0)];
    assert Entered(U0(), 4, C, Stats(10, 0), false) == U1();
  }

  lemma TiedC()
    ensures Swapped(U1(), 3, 4, A14(), C14()).players.Keys == {2, 3, 4}
            && Swapped(U1(), 3, 4, A14(), C14()).pairs == [OLDLINK]
    ensures Tied(Swapped(U1(), 3, 4, A14(), C14()), 3, 4) == U1b()
  {
    hide ReadBag, ReadChar;
    var u := Played(U1(), 3, A14());
    assert HistOf(U1(), A) + [SnapOf(A14())] == HistA15();
    assert HistOf(u, C) + [SnapOf(C14())] == HistC();
    var v := Played(u, 4, C14());
    assert v.hist == map[A := HistA15(), B := HistB(), C := HistC()];
    assert v.players == map[2 := B8(), 3 := A14(), 4 := C14()];
    assert [OLDLINK] + [NewLink(0, false)] == [OLDLINK, NewLink(0, false)];
  }

  function U1c(): World { U1b().(players := map[2 := B8(), 3 := A15(), 4 := Hold(C14())], inflight := 2) }

  function U1d(): World { U1b().(players := map[2 := B8(), 3 := A15(), 4 := C15()], inflight := 3) }

  lemma FlownC()
    ensures var d0, d1 := NewLink(0, false).sides[0], NewLink(0, false).sides[1];
            && SideReady(U1b(), d0) && Flown(U1b(), d0) == U1c()
            && SideReady(U1c(), d1) && Flown(U1c(), d1) == U1d()
            && HeadOf(U1b(), d0, C) == PAIR2.first && HeadOf(U1c(), d1, A) == PAIR2.second
  {
    hide ReadBag, ReadChar, RowsOf;
    NoBagIsGood();
  }

  lemma SentC()
    ensures SendPair(U1b(), 1) == U2()
  {
    hide ReadBag, ReadChar, Flown, SideReady, HeadOf, Route, Dropped;
    Routes(U1b());
    Routes(U1d());
    FlownC();
    var q := PushPair(U1d(), PAIR2.first, PAIR2.second);
    assert q.bundles == [0, 6];
    assert q.issued == map[A := 3, B := 2, C := 1];
    assert q.jobs == [PAIR2];
    SetIn(OLDLINK, NewLink(0, false), NewLink(1, true));
  }

  lemma Swap14()
    ensures Reaches(U1(), U2())
  {
    hide ReadBag, ReadChar, Reaches, SendPair, Tied, Plays;
    TiedC();
    TradeIs(Swapped(U1(), 3, 4, A14(), C14()), 3, 4);
    SentC();
    Paying();
    assert Step(U1(), Swap(3, 4, A14(), C14())) == U2();
    ReachStep(U1(), Swap(3, 4, A14(), C14()));
  }

  lemma Paying()
    ensures Plays(map[], A13(), A14()) && Plays(map[], C1(), C14())
  {
    hide ReadBag, GoodBag;
    NoBagIsGood();
  }

  lemma Depart15()
    ensures Reaches(U2(), U3())
  {
    hide ReadBag, ReadChar, Reaches, RowsOf, FindPair;
    NoBagIsGood();
    OnFirst(U2().pairs, A, 0);
    assert U2().players[3 := Emptied(A15())] - {3} == map[2 := B8(), 4 := C15()];
    assert U2().owner - {A} == map[B := 2, C := 4];
    assert A15().unsaved + A15().flight.slots == {};
    SetIn(OLDLINK.sides[0], OLDLINK.sides[1], OLDLINK.sides[0]);
    SetIn(OLDLINK, NewLink(1, true), OLDLINK);
    assert Detach(U2().pairs, A) == U2().pairs;
    assert Step(U2(), Depart(3)) == U3();
    ReachStep(U2(), Depart(3));
  }

  function U3a(): World { U3().(players := map[2 := LandedOk(B8()), 4 := C15()], inflight := 1, replies := []) }

  lemma Heard16()
    ensures OnSaveReply(Tail(U3()), U3().replies[0]) == U3a()
  {
    hide ReadBag, ReadChar, LandedOk;
    OnlyJob(U3().replies[0]);
    assert (map[2 := B8(), 4 := C15()])[2 := LandedOk(B8())] == map[2 := LandedOk(B8()), 4 := C15()];
  }

  lemma Answer16()
    ensures Reaches(U3(), U4())
  {
    hide ReadBag, ReadChar, Reaches, OnSaveReply, OnPairReply, U3a, U4;
    Heard16();
    Released16();
    assert Step(U3(), Answer) == U4();
    ReachStep(U3(), Answer);
  }

  lemma Released16()
    ensures OnPairReply(U3a(), Reply(B, 2, 2, true, None)) == U4()
  {
    hide ReadBag, ReadChar, RowsOf, FindPair, ReleasePairSide;
    OnFirst(U3a().pairs, B, 1);
    FirstOfTwo(OLDLINK, NewLink(1, true));
    LetGoA();
    LetGoB();
  }

  function U3b(): World {
    U3().(players := map[2 := LandedOk(B8()), 4 := C15()], inflight := 1, replies := [], pairs := [NewLink(1, true)],
          leave := map[A := LeaveRecord(RowOf(0), map[], 2, true, false, 4)], leaveSeq := 2,
          jobs := [PAIR2, ALONE], bundles := [1, 6], issued := map[A := 4, B := 2, C := 1])
  }

  function U3c(): World {
    U3a().(pairs := [NewLink(1, true)], leave := map[A := LeaveRecord(RowOf(0), map[], 0, false, false, 4)])
  }

  lemma SentA()
    ensures SendLeaveRecord(U3c(), A) == U3b()
  {
    hide ReadBag, ReadChar, Route, LandedOk;
    var v := U3c();
    var u := v.(leaveSeq := 2, leave := map[A := LeaveRecord(RowOf(0), map[], 2, true, false, 4)]);
    Routes(v);
    Routes(u);
    assert Bump(v.bundles, 0, 1) == [1, 6];
    assert v.issued[A := 4] == map[A := 4, B := 2, C := 1];
    assert v.jobs + [ALONE] == [PAIR2, ALONE];
    assert SaveFits(v, ALONE.w);
    assert LeaveWrite(A, v.leave[A].(bundleNo := NextNo(v.leaveSeq)), None) == ALONE.w;
    assert v.leave[A := v.leave[A].(bundleNo := 2, inFlight := true)] == u.leave;
    assert PushSave(u, ALONE.w) == U3b();
  }

  lemma LetGoA()
    ensures ReleasePairSide(U3a().(pairs := [NewLink(1, true)]), Side(A, LEFT, 1, true, 2)) == U3b()
  {
    hide ReadBag, ReadChar, SendLeaveRecord, LandedOk, U3b;
    SentA();
    assert (map[A := LeaveRecord(RowOf(0), map[], 0, false, true, 4)])[A :=
           LeaveRecord(RowOf(0), map[], 0, false, false, 4)]
           == map[A := LeaveRecord(RowOf(0), map[], 0, false, false, 4)];
  }

  lemma LetGoB()
    ensures ReleasePairSide(U3b(), Side(B, 2, 2, true, 2)) == U4()
  {
    hide ReadBag, ReadChar, RowsOf;
  }

  lemma Work17()
    ensures Reaches(U4(), U5())
  {
    hide ReadBag, ReadChar, Reaches, Route;
    Routes(U4());
    FirstOfTwo(PAIR2, ALONE);
    assert Upsert(DbChar(Some(RowOf(0)), map[]), ALONE.w) == DbChar(Some(RowOf(0)), map[]);
    assert U4().db[A := DbChar(Some(RowOf(0)), map[])] == U4().db;
    Works(U4(), 1, ALONE.w, true, true, U5());
  }

  lemma Through()
    ensures Arrives(T0(), U5())
  {
    hide Reaches, Arrives, T0, T12, U0, U1, U2, U3, U4, U5;
    HalfAnswered(); ReachArrives(T0(), T12());
    Enter13(); ArriveTrans(T0(), T12(), U0());
    EnterC(); ReachArrives(U0(), U1()); ArriveTrans(T0(), U0(), U1());
    Swap14(); ReachArrives(U1(), U2()); ArriveTrans(T0(), U1(), U2());
    Depart15(); ReachArrives(U2(), U3()); ArriveTrans(T0(), U2(), U3());
    Answer16(); ReachArrives(U3(), U4()); ArriveTrans(T0(), U3(), U4());
    Work17(); ReachArrives(U4(), U5()); ArriveTrans(T0(), U4(), U5());
  }

  /** In this run A enters linked, with the hundred it has given to B, and gives it to C: this second trade is stored
      for A and not for C. */
  lemma LinkedEntryBreaksATrade() returns (w0: World, acts: seq<Action>)
    ensures Initial(w0) && CanRun(w0, acts)
    ensures var w := Ran(w0, acts);
            && |w.trades| == 2
            && var t := w.trades[1];
               t.a != t.b && DbAt(w, t.a) >= t.aAt && DbAt(w, t.b) < t.bAt
  {
    hide Arrives, T0, U5, CanRun, Ran;
    Through();
    StartsAt();
    w0 := T0();
    acts := ArriveTo(T0(), U5());
    StoredForOne();
  }

  lemma ArriveTo(w: World, v: World) returns (acts: seq<Action>)
    requires Arrives(w, v)
    ensures CanRun(w, acts) && Ran(w, acts) == v
  {
    hide CanRun, Ran;
    acts :| CanRun(w, acts) && Ran(w, acts) == v;
  }

  lemma StoredForOne()
    ensures U5().trades == [Trade(A, B, 2, 2), Trade(A, C, 4, 2)] && DbAt(U5(), A) == 4 && DbAt(U5(), C) == 0
  {
    hide ReadBag, ReadChar;
  }
}
