/** A run in which a drain hears one of a pair's two replies and not the other.

    Two players trade, the pair fails, one of them has left meanwhile, and the pair is sent once more and committed. Of
    its two replies only the one of the player who left has been handled: its record is gone, and the link still waits.
    If the server is stopped now, the other player's last state is lost. */
module SaveHalfAnswer {
  import opened Items
  import opened Seqs
  import opened SaveTypes
  import opened SaveSteps
  import opened SaveInvariant
  import opened SaveViews
  import opened SaveKeeps
  import opened SaveReplies
  import opened SaveArrivals
  import opened SaveLoads
  import opened SaveRuns
  import opened SaveTheorems
  import opened SaveHalts
  import opened SaveMissing
  import opened SaveScenes

  const A: Account := 4
  const B: Account := 1
  const C: Account := 3

  function RowOf(money: int): CharRow { CharRow(HOME, Stats(10, money)) }

  function NoBag(): seq<Item> { ReadBag(map[], map[]) }

  function Mine(a: Account, money: int, saved: int, f: Flight, t: Track): Player {
    Player(a, HOME, false, Stats(10, money), false, Stats(10, saved), NoBag(), {}, f, t)
  }

  const NEW := Track(false, None, false, false)

  function Idle(saved: int): Flight { Flight(1, 0, false, false, false, false, Stats(10, saved), {}) }

  function Snapped(money: int): Snap { Snap(Some(RowOf(money)), NoBag()) }

  const NOBODY := ReadChar(map[], NO_CHAR)

  function Db0(): map<Account, DbChar> { map[A := DbChar(Some(RowOf(100)), map[])] }

  function T0(): World { Start(map[], 2, Db0()) }

  // ----- two players enter

  function A1(): Player { Mine(A, 100, 100, Idle(100), NEW) }

  function B1(): Player { Mine(B, 0, 0, Idle(0), NEW) }

  function T1(): World {
    T0().(players := map[1 := A1()], owner := map[A := 1], used := {1}, loadsQueued := [1, 0], bundles := [0, 0],
          hist := map[A := [Snapped(100), Snapped(100)]])
  }

  function T2(): World {
    T1().(players := map[1 := A1(), 2 := B1()], owner := map[A := 1, B := 2], used := {1, 2}, loadsQueued := [1, 1],
          hist := map[A := [Snapped(100), Snapped(100)], B := [NOBODY, Snapped(0)]])
  }

  // ----- A gives B a hundred; their pair is queued

  function A2(): Player { Mine(A, 0, 0, Flight(2, 1, false, false, false, true, Stats(10, 100), {}), NEW) }

  function B2(): Player { Mine(B, 100, 100, Flight(2, 1, false, false, false, true, Stats(10, 0), {}), NEW) }

  function Link0(): PairLink { PairLink([Side(A, 1, 1, false, 2), Side(B, 2, 1, false, 2)], true, true) }

  function HistA(): seq<Snap> { [Snapped(100), Snapped(100), Snapped(0)] }

  function HistB(): seq<Snap> { [NOBODY, Snapped(0), Snapped(100)] }

  const PAIR0 := Pair(Write(A, 1, 1, RowOf(0), map[], Some(B), 2), Write(B, 2, 1, RowOf(100), map[], Some(A), 2))

  function T3(): World {
    T2().(players := map[1 := A2(), 2 := B2()], hist := map[A := HistA(), B := HistB()], pairs := [Link0()],
          inflight := 2,
          jobs := [PAIR0], bundles := [0, 2], issued := map[A := 1, B := 1], trades := [Trade(A, B, 2, 2)])
  }

  // ----- A leaves, the pair fails, and both replies are handled

  function Record(n: nat, f: bool): LeaveRecord { LeaveRecord(RowOf(0), map[], n, f, true, 2) }

  function Link(n0: nat, r0: bool, n1: nat, r1: bool, ok: bool, f: bool): PairLink {
    PairLink([Side(A, LEFT, n0, r0, 2), Side(B, 2, n1, r1, 2)], ok, f)
  }

  function T4(): World {
    T3().(players := map[2 := B2()], owner := map[B := 2], inflight := 1,
          pairs := [Link(1, false, 1, false, true, true)],
          leave := map[A := Record(0, false)])
  }

  function T5(): World {
    T4().(jobs := [], replies := [Reply(A, 1, 1, false, None), Reply(B, 2, 1, false, None)])
  }

  function T6(): World {
    T5().(replies := [Reply(B, 2, 1, false, None)], pairs := [Link(1, true, 1, false, false, true)])
  }

  function B7(): Player { Mine(B, 100, 0, Flight(2, 0, false, false, false, true, Stats(10, 0), {}), NEW) }

  function T7(): World {
    T6().(players := map[2 := B7()], inflight := 0, replies := [], pairs := [Link(1, true, 1, true, false, false)])
  }

  // ----- the pair is sent once more; behind it A asks for a load, which is read first, by the other worker

  const PAIR1 := Pair(Write(A, LEFT, 1, RowOf(0), map[], Some(B), 2), Write(B, 2, 2, RowOf(100), map[], Some(A), 2))

  function B8(): Player { Mine(B, 100, 100, Flight(3, 2, false, false, false, true, Stats(10, 0), {}), NEW) }

  function T8(): World {
    T7().(players := map[2 := B8()], inflight := 1, leaveSeq := 1, leave := map[A := Record(1, true)],
          pairs := [Link(1, false, 2, false, true, true)], jobs := [PAIR1], bundles := [0, 4],
              issued := map[A := 2, B := 2])
  }

  const RELOAD := Load(A, 3, 2, false, None)

  const RELOADED := Load(A, 3, 2, false, Some(RowRead(Some(RowOf(100)), 1, 0)))

  function T9(): World { T8().(jobs := [PAIR1, RELOAD], loadsQueued := [2, 1]) }

  const OLD := LoadResult(A, 3, Found, DbChar(Some(CharRow(HOME, Stats(10, 100))), map[]), 1, 0, 0, true, 2, false)

  function T9b(): World { T9().(jobs := [PAIR1, RELOADED]) }

  function T10(): World { T9b().(jobs := [PAIR1], loads := [OLD]) }

  function Db12(): map<Account, DbChar> {
    map[A := DbChar(Some(RowOf(0)), map[]), B := DbChar(Some(RowOf(100)), map[])]
  }

  function T11(): World {
    T10().(jobs := [], replies := [Reply(A, LEFT, 1, true, None), Reply(B, 2, 2, true, None)], db := Db12(),
           dbAt := map[A := 2, B := 2])
  }

  /** One reply handled, the other not. */
  function T12(): World {
    T11().(replies := [Reply(B, 2, 2, true, None)], leave := map[], pairs := [Link(1, true, 2, false, true, true)])
  }

  // ----- the steps

  lemma Routes(w: World)
    requires w.workers == 2
    ensures Route(w, A) == 0 && Route(w, B) == 1 && Route(w, C) == 1
  {
  }

  lemma NoBagIsGood()
    ensures GoodBag(map[], NoBag())
    ensures RowsOf(NoBag(), {}) == map[]
  {
  }

  lemma Step1()
    ensures Reaches(T0(), T1())
  {
    hide ReadBag, Reaches, Route;
    Routes(T0());
    Enters(T0(), 1, A, Stats(10, 100), false);
    assert T0().used + {1} == {1};
    assert T0().bundles == [0, 0] && Bump(T0().loadsQueued, 0, 1) == [1, 0];
    assert HistOf(T0(), A) + [SnapOf(A1())] == [Snapped(100), Snapped(100)];
    assert Entered(T0(), 1, A, Stats(10, 100), false) == T1();
  }

  lemma Step2()
    ensures Reaches(T1(), T2())
  {
    hide ReadBag, Reaches, Route;
    Routes(T1());
    Enters(T1(), 2, B, Stats(10, 0), false);
    assert T1().used + {2} == {1, 2};
    assert Bump(T1().loadsQueued, 1, 1) == [1, 1];
    assert HistOf(T1(), B) + [SnapOf(B1())] == [NOBODY, Snapped(0)];
    assert Entered(T1(), 2, B, Stats(10, 0), false) == T2();
  }

  function PaidA(): Player { A1().(values := Stats(10, 0)) }

  function PaidB(): Player { B1().(values := Stats(10, 100)) }

  /** The two players after the swap, on the new link. */
  function T2b(): World {
    T2().(players := map[1 := Hold(PaidA()), 2 := Hold(PaidB())], hist := map[A := HistA(), B := HistB()],
          pairs := [PairLink([Side(A, 1, 0, false, 2), Side(B, 2, 0, false, 2)], true, false)],
              trades := [Trade(A, B, 2, 2)])
  }

  lemma Step3()
    ensures Reaches(T2(), T3())
  {
    hide ReadBag, ReadChar, Reaches, GoodBag, SendPair, Tied;
    NoBagIsGood();
    var u := Swapped(T2(), 1, 2, PaidA(), PaidB());
    TradeIs(u, 1, 2);
    Tied3();
    Sent3();
    assert u.pairs == [];
    assert Step(T2(), Swap(1, 2, PaidA(), PaidB())) == T3();
    ReachStep(T2(), Swap(1, 2, PaidA(), PaidB()));
  }

  lemma Tied3()
    ensures Swapped(T2(), 1, 2, PaidA(), PaidB()).players.Keys == {1, 2}
    ensures Tied(Swapped(T2(), 1, 2, PaidA(), PaidB()), 1, 2) == T2b()
  {
    hide ReadBag, ReadChar;
    var u := Played(T2(), 1, PaidA());
    assert HistOf(T2(), A) + [SnapOf(PaidA())] == HistA();
    assert HistOf(u, B) + [SnapOf(PaidB())] == HistB();
    var v := Played(u, 2, PaidB());
    assert v.hist == map[A := HistA(), B := HistB()];
    assert v.players == map[1 := PaidA(), 2 := PaidB()];
  }

  lemma Sent3()
    ensures SendPair(T2b(), 0) == T3()
  {
    hide ReadBag, ReadChar, GoodBag, RowsOf, Route, SendPair;
    NoBagIsGood();
    Routes(T2b());
    var u := T2b().(players := map[1 := A2(), 2 := Hold(PaidB())], inflight := 1);
    var z := T2b().(players := map[1 := A2(), 2 := B2()], inflight := 2);
    assert Flown(T2b(), T2b().pairs[0].sides[0]) == u;
    assert Flown(u, T2b().pairs[0].sides[1]) == z;
    Routes(z);
    var q := PushPair(z, PAIR0.first, PAIR0.second);
    assert q.bundles == [0, 2];
    assert q.issued == map[A := 1, B := 1];
    assert q.jobs == [PAIR0];
    SendsPair(T2b(), u, z, PAIR0.first, PAIR0.second, T3());
  }

  lemma Step4()
    ensures Reaches(T3(), T4())
  {
    hide ReadBag, ReadChar, Reaches, RowsOf, FindPair;
    NoBagIsGood();
    OnFirst(T3().pairs, A, 0);
    assert T3().players[1 := Emptied(A2())] - {1} == map[2 := B2()];
    assert T3().owner - {A} == map[B := 2];
    assert A2().unsaved + A2().flight.slots == {};
    SetIn(Side(A, 1, 1, false, 2), Side(B, 2, 1, false, 2), Side(A, LEFT, 1, false, 2));
    SetIn(Link0(), Link0(), Link(1, false, 1, false, true, true));
    assert Detach(T3().pairs, A) == T4().pairs;
    assert Step(T3(), Depart(1)) == T4();
    ReachStep(T3(), Depart(1));
  }

  lemma Step5()
    ensures Reaches(T4(), T5())
  {
    hide ReadBag, ReadChar, Reaches;
    OnlyJob(PAIR0);
    assert Step(T4(), Work(0, false, false)) == T5();
    ReachStep(T4(), Work(0, false, false));
  }

  lemma Step6()
    ensures Reaches(T5(), T6())
  {
    hide ReadBag, ReadChar, Reaches, FindPair;
    OnFirst(T5().pairs, A, 0);
    FirstOfTwo(Reply(A, 1, 1, false, None), Reply(B, 2, 1, false, None));
    assert OnSaveReply(Tail(T5()), T5().replies[0]) == Tail(T5());
    SetIn(Side(A, LEFT, 1, false, 2), Side(B, 2, 1, false, 2), Side(A, LEFT, 1, true, 2));
    SetIn(T5().pairs[0], T5().pairs[0], T6().pairs[0]);
    assert OnPairReply(Tail(T5()), T5().replies[0]) == T6();
    ReachStep(T5(), Answer);
  }

  lemma Step7()
    ensures Reaches(T6(), T7())
  {
    hide ReadBag, ReadChar, Reaches, FindPair;
    OnlyJob(Reply(B, 2, 1, false, None));
    OnFirst(T6().pairs, B, 1);
    var u := T6().(players := map[2 := B7()], inflight := 0, replies := []);
    SetIn(Side(A, LEFT, 1, true, 2), Side(B, 2, 1, false, 2), Side(B, 2, 1, true, 2));
    SetIn(T6().pairs[0], T6().pairs[0], T7().pairs[0]);
    assert (map[2 := B2()])[2 := B7()] == map[2 := B7()];
    assert LandedFailed(B2(), T6().replies[0]) == B7();
    assert OnSaveReply(Tail(T6()), T6().replies[0]) == u;
    assert OnPairReply(u, T6().replies[0]) == T7();
    ReachStep(T6(), Answer);
  }

  function T7a(): World { T7().(leaveSeq := 1, leave := map[A := Record(1, true)]) }

  function T7b(): World { T7a().(players := map[2 := B8()], inflight := 1) }

  lemma Flown8()
    ensures SideReady(T7(), T7().pairs[0].sides[0]) && Flown(T7(), T7().pairs[0].sides[0]) == T7a()
    ensures SideReady(T7a(), T7().pairs[0].sides[1]) && Flown(T7a(), T7().pairs[0].sides[1]) == T7b()
    ensures HeadOf(T7(), T7().pairs[0].sides[0], B) == PAIR1.first
    ensures HeadOf(T7a(), T7().pairs[0].sides[1], A) == PAIR1.second
  {
    hide ReadBag, ReadChar, RowsOf;
    NoBagIsGood();
  }

  lemma Sent8()
    ensures SendPair(T7(), 0) == T8()
  {
    hide ReadBag, ReadChar, SendPair, Flown, SideReady, HeadOf, Route;
    Routes(T7());
    Routes(T7b());
    Flown8();
    var q := PushPair(T7b(), PAIR1.first, PAIR1.second);
    assert q.bundles == [0, 4];
    assert q.issued == map[A := 2, B := 2];
    assert q.jobs == [PAIR1];
    SendsPair(T7(), T7a(), T7b(), PAIR1.first, PAIR1.second, T8());
  }

  lemma Step8()
    ensures Reaches(T7(), T8())
  {
    hide Reaches, SendPair, ReadBag, ReadChar;
    Sent8();
    ReachStep(T7(), RetryPair(0));
  }

  lemma Step9()
    ensures Reaches(T8(), T9())
  {
    hide ReadBag, ReadChar, Reaches, Route, FindPair;
    Routes(T8());
    OnFirst(T8().pairs, A, 0);
    assert Bump(T8().loadsQueued, 0, 1) == [2, 1];
    assert Step(T8(), AskLoad(3, A)) == T9();
    ReachStep(T8(), AskLoad(3, A));
  }

  lemma Step9b()
    ensures Reaches(T9(), T9b())
  {
    hide ReadBag, ReadChar, Reaches, Route;
    Routes(T9());
    WritesOfTwo(PAIR1, RELOAD, A);
    assert [PAIR1, RELOAD][1 := RELOADED] == [PAIR1, RELOADED];
    assert Step(T9(), ReadFirst(1)) == T9b();
    ReachStep(T9(), ReadFirst(1));
  }

  lemma Step10()
    ensures Reaches(T9b(), T10())
  {
    hide ReadBag, ReadChar, Reaches, Route;
    Routes(T9b());
    FirstOfTwo(PAIR1, RELOADED);
    assert Step(T9b(), Work(1, true, true)) == T10();
    ReachStep(T9b(), Work(1, true, true));
  }

  lemma Step11()
    ensures Reaches(T10(), T11())
  {
    hide ReadBag, ReadChar, Reaches, Route;
    OnlyJob(PAIR1);
    assert Step(T10(), Work(0, true, true)) == T11();
    ReachStep(T10(), Work(0, true, true));
  }

  lemma Step12()
    ensures Reaches(T11(), T12())
  {
    hide ReadBag, ReadChar, Reaches, Route, FindPair;
    FirstOfTwo(Reply(A, LEFT, 1, true, None), Reply(B, 2, 2, true, None));
    OnFirst(T11().pairs, A, 0);
    var u := T11().(replies := [Reply(B, 2, 2, true, None)], leave := map[]);
    assert map[A := Record(1, true)] - {A} == map[];
    assert OnSaveReply(Tail(T11()), T11().replies[0]) == u;
    SetIn(Side(A, LEFT, 1, false, 2), Side(B, 2, 2, false, 2), Side(A, LEFT, 1, true, 2));
    SetIn(T11().pairs[0], T11().pairs[0], T12().pairs[0]);
    assert OnPairReply(u, T11().replies[0]) == T12();
    ReachStep(T11(), Answer);
  }

  lemma HalfAnswered()
    ensures Reaches(T0(), T12())
  {
    hide Reaches, T0, T1, T2, T3, T4, T5, T6, T7, T8, T9, T9b, T10, T11, T12;
    Step1();
    Step2(); ReachTrans(T0(), T1(), T2());
    Step3(); ReachTrans(T0(), T2(), T3());
    Step4(); ReachTrans(T0(), T3(), T4());
    Step5(); ReachTrans(T0(), T4(), T5());
    Step6(); ReachTrans(T0(), T5(), T6());
    Step7(); ReachTrans(T0(), T6(), T7());
    Step8(); ReachTrans(T0(), T7(), T8());
    Step9(); ReachTrans(T0(), T8(), T9());
    Step9b(); ReachTrans(T0(), T9(), T9b());
    Step10(); ReachTrans(T0(), T9b(), T10());
    Step11(); ReachTrans(T0(), T10(), T11());
    Step12(); ReachTrans(T0(), T11(), T12());
  }

  // ----- the server is stopped now

  /** B is hit once more. */
  function B13(): Player { B8().(values := Stats(5, 100)) }

  function T13(): World {
    T12().(players := map[2 := B13()], hist := map[A := HistA(), B := HistB() + [SnapOf(B13())]])
  }

  lemma Step13()
    ensures Reaches(T12(), T13())
  {
    hide ReadBag, ReadChar, Reaches, GoodBag, SnapOf, Plays, Played;
    Hit();
    Changes(T12(), 2, B13(), T13());
  }

  lemma Hit()
    ensures 2 in T12().players && Plays(T12().table, T12().players[2], B13()) && Played(T12(), 2, B13()) == T13()
  {
    hide ReadBag, ReadChar, SnapOf, Plays, T12, B13;
    Fields12();
    HitPlays();
    assert (map[2 := B8()])[2 := B13()] == map[2 := B13()];
    assert (map[A := HistA(), B := HistB()])[B := HistB() + [SnapOf(B13())]]
           == map[A := HistA(), B := HistB() + [SnapOf(B13())]];
    HitAccount();
  }

  lemma HitAccount()
    ensures B13().account == B
  {
  }

  lemma HitPlays()
    ensures Plays(map[], B8(), B13())
  {
    hide ReadBag, GoodBag;
    NoBagIsGood();
  }

  lemma Fields12()
    ensures T12().table == map[] && T12().players == map[2 := B8()] && T12().hist == map[A := HistA(), B := HistB()]
    ensures T12() == World(map[], 2, 10, map[2 := B8()], map[], [Link(1, true, 2, false, true, true)], 1, 1, [], [],
                           [0, 4], [2, 1],
                           [Reply(B, 2, 2, true, None)], [OLD], Db12(), map[B := 2], {1, 2},
                           map[A := HistA(), B := HistB()], map[A := 2, B := 2], map[A := 2, B := 2],
                               [Trade(A, B, 2, 2)], {})
  {
    hide ReadBag, ReadChar;
  }

  /** What every way of stopping ends with: B's last state is not stored, and B is counted. */
  ghost predicate LeavesBBehind(w: World, h: Halt) {
    && HistOf(w, B) != [] && Stored(h.w, B) != Last(w, B)
    && (h.phase.Pairing? ==> B in h.w.leave)
    && (h.phase.Pairing? && h.phase.next < |h.w.pairs| ==>
          |h.w.pairs| == 1 && TwoSided(h.w.pairs[0]) && !FindsBoth(h.w, 0))
  }

  lemma OneStop(w0: World, before: seq<Action>, moves: seq<Move>)
    requires Initial(w0) && FreeRun(w0, before) && Ran(w0, before) == T13() && CanHalt(Halting(T13()), moves)
    ensures LeavesBBehind(T13(), Halted(Halting(T13()), moves))
  {
    hide T13, FreeRun, Ran, CanHalt, Halted, SideGone, FindsBoth, Stored, Halting, Initial, HaltOk, Follows, Inv,
         Nearer, TwoSided;
    var w, h := T13(), Halted(Halting(T13()), moves);
    Behind();
    OtherSideIsLost(w0, before, moves, 0, 0);
    StopSound(w0, before, moves);
    StartFollows(w);
    HaltFollows(w, Halting(w), moves);
    assert |h.w.pairs| == 1 by { FollowsSides(w, h); }
    if h.phase.Pairing? && h.phase.next < |h.w.pairs| { LinkFindsBoth(w0, before, moves, 0); }
  }

  lemma FollowsSides(w: World, h: Halt)
    requires Follows(w, h)
    ensures |h.w.pairs| == |w.pairs|
  {
  }

  /** A side is missing: in this run the link of A and B has lost A's side, and B has moved on since the pair was made.
      However the server is stopped, nothing more is written for B, its last state is not stored, and B is counted. */
  lemma StoppedHalfAnswered() returns (w0: World, before: seq<Action>)
    ensures Initial(w0) && FreeRun(w0, before) && SideGone(Ran(w0, before), 0, 0)
    ensures forall moves :: CanHalt(Halting(Ran(w0, before)), moves) ==>
              LeavesBBehind(Ran(w0, before), Halted(Halting(Ran(w0, before)), moves))
  {
    hide Reaches, T0, T12, T13, FreeRun, Ran, CanHalt, Halted, SideGone, LeavesBBehind, Halting, Initial;
    HalfAnswered();
    Step13();
    ReachTrans(T0(), T12(), T13());
    StartsAt();
    w0 := T0();
    before := RunTo(T0(), T13());
    Behind();
    forall moves | CanHalt(Halting(T13()), moves) ensures LeavesBBehind(T13(), Halted(Halting(T13()), moves)) {
      OneStop(w0, before, moves);
    }
  }

  lemma Behind()
    ensures var w := T13();
            && SideGone(w, 0, 0) && |w.pairs| == 1 && w.pairs[0].sides[1].account == B
            && |HistOf(w, B)| == 4 && DbAt(w, B) == 2 && Stored(w, B) != Last(w, B)
  {
    hide ReadBag;
  }

  lemma StartsAt()
    ensures Initial(T0())
  {
    hide ReadChar;
    StartIsInitial(map[], 2, Db0());
  }
}
