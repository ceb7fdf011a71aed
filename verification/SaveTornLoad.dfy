/** A run in which a load reads an account's row before a pair of another worker is committed and its bag after that.

    A player gives its money for a sword, and the pair fails. The player leaves, and asks for its character again. Its
    worker reads the row; the other worker commits the pair, which is sent once more; then the bag is read. Both replies
    and the load are handled in one drain: the record is confirmed and the link released before the load is looked at,
    and the player is let in with the money it has paid and the sword it has bought. */
module SaveTornLoad {
  import opened Items
  import opened Seqs
  import opened SaveTypes
  import opened SaveSteps
  import opened SaveInvariant
  import opened SaveViews
  import opened SaveReplies
  import opened SaveArrivals
  import opened SaveLoads
  import opened SaveRuns
  import opened SaveTheorems
  import opened SaveScenes

  const A: Account := 1
  const B: Account := 4

  function RowOf(money: int): CharRow { CharRow(HOME, Stats(10, money)) }

  function NoBag(): seq<Item> { ReadBag(TABLE, map[]) }

  function Mine(a: Account, bag: seq<Item>, money: int, saved: int, marks: set<nat>, f: Flight): Player {
    Player(a, HOME, false, Stats(10, money), false, Stats(10, saved), bag, marks, f, Track(false, None, false, false))
  }

  function Idle(saved: int): Flight { Flight(1, 0, false, false, false, false, Stats(10, saved), {}) }

  function Flying1(n: nat, saved: int, slots: set<nat>): Flight {
    Flight(n + 1, n, false, false, false, true, Stats(10, saved), slots)
  }

  function Snapped(money: int, bag: seq<Item>): Snap { Snap(Some(RowOf(money)), bag) }

  function Db0(): map<Account, DbChar> {
    map[A := DbChar(Some(RowOf(0)), map[0 := SWORD]), B := DbChar(Some(RowOf(100)), map[])]
  }

  function T0(): World { Start(TABLE, 2, Db0()) }

  // ----- the two players enter

  function A1(): Player { Mine(A, At(0), 0, 0, {}, Idle(0)) }

  function B1(): Player { Mine(B, NoBag(), 100, 100, {}, Idle(100)) }

  function T1(): World {
    World(TABLE, 2, 10, map[1 := A1()], map[], [], 0, 0, [], [], [0, 0], [0, 1], [], [], Db0(), map[A := 1], {1},
          map[A := [Snapped(0, At(0)), Snapped(0, At(0))], B := [Snapped(100, NoBag())]], map[], map[], [], {})
  }

  function T2(): World {
    T1().(players := map[1 := A1(), 2 := B1()], owner := map[A := 1, B := 2], used := {1, 2}, loadsQueued := [1, 1],
          hist := map[A := [Snapped(0, At(0)), Snapped(0, At(0))], B := [Snapped(100, NoBag()), Snapped(100, NoBag())]])
  }

  // ----- B gives a hundred for the sword; their pair is queued

  function A2(): Player { Mine(A, NoBag(), 100, 0, {0}, Idle(0)) }

  function B2(): Player { Mine(B, At(0), 0, 100, {0}, Idle(100)) }

  function HistA(): seq<Snap> { [Snapped(0, At(0)), Snapped(0, At(0)), Snapped(100, NoBag())] }

  function HistB(): seq<Snap> { [Snapped(100, NoBag()), Snapped(100, NoBag()), Snapped(0, At(0))] }

  /** The two players after the swap, on the new link. */
  function T2b(): World {
    T2().(players := map[1 := Hold(A2()), 2 := Hold(B2())], hist := map[A := HistA(), B := HistB()],
          pairs := [PairLink([Side(A, 1, 0, false, 2), Side(B, 2, 0, false, 2)], true, false)],
              trades := [Trade(A, B, 2, 2)])
  }

  function Sold(): map<nat, Item> { map[0 := EMPTY_ITEM] }

  function Bought(): map<nat, Item> { map[0 := SWORD] }

  const PAIR0 := Pair(Write(A, 1, 1, RowOf(100), Sold(), Some(B), 2), Write(B, 2, 1, RowOf(0), Bought(), Some(A), 2))

  function A3(): Player { Mine(A, NoBag(), 100, 100, {}, Flying1(1, 0, {0})) }

  function B3(): Player { Mine(B, At(0), 0, 0, {}, Flying1(1, 100, {0})) }

  function Link(s: Session, n0: nat, r0: bool, n1: nat, r1: bool, ok: bool, f: bool): PairLink {
    PairLink([Side(A, 1, n0, r0, 2), Side(B, s, n1, r1, 2)], ok, f)
  }

  function T3(): World {
    T2b().(players := map[1 := A3(), 2 := B3()], inflight := 2, pairs := [Link(2, 1, false, 1, false, true, true)],
           jobs := [PAIR0], bundles := [0, 2], issued := map[A := 1, B := 1])
  }

  // ----- B leaves, and the pair fails

  function Record(n: nat, f: bool): LeaveRecord { LeaveRecord(RowOf(0), Bought(), n, f, true, 2) }

  function T4(): World {
    T3().(players := map[1 := A3()], owner := map[A := 1], inflight := 1,
          pairs := [Link(LEFT, 1, false, 1, false, true, true)],
          leave := map[B := Record(0, false)])
  }

  function T5(): World {
    T4().(jobs := [], replies := [Reply(A, 1, 1, false, None), Reply(B, 2, 1, false, None)])
  }

  function A6(): Player { Mine(A, NoBag(), 100, 0, {0}, Flight(2, 0, false, false, false, true, Stats(10, 0), {})) }

  function T6(): World {
    T5().(players := map[1 := A6()], inflight := 0, replies := [Reply(B, 2, 1, false, None)],
          pairs := [Link(LEFT, 1, true, 1, false, false, true)])
  }

  /** Written out: nothing is queued, B's record is held. */
  function T7(): World {
    World(TABLE, 2, 10, map[1 := A6()], map[B := Record(0, false)], [Link(LEFT, 1, true, 1, true, false, false)], 0, 0,
          [],
          [], [0, 2], [1, 1], [], [], Db0(), map[A := 1], {1, 2}, map[A := HistA(), B := HistB()], map[],
              map[A := 1, B := 1],
          [Trade(A, B, 2, 2)], {})
  }

  // ----- B's load is queued, the pair is sent again; the row is read before it is committed, the bag after

  const LOAD := Load(B, 3, 1, false, None)

  function T8(): World { T7().(jobs := [LOAD], loadsQueued := [2, 1]) }

  const PAIR1 := Pair(Write(A, 1, 2, RowOf(100), Sold(), Some(B), 2), Write(B, LEFT, 1, RowOf(0), Bought(), Some(A), 2))

  function A9(): Player { Mine(A, NoBag(), 100, 100, {}, Flying1(2, 0, {0})) }

  function T8a(): World { T8().(players := map[1 := A9()], inflight := 1) }

  function T8b(): World { T8a().(leaveSeq := 1, leave := map[B := Record(1, true)]) }

  function T9(): World {
    T8b().(pairs := [Link(LEFT, 2, false, 1, false, true, true)], jobs := [LOAD, PAIR1], bundles := [0, 4],
           issued := map[A := 2, B := 2])
  }

  const LOADED := Load(B, 3, 1, false, Some(RowRead(Some(RowOf(100)), 1, 0)))

  function T10(): World { T9().(jobs := [LOADED, PAIR1]) }

  function Db11(): map<Account, DbChar> {
    map[A := DbChar(Some(RowOf(100)), Sold()), B := DbChar(Some(RowOf(0)), Bought())]
  }

  function T11(): World {
    T10().(jobs := [LOADED], db := Db11(), dbAt := map[A := 2, B := 2],
           replies := [Reply(A, 1, 2, true, None), Reply(B, LEFT, 1, true, None)])
  }

  const TORN := LoadResult(B, 3, Found, DbChar(Some(RowOf(100)), Bought()), 1, 0, 2, true, 1, false)

  function T12(): World { T11().(jobs := [], loads := [TORN]) }

  // ----- one drain: both replies, then the load

  function A13(): Player {
    Mine(A, NoBag(), 100, 100, {}, Flight(3, 0, false, false, false, true, Stats(10, 0), {})).(track := HEARD)
  }

  const HEARD := Track(true, None, false, false)

  function T13(): World {
    T12().(players := map[1 := A13()], inflight := 0, replies := [Reply(B, LEFT, 1, true, None)],
           pairs := [Link(LEFT, 2, true, 1, false, true, true)])
  }

  function A14(): Player {
    Mine(A, NoBag(), 100, 100, {}, Flight(3, 0, false, true, false, false, Stats(10, 0), {})).(track := HEARD)
  }

  /** Written out: both accounts are stored in their last state, and the load is still to be handed on. */
  function T14(): World {
    World(TABLE, 2, 10, map[1 := A14()], map[], [], 1, 0, [1], [], [0, 4], [2, 1], [], [TORN], Db11(), map[A := 1],
          {1, 2},
          map[A := HistA(), B := HistB()], map[A := 2, B := 2], map[A := 2, B := 2], [Trade(A, B, 2, 2)], {})
  }

  function B15(): Player { Mine(B, At(0), 100, 100, {}, Idle(100)) }

  function T15(): World {
    T14().(players := map[1 := A14(), 3 := B15()], owner := map[A := 1, B := 3], used := {1, 2, 3}, loads := [],
           hist := map[A := HistA(), B := HistB() + [Snapped(100, At(0))]])
  }

  // ----- the steps

  lemma Routes(w: World)
    requires w.workers == 2
    ensures Route(w, A) == 1 && Route(w, B) == 0
  {
  }

  lemma NoBagIsGood()
    ensures GoodBag(TABLE, NoBag()) && |NoBag()| == SLOTS && NoBag()[0] == EMPTY_ITEM
    ensures forall i :: 0 <= i < SLOTS ==> NoBag()[i] == EMPTY_ITEM
    ensures NoBag() == ReadBag(TABLE, Sold())
  {
  }

  lemma RowsAre()
    ensures RowsOf(NoBag(), {0}) == Sold() && RowsOf(At(0), {0}) == Bought()
  {
    NoBagIsGood();
  }

  lemma Step1()
    ensures Reaches(T0(), T1())
  {
    hide ReadBag, Reaches, Route, At;
    Routes(T0());
    ReadsAt(Bought(), 0);
    Enters(T0(), 1, A, Stats(10, 0), false);
    assert T0().used + {1} == {1};
    assert T0().bundles == [0, 0] && Bump(T0().loadsQueued, 1, 1) == [0, 1];
    assert HistOf(T0(), A) + [SnapOf(A1())] == [Snapped(0, At(0)), Snapped(0, At(0))];
    assert Entered(T0(), 1, A, Stats(10, 0), false) == T1();
  }

  lemma Step2()
    ensures Reaches(T1(), T2())
  {
    hide ReadBag, Reaches, Route, At;
    Routes(T1());
    Enters(T1(), 2, B, Stats(10, 100), false);
    assert T1().used + {2} == {1, 2};
    assert Bump(T1().loadsQueued, 0, 1) == [1, 1];
    assert HistOf(T1(), B) + [SnapOf(B1())] == [Snapped(100, NoBag()), Snapped(100, NoBag())];
    assert Entered(T1(), 2, B, Stats(10, 100), false) == T2();
  }

  lemma Paying()
    ensures Plays(TABLE, A1(), A2()) && Plays(TABLE, B1(), B2())
  {
    NoBagIsGood();
    AtIsGood(0);
    hide GoodBag, ReadBag;
    assert Marked(At(0), {}, NoBag(), {0}) && Marked(NoBag(), {}, At(0), {0});
  }

  lemma Tied3()
    ensures Swapped(T2(), 1, 2, A2(), B2()).players.Keys == {1, 2} && Swapped(T2(), 1, 2, A2(), B2()).pairs == []
    ensures Tied(Swapped(T2(), 1, 2, A2(), B2()), 1, 2) == T2b()
  {
    hide ReadBag, ReadChar, At;
    var u := Played(T2(), 1, A2());
    assert HistOf(T2(), A) + [SnapOf(A2())] == HistA();
    assert HistOf(u, B) + [SnapOf(B2())] == HistB();
    var v := Played(u, 2, B2());
    assert v.hist == map[A := HistA(), B := HistB()];
    assert v.players == map[1 := A2(), 2 := B2()];
  }

  function T2c(): World { T2b().(players := map[1 := A3(), 2 := Hold(B2())], inflight := 1) }

  function T2d(): World { T2b().(players := map[1 := A3(), 2 := B3()], inflight := 2) }

  lemma Flown3()
    ensures SideReady(T2b(), T2b().pairs[0].sides[0]) && Flown(T2b(), T2b().pairs[0].sides[0]) == T2c()
    ensures SideReady(T2c(), T2b().pairs[0].sides[1]) && Flown(T2c(), T2b().pairs[0].sides[1]) == T2d()
    ensures HeadOf(T2b(), T2b().pairs[0].sides[0], B) == PAIR0.first
    ensures HeadOf(T2c(), T2b().pairs[0].sides[1], A) == PAIR0.second
  {
    hide ReadBag, ReadChar, RowsOf, At;
    RowsAre();
  }

  lemma Sent3()
    ensures SendPair(T2b(), 0) == T3()
  {
    hide ReadBag, ReadChar, SendPair, Flown, SideReady, HeadOf, Route, At;
    Routes(T2b());
    Routes(T2d());
    Flown3();
    var q := PushPair(T2d(), PAIR0.first, PAIR0.second);
    assert q.bundles == [0, 2] && q.issued == map[A := 1, B := 1] && q.jobs == [PAIR0];
    SendsPair(T2b(), T2c(), T2d(), PAIR0.first, PAIR0.second, T3());
  }

  lemma Step3()
    ensures Reaches(T2(), T3())
  {
    hide ReadBag, ReadChar, Reaches, At, SendPair, Tied, Plays;
    TradeIs(Swapped(T2(), 1, 2, A2(), B2()), 1, 2);
    Tied3();
    Sent3();
    Paying();
    assert Step(T2(), Swap(1, 2, A2(), B2())) == T3();
    ReachStep(T2(), Swap(1, 2, A2(), B2()));
  }

  lemma Step4()
    ensures Reaches(T3(), T4())
  {
    hide ReadBag, ReadChar, Reaches, RowsOf, FindPair, At;
    RowsAre();
    OnFirst(T3().pairs, B, 1);
    assert T3().players[2 := Emptied(B3())] - {2} == map[1 := A3()];
    assert T3().owner - {B} == map[A := 1];
    assert B3().unsaved + B3().flight.slots == {0};
    SetIn(Side(A, 1, 1, false, 2), Side(B, 2, 1, false, 2), Side(B, LEFT, 1, false, 2));
    SetIn(T3().pairs[0], T3().pairs[0], T4().pairs[0]);
    assert Detach(T3().pairs, B) == T4().pairs;
    assert Step(T3(), Depart(2)) == T4();
    ReachStep(T3(), Depart(2));
  }

  lemma Step5()
    ensures Reaches(T4(), T5())
  {
    hide ReadBag, ReadChar, Reaches, At;
    OnlyJob(PAIR0);
    assert Step(T4(), Work(0, false, false)) == T5();
    ReachStep(T4(), Work(0, false, false));
  }

  lemma Step6()
    ensures Reaches(T5(), T6())
  {
    hide ReadBag, ReadChar, Reaches, FindPair, At;
    FirstOfTwo(Reply(A, 1, 1, false, None), Reply(B, 2, 1, false, None));
    OnFirst(T5().pairs, A, 0);
    var u := T5().(players := map[1 := A6()], inflight := 0, replies := [Reply(B, 2, 1, false, None)]);
    SetIn(Side(A, 1, 1, false, 2), Side(B, LEFT, 1, false, 2), Side(A, 1, 1, true, 2));
    SetIn(T5().pairs[0], T5().pairs[0], T6().pairs[0]);
    assert (map[1 := A3()])[1 := A6()] == map[1 := A6()];
    assert LandedFailed(A3(), T5().replies[0]) == A6();
    assert OnSaveReply(Tail(T5()), T5().replies[0]) == u;
    assert OnPairReply(u, T5().replies[0]) == T6();
    ReachStep(T5(), Answer);
  }

  lemma Step7()
    ensures Reaches(T6(), T7())
  {
    hide ReadBag, ReadChar, Reaches, FindPair, At;
    OnlyJob(Reply(B, 2, 1, false, None));
    OnFirst(T6().pairs, B, 1);
    SetIn(Side(A, 1, 1, true, 2), Side(B, LEFT, 1, false, 2), Side(B, LEFT, 1, true, 2));
    SetIn(T6().pairs[0], T6().pairs[0], T7().pairs[0]);
    assert OnSaveReply(Tail(T6()), T6().replies[0]) == Tail(T6());
    assert OnPairReply(Tail(T6()), T6().replies[0]) == T7();
    ReachStep(T6(), Answer);
  }

  lemma Step8()
    ensures Reaches(T7(), T8())
  {
    hide ReadBag, ReadChar, Reaches, Route, FindPair, At;
    Routes(T7());
    OnFirst(T7().pairs, B, 1);
    assert Bump(T7().loadsQueued, 0, 1) == [2, 1];
    assert Step(T7(), AskLoad(3, B)) == T8();
    ReachStep(T7(), AskLoad(3, B));
  }

  lemma Flown9()
    ensures SideReady(T8(), T8().pairs[0].sides[0]) && Flown(T8(), T8().pairs[0].sides[0]) == T8a()
    ensures SideReady(T8a(), T8().pairs[0].sides[1]) && Flown(T8a(), T8().pairs[0].sides[1]) == T8b()
    ensures HeadOf(T8(), T8().pairs[0].sides[0], B) == PAIR1.first
    ensures HeadOf(T8a(), T8().pairs[0].sides[1], A) == PAIR1.second
  {
    hide ReadBag, ReadChar, RowsOf, At;
    RowsAre();
  }

  lemma Step9()
    ensures Reaches(T8(), T9())
  {
    hide ReadBag, ReadChar, Reaches, SendPair, Flown, SideReady, HeadOf, Route, At;
    Routes(T8());
    Routes(T8b());
    Flown9();
    var q := PushPair(T8b(), PAIR1.first, PAIR1.second);
    assert q.bundles == [0, 4] && q.issued == map[A := 2, B := 2] && q.jobs == [LOAD, PAIR1];
    SendsPair(T8(), T8a(), T8b(), PAIR1.first, PAIR1.second, T9());
    ReachStep(T8(), RetryPair(0));
  }

  lemma Step10()
    ensures Reaches(T9(), T10())
  {
    hide ReadBag, ReadChar, Reaches, Route, At;
    WritesOfTwo(LOAD, PAIR1, B);
    assert [LOAD, PAIR1][0 := LOADED] == [LOADED, PAIR1];
    assert Step(T9(), ReadFirst(0)) == T10();
    ReachStep(T9(), ReadFirst(0));
  }

  lemma Stored11(w: World)
    requires w.db == Db0() && w.dbAt == map[]
    ensures StoreJob(w, PAIR1) == w.(db := Db11(), dbAt := map[A := 2, B := 2])
  {
    assert Bought() + Sold() == Sold() && map[] + Bought() == Bought();
  }

  lemma Step11()
    ensures Reaches(T10(), T11())
  {
    hide ReadBag, ReadChar, Reaches, Route, At, StoreJob, Db11, Db0;
    Routes(T10());
    FirstOfTwo(LOADED, PAIR1);
    Stored11(T10());
    assert Step(T10(), Work(1, true, true)) == T11();
    ReachStep(T10(), Work(1, true, true));
  }

  lemma Step12()
    ensures Reaches(T11(), T12())
  {
    hide ReadBag, ReadChar, Reaches, Route, At;
    OnlyJob(LOADED);
    assert Step(T11(), Work(0, true, true)) == T12();
    ReachStep(T11(), Work(0, true, true));
  }

  lemma Step13()
    ensures Reaches(T12(), T13())
  {
    hide ReadBag, ReadChar, Reaches, FindPair, At;
    FirstOfTwo(Reply(A, 1, 2, true, None), Reply(B, LEFT, 1, true, None));
    OnFirst(T12().pairs, A, 0);
    var u := T12().(players := map[1 := A13()], inflight := 0, replies := [Reply(B, LEFT, 1, true, None)]);
    SetIn(Side(A, 1, 2, false, 2), Side(B, LEFT, 1, false, 2), Side(A, 1, 2, true, 2));
    SetIn(T12().pairs[0], T12().pairs[0], T13().pairs[0]);
    assert (map[1 := A9()])[1 := A13()] == map[1 := A13()];
    assert OnSaveReply(Tail(T12()), T12().replies[0]) == u;
    assert OnPairReply(u, T12().replies[0]) == T13();
    ReachStep(T12(), Answer);
  }

  lemma Released14()
    ensures ReleasePairSide(ReleasePairSide(T14().(players := map[1 := A13()], tickEnd := []), Side(A, 1, 2, true, 2)),
                            Side(B, LEFT, 1, true, 2)) == T14()
  {
    hide ReadBag, ReadChar, At;
    assert (map[1 := A13()])[1 := A14()] == map[1 := A14()];
  }

  lemma Step14()
    ensures Reaches(T13(), T14())
  {
    hide ReadBag, ReadChar, Reaches, FindPair, At, ReleasePairSide;
    var r := T13().replies[0];
    OnlyJob(r);
    OnFirst(T13().pairs, B, 1);
    var u := T13().(replies := [], leave := map[]);
    assert map[B := Record(1, true)] - {B} == map[];
    assert OnSaveReply(Tail(T13()), r) == u;
    OnlyJob(T13().pairs[0]);
    SetIn(Side(A, 1, 2, true, 2), Side(B, LEFT, 1, false, 2), Side(B, LEFT, 1, true, 2));
    Released14();
    assert OnPairReply(u, r) == T14();
    ReachStep(T13(), Answer);
  }

  lemma Step15()
    ensures Reaches(T14(), T15())
  {
    hide ReadBag, Reaches, FindPair, At;
    OnlyJob(TORN);
    ReadsAt(Bought(), 0);
    NobodyLinked(B);
    assert T14().used + {3} == {1, 2, 3};
    var v := T14().(loads := []);
    assert SpawnedPlayer(v, TORN, HOME, Stats(10, 100), Stats(10, 100), false) == B15();
    assert Step(T14(), HandOn(true, HOME, Stats(10, 100), Stats(10, 100), false)) == T15();
    ReachStep(T14(), HandOn(true, HOME, Stats(10, 100), Stats(10, 100), false));
  }

  lemma NobodyLinked(a: Account)
    ensures FindPair([], a) == 0
  {
  }

  // ----- the run

  lemma ToTheLoad()
    ensures Reaches(T0(), T14())
  {
    hide Reaches, T0, T1, T2, T3, T4, T5, T6, T7, T8, T9, T10, T11, T12, T13, T14;
    Step1();
    Step2(); ReachTrans(T0(), T1(), T2());
    Step3(); ReachTrans(T0(), T2(), T3());
    Step4(); ReachTrans(T0(), T3(), T4());
    Step5(); ReachTrans(T0(), T4(), T5());
    Step6(); ReachTrans(T0(), T5(), T6());
    Step7(); ReachTrans(T0(), T6(), T7());
    Step8(); ReachTrans(T0(), T7(), T8());
    Step9(); ReachTrans(T0(), T8(), T9());
    Step10(); ReachTrans(T0(), T9(), T10());
    Step11(); ReachTrans(T0(), T10(), T11());
    Step12(); ReachTrans(T0(), T11(), T12());
    Step13(); ReachTrans(T0(), T12(), T13());
    Step14(); ReachTrans(T0(), T13(), T14());
  }

  lemma StartsAt()
    ensures Initial(T0())
  {
    hide ReadChar, At;
    StartIsInitial(TABLE, 2, Db0());
  }

  /** The load is handed on as usable, and what it has read is no state the account has ever been in. */
  lemma TornLoadIsHandedOn() returns (w0: World, acts: seq<Action>)
    ensures Initial(w0) && FreeRun(w0, acts) && Ran(w0, acts).loads != []
    ensures var w := Ran(w0, acts);
            var r := w.loads[0];
            && Admits(w, r) && w.stale == {} && r.whole
            && forall i :: 0 <= i < |HistOf(w, r.account)| ==> ReadChar(w.table, r.data) != HistOf(w, r.account)[i]
  {
    hide Reaches, FreeRun, Ran, T0, T14;
    ToTheLoad();
    StartsAt();
    w0 := T0();
    acts := RunTo(T0(), T14());
    NeverSo();
  }

  lemma NeverSo()
    ensures T14().loads == [TORN] && T14().table == TABLE && T14().stale == {} && Admits(T14(), TORN)
    ensures forall i :: 0 <= i < |HistOf(T14(), B)| ==> ReadChar(TABLE, TORN.data) != HistOf(T14(), B)[i]
  {
    ReadsAt(Bought(), 0);
    NoBagIsGood();
    hide ReadBag;
    assert At(0)[0] == SWORD;
  }

  /** The player enters with the sword and the hundred it has paid: of the one hundred there was in the database at the
      start, two are in the game. */
  lemma TornEntryDuplicates() returns (w0: World, acts: seq<Action>)
    ensures Initial(w0) && FreeRun(w0, acts)
    ensures ReadMoney(DbOf(w0, A)) + ReadMoney(DbOf(w0, B)) == 100
    ensures var w := Ran(w0, acts);
            && w.owner == map[A := 1, B := 3] && 1 in w.players && 3 in w.players
            && w.players[1].values.money + w.players[3].values.money == 200 && w.players[3].bag == At(0)
                 && w.stale == {}
  {
    hide Reaches, FreeRun, Ran, T0, T14, T15, At;
    ToTheLoad();
    Step15();
    ReachTrans(T0(), T14(), T15());
    StartsAt();
    w0 := T0();
    acts := RunTo(T0(), T15());
    Twice();
  }

  lemma Twice()
    ensures ReadMoney(DbOf(T0(), A)) == 0 && ReadMoney(DbOf(T0(), B)) == 100
    ensures T15().owner == map[A := 1, B := 3] && T15().players == map[1 := A14(), 3 := B15()] && T15().stale == {}
    ensures A14().values.money == 100 && B15().values.money == 100 && B15().bag == At(0)
  {
    hide ReadBag, At;
  }
}
