/** A run in which a load that is older than the account's last save is handed on as usable, and its player let in.

    The blocked-load rule rests on replies being handled before the loads of the same drain. A retry of a leave
    record queued behind the load, in the same queue, can be confirmed in that same drain: the record is gone when
    the load is looked at, and the load goes through with what it read before. */
module SaveStaleLoad {
  import opened Items
  import opened Seqs
  import opened SaveTypes
  import opened SaveSteps
  import opened SaveInvariant
  import opened SaveViews
  import opened SaveReplies
  import opened SaveArrivals
  import opened SaveLoads
  import opened SaveRuns
  import opened SaveTheorems
  import opened SaveScenes

  function MoneyIn(row: Option<CharRow>): int {
    match row case None => 0 case Some(x) => x.values.money
  }

  /** What a player enters with. Its money is that of the state stored when the row was read. Its account is stale from
      then on exactly if the bag it was read with is not the stored one; of an account stored whole, exactly if the
      state stored when the bag was read has another bag than the one it left in. Neither is out of date if no write of
      the account was queued after the load was asked for, on no link. */
  lemma WhenEntriesAreStale(w0: World, acts: seq<Action>, place: Place, values: Values, saved: Values, dirty: bool)
    requires Initial(w0) && FreeRun(w0, acts) && Ran(w0, acts).loads != []
             && Admits(Ran(w0, acts), Ran(w0, acts).loads[0])
    ensures Enabled(Ran(w0, acts), HandOn(true, place, values, saved, dirty))
    ensures var w := Ran(w0, acts);
            var v := Step(w, HandOn(true, place, values, saved, dirty));
            var r := w.loads[0];
            var a, h := r.account, HistOf(w, r.account);
            && h != [] && r.rowAt <= r.bagAt < |h|
            && r.session in v.players && v.players[r.session].values.money == MoneyIn(h[r.rowAt].row)
            && (a in v.stale <==> v.players[r.session].bag != Stored(v, a).bag)
            && (r.whole && a !in w.stale ==> (a in v.stale <==> h[r.bagAt].bag != Last(w, a).bag))
            && (r.alone && r.after == Issued(w, a) ==>
                  a !in v.stale && v.players[r.session].values.money == MoneyIn(Stored(w, a).row))
  {
    hide Initial, FreeRun, Ran, Inv, LoadsOk, HistOf, WritesFor, RepliesFor, Executed, Issued, Stored, ReadBag,
         SpawnedPlayer, ReadRow;
    var w := Ran(w0, acts);
    var r := w.loads[0];
    RunSound(w0, acts);
    LeaveIsComplete(w0, acts, r.account);
    DroppedLoad(w);
    EntryIs(w, place, values, saved, dirty);
    if r.alone && r.after == Issued(w, r.account) { LoadIsFresh(w, r); FreshBag(w, r); }
  }

  lemma FreshBag(w: World, r: LoadResult)
    requires r.data == DbOf(w, r.account)
    ensures ReadBag(w.table, r.data.bag) == Stored(w, r.account).bag && ReadRow(r.data.row) == Stored(w, r.account).row
  {
    hide ReadBag, ReadRow;
  }

  lemma EntryIs(w: World, place: Place, values: Values, saved: Values, dirty: bool)
    requires w.loads != []
    ensures var r := w.loads[0];
            var v := HandedOn(w, true, place, values, saved, dirty);
            && r.session in v.players && v.players[r.session].bag == ReadBag(w.table, r.data.bag)
            && v.players[r.session].values.money == MoneyIn(ReadRow(r.data.row))
            && Stored(v, r.account) == Stored(w, r.account)
            && (r.account in v.stale <==> ReadBag(w.table, r.data.bag) != Stored(w, r.account).bag)
  {
    hide ReadBag, ReadRow;
  }

  // ----- the run: one worker, one account, one sword

  const ME: Account := 7
  const VALUES := Stats(10, 0)
  const ROW := CharRow(HOME, VALUES)

  ghost predicate OneSword(bag: seq<Item>) { exists k: nat :: k < SLOTS && bag == At(k) }

  /** The rows that move the sword from `j` to `k`. */
  function Rows(j: nat, k: nat): map<nat, Item> { map[j := EMPTY_ITEM, k := SWORD] }

  lemma RowsFromTo(j: nat, k: nat, s: set<nat>)
    requires j < 20 && k < 20 && j != k && s == {j, k}
    ensures RowsOf(At(k), s) == Rows(j, k)
  {
  }

  lemma MovesSword(j: nat, k: nat)
    requires j < 20 && k < 20 && j != k
    ensures Marked(At(j), {}, At(k), {j, k})
  {
  }

  function Db0(): map<Account, DbChar> { map[ME := DbChar(Some(ROW), map[0 := SWORD])] }

  function Flat(saved: Values): Flight { Flight(1, 0, false, false, false, false, saved, {}) }

  function Mine(bag: seq<Item>, marks: set<nat>, f: Flight): Player {
    Player(ME, HOME, false, VALUES, false, VALUES, bag, marks, f, Track(false, None, false, false))
  }

  function Snapped(k: nat): Snap { Snap(Some(ROW), At(k)) }

  function W0(): World { Start(TABLE, 1, Db0()) }

  function W1(): World {
    World(TABLE, 1, 10, map[1 := Mine(At(0), {}, Flat(VALUES))], map[], [], 0, 0, [], [], [0], [1], [], [], Db0(),
          map[ME := 1], {1},
          map[ME := [Snapped(0), Snapped(0)]], map[], map[], [], {})
  }

  function W2(): World {
    W1().(players := map[1 := Mine(At(1), {0, 1}, Flat(VALUES))],
          hist := map[ME := [Snapped(0), Snapped(0), Snapped(1)]])
  }

  function Record(n: nat, f: bool): LeaveRecord { LeaveRecord(ROW, Rows(0, 1), n, f, false, 2) }

  function Attempt(n: nat): Write { LeaveWrite(ME, Record(n, true), None) }

  function W3(): World {
    W2().(players := map[], owner := map[], leave := map[ME := Record(1, true)], leaveSeq := 1,
          jobs := [Save(Attempt(1))], bundles := [1], issued := map[ME := 1])
  }

  function W4(): World { W3().(jobs := [], replies := [Reply(ME, LEFT, 1, false, None)]) }

  function W5(): World { W4().(replies := [], leave := map[ME := Record(1, false)]) }

  const RELOAD := Load(ME, 2, 2, true, None)

  const RELOADED := Load(ME, 2, 2, true, Some(RowRead(Some(ROW), 2, 0)))

  function W6(): World {
    W5().(leave := map[ME := Record(2, true)], leaveSeq := 2, jobs := [Save(Attempt(2)), RELOAD],
          bundles := [2], issued := map[ME := 2], loadsQueued := [2])
  }

  function W7(): World { W6().(jobs := [RELOAD], replies := [Reply(ME, LEFT, 2, false, None)]) }

  function W8(): World { W7().(replies := [], leave := map[ME := Record(2, false)]) }

  function W9(): World {
    W8().(leave := map[ME := Record(3, true)], leaveSeq := 3, jobs := [RELOAD, Save(Attempt(3))],
          bundles := [3], issued := map[ME := 3])
  }

  const OLD := LoadResult(ME, 2, Found, DbChar(Some(ROW), map[0 := SWORD]), 2, 0, 0, true, 2, true)

  function W9b(): World { W9().(jobs := [RELOADED, Save(Attempt(3))]) }

  function W10(): World { W9b().(jobs := [Save(Attempt(3))], loads := [OLD]) }

  function Db11(): map<Account, DbChar> { map[ME := DbChar(Some(ROW), Rows(0, 1))] }

  function W11(): World {
    W10().(jobs := [], replies := [Reply(ME, LEFT, 3, true, None)], db := Db11(), dbAt := map[ME := 2])
  }

  /** The load is handed on as usable here. */
  function W12(): World {
    World(TABLE, 1, 10, map[], map[], [], 3, 0, [], [], [3], [2], [], [OLD], Db11(), map[], {1},
          map[ME := [Snapped(0), Snapped(0), Snapped(1)]], map[ME := 2], map[ME := 3], [], {})
  }

  function W13(): World {
    W12().(players := map[2 := Mine(At(0), {}, Flat(VALUES))], owner := map[ME := 2], used := {1, 2}, loads := [],
           hist := map[ME := [Snapped(0), Snapped(0), Snapped(1), Snapped(0)]], stale := {ME})
  }

  function W14(): World {
    W13().(players := map[2 := Mine(At(2), {0, 2}, Flat(VALUES))],
           hist := map[ME := [Snapped(0), Snapped(0), Snapped(1), Snapped(0), Snapped(2)]])
  }

  function Fourth(): Write { Write(ME, 2, 1, ROW, Rows(0, 2), None, 4) }

  function W15(): World {
    W14().(players := map[2 := Mine(At(2), {}, Flight(2, 1, false, false, false, false, VALUES, {0, 2}))],
           inflight := 1,
           jobs := [Save(Fourth())], bundles := [4], issued := map[ME := 4])
  }

  function W16(): World {
    W15().(jobs := [], replies := [Reply(ME, 2, 1, true, None)],
           db := map[ME := DbChar(Some(ROW), Rows(0, 1) + Rows(0, 2))],
           dbAt := map[ME := 4])
  }

  // ----- the steps

  lemma OneRoute(w: World)
    requires w.workers == 1
    ensures Route(w, ME) == 0
  {
  }

  lemma S0()
    ensures Reaches(W0(), W1())
  {
    hide ReadBag, Reaches, Route, At;
    OneRoute(W0());
    ReadsAt(map[0 := SWORD], 0);
    Enters(W0(), 1, ME, VALUES, false);
    assert W0().used + {1} == {1};
    assert W0().bundles == [0] && Bump(W0().loadsQueued, 0, 1) == [1];
    assert HistOf(W0(), ME) + [Snapped(0)] == [Snapped(0), Snapped(0)];
    assert Entered(W0(), 1, ME, VALUES, false) == W1();
  }

  lemma S1()
    ensures Reaches(W1(), W2())
  {
    hide Reaches, At, GoodBag, Marked;
    AtIsGood(1);
    MovesSword(0, 1);
    assert HistOf(W1(), ME) + [Snapped(1)] == [Snapped(0), Snapped(0), Snapped(1)];
    Changes(W1(), 1, Mine(At(1), {0, 1}, Flat(VALUES)), W2());
  }

  lemma S2()
    ensures Reaches(W2(), W3())
  {
    hide Reaches, At, RowsOf, SendLeaveRecord, Rows;
    var p := Mine(At(1), {0, 1}, Flat(VALUES));
    RowsFromTo(0, 1, p.unsaved + p.flight.slots);
    assert W2().owner - {ME} == map[];
    var u := W2().(players := map[1 := Emptied(p)], owner := map[], leave := map[ME := Record(0, false)]);
    var v := W3().(players := map[1 := Emptied(p)]);
    assert Departed(W2(), 1) == u;
    Resent(u, 0, v);
    assert v.players - {1} == map[];
    assert Step(W2(), Depart(1)) == W3();
    ReachStep(W2(), Depart(1));
  }

  lemma S3()
    ensures Reaches(W3(), W4())
  {
    hide Reaches, At, Rows;
    OnlyJob(Save(Attempt(1)));
    Works(W3(), 0, Attempt(1), false, false, W4());
  }

  lemma S4()
    ensures Reaches(W4(), W5())
  {
    hide Reaches, At, Rows;
    OnlyJob(W4().replies[0]);
    Failed4();
    ReachStep(W4(), Answer);
  }

  lemma Failed4()
    ensures HandleReply(W4()) == W5()
  {
    hide At, Rows;
    var r := Reply(ME, LEFT, 1, false, None);
    OnlyJob(r);
    assert OnSaveReply(W4().(replies := []), r) == W5();
    assert W5().pairs == [];
  }

  /** The record of an idle attempt is sent once more. */
  lemma Resent(w: World, n: nat, v: World)
    requires w.workers == 1 && |w.bundles| == 1 && w.bundles[0] < w.queueMax && w.leaveSeq == n < 10
    requires ME in w.leave && w.leave[ME] == Record(n, false) && w.leave.Keys == {ME}
    requires v == w.(leave := map[ME := Record(n + 1, true)], leaveSeq := n + 1,
                     jobs := w.jobs + [Save(Attempt(n + 1))],
                     bundles := [w.bundles[0] + 1], issued := w.issued[ME := Issued(w, ME) + 1])
    ensures SendLeaveRecord(w, ME) == v
  {
    hide Rows, Route;
    OneRoute(w);
    OneRoute(w.(leaveSeq := n + 1, leave := map[ME := Record(n + 1, true)]));
    assert Bump(w.bundles, 0, 1) == [w.bundles[0] + 1];
    assert w.leave[ME := Record(n + 1, true)] == map[ME := Record(n + 1, true)];
  }

  lemma S5()
    ensures Reaches(W5(), W6())
  {
    hide Reaches, At, Rows, Route, SendLeaveRecord;
    OneRoute(W5());
    var v := W6().(jobs := [Save(Attempt(2))], loadsQueued := [1]);
    Resent(W5(), 1, v);
    assert Bump([1], 0, 1) == [2];
    assert Step(W5(), AskLoad(2, ME)) == W6();
    ReachStep(W5(), AskLoad(2, ME));
  }

  lemma S6()
    ensures Reaches(W6(), W7())
  {
    hide Reaches, At, Rows;
    FirstOfTwo(Save(Attempt(2)), RELOAD);
    Works(W6(), 0, Attempt(2), false, false, W7());
  }

  lemma S7()
    ensures Reaches(W7(), W8())
  {
    hide Reaches, At, Rows;
    OnlyJob(W7().replies[0]);
    assert Step(W7(), Answer) == W8();
    ReachStep(W7(), Answer);
  }

  lemma S8()
    ensures Reaches(W8(), W9())
  {
    hide Reaches, At, Rows, SendLeaveRecord;
    Resent(W8(), 2, W9());
    ReachStep(W8(), Retry(ME));
  }

  lemma S9()
    ensures Reaches(W9(), W9b())
  {
    hide Reaches, At, Rows;
    WritesOfTwo(RELOAD, Save(Attempt(3)), ME);
    assert [RELOAD, Save(Attempt(3))][0 := RELOADED] == [RELOADED, Save(Attempt(3))];
    assert Step(W9(), ReadFirst(0)) == W9b();
    ReachStep(W9(), ReadFirst(0));
  }

  lemma S9b()
    ensures Reaches(W9b(), W10())
  {
    hide Reaches, At, Rows;
    FirstOfTwo(RELOADED, Save(Attempt(3)));
    assert Step(W9b(), Work(0, true, true)) == W10();
    ReachStep(W9b(), Work(0, true, true));
  }

  lemma S10()
    ensures Reaches(W10(), W11())
  {
    hide Reaches, At, Rows, CommitOne;
    OnlyJob(Save(Attempt(3)));
    Stored10(W10());
    Works(W10(), 0, Attempt(3), true, true, W11());
  }

  lemma Stored10(w: World)
    requires w.db == Db0() && w.dbAt == map[]
    ensures CommitOne(w, Attempt(3)) == w.(db := Db11(), dbAt := map[ME := 2])
  {
    assert map[0 := SWORD] + Rows(0, 1) == Rows(0, 1);
  }

  lemma S11()
    ensures Reaches(W11(), W12())
  {
    hide Reaches, At, Rows;
    OnlyJob(W11().replies[0]);
    assert map[ME := Record(3, true)] - {ME} == map[];
    assert Step(W11(), Answer) == W12();
    ReachStep(W11(), Answer);
  }

  lemma S12()
    ensures Reaches(W12(), W13())
  {
    hide Reaches, At, ReadBag;
    OnlyJob(OLD);
    ReadsAt(map[0 := SWORD], 0);
    ReadsAt(Rows(0, 1), 1);
    Differ(0, 1);
    assert W12().used + {2} == {1, 2};
    assert HistOf(W12(), ME) + [Snapped(0)] == [Snapped(0), Snapped(0), Snapped(1), Snapped(0)];
    assert Step(W12(), HandOn(true, HOME, VALUES, VALUES, false)) == W13();
    ReachStep(W12(), HandOn(true, HOME, VALUES, VALUES, false));
  }

  lemma Differ(j: nat, k: nat)
    requires j < SLOTS && k < SLOTS && j != k
    ensures At(j) != At(k)
  {
    assert At(j)[j] != At(k)[j];
  }

  lemma S13()
    ensures Reaches(W13(), W14())
  {
    hide Reaches, At, GoodBag, Marked;
    AtIsGood(2);
    MovesSword(0, 2);
    assert HistOf(W13(), ME) + [Snapped(2)] == [Snapped(0), Snapped(0), Snapped(1), Snapped(0), Snapped(2)];
    Changes(W13(), 2, Mine(At(2), {0, 2}, Flat(VALUES)), W14());
  }

  lemma S14()
    ensures Reaches(W14(), W15())
  {
    hide Reaches, At, RowsOf, Route;
    OneRoute(W14());
    RowsFromTo(0, 2, {0, 2});
    assert Bump([3], 0, 1) == [4];
    Sends(W14(), 2, W15());
  }

  lemma S15()
    ensures Reaches(W15(), W16())
  {
    hide Reaches, At, Rows;
    OnlyJob(Save(Fourth()));
    Works(W15(), 0, Fourth(), true, true, W16());
  }

  // ----- the run

  lemma ToTheLoad()
    ensures Reaches(W0(), W12())
  {
    hide Reaches, W0, W1, W2, W3, W4, W5, W6, W7, W8, W9, W9b, W10, W11, W12;
    S0();
    S1(); ReachTrans(W0(), W1(), W2());
    S2(); ReachTrans(W0(), W2(), W3());
    S3(); ReachTrans(W0(), W3(), W4());
    S4(); ReachTrans(W0(), W4(), W5());
    S5(); ReachTrans(W0(), W5(), W6());
    S6(); ReachTrans(W0(), W6(), W7());
    S7(); ReachTrans(W0(), W7(), W8());
    S8(); ReachTrans(W0(), W8(), W9());
    S9(); ReachTrans(W0(), W9(), W9b());
    S9b(); ReachTrans(W0(), W9b(), W10());
    S10(); ReachTrans(W0(), W10(), W11());
    S11(); ReachTrans(W0(), W11(), W12());
  }

  /** From a server start, with one worker and one account: the load is handed on with the sword in the slot it was in
      before, although the database holds it in the slot it was moved to. */
  lemma StaleLoadIsHandedOn() returns (w0: World, acts: seq<Action>)
    ensures Initial(w0) && FreeRun(w0, acts) && Ran(w0, acts).loads != []
    ensures var w := Ran(w0, acts);
            var r := w.loads[0];
            && Admits(w, r) && r.alone && r.after != Issued(w, r.account) && r.data != DbOf(w, r.account)
  {
    hide Reaches, FreeRun, Ran, W0, Rows;
    ToTheLoad();
    Begins();
    w0 := W0();
    acts := RunTo(W0(), W12());
    assert W12().loads[0] == OLD && DbOf(W12(), ME) == DbChar(Some(ROW), Rows(0, 1));
    assert 1 in Rows(0, 1) by { InRows(); }
    assert 1 !in OLD.data.bag;
  }

  lemma InRows()
    ensures 1 in Rows(0, 1)
  {
  }

  lemma Begins()
    ensures Initial(W0())
  {
    hide At, ReadChar;
    StartIsInitial(TABLE, 1, Db0());
  }

  /** The player is let in and moves the sword once more. The bundle that is committed then carries the marked slots
      only: the database holds the sword twice, while in every state the account has been in there was one. */
  lemma StaleEntryDuplicates() returns (w0: World, acts: seq<Action>)
    ensures Initial(w0) && FreeRun(w0, acts)
    ensures var w := Ran(w0, acts);
            && ME in w.stale
            && (forall i :: 0 <= i < |HistOf(w, ME)| ==> OneSword(HistOf(w, ME)[i].bag))
            && |Stored(w, ME).bag| == SLOTS && Stored(w, ME).bag[1] == SWORD && Stored(w, ME).bag[2] == SWORD
  {
    hide Reaches, FreeRun, Ran, W0, W12, W13, W14, W15, W16, Stored, HistOf, OneSword;
    ToTheLoad();
    S12(); ReachTrans(W0(), W12(), W13());
    S13(); ReachTrans(W0(), W13(), W14());
    S14(); ReachTrans(W0(), W14(), W15());
    S15(); ReachTrans(W0(), W15(), W16());
    Begins();
    Twice();
    w0 := W0();
    acts := RunTo(W0(), W16());
  }

  lemma Twice()
    ensures ME in W16().stale
    ensures forall i :: 0 <= i < |HistOf(W16(), ME)| ==> OneSword(HistOf(W16(), ME)[i].bag)
    ensures |Stored(W16(), ME).bag| == SLOTS && Stored(W16(), ME).bag[1] == SWORD && Stored(W16(), ME).bag[2] == SWORD
  {
    var h := HistOf(W16(), ME);
    assert h == [Snapped(0), Snapped(0), Snapped(1), Snapped(0), Snapped(2)];
    assert OneSword(At(0)) && OneSword(At(1)) && OneSword(At(2));
    var raw := Rows(0, 1) + Rows(0, 2);
    assert DbOf(W16(), ME) == DbChar(Some(ROW), raw);
    assert ReadSlot(TABLE, raw, 1) == SWORD && ReadSlot(TABLE, raw, 2) == SWORD;
  }
}
