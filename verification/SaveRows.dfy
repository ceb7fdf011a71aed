/** The row of a live player: when the copy of the last saved values tells what is stored, and when it does not. */
module SaveRows {
  import opened Items
  import opened Seqs
  import opened SaveTypes
  import opened SaveSteps
  import opened SaveInvariant
  import opened SaveViews
  import opened SaveKeeps
  import opened SaveReplies
  import opened SaveLoads
  import opened SaveRuns
  import opened SaveTheorems
  import opened SaveScenes

  /** Row coverage: for a player with nothing in flight who has had a good reply, what is stored is known. If no failed
      report has hidden a commit since, the stored values are the saved copy, and the stored place is the player's
      unless the player is to be saved anyway or has stopped without being marked. Otherwise the stored row is the one
      that was hidden, so the saved copy is right if and only if that row has its values. */
  lemma RowIsCovered(w0: World, acts: seq<Action>, s: Session)
    requires Initial(w0) && FreeRun(w0, acts) && s in Ran(w0, acts).players
    requires Ran(w0, acts).players[s].flight.bundleNo == 0 && Ran(w0, acts).players[s].track.answered
    ensures var w := Ran(w0, acts);
            var p := w.players[s];
            var row := Stored(w, p.account).row;
            && row.Some?
            && (row.value.values == p.saved <==> (p.track.hidden.Some? ==> p.track.hidden.value.values == p.saved))
            && (p.track.hidden.Some? ==> row == p.track.hidden)
            && (p.track.hidden.None? ==> row.value.place == p.place || p.dirty || p.moving || p.track.stopped)
  {
    hide Initial, FreeRun, Ran, Inv, LoadsOk, ViewOf, ViewOk, Stored, Base;
    var w := Ran(w0, acts);
    RunSound(w0, acts);
    var a := w.players[s].account;
    Ownership(w, s) by { InvBase(w); }
    TheView(w, a);
    ViewParts(w, a);
    RowOfView(w.table, ViewOf(w, a), a, w.players[s]);
  }

  lemma RowOfView(table: ItemTable, v: View, a: Account, p: Player)
    requires ViewOk(table, v, a) && v.live == Some(p) && p.flight.bundleNo == 0
    ensures RowKnown(v, p, p.saved, p.track.stopped)
  {
    hide HistoryOk, QueueOk, Agree;
  }

  /** A player the period would not save is stored as it is, row and whole bag, if it has had a good reply and no failed
      report has hidden a commit since, and it did not stop unmarked; of a stale account, the row is. After a hidden
      commit its row is stored if and only if it is the hidden one. */
  lemma NotSavedIsStored(w0: World, acts: seq<Action>, s: Session)
    requires Initial(w0) && FreeRun(w0, acts) && s in Ran(w0, acts).players
    requires var p := Ran(w0, acts).players[s];
             !ShouldSave(p) && p.flight.bundleNo == 0 && p.track.answered
    ensures var w := Ran(w0, acts);
            var p := w.players[s];
            var now := SnapOf(p);
            && (p.track.hidden.Some? ==> (Stored(w, p.account).row == now.row <==> p.track.hidden == now.row))
            && (p.track.hidden.None? && !p.track.stopped ==> Stored(w, p.account).row == now.row)
            && (p.account !in w.stale ==> (Stored(w, p.account) == now <==> Stored(w, p.account).row == now.row))
  {
    hide Initial, FreeRun, Ran, Stored;
    RowIsCovered(w0, acts, s);
    LiveIsCovered(w0, acts, s);
    var w := Ran(w0, acts);
    var p := w.players[s];
    if p.account !in w.stale { assert Stored(w, p.account).bag == p.bag; }
  }

  // ----- two runs with one worker and one account that end with a player who looks saved and is not

  const ME: Account := 7
  const FULL := Stats(10, 0)
  const HURT := Stats(5, 0)
  const DEAD := Stats(0, 0)
  const AWAY := Place(3.0, 4.0, 1)
  const BEFORE := CharRow(HOME, FULL)
  const HIDDEN := CharRow(HOME, HURT)

  function R0(): World { Start(map[], 1, map[]) }

  function Me0(): Player {
    Player(ME, HOME, false, FULL, true, FULL, ReadBag(map[], map[]), {},
           Flight(1, 0, false, false, false, false, FULL, {}),
           Track(false, None, false, false))
  }

  function R1(): World {
    R0().(players := map[1 := Me0()], owner := map[ME := 1], used := {1}, loadsQueued := [1],
          hist := map[ME := [ReadChar(map[], NO_CHAR), SnapOf(Me0())]])
  }

  function Me1(): Player { Committed(Prepared(Me0()), 1) }

  function First(): Write { Write(ME, 1, 1, BEFORE, map[], None, 1) }

  function R2(): World {
    R1().(players := map[1 := Me1()], jobs := [Save(First())], bundles := [1], issued := map[ME := 1], inflight := 1)
  }

  function R3(): World {
    R2().(jobs := [], replies := [Reply(ME, 1, 1, true, None)], db := map[ME := DbChar(Some(BEFORE), map[])],
          dbAt := map[ME := 1])
  }

  function Me4(): Player { LandedOk(Me1()) }

  function R4(): World { R3().(players := map[1 := Me4()], replies := [], inflight := 0) }

  lemma NoRows(bag: seq<Item>)
    ensures RowsOf(bag, {}) == map[]
  {
  }

  lemma SetOne(p: Player, q: Player)
    ensures (map[1 := p])[1 := q] == map[1 := q]
  {
  }

  lemma OneRoute(w: World, a: Account)
    requires w.workers == 1
    ensures Route(w, a) == 0
  {
  }

  lemma Step1()
    ensures Reaches(R0(), R1())
  {
    hide ReadBag, Reaches;
    OneRoute(R0(), ME);
    Enters(R0(), 1, ME, FULL, true);
    assert R0().used + {1} == {1} && R0().hist == map[];
    assert Bump(R0().loadsQueued, 0, 1) == [1];
    assert HistOf(R0(), ME) + [SnapOf(Me0())] == [ReadChar(map[], NO_CHAR), SnapOf(Me0())];
    assert Entered(R0(), 1, ME, FULL, true) == R1();
  }

  lemma Step2()
    ensures Reaches(R1(), R2())
  {
    hide ReadBag, ReadChar, Reaches, SnapOf, Prepared, Committed;
    OneRoute(R1(), ME);
    NoRows(Me0().bag);
    SetOne(Me0(), Me1());
    Sends(R1(), 1, R2());
  }

  lemma Step3()
    ensures Reaches(R2(), R3())
  {
    hide ReadBag, ReadChar, Reaches;
    assert Upsert(NO_CHAR, First()) == DbChar(Some(BEFORE), map[]);
    OnlyJob(Save(First()));
    Works(R2(), 0, First(), true, true, R3());
  }

  lemma Step4()
    ensures Reaches(R3(), R4())
  {
    hide ReadBag, ReadChar, Reaches, SnapOf, LandedOk;
    SetOne(Me1(), Me4());
    HearsLive(R3(), Reply(ME, 1, 1, true, None), R4());
  }

  /** A player whose first bundle has been confirmed. */
  lemma Confirmed()
    ensures Reaches(R0(), R4())
  {
    hide Reaches, R0, R1, R2, R3, R4;
    Step1();
    Step2();
    ReachTrans(R0(), R1(), R2());
    Step3();
    ReachTrans(R0(), R2(), R3());
    Step4();
    ReachTrans(R0(), R3(), R4());
  }

  // ----- a commit that was reported as a failure

  function Me5(): Player { Me4().(values := HURT) }

  function R5(): World { R4().(players := map[1 := Me5()], hist := map[ME := R4().hist[ME] + [SnapOf(Me5())]]) }

  function Me6(): Player { Committed(Prepared(Me5()), 2) }

  function Second(): Write { Write(ME, 1, 2, HIDDEN, map[], None, 2) }

  function R6(): World {
    R5().(players := map[1 := Me6()], jobs := [Save(Second())], bundles := [2], issued := map[ME := 2], inflight := 1)
  }

  function R7(): World {
    R6().(jobs := [], replies := [Reply(ME, 1, 2, false, Some(HIDDEN))], db := map[ME := DbChar(Some(HIDDEN), map[])],
          dbAt := map[ME := 2])
  }

  function Me8(): Player { LandedFailed(Me6(), Reply(ME, 1, 2, false, Some(HIDDEN))) }

  function R8(): World { R7().(players := map[1 := Me8()], replies := [], inflight := 0) }

  function Me9(): Player { Me8().(values := FULL) }

  function R9(): World { R8().(players := map[1 := Me9()], hist := map[ME := R8().hist[ME] + [SnapOf(Me9())]]) }

  lemma EmptyBagIsGood()
    ensures GoodBag(map[], ReadBag(map[], map[]))
  {
  }

  lemma Me4Is()
    ensures Me4() == Player(ME, HOME, false, FULL, false, FULL, ReadBag(map[], map[]), {},
                            Flight(2, 0, false, false, true, false, FULL, {}), Me4().track)
  {
    hide ReadBag;
  }

  lemma Step5()
    ensures Reaches(R4(), R5())
  {
    hide ReadBag, ReadChar, Reaches, SnapOf, GoodBag;
    EmptyBagIsGood();
    SetOne(Me4(), Me5());
    Changes(R4(), 1, Me5(), R5());
  }

  lemma Step6()
    ensures Reaches(R5(), R6())
  {
    hide ReadBag, ReadChar, Reaches, SnapOf, Prepared, Committed;
    OneRoute(R5(), ME);
    NoRows(Me5().bag);
    Me4Is();
    SetOne(Me5(), Me6());
    Sends(R5(), 1, R6());
  }

  lemma Step7()
    ensures Reaches(R6(), R7())
  {
    hide ReadBag, ReadChar, Reaches, SnapOf;
    assert Upsert(DbChar(Some(BEFORE), map[]), Second()) == DbChar(Some(HIDDEN), map[]);
    OnlyJob(Save(Second()));
    Works(R6(), 0, Second(), true, false, R7());
  }

  lemma Step8()
    ensures Reaches(R7(), R8())
  {
    hide ReadBag, ReadChar, Reaches, SnapOf, LandedFailed;
    SetOne(Me6(), Me8());
    HearsLive(R7(), Reply(ME, 1, 2, false, Some(HIDDEN)), R8());
  }

  lemma Step9()
    ensures Reaches(R8(), R9())
  {
    hide ReadBag, ReadChar, Reaches, SnapOf, GoodBag;
    EmptyBagIsGood();
    SetOne(Me8(), Me9());
    Changes(R8(), 1, Me9(), R9());
  }

  /** The player is hurt, and a bundle that says so is committed but reported as failed; the player heals. Nothing is in
      flight, nothing is to be saved, and the database holds the hurt player. */
  lemma HiddenCommitIsMissed() returns (w0: World, acts: seq<Action>)
    ensures Initial(w0) && FreeRun(w0, acts) && 1 in Ran(w0, acts).players
    ensures var w := Ran(w0, acts);
            var p := w.players[1];
            && p.track.answered && p.flight.bundleNo == 0 && !ShouldSave(p) && !p.track.stopped && p.account !in w.stale
            && Stored(w, p.account).row.Some? && Stored(w, p.account).row.value.values != p.values
  {
    hide Reaches, R0, R1, R2, R3, R4, R5, R6, R7, R8, R9, FreeRun, Ran;
    Confirmed();
    Step5();
    ReachTrans(R0(), R4(), R5());
    Step6();
    ReachTrans(R0(), R5(), R6());
    Step7();
    ReachTrans(R0(), R6(), R7());
    Step8();
    ReachTrans(R0(), R7(), R8());
    Step9();
    ReachTrans(R0(), R8(), R9());
    Missed();
    w0 := R0();
    StartIsInitial(map[], 1, map[]) by { StartsAt(); }
    StartsAt();
    acts := RunTo(R0(), R9());
  }

  lemma StartsAt()
    ensures R0() == Start(map[], 1, map[]) && GoodTable(map[])
  {
  }

  lemma Missed()
    ensures R9().players == map[1 := Me9()] && !ShouldSave(Me9()) && Me9().account == ME && Me9().values == FULL
    ensures Me9().track == Track(true, Some(HIDDEN), false, false) && Me9().flight.bundleNo == 0 && R9().stale == {}
    ensures Stored(R9(), ME).row == Some(HIDDEN)
  {
    hide ReadBag, SnapOf;
  }

  // ----- a player who dies on the way and revives on the spot

  function Me10(): Player { Me4().(place := AWAY, moving := true) }

  function R10(): World { R4().(players := map[1 := Me10()], hist := map[ME := R4().hist[ME] + [SnapOf(Me10())]]) }

  function Me11(): Player { Me10().(moving := false, values := DEAD, track := Track(true, None, true, true)) }

  function R11(): World { R10().(players := map[1 := Me11()], hist := map[ME := R10().hist[ME] + [SnapOf(Me11())]]) }

  function Me12(): Player { Me11().(values := FULL) }

  function R12(): World { R11().(players := map[1 := Me12()], hist := map[ME := R11().hist[ME] + [SnapOf(Me12())]]) }

  lemma Step10()
    ensures Reaches(R4(), R10())
  {
    hide ReadBag, ReadChar, Reaches, SnapOf, GoodBag;
    EmptyBagIsGood();
    SetOne(Me4(), Me10());
    Changes(R4(), 1, Me10(), R10());
  }

  lemma Step11()
    ensures Reaches(R10(), R11())
  {
    hide ReadBag, ReadChar, Reaches, SnapOf, GoodBag;
    EmptyBagIsGood();
    SetOne(Me10(), Me11());
    Changes(R10(), 1, Me11(), R11());
  }

  lemma Step12()
    ensures Reaches(R11(), R12())
  {
    hide ReadBag, ReadChar, Reaches, SnapOf, GoodBag;
    EmptyBagIsGood();
    SetOne(Me11(), Me12());
    Changes(R11(), 1, Me12(), R12());
  }

  /** The player walks, dies and revives where it lies before the period comes round: not moving, not marked, the values
      those of the copy. Nothing is to be saved, and the database holds the place where it set out. */
  lemma UnmarkedStopIsMissed() returns (w0: World, acts: seq<Action>)
    ensures Initial(w0) && FreeRun(w0, acts) && 1 in Ran(w0, acts).players
    ensures var w := Ran(w0, acts);
            var p := w.players[1];
            && p.track.answered && p.flight.bundleNo == 0 && !ShouldSave(p) && p.track.hidden.None?
                 && p.account !in w.stale
            && Stored(w, p.account).row.Some? && Stored(w, p.account).row.value.place != p.place
  {
    hide Reaches, R0, R1, R2, R3, R4, R10, R11, R12, FreeRun, Ran;
    Confirmed();
    Step10();
    ReachTrans(R0(), R4(), R10());
    Step11();
    ReachTrans(R0(), R10(), R11());
    Step12();
    ReachTrans(R0(), R11(), R12());
    Strayed();
    w0 := R0();
    StartIsInitial(map[], 1, map[]) by { StartsAt(); }
    StartsAt();
    acts := RunTo(R0(), R12());
  }

  lemma Strayed()
    ensures R12().players == map[1 := Me12()] && !ShouldSave(Me12()) && Me12().account == ME && Me12().place == AWAY
    ensures Me12().track == Track(true, None, true, true) && Me12().flight.bundleNo == 0 && R12().stale == {}
    ensures Stored(R12(), ME).row == Some(BEFORE)
  {
    hide ReadBag, SnapOf;
  }
}
