/** Runs of the save protocol and what holds of every one of them. */
module SaveRuns {
  import opened Items
  import opened Seqs
  import opened SaveTypes
  import opened SaveSteps
  import opened SaveInvariant
  import opened SaveViews
  import opened SaveKeeps
  import opened SavePairs
  import opened SaveReplies
  import opened SaveRelease
  import opened SaveWorker
  import opened SaveArrivals
  import opened SaveLoads

  datatype Action =
    | Play(s: Session, p: Player)
    | Ask(s: Session)
    | EndTick
    | Period(s: Session)
    | Retry(a: Account)
    | RetryPair(i: nat)
    | Depart(s: Session)
    | Swap(s: Session, t: Session, p: Player, q: Player)
    | AskLoad(s: Session, a: Account)
    | ReadFirst(k: nat)
    | Work(k: nat, commit: bool, ok: bool)
    | Take(k: nat)
    | Reorder(i: nat)
    | Answer
    | HandOn(enter: bool, place: Place, values: Values, saved: Values, dirty: bool)

  /** The period's look at one player. */
  function PeriodSave(w: World, s: Session): World
    requires s in w.players
  {
    if ShouldSave(w.players[s]) then SendBundle(w, s) else w
  }

  function Unlisted(p: Player): Player { p.(flight := p.flight.(listed := false)) }

  /** The first entry of the tick-end list: judged only now, whatever has happened since it was listed. */
  function EndTickOne(w: World): World
    requires w.tickEnd != []
  {
    var s := w.tickEnd[0];
    var v := w.(tickEnd := w.tickEnd[1..]);
    if s !in v.players then v
    else PeriodSave(v.(players := v.players[s := Unlisted(v.players[s])]), s)
  }

  /** All that is asked of a load before its player enters: it is handed on as usable, its session is new, and the entry
      handler has no other session of the account in the game. */
  ghost predicate Admits(w: World, r: LoadResult) {
    HandsOn(w, r) && r.session != LEFT && r.session !in w.used && r.account !in w.owner
  }

  /** If somebody enters by this step, no link has a side of the account. Nothing in the program asks for that. */
  ghost predicate EntersUnlinked(w: World, act: Action) {
    act.HandOn? && act.enter && w.loads != [] ==> FindPair(w.pairs, w.loads[0].account) == |w.pairs|
  }

  ghost predicate Enabled(w: World, act: Action) {
    match act
    case Play(s, p) => s in w.players && Plays(w.table, w.players[s], p)
    case Ask(s) => s in w.players
    case EndTick => w.tickEnd != []
    case Period(s) => s in w.players
    case Retry(a) => a in w.leave && !w.leave[a].inFlight && !w.leave[a].paired
    case RetryPair(i) => i < |w.pairs| && !w.pairs[i].inFlight && TwoSided(w.pairs[i])
    case Depart(s) => s in w.players
    case Swap(s, t, p, q) =>
      && s in w.players && t in w.players && s != t
      && CanSaveTradeNow(w.players[s], w.players[t])
      && Plays(w.table, w.players[s], p) && Plays(w.table, w.players[t], q)
    case AskLoad(_, _) => true
    case ReadFirst(k) => IsNext(w, k) && w.jobs[k].Load?
    case Work(k, commit, ok) => IsNext(w, k) && (ok ==> commit)
    case Take(k) => k < w.workers
    case Reorder(i) => CanSlip(w, i)
    case Answer => w.replies != []
    case HandOn(enter, _, _, _, _) => w.loads != [] && (enter ==> Admits(w, w.loads[0]))
  }

  ghost function Step(w: World, act: Action): World
    requires Enabled(w, act)
  {
    match act
    case Play(s, p) => Played(w, s, p)
    case Ask(s) => RequestSave(w, s)
    case EndTick => EndTickOne(w)
    case Period(s) => PeriodSave(w, s)
    case Retry(a) => SendLeaveRecord(w, a)
    case RetryPair(i) => SendPair(w, i)
    case Depart(s) => Leave(w, s)
    case Swap(s, t, p, q) => SaveTrade(Swapped(w, s, t, p, q), s, t)
    case AskLoad(s, a) => RequestLoad(w, s, a)
    case ReadFirst(k) => Fetch(w, k)
    case Work(k, commit, ok) => Execute(w, k, commit, ok)
    case Take(k) => TakeOver(w, k)
    case Reorder(i) => Slip(w, i)
    case Answer => HandleReply(w)
    case HandOn(enter, place, values, saved, dirty) => HandedOn(w, enter, place, values, saved, dirty)
  }

  function HandedOn(w: World, enter: bool, place: Place, values: Values, saved: Values, dirty: bool): World
    requires w.loads != []
  {
    var v := w.(loads := w.loads[1..]);
    if enter then Spawn(v, w.loads[0], place, values, saved, dirty) else v
  }

  /** The server just started: nobody in the hub, nothing queued, any database. */
  ghost predicate Initial(w: World) {
    && w.workers > 0 && GoodTable(w.table) && |w.bundles| == w.workers && |w.loadsQueued| == w.workers
    && w.players == map[] && w.leave == map[] && w.pairs == [] && w.inflight == 0 && w.tickEnd == []
    && w.jobs == [] && w.replies == [] && w.loads == [] && w.owner == map[] && w.used == {} && w.trades == []
    && w.dbAt == map[] && w.issued == map[] && w.stale == {}
    && w.hist == map a | a in w.db :: [ReadChar(w.table, w.db[a])]
  }

  /** Everything kept by every step. */
  ghost predicate Sound(w: World) { Inv(w) && LoadsOk(w) }

  // ----- the start

  lemma ReadIsGood(table: ItemTable, d: DbChar)
    ensures GoodSnap(table, ReadChar(table, d))
  {
  }

  lemma InitialView(w: World, a: Account)
    requires Initial(w)
    ensures ViewOf(w, a) == View(None, LEFT, None, [], [], Stored(w, a), 0, [Stored(w, a)], false)
    ensures ViewOk(w.table, ViewOf(w, a), a) && !Paired(ViewOf(w, a))
  {
    hide GoodSnap, ReadChar;
    ReadIsGood(w.table, DbOf(w, a));
    InitialQueues(w, a);
  }

  lemma InitialQueues(w: World, a: Account)
    requires w.jobs == [] && w.replies == []
    ensures WritesFor(w.jobs, a) == [] && RepliesFor(w.replies, a) == []
  {
  }

  lemma InitialSound(w: World)
    requires Initial(w)
    ensures Sound(w)
  {
    hide ViewOf, ViewOk, Paired, ReadChar, LoadJobOk, LoadOk, TradeOk, LinkOk, Has;
    forall a ensures ViewOk(w.table, ViewOf(w, a), a) && !Paired(ViewOf(w, a)) { InitialView(w, a); }
    assert Flying(w) == {};
  }

  // ----- every step

  lemma PeriodKeeps(w: World, s: Session)
    requires Inv(w) && s in w.players
    ensures Inv(PeriodSave(w, s)) && Still(w, PeriodSave(w, s))
  {
    hide Inv, Still, SendBundle, ShouldSave;
    SendBundleKeeps(w, s);
    SendBundleStill(w, s);
    SameIsStill(w, w);
  }

  lemma EndTickKeeps(w: World)
    requires Inv(w) && w.tickEnd != []
    ensures Inv(EndTickOne(w)) && Still(w, EndTickOne(w))
  {
    hide Inv, Still, PeriodSave;
    var s := w.tickEnd[0];
    var v := w.(tickEnd := w.tickEnd[1..]);
    TickEndKeeps(w, w.tickEnd[1..]);
    SameIsStill(w, v);
    if s in v.players {
      var u := v.(players := v.players[s := Unlisted(v.players[s])]);
      SetPlayerKeeps(v, s, Unlisted(v.players[s]));
      SameIsStill(v, u);
      PeriodKeeps(u, s);
      StillTrans(w, v, u);
      StillTrans(w, u, PeriodSave(u, s));
    }
  }

  lemma SwapStill(w: World, s: Session, t: Session, p: Player, q: Player)
    requires s in w.players && t in w.players
    ensures Still(w, SaveTrade(Swapped(w, s, t, p, q), s, t))
  {
    hide Still, SaveTrade;
    PlayedStill(w, s, p);
    PlayedStill(Played(w, s, p), t, q);
    SaveTradeStill(Swapped(w, s, t, p, q), s, t);
    StillTrans(w, Played(w, s, p), Swapped(w, s, t, p, q));
    StillTrans(w, Swapped(w, s, t, p, q), SaveTrade(Swapped(w, s, t, p, q), s, t));
  }

  /** What time brings: histories only grow, and the database only moves forward in them. */
  ghost predicate Onward(w: World, v: World) {
    && v.table == w.table
    && w.trades <= v.trades
    && (forall a :: HistOf(w, a) <= HistOf(v, a) && DbAt(w, a) <= DbAt(v, a))
  }

  lemma OnlyIsOnward(w: World, v: World)
    requires OnlyLoads(w, v)
    ensures Onward(w, v)
  {
    hide HistOf;
  }

  lemma StillIsOnward(w: World, v: World)
    requires Still(w, v)
    ensures Onward(w, v)
  {
    hide Still, OnlyLoads, Onward;
    StillOnly(w, v);
    OnlyIsOnward(w, v);
  }

  lemma WorkOnward(w: World, k: nat, commit: bool, ok: bool)
    requires Inv(w) && IsNext(w, k) && (ok ==> commit)
    ensures k < |w.jobs| && Onward(w, Execute(w, k, commit, ok))
  {
    hide Inv, Execute, IsNext, HistOf, DbAt;
    NextInRange(w, k);
    var v := Execute(w, k, commit, ok);
    ExecuteHist(w, k, commit, ok);
    forall a ensures DbAt(w, a) <= DbAt(v, a) { WorkForward(w, k, commit, ok, a); }
  }

  lemma ExecuteHist(w: World, k: nat, commit: bool, ok: bool)
    requires k < |w.jobs|
    ensures var v := Execute(w, k, commit, ok);
            && v.table == w.table && v.trades == w.trades && v.stale == w.stale
                 && forall a :: HistOf(v, a) == HistOf(w, a)
  {
    hide Execute;
    ExecuteSame(w, k, commit, ok);
  }

  lemma WorkForward(w: World, k: nat, commit: bool, ok: bool, a: Account)
    requires Inv(w) && IsNext(w, k) && (ok ==> commit) && k < |w.jobs|
    ensures DbAt(w, a) <= DbAt(Execute(w, k, commit, ok), a)
  {
    hide Execute, IsNext, DbAt, ViewOf, Base, ViewsOk, LinksOk, TradesOk, Flying;
    assert JobOk(w, w.jobs[k]);
    if WritesIn(w.jobs[k], a) == [] {
      ExecutedOthers(w, k, commit, ok, a);
    } else {
      InOrder(w, a);
      ExecutedAccount(w, k, commit, ok, a, WritesIn(w.jobs[k], a)[0]);
    }
  }

  lemma HandOnKeeps(w: World, enter: bool, place: Place, values: Values, saved: Values, dirty: bool)
    requires Sound(w) && w.loads != [] && (enter ==> Admits(w, w.loads[0]))
    requires EntersUnlinked(w, HandOn(enter, place, values, saved, dirty))
    ensures Sound(HandedOn(w, enter, place, values, saved, dirty))
    ensures Onward(w, HandedOn(w, enter, place, values, saved, dirty))
  {
    hide Inv, LoadsOk, OnlyLoads, Onward, Still, LoadOk, Spawn;
    var r, v := w.loads[0], w.(loads := w.loads[1..]);
    DroppedLoad(w);
    DropKeeps(w);
    OnlyIsOnward(w, v);
    if enter {
      EntersCan(v, r);
      SpawnKeeps(v, r, place, values, saved, dirty);
      SpawnStill(v, r, place, values, saved, dirty);
      StillLoads(v, Spawn(v, r, place, values, saved, dirty));
      StillIsOnward(v, Spawn(v, r, place, values, saved, dirty));
      OnwardTrans(w, v, Spawn(v, r, place, values, saved, dirty));
    }
  }

  lemma DropKeeps(w: World)
    requires Inv(w) && w.loads != []
    ensures Inv(w.(loads := w.loads[1..]))
  {
    var v := w.(loads := w.loads[1..]);
    DropSame(w, w.loads[1..]);
    hide Inv, Frame;
    QuietKeeps(w, v);
  }

  lemma DropSame(w: World, ls: seq<LoadResult>)
    requires Inv(w)
    ensures Frame(w.(loads := ls))
    ensures forall a :: ViewOf(w.(loads := ls), a) == ViewOf(w, a)
  {
    hide ViewsOk, LinksOk, TradesOk, Gather, ReadChar;
    var v := w.(loads := ls);
    assert Flying(v) == Flying(w);
    hide Flying;
    forall i | 0 <= i < |v.jobs| ensures JobOk(v, v.jobs[i]) { assert JobOk(w, w.jobs[i]); }
  }

  lemma EntersCan(w: World, r: LoadResult)
    requires Admits(w, r) && FindPair(w.pairs, r.account) == |w.pairs|
    ensures CanSpawn(w, r)
  {
    hide Has;
  }

  lemma SpawnStill(w: World, r: LoadResult, place: Place, values: Values, saved: Values, dirty: bool)
    requires Inv(w)
    ensures Still(w, Spawn(w, r, place, values, saved, dirty))
  {
    hide Inv, Gather, SpawnedPlayer, Stored;
    SpawnedDbAt(w, r, place, values, saved, dirty);
  }

  lemma OnwardTrans(w: World, u: World, v: World)
    requires Onward(w, u) && Onward(u, v)
    ensures Onward(w, v)
  {
    hide HistOf, DbAt;
    forall a ensures HistOf(w, a) <= HistOf(v, a) { PrefixTrans(HistOf(w, a), HistOf(u, a), HistOf(v, a)); }
  }

  lemma QuietStep(w: World, v: World)
    requires Sound(w) && Inv(v) && Still(w, v)
    ensures Sound(v) && Onward(w, v)
  {
    hide Inv, LoadsOk, Still, Onward;
    StillLoads(w, v);
    StillIsOnward(w, v);
  }

  lemma StepKeeps(w: World, act: Action)
    requires Sound(w) && Enabled(w, act) && EntersUnlinked(w, act)
    ensures Sound(Step(w, act)) && Onward(w, Step(w, act))
  {
    hide Inv, LoadsOk, Still, Onward, Sound, Played, RequestSave, EndTickOne, PeriodSave, SendLeaveRecord, SendPair,
         Leave, SaveTrade, Swapped, RequestLoad, Fetch, Execute, TakeOver, Slip, CanSlip, HandleReply, HandedOn, Plays,
         CanSaveTradeNow, IsNext, Admits, EntersUnlinked;
    SoundIs(w);
    match act
    case Play(s, p) => PlayedKeeps(w, s, p); PlayedStill(w, s, p); QuietStep(w, Step(w, act));
    case Ask(s) => RequestSaveKeeps(w, s); RequestSaveStill(w, s); QuietStep(w, Step(w, act));
    case EndTick => EndTickKeeps(w); QuietStep(w, Step(w, act));
    case Period(s) => PeriodKeeps(w, s); QuietStep(w, Step(w, act));
    case Retry(a) => SendLeaveRecordKeeps(w, a); SendLeaveRecordStill(w, a); QuietStep(w, Step(w, act));
    case RetryPair(i) => SendPairKeeps(w, i); SendPairStill(w, i); QuietStep(w, Step(w, act));
    case Depart(s) => LeaveKeeps(w, s); LeaveStill(w, s); QuietStep(w, Step(w, act));
    case Swap(s, t, p, q) => TradeKeeps(w, s, t, p, q); SwapStill(w, s, t, p, q); QuietStep(w, Step(w, act));
    case AskLoad(s, a) => AskLoadKeeps(w, s, a);
    case ReadFirst(k) => ReadKeeps(w, k);
    case Work(k, commit, ok) => WorkKeeps(w, k, commit, ok);
    case Take(k) => TakeOverKeeps(w, k); TakeOverStill(w, k); QuietStep(w, Step(w, act));
    case Reorder(i) => SlipKeeps(w, i); QuietStep(w, Step(w, act));
    case Answer => HandleReplyKeeps(w); HandleReplyStill(w); QuietStep(w, Step(w, act));
    case HandOn(enter, place, values, saved, dirty) => HandOnKeeps(w, enter, place, values, saved, dirty);
  }

  lemma SoundIs(w: World)
    requires Sound(w)
    ensures Inv(w) && LoadsOk(w)
  {
  }

  lemma TakeOverStill(w: World, k: nat)
    ensures Still(w, TakeOver(w, k))
  {
    hide Still;
    SameIsStill(w, TakeOver(w, k));
  }

  lemma AskLoadKeeps(w: World, s: Session, a: Account)
    requires Sound(w)
    ensures Sound(RequestLoad(w, s, a)) && Onward(w, RequestLoad(w, s, a))
  {
    hide Inv, LoadsOk, RequestLoad, OnlyLoads, Onward;
    RequestLoadKeeps(w, s, a);
    RequestLoadLoads(w, s, a);
    OnlyIsOnward(w, RequestLoad(w, s, a));
  }

  lemma ReadKeeps(w: World, k: nat)
    requires Sound(w) && IsNext(w, k) && w.jobs[k].Load?
    ensures Sound(Fetch(w, k)) && Onward(w, Fetch(w, k))
  {
    hide LoadsOk, Fetch, Onward, IsNext, Base, ViewsOk, LinksOk, TradesOk, QueuesOk, Flying, Depicts, Stored, DbAt,
         OnlyLoads;
    NextInRange(w, k);
    FetchKeeps(w, k);
    forall a ensures Depicts(w, a, Stored(w, a), DbAt(w, a)) { StoredDepicts(w, a); }
    FetchLoads(w, k);
    OnlyIsOnward(w, Fetch(w, k));
  }

  lemma WorkKeeps(w: World, k: nat, commit: bool, ok: bool)
    requires Sound(w) && IsNext(w, k) && (ok ==> commit)
    ensures k < |w.jobs| && Sound(Execute(w, k, commit, ok)) && Onward(w, Execute(w, k, commit, ok))
  {
    hide LoadsOk, Execute, Onward, IsNext, Base, ViewsOk, LinksOk, TradesOk, QueuesOk, Flying, Depicts, Stored, DbAt,
         CountedOk;
    NextInRange(w, k);
    ExecuteKeeps(w, k, commit, ok);
    IsCounted(w, k, commit, ok);
    ExecuteLoads(w, k, commit, ok);
    WorkOnward(w, k, commit, ok);
  }

  lemma IsCounted(w: World, k: nat, commit: bool, ok: bool)
    requires Inv(w) && IsNext(w, k) && (ok ==> commit) && k < |w.jobs|
    ensures CountedOk(w, k, commit, ok)
  {
    hide Inv, Execute, IsNext, Depicts, Stored, DbAt;
    forall a ensures Depicts(w, a, Stored(w, a), DbAt(w, a)) { StoredDepicts(w, a); }
    forall a ensures DbAt(w, a) <= DbAt(Execute(w, k, commit, ok), a) { WorkForward(w, k, commit, ok, a); }
  }

  /** What is stored is the state it is counted as. */
  lemma StoredDepicts(w: World, a: Account)
    requires Inv(w)
    ensures Depicts(w, a, Stored(w, a), DbAt(w, a))
  {
    hide ViewOk, LinkOk, QueuesOk, Flying, TradesOk, Base, LinksOk, ViewsOk, Gather, ReadChar;
    TheView(w, a);
    InHistory(w.table, ViewOf(w, a), a);
  }

  // ----- every run

  ghost predicate CanRun(w: World, acts: seq<Action>)
    decreases |acts|
  {
    acts == [] || (Enabled(w, acts[0]) && CanRun(Step(w, acts[0]), acts[1..]))
  }

  ghost function Ran(w: World, acts: seq<Action>): World
    decreases |acts|
  {
    if acts == [] || !Enabled(w, acts[0]) then w else Ran(Step(w, acts[0]), acts[1..])
  }

  /** A run in which nobody enters while a link still has a side of the account. */
  ghost predicate FreeRun(w: World, acts: seq<Action>)
    decreases |acts|
  {
    acts == [] || (Enabled(w, acts[0]) && EntersUnlinked(w, acts[0]) && FreeRun(Step(w, acts[0]), acts[1..]))
  }

  lemma {:induction false} FreeIsRun(w: World, acts: seq<Action>)
    requires FreeRun(w, acts)
    ensures CanRun(w, acts)
    decreases |acts|
  {
    hide Enabled, Step, EntersUnlinked;
    if acts != [] { FreeIsRun(Step(w, acts[0]), acts[1..]); }
  }

  lemma {:induction false} RunKeeps(w: World, acts: seq<Action>)
    requires Sound(w) && FreeRun(w, acts)
    ensures Sound(Ran(w, acts)) && Onward(w, Ran(w, acts))
    decreases |acts|
  {
    hide Sound, Onward, Step, Enabled, EntersUnlinked;
    if acts == [] {
      OnwardSelf(w);
    } else {
      StepKeeps(w, acts[0]);
      RunKeeps(Step(w, acts[0]), acts[1..]);
      OnwardTrans(w, Step(w, acts[0]), Ran(w, acts));
    }
  }

  lemma OnwardSelf(w: World)
    ensures Onward(w, w)
  {
    hide HistOf, DbAt;
  }

  // ----- reaching a state by steps

  ghost predicate Reaches(w: World, v: World) { exists acts :: FreeRun(w, acts) && Ran(w, acts) == v }

  lemma ReachSelf(w: World)
    ensures Reaches(w, w)
  {
    assert FreeRun(w, []) && Ran(w, []) == w;
  }

  lemma ReachStep(w: World, act: Action)
    requires Enabled(w, act) && EntersUnlinked(w, act)
    ensures Reaches(w, Step(w, act))
  {
    hide Enabled, Step, EntersUnlinked;
    var acts := [act];
    assert acts[1..] == [];
    assert FreeRun(Step(w, act), []) && Ran(Step(w, act), []) == Step(w, act);
    assert FreeRun(w, acts) && Ran(w, acts) == Step(w, act);
  }

  lemma {:induction false} RunConcat(w: World, x: seq<Action>, y: seq<Action>)
    requires FreeRun(w, x) && FreeRun(Ran(w, x), y)
    ensures FreeRun(w, x + y) && Ran(w, x + y) == Ran(Ran(w, x), y)
    decreases |x|
  {
    hide Enabled, Step, EntersUnlinked;
    if x == [] {
      assert x + y == y;
    } else {
      RunConcat(Step(w, x[0]), x[1..], y);
      assert (x + y)[1..] == x[1..] + y;
    }
  }

  lemma ReachTrans(w: World, u: World, v: World)
    requires Reaches(w, u) && Reaches(u, v)
    ensures Reaches(w, v)
  {
    hide FreeRun, Ran;
    var x :| FreeRun(w, x) && Ran(w, x) == u;
    var y :| FreeRun(u, y) && Ran(u, y) == v;
    RunConcat(w, x, y);
  }

  lemma ReachKeeps(w: World, v: World)
    requires Sound(w) && Reaches(w, v)
    ensures Sound(v) && Onward(w, v)
  {
    hide Sound, Onward, FreeRun, Ran;
    var x :| FreeRun(w, x) && Ran(w, x) == v;
    RunKeeps(w, x);
  }
}
