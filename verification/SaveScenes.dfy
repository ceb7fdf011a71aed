/** Small worlds for runs written out step by step. */
module SaveScenes {
  import opened Items
  import opened Seqs
  import opened SaveTypes
  import opened SaveSteps
  import opened SaveInvariant
  import opened SaveViews
  import opened SaveArrivals
  import opened SaveRuns

  const HOME := Place(0.0, 0.0, 1)

  function Stats(hp: int, money: int): Values { Values(1, 0, hp, 10, money, []) }

  /** A server that has just started over the database `db`. */
  function Start(table: ItemTable, workers: nat, db: map<Account, DbChar>): World {
    World(table, workers, 10, map[], map[], [], 0, 0, [], [], seq(workers, i => 0), seq(workers, i => 0), [], [], db,
          map[], {},
      map a | a in db :: [ReadChar(table, db[a])], map[], map[], [], {})
  }

  lemma StartIsInitial(table: ItemTable, workers: nat, db: map<Account, DbChar>)
    requires GoodTable(table) && workers > 0
    ensures Initial(Start(table, workers, db))
  {
    hide GoodTable, ReadChar;
  }

  lemma RunTo(w: World, v: World) returns (acts: seq<Action>)
    requires Reaches(w, v)
    ensures FreeRun(w, acts) && Ran(w, acts) == v
  {
    hide FreeRun, Ran;
    acts :| FreeRun(w, acts) && Ran(w, acts) == v;
  }

  // ----- queues

  lemma WritesOfNone(a: Account)
    ensures WritesFor([], a) == []
  {
  }

  lemma WritesOfOne(j: Job, a: Account)
    ensures WritesFor([j], a) == WritesIn(j, a)
  {
    assert [j][1..] == [];
    assert Gather(WriterOf(a), [j]) == WriterOf(a)(j) + Gather(WriterOf(a), [j][1..]);
  }

  lemma WritesOfTwo(j: Job, i: Job, a: Account)
    ensures WritesFor([j, i], a) == WritesIn(j, a) + WritesIn(i, a)
  {
    assert [j, i][1..] == [i];
    WritesOfOne(i, a);
  }

  lemma OnlyJob<T>(x: T)
    ensures Without([x], 0) == [] && [x][1..] == []
  {
  }

  lemma FirstOfTwo<T>(x: T, y: T)
    ensures Without([x, y], 0) == [y] && [x, y][1..] == [y] && Without([x, y], 1) == [x]
  {
  }

  // ----- entering

  /** What a load of `a` for session `s` reads now. */
  function Read(w: World, s: Session, a: Account): LoadResult {
    LoadResult(a, s, if DbOf(w, a).row == None then NotFound
               else Found, DbOf(w, a), Executed(w, a), DbAt(w, a), DbAt(w, a), a !in w.stale,
               Issued(w, a), true)
  }

  /** `a` enters from a load that is asked for and read at once. */
  function Entered(w: World, s: Session, a: Account, values: Values, dirty: bool): World {
    Spawn(w.(loadsQueued := Bump(w.loadsQueued, Route(w, a), 1)), Read(w, s, a), HOME, values, values, dirty)
  }

  lemma Enters(w: World, s: Session, a: Account, values: Values, dirty: bool)
    requires w.jobs == [] && w.loads == [] && a !in w.leave && a !in w.owner && s != LEFT && s !in w.used
    requires FindPair(w.pairs, a) == |w.pairs|
    requires Route(w, a) < |w.loadsQueued| && w.loadsQueued[Route(w, a)] < w.queueMax
    ensures Reaches(w, Entered(w, s, a, values, dirty))
  {
    hide Reaches, Route, Spawn, Bump, FindPair, WritesFor, ComesBack;
    Loads(w, s, a);
    var q := Bump(w.loadsQueued, Route(w, a), 1);
    var v := w.(loads := [Read(w, s, a)], loadsQueued := q);
    assert v.loads[1..] == [];
    assert v.(loads := []) == w.(loadsQueued := q);
    ReachStep(v, HandOn(true, HOME, values, values, dirty));
    ReachTrans(w, v, Entered(w, s, a, values, dirty));
  }

  /** A load of `a` is asked for and read, with nothing else in the queues. */
  lemma Loads(w: World, s: Session, a: Account)
    requires w.jobs == [] && w.loads == [] && a !in w.leave && FindPair(w.pairs, a) == |w.pairs|
    requires Route(w, a) < |w.loadsQueued| && w.loadsQueued[Route(w, a)] < w.queueMax
    ensures Reaches(w, w.(loads := [Read(w, s, a)], loadsQueued := Bump(w.loadsQueued, Route(w, a), 1)))
  {
    hide Reaches, Route, Bump, FindPair, WritesFor, Fetch, Execute;
    var q := Bump(w.loadsQueued, Route(w, a), 1);
    var u := w.(jobs := [Load(a, s, Issued(w, a), true, None)], loadsQueued := q);
    assert Step(w, AskLoad(s, a)) == u;
    ReachStep(w, AskLoad(s, a));
    var z := w.(jobs := [Load(a, s, Issued(w, a), true, Some(RowNow(w, a)))], loadsQueued := q);
    RowRead1(w, s, a);
    ReachStep(u, ReadFirst(0));
    ReachTrans(w, u, z);
    var v := w.(loads := [Read(w, s, a)], loadsQueued := q);
    LoadRead(w, s, a);
    ReachStep(z, Work(0, true, true));
    ReachTrans(w, z, v);
  }

  lemma RowRead1(w: World, s: Session, a: Account)
    requires w.jobs == []
    ensures var q := Bump(w.loadsQueued, Route(w, a), 1);
            Fetch(w.(jobs := [Load(a, s, Issued(w, a), true, None)], loadsQueued := q), 0)
            == w.(jobs := [Load(a, s, Issued(w, a), true, Some(RowNow(w, a)))], loadsQueued := q)
  {
    hide Bump, Route;
    var j := Load(a, s, Issued(w, a), true, None);
    WritesOfOne(j, a);
    WritesOfNone(a);
    assert [j][0 := j.(read := Some(RowNow(w, a)))] == [j.(read := Some(RowNow(w, a)))];
  }

  lemma LoadRead(w: World, s: Session, a: Account)
    requires w.jobs == [] && w.loads == []
    ensures var q := Bump(w.loadsQueued, Route(w, a), 1);
            Execute(w.(jobs := [Load(a, s, Issued(w, a), true, Some(RowNow(w, a)))], loadsQueued := q), 0, true, true)
            == w.(loads := [Read(w, s, a)], loadsQueued := q)
  {
    hide Bump, Route;
    OnlyJob(Load(a, s, Issued(w, a), true, Some(RowNow(w, a))));
  }

  // ----- one step each

  /** The period sends the bundle of a player who needs saving. */
  lemma Sends(w: World, s: Session, v: World)
    requires s in w.players && ShouldSave(w.players[s]) && !w.players[s].flight.paired
             && w.players[s].flight.bundleNo == 0
    requires SaveFits(w, BundleOf(w.players[s], s, None, Top(w, w.players[s].account)))
    requires var p := w.players[s];
             var x := BundleOf(p, s, None, Top(w, p.account));
             v == PushSave(w, x).(players := w.players[s := Committed(Prepared(p), x.bundleNo)],
                                  inflight := w.inflight + 1)
    ensures Reaches(w, v)
  {
    hide Reaches, ShouldSave, SaveFits, BundleOf, PushSave, Committed, Prepared;
    ReachStep(w, Period(s));
  }

  /** The next job of its worker is executed. */
  lemma Works(w: World, k: nat, x: Write, commit: bool, ok: bool, v: World)
    requires IsNext(w, k) && w.jobs[k] == Save(x) && (ok ==> commit)
    requires v == (if commit then CommitOne(w, x)
                   else w).(jobs := Without(w.jobs, k), replies := w.replies + [ReplyTo(x, commit, ok)])
    ensures Reaches(w, v)
  {
    hide Reaches, CommitOne, Without;
    CommitKeeps(w, x);
    assert Step(w, Work(k, commit, ok)) == v;
    ReachStep(w, Work(k, commit, ok));
  }

  lemma CommitKeeps(w: World, x: Write)
    ensures CommitOne(w, x).loads == w.loads && CommitOne(w, x).replies == w.replies && CommitOne(w, x).jobs == w.jobs
  {
  }

  /** The game changes a player. */
  lemma Changes(w: World, s: Session, p: Player, v: World)
    requires s in w.players && Plays(w.table, w.players[s], p) && v == Played(w, s, p)
    ensures Reaches(w, v)
  {
    hide Reaches, Plays, Played;
    ReachStep(w, Play(s, p));
  }

  /** The only reply answers a live player's bundle, on no link. */
  lemma HearsLive(w: World, r: Reply, v: World)
    requires w.replies == [r] && w.pairs == [] && r.session != LEFT && ForLive(w, r)
             && !w.players[r.session].flight.again
    requires var p := w.players[r.session];
             v == w.(replies := [], inflight := w.inflight - 1,
                     players := w.players[r.session := if r.ok then LandedOk(p) else LandedFailed(p, r)])
    ensures Reaches(w, v)
  {
    hide Reaches, LandedOk, LandedFailed;
    assert w.replies[1..] == [];
    ReachStep(w, Answer);
  }

  // ----- links

  /** The first link is the one a reply or load finds. */
  lemma OnFirst(pairs: seq<PairLink>, a: Account, k: nat)
    requires pairs != [] && k < |pairs[0].sides| && pairs[0].sides[k].account == a
    ensures FindPair(pairs, a) == 0
  {
    assert Has(pairs[0], a);
  }

  lemma SetIn<T>(x: T, y: T, z: T)
    ensures [x, y][0 := z] == [z, y] && [x, y][1 := z] == [x, z] && [x][0 := z] == [z]
  {
  }

  /** Two ready sides, and room for both heads. */
  lemma SendsPair(w: World, u: World, z: World, x: Write, y: Write, v: World)
    requires |w.pairs| == 1 && TwoSided(w.pairs[0])
    requires var d0, d1 := w.pairs[0].sides[0], w.pairs[0].sides[1];
             && SideReady(w, d0) && u == Flown(w, d0) && SideReady(u, d1) && z == Flown(u, d1)
             && x == HeadOf(w, d0, d1.account) && y == HeadOf(u, d1, d0.account)
    requires PairFits(w, x, y) && v == PushPair(z, x, y).(pairs := [FlownLink(w.pairs[0], x.bundleNo, y.bundleNo)])
    ensures SendPair(w, 0) == v
  {
    hide Flown, SideReady, HeadOf, PushPair, PairFits, FlownLink, Dropped;
    assert w.pairs[0 := FlownLink(w.pairs[0], x.bundleNo, y.bundleNo)]
           == [FlownLink(w.pairs[0], x.bundleNo, y.bundleNo)];
  }

  // ----- one sword

  const SWORD := Item(1, 1)
  const TABLE: ItemTable := map[1 := ItemDef(1, InSlot, Equip, 1)]

  /** The bag with the sword in slot `k`. */
  function At(k: nat): seq<Item> { seq(SLOTS, i => if i == k then SWORD else EMPTY_ITEM) }

  lemma ReadsAt(raw: map<nat, Item>, k: nat)
    requires k < 20 && k in raw && raw[k] == SWORD && forall i :: i in raw && i != k ==> raw[i] == EMPTY_ITEM
    ensures ReadBag(TABLE, raw) == At(k)
  {
  }

  lemma AtIsGood(k: nat)
    requires k < 20
    ensures GoodBag(TABLE, At(k))
  {
  }
}
