/** The steps of the save protocol as functions on its state. The class CharacterStore performs them in
    place; the invariants and the main theorems are about these functions. */
module SaveSteps {
  import opened Items
  import opened Seqs
  import opened SaveTypes

  /** Bundle numbers run 1 .. 2^32-1 and start over at 1; 0 means "nothing in flight". */
  function NextNo(n: nat): nat { if n >= UINT32_MAX then 1 else n + 1 }

  predicate ShouldSave(p: Player) {
    p.moving || p.dirty || p.unsaved != {} || p.values != p.saved
  }

  function RowsOf(bag: seq<Item>, slots: set<nat>): map<nat, Item> {
    map i | i in slots && i < |bag| :: bag[i]
  }

  // ----- one player's bundle

  /** Moves the marks of `p` into its flight record and makes the bundle that carries them. */
  function Prepared(p: Player): Player {
    p.(dirty := false, saved := p.values, unsaved := {},
       flight := p.flight.(nextNo := NextNo(p.flight.nextNo), savedBefore := p.saved, posDirty := p.dirty,
                           slots := p.unsaved))
  }

  function BundleOf(p: Player, s: Session, mate: Option<Account>, at: nat): Write {
    Write(p.account, s, p.flight.nextNo, CharRow(p.place, p.values), RowsOf(p.bag, p.unsaved), mate, at)
  }

  /** Puts the flight record's marks back. */
  function Aborted(p: Player): Player {
    p.(saved := p.flight.savedBefore, dirty := p.dirty || p.flight.posDirty, unsaved := p.unsaved + p.flight.slots,
       flight := p.flight.(slots := {}))
  }

  function Committed(p: Player, bundleNo: nat): Player {
    p.(flight := p.flight.(bundleNo := bundleNo, again := false), track := p.track.(late := false))
  }

  // ----- the workers' queues

  function Bump(counts: seq<nat>, k: nat, n: nat): seq<nat> {
    if k < |counts| then counts[k := counts[k] + n] else counts
  }

  predicate HasRoom(w: World, k: nat, n: nat) {
    k < |w.bundles| && w.bundles[k] + n <= w.queueMax
  }

  function Issue(w: World, a: Account): World { w.(issued := w.issued[a := Issued(w, a) + 1]) }

  predicate SaveFits(w: World, x: Write) {
    HasRoom(w, Route(w, x.account), 1)
  }

  function PushSave(w: World, x: Write): World {
    Issue(w.(jobs := w.jobs + [Save(x)], bundles := Bump(w.bundles, Route(w, x.account), 1)), x.account)
  }

  function PushIf(w: World, x: Write, fits: bool): World { if fits then PushSave(w, x) else w }

  /** Both heads go in under one lock, or neither does. */
  predicate PairFits(w: World, x: Write, y: Write) {
    HasRoom(w, RouteOf(w, Pair(x, y)), 2)
  }

  function PushPair(w: World, x: Write, y: Write): World {
    Issue(Issue(w.(jobs := w.jobs + [Pair(x, y)], bundles := Bump(w.bundles, RouteOf(w, Pair(x, y)), 2)), x.account),
          y.account)
  }

  // ----- a live player

  function Top(w: World, a: Account): nat { if |HistOf(w, a)| > 0 then |HistOf(w, a)| - 1 else 0 }

  /** CCharacterStore::SendBundle: nothing while a pair link holds the player; while a bundle is in flight only
      "again"; otherwise one bundle, taken back if the queue refuses it. */
  function SendBundle(w: World, s: Session): World
    requires s in w.players
  {
    var p := w.players[s];
    if p.flight.paired then w
    else if p.flight.bundleNo != 0 then
      w.(players := w.players[s := p.(flight := p.flight.(again := true))])
    else
      var x := BundleOf(p, s, None, Top(w, p.account));
      if SaveFits(w, x) then
        PushSave(w, x).(players := w.players[s := Committed(Prepared(p), x.bundleNo)], inflight := w.inflight + 1)
      else
        w.(players := w.players[s := Aborted(Prepared(p))])
  }

  function RequestSave(w: World, s: Session): World
    requires s in w.players
  {
    var p := w.players[s];
    if p.flight.listed then w
    else w.(players := w.players[s := p.(flight := p.flight.(listed := true))], tickEnd := w.tickEnd + [s])
  }

  // ----- leave records

  function LeaveWrite(a: Account, r: LeaveRecord, mate: Option<Account>): Write {
    Write(a, LEFT, r.bundleNo, r.row, r.rows, mate, r.at)
  }

  /** CCharacterStore::SendLeaveRecord: one attempt under a new number; refused, it waits for the next period. */
  function SendLeaveRecord(w: World, a: Account): World
    requires a in w.leave
  {
    var n := NextNo(w.leaveSeq);
    var x := LeaveWrite(a, w.leave[a].(bundleNo := n), None);
    PushIf(w.(leaveSeq := n, leave := w.leave[a := w.leave[a].(bundleNo := n, inFlight := SaveFits(w, x))]), x,
           SaveFits(w, x))
  }

  // ----- pair links

  predicate Has(l: PairLink, a: Account) { exists k :: 0 <= k < |l.sides| && l.sides[k].account == a }

  /** Index of the first link with a side of account `a`, or the number of links. */
  function FindPair(pairs: seq<PairLink>, a: Account): (i: nat)
    ensures i <= |pairs|
    ensures i < |pairs| ==> Has(pairs[i], a)
    ensures forall j :: 0 <= j < i ==> !Has(pairs[j], a)
  {
    if pairs == [] then 0
    else if Has(pairs[0], a) then 0
    else FindPair(pairs[1..], a) + 1
  }

  function SideOf(l: PairLink, a: Account): nat {
    if |l.sides| > 0 && l.sides[0].account == a then 0 else 1
  }

  /** The hub no longer holds this side's session: its final state is the held leave record. */
  function Detach(pairs: seq<PairLink>, a: Account): seq<PairLink> {
    var i := FindPair(pairs, a);
    if i == |pairs| then pairs
    else
      var k := SideOf(pairs[i], a);
      if k < |pairs[i].sides| then
        pairs[i := pairs[i].(sides := pairs[i].sides[k := pairs[i].sides[k].(session := LEFT)])]
      else pairs
  }

  predicate TwoSided(l: PairLink) { |l.sides| == 2 }

  /** Whether a side can supply its head: a live paired player with nothing in flight, or a held record. */
  predicate SideReady(w: World, sd: Side) {
    if sd.session != LEFT then
      sd.session in w.players && w.players[sd.session].account == sd.account
    else
      sd.account in w.leave && w.leave[sd.account].paired
  }

  /** The head a side supplies: a live player's marked slots, or the held record under its next number. */
  function HeadOf(w: World, sd: Side, mate: Account): Write
    requires SideReady(w, sd)
  {
    if sd.session != LEFT then BundleOf(w.players[sd.session], sd.session, Some(mate), Top(w, sd.account))
    else LeaveWrite(sd.account, w.leave[sd.account].(bundleNo := NextNo(w.leaveSeq)), Some(mate))
  }

  /** The side once its head is queued. */
  function Flown(w: World, sd: Side): World
    requires SideReady(w, sd)
  {
    if sd.session != LEFT then
      var p := w.players[sd.session];
      w.(players := w.players[sd.session := Committed(Prepared(p), p.flight.nextNo)], inflight := w.inflight + 1)
    else
      var n := NextNo(w.leaveSeq);
      w.(leaveSeq := n, leave := w.leave[sd.account := w.leave[sd.account].(bundleNo := n, inFlight := true)])
  }

  /** The side once its head has been refused: a player's marks are back, a record keeps its new number. */
  function Dropped(w: World, sd: Side): World
    requires SideReady(w, sd)
  {
    if sd.session != LEFT then
      w.(players := w.players[sd.session := Aborted(Prepared(w.players[sd.session]))])
    else
      var n := NextNo(w.leaveSeq);
      w.(leaveSeq := n, leave := w.leave[sd.account := w.leave[sd.account].(bundleNo := n)])
  }

  function FlownLink(l: PairLink, n0: nat, n1: nat): PairLink
    requires TwoSided(l)
  {
    PairLink([l.sides[0].(bundleNo := n0, replied := false), l.sides[1].(bundleNo := n1, replied := false)], true, true)
  }

  /** CCharacterStore::SendPair: the heads of both sides as one job on the smaller account's worker, or neither. */
  function SendPair(w: World, i: nat): World
    requires i < |w.pairs| && TwoSided(w.pairs[i])
  {
    var l := w.pairs[i];
    var d0, d1 := l.sides[0], l.sides[1];
    if !SideReady(w, d0) then w
    else if !SideReady(Flown(w, d0), d1) then Dropped(w, d0)
    else
      var x := HeadOf(w, d0, d1.account);
      var y := HeadOf(Flown(w, d0), d1, d0.account);
      if PairFits(w, x, y) then
        PushPair(Flown(Flown(w, d0), d1), x, y).(pairs := w.pairs[i := FlownLink(l, x.bundleNo, y.bundleNo)])
      else if !SideReady(Dropped(w, d0), d1) then w
      else
        Dropped(Dropped(w, d0), d1).(pairs := w.pairs[i := l.(inFlight := false)])
  }

  // ----- leaving

  /** What a departing player leaves behind: the last row, and the marked slots and those in flight. */
  function LastRecord(w: World, p: Player): LeaveRecord {
    LeaveRecord(CharRow(p.place, p.values), RowsOf(p.bag, p.unsaved + p.flight.slots), 0, false, p.flight.paired,
                Top(w, p.account))
  }

  function Emptied(p: Player): Player {
    p.(unsaved := {}, flight := p.flight.(slots := {}, bundleNo := 0, paired := false))
  }

  /** The player's last bundle has become a leave record that is not sent yet. */
  function Departed(w: World, s: Session): World
    requires s in w.players
  {
    var p := w.players[s];
    w.(players := w.players[s := Emptied(p)],
       inflight := if p.flight.bundleNo != 0 then w.inflight - 1 else w.inflight,
       pairs := if p.flight.paired then Detach(w.pairs, p.account) else w.pairs,
       leave := w.leave[p.account := LastRecord(w, p)],
       owner := w.owner - {p.account})
  }

  /** CCharacterStore::LeaveFinal with PutLeaveRecord: a pair link holds the record back, otherwise it is sent. The
      player is still in the hub. */
  function LeaveFinal(w: World, s: Session): World
    requires s in w.players
  {
    if w.players[s].flight.paired then Departed(w, s) else SendLeaveRecord(Departed(w, s), w.players[s].account)
  }

  /** CPlayerPlacement::ReleasePlayer: final save, then the hub's slot is emptied. */
  function Leave(w: World, s: Session): World
    requires s in w.players
  {
    var v := LeaveFinal(w, s);
    v.(players := v.players - {s})
  }

  // ----- replies

  predicate ForLive(w: World, r: Reply) {
    && r.session in w.players
    && w.players[r.session].account == r.account
    && w.players[r.session].flight.bundleNo == r.bundleNo
  }

  predicate ForRecord(w: World, r: Reply) {
    r.account in w.leave && w.leave[r.account].inFlight && w.leave[r.account].bundleNo == r.bundleNo
  }

  function LandedOk(p: Player): Player {
    p.(flight := p.flight.(bundleNo := 0, slots := {}, again := false), track := Track(true, None, p.track.late, false))
  }

  function LandedFailed(p: Player, r: Reply): Player {
    var q := Aborted(p);
    q.(flight := q.flight.(bundleNo := 0, again := false),
       track := if r.hid.Some? then q.track.(hidden := r.hid) else q.track)
  }

  /** CCharacterStore::OnSaveReply. */
  function OnSaveReply(w: World, r: Reply): World {
    if r.session != LEFT then
      if !ForLive(w, r) then w
      else
        var p := w.players[r.session];
        var v := w.(inflight := w.inflight - 1,
                    players := w.players[r.session := if r.ok then LandedOk(p) else LandedFailed(p, r)]);
        if r.ok && p.flight.again then RequestSave(v, r.session) else v
    else if !ForRecord(w, r) then w
    else if r.ok then w.(leave := w.leave - {r.account})
    else w.(leave := w.leave[r.account := w.leave[r.account].(inFlight := false)])
  }

  /** CCharacterStore::ReleasePairSide. */
  function ReleasePairSide(w: World, sd: Side): World {
    if sd.session != LEFT then
      if sd.session in w.players && w.players[sd.session].account == sd.account then
        var p := w.players[sd.session];
        RequestSave(w.(players := w.players[sd.session := p.(flight := p.flight.(paired := false))]), sd.session)
      else w
    else if sd.account in w.leave && w.leave[sd.account].paired then
      var v := w.(leave := w.leave[sd.account := w.leave[sd.account].(paired := false)]);
      if v.leave[sd.account].inFlight then v else SendLeaveRecord(v, sd.account)
    else w
  }

  /** CCharacterStore::OnPairReply, run right after OnSaveReply on the same reply. */
  function OnPairReply(w: World, r: Reply): World {
    var i := FindPair(w.pairs, r.account);
    if i == |w.pairs| || !TwoSided(w.pairs[i]) then w
    else
      var l := w.pairs[i];
      var k := SideOf(l, r.account);
      if !l.inFlight || l.sides[k].bundleNo != r.bundleNo || l.sides[k].replied then w
      else
        var m := l.(sides := l.sides[k := l.sides[k].(replied := true)], ok := l.ok && r.ok);
        if !l.sides[1 - k].replied then w.(pairs := w.pairs[i := m])
        else if !m.ok then w.(pairs := w.pairs[i := m.(inFlight := false)])
        else
          var v := w.(pairs := Without(w.pairs, i));
          ReleasePairSide(ReleasePairSide(v, m.sides[0]), m.sides[1])
  }

  // ----- trades

  predicate CanSaveTradeNow(p: Player, q: Player) {
    p.flight.bundleNo == 0 && q.flight.bundleNo == 0 && !p.flight.paired && !q.flight.paired
  }

  /** CCharacterStore::SaveTrade: link the two players and send their pair bundle. */
  function SaveTrade(w: World, s: Session, t: Session): World
    requires s in w.players && t in w.players
  {
    var p, q := w.players[s], w.players[t];
    var link := PairLink([Side(p.account, s, 0, false, Top(w, p.account)),
                          Side(q.account, t, 0, false, Top(w, q.account))], true, false);
    var v := w.(players := w.players[s := p.(flight := p.flight.(paired := true))][t :=
        q.(flight := q.flight.(paired := true))],
                pairs := w.pairs + [link],
                trades := w.trades + [Trade(p.account, q.account, Top(w, p.account), Top(w, q.account))]);
    SendPair(v, |v.pairs| - 1)
  }

  // ----- the game changing a player

  /** The new state of one player after the game has changed it; every changed slot is marked. */
  function Played(w: World, s: Session, p: Player): World
    requires s in w.players
  {
    w.(players := w.players[s := p], hist := w.hist[p.account := HistOf(w, p.account) + [SnapOf(p)]])
  }

  // ----- a worker executing its next job

  /** Upserts of one bundle head. */
  function Upsert(d: DbChar, x: Write): DbChar { DbChar(Some(x.row), d.bag + x.rows) }

  function CommitOne(w: World, x: Write): World {
    w.(db := w.db[x.account := Upsert(DbOf(w, x.account), x)], dbAt := w.dbAt[x.account := x.at])
  }

  function ReplyTo(x: Write, commit: bool, ok: bool): Reply {
    Reply(x.account, x.session, x.bundleNo, ok, if commit && !ok then Some(x.row) else None)
  }

  /** Job `k` is the next one of its worker. */
  predicate IsNext(w: World, k: nat) {
    k < |w.jobs| && forall i :: 0 <= i < k ==> RouteOf(w, w.jobs[i]) != RouteOf(w, w.jobs[k])
  }

  function Executed(w: World, a: Account): int { Issued(w, a) - |WritesFor(w.jobs, a)| }

  function StoreJob(w: World, j: Job): World {
    match j
    case Save(x) => CommitOne(w, x)
    case Pair(x, y) => CommitOne(CommitOne(w, x), y)
    case Load(_, _, _, _, _) => w
  }

  /** One reply per bundle head, both heads of a pair alike. */
  function Answers(j: Job, commit: bool, ok: bool): seq<Reply> {
    match j
    case Save(x) => [ReplyTo(x, commit, ok)]
    case Pair(x, y) => [ReplyTo(x, commit, ok), ReplyTo(y, commit, ok)]
    case Load(_, _, _, _, _) => []
  }

  function RowNow(w: World, a: Account): RowRead { RowRead(DbOf(w, a).row, Executed(w, a), DbAt(w, a)) }

  /** The worker reads the row of a load. The bag is a second query, with no transaction around the two, and when the
      connection is lost the worker begins again. */
  function Fetch(w: World, k: nat): World
    requires k < |w.jobs| && w.jobs[k].Load?
  {
    w.(jobs := w.jobs[k := w.jobs[k].(read := Some(RowNow(w, w.jobs[k].account)))])
  }

  /** The load is done: with the row it has read and the bag of now. */
  function Reads(w: World, j: Job, ok: bool): seq<LoadResult> {
    match j
    case Load(a, s, after, alone, read) =>
      var x := if read.Some? then read.value else RowNow(w, a);
      var code := if !ok || read.None? then Failed else if x.row == None then NotFound else Found;
      [LoadResult(a, s, code, DbChar(x.row, DbOf(w, a).bag), x.seen, x.at, DbAt(w, a), a !in w.stale, after, alone)]
    case _ => []
  }

  /** One job leaves its queue. A bundle is one transaction: `commit` says whether it took effect, `ok` what the
      worker reports. A failed report may hide a commit; a good one never hides a failure. */
  function Execute(w: World, k: nat, commit: bool, ok: bool): World
    requires k < |w.jobs|
  {
    (if commit then StoreJob(w, w.jobs[k]) else w).(
      jobs := Without(w.jobs, k), replies := w.replies + Answers(w.jobs[k], commit, ok),
          loads := w.loads + Reads(w, w.jobs[k], ok))
  }

  /** The replies `i` and `i + 1` the other way round. Each is pushed under a lock of its own, the two of a pair as
      well, so that of different accounts either may come first. */
  function Slip(w: World, i: nat): World
    requires i + 1 < |w.replies|
  {
    w.(replies := w.replies[i := w.replies[i + 1]][i + 1 := w.replies[i]])
  }

  predicate CanSlip(w: World, i: nat) {
    i + 1 < |w.replies| && w.replies[i].account != w.replies[i + 1].account
  }

  /** A worker takes its queue over, which makes room for `queueMax` more bundles and loads. */
  function TakeOver(w: World, k: nat): World {
    w.(bundles := if k < |w.bundles| then w.bundles[k := 0] else w.bundles,
       loadsQueued := if k < |w.loadsQueued| then w.loadsQueued[k := 0] else w.loadsQueued)
  }

  // ----- loads

  /** CCharacterStore::RequestCharacterLoad: a record that is neither in flight nor held is sent first. */
  function RequestLoad(w: World, s: Session, a: Account): World {
    var v := if a in w.leave && !w.leave[a].inFlight && !w.leave[a].paired then SendLeaveRecord(w, a) else w;
    var k := Route(w, a);
    if k < |v.loadsQueued| && v.loadsQueued[k] < v.queueMax then
      v.(jobs := v.jobs + [Load(a, s, Issued(v, a), FindPair(w.pairs, a) == |w.pairs|, None)],
         loadsQueued := Bump(v.loadsQueued, k, 1))
    else v
  }

  /** Whether ProcessDbResults hands the result on as usable. */
  predicate HandsOn(w: World, r: LoadResult) { r.code != Failed && r.account !in w.leave }

  /** The money a spawning player starts with. */
  function ReadMoney(d: DbChar): int {
    match ReadRow(d.row) case None => 0 case Some(r) => r.values.money
  }

  /** CEntryHandler::SpawnPlayer: bag and money come from the load; place and the other values may be corrected. */
  function SpawnedPlayer(w: World, r: LoadResult, place: Place, values: Values, saved: Values, dirty: bool): Player {
    Player(r.account, place, false, values.(money := ReadMoney(r.data)), dirty, saved, ReadBag(w.table, r.data.bag), {},
           Flight(1, 0, false, false, false, false, saved, {}), Track(false, None, false, false))
  }

  /** Whether a stale account enters with the very bag that is stored. What is stored then counts as one of its
      states. */
  predicate ComesBack(w: World, a: Account, bag: seq<Item>) { a in w.stale && bag == Stored(w, a).bag }

  function EnteredHist(w: World, a: Account, p: Player): seq<Snap> {
    HistOf(w, a) + (if ComesBack(w, a, p.bag) then [Stored(w, a), SnapOf(p)] else [SnapOf(p)])
  }

  function Spawn(w: World, r: LoadResult, place: Place, values: Values, saved: Values, dirty: bool): World {
    var p, a := SpawnedPlayer(w, r, place, values, saved, dirty), r.account;
    w.(players := w.players[r.session := p], owner := w.owner[a := r.session], used := w.used + {r.session},
       hist := w.hist[a := EnteredHist(w, a, p)],
       dbAt := if ComesBack(w, a, p.bag) then w.dbAt[a := |HistOf(w, a)|] else w.dbAt,
       stale := if p.bag == Stored(w, a).bag then w.stale - {a} else w.stale + {a})
  }
}
