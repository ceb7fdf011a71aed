/** State of the save protocol: players and their flight records, leave records, pair links, the queues of
    the database workers, their replies and the database itself.

    Fields marked AUX are history: no step reads them to decide anything, they only let properties be said. */
module SaveTypes {
  import opened Items
  import opened Seqs

  type Account = int
  type Session = int

  const UINT32_MAX: nat := 0xFFFF_FFFF
  const UINT64_SPAN: int := 0x1_0000_0000_0000_0000

  /** Owner of a bundle that belongs to a leave record rather than to a live session. */
  const LEFT: Session := 0

  datatype Place = Place(x: real, y: real, mapId: int)

  /** The compared columns: level, experience, health, mana, money, and the cooldown and buff slots. */
  datatype Values = Values(level: int, exp: int, hp: int, mp: int, money: int, timers: seq<int>)

  datatype CharRow = CharRow(place: Place, values: Values)

  datatype Flight = Flight(nextNo: nat, bundleNo: nat, again: bool, listed: bool, posDirty: bool, paired: bool,
                           savedBefore: Values, slots: set<nat>)

  /** What is known of a player's stored row. answered: a good reply has been handled; hidden: the row that a failed
      report has hidden since then; stopped: the player has stopped moving without being marked dirty since the stored
      row was made; late: since the bundle in flight was made. */
  datatype Track = Track(answered: bool, hidden: Option<CharRow>, stopped: bool, late: bool)

  /** AUX track. */
  datatype Player = Player(account: Account, place: Place, moving: bool, values: Values, dirty: bool, saved: Values,
                           bag: seq<Item>, unsaved: set<nat>, flight: Flight, track: Track)

  /** One bundle head with its slot rows. `mate` is the other account of a pair bundle.
      AUX at: index in the account's history of the state this bundle was taken from. */
  datatype Write = Write(account: Account, session: Session, bundleNo: nat, row: CharRow, rows: map<nat, Item>,
                         mate: Option<Account>, at: nat)

  /** AUX of a load: how many writes had been issued for the account when it was asked for, and that none of
      them was waiting in another worker's queue as part of a pair. */
  datatype Job =
    | Save(w: Write)
    | Pair(first: Write, second: Write)
    | Load(account: Account, session: Session, after: nat, alone: bool, read: Option<RowRead>)

  /** The row of a load whose bag has not been read yet. AUX seen: writes executed for the account by then; at: which of
      the account's states was stored then. */
  datatype RowRead = RowRead(row: Option<CharRow>, seen: int, at: nat)

  /** AUX hid: the row that was committed although the report is a failure. */
  datatype Reply = Reply(account: Account, session: Session, bundleNo: nat, ok: bool, hid: Option<CharRow>)

  datatype LoadCode = Found | NotFound | Failed

  /** AUX seen: writes executed for the account when the row was read; rowAt, bagAt: which of the account's states was
      stored when the row was read, and when the bag was; whole: whether it was stored whole; after, alone: copied from
      the job. */
  datatype LoadResult = LoadResult(account: Account, session: Session, code: LoadCode, data: DbChar,
                                   seen: int, rowAt: nat, bagAt: nat, whole: bool, after: nat, alone: bool)

  /** AUX at: index in the account's history of the state it left in. */
  datatype LeaveRecord = LeaveRecord(row: CharRow, rows: map<nat, Item>, bundleNo: nat, inFlight: bool, paired: bool,
                                     at: nat)

  /** AUX tradeAt: index in the account's history of its state right after the trade. */
  datatype Side = Side(account: Account, session: Session, bundleNo: nat, replied: bool, tradeAt: nat)

  datatype PairLink = PairLink(sides: seq<Side>, ok: bool, inFlight: bool)

  datatype DbChar = DbChar(row: Option<CharRow>, bag: map<nat, Item>)

  /** What a load makes of an account: the row with bad money zeroed, and the bag with bad slots emptied. */
  datatype Snap = Snap(row: Option<CharRow>, bag: seq<Item>)

  datatype Trade = Trade(a: Account, b: Account, aAt: nat, bAt: nat)

  datatype World = World(
    table: ItemTable, workers: nat, queueMax: nat,
    players: map<Session, Player>,
    leave: map<Account, LeaveRecord>,
    pairs: seq<PairLink>,
    leaveSeq: nat,
    inflight: int,
    tickEnd: seq<Session>,
    jobs: seq<Job>,          // every worker's queue, in order of arrival; a worker takes its own first
    bundles: seq<nat>,       // per worker: bundles queued since it last took its queue over
    loadsQueued: seq<nat>,   // per worker: loads queued since then
    replies: seq<Reply>,
    loads: seq<LoadResult>,
    db: map<Account, DbChar>,
    owner: map<Account, Session>,      // AUX: the live session of an account
    used: set<Session>,                // AUX: session numbers handed out so far
    hist: map<Account, seq<Snap>>,     // AUX: every state the account has been in
    dbAt: map<Account, nat>,           // AUX: which of them the database holds
    issued: map<Account, nat>,         // AUX: writes queued for the account so far
    trades: seq<Trade>,                // AUX: trades made so far
    stale: set<Account>)               // AUX: accounts that last entered with another bag than the stored one

  const NO_CHAR := DbChar(None, map[])

  function DbOf(w: World, a: Account): DbChar { if a in w.db then w.db[a] else NO_CHAR }

  function ReadSlot(table: ItemTable, raw: map<nat, Item>, i: nat): Item
    requires i < SLOTS
  {
    if i in raw && raw[i].itemId != 0 && Loadable(table, i, raw[i]) then raw[i] else EMPTY_ITEM
  }

  function ReadBag(table: ItemTable, raw: map<nat, Item>): seq<Item> {
    seq(SLOTS, i requires 0 <= i < SLOTS => ReadSlot(table, raw, i))
  }

  predicate GoodMoney(money: int) { 0 <= money <= MONEY_MAX }

  function ReadRow(row: Option<CharRow>): Option<CharRow> {
    match row
    case None => None
    case Some(r) =>
      if GoodMoney(r.values.money) then row else Some(r.(values := r.values.(money := 0)))
  }

  function ReadChar(table: ItemTable, d: DbChar): Snap { Snap(ReadRow(d.row), ReadBag(table, d.bag)) }

  /** The state of an account as a load would read it now. */
  function Stored(w: World, a: Account): Snap { ReadChar(w.table, DbOf(w, a)) }

  function HistOf(w: World, a: Account): seq<Snap> {
    if a in w.hist then w.hist[a] else [ReadChar(w.table, NO_CHAR)]
  }

  function DbAt(w: World, a: Account): nat { if a in w.dbAt then w.dbAt[a] else 0 }

  function Issued(w: World, a: Account): nat { if a in w.issued then w.issued[a] else 0 }

  function SnapOf(p: Player): Snap { Snap(Some(CharRow(p.place, p.values)), p.bag) }

  /** Worker of an account: the number taken as an unsigned 64-bit value, modulo the worker count. */
  function SlotIndex(workers: nat, a: Account): nat {
    var u := if a >= 0 then a else a + UINT64_SPAN;
    if u >= 0 && workers > 0 then u % workers else 0
  }

  function Route(w: World, a: Account): nat { SlotIndex(w.workers, a) }

  function RouteOf(w: World, j: Job): nat {
    match j
    case Save(x) => Route(w, x.account)
    case Pair(x, y) => Route(w, if x.account < y.account then x.account else y.account)
    case Load(a, _, _, _, _) => Route(w, a)
  }

  /** The writes of a job to account `a`, in order. */
  function WritesIn(j: Job, a: Account): seq<Write> {
    match j
    case Save(x) => if x.account == a then [x] else []
    case Pair(x, y) => (if x.account == a then [x] else []) + (if y.account == a then [y] else [])
    case Load(_, _, _, _, _) => []
  }

  function WriterOf(a: Account): Job -> seq<Write> { (j: Job) => WritesIn(j, a) }

  /** The queued writes to `a`, in order. */
  function WritesFor(jobs: seq<Job>, a: Account): seq<Write> { Gather(WriterOf(a), jobs) }

  function ReplierOf(a: Account): Reply -> seq<Reply> { (r: Reply) => if r.account == a then [r] else [] }

  /** The replies for `a`, in order. */
  function RepliesFor(replies: seq<Reply>, a: Account): seq<Reply> { Gather(ReplierOf(a), replies) }
}
