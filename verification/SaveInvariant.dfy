/** What every step of the save protocol keeps. Almost all of it is said of one account at a time, of its View:
    the live player or leave record, the replies not yet handled, the writes still queued, and what is stored. */
module SaveInvariant {
  import opened Items
  import opened SaveTypes
  import opened SaveSteps

  datatype View = View(live: Option<Player>, session: Session, rec: Option<LeaveRecord>,
                       rs: seq<Reply>, ws: seq<Write>, snap: Snap, dbAt: nat, hist: seq<Snap>, stale: bool)

  function LiveOf(w: World, a: Account): Option<Player> {
    if a in w.owner && w.owner[a] in w.players then Some(w.players[w.owner[a]]) else None
  }

  function ViewOf(w: World, a: Account): View {
    View(LiveOf(w, a), if a in w.owner then w.owner[a] else LEFT,
         if a in w.leave then Some(w.leave[a]) else None,
         RepliesFor(w.replies, a), WritesFor(w.jobs, a), Stored(w, a), DbAt(w, a), HistOf(w, a), a in w.stale)
  }

  /** The two bags are the same outside `s`. */
  ghost predicate Agree(x: seq<Item>, y: seq<Item>, s: set<nat>) {
    |x| == SLOTS && |y| == SLOTS && forall i :: 0 <= i < SLOTS && i !in s ==> x[i] == y[i]
  }

  /** The same for an account that never entered with another bag than the stored one; of the others nothing is said. */
  ghost predicate Agrees(v: View, x: seq<Item>, y: seq<Item>, s: set<nat>) { v.stale || Agree(x, y, s) }

  ghost predicate GoodSnap(table: ItemTable, h: Snap) {
    GoodBag(table, h.bag) && (h.row.Some? ==> GoodMoney(h.row.value.values.money))
  }

  /** The database holds one of the states the account has been in: its row, and its bag unless the account is stale. */
  ghost predicate HistoryOk(table: ItemTable, v: View) {
    && 0 < |v.hist|
    && v.dbAt < |v.hist|
    && v.snap.row == v.hist[v.dbAt].row && (v.stale || v.snap.bag == v.hist[v.dbAt].bag)
    && forall i :: 0 <= i < |v.hist| ==> GoodSnap(table, v.hist[i])
  }

  ghost predicate RowsOk(rows: map<nat, Item>, bag: seq<Item>) {
    forall i :: i in rows ==> i < SLOTS && i < |bag| && rows[i] == bag[i]
  }

  /** A queued write carries the whole row and some slots of one state of its account. */
  ghost predicate WriteOk(hist: seq<Snap>, a: Account, x: Write) {
    && x.account == a && x.bundleNo != 0
    && x.at < |hist|
    && hist[x.at].row == Some(x.row)
    && RowsOk(x.rows, hist[x.at].bag)
  }

  /** Queued writes are in order of age, and each leaves out only slots on which it agrees with everything
      before it: what is stored and the writes ahead of it. */
  ghost predicate QueueOk(v: View, a: Account) {
    && (forall i :: 0 <= i < |v.ws| ==>
          WriteOk(v.hist, a, v.ws[i]) && v.dbAt <= v.ws[i].at
              && Agrees(v, v.snap.bag, v.hist[v.ws[i].at].bag, v.ws[i].rows.Keys))
    && (forall i, j :: 0 <= i < j < |v.ws| ==>
          && v.ws[i].mate == v.ws[j].mate && v.ws[i].at <= v.ws[j].at
          && Agrees(v, v.hist[v.ws[i].at].bag, v.hist[v.ws[j].at].bag, v.ws[j].rows.Keys))
    && (forall i :: 0 <= i < |v.rs| ==> v.rs[i].account == a && v.rs[i].bundleNo != 0)
  }

  /** A live player: with nothing in flight nothing is outstanding and the stored bag differs in marked slots only;
      otherwise one bundle is queued or answered, and it covers exactly the flight slots. */
  ghost predicate LiveOk(v: View, a: Account, p: Player) {
    && v.rec.None?
    && v.session != LEFT
    && p.account == a
    && 0 < |v.hist| && SnapOf(p) == v.hist[|v.hist| - 1]
    && (forall i :: i in p.unsaved || i in p.flight.slots ==> i < SLOTS)
    && p.flight.nextNo != 0
    && (p.flight.bundleNo == 0 ==>
          v.rs == [] && v.ws == [] && p.flight.slots == {} && Agrees(v, v.snap.bag, p.bag, p.unsaved)
          && RowKnown(v, p, p.saved, p.track.stopped))
    && (p.flight.bundleNo != 0 ==>
          && Agrees(v, v.snap.bag, p.bag, p.unsaved + p.flight.slots)
          && ((v.rs == [] && |v.ws| == 1 && InFlightOk(v, p, v.ws[0]))
              || (|v.rs| == 1 && v.ws == [] && AnsweredOk(v, p, v.rs[0]))))
  }

  /** A row with the values `saved`, in the player's place unless the player is to be saved anyway or `missed` tells why
      not. */
  ghost predicate RowIs(row: Option<CharRow>, p: Player, saved: Values, missed: bool) {
    row.Some? && row.value.values == saved && (row.value.place == p.place || p.dirty || p.moving || missed)
  }

  /** The stored row, once something is known of it: what a failed report has hidden, or what was last confirmed. */
  ghost predicate RowKnown(v: View, p: Player, saved: Values, missed: bool) {
    if p.track.hidden.Some? then v.snap.row == p.track.hidden
    else p.track.answered ==> RowIs(v.snap.row, p, saved, missed)
  }

  ghost predicate InFlightOk(v: View, p: Player, x: Write) {
    && x.session == v.session && x.bundleNo == p.flight.bundleNo
    && x.rows.Keys == p.flight.slots
    && x.at < |v.hist|
    && Agrees(v, v.hist[x.at].bag, p.bag, p.unsaved)
    && RowIs(Some(x.row), p, p.saved, p.track.late)
    && RowKnown(v, p, p.flight.savedBefore, p.flight.posDirty || p.track.stopped)
  }

  ghost predicate AnsweredOk(v: View, p: Player, r: Reply) {
    && r.session == v.session && r.bundleNo == p.flight.bundleNo
    && (r.ok ==> Agrees(v, v.snap.bag, p.bag, p.unsaved) && RowIs(v.snap.row, p, p.saved, p.track.late))
    && (!r.ok && r.hid.Some? ==> v.snap.row == r.hid)
    && (!r.ok && r.hid.None? ==> RowKnown(v, p, p.flight.savedBefore, p.flight.posDirty || p.track.stopped))
  }

  /** A leave record: it is the account's last state, and whatever is stored or still queued differs from it in
      its own rows only. At most one bundle of the old session is outstanding, ahead of at most one attempt. */
  ghost predicate RecordOk(v: View, a: Account, r: LeaveRecord) {
    && v.live.None?
    && r.at == |v.hist| - 1
    && v.hist[r.at].row == Some(r.row)
    && RowsOk(r.rows, v.hist[r.at].bag)
    && Agrees(v, v.snap.bag, v.hist[r.at].bag, r.rows.Keys)
    && (forall i ::
          0 <= i < |v.ws| ==> v.ws[i].at < |v.hist| && Agrees(v, v.hist[v.ws[i].at].bag, v.hist[r.at].bag, r.rows.Keys))
    && (forall i :: 0 <= i < |v.ws| && v.ws[i].session == LEFT ==>
          v.ws[i].at == r.at && v.ws[i].rows == r.rows && v.ws[i].bundleNo == r.bundleNo)
    && (forall i :: 0 <= i < |v.rs| && v.rs[i].session == LEFT ==>
          v.ws == [] && v.rs[i].bundleNo == r.bundleNo && (v.rs[i].ok ==> v.dbAt == r.at))
    && (if r.inFlight then
          && 1 <= |v.rs| + |v.ws| <= 2
          && LastIsAttempt(v)
          && (|v.rs| + |v.ws| == 2 ==> FirstIsAbandoned(v))
        else
          |v.rs| + |v.ws| <= 1 && (|v.rs| + |v.ws| == 1 ==> FirstIsAbandoned(v)))
  }

  ghost predicate LastIsAttempt(v: View) {
    if v.ws != [] then v.ws[|v.ws| - 1].session == LEFT
    else v.rs != [] && v.rs[|v.rs| - 1].session == LEFT
  }

  ghost predicate FirstIsAbandoned(v: View) {
    if v.rs != [] then v.rs[0].session != LEFT
    else v.ws != [] && v.ws[0].session != LEFT
  }

  ghost predicate ViewOk(table: ItemTable, v: View, a: Account) {
    && HistoryOk(table, v)
    && QueueOk(v, a)
    && (v.live.Some? ==> LiveOk(v, a, v.live.value))
    && (v.rec.Some? ==> RecordOk(v, a, v.rec.value))
    && (v.live.None? && v.rec.None? ==> v.rs == [] && v.ws == [] && v.dbAt == |v.hist| - 1)
  }

  // ----- pair links

  ghost predicate Linked(pairs: seq<PairLink>, a: Account) { exists i :: 0 <= i < |pairs| && Has(pairs[i], a) }

  /** One side of a link. Without a session its state is a held record, or, once its own good reply has been
      handled and the other side's has not, nothing at all. */
  ghost predicate SideOk(l: PairLink, k: nat, v: View)
    requires TwoSided(l) && k < 2
  {
    var sd := l.sides[k];
    && (sd.session != LEFT ==> v.live.Some? && v.session == sd.session && v.live.value.flight.paired)
    && (sd.session == LEFT ==>
          || (v.rec.Some? && v.rec.value.paired)
          || (l.inFlight && sd.replied && l.ok && v.live.None? && v.rec.None?))
    && sd.tradeAt < |v.hist|
    && (forall i :: 0 <= i < |v.ws| ==> v.ws[i].at >= sd.tradeAt && v.ws[i].mate == Some(l.sides[1 - k].account))
    && (!l.inFlight || sd.replied ==> v.rs == [] && v.ws == [])
    && (l.inFlight && !sd.replied ==>
          || (v.rs == [] && |v.ws| == 1 && v.ws[0].bundleNo == sd.bundleNo)
          || (|v.rs| == 1 && v.ws == [] && v.rs[0].bundleNo == sd.bundleNo))
  }

  ghost predicate Settled(l: PairLink, k: nat, v: View)
    requires TwoSided(l) && k < 2
  {
    v.dbAt >= l.sides[k].tradeAt
  }

  /** Both sides are in the same phase: one job carries both writes, or both have been answered alike. */
  ghost predicate LinkOk(jobs: seq<Job>, l: PairLink, v0: View, v1: View) {
    && TwoSided(l)
    && l.sides[0].account != l.sides[1].account
    && SideOk(l, 0, v0) && SideOk(l, 1, v1)
    && (Settled(l, 0, v0) <==> Settled(l, 1, v1))
    && !(l.sides[0].replied && l.sides[1].replied && l.inFlight)
    && (v0.ws != [] || v1.ws != [] ==>
          |v0.ws| == 1 && |v1.ws| == 1 && Pair(v0.ws[0], v1.ws[0]) in jobs && l.ok && !l.sides[0].replied
              && !l.sides[1].replied)
    && (l.inFlight && v0.ws == [] && v1.ws == [] ==> AnsweredAlike(l, v0, v1))
  }

  ghost predicate AnsweredAlike(l: PairLink, v0: View, v1: View)
    requires TwoSided(l)
  {
    && (v0.rs != [] && v1.rs != [] ==> v0.rs[0].ok == v1.rs[0].ok && l.ok)
    && (v0.rs != [] && v1.rs == [] ==> l.ok == v0.rs[0].ok)
    && (v0.rs == [] && v1.rs != [] ==> l.ok == v1.rs[0].ok)
    && ((v0.rs != [] && v0.rs[0].ok) || (v1.rs != [] && v1.rs[0].ok) ==> Settled(l, 0, v0) && Settled(l, 1, v1))
  }

  ghost predicate Paired(v: View) {
    || (v.live.Some? && v.live.value.flight.paired)
    || (v.rec.Some? && v.rec.value.paired)
    || (exists i :: 0 <= i < |v.ws| && v.ws[i].mate != None)
  }

  // ----- the whole state

  ghost predicate Base(w: World) {
    && w.workers > 0
    && GoodTable(w.table)
    && |w.bundles| == w.workers && |w.loadsQueued| == w.workers
    && (forall a :: a in w.owner ==> w.owner[a] in w.players && w.players[w.owner[a]].account == a)
    && (forall s ::
          s in w.players ==>
            s != LEFT && s in w.used && w.players[s].account in w.owner && w.owner[w.players[s].account] == s)
  }

  ghost predicate JobOk(w: World, j: Job) {
    match j
    case Save(x) => x.mate == None && SessionOk(w, x.session, x.account)
    case Pair(x, y) =>
      && x.account != y.account && x.mate == Some(y.account) && y.mate == Some(x.account)
      && SessionOk(w, x.session, x.account) && SessionOk(w, y.session, y.account)
    case Load(_, _, _, _, _) => true
  }

  /** A session number, once used for an account, never stands for another. */
  ghost predicate SessionOk(w: World, s: Session, a: Account) {
    s != LEFT ==> s in w.used && (s in w.players ==> w.players[s].account == a)
  }

  function Flying(w: World): set<Session> { set s | s in w.players && w.players[s].flight.bundleNo != 0 }

  ghost predicate TradeOk(w: World, t: Trade) {
    && t.a != t.b
    && (DbAt(w, t.a) >= t.aAt <==> DbAt(w, t.b) >= t.bAt)
    && (DbAt(w, t.a) < t.aAt ==> exists i :: 0 <= i < |w.pairs| && IsTrade(w.pairs[i], t))
  }

  ghost predicate IsTrade(l: PairLink, t: Trade) {
    && TwoSided(l)
    && l.sides[0].account == t.a && l.sides[0].tradeAt == t.aAt
    && l.sides[1].account == t.b && l.sides[1].tradeAt == t.bAt
  }

  ghost predicate ViewsOk(w: World) { forall a :: ViewOk(w.table, ViewOf(w, a), a) }

  ghost predicate LinksOk(w: World) {
    && (forall i :: 0 <= i < |w.pairs| ==>
          && TwoSided(w.pairs[i])
          && LinkOk(w.jobs, w.pairs[i], ViewOf(w, w.pairs[i].sides[0].account), ViewOf(w, w.pairs[i].sides[1].account)))
    && (forall i, j, a ::
          0 <= i < |w.pairs| && 0 <= j < |w.pairs| && Has(w.pairs[i], a) && Has(w.pairs[j], a) ==> i == j)
    && (forall a :: Paired(ViewOf(w, a)) ==> Linked(w.pairs, a))
  }

  ghost predicate QueuesOk(w: World) {
    && (forall i :: 0 <= i < |w.jobs| ==> JobOk(w, w.jobs[i]))
    && (forall i :: 0 <= i < |w.replies| ==> SessionOk(w, w.replies[i].session, w.replies[i].account))
  }

  ghost predicate TradesOk(w: World) { forall i :: 0 <= i < |w.trades| ==> TradeOk(w, w.trades[i]) }

  ghost predicate Inv(w: World) {
    && Base(w) && QueuesOk(w) && ViewsOk(w) && LinksOk(w) && TradesOk(w)
    && w.inflight == |Flying(w)|
  }
}
