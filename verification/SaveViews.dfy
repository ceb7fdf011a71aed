/** How each step changes the view of one account, and that the view stays in order. */
module SaveViews {
  import opened Items
  import opened Seqs
  import opened SaveTypes
  import opened SaveSteps
  import opened SaveInvariant

  /** One thing the game may do to a player between two calls into the store: a change of place leaves it moving or
      marked. */
  ghost predicate Plays(table: ItemTable, o: Player, p: Player) {
    && p.account == o.account && p.saved == o.saved && p.flight == o.flight
    && GoodBag(table, p.bag) && GoodMoney(p.values.money)
    && Marked(o.bag, o.unsaved, p.bag, p.unsaved)
    && (o.dirty ==> p.dirty)
    && (p.place != o.place ==> p.dirty || p.moving)
    && p.track == (if Stops(o, p) then o.track.(stopped := true, late := true) else o.track)
  }

  /** The player stops without being marked, as one that dies does. */
  predicate Stops(o: Player, p: Player) { o.moving && !p.moving && !p.dirty }

  lemma PlayedView(table: ItemTable, v: View, a: Account, o: Player, p: Player)
    requires ViewOk(table, v, a) && v.live == Some(o) && Plays(table, o, p)
    ensures ViewOk(table, v.(live := Some(p), hist := v.hist + [SnapOf(p)]), a)
  {
    hide GoodBag, GoodMoney, RecordOk;
    var u := v.(live := Some(p), hist := v.hist + [SnapOf(p)]);
    assert HistoryOk(table, u);
    assert QueueOk(u, a);
  }

  /** A player is on time with its marks, whatever the flags of its flight record say. */
  lemma FlagsView(table: ItemTable, v: View, a: Account, o: Player, p: Player)
    requires ViewOk(table, v, a) && v.live == Some(o)
    requires p == o.(flight := o.flight.(again := p.flight.again, listed := p.flight.listed, paired := p.flight.paired))
    ensures ViewOk(table, v.(live := Some(p)), a)
  {
    hide HistoryOk, QueueOk, RecordOk;
    var u := v.(live := Some(p));
    assert QueueOk(u, a) by { SameQueue(v, u, a); }
    assert HistoryOk(table, u) by { SameHistory(table, v, u); }
  }

  lemma SameQueue(v: View, u: View, a: Account)
    requires QueueOk(v, a) && u.ws == v.ws && u.rs == v.rs && u.hist == v.hist && u.dbAt == v.dbAt && u.snap == v.snap
             && u.stale == v.stale
    ensures QueueOk(u, a)
  {
    hide WriteOk, Agree;
  }

  lemma SameHistory(table: ItemTable, v: View, u: View)
    requires HistoryOk(table, v) && u.hist == v.hist && u.dbAt == v.dbAt && u.snap == v.snap && u.stale == v.stale
    ensures HistoryOk(table, u)
  {
    hide GoodSnap;
  }

  /** A bundle of a live player with nothing in flight: the marks move into the flight record. */
  lemma SentView(table: ItemTable, v: View, a: Account, p: Player, x: Write)
    requires ViewOk(table, v, a) && v.live == Some(p) && p.flight.bundleNo == 0
    requires x == BundleOf(p, v.session, x.mate, |v.hist| - 1)
    ensures ViewOk(table, v.(live := Some(Committed(Prepared(p), x.bundleNo)), ws := [x]), a)
  {
    hide GoodSnap, RecordOk;
    var u := v.(live := Some(Committed(Prepared(p), x.bundleNo)), ws := [x]);
    assert x.rows.Keys == p.unsaved by { BagSize(table, v); }
    assert QueueOk(u, a);
    assert HistoryOk(table, u) by { SameHistory(table, v, u); }
  }

  /** A refused bundle leaves the marks where they were. */
  lemma RefusedView(table: ItemTable, v: View, a: Account, p: Player)
    requires ViewOk(table, v, a) && v.live == Some(p) && p.flight.bundleNo == 0
    ensures ViewOk(table, v.(live := Some(Aborted(Prepared(p)))), a)
    ensures Aborted(Prepared(p)) == p.(flight := Aborted(Prepared(p)).flight)
  {
    hide HistoryOk, QueueOk, RecordOk;
    var u := v.(live := Some(Aborted(Prepared(p))));
    assert QueueOk(u, a) by { SameQueue(v, u, a); }
    assert HistoryOk(table, u) by { SameHistory(table, v, u); }
  }

  /** The last bundle of a leaving player covers the marked slots and those in flight, so it makes up for the
      bundle in flight however that one ends. */
  lemma LeftView(table: ItemTable, v: View, a: Account, p: Player, r: LeaveRecord)
    requires ViewOk(table, v, a) && v.live == Some(p)
    requires r == LeaveRecord(CharRow(p.place, p.values), RowsOf(p.bag, p.unsaved + p.flight.slots), 0, false, r.paired,
                              |v.hist| - 1)
    ensures ViewOk(table, v.(live := None, session := LEFT, rec := Some(r)), a)
  {
    hide HistoryOk, QueueOk, GoodSnap;
    var u := v.(live := None, session := LEFT, rec := Some(r));
    assert QueueOk(u, a) by { SameQueue(v, u, a); }
    assert HistoryOk(table, u) by { SameHistory(table, v, u); }
    assert r.rows.Keys == p.unsaved + p.flight.slots by { BagSize(table, v); }
    assert RecordOk(u, a, r) by { BagSize(table, v); QueueSessions(table, v, a); }
  }

  lemma BagSize(table: ItemTable, v: View)
    requires HistoryOk(table, v)
    ensures forall i :: 0 <= i < |v.hist| ==> |v.hist[i].bag| == SLOTS
  {
  }

  lemma QueueSessions(table: ItemTable, v: View, a: Account)
    requires ViewOk(table, v, a) && v.live.Some?
    ensures forall i :: 0 <= i < |v.ws| ==> v.ws[i].session != LEFT
    ensures forall i :: 0 <= i < |v.rs| ==> v.rs[i].session != LEFT
    ensures |v.rs| + |v.ws| <= 1
  {
    hide HistoryOk, QueueOk, Agree;
  }

  lemma AttemptView(table: ItemTable, v: View, a: Account, r: LeaveRecord, q: LeaveRecord, mate: Option<Account>)
    requires ViewOk(table, v, a) && v.rec == Some(r) && !r.inFlight
    requires q == r.(bundleNo := q.bundleNo, inFlight := true, paired := q.paired) && q.bundleNo != 0
    requires forall i :: 0 <= i < |v.ws| ==> v.ws[i].mate == mate
    ensures ViewOk(table, v.(rec := Some(q), ws := v.ws + [LeaveWrite(a, q, mate)]), a)
  {
    hide HistoryOk, Agree;
    var x := LeaveWrite(a, q, mate);
    var u := v.(rec := Some(q), ws := v.ws + [x]);
    assert HistoryOk(table, u) by { SameHistory(table, v, u); }
    AttemptQueue(table, v, a, r, x);
    SameQueue(v.(ws := v.ws + [x]), u, a);
    NoAttempts(table, v, a, r);
    assert Agree(v.hist[r.at].bag, v.hist[r.at].bag, r.rows.Keys) by {
      BagSize(table, v);
      AgreeSelf(v.hist[r.at].bag, r.rows.Keys);
    }
    assert RecordOk(u, a, q);
  }

  lemma AgreeSelf(x: seq<Item>, s: set<nat>)
    requires |x| == SLOTS
    ensures Agree(x, x, s)
  {
  }

  lemma AttemptQueue(table: ItemTable, v: View, a: Account, r: LeaveRecord, x: Write)
    requires ViewOk(table, v, a) && v.rec == Some(r)
    requires x.account == a && x.bundleNo != 0 && x.row == r.row && x.rows == r.rows && x.at == r.at
    requires forall i :: 0 <= i < |v.ws| ==> v.ws[i].mate == x.mate
    ensures QueueOk(v.(ws := v.ws + [x]), a)
  {
    hide Agree, LastIsAttempt, FirstIsAbandoned, GoodSnap, LiveOk;
  }

  lemma RenumberedView(table: ItemTable, v: View, a: Account, r: LeaveRecord, q: LeaveRecord)
    requires ViewOk(table, v, a) && v.rec == Some(r) && !r.inFlight
    requires q == r.(bundleNo := q.bundleNo, paired := q.paired)
    ensures ViewOk(table, v.(rec := Some(q)), a)
  {
    hide HistoryOk, QueueOk, Agree;
    var u := v.(rec := Some(q));
    assert HistoryOk(table, u) by { SameHistory(table, v, u); }
    assert QueueOk(u, a) by { SameQueue(v, u, a); }
    NoAttempts(table, v, a, r);
    assert RecordOk(u, a, q);
  }

  lemma NoAttempts(table: ItemTable, v: View, a: Account, r: LeaveRecord)
    requires ViewOk(table, v, a) && v.rec == Some(r) && !r.inFlight
    ensures forall i :: 0 <= i < |v.ws| ==> v.ws[i].session != LEFT
    ensures forall i :: 0 <= i < |v.rs| ==> v.rs[i].session != LEFT
  {
    hide HistoryOk, QueueOk, Agree;
  }

  // ----- a worker executes the account's first write

  /** Upserting the rows of a write over what is stored yields exactly the state the write was taken from. */
  lemma UpsertReads(table: ItemTable, d: DbChar, h: Snap, x: Write)
    requires GoodSnap(table, h) && h.row == Some(x.row) && RowsOk(x.rows, h.bag)
    requires Agree(ReadBag(table, d.bag), h.bag, x.rows.Keys)
    ensures ReadChar(table, Upsert(d, x)) == h
  {
    var e := Upsert(d, x);
    var b := ReadBag(table, d.bag);
    forall i | 0 <= i < SLOTS ensures ReadSlot(table, e.bag, i) == h.bag[i] {
      assert GoodSlot(table, i, h.bag[i]);
      if i in x.rows {
        assert e.bag[i] == h.bag[i];
      } else {
        assert b[i] == h.bag[i];
      }
    }
    assert ReadBag(table, e.bag) == h.bag;
  }

  /** The row alone, whatever the bag. */
  lemma UpsertRow(table: ItemTable, d: DbChar, h: Snap, x: Write)
    requires GoodSnap(table, h) && h.row == Some(x.row)
    ensures ReadChar(table, Upsert(d, x)).row == h.row
  {
  }

  /** The first write executed; `now` is what is stored then. */
  function AfterWrite(v: View, commit: bool, ok: bool, now: Snap): View
    requires v.ws != []
  {
    var x := v.ws[0];
    v.(ws := v.ws[1..], rs := v.rs + [ReplyTo(x, commit, ok)], snap := now, dbAt := if commit then x.at else v.dbAt)
  }

  /** A committed write stores the state it was taken from; of a stale account, that state's row. */
  ghost predicate Becomes(v: View, commit: bool, now: Snap)
    requires v.ws != [] && v.ws[0].at < |v.hist|
  {
    if commit then now.row == v.hist[v.ws[0].at].row && (v.stale || now.bag == v.hist[v.ws[0].at].bag)
       else now == v.snap
  }

  lemma ExecutedView(table: ItemTable, v: View, a: Account, commit: bool, ok: bool, now: Snap)
    requires ViewOk(table, v, a) && v.ws != [] && v.ws[0].at < |v.hist| && Becomes(v, commit, now)
    requires ok ==> commit
    ensures ViewOk(table, AfterWrite(v, commit, ok, now), a)
  {
    hide GoodSnap;
    var u := AfterWrite(v, commit, ok, now);
    assert HistoryOk(table, u) by { hide QueueOk, LiveOk, RecordOk; }
    assert QueueOk(u, a) by { ExecutedQueue(v, a, commit, ok, now); }
    if v.live.Some? {
      ExecutedLive(table, v, a, v.live.value, commit, ok, now);
    }
    if v.rec.Some? {
      ExecutedRecord(table, v, a, v.rec.value, commit, ok, now);
    }
  }

  lemma ExecutedQueue(v: View, a: Account, commit: bool, ok: bool, now: Snap)
    requires QueueOk(v, a) && v.ws != [] && v.ws[0].at < |v.hist| && Becomes(v, commit, now)
    ensures QueueOk(AfterWrite(v, commit, ok, now), a)
  {
    hide Agree;
  }

  lemma ExecutedLive(table: ItemTable, v: View, a: Account, p: Player, commit: bool, ok: bool, now: Snap)
    requires HistoryOk(table, v) && QueueOk(v, a) && LiveOk(v, a, p) && v.ws != [] && v.ws[0].at < |v.hist|
             && Becomes(v, commit, now)
    requires ok ==> commit
    ensures LiveOk(AfterWrite(v, commit, ok, now), a, p)
  {
    hide GoodSnap, QueueOk, Agree;
    FirstWriteOk(v, a);
    if commit && !v.stale {
      AgreeMore(v.hist[v.ws[0].at].bag, p.bag, p.unsaved, p.unsaved + p.flight.slots);
    }
  }

  lemma FirstWriteOk(v: View, a: Account)
    requires QueueOk(v, a) && v.ws != []
    ensures WriteOk(v.hist, a, v.ws[0]) && v.dbAt <= v.ws[0].at
    ensures Agrees(v, v.snap.bag, v.hist[v.ws[0].at].bag, v.ws[0].rows.Keys)
  {
    hide Agree;
  }

  lemma AgreeMore(x: seq<Item>, y: seq<Item>, s: set<nat>, t: set<nat>)
    requires Agree(x, y, s) && s <= t
    ensures Agree(x, y, t)
  {
  }

  lemma ExecutedRecord(table: ItemTable, v: View, a: Account, r: LeaveRecord, commit: bool, ok: bool, now: Snap)
    requires HistoryOk(table, v) && QueueOk(v, a) && RecordOk(v, a, r) && v.ws != [] && v.ws[0].at < |v.hist|
             && Becomes(v, commit, now)
    requires ok ==> commit
    ensures RecordOk(AfterWrite(v, commit, ok, now), a, r)
  {
    hide GoodSnap, Agree, QueueOk;
    AttemptIsLast(v, a, r);
    var u := AfterWrite(v, commit, ok, now);
    assert u.rs[|u.rs| - 1].session == v.ws[0].session;
  }

  lemma AttemptIsLast(v: View, a: Account, r: LeaveRecord)
    requires RecordOk(v, a, r) && v.ws != []
    ensures v.ws[0].session == LEFT ==> |v.ws| == 1 && r.inFlight
    ensures v.rs != [] ==> |v.rs| == 1 && |v.ws| == 1
    ensures |v.ws| <= 2
  {
    hide Agree, RowsOk;
  }

  // ----- a reply is handled

  lemma AnsweredLiveView(table: ItemTable, v: View, a: Account, p: Player)
    requires ViewOk(table, v, a) && v.live == Some(p) && v.rs != []
    ensures |v.rs| == 1 && v.ws == [] && AnsweredOk(v, p, v.rs[0])
    ensures p.flight.bundleNo == v.rs[0].bundleNo && p.flight.bundleNo != 0
    ensures v.rs[0].ok ==> ViewOk(table, v.(live := Some(LandedOk(p)), rs := []), a)
    ensures !v.rs[0].ok ==> ViewOk(table, v.(live := Some(LandedFailed(p, v.rs[0])), rs := []), a)
  {
    hide HistoryOk, QueueOk;
    var u := v.(live := Some(if v.rs[0].ok then LandedOk(p) else LandedFailed(p, v.rs[0])), rs := []);
    assert HistoryOk(table, u) by { SameHistory(table, v, u); }
    assert QueueOk(u, a) by { FewerReplies(v, u, a); }
  }

  lemma FewerReplies(v: View, u: View, a: Account)
    requires QueueOk(v, a) && v.rs != []
    requires u == v.(live := u.live, rec := u.rec, rs := v.rs[1..]) || u == v.(live := u.live, rec := u.rec, rs := [])
    ensures QueueOk(u, a)
  {
    hide WriteOk, Agree;
  }

  lemma ConfirmedView(table: ItemTable, v: View, a: Account, r: LeaveRecord)
    requires ViewOk(table, v, a) && v.rec == Some(r) && v.rs != [] && v.rs[0].session == LEFT
    ensures r.inFlight && r.bundleNo == v.rs[0].bundleNo && |v.rs| == 1 && v.ws == []
    ensures v.rs[0].ok ==> v.dbAt == |v.hist| - 1 && ViewOk(table, v.(rec := None, rs := []), a)
    ensures !v.rs[0].ok ==> ViewOk(table, v.(rec := Some(r.(inFlight := false)), rs := []), a)
  {
    hide HistoryOk, QueueOk, Agree;
    var u := v.(rec := if v.rs[0].ok then None else Some(r.(inFlight := false)), rs := []);
    assert HistoryOk(table, u) by { SameHistory(table, v, u); }
    assert QueueOk(u, a) by { FewerReplies(v, u, a); }
    ConfirmedShape(v, a, r);
  }

  lemma ConfirmedShape(v: View, a: Account, r: LeaveRecord)
    requires RecordOk(v, a, r) && v.rs != [] && v.rs[0].session == LEFT
    ensures r.inFlight && |v.rs| == 1 && v.ws == []
  {
    hide Agree, RowsOk;
  }

  /** A reply to a bundle of a session that is gone has no owner. */
  lemma OrphanView(table: ItemTable, v: View, a: Account)
    requires ViewOk(table, v, a) && v.live == None && v.rs != [] && v.rs[0].session != LEFT
    ensures ViewOk(table, v.(rs := v.rs[1..]), a)
  {
    hide HistoryOk, QueueOk, Agree;
    var u := v.(rs := v.rs[1..]);
    assert HistoryOk(table, u) by { SameHistory(table, v, u); }
    assert QueueOk(u, a) by { FewerReplies(v, u, a); }
    assert v.rec.Some?;
    OrphanRecord(v, u, a, v.rec.value);
  }

  lemma OrphanRecord(v: View, u: View, a: Account, r: LeaveRecord)
    requires RecordOk(v, a, r) && v.rs != [] && v.rs[0].session != LEFT && u == v.(rs := v.rs[1..])
    ensures RecordOk(u, a, r)
  {
    hide Agree, RowsOk;
    assert |v.rs| <= 2;
    if u.rs != [] { assert u.rs[|u.rs| - 1] == v.rs[|v.rs| - 1]; }
  }

  // ----- spawning

  function EnteredView(v: View, s: Session, p: Player): View {
    var back := v.stale && p.bag == v.snap.bag;
    v.(live := Some(p), session := s, hist := v.hist + (if back then [v.snap, SnapOf(p)] else [SnapOf(p)]),
       dbAt := if back then |v.hist| else v.dbAt, stale := p.bag != v.snap.bag)
  }

  lemma SpawnedView(table: ItemTable, v: View, a: Account, s: Session, p: Player)
    requires ViewOk(table, v, a) && v.live == None && v.rec == None && s != LEFT
    requires p.account == a && p.unsaved == {} && p.flight.slots == {} && p.flight.bundleNo == 0 && p.flight.nextNo != 0
    requires GoodBag(table, p.bag) && GoodMoney(p.values.money) && p.track == Track(false, None, false, false)
    ensures ViewOk(table, EnteredView(v, s, p), a)
  {
    hide GoodMoney;
    var u := EnteredView(v, s, p);
    assert v.ws == [] && v.rs == [];
    assert HistoryOk(table, u);
  }
}
