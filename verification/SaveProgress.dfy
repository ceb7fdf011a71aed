/** What is due is sent: after a period, at the end of a tick and at shutdown nothing that waits is left unsent unless
    its worker's queue is full. */
module SaveProgress {
  import opened Items
  import opened Seqs
  import opened SaveTypes
  import opened SaveSteps
  import opened SaveViews
  import opened SaveInvariant
  import opened SaveKeeps
  import opened SavePairs
  import opened SaveRuns
  import opened SaveShutdown
  import opened SaveLastPairs
  import opened SaveBatch
  import opened SaveHalts

  // ----- what can be seen of the queues

  /** The worker of account `a` takes no more than fewer than `n` bundles. */
  predicate QueueFull(w: World, a: Account, n: nat) {
    var k := Route(w, a);
    k >= |w.bundles| || w.bundles[k] + n > w.queueMax
  }

  ghost predicate RowsAre(rows: map<nat, Item>, bag: seq<Item>, slots: set<nat>) {
    && (forall i :: i in rows <==> i in slots && i < |bag|)
    && forall i :: i in rows ==> rows[i] == bag[i]
  }

  /** Queues were only added to. */
  ghost predicate Queued(w: World, v: World) {
    && v.workers == w.workers && v.queueMax == w.queueMax && |v.bundles| == |w.bundles|
    && (forall k :: 0 <= k < |w.bundles| ==> w.bundles[k] <= v.bundles[k])
    && w.jobs <= v.jobs && v.players.Keys == w.players.Keys
  }

  lemma QueuedSelf(w: World)
    ensures Queued(w, w)
  {
  }

  lemma QueuedTrans(w: World, u: World, v: World)
    requires Queued(w, u) && Queued(u, v)
    ensures Queued(w, v)
  {
  }

  lemma StaysFull(w: World, v: World, a: Account, n: nat)
    requires Queued(w, v) && QueueFull(w, a, n)
    ensures QueueFull(v, a, n)
  {
  }

  /** Since job `from`, the solo bundle has been queued. */
  ghost predicate SaveIn(v: World, from: nat, a: Account, s: Session, no: nat, row: CharRow, bag: seq<Item>,
                         slots: set<nat>) {
    exists k: nat :: from <= k < |v.jobs| && IsSave(v.jobs[k], a, s, no, row) && RowsAre(v.jobs[k].w.rows, bag, slots)
  }

  predicate IsSave(j: Job, a: Account, s: Session, no: nat, row: CharRow) {
    j.Save? && j.w.account == a && j.w.session == s && j.w.bundleNo == no && j.w.row == row && j.w.mate == None
  }

  /** Since job `from`, the record has been queued. */
  ghost predicate RecordIn(v: World, from: nat, a: Account, r: LeaveRecord) {
    exists k: nat :: from <= k < |v.jobs| && IsSave(v.jobs[k], a, 0, r.bundleNo, r.row) && v.jobs[k].w.rows == r.rows
  }

  // ----- a look at one player

  predicate NeedsSaving(p: Player) { p.moving || p.dirty || p.unsaved != {} || p.values != p.saved }

  /** What has become of player `p` by one or more looks at it, the queues having grown since: if it needs saving and no
      link holds it, its bundle is in flight, with all that was marked, or its queue is full and nothing is lost. */
  ghost predicate Attended(p: Player, v: World, from: nat, s: Session) {
    s in v.players && var q := v.players[s];
    && q.account == p.account && q.place == p.place && q.moving == p.moving && q.values == p.values && q.bag == p.bag
    && q.flight.paired == p.flight.paired && q.flight.nextNo != 0
    && if p.flight.paired || !NeedsSaving(p) then q == p.(flight := p.flight.(listed := q.flight.listed))
       else if p.flight.bundleNo != 0 then q == p.(flight := p.flight.(again := true, listed := q.flight.listed))
       else if q.flight.bundleNo != 0 then
         && q.flight.bundleNo == p.flight.nextNo && q.unsaved == {} && q.flight.slots == p.unsaved && !q.dirty
         && q.saved == q.values
         && SaveIn(v, from, p.account, s, p.flight.nextNo, CharRow(p.place, p.values), p.bag, p.unsaved)
       else
         && QueueFull(v, p.account, 1) && q.unsaved == p.unsaved && q.dirty == p.dirty && q.saved == p.saved
         && q.flight.again == p.flight.again
  }

  /** Nothing but players, queues and counters of writes is touched. */
  ghost predicate OthersStay(w: World, v: World, s: Session) {
    && v.leave == w.leave && v.pairs == w.pairs && v.tickEnd == w.tickEnd
    && forall t :: t in w.players && t != s ==> t in v.players && v.players[t] == w.players[t]
  }

  lemma SoloIs(p: Player, s: Session, at: nat)
    ensures var x, q := BundleOf(p, s, None, at), Committed(Prepared(p), p.flight.nextNo);
            && x.account == p.account && x.session == s && x.bundleNo == p.flight.nextNo && x.mate == None
            && x.row == CharRow(p.place, p.values) && RowsAre(x.rows, p.bag, p.unsaved)
            && q.account == p.account && q.place == p.place && q.moving == p.moving && q.values == p.values
                 && q.bag == p.bag
            && q.flight.paired == p.flight.paired && q.flight.nextNo != 0 && q.flight.bundleNo == p.flight.nextNo
            && q.unsaved == {} && q.flight.slots == p.unsaved && !q.dirty && q.saved == q.values
  {
  }

  lemma BackIs(p: Player)
    ensures var q := Aborted(Prepared(p));
            && q.account == p.account && q.place == p.place && q.moving == p.moving && q.values == p.values
                 && q.bag == p.bag
            && q.flight.paired == p.flight.paired && q.flight.nextNo != 0 && q.flight.bundleNo == p.flight.bundleNo
            && q.unsaved == p.unsaved && q.dirty == p.dirty && q.saved == p.saved && q.flight.again == p.flight.again
            && q.flight.listed == p.flight.listed
  {
  }

  lemma PushedIs(w: World, x: Write)
    requires SaveFits(w, x)
    ensures var v := PushSave(w, x);
            && Queued(w, v) && v.jobs == w.jobs + [Save(x)] && v.leave == w.leave && v.pairs == w.pairs
            && v.tickEnd == w.tickEnd && v.players == w.players && v.leaveSeq == w.leaveSeq
  {
    hide Route, Issued;
  }

  lemma FitsOr(w: World, x: Write)
    ensures SaveFits(w, x) <==> !QueueFull(w, x.account, 1)
  {
  }

  lemma LookedAt(w: World, s: Session)
    requires s in w.players && w.players[s].flight.nextNo != 0
    ensures var v := PeriodSave(w, s);
            Queued(w, v) && OthersStay(w, v, s) && Attended(w.players[s], v, |w.jobs|, s)
  {
    hide PushSave, SaveFits, BundleOf, Prepared, Committed, Aborted, Top, QueueFull, SaveIn, RowsAre, Queued;
    var p := w.players[s];
    QueuedSelf(w);
    if NeedsSaving(p) && !p.flight.paired {
      if p.flight.bundleNo != 0 {
        var q := p.(flight := p.flight.(again := true));
        OneChanges(w, w, s, q, w.inflight);
      } else {
        var x := BundleOf(p, s, None, Top(w, p.account));
        SoloIs(p, s, Top(w, p.account));
        BackIs(p);
        FitsOr(w, x);
        if SaveFits(w, x) {
          PushedIs(w, x);
          var u := PushSave(w, x);
          var v := u.(players := w.players[s := Committed(Prepared(p), x.bundleNo)], inflight := w.inflight + 1);
          OneChanges(w, u, s, Committed(Prepared(p), x.bundleNo), w.inflight + 1);
          SoloIn(v, |w.jobs|, x, p.bag, p.unsaved);
        } else {
          OneChanges(w, w, s, Aborted(Prepared(p)), w.inflight);
          SameFull(w, w.(players := w.players[s := Aborted(Prepared(p))]), p.account);
        }
      }
    }
  }

  lemma SameFull(w: World, v: World, a: Account)
    requires v.workers == w.workers && v.queueMax == w.queueMax && v.bundles == w.bundles
    ensures QueueFull(v, a, 1) == QueueFull(w, a, 1)
  {
  }

  lemma SoloIn(v: World, from: nat, x: Write, bag: seq<Item>, slots: set<nat>)
    requires from < |v.jobs| && v.jobs[from] == Save(x) && x.mate == None && RowsAre(x.rows, bag, slots)
    ensures SaveIn(v, from, x.account, x.session, x.bundleNo, x.row, bag, slots)
  {
  }

  lemma OneChanges(w: World, u: World, s: Session, q: Player, n: int)
    requires s in w.players && u.players == w.players && Queued(w, u)
    ensures Queued(w, u.(players := w.players[s := q], inflight := n)) && Queued(w, u.(players := w.players[s := q]))
  {
  }

  // ----- many looks

  /** Once attended, always: by what happens to others, */
  lemma StaysAttended(p: Player, u: World, v: World, from: nat, s: Session)
    requires Attended(p, u, from, s) && Queued(u, v) && s in v.players && v.players[s] == u.players[s]
    ensures Attended(p, v, from, s)
  {
    hide RowsAre, QueueFull;
    if QueueFull(u, p.account, 1) { StaysFull(u, v, p.account, 1); }
    if SaveIn(u, from, p.account, s, p.flight.nextNo, CharRow(p.place, p.values), p.bag, p.unsaved) {
      StaysIn(u, v, from, p.account, s, p.flight.nextNo, CharRow(p.place, p.values), p.bag, p.unsaved);
    }
  }

  lemma StaysIn(u: World, v: World, from: nat, a: Account, s: Session, no: nat, row: CharRow, bag: seq<Item>,
                slots: set<nat>)
    requires SaveIn(u, from, a, s, no, row, bag, slots) && Queued(u, v)
    ensures SaveIn(v, from, a, s, no, row, bag, slots)
  {
    var k: nat :| from <= k < |u.jobs| && IsSave(u.jobs[k], a, s, no, row) && RowsAre(u.jobs[k].w.rows, bag, slots);
    assert v.jobs[k] == u.jobs[k];
  }

  /** and by another look. */
  lemma AttendedAgain(p: Player, u: World, from: nat, s: Session)
    requires Attended(p, u, from, s) && from <= |u.jobs| && p.flight.nextNo != 0
    ensures Attended(p, PeriodSave(u, s), from, s)
  {
    hide RowsAre, SaveIn, PushSave, SaveFits, QueueFull, Queued;
    var q, v := u.players[s], PeriodSave(u, s);
    LookedAt(u, s);
    hide PeriodSave;
    if p.flight.paired || !NeedsSaving(p) {
    } else if p.flight.bundleNo != 0 {
    } else if q.flight.bundleNo != 0 {
      StaysIn(u, v, from, p.account, s, p.flight.nextNo, CharRow(p.place, p.values), p.bag, p.unsaved);
    } else {
      StaysFull(u, v, p.account, 1);
      FullRefuses(u, s);
    }
  }

  lemma FullRefuses(u: World, s: Session)
    requires s in u.players && QueueFull(u, u.players[s].account, 1)
    requires u.players[s].flight.bundleNo == 0 && !u.players[s].flight.paired
    ensures PeriodSave(u, s).players[s].flight.bundleNo == 0
  {
    hide PushSave, Top, SaveFits, QueueFull, Route;
    var p := u.players[s];
    FitsOr(u, BundleOf(p, s, None, Top(u, p.account)));
    SoloIs(p, s, Top(u, p.account));
    BackIs(p);
    hide BundleOf, Prepared, Aborted, Committed;
  }

  /** Everybody can be looked at. */
  ghost predicate Numbered(w: World) { forall s :: s in w.players ==> w.players[s].flight.nextNo != 0 }

  lemma SoundNumbers(w: World)
    requires Inv(w)
    ensures Numbered(w)
  {
    hide ViewsOk, LinksOk, QueuesOk, TradesOk, Flying, ViewOf, ViewOk;
    forall s | s in w.players ensures w.players[s].flight.nextNo != 0 {
      var a := w.players[s].account;
      TheView(w, a);
      LiveNumber(w, s);
    }
  }

  lemma LiveNumber(w: World, s: Session)
    requires Base(w) && s in w.players && ViewOk(w.table, ViewOf(w, w.players[s].account), w.players[s].account)
    ensures w.players[s].flight.nextNo != 0
  {
    hide HistoryOk, QueueOk, RecordOk, Gather, ReadChar;
  }

  /** After the period's looks. */
  ghost predicate AllAttended(w: World, v: World, seen: seq<Session>) {
    && Queued(w, v) && v.leave == w.leave && v.pairs == w.pairs && v.tickEnd == w.tickEnd
    && forall s :: s in w.players ==>
         && s in v.players
         && if s in seen then Attended(w.players[s], v, |w.jobs|, s) else v.players[s] == w.players[s]
  }

  lemma {:induction false} PeriodAttends(w: World, order: seq<Session>)
    requires Numbered(w)
    ensures AllAttended(w, PeriodAll(w, order), order)
    decreases |order|
  {
    hide PeriodSave, Attended, Queued;
    if order == [] {
      QueuedSelf(w);
    } else {
      var before, s := order[..|order| - 1], order[|order| - 1];
      var u := PeriodAll(w, before);
      PeriodAttends(w, before);
      assert forall t :: t in order <==> t in before || t == s;
      OneMore(w, u, before, s);
    }
  }

  lemma OneMore(w: World, u: World, seen: seq<Session>, s: Session)
    requires Numbered(w) && AllAttended(w, u, seen)
    ensures Queued(w, PeriodOne(u, s)) && PeriodOne(u, s).leave == w.leave && PeriodOne(u, s).pairs == w.pairs
            && PeriodOne(u, s).tickEnd == w.tickEnd
    ensures forall t :: t in w.players ==>
              && t in PeriodOne(u, s).players
              && if t in seen || t == s then Attended(w.players[t], PeriodOne(u, s), |w.jobs|, t)
                 else PeriodOne(u, s).players[t] == w.players[t]
  {
    hide PeriodSave, Attended, Queued, Numbered;
    QueuedParts(w, u);
    if s in w.players {
      var v := PeriodSave(u, s);
      NumberedOne(w, u, seen, s);
      LookedAt(u, s);
      QueuedTrans(w, u, v);
      forall t | t in w.players
        ensures t in v.players
        ensures if t in seen || t == s then Attended(w.players[t], v, |w.jobs|, t) else v.players[t] == w.players[t]
      {
        if t != s {
          if t in seen { StaysAttended(w.players[t], u, v, |w.jobs|, t); }
        } else if t in seen {
          NumberIs(w, s);
          AttendedAgain(w.players[s], u, |w.jobs|, s);
        } else {
          MoreJobs(w.players[s], v, |w.jobs|, |u.jobs|, s);
        }
      }
    }
  }

  lemma NumberIs(w: World, s: Session)
    requires Numbered(w) && s in w.players
    ensures w.players[s].flight.nextNo != 0
  {
  }

  lemma QueuedParts(w: World, u: World)
    requires Queued(w, u)
    ensures u.players.Keys == w.players.Keys && |w.jobs| <= |u.jobs|
    ensures forall s :: s in w.players <==> s in u.players
  {
  }

  lemma NumberedOne(w: World, u: World, seen: seq<Session>, s: Session)
    requires Numbered(w) && AllAttended(w, u, seen) && s in w.players
    ensures s in u.players && u.players[s].flight.nextNo != 0
  {
    hide SaveIn, QueueFull, Queued;
  }

  lemma MoreJobs(p: Player, v: World, from: nat, later: nat, s: Session)
    requires Attended(p, v, later, s) && from <= later
    ensures Attended(p, v, from, s)
  {
    hide RowsAre, QueueFull;
  }

  // ----- the end of the tick

  /** Of the players that a link holds, or of those that none does: who has been looked at, and who is as before. */
  ghost predicate PlayersAttended(w: World, v: World, seen: seq<Session>, held: bool) {
    && Queued(w, v)
    && forall s :: s in w.players && w.players[s].flight.paired == held ==>
         && s in v.players
         && if s in seen then Attended(w.players[s], v, |w.jobs|, s) else v.players[s] == w.players[s]
  }

  function StruckPlayers(players: map<Session, Player>, s: Session): map<Session, Player> {
    if s in players then players[s := Unlisted(players[s])] else players
  }

  lemma StruckOthers(players: map<Session, Player>, s: Session)
    ensures var m := StruckPlayers(players, s);
            && m.Keys == players.Keys && (s !in players ==> m == players)
            && forall t :: t in players && t != s ==> t in m && m[t] == players[t]
  {
    hide Unlisted;
  }

  function Struck(u: World): World
    requires u.tickEnd != []
  {
    u.(players := StruckPlayers(u.players, u.tickEnd[0]), tickEnd := u.tickEnd[1..])
  }

  lemma StruckQueued(u: World)
    requires u.tickEnd != []
    ensures Queued(u, Struck(u))
  {
    hide StruckPlayers;
    StruckOthers(u.players, u.tickEnd[0]);
  }

  lemma StruckAttended(p: Player, u: World, from: nat, s: Session)
    requires u.tickEnd != [] && u.tickEnd[0] == s && Attended(p, u, from, s)
    ensures Attended(p, Struck(u), from, s)
  {
    hide RowsAre, IsSave, QueueFull;
    var v := Struck(u);
    SameFull(u, v, p.account);
    StruckQueued(u);
    if SaveIn(u, from, p.account, s, p.flight.nextNo, CharRow(p.place, p.values), p.bag, p.unsaved) {
      StaysIn(u, v, from, p.account, s, p.flight.nextNo, CharRow(p.place, p.values), p.bag, p.unsaved);
    }
    hide SaveIn, Queued;
  }

  lemma UnlistedToo(p: Player, v: World, from: nat, s: Session)
    requires Attended(Unlisted(p), v, from, s)
    ensures Attended(p, v, from, s)
  {
    hide SaveIn, QueueFull;
  }

  lemma EndOne(w: World, u: World, seen: seq<Session>, held: bool)
    requires Numbered(w) && Numbered(u) && PlayersAttended(w, u, seen, held) && u.tickEnd != []
    ensures PlayersAttended(w, EndTickOne(u), seen + [u.tickEnd[0]], held)
    ensures Numbered(EndTickOne(u)) && EndTickOne(u).tickEnd == u.tickEnd[1..] && Queued(u, EndTickOne(u))
            && EndTickOne(u).leave == u.leave && EndTickOne(u).pairs == u.pairs
  {
    hide PeriodSave, Attended, Queued, Numbered;
    var s, x := u.tickEnd[0], Struck(u);
    var v := EndTickOne(u);
    EndOneShape(u);
    QueuedTrans(w, u, v);
    QueuedParts(w, u);
    StruckQueued(u);
    QueuedTrans(w, u, x);
    QueuedParts(w, x);
    if s in w.players && w.players[s].flight.paired == held {
      var p := w.players[s];
      NumberIs(w, s);
      StruckNumber(u, s);
      LookedAt(x, s);
      if s in seen {
        StruckAttended(p, u, |w.jobs|, s);
        AttendedAgain(p, x, |w.jobs|, s);
      } else {
        MoreJobs(Unlisted(p), v, |w.jobs|, |x.jobs|, s);
        UnlistedToo(p, v, |w.jobs|, s);
      }
    }
    forall t | t in w.players && t != s && w.players[t].flight.paired == held && t in seen
      ensures Attended(w.players[t], v, |w.jobs|, t)
    {
      StaysAttended(w.players[t], u, v, |w.jobs|, t);
    }
  }

  lemma EndOneShape(u: World)
    requires Numbered(u) && u.tickEnd != []
    ensures var v, s := EndTickOne(u), u.tickEnd[0];
            && Queued(u, v) && Numbered(v) && v.tickEnd == u.tickEnd[1..] && v.leave == u.leave && v.pairs == u.pairs
            && v == (if s in u.players then PeriodSave(Struck(u), s) else Struck(u))
            && forall t :: t in u.players && t != s ==> t in v.players && v.players[t] == u.players[t]
  {
    EndOneIs(u);
    StruckParts(u);
    hide PeriodSave, Queued, Attended, Numbered, Struck, EndTickOne;
    var s, x := u.tickEnd[0], Struck(u);
    StruckQueued(u);
    QueuedParts(u, x);
    if s in u.players {
      StruckNumber(u, s);
      LookedAt(x, s);
      QueuedTrans(u, x, PeriodSave(x, s));
      QueuedParts(x, PeriodSave(x, s));
      NumberStays(x.players[s], PeriodSave(x, s), |x.jobs|, s);
      AllNumbered(u, PeriodSave(x, s), s);
    } else {
      SameNumbers(u, x);
    }
  }

  lemma EndOneIs(u: World)
    requires u.tickEnd != []
    ensures EndTickOne(u) == (if u.tickEnd[0] in u.players then PeriodSave(Struck(u), u.tickEnd[0]) else Struck(u))
  {
    hide PeriodSave, Unlisted;
  }

  lemma StruckParts(u: World)
    requires u.tickEnd != []
    ensures var x := Struck(u);
            && x.tickEnd == u.tickEnd[1..] && x.leave == u.leave && x.pairs == u.pairs
            && (u.tickEnd[0] !in u.players ==> x.players == u.players)
            && forall t :: t in u.players && t != u.tickEnd[0] ==> t in x.players && x.players[t] == u.players[t]
  {
    hide StruckPlayers;
    StruckOthers(u.players, u.tickEnd[0]);
  }

  lemma NumberStays(p: Player, v: World, from: nat, s: Session)
    requires Attended(p, v, from, s)
    ensures s in v.players && v.players[s].flight.nextNo != 0
  {
    hide SaveIn, QueueFull;
  }

  lemma AllNumbered(u: World, v: World, s: Session)
    requires Numbered(u) && s in v.players && v.players[s].flight.nextNo != 0
    requires forall t :: t in v.players && t != s ==> t in u.players && v.players[t] == u.players[t]
    ensures Numbered(v)
  {
  }

  lemma SameNumbers(u: World, v: World)
    requires Numbered(u) && v.players == u.players
    ensures Numbered(v)
  {
  }

  lemma StruckNumber(u: World, s: Session)
    requires Numbered(u) && s in u.players && u.tickEnd != [] && u.tickEnd[0] == s
    ensures s in Struck(u).players && Struck(u).players[s].flight.nextNo != 0
  {
  }

  lemma {:induction false} TickEndAttends(w: World, u: World, seen: seq<Session>, held: bool)
    requires Numbered(w) && Numbered(u) && PlayersAttended(w, u, seen, held)
    ensures var v := TickEndJudged(u);
            && PlayersAttended(w, v, seen + u.tickEnd, held) && Queued(u, v)
            && v.tickEnd == [] && v.leave == u.leave && v.pairs == u.pairs
    decreases |u.tickEnd|
  {
    hide PlayersAttended, EndTickOne, Numbered, Queued;
    if u.tickEnd == [] {
      assert seen + [] == seen;
      QueuedSelf(u);
    } else {
      var x := EndTickOne(u);
      EndOne(w, u, seen, held);
      TickEndAttends(w, x, seen + [u.tickEnd[0]], held);
      assert seen + [u.tickEnd[0]] + u.tickEnd[1..] == seen + u.tickEnd;
      QueuedTrans(u, x, TickEndJudged(x));
    }
  }

  // ----- leave records

  /** What has become of a record that no link holds: it is in flight, or its queue is full; one that went up was queued
      under its number with its row and rows, and nothing else of it has changed. */
  ghost predicate RecordTried(w: World, v: World, from: nat, a: Account) {
    a in w.leave ==>
      && a in v.leave
      && var r, q := w.leave[a], v.leave[a];
         && q == r.(bundleNo := q.bundleNo, inFlight := q.inFlight)
         && (r.paired ==> q == r)
         && (!r.paired && r.inFlight ==> q == r)
         && (!r.paired && !r.inFlight && q.inFlight ==> RecordIn(v, from, a, q))
         && (!r.paired && !q.inFlight ==> QueueFull(v, a, 1))
  }

  /** A record not tried yet. */
  ghost predicate RecordWaits(w: World, v: World, a: Account) {
    a in w.leave ==> a in v.leave && v.leave[a] == w.leave[a]
  }

  ghost predicate OnlyRecords(w: World, v: World) {
    && Queued(w, v) && v.players == w.players && v.pairs == w.pairs && v.tickEnd == w.tickEnd
         && v.leave.Keys == w.leave.Keys
  }

  lemma SentRecord(w: World, a: Account)
    requires a in w.leave && !w.leave[a].inFlight && !w.leave[a].paired
    ensures var v := SendLeaveRecord(w, a);
            && OnlyRecords(w, v) && RecordTried(w, v, |w.jobs|, a)
            && forall b :: b in w.leave && b != a ==> v.leave[b] == w.leave[b]
  {
    hide PushSave, QueueFull, NextNo, Queued;
    var n := NextNo(w.leaveSeq);
    var x := LeaveWrite(a, w.leave[a].(bundleNo := n), None);
    FitsOr(w, x);
    var u := w.(leaveSeq := n, leave := w.leave[a := w.leave[a].(bundleNo := n, inFlight := SaveFits(w, x))]);
    assert u.leave.Keys == w.leave.Keys;
    SameFull(w, u, a);
    LeaveQueued(w, u);
    FitsOr(u, x);
    if SaveFits(w, x) {
      PushedIs(u, x);
      var v := PushSave(u, x);
      QueuedTrans(w, u, v);
      assert RecordIn(v, |w.jobs|, a, v.leave[a]) by { assert v.jobs[|w.jobs|] == Save(x); }
    }
  }

  lemma LeaveQueued(w: World, u: World)
    requires u == w.(leaveSeq := u.leaveSeq, leave := u.leave)
    ensures Queued(w, u)
  {
  }

  lemma StaysTried(w: World, u: World, v: World, from: nat, a: Account)
    requires RecordTried(w, u, from, a) && Queued(u, v) && a in w.leave && a in v.leave && v.leave[a] == u.leave[a]
    ensures RecordTried(w, v, from, a)
  {
    hide QueueFull;
    if QueueFull(u, a, 1) { StaysFull(u, v, a, 1); }
    if RecordIn(u, from, a, u.leave[a]) {
      var k: nat :| from <= k < |u.jobs| && IsSave(u.jobs[k], a, 0, u.leave[a].bundleNo, u.leave[a].row)
                    && u.jobs[k].w.rows == u.leave[a].rows;
      assert v.jobs[k] == u.jobs[k];
    }
  }

  ghost predicate AllTried(w: World, v: World, seen: seq<Account>) {
    && OnlyRecords(w, v)
    && forall a :: a in w.leave ==> if a in seen then RecordTried(w, v, |w.jobs|, a) else RecordWaits(w, v, a)
  }

  lemma TryOne(w: World, u: World, seen: seq<Account>, a: Account)
    requires AllTried(w, u, seen)
    ensures AllTried(w, RetryOne(u, a), seen + [a])
  {
    hide SendLeaveRecord, QueueFull, RecordIn, Queued;
    var v := RetryOne(u, a);
    TriedQueued(w, u);
    QueuedSelf(u);
    if a in u.leave && !u.leave[a].inFlight && !u.leave[a].paired {
      SentRecord(u, a);
      QueuedTrans(w, u, v);
    }
    forall b | b in w.leave
      ensures if b in seen + [a] then RecordTried(w, v, |w.jobs|, b) else RecordWaits(w, v, b)
    {
      if b in seen {
        if b == a { TriedTwice(w, u, |w.jobs|, a); } else { StaysTried(w, u, v, |w.jobs|, b); }
      } else if b == a {
        TriedFirst(w, u, |w.jobs|, a);
      }
    }
  }

  lemma TriedQueued(w: World, u: World)
    requires OnlyRecords(w, u)
    ensures Queued(w, u) && |w.jobs| <= |u.jobs|
  {
  }

  lemma TriedFirst(w: World, u: World, from: nat, a: Account)
    requires RecordWaits(w, u, a) && a in w.leave && from <= |u.jobs|
    ensures RecordTried(w, RetryOne(u, a), from, a)
  {
    hide SendLeaveRecord, QueueFull;
    if !u.leave[a].inFlight && !u.leave[a].paired { SentRecord(u, a); }
  }

  lemma TriedTwice(w: World, u: World, from: nat, a: Account)
    requires RecordTried(w, u, from, a) && a in w.leave
    ensures RecordTried(w, RetryOne(u, a), from, a)
  {
    hide SendLeaveRecord, RecordIn, QueueFull;
    if !u.leave[a].inFlight && !u.leave[a].paired {
      SentRecord(u, a);
      var v := RetryOne(u, a);
      RecordRefused(u, a);
      StaysFull(u, v, a, 1);
    }
  }

  lemma RecordRefused(u: World, a: Account)
    requires a in u.leave && QueueFull(u, a, 1)
    ensures a in SendLeaveRecord(u, a).leave && !SendLeaveRecord(u, a).leave[a].inFlight
  {
    hide NextNo;
  }

  lemma {:induction false} RetriesTry(w: World, u: World, seen: seq<Account>, order: seq<Account>)
    requires AllTried(w, u, seen)
    ensures AllTried(w, RetryAll(u, order), seen + order)
    decreases |order|
  {
    hide AllTried, RetryOne;
    if order == [] {
      assert seen + [] == seen;
    } else {
      TryOne(w, u, seen, order[0]);
      RetriesTry(w, RetryOne(u, order[0]), seen + [order[0]], order[1..]);
      assert seen + [order[0]] + order[1..] == seen + order;
    }
  }

  lemma NoneTried(w: World)
    ensures AllTried(w, w, [])
  {
    QueuedSelf(w);
  }

  // ----- links

  /** The worker of a pair, which is that of its smaller account, has no room for two bundles. */
  predicate PairFull(w: World, l: PairLink)
    requires |l.sides| == 2
  {
    QueueFull(w, if l.sides[0].account < l.sides[1].account then l.sides[0].account else l.sides[1].account, 2)
  }

  /** What side `d` has to send: a player's state with its marked slots, or its last record. */
  ghost predicate HeadIs(w: World, d: Side, mate: Account, x: Write) {
    && x.account == d.account && x.session == d.session && x.mate == Some(mate)
    && (d.session != 0 ==>
          && d.session in w.players
          && x.row == CharRow(w.players[d.session].place, w.players[d.session].values)
          && RowsAre(x.rows, w.players[d.session].bag, w.players[d.session].unsaved))
    && (d.session == 0 ==>
          d.account in w.leave && x.row == w.leave[d.account].row && x.rows == w.leave[d.account].rows)
  }

  /** The side is in flight under `no`. */
  ghost predicate SideUp(v: World, d: Side, no: nat) {
    && (d.session != 0 ==> d.session in v.players && v.players[d.session].flight.bundleNo == no)
    && (d.session == 0 ==> d.account in v.leave && v.leave[d.account].inFlight && v.leave[d.account].bundleNo == no)
  }

  /** Nothing of the side's state is lost. */
  ghost predicate SideBack(w: World, v: World, d: Side) {
    && (d.session != 0 ==>
          && d.session in w.players && d.session in v.players
          && var p, q := w.players[d.session], v.players[d.session];
             q.unsaved == p.unsaved && q.dirty == p.dirty && q.saved == p.saved
                 && q.flight.bundleNo == p.flight.bundleNo)
    && (d.session == 0 ==>
          && d.account in w.leave && d.account in v.leave
          && v.leave[d.account] == w.leave[d.account].(bundleNo := v.leave[d.account].bundleNo))
  }

  ghost predicate SideSame(w: World, v: World, d: Side) {
    && (d.session != 0 ==>
          d.session in w.players && d.session in v.players && v.players[d.session] == w.players[d.session])
    && (d.session == 0 ==> d.account in w.leave && d.account in v.leave && v.leave[d.account] == w.leave[d.account])
  }

  /** The same, but for standing on the tick-end list. */
  ghost predicate SideLike(w: World, v: World, d: Side) {
    && (d.session != 0 ==>
          d.session in w.players && d.session in v.players && Like(w.players[d.session], v.players[d.session]))
    && (d.session == 0 ==> d.account in w.leave && d.account in v.leave && v.leave[d.account] == w.leave[d.account])
  }

  ghost predicate Like(p: Player, q: Player) { q == p.(flight := p.flight.(listed := q.flight.listed)) }

  lemma SameIsLike(w: World, v: World, d: Side)
    requires SideSame(w, v, d)
    ensures SideLike(w, v, d)
  {
  }

  /** Everybody but the side is as before. */
  ghost predicate OnlySide(w: World, v: World, d: Side) {
    && Queued(w, v) && v.jobs == w.jobs && v.bundles == w.bundles && v.pairs == w.pairs && v.tickEnd == w.tickEnd
    && v.leave.Keys == w.leave.Keys
    && (forall t ::
          t in w.players && (d.session == 0 || t != d.session) ==> t in v.players && v.players[t] == w.players[t])
    && (forall b :: b in w.leave && (d.session != 0 || b != d.account) ==> b in v.leave && v.leave[b] == w.leave[b])
    && (forall s :: s in w.players ==> s in v.players && SameBody(w.players[s], v.players[s]))
    && (forall b :: b in w.leave ==> b in v.leave && SameRecord(w.leave[b], v.leave[b]))
  }

  ghost predicate SameBody(p: Player, q: Player) {
    && q.account == p.account && q.place == p.place && q.moving == p.moving && q.values == p.values && q.bag == p.bag
    && q.flight.paired == p.flight.paired && q.flight.listed == p.flight.listed
  }

  ghost predicate SameRecord(r: LeaveRecord, q: LeaveRecord) { q == r.(bundleNo := q.bundleNo, inFlight := q.inFlight) }

  lemma SideFlies(w: World, d: Side, mate: Account)
    requires SideReady(w, d)
    ensures var u, x := Flown(w, d), HeadOf(w, d, mate);
            HeadIs(w, d, mate, x) && SideUp(u, d, x.bundleNo) && OnlySide(w, u, d) && x.account == d.account
  {
    hide NextNo, Top, RowsAre, Queued;
    if d.session != 0 {
      var p := w.players[d.session];
      SoloIs(p, d.session, Top(w, d.account));
      FliesAs(p);
      QueuedSelf(w);
      OneChanges(w, w, d.session, Committed(Prepared(p), p.flight.nextNo), w.inflight + 1);
      hide Prepared, Committed;
      assert HeadOf(w, d, mate) == BundleOf(p, d.session, None, Top(w, d.account)).(mate := Some(mate)) by {
        WithMate(p, d.session, mate, Top(w, d.account));
      }
      hide BundleOf;
    } else {
      var n := NextNo(w.leaveSeq);
      LeaveQueued(w, Flown(w, d));
      assert w.leave[d.account := w.leave[d.account].(bundleNo := n, inFlight := true)].Keys == w.leave.Keys;
    }
  }

  lemma WithMate(p: Player, s: Session, mate: Account, at: nat)
    ensures BundleOf(p, s, Some(mate), at) == BundleOf(p, s, None, at).(mate := Some(mate))
  {
  }

  lemma FliesAs(p: Player)
    ensures SameBody(p, Committed(Prepared(p), p.flight.nextNo)) && SameBody(p, Aborted(Prepared(p)))
  {
  }

  lemma SideDrops(w: World, d: Side)
    requires SideReady(w, d)
    ensures SideBack(w, Dropped(w, d), d) && OnlySide(w, Dropped(w, d), d)
  {
    hide NextNo, Queued;
    if d.session != 0 {
      var p := w.players[d.session];
      BackIs(p);
      FliesAs(p);
      QueuedSelf(w);
      OneChanges(w, w, d.session, Aborted(Prepared(p)), w.inflight);
      hide Prepared, Aborted;
    } else {
      var n := NextNo(w.leaveSeq);
      LeaveQueued(w, Dropped(w, d));
      assert w.leave[d.account := w.leave[d.account].(bundleNo := n)].Keys == w.leave.Keys;
    }
  }

  /** Two ready sides of different accounts do not get into each other's way. */
  lemma OtherSide(w: World, u: World, d: Side, e: Side)
    requires SideReady(w, d) && SideReady(w, e) && d.account != e.account && OnlySide(w, u, d)
    ensures SideReady(u, e) && SideSame(w, u, e)
  {
    hide Queued;
  }

  lemma StaysUp(u: World, v: World, d: Side, e: Side, no: nat)
    requires SideUp(u, d, no) && SideReady(u, d) && SideReady(u, e) && d.account != e.account && OnlySide(u, v, e)
    ensures SideUp(v, d, no)
  {
    hide Queued;
  }

  lemma StaysBack(w: World, u: World, v: World, d: Side, e: Side)
    requires SideBack(w, u, d) && SideReady(u, d) && SideReady(u, e) && d.account != e.account && OnlySide(u, v, e)
    ensures SideBack(w, v, d)
  {
    hide Queued;
  }

  lemma BackFrom(w: World, u: World, v: World, e: Side)
    requires SideLike(w, u, e) && SideBack(u, v, e)
    ensures SideBack(w, v, e)
  {
  }

  lemma HeadFrom(w: World, u: World, e: Side, mate: Account, y: Write)
    requires SideLike(w, u, e) && HeadIs(u, e, mate, y)
    ensures HeadIs(w, e, mate, y)
  {
    hide RowsAre;
  }

  lemma ReadyStays(w: World, u: World, d: Side)
    requires SideReady(w, d) && OnlySide(w, u, d)
    ensures SideReady(u, d)
  {
    hide Queued;
  }

  ghost predicate OnlySides(w: World, v: World, d: Side, e: Side) {
    && Queued(w, v) && v.tickEnd == w.tickEnd && v.leave.Keys == w.leave.Keys
    && (forall t :: t in w.players && (d.session == 0 || t != d.session) && (e.session == 0 || t != e.session) ==>
          t in v.players && v.players[t] == w.players[t])
    && (forall b :: b in w.leave && (d.session != 0 || b != d.account) && (e.session != 0 || b != e.account) ==>
          b in v.leave && v.leave[b] == w.leave[b])
    && (forall s :: s in w.players ==> s in v.players && SameBody(w.players[s], v.players[s]))
    && (forall b :: b in w.leave ==> b in v.leave && SameRecord(w.leave[b], v.leave[b]))
  }

  /** Since job `from`, the pair has been queued. */
  ghost predicate PairIn(w: World, v: World, from: nat, l: PairLink, m: PairLink)
    requires |l.sides| == 2 && |m.sides| == 2
  {
    exists k: nat :: from <= k < |v.jobs| && IsPair(w, v.jobs[k], l, m)
  }

  ghost predicate IsPair(w: World, j: Job, l: PairLink, m: PairLink)
    requires |l.sides| == 2 && |m.sides| == 2
  {
    && j.Pair?
    && HeadIs(w, l.sides[0], l.sides[1].account, j.first) && j.first.bundleNo == m.sides[0].bundleNo
    && HeadIs(w, l.sides[1], l.sides[0].account, j.second) && j.second.bundleNo == m.sides[1].bundleNo
  }

  /** One attempt at a link: both sides are in flight under the numbers the link notes, and their states at the time are
      queued as one job; or the queue is full, and both sides keep all they had. */
  ghost predicate Attempted(w: World, v: World, from: nat, l: PairLink, m: PairLink) {
    && |l.sides| == 2 && |m.sides| == 2
    && (forall k :: 0 <= k < 2 ==> m.sides[k].account == l.sides[k].account && m.sides[k].session == l.sides[k].session
                                   && m.sides[k].tradeAt == l.sides[k].tradeAt)
    && if m.inFlight then
         && m.ok && !m.sides[0].replied && !m.sides[1].replied && PairIn(w, v, from, l, m)
         && SideUp(v, l.sides[0], m.sides[0].bundleNo) && SideUp(v, l.sides[1], m.sides[1].bundleNo)
       else
         && m == l.(inFlight := false) && PairFull(v, l)
         && SideBack(w, v, l.sides[0]) && SideBack(w, v, l.sides[1])
  }

  lemma PairTries(w: World, i: nat)
    requires i < |w.pairs| && |w.pairs[i].sides| == 2
    requires var d, e := w.pairs[i].sides[0], w.pairs[i].sides[1];
             d.account != e.account && SideReady(w, d) && SideReady(w, e)
    ensures var v, l := SendPair(w, i), w.pairs[i];
            && |v.pairs| == |w.pairs| && (forall j :: 0 <= j < |w.pairs| && j != i ==> v.pairs[j] == w.pairs[j])
            && OnlySides(w, v, l.sides[0], l.sides[1]) && Attempted(w, v, |w.jobs|, l, v.pairs[i])
  {
    hide Flown, Dropped, HeadOf, SideReady, PushPair, PairFits, QueueFull, OnlySide, OnlySides, SideBack, SideUp,
         SideSame, HeadIs, FlownLink;
    var l := w.pairs[i];
    var d, e := l.sides[0], l.sides[1];
    var f, g := Flown(w, d), Dropped(w, d);
    SideFlies(w, d, e.account);
    SideDrops(w, d);
    OtherSide(w, f, d, e);
    OtherSide(w, g, d, e);
    ReadyStays(w, f, d);
    ReadyStays(w, g, d);
    SideFlies(f, e, d.account);
    SideDrops(g, e);
    var x, y := HeadOf(w, d, e.account), HeadOf(f, e, d.account);
    if PairFits(w, x, y) {
      PairTaken(w, f, Flown(f, e), i, x, y);
    } else {
      PairRefused(w, g, Dropped(g, e), i, x, y);
    }
  }

  lemma BothSides(w: World, u: World, v: World, d: Side, e: Side)
    requires OnlySide(w, u, d) && OnlySide(u, v, e)
    ensures OnlySides(w, v, d, e) && v.jobs == w.jobs && v.bundles == w.bundles && v.pairs == w.pairs
            && v.workers == w.workers && v.queueMax == w.queueMax
  {
    hide Queued, SameBody;
    QueuedTrans(w, u, v);
    forall s | s in w.players ensures s in v.players && SameBody(w.players[s], v.players[s]) {
      BodyTrans(w.players[s], u.players[s], v.players[s]);
    }
  }

  lemma BodyTrans(p: Player, q: Player, r: Player)
    requires SameBody(p, q) && SameBody(q, r)
    ensures SameBody(p, r)
  {
  }

  lemma PairTaken(w: World, f: World, g: World, i: nat, x: Write, y: Write)
    requires i < |w.pairs| && |w.pairs[i].sides| == 2
    requires var d, e := w.pairs[i].sides[0], w.pairs[i].sides[1];
             && d.account != e.account && SideReady(w, d) && f == Flown(w, d) && SideReady(f, e) && SideReady(f, d)
             && g == Flown(f, e) && x == HeadOf(w, d, e.account) && y == HeadOf(f, e, d.account) && PairFits(w, x, y)
             && OnlySide(w, f, d) && OnlySide(f, g, e) && SideSame(w, f, e)
             && HeadIs(w, d, e.account, x) && SideUp(f, d, x.bundleNo)
             && HeadIs(f, e, d.account, y) && SideUp(g, e, y.bundleNo)
    ensures var v, l := SendPair(w, i), w.pairs[i];
            && |v.pairs| == |w.pairs| && (forall j :: 0 <= j < |w.pairs| && j != i ==> v.pairs[j] == w.pairs[j])
            && OnlySides(w, v, l.sides[0], l.sides[1]) && Attempted(w, v, |w.jobs|, l, v.pairs[i])
  {
    hide Flown, Dropped, HeadOf, SideReady, PushPair, PairFits, QueueFull, OnlySide, OnlySides, SideBack, SideUp,
         SideSame, SideLike, HeadIs;
    var l := w.pairs[i];
    var d, e := l.sides[0], l.sides[1];
    StaysUp(f, g, d, e, x.bundleNo);
    SameIsLike(w, f, e);
    HeadFrom(w, f, e, d.account, y);
    BothSides(w, f, g, d, e);
    var u := PushPair(g, x, y);
    var m := FlownLink(l, x.bundleNo, y.bundleNo);
    var v := u.(pairs := w.pairs[i := m]);
    assert SendPair(w, i) == v;
    PushedPair(w, g, d, e, x, y, w.pairs[i := m]);
    UpToo(g, v, d, x.bundleNo);
    UpToo(g, v, e, y.bundleNo);
    assert IsPair(w, v.jobs[|w.jobs|], l, m);
  }

  lemma UpToo(g: World, v: World, d: Side, no: nat)
    requires SideUp(g, d, no) && v.players == g.players && v.leave == g.leave
    ensures SideUp(v, d, no)
  {
  }

  lemma PushedPair(w: World, g: World, d: Side, e: Side, x: Write, y: Write, pairs: seq<PairLink>)
    requires OnlySides(w, g, d, e) && g.jobs == w.jobs && g.bundles == w.bundles && PairFits(w, x, y)
    ensures var v := PushPair(g, x, y).(pairs := pairs);
            && OnlySides(w, v, d, e) && v.jobs == w.jobs + [Pair(x, y)] && v.players == g.players && v.leave == g.leave
  {
    hide Route, Issued, SameBody;
  }

  lemma PairRefused(w: World, f: World, g: World, i: nat, x: Write, y: Write)
    requires i < |w.pairs| && |w.pairs[i].sides| == 2
    requires var d, e := w.pairs[i].sides[0], w.pairs[i].sides[1];
             && d.account != e.account && SideReady(w, d) && SideReady(Flown(w, d), e) && f == Dropped(w, d)
                  && SideReady(f, e)
             && SideReady(f, d) && g == Dropped(f, e) && x == HeadOf(w, d, e.account)
                  && y == HeadOf(Flown(w, d), e, d.account)
             && !PairFits(w, x, y) && x.account == d.account && y.account == e.account
             && OnlySide(w, f, d) && OnlySide(f, g, e) && SideSame(w, f, e) && SideBack(w, f, d) && SideBack(f, g, e)
    ensures var v, l := SendPair(w, i), w.pairs[i];
            && |v.pairs| == |w.pairs| && (forall j :: 0 <= j < |w.pairs| && j != i ==> v.pairs[j] == w.pairs[j])
            && OnlySides(w, v, l.sides[0], l.sides[1]) && Attempted(w, v, |w.jobs|, l, v.pairs[i])
  {
    hide Flown, Dropped, HeadOf, SideReady, PushPair, PairFits, QueueFull, OnlySide, OnlySides, SideBack, SideUp,
         SideSame, HeadIs, FlownLink;
    var l := w.pairs[i];
    var d, e := l.sides[0], l.sides[1];
    StaysBack(w, f, g, d, e);
    SameIsLike(w, f, e);
    BackFrom(w, f, g, e);
    BothSides(w, f, g, d, e);
    var v := g.(pairs := w.pairs[i := l.(inFlight := false)]);
    assert SendPair(w, i) == v;
    NoRoom(w, l, x, y);
    FullToo(w, v, l);
    SidesToo(w, g, d, e, w.pairs[i := l.(inFlight := false)]);
    BackToo(w, g, v, d);
    BackToo(w, g, v, e);
  }

  lemma BackToo(w: World, g: World, v: World, d: Side)
    requires SideBack(w, g, d) && v.players == g.players && v.leave == g.leave
    ensures SideBack(w, v, d)
  {
  }

  lemma SidesToo(w: World, g: World, d: Side, e: Side, pairs: seq<PairLink>)
    requires OnlySides(w, g, d, e)
    ensures OnlySides(w, g.(pairs := pairs), d, e) && g.(pairs := pairs).jobs == g.jobs
  {
    hide SameBody;
  }

  lemma NoRoom(w: World, l: PairLink, x: Write, y: Write)
    requires |l.sides| == 2 && !PairFits(w, x, y) && x.account == l.sides[0].account && y.account == l.sides[1].account
    ensures PairFull(w, l)
  {
  }

  lemma FullToo(w: World, v: World, l: PairLink)
    requires |l.sides| == 2 && PairFull(w, l) && v.workers == w.workers && v.queueMax == w.queueMax
             && v.bundles == w.bundles
    ensures PairFull(v, l)
  {
  }

  // ----- all links that are not in flight

  ghost predicate LinkTried(w: World, v: World, from: nat, i: nat)
    requires i < |w.pairs| && |v.pairs| == |w.pairs|
  {
    if w.pairs[i].inFlight then v.pairs[i] == w.pairs[i] else Attempted(w, v, from, w.pairs[i], v.pairs[i])
  }

  /** Links from `i` on, with their sides, are as in `w`; those before have been tried; nobody else has been touched. */
  ghost predicate LinksTo(w: World, u: World, i: nat) {
    && Queued(w, u) && |u.pairs| == |w.pairs| && u.tickEnd == w.tickEnd && u.leave.Keys == w.leave.Keys
    && (forall j :: 0 <= j < |w.pairs| && j < i ==> LinkTried(w, u, |w.jobs|, j))
    && (forall j :: i <= j < |w.pairs| ==> LinkWaits(w, u, j))
    && (forall s :: s in w.players ==>
          && s in u.players && SameBody(w.players[s], u.players[s])
          && (!w.players[s].flight.paired ==> u.players[s] == w.players[s]))
    && (forall b :: b in w.leave ==>
          && b in u.leave && u.leave[b].paired == w.leave[b].paired
          && (!w.leave[b].paired ==> u.leave[b] == w.leave[b]))
  }

  ghost predicate LinkWaits(w: World, u: World, j: nat)
    requires j < |w.pairs| == |u.pairs|
  {
    && u.pairs[j] == w.pairs[j]
    && (!w.pairs[j].inFlight ==>
          |w.pairs[j].sides| == 2 && SideSame(w, u, w.pairs[j].sides[0]) && SideSame(w, u, w.pairs[j].sides[1]))
  }

  /** What the invariant says of a link's sides. */
  lemma SidesOf(u: World, i: nat)
    requires Inv(u) && i < |u.pairs| && !u.pairs[i].inFlight
    ensures |u.pairs[i].sides| == 2 && u.pairs[i].sides[0].account != u.pairs[i].sides[1].account
    ensures forall k :: 0 <= k < 2 ==> SideReady(u, u.pairs[i].sides[k]) && SideHeld(u, u.pairs[i].sides[k])
  {
    hide Inv, ViewOf, SideReady, Waiting;
    SidesReady(u, i);
    BaseOf(u);
    HeldSide(u, u.pairs[i].sides[0]);
    HeldSide(u, u.pairs[i].sides[1]);
  }

  ghost predicate SideHeld(u: World, d: Side) {
    && (d.session != 0 ==> d.session in u.players && u.players[d.session].flight.paired)
    && (d.session == 0 ==> d.account in u.leave && u.leave[d.account].paired)
  }

  lemma BaseOf(u: World)
    requires Inv(u)
    ensures Base(u)
  {
    hide ViewsOk, LinksOk, QueuesOk, TradesOk, Flying, Base;
  }

  lemma HeldSide(u: World, d: Side)
    requires Base(u) && Waiting(ViewOf(u, d.account), d)
    ensures SideHeld(u, d)
  {
    hide ViewOf;
    ReadySide(u, d);
  }

  /** A live side's session is its account's. */
  ghost predicate Owned(u: World, d: Side) {
    d.session != 0 ==> d.session in u.players && u.players[d.session].account == d.account
  }

  lemma SideOwned(u: World, i: nat, k: nat)
    requires Inv(u) && i < |u.pairs| && k < |u.pairs[i].sides|
    ensures |u.pairs[i].sides| == 2 && Owned(u, u.pairs[i].sides[k])
  {
    hide Inv, ViewOf, LinkOk;
    TheLink(u, i);
    BaseOf(u);
    LinkSession(u.jobs, u.pairs[i], ViewOf(u, u.pairs[i].sides[0].account), ViewOf(u, u.pairs[i].sides[1].account));
    if u.pairs[i].sides[k].session != 0 { ViewOwner(u, u.pairs[i].sides[k].account); }
  }

  lemma LinkSession(jobs: seq<Job>, l: PairLink, v0: View, v1: View)
    requires LinkOk(jobs, l, v0, v1)
    ensures |l.sides| == 2
    ensures l.sides[0].session != 0 ==> v0.live.Some? && v0.session == l.sides[0].session
    ensures l.sides[1].session != 0 ==> v1.live.Some? && v1.session == l.sides[1].session
  {
    hide Settled, AnsweredAlike;
  }

  lemma ViewOwner(u: World, a: Account)
    requires Base(u) && ViewOf(u, a).live.Some?
    ensures ViewOf(u, a).session in u.players && u.players[ViewOf(u, a).session].account == a
  {
    hide Gather, ReadChar;
  }

  lemma AttemptedFrom(z: World, u: World, v: World, from: nat, l: PairLink, m: PairLink)
    requires |l.sides| == 2 && SideLike(z, u, l.sides[0]) && SideLike(z, u, l.sides[1])
    requires Attempted(u, v, |u.jobs|, l, m) && from <= |u.jobs|
    ensures Attempted(z, v, from, l, m)
  {
    hide HeadIs, SideUp, SideBack, SideLike, PairFull;
    var d, e := l.sides[0], l.sides[1];
    if m.inFlight {
      var k: nat :| |u.jobs| <= k < |v.jobs| && IsPair(u, v.jobs[k], l, m);
      HeadFrom(z, u, d, e.account, v.jobs[k].first);
      HeadFrom(z, u, e, d.account, v.jobs[k].second);
      assert IsPair(z, v.jobs[k], l, m);
    } else {
      BackFrom(z, u, v, d);
      BackFrom(z, u, v, e);
    }
  }

  /** An attempt at one link does not touch what has become of another. */
  ghost predicate Clear(u: World, c: Side, d: Side) { c.account != d.account && Owned(u, c) && Owned(u, d) }

  lemma SideStays(u: World, v: World, c: Side, d: Side, e: Side)
    requires Clear(u, c, d) && Clear(u, c, e) && OnlySides(u, v, d, e)
    ensures c.session != 0 ==>
              c.session in u.players && c.session in v.players && v.players[c.session] == u.players[c.session]
    ensures c.session == 0 && c.account in u.leave ==> c.account in v.leave && v.leave[c.account] == u.leave[c.account]
  {
    hide Queued, SameBody;
  }

  lemma AttemptedStays(z: World, u: World, v: World, from: nat, l: PairLink, m: PairLink, d: Side, e: Side)
    requires Attempted(z, u, from, l, m) && OnlySides(u, v, d, e)
    requires Clear(u, l.sides[0], d) && Clear(u, l.sides[0], e) && Clear(u, l.sides[1], d) && Clear(u, l.sides[1], e)
    ensures Attempted(z, v, from, l, m)
  {
    hide Clear, OnlySides, HeadIs, QueueFull;
    SideStays(u, v, l.sides[0], d, e);
    SideStays(u, v, l.sides[1], d, e);
    SidesQueued(u, v, d, e);
    if m.inFlight {
      var k: nat :| from <= k < |u.jobs| && IsPair(z, u.jobs[k], l, m);
      JobStays(u, v, k);
      assert IsPair(z, v.jobs[k], l, m);
    } else {
      StaysFull(u, v, if l.sides[0].account < l.sides[1].account then l.sides[0].account else l.sides[1].account, 2);
    }
  }

  lemma SidesQueued(u: World, v: World, d: Side, e: Side)
    requires OnlySides(u, v, d, e)
    ensures Queued(u, v)
  {
    hide Queued, SameBody;
  }

  lemma JobStays(u: World, v: World, k: nat)
    requires Queued(u, v) && k < |u.jobs|
    ensures k < |v.jobs| && v.jobs[k] == u.jobs[k]
  {
  }

  lemma SameStays(z: World, u: World, v: World, c: Side, d: Side, e: Side)
    requires SideSame(z, u, c) && OnlySides(u, v, d, e) && Clear(u, c, d) && Clear(u, c, e)
    ensures SideSame(z, v, c)
  {
    hide Clear, OnlySides;
    SideStays(u, v, c, d, e);
  }

  /** Sides of two links have nothing in common. */
  lemma LinksClear(u: World, i: nat, j: nat, k: nat, n: nat)
    requires Inv(u) && i < |u.pairs| && j < |u.pairs| && i != j && k < |u.pairs[i].sides| && n < |u.pairs[j].sides|
    ensures Clear(u, u.pairs[i].sides[k], u.pairs[j].sides[n])
  {
    hide Inv;
    SideOwned(u, i, k);
    SideOwned(u, j, n);
    var a := u.pairs[i].sides[k].account;
    if u.pairs[j].sides[n].account == a {
      assert Has(u.pairs[i], a) && Has(u.pairs[j], a);
      OneLinkEach(u, i, j, a);
    }
  }

  lemma OneTried(z: World, u: World, i: nat)
    requires Inv(u) && i < |z.pairs| && LinksTo(z, u, i)
    ensures var v := if !u.pairs[i].inFlight && TwoSided(u.pairs[i]) then SendPair(u, i) else u;
            LinksTo(z, v, i + 1)
  {
    hide Inv, SendPair, Queued, SideReady, Attempted, OnlySides, SideSame, SideLike, SideHeld, SameBody;
    assert LinkWaits(z, u, i);
    if u.pairs[i].inFlight {
      assert LinkTried(z, u, |z.jobs|, i);
    } else {
      SidesOf(u, i);
      PairTries(u, i);
      var v, l := SendPair(u, i), u.pairs[i];
      var d, e := l.sides[0], l.sides[1];
      LinksQueued(z, u, i);
      SidesQueued(u, v, d, e);
      QueuedTrans(z, u, v);
      SameIsLike(z, u, d);
      SameIsLike(z, u, e);
      AttemptedFrom(z, u, v, |z.jobs|, l, v.pairs[i]);
      forall j | 0 <= j < |z.pairs| && j != i
        ensures j < i ==> LinkTried(z, v, |z.jobs|, j)
        ensures j > i ==> LinkWaits(z, v, j)
      {
        OtherLink(z, u, v, i, j);
      }
      OthersSame(z, u, v, i, d, e);
    }
  }

  lemma LinksQueued(z: World, u: World, i: nat)
    requires LinksTo(z, u, i)
    ensures Queued(z, u) && |z.jobs| <= |u.jobs|
  {
    hide Attempted, SideSame, SameBody;
  }

  lemma OtherLink(z: World, u: World, v: World, i: nat, j: nat)
    requires Inv(u) && LinksTo(z, u, i) && i < |z.pairs| && j < |z.pairs| && j != i && |v.pairs| == |u.pairs|
    requires |u.pairs[i].sides| == 2 && OnlySides(u, v, u.pairs[i].sides[0], u.pairs[i].sides[1])
             && v.pairs[j] == u.pairs[j]
    ensures j < i ==> LinkTried(z, v, |z.jobs|, j)
    ensures j > i ==> LinkWaits(z, v, j)
  {
    hide Inv, Queued, Attempted, OnlySides, SideSame, SameBody, Clear;
    var d, e := u.pairs[i].sides[0], u.pairs[i].sides[1];
    if j < i { assert LinkTried(z, u, |z.jobs|, j); } else { assert LinkWaits(z, u, j); }
    if !z.pairs[j].inFlight {
      SidesTwo(u, j);
      LinksClear(u, j, i, 0, 0);
      LinksClear(u, j, i, 0, 1);
      LinksClear(u, j, i, 1, 0);
      LinksClear(u, j, i, 1, 1);
      if j < i {
        TriedSides(z, u, |z.jobs|, z.pairs[j], u.pairs[j]);
        ClearToo(u, u.pairs[j].sides[0], z.pairs[j].sides[0], d);
        ClearToo(u, u.pairs[j].sides[0], z.pairs[j].sides[0], e);
        ClearToo(u, u.pairs[j].sides[1], z.pairs[j].sides[1], d);
        ClearToo(u, u.pairs[j].sides[1], z.pairs[j].sides[1], e);
        AttemptedStays(z, u, v, |z.jobs|, z.pairs[j], u.pairs[j], d, e);
      } else {
        SameStays(z, u, v, u.pairs[j].sides[0], d, e);
        SameStays(z, u, v, u.pairs[j].sides[1], d, e);
      }
    }
  }

  lemma SidesTwo(u: World, j: nat)
    requires Inv(u) && j < |u.pairs|
    ensures |u.pairs[j].sides| == 2
  {
    hide Inv, LinkOk, ViewOf;
    TheLink(u, j);
  }

  lemma TriedSides(z: World, u: World, from: nat, l: PairLink, m: PairLink)
    requires Attempted(z, u, from, l, m)
    ensures |l.sides| == 2 && |m.sides| == 2
    ensures forall k ::
              0 <= k < 2 ==> m.sides[k].account == l.sides[k].account && m.sides[k].session == l.sides[k].session
  {
    hide PairIn, SideUp, SideBack, PairFull;
  }

  lemma ClearToo(u: World, c: Side, b: Side, d: Side)
    requires Clear(u, c, d) && b.account == c.account && b.session == c.session
    ensures Clear(u, b, d)
  {
  }

  lemma OthersSame(z: World, u: World, v: World, i: nat, d: Side, e: Side)
    requires LinksTo(z, u, i) && OnlySides(u, v, d, e) && SideHeld(u, d) && SideHeld(u, e)
    ensures v.tickEnd == z.tickEnd && v.leave.Keys == z.leave.Keys
    ensures forall s :: s in z.players ==>
              && s in v.players && SameBody(z.players[s], v.players[s])
              && (!z.players[s].flight.paired ==> v.players[s] == z.players[s])
    ensures forall b :: b in z.leave ==>
              && b in v.leave && v.leave[b].paired == z.leave[b].paired
              && (!z.leave[b].paired ==> v.leave[b] == z.leave[b])
  {
    hide Queued, LinkTried, LinkWaits;
  }

  lemma {:induction false} LinksTry(z: World, u: World, i: nat)
    requires Sound(u) && LinksTo(z, u, i) && i <= |z.pairs|
    ensures LinksTo(z, PairsRetried(u, i), |z.pairs|) && Sound(PairsRetried(u, i))
    decreases |z.pairs| - i
  {
    hide Sound, LinksTo, SendPair, PairsRetried, Resent;
    LinksCount(z, u, i);
    RetriedIs(u, i);
    if i < |z.pairs| {
      NextTried(z, u, i);
      LinksCount(z, Resent(u, i), i + 1);
      LinksTry(z, Resent(u, i), i + 1);
    }
  }

  function Resent(u: World, i: nat): World
    requires i < |u.pairs|
  {
    if !u.pairs[i].inFlight && TwoSided(u.pairs[i]) then SendPair(u, i) else u
  }

  lemma RetriedIs(u: World, i: nat)
    ensures i >= |u.pairs| ==> PairsRetried(u, i) == u
    ensures i < |u.pairs| && |Resent(u, i).pairs| == |u.pairs| ==>
              PairsRetried(u, i) == PairsRetried(Resent(u, i), i + 1)
  {
    hide SendPair;
  }

  lemma NextTried(z: World, u: World, i: nat)
    requires Sound(u) && i < |z.pairs| == |u.pairs| && LinksTo(z, u, i)
    ensures LinksTo(z, Resent(u, i), i + 1) && Sound(Resent(u, i))
  {
    hide Sound, LinksTo, SendPair;
    InvOf(u);
    OneTried(z, u, i);
    if !u.pairs[i].inFlight && TwoSided(u.pairs[i]) { ResentSound(u, i); }
  }

  lemma ResentSound(u: World, i: nat)
    requires Sound(u) && i < |u.pairs| && !u.pairs[i].inFlight && TwoSided(u.pairs[i])
    ensures Sound(SendPair(u, i))
  {
    hide Sound, SendPair, Plays, Admits, IsNext, CanSlip, CanSaveTradeNow;
    assert Enabled(u, RetryPair(i)) && Step(u, RetryPair(i)) == SendPair(u, i);
    StepKeeps(u, RetryPair(i));
  }

  lemma LinksCount(z: World, u: World, i: nat)
    requires LinksTo(z, u, i)
    ensures |u.pairs| == |z.pairs|
  {
    hide Queued, LinkTried, LinkWaits, SameBody;
  }

  lemma InvOf(u: World)
    requires Sound(u)
    ensures Inv(u)
  {
    hide Inv;
  }

  lemma NoneYet(z: World)
    requires Inv(z)
    ensures LinksTo(z, z, 0)
  {
    hide Inv, SideReady;
    QueuedSelf(z);
    forall j | 0 <= j < |z.pairs| ensures LinkWaits(z, z, j) {
      SidesTwo(z, j);
      if !z.pairs[j].inFlight { SidesOf(z, j); }
    }
  }

  // ----- the whole tick

  /** What a tick's saves have done. On a period every player and every record that no link holds has been attended to,
      and every link that was not in flight tried; at the end of any other tick, whoever was listed, and nothing else is
      touched. */
  ghost predicate TickSaved(w: World, v: World, period: bool) {
    && v.tickEnd == [] && v.players.Keys == w.players.Keys && v.leave.Keys == w.leave.Keys && |v.pairs| == |w.pairs|
    && (forall s :: s in w.players && !(period && w.players[s].flight.paired) ==>
          if period || s in w.tickEnd then Attended(w.players[s], v, |w.jobs|, s) else v.players[s] == w.players[s])
    && (forall a :: a in w.leave && !w.leave[a].paired ==>
          if period then RecordTried(w, v, |w.jobs|, a) else v.leave[a] == w.leave[a])
    && (forall i :: 0 <= i < |w.pairs| ==> if period then LinkTried(w, v, |w.jobs|, i) else v.pairs[i] == w.pairs[i])
  }

  lemma QuietTickSaves(w: World)
    requires Inv(w)
    ensures TickSaved(w, TickEndJudged(w), false)
  {
    hide Inv, Attended, Queued, TickEndJudged;
    SoundNumbers(w);
    hide Numbered;
    NobodySeen(w, false);
    NobodySeen(w, true);
    TickEndAttends(w, w, [], false);
    TickEndAttends(w, w, [], true);
    assert [] + w.tickEnd == w.tickEnd;
    QueuedParts(w, TickEndJudged(w));
  }

  lemma NobodySeen(w: World, held: bool)
    ensures PlayersAttended(w, w, [], held)
  {
    QueuedSelf(w);
  }

  lemma {:induction false} PeriodReaches(w: World, order: seq<Session>)
    requires Sound(w)
    ensures Sound(PeriodAll(w, order)) && Reaches(w, PeriodAll(w, order))
    decreases |order|
  {
    hide Sound, Reaches, PeriodSave;
    if order == [] {
      ReachSelf(w);
    } else {
      var u, s := PeriodAll(w, order[..|order| - 1]), order[|order| - 1];
      PeriodReaches(w, order[..|order| - 1]);
      if s in u.players {
        StepKeeps(u, Period(s));
        ReachStep(u, Period(s));
        ReachTrans(w, u, PeriodSave(u, s));
      }
    }
  }

  lemma {:induction false} RetryReaches(w: World, order: seq<Account>)
    requires Sound(w)
    ensures Sound(RetryAll(w, order)) && Reaches(w, RetryAll(w, order))
    decreases |order|
  {
    hide Sound, Reaches, SendLeaveRecord;
    if order == [] {
      ReachSelf(w);
    } else {
      var a := order[0];
      ReachSelf(w);
      if a in w.leave && !w.leave[a].inFlight && !w.leave[a].paired {
        StepKeeps(w, Retry(a));
        ReachStep(w, Retry(a));
      }
      RetryReaches(RetryOne(w, a), order[1..]);
      ReachTrans(w, RetryOne(w, a), RetryAll(w, order));
    }
  }

  /** Looks, retries and links do not disturb one another. */
  lemma PeriodSaves(w: World, order: seq<Session>, accounts: seq<Account>)
    requires Sound(w) && AllSessions(w, order) && forall a :: a in w.leave ==> a in accounts
    ensures TickSaved(w, TickEndJudged(PairsRetried(RetryAll(PeriodAll(w, order), accounts), 0)), true)
  {
    hide Sound, AllSessions, PeriodAll, RetryAll, PairsRetried, TickEndJudged, Attended, Queued, LinksTo, AllTried, Inv,
         AllAttended, Numbered, PlayersAttended, TickSaved;
    var p := PeriodAll(w, order);
    var r := RetryAll(p, accounts);
    var z := PairsRetried(r, 0);
    var v := TickEndJudged(z);
    PeriodReaches(w, order);
    RetryReaches(p, accounts);
    InvOf(w);
    SoundNumbers(w);
    PeriodAttends(w, order);
    NoneTried(p);
    RetriesTry(p, p, [], accounts);
    assert [] + accounts == accounts;
    InvOf(r);
    NoneYet(r);
    LinksTry(r, r, 0);
    Through(w, p, r, z, order, accounts);
    InvOf(z);
    SoundNumbers(z);
    TickEndAttends(w, z, order, false);
    NobodySeen(z, true);
    TickEndAttends(z, z, [], true);
    TickOver(w, p, r, z, v, order, accounts);
  }

  lemma Through(w: World, p: World, r: World, z: World, order: seq<Session>, accounts: seq<Account>)
    requires AllSessions(w, order) && AllAttended(w, p, order) && AllTried(p, r, accounts) && LinksTo(r, z, |r.pairs|)
    ensures PlayersAttended(w, z, order, false) && Queued(w, r) && Queued(w, z)
    ensures forall s :: s in w.players ==> s in r.players && Attended(w.players[s], r, |w.jobs|, s)
  {
    hide Attended, Queued, RecordTried, RecordWaits, LinkTried, LinkWaits, SameBody;
    QueuedTrans(w, p, r);
    QueuedTrans(w, r, z);
    forall s | s in w.players ensures s in r.players && Attended(w.players[s], r, |w.jobs|, s) {
      QueuedParts(w, p);
      StaysAttended(w.players[s], p, r, |w.jobs|, s);
    }
    forall s | s in w.players && w.players[s].flight.paired == false
      ensures s in z.players && Attended(w.players[s], z, |w.jobs|, s)
    {
      AttendedHeld(w.players[s], r, |w.jobs|, s);
      StaysAttended(w.players[s], r, z, |w.jobs|, s);
    }
  }

  lemma AttendedHeld(p: Player, v: World, from: nat, s: Session)
    requires Attended(p, v, from, s)
    ensures s in v.players && v.players[s].flight.paired == p.flight.paired
    ensures p.flight.paired ==> Like(p, v.players[s])
  {
    hide SaveIn, QueueFull;
  }

  lemma TickOver(w: World, p: World, r: World, z: World, v: World, order: seq<Session>, accounts: seq<Account>)
    requires Inv(r) && AllSessions(w, order) && (forall a :: a in w.leave ==> a in accounts)
    requires AllAttended(w, p, order) && AllTried(p, r, accounts) && LinksTo(r, z, |r.pairs|)
    requires PlayersAttended(w, v, order + z.tickEnd, false) && PlayersAttended(z, v, [] + z.tickEnd, true)
    requires v.tickEnd == [] && v.leave == z.leave && v.pairs == z.pairs && Queued(w, r) && Queued(z, v)
    requires forall s :: s in w.players ==> s in r.players && Attended(w.players[s], r, |w.jobs|, s)
    ensures TickSaved(w, v, true)
  {
    hide Inv, Attended, RecordTried, LinkTried, AllSessions, LinksTo, AllTried, AllAttended, PlayersAttended, Queued;
    TickKeys(w, p, r, z, v, order, accounts);
    forall s | s in w.players && !w.players[s].flight.paired ensures Attended(w.players[s], v, |w.jobs|, s) {
      InOrder(w, v, order, z.tickEnd, s);
    }
    forall a | a in w.leave && !w.leave[a].paired ensures RecordTried(w, v, |w.jobs|, a) {
      RecordOver(w, p, r, z, v, order, accounts, a);
    }
    forall i | 0 <= i < |w.pairs| ensures LinkTried(w, v, |w.jobs|, i) { LinkOver(w, p, r, z, v, order, accounts, i); }
  }

  lemma InOrder(w: World, v: World, order: seq<Session>, more: seq<Session>, s: Session)
    requires AllSessions(w, order) && PlayersAttended(w, v, order + more, false) && s in w.players
             && !w.players[s].flight.paired
    ensures Attended(w.players[s], v, |w.jobs|, s)
  {
    hide Attended, Queued;
  }

  lemma TickKeys(w: World, p: World, r: World, z: World, v: World, order: seq<Session>, accounts: seq<Account>)
    requires AllAttended(w, p, order) && AllTried(p, r, accounts) && LinksTo(r, z, |r.pairs|)
    requires PlayersAttended(w, v, order + z.tickEnd, false) && v.leave == z.leave && v.pairs == z.pairs
    ensures v.players.Keys == w.players.Keys && v.leave.Keys == w.leave.Keys && |v.pairs| == |w.pairs|
    ensures p.leave == w.leave && r.pairs == w.pairs && |w.jobs| <= |p.jobs|
    ensures Queued(r, z) && Queued(w, p)
  {
    hide Attended, RecordTried, RecordWaits, LinkTried, LinkWaits, SameBody;
  }

  lemma RecordOver(w: World, p: World, r: World, z: World, v: World, order: seq<Session>, accounts: seq<Account>,
                   a: Account)
    requires AllAttended(w, p, order) && AllTried(p, r, accounts) && LinksTo(r, z, |r.pairs|) && a in accounts
    requires PlayersAttended(w, v, order + z.tickEnd, false) && v.leave == z.leave && v.pairs == z.pairs
    requires Queued(z, v) && a in w.leave && !w.leave[a].paired
    ensures RecordTried(w, v, |w.jobs|, a)
  {
    hide AllAttended, AllTried, LinksTo, PlayersAttended, Queued, RecordTried;
    TickKeys(w, p, r, z, v, order, accounts);
    TriedAt(p, r, accounts, a);
    EarlierTried(w, p, r, |w.jobs|, a);
    TriedKeeps(w, r, |w.jobs|, a);
    LinksLeave(r, z, a);
    StaysTried(w, r, z, |w.jobs|, a);
    StaysTried(w, z, v, |w.jobs|, a);
  }

  lemma TriedAt(p: World, r: World, accounts: seq<Account>, a: Account)
    requires AllTried(p, r, accounts) && a in accounts && a in p.leave
    ensures RecordTried(p, r, |p.jobs|, a)
  {
    hide RecordTried, OnlyRecords;
  }

  lemma EarlierTried(w: World, p: World, r: World, from: nat, a: Account)
    requires RecordTried(p, r, |p.jobs|, a) && p.leave == w.leave && from <= |p.jobs| && a in w.leave
    ensures RecordTried(w, r, from, a)
  {
    hide QueueFull;
  }

  lemma TriedKeeps(w: World, r: World, from: nat, a: Account)
    requires RecordTried(w, r, from, a) && a in w.leave
    ensures a in r.leave && r.leave[a].paired == w.leave[a].paired
  {
    hide QueueFull, RecordIn;
  }

  lemma LinksLeave(r: World, z: World, a: Account)
    requires LinksTo(r, z, |r.pairs|) && a in r.leave && !r.leave[a].paired
    ensures a in z.leave && z.leave[a] == r.leave[a]
  {
    hide LinkTried, LinkWaits, SameBody, Queued;
  }

  lemma LinkOver(w: World, p: World, r: World, z: World, v: World, order: seq<Session>, accounts: seq<Account>, i: nat)
    requires Inv(r) && i < |w.pairs| && AllAttended(w, p, order) && AllTried(p, r, accounts) && LinksTo(r, z, |r.pairs|)
    requires PlayersAttended(w, v, order + z.tickEnd, false) && PlayersAttended(z, v, [] + z.tickEnd, true)
    requires v.leave == z.leave && v.pairs == z.pairs && Queued(w, r) && Queued(z, v)
    requires forall s :: s in w.players ==> s in r.players && Attended(w.players[s], r, |w.jobs|, s)
    requires |v.pairs| == |w.pairs|
    ensures LinkTried(w, v, |w.jobs|, i)
  {
    hide Inv, AllAttended, AllTried, LinksTo, PlayersAttended, Queued, Attended, Attempted, SideReady, SideLike,
         SideHeld;
    TickKeys(w, p, r, z, v, order, accounts);
    LinkDone(r, z, i);
    if !w.pairs[i].inFlight {
      var l, m := w.pairs[i], z.pairs[i];
      SidesOf(r, i);
      LikeSince(w, p, r, accounts, l.sides[0]);
      LikeSince(w, p, r, accounts, l.sides[1]);
      QueuedParts(w, r);
      AttemptedFrom(w, r, z, |w.jobs|, l, m);
      HeldAt(r, z, v, l.sides[0]);
      HeldAt(r, z, v, l.sides[1]);
      AttemptedAfter(w, z, v, |w.jobs|, l, m);
    }
  }

  lemma LinkDone(r: World, z: World, i: nat)
    requires LinksTo(r, z, |r.pairs|) && i < |r.pairs|
    ensures |z.pairs| == |r.pairs| && LinkTried(r, z, |r.jobs|, i)
  {
    hide LinkTried, LinkWaits, SameBody, Queued;
  }

  /** A held side is as it was before the looks and the retries. */
  lemma LikeSince(w: World, p: World, r: World, accounts: seq<Account>, d: Side)
    requires SideHeld(r, d) && AllTried(p, r, accounts) && p.leave == w.leave && Queued(w, r)
    requires forall s :: s in w.players ==> s in r.players && Attended(w.players[s], r, |w.jobs|, s)
    ensures SideLike(w, r, d)
  {
    hide Attended, Like, RecordIn, QueueFull;
    QueuedParts(w, r);
    hide Queued;
    if d.session != 0 {
      AttendedHeld(w.players[d.session], r, |w.jobs|, d.session);
    } else {
      if d.account in accounts { TriedAt(p, r, accounts, d.account); } else { assert RecordWaits(p, r, d.account); }
    }
  }

  /** The end of the tick leaves a held side alone. */
  lemma HeldAt(r: World, z: World, v: World, d: Side)
    requires SideHeld(r, d) && LinksTo(r, z, |r.pairs|) && PlayersAttended(z, v, [] + z.tickEnd, true)
             && v.leave == z.leave
    ensures SideLike(z, v, d)
  {
    hide LinkTried, LinkWaits, Attended, Queued;
    if d.session != 0 {
      assert SameBody(r.players[d.session], z.players[d.session]);
      if d.session in [] + z.tickEnd { AttendedHeld(z.players[d.session], v, |z.jobs|, d.session); }
    }
  }

  lemma AttemptedAfter(w: World, z: World, v: World, from: nat, l: PairLink, m: PairLink)
    requires Attempted(w, z, from, l, m) && Queued(z, v) && SideLike(z, v, l.sides[0]) && SideLike(z, v, l.sides[1])
    ensures Attempted(w, v, from, l, m)
  {
    hide HeadIs, QueueFull;
    if m.inFlight {
      var k: nat :| from <= k < |z.jobs| && IsPair(w, z.jobs[k], l, m);
      JobStays(z, v, k);
      assert IsPair(w, v.jobs[k], l, m);
    } else {
      StaysFull(z, v, if l.sides[0].account < l.sides[1].account then l.sides[0].account else l.sides[1].account, 2);
    }
  }

  // ----- stopping

  /** The last record of player `p`: its state, with all that was marked or in flight; if no link holds it, it is in
      flight or its queue is full. */
  ghost predicate LastOf(p: Player, v: World, from: nat) {
    p.account in v.leave && var q := v.leave[p.account];
    && q.row == CharRow(p.place, p.values) && RowsAre(q.rows, p.bag, p.unsaved + p.flight.slots)
    && q.paired == p.flight.paired
    && (!q.paired && q.inFlight ==> RecordIn(v, from, p.account, q))
    && (!q.paired && !q.inFlight ==> QueueFull(v, p.account, 1))
  }

  ghost predicate SameNames(ps: seq<PairLink>, qs: seq<PairLink>) {
    && |qs| == |ps|
    && forall i :: 0 <= i < |ps| ==>
         && |qs[i].sides| == |ps[i].sides|
         && forall k :: 0 <= k < |ps[i].sides| ==> qs[i].sides[k].account == ps[i].sides[k].account
  }

  lemma DetachNames(ps: seq<PairLink>, a: Account)
    ensures SameNames(ps, Detach(ps, a))
  {
    hide FindPair, SideOf;
  }

  lemma NamesTrans(ps: seq<PairLink>, qs: seq<PairLink>, rs: seq<PairLink>)
    requires SameNames(ps, qs) && SameNames(qs, rs)
    ensures SameNames(ps, rs)
  {
  }

  lemma LastIs(u: World, p: Player)
    ensures var r := LastRecord(u, p);
            && r.row == CharRow(p.place, p.values) && RowsAre(r.rows, p.bag, p.unsaved + p.flight.slots)
            && r.paired == p.flight.paired && !r.inFlight
  {
  }

  lemma GoneIs(u: World, s: Session)
    requires s in u.players
    ensures var v, p := Departed(u, s), u.players[s];
            && Queued(u, v) && v.jobs == u.jobs && SameNames(u.pairs, v.pairs)
            && v.leave == u.leave[p.account := LastRecord(u, p)]
            && forall t :: t in u.players && t != s ==> t in v.players && v.players[t] == u.players[t]
  {
    hide Emptied, LastRecord, Detach;
    var p := u.players[s];
    DetachNames(u.pairs, p.account);
    assert u.players[s := Emptied(p)].Keys == u.players.Keys;
  }

  lemma LeavesFinally(u: World, s: Session)
    requires s in u.players
    ensures var v, p := LeaveFinal(u, s), u.players[s];
            && Queued(u, v) && SameNames(u.pairs, v.pairs) && LastOf(p, v, |u.jobs|)
            && v.leave.Keys == u.leave.Keys + {p.account}
            && (forall b :: b in u.leave && b != p.account ==> b in v.leave && v.leave[b] == u.leave[b])
            && forall t :: t in u.players && t != s ==> t in v.players && v.players[t] == u.players[t]
  {
    hide Departed, SendLeaveRecord, LastRecord, RowsAre, Queued, QueueFull, RecordIn, SameNames;
    var p, g := u.players[s], Departed(u, s);
    GoneIs(u, s);
    LastIs(u, p);
    if !p.flight.paired {
      SentRecord(g, p.account);
      QueuedTrans(u, g, SendLeaveRecord(g, p.account));
    }
  }

  lemma StaysLast(p: Player, u: World, v: World, from: nat)
    requires LastOf(p, u, from) && Queued(u, v) && p.account in v.leave && v.leave[p.account] == u.leave[p.account]
    ensures LastOf(p, v, from)
  {
    hide RowsAre, QueueFull;
    if QueueFull(u, p.account, 1) { StaysFull(u, v, p.account, 1); }
    if RecordIn(u, from, p.account, u.leave[p.account]) { StaysRecord(u, v, from, p.account, u.leave[p.account]); }
  }

  lemma StaysRecord(u: World, v: World, from: nat, a: Account, r: LeaveRecord)
    requires RecordIn(u, from, a, r) && Queued(u, v)
    ensures RecordIn(v, from, a, r)
  {
    var k: nat :| from <= k < |u.jobs| && IsSave(u.jobs[k], a, 0, r.bundleNo, r.row) && u.jobs[k].w.rows == r.rows;
    assert v.jobs[k] == u.jobs[k];
  }

  lemma EarlierLast(p: Player, v: World, from: nat, later: nat)
    requires LastOf(p, v, later) && from <= later
    ensures LastOf(p, v, from)
  {
    hide RowsAre, QueueFull;
  }

  /** The players `seen` have become leave records; the others, and the records there were, are as before. */
  ghost predicate FinalStage(w: World, u: World, seen: seq<Session>) {
    && Queued(w, u) && SameNames(w.pairs, u.pairs)
    && (forall s :: s in w.players && s in seen ==> LastOf(w.players[s], u, |w.jobs|))
    && (forall s :: s in w.players && s !in seen ==> s in u.players && u.players[s] == w.players[s])
    && (forall a :: a in w.leave ==> a in u.leave && u.leave[a] == w.leave[a])
    && (forall a ::
          a in u.leave ==> a in w.leave || exists s :: s in w.players && s in seen && w.players[s].account == a)
  }

  /** No two players have one account, and no player has a record. */
  ghost predicate Separate(w: World) {
    && (forall s, t :: s in w.players && t in w.players && w.players[s].account == w.players[t].account ==> s == t)
    && forall s :: s in w.players ==> w.players[s].account !in w.leave
  }

  lemma InvSeparates(w: World)
    requires Inv(w)
    ensures Separate(w)
  {
    hide Inv, ViewOf, ViewOk;
    BaseOf(w);
    forall s | s in w.players ensures w.players[s].account !in w.leave {
      TheView(w, w.players[s].account);
      LiveHasNoRecord(w, s);
    }
  }

  lemma LiveHasNoRecord(w: World, s: Session)
    requires Base(w) && s in w.players && ViewOk(w.table, ViewOf(w, w.players[s].account), w.players[s].account)
    ensures w.players[s].account !in w.leave
  {
    hide HistoryOk, QueueOk, RecordOk, Gather, ReadChar;
  }

  lemma OneFinal(w: World, u: World, seen: seq<Session>, s: Session)
    requires Separate(w) && FinalStage(w, u, seen) && s in w.players && s !in seen
    ensures s in u.players && FinalStage(w, LeaveFinal(u, s), seen + [s])
  {
    hide LeaveFinal, LastOf, Queued, SameNames;
    var p, v := w.players[s], LeaveFinal(u, s);
    LeavesFinally(u, s);
    QueuedTrans(w, u, v);
    NamesTrans(w.pairs, u.pairs, v.pairs);
    StageQueued(w, u, seen);
    forall t | t in w.players && t in seen + [s] ensures LastOf(w.players[t], v, |w.jobs|) {
      if t == s {
        EarlierLast(p, v, |w.jobs|, |u.jobs|);
      } else {
        LastHas(w.players[t], u, |w.jobs|);
        StaysLast(w.players[t], u, v, |w.jobs|);
      }
    }
  }

  lemma LastHas(p: Player, u: World, from: nat)
    requires LastOf(p, u, from)
    ensures p.account in u.leave
  {
    hide RowsAre, QueueFull, RecordIn;
  }

  lemma StageQueued(w: World, u: World, seen: seq<Session>)
    requires FinalStage(w, u, seen)
    ensures |w.jobs| <= |u.jobs|
  {
    hide LastOf, SameNames;
  }

  lemma {:induction false} FinalsLeave(w: World, u: World, seen: seq<Session>, order: seq<Session>)
    requires Separate(w) && FinalStage(w, u, seen) && (forall s :: s in order ==> s in w.players && s !in seen)
    requires forall i, j :: 0 <= i < j < |order| ==> order[i] != order[j]
    ensures FinalStage(w, FinalSave(u, order), seen + order)
    decreases |order|
  {
    hide FinalStage, Separate, LeaveFinal;
    if order == [] {
      assert seen + [] == seen;
    } else {
      OneFinal(w, u, seen, order[0]);
      FinalsLeave(w, LeaveFinal(u, order[0]), seen + [order[0]], order[1..]);
      assert seen + [order[0]] + order[1..] == seen + order;
    }
  }

  lemma NobodyLeft(w: World)
    ensures FinalStage(w, w, [])
  {
    QueuedSelf(w);
  }

  /** The link's two records are there. */
  ghost predicate BothHeld(w: World, l: PairLink) {
    |l.sides| == 2 && forall k :: 0 <= k < 2 ==> l.sides[k].account in w.leave && w.leave[l.sides[k].account].paired
  }

  ghost predicate LastTried(r: World, u: World, from: nat, j: nat)
    requires j < |r.pairs| == |u.pairs|
  {
    BothHeld(r, r.pairs[j]) ==> Attempted(r, u, from, r.pairs[j], u.pairs[j])
  }

  ghost predicate LastWaits(r: World, u: World, j: nat)
    requires j < |r.pairs| == |u.pairs|
  {
    && u.pairs[j] == r.pairs[j] && |r.pairs[j].sides| == 2
    && (forall k :: 0 <= k < 2 ==> r.pairs[j].sides[k].session == 0)
    && forall k :: 0 <= k < 2 && r.pairs[j].sides[k].account in r.leave ==>
         && r.pairs[j].sides[k].account in u.leave
         && u.leave[r.pairs[j].sides[k].account] == r.leave[r.pairs[j].sides[k].account]
  }

  /** The last pairs up to `i` have been tried. */
  ghost predicate LastTo(r: World, u: World, i: nat) {
    && Queued(r, u) && |u.pairs| == |r.pairs| && SameNames(r.pairs, u.pairs) && u.leave.Keys == r.leave.Keys
    && (forall j :: 0 <= j < |r.pairs| && j < i ==> LastTried(r, u, |r.jobs|, j) && LeftLink(u, j))
    && (forall j :: i <= j < |r.pairs| ==> LastWaits(r, u, j))
    && (forall b :: b in r.leave ==>
          && b in u.leave && SameRecord(r.leave[b], u.leave[b])
          && (!r.leave[b].paired ==> u.leave[b] == r.leave[b]))
  }

  ghost predicate LeftLink(u: World, j: nat)
    requires j < |u.pairs|
  {
    |u.pairs[j].sides| == 2 && forall k :: 0 <= k < 2 ==> u.pairs[j].sides[k].session == 0
  }

  lemma LastLinksClear(u: World, i: nat, j: nat, k: nat, n: nat)
    requires LastLinks(u) && i < |u.pairs| && j < |u.pairs| && i != j
    requires k < |u.pairs[i].sides| && n < |u.pairs[j].sides|
    requires u.pairs[i].sides[k].session == 0 && u.pairs[j].sides[n].session == 0
    ensures Clear(u, u.pairs[i].sides[k], u.pairs[j].sides[n])
  {
    hide LastLink, ViewOf, DbAt, IsTrade;
    var a := u.pairs[i].sides[k].account;
    assert Has(u.pairs[i], a) && Has(u.pairs[j], u.pairs[j].sides[n].account);
  }

  lemma OnlyOne(w: World, v: World, d: Side, e: Side)
    requires OnlySide(w, v, d)
    ensures OnlySides(w, v, d, e)
  {
    hide Queued, SameBody, SameRecord;
  }

  lemma NobodyTouched(w: World, d: Side, e: Side)
    ensures OnlySides(w, w, d, e)
  {
    QueuedSelf(w);
  }

  /** With a side missing nothing but the other side's number changes. */
  lemma MissingSide(u: World, i: nat)
    requires i < |u.pairs| && |u.pairs[i].sides| == 2 && u.pairs[i].sides[0].account != u.pairs[i].sides[1].account
    requires u.pairs[i].sides[0].session == 0 && u.pairs[i].sides[1].session == 0 && !BothHeld(u, u.pairs[i])
    ensures var v, l := SendPair(u, i), u.pairs[i];
            v.pairs == u.pairs && OnlySides(u, v, l.sides[0], l.sides[1]) && FreeStay(u, v)
  {
    hide Flown, Dropped, HeadOf, PushPair, PairFits, OnlySide, OnlySides, FlownLink, QueueFull;
    var d, e := u.pairs[i].sides[0], u.pairs[i].sides[1];
    NobodyTouched(u, d, e);
    if SideReady(u, d) {
      SideFlies(u, d, e.account);
      SideDrops(u, d);
      OnlyOne(u, Dropped(u, d), d, e);
      StillMissing(u, Flown(u, d), d, e);
      SidePairs(u, Dropped(u, d), d);
      FreeOne(u, Dropped(u, d), d);
    }
  }

  lemma StillMissing(u: World, f: World, d: Side, e: Side)
    requires OnlySide(u, f, d) && e.session == 0
    ensures SideReady(f, e) ==> SideReady(u, e)
  {
    hide Queued, SameBody;
  }

  lemma FreeOne(u: World, v: World, d: Side)
    requires OnlySide(u, v, d) && d.session == 0 && SideReady(u, d)
    ensures FreeStay(u, v)
  {
    hide Queued, SameBody, SameRecord;
  }

  lemma FreeBoth(u: World, v: World, l: PairLink)
    requires |l.sides| == 2 && OnlySides(u, v, l.sides[0], l.sides[1]) && BothHeld(u, l)
    ensures FreeStay(u, v)
  {
    hide Queued, SameBody, SameRecord;
    assert u.leave[l.sides[0].account].paired && u.leave[l.sides[1].account].paired;
  }

  lemma SidePairs(u: World, v: World, d: Side)
    requires OnlySide(u, v, d)
    ensures v.pairs == u.pairs
  {
    hide Queued, SameBody, SameRecord;
  }

  lemma LastStep(r: World, u: World, i: nat)
    requires LastLinks(u) && i < |r.pairs| && LastTo(r, u, i)
    requires |u.pairs[i].sides| == 2 && u.pairs[i].sides[0].account != u.pairs[i].sides[1].account
    ensures LastTo(r, SendPair(u, i), i + 1)
  {
    hide LastLinks, SendPair, Queued, SideReady, Attempted, OnlySides, FreeStay, SideLike, SameNames, SameRecord;
    assert LastWaits(r, u, i);
    var v, l := SendPair(u, i), u.pairs[i];
    var d, e := l.sides[0], l.sides[1];
    LastQueued(r, u, i);
    LastSent(r, u, i);
    SidesQueued(u, v, d, e);
    QueuedTrans(r, u, v);
    forall j | 0 <= j < |r.pairs| && j != i
      ensures j < i ==> LastTried(r, v, |r.jobs|, j) && LeftLink(v, j)
      ensures j > i ==> LastWaits(r, v, j)
    {
      OtherLast(r, u, v, i, j);
    }
    LastRecords(r, u, v, i, d, e);
    LastNames(r, u, v, i);
  }

  lemma LastQueued(r: World, u: World, i: nat)
    requires LastTo(r, u, i)
    ensures Queued(r, u) && |r.jobs| <= |u.jobs|
  {
    hide Attempted, SameNames;
  }

  /** The attempt at link `i`. */
  lemma LastSent(r: World, u: World, i: nat)
    requires i < |r.pairs| && LastTo(r, u, i) && LastWaits(r, u, i) && |r.jobs| <= |u.jobs|
    requires u.pairs[i].sides[0].account != u.pairs[i].sides[1].account
    ensures var v, l := SendPair(u, i), u.pairs[i];
            && |v.pairs| == |u.pairs| && (forall j :: 0 <= j < |u.pairs| && j != i ==> v.pairs[j] == u.pairs[j])
            && OnlySides(u, v, l.sides[0], l.sides[1]) && FreeStay(u, v) && LastTried(r, v, |r.jobs|, i)
                 && LeftLink(v, i)
            && forall k :: 0 <= k < 2 ==> v.pairs[i].sides[k].account == l.sides[k].account
  {
    hide Queued, SendPair, Attempted, OnlySides, SideLike, SameNames;
    var v, l := SendPair(u, i), u.pairs[i];
    var d, e := l.sides[0], l.sides[1];
    LastHeld(r, u, i);
    if BothHeld(u, l) {
      PairTries(u, i);
      LastLike(r, u, d);
      LastLike(r, u, e);
      AttemptedFrom(r, u, v, |r.jobs|, l, v.pairs[i]);
      TriedSides(r, v, |r.jobs|, l, v.pairs[i]);
      FreeBoth(u, v, l);
    } else {
      MissingSide(u, i);
    }
  }

  lemma LastHeld(r: World, u: World, i: nat)
    requires i < |r.pairs| && LastTo(r, u, i) && LastWaits(r, u, i)
    ensures BothHeld(u, u.pairs[i]) <==> BothHeld(r, r.pairs[i])
    ensures BothHeld(u, u.pairs[i]) ==> SideReady(u, u.pairs[i].sides[0]) && SideReady(u, u.pairs[i].sides[1])
  {
    hide Queued, SameNames, LastTried, LeftLink;
  }

  lemma LastLike(r: World, u: World, d: Side)
    requires d.session == 0 && d.account in r.leave && d.account in u.leave && u.leave[d.account] == r.leave[d.account]
    ensures SideLike(r, u, d)
  {
  }

  lemma OtherLast(r: World, u: World, v: World, i: nat, j: nat)
    requires LastLinks(u) && i < |r.pairs| && LastTo(r, u, i) && LastWaits(r, u, i) && j < |r.pairs| && j != i
    requires |v.pairs| == |u.pairs| && v.pairs[j] == u.pairs[j]
    requires OnlySides(u, v, u.pairs[i].sides[0], u.pairs[i].sides[1])
    ensures j < i ==> LastTried(r, v, |r.jobs|, j) && LeftLink(v, j)
    ensures j > i ==> LastWaits(r, v, j)
  {
    hide LastLinks, Queued, Attempted, OnlySides, SameNames, Clear;
    var d, e := u.pairs[i].sides[0], u.pairs[i].sides[1];
    if j < i { assert LeftLink(u, j) && LastTried(r, u, |r.jobs|, j); } else { assert LastWaits(r, u, j); }
    LastLinksClear(u, j, i, 0, 0);
    LastLinksClear(u, j, i, 0, 1);
    LastLinksClear(u, j, i, 1, 0);
    LastLinksClear(u, j, i, 1, 1);
    if j < i {
      if BothHeld(r, r.pairs[j]) {
        TriedSides(r, u, |r.jobs|, r.pairs[j], u.pairs[j]);
        ClearToo(u, u.pairs[j].sides[0], r.pairs[j].sides[0], d);
        ClearToo(u, u.pairs[j].sides[0], r.pairs[j].sides[0], e);
        ClearToo(u, u.pairs[j].sides[1], r.pairs[j].sides[1], d);
        ClearToo(u, u.pairs[j].sides[1], r.pairs[j].sides[1], e);
        AttemptedStays(r, u, v, |r.jobs|, r.pairs[j], u.pairs[j], d, e);
      }
    } else {
      SideStays(u, v, u.pairs[j].sides[0], d, e);
      SideStays(u, v, u.pairs[j].sides[1], d, e);
    }
  }

  lemma LastRecords(r: World, u: World, v: World, i: nat, d: Side, e: Side)
    requires LastTo(r, u, i) && OnlySides(u, v, d, e) && FreeStay(u, v)
    ensures v.leave.Keys == r.leave.Keys
    ensures forall b :: b in r.leave ==>
              && b in v.leave && SameRecord(r.leave[b], v.leave[b])
              && (!r.leave[b].paired ==> v.leave[b] == r.leave[b])
  {
    hide Queued, SameNames, LastTried, LeftLink, SameBody;
  }

  /** Records that no link holds stay. */
  ghost predicate FreeStay(u: World, v: World) {
    forall b :: b in u.leave && !u.leave[b].paired ==> b in v.leave && v.leave[b] == u.leave[b]
  }

  lemma LastNames(r: World, u: World, v: World, i: nat)
    requires SameNames(r.pairs, u.pairs) && i < |u.pairs| == |v.pairs| && |u.pairs[i].sides| == 2
             && |v.pairs[i].sides| == 2
    requires forall j :: 0 <= j < |u.pairs| && j != i ==> v.pairs[j] == u.pairs[j]
    requires forall k :: 0 <= k < 2 ==> v.pairs[i].sides[k].account == u.pairs[i].sides[k].account
    ensures SameNames(r.pairs, v.pairs)
  {
  }

  // ----- everything that SaveAllPlayers does

  /** Nothing that could be sent is left unsent: every player is a record with its last state, every record that no link
      holds is in flight or its queue is full, and every link with both its records is in flight as one job with their
      rows, or its queue is full. */
  ghost predicate AllSaved(w: World, v: World) {
    && (forall s :: s in w.players ==> LastOf(w.players[s], v, |w.jobs|))
    && (forall a :: a in w.leave ==> a in v.leave && SameRecord(w.leave[a], v.leave[a]))
    && (forall a :: a in v.leave && !v.leave[a].paired ==>
          && (a in w.leave && w.leave[a].inFlight ==> v.leave[a] == w.leave[a])
          && (v.leave[a].inFlight && !(a in w.leave && w.leave[a].inFlight) ==> RecordIn(v, |w.jobs|, a, v.leave[a]))
          && (!v.leave[a].inFlight ==> QueueFull(v, a, 1)))
    && SameNames(w.pairs, v.pairs)
    && forall i :: 0 <= i < |v.pairs| && BothHeld(v, v.pairs[i]) ==> LastSentOff(v, |w.jobs|, v.pairs[i])
  }

  /** `accounts` lists the table of leave records as it is once the players have left. */
  ghost predicate Listed(w: World, accounts: seq<Account>) {
    && (forall a :: a in w.leave ==> a in accounts)
    && forall s :: s in w.players ==> w.players[s].account in accounts
  }

  ghost predicate LastSentOff(v: World, from: nat, m: PairLink) {
    && |m.sides| == 2
    && (m.inFlight ==> exists k: nat :: from <= k < |v.jobs| && IsPair(v, v.jobs[k], m, m))
    && (!m.inFlight ==> PairFull(v, m))
  }

  lemma {:induction false} LastsTry(r: World, u: World, i: nat)
    requires Final(u) && LastLinks(u) && LastTo(r, u, i) && i <= |r.pairs|
    ensures LastTo(r, PairAll(u, i), |r.pairs|)
    decreases |r.pairs| - i
  {
    hide Final, LastLinks, LastTo, SendPair;
    LastCount(r, u, i);
    if i < |r.pairs| {
      LastParts(u, i);
      SendLastKeeps(u, i);
      LastStep(r, u, i);
      LastsTry(r, SendPair(u, i), i + 1);
    }
  }

  lemma LastCount(r: World, u: World, i: nat)
    requires LastTo(r, u, i)
    ensures |u.pairs| == |r.pairs|
  {
    hide Queued, LastTried, LastWaits, SameNames;
  }

  lemma NothingTried(r: World)
    requires Final(r) && LastLinks(r)
    ensures LastTo(r, r, 0)
  {
    hide Final, LastLinks;
    QueuedSelf(r);
    forall j | 0 <= j < |r.pairs| ensures LastWaits(r, r, j) { LastParts(r, j); }
  }

  lemma BeforePairs(w: World, hub: seq<Session>, accounts: seq<Account>)
    requires Inv(w) && AllSessions(w, hub)
    ensures Final(RetryAll(FinalSave(w, hub), accounts)) && LastLinks(RetryAll(FinalSave(w, hub), accounts))
  {
    hide Inv, Final, LastLinks, FinalSave, RetryAll;
    assert w.(players := w.players) == w;
    FinalSaveKeeps(w, w.players, hub);
    RetryAllKeeps(FinalSave(w, hub), accounts);
    WithPlayers(RetryAll(FinalSave(w, hub), accounts));
  }

  lemma SavesAll(w: World, sessions: seq<Session>, accounts: seq<Account>)
    requires Inv(w) && AllSessions(w, sessions)
    requires Listed(w, accounts)
    ensures AllSaved(w, SaveAll(w, sessions, accounts))
  {
    hide Inv, AllSessions, FinalSave, RetryAll, PairAll, Final, LastLinks, FinalStage, AllTried, LastTo, Separate,
         AllSaved;
    var u := FinalSave(w, sessions);
    var r := RetryAll(u, accounts);
    var v := PairAll(r, 0);
    BeforePairs(w, sessions, accounts);
    InvSeparates(w);
    NobodyLeft(w);
    InSessions(w, sessions);
    FinalsLeave(w, w, [], sessions);
    assert [] + sessions == sessions;
    NoneTried(u);
    RetriesTry(u, u, [], accounts);
    assert [] + accounts == accounts;
    NothingTried(r);
    LastsTry(r, r, 0);
    AllOver(w, u, r, v, sessions, accounts);
  }

  lemma InSessions(w: World, sessions: seq<Session>)
    requires AllSessions(w, sessions)
    ensures (forall s :: s in sessions <==> s in w.players)
            && (forall i, j :: 0 <= i < j < |sessions| ==> sessions[i] != sessions[j])
  {
  }

  lemma AllOver(w: World, u: World, r: World, v: World, sessions: seq<Session>, accounts: seq<Account>)
    requires AllSessions(w, sessions) && Separate(w)
    requires Listed(w, accounts)
    requires FinalStage(w, u, sessions) && AllTried(u, r, accounts) && LastTo(r, v, |r.pairs|)
    ensures AllSaved(w, v)
  {
    hide LastOf, RecordTried, LastTried, LastWaits, Queued, SameNames, RecordIn, QueueFull, RecordWaits, AllSessions,
         Separate, FinalStage, AllTried, LastTo, SameRecord, LastSentOff, BothHeld;
    OverNames(w, u, r, v, sessions, accounts);
    forall s | s in w.players ensures LastOf(w.players[s], v, |w.jobs|) {
      PlayerOver(w, u, r, v, sessions, accounts, s);
    }
    forall a | a in w.leave ensures a in v.leave && SameRecord(w.leave[a], v.leave[a]) {
      RecordKept(w, u, r, v, sessions, accounts, a);
    }
    forall a | a in v.leave && !v.leave[a].paired
      ensures a in w.leave && w.leave[a].inFlight ==> v.leave[a] == w.leave[a]
      ensures v.leave[a].inFlight && !(a in w.leave && w.leave[a].inFlight) ==> RecordIn(v, |w.jobs|, a, v.leave[a])
      ensures !v.leave[a].inFlight ==> QueueFull(v, a, 1)
    {
      FreeOver(w, u, r, v, sessions, accounts, a);
    }
    forall i | 0 <= i < |v.pairs| && BothHeld(v, v.pairs[i]) ensures LastSentOff(v, |w.jobs|, v.pairs[i]) {
      PairOver(w, u, r, v, sessions, accounts, i);
    }
  }

  lemma OverNames(w: World, u: World, r: World, v: World, sessions: seq<Session>, accounts: seq<Account>)
    requires FinalStage(w, u, sessions) && AllTried(u, r, accounts) && LastTo(r, v, |r.pairs|)
    ensures SameNames(w.pairs, v.pairs) && |w.jobs| <= |u.jobs| <= |r.jobs| && Queued(u, r) && Queued(r, v)
            && Queued(w, v)
    ensures v.leave.Keys == r.leave.Keys == u.leave.Keys
  {
    hide LastOf, RecordTried, RecordWaits, LastTried, LastWaits, SameNames, SameRecord;
    NamesTrans(w.pairs, r.pairs, v.pairs);
    QueuedTrans(w, u, r);
    QueuedTrans(w, r, v);
  }

  /** The row and the rows of a record stay from stage to stage. */
  lemma KeptTo(u: World, r: World, v: World, accounts: seq<Account>, a: Account)
    requires AllTried(u, r, accounts) && LastTo(r, v, |r.pairs|) && a in u.leave
    ensures a in r.leave && a in v.leave && SameRecord(u.leave[a], v.leave[a]) && SameRecord(u.leave[a], r.leave[a])
    ensures u.leave[a].paired ==> r.leave[a] == u.leave[a]
    ensures !u.leave[a].paired ==> v.leave[a] == r.leave[a]
    ensures !u.leave[a].paired && a in accounts ==> RecordTried(u, r, |u.jobs|, a)
  {
    hide LastTried, LastWaits, Queued, SameNames, RecordIn, QueueFull;
  }

  lemma PlayerOver(w: World, u: World, r: World, v: World, sessions: seq<Session>, accounts: seq<Account>, s: Session)
    requires AllSessions(w, sessions) && s in w.players && w.players[s].account in accounts
    requires FinalStage(w, u, sessions) && AllTried(u, r, accounts) && LastTo(r, v, |r.pairs|)
    ensures LastOf(w.players[s], v, |w.jobs|)
  {
    hide AllTried, LastTo, Queued, SameNames, RecordIn, QueueFull, RowsAre, RecordTried;
    OverNames(w, u, r, v, sessions, accounts);
    var p := w.players[s];
    var a := p.account;
    assert LastOf(p, u, |w.jobs|);
    KeptTo(u, r, v, accounts, a);
    if !p.flight.paired {
      StaysTried(u, r, v, |u.jobs|, a);
      QueuedTrans(u, r, v);
      LastTriedOf(u, v, |w.jobs|, |u.jobs|, a);
    }
  }

  /** A record that was tried and one that already was in flight come to the same. */
  lemma LastTriedOf(u: World, v: World, from: nat, later: nat, a: Account)
    requires a in u.leave && RecordTried(u, v, later, a) && !u.leave[a].paired && from <= later && Queued(u, v)
    requires u.leave[a].inFlight ==> RecordIn(u, from, a, u.leave[a])
    ensures a in v.leave && (v.leave[a].inFlight ==> RecordIn(v, from, a, v.leave[a]))
            && (!v.leave[a].inFlight ==> QueueFull(v, a, 1))
  {
    hide QueueFull;
    if u.leave[a].inFlight { StaysRecord(u, v, from, a, u.leave[a]); }
  }

  lemma RecordKept(w: World, u: World, r: World, v: World, sessions: seq<Session>, accounts: seq<Account>, a: Account)
    requires a in w.leave && FinalStage(w, u, sessions) && AllTried(u, r, accounts) && LastTo(r, v, |r.pairs|)
    ensures a in v.leave && SameRecord(w.leave[a], v.leave[a])
  {
    hide AllTried, LastTo, Queued, SameNames, LastOf, RecordTried;
    KeptTo(u, r, v, accounts, a);
  }

  lemma FreeOver(w: World, u: World, r: World, v: World, sessions: seq<Session>, accounts: seq<Account>, a: Account)
    requires AllSessions(w, sessions) && Separate(w)
    requires Listed(w, accounts)
    requires FinalStage(w, u, sessions) && AllTried(u, r, accounts) && LastTo(r, v, |r.pairs|)
    requires a in v.leave && !v.leave[a].paired
    ensures a in w.leave && w.leave[a].inFlight ==> v.leave[a] == w.leave[a]
    ensures v.leave[a].inFlight && !(a in w.leave && w.leave[a].inFlight) ==> RecordIn(v, |w.jobs|, a, v.leave[a])
    ensures !v.leave[a].inFlight ==> QueueFull(v, a, 1)
  {
    hide AllTried, LastTo, Queued, SameNames, RecordIn, QueueFull, RowsAre, RecordTried, LastOf;
    OverNames(w, u, r, v, sessions, accounts);
    KeptTo(u, r, v, accounts, a);
    QueuedTrans(u, r, v);
    if a in w.leave {
      StaysTried(u, r, v, |u.jobs|, a);
      FreeRecord(u, v, |w.jobs|, |u.jobs|, a);
    } else {
      var s :| s in w.players && s in sessions && w.players[s].account == a;
      PlayerOver(w, u, r, v, sessions, accounts, s);
      LastFree(w.players[s], v, |w.jobs|);
    }
  }

  lemma FreeRecord(u: World, v: World, from: nat, later: nat, a: Account)
    requires a in u.leave && RecordTried(u, v, later, a) && !u.leave[a].paired && from <= later
    ensures a in v.leave && (u.leave[a].inFlight ==> v.leave[a] == u.leave[a])
    ensures v.leave[a].inFlight && !u.leave[a].inFlight ==> RecordIn(v, from, a, v.leave[a])
    ensures !v.leave[a].inFlight ==> QueueFull(v, a, 1)
  {
    hide QueueFull;
  }

  lemma LastFree(p: Player, v: World, from: nat)
    requires LastOf(p, v, from) && p.account in v.leave && !v.leave[p.account].paired
    ensures v.leave[p.account].inFlight ==> RecordIn(v, from, p.account, v.leave[p.account])
    ensures !v.leave[p.account].inFlight ==> QueueFull(v, p.account, 1)
  {
    hide RowsAre, RecordIn, QueueFull;
  }

  lemma PairOver(w: World, u: World, r: World, v: World, sessions: seq<Session>, accounts: seq<Account>, i: nat)
    requires FinalStage(w, u, sessions) && AllTried(u, r, accounts) && LastTo(r, v, |r.pairs|)
    requires i < |v.pairs| && BothHeld(v, v.pairs[i])
    ensures LastSentOff(v, |w.jobs|, v.pairs[i])
  {
    hide FinalStage, AllTried, Queued, SameNames, HeadIs, QueueFull;
    OverNames(w, u, r, v, sessions, accounts);
    LastDone(r, v, i);
    var l, m := r.pairs[i], v.pairs[i];
    if m.inFlight {
      var k: nat :| |r.jobs| <= k < |v.jobs| && IsPair(r, v.jobs[k], l, m);
      HeadAfter(r, v, l.sides[0], m.sides[0], l.sides[1].account, v.jobs[k].first);
      HeadAfter(r, v, l.sides[1], m.sides[1], l.sides[0].account, v.jobs[k].second);
      assert IsPair(v, v.jobs[k], m, m);
    }
  }

  lemma LastDone(r: World, v: World, i: nat)
    requires LastTo(r, v, |r.pairs|) && i < |v.pairs| && BothHeld(v, v.pairs[i])
    ensures i < |r.pairs| && Attempted(r, v, |r.jobs|, r.pairs[i], v.pairs[i]) && LeftLink(v, i)
    ensures forall k :: 0 <= k < 2 ==>
              && r.pairs[i].sides[k].account in r.leave && r.pairs[i].sides[k].account in v.leave
              && SameRecord(r.leave[r.pairs[i].sides[k].account], v.leave[r.pairs[i].sides[k].account])
  {
    hide Queued, Attempted;
    assert LastTried(r, v, |r.jobs|, i) && LeftLink(v, i);
    forall k | 0 <= k < 2 ensures v.pairs[i].sides[k].account == r.pairs[i].sides[k].account { }
  }

  lemma HeadAfter(r: World, v: World, d: Side, e: Side, mate: Account, x: Write)
    requires HeadIs(r, d, mate, x) && d.account == e.account && d.session == e.session == 0
    requires d.account in r.leave && d.account in v.leave && SameRecord(r.leave[d.account], v.leave[d.account])
    ensures HeadIs(v, e, mate, x)
  {
  }
}
