/** Stopping the server: every player becomes a leave record, held records are sent once more as pairs even while
    their earlier pair is still queued, the workers drain, and the replies are heard one last time. */
module SaveShutdown {
  import opened Items
  import opened Seqs
  import opened SaveTypes
  import opened SaveSteps
  import opened SaveInvariant
  import opened SaveViews
  import opened SaveKeeps
  import opened SavePairs
  import opened SaveReplies
  import opened SaveRelease
  import opened SaveWorker
  import opened SaveLoads
  import opened SaveTheorems

  // ----- the steps

  function FinalSave(w: World, order: seq<Session>): World
    decreases |order|
  {
    if order == [] then w
    else FinalSave(if order[0] in w.players then LeaveFinal(w, order[0]) else w, order[1..])
  }

  function RetryOne(w: World, a: Account): World {
    if a in w.leave && !w.leave[a].inFlight && !w.leave[a].paired then SendLeaveRecord(w, a) else w
  }

  function RetryAll(w: World, order: seq<Account>): World
    decreases |order|
  {
    if order == [] then w else RetryAll(RetryOne(w, order[0]), order[1..])
  }

  /** Every link from the `i`th on, in flight or not. */
  function PairAll(w: World, i: nat): World
    decreases |w.pairs| - i
  {
    if i < |w.pairs| && TwoSided(w.pairs[i]) && |SendPair(w, i).pairs| == |w.pairs| then PairAll(SendPair(w, i), i + 1)
       else w
  }

  /** CCharacterStore::SaveAllPlayers. */
  function SaveAll(w: World, sessions: seq<Session>, accounts: seq<Account>): World {
    PairAll(RetryAll(FinalSave(w, sessions), accounts), 0)
  }

  /** The last replies, each heard by its owner only; links are not looked at any more. */
  function Heard(w: World): World
    decreases |w.replies|
  {
    if w.replies == [] then w else Heard(OnSaveReply(Tail(w), w.replies[0]))
  }

  // ----- what is kept from then on

  /** A record that may have been tried any number of times: every attempt carries the account's last state, and a
      good answer to any of them means that state is stored. */
  ghost predicate RecordFinal(v: View, r: LeaveRecord) {
    && r.at == |v.hist| - 1
    && v.hist[r.at].row == Some(r.row)
    && RowsOk(r.rows, v.hist[r.at].bag)
    && Agrees(v, v.snap.bag, v.hist[r.at].bag, r.rows.Keys)
    && (forall i ::
          0 <= i < |v.ws| ==> v.ws[i].at < |v.hist| && Agrees(v, v.hist[v.ws[i].at].bag, v.hist[r.at].bag, r.rows.Keys))
    && (forall i :: 0 <= i < |v.ws| && v.ws[i].session == LEFT ==> v.ws[i].at == r.at)
    && (forall i :: 0 <= i < |v.rs| && v.rs[i].session == LEFT && v.rs[i].ok ==> v.dbAt == r.at)
  }

  ghost predicate FinalOk(table: ItemTable, v: View, a: Account) {
    && HistoryOk(table, v) && QueueOk(v, a)
    && v.live.None?
    && (v.rec.Some? ==> RecordFinal(v, v.rec.value))
    && (v.rec.None? ==> v.dbAt == |v.hist| - 1)
  }

  /** While a trade is not stored, only pairs write to its two accounts, and each stores it for both. */
  ghost predicate TradeJob(j: Job, t: Trade) {
    || (WritesIn(j, t.a) == [] && WritesIn(j, t.b) == [])
    || (exists x, y :: WritesIn(j, t.a) == [x] && WritesIn(j, t.b) == [y] && x.at >= t.aAt && y.at >= t.bAt)
  }

  ghost predicate TradeFinal(w: World, t: Trade) {
    && t.a != t.b
    && (DbAt(w, t.a) >= t.aAt <==> DbAt(w, t.b) >= t.bAt)
    && (DbAt(w, t.a) < t.aAt ==> forall i :: 0 <= i < |w.jobs| ==> TradeJob(w.jobs[i], t))
  }

  ghost predicate Final(w: World) {
    && w.owner == map[]
    && (forall s :: s in w.players ==> w.players[s].flight.bundleNo == 0)
    && PlainJobs(w.jobs)
    && (forall a :: FinalOk(w.table, ViewOf(w, a), a))
    && (forall i :: 0 <= i < |w.trades| ==> TradeFinal(w, w.trades[i]))
  }

  // ----- one account

  lemma FinalFromView(table: ItemTable, v: View, a: Account)
    requires ViewOk(table, v, a) && v.live.None?
    ensures FinalOk(table, v, a)
  {
    hide HistoryOk, QueueOk, Agree, RowsOk;
  }

  lemma FinalExecuted(table: ItemTable, v: View, a: Account, commit: bool, ok: bool, now: Snap)
    requires FinalOk(table, v, a) && v.ws != [] && v.ws[0].at < |v.hist| && Becomes(v, commit, now) && (ok ==> commit)
    ensures FinalOk(table, AfterWrite(v, commit, ok, now), a)
  {
    hide GoodSnap, RowsOk, QueueOk;
    FirstWriteOk(v, a);
    ExecutedQueue(v, a, commit, ok, now);
    if v.rec.Some? { FinalExecutedRecord(v, a, v.rec.value, commit, ok, now); }
  }

  lemma FinalExecutedRecord(v: View, a: Account, r: LeaveRecord, commit: bool, ok: bool, now: Snap)
    requires RecordFinal(v, r) && v.ws != [] && (ok ==> commit) && v.dbAt <= v.ws[0].at < |v.hist|
             && Becomes(v, commit, now)
    ensures RecordFinal(AfterWrite(v, commit, ok, now), r)
  {
    hide Agree, RowsOk;
  }

  lemma FinalHeard(table: ItemTable, v: View, u: View, a: Account)
    requires FinalOk(table, v, a) && v.rs != []
    requires u == v.(rs := v.rs[1..], rec := u.rec)
    requires (u.rec == v.rec)
             || (v.rec.Some? && u.rec.Some? && u.rec.value == v.rec.value.(inFlight := false))
             || (u.rec == None && v.rs[0].session == LEFT && v.rs[0].ok)
    ensures FinalOk(table, u, a)
  {
    hide Agree, RowsOk, GoodSnap;
    FewerReplies(v, u, a);
  }

  lemma FinalRenumbered(table: ItemTable, v: View, u: View, a: Account)
    requires FinalOk(table, v, a) && v.rec.Some? && u == v.(rec := u.rec) && u.rec.Some?
    requires u.rec.value == v.rec.value.(bundleNo := u.rec.value.bundleNo, inFlight := u.rec.value.inFlight)
    ensures FinalOk(table, u, a)
  {
    hide Agree, RowsOk, GoodSnap, WriteOk;
  }

  lemma FinalAttempt(table: ItemTable, v: View, a: Account, x: Write)
    requires FinalOk(table, v, a) && v.rec.Some?
    requires x.account == a && x.bundleNo != 0 && x.row == v.rec.value.row && x.rows == v.rec.value.rows
             && x.at == v.rec.value.at
    requires forall i :: 0 <= i < |v.ws| ==> v.ws[i].mate == x.mate
    ensures FinalOk(table, v.(ws := v.ws + [x]), a)
  {
    hide GoodSnap;
    var u := v.(ws := v.ws + [x]);
    assert QueueOk(u, a) by { FinalAttemptQueue(v, a, x); }
    assert RecordFinal(u, v.rec.value) by { FinalAttemptRecord(table, v, x); }
  }

  lemma FinalAttemptQueue(v: View, a: Account, x: Write)
    requires QueueOk(v, a) && v.rec.Some? && RecordFinal(v, v.rec.value) && v.dbAt < |v.hist|
    requires x.account == a && x.bundleNo != 0 && x.row == v.rec.value.row && x.rows == v.rec.value.rows
             && x.at == v.rec.value.at
    requires forall i :: 0 <= i < |v.ws| ==> v.ws[i].mate == x.mate
    ensures QueueOk(v.(ws := v.ws + [x]), a)
  {
    hide Agree;
  }

  lemma FinalAttemptRecord(table: ItemTable, v: View, x: Write)
    requires HistoryOk(table, v) && v.rec.Some? && RecordFinal(v, v.rec.value) && x.at == v.rec.value.at
    ensures RecordFinal(v.(ws := v.ws + [x]), v.rec.value)
  {
    hide Agree;
    BagSize(table, v);
    AgreeSelf(v.hist[x.at].bag, v.rec.value.rows.Keys);
  }

  // ----- the drain

  lemma TradeStays(w: World, v: World, k: nat, commit: bool, ok: bool, t: Trade)
    requires TradeFinal(w, t) && PlainJobs(w.jobs) && k < |w.jobs| && v == Execute(w, k, commit, ok)
    requires DbAt(w, t.a) <= DbAt(v, t.a) && DbAt(w, t.b) <= DbAt(v, t.b)
    ensures TradeFinal(v, t)
  {
    hide Execute, DbAt, WritesIn, Without;
    ExecuteSame(w, k, commit, ok);
    assert PlainJob(w.jobs[k]);
    assert TradeJob(w.jobs[k], t) || DbAt(w, t.a) >= t.aAt;
    ExecuteStores(w, k, commit, ok, t.a);
    ExecuteStores(w, k, commit, ok, t.b);
    if DbAt(v, t.a) < t.aAt {
      forall i | 0 <= i < |v.jobs| ensures TradeJob(v.jobs[i], t) { WithoutIn(w.jobs, k, v.jobs[i]); }
    }
  }

  lemma ExecView(w: World, k: nat, commit: bool, ok: bool, a: Account)
    requires PlainJobs(w.jobs) && FinalOk(w.table, ViewOf(w, a), a) && IsNext(w, k) && (ok ==> commit) && k < |w.jobs|
    ensures FinalOk(w.table, ViewOf(Execute(w, k, commit, ok), a), a)
    ensures DbAt(w, a) <= DbAt(Execute(w, k, commit, ok), a)
  {
    hide Execute, ViewOf, IsNext, DbAt, AfterWrite, HistoryOk, QueueOk, RecordFinal;
    assert PlainJob(w.jobs[k]);
    if WritesIn(w.jobs[k], a) == [] {
      ExecutedOthers(w, k, commit, ok, a);
    } else {
      var x := WritesIn(w.jobs[k], a)[0];
      ExecutedAccount(w, k, commit, ok, a, x);
      FinalExecuted(w.table, ViewOf(w, a), a, commit, ok, Stored(Execute(w, k, commit, ok), a));
    }
  }

  lemma ExecFinal(w: World, k: nat, commit: bool, ok: bool)
    requires Final(w) && IsNext(w, k) && (ok ==> commit)
    ensures k < |w.jobs| && Final(Execute(w, k, commit, ok))
    ensures forall a :: DbAt(w, a) <= DbAt(Execute(w, k, commit, ok), a)
  {
    hide Execute, ViewOf, IsNext, DbAt, FinalOk, TradeFinal, PlainJob, Without;
    NextInRange(w, k);
    var v := Execute(w, k, commit, ok);
    ExecuteSame(w, k, commit, ok);
    forall a ensures FinalOk(v.table, ViewOf(v, a), a) && DbAt(w, a) <= DbAt(v, a) { ExecView(w, k, commit, ok, a); }
    forall i | 0 <= i < |v.jobs| ensures PlainJob(v.jobs[i]) { WithoutIn(w.jobs, k, v.jobs[i]); }
    forall i | 0 <= i < |v.trades| ensures TradeFinal(v, v.trades[i]) {
      assert TradeFinal(w, w.trades[i]);
      TradeStays(w, v, k, commit, ok, w.trades[i]);
    }
  }

  /** A last reply reaches its leave record or nobody. */
  lemma HearIs(w: World)
    requires Final(w) && w.replies != []
    ensures var r, v := w.replies[0], OnSaveReply(Tail(w), w.replies[0]);
            && v == Tail(w).(leave := v.leave)
            && ViewOf(w, r.account).rs != [] && ViewOf(w, r.account).rs[0] == r
            && ViewOf(v, r.account) == ViewOf(w, r.account).(rs := ViewOf(w, r.account).rs[1..],
                                                             rec := ViewOf(v, r.account).rec)
            && (|| ViewOf(v, r.account).rec == ViewOf(w, r.account).rec
                || (&& ViewOf(w, r.account).rec.Some? && ViewOf(v, r.account).rec.Some?
                    && ViewOf(v, r.account).rec.value == ViewOf(w, r.account).rec.value.(inFlight := false))
                || (ViewOf(v, r.account).rec == None && r.session == LEFT && r.ok))
            && forall b :: b != r.account ==> ViewOf(v, b) == ViewOf(w, b)
  {
    hide Tail, FinalOk, RepliesFor, ReadChar, WritesFor, TradeFinal, PlainJobs;
    var r := w.replies[0];
    TailViews(w);
    TailSame(w);
    assert FinalOk(w.table, ViewOf(w, r.account), r.account);
    ReplyNumber(w.table, ViewOf(w, r.account), r.account);
  }

  lemma ReplyNumber(table: ItemTable, v: View, a: Account)
    requires FinalOk(table, v, a) && v.rs != []
    ensures v.rs[0].bundleNo != 0
  {
    hide HistoryOk, WriteOk, Agree, RecordFinal;
  }

  lemma HearFinal(w: World)
    requires Final(w) && w.replies != []
    ensures Final(OnSaveReply(Tail(w), w.replies[0]))
    ensures forall a :: DbAt(w, a) == DbAt(OnSaveReply(Tail(w), w.replies[0]), a)
  {
    hide ViewOf, FinalOk, TradeFinal, PlainJobs, OnSaveReply, Tail;
    var v := OnSaveReply(Tail(w), w.replies[0]);
    var a := w.replies[0].account;
    HearIs(w);
    TailSame(w);
    FinalHeard(w.table, ViewOf(w, a), ViewOf(v, a), a);
    forall i | 0 <= i < |v.trades| ensures TradeFinal(v, v.trades[i]) { SameTrade(w, v, w.trades[i]); }
  }

  lemma SameTrade(w: World, v: World, t: Trade)
    requires TradeFinal(w, t) && v.dbAt == w.dbAt && v.jobs == w.jobs
    ensures TradeFinal(v, t)
  {
    hide TradeJob;
  }

  // ----- every player leaves

  lemma LeaveFinalPlayers(w: World, s: Session, ps: map<Session, Player>)
    requires s in w.players && s in ps && ps[s] == w.players[s]
    ensures LeaveFinal(w, s).players == w.players[s := Emptied(w.players[s])]
    ensures Leave(w.(players := ps), s) == LeaveFinal(w, s).(players := ps - {s})
  {
    hide SendLeaveRecord, Detach, LastRecord, Emptied;
    var p, q := w.players[s], Emptied(w.players[s]);
    assert LastRecord(w.(players := ps), p) == LastRecord(w, p) by { SameTop(w, ps, p); }
    if !p.flight.paired {
      SendKeepsPlayers(Departed(w, s), p.account, ps[s := q]);
    }
    assert ps[s := q] - {s} == ps - {s};
  }

  lemma SameTop(w: World, ps: map<Session, Player>, p: Player)
    ensures LastRecord(w.(players := ps), p) == LastRecord(w, p)
  {
  }

  lemma {:induction false} FinalSaveKeeps(w: World, ps: map<Session, Player>, order: seq<Session>)
    requires Inv(w.(players := ps))
    requires forall s :: s in ps ==> s in order && s in w.players && w.players[s] == ps[s]
    requires forall s :: s in order ==> s in ps
    requires forall i, j :: 0 <= i < j < |order| ==> order[i] != order[j]
    requires forall s :: s in w.players && s !in ps ==> w.players[s].flight.bundleNo == 0
    ensures Inv(FinalSave(w, order).(players := map[]))
    ensures forall s :: s in FinalSave(w, order).players ==> FinalSave(w, order).players[s].flight.bundleNo == 0
    ensures SamePast(w, FinalSave(w, order))
    decreases |order|
  {
    hide Inv, LeaveFinal, Leave;
    if order == [] {
      assert forall x :: x !in ps;
    } else {
      var s := order[0];
      var v := LeaveFinal(w, s);
      LeaveFinalPlayers(w, s, ps);
      LeaveKeeps(w.(players := ps), s);
      LeaveHist(w, s);
      assert forall x :: x in order[1..] ==> x in order && x != s;
      assert forall x :: x in order && x != s ==> x in order[1..];
      FinalSaveKeeps(v, ps - {s}, order[1..]);
    }
  }

  // ----- records that failed are tried once more

  lemma RetryOneKeeps(w: World, a: Account)
    requires Inv(w.(players := map[]))
    ensures Inv(RetryOne(w, a).(players := map[]))
    ensures RetryOne(w, a).players == w.players && SamePast(w, RetryOne(w, a))
  {
    hide Inv, SendLeaveRecord;
    if a in w.leave && !w.leave[a].inFlight && !w.leave[a].paired {
      SendKeepsPlayers(w, a, map[]);
      SendLeaveRecordKeeps(w.(players := map[]), a);
      SentHist(w, a);
    }
  }

  lemma {:induction false} RetryAllKeeps(w: World, order: seq<Account>)
    requires Inv(w.(players := map[]))
    ensures Inv(RetryAll(w, order).(players := map[]))
    ensures RetryAll(w, order).players == w.players && SamePast(w, RetryAll(w, order))
    decreases |order|
  {
    hide Inv, RetryOne;
    if order != [] {
      RetryOneKeeps(w, order[0]);
      RetryAllKeeps(RetryOne(w, order[0]), order[1..]);
    }
  }
}
