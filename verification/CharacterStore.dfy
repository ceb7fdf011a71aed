/** The character store, changed in place. Every method is proved to do what the protocol's step functions say, and
    so everything proved of runs of those steps holds of it. */
module CharacterStores {
  import opened Items
  import opened Seqs
  import opened SaveTypes
  import opened DbWorkers
  import opened SavePairs
  import opened SaveArrivals
  import opened SaveBatch
  import opened SaveHalts
  import opened SaveInvariant
  import opened SaveKeeps
  import opened SaveLastPairs
  import opened SaveLoads
  import opened SaveProgress
  import opened SaveRuns
  import opened SaveShutdown
  import SaveReplies
  import S = SaveSteps

  /** A load as it is handed on: a failure exactly if it was one or its account still waits as a leave record. */
  predicate HandedAs(leave: map<Account, LeaveRecord>, r: LoadResult, h: LoadResult) {
    && h == r.(code := h.code)
    && (h.code == Failed <==> r.code == Failed || r.account in leave) && (h.code != Failed ==> h.code == r.code)
  }

  predicate AllHanded(leave: map<Account, LeaveRecord>, loads: seq<LoadResult>, handed: seq<LoadResult>) {
    |handed| == |loads| && forall i :: 0 <= i < |loads| ==> HandedAs(leave, loads[i], handed[i])
  }

  class CharacterStore {
    const table: ItemTable
    const worker: DbWorker
    var players: map<Session, Player>
    var leaveRecords: map<Account, LeaveRecord>
    var pairs: seq<PairLink>
    var leaveSeq: nat
    var inflightCount: int
    var tickEndSessions: seq<Session>
    var saveReplies: seq<Reply>        // taken from the worker, not handled yet
    var loadResults: seq<LoadResult>
    var db: map<Account, DbChar>       // what the workers have committed
    var owner: map<Account, Session>   // AUX from here on
    var used: set<Session>
    var hist: map<Account, seq<Snap>>
    var dbAt: map<Account, nat>
    var issued: map<Account, nat>
    var trades: seq<Trade>
    var stale: set<Account>
    var frameCounter: nat
    const periodFrames: nat

    ghost function View(): World
      reads this, worker
    {
      World(table, worker.workers, worker.queueMax, players, leaveRecords, pairs, leaveSeq, inflightCount,
            tickEndSessions,
            worker.jobs, worker.bundles, worker.loadsQueued, saveReplies + worker.replies, loadResults + worker.loads,
            db, owner, used, hist, dbAt, issued, trades, stale)
    }

    constructor (table: ItemTable, worker: DbWorker, periodFrames: nat, db: map<Account, DbChar>)
      ensures this.periodFrames == periodFrames && frameCounter == 0
      ensures this.table == table && this.worker == worker
      ensures View() == World(table, worker.workers, worker.queueMax, map[], map[], [], 0, 0, [],
                              worker.jobs, worker.bundles, worker.loadsQueued, worker.replies, worker.loads, db,
                              map[], {}, map a | a in db :: [ReadChar(table, db[a])], map[], map[], [], {})
    {
      this.table, this.worker, this.db, this.periodFrames, frameCounter := table, worker, db, periodFrames, 0;
      players, leaveRecords, pairs, leaveSeq, inflightCount, tickEndSessions := map[], map[], [], 0, 0, [];
      saveReplies, loadResults := [], [];
      owner, used, dbAt, issued, trades, stale := map[], {}, map[], map[], [], {};
      hist := map a | a in db :: [ReadChar(table, db[a])];
    }

    function HistTop(a: Account): nat
      reads this
    {
      var h := if a in hist then hist[a] else [ReadChar(table, NO_CHAR)];
      if |h| > 0 then |h| - 1 else 0
    }

    lemma HistTopIs(a: Account)
      ensures HistTop(a) == S.Top(View(), a)
    {
      hide ReadChar;
    }

    // ----- one bundle

    /** The rows of the slots in `bits`, read one by one. */
    method FillRows(bag: seq<Item>, bits: set<nat>) returns (rows: map<nat, Item>)
      ensures rows == S.RowsOf(bag, bits)
    {
      rows := map[];
      for i := 0 to |bag|
        invariant rows == map n | n in bits && n < i :: bag[n]
      {
        if i in bits {
          rows := rows[i := bag[i]];
        }
      }
    }

    /** Takes the next number, moves the marks into the flight record and fills the head. */
    method PrepareBundle(s: Session, mate: Option<Account>) returns (head: Write)
      requires s in players && players[s].flight.bundleNo == 0
      modifies this`players
      ensures head == S.BundleOf(old(players[s]), s, mate, S.Top(old(View()), old(players[s].account)))
      ensures players == old(players)[s := S.Prepared(old(players[s]))]
      ensures head.bundleNo == old(players[s].flight.nextNo)
              && players[s].flight.nextNo == if head.bundleNo >= 0xFFFF_FFFF then 1 else head.bundleNo + 1
    {
      hide S.Top;
      var p := players[s];
      HistTopIs(p.account);
      var rows := FillRows(p.bag, p.unsaved);
      head := Write(p.account, s, p.flight.nextNo, CharRow(p.place, p.values), rows, mate, HistTop(p.account));
      var f := p.flight.(nextNo := if p.flight.nextNo >= UINT32_MAX then 1 else p.flight.nextNo + 1,
                         savedBefore := p.saved, posDirty := p.dirty);
      var q := p.(dirty := false, saved := p.values, unsaved := {}, flight := f.(slots := p.unsaved));
      players := players[s := q];
    }

    /** Refused: the flight record's marks go back. */
    method AbortBundle(s: Session)
      requires s in players
      modifies this`players
      ensures players == old(players)[s := S.Aborted(old(players[s]))]
    {
      var p := players[s];
      var q := p.(saved := p.flight.savedBefore, unsaved := p.unsaved + p.flight.slots);
      if p.flight.posDirty {
        q := q.(dirty := true);
      }
      players := players[s := q.(flight := q.flight.(slots := {}))];
    }

    method CommitBundle(s: Session, bundleNo: nat)
      requires s in players
      modifies this`players, this`inflightCount
      ensures players == old(players)[s := S.Committed(old(players[s]), bundleNo)]
      ensures inflightCount == old(inflightCount) + 1
    {
      var p := players[s];
      players := players[s := p.(flight := p.flight.(bundleNo := bundleNo, again := false),
                                 track := p.track.(late := false))];
      inflightCount := inflightCount + 1;
    }

    method CountIssued(a: Account)
      modifies this`issued
      ensures View() == S.Issue(old(View()), a)
    {
      issued := issued[a := (if a in issued then issued[a] else 0) + 1];
    }

    /** The worker's queue takes the bundle exactly when the protocol says there is room. */
    method Enqueue(x: Write) returns (taken: bool)
      modifies this`issued, worker`jobs, worker`bundles
      ensures taken == S.SaveFits(old(View()), x)
      ensures View() == S.PushIf(old(View()), x, taken)
    {
      taken := worker.EnqueueSave(x);
      if taken {
        CountIssued(x.account);
      }
    }

    method SendBundle(s: Session) returns (sent: bool)
      requires s in players
      modifies this, worker`jobs, worker`bundles
      ensures View() == S.SendBundle(old(View()), s)
    {
      hide S.PushSave, S.SaveFits, S.BundleOf, S.Prepared, S.Committed, S.Aborted, S.Top;
      var p := players[s];
      if p.flight.paired {
        return false;
      }
      if p.flight.bundleNo != 0 {
        players := players[s := p.(flight := p.flight.(again := true))];
        return false;
      }
      ghost var w := View();
      var head := PrepareBundle(s, None);
      ghost var v := View();
      assert v == w.(players := w.players[s := S.Prepared(p)]);
      sent := Enqueue(head);
      PushLaterPlayers(w, head, v.players);
      if !sent {
        AbortBundle(s);
        AbortAfter(w, s);
        return;
      }
      CommitBundle(s, head.bundleNo);
      CommitAfter(w, s, head.bundleNo);
    }

    method RequestSave(s: Session)
      requires s in players
      modifies this`players, this`tickEndSessions
      ensures View() == S.RequestSave(old(View()), s)
    {
      var p := players[s];
      if p.flight.listed {
        return;
      }
      players := players[s := p.(flight := p.flight.(listed := true))];
      tickEndSessions := tickEndSessions + [s];
    }

    // ----- leave records

    /** Numbers start over at 1 when they run out. */
    method NextLeaveNo() returns (n: nat)
      modifies this`leaveSeq
      ensures n == leaveSeq == S.NextNo(old(leaveSeq))
      ensures n == if old(leaveSeq) >= 0xFFFF_FFFF then 1 else old(leaveSeq) + 1
    {
      leaveSeq := if leaveSeq >= UINT32_MAX then 0 else leaveSeq + 1;
      if leaveSeq == 0 {
        leaveSeq := 1;
      }
      n := leaveSeq;
    }

    method SendLeaveRecord(a: Account)
      requires a in leaveRecords
      modifies this`leaveSeq, this`leaveRecords, this`issued, worker`jobs, worker`bundles
      ensures View() == S.SendLeaveRecord(old(View()), a)
      ensures a in leaveRecords && leaveRecords[a].bundleNo == leaveSeq
              && leaveSeq == if old(leaveSeq) >= 0xFFFF_FFFF then 1 else old(leaveSeq) + 1
    {
      hide S.PushIf, S.SaveFits, S.NextNo;
      ghost var w := View();
      var n := NextLeaveNo();
      leaveRecords := leaveRecords[a := leaveRecords[a].(bundleNo := n)];
      var rec := leaveRecords[a];
      var head := Write(a, LEFT, rec.bundleNo, rec.row, rec.rows, None, rec.at);
      ghost var v := View();
      var taken := Enqueue(head);
      FitsLater(w, v, head);
      leaveRecords := leaveRecords[a := rec.(inFlight := taken)];
      assert leaveRecords == w.leave[a := w.leave[a].(bundleNo := n, inFlight := taken)];
      PushLaterLeave(v, head, taken, leaveRecords);
    }

    /** The first link that has the account on a side. */
    method FindPair(a: Account) returns (i: nat)
      ensures i == S.FindPair(pairs, a)
    {
      i := 0;
      while i < |pairs|
        invariant 0 <= i <= |pairs|
        invariant forall j :: 0 <= j < i ==> !S.Has(pairs[j], a)
      {
        var k := 0;
        while k < |pairs[i].sides|
          invariant 0 <= k <= |pairs[i].sides|
          invariant forall j :: 0 <= j < k ==> pairs[i].sides[j].account != a
        {
          if pairs[i].sides[k].account == a {
            FirstPair(pairs, a, i);
            return;
          }
          k := k + 1;
        }
        i := i + 1;
      }
      FirstPair(pairs, a, i);
    }

    /** The link's side now stands for the leave record. */
    method DetachSide(a: Account)
      requires forall i :: 0 <= i < |pairs| ==> S.TwoSided(pairs[i])
      modifies this`pairs
      ensures pairs == S.Detach(old(pairs), a)
    {
      hide S.FindPair;
      var i := FindPair(a);
      if i < |pairs| {
        var k := if pairs[i].sides[0].account == a then 0 else 1;
        pairs := pairs[i := pairs[i].(sides := pairs[i].sides[k := pairs[i].sides[k].(session := LEFT)])];
      }
    }

    /** The last bundle: the row, and the marked slots and those in flight. */
    method FinalRecord(p: Player) returns (rec: LeaveRecord)
      ensures rec == S.LastRecord(View(), p)
    {
      hide S.RowsOf, S.Top;
      HistTopIs(p.account);
      var rows := FillRows(p.bag, p.unsaved + p.flight.slots);
      rec := LeaveRecord(CharRow(p.place, p.values), rows, 0, false, p.flight.paired, HistTop(p.account));
    }

    /** Nothing of the player is in flight or held any more: its bundle's reply will find no owner, and its link's
        side stands for the record. */
    method EmptyPlayer(s: Session)
      requires s in players
      requires players[s].flight.paired ==> forall i :: 0 <= i < |pairs| ==> S.TwoSided(pairs[i])
      modifies this`players, this`inflightCount, this`pairs
      ensures players == old(players)[s := S.Emptied(old(players[s]))]
      ensures inflightCount == old(inflightCount) - (if old(players[s]).flight.bundleNo != 0 then 1 else 0)
      ensures pairs == if old(players[s]).flight.paired then S.Detach(old(pairs), old(players[s]).account)
              else old(pairs)
    {
      hide S.Detach, S.TwoSided;
      var p := players[s];
      var f := p.flight.(slots := {});
      if f.bundleNo != 0 {
        f := f.(bundleNo := 0);
        inflightCount := inflightCount - 1;
      }
      if f.paired {
        DetachSide(p.account);
        f := f.(paired := false);
      }
      players := players[s := p.(unsaved := {}, flight := f)];
    }

    method PutLeaveRecord(s: Session)
      requires s in players
      requires players[s].flight.paired ==> forall i :: 0 <= i < |pairs| ==> S.TwoSided(pairs[i])
      modifies this`players, this`inflightCount, this`pairs, this`leaveRecords, this`owner
      ensures View() == S.Departed(old(View()), s)
    {
      hide S.Detach, S.LastRecord, S.TwoSided, S.Emptied;
      var p := players[s];
      var rec := FinalRecord(p);
      EmptyPlayer(s);
      leaveRecords := leaveRecords[p.account := rec];
      owner := owner - {p.account};
    }

    /** The last bundle becomes a leave record; a link holds it back. */
    method LeaveFinal(s: Session)
      requires s in players
      requires players[s].flight.paired ==> forall i :: 0 <= i < |pairs| ==> S.TwoSided(pairs[i])
      modifies this, worker`jobs, worker`bundles
      ensures View() == S.LeaveFinal(old(View()), s)
    {
      hide S.SendLeaveRecord, S.Detach, S.TwoSided, S.LastRecord, S.Emptied;
      var p := players[s];
      PutLeaveRecord(s);
      if !p.flight.paired {
        SendLeaveRecord(p.account);
      }
    }

    /** The final save, then the hub's slot is emptied. */
    method Leave(s: Session)
      requires s in players
      requires players[s].flight.paired ==> forall i :: 0 <= i < |pairs| ==> S.TwoSided(pairs[i])
      modifies this, worker`jobs, worker`bundles
      ensures View() == S.Leave(old(View()), s)
    {
      hide S.LeaveFinal;
      LeaveFinal(s);
      players := players - {s};
    }

    // ----- pairs

    method PrepareSide(sd: Side, mate: Account) returns (head: Option<Write>)
      requires sd.session != LEFT ==> S.SideReady(View(), sd) && players[sd.session].flight.bundleNo == 0
      modifies this`players, this`leaveSeq, this`leaveRecords
      ensures head.Some? <==> S.SideReady(old(View()), sd)
      ensures head.Some? ==> head == Some(S.HeadOf(old(View()), sd, mate)) && View() == PreparedSide(old(View()), sd)
      ensures head.None? ==> View() == old(View())
    {
      hide S.Prepared, S.Top, S.RowsOf, S.NextNo;
      if sd.session != LEFT {
        var x := PrepareBundle(sd.session, Some(mate));
        head := Some(x);
      } else if sd.account in leaveRecords && leaveRecords[sd.account].paired {
        var n := NextLeaveNo();
        leaveRecords := leaveRecords[sd.account := leaveRecords[sd.account].(bundleNo := n)];
        var rec := leaveRecords[sd.account];
        head := Some(Write(sd.account, LEFT, rec.bundleNo, rec.row, rec.rows, Some(mate), rec.at));
      } else {
        head := None;
      }
    }

    method AbortSide(sd: Side)
      requires S.SideReady(View(), sd)
      modifies this`players
      ensures View() == AbortedSide(old(View()), sd)
    {
      hide S.Aborted;
      if sd.session != LEFT {
        AbortBundle(sd.session);
      }
    }

    method CommitSide(sd: Side, n: nat)
      requires S.SideReady(View(), sd)
      modifies this`players, this`inflightCount, this`leaveRecords
      ensures View() == CommittedSide(old(View()), sd, n)
    {
      hide S.Committed;
      if sd.session != LEFT {
        CommitBundle(sd.session, n);
      } else {
        leaveRecords := leaveRecords[sd.account := leaveRecords[sd.account].(inFlight := true)];
      }
    }

    method EnqueuePair(x: Write, y: Write) returns (taken: bool)
      modifies this`issued, worker`jobs, worker`bundles
      ensures taken == S.PairFits(old(View()), x, y)
      ensures View() == if taken then S.PushPair(old(View()), x, y) else old(View())
    {
      taken := worker.EnqueueSavePair(x, y);
      if taken {
        CountIssued(x.account);
        CountIssued(y.account);
      }
    }

    /** Both sides' heads as one job, or neither. */
    method SendPair(i: nat) returns (sent: bool)
      requires i < |pairs| && S.TwoSided(pairs[i]) && Apart(pairs[i].sides[0], pairs[i].sides[1])
      requires forall k :: 0 <= k < 2 && pairs[i].sides[k].session != LEFT ==>
                 S.SideReady(View(), pairs[i].sides[k]) && players[pairs[i].sides[k].session].flight.bundleNo == 0
      modifies this, worker`jobs, worker`bundles
      ensures View() == S.SendPair(old(View()), i)
    {
      hide S.SideReady, S.HeadOf, S.Flown, S.Dropped, S.PushPair, S.PairFits, PreparedSide, CommittedSide, AbortedSide,
           S.FlownLink, Apart;
      var d0, d1 := pairs[i].sides[0], pairs[i].sides[1];
      ghost var w := View();
      var first := PrepareSide(d0, d1.account);
      if first.None? {
        return false;
      }
      StaysReady(w, d0, d1);
      SecondIdle(w, d0, d1);
      ghost var u := View();
      PreparedRest(w, d0);
      var second := PrepareSide(d1, d0.account);
      if second.None? {
        AbortSide(d0);
        OneSideDrops(w, d0);
        return false;
      }
      SecondHead(w, d0, d1, d0.account);
      BothDrop(w, d0, d1);
      var x, y := first.value, second.value;
      HeadNumber(w, d0, d1.account);
      HeadNumberSecond(w, d0, d1);
      BothFly(w, d0, d1, x.bundleNo, y.bundleNo);
      ghost var v := View();
      PreparedRest(u, d1);
      FitsAfterPrepare(w, v, x, y);
      sent := EnqueuePair(x, y);
      if !sent {
        AbortSide(d0);
        AbortSide(d1);
        pairs := pairs[i := pairs[i].(inFlight := false)];
        return;
      }
      CommitAfterPush(v, d0, x.bundleNo, x, y);
      CommitSide(d0, x.bundleNo);
      CommitAfterPush(CommittedSide(v, d0, x.bundleNo), d1, y.bundleNo, x, y);
      CommitSide(d1, y.bundleNo);
      PushedSides(S.Flown(S.Flown(w, d0), d1), x, y);
      FlownRest(w, d0, d1);
      pairs := pairs[i := PairLink([d0.(bundleNo := x.bundleNo, replied := false),
                                    d1.(bundleNo := y.bundleNo, replied := false)], true, true)];
      assert pairs[i] == S.FlownLink(w.pairs[i], x.bundleNo, y.bundleNo) by {
        FlownLinkIs(w.pairs[i], x.bundleNo, y.bundleNo);
      }
    }

    // ----- replies

    /** One reply: a live player's bundle, a leave record's attempt, or nobody's. */
    method OnSaveReply(r: Reply)
      modifies this`players, this`inflightCount, this`tickEndSessions, this`leaveRecords
      ensures View() == S.OnSaveReply(old(View()), r)
    {
      hide S.RequestSave;
      if r.session != LEFT {
        if r.session !in players || players[r.session].account != r.account
           || players[r.session].flight.bundleNo != r.bundleNo {
          return;
        }
        LiveReply(r);
      } else {
        if r.account !in leaveRecords || !leaveRecords[r.account].inFlight
           || leaveRecords[r.account].bundleNo != r.bundleNo {
          return;
        }
        if r.ok {
          leaveRecords := leaveRecords - {r.account};
        } else {
          leaveRecords := leaveRecords[r.account := leaveRecords[r.account].(inFlight := false)];
        }
      }
    }

    method LiveReply(r: Reply)
      requires r.session != LEFT && S.ForLive(View(), r)
      modifies this`players, this`inflightCount, this`tickEndSessions
      ensures View() == S.OnSaveReply(old(View()), r)
    {
      hide S.RequestSave, S.Aborted;
      var p := players[r.session];
      inflightCount := inflightCount - 1;
      if r.ok {
        players := players[r.session := p.(flight := p.flight.(bundleNo := 0, slots := {}, again := false),
                                           track := Track(true, None, p.track.late, false))];
        if p.flight.again {
          RequestSave(r.session);
        }
      } else {
        AbortBundle(r.session);
        var q := players[r.session];
        players := players[r.session := q.(flight := q.flight.(bundleNo := 0, again := false),
                                           track := if r.hid.Some? then q.track.(hidden := r.hid) else q.track)];
        assert players == old(players)[r.session := S.LandedFailed(p, r)];
      }
    }

    /** What the link held back flows again. */
    method ReleasePairSide(sd: Side)
      modifies this`players, this`tickEndSessions, this`leaveSeq, this`leaveRecords, this`issued, worker`jobs,
               worker`bundles
      ensures View() == S.ReleasePairSide(old(View()), sd)
    {
      hide S.RequestSave, S.SendLeaveRecord;
      if sd.session != LEFT {
        if sd.session in players && players[sd.session].account == sd.account {
          var p := players[sd.session];
          players := players[sd.session := p.(flight := p.flight.(paired := false))];
          RequestSave(sd.session);
        }
        return;
      }
      if sd.account in leaveRecords && leaveRecords[sd.account].paired {
        leaveRecords := leaveRecords[sd.account := leaveRecords[sd.account].(paired := false)];
        if !leaveRecords[sd.account].inFlight {
          SendLeaveRecord(sd.account);
        }
      }
    }

    method OnPairReply(r: Reply)
      requires forall i :: 0 <= i < |pairs| ==> S.TwoSided(pairs[i])
      modifies this`players, this`tickEndSessions, this`leaveSeq, this`leaveRecords, this`issued, this`pairs,
               worker`jobs, worker`bundles
      ensures View() == S.OnPairReply(old(View()), r)
    {
      hide S.ReleasePairSide, S.FindPair;
      var i := FindPair(r.account);
      if i == |pairs| {
        return;
      }
      assert S.TwoSided(pairs[i]);
      var k := if pairs[i].sides[0].account == r.account then 0 else 1;
      if !pairs[i].inFlight || pairs[i].sides[k].bundleNo != r.bundleNo || pairs[i].sides[k].replied {
        return;
      }
      var m := pairs[i].(sides := pairs[i].sides[k := pairs[i].sides[k].(replied := true)], ok := pairs[i].ok && r.ok);
      if !m.sides[1 - k].replied {
        pairs := pairs[i := m];
        return;
      }
      if !m.ok {
        pairs := pairs[i := m.(inFlight := false)];
        return;
      }
      pairs := pairs[..i] + pairs[i + 1..];
      ReleasePairSide(m.sides[0]);
      ReleasePairSide(m.sides[1]);
    }

    // ----- trades

    method CanSaveTradeNow(s: Session, t: Session) returns (yes: bool)
      requires s in players && t in players
      ensures yes == S.CanSaveTradeNow(players[s], players[t])
    {
      yes := players[s].flight.bundleNo == 0 && players[t].flight.bundleNo == 0
             && !players[s].flight.paired && !players[t].flight.paired;
    }

    /** Ties the two players together and sends their pair; refused, the link stays for the next period. */
    method SaveTrade(s: Session, t: Session)
      requires s in players && t in players && s != LEFT && t != LEFT && s != t
      requires players[s].account != players[t].account && S.CanSaveTradeNow(players[s], players[t])
      modifies this, worker`jobs, worker`bundles
      ensures View() == S.SaveTrade(old(View()), s, t)
    {
      hide S.SendPair, S.Top;
      var p, q := players[s], players[t];
      HistTopIs(p.account);
      HistTopIs(q.account);
      ghost var w := View();
      var pTop, qTop := HistTop(p.account), HistTop(q.account);
      players := players[s := p.(flight := p.flight.(paired := true))][t := q.(flight := q.flight.(paired := true))];
      pairs := pairs + [PairLink([Side(p.account, s, 0, false, pTop), Side(q.account, t, 0, false, qTop)], true,
                                 false)];
      trades := trades + [Trade(p.account, q.account, pTop, qTop)];
      TradeIs(w, s, t);
      assert View() == Tied(w, s, t);
      var _ := SendPair(|pairs| - 1);
    }

    // ----- loads

    method RequestCharacterLoad(s: Session, a: Account) returns (asked: bool)
      modifies this, worker`jobs, worker`bundles, worker`loadsQueued
      ensures View() == S.RequestLoad(old(View()), s, a)
      ensures var k := Route(old(View()), a);
              asked == (k < |old(worker.loadsQueued)| && old(worker.loadsQueued)[k] < worker.queueMax)
    {
      hide S.SendLeaveRecord, S.FindPair, S.RequestLoad, SlotIndex;
      ghost var w := View();
      if a in leaveRecords && !leaveRecords[a].inFlight && !leaveRecords[a].paired {
        SendLeaveRecord(a);
        SentPairsStay(w, a);
      }
      ghost var v := View();
      assert v.loadsQueued == w.loadsQueued && v.queueMax == w.queueMax && v.pairs == w.pairs;
      var i := FindPair(a);
      asked := worker.EnqueueLoad(s, a, if a in issued then issued[a] else 0, i == |pairs|);
      LoadRequested(w, v, View(), s, a);
    }

    // ----- the period

    /** The players that need saving and have nothing in flight are prepared; those in flight will be asked again. */
    method CollectBatch(hub: seq<Session>) returns (heads: seq<Write>, owners: seq<Session>, skipped: seq<Session>)
      requires Inv(View()) && AllSessions(View(), hub)
      modifies this`players
      ensures View() == old(View()).(players := players)
      ensures Collected(old(View()), players, hub, owners, skipped, heads)
    {
      hide Inv, Collected, Looked, S.BundleOf, S.Prepared, S.Top, S.ShouldSave, AllSessions;
      ghost var w := View();
      heads, owners, skipped := [], [], [];
      NoneCollected(w);
      for h := 0 to |hub|
        invariant View() == w.(players := players)
        invariant Collected(w, players, hub[..h], owners, skipped, heads)
      {
        var s := hub[h];
        HubNext(w, hub, h);
        assert hub[..h] + [s] == hub[..h + 1];
        CollectedNext(w, players, hub[..h], owners, skipped, heads, s);
        ghost var before := players;
        var p := players[s];
        if S.ShouldSave(p) && !p.flight.paired && p.flight.bundleNo == 0 {
          var head := PrepareOwner(s, w);
          CollectedOwner(w, before, hub[..h], owners, skipped, heads, s, head);
          heads, owners := heads + [head], owners + [s];
        } else {
          LookAt(s);
          CollectedSkip(w, before, hub[..h], owners, skipped, heads, s);
          skipped := skipped + [s];
        }
      }
      assert hub[..|hub|] == hub;
    }

    /** The bundle of one player of the batch. */
    method PrepareOwner(s: Session, ghost w: World) returns (head: Write)
      requires s in players && players[s].flight.bundleNo == 0 && View() == w.(players := players)
      modifies this`players
      ensures head == S.BundleOf(old(players[s]), s, None, S.Top(w, old(players[s].account)))
      ensures players == old(players)[s := S.Prepared(old(players[s]))] && View() == w.(players := players)
    {
      hide S.BundleOf, S.Prepared, S.Top;
      SameTops(w, players, players[s].account);
      head := PrepareBundle(s, None);
    }

    /** A player in flight that needs saving will be asked again. */
    method LookAt(s: Session)
      requires s in players && !Eligible(players[s])
      modifies this`players
      ensures players == old(players)[s := Looked(old(players[s]))]
    {
      hide S.ShouldSave, Looked;
      ghost var before := players;
      var p := players[s];
      if S.ShouldSave(p) && !p.flight.paired {
        players := players[s := p.(flight := p.flight.(again := true))];
      }
      LookedBy(before, players, s);
    }

    /** Refused bundles are taken back on the spot. */
    method AbortRefused(ghost w: World, ghost prepared: map<Session, Player>, owners: seq<Session>, heads: seq<Write>,
                        refused: seq<nat>)
      requires |heads| == |owners| && Distinct(owners) && Distinct(refused) && forall n :: n in refused ==> n < |owners|
      requires ArePrepared(w, prepared, owners)
      requires players == prepared
      modifies this`players
      ensures players == Put(prepared, owners, Outcomes(w.players, owners, heads, refused), refused)
    {
      hide Put, Outcomes, S.Prepared, S.Aborted;
      PutNone(prepared, owners, Outcomes(w.players, owners, heads, refused));
      for i := 0 to |refused|
        invariant players == Put(prepared, owners, Outcomes(w.players, owners, heads, refused), refused[..i])
      {
        var n := refused[i];
        assert n in refused && forall m :: m in refused[..i] ==> m in refused;
        StillPrepared(prepared, owners, Outcomes(w.players, owners, heads, refused), refused[..i], n);
        AbortBundle(owners[n]);
        OutcomeIs(w.players, owners, heads, refused, n);
        PutMore(prepared, owners, Outcomes(w.players, owners, heads, refused), refused[..i], n);
        assert refused[..i] + [n] == refused[..i + 1];
      }
      assert refused[..|refused|] == refused;
    }

    /** The others are in flight now. */
    method CommitTaken(ghost w: World, ghost prepared: map<Session, Player>, owners: seq<Session>, heads: seq<Write>,
                       refused: seq<nat>)
      requires |heads| == |owners| && Distinct(owners) && Distinct(refused) && forall n :: n in refused ==> n < |owners|
      requires Distinct(AccountsOf(heads))
      requires ArePrepared(w, prepared, owners)
      requires players == Put(prepared, owners, Outcomes(w.players, owners, heads, refused), refused)
               && issued == w.issued
      modifies this`players, this`inflightCount, this`issued
      ensures var taken := TakenOf(UpTo(|owners|), refused);
              && players == Put(prepared, owners, Outcomes(w.players, owners, heads, refused), refused + taken)
              && issued == Put(w.issued, AccountsOf(heads), CountsOf(w, heads), taken)
              && inflightCount == old(inflightCount) + |taken|
    {
      hide Put, Outcomes, S.Prepared, S.Committed, CountsOf, AccountsOf, TakenOf;
      ghost var vals := Outcomes(w.players, owners, heads, refused);
      PutNone(w.issued, AccountsOf(heads), CountsOf(w, heads));
      TakenNone(refused);
      assert refused + [] == refused;
      for i := 0 to |owners|
        invariant players == Put(prepared, owners, vals, refused + TakenOf(UpTo(i), refused))
        invariant issued == Put(w.issued, AccountsOf(heads), CountsOf(w, heads), TakenOf(UpTo(i), refused))
        invariant inflightCount == old(inflightCount) + |TakenOf(UpTo(i), refused)|
      {
        assert UpTo(i) + [i] == UpTo(i + 1);
        TakenMore(UpTo(i), i, refused);
        UpToHas(i);
        TakenAre(UpTo(i), refused);
        if i !in refused {
          ghost var done := TakenOf(UpTo(i), refused);
          StillPrepared(prepared, owners, vals, refused + done, i);
          NotCounted(w, heads, done, i);
          CommitBundle(owners[i], heads[i].bundleNo);
          CountIssued(heads[i].account);
          OutcomeIs(w.players, owners, heads, refused, i);
          PutMore(prepared, owners, vals, refused + done, i);
          PutMore(w.issued, AccountsOf(heads), CountsOf(w, heads), done, i);
          CountIs(w, heads, i);
          assert refused + done + [i] == refused + (done + [i]);
        } else {
          assert TakenOf(UpTo(i + 1), refused) == TakenOf(UpTo(i), refused);
        }
      }
    }

    /** Everybody who needs saving, in one batch: the same as a period look at one player after the other. */
    method SavePeriod(hub: seq<Session>) returns (order: seq<Session>)
      requires Inv(View()) && AllSessions(View(), hub)
      modifies this, worker`jobs, worker`bundles
      ensures View() == PeriodAll(old(View()), order)
      ensures AllSessions(old(View()), order)
    {
      hide Inv, Collected, S.BundleOf, S.Prepared, AllSessions, Put, PushedAll, Outcomes, CountsOf, AccountsOf,
           RefusedOf, TakenOf, BatchOrder, PeriodAll, IsBatch, ArePrepared, UpTo;
      ghost var w := View();
      var heads, owners, skipped := CollectBatch(hub);
      ghost var prepared := players;
      BatchReady(w, prepared, hub, owners, skipped, heads);
      var refused := worker.EnqueueSaveBatch(heads);
      RefusedAre(w, heads);
      AbortRefused(w, prepared, owners, heads, refused);
      CommitTaken(w, prepared, owners, heads, refused);
      BatchDone(w, prepared, hub, owners, skipped, heads, View(), refused);
      BatchSessions(w, prepared, hub, owners, skipped, heads);
      order := skipped + SessionsIn(owners, BatchOrder(worker.workers, heads, worker.workers));
    }

    /** Records that are neither in flight nor held are tried again; `order` is how the table lists its accounts. */
    method RetryRecords(order: seq<Account>)
      modifies this`leaveSeq, this`leaveRecords, this`issued, worker`jobs, worker`bundles
      ensures View() == RetryAll(old(View()), order)
      ensures AllTried(old(View()), View(), order)
    {
      hide S.SendLeaveRecord, AllTried;
      ghost var w := View();
      NoneTried(w);
      RetriesTry(w, w, [], order);
      assert [] + order == order;
      for i := 0 to |order|
        invariant RetryAll(View(), order[i..]) == RetryAll(w, order)
      {
        var a := order[i];
        assert order[i..][0] == a && order[i..][1..] == order[i + 1..];
        if a in leaveRecords && !leaveRecords[a].inFlight && !leaveRecords[a].paired {
          SendLeaveRecord(a);
        }
      }
    }

    /** Links that failed or were refused are sent again, as pairs only. */
    method RetryPairs()
      requires Sound(View())
      modifies this, worker`jobs, worker`bundles
      ensures Reaches(old(View()), View()) && Sound(View())
      ensures View() == PairsRetried(old(View()), 0)
    {
      hide Sound, S.SendPair, S.SideReady, Apart, Reaches;
      ghost var w := View();
      ReachSelf(w);
      var i := 0;
      while i < |pairs|
        invariant 0 <= i
        invariant Sound(View()) && Reaches(w, View()) && |pairs| == |w.pairs|
        invariant PairsRetried(View(), i) == PairsRetried(w, 0)
        decreases |w.pairs| - i
      {
        if !pairs[i].inFlight {
          ghost var u := View();
          CanResend(u, i);
          var _ := SendPair(i);
          PairResent(w, u, i);
        }
        i := i + 1;
      }
    }

    /** The players listed during the tick are judged now. */
    method SaveTickEnd()
      requires Sound(View())
      modifies this, worker`jobs, worker`bundles
      ensures Reaches(old(View()), View()) && Sound(View())
      ensures View() == TickEndJudged(old(View())) && tickEndSessions == []
    {
      hide Sound, EndTickOne, Reaches;
      ghost var w := View();
      ReachSelf(w);
      while tickEndSessions != []
        invariant Sound(View()) && Reaches(w, View())
        invariant TickEndJudged(View()) == TickEndJudged(w)
        decreases |tickEndSessions|
      {
        ghost var u := View();
        JudgeFirst();
        TickEnded(w, u);
      }
    }

    method JudgeFirst()
      requires tickEndSessions != []
      modifies this, worker`jobs, worker`bundles
      ensures View() == EndTickOne(old(View()))
    {
      hide S.SendBundle, S.ShouldSave;
      var s := tickEndSessions[0];
      tickEndSessions := tickEndSessions[1..];
      if s in players {
        players := players[s := players[s].(flight := players[s].flight.(listed := false))];
        if S.ShouldSave(players[s]) {
          var _ := SendBundle(s);
        }
      }
    }

    /** A period's part of a tick: everybody, then failed records and failed pairs. */
    method TickPeriod(hub: seq<Session>, accounts: seq<Account>) returns (ghost order: seq<Session>)
      requires Sound(View()) && AllSessions(View(), hub)
      modifies this, worker`jobs, worker`bundles
      ensures Reaches(old(View()), View()) && Sound(View())
      ensures AllSessions(old(View()), order)
      ensures View() == PairsRetried(RetryAll(PeriodAll(old(View()), order), accounts), 0)
    {
      hide Sound, Inv, AllSessions, PeriodAll, RetryAll, Reaches, PairsRetried, AllTried;
      ghost var w := View();
      SoundIs(w);
      order := SavePeriod(hub);
      PeriodReaches(w, order);
      ghost var u := View();
      PeriodLeave(w, order);
      RetryRecords(accounts);
      RetryReaches(u, accounts);
      ReachTrans(w, u, View());
      ghost var v := View();
      RetryPairs();
      ReachTrans(w, v, View());
    }

    /** The last thing of a tick: on a period everybody, failed records and failed pairs; then the tick-end list. */
    method TickSaves(hub: seq<Session>, accounts: seq<Account>) returns (ghost order: seq<Session>)
      requires Sound(View()) && AllSessions(View(), hub)
      modifies this, worker`jobs, worker`bundles
      ensures Reaches(old(View()), View()) && Sound(View()) && Onward(old(View()), View())
      ensures AllSessions(old(View()), order)
      ensures View() == TickEndJudged(if old(frameCounter) + 1 >= periodFrames
                                      then PairsRetried(RetryAll(PeriodAll(old(View()), order), accounts), 0)
                                      else old(View()))
      ensures frameCounter == if old(frameCounter) + 1 >= periodFrames then 0 else old(frameCounter) + 1
      ensures (forall a :: a in old(leaveRecords) ==> a in accounts) ==>
                TickSaved(old(View()), View(), old(frameCounter) + 1 >= periodFrames)
    {
      hide Sound, Inv, AllSessions, PeriodAll, RetryAll, Reaches, PairsRetried, TickEndJudged, Onward, TickSaved;
      ghost var w := View();
      order := hub;
      ReachSelf(w);
      var counter := frameCounter + 1;
      if counter >= periodFrames {
        counter := 0;
        order := TickPeriod(hub, accounts);
        if forall a :: a in w.leave ==> a in accounts { PeriodSaves(w, order, accounts); }
      } else {
        SoundIs(w);
        QuietTickSaves(w);
      }
      ghost var z := View();
      SaveTickEnd();
      ReachTrans(w, z, View());
      ReachKeeps(w, View());
      frameCounter := counter;
    }

    // ----- what has come back

    method HandleReplies()
      requires Sound(View()) && worker.replies == [] && worker.loads == []
      modifies this, worker`jobs, worker`bundles
      ensures Reaches(old(View()), View()) && Sound(View())
      ensures View() == Answered(old(View()))
      ensures saveReplies == [] && loadResults == old(loadResults)
    {
      hide Sound, Reaches, S.OnSaveReply, S.OnPairReply;
      ghost var w := View();
      ReachSelf(w);
      while saveReplies != []
        invariant Sound(View()) && Reaches(w, View())
        invariant worker.replies == [] && worker.loads == [] && loadResults == old(loadResults)
        invariant Answered(View()) == Answered(w)
        decreases |saveReplies|
      {
        ghost var u := View();
        var r := saveReplies[0];
        saveReplies := saveReplies[1..];
        assert View() == u.(replies := u.replies[1..]);
        LinksTwoSided(u, r);
        OnSaveReply(r);
        OnPairReply(r);
        ReplyHandled(w, u);
      }
    }

    /** Each load, turned into a failure while its account still waits as a leave record. */
    method HandOnLoads() returns (handed: seq<LoadResult>)
      requires Sound(View()) && worker.loads == []
      modifies this`loadResults
      ensures Reaches(old(View()), View()) && Sound(View())
      ensures View() == old(View()).(loads := []) && loadResults == []
      ensures AllHanded(leaveRecords, old(loadResults), handed)
    {
      hide Sound, Reaches, AllHanded;
      ghost var w, all := View(), loadResults;
      ReachSelf(w);
      NoneHanded(leaveRecords);
      handed := [];
      while loadResults != []
        invariant Sound(View()) && Reaches(w, View())
        invariant View() == w.(loads := loadResults)
        invariant |handed| <= |all| && loadResults == all[|handed|..]
        invariant AllHanded(leaveRecords, all[..|handed|], handed)
        decreases |loadResults|
      {
        ghost var u := View();
        var h := HandOnFirst();
        ReachTrans(w, u, View());
        OneHanded(leaveRecords, all[..|handed|], handed, all[|handed|], h);
        assert all[..|handed|] + [all[|handed|]] == all[..|handed| + 1];
        handed := handed + [h];
      }
      assert all[..|handed|] == all;
    }

    method HandOnFirst() returns (h: LoadResult)
      requires Sound(View()) && worker.loads == [] && loadResults != []
      modifies this`loadResults
      ensures Reaches(old(View()), View()) && Sound(View())
      ensures View() == old(View()).(loads := loadResults) && loadResults == old(loadResults)[1..]
      ensures HandedAs(leaveRecords, old(loadResults)[0], h)
    {
      hide Sound, Reaches;
      ghost var u := View();
      var r := loadResults[0];
      assert loadResults + worker.loads == loadResults;
      ReachSelf(u);
      LoadDropped(u, u);
      h := if r.code != Failed && r.account in leaveRecords then r.(code := Failed) else r;
      ghost var rest := loadResults[1..];
      assert u.loads[1..] == rest;
      loadResults := loadResults[1..];
      assert loadResults + worker.loads == rest;
    }

    /** Every reply first, then the loads of the same drain. */
    method ProcessDbResults() returns (handed: seq<LoadResult>)
      requires Sound(View()) && saveReplies == [] && loadResults == []
      modifies this, worker
      ensures Reaches(old(View()), View()) && Sound(View()) && Onward(old(View()), View())
      ensures View() == Answered(old(View())).(loads := [])
      ensures saveReplies == [] && loadResults == []
      ensures AllHanded(leaveRecords, old(worker.loads), handed)
    {
      hide Sound, Reaches, Answered, Onward, AllHanded;
      ghost var w := View();
      loadResults, saveReplies := worker.SwapOutResults();
      assert View() == w;
      HandleReplies();
      ghost var u := View();
      handed := HandOnLoads();
      ReachTrans(w, u, View());
      ReachKeeps(w, View());
    }

    // ----- shutdown

    /** Every player becomes a leave record. */
    method LeaveAll(hub: seq<Session>)
      requires Inv(View()) && AllSessions(View(), hub)
      modifies this, worker`jobs, worker`bundles
      ensures View() == FinalSave(old(View()), hub)
    {
      hide Inv, S.LeaveFinal, S.TwoSided, AllSessions;
      ghost var w := View();
      ghost var ps := players;
      assert w.(players := ps) == w;
      AllRemain(w, hub);
      assert hub[0..] == hub;
      for i := 0 to |hub|
        invariant FinalSave(View(), hub[i..]) == FinalSave(w, hub)
        invariant Inv(View().(players := ps))
        invariant Remaining(View(), ps, hub[i..])
      {
        var s := hub[i];
        assert hub[i..][0] == s && hub[i..][1..] == hub[i + 1..];
        ghost var u := View();
        StillTwoSided(u.(players := ps));
        LeaveNext(u, ps, hub[i..]);
        LeaveFinal(s);
        ps := ps - {s};
      }
    }

    /** Everybody's last bundle, the failed records once more, and every link's pair, in flight or not. */
    method SaveAllPlayers(hub: seq<Session>, accounts: seq<Account>)
      requires Inv(View()) && AllSessions(View(), hub)
      modifies this, worker`jobs, worker`bundles
      ensures View() == SaveAll(old(View()), hub, accounts)
      ensures Gets(Halting(old(View())), Halt(View(), Pairing(|pairs|)))
      ensures Listed(old(View()), accounts) ==> AllSaved(old(View()), View())
    {
      hide Inv, Final, LastLinks, AllSessions, FinalSave, RetryAll, S.SendPair, S.SideReady, Gets, AllTried, AllSaved,
           Listed;
      ghost var w := View();
      SaveAllGets(w, hub, accounts);
      BeforePairs(w, hub, accounts);
      if Listed(w, accounts) { SavesAll(w, hub, accounts); }
      LeaveAll(hub);
      RetryRecords(accounts);
      ghost var u := View();
      var i := 0;
      while i < |pairs|
        invariant 0 <= i && |pairs| == |u.pairs|
        invariant Final(View()) && LastLinks(View())
        invariant PairAll(View(), i) == PairAll(u, 0)
        decreases |u.pairs| - i
      {
        ghost var v := View();
        LastParts(v, i);
        SendLastKeeps(v, i);
        var _ := SendPair(i);
        i := i + 1;
      }
    }

    /** The drain is over: the last replies are heard, and what is left counts as lost. */
    method HearLastReplies() returns (lost: nat)
      requires worker.replies == []
      modifies this`players, this`inflightCount, this`tickEndSessions, this`leaveRecords, this`saveReplies
      ensures saveReplies == [] && lost == |leaveRecords|
      ensures View() == Heard(old(View()))
      ensures Gets(Halt(old(View()), Pairing(|pairs|)), Halt(View(), Pairing(|pairs|)))
    {
      hide S.OnSaveReply, Gets, Heard, SaveReplies.Tail;
      ghost var w := View();
      HeardGets(w, |pairs|);
      while saveReplies != []
        invariant Heard(View()) == Heard(w)
        decreases |saveReplies|
      {
        ghost var u := View();
        HeardNext(u);
        HearFirst();
      }
      HeardNone(View());
      lost := |leaveRecords|;
    }

    method HearFirst()
      requires worker.replies == [] && saveReplies != []
      modifies this`players, this`inflightCount, this`tickEndSessions, this`leaveRecords, this`saveReplies
      ensures View() == S.OnSaveReply(SaveReplies.Tail(old(View())), old(saveReplies)[0])
      ensures |saveReplies| < |old(saveReplies)|
    {
      hide S.OnSaveReply;
      ghost var u := View();
      var r := saveReplies[0];
      assert u.replies[1..] == saveReplies[1..] + worker.replies && u.replies[0] == r;
      saveReplies := saveReplies[1..];
      assert View() == SaveReplies.Tail(u);
      OnSaveReply(r);
    }
  }

  lemma HeardNext(u: World)
    requires u.replies != []
    ensures Heard(u) == Heard(S.OnSaveReply(SaveReplies.Tail(u), u.replies[0]))
  {
    hide S.OnSaveReply;
    HeardLess(u);
  }

  lemma HeardNone(u: World)
    requires u.replies == []
    ensures Heard(u) == u
  {
  }

  lemma FlownLinkIs(l: PairLink, n0: nat, n1: nat)
    requires S.TwoSided(l)
    ensures S.FlownLink(l, n0, n1)
            == PairLink([l.sides[0].(bundleNo := n0, replied := false), l.sides[1].(bundleNo := n1, replied := false)],
                        true, true)
  {
  }

  lemma LoadRequested(w: World, v: World, t: World, s: Session, a: Account)
    requires v == (if a in w.leave && !w.leave[a].inFlight && !w.leave[a].paired then S.SendLeaveRecord(w, a) else w)
    requires v.loadsQueued == w.loadsQueued && v.queueMax == w.queueMax && v.workers == w.workers
    requires var k := SlotIndex(w.workers, a);
             t == if k < |w.loadsQueued| && w.loadsQueued[k] < w.queueMax
                  then v.(jobs := v.jobs + [Load(a, s, if a in v.issued then v.issued[a] else 0,
                                                 S.FindPair(w.pairs, a) == |w.pairs|, None)],
                          loadsQueued := S.Bump(v.loadsQueued, k, 1))
                  else v
    ensures t == S.RequestLoad(w, s, a)
  {
    hide S.SendLeaveRecord, S.FindPair, SlotIndex;
  }

  lemma SentPairsStay(w: World, a: Account)
    requires a in w.leave
    ensures S.SendLeaveRecord(w, a).pairs == w.pairs
    ensures S.SendLeaveRecord(w, a).workers == w.workers && S.SendLeaveRecord(w, a).queueMax == w.queueMax
  {
    hide S.SaveFits, S.LeaveWrite, S.NextNo;
  }

  lemma FitsLater(w: World, v: World, x: Write)
    requires v.workers == w.workers && v.queueMax == w.queueMax && v.bundles == w.bundles
    ensures S.SaveFits(v, x) == S.SaveFits(w, x)
  {
  }

  lemma PushLaterLeave(v: World, x: Write, taken: bool, ls: map<Account, LeaveRecord>)
    ensures S.PushIf(v, x, taken).(leave := ls) == S.PushIf(v.(leave := ls), x, taken)
  {
  }

  lemma {:induction false} FirstPair(pairs: seq<PairLink>, a: Account, i: nat)
    requires i <= |pairs| && (forall j :: 0 <= j < i ==> !S.Has(pairs[j], a)) && (i < |pairs| ==> S.Has(pairs[i], a))
    ensures i == S.FindPair(pairs, a)
  {
    hide S.Has;
  }

  lemma SecondIdle(w: World, d0: Side, d1: Side)
    requires S.SideReady(w, d0) && Apart(d0, d1)
    requires d1.session != LEFT ==> S.SideReady(w, d1) && w.players[d1.session].flight.bundleNo == 0
    ensures d1.session != LEFT ==>
              && d1.session in PreparedSide(w, d0).players
                   && PreparedSide(w, d0).players[d1.session].flight.bundleNo == 0
  {
    hide S.Prepared, S.NextNo;
  }

  lemma PreparedRest(w: World, sd: Side)
    requires S.SideReady(w, sd)
    ensures var v := PreparedSide(w, sd);
            v.pairs == w.pairs && v.workers == w.workers && v.queueMax == w.queueMax && v.bundles == w.bundles
  {
    hide S.Prepared, S.NextNo, S.SideReady;
    ReadyIn(w, sd);
    PreparedIs(w, sd);
  }

  lemma PreparedIs(w: World, sd: Side)
    requires S.SideReady(w, sd)
    ensures var v := PreparedSide(w, sd); v == w.(players := v.players, leave := v.leave, leaveSeq := v.leaveSeq)
  {
    hide S.Prepared, S.NextNo;
  }

  lemma HeadNumber(w: World, sd: Side, mate: Account)
    requires S.SideReady(w, sd)
    ensures sd.session != LEFT ==>
              sd.session in w.players && S.HeadOf(w, sd, mate).bundleNo == w.players[sd.session].flight.nextNo
  {
    hide S.Top, S.RowsOf, S.NextNo;
  }

  lemma HeadNumberSecond(w: World, d0: Side, d1: Side)
    requires S.SideReady(w, d0) && S.SideReady(w, d1) && Apart(d0, d1) && S.SideReady(S.Flown(w, d0), d1)
    ensures d1.session != LEFT ==>
              d1.session in w.players && S.HeadOf(S.Flown(w, d0), d1, d0.account).bundleNo
                  == w.players[d1.session].flight.nextNo
  {
    hide S.SideReady, S.HeadOf, S.Flown;
    HeadNumber(S.Flown(w, d0), d1, d0.account);
    ReadyIn(w, d1);
    if d1.session != LEFT { OtherPlayer(w, d0, d1); }
  }

  lemma FitsAfterPrepare(w: World, v: World, x: Write, y: Write)
    requires v.workers == w.workers && v.queueMax == w.queueMax && v.bundles == w.bundles
    ensures S.PairFits(v, x, y) == S.PairFits(w, x, y)
  {
  }

  lemma CommitAfterPush(v: World, sd: Side, n: nat, x: Write, y: Write)
    requires S.SideReady(v, sd)
    ensures S.SideReady(S.PushPair(v, x, y), sd)
    ensures CommittedSide(S.PushPair(v, x, y), sd, n) == S.PushPair(CommittedSide(v, sd, n), x, y)
  {
    hide S.Committed, S.PushPair, S.SideReady;
    ReadyIn(v, sd);
    PushPairRest(v, x, y);
    ReadyFrom(v, S.PushPair(v, x, y), sd);
    if sd.session != LEFT {
      var p := S.Committed(v.players[sd.session], n);
      PushPairLater(v, x, y, v.players[sd.session := p], v.leave, v.inflight + 1);
    } else {
      PushPairLater(v, x, y, v.players, v.leave[sd.account := v.leave[sd.account].(inFlight := true)], v.inflight);
    }
  }

  lemma PushPairRest(v: World, x: Write, y: Write)
    ensures var u := S.PushPair(v, x, y); u.players == v.players && u.leave == v.leave && u.inflight == v.inflight
  {
  }

  lemma PushPairLater(v: World, x: Write, y: Write, ps: map<Session, Player>, ls: map<Account, LeaveRecord>, n: int)
    ensures S.PushPair(v, x, y).(players := ps, leave := ls, inflight := n)
            == S.PushPair(v.(players := ps, leave := ls, inflight := n), x, y)
  {
  }

  lemma PushedSides(w: World, x: Write, y: Write)
    ensures S.PushPair(w, x, y).pairs == w.pairs
  {
  }

  lemma FlownRest(w: World, d0: Side, d1: Side)
    requires S.SideReady(w, d0) && S.SideReady(S.Flown(w, d0), d1)
    ensures S.Flown(S.Flown(w, d0), d1).pairs == w.pairs
  {
    hide S.Flown;
    FlownSame(w, d0);
    FlownSame(S.Flown(w, d0), d1);
  }

  // ----- shutdown

  /** The players that have not left yet. */
  ghost predicate Remaining(w: World, ps: map<Session, Player>, order: seq<Session>) {
    && (forall s :: s in ps <==> s in order)
    && (forall s :: s in ps ==> s in w.players && w.players[s] == ps[s])
    && Distinct(order)
  }

  lemma StillTwoSided(w: World)
    requires Inv(w)
    ensures forall i :: 0 <= i < |w.pairs| ==> S.TwoSided(w.pairs[i])
  {
    hide Base, QueuesOk, ViewsOk, TradesOk, Flying, LinkOk, ViewOf, S.Has;
  }

  lemma LeaveNext(w: World, ps: map<Session, Player>, order: seq<Session>)
    requires Inv(w.(players := ps)) && Remaining(w, ps, order) && order != []
    ensures order[0] in w.players
    ensures var v := S.LeaveFinal(w, order[0]);
            Inv(v.(players := ps - {order[0]})) && Remaining(v, ps - {order[0]}, order[1..])
  {
    hide Inv, S.LeaveFinal, S.Leave, S.Emptied;
    var s := order[0];
    assert s in order;
    LeaveFinalPlayers(w, s, ps);
    LeaveKeeps(w.(players := ps), s);
    forall t ensures t in ps - {s} <==> t in order[1..] {
      if t in order[1..] { assert t in order; }
    }
  }

  lemma AllRemain(w: World, hub: seq<Session>)
    requires AllSessions(w, hub)
    ensures Remaining(w, w.players, hub)
  {
  }

  // ----- steps the loops take

  lemma CanResend(w: World, i: nat)
    requires Sound(w) && i < |w.pairs| && !w.pairs[i].inFlight
    ensures S.TwoSided(w.pairs[i]) && Apart(w.pairs[i].sides[0], w.pairs[i].sides[1])
    ensures forall k :: 0 <= k < 2 && w.pairs[i].sides[k].session != LEFT ==>
              && S.SideReady(w, w.pairs[i].sides[k])
              && w.pairs[i].sides[k].session in w.players && w.players[w.pairs[i].sides[k].session].flight.bundleNo == 0
  {
    hide Inv, LoadsOk, ViewOf, Waiting, S.SideReady;
    SidesReady(w, i);
    var l := w.pairs[i];
    InvHasBase(w);
    ReadySide(w, l.sides[0]);
    ReadySide(w, l.sides[1]);
    ReadyOwner(w, l.sides[0]);
    ReadyOwner(w, l.sides[1]);
  }

  lemma ReadyOwner(w: World, d: Side)
    requires S.SideReady(w, d)
    ensures d.session != LEFT ==> d.session in w.players && w.players[d.session].account == d.account
  {
  }

  lemma InvHasBase(w: World)
    requires Inv(w)
    ensures Base(w)
  {
    hide ViewsOk, LinksOk, QueuesOk, TradesOk, Flying;
  }

  lemma PairResent(w: World, u: World, i: nat)
    requires Sound(u) && Reaches(w, u) && i < |u.pairs| && !u.pairs[i].inFlight && S.TwoSided(u.pairs[i])
    ensures Sound(S.SendPair(u, i)) && Reaches(w, S.SendPair(u, i)) && |S.SendPair(u, i).pairs| == |u.pairs|
  {
    hide Sound, Reaches, S.SendPair;
    StepKeeps(u, RetryPair(i));
    ReachStep(u, RetryPair(i));
    ReachTrans(w, u, S.SendPair(u, i));
    SendPairLinks(u, i);
  }

  lemma SendPairLinks(w: World, i: nat)
    requires i < |w.pairs| && S.TwoSided(w.pairs[i])
    ensures |S.SendPair(w, i).pairs| == |w.pairs|
  {
    hide S.PairFits, S.HeadOf, S.FlownLink, S.SideReady, S.Flown, S.Dropped, S.PushPair;
    var l := w.pairs[i];
    var d0, d1 := l.sides[0], l.sides[1];
    if S.SideReady(w, d0) { DroppedSame(w, d0); }
  }

  /** The replies, one after the other. */
  function Answered(w: World): World
    decreases |w.replies|
  {
    if w.replies == [] then w
    else
      var v := SaveReplies.HandleReply(w);
      if |v.replies| < |w.replies| then Answered(v) else v
  }

  lemma TickEnded(w: World, u: World)
    requires Sound(u) && Reaches(w, u) && u.tickEnd != []
    ensures Sound(EndTickOne(u)) && Reaches(w, EndTickOne(u)) && |EndTickOne(u).tickEnd| == |u.tickEnd| - 1
  {
    hide Sound, Reaches, EndTickOne;
    StepKeeps(u, EndTick);
    ReachStep(u, EndTick);
    ReachTrans(w, u, EndTickOne(u));
    TickEndShorter(u);
  }

  lemma TickEndShorter(u: World)
    requires u.tickEnd != []
    ensures |EndTickOne(u).tickEnd| == |u.tickEnd| - 1
  {
    hide S.SendBundle, S.ShouldSave;
    var s := u.tickEnd[0];
    var v := u.(tickEnd := u.tickEnd[1..]);
    if s in v.players { BundleTickEnd(v.(players := v.players[s := Unlisted(v.players[s])]), s); }
  }

  lemma BundleTickEnd(w: World, s: Session)
    requires s in w.players
    ensures S.SendBundle(w, s).tickEnd == w.tickEnd
  {
    hide S.BundleOf, S.Top, S.SaveFits, S.Prepared, S.Committed, S.Aborted, S.PushSave;
    PushTickEnd(w, S.BundleOf(w.players[s], s, None, S.Top(w, w.players[s].account)));
  }

  lemma PushTickEnd(w: World, x: Write)
    ensures S.PushSave(w, x).tickEnd == w.tickEnd && S.PushSave(w, x).leave == w.leave
  {
  }

  lemma {:induction false} PeriodLeave(w: World, order: seq<Session>)
    ensures PeriodAll(w, order).leave == w.leave
    decreases |order|
  {
    hide PeriodSave;
    if order != [] {
      var u, s := PeriodAll(w, order[..|order| - 1]), order[|order| - 1];
      PeriodLeave(w, order[..|order| - 1]);
      if s in u.players { PeriodOneLeave(u, s); }
    }
  }

  lemma PeriodOneLeave(w: World, s: Session)
    requires s in w.players
    ensures PeriodSave(w, s).leave == w.leave
  {
    hide S.BundleOf, S.Top, S.SaveFits, S.Prepared, S.Committed, S.Aborted, S.PushSave, S.ShouldSave;
    PushTickEnd(w, S.BundleOf(w.players[s], s, None, S.Top(w, w.players[s].account)));
  }

  lemma LinksTwoSided(u: World, r: Reply)
    requires Sound(u)
    ensures forall i :: 0 <= i < |u.pairs| ==> S.TwoSided(u.pairs[i])
    ensures forall v: World :: v.pairs == u.pairs ==> S.OnSaveReply(v, r).pairs == u.pairs
  {
    hide LoadsOk, Base, QueuesOk, ViewsOk, TradesOk, Flying, LinkOk, ViewOf, S.Has, S.ForLive, S.ForRecord, S.LandedOk,
         S.LandedFailed;
  }

  lemma ReplyHandled(w: World, u: World)
    requires Sound(u) && Reaches(w, u) && u.replies != []
    ensures Sound(SaveReplies.HandleReply(u)) && Reaches(w, SaveReplies.HandleReply(u))
  {
    hide Sound, Reaches, SaveReplies.HandleReply;
    StepKeeps(u, Answer);
    ReachStep(u, Answer);
    ReachTrans(w, u, SaveReplies.HandleReply(u));
  }

  lemma NoneHanded(leave: map<Account, LeaveRecord>)
    ensures AllHanded(leave, [], [])
  {
  }

  lemma OneHanded(leave: map<Account, LeaveRecord>, loads: seq<LoadResult>, handed: seq<LoadResult>, r: LoadResult,
                  h: LoadResult)
    requires AllHanded(leave, loads, handed) && HandedAs(leave, r, h)
    ensures AllHanded(leave, loads + [r], handed + [h])
  {
  }

  lemma LoadDropped(w: World, u: World)
    requires Sound(u) && Reaches(w, u) && u.loads != []
    ensures Sound(u.(loads := u.loads[1..])) && Reaches(w, u.(loads := u.loads[1..]))
  {
    hide Sound, Reaches;
    var v := Values(0, 0, 0, 0, 0, []);
    var act := HandOn(false, Place(0.0, 0.0, 0), v, v, false);
    StepKeeps(u, act);
    ReachStep(u, act);
    ReachTrans(w, u, u.(loads := u.loads[1..]));
  }

  // ----- the period's batch

  lemma BatchReady(w: World, prepared: map<Session, Player>, hub: seq<Session>, owners: seq<Session>,
                   skipped: seq<Session>, heads: seq<Write>)
    requires Collected(w, prepared, hub, owners, skipped, heads) && Inv(w)
    ensures |heads| == |owners| && Distinct(owners) && Distinct(AccountsOf(heads)) && ArePrepared(w, prepared, owners)
    ensures w.workers > 0 && forall i :: 0 <= i < |owners| ==> owners[i] in w.players
  {
    hide Eligible, S.BundleOf, S.Top, PeriodAll, QueuesOk, ViewsOk, LinksOk, TradesOk, Flying, S.Prepared;
    forall i | 0 <= i < |owners|
      ensures owners[i] in w.players && owners[i] in prepared && prepared[owners[i]] == S.Prepared(w.players[owners[i]])
    {
      assert owners[i] in owners;
    }
  }

  lemma RefusedAre(w: World, heads: seq<Write>)
    requires w.workers > 0
    ensures var refused := RefusedOf(w.workers, w.queueMax, Queues(w.jobs, w.bundles), heads,
                                     BatchOrder(w.workers, heads, w.workers));
            Distinct(refused) && forall n :: n in refused ==> n < |heads|
  {
    hide RefusedOf, BatchOrder;
    TurnsCover(w.workers, heads, w.workers);
    RefusedIn(w.workers, w.queueMax, Queues(w.jobs, w.bundles), heads, BatchOrder(w.workers, heads, w.workers));
    RefusedDistinct(w.workers, w.queueMax, Queues(w.jobs, w.bundles), heads, BatchOrder(w.workers, heads, w.workers));
  }

  lemma {:induction false} RefusedDistinct(workers: nat, queueMax: nat, q: Queues, heads: seq<Write>, order: seq<nat>)
    requires Distinct(order)
    ensures Distinct(RefusedOf(workers, queueMax, q, heads, order))
  {
    hide Fits, PushedAll;
    if order != [] {
      var shorter := order[..|order| - 1];
      RefusedDistinct(workers, queueMax, q, heads, shorter);
      RefusedIn(workers, queueMax, q, heads, shorter);
      var last := order[|order| - 1];
      assert forall n :: n in shorter ==> n != last;
      DistinctConcat(RefusedOf(workers, queueMax, q, heads, shorter), [last]);
    }
  }

  lemma DistinctSessions(owners: seq<Session>, turns: seq<nat>)
    requires Distinct(owners) && Distinct(turns) && forall i :: 0 <= i < |turns| ==> turns[i] < |owners|
    ensures Distinct(SessionsIn(owners, turns))
  {
    forall i, j | 0 <= i < j < |turns| ensures owners[turns[i]] != owners[turns[j]] {
      if turns[i] < turns[j] {
        assert owners[turns[i]] != owners[turns[j]];
      } else {
        assert owners[turns[j]] != owners[turns[i]];
      }
    }
  }

  lemma BatchSessions(w: World, prepared: map<Session, Player>, hub: seq<Session>, owners: seq<Session>,
                      skipped: seq<Session>, heads: seq<Write>)
    requires Collected(w, prepared, hub, owners, skipped, heads) && AllSessions(w, hub) && w.workers > 0
             && |heads| == |owners|
    requires Distinct(owners)
    requires forall i ::
               0 <= i < |BatchOrder(w.workers, heads, w.workers)| ==>
                 BatchOrder(w.workers, heads, w.workers)[i] < |owners|
    ensures AllSessions(w, skipped + SessionsIn(owners, BatchOrder(w.workers, heads, w.workers)))
  {
    hide IsBatch, PeriodAll, S.Prepared, BatchOrder;
    var turns := BatchOrder(w.workers, heads, w.workers);
    TurnsCover(w.workers, heads, w.workers);
    AllTurns(w, heads);
    var y := SessionsIn(owners, turns);
    forall s ensures s in y <==> s in owners {
      if s in owners {
        var n :| 0 <= n < |owners| && owners[n] == s;
        assert n in turns;
        var i :| 0 <= i < |turns| && turns[i] == n;
        assert y[i] == s;
      }
    }
    assert forall s :: s in skipped ==> s !in owners;
    DistinctSessions(owners, turns);
    DistinctConcat(skipped, y);
  }

  lemma HubNext(w: World, hub: seq<Session>, h: nat)
    requires Inv(w) && AllSessions(w, hub) && h < |hub|
    ensures hub[h] in w.players && hub[h] !in hub[..h]
    ensures forall t :: t in hub[..h] && t in w.players ==> w.players[t].account != w.players[hub[h]].account
  {
    hide Inv, AllSessions;
    BaseOf(w);
    InSessions(w, hub);
    assert hub[h] in hub && forall t :: t in hub[..h] ==> t in hub;
    forall i | 0 <= i < h ensures hub[..h][i] != hub[h] { assert hub[i] != hub[h]; }
  }

  /** The owners' marks are in their flight records. */
  ghost predicate ArePrepared(w: World, prepared: map<Session, Player>, owners: seq<Session>) {
    forall i :: 0 <= i < |owners| ==>
      owners[i] in w.players && owners[i] in prepared && prepared[owners[i]] == S.Prepared(w.players[owners[i]])
  }

  lemma CollectedNext(w: World, players: map<Session, Player>, seen: seq<Session>, owners: seq<Session>,
                      skipped: seq<Session>, heads: seq<Write>, s: Session)
    requires Collected(w, players, seen, owners, skipped, heads) && s in w.players && s !in seen
    ensures s in players && players[s] == w.players[s]
  {
    hide IsBatch, PeriodAll, S.Prepared;
  }

  lemma SameTops(w: World, ps: map<Session, Player>, a: Account)
    ensures S.Top(w.(players := ps), a) == S.Top(w, a)
  {
  }

  lemma LookedBy(before: map<Session, Player>, after: map<Session, Player>, s: Session)
    requires s in before && !Eligible(before[s])
    requires after == if S.ShouldSave(before[s]) && !before[s].flight.paired
                      then before[s := before[s].(flight := before[s].flight.(again := true))] else before
    ensures after == before[s := Looked(before[s])]
  {
    hide S.ShouldSave;
    assert before[s := before[s]] == before;
  }

  lemma PutNone<K, V>(base: map<K, V>, keys: seq<K>, vals: seq<V>)
    requires |keys| == |vals|
    ensures Put(base, keys, vals, []) == base
  {
  }

  lemma StillPrepared(base: map<Session, Player>, owners: seq<Session>, vals: seq<Player>, done: seq<nat>, n: nat)
    requires |owners| == |vals| && Distinct(owners) && n < |owners| && n !in done
             && forall i :: i in done ==> i < |owners|
    requires owners[n] in base
    ensures owners[n] in Put(base, owners, vals, done) && Put(base, owners, vals, done)[owners[n]] == base[owners[n]]
  {
    hide Put;
    PutIs(base, owners, vals, done);
    forall i | i in done ensures owners[i] != owners[n] {
      if i < n { assert owners[i] != owners[n]; } else { assert owners[n] != owners[i]; }
    }
  }

  lemma TakenNone(refused: seq<nat>)
    ensures UpTo(0) == [] && TakenOf([], refused) == []
  {
  }

  lemma NotCounted(w: World, heads: seq<Write>, done: seq<nat>, n: nat)
    requires Distinct(AccountsOf(heads)) && n < |heads| && n !in done && forall i :: i in done ==> i < |heads|
    ensures var m := Put(w.issued, AccountsOf(heads), CountsOf(w, heads), done);
            var a := heads[n].account;
            (a in m <==> a in w.issued) && (a in m ==> m[a] == w.issued[a])
  {
    hide Put, CountsOf;
    var keys := AccountsOf(heads);
    PutIs(w.issued, keys, CountsOf(w, heads), done);
    forall i | i in done ensures keys[i] != heads[n].account {
      if i < n { assert keys[i] != keys[n]; } else { assert keys[n] != keys[i]; }
    }
  }

  // ----- the two sides of a pair, changed in place one after the other

  /** The side's marks are in its flight record, or its record has its next number. */
  function PreparedSide(w: World, sd: Side): World
    requires S.SideReady(w, sd)
  {
    if sd.session != LEFT then
      w.(players := w.players[sd.session := S.Prepared(w.players[sd.session])])
    else
      w.(leaveSeq := S.NextNo(w.leaveSeq),
         leave := w.leave[sd.account := w.leave[sd.account].(bundleNo := S.NextNo(w.leaveSeq))])
  }

  function CommittedSide(w: World, sd: Side, n: nat): World
    requires S.SideReady(w, sd)
  {
    if sd.session != LEFT then
      w.(players := w.players[sd.session := S.Committed(w.players[sd.session], n)], inflight := w.inflight + 1)
    else
      w.(leave := w.leave[sd.account := w.leave[sd.account].(inFlight := true)])
  }

  function AbortedSide(w: World, sd: Side): World
    requires S.SideReady(w, sd)
  {
    if sd.session != LEFT then w.(players := w.players[sd.session := S.Aborted(w.players[sd.session])]) else w
  }

  predicate Apart(d0: Side, d1: Side) {
    d0.account != d1.account && (d0.session != LEFT ==> d0.session != d1.session)
  }

  /** What readiness looks at is the same in both. */
  ghost predicate SameReady(w: World, v: World) {
    && v.players.Keys == w.players.Keys && (forall s :: s in w.players ==> v.players[s].account == w.players[s].account)
    && v.leave.Keys == w.leave.Keys && (forall a :: a in w.leave ==> v.leave[a].paired == w.leave[a].paired)
  }

  lemma ReadyFrom(w: World, v: World, d: Side)
    requires SameReady(w, v)
    ensures S.SideReady(v, d) == S.SideReady(w, d)
  {
  }

  lemma PreparedReady(w: World, sd: Side)
    requires S.SideReady(w, sd)
    ensures SameReady(w, PreparedSide(w, sd))
  {
    hide S.Prepared, S.NextNo;
    if sd.session != LEFT { AccountStays(w.players[sd.session]); }
  }

  lemma CommittedReady(w: World, sd: Side, n: nat)
    requires S.SideReady(w, sd)
    ensures SameReady(w, CommittedSide(w, sd, n))
  {
    hide S.Committed;
    if sd.session != LEFT { AccountStays(w.players[sd.session]); }
  }

  lemma AbortedReady(w: World, sd: Side)
    requires S.SideReady(w, sd)
    ensures SameReady(w, AbortedSide(w, sd))
  {
    hide S.Aborted;
    if sd.session != LEFT { AccountStays(w.players[sd.session]); }
  }

  lemma StaysReady(w: World, sd: Side, d: Side)
    requires S.SideReady(w, sd) && Apart(sd, d)
    ensures S.SideReady(PreparedSide(w, sd), sd) && S.SideReady(w, d) == S.SideReady(PreparedSide(w, sd), d)
    ensures forall n ::
              S.SideReady(CommittedSide(w, sd, n), sd) && S.SideReady(w, d) == S.SideReady(CommittedSide(w, sd, n), d)
    ensures S.SideReady(AbortedSide(w, sd), sd) && S.SideReady(w, d) == S.SideReady(AbortedSide(w, sd), d)
    ensures S.SideReady(S.Flown(w, sd), d) == S.SideReady(w, d) && S.SideReady(S.Dropped(w, sd), d) == S.SideReady(w, d)
  {
    hide S.SideReady, PreparedSide, CommittedSide, AbortedSide, S.Flown, S.Dropped;
    PreparedReady(w, sd);
    AbortedReady(w, sd);
    FlownSame(w, sd);
    DroppedSame(w, sd);
    forall e | e == sd || e == d
      ensures S.SideReady(PreparedSide(w, sd), e) == S.SideReady(w, e)
              && S.SideReady(AbortedSide(w, sd), e) == S.SideReady(w, e)
      ensures S.SideReady(S.Flown(w, sd), e) == S.SideReady(w, e)
              && S.SideReady(S.Dropped(w, sd), e) == S.SideReady(w, e)
    {
      ReadyFrom(w, PreparedSide(w, sd), e);
      ReadyFrom(w, AbortedSide(w, sd), e);
      ReadyFrom(w, S.Flown(w, sd), e);
      ReadyFrom(w, S.Dropped(w, sd), e);
    }
    forall n ensures S.SideReady(CommittedSide(w, sd, n), sd)
        && S.SideReady(w, d) == S.SideReady(CommittedSide(w, sd, n), d) {
      CommittedReady(w, sd, n);
      ReadyFrom(w, CommittedSide(w, sd, n), sd);
      ReadyFrom(w, CommittedSide(w, sd, n), d);
    }
  }

  lemma AccountStays(p: Player)
    ensures S.Prepared(p).account == p.account && S.Aborted(p).account == p.account
    ensures forall n :: S.Committed(p, n).account == p.account
  {
  }

  lemma OneSideDrops(w: World, sd: Side)
    requires S.SideReady(w, sd) && S.SideReady(PreparedSide(w, sd), sd)
    ensures AbortedSide(PreparedSide(w, sd), sd) == S.Dropped(w, sd)
  {
    hide S.Prepared, S.Aborted, S.NextNo;
    if sd.session != LEFT { AbortAfter(w, sd.session); }
  }

  /** Preparing the second side first does not matter to the first. */
  lemma AbortPastPrepare(w: World, sd: Side, d: Side)
    requires S.SideReady(w, sd) && S.SideReady(w, d) && Apart(sd, d)
    requires S.SideReady(PreparedSide(w, d), sd) && S.SideReady(AbortedSide(w, sd), d)
    ensures AbortedSide(PreparedSide(w, d), sd) == PreparedSide(AbortedSide(w, sd), d)
  {
    hide S.Prepared, S.Aborted, S.NextNo;
    if sd.session != LEFT && d.session != LEFT {
      SwapSet(w.players, sd.session, S.Aborted(w.players[sd.session]), d.session, S.Prepared(w.players[d.session]));
    }
  }

  lemma SwapSet<K, V>(m: map<K, V>, i: K, x: V, j: K, y: V)
    requires i != j
    ensures m[i := x][j := y] == m[j := y][i := x]
  {
  }

  lemma CommitPastPrepare(w: World, sd: Side, d: Side, n: nat)
    requires S.SideReady(w, sd) && S.SideReady(w, d) && Apart(sd, d)
    requires S.SideReady(PreparedSide(w, d), sd) && S.SideReady(CommittedSide(w, sd, n), d)
    ensures CommittedSide(PreparedSide(w, d), sd, n) == PreparedSide(CommittedSide(w, sd, n), d)
  {
    hide PreparedSide, CommittedSide, S.SideReady;
    if sd.session != LEFT { PlayerPastPrepare(w, sd, d, n); } else { RecordPastPrepare(w, sd, d, n); }
  }

  lemma PlayerPastPrepare(w: World, sd: Side, d: Side, n: nat)
    requires S.SideReady(w, sd) && S.SideReady(w, d) && Apart(sd, d) && sd.session != LEFT
    requires S.SideReady(PreparedSide(w, d), sd) && S.SideReady(CommittedSide(w, sd, n), d)
    ensures CommittedSide(PreparedSide(w, d), sd, n) == PreparedSide(CommittedSide(w, sd, n), d)
  {
    hide S.Prepared, S.Committed, S.NextNo;
    if d.session != LEFT {
      SwapSet(w.players, sd.session, S.Committed(w.players[sd.session], n), d.session,
              S.Prepared(w.players[d.session]));
    }
  }

  lemma RecordPastPrepare(w: World, sd: Side, d: Side, n: nat)
    requires S.SideReady(w, sd) && S.SideReady(w, d) && Apart(sd, d) && sd.session == LEFT
    requires S.SideReady(PreparedSide(w, d), sd) && S.SideReady(CommittedSide(w, sd, n), d)
    ensures CommittedSide(PreparedSide(w, d), sd, n) == PreparedSide(CommittedSide(w, sd, n), d)
  {
    hide S.Prepared, S.Committed, S.NextNo;
    if d.session == LEFT {
      SwapSet(w.leave, sd.account, w.leave[sd.account].(inFlight := true),
              d.account, w.leave[d.account].(bundleNo := S.NextNo(w.leaveSeq)));
    }
  }

  lemma OneSideFlies(w: World, sd: Side, n: nat)
    requires S.SideReady(w, sd) && S.SideReady(PreparedSide(w, sd), sd)
    requires sd.session != LEFT ==> n == w.players[sd.session].flight.nextNo
    ensures CommittedSide(PreparedSide(w, sd), sd, n) == S.Flown(w, sd)
  {
    hide S.Prepared, S.Committed, S.NextNo;
    if sd.session != LEFT { CommitAfter(w, sd.session, n); }
  }

  lemma BothDrop(w: World, d0: Side, d1: Side)
    requires S.SideReady(w, d0) && S.SideReady(w, d1) && Apart(d0, d1)
    ensures S.SideReady(PreparedSide(w, d0), d1) && S.SideReady(S.Dropped(w, d0), d1)
    ensures var u := PreparedSide(PreparedSide(w, d0), d1);
            && S.SideReady(u, d0) && S.SideReady(AbortedSide(u, d0), d1)
            && AbortedSide(AbortedSide(u, d0), d1) == S.Dropped(S.Dropped(w, d0), d1)
  {
    hide S.SideReady, PreparedSide, AbortedSide, CommittedSide, S.Flown, S.Dropped;
    StaysReady(w, d0, d1);
    var v := PreparedSide(w, d0);
    StaysReady(v, d1, d0) by { ApartBack(d0, d1); }
    StaysReady(v, d0, d1);
    AbortPastPrepare(v, d0, d1);
    OneSideDrops(w, d0);
    StaysReady(S.Dropped(w, d0), d1, d0) by { ApartBack(d0, d1); }
    OneSideDrops(S.Dropped(w, d0), d1);
  }

  lemma ApartBack(d0: Side, d1: Side)
    requires Apart(d0, d1)
    ensures Apart(d1, d0)
  {
  }

  lemma BothFly(w: World, d0: Side, d1: Side, n0: nat, n1: nat)
    requires S.SideReady(w, d0) && S.SideReady(w, d1) && Apart(d0, d1)
    requires d0.session != LEFT ==> n0 == w.players[d0.session].flight.nextNo
    requires d1.session != LEFT ==> n1 == w.players[d1.session].flight.nextNo
    ensures S.SideReady(PreparedSide(w, d0), d1) && S.SideReady(S.Flown(w, d0), d1)
    ensures var u := PreparedSide(PreparedSide(w, d0), d1);
            && S.SideReady(u, d0) && S.SideReady(CommittedSide(u, d0, n0), d1)
            && CommittedSide(CommittedSide(u, d0, n0), d1, n1) == S.Flown(S.Flown(w, d0), d1)
  {
    hide S.SideReady, PreparedSide, AbortedSide, CommittedSide, S.Flown, S.Dropped;
    StaysReady(w, d0, d1);
    var v := PreparedSide(w, d0);
    StaysReady(v, d1, d0) by { ApartBack(d0, d1); }
    StaysReady(v, d0, d1);
    CommitPastPrepare(v, d0, d1, n0);
    OneSideFlies(w, d0, n0);
    StaysReady(S.Flown(w, d0), d1, d0) by { ApartBack(d0, d1); }
    assert d1.session != LEFT ==>
             d1.session in S.Flown(w, d0).players && n1 == S.Flown(w, d0).players[d1.session].flight.nextNo by {
      if d1.session != LEFT { OtherPlayer(w, d0, d1); }
    }
    OneSideFlies(S.Flown(w, d0), d1, n1);
  }

  lemma OtherPlayer(w: World, d0: Side, d1: Side)
    requires S.SideReady(w, d0) && S.SideReady(w, d1) && Apart(d0, d1) && d1.session != LEFT
    ensures d1.session in S.Flown(w, d0).players && S.Flown(w, d0).players[d1.session] == w.players[d1.session]
  {
    FlownElsewhere(w, d0, d1);
  }

  /** Neither preparing nor flying one side touches what the other side's head is made of. */
  ghost predicate SameHead(w: World, v: World, d: Side) {
    && v.hist == w.hist && v.table == w.table && v.leaveSeq == w.leaveSeq
    && (d.session != LEFT ==> (d.session in w.players) == (d.session in v.players)
                              && (d.session in w.players ==> v.players[d.session] == w.players[d.session]))
    && (d.session == LEFT ==> (d.account in w.leave) == (d.account in v.leave)
                              && (d.account in w.leave ==> v.leave[d.account] == w.leave[d.account]))
  }

  lemma FlownElsewhere(w: World, d0: Side, d1: Side)
    requires S.SideReady(w, d0) && Apart(d0, d1)
    ensures SameHead(w.(leaveSeq := S.Flown(w, d0).leaveSeq), S.Flown(w, d0), d1)
    ensures S.Flown(w, d0).leaveSeq == if d0.session != LEFT then w.leaveSeq else S.NextNo(w.leaveSeq)
  {
    hide S.Prepared, S.Committed, S.NextNo, S.SideReady;
    ReadyIn(w, d0);
  }

  lemma PreparedElsewhere(w: World, d0: Side, d1: Side)
    requires S.SideReady(w, d0) && Apart(d0, d1)
    ensures SameHead(w.(leaveSeq := PreparedSide(w, d0).leaveSeq), PreparedSide(w, d0), d1)
    ensures PreparedSide(w, d0).leaveSeq == if d0.session != LEFT then w.leaveSeq else S.NextNo(w.leaveSeq)
  {
    hide S.Prepared, S.NextNo, S.SideReady;
    ReadyIn(w, d0);
  }

  lemma ReadyIn(w: World, d: Side)
    requires S.SideReady(w, d)
    ensures d.session != LEFT ==> d.session in w.players
    ensures d.session == LEFT ==> d.account in w.leave
  {
  }

  lemma HeadFrom(w: World, v: World, d: Side, mate: Account)
    requires S.SideReady(w, d) && S.SideReady(v, d) && SameHead(w, v, d)
    ensures S.HeadOf(w, d, mate) == S.HeadOf(v, d, mate)
  {
    hide S.NextNo, S.RowsOf, ReadChar;
  }

  /** The second head is the same whether the first side has only been prepared or has flown. */
  lemma SecondHead(w: World, d0: Side, d1: Side, mate: Account)
    requires S.SideReady(w, d0) && S.SideReady(PreparedSide(w, d0), d1) && S.SideReady(S.Flown(w, d0), d1)
             && Apart(d0, d1)
    ensures S.HeadOf(PreparedSide(w, d0), d1, mate) == S.HeadOf(S.Flown(w, d0), d1, mate)
  {
    hide S.SideReady, PreparedSide, S.Flown, S.HeadOf, S.NextNo;
    FlownElsewhere(w, d0, d1);
    PreparedElsewhere(w, d0, d1);
    HeadFrom(PreparedSide(w, d0), S.Flown(w, d0), d1, mate);
  }

  lemma PushLaterPlayers(w: World, x: Write, ps: map<Session, Player>)
    ensures S.PushSave(w, x).(players := ps) == S.PushSave(w.(players := ps), x)
    ensures S.SaveFits(w.(players := ps), x) == S.SaveFits(w, x)
    ensures S.PushSave(w, x).players == w.players && S.PushSave(w, x).inflight == w.inflight
  {
  }

  lemma AbortAfter(w: World, s: Session)
    requires s in w.players
    ensures var p := w.players[s];
            w.players[s := S.Prepared(p)][s := S.Aborted(S.Prepared(p))] == w.players[s := S.Aborted(S.Prepared(p))]
  {
    hide S.Prepared, S.Aborted;
  }

  lemma CommitAfter(w: World, s: Session, n: nat)
    requires s in w.players
    ensures var p := w.players[s];
            w.players[s := S.Prepared(p)][s := S.Committed(S.Prepared(p), n)]
                == w.players[s := S.Committed(S.Prepared(p), n)]
  {
    hide S.Prepared, S.Committed;
  }
}
