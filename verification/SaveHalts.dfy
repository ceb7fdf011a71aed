/** Stopping the server, with the workers running all along: every player's last bundle, the records that failed, the
    links once more, and the last replies. Between any two of these steps any worker may execute a job or take its queue
    over. */
module SaveHalts {
  import opened Items
  import opened Seqs
  import opened SaveTypes
  import opened SaveSteps
  import opened SaveInvariant
  import opened SaveViews
  import opened SaveKeeps
  import opened SavePairs
  import opened SaveReplies
  import opened SaveRelease
  import opened SaveWorker
  import opened SaveLoads
  import opened SaveRuns
  import opened SaveTheorems
  import opened SaveShutdown
  import opened SaveLastPairs

  /** Saving: the sessions whose last bundle is not made yet. Pairing: the next link to send once more. */
  datatype Phase = Saving(live: set<Session>) | Pairing(next: nat)

  datatype Halt = Halt(w: World, phase: Phase)

  datatype Move =
    | Leaves(s: Session)
    | Again(a: Account)
    | Close
    | Both
    | ReadRow(k: nat)
    | Exec(k: nat, commit: bool, ok: bool)
    | Take(k: nat)
    | Turn(i: nat)
    | Hear

  function Halting(w: World): Halt { Halt(w, Saving(w.players.Keys)) }

  ghost predicate CanMove(h: Halt, m: Move) {
    match m
    case Leaves(s) => h.phase.Saving? && s in h.phase.live && s in h.w.players
    case Again(a) => h.phase == Saving({}) && a in h.w.leave && !h.w.leave[a].inFlight && !h.w.leave[a].paired
    case Close => h.phase == Saving({})
    case Both => h.phase.Pairing? && h.phase.next < |h.w.pairs| && TwoSided(h.w.pairs[h.phase.next])
    case Exec(k, commit, ok) => IsNext(h.w, k) && (ok ==> commit)
    case ReadRow(k) => IsNext(h.w, k) && h.w.jobs[k].Load?
    case Take(_) => true
    case Turn(i) => CanSlip(h.w, i)
    case Hear => h.phase.Pairing? && |h.w.pairs| <= h.phase.next && h.w.replies != []
  }

  ghost function Moved(h: Halt, m: Move): Halt
    requires CanMove(h, m)
  {
    match m
    case Leaves(s) => Halt(LeaveFinal(h.w, s), Saving(h.phase.live - {s}))
    case Again(a) => h.(w := SendLeaveRecord(h.w, a))
    case Close => h.(phase := Pairing(0))
    case Both => Halt(SendPair(h.w, h.phase.next), Pairing(h.phase.next + 1))
    case Exec(k, commit, ok) => h.(w := Execute(h.w, k, commit, ok))
    case ReadRow(k) => h.(w := Fetch(h.w, k))
    case Take(k) => h.(w := TakeOver(h.w, k))
    case Turn(i) => h.(w := Slip(h.w, i))
    case Hear => h.(w := OnSaveReply(Tail(h.w), h.w.replies[0]))
  }

  ghost predicate CanHalt(h: Halt, moves: seq<Move>)
    decreases |moves|
  {
    moves == [] || (CanMove(h, moves[0]) && CanHalt(Moved(h, moves[0]), moves[1..]))
  }

  ghost function Halted(h: Halt, moves: seq<Move>): Halt
    decreases |moves|
  {
    if moves == [] || !CanMove(h, moves[0]) then h else Halted(Moved(h, moves[0]), moves[1..])
  }

  // ----- what every move keeps

  /** The players whose last bundle is not made yet: what a run would see. */
  function Inner(w: World, live: set<Session>): World {
    w.(players := map s | s in live && s in w.players :: w.players[s])
  }

  /** A record on a link is held. */
  ghost predicate Held(w: World) {
    forall i, k :: 0 <= i < |w.pairs| && 0 <= k < |w.pairs[i].sides| && w.pairs[i].sides[k].account in w.leave ==>
      w.leave[w.pairs[i].sides[k].account].paired
  }

  ghost predicate HaltOk(h: Halt) {
    match h.phase
    case Saving(live) =>
      && live <= h.w.players.Keys
      && Inv(Inner(h.w, live))
      && forall s :: s in h.w.players && s !in live ==> h.w.players[s].flight.bundleNo == 0
    case Pairing(_) => Final(h.w) && LastLinks(h.w) && Held(h.w)
  }

  /** No state is entered any more, and the database moves forward in the histories. */
  ghost predicate Nearer(w: World, v: World) {
    && v.hist == w.hist && v.table == w.table && v.trades == w.trades && v.stale == w.stale
    && forall a :: DbAt(w, a) <= DbAt(v, a)
  }

  lemma NearerTrans(w: World, u: World, v: World)
    requires Nearer(w, u) && Nearer(u, v)
    ensures Nearer(w, v)
  {
    hide DbAt;
  }

  lemma PastIsNearer(w: World, v: World)
    requires SamePast(w, v)
    ensures Nearer(w, v)
  {
  }

  lemma HaltingOk(w: World)
    requires Inv(w)
    ensures HaltOk(Halting(w))
  {
    hide Inv;
    assert Inner(w, w.players.Keys).players == w.players;
  }

  lemma LastKeeps(w: World, live: set<Session>, s: Session)
    requires HaltOk(Halt(w, Saving(live))) && s in live
    ensures HaltOk(Halt(LeaveFinal(w, s), Saving(live - {s}))) && SamePast(w, LeaveFinal(w, s))
    ensures s in Inner(w, live).players && Inner(LeaveFinal(w, s), live - {s}) == Leave(Inner(w, live), s)
  {
    hide Inv, LeaveFinal, Leave, SamePast;
    var u := Inner(w, live);
    LeaveFinalPlayers(w, s, u.players);
    LeaveKeeps(u, s);
    LeaveHist(w, s);
    var v := LeaveFinal(w, s);
    assert Inner(v, live - {s}).players == u.players - {s};
    assert Emptied(w.players[s]).flight.bundleNo == 0;
  }

  lemma AgainKeeps(w: World, live: set<Session>, a: Account)
    requires HaltOk(Halt(w, Saving(live))) && a in w.leave && !w.leave[a].inFlight && !w.leave[a].paired
    ensures HaltOk(Halt(SendLeaveRecord(w, a), Saving(live))) && SamePast(w, SendLeaveRecord(w, a))
    ensures Inner(SendLeaveRecord(w, a), live) == SendLeaveRecord(Inner(w, live), a)
  {
    hide Inv, SendLeaveRecord, SamePast;
    SendKeepsPlayers(w, a, Inner(w, live).players);
    SendLeaveRecordKeeps(Inner(w, live), a);
    SentHist(w, a);
  }

  lemma ExecInner(w: World, live: set<Session>, k: nat, commit: bool, ok: bool)
    requires IsNext(w, k)
    ensures k < |w.jobs| && IsNext(Inner(w, live), k)
    ensures Inner(Execute(w, k, commit, ok), live) == Execute(Inner(w, live), k, commit, ok)
  {
    hide StoreJob, Answers, Reads, IsNext, Without;
    NextInRange(w, k);
    NextInner(w, live, k);
    StoreInner(w, Inner(w, live).players, w.jobs[k]);
    ReadsInner(w, Inner(w, live).players, w.jobs[k], ok);
    StoreSame(w, w.jobs[k]);
  }

  lemma NextInner(w: World, live: set<Session>, k: nat)
    requires IsNext(w, k)
    ensures IsNext(Inner(w, live), k)
  {
    hide SlotIndex;
  }

  lemma StoreInner(w: World, ps: map<Session, Player>, j: Job)
    ensures StoreJob(w.(players := ps), j) == StoreJob(w, j).(players := ps)
  {
    hide Upsert;
  }

  lemma ReadsInner(w: World, ps: map<Session, Player>, j: Job, ok: bool)
    ensures Reads(w.(players := ps), j, ok) == Reads(w, j, ok)
  {
    hide WritesFor;
  }

  lemma ExecKeeps(w: World, live: set<Session>, k: nat, commit: bool, ok: bool)
    requires HaltOk(Halt(w, Saving(live))) && IsNext(w, k) && (ok ==> commit)
    ensures k < |w.jobs| && HaltOk(Halt(Execute(w, k, commit, ok), Saving(live)))
            && Nearer(w, Execute(w, k, commit, ok))
  {
    hide Inv, Execute, IsNext, DbAt;
    ExecInner(w, live, k, commit, ok);
    ExecuteKeeps(Inner(w, live), k, commit, ok);
    ExecuteSame(w, k, commit, ok);
    forall a ensures DbAt(w, a) <= DbAt(Execute(w, k, commit, ok), a) {
      WorkForward(Inner(w, live), k, commit, ok, a);
      InnerDb(w, live, a);
      InnerDb(Execute(w, k, commit, ok), live, a);
    }
  }

  lemma InnerDb(w: World, live: set<Session>, a: Account)
    ensures DbAt(Inner(w, live), a) == DbAt(w, a) && DbOf(Inner(w, live), a) == DbOf(w, a)
  {
  }

  lemma TakeKeeps(w: World, live: set<Session>, k: nat)
    requires HaltOk(Halt(w, Saving(live)))
    ensures HaltOk(Halt(TakeOver(w, k), Saving(live))) && SamePast(w, TakeOver(w, k))
  {
    hide Inv;
    assert Inner(TakeOver(w, k), live) == TakeOver(Inner(w, live), k);
    TakeOverKeeps(Inner(w, live), k);
  }

  lemma ReadRowKeeps(w: World, live: set<Session>, k: nat)
    requires HaltOk(Halt(w, Saving(live))) && IsNext(w, k) && w.jobs[k].Load?
    ensures HaltOk(Halt(Fetch(w, k), Saving(live))) && SamePast(w, Fetch(w, k))
  {
    hide Inv, IsNext, WritesFor;
    assert k < |w.jobs| by { NextInRange(w, k); }
    assert Inner(Fetch(w, k), live) == Fetch(Inner(w, live), k);
    FetchKeeps(Inner(w, live), k);
  }

  lemma TurnKeeps(w: World, live: set<Session>, i: nat)
    requires HaltOk(Halt(w, Saving(live))) && CanSlip(w, i)
    ensures HaltOk(Halt(Slip(w, i), Saving(live))) && SamePast(w, Slip(w, i))
  {
    hide Inv, Still;
    assert Inner(Slip(w, i), live) == Slip(Inner(w, live), i);
    SlipKeeps(Inner(w, live), i);
  }

  /** Everybody's last bundle is made: from here on only records, links and what is queued matter. */
  lemma CloseKeeps(w: World)
    requires HaltOk(Halt(w, Saving({})))
    ensures HaltOk(Halt(w, Pairing(0)))
    ensures Inner(w, {}) == w.(players := map[])
  {
    hide Inv, Final, LastLinks;
    assert Inner(w, {}).players == map[];
    WithPlayers(w);
    HeldFrom(Inner(w, {}));
  }

  lemma HeldFrom(w: World)
    requires Inv(w)
    ensures Held(w)
  {
    hide Inv, ViewOf;
    forall i, k | 0 <= i < |w.pairs| && 0 <= k < |w.pairs[i].sides| && w.pairs[i].sides[k].account in w.leave
      ensures w.leave[w.pairs[i].sides[k].account].paired
    {
      LinkOkIs(w, i);
      RecordSeen(w, w.pairs[i].sides[k].account);
      SideIsHeld(w.table, w.pairs[i], k, ViewOf(w, w.pairs[i].sides[k].account), w.pairs[i].sides[k].account);
    }
  }

  lemma LinkOkIs(w: World, i: nat)
    requires Inv(w) && i < |w.pairs|
    ensures TwoSided(w.pairs[i])
    ensures forall k :: 0 <= k < 2 ==>
              var a := w.pairs[i].sides[k].account;
              SideOk(w.pairs[i], k, ViewOf(w, a)) && ViewOk(w.table, ViewOf(w, a), a)
  {
    hide Inv, ViewOf, ViewOk, SideOk, AnsweredAlike, Settled;
    TheLink(w, i);
    TheView(w, w.pairs[i].sides[0].account);
    TheView(w, w.pairs[i].sides[1].account);
  }

  lemma SideIsHeld(table: ItemTable, l: PairLink, k: nat, v: View, a: Account)
    requires TwoSided(l) && k < 2 && SideOk(l, k, v) && ViewOk(table, v, a) && v.rec.Some?
    ensures v.rec.value.paired
  {
    hide HistoryOk, QueueOk, Agree;
  }

  // ----- the later moves

  lemma LateExec(w: World, k: nat, commit: bool, ok: bool)
    requires Final(w) && LastLinks(w) && Held(w) && IsNext(w, k) && (ok ==> commit)
    ensures k < |w.jobs|
    ensures var v := Execute(w, k, commit, ok); Final(v) && LastLinks(v) && Held(v) && Nearer(w, v)
  {
    hide Final, Execute, ViewOf, IsNext, DbAt, LastLink, IsTrade, Has, Held;
    ExecFinal(w, k, commit, ok);
    ExecuteSame(w, k, commit, ok);
    var v := Execute(w, k, commit, ok);
    assert Held(v) by { SameHeld(w, v); }
    forall i | 0 <= i < |v.pairs|
      ensures TwoSided(v.pairs[i])
      ensures LastLink(v.pairs[i], ViewOf(v, v.pairs[i].sides[0].account), ViewOf(v, v.pairs[i].sides[1].account))
    {
      var l := w.pairs[i];
      FewerWrites(w, k, commit, ok, l.sides[0].account);
      FewerWrites(w, k, commit, ok, l.sides[1].account);
      LastFewer(l, ViewOf(w, l.sides[0].account), ViewOf(w, l.sides[1].account),
        ViewOf(v, l.sides[0].account), ViewOf(v, l.sides[1].account));
    }
  }

  lemma SameHeld(w: World, v: World)
    requires Held(w) && v.pairs == w.pairs && v.leave == w.leave
    ensures Held(v)
  {
  }

  /** Nothing but the first write of the job leaves an account's queue. */
  lemma FewerWrites(w: World, k: nat, commit: bool, ok: bool, a: Account)
    requires Final(w) && IsNext(w, k) && (ok ==> commit) && k < |w.jobs|
    ensures var v, u := ViewOf(Execute(w, k, commit, ok), a), ViewOf(w, a);
            v.hist == u.hist && (v.ws == u.ws || (u.ws != [] && v.ws == u.ws[1..]))
  {
    hide Execute, ViewOf, IsNext, DbAt, HistoryOk, QueueOk, RecordFinal, TradeFinal, PlainJob;
    assert PlainJob(w.jobs[k]);
    assert FinalOk(w.table, ViewOf(w, a), a);
    PairAccounts(w.jobs[k]);
    if WritesIn(w.jobs[k], a) == [] {
      ExecutedOthers(w, k, commit, ok, a);
    } else {
      ExecutedAccount(w, k, commit, ok, a, WritesIn(w.jobs[k], a)[0]);
    }
  }

  lemma PairAccounts(j: Job)
    requires PlainJob(j)
    ensures j.Pair? ==> j.first.account != j.second.account
    ensures forall a :: WritesIn(j, a) == [] || WritesIn(j, a) == [WritesIn(j, a)[0]]
  {
  }

  lemma LastFewer(l: PairLink, v0: View, v1: View, u0: View, u1: View)
    requires LastLink(l, v0, v1) && u0.hist == v0.hist && u1.hist == v1.hist
    requires u0.ws == v0.ws || (v0.ws != [] && u0.ws == v0.ws[1..])
    requires u1.ws == v1.ws || (v1.ws != [] && u1.ws == v1.ws[1..])
    ensures LastLink(l, u0, u1)
  {
  }

  lemma LateHear(w: World)
    requires Final(w) && LastLinks(w) && Held(w) && w.replies != []
    ensures var v := OnSaveReply(Tail(w), w.replies[0]); Final(v) && LastLinks(v) && Held(v) && Nearer(w, v)
  {
    hide Final, OnSaveReply, ViewOf, Tail, DbAt, LastLink, IsTrade, Has;
    HearFinal(w);
    HearIs(w);
    TailSame(w);
    HeardHeld(w);
    var v := OnSaveReply(Tail(w), w.replies[0]);
    forall i | 0 <= i < |v.pairs|
      ensures TwoSided(v.pairs[i])
      ensures LastLink(v.pairs[i], ViewOf(v, v.pairs[i].sides[0].account), ViewOf(v, v.pairs[i].sides[1].account))
    {
      var a, b := w.pairs[i].sides[0].account, w.pairs[i].sides[1].account;
      LastSame(w.pairs[i], ViewOf(w, a), ViewOf(w, b), ViewOf(v, a), ViewOf(v, b));
    }
  }

  lemma HeardHeld(w: World)
    requires Held(w) && w.replies != []
    ensures Held(OnSaveReply(Tail(w), w.replies[0]))
  {
    hide Held, OnSaveReply;
    HeardLeave(Tail(w), w.replies[0]);
    HeldMore(w, OnSaveReply(Tail(w), w.replies[0]));
  }

  lemma HeardLeave(w: World, r: Reply)
    ensures OnSaveReply(w, r).pairs == w.pairs && OnSaveReply(w, r).replies == w.replies
    ensures forall a ::
              a in OnSaveReply(w, r).leave ==> a in w.leave && OnSaveReply(w, r).leave[a].paired == w.leave[a].paired
  {
    hide RequestSave, LandedOk, LandedFailed;
    if r.session != LEFT && ForLive(w, r) {
      var v := w.(inflight := w.inflight - 1,
                  players := w.players[r.session := if r.ok then LandedOk(w.players[r.session])
                                       else LandedFailed(w.players[r.session], r)]);
      RequestKeepsLeave(v, r.session);
    }
  }

  lemma RequestKeepsLeave(w: World, s: Session)
    requires s in w.players
    ensures RequestSave(w, s).leave == w.leave && RequestSave(w, s).pairs == w.pairs
            && RequestSave(w, s).replies == w.replies
  {
  }

  /** No new records and no new sides, and no record is let go. */
  lemma HeldMore(w: World, v: World)
    requires Held(w) && SameSides(w, v)
    requires forall a :: a in v.leave ==> a in w.leave && v.leave[a].paired == w.leave[a].paired
    ensures Held(v)
  {
    forall i, k | 0 <= i < |v.pairs| && 0 <= k < |v.pairs[i].sides| && v.pairs[i].sides[k].account in v.leave
      ensures v.leave[v.pairs[i].sides[k].account].paired
    {
      assert SameAccounts(w.pairs[i], v.pairs[i]);
      assert w.leave[w.pairs[i].sides[k].account].paired;
    }
  }

  lemma LateTake(w: World, k: nat)
    requires Final(w) && LastLinks(w) && Held(w)
    ensures var v := TakeOver(w, k); Final(v) && LastLinks(v) && Held(v) && Nearer(w, v)
  {
    hide ViewOf, FinalOk, DbAt, LastLink, IsTrade, Has, PlainJobs, TradeFinal, Held;
    var v := TakeOver(w, k);
    TookOver(w, k);
    TakeViews(w, k);
    SameDb(w, v);
    SameHeld(w, v);
    forall i | 0 <= i < |v.trades| ensures TradeFinal(v, v.trades[i]) { SameTrade(w, v, w.trades[i]); }
  }

  /** A step that no account sees and that changes no write in the queues. */
  lemma LateQuiet(w: World, v: World)
    requires Final(w) && LastLinks(w) && Held(w) && v == w.(jobs := v.jobs, replies := v.replies)
    requires forall a :: ViewOf(v, a) == ViewOf(w, a)
    requires |v.jobs| == |w.jobs| && forall n ::
               0 <= n < |w.jobs| ==> v.jobs[n] == w.jobs[n] || (w.jobs[n].Load? && v.jobs[n].Load?)
    ensures Final(v) && LastLinks(v) && Held(v) && Nearer(w, v)
  {
    hide ViewOf, FinalOk, DbAt, LastLink, IsTrade, Has, Held, TradeJob;
    SameDb(w, v);
    SameHeld(w, v);
    forall n | 0 <= n < |v.jobs| ensures PlainJob(v.jobs[n]) { assert PlainJob(w.jobs[n]); }
    forall i | 0 <= i < |v.trades| ensures TradeFinal(v, v.trades[i]) {
      var t := w.trades[i];
      assert TradeFinal(w, t);
      forall n | 0 <= n < |v.jobs| && DbAt(v, t.a) < t.aAt ensures TradeJob(v.jobs[n], t) {
        assert TradeJob(w.jobs[n], t);
        LoadTrade(v.jobs[n], t);
      }
    }
  }

  lemma LoadTrade(j: Job, t: Trade)
    ensures j.Load? ==> TradeJob(j, t)
  {
  }

  lemma LateReadRow(w: World, k: nat)
    requires Final(w) && LastLinks(w) && Held(w) && IsNext(w, k) && w.jobs[k].Load?
    ensures var v := Fetch(w, k); Final(v) && LastLinks(v) && Held(v) && Nearer(w, v)
  {
    hide Final, LastLinks, Held, IsNext, ViewOf, WritesFor, RowNow;
    assert k < |w.jobs| by { NextInRange(w, k); }
    FetchSame(w, k);
    FetchViews(w, Fetch(w, k));
    LateQuiet(w, Fetch(w, k));
  }

  lemma LateTurn(w: World, i: nat)
    requires Final(w) && LastLinks(w) && Held(w) && CanSlip(w, i)
    ensures var v := Slip(w, i); Final(v) && LastLinks(v) && Held(v) && Nearer(w, v)
  {
    hide Final, LastLinks, Held, ViewOf;
    SlipViews(w, i);
    LateQuiet(w, Slip(w, i));
  }

  lemma TakeViews(w: World, k: nat)
    ensures forall a :: ViewOf(TakeOver(w, k), a) == ViewOf(w, a)
  {
    hide Gather, ReadChar;
  }

  lemma BothKeeps(w: World, i: nat)
    requires Final(w) && LastLinks(w) && Held(w) && i < |w.pairs|
    ensures TwoSided(w.pairs[i])
    ensures var v := SendPair(w, i); Final(v) && LastLinks(v) && Held(v) && SamePast(w, v) && |v.pairs| == |w.pairs|
  {
    hide Final, LastLinks, SendPair, Held;
    SendLastKeeps(w, i);
    SendPairHist(w, i);
    LastParts(w, i);
    SentHeld(w, i);
  }

  /** Sending a link changes neither who is on links nor which records there are and are held. */
  lemma SentHeld(w: World, i: nat)
    requires i < |w.pairs| && TwoSided(w.pairs[i]) && Held(w)
    ensures Held(SendPair(w, i)) && SameSides(w, SendPair(w, i)) && SendPair(w, i).leave.Keys == w.leave.Keys
  {
    hide Held, SendPair;
    SentKept(w, i);
    HeldMore(w, SendPair(w, i));
  }

  ghost predicate Kept(w: World, v: World) {
    && SameSides(w, v) && v.leave.Keys == w.leave.Keys
    && forall a :: a in w.leave ==> v.leave[a].paired == w.leave[a].paired
  }

  lemma SentKept(w: World, i: nat)
    requires i < |w.pairs| && TwoSided(w.pairs[i])
    ensures Kept(w, SendPair(w, i))
  {
    hide Flown, Dropped, HeadOf, PushPair, PairFits, SideReady, Kept, FlownLink;
    var l := w.pairs[i];
    var d0, d1 := l.sides[0], l.sides[1];
    KeptLink(w, w, i, l);
    assert w.(pairs := w.pairs[i := l]) == w;
    if SideReady(w, d0) {
      SideKept(w, d0);
      var u := Flown(w, d0);
      if SideReady(u, d1) {
        SideKept(u, d1);
        var x, y := HeadOf(w, d0, d1.account), HeadOf(u, d1, d0.account);
        var z := Flown(u, d1);
        KeptTrans(w, u, z);
        PushKept(w, z, x, y);
        FlownAccounts(l, x.bundleNo, y.bundleNo);
        KeptLink(w, PushPair(z, x, y), i, FlownLink(l, x.bundleNo, y.bundleNo));
        if SideReady(Dropped(w, d0), d1) {
          SideKept(Dropped(w, d0), d1);
          KeptTrans(w, Dropped(w, d0), Dropped(Dropped(w, d0), d1));
          KeptLink(w, Dropped(Dropped(w, d0), d1), i, l.(inFlight := false));
        }
      }
    }
  }

  lemma SideKept(w: World, sd: Side)
    requires SideReady(w, sd)
    ensures Kept(w, Flown(w, sd)) && Kept(w, Dropped(w, sd))
  {
    hide Flown, Dropped, SideReady;
    FlownSame(w, sd);
    DroppedSame(w, sd);
  }

  lemma KeptTrans(w: World, u: World, v: World)
    requires Kept(w, u) && Kept(u, v)
    ensures Kept(w, v)
  {
    forall i | 0 <= i < |w.pairs| ensures SameAccounts(w.pairs[i], v.pairs[i]) {
      assert SameAccounts(w.pairs[i], u.pairs[i]) && SameAccounts(u.pairs[i], v.pairs[i]);
    }
  }

  lemma PushKept(w: World, z: World, x: Write, y: Write)
    requires Kept(w, z)
    ensures Kept(w, PushPair(z, x, y))
  {
    hide PushPair;
    PushedSame(z, x, y);
  }

  lemma FlownAccounts(l: PairLink, n0: nat, n1: nat)
    requires TwoSided(l)
    ensures SameAccounts(l, FlownLink(l, n0, n1))
  {
  }

  lemma KeptLink(w: World, v: World, i: nat, m: PairLink)
    requires i < |w.pairs| && SameAccounts(w.pairs[i], m) && (v == w || Kept(w, v))
    ensures Kept(w, v.(pairs := w.pairs[i := m]))
  {
  }

  /** The links of `v` are those of `w`, whatever has become of them. */
  ghost predicate SameSides(w: World, v: World) {
    && |v.pairs| == |w.pairs|
    && forall i :: 0 <= i < |w.pairs| ==> SameAccounts(w.pairs[i], v.pairs[i])
  }

  ghost predicate SameAccounts(l: PairLink, m: PairLink) {
    |m.sides| == |l.sides| && forall k :: 0 <= k < |l.sides| ==> m.sides[k].account == l.sides[k].account
  }

  // ----- every way of stopping

  lemma MoveKeeps(h: Halt, m: Move)
    requires HaltOk(h) && CanMove(h, m)
    ensures HaltOk(Moved(h, m)) && Nearer(h.w, Moved(h, m).w)
  {
    hide Inv, Final, LastLinks, Held, Nearer, LeaveFinal, SendLeaveRecord, SendPair, Fetch, Execute, TakeOver, Slip,
         CanSlip, OnSaveReply, IsNext, Tail, SamePast, Inner, TwoSided, HaltOk;
    match m
    case Leaves(s) => LastKeeps(h.w, h.phase.live, s); PastIsNearer(h.w, Moved(h, m).w);
    case Again(a) => AgainKeeps(h.w, {}, a); PastIsNearer(h.w, Moved(h, m).w);
    case Close => CloseKeeps(h.w); NearerSelf(h.w);
    case Both => LateIs(h); BothKeeps(h.w, h.phase.next); LateOf(Moved(h, m)); PastIsNearer(h.w, Moved(h, m).w);
    case Exec(k, commit, ok) =>
      if h.phase.Saving? {
        ExecKeeps(h.w, h.phase.live, k, commit, ok);
      } else {
        LateIs(h);
        LateExec(h.w, k, commit, ok);
        LateOf(Moved(h, m));
      }
    case ReadRow(k) =>
      if h.phase.Saving? {
        ReadRowKeeps(h.w, h.phase.live, k);
        PastIsNearer(h.w, Moved(h, m).w);
      } else {
        LateIs(h);
        LateReadRow(h.w, k);
        LateOf(Moved(h, m));
      }
    case Turn(i) =>
      if h.phase.Saving? {
        TurnKeeps(h.w, h.phase.live, i);
        PastIsNearer(h.w, Moved(h, m).w);
      } else {
        LateIs(h);
        LateTurn(h.w, i);
        LateOf(Moved(h, m));
      }
    case Take(k) =>
      if h.phase.Saving? {
        TakeKeeps(h.w, h.phase.live, k);
        PastIsNearer(h.w, Moved(h, m).w);
      } else {
        LateIs(h);
        LateTake(h.w, k);
        LateOf(Moved(h, m));
      }
    case Hear => LateIs(h); LateHear(h.w); LateOf(Moved(h, m));
  }

  lemma NearerSelf(w: World)
    ensures Nearer(w, w)
  {
  }

  lemma LateIs(h: Halt)
    requires HaltOk(h) && h.phase.Pairing?
    ensures Final(h.w) && LastLinks(h.w) && Held(h.w)
  {
  }

  lemma LateOf(h: Halt)
    requires h.phase.Pairing? && Final(h.w) && LastLinks(h.w) && Held(h.w)
    ensures HaltOk(h)
  {
  }

  lemma {:induction false} HaltKeeps(h: Halt, moves: seq<Move>)
    requires HaltOk(h) && CanHalt(h, moves)
    ensures HaltOk(Halted(h, moves)) && Nearer(h.w, Halted(h, moves).w)
    decreases |moves|
  {
    hide HaltOk, CanMove, Moved, Nearer;
    if moves == [] {
      NearerSelf(h.w);
    } else {
      MoveKeeps(h, moves[0]);
      HaltKeeps(Moved(h, moves[0]), moves[1..]);
      NearerTrans(h.w, Moved(h, moves[0]).w, Halted(h, moves).w);
    }
  }

  // ----- what a shutdown promises

  /** In `v` the database holds one of the states account `a` has been in in `w`. */
  ghost predicate HoldsAState(w: World, v: World, a: Account) {
    && DbAt(v, a) < |HistOf(w, a)|
    && Stored(v, a).row == HistOf(w, a)[DbAt(v, a)].row
    && (a !in w.stale ==> Stored(v, a) == HistOf(w, a)[DbAt(v, a)])
  }

  /** And if it has no record there, it is its last one. */
  ghost predicate Safe(w: World, v: World, a: Account) {
    HistOf(w, a) != [] && HoldsAState(w, v, a) && (a !in v.leave ==> DbAt(v, a) == |HistOf(w, a)| - 1)
  }

  lemma FinalSafe(w: World, v: World, a: Account)
    requires Final(v) && Nearer(w, v)
    ensures Safe(w, v, a)
  {
    hide ViewOf, QueueOk, RecordFinal, PlainJobs, TradeFinal, DbAt, Stored, GoodSnap;
    assert FinalOk(v.table, ViewOf(v, a), a);
    ViewParts(v, a);
    if a !in v.leave { Absent(v, a); }
  }

  lemma StopSound(w0: World, before: seq<Action>, moves: seq<Move>)
    requires Initial(w0) && FreeRun(w0, before) && CanHalt(Halting(Ran(w0, before)), moves)
    ensures Inv(Ran(w0, before)) && HaltOk(Halting(Ran(w0, before)))
    ensures var h := Halted(Halting(Ran(w0, before)), moves); HaltOk(h) && Nearer(Ran(w0, before), h.w)
  {
    hide Initial, FreeRun, Ran, Inv, LoadsOk, CanHalt, Halted, HaltOk, Nearer;
    RunSound(w0, before);
    HaltingOk(Ran(w0, before));
    HaltKeeps(Halting(Ran(w0, before)), moves);
  }

  /** A shutdown counts as lost every account it leaves a record of, and no other account loses anything: whatever the
      workers did meanwhile and however the drain went, an account without a record is stored in its last state, row and
      whole bag (of a stale account, the row). With no record left, everything is stored. */
  lemma ShutdownLosesNothingUncounted(w0: World, before: seq<Action>, moves: seq<Move>)
    requires Initial(w0) && FreeRun(w0, before) && CanHalt(Halting(Ran(w0, before)), moves)
    requires Halted(Halting(Ran(w0, before)), moves).phase.Pairing?
    ensures var w, v := Ran(w0, before), Halted(Halting(Ran(w0, before)), moves).w;
            && (forall a :: HistOf(v, a) == HistOf(w, a) && HistOf(w, a) != [])
            && v.stale == w.stale
            && (forall a :: a !in v.leave ==> DbAt(v, a) == |HistOf(w, a)| - 1 && StoresLast(w, v, a))
            && (|v.leave| == 0 ==> forall a :: StoresLast(w, v, a))
  {
    hide Initial, FreeRun, Ran, Inv, CanHalt, Halted, HaltOk, Final, LastLinks, Held, Stored;
    var w, h := Ran(w0, before), Halted(Halting(Ran(w0, before)), moves);
    StopSound(w0, before, moves);
    LateIs(h);
    forall a
      ensures HistOf(h.w, a) == HistOf(w, a) && HistOf(w, a) != []
      ensures a !in h.w.leave ==> DbAt(h.w, a) == |HistOf(w, a)| - 1 && StoresLast(w, h.w, a)
    {
      FinalSafe(w, h.w, a);
    }
  }

  /** Trades stay atomic and the database keeps moving forward through a shutdown, resent pairs included. */
  lemma ShutdownKeepsTrades(w0: World, before: seq<Action>, moves: seq<Move>)
    requires Initial(w0) && FreeRun(w0, before) && CanHalt(Halting(Ran(w0, before)), moves)
    ensures var w, v := Ran(w0, before), Halted(Halting(Ran(w0, before)), moves).w;
            && v.trades == w.trades
            && (forall i :: 0 <= i < |w.trades| ==>
                  (DbAt(v, w.trades[i].a) >= w.trades[i].aAt <==> DbAt(v, w.trades[i].b) >= w.trades[i].bAt))
            && (forall a :: DbAt(w, a) <= DbAt(v, a) && HoldsAState(w, v, a))
  {
    hide Initial, FreeRun, Ran, Inv, CanHalt, Halted, HaltOk, Stored, HistOf, DbAt;
    var w, h := Ran(w0, before), Halted(Halting(Ran(w0, before)), moves);
    StopSound(w0, before, moves);
    forall a ensures HoldsAState(w, h.w, a) { HaltHolds(w, h, a); }
    forall i | 0 <= i < |w.trades|
      ensures DbAt(h.w, w.trades[i].a) >= w.trades[i].aAt <==> DbAt(h.w, w.trades[i].b) >= w.trades[i].bAt
    {
      HaltTrade(h, i);
    }
  }

  lemma HaltHolds(w: World, h: Halt, a: Account)
    requires HaltOk(h) && Nearer(w, h.w)
    ensures HoldsAState(w, h.w, a)
  {
    hide Inv, Final, LastLinks, Held, DbAt, Stored;
    if h.phase.Pairing? {
      FinalSafe(w, h.w, a);
    } else {
      StoredDepicts(Inner(h.w, h.phase.live), a);
      InnerDb(h.w, h.phase.live, a);
      InnerStored(h.w, h.phase.live, a);
    }
  }

  lemma InnerStored(w: World, live: set<Session>, a: Account)
    ensures Stored(Inner(w, live), a) == Stored(w, a) && HistOf(Inner(w, live), a) == HistOf(w, a)
  {
    hide ReadChar;
  }

  lemma HaltTrade(h: Halt, i: nat)
    requires HaltOk(h) && i < |h.w.trades|
    ensures DbAt(h.w, h.w.trades[i].a) >= h.w.trades[i].aAt <==> DbAt(h.w, h.w.trades[i].b) >= h.w.trades[i].bAt
  {
    hide ViewOf, FinalOk, DbAt, TradeJob, PlainJobs, LastLinks, Held, Base, QueuesOk, ViewsOk, LinksOk, Flying;
    var t := h.w.trades[i];
    if h.phase.Pairing? {
      assert TradeFinal(h.w, t);
    } else {
      var u := Inner(h.w, h.phase.live);
      assert TradeOk(u, u.trades[i]);
      InnerDb(h.w, h.phase.live, t.a);
      InnerDb(h.w, h.phase.live, t.b);
    }
  }

  // ----- the shutdown as one thread does it, with no worker in between

  ghost predicate Gets(h: Halt, g: Halt) { exists moves :: CanHalt(h, moves) && Halted(h, moves) == g }

  lemma GetsSelf(h: Halt)
    ensures Gets(h, h)
  {
    assert CanHalt(h, []) && Halted(h, []) == h;
  }

  lemma GetsMove(h: Halt, m: Move)
    requires CanMove(h, m)
    ensures Gets(h, Moved(h, m))
  {
    hide CanMove, Moved;
    var g := Moved(h, m);
    assert [m][1..] == [];
    assert CanHalt(g, []) && Halted(g, []) == g;
    assert CanHalt(h, [m]) && Halted(h, [m]) == g;
  }

  lemma {:induction false} HaltConcat(h: Halt, x: seq<Move>, y: seq<Move>)
    requires CanHalt(h, x) && CanHalt(Halted(h, x), y)
    ensures CanHalt(h, x + y) && Halted(h, x + y) == Halted(Halted(h, x), y)
    decreases |x|
  {
    hide CanMove, Moved;
    if x == [] {
      assert x + y == y;
    } else {
      HaltConcat(Moved(h, x[0]), x[1..], y);
      assert (x + y)[1..] == x[1..] + y;
    }
  }

  lemma GetsTrans(h: Halt, g: Halt, f: Halt)
    requires Gets(h, g) && Gets(g, f)
    ensures Gets(h, f)
  {
    hide CanHalt, Halted;
    var x :| CanHalt(h, x) && Halted(h, x) == g;
    var y :| CanHalt(g, y) && Halted(g, y) == f;
    HaltConcat(h, x, y);
  }

  lemma GetsKeeps(h: Halt, g: Halt)
    requires HaltOk(h) && Gets(h, g)
    ensures HaltOk(g) && Nearer(h.w, g.w)
  {
    hide CanHalt, Halted, HaltOk, Nearer;
    var x :| CanHalt(h, x) && Halted(h, x) == g;
    HaltKeeps(h, x);
  }

  /** The sessions in the order the hub lists its players. */
  ghost predicate AllSessions(w: World, order: seq<Session>) {
    && (forall s :: s in w.players <==> s in order)
    && (forall i, j :: 0 <= i < j < |order| ==> order[i] != order[j])
  }

  lemma {:induction false} FinalSaveGets(w: World, live: set<Session>, order: seq<Session>)
    requires HaltOk(Halt(w, Saving(live)))
    requires forall s :: s in live <==> s in order
    requires forall i, j :: 0 <= i < j < |order| ==> order[i] != order[j]
    ensures Gets(Halt(w, Saving(live)), Halt(FinalSave(w, order), Saving({})))
    decreases |order|
  {
    hide HaltOk, LeaveFinal, Gets;
    var h := Halt(w, Saving(live));
    if order == [] {
      assert live == {} by { assert forall s :: s !in live; }
      GetsSelf(h);
    } else {
      var s := order[0];
      assert s in w.players by { LiveIn(w, live); }
      assert CanMove(h, Leaves(s));
      MoveKeeps(h, Leaves(s));
      GetsMove(h, Leaves(s));
      assert forall x :: x in order[1..] ==> x in order && x != s;
      assert forall x :: x in order && x != s ==> x in order[1..];
      FinalSaveGets(LeaveFinal(w, s), live - {s}, order[1..]);
      GetsTrans(h, Moved(h, Leaves(s)), Halt(FinalSave(w, order), Saving({})));
    }
  }

  lemma LiveIn(w: World, live: set<Session>)
    requires HaltOk(Halt(w, Saving(live)))
    ensures live <= w.players.Keys
  {
    hide Inv;
  }

  lemma {:induction false} RetryAllGets(w: World, order: seq<Account>)
    ensures Gets(Halt(w, Saving({})), Halt(RetryAll(w, order), Saving({})))
    decreases |order|
  {
    hide SendLeaveRecord, Gets;
    var h := Halt(w, Saving({}));
    if order == [] {
      GetsSelf(h);
    } else {
      var a := order[0];
      var g := Halt(RetryOne(w, a), Saving({}));
      if CanMove(h, Again(a)) { GetsMove(h, Again(a)); } else { GetsSelf(h); }
      RetryAllGets(RetryOne(w, a), order[1..]);
      GetsTrans(h, g, Halt(RetryAll(w, order), Saving({})));
    }
  }

  lemma {:induction false} PairAllGets(w: World, i: nat)
    requires HaltOk(Halt(w, Pairing(i))) && i <= |w.pairs|
    ensures |PairAll(w, i).pairs| == |w.pairs|
    ensures Gets(Halt(w, Pairing(i)), Halt(PairAll(w, i), Pairing(|w.pairs|)))
    decreases |w.pairs| - i
  {
    hide HaltOk, SendPair, Gets, TwoSided, PairAll, Final, LastLinks, Held, SamePast, Nearer;
    var h := Halt(w, Pairing(i));
    PairAllStep(w, i);
    if i < |w.pairs| {
      LateIs(h);
      BothKeeps(w, i);
      MoveKeeps(h, Both);
      GetsMove(h, Both);
      PairAllGets(SendPair(w, i), i + 1);
      GetsTrans(h, Moved(h, Both), Halt(PairAll(w, i), Pairing(|w.pairs|)));
    } else {
      GetsSelf(h);
    }
  }

  lemma PairAllStep(w: World, i: nat)
    ensures i >= |w.pairs| ==> PairAll(w, i) == w
    ensures i < |w.pairs| && TwoSided(w.pairs[i]) && |SendPair(w, i).pairs| == |w.pairs| ==>
              PairAll(w, i) == PairAll(SendPair(w, i), i + 1)
  {
    hide SendPair;
  }

  /** Saving all players in the order of the code, undisturbed, is one of the ways of stopping. */
  lemma SaveAllGets(w: World, sessions: seq<Session>, accounts: seq<Account>)
    requires Inv(w) && AllSessions(w, sessions)
    ensures Gets(Halting(w), Halt(SaveAll(w, sessions, accounts), Pairing(|SaveAll(w, sessions, accounts).pairs|)))
  {
    hide Inv, HaltOk, FinalSave, RetryAll, PairAll, Gets;
    HaltingOk(w);
    var u := FinalSave(w, sessions);
    var v := RetryAll(u, accounts);
    FinalSaveGets(w, w.players.Keys, sessions);
    RetryAllGets(u, accounts);
    GetsTrans(Halting(w), Halt(u, Saving({})), Halt(v, Saving({})));
    GetsMove(Halt(v, Saving({})), Close);
    GetsTrans(Halting(w), Halt(v, Saving({})), Halt(v, Pairing(0)));
    GetsKeeps(Halting(w), Halt(v, Pairing(0)));
    PairAllGets(v, 0);
    GetsTrans(Halting(w), Halt(v, Pairing(0)), Halt(PairAll(v, 0), Pairing(|v.pairs|)));
  }

  lemma {:induction false} HeardGets(w: World, n: nat)
    requires |w.pairs| <= n
    ensures Gets(Halt(w, Pairing(n)), Halt(Heard(w), Pairing(n)))
    decreases |w.replies|
  {
    hide OnSaveReply, Gets, Tail;
    var h := Halt(w, Pairing(n));
    if w.replies == [] {
      GetsSelf(h);
    } else {
      var v := OnSaveReply(Tail(w), w.replies[0]);
      HeardLess(w);
      assert Moved(h, Hear) == Halt(v, Pairing(n));
      GetsMove(h, Hear);
      HeardGets(v, n);
      GetsTrans(h, Halt(v, Pairing(n)), Halt(Heard(w), Pairing(n)));
    }
  }

  lemma HeardLess(w: World)
    requires w.replies != []
    ensures var v := OnSaveReply(Tail(w), w.replies[0]); v.replies == w.replies[1..] && v.pairs == w.pairs
  {
    hide OnSaveReply;
    HeardLeave(Tail(w), w.replies[0]);
  }
}
