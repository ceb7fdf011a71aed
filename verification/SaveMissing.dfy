/** The branch of SendPair for a side that is missing. While the server runs it is never taken; while it stops it is,
    for exactly the links of which one side's player was gone and its own good reply handled before the other side's. */
module SaveMissing {
  import opened Items
  import opened Seqs
  import opened SaveTypes
  import opened SaveSteps
  import opened SaveInvariant
  import opened SaveViews
  import opened SaveKeeps
  import opened SavePairs
  import opened SaveReplies
  import opened SaveRelease
  import opened SaveWorker
  import opened SaveLoads
  import opened SaveRuns
  import opened SaveTheorems
  import opened SaveShutdown
  import opened SaveLastPairs
  import opened SaveHalts

  /** Side `k` of link `i` has been confirmed, and with it its record, while the link waits for the other side. */
  ghost predicate SideGone(w: World, i: nat, k: nat) {
    && i < |w.pairs| && TwoSided(w.pairs[i]) && k < 2
    && var l := w.pairs[i];
       l.inFlight && l.ok && l.sides[k].replied && l.sides[k].session == LEFT && l.sides[k].account !in w.leave
  }

  /** What SendPair asks of the two sides before it queues anything. */
  ghost predicate FindsBoth(w: World, i: nat)
    requires i < |w.pairs| && TwoSided(w.pairs[i])
  {
    SideReady(w, w.pairs[i].sides[0]) && SideReady(Flown(w, w.pairs[i].sides[0]), w.pairs[i].sides[1])
  }

  /** Who is in the hub or has a record. */
  function Present(w: World): set<Account> { w.owner.Keys + w.leave.Keys }

  lemma GoneIsAbsent(w: World, i: nat, k: nat)
    requires Inv(w) && i < |w.pairs| && k < 2
    ensures TwoSided(w.pairs[i])
    ensures w.pairs[i].sides[k].account !in Present(w) <==> SideGone(w, i, k)
  {
    hide Inv, ViewOf, SideOk, ViewOk;
    LinkOkIs(w, i);
    var a := w.pairs[i].sides[k].account;
    if a in w.leave { RecordSeen(w, a); }
    SideAbsent(w, i, k);
  }

  lemma SideAbsent(w: World, i: nat, k: nat)
    requires Inv(w) && i < |w.pairs| && TwoSided(w.pairs[i]) && k < 2
             && SideOk(w.pairs[i], k, ViewOf(w, w.pairs[i].sides[k].account))
    ensures w.pairs[i].sides[k].account !in Present(w) <==> SideGone(w, i, k)
  {
    hide QueuesOk, ViewsOk, LinksOk, TradesOk, Flying, Gather, ReadChar;
  }

  // ----- what is kept while the server stops

  /** The links are still those of `w`, and until replies are heard nobody's record has gone. */
  ghost predicate Follows(w: World, h: Halt) {
    && SameSides(w, h.w)
    && (h.phase.Saving? || h.phase.next < |h.w.pairs| ==> Present(h.w) == Present(w))
  }

  lemma FollowsTrans(w: World, h: Halt, g: Halt)
    requires Follows(w, h) && SameSides(h.w, g.w)
    requires g.phase.Saving? || g.phase.next < |g.w.pairs| ==>
               Present(g.w) == Present(h.w) && (h.phase.Saving? || h.phase.next < |h.w.pairs|)
    ensures Follows(w, g)
  {
    forall i | 0 <= i < |w.pairs| ensures SameAccounts(w.pairs[i], g.w.pairs[i]) {
      assert SameAccounts(w.pairs[i], h.w.pairs[i]) && SameAccounts(h.w.pairs[i], g.w.pairs[i]);
    }
  }

  lemma SamePairs(w: World, v: World)
    requires v.pairs == w.pairs
    ensures SameSides(w, v)
  {
  }

  lemma LastPresent(w: World, s: Session)
    requires s in w.players && w.players[s].account in w.owner
    ensures SameSides(w, LeaveFinal(w, s)) && Present(LeaveFinal(w, s)) == Present(w)
  {
    hide SendLeaveRecord, SameSides, Detach, LastRecord, Emptied;
    var v := Departed(w, s);
    DetachSides(w, v, w.players[s].account);
    if !w.players[s].flight.paired { AgainPresent(v, w.players[s].account); }
  }

  lemma DetachSides(w: World, v: World, a: Account)
    requires v.pairs == w.pairs || v.pairs == Detach(w.pairs, a)
    ensures SameSides(w, v)
    ensures forall u: World :: u.pairs == v.pairs ==> SameSides(w, u)
  {
  }

  lemma AgainPresent(w: World, a: Account)
    requires a in w.leave
    ensures SendLeaveRecord(w, a).pairs == w.pairs && Present(SendLeaveRecord(w, a)) == Present(w)
    ensures SendLeaveRecord(w, a).leave.Keys == w.leave.Keys && SendLeaveRecord(w, a).owner == w.owner
  {
    hide NextNo, SaveFits, LeaveWrite;
  }

  lemma MoveFollows(w: World, h: Halt, m: Move)
    requires HaltOk(h) && CanMove(h, m) && Follows(w, h)
    ensures Follows(w, Moved(h, m))
  {
    hide HaltOk, LeaveFinal, SendLeaveRecord, SendPair, Fetch, Execute, TakeOver, Slip, CanSlip, OnSaveReply, IsNext,
         Tail, SameSides, Present, TwoSided, Follows;
    var g := Moved(h, m);
    match m
    case Leaves(s) => LastOwned(h, s); LastPresent(h.w, s); FollowsTrans(w, h, g);
    case Again(a) => AgainPresent(h.w, a); SamePairs(h.w, g.w); FollowsTrans(w, h, g);
    case Close => SamePairs(h.w, g.w); FollowsTrans(w, h, g);
    case Both => BothPresent(h); FollowsTrans(w, h, g);
    case Exec(k, commit, ok) => ExecPresent(h.w, k, commit, ok); SamePairs(h.w, g.w); FollowsTrans(w, h, g);
    case ReadRow(k) => ReadPresent(h.w, k); SamePairs(h.w, g.w); FollowsTrans(w, h, g);
    case Take(k) => TakePresent(h.w, k); SamePairs(h.w, g.w); FollowsTrans(w, h, g);
    case Turn(i) => TurnPresent(h.w, i); SamePairs(h.w, g.w); FollowsTrans(w, h, g);
    case Hear => HeardLess(h.w); SamePairs(h.w, g.w); FollowsTrans(w, h, g);
  }

  lemma LastOwned(h: Halt, s: Session)
    requires HaltOk(h) && CanMove(h, Leaves(s))
    ensures h.w.players[s].account in h.w.owner
  {
    hide QueuesOk, ViewsOk, LinksOk, TradesOk, Flying;
    assert s in Inner(h.w, h.phase.live).players;
  }

  lemma BothPresent(h: Halt)
    requires HaltOk(h) && CanMove(h, Both)
    ensures var g := Moved(h, Both); SameSides(h.w, g.w) && Present(g.w) == Present(h.w)
  {
    hide Final, LastLinks, SendPair;
    LateIs(h);
    SentHeld(h.w, h.phase.next);
    BothKeeps(h.w, h.phase.next);
    LastParts(h.w, h.phase.next);
    NobodyOwnsLate(SendPair(h.w, h.phase.next));
    NobodyOwnsLate(h.w);
  }

  lemma NobodyOwnsLate(w: World)
    requires Final(w)
    ensures w.owner == map[]
  {
    hide FinalOk, ViewOf, TradeFinal, PlainJobs;
  }

  lemma ExecPresent(w: World, k: nat, commit: bool, ok: bool)
    requires IsNext(w, k)
    ensures k < |w.jobs|
    ensures var v := Execute(w, k, commit, ok); v.pairs == w.pairs && Present(v) == Present(w)
  {
    hide Execute, IsNext;
    NextInRange(w, k);
    ExecuteSame(w, k, commit, ok);
  }

  lemma ReadPresent(w: World, k: nat)
    requires IsNext(w, k) && w.jobs[k].Load?
    ensures var v := Fetch(w, k); v.pairs == w.pairs && Present(v) == Present(w)
  {
  }

  lemma TurnPresent(w: World, i: nat)
    requires CanSlip(w, i)
    ensures var v := Slip(w, i); v.pairs == w.pairs && Present(v) == Present(w)
  {
  }

  lemma TakePresent(w: World, k: nat)
    ensures var v := TakeOver(w, k); v.pairs == w.pairs && Present(v) == Present(w)
  {
    hide TakeOver;
    TookOver(w, k);
  }

  lemma {:induction false} HaltFollows(w: World, h: Halt, moves: seq<Move>)
    requires HaltOk(h) && CanHalt(h, moves) && Follows(w, h)
    ensures Follows(w, Halted(h, moves))
    decreases |moves|
  {
    hide HaltOk, CanMove, Moved, Follows, Nearer;
    if moves != [] {
      MoveFollows(w, h, moves[0]);
      MoveKeeps(h, moves[0]);
      HaltFollows(w, Moved(h, moves[0]), moves[1..]);
    }
  }

  // ----- when a side is missing

  lemma ReadyIffPresent(w: World, i: nat)
    requires Final(w) && LastLinks(w) && Held(w) && i < |w.pairs|
    ensures TwoSided(w.pairs[i])
    ensures FindsBoth(w, i) <==> w.pairs[i].sides[0].account in Present(w) && w.pairs[i].sides[1].account in Present(w)
  {
    hide Final, LastLinks, Flown, Held, SideReady;
    LastParts(w, i);
    var l := w.pairs[i];
    SideRenumbers(w, l.sides[0]);
    SideRenumbers(w, l.sides[1]);
    HeldSide(w, i);
    if SideReady(w, l.sides[0]) {
      RenumberedKeeps(w, l.sides[0].account, true);
      SideRenumbers(Renumbered(w, l.sides[0].account, true), l.sides[1]);
    }
  }

  lemma HeldSide(w: World, i: nat)
    requires Held(w) && i < |w.pairs| && TwoSided(w.pairs[i])
    ensures forall k ::
              0 <= k < 2 && w.pairs[i].sides[k].account in w.leave ==> w.leave[w.pairs[i].sides[k].account].paired
  {
  }

  lemma StartFollows(w: World)
    ensures Follows(w, Halting(w))
  {
  }

  /** While the server stops, a link finds both its sides if and only if none of them was confirmed, record and all,
      before the stop while the link still waited for the other. */
  lemma LinkFindsBoth(w0: World, before: seq<Action>, moves: seq<Move>, i: nat)
    requires Initial(w0) && FreeRun(w0, before) && CanHalt(Halting(Ran(w0, before)), moves)
    requires var h := Halted(Halting(Ran(w0, before)), moves);
             h.phase.Pairing? && h.phase.next < |h.w.pairs| && i < |h.w.pairs|
    ensures var w, v := Ran(w0, before), Halted(Halting(Ran(w0, before)), moves).w;
            && |v.pairs| == |w.pairs| && TwoSided(w.pairs[i]) && TwoSided(v.pairs[i])
            && (FindsBoth(v, i) <==> !SideGone(w, i, 0) && !SideGone(w, i, 1))
  {
    hide Initial, FreeRun, Ran, Inv, CanHalt, Halted, HaltOk, Final, LastLinks, Held, Nearer, SideGone, FindsBoth,
         Present;
    var w, h := Ran(w0, before), Halted(Halting(Ran(w0, before)), moves);
    StopSound(w0, before, moves);
    StartFollows(w);
    HaltFollows(w, Halting(w), moves);
    LateIs(h);
    ReadyIffPresent(h.w, i);
    GoneIsAbsent(w, i, 0);
    GoneIsAbsent(w, i, 1);
    assert SameAccounts(w.pairs[i], h.w.pairs[i]);
  }

  // ----- what becomes of the side that is still there

  /** Nothing is queued for account `b` and what is stored of it is what was. */
  ghost predicate Unwritten(w: World, v: World, b: Account) {
    && WritesFor(v.jobs, b) == [] && DbAt(v, b) == DbAt(w, b) && DbOf(v, b) == DbOf(w, b) && v.table == w.table
  }

  /** A link one side of which is missing, and its other account. */
  ghost predicate Broken(w: World, h: Halt, i: nat, k: nat, b: Account) {
    && i < |h.w.pairs| && k < 2 && TwoSided(h.w.pairs[i])
    && h.w.pairs[i].sides[1 - k].account == b
    && (h.phase.Saving? || h.phase.next < |h.w.pairs| ==> h.w.pairs[i].sides[k].account !in Present(h.w))
    && Unwritten(w, h.w, b)
  }

  lemma OneMoreWrite(w: World, v: World, j: Job, b: Account)
    requires v.jobs == w.jobs + [j] && WritesIn(j, b) == [] && v.db == w.db && v.dbAt == w.dbAt && v.table == w.table
    ensures WritesFor(v.jobs, b) == WritesFor(w.jobs, b) && DbAt(v, b) == DbAt(w, b) && DbOf(v, b) == DbOf(w, b)
  {
    hide Gather, WritesIn;
    GatherSnoc(WriterOf(b), w.jobs, j);
  }

  lemma SameWrites(w: World, v: World, b: Account)
    requires v.jobs == w.jobs && v.db == w.db && v.dbAt == w.dbAt
    ensures WritesFor(v.jobs, b) == WritesFor(w.jobs, b) && DbAt(v, b) == DbAt(w, b) && DbOf(v, b) == DbOf(w, b)
  {
  }

  /** Sending a record queues one write at most, and it is that account's. */
  lemma AgainWrites(w: World, a: Account, b: Account)
    requires a in w.leave && a != b
    ensures var v := SendLeaveRecord(w, a);
            WritesFor(v.jobs, b) == WritesFor(w.jobs, b) && DbAt(v, b) == DbAt(w, b) && DbOf(v, b) == DbOf(w, b)
                && v.table == w.table
  {
    hide NextNo, SaveFits, WritesFor, DbAt, DbOf, Bump;
    var n := NextNo(w.leaveSeq);
    var x := LeaveWrite(a, w.leave[a].(bundleNo := n), None);
    var v := SendLeaveRecord(w, a);
    if SaveFits(w, x) { OneMoreWrite(w, v, Save(x), b); } else { SameWrites(w, v, b); }
  }

  lemma LastWrites(w: World, s: Session, b: Account)
    requires s in w.players && (w.players[s].account == b ==> w.players[s].flight.paired)
    ensures var v := LeaveFinal(w, s);
            WritesFor(v.jobs, b) == WritesFor(w.jobs, b) && DbAt(v, b) == DbAt(w, b) && DbOf(v, b) == DbOf(w, b)
                && v.table == w.table
  {
    hide SendLeaveRecord, WritesFor, DbAt, DbOf, Detach, LastRecord, Emptied;
    var u := Departed(w, s);
    SameWrites(w, u, b);
    if !w.players[s].flight.paired { AgainWrites(u, w.players[s].account, b); }
  }

  /** On a link of which it is not the missing side, the account's player or record is held. */
  lemma OtherIsHeld(h: Halt, i: nat, k: nat)
    requires HaltOk(h) && h.phase.Saving? && i < |h.w.pairs| && k < 2
    ensures TwoSided(h.w.pairs[i])
    ensures var b := h.w.pairs[i].sides[k].account;
            && (forall s ::
                  s in h.phase.live && s in h.w.players && h.w.players[s].account == b ==> h.w.players[s].flight.paired)
            && (b in h.w.leave ==> h.w.leave[b].paired)
  {
    hide Inv, ViewOf, SideOk, ViewOk;
    var u := Inner(h.w, h.phase.live);
    LinkOkIs(u, i);
    var b := u.pairs[i].sides[k].account;
    HeldFrom(u);
    assert b in u.leave ==> u.leave[b].paired;
    forall s | s in h.phase.live && s in h.w.players && h.w.players[s].account == b
        ensures h.w.players[s].flight.paired {
      assert s in u.players && u.players[s] == h.w.players[s];
      OwnerIsLive(u, s);
      LiveSideHeld(u.table, u.pairs[i], k, ViewOf(u, b), b);
    }
  }

  lemma OwnerIsLive(w: World, s: Session)
    requires Inv(w) && s in w.players
    ensures ViewOf(w, w.players[s].account).live == Some(w.players[s])
  {
    hide QueuesOk, ViewsOk, LinksOk, TradesOk, Flying, Gather, ReadChar;
  }

  lemma LiveSideHeld(table: ItemTable, l: PairLink, k: nat, v: View, b: Account)
    requires TwoSided(l) && k < 2 && SideOk(l, k, v) && ViewOk(table, v, b) && v.live.Some?
    ensures v.live.value.flight.paired
  {
    hide HistoryOk, QueueOk, Agree;
  }

  /** A link with a missing side is not sent; any other link writes to other accounts. */
  lemma BothWrites(w: World, i: nat, k: nat, b: Account, j: nat)
    requires Final(w) && LastLinks(w) && Held(w) && i < |w.pairs| && k < 2 && j < |w.pairs| && TwoSided(w.pairs[i])
    requires w.pairs[i].sides[1 - k].account == b && w.pairs[i].sides[k].account !in Present(w)
    ensures TwoSided(w.pairs[j])
    ensures var v := SendPair(w, j);
            WritesFor(v.jobs, b) == WritesFor(w.jobs, b) && DbAt(v, b) == DbAt(w, b) && DbOf(v, b) == DbOf(w, b)
                && v.table == w.table
  {
    hide Final, LastLinks, Held, WritesFor, DbAt, DbOf, SendPair, FindsBoth, Present, SamePast, SameSides;
    LastParts(w, j);
    ReadyIffPresent(w, j);
    SentJobs(w, j);
    BothKeeps(w, j);
    var v, l := SendPair(w, j), w.pairs[j];
    if v.jobs == w.jobs {
      SameWrites(w, v, b);
    } else {
      var x, y := v.jobs[|w.jobs|].first, v.jobs[|w.jobs|].second;
      assert FindsBoth(w, j) && (k == 0 || k == 1);
      OtherAccounts(w, i, j, b, 1 - k);
      OneMoreWrite(w, v, Pair(x, y), b);
    }
  }

  lemma OtherAccounts(w: World, i: nat, j: nat, b: Account, k: nat)
    requires LastLinks(w) && i < |w.pairs| && j < |w.pairs| && i != j && TwoSided(w.pairs[i]) && TwoSided(w.pairs[j])
             && k < 2
    requires w.pairs[i].sides[k].account == b
    ensures w.pairs[j].sides[0].account != b && w.pairs[j].sides[1].account != b
  {
    hide LastLink, ViewOf, DbAt, IsTrade;
    assert Has(w.pairs[i], b) && !Has(w.pairs[j], b);
  }

  /** What sending a link queues. */
  lemma SentJobs(w: World, j: nat)
    requires j < |w.pairs| && TwoSided(w.pairs[j])
    requires w.pairs[j].sides[0].session == LEFT && w.pairs[j].sides[1].session == LEFT
    ensures var v, l := SendPair(w, j), w.pairs[j];
            && v.db == w.db && v.dbAt == w.dbAt && v.table == w.table
            && (v.jobs == w.jobs
                || (&& FindsBoth(w, j) && |v.jobs| > |w.jobs| && v.jobs[|w.jobs|].Pair?
                    && v.jobs == w.jobs + [v.jobs[|w.jobs|]]
                    && v.jobs[|w.jobs|].first.account == l.sides[0].account
                         && v.jobs[|w.jobs|].second.account == l.sides[1].account))
  {
    hide Flown, Dropped, HeadOf, PushPair, PairFits, SideReady, FlownLink;
    var l := w.pairs[j];
    var d0, d1 := l.sides[0], l.sides[1];
    if SideReady(w, d0) {
      SideJobs(w, d0, d1.account);
      var u := Flown(w, d0);
      if SideReady(u, d1) {
        SideJobs(u, d1, d0.account);
        PushedSame(Flown(u, d1), HeadOf(w, d0, d1.account), HeadOf(u, d1, d0.account));
        if SideReady(Dropped(w, d0), d1) { SideJobs(Dropped(w, d0), d1, d0.account); }
      }
    }
  }

  lemma SideJobs(w: World, sd: Side, mate: Account)
    requires SideReady(w, sd) && sd.session == LEFT
    ensures Flown(w, sd).jobs == w.jobs && Flown(w, sd).db == w.db && Flown(w, sd).dbAt == w.dbAt
            && Flown(w, sd).table == w.table
    ensures Dropped(w, sd).jobs == w.jobs && Dropped(w, sd).db == w.db && Dropped(w, sd).dbAt == w.dbAt
            && Dropped(w, sd).table == w.table
    ensures HeadOf(w, sd, mate).account == sd.account
  {
    hide NextNo;
  }

  lemma ExecWrites(w: World, k: nat, commit: bool, ok: bool, b: Account)
    requires PlainJobs(w.jobs) && IsNext(w, k) && WritesFor(w.jobs, b) == []
    ensures k < |w.jobs|
    ensures var v := Execute(w, k, commit, ok);
            WritesFor(v.jobs, b) == [] && DbAt(v, b) == DbAt(w, b) && DbOf(v, b) == DbOf(w, b) && v.table == w.table
  {
    hide Execute, IsNext, DbAt, DbOf, WritesIn, Gather, Without;
    NextInRange(w, k);
    assert PlainJob(w.jobs[k]);
    PairAccounts(w.jobs[k]);
    assert WritesIn(w.jobs[k], b) == [] by {
      if WritesIn(w.jobs[k], b) != [] { GatherHas(WriterOf(b), w.jobs, k, WritesIn(w.jobs[k], b)[0]); }
    }
    ExecuteSame(w, k, commit, ok);
    ExecuteStores(w, k, commit, ok, b);
    OthersKeep(w, k, b);
  }

  lemma HaltPlain(h: Halt)
    requires HaltOk(h)
    ensures PlainJobs(h.w.jobs)
  {
    hide Inv, LastLinks, Held, FinalOk, TradeFinal, ViewOf;
    if h.phase.Saving? { InOrder(Inner(h.w, h.phase.live), 0); }
  }

  lemma MoveUnwritten(w: World, h: Halt, m: Move, i: nat, k: nat, b: Account)
    requires HaltOk(h) && CanMove(h, m) && Broken(w, h, i, k, b)
    ensures Unwritten(w, Moved(h, m).w, b)
  {
    hide HaltOk, LeaveFinal, SendLeaveRecord, SendPair, Fetch, Execute, TakeOver, OnSaveReply, IsNext, Tail, Present,
         WritesFor, DbAt, DbOf, Inner;
    match m
    case Leaves(s) => OtherIsHeld(h, i, 1 - k); LastWrites(h.w, s, b);
    case Again(a) => OtherIsHeld(h, i, 1 - k); AgainWrites(h.w, a, b);
    case Close =>
    case Both => LateIs(h); BothWrites(h.w, i, k, b, h.phase.next);
    case Exec(n, commit, ok) => HaltPlain(h); ExecWrites(h.w, n, commit, ok, b);
    case ReadRow(n) => ReadWrites(h.w, n, b);
    case Take(n) => TookOver(h.w, n); SameWrites(h.w, TakeOver(h.w, n), b);
    case Turn(n) => SameWrites(h.w, Slip(h.w, n), b);
    case Hear => LateIs(h); HearWrites(h.w); SameWrites(h.w, OnSaveReply(Tail(h.w), h.w.replies[0]), b);
  }

  lemma ReadWrites(w: World, k: nat, b: Account)
    requires IsNext(w, k) && w.jobs[k].Load?
    ensures var v := Fetch(w, k);
            WritesFor(v.jobs, b) == WritesFor(w.jobs, b) && DbAt(v, b) == DbAt(w, b) && DbOf(v, b) == DbOf(w, b)
                && v.table == w.table
  {
    hide WritesFor, RowNow;
    FetchSame(w, k);
  }

  lemma HearWrites(w: World)
    requires Final(w) && w.replies != []
    ensures var v := OnSaveReply(Tail(w), w.replies[0]);
            v.jobs == w.jobs && v.db == w.db && v.dbAt == w.dbAt && v.table == w.table
  {
    hide Final, OnSaveReply, Tail, ViewOf;
    HearIs(w);
    TailSame(w);
  }

  lemma {:induction false} HaltUnwritten(w: World, h: Halt, moves: seq<Move>, i: nat, k: nat, b: Account)
    requires HaltOk(h) && CanHalt(h, moves) && Broken(w, h, i, k, b)
    ensures Unwritten(w, Halted(h, moves).w, b)
    decreases |moves|
  {
    hide HaltOk, CanMove, Moved, Follows, Nearer, Present, Unwritten;
    if moves != [] {
      var g := Moved(h, moves[0]);
      MoveUnwritten(w, h, moves[0], i, k, b);
      StartFollowsAt(h);
      MoveFollows(h.w, h, moves[0]);
      MoveKeeps(h, moves[0]);
      PhaseOnward(h, moves[0]);
      StillBroken(w, h, g, i, k, b);
      HaltUnwritten(w, g, moves[1..], i, k, b);
    }
  }

  lemma PhaseOnward(h: Halt, m: Move)
    requires CanMove(h, m)
    ensures h.phase.Pairing? ==> Moved(h, m).phase.Pairing? && h.phase.next <= Moved(h, m).phase.next
  {
    hide LeaveFinal, SendLeaveRecord, SendPair, Fetch, Execute, TakeOver, Slip, CanSlip, OnSaveReply, IsNext, Tail,
         TwoSided;
  }

  lemma StartFollowsAt(h: Halt)
    ensures Follows(h.w, h)
  {
  }

  lemma StillBroken(w: World, h: Halt, g: Halt, i: nat, k: nat, b: Account)
    requires Broken(w, h, i, k, b) && Follows(h.w, g) && Unwritten(w, g.w, b)
    requires h.phase.Pairing? ==> g.phase.Pairing? && h.phase.next <= g.phase.next
    ensures Broken(w, g, i, k, b)
  {
    hide Unwritten, Present;
    assert SameAccounts(h.w.pairs[i], g.w.pairs[i]);
  }

  lemma GoneQueue(w: World, i: nat, k: nat)
    requires Inv(w) && SideGone(w, i, k)
    ensures WritesFor(w.jobs, w.pairs[i].sides[1 - k].account) == []
  {
    hide Inv, ViewOf, ViewOk, Gather;
    TheLink(w, i);
    var l := w.pairs[i];
    RepliedQueue(w.jobs, l, ViewOf(w, l.sides[0].account), ViewOf(w, l.sides[1].account), k);
    ViewParts(w, l.sides[1 - k].account);
  }

  lemma RepliedQueue(jobs: seq<Job>, l: PairLink, v0: View, v1: View, k: nat)
    requires LinkOk(jobs, l, v0, v1) && k < 2 && l.sides[k].replied
    ensures v0.ws == [] && v1.ws == []
  {
    hide AnsweredAlike, Settled;
  }

  /** If one side of a link is missing, nothing more is written to the other account while the server stops: what is
      stored of it at the end is what was stored at the start. If that was not its last state, that state is lost, and
      counted. */
  lemma OtherSideIsLost(w0: World, before: seq<Action>, moves: seq<Move>, i: nat, k: nat)
    requires Initial(w0) && FreeRun(w0, before) && CanHalt(Halting(Ran(w0, before)), moves)
             && SideGone(Ran(w0, before), i, k)
    ensures var w, h := Ran(w0, before), Halted(Halting(Ran(w0, before)), moves);
            var b := w.pairs[i].sides[1 - k].account;
            && b in Present(w)
            && DbAt(h.w, b) == DbAt(w, b) && Stored(h.w, b) == Stored(w, b) && WritesFor(h.w.jobs, b) == []
            && (h.phase.Pairing? && DbAt(w, b) < |HistOf(w, b)| - 1 ==> b in h.w.leave)
  {
    hide Initial, FreeRun, Ran, Inv, CanHalt, Halted, HaltOk, Final, LastLinks, Held, Present, WritesFor, ReadChar;
    var w, h := Ran(w0, before), Halted(Halting(Ran(w0, before)), moves);
    var b := w.pairs[i].sides[1 - k].account;
    StopSound(w0, before, moves);
    GoneIsAbsent(w, i, k);
    GoneIsAbsent(w, i, 1 - k);
    OneSideGone(w, i, k);
    GoneQueue(w, i, k);
    assert Broken(w, Halting(w), i, k, b);
    HaltUnwritten(w, Halting(w), moves, i, k, b);
    if h.phase.Pairing? {
      LateIs(h);
      FinalSafe(w, h.w, b);
    }
  }

  lemma OneSideGone(w: World, i: nat, k: nat)
    requires Inv(w) && SideGone(w, i, k)
    ensures !SideGone(w, i, 1 - k)
  {
    hide Inv, ViewOf, SideOk, AnsweredAlike, Settled;
    TheLink(w, i);
  }
}
