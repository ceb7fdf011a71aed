/** The last round of pairs at shutdown: what holds once every player has left. */
module SaveLastPairs {
  import opened Items
  import opened Seqs
  import opened SaveTypes
  import opened SaveSteps
  import opened SaveInvariant
  import opened SaveViews
  import opened SaveKeeps
  import opened SavePairs
  import opened SaveWorker
  import opened SaveLoads
  import opened SaveRuns
  import opened SaveTheorems
  import opened SaveShutdown

  /** A link both of whose players are gone: whatever is queued for either account is a pair with the other. */
  ghost predicate LastLink(l: PairLink, v0: View, v1: View) {
    && TwoSided(l) && l.sides[0].account != l.sides[1].account
    && l.sides[0].session == LEFT && l.sides[1].session == LEFT
    && l.sides[0].tradeAt < |v0.hist| && l.sides[1].tradeAt < |v1.hist|
    && (forall i :: 0 <= i < |v0.ws| ==> v0.ws[i].mate == Some(l.sides[1].account))
    && (forall i :: 0 <= i < |v1.ws| ==> v1.ws[i].mate == Some(l.sides[0].account))
  }

  ghost predicate LastLinks(w: World) {
    && (forall i :: 0 <= i < |w.pairs| ==>
          && TwoSided(w.pairs[i])
          && LastLink(w.pairs[i], ViewOf(w, w.pairs[i].sides[0].account), ViewOf(w, w.pairs[i].sides[1].account)))
    && (forall i, j, a ::
          0 <= i < |w.pairs| && 0 <= j < |w.pairs| && Has(w.pairs[i], a) && Has(w.pairs[j], a) ==> i == j)
    && (forall k :: 0 <= k < |w.trades| && DbAt(w, w.trades[k].a) < w.trades[k].aAt ==>
          exists i :: 0 <= i < |w.pairs| && IsTrade(w.pairs[i], w.trades[k]))
  }

  // ----- from the invariant of runs

  lemma SameViews(w: World, a: Account)
    requires w.owner == map[]
    ensures ViewOf(w, a) == ViewOf(w.(players := map[]), a)
    ensures ViewOf(w, a).live == None
  {
    hide Gather, ReadChar;
  }

  lemma NobodyOwns(w: World)
    requires Inv(w) && w.players == map[]
    ensures w.owner == map[]
  {
    hide QueuesOk, ViewsOk, LinksOk, TradesOk, Flying;
    assert forall a :: a !in w.owner;
  }

  lemma LinkToLast(jobs: seq<Job>, l: PairLink, v0: View, v1: View)
    requires LinkOk(jobs, l, v0, v1) && v0.live.None? && v1.live.None?
    ensures LastLink(l, v0, v1)
  {
    hide AnsweredAlike, Settled;
  }

  lemma LastLinksFrom(w: World)
    requires Inv(w) && w.players == map[]
    ensures LastLinks(w)
  {
    hide ViewOk, LinkOk, QueuesOk, Flying, Base, ViewOf, Paired, Has, LastLink, IsTrade;
    NobodyOwns(w);
    forall i | 0 <= i < |w.pairs|
      ensures LastLink(w.pairs[i], ViewOf(w, w.pairs[i].sides[0].account), ViewOf(w, w.pairs[i].sides[1].account))
    {
      var l := w.pairs[i];
      SameViews(w, l.sides[0].account);
      SameViews(w, l.sides[1].account);
      LinkToLast(w.jobs, l, ViewOf(w, l.sides[0].account), ViewOf(w, l.sides[1].account));
    }
    forall k | 0 <= k < |w.trades| && DbAt(w, w.trades[k].a) < w.trades[k].aAt
      ensures exists i :: 0 <= i < |w.pairs| && IsTrade(w.pairs[i], w.trades[k])
    {
      assert TradeOk(w, w.trades[k]);
    }
  }

  /** While a trade is not stored, the jobs that write to its accounts are pairs that store it. */
  lemma TradeJobsFrom(w: World, i: nat, t: Trade, k: nat)
    requires Inv(w) && i < |w.pairs| && IsTrade(w.pairs[i], t) && k < |w.jobs|
    ensures TradeJob(w.jobs[k], t)
  {
    hide ViewOk, LinkOk, QueuesOk, Flying, Base, ViewOf, Paired, LinksOk, ViewsOk, TradesOk;
    TheLink(w, i);
    var l, j := w.pairs[i], w.jobs[k];
    LinkTrades(w.jobs, l, ViewOf(w, t.a), ViewOf(w, t.b));
    InOrder(w, t.a);
    assert PlainJob(j);
    if WritesIn(j, t.a) != [] { InQueue(w, k, t.a, WritesIn(j, t.a)[0]); }
    if WritesIn(j, t.b) != [] { InQueue(w, k, t.b, WritesIn(j, t.b)[0]); }
    PairOfTrade(j, t, ViewOf(w, t.a), ViewOf(w, t.b), w, k);
  }

  lemma LinkTrades(jobs: seq<Job>, l: PairLink, v0: View, v1: View)
    requires LinkOk(jobs, l, v0, v1)
    ensures l.sides[0].account != l.sides[1].account
    ensures forall x :: x in v0.ws ==> x.mate == Some(l.sides[1].account) && x.at >= l.sides[0].tradeAt
    ensures forall x :: x in v1.ws ==> x.mate == Some(l.sides[0].account) && x.at >= l.sides[1].tradeAt
  {
    hide AnsweredAlike, Settled;
  }

  lemma PairOfTrade(j: Job, t: Trade, va: View, vb: View, w: World, k: nat)
    requires PlainJob(j) && k < |w.jobs| && w.jobs[k] == j && va == ViewOf(w, t.a) && vb == ViewOf(w, t.b) && t.a != t.b
    requires forall x :: x in va.ws ==> x.mate == Some(t.b) && x.at >= t.aAt
    requires forall x :: x in vb.ws ==> x.mate == Some(t.a) && x.at >= t.bAt
    ensures TradeJob(j, t)
  {
    hide ViewOf;
    forall x | x in WritesIn(j, t.a) ensures x in va.ws { InQueue(w, k, t.a, x); }
    forall x | x in WritesIn(j, t.b) ensures x in vb.ws { InQueue(w, k, t.b, x); }
    match j
    case Pair(x, y) =>
      assert x.account == t.a ==> x in WritesIn(j, t.a) && WritesIn(j, t.a) == [x];
      assert x.account == t.b ==> x in WritesIn(j, t.b) && WritesIn(j, t.b) == [x];
      assert y.account == t.a ==> y in WritesIn(j, t.a) && WritesIn(j, t.a) == [y];
      assert y.account == t.b ==> y in WritesIn(j, t.b) && WritesIn(j, t.b) == [y];
    case Save(x) =>
      assert x.account == t.a ==> x in WritesIn(j, t.a);
      assert x.account == t.b ==> x in WritesIn(j, t.b);
    case Load(_, _, _, _, _) =>
  }

  lemma FinalFrom(w: World)
    requires Inv(w) && w.players == map[]
    ensures Final(w)
  {
    hide ViewOk, LinkOk, QueuesOk, Flying, Base, ViewOf, Paired, FinalOk, LinksOk, ViewsOk, PlainJobs, TradeJob,
         IsTrade, DbAt;
    NobodyOwns(w);
    InOrder(w, 0);
    forall a ensures FinalOk(w.table, ViewOf(w, a), a) {
      TheView(w, a);
      SameViews(w, a);
      FinalFromView(w.table, ViewOf(w, a), a);
    }
    forall k | 0 <= k < |w.trades| ensures TradeFinal(w, w.trades[k]) {
      var t := w.trades[k];
      assert TradeOk(w, t);
      if DbAt(w, t.a) < t.aAt {
        var i :| 0 <= i < |w.pairs| && IsTrade(w.pairs[i], t);
        forall n | 0 <= n < |w.jobs| ensures TradeJob(w.jobs[n], t) { TradeJobsFrom(w, i, t, n); }
      }
    }
  }

  /** Players that have left stay in the hub until the end; nothing looks at them. */
  lemma WithPlayers(w: World)
    requires Inv(w.(players := map[]))
    requires forall s :: s in w.players ==> w.players[s].flight.bundleNo == 0
    ensures Final(w) && LastLinks(w)
  {
    hide Inv, ViewOf, FinalOk, LastLink, IsTrade, Has, PlainJobs, TradeJob, DbAt;
    var u := w.(players := map[]);
    NobodyOwns(u);
    FinalFrom(u);
    LastLinksFrom(u);
    forall a ensures ViewOf(w, a) == ViewOf(u, a) { SameViews(w, a); }
    assert forall a :: DbAt(w, a) == DbAt(u, a) by { SameDb(w, u); }
    forall i | 0 <= i < |w.trades| ensures TradeFinal(w, w.trades[i]) {
      assert TradeFinal(u, u.trades[i]);
      SameTrade(u, w, w.trades[i]);
    }
  }

  lemma SameDb(w: World, u: World)
    requires u.dbAt == w.dbAt
    ensures forall a :: DbAt(w, a) == DbAt(u, a)
  {
  }

  // ----- sending one link once more

  /** The record of a side gets its next number. */
  function Renumbered(w: World, a: Account, f: bool): World
    requires a in w.leave
  {
    var n := NextNo(w.leaveSeq);
    SetRecord(w, a, w.leave[a].(bundleNo := n, inFlight := f), n)
  }

  lemma SideRenumbers(w: World, sd: Side)
    requires sd.session == LEFT
    ensures SideReady(w, sd) <==> sd.account in w.leave && w.leave[sd.account].paired
    ensures SideReady(w, sd) ==> Flown(w, sd) == Renumbered(w, sd.account, true)
    ensures SideReady(w, sd) ==> Dropped(w, sd) == Renumbered(w, sd.account, w.leave[sd.account].inFlight)
  {
    hide NextNo;
  }

  lemma RenumberedSees(w: World, a: Account, f: bool)
    requires w.owner == map[] && a in w.leave
    ensures var v := Renumbered(w, a, f);
            && v == w.(leave := v.leave, leaveSeq := v.leaveSeq) && v.leave.Keys == w.leave.Keys
            && (forall b :: b in w.leave ==> v.leave[b].paired == w.leave[b].paired)
            && ViewOf(w, a).rec == Some(w.leave[a])
            && ViewOf(v, a) == ViewOf(w, a).(rec := Some(w.leave[a].(bundleNo := NextNo(w.leaveSeq), inFlight := f)))
            && forall b :: b != a ==> ViewOf(v, b) == ViewOf(w, b)
  {
    hide Gather, ReadChar, NextNo;
  }

  lemma RenumberedFinal(w: World, a: Account, f: bool)
    requires Final(w) && LastLinks(w) && a in w.leave
    ensures Final(Renumbered(w, a, f)) && LastLinks(Renumbered(w, a, f))
  {
    hide ViewOf, FinalOk, LastLink, IsTrade, Has, PlainJobs, TradeJob, DbAt, Renumbered;
    var v := Renumbered(w, a, f);
    RenumberedSees(w, a, f);
    assert FinalOk(w.table, ViewOf(w, a), a);
    FinalRenumbered(w.table, ViewOf(w, a), ViewOf(v, a), a);
    SameDb(w, v);
    forall i | 0 <= i < |v.trades| ensures TradeFinal(v, v.trades[i]) {
      assert TradeFinal(w, w.trades[i]);
      SameTrade(w, v, w.trades[i]);
    }
    forall i | 0 <= i < |v.pairs|
      ensures LastLink(v.pairs[i], ViewOf(v, v.pairs[i].sides[0].account), ViewOf(v, v.pairs[i].sides[1].account))
    {
      var b, c := w.pairs[i].sides[0].account, w.pairs[i].sides[1].account;
      LastSame(w.pairs[i], ViewOf(w, b), ViewOf(w, c), ViewOf(v, b), ViewOf(v, c));
    }
  }

  lemma LastSame(l: PairLink, v0: View, v1: View, u0: View, u1: View)
    requires LastLink(l, v0, v1) && u0.ws == v0.ws && u1.ws == v1.ws && |u0.hist| >= |v0.hist| && |u1.hist| >= |v1.hist|
    ensures LastLink(l, u0, u1)
  {
  }

  /** Changing a link's progress changes nothing a final state looks at. */
  lemma LinkProgress(w: World, i: nat, m: PairLink)
    requires Final(w) && LastLinks(w) && i < |w.pairs| && TwoSided(m)
    requires m.sides[0].account == w.pairs[i].sides[0].account && m.sides[1].account == w.pairs[i].sides[1].account
    requires m.sides[0].session == LEFT && m.sides[1].session == LEFT
    requires m.sides[0].tradeAt == w.pairs[i].sides[0].tradeAt && m.sides[1].tradeAt == w.pairs[i].sides[1].tradeAt
    ensures Final(w.(pairs := w.pairs[i := m])) && LastLinks(w.(pairs := w.pairs[i := m]))
  {
    hide ViewOf, FinalOk, Has, PlainJobs, TradeJob, DbAt, LastLink, IsTrade;
    var v := w.(pairs := w.pairs[i := m]);
    PairsSeen(w, w.pairs[i := m]);
    SameDb(w, v);
    forall k | 0 <= k < |v.trades| ensures TradeFinal(v, v.trades[k]) {
      assert TradeFinal(w, w.trades[k]);
      SameTrade(w, v, w.trades[k]);
    }
    forall k | 0 <= k < |v.pairs|
      ensures TwoSided(v.pairs[k])
      ensures LastLink(v.pairs[k], ViewOf(v, v.pairs[k].sides[0].account), ViewOf(v, v.pairs[k].sides[1].account))
    {
      if k == i { LastProgress(w.pairs[i], m, ViewOf(w, m.sides[0].account), ViewOf(w, m.sides[1].account)); }
    }
    forall a, b, c | 0 <= a < |v.pairs| && 0 <= b < |v.pairs| && Has(v.pairs[a], c) && Has(v.pairs[b], c)
        ensures a == b {
      SameHas(w.pairs[i], m, c);
      assert Has(w.pairs[a], c) && Has(w.pairs[b], c);
    }
    forall k | 0 <= k < |v.trades| && DbAt(v, v.trades[k].a) < v.trades[k].aAt
      ensures exists n :: 0 <= n < |v.pairs| && IsTrade(v.pairs[n], v.trades[k])
    {
      var n :| 0 <= n < |w.pairs| && IsTrade(w.pairs[n], w.trades[k]);
      ProgressTrade(w.pairs[i], m, w.trades[k]);
      assert IsTrade(v.pairs[n], v.trades[k]);
    }
  }

  lemma LastProgress(l: PairLink, m: PairLink, v0: View, v1: View)
    requires LastLink(l, v0, v1) && TwoSided(m)
    requires m.sides[0].account == l.sides[0].account && m.sides[1].account == l.sides[1].account
    requires m.sides[0].session == LEFT && m.sides[1].session == LEFT
    requires m.sides[0].tradeAt == l.sides[0].tradeAt && m.sides[1].tradeAt == l.sides[1].tradeAt
    ensures LastLink(m, v0, v1)
  {
  }

  lemma ProgressTrade(l: PairLink, m: PairLink, t: Trade)
    requires TwoSided(l) && TwoSided(m)
    requires m.sides[0].account == l.sides[0].account && m.sides[1].account == l.sides[1].account
    requires m.sides[0].tradeAt == l.sides[0].tradeAt && m.sides[1].tradeAt == l.sides[1].tradeAt
    ensures IsTrade(l, t) ==> IsTrade(m, t)
  {
  }

  lemma PairsSeen(w: World, ps: seq<PairLink>)
    ensures forall a :: ViewOf(w.(pairs := ps), a) == ViewOf(w, a)
  {
    hide Gather, ReadChar;
  }

  /** Two records' final states, queued together as one more pair. */
  lemma PushLast(w: World, i: nat, x: Write, y: Write)
    requires Final(w) && LastLinks(w) && i < |w.pairs|
    requires LastHead(w, w.pairs[i].sides[0].account, w.pairs[i].sides[1].account, x)
    requires LastHead(w, w.pairs[i].sides[1].account, w.pairs[i].sides[0].account, y)
    ensures Final(PushPair(w, x, y)) && LastLinks(PushPair(w, x, y))
  {
    hide ViewOf, FinalOk, Has, DbAt, LastLink, IsTrade, PushPair, TradeFinal, PlainJob;
    var v, l := PushPair(w, x, y), w.pairs[i];
    var a, b := l.sides[0].account, l.sides[1].account;
    LastAccounts(l, ViewOf(w, a), ViewOf(w, b));
    HeadRecord(w, a, b, x);
    HeadRecord(w, b, a, y);
    PushPairViews(w, x, y);
    PushedSame(w, x, y);
    FinalAttempt(w.table, ViewOf(w, a), a, x);
    FinalAttempt(w.table, ViewOf(w, b), b, y);
    assert PlainJob(Pair(x, y)) by { PlainPair(x, y); }
    SameDb(w, v);
    forall k | 0 <= k < |v.trades| ensures TradeFinal(v, v.trades[k]) { PushLastTrade(w, i, x, y, k); }
    assert forall k :: 0 <= k < |v.jobs| ==> PlainJob(v.jobs[k]) by {
      assert forall k :: 0 <= k < |w.jobs| ==> PlainJob(w.jobs[k]);
    }
    assert Final(v);
    forall k | 0 <= k < |v.pairs|
      ensures LastLink(v.pairs[k], ViewOf(v, v.pairs[k].sides[0].account), ViewOf(v, v.pairs[k].sides[1].account))
    {
      PushLastLink(w, i, x, y, k);
    }
  }

  lemma PlainPair(x: Write, y: Write)
    requires x.account != y.account && x.mate == Some(y.account) && y.mate == Some(x.account)
    ensures PlainJob(Pair(x, y))
  {
  }

  lemma PushedSame(w: World, x: Write, y: Write)
    ensures var v := PushPair(w, x, y);
            v == w.(jobs := w.jobs + [Pair(x, y)], bundles := v.bundles, issued := v.issued)
  {
  }

  /** A head that carries the held record of `a`. */
  ghost predicate LastHead(w: World, a: Account, mate: Account, x: Write) {
    && a in w.leave
    && x.account == a && x.mate == Some(mate) && x.bundleNo != 0
    && x.row == w.leave[a].row && x.rows == w.leave[a].rows && x.at == w.leave[a].at
  }

  lemma LastAccounts(l: PairLink, v0: View, v1: View)
    requires LastLink(l, v0, v1)
    ensures l.sides[0].account != l.sides[1].account
    ensures forall i :: 0 <= i < |v0.ws| ==> v0.ws[i].mate == Some(l.sides[1].account)
    ensures forall i :: 0 <= i < |v1.ws| ==> v1.ws[i].mate == Some(l.sides[0].account)
    ensures l.sides[0].tradeAt < |v0.hist| && l.sides[1].tradeAt < |v1.hist|
  {
  }

  lemma HeadRecord(w: World, a: Account, mate: Account, x: Write)
    requires Final(w) && LastHead(w, a, mate, x)
    ensures ViewOf(w, a).rec == Some(w.leave[a]) && FinalOk(w.table, ViewOf(w, a), a)
    ensures x.at == |ViewOf(w, a).hist| - 1
  {
    hide Gather, ReadChar, HistoryOk, QueueOk, Agree, RowsOk, PlainJobs, TradeFinal;
    assert FinalOk(w.table, ViewOf(w, a), a);
  }

  lemma PushLastLink(w: World, i: nat, x: Write, y: Write, k: nat)
    requires Final(w) && LastLinks(w) && i < |w.pairs| && k < |w.pairs|
    requires LastHead(w, w.pairs[i].sides[0].account, w.pairs[i].sides[1].account, x)
    requires LastHead(w, w.pairs[i].sides[1].account, w.pairs[i].sides[0].account, y)
    ensures var v := PushPair(w, x, y);
            LastLink(w.pairs[k], ViewOf(v, w.pairs[k].sides[0].account), ViewOf(v, w.pairs[k].sides[1].account))
  {
    hide ViewOf, FinalOk, Has, DbAt, IsTrade, PushPair, TradeFinal, PlainJob, PlainJobs, LastLink;
    var l, m := w.pairs[i], w.pairs[k];
    var a, b := l.sides[0].account, l.sides[1].account;
    LastAccounts(l, ViewOf(w, a), ViewOf(w, b));
    PushPairViews(w, x, y);
    if k == i {
      LastMore(l, ViewOf(w, a), ViewOf(w, b), x, y);
    } else {
      SameHas(l, l, a);
      SameHas(m, m, a);
      assert Has(l, a) && Has(l, b) && Has(m, m.sides[0].account) && Has(m, m.sides[1].account);
      assert !Has(m, a) && !Has(m, b);
    }
  }

  lemma LastMore(l: PairLink, v0: View, v1: View, x: Write, y: Write)
    requires LastLink(l, v0, v1) && x.mate == Some(l.sides[1].account) && y.mate == Some(l.sides[0].account)
    ensures LastLink(l, v0.(ws := v0.ws + [x]), v1.(ws := v1.ws + [y]))
  {
  }

  lemma PushLastTrade(w: World, i: nat, x: Write, y: Write, k: nat)
    requires Final(w) && LastLinks(w) && i < |w.pairs| && k < |w.trades|
    requires LastHead(w, w.pairs[i].sides[0].account, w.pairs[i].sides[1].account, x)
    requires LastHead(w, w.pairs[i].sides[1].account, w.pairs[i].sides[0].account, y)
    ensures TradeFinal(PushPair(w, x, y), w.trades[k])
  {
    hide ViewOf, FinalOk, Has, DbAt, LastLink, PushPair, PlainJobs, TradeJob;
    var v, t := PushPair(w, x, y), w.trades[k];
    PushedSame(w, x, y);
    SameDb(w, v);
    assert TradeFinal(w, t);
    if DbAt(w, t.a) < t.aAt {
      var n :| 0 <= n < |w.pairs| && IsTrade(w.pairs[n], t);
      assert TradeJob(Pair(x, y), t) by { LastPairTrade(w, i, n, x, y, t); }
      forall m | 0 <= m < |v.jobs| ensures TradeJob(v.jobs[m], t) {
        if m < |w.jobs| { assert TradeJob(w.jobs[m], t); }
      }
    }
  }

  lemma LastPairTrade(w: World, i: nat, n: nat, x: Write, y: Write, t: Trade)
    requires Final(w) && LastLinks(w) && i < |w.pairs| && n < |w.pairs| && IsTrade(w.pairs[n], t)
    requires LastHead(w, w.pairs[i].sides[0].account, w.pairs[i].sides[1].account, x)
    requires LastHead(w, w.pairs[i].sides[1].account, w.pairs[i].sides[0].account, y)
    ensures TradeJob(Pair(x, y), t)
  {
    hide ViewOf, FinalOk, Has, DbAt, LastLink, PlainJobs, TradeFinal;
    var l := w.pairs[i];
    var a, b := l.sides[0].account, l.sides[1].account;
    LastAccounts(l, ViewOf(w, a), ViewOf(w, b));
    HeadRecord(w, a, b, x);
    HeadRecord(w, b, a, y);
    SameHas(l, l, a);
    TradeHas(w.pairs[n], t);
    if n == i {
      assert WritesIn(Pair(x, y), t.a) == [x] && WritesIn(Pair(x, y), t.b) == [y];
    } else {
      assert !Has(l, t.a) && !Has(l, t.b);
      assert WritesIn(Pair(x, y), t.a) == [] && WritesIn(Pair(x, y), t.b) == [];
    }
  }

  // ----- SendPair, whatever the link's state

  lemma SendLastKeeps(w: World, i: nat)
    requires Final(w) && LastLinks(w) && i < |w.pairs|
    ensures TwoSided(w.pairs[i]) && Final(SendPair(w, i)) && LastLinks(SendPair(w, i))
    ensures |SendPair(w, i).pairs| == |w.pairs| && SendPair(w, i).players == w.players
  {
    hide Final, LastLinks, Flown, Dropped, HeadOf, PushPair, FlownLink, PairFits, SideReady, Renumbered, ViewOf,
         LastLink;
    LastParts(w, i);
    var l := w.pairs[i];
    var d0, d1 := l.sides[0], l.sides[1];
    var a, b := d0.account, d1.account;
    SideRenumbers(w, d0);
    if SideReady(w, d0) {
      var f := w.leave[a].inFlight;
      var u, z := Renumbered(w, a, true), Renumbered(w, a, f);
      RenumberedFinal(w, a, true);
      RenumberedFinal(w, a, f);
      RenumberedKeeps(w, a, true);
      RenumberedKeeps(w, a, f);
      SideRenumbers(u, d1);
      SideRenumbers(z, d1);
      if SideReady(u, d1) {
        RenumberedFinal(u, b, true);
        RenumberedFinal(z, b, z.leave[b].inFlight);
        RenumberedKeeps(u, b, true);
        RenumberedKeeps(z, b, z.leave[b].inFlight);
        SendLastFits(w, i);
        SendLastRefused(w, i);
      }
    }
  }

  lemma LastParts(w: World, i: nat)
    requires Final(w) && LastLinks(w) && i < |w.pairs|
    ensures TwoSided(w.pairs[i]) && w.owner == map[]
    ensures w.pairs[i].sides[0].session == LEFT && w.pairs[i].sides[1].session == LEFT
    ensures w.pairs[i].sides[0].account != w.pairs[i].sides[1].account
  {
    hide ViewOf, FinalOk, Has, DbAt, IsTrade, PlainJobs, TradeFinal;
  }

  lemma RenumberedKeeps(w: World, a: Account, f: bool)
    requires a in w.leave
    ensures Renumbered(w, a, f).pairs == w.pairs && Renumbered(w, a, f).players == w.players
    ensures Renumbered(w, a, f).leave.Keys == w.leave.Keys
    ensures forall b :: b in w.leave ==> Renumbered(w, a, f).leave[b].paired == w.leave[b].paired
  {
    hide NextNo;
  }

  lemma SendLastFits(w: World, i: nat)
    requires Final(w) && LastLinks(w) && i < |w.pairs| && TwoSided(w.pairs[i])
    requires w.pairs[i].sides[0].session == LEFT && w.pairs[i].sides[1].session == LEFT
    requires SideReady(w, w.pairs[i].sides[0]) && SideReady(Flown(w, w.pairs[i].sides[0]), w.pairs[i].sides[1])
    ensures var d0, d1 := w.pairs[i].sides[0], w.pairs[i].sides[1];
            var x, y := HeadOf(w, d0, d1.account), HeadOf(Flown(w, d0), d1, d0.account);
            var v := PushPair(Flown(Flown(w, d0), d1), x,
                              y).(pairs := w.pairs[i := FlownLink(w.pairs[i], x.bundleNo, y.bundleNo)]);
            && Final(v) && LastLinks(v) && |v.pairs| == |w.pairs| && v.players == w.players
  {
    hide Final, LastLinks, Flown, Dropped, HeadOf, PushPair, FlownLink, SideReady, Renumbered, LastHead;
    var l := w.pairs[i];
    var d0, d1 := l.sides[0], l.sides[1];
    var a, b := d0.account, d1.account;
    LastParts(w, i);
    SideRenumbers(w, d0);
    var u := Renumbered(w, a, true);
    RenumberedFinal(w, a, true);
    RenumberedKeeps(w, a, true);
    SideRenumbers(u, d1);
    var z := Renumbered(u, b, true);
    RenumberedFinal(u, b, true);
    RenumberedKeeps(u, b, true);
    var x, y := HeadOf(w, d0, d1.account), HeadOf(u, d1, d0.account);
    LastHeads(w, d0, d1);
    PushLast(z, i, x, y);
    PushedSame(z, x, y);
    FlownTradeMore(l, x.bundleNo, y.bundleNo);
    LinkProgress(PushPair(z, x, y), i, FlownLink(l, x.bundleNo, y.bundleNo));
  }

  lemma FlownTradeMore(l: PairLink, n0: nat, n1: nat)
    requires TwoSided(l)
    ensures var m := FlownLink(l, n0, n1);
            && TwoSided(m)
            && m.sides[0].account == l.sides[0].account && m.sides[1].account == l.sides[1].account
            && m.sides[0].session == l.sides[0].session && m.sides[1].session == l.sides[1].session
            && m.sides[0].tradeAt == l.sides[0].tradeAt && m.sides[1].tradeAt == l.sides[1].tradeAt
  {
  }

  lemma LastHeads(w: World, d0: Side, d1: Side)
    requires d0.session == LEFT && d1.session == LEFT && d0.account != d1.account
    requires SideReady(w, d0) && SideReady(Flown(w, d0), d1)
    requires d0.account in w.leave && d1.account in Renumbered(w, d0.account, true).leave
    requires Flown(w, d0) == Renumbered(w, d0.account, true)
    ensures var u := Renumbered(w, d0.account, true);
            var z := Renumbered(u, d1.account, true);
            && LastHead(z, d0.account, d1.account, HeadOf(w, d0, d1.account))
            && LastHead(z, d1.account, d0.account, HeadOf(u, d1, d0.account))
  {
    hide Flown;
  }

  lemma SendLastRefused(w: World, i: nat)
    requires Final(w) && LastLinks(w) && i < |w.pairs| && TwoSided(w.pairs[i])
    requires w.pairs[i].sides[0].session == LEFT && w.pairs[i].sides[1].session == LEFT
    requires SideReady(w, w.pairs[i].sides[0]) && SideReady(Dropped(w, w.pairs[i].sides[0]), w.pairs[i].sides[1])
    ensures var d0, d1 := w.pairs[i].sides[0], w.pairs[i].sides[1];
            var v := Dropped(Dropped(w, d0), d1).(pairs := w.pairs[i := w.pairs[i].(inFlight := false)]);
            && Final(v) && LastLinks(v) && |v.pairs| == |w.pairs| && v.players == w.players
  {
    hide Final, LastLinks, Flown, Dropped, SideReady, Renumbered;
    var l := w.pairs[i];
    var d0, d1 := l.sides[0], l.sides[1];
    LastParts(w, i);
    SideRenumbers(w, d0);
    var u := Renumbered(w, d0.account, w.leave[d0.account].inFlight);
    RenumberedFinal(w, d0.account, w.leave[d0.account].inFlight);
    RenumberedKeeps(w, d0.account, w.leave[d0.account].inFlight);
    SideRenumbers(u, d1);
    RenumberedFinal(u, d1.account, u.leave[d1.account].inFlight);
    RenumberedKeeps(u, d1.account, u.leave[d1.account].inFlight);
    LinkProgress(Renumbered(u, d1.account, u.leave[d1.account].inFlight), i, l.(inFlight := false));
  }
}
