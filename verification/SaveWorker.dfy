/** A worker executing its next job, and the bookkeeping steps around the queues, keep the invariant. */
module SaveWorker {
  import opened Items
  import opened Seqs
  import opened SaveTypes
  import opened SaveSteps
  import opened SaveInvariant
  import opened SaveViews
  import opened SaveKeeps

  // ----- a worker's next job is the first of its account

  /** What of a job decides its worker: a single bundle has no mate, and the heads of a pair name each other. */
  ghost predicate PlainJob(j: Job) {
    match j
    case Save(x) => x.mate == None
    case Pair(x, y) => x.account != y.account && x.mate == Some(y.account) && y.mate == Some(x.account)
    case Load(_, _, _, _, _) => true
  }

  ghost predicate PlainJobs(jobs: seq<Job>) { forall i :: 0 <= i < |jobs| ==> PlainJob(jobs[i]) }

  lemma InOrder(w: World, a: Account)
    requires Inv(w)
    ensures PlainJobs(w.jobs) && HistoryOk(w.table, ViewOf(w, a)) && QueueOk(ViewOf(w, a), a)
  {
    hide LinkOk, Flying, TradesOk, Base, LinksOk, ViewsOk, ViewOf, HistoryOk, QueueOk, LiveOk, RecordOk, Paired, Linked;
    TheView(w, a);
    forall i | 0 <= i < |w.jobs| ensures PlainJob(w.jobs[i]) { assert JobOk(w, w.jobs[i]); }
  }

  lemma QueueMates(v: View, a: Account, x: Write, y: Write)
    requires QueueOk(v, a) && x in v.ws && y in v.ws
    ensures x.mate == y.mate
  {
    hide WriteOk, Agree;
    var i :| 0 <= i < |v.ws| && v.ws[i] == x;
    var j :| 0 <= j < |v.ws| && v.ws[j] == y;
    if i < j { assert v.ws[i].mate == v.ws[j].mate; }
    if j < i { assert v.ws[j].mate == v.ws[i].mate; }
  }

  /** Jobs writing to the same account with the same mate go to the same worker. */
  lemma SameRoute(w: World, i: Job, j: Job, a: Account, x: Write, y: Write)
    requires PlainJob(i) && PlainJob(j) && x in WritesIn(i, a) && y in WritesIn(j, a) && x.mate == y.mate
    ensures RouteOf(w, i) == RouteOf(w, j)
  {
    hide Route;
  }

  lemma FirstInQueue(w: World, k: nat, a: Account, x: Write)
    requires PlainJobs(w.jobs) && QueueOk(ViewOf(w, a), a) && IsNext(w, k) && x in WritesIn(w.jobs[k], a)
    ensures WritesFor(w.jobs[..k], a) == []
    ensures WritesFor(w.jobs, a) == WritesIn(w.jobs[k], a) + WritesFor(Without(w.jobs, k), a)
  {
    hide Gather, PlainJob, RouteOf, WritesIn, ViewOf, Without, QueueOk;
    forall i | 0 <= i < k ensures WritesIn(w.jobs[i], a) == [] {
      if WritesIn(w.jobs[i], a) != [] {
        var y := WritesIn(w.jobs[i], a)[0];
        InQueue(w, i, a, y);
        InQueue(w, k, a, x);
        QueueMates(ViewOf(w, a), a, x, y);
        SameRoute(w, w.jobs[i], w.jobs[k], a, y, x);
        assert false;
      }
    }
    GatherNothing(WriterOf(a), w.jobs[..k]);
    GatherWithout(WriterOf(a), w.jobs, k);
  }

  lemma InQueue(w: World, i: nat, a: Account, y: Write)
    requires i < |w.jobs| && y in WritesIn(w.jobs[i], a)
    ensures y in ViewOf(w, a).ws
  {
    hide Gather, WritesIn, ReadChar;
    GatherHas(WriterOf(a), w.jobs, i, y);
  }

  lemma OthersKeep(w: World, k: nat, b: Account)
    requires k < |w.jobs| && WritesIn(w.jobs[k], b) == []
    ensures WritesFor(Without(w.jobs, k), b) == WritesFor(w.jobs, b)
  {
    hide Gather, Without;
    GatherWithout(WriterOf(b), w.jobs, k);
  }

  // ----- what executing a job does to the state

  lemma CommitSame(w: World, x: Write)
    ensures CommitOne(w, x) == w.(db := CommitOne(w, x).db, dbAt := CommitOne(w, x).dbAt)
    ensures forall b :: DbAt(CommitOne(w, x), b) == if b == x.account then x.at else DbAt(w, b)
    ensures forall b :: DbOf(CommitOne(w, x), b) == if b == x.account then Upsert(DbOf(w, b), x) else DbOf(w, b)
  {
    hide Upsert;
  }

  lemma StoreSame(w: World, j: Job)
    ensures StoreJob(w, j) == w.(db := StoreJob(w, j).db, dbAt := StoreJob(w, j).dbAt)
  {
    hide CommitOne;
    match j
    case Save(x) => CommitSame(w, x);
    case Pair(x, y) => CommitSame(w, x); CommitSame(CommitOne(w, x), y);
    case Load(_, _, _, _, _) =>
  }

  /** What a committed job stores: the rows of its write to `b`, if it has one. */
  lemma StoreStores(w: World, j: Job, b: Account)
    requires j.Pair? ==> j.first.account != j.second.account
    ensures WritesIn(j, b) == [] ==> DbAt(StoreJob(w, j), b) == DbAt(w, b) && DbOf(StoreJob(w, j), b) == DbOf(w, b)
    ensures |WritesIn(j, b)| <= 1
    ensures |WritesIn(j, b)| == 1 ==>
              && DbAt(StoreJob(w, j), b) == WritesIn(j, b)[0].at
              && DbOf(StoreJob(w, j), b) == Upsert(DbOf(w, b), WritesIn(j, b)[0])
  {
    hide CommitOne, Upsert, DbAt, DbOf;
    match j
    case Save(x) => CommitSame(w, x);
    case Pair(x, y) => CommitSame(w, x); CommitSame(CommitOne(w, x), y);
    case Load(_, _, _, _, _) =>
  }

  lemma ExecuteSame(w: World, k: nat, commit: bool, ok: bool)
    requires k < |w.jobs|
    ensures var v := Execute(w, k, commit, ok);
            v == w.(db := v.db, dbAt := v.dbAt, jobs := Without(w.jobs, k),
                    replies := w.replies + Answers(w.jobs[k], commit, ok), loads := v.loads)
  {
    hide Without, Answers, Reads, StoreJob;
    StoreSame(w, w.jobs[k]);
  }

  lemma ExecuteStores(w: World, k: nat, commit: bool, ok: bool, b: Account)
    requires k < |w.jobs|
    requires w.jobs[k].Pair? ==> w.jobs[k].first.account != w.jobs[k].second.account
    ensures var v := Execute(w, k, commit, ok);
            && (!commit || WritesIn(w.jobs[k], b) == [] ==> DbAt(v, b) == DbAt(w, b) && DbOf(v, b) == DbOf(w, b))
            && (forall x ::
                  commit && WritesIn(w.jobs[k], b) == [x] ==> DbAt(v, b) == x.at && DbOf(v, b) == Upsert(DbOf(w, b), x))
  {
    hide Without, Answers, Reads, StoreJob, WritesIn, Upsert;
    StoreStores(w, w.jobs[k], b);
  }

  lemma ExecuteFrame(w: World, k: nat, commit: bool, ok: bool)
    requires Frame(w) && k < |w.jobs|
    ensures Frame(Execute(w, k, commit, ok))
  {
    var v := Execute(w, k, commit, ok);
    ExecuteSame(w, k, commit, ok);
    assert Flying(v) == Flying(w);
    hide Flying, Execute, Without;
    assert JobOk(w, w.jobs[k]);
    forall i | 0 <= i < |v.jobs| ensures JobOk(v, v.jobs[i]) {
      WithoutIn(w.jobs, k, v.jobs[i]);
      var m :| 0 <= m < |w.jobs| && w.jobs[m] == v.jobs[i];
      assert JobOk(w, w.jobs[m]);
    }
    forall i | 0 <= i < |v.replies| ensures SessionOk(v, v.replies[i].session, v.replies[i].account) {
      if i < |w.replies| { assert SessionOk(w, w.replies[i].session, w.replies[i].account); }
    }
  }

  lemma WithoutIn<T>(xs: seq<T>, k: nat, e: T)
    requires k < |xs|
    ensures e in Without(xs, k) ==> e in xs
  {
  }

  lemma RepliesAppended(x: seq<Reply>, r: Reply, a: Account)
    ensures RepliesFor(x + [r], a) == RepliesFor(x, a) + (if r.account == a then [r] else [])
  {
    hide Gather;
    GatherSnoc(ReplierOf(a), x, r);
  }

  lemma RepliesAppended2(x: seq<Reply>, r: Reply, q: Reply, a: Account)
    requires r.account != q.account
    ensures RepliesFor(x + [r, q], a) == RepliesFor(x, a)
            + (if r.account == a then [r] else if q.account == a then [q] else [])
  {
    hide RepliesFor;
    RepliesAppended(x, r, a);
    RepliesAppended(x + [r], q, a);
    assert x + [r] + [q] == x + [r, q];
  }

  /** The account whose write is executed: its first write is answered and, if committed, is what is stored. */
  lemma ExecutedAccount(w: World, k: nat, commit: bool, ok: bool, a: Account, x: Write)
    requires PlainJobs(w.jobs) && HistoryOk(w.table, ViewOf(w, a)) && QueueOk(ViewOf(w, a), a)
    requires IsNext(w, k) && WritesIn(w.jobs[k], a) == [x]
    requires ok ==> commit
    ensures ViewOf(w, a).ws != [] && ViewOf(w, a).ws[0] == x && x.at < |ViewOf(w, a).hist|
    ensures var now := Stored(Execute(w, k, commit, ok), a);
            && ViewOf(Execute(w, k, commit, ok), a) == AfterWrite(ViewOf(w, a), commit, ok, now)
            && Becomes(ViewOf(w, a), commit, now)
    ensures DbAt(w, a) <= x.at
    ensures DbAt(Execute(w, k, commit, ok), a) == if commit then x.at else DbAt(w, a)
  {
    hide Execute, HistoryOk, QueueOk, RouteOf, Gather, Without, ReadChar, Upsert, Answers, RepliesFor;
    var v := Execute(w, k, commit, ok);
    assert PlainJob(w.jobs[k]);
    FirstInQueue(w, k, a, x);
    assert ViewOf(w, a).ws[0] == x;
    FirstWriteOk(ViewOf(w, a), a);
    FirstIsStored(w.table, ViewOf(w, a), a, DbOf(w, a));
    ExecuteSame(w, k, commit, ok);
    ExecuteStores(w, k, commit, ok, a);
    assert x.account == a;
    AnsweredTo(w.replies, w.jobs[k], commit, ok, a);
    assert ViewOf(v, a).ws == ViewOf(w, a).ws[1..];
  }

  lemma AnsweredTo(replies: seq<Reply>, j: Job, commit: bool, ok: bool, a: Account)
    requires j.Pair? ==> j.first.account != j.second.account
    ensures forall x ::
              WritesIn(j, a) == [x] ==>
                RepliesFor(replies + Answers(j, commit, ok), a) == RepliesFor(replies, a) + [ReplyTo(x, commit, ok)]
    ensures WritesIn(j, a) == [] ==> RepliesFor(replies + Answers(j, commit, ok), a) == RepliesFor(replies, a)
  {
    hide RepliesFor;
    match j
    case Save(y) => RepliesAppended(replies, ReplyTo(y, commit, ok), a);
    case Pair(y, z) =>
      RepliesAppended2(replies, ReplyTo(y, commit, ok), ReplyTo(z, commit, ok), a);
      if y.account == a { assert WritesIn(j, a) == [y]; }
      if z.account == a { assert WritesIn(j, a) == [z]; }
    case Load(_, _, _, _, _) => assert replies + [] == replies;
  }

  lemma FirstIsStored(table: ItemTable, v: View, a: Account, d: DbChar)
    requires HistoryOk(table, v) && QueueOk(v, a) && v.ws != [] && v.snap == ReadChar(table, d)
    ensures v.ws[0].at < |v.hist| && v.dbAt <= v.ws[0].at
    ensures var now := ReadChar(table, Upsert(d, v.ws[0]));
            now.row == v.hist[v.ws[0].at].row && (v.stale || now.bag == v.hist[v.ws[0].at].bag)
  {
    hide Agree, ReadBag, ReadRow, Upsert, GoodSnap;
    FirstWriteOk(v, a);
    UpsertRow(table, d, v.hist[v.ws[0].at], v.ws[0]);
    if !v.stale {
      UpsertReads(table, d, v.hist[v.ws[0].at], v.ws[0]);
    }
  }

  lemma ExecutedOthers(w: World, k: nat, commit: bool, ok: bool, b: Account)
    requires k < |w.jobs| && WritesIn(w.jobs[k], b) == []
    requires w.jobs[k].Pair? ==> w.jobs[k].first.account != w.jobs[k].second.account
    ensures ViewOf(Execute(w, k, commit, ok), b) == ViewOf(w, b)
    ensures DbAt(Execute(w, k, commit, ok), b) == DbAt(w, b)
  {
    hide Execute, Gather, Without, ReadChar, Upsert, RepliesFor;
    ExecuteSame(w, k, commit, ok);
    ExecuteStores(w, k, commit, ok, b);
    OthersKeep(w, k, b);
    AnsweredTo(w.replies, w.jobs[k], commit, ok, b);
  }

  // ----- execution keeps the invariant

  /** A single bundle belongs to an account on no link. */
  lemma SingleIsFree(w: World, k: nat, x: Write)
    requires Inv(w) && k < |w.jobs| && w.jobs[k] == Save(x)
    ensures !Linked(w.pairs, x.account)
  {
    hide ViewOk, LinkOk, Flying, TradesOk, Base, LinksOk, ViewsOk, Paired, ViewOf, Has;
    InQueue(w, k, x.account, x);
    assert JobOk(w, w.jobs[k]);
    if Linked(w.pairs, x.account) {
      var i :| 0 <= i < |w.pairs| && Has(w.pairs[i], x.account);
      LinkMates(w, i, x.account, x);
    }
  }

  /** The write is one of account `a`, on a side of the link, with that of the other side. */
  predicate MateIs(l: PairLink, a: Account, x: Write) {
    && TwoSided(l) && l.sides[SideOf(l, a)].account == a
    && x.mate == Some(l.sides[1 - SideOf(l, a)].account)
  }

  lemma LinkMates(w: World, i: nat, a: Account, x: Write)
    requires Inv(w) && i < |w.pairs| && Has(w.pairs[i], a) && x in ViewOf(w, a).ws
    ensures MateIs(w.pairs[i], a, x)
  {
    hide Inv, LinkOk, ViewOf, Has, SideOf;
    TheLink(w, i);
    var l := w.pairs[i];
    SideOfHas(l, a);
    LinkMate(w.jobs, l, SideOf(l, a), ViewOf(w, l.sides[0].account), ViewOf(w, l.sides[1].account), x);
  }

  lemma SideOfHas(l: PairLink, a: Account)
    requires TwoSided(l) && Has(l, a)
    ensures SideOf(l, a) < 2 && l.sides[SideOf(l, a)].account == a
  {
  }

  lemma LinkMate(jobs: seq<Job>, l: PairLink, k: nat, v0: View, v1: View, x: Write)
    requires LinkOk(jobs, l, v0, v1) && k < 2 && x in (if k == 0 then v0 else v1).ws
    ensures x.mate == Some(l.sides[1 - k].account)
  {
    hide AnsweredAlike, Settled;
  }

  /** Storing more never unsettles a trade; a trade of a free account is settled already. */
  lemma TradesForFree(w: World, v: World, a: Account)
    requires Inv(w) && v.trades == w.trades && v.pairs == w.pairs && !Linked(w.pairs, a)
    requires forall b :: b != a ==> DbAt(v, b) == DbAt(w, b)
    requires DbAt(v, a) >= DbAt(w, a)
    ensures TradesOk(v)
  {
    hide DbAt, LinksOk, ViewsOk, Base, QueuesOk, Flying, Has;
    forall k | 0 <= k < |v.trades| ensures TradeOk(v, v.trades[k]) {
      var t := w.trades[k];
      assert TradeOk(w, t);
      if DbAt(w, t.a) < t.aAt {
        var m :| 0 <= m < |w.pairs| && IsTrade(w.pairs[m], t);
        TradeHas(w.pairs[m], t);
        assert t.a != a && t.b != a;
      }
    }
  }

  lemma TradeHas(l: PairLink, t: Trade)
    requires IsTrade(l, t)
    ensures Has(l, t.a) && Has(l, t.b)
  {
    assert l.sides[0].account == t.a && l.sides[1].account == t.b;
  }

  lemma ExecuteSaveKeeps(w: World, k: nat, commit: bool, ok: bool)
    requires Inv(w) && IsNext(w, k) && w.jobs[k].Save? && (ok ==> commit)
    ensures Inv(Execute(w, k, commit, ok))
  {
    hide ViewOk, LinkOk, Flying, TradesOk, Base, LinksOk, ViewsOk, Paired, ViewOf, QueuesOk, Has, Execute, AfterWrite,
         Linked, RouteOf;
    var x := w.jobs[k].w;
    var a := x.account;
    var v := Execute(w, k, commit, ok);
    SingleIsFree(w, k, x);
    InOrder(w, a);
    ExecutedAccount(w, k, commit, ok, a, x);
    forall b | b != a ensures ViewOf(v, b) == ViewOf(w, b) && DbAt(v, b) == DbAt(w, b) {
      ExecutedOthers(w, k, commit, ok, b);
    }
    ExecuteFrame(w, k, commit, ok);
    ExecuteSame(w, k, commit, ok);
    TheView(w, a);
    ExecutedView(w.table, ViewOf(w, a), a, commit, ok, Stored(v, a));
    assert ViewsOk(v) by { ViewsAfter(w, v, a, a); }
    TradesForFree(w, v, a);
    FreeMates(w, a);
    FreeAfterWrite(w, a, commit, ok);
    FreeLinks(w, v, k, a);
  }

  lemma FreeAfterWrite(w: World, a: Account, commit: bool, ok: bool)
    requires Inv(w) && !Linked(w.pairs, a)
    requires ViewOf(w, a).ws != [] && ViewOf(w, a).ws[0].at < |ViewOf(w, a).hist|
    ensures forall now :: !Paired(AfterWrite(ViewOf(w, a), commit, ok, now))
  {
    hide ViewOk, LinkOk, Flying, TradesOk, Base, LinksOk, ViewsOk, ViewOf, QueuesOk, Has, Linked;
    TheView(w, a);
    var v := ViewOf(w, a);
    FreeMates(w, a);
    forall now ensures !Paired(AfterWrite(v, commit, ok, now)) { NotPaired(AfterWrite(v, commit, ok, now)); }
  }

  /** Taking a job out that is no pair leaves every link as it was. */
  lemma FreeLinks(w: World, v: World, k: nat, a: Account)
    requires Inv(w) && k < |w.jobs| && !w.jobs[k].Pair? && v.jobs == Without(w.jobs, k) && v.pairs == w.pairs
    requires forall b :: b != a ==> ViewOf(v, b) == ViewOf(w, b)
    requires !Linked(w.pairs, a) || ViewOf(v, a) == ViewOf(w, a)
    requires Paired(ViewOf(v, a)) ==> Linked(w.pairs, a)
    ensures LinksOk(v)
  {
    hide ViewOk, LinkOk, Flying, TradesOk, Base, LinksOk, ViewsOk, ViewOf, QueuesOk, Without, Paired;
    forall i | 0 <= i < |w.pairs|
      ensures TwoSided(w.pairs[i])
      ensures LinkOk(v.jobs, w.pairs[i], ViewOf(v, w.pairs[i].sides[0].account), ViewOf(v, w.pairs[i].sides[1].account))
    {
      TheLink(w, i);
      var l := w.pairs[i];
      assert Has(l, l.sides[0].account) && Has(l, l.sides[1].account);
      PairsStay(w.jobs, k);
      LinkOkKept(w.jobs, v.jobs, l, ViewOf(w, l.sides[0].account), ViewOf(w, l.sides[1].account));
    }
    forall b | Paired(ViewOf(v, b)) ensures Linked(v.pairs, b) {
      if b != a { TheView(w, b); }
    }
    forall i, j, b | 0 <= i < |v.pairs| && 0 <= j < |v.pairs| && Has(v.pairs[i], b) && Has(v.pairs[j], b)
        ensures i == j {
      OneLinkEach(w, i, j, b);
    }
    LinksOkFrom(v);
  }

  lemma PairsStay(jobs: seq<Job>, k: nat)
    requires k < |jobs| && !jobs[k].Pair?
    ensures forall x, y :: Pair(x, y) in jobs ==> Pair(x, y) in Without(jobs, k)
  {
    forall x, y | Pair(x, y) in jobs ensures Pair(x, y) in Without(jobs, k) {
      var i :| 0 <= i < |jobs| && jobs[i] == Pair(x, y);
      assert i != k;
      assert Without(jobs, k)[if i < k then i else i - 1] == jobs[i];
    }
  }

  lemma LinkOkKept(jobs: seq<Job>, more: seq<Job>, l: PairLink, v0: View, v1: View)
    requires LinkOk(jobs, l, v0, v1)
    requires forall x, y :: Pair(x, y) in jobs ==> Pair(x, y) in more
    ensures LinkOk(more, l, v0, v1)
  {
    hide SideOk, AnsweredAlike, Settled;
  }

  // ----- a pair bundle

  lemma LinkExecuted(jobs: seq<Job>, more: seq<Job>, l: PairLink, v0: View, v1: View, commit: bool, ok: bool, n0: Snap,
                     n1: Snap)
    requires LinkOk(jobs, l, v0, v1) && v0.ws != [] && v1.ws != []
    requires v0.ws[0].at < |v0.hist| && v1.ws[0].at < |v1.hist| && (ok ==> commit)
    ensures LinkOk(more, l, AfterWrite(v0, commit, ok, n0), AfterWrite(v1, commit, ok, n1))
  {
  }

  lemma PairHasLink(w: World, k: nat) returns (i: nat)
    requires Inv(w) && k < |w.jobs| && w.jobs[k].Pair?
    ensures i < |w.pairs| && TwoSided(w.pairs[i])
    ensures var l, x, y := w.pairs[i], w.jobs[k].first.account, w.jobs[k].second.account;
            && x != y
            && ((l.sides[0].account == x && l.sides[1].account == y)
                || (l.sides[0].account == y && l.sides[1].account == x))
  {
    hide ViewOk, LinkOk, Flying, TradesOk, Base, LinksOk, ViewsOk, ViewOf, Has, SessionOk;
    var x, y := w.jobs[k].first, w.jobs[k].second;
    assert JobOk(w, w.jobs[k]);
    InQueue(w, k, x.account, x);
    TheView(w, x.account);
    assert Paired(ViewOf(w, x.account)) by { InViewPaired(ViewOf(w, x.account), x); }
    i :| 0 <= i < |w.pairs| && Has(w.pairs[i], x.account);
    LinkMates(w, i, x.account, x);
  }

  lemma InViewPaired(v: View, x: Write)
    requires x in v.ws && x.mate != None
    ensures Paired(v)
  {
  }

  lemma TradesForLink(w: World, v: World, i: nat, commit: bool)
    requires Inv(w) && v.trades == w.trades && v.pairs == w.pairs && i < |w.pairs| && TwoSided(w.pairs[i])
    requires forall b ::
               b != w.pairs[i].sides[0].account && b != w.pairs[i].sides[1].account ==> DbAt(v, b) == DbAt(w, b)
    requires forall k :: 0 <= k < 2 ==> DbAt(v, w.pairs[i].sides[k].account) >= DbAt(w, w.pairs[i].sides[k].account)
    requires commit ==> forall k :: 0 <= k < 2 ==> DbAt(v, w.pairs[i].sides[k].account) >= w.pairs[i].sides[k].tradeAt
    requires !commit ==> forall b :: DbAt(v, b) == DbAt(w, b)
    ensures TradesOk(v)
  {
    hide DbAt, LinksOk, ViewsOk, Base, QueuesOk, Flying, Has;
    var l := w.pairs[i];
    SameHas(l, l, l.sides[0].account);
    forall n | 0 <= n < |v.trades| ensures TradeOk(v, v.trades[n]) {
      var t := w.trades[n];
      assert TradeOk(w, t);
      if DbAt(w, t.a) < t.aAt {
        var m :| 0 <= m < |w.pairs| && IsTrade(w.pairs[m], t);
        TradeHas(w.pairs[m], t);
        if m != i { NotOnLink(w, i, m, t); } else { assert IsTrade(v.pairs[i], t); }
      }
    }
  }

  lemma NotOnLink(w: World, i: nat, m: nat, t: Trade)
    requires Inv(w) && i < |w.pairs| && m < |w.pairs| && m != i && TwoSided(w.pairs[i]) && IsTrade(w.pairs[m], t)
    ensures t.a != w.pairs[i].sides[0].account && t.a != w.pairs[i].sides[1].account
    ensures t.b != w.pairs[i].sides[0].account && t.b != w.pairs[i].sides[1].account
  {
    hide ViewOk, LinkOk, Flying, TradesOk, Base, LinksOk, ViewsOk, ViewOf, QueuesOk, Has, IsTrade;
    var l := w.pairs[i];
    SameHas(l, l, l.sides[0].account);
    TradeHas(w.pairs[m], t);
    if Has(l, t.a) { OneLinkEach(w, i, m, t.a); }
    if Has(l, t.b) { OneLinkEach(w, i, m, t.b); }
  }

  lemma ExecutePairKeeps(w: World, k: nat, commit: bool, ok: bool)
    requires Inv(w) && IsNext(w, k) && w.jobs[k].Pair? && (ok ==> commit)
    ensures Inv(Execute(w, k, commit, ok))
  {
    hide ViewOk, LinkOk, Flying, TradesOk, Base, LinksOk, ViewsOk, Paired, ViewOf, QueuesOk, Has, Execute, AfterWrite,
         Linked, RouteOf, Without;
    var v := Execute(w, k, commit, ok);
    var i := PairHasLink(w, k);
    var l := w.pairs[i];
    PairExecuted(w, k, commit, ok);
    ExecuteFrame(w, k, commit, ok);
    ExecuteSame(w, k, commit, ok);
    forall b | b != l.sides[0].account && b != l.sides[1].account
        ensures ViewOf(v, b) == ViewOf(w, b) && DbAt(v, b) == DbAt(w, b) {
      ExecutedOthers(w, k, commit, ok, b);
    }
    TheLink(w, i);
    LinkExecuted(w.jobs, v.jobs, l, ViewOf(w, l.sides[0].account), ViewOf(w, l.sides[1].account), commit, ok,
      Stored(v, l.sides[0].account), Stored(v, l.sides[1].account));
    LinkTradeAt(w.jobs, l, ViewOf(w, l.sides[0].account), ViewOf(w, l.sides[1].account));
    ViewDbAt(w);
    TradesForLink(w, v, i, commit);
    forall j | j in w.jobs && WritesIn(j, l.sides[0].account) == [] && WritesIn(j, l.sides[1].account) == []
        ensures j in v.jobs {
      OthersStay(w.jobs, k, j);
    }
    assert v.pairs == w.pairs[i := l];
    OneLink(w, v, i, l);
  }

  lemma ViewDbAt(w: World)
    ensures forall b :: ViewOf(w, b).dbAt == DbAt(w, b)
  {
    hide Gather, ReadChar;
  }

  lemma OthersStay(jobs: seq<Job>, k: nat, j: Job)
    requires k < |jobs| && j in jobs && j != jobs[k]
    ensures j in Without(jobs, k)
  {
    var i :| 0 <= i < |jobs| && jobs[i] == j;
    assert Without(jobs, k)[if i < k then i else i - 1] == jobs[i];
  }

  lemma LinkTradeAt(jobs: seq<Job>, l: PairLink, v0: View, v1: View)
    requires LinkOk(jobs, l, v0, v1)
    ensures v0.ws != [] ==> v0.ws[0].at >= l.sides[0].tradeAt
    ensures v1.ws != [] ==> v1.ws[0].at >= l.sides[1].tradeAt
  {
    hide AnsweredAlike, Settled;
  }

  lemma PairExecuted(w: World, k: nat, commit: bool, ok: bool)
    requires Inv(w) && IsNext(w, k) && w.jobs[k].Pair? && (ok ==> commit)
    requires w.jobs[k].first.account != w.jobs[k].second.account
    ensures forall a :: a == w.jobs[k].first.account || a == w.jobs[k].second.account ==>
              var v := Execute(w, k, commit, ok);
              && ViewOf(w, a).ws != [] && ViewOf(w, a).ws[0].at < |ViewOf(w, a).hist|
              && ViewOf(v, a) == AfterWrite(ViewOf(w, a), commit, ok, Stored(v, a))
              && ViewOk(w.table, ViewOf(v, a), a)
              && DbAt(w, a) <= ViewOf(w, a).ws[0].at
              && DbAt(v, a) == (if commit then ViewOf(w, a).ws[0].at else DbAt(w, a))
  {
    hide ViewOk, LinkOk, Flying, TradesOk, Base, LinksOk, ViewsOk, ViewOf, QueuesOk, Has, Execute, AfterWrite, Linked,
         RouteOf;
    var x, y := w.jobs[k].first, w.jobs[k].second;
    assert WritesIn(w.jobs[k], x.account) == [x] && WritesIn(w.jobs[k], y.account) == [y];
    InOrder(w, x.account);
    InOrder(w, y.account);
    ExecutedAccount(w, k, commit, ok, x.account, x);
    ExecutedAccount(w, k, commit, ok, y.account, y);
    TheView(w, x.account);
    TheView(w, y.account);
    var v := Execute(w, k, commit, ok);
    ExecutedView(w.table, ViewOf(w, x.account), x.account, commit, ok, Stored(v, x.account));
    ExecutedView(w.table, ViewOf(w, y.account), y.account, commit, ok, Stored(v, y.account));
  }

  // ----- loads, and room in the queues

  lemma ExecuteLoadKeeps(w: World, k: nat, commit: bool, ok: bool)
    requires Inv(w) && k < |w.jobs| && w.jobs[k].Load?
    ensures Inv(Execute(w, k, commit, ok))
  {
    hide ViewOk, LinkOk, Flying, TradesOk, Base, LinksOk, ViewsOk, Paired, ViewOf, QueuesOk, Has, Execute, Linked,
         RouteOf;
    var v, a := Execute(w, k, commit, ok), w.jobs[k].account;
    forall b ensures ViewOf(v, b) == ViewOf(w, b) && DbAt(v, b) == DbAt(w, b) { ExecutedOthers(w, k, commit, ok, b); }
    ExecuteFrame(w, k, commit, ok);
    ExecuteSame(w, k, commit, ok);
    TheView(w, a);
    ViewsAfter(w, v, a, a);
    FreeLinks(w, v, k, a);
    assert TradesOk(v) by { TradesQuiet(w, v); }
  }

  lemma TradesQuiet(w: World, v: World)
    requires TradesOk(w) && v.trades == w.trades && v.pairs == w.pairs && forall b :: DbAt(v, b) == DbAt(w, b)
    ensures TradesOk(v)
  {
    hide DbAt;
    forall k | 0 <= k < |v.trades| ensures TradeOk(v, v.trades[k]) { assert TradeOk(w, w.trades[k]); }
  }

  lemma ExecuteKeeps(w: World, k: nat, commit: bool, ok: bool)
    requires Inv(w) && IsNext(w, k) && (ok ==> commit)
    ensures Inv(Execute(w, k, commit, ok))
  {
    hide Inv, Execute, IsNext;
    assert k < |w.jobs| by { NextInRange(w, k); }
    match w.jobs[k]
    case Save(_) => ExecuteSaveKeeps(w, k, commit, ok);
    case Pair(_, _) => ExecutePairKeeps(w, k, commit, ok);
    case Load(_, _, _, _, _) => ExecuteLoadKeeps(w, k, commit, ok);
  }

  lemma NextInRange(w: World, k: nat)
    requires IsNext(w, k)
    ensures k < |w.jobs|
  {
  }

  /** A step no account, link or trade can see. */
  lemma QuietKeeps(w: World, v: World)
    requires Inv(w) && Frame(v) && v.table == w.table && v.pairs == w.pairs && v.trades == w.trades
    requires forall b :: ViewOf(v, b) == ViewOf(w, b)
    requires forall x, y :: Pair(x, y) in w.jobs ==> Pair(x, y) in v.jobs
    ensures Inv(v)
  {
    hide ViewOk, LinkOk, Flying, TradesOk, Base, ViewOf, QueuesOk, Paired;
    assert TradesOk(v) by { ViewDbAt(w); ViewDbAt(v); TradesQuiet(w, v); }
    forall i | 0 <= i < |v.pairs|
      ensures TwoSided(v.pairs[i])
      ensures LinkOk(v.jobs, v.pairs[i], ViewOf(v, v.pairs[i].sides[0].account), ViewOf(v, v.pairs[i].sides[1].account))
    {
      LinkOkKept(w.jobs, v.jobs, w.pairs[i], ViewOf(w, w.pairs[i].sides[0].account),
                 ViewOf(w, w.pairs[i].sides[1].account));
    }
    assert LinksOk(v) by { LinksOkFrom(v); }
  }

  lemma TakeOverKeeps(w: World, k: nat)
    requires Inv(w)
    ensures Inv(TakeOver(w, k))
  {
    var v := TakeOver(w, k);
    CountersSame(w, v);
    hide Inv, TakeOver;
    assert v.jobs == w.jobs && v.table == w.table && v.pairs == w.pairs && v.trades == w.trades by { TookOver(w, k); }
    QuietKeeps(w, v);
  }

  lemma TookOver(w: World, k: nat)
    ensures TakeOver(w, k) == w.(bundles := TakeOver(w, k).bundles, loadsQueued := TakeOver(w, k).loadsQueued)
    ensures |TakeOver(w, k).bundles| == |w.bundles| && |TakeOver(w, k).loadsQueued| == |w.loadsQueued|
  {
  }

  lemma CountersSame(w: World, v: World)
    requires Inv(w) && v == w.(bundles := v.bundles, loadsQueued := v.loadsQueued)
    requires |v.bundles| == |w.bundles| && |v.loadsQueued| == |w.loadsQueued|
    ensures Frame(v) && forall b :: ViewOf(v, b) == ViewOf(w, b)
  {
    hide ViewsOk, LinksOk, TradesOk, Gather, ReadChar;
    assert Flying(v) == Flying(w);
    hide Flying;
    forall i | 0 <= i < |v.jobs| ensures JobOk(v, v.jobs[i]) { assert JobOk(w, w.jobs[i]); }
  }

  lemma PushLoadKeeps(w: World, a: Account, s: Session, after: nat, alone: bool, counts: seq<nat>)
    requires Inv(w) && |counts| == |w.loadsQueued|
    ensures Inv(w.(jobs := w.jobs + [Load(a, s, after, alone, None)], loadsQueued := counts))
  {
    var v := w.(jobs := w.jobs + [Load(a, s, after, alone, None)], loadsQueued := counts);
    PushLoadFrame(w, v, Load(a, s, after, alone, None));
    hide Inv;
    QuietKeeps(w, v);
  }

  lemma PushLoadFrame(w: World, v: World, j: Job)
    requires Inv(w) && j.Load? && v == w.(jobs := w.jobs + [j], loadsQueued := v.loadsQueued)
             && |v.loadsQueued| == |w.loadsQueued|
    ensures Frame(v) && forall b :: ViewOf(v, b) == ViewOf(w, b)
  {
    hide ViewsOk, LinksOk, TradesOk, Gather, ReadChar;
    assert Flying(v) == Flying(w);
    hide Flying;
    forall i | 0 <= i < |v.jobs| ensures JobOk(v, v.jobs[i]) {
      if i < |w.jobs| { assert JobOk(w, w.jobs[i]); }
    }
    forall b ensures WritesFor(v.jobs, b) == WritesFor(w.jobs, b) {
      GatherSnoc(WriterOf(b), w.jobs, j);
    }
  }

  lemma RequestLoadKeeps(w: World, s: Session, a: Account)
    requires Inv(w)
    ensures Inv(RequestLoad(w, s, a))
  {
    hide Inv, SendLeaveRecord, Bump, Route;
    if a in w.leave && !w.leave[a].inFlight && !w.leave[a].paired {
      SendLeaveRecordKeeps(w, a);
    }
    var v := if a in w.leave && !w.leave[a].inFlight && !w.leave[a].paired then SendLeaveRecord(w, a) else w;
    var counts := Bump(v.loadsQueued, Route(w, a), 1);
    BumpSize(v.loadsQueued, Route(w, a), 1);
    PushLoadKeeps(v, a, s, Issued(v, a), FindPair(w.pairs, a) == |w.pairs|, counts);
  }

  lemma BumpSize(counts: seq<nat>, k: nat, n: nat)
    ensures |Bump(counts, k, n)| == |counts|
  {
  }
}
