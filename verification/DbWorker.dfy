/** The game side of the database workers: bounded queues going out, replies and load results coming back. */
module DbWorkers {
  import opened Items
  import opened SaveTypes
  import opened SaveSteps

  /** Pushing writes one by one: each is taken while its worker's queue has room. */
  datatype Queues = Queues(jobs: seq<Job>, bundles: seq<nat>)

  predicate Fits(workers: nat, queueMax: nat, q: Queues, x: Write) {
    SlotIndex(workers, x.account) < |q.bundles| && q.bundles[SlotIndex(workers, x.account)] + 1 <= queueMax
  }

  function Pushed(workers: nat, queueMax: nat, q: Queues, x: Write): Queues {
    if Fits(workers, queueMax, q, x) then Queues(q.jobs + [Save(x)], Bump(q.bundles, SlotIndex(workers, x.account), 1))
       else q
  }

  function PushedAll(workers: nat, queueMax: nat, q: Queues, heads: seq<Write>, order: seq<nat>): Queues {
    if order == [] then q
    else
      var p := PushedAll(workers, queueMax, q, heads, order[..|order| - 1]);
      var n := order[|order| - 1];
      if n < |heads| then Pushed(workers, queueMax, p, heads[n]) else p
  }

  /** Heads whose turn came when their queue was full. */
  function RefusedOf(workers: nat, queueMax: nat, q: Queues, heads: seq<Write>, order: seq<nat>): seq<nat> {
    if order == [] then []
    else
      var p := PushedAll(workers, queueMax, q, heads, order[..|order| - 1]);
      var n := order[|order| - 1];
      RefusedOf(workers, queueMax, q, heads, order[..|order| - 1])
      + (if n < |heads| && !Fits(workers, queueMax, p, heads[n]) then [n] else [])
  }

  /** The heads before the `i`th that go to worker `w`. */
  function TurnsOf(workers: nat, heads: seq<Write>, w: nat, i: nat): seq<nat>
    requires i <= |heads|
  {
    if i == 0 then []
    else TurnsOf(workers, heads, w, i - 1) + (if SlotIndex(workers, heads[i - 1].account) == w then [i - 1] else [])
  }

  /** The order of turns over the first `w` workers. */
  function BatchOrder(workers: nat, heads: seq<Write>, w: nat): seq<nat> {
    if w == 0 then [] else BatchOrder(workers, heads, w - 1) + TurnsOf(workers, heads, w - 1, |heads|)
  }

  ghost predicate Distinct<T(!new)>(xs: seq<T>) { forall i, j :: 0 <= i < j < |xs| ==> xs[i] != xs[j] }

  lemma {:induction false} TurnsAre(workers: nat, heads: seq<Write>, w: nat, i: nat)
    requires i <= |heads|
    ensures Distinct(TurnsOf(workers, heads, w, i))
    ensures forall n: nat :: n in TurnsOf(workers, heads, w, i) <==> n < i && SlotIndex(workers, heads[n].account) == w
  {
    hide SlotIndex;
    if i > 0 { TurnsAre(workers, heads, w, i - 1); }
  }

  /** Every head gets exactly one turn. */
  lemma {:induction false} TurnsCover(workers: nat, heads: seq<Write>, w: nat)
    ensures Distinct(BatchOrder(workers, heads, w))
    ensures forall n: nat ::
              n in BatchOrder(workers, heads, w) <==> n < |heads| && SlotIndex(workers, heads[n].account) < w
  {
    hide SlotIndex, TurnsOf;
    if w > 0 {
      TurnsCover(workers, heads, w - 1);
      TurnsAre(workers, heads, w - 1, |heads|);
      DistinctConcat(BatchOrder(workers, heads, w - 1), TurnsOf(workers, heads, w - 1, |heads|));
    }
  }

  lemma DistinctConcat<T(!new)>(x: seq<T>, y: seq<T>)
    requires Distinct(x) && Distinct(y) && forall e :: e in x ==> e !in y
    ensures Distinct(x + y)
  {
    forall i, j | 0 <= i < j < |x + y| ensures (x + y)[i] != (x + y)[j] {
      if i < |x| && j >= |x| { assert x[i] in x && y[j - |x|] in y; }
    }
  }

  lemma NoTurns(workers: nat, queueMax: nat, q: Queues, heads: seq<Write>)
    ensures PushedAll(workers, queueMax, q, heads, []) == q && RefusedOf(workers, queueMax, q, heads, []) == []
  {
  }

  lemma OneTurn(workers: nat, queueMax: nat, q: Queues, heads: seq<Write>, order: seq<nat>, i: nat)
    requires i < |heads|
    ensures var p := PushedAll(workers, queueMax, q, heads, order);
            && PushedAll(workers, queueMax, q, heads, order + [i]) == Pushed(workers, queueMax, p, heads[i])
            && RefusedOf(workers, queueMax, q, heads, order + [i])
               == RefusedOf(workers, queueMax, q, heads, order) + if Fits(workers, queueMax, p, heads[i]) then []
                   else [i]
  {
    hide Pushed, Fits;
    assert (order + [i])[..|order|] == order;
  }

  lemma OnePush(workers: nat, queueMax: nat, q: Queues, x: Write)
    ensures var k := SlotIndex(workers, x.account);
            && Fits(workers, queueMax, q, x) == (k < |q.bundles| && q.bundles[k] + 1 <= queueMax)
            && Pushed(workers, queueMax, q, x) ==
               if k < |q.bundles| && q.bundles[k] + 1 <= queueMax
               then Queues(q.jobs + [Save(x)], q.bundles[k := q.bundles[k] + 1]) else q
  {
    hide SlotIndex;
  }

  /** Queues were only added to, and never beyond their limit. */
  ghost predicate Grown(queueMax: nat, q: Queues, r: Queues) {
    && q.jobs <= r.jobs && |r.bundles| == |q.bundles|
    && forall k :: 0 <= k < |q.bundles| ==>
         q.bundles[k] <= r.bundles[k] && (q.bundles[k] <= queueMax ==> r.bundles[k] <= queueMax)
  }

  ghost function Set(xs: seq<nat>): set<nat> { set n | n in xs }

  ghost function Below(n: nat): (s: set<nat>)
    ensures forall i: nat :: i in s <==> i < n
  {
    if n == 0 then {} else Below(n - 1) + {n - 1}
  }

  ghost predicate NoRoom(workers: nat, queueMax: nat, r: Queues, x: Write) {
    var k := SlotIndex(workers, x.account);
    k >= |r.bundles| || r.bundles[k] >= queueMax
  }

  ghost predicate SavedSince(jobs: seq<Job>, from: nat, x: Write) {
    exists k: nat :: from <= k < |jobs| && jobs[k] == Save(x)
  }

  ghost predicate SaveOf(j: Job, heads: seq<Write>, turns: set<nat>, refused: seq<nat>) {
    j.Save? && exists n :: n in turns && n < |heads| && n !in refused && j.w == heads[n]
  }

  /** Since job `from`, a head has been queued exactly if it is one of `turns` and not refused; the refused ones have
      found their queue full. */
  ghost predicate TurnsTaken(workers: nat, queueMax: nat, r: Queues, from: nat, heads: seq<Write>, turns: set<nat>,
                             refused: seq<nat>) {
    && (forall n :: n in refused ==> n in turns)
    && (forall n :: n in turns && n < |heads| && n !in refused ==>
          SavedSince(r.jobs, from, heads[n]))
    && (forall k :: from <= k < |r.jobs| ==> SaveOf(r.jobs[k], heads, turns, refused))
    && forall n :: n in refused ==> n < |heads| && NoRoom(workers, queueMax, r, heads[n])
  }

  /** Every head is queued, in one job of its own, or refused because its worker's queue is full. */
  ghost predicate BatchTaken(workers: nat, queueMax: nat, q: Queues, r: Queues, heads: seq<Write>, refused: seq<nat>) {
    && Grown(queueMax, q, r) && |r.jobs| + |refused| == |q.jobs| + |heads| && Distinct(refused)
    && TurnsTaken(workers, queueMax, r, |q.jobs|, heads, Below(|heads|), refused)
  }

  lemma {:induction false} TurnsAreTaken(workers: nat, queueMax: nat, q: Queues, heads: seq<Write>, order: seq<nat>)
    requires Distinct(order) && forall n :: n in order ==> n < |heads|
    ensures var r, refused := PushedAll(workers, queueMax, q, heads, order),
            RefusedOf(workers, queueMax, q, heads, order);
            && Grown(queueMax, q, r) && |r.jobs| + |refused| == |q.jobs| + |order| && Distinct(refused)
            && TurnsTaken(workers, queueMax, r, |q.jobs|, heads, Set(order), refused)
  {
    hide Pushed, Fits, Grown, TurnsTaken, SlotIndex;
    if order == [] {
      NoTurns(workers, queueMax, q, heads);
      NoneTaken(workers, queueMax, q, heads);
      assert Set(order) == {};
    } else {
      var before, i := order[..|order| - 1], order[|order| - 1];
      assert order == before + [i] && i !in before && i in order;
      assert forall n :: n in before ==> n in order;
      TurnsAreTaken(workers, queueMax, q, heads, before);
      var p := PushedAll(workers, queueMax, q, heads, before);
      var refused := RefusedOf(workers, queueMax, q, heads, before);
      OneTurn(workers, queueMax, q, heads, before, i);
      OnePush(workers, queueMax, p, heads[i]);
      assert Set(order) == Set(before) + {i} && refused + [] == refused;
      OneTaken(workers, queueMax, q, p, heads, Set(before), refused, i);
      assert TurnsTaken(workers, queueMax, p, |q.jobs|, heads, Set(before), refused);
      RefusedFirst(workers, queueMax, p, |q.jobs|, heads, Set(before), refused);
    }
  }

  lemma RefusedFirst(workers: nat, queueMax: nat, r: Queues, from: nat, heads: seq<Write>, turns: set<nat>,
                     refused: seq<nat>)
    requires TurnsTaken(workers, queueMax, r, from, heads, turns, refused)
    ensures forall n :: n in refused ==> n in turns
  {
  }

  lemma NoneTaken(workers: nat, queueMax: nat, q: Queues, heads: seq<Write>)
    ensures Grown(queueMax, q, q) && TurnsTaken(workers, queueMax, q, |q.jobs|, heads, {}, [])
  {
  }

  lemma OneTaken(workers: nat, queueMax: nat, q: Queues, p: Queues, heads: seq<Write>, turns: set<nat>,
                 refused: seq<nat>, i: nat)
    requires i < |heads| && i !in turns && Grown(queueMax, q, p)
    requires TurnsTaken(workers, queueMax, p, |q.jobs|, heads, turns, refused)
    ensures var k := SlotIndex(workers, heads[i].account);
            var fits := k < |p.bundles| && p.bundles[k] + 1 <= queueMax;
            var r := if fits then Queues(p.jobs + [Save(heads[i])], p.bundles[k := p.bundles[k] + 1]) else p;
            && Grown(queueMax, q, r)
            && TurnsTaken(workers, queueMax, r, |q.jobs|, heads, turns + {i}, if fits then refused else refused + [i])
  {
    hide SlotIndex, TurnsTaken;
    var k := SlotIndex(workers, heads[i].account);
    if k < |p.bundles| && p.bundles[k] + 1 <= queueMax {
      HeadTaken(workers, queueMax, p, p.bundles[k := p.bundles[k] + 1], |q.jobs|, heads, turns, refused, i);
    } else {
      HeadRefused(workers, queueMax, p, |q.jobs|, heads, turns, refused, i);
    }
  }

  lemma HeadRefused(workers: nat, queueMax: nat, p: Queues, from: nat, heads: seq<Write>, turns: set<nat>,
                    refused: seq<nat>, i: nat)
    requires i < |heads| && i !in turns && TurnsTaken(workers, queueMax, p, from, heads, turns, refused)
    requires NoRoom(workers, queueMax, p, heads[i])
    ensures TurnsTaken(workers, queueMax, p, from, heads, turns + {i}, refused + [i])
  {
    hide NoRoom, SavedSince;
    forall k | from <= k < |p.jobs| ensures SaveOf(p.jobs[k], heads, turns + {i}, refused + [i]) {
      StillOf(p.jobs[k], heads, turns, refused, i, refused + [i]);
    }
  }

  lemma StillOf(j: Job, heads: seq<Write>, turns: set<nat>, refused: seq<nat>, i: nat, later: seq<nat>)
    requires SaveOf(j, heads, turns, refused) && i !in turns && (later == refused || later == refused + [i])
    ensures SaveOf(j, heads, turns + {i}, later)
  {
    var n :| n in turns && n < |heads| && n !in refused && j.w == heads[n];
    assert n in turns + {i} && n !in later;
  }

  lemma HeadTaken(workers: nat, queueMax: nat, p: Queues, counts: seq<nat>, from: nat, heads: seq<Write>,
                  turns: set<nat>, refused: seq<nat>, i: nat)
    requires i < |heads| && i !in turns && TurnsTaken(workers, queueMax, p, from, heads, turns, refused)
    requires |counts| == |p.bundles| && (forall k :: 0 <= k < |counts| ==> p.bundles[k] <= counts[k])
             && from <= |p.jobs|
    ensures TurnsTaken(workers, queueMax, Queues(p.jobs + [Save(heads[i])], counts), from, heads, turns + {i}, refused)
  {
    hide NoRoom, SavedSince, SaveOf;
    var r := Queues(p.jobs + [Save(heads[i])], counts);
    forall n | n in turns + {i} && n < |heads| && n !in refused ensures SavedSince(r.jobs, from, heads[n]) {
      SavedStill(p.jobs, from, heads[n], heads[i]);
    }
    forall k | from <= k < |r.jobs| ensures SaveOf(r.jobs[k], heads, turns + {i}, refused) {
      if k < |p.jobs| {
        StillOf(p.jobs[k], heads, turns, refused, i, refused);
      } else {
        NewOf(heads, turns, refused, i);
      }
    }
    forall n | n in refused ensures n < |heads| && NoRoom(workers, queueMax, r, heads[n]) {
      StillNoRoom(workers, queueMax, p, r, heads[n]);
    }
  }

  lemma SavedStill(jobs: seq<Job>, from: nat, x: Write, y: Write)
    requires (x == y && from <= |jobs|) || SavedSince(jobs, from, x)
    ensures SavedSince(jobs + [Save(y)], from, x)
  {
    if SavedSince(jobs, from, x) {
      var k: nat :| from <= k < |jobs| && jobs[k] == Save(x);
      assert (jobs + [Save(y)])[k] == Save(x);
    } else {
      assert (jobs + [Save(y)])[|jobs|] == Save(x);
    }
  }

  lemma NewOf(heads: seq<Write>, turns: set<nat>, refused: seq<nat>, i: nat)
    requires i < |heads| && i !in refused
    ensures SaveOf(Save(heads[i]), heads, turns + {i}, refused)
  {
    assert i in turns + {i};
  }

  lemma StillNoRoom(workers: nat, queueMax: nat, p: Queues, r: Queues, x: Write)
    requires NoRoom(workers, queueMax, p, x) && |r.bundles| == |p.bundles|
    requires forall k :: 0 <= k < |r.bundles| ==> p.bundles[k] <= r.bundles[k]
    ensures NoRoom(workers, queueMax, r, x)
  {
    hide SlotIndex;
  }

  lemma BatchIsTaken(workers: nat, queueMax: nat, q: Queues, heads: seq<Write>)
    requires workers > 0
    ensures var order := BatchOrder(workers, heads, workers);
            BatchTaken(workers, queueMax, q, PushedAll(workers, queueMax, q, heads, order), heads,
                       RefusedOf(workers, queueMax, q, heads, order))
  {
    hide PushedAll, RefusedOf, Grown, TurnsTaken, BatchOrder;
    var order := BatchOrder(workers, heads, workers);
    TurnsCover(workers, heads, workers);
    TurnsAreTaken(workers, queueMax, q, heads, order);
    assert Set(order) == Below(|heads|);
    CountTurns(order, |heads|);
  }

  lemma {:induction false} CountTurns(order: seq<nat>, n: nat)
    requires Distinct(order) && forall i: nat :: i in order <==> i < n
    ensures |order| == n
  {
    SizeBelow(n);
    SizeOfTurns(order);
    assert Set(order) == Below(n);
  }

  lemma {:induction false} SizeBelow(n: nat)
    ensures |Below(n)| == n
  {
    if n > 0 {
      SizeBelow(n - 1);
      assert Below(n) == Below(n - 1) + {n - 1};
    }
  }

  lemma {:induction false} SizeOfTurns(order: seq<nat>)
    requires Distinct(order)
    ensures |Set(order)| == |order|
  {
    if order != [] {
      var before, i := order[..|order| - 1], order[|order| - 1];
      SizeOfTurns(before);
      assert Set(order) == Set(before) + {i};
      assert i !in before;
    }
  }

  class DbWorker {
    const workers: nat
    const queueMax: nat
    var jobs: seq<Job>
    var bundles: seq<nat>
    var loadsQueued: seq<nat>
    var replies: seq<Reply>
    var loads: seq<LoadResult>

    constructor (workers: nat, queueMax: nat)
      ensures this.workers == workers && this.queueMax == queueMax
      ensures jobs == [] && replies == [] && loads == []
      ensures bundles == seq(workers, i => 0) && loadsQueued == seq(workers, i => 0)
    {
      this.workers, this.queueMax := workers, queueMax;
      jobs, replies, loads := [], [], [];
      bundles, loadsQueued := seq(workers, i => 0), seq(workers, i => 0);
    }

    method EnqueueSave(x: Write) returns (taken: bool)
      modifies this`jobs, this`bundles
      ensures var k := SlotIndex(workers, x.account);
              && taken == (k < |old(bundles)| && old(bundles)[k] + 1 <= queueMax)
              && jobs == (if taken then old(jobs) + [Save(x)] else old(jobs))
              && bundles == if taken then old(bundles)[k := old(bundles)[k] + 1] else old(bundles)
    {
      var k := SlotIndex(workers, x.account);
      taken := k < |bundles| && bundles[k] + 1 <= queueMax;
      if taken {
        jobs := jobs + [Save(x)];
        bundles := bundles[k := bundles[k] + 1];
      }
    }

    /** Both heads under one lock, on the smaller account's queue, or neither. */
    method EnqueueSavePair(x: Write, y: Write) returns (taken: bool)
      modifies this`jobs, this`bundles
      ensures var k := SlotIndex(workers, if x.account < y.account then x.account else y.account);
              && taken == (k < |old(bundles)| && old(bundles)[k] + 2 <= queueMax)
              && jobs == (if taken then old(jobs) + [Pair(x, y)] else old(jobs))
              && bundles == if taken then Bump(old(bundles), k, 2) else old(bundles)
    {
      var k := SlotIndex(workers, if x.account < y.account then x.account else y.account);
      taken := k < |bundles| && bundles[k] + 2 <= queueMax;
      if taken {
        jobs := jobs + [Pair(x, y)];
        bundles := bundles[k := bundles[k] + 2];
      }
    }

    method EnqueueLoad(s: Session, a: Account, after: nat, alone: bool) returns (taken: bool)
      modifies this`jobs, this`loadsQueued
      ensures var k := SlotIndex(workers, a);
              && taken == (k < |old(loadsQueued)| && old(loadsQueued)[k] < queueMax)
              && jobs == (if taken then old(jobs) + [Load(a, s, after, alone, None)] else old(jobs))
              && loadsQueued == if taken then Bump(old(loadsQueued), k, 1) else old(loadsQueued)
    {
      var k := SlotIndex(workers, a);
      taken := k < |loadsQueued| && loadsQueued[k] < queueMax;
      if taken {
        jobs := jobs + [Load(a, s, after, alone, None)];
        loadsQueued := loadsQueued[k := loadsQueued[k] + 1];
      }
    }

    /** The period's bundles, one worker's queue at a time. */
    method EnqueueSaveBatch(heads: seq<Write>) returns (refused: seq<nat>)
      modifies this`jobs, this`bundles
      ensures Queues(jobs, bundles)
              == PushedAll(workers, queueMax, old(Queues(jobs, bundles)), heads, BatchOrder(workers, heads, workers))
      ensures refused == RefusedOf(workers, queueMax, old(Queues(jobs, bundles)), heads,
                                   BatchOrder(workers, heads, workers))
      ensures workers > 0 ==>
                BatchTaken(workers, queueMax, old(Queues(jobs, bundles)), Queues(jobs, bundles), heads, refused)
    {
      hide Pushed, Fits, SlotIndex, PushedAll, RefusedOf, BatchTaken;
      refused := [];
      ghost var q := Queues(jobs, bundles);
      ghost var order: seq<nat> := [];
      NoTurns(workers, queueMax, q, heads);
      var w := 0;
      while w < workers
        invariant 0 <= w <= workers
        invariant order == BatchOrder(workers, heads, w)
        invariant Queues(jobs, bundles) == PushedAll(workers, queueMax, q, heads, order)
        invariant refused == RefusedOf(workers, queueMax, q, heads, order)
      {
        var i := 0;
        while i < |heads|
          invariant 0 <= i <= |heads|
          invariant order == BatchOrder(workers, heads, w) + TurnsOf(workers, heads, w, i)
          invariant Queues(jobs, bundles) == PushedAll(workers, queueMax, q, heads, order)
          invariant refused == RefusedOf(workers, queueMax, q, heads, order)
        {
          if SlotIndex(workers, heads[i].account) == w {
            OneTurn(workers, queueMax, q, heads, order, i);
            OnePush(workers, queueMax, Queues(jobs, bundles), heads[i]);
            var taken := EnqueueSave(heads[i]);
            if !taken {
              refused := refused + [i];
            }
            order := order + [i];
          }
          i := i + 1;
        }
        w := w + 1;
      }
      if workers > 0 { BatchIsTaken(workers, queueMax, q, heads); }
    }

    /** Everything that has come back, taken out at once. */
    method SwapOutResults() returns (outLoads: seq<LoadResult>, outSaves: seq<Reply>)
      modifies this`loads, this`replies
      ensures outLoads == old(loads) && outSaves == old(replies) && loads == [] && replies == []
    {
      outLoads, outSaves := loads, replies;
      loads, replies := [], [];
    }
  }
}
