/** The period saves everybody at once: all bundles are prepared first, queued worker by worker, and taken back or
    confirmed afterwards. This is the same as looking at one player after the other. */
module SaveBatch {
  import opened Items
  import opened SaveTypes
  import opened SaveSteps
  import opened SaveRuns
  import opened DbWorkers

  function PeriodOne(w: World, s: Session): World { if s in w.players then PeriodSave(w, s) else w }

  function PeriodAll(w: World, order: seq<Session>): World
    decreases |order|
  {
    if order == [] then w else PeriodOne(PeriodAll(w, order[..|order| - 1]), order[|order| - 1])
  }

  lemma {:induction false} PeriodAllConcat(w: World, x: seq<Session>, y: seq<Session>)
    ensures PeriodAll(w, x + y) == PeriodAll(PeriodAll(w, x), y)
    decreases |y|
  {
    hide PeriodOne;
    if y == [] {
      assert x + y == x;
    } else {
      assert (x + y)[..|x + y| - 1] == x + y[..|y| - 1];
      PeriodAllConcat(w, x, y[..|y| - 1]);
    }
  }

  /** Every link from the `i`th on that is not in flight is sent again. */
  function PairsRetried(w: World, i: nat): World
    decreases |w.pairs| - i
  {
    if i >= |w.pairs| then w
    else
      var v := if !w.pairs[i].inFlight && TwoSided(w.pairs[i]) then SendPair(w, i) else w;
      if |v.pairs| == |w.pairs| then PairsRetried(v, i + 1) else v
  }

  /** The tick-end list, one entry after the other. */
  function TickEndJudged(w: World): World
    decreases |w.tickEnd|
  {
    if w.tickEnd == [] then w
    else
      var v := EndTickOne(w);
      if |v.tickEnd| < |w.tickEnd| then TickEndJudged(v) else v
  }

  // ----- setting some keys of a map, in any order

  function Put<K, V>(base: map<K, V>, keys: seq<K>, vals: seq<V>, order: seq<nat>): map<K, V>
    requires |keys| == |vals|
  {
    if order == [] then base
    else
      var n := order[|order| - 1];
      var m := Put(base, keys, vals, order[..|order| - 1]);
      if n < |keys| then m[keys[n] := vals[n]] else m
  }

  lemma {:induction false} PutIs<K(!new), V>(base: map<K, V>, keys: seq<K>, vals: seq<V>, order: seq<nat>)
    requires |keys| == |vals| && forall i, j :: 0 <= i < j < |keys| ==> keys[i] != keys[j]
    requires forall n :: n in order ==> n < |keys|
    ensures forall n ::
              n in order ==> keys[n] in Put(base, keys, vals, order) && Put(base, keys, vals, order)[keys[n]] == vals[n]
    ensures forall k :: (forall n :: n in order ==> keys[n] != k) ==>
              && (k in Put(base, keys, vals, order) <==> k in base)
              && (k in base ==> Put(base, keys, vals, order)[k] == base[k])
  {
    if order != [] {
      var shorter := order[..|order| - 1];
      assert forall n :: n in shorter ==> n in order;
      PutIs(base, keys, vals, shorter);
      forall n | n in order ensures keys[n] in Put(base, keys, vals, order)
          && Put(base, keys, vals, order)[keys[n]] == vals[n] {
        if n != order[|order| - 1] { assert n in shorter; }
      }
    }
  }

  lemma PutSame<K(!new), V>(b: map<K, V>, c: map<K, V>, keys: seq<K>, vals: seq<V>, x: seq<nat>, y: seq<nat>)
    requires |keys| == |vals| && forall i, j :: 0 <= i < j < |keys| ==> keys[i] != keys[j]
    requires forall n :: n in x ==> n < |keys|
    requires forall n :: n in x <==> n in y
    requires forall k :: (forall n :: n in x ==> keys[n] != k) ==> (k in b <==> k in c) && (k in b ==> b[k] == c[k])
    ensures Put(b, keys, vals, x) == Put(c, keys, vals, y)
  {
    PutIs(b, keys, vals, x);
    PutIs(c, keys, vals, y);
    var m, o := Put(b, keys, vals, x), Put(c, keys, vals, y);
    hide Put;
    forall k ensures (k in m <==> k in o) && (k in m ==> m[k] == o[k]) {
      if exists n :: n in x && keys[n] == k {
        var n :| n in x && keys[n] == k;
        assert m[keys[n]] == vals[n] && o[keys[n]] == vals[n];
      }
    }
    assert m == o;
  }

  // ----- the batch

  predicate Eligible(p: Player) { ShouldSave(p) && !p.flight.paired && p.flight.bundleNo == 0 }

  /** The players the period makes bundles for, and their bundles. */
  ghost predicate IsBatch(w: World, owners: seq<Session>, heads: seq<Write>) {
    && |heads| == |owners|
    && (forall i, j :: 0 <= i < j < |owners| ==> owners[i] != owners[j])
    && (forall i, j :: 0 <= i < j < |heads| ==> heads[i].account != heads[j].account)
    && (forall i :: 0 <= i < |owners| ==>
          && owners[i] in w.players && Eligible(w.players[owners[i]])
          && heads[i] == BundleOf(w.players[owners[i]], owners[i], None, Top(w, w.players[owners[i]].account)))
  }

  /** What becomes of each owner. */
  function Outcomes(players: map<Session, Player>, owners: seq<Session>, heads: seq<Write>,
                    refused: seq<nat>): (vals: seq<Player>)
    requires |heads| == |owners| && forall i :: 0 <= i < |owners| ==> owners[i] in players
    ensures |vals| == |owners|
  {
    seq(|owners|, i requires 0 <= i < |owners| =>
      if i in refused then Aborted(Prepared(players[owners[i]]))
         else Committed(Prepared(players[owners[i]]), heads[i].bundleNo))
  }

  function AccountsOf(heads: seq<Write>): (r: seq<Account>)
    ensures |r| == |heads|
  {
    seq(|heads|, i requires 0 <= i < |heads| => heads[i].account)
  }

  /** One more write issued for each account. */
  function CountsOf(w: World, heads: seq<Write>): (r: seq<nat>)
    ensures |r| == |heads|
  {
    seq(|heads|, i requires 0 <= i < |heads| => Issued(w, heads[i].account) + 1)
  }

  function SessionsIn(owners: seq<Session>, order: seq<nat>): seq<Session>
    requires forall i :: 0 <= i < |order| ==> order[i] < |owners|
  {
    seq(|order|, i requires 0 <= i < |order| => owners[order[i]])
  }

  function TakenOf(order: seq<nat>, refused: seq<nat>): seq<nat> {
    if order == [] then []
    else TakenOf(order[..|order| - 1], refused) + if order[|order| - 1] in refused then [] else [order[|order| - 1]]
  }

  lemma {:induction false} TakenAre(order: seq<nat>, refused: seq<nat>)
    ensures forall n :: n in TakenOf(order, refused) <==> n in order && n !in refused
    ensures |TakenOf(order, refused)| <= |order|
  {
    if order != [] {
      TakenAre(order[..|order| - 1], refused);
      assert order == order[..|order| - 1] + [order[|order| - 1]];
    }
  }

  /** The state after the heads in `order` have had their turn, one player after the other. */
  function Turned(w: World, owners: seq<Session>, heads: seq<Write>, order: seq<nat>, refused: seq<nat>): World
    requires |heads| == |owners| && forall i :: 0 <= i < |owners| ==> owners[i] in w.players
  {
    With(w, PushedAll(w.workers, w.queueMax, Queues(w.jobs, w.bundles), heads, order),
         Put(w.players, owners, Outcomes(w.players, owners, heads, refused), order),
         Put(w.issued, AccountsOf(heads), CountsOf(w, heads), TakenOf(order, refused)),
         |TakenOf(order, refused)|)
  }

  function With(w: World, q: Queues, players: map<Session, Player>, issued: map<Account, nat>, n: nat): World {
    w.(jobs := q.jobs, bundles := q.bundles, players := players, issued := issued, inflight := w.inflight + n)
  }

  lemma WithMore(w: World, q: Queues, players: map<Session, Player>, issued: map<Account, nat>, n: nat,
                 r: Queues, ps: map<Session, Player>, counts: map<Account, nat>)
    ensures var u := With(w, q, players, issued, n);
            && u.players == players && u.issued == issued && Queues(u.jobs, u.bundles) == q
            && u.workers == w.workers && u.queueMax == w.queueMax
            && u.(jobs := r.jobs, bundles := r.bundles, players := ps, issued := counts, inflight := u.inflight + 1)
                 == With(w, r, ps, counts, n + 1)
            && u.(players := ps) == With(w, q, ps, issued, n)
  {
  }

  lemma {:induction false} BatchIsFold(w: World, owners: seq<Session>, heads: seq<Write>, order: seq<nat>,
                                       refused: seq<nat>)
    requires IsBatch(w, owners, heads)
    requires (forall i :: 0 <= i < |order| ==> order[i] < |owners|) && Distinct(order)
    requires forall n :: n in order ==>
               (n in refused <==> n in RefusedOf(w.workers, w.queueMax, Queues(w.jobs, w.bundles), heads, order))
    ensures PeriodAll(w, SessionsIn(owners, order)) == Turned(w, owners, heads, order, refused)
    decreases |order|
  {
    hide IsBatch, Put, PushedAll, PeriodOne, Outcomes, CountsOf, AccountsOf, RefusedOf, TakenOf;
    BatchParts(w, owners, heads);
    if order == [] {
      TurnedNone(w, owners, heads, refused);
    } else {
      var shorter, n := order[..|order| - 1], order[|order| - 1];
      RefusedSoFar(w, heads, order, refused);
      BatchIsFold(w, owners, heads, shorter, refused);
      assert SessionsIn(owners, order)[..|order| - 1] == SessionsIn(owners, shorter);
      assert SessionsIn(owners, order)[|order| - 1] == owners[n];
      assert shorter + [n] == order;
      assert n in order;
      OneMoreTurn(w, owners, heads, shorter, n, refused);
    }
  }

  lemma BatchParts(w: World, owners: seq<Session>, heads: seq<Write>)
    requires IsBatch(w, owners, heads)
    ensures |heads| == |owners| && forall i :: 0 <= i < |owners| ==> owners[i] in w.players
  {
    hide Eligible, BundleOf, Top;
  }

  lemma TurnedNone(w: World, owners: seq<Session>, heads: seq<Write>, refused: seq<nat>)
    requires |heads| == |owners| && forall i :: 0 <= i < |owners| ==> owners[i] in w.players
    ensures Turned(w, owners, heads, [], refused) == w
  {
    hide Outcomes, CountsOf, AccountsOf;
  }

  lemma RefusedSoFar(w: World, heads: seq<Write>, order: seq<nat>, refused: seq<nat>)
    requires order != [] && Distinct(order)
    requires forall n :: n in order ==>
               (n in refused <==> n in RefusedOf(w.workers, w.queueMax, Queues(w.jobs, w.bundles), heads, order))
    ensures var shorter := order[..|order| - 1];
            && Distinct(shorter) && order[|order| - 1] !in shorter
            && forall n :: n in shorter ==>
                 (n in refused <==> n in RefusedOf(w.workers, w.queueMax, Queues(w.jobs, w.bundles), heads, shorter))
  {
    hide Fits, PushedAll;
    var shorter := order[..|order| - 1];
    assert forall n :: n in shorter ==> n in order;
  }

  lemma {:induction false} RefusedIn(workers: nat, queueMax: nat, q: Queues, heads: seq<Write>, order: seq<nat>)
    ensures forall n :: n in RefusedOf(workers, queueMax, q, heads, order) ==> n in order
  {
    hide Fits, PushedAll;
    if order != [] { RefusedIn(workers, queueMax, q, heads, order[..|order| - 1]); }
  }

  /** One more head's turn is one more player's period. */
  lemma OneMoreTurn(w: World, owners: seq<Session>, heads: seq<Write>, done: seq<nat>, n: nat, refused: seq<nat>)
    requires IsBatch(w, owners, heads) && n < |owners| && n !in done && forall i :: i in done ==> i < |owners|
    requires n in refused <==> n in RefusedOf(w.workers, w.queueMax, Queues(w.jobs, w.bundles), heads, done + [n])
    requires |heads| == |owners| && forall i :: 0 <= i < |owners| ==> owners[i] in w.players
    ensures PeriodOne(Turned(w, owners, heads, done, refused), owners[n])
            == Turned(w, owners, heads, done + [n], refused)
  {
    hide Put, PushedAll, Outcomes, CountsOf, AccountsOf, RefusedOf, TakenOf, SendBundle, Pushed, Fits, PeriodOne,
         ShouldSave, Eligible, IsBatch, BundleOf, Top, Prepared, Committed, Aborted, With;
    var u := Turned(w, owners, heads, done, refused);
    var s, x := owners[n], heads[n];
    TurnSees(w, owners, heads, done, n, refused);
    TurnCounts(w, owners, heads, done, n, refused);
    var q0 := Queues(w.jobs, w.bundles);
    OneTurn(w.workers, w.queueMax, q0, heads, done, n);
    RefusedIn(w.workers, w.queueMax, q0, heads, done);
    WithMore(w, PushedAll(w.workers, w.queueMax, q0, heads, done),
             Put(w.players, owners, Outcomes(w.players, owners, heads, refused), done),
             Put(w.issued, AccountsOf(heads), CountsOf(w, heads), TakenOf(done, refused)), |TakenOf(done, refused)|,
             PushedAll(w.workers, w.queueMax, q0, heads, done + [n]),
             Put(w.players, owners, Outcomes(w.players, owners, heads, refused), done + [n]),
             Put(w.issued, AccountsOf(heads), CountsOf(w, heads), TakenOf(done + [n], refused)));
    var fits := Fits(w.workers, w.queueMax, Queues(u.jobs, u.bundles), x);
    assert fits <==> n !in refused;
    PutMore(w.players, owners, Outcomes(w.players, owners, heads, refused), done, n);
    OutcomeIs(w.players, owners, heads, refused, n);
    TakenMore(done, n, refused);
    SentOrNot(u, s, x, fits);
    PutMore(w.issued, AccountsOf(heads), CountsOf(w, heads), TakenOf(done, refused), n);
    CountIs(w, heads, n);
    if fits {
      assert TakenOf(done + [n], refused) == TakenOf(done, refused) + [n];
    } else {
      assert TakenOf(done + [n], refused) == TakenOf(done, refused);
    }
  }

  lemma PutMore<K, V>(base: map<K, V>, keys: seq<K>, vals: seq<V>, done: seq<nat>, n: nat)
    requires |keys| == |vals| && n < |keys|
    ensures Put(base, keys, vals, done + [n]) == Put(base, keys, vals, done)[keys[n] := vals[n]]
  {
    assert (done + [n])[..|done|] == done;
  }

  lemma OutcomeIs(players: map<Session, Player>, owners: seq<Session>, heads: seq<Write>, refused: seq<nat>, n: nat)
    requires |heads| == |owners| && (forall i :: 0 <= i < |owners| ==> owners[i] in players) && n < |owners|
    ensures Outcomes(players, owners, heads, refused)[n]
            == if n in refused then Aborted(Prepared(players[owners[n]]))
                else Committed(Prepared(players[owners[n]]), heads[n].bundleNo)
  {
    hide Aborted, Prepared, Committed;
  }

  lemma TakenMore(done: seq<nat>, n: nat, refused: seq<nat>)
    ensures TakenOf(done + [n], refused) == TakenOf(done, refused) + if n in refused then [] else [n]
  {
    assert (done + [n])[..|done|] == done;
  }

  lemma CountIs(w: World, heads: seq<Write>, n: nat)
    requires n < |heads|
    ensures AccountsOf(heads)[n] == heads[n].account && CountsOf(w, heads)[n] == Issued(w, heads[n].account) + 1
  {
  }

  /** What the state looks like to the player whose turn it is: untouched so far. */
  lemma TurnSees(w: World, owners: seq<Session>, heads: seq<Write>, done: seq<nat>, n: nat, refused: seq<nat>)
    requires IsBatch(w, owners, heads) && n < |owners| && n !in done && forall i :: i in done ==> i < |owners|
    requires |heads| == |owners| && forall i :: 0 <= i < |owners| ==> owners[i] in w.players
    ensures var u, s := Turned(w, owners, heads, done, refused), owners[n];
            && s in u.players && u.players[s] == w.players[s] && Eligible(w.players[s])
            && heads[n] == BundleOf(w.players[s], s, None, Top(u, w.players[s].account))
            && u.workers == w.workers && u.queueMax == w.queueMax
  {
    hide Put, PushedAll, Outcomes, CountsOf, Eligible, BundleOf, AccountsOf, TakenOf, Prepared, Committed, Aborted;
    PutIs(w.players, owners, Outcomes(w.players, owners, heads, refused), done);
    forall i | i in done ensures owners[i] != owners[n] {
      if i < n { assert owners[i] != owners[n]; } else { assert owners[n] != owners[i]; }
    }
    assert Top(Turned(w, owners, heads, done, refused), w.players[owners[n]].account)
           == Top(w, w.players[owners[n]].account);
  }

  lemma TurnCounts(w: World, owners: seq<Session>, heads: seq<Write>, done: seq<nat>, n: nat, refused: seq<nat>)
    requires IsBatch(w, owners, heads) && n < |owners| && n !in done && forall i :: i in done ==> i < |owners|
    requires |heads| == |owners| && forall i :: 0 <= i < |owners| ==> owners[i] in w.players
    ensures Issued(Turned(w, owners, heads, done, refused), heads[n].account) == Issued(w, heads[n].account)
  {
    hide Put, PushedAll, Outcomes, CountsOf, Eligible, BundleOf, TakenOf, Prepared, Committed, Aborted;
    TakenAre(done, refused);
    var keys := AccountsOf(heads);
    forall i | i in TakenOf(done, refused) ensures i < |owners| && keys[i] != heads[n].account {
      assert i in done;
      if i < n { assert heads[i].account != heads[n].account; } else { assert heads[n].account != heads[i].account; }
    }
    PutIs(w.issued, keys, CountsOf(w, heads), TakenOf(done, refused));
  }

  lemma PushSaveIs(u: World, x: Write)
    ensures PushSave(u, x) == u.(jobs := u.jobs + [Save(x)], bundles := Bump(u.bundles, Route(u, x.account), 1),
                                 issued := u.issued[x.account := Issued(u, x.account) + 1])
  {
    hide Bump, Route;
  }

  lemma SentOrNot(u: World, s: Session, x: Write, fits: bool)
    requires s in u.players && Eligible(u.players[s])
    requires x == BundleOf(u.players[s], s, None, Top(u, u.players[s].account))
    requires fits == Fits(u.workers, u.queueMax, Queues(u.jobs, u.bundles), x)
    ensures var p := u.players[s];
            var q := Pushed(u.workers, u.queueMax, Queues(u.jobs, u.bundles), x);
            PeriodOne(u, s) ==
              if fits then
                u.(jobs := q.jobs, bundles := q.bundles, players := u.players[s := Committed(Prepared(p), x.bundleNo)],
                   issued := u.issued[x.account := Issued(u, x.account) + 1], inflight := u.inflight + 1)
              else u.(players := u.players[s := Aborted(Prepared(p))])
    ensures !fits ==> Pushed(u.workers, u.queueMax, Queues(u.jobs, u.bundles), x) == Queues(u.jobs, u.bundles)
  {
    hide BundleOf, Top, Prepared, Committed, Aborted, ShouldSave, Issued, SlotIndex, PushSave, Bump;
    PushSaveIs(u, x);
    assert SaveFits(u, x) == fits;
  }

  // ----- collecting the batch

  /** The first part of the period: the players in `owners` are prepared, those in `skipped` have had their period. */
  ghost predicate Collected(w: World, players: map<Session, Player>, seen: seq<Session>, owners: seq<Session>,
                            skipped: seq<Session>, heads: seq<Write>)
  {
    var a := PeriodAll(w, skipped);
    && IsBatch(w, owners, heads)
    && a == w.(players := a.players) && a.players.Keys == w.players.Keys && players.Keys == w.players.Keys
    && (forall s :: s in seen <==> s in owners || s in skipped)
    && (forall s :: s in owners ==> s !in skipped)
    && Distinct(skipped)
    && (forall s :: s in w.players && s !in skipped ==> a.players[s] == w.players[s])
    && (forall s :: s in w.players ==> players[s] == if s in owners then Prepared(w.players[s]) else a.players[s])
  }

  lemma NoneCollected(w: World)
    ensures Collected(w, w.players, [], [], [], [])
  {
  }

  lemma CollectedOwner(w: World, players: map<Session, Player>, seen: seq<Session>, owners: seq<Session>,
                       skipped: seq<Session>, heads: seq<Write>, s: Session, x: Write)
    requires Collected(w, players, seen, owners, skipped, heads) && s in w.players && s !in seen
             && Eligible(w.players[s])
    requires x == BundleOf(w.players[s], s, None, Top(w, w.players[s].account))
    requires forall t :: t in seen && t in w.players ==> w.players[t].account != w.players[s].account
    ensures s in players && players[s] == w.players[s]
    ensures Collected(w, players[s := Prepared(w.players[s])], seen + [s], owners + [s], skipped, heads + [x])
  {
    hide Eligible, Prepared, Top, PeriodAll, RowsOf;
    assert forall i :: 0 <= i < |heads| ==> heads[i].account == w.players[owners[i]].account && owners[i] in owners;
  }

  lemma CollectedSkip(w: World, players: map<Session, Player>, seen: seq<Session>, owners: seq<Session>,
                      skipped: seq<Session>, heads: seq<Write>, s: Session)
    requires Collected(w, players, seen, owners, skipped, heads) && s in w.players && s !in seen
             && !Eligible(w.players[s])
    ensures s in players && players[s] == w.players[s]
    ensures Collected(w, players[s := Looked(w.players[s])], seen + [s], owners, skipped + [s], heads)
  {
    hide IsBatch, Prepared, Looked, PeriodOne, Eligible;
    var a := PeriodAll(w, skipped);
    assert (skipped + [s])[..|skipped|] == skipped;
    assert a.players[s] == w.players[s];
    LookedIs(a, s);
    BatchOwners(w, owners, heads);
  }

  lemma BatchOwners(w: World, owners: seq<Session>, heads: seq<Write>)
    requires IsBatch(w, owners, heads)
    ensures forall s :: s in owners ==> s in w.players
  {
    hide Eligible, BundleOf, Top;
  }

  /** What the period does to a player it makes no bundle for. */
  function Looked(p: Player): Player {
    if ShouldSave(p) && !p.flight.paired && p.flight.bundleNo != 0 then p.(flight := p.flight.(again := true)) else p
  }

  lemma LookedIs(w: World, s: Session)
    requires s in w.players && !Eligible(w.players[s])
    ensures PeriodOne(w, s) == w.(players := w.players[s := Looked(w.players[s])])
  {
    hide ShouldSave;
    assert w.players[s := w.players[s]] == w.players;
  }

  // ----- confirming the batch

  lemma CollectedBatch(w: World, players: map<Session, Player>, seen: seq<Session>, owners: seq<Session>,
                       skipped: seq<Session>, heads: seq<Write>)
    requires Collected(w, players, seen, owners, skipped, heads)
    ensures IsBatch(PeriodAll(w, skipped), owners, heads)
  {
    hide Eligible, RowsOf, PeriodAll;
    var a := PeriodAll(w, skipped);
    assert forall b :: Top(a, b) == Top(w, b);
    forall i | 0 <= i < |owners| ensures a.players[owners[i]] == w.players[owners[i]] { assert owners[i] in owners; }
  }

  lemma SameElements(x: seq<nat>, y: seq<nat>)
    requires Distinct(x) && Distinct(y) && forall n :: n in x <==> n in y
    ensures |x| == |y|
  {
    SizeOf(x);
    SizeOf(y);
    assert ToSet(x) == ToSet(y);
  }

  function ToSet(x: seq<nat>): set<nat> { set n | n in x }

  lemma {:induction false} SizeOf(x: seq<nat>)
    requires Distinct(x)
    ensures |ToSet(x)| == |x|
  {
    if x == [] {
      assert ToSet(x) == {};
    } else {
      var y, e := x[..|x| - 1], x[|x| - 1];
      SizeOf(y);
      assert x == y + [e];
      assert ToSet(x) == ToSet(y) + {e};
    }
  }

  lemma {:induction false} TakenDistinct(order: seq<nat>, refused: seq<nat>)
    requires Distinct(order)
    ensures Distinct(TakenOf(order, refused))
  {
    if order != [] {
      var shorter := order[..|order| - 1];
      TakenDistinct(shorter, refused);
      TakenAre(shorter, refused);
      assert forall n :: n in shorter ==> n != order[|order| - 1];
      DistinctConcat(TakenOf(shorter, refused), if order[|order| - 1] in refused then [] else [order[|order| - 1]]);
    }
  }

  /** The indices up to `k` that were taken, in the order of the batch. */
  function UpTo(k: nat): seq<nat> { seq(k, i requires 0 <= i < k => i) }

  lemma UpToHas(k: nat)
    ensures Distinct(UpTo(k)) && forall n: nat :: n in UpTo(k) <==> n < k
  {
    forall n: nat | n < k ensures n in UpTo(k) { assert UpTo(k)[n] == n; }
  }

  /** However the outcomes were written down, the state is that of one player after the other. */
  lemma BatchDone(w: World, players: map<Session, Player>, seen: seq<Session>, owners: seq<Session>,
                  skipped: seq<Session>, heads: seq<Write>, v: World, refused: seq<nat>)
    requires Collected(w, players, seen, owners, skipped, heads) && w.workers > 0
    requires |heads| == |owners| && forall i :: 0 <= i < |owners| ==> owners[i] in w.players
    requires var order := BatchOrder(w.workers, heads, w.workers);
             var q := Queues(w.jobs, w.bundles);
             refused == RefusedOf(w.workers, w.queueMax, q, heads, order)
    requires var taken := TakenOf(UpTo(|owners|), refused);
             v == With(w, PushedAll(w.workers, w.queueMax, Queues(w.jobs, w.bundles), heads,
                                    BatchOrder(w.workers, heads, w.workers)),
                       Put(players, owners, Outcomes(w.players, owners, heads, refused), refused + taken),
                       Put(w.issued, AccountsOf(heads), CountsOf(w, heads), taken), |taken|)
    ensures (forall i ::
               0 <= i < |BatchOrder(w.workers, heads, w.workers)| ==>
                 BatchOrder(w.workers, heads, w.workers)[i] < |owners|)
    ensures v == PeriodAll(w, skipped + SessionsIn(owners, BatchOrder(w.workers, heads, w.workers)))
  {
    hide IsBatch, Put, PushedAll, Outcomes, CountsOf, AccountsOf, RefusedOf, TakenOf, Prepared, PeriodOne, With,
         Collected, BatchOrder, PeriodAll;
    var order := BatchOrder(w.workers, heads, w.workers);
    TurnsCover(w.workers, heads, w.workers);
    AllTurns(w, heads);
    forall i | 0 <= i < |order| ensures order[i] < |owners| { assert order[i] in order; }
    var a := PeriodAll(w, skipped);
    CollectedBatch(w, players, seen, owners, skipped, heads);
    SkippedParts(w, players, seen, owners, skipped, heads);
    BatchIsFold(a, owners, heads, order, refused);
    PeriodAllConcat(w, skipped, SessionsIn(owners, order));
    RefusedIn(w.workers, w.queueMax, Queues(w.jobs, w.bundles), heads, order);
    TakenAre(order, refused);
    var all := UpTo(|owners|);
    TakenAre(all, refused);
    TakenDistinct(order, refused);
    TakenDistinct(all, refused);
    UpToHas(|owners|);
    SameElements(TakenOf(order, refused), TakenOf(all, refused));
    assert Outcomes(a.players, owners, heads, refused) == Outcomes(w.players, owners, heads, refused) by {
      SameOutcomes(w.players, a.players, owners, heads, refused);
    }
    assert CountsOf(a, heads) == CountsOf(w, heads) by { SameCounts(w, a, heads); }
    DistinctBatch(a, owners, heads);
    var x := refused + TakenOf(all, refused);
    assert forall n: nat :: n < |owners| ==> n in x;
    forall s | forall n :: n in x ==> owners[n] != s
      ensures (s in players <==> s in a.players) && (s in players ==> players[s] == a.players[s])
    {
      assert forall n :: 0 <= n < |owners| ==> n in x;
    }
    PutSame(players, a.players, owners, Outcomes(w.players, owners, heads, refused), refused + TakenOf(all, refused),
            order);
    PutSame(w.issued, w.issued, AccountsOf(heads), CountsOf(w, heads), TakenOf(all, refused), TakenOf(order, refused));
    SkippedWith(w, a, PushedAll(w.workers, w.queueMax, Queues(w.jobs, w.bundles), heads, order),
                Put(a.players, owners, Outcomes(w.players, owners, heads, refused), order),
                Put(w.issued, AccountsOf(heads), CountsOf(w, heads), TakenOf(order, refused)),
                    |TakenOf(order, refused)|);
  }

  lemma AllTurns(w: World, heads: seq<Write>)
    requires w.workers > 0
    ensures forall n: nat :: n < |heads| ==> SlotIndex(w.workers, heads[n].account) < w.workers
  {
  }

  lemma SkippedParts(w: World, players: map<Session, Player>, seen: seq<Session>, owners: seq<Session>,
                     skipped: seq<Session>, heads: seq<Write>)
    requires Collected(w, players, seen, owners, skipped, heads)
    ensures var a := PeriodAll(w, skipped);
            && a == w.(players := a.players)
            && (forall i ::
                  0 <= i < |owners| ==>
                    owners[i] in a.players && owners[i] in w.players && a.players[owners[i]] == w.players[owners[i]])
            && (forall s :: (forall n :: 0 <= n < |owners| ==> owners[n] != s) ==>
                  (s in players <==> s in a.players) && (s in players ==> players[s] == a.players[s]))
  {
    hide IsBatch, PeriodAll, Prepared;
    BatchOwners(w, owners, heads);
    var a := PeriodAll(w, skipped);
    forall i | 0 <= i < |owners|
      ensures owners[i] in a.players && owners[i] in w.players && a.players[owners[i]] == w.players[owners[i]]
    {
      var s := owners[i];
      assert s in owners;
    }
  }

  lemma SameOutcomes(x: map<Session, Player>, y: map<Session, Player>, owners: seq<Session>, heads: seq<Write>,
                     refused: seq<nat>)
    requires |heads| == |owners| && forall i ::
               0 <= i < |owners| ==> owners[i] in x && owners[i] in y && x[owners[i]] == y[owners[i]]
    ensures Outcomes(x, owners, heads, refused) == Outcomes(y, owners, heads, refused)
  {
    hide Aborted, Prepared, Committed;
  }

  lemma SameCounts(w: World, v: World, heads: seq<Write>)
    requires v.issued == w.issued
    ensures CountsOf(v, heads) == CountsOf(w, heads)
  {
  }

  lemma DistinctBatch(w: World, owners: seq<Session>, heads: seq<Write>)
    requires IsBatch(w, owners, heads)
    ensures forall i, j :: 0 <= i < j < |owners| ==> owners[i] != owners[j]
    ensures forall i, j :: 0 <= i < j < |heads| ==> AccountsOf(heads)[i] != AccountsOf(heads)[j]
  {
    hide Eligible, BundleOf, Top;
  }

  lemma SkippedWith(w: World, a: World, q: Queues, ps: map<Session, Player>, counts: map<Account, nat>, n: nat)
    requires a == w.(players := a.players)
    ensures With(a, q, ps, counts, n) == With(w, q, ps, counts, n)
  {
  }
}
