/** Spawn points and live monsters of one zone. */
module Monsters {
  import opened Items

  const FRAME_END: nat := 0xFFFF_FFFF_FFFF_FFFF

  /** A row of the spawn table: `count` points, refilled every `regenFrames` frames, or once when that is 0. */
  datatype Region = Region(monsterId: int, count: nat, regenFrames: nat)

  datatype RegionState = RegionState(taken: seq<bool>, next: nat, reviveDue: bool)

  datatype Monster = Monster(id: nat, region: nat, point: nat)

  /** `despawned` and `vanished` only record how often a monster left the list. */
  datatype State = State(regions: seq<RegionState>, monsters: seq<Monster>, cleared: bool,
                         spawned: nat, revived: nat, despawned: nat, vanished: nat)

  predicate At(s: State, r: nat, p: nat) {
    r < |s.regions| && p < |s.regions[r].taken| && s.regions[r].taken[p]
  }

  predicate Owns(s: State, i: nat, r: nat, p: nat) {
    i < |s.monsters| && s.monsters[i].region == r && s.monsters[i].point == p
  }

  /** A point is taken exactly when a live monster owns it, and then one monster only; every monster ever spawned was
      despawned, vanished or is alive. */
  ghost predicate Sound(table: seq<Region>, s: State) {
    && |s.regions| == |table|
    && (forall r {:trigger s.regions[r]} :: 0 <= r < |table| ==> |s.regions[r].taken| == table[r].count)
    && (forall i {:trigger s.monsters[i]} :: 0 <= i < |s.monsters| ==> At(s, s.monsters[i].region, s.monsters[i].point))
    && (forall r, p :: At(s, r, p) ==> exists i :: Owns(s, i, r, p))
    && (forall i, j :: 0 <= i < j < |s.monsters| ==>
          s.monsters[i].id != s.monsters[j].id
              && (s.monsters[i].region != s.monsters[j].region || s.monsters[i].point != s.monsters[j].point))
    && s.spawned == s.despawned + s.vanished + |s.monsters|
  }

  /** The points from `p` on that no monster owns. */
  function Vacant(taken: seq<bool>, p: nat): nat
    decreases |taken| - p
  {
    if p >= |taken| then 0 else (if taken[p] then 0 else 1) + Vacant(taken, p + 1)
  }

  predicate Due(g: RegionState, frame: nat) {
    frame >= g.next
  }

  /** Vacant points, from region `r` on, of the regions a tick at `frame` fills; with `byRevive`, of those asked to
      revive. */
  function Fills(regions: seq<RegionState>, frame: nat, byRevive: bool, r: nat): nat
    decreases |regions| - r
  {
    if r >= |regions| then 0
    else
      var g := regions[r];
      (if g.reviveDue || (!byRevive && Due(g, frame)) then Vacant(g.taken, 0) else 0)
          + Fills(regions, frame, byRevive, r + 1)
  }

  /** The next refill after a refill at `frame`; the sum is a 64-bit one. */
  function After(region: Region, frame: nat): nat {
    if region.regenFrames == 0 then FRAME_END else (frame + region.regenFrames) % (FRAME_END + 1)
  }

  predicate All(taken: seq<bool>, on: bool) {
    forall p :: 0 <= p < |taken| ==> taken[p] == on
  }

  /** What a pass makes of one region: all of it taken when due or asked to revive, the clock moved only when due. */
  ghost predicate Passed(region: Region, g: RegionState, h: RegionState, frame: nat) {
    && !h.reviveDue
    && h.next == (if Due(g, frame) then After(region, frame) else g.next)
    && |h.taken| == |g.taken|
    && (if Due(g, frame) || g.reviveDue then All(h.taken, true) else h.taken == g.taken)
  }

  datatype Event = Tick(frame: nat) | Despawn(monster: Monster) | Revive(monsterId: int) | Clear

  /** New monsters joined the list's end, one for each point taken since and all different. */
  ghost predicate Born(s: State, t: State) {
    && s.monsters <= t.monsters && t.spawned == s.spawned + |t.monsters| - |s.monsters|
    && (forall i {:trigger t.monsters[i]} :: |s.monsters| <= i < |t.monsters| ==>
          var m := t.monsters[i]; At(t, m.region, m.point) && !At(s, m.region, m.point))
    && (forall r, p :: At(t, r, p) && !At(s, r, p) ==> exists i :: |s.monsters| <= i && Owns(t, i, r, p))
    && (forall i, j :: 0 <= i < j < |t.monsters| && |s.monsters| <= j ==>
          t.monsters[i].id != t.monsters[j].id
              && (t.monsters[i].region != t.monsters[j].region || t.monsters[i].point != t.monsters[j].point))
  }

  /** Every point vacated, and no mark left. */
  ghost predicate Vanished(s: State, t: State) {
    && |t.regions| == |s.regions|
    && forall r :: 0 <= r < |t.regions| ==>
         && !t.regions[r].reviveDue && t.regions[r].next == s.regions[r].next
         && |t.regions[r].taken| == |s.regions[r].taken| && All(t.regions[r].taken, false)
  }

  ghost predicate TickStep(table: seq<Region>, s: State, t: State, frame: nat) {
    if s.cleared then
      && t == s.(regions := t.regions, monsters := [], vanished := s.vanished + |s.monsters|)
      && (if s.monsters == [] then t == s else Vanished(s, t))
    else
      && !t.cleared && t.despawned == s.despawned && t.vanished == s.vanished
      && Born(s, t)
      && |t.regions| == |s.regions| == |table|
      && (forall r :: 0 <= r < |s.regions| ==> Passed(table[r], s.regions[r], t.regions[r], frame))
      && t.spawned == s.spawned + Fills(s.regions, frame, false, 0)
      && t.revived == s.revived + Fills(s.regions, frame, true, 0)
  }

  /** `t` is `s` after the `k`th monster left the list: the last one took its place. */
  ghost predicate Popped(s: State, t: State, k: nat) {
    && k < |s.monsters|
    && At(s, s.monsters[k].region, s.monsters[k].point)
    && t == s.(monsters := s.monsters[k := s.monsters[|s.monsters| - 1]][..|s.monsters| - 1],
               regions := Taken(s.regions, s.monsters[k], false), despawned := s.despawned + 1)
  }

  ghost predicate DespawnStep(s: State, t: State, m: Monster) {
    if m in s.monsters then exists k: nat :: Popped(s, t, k) && s.monsters[k] == m else t == s
  }

  function Taken(regions: seq<RegionState>, m: Monster, on: bool): seq<RegionState>
    requires m.region < |regions| && m.point < |regions[m.region].taken|
  {
    regions[m.region := regions[m.region].(taken := regions[m.region].taken[m.point := on])]
  }

  ghost predicate ReviveStep(table: seq<Region>, s: State, t: State, monsterId: int) {
    && t == s.(regions := t.regions) && |t.regions| == |s.regions| == |table|
    && forall r :: 0 <= r < |table| ==>
         t.regions[r] == if !s.cleared && table[r].monsterId == monsterId then s.regions[r].(reviveDue := true)
             else s.regions[r]
  }

  ghost predicate Step(table: seq<Region>, s: State, t: State, e: Event) {
    && (e.Tick? ==> TickStep(table, s, t, e.frame))
    && (e.Despawn? ==> DespawnStep(s, t, e.monster))
    && (e.Revive? ==> ReviveStep(table, s, t, e.monsterId))
    && (e.Clear? ==> t == s.(cleared := true))
  }

  function Initial(table: seq<Region>): State {
    State(seq(|table|, r requires 0 <= r < |table| => RegionState(seq(table[r].count, _ => false), 0, false)), [],
          false, 0, 0, 0, 0)
  }

  /** The vacant points of the regions of `monsterId`, from region `r` on. */
  function VacantOf(table: seq<Region>, regions: seq<RegionState>, monsterId: int, r: nat): nat
    requires |table| == |regions|
    decreases |table| - r
  {
    if r >= |table| then 0
    else
      (if table[r].monsterId == monsterId then Vacant(regions[r].taken, 0) else 0)
      + VacantOf(table, regions, monsterId, r + 1)
  }

  // ----- every operation keeps the bijection

  lemma InitialSound(table: seq<Region>)
    ensures Sound(table, Initial(table))
  {
  }

  lemma Widths(table: seq<Region>, s: State, r: nat)
    requires Sound(table, s) && r < |table|
    ensures |s.regions| == |table| && |s.regions[r].taken| == table[r].count
  {
  }

  lemma SpawnKeeps(table: seq<Region>, s: State, t: State, m: Monster)
    requires Sound(table, s) && m.region < |s.regions| && m.point < |s.regions[m.region].taken|
             && !At(s, m.region, m.point)
    requires forall i :: 0 <= i < |s.monsters| ==> s.monsters[i].id < m.id
    requires t == s.(monsters := s.monsters + [m], regions := Taken(s.regions, m, true), spawned := s.spawned + 1)
    ensures Sound(table, t)
  {
    forall i | 0 <= i < |t.monsters| ensures At(t, t.monsters[i].region, t.monsters[i].point) {
      assert i < |s.monsters| ==> t.monsters[i] == s.monsters[i];
    }
    forall r, p | At(t, r, p) ensures exists i :: Owns(t, i, r, p) {
      if r == m.region && p == m.point {
        assert Owns(t, |s.monsters|, r, p);
      } else {
        assert At(s, r, p);
        var i :| Owns(s, i, r, p);
        assert Owns(t, i, r, p);
      }
    }
  }

  lemma SwapPop<T>(xs: seq<T>, k: nat)
    requires k < |xs|
    ensures multiset(xs[k := xs[|xs| - 1]][..|xs| - 1]) == multiset(xs) - multiset{xs[k]}
  {
    var last := |xs| - 1;
    assert xs == xs[..last] + [xs[last]];
    var ys := xs[k := xs[last]];
    assert ys == ys[..last] + [xs[last]];
    assert multiset(ys) == multiset(xs) - multiset{xs[k]} + multiset{xs[last]};
  }

  lemma PoppedPoints(s: State, t: State, k: nat, r: nat, p: nat)
    requires Popped(s, t, k)
    ensures At(t, r, p) <==> At(s, r, p) && !(r == s.monsters[k].region && p == s.monsters[k].point)
  {
  }

  lemma PoppedOwner(table: seq<Region>, s: State, t: State, k: nat, r: nat, p: nat) returns (i: nat)
    requires Sound(table, s) && Popped(s, t, k) && At(t, r, p)
    ensures Owns(t, i, r, p)
  {
    PoppedPoints(s, t, k, r, p);
    i :| Owns(s, i, r, p);
    if i == |s.monsters| - 1 {
      i := k;
    }
  }

  lemma PoppedMonster(table: seq<Region>, s: State, t: State, k: nat, i: nat)
    requires Sound(table, s) && Popped(s, t, k) && i < |t.monsters|
    ensures At(t, t.monsters[i].region, t.monsters[i].point)
  {
    var j := if i == k then |s.monsters| - 1 else i;
    assert t.monsters[i] == s.monsters[j];
    PoppedPoints(s, t, k, t.monsters[i].region, t.monsters[i].point);
  }

  lemma PoppedRest(table: seq<Region>, s: State, t: State, k: nat)
    requires Sound(table, s) && Popped(s, t, k)
    ensures |t.regions| == |table|
    ensures forall r {:trigger t.regions[r]} :: 0 <= r < |table| ==> |t.regions[r].taken| == table[r].count
    ensures forall i, j :: 0 <= i < j < |t.monsters| ==>
              t.monsters[i].id != t.monsters[j].id
                  && (t.monsters[i].region != t.monsters[j].region || t.monsters[i].point != t.monsters[j].point)
    ensures t.spawned == t.despawned + t.vanished + |t.monsters|
  {
  }

  lemma DespawnKeeps(table: seq<Region>, s: State, t: State, k: nat)
    requires Sound(table, s) && Popped(s, t, k)
    ensures Sound(table, t)
  {
    hide At, Owns, Popped;
    PoppedRest(table, s, t, k);
    forall r, p | At(t, r, p) ensures exists i :: Owns(t, i, r, p) {
      var i := PoppedOwner(table, s, t, k, r, p);
    }
    forall i | 0 <= i < |t.monsters| ensures At(t, t.monsters[i].region, t.monsters[i].point) {
      PoppedMonster(table, s, t, k, i);
    }
  }

  /** A despawned monster is the one that leaves, and its point the one that is freed. */
  lemma DespawnTakesOne(s: State, t: State, m: Monster)
    requires DespawnStep(s, t, m) && m in s.monsters
    ensures multiset(t.monsters) == multiset(s.monsters) - multiset{m} && t.despawned == s.despawned + 1
    ensures At(s, m.region, m.point)
    ensures forall r, p :: At(t, r, p) <==> At(s, r, p) && !(r == m.region && p == m.point)
  {
    var k: nat :| Popped(s, t, k) && s.monsters[k] == m;
    SwapPop(s.monsters, k);
    forall r, p ensures At(t, r, p) <==> At(s, r, p) && !(r == m.region && p == m.point) {
      PoppedPoints(s, t, k, r, p);
    }
  }

  /** Clocks and marks may change, points and monsters stay. */
  lemma MarksKeep(table: seq<Region>, s: State, t: State)
    requires Sound(table, s) && |t.regions| == |s.regions|
    requires forall r :: 0 <= r < |s.regions| ==> t.regions[r].taken == s.regions[r].taken
    requires t == s.(regions := t.regions, cleared := t.cleared, revived := t.revived)
    ensures Sound(table, t)
  {
    forall r, p | At(t, r, p) ensures exists i :: Owns(t, i, r, p) {
      assert At(s, r, p);
      var i :| Owns(s, i, r, p);
      assert Owns(t, i, r, p);
    }
    forall i | 0 <= i < |t.monsters| ensures At(t, t.monsters[i].region, t.monsters[i].point) {
      assert At(s, s.monsters[i].region, s.monsters[i].point);
    }
  }

  lemma BornHere(table: seq<Region>, s: State, t: State)
    requires Sound(table, s) && Sound(table, t) && s.monsters <= t.monsters
    requires t.despawned == s.despawned && t.vanished == s.vanished
    ensures Born(s, t)
  {
    assert forall j {:trigger s.monsters[j]} {:trigger t.monsters[j]} ::
             0 <= j < |s.monsters| ==> t.monsters[j] == s.monsters[j];
    assert forall j: nat, r, p :: Owns(s, j, r, p) ==> Owns(t, j, r, p);
    assert forall i: nat, r, p :: i < |s.monsters| && Owns(t, i, r, p) ==> At(s, r, p);
  }

  class MonsterManager {
    const table: seq<Region>
    var regions: seq<RegionState>
    var monsters: seq<Monster>
    var cleared: bool
    var spawned: nat
    var revived: nat
    ghost var despawned: nat
    ghost var vanished: nat

    ghost function View(): State
      reads this
    {
      State(regions, monsters, cleared, spawned, revived, despawned, vanished)
    }

    constructor (table: seq<Region>)
      ensures this.table == table && View() == Initial(table) && Sound(table, View())
    {
      this.table := table;
      regions := seq(|table|, r requires 0 <= r < |table| => RegionState(seq(table[r].count, _ => false), 0, false));
      monsters, cleared, spawned, revived, despawned, vanished := [], false, 0, 0, 0, 0;
    }

    method Spawn(r: nat, p: nat, id: nat)
      requires Sound(table, View())
      requires r < |regions| && p < |regions[r].taken| && !regions[r].taken[p]
      requires forall i :: 0 <= i < |monsters| ==> monsters[i].id < id
      modifies `regions, `monsters, `spawned
      ensures Sound(table, View())
      ensures monsters == old(monsters) + [Monster(id, r, p)] && spawned == old(spawned) + 1
      ensures regions == old(regions)[r := old(regions)[r].(taken := old(regions)[r].taken[p := true])]
    {
      monsters := monsters + [Monster(id, r, p)];
      regions := regions[r := regions[r].(taken := regions[r].taken[p := true])];
      spawned := spawned + 1;
      SpawnKeeps(table, old(View()), View(), Monster(id, r, p));
    }

    /** One monster for every vacant point of region `r`, with actor ids from `free` up. */
    method FillRegion(r: nat, revive: bool, free: nat) returns (next: nat)
      requires Sound(table, View()) && r < |regions| == |table|
      requires forall i :: 0 <= i < |monsters| ==> monsters[i].id < free
      modifies `regions, `monsters, `spawned, `revived
      ensures Sound(table, View()) && free <= next && forall i :: 0 <= i < |monsters| ==> monsters[i].id < next
      ensures old(monsters) <= monsters
      ensures |regions| == |old(regions)| && regions == old(regions)[r := old(regions)[r].(taken := regions[r].taken)]
      ensures All(regions[r].taken, true) && |regions[r].taken| == |old(regions)[r].taken|
      ensures spawned == old(spawned) + Vacant(old(regions)[r].taken, 0)
      ensures revived == old(revived) + if revive then Vacant(old(regions)[r].taken, 0) else 0
    {
      hide Sound;
      next := free;
      ghost var was := regions;
      Widths(table, View(), r);
      var p := 0;
      while p < table[r].count
        invariant p <= table[r].count == |was[r].taken| && free <= next
        invariant |regions| == |was| && regions == was[r := was[r].(taken := regions[r].taken)]
        invariant |regions[r].taken| == |was[r].taken|
        invariant forall q :: 0 <= q < p ==> regions[r].taken[q]
        invariant forall q :: p <= q < |was[r].taken| ==> regions[r].taken[q] == was[r].taken[q]
        invariant Sound(table, View()) && forall i :: 0 <= i < |monsters| ==> monsters[i].id < next
        invariant old(monsters) <= monsters
        invariant spawned + Vacant(was[r].taken, p) == old(spawned) + Vacant(was[r].taken, 0)
        invariant revived + (if revive then Vacant(was[r].taken, p) else 0) == old(revived) + if revive
                  then Vacant(was[r].taken, 0) else 0
      {
        if !regions[r].taken[p] {
          Spawn(r, p, next);
          next := next + 1;
          if revive {
            label counted:
            revived := revived + 1;
            MarksKeep(table, old@counted(View()), View());
          }
        }
        p := p + 1;
      }
    }

    method RegenDue(frame: nat, free: nat) returns (next: nat)
      requires Sound(table, View()) && !cleared
      requires forall i :: 0 <= i < |monsters| ==> monsters[i].id < free
      modifies `regions, `monsters, `spawned, `revived
      ensures Sound(table, View()) && free <= next && forall i :: 0 <= i < |monsters| ==> monsters[i].id < next
      ensures TickStep(table, old(View()), View(), frame)
    {
      assert |regions| == |table|;
      hide Sound, Born, After, All, Vacant;
      next := free;
      ghost var was := regions;
      var r := 0;
      while r < |regions|
        invariant r <= |regions| == |was| && free <= next
        invariant forall q :: 0 <= q < r ==> Passed(table[q], was[q], regions[q], frame)
        invariant forall q :: r <= q < |was| ==> regions[q] == was[q]
        invariant Sound(table, View()) && forall i :: 0 <= i < |monsters| ==> monsters[i].id < next
        invariant old(monsters) <= monsters
        invariant spawned + Fills(was, frame, false, r) == old(spawned) + Fills(was, frame, false, 0)
        invariant revived + Fills(was, frame, true, r) == old(revived) + Fills(was, frame, true, 0)
      {
        var due, revive := Due(regions[r], frame), regions[r].reviveDue;
        if due || revive {
          label marked:
          regions := regions[r := regions[r].(reviveDue := false, next := if due then After(table[r], frame)
                                              else regions[r].next)];
          MarksKeep(table, old@marked(View()), View());
          next := FillRegion(r, revive, next);
        }
        r := r + 1;
      }
      BornHere(table, old(View()), View());
    }

    method VanishAll()
      requires Sound(table, View())
      modifies `regions, `monsters, `vanished
      ensures Sound(table, View()) && monsters == [] && vanished == old(vanished) + |old(monsters)|
      ensures Vanished(old(View()), View())
    {
      vanished := vanished + |monsters|;
      monsters := [];
      var r := 0;
      while r < |regions|
        invariant r <= |regions| == |old(regions)| && monsters == [] && vanished == old(vanished) + |old(monsters)|
        invariant forall q ::
                    0 <= q < |regions| ==>
                      |regions[q].taken| == |old(regions)[q].taken| && regions[q].next == old(regions)[q].next
        invariant forall q :: 0 <= q < r ==> !regions[q].reviveDue && All(regions[q].taken, false)
      {
        regions := regions[r := regions[r].(taken := seq(|regions[r].taken|, _ => false), reviveDue := false)];
        r := r + 1;
      }
    }

    method Tick(frame: nat, free: nat) returns (next: nat)
      requires Sound(table, View())
      requires forall i :: 0 <= i < |monsters| ==> monsters[i].id < free
      modifies this
      ensures Sound(table, View()) && Step(table, old(View()), View(), Event.Tick(frame))
      ensures free <= next && forall i :: 0 <= i < |monsters| ==> monsters[i].id < next
    {
      next := free;
      if cleared {
        if monsters != [] {
          VanishAll();
        }
        return;
      }
      next := RegenDue(frame, free);
    }

    /** The caller hands in a monster of this table; one that is not on the list changes nothing. */
    method Despawn(m: Monster)
      requires Sound(table, View())
      requires m.region < |table| && m.point < table[m.region].count
      requires forall i :: 0 <= i < |monsters| && monsters[i].id == m.id ==> monsters[i] == m
      modifies `regions, `monsters, `despawned
      ensures Sound(table, View()) && Step(table, old(View()), View(), Event.Despawn(m))
    {
      var k := 0;
      while k < |monsters| && monsters[k].id != m.id
        invariant k <= |monsters| && forall i :: 0 <= i < k ==> monsters[i].id != m.id
      {
        k := k + 1;
      }
      if k == |monsters| {
        return;
      }
      regions := Taken(regions, m, false);
      monsters := monsters[k := monsters[|monsters| - 1]][..|monsters| - 1];
      despawned := despawned + 1;
      DespawnKeeps(table, old(View()), View(), k);
      assert Popped(old(View()), View(), k);
    }

    method RequestClear()
      requires Sound(table, View())
      modifies `cleared
      ensures Sound(table, View()) && Step(table, old(View()), View(), Clear)
    {
      cleared := true;
      MarksKeep(table, old(View()), View());
    }

    method RequestRevive(monsterId: int)
      requires Sound(table, View())
      modifies `regions
      ensures Sound(table, View()) && Step(table, old(View()), View(), Revive(monsterId))
    {
      if cleared {
        return;
      }
      var r := 0;
      while r < |table|
        invariant r <= |table| == |regions|
        invariant forall q :: 0 <= q < r ==>
                    regions[q] == if table[q].monsterId == monsterId then old(regions)[q].(reviveDue := true)
                        else old(regions)[q]
        invariant forall q :: r <= q < |table| ==> regions[q] == old(regions)[q]
      {
        if table[r].monsterId == monsterId {
          regions := regions[r := regions[r].(reviveDue := true)];
        }
        r := r + 1;
      }
      MarksKeep(table, old(View()), View());
    }

    method CountVacant(monsterId: int) returns (vacant: nat)
      requires Sound(table, View())
      ensures vacant == VacantOf(table, regions, monsterId, 0)
    {
      vacant := 0;
      var r := 0;
      while r < |table| && r < |regions|
        invariant r <= |table|
        invariant vacant + VacantOf(table, regions, monsterId, r) == VacantOf(table, regions, monsterId, 0)
      {
        if table[r].monsterId == monsterId {
          var p := 0;
          while p < |regions[r].taken|
            invariant p <= |regions[r].taken|
            invariant vacant + Vacant(regions[r].taken, p) + VacantOf(table, regions, monsterId, r + 1)
                      == VacantOf(table, regions, monsterId, 0)
          {
            vacant := vacant + if regions[r].taken[p] then 0 else 1;
            p := p + 1;
          }
        }
        r := r + 1;
      }
    }
  }

  // ----- what holds over every run

  ghost predicate Run(table: seq<Region>, states: seq<State>, events: seq<Event>) {
    && |states| == |events| + 1
    && states[0] == Initial(table)
    && forall i {:trigger events[i]} :: 0 <= i < |events| ==> Step(table, states[i], states[i + 1], events[i])
  }

  lemma BornKeeps(table: seq<Region>, s: State, t: State)
    requires Sound(table, s) && Born(s, t) && t.despawned == s.despawned && t.vanished == s.vanished
    requires |t.regions| == |table| && forall r :: 0 <= r < |table| ==> |t.regions[r].taken| == table[r].count
    requires forall r, p :: At(s, r, p) ==> At(t, r, p)
    ensures Sound(table, t)
  {
    forall r, p | At(t, r, p) ensures exists i :: Owns(t, i, r, p) {
      if At(s, r, p) {
        var i :| Owns(s, i, r, p);
        assert Owns(t, i, r, p);
      }
    }
    forall i | 0 <= i < |t.monsters| ensures At(t, t.monsters[i].region, t.monsters[i].point) {
      assert i < |s.monsters| ==> t.monsters[i] == s.monsters[i] && At(s, t.monsters[i].region, t.monsters[i].point);
    }
    forall i, j | 0 <= i < j < |s.monsters|
      ensures t.monsters[i].id != t.monsters[j].id
              && (t.monsters[i].region != t.monsters[j].region || t.monsters[i].point != t.monsters[j].point)
    {
      assert t.monsters[i] == s.monsters[i] && t.monsters[j] == s.monsters[j];
    }
  }

  lemma VanishedKeeps(table: seq<Region>, s: State, t: State)
    requires Sound(table, s) && Vanished(s, t) && t.monsters == [] && t.spawned == t.despawned + t.vanished
    ensures Sound(table, t)
  {
    assert forall r, p :: !At(t, r, p);
  }

  lemma TickKeeps(table: seq<Region>, s: State, t: State, frame: nat)
    requires Sound(table, s) && TickStep(table, s, t, frame)
    ensures Sound(table, t)
  {
    hide Born, Fills, Vacant, After;
    if s.cleared {
      if s.monsters != [] {
        VanishedKeeps(table, s, t);
      }
    } else {
      assert forall r :: 0 <= r < |table| ==> Passed(table[r], s.regions[r], t.regions[r], frame);
      BornKeeps(table, s, t);
    }
  }

  /** Every operation keeps the points and the monsters one to one. */
  lemma StepKeeps(table: seq<Region>, s: State, t: State, e: Event)
    requires Sound(table, s) && Step(table, s, t, e)
    ensures Sound(table, t)
  {
    hide Sound, TickStep;
    match e
    case Tick(frame) => TickKeeps(table, s, t, frame);
    case Despawn(m) =>
      if m in s.monsters {
        var k: nat :| Popped(s, t, k) && s.monsters[k] == m;
        DespawnKeeps(table, s, t, k);
      }
    case Revive(_) =>
      assert |s.regions| == |table|;
      MarksKeep(table, s, t);
    case Clear =>
      MarksKeep(table, s, t);
  }

  /** In every reachable state: one live monster a taken point, and spawned = despawned + vanished + alive. */
  lemma {:induction false} RunSound(table: seq<Region>, states: seq<State>, events: seq<Event>, i: nat)
    requires Run(table, states, events) && i < |states|
    ensures Sound(table, states[i])
  {
    hide Sound, Step, Initial;
    if i == 0 {
      InitialSound(table);
    } else {
      RunSound(table, states, events, i - 1);
      assert Step(table, states[i - 1], states[i], events[i - 1]);
      StepKeeps(table, states[i - 1], states[i], events[i - 1]);
    }
  }

  /** Once a room is cleared, its first tick leaves it without monsters for good. */
  lemma {:induction false} ClearedStaysEmpty(table: seq<Region>, states: seq<State>, events: seq<Event>, i: nat, j: nat)
    requires Run(table, states, events) && i < j < |states|
    requires states[i].cleared && events[i].Tick?
    ensures states[j].cleared && states[j].monsters == []
    ensures forall r, p :: !At(states[j], r, p)
    decreases j
  {
    assert Step(table, states[j - 1], states[j], events[j - 1]);
    if j > i + 1 {
      ClearedStaysEmpty(table, states, events, i, j - 1);
    }
    RunSound(table, states, events, j);
    assert forall k, r, p :: !Owns(states[j], k, r, p);
  }

  /** Event `k` before `i` asked to revive `monsterId`, and no tick came between. */
  ghost predicate AskedAt(events: seq<Event>, k: nat, i: nat, monsterId: int)
    requires i <= |events|
  {
    k < i && events[k] == Revive(monsterId) && forall l :: k < l < i ==> !events[l].Tick?
  }

  lemma {:induction false} MarkWasAsked(table: seq<Region>, states: seq<State>, events: seq<Event>, i: nat, r: nat)
      returns (k: nat)
    requires Run(table, states, events) && i < |states| && r < |table|
    requires |states[i].regions| == |table| && states[i].regions[r].reviveDue && !states[i].cleared
    ensures AskedAt(events, k, i, table[r].monsterId)
  {
    k := 0;
    if i > 0 {
      RunSound(table, states, events, i - 1);
      var s, t, e := states[i - 1], states[i], events[i - 1];
      assert Step(table, s, t, e);
      if e.Revive? && e.monsterId == table[r].monsterId {
        k := i - 1;
      } else {
        UnmarkedByTick(table, s, t, e, r);
        k := MarkWasAsked(table, states, events, i - 1, r);
      }
    }
  }

  lemma UnmarkedByTick(table: seq<Region>, s: State, t: State, e: Event, r: nat)
    requires Sound(table, s) && Step(table, s, t, e) && r < |table| && t.regions[r].reviveDue
    requires e != Revive(table[r].monsterId) && !t.cleared
    ensures !e.Tick? && !s.cleared && s.regions[r].reviveDue
  {
  }

  /** Region `r` is refilled once only and has had that refill. */
  predicate Spent(table: seq<Region>, s: State, r: nat) {
    r < |table| == |s.regions| && table[r].regenFrames == 0 && s.regions[r].next == FRAME_END
  }

  /** The first tick of a zone that is not cleared spends every region with period 0, and it stays spent. */
  lemma {:induction false} SpentAfterFirstTick(table: seq<Region>, states: seq<State>, events: seq<Event>, i: nat,
                                               j: nat, r: nat)
    requires Run(table, states, events) && i < j < |states| && r < |table| && table[r].regenFrames == 0
    requires events[i].Tick? && !states[i].cleared
    ensures Spent(table, states[j], r)
    decreases j
  {
    RunSound(table, states, events, j - 1);
    RunSound(table, states, events, j);
    assert Step(table, states[j - 1], states[j], events[j - 1]);
    ZeroPeriodClock(table, states, events, j - 1, r);
    if j > i + 1 {
      SpentAfterFirstTick(table, states, events, i, j - 1, r);
    }
  }

  /** The clock of a region with period 0 only ever reads 0 or the end of time. */
  lemma {:induction false} ZeroPeriodClock(table: seq<Region>, states: seq<State>, events: seq<Event>, i: nat, r: nat)
    requires Run(table, states, events) && i < |states| && r < |table| && table[r].regenFrames == 0
    ensures |states[i].regions| == |table| && states[i].regions[r].next in {0, FRAME_END}
  {
    RunSound(table, states, events, i);
    if i > 0 {
      ZeroPeriodClock(table, states, events, i - 1, r);
      assert Step(table, states[i - 1], states[i], events[i - 1]);
    }
  }

  /** After its first filling, a point of a region with period 0 is taken again only by a tick that was asked to revive
      the region's monster since the tick before. */
  lemma {:induction false} OnlyRevivesRefill(table: seq<Region>, states: seq<State>, events: seq<Event>, i: nat, r: nat,
                                             p: nat) returns (k: nat)
    requires Run(table, states, events) && i < |events|
    requires Spent(table, states[i], r) && (events[i].Tick? ==> events[i].frame < FRAME_END)
    requires !At(states[i], r, p) && At(states[i + 1], r, p)
    ensures events[i].Tick? && AskedAt(events, k, i, table[r].monsterId)
  {
    RunSound(table, states, events, i);
    var s, t, e := states[i], states[i + 1], events[i];
    assert Step(table, s, t, e);
    TakenByTick(table, s, t, e, r, p);
    k := MarkWasAsked(table, states, events, i, r);
  }

  lemma TakenByTick(table: seq<Region>, s: State, t: State, e: Event, r: nat, p: nat)
    requires Sound(table, s) && Step(table, s, t, e) && Spent(table, s, r) && (e.Tick? ==> e.frame < FRAME_END)
    requires !At(s, r, p) && At(t, r, p)
    ensures e.Tick? && !s.cleared && s.regions[r].reviveDue
  {
    assert t.monsters == [] ==> forall i :: !Owns(t, i, r, p);
  }

  lemma {:induction false} MarkedFills(table: seq<Region>, s: State, t: State, frame: nat, byRevive: bool,
                                       monsterId: int, r: nat)
    requires |s.regions| == |table| && ReviveStep(table, s, t, monsterId) && !s.cleared
    requires forall q :: 0 <= q < |table| ==> !s.regions[q].reviveDue && !Due(s.regions[q], frame)
    ensures Fills(t.regions, frame, byRevive, r) == VacantOf(table, s.regions, monsterId, r)
    decreases |table| - r
  {
    if r < |table| {
      MarkedFills(table, s, t, frame, byRevive, monsterId, r + 1);
    }
  }

  /** A revive request, and a tick at which nothing is due: as many monsters as `CountVacant` says come back, all of the
      region's points are taken, every other region and every clock stays. */
  lemma ReviveFillsTheDead(table: seq<Region>, s: State, t: State, u: State, monsterId: int, frame: nat)
    requires Sound(table, s) && Step(table, s, t, Revive(monsterId)) && Step(table, t, u, Event.Tick(frame))
             && !s.cleared
    requires forall q :: 0 <= q < |table| ==> !s.regions[q].reviveDue && !Due(s.regions[q], frame)
    ensures |u.monsters| == |s.monsters| + VacantOf(table, s.regions, monsterId, 0)
    ensures u.revived == s.revived + VacantOf(table, s.regions, monsterId, 0)
    ensures forall r :: 0 <= r < |table| ==>
              && u.regions[r].next == s.regions[r].next
              && if table[r].monsterId == monsterId then All(u.regions[r].taken, true)
                   else u.regions[r].taken == s.regions[r].taken
  {
    MarkedFills(table, s, t, frame, false, monsterId, 0);
    MarkedFills(table, s, t, frame, true, monsterId, 0);
  }

  // ----- the rhythm of a region with a period

  /** The frame of the last periodic refill before event `i`: the first tick is one, and after a refill at `f` the first
      tick at or after `f + n`. */
  function LastRefill(events: seq<Event>, i: nat, n: nat): Option<nat>
    requires i <= |events|
  {
    if i == 0 then None
    else
      var before := LastRefill(events, i - 1, n);
      match events[i - 1]
      case Tick(f) => if before.None? || f >= before.value + n then Some(f) else before
      case _ => before
  }

  /** Whether event `i` is a tick that refills. */
  predicate Refills(events: seq<Event>, i: nat, n: nat)
    requires i < |events|
  {
    events[i].Tick? && (LastRefill(events, i, n).None? || events[i].frame >= LastRefill(events, i, n).value + n)
  }

  /** No tick is so late that the 64-bit sum of its frame and the period goes over the end. */
  ghost predicate InTime(events: seq<Event>, n: nat) {
    forall i :: 0 <= i < |events| && events[i].Tick? ==> events[i].frame + n <= FRAME_END
  }

  lemma {:induction false} NotClearedBefore(table: seq<Region>, states: seq<State>, events: seq<Event>, i: nat)
    requires Run(table, states, events) && 0 < i < |states| && !states[i].cleared
    ensures !states[i - 1].cleared
  {
    RunSound(table, states, events, i - 1);
    assert Step(table, states[i - 1], states[i], events[i - 1]);
  }

  /** The clock of a region with period `n` reads 0 before its first refill and the last refill plus `n` from then
      on. */
  lemma {:induction false} ClockIs(table: seq<Region>, states: seq<State>, events: seq<Event>, i: nat, r: nat)
    requires Run(table, states, events) && i < |states| && !states[i].cleared
    requires r < |table| && table[r].regenFrames > 0 && InTime(events, table[r].regenFrames)
    ensures |states[i].regions| == |table|
    ensures var n := table[r].regenFrames;
            states[i].regions[r].next ==
              match LastRefill(events, i, n) case None => 0 case Some(f) => f + n
  {
    RunSound(table, states, events, i);
    if i > 0 {
      RunSound(table, states, events, i - 1);
      NotClearedBefore(table, states, events, i);
      ClockIs(table, states, events, i - 1, r);
      ClockStep(table, states[i - 1], states[i], events[i - 1], r);
    }
  }

  /** What a step makes of a clock. */
  lemma ClockStep(table: seq<Region>, s: State, t: State, e: Event, r: nat)
    requires Sound(table, s) && Step(table, s, t, e) && !s.cleared && r < |table| && table[r].regenFrames > 0
    requires e.Tick? ==> e.frame + table[r].regenFrames <= FRAME_END
    ensures |t.regions| == |table|
    ensures t.regions[r].next == if e.Tick? && e.frame >= s.regions[r].next then e.frame + table[r].regenFrames
                                 else s.regions[r].next
  {
    hide Born, Fills, Vacant;
    if e.Tick? {
      assert Passed(table[r], s.regions[r], t.regions[r], e.frame);
    }
  }

  /** On time: a tick that refills leaves no point of the region vacant. */
  lemma RefillsOnTime(table: seq<Region>, states: seq<State>, events: seq<Event>, i: nat, r: nat, p: nat)
    requires Run(table, states, events) && i < |events| && !states[i].cleared
    requires r < |table| && table[r].regenFrames > 0 && InTime(events, table[r].regenFrames) && p < table[r].count
    requires Refills(events, i, table[r].regenFrames)
    ensures At(states[i + 1], r, p)
  {
    hide Born, Fills, Vacant;
    RunSound(table, states, events, i);
    RunSound(table, states, events, i + 1);
    ClockIs(table, states, events, i, r);
    assert Step(table, states[i], states[i + 1], events[i]);
    assert Passed(table[r], states[i].regions[r], states[i + 1].regions[r], events[i].frame);
  }

  /** And not before: any other event takes a vacant point of the region only if it is a tick that was asked to revive
      the region's monster since the tick before. */
  lemma NotBeforeTime(table: seq<Region>, states: seq<State>, events: seq<Event>, i: nat, r: nat, p: nat)
    returns (k: nat)
    requires Run(table, states, events) && i < |events| && !states[i].cleared
    requires r < |table| && table[r].regenFrames > 0 && InTime(events, table[r].regenFrames)
    requires !Refills(events, i, table[r].regenFrames) && !At(states[i], r, p) && At(states[i + 1], r, p)
    ensures events[i].Tick? && AskedAt(events, k, i, table[r].monsterId)
  {
    RunSound(table, states, events, i);
    ClockIs(table, states, events, i, r);
    var s, t, e := states[i], states[i + 1], events[i];
    assert Step(table, s, t, e);
    NotDueTaken(table, s, t, e, r, p);
    k := MarkWasAsked(table, states, events, i, r);
  }

  lemma NotDueTaken(table: seq<Region>, s: State, t: State, e: Event, r: nat, p: nat)
    requires Sound(table, s) && Step(table, s, t, e) && !s.cleared && r < |table|
    requires e.Tick? ==> e.frame < s.regions[r].next
    requires !At(s, r, p) && At(t, r, p)
    ensures e.Tick? && s.regions[r].reviveDue
  {
    hide Born, Fills, Vacant;
    if e.Tick? { assert Passed(table[r], s.regions[r], t.regions[r], e.frame); }
  }
}
