/** Timed effects, and the one list that every tick walks. */
module Buffs {

  datatype Slot = Slot(value: int, expire: nat)

  const NONE := Slot(0, 0)

  type Character = nat

  /** A character's effect component has a slot for every kind. */
  type Slots = map<Character, seq<Slot>>

  predicate Active(slot: Slot) {
    slot.expire != 0
  }

  predicate AnyActive(slots: seq<Slot>) {
    exists k :: 0 <= k < |slots| && Active(slots[k])
  }

  /** Every slot that runs, with its character. */
  ghost function Running(slots: Slots): set<(Character, nat)> {
    set c, k: nat | c in slots && k < |slots[c]| && Active(slots[c][k]) :: (c, k)
  }

  ghost predicate Complete(slots: Slots, kinds: nat) {
    forall c :: c in slots ==> |slots[c]| == kinds
  }

  /** The list holds, once each, exactly the characters with a running slot. */
  ghost predicate Listed(slots: Slots, buffed: seq<Character>) {
    && (forall c :: c in buffed <==> c in slots && AnyActive(slots[c]))
    && Distinct(buffed)
  }

  ghost predicate Distinct<T(!new)>(xs: seq<T>) {
    forall i, j :: 0 <= i < j < |xs| ==> xs[i] != xs[j]
  }

  /** Everything that began has ended or still runs. */
  ghost predicate Counted(slots: Slots, applied: nat, restored: nat, ended: nat, active: int) {
    active == |Running(slots)| && applied + restored == ended + active
  }

  function Without(xs: seq<Character>, c: Character): (r: seq<Character>)
    ensures forall x :: x in r <==> x in xs && x != c
  {
    if xs == [] then [] else (if xs[0] == c then [] else [xs[0]]) + Without(xs[1..], c)
  }

  lemma {:induction false} WithoutDistinct(xs: seq<Character>, c: Character)
    requires Distinct(xs)
    ensures Distinct(Without(xs, c))
  {
    if xs != [] {
      WithoutDistinct(xs[1..], c);
      var rest := Without(xs[1..], c);
      assert xs[0] !in xs[1..];
      assert xs[0] !in rest;
    }
  }

  lemma CountedOff(slots: Slots, c: Character, k: nat, applied: nat, restored: nat, ended: nat, active: int)
    requires c in slots && k < |slots[c]| && Active(slots[c][k]) && Counted(slots, applied, restored, ended, active)
    ensures Counted(slots[c := slots[c][k := NONE]], applied, restored, ended + 1, active - 1)
  {
    assert (c, k) in Running(slots);
    assert Running(slots[c := slots[c][k := NONE]]) == Running(slots) - {(c, k)};
  }

  lemma RunningOn(slots: Slots, c: Character, k: nat, slot: Slot)
    requires c in slots && k < |slots[c]| && Active(slot)
    ensures |Running(slots[c := slots[c][k := slot]])| == |Running(slots)| + if Active(slots[c][k]) then 0 else 1
  {
    assert Active(slots[c][k]) <==> (c, k) in Running(slots);
    assert Running(slots[c := slots[c][k := slot]]) == Running(slots) + {(c, k)};
  }

  lemma ListedOn(slots: Slots, buffed: seq<Character>, c: Character, kind: nat, slot: Slot)
    requires Listed(slots, buffed) && c in slots && kind < |slots[c]| && Active(slot)
    ensures Listed(slots[c := slots[c][kind := slot]], if AnyActive(slots[c]) then buffed else buffed + [c])
  {
    var after := slots[c := slots[c][kind := slot]];
    assert Active(after[c][kind]);
    assert c in buffed <==> AnyActive(slots[c]);
  }

  /** Why slots end: the ones due at a frame, or all that run. */
  datatype Why = Expired(frame: nat) | Death | Leave

  predicate Ends(slot: Slot, why: Why) {
    Active(slot) && (why.Expired? ==> why.frame >= slot.expire)
  }

  function Swept(slots: seq<Slot>, why: Why): seq<Slot> {
    seq(|slots|, k requires 0 <= k < |slots| => if Ends(slots[k], why) then NONE else slots[k])
  }

  /** A list without entry `i`, the last entry in its place. */
  function Out(xs: seq<Character>, i: nat): seq<Character>
    requires i < |xs|
  {
    xs[i := xs[|xs| - 1]][..|xs| - 1]
  }

  lemma OutRest(xs: seq<Character>, i: nat, from: nat)
    requires Distinct(xs) && from <= i < |xs|
    ensures Distinct(Out(xs, i))
    ensures forall c :: c in Out(xs, i)[from..] <==> c in xs[from..] && c != xs[i]
  {
    var last, ys := |xs| - 1, Out(xs, i);
    forall c ensures c in ys[from..] <==> c in xs[from..] && c != xs[i] {
      if c in xs[from..] && c != xs[i] {
        var j :| from <= j <= last && xs[j] == c;
        assert ys[if j == last then i else j] == c;
      }
    }
  }

  lemma NextRest(xs: seq<Character>, i: nat)
    requires Distinct(xs) && i < |xs|
    ensures forall c :: c in xs[i + 1..] <==> c in xs[i..] && c != xs[i]
  {
    assert xs[i..] == [xs[i]] + xs[i + 1..];
  }

  /** Slots of `c` ended, and `c` left the list if none runs any more. */
  lemma ListedSwept(slots: Slots, buffed: seq<Character>, i: nat, why: Why)
    requires Listed(slots, buffed) && i < |buffed|
    ensures var after := slots[buffed[i] := Swept(slots[buffed[i]], why)];
            Listed(after, if AnyActive(after[buffed[i]]) then buffed else Out(buffed, i))
  {
    OutRest(buffed, i, 0);
    assert Out(buffed, i)[0..] == Out(buffed, i) && buffed[0..] == buffed;
  }

  lemma ListedGone(slots: Slots, buffed: seq<Character>, c: Character, why: Why)
    requires Listed(slots, buffed) && c in slots && !why.Expired?
    ensures Listed(slots[c := Swept(slots[c], why)], Without(buffed, c))
  {
    WithoutDistinct(buffed, c);
    assert !AnyActive(Swept(slots[c], why));
  }

  /** What a sweep of the characters `hit` has done when `rest` is still to come: of the others, the slots that `why`
      ends are empty, and no slot else changed. */
  ghost predicate SweptBut(was: Slots, slots: Slots, rest: seq<Character>, hit: set<Character>, why: Why) {
    && slots.Keys == was.Keys
    && forall c :: c in was ==> slots[c] == if c in hit && c !in rest then Swept(was[c], why) else was[c]
  }

  /** The ended slots of the characters swept, once each. */
  ghost predicate Told(was: Slots, told: seq<(Character, nat)>, rest: seq<Character>, why: Why) {
    && (forall c, k: nat :: (c, k) in told <==> c in was && c !in rest && k < |was[c]| && Ends(was[c][k], why))
    && Distinct(told)
  }

  lemma SweepStart(was: Slots, buffed: seq<Character>, hit: set<Character>, why: Why)
    requires Listed(was, buffed)
    ensures SweptBut(was, was, buffed, hit, why) && Told(was, [], buffed, why)
  {
    forall c | c in was && c !in buffed ensures Swept(was[c], why) == was[c] {
    }
  }

  lemma SweepOne(was: Slots, slots: Slots, rest: seq<Character>, c: Character, rest': seq<Character>,
                 hit: set<Character>, why: Why)
    requires SweptBut(was, slots, rest, hit, why) && c in rest && c in slots
    requires forall x :: x in rest' <==> x in rest && x != c
    ensures SweptBut(was, if c in hit then slots[c := Swept(slots[c], why)] else slots, rest', hit, why)
  {
  }

  lemma TellOne(was: Slots, told: seq<(Character, nat)>, rest: seq<Character>, c: Character, rest': seq<Character>,
                kinds: seq<nat>, why: Why)
    requires Told(was, told, rest, why) && c in rest && c in was
    requires forall x :: x in rest' <==> x in rest && x != c
    requires Distinct(kinds) && forall k: nat :: k in kinds <==> k < |was[c]| && Ends(was[c][k], why)
    ensures Told(was, told + Pairs(c, kinds), rest', why)
  {
    forall x, k: nat ensures (x, k) in Pairs(c, kinds) <==> x == c && k in kinds {
      if x == c && k in kinds {
        var j :| 0 <= j < |kinds| && kinds[j] == k;
        assert Pairs(c, kinds)[j] == (x, k);
      }
    }
  }

  function Pairs(c: Character, kinds: seq<nat>): seq<(Character, nat)> {
    seq(|kinds|, j requires 0 <= j < |kinds| => (c, kinds[j]))
  }

  ghost predicate EndedOf(slots: seq<Slot>, kinds: seq<nat>, why: Why) {
    Distinct(kinds) && forall k: nat :: k in kinds <==> k < |slots| && Ends(slots[k], why)
  }

  /** Entry `i` of the list swept, and left in place or taken out. */
  lemma SweepEntry(was: Slots, slots: Slots, buffed: seq<Character>, i: nat, told: seq<(Character, nat)>,
                   kinds: seq<nat>, hit: set<Character>, why: Why)
    requires i < |buffed| && Listed(slots, buffed) && SweptBut(was, slots, buffed[i..], hit, why)
    requires buffed[i] in hit && EndedOf(slots[buffed[i]], kinds, why)
    ensures var after := slots[buffed[i] := Swept(slots[buffed[i]], why)];
            SweptBut(was, after, buffed[i + 1..], hit, why) && SweptBut(was, after, Out(buffed, i)[i..], hit, why)
    ensures Told(was, told, buffed[i..], why) ==>
              Told(was, told + Pairs(buffed[i], kinds), buffed[i + 1..], why)
                  && Told(was, told + Pairs(buffed[i], kinds), Out(buffed, i)[i..], why)
  {
    var c := buffed[i];
    assert c == buffed[i..][0];
    assert c in was && slots[c] == was[c];
    NextRest(buffed, i);
    OutRest(buffed, i, i);
    assert Distinct(kinds) && forall k: nat :: k in kinds <==> k < |was[c]| && Ends(was[c][k], why);
    hide SweptBut, Told, EndedOf, Listed, Out, Swept;
    SweepOne(was, slots, buffed[i..], c, buffed[i + 1..], hit, why);
    SweepOne(was, slots, buffed[i..], c, Out(buffed, i)[i..], hit, why);
    if Told(was, told, buffed[i..], why) {
      TellOne(was, told, buffed[i..], c, buffed[i + 1..], kinds, why);
      TellOne(was, told, buffed[i..], c, Out(buffed, i)[i..], kinds, why);
    }
  }

  /** An entry that ends nothing stays as it is. */
  lemma NothingEnded(slots: Slots, buffed: seq<Character>, i: nat, kinds: seq<nat>, why: Why)
    requires i < |buffed| && Listed(slots, buffed) && EndedOf(slots[buffed[i]], kinds, why)
    ensures kinds == [] ==> AnyActive(Swept(slots[buffed[i]], why))
  {
    assert buffed[i] in slots;
    if kinds == [] {
      assert forall k: nat :: k < |slots[buffed[i]]| ==> !Ends(slots[buffed[i]][k], why);
      assert Swept(slots[buffed[i]], why) == slots[buffed[i]];
    }
  }

  lemma NothingRuns(slots: seq<Slot>, why: Why)
    requires !why.Expired?
    ensures !AnyActive(Swept(slots, why))
  {
  }

  lemma HeadIn(xs: seq<nat>)
    ensures xs != [] ==> xs[0] in xs
  {
  }

  lemma ForgottenTwice(slots: Slots, buffed: seq<Character>, c: Character, kinds: seq<nat>)
    requires Listed(slots, buffed) && c in slots && EndedOf(slots[c], kinds, Leave) && c !in buffed
    ensures kinds == [] && Without(buffed, c) == buffed && slots[c := Swept(slots[c], Leave)] == slots
  {
    assert Swept(slots[c], Leave) == slots[c];
    HeadIn(kinds);
    WithoutNothing(buffed, c);
  }

  lemma {:induction false} WithoutNothing(xs: seq<Character>, c: Character)
    requires c !in xs
    ensures Without(xs, c) == xs
  {
    if xs != [] {
      WithoutNothing(xs[1..], c);
    }
  }

  /** A walk through the list that takes out the characters in `hit` and passes over the others. */
  ghost predicate Walked(was: Slots, slots: Slots, buffed: seq<Character>, i: nat, hit: set<Character>) {
    && i <= |buffed| && Listed(slots, buffed)
    && SweptBut(was, slots, buffed[i..], hit, Leave)
    && forall j :: 0 <= j < i ==> buffed[j] !in hit
  }

  lemma WalkStarts(slots: Slots, buffed: seq<Character>, hit: set<Character>)
    requires Listed(slots, buffed)
    ensures Walked(slots, slots, buffed, 0, hit)
  {
    SweepStart(slots, buffed, hit, Leave);
    assert buffed[0..] == buffed;
  }

  lemma WalkPast(was: Slots, slots: Slots, buffed: seq<Character>, i: nat, hit: set<Character>)
    requires Walked(was, slots, buffed, i, hit) && i < |buffed| && buffed[i] !in hit
    ensures Walked(was, slots, buffed, i + 1, hit)
  {
    NextRest(buffed, i);
    assert buffed[i..][0] == buffed[i];
    SweepOne(was, slots, buffed[i..], buffed[i], buffed[i + 1..], hit, Leave);
  }

  lemma WalkOut(was: Slots, slots: Slots, buffed: seq<Character>, i: nat, hit: set<Character>, kinds: seq<nat>)
    requires Walked(was, slots, buffed, i, hit) && i < |buffed| && buffed[i] in hit
             && EndedOf(slots[buffed[i]], kinds, Leave)
    ensures Walked(was, slots[buffed[i] := Swept(slots[buffed[i]], Leave)], Out(buffed, i), i, hit)
  {
    assert buffed[i] in slots;
    hide SweptBut, Listed;
    ListedSwept(slots, buffed, i, Leave);
    NothingRuns(slots[buffed[i]], Leave);
    SweepEntry(was, slots, buffed, i, [], kinds, hit, Leave);
  }

  lemma WalkHere(was: Slots, slots: Slots, buffed: seq<Character>, i: nat, hit: set<Character>)
    requires Walked(was, slots, buffed, i, hit)
    ensures i <= |buffed| && slots.Keys == was.Keys && Listed(slots, buffed)
    ensures i < |buffed| ==> buffed[i] in slots
    ensures i == |buffed| ==>
              SweptBut(was, slots, [], hit, Leave) && forall c :: c in buffed ==> c in slots && c !in hit
  {
    if i == |buffed| {
      assert buffed[i..] == [];
    }
  }

  ghost function InZone(slots: Slots, zones: map<Character, int>, zone: int): set<Character> {
    set c | c in slots && c in zones && zones[c] == zone
  }

  /** A tick that has swept the list up to entry `i`. */
  ghost predicate Ticked(was: Slots, slots: Slots, buffed: seq<Character>, i: nat, told: seq<(Character, nat)>,
                         why: Why) {
    && i <= |buffed| && Listed(slots, buffed)
    && SweptBut(was, slots, buffed[i..], was.Keys, why)
    && Told(was, told, buffed[i..], why)
  }

  lemma TickStarts(slots: Slots, buffed: seq<Character>, why: Why)
    requires Listed(slots, buffed)
    ensures Ticked(slots, slots, buffed, 0, [], why)
  {
    SweepStart(slots, buffed, slots.Keys, why);
    assert buffed[0..] == buffed;
  }

  lemma TickEntry(was: Slots, slots: Slots, buffed: seq<Character>, i: nat, told: seq<(Character, nat)>,
                  kinds: seq<nat>, why: Why)
    requires Ticked(was, slots, buffed, i, told, why) && i < |buffed| && buffed[i] in slots
             && EndedOf(slots[buffed[i]], kinds, why)
    ensures var after := slots[buffed[i] := Swept(slots[buffed[i]], why)];
            if kinds != [] && !AnyActive(after[buffed[i]])
               then Ticked(was, after, Out(buffed, i), i, told + Pairs(buffed[i], kinds), why)
            else Ticked(was, after, buffed, i + 1, told + Pairs(buffed[i], kinds), why)
  {
    assert slots.Keys == was.Keys;
    hide SweptBut, Listed, Told, EndedOf, AnyActive;
    ListedSwept(slots, buffed, i, why);
    NothingEnded(slots, buffed, i, kinds, why);
    SweepEntry(was, slots, buffed, i, told, kinds, was.Keys, why);
  }

  lemma TickHere(was: Slots, slots: Slots, buffed: seq<Character>, i: nat, told: seq<(Character, nat)>, why: Why)
    requires Ticked(was, slots, buffed, i, told, why)
    ensures i <= |buffed| && Listed(slots, buffed)
    ensures i < |buffed| ==> buffed[i] in slots
    ensures i == |buffed| ==> SweptBut(was, slots, [], was.Keys, why) && Told(was, told, [], why)
  {
    if i == |buffed| {
      assert buffed[i..] == [];
    }
  }

  lemma CompleteSet(slots: Slots, c: Character, row: seq<Slot>, kinds: nat)
    requires Complete(slots, kinds) && |row| == kinds
    ensures Complete(slots[c := row], kinds)
  {
  }

  lemma OutShorter(xs: seq<Character>, i: nat)
    requires i < |xs|
    ensures |Out(xs, i)| == |xs| - 1
  {
  }

  /** What a sweep of everybody has done, slot by slot. */
  lemma SweptAll(was: Slots, slots: Slots, told: seq<(Character, nat)>, hit: set<Character>, why: Why, kinds: nat)
    requires SweptBut(was, slots, [], hit, why) && Told(was, told, [], why) && hit == was.Keys && Complete(was, kinds)
    requires why.Expired?
    ensures slots.Keys == was.Keys && Complete(slots, kinds)
    ensures forall c, k :: c in slots && 0 <= k < kinds ==>
              slots[c][k] == if 0 < was[c][k].expire <= why.frame then Slot(0, 0) else was[c][k]
    ensures forall c, k: nat :: (c, k) in told <==> c in slots && k < kinds && 0 < was[c][k].expire <= why.frame
  {
  }

  /** What leaving has done to everybody in `hit`, slot by slot. */
  lemma EmptyAll(was: Slots, slots: Slots, hit: set<Character>, kinds: nat)
    requires SweptBut(was, slots, [], hit, Leave) && Complete(was, kinds)
    ensures slots.Keys == was.Keys && Complete(slots, kinds)
    ensures forall c :: c in slots && c !in hit ==> slots[c] == was[c]
    ensures forall c, k :: c in slots && 0 <= k < kinds && c in hit ==>
              slots[c][k].expire == 0 && (was[c][k].expire == 0 ==> slots[c][k] == was[c][k])
  {
  }

  lemma EmptyOne(slots: seq<Slot>, why: Why)
    requires !why.Expired?
    ensures forall k :: 0 <= k < |slots| ==>
              Swept(slots, why)[k].expire == 0 && (slots[k].expire == 0 ==> Swept(slots, why)[k] == slots[k])
    ensures |Swept(slots, why)| == |slots|
  {
  }

  class BuffSystem {
    const kindCount: nat
    var slots: Slots
    var buffed: seq<Character>
    var applied: nat
    var refreshed: nat
    var restored: nat
    var expired: nat
    var died: nat
    var left: nat
    var active: int

    ghost predicate Valid()
      reads this
    {
      Complete(slots, kindCount) && Listed(slots, buffed)
          && Counted(slots, applied, restored, expired + died + left, active)
    }

    constructor (kindCount: nat)
      ensures this.kindCount == kindCount && Valid() && slots == map[] && buffed == []
              && applied == restored == expired == died == left == active == 0
    {
      this.kindCount := kindCount;
      slots, buffed := map[], [];
      applied, refreshed, restored, expired, died, left, active := 0, 0, 0, 0, 0, 0, 0;
      new;
      assert Running(slots) == {};
    }

    /** A character comes into the world with every slot empty. */
    method Join(c: Character)
      requires Valid() && c !in slots
      modifies `slots
      ensures Valid() && slots == old(slots)[c := seq(kindCount, _ => NONE)]
    {
      slots := slots[c := seq(kindCount, _ => NONE)];
      assert Running(slots) == Running(old(slots));
    }

    /** A new effect, or the value and time of the one that runs. */
    method Apply(c: Character, kind: nat, value: int, duration: nat, frame: nat)
      requires Valid() && c in slots && kind < kindCount && duration > 0
      modifies this
      ensures Valid()
      ensures slots == old(slots)[c := old(slots)[c][kind := Slot(value, frame + duration)]]
      ensures applied == old(applied) + (if Active(old(slots)[c][kind]) then 0 else 1)
      ensures refreshed == old(refreshed) + (if Active(old(slots)[c][kind]) then 1 else 0)
      ensures restored == old(restored) && expired == old(expired) && died == old(died) && left == old(left)
    {
      hide Listed, Running;
      RunningOn(slots, c, kind, Slot(value, frame + duration));
      ListedOn(slots, buffed, c, kind, Slot(value, frame + duration));
      if Active(slots[c][kind]) {
        refreshed := refreshed + 1;
      } else {
        if !AnyActive(slots[c]) {
          buffed := buffed + [c];
        }
        applied, active := applied + 1, active + 1;
      }
      slots := slots[c := slots[c][kind := Slot(value, frame + duration)]];
    }

    /** At entry, into an empty slot only. */
    method Restore(c: Character, kind: nat, value: int, remain: nat, frame: nat) returns (done: bool)
      requires Valid() && c in slots && kind < kindCount && remain > 0
      modifies this
      ensures Valid() && done == !Active(old(slots)[c][kind])
      ensures slots == if done then old(slots)[c := old(slots)[c][kind := Slot(value, frame + remain)]] else old(slots)
      ensures restored == old(restored) + (if done then 1 else 0)
      ensures applied == old(applied) && refreshed == old(refreshed) && expired == old(expired) && died == old(died)
              && left == old(left)
    {
      hide Listed, Running;
      if Active(slots[c][kind]) {
        return false;
      }
      RunningOn(slots, c, kind, Slot(value, frame + remain));
      ListedOn(slots, buffed, c, kind, Slot(value, frame + remain));
      if !AnyActive(slots[c]) {
        buffed := buffed + [c];
      }
      restored, active := restored + 1, active + 1;
      slots := slots[c := slots[c][kind := Slot(value, frame + remain)]];
      return true;
    }

    /** Empties the slots of `c` that `why` ends, and counts them; the list is the caller's to mend. `kinds` are the
        ended kinds, in order. */
    method EndSlots(c: Character, why: Why) returns (kinds: seq<nat>)
      requires Complete(slots, kindCount) && c in slots
      requires Counted(slots, applied, restored, expired + died + left, active)
      modifies `slots, `expired, `died, `left, `active
      ensures slots == old(slots)[c := Swept(old(slots)[c], why)]
      ensures Counted(slots, applied, restored, expired + died + left, active)
      ensures expired == old(expired) + (if why.Expired? then |kinds| else 0)
      ensures died == old(died) + (if why.Death? then |kinds| else 0)
      ensures left == old(left) + (if why.Leave? then |kinds| else 0)
      ensures Complete(slots, kindCount) && EndedOf(old(slots)[c], kinds, why)
    {
      assert |slots[c]| == kindCount;
      hide Counted, Complete;
      kinds := [];
      ghost var was := slots;
      var k := 0;
      while k < kindCount
        invariant k <= kindCount && c in slots && |slots[c]| == kindCount == |was[c]| && slots == was[c := slots[c]]
        invariant forall q :: 0 <= q < k ==> slots[c][q] == if Ends(was[c][q], why) then NONE else was[c][q]
        invariant forall q :: k <= q < kindCount ==> slots[c][q] == was[c][q]
        invariant Counted(slots, applied, restored, expired + died + left, active)
        invariant expired == old(expired) + (if why.Expired? then |kinds| else 0)
        invariant died == old(died) + (if why.Death? then |kinds| else 0)
        invariant left == old(left) + (if why.Leave? then |kinds| else 0)
        invariant Distinct(kinds)
        invariant forall q: nat :: q in kinds <==> q < k && Ends(was[c][q], why)
      {
        if Ends(slots[c][k], why) {
          CountedOff(slots, c, k, applied, restored, expired + died + left, active);
          slots := slots[c := slots[c][k := NONE]];
          match why {
            case Expired(_) => expired := expired + 1;
            case Death => died := died + 1;
            case Leave => left := left + 1;
          }
          active := active - 1;
          kinds := kinds + [k];
        }
        k := k + 1;
      }
      assert slots[c] == Swept(was[c], why);
      CompleteSet(was, c, slots[c], kindCount);
    }

    method RemoveFromList(c: Character)
      modifies `buffed
      ensures buffed == Without(old(buffed), c)
    {
      if buffed == [] {
        return;
      }
      var kept, i := [], 0;
      while i < |buffed|
        invariant i <= |buffed| && buffed == old(buffed)
        invariant kept + Without(buffed[i..], c) == Without(buffed, c)
      {
        assert buffed[i..][0] == buffed[i] && buffed[i..][1..] == buffed[i + 1..];
        if buffed[i] != c {
          kept := kept + [buffed[i]];
        }
        i := i + 1;
      }
      buffed := kept;
    }

    /** Ends exactly the slots that are due, of every character, and tells each of them once, in the order of the list,
        which taking out changes. */
    method Tick(frame: nat) returns (told: seq<(Character, nat)>)
      requires Valid()
      modifies this
      ensures Valid()
      ensures slots.Keys == old(slots).Keys
      ensures forall c, k :: c in slots && 0 <= k < kindCount ==>
                slots[c][k] == if 0 < old(slots)[c][k].expire <= frame then Slot(0, 0) else old(slots)[c][k]
      ensures forall c, k: nat :: (c, k) in told <==>
                c in slots && k < kindCount && 0 < old(slots)[c][k].expire <= frame
      ensures Distinct(told) && expired == old(expired) + |told|
      ensures applied == old(applied) && refreshed == old(refreshed) && restored == old(restored) && died == old(died)
              && left == old(left)
    {
      hide Counted, Listed, Ticked, SweptBut, Told, Swept, AnyActive, Out, Complete, EndedOf;
      told := [];
      ghost var was := slots;
      TickStarts(slots, buffed, Expired(frame));
      var i := 0;
      while i < |buffed|
        invariant Complete(slots, kindCount) && Counted(slots, applied, restored, expired + died + left, active)
        invariant Ticked(was, slots, buffed, i, told, Expired(frame))
        invariant expired == old(expired) + |told|
        invariant applied == old(applied) && refreshed == old(refreshed) && restored == old(restored)
                  && died == old(died) && left == old(left)
        decreases |buffed| - i
      {
        TickHere(was, slots, buffed, i, told, Expired(frame));
        var c := buffed[i];
        ghost var before := slots;
        var kinds := EndSlots(c, Expired(frame));
        TickEntry(was, before, buffed, i, told, kinds, Expired(frame));
        told := told + Pairs(c, kinds);
        if kinds != [] && !AnyActive(slots[c]) {
          OutShorter(buffed, i);
          buffed := Out(buffed, i);
        } else {
          i := i + 1;
        }
      }
      TickHere(was, slots, buffed, i, told, Expired(frame));
      SweptAll(was, slots, told, was.Keys, Expired(frame), kindCount);
    }

    /** Death: everything that runs ends and is told, and the list lets go. */
    method ClearAll(c: Character) returns (told: seq<(Character, nat)>)
      requires Valid() && c in slots
      modifies this
      ensures Valid() && c !in buffed
      ensures c in slots && slots == old(slots)[c := slots[c]] && |slots[c]| == kindCount
      ensures forall k :: 0 <= k < kindCount ==>
                slots[c][k].expire == 0 && (old(slots)[c][k].expire == 0 ==> slots[c][k] == old(slots)[c][k])
      ensures forall x, k: nat :: (x, k) in told <==> x == c && k < kindCount && old(slots)[c][k].expire > 0
      ensures Distinct(told) && died == old(died) + |told|
      ensures applied == old(applied) && refreshed == old(refreshed) && restored == old(restored)
              && expired == old(expired) && left == old(left)
    {
      assert |slots[c]| == kindCount;
      hide Counted, Listed, Swept, AnyActive, Complete;
      ghost var was := slots;
      ListedGone(slots, buffed, c, Death);
      var kinds := EndSlots(c, Death);
      RemoveFromList(c);
      TellOne(map[c := was[c]], [], [c], c, [], kinds, Death);
      EmptyOne(was[c], Death);
      return Pairs(c, kinds);
    }

    /** Leaving: the same without telling anyone; a second call finds nothing to do. */
    method Forget(c: Character)
      requires Valid() && c in slots
      modifies this
      ensures Valid() && c !in buffed
      ensures c in slots && slots == old(slots)[c := slots[c]] && |slots[c]| == kindCount
      ensures forall k :: 0 <= k < kindCount ==>
                slots[c][k].expire == 0 && (old(slots)[c][k].expire == 0 ==> slots[c][k] == old(slots)[c][k])
      ensures c !in old(buffed) ==> left == old(left) && buffed == old(buffed) && slots == old(slots)
      ensures applied == old(applied) && refreshed == old(refreshed) && restored == old(restored)
              && expired == old(expired) && died == old(died)
    {
      assert |slots[c]| == kindCount;
      hide Counted, Listed, Swept, AnyActive, Complete;
      ListedGone(slots, buffed, c, Leave);
      ghost var was, list := slots, buffed;
      var kinds := EndSlots(c, Leave);
      RemoveFromList(c);
      EmptyOne(was[c], Leave);
      if c !in list {
        ForgottenTwice(was, list, c, kinds);
      }
    }

    /** The zone is erased: nobody left on the list is in it, and nobody else lost a slot. */
    method ForgetZone(zones: map<Character, int>, zone: int)
      requires Valid() && slots.Keys <= zones.Keys
      modifies this
      ensures Valid() && forall c :: c in buffed ==> c in zones && zones[c] != zone
      ensures slots.Keys == old(slots).Keys
      ensures forall c :: c in slots && zones[c] != zone ==> slots[c] == old(slots)[c]
      ensures forall c, k :: c in slots && 0 <= k < kindCount && zones[c] == zone ==>
                slots[c][k].expire == 0 && (old(slots)[c][k].expire == 0 ==> slots[c][k] == old(slots)[c][k])
      ensures applied == old(applied) && refreshed == old(refreshed) && restored == old(restored)
              && expired == old(expired) && died == old(died)
    {
      hide Counted, Listed, Walked, SweptBut, Swept, AnyActive, Out, Complete;
      ghost var was, hit := slots, InZone(slots, zones, zone);
      WalkStarts(slots, buffed, hit);
      var i := 0;
      while i < |buffed|
        invariant Complete(slots, kindCount) && Counted(slots, applied, restored, expired + died + left, active)
        invariant Walked(was, slots, buffed, i, hit)
        invariant applied == old(applied) && refreshed == old(refreshed) && restored == old(restored)
                  && expired == old(expired) && died == old(died)
        decreases |buffed| - i
      {
        WalkHere(was, slots, buffed, i, hit);
        if zones[buffed[i]] != zone {
          WalkPast(was, slots, buffed, i, hit);
          i := i + 1;
        } else {
          ghost var before := slots;
          var kinds := EndSlots(buffed[i], Leave);
          WalkOut(was, before, buffed, i, hit, kinds);
          OutShorter(buffed, i);
          buffed := Out(buffed, i);
        }
      }
      WalkHere(was, slots, buffed, i, hit);
      EmptyAll(was, slots, hit, kindCount);
    }
  }
}
