/** Timed effects across a logout: which stored effects come back, and for how long. */
module EffectTimers {
  import opened Seqs
  import opened Blobs
  import opened Timers
  import Buffs

  const MAX_MUL := 10

  const MAX_REMAIN_MS: nat := 3600000

  /** Kind 0 multiplies attack, and by 1 it would do nothing; no other kind is known. */
  predicate Restorable(kind: nat, value: int) {
    kind == 0 && 2 <= value <= MAX_MUL
  }

  // ----- saving

  predicate EffectsFit(slots: seq<Buffs.Slot>, frame: nat, nowMs: int) {
    && -0x8000_0000_0000_0000 <= nowMs
    && forall k :: 0 <= k < |slots| ==> SlotFits(slots[k], frame, nowMs)
  }

  predicate SlotFits(slot: Buffs.Slot, frame: nat, nowMs: int) {
    && -0x8000_0000 <= slot.value < 0x8000_0000
    && (slot.expire > frame ==> nowMs + FramesToMs(slot.expire - frame) < 0x8000_0000_0000_0000)
  }

  /** The effects from kind `k` on that still run at `frame`, with the time at which they end. */
  function RunningEffects(slots: seq<Buffs.Slot>, frame: nat, nowMs: int, k: nat): (list: seq<Buff>)
    requires |slots| <= 255 && EffectsFit(slots, frame, nowMs)
    ensures |list| <= if k < |slots| then |slots| - k else 0
    decreases |slots| - k
  {
    if k >= |slots| then []
    else
      var rest := RunningEffects(slots, frame, nowMs, k + 1);
      if !Buffs.Active(slots[k]) || slots[k].expire <= frame then rest
      else [Buff(k, slots[k].value, nowMs + FramesToMs(slots[k].expire - frame))] + rest
  }

  /** The entry of an effect of a kind from `from` on that still runs: its value, and the time at which it ends. */
  predicate Lasts(slots: seq<Buffs.Slot>, frame: nat, nowMs: int, from: nat, e: Buff) {
    && from <= e.kind < |slots| && slots[e.kind].expire > frame && e.value == slots[e.kind].value
    && e.expireAtMs == nowMs + 40 * (slots[e.kind].expire - frame)
  }

  predicate ByKind(list: seq<Buff>) { forall i, j :: 0 <= i < j < |list| ==> list[i].kind < list[j].kind }

  /** Every effect that still runs, once, in order. */
  lemma {:induction false} RunningEffectsAre(slots: seq<Buffs.Slot>, frame: nat, nowMs: int, k: nat)
    requires |slots| <= 255 && EffectsFit(slots, frame, nowMs)
    ensures forall e :: e in RunningEffects(slots, frame, nowMs, k) <==> Lasts(slots, frame, nowMs, k, e)
    ensures ByKind(RunningEffects(slots, frame, nowMs, k))
    decreases |slots| - k
  {
    hide Lasts, ByKind, EffectsFit;
    if k < |slots| {
      var rest := RunningEffects(slots, frame, nowMs, k + 1);
      RunningEffectsAre(slots, frame, nowMs, k + 1);
      forall e { LastsNext(slots, frame, nowMs, k, e); }
      if slots[k].expire > frame {
        FitsAt(slots, frame, nowMs, k);
        var e := Buff(k, slots[k].value, nowMs + FramesToMs(slots[k].expire - frame));
        assert RunningEffects(slots, frame, nowMs, k) == [e] + rest;
        KindNext(slots, frame, nowMs, e, rest);
      } else {
        assert RunningEffects(slots, frame, nowMs, k) == rest;
      }
    } else {
      forall e ensures !Lasts(slots, frame, nowMs, k, e) { NoneLasts(slots, frame, nowMs, k, e); }
      NoneByKind();
    }
  }

  lemma FitsAt(slots: seq<Buffs.Slot>, frame: nat, nowMs: int, k: nat)
    requires EffectsFit(slots, frame, nowMs) && k < |slots|
    ensures SlotFits(slots[k], frame, nowMs) && nowMs >= -0x8000_0000_0000_0000
  {
  }

  lemma NoneLasts(slots: seq<Buffs.Slot>, frame: nat, nowMs: int, k: nat, e: Buff)
    requires k >= |slots|
    ensures !Lasts(slots, frame, nowMs, k, e)
  {
  }

  lemma NoneByKind()
    ensures ByKind([])
  {
  }

  lemma LastsNext(slots: seq<Buffs.Slot>, frame: nat, nowMs: int, k: nat, e: Buff)
    requires k < |slots| <= 255 && EffectsFit(slots, frame, nowMs)
    ensures Lasts(slots, frame, nowMs, k, e) <==>
              Lasts(slots, frame, nowMs, k + 1, e)
              || (slots[k].expire > frame && e.kind == k && e.value == slots[k].value
                  && e.expireAtMs == nowMs + FramesToMs(slots[k].expire - frame))
  {
  }

  lemma KindNext(slots: seq<Buffs.Slot>, frame: nat, nowMs: int, e: Buff, rest: seq<Buff>)
    requires ByKind(rest) && forall x :: x in rest ==> Lasts(slots, frame, nowMs, e.kind + 1, x)
    ensures ByKind([e] + rest)
  {
    forall j | 0 <= j < |rest| ensures e.kind < rest[j].kind { assert rest[j] in rest; }
  }

  method SaveEffects(slots: seq<Buffs.Slot>, frame: nat, nowMs: int) returns (list: seq<Buff>)
    requires |slots| <= 255 && EffectsFit(slots, frame, nowMs)
    ensures list == RunningEffects(slots, frame, nowMs, 0)
    ensures (forall e :: e in list <==> Lasts(slots, frame, nowMs, 0, e)) && ByKind(list)
  {
    hide Lasts, ByKind;
    RunningEffectsAre(slots, frame, nowMs, 0);
    list := [];
    var k := 0;
    while k < |slots|
      invariant k <= |slots|
      invariant list + RunningEffects(slots, frame, nowMs, k) == RunningEffects(slots, frame, nowMs, 0)
    {
      if Buffs.Active(slots[k]) && slots[k].expire > frame {
        list := list + [Buff(k, slots[k].value, nowMs + FramesToMs(slots[k].expire - frame))];
      }
      k := k + 1;
    }
  }

  // ----- restoring

  /** What becomes of one stored effect: skipped when its kind or value is not one that skills give, when it has more
      left than any skill gives, or when its slot has been filled already; dropped when its time has passed. */
  function JudgeEffect(slots: seq<Buffs.Slot>, e: Buff, nowMs: int): Outcome {
    if e.kind >= |slots| || !Restorable(e.kind, e.value) then Skipped
    else if e.expireAtMs <= nowMs then Expired
    else if e.expireAtMs - nowMs > MAX_REMAIN_MS || Buffs.Active(slots[e.kind]) then Skipped
    else Restored(FramesCeil(e.expireAtMs - nowMs))
  }

  function GiveEffects(slots: seq<Buffs.Slot>, list: seq<Buff>, frame: nat, nowMs: int): (r: seq<Buffs.Slot>)
    ensures |r| == |slots|
    decreases |list|
  {
    if list == [] then slots
    else
      match JudgeEffect(slots, list[0], nowMs)
      case Restored(frames) =>
        GiveEffects(slots[list[0].kind := Buffs.Slot(list[0].value, frame + frames)], list[1..], frame, nowMs)
      case _ => GiveEffects(slots, list[1..], frame, nowMs)
  }

  /** The entry is one that skills give, and not too much of it is left: a kind 0 of 2 to 10, for at most an hour. */
  predicate Comes(e: Buff, kinds: nat, nowMs: int) {
    e.kind == 0 < kinds && 2 <= e.value <= 10 && 0 < e.expireAtMs - nowMs <= 3600000
  }

  /** One of the first `i` entries comes back. */
  predicate CameBefore(list: seq<Buff>, kinds: nat, nowMs: int, i: nat) {
    exists j :: 0 <= j < i && j < |list| && Comes(list[j], kinds, nowMs)
  }

  /** Entry `i` cannot be used: no skill gives it, too much is left, or its slot is filled already. One whose time has
      passed is not among them. */
  predicate Unusable(slots: seq<Buffs.Slot>, list: seq<Buff>, nowMs: int, i: nat)
    requires i < |list|
  {
    || !(list[i].kind == 0 < |slots| && 2 <= list[i].value <= 10)
    || (list[i].expireAtMs > nowMs
        && (list[i].expireAtMs - nowMs > 3600000 || slots[0].expire != 0 || CameBefore(list, |slots|, nowMs, i)))
  }

  /** One of the first `i` entries cannot be used. */
  predicate SomeUnusable(slots: seq<Buffs.Slot>, list: seq<Buff>, nowMs: int, i: nat) {
    exists j :: 0 <= j < i && j < |list| && Unusable(slots, list, nowMs, j)
  }

  lemma NoneUnusable(slots: seq<Buffs.Slot>, list: seq<Buff>, nowMs: int)
    ensures !SomeUnusable(slots, list, nowMs, 0)
  {
  }

  lemma OneUnusable(slots: seq<Buffs.Slot>, list: seq<Buff>, nowMs: int, i: nat)
    requires i < |list|
    ensures SomeUnusable(slots, list, nowMs, i + 1) <==>
              SomeUnusable(slots, list, nowMs, i) || Unusable(slots, list, nowMs, i)
  {
    hide Unusable;
  }

  /** An empty slot 0 gets the first entry that comes back, for what is left of it; nothing else changes. */
  lemma {:induction false} GiveEffectsIs(slots: seq<Buffs.Slot>, list: seq<Buff>, frame: nat, nowMs: int)
    ensures var now := GiveEffects(slots, list, frame, nowMs);
            && |now| == |slots| && (forall k :: 0 < k < |slots| ==> now[k] == slots[k])
            && (|slots| > 0 && (slots[0].expire != 0 || !CameBefore(list, |slots|, nowMs, |list|)) ==>
                  now[0] == slots[0])
            && forall i :: 0 <= i < |list| && |slots| > 0 && slots[0].expire == 0 && Comes(list[i], |slots|, nowMs)
                           && !CameBefore(list, |slots|, nowMs, i) ==>
                 now[0] == Buffs.Slot(list[i].value, frame + (list[i].expireAtMs - nowMs + 39) / 40)
    decreases |list|
  {
    if list != [] {
      var rest := list[1..];
      var next := match JudgeEffect(slots, list[0], nowMs)
                  case Restored(f) => slots[list[0].kind := Buffs.Slot(list[0].value, frame + f)]
                  case _ => slots;
      GiveEffectsIs(next, rest, frame, nowMs);
      CameNext(list, |slots|, nowMs);
      forall i | 0 <= i < |list| && |slots| > 0 && slots[0].expire == 0 && Comes(list[i], |slots|, nowMs)
                 && !CameBefore(list, |slots|, nowMs, i)
        ensures GiveEffects(slots, list, frame, nowMs)[0]
                == Buffs.Slot(list[i].value, frame + (list[i].expireAtMs - nowMs + 39) / 40)
      {
        if i > 0 {
          assert rest[i - 1] == list[i] && !Comes(list[0], |slots|, nowMs);
          assert !CameBefore(rest, |slots|, nowMs, i - 1);
        }
      }
    }
  }

  lemma CameNext(list: seq<Buff>, kinds: nat, nowMs: int)
    requires list != []
    ensures forall i :: 0 <= i < |list| ==>
              (CameBefore(list, kinds, nowMs, i + 1) <==>
                 Comes(list[0], kinds, nowMs) || CameBefore(list[1..], kinds, nowMs, i))
  {
    forall i | 0 <= i < |list|
      ensures CameBefore(list, kinds, nowMs, i + 1) <==>
                Comes(list[0], kinds, nowMs) || CameBefore(list[1..], kinds, nowMs, i)
    {
      if CameBefore(list, kinds, nowMs, i + 1) {
        var j :| 0 <= j < i + 1 && j < |list| && Comes(list[j], kinds, nowMs);
        assert j > 0 ==> list[1..][j - 1] == list[j];
      }
      if CameBefore(list[1..], kinds, nowMs, i) {
        var j :| 0 <= j < i && j < |list| - 1 && Comes(list[1..][j], kinds, nowMs);
        assert list[j + 1] == list[1..][j];
      }
    }
  }

  /** The effects column of a row: those of a dead player are not looked at. */
  function Stored(bytes: seq<Byte>, kinds: nat, dead: bool): Unpacked<Buff> {
    if dead then Empty else UnpackOf(BuffOf, BUFF_BYTES, bytes, kinds)
  }

  /** One entry: the effect system is told only of what comes back. */
  method RestoreOne(sys: Buffs.BuffSystem, c: Buffs.Character, e: Buff, frame: nat, nowMs: int) returns (o: Outcome)
    requires sys.Valid() && c in sys.slots
    modifies sys
    ensures sys.Valid() && o == JudgeEffect(old(sys.slots)[c], e, nowMs)
    ensures sys.slots == old(sys.slots)[c := GiveEffects(old(sys.slots)[c], [e], frame, nowMs)]
    ensures sys.restored == old(sys.restored) + (if o.Restored? then 1 else 0)
    ensures sys.applied == old(sys.applied) && sys.refreshed == old(sys.refreshed)
    ensures sys.expired == old(sys.expired) && sys.died == old(sys.died) && sys.left == old(sys.left)
  {
    hide Buffs.Listed, Buffs.Counted;
    ghost var before := sys.slots;
    assert before == before[c := before[c]];
    if e.kind >= sys.kindCount || !Restorable(e.kind, e.value) {
      return Skipped;
    }
    if e.expireAtMs <= nowMs {
      return Expired;
    }
    var remainMs := e.expireAtMs - nowMs;
    if remainMs > MAX_REMAIN_MS {
      return Skipped;
    }
    var done := sys.Restore(c, e.kind, e.value, FramesCeil(remainMs), frame);
    return if done then Restored(FramesCeil(remainMs)) else Skipped;
  }

  lemma GiveFirst(slots: seq<Buffs.Slot>, list: seq<Buff>, frame: nat, nowMs: int)
    requires list != []
    ensures GiveEffects(slots, list, frame, nowMs) ==
              GiveEffects(GiveEffects(slots, list[..1], frame, nowMs), list[1..], frame, nowMs)
  {
  }

  /** The whole column; a rewrite is asked for exactly when it could not be read or something in it was skipped. */
  method RestoreEffects(sys: Buffs.BuffSystem, c: Buffs.Character, bytes: seq<Byte>, dead: bool, frame: nat, nowMs: int)
    returns (expired: nat, skipped: nat, rewrite: bool)
    requires sys.Valid() && c in sys.slots
    modifies sys
    ensures sys.Valid()
    ensures var back := Stored(bytes, sys.kindCount, dead);
            var list := if back.Items? then back.items else [];
            && sys.slots == old(sys.slots)[c := GiveEffects(old(sys.slots)[c], list, frame, nowMs)]
            && sys.restored - old(sys.restored) + expired + skipped == |list|
            && (rewrite <==> back.Bad? || skipped > 0)
            && (rewrite <==> back.Bad? || SomeUnusable(old(sys.slots)[c], list, nowMs, |list|))
    ensures sys.applied == old(sys.applied) && sys.refreshed == old(sys.refreshed)
    ensures sys.expired == old(sys.expired) && sys.died == old(sys.died) && sys.left == old(sys.left)
  {
    assert |sys.slots[c]| == sys.kindCount;
    hide GiveEffects, JudgeEffect, UnpackOf, sys.Valid, Unusable, Filled, SomeUnusable;
    var back := Stored(bytes, sys.kindCount, dead);
    expired, skipped, rewrite := 0, 0, back.Bad?;
    var list := if back.Items? then back.items else [];
    ghost var before, given := sys.slots, GiveEffects(sys.slots[c], list, frame, nowMs);
    assert before == before[c := before[c]] && list[0..] == list;
    NoneFilled(before[c], list, nowMs);
    NoneUnusable(before[c], list, nowMs);
    var i := 0;
    while i < |list|
      invariant i <= |list| && sys.Valid() && c in sys.slots && sys.slots == before[c := sys.slots[c]]
      invariant GiveEffects(sys.slots[c], list[i..], frame, nowMs) == given
      invariant sys.restored - old(sys.restored) + expired + skipped == i && (rewrite <==> back.Bad? || skipped > 0)
      invariant Filled(before[c], sys.slots[c], list, nowMs, i)
      invariant rewrite <==> back.Bad? || SomeUnusable(before[c], list, nowMs, i)
      invariant sys.applied == old(sys.applied) && sys.refreshed == old(sys.refreshed)
      invariant sys.expired == old(sys.expired) && sys.died == old(sys.died) && sys.left == old(sys.left)
    {
      GiveFirst(sys.slots[c], list[i..], frame, nowMs);
      assert list[i..][..1] == [list[i]] && list[i..][1..] == list[i + 1..];
      OneFills(before[c], sys.slots[c], list, frame, nowMs, i);
      OneUnusable(before[c], list, nowMs, i);
      var o := RestoreOne(sys, c, list[i], frame, nowMs);
      match o {
        case Skipped => skipped, rewrite := skipped + 1, true;
        case Expired => expired := expired + 1;
        case Restored(_) =>
      }
      i := i + 1;
    }
    GiveNone(sys.slots[c], list[i..], frame, nowMs);
  }

  /** Slot 0 is filled if it was, or if one of the first `i` entries has come back. */
  predicate Filled(was: seq<Buffs.Slot>, now: seq<Buffs.Slot>, list: seq<Buff>, nowMs: int, i: nat) {
    && |now| == |was| && (forall k :: 0 < k < |was| ==> now[k] == was[k])
    && (|was| > 0 ==> (now[0].expire != 0 <==> was[0].expire != 0 || CameBefore(list, |was|, nowMs, i)))
  }

  lemma NoneFilled(was: seq<Buffs.Slot>, list: seq<Buff>, nowMs: int)
    ensures Filled(was, was, list, nowMs, 0)
  {
  }

  lemma OneFills(was: seq<Buffs.Slot>, now: seq<Buffs.Slot>, list: seq<Buff>, frame: nat, nowMs: int, i: nat)
    requires i < |list| && Filled(was, now, list, nowMs, i)
    ensures JudgeEffect(now, list[i], nowMs) == Skipped <==> Unusable(was, list, nowMs, i)
    ensures Filled(was, GiveEffects(now, [list[i]], frame, nowMs), list, nowMs, i + 1)
  {
    assert [list[i]][1..] == [];
    GiveNone(match JudgeEffect(now, list[i], nowMs)
             case Restored(f) => now[list[i].kind := Buffs.Slot(list[i].value, frame + f)]
             case _ => now, [], frame, nowMs);
    assert CameBefore(list, |was|, nowMs, i + 1) <==> CameBefore(list, |was|, nowMs, i) || Comes(list[i], |was|, nowMs);
  }

  lemma GiveNone(slots: seq<Buffs.Slot>, list: seq<Buff>, frame: nat, nowMs: int)
    requires list == []
    ensures GiveEffects(slots, list, frame, nowMs) == slots
  {
  }

  // ----- the whole way round

  /** What is left of an effect after a logout: nothing if it did not run, if its value is not one that comes back, or
      if too little or too much time is left; otherwise the same value for what is left of it, rounded up to a frame. */
  function EffectAfter(k: nat, slot: Buffs.Slot, frame: nat, nowMs: int, frame': nat, nowMs': int): Buffs.Slot {
    if slot.expire <= frame || !Restorable(k, slot.value) then Buffs.NONE
    else
      var left := FramesToMs(slot.expire - frame) - (nowMs' - nowMs);
      if 0 < left <= MAX_REMAIN_MS then Buffs.Slot(slot.value, frame' + FramesCeil(left)) else Buffs.NONE
  }

  /** One stored effect into a slot that is empty. */
  lemma GivesOne(slots: seq<Buffs.Slot>, now: seq<Buffs.Slot>, frame: nat, nowMs: int, k: nat, frame': nat, nowMs': int)
    requires k < |slots| <= 255 && |now| == |slots| && EffectsFit(slots, frame, nowMs) && now[k] == Buffs.NONE
    requires slots[k].expire > frame
    ensures var e := Buff(k, slots[k].value, nowMs + FramesToMs(slots[k].expire - frame));
            var was := EffectAfter(k, slots[k], frame, nowMs, frame', nowMs');
            && (JudgeEffect(now, e, nowMs').Restored? ==>
                  was == Buffs.Slot(e.value, frame' + JudgeEffect(now, e, nowMs').frames))
            && (!JudgeEffect(now, e, nowMs').Restored? ==> was == Buffs.NONE)
  {
  }

  /** Entries of other kinds leave a slot alone. */
  lemma {:induction false} GiveEffectsFrom(slots: seq<Buffs.Slot>, frame: nat, nowMs: int, k: nat, now: seq<Buffs.Slot>,
                                           frame': nat, nowMs': int, n: nat)
    requires |slots| <= 255 && EffectsFit(slots, frame, nowMs) && |now| == |slots| && n < |slots|
    requires forall q :: k <= q < |slots| ==> now[q] == Buffs.NONE
    ensures GiveEffects(now, RunningEffects(slots, frame, nowMs, k), frame', nowMs')[n] ==
              if n < k then now[n] else EffectAfter(n, slots[n], frame, nowMs, frame', nowMs')
    decreases |slots| - k
  {
    if k < |slots| {
      var list := RunningEffects(slots, frame, nowMs, k);
      if !Buffs.Active(slots[k]) || slots[k].expire <= frame {
        GiveEffectsFrom(slots, frame, nowMs, k + 1, now, frame', nowMs', n);
      } else {
        assert list[1..] == RunningEffects(slots, frame, nowMs, k + 1);
        GivesOne(slots, now, frame, nowMs, k, frame', nowMs');
        var next := match JudgeEffect(now, list[0], nowMs')
                    case Restored(f) => now[k := Buffs.Slot(list[0].value, frame' + f)]
                    case _ => now;
        assert GiveEffects(now, list, frame', nowMs') == GiveEffects(next, list[1..], frame', nowMs');
        GiveEffectsFrom(slots, frame, nowMs, k + 1, next, frame', nowMs', n);
      }
    }
  }

  /** Save, pack, unpack and restore into a new character: every effect comes back by itself, with its own value and its
      own remaining time, whatever the clock did in between. */
  lemma EffectsSurviveLogout(slots: seq<Buffs.Slot>, frame: nat, nowMs: int, empty: seq<Buffs.Slot>, frame': nat,
                             nowMs': int, k: nat)
    requires k < |slots| <= 255 && EffectsFit(slots, frame, nowMs)
    requires |empty| == |slots| && forall q :: 0 <= q < |slots| ==> empty[q] == Buffs.NONE
    ensures var list := RunningEffects(slots, frame, nowMs, 0);
            var bytes := Packed(BuffBytes, BUFF_BYTES, list, HEADER + |slots| * BUFF_BYTES);
            var back := Stored(bytes, |slots|, false);
            && !back.Bad?
            && var now := GiveEffects(empty, if back.Items? then back.items else [], frame', nowMs')[k];
            var left := 40 * (slots[k].expire - frame) - (nowMs' - nowMs);
            now == if slots[k].expire > frame && k == 0 && 2 <= slots[k].value <= 10 && 0 < left <= 3600000
                   then Buffs.Slot(slots[k].value, frame' + (left + 39) / 40) else Buffs.Slot(0, 0)
  {
    var list := RunningEffects(slots, frame, nowMs, 0);
    BuffsInvert();
    UnpackInvertsPack(BuffBytes, BuffOf, BUFF_BYTES, list, HEADER + |slots| * BUFF_BYTES, |slots|);
    GiveEffectsFrom(slots, frame, nowMs, 0, empty, frame', nowMs', k);
  }

  /** An effect as a skill gives it, with the clock not set back in between: it comes back exactly if time is left, less
      than a frame too long and never for longer than it had; and with no time gone by, for exactly as long. */
  lemma EffectsAreNotProlonged(k: nat, slot: Buffs.Slot, frame: nat, nowMs: int, frame': nat, nowMs': int)
    requires k == 0 && 2 <= slot.value <= 10 && slot.expire > frame && 40 * (slot.expire - frame) <= 3600000
             && nowMs <= nowMs'
    ensures var after, had, gone := EffectAfter(k, slot, frame, nowMs, frame', nowMs'), 40 * (slot.expire - frame),
            nowMs' - nowMs;
            && (after.expire != 0 <==> gone < had)
            && (after.expire != 0 ==>
                  && after.value == slot.value && frame' < after.expire <= frame' + (slot.expire - frame)
                  && had - gone <= 40 * (after.expire - frame') < had - gone + 40)
            && (gone == 0 ==> after.expire - frame' == slot.expire - frame)
  {
    if nowMs' - nowMs < FramesToMs(slot.expire - frame) {
      NeverEarly(slot.expire - frame, slot.expire - frame, nowMs' - nowMs);
    }
  }
}
