/** Cooldowns across a logout: frames to wall-clock time and back. */
module Timers {
  import opened Seqs
  import opened Blobs

  const FRAME_MS: nat := 40

  function FramesToMs(frames: nat): nat {
    frames * FRAME_MS
  }

  function FramesCeil(ms: nat): nat {
    (ms + FRAME_MS - 1) / FRAME_MS
  }

  /** The frames a cooldown of `cooldown` frames still has when `ms` are left; the table's length caps it. */
  function Remaining(cooldown: nat, ms: nat): nat {
    if ms >= FramesToMs(cooldown) then cooldown else FramesCeil(ms)
  }

  /** A cooldown with `r` frames left is given back after a gap of `g` ms as the smaller of the table's length and what
      is left of it rounded up: never ready early unless capped, and less than one frame late. */
  lemma NeverEarly(cooldown: nat, r: nat, g: int)
    requires g < 40 * r
    ensures var left := 40 * r - g; var frames := Remaining(cooldown, left);
            && frames == (if cooldown < (left + 39) / 40 then cooldown else (left + 39) / 40)
            && (frames < cooldown ==> left <= 40 * frames < left + 40)
            && (g == 0 && r <= cooldown ==> frames == r)
  {
  }

  // ----- saving

  /** The skills from `id` on that are not ready at `frame`, with the time at which they will be. */
  function Running(ready: seq<nat>, frame: nat, nowMs: int, id: nat): (list: seq<Cooldown>)
    requires |ready| <= 256 && TimesFit(ready, frame, nowMs)
    ensures |list| <= if id < |ready| then |ready| - id else 0
    decreases |ready| - id
  {
    if id >= |ready| then []
    else
      (if ready[id] <= frame then [] else [Cooldown(id, nowMs + FramesToMs(ready[id] - frame))])
          + Running(ready, frame, nowMs, id + 1)
  }

  predicate TimesFit(ready: seq<nat>, frame: nat, nowMs: int) {
    && -0x8000_0000_0000_0000 <= nowMs
    && forall id ::
           0 <= id < |ready| && ready[id] > frame ==> nowMs + FramesToMs(ready[id] - frame) < 0x8000_0000_0000_0000
  }

  /** The entry of a skill from `from` on that is not ready: the time at which it will be. */
  predicate Waits(ready: seq<nat>, frame: nat, nowMs: int, from: nat, e: Cooldown) {
    && from <= e.skillId < |ready| && ready[e.skillId] > frame
    && e.readyAtMs == nowMs + 40 * (ready[e.skillId] - frame)
  }

  predicate InOrder(list: seq<Cooldown>) { forall i, j :: 0 <= i < j < |list| ==> list[i].skillId < list[j].skillId }

  /** Every skill that is not ready, once, in order. */
  lemma {:induction false} RunningIs(ready: seq<nat>, frame: nat, nowMs: int, id: nat)
    requires |ready| <= 256 && TimesFit(ready, frame, nowMs)
    ensures forall e :: e in Running(ready, frame, nowMs, id) <==> Waits(ready, frame, nowMs, id, e)
    ensures InOrder(Running(ready, frame, nowMs, id))
    decreases |ready| - id
  {
    hide Waits, InOrder;
    if id < |ready| {
      var rest := Running(ready, frame, nowMs, id + 1);
      RunningIs(ready, frame, nowMs, id + 1);
      forall e { WaitsNext(ready, frame, nowMs, id, e); }
      if ready[id] > frame {
        var e := Cooldown(id, nowMs + 40 * (ready[id] - frame));
        assert Running(ready, frame, nowMs, id) == [e] + rest;
        OrderNext(ready, frame, nowMs, e, rest);
      } else {
        assert Running(ready, frame, nowMs, id) == rest;
      }
    } else {
      forall e ensures !Waits(ready, frame, nowMs, id, e) { NoneWaits(ready, frame, nowMs, id, e); }
      NoneOrdered();
    }
  }

  lemma NoneWaits(ready: seq<nat>, frame: nat, nowMs: int, id: nat, e: Cooldown)
    requires id >= |ready|
    ensures !Waits(ready, frame, nowMs, id, e)
  {
  }

  lemma NoneOrdered()
    ensures InOrder([])
  {
  }

  lemma WaitsNext(ready: seq<nat>, frame: nat, nowMs: int, id: nat, e: Cooldown)
    requires id < |ready| <= 256 && TimesFit(ready, frame, nowMs)
    ensures Waits(ready, frame, nowMs, id, e) <==>
              Waits(ready, frame, nowMs, id + 1, e)
              || (ready[id] > frame && e == Cooldown(id, nowMs + FramesToMs(ready[id] - frame)))
  {
  }

  lemma OrderNext(ready: seq<nat>, frame: nat, nowMs: int, e: Cooldown, rest: seq<Cooldown>)
    requires InOrder(rest) && forall x :: x in rest ==> Waits(ready, frame, nowMs, e.skillId + 1, x)
    ensures InOrder([e] + rest)
  {
    forall j | 0 <= j < |rest| ensures e.skillId < rest[j].skillId { assert rest[j] in rest; }
  }

  method SaveCooldowns(ready: array<nat>, frame: nat, nowMs: int) returns (list: seq<Cooldown>)
    requires 1 <= ready.Length <= 256 && TimesFit(ready[..], frame, nowMs)
    ensures list == Running(ready[..], frame, nowMs, 1)
    ensures (forall e :: e in list <==> Waits(ready[..], frame, nowMs, 1, e)) && InOrder(list)
  {
    hide Waits, InOrder;
    RunningIs(ready[..], frame, nowMs, 1);
    list := [];
    var id := 1;
    while id < ready.Length
      invariant 1 <= id <= ready.Length && list + Running(ready[..], frame, nowMs, id)
                == Running(ready[..], frame, nowMs, 1)
    {
      if ready[id] > frame {
        list := list + [Cooldown(id, nowMs + FramesToMs(ready[id] - frame))];
      }
      id := id + 1;
    }
  }

  // ----- restoring

  datatype Outcome = Skipped | Expired | Restored(frames: nat)

  /** What becomes of one stored cooldown: skipped when the skill is gone or has been given already, dropped when its
      time has passed. */
  function Judge(skills: map<int, nat>, ready: seq<nat>, e: Cooldown, nowMs: int): Outcome
    requires forall id :: id in skills ==> 0 <= id < |ready|
  {
    if e.skillId !in skills || ready[e.skillId] != 0 then Skipped
    else if e.readyAtMs <= nowMs || Remaining(skills[e.skillId], e.readyAtMs - nowMs) == 0 then Expired
    else Restored(Remaining(skills[e.skillId], e.readyAtMs - nowMs))
  }

  function GiveBack(skills: map<int, nat>, ready: seq<nat>, list: seq<Cooldown>, frame: nat, nowMs: int): (r: seq<nat>)
    requires forall id :: id in skills ==> 0 <= id < |ready|
    ensures |r| == |ready|
    decreases |list|
  {
    if list == [] then ready
    else
      match Judge(skills, ready, list[0], nowMs)
      case Restored(frames) => GiveBack(skills, ready[list[0].skillId := frame + frames], list[1..], frame, nowMs)
      case _ => GiveBack(skills, ready, list[1..], frame, nowMs)
  }

  /** The entry would start a cooldown: its skill is known and has one, and its time is to come. */
  predicate Starts(skills: map<int, nat>, e: Cooldown, nowMs: int) {
    e.skillId in skills && skills[e.skillId] > 0 && e.readyAtMs > nowMs
  }

  /** One of the first `i` entries starts the cooldown of skill `id`. */
  predicate Given(skills: map<int, nat>, list: seq<Cooldown>, nowMs: int, id: int, i: nat) {
    exists j :: 0 <= j < i && j < |list| && list[j].skillId == id && Starts(skills, list[j], nowMs)
  }

  /** Entry `i` is of no use: its skill is gone, running already, or given by an entry before. */
  predicate Useless(skills: map<int, nat>, ready: seq<nat>, list: seq<Cooldown>, nowMs: int, i: nat)
    requires i < |list| && forall id :: id in skills ==> 0 <= id < |ready|
  {
    list[i].skillId !in skills || ready[list[i].skillId] != 0 || Given(skills, list, nowMs, list[i].skillId, i)
  }

  /** A skill that is ready gets its cooldown from the first entry that starts it; nothing else changes. */
  lemma {:induction false} GiveBackIs(skills: map<int, nat>, ready: seq<nat>, list: seq<Cooldown>, frame: nat,
                                      nowMs: int, id: nat)
    requires (forall q :: q in skills ==> 0 <= q < |ready|) && id < |ready|
    ensures var now := GiveBack(skills, ready, list, frame, nowMs)[id];
            && (ready[id] != 0 || !Given(skills, list, nowMs, id, |list|) ==> now == ready[id])
            && forall i :: 0 <= i < |list| && ready[id] == 0 && list[i].skillId == id && Starts(skills, list[i], nowMs)
                           && !Given(skills, list, nowMs, id, i) ==>
                 now == frame + Shorter(skills[id], (list[i].readyAtMs - nowMs + 39) / 40)
    decreases |list|
  {
    if list != [] {
      var rest := list[1..];
      var next := match Judge(skills, ready, list[0], nowMs)
                  case Restored(f) => ready[list[0].skillId := frame + f]
                  case _ => ready;
      GiveBackIs(skills, next, rest, frame, nowMs, id);
      GivenNext(skills, list, nowMs, id);
      forall i | 0 <= i < |list| && ready[id] == 0 && list[i].skillId == id && Starts(skills, list[i], nowMs)
                 && !Given(skills, list, nowMs, id, i)
        ensures GiveBack(skills, ready, list, frame, nowMs)[id]
                == frame + Shorter(skills[id], (list[i].readyAtMs - nowMs + 39) / 40)
      {
        if i > 0 {
          assert rest[i - 1] == list[i];
          assert !(list[0].skillId == id && Starts(skills, list[0], nowMs));
          assert !Given(skills, rest, nowMs, id, i - 1);
        }
      }
    }
  }

  function Shorter(a: nat, b: nat): nat { if a < b then a else b }

  lemma GivenNext(skills: map<int, nat>, list: seq<Cooldown>, nowMs: int, id: int)
    requires list != []
    ensures forall i :: 0 <= i < |list| ==>
              (Given(skills, list, nowMs, id, i + 1) <==>
                 (list[0].skillId == id && Starts(skills, list[0], nowMs)) || Given(skills, list[1..], nowMs, id, i))
  {
    forall i | 0 <= i < |list|
      ensures Given(skills, list, nowMs, id, i + 1) <==>
                (list[0].skillId == id && Starts(skills, list[0], nowMs)) || Given(skills, list[1..], nowMs, id, i)
    {
      assert forall j :: 0 <= j < |list| - 1 ==> list[1..][j] == list[j + 1];
      if Given(skills, list, nowMs, id, i + 1) {
        var j :| 0 <= j < i + 1 && j < |list| && list[j].skillId == id && Starts(skills, list[j], nowMs);
        assert j > 0 ==> list[1..][j - 1] == list[j];
      }
      if Given(skills, list[1..], nowMs, id, i) {
        var j :| 0 <= j < i && j < |list| - 1 && list[1..][j].skillId == id && Starts(skills, list[1..][j], nowMs);
        assert list[j + 1] == list[1..][j];
      }
    }
  }

  lemma GivenMore(skills: map<int, nat>, list: seq<Cooldown>, nowMs: int, i: nat)
    requires i < |list|
    ensures forall id :: Given(skills, list, nowMs, id, i + 1) <==>
              Given(skills, list, nowMs, id, i) || (list[i].skillId == id && Starts(skills, list[i], nowMs))
  {
  }

  method RestoreCooldowns(skills: map<int, nat>, ready: array<nat>, list: seq<Cooldown>, frame: nat, nowMs: int)
    returns (restored: nat, expired: nat, skipped: nat, rewrite: bool)
    requires forall id :: id in skills ==> 0 <= id < ready.Length
    modifies ready
    ensures ready[..] == GiveBack(skills, old(ready[..]), list, frame, nowMs)
    ensures restored + expired + skipped == |list| && (rewrite <==> skipped > 0)
    ensures rewrite <==> exists i :: 0 <= i < |list| && Useless(skills, old(ready[..]), list, nowMs, i)
  {
    restored, expired, skipped, rewrite := 0, 0, 0, false;
    var i := 0;
    while i < |list|
      invariant i <= |list|
      invariant GiveBack(skills, ready[..], list[i..], frame, nowMs)
                == GiveBack(skills, old(ready[..]), list, frame, nowMs)
      invariant restored + expired + skipped == i && (rewrite <==> skipped > 0)
      invariant forall id :: id in skills ==>
                  (ready[id] != 0 <==> old(ready[..])[id] != 0 || Given(skills, list, nowMs, id, i))
      invariant rewrite <==> exists j :: 0 <= j < i && Useless(skills, old(ready[..]), list, nowMs, j)
    {
      var e := list[i];
      GivenMore(skills, list, nowMs, i);
      assert Useless(skills, old(ready[..]), list, nowMs, i) <==> e.skillId !in skills || ready[e.skillId] != 0;
      assert list[i..][0] == e && list[i..][1..] == list[i + 1..];
      i := i + 1;
      if e.skillId !in skills || ready[e.skillId] != 0 {
        skipped, rewrite := skipped + 1, true;
        continue;
      }
      if e.readyAtMs <= nowMs {
        expired := expired + 1;
        continue;
      }
      var remainMs := e.readyAtMs - nowMs;
      var frames: nat := if remainMs >= FramesToMs(skills[e.skillId]) then skills[e.skillId] else FramesCeil(remainMs);
      if frames == 0 {
        expired := expired + 1;
        continue;
      }
      ghost var was: seq<nat> := ready[..];
      ready[e.skillId] := frame + frames;
      assert ready[..] == was[e.skillId := ready[e.skillId]];
      restored := restored + 1;
    }
  }

  // ----- the whole way round

  /** When skill `id` is ready after a logout: at once if it was, if the skill is gone, or if the time has run out. */
  function ReadyAfter(skills: map<int, nat>, id: int, ready: nat, frame: nat, nowMs: int, frame': nat,
                      nowMs': int): nat {
    if ready <= frame || id !in skills then 0
    else
      var left := FramesToMs(ready - frame) - (nowMs' - nowMs);
      if left <= 0 || Remaining(skills[id], left) == 0 then 0 else frame' + Remaining(skills[id], left)
  }

  /** Entries for other skills leave a skill alone. */
  lemma {:induction false} GiveBackFrom(skills: map<int, nat>, ready: seq<nat>, frame: nat, nowMs: int, k: nat,
                                        now: seq<nat>, frame': nat, nowMs': int, id: nat)
    requires |ready| <= 256 && TimesFit(ready, frame, nowMs) && |now| == |ready| && id < |ready|
    requires forall q :: q in skills ==> 0 <= q < |ready|
    requires forall q :: k <= q < |ready| ==> now[q] == 0
    ensures GiveBack(skills, now, Running(ready, frame, nowMs, k), frame', nowMs')[id] ==
              if id < k then now[id] else ReadyAfter(skills, id, ready[id], frame, nowMs, frame', nowMs')
    decreases |ready| - k
  {
    if k < |ready| {
      var list := Running(ready, frame, nowMs, k);
      if ready[k] <= frame {
        assert list == Running(ready, frame, nowMs, k + 1);
        GiveBackFrom(skills, ready, frame, nowMs, k + 1, now, frame', nowMs', id);
      } else {
        assert list[1..] == Running(ready, frame, nowMs, k + 1);
        var next := match Judge(skills, now, list[0], nowMs') case Restored(f) => now[k := frame' + f] case _ => now;
        assert GiveBack(skills, now, list, frame', nowMs') == GiveBack(skills, next, list[1..], frame', nowMs');
        GiveBackFrom(skills, ready, frame, nowMs, k + 1, next, frame', nowMs', id);
      }
    }
  }

  /** Save, pack, unpack and restore into a new character: every skill is ready exactly when its own remaining time
      says, whatever the clock did in between. */
  lemma CooldownsSurviveLogout(skills: map<int, nat>, ready: seq<nat>, frame: nat, nowMs: int, unused: seq<nat>,
                               frame': nat, nowMs': int, id: nat)
    requires 1 <= |ready| <= 256 && TimesFit(ready, frame, nowMs) && 1 <= id < |ready|
    requires |unused| == |ready| && forall q :: 0 <= q < |ready| ==> unused[q] == 0
    requires forall q :: q in skills ==> 1 <= q < |ready|
    ensures var most := |ready| - 1;
            var bytes := Packed(CooldownBytes, COOLDOWN_BYTES, Running(ready, frame, nowMs, 1),
                                HEADER + most * COOLDOWN_BYTES);
            var back := UnpackOf(CooldownOf, COOLDOWN_BYTES, bytes, most);
            && !back.Bad?
            && var now := GiveBack(skills, unused, if back.Items? then back.items else [], frame', nowMs')[id];
            var left := 40 * (ready[id] - frame) - (nowMs' - nowMs);
            && (ready[id] <= frame || id !in skills || left <= 0 ==> now == 0)
            && (ready[id] > frame && id in skills && left > 0 ==>
                  now == if skills[id] == 0 then 0
                         else frame' + (if skills[id] < (left + 39) / 40 then skills[id] else (left + 39) / 40))
  {
    var list, most := Running(ready, frame, nowMs, 1), |ready| - 1;
    CooldownsInvert();
    UnpackInvertsPack(CooldownBytes, CooldownOf, COOLDOWN_BYTES, list, HEADER + most * COOLDOWN_BYTES, most);
    GiveBackFrom(skills, ready, frame, nowMs, 1, unused, frame', nowMs', id);
  }
}
