/** Accepting the positions that clients claim, against a budget that time refills. */
module Movement {

  const ACCEPT_DIST_SQ := 64.0
  const CAP := 8.0
  const SLACK := 0.25
  const FRAME_SECONDS := 0.04

  /** The size of the map. */
  datatype Area = Area(width: real, height: real)

  datatype Mover = Mover(x: real, y: real, budget: real, budgetFrame: nat, moving: bool, direction: int)

  /** A start request at `frame`: the claimed position, `distance` from where the server has the player; whether a
      blocked tile lies on the way there, and whether the next step in `direction` is blocked from the place kept. */
  datatype Start = Start(frame: nat, x: real, y: real, direction: int, distance: real, pathBlocked: bool,
                         stepBlocked: bool)

  function Clamp(v: real, max: real): real {
    if v < 0.0 then 0.0 else if v > max then max else v
  }

  predicate Inside(area: Area, m: Mover) {
    0.0 <= m.x <= area.width && 0.0 <= m.y <= area.height
  }

  function DistanceSq(x: real, y: real, x': real, y': real): real {
    (x' - x) * (x' - x) + (y' - y) * (y' - y)
  }

  /** `distance` is the square root the code takes. */
  predicate Measured(m: Mover, s: Start) {
    s.distance >= 0.0 && s.distance * s.distance == DistanceSq(m.x, m.y, s.x, s.y) && m.budgetFrame <= s.frame
  }

  function Accrued(speed: nat, frames: nat): real {
    speed as real * SLACK * (frames as real * FRAME_SECONDS)
  }

  lemma AccruedAdds(speed: nat, a: nat, b: nat)
    ensures Accrued(speed, a + b) == Accrued(speed, a) + Accrued(speed, b)
    ensures Accrued(speed, a) >= 0.0
    ensures Accrued(speed, 0) == 0.0
  {
  }

  function Min(a: real, b: real): real {
    if a < b then a else b
  }

  /** What the budget amounts to at `frame`. */
  function Available(m: Mover, speed: nat, frame: nat): real
    requires m.budgetFrame <= frame
  {
    Min(CAP, m.budget + Accrued(speed, frame - m.budgetFrame))
  }

  predicate Sound(area: Area, m: Mover) {
    0.0 <= m.budget <= CAP && Inside(area, m)
  }

  /** A standing player's claim that is near enough and not behind a blocked tile: the budget decides. */
  predicate Claims(m: Mover, s: Start) {
    !m.moving && s.distance * s.distance <= ACCEPT_DIST_SQ && !s.pathBlocked
  }

  /** Is the claimed position taken over? */
  predicate Accepts(m: Mover, s: Start, speed: nat)
    requires m.budgetFrame <= s.frame
  {
    Claims(m, s) && s.distance <= Available(m, speed, s.frame)
  }

  /** The distance charged for a start request. */
  function Charged(m: Mover, s: Start, speed: nat): real
    requires m.budgetFrame <= s.frame
  {
    if Accepts(m, s, speed) then s.distance else 0.0
  }

  /** A start request handled. */
  ghost predicate Started(area: Area, speed: nat, m: Mover, m': Mover, dead: bool, s: Start)
    requires Measured(m, s)
  {
    && (dead ==> m' == m)
    && (m.moving ==> m' == m.(moving := m'.moving, direction := m'.direction))
    && (!dead ==>
          (m'.x, m'.y) == if Accepts(m, s, speed) then (Clamp(s.x, area.width), Clamp(s.y, area.height))
          else (m.x, m.y))
    && (!dead ==> m'.moving == if m.moving && s.direction == m.direction then true else !s.stepBlocked)
    && (!dead ==> m'.direction == if m.moving || !s.stepBlocked then s.direction else m.direction)
    && (if !dead && Claims(m, s)
        then m'.budgetFrame == s.frame && m'.budget == Available(m, speed, s.frame) - Charged(m, s, speed)
        else m'.budgetFrame == m.budgetFrame && m'.budget == m.budget)
    && Available(m', speed, s.frame) + (if dead then 0.0 else Charged(m, s, speed)) == Available(m, speed, s.frame)
  }

  // ----- the refill, in numbers

  /** A hundredth of a tile a frame for every tile a second of speed, up to eight tiles. */
  function Filled(budget: real, speed: nat, frames: nat): real {
    var filled := budget + (speed * frames) as real / 100.0;
    if filled > 8.0 then 8.0 else filled
  }

  lemma AccruedIs(speed: nat, frames: nat)
    ensures Accrued(speed, frames) == (speed * frames) as real / 100.0
  {
    Product(speed, frames);
    assert speed as real * SLACK * (frames as real * FRAME_SECONDS)
           == speed as real * frames as real * (SLACK * FRAME_SECONDS);
  }

  lemma Product(a: nat, b: nat)
    ensures (a * b) as real == a as real * b as real
  {
  }

  lemma FilledIs(m: Mover, speed: nat, frame: nat)
    requires m.budgetFrame <= frame
    ensures Available(m, speed, frame) == Filled(m.budget, speed, frame - m.budgetFrame)
  {
    AccruedIs(speed, frame - m.budgetFrame);
  }

  class MoveHandler {
    const area: Area
    const speed: nat
    var m: Mover
    var rejects: nat       // claims over budget

    constructor (area: Area, speed: nat, x: real, y: real)
      requires 0.0 <= x <= area.width && 0.0 <= y <= area.height
      ensures Sound(area, m) && this.area == area && this.speed == speed
      ensures m == Mover(x, y, 0.0, 0, false, 0) && rejects == 0
    {
      this.area, this.speed, rejects := area, speed, 0;
      m := Mover(x, y, 0.0, 0, false, 0);
    }

    /** Adds what time has brought, up to the cap, and pays if it can. */
    method ConsumeMoveBudget(frame: nat, distance: real) returns (ok: bool)
      requires Sound(area, m) && m.budgetFrame <= frame && distance >= 0.0
      modifies this
      ensures ok <==> distance <= Available(old(m), speed, frame)
      ensures m == old(m).(budget := m.budget, budgetFrame := frame) && Sound(area, m)
      ensures m.budget == Available(old(m), speed, frame) - (if ok then distance else 0.0)
      ensures var filled := Filled(old(m).budget, speed, frame - old(m).budgetFrame);
              (ok <==> distance <= filled) && m.budget == if ok then filled - distance else filled
      ensures rejects == old(rejects) + (if ok then 0 else 1)
    {
      FilledIs(m, speed, frame);
      AccruedAdds(speed, 0, frame - m.budgetFrame);
      var elapsed := frame - m.budgetFrame;
      if elapsed > 0 {
        var budget := m.budget + Accrued(speed, elapsed);
        m := m.(budgetFrame := frame, budget := if budget > CAP then CAP else budget);
      }
      if distance > m.budget {
        rejects := rejects + 1;
        return false;
      }
      m := m.(budget := m.budget - distance);
      return true;
    }

    /** Only a standing player's claim is looked at, and it moves the player by no more than is charged; a moving player
        only turns. */
    method RecvMoveStart(dead: bool, s: Start)
      requires Sound(area, m) && Measured(m, s)
      modifies this
      ensures Sound(area, m)
      ensures Started(area, speed, old(m), m, dead, s)
      ensures rejects == old(rejects) + if !dead && Claims(old(m), s) && !Accepts(old(m), s, speed) then 1 else 0
    {
      hide Accrued;
      AccruedAdds(speed, 0, 0);
      if dead {
        return;
      }
      if m.moving {
        if s.direction == m.direction {
          return;
        }
        m := m.(direction := s.direction, moving := !s.stepBlocked);
        return;
      }
      var near := s.distance * s.distance <= ACCEPT_DIST_SQ;
      if near && !s.pathBlocked {
        var ok := ConsumeMoveBudget(s.frame, s.distance);
        if ok {
          m := m.(x := Clamp(s.x, area.width), y := Clamp(s.y, area.height));
        }
      }
      if s.stepBlocked {
        return;
      }
      m := m.(direction := s.direction, moving := true);
    }

    method RecvMoveStop(direction: int)
      requires Sound(area, m)
      modifies this
      ensures m == if old(m).moving then old(m).(moving := false, direction := direction) else old(m)
      ensures Sound(area, m) && rejects == old(rejects)
    {
      if !m.moving {
        return;
      }
      m := m.(moving := false, direction := direction);
    }
  }

  // ----- over any run

  /** Requests, and the steps the server walks a moving player by itself. */
  datatype Event = StartAt(s: Start, dead: bool) | StopAt(direction: int) | Walk(x: real, y: real)

  ghost predicate Step(area: Area, speed: nat, m: Mover, m': Mover, e: Event) {
    match e
    case StartAt(s, dead) => Measured(m, s) && Started(area, speed, m, m', dead, s)
    case StopAt(direction) => m' == if m.moving then m.(moving := false, direction := direction) else m
    case Walk(x, y) =>
      0.0 <= x <= area.width && 0.0 <= y <= area.height && m' == m.(x := x, y := y, moving := m'.moving)
  }

  ghost predicate Run(area: Area, speed: nat, states: seq<Mover>, events: seq<Event>) {
    && |states| == |events| + 1 && Sound(area, states[0])
    && forall k {:trigger events[k]} :: 0 <= k < |events| ==> Step(area, speed, states[k], states[k + 1], events[k])
  }

  /** The start requests from `i` to `j` come in frame order, from `a` to `b`. */
  ghost predicate Within(events: seq<Event>, i: nat, j: nat, a: nat, b: nat) {
    && i <= j <= |events|
    && (forall k :: i <= k < j && events[k].StartAt? ==> a <= events[k].s.frame <= b)
    && (forall k, l ::
          i <= k < l < j && events[k].StartAt? && events[l].StartAt? ==> events[k].s.frame <= events[l].s.frame)
  }

  /** `lengths[k]` is how far request `k` moved the player at once. */
  ghost predicate Lengths(states: seq<Mover>, events: seq<Event>, lengths: seq<real>) {
    && |lengths| == |events| && |states| == |events| + 1
    && forall k {:trigger lengths[k]} :: 0 <= k < |events| ==>
         && lengths[k] >= 0.0
         && (events[k].StartAt? ==>
               lengths[k] * lengths[k] == DistanceSq(states[k].x, states[k].y, states[k + 1].x, states[k + 1].y))
         && (!events[k].StartAt? ==> lengths[k] == 0.0)
  }

  ghost function Total(lengths: seq<real>, i: nat, j: nat): real
    requires i <= j <= |lengths|
    decreases j - i
  {
    if i == j then 0.0 else lengths[i] + Total(lengths, i + 1, j)
  }

  lemma SquaresOrder(x: real, y: real)
    requires x >= 0.0 && y >= 0.0 && x * x <= y * y
    ensures x <= y
  {
    assert x * x - y * y == (x - y) * (x + y);
    if x > y {
      Positive(x - y, x + y);
    }
  }

  lemma Positive(x: real, y: real)
    requires x > 0.0 && y > 0.0
    ensures x * y > 0.0
  {
  }

  lemma ClampNears(v: real, max: real, x: real)
    requires 0.0 <= x <= max
    ensures (Clamp(v, max) - x) * (Clamp(v, max) - x) <= (v - x) * (v - x)
  {
    var c := Clamp(v, max) - x;
    assert (v - x) * (v - x) - c * c == ((v - x) - c) * ((v - x) + c);
  }

  lemma StartedPlace(area: Area, speed: nat, m: Mover, m': Mover, dead: bool, s: Start)
    requires Measured(m, s) && Started(area, speed, m, m', dead, s)
    ensures (m'.x, m'.y) == if !dead && Accepts(m, s, speed) then (Clamp(s.x, area.width), Clamp(s.y, area.height))
            else (m.x, m.y)
  {
  }

  /** The player lands no farther away than is charged: pulling a claim back onto the map only brings it nearer. */
  lemma JumpIsCharged(area: Area, speed: nat, m: Mover, m': Mover, dead: bool, s: Start, length: real)
    requires Sound(area, m) && Measured(m, s) && Started(area, speed, m, m', dead, s)
    requires length >= 0.0 && length * length == DistanceSq(m.x, m.y, m'.x, m'.y)
    ensures length <= if dead then 0.0 else Charged(m, s, speed)
  {
    StartedPlace(area, speed, m, m', dead, s);
    hide Started, Available, Accrued;
    if !dead && Accepts(m, s, speed) {
      ClampNears(s.x, area.width, m.x);
      ClampNears(s.y, area.height, m.y);
      SquaresOrder(length, s.distance);
    } else {
      SquaresOrder(length, 0.0);
    }
  }

  lemma AvailableGrows(area: Area, m: Mover, speed: nat, a: nat, b: nat)
    requires Sound(area, m) && m.budgetFrame <= a <= b
    ensures 0.0 <= Available(m, speed, a) <= CAP
    ensures Available(m, speed, b) <= Available(m, speed, a) + Accrued(speed, b - a)
  {
    AccruedAdds(speed, a - m.budgetFrame, b - a);
    AccruedAdds(speed, b - a, 0);
  }

  /** The budget stays between nothing and the cap, and the player on the map. */
  lemma StepKeeps(area: Area, speed: nat, m: Mover, m': Mover, e: Event)
    requires Sound(area, m) && Step(area, speed, m, m', e)
    ensures Sound(area, m')
  {
    hide Accrued;
    AccruedAdds(speed, 0, 0);
    if e.StartAt? {
      AccruedAdds(speed, e.s.frame - m.budgetFrame, 0);
    }
  }

  lemma {:induction false} RunSound(area: Area, speed: nat, states: seq<Mover>, events: seq<Event>, k: nat)
    requires Run(area, speed, states, events) && k < |states|
    ensures Sound(area, states[k])
  {
    hide Sound, Step;
    if k > 0 {
      RunSound(area, speed, states, events, k - 1);
      assert Step(area, speed, states[k - 1], states[k], events[k - 1]);
      StepKeeps(area, speed, states[k - 1], states[k], events[k - 1]);
    }
  }

  lemma StepSpends(area: Area, speed: nat, m: Mover, m': Mover, e: Event, a: nat, length: real)
    requires Sound(area, m) && Step(area, speed, m, m', e) && m.budgetFrame <= a && length >= 0.0
    requires e.StartAt? ==> a <= e.s.frame && length * length == DistanceSq(m.x, m.y, m'.x, m'.y)
    requires !e.StartAt? ==> length == 0.0
    ensures var f := if e.StartAt? then e.s.frame else a;
            m'.budgetFrame <= f && length + Available(m', speed, f) <= Available(m, speed, a) + Accrued(speed, f - a)
  {
    hide Accrued, DistanceSq;
    AccruedAdds(speed, 0, 0);
    if e.StartAt? {
      JumpIsCharged(area, speed, m, m', e.dead, e.s, length);
      AvailableGrows(area, m, speed, a, e.s.frame);
    }
  }

  lemma {:induction false} WindowSpends(area: Area, speed: nat, states: seq<Mover>, events: seq<Event>,
                                        lengths: seq<real>, i: nat, j: nat, a: nat, b: nat)
    requires Run(area, speed, states, events) && Lengths(states, events, lengths) && Within(events, i, j, a, b)
             && a <= b
    requires states[i].budgetFrame <= a
    ensures states[j].budgetFrame <= b
    ensures Total(lengths, i, j) + Available(states[j], speed, b) <= Available(states[i], speed, a)
            + Accrued(speed, b - a)
    decreases j - i
  {
    hide Accrued, Available, Step, Sound, DistanceSq;
    RunSound(area, speed, states, events, i);
    if i == j {
      AvailableGrows(area, states[i], speed, a, b);
    } else {
      var e := events[i];
      var f := if e.StartAt? then e.s.frame else a;
      assert Step(area, speed, states[i], states[i + 1], e);
      StepSpends(area, speed, states[i], states[i + 1], e, a, lengths[i]);
      assert Within(events, i + 1, j, f, b);
      WindowSpends(area, speed, states, events, lengths, i + 1, j, f, b);
      AccruedAdds(speed, f - a, b - f);
    }
  }

  /** Whatever is sent, and however often: over any window of frames the accepted jumps add up to no more than the cap
      plus a quarter of what the player's own speed covers in that time. */
  lemma WindowBound(area: Area, speed: nat, states: seq<Mover>, events: seq<Event>, lengths: seq<real>, i: nat, j: nat,
                    a: nat, b: nat)
    requires Run(area, speed, states, events) && Lengths(states, events, lengths) && Within(events, i, j, a, b)
             && a <= b
    requires states[i].budgetFrame <= a
    ensures Total(lengths, i, j) <= CAP + speed as real * SLACK * ((b - a) as real * FRAME_SECONDS)
  {
    assert |states| == |events| + 1;
    hide Step, Sound, Run, Lengths, Total;
    RunSound(area, speed, states, events, i);
    RunSound(area, speed, states, events, j);
    WindowSpends(area, speed, states, events, lengths, i, j, a, b);
    AvailableGrows(area, states[i], speed, a, a);
    AvailableGrows(area, states[j], speed, b, b);
  }

  // ----- what a claim is worth

  lemma Times(x: real, y: real, z: real)
    requires x >= 0.0 && y <= z
    ensures x * y <= x * z
  {
  }

  lemma EightTiles(d: real)
    requires d >= 0.0
    ensures d * d <= ACCEPT_DIST_SQ <==> d <= 8.0
  {
    if d <= 8.0 {
      Times(d, d, 8.0);
    } else {
      SquaresOrder(8.0, d);
      Positive(d - 8.0, d + 8.0);
      assert d * d - 64.0 == (d - 8.0) * (d + 8.0);
    }
  }

  /** A living, standing player's claim is taken over exactly if it is within eight tiles, over a free path, and within
      the budget as time has refilled it; the distance is paid then, and nothing otherwise. */
  lemma ClaimIsWorth(area: Area, speed: nat, m: Mover, m': Mover, s: Start)
    requires Measured(m, s) && Started(area, speed, m, m', false, s) && !m.moving
    ensures var filled := Filled(m.budget, speed, s.frame - m.budgetFrame);
            var near := s.distance <= 8.0 && !s.pathBlocked;
            var taken := near && s.distance <= filled;
            && (m'.x, m'.y) == (if taken then (Clamp(s.x, area.width), Clamp(s.y, area.height)) else (m.x, m.y))
            && m'.budget == (if taken then filled - s.distance else if near then filled else m.budget)
            && m'.budgetFrame == if near then s.frame else m.budgetFrame
  {
    EightTiles(s.distance);
    FilledIs(m, speed, s.frame);
    hide Available, Filled;
  }

  /** Nobody has claimed anything since `since`, and the budget has not been looked at. */
  lemma {:induction false} Rested(area: Area, speed: nat, states: seq<Mover>, events: seq<Event>, k: nat, since: nat)
    requires Run(area, speed, states, events) && k < |states| && states[0].budgetFrame <= since
    requires forall i :: 0 <= i < k && events[i].StartAt? ==> events[i].s.frame <= since
    ensures states[k].budgetFrame <= since
  {
    hide Step, Sound;
    if k > 0 {
      Rested(area, speed, states, events, k - 1, since);
      StepClock(area, speed, states, events, k - 1);
    }
  }

  lemma StepClock(area: Area, speed: nat, states: seq<Mover>, events: seq<Event>, k: nat)
    requires Run(area, speed, states, events) && k < |events|
    ensures states[k + 1].budgetFrame ==
              if events[k].StartAt? && !events[k].dead && Claims(states[k], events[k].s) then events[k].s.frame
              else states[k].budgetFrame
  {
    hide Accrued;
    assert Step(area, speed, states[k], states[k + 1], events[k]);
  }

  /** Time refills the budget: in any run, once a player has claimed nothing for so long that its speed times the frames
      makes 800, a claim within eight tiles over a free path is taken over, whatever was spent before. */
  lemma RestRefills(area: Area, speed: nat, states: seq<Mover>, events: seq<Event>, k: nat, since: nat)
    requires Run(area, speed, states, events) && k < |events| && states[0].budgetFrame <= since
    requires forall i :: 0 <= i < k && events[i].StartAt? ==> events[i].s.frame <= since
    requires events[k].StartAt? && !events[k].dead && !states[k].moving
    requires var s := events[k].s; since <= s.frame && speed * (s.frame - since) >= 800
                                   && s.distance <= 8.0 && !s.pathBlocked
    ensures var s, m' := events[k].s, states[k + 1];
            && (m'.x, m'.y) == (Clamp(s.x, area.width), Clamp(s.y, area.height))
            && m'.budget == 8.0 - s.distance && m'.budgetFrame == s.frame
  {
    var s, m := events[k].s, states[k];
    RunSound(area, speed, states, events, k);
    Rested(area, speed, states, events, k, since);
    assert Step(area, speed, m, states[k + 1], events[k]);
    ClaimIsWorth(area, speed, m, states[k + 1], s);
    MoreFrames(speed, s.frame - since, s.frame - m.budgetFrame);
  }

  lemma MoreFrames(speed: nat, a: nat, b: nat)
    requires a <= b
    ensures speed * a <= speed * b
  {
  }
}
