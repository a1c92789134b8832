/**
 * The player's movement: thrust adds a fixed step to one speed component,
 * advancing moves by the speed and then damps it, and both clamp each
 * speed component to [-speedMax, speedMax].
 */
module Player {
  import opened Directions

  datatype PlayerState = PlayerState(
    position: (real, real),
    size: real,
    speed: (real, real),
    speedDelta: real,
    speedMax: real,
    speedSlowdown: real)

  /** `Player::new`: at (250, 350), size 25, at rest. */
  function New(): (p: PlayerState)
    ensures p.position == (250.0, 350.0) && p.size == 25.0 && p.speed == (0.0, 0.0)
    ensures p.speedDelta == 0.15 && p.speedMax == 2.5 && p.speedSlowdown == 0.92
    ensures SpeedBounded(p)
  {
    PlayerState((250.0, 350.0), 25.0, (0.0, 0.0), 0.15, 2.5, 0.92)
  }

  /** Both speed components lie within [-speedMax, speedMax]. */
  predicate SpeedBounded(p: PlayerState) {
    -p.speedMax <= p.speed.0 <= p.speedMax && -p.speedMax <= p.speed.1 <= p.speedMax
  }

  /** The movement parameters are those `new` sets; nothing else ever changes them. */
  predicate Tuned(p: PlayerState) {
    p.speedDelta == 0.15 && p.speedMax == 2.5 && p.speedSlowdown == 0.92
  }

  /** One component of `cap_max`: first the upper bound, then the lower bound. */
  function Clamp(v: real, max: real): (r: real)
    ensures max >= 0.0 ==> -max <= r <= max
    ensures -max <= v <= max ==> r == v
    ensures max >= 0.0 && v > max ==> r == max
    ensures v < -max ==> r == -max
  {
    var v1 := if v > max then max else v;
    if v1 < -max then -max else v1
  }

  /** `cap_max`: clamp each speed component; nothing but the speed changes. */
  function CapMax(p: PlayerState): (q: PlayerState)
    ensures q == p.(speed := q.speed)
    ensures p.speedMax >= 0.0 ==> SpeedBounded(q)
    ensures SpeedBounded(p) ==> q == p
  {
    p.(speed := (Clamp(p.speed.0, p.speedMax), Clamp(p.speed.1, p.speedMax)))
  }

  lemma CapMaxIdempotent(p: PlayerState)
    ensures CapMax(CapMax(p)) == CapMax(p)
  {
    if p.speedMax < 0.0 {
      var m := p.speedMax;
      assert CapMax(p).speed == (-m, -m);
    }
  }

  /** `thrust`: Up and Left take speedDelta off a component, Down and Right add it, then clamp. */
  function Thrust(p: PlayerState, d: Direction): (q: PlayerState)
    ensures q == p.(speed := q.speed)
    ensures p.speedMax >= 0.0 ==> SpeedBounded(q)
    ensures d == Up || d == Down ==> q.speed.0 == Clamp(p.speed.0, p.speedMax)
    ensures d == Left || d == Right ==> q.speed.1 == Clamp(p.speed.1, p.speedMax)
    ensures d == Up ==> q.speed.1 == Clamp(p.speed.1 - p.speedDelta, p.speedMax)
    ensures d == Down ==> q.speed.1 == Clamp(p.speed.1 + p.speedDelta, p.speedMax)
    ensures d == Left ==> q.speed.0 == Clamp(p.speed.0 - p.speedDelta, p.speedMax)
    ensures d == Right ==> q.speed.0 == Clamp(p.speed.0 + p.speedDelta, p.speedMax)
  {
    var s := p.speed;
    var s' := match d
      case Up => (s.0, s.1 - p.speedDelta)
      case Down => (s.0, s.1 + p.speedDelta)
      case Left => (s.0 - p.speedDelta, s.1)
      case Right => (s.0 + p.speedDelta, s.1);
    CapMax(p.(speed := s'))
  }

  /** Up and Down undo each other, as do Left and Right, while no clamp is reached. */
  lemma OppositeThrustsCancel(p: PlayerState, d: Direction)
    requires Tuned(p)
    requires -p.speedMax + p.speedDelta <= p.speed.0 <= p.speedMax - p.speedDelta
    requires -p.speedMax + p.speedDelta <= p.speed.1 <= p.speedMax - p.speedDelta
    ensures Thrust(Thrust(p, d), Opposite(d)) == p
  {
  }

  function Opposite(d: Direction): Direction {
    match d
    case Up => Down
    case Down => Up
    case Left => Right
    case Right => Left
  }

  /** Thrusting changes the chosen component by exactly speedDelta, unless a clamp bounds it. */
  lemma ThrustStep(p: PlayerState, d: Direction)
    requires Tuned(p) && SpeedBounded(p)
    ensures var q := Thrust(p, d);
      match d
      case Up => q.speed == (p.speed.0, if p.speed.1 - 0.15 < -2.5 then -2.5 else p.speed.1 - 0.15)
      case Down => q.speed == (p.speed.0, if p.speed.1 + 0.15 > 2.5 then 2.5 else p.speed.1 + 0.15)
      case Left => q.speed == (if p.speed.0 - 0.15 < -2.5 then -2.5 else p.speed.0 - 0.15, p.speed.1)
      case Right => q.speed == (if p.speed.0 + 0.15 > 2.5 then 2.5 else p.speed.0 + 0.15, p.speed.1)
  {
  }

  /** `advance`: move by the current speed, then damp the speed and clamp it. */
  function Advance(p: PlayerState): (q: PlayerState)
    ensures q.position == (p.position.0 + p.speed.0, p.position.1 + p.speed.1)
    ensures q.size == p.size && q.speedDelta == p.speedDelta && q.speedMax == p.speedMax
    ensures q.speedSlowdown == p.speedSlowdown
    ensures q.speed == (Clamp(p.speed.0 * p.speedSlowdown, p.speedMax), Clamp(p.speed.1 * p.speedSlowdown, p.speedMax))
    ensures p.speedMax >= 0.0 ==> SpeedBounded(q)
  {
    var moved := p.(position := (p.position.0 + p.speed.0, p.position.1 + p.speed.1));
    CapMax(moved.(speed := (p.speed.0 * p.speedSlowdown, p.speed.1 * p.speedSlowdown)))
  }

  lemma MulSigns(a: real, b: real)
    requires a >= 0.0 && b >= 0.0
    ensures a * b >= 0.0 && (-a) * b <= 0.0
  {
  }

  lemma DampWithin(v: real, k: real, max: real)
    requires 0.0 <= k <= 1.0 && -max <= v <= max
    ensures -max <= v * k <= max
    ensures v >= 0.0 ==> 0.0 <= v * k <= v
    ensures v <= 0.0 ==> v <= v * k <= 0.0
  {
    assert v * k + v * (1.0 - k) == v;
    if v >= 0.0 {
      MulSigns(v, k);
      MulSigns(v, 1.0 - k);
    } else {
      MulSigns(-v, k);
      MulSigns(-v, 1.0 - k);
    }
  }

  /**
   * With the game's slowdown factor the clamp in `advance` never fires: a
   * bounded speed is simply scaled by 0.92, and no component grows.
   */
  lemma AdvanceOnlyDamps(p: PlayerState)
    requires Tuned(p) && SpeedBounded(p)
    ensures Advance(p).speed == (p.speed.0 * 0.92, p.speed.1 * 0.92)
    ensures var s := Advance(p).speed;
      (if p.speed.0 >= 0.0 then 0.0 <= s.0 <= p.speed.0 else p.speed.0 <= s.0 <= 0.0) &&
      (if p.speed.1 >= 0.0 then 0.0 <= s.1 <= p.speed.1 else p.speed.1 <= s.1 <= 0.0)
  {
    DampWithin(p.speed.0, 0.92, 2.5);
    DampWithin(p.speed.1, 0.92, 2.5);
  }

  /** The speed bound and the tuning hold from `new` on, whatever the sequence of thrusts and advances. */
  datatype Step = ThrustStepOf(d: Direction) | AdvanceStep

  function Run(p: PlayerState, steps: seq<Step>): PlayerState
    decreases |steps|
  {
    if |steps| == 0 then p
    else
      var q := match steps[0]
        case ThrustStepOf(d) => Thrust(p, d)
        case AdvanceStep => Advance(p);
      Run(q, steps[1..])
  }

  lemma {:induction false} RunKeepsInvariant(p: PlayerState, steps: seq<Step>)
    requires Tuned(p) && SpeedBounded(p)
    ensures Tuned(Run(p, steps)) && SpeedBounded(Run(p, steps))
    decreases |steps|
  {
    if |steps| > 0 {
      var q := match steps[0]
        case ThrustStepOf(d) => Thrust(p, d)
        case AdvanceStep => Advance(p);
      RunKeepsInvariant(q, steps[1..]);
    }
  }

  lemma FromNewInvariant(steps: seq<Step>)
    ensures Tuned(Run(New(), steps)) && SpeedBounded(Run(New(), steps))
  {
    RunKeepsInvariant(New(), steps);
  }
}
