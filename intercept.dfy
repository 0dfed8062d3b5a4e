/**
  The kinematics and interception rules of the air-defence programs, in
  exact integer form. The source computes them in `double`; every quantity
  below is the same real number cross-multiplied, so no rounding enters the
  decisions (the one `round` that is stored, the track speed, is modelled
  exactly). Times are microseconds, distances screen points.
 */
module Intercept {

  /** Two locators of a side are 10 points apart: speed = 10 * 1e6 / dt points a second. */
  const SeparationRate := 10000000
  /** At or above this speed a guided interceptor (RUS) is used. */
  const SpeedThreshold := 100
  /** Pairs closer than this (or equal) are sensor noise in the multi-target program. */
  const MinGap := 500
  /** Pairs this far apart (or more) are discarded in the multi-target program. */
  const MaxGap := 20000000
  /** The target is intercepted above the centre, 380 points from the locators. */
  const CentreDistance := 380
  /** Rockets and interceptors start from this screen row. */
  const LaunchRow := 570
  const RocketSpeed := 100
  const RusSpeed := 250
  /** The locator width of a plate; anything else is not a target. */
  const PlateWidth := 3
  /** `time_to_center` when the stored speed is not positive: 1e9 seconds. */
  const NeverSeconds := 1000000000

  /** The interceptor commands written to RCMC. */
  datatype Command = Start | Left | Right | Up | Down

  /** One hardware register write: RCMN (select a unit), RCMC (command it), or GUNS. */
  datatype Write = SelectUnit(unit: int) | UnitCommand(cmd: Command) | GunShot

  /** `late - early` over the two timestamps of a side. */
  function Gap(a: int, b: int): (dt: int)
    ensures dt >= 0 && (dt == a - b || dt == b - a)
  {
    var early := if a < b then a else b;
    var late := if a < b then b else a;
    late - early
  }

  predicate ValidGap(dt: int) {
    MinGap < dt < MaxGap
  }

  /** `speed >= SPEED_THRESHOLD` for speed = 1e7 / dt, compared without division. */
  predicate IsFast(dt: int) {
    SpeedThreshold * dt <= SeparationRate
  }

  /** The speed stored in the track, `(int)round(1e7 / dt)`: the nearest integer,
      halves rounded up. */
  function RoundedSpeed(dt: int): (v: int)
    requires dt > 0
    ensures 2 * SeparationRate - dt < 2 * v * dt <= 2 * SeparationRate + dt
  {
    var v := (2 * SeparationRate + dt) / (2 * dt);
    assert 2 * dt * v <= 2 * SeparationRate + dt < 2 * dt * (v + 1) by {
      DivBounds(2 * SeparationRate + dt, 2 * dt);
    }
    v
  }

  /** Helper: the quotient brackets the dividend. */
  lemma DivBounds(a: int, b: int)
    requires a >= 0 && b > 0
    ensures b * (a / b) <= a < b * (a / b + 1)
  {
  }

  /** How far an interceptor climbs from the launch row to lane `y`; never negative. */
  function Climb(y: int): (d: int)
    ensures d >= 0 && d >= LaunchRow - y
    ensures d == 0 || d == LaunchRow - y
  {
    if LaunchRow - y < 0 then 0 else LaunchRow - y
  }

  /** The rocket firing delay: the target's time to the centre, `380 / speed` seconds,
      minus the rocket's flight time, `Climb(y) / 100` seconds, in microseconds. */
  function RocketDelay(dt: int, y: int): (delay: int)
    ensures delay * SeparationRate * RocketSpeed ==
      1000000 * (CentreDistance * dt * RocketSpeed - Climb(y) * SeparationRate)
    ensures dt > 0 ==>
      (delay as real == 1000000.0 * ((CentreDistance as real) / ((SeparationRate as real) / (dt as real))
                                     - (Climb(y) as real) / (RocketSpeed as real)))
  {
    if dt > 0 then
      DelayInSeconds(dt, Climb(y));
      38 * dt - 10000 * Climb(y)
    else 38 * dt - 10000 * Climb(y)
  }

  /** Helper: `1e6 * (380 / (1e7 / dt) - c / 100)` is `38 * dt - 10000 * c` exactly. */
  lemma DelayInSeconds(dt: int, c: int)
    requires dt > 0
    ensures (38 * dt - 10000 * c) as real ==
      1000000.0 * ((CentreDistance as real) / ((SeparationRate as real) / (dt as real))
                   - (c as real) / (RocketSpeed as real))
  {
    var speed := (SeparationRate as real) / (dt as real);
    assert speed * (dt as real) == SeparationRate as real;
    assert (CentreDistance as real) / speed == (CentreDistance as real) * (dt as real) / (SeparationRate as real);
  }

  /** Whether the interceptor reaches the lane, `Climb(y) / 250` seconds, before the target
      reaches the centre, `380 / speed` seconds (1e9 seconds when speed is not positive). */
  function Meets(y: int, speed: int): (meet: bool)
    ensures speed > 0 ==>
      (meet <==> (Climb(y) as real) / (RusSpeed as real) < (CentreDistance as real) / (speed as real))
    ensures speed <= 0 ==>
      (meet <==> (Climb(y) as real) / (RusSpeed as real) < NeverSeconds as real)
  {
    if speed > 0 then
      SoonerIffCrossed(Climb(y), speed);
      Climb(y) * speed < RusSpeed * CentreDistance
    else Climb(y) < RusSpeed * NeverSeconds
  }

  /** `c / 250 < 380 / s` compared by cross-multiplying with the positive `250 * s`. */
  lemma SoonerIffCrossed(c: int, s: int)
    requires s > 0
    ensures (c as real) / (RusSpeed as real) < (CentreDistance as real) / (s as real)
      <==> c * s < RusSpeed * CentreDistance
  {
    var lhs := (c as real) / (RusSpeed as real);
    var rhs := (CentreDistance as real) / (s as real);
    assert lhs * (RusSpeed as real) * (s as real) == (c * s) as real;
    assert rhs * (RusSpeed as real) * (s as real) == (RusSpeed * CentreDistance) as real;
    if lhs < rhs {
      assert lhs * ((RusSpeed * s) as real) < rhs * ((RusSpeed * s) as real);
    } else {
      assert lhs * ((RusSpeed * s) as real) >= rhs * ((RusSpeed * s) as real);
    }
  }

  /** The command that moves an interceptor the way a target with this direction flies. */
  function Along(direction: int): Command {
    if direction == 1 then Right else Left
  }

  /** The lateral command after the climb: head-on (against the target) when it meets,
      in pursuit (with the target) otherwise. */
  function Heading(direction: int, meet: bool): (cmd: Command)
    ensures direction == 1 || direction == -1 ==>
      (cmd == Along(-direction) <==> meet) && (cmd == Along(direction) <==> !meet)
  {
    if meet then
      if direction == 1 then Left else Right
    else
      if direction == 1 then Right else Left
  }

  /** What the processing thread of a track decides, given the first free interceptor
      (`freeUnit`, -1 when all are busy). */
  datatype Plan =
    | Discarded            // the pair's gap is outside the validity window
    | Guided(unit: int)    // a RUS was acquired
    | NoUnitFree           // a RUS was wanted and none was free
    | Ballistic(delay: int)  // a rocket will be fired after `delay`
    | TooLate              // the rocket could no longer reach the centre in time

  function Decide(dt: int, y: int, freeUnit: int): (p: Plan)
    ensures p.Discarded? <==> !ValidGap(dt)
    ensures p.Guided? || p.NoUnitFree? <==> ValidGap(dt) && IsFast(dt)
    ensures p.Guided? <==> ValidGap(dt) && IsFast(dt) && freeUnit != -1
    ensures p.Guided? ==> p.unit == freeUnit
    ensures p.Ballistic? ==> p.delay > 0 && p.delay == RocketDelay(dt, y)
    ensures p.TooLate? <==> ValidGap(dt) && !IsFast(dt) && RocketDelay(dt, y) <= 0
  {
    if !ValidGap(dt) then Discarded
    else if IsFast(dt) then
      if freeUnit == -1 then NoUnitFree else Guided(freeUnit)
    else
      var delay := RocketDelay(dt, y);
      if delay > 0 then Ballistic(delay) else TooLate
  }

  /** `IsFast` is the program's test `speed >= 100` on the speed 1e7 / dt; a guided
      interceptor is chosen exactly for gaps of at most 100 ms. */
  lemma FastIffShortGap(dt: int)
    ensures dt > 0 ==> (IsFast(dt) <==> (SeparationRate as real) / (dt as real) >= SpeedThreshold as real)
    ensures IsFast(dt) <==> dt <= 100000
  {
    if dt > 0 {
      var speed := (SeparationRate as real) / (dt as real);
      assert speed * (dt as real) == SeparationRate as real;
      if speed >= SpeedThreshold as real {
        assert speed * (dt as real) >= (SpeedThreshold as real) * (dt as real);
      } else {
        assert speed * (dt as real) < (SpeedThreshold as real) * (dt as real);
      }
    }
  }

  // The single-target program (air_defense.cpp) uses its own window and firing bands.

  const LegacyMinGap := 1000
  const LegacyMaxGap := 10000000
  const PromptBand := 1000
  const LateBand := -1000000

  /** `(int)speed` for speed = 1e7 / dt: truncated towards zero. */
  function TruncatedSpeed(dt: int): (v: int)
    requires dt > 0
    ensures v * dt <= SeparationRate < (v + 1) * dt
  {
    DivBounds(SeparationRate, dt);
    SeparationRate / dt
  }

  /** The single-target delay: like `RocketDelay`, but the climb is not clamped, so a lane
      below the launch row gives a later shot. */
  function UnclampedDelay(dt: int, y: int): (delay: int)
    ensures delay * SeparationRate * RocketSpeed ==
      1000000 * (CentreDistance * dt * RocketSpeed - (LaunchRow - y) * SeparationRate)
    ensures y <= LaunchRow ==> delay == RocketDelay(dt, y)
    ensures y > LaunchRow ==> delay == RocketDelay(dt, y) + 10000 * (y - LaunchRow)
  {
    38 * dt - 10000 * (LaunchRow - y)
  }

  datatype Firing = FireAfter(delay: int) | FireNow | HoldFire

  /** The single-target firing bands: wait then fire above 1 ms, fire at once down to
      one second late, do not fire beyond that. */
  function Classify(delay: int): (f: Firing)
    ensures f.FireAfter? <==> delay > PromptBand
    ensures f.FireAfter? ==> f.delay == delay
    ensures f.FireNow? <==> LateBand <= delay <= PromptBand
    ensures f.HoldFire? <==> delay < LateBand
  {
    if delay > PromptBand then FireAfter(delay)
    else if delay <= PromptBand && delay >= LateBand then FireNow
    else HoldFire
  }
}
