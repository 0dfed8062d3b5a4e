/**
  The single-target air-defence program (air_defense.cpp): one plate at a
  time flying left to right, tracked in a handful of globals by the locator
  interrupt handler, which shoots a rocket once LEFT-1 and LEFT-2 have both
  seen the plate in the same lane. The clock is the `now` parameter; the gun
  register writes are appended to `trace`.
 */
module SingleTarget {
  import opened Wire
  import opened Intercept

  /** `target_y`, `target_speed`, `target_direction`, `loc1_time`, `loc2_time`,
      `active_plate_height`. */
  datatype Globals = Globals(
    targetY: int, targetSpeed: int, targetDirection: int,
    loc1Time: int, loc2Time: int, activeHeight: int)

  /** `step1`'s initialisation: everything zero. */
  const Cleared := Globals(0, 0, 0, 0, 0, 0)

  /** The globals after an event, and the firing decision when a pair was accepted. */
  datatype Step = Step(after: Globals, shot: Option<Firing>)

  /** Whether the handler writes GUNS for this step. */
  predicate Shoots(s: Step) {
    s.shot.Some? && !s.shot.value.HoldFire?
  }

  /** One call of `locator_handler` on event (`loc`, `y`, `w`) at time `now`. */
  function OnEvent(g: Globals, now: int, loc: int, y: int, w: int): (r: Step)
    // non-plates, right-side locators and unknown locators change nothing
    ensures w != PlateWidth || (loc != 1 && loc != 2) ==> r == Step(g, None)
    // LEFT-1 arms the tracker, restarting it for a new lane
    ensures w == PlateWidth && loc == 1 ==>
      && r.shot == None
      && r.after == g.(loc1Time := now, targetY := y, activeHeight := y,
                       loc2Time := if y != g.activeHeight then 0 else g.loc2Time)
    // LEFT-2 acts only after LEFT-1 saw the same lane
    ensures w == PlateWidth && loc == 2 && (g.loc1Time == 0 || y != g.activeHeight) ==> r == Step(g, None)
    ensures w == PlateWidth && loc == 2 && g.loc1Time != 0 && y == g.activeHeight ==>
      var dt := now - g.loc1Time;
      && r.after.loc2Time == now && r.after.loc1Time == 0 && r.after.activeHeight == 0
      && r.after.targetY == g.targetY
      && (r.shot.Some? <==> LegacyMinGap < dt < LegacyMaxGap)
      && (r.shot.Some? ==>
            && r.after.targetDirection == 1 && r.after.targetSpeed == TruncatedSpeed(dt)
            && r.shot.value == Classify(UnclampedDelay(dt, y)))
      && (r.shot.None? ==>
            r.after.targetDirection == g.targetDirection && r.after.targetSpeed == g.targetSpeed)
  {
    if w != PlateWidth then Step(g, None)
    else if loc == 1 then
      var restarted := if y != g.activeHeight then g.(loc1Time := 0, loc2Time := 0, activeHeight := y) else g;
      Step(restarted.(loc1Time := now, targetY := y), None)
    else if loc == 2 && g.loc1Time != 0 && y == g.activeHeight then
      var dt := now - g.loc1Time;
      var timed := g.(loc2Time := now);
      var measured :=
        if LegacyMinGap < dt < LegacyMaxGap then timed.(targetDirection := 1, targetSpeed := TruncatedSpeed(dt))
        else timed;
      var shot := if LegacyMinGap < dt < LegacyMaxGap then Some(Classify(UnclampedDelay(dt, y))) else None;
      Step(measured.(loc1Time := 0, activeHeight := 0), shot)
    else Step(g, None)
  }

  /** LEFT-1 then LEFT-2 in one lane: the tracker shoots exactly when the pair's gap is in
      the window and the rocket would be at most a second late; and it is disarmed, so
      a repeated LEFT-2 does nothing. */
  lemma {:induction false} PairShootsOnce(g: Globals, t1: int, t2: int, y: int)
    requires t1 != 0
    ensures var armed := OnEvent(g, t1, 1, y, PlateWidth).after;
      var paired := OnEvent(armed, t2, 2, y, PlateWidth);
      && (Shoots(paired) <==> LegacyMinGap < t2 - t1 < LegacyMaxGap && UnclampedDelay(t2 - t1, y) >= LateBand)
      && OnEvent(paired.after, t2, 2, y, PlateWidth) == Step(paired.after, None)
  {
    var armed := OnEvent(g, t1, 1, y, PlateWidth).after;
    assert armed.loc1Time == t1 && armed.activeHeight == y;
  }

  class Tracker {
    var targetY: int
    var targetSpeed: int
    var targetDirection: int
    var loc1Time: int
    var loc2Time: int
    var activeHeight: int
    var trace: seq<Write>

    function State(): Globals
      reads this
    {
      Globals(targetY, targetSpeed, targetDirection, loc1Time, loc2Time, activeHeight)
    }

    /** `step1` before attaching the handler. */
    constructor ()
      ensures State() == Cleared && trace == []
    {
      targetY, targetSpeed, targetDirection := 0, 0, 0;
      loc1Time, loc2Time, activeHeight := 0, 0, 0;
      trace := [];
    }

    /** `locator_handler`: returns the firing decision when a pair was accepted. */
    method LocatorHandler(now: int, loc: int, y: int, w: int) returns (shot: Option<Firing>)
      modifies this
      ensures Step(State(), shot) == OnEvent(old(State()), now, loc, y, w)
      ensures trace == old(trace) + (if Shoots(Step(State(), shot)) then [GunShot] else [])
    {
      shot := None;
      if w != PlateWidth {
        return;
      }
      if loc == 3 || loc == 4 {
        return;
      }
      if loc == 1 {
        if y != activeHeight {
          loc1Time := 0;
          loc2Time := 0;
          activeHeight := y;
        }
        loc1Time := now;
        targetY := y;
      } else if loc == 2 {
        if loc1Time != 0 && y == activeHeight {
          loc2Time := now;
          var dt := loc2Time - loc1Time;
          if dt > LegacyMinGap && dt < LegacyMaxGap {
            targetDirection := 1;
            targetSpeed := TruncatedSpeed(dt);
            var delay := UnclampedDelay(dt, y);
            if delay > PromptBand {
              trace := trace + [GunShot];
              shot := Some(FireAfter(delay));
            } else if delay <= PromptBand && delay >= LateBand {
              trace := trace + [GunShot];
              shot := Some(FireNow);
            } else {
              shot := Some(HoldFire);
            }
          }
          loc1Time := 0;
          activeHeight := 0;
        }
      }
    }
  }
}
