/**
  The multi-target air-defence system (cur.cpp): a 30-slot plate table fed by
  the locator interrupt handler, a pool of 15 guided interceptors (RUS), and
  the per-track processing and shooting threads, each of whose critical
  sections is one atomic method here. The clock is the `now` parameter and
  the hardware register writes are appended to `trace`.
 */
module MultiTarget {
  import opened Tracks
  import opened Intercept

  const RusSlots := 15
  /** The handler ignores every event once this many plates were destroyed. */
  const MaxDestroyed := 25
  /** The lowest index at or after `i` of an idle unit, or -1. */
  function FirstIdleFrom(active: seq<bool>, i: nat): (r: int)
    requires i <= |active|
    ensures r == -1 || i <= r < |active|
    ensures r != -1 ==> !active[r]
    ensures forall j :: i <= j < |active| && (r == -1 || j < r) ==> active[j]
    decreases |active| - i
  {
    if i == |active| then -1
    else if !active[i] then i
    else FirstIdleFrom(active, i + 1)
  }

  /** Two acquisitions with no release in between never hand out the same unit: the
      second one gives a higher unit or none. */
  lemma {:induction false} AcquisitionsDiffer(active: seq<bool>, i: nat)
    requires i <= |active|
    ensures var u := FirstIdleFrom(active, i);
      u != -1 ==> var v := FirstIdleFrom(active[u := true], i); v == -1 || u < v
    decreases |active| - i
  {
    var u := FirstIdleFrom(active, i);
    if u != -1 && u != i {
      AcquisitionsDiffer(active, i + 1);
    }
  }

  /** The register writes of `send_rus_command(unit, cmd)`: RCMN then RCMC, and only for
      a unit in range that is currently active. */
  function Commanded(active: seq<bool>, unit: int, cmd: Command): (w: seq<Write>)
    requires |active| == RusSlots
    ensures w == [] || w == [SelectUnit(unit), UnitCommand(cmd)]
    ensures w != [] <==> 0 <= unit < RusSlots && active[unit]
  {
    if unit < 0 || unit >= RusSlots then []
    else if !active[unit] then []
    else [SelectUnit(unit), UnitCommand(cmd)]
  }

  /** The timestamps a processing thread pairs: LEFT-1/LEFT-2 or RIGHT-1/RIGHT-2. */
  function PairGap(p: Plate, leftToRight: bool): (dt: int)
    ensures dt >= 0
    ensures leftToRight ==> dt == p.t2 - p.t1 || dt == p.t1 - p.t2
    ensures !leftToRight ==> dt == p.t4 - p.t3 || dt == p.t3 - p.t4
  {
    if leftToRight then Gap(p.t1, p.t2) else Gap(p.t3, p.t4)
  }

  /** The slot after its processing thread decided `plan`: a discarded pair only closes
      the slot; otherwise the rounded speed and the direction are stored, and a rocket
      that is already too late closes it as well. */
  function AfterProcessing(p: Plate, leftToRight: bool, plan: Plan): (r: Plate)
    requires plan.Discarded? || PairGap(p, leftToRight) > 0
    ensures r.height == p.height && r.t1 == p.t1 && r.t2 == p.t2 && r.t3 == p.t3 && r.t4 == p.t4
    ensures r.processed <==> p.processed || plan.Discarded? || plan.TooLate?
    ensures plan.Discarded? ==> r == p.(processed := true)
    ensures !plan.Discarded? ==>
      && r.speed == RoundedSpeed(PairGap(p, leftToRight))
      && r.direction == (if leftToRight then 1 else -1)
  {
    if plan.Discarded? then Closed(p)
    else
      var measured := p.(speed := RoundedSpeed(PairGap(p, leftToRight)), direction := if leftToRight then 1 else -1);
      if plan.TooLate? then Closed(measured) else measured
  }

  class AirDefense {
    const plates: array<Plate>
    var plateCount: int
    const rusActive: array<bool>
    var destroyed: int
    var trace: seq<Write>

    ghost predicate Valid()
      reads this, plates, rusActive
    {
      && plates.Length == PlateSlots
      && rusActive.Length == RusSlots
      && Tidy(plates[..], plateCount)
    }

    /** `air_defense_system`'s set-up: every slot free, none used, every unit idle. */
    constructor ()
      ensures Valid()
      ensures plates[..] == seq(PlateSlots, _ => FreeSlot) && plateCount == 0
      ensures rusActive[..] == seq(RusSlots, _ => false)
      ensures destroyed == 0 && trace == []
    {
      plates := new Plate[PlateSlots](_ => FreeSlot);
      plateCount := 0;
      rusActive := new bool[RusSlots](_ => false);
      destroyed := 0;
      trace := [];
      new;
      InitiallyTidy();
    }

    /** `init_rus_array`: every unit idle. */
    method InitRusArray()
      requires Valid()
      modifies rusActive
      ensures Valid()
      ensures forall i :: 0 <= i < RusSlots ==> !rusActive[i]
    {
      var i := 0;
      while i < RusSlots
        invariant 0 <= i <= RusSlots
        invariant forall j :: 0 <= j < i ==> !rusActive[j]
      {
        rusActive[i] := false;
        i := i + 1;
      }
    }

    /** `get_available_rus`: mark the lowest idle unit active and return it, or -1 with
        nothing changed when all 15 are busy. */
    method GetAvailableRus() returns (unit: int)
      requires Valid()
      modifies rusActive
      ensures Valid()
      ensures unit == FirstIdleFrom(old(rusActive[..]), 0)
      ensures unit != -1 ==> rusActive[..] == old(rusActive[..])[unit := true]
      ensures unit == -1 ==> rusActive[..] == old(rusActive[..])
    {
      var i := 0;
      while i < RusSlots
        invariant 0 <= i <= RusSlots
        invariant rusActive[..] == old(rusActive[..])
        invariant FirstIdleFrom(rusActive[..], 0) == FirstIdleFrom(rusActive[..], i)
      {
        if !rusActive[i] {
          rusActive[i] := true;
          return i;
        }
        i := i + 1;
      }
      return -1;
    }

    /** `release_rus`: make one unit idle; ids outside 0..14 are ignored. */
    method ReleaseRus(unit: int)
      requires Valid()
      modifies rusActive
      ensures Valid()
      ensures 0 <= unit < RusSlots ==> rusActive[..] == old(rusActive[..])[unit := false]
      ensures unit < 0 || unit >= RusSlots ==> rusActive[..] == old(rusActive[..])
    {
      if unit < 0 || unit >= RusSlots {
        return;
      }
      rusActive[unit] := false;
    }

    /** `send_rus_command`: the two register writes, for an active unit only. */
    method SendRusCommand(unit: int, cmd: Command)
      requires Valid()
      modifies this
      ensures Valid()
      ensures trace == old(trace) + Commanded(rusActive[..], unit, cmd)
      ensures plateCount == old(plateCount) && destroyed == old(destroyed)
    {
      if unit < 0 || unit >= RusSlots {
        return;
      }
      if !rusActive[unit] {
        return;
      }
      trace := trace + [SelectUnit(unit), UnitCommand(cmd)];
    }

    /** `cleanup_old_plates` with the clock reading `now`. */
    method CleanupOldPlates(now: int)
      requires Valid()
      modifies plates
      ensures Valid()
      ensures plates[..] == Swept(old(plates[..]), plateCount, now)
    {
      ghost var before := plates[..];
      var i := 0;
      while i < plateCount
        invariant 0 <= i <= plateCount
        invariant forall j :: 0 <= j < i ==> plates[j] == Reclaimed(before, plateCount, now, j)
        invariant forall j :: i <= j < PlateSlots ==> plates[j] == before[j]
      {
        var p := plates[i];
        var latest := 0;
        if p.t1 > latest { latest := p.t1; }
        if p.t2 > latest { latest := p.t2; }
        if p.t3 > latest { latest := p.t3; }
        if p.t4 > latest { latest := p.t4; }
        assert latest == Latest(p);
        if (latest > 0 && now - latest > StaleAfter) || (p.processed && now - latest > FreedAfter) {
          plates[i] := FreeSlot;
        }
        i := i + 1;
      }
      assert plates[..] == Swept(before, plateCount, now);
      SweepKeepsTidy(before, plateCount, now);
    }

    /** `find_or_create_plate(h)`. */
    method FindOrCreatePlate(h: int) returns (index: int)
      requires Valid()
      modifies this, plates
      ensures Valid()
      ensures Placement(plates[..], plateCount, index) == Place(old(plates[..]), old(plateCount), h)
      ensures destroyed == old(destroyed) && trace == old(trace)
    {
      PlaceKeepsTidy(plates[..], plateCount, h);
      var i := 0;
      while i < plateCount
        invariant 0 <= i <= plateCount
        invariant ActiveFrom(plates[..], plateCount, h, 0) == ActiveFrom(plates[..], plateCount, h, i)
      {
        if !plates[i].processed && plates[i].height == h {
          return i;
        }
        i := i + 1;
      }
      i := 0;
      while i < plateCount
        invariant 0 <= i <= plateCount
        invariant FreeFrom(plates[..], plateCount, 0) == FreeFrom(plates[..], plateCount, i)
      {
        if plates[i].processed {
          plates[i] := NewTrack(h);
          return i;
        }
        i := i + 1;
      }
      if plateCount < PlateSlots {
        index := plateCount;
        plates[index] := NewTrack(h);
        plateCount := plateCount + 1;
        return;
      }
      return -1;
    }

    /** `locator_handler` for an event of locator `loc` at lane `y` with width `w`. */
    method LocatorHandler(now: int, loc: int, y: int, w: int) returns (index: int, start: Start)
      requires Valid()
      modifies this, plates
      ensures Valid()
      ensures destroyed == old(destroyed) && trace == old(trace)
      ensures old(destroyed) >= MaxDestroyed || w != PlateWidth ==>
        && index == -1 && start == NoStart
        && plates[..] == old(plates[..]) && plateCount == old(plateCount)
      ensures old(destroyed) < MaxDestroyed && w == PlateWidth ==>
        Outcome(plates[..], plateCount, index, start) == Handled(old(plates[..]), old(plateCount), loc, y, now)
    {
      if destroyed >= MaxDestroyed {
        return -1, NoStart;
      }
      if w != PlateWidth {
        return -1, NoStart;
      }
      HandledKeepsTidy(plates[..], plateCount, loc, y, now);
      index := FindOrCreatePlate(y);
      if index == -1 {
        CleanupOldPlates(now);
        index := FindOrCreatePlate(y);
        if index == -1 {
          return -1, NoStart;
        }
      }
      var p := plates[index];
      start := NoStart;
      match loc {
        case 1 =>
          if p.t3 == 0 && p.t4 == 0 {
            plates[index] := p.(t1 := now, direction := 1);
            if p.t2 != 0 { start := StartLeftToRight; }
          }
        case 2 =>
          if p.t3 == 0 && p.t4 == 0 {
            plates[index] := p.(t2 := now, direction := 1);
            if p.t1 != 0 { start := StartLeftToRight; }
          }
        case 3 =>
          if p.t1 == 0 && p.t2 == 0 {
            plates[index] := p.(t3 := now, direction := -1);
            if p.t4 != 0 { start := StartRightToLeft; }
          }
        case 4 =>
          if p.t1 == 0 && p.t2 == 0 {
            plates[index] := p.(t4 := now, direction := -1);
            if p.t3 != 0 { start := StartRightToLeft; }
          }
        case _ =>
      }
    }

    /** The body of `process_plate_left_to_right_thread` (or right-to-left) for slot
        `index`, up to the hand-over to a shooting thread. The unbounded wait for a free
        unit is one attempt here: -1 surfaces as `NoUnitFree`. */
    method ProcessTrack(index: int, leftToRight: bool) returns (plan: Plan)
      requires Valid() && 0 <= index < plateCount
      modifies plates, rusActive
      ensures Valid()
      ensures var p := old(plates[index]);
        && plan == Decide(PairGap(p, leftToRight), p.height, FirstIdleFrom(old(rusActive[..]), 0))
        && plates[..] == old(plates[..])[index := AfterProcessing(p, leftToRight, plan)]
      ensures plan.Guided? ==> rusActive[..] == old(rusActive[..])[plan.unit := true]
      ensures !plan.Guided? ==> rusActive[..] == old(rusActive[..])
    {
      var p := plates[index];
      var y := p.height;
      var ta := if leftToRight then p.t1 else p.t3;
      var tb := if leftToRight then p.t2 else p.t4;
      var early := if ta < tb then ta else tb;
      var late := if ta < tb then tb else ta;
      var dt := late - early;
      if dt <= MinGap || dt >= MaxGap {
        plates[index] := p.(processed := true);
        Retouched(old(plates[..]), plateCount, index, plates[index]);
        return Discarded;
      }
      var direction := if leftToRight then 1 else -1;
      plates[index] := p.(speed := RoundedSpeed(dt), direction := direction);
      if IsFast(dt) {
        var unit := GetAvailableRus();
        plan := if unit == -1 then NoUnitFree else Guided(unit);
      } else {
        var delay := RocketDelay(dt, y);
        if delay > 0 {
          plan := Ballistic(delay);
        } else {
          plates[index] := plates[index].(processed := true);
          plan := TooLate;
        }
      }
      Retouched(old(plates[..]), plateCount, index, plates[index]);
    }

    /** `rus_shoot_thread` for unit `unit` and slot `index`: launch, then head against or
        with the target, then close the slot, count the hit and free the unit. */
    method RusShoot(index: int, unit: int)
      requires Valid() && 0 <= index < plateCount
      modifies this, plates, rusActive
      ensures Valid()
      ensures var p := old(plates[index]);
        var heading := Heading(p.direction, Meets(p.height, p.speed));
        && trace == old(trace) + Commanded(old(rusActive[..]), unit, Start) + Commanded(old(rusActive[..]), unit, heading)
        && plates[..] == old(plates[..])[index := Closed(p)]
      ensures plateCount == old(plateCount) && destroyed == old(destroyed) + 1
      ensures 0 <= unit < RusSlots ==> rusActive[..] == old(rusActive[..])[unit := false]
      ensures unit < 0 || unit >= RusSlots ==> rusActive[..] == old(rusActive[..])
    {
      var p := plates[index];
      var meet := Meets(p.height, p.speed);
      SendRusCommand(unit, Start);
      SendRusCommand(unit, Heading(p.direction, meet));
      plates[index] := plates[index].(processed := true);
      Retouched(old(plates[..]), plateCount, index, plates[index]);
      destroyed := destroyed + 1;
      ReleaseRus(unit);
    }

    /** `shoot_thread`: after the delay, fire the gun and count the hit; a delay that is
        not positive only closes the slot. */
    method Shoot(index: int, delay: int)
      requires Valid() && 0 <= index < plateCount
      modifies this, plates
      ensures Valid()
      ensures plates[..] == old(plates[..])[index := Closed(old(plates[index]))]
      ensures plateCount == old(plateCount)
      ensures delay > 0 ==> trace == old(trace) + [GunShot] && destroyed == old(destroyed) + 1
      ensures delay <= 0 ==> trace == old(trace) && destroyed == old(destroyed)
    {
      if delay > 0 {
        trace := trace + [GunShot];
        plates[index] := plates[index].(processed := true);
        destroyed := destroyed + 1;
      } else {
        plates[index] := plates[index].(processed := true);
      }
      Retouched(old(plates[..]), plateCount, index, plates[index]);
    }
  }
}
