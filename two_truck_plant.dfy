/**
  Boiler bookkeeping shared, line for line, by the two-truck power station
  (two_trucks.cpp) and its networked variant (boiler_server.cpp): choosing a
  boiler for a loaded truck, the once-a-second burn, and unloading a truck
  into its boiler. The five parallel boiler arrays of the source are one
  array of `Boiler` records here.
 */
module TwoTruckPlant {
  import opened Wire
  import opened PlantStates

  /** A boiler whose level has fallen to this is flagged as running low. */
  const LowFuelLevel := 2

  datatype Boiler = Boiler(state: BoilerState, level: int, mark: int, lowFuel: bool, targeted: bool)

  /** A boiler as `main` starts it. */
  const ColdBoiler := Boiler(WaitingForFuel, 0, 0, false, false)

  /** The boilers and the trucks, as one value. */
  datatype Yard = Yard(boilers: seq<Boiler>, trucks: seq<Truck>)

  predicate LowAndFree(b: Boiler) {
    b.lowFuel && !b.targeted
  }

  predicate WaitingAndFree(b: Boiler) {
    b.state == WaitingForFuel && !b.targeted
  }

  /** The lowest index at or after `i` of a low-fuel boiler no truck is heading to, or -1. */
  function FirstLowFrom(bs: seq<Boiler>, i: nat): (r: int)
    requires i <= |bs|
    ensures r == NoTarget || i <= r < |bs|
    ensures r != NoTarget ==> LowAndFree(bs[r])
    ensures forall j :: i <= j < |bs| && (r == NoTarget || j < r) ==> !LowAndFree(bs[j])
    decreases |bs| - i
  {
    if i == |bs| then NoTarget
    else if LowAndFree(bs[i]) then i
    else FirstLowFrom(bs, i + 1)
  }

  /** The lowest index at or after `i` of a waiting boiler no truck is heading to, or -1. */
  function FirstWaitingFrom(bs: seq<Boiler>, i: nat): (r: int)
    requires i <= |bs|
    ensures r == NoTarget || i <= r < |bs|
    ensures r != NoTarget ==> WaitingAndFree(bs[r])
    ensures forall j :: i <= j < |bs| && (r == NoTarget || j < r) ==> !WaitingAndFree(bs[j])
    decreases |bs| - i
  {
    if i == |bs| then NoTarget
    else if WaitingAndFree(bs[i]) then i
    else FirstWaitingFrom(bs, i + 1)
  }

  /** The boiler `SelectAvailableBoiler` picks: low-fuel boilers first, then waiting ones,
      lowest index first, never one that is already targeted; -1 when none qualifies. */
  function Selection(bs: seq<Boiler>): (r: int)
    ensures r == NoTarget || 0 <= r < |bs|
    ensures r != NoTarget ==> !bs[r].targeted
    ensures r == NoTarget <==> forall j :: 0 <= j < |bs| ==> !LowAndFree(bs[j]) && !WaitingAndFree(bs[j])
    ensures r != NoTarget && bs[r].lowFuel ==> forall j :: 0 <= j < r ==> !LowAndFree(bs[j])
    ensures r != NoTarget && !bs[r].lowFuel ==>
      bs[r].state == WaitingForFuel &&
      (forall j :: 0 <= j < |bs| ==> !LowAndFree(bs[j])) &&
      (forall j :: 0 <= j < r ==> !WaitingAndFree(bs[j]))
  {
    var low := FirstLowFrom(bs, 0);
    if low != NoTarget then low else FirstWaitingFrom(bs, 0)
  }

  /** The boilers after the selection `r` has been marked as targeted. */
  function Claimed(bs: seq<Boiler>, r: int): seq<Boiler>
    requires r == NoTarget || 0 <= r < |bs|
  {
    if r == NoTarget then bs else bs[r := bs[r].(targeted := true)]
  }

  /** Two selections with no unload between them never pick the same boiler. */
  lemma SelectionsDiffer(bs: seq<Boiler>)
    requires Selection(bs) != NoTarget
    ensures Selection(Claimed(bs, Selection(bs))) != Selection(bs)
  {
  }

  /** A boiler the programs can reach: a waiting boiler is empty and unmarked, a burning one
      holds no more than its mark, and only a burning boiler at level 2 or less is flagged low. */
  predicate Coherent(b: Boiler) {
    && b.level >= 0
    && (b.state == WaitingForFuel ==> b.level == 0 && b.mark == 0)
    && (b.state == Burning ==> b.level <= b.mark)
    && (b.lowFuel ==> b.state == Burning && b.level <= LowFuelLevel)
  }

  /** One second of `BoilerThread` for one boiler. */
  function Ticked(b: Boiler): (r: Boiler)
    ensures r.targeted == b.targeted
    ensures b.state == WaitingForFuel ==> r == b
    ensures b.state == Burning && b.level > 0 ==>
      r.state == Burning && r.level == b.level - 1 && r.mark == b.mark &&
      (r.lowFuel <==> b.lowFuel || r.level <= LowFuelLevel)
    ensures b.state == Burning && b.level <= 0 ==>
      r.state == WaitingForFuel && r.mark == 0 && !r.lowFuel && r.level == b.level
    ensures Coherent(b) ==> Coherent(r)
  {
    if b.state == Burning then
      if b.level > 0 then
        var level := b.level - 1;
        b.(level := level, lowFuel := b.lowFuel || level <= LowFuelLevel)
      else
        b.(state := WaitingForFuel, mark := 0, lowFuel := false)
    else
      b
  }

  /** `n` seconds of burning. */
  function Burnt(b: Boiler, n: nat): Boiler
    decreases n
  {
    if n == 0 then b else Burnt(Ticked(b), n - 1)
  }

  /** A burning boiler filled to level L keeps burning for L seconds and is waiting for
      fuel again, unmarked, one second later. */
  lemma {:induction false} BurnsOut(b: Boiler, n: nat)
    requires Coherent(b) && b.state == Burning
    ensures n <= b.level ==> Burnt(b, n).state == Burning && Burnt(b, n).level == b.level - n
    ensures n == b.level + 1 ==> Burnt(b, n).state == WaitingForFuel && Burnt(b, n).mark == 0
    decreases n
  {
    if n > 0 && b.level > 0 {
      BurnsOut(Ticked(b), n - 1);
    } else if n > 0 {
      assert Burnt(b, 1) == Ticked(b);
    }
  }

  /** The boiler after a truck carrying `fuel` unloads into it. */
  function Refuelled(b: Boiler, fuel: int): (r: Boiler)
    requires fuel > 0
    ensures r.state == Burning && r.level == fuel && r.mark == fuel
    ensures !r.lowFuel && !r.targeted
    ensures Coherent(r)
  {
    Boiler(Burning, fuel, fuel, false, false)
  }

  /** A truck between critical sections: parked with no target, or loaded and bound for one. */
  predicate TruckCoherent(t: Truck) {
    || (t.state == MovingToStorage && t.target == NoTarget)
    || (t.state == MovingToBoiler && 0 <= t.target < BoilerCount && t.fuel > 0)
  }

  /** The plant invariant: exactly the boilers some truck is heading to are flagged
      targeted, and no two trucks head to the same boiler. */
  predicate Dispatched(y: Yard) {
    && |y.boilers| == BoilerCount
    && (forall i :: 0 <= i < |y.boilers| ==> Coherent(y.boilers[i]))
    && (forall v :: 0 <= v < |y.trucks| ==> TruckCoherent(y.trucks[v]))
    && (forall i :: 0 <= i < |y.boilers| ==>
          (y.boilers[i].targeted <==> exists v :: 0 <= v < |y.trucks| && y.trucks[v].target == i))
    && (forall v, w :: 0 <= v < |y.trucks| && 0 <= w < |y.trucks| && v != w && y.trucks[v].target != NoTarget ==>
          y.trucks[v].target != y.trucks[w].target)
  }

  /** The plant as `main` starts it. */
  lemma InitiallyDispatched(n: nat)
    ensures Dispatched(Yard(seq(BoilerCount, _ => ColdBoiler), seq(n, _ => ParkedTruck)))
  {
  }

  /** The loading critical section for truck `v`: `supply` is the unit it obtained
      (None when the store was empty or the storage server refused). */
  function AfterLoad(y: Yard, v: nat, supply: Option<int>): (r: Yard)
    requires v < |y.trucks|
    ensures |r.boilers| == |y.boilers| && |r.trucks| == |y.trucks|
    ensures forall w :: 0 <= w < |y.trucks| && w != v ==> r.trucks[w] == y.trucks[w]
    // a truck that is not at the store, or got no unit, changes nothing
    ensures y.trucks[v].state != MovingToStorage || supply.None? ==> r == y
    // a unit in hand: the truck carries it towards the selected boiler, which is claimed,
    // or back to the store when none is free
    ensures y.trucks[v].state == MovingToStorage && supply.Some? ==>
      var sel := Selection(y.boilers);
      && r.trucks[v] == Truck(if sel == NoTarget then MovingToStorage else MovingToBoiler, supply.value, sel)
      && r.boilers == Claimed(y.boilers, sel)
  {
    var t := y.trucks[v];
    if t.state != MovingToStorage then y
    else match supply
      case None => y
      case Some(fuel) =>
        var r := Selection(y.boilers);
        var state := if r == NoTarget then MovingToStorage else MovingToBoiler;
        Yard(Claimed(y.boilers, r), y.trucks[v := Truck(state, fuel, r)])
  }

  /** The unloading critical section for truck `v`. */
  function AfterUnload(y: Yard, v: nat): (r: Yard)
    requires v < |y.trucks|
    requires NoTarget <= y.trucks[v].target < |y.boilers|
    ensures |r.boilers| == |y.boilers| && |r.trucks| == |y.trucks|
    ensures forall w :: 0 <= w < |y.trucks| && w != v ==> r.trucks[w] == y.trucks[w]
    // only a truck bound for a boiler unloads, and it always heads back to the store
    ensures !(y.trucks[v].state == MovingToBoiler && y.trucks[v].target != NoTarget) ==> r == y
    ensures y.trucks[v].state == MovingToBoiler && y.trucks[v].target != NoTarget ==>
      r.trucks[v].state == MovingToStorage
    // a truck with fuel refuels its boiler, frees it and parks empty; only that boiler changes
    ensures y.trucks[v].state == MovingToBoiler && y.trucks[v].target != NoTarget && y.trucks[v].fuel > 0 ==>
      var t := y.trucks[v];
      && r.trucks[v] == ParkedTruck
      && r.boilers == y.boilers[t.target := Refuelled(y.boilers[t.target], t.fuel)]
    // an empty truck turns back and no boiler changes
    ensures y.trucks[v].state == MovingToBoiler && y.trucks[v].target != NoTarget && y.trucks[v].fuel <= 0 ==>
      r.boilers == y.boilers && r.trucks[v] == y.trucks[v].(state := MovingToStorage)
  {
    var t := y.trucks[v];
    if t.state == MovingToBoiler && t.target != NoTarget then
      if t.fuel > 0 then
        Yard(y.boilers[t.target := Refuelled(y.boilers[t.target], t.fuel)], y.trucks[v := ParkedTruck])
      else
        Yard(y.boilers, y.trucks[v := t.(state := MovingToStorage)])
    else y
  }

  /** One second of `BoilerThread` number `id`. */
  function AfterTick(y: Yard, id: nat): (r: Yard)
    requires id < |y.boilers|
  {
    Yard(y.boilers[id := Ticked(y.boilers[id])], y.trucks)
  }

  /** Loading a positive unit keeps the plant invariant: the selected boiler was not
      targeted, so the loading truck becomes the only one heading to it. */
  lemma LoadKeepsDispatched(y: Yard, v: nat, supply: Option<int>)
    requires Dispatched(y) && v < |y.trucks|
    requires supply.Some? ==> supply.value > 0
    ensures Dispatched(AfterLoad(y, v, supply))
  {
    var t := y.trucks[v];
    if t.state == MovingToStorage && supply.Some? {
      var r := Selection(y.boilers);
      var y' := AfterLoad(y, v, supply);
      forall i | 0 <= i < |y'.boilers|
        ensures y'.boilers[i].targeted <==> exists w :: 0 <= w < |y'.trucks| && y'.trucks[w].target == i
      {
        if y'.boilers[i].targeted {
          if i == r {
            assert y'.trucks[v].target == i;
          } else {
            var w :| 0 <= w < |y.trucks| && y.trucks[w].target == i;
            assert y'.trucks[w].target == i;
          }
        }
        if exists w :: 0 <= w < |y'.trucks| && y'.trucks[w].target == i {
          var w :| 0 <= w < |y'.trucks| && y'.trucks[w].target == i;
          if w != v {
            assert y.trucks[w].target == i;
          }
        }
      }
    }
  }

  /** Unloading keeps the plant invariant: the boiler it fills was targeted by this truck only. */
  lemma UnloadKeepsDispatched(y: Yard, v: nat)
    requires Dispatched(y) && v < |y.trucks|
    ensures NoTarget <= y.trucks[v].target < |y.boilers|
    ensures Dispatched(AfterUnload(y, v))
  {
    var t := y.trucks[v];
    if t.state == MovingToBoiler && t.target != NoTarget {
      var y' := AfterUnload(y, v);
      forall i | 0 <= i < |y'.boilers|
        ensures y'.boilers[i].targeted <==> exists w :: 0 <= w < |y'.trucks| && y'.trucks[w].target == i
      {
        if y'.boilers[i].targeted {
          var w :| 0 <= w < |y.trucks| && y.trucks[w].target == i;
          assert w != v;
          assert y'.trucks[w].target == i;
        }
        if exists w :: 0 <= w < |y'.trucks| && y'.trucks[w].target == i {
          var w :| 0 <= w < |y'.trucks| && y'.trucks[w].target == i;
          assert w != v && y.trucks[w].target == i;
        }
      }
    }
  }

  /** Burning never touches the targeting, so the invariant survives every tick. */
  lemma TickKeepsDispatched(y: Yard, id: nat)
    requires Dispatched(y) && id < |y.boilers|
    ensures Dispatched(AfterTick(y, id))
  {
    var y' := AfterTick(y, id);
    forall i | 0 <= i < |y'.boilers|
      ensures y'.boilers[i].targeted <==> exists w :: 0 <= w < |y'.trucks| && y'.trucks[w].target == i
    {
      assert y'.boilers[i].targeted == y.boilers[i].targeted;
    }
  }

  /** `SelectAvailableBoiler`: two first-fit scans that flag the chosen boiler. */
  method SelectAvailableBoiler(boilers: array<Boiler>) returns (r: int)
    modifies boilers
    ensures r == Selection(old(boilers[..]))
    ensures boilers[..] == Claimed(old(boilers[..]), r)
  {
    var i := 0;
    while i < boilers.Length
      invariant 0 <= i <= boilers.Length
      invariant boilers[..] == old(boilers[..])
      invariant FirstLowFrom(boilers[..], 0) == FirstLowFrom(boilers[..], i)
    {
      if boilers[i].lowFuel && !boilers[i].targeted {
        boilers[i] := boilers[i].(targeted := true);
        return i;
      }
      i := i + 1;
    }
    i := 0;
    while i < boilers.Length
      invariant 0 <= i <= boilers.Length
      invariant boilers[..] == old(boilers[..])
      invariant FirstWaitingFrom(boilers[..], 0) == FirstWaitingFrom(boilers[..], i)
    {
      if boilers[i].state == WaitingForFuel && !boilers[i].targeted {
        boilers[i] := boilers[i].(targeted := true);
        return i;
      }
      i := i + 1;
    }
    return NoTarget;
  }

  /** The tail of the loading section once a unit is in hand: pick a boiler and set off
      towards it, or back to the store when every boiler is taken. */
  method DispatchTruck(boilers: array<Boiler>, trucks: array<Truck>, v: nat, fuel: int)
    requires v < trucks.Length && trucks[v].state == MovingToStorage
    modifies boilers, trucks
    ensures Yard(boilers[..], trucks[..]) == AfterLoad(old(Yard(boilers[..], trucks[..])), v, Some(fuel))
  {
    var r := SelectAvailableBoiler(boilers);
    if r != NoTarget {
      trucks[v] := Truck(MovingToBoiler, fuel, r);
    } else {
      trucks[v] := Truck(MovingToStorage, fuel, r);
    }
  }

  /** The unloading section of the truck thread (its second `if` block). */
  method UnloadTruck(boilers: array<Boiler>, trucks: array<Truck>, v: nat)
    requires v < trucks.Length && NoTarget <= trucks[v].target < boilers.Length
    modifies boilers, trucks
    ensures Yard(boilers[..], trucks[..]) == AfterUnload(old(Yard(boilers[..], trucks[..])), v)
  {
    var t := trucks[v];
    if t.state == MovingToBoiler && t.target != NoTarget {
      if t.target != NoTarget && t.fuel > 0 {
        boilers[t.target] := Boiler(Burning, t.fuel, t.fuel, false, false);
        trucks[v] := Truck(t.state, 0, NoTarget);
      }
      trucks[v] := trucks[v].(state := MovingToStorage);
    }
  }

  /** One pass of `BoilerThread` number `id`. */
  method BoilerTick(boilers: array<Boiler>, id: nat)
    requires id < boilers.Length
    modifies boilers
    ensures boilers[..] == old(boilers[..])[id := Ticked(old(boilers[id]))]
  {
    var b := boilers[id];
    if b.state == Burning {
      if b.level > 0 {
        b := b.(level := b.level - 1);
        if b.level <= LowFuelLevel {
          b := b.(lowFuel := true);
        }
      } else {
        b := b.(state := WaitingForFuel, mark := 0, lowFuel := false);
      }
      boilers[id] := b;
    }
  }
}
