/**
  The single-truck power station (electrostation.cpp): one truck, four
  boilers with no low-fuel or targeting flags, a boiler filled with `fuel`
  units burning for `2 * fuel` half-second ticks, and a truck that always
  sets off to some boiler once it has loaded.
 */
module Electrostation {
  import opened FuelStore
  import opened PlantStates

  /** `boiler_states[i]`, `boiler_fuel_level[i]`, `boiler_fuel_marks[i]`. */
  datatype Boiler = Boiler(state: BoilerState, level: int, mark: int)

  const ColdBoiler := Boiler(WaitingForFuel, 0, 0)

  /** The lowest index at or after `i` of a boiler waiting for fuel, or -1. */
  function FirstWaitingFrom(bs: seq<Boiler>, i: nat): (r: int)
    requires i <= |bs|
    ensures r == NoTarget || i <= r < |bs|
    ensures r != NoTarget ==> bs[r].state == WaitingForFuel
    ensures forall j :: i <= j < |bs| && (r == NoTarget || j < r) ==> bs[j].state != WaitingForFuel
    decreases |bs| - i
  {
    if i == |bs| then NoTarget
    else if bs[i].state == WaitingForFuel then i
    else FirstWaitingFrom(bs, i + 1)
  }

  /** The boiler chosen after a load: the lowest-index waiting boiler, or the random
      `choice` when every boiler is burning, so the target is always a real boiler. */
  function Target(bs: seq<Boiler>, choice: int): (r: int)
    requires 0 <= choice < |bs|
    ensures 0 <= r < |bs|
    ensures (exists j :: 0 <= j < |bs| && bs[j].state == WaitingForFuel) ==>
      bs[r].state == WaitingForFuel && forall j :: 0 <= j < r ==> bs[j].state != WaitingForFuel
    ensures (forall j :: 0 <= j < |bs| ==> bs[j].state != WaitingForFuel) ==> r == choice
  {
    var w := FirstWaitingFrom(bs, 0);
    if w != NoTarget then w else choice
  }

  /** A boiler the program can reach: a waiting one is empty and unmarked, a burning one
      carries the mark of a real unit and at most twice that many half-second ticks. */
  predicate Coherent(b: Boiler) {
    && b.level >= 0
    && (b.state == WaitingForFuel ==> b.level == 0 && b.mark == 0)
    && (b.state == Burning ==> IsMark(b.mark) && b.level <= 2 * b.mark)
  }

  /** The boiler after the truck unloads `fuel` units into it. */
  function Fired(b: Boiler, fuel: int): (r: Boiler)
    requires fuel > 0
    ensures r.state == Burning && r.level == 2 * fuel && r.mark == fuel
    ensures IsMark(fuel) ==> Coherent(r)
  {
    Boiler(Burning, fuel * 2, fuel)
  }

  /** One half-second pass of `BoilerThread`. */
  function Ticked(b: Boiler): (r: Boiler)
    ensures b.state == WaitingForFuel ==> r == b
    ensures b.state == Burning && b.level > 0 ==> r == Boiler(Burning, b.level - 1, b.mark)
    ensures b.state == Burning && b.level <= 0 ==> r.state == WaitingForFuel && r.mark == 0
    ensures Coherent(b) ==> Coherent(r)
  {
    if b.state == Burning then
      if b.level > 0 then b.(level := b.level - 1) else b.(state := WaitingForFuel, mark := 0)
    else b
  }

  function Burnt(b: Boiler, n: nat): Boiler
    decreases n
  {
    if n == 0 then b else Burnt(Ticked(b), n - 1)
  }

  /** A boiler filled with `fuel` units burns through `2 * fuel` half-second ticks, that is
      `fuel` seconds, and is waiting for fuel on the tick after. */
  lemma {:induction false} BurnsFor(b: Boiler, n: nat)
    requires b.state == Burning && b.level >= 0
    ensures n <= b.level ==> Burnt(b, n) == Boiler(Burning, b.level - n, b.mark)
    ensures n == b.level + 1 ==> Burnt(b, n) == Boiler(WaitingForFuel, 0, 0)
    decreases n
  {
    if n > 0 && b.level > 0 {
      BurnsFor(Ticked(b), n - 1);
    } else if n > 0 {
      assert Burnt(b, 1) == Ticked(b);
    }
  }

  /** The truck between critical sections: parked and empty, or loaded with a real unit
      and bound for a real boiler. */
  predicate TruckCoherent(t: Truck) {
    || (t.state == MovingToStorage && t.target == NoTarget && t.fuel == 0)
    || (t.state == MovingToBoiler && 0 <= t.target < BoilerCount && IsMark(t.fuel))
  }

  class Station {
    var store: seq<int>
    var truck: Truck
    const boilers: array<Boiler>

    ghost predicate Valid()
      reads this, boilers
    {
      && Stocked(store)
      && TruckCoherent(truck)
      && boilers.Length == BoilerCount
      && forall i :: 0 <= i < BoilerCount ==> Coherent(boilers[i])
    }

    /** `main`: ten random units in the store, cold boilers, a parked truck. */
    constructor (initial: seq<int>)
      requires |initial| == InitialFill && AllMarks(initial)
      ensures Valid()
      ensures store == initial && truck == ParkedTruck
      ensures boilers[..] == seq(BoilerCount, _ => ColdBoiler)
    {
      store := initial;
      truck := ParkedTruck;
      boilers := new Boiler[BoilerCount](_ => ColdBoiler);
    }

    /** One round of `StorageThread` with `mark` as the random draw. */
    method Produce(mark: int)
      requires Valid() && IsMark(mark)
      modifies this
      ensures Valid()
      ensures store == Produced(old(store), mark) && truck == old(truck)
    {
      if |store| < Capacity {
        store := store + [mark];
      }
    }

    /** The loading block of `VehicleThread`, with `choice` standing for `rand() % 4`. */
    method Load(choice: int)
      requires Valid() && 0 <= choice < BoilerCount
      modifies this
      ensures Valid()
      ensures old(truck.state) == MovingToStorage && old(store) != [] ==>
        && store == old(store)[1..]
        && truck == Truck(MovingToBoiler, old(store)[0], Target(boilers[..], choice))
      ensures old(truck.state) != MovingToStorage || old(store) == [] ==>
        store == old(store) && truck == old(truck)
    {
      if truck.state == MovingToStorage {
        if store != [] {
          var fuel := store[0];
          store := store[1..];
          var target := NoTarget;
          var i := 0;
          while i < BoilerCount
            invariant 0 <= i <= BoilerCount
            invariant target == NoTarget
            invariant FirstWaitingFrom(boilers[..], 0) == FirstWaitingFrom(boilers[..], i)
          {
            if boilers[i].state == WaitingForFuel {
              target := i;
              break;
            }
            i := i + 1;
          }
          if target == NoTarget {
            target := choice;
          }
          truck := Truck(MovingToBoiler, fuel, target);
        } else {
          truck := truck.(state := MovingToStorage);
        }
      }
    }

    /** The unloading block of `VehicleThread`: the boiler gets twice the truck's units. */
    method Unload()
      requires Valid()
      modifies this, boilers
      ensures Valid() && store == old(store)
      ensures old(truck.state) == MovingToBoiler ==>
        && boilers[..] == old(boilers[..])[old(truck.target) := Fired(old(boilers[truck.target]), old(truck.fuel))]
        && truck == ParkedTruck
      ensures old(truck.state) != MovingToBoiler ==> boilers[..] == old(boilers[..]) && truck == old(truck)
    {
      if truck.state == MovingToBoiler && truck.target != NoTarget {
        if truck.target != NoTarget && truck.fuel > 0 {
          boilers[truck.target] := Boiler(Burning, truck.fuel * 2, truck.fuel);
          truck := truck.(fuel := 0, target := NoTarget);
        }
        truck := truck.(state := MovingToStorage);
      }
    }

    /** One half-second pass of `BoilerThread` number `id`. */
    method Tick(id: nat)
      requires Valid() && id < BoilerCount
      modifies boilers
      ensures Valid()
      ensures boilers[..] == old(boilers[..])[id := Ticked(old(boilers[id]))]
    {
      var b := boilers[id];
      if b.state == Burning {
        if b.level > 0 {
          boilers[id] := b.(level := b.level - 1);
        } else {
          boilers[id] := b.(state := WaitingForFuel, mark := 0);
        }
      }
    }
  }
}
