/**
  The two-truck power station (two_trucks.cpp): a local fuel store refilled
  by a producer thread, two trucks that carry one unit at a time from the
  store to a boiler, and four boilers that burn one unit a second. Each
  thread's critical section is one atomic method here.
 */
module TwoTrucks {
  import opened Wire
  import opened FuelStore
  import opened PlantStates
  import opened TwoTruckPlant

  const TruckCount := 2

  class Station {
    var store: seq<int>
    const boilers: array<Boiler>
    const trucks: array<Truck>

    ghost function Plant(): Yard
      reads this, boilers, trucks
    {
      Yard(boilers[..], trucks[..])
    }

    ghost predicate Valid()
      reads this, boilers, trucks
    {
      Stocked(store) && trucks.Length == TruckCount && Dispatched(Plant())
    }

    /** `main`: ten random units in the store, cold boilers, parked trucks. */
    constructor (initial: seq<int>)
      requires |initial| == InitialFill && AllMarks(initial)
      ensures Valid()
      ensures store == initial
      ensures boilers[..] == seq(BoilerCount, _ => ColdBoiler)
      ensures trucks[..] == seq(TruckCount, _ => ParkedTruck)
    {
      store := initial;
      boilers := new Boiler[BoilerCount](_ => ColdBoiler);
      trucks := new Truck[TruckCount](_ => ParkedTruck);
      new;
      InitiallyDispatched(TruckCount);
    }

    /** One round of `StorageThread` with `mark` as the random draw. */
    method Produce(mark: int)
      requires Valid() && IsMark(mark)
      modifies this
      ensures Valid()
      ensures store == Produced(old(store), mark)
    {
      if |store| < Capacity {
        store := store + [mark];
      }
    }

    /** The loading block of truck `v`'s thread: pop the front unit (FIFO) if there is
        one and pick a boiler for it. */
    method Load(v: nat)
      requires Valid() && v < TruckCount
      modifies this, boilers, trucks
      ensures Valid()
      ensures var loads := old(trucks[v].state) == MovingToStorage && old(store) != [];
        && store == (if loads then old(store)[1..] else old(store))
        && Plant() == AfterLoad(old(Plant()), v, if loads then Some(old(store)[0]) else None)
    {
      if trucks[v].state == MovingToStorage {
        if store != [] {
          var fuel := store[0];
          store := store[1..];
          DispatchTruck(boilers, trucks, v, fuel);
          LoadKeepsDispatched(old(Plant()), v, Some(fuel));
        } else {
          trucks[v] := trucks[v].(state := MovingToStorage);
        }
      }
    }

    /** The unloading block of truck `v`'s thread. */
    method Unload(v: nat)
      requires Valid() && v < TruckCount
      modifies boilers, trucks
      ensures Valid()
      ensures Plant() == AfterUnload(old(Plant()), v)
    {
      UnloadKeepsDispatched(Plant(), v);
      UnloadTruck(boilers, trucks, v);
    }

    /** One pass of `BoilerThread` number `id`. */
    method Tick(id: nat)
      requires Valid() && id < BoilerCount
      modifies boilers
      ensures Valid()
      ensures Plant() == AfterTick(old(Plant()), id)
    {
      TickKeepsDispatched(Plant(), id);
      BoilerTick(boilers, id);
    }
  }
}
