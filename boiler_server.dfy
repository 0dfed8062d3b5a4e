/**
  The networked power station (boiler_server.cpp): the same two trucks and
  four boilers as the local variant, but each truck asks the storage server
  for a unit with a "POP" request and decodes the decimal reply with `atoi`.
  The socket itself is outside the model: the descriptor, whether the write
  succeeded and the bytes read back are parameters.
 */
module BoilerServer {
  import opened Wire
  import opened FuelStore
  import opened PlantStates
  import opened TwoTruckPlant
  import StorageServer

  const TruckCount := 2
  /** `read` is given `sizeof(buffer) - 1` bytes of room. */
  const ReadBufferRoom := 31

  /** `RequestFuelFromStorage`: -1 with no socket, when the write fails or nothing is read;
      otherwise the `atoi` of the bytes read, of which the buffer keeps at most 31. */
  function RequestFuelFromStorage(socket: int, written: bool, received: seq<char>): (fuel: int)
    ensures socket < 0 || !written || received == [] ==> fuel == -1
    ensures socket >= 0 && written && 0 < |received| <= ReadBufferRoom ==> fuel == Atoi(received)
    ensures socket >= 0 && written && |received| > ReadBufferRoom ==> fuel == Atoi(received[..ReadBufferRoom])
  {
    if socket < 0 then -1
    else if !written then -1
    else if |received| > 0 then
      Atoi(if |received| > ReadBufferRoom then received[..ReadBufferRoom] else received)
    else -1
  }

  /** Over a working connection the client decodes exactly the unit the storage server
      popped, or -1 when the store was empty. */
  lemma FetchRoundTrip(q: seq<int>)
    requires Stocked(q)
    ensures var served := StorageServer.Serve(q, StorageServer.PopRequest);
      var bytes := StorageServer.Encoded(served.reply).value;
      && RequestFuelFromStorage(0, true, bytes) == (if q == [] then -1 else q[0])
      && (RequestFuelFromStorage(0, true, bytes) > 0 <==> q != [])
  {
    assert StorageServer.StartsWith(StorageServer.PopRequest, StorageServer.PopRequest);
    var served := StorageServer.Serve(q, StorageServer.PopRequest);
    ShortFormat(served.reply.value);
  }

  class Station {
    const socket: int
    const boilers: array<Boiler>
    const trucks: array<Truck>

    ghost function Plant(): Yard
      reads this, boilers, trucks
    {
      Yard(boilers[..], trucks[..])
    }

    ghost predicate Valid()
      reads this, boilers, trucks
    {
      trucks.Length == TruckCount && Dispatched(Plant())
    }

    /** `main` after `ConnectToStorageServer`, with `socket` the descriptor it obtained. */
    constructor (socket: int)
      ensures Valid() && this.socket == socket
      ensures boilers[..] == seq(BoilerCount, _ => ColdBoiler)
      ensures trucks[..] == seq(TruckCount, _ => ParkedTruck)
    {
      this.socket := socket;
      boilers := new Boiler[BoilerCount](_ => ColdBoiler);
      trucks := new Truck[TruckCount](_ => ParkedTruck);
      new;
      InitiallyDispatched(TruckCount);
    }

    /** The loading block of truck `v`'s thread: only a positive reply is taken as fuel;
        -1 (empty store or failed request) sends the truck back with no boiler claimed. */
    method Load(v: nat, written: bool, received: seq<char>)
      requires Valid() && v < TruckCount
      modifies boilers, trucks
      ensures Valid()
      ensures var fuel := RequestFuelFromStorage(socket, written, received);
        Plant() == AfterLoad(old(Plant()), v, if fuel > 0 then Some(fuel) else None)
    {
      if trucks[v].state == MovingToStorage {
        var fuel := RequestFuelFromStorage(socket, written, received);
        if fuel > 0 {
          DispatchTruck(boilers, trucks, v, fuel);
          LoadKeepsDispatched(old(Plant()), v, Some(fuel));
        } else {
          trucks[v] := trucks[v].(state := MovingToStorage);
        }
      }
    }

    /** The unloading block of truck `v`'s thread. */
    method Unload(v: nat)
      requires Valid() && v < TruckCount
      modifies boilers, trucks
      ensures Valid()
      ensures Plant() == AfterUnload(old(Plant()), v)
    {
      UnloadKeepsDispatched(Plant(), v);
      UnloadTruck(boilers, trucks, v);
    }

    /** One pass of `BoilerThread` number `id`. */
    method Tick(id: nat)
      requires Valid() && id < BoilerCount
      modifies boilers
      ensures Valid()
      ensures Plant() == AfterTick(old(Plant()), id)
    {
      TickKeepsDispatched(Plant(), id);
      BoilerTick(boilers, id);
    }
  }
}
