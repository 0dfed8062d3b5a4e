/** The state enumerations and truck record common to the three power-station programs. */
module PlantStates {

  datatype BoilerState = WaitingForFuel | Burning

  /** The truck states the threads branch on. The programs also show LOADING and
      UNLOADING on screen while a truck stands at the store or a boiler; only the
      display reads them, so they are not part of this model. */
  datatype VehicleState = MovingToStorage | MovingToBoiler

  /** `vehicleN_state`, `vehicleN_fuel`, `vehicleN_target_boiler`; -1 means no target. */
  datatype Truck = Truck(state: VehicleState, fuel: int, target: int)

  const NoTarget := -1
  const BoilerCount := 4

  /** A truck as `main` starts it: heading to the store, empty, with no target. */
  const ParkedTruck := Truck(MovingToStorage, 0, NoTarget)
}
