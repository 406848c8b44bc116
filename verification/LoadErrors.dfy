/** The error codes of the load planner. */
module {:induction false} LoadErrors {
  datatype LoadError =
    | NoBlockFuel
    | NoCargoStations
    | FuelOverCapacity
    | NoTanks
    | NoCargo
    | MtowNoRoom
}
