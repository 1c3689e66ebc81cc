/** The backend's record types and constant tables (backend/src/types/index.ts).
    The client declares the same record shapes, so both sides share them. */
module RailTypes {

  import opened Common

  datatype Coordinates = Coordinates(lat: real, lon: real)

  datatype StationType = Local | Regional | Intercity | Hub

  datatype TrackType = Hst | Ic | NonElectrified

  datatype CrossoverType = Simple | Junction | FlyingJunction

  /** An absent facilities object, or an absent flag, reads as false. */
  datatype Facilities = Facilities(parking: bool, shops: bool, bikeRental: bool)

  const NoFacilities := Facilities(false, false, false)

  datatype Station = Station(
    id: string,
    name: string,
    location: Coordinates,
    platforms: int,
    stationType: StationType,
    cost: real,
    facilities: Facilities)

  datatype Track = Track(
    id: string,
    trackType: TrackType,
    fromNodeId: string,
    toNodeId: string,
    waypoints: seq<Coordinates>,
    lengthKm: real,
    speedLimit: int,
    isDoubleTrack: bool,
    cost: real,
    maintenanceCost: real)

  datatype Crossover = Crossover(
    id: string,
    name: Option<string>,
    location: Coordinates,
    crossoverType: CrossoverType,
    cost: real)

  datatype Network = Network(
    id: string,
    name: string,
    budget: real,
    income: real,
    expenses: real,
    gameYear: int,
    gameMonth: int,
    stations: seq<Station>,
    tracks: seq<Track>,
    crossovers: seq<Crossover>)

  /** TRACK_COSTS: construction cost per km. */
  function TrackCostPerKm(t: TrackType): (c: real)
    ensures c >= 2000000.0
  {
    match t
    case Hst => 10000000.0
    case Ic => 5000000.0
    case NonElectrified => 2000000.0
  }

  /** TRACK_SPEED_LIMITS, in km/h. */
  function TrackSpeedLimit(t: TrackType): (v: int)
    ensures 120 <= v <= 300
  {
    match t
    case Hst => 300
    case Ic => 200
    case NonElectrified => 120
  }

  /** MAINTENANCE_COSTS: maintenance per km per year. */
  function MaintenancePerKm(t: TrackType): (c: real)
    ensures c >= 15000.0
  {
    match t
    case Hst => 50000.0
    case Ic => 30000.0
    case NonElectrified => 15000.0
  }

  /** STATION_BASE_COSTS. */
  function StationBaseCost(s: StationType): (c: real)
    ensures c >= 5000000.0
  {
    match s
    case Local => 5000000.0
    case Regional => 20000000.0
    case Intercity => 50000000.0
    case Hub => 150000000.0
  }

  /** CROSSOVER_COSTS. */
  function CrossoverBaseCost(c: CrossoverType): (r: real)
    ensures r >= 500000.0
  {
    match c
    case Simple => 500000.0
    case Junction => 2000000.0
    case FlyingJunction => 10000000.0
  }

  /** FACILITY_COSTS, as fractions of the platform cost. */
  const ParkingSurcharge: real := 0.05
  const ShopsSurcharge: real := 0.05
  const BikeRentalSurcharge: real := 0.02

  /** A faster track class costs strictly more to build and to maintain,
      and its speed limit is strictly higher. */
  predicate Faster(a: TrackType, b: TrackType)
  {
    (a == Hst && b != Hst) || (a == Ic && b == NonElectrified)
  }

  lemma TrackTablesOrdered(a: TrackType, b: TrackType)
    requires Faster(a, b)
    ensures TrackCostPerKm(a) > TrackCostPerKm(b)
    ensures MaintenancePerKm(a) > MaintenancePerKm(b)
    ensures TrackSpeedLimit(a) > TrackSpeedLimit(b)
  {
  }

  /** Rank of a station class: local < regional < intercity < hub. */
  function StationRank(s: StationType): (n: nat)
    ensures n < 4
  {
    match s
    case Local => 0
    case Regional => 1
    case Intercity => 2
    case Hub => 3
  }

  lemma StationBaseCostsIncrease(a: StationType, b: StationType)
    requires StationRank(a) < StationRank(b)
    ensures StationBaseCost(a) < StationBaseCost(b)
  {
  }

  /** Every station base cost is a whole multiple of ten, so p/10 of it is whole. */
  lemma StationBaseCostsDivisibleByTen(s: StationType)
    ensures StationBaseCost(s) == StationBaseCost(s).Floor as real
    ensures StationBaseCost(s).Floor % 10 == 0
  {
  }

  lemma CrossoverCostsIncrease()
    ensures CrossoverBaseCost(Simple) < CrossoverBaseCost(Junction) < CrossoverBaseCost(FlyingJunction)
  {
  }

  lemma AllFacilitiesAddTwelvePercent()
    ensures ParkingSurcharge + ShopsSurcharge + BikeRentalSurcharge == 0.12
  {
  }
}
