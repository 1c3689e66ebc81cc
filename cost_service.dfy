/** The authoritative cost model of backend/src/services/cost.service.ts.
    JavaScript numbers are exact reals here and Math.round is Common.Round. */
module CostService {

  import opened Common
  import opened RailTypes
  import opened Geometry

  /** The errors the service throws. */
  datatype CostError =
    | PlatformCountOutOfRange
    | PlatformsOutsideClass(stationType: StationType, min: int, max: int)
    | TrackTooShort

  /** The per-class platform ranges of validatePlatformCount. */
  function ClassMin(s: StationType): int
  {
    match s
    case Local => 1
    case Regional => 5
    case Intercity => 11
    case Hub => 21
  }

  function ClassMax(s: StationType): int
  {
    match s
    case Local => 4
    case Regional => 10
    case Intercity => 20
    case Hub => 30
  }

  /** validatePlatformCount: None when the count is accepted, otherwise the
      error it throws. The global range is checked first. */
  function ValidatePlatformCount(platforms: int, stationType: StationType): (r: Option<CostError>)
    ensures r.None? <==> 1 <= platforms <= 30 && ClassMin(stationType) <= platforms <= ClassMax(stationType)
    ensures (platforms < 1 || platforms > 30) ==> r == Some(PlatformCountOutOfRange)
  {
    if platforms < 1 || platforms > 30 then Some(PlatformCountOutOfRange)
    else if platforms < ClassMin(stationType) || platforms > ClassMax(stationType) then
      Some(PlatformsOutsideClass(stationType, ClassMin(stationType), ClassMax(stationType)))
    else None
  }

  /** The class a platform count in [1,30] belongs to, read off the bands. */
  function ClassFor(platforms: int): StationType
  {
    if platforms <= 4 then Local
    else if platforms <= 10 then Regional
    else if platforms <= 20 then Intercity
    else Hub
  }

  /** The class ranges partition [1,30]: a count is accepted for exactly one
      class, the one its band names. */
  lemma PlatformCountAcceptedForExactlyOneClass(platforms: int, stationType: StationType)
    ensures ValidatePlatformCount(platforms, stationType).None? <==>
              1 <= platforms <= 30 && stationType == ClassFor(platforms)
  {
  }

  lemma PlatformCountExamples()
    ensures ValidatePlatformCount(4, Local).None?
    ensures ValidatePlatformCount(5, Local) == Some(PlatformsOutsideClass(Local, 1, 4))
    ensures ValidatePlatformCount(31, Hub) == Some(PlatformCountOutOfRange)
    ensures ValidatePlatformCount(0, Local) == Some(PlatformCountOutOfRange)
  {
  }

  datatype StationCostRequest = StationCostRequest(
    platforms: int,
    stationType: StationType,
    facilities: Facilities,
    terrainModifier: Option<real>)

  datatype StationCostBreakdown = StationCostBreakdown(
    baseCost: real,
    platformCost: int,
    facilitiesCost: int,
    terrainCost: int,
    totalCost: int)

  /** The optional terrain modifier defaults to 1.0. */
  function TerrainOrDefault(t: Option<real>): real
  {
    if t.Some? then t.value else 1.0
  }

  /** 1 plus the surcharge of each facility present. */
  function FacilitiesMultiplier(f: Facilities): (m: real)
    ensures 1.0 <= m <= 1.0 + ParkingSurcharge + ShopsSurcharge + BikeRentalSurcharge
    ensures m == 1.0 <==> f == NoFacilities
  {
    var m0 := 1.0;
    var m1 := if f.parking then m0 + ParkingSurcharge else m0;
    var m2 := if f.shops then m1 + ShopsSurcharge else m1;
    if f.bikeRental then m2 + BikeRentalSurcharge else m2
  }

  /** base × (1 + p/10) × facilities × terrain, before rounding. */
  function ExactStationCost(req: StationCostRequest): real
  {
    StationBaseCost(req.stationType) * (1.0 + req.platforms as real / 10.0)
      * FacilitiesMultiplier(req.facilities) * TerrainOrDefault(req.terrainModifier)
  }

  /** The base scaled by 1 + platforms/10, before rounding. */
  function PlatformCost(req: StationCostRequest): real
  {
    StationBaseCost(req.stationType) * (1.0 + req.platforms as real / 10.0)
  }

  /** The facilities' share of the platform cost, before rounding. */
  function FacilitiesSurcharge(req: StationCostRequest): real
  {
    PlatformCost(req) * (FacilitiesMultiplier(req.facilities) - 1.0)
  }

  /** The terrain's share of the platform cost, before rounding. */
  function TerrainSurcharge(req: StationCostRequest): real
  {
    PlatformCost(req) * (TerrainOrDefault(req.terrainModifier) - 1.0)
  }

  /** calculateStationCost. */
  function StationCost(req: StationCostRequest): (r: Result<StationCostBreakdown, CostError>)
    ensures r.Err? <==> ValidatePlatformCount(req.platforms, req.stationType).Some?
    ensures r.Err? ==> r.error == ValidatePlatformCount(req.platforms, req.stationType).value
    ensures r.Ok? ==> r.value.baseCost == StationBaseCost(req.stationType)
    ensures r.Ok? ==> ExactStationCost(req) - 0.5 < r.value.totalCost as real <= ExactStationCost(req) + 0.5
  {
    var check := ValidatePlatformCount(req.platforms, req.stationType);
    if check.Some? then Err(check.value)
    else
      var totalCost := Round(ExactStationCost(req));
      Ok(StationCostBreakdown(StationBaseCost(req.stationType), Round(PlatformCost(req)),
                              Round(FacilitiesSurcharge(req)), Round(TerrainSurcharge(req)), totalCost))
  }

  /** The breakdown's other parts: the rounded platform cost and the
      rounded facilities and terrain surcharges on it. */
  lemma StationCostParts(req: StationCostRequest)
    requires StationCost(req).Ok?
    ensures StationCost(req).value.platformCost == Round(PlatformCost(req))
    ensures StationCost(req).value.facilitiesCost == Round(FacilitiesSurcharge(req))
    ensures StationCost(req).value.terrainCost == Round(TerrainSurcharge(req))
  {
  }

  /** No facilities and no terrain modifier add nothing to the price. */
  lemma StationSurchargesVanish(req: StationCostRequest)
    ensures req.facilities == NoFacilities ==> Round(FacilitiesSurcharge(req)) == 0
    ensures req.terrainModifier.None? ==> Round(TerrainSurcharge(req)) == 0
  {
    if req.facilities == NoFacilities {
      assert FacilitiesSurcharge(req) == PlatformCost(req) * 0.0;
    }
    if req.terrainModifier.None? {
      assert TerrainSurcharge(req) == PlatformCost(req) * 0.0;
    }
  }

  /** A regional station with 5 platforms, no facilities and terrain 1 costs 30,000,000. */
  lemma RegionalStationExample()
    ensures StationCost(StationCostRequest(5, Regional, NoFacilities, None))
         == Ok(StationCostBreakdown(20000000.0, 30000000, 0, 0, 30000000))
  {
    RoundOfInt(30000000);
    RoundOfInt(0);
  }

  /** The total grows with the terrain modifier, everything else fixed. */
  lemma {:induction false} StationCostMonotoneInTerrain(req: StationCostRequest, t1: real, t2: real)
    requires req.platforms >= 0
    requires t1 <= t2
    ensures var r1 := StationCost(req.(terrainModifier := Some(t1)));
            var r2 := StationCost(req.(terrainModifier := Some(t2)));
            r1.Ok? == r2.Ok? && (r1.Ok? ==> r1.value.totalCost <= r2.value.totalCost)
  {
    var k := StationBaseCost(req.stationType) * (1.0 + req.platforms as real / 10.0) * FacilitiesMultiplier(req.facilities);
    assert k >= 0.0;
    assert k * t1 <= k * t2;
    assert ExactStationCost(req.(terrainModifier := Some(t1))) == k * t1;
    assert ExactStationCost(req.(terrainModifier := Some(t2))) == k * t2;
    RoundMonotone(k * t1, k * t2);
  }

  datatype TrackCostRequest = TrackCostRequest(
    trackType: TrackType,
    waypoints: seq<Coordinates>,
    isDoubleTrack: bool,
    terrainModifier: Option<real>)

  datatype TrackCostBreakdown = TrackCostBreakdown(
    lengthKm: real,
    costPerKm: real,
    baseCost: int,
    doubleTrackCost: int,
    terrainCost: int,
    totalCost: int,
    maintenanceCostPerYear: int)

  const MinimumTrackKm: real := 0.5

  function DoubleTrackMultiplier(isDoubleTrack: bool): real
  {
    if isDoubleTrack then 1.5 else 1.0
  }

  /** Math.round(x * 100) / 100. */
  function RoundTo2Decimals(x: real): (r: real)
    ensures x - 0.005 < r <= x + 0.005
    ensures WholeCents(r)
  {
    Round(x * 100.0) as real / 100.0
  }

  /** A whole number of hundredths. */
  predicate WholeCents(r: real)
  {
    (r * 100.0).Floor as real == r * 100.0
  }

  /** The two properties of RoundTo2Decimals pin it down: the only whole-cent
      value within the half-cent window of x is the rounded one. */
  lemma WholeCentsInWindowIsRounded(x: real, c: real)
    requires WholeCents(c) && x - 0.005 < c <= x + 0.005
    ensures c == RoundTo2Decimals(x)
  {
    var k := (c * 100.0).Floor;
    var m := Round(x * 100.0);
    assert x * 100.0 - 0.5 < k as real <= x * 100.0 + 0.5;
    assert x * 100.0 - 0.5 < m as real <= x * 100.0 + 0.5;
    assert k == m;
  }

  /** Single-track cost: cost per km times the route length, before rounding. */
  function TrackBaseCost(dist: Distance, req: TrackCostRequest): real
  {
    TrackCostPerKm(req.trackType) * PathLength(dist, req.waypoints)
  }

  /** What the second track adds to the base, before rounding. */
  function DoubleTrackSurcharge(dist: Distance, req: TrackCostRequest): real
  {
    TrackBaseCost(dist, req) * (DoubleTrackMultiplier(req.isDoubleTrack) - 1.0)
  }

  /** The terrain's share of the base, before rounding. */
  function TrackTerrainSurcharge(dist: Distance, req: TrackCostRequest): real
  {
    TrackBaseCost(dist, req) * (TerrainOrDefault(req.terrainModifier) - 1.0)
  }

  /** calculateTrackCost. */
  function TrackCost(dist: Distance, req: TrackCostRequest): (r: Result<TrackCostBreakdown, CostError>)
    ensures r.Err? <==> PathLength(dist, req.waypoints) < MinimumTrackKm
    ensures r.Err? ==> r.error == TrackTooShort
    ensures r.Ok? ==> r.value.costPerKm == TrackCostPerKm(req.trackType)
    ensures r.Ok? ==> var exact := TrackCostPerKm(req.trackType) * PathLength(dist, req.waypoints)
                                 * DoubleTrackMultiplier(req.isDoubleTrack) * TerrainOrDefault(req.terrainModifier);
                      exact - 0.5 < r.value.totalCost as real <= exact + 0.5
    ensures r.Ok? ==> var exact := MaintenancePerKm(req.trackType) * PathLength(dist, req.waypoints)
                                 * DoubleTrackMultiplier(req.isDoubleTrack);
                      exact - 0.5 < r.value.maintenanceCostPerYear as real <= exact + 0.5
    ensures r.Ok? ==> r.value.lengthKm == RoundTo2Decimals(PathLength(dist, req.waypoints))
  {
    var lengthKm := PathLength(dist, req.waypoints);
    if lengthKm < MinimumTrackKm then Err(TrackTooShort)
    else
      var costPerKm := TrackCostPerKm(req.trackType);
      var baseCost := TrackBaseCost(dist, req);
      var doubleTrackMultiplier := DoubleTrackMultiplier(req.isDoubleTrack);
      var terrainModifier := TerrainOrDefault(req.terrainModifier);
      var totalCost := Round(baseCost * doubleTrackMultiplier * terrainModifier);
      var maintenanceCostPerYear := Round(MaintenancePerKm(req.trackType) * lengthKm * doubleTrackMultiplier);
      Ok(TrackCostBreakdown(RoundTo2Decimals(lengthKm), costPerKm, Round(baseCost), Round(DoubleTrackSurcharge(dist, req)),
                            Round(TrackTerrainSurcharge(dist, req)), totalCost, maintenanceCostPerYear))
  }

  /** The breakdown's other parts: the rounded single-track cost and the
      rounded double-track and terrain surcharges on it. */
  lemma TrackCostParts(dist: Distance, req: TrackCostRequest)
    requires TrackCost(dist, req).Ok?
    ensures TrackCost(dist, req).value.baseCost == Round(TrackBaseCost(dist, req))
    ensures TrackCost(dist, req).value.doubleTrackCost == Round(DoubleTrackSurcharge(dist, req))
    ensures TrackCost(dist, req).value.terrainCost == Round(TrackTerrainSurcharge(dist, req))
  {
  }

  /** Single track and a missing terrain modifier add nothing to the price. */
  lemma TrackSurchargesVanish(dist: Distance, req: TrackCostRequest)
    ensures !req.isDoubleTrack ==> Round(DoubleTrackSurcharge(dist, req)) == 0
    ensures req.terrainModifier.None? ==> Round(TrackTerrainSurcharge(dist, req)) == 0
  {
    if !req.isDoubleTrack {
      assert DoubleTrackSurcharge(dist, req) == TrackBaseCost(dist, req) * 0.0;
    }
    if req.terrainModifier.None? {
      assert TrackTerrainSurcharge(dist, req) == TrackBaseCost(dist, req) * 0.0;
    }
  }

  /** Maintenance ignores the terrain modifier. */
  lemma MaintenanceIgnoresTerrain(dist: Distance, req: TrackCostRequest, t: Option<real>)
    ensures var r1 := TrackCost(dist, req);
            var r2 := TrackCost(dist, req.(terrainModifier := t));
            r1.Ok? == r2.Ok? && (r1.Ok? ==> r1.value.maintenanceCostPerYear == r2.value.maintenanceCostPerYear)
  {
  }

  /** A 10 km non-electrified single track on flat terrain costs 20,000,000
      and 150,000 a year to maintain; its speed limit is 120. */
  lemma NonElectrifiedTrackExample(dist: Distance, waypoints: seq<Coordinates>)
    requires PathLength(dist, waypoints) == 10.0
    ensures var r := TrackCost(dist, TrackCostRequest(NonElectrified, waypoints, false, None));
            r.Ok? && r.value.totalCost == 20000000 && r.value.maintenanceCostPerYear == 150000
            && r.value.lengthKm == 10.0
    ensures TrackSpeedLimit(NonElectrified) == 120
  {
    RoundOfInt(20000000);
    RoundOfInt(150000);
    RoundOfInt(1000);
  }

  /** A route of 0.3 km is refused. */
  lemma ShortTrackExample(dist: Distance, req: TrackCostRequest)
    requires PathLength(dist, req.waypoints) == 0.3
    ensures TrackCost(dist, req) == Err(TrackTooShort)
  {
  }

  /** calculateCrossoverCost. */
  function CrossoverCost(crossoverType: CrossoverType, terrainModifier: Option<real>): (cost: int)
    ensures var exact := CrossoverBaseCost(crossoverType) * TerrainOrDefault(terrainModifier);
            exact - 0.5 < cost as real <= exact + 0.5
  {
    Round(CrossoverBaseCost(crossoverType) * TerrainOrDefault(terrainModifier))
  }

  lemma JunctionOnMountainExample()
    ensures CrossoverCost(Junction, Some(1.8)) == 3600000
  {
    RoundOfInt(3600000);
  }

  function StationCostOf(s: Station): real { s.cost }
  function TrackCostOf(t: Track): real { t.cost }
  function CrossoverCostOf(c: Crossover): real { c.cost }
  function TrackMaintenanceOf(t: Track): real { t.maintenanceCost }

  /** calculateNetworkValue: the three reduce folds over the cost fields. */
  function NetworkValue(stations: seq<Station>, tracks: seq<Track>, crossovers: seq<Crossover>): (v: real)
    ensures (forall i :: 0 <= i < |stations| ==> stations[i].cost >= 0.0)
            && (forall i :: 0 <= i < |tracks| ==> tracks[i].cost >= 0.0)
            && (forall i :: 0 <= i < |crossovers| ==> crossovers[i].cost >= 0.0)
            ==> v >= 0.0
  {
    SumNonNegativeWhen(stations, StationCostOf);
    SumNonNegativeWhen(tracks, TrackCostOf);
    SumNonNegativeWhen(crossovers, CrossoverCostOf);
    Sum(stations, StationCostOf) + Sum(tracks, TrackCostOf) + Sum(crossovers, CrossoverCostOf)
  }

  /** calculateAnnualMaintenance. */
  function AnnualMaintenance(tracks: seq<Track>): (m: real)
    ensures (forall i :: 0 <= i < |tracks| ==> tracks[i].maintenanceCost >= 0.0) ==> m >= 0.0
  {
    SumNonNegativeWhen(tracks, TrackMaintenanceOf);
    Sum(tracks, TrackMaintenanceOf)
  }

  lemma EmptyNetworkHasNoValue()
    ensures NetworkValue([], [], []) == 0.0
    ensures AnnualMaintenance([]) == 0.0
  {
  }

  /** Appending an entity adds exactly its cost to the network value. */
  lemma NetworkValueAppendStation(stations: seq<Station>, tracks: seq<Track>, crossovers: seq<Crossover>, s: Station)
    ensures NetworkValue(stations + [s], tracks, crossovers) == NetworkValue(stations, tracks, crossovers) + s.cost
  {
    SumAppend(stations, s, StationCostOf);
  }

  lemma NetworkValueAppendTrack(stations: seq<Station>, tracks: seq<Track>, crossovers: seq<Crossover>, t: Track)
    ensures NetworkValue(stations, tracks + [t], crossovers) == NetworkValue(stations, tracks, crossovers) + t.cost
    ensures AnnualMaintenance(tracks + [t]) == AnnualMaintenance(tracks) + t.maintenanceCost
  {
    SumAppend(tracks, t, TrackCostOf);
    SumAppend(tracks, t, TrackMaintenanceOf);
  }

  lemma NetworkValueAppendCrossover(stations: seq<Station>, tracks: seq<Track>, crossovers: seq<Crossover>, c: Crossover)
    ensures NetworkValue(stations, tracks, crossovers + [c]) == NetworkValue(stations, tracks, crossovers) + c.cost
  {
    SumAppend(crossovers, c, CrossoverCostOf);
  }

  /** Value and maintenance of a network are sums over its parts. */
  lemma NetworkValueSplits(s1: seq<Station>, s2: seq<Station>, t1: seq<Track>, t2: seq<Track>,
                           c1: seq<Crossover>, c2: seq<Crossover>)
    ensures NetworkValue(s1 + s2, t1 + t2, c1 + c2) == NetworkValue(s1, t1, c1) + NetworkValue(s2, t2, c2)
    ensures AnnualMaintenance(t1 + t2) == AnnualMaintenance(t1) + AnnualMaintenance(t2)
  {
    SumConcat(s1, s2, StationCostOf);
    SumConcat(t1, t2, TrackCostOf);
    SumConcat(c1, c2, CrossoverCostOf);
    SumConcat(t1, t2, TrackMaintenanceOf);
  }

  datatype UrbanCenter = UrbanCenter(lat: real, lon: real, name: string)

  /** The five hard-coded city centres of estimateTerrainModifier. */
  function UrbanCenters(): (cs: seq<UrbanCenter>)
    ensures |cs| == 5
  {
    [ UrbanCenter(52.37, 4.90, "Amsterdam"),
      UrbanCenter(51.92, 4.47, "Rotterdam"),
      UrbanCenter(48.86, 2.35, "Paris"),
      UrbanCenter(50.85, 4.35, "Brussels"),
      UrbanCenter(51.51, -0.13, "London") ]
  }

  function LatOf(p: Coordinates): real { p.lat }
  function LonOf(p: Coordinates): real { p.lon }

  /** The rough Alpine box, open on every side. */
  predicate InAlps(lat: real, lon: real)
  {
    lat > 45.0 && lat < 48.0 && lon > 6.0 && lon < 11.0
  }

  /** sqrt(dLat² + dLon²) < 0.2, stated without the square root. */
  predicate NearCity(lat: real, lon: real, c: UrbanCenter)
  {
    (lat - c.lat) * (lat - c.lat) + (lon - c.lon) * (lon - c.lon) < 0.04
  }

  /** The heuristic on the mean waypoint. An empty list makes the mean NaN in
      JavaScript; every comparison with NaN is false, so the answer is 1.0. */
  function TerrainModifierOf(waypoints: seq<Coordinates>): (m: real)
    ensures m == 1.8 || m == 1.5 || m == 1.0
    ensures |waypoints| == 0 ==> m == 1.0
  {
    if |waypoints| == 0 then 1.0
    else
      var avgLat := Sum(waypoints, LatOf) / |waypoints| as real;
      var avgLon := Sum(waypoints, LonOf) / |waypoints| as real;
      if InAlps(avgLat, avgLon) then 1.8
      else if exists i :: 0 <= i < |UrbanCenters()| && NearCity(avgLat, avgLon, UrbanCenters()[i]) then 1.5
      else 1.0
  }

  /** estimateTerrainModifier: the Alpine test, then the loop over city
      centres with an early return. */
  method EstimateTerrainModifier(waypoints: seq<Coordinates>) returns (m: real)
    ensures m == TerrainModifierOf(waypoints)
    ensures m == 1.8 || m == 1.5 || m == 1.0
  {
    if |waypoints| == 0 {
      return 1.0;
    }
    var avgLat := Sum(waypoints, LatOf) / |waypoints| as real;
    var avgLon := Sum(waypoints, LonOf) / |waypoints| as real;
    if avgLat > 45.0 && avgLat < 48.0 && avgLon > 6.0 && avgLon < 11.0 {
      return 1.8;
    }
    var urbanCenters := UrbanCenters();
    for i := 0 to |urbanCenters|
      invariant forall j :: 0 <= j < i ==> !NearCity(avgLat, avgLon, urbanCenters[j])
    {
      var city := urbanCenters[i];
      var distSquared := (avgLat - city.lat) * (avgLat - city.lat) + (avgLon - city.lon) * (avgLon - city.lon);
      assert distSquared < 0.04 <==> NearCity(avgLat, avgLon, city);
      if distSquared < 0.04 {
        return 1.5;
      }
    }
    assert !InAlps(avgLat, avgLon);
    assert !exists i :: 0 <= i < |urbanCenters| && NearCity(avgLat, avgLon, urbanCenters[i]);
    return 1.0;
  }

  /** The Alpine test wins over the city test, and the answer is one of the
      three bands. */
  lemma TerrainModifierBands(waypoints: seq<Coordinates>)
    ensures var m := TerrainModifierOf(waypoints); m == 1.8 || m == 1.5 || m == 1.0
    ensures (|waypoints| > 0 && InAlps(Sum(waypoints, LatOf) / |waypoints| as real, Sum(waypoints, LonOf) / |waypoints| as real))
            ==> TerrainModifierOf(waypoints) == 1.8
  {
  }

  /** A single waypoint in the middle of Amsterdam is urban; one in the
      Alpine box is mountainous. */
  lemma TerrainModifierExamples()
    ensures TerrainModifierOf([Coordinates(52.37, 4.90)]) == 1.5
    ensures TerrainModifierOf([Coordinates(46.5, 8.0)]) == 1.8
    ensures TerrainModifierOf([Coordinates(40.0, 0.0)]) == 1.0
  {
    var w := [Coordinates(52.37, 4.90)];
    assert Sum(w, LatOf) == 52.37;
    assert Sum(w, LonOf) == 4.90;
    assert NearCity(52.37, 4.90, UrbanCenters()[0]);
    var v := [Coordinates(46.5, 8.0)];
    assert Sum(v, LatOf) == 46.5;
    assert Sum(v, LonOf) == 8.0;
    var u := [Coordinates(40.0, 0.0)];
    assert Sum(u, LatOf) == 40.0;
    assert Sum(u, LonOf) == 0.0;
  }

  /** Revenue tables of estimateAnnualRevenue. */
  function StationBaseRevenue(s: StationType): real
  {
    match s
    case Local => 500000.0
    case Regional => 2000000.0
    case Intercity => 5000000.0
    case Hub => 15000000.0
  }

  function TrackRevenuePerKm(t: TrackType): real
  {
    match t
    case Hst => 100000.0
    case Ic => 50000.0
    case NonElectrified => 20000.0
  }

  function StationRevenueOf(s: Station): real
  {
    StationBaseRevenue(s.stationType) * (1.0 + s.platforms as real / 10.0)
  }

  function TrackRevenueOf(t: Track): real
  {
    TrackRevenuePerKm(t.trackType) * t.lengthKm
  }

  /** Math.pow(n, 1.2), which this model does not compute. */
  type Power = nat -> real

  /** The network bonus: pow(n, 1.2) / 10 for more than one station, else 0. */
  function NetworkBonus(pow: Power, stationCount: nat): real
  {
    if stationCount > 1 then pow(stationCount) / 10.0 else 0.0
  }

  function AnnualRevenue(pow: Power, stations: seq<Station>, tracks: seq<Track>): (r: int)
    ensures |stations| <= 1 ==> r == Round(Sum(stations, StationRevenueOf) + Sum(tracks, TrackRevenueOf))
  {
    Round((Sum(stations, StationRevenueOf) + Sum(tracks, TrackRevenueOf)) * (1.0 + NetworkBonus(pow, |stations|)))
  }

  /** estimateAnnualRevenue: two accumulating loops, then the bonus. */
  method EstimateAnnualRevenue(pow: Power, stations: seq<Station>, tracks: seq<Track>) returns (revenue: int)
    ensures revenue == AnnualRevenue(pow, stations, tracks)
  {
    var stationRevenue := AccumulateStationRevenue(stations);
    var trackRevenue := AccumulateTrackRevenue(tracks);
    var networkBonus := if |stations| > 1 then pow(|stations|) / 10.0 else 0.0;
    revenue := Round((stationRevenue + trackRevenue) * (1.0 + networkBonus));
  }

  /** The first loop of estimateAnnualRevenue: `stationRevenue +=` per station. */
  method AccumulateStationRevenue(stations: seq<Station>) returns (stationRevenue: real)
    ensures stationRevenue == Sum(stations, StationRevenueOf)
  {
    stationRevenue := 0.0;
    for i := 0 to |stations|
      invariant stationRevenue == Sum(stations[..i], StationRevenueOf)
    {
      var baseRevenue := StationBaseRevenue(stations[i].stationType);
      SumAppend(stations[..i], stations[i], StationRevenueOf);
      stationRevenue := stationRevenue + baseRevenue * (1.0 + stations[i].platforms as real / 10.0);
      assert stations[..i + 1] == stations[..i] + [stations[i]];
    }
    assert stations[..|stations|] == stations;
  }

  /** The second loop: `trackRevenue +=` per track, rate times length. */
  method AccumulateTrackRevenue(tracks: seq<Track>) returns (trackRevenue: real)
    ensures trackRevenue == Sum(tracks, TrackRevenueOf)
  {
    trackRevenue := 0.0;
    for i := 0 to |tracks|
      invariant trackRevenue == Sum(tracks[..i], TrackRevenueOf)
    {
      var revenuePerKm := TrackRevenuePerKm(tracks[i].trackType);
      SumAppend(tracks[..i], tracks[i], TrackRevenueOf);
      trackRevenue := trackRevenue + revenuePerKm * tracks[i].lengthKm;
      assert tracks[..i + 1] == tracks[..i] + [tracks[i]];
    }
    assert tracks[..|tracks|] == tracks;
  }

  /** With non-negative platform counts, lengths and bonus, revenue is never negative. */
  lemma AnnualRevenueNonNegative(pow: Power, stations: seq<Station>, tracks: seq<Track>)
    requires forall i :: 0 <= i < |stations| ==> stations[i].platforms >= 0
    requires forall i :: 0 <= i < |tracks| ==> tracks[i].lengthKm >= 0.0
    requires pow(|stations|) >= 0.0
    ensures AnnualRevenue(pow, stations, tracks) >= 0
  {
    SumNonNegative(stations, StationRevenueOf);
    SumNonNegative(tracks, TrackRevenueOf);
    var base := Sum(stations, StationRevenueOf) + Sum(tracks, TrackRevenueOf);
    assert base * (1.0 + NetworkBonus(pow, |stations|)) >= 0.0;
    RoundMonotone(0.0, base * (1.0 + NetworkBonus(pow, |stations|)));
    RoundOfInt(0);
  }

  /** A network of at most one station earns no bonus, whatever pow is. */
  lemma NoBonusBelowTwoStations(pow: Power, stations: seq<Station>, tracks: seq<Track>)
    requires |stations| <= 1
    ensures AnnualRevenue(pow, stations, tracks) == Round(Sum(stations, StationRevenueOf) + Sum(tracks, TrackRevenueOf))
  {
  }
}
