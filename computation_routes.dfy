/** The preview handlers of backend/src/routes/computation.routes.ts. Each
    handler maps a request body to a JSON reply or a 400; nothing survives
    between requests. A field that is absent, or not of the expected shape
    (a non-array where an array is expected), is None. */
module ComputationRoutes {

  import opened Common
  import opened RailTypes
  import opened Geometry
  import opened CostService

  /** Why a preview answers 400: a shape check failed, or the cost service threw. */
  datatype Rejection = MissingFields | ServiceError(error: CostError)

  /** JavaScript truthiness of a number that is present: only 0 is falsy here. */
  predicate Truthy(x: real)
  {
    x != 0.0
  }

  datatype DistanceReply = DistanceReply(distanceKm: real, distanceMiles: real)

  const KmToMiles: real := 0.621371

  /** POST /distance as written: every coordinate must be truthy. */
  function DistancePreview(dist: Distance, from: Option<Coordinates>, to: Option<Coordinates>): (r: Result<DistanceReply, Rejection>)
    ensures r.Ok? <==> from.Some? && to.Some? && from.value.lat != 0.0 && from.value.lon != 0.0
                       && to.value.lat != 0.0 && to.value.lon != 0.0
    ensures r.Err? ==> r.error == MissingFields
    ensures r.Ok? ==> var d := dist(from.value, to.value);
                      r.value.distanceKm == RoundTo2Decimals(d)
                      && r.value.distanceMiles == RoundTo2Decimals(d * KmToMiles)
  {
    if from.None? || to.None? || !Truthy(from.value.lat) || !Truthy(from.value.lon)
       || !Truthy(to.value.lat) || !Truthy(to.value.lon) then
      Err(MissingFields)
    else
      var distanceKm := dist(from.value, to.value);
      var distanceMiles := distanceKm * KmToMiles;
      Ok(DistanceReply(RoundTo2Decimals(distanceKm), RoundTo2Decimals(distanceMiles)))
  }

  /** A point on the Greenwich meridian (longitude 0) is refused as if it
      were missing, although it is a valid coordinate. */
  lemma GreenwichIsRefused(dist: Distance)
    ensures DistancePreview(dist, Some(Coordinates(51.48, 0.0)), Some(Coordinates(48.86, 2.35))) == Err(MissingFields)
    ensures DistancePreview(dist, Some(Coordinates(0.0, 9.0)), Some(Coordinates(48.86, 2.35))) == Err(MissingFields)
  {
  }

  /** POST /distance as evidently intended: only an absent point is refused. */
  function DistancePreviewCorrected(dist: Distance, from: Option<Coordinates>, to: Option<Coordinates>): (r: Result<DistanceReply, Rejection>)
    ensures r.Ok? <==> from.Some? && to.Some?
    ensures r.Err? ==> r.error == MissingFields
    ensures r.Ok? ==> var d := dist(from.value, to.value);
                      r.value.distanceKm == RoundTo2Decimals(d)
                      && r.value.distanceMiles == RoundTo2Decimals(d * KmToMiles)
  {
    if from.None? || to.None? then Err(MissingFields)
    else
      var distanceKm := dist(from.value, to.value);
      Ok(DistanceReply(RoundTo2Decimals(distanceKm), RoundTo2Decimals(distanceKm * KmToMiles)))
  }

  /** The corrected handler agrees with the written one wherever the written
      one answers, and also answers on the two axes. */
  lemma CorrectedDistanceExtendsWritten(dist: Distance, from: Option<Coordinates>, to: Option<Coordinates>)
    ensures DistancePreview(dist, from, to).Ok? ==> DistancePreviewCorrected(dist, from, to) == DistancePreview(dist, from, to)
    ensures DistancePreviewCorrected(dist, Some(Coordinates(51.48, 0.0)), Some(Coordinates(48.86, 2.35))).Ok?
  {
  }

  datatype RouteLengthReply = RouteLengthReply(lengthKm: real, waypoints: int)

  /** POST /route-length: at least two waypoints. */
  function RouteLengthPreview(dist: Distance, waypoints: Option<seq<Coordinates>>): (r: Result<RouteLengthReply, Rejection>)
    ensures r.Ok? <==> waypoints.Some? && |waypoints.value| >= 2
    ensures r.Err? ==> r.error == MissingFields
    ensures r.Ok? ==> r.value.waypoints == |waypoints.value|
    ensures r.Ok? ==> r.value.lengthKm == RoundTo2Decimals(PathLength(dist, waypoints.value))
  {
    if waypoints.None? || |waypoints.value| < 2 then Err(MissingFields)
    else
      var lengthKm := PathLength(dist, waypoints.value);
      Ok(RouteLengthReply(RoundTo2Decimals(lengthKm), |waypoints.value|))
  }

  /** Body of POST /station-cost. */
  datatype StationPreviewBody = StationPreviewBody(
    platforms: Option<int>,
    stationType: Option<StationType>,
    facilities: Facilities,
    terrainModifier: Option<real>)

  /** POST /station-cost: the shape check, then the cost service, whose
      errors also answer 400. */
  function StationCostPreview(body: StationPreviewBody): (r: Result<StationCostBreakdown, Rejection>)
    ensures (body.platforms.None? || body.platforms.value == 0 || body.stationType.None?) <==> r == Err(MissingFields)
    ensures r.Err? && r.error.ServiceError? ==>
              ValidatePlatformCount(body.platforms.value, body.stationType.value) == Some(r.error.error)
    ensures r.Ok? ==> StationCost(StationCostRequest(body.platforms.value, body.stationType.value,
                                                     body.facilities, body.terrainModifier)) == Ok(r.value)
  {
    if body.platforms.None? || !Truthy(body.platforms.value as real) || body.stationType.None? then
      Err(MissingFields)
    else
      var result := StationCost(StationCostRequest(body.platforms.value, body.stationType.value,
                                                   body.facilities, body.terrainModifier));
      if result.Err? then Err(ServiceError(result.error)) else Ok(result.value)
  }

  /** Zero platforms never reaches the cost service: it fails the shape check,
      while a negative count is refused by the service. */
  lemma ZeroPlatformsFailShapeCheck(t: StationType, f: Facilities, m: Option<real>)
    ensures StationCostPreview(StationPreviewBody(Some(0), Some(t), f, m)) == Err(MissingFields)
    ensures StationCostPreview(StationPreviewBody(Some(-1), Some(t), f, m)) == Err(ServiceError(PlatformCountOutOfRange))
  {
  }

  /** A well-shaped body is answered exactly when the platform count suits the class. */
  lemma StationPreviewAcceptsValidCounts(body: StationPreviewBody)
    requires body.platforms.Some? && body.stationType.Some?
    ensures StationCostPreview(body).Ok? <==>
              1 <= body.platforms.value <= 30 && body.stationType.value == ClassFor(body.platforms.value)
  {
    PlatformCountAcceptedForExactlyOneClass(body.platforms.value, body.stationType.value);
  }

  /** Body of POST /track-cost. */
  datatype TrackPreviewBody = TrackPreviewBody(
    trackType: Option<TrackType>,
    waypoints: Option<seq<Coordinates>>,
    isDoubleTrack: bool,
    terrainModifier: Option<real>)

  /** POST /track-cost. */
  function TrackCostPreview(dist: Distance, body: TrackPreviewBody): (r: Result<TrackCostBreakdown, Rejection>)
    ensures (body.trackType.None? || body.waypoints.None?) <==> r == Err(MissingFields)
    ensures r.Err? && r.error.ServiceError? ==>
              r.error.error == TrackTooShort && PathLength(dist, body.waypoints.value) < MinimumTrackKm
    ensures r.Ok? ==> TrackCost(dist, TrackCostRequest(body.trackType.value, body.waypoints.value,
                                                       body.isDoubleTrack, body.terrainModifier)) == Ok(r.value)
  {
    if body.trackType.None? || body.waypoints.None? then Err(MissingFields)
    else
      var result := TrackCost(dist, TrackCostRequest(body.trackType.value, body.waypoints.value,
                                                     body.isDoubleTrack, body.terrainModifier));
      if result.Err? then Err(ServiceError(result.error)) else Ok(result.value)
  }

  /** An empty waypoint list passes the shape check (it is an array) and is
      refused by the service as too short. */
  lemma EmptyWaypointsAreTooShort(dist: Distance, t: TrackType, double: bool, m: Option<real>)
    ensures TrackCostPreview(dist, TrackPreviewBody(Some(t), Some([]), double, m)) == Err(ServiceError(TrackTooShort))
  {
  }

  /** The wire names of the crossover types. */
  function CrossoverTypeName(c: CrossoverType): string
  {
    match c
    case Simple => "simple"
    case Junction => "junction"
    case FlyingJunction => "flying_junction"
  }

  /** The membership test against ['simple', 'junction', 'flying_junction']. */
  function ParseCrossoverType(s: string): (r: Option<CrossoverType>)
    ensures r.Some? ==> CrossoverTypeName(r.value) == s
  {
    if s == "simple" then Some(Simple)
    else if s == "junction" then Some(Junction)
    else if s == "flying_junction" then Some(FlyingJunction)
    else None
  }

  /** Parsing and naming are inverse: every type's name parses back to it,
      and only those three names parse. */
  lemma CrossoverTypeNamesRoundTrip(c: CrossoverType, s: string)
    ensures ParseCrossoverType(CrossoverTypeName(c)) == Some(c)
    ensures ParseCrossoverType(s).Some? <==> s in {"simple", "junction", "flying_junction"}
  {
  }

  datatype CrossoverReply = CrossoverReply(crossoverType: string, cost: int, terrainModifier: real)

  /** POST /crossover-cost: the type must be one of the three names; the
      terrain modifier defaults to 1.0; type and modifier are echoed. */
  function CrossoverCostPreview(crossoverType: Option<string>, terrainModifier: Option<real>): (r: Result<CrossoverReply, Rejection>)
    ensures r.Ok? <==> crossoverType.Some? && ParseCrossoverType(crossoverType.value).Some?
    ensures r.Err? ==> r.error == MissingFields
    ensures r.Ok? ==> r.value.crossoverType == crossoverType.value
                      && r.value.terrainModifier == TerrainOrDefault(terrainModifier)
                      && r.value.cost == CrossoverCost(ParseCrossoverType(crossoverType.value).value, terrainModifier)
  {
    var terrain := TerrainOrDefault(terrainModifier);
    if crossoverType.None? || crossoverType.value == "" then Err(MissingFields)
    else
      var parsed := ParseCrossoverType(crossoverType.value);
      if parsed.None? then Err(MissingFields)
      else Ok(CrossoverReply(crossoverType.value, CrossoverCost(parsed.value, Some(terrain)), terrain))
  }

  lemma CrossoverPreviewExamples()
    ensures CrossoverCostPreview(Some("junction"), Some(1.8)) == Ok(CrossoverReply("junction", 3600000, 1.8))
    ensures CrossoverCostPreview(Some("simple"), None) == Ok(CrossoverReply("simple", 500000, 1.0))
    ensures CrossoverCostPreview(Some("bridge"), None) == Err(MissingFields)
  {
    JunctionOnMountainExample();
    RoundOfInt(500000);
  }

  /** The label the terrain-modifier handler attaches. */
  datatype TerrainBand = Flat | Hilly | Urban | Mountainous

  function BandRank(b: TerrainBand): nat
  {
    match b
    case Flat => 0
    case Hilly => 1
    case Urban => 2
    case Mountainous => 3
  }

  /** The if-chain over the modifier: > 1.6, > 1.3, > 1.1, else flat. */
  function BandOf(m: real): (b: TerrainBand)
    ensures b == Mountainous <==> m > 1.6
    ensures b == Urban <==> 1.3 < m <= 1.6
    ensures b == Hilly <==> 1.1 < m <= 1.3
    ensures b == Flat <==> m <= 1.1
  {
    if m > 1.6 then Mountainous
    else if m > 1.3 then Urban
    else if m > 1.1 then Hilly
    else Flat
  }

  /** A larger modifier never gets a lower band. */
  lemma BandOfMonotone(m1: real, m2: real)
    requires m1 <= m2
    ensures BandRank(BandOf(m1)) <= BandRank(BandOf(m2))
  {
  }

  datatype TerrainReply = TerrainReply(terrainModifier: real, terrain: TerrainBand)

  /** POST /terrain-modifier: a non-empty array of waypoints. */
  function TerrainPreview(waypoints: Option<seq<Coordinates>>): (r: Result<TerrainReply, Rejection>)
    ensures r.Ok? <==> waypoints.Some? && |waypoints.value| > 0
    ensures r.Err? ==> r.error == MissingFields
    ensures r.Ok? ==> r.value.terrainModifier == TerrainModifierOf(waypoints.value)
    ensures r.Ok? ==> r.value.terrain == BandOf(r.value.terrainModifier)
  {
    if waypoints.None? || |waypoints.value| == 0 then Err(MissingFields)
    else
      var terrainModifier := TerrainModifierOf(waypoints.value);
      Ok(TerrainReply(terrainModifier, BandOf(terrainModifier)))
  }

  /** The three modifiers the estimator yields map to mountainous, urban and
      flat, so the endpoint never answers 'hilly'. */
  lemma TerrainPreviewNeverHilly(waypoints: Option<seq<Coordinates>>)
    ensures BandOf(1.8) == Mountainous && BandOf(1.5) == Urban && BandOf(1.0) == Flat
    ensures var r := TerrainPreview(waypoints); r.Ok? ==> r.value.terrain != Hilly
  {
    if waypoints.Some? {
      TerrainModifierBands(waypoints.value);
    }
  }

  /** Body of POST /network-stats. */
  datatype StatsBody = StatsBody(
    stations: Option<seq<Station>>,
    tracks: Option<seq<Track>>,
    crossovers: Option<seq<Crossover>>)

  datatype NetworkStats = NetworkStats(
    totalValue: real,
    annualMaintenance: real,
    estimatedRevenue: int,
    netIncome: real,
    stationCount: int,
    trackCount: int,
    crossoverCount: int,
    totalTrackLength: real)

  function LengthOf(t: Track): real { t.lengthKm }

  function CrossoversOrEmpty(c: Option<seq<Crossover>>): seq<Crossover>
  {
    if c.Some? then c.value else []
  }

  /** POST /network-stats; `pow` is the Math.pow the revenue estimate uses. */
  function NetworkStatsPreview(pow: Power, body: StatsBody): (r: Result<NetworkStats, Rejection>)
    ensures r.Ok? <==> body.stations.Some? && body.tracks.Some?
    ensures r.Err? ==> r.error == MissingFields
    ensures r.Ok? ==> r.value.netIncome == r.value.estimatedRevenue as real - r.value.annualMaintenance
    ensures r.Ok? ==> r.value.stationCount == |body.stations.value| && r.value.trackCount == |body.tracks.value|
                      && r.value.crossoverCount == |CrossoversOrEmpty(body.crossovers)|
    ensures r.Ok? ==> r.value.totalValue == NetworkValue(body.stations.value, body.tracks.value, CrossoversOrEmpty(body.crossovers))
                      && r.value.annualMaintenance == AnnualMaintenance(body.tracks.value)
                      && r.value.estimatedRevenue == AnnualRevenue(pow, body.stations.value, body.tracks.value)
    ensures r.Ok? ==> r.value.totalTrackLength == Sum(body.tracks.value, LengthOf)
  {
    if body.stations.None? || body.tracks.None? then Err(MissingFields)
    else
      var stations := body.stations.value;
      var tracks := body.tracks.value;
      var crossovers := CrossoversOrEmpty(body.crossovers);
      var totalValue := NetworkValue(stations, tracks, crossovers);
      var annualMaintenance := AnnualMaintenance(tracks);
      var estimatedRevenue := AnnualRevenue(pow, stations, tracks);
      Ok(NetworkStats(totalValue, annualMaintenance, estimatedRevenue, estimatedRevenue as real - annualMaintenance,
                      |stations|, |tracks|, |crossovers|, Sum(tracks, LengthOf)))
  }

  /** Missing crossovers and an explicit empty list give the same statistics. */
  lemma MissingCrossoversAreEmpty(pow: Power, stations: seq<Station>, tracks: seq<Track>)
    ensures NetworkStatsPreview(pow, StatsBody(Some(stations), Some(tracks), None))
         == NetworkStatsPreview(pow, StatsBody(Some(stations), Some(tracks), Some([])))
  {
  }

  /** Value, maintenance, track length and counts of two networks posted
      together are the sums of each posted alone. */
  lemma NetworkStatsAdditive(pow: Power, s1: seq<Station>, t1: seq<Track>, c1: seq<Crossover>,
                             s2: seq<Station>, t2: seq<Track>, c2: seq<Crossover>)
    ensures var a := NetworkStatsPreview(pow, StatsBody(Some(s1), Some(t1), Some(c1))).value;
            var b := NetworkStatsPreview(pow, StatsBody(Some(s2), Some(t2), Some(c2))).value;
            var ab := NetworkStatsPreview(pow, StatsBody(Some(s1 + s2), Some(t1 + t2), Some(c1 + c2))).value;
            ab.totalValue == a.totalValue + b.totalValue
            && ab.annualMaintenance == a.annualMaintenance + b.annualMaintenance
            && ab.totalTrackLength == a.totalTrackLength + b.totalTrackLength
            && ab.stationCount == a.stationCount + b.stationCount
            && ab.trackCount == a.trackCount + b.trackCount
            && ab.crossoverCount == a.crossoverCount + b.crossoverCount
  {
    NetworkValueSplits(s1, s2, t1, t2, c1, c2);
    SumConcat(t1, t2, LengthOf);
  }
}
