/** The client store of src/store/gameStore.ts. Every action of the store is
    a reducer from the old state to the new one; the reducers over the
    network are functions here, and the store is a class whose methods apply
    them. Only the local branches are modelled: where an action first calls
    the backend, the branch taken when that call fails is the one modelled. */
module GameStore {

  import opened Common
  import opened RailTypes
  import opened CostService
  import NetworkStore

  datatype Tool = SelectTool | StationTool | TrackTool | CrossoverTool | DeleteTool | PanTool

  /** A station as the map hands it to addStation: everything but id and cost. */
  datatype StationData = StationData(
    name: string,
    location: Coordinates,
    platforms: int,
    stationType: StationType,
    facilities: Facilities)

  /** A track as finishDrawingTrack receives it: no id, length, cost,
      maintenance or speed limit yet. */
  datatype TrackData = TrackData(
    trackType: TrackType,
    fromNodeId: string,
    toNodeId: string,
    waypoints: seq<Coordinates>,
    isDoubleTrack: bool)

  /** The client's own station base costs. */
  function LocalStationBaseCost(s: StationType): real
  {
    match s
    case Local => 1000000.0
    case Regional => 2500000.0
    case Intercity => 5000000.0
    case Hub => 10000000.0
  }

  /** Object.values(facilities).filter(Boolean).length. */
  function FacilityCount(f: Facilities): nat
  {
    (if f.parking then 1 else 0) + (if f.shops then 1 else 0) + (if f.bikeRental then 1 else 0)
  }

  /** The local calculateStationCost. */
  function LocalStationCost(s: StationType, platforms: int, f: Facilities): (c: real)
    ensures var plain := LocalStationBaseCost(s) + platforms as real * 500000.0;
            plain <= c <= plain + 750000.0
    ensures platforms >= 0 ==> c >= LocalStationBaseCost(s)
  {
    LocalStationBaseCost(s) + platforms as real * 500000.0 + FacilityCount(f) as real * 250000.0
  }

  /** Each platform adds 500,000 and each facility 250,000 to the base. */
  lemma LocalStationCostParts(s: StationType, platforms: int, f: Facilities)
    ensures LocalStationCost(s, platforms + 1, f) == LocalStationCost(s, platforms, f) + 500000.0
    ensures LocalStationCost(s, platforms, f) == LocalStationCost(s, platforms, NoFacilities) + FacilityCount(f) as real * 250000.0
    ensures FacilityCount(f) <= 3 && (FacilityCount(f) == 0 <==> f == NoFacilities)
    ensures LocalStationCost(Regional, 5, NoFacilities) == 5000000.0
  {
  }

  /** For every request the backend accepts, on terrain no cheaper than flat,
      the client's estimate is below the backend's price. */
  lemma LocalStationCheaperThanBackend(req: StationCostRequest)
    requires ValidatePlatformCount(req.platforms, req.stationType).None?
    requires TerrainOrDefault(req.terrainModifier) >= 1.0
    ensures StationCost(req).Ok?
    ensures LocalStationCost(req.stationType, req.platforms, req.facilities) < StationCost(req).value.totalCost as real
  {
    var b := StationBaseCost(req.stationType) * (1.0 + req.platforms as real / 10.0);
    var fm := FacilitiesMultiplier(req.facilities);
    var t := TerrainOrDefault(req.terrainModifier);
    assert b >= 0.0;
    assert b * fm >= b * 1.0;
    assert b * fm * t >= b * fm * 1.0;
    assert ExactStationCost(req) == b * fm * t;
    assert ExactStationCost(req) >= b;
    assert LocalStationCost(req.stationType, req.platforms, req.facilities) + 1.0 < b;
  }

  /** The local calculateTrackCost: per-km cost times length, ×1.6 when double. */
  function LocalTrackCost(t: TrackType, lengthKm: real, isDoubleTrack: bool): (c: real)
    ensures lengthKm >= 0.0 ==> TrackCostPerKm(t) * lengthKm <= c <= 1.6 * TrackCostPerKm(t) * lengthKm
    ensures lengthKm >= 0.0 && isDoubleTrack ==> c >= 1.6 * 2000000.0 * lengthKm
  {
    var baseCost := TrackCostPerKm(t) * lengthKm;
    if isDoubleTrack then baseCost * 1.6 else baseCost
  }

  /** A single track costs what the backend charges on flat terrain; a double
      track costs 1.6/1.5 of it, since the backend's multiplier is 1.5. */
  lemma LocalTrackCostAgainstBackend(t: TrackType, lengthKm: real)
    ensures LocalTrackCost(t, lengthKm, false) == TrackCostPerKm(t) * lengthKm * DoubleTrackMultiplier(false)
    ensures LocalTrackCost(t, lengthKm, true) * 15.0 == TrackCostPerKm(t) * lengthKm * DoubleTrackMultiplier(true) * 16.0
  {
  }

  /** The local getSpeedLimit. */
  function GetSpeedLimit(t: TrackType): (v: int)
    ensures v == TrackSpeedLimit(t)
  {
    match t
    case Hst => 300
    case Ic => 200
    case NonElectrified => 120
  }

  /** addCrossover's own price list. */
  function LocalCrossoverCost(c: CrossoverType): (cost: real)
    ensures 1000000.0 <= cost <= 5000000.0
    ensures c.Simple? <==> cost == 1000000.0
    ensures c.Junction? <==> cost == 2500000.0
    ensures c.FlyingJunction? <==> cost == 5000000.0
  {
    if c == FlyingJunction then 5000000.0
    else if c == Junction then 2500000.0
    else 1000000.0
  }

  /** The client charges twice the backend base for a simple crossover,
      a quarter more for a junction and half for a flying junction. */
  lemma CrossoverPricesAgainstBackend()
    ensures LocalCrossoverCost(Simple) == 2.0 * CrossoverBaseCost(Simple)
    ensures LocalCrossoverCost(Junction) == 1.25 * CrossoverBaseCost(Junction)
    ensures LocalCrossoverCost(FlyingJunction) == 0.5 * CrossoverBaseCost(FlyingJunction)
  {
  }

  /** DEFAULT_NETWORK under a fresh id. */
  function DefaultNetwork(id: string): Network
  {
    Network(id, "My Railway Network", 1000000000.0, 0.0, 0.0, 2024, 1, [], [], [])
  }

  /** The client's starting network is the document the backend's /init creates. */
  lemma DefaultNetworkMatchesBackend(id: string)
    ensures DefaultNetwork(id) == NetworkStore.NewNetwork(id, NetworkStore.DefaultNetworkName)
  {
  }

  /** Budget plus the recorded value of everything built. */
  function Worth(n: Network): real
  {
    n.budget + NetworkValue(n.stations, n.tracks, n.crossovers)
  }

  predicate CostsNonNegative(n: Network)
  {
    (forall i :: 0 <= i < |n.stations| ==> n.stations[i].cost >= 0.0)
    && (forall i :: 0 <= i < |n.tracks| ==> n.tracks[i].cost >= 0.0)
    && (forall i :: 0 <= i < |n.crossovers| ==> n.crossovers[i].cost >= 0.0)
  }

  function StationHasId(id: string): Station -> bool { (s: Station) => s.id == id }
  function TrackHasId(id: string): Track -> bool { (t: Track) => t.id == id }
  function CrossoverHasId(id: string): Crossover -> bool { (c: Crossover) => c.id == id }
  function TouchesNode(id: string): Track -> bool { (t: Track) => t.fromNodeId == id || t.toNodeId == id }

  function TrackRefundOf(t: Track): real { t.cost * 0.3 }

  /** The network after the local branch of addStation. */
  function StationAddedLocally(n: Network, data: StationData, id: string): (r: Network)
    ensures r == n.(budget := r.budget, stations := r.stations)
    ensures r == n || (r.budget >= 0.0 && |r.stations| == |n.stations| + 1
                       && r.stations[..|n.stations|] == n.stations && r.stations[|n.stations|].id == id)
    ensures var cost := LocalStationCost(data.stationType, data.platforms, data.facilities);
            (n.budget < cost ==> r == n)
            && (n.budget >= cost ==>
                  r.budget == n.budget - cost
                  && r.stations == n.stations + [Station(id, data.name, data.location, data.platforms,
                                                         data.stationType, cost, data.facilities)])
  {
    var cost := LocalStationCost(data.stationType, data.platforms, data.facilities);
    if n.budget < cost then n
    else
      var station := Station(id, data.name, data.location, data.platforms, data.stationType, cost, data.facilities);
      n.(budget := n.budget - cost, stations := n.stations + [station])
  }

  /** The network after removeStation: half the first matching station's
      cost and 30% of every track touching the id come back; every station
      with the id and every track touching it go. */
  function StationRemoved(n: Network, id: string): (r: Network)
    ensures r == n.(budget := r.budget, stations := r.stations, tracks := r.tracks)
    ensures |r.stations| <= |n.stations| && |r.tracks| <= |n.tracks|
  {
    var station := FindFirst(n.stations, StationHasId(id));
    var refund := if station.Some? then station.value.cost * 0.5 else 0.0;
    var tracksToRemove := Filter(n.tracks, TouchesNode(id));
    var trackRefund := Sum(tracksToRemove, TrackRefundOf);
    n.(budget := n.budget + refund + trackRefund,
       stations := Filter(n.stations, Negate(StationHasId(id))),
       tracks := Filter(n.tracks, Negate(TouchesNode(id))))
  }

  /** The network after the local branch of finishDrawingTrack, given the
      length computed from the drawn points. */
  function TrackAddedLocally(n: Network, data: TrackData, id: string, lengthKm: real): (r: Network)
    ensures r == n.(budget := r.budget, tracks := r.tracks)
    ensures r == n || (r.budget >= 0.0 && |r.tracks| == |n.tracks| + 1 && r.tracks[..|n.tracks|] == n.tracks
                       && r.tracks[|n.tracks|].id == id
                       && r.tracks[|n.tracks|].speedLimit == TrackSpeedLimit(data.trackType))
    ensures var cost := LocalTrackCost(data.trackType, lengthKm, data.isDoubleTrack);
            (n.budget < cost ==> r == n)
            && (n.budget >= cost ==>
                  r.budget == n.budget - cost
                  && r.tracks == n.tracks + [Track(id, data.trackType, data.fromNodeId, data.toNodeId, data.waypoints,
                                                   lengthKm, TrackSpeedLimit(data.trackType), data.isDoubleTrack,
                                                   cost, 0.02 * cost)])
  {
    var cost := LocalTrackCost(data.trackType, lengthKm, data.isDoubleTrack);
    if n.budget < cost then n
    else
      var track := Track(id, data.trackType, data.fromNodeId, data.toNodeId, data.waypoints, lengthKm,
                         GetSpeedLimit(data.trackType), data.isDoubleTrack, cost, cost * 0.02);
      n.(budget := n.budget - cost, tracks := n.tracks + [track])
  }

  /** The network after removeTrack: 30% of the first matching track back. */
  function TrackRemoved(n: Network, id: string): (r: Network)
    ensures r == n.(budget := r.budget, tracks := r.tracks)
    ensures |r.tracks| <= |n.tracks|
  {
    var track := FindFirst(n.tracks, TrackHasId(id));
    var refund := if track.Some? then track.value.cost * 0.3 else 0.0;
    n.(budget := n.budget + refund, tracks := Filter(n.tracks, Negate(TrackHasId(id))))
  }

  /** The network after addCrossover: the crossover is stored with the local price. */
  function CrossoverAdded(n: Network, c: Crossover): (r: Network)
    ensures r == n.(budget := r.budget, crossovers := r.crossovers)
    ensures r == n || (r.budget >= 0.0 && r.crossovers == n.crossovers + [c.(cost := n.budget - r.budget)])
    ensures var cost := LocalCrossoverCost(c.crossoverType);
            (n.budget < cost ==> r == n)
            && (n.budget >= cost ==> r.budget == n.budget - cost && r.crossovers == n.crossovers + [c.(cost := cost)])
  {
    var cost := LocalCrossoverCost(c.crossoverType);
    if n.budget < cost then n
    else n.(budget := n.budget - cost, crossovers := n.crossovers + [c.(cost := cost)])
  }

  /** The network after removeCrossover: 40% of the first match back. */
  function CrossoverRemoved(n: Network, id: string): (r: Network)
    ensures r == n.(budget := r.budget, crossovers := r.crossovers)
    ensures |r.crossovers| <= |n.crossovers|
  {
    var crossover := FindFirst(n.crossovers, CrossoverHasId(id));
    var refund := if crossover.Some? then crossover.value.cost * 0.4 else 0.0;
    n.(budget := n.budget + refund, crossovers := Filter(n.crossovers, Negate(CrossoverHasId(id))))
  }

  function BudgetSpent(n: Network, amount: real): (r: Network)
    ensures r == n.(budget := r.budget)
    ensures r.budget == n.budget || r.budget >= 0.0
  {
    var newBudget := n.budget - amount;
    if newBudget < 0.0 then n else n.(budget := newBudget)
  }

  function IncomeAdded(n: Network, amount: real): (r: Network)
    ensures r == n.(budget := r.budget, income := r.income)
    ensures r.budget - n.budget == r.income - n.income == amount
  {
    n.(income := n.income + amount, budget := n.budget + amount)
  }

  function ExpenseAdded(n: Network, amount: real): (r: Network)
    ensures r == n.(budget := r.budget, expenses := r.expenses)
    ensures n.budget - r.budget == r.expenses - n.expenses == amount
  {
    n.(expenses := n.expenses + amount, budget := n.budget - amount)
  }

  function LengthRevenueOf(t: Track): real { t.lengthKm * 10000.0 }
  function PlatformRevenueOf(s: Station): real { s.platforms as real * 50000.0 }

  /** Gross yearly revenue: 10,000 per km of track and 50,000 per platform. */
  function GrossRevenue(n: Network): real
  {
    Sum(n.tracks, LengthRevenueOf) + Sum(n.stations, PlatformRevenueOf)
  }

  /** The network after calculateRevenue. */
  function RevenueCalculated(n: Network): (r: Network)
    ensures r == n.(income := r.income, expenses := r.expenses)
    ensures r.income + r.expenses == GrossRevenue(n)
  {
    var trackRevenue := Sum(n.tracks, LengthRevenueOf);
    var stationRevenue := Sum(n.stations, PlatformRevenueOf);
    var maintenanceCosts := Sum(n.tracks, TrackMaintenanceOf);
    n.(income := trackRevenue + stationRevenue - maintenanceCosts, expenses := maintenanceCosts)
  }

  /** Building moves money from the budget into the network: the worth is
      kept, and a non-negative budget stays non-negative. A refused build
      changes nothing. */
  lemma BuildingConservesWorth(n: Network, s: StationData, t: TrackData, c: Crossover, id: string, lengthKm: real)
    ensures Worth(StationAddedLocally(n, s, id)) == Worth(n)
    ensures Worth(TrackAddedLocally(n, t, id, lengthKm)) == Worth(n)
    ensures Worth(CrossoverAdded(n, c)) == Worth(n)
    ensures n.budget >= 0.0 ==> StationAddedLocally(n, s, id).budget >= 0.0
                                && TrackAddedLocally(n, t, id, lengthKm).budget >= 0.0
                                && CrossoverAdded(n, c).budget >= 0.0
    ensures n.budget < LocalStationCost(s.stationType, s.platforms, s.facilities) <==> StationAddedLocally(n, s, id) == n
    ensures n.budget < LocalTrackCost(t.trackType, lengthKm, t.isDoubleTrack) <==> TrackAddedLocally(n, t, id, lengthKm) == n
    ensures n.budget < LocalCrossoverCost(c.crossoverType) <==> CrossoverAdded(n, c) == n
  {
    var sc := LocalStationCost(s.stationType, s.platforms, s.facilities);
    if n.budget >= sc {
      NetworkValueAppendStation(n.stations, n.tracks, n.crossovers,
                                Station(id, s.name, s.location, s.platforms, s.stationType, sc, s.facilities));
      assert |StationAddedLocally(n, s, id).stations| == |n.stations| + 1;
    }
    var tc := LocalTrackCost(t.trackType, lengthKm, t.isDoubleTrack);
    if n.budget >= tc {
      NetworkValueAppendTrack(n.stations, n.tracks, n.crossovers,
                              Track(id, t.trackType, t.fromNodeId, t.toNodeId, t.waypoints, lengthKm,
                                    GetSpeedLimit(t.trackType), t.isDoubleTrack, tc, tc * 0.02));
      assert |TrackAddedLocally(n, t, id, lengthKm).tracks| == |n.tracks| + 1;
    }
    var cc := LocalCrossoverCost(c.crossoverType);
    if n.budget >= cc {
      NetworkValueAppendCrossover(n.stations, n.tracks, n.crossovers, c.(cost := cc));
      assert |CrossoverAdded(n, c).crossovers| == |n.crossovers| + 1;
    }
  }

  /** removeStation keeps exactly the stations with another id and exactly
      the tracks touching neither end, drops nothing else, and leaves the
      crossovers alone. */
  lemma StationRemovedKeepsOthers(n: Network, id: string)
    ensures var r := StationRemoved(n, id);
            (forall s :: s in r.stations <==> s in n.stations && s.id != id)
            && (forall t :: t in r.tracks <==> t in n.tracks && t.fromNodeId != id && t.toNodeId != id)
            && multiset(r.tracks) + multiset(Filter(n.tracks, TouchesNode(id))) == multiset(n.tracks)
            && r.crossovers == n.crossovers
  {
    FilterMembership(n.stations, Negate(StationHasId(id)));
    FilterMembership(n.tracks, Negate(TouchesNode(id)));
    FilterPartition(n.tracks, TouchesNode(id));
  }

  /** With an id that names no station and no track end, removeStation
      changes nothing. */
  lemma StationRemovedUnknownId(n: Network, id: string)
    requires forall i :: 0 <= i < |n.stations| ==> n.stations[i].id != id
    requires forall i :: 0 <= i < |n.tracks| ==> n.tracks[i].fromNodeId != id && n.tracks[i].toNodeId != id
    ensures StationRemoved(n, id) == n
  {
    FindFirstSpec(n.stations, StationHasId(id));
    FilterKeepsAll(n.stations, Negate(StationHasId(id)));
    FilterKeepsAll(n.tracks, Negate(TouchesNode(id)));
    FilterDropsAll(n.tracks, TouchesNode(id));
  }

  /** Demolishing a station never creates money: with non-negative costs the
      budget does not fall, and it rises by at most the recorded value of the
      station and the tracks removed with it. */
  lemma StationDemolitionNeverCreatesWorth(n: Network, id: string)
    requires CostsNonNegative(n)
    ensures StationRemoved(n, id).budget >= n.budget
    ensures Worth(StationRemoved(n, id)) <= Worth(n)
  {
    var r := StationRemoved(n, id);
    SumFilterSplit(n.stations, StationHasId(id), StationCostOf);
    SumFilterSplit(n.tracks, TouchesNode(id), TrackCostOf);
    FirstBelowFilterSum(n.stations, StationHasId(id), StationCostOf);
    var touching := Filter(n.tracks, TouchesNode(id));
    FilterMembership(n.tracks, TouchesNode(id));
    forall i | 0 <= i < |touching|
      ensures 0.0 <= TrackRefundOf(touching[i]) <= TrackCostOf(touching[i])
    {
      assert touching[i] in n.tracks;
    }
    SumMonotone(touching, TrackRefundOf, TrackCostOf);
    SumNonNegative(touching, TrackRefundOf);
    assert NetworkValue(r.stations, r.tracks, r.crossovers)
        == Sum(Filter(n.stations, Negate(StationHasId(id))), StationCostOf)
           + Sum(Filter(n.tracks, Negate(TouchesNode(id))), TrackCostOf) + Sum(n.crossovers, CrossoverCostOf);
  }

  /** The same for removeTrack (30% back) and removeCrossover (40% back). */
  lemma TrackDemolitionNeverCreatesWorth(n: Network, id: string)
    requires CostsNonNegative(n)
    ensures TrackRemoved(n, id).budget >= n.budget
    ensures Worth(TrackRemoved(n, id)) <= Worth(n)
  {
    SumFilterSplit(n.tracks, TrackHasId(id), TrackCostOf);
    FirstBelowFilterSum(n.tracks, TrackHasId(id), TrackCostOf);
  }

  lemma CrossoverDemolitionNeverCreatesWorth(n: Network, id: string)
    requires CostsNonNegative(n)
    ensures CrossoverRemoved(n, id).budget >= n.budget
    ensures Worth(CrossoverRemoved(n, id)) <= Worth(n)
  {
    SumFilterSplit(n.crossovers, CrossoverHasId(id), CrossoverCostOf);
    FirstBelowFilterSum(n.crossovers, CrossoverHasId(id), CrossoverCostOf);
  }

  /** removeTrack drops exactly the tracks with the id; an unknown id
      changes nothing. */
  lemma TrackRemovedKeepsOthers(n: Network, id: string)
    ensures forall t :: t in TrackRemoved(n, id).tracks <==> t in n.tracks && t.id != id
    ensures TrackRemoved(n, id).stations == n.stations && TrackRemoved(n, id).crossovers == n.crossovers
    ensures (forall i :: 0 <= i < |n.tracks| ==> n.tracks[i].id != id) ==> TrackRemoved(n, id) == n
  {
    FilterMembership(n.tracks, Negate(TrackHasId(id)));
    if forall i :: 0 <= i < |n.tracks| ==> n.tracks[i].id != id {
      FindFirstSpec(n.tracks, TrackHasId(id));
      FilterKeepsAll(n.tracks, Negate(TrackHasId(id)));
    }
  }

  /** removeCrossover drops exactly the crossovers with the id; an unknown id
      changes nothing. */
  lemma CrossoverRemovedKeepsOthers(n: Network, id: string)
    ensures forall c :: c in CrossoverRemoved(n, id).crossovers <==> c in n.crossovers && c.id != id
    ensures CrossoverRemoved(n, id).stations == n.stations && CrossoverRemoved(n, id).tracks == n.tracks
    ensures (forall i :: 0 <= i < |n.crossovers| ==> n.crossovers[i].id != id) ==> CrossoverRemoved(n, id) == n
  {
    FilterMembership(n.crossovers, Negate(CrossoverHasId(id)));
    if forall i :: 0 <= i < |n.crossovers| ==> n.crossovers[i].id != id {
      FindFirstSpec(n.crossovers, CrossoverHasId(id));
      FilterKeepsAll(n.crossovers, Negate(CrossoverHasId(id)));
    }
  }

  /** On any network, removing an entity refunds a fixed share of its cost:
      50% of the first station with the id plus 30% of every track touching
      it, 30% of the first track with the id, 40% of the first crossover
      with the id. An id that matches nothing refunds nothing of that kind. */
  lemma RefundRates(n: Network, id: string)
    ensures var s := FindFirst(n.stations, StationHasId(id));
            var cascade := 0.3 * Sum(Filter(n.tracks, TouchesNode(id)), TrackCostOf);
            (s.Some? ==> StationRemoved(n, id).budget == n.budget + 0.5 * s.value.cost + cascade)
            && (s.None? ==> StationRemoved(n, id).budget == n.budget + cascade)
    ensures var t := FindFirst(n.tracks, TrackHasId(id));
            (t.Some? ==> TrackRemoved(n, id).budget == n.budget + 0.3 * t.value.cost)
            && (t.None? ==> TrackRemoved(n, id).budget == n.budget)
    ensures var c := FindFirst(n.crossovers, CrossoverHasId(id));
            (c.Some? ==> CrossoverRemoved(n, id).budget == n.budget + 0.4 * c.value.cost)
            && (c.None? ==> CrossoverRemoved(n, id).budget == n.budget)
  {
    SumScale(Filter(n.tracks, TouchesNode(id)));
  }

  lemma {:induction false} SumScale(tracks: seq<Track>)
    ensures Sum(tracks, TrackRefundOf) == 0.3 * Sum(tracks, TrackCostOf)
    decreases |tracks|
  {
    if |tracks| > 0 {
      SumScale(tracks[..|tracks| - 1]);
    }
  }

  /** spendBudget either refuses, changing nothing, or leaves a non-negative
      budget lowered by exactly the amount. */
  lemma SpendNeverOverdraws(n: Network, amount: real)
    ensures var r := BudgetSpent(n, amount);
            (r == n && n.budget - amount < 0.0) || (r.budget >= 0.0 && r.budget == n.budget - amount && r == n.(budget := r.budget))
  {
  }

  /** addIncome and addExpense keep budget − income + expenses, and an
      income followed by an equal expense restores the budget. */
  lemma LedgerBalances(n: Network, amount: real)
    ensures var r := IncomeAdded(n, amount); r.budget - r.income + r.expenses == n.budget - n.income + n.expenses
    ensures var r := ExpenseAdded(n, amount); r.budget - r.income + r.expenses == n.budget - n.income + n.expenses
    ensures ExpenseAdded(IncomeAdded(n, amount), amount).budget == n.budget
  {
  }

  /** calculateRevenue leaves the budget and the network alone, sets income
      plus expenses to the gross revenue, and is idempotent. */
  lemma RevenueSettles(n: Network)
    ensures var r := RevenueCalculated(n);
            r.budget == n.budget && r.stations == n.stations && r.tracks == n.tracks
            && r.income + r.expenses == GrossRevenue(n)
            && r.expenses == AnnualMaintenance(n.tracks)
            && RevenueCalculated(r) == r
  {
  }

  class GameStore {
    var network: Option<Network>
    var selectedRegion: Option<string>
    var currentTool: Tool
    var isToolMenuOpen: bool
    var selectedStationId: Option<string>
    var selectedTrackId: Option<string>
    var isDrawingTrack: bool
    var trackDrawingPoints: seq<Coordinates>
    var trackStartNodeId: Option<string>

    /** At most one of a station and a track is selected. */
    ghost predicate Valid()
      reads this
    {
      selectedStationId.None? || selectedTrackId.None?
    }

    twostate predicate DrawingUnchanged()
      reads this
    {
      isDrawingTrack == old(isDrawingTrack) && trackDrawingPoints == old(trackDrawingPoints)
      && trackStartNodeId == old(trackStartNodeId)
    }

    twostate predicate ViewUnchanged()
      reads this
    {
      selectedRegion == old(selectedRegion) && currentTool == old(currentTool) && isToolMenuOpen == old(isToolMenuOpen)
    }

    twostate predicate SelectionUnchanged()
      reads this
    {
      selectedStationId == old(selectedStationId) && selectedTrackId == old(selectedTrackId)
    }

    constructor ()
      ensures Valid()
      ensures network == None && selectedRegion == None && currentTool == SelectTool && !isToolMenuOpen
      ensures selectedStationId == None && selectedTrackId == None
      ensures !isDrawingTrack && trackDrawingPoints == [] && trackStartNodeId == None
    {
      network := None;
      selectedRegion := None;
      currentTool := SelectTool;
      isToolMenuOpen := false;
      selectedStationId := None;
      selectedTrackId := None;
      isDrawingTrack := false;
      trackDrawingPoints := [];
      trackStartNodeId := None;
    }

    method SetNetwork(n: Network)
      requires Valid()
      modifies this
      ensures Valid() && network == Some(n)
      ensures DrawingUnchanged() && ViewUnchanged() && SelectionUnchanged()
    {
      network := Some(n);
    }

    /** setSelectedRegion, up to the backend call: the region and a default
      network under a fresh id are set at once. */
    method SetSelectedRegion(regionId: string, freshId: string)
      requires Valid()
      modifies this
      ensures Valid() && selectedRegion == Some(regionId) && network == Some(DefaultNetwork(freshId))
      ensures DrawingUnchanged() && SelectionUnchanged()
      ensures currentTool == old(currentTool) && isToolMenuOpen == old(isToolMenuOpen)
    {
      selectedRegion := Some(regionId);
      network := Some(DefaultNetwork(freshId));
    }

    method SetCurrentTool(tool: Tool)
      requires Valid()
      modifies this
      ensures Valid() && currentTool == tool && network == old(network)
      ensures DrawingUnchanged() && SelectionUnchanged()
      ensures selectedRegion == old(selectedRegion) && isToolMenuOpen == old(isToolMenuOpen)
    {
      currentTool := tool;
    }

    method ToggleToolMenu()
      requires Valid()
      modifies this
      ensures Valid() && isToolMenuOpen == !old(isToolMenuOpen) && network == old(network)
      ensures DrawingUnchanged() && SelectionUnchanged()
      ensures selectedRegion == old(selectedRegion) && currentTool == old(currentTool)
    {
      isToolMenuOpen := !isToolMenuOpen;
    }

    /** addStation when the backend cannot be reached. */
    method AddStationLocal(data: StationData, newId: string)
      requires Valid()
      modifies this
      ensures Valid() && DrawingUnchanged() && ViewUnchanged() && SelectionUnchanged()
      ensures old(network).None? ==> network == None
      ensures old(network).Some? ==> network == Some(StationAddedLocally(old(network).value, data, newId))
    {
      if network.None? {
        return;
      }
      var n := network.value;
      var cost := LocalStationCost(data.stationType, data.platforms, data.facilities);
      if n.budget < cost {
        return;
      }
      var station := Station(newId, data.name, data.location, data.platforms, data.stationType, cost, data.facilities);
      network := Some(n.(budget := n.budget - cost, stations := n.stations + [station]));
    }

    method RemoveStation(id: string)
      requires Valid()
      modifies this
      ensures Valid() && DrawingUnchanged() && ViewUnchanged() && selectedTrackId == old(selectedTrackId)
      ensures old(network).None? ==> network == None && selectedStationId == old(selectedStationId)
      ensures old(network).Some? ==> network == Some(StationRemoved(old(network).value, id))
      ensures old(network).Some? ==>
                selectedStationId == if old(selectedStationId) == Some(id) then None else old(selectedStationId)
    {
      if network.None? {
        return;
      }
      network := Some(StationRemoved(network.value, id));
      if selectedStationId == Some(id) {
        selectedStationId := None;
      }
    }

    method SelectStation(id: Option<string>)
      requires Valid()
      modifies this
      ensures Valid() && selectedStationId == id && selectedTrackId == None && network == old(network)
      ensures DrawingUnchanged() && ViewUnchanged()
    {
      selectedStationId := id;
      selectedTrackId := None;
    }

    method StartDrawingTrack(startNodeId: string, startPoint: Coordinates)
      requires Valid()
      modifies this
      ensures Valid() && isDrawingTrack && trackDrawingPoints == [startPoint] && trackStartNodeId == Some(startNodeId)
      ensures currentTool == TrackTool && network == old(network) && SelectionUnchanged()
      ensures selectedRegion == old(selectedRegion) && isToolMenuOpen == old(isToolMenuOpen)
    {
      isDrawingTrack := true;
      trackDrawingPoints := [startPoint];
      trackStartNodeId := Some(startNodeId);
      currentTool := TrackTool;
    }

    /** Appends a point, whether or not a track is being drawn. */
    method AddTrackWaypoint(point: Coordinates)
      requires Valid()
      modifies this
      ensures Valid() && trackDrawingPoints == old(trackDrawingPoints) + [point]
      ensures isDrawingTrack == old(isDrawingTrack) && trackStartNodeId == old(trackStartNodeId)
      ensures network == old(network) && ViewUnchanged() && SelectionUnchanged()
    {
      trackDrawingPoints := trackDrawingPoints + [point];
    }

    method CancelDrawingTrack()
      requires Valid()
      modifies this
      ensures Valid() && !isDrawingTrack && trackDrawingPoints == [] && trackStartNodeId == None
      ensures network == old(network) && ViewUnchanged() && SelectionUnchanged()
    {
      isDrawingTrack := false;
      trackDrawingPoints := [];
      trackStartNodeId := None;
    }

    /** finishDrawingTrack when the backend cannot be reached. `lengthOf` is
        calculateTrackLength over the drawn points. A refused track cancels
        the drawing; an accepted one ends it. */
    method FinishDrawingTrackLocal(lengthOf: seq<Coordinates> -> real, data: TrackData, newId: string)
      requires Valid()
      modifies this
      ensures Valid() && ViewUnchanged() && SelectionUnchanged()
      ensures old(network).None? ==> network == None && DrawingUnchanged()
      ensures old(network).Some? ==>
                network == Some(TrackAddedLocally(old(network).value, data, newId, lengthOf(old(trackDrawingPoints))))
                && !isDrawingTrack && trackDrawingPoints == [] && trackStartNodeId == None
    {
      if network.None? {
        return;
      }
      var n := network.value;
      var lengthKm := lengthOf(trackDrawingPoints);
      var cost := LocalTrackCost(data.trackType, lengthKm, data.isDoubleTrack);
      if n.budget < cost {
        CancelDrawingTrack();
        return;
      }
      var track := Track(newId, data.trackType, data.fromNodeId, data.toNodeId, data.waypoints, lengthKm,
                         GetSpeedLimit(data.trackType), data.isDoubleTrack, cost, cost * 0.02);
      network := Some(n.(budget := n.budget - cost, tracks := n.tracks + [track]));
      isDrawingTrack := false;
      trackDrawingPoints := [];
      trackStartNodeId := None;
    }

    method RemoveTrack(id: string)
      requires Valid()
      modifies this
      ensures Valid() && DrawingUnchanged() && ViewUnchanged() && selectedStationId == old(selectedStationId)
      ensures old(network).None? ==> network == None && selectedTrackId == old(selectedTrackId)
      ensures old(network).Some? ==> network == Some(TrackRemoved(old(network).value, id))
      ensures old(network).Some? ==>
                selectedTrackId == if old(selectedTrackId) == Some(id) then None else old(selectedTrackId)
    {
      if network.None? {
        return;
      }
      network := Some(TrackRemoved(network.value, id));
      if selectedTrackId == Some(id) {
        selectedTrackId := None;
      }
    }

    method SelectTrack(id: Option<string>)
      requires Valid()
      modifies this
      ensures Valid() && selectedTrackId == id && selectedStationId == None && network == old(network)
      ensures DrawingUnchanged() && ViewUnchanged()
    {
      selectedTrackId := id;
      selectedStationId := None;
    }

    method AddCrossover(c: Crossover)
      requires Valid()
      modifies this
      ensures Valid() && DrawingUnchanged() && ViewUnchanged() && SelectionUnchanged()
      ensures old(network).None? ==> network == None
      ensures old(network).Some? ==> network == Some(CrossoverAdded(old(network).value, c))
    {
      if network.None? {
        return;
      }
      var n := network.value;
      var cost := if c.crossoverType == FlyingJunction then 5000000.0
                  else if c.crossoverType == Junction then 2500000.0 else 1000000.0;
      var crossoverWithCost := c.(cost := cost);
      if n.budget < cost {
        return;
      }
      network := Some(n.(budget := n.budget - cost, crossovers := n.crossovers + [crossoverWithCost]));
    }

    method RemoveCrossover(id: string)
      requires Valid()
      modifies this
      ensures Valid() && DrawingUnchanged() && ViewUnchanged() && SelectionUnchanged()
      ensures old(network).None? ==> network == None
      ensures old(network).Some? ==> network == Some(CrossoverRemoved(old(network).value, id))
    {
      if network.None? {
        return;
      }
      network := Some(CrossoverRemoved(network.value, id));
    }

    method SpendBudget(amount: real)
      requires Valid()
      modifies this
      ensures Valid() && DrawingUnchanged() && ViewUnchanged() && SelectionUnchanged()
      ensures old(network).None? ==> network == None
      ensures old(network).Some? ==> network == Some(BudgetSpent(old(network).value, amount))
    {
      if network.None? {
        return;
      }
      var newBudget := network.value.budget - amount;
      if newBudget < 0.0 {
        return;
      }
      network := Some(network.value.(budget := newBudget));
    }

    method AddIncome(amount: real)
      requires Valid()
      modifies this
      ensures Valid() && DrawingUnchanged() && ViewUnchanged() && SelectionUnchanged()
      ensures old(network).None? ==> network == None
      ensures old(network).Some? ==> network == Some(IncomeAdded(old(network).value, amount))
    {
      if network.None? {
        return;
      }
      network := Some(IncomeAdded(network.value, amount));
    }

    method AddExpense(amount: real)
      requires Valid()
      modifies this
      ensures Valid() && DrawingUnchanged() && ViewUnchanged() && SelectionUnchanged()
      ensures old(network).None? ==> network == None
      ensures old(network).Some? ==> network == Some(ExpenseAdded(old(network).value, amount))
    {
      if network.None? {
        return;
      }
      network := Some(ExpenseAdded(network.value, amount));
    }

    method CalculateRevenue()
      requires Valid()
      modifies this
      ensures Valid() && DrawingUnchanged() && ViewUnchanged() && SelectionUnchanged()
      ensures old(network).None? ==> network == None
      ensures old(network).Some? ==> network == Some(RevenueCalculated(old(network).value))
    {
      if network.None? {
        return;
      }
      network := Some(RevenueCalculated(network.value));
    }
  }
}
