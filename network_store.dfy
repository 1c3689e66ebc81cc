/** The network routes of backend/src/routes/network.routes.ts over an
    in-memory document store. Each handler loads a document (a fresh value,
    as JSON.parse gives), changes it, and writes it back only on success. */
module NetworkStore {

  import opened Common
  import opened RailTypes
  import opened Geometry
  import opened CostService

  const StartingBudget: real := 1000000000.0
  const DefaultNetworkName: string := "My Railway Network"

  /** The replies of the routes; the 403 body carries only INSUFFICIENT_BUDGET. */
  datatype Reply<T> =
    | Found(body: T)
    | Created(body: T)
    | NotFound
    | InsufficientBudget
    | BadRequest(error: CostError)

  function StatusCode<T>(r: Reply<T>): int
  {
    match r
    case Found(_) => 200
    case Created(_) => 201
    case NotFound => 404
    case InsufficientBudget => 403
    case BadRequest(_) => 400
  }

  /** The document /init creates. */
  function NewNetwork(id: string, name: string): Network
  {
    Network(id, name, StartingBudget, 0.0, 0.0, 2024, 1, [], [], [])
  }

  /** Body of POST /:id/stations. A client-supplied cost is accepted and ignored. */
  datatype StationBody = StationBody(
    name: string,
    location: Coordinates,
    platforms: int,
    stationType: StationType,
    facilities: Facilities,
    terrainModifier: Option<real>,
    clientCost: Option<real>)

  /** Body of POST /:id/tracks. The endpoint ids are not checked against the network. */
  datatype TrackBody = TrackBody(
    trackType: TrackType,
    fromNodeId: string,
    toNodeId: string,
    waypoints: seq<Coordinates>,
    isDoubleTrack: bool,
    terrainModifier: Option<real>)

  datatype InitReply = InitReply(network: Network, regionId: Option<string>)
  datatype StationCreated = StationCreated(station: Station, budget: real)
  datatype TrackCreated = TrackCreated(track: Track, budget: real)

  function StationRequestOf(body: StationBody): StationCostRequest
  {
    StationCostRequest(body.platforms, body.stationType, body.facilities, body.terrainModifier)
  }

  function TrackRequestOf(body: TrackBody): TrackCostRequest
  {
    TrackCostRequest(body.trackType, body.waypoints, body.isDoubleTrack, body.terrainModifier)
  }

  /** The station record the handler builds once the cost is known. */
  function StationRecord(body: StationBody, id: string, cost: int): Station
  {
    Station(id, body.name, body.location, body.platforms, body.stationType, cost as real, body.facilities)
  }

  /** The track record the handler builds; the speed limit comes from the type. */
  function TrackRecord(body: TrackBody, id: string, costs: TrackCostBreakdown): Track
  {
    Track(id, body.trackType, body.fromNodeId, body.toNodeId, body.waypoints, costs.lengthKm,
          TrackSpeedLimit(body.trackType), body.isDoubleTrack,
          costs.totalCost as real, costs.maintenanceCostPerYear as real)
  }

  /** What every stored document keeps: the budget is never negative, and
      budget plus the value of what was built is the starting budget. */
  ghost predicate Conserved(n: Network)
  {
    n.budget >= 0.0 && n.budget + NetworkValue(n.stations, n.tracks, n.crossovers) == StartingBudget
  }

  class NetworkStore {
    var docs: map<string, Network>

    ghost predicate Valid()
      reads this
    {
      forall id :: id in docs ==> docs[id].id == id && Conserved(docs[id])
    }

    constructor ()
      ensures Valid() && docs == map[]
    {
      docs := map[];
    }

    /** POST /init: a new document under a fresh id, saved at once. */
    method Init(id: string, name: Option<string>, regionId: Option<string>) returns (reply: Reply<InitReply>)
      requires Valid()
      modifies this
      ensures Valid()
      ensures var n := NewNetwork(id, if name.Some? then name.value else DefaultNetworkName);
              docs == old(docs)[id := n] && reply == Created(InitReply(n, regionId))
    {
      var networkName := if name.Some? then name.value else DefaultNetworkName;
      var network := NewNetwork(id, networkName);
      EmptyNetworkHasNoValue();
      docs := docs[id := network];
      reply := Created(InitReply(network, regionId));
    }

    /** GET /:id. */
    method Get(id: string) returns (reply: Reply<Network>)
      ensures id in docs ==> reply == Found(docs[id])
      ensures id !in docs ==> reply == NotFound
    {
      if id !in docs {
        return NotFound;
      }
      reply := Found(docs[id]);
    }

    /** POST /:id/stations. */
    method AddStation(networkId: string, body: StationBody, newId: string) returns (reply: Reply<StationCreated>)
      requires Valid()
      modifies this
      ensures Valid()
      ensures networkId !in old(docs) ==> reply == NotFound && docs == old(docs)
      ensures networkId in old(docs) ==>
        var n := old(docs)[networkId];
        var costs := StationCost(StationRequestOf(body));
        if costs.Err? then
          reply == BadRequest(costs.error) && docs == old(docs)
        else
          var station := StationRecord(body, newId, costs.value.totalCost);
          if n.budget < station.cost then
            reply == InsufficientBudget && docs == old(docs)
          else
            var n' := n.(budget := n.budget - station.cost, stations := n.stations + [station]);
            docs == old(docs)[networkId := n'] && reply == Created(StationCreated(station, n'.budget))
    {
      if networkId !in docs {
        return NotFound;
      }
      var network := docs[networkId];
      var costResp := StationCost(StationRequestOf(body));
      if costResp.Err? {
        return BadRequest(costResp.error);
      }
      var station := StationRecord(body, newId, costResp.value.totalCost);
      if network.budget < station.cost {
        return InsufficientBudget;
      }
      NetworkValueAppendStation(network.stations, network.tracks, network.crossovers, station);
      network := network.(budget := network.budget - station.cost);
      network := network.(stations := network.stations + [station]);
      docs := docs[networkId := network];
      reply := Created(StationCreated(station, network.budget));
    }

    /** POST /:id/tracks. */
    method AddTrack(dist: Distance, networkId: string, body: TrackBody, newId: string) returns (reply: Reply<TrackCreated>)
      requires Valid()
      modifies this
      ensures Valid()
      ensures networkId !in old(docs) ==> reply == NotFound && docs == old(docs)
      ensures networkId in old(docs) ==>
        var n := old(docs)[networkId];
        var costs := TrackCost(dist, TrackRequestOf(body));
        if costs.Err? then
          reply == BadRequest(costs.error) && docs == old(docs)
        else
          var track := TrackRecord(body, newId, costs.value);
          if n.budget < track.cost then
            reply == InsufficientBudget && docs == old(docs)
          else
            var n' := n.(budget := n.budget - track.cost, tracks := n.tracks + [track]);
            docs == old(docs)[networkId := n'] && reply == Created(TrackCreated(track, n'.budget))
    {
      if networkId !in docs {
        return NotFound;
      }
      var network := docs[networkId];
      var costResp := TrackCost(dist, TrackRequestOf(body));
      if costResp.Err? {
        return BadRequest(costResp.error);
      }
      var track := TrackRecord(body, newId, costResp.value);
      if network.budget < track.cost {
        return InsufficientBudget;
      }
      NetworkValueAppendTrack(network.stations, network.tracks, network.crossovers, track);
      network := network.(budget := network.budget - track.cost);
      network := network.(tracks := network.tracks + [track]);
      docs := docs[networkId := network];
      reply := Created(TrackCreated(track, network.budget));
    }
  }

  /** The first scenario: a fresh network pays 30,000,000 for a regional
      station of 5 platforms and keeps 970,000,000. */
  method RegionalStationScenario(name: string, location: Coordinates)
    returns (reply: Reply<StationCreated>, again: Reply<StationCreated>)
    ensures reply.Created? && reply.body.budget == 970000000.0 && reply.body.station.cost == 30000000.0
    ensures again == NotFound
  {
    var store := new NetworkStore();
    var init := store.Init("net-1", None, Some("benelux"));
    assert store.docs["net-1"].budget == 1000000000.0;
    var body := StationBody(name, location, 5, Regional, NoFacilities, None, Some(1.0));
    RegionalStationExample();
    reply := store.AddStation("net-1", body, "station-1");
    assert reply.Created? && reply.body.budget == 970000000.0;
    assert store.docs["net-1"].stations == [StationRecord(body, "station-1", 30000000)];
    again := store.AddStation("net-2", body, "station-2");
    assert again == NotFound;
  }
}
