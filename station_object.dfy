/** A station of the C++ game (src/Station.cpp): a waiting-passenger count
    and the lines that call at it. */
module StationObjects {

  import opened Common

  const BuildCost: int := 5000
  const MaintenanceCost: int := 100

  class Station {
    const id: int
    const lat: real
    const lon: real
    const name: string
    var passengerCount: int
    var buildCost: int
    var maintenanceCost: int
    var connectedLines: seq<int>

    constructor (id: int, lat: real, lon: real, name: string)
      ensures this.id == id && this.lat == lat && this.lon == lon && this.name == name
      ensures passengerCount == 0 && buildCost == BuildCost && maintenanceCost == MaintenanceCost
      ensures connectedLines == []
    {
      this.id := id;
      this.lat := lat;
      this.lon := lon;
      this.name := name;
      passengerCount := 0;
      buildCost := BuildCost;
      maintenanceCost := MaintenanceCost;
      connectedLines := [];
    }

    method AddPassengers(count: int)
      modifies this
      ensures passengerCount == old(passengerCount) + count
      ensures connectedLines == old(connectedLines)
      ensures buildCost == old(buildCost) && maintenanceCost == old(maintenanceCost)
    {
      passengerCount := passengerCount + count;
    }

    /** Takes count passengers away, never going below zero. */
    method RemovePassengers(count: int)
      modifies this
      ensures passengerCount == Max(0, old(passengerCount) - count)
      ensures passengerCount >= 0
      ensures connectedLines == old(connectedLines)
      ensures buildCost == old(buildCost) && maintenanceCost == old(maintenanceCost)
    {
      passengerCount := Max(0, passengerCount - count);
    }

    /** Appends the line, even when it is already connected. */
    method AddConnectedLine(lineId: int)
      modifies this
      ensures connectedLines == old(connectedLines) + [lineId]
      ensures |connectedLines| == |old(connectedLines)| + 1
      ensures passengerCount == old(passengerCount)
      ensures buildCost == old(buildCost) && maintenanceCost == old(maintenanceCost)
    {
      connectedLines := connectedLines + [lineId];
    }
  }

  /** Removing more passengers than wait leaves none, later arrivals count
      from zero, and a line connected twice is listed twice. */
  method PassengerScenario() returns (emptied: int, restored: int)
    ensures emptied == 0 && restored == 30
  {
    var s := new Station(1, 52.37, 4.9, "Amsterdam Centraal");
    s.AddPassengers(10);
    s.RemovePassengers(25);
    emptied := s.passengerCount;
    s.AddPassengers(50);
    s.RemovePassengers(20);
    s.AddPassengers(0);
    restored := s.passengerCount;
    s.AddConnectedLine(3);
    s.AddConnectedLine(3);
    assert s.connectedLines == [3, 3];
  }
}
