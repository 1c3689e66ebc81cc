/** The shuttle of src/Train.cpp: a train running back and forth along one
    line, its position a fraction of the line's length. */
module TrainMotion {

  import opened Common

  /** DEFAULT_SPEED, in km/h. */
  const DefaultSpeed: real := 80.0

  /** The fraction of the line covered in deltaTime seconds at speed km/h. */
  function PositionChange(speed: real, lineLength: real, deltaTime: real): (d: real)
    requires lineLength > 0.0
    ensures speed >= 0.0 && deltaTime >= 0.0 ==> d >= 0.0
  {
    var distancePerSecond := speed / 3600.0;
    var positionChangePerSecond := distancePerSecond / lineLength;
    positionChangePerSecond * deltaTime
  }

  /** Two stretches of time move the train as far as their sum does. */
  lemma PositionChangeAdds(speed: real, lineLength: real, d1: real, d2: real)
    requires lineLength > 0.0
    ensures PositionChange(speed, lineLength, d1 + d2)
         == PositionChange(speed, lineLength, d1) + PositionChange(speed, lineLength, d2)
  {
    var k := speed / 3600.0 / lineLength;
    assert k * (d1 + d2) == k * d1 + k * d2;
  }

  class Train {
    const id: int
    const lineId: int
    const capacity: int
    var position: real
    var movingForward: bool
    var passengerCount: int
    var speed: real

    constructor (id: int, lineId: int, capacity: int)
      ensures this.id == id && this.lineId == lineId && this.capacity == capacity
      ensures position == 0.0 && movingForward && passengerCount == 0 && speed == DefaultSpeed
    {
      this.id := id;
      this.lineId := lineId;
      this.capacity := capacity;
      position := 0.0;
      movingForward := true;
      passengerCount := 0;
      speed := DefaultSpeed;
    }

    /** Moves the train along a line of lineLength km; at either end it
        stops at the end and turns round. A line of no length is ignored. */
    method Update(deltaTime: real, lineLength: real)
      modifies this
      ensures passengerCount == old(passengerCount) && speed == old(speed)
      ensures lineLength <= 0.0 ==> position == old(position) && movingForward == old(movingForward)
      ensures lineLength > 0.0 ==>
                var moved := if old(movingForward) then old(position) + PositionChange(speed, lineLength, deltaTime)
                             else old(position) - PositionChange(speed, lineLength, deltaTime);
                var clamped := if old(movingForward) then moved >= 1.0 else moved <= 0.0;
                position == (if !clamped then moved else if old(movingForward) then 1.0 else 0.0)
                && movingForward == (if clamped then !old(movingForward) else old(movingForward))
      ensures lineLength > 0.0 && deltaTime >= 0.0 && old(speed) >= 0.0 && 0.0 <= old(position) <= 1.0 ==>
                0.0 <= position <= 1.0
    {
      if lineLength <= 0.0 {
        return;
      }
      var distancePerSecond := speed / 3600.0;
      var positionChangePerSecond := distancePerSecond / lineLength;
      var positionChange := positionChangePerSecond * deltaTime;
      if movingForward {
        position := position + positionChange;
        if position >= 1.0 {
          position := 1.0;
          Reverse();
        }
      } else {
        position := position - positionChange;
        if position <= 0.0 {
          position := 0.0;
          Reverse();
        }
      }
    }

    method Reverse()
      modifies this
      ensures movingForward == !old(movingForward)
      ensures position == old(position) && passengerCount == old(passengerCount) && speed == old(speed)
    {
      movingForward := !movingForward;
    }

    /** Boards as many of count as there is room for. */
    method BoardPassengers(count: int)
      modifies this
      ensures passengerCount == old(passengerCount) + Min(count, capacity - old(passengerCount))
      ensures old(passengerCount) <= capacity ==> passengerCount <= capacity
      ensures count >= 0 && old(passengerCount) <= capacity ==> old(passengerCount) <= passengerCount
      ensures position == old(position) && movingForward == old(movingForward) && speed == old(speed)
    {
      var available := capacity - passengerCount;
      passengerCount := passengerCount + Min(count, available);
    }

    method DisembarkPassengers(count: int)
      modifies this
      ensures passengerCount == Max(0, old(passengerCount) - count)
      ensures passengerCount >= 0
      ensures count >= 0 && old(passengerCount) >= 0 ==> passengerCount <= old(passengerCount)
      ensures position == old(position) && movingForward == old(movingForward) && speed == old(speed)
    {
      passengerCount := Max(0, passengerCount - count);
    }
  }

  /** Two reversals, and a full load followed by unloading everyone, return
      the train to where it was. */
  method ShuttleScenario() returns (atEnd: bool, load: int)
    ensures atEnd && load == 0
  {
    var t := new Train(1, 7, 100);
    t.Reverse();
    t.Reverse();
    assert t.movingForward;
    t.Update(4500.0, 100.0);
    assert PositionChange(80.0, 100.0, 4500.0) == 1.0;
    atEnd := t.position == 1.0 && !t.movingForward;
    t.BoardPassengers(150);
    assert t.passengerCount == 100;
    t.DisembarkPassengers(120);
    load := t.passengerCount;
  }
}
