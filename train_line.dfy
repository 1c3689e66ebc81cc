/** A line between two stations of the C++ game (src/TrainLine.cpp): its
    length, its costs, and the ids of the trains running on it. */
module TrainLines {

  import opened Common

  const CostPerKm: real := 1000.0
  const MaintenancePerKm: real := 10.0

  /** s without its first occurrence of x; s itself when x does not occur. */
  function RemoveFirst(s: seq<int>, x: int): (r: seq<int>)
    ensures |r| == |s| || |r| == |s| - 1
    decreases |s|
  {
    if |s| == 0 then []
    else if s[0] == x then s[1..]
    else [s[0]] + RemoveFirst(s[1..], x)
  }

  /** Index of the first occurrence of x, or |s| when there is none. */
  function FirstIndex(s: seq<int>, x: int): (k: nat)
    ensures k <= |s|
    ensures forall j :: 0 <= j < k ==> s[j] != x
    ensures k < |s| ==> s[k] == x
    decreases |s|
  {
    if |s| == 0 then 0
    else if s[0] == x then 0
    else 1 + FirstIndex(s[1..], x)
  }

  /** Removing the first occurrence cuts exactly that slot out: the ids before
      it and after it keep their order. */
  lemma {:induction false} RemoveFirstCutsFirstOccurrence(s: seq<int>, x: int)
    ensures var k := FirstIndex(s, x);
            RemoveFirst(s, x) == if k == |s| then s else s[..k] + s[k + 1..]
    decreases |s|
  {
    if |s| > 0 && s[0] != x {
      RemoveFirstCutsFirstOccurrence(s[1..], x);
      var k := FirstIndex(s[1..], x);
      if k < |s[1..]| {
        assert [s[0]] + (s[1..][..k] + s[1..][k + 1..]) == s[..k + 1] + s[k + 2..];
      } else {
        assert [s[0]] + s[1..] == s;
      }
    }
  }

  /** An absent id leaves the list as it is; a present one shortens it by
      one and lowers its count by one, leaving every other count alone. */
  lemma {:induction false} RemoveFirstCounts(s: seq<int>, x: int)
    ensures x !in s ==> RemoveFirst(s, x) == s
    ensures x in s ==> |RemoveFirst(s, x)| == |s| - 1
    ensures x in s ==> multiset(RemoveFirst(s, x)) == multiset(s) - multiset{x}
  {
    RemoveFirstCutsFirstOccurrence(s, x);
    var k := FirstIndex(s, x);
    if k < |s| {
      var before, after := s[..k], s[k + 1..];
      assert RemoveFirst(s, x) == before + after;
      assert s == before + [x] + after;
      assert multiset(s) == multiset(before) + multiset{x} + multiset(after);
      assert multiset(before + after) == multiset(before) + multiset(after);
    } else {
      assert RemoveFirst(s, x) == s;
      assert x !in s;
    }
  }

  class TrainLine {
    const id: int
    const station1Id: int
    const station2Id: int
    var length: real
    var trains: seq<int>

    constructor (id: int, station1Id: int, station2Id: int)
      ensures this.id == id && this.station1Id == station1Id && this.station2Id == station2Id
      ensures length == 0.0 && trains == []
    {
      this.id := id;
      this.station1Id := station1Id;
      this.station2Id := station2Id;
      length := 0.0;
      trains := [];
    }

    method SetLength(len: real)
      modifies this
      ensures length == len && trains == old(trains)
    {
      length := len;
    }

    /** (int)(length × 1000): truncation towards zero. */
    function GetBuildCost(): (cost: int)
      reads this
      ensures length >= 0.0 ==> 0 <= cost && cost as real <= length * CostPerKm < cost as real + 1.0
    {
      Trunc(length * CostPerKm)
    }

    /** (int)(length × 10). */
    function GetMaintenanceCost(): (cost: int)
      reads this
      ensures length >= 0.0 ==> 0 <= cost && cost as real <= length * MaintenancePerKm < cost as real + 1.0
    {
      Trunc(length * MaintenancePerKm)
    }

    method AddTrain(trainId: int)
      modifies this
      ensures trains == old(trains) + [trainId] && length == old(length)
    {
      trains := trains + [trainId];
    }

    /** The iterator loop of removeTrain: erase at the first match, then stop. */
    method RemoveTrain(trainId: int)
      modifies this
      ensures trains == RemoveFirst(old(trains), trainId) && length == old(length)
    {
      var i := 0;
      while i < |trains|
        invariant 0 <= i <= |trains|
        invariant trains == old(trains)
        invariant forall j :: 0 <= j < i ==> trains[j] != trainId
        invariant RemoveFirst(trains, trainId) == trains[..i] + RemoveFirst(trains[i..], trainId)
      {
        if trains[i] == trainId {
          trains := trains[..i] + trains[i + 1..];
          assert trains == old(trains)[..i] + RemoveFirst(old(trains)[i..], trainId);
          return;
        }
        assert trains[i..] == [trains[i]] + trains[i + 1..];
        assert trains[..i + 1] == trains[..i] + [trains[i]];
        i := i + 1;
      }
      assert trains[i..] == [];
    }
  }

  /** A longer line never costs less to build; a 2.5 km line costs 2,500. */
  lemma BuildCostMonotone(l1: real, l2: real)
    requires 0.0 <= l1 <= l2
    ensures Trunc(l1 * CostPerKm) <= Trunc(l2 * CostPerKm)
    ensures Trunc(2.5 * CostPerKm) == 2500 && Trunc(2.5 * MaintenancePerKm) == 25
  {
  }
}
