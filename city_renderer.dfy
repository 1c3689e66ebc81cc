/** The procedural city of src/CityRenderer.cpp: district colours, the
    district tiers generateDistricts lays out, and the roads generateRoads
    draws between nearby districts. The random draws are a parameter. */
module CityRendering {

  import opened Common

  datatype District = District(lat: real, lon: real, radius: real, population: int, name: string)

  /** importance: 1 highway, 2 major road, 3 minor road. */
  datatype Road = Road(lat1: real, lon1: real, lat2: real, lon2: real, importance: int)

  datatype Color = Color(r: int, g: int, b: int, a: int)

  /** static_cast<Uint8>: the value modulo 256. */
  function ToUint8(n: int): (b: int)
    ensures 0 <= b < 256
    ensures 0 <= n < 256 ==> b == n
  {
    n % 256
  }

  /** Population density on a 0..255 scale: a thousand inhabitants a step. */
  function Density(population: int): (d: int)
    ensures d <= 255
    ensures population >= 0 ==> 0 <= d && d * 1000 <= population
    ensures population >= 0 ==> d == 255 || population < (d + 1) * 1000
    ensures population >= 255000 ==> d == 255
  {
    Min(255, CDiv(population, 1000))
  }

  /** getColor: the denser the district, the darker its grey-blue. */
  function GetColor(d: District): (c: Color)
    ensures c.a == 255
    ensures d.population >= 0 ==>
              c.r == 200 - Density(d.population) / 2 && c.g == c.r
              && c.b == 220 - Density(d.population) / 3
              && 72 <= c.r <= 200 && 135 <= c.b <= 220
  {
    var density := Density(d.population);
    Color(ToUint8(200 - CDiv(density, 2)), ToUint8(200 - CDiv(density, 2)), ToUint8(220 - CDiv(density, 3)), 255)
  }

  /** More inhabitants never give a lighter colour. */
  lemma DenserIsDarker(d1: District, d2: District)
    requires 0 <= d1.population <= d2.population
    ensures GetColor(d2).r <= GetColor(d1).r && GetColor(d2).b <= GetColor(d1).b
  {
    var p1, p2 := d1.population, d2.population;
    assert p1 / 1000 <= p2 / 1000;
  }

  /** A city of a quarter million is as dark as density 250 makes it; from
      255,000 on the colour no longer changes. */
  lemma ColorExamples()
    ensures GetColor(District(0.0, 0.0, 1.0, 250000, "City 1")) == Color(75, 75, 137, 255)
    ensures GetColor(District(0.0, 0.0, 1.0, 5000000, "City 1")) == Color(73, 73, 135, 255)
  {
  }

  // ---------------------------------------------------------------- generateDistricts

  datatype Tier = MajorCity | Suburb | Town

  /** One random draw: a position and a population. */
  datatype Sample = Sample(lat: real, lon: real, population: int)

  /** numMajorCities: twice the box's area in square degrees, truncated, and at least 3. */
  function NumMajorCities(latRange: real, lonRange: real): (n: int)
    ensures n >= 3
  {
    Max(3, Trunc(latRange * lonRange * 2.0))
  }

  function TierCount(tier: Tier, majorCities: int): int
  {
    match tier
    case MajorCity => majorCities
    case Suburb => majorCities * 2
    case Town => majorCities * 3
  }

  function TierRadius(tier: Tier, latRange: real): real
  {
    match tier
    case MajorCity => 5.0 + latRange * 20.0
    case Suburb => 3.0 + latRange * 10.0
    case Town => 2.0 + latRange * 5.0
  }

  function TierLabel(tier: Tier): string
  {
    match tier
    case MajorCity => "City "
    case Suburb => "Suburb "
    case Town => "Town "
  }

  /** The i-th district of a tier, from the i-th draw of that tier. */
  function MakeDistrict(tier: Tier, i: nat, latRange: real, draw: (Tier, nat) -> Sample): District
  {
    var s := draw(tier, i);
    District(s.lat, s.lon, TierRadius(tier, latRange), s.population, TierLabel(tier) + NatToString(i + 1))
  }

  /** The districts one of generateDistricts' loops pushes, in order. */
  function TierDistricts(tier: Tier, count: nat, latRange: real, draw: (Tier, nat) -> Sample): (ds: seq<District>)
    ensures |ds| == count
    ensures forall i :: 0 <= i < count ==> ds[i] == MakeDistrict(tier, i, latRange, draw)
  {
    seq(count, i requires 0 <= i < count => MakeDistrict(tier, i, latRange, draw))
  }

  /** Everything generateDistricts pushes for a box. */
  function Districts(minLat: real, maxLat: real, minLon: real, maxLon: real, draw: (Tier, nat) -> Sample): seq<District>
  {
    var n := NumMajorCities(maxLat - minLat, maxLon - minLon);
    TierDistricts(MajorCity, n, maxLat - minLat, draw)
      + TierDistricts(Suburb, 2 * n, maxLat - minLat, draw)
      + TierDistricts(Town, 3 * n, maxLat - minLat, draw)
  }

  /** Six districts per major city, so at least eighteen; the cities come
      first, then the suburbs, then the towns. */
  lemma DistrictCounts(minLat: real, maxLat: real, minLon: real, maxLon: real, draw: (Tier, nat) -> Sample)
    ensures var n := NumMajorCities(maxLat - minLat, maxLon - minLon);
            var ds := Districts(minLat, maxLat, minLon, maxLon, draw);
            |ds| == 6 * n && |ds| >= 18
            && (forall i :: 0 <= i < n ==> ds[i].radius == TierRadius(MajorCity, maxLat - minLat))
            && (forall i :: n <= i < 3 * n ==> ds[i].radius == TierRadius(Suburb, maxLat - minLat))
            && (forall i :: 3 * n <= i < 6 * n ==> ds[i].radius == TierRadius(Town, maxLat - minLat))
  {
    var n := NumMajorCities(maxLat - minLat, maxLon - minLon);
    var r := maxLat - minLat;
    var c, s, t := TierDistricts(MajorCity, n, r, draw), TierDistricts(Suburb, 2 * n, r, draw), TierDistricts(Town, 3 * n, r, draw);
    var ds := c + s + t;
    assert ds == Districts(minLat, maxLat, minLon, maxLon, draw);
    forall i | 0 <= i < n
      ensures ds[i].radius == TierRadius(MajorCity, r)
    {
      assert ds[i] == c[i];
    }
    forall i | n <= i < 3 * n
      ensures ds[i].radius == TierRadius(Suburb, r)
    {
      assert ds[i] == s[i - n];
    }
    forall i | 3 * n <= i < 6 * n
      ensures ds[i].radius == TierRadius(Town, r)
    {
      assert ds[i] == t[i - 3 * n];
    }
  }

  // ---------------------------------------------------------------- generateRoads

  /** dist < 0.5 with dist the square root of the squared differences, i.e.
      the squared distance is below 0.25. */
  predicate Near(a: District, b: District)
  {
    (a.lat - b.lat) * (a.lat - b.lat) + (a.lon - b.lon) * (a.lon - b.lon) < 0.25
  }

  /** Highways join more than 400,000 inhabitants, major roads more than
      100,000, minor roads the rest. */
  function RoadImportance(totalPop: int): (importance: int)
    ensures importance == 1 <==> totalPop > 400000
    ensures importance == 2 <==> 100000 < totalPop <= 400000
    ensures importance == 3 <==> totalPop <= 100000
  {
    if totalPop > 400000 then 1 else if totalPop > 100000 then 2 else 3
  }

  /** A larger population never gets a lesser road. */
  lemma ImportanceMonotone(p1: int, p2: int)
    requires p1 <= p2
    ensures RoadImportance(p2) <= RoadImportance(p1)
  {
  }

  function RoadFor(a: District, b: District): Road
  {
    Road(a.lat, a.lon, b.lat, b.lon, RoadImportance(a.population + b.population))
  }

  /** The roads from district i to districts i+1 .. j-1. */
  function RowUpTo(ds: seq<District>, i: nat, j: nat): seq<Road>
    requires i < |ds| && j <= |ds|
    decreases j
  {
    if j <= i + 1 then []
    else RowUpTo(ds, i, j - 1) + (if Near(ds[i], ds[j - 1]) then [RoadFor(ds[i], ds[j - 1])] else [])
  }

  /** The roads of the first i rows of the pair loop. */
  function RoadsBefore(ds: seq<District>, i: nat): seq<Road>
    requires i <= |ds|
  {
    if i == 0 then [] else RoadsBefore(ds, i - 1) + RowUpTo(ds, i - 1, |ds|)
  }

  /** r is the road generateRoads draws for the nearby pair a < k. */
  predicate JoinedBy(ds: seq<District>, a: int, k: int, r: Road)
  {
    0 <= a < k < |ds| && Near(ds[a], ds[k]) && r == RoadFor(ds[a], ds[k])
  }

  /** A road of row i joins i to a later, nearby district, and each such
      district gives one. */
  lemma {:induction false} RowUpToMembers(ds: seq<District>, i: nat, j: nat, r: Road)
    requires i < |ds| && j <= |ds|
    ensures r in RowUpTo(ds, i, j) <==> exists k :: k < j && JoinedBy(ds, i, k, r)
    decreases j
  {
    if j > i + 1 {
      RowUpToMembers(ds, i, j - 1, r);
      if JoinedBy(ds, i, j - 1, r) {
        assert r in RowUpTo(ds, i, j);
      }
    }
  }

  /** Every road of the first i rows joins a nearby pair a < k with a < i. */
  lemma {:induction false} RoadsBeforeSound(ds: seq<District>, i: nat, r: Road)
    requires i <= |ds| && r in RoadsBefore(ds, i)
    ensures exists a, k :: a < i && JoinedBy(ds, a, k, r)
  {
    var earlier, row := RoadsBefore(ds, i - 1), RowUpTo(ds, i - 1, |ds|);
    assert RoadsBefore(ds, i) == earlier + row;
    if r in earlier {
      RoadsBeforeSound(ds, i - 1, r);
      var a, k :| a < i - 1 && JoinedBy(ds, a, k, r);
      assert a < i && JoinedBy(ds, a, k, r);
    } else {
      assert r in row;
      RowUpToMembers(ds, i - 1, |ds|, r);
      var k :| k < |ds| && JoinedBy(ds, i - 1, k, r);
      assert i - 1 < i && JoinedBy(ds, i - 1, k, r);
    }
  }

  /** The road of every nearby pair a < k with a < i is among the first i rows. */
  lemma {:induction false} RoadsBeforeComplete(ds: seq<District>, i: nat, a: int, k: int, r: Road)
    requires i <= |ds| && a < i && JoinedBy(ds, a, k, r)
    ensures r in RoadsBefore(ds, i)
  {
    var earlier, row := RoadsBefore(ds, i - 1), RowUpTo(ds, i - 1, |ds|);
    assert RoadsBefore(ds, i) == earlier + row;
    if a < i - 1 {
      RoadsBeforeComplete(ds, i - 1, a, k, r);
      assert r in earlier;
    } else {
      RowUpToMembers(ds, i - 1, |ds|, r);
      assert k < |ds| && JoinedBy(ds, i - 1, k, r);
      assert r in row;
    }
  }

  /** The roads of the whole loop are exactly those of the nearby pairs
      i < j, each unordered pair looked at once. */
  lemma RoadsBeforeMembers(ds: seq<District>, i: nat, r: Road)
    requires i <= |ds|
    ensures r in RoadsBefore(ds, i) <==> exists a, k :: a < i && JoinedBy(ds, a, k, r)
  {
    if r in RoadsBefore(ds, i) {
      RoadsBeforeSound(ds, i, r);
    }
    if exists a, k :: a < i && JoinedBy(ds, a, k, r) {
      var a, k :| a < i && JoinedBy(ds, a, k, r);
      RoadsBeforeComplete(ds, i, a, k, r);
    }
  }

  /** Row i holds at most one road per later district. */
  lemma {:induction false} RowUpToLength(ds: seq<District>, i: nat, j: nat)
    requires i < |ds| && j <= |ds|
    ensures |RowUpTo(ds, i, j)| <= if j <= i + 1 then 0 else j - i - 1
    decreases j
  {
    if j > i + 1 {
      RowUpToLength(ds, i, j - 1);
    }
  }

  /** Pushing three runs one after the other appends their concatenation. */
  lemma AppendThree<T>(d: seq<T>, a: seq<T>, b: seq<T>, c: seq<T>)
    ensures d + a + b + c == d + (a + b + c)
  {
  }

  class CityRenderer {
    var districts: seq<District>
    var roads: seq<Road>

    constructor ()
      ensures districts == [] && roads == []
    {
      districts := [];
      roads := [];
    }

    /** generateCity: clears both lists, then lays out districts and roads. */
    method GenerateCity(countryCode: string, minLat: real, maxLat: real, minLon: real, maxLon: real,
                        draw: (Tier, nat) -> Sample)
      modifies this
      ensures districts == Districts(minLat, maxLat, minLon, maxLon, draw)
      ensures roads == RoadsBefore(districts, |districts|)
    {
      districts := [];
      roads := [];
      GenerateDistricts(minLat, maxLat, minLon, maxLon, draw);
      GenerateRoads();
    }

    /** generateDistricts: the three tier loops push onto the list. */
    method GenerateDistricts(minLat: real, maxLat: real, minLon: real, maxLon: real, draw: (Tier, nat) -> Sample)
      modifies this
      ensures districts == old(districts) + Districts(minLat, maxLat, minLon, maxLon, draw)
      ensures roads == old(roads)
    {
      var latRange := maxLat - minLat;
      var lonRange := maxLon - minLon;
      var numMajorCities := NumMajorCities(latRange, lonRange);
      ghost var cities := TierDistricts(MajorCity, numMajorCities, latRange, draw);
      ghost var suburbs := TierDistricts(Suburb, 2 * numMajorCities, latRange, draw);
      ghost var towns := TierDistricts(Town, 3 * numMajorCities, latRange, draw);
      assert Districts(minLat, maxLat, minLon, maxLon, draw) == cities + suburbs + towns;
      PushTier(MajorCity, numMajorCities, latRange, draw);
      PushTier(Suburb, 2 * numMajorCities, latRange, draw);
      PushTier(Town, 3 * numMajorCities, latRange, draw);
      AppendThree(old(districts), cities, suburbs, towns);
    }

    /** One of generateDistricts' loops. */
    method PushTier(tier: Tier, count: nat, latRange: real, draw: (Tier, nat) -> Sample)
      modifies this
      ensures districts == old(districts) + TierDistricts(tier, count, latRange, draw)
      ensures roads == old(roads)
    {
      var i := 0;
      while i < count
        invariant 0 <= i <= count
        invariant districts == old(districts) + TierDistricts(tier, i, latRange, draw)
        invariant roads == old(roads)
      {
        districts := districts + [MakeDistrict(tier, i, latRange, draw)];
        i := i + 1;
      }
    }

    /** generateRoads: every pair i < j once, pushing a road between nearby districts. */
    method GenerateRoads()
      modifies this
      ensures roads == old(roads) + RoadsBefore(districts, |districts|)
      ensures districts == old(districts)
    {
      var i := 0;
      while i < |districts|
        invariant 0 <= i <= |districts|
        invariant districts == old(districts)
        invariant roads == old(roads) + RoadsBefore(districts, i)
      {
        var j := i + 1;
        while j < |districts|
          invariant i + 1 <= j <= |districts|
          invariant districts == old(districts)
          invariant roads == old(roads) + RoadsBefore(districts, i) + RowUpTo(districts, i, j)
        {
          if Near(districts[i], districts[j]) {
            roads := roads + [RoadFor(districts[i], districts[j])];
          }
          assert RowUpTo(districts, i, j + 1) == RowUpTo(districts, i, j)
            + (if Near(districts[i], districts[j]) then [RoadFor(districts[i], districts[j])] else []);
          j := j + 1;
        }
        assert RoadsBefore(districts, i + 1) == RoadsBefore(districts, i) + RowUpTo(districts, i, |districts|);
        i := i + 1;
      }
    }
  }
}
