/** Route length, bounding boxes and the segment-crossing test of
    backend/src/services/geometry.service.ts. Great-circle distance is a
    parameter: the Haversine formula is not part of this model. */
module Geometry {

  import opened Common
  import opened RailTypes

  /** calculateDistance, in km. */
  type Distance = (Coordinates, Coordinates) -> real

  ghost predicate NonNegative(dist: Distance)
  {
    forall a, b :: dist(a, b) >= 0.0
  }

  /** Sum of the distances between consecutive waypoints; 0 below two points. */
  function PathLength(dist: Distance, w: seq<Coordinates>): (len: real)
    ensures NonNegative(dist) ==> len >= 0.0
    decreases |w|
  {
    if |w| < 2 then 0.0
    else PathLength(dist, w[..|w| - 1]) + dist(w[|w| - 2], w[|w| - 1])
  }

  /** calculateRouteLength: the loop over consecutive pairs. */
  method CalculateRouteLength(dist: Distance, waypoints: seq<Coordinates>) returns (totalLength: real)
    ensures totalLength == PathLength(dist, waypoints)
    ensures |waypoints| < 2 ==> totalLength == 0.0
  {
    if |waypoints| < 2 {
      return 0.0;
    }
    totalLength := 0.0;
    var i := 0;
    while i < |waypoints| - 1
      invariant 0 <= i <= |waypoints| - 1
      invariant totalLength == PathLength(dist, waypoints[..i + 1])
    {
      totalLength := totalLength + dist(waypoints[i], waypoints[i + 1]);
      i := i + 1;
      assert waypoints[..i + 1][..i] == waypoints[..i];
    }
    assert waypoints[..|waypoints|] == waypoints;
  }

  /** Splitting a route at a shared waypoint splits its length. */
  lemma {:induction false} PathLengthSplit(dist: Distance, w: seq<Coordinates>, k: nat)
    requires k < |w|
    ensures PathLength(dist, w) == PathLength(dist, w[..k + 1]) + PathLength(dist, w[k..])
    decreases |w|
  {
    if k == |w| - 1 {
      assert w[..k + 1] == w;
    } else {
      var front := w[..|w| - 1];
      PathLengthSplit(dist, front, k);
      assert front[..k + 1] == w[..k + 1];
      assert w[k..][..|w[k..]| - 1] == front[k..];
    }
  }

  /** Appending one waypoint adds exactly the last leg. */
  lemma PathLengthAppend(dist: Distance, w: seq<Coordinates>, p: Coordinates)
    requires |w| >= 1
    ensures PathLength(dist, w + [p]) == PathLength(dist, w) + dist(w[|w| - 1], p)
  {
    assert (w + [p])[..|w|] == w;
  }

  datatype BBox = BBox(minLat: real, maxLat: real, minLon: real, maxLon: real)

  predicate Inside(p: Coordinates, b: BBox)
  {
    b.minLat <= p.lat <= b.maxLat && b.minLon <= p.lon <= b.maxLon
  }

  predicate WellFormed(b: BBox)
  {
    b.minLat <= b.maxLat && b.minLon <= b.maxLon
  }

  /** One step of getBoundingBox's loop. */
  function Extend(b: BBox, p: Coordinates): BBox
  {
    BBox(MinR(b.minLat, p.lat), MaxR(b.maxLat, p.lat), MinR(b.minLon, p.lon), MaxR(b.maxLon, p.lon))
  }

  /** The box getBoundingBox returns: {0,0,0,0} for no points, otherwise the
      box grown from the first point over all the points in order. */
  function BoxOf(coords: seq<Coordinates>): BBox
    decreases |coords|
  {
    if |coords| == 0 then BBox(0.0, 0.0, 0.0, 0.0)
    else if |coords| == 1 then BBox(coords[0].lat, coords[0].lat, coords[0].lon, coords[0].lon)
    else Extend(BoxOf(coords[..|coords| - 1]), coords[|coords| - 1])
  }

  /** getBoundingBox. */
  method GetBoundingBox(coords: seq<Coordinates>) returns (b: BBox)
    ensures b == BoxOf(coords)
  {
    if |coords| == 0 {
      return BBox(0.0, 0.0, 0.0, 0.0);
    }
    var minLat, maxLat := coords[0].lat, coords[0].lat;
    var minLon, maxLon := coords[0].lon, coords[0].lon;
    for i := 0 to |coords|
      invariant BBox(minLat, maxLat, minLon, maxLon) == BoxOf(coords[..if i == 0 then 1 else i])
    {
      minLat := MinR(minLat, coords[i].lat);
      maxLat := MaxR(maxLat, coords[i].lat);
      minLon := MinR(minLon, coords[i].lon);
      maxLon := MaxR(maxLon, coords[i].lon);
      assert coords[..i + 1][..i] == coords[..i];
    }
    assert coords[..|coords|] == coords;
    b := BBox(minLat, maxLat, minLon, maxLon);
  }

  /** Every input point lies in the box, and a non-empty input gives a
      well-formed box. */
  lemma {:induction false} BoxContainsAll(coords: seq<Coordinates>)
    ensures |coords| > 0 ==> WellFormed(BoxOf(coords))
    ensures forall i :: 0 <= i < |coords| ==> Inside(coords[i], BoxOf(coords))
    decreases |coords|
  {
    if |coords| > 1 {
      var front := coords[..|coords| - 1];
      BoxContainsAll(front);
      forall i | 0 <= i < |coords|
        ensures Inside(coords[i], BoxOf(coords))
      {
        if i < |coords| - 1 {
          assert coords[i] == front[i];
        }
      }
    }
  }

  /** Each bound of a non-empty box is the coordinate of some input point. */
  lemma {:induction false} BoxBoundsAttained(coords: seq<Coordinates>)
    requires |coords| > 0
    ensures exists i :: 0 <= i < |coords| && coords[i].lat == BoxOf(coords).minLat
    ensures exists i :: 0 <= i < |coords| && coords[i].lat == BoxOf(coords).maxLat
    ensures exists i :: 0 <= i < |coords| && coords[i].lon == BoxOf(coords).minLon
    ensures exists i :: 0 <= i < |coords| && coords[i].lon == BoxOf(coords).maxLon
    decreases |coords|
  {
    var n := |coords|;
    if n == 1 {
      assert coords[0].lat == BoxOf(coords).minLat;
      assert coords[0].lat == BoxOf(coords).maxLat;
      assert coords[0].lon == BoxOf(coords).minLon;
      assert coords[0].lon == BoxOf(coords).maxLon;
    } else {
      var front := coords[..n - 1];
      BoxBoundsAttained(front);
      var b := BoxOf(coords);
      var i1 :| 0 <= i1 < n - 1 && front[i1].lat == BoxOf(front).minLat;
      var i2 :| 0 <= i2 < n - 1 && front[i2].lat == BoxOf(front).maxLat;
      var i3 :| 0 <= i3 < n - 1 && front[i3].lon == BoxOf(front).minLon;
      var i4 :| 0 <= i4 < n - 1 && front[i4].lon == BoxOf(front).maxLon;
      var j1 := if b.minLat == coords[n - 1].lat then n - 1 else i1;
      var j2 := if b.maxLat == coords[n - 1].lat then n - 1 else i2;
      var j3 := if b.minLon == coords[n - 1].lon then n - 1 else i3;
      var j4 := if b.maxLon == coords[n - 1].lon then n - 1 else i4;
      assert coords[j1].lat == b.minLat;
      assert coords[j2].lat == b.maxLat;
      assert coords[j3].lon == b.minLon;
      assert coords[j4].lon == b.maxLon;
    }
  }

  /** boundingBoxesOverlap: not separated along latitude nor longitude. */
  predicate BoxesOverlap(b1: BBox, b2: BBox)
  {
    !(b1.maxLat < b2.minLat || b1.minLat > b2.maxLat || b1.maxLon < b2.minLon || b1.minLon > b2.maxLon)
  }

  lemma BoxesOverlapSymmetric(b1: BBox, b2: BBox)
    ensures BoxesOverlap(b1, b2) == BoxesOverlap(b2, b1)
  {
  }

  /** Two well-formed boxes overlap exactly when some point lies in both. */
  lemma OverlapIffSharedPoint(b1: BBox, b2: BBox)
    requires WellFormed(b1) && WellFormed(b2)
    ensures BoxesOverlap(b1, b2) <==> exists p :: Inside(p, b1) && Inside(p, b2)
  {
    if BoxesOverlap(b1, b2) {
      var p := Coordinates(MaxR(b1.minLat, b2.minLat), MaxR(b1.minLon, b2.minLon));
      assert Inside(p, b1) && Inside(p, b2);
    }
  }

  /** The distance-sum heuristic linesIntersect applies once the boxes overlap
      (threshold 0.1 km). */
  predicate CrossDistancesClose(dist: Distance, a1: Coordinates, a2: Coordinates, b1: Coordinates, b2: Coordinates)
  {
    var len1 := dist(a1, a2);
    var len2 := dist(b1, b2);
    (dist(a1, b1) + dist(a2, b2) < len1 + len2 + 0.1) || (dist(a1, b2) + dist(a2, b1) < len1 + len2 + 0.1)
  }

  /** linesIntersect: the bounding-box fast rejection, then the heuristic. */
  method LinesIntersect(dist: Distance, line1Start: Coordinates, line1End: Coordinates,
                        line2Start: Coordinates, line2End: Coordinates) returns (r: bool)
    ensures !BoxesOverlap(BoxOf([line1Start, line1End]), BoxOf([line2Start, line2End])) ==> !r
    ensures BoxesOverlap(BoxOf([line1Start, line1End]), BoxOf([line2Start, line2End])) ==>
              r == CrossDistancesClose(dist, line1Start, line1End, line2Start, line2End)
  {
    var bbox1 := GetBoundingBox([line1Start, line1End]);
    var bbox2 := GetBoundingBox([line2Start, line2End]);
    if !BoxesOverlap(bbox1, bbox2) {
      return false;
    }
    var d1 := dist(line1Start, line2Start);
    var d2 := dist(line1End, line2End);
    var d3 := dist(line1Start, line2End);
    var d4 := dist(line1End, line2Start);
    var len1 := dist(line1Start, line1End);
    var len2 := dist(line2Start, line2End);
    var threshold := 0.1;
    r := (d1 + d2 < len1 + len2 + threshold) || (d3 + d4 < len1 + len2 + threshold);
  }

  /** Segments that share a point are never rejected by the fast path. */
  lemma SharedPointPassesFastPath(a1: Coordinates, a2: Coordinates, b1: Coordinates, b2: Coordinates, p: Coordinates)
    requires p == a1 || p == a2
    requires p == b1 || p == b2
    ensures BoxesOverlap(BoxOf([a1, a2]), BoxOf([b1, b2]))
  {
    BoxContainsAll([a1, a2]);
    BoxContainsAll([b1, b2]);
    assert Inside(p, BoxOf([a1, a2]));
    assert Inside(p, BoxOf([b1, b2]));
    OverlapIffSharedPoint(BoxOf([a1, a2]), BoxOf([b1, b2]));
  }
}
