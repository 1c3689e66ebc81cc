/** The mode-share simulation of src/lib/simulation.ts: the bounded search
    for the nearest track and the guard of computeModeShare. */
module Simulation {

  import opened Common
  import opened GridState

  /** The search radius, in cells. */
  const Radius: int := 6

  /** distanceToTrack's result: a Manhattan distance, or Infinity. */
  datatype Proximity = Within(d: nat) | Infinity

  function Abs(n: int): nat
  {
    if n < 0 then -n else n
  }

  /** `d < best` on numbers extended with Infinity. */
  predicate Closer(d: nat, best: Proximity)
  {
    best.Infinity? || d < best.d
  }

  /** The cell (x, y) lies on the grid and has a track; a cell missing from
      the array has none. */
  predicate TrackAt(g: Grid, x: int, y: int)
  {
    0 <= x < g.cols && 0 <= y < g.rows
    && var c := CellAt(g, y * g.cols + x); c.Some? && c.value.track
  }

  /** A track cell at offset (dx, dy) inside the search window. */
  predicate InWindow(g: Grid, x: int, y: int, dx: int, dy: int)
  {
    -Radius <= dx <= Radius && -Radius <= dy <= Radius && TrackAt(g, x + dx, y + dy)
  }

  /** distanceToTrack: scans the 13 × 13 window row by row, skipping rows
      off the grid, and keeps the least Manhattan distance to a track. */
  method DistanceToTrack(g: Grid, x: int, y: int) returns (best: Proximity)
    ensures best.Infinity? <==> forall dx, dy :: !InWindow(g, x, y, dx, dy)
    ensures best.Within? ==>
              (exists dx, dy :: InWindow(g, x, y, dx, dy) && Abs(dx) + Abs(dy) == best.d)
              && forall dx, dy :: InWindow(g, x, y, dx, dy) ==> best.d <= Abs(dx) + Abs(dy)
  {
    best := Infinity;
    ghost var wx, wy := 0, 0;
    var dy := -Radius;
    while dy <= Radius
      invariant -Radius <= dy <= Radius + 1
      invariant forall ddx, ddy :: ddy < dy && InWindow(g, x, y, ddx, ddy) ==>
                  best.Within? && best.d <= Abs(ddx) + Abs(ddy)
      invariant best.Within? ==> InWindow(g, x, y, wx, wy) && Abs(wx) + Abs(wy) == best.d
    {
      var yy := y + dy;
      if 0 <= yy < g.rows {
        best, wx, wy := ScanRow(g, x, y, dy, best, wx, wy);
      }
      dy := dy + 1;
    }
  }

  /** The inner loop of distanceToTrack over one row of the window: skips
      cells off the grid and lowers `best` to any closer track. */
  method ScanRow(g: Grid, x: int, y: int, dy: int, best0: Proximity, ghost wx0: int, ghost wy0: int)
    returns (best: Proximity, ghost wx: int, ghost wy: int)
    requires -Radius <= dy <= Radius && 0 <= y + dy < g.rows
    requires best0.Within? ==> InWindow(g, x, y, wx0, wy0) && Abs(wx0) + Abs(wy0) == best0.d
    ensures best.Within? ==> InWindow(g, x, y, wx, wy) && Abs(wx) + Abs(wy) == best.d
    ensures best0.Within? ==> best.Within? && best.d <= best0.d
    ensures forall ddx :: InWindow(g, x, y, ddx, dy) ==> best.Within? && best.d <= Abs(ddx) + Abs(dy)
  {
    best, wx, wy := best0, wx0, wy0;
    var yy := y + dy;
    var dx := -Radius;
    while dx <= Radius
      invariant -Radius <= dx <= Radius + 1
      invariant forall ddx :: ddx < dx && InWindow(g, x, y, ddx, dy) ==> best.Within? && best.d <= Abs(ddx) + Abs(dy)
      invariant best.Within? ==> InWindow(g, x, y, wx, wy) && Abs(wx) + Abs(wy) == best.d
      invariant best0.Within? ==> best.Within? && best.d <= best0.d
    {
      var xx := x + dx;
      if 0 <= xx < g.cols {
        var cell := CellAt(g, yy * g.cols + xx);
        if cell.Some? && cell.value.track {
          var d := Abs(dx) + Abs(dy);
          if Closer(d, best) {
            best := Within(d);
            wx, wy := dx, dy;
          }
        }
      }
      dx := dx + 1;
    }
  }

  /** A found distance is at most 12, and it is 0 exactly when the cell
      itself carries a track. */
  lemma WithinWindowBounds(g: Grid, x: int, y: int, best: Proximity)
    requires best.Infinity? <==> forall dx, dy :: !InWindow(g, x, y, dx, dy)
    requires best.Within? ==>
               (exists dx, dy :: InWindow(g, x, y, dx, dy) && Abs(dx) + Abs(dy) == best.d)
               && forall dx, dy :: InWindow(g, x, y, dx, dy) ==> best.d <= Abs(dx) + Abs(dy)
    ensures best.Within? ==> best.d <= 2 * Radius
    ensures best == Within(0) <==> TrackAt(g, x, y)
  {
    if best.Within? {
      var dx, dy :| InWindow(g, x, y, dx, dy) && Abs(dx) + Abs(dy) == best.d;
      if best.d == 0 {
        assert dx == 0 && dy == 0;
        assert x + dx == x && y + dy == y;
      }
    }
    if TrackAt(g, x, y) {
      assert InWindow(g, x, y, 0, 0);
    }
  }

  /** A cell three columns to the right of the only track is at distance 3;
      on an empty grid nothing is in range. */
  method DistanceExamples() returns (near: Proximity, none: Proximity)
    ensures near == Within(3) && none == Infinity
  {
    var plain := Cell(false, 0.5, 0.5, Shares(0.25, 0.25, 0.25, 0.25));
    var g := Grid(4, 1, [plain.(track := true), plain, plain, plain]);
    near := DistanceToTrack(g, 3, 0);
    assert InWindow(g, 3, 0, -3, 0);
    forall dx, dy | InWindow(g, 3, 0, dx, dy)
      ensures Abs(dx) + Abs(dy) >= 3
    {
      assert 3 + dx == 0 && dy == 0;
    }
    var empty := Grid(4, 1, [plain, plain, plain, plain]);
    none := DistanceToTrack(empty, 0, 0);
  }

  // ---------------------------------------------------------------- computeModeShare

  /** computeModeShare's answer; NotANumber is what the divisions give when
      the shares before normalising add up to 0. */
  datatype ModeShare = ModeShare(drivers: real, walkers: real, train: real, bike: real) | NotANumber

  /** Math.max(0, 1 − proximity / 6): full next to a track, fading to 0 at
      six cells, and 0 for Infinity. */
  function TransitBoost(p: Proximity): (b: real)
    ensures 0.0 <= b <= 1.0
    ensures p == Within(0) ==> b == 1.0
    ensures p.Infinity? || p.d >= Radius ==> b == 0.0
  {
    match p
    case Infinity => 0.0
    case Within(d) => MaxR(0.0, 1.0 - d as real / 6.0)
  }

  /** The base preferences after a share `shift` moves towards the train:
      drivers lose 0.8 of it (never below 0), walkers and bikes gain 0.1 each. */
  function Shifted(b: Shares, shift: real): Shares
  {
    Shares(MaxR(0.0, b.drivers - shift * 0.8), b.walkers + shift * 0.1, b.train + shift, b.bike + shift * 0.1)
  }

  /** Shifting a non-negative share keeps every preference non-negative and
      never lowers their total: the train gains what the drivers lose and more. */
  lemma ShiftKeepsShares(b: Shares, shift: real)
    requires shift >= 0.0
    requires b.drivers >= 0.0 && b.walkers >= 0.0 && b.train >= 0.0 && b.bike >= 0.0
    ensures var s := Shifted(b, shift);
            s.drivers >= 0.0 && s.walkers >= 0.0 && s.train >= 0.0 && s.bike >= 0.0
            && Total(s) >= Total(b) && s.train - b.train == shift
  {
  }

  /** The shares of one cell: its base preferences shifted by
      0.35 × boost × pop towards the train, then normalised. */
  function CellShare(c: Cell, proximity: Proximity): ModeShare
  {
    var s := Shifted(c.base, 0.35 * TransitBoost(proximity) * c.pop);
    if Total(s) == 0.0 then NotANumber
    else
      var n := Normalised(s);
      ModeShare(n.drivers, n.walkers, n.train, n.bike)
  }

  /** computeModeShare's shares for the cell at index y * cols + x, given
      its proximity to track: all zeros when there is no cell.
      ComputeModeShareAt supplies the proximity from DistanceToTrack. */
  function ComputeModeShare(g: Grid, x: int, y: int, proximity: Proximity): (r: ModeShare)
    ensures CellAt(g, y * g.cols + x).None? ==> r == ModeShare(0.0, 0.0, 0.0, 0.0)
    ensures CellAt(g, y * g.cols + x).Some? ==> r == CellShare(g.cells[y * g.cols + x], proximity)
  {
    match CellAt(g, y * g.cols + x)
    case None => ModeShare(0.0, 0.0, 0.0, 0.0)
    case Some(c) => CellShare(c, proximity)
  }

  /** p is what DistanceToTrack answers for (x, y): Infinity when the
      window holds no track, else the least distance to one. */
  ghost predicate IsNearestTrack(g: Grid, x: int, y: int, p: Proximity)
  {
    (p.Infinity? <==> forall dx, dy :: !InWindow(g, x, y, dx, dy))
    && (p.Within? ==>
          (exists dx, dy :: InWindow(g, x, y, dx, dy) && Abs(dx) + Abs(dy) == p.d)
          && forall dx, dy :: InWindow(g, x, y, dx, dy) ==> p.d <= Abs(dx) + Abs(dy))
  }

  /** At most one proximity fits, so the search's answer is determined. */
  lemma NearestTrackUnique(g: Grid, x: int, y: int, p: Proximity, q: Proximity)
    requires IsNearestTrack(g, x, y, p) && IsNearestTrack(g, x, y, q)
    ensures p == q
  {
    if p.Within? && q.Within? {
      var pdx, pdy :| InWindow(g, x, y, pdx, pdy) && Abs(pdx) + Abs(pdy) == p.d;
      var qdx, qdy :| InWindow(g, x, y, qdx, qdy) && Abs(qdx) + Abs(qdy) == q.d;
      assert q.d <= p.d;
      assert p.d <= q.d;
    }
  }

  /** computeModeShare: all zeros without a cell; otherwise the cell's shares
      at the proximity distanceToTrack finds. */
  method ComputeModeShareAt(g: Grid, x: int, y: int) returns (r: ModeShare)
    ensures CellAt(g, y * g.cols + x).None? ==> r == ModeShare(0.0, 0.0, 0.0, 0.0)
    ensures CellAt(g, y * g.cols + x).Some? ==>
              exists p :: IsNearestTrack(g, x, y, p) && r == CellShare(g.cells[y * g.cols + x], p)
  {
    if CellAt(g, y * g.cols + x).None? {
      return ModeShare(0.0, 0.0, 0.0, 0.0);
    }
    var proximity := DistanceToTrack(g, x, y);
    assert IsNearestTrack(g, x, y, proximity);
    r := ComputeModeShare(g, x, y, proximity);
  }

  lemma ProductNonNegative(a: real, b: real)
    requires a >= 0.0 && b >= 0.0
    ensures 0.35 * a * b >= 0.0
  {
  }

  /** On a cell with non-negative preferences and population, not all of
      them zero, the shares are fractions that sum to 1. */
  lemma ModeSharesAreFractions(c: Cell, proximity: Proximity)
    requires c.pop >= 0.0 && c.base.drivers >= 0.0 && c.base.walkers >= 0.0
    requires c.base.train >= 0.0 && c.base.bike >= 0.0 && Total(c.base) > 0.0
    ensures var r := CellShare(c, proximity);
            r.ModeShare? && r.drivers >= 0.0 && r.walkers >= 0.0 && r.train >= 0.0 && r.bike >= 0.0
            && r.drivers + r.walkers + r.train + r.bike == 1.0
  {
    var shift := 0.35 * TransitBoost(proximity) * c.pop;
    ProductNonNegative(TransitBoost(proximity), c.pop);
    ShiftKeepsShares(c.base, shift);
  }
}
