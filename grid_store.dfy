/** The grid game's store, src/state/store.ts: cells on a cols × rows grid,
    the seeded generator that fills them, and the track toggle. */
module GridState {

  import opened Common

  /** Base travel-mode preferences of a cell. */
  datatype Shares = Shares(drivers: real, walkers: real, train: real, bike: real)

  datatype Cell = Cell(track: bool, pop: real, work: real, base: Shares)

  /** Cells are stored row by row, the cell (x, y) at index y * cols + x. */
  datatype Grid = Grid(cols: int, rows: int, cells: seq<Cell>)

  datatype Tool = TrackTool | EraseTool | PanTool
  datatype Overlay = TransitOverlay | PopulationOverlay | WorkOverlay

  /** grid.cells[i]: undefined (None) outside the array. */
  function CellAt(g: Grid, i: int): (c: Option<Cell>)
    ensures c.Some? <==> 0 <= i < |g.cells|
    ensures c.Some? ==> c.value == g.cells[i]
  {
    if 0 <= i < |g.cells| then Some(g.cells[i]) else None
  }

  // ---------------------------------------------------------------- seededRandom

  const Modulus: int := 233280
  const Multiplier: int := 9301
  const Increment: int := 49297

  /** One step of the generator's state: (seed × 9301 + 49297) % 233280 with
      JavaScript's remainder. */
  function LcgStep(seed: int): (next: int)
    ensures seed >= 0 ==> 0 <= next < Modulus
  {
    JsRem(seed * Multiplier + Increment, Modulus)
  }

  /** A non-negative seed keeps the state in [0, 233280) for ever, so every
      output lies in [0, 1). */
  lemma {:induction false} LcgStaysInRange(seed: int, steps: nat)
    requires seed >= 0
    ensures Iterate(seed, steps) >= 0
    ensures steps > 0 ==> Iterate(seed, steps) < Modulus
    ensures steps > 0 ==> 0.0 <= Iterate(seed, steps) as real / Modulus as real < 1.0
  {
    if steps > 0 {
      LcgStaysInRange(seed, steps - 1);
    }
  }

  /** The state after a number of draws. */
  function Iterate(seed: int, steps: nat): int
  {
    if steps == 0 then seed else LcgStep(Iterate(seed, steps - 1))
  }

  /** The closure seededRandom returns, with its captured seed as a field. */
  class SeededRandom {
    var seed: int

    constructor (seed: int)
      ensures this.seed == seed
    {
      this.seed := seed;
    }

    /** Advances the seed and returns it scaled into [0, 1). */
    method Next() returns (r: real)
      modifies this
      ensures seed == LcgStep(old(seed))
      ensures r == seed as real / Modulus as real
      ensures old(seed) >= 0 ==> 0.0 <= r < 1.0
    {
      seed := LcgStep(seed);
      r := seed as real / Modulus as real;
    }
  }

  /** The first draw of the grid's generator, seeded with 42. */
  lemma FirstDrawFromFortyTwo()
    ensures LcgStep(42) == 206659
    ensures Iterate(42, 2) == LcgStep(206659)
  {
  }

  // ---------------------------------------------------------------- generateGrid

  function Clamp01(v: real): (r: real)
    ensures 0.0 <= r <= 1.0
    ensures 0.0 <= v <= 1.0 ==> r == v
  {
    MaxR(0.0, MinR(1.0, v))
  }

  /** Base preferences that are fractions of one whole. */
  predicate ProperShares(s: Shares)
  {
    s.drivers >= 0.0 && s.walkers >= 0.0 && s.train >= 0.0 && s.bike >= 0.0 && Total(s) == 1.0
  }

  /** generateGrid: one cell per (x, y), row by row, none with track, each
      with base preferences that are fractions summing to 1. The distance to
      the centre, hypot(x - cols/2, y - rows/2) / hypot(cols/2, rows/2), is a
      parameter; for a cell of the grid it lies in [0, 1]. */
  method GenerateGrid(cols: int, rows: int, distToCenter: (int, int) -> real) returns (g: Grid)
    requires forall x, y :: 0 <= x < cols && 0 <= y < rows ==> 0.0 <= distToCenter(x, y) <= 1.0
    ensures g.cols == cols && g.rows == rows
    ensures |g.cells| == Max(0, cols) * Max(0, rows)
    ensures forall i :: 0 <= i < |g.cells| ==> !g.cells[i].track
    ensures forall i :: 0 <= i < |g.cells| ==> 0.0 <= g.cells[i].pop <= 1.0 && 0.0 <= g.cells[i].work <= 1.0
    ensures forall i :: 0 <= i < |g.cells| ==> ProperShares(g.cells[i].base)
  {
    var rand := new SeededRandom(42);
    var cells: seq<Cell> := [];
    var y := 0;
    while y < rows
      invariant rows >= 0 ==> 0 <= y <= rows
      invariant rows < 0 ==> y == 0
      invariant |cells| == y * Max(0, cols)
      invariant rand.seed >= 0
      invariant forall i :: 0 <= i < |cells| ==> !cells[i].track
      invariant forall i :: 0 <= i < |cells| ==> 0.0 <= cells[i].pop <= 1.0 && 0.0 <= cells[i].work <= 1.0
      invariant forall i :: 0 <= i < |cells| ==> ProperShares(cells[i].base)
    {
      var x := 0;
      while x < cols
        invariant cols >= 0 ==> 0 <= x <= cols
        invariant cols < 0 ==> x == 0
        invariant |cells| == y * Max(0, cols) + x
        invariant rand.seed >= 0
        invariant forall i :: 0 <= i < |cells| ==> !cells[i].track
        invariant forall i :: 0 <= i < |cells| ==> 0.0 <= cells[i].pop <= 1.0 && 0.0 <= cells[i].work <= 1.0
        invariant forall i :: 0 <= i < |cells| ==> ProperShares(cells[i].base)
      {
        var cell := NewCell(rand, x, y, distToCenter(x, y));
        cells := cells + [cell];
        x := x + 1;
      }
      assert |cells| == (y + 1) * Max(0, cols);
      y := y + 1;
    }
    g := Grid(cols, rows, cells);
  }

  /** The body of generateGrid's inner loop: seven draws make one cell whose
      base preferences are normalised to sum to 1. */
  method NewCell(rand: SeededRandom, x: int, y: int, distToCenter: real) returns (c: Cell)
    requires rand.seed >= 0 && distToCenter >= 0.0
    modifies rand
    ensures rand.seed >= 0
    ensures !c.track && 0.0 <= c.pop <= 1.0 && 0.0 <= c.work <= 1.0
    ensures Total(c.base) == 1.0
    ensures distToCenter <= 1.0 ==> ProperShares(c.base)
  {
    var n := rand.Next();
    var r1 := rand.Next();
    var r2 := rand.Next();
    var r3 := rand.Next();
    var pop := Clamp01((r1 + r2 + r3) / 3.0);
    var r4 := rand.Next();
    var work := Clamp01(0.8 * (1.0 - distToCenter) + 0.2 * r4);
    var drivers := 0.4 + 0.3 * distToCenter + 0.1 * (n - 0.5);
    var r5 := rand.Next();
    var walkers := 0.15 + 0.1 * (0.5 - distToCenter) + 0.05 * (r5 - 0.5);
    var train := 0.25 + 0.05 * (0.5 - distToCenter);
    var r6 := rand.Next();
    var bike := 0.2 + 0.05 * (r6 - 0.5);
    assert 0.0 <= n < 1.0 && 0.0 <= r5 < 1.0 && 0.0 <= r6 < 1.0;
    assert Total(Shares(drivers, walkers, train, bike)) >= 0.9;
    assert distToCenter <= 1.0 ==> drivers > 0.0 && walkers > 0.0 && train > 0.0 && bike > 0.0;
    c := Cell(false, pop, work, Normalised(Shares(drivers, walkers, train, bike)));
  }

  function Total(s: Shares): real
  {
    s.drivers + s.walkers + s.train + s.bike
  }

  /** Each share divided by their total, so that the result sums to 1. */
  function Normalised(s: Shares): (r: Shares)
    requires Total(s) != 0.0
    ensures Total(r) == 1.0
    ensures Total(s) > 0.0 && s.drivers >= 0.0 && s.walkers >= 0.0 && s.train >= 0.0 && s.bike >= 0.0 ==>
              r.drivers >= 0.0 && r.walkers >= 0.0 && r.train >= 0.0 && r.bike >= 0.0
  {
    var sum := Total(s);
    var r := Shares(s.drivers / sum, s.walkers / sum, s.train / sum, s.bike / sum);
    DivAdds(s.drivers, s.walkers, sum);
    DivAdds(s.drivers + s.walkers, s.train, sum);
    DivAdds(s.drivers + s.walkers + s.train, s.bike, sum);
    r
  }

  lemma DivAdds(a: real, b: real, c: real)
    requires c != 0.0
    ensures a / c + b / c == (a + b) / c
    ensures a + b == c ==> (a + b) / c == 1.0
    ensures a >= 0.0 && c > 0.0 ==> a / c >= 0.0
    ensures b >= 0.0 && c > 0.0 ==> b / c >= 0.0
  {
  }

  // ---------------------------------------------------------------- toggleTrackAt

  /** The grid after toggleTrackAt(x, y, on): the cell at y * cols + x gets
      track `on`, or its negation when `on` is absent; without a cell there
      the grid is unchanged. */
  function Toggled(g: Grid, x: int, y: int, on: Option<bool>): (g': Grid)
    ensures g'.cols == g.cols && g'.rows == g.rows && |g'.cells| == |g.cells|
  {
    var i := y * g.cols + x;
    match CellAt(g, i)
    case None => g
    case Some(c) =>
      var track := if on.Some? then on.value else !c.track;
      g.(cells := g.cells[i := c.(track := track)])
  }

  /** Only the addressed cell changes, and only its track flag. */
  lemma ToggleChangesOneCell(g: Grid, x: int, y: int, on: Option<bool>)
    ensures var i := y * g.cols + x;
            var g' := Toggled(g, x, y, on);
            (forall j :: 0 <= j < |g.cells| && j != i ==> g'.cells[j] == g.cells[j])
            && (0 <= i < |g.cells| ==>
                  g'.cells[i].track == (if on.Some? then on.value else !g.cells[i].track)
                  && g'.cells[i].pop == g.cells[i].pop && g'.cells[i].work == g.cells[i].work
                  && g'.cells[i].base == g.cells[i].base)
            && (!(0 <= i < |g.cells|) ==> g' == g)
  {
  }

  /** Toggling the same cell twice without `on` gives back the grid. */
  lemma ToggleTwiceRestores(g: Grid, x: int, y: int)
    ensures Toggled(Toggled(g, x, y, None), x, y, None) == g
  {
    var i := y * g.cols + x;
    if 0 <= i < |g.cells| {
      var g1 := Toggled(g, x, y, None);
      assert g1.cells[i].track == !g.cells[i].track;
      assert Toggled(g1, x, y, None).cells == g.cells;
    }
  }

  /** Setting a flag is idempotent: a second identical call changes nothing. */
  lemma ToggleOnIsIdempotent(g: Grid, x: int, y: int, on: bool)
    ensures Toggled(Toggled(g, x, y, Some(on)), x, y, Some(on)) == Toggled(g, x, y, Some(on))
  {
    var i := y * g.cols + x;
    if 0 <= i < |g.cells| {
      var g1 := Toggled(g, x, y, Some(on));
      assert Toggled(g1, x, y, Some(on)).cells == g1.cells;
    }
  }

  /** The store: the grid, the tool, the brush size and the overlay. */
  class GridStore {
    var grid: Grid
    var tool: Tool
    var brush: int
    var overlay: Overlay

    /** The initial store over a generated grid. */
    constructor (g: Grid)
      ensures grid == g && tool == TrackTool && brush == 1 && overlay == TransitOverlay
    {
      grid := g;
      tool := TrackTool;
      brush := 1;
      overlay := TransitOverlay;
    }

    method SetTool(t: Tool)
      modifies this
      ensures tool == t && grid == old(grid) && brush == old(brush) && overlay == old(overlay)
    {
      tool := t;
    }

    method SetBrush(b: int)
      modifies this
      ensures brush == b && grid == old(grid) && tool == old(tool) && overlay == old(overlay)
    {
      brush := b;
    }

    method SetOverlay(o: Overlay)
      modifies this
      ensures overlay == o && grid == old(grid) && tool == old(tool) && brush == old(brush)
    {
      overlay := o;
    }

    /** Copies the cells, overwrites one slot and installs the copy. */
    method ToggleTrackAt(x: int, y: int, on: Option<bool>)
      modifies this
      ensures grid == Toggled(old(grid), x, y, on)
      ensures tool == old(tool) && brush == old(brush) && overlay == old(overlay)
    {
      var i := y * grid.cols + x;
      var c := CellAt(grid, i);
      if c.None? {
        return;
      }
      var newCells := grid.cells;
      newCells := newCells[i := c.value.(track := if on.Some? then on.value else !c.value.track)];
      grid := grid.(cells := newCells);
    }
  }
}
