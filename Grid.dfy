/**
 * The coordinate mapper: the fixed 640 x 360 logical grid, the scale between
 * grid units and rendered pixels, JavaScript's Math.round on exact reals and
 * the clamp that keeps a dragged label on the grid.
 */
module Grid {

  const GRID_WIDTH: int := 640
  const GRID_HEIGHT: int := 360

  /** A logical grid position (also the shape of a `[x, y]` pair). */
  datatype Point = Point(x: int, y: int)

  /** Math.round: the integer nearest to v, a half rounded towards +infinity. */
  function Round(v: real): (r: int)
    ensures r as real - 0.5 <= v < r as real + 0.5
  {
    (v + 0.5).Floor
  }

  /** The nearest-integer condition determines Round's result. */
  lemma RoundIsUnique(v: real, r: int)
    requires r as real - 0.5 <= v < r as real + 0.5
    ensures Round(v) == r
  {
    var q := Round(v);
    assert q as real - 0.5 <= v < q as real + 0.5;
    assert -1.0 < q as real - r as real < 1.0;
  }

  function Dist(a: int, b: int): nat {
    if a <= b then b - a else a - b
  }

  /** Math.max(lo, Math.min(g, hi)): the point of [lo, hi] nearest to g. */
  function Clamp(g: int, lo: int, hi: int): (r: int)
    requires lo <= hi
    ensures lo <= r <= hi
    ensures forall c :: lo <= c <= hi ==> Dist(r, g) <= Dist(c, g)
  {
    if g < lo then lo else if g > hi then hi else g
  }

  /** A value already in range passes through; one outside goes to the bound on its side. */
  lemma ClampCases(g: int, lo: int, hi: int)
    requires lo <= hi
    ensures lo <= g <= hi ==> Clamp(g, lo, hi) == g
    ensures g < lo ==> Clamp(g, lo, hi) == lo
    ensures hi < g ==> Clamp(g, lo, hi) == hi
  {
    var r := Clamp(g, lo, hi);
    if lo <= g <= hi {
      assert Dist(r, g) <= Dist(g, g);
    } else if g < lo {
      assert Dist(r, g) <= Dist(lo, g);
    } else {
      assert Dist(r, g) <= Dist(hi, g);
    }
  }

  /** Pixels per grid unit along an axis whose rendered length is `extent`. */
  function Scale(extent: real, cells: int): (s: real)
    requires extent > 0.0 && cells > 0
    ensures s > 0.0 && s * cells as real == extent
  {
    extent / cells as real
  }

  /** The pixel offset at which grid coordinate g is drawn (`x * scaleX`). */
  function ToPixel(g: int, scale: real): real {
    g as real * scale
  }

  /** The grid coordinate read back from a pixel offset (`Math.round(offsetLeft / scaleX)`). */
  function FromPixel(p: real, scale: real): int
    requires scale > 0.0
  {
    Round(p / scale)
  }

  /** Drawing a grid coordinate and reading it back gives the same coordinate, at any scale. */
  lemma GridRoundTrip(g: int, scale: real)
    requires scale > 0.0
    ensures FromPixel(ToPixel(g, scale), scale) == g
  {
    assert ToPixel(g, scale) / scale == g as real;
    RoundIsUnique(g as real, g);
  }

  /**
   * The grid coordinate a drag move writes: the pointer-derived pixel offset
   * divided by the scale, rounded, then clamped to [0, cells - 1].
   */
  function ToGrid(raw: real, scale: real, cells: int): (g: int)
    requires scale > 0.0 && cells > 0
    ensures 0 <= g < cells
    ensures g == Clamp(Round(raw / scale), 0, cells - 1)
  {
    var r := Round(raw / scale);
    if r < 0 then 0 else if r > cells - 1 then cells - 1 else r
  }

  /** A move whose rounded coordinate is on the grid keeps it; any other goes to the nearer edge. */
  lemma ToGridCases(raw: real, scale: real, cells: int)
    requires scale > 0.0 && cells > 0
    ensures 0 <= Round(raw / scale) < cells ==> ToGrid(raw, scale, cells) == Round(raw / scale)
    ensures Round(raw / scale) < 0 ==> ToGrid(raw, scale, cells) == 0
    ensures cells <= Round(raw / scale) ==> ToGrid(raw, scale, cells) == cells - 1
  {
    ClampCases(Round(raw / scale), 0, cells - 1);
  }

  /** Dragging to the pixel offset of logical x = 700 lands on column 639. */
  lemma DragPastRightEdge(scale: real)
    requires scale > 0.0
    ensures ToGrid(ToPixel(700, scale), scale, GRID_WIDTH) == 639
  {
    GridRoundTrip(700, scale);
  }
}
