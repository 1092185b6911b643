/** The coordinate bookkeeping shared by the Wagner and Winkel compositors:
    where a downsampled sample sits in the global raster, the affine map from
    raster position to angles (`unmercator`), Python's `round`, and the
    scale-shift-round step that turns a normalised planar coordinate into an
    output cell. The projections themselves (trigonometry) are parameters of
    the compositors, not part of this module. */
module Projection {

  /** `np.pi` in its shortest decimal form, the one that reads back as that
      float64; the model takes it as an exact real. */
  const PI: real := 3.141592653589793

  /** `unmercator(x, y, raster_x, raster_y)`: the raster is read as an
      equirectangular grid over the whole sphere, x spanning latitude
      `[-pi, pi)` and y spanning longitude `[-pi/2, pi/2)`. The division by the
      extents raises `ZeroDivisionError` when one is 0, hence the requires. */
  function Unmercator(x: real, y: real, rasterX: int, rasterY: int): (r: (real, real))
    requires rasterX != 0 && rasterY != 0
    ensures (r.0 + PI) * rasterX as real == 2.0 * PI * x
    ensures (r.1 + PI / 2.0) * rasterY as real == PI * y
  {
    (x / rasterX as real * 2.0 * PI - PI, y / rasterY as real * PI - PI / 2.0)
  }

  /** Positions inside the raster get latitude in `[-pi, pi)` and longitude in
      `[-pi/2, pi/2)`: the left and bottom edges are included, the right and top
      edges are not. */
  lemma UnmercatorRange(x: real, y: real, rasterX: int, rasterY: int)
    requires rasterX > 0 && rasterY > 0
    requires 0.0 <= x < rasterX as real && 0.0 <= y < rasterY as real
    ensures -PI <= Unmercator(x, y, rasterX, rasterY).0 < PI
    ensures -PI / 2.0 <= Unmercator(x, y, rasterX, rasterY).1 < PI / 2.0
  {
    var r := Unmercator(x, y, rasterX, rasterY);
    var X, Y := rasterX as real, rasterY as real;
    assert (r.0 + PI) * X == 2.0 * PI * x < 2.0 * PI * X;
    assert (r.1 + PI / 2.0) * Y == PI * y < PI * Y;
  }

  /** Python's `round(v)` on a float: the nearest integer, ties to the even
      one. */
  function RoundHalfEven(v: real): (r: int)
    ensures v - 0.5 <= r as real <= v + 0.5
    ensures (r as real == v - 0.5 || r as real == v + 0.5) ==> r % 2 == 0
  {
    var f := v.Floor;
    var frac := v - f as real;
    if frac < 0.5 then f
    else if frac > 0.5 then f + 1
    else if f % 2 == 0 then f
    else f + 1
  }

  /** The two properties in RoundHalfEven's contract pin the result down: any
      integer within one half of v, and even on a tie, is `round(v)`. */
  lemma RoundUnique(v: real, n: int)
    requires v - 0.5 <= n as real <= v + 0.5
    requires (n as real == v - 0.5 || n as real == v + 0.5) ==> n % 2 == 0
    ensures n == RoundHalfEven(v)
  {
  }

  /** Rounding never reverses the order of two values. */
  lemma RoundMonotone(v: real, w: real)
    requires v <= w
    ensures RoundHalfEven(v) <= RoundHalfEven(w)
  {
  }

  /** The placement step shared by `wagner_tile` and `winkel`: a normalised
      coordinate is multiplied by `total - 1`, shifted by `total / 2` (true
      division) and rounded. */
  function AxisCell(v: real, total: int): int {
    RoundHalfEven(Stretch(v, total))
  }

  /** The unrounded position `v * (total - 1) + total / 2`. */
  function Stretch(v: real, total: int): real {
    v * (total - 1) as real + total as real / 2.0
  }

  /** A normalised coordinate in `[-0.5, 0.5)` lands on a cell in `[0, total)`. */
  lemma AxisCellInRange(v: real, total: int)
    requires total >= 1
    requires -0.5 <= v < 0.5
    ensures 0 <= AxisCell(v, total) < total
  {
    var w := Stretch(v, total);
    if total == 1 {
      assert w == 0.5;
      RoundUnique(0.5, 0);
    } else {
      ProductBounds(v, (total - 1) as real);
      RoundBetween(w, total);
    }
  }

  /** A value in `[0.5, n - 0.5)` rounds into `[0, n)`. */
  lemma RoundBetween(w: real, n: int)
    requires 0.5 <= w < n as real - 0.5
    ensures 0 <= RoundHalfEven(w) < n
  {
  }

  /** A value in `[-0.5, 0.5)` times a positive d lies in `[-d/2, d/2)`. */
  lemma ProductBounds(v: real, d: real)
    requires -0.5 <= v < 0.5 && d > 0.0
    ensures -0.5 * d <= v * d < 0.5 * d
  {
    assert (v + 0.5) * d >= 0.0;
    assert (0.5 - v) * d > 0.0;
  }

  /** The closed upper end is one past the last cell when `total` is even:
      `0.5` maps to `total - 0.5`, which rounds to the even `total`. */
  lemma AxisCellUpperEdge(total: int)
    requires total >= 2 && total % 2 == 0
    ensures AxisCell(0.5, total) == total
  {
    assert Stretch(0.5, total) == total as real - 0.5;
    RoundUnique(total as real - 0.5, total);
  }

  /** Where a downsampled block sits in the global raster: the sample grid's
      offset and scale, and the raster's extents. */
  datatype Sampling = Sampling(xOffset: real, yOffset: real, xScale: real, yScale: real, rasterX: int, rasterY: int)

  /** Both extents are non-zero, so `unmercator` does not divide by zero. */
  predicate HasExtent(s: Sampling) {
    s.rasterX != 0 && s.rasterY != 0
  }

  /** The raster position of sample (x, y): `x * x_scale + x_offset`,
      `y * y_scale + y_offset`. */
  function Position(s: Sampling, x: int, y: int): (real, real) {
    (x as real * s.xScale + s.xOffset, y as real * s.yScale + s.yOffset)
  }

  /** The angles of sample (x, y). */
  function Angles(s: Sampling, x: int, y: int): (real, real)
    requires HasExtent(s)
  {
    Unmercator(Position(s, x, y).0, Position(s, x, y).1, s.rasterX, s.rasterY)
  }
}
