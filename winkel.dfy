/** `winkel`: scatter the samples of one downsampled block into an output
    array through the Winkel tripel projection. Unlike `wagner_tile`, the loop
    does not clip: a rounded cell must be a valid numba index (negative
    indices count from the end), and it reads the block transposed,
    `topo_data[y, x]`. The trigonometric functions are parameters. */
module Winkel {
  import opened Common
  import opened Grids
  import opened Projection
  import opened Scatter

  /** The trigonometric functions `angle_to_winkel` uses. */
  datatype Trig = Trig(sin: real -> real, cos: real -> real, arccos: real -> real)

  /** `alpha_si`: `sin(alpha) / alpha`, and 1 at `alpha == 0` where the
      quotient is undefined. */
  function AlphaSi(sin: real -> real, alpha: real): (r: real)
    ensures alpha == 0.0 ==> r == 1.0
    ensures alpha != 0.0 ==> r * alpha == sin(alpha)
  {
    if alpha != 0.0 then sin(alpha) / alpha else 1.0
  }

  /** `angle_to_winkel(latitude, longitude)`: the normalised planar
      coordinates of the Winkel tripel projection. The division by `alpha_si`
      raises `ZeroDivisionError` if it is 0. */
  function AngleToWinkel(t: Trig, latitude: real, longitude: real): Result<(real, real)> {
    var si := AlphaSi(t.sin, Alpha(t, latitude, longitude));
    if si == 0.0 then Failure(ZeroDivisionError)
    else Success((WinkelX(t, latitude, longitude, si), WinkelY(t, longitude, si)))
  }

  /** `alpha = arccos(cos(longitude) * cos(latitude / 2))`. */
  function Alpha(t: Trig, latitude: real, longitude: real): real {
    t.arccos(CosProduct(t, latitude, longitude))
  }

  /** `cos(longitude) * cos(latitude / 2)`. */
  function CosProduct(t: Trig, latitude: real, longitude: real): real {
    t.cos(longitude) * t.cos(latitude / 2.0)
  }

  /** The planar x of `angle_to_winkel`, given `alpha_si`. */
  function WinkelX(t: Trig, latitude: real, longitude: real, si: real): real
    requires si != 0.0
  {
    (latitude + Bulge(t, latitude, longitude) / si) / (4.0 * PI)
  }

  /** `2 * cos(longitude) * sin(latitude / 2)`. */
  function Bulge(t: Trig, latitude: real, longitude: real): real {
    2.0 * t.cos(longitude) * t.sin(latitude / 2.0)
  }

  /** The planar y of `angle_to_winkel`, given `alpha_si`. */
  function WinkelY(t: Trig, longitude: real, si: real): real
    requires si != 0.0
  {
    (longitude + t.sin(longitude) / si) / (2.0 * PI)
  }

  /** With the usual values at 0, the centre of the map (latitude and
      longitude 0) is projected to the planar origin, which `winkel` places at
      the middle cell. */
  lemma WinkelOrigin(t: Trig)
    requires t.sin(0.0) == 0.0 && t.cos(0.0) == 1.0 && t.arccos(1.0) == 0.0
    ensures AngleToWinkel(t, 0.0, 0.0) == Success((0.0, 0.0))
  {
    assert 0.0 / 2.0 == 0.0;
    assert CosProduct(t, 0.0, 0.0) == 1.0;
    assert Bulge(t, 0.0, 0.0) == 0.0;
  }

  /** `(a + b / si) / d` is odd in (a, b) jointly. */
  lemma MirrorQuotient(a: real, b: real, si: real, d: real)
    requires si != 0.0 && d != 0.0
    ensures (-a + -b / si) / d == -((a + b / si) / d)
  {
    assert -b / si == -(b / si);
    assert -a + -(b / si) == -(a + b / si);
  }

  /** With an odd sine and an even cosine, negating the latitude mirrors the
      planar x and keeps y. */
  lemma WinkelMirrorLatitude(t: Trig, latitude: real, longitude: real)
    requires forall v :: t.sin(-v) == -t.sin(v)
    requires forall v :: t.cos(-v) == t.cos(v)
    ensures AngleToWinkel(t, -latitude, longitude).Success? == AngleToWinkel(t, latitude, longitude).Success?
    ensures AngleToWinkel(t, latitude, longitude).Success? ==>
      var p := AngleToWinkel(t, latitude, longitude).value;
      AngleToWinkel(t, -latitude, longitude).value == (-p.0, p.1)
  {
    var h := latitude / 2.0;
    assert -latitude / 2.0 == -h;
    assert t.cos(-h) == t.cos(h) && t.sin(-h) == -t.sin(h);
    assert CosProduct(t, -latitude, longitude) == CosProduct(t, latitude, longitude);
    assert Bulge(t, -latitude, longitude) == -Bulge(t, latitude, longitude);
    var si := AlphaSi(t.sin, Alpha(t, latitude, longitude));
    if si != 0.0 {
      MirrorQuotient(latitude, Bulge(t, latitude, longitude), si, 4.0 * PI);
    }
  }

  /** With an odd sine and an even cosine, negating the longitude mirrors the
      planar y and keeps x. */
  lemma WinkelMirrorLongitude(t: Trig, latitude: real, longitude: real)
    requires forall v :: t.sin(-v) == -t.sin(v)
    requires forall v :: t.cos(-v) == t.cos(v)
    ensures AngleToWinkel(t, latitude, -longitude).Success? == AngleToWinkel(t, latitude, longitude).Success?
    ensures AngleToWinkel(t, latitude, longitude).Success? ==>
      var p := AngleToWinkel(t, latitude, longitude).value;
      AngleToWinkel(t, latitude, -longitude).value == (p.0, -p.1)
  {
    assert t.cos(-longitude) == t.cos(longitude) && t.sin(-longitude) == -t.sin(longitude);
    assert CosProduct(t, latitude, -longitude) == CosProduct(t, latitude, longitude);
    assert Bulge(t, latitude, -longitude) == Bulge(t, latitude, longitude);
    var si := AlphaSi(t.sin, Alpha(t, latitude, longitude));
    if si != 0.0 {
      MirrorQuotient(longitude, t.sin(longitude), si, 2.0 * PI);
    }
  }

  /** The output cell `winkel` writes sample (x, y) to, before numba's
      negative-index wrap-around. */
  function WinkelCell(s: Sampling, project: (real, real) -> (real, real), rows: nat, cols: nat, x: int, y: int): (int, int)
    requires HasExtent(s)
  {
    var angles := Angles(s, x, y);
    var planar := project(angles.0, angles.1);
    (AxisCell(planar.0, rows), AxisCell(planar.1, cols))
  }

  /** A numba index into an axis of length n: `-n <= i < n`. */
  predicate Indexable(i: int, n: nat) {
    -(n as int) <= i < n
  }

  /** The element a valid numba index designates: a negative index counts from
      the end. */
  function Wrap(i: int, n: nat): (r: nat)
    requires Indexable(i, n)
    ensures r < n
    ensures r == i || r == i + n
  {
    if i < 0 then i + n else i
  }

  /** The element of a `rows` by `cols` output that sample (x, y) is written to,
      or (-1, -1) where `winkel` has no defined behaviour. */
  function WinkelTarget(s: Sampling, project: (real, real) -> (real, real), rows: nat, cols: nat): (int, int) -> (int, int)
    requires HasExtent(s)
  {
    (x: int, y: int) =>
      var c := WinkelCell(s, project, rows, cols, x, y);
      if Indexable(c.0, rows) && Indexable(c.1, cols) then (Wrap(c.0, rows) as int, Wrap(c.1, cols) as int) else (-1, -1)
  }

  /** Every sample of a `width` by `height` block lands on a valid index. */
  predicate AllIndexable(s: Sampling, project: (real, real) -> (real, real), width: nat, height: nat, rows: nat, cols: nat)
    requires HasExtent(s)
  {
    forall x, y :: 0 <= x < width && 0 <= y < height ==>
      Indexable(WinkelCell(s, project, rows, cols, x, y).0, rows) &&
      Indexable(WinkelCell(s, project, rows, cols, x, y).1, cols)
  }

  /** The guarantee the projection owes `winkel`: when its planar coordinates
      lie in `[-0.5, 0.5)`, every cell is inside the output, with no
      wrap-around. */
  lemma WinkelCellInRange(s: Sampling, project: (real, real) -> (real, real), rows: nat, cols: nat, x: int, y: int)
    requires HasExtent(s) && rows >= 1 && cols >= 1
    requires var a := Angles(s, x, y); var p := project(a.0, a.1);
      -0.5 <= p.0 < 0.5 && -0.5 <= p.1 < 0.5
    ensures var c := WinkelCell(s, project, rows, cols, x, y);
      0 <= c.0 < rows && 0 <= c.1 < cols &&
      WinkelTarget(s, project, rows, cols)(x, y) == c
  {
    var a := Angles(s, x, y);
    var p := project(a.0, a.1);
    AxisCellInRange(p.0, rows);
    AxisCellInRange(p.1, cols);
  }

  /** `winkel` with `angle_to_winkel` as its projection: the sample at the
      centre of the raster has angles (0, 0), so it projects to the planar
      origin and is written to the middle cell, `round(rows / 2)` by
      `round(cols / 2)`, inside the output. */
  lemma WinkelCentreCell(t: Trig, s: Sampling, project: (real, real) -> (real, real), rows: nat, cols: nat, x: int, y: int)
    requires HasExtent(s)
    requires t.sin(0.0) == 0.0 && t.cos(0.0) == 1.0 && t.arccos(1.0) == 0.0
    requires forall a, b :: AngleToWinkel(t, a, b).Success? ==> project(a, b) == AngleToWinkel(t, a, b).value
    requires Position(s, x, y) == (s.rasterX as real / 2.0, s.rasterY as real / 2.0)
    ensures Angles(s, x, y) == (0.0, 0.0)
    ensures WinkelCell(s, project, rows, cols, x, y) == (AxisCell(0.0, rows), AxisCell(0.0, cols))
    ensures rows >= 1 && cols >= 1 ==>
      0 <= AxisCell(0.0, rows) < rows && 0 <= AxisCell(0.0, cols) < cols &&
      WinkelTarget(s, project, rows, cols)(x, y) == (AxisCell(0.0, rows), AxisCell(0.0, cols))
  {
    var X, Y := s.rasterX as real, s.rasterY as real;
    var u := Angles(s, x, y);
    assert (u.0 + PI) * X == PI * X;
    assert u.0 * X == 0.0;
    assert (u.1 + PI / 2.0) * Y == PI / 2.0 * Y;
    assert u.1 * Y == 0.0;
    WinkelOrigin(t);
    assert project(0.0, 0.0) == (0.0, 0.0);
    if rows >= 1 && cols >= 1 {
      WinkelCellInRange(s, project, rows, cols, x, y);
    }
  }

  /** `winkel`: for each sample in x-outer, y-inner order, write
      `topo_data[y, x]` at its projected cell. The transposed read is defined
      only for a square block, and the write only when every cell is a valid
      index; a zero raster extent raises `ZeroDivisionError` at the first
      sample, before any write. Afterwards each cell holds the last sample sent
      to it, or its old value if none was. */
  method Winkel(topo: Grid, s: Sampling, projection: array2<real>, project: (real, real) -> (real, real)) returns (r: Outcome)
    requires IsMatrix(topo)
    requires |topo| == 0 || Width(topo) == 0 || |topo| == Width(topo)
    requires HasExtent(s) ==> AllIndexable(s, project, |topo|, Width(topo), projection.Length0, projection.Length1)
    modifies projection
    ensures r == if |topo| > 0 && Width(topo) > 0 && !HasExtent(s) then Fail(ZeroDivisionError) else Pass
    ensures r.Fail? || !HasExtent(s) ==> unchanged(projection)
    ensures r.Pass? && HasExtent(s) ==>
      forall i, j :: 0 <= i < projection.Length0 && 0 <= j < projection.Length1 ==>
        projection[i, j] == match LastHit(WinkelTarget(s, project, projection.Length0, projection.Length1), Width(topo), |topo|, 0, (i, j))
                            case Some(p) => topo[p.1][p.0]
                            case None => old(projection[i, j])
  {
    if !HasExtent(s) {
      // the first call of `unmercator` divides by zero, before any write
      return if |topo| > 0 && Width(topo) > 0 then Fail(ZeroDivisionError) else Pass;
    }
    var target := WinkelTarget(s, project, projection.Length0, projection.Length1);
    if |topo| == 0 || Width(topo) == 0 {
      // no samples
      forall i, j | 0 <= i < projection.Length0 && 0 <= j < projection.Length1
        ensures LastHit(target, Width(topo), |topo|, 0, (i, j)).None?
      {
        NoColumnsNoHit(target, |topo|, (i, j));
      }
      return Pass;
    }
    // sample (x, y) is `topo_data[y, x]`, the element (x, y) of the transpose
    var n := |topo|;
    ScatterSamples(Transpose(topo, n), n, n, target, projection);
    return Pass;
  }
}
