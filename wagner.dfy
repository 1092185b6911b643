/** `wagner_tile` and `wagner`: scatter the samples of one downsampled block
    into an output array. The projection `angle_to_wagner` is trigonometry on
    floats and is a parameter `project` here, mapping (latitude, longitude) to
    a normalised planar coordinate; everything around it (raster position,
    `unmercator`, scaling, rounding, tile offset, clipping, the write order) is
    modelled exactly. */
module Wagner {
  import opened Common
  import opened Grids
  import opened Projection
  import opened Scatter

  /** The cell of the full `total_x_res` by `total_y_res` output that sample
      (x, y) is projected to. */
  function GlobalCell(s: Sampling, project: (real, real) -> (real, real), totalX: int, totalY: int, x: int, y: int): (int, int)
    requires HasExtent(s)
  {
    var angles := Angles(s, x, y);
    var planar := project(angles.0, angles.1);
    (AxisCell(planar.0, totalX), AxisCell(planar.1, totalY))
  }

  /** The same cell in the coordinates of tile (tileX, tileY), a `rows` by
      `cols` array: the tile's origin in the full output is
      `(tileX * rows, tileY * cols)`. */
  function TileCell(s: Sampling, project: (real, real) -> (real, real), totalX: int, totalY: int,
                    tileX: int, tileY: int, rows: nat, cols: nat, x: int, y: int): (int, int)
    requires HasExtent(s)
  {
    var g := GlobalCell(s, project, totalX, totalY, x, y);
    (g.0 - tileX * rows, g.1 - tileY * cols)
  }

  /** TileCell as the target map of the scatter loop. */
  function TileTarget(s: Sampling, project: (real, real) -> (real, real), totalX: int, totalY: int,
                      tileX: int, tileY: int, rows: nat, cols: nat): (int, int) -> (int, int)
    requires HasExtent(s)
  {
    (x: int, y: int) => TileCell(s, project, totalX, totalY, tileX, tileY, rows, cols, x, y)
  }

  /** The only tile index whose range `[t*n, t*n + n)` holds g is the floor
      of `g / n`. */
  lemma FloorDivUnique(g: int, t: int, n: int)
    requires n > 0
    ensures (t * n <= g < t * n + n) <==> t == g / n
  {
    var q := g / n;
    assert q * n <= g < q * n + n;
    if t < q {
      assert q * n - t * n == (q - t) * n;
      MulAtLeast(q - t, n);
    } else if t > q {
      assert t * n - q * n == (t - q) * n;
      MulAtLeast(t - q, n);
    }
  }

  lemma MulAtLeast(a: int, n: int)
    requires a >= 1 && n > 0
    ensures a * n >= n
  {
    assert a * n == (a - 1) * n + n;
    assert (a - 1) * n >= 0;
  }

  /** Tiles partition the output: when the full output is cut into `rows` by
      `cols` tiles, a sample lands inside tile (tileX, tileY) exactly when that
      tile is the one holding its global cell, so running `wagner_tile` over all
      tiles writes every sample into one tile only. */
  lemma TileOwnsSample(s: Sampling, project: (real, real) -> (real, real), totalX: int, totalY: int,
                       tileX: int, tileY: int, rows: nat, cols: nat, x: int, y: int)
    requires HasExtent(s) && rows > 0 && cols > 0
    ensures var c := TileCell(s, project, totalX, totalY, tileX, tileY, rows, cols, x, y);
      var g := GlobalCell(s, project, totalX, totalY, x, y);
      (0 <= c.0 < rows && 0 <= c.1 < cols) <==> (tileX == g.0 / rows && tileY == g.1 / cols)
  {
    var g := GlobalCell(s, project, totalX, totalY, x, y);
    FloorDivUnique(g.0, tileX, rows);
    FloorDivUnique(g.1, tileY, cols);
  }

  /** `wagner_tile`: for each sample in x-outer, y-inner order, compute its
      tile-local cell and, when the cell is inside `tile`, write the sample
      there. Both scales must be positive (`assert`); a zero
      raster extent raises `ZeroDivisionError` at the first sample, before any
      write. Afterwards each cell holds the last sample sent to it, or its old
      value if none was; `topo` is only read. */
  method WagnerTile(topo: Grid, s: Sampling, tile: array2<real>, tileX: int, tileY: int,
                    totalX: int, totalY: int, project: (real, real) -> (real, real)) returns (r: Outcome)
    requires IsMatrix(topo)
    modifies tile
    ensures r == if !(s.xScale > 0.0 && s.yScale > 0.0) then Fail(AssertionError)
                 else if |topo| > 0 && Width(topo) > 0 && !HasExtent(s) then Fail(ZeroDivisionError)
                 else Pass
    ensures r.Fail? || !HasExtent(s) ==> unchanged(tile)
    ensures r.Pass? && HasExtent(s) ==>
      forall i, j :: 0 <= i < tile.Length0 && 0 <= j < tile.Length1 ==>
        tile[i, j] == match LastHit(TileTarget(s, project, totalX, totalY, tileX, tileY, tile.Length0, tile.Length1),
                                    Width(topo), |topo|, 0, (i, j))
                      case Some(p) => topo[p.0][p.1]
                      case None => old(tile[i, j])
  {
    if !(s.xScale > 0.0) {
      return Fail(AssertionError);
    }
    if !(s.yScale > 0.0) {
      return Fail(AssertionError);
    }
    if !HasExtent(s) {
      // the first call of `unmercator` divides by zero, before any write
      return if |topo| > 0 && Width(topo) > 0 then Fail(ZeroDivisionError) else Pass;
    }
    ScatterSamples(topo, |topo|, Width(topo), TileTarget(s, project, totalX, totalY, tileX, tileY, tile.Length0, tile.Length1), tile);
    return Pass;
  }

  /** The cell `wagner` finally writes sample (x, y) to: the Wagner result is
      computed and then overwritten by
      `round(position / raster * shape)` on each axis. */
  function EquirectCell(s: Sampling, rows: nat, cols: nat, x: int, y: int): (int, int)
    requires HasExtent(s)
  {
    var pos := Position(s, x, y);
    (RoundHalfEven(Rescale(pos.0, s.rasterX, rows)), RoundHalfEven(Rescale(pos.1, s.rasterY, cols)))
  }

  /** A raster position as a fraction of the raster extent, times the output
      size: `position / raster * shape`. */
  function Rescale(position: real, extent: int, size: nat): real
    requires extent != 0
  {
    position / extent as real * size as real
  }

  /** EquirectCell as the target map of the scatter loop. */
  function EquirectTarget(s: Sampling, rows: nat, cols: nat): (int, int) -> (int, int)
    requires HasExtent(s)
  {
    (x: int, y: int) => EquirectCell(s, rows, cols, x, y)
  }

  /** `wagner` places samples on a plate carree grid: the row is the latitude
      from `unmercator`, rescaled from `[-pi, pi)` to `[0, rows)`, and the
      column is the longitude rescaled from `[-pi/2, pi/2)` to `[0, cols)`;
      EquirectCell rounds these two values. */
  lemma EquirectCellIsPlateCarree(s: Sampling, rows: nat, cols: nat, x: int, y: int)
    requires HasExtent(s)
    ensures var a, pos := Angles(s, x, y), Position(s, x, y);
      Rescale(pos.0, s.rasterX, rows) == (a.0 + PI) / (2.0 * PI) * rows as real &&
      Rescale(pos.1, s.rasterY, cols) == (a.1 + PI / 2.0) / PI * cols as real
  {
    var a := Angles(s, x, y);
    var pos := Position(s, x, y);
    var X, Y := s.rasterX as real, s.rasterY as real;
    assert (a.0 + PI) * X == 2.0 * PI * pos.0;
    assert (a.0 + PI) / (2.0 * PI) == pos.0 / X;
    assert (a.1 + PI / 2.0) * Y == PI * pos.1;
    assert (a.1 + PI / 2.0) / PI == pos.1 / Y;
  }

  /** With a non-negative scale and a positive extent, the placement keeps the
      order of samples: a later row of the block never lands above an earlier
      one. */
  lemma EquirectCellMonotone(s: Sampling, rows: nat, cols: nat, x1: int, x2: int, y: int)
    requires HasExtent(s) && s.rasterX > 0 && s.xScale >= 0.0 && x1 <= x2
    ensures EquirectCell(s, rows, cols, x1, y).0 <= EquirectCell(s, rows, cols, x2, y).0
  {
    var X, R := s.rasterX as real, rows as real;
    var p1, p2 := Position(s, x1, y).0, Position(s, x2, y).0;
    assert p2 - p1 == (x2 - x1) as real * s.xScale >= 0.0;
    assert p1 / X <= p2 / X;
    assert Rescale(p2, s.rasterX, rows) - Rescale(p1, s.rasterX, rows) == (p2 / X - p1 / X) * R >= 0.0;
    RoundMonotone(Rescale(p1, s.rasterX, rows), Rescale(p2, s.rasterX, rows));
  }

  /** `wagner`: for each sample in x-outer, y-inner order, write it at its
      plate carree cell when that cell is inside `projection`; the last sample
      sent to a cell wins, other cells keep their value, `topo` is only read. */
  method WagnerMap(topo: Grid, s: Sampling, projection: array2<real>) returns (r: Outcome)
    requires IsMatrix(topo)
    modifies projection
    ensures r == if |topo| > 0 && Width(topo) > 0 && !HasExtent(s) then Fail(ZeroDivisionError) else Pass
    ensures r.Fail? || !HasExtent(s) ==> unchanged(projection)
    ensures r.Pass? && HasExtent(s) ==>
      forall i, j :: 0 <= i < projection.Length0 && 0 <= j < projection.Length1 ==>
        projection[i, j] == match LastHit(EquirectTarget(s, projection.Length0, projection.Length1), Width(topo), |topo|, 0, (i, j))
                            case Some(p) => topo[p.0][p.1]
                            case None => old(projection[i, j])
  {
    if !HasExtent(s) {
      // the first call of `unmercator` divides by zero, before any write
      return if |topo| > 0 && Width(topo) > 0 then Fail(ZeroDivisionError) else Pass;
    }
    ScatterSamples(topo, |topo|, Width(topo), EquirectTarget(s, projection.Length0, projection.Length1), projection);
    return Pass;
  }
}
