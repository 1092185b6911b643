/** Two-dimensional grids as sequences of rows, and the numpy operations the
    raster code applies to them: zero-filled allocation, C-order flattening and
    reshaping, the block mean of a reshaped image, the flip along the row axis
    and element-wise scaling. Means are exact reals in place of float64. */
module Grids {
  import opened Common

  /** A raw tile as decoded from the image file: integer pixel values. */
  type Image = seq<seq<int>>

  /** A sample grid: `g[i][j]` is the value at row i, column j. */
  type Grid = seq<seq<real>>

  /** `g` has exactly `rows` rows of `cols` values each (a numpy 2-D shape). */
  predicate IsShape<T>(g: seq<seq<T>>, rows: nat, cols: nat) {
    |g| == rows && forall i :: 0 <= i < |g| ==> |g[i]| == cols
  }

  /** `g` is rectangular, as every numpy 2-D array is. */
  predicate IsMatrix<T>(g: seq<seq<T>>) {
    IsShape(g, |g|, Width(g))
  }

  /** `shape[1]` of a grid; a grid without rows has width 0. */
  function Width<T>(g: seq<seq<T>>): nat {
    if |g| == 0 then 0 else |g[0]|
  }

  /** `np.zeros((rows, cols))`. */
  function Zeros(rows: nat, cols: nat): (r: Grid)
    ensures IsShape(r, rows, cols)
    ensures forall i, j :: 0 <= i < rows && 0 <= j < cols ==> r[i][j] == 0.0
  {
    seq(rows, _ => seq(cols, _ => 0.0))
  }

  /** An integer image read as real samples (the grid numpy keeps when no
      averaging is done). */
  function ToGrid(image: Image): (r: Grid)
    ensures |r| == |image|
    ensures forall i :: 0 <= i < |r| ==> |r[i]| == |image[i]|
    ensures forall i, j :: 0 <= i < |r| && 0 <= j < |r[i]| ==> r[i][j] == image[i][j] as real
  {
    seq(|image|, i requires 0 <= i < |image| => seq(|image[i]|, j requires 0 <= j < |image[i]| => image[i][j] as real))
  }

  /** `np.flip(g, axis=0)`: the rows in reverse order. */
  function Flip<T>(g: seq<T>): (r: seq<T>)
    ensures |r| == |g|
    ensures forall i :: 0 <= i < |g| ==> r[i] == g[|g| - 1 - i]
  {
    if |g| == 0 then [] else [g[|g| - 1]] + Flip(g[..|g| - 1])
  }

  /** Flipping twice gives back the original rows. */
  lemma FlipFlip<T>(g: seq<T>)
    ensures Flip(Flip(g)) == g
  {
    assert forall i :: 0 <= i < |g| ==> Flip(Flip(g))[i] == Flip(g)[|g| - 1 - i] == g[i];
  }

  /** Flipping keeps a grid's shape. */
  lemma FlipShape<T>(g: seq<seq<T>>, rows: nat, cols: nat)
    requires IsShape(g, rows, cols)
    ensures IsShape(Flip(g), rows, cols)
  {
  }

  /** `g * factor`, element by element. */
  function ScaleGrid(g: Grid, factor: real): (r: Grid)
    ensures |r| == |g|
    ensures forall i :: 0 <= i < |g| ==> |r[i]| == |g[i]|
    ensures forall i, j :: 0 <= i < |g| && 0 <= j < |g[i]| ==> r[i][j] == Scale(g[i][j], factor)
  {
    seq(|g|, i requires 0 <= i < |g| => seq(|g[i]|, j requires 0 <= j < |g[i]| => Scale(g[i][j], factor)))
  }

  /** One element times the factor. */
  function Scale(v: real, factor: real): real {
    v * factor
  }

  /** Scaling and flipping commute: scaling a flipped grid gives the flip of
      the scaled grid. */
  lemma ScaleFlip(g: Grid, factor: real)
    ensures ScaleGrid(Flip(g), factor) == Flip(ScaleGrid(g, factor))
  {
    var a, b := ScaleGrid(Flip(g), factor), Flip(ScaleGrid(g, factor));
    assert |a| == |b|;
    forall i | 0 <= i < |a| ensures a[i] == b[i] {
      assert |a[i]| == |b[i]|;
    }
  }

  /** The transpose of a square grid: `r[i][j] == g[j][i]`. */
  function Transpose<T>(g: seq<seq<T>>, n: nat): (r: seq<seq<T>>)
    requires IsShape(g, n, n)
    ensures IsShape(r, n, n)
    ensures forall i, j :: 0 <= i < n && 0 <= j < n ==> r[i][j] == g[j][i]
  {
    seq(n, i requires 0 <= i < n => seq(n, j requires 0 <= j < n => g[j][i]))
  }

  /** Sum of a sequence of pixel values. */
  function Sum(s: seq<int>): int {
    if |s| == 0 then 0 else Sum(s[..|s| - 1]) + s[|s| - 1]
  }

  /** The C-order flattening numpy's reshape works on: row after row. */
  function Flatten<T>(g: seq<seq<T>>): seq<T> {
    if |g| == 0 then [] else g[0] + Flatten(g[1..])
  }

  /** A rectangular grid flattens to `rows * cols` values. */
  lemma {:induction false} FlattenLength<T>(g: seq<seq<T>>, rows: nat, cols: nat)
    requires IsShape(g, rows, cols)
    ensures |Flatten(g)| == rows * cols
  {
    if rows > 0 {
      FlattenLength(g[1..], rows - 1, cols);
    }
  }

  /** Row r, column k of a rectangular grid sits at index `r * cols + k` of its
      flattening. */
  lemma {:induction false} FlattenAt<T>(g: seq<seq<T>>, rows: nat, cols: nat, r: nat, k: nat)
    requires IsShape(g, rows, cols) && r < rows && k < cols
    ensures r * cols + k < |Flatten(g)| && Flatten(g)[r * cols + k] == g[r][k]
  {
    FlattenLength(g, rows, cols);
    MulMono(r + 1, rows, cols);
    assert (r + 1) * cols == r * cols + cols;
    if r > 0 {
      FlattenAt(g[1..], rows - 1, cols, r - 1, k);
      assert r * cols + k == cols + ((r - 1) * cols + k);
    }
  }

  /** `a <= b` survives multiplication by a natural number. */
  lemma {:induction false} MulMono(a: nat, b: nat, c: nat)
    requires a <= b
    ensures a * c <= b * c
  {
    if c > 0 {
      MulMono(a, b, c - 1);
      assert a * c == a * (c - 1) + a && b * c == b * (c - 1) + b;
    }
  }

  /** A run of `w` values of row r starting at column `left` is the same run of
      the flattening, starting at `r * cols + left`. */
  lemma FlattenRun<T>(g: seq<seq<T>>, rows: nat, cols: nat, r: nat, left: nat, w: nat)
    requires IsShape(g, rows, cols) && r < rows && left + w <= cols
    ensures r * cols + left + w <= |Flatten(g)|
    ensures Flatten(g)[r * cols + left .. r * cols + left + w] == g[r][left .. left + w]
  {
    FlattenLength(g, rows, cols);
    MulMono(r + 1, rows, cols);
    assert (r + 1) * cols == r * cols + cols;
    var run, row := Flatten(g)[r * cols + left .. r * cols + left + w], g[r][left .. left + w];
    forall k | 0 <= k < w
      ensures run[k] == row[k]
    {
      FlattenAt(g, rows, cols, r, left + k);
    }
  }

  /** Sum of the `h` by `w` block of `image` whose top-left pixel is at
      (top, left). */
  function BlockSum(image: Image, top: nat, left: nat, h: nat, w: nat): int
    requires top + h <= |image|
    requires forall i :: top <= i < top + h ==> left + w <= |image[i]|
  {
    if h == 0 then 0
    else BlockSum(image, top, left, h - 1, w) + Sum(image[top + h - 1][left .. left + w])
  }

  /** The arithmetic mean of that block. */
  function BlockMean(image: Image, top: nat, left: nat, h: nat, w: nat): real
    requires h > 0 && w > 0
    requires top + h <= |image|
    requires forall i :: top <= i < top + h ==> left + w <= |image[i]|
  {
    BlockSum(image, top, left, h, w) as real / (h * w) as real
  }

  /** Sum over `n` runs of `w` consecutive values of `flat`, the b-th run starting
      at `first + b * stride`: one output cell of `reshape(...).sum(axis=(1, 3))`. */
  function StridedSum(flat: seq<int>, first: nat, stride: nat, n: nat, w: nat): int
    requires n == 0 || first + (n - 1) * stride + w <= |flat|
  {
    if n == 0 then 0
    else
      assert n - 1 == 0 || first + (n - 2) * stride + w <= first + (n - 1) * stride + w by {
        if n >= 2 { assert (n - 2) * stride <= (n - 1) * stride; }
      }
      StridedSum(flat, first, stride, n - 1, w) + Sum(flat[first + (n - 1) * stride .. first + (n - 1) * stride + w])
  }

  /** The runs that make up cell (a, c) of an array reshaped to
      `(r0, xs, r1, ys)` lie inside an array of `r0 * xs * r1 * ys` values. */
  lemma CellRunsFit(r0: nat, xs: nat, r1: nat, ys: nat, a: nat, c: nat)
    requires a < r0 && c < r1 && xs > 0
    ensures a * xs * (r1 * ys) + c * ys + (xs - 1) * (r1 * ys) + ys <= r0 * xs * r1 * ys
  {
    var W := r1 * ys;
    MulMono(c + 1, r1, ys);
    assert (c + 1) * ys == c * ys + ys;
    MulMono(a + 1, r0, xs);
    MulMono((a + 1) * xs, r0 * xs, W);
    assert (a + 1) * xs * W == a * xs * W + (xs - 1) * W + W;
    assert r0 * xs * W == r0 * xs * r1 * ys;
  }

  /** The mean of the reshape is a number in every cell: each cell averages a
      nonempty block, or there are no cells. Only an empty image reshaped with
      a zero block size into a nonempty output falls outside; numpy then
      averages empty blocks into NaN. */
  predicate MeanDefined(image: Image, r0: nat, xs: nat, r1: nat, ys: nat) {
    |Flatten(image)| > 0 || r0 == 0 || r1 == 0 || (xs > 0 && ys > 0)
  }

  /** `image.reshape(r0, xs, r1, ys).mean(axis=(1, 3))`: numpy reshapes the
      C-order flattening of the image, so any image with exactly
      `r0 * xs * r1 * ys` pixels is accepted, and any other one raises. */
  function ReshapeMean(image: Image, r0: nat, xs: nat, r1: nat, ys: nat): (r: Result<Grid>)
    requires MeanDefined(image, r0, xs, r1, ys)
    ensures r.Failure? <==> r0 * xs * r1 * ys != |Flatten(image)|
    ensures r.Failure? ==> r.error == ValueError("cannot reshape array")
    ensures r.Success? ==> IsShape(r.value, r0, r1)
  {
    var flat := Flatten(image);
    if r0 * xs * r1 * ys != |flat| then Failure(ValueError("cannot reshape array"))
    else
      assert r0 > 0 && r1 > 0 ==> xs > 0 && ys > 0;
      Success(seq(r0, a requires 0 <= a < r0 =>
        seq(r1, c requires 0 <= c < r1 =>
          CellRunsFit(r0, xs, r1, ys, a, c);
          StridedSum(flat, a * xs * (r1 * ys) + c * ys, r1 * ys, xs, ys) as real / (xs * ys) as real)))
  }

  /** Summing the runs of a flattened rectangular image is summing the rows of
      the corresponding block of the image. */
  lemma {:induction false} StridedSumIsBlockSum(image: Image, rows: nat, cols: nat, top: nat, left: nat, n: nat, w: nat)
    requires IsShape(image, rows, cols) && top + n <= rows && left + w <= cols
    ensures n == 0 || top * cols + left + (n - 1) * cols + w <= |Flatten(image)|
    ensures StridedSum(Flatten(image), top * cols + left, cols, n, w) == BlockSum(image, top, left, n, w)
  {
    if n > 0 {
      var r := top + n - 1;
      assert top * cols + left + (n - 1) * cols == r * cols + left;
      FlattenRun(image, rows, cols, r, left, w);
      StridedSumIsBlockSum(image, rows, cols, top, left, n - 1, w);
    }
  }

  /** Block-mean decimation: when the image is exactly `r0 * xs` rows by
      `r1 * ys` columns, numpy accepts the reshape and cell (a, c) of the mean
      is the mean of the `xs` by `ys` block at rows `[a*xs, (a+1)*xs)` and
      columns `[c*ys, (c+1)*ys)`. */
  lemma ReshapeMeanIsBlockMean(image: Image, r0: nat, xs: nat, r1: nat, ys: nat, a: nat, c: nat)
    requires xs > 0 && ys > 0 && a < r0 && c < r1
    requires IsShape(image, r0 * xs, r1 * ys)
    ensures |Flatten(image)| == r0 * xs * r1 * ys && |Flatten(image)| > 0
    ensures a * xs + xs <= r0 * xs && c * ys + ys <= r1 * ys
    ensures ReshapeMean(image, r0, xs, r1, ys).Success?
    ensures ReshapeMean(image, r0, xs, r1, ys).value[a][c] == BlockMean(image, a * xs, c * ys, xs, ys)
  {
    FlattenLength(image, r0 * xs, r1 * ys);
    assert r0 * xs * (r1 * ys) == r0 * xs * r1 * ys;
    MulMono(1, r0 * xs, r1 * ys);
    assert |Flatten(image)| > 0;
    MulMono(a + 1, r0, xs);
    MulMono(c + 1, r1, ys);
    assert (a + 1) * xs == a * xs + xs && (c + 1) * ys == c * ys + ys;
    assert a * xs * (r1 * ys) == (a * xs) * (r1 * ys);
    StridedSumIsBlockSum(image, r0 * xs, r1 * ys, a * xs, c * ys, xs, ys);
  }
}
