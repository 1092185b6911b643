/** `Block` of `src/block.py`: one topographic source tile, its placement
    fields and its downsampled, flipped and z-scaled sample grid
    (`scaled_image`), with the text and record exports. The image is an input
    value instead of a file read; the record stands for the pickled dict. */
module Blocks {
  import opened Common
  import opened Grids
  import opened DatText
  import opened Projection

  /** The `resolution` argument: a list (whose length is checked) or a pair. */
  datatype Resolution = ListResolution(dims: seq<nat>) | PairResolution(rows: nat, cols: nat)

  /** The fields of a block, as `export_as_pickle` stores them under the keys
      `filepath`, `x_off`, `y_off`, `x_size`, `y_size`, `z_scale`, `z_offset`
      and `data`; None is Python's None, or a missing `scaled_image`. */
  datatype Record = Record(filepath: string, xOff: Option<int>, yOff: Option<int>,
                           xSize: Option<nat>, ySize: Option<nat>, zScale: Option<int>, zOffset: Option<int>,
                           scaledImage: Option<Grid>)

  /** The grid `__init__` starts with: `np.zeros(resolution)` for a given
      resolution, none when it is None; a list of any length but 2 raises. */
  function InitialImage(resolution: Option<Resolution>): (r: Result<Option<Grid>>)
    ensures r.Failure? <==> resolution.Some? && resolution.value.ListResolution? && |resolution.value.dims| != 2
    ensures r.Failure? ==> r.error == ValueError("Resolution needs to be of lenght 2")
    ensures r.Success? ==> (r.value.Some? <==> resolution.Some?)
    ensures r.Success? && r.value.Some? ==>
      var rows := if resolution.value.ListResolution? then resolution.value.dims[0] else resolution.value.rows;
      var cols := if resolution.value.ListResolution? then resolution.value.dims[1] else resolution.value.cols;
      IsShape(r.value.value, rows, cols) &&
      forall i, j :: 0 <= i < rows && 0 <= j < cols ==> r.value.value[i][j] == 0.0
  {
    match resolution
    case None => Success(None)
    case Some(ListResolution(dims)) =>
      if |dims| != 2 then Failure(ValueError("Resolution needs to be of lenght 2"))
      else Success(Some(Zeros(dims[0], dims[1])))
    case Some(PairResolution(rows, cols)) => Success(Some(Zeros(rows, cols)))
  }

  /** `load_image` on a record: check the fields, decimate the image to the
      shape of the current grid by block means, flip the rows, then multiply by
      `1 / z_scale`. The `*=` runs after the flipped mean is stored, so a zero
      `z_scale` raises with that grid in place. Only the grid changes. */
  function Loaded(rec: Record, image: Image): (r: (Outcome, Record))
    requires rec.scaledImage.Some? ==> IsMatrix(rec.scaledImage.value)
    requires LoadDefined(rec, image)
    ensures r.1.(scaledImage := rec.scaledImage) == rec
    ensures r.1.scaledImage.Some? ==> IsMatrix(r.1.scaledImage.value)
    ensures r.0.Pass? ==>
              rec.scaledImage.Some? && r.1.scaledImage.Some? &&
              IsShape(r.1.scaledImage.value, |rec.scaledImage.value|, Width(rec.scaledImage.value))
    ensures r.0.Fail? && r.0.error != ZeroDivisionError ==> r.1 == rec
  {
    if rec.xSize.None? then (Fail(RuntimeError("x_size not initialized")), rec)
    else if rec.ySize.None? then (Fail(RuntimeError("y_size not initialized")), rec)
    else if rec.zScale.None? then (Fail(RuntimeError("z_scale not initialized")), rec)
    else if rec.scaledImage.None? then (Fail(AttributeError("scaled_image")), rec)
    else
      var g := rec.scaledImage.value;
      var rows, cols := |g|, Width(g);
      if rows == 0 || cols == 0 then (Fail(ZeroDivisionError), rec)
      else
        match ReshapeMean(image, rows, rec.xSize.value / rows, cols, rec.ySize.value / cols)
        case Failure(e) => (Fail(e), rec)
        case Success(mean) =>
          FlipShape(mean, rows, cols);
          var flipped := Flip(mean);
          if rec.zScale.value == 0 then (Fail(ZeroDivisionError), rec.(scaledImage := Some(flipped)))
          else (Pass, rec.(scaledImage := Some(ScaleGrid(flipped, 1.0 / rec.zScale.value as real))))
  }

  /** The mean `load_image` would take has a number in every cell: the model
      leaves out only an empty image whose decimation factor `x_size // rows`
      or `y_size // cols` is 0 for a nonempty grid, which numpy averages into
      NaN. */
  predicate LoadDefined(rec: Record, image: Image)
    requires rec.scaledImage.Some? ==> IsMatrix(rec.scaledImage.value)
  {
    rec.xSize.None? || rec.ySize.None? || rec.zScale.None? || rec.scaledImage.None? ||
    var g := rec.scaledImage.value;
    |g| == 0 || Width(g) == 0 ||
    MeanDefined(image, |g|, rec.xSize.value / |g|, Width(g), rec.ySize.value / Width(g))
  }

  /** The downsampled grid: when the image is exactly `rows * xs` by
      `cols * ys` pixels, where `xs == x_size // rows` and `ys == y_size // cols`
      for the current `rows` by `cols` grid, `load_image` succeeds for a
      non-zero `z_scale`, and the new grid is the block mean of the image,
      flipped upside down and multiplied by `1 / z_scale` (DecimatedCell gives
      its elements). */
  lemma LoadedDecimates(rec: Record, image: Image, rows: nat, cols: nat, xs: nat, ys: nat)
    requires rec.xSize.Some? && rec.ySize.Some? && rec.zScale.Some? && rec.scaledImage.Some?
    requires IsShape(rec.scaledImage.value, rows, cols) && rows > 0 && cols > 0
    requires xs > 0 && ys > 0 && rec.xSize.value / rows == xs && rec.ySize.value / cols == ys
    requires IsShape(image, rows * xs, cols * ys)
    requires rec.zScale.value != 0
    ensures |Flatten(image)| > 0 && ReshapeMean(image, rows, xs, cols, ys).Success?
    ensures Loaded(rec, image) ==
      (Pass, rec.(scaledImage := Some(ScaleGrid(Flip(ReshapeMean(image, rows, xs, cols, ys).value), 1.0 / rec.zScale.value as real))))
  {
    ReshapeMeanIsBlockMean(image, rows, xs, cols, ys, 0, 0);
    LoadedPass(rec, image, rows, cols, ReshapeMean(image, rows, xs, cols, ys).value);
  }

  /** Element (i, j) of the flipped, scaled block mean: the mean of the `xs`
      by `ys` pixel block of averaged row `rows - 1 - i` and column j, times
      the factor. */
  lemma DecimatedCell(image: Image, rows: nat, xs: nat, cols: nat, ys: nat, factor: real, i: nat, j: nat)
    requires xs > 0 && ys > 0 && i < rows && j < cols
    requires IsShape(image, rows * xs, cols * ys)
    ensures |Flatten(image)| > 0
    ensures (rows - 1 - i) * xs + xs <= rows * xs && j * ys + ys <= cols * ys
    ensures ReshapeMean(image, rows, xs, cols, ys).Success?
    ensures var r := ScaleGrid(Flip(ReshapeMean(image, rows, xs, cols, ys).value), factor);
      IsShape(r, rows, cols) &&
      r[i][j] == Scale(BlockMean(image, (rows - 1 - i) * xs, j * ys, xs, ys), factor)
  {
    ReshapeMeanIsBlockMean(image, rows, xs, cols, ys, rows - 1 - i, j);
    FlippedCell(ReshapeMean(image, rows, xs, cols, ys).value, rows, cols, factor, i, j);
  }

  /** Element (i, j) of a flipped, scaled grid comes from row `rows - 1 - i`. */
  lemma FlippedCell(g: Grid, rows: nat, cols: nat, factor: real, i: nat, j: nat)
    requires IsShape(g, rows, cols) && i < rows && j < cols
    ensures var r := ScaleGrid(Flip(g), factor);
      IsShape(r, rows, cols) && r[i][j] == Scale(g[rows - 1 - i][j], factor)
  {
    FlipShape(g, rows, cols);
  }

  /** The successful path of Loaded, given the mean it computes. */
  lemma LoadedPass(rec: Record, image: Image, rows: nat, cols: nat, mean: Grid)
    requires rec.xSize.Some? && rec.ySize.Some? && rec.zScale.Some? && rec.scaledImage.Some?
    requires IsShape(rec.scaledImage.value, rows, cols) && rows > 0 && cols > 0
    requires |Flatten(image)| > 0 && rec.zScale.value != 0
    requires ReshapeMean(image, rows, rec.xSize.value / rows, cols, rec.ySize.value / cols) == Success(mean)
    ensures Loaded(rec, image) == (Pass, rec.(scaledImage := Some(ScaleGrid(Flip(mean), 1.0 / rec.zScale.value as real))))
  {
    assert |rec.scaledImage.value| == rows && Width(rec.scaledImage.value) == cols;
  }

  /** A Python `Block`. The placement fields are plain values; `scaledImage`
      is None until a resolution or an image sets it (`hasattr` is false). */
  class Block {
    var filepath: string
    var xOff: Option<int>
    var yOff: Option<int>
    var xSize: Option<nat>
    var ySize: Option<nat>
    var zScale: Option<int>
    var zOffset: Option<int>
    var scaledImage: Option<Grid>

    /** Every grid is rectangular, as numpy arrays are. */
    predicate Valid()
      reads this
    {
      scaledImage.Some? ==> IsMatrix(scaledImage.value)
    }

    /** The block's fields as a record. */
    function Fields(): Record
      reads this
    {
      Record(filepath, xOff, yOff, xSize, ySize, zScale, zOffset, scaledImage)
    }

    constructor Init(rec: Record)
      requires rec.scaledImage.Some? ==> IsMatrix(rec.scaledImage.value)
      ensures Fields() == rec && Valid()
    {
      filepath := rec.filepath;
      xOff := rec.xOff;
      yOff := rec.yOff;
      xSize := rec.xSize;
      ySize := rec.ySize;
      zScale := rec.zScale;
      zOffset := rec.zOffset;
      scaledImage := rec.scaledImage;
    }

    /** `Block(filepath, x_off, y_off, x_size, y_size, z_scale, resolution,
        z_offset)`: stores the arguments and, for a resolution, a zero grid of
        that shape; a resolution list whose length is not 2 raises. */
    static method New(filepath: string, xOff: Option<int>, yOff: Option<int>, xSize: Option<nat>, ySize: Option<nat>,
                      zScale: Option<int>, resolution: Option<Resolution>, zOffset: Option<int>) returns (r: Result<Block>)
      ensures r.Failure? <==> InitialImage(resolution).Failure?
      ensures r.Failure? ==> r.error == ValueError("Resolution needs to be of lenght 2")
      ensures r.Success? ==>
                fresh(r.value) && r.value.Valid() &&
                r.value.Fields() == Record(filepath, xOff, yOff, xSize, ySize, zScale, zOffset, InitialImage(resolution).value)
    {
      var image := InitialImage(resolution);
      if image.Failure? {
        return Failure(image.error);
      }
      if image.value.Some? {
        var g := image.value.value;
        assert IsShape(g, |g|, Width(g));
      }
      var b := new Block.Init(Record(filepath, xOff, yOff, xSize, ySize, zScale, zOffset, image.value));
      return Success(b);
    }

    /** `unmeractor(x, y)`: the angles of raster position
        `(x + x_off, y + y_off)`, latitude `2 * pi * (x + x_off) / raster_x`
        and longitude `pi * (y + y_off) / raster_y`. Unset offsets raise
        `RuntimeError`, a zero extent `ZeroDivisionError`. */
    function Unmeractor(x: int, y: int, rasterX: int, rasterY: int): (r: Result<(real, real)>)
      reads this
      ensures r.Failure? <==> xOff.None? || yOff.None? || rasterX == 0 || rasterY == 0
      ensures xOff.None? ==> r == Failure(RuntimeError("x_off needs to be of type int, not None"))
      ensures xOff.Some? && yOff.None? ==> r == Failure(RuntimeError("y_off needs to be of type int, not None"))
    {
      if xOff.None? then Failure(RuntimeError("x_off needs to be of type int, not None"))
      else if yOff.None? then Failure(RuntimeError("y_off needs to be of type int, not None"))
      else if rasterX == 0 || rasterY == 0 then Failure(ZeroDivisionError)
      else Success(((x + xOff.value) as real / rasterX as real * 2.0 * PI, (y + yOff.value) as real / rasterY as real * PI))
    }

    /** The two angle conventions agree up to a shift: `unmeractor` is the
        projections' `unmercator` of the offset position plus `(pi, pi / 2)`,
        so its latitude spans `[0, 2 pi)` where `unmercator`'s spans
        `[-pi, pi)`. */
    lemma UnmeractorIsShiftedUnmercator(x: int, y: int, rasterX: int, rasterY: int)
      requires xOff.Some? && yOff.Some? && rasterX != 0 && rasterY != 0
      ensures var u := Unmercator((x + xOff.value) as real, (y + yOff.value) as real, rasterX, rasterY);
        Unmeractor(x, y, rasterX, rasterY) == Success((u.0 + PI, u.1 + PI / 2.0))
    {
      var px, py := (x + xOff.value) as real, (y + yOff.value) as real;
      var u := Unmercator(px, py, rasterX, rasterY);
      var X, Y := rasterX as real, rasterY as real;
      assert (u.0 + PI) * X == 2.0 * PI * px;
      assert px / X * 2.0 * PI * X == 2.0 * PI * px;
      assert (u.1 + PI / 2.0) * Y == PI * py;
      assert py / Y * PI * Y == PI * py;
    }

    /** `load_image()` on a given image: the block ends up as `Loaded` says. */
    method LoadImage(image: Image) returns (r: Outcome)
      requires Valid() && LoadDefined(Fields(), image)
      modifies this
      ensures Valid()
      ensures (r, Fields()) == Loaded(old(Fields()), image)
    {
      if xSize.None? {
        return Fail(RuntimeError("x_size not initialized"));
      }
      if ySize.None? {
        return Fail(RuntimeError("y_size not initialized"));
      }
      if zScale.None? {
        return Fail(RuntimeError("z_scale not initialized"));
      }
      if scaledImage.None? {
        return Fail(AttributeError("scaled_image"));
      }
      var rows, cols := |scaledImage.value|, Width(scaledImage.value);
      if rows == 0 || cols == 0 {
        return Fail(ZeroDivisionError);
      }
      // scaling factors for the reshape
      var xScale, yScale := xSize.value / rows, ySize.value / cols;
      var reshaped := ReshapeMean(image, rows, xScale, cols, yScale);
      if reshaped.Failure? {
        return Fail(reshaped.error);
      }
      FlipShape(reshaped.value, rows, cols);
      scaledImage := Some(Flip(reshaped.value));
      if zScale.value == 0 {
        return Fail(ZeroDivisionError);
      }
      scaledImage := Some(ScaleGrid(scaledImage.value, 1.0 / zScale.value as real));
      return Pass;
    }

    /** `export_as_dat()`: the text it writes, one line per grid row in order,
        values joined by single spaces and lines by newlines; without a grid it
        raises `RuntimeError`. */
    method ExportAsDat(show: real -> string) returns (r: Result<string>)
      requires Valid()
      ensures scaledImage.None? ==> r == Failure(RuntimeError("scaled_image not initialized"))
      ensures scaledImage.Some? ==> r == Success(GridText(show, scaledImage.value))
    {
      if scaledImage.None? {
        return Failure(RuntimeError("scaled_image not initialized"));
      }
      var g := scaledImage.value;
      var datRows: seq<string> := [];
      var x := 0;
      while x < |g|
        invariant 0 <= x <= |g|
        invariant datRows == GridLines(show, g)[..x]
      {
        assert |g[x]| == Width(g);
        datRows := datRows + [RowText(show, g[x])];
        x := x + 1;
      }
      assert datRows == GridLines(show, g);
      return Success(Join('\n', datRows));
    }

    /** `export_as_pickle()`: the record it stores; the `data` entry reads
        `scaled_image`, so a block without a grid raises `AttributeError`. */
    method ExportAsPickle() returns (r: Result<Record>)
      ensures scaledImage.None? ==> r == Failure(AttributeError("scaled_image"))
      ensures scaledImage.Some? ==> r == Success(Fields())
    {
      if scaledImage.None? {
        return Failure(AttributeError("scaled_image"));
      }
      return Success(Record(filepath, xOff, yOff, xSize, ySize, zScale, zOffset, scaledImage));
    }

    /** `read_from_pickle()`: copy every entry of the record into the block. A
        record without `data` raises `KeyError` after the other fields have
        been copied. */
    method ReadFromPickle(rec: Record) returns (r: Outcome)
      requires Valid() && (rec.scaledImage.Some? ==> IsMatrix(rec.scaledImage.value))
      modifies this
      ensures Valid()
      ensures r == if rec.scaledImage.Some? then Pass else Fail(KeyError("data"))
      ensures Fields() == rec.(scaledImage := if rec.scaledImage.Some? then rec.scaledImage else old(scaledImage))
    {
      filepath := rec.filepath;
      xOff := rec.xOff;
      yOff := rec.yOff;
      xSize := rec.xSize;
      ySize := rec.ySize;
      zScale := rec.zScale;
      zOffset := rec.zOffset;
      if rec.scaledImage.None? {
        return Fail(KeyError("data"));
      }
      scaledImage := rec.scaledImage;
      return Pass;
    }
  }

  /** Round trip through the record: exporting a block that has a grid and
      reading the record into any block makes that block a copy of it. */
  method PickleRoundTrip(source: Block, target: Block) returns (r: Outcome)
    requires source.Valid() && target.Valid()
    modifies target
    ensures r.Pass? <==> old(source.scaledImage).Some?
    ensures r.Pass? ==> target.Fields() == old(source.Fields())
  {
    var rec := source.ExportAsPickle();
    if rec.Failure? {
      return Fail(rec.error);
    }
    r := target.ReadFromPickle(rec.value);
  }
}
