/** `Block` of `src/read_data.py`, the earlier form of the block: its
    constructor turns pixel offsets into tile indices and the resolution into
    decimation factors, `read_image` decimates without flipping, and
    `export_as_dat` flips while printing, in a format of its own (every value
    followed by a space, every row by a newline). The image is an input value
    instead of a file read, and the text is returned instead of written. */
module ReadData {
  import opened Common
  import opened Grids
  import opened DatText

  /** What `__init__` derives from its arguments: the tile indices of the
      offsets (the y index stored as `180 - tile`, the data being south up)
      and the decimation factors. */
  datatype Placement = Placement(xOff: int, yOff: int, scaleX: nat, scaleY: nat)

  /** The floor divisions of `__init__`. Python's `//` floors; Dafny's `/`
      agrees with it for a positive divisor, and a zero divisor raises
      `ZeroDivisionError`. */
  function Place(xOff: int, yOff: int, xSize: nat, ySize: nat, resolution: (nat, nat)): (r: Result<Placement>)
    ensures r.Failure? <==> xSize == 0 || ySize == 0 || resolution.0 == 0 || resolution.1 == 0
    ensures r.Failure? ==> r.error == ZeroDivisionError
    ensures r.Success? ==> r.value.xOff * xSize <= xOff < r.value.xOff * xSize + xSize
    ensures r.Success? ==> (180 - r.value.yOff) * ySize <= yOff < (180 - r.value.yOff) * ySize + ySize
    ensures r.Success? ==> r.value.scaleX * resolution.0 <= xSize < r.value.scaleX * resolution.0 + resolution.0
    ensures r.Success? ==> r.value.scaleY * resolution.1 <= ySize < r.value.scaleY * resolution.1 + resolution.1
  {
    if xSize == 0 || ySize == 0 || resolution.0 == 0 || resolution.1 == 0 then Failure(ZeroDivisionError)
    else Success(Placement(xOff / xSize, 180 - yOff / ySize, xSize / resolution.0, ySize / resolution.1))
  }

  /** The fields of a block; `scaledImage` is None while the attribute does
      not exist. */
  datatype State = State(filepath: string, xOff: int, yOff: int, xSize: nat, ySize: nat,
                         scaleX: nat, scaleY: nat, zScale: int, zOffset: int,
                         resolution: (nat, nat), scaledImage: Option<Grid>)

  /** The mean `read_image` would take has a number in every cell: the model
      leaves out only an empty image decimated with a zero factor into a
      nonempty resolution, which numpy averages into NaN. The full image, kept
      when both factors are 1, may be empty. */
  predicate ReadDefined(st: State, image: Image) {
    (st.scaleX == 1 && st.scaleY == 1) || MeanDefined(image, st.resolution.0, st.scaleX, st.resolution.1, st.scaleY)
  }

  /** `read_image` on a state: a factor of 1 on both axes keeps the full image;
      otherwise the image is decimated to the resolution by block means, which
      is stored, and then multiplied by `1 / z_scale`, so a zero `z_scale`
      raises with the unscaled mean in place. Only the grid changes. */
  function Read(st: State, image: Image): (r: (Outcome, State))
    requires IsMatrix(image) && ReadDefined(st, image)
    ensures r.1.(scaledImage := st.scaledImage) == st
    ensures st.scaleX == 1 && st.scaleY == 1 ==> r == (Pass, st.(scaledImage := Some(ToGrid(image))))
    ensures r.1.scaledImage != st.scaledImage ==> r.1.scaledImage.Some? && IsMatrix(r.1.scaledImage.value)
    ensures !(st.scaleX == 1 && st.scaleY == 1) && r.1.scaledImage != st.scaledImage ==>
      IsShape(r.1.scaledImage.value, st.resolution.0, st.resolution.1)
    ensures r.0.Fail? && r.0.error != ZeroDivisionError ==> r.1 == st
  {
    if st.scaleX == 1 && st.scaleY == 1 then
      var full := ToGrid(image);
      assert IsShape(full, |image|, Width(image));
      (Pass, st.(scaledImage := Some(full)))
    else
      match ReshapeMean(image, st.resolution.0, st.scaleX, st.resolution.1, st.scaleY)
      case Failure(e) => (Fail(e), st)
      case Success(mean) =>
        if st.zScale == 0 then (Fail(ZeroDivisionError), st.(scaledImage := Some(mean)))
        else (Pass, st.(scaledImage := Some(ScaleGrid(mean, 1.0 / st.zScale as real))))
  }

  /** The decimated grid: when the image is exactly `resolution[0] * scale_x`
      by `resolution[1] * scale_y` pixels and a factor is not 1, `read_image`
      succeeds for a non-zero `z_scale`, and the grid is the block mean of the
      image times `1 / z_scale`, not flipped (MeanCell gives its elements). */
  lemma ReadDecimates(st: State, image: Image)
    requires !(st.scaleX == 1 && st.scaleY == 1) && st.scaleX > 0 && st.scaleY > 0
    requires st.resolution.0 > 0 && st.resolution.1 > 0 && st.zScale != 0
    requires IsShape(image, st.resolution.0 * st.scaleX, st.resolution.1 * st.scaleY)
    ensures IsMatrix(image) && |Flatten(image)| > 0 && ReadDefined(st, image)
    ensures ReshapeMean(image, st.resolution.0, st.scaleX, st.resolution.1, st.scaleY).Success?
    ensures Read(st, image) ==
      (Pass, st.(scaledImage := Some(ScaleGrid(ReshapeMean(image, st.resolution.0, st.scaleX, st.resolution.1, st.scaleY).value,
                                               1.0 / st.zScale as real))))
  {
    ReshapeMeanIsBlockMean(image, st.resolution.0, st.scaleX, st.resolution.1, st.scaleY, 0, 0);
    assert IsMatrix(image);
  }

  /** Element (i, j) of the scaled block mean: the mean of the `xs` by `ys`
      pixel block at row `i * xs` and column `j * ys`, times the factor. */
  lemma MeanCell(image: Image, rows: nat, xs: nat, cols: nat, ys: nat, factor: real, i: nat, j: nat)
    requires xs > 0 && ys > 0 && i < rows && j < cols
    requires IsShape(image, rows * xs, cols * ys)
    ensures |Flatten(image)| > 0
    ensures i * xs + xs <= rows * xs && j * ys + ys <= cols * ys
    ensures ReshapeMean(image, rows, xs, cols, ys).Success?
    ensures var r := ScaleGrid(ReshapeMean(image, rows, xs, cols, ys).value, factor);
      IsShape(r, rows, cols) &&
      r[i][j] == Scale(BlockMean(image, i * xs, j * ys, xs, ys), factor)
  {
    ReshapeMeanIsBlockMean(image, rows, xs, cols, ys, i, j);
  }

  /** `"%s " % v` for each value of a row, in order. */
  function LegacyLine(show: real -> string, row: seq<real>): string {
    if |row| == 0 then "" else LegacyLine(show, row[..|row| - 1]) + show(row[|row| - 1]) + " "
  }

  /** One more value of the row adds its printed form and a space. */
  lemma LegacyLineStep(show: real -> string, row: seq<real>, y: nat)
    requires y < |row|
    ensures LegacyLine(show, row[..y + 1]) == LegacyLine(show, row[..y]) + show(row[y]) + " "
  {
    assert row[..y + 1][..y] == row[..y];
  }

  /** One more line adds it and a newline. */
  lemma LegacyTextStep(show: real -> string, lines: seq<seq<real>>, x: nat)
    requires x < |lines|
    ensures LegacyText(show, lines[..x + 1]) == LegacyText(show, lines[..x]) + LegacyLine(show, lines[x]) + "\n"
  {
    assert lines[..x + 1][..x] == lines[..x];
  }

  /** Each line followed by a newline. */
  function LegacyText(show: real -> string, lines: seq<seq<real>>): string {
    if |lines| == 0 then "" else LegacyText(show, lines[..|lines| - 1]) + LegacyLine(show, lines[|lines| - 1]) + "\n"
  }

  /** The values `export_as_dat` prints: for x in `range(rows)`, row
      `rows - x - 1` of the grid cut to its first `cols` values; without
      columns nothing is read. */
  function Lines(image: Option<Grid>, rows: nat, cols: nat): (r: seq<seq<real>>)
    requires rows == 0 || cols == 0 ||
      (image.Some? && IsMatrix(image.value) && rows <= |image.value| && cols <= Width(image.value))
    ensures |r| == rows
  {
    seq(rows, x requires 0 <= x < rows =>
      if cols == 0 then [] else
        assert |image.value[rows - x - 1]| == Width(image.value);
        image.value[rows - x - 1][..cols])
  }

  /** The outcome of `export_as_dat` with resolution (rows, cols). The grid is
      read only when both are positive: a missing grid raises
      `AttributeError`, and a resolution larger than the grid `IndexError`. */
  function ExportText(show: real -> string, image: Option<Grid>, rows: nat, cols: nat): (r: Result<string>)
    requires image.Some? ==> IsMatrix(image.value)
    ensures r.Failure? <==>
              rows > 0 && cols > 0 && (image.None? || rows > |image.value| || cols > Width(image.value))
    ensures r.Failure? ==> r.error == if image.None? then AttributeError("scaled_image") else IndexError
  {
    if rows == 0 || cols == 0 then Success(LegacyText(show, Lines(image, rows, cols)))
    else if image.None? then Failure(AttributeError("scaled_image"))
    else if rows > |image.value| || cols > Width(image.value) then Failure(IndexError)
    else Success(LegacyText(show, Lines(image, rows, cols)))
  }

  /** The export at the end of a decimating `read_image` cannot fail: the
      grid it stores has exactly the block's resolution. */
  lemma ReadThenExport(show: real -> string, st: State, image: Image)
    requires IsMatrix(image) && ReadDefined(st, image)
    requires !(st.scaleX == 1 && st.scaleY == 1) && Read(st, image).0 == Pass
    ensures Read(st, image).1.scaledImage.Some?
    ensures ExportText(show, Read(st, image).1.scaledImage, st.resolution.0, st.resolution.1).Success?
  {
    var g := Read(st, image).1.scaledImage.value;
    assert IsShape(g, st.resolution.0, st.resolution.1);
  }

  /** A line of this format is a line of the space-joined format followed by
      a space. */
  lemma {:induction false} LegacyLineIsRowText(show: real -> string, row: seq<real>)
    requires |row| > 0
    ensures LegacyLine(show, row) == RowText(show, row) + " "
  {
    var init := row[..|row| - 1];
    if |init| > 0 {
      LegacyLineIsRowText(show, init);
      assert Tokens(show, row)[..|row| - 1] == Tokens(show, init);
    }
  }

  /** The printed lines, without their newlines. */
  function LegacyParts(show: real -> string, lines: seq<seq<real>>): (r: seq<string>)
    ensures |r| == |lines|
    ensures forall k :: 0 <= k < |lines| ==> r[k] == LegacyLine(show, lines[k])
  {
    seq(|lines|, k requires 0 <= k < |lines| => LegacyLine(show, lines[k]))
  }

  /** The text is the lines joined by newlines, followed by a newline. */
  lemma {:induction false} LegacyTextIsJoin(show: real -> string, lines: seq<seq<real>>)
    requires |lines| > 0
    ensures LegacyText(show, lines) == Join('\n', LegacyParts(show, lines)) + "\n"
  {
    var init := lines[..|lines| - 1];
    if |init| > 0 {
      LegacyTextIsJoin(show, init);
      var parts := LegacyParts(show, lines);
      assert parts[..|parts| - 1] == LegacyParts(show, init);
    }
  }

  /** Both exports print the same grid: exporting a `rows` by `cols` grid at
      its own resolution gives one line per row, line x being the space-joined
      values of row `rows - 1 - x` (the line Blocks' `export_as_dat` gives
      for its already-flipped grid) followed by a space, and a final newline. */
  lemma DatFormatsAgree(show: real -> string, g: Grid)
    requires IsMatrix(g) && |g| > 0 && Width(g) > 0 && Printable(show, g)
    ensures ExportText(show, Some(g), |g|, Width(g)).Success?
    ensures Split('\n', ExportText(show, Some(g), |g|, Width(g)).value) == SpacedLines(show, Flip(g)) + [""]
  {
    var lines := Lines(Some(g), |g|, Width(g));
    var parts := LegacyParts(show, lines);
    FlippedParts(show, g);
    LegacyTextIsJoin(show, lines);
    SplitJoin('\n', parts);
    var text := Join('\n', parts);
    assert text + "\n" == text + ['\n'] + "";
    SplitAppend('\n', text, "");
  }

  /** The lines of Blocks' format, each followed by a space. */
  function SpacedLines(show: real -> string, g: Grid): (r: seq<string>)
    ensures |r| == |g|
  {
    seq(|g|, x requires 0 <= x < |g| => RowText(show, g[x]) + " ")
  }

  /** The printed lines of a full-resolution export are the spaced lines of
      the flipped grid, none holding a newline. */
  lemma FlippedParts(show: real -> string, g: Grid)
    requires IsMatrix(g) && |g| > 0 && Width(g) > 0 && Printable(show, g)
    ensures var parts := LegacyParts(show, Lines(Some(g), |g|, Width(g)));
      parts == SpacedLines(show, Flip(g)) && forall k :: 0 <= k < |parts| ==> '\n' !in parts[k]
  {
    var lines := Lines(Some(g), |g|, Width(g));
    var parts := LegacyParts(show, lines);
    var want := SpacedLines(show, Flip(g));
    forall x | 0 <= x < |g|
      ensures parts[x] == want[x] && '\n' !in parts[x]
    {
      var row := g[|g| - x - 1];
      assert |row| == Width(g);
      assert lines[x] == row;
      assert Flip(g)[x] == row;
      LegacyLineIsRowText(show, row);
      RowTextNoNewline(show, g, |g| - x - 1);
    }
  }

  /** The loops of `export_as_dat`: for each line, `"%s " % v` for each of its
      values, then a newline, appended to the text one piece at a time. */
  method PrintLines(show: real -> string, lines: seq<seq<real>>) returns (data: string)
    ensures data == LegacyText(show, lines)
  {
    data := "";
    var x := 0;
    while x < |lines|
      invariant 0 <= x <= |lines|
      invariant data == LegacyText(show, lines[..x])
    {
      var y := 0;
      while y < |lines[x]|
        invariant 0 <= y <= |lines[x]|
        invariant data == LegacyText(show, lines[..x]) + LegacyLine(show, lines[x][..y])
      {
        LegacyLineStep(show, lines[x], y);
        data := data + show(lines[x][y]) + " ";
        y := y + 1;
      }
      assert lines[x][..y] == lines[x];
      LegacyTextStep(show, lines, x);
      data := data + "\n";
      x := x + 1;
    }
    assert lines[..|lines|] == lines;
  }

  /** A Python `Block` of this module. */
  class Block {
    var filepath: string
    var xOff: int
    var yOff: int
    var xSize: nat
    var ySize: nat
    var scaleX: nat
    var scaleY: nat
    var zScale: int
    var zOffset: int
    var resolution: (nat, nat)
    var scaledImage: Option<Grid>

    /** Every grid is rectangular, as numpy arrays are. */
    predicate Valid()
      reads this
    {
      scaledImage.Some? ==> IsMatrix(scaledImage.value)
    }

    /** The block's fields as a value. */
    function Fields(): State
      reads this
    {
      State(filepath, xOff, yOff, xSize, ySize, scaleX, scaleY, zScale, zOffset, resolution, scaledImage)
    }

    constructor Init(st: State)
      requires st.scaledImage.Some? ==> IsMatrix(st.scaledImage.value)
      ensures Fields() == st && Valid()
    {
      filepath := st.filepath;
      xOff := st.xOff;
      yOff := st.yOff;
      xSize := st.xSize;
      ySize := st.ySize;
      scaleX := st.scaleX;
      scaleY := st.scaleY;
      zScale := st.zScale;
      zOffset := st.zOffset;
      resolution := st.resolution;
      scaledImage := st.scaledImage;
    }

    /** `Block(filepath, x_off, y_off, x_size, y_size, z_scale, resolution,
        z_offset)`: the placement of Place, the other arguments as given, and
        no grid yet. */
    static method New(filepath: string, xOff: int, yOff: int, xSize: nat, ySize: nat, zScale: int,
                      resolution: (nat, nat), zOffset: int) returns (r: Result<Block>)
      ensures r.Failure? <==> Place(xOff, yOff, xSize, ySize, resolution).Failure?
      ensures r.Failure? ==> r.error == ZeroDivisionError
      ensures r.Success? ==>
                var p := Place(xOff, yOff, xSize, ySize, resolution).value;
                fresh(r.value) && r.value.Valid() &&
                r.value.Fields() == State(filepath, p.xOff, p.yOff, xSize, ySize, p.scaleX, p.scaleY,
                                          zScale, zOffset, resolution, None)
    {
      var p := Place(xOff, yOff, xSize, ySize, resolution);
      if p.Failure? {
        return Failure(p.error);
      }
      var b := new Block.Init(State(filepath, p.value.xOff, p.value.yOff, xSize, ySize, p.value.scaleX, p.value.scaleY,
                                    zScale, zOffset, resolution, None));
      return Success(b);
    }

    /** `read_image()` on a given image: the block ends up as Read says. */
    method ReadImage(image: Image) returns (r: Outcome)
      requires Valid() && IsMatrix(image) && ReadDefined(Fields(), image)
      modifies this
      ensures Valid()
      ensures (r, Fields()) == Read(old(Fields()), image)
    {
      // full image
      if scaleX == 1 && scaleY == 1 {
        scaledImage := Some(ToGrid(image));
        assert IsShape(scaledImage.value, |image|, Width(image));
        return Pass;
      }
      var reshaped := ReshapeMean(image, resolution.0, scaleX, resolution.1, scaleY);
      if reshaped.Failure? {
        return Fail(reshaped.error);
      }
      scaledImage := Some(reshaped.value);
      if zScale == 0 {
        return Fail(ZeroDivisionError);
      }
      scaledImage := Some(ScaleGrid(scaledImage.value, 1.0 / zScale as real));
      return Pass;
    }

    /** `export_as_dat()`: the text it writes, built value by value from the
        rows of the grid in reverse order (the data is south up). */
    method ExportAsDat(show: real -> string) returns (r: Result<string>)
      requires Valid()
      ensures r == ExportText(show, scaledImage, resolution.0, resolution.1)
    {
      var rows, cols := resolution.0, resolution.1;
      if rows > 0 && cols > 0 {
        if scaledImage.None? {
          return Failure(AttributeError("scaled_image"));
        }
        if rows > |scaledImage.value| || cols > Width(scaledImage.value) {
          return Failure(IndexError);
        }
      }
      var data := PrintLines(show, Lines(scaledImage, rows, cols));
      return Success(data);
    }
  }
}
