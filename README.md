# Topographic block downsampling and projection compositing, in Dafny

This project models the raster bookkeeping of a pipeline that turns
AW3D30-style topographic tiles into world maps:

- **Blocks** (`src/block.py`, class `Block`): a source tile with its placement
  fields (`x_off`, `y_off`, `x_size`, `y_size`, `z_scale`, `z_offset`) and a
  downsampled sample grid `scaled_image`. `load_image` averages the tile into
  blocks whose sizes are integer divisors (`x_size // rows`, `y_size // cols`),
  flips the rows (the data is south up) and multiplies by `1 / z_scale`.
  `export_as_dat` prints the grid as text, and `export_as_pickle` and
  `read_from_pickle` store the fields as a record and read them back.
  `unmeractor` maps a raster position to angles.
- **ReadData** (`src/read_data.py`, class `Block`): the earlier form of the
  block. Its constructor turns offsets into tile indices and the resolution
  into decimation factors. `read_image` averages without flipping.
  `export_as_dat` flips while it prints, and every value is followed by a
  space and every row by a newline.
- **Wagner** and **Winkel** (`src/projections/`): the compositing loops.
  `wagner_tile`, `wagner` and `winkel` send every sample of a downsampled grid
  to an integer cell of an output array. The cell is found through the raster
  position, `unmercator`, the projection, a scale and shift, Python's `round`
  and, for tiles, the tile offset. The sample is written in place.

The shared pieces are in their own modules:

- `Common`: results and the Python exceptions.
- `Grids`: grids, flip, scale, transpose, the C-order reshape and block means.
- `DatText`: `str.join`, `str.split` and the text format.
- `Projection`: `unmercator`, round-half-to-even and the axis placement.
- `Scatter`: the x-outer, y-inner scatter loop and its last-write-wins
  specification `LastHit`.

Images are input values (`seq<seq<int>>`). Grids are `seq<seq<real>>`, and
means are exact. Output arrays are `array2<real>` and are updated in place.
The trigonometric projection, the printed form of a value (`show`) and the
raster extents are parameters.

## Model

| member | source | states |
|---|---|---|
| Grids.Zeros | src/block.py:41-42 | `np.zeros(resolution)`: a grid of exactly that shape, every element 0 |
| Grids.Flip | src/block.py:147-148 | `np.flip(axis=0)`: row i of the result is row `n - 1 - i` of the input, length kept |
| Grids.FlipFlip | src/block.py:147-148 | flipping twice gives back the grid |
| Grids.ScaleFlip | src/block.py:147-151 | scaling a flipped grid equals flipping the scaled grid, so scaling before or after the flip gives the same grid |
| Grids.ScaleGrid | src/block.py:151 | `g * factor`: the same shape, element (i, j) is element (i, j) times the factor |
| Grids.ToGrid | src/read_data.py:51-53 | the full image kept as a grid: the same shape, element (i, j) is pixel (i, j) |
| Grids.Transpose | src/projections/winkel.py:73 | element (i, j) of the transpose of a square grid is element (j, i) |
| Grids.ReshapeMean | src/block.py:140-145 | the reshape fails with `ValueError` exactly when `rows * xs * cols * ys` differs from the pixel count; otherwise the mean has shape rows by cols |
| Grids.StridedSumIsBlockSum | src/block.py:140-145 | summing strided runs of the C-order flattening equals summing the rows of the corresponding image block |
| Grids.ReshapeMeanIsBlockMean | src/block.py:137-145 | for an image of exactly `rows*xs` by `cols*ys` pixels the reshape succeeds, and cell (a, c) is the mean of rows `[a*xs, (a+1)*xs)` and columns `[c*ys, (c+1)*ys)` |
| DatText.RowText | src/block.py:112 | definition: the printed values of a row joined by single spaces |
| DatText.GridText | src/block.py:110-116 | definition: the row texts joined by newlines; DatText.DatRoundTrip states what it holds |
| DatText.SplitJoin | src/block.py:112-116 | splitting a join on its separator gives back the parts when no part holds the separator |
| DatText.RowTextNoNewline | src/block.py:112 | a printed row of printable values holds no newline |
| DatText.DatRoundTrip | src/block.py:110-116 | the text splits on newlines into one line per grid row, and each line splits on spaces into that row's printed values, in order |
| DatText.DatNoTrailingSeparator | src/block.py:116 | the text ends with the last character of the last value: no trailing newline, no trailing space |
| Projection.Unmercator | src/projections/wagner.py:30-31 | the affine map from raster position to (latitude, longitude): `(lat + pi) * raster_x == 2 pi x` and `(lon + pi/2) * raster_y == pi y` |
| Projection.UnmercatorRange | src/projections/wagner.py:19-31 | positions inside the raster map to latitude in `[-pi, pi)` and longitude in `[-pi/2, pi/2)` |
| Projection.RoundHalfEven | src/projections/wagner.py:94-96 | `round` gives an integer within 1/2 of the value, and the even one on a tie |
| Projection.RoundUnique | src/projections/wagner.py:94-96 | any integer within 1/2 of v that is even on a tie is `round(v)` |
| Projection.RoundMonotone | src/projections/wagner.py:129-130 | rounding keeps order |
| Projection.AxisCell | src/projections/wagner.py:88-94 | definition: `round(v * (total - 1) + total / 2)` on one axis; AxisCellInRange and AxisCellUpperEdge state its range |
| Projection.Position | src/projections/wagner.py:83-84 | definition: the raster position `(x * x_scale + x_offset, y * y_scale + y_offset)` of sample (x, y) |
| Projection.Angles | src/projections/wagner.py:83-84 | definition: `unmercator` of that position; UnmercatorRange bounds it |
| Projection.AxisCellInRange | src/projections/wagner.py:88-94 | a normalised coordinate in `[-0.5, 0.5)`, scaled by `total - 1`, shifted by `total / 2` and rounded, lands in `[0, total)` |
| Projection.AxisCellUpperEdge | src/projections/wagner.py:88-94 | the coordinate 0.5 lands one past the last cell when `total` is even |
| Scatter.LastHit | src/projections/wagner.py:81-102 | the sample found was visited before the loop position, lies in the block, and was sent to the cell |
| Scatter.LastHitIsLast | src/projections/wagner.py:81-102 | no sample visited after the one found is sent to the same cell; when none is found, no visited sample is sent there |
| Scatter.LastHitFindsLatest | src/projections/wagner.py:81-102 | every sample sent to a cell is found or is earlier than the one found |
| Scatter.NoColumnsNoHit | src/projections/winkel.py:60-61 | a block without columns sends nothing anywhere |
| Scatter.ScatterSamples | src/projections/wagner.py:81-102 | after the x-outer, y-inner loop, each in-bounds output element holds the last sample sent to it, or its old value if none was |
| Wagner.GlobalCell | src/projections/wagner.py:83-96 | definition: the projected, scaled, shifted and rounded cell of sample (x, y) in the full output |
| Wagner.TileCell | src/projections/wagner.py:94-97 | definition: that cell minus the tile origin `(tile_x * rows, tile_y * cols)`; TileOwnsSample states which tile owns it |
| Wagner.FloorDivUnique | src/projections/wagner.py:95-100 | the only t with `t*n <= g < t*n + n` is `g // n` |
| Wagner.TileOwnsSample | src/projections/wagner.py:94-101 | a sample is inside tile (tile_x, tile_y) exactly when the tile is `(gx // rows, gy // cols)` of its global cell, so tiles partition the output |
| Wagner.WagnerTile | src/projections/wagner.py:64-102 | `AssertionError` unless both scales are positive; `ZeroDivisionError` for a zero raster extent and a nonempty block, before any write; otherwise every tile element holds the last sample whose tile-local cell it is, or keeps its value; nothing is written outside the tile |
| Wagner.EquirectCell | src/projections/wagner.py:129-130 | definition: `round(position / raster * shape)` on each axis, the cell `wagner` writes; EquirectCellIsPlateCarree and EquirectCellMonotone state what it is |
| Wagner.EquirectCellIsPlateCarree | src/projections/wagner.py:129-130 | the final cell of `wagner` rescales latitude from `[-pi, pi)` and longitude from `[-pi/2, pi/2)` to the output size: a plate carree placement |
| Wagner.EquirectCellMonotone | src/projections/wagner.py:129-130 | with a non-negative scale and positive extent, a later block row never lands on an earlier output row |
| Wagner.WagnerMap | src/projections/wagner.py:106-132 | `ZeroDivisionError` for a zero extent and a nonempty block; otherwise each output element holds the last sample whose plate carree cell it is, or keeps its value |
| Winkel.AngleToWinkel | src/projections/winkel.py:38-48 | definition: the Winkel tripel formulas, with `ZeroDivisionError` when the sinc factor is 0; WinkelOrigin, the mirror lemmas and WinkelCentreCell state its properties |
| Winkel.AlphaSi | src/projections/winkel.py:42 | the sinc factor is 1 at `alpha == 0` and `sin(alpha) / alpha` otherwise |
| Winkel.WinkelOrigin | src/projections/winkel.py:38-48 | the centre of the map (0, 0) projects to the planar origin |
| Winkel.WinkelMirrorLatitude | src/projections/winkel.py:39-47 | with an odd sine and even cosine, negating the latitude negates the planar x and keeps y |
| Winkel.WinkelMirrorLongitude | src/projections/winkel.py:39-47 | negating the longitude negates the planar y and keeps x |
| Winkel.Wrap | src/projections/winkel.py:73 | a numba index in `[-n, n)` designates element `i` or `i + n`, inside `[0, n)` |
| Winkel.WinkelCell | src/projections/winkel.py:62-71 | definition: the projected, scaled, shifted and rounded cell of sample (x, y), before numba's wrap-around |
| Winkel.WinkelTarget | src/projections/winkel.py:62-73 | definition: the element `winkel` writes, with negative indices counted from the end, or none where the index is invalid |
| Winkel.WinkelCellInRange | src/projections/winkel.py:66-71 | planar coordinates in `[-0.5, 0.5)` give a cell inside the output, written without wrap-around |
| Winkel.WinkelCentreCell | src/projections/winkel.py:31-73 | with `angle_to_winkel` as the projection, the sample at the centre of the raster has angles (0, 0) and is written to the middle cell `(round(rows / 2), round(cols / 2))`, inside the output |
| Winkel.Winkel | src/projections/winkel.py:50-73 | `ZeroDivisionError` for a zero extent and a nonempty block; otherwise each output element holds `topo[y][x]` of the last sample (x, y) whose cell it is, or keeps its value; requires a square block and indexable cells |
| Blocks.InitialImage | src/block.py:35-42 | `ValueError("Resolution needs to be of lenght 2")` exactly for a list whose length is not 2; no grid without a resolution; otherwise a zero grid of that shape |
| Blocks.Block.New | src/block.py:16-42 | the constructor fails exactly as InitialImage does; otherwise it stores the arguments and that grid |
| Blocks.Loaded | src/block.py:127-151 | `load_image` raises `RuntimeError` for an unset `x_size`, `y_size` or `z_scale`, `AttributeError` without a grid, `ZeroDivisionError` for an empty grid shape, `ValueError` for a reshape that does not fit, and `ZeroDivisionError` for `z_scale == 0` after storing the flipped mean; it changes only the grid and keeps its shape |
| Blocks.LoadedDecimates | src/block.py:137-151 | for an image of exactly `rows*xs` by `cols*ys` pixels and a non-zero `z_scale`, the new grid is the block mean, flipped and multiplied by `1 / z_scale` |
| Blocks.DecimatedCell | src/block.py:137-151 | element (i, j) of that grid is the mean of the block at averaged row `rows - 1 - i`, column j, times the factor |
| Blocks.Block.LoadImage | src/block.py:118-151 | the block's new fields and outcome are those of Loaded, and grids stay rectangular |
| Blocks.Block.ExportAsDat | src/block.py:96-116 | `RuntimeError("scaled_image not initialized")` without a grid; otherwise the rows in order, values joined by spaces and rows by newlines |
| Blocks.Block.ExportAsPickle | src/block.py:81-94 | the record holds every field; without a grid, reading `scaled_image` raises `AttributeError` |
| Blocks.Block.ReadFromPickle | src/block.py:68-79 | every field is copied from the record; a record without `data` raises `KeyError` after the other fields are copied |
| Blocks.PickleRoundTrip | src/block.py:68-94 | exporting a block that has a grid and reading the record into another block makes it an exact copy |
| Blocks.Block.Unmeractor | src/block.py:44-66 | `RuntimeError` for an unset `x_off`, then `y_off`; `ZeroDivisionError` for a zero extent; angles otherwise |
| Blocks.Block.UnmeractorIsShiftedUnmercator | src/block.py:63-64 | `unmeractor` is `unmercator` of the offset position plus `(pi, pi/2)`: latitude in `[0, 2 pi)` |
| ReadData.Place | src/read_data.py:22-30 | `ZeroDivisionError` exactly for a zero size or resolution; otherwise the stored x offset is the tile index t with `t*x_size <= x_off < (t+1)*x_size`, the y offset is `180 - t` for y's tile t, and each scale s has `s*res <= size < (s+1)*res` |
| ReadData.Block.New | src/read_data.py:18-34 | the constructor fails exactly as Place does, otherwise stores Place's values and the other arguments, without a grid |
| ReadData.Read | src/read_data.py:47-57 | scales of 1 keep the full image; otherwise a reshape that does not fit raises and changes nothing, the grid gets the resolution's shape, and `z_scale == 0` raises after storing the mean; only the grid changes |
| ReadData.ReadDecimates | src/read_data.py:55-57 | for an image of exactly `res0*scale_x` by `res1*scale_y` pixels and a factor other than 1, the grid is the block mean times `1 / z_scale`, not flipped |
| ReadData.MeanCell | src/read_data.py:55-57 | element (i, j) of that grid is the mean of the block at row `i*scale_x`, column `j*scale_y`, times the factor |
| ReadData.Block.ReadImage | src/read_data.py:47-57 | the block's new fields and outcome are those of Read |
| ReadData.ReadThenExport | src/read_data.py:55-58 | the export after a decimating read cannot fail: the grid has exactly the resolution |
| ReadData.ExportText | src/read_data.py:36-45 | the grid is read only when both resolution entries are positive; then a missing grid raises `AttributeError`, and a resolution larger than the grid `IndexError` |
| ReadData.Lines | src/read_data.py:38-41 | the values printed, one line per x in `range(rows)`: row `rows - x - 1` cut to its first `cols` values |
| ReadData.LegacyLine | src/read_data.py:39-41 | definition: each value printed and followed by a space |
| ReadData.LegacyText | src/read_data.py:37-42 | definition: each line followed by a newline; LegacyTextIsJoin and DatFormatsAgree state what it holds |
| ReadData.PrintLines | src/read_data.py:37-42 | the nested loops build each value followed by a space and each row followed by a newline |
| ReadData.Block.ExportAsDat | src/read_data.py:36-45 | the method's result is ExportText of the block's grid and resolution |
| ReadData.LegacyLineIsRowText | src/read_data.py:41 | a line of this format is the space-joined line followed by one space |
| ReadData.LegacyTextIsJoin | src/read_data.py:37-42 | the text is the lines joined by newlines plus a final newline |
| ReadData.FlippedParts | src/read_data.py:38-41 | at full resolution, line x is row `rows - 1 - x` printed with a trailing space, and holds no newline |
| ReadData.DatFormatsAgree | src/read_data.py:38-42 | the text splits into the lines of the `src/block.py` format for the flipped grid, each followed by a space, then an empty piece: the two formats differ only in those separators |

## Left out

- Files, `imread`, `open`/`write` and `pickle.dump`/`load` are not modelled. The image is an input value, the text is returned, and the pickle is a `Record` value.
- The file export at the end of `read_image` is not modelled. ReadData.ReadThenExport shows it cannot raise.
- Floating point is not modelled. Values and means are exact reals, and `pi` is the shortest decimal form of `np.pi`, taken as an exact real. The printed form of a value (`str`, `"%s"`) is a parameter `show`.
- The Wagner formulas of `angle_to_wagner` are not modelled: trigonometry on floats. The compositors take the projection as a parameter.
- `angle_to_winkel` is modelled with the trigonometric functions as parameters.
- Winkel.Winkel: its projection is a total parameter, so a `ZeroDivisionError` from `angle_to_winkel` when the sinc factor is 0 is not carried into the loop.
- Wagner.WagnerTile: its projection is a total parameter, so an exception raised by `angle_to_wagner` is not carried into the loop. At latitude and longitude 0 that function divides `sin(psi) = 0` by `sin(delta) = 0` (`src/projections/wagner.py:52-54`), which numba raises as `ZeroDivisionError`; the sample at the centre of the raster reaches it, and `wagner_tile` does not catch it.
- Wagner.WagnerMap: the Wagner result that `wagner` computes and discards is not evaluated, so an exception it could raise is not modelled. The `try`/`except` that prints diagnostics is left out because nothing in the modelled arithmetic raises.
- Winkel.Winkel requires a square block and cells that are valid numba indices. numba does not check bounds, so other inputs have no defined behaviour.
- The class attributes `raster_x`/`raster_y` are set outside the class. They are parameters: `Sampling`, and the arguments of `Unmeractor`.
- The zero-extent `ZeroDivisionError` is checked before the scatter loop. The source raises it at the first sample, before any write, so the outcome and the array are the same.
- Grids.ReshapeMean excludes exactly one input: an image without pixels, reshaped with a block size of 0 into an output with rows and columns. numpy accepts that reshape and averages empty blocks into NaN, which exact reals cannot hold. Every other empty image is modelled: a reshape that does not fit raises `ValueError`, and a zero-sized output is empty.
- Blocks.Loaded excludes the same input, where the factor `x_size // rows` or `y_size // cols` is 0 (Blocks.LoadDefined). The unset-field errors and the `ZeroDivisionError` of a grid without rows or columns are modelled for every image.
- Blocks.Block.LoadImage has the precondition of Blocks.Loaded.
- ReadData.Read excludes the same input, where `scale_x` or `scale_y` is 0 and one of them is not 1 (ReadData.ReadDefined). The full image kept when both factors are 1 may be empty.
- ReadData.Block.ReadImage has the precondition of ReadData.Read.
- Blocks.InitialImage: only lists and pairs are modelled as resolutions. A tuple of another length, which numpy would turn into an array of another rank, is not.
- Blocks.Block.New: the `int16` dtype of the initial zero grid is not modelled. Its elements are the real 0.
- Blocks.Block.ReadFromPickle: only the `data` key may be missing from a record. Records lacking other keys are not modelled.
- Sizes and resolution entries are natural numbers, so negative array dimensions are not modelled. Offsets are integers, and Python's floor division agrees with Dafny's for the positive divisors.
- ReadData.Read: in the full-image case the stored image keeps integer values. The model holds them as reals, and how they print is up to `show`.
- ReadData.Block.ExportAsDat checks the resolution against the grid before building the text. The source raises `IndexError` partway through, with nothing written, so the result is the same.
- `src/downsampledata.py` and the module-level `read_xml`/`read_blocks` of `src/read_data.py` are not part of this model: XML parsing, threads and file-system setup.
- Projection.UnmercatorRange: positions inside the raster give latitude in `[-pi, pi)` and longitude in `[-pi/2, pi/2)`. The right and top edges `pi` and `pi/2` named in the docstring of `unmercator` are not reached.
