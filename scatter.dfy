/** The compositing policy of the scatter loops: samples are visited with x in
    the outer loop and y in the inner loop, each sample is sent to a target
    cell, and a cell ends up holding the value of the LAST sample sent to it;
    a cell no sample is sent to keeps its previous value. */
module Scatter {
  import opened Common
  import opened Grids

  /** Sample (a, b) is visited before loop position (x, y) in the
      x-outer, y-inner order. */
  predicate Precedes(a: int, b: int, x: int, y: int) {
    a < x || (a == x && b < y)
  }

  /** The last sample visited before loop position (x, y) whose target is
      `cell`, when rows hold `cols` samples; None if there is none. Position
      `(x, 0)` comes right after `(x - 1, cols)`. */
  function LastHit(target: (int, int) -> (int, int), cols: nat, x: nat, y: nat, cell: (int, int)): (r: Option<(nat, nat)>)
    requires y <= cols
    ensures r.Some? ==> Precedes(r.value.0, r.value.1, x, y) && r.value.1 < cols
    ensures r.Some? ==> target(r.value.0, r.value.1) == cell
    decreases x, y
  {
    if y > 0 then
      if target(x, y - 1) == cell then Some((x, y - 1)) else LastHit(target, cols, x, y - 1, cell)
    else if x > 0 then LastHit(target, cols, x - 1, cols, cell)
    else None
  }

  /** LastHit is what its name says: when it finds a sample, no sample visited
      after it (and before (x, y)) is sent to the same cell; when it finds none,
      no sample visited before (x, y) is sent to that cell. */
  lemma {:induction false} LastHitIsLast(target: (int, int) -> (int, int), cols: nat, x: nat, y: nat, cell: (int, int))
    requires y <= cols
    ensures LastHit(target, cols, x, y, cell).None? ==>
      forall a: nat, b: nat :: b < cols && Precedes(a, b, x, y) ==> target(a, b) != cell
    ensures LastHit(target, cols, x, y, cell).Some? ==>
      var s := LastHit(target, cols, x, y, cell).value;
      forall a: nat, b: nat :: b < cols && Precedes(s.0, s.1, a, b) && Precedes(a, b, x, y) ==> target(a, b) != cell
    decreases x, y
  {
    if y > 0 {
      if target(x, y - 1) != cell {
        LastHitIsLast(target, cols, x, y - 1, cell);
      }
    } else if x > 0 {
      LastHitIsLast(target, cols, x - 1, cols, cell);
    }
  }

  /** Conversely, a sample sent to `cell` before (x, y) is always found: LastHit
      is None only when no such sample exists, and what it finds is not earlier
      than any such sample. */
  lemma {:induction false} LastHitFindsLatest(target: (int, int) -> (int, int), cols: nat, x: nat, y: nat, cell: (int, int), a: nat, b: nat)
    requires y <= cols && b < cols
    requires Precedes(a, b, x, y) && target(a, b) == cell
    ensures LastHit(target, cols, x, y, cell).Some?
    ensures var s := LastHit(target, cols, x, y, cell).value;
      s == (a, b) || Precedes(a, b, s.0, s.1)
    decreases x, y
  {
    if y > 0 {
      if target(x, y - 1) != cell {
        LastHitFindsLatest(target, cols, x, y - 1, cell, a, b);
      }
    } else if x > 0 {
      LastHitFindsLatest(target, cols, x - 1, cols, cell, a, b);
    }
  }

  /** A block without columns has no samples: nothing is sent anywhere. */
  lemma {:induction false} NoColumnsNoHit(target: (int, int) -> (int, int), x: nat, cell: (int, int))
    ensures LastHit(target, 0, x, 0, cell).None?
  {
    if x > 0 {
      NoColumnsNoHit(target, x - 1, cell);
    }
  }

  /** The loop the compositors share: visit every sample of the `rows` by
      `cols` block `topo` with x in the outer and y in the inner loop, and
      write `topo[x][y]` at `target(x, y)` when that is an element of `out`.
      Afterwards each element holds the last sample sent to it, or its old
      value if none was. */
  method ScatterSamples(topo: Grid, rows: nat, cols: nat, target: (int, int) -> (int, int), out: array2<real>)
    requires IsShape(topo, rows, cols)
    modifies out
    ensures forall i, j :: 0 <= i < out.Length0 && 0 <= j < out.Length1 ==>
      out[i, j] == match LastHit(target, cols, rows, 0, (i, j))
                   case Some(p) => topo[p.0][p.1]
                   case None => old(out[i, j])
  {
    var x := 0;
    while x < rows
      invariant 0 <= x <= rows
      invariant forall i, j :: 0 <= i < out.Length0 && 0 <= j < out.Length1 ==>
        out[i, j] == match LastHit(target, cols, x, 0, (i, j))
                     case Some(p) => topo[p.0][p.1]
                     case None => old(out[i, j])
    {
      var y := 0;
      while y < cols
        invariant 0 <= y <= cols
        invariant forall i, j :: 0 <= i < out.Length0 && 0 <= j < out.Length1 ==>
          out[i, j] == match LastHit(target, cols, x, y, (i, j))
                       case Some(p) => topo[p.0][p.1]
                       case None => old(out[i, j])
      {
        var cell := target(x, y);
        if 0 <= cell.0 < out.Length0 && 0 <= cell.1 < out.Length1 {
          out[cell.0, cell.1] := topo[x][y];
        }
        y := y + 1;
      }
      x := x + 1;
    }
  }
}
