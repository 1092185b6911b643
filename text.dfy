/** The plain-text grid format: Python's `str.join` and `str.split` on one
    separator character, and the layout `export_as_dat` gives a grid (values
    joined by single spaces, rows joined by newlines). The decimal form of a
    value is a parameter `show`, standing for `str` of a numpy scalar. */
module DatText {
  import opened Grids

  /** `sep.join(parts)`. */
  function Join(sep: char, parts: seq<string>): string {
    if |parts| == 0 then ""
    else if |parts| == 1 then parts[0]
    else Join(sep, parts[..|parts| - 1]) + [sep] + parts[|parts| - 1]
  }

  /** `s.split(sep)`: the pieces between separators; never empty, since
      `"".split(sep) == [""]`. */
  function Split(sep: char, s: string): (r: seq<string>)
    ensures |r| > 0
  {
    if |s| == 0 then [""]
    else if s[|s| - 1] == sep then Split(sep, s[..|s| - 1]) + [""]
    else
      var p := Split(sep, s[..|s| - 1]);
      p[..|p| - 1] + [p[|p| - 1] + [s[|s| - 1]]]
  }

  /** A string without the separator splits into itself alone. */
  lemma {:induction false} SplitPiece(sep: char, t: string)
    requires sep !in t
    ensures Split(sep, t) == [t]
  {
    if |t| > 0 {
      assert t[|t| - 1] in t;
      SplitPiece(sep, t[..|t| - 1]);
      assert t[..|t| - 1] + [t[|t| - 1]] == t;
    }
  }

  /** Appending a separator and a separator-free piece adds exactly that piece
      to the split. */
  lemma {:induction false} SplitAppend(sep: char, s: string, t: string)
    requires sep !in t
    ensures Split(sep, s + [sep] + t) == Split(sep, s) + [t]
  {
    if |t| == 0 {
      assert s + [sep] + t == s + [sep];
      assert (s + [sep])[..|s|] == s;
    } else {
      var u := s + [sep] + t;
      var t' := t[..|t| - 1];
      assert u[..|u| - 1] == s + [sep] + t';
      assert u[|u| - 1] == t[|t| - 1] && t[|t| - 1] in t;
      SplitAppend(sep, s, t');
      assert t' + [t[|t| - 1]] == t;
    }
  }

  /** Splitting a join gives back the parts, provided no part holds the
      separator: the join is unambiguous. */
  lemma {:induction false} SplitJoin(sep: char, parts: seq<string>)
    requires |parts| > 0
    requires forall k :: 0 <= k < |parts| ==> sep !in parts[k]
    ensures Split(sep, Join(sep, parts)) == parts
  {
    if |parts| == 1 {
      SplitPiece(sep, parts[0]);
    } else {
      var init := parts[..|parts| - 1];
      SplitJoin(sep, init);
      SplitAppend(sep, Join(sep, init), parts[|parts| - 1]);
    }
  }

  /** A character that no part holds, other than the separator, is not in the
      join. */
  lemma {:induction false} JoinAvoids(sep: char, parts: seq<string>, c: char)
    requires c != sep
    requires forall k :: 0 <= k < |parts| ==> c !in parts[k]
    ensures c !in Join(sep, parts)
  {
    if |parts| > 1 {
      JoinAvoids(sep, parts[..|parts| - 1], c);
    }
  }

  /** A join ends with its last part. */
  lemma JoinEndsWithLast(sep: char, parts: seq<string>)
    requires |parts| > 0
    ensures |Join(sep, parts)| >= |parts[|parts| - 1]|
    ensures Join(sep, parts)[|Join(sep, parts)| - |parts[|parts| - 1]|..] == parts[|parts| - 1]
  {
  }

  /** A value as printed: non-empty, no space, no newline. */
  predicate IsToken(t: string) {
    |t| > 0 && ' ' !in t && '\n' !in t
  }

  /** `show` prints every value of `g` as a token. */
  predicate Printable(show: real -> string, g: Grid) {
    forall i, j :: 0 <= i < |g| && 0 <= j < |g[i]| ==> IsToken(show(g[i][j]))
  }

  /** The printed values of one row. */
  function Tokens(show: real -> string, row: seq<real>): (r: seq<string>)
    ensures |r| == |row|
  {
    seq(|row|, j requires 0 <= j < |row| => show(row[j]))
  }

  /** `" ".join(str(v) for v in row)`. */
  function RowText(show: real -> string, row: seq<real>): string {
    Join(' ', Tokens(show, row))
  }

  /** The lines of the block format, one per grid row. */
  function GridLines(show: real -> string, g: Grid): (r: seq<string>)
    ensures |r| == |g|
  {
    seq(|g|, i requires 0 <= i < |g| => RowText(show, g[i]))
  }

  /** `"\n".join(dat_rows)`: the text `Block.export_as_dat` writes. */
  function GridText(show: real -> string, g: Grid): string {
    Join('\n', GridLines(show, g))
  }

  /** A row line of a printable grid holds no newline. */
  lemma RowTextNoNewline(show: real -> string, g: Grid, i: nat)
    requires Printable(show, g) && i < |g|
    ensures '\n' !in RowText(show, g[i])
  {
    JoinAvoids(' ', Tokens(show, g[i]), '\n');
  }

  /** The block format reads back: splitting the text on newlines gives one
      line per grid row, and splitting line i on spaces gives the printed
      values of row i, in order. So values are separated by single spaces and
      rows by single newlines. */
  lemma DatRoundTrip(show: real -> string, g: Grid)
    requires |g| > 0
    requires forall i :: 0 <= i < |g| ==> |g[i]| > 0
    requires Printable(show, g)
    ensures Split('\n', GridText(show, g)) == GridLines(show, g)
    ensures forall i :: 0 <= i < |g| ==> Split(' ', GridLines(show, g)[i]) == Tokens(show, g[i])
  {
    forall i | 0 <= i < |g|
      ensures '\n' !in GridLines(show, g)[i]
      ensures Split(' ', GridLines(show, g)[i]) == Tokens(show, g[i])
    {
      RowTextNoNewline(show, g, i);
      SplitJoin(' ', Tokens(show, g[i]));
    }
    SplitJoin('\n', GridLines(show, g));
  }

  /** The block format has no trailing newline and no trailing space: its last
      character is the last character of the last value. */
  lemma DatNoTrailingSeparator(show: real -> string, g: Grid)
    requires |g| > 0 && |g[|g| - 1]| > 0
    requires Printable(show, g)
    ensures |GridText(show, g)| > 0
    ensures var t := GridText(show, g); t[|t| - 1] != '\n' && t[|t| - 1] != ' '
  {
    var row := g[|g| - 1];
    var last := show(row[|row| - 1]);
    JoinEndsWithLast(' ', Tokens(show, row));
    JoinEndsWithLast('\n', GridLines(show, g));
    var line := RowText(show, row);
    assert |line| >= |last| > 0;
    assert line[|line| - 1] == last[|last| - 1];
    assert last[|last| - 1] in last;
  }
}
