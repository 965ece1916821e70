/**
 * The result-table renderer of the query tool: `pad`, `printBorder` and the
 * width computation and line layout of `printTable`. Output is returned as
 * lines (without their newline) instead of being written to standard output.
 * A string is a `seq<char>` whose elements stand for the bytes of the Go
 * string, so `|s|` is Go's `len(s)`.
 */
module Render {

  function Max(a: int, b: int): int { if a >= b then a else b }

  /** `strings.Repeat(string(c), n)`. */
  function Repeat(c: char, n: nat): (r: string)
    ensures |r| == n
    ensures forall i :: 0 <= i < n ==> r[i] == c
  {
    seq(n, _ => c)
  }

  /**
   * `pad(s, width)`: `s` when it is already `width` bytes or longer, else `s`
   * followed by spaces up to exactly `width` bytes.
   */
  function Pad(s: string, width: int): (r: string)
    ensures |s| >= width ==> r == s
    ensures |s| < width ==> |r| == width && r[..|s|] == s
    ensures forall i :: |s| <= i < |r| ==> r[i] == ' '
    ensures |r| == Max(|s|, width)
  {
    if |s| >= width then s else s + Repeat(' ', width - |s|)
  }

  /** Padding twice to the same width changes nothing more. */
  lemma PadIdempotent(s: string, width: int)
    ensures Pad(Pad(s, width), width) == Pad(s, width)
  {
  }

  /** The length of every rendered line for columns of the given widths: 1 + sum of (w + 3). */
  function LineWidth(widths: seq<nat>): (n: nat)
    ensures n >= 1
  {
    if widths == [] then 1 else LineWidth(widths[..|widths| - 1]) + widths[|widths| - 1] + 3
  }

  /** The columns before position `j` take up that much less of the line than all of them. */
  lemma {:induction false} LineWidthPrefix(widths: seq<nat>, j: nat)
    requires j <= |widths|
    ensures LineWidth(widths[..j]) + (if j < |widths| then widths[j] + 3 else 0) <= LineWidth(widths)
  {
    if j < |widths| {
      var n := |widths| - 1;
      assert widths[..n + 1] == widths;
      if j < n {
        LineWidthPrefix(widths[..n], j);
        assert widths[..n][..j] == widths[..j];
      }
    } else {
      assert widths[..j] == widths;
    }
  }

  /** Where the separator before column `j` (or after the last, for `j == |widths|`) stands. */
  function Offset(widths: seq<nat>, j: nat): (o: nat)
    requires j <= |widths|
    ensures o < LineWidth(widths)
    ensures j < |widths| ==> o + widths[j] + 3 < LineWidth(widths)
  {
    LineWidthPrefix(widths, j);
    LineWidth(widths[..j]) - 1
  }

  /** The next separator comes after the column's width and three more bytes. */
  lemma OffsetNext(widths: seq<nat>, j: nat)
    requires j < |widths|
    ensures Offset(widths, j + 1) == Offset(widths, j) + widths[j] + 3
  {
    assert widths[..j + 1][..j] == widths[..j];
  }

  /** The border line: `+`, then for each width `w`, `w + 2` dashes and a `+`. */
  function Border(widths: seq<nat>): string
  {
    if widths == [] then "+"
    else Border(widths[..|widths| - 1]) + Repeat('-', widths[|widths| - 1] + 2) + "+"
  }

  /** A header or data line: `|`, then for each cell ` cell |` with the cell padded to its column's width. */
  function RowLine(cells: seq<string>, widths: seq<nat>): string
    requires |cells| == |widths|
  {
    if widths == [] then "|"
    else
      var n := |widths| - 1;
      RowLine(cells[..n], widths[..n]) + " " + Pad(cells[n], widths[n]) + " |"
  }

  /** Offsets of the columns of a prefix of the widths are the same as in the whole. */
  lemma OffsetPrefix(widths: seq<nat>, m: nat, j: nat)
    requires j <= m <= |widths|
    ensures Offset(widths[..m], j) == Offset(widths, j)
  {
    assert widths[..m][..j] == widths[..j];
  }

  /**
   * The border has the length of every line, is made only of `+` and `-`, and
   * has a `+` at the offset of each column separator.
   */
  lemma {:induction false} BorderShape(widths: seq<nat>)
    ensures |Border(widths)| == LineWidth(widths)
    ensures forall i :: 0 <= i < |Border(widths)| ==> Border(widths)[i] == '+' || Border(widths)[i] == '-'
    ensures forall j :: 0 <= j <= |widths| ==> Border(widths)[Offset(widths, j)] == '+'
  {
    if widths != [] {
      var n := |widths| - 1;
      var init := widths[..n];
      BorderShape(init);
      var b := Border(widths);
      assert b == Border(init) + Repeat('-', widths[n] + 2) + "+";
      forall j | 0 <= j <= |widths|
        ensures b[Offset(widths, j)] == '+'
      {
        if j <= n {
          OffsetPrefix(widths, n, j);
          assert init[..n] == init;
        } else {
          assert widths[..j] == widths;
        }
      }
    } else {
      assert Offset(widths, 0) == 0;
    }
  }

  /** Every cell fits the width of its column. */
  predicate Fits(cells: seq<string>, widths: seq<nat>)
  {
    |cells| == |widths| && forall k :: 0 <= k < |cells| ==> |cells[k]| <= widths[k]
  }

  lemma FitsPrefix(cells: seq<string>, widths: seq<nat>, n: nat)
    requires Fits(cells, widths) && n <= |cells|
    ensures Fits(cells[..n], widths[..n])
  {
  }

  lemma SliceOfPrefix(x: string, y: string, lo: nat, hi: nat)
    requires lo <= hi <= |x|
    ensures hi <= |x + y|
    ensures (x + y)[lo..hi] == x[lo..hi]
  {
  }

  /** A line whose cells fit their columns is exactly as long as the border. */
  lemma {:induction false} RowLineLength(cells: seq<string>, widths: seq<nat>)
    requires Fits(cells, widths)
    ensures |RowLine(cells, widths)| == LineWidth(widths)
  {
    if widths != [] {
      var n := |widths| - 1;
      FitsPrefix(cells, widths, n);
      RowLineLength(cells[..n], widths[..n]);
    }
  }

  /** A line whose cells fit their columns has a `|` at the offset of every column separator. */
  lemma {:induction false} RowLineSeparators(cells: seq<string>, widths: seq<nat>)
    requires Fits(cells, widths)
    ensures |RowLine(cells, widths)| == LineWidth(widths)
    ensures forall j :: 0 <= j <= |widths| ==> RowLine(cells, widths)[Offset(widths, j)] == '|'
  {
    RowLineLength(cells, widths);
    var line := RowLine(cells, widths);
    if widths == [] {
      assert Offset(widths, 0) == 0;
    } else {
      var n := |widths| - 1;
      var init := widths[..n];
      FitsPrefix(cells, widths, n);
      RowLineSeparators(cells[..n], init);
      var prev := RowLine(cells[..n], init);
      assert line == prev + " " + Pad(cells[n], widths[n]) + " |";
      forall j | 0 <= j <= |widths|
        ensures line[Offset(widths, j)] == '|'
      {
        if j <= n {
          OffsetPrefix(widths, n, j);
          assert line[Offset(widths, j)] == prev[Offset(init, j)];
        } else {
          assert widths[..j] == widths;
        }
      }
    }
  }

  /** `line` holds `cell` from two bytes after the separator before column `j`, for that column's width. */
  predicate CellAt(line: string, widths: seq<nat>, j: nat, cell: string)
    requires j < |widths|
  {
    Offset(widths, j) + 2 + widths[j] <= |line| &&
    line[Offset(widths, j) + 2 .. Offset(widths, j) + 2 + widths[j]] == cell
  }

  /** The last cell of a line, padded, sits between the last two separators. */
  lemma RowLineLast(cells: seq<string>, widths: seq<nat>)
    requires Fits(cells, widths) && widths != []
    ensures CellAt(RowLine(cells, widths), widths, |widths| - 1, Pad(cells[|widths| - 1], widths[|widths| - 1]))
  {
    RowLineLength(cells, widths);
    var n := |widths| - 1;
    FitsPrefix(cells, widths, n);
    var prev := RowLine(cells[..n], widths[..n]);
    RowLineLength(cells[..n], widths[..n]);
    var p := Pad(cells[n], widths[n]);
    assert widths[..n][..n] == widths[..n];
    assert Offset(widths, n) + 2 == |prev| + 1;
    SliceOfPrefix(prev + " " + p, " |", |prev| + 1, |prev| + 1 + widths[n]);
  }

  /** Before the last cell, a line agrees with the line of all cells but the last. */
  lemma RowLineInit(cells: seq<string>, widths: seq<nat>, lo: nat, hi: nat)
    requires |cells| == |widths| && widths != []
    requires lo <= hi <= |RowLine(cells[..|widths| - 1], widths[..|widths| - 1])|
    ensures hi <= |RowLine(cells, widths)|
    ensures RowLine(cells, widths)[lo..hi] == RowLine(cells[..|widths| - 1], widths[..|widths| - 1])[lo..hi]
  {
    var n := |widths| - 1;
    var prev := RowLine(cells[..n], widths[..n]);
    assert RowLine(cells, widths) == prev + " " + Pad(cells[n], widths[n]) + " |";
    SliceOfPrefix(prev, " ", lo, hi);
    SliceOfPrefix(prev + " ", Pad(cells[n], widths[n]), lo, hi);
    SliceOfPrefix(prev + " " + Pad(cells[n], widths[n]), " |", lo, hi);
  }

  /** A cell before the last sits where it sits in the line of all cells but the last. */
  lemma RowLineCellStep(cells: seq<string>, widths: seq<nat>, j: nat)
    requires Fits(cells, widths) && j + 1 < |widths|
    requires var n := |widths| - 1;
      CellAt(RowLine(cells[..n], widths[..n]), widths[..n], j, Pad(cells[..n][j], widths[..n][j]))
    ensures CellAt(RowLine(cells, widths), widths, j, Pad(cells[j], widths[j]))
  {
    var n := |widths| - 1;
    OffsetPrefix(widths, n, j);
    var lo, hi := Offset(widths, j) + 2, Offset(widths, j) + 2 + widths[j];
    var prev := RowLine(cells[..n], widths[..n]);
    var cell := Pad(cells[j], widths[j]);
    assert cells[..n][j] == cells[j] && widths[..n][j] == widths[j];
    assert CellAt(prev, widths[..n], j, cell);
    assert prev[lo..hi] == cell;
    RowLineInit(cells, widths, lo, hi);
    assert RowLine(cells, widths)[lo..hi] == prev[lo..hi];
  }

  /** Cell `j` of a line, padded, starts two bytes after the separator before it. */
  lemma {:induction false} RowLineCellAt(cells: seq<string>, widths: seq<nat>, j: nat)
    requires Fits(cells, widths) && j < |widths|
    ensures CellAt(RowLine(cells, widths), widths, j, Pad(cells[j], widths[j]))
  {
    var n := |widths| - 1;
    if j < n {
      FitsPrefix(cells, widths, n);
      RowLineCellAt(cells[..n], widths[..n], j);
      RowLineCellStep(cells, widths, j);
    } else {
      RowLineLast(cells, widths);
    }
  }

  /**
   * In a line whose cells fit their columns, cell `j` padded to its column's
   * width starts two bytes after the separator before it, at the same offset
   * in every line rendered with these widths.
   */
  lemma RowLineCells(cells: seq<string>, widths: seq<nat>)
    requires Fits(cells, widths)
    ensures |RowLine(cells, widths)| == LineWidth(widths)
    ensures forall j :: 0 <= j < |widths| ==>
      CellAt(RowLine(cells, widths), widths, j, Pad(cells[j], widths[j]))
  {
    RowLineLength(cells, widths);
    forall j | 0 <= j < |widths|
      ensures CellAt(RowLine(cells, widths), widths, j, Pad(cells[j], widths[j]))
    {
      RowLineCellAt(cells, widths, j);
    }
  }

  /** `printBorder(colWidths)`, building the line instead of printing it. */
  method PrintBorder(colWidths: seq<nat>) returns (line: string)
    ensures line == Border(colWidths)
  {
    line := "+";
    for k := 0 to |colWidths|
      invariant line == Border(colWidths[..k])
    {
      assert colWidths[..k + 1][..k] == colWidths[..k];
      line := line + Repeat('-', colWidths[k] + 2) + "+";
    }
    assert colWidths[..|colWidths|] == colWidths;
  }

  /** The header line or one data line of `printTable`. */
  method PrintRow(cells: seq<string>, colWidths: seq<nat>) returns (line: string)
    requires |cells| == |colWidths|
    ensures line == RowLine(cells, colWidths)
  {
    line := "|";
    for i := 0 to |cells|
      invariant line == RowLine(cells[..i], colWidths[..i])
    {
      assert cells[..i + 1][..i] == cells[..i] && colWidths[..i + 1][..i] == colWidths[..i];
      line := line + " " + Pad(cells[i], colWidths[i]) + " |";
    }
    assert cells[..|cells|] == cells && colWidths[..|colWidths|] == colWidths;
  }

  /** Every data row has one cell per column, as `rows.Scan` fills them. */
  predicate Rectangular(cols: seq<string>, data: seq<seq<string>>)
  {
    forall r :: 0 <= r < |data| ==> |data[r]| == |cols|
  }

  /** The width of column `k`: the longest of its header and of its cells. */
  function ColumnWidth(cols: seq<string>, data: seq<seq<string>>, k: nat): nat
    requires Rectangular(cols, data) && k < |cols|
  {
    if data == [] then |cols[k]|
    else Max(ColumnWidth(cols, data[..|data| - 1], k), |data[|data| - 1][k]|)
  }

  /** A column's width bounds its header and every cell, and is the length of one of them. */
  lemma {:induction false} ColumnWidthIsMax(cols: seq<string>, data: seq<seq<string>>, k: nat)
    requires Rectangular(cols, data) && k < |cols|
    ensures |cols[k]| <= ColumnWidth(cols, data, k)
    ensures forall r :: 0 <= r < |data| ==> |data[r][k]| <= ColumnWidth(cols, data, k)
    ensures ColumnWidth(cols, data, k) == |cols[k]| ||
            exists r :: 0 <= r < |data| && ColumnWidth(cols, data, k) == |data[r][k]|
  {
    if data != [] {
      var n := |data| - 1;
      ColumnWidthIsMax(cols, data[..n], k);
      forall r | 0 <= r < |data|
        ensures |data[r][k]| <= ColumnWidth(cols, data, k)
      {
        if r < n {
          assert data[..n][r] == data[r];
        }
      }
      if ColumnWidth(cols, data, k) != |cols[k]| && ColumnWidth(cols, data, k) != |data[n][k]| {
        var r :| 0 <= r < n && ColumnWidth(cols, data[..n], k) == |data[..n][r][k]|;
        assert data[..n][r] == data[r];
      }
    }
  }

  /**
   * The width loops of `printTable`: start each column at its header's length
   * and widen it, in place, to every longer cell.
   */
  method ColumnWidths(cols: seq<string>, data: seq<seq<string>>) returns (widths: seq<nat>)
    requires Rectangular(cols, data)
    ensures |widths| == |cols|
    ensures forall k :: 0 <= k < |cols| ==> widths[k] == ColumnWidth(cols, data, k)
  {
    var colWidths := new nat[|cols|];
    for i := 0 to |cols|
      invariant forall k :: 0 <= k < i ==> colWidths[k] == |cols[k]|
    {
      colWidths[i] := |cols[i]|;
    }
    assert forall k :: 0 <= k < |cols| ==> colWidths[k] == ColumnWidth(cols, data[..0], k);
    for r := 0 to |data|
      invariant forall k :: 0 <= k < |cols| ==> colWidths[k] == ColumnWidth(cols, data[..r], k)
    {
      var row := data[r];
      assert data[..r + 1][..r] == data[..r] && data[..r + 1][r] == row;
      for i := 0 to |row|
        invariant forall k :: 0 <= k < i ==> colWidths[k] == ColumnWidth(cols, data[..r + 1], k)
        invariant forall k :: i <= k < |cols| ==> colWidths[k] == ColumnWidth(cols, data[..r], k)
      {
        if |row[i]| > colWidths[i] {
          colWidths[i] := |row[i]|;
        }
      }
    }
    assert data[..|data|] == data;
    widths := colWidths[..];
  }

  /** Widths computed as the column maxima fit the header and every data row. */
  lemma WidthsFit(cols: seq<string>, data: seq<seq<string>>, widths: seq<nat>)
    requires Rectangular(cols, data) && |widths| == |cols|
    requires forall k :: 0 <= k < |cols| ==> widths[k] == ColumnWidth(cols, data, k)
    ensures Fits(cols, widths)
    ensures forall r :: 0 <= r < |data| ==>
      |data[r]| == |widths| && forall k :: 0 <= k < |widths| ==> |data[r][k]| <= widths[k]
  {
    forall k | 0 <= k < |cols| {
      ColumnWidthIsMax(cols, data, k);
    }
  }

  /**
   * A table laid out with borders around the header and around the data rows,
   * all with widths every cell fits, has its column separators stacked at the
   * same offsets in every line, and each data cell padded in its column.
   */
  lemma TableAligned(cols: seq<string>, data: seq<seq<string>>, widths: seq<nat>, lines: seq<string>)
    requires Fits(cols, widths)
    requires |lines| == |data| + 4
    requires lines[0] == lines[2] == lines[|data| + 3] == Border(widths)
    requires lines[1] == RowLine(cols, widths)
    requires forall r :: 0 <= r < |data| ==>
      |data[r]| == |widths| && forall k :: 0 <= k < |widths| ==> |data[r][k]| <= widths[k]
    requires forall r :: 0 <= r < |data| ==> lines[r + 3] == RowLine(data[r], widths)
    ensures forall l :: 0 <= l < |lines| ==> |lines[l]| == LineWidth(widths)
    ensures forall l, j :: 0 <= l < |lines| && 0 <= j <= |widths| ==>
      lines[l][Offset(widths, j)] == if l == 0 || l == 2 || l == |data| + 3 then '+' else '|'
    ensures forall r, j :: 0 <= r < |data| && 0 <= j < |widths| ==>
      CellAt(lines[r + 3], widths, j, Pad(data[r][j], widths[j]))
  {
    BorderShape(widths);
    RowLineSeparators(cols, widths);
    forall l | 0 <= l < |lines|
      ensures |lines[l]| == LineWidth(widths)
      ensures forall j :: 0 <= j <= |widths| ==>
        lines[l][Offset(widths, j)] == if l == 0 || l == 2 || l == |data| + 3 then '+' else '|'
    {
      if 3 <= l < |data| + 3 {
        var r := l - 3;
        assert lines[r + 3] == RowLine(data[r], widths);
        RowLineSeparators(data[r], widths);
      }
    }
    forall r | 0 <= r < |data|
      ensures forall j :: 0 <= j < |widths| ==>
        CellAt(lines[r + 3], widths, j, Pad(data[r][j], widths[j]))
    {
      RowLineCells(data[r], widths);
    }
  }

  /**
   * `printTable`: border, header, border, one line per data row, border, with
   * each column as wide as its longest header or cell, so that every cell fits
   * its column. `TableAligned` then gives the alignment of these lines.
   */
  method PrintTable(cols: seq<string>, data: seq<seq<string>>) returns (lines: seq<string>, widths: seq<nat>)
    requires Rectangular(cols, data)
    ensures |widths| == |cols|
    ensures forall k :: 0 <= k < |cols| ==> widths[k] == ColumnWidth(cols, data, k)
    ensures Fits(cols, widths)
    ensures forall r :: 0 <= r < |data| ==>
      |data[r]| == |widths| && forall k :: 0 <= k < |widths| ==> |data[r][k]| <= widths[k]
    ensures |lines| == |data| + 4
    ensures lines[0] == lines[2] == lines[|data| + 3] == Border(widths)
    ensures lines[1] == RowLine(cols, widths)
    ensures forall r :: 0 <= r < |data| ==> lines[r + 3] == RowLine(data[r], widths)
  {
    widths := ColumnWidths(cols, data);
    var border := PrintBorder(widths);
    var header := PrintRow(cols, widths);
    lines := [border, header, border];
    for r := 0 to |data|
      invariant |lines| == r + 3
      invariant lines[0] == lines[2] == border && lines[1] == header
      invariant forall q :: 0 <= q < r ==> lines[q + 3] == RowLine(data[q], widths)
    {
      var line := PrintRow(data[r], widths);
      lines := lines + [line];
    }
    lines := lines + [border];
    WidthsFit(cols, data, widths);
  }
}
