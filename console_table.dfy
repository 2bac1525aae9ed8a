/**
 * `ConsoleTable.Render`: a plain-text table. Each column is as wide as its widest entry
 * (header or cell); every cell is written as a space, the text padded on the right to the
 * column width, and a space; columns are separated by `|`, and the line under the headers
 * has dashes in place of text and `+` between columns.
 */
module ConsoleTable {

  /** A UTF-16 code unit: a .NET `char`. */
  newtype CodeUnit = x: int | 0 <= x < 0x1_0000

  /**
   * A .NET string: a sequence of UTF-16 code units. Its `Length`, and so every width and
   * every `PadRight` below, counts code units; a character above U+FFFF takes two.
   */
  type NetString = seq<CodeUnit>

  const Space: CodeUnit := 0x20
  const Plus: CodeUnit := 0x2B
  const Dash: CodeUnit := 0x2D
  const Bar: CodeUnit := 0x7C

  /** The UTF-16 encoding of one character: itself below U+10000, otherwise a surrogate pair. */
  function EncodeChar(c: char): (units: NetString)
    ensures |units| == if c as int < 0x1_0000 then 1 else 2
    ensures |units| == 1 ==> units[0] as int == c as int
    ensures |units| == 2 ==> 0xD800 <= units[0] as int < 0xDC00 <= units[1] as int < 0xE000
    ensures |units| == 2 ==> c as int == 0x1_0000 + (units[0] as int - 0xD800) * 0x400 + (units[1] as int - 0xDC00)
  {
    if c as int < 0x1_0000 then [c as int as CodeUnit]
    else
      var v := c as int - 0x1_0000;
      [(0xD800 + v / 0x400) as CodeUnit, (0xDC00 + v % 0x400) as CodeUnit]
  }

  /** A text as the .NET string holding it. */
  function Encode(s: string): (r: NetString)
    ensures |r| == |s| + |set i | 0 <= i < |s| && s[i] as int >= 0x1_0000|
  {
    if s == [] then []
    else
      var init, last := s[..|s| - 1], |s| - 1;
      var before := set i | 0 <= i < |init| && init[i] as int >= 0x1_0000;
      var after := set i | 0 <= i < |s| && s[i] as int >= 0x1_0000;
      assert after == before + (if s[last] as int >= 0x1_0000 then {last} else {}) by {
        assert forall i :: 0 <= i < |init| ==> init[i] == s[i];
      }
      assert last !in before;
      Encode(init) + EncodeChar(s[last])
  }

  /** The console output: the lines already ended and the text of the line being written. */
  class Console {
    var lines: seq<NetString>
    var current: NetString

    constructor ()
      ensures lines == [] && current == []
    {
      lines, current := [], [];
    }

    /** `Console.Write`. */
    method Write(text: NetString)
      modifies this
      ensures lines == old(lines) && current == old(current) + text
    {
      current := current + text;
    }

    /** `Console.WriteLine()`. */
    method WriteLine()
      modifies this
      ensures lines == old(lines) + [old(current)] && current == []
    {
      lines, current := lines + [current], [];
    }
  }

  lemma AppendAssociative<T>(a: seq<T>, b: seq<T>, c: seq<T>)
    ensures (a + b) + c == a + (b + c)
  {
  }

  /** Where `a + b` begins a sequence, the part after `a` begins with `b`. */
  lemma SliceThroughPrefix<T>(s: seq<T>, a: seq<T>, b: seq<T>, n: nat)
    requires a + b <= s && n <= |b|
    ensures |a| + n <= |s| && s[|a|..|a| + n] == b[..n]
  {
    assert forall m | |a| <= m < |a| + n :: s[m] == (a + b)[m];
  }

  /** Where `a + b` begins a sequence, the element `n` places after `a` is `b[n]`. */
  lemma ElementThroughPrefix<T>(s: seq<T>, a: seq<T>, b: seq<T>, n: nat)
    requires a + b <= s && n < |b|
    ensures |a| + n < |s| && s[|a| + n] == b[n]
  {
    assert s[|a| + n] == (a + b)[|a| + n];
  }

  function Max(a: nat, b: nat): nat {
    if a < b then b else a
  }

  /** `index < r.Length ? r[index].Length : 0`: the width of the text `WriteRow` pads for that column. */
  function CellLength(row: seq<NetString>, i: nat): nat {
    if i < |row| then |row[i]| else 0
  }

  /** The width measured for a column entry is the length of the cell `WriteRow` pads there. */
  lemma CellLengthMeasuresCell(row: seq<NetString>, i: nat)
    ensures CellLength(row, i) == |Cell(row, i)|
  {
  }

  /** The longest entry of column `i` over all the rows; 0 when there are none. */
  function MaxCellLength(rows: seq<seq<NetString>>, i: nat): (m: nat)
    ensures forall k :: 0 <= k < |rows| ==> CellLength(rows[k], i) <= m
    ensures m == 0 || exists k :: 0 <= k < |rows| && CellLength(rows[k], i) == m
  {
    if rows == [] then 0
    else
      var m := MaxCellLength(rows[..|rows| - 1], i);
      assert forall k :: 0 <= k < |rows| - 1 ==> rows[..|rows| - 1][k] == rows[k];
      Max(m, CellLength(rows[|rows| - 1], i))
  }

  /**
   * The width of every column: one per header, at least as wide as the header and as every
   * cell of that column, and no wider than the longest of them.
   */
  function ColumnWidths(headers: seq<NetString>, rows: seq<seq<NetString>>): (widths: seq<nat>)
    ensures |widths| == |headers|
    ensures forall i :: 0 <= i < |headers| ==> |headers[i]| <= widths[i]
    ensures forall i, k :: 0 <= i < |headers| && 0 <= k < |rows| ==> CellLength(rows[k], i) <= widths[i]
    ensures forall i :: 0 <= i < |headers| ==>
      widths[i] == |headers[i]| || exists k :: 0 <= k < |rows| && CellLength(rows[k], i) == widths[i]
    ensures rows == [] ==> forall i :: 0 <= i < |headers| ==> widths[i] == |headers[i]|
  {
    seq(|headers|, i requires 0 <= i < |headers| => Max(|headers[i]|, MaxCellLength(rows, i)))
  }

  /** `cell.PadRight(width)`: the text followed by spaces up to the width, never cut short. */
  function PadRight(s: NetString, width: nat): (r: NetString)
    ensures |r| == Max(|s|, width)
    ensures r[..|s|] == s
  {
    if width <= |s| then s else s + seq(width - |s|, _ => Space)
  }

  /** What `PadRight` adds after the text is spaces only. */
  lemma PadRightAddsSpaces(s: NetString, width: nat)
    ensures forall j :: |s| <= j < |PadRight(s, width)| ==> PadRight(s, width)[j] == Space
  {
  }

  /** `new string('-', n)`. */
  function Dashes(n: nat): (r: NetString)
    ensures |r| == n && forall j :: 0 <= j < n ==> r[j] == Dash
  {
    seq(n, _ => Dash)
  }

  /** `i < row.Count ? row[i] : string.Empty`: a missing cell is empty; cells past the headers are never asked for. */
  function Cell(row: seq<NetString>, i: nat): NetString {
    if i < |row| then row[i] else []
  }

  /** The text `WriteRow` writes for one column: the padded cell between spaces, and `|` unless it is the last. */
  function CellText(cell: NetString, width: nat, last: bool): NetString {
    [Space] + PadRight(cell, width) + [Space] + (if last then [] else [Bar])
  }

  lemma CellTextShape(cell: NetString, width: nat, last: bool)
    requires |cell| <= width
    ensures |CellText(cell, width, last)| == width + (if last then 2 else 3)
    ensures !last ==> CellText(cell, width, last)[width + 2] == Bar
    ensures CellText(cell, width, last)[..width + 2] == [Space] + PadRight(cell, width) + [Space]
  {
  }

  lemma DashTextShape(width: nat, last: bool)
    ensures |DashText(width, last)| == width + (if last then 2 else 3)
    ensures !last ==> DashText(width, last)[width + 2] == Plus
    ensures DashText(width, last)[..width + 2] == [Space] + Dashes(width) + [Space]
  {
  }

  /** The text `WriteSeparator` writes for one column: dashes between spaces, and `+` unless it is the last. */
  function DashText(width: nat, last: bool): NetString {
    [Space] + Dashes(width) + [Space] + (if last then [] else [Plus])
  }

  /** What `WriteRow` has written after its first `i` columns. */
  function RowText(row: seq<NetString>, widths: seq<nat>, i: nat): NetString
    requires i <= |widths|
  {
    if i == 0 then []
    else RowText(row, widths, i - 1) + CellText(Cell(row, i - 1), widths[i - 1], i == |widths|)
  }

  /** What `WriteSeparator` has written after its first `i` columns. */
  function SeparatorText(widths: seq<nat>, i: nat): NetString
    requires i <= |widths|
  {
    if i == 0 then []
    else SeparatorText(widths, i - 1) + DashText(widths[i - 1], i == |widths|)
  }

  function RowLine(row: seq<NetString>, widths: seq<nat>): NetString {
    RowText(row, widths, |widths|)
  }

  function SeparatorLine(widths: seq<nat>): NetString {
    SeparatorText(widths, |widths|)
  }

  /** The lines `Render` writes: the headers, the separator, then each row in the given order. */
  function TableLines(headers: seq<NetString>, rows: seq<seq<NetString>>): (lines: seq<NetString>)
    ensures |lines| == |rows| + 2
  {
    var widths := ColumnWidths(headers, rows);
    [RowLine(headers, widths), SeparatorLine(widths)] + RowLines(rows, widths)
  }

  /** A table's lines are its header line, then its separator line, then one line per row in the rows' order. */
  lemma TableLinesInOrder(headers: seq<NetString>, rows: seq<seq<NetString>>)
    ensures var lines, widths := TableLines(headers, rows), ColumnWidths(headers, rows);
      && lines[0] == RowLine(headers, widths)
      && lines[1] == SeparatorLine(widths)
      && forall k :: 0 <= k < |rows| ==> lines[k + 2] == RowLine(rows[k], widths)
  {
    var lines, widths := TableLines(headers, rows), ColumnWidths(headers, rows);
    var body := RowLines(rows, widths);
    assert lines == [RowLine(headers, widths), SeparatorLine(widths)] + body;
    forall k | 0 <= k < |rows|
      ensures lines[k + 2] == RowLine(rows[k], widths)
    {
      assert lines[k + 2] == body[k];
    }
  }

  /** One line per row, in the rows' order. */
  function RowLines(rows: seq<seq<NetString>>, widths: seq<nat>): (lines: seq<NetString>)
    ensures |lines| == |rows|
  {
    seq(|rows|, k requires 0 <= k < |rows| => RowLine(rows[k], widths))
  }

  /** `WriteRow`: one line holding the cells of `row` laid out in the given widths. */
  method WriteRow(console: Console, row: seq<NetString>, widths: seq<nat>)
    modifies console
    ensures console.lines == old(console.lines) + [old(console.current) + RowLine(row, widths)]
    ensures console.current == []
  {
    for i := 0 to |widths|
      invariant console.lines == old(console.lines)
      invariant console.current == old(console.current) + RowText(row, widths, i)
    {
      ghost var before := console.current;
      var cell := if i < |row| then row[i] else [];
      var block := [Space] + PadRight(cell, widths[i]) + [Space];
      console.Write(block);
      if i < |widths| - 1 {
        console.Write([Bar]);
      }
      assert console.current == before + CellText(cell, widths[i], i + 1 == |widths|);
      assert RowText(row, widths, i + 1) == RowText(row, widths, i) + CellText(cell, widths[i], i + 1 == |widths|);
      AppendAssociative(old(console.current), RowText(row, widths, i), CellText(cell, widths[i], i + 1 == |widths|));
    }
    console.WriteLine();
  }

  /** `WriteSeparator`: one line of dashes in the given widths. */
  method WriteSeparator(console: Console, widths: seq<nat>)
    modifies console
    ensures console.lines == old(console.lines) + [old(console.current) + SeparatorLine(widths)]
    ensures console.current == []
  {
    for i := 0 to |widths|
      invariant console.lines == old(console.lines)
      invariant console.current == old(console.current) + SeparatorText(widths, i)
    {
      ghost var before := console.current;
      var block := [Space] + Dashes(widths[i]) + [Space];
      console.Write(block);
      if i < |widths| - 1 {
        console.Write([Plus]);
      }
      assert console.current == before + DashText(widths[i], i + 1 == |widths|);
      AppendAssociative(old(console.current), SeparatorText(widths, i), DashText(widths[i], i + 1 == |widths|));
    }
    console.WriteLine();
  }

  /** The `foreach` over the rows in `Render`: one line per row, in order. */
  method WriteRows(console: Console, rows: seq<seq<NetString>>, widths: seq<nat>)
    requires console.current == []
    modifies console
    ensures console.lines == old(console.lines) + RowLines(rows, widths)
    ensures console.current == []
  {
    ghost var all := RowLines(rows, widths);
    for k := 0 to |rows|
      invariant console.current == []
      invariant console.lines == old(console.lines) + all[..k]
    {
      ghost var before := console.lines;
      WriteRow(console, rows[k], widths);
      assert [] + all[k] == all[k];
      assert all[..k + 1] == all[..k] + [all[k]];
      AppendAssociative(old(console.lines), all[..k], [all[k]]);
    }
    assert all[..|rows|] == all;
  }

  /**
   * `Render`: writes the table's lines; the first one continues whatever text the console's
   * current line already held.
   */
  method Render(console: Console, headers: seq<NetString>, rows: seq<seq<NetString>>)
    modifies console
    ensures var table := TableLines(headers, rows);
      console.lines == old(console.lines) + [old(console.current) + table[0]] + table[1..]
    ensures console.current == []
  {
    var widths := ColumnWidths(headers, rows);
    ghost var header, separator, body := RowLine(headers, widths), SeparatorLine(widths), RowLines(rows, widths);
    WriteRow(console, headers, widths);
    WriteSeparator(console, widths);
    assert [] + separator == separator;
    WriteRows(console, rows, widths);
    ContinueFirstLine(old(console.lines), old(console.current), TableLines(headers, rows), header, separator, body);
  }

  /** Writing lines `[x, y] + b` after text `c` already on the current line joins `c` to the first of them. */
  lemma ContinueFirstLine<T>(p: seq<seq<T>>, c: seq<T>, t: seq<seq<T>>, x: seq<T>, y: seq<T>, b: seq<seq<T>>)
    requires t == [x, y] + b
    ensures p + [c + x] + [y] + b == p + [c + t[0]] + t[1..]
  {
    assert t[1..] == [y] + b;
  }

  /** The width of a rendered line: each column takes its width plus two spaces, and one `|` or `+` sits between columns. */
  function LineWidth(widths: seq<nat>): nat {
    if widths == [] then 0 else Offset(widths, |widths|) - 1
  }

  /** Where column `i` starts on a line: the columns before it, each with its separator. */
  function Offset(widths: seq<nat>, i: nat): (o: nat)
    requires i <= |widths|
    ensures i > 0 ==> o >= 3
  {
    if i == 0 then 0 else Offset(widths, i - 1) + widths[i - 1] + 3
  }

  /** Every cell of `row` fits its column. */
  predicate Fits(row: seq<NetString>, widths: seq<nat>) {
    forall i :: 0 <= i < |widths| ==> |Cell(row, i)| <= widths[i]
  }

  lemma {:induction false} RowTextLength(row: seq<NetString>, widths: seq<nat>, i: nat)
    requires i <= |widths| && Fits(row, widths)
    ensures |RowText(row, widths, i)| == if 0 < i == |widths| then Offset(widths, i) - 1 else Offset(widths, i)
  {
    if i > 0 {
      var before := RowText(row, widths, i - 1);
      var text := CellText(Cell(row, i - 1), widths[i - 1], i == |widths|);
      assert |before| == Offset(widths, i - 1) by {
        RowTextLength(row, widths, i - 1);
      }
      assert |text| == widths[i - 1] + (if i == |widths| then 2 else 3) by {
        assert |Cell(row, i - 1)| <= widths[i - 1];
        CellTextShape(Cell(row, i - 1), widths[i - 1], i == |widths|);
      }
      assert RowText(row, widths, i) == before + text;
    }
  }

  lemma {:induction false} SeparatorTextLength(widths: seq<nat>, i: nat)
    requires i <= |widths|
    ensures |SeparatorText(widths, i)| == if 0 < i == |widths| then Offset(widths, i) - 1 else Offset(widths, i)
  {
    if i > 0 {
      SeparatorTextLength(widths, i - 1);
    }
  }

  /** A row whose cells fit is exactly `LineWidth` long. */
  lemma RowLineWidth(row: seq<NetString>, widths: seq<nat>)
    requires Fits(row, widths)
    ensures |RowLine(row, widths)| == LineWidth(widths)
  {
    RowTextLength(row, widths, |widths|);
  }

  /** The separator line is exactly `LineWidth` long. */
  lemma SeparatorLineWidth(widths: seq<nat>)
    ensures |SeparatorLine(widths)| == LineWidth(widths)
  {
    SeparatorTextLength(widths, |widths|);
  }

  /** Every line of a rendered table has the same length, so the columns line up. */
  lemma TableLinesAligned(headers: seq<NetString>, rows: seq<seq<NetString>>)
    ensures var widths := ColumnWidths(headers, rows);
      forall k :: 0 <= k < |TableLines(headers, rows)| ==> |TableLines(headers, rows)[k]| == LineWidth(widths)
  {
    var widths := ColumnWidths(headers, rows);
    var lines := TableLines(headers, rows);
    forall k | 0 <= k < |lines|
      ensures |lines[k]| == LineWidth(widths)
    {
      if k == 0 {
        assert Fits(headers, widths) && lines[0] == RowLine(headers, widths);
        RowLineWidth(headers, widths);
      } else if k == 1 {
        SeparatorLineWidth(widths);
      } else {
        assert Fits(rows[k - 2], widths) && lines[k] == RowLine(rows[k - 2], widths);
        RowLineWidth(rows[k - 2], widths);
      }
    }
  }

  lemma {:induction false} RowTextPrefix(row: seq<NetString>, widths: seq<nat>, i: nat, j: nat)
    requires i <= j <= |widths|
    ensures RowText(row, widths, i) <= RowText(row, widths, j)
  {
    if i < j {
      RowTextPrefix(row, widths, i, j - 1);
      var a, c := RowText(row, widths, j - 1), CellText(Cell(row, j - 1), widths[j - 1], j == |widths|);
      assert a <= a + c;
    }
  }

  lemma {:induction false} SeparatorTextPrefix(widths: seq<nat>, i: nat, j: nat)
    requires i <= j <= |widths|
    ensures SeparatorText(widths, i) <= SeparatorText(widths, j)
  {
    if i < j {
      SeparatorTextPrefix(widths, i, j - 1);
      var a, c := SeparatorText(widths, j - 1), DashText(widths[j - 1], j == |widths|);
      assert a <= a + c;
    }
  }

  /** Column `i`'s text, as `CellText` gives it, begins at the column's offset in the row line. */
  lemma RowLineColumn(row: seq<NetString>, widths: seq<nat>, i: nat)
    requires Fits(row, widths) && i < |widths|
    ensures var line, o := RowLine(row, widths), Offset(widths, i);
      var text := CellText(Cell(row, i), widths[i], i == |widths| - 1);
      && o + widths[i] + 2 <= |line| && |text| >= widths[i] + 2
      && line[o..o + widths[i] + 2] == text[..widths[i] + 2]
  {
    var line := RowLine(row, widths);
    var before, text := RowText(row, widths, i), CellText(Cell(row, i), widths[i], i == |widths| - 1);
    assert |before| == Offset(widths, i) by {
      RowTextLength(row, widths, i);
    }
    assert before + text <= line by {
      RowTextPrefix(row, widths, i + 1, |widths|);
    }
    assert |text| >= widths[i] + 2 by {
      CellTextShape(Cell(row, i), widths[i], i == |widths| - 1);
    }
    SliceThroughPrefix(line, before, text, widths[i] + 2);
  }

  /**
   * Column `i` of a row line, at its offset, is a space, the cell (empty when the row is
   * short) padded to exactly the column width, and a space.
   */
  lemma RowLineLayout(row: seq<NetString>, widths: seq<nat>, i: nat)
    requires Fits(row, widths) && i < |widths|
    ensures var line, o := RowLine(row, widths), Offset(widths, i);
      && o + widths[i] + 2 <= |line|
      && line[o..o + widths[i] + 2] == [Space] + PadRight(Cell(row, i), widths[i]) + [Space]
      && |PadRight(Cell(row, i), widths[i])| == widths[i]
  {
    RowLineColumn(row, widths, i);
    CellTextShape(Cell(row, i), widths[i], i == |widths| - 1);
  }

  /** A `|` follows every column of a row line but the last, and the line ends right after the last one. */
  lemma RowLineSeparators(row: seq<NetString>, widths: seq<nat>, i: nat)
    requires Fits(row, widths) && i < |widths|
    ensures var line, o := RowLine(row, widths), Offset(widths, i);
      && (i < |widths| - 1 ==> o + widths[i] + 2 < |line| && line[o + widths[i] + 2] == Bar)
      && (i == |widths| - 1 ==> |line| == o + widths[i] + 2)
  {
    var before, text := RowText(row, widths, i), CellText(Cell(row, i), widths[i], i == |widths| - 1);
    RowTextLength(row, widths, i);
    RowTextLength(row, widths, |widths|);
    RowTextPrefix(row, widths, i + 1, |widths|);
    CellTextShape(Cell(row, i), widths[i], i == |widths| - 1);
    if i < |widths| - 1 {
      ElementThroughPrefix(RowLine(row, widths), before, text, widths[i] + 2);
    }
  }

  /** Column `i` of the separator line is a space, `widths[i]` dashes and a space; a `+` follows every column but the last. */
  lemma SeparatorLineLayout(widths: seq<nat>, i: nat)
    requires i < |widths|
    ensures var line, o := SeparatorLine(widths), Offset(widths, i);
      && o + widths[i] + 2 <= |line|
      && line[o..o + widths[i] + 2] == [Space] + Dashes(widths[i]) + [Space]
      && (i < |widths| - 1 ==> o + widths[i] + 2 < |line| && line[o + widths[i] + 2] == Plus)
      && (i == |widths| - 1 ==> |line| == o + widths[i] + 2)
  {
    var before, text := SeparatorText(widths, i), DashText(widths[i], i == |widths| - 1);
    SeparatorTextLength(widths, i);
    SeparatorTextLength(widths, |widths|);
    SeparatorTextPrefix(widths, i + 1, |widths|);
    DashTextShape(widths[i], i == |widths| - 1);
    SliceThroughPrefix(SeparatorLine(widths), before, text, widths[i] + 2);
    if i < |widths| - 1 {
      ElementThroughPrefix(SeparatorLine(widths), before, text, widths[i] + 2);
    }
  }

  /** Cells past the last header are never written. */
  lemma {:induction false} ExtraCellsIgnored(row: seq<NetString>, widths: seq<nat>, i: nat)
    requires |widths| <= |row| && i <= |widths|
    ensures RowText(row, widths, i) == RowText(row[..|widths|], widths, i)
  {
    if i > 0 {
      ExtraCellsIgnored(row, widths, i - 1);
    }
  }

  /**
   * Widths count code units: a header holding one character above U+FFFF makes a column two
   * wide, and a cell of that character exactly fills a column whose header is two letters.
   */
  lemma WideCharacterWidth()
    ensures var smile := Encode("\U{1F600}");
      && |smile| == 2
      && ColumnWidths([smile], []) == [2]
      && SeparatorLine([2]) == [Space, Dash, Dash, Space]
      && RowLine([smile], ColumnWidths([Encode("ab")], [[smile]])) == [Space] + smile + [Space]
  {
    var smile := Encode("\U{1F600}");
    assert smile == EncodeChar('\U{1F600}') by {
      assert "\U{1F600}"[..0] == [];
    }
    var ab := Encode("ab");
    assert |ab| == 2 by {
      assert Encode("a") == [0x61 as CodeUnit] by {
        assert "a"[..0] == [];
      }
      assert "ab"[..1] == "a";
    }
    assert MaxCellLength([], 0) == 0;
    assert MaxCellLength([[smile]], 0) == 2 by {
      assert [[smile]][..0] == [];
    }
    var widths := ColumnWidths([ab], [[smile]]);
    assert widths == [2];
    assert Cell([smile], 0) == smile;
    assert RowText([smile], widths, 0) == [];
    assert RowLine([smile], widths) == RowText([smile], widths, 0) + CellText(smile, 2, true);
    assert PadRight(smile, 2) == smile;
  }
}
