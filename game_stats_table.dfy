/** The fixed-width text table the bot posts inside code blocks
    (src/models/game-stats-table.model.ts): a column list, a row list, and a renderer that
    pads every cell to its column's width. */
module StatsTable {
  import opened Wrappers
  import opened Text
  import opened JsValue

  /** `align` is optional in the source; an absent align behaves as `Left`. */
  datatype Align = Left | Right

  datatype Column = Column(heading: string, width: nat, align: Align)

  type Row = seq<Val>

  /** The width of the whole table: the sum of the column widths. */
  function TotalWidth(columns: seq<Column>): nat
    decreases |columns|
  {
    if |columns| == 0 then 0 else columns[0].width + TotalWidth(columns[1..])
  }

  /** `columns.at(i)` for a non-negative index. */
  function ColumnAt(columns: seq<Column>, i: nat): (c: Option<Column>)
    ensures i < |columns| ==> c == Some(columns[i])
    ensures i >= |columns| ==> c.None?
  {
    if i < |columns| then Some(columns[i]) else None
  }

  /** One padded cell: `padStart` for a right-aligned column, `padEnd` otherwise; a cell with no
      column is `padEnd(undefined)`, which leaves the text as it is. The text is never cut. */
  function Pad(s: string, col: Option<Column>): (r: string)
    ensures col.None? ==> r == s
    ensures col.Some? ==> |r| == Max(|s|, col.value.width)
    ensures col.Some? && col.value.align == Right ==> r[|r| - |s|..] == s
    ensures col.Some? && col.value.align == Left ==> r[..|s|] == s
  {
    match col
    case None => s
    case Some(c) => if c.align == Right then PadStart(s, c.width, ' ') else PadEnd(s, c.width, ' ')
  }

  /** The header line: every heading padded to its column, joined with "". */
  function HeaderText(columns: seq<Column>): string
    decreases |columns|
  {
    if |columns| == 0 then "" else Pad(columns[0].heading, Some(columns[0])) + HeaderText(columns[1..])
  }

  /** One body line: cell `i` padded to column `i`, joined with "". */
  function RowText(columns: seq<Column>, row: Row): string
    decreases |row|
  {
    if |row| == 0 then ""
    else Pad(Show(row[0]), ColumnAt(columns, 0)) + RowText(if |columns| == 0 then [] else columns[1..], row[1..])
  }

  /** `"".padEnd(tableWidth, "—")`. */
  function Separator(columns: seq<Column>): string
  {
    Repeat('—', TotalWidth(columns))
  }

  /** One body line per row, in row order. */
  function Lines(columns: seq<Column>, rows: seq<Row>): (r: seq<string>)
    ensures |r| == |rows|
    ensures forall i :: 0 <= i < |rows| ==> r[i] == RowText(columns, rows[i])
  {
    seq(|rows|, i requires 0 <= i < |rows| => RowText(columns, rows[i]))
  }

  function Body(columns: seq<Column>, rows: seq<Row>): string
  {
    Join(Lines(columns, rows), "\n")
  }

  /** `toString`: header, separator and body joined with "\n". */
  function Render(columns: seq<Column>, rows: seq<Row>): string
  {
    Join([HeaderText(columns), Separator(columns), Body(columns, rows)], "\n")
  }

  predicate LabelsFit(columns: seq<Column>)
  {
    forall i :: 0 <= i < |columns| ==> |columns[i].heading| <= columns[i].width
  }

  /** A row fills the table exactly when it has one cell per column and every cell's text fits
      its column. */
  predicate RowFits(columns: seq<Column>, row: Row)
  {
    |row| == |columns| && forall i :: 0 <= i < |row| ==> |Show(row[i])| <= columns[i].width
  }

  /** With headings that fit, the header is exactly as wide as the separator. */
  lemma {:induction false} HeaderWidth(columns: seq<Column>)
    requires LabelsFit(columns)
    ensures |HeaderText(columns)| == TotalWidth(columns) == |Separator(columns)|
    decreases |columns|
  {
    if |columns| > 0 {
      HeaderWidth(columns[1..]);
    }
  }

  /** A row that fits is exactly as wide as the separator, so the columns line up. */
  lemma {:induction false} RowWidth(columns: seq<Column>, row: Row)
    requires RowFits(columns, row)
    ensures |RowText(columns, row)| == TotalWidth(columns) == |Separator(columns)|
    decreases |row|
  {
    if |row| > 0 {
      assert RowFits(columns[1..], row[1..]) by {
        forall i | 0 <= i < |row[1..]|
          ensures |Show(row[1..][i])| <= columns[1..][i].width
        {
          assert row[1..][i] == row[i + 1];
        }
      }
      RowWidth(columns[1..], row[1..]);
    }
  }

  /** Text that holds no newline. */
  predicate OneLine(s: string)
  {
    Count(s, '\n') == 0
  }

  predicate CellsOneLine(rows: seq<Row>)
  {
    forall i, j :: 0 <= i < |rows| && 0 <= j < |rows[i]| ==> OneLine(Show(rows[i][j]))
  }

  lemma PadOneLine(s: string, col: Option<Column>)
    requires OneLine(s)
    ensures OneLine(Pad(s, col))
  {
    if col.Some? {
      var n := Max(|s|, col.value.width) - |s|;
      var fill := Repeat(' ', n);
      CountZero(fill, '\n');
      if col.value.align == Right {
        assert Pad(s, col) == if n == 0 then s else fill + s;
        CountConcat(fill, s, '\n');
      } else {
        assert Pad(s, col) == if n == 0 then s else s + fill;
        CountConcat(s, fill, '\n');
      }
    }
  }

  lemma {:induction false} HeaderOneLine(columns: seq<Column>)
    requires forall i :: 0 <= i < |columns| ==> OneLine(columns[i].heading)
    ensures OneLine(HeaderText(columns))
    decreases |columns|
  {
    if |columns| > 0 {
      PadOneLine(columns[0].heading, Some(columns[0]));
      HeaderOneLine(columns[1..]);
      CountConcat(Pad(columns[0].heading, Some(columns[0])), HeaderText(columns[1..]), '\n');
    }
  }

  lemma {:induction false} RowOneLine(columns: seq<Column>, row: Row)
    requires forall j :: 0 <= j < |row| ==> OneLine(Show(row[j]))
    ensures OneLine(RowText(columns, row))
    decreases |row|
  {
    if |row| > 0 {
      var rest := if |columns| == 0 then [] else columns[1..];
      PadOneLine(Show(row[0]), ColumnAt(columns, 0));
      assert forall j :: 0 <= j < |row[1..]| ==> row[1..][j] == row[j + 1];
      RowOneLine(rest, row[1..]);
      CountConcat(Pad(Show(row[0]), ColumnAt(columns, 0)), RowText(rest, row[1..]), '\n');
    }
  }

  /** With single-line headings and cells, the rendered table has a header line, a separator
      line and one line per row, in row order: `|rows| + 1` newlines, or 2 for an empty body. */
  lemma RenderLineCount(columns: seq<Column>, rows: seq<Row>)
    requires forall i :: 0 <= i < |columns| ==> OneLine(columns[i].heading)
    requires CellsOneLine(rows)
    ensures Count(Render(columns, rows), '\n') == if |rows| == 0 then 2 else |rows| + 1
  {
    var lines := Lines(columns, rows);
    forall i | 0 <= i < |lines|
      ensures Count(lines[i], '\n') == 0
    {
      RowOneLine(columns, rows[i]);
    }
    JoinSeparatorCount(lines, '\n');
    HeaderOneLine(columns);
    var sep := Separator(columns);
    CountZero(sep, '\n');
    var parts := [HeaderText(columns), sep, Body(columns, rows)];
    assert Render(columns, rows) == HeaderText(columns) + "\n" + (sep + "\n" + Body(columns, rows)) by {
      assert parts[1..] == [sep, Body(columns, rows)];
      assert parts[1..][1..] == [Body(columns, rows)];
      assert Join(parts[1..], "\n") == sep + "\n" + Body(columns, rows);
      assert Render(columns, rows) == parts[0] + "\n" + Join(parts[1..], "\n");
    }
    CountConcat(HeaderText(columns) + "\n", sep + "\n" + Body(columns, rows), '\n');
    CountConcat(HeaderText(columns), "\n", '\n');
    CountConcat(sep + "\n", Body(columns, rows), '\n');
    CountConcat(sep, "\n", '\n');
    assert Count("\n", '\n') == 1 by {
      assert "\n"[..0] == [];
    }
  }

  /** `standardizeRowLength`: pads a short row with "" cells and cuts a long one, keeping the
      cells it had up to the column count. */
  function Standardize(row: Row, n: nat): (r: Row)
    ensures |r| == n
    ensures |row| >= n ==> r == row[..n]
    ensures |row| < n ==> r[..|row|] == row && forall i :: |row| <= i < n ==> r[i] == Str("")
  {
    if |row| < n then row + seq(n - |row|, _ => Str("")) else row[..n]
  }

  /** What `setRows` leaves of a row: the `splice` cuts an over-long row in place, but the
      padded copy of a short row is thrown away, so a short row stays short. */
  function Truncate(row: Row, n: nat): (r: Row)
    ensures |row| > n ==> r == row[..n] == Standardize(row, n)
    ensures |row| <= n ==> r == row
  {
    if |row| > n then row[..n] else row
  }

  /** `setRows` does not pad: a short row keeps its length, unlike a row given to `addRow`. */
  lemma SetRowsDoesNotPad(row: Row, n: nat)
    requires |row| < n
    ensures |Truncate(row, n)| == |row| < |Standardize(row, n)|
  {
  }

  /** As written, a cell is padded by calling `padStart`/`padEnd` on the value itself, which
      throws unless the value is a string. */
  function CellAsWritten(v: Val, col: Option<Column>): Result<string>
  {
    if v.Str? then Ok(Pad(v.s, col)) else Err("TypeError: value.padStart is not a function")
  }

  function RowAsWritten(columns: seq<Column>, row: Row): Result<string>
    decreases |row|
  {
    if |row| == 0 then Ok("")
    else
      match CellAsWritten(row[0], ColumnAt(columns, 0))
      case Err(e) => Err(e)
      case Ok(cell) =>
        match RowAsWritten(if |columns| == 0 then [] else columns[1..], row[1..])
        case Err(e) => Err(e)
        case Ok(rest) => Ok(cell + rest)
  }

  function BodyAsWritten(columns: seq<Column>, rows: seq<Row>): Result<seq<string>>
    decreases |rows|
  {
    if |rows| == 0 then Ok([])
    else
      match RowAsWritten(columns, rows[0])
      case Err(e) => Err(e)
      case Ok(line) =>
        match BodyAsWritten(columns, rows[1..])
        case Err(e) => Err(e)
        case Ok(lines) => Ok([line] + lines)
  }

  /** `toString` as written. */
  function RenderAsWritten(columns: seq<Column>, rows: seq<Row>): Result<string>
  {
    match BodyAsWritten(columns, rows)
    case Err(e) => Err(e)
    case Ok(lines) => Ok(Join([HeaderText(columns), Separator(columns), Join(lines, "\n")], "\n"))
  }

  predicate RowStrings(row: Row)
  {
    forall j :: 0 <= j < |row| ==> row[j].Str?
  }

  predicate StringCells(rows: seq<Row>)
  {
    forall i :: 0 <= i < |rows| ==> RowStrings(rows[i])
  }

  lemma {:induction false} RowAsWrittenAgrees(columns: seq<Column>, row: Row)
    ensures RowStrings(row) ==> RowAsWritten(columns, row) == Ok(RowText(columns, row))
    ensures !RowStrings(row) ==> RowAsWritten(columns, row).Err?
    decreases |row|
  {
    if |row| > 0 {
      var rest := if |columns| == 0 then [] else columns[1..];
      RowAsWrittenAgrees(rest, row[1..]);
      if !RowStrings(row) && row[0].Str? {
        var j :| 0 <= j < |row| && !row[j].Str?;
        assert !row[1..][j - 1].Str?;
      }
    }
  }

  lemma {:induction false} BodyAsWrittenOk(columns: seq<Column>, rows: seq<Row>)
    requires StringCells(rows)
    ensures BodyAsWritten(columns, rows) == Ok(Lines(columns, rows))
    decreases |rows|
  {
    if |rows| > 0 {
      RowAsWrittenAgrees(columns, rows[0]);
      assert StringCells(rows[1..]) by {
        forall i | 0 <= i < |rows[1..]|
          ensures RowStrings(rows[1..][i])
        {
          assert rows[1..][i] == rows[i + 1];
        }
      }
      BodyAsWrittenOk(columns, rows[1..]);
      assert [RowText(columns, rows[0])] + Lines(columns, rows[1..]) == Lines(columns, rows);
    }
  }

  lemma {:induction false} BodyAsWrittenErr(columns: seq<Column>, rows: seq<Row>)
    requires !StringCells(rows)
    ensures BodyAsWritten(columns, rows).Err?
    decreases |rows|
  {
    RowAsWrittenAgrees(columns, rows[0]);
    if RowStrings(rows[0]) {
      var i :| 0 <= i < |rows| && !RowStrings(rows[i]);
      assert !RowStrings(rows[1..][i - 1]);
      BodyAsWrittenErr(columns, rows[1..]);
    }
  }

  /** The renderer as written succeeds exactly on tables whose cells are all strings, and then
      prints what `Render` prints; a single number or undefined cell makes it throw. */
  lemma RenderAsWrittenAgrees(columns: seq<Column>, rows: seq<Row>)
    ensures StringCells(rows) ==> RenderAsWritten(columns, rows) == Ok(Render(columns, rows))
    ensures !StringCells(rows) ==> RenderAsWritten(columns, rows).Err?
  {
    if StringCells(rows) {
      BodyAsWrittenOk(columns, rows);
    } else {
      BodyAsWrittenErr(columns, rows);
    }
  }

  /** The scoreboard table's first row: a team name and the run total as a number. */
  lemma NumericCellThrows()
    ensures RenderAsWritten([Column("Team", 9, Left), Column("R", 5, Right)], [[Str("Cubs"), Num(3)]]).Err?
  {
    RenderAsWrittenAgrees([Column("Team", 9, Left), Column("R", 5, Right)], [[Str("Cubs"), Num(3)]]);
  }

  /** A table posted by the bot. */
  class GameStatsTable {
    var columns: seq<Column>
    var rows: seq<Row>

    constructor()
      ensures columns == [] && rows == []
    {
      columns := [];
      rows := [];
    }

    /** Replaces the column list wholesale and hands back the same table. */
    method SetColumns(cols: seq<Column>) returns (self: GameStatsTable)
      modifies this
      ensures columns == cols && rows == old(rows)
      ensures self == this
    {
      columns := cols;
      self := this;
    }

    /** Stores the given rows, over-long ones cut to the column count and short ones as they
        are, and hands back the same table. */
    method SetRows(given: seq<Row>) returns (self: GameStatsTable)
      modifies this
      ensures columns == old(columns)
      ensures |rows| == |given|
      ensures forall i :: 0 <= i < |given| ==> rows[i] == Truncate(given[i], |columns|)
      ensures forall i :: 0 <= i < |given| ==> |rows[i]| <= |columns|
      ensures self == this
    {
      var kept: seq<Row> := [];
      for i := 0 to |given|
        invariant |kept| == i
        invariant forall j :: 0 <= j < i ==> kept[j] == Truncate(given[j], |columns|)
      {
        var row := given[i];
        if |row| > |columns| {
          row := row[..|columns|];
        }
        kept := kept + [row];
      }
      rows := kept;
      self := this;
    }

    /** Appends one standardised row; the rows already there are untouched. */
    method AddRow(row: Row)
      modifies this
      ensures columns == old(columns)
      ensures rows == old(rows) + [Standardize(row, |columns|)]
      ensures |rows[|rows| - 1]| == |columns|
    {
      rows := rows + [Standardize(row, |columns|)];
    }

    function ToString(): string
      reads this
    {
      Render(columns, rows)
    }
  }
}
