/** The text and tables posted in a game thread (src/services/game-thread-stats.service.ts),
    computed from a snapshot of the store. `bold` is Discord's `**text**`. */
module GameThreadStats {
  import opened Wrappers
  import opened Text
  import opened JsValue
  import opened Players
  import opened GameFeed
  import opened GameInfo
  import opened StatsTable

  /** A `{ home, away }` result. */
  datatype HomeAway<T> = HomeAway(home: T, away: T)

  /** `getHomeTeam().teamName || ""`. */
  function HomeTeamName(s: Snapshot): string
  {
    StrOrEmpty(s.game.homeTeam.teamName)
  }

  function AwayTeamName(s: Snapshot): string
  {
    StrOrEmpty(s.game.awayTeam.teamName)
  }

  /** A name column: the longer of the two names plus a 5-character buffer. */
  function NameColumnWidth(home: string, away: string): (w: nat)
    ensures w >= |home| + 5 && w >= |away| + 5
    ensures w == |home| + 5 || w == |away| + 5
  {
    if |home| < |away| then |away| + 5 else |home| + 5
  }

  /** One team's scoreboard line: runs, hits, errors and men left on base. */
  function TeamLine(teamName: string, score: Option<StatMap>): string
  {
    Bold(teamName) + ": " + Show(Field(score, "runs")) + " R | " + Show(Field(score, "hits")) + " H | "
      + Show(Field(score, "errors")) + " E | " + Show(Field(score, "leftOnBase")) + " LOB"
  }

  /** `buildScoreboardSummary`: the away line, a newline, then the home line. */
  function ScoreboardSummary(s: Snapshot): (r: string)
    ensures var away := TeamLine(AwayTeamName(s), s.game.linescore.away);
      |r| > |away| && r[..|away|] == away && r[|away|] == '\n'
      && r[|away| + 1..] == TeamLine(HomeTeamName(s), s.game.linescore.home)
  {
    var away := TeamLine(AwayTeamName(s), s.game.linescore.away);
    var home := TeamLine(HomeTeamName(s), s.game.linescore.home);
    assert (away + "\n" + home)[..|away|] == away;
    assert (away + "\n" + home)[|away| + 1..] == home;
    away + "\n" + home
  }

  function ScoreboardColumns(s: Snapshot): seq<Column>
  {
    [Column("Team", NameColumnWidth(HomeTeamName(s), AwayTeamName(s)), Left), Column("R", 5, Right),
     Column("H", 5, Right), Column("E", 5, Right), Column("LOB", 5, Right)]
  }

  function ScoreRow(teamName: string, score: Option<StatMap>): Row
  {
    [Str(teamName), Field(score, "runs"), Field(score, "hits"), Field(score, "errors"), Field(score, "leftOnBase")]
  }

  /** A table whose rows have one cell per column keeps them as given. */
  method NewTable(columns: seq<Column>, rows: seq<Row>) returns (t: GameStatsTable)
    requires forall i :: 0 <= i < |rows| ==> |rows[i]| == |columns|
    ensures fresh(t)
    ensures t.columns == columns && t.rows == rows
  {
    t := new GameStatsTable();
    t := t.SetColumns(columns);
    t := t.SetRows(rows);
  }

  /** The home and away tables of one section, sharing the same columns. */
  method TablePair(columns: seq<Column>, homeRows: seq<Row>, awayRows: seq<Row>) returns (t: HomeAway<GameStatsTable>)
    requires forall i :: 0 <= i < |homeRows| ==> |homeRows[i]| == |columns|
    requires forall i :: 0 <= i < |awayRows| ==> |awayRows[i]| == |columns|
    ensures fresh(t.home) && fresh(t.away) && t.home != t.away
    ensures t.home.columns == columns && t.away.columns == columns
    ensures t.home.rows == homeRows && t.away.rows == awayRows
  {
    var away := NewTable(columns, awayRows);
    var home := NewTable(columns, homeRows);
    t := HomeAway(home, away);
  }

  /** `buildScoreboardTable`: the away row, then the home row. */
  method BuildScoreboardTable(s: Snapshot) returns (t: GameStatsTable)
    ensures fresh(t)
    ensures t.columns == ScoreboardColumns(s)
    ensures t.rows == [ScoreRow(AwayTeamName(s), s.game.linescore.away), ScoreRow(HomeTeamName(s), s.game.linescore.home)]
  {
    t := NewTable(ScoreboardColumns(s),
                  [ScoreRow(AwayTeamName(s), s.game.linescore.away), ScoreRow(HomeTeamName(s), s.game.linescore.home)]);
  }

  /** The API reports runs as numbers, so the scoreboard table as written cannot be rendered. */
  lemma ScoreboardTableThrows(s: Snapshot)
    requires Field(s.game.linescore.away, "runs").Num?
    ensures RenderAsWritten(ScoreboardColumns(s),
      [ScoreRow(AwayTeamName(s), s.game.linescore.away), ScoreRow(HomeTeamName(s), s.game.linescore.home)]).Err?
  {
    var rows: seq<Row> := [ScoreRow(AwayTeamName(s), s.game.linescore.away), ScoreRow(HomeTeamName(s), s.game.linescore.home)];
    assert !rows[0][1].Str?;
    RenderAsWrittenAgrees(ScoreboardColumns(s), rows);
  }

  /** `pitcher?.getProfile()?.fullName || ""`. */
  function PitcherName(p: Option<PlayerEntry>): string
  {
    match p
    case None => ""
    case Some(e) => Show(Or(e.profile.fullName, Str("")))
  }

  /** `buildPitcherDescription`: the team and "TBD" without a probable pitcher, otherwise the
      team, the pitcher and the season pitching summary. */
  function PitcherDescription(teamName: string, p: Option<PlayerEntry>): (r: string)
    ensures p.None? ==> r == Bold(teamName) + " - TBD"
    ensures p.Some? ==> r == Bold(teamName) + " - " + PitcherName(p) + " (" + SeasonPitchingSummary(p.value.boxscore) + ")"
  {
    match p
    case None => Bold(teamName) + " - TBD"
    case Some(e) => Bold(teamName) + " - " + PitcherName(p) + " (" + SeasonPitchingSummary(e.boxscore) + ")"
  }

  /** `buildProbablePitchersSummary`: the away line, then the home line. */
  function ProbablePitchersSummary(s: Snapshot): (r: string)
    ensures r == PitcherDescription(AwayTeamName(s), ProbableAway(s)) + "\n" + PitcherDescription(HomeTeamName(s), ProbableHome(s))
  {
    var away := PitcherDescription(AwayTeamName(s), ProbableAway(s));
    var home := PitcherDescription(HomeTeamName(s), ProbableHome(s));
    assert [away, home][1..] == [home];
    assert Join([home], "\n") == home;
    Join([away, home], "\n")
  }

  /** `pitcher?.getSeasonStats()?.pitching`. */
  function SeasonPitching(p: Option<PlayerEntry>): Option<StatMap>
  {
    match p
    case None => None
    case Some(e) => Pitching(e.boxscore.seasonStats)
  }

  function PitcherRow(teamName: string, p: Option<PlayerEntry>): Row
  {
    var st := SeasonPitching(p);
    [Str(teamName), Str(PitcherName(p)), Str(PitchingRecord(st)), Field(st, "era"), Field(st, "inningsPitched")]
  }

  function PitchersColumns(s: Snapshot): seq<Column>
  {
    [Column("Team", NameColumnWidth(HomeTeamName(s), AwayTeamName(s)), Left),
     Column("Pitcher", NameColumnWidth(PitcherName(ProbableHome(s)), PitcherName(ProbableAway(s))), Left),
     Column("Record", 8, Right), Column("ERA", 6, Right), Column("IP", 7, Right)]
  }

  /** `buildProbablePitchersTable`: the away row, then the home row, with team and pitcher
      columns sized to the longer name. */
  method BuildProbablePitchersTable(s: Snapshot) returns (t: GameStatsTable)
    ensures fresh(t)
    ensures t.columns == PitchersColumns(s)
    ensures t.rows == [PitcherRow(AwayTeamName(s), ProbableAway(s)), PitcherRow(HomeTeamName(s), ProbableHome(s))]
  {
    t := NewTable(PitchersColumns(s),
                  [PitcherRow(AwayTeamName(s), ProbableAway(s)), PitcherRow(HomeTeamName(s), ProbableHome(s))]);
  }

  /** `playerInfo?.getProfile().boxscoreName`. */
  function NameText(s: Snapshot, id: int): string
  {
    match PlayerAt(s, id)
    case None => "undefined"
    case Some(e) => Show(e.profile.boxscoreName)
  }

  /** `playerInfo?.getBoxscore().position?.abbreviation`. */
  function PositionText(s: Snapshot, id: int): string
  {
    match PlayerAt(s, id)
    case None => "undefined"
    case Some(e) => Show(e.boxscore.position)
  }

  /** A count against the probable pitcher: "-" only when it is missing, so 0 prints "0". */
  function VsCount(stats: StatMap, key: string): (r: string)
    ensures Field(Some(stats), key).Undefined? || Field(Some(stats), key).Null? ==> r == "-"
    ensures Field(Some(stats), key).Num? ==> r == IntToString(Field(Some(stats), key).n)
  {
    Show(DefinedOr(Field(Some(stats), key), Str("-")))
  }

  function VsBracket(stats: StatMap): string
  {
    " (" + VsCount(stats, "hits") + "-" + VsCount(stats, "atBats") + " | " + VsCount(stats, "homeRuns") + " HR, "
      + VsCount(stats, "rbi") + " RBI, " + VsCount(stats, "strikeOuts") + " K)"
  }

  /** The bold head of a lineup line: its 1-based number, name and position. */
  function LineupHead(s: Snapshot, id: int, i: nat): string
  {
    Bold(NatToString(i + 1) + ") " + NameText(s, id) + " - " + PositionText(s, id))
  }

  /** One lineup line, the cached splits against the probable pitcher bracketed after it when
      there are any; a batter with no cache entry is treated as having an empty one. */
  function LineupLine(s: Snapshot, id: int, i: nat): (r: string)
    ensures var st := BatterStatsVsProbPitcher(s, id);
      (st.None? || !HasKeys(st.value)) ==> r == LineupHead(s, id, i)
    ensures var st := BatterStatsVsProbPitcher(s, id);
      (st.Some? && HasKeys(st.value)) ==> r == LineupHead(s, id, i) + VsBracket(st.value)
  {
    var st := BatterStatsVsProbPitcher(s, id).GetOr(map[]);
    LineupHead(s, id, i) + (if HasKeys(st) then VsBracket(st) else "")
  }

  lemma BoldNumberPrefix(n: string, name: string, pos: string, tail: string)
    ensures |Bold(n + ") " + name + " - " + pos) + tail| >= |n| + 4
    ensures (Bold(n + ") " + name + " - " + pos) + tail)[..|n| + 4] == "**" + n + ") "
  {
    var t := Bold(n + ") " + name + " - " + pos) + tail;
    assert t == ("**" + n + ") ") + (name + " - " + pos + "**" + tail);
  }

  /** Every lineup line opens with its bold 1-based number. */
  lemma LineupLineNumbered(s: Snapshot, id: int, i: nat)
    ensures |LineupLine(s, id, i)| >= |NatToString(i + 1)| + 4
    ensures LineupLine(s, id, i)[..|NatToString(i + 1)| + 4] == "**" + NatToString(i + 1) + ") "
  {
    var st := BatterStatsVsProbPitcher(s, id).GetOr(map[]);
    var tail := if HasKeys(st) then VsBracket(st) else "";
    assert LineupLine(s, id, i) == Bold(NatToString(i + 1) + ") " + NameText(s, id) + " - " + PositionText(s, id)) + tail;
    BoldNumberPrefix(NatToString(i + 1), NameText(s, id), PositionText(s, id), tail);
  }

  /** The lines of a lineup, numbered from 1 in batting order. */
  function LineupLines(s: Snapshot, order: seq<int>): (r: seq<string>)
    ensures |r| == |order|
    decreases |order|
  {
    if |order| == 0 then []
    else LineupLines(s, order[..|order| - 1]) + [LineupLine(s, order[|order| - 1], |order| - 1)]
  }

  /** Line i belongs to the i-th batter of the order and carries the number i + 1. */
  lemma {:induction false} LineupLinesAt(s: Snapshot, order: seq<int>, i: nat)
    requires i < |order|
    ensures LineupLines(s, order)[i] == LineupLine(s, order[i], i)
    decreases |order|
  {
    if i < |order| - 1 {
      LineupLinesAt(s, order[..|order| - 1], i);
    }
  }

  /** One side of `buildStartingLineupSummary`: "TBD" with no lineup, otherwise one numbered
      line per batter in batting order. */
  function LineupText(s: Snapshot, order: seq<int>): (r: string)
    ensures |order| == 0 ==> r == "TBD"
    ensures |order| > 0 ==> r == Join(LineupLines(s, order), "\n")
  {
    if |order| == 0 then "TBD" else Join(LineupLines(s, order), "\n")
  }

  function StartingLineupSummary(s: Snapshot): HomeAway<string>
  {
    HomeAway(LineupText(s, BattingOrder(s.game.homeBox)), LineupText(s, BattingOrder(s.game.awayBox)))
  }

  /** As written: `Object.keys(stats)` on a batter with no cache entry throws. */
  function LineupLineAsWritten(s: Snapshot, id: int, i: nat): Result<string>
  {
    match BatterStatsVsProbPitcher(s, id)
    case None => Err("TypeError: Cannot convert undefined or null to object")
    case Some(st) => Ok(LineupHead(s, id, i) + (if HasKeys(st) then VsBracket(st) else ""))
  }

  function LineupLinesAsWritten(s: Snapshot, order: seq<int>): Result<seq<string>>
    decreases |order|
  {
    if |order| == 0 then Ok([])
    else
      match LineupLinesAsWritten(s, order[..|order| - 1])
      case Err(e) => Err(e)
      case Ok(lines) =>
        match LineupLineAsWritten(s, order[|order| - 1], |order| - 1)
        case Err(e) => Err(e)
        case Ok(line) => Ok(lines + [line])
  }

  function LineupTextAsWritten(s: Snapshot, order: seq<int>): Result<string>
  {
    if |order| == 0 then Ok("TBD")
    else
      match LineupLinesAsWritten(s, order)
      case Err(e) => Err(e)
      case Ok(lines) => Ok(Join(lines, "\n"))
  }

  predicate Cached(s: Snapshot, id: int)
  {
    BatterStatsVsProbPitcher(s, id).Some?
  }

  lemma {:induction false} LineupLinesAsWrittenAgrees(s: Snapshot, order: seq<int>)
    ensures (forall i :: 0 <= i < |order| ==> Cached(s, order[i])) ==> LineupLinesAsWritten(s, order) == Ok(LineupLines(s, order))
    ensures (exists i :: 0 <= i < |order| && !Cached(s, order[i])) ==> LineupLinesAsWritten(s, order).Err?
    decreases |order|
  {
    if |order| > 0 {
      var init := order[..|order| - 1];
      var last := order[|order| - 1];
      LineupLinesAsWrittenAgrees(s, init);
      assert forall i :: 0 <= i < |init| ==> init[i] == order[i];
      if exists i :: 0 <= i < |order| && !Cached(s, order[i]) {
        var i :| 0 <= i < |order| && !Cached(s, order[i]);
        if i < |init| {
          assert !Cached(s, init[i]);
        } else {
          assert !Cached(s, last);
        }
      } else {
        assert Cached(s, last);
      }
    }
  }

  /** The lineup summary as written agrees with `LineupText` while every batter has a cache
      entry, and throws as soon as one does not. */
  lemma LineupTextAsWrittenAgrees(s: Snapshot, order: seq<int>)
    ensures (forall i :: 0 <= i < |order| ==> Cached(s, order[i])) ==> LineupTextAsWritten(s, order) == Ok(LineupText(s, order))
    ensures (exists i :: 0 <= i < |order| && !Cached(s, order[i])) ==> LineupTextAsWritten(s, order).Err?
  {
    LineupLinesAsWrittenAgrees(s, order);
  }

  /** Before any splits are cached (the lineup is posted, the probable pitcher is not yet
      known), the summary as written throws. */
  lemma LineupSummaryThrowsBeforeSplits(s: Snapshot)
    requires |BattingOrder(s.game.homeBox)| > 0
    requires s.homeSplits == map[] && s.awaySplits == map[]
    ensures LineupTextAsWritten(s, BattingOrder(s.game.homeBox)).Err?
    ensures LineupText(s, BattingOrder(s.game.homeBox)) == Join(LineupLines(s, BattingOrder(s.game.homeBox)), "\n")
  {
    var order := BattingOrder(s.game.homeBox);
    assert !Cached(s, order[0]);
    LineupTextAsWrittenAgrees(s, order);
  }

  /** The name cell of a lineup table row. */
  function LineupName(s: Snapshot, id: int, i: nat): string
  {
    NatToString(i + 1) + " " + NameText(s, id) + " - " + PositionText(s, id)
  }

  /** `buildStartingLineupRow`: the name cell, then the splits against the probable pitcher. */
  function LineupTableRow(s: Snapshot, id: int, i: nat): (r: Row)
    ensures |r| == 7 && r[0] == Str(LineupName(s, id, i))
  {
    var st := BatterStatsVsProbPitcher(s, id);
    [Str(LineupName(s, id, i)), Or(Field(st, "avg"), Str("-")), Or(Field(st, "ops"), Str("-")),
     DefinedOr(Field(st, "atBats"), Str("-")), DefinedOr(Field(st, "homeRuns"), Str("-")),
     DefinedOr(Field(st, "rbi"), Str("-")), DefinedOr(Field(st, "strikeOuts"), Str("-"))]
  }

  /** AVG and OPS fall back to "-" whenever they are falsy, the four counts only when they are
      missing, so a count of 0 is kept; no cell of the row is undefined. */
  lemma LineupTableRowCells(s: Snapshot, id: int, i: nat)
    ensures var r := LineupTableRow(s, id, i);
      Truthy(r[1]) && Truthy(r[2])
      && (forall k :: 3 <= k < 7 ==> !r[k].Undefined? && !r[k].Null?)
    ensures var st := BatterStatsVsProbPitcher(s, id);
      Field(st, "atBats") == Num(0) ==> LineupTableRow(s, id, i)[3] == Num(0)
  {
  }

  function LineupTableRows(s: Snapshot, order: seq<int>): (r: seq<Row>)
    ensures |r| == |order|
    ensures forall i :: 0 <= i < |r| ==> |r[i]| == 7
    decreases |order|
  {
    if |order| == 0 then []
    else LineupTableRows(s, order[..|order| - 1]) + [LineupTableRow(s, order[|order| - 1], |order| - 1)]
  }

  function LineupNames(s: Snapshot, order: seq<int>): (r: seq<string>)
    ensures |r| == |order|
    decreases |order|
  {
    if |order| == 0 then []
    else LineupNames(s, order[..|order| - 1]) + [LineupName(s, order[|order| - 1], |order| - 1)]
  }

  /** Row i of a lineup table belongs to the i-th batter, its name cell carrying the number i + 1. */
  lemma {:induction false} LineupTableRowsAt(s: Snapshot, order: seq<int>, i: nat)
    requires i < |order|
    ensures LineupTableRows(s, order)[i] == LineupTableRow(s, order[i], i)
    decreases |order|
  {
    if i < |order| - 1 {
      LineupTableRowsAt(s, order[..|order| - 1], i);
    }
  }

  lemma {:induction false} LineupNamesAt(s: Snapshot, order: seq<int>)
    ensures forall i :: 0 <= i < |order| ==> LineupNames(s, order)[i] == LineupName(s, order[i], i)
    decreases |order|
  {
    if |order| > 0 {
      var init := order[..|order| - 1];
      LineupNamesAt(s, init);
      assert forall i :: 0 <= i < |init| ==> init[i] == order[i];
    }
  }

  function LineupColumns(nameWidth: nat): seq<Column>
  {
    [Column("", nameWidth, Left), Column("AVG", 7, Right), Column("OPS", 7, Right), Column("AB", 4, Right),
     Column("HR", 4, Right), Column("RBI", 4, Right), Column("K", 4, Right)]
  }

  /** One more batter adds one row and one name, and the longest name is updated by it. */
  lemma LineupStep(s: Snapshot, order: seq<int>, i: nat, width0: nat, rows: seq<Row>, width: nat)
    requires i < |order|
    requires rows == LineupTableRows(s, order[..i])
    requires width == Max(width0, MaxLen(LineupNames(s, order[..i])))
    ensures rows + [LineupTableRow(s, order[i], i)] == LineupTableRows(s, order[..i + 1])
    ensures Max(width, |LineupName(s, order[i], i)|) == Max(width0, MaxLen(LineupNames(s, order[..i + 1])))
  {
    assert order[..i + 1][..i] == order[..i];
    MaxLenSnoc(LineupNames(s, order[..i]), LineupName(s, order[i], i));
  }

  /** `order.map(mapStartingLineupRows)`: the rows, and the running name width raised to the
      longest name cell among them. */
  method MapLineupRows(s: Snapshot, order: seq<int>, width0: nat) returns (rows: seq<Row>, width: nat)
    ensures rows == LineupTableRows(s, order)
    ensures width == Max(width0, MaxLen(LineupNames(s, order)))
  {
    rows := [];
    width := width0;
    for i := 0 to |order|
      invariant rows == LineupTableRows(s, order[..i])
      invariant width == Max(width0, MaxLen(LineupNames(s, order[..i])))
    {
      var name := LineupName(s, order[i], i);
      LineupStep(s, order, i, width0, rows, width);
      if |name| > width {
        width := |name|;
      }
      rows := rows + [LineupTableRow(s, order[i], i)];
    }
    assert order[..|order|] == order;
  }

  /** The name column of both lineup tables: the longest name cell over both lineups plus 5. */
  function LineupNameWidth(s: Snapshot, awayOrder: seq<int>, homeOrder: seq<int>): (w: nat)
    ensures forall i :: 0 <= i < |awayOrder| ==> |LineupName(s, awayOrder[i], i)| + 5 <= w
    ensures forall i :: 0 <= i < |homeOrder| ==> |LineupName(s, homeOrder[i], i)| + 5 <= w
    ensures var a, h := LineupNames(s, awayOrder), LineupNames(s, homeOrder);
      && (|a| == 0 && |h| == 0 ==> w == 5)
      && (|a| + |h| > 0 ==>
            || (exists i :: 0 <= i < |a| && |a[i]| + 5 == w)
            || (exists i :: 0 <= i < |h| && |h[i]| + 5 == w))
  {
    LineupNamesAt(s, awayOrder);
    LineupNamesAt(s, homeOrder);
    MaxLenOfTwoAttained(LineupNames(s, awayOrder), LineupNames(s, homeOrder));
    Max(MaxLen(LineupNames(s, awayOrder)), MaxLen(LineupNames(s, homeOrder))) + 5
  }

  /** `buildStartingLineupTables`: one table per side, away first, both with the same columns. */
  method BuildStartingLineupTables(s: Snapshot) returns (t: HomeAway<GameStatsTable>)
    ensures fresh(t.home) && fresh(t.away) && t.home != t.away
    ensures var awayOrder, homeOrder := BattingOrder(s.game.awayBox), BattingOrder(s.game.homeBox);
      var columns := LineupColumns(LineupNameWidth(s, awayOrder, homeOrder));
      t.away.columns == columns && t.home.columns == columns
      && t.away.rows == LineupTableRows(s, awayOrder) && t.home.rows == LineupTableRows(s, homeOrder)
  {
    var awayOrder, homeOrder := BattingOrder(s.game.awayBox), BattingOrder(s.game.homeBox);
    var awayRows, width := MapLineupRows(s, awayOrder, 0);
    var homeRows, width' := MapLineupRows(s, homeOrder, width);
    var w := LineupNameWidth(s, awayOrder, homeOrder);
    assert w == width' + 5;
    t := TablePair(LineupColumns(w), homeRows, awayRows);
  }

  /** `parseInt(box?.battingOrder || "0")`; `None` is NaN. */
  function BattingOrderNumber(b: Boxscore): Option<int>
  {
    match Or(b.battingOrder, Str("0"))
    case Str(t) => ParseIntText(t)
    case Num(n) => Some(n)
    case _ => Some(0)
  }

  /** The lineup slot shown for a batter: `battingOrder / 100` when it is a multiple of 100
      (a starter), nothing for a substitute or an unreadable value. The JavaScript and Dafny
      remainders are zero for the same numbers, so the test agrees for negative values too. */
  function LineupSlot(b: Boxscore): Option<int>
  {
    match BattingOrderNumber(b)
    case None => None
    case Some(n) => if n % 100 == 0 then Some(n / 100) else None
  }

  /** A batting order is the slot times 100 plus the substitute's position in that slot: a
      starter shows its slot, a substitute shows none. */
  lemma LineupSlotOfOrder(b: Boxscore, slot: nat, sub: nat)
    requires sub < 100
    requires b.battingOrder == Str(NatToString(100 * slot + sub))
    ensures LineupSlot(b) == if sub == 0 then Some(slot) else None
  {
    var n := 100 * slot + sub;
    ParseNatToString(n);
    assert BattingOrderNumber(b) == Some(n);
    assert n % 100 == sub && n / 100 == slot;
  }

  /** The summary marks a starter with its bold slot number and anyone else with "> ". */
  function SummaryMarker(b: Boxscore): (r: string)
    ensures LineupSlot(b).None? ==> r == "> "
    ensures LineupSlot(b).Some? ==> r == Bold(IntToString(LineupSlot(b).value) + ") ")
  {
    match LineupSlot(b)
    case None => "> "
    case Some(k) => Bold(IntToString(k) + ") ")
  }

  /** The table marks a starter with its slot number and leaves the cell empty otherwise. */
  function TableMarker(b: Boxscore): (r: string)
    ensures LineupSlot(b).None? ==> r == ""
    ensures LineupSlot(b).Some? ==> r == IntToString(LineupSlot(b).value)
  {
    match LineupSlot(b)
    case None => ""
    case Some(k) => IntToString(k)
  }

  /** An array of abbreviations joined with `sep`; `join` prints undefined and null as "". */
  function JoinVals(vs: seq<Val>, sep: string): string
  {
    Join(seq(|vs|, i requires 0 <= i < |vs| => if vs[i].Undefined? || vs[i].Null? then "" else Show(vs[i])), sep)
  }

  /** `playerInfo?.getGameStats()?.batting || {}`. */
  function GameBatting(s: Snapshot, id: int): StatMap
  {
    match PlayerAt(s, id)
    case None => map[]
    case Some(e) => Batting(e.boxscore.stats).GetOr(map[])
  }

  predicate HasBattingStats(s: Snapshot, id: int)
  {
    HasKeys(GameBatting(s, id))
  }

  /** The batters with game batting stats, in order. */
  function WithBattingStats(s: Snapshot, ids: seq<int>): (r: seq<int>)
    ensures forall x :: x in r <==> x in ids && HasBattingStats(s, x)
    ensures |r| <= |ids|
    decreases |ids|
  {
    if |ids| == 0 then []
    else
      var init := ids[..|ids| - 1];
      assert ids == init + [ids[|ids| - 1]];
      WithBattingStats(s, init) + (if HasBattingStats(s, ids[|ids| - 1]) then [ids[|ids| - 1]] else [])
  }

  /** The batting note, name and every position played, `"-"`-joined. */
  function NamePos(e: PlayerEntry): string
  {
    Show(Or(Field(Batting(e.boxscore.stats), "note"), Str(""))) + Show(e.profile.boxscoreName) + " - "
      + JoinVals(e.boxscore.allPositions.GetOr([]), "-")
  }

  function LiveBattingLine(e: PlayerEntry): string
  {
    SummaryMarker(e.boxscore) + NamePos(e) + " (" + GameBattingSummary(e.boxscore) + ")"
  }

  /** The summary lines of the batters with stats, in order. */
  function LiveBattingLines(s: Snapshot, ids: seq<int>): seq<string>
    decreases |ids|
  {
    if |ids| == 0 then []
    else
      var id := ids[|ids| - 1];
      LiveBattingLines(s, ids[..|ids| - 1]) + (if HasBattingStats(s, id) then [LiveBattingLine(s.players[id])] else [])
  }

  /** One summary line for each batter with stats, in batting order; batters without stats
      are left out. */
  lemma {:induction false} LiveBattingLinesMatch(s: Snapshot, ids: seq<int>)
    ensures var f := WithBattingStats(s, ids);
      |LiveBattingLines(s, ids)| == |f|
      && forall i :: 0 <= i < |f| ==> f[i] in s.players && LiveBattingLines(s, ids)[i] == LiveBattingLine(s.players[f[i]])
    decreases |ids|
  {
    if |ids| > 0 {
      LiveBattingLinesMatch(s, ids[..|ids| - 1]);
    }
  }

  function NoteText(n: LabelValue): string
  {
    Show(n.caption) + "-" + Show(n.value)
  }

  /** One side of `buildLiveBattingStatsSummary`: the batter lines, then the notes after a
      blank line when there are any. */
  function LiveBattingText(s: Snapshot, box: TeamBox): (r: string)
    ensures |box.note.GetOr([])| == 0 ==> r == Join(LiveBattingLines(s, box.batters.GetOr([])), "\n")
  {
    var notes := box.note.GetOr([]);
    Join(LiveBattingLines(s, box.batters.GetOr([])), "\n")
      + (if |notes| > 0 then "\n\n" + Join(seq(|notes|, i requires 0 <= i < |notes| => NoteText(notes[i])), "\n") else "")
  }

  function LiveBattingSummary(s: Snapshot): HomeAway<string>
  {
    HomeAway(LiveBattingText(s, s.game.homeBox), LiveBattingText(s, s.game.awayBox))
  }

  function LiveBattingColumns(nameWidth: nat): seq<Column>
  {
    [Column("", 3, Left), Column("", nameWidth, Left), Column("AB", 3, Right), Column("R", 3, Right),
     Column("H", 3, Right), Column("RBI", 5, Right), Column("BB", 4, Right), Column("K", 3, Right),
     Column("LOB", 5, Right), Column("AVG", 6, Right), Column("OBP", 6, Right), Column("SLG", 6, Right)]
  }

  /** `buildStatsRow` for a batter with stats: slot, name, the game line and the season rates. */
  function StatsRow(e: PlayerEntry): (r: Row)
    ensures |r| == 12 && r[0] == Str(TableMarker(e.boxscore)) && r[1] == Str(NamePos(e))
  {
    var b := Batting(e.boxscore.stats);
    var season := Batting(e.boxscore.seasonStats);
    [Str(TableMarker(e.boxscore)), Str(NamePos(e)), Field(b, "atBats"), Field(b, "runs"), Field(b, "hits"),
     Field(b, "rbi"), Field(b, "baseOnBalls"), Field(b, "strikeOuts"), Field(b, "leftOnBase"),
     Field(season, "avg"), Field(season, "obp"), Field(season, "slg")]
  }

  /** The table rows of the batters with stats, in order. */
  function LiveBattingRows(s: Snapshot, ids: seq<int>): (r: seq<Row>)
    ensures forall i :: 0 <= i < |r| ==> |r[i]| == 12
    decreases |ids|
  {
    if |ids| == 0 then []
    else
      var id := ids[|ids| - 1];
      LiveBattingRows(s, ids[..|ids| - 1]) + (if HasBattingStats(s, id) then [StatsRow(s.players[id])] else [])
  }

  /** The name cells of those rows. */
  function LiveBattingNames(s: Snapshot, ids: seq<int>): seq<string>
    decreases |ids|
  {
    if |ids| == 0 then []
    else
      var id := ids[|ids| - 1];
      LiveBattingNames(s, ids[..|ids| - 1]) + (if HasBattingStats(s, id) then [NamePos(s.players[id])] else [])
  }

  /** One table row for each batter with stats, in batting order. */
  lemma {:induction false} LiveBattingRowsMatch(s: Snapshot, ids: seq<int>)
    ensures var f := WithBattingStats(s, ids);
      |LiveBattingRows(s, ids)| == |f|
      && forall i :: 0 <= i < |f| ==> f[i] in s.players && LiveBattingRows(s, ids)[i] == StatsRow(s.players[f[i]])
    decreases |ids|
  {
    if |ids| > 0 {
      LiveBattingRowsMatch(s, ids[..|ids| - 1]);
    }
  }

  /** `batters.map(mapStatsRows).filter(isNotEmpty)`: the rows of the batters with stats, and
      the running name width raised to the longest name among them. */
  method MapStatsRows(s: Snapshot, batters: seq<int>, width0: nat) returns (rows: seq<Row>, width: nat)
    ensures rows == LiveBattingRows(s, batters)
    ensures width == Max(width0, MaxLen(LiveBattingNames(s, batters)))
  {
    rows := [];
    width := width0;
    for i := 0 to |batters|
      invariant rows == LiveBattingRows(s, batters[..i])
      invariant width == Max(width0, MaxLen(LiveBattingNames(s, batters[..i])))
    {
      assert batters[..i + 1][..i] == batters[..i];
      var id := batters[i];
      if HasBattingStats(s, id) {
        var name := NamePos(s.players[id]);
        assert LiveBattingNames(s, batters[..i + 1]) == LiveBattingNames(s, batters[..i]) + [name];
        MaxLenSnoc(LiveBattingNames(s, batters[..i]), name);
        if |name| > width {
          width := |name|;
        }
        rows := rows + [StatsRow(s.players[id])];
      } else {
        assert LiveBattingNames(s, batters[..i + 1]) == LiveBattingNames(s, batters[..i]);
      }
    }
    assert batters[..|batters|] == batters;
  }

  /** The name column of both live batting tables: the longest name over both sides plus 5. */
  function LiveBattingNameWidth(s: Snapshot, awayIds: seq<int>, homeIds: seq<int>): (w: nat)
    ensures forall i :: 0 <= i < |LiveBattingNames(s, awayIds)| ==> |LiveBattingNames(s, awayIds)[i]| + 5 <= w
    ensures forall i :: 0 <= i < |LiveBattingNames(s, homeIds)| ==> |LiveBattingNames(s, homeIds)[i]| + 5 <= w
    ensures var a, h := LiveBattingNames(s, awayIds), LiveBattingNames(s, homeIds);
      && (|a| == 0 && |h| == 0 ==> w == 5)
      && (|a| + |h| > 0 ==>
            || (exists i :: 0 <= i < |a| && |a[i]| + 5 == w)
            || (exists i :: 0 <= i < |h| && |h[i]| + 5 == w))
  {
    MaxLenOfTwoAttained(LiveBattingNames(s, awayIds), LiveBattingNames(s, homeIds));
    Max(MaxLen(LiveBattingNames(s, awayIds)), MaxLen(LiveBattingNames(s, homeIds))) + 5
  }

  /** `buildLiveBattingStatsTables`: one table per side, away first, both with the same columns. */
  method BuildLiveBattingStatsTables(s: Snapshot) returns (t: HomeAway<GameStatsTable>)
    ensures fresh(t.home) && fresh(t.away) && t.home != t.away
    ensures var awayIds, homeIds := s.game.awayBox.batters.GetOr([]), s.game.homeBox.batters.GetOr([]);
      var columns := LiveBattingColumns(LiveBattingNameWidth(s, awayIds, homeIds));
      t.away.columns == columns && t.home.columns == columns
      && t.away.rows == LiveBattingRows(s, awayIds) && t.home.rows == LiveBattingRows(s, homeIds)
  {
    var awayIds, homeIds := s.game.awayBox.batters.GetOr([]), s.game.homeBox.batters.GetOr([]);
    var awayRows, width := MapStatsRows(s, awayIds, 0);
    var homeRows, width' := MapStatsRows(s, homeIds, width);
    var w := LiveBattingNameWidth(s, awayIds, homeIds);
    assert w == width' + 5;
    t := TablePair(LiveBattingColumns(w), homeRows, awayRows);
  }

  /** A pitcher's line: name, the pitching note when there is one, and the game summary. */
  function PitcherLine(e: PlayerEntry): (r: string)
    ensures |r| > 0
  {
    var note := Field(Pitching(e.boxscore.stats), "note");
    Show(e.profile.boxscoreName) + (if Truthy(note) then " " + Show(note) else "") + " (" + GamePitchingSummary(e.boxscore) + ")"
  }

  /** The lines of the registered pitchers, in order; the line of an unregistered pitcher is
      undefined and filtered out, and a registered pitcher's line is never empty. */
  function PitchingLines(s: Snapshot, ids: seq<int>): seq<string>
    decreases |ids|
  {
    if |ids| == 0 then []
    else
      var id := ids[|ids| - 1];
      PitchingLines(s, ids[..|ids| - 1]) + (if id in s.players then [PitcherLine(s.players[id])] else [])
  }

  /** The registered pitchers, in order: the ones whose line survives the filter. */
  function RegisteredIds(s: Snapshot, ids: seq<int>): (r: seq<int>)
    ensures forall x :: x in r <==> x in ids && x in s.players
    ensures |r| <= |ids|
    decreases |ids|
  {
    if |ids| == 0 then []
    else
      var init := ids[..|ids| - 1];
      assert ids == init + [ids[|ids| - 1]];
      RegisteredIds(s, init) + (if ids[|ids| - 1] in s.players then [ids[|ids| - 1]] else [])
  }

  /** One line for each registered pitcher, in order; unregistered pitchers get none. */
  lemma {:induction false} PitchingLinesMatch(s: Snapshot, ids: seq<int>)
    ensures var f := RegisteredIds(s, ids);
      |PitchingLines(s, ids)| == |f|
      && forall i :: 0 <= i < |f| ==> f[i] in s.players && PitchingLines(s, ids)[i] == PitcherLine(s.players[f[i]])
    decreases |ids|
  {
    if |ids| > 0 {
      PitchingLinesMatch(s, ids[..|ids| - 1]);
    }
  }

  /** When every pitcher is registered there is one line per pitcher, in order. */
  lemma {:induction false} PitchingLinesAllRegistered(s: Snapshot, ids: seq<int>)
    requires forall i :: 0 <= i < |ids| ==> ids[i] in s.players
    ensures |PitchingLines(s, ids)| == |ids|
    ensures forall i :: 0 <= i < |ids| ==> PitchingLines(s, ids)[i] == PitcherLine(s.players[ids[i]])
    decreases |ids|
  {
    if |ids| > 0 {
      var init := ids[..|ids| - 1];
      assert forall i :: 0 <= i < |init| ==> init[i] == ids[i];
      PitchingLinesAllRegistered(s, init);
    }
  }

  function LivePitchingSummary(s: Snapshot): HomeAway<string>
  {
    HomeAway(Join(PitchingLines(s, s.game.homeBox.pitchers.GetOr([])), "\n"),
             Join(PitchingLines(s, s.game.awayBox.pitchers.GetOr([])), "\n"))
  }

  /** `buildLivePitchingStatsTables` is unfinished in the source: two empty tables. */
  method BuildLivePitchingStatsTables() returns (t: HomeAway<GameStatsTable>)
    ensures fresh(t.home) && fresh(t.away)
    ensures t.home.columns == [] && t.home.rows == [] && t.away.columns == [] && t.away.rows == []
  {
    var home := new GameStatsTable();
    var away := new GameStatsTable();
    t := HomeAway(home, away);
  }

  /** A section title: first character kept, the rest lower-cased. */
  function TitleCase(t: string): (r: string)
    ensures |r| == |t|
    ensures |t| > 0 ==> r[0] == t[0]
    ensures forall k :: 1 <= k < |t| ==> r[k] == LowerChar(t[k])
  {
    if |t| == 0 then "" else [t[0]] + ToLower(t[1..])
  }

  /** Title-casing twice changes nothing more. */
  lemma TitleCaseIdempotent(t: string)
    ensures TitleCase(TitleCase(t)) == TitleCase(t)
  {
    var r := TitleCase(t);
    forall k | 1 <= k < |t|
      ensures LowerChar(r[k]) == r[k]
    {
      var c := t[k];
      if 'A' <= c <= 'Z' {
        assert r[k] == (c as int + 32) as char;
      }
    }
  }

  datatype InfoBlock = InfoBlock(title: string, body: string)

  function FieldLine(f: LabelValue): string
  {
    Bold(Show(Or(f.caption, Str("")))) + ": " + Show(f.value)
  }

  /** `mapTeamBoxscoreInfoRow`. */
  function InfoRow(sec: InfoSection): (r: InfoBlock)
    ensures r.title == TitleCase(StrOrEmpty(sec.title))
  {
    var fields := sec.fieldList.GetOr([]);
    InfoBlock(TitleCase(StrOrEmpty(sec.title)), Join(seq(|fields|, i requires 0 <= i < |fields| => FieldLine(fields[i])), "\n"))
  }

  function InfoRows(box: TeamBox): (r: seq<InfoBlock>)
    ensures |r| == |box.info.GetOr([])|
  {
    var secs := box.info.GetOr([]);
    seq(|secs|, i requires 0 <= i < |secs| => InfoRow(secs[i]))
  }

  function TeamBoxscoreInfoSummary(s: Snapshot): HomeAway<seq<InfoBlock>>
  {
    HomeAway(InfoRows(s.game.homeBox), InfoRows(s.game.awayBox))
  }
}
