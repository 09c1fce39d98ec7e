/** The older table builder (src/services/stats-table-builder.service.ts). Its probable
    pitchers and starting lineup tables are the game thread's own; its live batting table
    reads the batting group and the positions without fallbacks. */
module StatsTableBuilder {
  import opened Wrappers
  import opened JsValue
  import opened Players
  import opened GameInfo
  import opened StatsTable
  import opened GameThreadStats

  /** `buildStatsRow` as written: `Object.keys` of a missing batting group and `map` over
      missing positions throw; a batter without stats gives the empty row. */
  function StatsRowAsWritten(s: Snapshot, id: int): (r: Result<Row>)
    ensures r.Ok? ==> id in s.players && Batting(s.players[id].boxscore.stats).Some?
  {
    if id !in s.players then Err("TypeError: Cannot convert undefined or null to object")
    else
      var e := s.players[id];
      match Batting(e.boxscore.stats)
      case None => Err("TypeError: Cannot convert undefined or null to object")
      case Some(stats) =>
        if !HasKeys(stats) then Ok([])
        else if e.boxscore.allPositions.None? then Err("TypeError: Cannot read properties of undefined (reading 'map')")
        else Ok(StatsRow(e))
  }

  /** `batters.map(mapStatsRows).filter(isNotEmpty)` as written: the first throw ends it. */
  function LiveBattingRowsAsWritten(s: Snapshot, ids: seq<int>): Result<seq<Row>>
    decreases |ids|
  {
    if |ids| == 0 then Ok([])
    else
      match LiveBattingRowsAsWritten(s, ids[..|ids| - 1])
      case Err(m) => Err(m)
      case Ok(rows) =>
        match StatsRowAsWritten(s, ids[|ids| - 1])
        case Err(m) => Err(m)
        case Ok(row) => Ok(rows + (if |row| > 0 then [row] else []))
  }

  /** A batter the older builder handles: registered, with a batting group, and with the
      positions listed whenever the group is not empty. */
  predicate Handled(s: Snapshot, id: int)
  {
    id in s.players && Batting(s.players[id].boxscore.stats).Some?
    && (HasBattingStats(s, id) ==> s.players[id].boxscore.allPositions.Some?)
  }

  /** The older builder succeeds exactly when every batter is handled, and then builds the
      game thread's rows. */
  lemma {:induction false} LiveBattingRowsAsWrittenAgrees(s: Snapshot, ids: seq<int>)
    ensures LiveBattingRowsAsWritten(s, ids).Ok? <==> forall i :: 0 <= i < |ids| ==> Handled(s, ids[i])
    ensures LiveBattingRowsAsWritten(s, ids).Ok? ==> LiveBattingRowsAsWritten(s, ids).value == LiveBattingRows(s, ids)
    decreases |ids|
  {
    if |ids| > 0 {
      var init, id := ids[..|ids| - 1], ids[|ids| - 1];
      LiveBattingRowsAsWrittenAgrees(s, init);
      assert forall i :: 0 <= i < |init| ==> init[i] == ids[i];
      if forall i :: 0 <= i < |ids| ==> Handled(s, ids[i]) {
        assert Handled(s, id);
      } else {
        var i :| 0 <= i < |ids| && !Handled(s, ids[i]);
        if i < |init| {
          assert !Handled(s, init[i]);
        } else {
          assert StatsRowAsWritten(s, id).Err?;
        }
      }
    }
  }

  /** A batter with batting stats but no positions listed breaks the older builder, while
      the game thread's table shows the batter's row. */
  lemma MissingPositionsThrow(s: Snapshot, id: int)
    requires id in s.players && HasBattingStats(s, id)
    requires s.players[id].boxscore.allPositions.None?
    ensures LiveBattingRowsAsWritten(s, [id]).Err?
    ensures LiveBattingRows(s, [id]) == [StatsRow(s.players[id])]
  {
    assert [id][..0] == [];
  }
}
