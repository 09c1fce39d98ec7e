# MLB game thread bot: a verified model of its deterministic core

This project is a Dafny model of the logic that MLBGameThreadBot runs between fetching a game
from the MLB stats API and posting it to a Discord thread. It covers these parts:

- **The game snapshot store** (`GameInfo`, class `GameInfoService`).
  - It holds the latest live feed and the schedule entry.
  - It keeps a registry of players, each a `PlayerInfo` object whose boxscore is replaced on
    every update.
  - It keeps two caches of batter-versus-probable-pitcher hitting lines. Each cache is fetched
    only while it is empty, and only once the lineup and the opposing pitcher are known.
  - It classifies broadcasts into a TV/radio by home/away/national table.
  - `load` and `update` run these steps in order. Their fetches are inputs that may fail.
- **The fixed-width text table** (`StatsTable`, class `GameStatsTable`).
  - Rows are standardised to the column count.
  - The table renders as a header, a separator made of em dashes, and one padded line per row.
- **The presentation rules** that turn a snapshot into chat text and tables:
  - `GameThreadStats`: scoreboard, probable pitchers, starting lineups, live batting, live
    pitching and boxscore info.
  - `StatsTableBuilder` and `StatsSummaryBuilder`: the older builders.
  - `GameThreadContent`: the embed title, the description with the score line, and the
    venue/weather/media/game-info fields.
- **Small utilities**:
  - `MlbStatsApi`: the request URLs of the stats API client.
  - `ContentUtils`: icon and link URLs, and the team colour table.
  - `DateUtils`: the `YYYYMMDD_HHmmss` timecode.
  - `Players`: `PlayerInfo`.
  - `Standings`: the standings cache.

## How JavaScript values are modelled

`JsValue.Val` stands for the loosely typed (`any`) fields of API responses:

- `Undefined`, `Null`, `Num(int)` and `Str(string)`.
- `Show` gives the text a template literal prints for a value.
- `Or` is `||`, and `DefinedOr` is `!= undefined`.
- A JSON object with arbitrary keys is a `map<string, Val>`.
- An object whose key order matters (`for...in`, `{ ...a, ...b }`) is a sequence of entries
  (`GameFeed.Obj`).

Some source expressions throw a `TypeError`, such as `Object.keys(undefined)` or
`padStart` on a number. These are modelled as `Result` values in the as-written members listed
under "## Findings".

Presentation code reads the store through `GameInfo.Snapshot`, the value
`GameInfoService.View()` returns. A builder that creates table objects is a method that
returns fresh `GameStatsTable` objects. Everything else is a function.

## Model

| member | source | states |
|---|---|---|
| GameInfo.GameInfoService.constructor | src/services/game-info.service.ts:13-23 | a new store has no feed, no players, empty splits caches, `gamePk` 0 and six empty broadcast lists |
| GameInfo.GamePk | src/services/game-info.service.ts:25-27 | the game id is the feed's `gamePk` when there is one, and 0 when there is none |
| GameInfo.GameInfoService.Load | src/services/game-info.service.ts:29-48 | a failed fetch leaves the store unchanged; otherwise the schedule entry and feed are stored, broadcasts are classified, every gameData player is registered, and the due splits caches are filled |
| GameInfo.GameInfoService.Update | src/services/game-info.service.ts:50-63 | the registry keeps exactly the same ids; boxscores of registered players are replaced from the new feed; caches are filled only when due; schedule and broadcasts are untouched |
| GameInfo.AtMostOneState | src/services/game-info.service.ts:77-95 | Preview, Live and Final are tests of one field against three words, so no two hold together |
| GameInfo.BatterStatsVsProbPitcher | src/services/game-info.service.ts:128-133 | the home cache's entry when the id is there, otherwise the away cache's entry, and none exactly when neither cache has the id |
| GameInfo.PlayAt | src/services/game-info.service.ts:149 | `allPlays?.at(i)`: indexes from the front for i >= 0, from the back for negative i, and is undefined out of range or without plays |
| GameInfo.GameInfoService.GetScoringPlays | src/services/game-info.service.ts:143-153 | one result per scoring index, in order, each the play at that index or undefined |
| GameInfo.PlayerAt | src/services/game-info.service.ts:172-174 | a player is found exactly when the id is registered, and it is that registered player |
| GameInfo.GetBroadcasts | src/services/game-info.service.ts:176-182 | before any parse the result is six empty lists; afterwards it is the parsed table |
| GameInfo.MarketOf | src/services/game-info.service.ts:191-192 | a national broadcast goes to "national", any other to its own home/away side |
| GameInfo.RoutedMembership | src/services/game-info.service.ts:190-199 | a name is listed under a medium and market exactly when some broadcast with that name has that market and is AM/FM (radio) or TV (tv) |
| GameInfo.ClassifiedCount | src/services/game-info.service.ts:184-202 | every AM, FM or TV broadcast lands in exactly one of the six lists, and all other types are dropped |
| GameInfo.GameInfoService.ParseBroadcasts | src/services/game-info.service.ts:184-202 | the broadcast table becomes the classification of the input, built by appending in input order; nothing else changes |
| GameInfo.AwayBoxscoreWins | src/services/game-info.service.ts:205-210 | in the merged boxscores a key present for both teams takes the away team's entry |
| GameInfo.RegisteredKeys | src/services/game-info.service.ts:212-220 | parsing adds the profile id (0 when missing) of every gameData player and keeps every id already registered |
| GameInfo.RegisteredEntry | src/services/game-info.service.ts:213-219 | a player is registered with its own profile and the merged boxscore stored under its key, unless a later player has the same id |
| GameInfo.GameInfoService.ParsePlayerInfo | src/services/game-info.service.ts:204-221 | the registry after the loop is the registered map above, every player under its own profile id and no player object under two ids; caches and feed untouched |
| GameInfo.BoxesAppliedKeepsPlayers | src/services/game-info.service.ts:231-236 | applying boxscores neither adds nor removes ids and changes no profile |
| GameInfo.BoxesAppliedLastWins | src/services/game-info.service.ts:231-236 | a registered player ends with the last boxscore carrying its `person.id` |
| GameInfo.GameInfoService.UpdatePlayerBoxscores | src/services/game-info.service.ts:223-237 | the same player objects stay registered; their boxscores become the boxscores applied in `for...in` order |
| GameInfo.FilledCacheNotRefetched | src/services/game-info.service.ts:248-259 | a non-empty cache is never due to be fetched again |
| GameInfo.GameInfoService.ParsePlayerStatsVsProbPitcher | src/services/game-info.service.ts:239-260 | a side's splits request is made exactly when its lineup is non-empty, the opposing probable pitcher is registered and its cache is empty; the request names that lineup and pitcher; a side not due keeps its cache |
| GameInfo.FindTotal | src/services/game-info.service.ts:279 | the entry returned is a `vsPlayerTotal` entry with no such entry before it, and none is returned exactly when no entry has that type |
| GameInfo.SplitsOfKeys | src/services/game-info.service.ts:278-282 | the filled cache holds exactly the ids of the response |
| GameInfo.SplitsOfEntry | src/services/game-info.service.ts:278-282 | each id maps to the hitting line of the last person with that id, `{}` when it has no total |
| GameInfo.FailedFetchKeepsCacheOpen | src/services/game-info.service.ts:285-288 | a failed or empty response gives an empty cache, so the cache stays due and the next update asks again |
| GameInfo.GameInfoService.LoadBatterStatsVsProbPitcher | src/services/game-info.service.ts:268-289 | the URL is the people URL for the comma-joined batters and the pitcher; the result is the cache built from the response, empty on failure |
| GameInfo.PeopleUrlPrefix | src/services/game-info.service.ts:272 | the hand-written people URL has the same prefix as the stats API client's |
| StatsTable.GameStatsTable.constructor | src/models/game-stats-table.model.ts:2-7 | a new table has no columns and no rows |
| StatsTable.GameStatsTable.SetColumns | src/models/game-stats-table.model.ts:9-12 | replaces the column list wholesale, keeps the rows and returns the same table |
| StatsTable.GameStatsTable.SetRows | src/models/game-stats-table.model.ts:14-22 | stores one row per given row; an over-long row is cut to the column count and a short row is kept as given; returns the same table |
| StatsTable.Truncate | src/models/game-stats-table.model.ts:14-22 | what `setRows` keeps: an over-long row cut to the standardised prefix, any other row unchanged |
| StatsTable.SetRowsDoesNotPad | src/models/game-stats-table.model.ts:17-20 | a short row given to `setRows` stays shorter than the standardised row `addRow` would store |
| StatsTable.GameStatsTable.AddRow | src/models/game-stats-table.model.ts:24-27 | appends exactly one standardised row, as long as the column list, and leaves earlier rows unchanged |
| StatsTable.Standardize | src/models/game-stats-table.model.ts:63-72 | the row has exactly the column count: a prefix of a long row, or a short row followed by "" cells |
| StatsTable.ColumnAt | src/models/game-stats-table.model.ts:45 | `columns.at(i)`: the i-th column, or none past the end |
| StatsTable.Pad | src/models/game-stats-table.model.ts:35-53 | a padded cell is as wide as the larger of its text and its column; a right-aligned cell ends with the text and any other begins with it; no column means no padding |
| StatsTable.HeaderWidth | src/models/game-stats-table.model.ts:30-41 | with headings that fit their columns, the header is exactly as wide as the separator, which is the sum of the column widths |
| StatsTable.RowWidth | src/models/game-stats-table.model.ts:43-53 | a row with one fitting cell per column is exactly as wide as the separator |
| StatsTable.Lines | src/models/game-stats-table.model.ts:43-53 | one body line per row, in row order |
| StatsTable.RenderLineCount | src/models/game-stats-table.model.ts:29-56 | with single-line cells, the rendered text has a header line, a separator line and one line per row |
| StatsTable.RenderAsWrittenAgrees | src/models/game-stats-table.model.ts:43-53 | the renderer as written succeeds exactly when every cell is a string, and then gives the corrected rendering |
| StatsTable.NumericCellThrows | src/models/game-stats-table.model.ts:43-53 | a numeric cell, such as the scoreboard's run total, makes the renderer as written throw |
| Players.ProfileKey | src/services/game-info.service.ts:217 | a profile is registered under its id, or 0 when it has none |
| Players.PlayerInfo.constructor | src/models/player-info.model.ts:4-9 | a new player keeps its profile and starts with the empty boxscore, so it has no game or season stats |
| Players.PlayerInfo.SetBoxscore | src/models/player-info.model.ts:19-22 | the boxscore becomes the given one, the profile is unchanged and the same player is returned |
| Players.GameBattingSummary | src/models/player-info.model.ts:28-30 | the game batting summary string, or "" when it is missing |
| Players.GamePitchingSummary | src/models/player-info.model.ts:32-34 | the game pitching summary string, or "" when it is missing |
| Players.EmptyBoxscoreSummaries | src/models/player-info.model.ts:5-60 | a fresh player, whose boxscore is still `{}`, prints empty game summaries and "undefined" for every season figure |
| Players.PitchingRecordDetermines | src/models/player-info.model.ts:55 | the `W-L` record of non-negative counts determines both counts |
| Standings.DivisionKey | src/services/standings.service.ts:17 | a record is stored under its division id, or 0 when it has none |
| Standings.StoredKeepsOthers | src/services/standings.service.ts:7-20 | a load adds the divisions it was given and keeps every other division already stored |
| Standings.StoredLastWins | src/services/standings.service.ts:16-18 | a division ends with the last record carrying its id |
| Standings.StandingsService.constructor | src/services/standings.service.ts:7-11 | the map starts empty |
| Standings.StandingsService.LoadStandingsByDivision | src/services/standings.service.ts:13-20 | requests the standings URL for the leagues; a failed request changes nothing; otherwise each record is stored in order |
| MlbStatsApi.AppendOptions | src/services/mlb-stats.api.ts:46-48 | the options loop appends `&key=value` for every option, in insertion order, to the URL so far |
| MlbStatsApi.LiveGameV1Url | src/services/mlb-stats.api.ts:12-23 | without options the feed path holds no "?"; with options it is followed by "?" and "&key=value" per option in order, so the query starts "?&" |
| MlbStatsApi.QueryPairsStartsWithAmpersand | src/services/mlb-stats.api.ts:17-19 | a non-empty option list is written starting with "&" |
| MlbStatsApi.ContentUrlDetermines | src/services/mlb-stats.api.ts:25-28 | different games ask for different content URLs |
| MlbStatsApi.CommaJoinCount | src/services/mlb-stats.api.ts:35 | a comma-joined id list has one comma fewer than it has ids |
| MlbStatsApi.VsPlayerHydrationCommas | src/services/mlb-stats.api.ts:34 | the hydrate parameter holds four comma-separated settings |
| MlbStatsApi.PersonStatsAgainstUrlCommas | src/services/mlb-stats.api.ts:32-37 | besides the hydrate parameter's three commas, the URL's commas are exactly the separators between the batters' ids |
| MlbStatsApi.ScheduleUrl | src/services/mlb-stats.api.ts:41-51 | always starts with `sportId=1`; `&gamePk=` and the ids come next only for a non-empty list; then every option in order |
| MlbStatsApi.StandingsByDivisionUrlCommas | src/services/mlb-stats.api.ts:55-58 | the league ids are the only comma-separated part of the standings URL |
| ContentUtils.MatchupIconDetermines | src/utils/content.utils.ts:3-5 | for non-negative away ids the matchup icon URL determines the away id, the home id and the size |
| ContentUtils.MatchupIconOrdered | src/utils/content.utils.ts:3-5 | the away team comes first: swapping two different teams gives a different icon |
| ContentUtils.SpotsIconDetermines | src/utils/content.utils.ts:7-21 | each sport/league/team/player icon URL determines its id and size |
| ContentUtils.GameDayLinkDetermines | src/utils/content.utils.ts:25-27 | the game-day link ends with "/" and determines the game |
| ContentUtils.PlayerProfileLinkDetermines | src/utils/content.utils.ts:29-31 | the profile link determines the player |
| ContentUtils.HighlightVideoLinkDetermines | src/utils/content.utils.ts:33-35 | the video link determines the slug |
| ContentUtils.GetTeamColor | src/utils/content.utils.ts:39-42 | a known id gets its table colour, an unknown id the default 0xD3D3D3, and the result is always one of the table's colours |
| DateUtils.Pad2Digits | src/utils/date.utils.ts:28-32 | every field below 100 is written as exactly two digits that read back as the field |
| DateUtils.TimecodeRoundTrip | src/utils/date.utils.ts:26-34 | for a four-digit year the timecode has 15 characters with "_" at index 8, the month is written 1-based, and the timecode reads back into the same fields |
| GameThreadStats.NameColumnWidth | src/services/game-thread-stats.service.ts:32-37 | the team column is the longer team name plus 5 |
| GameThreadStats.ScoreboardSummary | src/services/game-thread-stats.service.ts:10-21 | the away line, a newline, then the home line |
| GameThreadStats.BuildScoreboardTable | src/services/game-thread-stats.service.ts:23-54 | a fresh table whose columns are the team and R/H/E/LOB columns and whose rows are the away line and then the home line |
| GameThreadStats.ScoreboardTableThrows | src/services/game-thread-stats.service.ts:38-53 | once the run total is a number, rendering the scoreboard table as written throws |
| GameThreadStats.PitcherDescription | src/services/game-thread-stats.service.ts:65-73 | "team - TBD" without a probable pitcher, otherwise "team - name (season pitching summary)" |
| GameThreadStats.ProbablePitchersSummary | src/services/game-thread-stats.service.ts:56-77 | the away pitcher's line, a newline, then the home pitcher's line |
| GameThreadStats.BuildProbablePitchersTable | src/services/game-thread-stats.service.ts:79-130 | a fresh table with the team and pitcher columns at their widths and the away row before the home row; the older builder (src/services/stats-table-builder.service.ts, lines 7-58) builds the same table |
| GameThreadStats.VsCount | src/services/game-thread-stats.service.ts:151-157 | a count prints "-" only when it is undefined or null, so 0 prints as 0 |
| GameThreadStats.LineupLine | src/services/game-thread-stats.service.ts:141-161 | the bracket with the hitting line is present exactly when the batter has a cached line with keys |
| GameThreadStats.LineupLineNumbered | src/services/game-thread-stats.service.ts:141-148 | the line of the batter at position i starts with the bold number i+1 |
| GameThreadStats.LineupLinesAt | src/services/game-thread-stats.service.ts:162 | one line per batter of the order, the i-th for the i-th batter |
| GameThreadStats.LineupText | src/services/game-thread-stats.service.ts:162-164 | "TBD" for an empty batting order, otherwise the numbered lines joined with newlines |
| GameThreadStats.LineupTableRow | src/services/game-thread-stats.service.ts:191-204 | seven cells, the first the numbered name |
| GameThreadStats.LineupTableRowCells | src/services/game-thread-stats.service.ts:191-204 | avg and ops fall back to "-" when falsy; the counts fall back to "-" only when undefined or null, so a count of 0 is kept |
| GameThreadStats.LineupTableRowsAt | src/services/game-thread-stats.service.ts:212-219 | one row per batter of the order, the i-th for the i-th batter |
| GameThreadStats.MapLineupRows | src/services/game-thread-stats.service.ts:191-210 | the loop builds the rows above and the running width becomes the longest name cell, or the starting width if larger |
| GameThreadStats.LineupNameWidth | src/services/game-thread-stats.service.ts:206-221 | the name column is at least 5 wider than every name cell of both lineups, and exactly 5 wider than the longest one (5 when both lineups are empty) |
| GameThreadStats.BuildStartingLineupTables | src/services/game-thread-stats.service.ts:169-232 | two distinct fresh tables sharing the lineup columns at the computed name width, holding the home and away rows; the older builder (src/services/stats-table-builder.service.ts, lines 60-123) builds the same tables |
| GameThreadStats.LineupSlotOfOrder | src/services/game-thread-stats.service.ts:256-257 | a `battingOrder` of 100*slot+sub gives the lineup slot exactly when sub is 0 |
| GameThreadStats.SummaryMarker | src/services/game-thread-stats.service.ts:256-257 | the bold slot number for a starter, "> " for a substitute |
| GameThreadStats.TableMarker | src/services/game-thread-stats.service.ts:310-311 | the slot number for a starter, "" for a substitute |
| GameThreadStats.WithBattingStats | src/services/game-thread-stats.service.ts:245-248 | exactly the batters whose game batting group has keys are kept |
| GameThreadStats.LiveBattingLinesMatch | src/services/game-thread-stats.service.ts:250-267 | one summary line per kept batter, in order |
| GameThreadStats.LiveBattingText | src/services/game-thread-stats.service.ts:265-271 | without notes the summary is exactly the batter lines joined with newlines |
| GameThreadStats.StatsRow | src/services/game-thread-stats.service.ts:301-331 | twelve cells, the first the slot marker and the second name and positions |
| GameThreadStats.LiveBattingRowsMatch | src/services/game-thread-stats.service.ts:333-342 | one table row per kept batter, in order |
| GameThreadStats.MapStatsRows | src/services/game-thread-stats.service.ts:333-337 | the loop builds the rows above and the running width becomes the longest name cell, or the starting width if larger |
| GameThreadStats.LiveBattingNameWidth | src/services/game-thread-stats.service.ts:345 | the name column is at least 5 wider than every name cell of both teams, and exactly 5 wider than the longest one (5 when neither team has a batter with stats) |
| GameThreadStats.BuildLiveBattingStatsTables | src/services/game-thread-stats.service.ts:276-351 | two distinct fresh tables with the batting columns at the computed width, holding the rows of the batters with stats |
| GameThreadStats.PitcherLine | src/services/game-thread-stats.service.ts:362-369 | a pitcher line is never empty |
| GameThreadStats.PitchingLinesAllRegistered | src/services/game-thread-stats.service.ts:353-378 | when every pitcher is registered there is one line per pitcher, in order |
| GameThreadStats.RegisteredIds | src/services/game-thread-stats.service.ts:363-376 | the pitchers whose lines survive `filter(isNotEmpty)`: an id is kept exactly when it is in the list and registered, in list order |
| GameThreadStats.PitchingLinesMatch | src/services/game-thread-stats.service.ts:363-376 | one summary line per registered pitcher, in order, each that pitcher's line; an unregistered pitcher gets no line |
| GameThreadStats.BuildLivePitchingStatsTables | src/services/game-thread-stats.service.ts:380-386 | two fresh empty tables |
| GameThreadStats.TitleCase | src/services/game-thread-stats.service.ts:396-397 | same length, first character kept, every later character lower-cased |
| GameThreadStats.TitleCaseIdempotent | src/services/game-thread-stats.service.ts:396-397 | title-casing twice is title-casing once |
| GameThreadStats.InfoRow | src/services/game-thread-stats.service.ts:392-403 | the block title is the title-cased section title |
| GameThreadStats.InfoRows | src/services/game-thread-stats.service.ts:405-408 | one block per info section |
| GameThreadStats.LineupTextAsWrittenAgrees | src/services/game-thread-stats.service.ts:132-167 | the lineup text as written succeeds exactly when every batter has a cached line, and then equals the corrected text |
| GameThreadStats.LineupSummaryThrowsBeforeSplits | src/services/game-thread-stats.service.ts:145-150 | before the caches are filled, a published lineup makes the summary as written throw |
| StatsTableBuilder.StatsRowAsWritten | src/services/stats-table-builder.service.ts:150-180 | a row is produced only for a registered batter with a batting group |
| StatsTableBuilder.LiveBattingRowsAsWrittenAgrees | src/services/stats-table-builder.service.ts:125-200 | the older live batting builder succeeds exactly when every batter is handled, and then gives the same rows as the corrected one |
| StatsTableBuilder.MissingPositionsThrow | src/services/stats-table-builder.service.ts:154-162 | a batter with stats but no `allPositions` makes the older builder throw |
| StatsSummaryBuilder.PitcherDescription | src/services/stats-summary-builder.service.ts:17-28 | "team - TBD" without a probable pitcher |
| StatsSummaryBuilder.SameDescription | src/services/stats-summary-builder.service.ts:17-28 | the older description is "team - name (W-L, era ERA, ip IP)", the same as the newer one |
| StatsSummaryBuilder.SameSummary | src/services/stats-summary-builder.service.ts:8-32 | the older summary is the away line, a newline and the home line, the same as the newer one |
| GameThreadContent.SummaryTitle | src/services/game-thread-content.service.ts:67-75 | the away name and record, " @ ", then the home name and record |
| GameThreadContent.SummaryDescription | src/services/game-thread-content.service.ts:77-118 | Preview shows only the status; Live adds the inning then the score; any other state adds only the score |
| GameThreadContent.ScoreLine | src/services/game-thread-content.service.ts:97-114 | a tie shows the score with no team; otherwise the leader's score, then the trailer's, then the leader's name |
| GameThreadContent.ScoreLineHigherFirst | src/services/game-thread-content.service.ts:97-114 | a non-tied score line starts with the higher score and names the leader, and differs from the line as written |
| GameThreadContent.ScoreLineAsWrittenLowerFirst | src/services/game-thread-content.service.ts:103-114 | as written, a non-tied score line starts with the lower score |
| GameThreadContent.ScoreLineCounterexample | src/services/game-thread-content.service.ts:103-114 | home 3, away 2 is written "2-3" as written and "3-2" corrected |
| GameThreadContent.LeadingNumberDetermines | src/services/game-thread-content.service.ts:114 | the number before the "-" of a score line determines that score |
| GameThreadContent.JsRem60 | src/services/game-thread-content.service.ts:192 | JavaScript's `% 60`: the Euclidean remainder for non-negative durations, always strictly between -60 and 60 |
| GameThreadContent.GameLength | src/services/game-thread-content.service.ts:191-192 | an undefined duration prints "NaN:NaN" |
| GameThreadContent.GameLengthRoundTrip | src/services/game-thread-content.service.ts:191-192 | a non-negative duration prints as hours, ":" and two digits of minutes below 60 that read back to the duration |
| GameThreadContent.FindGroup | src/services/game-thread-content.service.ts:143-145 | the found group has the title and comes from the list; none means no group has it |
| GameThreadContent.FindGroupFirst | src/services/game-thread-content.service.ts:162-164 | `find` returns the first group with the title |
| GameThreadContent.FeedLabel | src/services/game-thread-content.service.ts:147-156 | HOME gives the home team, AWAY the away team, NATIONAL "National:", anything else "" |
| GameThreadContent.FeedLines | src/services/game-thread-content.service.ts:147-158 | one line per feed, in order |
| GameThreadContent.Listing | src/services/game-thread-content.service.ts:142-146 | "None" when there are no feeds, the one line when there is one |
| GameThreadContent.ListingLineCount | src/services/game-thread-content.service.ts:161-179 | single-line feeds give a listing of exactly one line per feed |
| GameThreadContent.WeatherFields | src/services/game-thread-content.service.ts:127-134 | no fields for empty weather, otherwise the inline Weather and Wind fields |
| GameThreadContent.MediaFields | src/services/game-thread-content.service.ts:137-183 | no fields without media, otherwise TV then Radio, each "None" without feeds |
| GameThreadContent.GameInfoFields | src/services/game-thread-content.service.ts:185-198 | no field for an empty game-info object, otherwise one non-inline "Game Info" field |
| GameThreadContent.AddGameInfo | src/services/game-thread-content.service.ts:120-202 | venue, weather, media, game info and the blank field, in that order, with two weather and two media fields when present |

## Left out

- Network I/O is not modelled: the HTTP client, `fetch`, the `MLBStatsAPI` library calls and
  `Promise.all`. Each fetch is an input that is either missing (failed) or a parsed response.
  Concurrent requests are modelled as sequential assignment.
- The Discord client, embeds (`EmbedBuilder`), logging, cron and start-up code are not modelled.
  `bold` is a plain `**...**` wrapper, because only its text matters here.
- GameInfo.GameInfoService.Load: the library's own request parameters (`hydrate: "broadcasts"`,
  `timecode`) are not modelled, because those requests are inputs here.
- GameInfo.GameInfoService: `gameContentObject` and the getters built on it are not modelled.
  This includes `getHighlights`, whose sort makes Date objects but then compares the items
  themselves.
- `isGameStatusPreview`, `isGameStatusLive` and `getMedia` are not defined on the store. They
  are given as parameters of `SummaryDescription` and `AddGameInfo`.
- Players.PlayerInfo.SetBoxscore: a player with no boxscore entry receives `undefined` in the
  source (src/services/game-info.service.ts:213-219). Every later read of that player then
  throws a TypeError: `getGameStats` and `getSeasonStats` read `boxscore.stats` and
  `boxscore.seasonStats` without `?.` (src/models/player-info.model.ts:24-38), and the lineup
  summary reads `getBoxscore().position`. The model substitutes `EmptyBoxscore` (`BoxFor`), so
  the summaries print "" or "undefined" for that player instead of throwing.
- GameInfo.GameInfoService.ParseBroadcasts: `homeAway` is modelled as the two-valued `Side`.
  In the source, a non-national AM, FM or TV broadcast whose `homeAway` is neither "home" nor
  "away" makes `radio[market].push` throw a TypeError (src/services/game-info.service.ts:190-198).
  `load` then stops after storing the schedule and the feed and before registering players.
  Neither the throw nor that partial state is modelled.
- GameInfo.GameInfoService.LoadBatterStatsVsProbPitcher: every person in the response is
  modelled with an integer id. In the source, a `null` person makes `p.id` throw inside
  `forEach` (src/services/game-info.service.ts:281-285). The `catch` then returns the map filled
  so far, and a person without an id is stored under the key `undefined`. The model has
  neither the partially filled map nor the `undefined` key.
- GameThreadContent.ScoreLineAsWritten and GameThreadContent.ScoreLine: `Runs` reads any
  non-number run total as undefined, so it prints "undefined" and is never ahead. JavaScript
  compares `null` as 0 and prints it as "null", and compares a string total numerically
  against a number (src/services/game-thread-content.service.ts:90-112). For home 3 and away
  `null`, the source prints "null-3" and the home team. `ScoreLineAsWritten` prints
  "3-undefined" and the away team, and `ScoreLine`, which `SummaryDescription` uses, prints
  "undefined-3" and the away team. Only numeric or missing run totals are modelled faithfully.
- Numbers are integers only. Floating-point stats such as ERA and averages appear as strings
  or as `undefined`. A non-integral duration or score is not modelled.
- `parseInt` of `battingOrder` reads the leading digits only. Signs and leading whitespace are
  not modelled.
- String lengths are counted in characters, not UTF-16 code units. `toLowerCase` maps ASCII
  letters only.
- GameThreadContent.AddGameInfo: the first pitch time (`HHMM` of a `Date`) is a given string,
  because it depends on the locale and time zone. `MM_DD_YYYY` and `getThreadTitle` are not
  modelled for the same reason. Discord's rejection of an undefined field value is not
  modelled: an undefined wind is shown as "undefined".
- GameThreadStats.BuildStartingLineupTables and GameThreadStats.BuildLiveBattingStatsTables:
  the source shares one column array between the two tables and writes `columns[i].width` after
  building the rows. The model computes the width first and builds both tables with the same
  column values. It does not model aliasing between the two tables.
- StatsTable.GameStatsTable.SetRows: the source cuts an over-long row in the caller's own array
  (`splice`). The model stores the cut row but does not model that the caller's array changes.
- GameThreadContent.GameLength: a string-valued duration is not modelled; only numbers, `null`
  and `undefined` are.
- MlbStatsApi: the URL functions build strings only. Encoding of option values is not modelled.
- The play-by-play thread updates, the scheduler and the thread stub are not modelled: the
  source has no logic there.

## Findings

| source | as written | input that shows it | evidently intended | confidence | as-written member | corrected member |
|---|---|---|---|---|---|---|
| src/services/game-thread-stats.service.ts:145-150 | `Object.keys(vsPitcherStats)` runs even when the batter has no cached hitting line, and `Object.keys(undefined)` throws | a published home lineup while both splits caches are still empty, for example after a failed fetch | a batter without a cached line is listed without the bracket | not executed | GameThreadStats.LineupSummaryThrowsBeforeSplits | GameThreadStats.LineupText |
| src/models/game-stats-table.model.ts:43-53 | each cell is padded by calling `padStart`/`padEnd` on the value itself, which throws for a number | the scoreboard table, whose run, hit, error and LOB cells are numbers, for example away runs 3 | every cell is printed as its text and padded | not executed | GameThreadStats.ScoreboardTableThrows | StatsTable.RowWidth |
| src/services/stats-table-builder.service.ts:154-162 | the older live batting builder reads `allPositions.map` without a guard | a batter with batting stats whose boxscore has no `allPositions` | the name cell has no positions, as in the newer builder | not executed | StatsTableBuilder.MissingPositionsThrow | GameThreadStats.LiveBattingRowsMatch |
| src/services/game-thread-content.service.ts:97-114 | the variable named `maxScore` holds the lower score, so a non-tied line prints the lower score first | home 3, away 2 prints "2-3" followed by the home team's name | "3-2" followed by the leader's name | not executed | GameThreadContent.ScoreLineCounterexample | GameThreadContent.ScoreLineHigherFirst |

The rest of the model uses the corrected definitions:

- `LineupText` lists a batter without a cached line without the bracket.
- `Render` (`GameStatsTable.ToString`) prints every cell's text.
- `BuildLiveBattingStatsTables` uses the newer builder's rows.
- `SummaryDescription` uses `ScoreLine`.
