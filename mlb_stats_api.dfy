/** The request URLs of the stats API client (src/services/mlb-stats.api.ts). Only the URL is
    modelled; the HTTP request it is handed to is not. */
module MlbStatsApi {
  import opened Text
  import opened JsValue

  const BaseUrl := "https://statsapi.mlb.com/api"

  /** An options object as its own keys in insertion order (what `Object.keys` lists), each
      with its value. */
  type Options = seq<(string, Val)>

  /** `&key=value` for one option. */
  function QueryPair(option: (string, Val)): string
  {
    "&" + option.0 + "=" + Show(option.1)
  }

  /** `&key=value` for every option, in order. */
  function QueryPairs(options: Options): string
    decreases |options|
  {
    if |options| == 0 then ""
    else QueryPairs(options[..|options| - 1]) + QueryPair(options[|options| - 1])
  }

  lemma {:induction false} QueryPairsStartsWithAmpersand(options: Options)
    requires |options| > 0
    ensures |QueryPairs(options)| > 0 && QueryPairs(options)[0] == '&'
    decreases |options|
  {
    if |options| > 1 {
      QueryPairsStartsWithAmpersand(options[..|options| - 1]);
    }
  }

  /** One more option appends its `&key=value`. */
  lemma QueryPairsSnoc(options: Options, i: nat)
    requires i < |options|
    ensures QueryPairs(options[..i + 1]) == QueryPairs(options[..i]) + QueryPair(options[i])
  {
    assert options[..i + 1][..i] == options[..i];
  }

  /** The `Object.keys(options).forEach` loop both builders share: `&key=value` appended to
      the URL for every option, in order. */
  method AppendOptions(head: string, options: Options) returns (url: string)
    ensures url == head + QueryPairs(options)
  {
    url := head;
    for i := 0 to |options|
      invariant url == head + QueryPairs(options[..i])
    {
      QueryPairsSnoc(options, i);
      url := url + QueryPair(options[i]);
    }
    assert options[..|options|] == options;
  }

  /** `ids.join(",")` for numeric ids. */
  function CommaJoin(ids: seq<int>): string
  {
    Join(seq(|ids|, i requires 0 <= i < |ids| => IntToString(ids[i])), ",")
  }

  /** A comma-joined id list has one comma fewer than it has ids, so it splits back into them. */
  lemma CommaJoinCount(ids: seq<int>)
    ensures Count(CommaJoin(ids), ',') == if |ids| == 0 then 0 else |ids| - 1
  {
    var parts := seq(|ids|, i requires 0 <= i < |ids| => IntToString(ids[i]));
    forall i | 0 <= i < |parts|
      ensures Count(parts[i], ',') == 0
    {
      IntToStringChars(ids[i]);
      CountZero(parts[i], ',');
    }
    JoinSeparatorCount(parts, ',');
  }

  function LiveGamePath(gamePk: int): string
  {
    BaseUrl + "/v1.1/game/" + IntToString(gamePk) + "/feed/live"
  }

  lemma NoQuestionMark(gamePk: int)
    ensures forall k :: 0 <= k < |LiveGamePath(gamePk)| ==> LiveGamePath(gamePk)[k] != '?'
  {
    IntToStringChars(gamePk);
    var p := LiveGamePath(gamePk);
    assert p == BaseUrl + "/v1.1/game/" + IntToString(gamePk) + "/feed/live";
    forall k | 0 <= k < |p|
      ensures p[k] != '?'
    {
      var n1 := |BaseUrl + "/v1.1/game/"|;
      var n2 := n1 + |IntToString(gamePk)|;
      if k < n1 {
        assert p[k] == (BaseUrl + "/v1.1/game/")[k];
      } else if k < n2 {
        assert p[k] == IntToString(gamePk)[k - n1];
      } else {
        assert p[k] == "/feed/live"[k - n2];
      }
    }
  }

  /** `mlb.game.getLiveGameV1`: the feed path, then `?` and the options only when there are
      any, each as `&key=value`, so the query starts `?&`. */
  method LiveGameV1Url(gamePk: int, options: Options) returns (url: string)
    ensures |options| == 0 ==> url == LiveGamePath(gamePk) && forall k :: 0 <= k < |url| ==> url[k] != '?'
    ensures |options| > 0 ==> url == LiveGamePath(gamePk) + "?" + QueryPairs(options)
    ensures |options| > 0 ==> url[|LiveGamePath(gamePk)|..|LiveGamePath(gamePk)| + 2] == "?&"
  {
    url := LiveGamePath(gamePk);
    if |options| > 0 {
      url := AppendOptions(url + "?", options);
      QueryPairsStartsWithAmpersand(options);
    } else {
      NoQuestionMark(gamePk);
    }
  }

  /** `mlb.game.getContent`. */
  function ContentUrl(gamePk: int): string
  {
    BaseUrl + "/v1/game/" + IntToString(gamePk) + "/content"
  }

  lemma ContentUrlShape(gamePk: int)
    ensures ContentUrl(gamePk) == (BaseUrl + "/v1/game/") + IntToString(gamePk) + ['/'] + "content"
  {
    var a := BaseUrl + "/v1/game/" + IntToString(gamePk);
    assert "/content" == ['/'] + "content";
    assert ContentUrl(gamePk) == a + "/content";
  }

  /** Different games ask for different content URLs. */
  lemma {:induction false} ContentUrlDetermines(gamePk: int, gamePk': int)
    requires ContentUrl(gamePk) == ContentUrl(gamePk')
    ensures gamePk == gamePk'
  {
    var p := BaseUrl + "/v1/game/";
    ContentUrlShape(gamePk);
    ContentUrlShape(gamePk');
    IntToStringChars(gamePk);
    IntToStringChars(gamePk');
    PrefixedSplit(p, IntToString(gamePk), "content", IntToString(gamePk'), "content", '/');
    IntToStringInjective(gamePk, gamePk');
  }

  /** The four settings of the hydrate parameter asking for hitting lines against one
      pitcher. */
  function HydrateSettings(opposingPlayerId: int): seq<string>
  {
    ["group=[hitting]", "type=[vsPlayer]", "opposingPlayerId=" + IntToString(opposingPlayerId), "sportId=1"]
  }

  /** `stats(group=[hitting],type=[vsPlayer],opposingPlayerId=<id>,sportId=1)`. */
  function VsPlayerHydration(opposingPlayerId: int): string
  {
    "stats(" + Join(HydrateSettings(opposingPlayerId), [',']) + ")"
  }

  /** `mlb.people.getPersonStatsAgainst`. */
  function PersonStatsAgainstUrl(personIds: seq<int>, opposingPlayerId: int): string
  {
    BaseUrl + "/v1/people/" + "?personIds=" + CommaJoin(personIds) + "&hydrate=" + VsPlayerHydration(opposingPlayerId)
  }

  /** A text with none of the character `c` counts zero of it. */
  lemma NoneOf(s: string, c: char)
    requires forall k :: 0 <= k < |s| ==> s[k] != c
    ensures Count(s, c) == 0
  {
    CountZero(s, c);
  }

  /** Counting over four consecutive pieces. */
  lemma CountConcat4(a: string, b: string, c: string, d: string, ch: char)
    ensures Count(a + b + c + d, ch) == Count(a, ch) + Count(b, ch) + Count(c, ch) + Count(d, ch)
  {
    CountConcat(a, b, ch);
    CountConcat(a + b, c, ch);
    CountConcat(a + b + c, d, ch);
  }

  /** The hydrate parameter separates its four settings with three commas. */
  lemma VsPlayerHydrationCommas(opposingPlayerId: int)
    ensures Count(VsPlayerHydration(opposingPlayerId), ',') == 3
  {
    var settings := HydrateSettings(opposingPlayerId);
    var opp := IntToString(opposingPlayerId);
    IntToStringChars(opposingPlayerId);
    CountConcat("opposingPlayerId=", opp, ',');
    NoneOf("opposingPlayerId=", ',');
    NoneOf(opp, ',');
    NoneOf(settings[0], ',');
    NoneOf(settings[1], ',');
    NoneOf(settings[3], ',');
    JoinSeparatorCount(settings, ',');
    CountConcat("stats(", Join(settings, [',']), ',');
    CountConcat("stats(" + Join(settings, [',']), ")", ',');
    NoneOf("stats(", ',');
    NoneOf(")", ',');
  }

  lemma PeopleHeadCommas()
    ensures Count(BaseUrl + "/v1/people/" + "?personIds=", ',') == 0
  {
    NoneOf(BaseUrl + "/v1/people/" + "?personIds=", ',');
  }

  /** Besides the three commas of the hydrate parameter, the only commas in the URL are the
      separators between the batters' ids. */
  lemma PersonStatsAgainstUrlCommas(personIds: seq<int>, opposingPlayerId: int)
    ensures Count(PersonStatsAgainstUrl(personIds, opposingPlayerId), ',')
      == 3 + (if |personIds| == 0 then 0 else |personIds| - 1)
  {
    var head := BaseUrl + "/v1/people/" + "?personIds=";
    var ids, hydrate, hy := CommaJoin(personIds), "&hydrate=", VsPlayerHydration(opposingPlayerId);
    assert PersonStatsAgainstUrl(personIds, opposingPlayerId) == head + ids + hydrate + hy;
    CountConcat4(head, ids, hydrate, hy, ',');
    PeopleHeadCommas();
    NoneOf(hydrate, ',');
    VsPlayerHydrationCommas(opposingPlayerId);
    CommaJoinCount(personIds);
  }

  const SchedulePrefix := BaseUrl + "/v1/schedule?sportId=1"

  /** The `&gamePk=` part, present only for a non-empty list. */
  function GamePkParam(gamePks: seq<int>): string
  {
    if |gamePks| > 0 then "&gamePk=" + CommaJoin(gamePks) else ""
  }

  /** `mlb.schedule.getSchedule`: always `sportId=1` first, then the game ids when there are
      any, then every option in order. */
  method ScheduleUrl(gamePks: seq<int>, options: Options) returns (url: string)
    ensures url == SchedulePrefix + GamePkParam(gamePks) + QueryPairs(options)
    ensures url[..|SchedulePrefix|] == SchedulePrefix
    ensures |gamePks| == 0 ==> url == SchedulePrefix + QueryPairs(options)
  {
    url := SchedulePrefix;
    if |gamePks| > 0 {
      url := url + "&gamePk=" + CommaJoin(gamePks);
    }
    assert url == SchedulePrefix + GamePkParam(gamePks);
    url := AppendOptions(url, options);
  }

  /** `mlb.standings.getStandingsByDivision`. */
  function StandingsByDivisionUrl(leagueIds: seq<int>): string
  {
    BaseUrl + "/v1/standings?leagueId=" + CommaJoin(leagueIds) + "&standingsTypes=byDivision&hydrate=division"
  }

  /** The league ids are the only comma-separated part of the standings URL. */
  lemma StandingsByDivisionUrlCommas(leagueIds: seq<int>)
    ensures Count(StandingsByDivisionUrl(leagueIds), ',') == if |leagueIds| == 0 then 0 else |leagueIds| - 1
  {
    var head := BaseUrl + "/v1/standings?leagueId=";
    var tail := "&standingsTypes=byDivision&hydrate=division";
    CountConcat(head, CommaJoin(leagueIds), ',');
    CountConcat(head + CommaJoin(leagueIds), tail, ',');
    NoneOf(head, ',');
    NoneOf(tail, ',');
    CommaJoinCount(leagueIds);
  }
}
