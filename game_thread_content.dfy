/** The summary embed of a game thread (src/services/game-thread-content.service.ts): its
    title, its status and score line, and the venue, weather, media and game info fields. */
module GameThreadContent {
  import opened Wrappers
  import opened Text
  import opened JsValue
  import opened GameFeed
  import opened GameInfo
  import DateUtils

  /** `${team?.name} (${team?.record?.wins}-${team?.record?.losses})`. */
  function NameRecord(t: Team): string
  {
    Show(t.name) + " (" + Show(t.wins) + "-" + Show(t.losses) + ")"
  }

  /** `getSummaryTitle`: the away team and its record, " @ ", then the home team and its record. */
  function SummaryTitle(s: Snapshot): (r: string)
    ensures var away := NameRecord(s.game.awayTeam);
      |r| > |away| + 3 && r[..|away|] == away && r[|away|..|away| + 3] == " @ "
      && r[|away| + 3..] == NameRecord(s.game.homeTeam)
  {
    var away, home := NameRecord(s.game.awayTeam), NameRecord(s.game.homeTeam);
    assert (away + " @ " + home)[..|away|] == away;
    assert (away + " @ " + home)[|away|..|away| + 3] == " @ ";
    assert (away + " @ " + home)[|away| + 3..] == home;
    away + " @ " + home
  }

  /** A team's runs as the feed reports them; anything but a number is undefined. */
  function Runs(score: Option<StatMap>): Option<int>
  {
    match Field(score, "runs")
    case Num(n) => Some(n)
    case _ => None
  }

  function ShowRuns(r: Option<int>): string
  {
    match r
    case None => "undefined"
    case Some(n) => IntToString(n)
  }

  /** `homeScore > awayScore`: false whenever either side is undefined. */
  predicate Ahead(a: Option<int>, b: Option<int>)
  {
    a.Some? && b.Some? && a.value > b.value
  }

  /** The score part of the description: two scores and a team name. */
  function ScoreText(first: Option<int>, second: Option<int>, teamName: string): string
  {
    " | " + Bold("Score:") + " " + ShowRuns(first) + "-" + ShowRuns(second) + " " + teamName
  }

  /** The score part as written: a tie names no team; otherwise the variable named `maxScore`
      is given the LOWER score and printed first, followed by the leading team's name. */
  function ScoreLineAsWritten(home: Option<int>, away: Option<int>, homeName: string, awayName: string): string
  {
    if home == away then ScoreText(away, home, "")
    else if Ahead(home, away) then ScoreText(away, home, homeName)
    else ScoreText(home, away, awayName)
  }

  /** The score part as intended: the higher score first, then the lower, then the leader. */
  function ScoreLine(home: Option<int>, away: Option<int>, homeName: string, awayName: string): (r: string)
    ensures home == away ==> r == ScoreText(home, away, "")
    ensures Ahead(home, away) ==> r == ScoreText(home, away, homeName)
    ensures Ahead(away, home) ==> r == ScoreText(away, home, awayName)
  {
    if home == away then ScoreText(away, home, "")
    else if Ahead(home, away) then ScoreText(home, away, homeName)
    else ScoreText(away, home, awayName)
  }

  /** With both scores known and different, the code as written prints the lower one first. */
  lemma ScoreLineAsWrittenLowerFirst(home: int, away: int, homeName: string, awayName: string)
    requires home != away
    ensures var leader := if home > away then homeName else awayName;
      ScoreLineAsWritten(Some(home), Some(away), homeName, awayName)
        == ScoreText(Some(if home < away then home else away), Some(if home < away then away else home), leader)
  {
  }

  /** ...while the intended line prints the higher one first; the two agree only on a tie. */
  lemma ScoreLineHigherFirst(home: int, away: int, homeName: string, awayName: string)
    requires home != away
    ensures var leader := if home > away then homeName else awayName;
      ScoreLine(Some(home), Some(away), homeName, awayName)
        == ScoreText(Some(if home < away then away else home), Some(if home < away then home else away), leader)
    ensures ScoreLine(Some(home), Some(away), homeName, awayName) != ScoreLineAsWritten(Some(home), Some(away), homeName, awayName)
  {
    var lo, hi := if home < away then home else away, if home < away then away else home;
    var leader := if home > away then homeName else awayName;
    var prefix := " | " + Bold("Score:") + " ";
    var high := IntToString(hi) + "-" + (IntToString(lo) + " " + leader);
    var low := IntToString(lo) + "-" + (IntToString(hi) + " " + leader);
    assert ScoreText(Some(hi), Some(lo), leader) == prefix + high;
    assert ScoreText(Some(lo), Some(hi), leader) == prefix + low;
    if prefix + high == prefix + low {
      DropPrefix(prefix, high, low);
      LeadingNumberDetermines(hi, lo, IntToString(lo) + " " + leader, IntToString(hi) + " " + leader);
      assert false;
    }
  }

  /** A number printed before a "-" can be read back, whatever follows. */
  lemma LeadingNumberDetermines(a: int, b: int, x: string, y: string)
    requires IntToString(a) + "-" + x == IntToString(b) + "-" + y
    ensures a == b
  {
    IntToStringChars(a);
    IntToStringChars(b);
    var ta, tb := IntToString(a), IntToString(b);
    if a < 0 && b < 0 {
      var na, nb := NatToString(-a), NatToString(-b);
      assert ta + "-" + x == "-" + (na + "-" + x);
      assert tb + "-" + y == "-" + (nb + "-" + y);
      DropPrefix("-", na + "-" + x, nb + "-" + y);
      assert forall k :: 0 <= k < |na| ==> na[k] != '-';
      assert forall k :: 0 <= k < |nb| ==> nb[k] != '-';
      SplitAtSeparator(na, x, nb, y, '-');
      NatToStringInjective(-a, -b);
    } else if a >= 0 && b >= 0 {
      assert forall k :: 0 <= k < |ta| ==> ta[k] != '-';
      assert forall k :: 0 <= k < |tb| ==> tb[k] != '-';
      SplitAtSeparator(ta, x, tb, y, '-');
      NatToStringInjective(a, b);
    } else {
      SameFirst(ta, x, tb, y);
      assert false;
    }
  }

  lemma SameFirst(p: string, x: string, r: string, y: string)
    requires |p| > 0 && |r| > 0 && p + "-" + x == r + "-" + y
    ensures p[0] == r[0]
  {
    assert (p + "-" + x)[0] == p[0] && (r + "-" + y)[0] == r[0];
  }

  /** With the home side ahead 3-2 the code as written shows "2-3". */
  lemma ScoreLineCounterexample()
    ensures ScoreLineAsWritten(Some(3), Some(2), "Cubs", "Reds") == ScoreText(Some(2), Some(3), "Cubs")
    ensures ScoreLine(Some(3), Some(2), "Cubs", "Reds") == ScoreText(Some(3), Some(2), "Cubs")
  {
  }

  /** `${bold("Game Status:")} ${detailedState}`. */
  function StatusText(s: Snapshot): string
  {
    Bold("Game Status:") + " " + Show(s.game.status.detailedState)
  }

  /** ` (${inningState} ${inningOrdinal})`. */
  function InningText(s: Snapshot): string
  {
    " (" + Show(s.game.linescore.inningState) + " " + Show(s.game.linescore.currentInningOrdinal) + ")"
  }

  function CurrentScoreLine(s: Snapshot): string
  {
    ScoreLine(Runs(s.game.linescore.home), Runs(s.game.linescore.away),
              Show(OfStr(s.game.homeTeam.teamName)), Show(OfStr(s.game.awayTeam.teamName)))
  }

  /** `getSummaryDescription`: the status; unless the game is in preview, the inning when it is
      live and then the score. Whether the game is in preview or live is given. */
  method SummaryDescription(s: Snapshot, isPreview: bool, isLive: bool) returns (description: string)
    ensures isPreview ==> description == StatusText(s)
    ensures !isPreview && isLive ==> description == StatusText(s) + InningText(s) + CurrentScoreLine(s)
    ensures !isPreview && !isLive ==> description == StatusText(s) + CurrentScoreLine(s)
  {
    description := StatusText(s);
    if !isPreview {
      if isLive {
        description := description + InningText(s);
      }
      description := description + CurrentScoreLine(s);
    }
  }

  /** `${n % 60}` in JavaScript, whose remainder takes the sign of the dividend. */
  function JsRem60(n: int): (r: int)
    ensures n >= 0 ==> r == n % 60
    ensures -60 < r < 60
  {
    if n >= 0 then n % 60 else -((-n) % 60)
  }

  /** The game length `h:mm`: `Math.floor(duration / 60)`, then the remainder padded to two
      digits. An undefined duration gives "NaN:NaN" and a null one "0:00". */
  function GameLength(duration: Val): (r: string)
    ensures duration.Undefined? ==> r == "NaN:NaN"
  {
    match duration
    case Num(n) => IntToString(n / 60) + ":" + DateUtils.Pad2(JsRem60(n))
    case Null => "0:00"
    case _ => "NaN:NaN"
  }

  /** A non-negative duration is written as hours, ":" and exactly two digits of minutes below
      60, and reading them back gives the duration. */
  lemma GameLengthRoundTrip(n: nat)
    ensures var t := GameLength(Num(n));
      |t| >= 4 && t[|t| - 3] == ':' && AllDigits(t[..|t| - 3]) && AllDigits(t[|t| - 2..])
      && ParseNat(t[|t| - 2..]) < 60 && 60 * ParseNat(t[..|t| - 3]) + ParseNat(t[|t| - 2..]) == n
  {
    var q, r := n / 60, n % 60;
    assert 60 * q + r == n;
    var h, m := NatToString(q), DateUtils.Pad2(r);
    DateUtils.Pad2Digits(r);
    ParseNatToString(q);
    assert JsRem60(n) == r;
    var t := h + ":" + m;
    assert GameLength(Num(n)) == t;
    assert |t| == |h| + 3 && t[|t| - 3] == ':';
    assert t[..|t| - 3] == h;
    assert t[|t| - 2..] == m;
    assert 60 * ParseNat(h) + ParseNat(m) == 60 * q + r;
  }

  /** A field of the embed. */
  datatype EmbedField = EmbedField(name: string, value: string, inline: bool)

  /** One media item of a media group. */
  datatype MediaItem = MediaItem(mediaFeedType: Val, kind: Val, callLetters: Val)

  /** A media group (`title` such as "MLBTV" or "Audio") and its items. */
  datatype MediaGroup = MediaGroup(title: Val, items: Option<seq<MediaItem>>)

  /** `media.find(med => med.title == title)`. */
  function FindGroup(media: seq<MediaGroup>, title: string): (r: Option<MediaGroup>)
    ensures r.Some? ==> r.value in media && r.value.title == Str(title)
    ensures r.None? ==> forall i :: 0 <= i < |media| ==> media[i].title != Str(title)
    decreases |media|
  {
    if |media| == 0 then None
    else if media[0].title == Str(title) then Some(media[0])
    else FindGroup(media[1..], title)
  }

  /** `find` returns the first group with the title. */
  lemma {:induction false} FindGroupFirst(media: seq<MediaGroup>, title: string, i: nat)
    requires i < |media| && media[i].title == Str(title)
    requires forall j :: 0 <= j < i ==> media[j].title != Str(title)
    ensures FindGroup(media, title) == Some(media[i])
    decreases |media|
  {
    if i > 0 {
      FindGroupFirst(media[1..], title, i - 1);
    }
  }

  /** `(find(...) || {})?.items || []`. */
  function GroupItems(media: seq<MediaGroup>, title: string): seq<MediaItem>
  {
    match FindGroup(media, title)
    case None => []
    case Some(g) => g.items.GetOr([])
  }

  /** The bold label of a feed: the home or away team, "National:", or nothing. */
  function FeedLabel(feedType: Val, homeName: string, awayName: string): (r: string)
    ensures feedType == Str("HOME") ==> r == Bold(homeName + ":")
    ensures feedType == Str("AWAY") ==> r == Bold(awayName + ":")
    ensures feedType == Str("NATIONAL") ==> r == Bold("National:")
    ensures feedType != Str("HOME") && feedType != Str("AWAY") && feedType != Str("NATIONAL") ==> r == ""
  {
    if feedType == Str("HOME") then Bold(homeName + ":")
    else if feedType == Str("AWAY") then Bold(awayName + ":")
    else if feedType == Str("NATIONAL") then Bold("National:")
    else ""
  }

  /** TV feeds are labelled by `mediaFeedType`, radio feeds by `type`. */
  function FeedLine(item: MediaItem, tv: bool, homeName: string, awayName: string): string
  {
    FeedLabel(if tv then item.mediaFeedType else item.kind, homeName, awayName) + " " + Show(item.callLetters)
  }

  function FeedLines(items: seq<MediaItem>, tv: bool, homeName: string, awayName: string): (r: seq<string>)
    ensures |r| == |items|
    ensures forall i :: 0 <= i < |items| ==> r[i] == FeedLine(items[i], tv, homeName, awayName)
  {
    seq(|items|, i requires 0 <= i < |items| => FeedLine(items[i], tv, homeName, awayName))
  }

  /** A listing: "None" without feeds, one line per feed otherwise. */
  function Listing(items: seq<MediaItem>, tv: bool, homeName: string, awayName: string): (r: string)
    ensures |items| == 0 ==> r == "None"
    ensures |items| == 1 ==> r == FeedLine(items[0], tv, homeName, awayName)
  {
    if |items| == 0 then "None" else Join(FeedLines(items, tv, homeName, awayName), "\n")
  }

  predicate NoNewline(t: string)
  {
    forall k :: 0 <= k < |t| ==> t[k] != '\n'
  }

  predicate OneLineFeed(item: MediaItem, homeName: string, awayName: string)
  {
    NoNewline(homeName) && NoNewline(awayName) && NoNewline(Show(item.callLetters))
  }

  /** A feed line stays on one line when the names and call letters do. */
  lemma FeedLineOneLine(item: MediaItem, tv: bool, homeName: string, awayName: string)
    requires OneLineFeed(item, homeName, awayName)
    ensures NoNewline(FeedLine(item, tv, homeName, awayName))
  {
  }

  /** With no newline in the team names or call letters, a listing has exactly one line per
      feed. */
  lemma ListingLineCount(items: seq<MediaItem>, tv: bool, homeName: string, awayName: string)
    requires |items| > 0
    requires forall i :: 0 <= i < |items| ==> OneLineFeed(items[i], homeName, awayName)
    ensures Count(Listing(items, tv, homeName, awayName), '\n') == |items| - 1
  {
    var lines := FeedLines(items, tv, homeName, awayName);
    forall i | 0 <= i < |lines|
      ensures Count(lines[i], '\n') == 0
    {
      FeedLineOneLine(items[i], tv, homeName, awayName);
      CountZero(lines[i], '\n');
    }
    JoinSeparatorCount(lines, '\n');
  }

  const Blank := "\U{200B}"

  /** The weather fields, present only when the weather object has keys. */
  function WeatherFields(weather: StatMap): (r: seq<EmbedField>)
    ensures !HasKeys(weather) ==> r == []
    ensures HasKeys(weather) ==> |r| == 2 && r[0].name == "Weather" && r[1].name == "Wind" && r[0].inline && r[1].inline
  {
    if !HasKeys(weather) then []
    else
      [EmbedField("Weather", Show(Field(Some(weather), "temp")) + "\U{00B0} F, " + Show(Field(Some(weather), "condition")), true),
       EmbedField("Wind", Show(Field(Some(weather), "wind")), true)]
  }

  /** The TV and radio fields, present only when there are media groups. */
  function MediaFields(s: Snapshot, media: seq<MediaGroup>): (r: seq<EmbedField>)
    ensures |media| == 0 ==> r == []
    ensures |media| > 0 ==> |r| == 2 && r[0].name == "TV" && r[1].name == "Radio"
    ensures |media| > 0 && |GroupItems(media, "MLBTV")| == 0 ==> r[0].value == "None"
    ensures |media| > 0 && |GroupItems(media, "Audio")| == 0 ==> r[1].value == "None"
  {
    if |media| == 0 then []
    else
      var homeName, awayName := Show(OfStr(s.game.homeTeam.teamName)), Show(OfStr(s.game.awayTeam.teamName));
      [EmbedField("TV", Listing(GroupItems(media, "MLBTV"), true, homeName, awayName), true),
       EmbedField("Radio", Listing(GroupItems(media, "Audio"), false, homeName, awayName), true)]
  }

  /** The game info field, present only when the game info object has keys; the first pitch
      time is given already formatted. */
  function GameInfoFields(gameInfo: StatMap, firstPitch: string): (r: seq<EmbedField>)
    ensures !HasKeys(gameInfo) ==> r == []
    ensures HasKeys(gameInfo) ==> |r| == 1 && r[0].name == "Game Info" && !r[0].inline
  {
    if !HasKeys(gameInfo) then []
    else
      [EmbedField("Game Info",
        Bold("Attendance:") + " " + Show(Field(Some(gameInfo), "attendance")) + "\n"
        + Bold("First Pitch:") + " " + firstPitch + "\n"
        + Bold("Length:") + " " + GameLength(Field(Some(gameInfo), "gameDurationMinutes")), false)]
  }

  /** `addGameInfo`: the venue first and the blank spacer last, the optional weather, media
      and game info fields in between in that order. */
  method AddGameInfo(s: Snapshot, media: seq<MediaGroup>, firstPitch: string) returns (fields: seq<EmbedField>)
    ensures fields == [EmbedField("Venue", StrOrEmpty(s.game.venueName), false)] + WeatherFields(s.game.weather)
      + MediaFields(s, media) + GameInfoFields(s.game.gameInfo, firstPitch) + [EmbedField(Blank, Blank, false)]
    ensures |fields| == 2 + (if HasKeys(s.game.weather) then 2 else 0) + (if |media| > 0 then 2 else 0)
      + (if HasKeys(s.game.gameInfo) then 1 else 0)
  {
    fields := [EmbedField("Venue", StrOrEmpty(s.game.venueName), false)];
    fields := fields + WeatherFields(s.game.weather);
    fields := fields + MediaFields(s, media);
    fields := fields + GameInfoFields(s.game.gameInfo, firstPitch);
    fields := fields + [EmbedField(Blank, Blank, false)];
  }
}
