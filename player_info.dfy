/** One player of a game: the profile from the game data and the latest boxscore entry
    (src/models/player-info.model.ts). */
module Players {
  import opened Wrappers
  import opened Text
  import opened JsValue

  /** The profile fields the bot reads. */
  datatype Profile = Profile(id: Option<int>, fullName: Val, boxscoreName: Val)

  /** The key a profile is registered under: `profile.id || 0`. */
  function ProfileKey(p: Profile): (k: int)
    ensures p.id.Some? ==> k == p.id.value
    ensures p.id.None? ==> k == 0
  {
    IntOrZero(p.id)
  }

  /** The `batting` and `pitching` groups of a `stats` or `seasonStats` object. */
  datatype StatGroups = StatGroups(batting: Option<StatMap>, pitching: Option<StatMap>)

  /** A boxscore entry. `position` is `position?.abbreviation`, `allPositions` holds the
      abbreviation of every position played. */
  datatype Boxscore = Boxscore(
    personId: Option<int>,
    position: Val,
    battingOrder: Val,
    allPositions: Option<seq<Val>>,
    stats: Option<StatGroups>,
    seasonStats: Option<StatGroups>)

  /** The `{}` a fresh player starts with. */
  const EmptyBoxscore := Boxscore(None, Undefined, Undefined, None, None, None)

  /** `group?.batting`. */
  function Batting(g: Option<StatGroups>): Option<StatMap>
  {
    match g
    case None => None
    case Some(groups) => groups.batting
  }

  /** `group?.pitching`. */
  function Pitching(g: Option<StatGroups>): Option<StatMap>
  {
    match g
    case None => None
    case Some(groups) => groups.pitching
  }

  /** `getGameBattingSummary`: the game batting summary, or "" when there is none. */
  function GameBattingSummary(b: Boxscore): (r: string)
    ensures !Truthy(Field(Batting(b.stats), "summary")) ==> r == ""
    ensures Field(Batting(b.stats), "summary").Str? ==> r == Field(Batting(b.stats), "summary").s
  {
    Show(Or(Field(Batting(b.stats), "summary"), Str("")))
  }

  /** `getGamePitchingSummary`: the game pitching summary, or "" when there is none. */
  function GamePitchingSummary(b: Boxscore): (r: string)
    ensures !Truthy(Field(Pitching(b.stats), "summary")) ==> r == ""
    ensures Field(Pitching(b.stats), "summary").Str? ==> r == Field(Pitching(b.stats), "summary").s
  {
    Show(Or(Field(Pitching(b.stats), "summary"), Str("")))
  }

  /** `getSeasonBattingSummary`: `avg/obp/slg | hr HR, rbi RBI, k K`. */
  function SeasonBattingSummary(b: Boxscore): string
  {
    var s := Batting(b.seasonStats);
    Show(Field(s, "avg")) + "/" + Show(Field(s, "obp")) + "/" + Show(Field(s, "slg"))
      + " | " + Show(Field(s, "homeRuns")) + " HR, " + Show(Field(s, "rbi")) + " RBI, "
      + Show(Field(s, "strikeOuts")) + " K"
  }

  /** `W-L`, the record cell and the head of the season pitching summary. */
  function PitchingRecord(s: Option<StatMap>): string
  {
    Show(Field(s, "wins")) + "-" + Show(Field(s, "losses"))
  }

  /** `getSeasonPitchingSummary`: `W-L, era ERA, ip IP`. */
  function SeasonPitchingSummary(b: Boxscore): string
  {
    var s := Pitching(b.seasonStats);
    PitchingRecord(s) + ", " + Show(Field(s, "era")) + " ERA, " + Show(Field(s, "inningsPitched")) + " IP"
  }

  /** A record built from non-negative counts names both counts unambiguously: the "-" is the
      only dash, so wins and losses can be read back. */
  lemma PitchingRecordDetermines(s: Option<StatMap>, s': Option<StatMap>, w: nat, l: nat, w': nat, l': nat)
    requires Field(s, "wins") == Num(w) && Field(s, "losses") == Num(l)
    requires Field(s', "wins") == Num(w') && Field(s', "losses") == Num(l')
    requires PitchingRecord(s) == PitchingRecord(s')
    ensures w == w' && l == l'
  {
    IntToStringChars(w);
    IntToStringChars(w');
    SplitAtSeparator(IntToString(w), IntToString(l), IntToString(w'), IntToString(l'), '-');
    IntToStringInjective(w, w');
    IntToStringInjective(l, l');
  }

  /** A fresh player, whose boxscore is still `{}`, prints empty game summaries and
      "undefined" for every season figure. */
  lemma EmptyBoxscoreSummaries()
    ensures GameBattingSummary(EmptyBoxscore) == "" && GamePitchingSummary(EmptyBoxscore) == ""
    ensures var u := "undefined";
      SeasonPitchingSummary(EmptyBoxscore) == u + "-" + u + ", " + u + " ERA, " + u + " IP"
    ensures var u := "undefined";
      SeasonBattingSummary(EmptyBoxscore)
      == u + "/" + u + "/" + u + " | " + u + " HR, " + u + " RBI, " + u + " K"
  {
  }

  /** A registered player: a fixed profile and a boxscore that `setBoxscore` replaces. */
  class PlayerInfo {
    const profile: Profile
    var boxscore: Boxscore

    /** A new player starts with an empty boxscore, so it has no game or season stats. */
    constructor(profile: Profile)
      ensures this.profile == profile
      ensures boxscore == EmptyBoxscore
      ensures boxscore.stats.None? && boxscore.seasonStats.None?
    {
      this.profile := profile;
      boxscore := EmptyBoxscore;
    }

    /** Replaces the boxscore and hands back the same player for chaining. */
    method SetBoxscore(b: Boxscore) returns (self: PlayerInfo)
      modifies this
      ensures boxscore == b
      ensures self == this
    {
      boxscore := b;
      self := this;
    }
  }
}
