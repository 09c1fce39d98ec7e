/** The older summary builder (src/services/stats-summary-builder.service.ts), which spells
    out the season pitching line itself instead of asking the player for it. */
module StatsSummaryBuilder {
  import opened Wrappers
  import opened Text
  import opened JsValue
  import opened Players
  import opened GameInfo
  import GameThreadStats

  /** `buildPitcherDescription`: the record, ERA and innings pitched written out inline. */
  function PitcherDescription(teamName: string, p: Option<PlayerEntry>): (r: string)
    ensures p.None? ==> r == Bold(teamName) + " - TBD"
  {
    match p
    case None => Bold(teamName) + " - TBD"
    case Some(e) =>
      var st := Pitching(e.boxscore.seasonStats);
      Bold(teamName) + " - " + Show(Or(e.profile.fullName, Str(""))) + " ("
        + Show(Field(st, "wins")) + "-" + Show(Field(st, "losses")) + ", " + Show(Field(st, "era")) + " ERA, "
        + Show(Field(st, "inningsPitched")) + " IP)"
  }

  /** `buildProbablePitchersSummary`: the away pitcher, then the home pitcher. */
  function ProbablePitchersSummary(s: Snapshot): string
  {
    Join([PitcherDescription(GameThreadStats.AwayTeamName(s), ProbableAway(s)),
          PitcherDescription(GameThreadStats.HomeTeamName(s), ProbableHome(s))], "\n")
  }

  lemma Regroup(head: string, w: string, l: string, era: string, ip: string)
    ensures head + w + "-" + l + ", " + era + " ERA, " + ip + " IP)"
         == head + (w + "-" + l + ", " + era + " ERA, " + ip + " IP") + ")"
  {
    assert " IP)" == " IP" + ")";
  }

  /** Both builders describe a probable pitcher identically. */
  lemma SameDescription(teamName: string, p: Option<PlayerEntry>)
    ensures PitcherDescription(teamName, p) == GameThreadStats.PitcherDescription(teamName, p)
  {
    if p.Some? {
      var st := Pitching(p.value.boxscore.seasonStats);
      Regroup(Bold(teamName) + " - " + Show(Or(p.value.profile.fullName, Str(""))) + " (",
              Show(Field(st, "wins")), Show(Field(st, "losses")), Show(Field(st, "era")), Show(Field(st, "inningsPitched")));
    }
  }

  /** The older builder's probable pitchers summary is the one the game thread posts. */
  lemma SameSummary(s: Snapshot)
    ensures ProbablePitchersSummary(s) == GameThreadStats.ProbablePitchersSummary(s)
  {
    SameDescription(GameThreadStats.AwayTeamName(s), ProbableAway(s));
    SameDescription(GameThreadStats.HomeTeamName(s), ProbableHome(s));
  }
}
