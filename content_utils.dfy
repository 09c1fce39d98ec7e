/** Link and icon URLs for the chat embeds, and the team colour table
    (src/utils/content.utils.ts). */
module ContentUtils {
  import opened Text

  const IconBase := "https://midfield.mlbstatic.com/v1/"

  /** `content.icon.getMatchupIcon(homeTeamId, awayTeamId, size)`. */
  function MatchupIcon(homeTeamId: int, awayTeamId: int, size: int): string
  {
    IconBase + "teams-matchup/" + IntToString(awayTeamId) + "-" + IntToString(homeTeamId)
      + "/ar_1:1/w_" + IntToString(size)
  }

  /** The four "spots" icons share one shape: a kind, the id, then the size. */
  function SpotsIcon(kind: string, id: int, size: int): string
  {
    IconBase + kind + "/" + IntToString(id) + "/spots/" + IntToString(size)
  }

  function SportIcon(id: int, size: int): string { SpotsIcon("sport", id, size) }
  function LeagueIcon(id: int, size: int): string { SpotsIcon("league", id, size) }
  function TeamIcon(id: int, size: int): string { SpotsIcon("team", id, size) }
  function PlayerIcon(id: int, size: int): string { SpotsIcon("people", id, size) }

  /** `content.link.getMLBGameDayLink`: note the closing slash. */
  function GameDayLink(gamePk: int): string
  {
    "https://www.mlb.com/gameday/" + IntToString(gamePk) + "/"
  }

  function PlayerProfileLink(playerId: int): string
  {
    "https://www.mlb.com/player/" + IntToString(playerId)
  }

  function HighlightVideoLink(slug: string): string
  {
    "https://www.mlb.com/video/" + slug
  }

  lemma NoSlash(i: int)
    ensures forall k :: 0 <= k < |IntToString(i)| ==> IntToString(i)[k] != '/'
  {
    IntToStringChars(i);
  }

  lemma NoMinus(n: int)
    requires n >= 0
    ensures forall k :: 0 <= k < |IntToString(n)| ==> IntToString(n)[k] != '-'
  {
    IntToStringChars(n);
  }

  lemma MatchupIconShape(h: int, a: int, s: int)
    ensures MatchupIcon(h, a, s)
      == IconBase + "teams-matchup/" + IntToString(a) + ['-'] + (IntToString(h) + ['/'] + ("ar_1:1/w_" + IntToString(s)))
  {
    assert "/ar_1:1/w_" == ['/'] + "ar_1:1/w_";
  }

  /** The matchup icon names the away team first: for non-negative ids the URL determines
      the away id, the home id and the size, so swapping the teams gives another icon. */
  lemma {:induction false} MatchupIconDetermines(h: int, a: int, s: int, h': int, a': int, s': int)
    requires a >= 0 && a' >= 0
    requires MatchupIcon(h, a, s) == MatchupIcon(h', a', s')
    ensures a == a' && h == h' && s == s'
  {
    var p := IconBase + "teams-matchup/";
    var sfx := "ar_1:1/w_";
    var r := IntToString(h) + ['/'] + (sfx + IntToString(s));
    var r' := IntToString(h') + ['/'] + (sfx + IntToString(s'));
    MatchupIconShape(h, a, s);
    MatchupIconShape(h', a', s');
    NoMinus(a);
    NoMinus(a');
    PrefixedSplit(p, IntToString(a), r, IntToString(a'), r', '-');
    NoSlash(h);
    NoSlash(h');
    SplitAtSeparator(IntToString(h), sfx + IntToString(s), IntToString(h'), sfx + IntToString(s'), '/');
    DropPrefix(sfx, IntToString(s), IntToString(s'));
    IntToStringInjective(a, a');
    IntToStringInjective(h, h');
    IntToStringInjective(s, s');
  }

  lemma MatchupIconOrdered(home: int, away: int, size: int)
    requires home >= 0 && away >= 0 && home != away
    ensures MatchupIcon(home, away, size) != MatchupIcon(away, home, size)
  {
    if MatchupIcon(home, away, size) == MatchupIcon(away, home, size) {
      MatchupIconDetermines(home, away, size, away, home, size);
    }
  }

  lemma SpotsIconShape(kind: string, id: int, size: int)
    ensures SpotsIcon(kind, id, size) == (IconBase + kind + "/") + IntToString(id) + ['/'] + ("spots/" + IntToString(size))
  {
    var a := IconBase + kind + "/" + IntToString(id);
    var z := IntToString(size);
    assert "/spots/" == ['/'] + "spots/";
    assert SpotsIcon(kind, id, size) == a + "/spots/" + z;
    assert a + (['/'] + "spots/") + z == (a + ['/']) + ("spots/" + z);
  }

  /** A spots icon determines the id and the size it was built from. */
  lemma {:induction false} SpotsIconDetermines(kind: string, id: int, size: int, id': int, size': int)
    requires SpotsIcon(kind, id, size) == SpotsIcon(kind, id', size')
    ensures id == id' && size == size'
  {
    var p := IconBase + kind + "/";
    var sfx := "spots/";
    SpotsIconShape(kind, id, size);
    SpotsIconShape(kind, id', size');
    NoSlash(id);
    NoSlash(id');
    PrefixedSplit(p, IntToString(id), sfx + IntToString(size), IntToString(id'), sfx + IntToString(size'), '/');
    DropPrefix(sfx, IntToString(size), IntToString(size'));
    IntToStringInjective(id, id');
    IntToStringInjective(size, size');
  }

  /** The game-day link ends with a slash and determines the game it links to. */
  lemma {:induction false} GameDayLinkDetermines(pk: int, pk': int)
    ensures GameDayLink(pk)[|GameDayLink(pk)| - 1] == '/'
    ensures GameDayLink(pk) == GameDayLink(pk') ==> pk == pk'
  {
    if GameDayLink(pk) == GameDayLink(pk') {
      NoSlash(pk);
      NoSlash(pk');
      PrefixedSplit("https://www.mlb.com/gameday/", IntToString(pk), "", IntToString(pk'), "", '/');
      IntToStringInjective(pk, pk');
    }
  }

  lemma {:induction false} PlayerProfileLinkDetermines(id: int, id': int)
    requires PlayerProfileLink(id) == PlayerProfileLink(id')
    ensures id == id'
  {
    DropPrefix("https://www.mlb.com/player/", IntToString(id), IntToString(id'));
    IntToStringInjective(id, id');
  }

  /** The video link keeps the whole slug after a fixed prefix, so it determines the slug. */
  lemma HighlightVideoLinkDetermines(slug: string, slug': string)
    requires HighlightVideoLink(slug) == HighlightVideoLink(slug')
    ensures slug == slug'
  {
    DropPrefix("https://www.mlb.com/video/", slug, slug');
  }

  const DefaultColor := 0xD3D3D3

  /** Team id to embed colour; id 0 holds the default. */
  const TeamColors: map<int, int> := map[
    0 := 0xD3D3D3, 108 := 0xBA0021, 109 := 0xA71930, 110 := 0xDF4601, 111 := 0xBD3039,
    112 := 0x0E3386, 113 := 0xC6011F, 114 := 0x002B5C, 115 := 0x33006F, 116 := 0x0C2C56,
    117 := 0x002D62, 118 := 0x004687, 119 := 0x005A9C, 120 := 0xAB0003, 121 := 0x002D72,
    133 := 0x003831, 134 := 0xFDB827, 135 := 0x2F241D, 136 := 0x005C5C, 137 := 0xFD5B1E,
    138 := 0xC41E3A, 139 := 0x092C5C, 140 := 0x003278, 141 := 0x134A8E, 142 := 0x091F40,
    143 := 0xE81828, 144 := 0x13274F, 145 := 0xFFFFFF, 146 := 0x00A3E0, 147 := 0x132448,
    158 := 0x12284B
  ]

  /** `content.colors.getTeamColor`: an unknown id falls back to the entry under 0, and a
      falsy colour to the default. */
  function GetTeamColor(id: int): (c: int)
    ensures id in TeamColors ==> c == TeamColors[id]
    ensures id !in TeamColors ==> c == DefaultColor
    ensures c in TeamColors.Values
  {
    var key := if id in TeamColors then id else 0;
    var v := TeamColors[key];
    if v == 0 then DefaultColor else v
  }
}
