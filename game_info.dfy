/** The game snapshot store (src/services/game-info.service.ts): the latest feed, a registry of
    the game's players, the batter-versus-probable-pitcher caches and the broadcast table. The
    stats API and `fetch` are not called: their responses are inputs, `None` for a failed call. */
module GameInfo {
  import opened Wrappers
  import opened Text
  import opened JsValue
  import opened Players
  import opened GameFeed
  import opened MlbStatsApi

  /** The broadcast names of one medium, by market. */
  datatype Feeds = Feeds(home: seq<string>, away: seq<string>, national: seq<string>)

  datatype BroadcastInfo = BroadcastInfo(tv: Feeds, radio: Feeds)

  const NoFeeds := Feeds([], [], [])

  const NoBroadcasts := BroadcastInfo(NoFeeds, NoFeeds)

  datatype Market = HomeMarket | AwayMarket | National

  datatype Medium = Tv | Radio

  /** "national" for a national broadcast, its own side otherwise. */
  function MarketOf(b: Broadcast): (m: Market)
    ensures b.isNational <==> m == National
    ensures !b.isNational && b.homeAway == Home ==> m == HomeMarket
    ensures !b.isNational && b.homeAway == Away ==> m == AwayMarket
  {
    if b.isNational then National else if b.homeAway == Home then HomeMarket else AwayMarket
  }

  /** AM and FM stations are radio, TV is television; other types are carried nowhere. */
  predicate CarriedOn(b: Broadcast, medium: Medium)
  {
    if medium == Radio then b.kind == "AM" || b.kind == "FM" else b.kind == "TV"
  }

  /** The names of the broadcasts of one medium and market, in input order. */
  function Routed(bs: seq<Broadcast>, medium: Medium, m: Market): seq<string>
    decreases |bs|
  {
    if |bs| == 0 then []
    else
      var last := bs[|bs| - 1];
      Routed(bs[..|bs| - 1], medium, m) + (if CarriedOn(last, medium) && MarketOf(last) == m then [last.name] else [])
  }

  function FeedsOf(bs: seq<Broadcast>, medium: Medium): Feeds
  {
    Feeds(Routed(bs, medium, HomeMarket), Routed(bs, medium, AwayMarket), Routed(bs, medium, National))
  }

  /** The table `parseBroadcasts` builds. */
  function Classified(bs: seq<Broadcast>): BroadcastInfo
  {
    BroadcastInfo(FeedsOf(bs, Tv), FeedsOf(bs, Radio))
  }

  /** A name is listed under a medium and market exactly when some broadcast of that name is
      carried on that medium in that market. */
  lemma {:induction false} RoutedMembership(bs: seq<Broadcast>, medium: Medium, m: Market, name: string)
    ensures name in Routed(bs, medium, m)
      <==> exists i :: 0 <= i < |bs| && bs[i].name == name && CarriedOn(bs[i], medium) && MarketOf(bs[i]) == m
    decreases |bs|
  {
    if |bs| > 0 {
      var init := bs[..|bs| - 1];
      RoutedMembership(init, medium, m, name);
      assert forall i :: 0 <= i < |init| ==> init[i] == bs[i];
      if exists i :: 0 <= i < |bs| && bs[i].name == name && CarriedOn(bs[i], medium) && MarketOf(bs[i]) == m {
        var i :| 0 <= i < |bs| && bs[i].name == name && CarriedOn(bs[i], medium) && MarketOf(bs[i]) == m;
        if i < |init| {
          assert init[i] == bs[i];
        }
      }
    }
  }

  /** The number of broadcasts that are AM, FM or TV. */
  function CarriedCount(bs: seq<Broadcast>): nat
    decreases |bs|
  {
    if |bs| == 0 then 0
    else CarriedCount(bs[..|bs| - 1]) + (if CarriedOn(bs[|bs| - 1], Tv) || CarriedOn(bs[|bs| - 1], Radio) then 1 else 0)
  }

  function FeedsSize(f: Feeds): nat
  {
    |f.home| + |f.away| + |f.national|
  }

  /** Every AM, FM or TV broadcast lands in exactly one of the six lists; the rest are dropped. */
  lemma {:induction false} ClassifiedCount(bs: seq<Broadcast>)
    ensures FeedsSize(Classified(bs).tv) + FeedsSize(Classified(bs).radio) == CarriedCount(bs)
    decreases |bs|
  {
    if |bs| > 0 {
      ClassifiedCount(bs[..|bs| - 1]);
    }
  }

  /** A registered player as a value. */
  datatype PlayerEntry = PlayerEntry(profile: Profile, boxscore: Boxscore)

  /** Everything the presentation code reads from the store. */
  datatype Snapshot = Snapshot(
    game: Game,
    players: map<int, PlayerEntry>,
    homeSplits: map<int, StatMap>,
    awaySplits: map<int, StatMap>,
    broadcastInfo: Option<BroadcastInfo>)

  /** `gamePk`: the feed's game id, or 0 before a feed is loaded. */
  function GamePk(s: Snapshot): (pk: int)
    ensures s.game.gamePk.Some? ==> pk == s.game.gamePk.value
    ensures s.game.gamePk.None? ==> pk == 0
  {
    IntOrZero(s.game.gamePk)
  }

  predicate IsGameStatePreview(s: Snapshot)
  {
    s.game.status.abstractGameState == Some("Preview")
  }

  predicate IsGameStateLive(s: Snapshot)
  {
    s.game.status.abstractGameState == Some("Live")
  }

  predicate IsGameStateFinal(s: Snapshot)
  {
    s.game.status.abstractGameState == Some("Final")
  }

  /** The three state tests compare one field with three different words, so at most one
      holds. */
  lemma AtMostOneState(s: Snapshot)
    ensures !(IsGameStatePreview(s) && IsGameStateLive(s))
    ensures !(IsGameStatePreview(s) && IsGameStateFinal(s))
    ensures !(IsGameStateLive(s) && IsGameStateFinal(s))
  {
    assert "Preview" != "Live" by { assert "Preview"[0] != "Live"[0]; }
    assert "Preview" != "Final" by { assert "Preview"[0] != "Final"[0]; }
    assert "Live" != "Final" by { assert "Live"[0] != "Final"[0]; }
  }

  /** `getPlayerInfo`. */
  function PlayerAt(s: Snapshot, id: int): (r: Option<PlayerEntry>)
    ensures r.Some? <==> id in s.players
    ensures r.Some? ==> r.value == s.players[id]
  {
    if id in s.players then Some(s.players[id]) else None
  }

  /** `getProbablePitchers`: the registered players under the probable pitchers' ids (0 when
      an id is missing). */
  function ProbableHome(s: Snapshot): Option<PlayerEntry>
  {
    PlayerAt(s, IntOrZero(s.game.probableHome))
  }

  function ProbableAway(s: Snapshot): Option<PlayerEntry>
  {
    PlayerAt(s, IntOrZero(s.game.probableAway))
  }

  /** `getBatterStatsVsProbPitcher`: the home cache wins, the away cache is asked otherwise. */
  function BatterStatsVsProbPitcher(s: Snapshot, id: int): (r: Option<StatMap>)
    ensures id in s.homeSplits ==> r == Some(s.homeSplits[id])
    ensures id !in s.homeSplits && id in s.awaySplits ==> r == Some(s.awaySplits[id])
    ensures r.None? <==> id !in s.homeSplits && id !in s.awaySplits
  {
    if id in s.homeSplits then Some(s.homeSplits[id])
    else if id in s.awaySplits then Some(s.awaySplits[id])
    else None
  }

  /** `getBroadcasts`: the parsed table, or six empty lists before any parse. */
  function GetBroadcasts(s: Snapshot): (r: BroadcastInfo)
    ensures s.broadcastInfo.None? ==> r == NoBroadcasts
    ensures s.broadcastInfo.Some? ==> r == s.broadcastInfo.value
  {
    s.broadcastInfo.GetOr(NoBroadcasts)
  }

  /** `box?.battingOrder || []`. */
  function BattingOrder(box: TeamBox): seq<int>
  {
    box.battingOrder.GetOr([])
  }

  /** The home lineup's splits are fetched when the home lineup is out, the away probable
      pitcher is registered, and the home cache is still empty; the away side mirrors it. */
  predicate HomeSplitsDue(s: Snapshot)
  {
    |BattingOrder(s.game.homeBox)| > 0 && ProbableAway(s).Some? && |s.homeSplits| == 0
  }

  predicate AwaySplitsDue(s: Snapshot)
  {
    |BattingOrder(s.game.awayBox)| > 0 && ProbableHome(s).Some? && |s.awaySplits| == 0
  }

  /** A filled cache is never fetched again. */
  lemma FilledCacheNotRefetched(s: Snapshot)
    requires |s.homeSplits| > 0 || |s.awaySplits| > 0
    ensures |s.homeSplits| > 0 ==> !HomeSplitsDue(s)
    ensures |s.awaySplits| > 0 ==> !AwaySplitsDue(s)
  {
  }

  /** The first `vsPlayerTotal` entry, as `find` returns it. */
  function FindTotal(entries: seq<StatEntry>): (r: Option<StatEntry>)
    ensures r.Some? ==>
      exists i :: && 0 <= i < |entries| && entries[i] == r.value
                  && entries[i].displayName == Some("vsPlayerTotal")
                  && forall j :: 0 <= j < i ==> entries[j].displayName != Some("vsPlayerTotal")
    ensures r.None? ==> forall i :: 0 <= i < |entries| ==> entries[i].displayName != Some("vsPlayerTotal")
    decreases |entries|
  {
    if |entries| == 0 then None
    else if entries[0].displayName == Some("vsPlayerTotal") then Some(entries[0])
    else FindTotal(entries[1..])
  }

  /** `vsPlayerTotal?.splits?.at(0)?.stat || {}`. */
  function HittingLine(p: PersonSplits): StatMap
  {
    match FindTotal(p.stats.GetOr([]))
    case None => map[]
    case Some(total) => if |total.splits| > 0 then total.splits[0] else map[]
  }

  /** The cache a splits response fills: one hitting line per person, a later person with the
      same id replacing an earlier one; nothing at all for a failed request. */
  function SplitsTable(response: Option<seq<PersonSplits>>): map<int, StatMap>
  {
    match response
    case None => map[]
    case Some(people) => SplitsOf(people)
  }

  function SplitsOf(people: seq<PersonSplits>): map<int, StatMap>
    decreases |people|
  {
    if |people| == 0 then map[]
    else SplitsOf(people[..|people| - 1])[people[|people| - 1].id := HittingLine(people[|people| - 1])]
  }

  function Ids(people: seq<PersonSplits>): set<int>
  {
    set i | 0 <= i < |people| :: people[i].id
  }

  /** The cache holds exactly the ids of the response. */
  lemma {:induction false} SplitsOfKeys(people: seq<PersonSplits>)
    ensures SplitsOf(people).Keys == Ids(people)
    decreases |people|
  {
    if |people| > 0 {
      var init := people[..|people| - 1];
      SplitsOfKeys(init);
      assert Ids(people) == Ids(init) + {people[|people| - 1].id} by {
        assert forall j :: 0 <= j < |init| ==> init[j] == people[j];
      }
    }
  }

  /** Each id carries the hitting line of the last person with that id. */
  lemma {:induction false} SplitsOfEntry(people: seq<PersonSplits>, i: nat)
    requires i < |people|
    requires forall j :: i < j < |people| ==> people[j].id != people[i].id
    ensures people[i].id in SplitsOf(people) && SplitsOf(people)[people[i].id] == HittingLine(people[i])
    decreases |people|
  {
    if i < |people| - 1 {
      var init := people[..|people| - 1];
      assert init[i] == people[i];
      SplitsOfEntry(init, i);
    }
  }

  /** A failed or empty response leaves the cache empty, so the next update asks again. */
  lemma FailedFetchKeepsCacheOpen(s: Snapshot)
    requires HomeSplitsDue(s)
    ensures |SplitsTable(None)| == 0 && |SplitsTable(Some([]))| == 0
    ensures HomeSplitsDue(s.(homeSplits := SplitsTable(None)))
  {
  }

  /** `allPlays?.at(i)`: a negative index counts from the end. */
  function PlayAt(allPlays: Option<seq<Play>>, i: int): (r: Option<Play>)
    ensures allPlays.None? ==> r.None?
    ensures allPlays.Some? && 0 <= i < |allPlays.value| ==> r == Some(allPlays.value[i])
    ensures allPlays.Some? && -|allPlays.value| <= i < 0 ==> r == Some(allPlays.value[|allPlays.value| + i])
    ensures allPlays.Some? && (i >= |allPlays.value| || i < -|allPlays.value|) ==> r.None?
  {
    match allPlays
    case None => None
    case Some(plays) =>
      var k := if i < 0 then |plays| + i else i;
      if 0 <= k < |plays| then Some(plays[k]) else None
  }

  /** The boxscore entry stored under a gameData key, or the empty one when there is none. */
  function BoxFor(boxes: Obj<Boxscore>, key: string): Boxscore
  {
    Lookup(boxes, key).GetOr(EmptyBoxscore)
  }

  /** `{ ...home.players, ...away.players }`. */
  function PlayerBoxes(g: Game): Obj<Boxscore>
  {
    Spread(g.homeBox.players, g.awayBox.players)
  }

  /** A key present on both sides takes the away team's boxscore. */
  lemma AwayBoxscoreWins(g: Game, key: string)
    ensures Lookup(g.awayBox.players, key).Some? ==> BoxFor(PlayerBoxes(g), key) == Lookup(g.awayBox.players, key).value
    ensures Lookup(g.awayBox.players, key).None? ==> BoxFor(PlayerBoxes(g), key) == BoxFor(g.homeBox.players, key)
  {
    SpreadLookup(g.homeBox.players, g.awayBox.players, key);
  }

  /** The registry after `parsePlayerInfo`: every gameData player, in order, under its
      profile id, with its boxscore. */
  function Registered(m: map<int, PlayerEntry>, players: Obj<Profile>, boxes: Obj<Boxscore>): map<int, PlayerEntry>
    decreases |players|
  {
    if |players| == 0 then m
    else
      var last := players[|players| - 1];
      Registered(m, players[..|players| - 1], boxes)[ProfileKey(last.1) := PlayerEntry(last.1, BoxFor(boxes, last.0))]
  }

  function ProfileKeys(players: Obj<Profile>): set<int>
  {
    set i | 0 <= i < |players| :: ProfileKey(players[i].1)
  }

  /** Parsing adds one key per distinct profile id and keeps every key already there. */
  lemma {:induction false} RegisteredKeys(m: map<int, PlayerEntry>, players: Obj<Profile>, boxes: Obj<Boxscore>)
    ensures Registered(m, players, boxes).Keys == m.Keys + ProfileKeys(players)
    decreases |players|
  {
    if |players| > 0 {
      var init := players[..|players| - 1];
      RegisteredKeys(m, init, boxes);
      assert ProfileKeys(players) == ProfileKeys(init) + {ProfileKey(players[|players| - 1].1)} by {
        assert forall j :: 0 <= j < |init| ==> init[j] == players[j];
      }
    }
  }

  /** A player is registered with its own profile and boxscore unless a later player has the
      same id, in which case the later one wins. */
  lemma {:induction false} RegisteredEntry(m: map<int, PlayerEntry>, players: Obj<Profile>, boxes: Obj<Boxscore>, i: nat)
    requires i < |players|
    requires forall j :: i < j < |players| ==> ProfileKey(players[j].1) != ProfileKey(players[i].1)
    ensures ProfileKey(players[i].1) in Registered(m, players, boxes)
      && Registered(m, players, boxes)[ProfileKey(players[i].1)] == PlayerEntry(players[i].1, BoxFor(boxes, players[i].0))
    decreases |players|
  {
    if i < |players| - 1 {
      var init := players[..|players| - 1];
      assert init[i] == players[i];
      RegisteredEntry(m, init, boxes, i);
    }
  }

  /** The registry after `updatePlayerBoxscores`: each boxscore, in order, replaces the
      boxscore of the registered player with its person id (0 when missing); ids that are not
      registered are skipped. */
  function BoxesApplied(m: map<int, PlayerEntry>, boxes: Obj<Boxscore>): map<int, PlayerEntry>
    decreases |boxes|
  {
    if |boxes| == 0 then m
    else
      var prev := BoxesApplied(m, boxes[..|boxes| - 1]);
      var b := boxes[|boxes| - 1].1;
      var id := IntOrZero(b.personId);
      if id in prev then prev[id := PlayerEntry(prev[id].profile, b)] else prev
  }

  /** An update neither adds nor removes players, and no profile changes. */
  lemma {:induction false} BoxesAppliedKeepsPlayers(m: map<int, PlayerEntry>, boxes: Obj<Boxscore>)
    ensures BoxesApplied(m, boxes).Keys == m.Keys
    ensures forall k :: k in m ==> BoxesApplied(m, boxes)[k].profile == m[k].profile
    decreases |boxes|
  {
    if |boxes| > 0 {
      BoxesAppliedKeepsPlayers(m, boxes[..|boxes| - 1]);
    }
  }

  /** A registered player ends with the last boxscore carrying its person id. */
  lemma {:induction false} BoxesAppliedLastWins(m: map<int, PlayerEntry>, boxes: Obj<Boxscore>, i: nat)
    requires i < |boxes|
    requires IntOrZero(boxes[i].1.personId) in m
    requires forall j :: i < j < |boxes| ==> IntOrZero(boxes[j].1.personId) != IntOrZero(boxes[i].1.personId)
    ensures IntOrZero(boxes[i].1.personId) in BoxesApplied(m, boxes)
      && BoxesApplied(m, boxes)[IntOrZero(boxes[i].1.personId)].boxscore == boxes[i].1
    decreases |boxes|
  {
    BoxesAppliedKeepsPlayers(m, boxes[..|boxes| - 1]);
    if i < |boxes| - 1 {
      var init := boxes[..|boxes| - 1];
      assert init[i] == boxes[i];
      BoxesAppliedLastWins(m, init, i);
    }
  }

  /** The store. */
  class GameInfoService {
    var gameObject: Option<Game>
    var scheduleObject: Option<ScheduleGame>
    var broadcastInfo: Option<BroadcastInfo>
    var registry: map<int, PlayerInfo>
    var homeSplits: map<int, StatMap>
    var awaySplits: map<int, StatMap>

    /** Each player is registered under its own profile id, and no player object is shared
        between two ids. */
    predicate Valid()
      reads this
    {
      (forall k :: k in registry ==> ProfileKey(registry[k].profile) == k)
      && (forall a, b :: a in registry && b in registry && a != b ==> registry[a] != registry[b])
    }

    function Entries(): map<int, PlayerEntry>
      reads this, registry.Values
    {
      map k | k in registry :: PlayerEntry(registry[k].profile, registry[k].boxscore)
    }

    function View(): Snapshot
      reads this, registry.Values
    {
      Snapshot(gameObject.GetOr(NoGame), Entries(), homeSplits, awaySplits, broadcastInfo)
    }

    /** A new store is empty: no feed, no players, empty caches and six empty broadcast lists. */
    constructor()
      ensures Valid()
      ensures gameObject.None? && scheduleObject.None? && broadcastInfo.None?
      ensures registry == map[] && homeSplits == map[] && awaySplits == map[]
      ensures GetBroadcasts(View()) == NoBroadcasts && GamePk(View()) == 0
    {
      gameObject := None;
      scheduleObject := None;
      broadcastInfo := None;
      registry := map[];
      homeSplits := map[];
      awaySplits := map[];
    }

    /** `parseBroadcasts`: replaces the broadcast table with the classification of `bs`. */
    method ParseBroadcasts(bs: seq<Broadcast>)
      modifies this
      ensures broadcastInfo == Some(Classified(bs))
      ensures Entries() == old(Entries())
      ensures gameObject == old(gameObject) && scheduleObject == old(scheduleObject)
      ensures registry == old(registry) && homeSplits == old(homeSplits) && awaySplits == old(awaySplits)
    {
      var info := NoBroadcasts;
      for i := 0 to |bs|
        invariant info == Classified(bs[..i])
      {
        var b := bs[i];
        assert bs[..i + 1][..i] == bs[..i];
        var market := if b.isNational then National else if b.homeAway == Home then HomeMarket else AwayMarket;
        if b.kind == "AM" || b.kind == "FM" {
          info := info.(radio := Pushed(info.radio, market, b.name));
        } else if b.kind == "TV" {
          info := info.(tv := Pushed(info.tv, market, b.name));
        }
      }
      assert bs[..|bs|] == bs;
      broadcastInfo := Some(info);
    }

    /** One step of `parsePlayerInfo`: a new player object for `profile`, holding `box`,
        replaces whatever was registered under its id. */
    method Register(profile: Profile, box: Boxscore)
      requires Valid()
      modifies this
      ensures Valid()
      ensures Entries() == old(Entries())[ProfileKey(profile) := PlayerEntry(profile, box)]
      ensures gameObject == old(gameObject) && scheduleObject == old(scheduleObject) && broadcastInfo == old(broadcastInfo)
      ensures homeSplits == old(homeSplits) && awaySplits == old(awaySplits)
    {
      var info := new PlayerInfo(profile);
      info := info.SetBoxscore(box);
      registry := registry[ProfileKey(profile) := info];
    }

    /** `parsePlayerInfo`: registers every gameData player of `g` under its profile id with a
        new player object holding its boxscore; players already registered under other ids
        stay. */
    method ParsePlayerInfo(g: Game)
      requires Valid()
      modifies this
      ensures Valid()
      ensures Entries() == Registered(old(Entries()), g.players, PlayerBoxes(g))
      ensures gameObject == old(gameObject) && scheduleObject == old(scheduleObject) && broadcastInfo == old(broadcastInfo)
      ensures homeSplits == old(homeSplits) && awaySplits == old(awaySplits)
    {
      var boxes := PlayerBoxes(g);
      for i := 0 to |g.players|
        invariant Valid()
        invariant Entries() == Registered(old(Entries()), g.players[..i], boxes)
        invariant gameObject == old(gameObject) && scheduleObject == old(scheduleObject) && broadcastInfo == old(broadcastInfo)
        invariant homeSplits == old(homeSplits) && awaySplits == old(awaySplits)
      {
        assert g.players[..i + 1][..i] == g.players[..i];
        var (key, profile) := g.players[i];
        Register(profile, BoxFor(boxes, key));
      }
      assert g.players[..|g.players|] == g.players;
    }

    /** `updatePlayerBoxscores`: hands each boxscore of `g` to the registered player with its
        person id. */
    method UpdatePlayerBoxscores(g: Game)
      requires Valid()
      modifies registry.Values
      ensures Valid()
      ensures registry == old(registry)
      ensures Entries() == BoxesApplied(old(Entries()), PlayerBoxes(g))
    {
      var boxes := PlayerBoxes(g);
      for i := 0 to |boxes|
        invariant Valid()
        invariant Entries() == BoxesApplied(old(Entries()), boxes[..i])
      {
        assert boxes[..i + 1][..i] == boxes[..i];
        var b := boxes[i].1;
        var id := IntOrZero(b.personId);
        if id in registry {
          var before := Entries();
          var player := registry[id];
          player := player.SetBoxscore(b);
          forall k | k in registry
            ensures Entries()[k] == before[id := PlayerEntry(before[id].profile, b)][k]
          {
            if k != id {
              assert registry[k] != registry[id];
            }
          }
          assert Entries() == before[id := PlayerEntry(before[id].profile, b)];
        }
      }
      assert boxes[..|boxes|] == boxes;
    }

    /** `loadBatterStatsVsProbPitcher`: the request URL for the lineup against one pitcher,
        and the cache its response fills (empty when the request fails). */
    method LoadBatterStatsVsProbPitcher(batterIds: seq<int>, pitcherId: int, response: Option<seq<PersonSplits>>)
      returns (url: string, stats: map<int, StatMap>)
      ensures url == PersonStatsAgainstUrl(batterIds, pitcherId)
      ensures stats == SplitsTable(response)
      ensures response.None? ==> stats == map[]
    {
      // The same hydrate text as the stats API client's.
      var hydration := VsPlayerHydration(pitcherId);
      url := "https://statsapi.mlb.com/api/v1/people/?personIds=" + CommaJoin(batterIds) + "&hydrate=" + hydration;
      PeopleUrlPrefix();
      stats := map[];
      if response.Some? {
        var people := response.value;
        for i := 0 to |people|
          invariant stats == SplitsOf(people[..i])
        {
          assert people[..i + 1][..i] == people[..i];
          stats := stats[people[i].id := HittingLine(people[i])];
        }
        assert people[..|people|] == people;
      }
    }

    /** `parsePlayerStatsVsProbPitcher`: fills each empty cache whose lineup and opposing
        probable pitcher are known, returning the request made for each side. */
    method ParsePlayerStatsVsProbPitcher(homeResponse: Option<seq<PersonSplits>>, awayResponse: Option<seq<PersonSplits>>)
      returns (homeRequest: Option<string>, awayRequest: Option<string>)
      requires Valid()
      modifies this
      ensures Valid()
      ensures gameObject == old(gameObject) && scheduleObject == old(scheduleObject) && broadcastInfo == old(broadcastInfo)
      ensures registry == old(registry) && Entries() == old(Entries())
      ensures homeRequest.Some? <==> old(HomeSplitsDue(View()))
      ensures old(HomeSplitsDue(View())) ==>
        homeSplits == SplitsTable(homeResponse)
        && homeRequest.value == PersonStatsAgainstUrl(BattingOrder(old(View()).game.homeBox), IntOrZero(old(View()).game.probableAway))
      ensures !old(HomeSplitsDue(View())) ==> homeSplits == old(homeSplits)
      ensures awayRequest.Some? <==> old(AwaySplitsDue(View()))
      ensures old(AwaySplitsDue(View())) ==>
        awaySplits == SplitsTable(awayResponse)
        && awayRequest.value == PersonStatsAgainstUrl(BattingOrder(old(View()).game.awayBox), IntOrZero(old(View()).game.probableHome))
      ensures !old(AwaySplitsDue(View())) ==> awaySplits == old(awaySplits)
    {
      homeRequest := FillHomeSplits(homeResponse);
      awayRequest := FillAwaySplits(awayResponse);
    }

    /** The home half of `parsePlayerStatsVsProbPitcher`. */
    method FillHomeSplits(response: Option<seq<PersonSplits>>) returns (request: Option<string>)
      requires Valid()
      modifies this
      ensures Valid()
      ensures gameObject == old(gameObject) && scheduleObject == old(scheduleObject) && broadcastInfo == old(broadcastInfo)
      ensures registry == old(registry) && awaySplits == old(awaySplits)
      ensures request.Some? <==> old(HomeSplitsDue(View()))
      ensures old(HomeSplitsDue(View())) ==>
        homeSplits == SplitsTable(response)
        && request.value == PersonStatsAgainstUrl(BattingOrder(old(View()).game.homeBox), IntOrZero(old(View()).game.probableAway))
      ensures !old(HomeSplitsDue(View())) ==> homeSplits == old(homeSplits)
    {
      var game := gameObject.GetOr(NoGame);
      var homeOrder := BattingOrder(game.homeBox);
      var awayKey := IntOrZero(game.probableAway);
      request := None;
      if |homeOrder| > 0 && awayKey in registry && |homeSplits| == 0 {
        var awayPitchId := ProfileKey(registry[awayKey].profile);
        var url, stats := LoadBatterStatsVsProbPitcher(homeOrder, awayPitchId, response);
        homeSplits := stats;
        request := Some(url);
      }
    }

    /** The away half of `parsePlayerStatsVsProbPitcher`. */
    method FillAwaySplits(response: Option<seq<PersonSplits>>) returns (request: Option<string>)
      requires Valid()
      modifies this
      ensures Valid()
      ensures gameObject == old(gameObject) && scheduleObject == old(scheduleObject) && broadcastInfo == old(broadcastInfo)
      ensures registry == old(registry) && homeSplits == old(homeSplits)
      ensures request.Some? <==> old(AwaySplitsDue(View()))
      ensures old(AwaySplitsDue(View())) ==>
        awaySplits == SplitsTable(response)
        && request.value == PersonStatsAgainstUrl(BattingOrder(old(View()).game.awayBox), IntOrZero(old(View()).game.probableHome))
      ensures !old(AwaySplitsDue(View())) ==> awaySplits == old(awaySplits)
    {
      var game := gameObject.GetOr(NoGame);
      var awayOrder := BattingOrder(game.awayBox);
      var homeKey := IntOrZero(game.probableHome);
      request := None;
      if |awayOrder| > 0 && homeKey in registry && |awaySplits| == 0 {
        var homePitchId := ProfileKey(registry[homeKey].profile);
        var url, stats := LoadBatterStatsVsProbPitcher(awayOrder, homePitchId, response);
        awaySplits := stats;
        request := Some(url);
      }
    }

    /** `getScoringPlays`: the play at each scoring index, `undefined` where there is none. */
    method GetScoringPlays() returns (plays: seq<Option<Play>>)
      ensures var p := gameObject.GetOr(NoGame).plays;
        |plays| == |p.scoringPlays.GetOr([])|
        && forall j :: 0 <= j < |plays| ==> plays[j] == PlayAt(p.allPlays, p.scoringPlays.GetOr([])[j])
    {
      var p := gameObject.GetOr(NoGame).plays;
      plays := [];
      if p.scoringPlays.Some? {
        var indices := p.scoringPlays.value;
        for i := 0 to |indices|
          invariant |plays| == i
          invariant forall j :: 0 <= j < i ==> plays[j] == PlayAt(p.allPlays, indices[j])
        {
          plays := plays + [PlayAt(p.allPlays, indices[i])];
        }
      }
    }

    /** `load`: stores the schedule entry and the feed, parses broadcasts and players, then
        fetches whichever splits caches are due. When any of the three fetches fails nothing
        changes. */
    method Load(fetched: Option<(Option<ScheduleGame>, Game)>,
                homeResponse: Option<seq<PersonSplits>>, awayResponse: Option<seq<PersonSplits>>)
      returns (homeRequest: Option<string>, awayRequest: Option<string>)
      requires Valid()
      modifies this
      ensures Valid()
      ensures fetched.None? ==>
        gameObject == old(gameObject) && scheduleObject == old(scheduleObject)
        && broadcastInfo == old(broadcastInfo) && registry == old(registry)
        && homeSplits == old(homeSplits) && awaySplits == old(awaySplits)
        && homeRequest.None? && awayRequest.None?
      ensures fetched.Some? ==> var (sched, g) := fetched.value;
        && gameObject == Some(g)
        && scheduleObject == Some(sched.GetOr(ScheduleGame(None)))
        && broadcastInfo == Some(Classified(sched.GetOr(ScheduleGame(None)).broadcasts.GetOr([])))
        && Entries() == Registered(old(Entries()), g.players, PlayerBoxes(g))
        && var mid := Snapshot(g, Entries(), old(homeSplits), old(awaySplits), broadcastInfo);
        && (homeRequest.Some? <==> HomeSplitsDue(mid))
        && (awayRequest.Some? <==> AwaySplitsDue(mid))
        && homeSplits == (if HomeSplitsDue(mid) then SplitsTable(homeResponse) else old(homeSplits))
        && awaySplits == (if AwaySplitsDue(mid) then SplitsTable(awayResponse) else old(awaySplits))
    {
      homeRequest, awayRequest := None, None;
      if fetched.Some? {
        var (sched, g) := fetched.value;
        ghost var before := Entries();
        scheduleObject := Some(sched.GetOr(ScheduleGame(None)));
        gameObject := Some(g);
        assert Entries() == before;
        ParseBroadcasts(sched.GetOr(ScheduleGame(None)).broadcasts.GetOr([]));
        ParsePlayerInfo(g);
        homeRequest, awayRequest := ParsePlayerStatsVsProbPitcher(homeResponse, awayResponse);
      }
    }

    /** `update`: replaces the feed, fetches whichever splits caches are still due, and hands
        the new boxscores to the players already registered. The registry never gains or loses
        a player. When a fetch fails nothing changes. */
    method Update(fetched: Option<Game>, homeResponse: Option<seq<PersonSplits>>, awayResponse: Option<seq<PersonSplits>>)
      returns (homeRequest: Option<string>, awayRequest: Option<string>)
      requires Valid()
      modifies this, registry.Values
      ensures Valid()
      ensures registry == old(registry)
      ensures scheduleObject == old(scheduleObject) && broadcastInfo == old(broadcastInfo)
      ensures fetched.None? ==>
        gameObject == old(gameObject) && Entries() == old(Entries())
        && homeSplits == old(homeSplits) && awaySplits == old(awaySplits)
        && homeRequest.None? && awayRequest.None?
      ensures fetched.Some? ==> var g := fetched.value;
        && gameObject == Some(g)
        && Entries() == BoxesApplied(old(Entries()), PlayerBoxes(g))
        && var mid := Snapshot(g, old(Entries()), old(homeSplits), old(awaySplits), broadcastInfo);
        && (homeRequest.Some? <==> HomeSplitsDue(mid))
        && (awayRequest.Some? <==> AwaySplitsDue(mid))
        && homeSplits == (if HomeSplitsDue(mid) then SplitsTable(homeResponse) else old(homeSplits))
        && awaySplits == (if AwaySplitsDue(mid) then SplitsTable(awayResponse) else old(awaySplits))
    {
      homeRequest, awayRequest := None, None;
      if fetched.Some? {
        var g := fetched.value;
        ghost var before := Entries();
        gameObject := Some(g);
        assert Entries() == before;
        homeRequest, awayRequest := ParsePlayerStatsVsProbPitcher(homeResponse, awayResponse);
        UpdatePlayerBoxscores(g);
      }
    }
  }

  /** The splits request spells out the API's base URL and people path in full. */
  lemma PeopleUrlPrefix()
    ensures BaseUrl + "/v1/people/" + "?personIds=" == "https://statsapi.mlb.com/api/v1/people/?personIds="
  {
  }

  /** `broadcastInfo.<medium>[market].push(name)`. */
  function Pushed(f: Feeds, m: Market, name: string): Feeds
  {
    match m
    case HomeMarket => f.(home := f.home + [name])
    case AwayMarket => f.(away := f.away + [name])
    case National => f.(national := f.national + [name])
  }
}
