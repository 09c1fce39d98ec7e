/** The parts of the stats API's live game feed and schedule entry that the bot reads, with the
    `|| {}` / `|| []` defaults already applied where every read applies them. */
module GameFeed {
  import opened Wrappers
  import opened JsValue
  import opened Players

  /** A JSON object keyed by strings, as its entries in insertion order (the order `for...in`
      visits them). */
  type Obj<T> = seq<(string, T)>

  function KeySet<T>(o: Obj<T>): set<string>
  {
    set i | 0 <= i < |o| :: o[i].0
  }

  /** `o[k]`: the value stored under `k`, if any. */
  function Lookup<T>(o: Obj<T>, k: string): (r: Option<T>)
    ensures r.Some? <==> k in KeySet(o)
    decreases |o|
  {
    if |o| == 0 then None
    else if o[0].0 == k then Some(o[0].1)
    else
      assert KeySet(o) == {o[0].0} + KeySet(o[1..]) by {
        forall x | x in KeySet(o)
          ensures x in {o[0].0} + KeySet(o[1..])
        {
          var i :| 0 <= i < |o| && o[i].0 == x;
          if i > 0 {
            assert o[1..][i - 1].0 == x;
          }
        }
      }
      Lookup(o[1..], k)
  }

  /** The entries of `a` in order, each replaced by `b`'s value when `b` has the same key. */
  function Overridden<T>(a: Obj<T>, b: Obj<T>): (r: Obj<T>)
    ensures |r| == |a|
    ensures forall i :: 0 <= i < |a| ==> r[i].0 == a[i].0
  {
    seq(|a|, i requires 0 <= i < |a| => (a[i].0, Lookup(b, a[i].0).GetOr(a[i].1)))
  }

  /** The entries of `b` whose key `a` does not have, in order. */
  function Added<T>(a: Obj<T>, b: Obj<T>): Obj<T>
    decreases |b|
  {
    if |b| == 0 then []
    else (if b[0].0 in KeySet(a) then [] else [b[0]]) + Added(a, b[1..])
  }

  /** `{ ...a, ...b }`. */
  function Spread<T>(a: Obj<T>, b: Obj<T>): Obj<T>
  {
    Overridden(a, b) + Added(a, b)
  }

  lemma {:induction false} LookupConcat<T>(x: Obj<T>, y: Obj<T>, k: string)
    ensures Lookup(x + y, k) == if Lookup(x, k).Some? then Lookup(x, k) else Lookup(y, k)
    decreases |x|
  {
    if |x| > 0 {
      assert (x + y)[1..] == x[1..] + y;
      LookupConcat(x[1..], y, k);
    } else {
      assert x + y == y;
    }
  }

  lemma {:induction false} LookupOverridden<T>(a: Obj<T>, b: Obj<T>, k: string)
    ensures Lookup(Overridden(a, b), k)
      == if Lookup(a, k).None? then None else Some(Lookup(b, k).GetOr(Lookup(a, k).value))
    decreases |a|
  {
    if |a| > 0 {
      assert Overridden(a, b)[1..] == Overridden(a[1..], b);
      LookupOverridden(a[1..], b, k);
    }
  }

  lemma {:induction false} LookupAdded<T>(a: Obj<T>, b: Obj<T>, k: string)
    requires k !in KeySet(a)
    ensures Lookup(Added(a, b), k) == Lookup(b, k)
    decreases |b|
  {
    if |b| > 0 {
      LookupAdded(a, b[1..], k);
      var head := if b[0].0 in KeySet(a) then [] else [b[0]];
      LookupConcat(head, Added(a, b[1..]), k);
    }
  }

  /** In `{ ...a, ...b }` a key takes `b`'s value when `b` has it and `a`'s otherwise. */
  lemma SpreadLookup<T>(a: Obj<T>, b: Obj<T>, k: string)
    ensures Lookup(Spread(a, b), k) == if Lookup(b, k).Some? then Lookup(b, k) else Lookup(a, k)
  {
    LookupConcat(Overridden(a, b), Added(a, b), k);
    LookupOverridden(a, b, k);
    if Lookup(a, k).None? {
      LookupAdded(a, b, k);
    }
  }

  datatype Team = Team(id: Option<int>, name: Val, teamName: Option<string>, wins: Val, losses: Val)

  const NoTeam := Team(None, Undefined, None, Undefined, Undefined)

  datatype Status = Status(abstractGameState: Option<string>, detailedState: Val)

  /** `linescore`: the per-team line (runs, hits, errors, leftOnBase) and the inning. */
  datatype Linescore = Linescore(home: Option<StatMap>, away: Option<StatMap>, inningState: Val, currentInningOrdinal: Val)

  /** A play is passed through untouched. */
  type Play = StatMap

  datatype Plays = Plays(allPlays: Option<seq<Play>>, scoringPlays: Option<seq<int>>)

  /** A `{ label, value }` pair of the boxscore. */
  datatype LabelValue = LabelValue(caption: Val, value: Val)

  datatype InfoSection = InfoSection(title: Option<string>, fieldList: Option<seq<LabelValue>>)

  /** One side of `liveData.boxscore.teams`. */
  datatype TeamBox = TeamBox(
    battingOrder: Option<seq<int>>,
    batters: Option<seq<int>>,
    pitchers: Option<seq<int>>,
    players: Obj<Boxscore>,
    note: Option<seq<LabelValue>>,
    info: Option<seq<InfoSection>>)

  const NoTeamBox := TeamBox(None, None, None, [], None, None)

  /** The live feed of one game. */
  datatype Game = Game(
    gamePk: Option<int>,
    status: Status,
    homeTeam: Team,
    awayTeam: Team,
    probableHome: Option<int>,
    probableAway: Option<int>,
    players: Obj<Profile>,
    venueName: Option<string>,
    weather: StatMap,
    gameInfo: StatMap,
    plays: Plays,
    linescore: Linescore,
    homeBox: TeamBox,
    awayBox: TeamBox)

  /** What every getter reads before a feed has been loaded. */
  const NoGame := Game(None, Status(None, Undefined), NoTeam, NoTeam, None, None, [], None, map[], map[],
                       Plays(None, None), Linescore(None, None, Undefined, Undefined), NoTeamBox, NoTeamBox)

  /** `broadcast.homeAway`; the source indexes its feed table with it, so other values are
      outside the model. */
  datatype Side = Home | Away

  datatype Broadcast = Broadcast(name: string, kind: string, homeAway: Side, isNational: bool)

  /** The first game of a schedule response. */
  datatype ScheduleGame = ScheduleGame(broadcasts: Option<seq<Broadcast>>)

  /** One hitting line of the splits response: `p.stats`, each entry with its type's display name
      and the `stat` of each split. */
  datatype StatEntry = StatEntry(displayName: Option<string>, splits: seq<StatMap>)

  datatype PersonSplits = PersonSplits(id: int, stats: Option<seq<StatEntry>>)
}
