/** The standings cache (src/services/standings.service.ts): division records keyed by division
    id, filled from the stats API's by-division standings. */
module Standings {
  import opened Wrappers
  import opened JsValue
  import opened MlbStatsApi

  /** One division's standings record; only its division id is read. */
  datatype DivisionRecord = DivisionRecord(divisionId: Option<int>, teamRecords: seq<StatMap>)

  /** `record.division?.id || 0`. */
  function DivisionKey(r: DivisionRecord): (k: int)
    ensures r.divisionId.Some? ==> k == r.divisionId.value
    ensures r.divisionId.None? ==> k == 0
  {
    IntOrZero(r.divisionId)
  }

  /** The map after storing `records` in order, each under its division key. */
  function Stored(m: map<int, DivisionRecord>, records: seq<DivisionRecord>): map<int, DivisionRecord>
    decreases |records|
  {
    if |records| == 0 then m
    else
      var last := records[|records| - 1];
      Stored(m, records[..|records| - 1])[DivisionKey(last) := last]
  }

  function DivisionKeys(records: seq<DivisionRecord>): set<int>
  {
    set i | 0 <= i < |records| :: DivisionKey(records[i])
  }

  /** A load adds the divisions it was given and keeps every division it already had;
      divisions it was not given keep their earlier record. */
  lemma {:induction false} StoredKeepsOthers(m: map<int, DivisionRecord>, records: seq<DivisionRecord>)
    ensures Stored(m, records).Keys == m.Keys + DivisionKeys(records)
    ensures forall k :: k in m && k !in DivisionKeys(records) ==> Stored(m, records)[k] == m[k]
    decreases |records|
  {
    if |records| > 0 {
      var init := records[..|records| - 1];
      StoredKeepsOthers(m, init);
      assert DivisionKeys(records) == DivisionKeys(init) + {DivisionKey(records[|records| - 1])} by {
        assert forall j :: 0 <= j < |init| ==> init[j] == records[j];
      }
    }
  }

  /** A division ends with the last record carrying its id. */
  lemma {:induction false} StoredLastWins(m: map<int, DivisionRecord>, records: seq<DivisionRecord>, i: nat)
    requires i < |records|
    requires forall j :: i < j < |records| ==> DivisionKey(records[j]) != DivisionKey(records[i])
    ensures DivisionKey(records[i]) in Stored(m, records) && Stored(m, records)[DivisionKey(records[i])] == records[i]
    decreases |records|
  {
    if i < |records| - 1 {
      var init := records[..|records| - 1];
      assert init[i] == records[i];
      StoredLastWins(m, init, i);
    }
  }

  class StandingsService {
    var byDivision: map<int, DivisionRecord>

    constructor()
      ensures byDivision == map[]
    {
      byDivision := map[];
    }

    /** `loadStandingsByDivision`: requests the leagues' standings and stores each division
        record of the response under its division id. A failed request, or a response without
        records, changes nothing; the map is never cleared. */
    method LoadStandingsByDivision(leagueIds: seq<int>, response: Option<seq<DivisionRecord>>) returns (url: string)
      modifies this
      ensures url == StandingsByDivisionUrl(leagueIds)
      ensures response.None? ==> byDivision == old(byDivision)
      ensures response.Some? ==> byDivision == Stored(old(byDivision), response.value)
    {
      url := StandingsByDivisionUrl(leagueIds);
      if response.Some? {
        var records := response.value;
        for i := 0 to |records|
          invariant byDivision == Stored(old(byDivision), records[..i])
        {
          assert records[..i + 1][..i] == records[..i];
          byDivision := byDivision[DivisionKey(records[i]) := records[i]];
        }
        assert records[..|records|] == records;
      }
    }
  }
}
