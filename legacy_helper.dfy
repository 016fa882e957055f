/**
 * The helpers of the older engine (helper.py): the share of drawn matches, the
 * current league table keyed by upper-cased team name, and the rank aggregation
 * without the filling of missing positions. determine_result is the same
 * function as in the newer helpers (Helper.DetermineResult).
 *
 * The JSON files the helpers read are parameters: `fixtures` for fixtures.json
 * and `raw` for the (team, points) entries of table.json in file order.
 */
module LegacyHelper {
  import opened Wrappers
  import opened Numerics
  import opened Fixtures
  import opened Standings
  import Helper

  // ---------------------------------------------------------------------------
  // percentage_of_draws
  // ---------------------------------------------------------------------------

  /**
   * percentage_of_draws: the share of matches whose result is a draw. With no
   * match at all, `draws / total_games` divides by zero.
   */
  method PercentageOfDraws(fixtures: Fixtures<Game>) returns (r: Result<real>)
    ensures r.Err? <==> AllMatches(fixtures) == []
    ensures r.Err? ==> r.error == ZeroDivisionError
    ensures r.Ok? ==> r.value == Draws(AllMatches(fixtures)) as real / |AllMatches(fixtures)| as real
    ensures r.Ok? ==> 0.0 <= r.value <= 1.0
  {
    var ms := AllMatches(fixtures);
    var draws: nat := 0;
    var totalGames: nat := 0;
    for i := 0 to |ms|
      invariant totalGames == i
      invariant draws == Draws(ms[..i])
    {
      assert ms[..i + 1][..i] == ms[..i];
      totalGames := totalGames + 1;
      if ms[i].result == Draw {
        draws := draws + 1;
      }
    }
    assert ms[..|ms|] == ms;
    if totalGames == 0 {
      return Err(ZeroDivisionError);
    }
    FractionWithin(draws, totalGames);
    r := Ok(draws as real / totalGames as real);
  }

  // ---------------------------------------------------------------------------
  // get_table
  // ---------------------------------------------------------------------------

  /**
   * `standings[team] = points` on a dict: an existing key keeps its place and takes
   * the new value, a new key goes to the end.
   */
  function Put(t: Table, team: string, points: int): (r: Table)
    ensures team in Teams(t) ==> |r| == |t|
    ensures team !in Teams(t) ==> r == t + [Entry(team, points)]
    ensures Teams(r) == Teams(t) + {team}
    ensures team in Teams(r) && PointsOf(r, team) == points
    ensures forall other :: other in Teams(t) && other != team ==> other in Teams(r) && PointsOf(r, other) == PointsOf(t, other)
    ensures DistinctTeams(t) ==> DistinctTeams(r)
  {
    if team in Teams(t) then
      var i := IndexOf(t, team);
      var r := t[i := Entry(team, points)];
      PutSameKeys(t, team, points);
      r
    else
      var r := t + [Entry(team, points)];
      PutAppends(t, team, points);
      r
  }

  /** Overwriting the value of team's entry keeps every key where it was. */
  lemma PutSameKeys(t: Table, team: string, points: int)
    requires team in Teams(t)
    ensures var r := t[IndexOf(t, team) := Entry(team, points)];
      && Teams(r) == Teams(t)
      && PointsOf(r, team) == points
      && (forall other :: other in Teams(t) && other != team ==> PointsOf(r, other) == PointsOf(t, other))
      && (DistinctTeams(t) ==> DistinctTeams(r))
  {
    var i := IndexOf(t, team);
    var r := t[i := Entry(team, points)];
    assert forall k :: 0 <= k < |t| ==> r[k].team == t[k].team;
    assert Teams(r) == Teams(t) by {
      forall e | e in t ensures e.team in Teams(r) {
        var k :| 0 <= k < |t| && t[k] == e;
        assert r[k].team == e.team;
      }
      forall e | e in r ensures e.team in Teams(t) {
        var k :| 0 <= k < |r| && r[k] == e;
        assert t[k].team == e.team;
      }
    }
    forall other | other in Teams(t)
      ensures IndexOf(r, other) == IndexOf(t, other)
    {
      SameKeysSameIndex(t, r, other);
    }
  }

  /** Two tables with the same key at every index find every key at the same index. */
  lemma SameKeysSameIndex(t: Table, r: Table, team: string)
    requires |t| == |r| && forall k :: 0 <= k < |t| ==> r[k].team == t[k].team
    requires team in Teams(t) && team in Teams(r)
    ensures IndexOf(r, team) == IndexOf(t, team)
  {
    var i, j := IndexOf(t, team), IndexOf(r, team);
    assert r[i].team == team;
    assert t[j].team == team;
  }

  /** Appending a new key keeps every earlier key where it was. */
  lemma PutAppends(t: Table, team: string, points: int)
    requires team !in Teams(t)
    ensures var r := t + [Entry(team, points)];
      && Teams(r) == Teams(t) + {team}
      && team in Teams(r) && PointsOf(r, team) == points
      && (forall other :: other in Teams(t) ==> PointsOf(r, other) == PointsOf(t, other))
      && (DistinctTeams(t) ==> DistinctTeams(r))
  {
    var r := t + [Entry(team, points)];
    assert r[|t|] == Entry(team, points);
    assert Teams(r) == Teams(t) + {team} by {
      forall e | e in r ensures e.team in Teams(t) + {team} {
        var k :| 0 <= k < |r| && r[k] == e;
        if k < |t| { assert t[k] == e; }
      }
      forall e | e in t ensures e.team in Teams(r) {
        var k :| 0 <= k < |t| && t[k] == e;
        assert r[k] == e;
      }
    }
    forall k | 0 <= k < |t| ensures t[k].team != team {
      assert t[k] in t;
    }
    IndexOfNew(t, r, team);
    forall other | other in Teams(t)
      ensures PointsOf(r, other) == PointsOf(t, other)
    {
      IndexOfPrefix(t, r, other);
    }
  }

  lemma IndexOfNew(t: Table, r: Table, team: string)
    requires |r| == |t| + 1 && r[..|t|] == t && r[|t|].team == team && team in Teams(r)
    requires forall k :: 0 <= k < |t| ==> t[k].team != team
    ensures IndexOf(r, team) == |t|
  {
  }

  lemma IndexOfPrefix(t: Table, r: Table, team: string)
    requires |r| == |t| + 1 && r[..|t|] == t && team in Teams(t) && team in Teams(r)
    ensures IndexOf(r, team) == IndexOf(t, team)
  {
    var i := IndexOf(t, team);
    assert r[i] == t[i];
    assert forall j :: 0 <= j < i ==> r[j] == t[j];
  }

  /** The table get_table builds from the entries of table.json, in file order. */
  function TableOf(raw: seq<(string, int)>): Table {
    if raw == [] then [] else Put(TableOf(raw[..|raw| - 1]), Upper(raw[|raw| - 1].0), raw[|raw| - 1].1)
  }

  /** The upper-cased names of the entries of table.json. */
  function UpperNames(raw: seq<(string, int)>): set<string> {
    set e | e in raw :: Upper(e.0)
  }

  /**
   * get_table: one entry per upper-cased team name, in the order the names first
   * appear, holding the points of the last entry with that name.
   */
  method GetTable(raw: seq<(string, int)>) returns (standings: Table)
    ensures standings == TableOf(raw)
    ensures Teams(standings) == UpperNames(raw) && DistinctTeams(standings)
  {
    standings := [];
    for i := 0 to |raw|
      invariant standings == TableOf(raw[..i])
    {
      assert raw[..i + 1][..i] == raw[..i];
      standings := Put(standings, Upper(raw[i].0), raw[i].1);
    }
    assert raw[..|raw|] == raw;
    TableOfKeys(raw);
  }

  /** The table's keys are exactly the upper-cased names, each once, all in upper case. */
  lemma {:induction false} TableOfKeys(raw: seq<(string, int)>)
    ensures Teams(TableOf(raw)) == UpperNames(raw)
    ensures DistinctTeams(TableOf(raw))
    ensures forall e :: e in TableOf(raw) ==> IsUpper(e.team)
  {
    if raw != [] {
      var init := raw[..|raw| - 1];
      TableOfKeys(init);
      assert raw == init + [raw[|raw| - 1]];
      assert UpperNames(raw) == UpperNames(init) + {Upper(raw[|raw| - 1].0)};
      var t := TableOf(raw);
      forall e | e in t ensures IsUpper(e.team) {
        assert e.team in Teams(t);
        assert e.team in UpperNames(raw);
        var x :| x in raw && Upper(x.0) == e.team;
      }
    }
  }

  /**
   * The points under a name are those of its last entry: a later entry whose name
   * upper-cases to the same key overwrites an earlier one.
   */
  lemma {:induction false} LastEntryWins(raw: seq<(string, int)>, k: nat)
    requires k < |raw|
    requires forall j :: k < j < |raw| ==> Upper(raw[j].0) != Upper(raw[k].0)
    ensures Upper(raw[k].0) in Teams(TableOf(raw))
    ensures PointsOf(TableOf(raw), Upper(raw[k].0)) == raw[k].1
  {
    var init := raw[..|raw| - 1];
    if k < |raw| - 1 {
      assert forall j :: k < j < |init| ==> init[j] == raw[j];
      LastEntryWins(init, k);
      assert init[k] == raw[k];
    }
  }

  // ---------------------------------------------------------------------------
  // analyze_simulations
  // ---------------------------------------------------------------------------

  /**
   * analyze_simulations: for every team seen in some simulation, the percentage of
   * simulations in which it finished in each position it actually reached. Unlike
   * the newer helper, positions never reached are absent.
   */
  method AnalyzeSimulations(allSimulations: seq<Table>) returns (probs: map<string, map<int, real>>)
    requires forall k :: 0 <= k < |allSimulations| ==> DistinctTeams(allSimulations[k])
    ensures probs.Keys == TeamsIn(allSimulations)
    ensures forall team, pos :: team in probs ==> (pos in probs[team] <==> Count(allSimulations, team, pos) > 0)
    ensures forall team, pos :: team in probs && pos in probs[team] ==>
      |allSimulations| > 0 && probs[team][pos] == Percent(Count(allSimulations, team, pos), |allSimulations|)
  {
    var totalSimulations := |allSimulations|;
    var counts := Helper.CountAll(allSimulations);
    assert counts != map[] ==> totalSimulations > 0 by {
      if counts != map[] {
        var team :| team in counts;
        Helper.TeamsInNonEmpty(allSimulations, team);
      }
    }
    probs := Helper.Percentages(counts, totalSimulations);
    forall team, pos | team in probs
      ensures pos in probs[team] <==> Count(allSimulations, team, pos) > 0
      ensures pos in probs[team] ==> probs[team][pos] == Percent(Count(allSimulations, team, pos), totalSimulations)
    {
      assert Helper.Lookup(counts, team, pos) == Count(allSimulations, team, pos);
    }
  }
}
