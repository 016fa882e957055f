/**
 * League tables (team -> points, in the insertion order of the Python dict) and the
 * finishing positions that a stable descending sort by points gives them.
 */
module Standings {

  datatype Entry = Entry(team: string, points: int)

  /** A table as the Python dict team -> points, in insertion order. */
  type Table = seq<Entry>

  /** Dict keys are unique. */
  predicate DistinctTeams(t: Table) {
    forall i, j :: 0 <= i < j < |t| ==> t[i].team != t[j].team
  }

  function Teams(t: Table): set<string> {
    set e | e in t :: e.team
  }

  /** Where a team's entry sits in the table. */
  function IndexOf(t: Table, team: string): (i: nat)
    requires team in Teams(t)
    ensures i < |t| && t[i].team == team
    ensures forall j :: 0 <= j < i ==> t[j].team != team
  {
    if t[0].team == team then 0 else 1 + IndexOf(t[1..], team)
  }

  function PointsOf(t: Table, team: string): int
    requires team in Teams(t)
  {
    t[IndexOf(t, team)].points
  }

  /** The sum of all points in a table. */
  function Total(t: Table): int {
    if t == [] then 0 else Total(t[..|t| - 1]) + t[|t| - 1].points
  }

  /** `team_points[team] += pts`: one entry grows, every other entry and the order stay. */
  function AddPoints(t: Table, team: string, pts: int): (r: Table)
    requires team in Teams(t)
    ensures |r| == |t| && Teams(r) == Teams(t)
    ensures forall k :: 0 <= k < |t| ==> r[k].team == t[k].team
    ensures forall k :: 0 <= k < |t| && k != IndexOf(t, team) ==> r[k] == t[k]
    ensures r[IndexOf(t, team)].points == t[IndexOf(t, team)].points + pts
    ensures Total(r) == Total(t) + pts
  {
    var i := IndexOf(t, team);
    var r := t[i := Entry(team, t[i].points + pts)];
    TotalUpdate(t, i, t[i].points + pts);
    assert Teams(r) == Teams(t) by {
      forall e | e in t ensures e.team in Teams(r) {
        var k :| 0 <= k < |t| && t[k] == e;
        assert r[k].team == e.team;
      }
    }
    r
  }

  lemma {:induction false} TotalUpdate(t: Table, i: nat, p: int)
    requires i < |t|
    ensures Total(t[i := Entry(t[i].team, p)]) == Total(t) - t[i].points + p
  {
    var u := t[i := Entry(t[i].team, p)];
    if i == |t| - 1 {
      assert u[..|u| - 1] == t[..|t| - 1];
    } else {
      assert u[..|u| - 1] == t[..|t| - 1][i := Entry(t[i].team, p)];
      TotalUpdate(t[..|t| - 1], i, p);
    }
  }

  /**
   * Entry j comes before entry i in `sorted(table.items(), key=points, reverse=True)`:
   * more points, or equal points and earlier in the dict (Python's sort is stable,
   * also with reverse=True).
   */
  predicate Ahead(t: Table, j: int, i: int)
    requires 0 <= j < |t| && 0 <= i < |t|
  {
    t[j].points > t[i].points || (t[j].points == t[i].points && j < i)
  }

  function AheadOf(t: Table, i: nat): set<int>
    requires i < |t|
  {
    set j | 0 <= j < |t| && Ahead(t, j, i)
  }

  /** The 1-based position that `enumerate(sorted_teams, start=1)` gives entry i. */
  function Position(t: Table, i: nat): nat
    requires i < |t|
  {
    1 + |AheadOf(t, i)|
  }

  /** The indices 0..n-1. */
  function Indices(n: nat): (r: set<int>)
    ensures forall j :: j in r <==> 0 <= j < n
    ensures |r| == n
  {
    if n == 0 then {} else Indices(n - 1) + {n - 1}
  }

  lemma SubsetSize<T>(a: set<T>, b: set<T>)
    requires a <= b
    ensures |a| <= |b|
  {
    assert b == a + (b - a);
    assert a * (b - a) == {};
  }

  /** Every position lies in 1..n. */
  lemma PositionInRange(t: Table, i: nat)
    requires i < |t|
    ensures 1 <= Position(t, i) <= |t|
  {
    SubsetSize(AheadOf(t, i), Indices(|t|) - {i});
  }

  /** An entry strictly ahead in the sort gets a strictly smaller position. */
  lemma AheadGetsSmallerPosition(t: Table, j: nat, i: nat)
    requires j < |t| && i < |t| && Ahead(t, j, i)
    ensures Position(t, j) < Position(t, i)
  {
    assert j !in AheadOf(t, j);
    SubsetSize(AheadOf(t, j) + {j}, AheadOf(t, i));
  }

  /** A team with strictly more points than another finishes above it. */
  lemma MorePointsFinishHigher(t: Table, j: nat, i: nat)
    requires j < |t| && i < |t| && t[j].points > t[i].points
    ensures Position(t, j) < Position(t, i)
  {
    AheadGetsSmallerPosition(t, j, i);
  }

  /** Equal points keep the dict's insertion order. */
  lemma TiesKeepInsertionOrder(t: Table, j: nat, i: nat)
    requires j < i < |t| && t[j].points == t[i].points
    ensures Position(t, j) < Position(t, i)
  {
    AheadGetsSmallerPosition(t, j, i);
  }

  /** Distinct entries get distinct positions. */
  lemma PositionsDistinct(t: Table, j: nat, i: nat)
    requires j < |t| && i < |t| && i != j
    ensures Position(t, j) != Position(t, i)
  {
    if Ahead(t, j, i) {
      AheadGetsSmallerPosition(t, j, i);
    } else {
      AheadGetsSmallerPosition(t, i, j);
    }
  }

  /** `team` finished in position `pos` of table t. */
  predicate PlacedAt(t: Table, team: string, pos: int) {
    team in Teams(t) && Position(t, IndexOf(t, team)) == pos
  }

  /** How many simulations put `team` in position `pos`. */
  function Count(sims: seq<Table>, team: string, pos: int): nat {
    if sims == [] then 0
    else Count(sims[..|sims| - 1], team, pos) + (if PlacedAt(sims[|sims| - 1], team, pos) then 1 else 0)
  }

  /** How many simulations contain `team` at all. */
  function Appearances(sims: seq<Table>, team: string): nat {
    if sims == [] then 0
    else Appearances(sims[..|sims| - 1], team) + (if team in Teams(sims[|sims| - 1]) then 1 else 0)
  }

  /** Sum of Count over the positions lo..hi. */
  function CountSum(sims: seq<Table>, team: string, lo: int, hi: int): nat
    decreases hi - lo
  {
    if hi < lo then 0 else Count(sims, team, hi) + CountSum(sims, team, lo, hi - 1)
  }

  /** How many of lo..hi a table places `team` at: 1 or 0. */
  function PlacedSum(t: Table, team: string, lo: int, hi: int): nat
    decreases hi - lo
  {
    if hi < lo then 0 else (if PlacedAt(t, team, hi) then 1 else 0) + PlacedSum(t, team, lo, hi - 1)
  }

  lemma {:induction false} PlacedSumIsMembership(t: Table, team: string, lo: int, hi: int)
    requires lo <= 1 && hi >= |t|
    ensures PlacedSum(t, team, lo, hi) == if team in Teams(t) then 1 else 0
    decreases hi - lo
  {
    if team in Teams(t) {
      PositionInRange(t, IndexOf(t, team));
    }
    PlacedSumCases(t, team, lo, hi);
  }

  lemma {:induction false} PlacedSumCases(t: Table, team: string, lo: int, hi: int)
    ensures PlacedSum(t, team, lo, hi)
         == if team in Teams(t) && lo <= Position(t, IndexOf(t, team)) <= hi then 1 else 0
    decreases hi - lo
  {
    if hi >= lo { PlacedSumCases(t, team, lo, hi - 1); }
  }

  lemma {:induction false} CountSumStep(sims: seq<Table>, team: string, lo: int, hi: int)
    requires sims != []
    ensures CountSum(sims, team, lo, hi)
         == CountSum(sims[..|sims| - 1], team, lo, hi) + PlacedSum(sims[|sims| - 1], team, lo, hi)
    decreases hi - lo
  {
    if hi >= lo { CountSumStep(sims, team, lo, hi - 1); }
  }

  lemma {:induction false} CountSumNone(sims: seq<Table>, team: string, lo: int, hi: int)
    requires sims == []
    ensures CountSum(sims, team, lo, hi) == 0
    decreases hi - lo
  {
    if hi >= lo { CountSumNone(sims, team, lo, hi - 1); }
  }

  /**
   * Over positions 1..m, with m at least every table's size, a team's counts add
   * up to the number of simulations it appears in: each simulation places it once.
   */
  lemma {:induction false} CountsCoverAppearances(sims: seq<Table>, team: string, m: nat)
    requires forall k :: 0 <= k < |sims| ==> |sims[k]| <= m
    ensures CountSum(sims, team, 1, m) == Appearances(sims, team)
  {
    if sims != [] {
      var last, init := sims[|sims| - 1], sims[..|sims| - 1];
      CountSumStep(sims, team, 1, m);
      CountsCoverAppearances(init, team, m);
      PlacedSumIsMembership(last, team, 1, m);
    } else {
      CountSumNone(sims, team, 1, m);
    }
  }

  /** Every team that appears in at least one of the tables. */
  function TeamsIn(sims: seq<Table>): set<string> {
    if sims == [] then {} else TeamsIn(sims[..|sims| - 1]) + Teams(sims[|sims| - 1])
  }

  /** `(count / total_simulations) * 100`. */
  function Percent(count: int, total: nat): real
    requires total > 0
  {
    (count as real / total as real) * 100.0
  }

  /** Sum of the percentages over the positions lo..hi. */
  function PercentSum(sims: seq<Table>, team: string, lo: int, hi: int): real
    requires sims != []
    decreases hi - lo
  {
    if hi < lo then 0.0 else Percent(Count(sims, team, hi), |sims|) + PercentSum(sims, team, lo, hi - 1)
  }

  lemma {:induction false} PercentSumScales(sims: seq<Table>, team: string, lo: int, hi: int)
    requires sims != []
    ensures PercentSum(sims, team, lo, hi) == Percent(CountSum(sims, team, lo, hi), |sims|)
    decreases hi - lo
  {
    if hi >= lo {
      PercentSumScales(sims, team, lo, hi - 1);
      PercentAdds(Count(sims, team, hi), CountSum(sims, team, lo, hi - 1), |sims|);
    }
  }

  lemma PercentAdds(a: int, b: int, n: nat)
    requires n > 0
    ensures Percent(a, n) + Percent(b, n) == Percent(a + b, n)
  {
    var x, y, d := a as real / n as real, b as real / n as real, n as real;
    assert x * d == a as real && y * d == b as real;
    assert (x + y) * d == (a + b) as real;
    assert (a + b) as real / d == x + y;
  }

  lemma {:induction false} AppearsEverywhere(sims: seq<Table>, team: string)
    requires forall k :: 0 <= k < |sims| ==> team in Teams(sims[k])
    ensures Appearances(sims, team) == |sims|
  {
    if sims != [] { AppearsEverywhere(sims[..|sims| - 1], team); }
  }

  /**
   * A team present in every simulation has position percentages summing to exactly
   * 100 over positions 1..m, for any m at least the size of every table.
   */
  lemma PercentagesSumToHundred(sims: seq<Table>, team: string, m: nat)
    requires sims != []
    requires forall k :: 0 <= k < |sims| ==> team in Teams(sims[k]) && |sims[k]| <= m
    ensures PercentSum(sims, team, 1, m) == 100.0
  {
    PercentSumScales(sims, team, 1, m);
    CountsCoverAppearances(sims, team, m);
    AppearsEverywhere(sims, team);
    PercentOfAll(|sims|);
  }

  lemma PercentOfAll(n: nat)
    requires n > 0
    ensures Percent(n, n) == 100.0
  {
    assert n as real / n as real == 1.0;
  }
}
