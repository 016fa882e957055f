/** The helpers of the newer engine (src/helper.py): results, time decay, rank aggregation. */
module Helper {
  import opened Wrappers
  import opened Numerics
  import opened Fixtures
  import opened Standings

  /** What determine_result returns: "NaN", True, False or None. */
  datatype Verdict = NotFinished | HomeWon | HomeLost | NoWinner

  /**
   * The verdict for an API fixture with status code `status` and home `winner`
   * flag (JSON true / false / null).
   */
  function DetermineResult(status: string, homeWinner: Option<bool>): (r: Verdict)
    ensures r == NotFinished <==> status != "FT"
    ensures status == "FT" ==> (r == HomeWon <==> homeWinner == Some(true))
    ensures status == "FT" ==> (r == HomeLost <==> homeWinner == Some(false))
    ensures status == "FT" ==> (r == NoWinner <==> homeWinner == None)
  {
    if status != "FT" then NotFinished
    else match homeWinner
      case Some(true) => HomeWon
      case Some(false) => HomeLost
      case None => NoWinner
  }

  function Sign(x: int): int { if x > 0 then 1 else if x < 0 then -1 else 0 }

  /** +1 win, -1 loss, 0 draw for `team`; 0 when `team` did not play in `g`. */
  function GetMatchResult(g: Game, team: string): (r: int)
    ensures -1 <= r <= 1
    ensures g.homeTeam != team && g.awayTeam != team ==> r == 0
    ensures g.homeTeam == team ==> r == Sign(g.homeGoals - g.awayGoals)
    ensures g.homeTeam != team && g.awayTeam == team ==> r == Sign(g.awayGoals - g.homeGoals)
  {
    var (teamGoals, opponentGoals) :=
      if g.homeTeam == team then (g.homeGoals, g.awayGoals)
      else if g.awayTeam == team then (g.awayGoals, g.homeGoals)
      else (0, 0);
    if g.homeTeam != team && g.awayTeam != team then 0
    else if teamGoals > opponentGoals then 1
    else if teamGoals < opponentGoals then -1
    else 0
  }

  /** Between two distinct teams, one side's result is minus the other's. */
  lemma MatchResultAntisymmetric(g: Game)
    requires g.homeTeam != g.awayTeam
    ensures GetMatchResult(g, g.homeTeam) == -GetMatchResult(g, g.awayTeam)
  {
  }

  /** date(2024, 12, 10) as a day number. */
  const FixedReferenceDay: Day := 739230

  /** Days between the reference date and the game, floored at 1. */
  function DecayDays(gameDay: Day, useFixedReferenceDate: bool, today: Day): (d: int)
    ensures d >= 1
    ensures d >= (if useFixedReferenceDate then FixedReferenceDay else today) - gameDay
  {
    var reference := if useFixedReferenceDate then FixedReferenceDay else today;
    if reference - gameDay > 1 then reference - gameDay else 1
  }

  /** `k / ln(days + 10)`; `today` stands for datetime.now(). */
  function GetDecayFactor(k: real, gameDay: Day, useFixedReferenceDate: bool, today: Day, tm: Transcendentals): (r: real)
    requires Lawful(tm)
    ensures k > 0.0 ==> r > 0.0
    ensures k == 0.0 ==> r == 0.0
  {
    var days := DecayDays(gameDay, useFixedReferenceDate, today);
    assert LnPositive(tm, days as real + 10.0);
    k / tm.ln(days as real + 10.0)
  }

  /** With the fixed reference date, the decay factor does not depend on "now". */
  lemma FixedReferenceIgnoresToday(k: real, gameDay: Day, today1: Day, today2: Day, tm: Transcendentals)
    requires Lawful(tm)
    ensures GetDecayFactor(k, gameDay, true, today1, tm) == GetDecayFactor(k, gameDay, true, today2, tm)
  {
  }

  lemma DivAntitone(k: real, lo: real, hi: real)
    requires k >= 0.0 && 0.0 < lo <= hi
    ensures k / hi <= k / lo
  {
    var a, b := k / hi, k / lo;
    assert a * hi == k && b * lo == k;
  }

  /** k / ln(11): the decay factor of a game at most one day old (days are floored at 1). */
  function MaxDecay(k: real, tm: Transcendentals): (r: real)
    requires Lawful(tm)
    ensures k >= 0.0 ==> r >= 0.0
  {
    assert LnPositive(tm, 11.0);
    k / tm.ln(11.0)
  }

  /** The decay factor of a game never exceeds k / ln(11), its value for the most recent games. */
  lemma DecayFactorBounded(k: real, gameDay: Day, useFixedReferenceDate: bool, today: Day, tm: Transcendentals)
    requires Lawful(tm) && k >= 0.0
    ensures GetDecayFactor(k, gameDay, useFixedReferenceDate, today, tm) <= MaxDecay(k, tm)
  {
    var days := DecayDays(gameDay, useFixedReferenceDate, today);
    var lo, hi := tm.ln(11.0), tm.ln(days as real + 10.0);
    assert 0.0 < lo <= hi by {
      assert LnPositive(tm, 11.0);
      if days > 1 { assert LnIncreasing(tm, 11.0, days as real + 10.0); }
    }
    DivAntitone(k, lo, hi);
  }

  /** An older game (earlier day) never decays less than a newer one. */
  lemma DecayNonIncreasingWithAge(k: real, older: Day, newer: Day, useFixedReferenceDate: bool, today: Day, tm: Transcendentals)
    requires Lawful(tm) && k >= 0.0 && older <= newer
    ensures GetDecayFactor(k, older, useFixedReferenceDate, today, tm)
         <= GetDecayFactor(k, newer, useFixedReferenceDate, today, tm)
  {
    var dOld := DecayDays(older, useFixedReferenceDate, today);
    var dNew := DecayDays(newer, useFixedReferenceDate, today);
    assert dNew <= dOld;
    var lOld, lNew := tm.ln(dOld as real + 10.0), tm.ln(dNew as real + 10.0);
    assert 0.0 < lNew <= lOld by {
      assert LnPositive(tm, dNew as real + 10.0);
      if dNew < dOld { assert LnIncreasing(tm, dNew as real + 10.0, dOld as real + 10.0); }
    }
    DivAntitone(k, lNew, lOld);
  }

  /** `position_counts[team][position]` of a defaultdict: 0 for a missing key. */
  function Lookup(counts: map<string, map<int, nat>>, team: string, pos: int): nat {
    if team in counts && pos in counts[team] then counts[team][pos] else 0
  }

  /** Position counters after the stable sort of one table has been enumerated up to entry i. */
  ghost predicate CountedUpTo(counts: map<string, map<int, nat>>, done: seq<Table>, sim: Table, i: nat)
    requires i <= |sim| && DistinctTeams(sim)
  {
    && counts.Keys == TeamsIn(done) + Teams(sim[..i])
    && (forall team, pos :: team in counts && pos in counts[team] ==> counts[team][pos] > 0)
    && (forall team, pos :: Lookup(counts, team, pos)
          == Count(done, team, pos) + (if team in Teams(sim[..i]) && PlacedAt(sim, team, pos) then 1 else 0))
  }

  /** For distinct teams, the entry of the team at index j is found at j. */
  lemma IndexOfDistinct(t: Table, j: nat)
    requires DistinctTeams(t) && j < |t|
    ensures t[j].team in Teams(t) && IndexOf(t, t[j].team) == j
  {
  }

  /** `position_counts[team][pos] += 1` on the nested defaultdict. */
  function Increment(counts: map<string, map<int, nat>>, team: string, pos: int): (r: map<string, map<int, nat>>)
    ensures r.Keys == counts.Keys + {team}
    ensures forall t, p :: Lookup(r, t, p) == Lookup(counts, t, p) + (if t == team && p == pos then 1 else 0)
    ensures forall t :: t in r && t != team ==> r[t] == counts[t]
    ensures r[team].Keys == (if team in counts then counts[team].Keys else {}) + {pos}
  {
    var row := if team in counts then counts[team] else map[];
    var c := if pos in row then row[pos] else 0;
    counts[team := row[pos := c + 1]]
  }

  lemma CountedStep(counts: map<string, map<int, nat>>, done: seq<Table>, sim: Table, i: nat)
    requires i < |sim| && DistinctTeams(sim)
    requires CountedUpTo(counts, done, sim, i)
    ensures CountedUpTo(Increment(counts, sim[i].team, Position(sim, i)), done, sim, i + 1)
  {
    var team, pos := sim[i].team, Position(sim, i);
    var next := Increment(counts, team, pos);
    TeamsStep(sim, i);
    forall t, p | t in next && p in next[t] ensures next[t][p] > 0 {
      if t != team { assert next[t] == counts[t]; }
      else { assert Lookup(next, t, p) == Lookup(counts, t, p) + (if p == pos then 1 else 0); }
    }
    forall t, p
      ensures Lookup(next, t, p) == Count(done, t, p) + (if t in Teams(sim[..i + 1]) && PlacedAt(sim, t, p) then 1 else 0)
    {
      CountedEntry(counts, done, sim, i, t, p);
    }
  }

  /** Enumerating entry i adds its team, which was not among the earlier ones, and that team sits at index i. */
  lemma TeamsStep(sim: Table, i: nat)
    requires i < |sim| && DistinctTeams(sim)
    ensures Teams(sim[..i + 1]) == Teams(sim[..i]) + {sim[i].team}
    ensures sim[i].team !in Teams(sim[..i])
    ensures sim[i].team in Teams(sim) && IndexOf(sim, sim[i].team) == i
  {
    IndexOfDistinct(sim, i);
    TeamsPrefixStep(sim, i);
    EarlierTeams(sim, i);
  }

  lemma EarlierTeams(sim: Table, i: nat)
    requires i < |sim| && DistinctTeams(sim)
    ensures sim[i].team !in Teams(sim[..i])
  {
    var earlier := sim[..i];
    forall e | e in earlier ensures e.team != sim[i].team {
      var j :| 0 <= j < |earlier| && earlier[j] == e;
      assert sim[j] == e;
    }
  }

  lemma TeamsPrefixStep(t: Table, i: nat)
    requires i < |t|
    ensures Teams(t[..i + 1]) == Teams(t[..i]) + {t[i].team}
  {
    assert t[..i + 1] == t[..i] + [t[i]];
  }

  /** The counter of one (team, position) pair after entry i is enumerated. */
  lemma CountedEntry(counts: map<string, map<int, nat>>, done: seq<Table>, sim: Table, i: nat, t: string, p: int)
    requires i < |sim| && DistinctTeams(sim)
    requires CountedUpTo(counts, done, sim, i)
    ensures Lookup(Increment(counts, sim[i].team, Position(sim, i)), t, p)
         == Count(done, t, p) + (if t in Teams(sim[..i + 1]) && PlacedAt(sim, t, p) then 1 else 0)
  {
    TeamsStep(sim, i);
    if t == sim[i].team {
      assert PlacedAt(sim, t, p) <==> p == Position(sim, i);
    }
  }

  lemma CountedAll(counts: map<string, map<int, nat>>, done: seq<Table>, sim: Table)
    requires DistinctTeams(sim)
    requires CountedUpTo(counts, done, sim, |sim|)
    ensures CountedUpTo(counts, done + [sim], [], 0)
  {
    assert sim[..|sim|] == sim;
    assert (done + [sim])[..|done|] == done;
    assert forall team, pos :: PlacedAt(sim, team, pos) ==> team in Teams(sim);
  }

  /** Step 1 of analyze_simulations, for one simulation: count each team at its sorted position. */
  method CountOne(counts0: map<string, map<int, nat>>, ghost done: seq<Table>, sim: Table)
    returns (counts: map<string, map<int, nat>>)
    requires DistinctTeams(sim)
    requires CountedUpTo(counts0, done, sim, 0)
    ensures CountedUpTo(counts, done + [sim], [], 0)
  {
    counts := counts0;
    for i := 0 to |sim|
      invariant CountedUpTo(counts, done, sim, i)
    {
      CountedStep(counts, done, sim, i);
      counts := Increment(counts, sim[i].team, Position(sim, i));
    }
    CountedAll(counts, done, sim);
  }

  /** Step 2 for one team: each counted position as a percentage of all simulations. */
  function PercentRow(row: map<int, nat>, total: nat): map<int, real>
    requires total > 0
  {
    map pos | pos in row :: Percent(row[pos], total)
  }

  /** Step 3 for one team: `setdefault(pos, 0.0)` for positions 1..16. */
  function FillPositions(row: map<int, real>): map<int, real> {
    row + map pos | 1 <= pos <= 16 && pos !in row :: 0.0
  }

  /**
   * analyze_simulations: for every team seen in some simulation, the percentage of
   * simulations in which it finished in each position, with positions 1..16 always
   * present (0.0 when never reached).
   */
  method AnalyzeSimulations(sims: seq<Table>) returns (probs: map<string, map<int, real>>)
    requires forall k :: 0 <= k < |sims| ==> DistinctTeams(sims[k])
    ensures probs.Keys == TeamsIn(sims)
    ensures forall team, pos :: team in probs ==> (pos in probs[team] <==> Count(sims, team, pos) > 0 || 1 <= pos <= 16)
    ensures forall team, pos :: team in probs && pos in probs[team] ==> |sims| > 0 && probs[team][pos] == Percent(Count(sims, team, pos), |sims|)
  {
    var total := |sims|;
    var counts := CountAll(sims);
    assert counts != map[] ==> total > 0 by {
      if counts != map[] {
        var team :| team in counts;
        TeamsInNonEmpty(sims, team);
      }
    }
    var withCounts := Percentages(counts, total);
    probs := FillAll(withCounts);
    forall team, pos | team in probs
      ensures pos in probs[team] <==> Count(sims, team, pos) > 0 || 1 <= pos <= 16
      ensures pos in probs[team] ==> total > 0 && probs[team][pos] == Percent(Count(sims, team, pos), total)
    {
      FilledRow(counts[team], total, Count(sims, team, pos), pos);
    }
  }

  /** Step 1 of analyze_simulations: aggregate the position counts over every simulation. */
  method CountAll(sims: seq<Table>) returns (counts: map<string, map<int, nat>>)
    requires forall k :: 0 <= k < |sims| ==> DistinctTeams(sims[k])
    ensures CountedUpTo(counts, sims, [], 0)
  {
    counts := map[];
    for s := 0 to |sims|
      invariant CountedUpTo(counts, sims[..s], [], 0)
    {
      assert sims[..s + 1] == sims[..s] + [sims[s]];
      counts := CountOne(counts, sims[..s], sims[s]);
    }
    assert sims[..|sims|] == sims;
  }

  /** Step 2: each team's counts as percentages of all simulations. */
  method Percentages(counts: map<string, map<int, nat>>, total: nat) returns (withCounts: map<string, map<int, real>>)
    requires counts != map[] ==> total > 0
    ensures withCounts.Keys == counts.Keys
    ensures forall team :: team in withCounts ==> total > 0 && withCounts[team] == PercentRow(counts[team], total)
  {
    withCounts := map[];
    var todo := counts.Keys;
    while todo != {}
      invariant todo <= counts.Keys
      invariant withCounts.Keys == counts.Keys - todo
      invariant forall team :: team in withCounts ==> total > 0 && withCounts[team] == PercentRow(counts[team], total)
      decreases todo
    {
      var team :| team in todo;
      withCounts := withCounts[team := PercentRow(counts[team], total)];
      todo := todo - {team};
    }
  }

  /** Step 3: every team's row with the missing positions 1..16 filled in. */
  method FillAll(withCounts: map<string, map<int, real>>) returns (probs: map<string, map<int, real>>)
    ensures probs.Keys == withCounts.Keys
    ensures forall team :: team in probs ==> probs[team] == FillPositions(withCounts[team])
  {
    probs := map[];
    var todo := withCounts.Keys;
    while todo != {}
      invariant todo <= withCounts.Keys
      invariant probs.Keys == withCounts.Keys - todo
      invariant forall team :: team in probs ==> probs[team] == FillPositions(withCounts[team])
      decreases todo
    {
      var team :| team in todo;
      probs := probs[team := FillPositions(withCounts[team])];
      todo := todo - {team};
    }
  }

  /** One team's finished row, read at one position. */
  lemma FilledRow(row: map<int, nat>, total: nat, count: nat, pos: int)
    requires total > 0
    requires forall p :: p in row ==> row[p] > 0
    requires count == if pos in row then row[pos] else 0
    ensures pos in FillPositions(PercentRow(row, total)) <==> count > 0 || 1 <= pos <= 16
    ensures pos in FillPositions(PercentRow(row, total)) ==> FillPositions(PercentRow(row, total))[pos] == Percent(count, total)
  {
    assert Percent(0, total) == 0.0;
  }

  lemma TeamsInNonEmpty(sims: seq<Table>, team: string)
    requires team in TeamsIn(sims)
    ensures |sims| > 0
  {
  }
}
