/**
 * The season simulator of src/sim.py: every trial plays the remaining fixtures
 * on private copies of the engine's ratings, form and gain windows, draws each
 * result against the three outcome probabilities, and tallies 3/1/0 points into
 * a copy of the current league table.
 *
 * random.random() is the parameter `draws`: draws(t)(k) is the value the k-th
 * match of trial t receives. The probability model is a parameter as well (see
 * ProbabilityModel), and so are the matches table the head-to-head adjustment
 * reads and the day that datetime.now() returns.
 */
module Sim {
  import opened Wrappers
  import opened Numerics
  import opened Fixtures
  import opened Helper
  import opened Standings
  import opened EloSystem
  import DataManager

  /**
   * The probabilities the simulator asks for, from (home team, away team,
   * home advantage, head-to-head adjustment).
   */
  type ProbabilityModel = (string, string, real, real) -> Probabilities

  /** get_h2h_adjustment's default h2h_factor. */
  const H2hFactor: real := 8.0

  /** The transcendental functions, with the laws the proofs rely on. */
  type LawfulTm = tm: Transcendentals | Lawful(tm) witness Transcendentals(x => 1.0, x => 1.0, x => x - 1.0)

  /** A gain window: a deque(maxlen=3) of rating gains, oldest first. */
  type GainWindow = w: seq<real> | |w| <= 3

  /** What a trial reads but never writes: the simulator's settings. */
  datatype Setup = Setup(
    kFactor: real,
    homeStrength: map<string, real>,
    awayStrength: map<string, real>,
    history: seq<Game>,
    today: Day,
    model: ProbabilityModel,
    tm: LawfulTm)

  /** temp_ratings, temp_form, temp_gains and team_points of one trial. */
  datatype TrialState = TrialState(
    ratings: map<string, real>,
    form: map<string, real>,
    gains: map<string, GainWindow>,
    points: Table)

  /** `d.get(team, 0)`. */
  function GetOr0(d: map<string, real>, team: string): real {
    if team in d then d[team] else 0.0
  }

  // ---------------------------------------------------------------------------
  // One simulated match
  // ---------------------------------------------------------------------------

  /**
   * `hfa + (hfa - afa) / 2` over the simulator's strength maps, where a missing
   * strength counts as 0: 150 per unit of home strength, -50 per unit of away strength.
   */
  function SimAdvantage(homeStrength: map<string, real>, awayStrength: map<string, real>, homeTeam: string, awayTeam: string): (r: real)
    ensures r == 150.0 * GetOr0(homeStrength, homeTeam) - 50.0 * GetOr0(awayStrength, awayTeam)
    ensures homeTeam !in homeStrength && awayTeam !in awayStrength ==> r == 0.0
  {
    var hfa := GetOr0(homeStrength, homeTeam) * 100.0;
    var afa := GetOr0(awayStrength, awayTeam) * 100.0;
    hfa + (hfa - afa) / 2.0
  }

  /** The simulator's home_strength and away_strength maps, read off the engine's team_strengths. */
  function HomeStrengths(strengths: map<string, Strength>): map<string, real> {
    map t | t in strengths :: strengths[t].home
  }

  function AwayStrengths(strengths: map<string, Strength>): map<string, real> {
    map t | t in strengths :: strengths[t].away
  }

  /**
   * For two teams with strengths, the simulator's home advantage is the engine's;
   * without strengths the simulator counts 0 where the engine counts 1.
   */
  lemma AdvantageAgreesWithEngine(strengths: map<string, Strength>, homeTeam: string, awayTeam: string)
    ensures homeTeam in strengths && awayTeam in strengths ==>
      SimAdvantage(HomeStrengths(strengths), AwayStrengths(strengths), homeTeam, awayTeam) == HomeAdvantage(strengths, homeTeam, awayTeam)
    ensures homeTeam !in strengths && awayTeam !in strengths ==>
      SimAdvantage(HomeStrengths(strengths), AwayStrengths(strengths), homeTeam, awayTeam) == HomeAdvantage(strengths, homeTeam, awayTeam) - 100.0
  {
  }

  /** The if/elif/else on the draw: below p_home a home win, below p_home + p_draw a draw, else an away win. */
  function PickOutcome(rand: real, p: Probabilities): Outcome {
    if rand < p.homeWin then Home
    else if rand < p.homeWin + p.draw then Draw
    else Away
  }

  /** Home before Draw before Away along the draw. */
  function Rank(o: Outcome): int {
    match o
    case Home => 0
    case Draw => 1
    case Away => 2
  }

  /**
   * The partition cuts [0, 1) into three consecutive intervals: a larger draw never
   * gives an outcome earlier in Home, Draw, Away order; and with non-negative
   * probabilities the draw interval is [p_home, p_home + p_draw).
   */
  lemma PickOutcomeMonotone(rand1: real, rand2: real, p: Probabilities)
    requires rand1 <= rand2
    ensures Rank(PickOutcome(rand1, p)) <= Rank(PickOutcome(rand2, p))
  {
  }

  lemma PickOutcomeIntervals(rand: real, p: Probabilities)
    requires p.homeWin >= 0.0 && p.draw >= 0.0
    ensures PickOutcome(rand, p) == Home <==> rand < p.homeWin
    ensures PickOutcome(rand, p) == Draw <==> p.homeWin <= rand < p.homeWin + p.draw
    ensures PickOutcome(rand, p) == Away <==> p.homeWin + p.draw <= rand
  {
  }

  /** actual_home, actual_away for a simulated result: 1/0, 0.5/0.5 or 0/1. */
  function OutcomeScores(o: Outcome): (r: (real, real))
    ensures r.0 + r.1 == 1.0
  {
    match o
    case Home => (1.0, 0.0)
    case Draw => (0.5, 0.5)
    case Away => (0.0, 1.0)
  }

  /** A simulated result scores what the engine scores a played game with that result. */
  lemma OutcomeScoresAgreeWithGoals(homeGoals: int, awayGoals: int)
    ensures ActualScores(homeGoals, awayGoals)
         == OutcomeScores(if homeGoals > awayGoals then Home else if homeGoals < awayGoals then Away else Draw)
  {
  }

  /** Table b is table a with the same teams in the same order, and no tally lower. */
  predicate Grown(a: Table, b: Table) {
    && |a| == |b|
    && forall k :: 0 <= k < |a| ==> b[k].team == a[k].team && b[k].points >= a[k].points
  }

  lemma GrownTransitive(a: Table, b: Table, c: Table)
    requires Grown(a, b) && Grown(b, c)
    ensures Grown(a, c)
  {
  }

  /**
   * `team_points[...] += ...` for a result: 3 to the home side, 1 to each, or 3 to
   * the away side. A team missing from the table raises KeyError.
   */
  function Tally(table: Table, homeTeam: string, awayTeam: string, o: Outcome): (r: Result<Table>)
    ensures r.Ok? <==> match o
                       case Home => homeTeam in Teams(table)
                       case Draw => homeTeam in Teams(table) && awayTeam in Teams(table)
                       case Away => awayTeam in Teams(table)
    ensures r.Err? ==> r.error == KeyError
  {
    match o
    case Home =>
      if homeTeam in Teams(table) then Ok(AddPoints(table, homeTeam, 3)) else Err(KeyError)
    case Draw =>
      if homeTeam in Teams(table) && awayTeam in Teams(table)
      then Ok(AddPoints(AddPoints(table, homeTeam, 1), awayTeam, 1))
      else Err(KeyError)
    case Away =>
      if awayTeam in Teams(table) then Ok(AddPoints(table, awayTeam, 3)) else Err(KeyError)
  }

  /** A tallied match keeps the table's teams and order, lowers no tally, and adds 2 points for a draw, 3 otherwise. */
  lemma TallyGrows(table: Table, homeTeam: string, awayTeam: string, o: Outcome)
    requires Tally(table, homeTeam, awayTeam, o).Ok?
    ensures Grown(table, Tally(table, homeTeam, awayTeam, o).value)
    ensures Total(Tally(table, homeTeam, awayTeam, o).value) == Total(table) + (if o == Draw then 2 else 3)
    ensures Teams(Tally(table, homeTeam, awayTeam, o).value) == Teams(table)
  {
    if o == Draw {
      var mid := AddPoints(table, homeTeam, 1);
      assert Grown(table, mid);
      assert Grown(mid, AddPoints(mid, awayTeam, 1));
      GrownTransitive(table, mid, AddPoints(mid, awayTeam, 1));
    }
  }

  /** The winner of a tallied match gets 3 points, a draw gives each side 1 (for two different teams). */
  lemma TallyAwards(table: Table, homeTeam: string, awayTeam: string, o: Outcome)
    requires Tally(table, homeTeam, awayTeam, o).Ok? && homeTeam != awayTeam
    ensures var after := Tally(table, homeTeam, awayTeam, o).value;
      && (homeTeam in Teams(table) ==> PointsOf(after, homeTeam) == PointsOf(table, homeTeam) + (match o case Home => 3 case Draw => 1 case Away => 0))
      && (awayTeam in Teams(table) ==> PointsOf(after, awayTeam) == PointsOf(table, awayTeam) + (match o case Home => 0 case Draw => 1 case Away => 3))
  {
    var after := Tally(table, homeTeam, awayTeam, o).value;
    TallyGrows(table, homeTeam, awayTeam, o);
    if homeTeam in Teams(table) {
      IndexSameShape(table, after, homeTeam);
    }
    if awayTeam in Teams(table) {
      IndexSameShape(table, after, awayTeam);
    }
    if o == Draw {
      var mid := AddPoints(table, homeTeam, 1);
      IndexSameShape(table, mid, awayTeam);
      IndexSameShape(table, mid, homeTeam);
    }
  }

  /** Where the team sits does not move when only tallies change. */
  lemma IndexSameShape(a: Table, b: Table, team: string)
    requires |a| == |b| && (forall k :: 0 <= k < |a| ==> b[k].team == a[k].team)
    requires team in Teams(a)
    ensures team in Teams(b) && IndexOf(b, team) == IndexOf(a, team)
  {
    var i := IndexOf(a, team);
    assert b[i] in b;
    IndexOfFirst(b, team, i);
  }

  lemma IndexOfFirst(t: Table, team: string, i: nat)
    requires i < |t| && t[i].team == team
    requires forall j :: 0 <= j < i ==> t[j].team != team
    ensures team in Teams(t) && IndexOf(t, team) == i
  {
    assert t[i] in t;
  }

  /**
   * The two new ratings of a simulated match: the expectation uses the ratings
   * plus 5 times form, the update moves the plain ratings with the simulator's
   * k-factor and the decay against "now". What one side gains the other loses, and
   * with a positive k-factor the winner gains.
   */
  function RatingUpdate(ratingHome: real, ratingAway: real, formHome: real, formAway: real, homeAdvantage: real,
                        o: Outcome, date: Day, c: Setup): (r: (real, real))
    ensures (r.0 - ratingHome) + (r.1 - ratingAway) == 0.0
    ensures c.kFactor > 0.0 && o == Home ==> r.0 > ratingHome && r.1 < ratingAway
    ensures c.kFactor > 0.0 && o == Away ==> r.0 < ratingHome && r.1 > ratingAway
  {
    var expectedHome := ExpectedScore(ratingHome + formHome * 5.0, ratingAway + formAway * 5.0, homeAdvantage, c.tm);
    var scores := OutcomeScores(o);
    var decayFactor := GetDecayFactor(c.kFactor, date, false, c.today, c.tm);
    OppositeScaled(c.kFactor * decayFactor, scores.0 - expectedHome, scores.1 - (1.0 - expectedHome));
    PositiveScaledWhen(c.kFactor, decayFactor);
    (UpdateRating(c.kFactor, ratingHome, scores.0, expectedHome, decayFactor),
     UpdateRating(c.kFactor, ratingAway, scores.1, 1.0 - expectedHome, decayFactor))
  }

  /** The probabilities of a match, with the head-to-head adjustment get_h2h_adjustment computes. */
  function MatchProbabilities(m: FutureMatch, c: Setup): Probabilities {
    var adjustment := DataManager.H2hAdjustment(DataManager.GetGamesBetweenTeams(c.history, m.homeTeam, m.awayTeam),
                                                m.homeTeam, c.kFactor, H2hFactor, c.today, c.tm);
    c.model(m.homeTeam, m.awayTeam, SimAdvantage(c.homeStrength, c.awayStrength, m.homeTeam, m.awayTeam), adjustment)
  }

  /** The teams of m have a rating and a gain window. */
  predicate Known(s: TrialState, m: FutureMatch) {
    m.homeTeam in s.ratings && m.awayTeam in s.ratings && m.homeTeam in s.gains && m.awayTeam in s.gains
  }

  /**
   * The new ratings, windows and form after match m ended with outcome o, and the
   * table `points` that the tally gave.
   */
  function Played(s: TrialState, m: FutureMatch, o: Outcome, points: Table, c: Setup): TrialState
    requires Known(s, m)
  {
    var homeTeam, awayTeam := m.homeTeam, m.awayTeam;
    var update := RatingUpdate(s.ratings[homeTeam], s.ratings[awayTeam], GetOr0(s.form, homeTeam), GetOr0(s.form, awayTeam),
                               SimAdvantage(c.homeStrength, c.awayStrength, homeTeam, awayTeam), o, m.date, c);
    var gains := AppendGains(s.gains, homeTeam, awayTeam, update.0 - s.ratings[homeTeam], update.1 - s.ratings[awayTeam]);
    TrialState(s.ratings[homeTeam := update.0][awayTeam := update.1],
               s.form[homeTeam := WeightedForm(gains[homeTeam], c.tm)][awayTeam := WeightedForm(gains[awayTeam], c.tm)],
               gains,
               points)
  }

  /**
   * One pass of the match loop's body: the trial state after match m with draw
   * `rand`, or KeyError when a team has no rating, no gain window, or (for a side
   * that scores) no entry in the table. The source checks these one at a time
   * (see PlayMatch); each failure ends the run with the same KeyError.
   */
  function Step(s: TrialState, m: FutureMatch, rand: real, c: Setup): (r: Result<TrialState>)
    ensures r.Err? ==> r.error == KeyError
  {
    var tally := Tally(s.points, m.homeTeam, m.awayTeam, PickOutcome(rand, MatchProbabilities(m, c)));
    if Known(s, m) && tally.Ok? then Ok(Played(s, m, PickOutcome(rand, MatchProbabilities(m, c)), tally.value, c))
    else Err(KeyError)
  }

  /** A step goes through exactly when both teams are known and the tally finds its teams, and it is then Played. */
  lemma StepIsPlayed(s: TrialState, m: FutureMatch, rand: real, c: Setup)
    ensures Step(s, m, rand, c).Ok?
        <==> Known(s, m) && Tally(s.points, m.homeTeam, m.awayTeam, PickOutcome(rand, MatchProbabilities(m, c))).Ok?
    ensures Step(s, m, rand, c).Ok? ==>
      Step(s, m, rand, c).value
        == Played(s, m, PickOutcome(rand, MatchProbabilities(m, c)),
                  Tally(s.points, m.homeTeam, m.awayTeam, PickOutcome(rand, MatchProbabilities(m, c))).value, c)
  {
  }

  /**
   * A played match changes only its two teams: every other rating, window and
   * form stays, and the teams with a rating or a window stay the same.
   */
  lemma PlayedFrame(s: TrialState, m: FutureMatch, o: Outcome, points: Table, c: Setup, team: string)
    requires Known(s, m)
    ensures var r := Played(s, m, o, points, c);
      && r.ratings.Keys == s.ratings.Keys && r.gains.Keys == s.gains.Keys
      && r.form.Keys == s.form.Keys + {m.homeTeam, m.awayTeam}
      && r.points == points
      && (team != m.homeTeam && team != m.awayTeam ==>
            && (team in s.ratings ==> r.ratings[team] == s.ratings[team])
            && (team in s.gains ==> r.gains[team] == s.gains[team])
            && (team in s.form ==> r.form[team] == s.form[team]))
  {
  }

  /**
   * The two gains of a played match cancel, and each team's new window is its old
   * one fed with its gain (the away gain last), its form the form of that window.
   */
  lemma PlayedGains(s: TrialState, m: FutureMatch, o: Outcome, points: Table, c: Setup)
    requires Known(s, m) && m.homeTeam != m.awayTeam
    ensures var r := Played(s, m, o, points, c);
      && (r.ratings[m.homeTeam] - s.ratings[m.homeTeam]) + (r.ratings[m.awayTeam] - s.ratings[m.awayTeam]) == 0.0
      && r.gains[m.homeTeam] == Window(s.gains[m.homeTeam] + [r.ratings[m.homeTeam] - s.ratings[m.homeTeam]])
      && r.gains[m.awayTeam] == Window(s.gains[m.awayTeam] + [r.ratings[m.awayTeam] - s.ratings[m.awayTeam]])
      && r.form[m.homeTeam] == WeightedForm(r.gains[m.homeTeam], c.tm)
      && r.form[m.awayTeam] == WeightedForm(r.gains[m.awayTeam], c.tm)
  {
    var homeTeam, awayTeam := m.homeTeam, m.awayTeam;
    var update := RatingUpdate(s.ratings[homeTeam], s.ratings[awayTeam], GetOr0(s.form, homeTeam), GetOr0(s.form, awayTeam),
                               SimAdvantage(c.homeStrength, c.awayStrength, homeTeam, awayTeam), o, m.date, c);
    var gainHome, gainAway := update.0 - s.ratings[homeTeam], update.1 - s.ratings[awayTeam];
    var gains := AppendGains(s.gains, homeTeam, awayTeam, gainHome, gainAway);
    var r := Played(s, m, o, points, c);
    assert r.ratings[homeTeam] == update.0 && r.ratings[awayTeam] == update.1;
    assert r.gains == gains;
    assert gains[homeTeam] == Window(s.gains[homeTeam] + [gainHome]);
    assert gains[awayTeam] == Window(s.gains[awayTeam] + [gainAway]);
  }

  /** With a positive k-factor the winner of a played match gains rating and the loser drops. */
  lemma PlayedWinnerGains(s: TrialState, m: FutureMatch, o: Outcome, points: Table, c: Setup)
    requires Known(s, m) && m.homeTeam != m.awayTeam && c.kFactor > 0.0
    ensures var r := Played(s, m, o, points, c);
      && (o == Home ==> r.ratings[m.homeTeam] > s.ratings[m.homeTeam] && r.ratings[m.awayTeam] < s.ratings[m.awayTeam])
      && (o == Away ==> r.ratings[m.homeTeam] < s.ratings[m.homeTeam] && r.ratings[m.awayTeam] > s.ratings[m.awayTeam])
  {
  }

  /** What team keeps from state a to state b: its rating, its window and its form. */
  ghost predicate KeptFor(a: TrialState, b: TrialState, team: string) {
    && (team in a.ratings ==> team in b.ratings && b.ratings[team] == a.ratings[team])
    && (team in a.gains ==> team in b.gains && b.gains[team] == a.gains[team])
    && (team in a.form ==> team in b.form && b.form[team] == a.form[team])
  }

  /**
   * From a to b the teams with a rating, a window or a table entry stay the same,
   * and every team other than the two of m keeps its state.
   */
  ghost predicate Kept(a: TrialState, b: TrialState, m: FutureMatch) {
    && b.ratings.Keys == a.ratings.Keys && b.gains.Keys == a.gains.Keys && Teams(b.points) == Teams(a.points)
    && forall team :: team != m.homeTeam && team != m.awayTeam ==> KeptFor(a, b, team)
  }

  /** A step keeps the teams with a rating, a window or a table entry, and every other team's state. */
  lemma StepFrame(s: TrialState, m: FutureMatch, rand: real, c: Setup)
    requires Step(s, m, rand, c).Ok?
    ensures Kept(s, Step(s, m, rand, c).value, m)
  {
    var o := PickOutcome(rand, MatchProbabilities(m, c));
    StepIsPlayed(s, m, rand, c);
    TallyGrows(s.points, m.homeTeam, m.awayTeam, o);
    forall team | team != m.homeTeam && team != m.awayTeam
      ensures KeptFor(s, Step(s, m, rand, c).value, team)
    {
      PlayedFrame(s, m, o, Tally(s.points, m.homeTeam, m.awayTeam, o).value, c, team);
    }
    PlayedFrame(s, m, o, Tally(s.points, m.homeTeam, m.awayTeam, o).value, c, m.homeTeam);
  }

  /** A step adds 2 points to the table for a draw and 3 otherwise, and lowers no tally. */
  lemma StepPoints(s: TrialState, m: FutureMatch, rand: real, c: Setup)
    requires Step(s, m, rand, c).Ok?
    ensures Grown(s.points, Step(s, m, rand, c).value.points)
    ensures Total(Step(s, m, rand, c).value.points) - Total(s.points)
         == (if PickOutcome(rand, MatchProbabilities(m, c)) == Draw then 2 else 3)
  {
    StepIsPlayed(s, m, rand, c);
    TallyGrows(s.points, m.homeTeam, m.awayTeam, PickOutcome(rand, MatchProbabilities(m, c)));
  }

  // ---------------------------------------------------------------------------
  // One trial
  // ---------------------------------------------------------------------------

  /** One match of a run: the state before it, the match, and its position in the run. */
  type Stepper = (TrialState, FutureMatch, nat) -> Result<TrialState>

  /** The simulator's step: the k-th match of a trial receives the draw draw(k). */
  function StepFn(draw: nat -> real, c: Setup): Stepper {
    (s: TrialState, m: FutureMatch, k: nat) => Step(s, m, draw(k), c)
  }

  /**
   * The trial state after the first n of the matches ms, each taken by `step` in
   * order; the first error ends the run.
   */
  function Run(s: TrialState, ms: seq<FutureMatch>, n: nat, step: Stepper): Result<TrialState>
    requires n <= |ms|
  {
    if n == 0 then Ok(s)
    else
      match Run(s, ms, n - 1, step)
      case Err(e) => Err(e)
      case Ok(before) => step(before, ms[n - 1], n - 1)
  }

  /** A whole trial over the matches ms, the k-th of them with draw draw(k). */
  function Trial(s: TrialState, ms: seq<FutureMatch>, draw: nat -> real, c: Setup): Result<TrialState> {
    Run(s, ms, |ms|, StepFn(draw, c))
  }

  /** Every failure of a step is a KeyError. */
  ghost predicate KeyErrorsOnly(step: Stepper) {
    forall s, m, k :: step(s, m, k).Err? ==> step(s, m, k).error == KeyError
  }

  /** Every completed step keeps the table's teams and order, lowers no tally, and adds 2 or 3 points. */
  ghost predicate Scores(step: Stepper) {
    forall s, m, k :: step(s, m, k).Ok? ==>
      && Grown(s.points, step(s, m, k).value.points)
      && Total(s.points) + 2 <= Total(step(s, m, k).value.points) <= Total(s.points) + 3
  }

  /** Every completed step keeps the state of the teams outside its match. */
  ghost predicate Untouched(step: Stepper) {
    forall s, m, k :: step(s, m, k).Ok? ==> Kept(s, step(s, m, k).value, m)
  }

  lemma StepFnProperties(draw: nat -> real, c: Setup)
    ensures KeyErrorsOnly(StepFn(draw, c))
    ensures Scores(StepFn(draw, c))
    ensures Untouched(StepFn(draw, c))
  {
    forall s, m, k | StepFn(draw, c)(s, m, k).Err?
      ensures StepFn(draw, c)(s, m, k).error == KeyError
    {
      assert StepFn(draw, c)(s, m, k) == Step(s, m, draw(k), c);
    }
    forall s, m, k | StepFn(draw, c)(s, m, k).Ok?
      ensures Grown(s.points, StepFn(draw, c)(s, m, k).value.points)
      ensures Total(s.points) + 2 <= Total(StepFn(draw, c)(s, m, k).value.points) <= Total(s.points) + 3
      ensures Kept(s, StepFn(draw, c)(s, m, k).value, m)
    {
      StepPoints(s, m, draw(k), c);
      StepFrame(s, m, draw(k), c);
    }
  }

  /** A run with steps that fail only with KeyError fails only with KeyError. */
  lemma {:induction false} RunKeyErrors(s: TrialState, ms: seq<FutureMatch>, n: nat, step: Stepper)
    requires n <= |ms| && KeyErrorsOnly(step)
    ensures Run(s, ms, n, step).Err? ==> Run(s, ms, n, step).error == KeyError
  {
    if n > 0 {
      RunKeyErrors(s, ms, n - 1, step);
    }
  }

  /** Once a match raises, the run's outcome is that error, whatever follows. */
  lemma {:induction false} RunErrorPersists(s: TrialState, ms: seq<FutureMatch>, n: nat, n': nat, step: Stepper)
    requires n <= n' <= |ms| && Run(s, ms, n, step).Err?
    ensures Run(s, ms, n', step) == Run(s, ms, n, step)
  {
    if n' > n {
      RunErrorPersists(s, ms, n, n' - 1, step);
    }
  }

  /**
   * A completed run of scoring steps keeps the table's teams and order, lowers no
   * tally, and adds between 2 and 3 points per match to the table.
   */
  lemma {:induction false} RunPoints(s: TrialState, ms: seq<FutureMatch>, n: nat, step: Stepper)
    requires n <= |ms| && Scores(step) && Run(s, ms, n, step).Ok?
    ensures Grown(s.points, Run(s, ms, n, step).value.points)
    ensures Total(s.points) + 2 * n <= Total(Run(s, ms, n, step).value.points) <= Total(s.points) + 3 * n
  {
    if n > 0 {
      RunPoints(s, ms, n - 1, step);
      var before := Run(s, ms, n - 1, step).value;
      GrownTransitive(s.points, before.points, Run(s, ms, n, step).value.points);
    }
  }

  /** The team plays none of the first n matches. */
  predicate Idle(ms: seq<FutureMatch>, n: nat, team: string)
    requires n <= |ms|
  {
    forall i :: 0 <= i < n ==> ms[i].homeTeam != team && ms[i].awayTeam != team
  }

  /** Through a completed run, a team that plays none of its matches keeps its rating, window and form. */
  lemma {:induction false} RunFrame(s: TrialState, ms: seq<FutureMatch>, n: nat, step: Stepper, team: string)
    requires n <= |ms| && Untouched(step) && Run(s, ms, n, step).Ok? && Idle(ms, n, team)
    ensures var r := Run(s, ms, n, step).value;
      && r.ratings.Keys == s.ratings.Keys && r.gains.Keys == s.gains.Keys && Teams(r.points) == Teams(s.points)
      && KeptFor(s, r, team)
  {
    if n > 0 {
      RunFrame(s, ms, n - 1, step, team);
      var before := Run(s, ms, n - 1, step).value;
      assert Kept(before, Run(s, ms, n, step).value, ms[n - 1]);
      assert KeptFor(before, Run(s, ms, n, step).value, team);
    }
  }

  /** A trial fails only with KeyError. */
  lemma TrialKeyErrors(s: TrialState, ms: seq<FutureMatch>, draw: nat -> real, c: Setup)
    ensures Trial(s, ms, draw, c).Err? ==> Trial(s, ms, draw, c).error == KeyError
  {
    StepFnProperties(draw, c);
    RunKeyErrors(s, ms, |ms|, StepFn(draw, c));
  }

  /** A completed trial keeps the table's teams and order, lowers no tally, and adds 2 to 3 points per match. */
  lemma TrialPoints(s: TrialState, ms: seq<FutureMatch>, draw: nat -> real, c: Setup)
    requires Trial(s, ms, draw, c).Ok?
    ensures Grown(s.points, Trial(s, ms, draw, c).value.points)
    ensures Total(s.points) + 2 * |ms| <= Total(Trial(s, ms, draw, c).value.points) <= Total(s.points) + 3 * |ms|
  {
    StepFnProperties(draw, c);
    RunPoints(s, ms, |ms|, StepFn(draw, c));
  }

  /** A team outside the trial's fixtures keeps its rating, window and form through a completed trial. */
  lemma TrialFrame(s: TrialState, ms: seq<FutureMatch>, draw: nat -> real, c: Setup, team: string)
    requires Trial(s, ms, draw, c).Ok? && team !in FutureTeams(ms)
    ensures var r := Trial(s, ms, draw, c).value;
      && r.ratings.Keys == s.ratings.Keys && r.gains.Keys == s.gains.Keys && Teams(r.points) == Teams(s.points)
      && (team in s.ratings ==> r.ratings[team] == s.ratings[team])
      && (team in s.gains ==> r.gains[team] == s.gains[team])
      && (team in s.form ==> team in r.form && r.form[team] == s.form[team])
  {
    forall i | 0 <= i < |ms| ensures ms[i].homeTeam != team && ms[i].awayTeam != team {
      assert ms[i] in ms;
    }
    StepFnProperties(draw, c);
    RunFrame(s, ms, |ms|, StepFn(draw, c), team);
  }

  // ---------------------------------------------------------------------------
  // The loops of one trial
  // ---------------------------------------------------------------------------

  /** The body of the match loop, on the trial's temp_* copies and team_points. */
  method PlayMatch(s: TrialState, m: FutureMatch, rand: real, c: Setup) returns (r: Result<TrialState>)
    ensures r == Step(s, m, rand, c)
  {
    var homeTeam, awayTeam := m.homeTeam, m.awayTeam;
    var adjustmentFactor := DataManager.GetH2hAdjustment(c.history, homeTeam, awayTeam, c.kFactor, H2hFactor, c.today, c.tm);
    if homeTeam !in s.ratings || awayTeam !in s.ratings {
      return Err(KeyError);
    }
    var homeAdvantage := SimAdvantage(c.homeStrength, c.awayStrength, homeTeam, awayTeam);
    var probabilities := c.model(homeTeam, awayTeam, homeAdvantage, adjustmentFactor);
    var teamPoints, result := TallyMatch(s.points, homeTeam, awayTeam, rand, probabilities);
    if teamPoints.Err? {
      return Err(KeyError);
    }
    if homeTeam !in s.gains || awayTeam !in s.gains {
      return Err(KeyError);
    }
    var next := UpdateTeams(s, m, result, teamPoints.value, homeAdvantage, c);
    r := Ok(next);
  }

  /** The draw against the probabilities and the `team_points[...] += ...` it leads to. */
  method TallyMatch(teamPoints: Table, homeTeam: string, awayTeam: string, rand: real, probabilities: Probabilities)
    returns (r: Result<Table>, result: Outcome)
    ensures result == PickOutcome(rand, probabilities)
    ensures r == Tally(teamPoints, homeTeam, awayTeam, result)
  {
    var points := teamPoints;
    if rand < probabilities.homeWin {
      result := Home;
      if homeTeam !in Teams(points) { return Err(KeyError), result; }
      points := AddPoints(points, homeTeam, 3);
    } else if rand < probabilities.homeWin + probabilities.draw {
      result := Draw;
      if homeTeam !in Teams(points) { return Err(KeyError), result; }
      points := AddPoints(points, homeTeam, 1);
      if awayTeam !in Teams(points) { return Err(KeyError), result; }
      points := AddPoints(points, awayTeam, 1);
    } else {
      result := Away;
      if awayTeam !in Teams(points) { return Err(KeyError), result; }
      points := AddPoints(points, awayTeam, 3);
    }
    r := Ok(points);
  }

  /** The rating update, the two gains pushed into their windows, and the two teams' new form. */
  method UpdateTeams(s: TrialState, m: FutureMatch, result: Outcome, teamPoints: Table, homeAdvantage: real, c: Setup)
    returns (next: TrialState)
    requires Known(s, m)
    requires homeAdvantage == SimAdvantage(c.homeStrength, c.awayStrength, m.homeTeam, m.awayTeam)
    ensures next == Played(s, m, result, teamPoints, c)
  {
    var tempRatings, tempForm, tempGains := s.ratings, s.form, s.gains;
    var homeTeam, awayTeam := m.homeTeam, m.awayTeam;
    var update := RatingUpdate(tempRatings[homeTeam], tempRatings[awayTeam], GetOr0(tempForm, homeTeam), GetOr0(tempForm, awayTeam),
                               homeAdvantage, result, m.date, c);
    var newRatingHome, newRatingAway := update.0, update.1;
    var gainHome := newRatingHome - tempRatings[homeTeam];
    var gainAway := newRatingAway - tempRatings[awayTeam];
    tempRatings := tempRatings[homeTeam := newRatingHome];
    tempRatings := tempRatings[awayTeam := newRatingAway];
    tempGains := tempGains[homeTeam := BoundedAppend(tempGains[homeTeam], gainHome)];
    tempGains := tempGains[awayTeam := BoundedAppend(tempGains[awayTeam], gainAway)];
    tempForm := tempForm[homeTeam := WeightedForm(tempGains[homeTeam], c.tm)];
    tempForm := tempForm[awayTeam := WeightedForm(tempGains[awayTeam], c.tm)];
    next := TrialState(tempRatings, tempForm, tempGains, teamPoints);
  }

  /**
   * `step` is the simulator's step where the k-th match receives draw(k). The
   * loops below are stated over such a step, which is why they take it as a ghost
   * parameter; Trial uses StepFn(draw, c), which is one (StepFnSimulates).
   */
  ghost predicate Simulates(step: Stepper, draw: nat -> real, c: Setup) {
    forall s, m, k {:trigger Step(s, m, draw(k), c)} :: step(s, m, k) == Step(s, m, draw(k), c)
  }

  lemma StepFnSimulates(draw: nat -> real, c: Setup)
    ensures Simulates(StepFn(draw, c), draw, c)
  {
  }

  /** The k-th match of a trial: PlayMatch with the k-th draw. */
  method PlayStep(s: TrialState, m: FutureMatch, k: nat, draw: nat -> real, c: Setup, ghost step: Stepper)
    returns (r: Result<TrialState>)
    requires Simulates(step, draw, c)
    ensures r == step(s, m, k)
  {
    r := PlayMatch(s, m, draw(k), c);
  }

  /**
   * The loop over one round's matches, which are the matches ms[offset..] of the
   * trial; the run has reached offset with state s.
   */
  method PlayRound(s0: TrialState, ghost ms: seq<FutureMatch>, offset: nat, matches: seq<FutureMatch>,
                   s: TrialState, draw: nat -> real, c: Setup, ghost step: Stepper) returns (r: Result<TrialState>)
    requires Simulates(step, draw, c) && offset + |matches| <= |ms|
    requires forall k :: 0 <= k < |matches| ==> ms[offset + k] == matches[k]
    requires Run(s0, ms, offset, step) == Ok(s)
    ensures r == Run(s0, ms, offset + |matches|, step)
  {
    var current := s;
    for k := 0 to |matches|
      invariant Run(s0, ms, offset + k, step) == Ok(current)
    {
      var next := PlayStep(current, matches[k], offset + k, draw, c, step);
      if next.Err? {
        RunErrorPersists(s0, ms, offset + k + 1, offset + |matches|, step);
        return next;
      }
      current := next.value;
    }
    r := Ok(current);
  }

  /** The loop over one season's rounds, whose matches are ms[offset..]. */
  method PlaySeason(s0: TrialState, ghost ms: seq<FutureMatch>, offset: nat, rounds: seq<Round<FutureMatch>>,
                    s: TrialState, draw: nat -> real, c: Setup, ghost step: Stepper) returns (r: Result<TrialState>)
    requires Simulates(step, draw, c) && offset + |RoundsMatches(rounds)| <= |ms|
    requires forall k :: 0 <= k < |RoundsMatches(rounds)| ==> ms[offset + k] == RoundsMatches(rounds)[k]
    requires Run(s0, ms, offset, step) == Ok(s)
    ensures r == Run(s0, ms, offset + |RoundsMatches(rounds)|, step)
  {
    var current := s;
    var played := offset;
    RoundsEnd(rounds);
    for j := 0 to |rounds|
      invariant played == offset + RoundsBefore(rounds, j) && RoundsBefore(rounds, j) <= |RoundsMatches(rounds)|
      invariant Run(s0, ms, played, step) == Ok(current)
    {
      RoundSpan(ms, offset, rounds, j);
      var next := PlayRound(s0, ms, played, rounds[j].matches, current, draw, c, step);
      played := played + |rounds[j].matches|;
      if next.Err? {
        RunErrorPersists(s0, ms, played, offset + |RoundsMatches(rounds)|, step);
        return next;
      }
      current := next.value;
    }
    r := Ok(current);
  }

  /** The loop over the seasons of the future fixtures: one whole run over their matches. */
  method PlaySeasons(s0: TrialState, fx: Fixtures<FutureMatch>, draw: nat -> real, c: Setup, ghost step: Stepper)
    returns (r: Result<TrialState>)
    requires Simulates(step, draw, c)
    ensures r == Run(s0, AllMatches(fx), |AllMatches(fx)|, step)
  {
    ghost var ms := AllMatches(fx);
    var current := s0;
    var played := 0;
    SeasonsEnd(fx);
    for i := 0 to |fx|
      invariant played == SeasonsBefore(fx, i) <= |ms|
      invariant Run(s0, ms, played, step) == Ok(current)
    {
      SeasonSpan(fx, i);
      var next := PlaySeason(s0, ms, played, fx[i].rounds, current, draw, c, step);
      played := played + |RoundsMatches(fx[i].rounds)|;
      if next.Err? {
        RunErrorPersists(s0, ms, played, |ms|, step);
        return next;
      }
      current := next.value;
    }
    r := Ok(current);
  }

  /** Trial t of a run from `start`, as a function value, so that the trial loop never unfolds a trial. */
  function TrialFn(start: TrialState, futureMatches: Fixtures<FutureMatch>, draws: nat -> nat -> real, c: Setup): nat -> Result<TrialState> {
    (t: nat) => Trial(start, AllMatches(futureMatches), draws(t), c)
  }

  /** `trial` is the run of trial t, for every t. */
  ghost predicate RunsTrials(trial: nat -> Result<TrialState>, start: TrialState, futureMatches: Fixtures<FutureMatch>,
                             draws: nat -> nat -> real, c: Setup) {
    forall t: nat {:trigger Trial(start, AllMatches(futureMatches), draws(t), c)} ::
      trial(t) == Trial(start, AllMatches(futureMatches), draws(t), c)
  }

  lemma TrialFnRunsTrials(start: TrialState, futureMatches: Fixtures<FutureMatch>, draws: nat -> nat -> real, c: Setup)
    ensures RunsTrials(TrialFn(start, futureMatches, draws, c), start, futureMatches, draws, c)
  {
  }

  /**
   * The trial loop of simulate_season_outcome_n_times: n trials from the same true
   * state, trial t with the draws draws(t), each final table recorded in order; the
   * first failing trial ends the loop with its error.
   */
  method RecordTrials(start: TrialState, futureMatches: Fixtures<FutureMatch>, n: nat, draws: nat -> nat -> real, c: Setup,
                      ghost trial: nat -> Result<TrialState>)
    returns (allSimulations: Result<seq<Table>>)
    requires RunsTrials(trial, start, futureMatches, draws, c)
    ensures allSimulations.Ok? <==> forall t :: 0 <= t < n ==> Trial(start, AllMatches(futureMatches), draws(t), c).Ok?
    ensures allSimulations.Ok? ==> |allSimulations.value| == n
    ensures allSimulations.Ok? ==> forall t :: 0 <= t < n ==>
      allSimulations.value[t] == Trial(start, AllMatches(futureMatches), draws(t), c).value.points
    ensures allSimulations.Err? ==> allSimulations.error == KeyError
  {
    var sims: seq<Table> := [];
    for t := 0 to n
      invariant |sims| == t
      invariant forall u :: 0 <= u < t ==> trial(u).Ok? && sims[u] == trial(u).value.points
    {
      var outcome := RunTrial(start.ratings, start.form, start.gains, start.points, futureMatches, draws, t, c, trial);
      if outcome.Err? {
        TrialKeyErrors(start, AllMatches(futureMatches), draws(t), c);
        return Err(outcome.error);
      }
      sims := sims + [outcome.value.points];
    }
    allSimulations := Ok(sims);
  }

  /** Trial t: private copies of the true state, then the nested season, round and match loops. */
  method RunTrial(trueRatings: map<string, real>, trueForm: map<string, real>, trueGains: map<string, GainWindow>,
                  table: Table, futureMatches: Fixtures<FutureMatch>, draws: nat -> nat -> real, t: nat, c: Setup,
                  ghost trial: nat -> Result<TrialState>)
    returns (r: Result<TrialState>)
    requires RunsTrials(trial, TrialState(trueRatings, trueForm, trueGains, table), futureMatches, draws, c)
    ensures r == Trial(TrialState(trueRatings, trueForm, trueGains, table), AllMatches(futureMatches), draws(t), c)
    ensures r == trial(t)
  {
    var tempRatings := trueRatings;
    var tempForm := trueForm;
    var tempGains := map g | g in trueGains :: Window(trueGains[g]);
    assert tempGains == trueGains;
    var teamPoints := table;
    StepFnSimulates(draws(t), c);
    r := PlaySeasons(TrialState(tempRatings, tempForm, tempGains, teamPoints), futureMatches, draws(t), c, StepFn(draws(t), c));
  }

  // ---------------------------------------------------------------------------
  // The simulator object
  // ---------------------------------------------------------------------------

  /** The result calculate_specific_game prints: the two ratings it forms, the advantage, the adjustment, the probabilities. */
  datatype SpecificGame = SpecificGame(homeRating: real, awayRating: real, homeAdvantage: real, adjustment: real, probabilities: Probabilities)

  class Simulator {
    const eloModel: EloRatingSystem
    const leagueId: int
    const kFactor: real
    const futureMatches: Fixtures<FutureMatch>
    const homeStrength: map<string, real>
    const awayStrength: map<string, real>
    /** The matches table get_h2h_adjustment reads, and the day datetime.now() returns. */
    const history: seq<Game>
    const today: Day
    const model: ProbabilityModel

    /**
     * Simulator(league_id): an engine over the league's data, run over every played
     * game, and the strength maps read off it.
     */
    constructor(leagueId: int, initialRating: real, kFactor: real, teamElos: map<string, real>, teamStrengths: map<string, Strength>,
                matchRows: seq<DataManager.Row<Game>>, futureRows: seq<(string, FutureMatch)>, tm: Transcendentals,
                history: seq<Game>, today: Day, model: ProbabilityModel)
      requires Lawful(tm)
      ensures fresh(eloModel) && eloModel.Valid()
      ensures eloModel.tm == tm && eloModel.teamStrengths == teamStrengths && eloModel.kFactor == kFactor
      ensures eloModel.initialRating == initialRating
      ensures WellFormed(eloModel.fixtures) && DataManager.InQueryOrder(eloModel.fixtures, matchRows)
      ensures forall s, rn :: Bucket(eloModel.fixtures, s, rn) == DataManager.RowsIn(matchRows, s, rn)
      ensures WellFormed(futureMatches) && |futureMatches| == 1 && futureMatches[0].name == "2025"
      ensures forall rn :: Bucket(futureMatches, "2025", rn) == DataManager.RowsIn(DataManager.FutureRows(futureRows), "2025", rn)
      ensures DataManager.RoundsInOrder(futureMatches[0].rounds, DataManager.RoundLabels(DataManager.FutureRows(futureRows), "2025"))
      ensures (eloModel.teamForm, eloModel.gains) == InitFormOf(teamElos, teamStrengths, eloModel.fixtures, initialRating, kFactor, tm)
      ensures eloModel.teamRatings == ProcessGames(InitializedRatings(teamElos, teamStrengths, eloModel.fixtures, eloModel.futureMatches, initialRating),
                                                   teamStrengths, AllMatches(eloModel.fixtures), initialRating, kFactor, tm)
      ensures this.leagueId == leagueId && this.kFactor == kFactor && futureMatches == eloModel.futureMatches
      ensures homeStrength == HomeStrengths(teamStrengths) && awayStrength == AwayStrengths(teamStrengths)
      ensures this.history == history && this.today == today && this.model == model
    {
      var engine := new EloRatingSystem(initialRating, kFactor, teamElos, teamStrengths, matchRows, futureRows, tm);
      engine.RunEloRatingSystem();
      eloModel := engine;
      this.leagueId := leagueId;
      this.kFactor := engine.kFactor;
      futureMatches := engine.futureMatches;
      homeStrength := HomeStrengths(engine.teamStrengths);
      awayStrength := AwayStrengths(engine.teamStrengths);
      this.history := history;
      this.today := today;
      this.model := model;
    }

    /** The settings every trial shares. */
    function Config(): Setup
      requires Lawful(eloModel.tm)
    {
      Setup(kFactor, homeStrength, awayStrength, history, today, model, eloModel.tm)
    }

    /** true_ratings, true_form and true_gains (each window copied as a deque(maxlen=3)), with the table. */
    function Start(table: Table): (s: TrialState)
      reads eloModel
    {
      TrialState(eloModel.teamRatings, eloModel.teamForm, map t | t in eloModel.gains :: Window(eloModel.gains[t]), table)
    }

    /** Trial t of a run: the future fixtures from the engine's current state and the table. */
    function TrialOutcome(table: Table, draws: nat -> nat -> real, t: nat): Result<TrialState>
      requires Lawful(eloModel.tm)
      reads eloModel
    {
      Trial(Start(table), AllMatches(futureMatches), draws(t), Config())
    }

    /**
     * simulate_season_outcome_n_times: n trials, each from fresh copies of the
     * engine's ratings, form and windows and from the table get_table returns,
     * recording each trial's final table. The engine itself is not written.
     */
    method SimulateSeasonOutcomeNTimes(n: nat, table: Table, draws: nat -> nat -> real) returns (allSimulations: Result<seq<Table>>)
      requires Lawful(eloModel.tm)
      ensures allSimulations.Ok? <==> forall t :: 0 <= t < n ==> TrialOutcome(table, draws, t).Ok?
      ensures allSimulations.Ok? ==> |allSimulations.value| == n
      ensures allSimulations.Ok? ==> forall t :: 0 <= t < n ==> allSimulations.value[t] == TrialOutcome(table, draws, t).value.points
      ensures allSimulations.Err? ==> allSimulations.error == KeyError
      ensures eloModel.teamRatings == old(eloModel.teamRatings) && eloModel.teamForm == old(eloModel.teamForm)
      ensures eloModel.gains == old(eloModel.gains)
    {
      var trueRatings := eloModel.teamRatings;
      var trueForm := eloModel.teamForm;
      var trueGains := map t | t in eloModel.gains :: Window(eloModel.gains[t]);
      var start := TrialState(trueRatings, trueForm, trueGains, table);
      assert start == Start(table);
      TrialFnRunsTrials(start, futureMatches, draws, Config());
      allSimulations := RecordTrials(start, futureMatches, n, draws, Config(), TrialFn(start, futureMatches, draws, Config()));
      assert forall t :: TrialOutcome(table, draws, t) == Trial(start, AllMatches(futureMatches), draws(t), Config());
    }

    /**
     * calculate_specific_game: ratings with the plain form added (default the
     * engine's initial rating and form 0), the simulator's home advantage, and
     * 25 times the head-to-head adjustment.
     */
    function CalculateSpecificGame(homeTeam: string, awayTeam: string): (r: SpecificGame)
      requires Lawful(eloModel.tm)
      reads eloModel
      ensures r.homeRating == RatingOf(eloModel.teamRatings, homeTeam, eloModel.initialRating) + GetOr0(eloModel.teamForm, homeTeam)
      ensures r.awayRating == RatingOf(eloModel.teamRatings, awayTeam, eloModel.initialRating) + GetOr0(eloModel.teamForm, awayTeam)
      ensures r.homeAdvantage == SimAdvantage(homeStrength, awayStrength, homeTeam, awayTeam)
      ensures r.adjustment == DataManager.H2hAdjustment(DataManager.GetGamesBetweenTeams(history, homeTeam, awayTeam),
                                                        homeTeam, kFactor, H2hFactor, today, eloModel.tm) * 25.0
      ensures r.probabilities == model(homeTeam, awayTeam, r.homeAdvantage, r.adjustment)
    {
      var homeRating := RatingOf(eloModel.teamRatings, homeTeam, eloModel.initialRating) + GetOr0(eloModel.teamForm, homeTeam);
      var awayRating := RatingOf(eloModel.teamRatings, awayTeam, eloModel.initialRating) + GetOr0(eloModel.teamForm, awayTeam);
      var homeAdvantage := SimAdvantage(homeStrength, awayStrength, homeTeam, awayTeam);
      var adjustment := DataManager.H2hAdjustment(DataManager.GetGamesBetweenTeams(history, homeTeam, awayTeam),
                                                  homeTeam, kFactor, H2hFactor, today, eloModel.tm) * 25.0;
      SpecificGame(homeRating, awayRating, homeAdvantage, adjustment, model(homeTeam, awayTeam, homeAdvantage, adjustment))
    }

    /** The adjustment calculate_specific_game reports is at most 25 times the head-to-head factor times the largest decayed result. */
    lemma SpecificGameAdjustmentBounded(homeTeam: string, awayTeam: string)
      requires Lawful(eloModel.tm) && kFactor >= 0.0
      ensures Abs(CalculateSpecificGame(homeTeam, awayTeam).adjustment) <= 25.0 * H2hFactor * MaxDecay(kFactor, eloModel.tm)
    {
      var games := DataManager.GetGamesBetweenTeams(history, homeTeam, awayTeam);
      DataManager.H2hAdjustmentBounded(games, homeTeam, kFactor, H2hFactor, today, eloModel.tm);
    }

    /** Swapping the two teams of calculate_specific_game negates its head-to-head adjustment. */
    lemma SpecificGameAdjustmentAntisymmetric(homeTeam: string, awayTeam: string)
      requires Lawful(eloModel.tm) && homeTeam != awayTeam
      ensures CalculateSpecificGame(awayTeam, homeTeam).adjustment == -CalculateSpecificGame(homeTeam, awayTeam).adjustment
    {
      DataManager.H2hAdjustmentAntisymmetric(history, homeTeam, awayTeam, kFactor, H2hFactor, today, eloModel.tm);
    }
  }
}
