/**
 * The newer rating engine (src/elo_system.py): the Elo update rule with league
 * weights, time decay and home advantage; starting ratings by league; the form
 * tracker, which keeps a window of each team's three latest rating gains and
 * weighs it by ln(i^2 + 1); and the blended match probabilities.
 */
module EloSystem {
  import opened Wrappers
  import opened Numerics
  import opened Fixtures
  import opened Helper
  import DataManager

  /** Starting rating per league: Eliteserien, OBOS-ligaen, 2. divisjon. */
  const LeagueInitialRatings: map<int, real> := map[103 := 1500.0, 104 := 1300.0, 105 := 1250.0]

  /** K-factor weight per league; a league not listed weighs 1.0. */
  const LeagueWeights: map<int, real> := map[103 := 1.0, 104 := 0.75]

  /** The league assumed for a team that is not found in the 2024 season. */
  const DefaultLeague: int := 105

  /** A team's home and away strength, as get_team_strengths returns them. */
  datatype Strength = Strength(home: real, away: real)

  // ---------------------------------------------------------------------------
  // The rating update rule
  // ---------------------------------------------------------------------------

  /** The logistic expected score of a team rated ratingA against one rated ratingB. */
  function ExpectedScore(ratingA: real, ratingB: real, homeFieldAdvantage: real, tm: Transcendentals): (r: real)
    requires Lawful(tm)
    ensures 0.0 < r < 1.0
  {
    var exponent := (ratingB - ratingA + homeFieldAdvantage) / 400.0;
    1.0 / (1.0 + tm.pow10(exponent))
  }

  /** Seen from the other side, with the advantage negated, the two expectations add up to 1. */
  lemma ExpectedScoreComplement(ratingA: real, ratingB: real, homeFieldAdvantage: real, tm: Transcendentals)
    requires Lawful(tm)
    ensures ExpectedScore(ratingA, ratingB, homeFieldAdvantage, tm)
          + ExpectedScore(ratingB, ratingA, -homeFieldAdvantage, tm) == 1.0
  {
    var x := (ratingB - ratingA + homeFieldAdvantage) / 400.0;
    assert (ratingA - ratingB + -homeFieldAdvantage) / 400.0 == -x;
    assert Pow10Inverse(tm, x);
    ReciprocalsComplement(tm.pow10(x), tm.pow10(-x));
  }

  /**
   * The new rating: the old one moved by adjustedK * decay times the surprise
   * (actual - expected). With a positive step the rating rises exactly when the
   * team did better than expected, falls exactly when it did worse.
   */
  function UpdateRating(adjustedK: real, currentRating: real, actualScore: real, expectedScore: real, decayFactor: real): (r: real)
    ensures actualScore == expectedScore ==> r == currentRating
    ensures adjustedK * decayFactor > 0.0 ==> (r > currentRating <==> actualScore > expectedScore)
    ensures adjustedK * decayFactor > 0.0 ==> (r < currentRating <==> actualScore < expectedScore)
  {
    PositiveScaledWhen(adjustedK * decayFactor, actualScore - expectedScore);
    currentRating + adjustedK * decayFactor * (actualScore - expectedScore)
  }

  lemma PositiveScaledWhen(c: real, x: real)
    ensures c > 0.0 ==> (c * x > 0.0 <==> x > 0.0) && (c * x < 0.0 <==> x < 0.0)
  {
    if c > 0.0 { PositiveScaled(c, x); }
  }

  /**
   * actual_home, actual_away from the goals: a goal difference beyond the 0.12
   * margin (so, on whole goals, any win) scores 1 and 0, anything else 0.5 each.
   */
  function ActualScores(homeGoals: int, awayGoals: int): (r: (real, real))
    ensures r.0 + r.1 == 1.0
    ensures homeGoals > awayGoals <==> r == (1.0, 0.0)
    ensures homeGoals < awayGoals <==> r == (0.0, 1.0)
    ensures homeGoals == awayGoals <==> r == (0.5, 0.5)
  {
    var diff := (homeGoals - awayGoals) as real;
    if diff > 0.12 then (1.0, 0.0)
    else if diff < -0.12 then (0.0, 1.0)
    else (0.5, 0.5)
  }

  /** `team_strengths.get(team, {}).get('home', 1)`: a team without strengths counts as 1. */
  function HomeStrength(strengths: map<string, Strength>, team: string): real {
    if team in strengths then strengths[team].home else 1.0
  }

  function AwayStrength(strengths: map<string, Strength>, team: string): real {
    if team in strengths then strengths[team].away else 1.0
  }

  /**
   * `hfa + (hfa - afa) / 2` with hfa, afa the home team's home strength and the away
   * team's away strength scaled by 100: 150 per unit of the first, -50 per unit of the
   * second, so 100 when neither team has strengths.
   */
  function HomeAdvantage(strengths: map<string, Strength>, homeTeam: string, awayTeam: string): (r: real)
    ensures r == 150.0 * HomeStrength(strengths, homeTeam) - 50.0 * AwayStrength(strengths, awayTeam)
    ensures homeTeam !in strengths && awayTeam !in strengths ==> r == 100.0
  {
    var hfa := HomeStrength(strengths, homeTeam) * 100.0;
    var afa := AwayStrength(strengths, awayTeam) * 100.0;
    hfa + (hfa - afa) / 2.0
  }

  /** `league_weights.get(league_id, 1.0)`: 0.75 for OBOS-ligaen, 1.0 for every other league. */
  function LeagueWeight(leagueId: int): (r: real)
    ensures r == (if leagueId == 104 then 0.75 else 1.0)
  {
    if leagueId in LeagueWeights then LeagueWeights[leagueId] else 1.0
  }

  /** `team_ratings.get(team, initial_rating)`. */
  function RatingOf(ratings: map<string, real>, team: string, initialRating: real): real {
    if team in ratings then ratings[team] else initialRating
  }

  /**
   * The two new ratings process_game computes for game g from the two current
   * ratings: both sides share adjusted_k and the decay, and the away expectation
   * is 1 minus the home one, so what one side gains the other loses.
   */
  function GameUpdate(ratingHome: real, ratingAway: real, strengths: map<string, Strength>, g: Game, kFactor: real, tm: Transcendentals): (r: (real, real))
    requires Lawful(tm)
    ensures (r.0 - ratingHome) + (r.1 - ratingAway) == 0.0
  {
    var homeAdvantage := HomeAdvantage(strengths, g.homeTeam, g.awayTeam);
    var expectedHome := ExpectedScore(ratingHome, ratingAway, homeAdvantage, tm);
    var expectedAway := 1.0 - expectedHome;
    var (actualHome, actualAway) := ActualScores(g.homeGoals, g.awayGoals);
    var adjustedK := kFactor * LeagueWeight(g.leagueId);
    // process_game asks for the decay against the fixed reference date, so "now" plays no part.
    var decayFactor := GetDecayFactor(adjustedK, g.date, true, FixedReferenceDay, tm);
    OppositeScaled(adjustedK * decayFactor, actualHome - expectedHome, actualAway - expectedAway);
    (UpdateRating(adjustedK, ratingHome, actualHome, expectedHome, decayFactor),
     UpdateRating(adjustedK, ratingAway, actualAway, expectedAway, decayFactor))
  }

  /** With a positive k-factor, the team that won the game gains rating and the loser loses it. */
  lemma WinnerGains(ratingHome: real, ratingAway: real, strengths: map<string, Strength>, g: Game, kFactor: real, tm: Transcendentals)
    requires Lawful(tm) && kFactor > 0.0
    ensures g.homeGoals > g.awayGoals ==> GameUpdate(ratingHome, ratingAway, strengths, g, kFactor, tm).0 > ratingHome
    ensures g.homeGoals < g.awayGoals ==> GameUpdate(ratingHome, ratingAway, strengths, g, kFactor, tm).1 > ratingAway
  {
    var adjustedK := kFactor * LeagueWeight(g.leagueId);
    var decayFactor := GetDecayFactor(adjustedK, g.date, true, FixedReferenceDay, tm);
    assert adjustedK > 0.0;
    assert decayFactor > 0.0;
    PositiveScaled(adjustedK, decayFactor);
  }

  /**
   * team_ratings after process_game(g): unseen teams are entered at the initial
   * rating, then the two teams get their new ratings; every other entry stays.
   */
  function ProcessGameRatings(ratings: map<string, real>, strengths: map<string, Strength>, g: Game, initialRating: real, kFactor: real, tm: Transcendentals): (r: map<string, real>)
    requires Lawful(tm)
    ensures r.Keys == ratings.Keys + {g.homeTeam, g.awayTeam}
    ensures forall t :: t in ratings && t != g.homeTeam && t != g.awayTeam ==> r[t] == ratings[t]
  {
    var seeded := Seed(Seed(ratings, g.homeTeam, initialRating), g.awayTeam, initialRating);
    var (newHome, newAway) := GameUpdate(seeded[g.homeTeam], seeded[g.awayTeam], strengths, g, kFactor, tm);
    seeded[g.homeTeam := newHome][g.awayTeam := newAway]
  }

  /** `if team not in team_ratings: team_ratings[team] = initial_rating`. */
  function Seed(ratings: map<string, real>, team: string, initialRating: real): (r: map<string, real>)
    ensures r.Keys == ratings.Keys + {team}
    ensures forall t :: t in r ==> r[t] == RatingOf(ratings, t, initialRating)
  {
    if team in ratings then ratings else ratings[team := initialRating]
  }

  /** Between two distinct teams, process_game moves rating from one to the other. */
  lemma ProcessGameZeroSum(ratings: map<string, real>, strengths: map<string, Strength>, g: Game, initialRating: real, kFactor: real, tm: Transcendentals)
    requires Lawful(tm)
    ensures var r := ProcessGameRatings(ratings, strengths, g, initialRating, kFactor, tm);
      g.homeTeam != g.awayTeam ==>
      (r[g.homeTeam] - RatingOf(ratings, g.homeTeam, initialRating))
      + (r[g.awayTeam] - RatingOf(ratings, g.awayTeam, initialRating)) == 0.0
  {
  }

  /** A team process_game has not seen plays exactly as if it had been rated initial_rating. */
  lemma UnseenTeamsStartAtInitial(ratings: map<string, real>, strengths: map<string, Strength>, g: Game, initialRating: real, kFactor: real, tm: Transcendentals)
    requires Lawful(tm)
    ensures var seeded := map t | t in ratings.Keys + {g.homeTeam, g.awayTeam} :: RatingOf(ratings, t, initialRating);
      ProcessGameRatings(ratings, strengths, g, initialRating, kFactor, tm)
        == ProcessGameRatings(seeded, strengths, g, initialRating, kFactor, tm)
  {
    var seeded := map t | t in ratings.Keys + {g.homeTeam, g.awayTeam} :: RatingOf(ratings, t, initialRating);
    assert Seed(Seed(ratings, g.homeTeam, initialRating), g.awayTeam, initialRating) == seeded;
    assert Seed(Seed(seeded, g.homeTeam, initialRating), g.awayTeam, initialRating) == seeded;
  }

  /** team_ratings after processing the games ms in order. */
  function ProcessGames(ratings: map<string, real>, strengths: map<string, Strength>, ms: seq<Game>, initialRating: real, kFactor: real, tm: Transcendentals): (r: map<string, real>)
    requires Lawful(tm)
    ensures r.Keys == ratings.Keys + GameTeams(ms)
  {
    if ms == [] then ratings
    else
      GameTeamsStep(ms, |ms| - 1);
      assert ms[..|ms|] == ms;
      ProcessGameRatings(ProcessGames(ratings, strengths, ms[..|ms| - 1], initialRating, kFactor, tm), strengths, ms[|ms| - 1], initialRating, kFactor, tm)
  }

  /** A team that plays none of the games keeps its rating. */
  lemma {:induction false} ProcessGamesFrame(ratings: map<string, real>, strengths: map<string, Strength>, ms: seq<Game>, team: string, initialRating: real, kFactor: real, tm: Transcendentals)
    requires Lawful(tm) && team in ratings && team !in GameTeams(ms)
    ensures ProcessGames(ratings, strengths, ms, initialRating, kFactor, tm)[team] == ratings[team]
  {
    if ms != [] {
      GameTeamsStep(ms, |ms| - 1);
      assert ms[..|ms|] == ms;
      ProcessGamesFrame(ratings, strengths, ms[..|ms| - 1], team, initialRating, kFactor, tm);
    }
  }

  /** Processing a + b is processing a, then b from where a left the ratings. */
  lemma {:induction false} ProcessGamesAppend(ratings: map<string, real>, strengths: map<string, Strength>, a: seq<Game>, b: seq<Game>, initialRating: real, kFactor: real, tm: Transcendentals)
    requires Lawful(tm)
    ensures ProcessGames(ratings, strengths, a + b, initialRating, kFactor, tm)
         == ProcessGames(ProcessGames(ratings, strengths, a, initialRating, kFactor, tm), strengths, b, initialRating, kFactor, tm)
  {
    if b == [] {
      assert a + b == a;
    } else {
      var init, last := b[..|b| - 1], b[|b| - 1];
      assert b == init + [last];
      assert a + b == (a + init) + [last];
      ProcessGamesAppend(ratings, strengths, a, init, initialRating, kFactor, tm);
      ProcessGamesSnoc(ratings, strengths, a + init, last, initialRating, kFactor, tm);
      ProcessGamesSnoc(ProcessGames(ratings, strengths, a, initialRating, kFactor, tm), strengths, init, last, initialRating, kFactor, tm);
    }
  }

  lemma ProcessGamesSnoc(ratings: map<string, real>, strengths: map<string, Strength>, ms: seq<Game>, g: Game, initialRating: real, kFactor: real, tm: Transcendentals)
    requires Lawful(tm)
    ensures ProcessGames(ratings, strengths, ms + [g], initialRating, kFactor, tm)
         == ProcessGameRatings(ProcessGames(ratings, strengths, ms, initialRating, kFactor, tm), strengths, g, initialRating, kFactor, tm)
  {
    assert (ms + [g])[..|ms|] == ms;
  }

  lemma ProcessGamesStep(ratings: map<string, real>, strengths: map<string, Strength>, ms: seq<Game>, k: nat, initialRating: real, kFactor: real, tm: Transcendentals)
    requires Lawful(tm) && k < |ms|
    ensures ProcessGames(ratings, strengths, ms[..k + 1], initialRating, kFactor, tm)
         == ProcessGameRatings(ProcessGames(ratings, strengths, ms[..k], initialRating, kFactor, tm), strengths, ms[k], initialRating, kFactor, tm)
  {
    assert ms[..k + 1][..k] == ms[..k];
  }

  // ---------------------------------------------------------------------------
  // Starting ratings by league
  // ---------------------------------------------------------------------------

  /** The matches of the season called "2024", or none (`fixtures.get("2024", {})`). */
  function Season2024(fixtures: Fixtures<Game>): seq<Game> {
    match SeasonIndex(fixtures, "2024")
    case None => []
    case Some(i) => RoundsMatches(fixtures[i].rounds)
  }

  /**
   * team_league_map: each team's upper-cased name mapped to the league of the last
   * match it played in ms.
   */
  function LeagueMap(ms: seq<Game>): (r: map<string, int>)
    ensures r.Keys == UpperNames(ms)
    ensures forall t :: t in r ==> r[t] in Leagues(ms)
  {
    if ms == [] then map[]
    else
      var m := ms[|ms| - 1];
      assert ms == ms[..|ms| - 1] + [m];
      LeagueMap(ms[..|ms| - 1])[Upper(m.homeTeam) := m.leagueId][Upper(m.awayTeam) := m.leagueId]
  }

  /** The upper-cased names of the teams of ms. */
  function UpperNames(ms: seq<Game>): (r: set<string>)
    ensures forall t :: t in r ==> IsUpper(t)
  {
    (set m | m in ms :: Upper(m.homeTeam)) + (set m | m in ms :: Upper(m.awayTeam))
  }

  /** The leagues of the matches ms. */
  function Leagues(ms: seq<Game>): set<int> {
    set m | m in ms :: m.leagueId
  }

  lemma LeagueMapStep(ms: seq<Game>, k: nat)
    requires k < |ms|
    ensures LeagueMap(ms[..k + 1]) == LeagueMap(ms[..k])[Upper(ms[k].homeTeam) := ms[k].leagueId][Upper(ms[k].awayTeam) := ms[k].leagueId]
  {
    assert ms[..k + 1][..k] == ms[..k];
  }

  /**
   * The rating initialize_team_ratings gives a team: that of its league in the map,
   * looked up by the name as it is (not upper-cased), DefaultLeague when absent,
   * and initial_rating for a league with no listed rating.
   */
  function BaseRating(leagueMap: map<string, int>, team: string, initialRating: real): (r: real)
    ensures team !in leagueMap ==> r == 1250.0
    ensures team in leagueMap && leagueMap[team] in LeagueInitialRatings ==> r == LeagueInitialRatings[leagueMap[team]]
    ensures team in leagueMap && leagueMap[team] !in LeagueInitialRatings ==> r == initialRating
  {
    var leagueId := if team in leagueMap then leagueMap[team] else DefaultLeague;
    if leagueId in LeagueInitialRatings then LeagueInitialRatings[leagueId] else initialRating
  }

  /** Every team with strengths, a played match or a future match. */
  function AllTeams(strengths: map<string, Strength>, fixtures: Fixtures<Game>, future: Fixtures<FutureMatch>): set<string> {
    strengths.Keys + GameTeams(AllMatches(fixtures)) + FutureTeams(AllMatches(future))
  }

  /** team_ratings after initialize_team_ratings. */
  function InitializedRatings(ratings: map<string, real>, strengths: map<string, Strength>, fixtures: Fixtures<Game>, future: Fixtures<FutureMatch>, initialRating: real): map<string, real> {
    Rebased(ratings, AllTeams(strengths, fixtures, future), LeagueMap(Season2024(fixtures)), initialRating)
  }

  /**
   * `ratings` with every team of `teams` set to its base rating: the teams are
   * added, each gets its league's rating, and no other entry changes.
   */
  function Rebased(ratings: map<string, real>, teams: set<string>, leagueMap: map<string, int>, initialRating: real): (r: map<string, real>)
    ensures r.Keys == ratings.Keys + teams
    ensures forall t :: t in teams ==> r[t] == BaseRating(leagueMap, t, initialRating)
    ensures forall t :: t in ratings && t !in teams ==> r[t] == ratings[t]
  {
    map t | t in ratings.Keys + teams :: if t in teams then BaseRating(leagueMap, t, initialRating) else ratings[t]
  }

  /**
   * The map is keyed by upper-cased names but read with the name as given, so a
   * team whose name has a lower-case letter starts at the 2. divisjon rating,
   * whatever league it played in in 2024.
   */
  lemma MixedCaseNameGetsDefault(ms: seq<Game>, team: string, initialRating: real)
    requires !IsUpper(team)
    ensures BaseRating(LeagueMap(ms), team, initialRating) == 1250.0
  {
  }

  /** When every 2024 match is in one listed league, every upper-case team of that season starts at its rating. */
  lemma UpperCaseNameGetsLeagueRating(ms: seq<Game>, m: Game, leagueId: int, initialRating: real)
    requires forall p :: p in ms ==> p.leagueId == leagueId
    requires leagueId in LeagueInitialRatings
    requires m in ms && IsUpper(m.homeTeam)
    ensures BaseRating(LeagueMap(ms), m.homeTeam, initialRating) == LeagueInitialRatings[leagueId]
  {
    UpperFixesUpper(m.homeTeam);
    assert m.homeTeam in UpperNames(ms);
    assert Leagues(ms) == {leagueId};
  }

  // ---------------------------------------------------------------------------
  // The form tracker
  // ---------------------------------------------------------------------------

  /** The latest 3 elements of xs: what a deque(maxlen=3) fed with xs holds (a form window). */
  function Window(xs: seq<real>): (r: seq<real>)
    ensures |r| <= 3
    ensures |xs| <= 3 ==> r == xs
    ensures |xs| > 3 ==> r == xs[|xs| - 3..]
  {
    if |xs| <= 3 then xs else xs[|xs| - 3..]
  }

  /** `window.append(x)` on a full or partial deque(maxlen=3): the oldest gain drops out. */
  function BoundedAppend(window: seq<real>, x: real): (r: seq<real>)
    requires |window| <= 3
    ensures r == Window(window + [x])
    ensures |r| <= 3 && r[|r| - 1] == x
  {
    if |window| < 3 then window + [x] else window[1..] + [x]
  }

  /** Feeding a deque after it has dropped old elements gives what feeding it everything gives. */
  lemma WindowAppend(xs: seq<real>, x: real)
    ensures Window(Window(xs) + [x]) == Window(xs + [x])
  {
    if |xs| > 3 {
      assert Window(xs) + [x] == xs[|xs| - 3..] + [x];
      assert (xs[|xs| - 3..] + [x])[|Window(xs) + [x]| - 3..] == (xs + [x])[|xs + [x]| - 3..];
    }
  }

  /** Both windows after a match: the home gain goes in first, then the away gain. */
  function AppendGains(windows: map<string, seq<real>>, homeTeam: string, awayTeam: string, gainHome: real, gainAway: real): (r: map<string, seq<real>>)
    requires homeTeam in windows && awayTeam in windows
    requires forall t :: t in windows ==> |windows[t]| <= 3
    ensures r.Keys == windows.Keys
    ensures forall t :: t in r ==> |r[t]| <= 3
    ensures forall t :: t in windows && t != homeTeam && t != awayTeam ==> r[t] == windows[t]
  {
    var w := windows[homeTeam := BoundedAppend(windows[homeTeam], gainHome)];
    w[awayTeam := BoundedAppend(w[awayTeam], gainAway)]
  }

  /** The windows when update_form raises at the away append: the home gain is in, if the home team has a window. */
  function HomeAppended(windows: map<string, seq<real>>, homeTeam: string, gainHome: real): (r: map<string, seq<real>>)
    requires forall t :: t in windows ==> |windows[t]| <= 3
    ensures r.Keys == windows.Keys
    ensures forall t :: t in r ==> |r[t]| <= 3
    ensures forall t :: t in windows && t != homeTeam ==> r[t] == windows[t]
    ensures homeTeam in windows ==> r[homeTeam] == Window(windows[homeTeam] + [gainHome])
  {
    if homeTeam in windows then windows[homeTeam := BoundedAppend(windows[homeTeam], gainHome)] else windows
  }

  /** The normalised weights ln(i^2 + 1) / total for i = 1, 2, 3: positive, increasing, summing to 1. */
  function FormWeights(tm: Transcendentals): (w: (real, real, real))
    requires Lawful(tm)
    ensures w.0 > 0.0 && w.1 > 0.0 && w.2 > 0.0
    ensures w.0 < w.1 < w.2
    ensures w.0 + w.1 + w.2 == 1.0
  {
    assert LnPositive(tm, 2.0) && LnPositive(tm, 5.0) && LnPositive(tm, 10.0);
    assert LnIncreasing(tm, 2.0, 5.0) && LnIncreasing(tm, 5.0, 10.0);
    var weights := [tm.ln(2.0), tm.ln(5.0), tm.ln(10.0)];
    var totalWeight := weights[0] + weights[1] + weights[2];
    Normalized(weights[0], weights[1], weights[2], totalWeight);
    (weights[0] / totalWeight, weights[1] / totalWeight, weights[2] / totalWeight)
  }

  /** `[0] * (3 - len(gains)) + gains`: zeros on the oldest side. */
  function Padded(window: seq<real>): (r: seq<real>)
    requires |window| <= 3
    ensures |r| == 3
  {
    [0.0, 0.0, 0.0][..3 - |window|] + window
  }

  /** Every element of xs lies in [lo, hi]. */
  predicate Within(xs: seq<real>, lo: real, hi: real) {
    forall i :: 0 <= i < |xs| ==> lo <= xs[i] <= hi
  }

  /**
   * A team's form: the weighted sum of its padded window, newest gain weighed most.
   * It lies within the range of the padded gains, so an empty window gives 0.
   */
  function WeightedForm(window: seq<real>, tm: Transcendentals): (r: real)
    requires Lawful(tm) && |window| <= 3
    ensures forall lo, hi :: Within(Padded(window), lo, hi) ==> lo <= r <= hi
    ensures window == [] ==> r == 0.0
  {
    var gains := Padded(window);
    var (w1, w2, w3) := FormWeights(tm);
    WeightedSumWithin(gains, w1, w2, w3);
    assert window == [] ==> Within(gains, 0.0, 0.0);
    gains[0] * w1 + gains[1] * w2 + gains[2] * w3
  }

  lemma WeightedSumWithin(gains: seq<real>, w1: real, w2: real, w3: real)
    requires |gains| == 3 && w1 > 0.0 && w2 > 0.0 && w3 > 0.0 && w1 + w2 + w3 == 1.0
    ensures forall lo, hi :: Within(gains, lo, hi) ==> lo <= gains[0] * w1 + gains[1] * w2 + gains[2] * w3 <= hi
  {
    forall lo, hi | Within(gains, lo, hi)
      ensures lo <= gains[0] * w1 + gains[1] * w2 + gains[2] * w3 <= hi
    {
      ConvexBound(w1, w2, w3, gains[0], gains[1], gains[2], lo, hi);
    }
  }

  /** A full window of equal gains has exactly that gain as its form. */
  lemma SteadyForm(g: real, tm: Transcendentals)
    requires Lawful(tm)
    ensures WeightedForm([g, g, g], tm) == g
  {
    assert Within(Padded([g, g, g]), g, g);
  }

  /** The form of every team with a window. */
  function FormOf(windows: map<string, seq<real>>, tm: Transcendentals): (r: map<string, real>)
    requires Lawful(tm) && forall t :: t in windows ==> |windows[t]| <= 3
    ensures r.Keys == windows.Keys
    ensures forall t :: t in r && windows[t] == [] ==> r[t] == 0.0
  {
    map t | t in windows :: WeightedForm(windows[t], tm)
  }

  /** How much a team's rating moved from `before` to `after`. */
  function Gain(before: map<string, real>, after: map<string, real>, team: string): real
    requires team in before && team in after
  {
    after[team] - before[team]
  }

  /**
   * The two gains of a trial update in init_form: process_game(g) is applied to
   * `ratings` and each gain is read against the rating before it (if the two names
   * are equal, the away update is the one that stands).
   */
  function MatchGains(ratings: map<string, real>, strengths: map<string, Strength>, g: Game, initialRating: real, kFactor: real, tm: Transcendentals): (r: (real, real))
    requires Lawful(tm) && g.homeTeam in ratings && g.awayTeam in ratings
    ensures g.homeTeam != g.awayTeam ==> r.0 + r.1 == 0.0
  {
    var after := ProcessGameRatings(ratings, strengths, g, initialRating, kFactor, tm);
    ProcessGameZeroSum(ratings, strengths, g, initialRating, kFactor, tm);
    (Gain(ratings, after, g.homeTeam), Gain(ratings, after, g.awayTeam))
  }

  /** init_form only tries a match when both teams already have a rating. */
  predicate Rated(ratings: map<string, real>, g: Game) {
    g.homeTeam in ratings && g.awayTeam in ratings
  }

  /**
   * The gain windows init_form builds over the matches ms. Ratings are restored
   * after each trial, so every gain is measured against the same `ratings`.
   */
  function TrialWindows(ratings: map<string, real>, strengths: map<string, Strength>, ms: seq<Game>, windows: map<string, seq<real>>, initialRating: real, kFactor: real, tm: Transcendentals): (r: map<string, seq<real>>)
    requires Lawful(tm) && ratings.Keys <= windows.Keys
    requires forall t :: t in windows ==> |windows[t]| <= 3
    ensures r.Keys == windows.Keys
    ensures forall t :: t in r ==> |r[t]| <= 3
  {
    if ms == [] then windows
    else
      var before := TrialWindows(ratings, strengths, ms[..|ms| - 1], windows, initialRating, kFactor, tm);
      var g := ms[|ms| - 1];
      if Rated(ratings, g) then
        var (gainHome, gainAway) := MatchGains(ratings, strengths, g, initialRating, kFactor, tm);
        AppendGains(before, g.homeTeam, g.awayTeam, gainHome, gainAway)
      else before
  }

  lemma TrialWindowsStep(ratings: map<string, real>, strengths: map<string, Strength>, ms: seq<Game>, k: nat, windows: map<string, seq<real>>, initialRating: real, kFactor: real, tm: Transcendentals)
    requires Lawful(tm) && ratings.Keys <= windows.Keys && k < |ms|
    requires forall t :: t in windows ==> |windows[t]| <= 3
    ensures var before := TrialWindows(ratings, strengths, ms[..k], windows, initialRating, kFactor, tm);
      TrialWindows(ratings, strengths, ms[..k + 1], windows, initialRating, kFactor, tm)
        == if Rated(ratings, ms[k]) then
             AppendGains(before, ms[k].homeTeam, ms[k].awayTeam,
               MatchGains(ratings, strengths, ms[k], initialRating, kFactor, tm).0,
               MatchGains(ratings, strengths, ms[k], initialRating, kFactor, tm).1)
           else before
  {
    assert ms[..k + 1][..k] == ms[..k];
  }

  /** Every gain a team receives over ms, oldest first. */
  function TeamGains(ratings: map<string, real>, strengths: map<string, Strength>, ms: seq<Game>, team: string, initialRating: real, kFactor: real, tm: Transcendentals): seq<real>
    requires Lawful(tm)
  {
    if ms == [] then []
    else
      var g := ms[|ms| - 1];
      var before := TeamGains(ratings, strengths, ms[..|ms| - 1], team, initialRating, kFactor, tm);
      if Rated(ratings, g) then
        var (gainHome, gainAway) := MatchGains(ratings, strengths, g, initialRating, kFactor, tm);
        before + (if g.homeTeam == team then [gainHome] else []) + (if g.awayTeam == team then [gainAway] else [])
      else before
  }

  /** Each window holds the team's latest three gains: the window of everything it was fed. */
  lemma {:induction false} TrialWindowsHoldLatestGains(ratings: map<string, real>, strengths: map<string, Strength>, ms: seq<Game>, windows: map<string, seq<real>>, team: string, initialRating: real, kFactor: real, tm: Transcendentals)
    requires Lawful(tm) && ratings.Keys <= windows.Keys && team in windows
    requires forall t :: t in windows ==> |windows[t]| <= 3
    ensures TrialWindows(ratings, strengths, ms, windows, initialRating, kFactor, tm)[team]
         == Window(windows[team] + TeamGains(ratings, strengths, ms, team, initialRating, kFactor, tm))
  {
    if ms == [] {
      assert windows[team] + [] == windows[team];
    } else {
      var init := ms[..|ms| - 1];
      var g := ms[|ms| - 1];
      TrialWindowsHoldLatestGains(ratings, strengths, init, windows, team, initialRating, kFactor, tm);
      if Rated(ratings, g) {
        TrialWindowsRatedStep(ratings, strengths, ms, windows, team, initialRating, kFactor, tm);
      } else {
        assert TrialWindows(ratings, strengths, ms, windows, initialRating, kFactor, tm)
            == TrialWindows(ratings, strengths, init, windows, initialRating, kFactor, tm);
        assert TeamGains(ratings, strengths, ms, team, initialRating, kFactor, tm)
            == TeamGains(ratings, strengths, init, team, initialRating, kFactor, tm);
      }
    }
  }

  /** The inductive step of TrialWindowsHoldLatestGains for a last match both of whose teams are rated. */
  lemma TrialWindowsRatedStep(ratings: map<string, real>, strengths: map<string, Strength>, ms: seq<Game>, windows: map<string, seq<real>>, team: string, initialRating: real, kFactor: real, tm: Transcendentals)
    requires Lawful(tm) && ratings.Keys <= windows.Keys && team in windows
    requires forall t :: t in windows ==> |windows[t]| <= 3
    requires ms != [] && Rated(ratings, ms[|ms| - 1])
    requires TrialWindows(ratings, strengths, ms[..|ms| - 1], windows, initialRating, kFactor, tm)[team]
          == Window(windows[team] + TeamGains(ratings, strengths, ms[..|ms| - 1], team, initialRating, kFactor, tm))
    ensures TrialWindows(ratings, strengths, ms, windows, initialRating, kFactor, tm)[team]
         == Window(windows[team] + TeamGains(ratings, strengths, ms, team, initialRating, kFactor, tm))
  {
    var init := ms[..|ms| - 1];
    var g := ms[|ms| - 1];
    var before := TrialWindows(ratings, strengths, init, windows, initialRating, kFactor, tm);
    var prior := TeamGains(ratings, strengths, init, team, initialRating, kFactor, tm);
    var gainHome := MatchGains(ratings, strengths, g, initialRating, kFactor, tm).0;
    var gainAway := MatchGains(ratings, strengths, g, initialRating, kFactor, tm).1;
    var homePart: seq<real> := if g.homeTeam == team then [gainHome] else [];
    var awayPart: seq<real> := if g.awayTeam == team then [gainAway] else [];
    TrialWindowsStep(ratings, strengths, ms, |ms| - 1, windows, initialRating, kFactor, tm);
    assert ms[..|ms|] == ms;
    assert TeamGains(ratings, strengths, ms, team, initialRating, kFactor, tm) == prior + homePart + awayPart;
    AppendGainsWindow(before, windows[team], prior, g.homeTeam, g.awayTeam, gainHome, gainAway, team);
  }

  /** One trial update of a window that holds the latest gains of `fed` holds those of `fed` and the new gains. */
  lemma AppendGainsWindow(windows: map<string, seq<real>>, start: seq<real>, prior: seq<real>, homeTeam: string, awayTeam: string, gainHome: real, gainAway: real, team: string)
    requires homeTeam in windows && awayTeam in windows && team in windows
    requires forall t :: t in windows ==> |windows[t]| <= 3
    requires windows[team] == Window(start + prior)
    ensures AppendGains(windows, homeTeam, awayTeam, gainHome, gainAway)[team]
         == Window(start + (prior + (if homeTeam == team then [gainHome] else []) + (if awayTeam == team then [gainAway] else [])))
  {
    var fed := start + prior;
    var homePart: seq<real> := if homeTeam == team then [gainHome] else [];
    var awayPart: seq<real> := if awayTeam == team then [gainAway] else [];
    var w := windows[homeTeam := BoundedAppend(windows[homeTeam], gainHome)];
    assert w[team] == Window(fed + homePart) by {
      if homeTeam == team { WindowAppend(fed, gainHome); } else { assert fed + homePart == fed; }
    }
    if awayTeam == team {
      WindowAppend(fed + homePart, gainAway);
      assert AppendGains(windows, homeTeam, awayTeam, gainHome, gainAway)[team] == BoundedAppend(w[team], gainAway);
    } else {
      assert fed + homePart + awayPart == fed + homePart;
      assert AppendGains(windows, homeTeam, awayTeam, gainHome, gainAway)[team] == w[team];
    }
    ConcatAssoc(start, prior, homePart, awayPart);
  }

  lemma ConcatAssoc(a: seq<real>, b: seq<real>, c: seq<real>, d: seq<real>)
    ensures a + (b + c + d) == a + b + c + d
  {
  }

  /** Some season has fewer than three rounds, which makes init_form give up. */
  predicate HasShortSeason(fixtures: Fixtures<Game>) {
    exists i :: 0 <= i < |fixtures| && |fixtures[i].rounds| < 3
  }

  /** An empty window for every rated team. */
  function EmptyWindows(ratings: map<string, real>): (r: map<string, seq<real>>)
    ensures r.Keys == ratings.Keys && forall t :: t in r ==> r[t] == []
  {
    map t | t in ratings :: []
  }

  /** The windows init_form builds over ms, starting from an empty window per rated team. */
  function InitWindows(ratings: map<string, real>, strengths: map<string, Strength>, ms: seq<Game>, initialRating: real, kFactor: real, tm: Transcendentals): (r: map<string, seq<real>>)
    requires Lawful(tm)
    ensures r.Keys == ratings.Keys
    ensures forall t :: t in r ==> |r[t]| <= 3
  {
    TrialWindows(ratings, strengths, ms, EmptyWindows(ratings), initialRating, kFactor, tm)
  }

  /**
   * What init_form returns, (team_form, gains): zero form and empty windows for
   * every rated team when a season is short; otherwise the windows of the trial
   * gains over every match, and their forms.
   */
  function InitFormOf(ratings: map<string, real>, strengths: map<string, Strength>, fixtures: Fixtures<Game>, initialRating: real, kFactor: real, tm: Transcendentals): (r: (map<string, real>, map<string, seq<real>>))
    requires Lawful(tm)
    ensures r.0.Keys == ratings.Keys && r.1.Keys == ratings.Keys
    ensures forall t :: t in r.1 ==> |r.1[t]| <= 3
    ensures HasShortSeason(fixtures) ==> forall t :: t in ratings ==> r.0[t] == 0.0 && r.1[t] == []
  {
    if HasShortSeason(fixtures) then (map t | t in ratings :: 0.0, EmptyWindows(ratings))
    else
      var windows := InitWindows(ratings, strengths, AllMatches(fixtures), initialRating, kFactor, tm);
      (FormOf(windows, tm), windows)
  }

  /** Undoing the two entries a trial update wrote gives back the ratings it started from. */
  lemma RestoreRatings(ratings: map<string, real>, strengths: map<string, Strength>, g: Game, initialRating: real, kFactor: real, tm: Transcendentals)
    requires Lawful(tm) && Rated(ratings, g)
    ensures var after := ProcessGameRatings(ratings, strengths, g, initialRating, kFactor, tm);
      after[g.homeTeam := ratings[g.homeTeam]][g.awayTeam := ratings[g.awayTeam]] == ratings
  {
  }

  // ---------------------------------------------------------------------------
  // Match probabilities
  // ---------------------------------------------------------------------------

  datatype Probabilities = Probabilities(homeWin: real, draw: real, awayWin: real)

  /**
   * `sum(f) / len(f) if f else 0.5` on a team's form f, which is a float: a zero
   * form is falsy and gives 0.5; sum() over any other float raises TypeError.
   */
  function FormTerm(form: map<string, real>, team: string): (r: Result<real>)
    ensures r == Ok(0.5) <==> team in form && form[team] == 0.0
    ensures r == Err(KeyError) <==> team !in form
    ensures r == Err(TypeError) <==> team in form && form[team] != 0.0
  {
    if team !in form then Err(KeyError)
    else if form[team] == 0.0 then Ok(0.5)
    else Err(TypeError)
  }

  // ---------------------------------------------------------------------------
  // The engine object
  // ---------------------------------------------------------------------------

  class EloRatingSystem {
    const initialRating: real
    const kFactor: real
    const teamStrengths: map<string, Strength>
    const fixtures: Fixtures<Game>
    const futureMatches: Fixtures<FutureMatch>
    /** 10^x, e^x and ln, as the engine uses them. */
    const tm: Transcendentals
    var teamRatings: map<string, real>
    var teamForm: map<string, real>
    /** Each team's window of its latest rating gains (the `gains` deques). */
    var gains: map<string, seq<real>>

    /** The windows are deques of at most three gains. */
    ghost predicate Valid()
      reads this
    {
      && Lawful(tm)
      && (forall t :: t in gains ==> |gains[t]| <= 3)
    }

    /**
     * The engine over the data the database returns: team ratings, strengths, and
     * the rows of played and future matches, grouped into seasons and rounds; then
     * the form from init_form. The source's defaults are initial_rating = 1500 and
     * k_factor = 3.
     */
    constructor(initialRating: real, kFactor: real, teamElos: map<string, real>, teamStrengths: map<string, Strength>,
                matchRows: seq<DataManager.Row<Game>>, futureRows: seq<(string, FutureMatch)>, tm: Transcendentals)
      requires Lawful(tm)
      ensures Valid()
      ensures this.initialRating == initialRating && this.kFactor == kFactor && this.tm == tm
      ensures this.teamStrengths == teamStrengths && teamRatings == teamElos
      ensures WellFormed(fixtures) && DataManager.InQueryOrder(fixtures, matchRows)
      ensures forall s, rn :: Bucket(fixtures, s, rn) == DataManager.RowsIn(matchRows, s, rn)
      ensures WellFormed(futureMatches) && |futureMatches| == 1 && futureMatches[0].name == "2025"
      ensures forall rn :: Bucket(futureMatches, "2025", rn) == DataManager.RowsIn(DataManager.FutureRows(futureRows), "2025", rn)
      ensures DataManager.RoundsInOrder(futureMatches[0].rounds, DataManager.RoundLabels(DataManager.FutureRows(futureRows), "2025"))
      ensures (teamForm, gains) == InitFormOf(teamElos, teamStrengths, fixtures, initialRating, kFactor, tm)
    {
      this.initialRating := initialRating;
      this.kFactor := kFactor;
      this.tm := tm;
      teamRatings := teamElos;
      this.teamStrengths := teamStrengths;
      var played := DataManager.GetFixtures(matchRows);
      fixtures := played;
      var upcoming := DataManager.GetFutureMatches(futureRows);
      futureMatches := upcoming;
      new;
      teamForm, gains := InitForm();
    }

    /**
     * initialize_team_ratings: every team with strengths or a played or future
     * match gets its league's starting rating (by the 2024 season's league map).
     */
    method InitializeTeamRatings()
      modifies this`teamRatings
      ensures teamRatings == InitializedRatings(old(teamRatings), teamStrengths, fixtures, futureMatches, initialRating)
    {
      var allTeams := GatherTeams();
      var teamLeagueMap := TeamLeagueMap();
      AssignBaseRatings(allTeams, teamLeagueMap);
    }

    /** Step 1 of initialize_team_ratings: all teams, from strengths, fixtures and future matches. */
    method GatherTeams() returns (allTeams: set<string>)
      ensures allTeams == AllTeams(teamStrengths, fixtures, futureMatches)
    {
      allTeams := teamStrengths.Keys;
      var played := AllMatches(fixtures);
      assert GameTeams(played[..0]) == {};
      for i := 0 to |played|
        invariant allTeams == teamStrengths.Keys + GameTeams(played[..i])
      {
        GameTeamsStep(played, i);
        allTeams := allTeams + {played[i].homeTeam, played[i].awayTeam};
      }
      assert played[..|played|] == played;
      var upcoming := AllMatches(futureMatches);
      assert FutureTeams(upcoming[..0]) == {};
      for i := 0 to |upcoming|
        invariant allTeams == teamStrengths.Keys + GameTeams(played) + FutureTeams(upcoming[..i])
      {
        FutureTeamsStep(upcoming, i);
        allTeams := allTeams + {upcoming[i].homeTeam, upcoming[i].awayTeam};
      }
      assert upcoming[..|upcoming|] == upcoming;
    }

    /** Step 2: the league of each team in the 2024 season, by upper-cased name. */
    method TeamLeagueMap() returns (teamLeagueMap: map<string, int>)
      ensures teamLeagueMap == LeagueMap(Season2024(fixtures))
    {
      teamLeagueMap := map[];
      var season2024 := Season2024(fixtures);
      assert season2024[..0] == [];
      for i := 0 to |season2024|
        invariant teamLeagueMap == LeagueMap(season2024[..i])
      {
        LeagueMapStep(season2024, i);
        var m := season2024[i];
        teamLeagueMap := teamLeagueMap[Upper(m.homeTeam) := m.leagueId];
        teamLeagueMap := teamLeagueMap[Upper(m.awayTeam) := m.leagueId];
      }
      assert season2024[..|season2024|] == season2024;
    }

    /**
     * Step 3: each team gets its base rating. The source visits the teams sorted;
     * each assignment is independent of the others, so the order does not matter.
     */
    method AssignBaseRatings(allTeams: set<string>, teamLeagueMap: map<string, int>)
      modifies this`teamRatings
      ensures teamRatings == Rebased(old(teamRatings), allTeams, teamLeagueMap, initialRating)
    {
      var todo := allTeams;
      while todo != {}
        invariant todo <= allTeams
        invariant teamRatings.Keys == old(teamRatings).Keys + (allTeams - todo)
        invariant forall t :: t in allTeams - todo ==> teamRatings[t] == BaseRating(teamLeagueMap, t, initialRating)
        invariant forall t :: t in old(teamRatings) && t !in allTeams - todo ==> teamRatings[t] == old(teamRatings)[t]
        decreases todo
      {
        var team :| team in todo;
        teamRatings := teamRatings[team := BaseRating(teamLeagueMap, team, initialRating)];
        todo := todo - {team};
      }
    }

    /** process_game: the ratings after one game, nothing else changes. */
    method ProcessGame(game: Game)
      requires Lawful(tm)
      modifies this`teamRatings
      ensures teamRatings == ProcessGameRatings(old(teamRatings), teamStrengths, game, initialRating, kFactor, tm)
    {
      var homeTeam, awayTeam := game.homeTeam, game.awayTeam;
      // Enter unseen teams at the initial rating.
      if homeTeam !in teamRatings { teamRatings := teamRatings[homeTeam := initialRating]; }
      assert teamRatings == Seed(old(teamRatings), homeTeam, initialRating);
      if awayTeam !in teamRatings { teamRatings := teamRatings[awayTeam := initialRating]; }
      ghost var seeded := teamRatings;
      assert seeded == Seed(Seed(old(teamRatings), homeTeam, initialRating), awayTeam, initialRating);
      var ratingHome, ratingAway := teamRatings[homeTeam], teamRatings[awayTeam];
      var (newRatingHome, newRatingAway) := GameUpdate(ratingHome, ratingAway, teamStrengths, game, kFactor, tm);
      teamRatings := teamRatings[homeTeam := newRatingHome];
      teamRatings := teamRatings[awayTeam := newRatingAway];
    }

    /** process_round: the games of one round, in order. */
    method ProcessRound(games: seq<Game>)
      requires Lawful(tm)
      modifies this`teamRatings
      ensures teamRatings == ProcessGames(old(teamRatings), teamStrengths, games, initialRating, kFactor, tm)
    {
      assert games[..0] == [];
      for i := 0 to |games|
        invariant teamRatings == ProcessGames(old(teamRatings), teamStrengths, games[..i], initialRating, kFactor, tm)
      {
        ProcessGamesStep(old(teamRatings), teamStrengths, games, i, initialRating, kFactor, tm);
        ProcessGame(games[i]);
      }
      assert games[..|games|] == games;
    }

    /** process_season: every round of every season, in order. */
    method ProcessSeason()
      requires Lawful(tm)
      modifies this`teamRatings
      ensures teamRatings == ProcessGames(old(teamRatings), teamStrengths, AllMatches(fixtures), initialRating, kFactor, tm)
    {
      ghost var ratings0 := teamRatings;
      assert AllMatches(fixtures[..0]) == [];
      for i := 0 to |fixtures|
        invariant teamRatings == ProcessGames(ratings0, teamStrengths, AllMatches(fixtures[..i]), initialRating, kFactor, tm)
      {
        AllMatchesStep(fixtures, i);
        ProcessGamesAppend(ratings0, teamStrengths, AllMatches(fixtures[..i]), RoundsMatches(fixtures[i].rounds), initialRating, kFactor, tm);
        ProcessRounds(fixtures[i].rounds);
      }
      assert fixtures[..|fixtures|] == fixtures;
    }

    /** The inner loop of process_season: the rounds of one season, in order. */
    method ProcessRounds(rounds: seq<Round<Game>>)
      requires Lawful(tm)
      modifies this`teamRatings
      ensures teamRatings == ProcessGames(old(teamRatings), teamStrengths, RoundsMatches(rounds), initialRating, kFactor, tm)
    {
      ghost var ratings0 := teamRatings;
      assert RoundsMatches(rounds[..0]) == [];
      for j := 0 to |rounds|
        invariant teamRatings == ProcessGames(ratings0, teamStrengths, RoundsMatches(rounds[..j]), initialRating, kFactor, tm)
      {
        RoundsMatchesStep(rounds, j);
        ProcessGamesAppend(ratings0, teamStrengths, RoundsMatches(rounds[..j]), rounds[j].matches, initialRating, kFactor, tm);
        ProcessRound(rounds[j].matches);
      }
      assert rounds[..|rounds|] == rounds;
    }

    /** run_elo_rating_system: starting ratings, then every played game. */
    method RunEloRatingSystem()
      requires Lawful(tm)
      modifies this`teamRatings
      ensures teamRatings == ProcessGames(InitializedRatings(old(teamRatings), teamStrengths, fixtures, futureMatches, initialRating),
                                          teamStrengths, AllMatches(fixtures), initialRating, kFactor, tm)
    {
      InitializeTeamRatings();
      ProcessSeason();
    }

    /**
     * calculate_match_probabilities: the expected score with an advantage of 100,
     * blended 0.7 / 0.15 / 0.15 with the two form terms, each part rounded to 3 places.
     */
    function CalculateMatchProbabilities(homeTeam: string, awayTeam: string): (r: Result<Probabilities>)
      requires Lawful(tm)
      reads this
      ensures r.Ok? <==> FormTerm(teamForm, homeTeam).Ok? && FormTerm(teamForm, awayTeam).Ok?
      ensures r.Err? ==> r.error == (if FormTerm(teamForm, homeTeam).Err? then FormTerm(teamForm, homeTeam).error
                                     else FormTerm(teamForm, awayTeam).error)
      ensures r.Ok? ==> r.value.homeWin + r.value.awayWin == 1.0
      ensures r.Ok? ==> 0.1495 <= r.value.homeWin <= 0.8505 && r.value.draw >= 0.6495
    {
      var ratingHome := RatingOf(teamRatings, homeTeam, initialRating);
      var ratingAway := RatingOf(teamRatings, awayTeam, initialRating);
      match FormTerm(teamForm, homeTeam)
      case Err(e) => Err(e)
      case Ok(formHome) =>
        match FormTerm(teamForm, awayTeam)
        case Err(e) => Err(e)
        case Ok(formAway) =>
          var advantage := 100.0;
          var baseProb := ExpectedScore(ratingHome, ratingAway, advantage, tm);
          var adjusted := baseProb * 0.7 + formHome * 0.15 + (1.0 - formAway) * 0.15;
          Round3Complement(adjusted);
          Ok(Probabilities(Round3(adjusted), Round3(1.0 - Abs(0.5 - adjusted)), Round3(1.0 - adjusted)))
    }

    /**
     * init_form: try every match whose teams are rated, keep the two gains, put the
     * ratings back; then the form of each window. team_ratings ends as it began.
     * The loops over a season's rounds and over a round's matches are the methods
     * TrySeason and TryRound.
     */
    method InitForm() returns (teamForm': map<string, real>, teamGains: map<string, seq<real>>)
      requires Lawful(tm)
      modifies this`teamRatings
      ensures teamRatings == old(teamRatings)
      ensures (teamForm', teamGains) == InitFormOf(teamRatings, teamStrengths, fixtures, initialRating, kFactor, tm)
    {
      var short, formDeques := TrySeasons();
      if short {
        teamForm' := map t | t in teamRatings :: 0.0;
        teamGains := EmptyWindows(teamRatings);
      } else {
        teamForm', teamGains := WindowForms(formDeques);
      }
    }

    /**
     * init_form's loop over the seasons; it stops at the first season with fewer
     * than three rounds, and then the windows built so far are not used.
     */
    method TrySeasons() returns (short: bool, formDeques: map<string, seq<real>>)
      requires Lawful(tm)
      modifies this`teamRatings
      ensures teamRatings == old(teamRatings)
      ensures short == HasShortSeason(fixtures)
      ensures !short ==> formDeques == InitWindows(teamRatings, teamStrengths, AllMatches(fixtures), initialRating, kFactor, tm)
    {
      ghost var ratings := teamRatings;
      formDeques := EmptyWindows(teamRatings);
      assert AllMatches(fixtures[..0]) == [];
      for i := 0 to |fixtures|
        invariant teamRatings == ratings
        invariant forall s :: 0 <= s < i ==> |fixtures[s].rounds| >= 3
        invariant formDeques == InitWindows(ratings, teamStrengths, AllMatches(fixtures[..i]), initialRating, kFactor, tm)
      {
        if |fixtures[i].rounds| < 3 {
          assert HasShortSeason(fixtures);
          return true, formDeques;
        }
        formDeques := TrySeason(i, formDeques);
      }
      assert fixtures[..|fixtures|] == fixtures;
      short := false;
    }

    /** init_form's loop over the rounds of one season. */
    method TrySeason(i: nat, formDeques: map<string, seq<real>>) returns (formDeques': map<string, seq<real>>)
      requires Lawful(tm) && i < |fixtures|
      requires formDeques == InitWindows(teamRatings, teamStrengths, AllMatches(fixtures[..i]), initialRating, kFactor, tm)
      modifies this`teamRatings
      ensures teamRatings == old(teamRatings)
      ensures formDeques' == InitWindows(teamRatings, teamStrengths, AllMatches(fixtures[..i + 1]), initialRating, kFactor, tm)
    {
      var rounds := fixtures[i].rounds;
      ghost var done := AllMatches(fixtures[..i]);
      AllMatchesStep(fixtures, i);
      formDeques' := formDeques;
      assert done + RoundsMatches(rounds[..0]) == done;
      for j := 0 to |rounds|
        invariant teamRatings == old(teamRatings)
        invariant formDeques' == InitWindows(teamRatings, teamStrengths, done + RoundsMatches(rounds[..j]), initialRating, kFactor, tm)
      {
        RoundsMatchesStep(rounds, j);
        AppendAssoc(done, RoundsMatches(rounds[..j]), rounds[j].matches);
        formDeques' := TryRound(rounds[j].matches, formDeques', done + RoundsMatches(rounds[..j]));
      }
      assert rounds[..|rounds|] == rounds;
    }

    /** init_form's loop over the matches of one round. */
    method TryRound(matches: seq<Game>, formDeques: map<string, seq<real>>, ghost done: seq<Game>) returns (formDeques': map<string, seq<real>>)
      requires Lawful(tm)
      requires formDeques == InitWindows(teamRatings, teamStrengths, done, initialRating, kFactor, tm)
      modifies this`teamRatings
      ensures teamRatings == old(teamRatings)
      ensures formDeques' == InitWindows(teamRatings, teamStrengths, done + matches, initialRating, kFactor, tm)
    {
      formDeques' := formDeques;
      assert done + matches[..0] == done;
      for k := 0 to |matches|
        invariant teamRatings == old(teamRatings)
        invariant formDeques' == InitWindows(teamRatings, teamStrengths, done + matches[..k], initialRating, kFactor, tm)
      {
        DataManager.PrefixStep(done, matches, k);
        formDeques' := TryMatch(matches[k], formDeques', done + matches[..k]);
      }
      assert matches[..|matches|] == matches;
    }

    /** The body of init_form's match loop: a rated match feeds its two gains into the windows. */
    method TryMatch(m: Game, formDeques: map<string, seq<real>>, ghost done: seq<Game>) returns (formDeques': map<string, seq<real>>)
      requires Lawful(tm)
      requires formDeques == InitWindows(teamRatings, teamStrengths, done, initialRating, kFactor, tm)
      modifies this`teamRatings
      ensures teamRatings == old(teamRatings)
      ensures formDeques' == InitWindows(teamRatings, teamStrengths, done + [m], initialRating, kFactor, tm)
    {
      TrialWindowsStep(teamRatings, teamStrengths, done + [m], |done|, EmptyWindows(teamRatings), initialRating, kFactor, tm);
      assert (done + [m])[..|done|] == done && (done + [m])[..|done| + 1] == done + [m];
      formDeques' := formDeques;
      var homeTeam, awayTeam := m.homeTeam, m.awayTeam;
      if homeTeam in teamRatings && awayTeam in teamRatings {
        var gainHome, gainAway := TrialGains(m);
        formDeques' := formDeques'[homeTeam := BoundedAppend(formDeques'[homeTeam], gainHome)];
        formDeques' := formDeques'[awayTeam := BoundedAppend(formDeques'[awayTeam], gainAway)];
      }
    }

    /** One trial update: process_game(m), read off the two gains, put the two ratings back. */
    method TrialGains(m: Game) returns (gainHome: real, gainAway: real)
      requires Lawful(tm) && Rated(teamRatings, m)
      modifies this`teamRatings
      ensures teamRatings == old(teamRatings)
      ensures (gainHome, gainAway) == MatchGains(teamRatings, teamStrengths, m, initialRating, kFactor, tm)
    {
      var homeTeam, awayTeam := m.homeTeam, m.awayTeam;
      var initialRatingHome, initialRatingAway := teamRatings[homeTeam], teamRatings[awayTeam];
      RestoreRatings(teamRatings, teamStrengths, m, initialRating, kFactor, tm);
      ProcessGame(m);
      gainHome := teamRatings[homeTeam] - initialRatingHome;
      gainAway := teamRatings[awayTeam] - initialRatingAway;
      teamRatings := teamRatings[homeTeam := initialRatingHome];
      teamRatings := teamRatings[awayTeam := initialRatingAway];
    }

    /** The last loop of init_form: each rated team's window and its weighted form. */
    method WindowForms(formDeques: map<string, seq<real>>) returns (teamForm': map<string, real>, teamGains: map<string, seq<real>>)
      requires Lawful(tm) && formDeques.Keys == teamRatings.Keys
      requires forall t :: t in formDeques ==> |formDeques[t]| <= 3
      ensures teamGains == formDeques && teamForm' == FormOf(formDeques, tm)
    {
      teamForm' := map[];
      teamGains := map[];
      var todo := teamRatings.Keys;
      while todo != {}
        invariant todo <= teamRatings.Keys
        invariant teamGains.Keys == teamForm'.Keys == teamRatings.Keys - todo
        invariant forall t :: t in teamGains ==> teamGains[t] == formDeques[t] && teamForm'[t] == WeightedForm(formDeques[t], tm)
        decreases todo
      {
        var team :| team in todo;
        var window := formDeques[team];
        teamGains := teamGains[team := window];
        teamForm' := teamForm'[team := WeightedForm(window, tm)];
        todo := todo - {team};
      }
    }

    /**
     * update_form: process the match for real, push the two teams' gains into their
     * windows and recompute their form; every other window and form stays. A team
     * without a rating raises KeyError before anything changes; a team without a
     * window raises KeyError after the match is processed, and when only the away
     * team lacks one the home gain has already been appended.
     */
    method UpdateForm(game: Game, homeTeam: string, awayTeam: string) returns (r: Result<()>)
      requires Valid()
      modifies this`teamRatings, this`gains, this`teamForm
      ensures Valid()
      ensures r.Err? <==> homeTeam !in old(teamRatings) || awayTeam !in old(teamRatings) || homeTeam !in old(gains) || awayTeam !in old(gains)
      ensures r.Err? ==> r.error == KeyError
      ensures homeTeam !in old(teamRatings) || awayTeam !in old(teamRatings) ==>
        teamRatings == old(teamRatings) && gains == old(gains) && teamForm == old(teamForm)
      ensures homeTeam in old(teamRatings) && awayTeam in old(teamRatings) ==>
        teamRatings == ProcessGameRatings(old(teamRatings), teamStrengths, game, initialRating, kFactor, tm)
      ensures homeTeam in old(teamRatings) && awayTeam in old(teamRatings) && r.Err? ==>
        teamForm == old(teamForm) && gains == HomeAppended(old(gains), homeTeam, Gain(old(teamRatings), teamRatings, homeTeam))
      ensures r.Ok? ==> gains == AppendGains(old(gains), homeTeam, awayTeam,
                                             Gain(old(teamRatings), teamRatings, homeTeam),
                                             Gain(old(teamRatings), teamRatings, awayTeam))
      ensures r.Ok? ==> teamForm == old(teamForm)[homeTeam := WeightedForm(gains[homeTeam], tm)][awayTeam := WeightedForm(gains[awayTeam], tm)]
    {
      var played := PlayGame(game, homeTeam, awayTeam);
      if played.Err? {
        return Err(played.error);
      }
      var (gainHome, gainAway) := played.value;
      r := PushGains(homeTeam, awayTeam, gainHome, gainAway);
    }

    /**
     * The first half of update_form: read the two ratings (KeyError when a team has
     * none, before the match is processed), process the match, and read off the
     * two teams' gains.
     */
    method PlayGame(game: Game, homeTeam: string, awayTeam: string) returns (r: Result<(real, real)>)
      requires Lawful(tm)
      modifies this`teamRatings
      ensures r.Err? <==> homeTeam !in old(teamRatings) || awayTeam !in old(teamRatings)
      ensures r.Err? ==> r.error == KeyError && teamRatings == old(teamRatings)
      ensures r.Ok? ==> teamRatings == ProcessGameRatings(old(teamRatings), teamStrengths, game, initialRating, kFactor, tm)
      ensures r.Ok? ==> r.value == (Gain(old(teamRatings), teamRatings, homeTeam), Gain(old(teamRatings), teamRatings, awayTeam))
    {
      if homeTeam !in teamRatings || awayTeam !in teamRatings {
        return Err(KeyError);
      }
      var initialRatingHome, initialRatingAway := teamRatings[homeTeam], teamRatings[awayTeam];
      ProcessGame(game);
      r := Ok((teamRatings[homeTeam] - initialRatingHome, teamRatings[awayTeam] - initialRatingAway));
    }

    /**
     * The second half of update_form: append the two gains, recompute the two forms.
     * A team without a window raises KeyError at its append, so a missing away window
     * leaves the home gain appended and no form recomputed.
     */
    method PushGains(homeTeam: string, awayTeam: string, gainHome: real, gainAway: real) returns (r: Result<()>)
      requires Valid()
      modifies this`gains, this`teamForm
      ensures Valid()
      ensures r.Err? <==> homeTeam !in old(gains) || awayTeam !in old(gains)
      ensures r.Err? ==> r.error == KeyError && teamForm == old(teamForm) && gains == HomeAppended(old(gains), homeTeam, gainHome)
      ensures r.Ok? ==> gains == AppendGains(old(gains), homeTeam, awayTeam, gainHome, gainAway)
      ensures r.Ok? ==> teamForm == old(teamForm)[homeTeam := WeightedForm(gains[homeTeam], tm)][awayTeam := WeightedForm(gains[awayTeam], tm)]
    {
      if homeTeam !in gains {
        return Err(KeyError);
      }
      gains := gains[homeTeam := BoundedAppend(gains[homeTeam], gainHome)];
      if awayTeam !in gains {
        return Err(KeyError);
      }
      gains := gains[awayTeam := BoundedAppend(gains[awayTeam], gainAway)];
      teamForm := teamForm[homeTeam := WeightedForm(gains[homeTeam], tm)];
      teamForm := teamForm[awayTeam := WeightedForm(gains[awayTeam], tm)];
      r := Ok(());
    }
  }
}
