/**
 * The older engine (ELO_system.py): home and away win fractions, a rating
 * update that scores raw goal counts, the three-way match probabilities with a
 * draw constant, the five-match form, and the points simulation over the
 * remaining fixtures with per-mille thresholds.
 *
 * The JSON files it reads are parameters: `fixtures` (fixtures.json), `elo`
 * (team_elo.json), `homeStrength` and `awayStrength` (home_strength.json,
 * away_strength.json), `future` (future_matches.json) and `raw` (table.json, read
 * through LegacyHelper.GetTable). random.randint(0, 999) is the parameter
 * `draws`: draws(t)(k) is the number the k-th match of trial t receives.
 *
 * The nested season / round / match loops visit exactly Fixtures.AllMatches of
 * the collection, in that order, so each of them is one loop over that sequence.
 */
module LegacyElo {
  import opened Wrappers
  import opened Numerics
  import opened Fixtures
  import opened Standings
  import EloSystem
  import Sim
  import LegacyHelper

  /** The rating process_game gives a team it has not seen. */
  const InitialRating: real := 1500.0

  /** process_game's and update_rating's default k_factor. */
  const DefaultK: real := 10.0

  /** calculate_match_probabilities' default theta and draw constant K. */
  const Theta: real := 200.0
  const DrawWeight: real := 0.22

  // ---------------------------------------------------------------------------
  // Home and away win fractions
  // ---------------------------------------------------------------------------

  /** `counts.get(team, 0)`. */
  function Get0(counts: map<string, nat>, team: string): nat {
    if team in counts then counts[team] else 0
  }

  /** One more match adds its home team to the home teams and its away team to the away teams. */
  lemma TeamsSnoc(ms: seq<Game>, m: Game)
    ensures HomeTeams(ms + [m]) == HomeTeams(ms) + {m.homeTeam}
    ensures AwayTeams(ms + [m]) == AwayTeams(ms) + {m.awayTeam}
  {
    assert m in ms + [m];
    assert forall x :: x in ms + [m] <==> x in ms || x == m;
  }

  /**
   * find_fraction_of_home_wins: for every team that played at home, its home wins
   * over its home games. Each fraction lies in [0, 1], and is 0 for a team that
   * never won at home.
   */
  method FindFractionOfHomeWins(fixtures: Fixtures<Game>) returns (fractions: map<string, real>)
    ensures fractions.Keys == HomeTeams(AllMatches(fixtures))
    ensures forall team :: team in fractions ==>
      HomeGames(AllMatches(fixtures), team) > 0
      && fractions[team] == Fraction(HomeWins(AllMatches(fixtures), team), HomeGames(AllMatches(fixtures), team))
    ensures forall team :: team in fractions ==> 0.0 <= fractions[team] <= 1.0
    ensures forall team :: team in fractions && HomeWins(AllMatches(fixtures), team) == 0 ==> fractions[team] == 0.0
  {
    var ms := AllMatches(fixtures);
    var teamWins, teamHomeGames := CountHomeGames(ms);
    fractions := HomeFractions(ms, teamWins, teamHomeGames);
  }

  /** The counting loop of find_fraction_of_home_wins: home games per team, and home wins (absent when none). */
  method CountHomeGames(ms: seq<Game>) returns (teamWins: map<string, nat>, teamHomeGames: map<string, nat>)
    ensures teamHomeGames.Keys == HomeTeams(ms)
    ensures forall team :: team in teamHomeGames ==> teamHomeGames[team] == HomeGames(ms, team)
    ensures forall team :: Get0(teamWins, team) == HomeWins(ms, team)
  {
    teamWins := map[];
    teamHomeGames := map[];
    for i := 0 to |ms|
      invariant HomeCounted(ms[..i], teamWins, teamHomeGames)
    {
      var m := ms[i];
      assert ms[..i + 1] == ms[..i] + [m];
      HomeCountedStep(ms[..i], m, teamWins, teamHomeGames);
      var homeTeam := m.homeTeam;
      if homeTeam in teamHomeGames {
        teamHomeGames := teamHomeGames[homeTeam := teamHomeGames[homeTeam] + 1];
      } else {
        teamHomeGames := teamHomeGames[homeTeam := 1];
      }
      if m.result == Home {
        if homeTeam in teamWins {
          teamWins := teamWins[homeTeam := teamWins[homeTeam] + 1];
        } else {
          teamWins := teamWins[homeTeam := 1];
        }
      }
    }
    assert ms[..|ms|] == ms;
  }

  /** The two counters of find_fraction_of_home_wins once the games ms are counted. */
  ghost predicate HomeCounted(ms: seq<Game>, teamWins: map<string, nat>, teamHomeGames: map<string, nat>) {
    && teamHomeGames.Keys == HomeTeams(ms)
    && (forall team :: team in teamHomeGames ==> teamHomeGames[team] == HomeGames(ms, team))
    && (forall team :: Get0(teamWins, team) == HomeWins(ms, team))
  }

  /** One pass of the counting loop: the home team's game count goes up, and its win count on a home win. */
  lemma HomeCountedStep(seen: seq<Game>, m: Game, teamWins: map<string, nat>, teamHomeGames: map<string, nat>)
    requires HomeCounted(seen, teamWins, teamHomeGames)
    ensures HomeCounted(seen + [m],
      if m.result == Home then teamWins[m.homeTeam := Get0(teamWins, m.homeTeam) + 1] else teamWins,
      teamHomeGames[m.homeTeam := Get0(teamHomeGames, m.homeTeam) + 1])
  {
    var wins' := if m.result == Home then teamWins[m.homeTeam := Get0(teamWins, m.homeTeam) + 1] else teamWins;
    var games' := teamHomeGames[m.homeTeam := Get0(teamHomeGames, m.homeTeam) + 1];
    TeamsSnoc(seen, m);
    assert games'.Keys == teamHomeGames.Keys + {m.homeTeam};
    if m.homeTeam !in teamHomeGames {
      NoHomeGames(seen, m.homeTeam);
    }
    forall team | team in games' ensures games'[team] == HomeGames(seen + [m], team) {
      HomeCountsStep(seen, m, team);
    }
    forall team ensures Get0(wins', team) == HomeWins(seen + [m], team) {
      HomeCountsStep(seen, m, team);
    }
  }

  /** The second loop of find_fraction_of_home_wins: wins over games for every counted team. */
  method HomeFractions(ms: seq<Game>, teamWins: map<string, nat>, teamHomeGames: map<string, nat>) returns (fractions: map<string, real>)
    requires teamHomeGames.Keys == HomeTeams(ms)
    requires forall team :: team in teamHomeGames ==> teamHomeGames[team] == HomeGames(ms, team)
    requires forall team :: Get0(teamWins, team) == HomeWins(ms, team)
    ensures fractions.Keys == HomeTeams(ms)
    ensures forall team :: team in fractions ==>
      HomeGames(ms, team) > 0 && fractions[team] == Fraction(HomeWins(ms, team), HomeGames(ms, team))
  {
    fractions := map[];
    var todo := teamHomeGames.Keys;
    while todo != {}
      invariant todo <= teamHomeGames.Keys
      invariant fractions.Keys == teamHomeGames.Keys - todo
      invariant forall team :: team in fractions ==>
        HomeGames(ms, team) > 0 && fractions[team] == Fraction(HomeWins(ms, team), HomeGames(ms, team))
      decreases todo
    {
      var team :| team in todo;
      var wins := Get0(teamWins, team);
      var totalGames := teamHomeGames[team];
      HomeTeamHasHomeGames(ms, team);
      fractions := fractions[team := Fraction(wins, totalGames)];
      todo := todo - {team};
    }
  }

  /**
   * find_fraction_of_away_wins: for every team that played away, its away wins
   * over its away games. Each fraction lies in [0, 1], and is 0 for a team that
   * never won away.
   */
  method FindFractionOfAwayWins(fixtures: Fixtures<Game>) returns (fractions: map<string, real>)
    ensures fractions.Keys == AwayTeams(AllMatches(fixtures))
    ensures forall team :: team in fractions ==>
      AwayGames(AllMatches(fixtures), team) > 0
      && fractions[team] == Fraction(AwayWins(AllMatches(fixtures), team), AwayGames(AllMatches(fixtures), team))
    ensures forall team :: team in fractions ==> 0.0 <= fractions[team] <= 1.0
    ensures forall team :: team in fractions && AwayWins(AllMatches(fixtures), team) == 0 ==> fractions[team] == 0.0
  {
    var ms := AllMatches(fixtures);
    var teamWins, teamAwayGames := CountAwayGames(ms);
    fractions := AwayFractions(ms, teamWins, teamAwayGames);
  }

  /** The counting loop of find_fraction_of_away_wins: away games per team, and away wins (absent when none). */
  method CountAwayGames(ms: seq<Game>) returns (teamWins: map<string, nat>, teamAwayGames: map<string, nat>)
    ensures teamAwayGames.Keys == AwayTeams(ms)
    ensures forall team :: team in teamAwayGames ==> teamAwayGames[team] == AwayGames(ms, team)
    ensures forall team :: Get0(teamWins, team) == AwayWins(ms, team)
  {
    teamWins := map[];
    teamAwayGames := map[];
    for i := 0 to |ms|
      invariant AwayCounted(ms[..i], teamWins, teamAwayGames)
    {
      var m := ms[i];
      assert ms[..i + 1] == ms[..i] + [m];
      AwayCountedStep(ms[..i], m, teamWins, teamAwayGames);
      var awayTeam := m.awayTeam;
      if awayTeam in teamAwayGames {
        teamAwayGames := teamAwayGames[awayTeam := teamAwayGames[awayTeam] + 1];
      } else {
        teamAwayGames := teamAwayGames[awayTeam := 1];
      }
      if m.result == Away {
        if awayTeam in teamWins {
          teamWins := teamWins[awayTeam := teamWins[awayTeam] + 1];
        } else {
          teamWins := teamWins[awayTeam := 1];
        }
      }
    }
    assert ms[..|ms|] == ms;
  }

  /** The two counters of find_fraction_of_away_wins once the games ms are counted. */
  ghost predicate AwayCounted(ms: seq<Game>, teamWins: map<string, nat>, teamAwayGames: map<string, nat>) {
    && teamAwayGames.Keys == AwayTeams(ms)
    && (forall team :: team in teamAwayGames ==> teamAwayGames[team] == AwayGames(ms, team))
    && (forall team :: Get0(teamWins, team) == AwayWins(ms, team))
  }

  /** One pass of the counting loop: the away team's game count goes up, and its win count on a away win. */
  lemma AwayCountedStep(seen: seq<Game>, m: Game, teamWins: map<string, nat>, teamAwayGames: map<string, nat>)
    requires AwayCounted(seen, teamWins, teamAwayGames)
    ensures AwayCounted(seen + [m],
      if m.result == Away then teamWins[m.awayTeam := Get0(teamWins, m.awayTeam) + 1] else teamWins,
      teamAwayGames[m.awayTeam := Get0(teamAwayGames, m.awayTeam) + 1])
  {
    var wins' := if m.result == Away then teamWins[m.awayTeam := Get0(teamWins, m.awayTeam) + 1] else teamWins;
    var games' := teamAwayGames[m.awayTeam := Get0(teamAwayGames, m.awayTeam) + 1];
    TeamsSnoc(seen, m);
    assert games'.Keys == teamAwayGames.Keys + {m.awayTeam};
    if m.awayTeam !in teamAwayGames {
      NoAwayGames(seen, m.awayTeam);
    }
    forall team | team in games' ensures games'[team] == AwayGames(seen + [m], team) {
      AwayCountsStep(seen, m, team);
    }
    forall team ensures Get0(wins', team) == AwayWins(seen + [m], team) {
      AwayCountsStep(seen, m, team);
    }
  }

  /** The second loop of find_fraction_of_away_wins: wins over games for every counted team. */
  method AwayFractions(ms: seq<Game>, teamWins: map<string, nat>, teamAwayGames: map<string, nat>) returns (fractions: map<string, real>)
    requires teamAwayGames.Keys == AwayTeams(ms)
    requires forall team :: team in teamAwayGames ==> teamAwayGames[team] == AwayGames(ms, team)
    requires forall team :: Get0(teamWins, team) == AwayWins(ms, team)
    ensures fractions.Keys == AwayTeams(ms)
    ensures forall team :: team in fractions ==>
      AwayGames(ms, team) > 0 && fractions[team] == Fraction(AwayWins(ms, team), AwayGames(ms, team))
  {
    fractions := map[];
    var todo := teamAwayGames.Keys;
    while todo != {}
      invariant todo <= teamAwayGames.Keys
      invariant fractions.Keys == teamAwayGames.Keys - todo
      invariant forall team :: team in fractions ==>
        AwayGames(ms, team) > 0 && fractions[team] == Fraction(AwayWins(ms, team), AwayGames(ms, team))
      decreases todo
    {
      var team :| team in todo;
      var wins := Get0(teamWins, team);
      var totalGames := teamAwayGames[team];
      AwayTeamHasAwayGames(ms, team);
      fractions := fractions[team := Fraction(wins, totalGames)];
      todo := todo - {team};
    }
  }

  // ---------------------------------------------------------------------------
  // The rating update (calculate_expected_score is EloSystem.ExpectedScore)
  // ---------------------------------------------------------------------------

  /**
   * update_rating: the old rating moved by k times the surprise. With a positive k
   * the rating rises exactly when the actual score beats the expectation.
   */
  function UpdateRating(currentRating: real, actualScore: real, expectedScore: real, kFactor: real): (r: real)
    ensures actualScore == expectedScore ==> r == currentRating
    ensures kFactor > 0.0 ==> (r > currentRating <==> actualScore > expectedScore)
    ensures kFactor > 0.0 ==> (r < currentRating <==> actualScore < expectedScore)
  {
    EloSystem.PositiveScaledWhen(kFactor, actualScore - expectedScore);
    currentRating + kFactor * (actualScore - expectedScore)
  }

  /** `strengths.get(team, 0)`. */
  function StrengthOf(strengths: map<string, real>, team: string): real {
    if team in strengths then strengths[team] else 0.0
  }

  /**
   * hfa and afa of process_game: both strengths scaled by 100, the home advantage
   * pushed away from the away one by half their difference, and then the away
   * advantage pushed away from the already adjusted home advantage.
   */
  function Advantages(homeStrength: map<string, real>, awayStrength: map<string, real>, homeTeam: string, awayTeam: string): (r: (real, real))
    ensures var h, a := StrengthOf(homeStrength, homeTeam) * 100.0, StrengthOf(awayStrength, awayTeam) * 100.0;
      r.0 == (3.0 * h - a) / 2.0 && r.1 == (7.0 * a - 3.0 * h) / 4.0
    ensures StrengthOf(homeStrength, homeTeam) == StrengthOf(awayStrength, awayTeam) ==>
      r.0 == r.1 == StrengthOf(homeStrength, homeTeam) * 100.0
  {
    var hfa := StrengthOf(homeStrength, homeTeam) * 100.0;
    var afa := StrengthOf(awayStrength, awayTeam) * 100.0;
    var hfa' := hfa + (hfa - afa) / 2.0;
    var afa' := afa + (afa - hfa') / 2.0;
    (hfa', afa')
  }

  /**
   * actual_home and actual_away: raw goal counts, the larger one to the home side
   * and the smaller one to the away side, whoever scored them.
   */
  function GoalScores(homeScore: int, awayScore: int): (r: (real, real))
    ensures r.0 == Max(homeScore as real, awayScore as real)
    ensures r.1 == Min(homeScore as real, awayScore as real)
  {
    if homeScore > awayScore then (homeScore as real, awayScore as real)
    else if homeScore < awayScore then (awayScore as real, homeScore as real)
    else (homeScore as real, awayScore as real)
  }

  /**
   * team_ratings after process_game(g): unseen teams enter at 1500, the two teams
   * get their new ratings, every other entry stays.
   */
  function GameRatings(ratings: map<string, real>, homeStrength: map<string, real>, awayStrength: map<string, real>,
                       g: Game, kFactor: real, tm: Transcendentals): (r: map<string, real>)
    requires Lawful(tm)
    ensures forall t :: t in r <==> t in ratings || t == g.homeTeam || t == g.awayTeam
    ensures forall t :: t in ratings && t != g.homeTeam && t != g.awayTeam ==> r[t] == ratings[t]
  {
    var ratingHome := EloSystem.RatingOf(ratings, g.homeTeam, InitialRating);
    var ratingAway := EloSystem.RatingOf(ratings, g.awayTeam, InitialRating);
    var (hfa, afa) := Advantages(homeStrength, awayStrength, g.homeTeam, g.awayTeam);
    var expectedHome := EloSystem.ExpectedScore(ratingHome, ratingAway, hfa, tm);
    var expectedAway := EloSystem.ExpectedScore(ratingAway, ratingHome, afa, tm);
    var (actualHome, actualAway) := GoalScores(g.homeGoals, g.awayGoals);
    Rerated(ratings, g.homeTeam, g.awayTeam, UpdateRating(ratingHome, actualHome, expectedHome, kFactor),
            UpdateRating(ratingAway, actualAway, expectedAway, kFactor))
  }

  /** The ratings with the home side's new rating stored first and then the away side's. */
  function Rerated(ratings: map<string, real>, homeTeam: string, awayTeam: string, newHome: real, newAway: real): map<string, real> {
    ratings[homeTeam := newHome][awayTeam := newAway]
  }

  /** process_game: team_ratings updated in place, modelled as the map before and after. */
  method ProcessGame(game: Game, teamRatings: map<string, real>, kFactor: real,
                     homeStrength: map<string, real>, awayStrength: map<string, real>, tm: Transcendentals)
    returns (teamRatings': map<string, real>)
    requires Lawful(tm)
    ensures teamRatings' == GameRatings(teamRatings, homeStrength, awayStrength, game, kFactor, tm)
  {
    teamRatings' := teamRatings;
    if game.homeTeam !in teamRatings' {
      teamRatings' := teamRatings'[game.homeTeam := InitialRating];
    }
    if game.awayTeam !in teamRatings' {
      teamRatings' := teamRatings'[game.awayTeam := InitialRating];
    }
    var ratingHome := teamRatings'[game.homeTeam];
    var ratingAway := teamRatings'[game.awayTeam];
    var (hfa, afa) := Advantages(homeStrength, awayStrength, game.homeTeam, game.awayTeam);
    var expectedHome := EloSystem.ExpectedScore(ratingHome, ratingAway, hfa, tm);
    var expectedAway := EloSystem.ExpectedScore(ratingAway, ratingHome, afa, tm);
    var (actualHome, actualAway) := GoalScores(game.homeGoals, game.awayGoals);
    var newRatingHome := UpdateRating(ratingHome, actualHome, expectedHome, kFactor);
    var newRatingAway := UpdateRating(ratingAway, actualAway, expectedAway, kFactor);
    teamRatings' := teamRatings'[game.homeTeam := newRatingHome];
    teamRatings' := teamRatings'[game.awayTeam := newRatingAway];
  }

  /** A team process_game has not seen plays exactly as if it had been rated 1500. */
  lemma UnseenTeamsStartAt1500(ratings: map<string, real>, homeStrength: map<string, real>, awayStrength: map<string, real>,
                               g: Game, kFactor: real, tm: Transcendentals)
    requires Lawful(tm)
    ensures var seeded := map t | t in ratings.Keys + {g.homeTeam, g.awayTeam} :: EloSystem.RatingOf(ratings, t, InitialRating);
      GameRatings(ratings, homeStrength, awayStrength, g, kFactor, tm) == GameRatings(seeded, homeStrength, awayStrength, g, kFactor, tm)
  {
    var seeded := map t | t in ratings.Keys + {g.homeTeam, g.awayTeam} :: EloSystem.RatingOf(ratings, t, InitialRating);
    assert EloSystem.RatingOf(seeded, g.homeTeam, InitialRating) == EloSystem.RatingOf(ratings, g.homeTeam, InitialRating);
    assert EloSystem.RatingOf(seeded, g.awayTeam, InitialRating) == EloSystem.RatingOf(ratings, g.awayTeam, InitialRating);
    SeededUpdate(ratings, seeded, g.homeTeam, g.awayTeam);
  }

  /** Updating both teams of a match erases the difference between a map and its seeded copy. */
  lemma SeededUpdate(ratings: map<string, real>, seeded: map<string, real>, homeTeam: string, awayTeam: string)
    requires forall t :: t in seeded <==> t in ratings || t == homeTeam || t == awayTeam
    requires forall t :: t in ratings ==> t in seeded && seeded[t] == ratings[t]
    ensures forall x, y :: Rerated(ratings, homeTeam, awayTeam, x, y) == Rerated(seeded, homeTeam, awayTeam, x, y)
  {
    forall x, y ensures Rerated(ratings, homeTeam, awayTeam, x, y) == Rerated(seeded, homeTeam, awayTeam, x, y) {
      var a, b := ratings[homeTeam := x][awayTeam := y], seeded[homeTeam := x][awayTeam := y];
      assert forall t :: t in a <==> t in b;
      assert forall t :: t in a ==> a[t] == b[t];
    }
  }

  /**
   * Because the home side is always credited with the larger goal count, with a
   * positive k it gains rating from every decided match, also one it lost; and a
   * side credited with no goals (the away side of any 1-0 or 0-1) loses rating,
   * also when it won.
   */
  lemma DecidedMatchFavoursHomeSide(ratings: map<string, real>, homeStrength: map<string, real>, awayStrength: map<string, real>,
                                    g: Game, kFactor: real, tm: Transcendentals)
    requires Lawful(tm) && kFactor > 0.0 && g.homeTeam != g.awayTeam
    ensures var r := GameRatings(ratings, homeStrength, awayStrength, g, kFactor, tm);
      && (g.homeGoals != g.awayGoals && g.homeGoals >= 0 && g.awayGoals >= 0 ==>
            r[g.homeTeam] > EloSystem.RatingOf(ratings, g.homeTeam, InitialRating))
      && (Min(g.homeGoals as real, g.awayGoals as real) == 0.0 ==>
            r[g.awayTeam] < EloSystem.RatingOf(ratings, g.awayTeam, InitialRating))
  {
    var seeded := EloSystem.Seed(EloSystem.Seed(ratings, g.homeTeam, InitialRating), g.awayTeam, InitialRating);
    assert seeded[g.homeTeam] == EloSystem.RatingOf(ratings, g.homeTeam, InitialRating);
    assert seeded[g.awayTeam] == EloSystem.RatingOf(ratings, g.awayTeam, InitialRating);
  }

  // ---------------------------------------------------------------------------
  // calculate_match_probabilities
  // ---------------------------------------------------------------------------

  /** The shared denominator e^(d/theta) + e^(-d/theta) + K for a rating difference d. */
  function Denominator(delta: real, tm: Transcendentals): (r: real)
    requires Lawful(tm)
    ensures r > DrawWeight
  {
    tm.exp(delta / Theta) + tm.exp(-delta / Theta) + DrawWeight
  }

  /**
   * calculate_match_probabilities: the home and away weights e^(d/theta) and
   * e^(-d/theta) for d = rating_home + home_advantage - rating_away, and the draw
   * constant K, each divided by their total. The three add up to 1, each lies
   * strictly between 0 and 1, and the draw is K over that total.
   */
  function CalculateMatchProbabilities(ratingHome: real, ratingAway: real, homeAdvantage: real, tm: Transcendentals)
    : (r: EloSystem.Probabilities)
    requires Lawful(tm)
    ensures r.homeWin + r.draw + r.awayWin == 1.0
    ensures 0.0 < r.homeWin < 1.0 && 0.0 < r.draw < 1.0 && 0.0 < r.awayWin < 1.0
    ensures r.draw == DrawWeight / Denominator(ratingHome + homeAdvantage - ratingAway, tm)
  {
    var deltaR := ratingHome + homeAdvantage - ratingAway;
    var expPositive := tm.exp(deltaR / Theta);
    var expNegative := tm.exp(-deltaR / Theta);
    var denominator := expPositive + expNegative + DrawWeight;
    WeightsShareOne(expPositive, DrawWeight, expNegative, denominator);
    EloSystem.Probabilities(expPositive / denominator, DrawWeight / denominator, expNegative / denominator)
  }

  /** Three positive weights over their total: each strictly between 0 and 1, and together 1. */
  lemma WeightsShareOne(a: real, b: real, c: real, t: real)
    requires a > 0.0 && b > 0.0 && c > 0.0 && t == a + b + c
    ensures a / t + b / t + c / t == 1.0
    ensures 0.0 < a / t < 1.0 && 0.0 < b / t < 1.0 && 0.0 < c / t < 1.0
  {
    Normalized(a, b, c, t);
  }

  /**
   * Negating the rating difference swaps the home and away probabilities and
   * keeps the draw: in particular, swapping the two ratings and negating the
   * advantage.
   */
  lemma ProbabilitiesSwap(ratingHome: real, ratingAway: real, homeAdvantage: real,
                          ratingHome': real, ratingAway': real, homeAdvantage': real, tm: Transcendentals)
    requires Lawful(tm)
    requires ratingHome' + homeAdvantage' - ratingAway' == -(ratingHome + homeAdvantage - ratingAway)
    ensures var p := CalculateMatchProbabilities(ratingHome, ratingAway, homeAdvantage, tm);
      var q := CalculateMatchProbabilities(ratingHome', ratingAway', homeAdvantage', tm);
      q.homeWin == p.awayWin && q.draw == p.draw && q.awayWin == p.homeWin
  {
    var d := ratingHome + homeAdvantage - ratingAway;
    var d' := ratingHome' + homeAdvantage' - ratingAway';
    assert d' / Theta == -d / Theta;
    assert -d' / Theta == d / Theta;
  }

  // ---------------------------------------------------------------------------
  // calculate_form
  // ---------------------------------------------------------------------------

  /** A form window: a deque(maxlen=5) of rating gains, oldest first. */
  type FormWindow = w: seq<real> | |w| <= 5

  /** The latest 5 elements of xs: what a deque(maxlen=5) fed with xs holds. */
  function Last5(xs: seq<real>): (r: FormWindow)
    ensures |xs| <= 5 ==> r == xs
    ensures |xs| > 5 ==> r == xs[|xs| - 5..]
  {
    if |xs| <= 5 then xs else xs[|xs| - 5..]
  }

  /** `window.append(x)`: on a full deque the oldest gain drops out. */
  function Push(window: FormWindow, x: real): (r: FormWindow)
    ensures |r| > 0 && r[|r| - 1] == x
  {
    if |window| < 5 then window + [x] else window[1..] + [x]
  }

  /** Feeding a deque after it has dropped old elements gives what feeding it everything gives. */
  lemma PushLast5(xs: seq<real>, x: real)
    ensures Push(Last5(xs), x) == Last5(xs + [x])
  {
    if |xs| > 5 {
      assert Last5(xs)[1..] + [x] == (xs + [x])[|xs + [x]| - 5..];
    } else if |xs| == 5 {
      assert xs[1..] + [x] == (xs + [x])[1..];
    }
  }

  /** `sum(window) / len(window) if window else 0`. */
  function Mean(window: seq<real>): (r: real)
    ensures window == [] ==> r == 0.0
  {
    if window == [] then 0.0 else Sum(window) / |window| as real
  }

  /** The mean of gains each at most `bound` in size is at most `bound` in size. */
  lemma MeanWithin(window: seq<real>, bound: real)
    requires bound >= 0.0
    requires forall i :: 0 <= i < |window| ==> Abs(window[i]) <= bound
    ensures Abs(Mean(window)) <= bound
  {
    if window != [] {
      var n := |window| as real;
      SumBounded(window, |window|, bound);
      MeanBound(Sum(window), n, bound, 1.0);
      assert (Sum(window) / n) * 1.0 == Mean(window);
    }
  }

  /** What calculate_form tracks: the ratings, and every team's gains so far, oldest first. */
  datatype FormState = FormState(ratings: map<string, real>, gains: map<string, seq<real>>)

  /** `history[team]`, or no gains. */
  function GainsOf(gains: map<string, seq<real>>, team: string): seq<real> {
    if team in gains then gains[team] else []
  }

  /**
   * A rating update rates the teams it is given and the two teams of the match,
   * no others, and changes no rating but those of the two teams.
   */
  ghost predicate RatesMatchTeams(rate: (map<string, real>, Game) -> map<string, real>) {
    && (forall ratings: map<string, real>, g: Game, t {:trigger t in rate(ratings, g)} :: t in rate(ratings, g) <==> t in ratings || t == g.homeTeam || t == g.awayTeam)
    && (forall ratings: map<string, real>, g: Game, t {:trigger rate(ratings, g)[t]} :: t in ratings && t != g.homeTeam && t != g.awayTeam ==> rate(ratings, g)[t] == ratings[t])
  }

  /**
   * The rating update of one match, as the ratings before and after. The loops
   * and the form below are stated for any such update; they use process_game
   * (EloRater), calculate_form with the default k.
   */
  type Rater = rate: (map<string, real>, Game) -> map<string, real> | RatesMatchTeams(rate)
    witness (ratings: map<string, real>, g: Game) => ratings[g.homeTeam := 0.0][g.awayTeam := 0.0]

  /** process_game with the given k. */
  function EloRater(homeStrength: map<string, real>, awayStrength: map<string, real>, kFactor: real, tm: Transcendentals): Rater
    requires Lawful(tm)
  {
    (ratings: map<string, real>, g: Game) => GameRatings(ratings, homeStrength, awayStrength, g, kFactor, tm)
  }

  /** `rate` is process_game with k wherever process_game is applied. */
  ghost predicate RatesAsProcessGame(rate: Rater, homeStrength: map<string, real>, awayStrength: map<string, real>, kFactor: real, tm: Transcendentals)
    requires Lawful(tm)
  {
    forall ratings, g {:trigger GameRatings(ratings, homeStrength, awayStrength, g, kFactor, tm)} ::
      rate(ratings, g) == GameRatings(ratings, homeStrength, awayStrength, g, kFactor, tm)
  }

  lemma EloRaterRatesAsProcessGame(homeStrength: map<string, real>, awayStrength: map<string, real>, kFactor: real, tm: Transcendentals)
    requires Lawful(tm)
    ensures RatesAsProcessGame(EloRater(homeStrength, awayStrength, kFactor, tm), homeStrength, awayStrength, kFactor, tm)
  {
  }

  /** The two facts every rating update keeps, for one application. */
  lemma RateFacts(rate: Rater, ratings: map<string, real>, g: Game)
    ensures forall t :: t in rate(ratings, g) <==> t in ratings || t == g.homeTeam || t == g.awayTeam
    ensures forall t :: t in ratings && t != g.homeTeam && t != g.awayTeam ==> rate(ratings, g)[t] == ratings[t]
  {
  }

  // ---------------------------------------------------------------------------
  // process_round, process_year, run_elo_rating_system
  // ---------------------------------------------------------------------------

  /** The k_factor process_round, process_year and run_elo_rating_system pass on by default. */
  const LoopK: real := 20.0

  /** initialize_team_ratings: an empty map, whatever initial rating it is given. */
  function InitializeTeamRatings(initialRating: real): (r: map<string, real>)
    ensures forall t :: t !in r
  {
    map[]
  }

  /** The ratings after the games ms, one after the other, from `ratings`. */
  function Trained(ratings: map<string, real>, ms: seq<Game>, rate: Rater): map<string, real> {
    if ms == [] then ratings else rate(Trained(ratings, ms[..|ms| - 1], rate), ms[|ms| - 1])
  }

  /**
   * Training rates the teams it started with and the teams of the games, no
   * other; a team that plays none of the games keeps its rating.
   */
  lemma {:induction false} TrainedTeams(ratings: map<string, real>, ms: seq<Game>, rate: Rater)
    ensures forall t :: t in Trained(ratings, ms, rate) <==> t in ratings || t in GameTeams(ms)
    ensures forall t :: t in ratings && t !in GameTeams(ms) ==> Trained(ratings, ms, rate)[t] == ratings[t]
  {
    if ms != [] {
      var init, last := ms[..|ms| - 1], ms[|ms| - 1];
      TrainedTeams(ratings, init, rate);
      GameTeamsStep(ms, |ms| - 1);
      assert ms[..|ms|] == ms;
      RateFacts(rate, Trained(ratings, init, rate), last);
    }
  }

  /** Training on a + b is training on a and then on b from where a left off. */
  lemma {:induction false} TrainedAppend(ratings: map<string, real>, a: seq<Game>, b: seq<Game>, rate: Rater)
    ensures Trained(ratings, a + b, rate) == Trained(Trained(ratings, a, rate), b, rate)
  {
    if b == [] {
      assert a + b == a;
    } else {
      var init := b[..|b| - 1];
      assert (a + b)[..|a + b| - 1] == a + init;
      TrainedAppend(ratings, a, init, rate);
    }
  }

  /** What run_elo_rating_system returns for fixtures.json `data`. */
  function TrainedRatings(data: Fixtures<Game>, homeStrength: map<string, real>, awayStrength: map<string, real>,
                          kFactor: real, tm: Transcendentals): map<string, real>
    requires Lawful(tm)
  {
    Trained(map[], AllMatches(data), EloRater(homeStrength, awayStrength, kFactor, tm))
  }

  /** process_round: the games of one round, in order. */
  method ProcessRound(gamesList: seq<Game>, teamRatings: map<string, real>, kFactor: real,
                      homeStrength: map<string, real>, awayStrength: map<string, real>, tm: Transcendentals, ghost rate: Rater)
    returns (teamRatings': map<string, real>)
    requires Lawful(tm) && RatesAsProcessGame(rate, homeStrength, awayStrength, kFactor, tm)
    ensures teamRatings' == Trained(teamRatings, gamesList, rate)
  {
    teamRatings' := teamRatings;
    for i := 0 to |gamesList|
      invariant teamRatings' == Trained(teamRatings, gamesList[..i], rate)
    {
      assert gamesList[..i + 1][..i] == gamesList[..i];
      teamRatings' := RateMatch(gamesList[i], teamRatings', kFactor, homeStrength, awayStrength, tm, rate);
    }
    assert gamesList[..|gamesList|] == gamesList;
  }

  /** process_year: the rounds of one season, in order. */
  method ProcessYear(yearData: seq<Round<Game>>, teamRatings: map<string, real>, kFactor: real,
                     homeStrength: map<string, real>, awayStrength: map<string, real>, tm: Transcendentals, ghost rate: Rater)
    returns (teamRatings': map<string, real>)
    requires Lawful(tm) && RatesAsProcessGame(rate, homeStrength, awayStrength, kFactor, tm)
    ensures teamRatings' == Trained(teamRatings, RoundsMatches(yearData), rate)
  {
    teamRatings' := teamRatings;
    for j := 0 to |yearData|
      invariant teamRatings' == Trained(teamRatings, RoundsMatches(yearData[..j]), rate)
    {
      RoundsMatchesStep(yearData, j);
      TrainedAppend(teamRatings, RoundsMatches(yearData[..j]), yearData[j].matches, rate);
      teamRatings' := ProcessRound(yearData[j].matches, teamRatings', kFactor, homeStrength, awayStrength, tm, rate);
    }
    assert yearData[..|yearData|] == yearData;
  }

  /**
   * run_elo_rating_system: from an empty map (the initial rating is never used),
   * every season in order, with k passed down to process_game; the result rates
   * exactly the teams of the fixtures.
   */
  method RunEloRatingSystem(data: Fixtures<Game>, initialRating: real, kFactor: real,
                            homeStrength: map<string, real>, awayStrength: map<string, real>, tm: Transcendentals)
    returns (teamRatings: map<string, real>)
    requires Lawful(tm)
    ensures teamRatings == TrainedRatings(data, homeStrength, awayStrength, kFactor, tm)
    ensures forall t :: t in teamRatings <==> t in GameTeams(AllMatches(data))
  {
    ghost var rate := EloRater(homeStrength, awayStrength, kFactor, tm);
    EloRaterRatesAsProcessGame(homeStrength, awayStrength, kFactor, tm);
    teamRatings := InitializeTeamRatings(initialRating);
    for i := 0 to |data|
      invariant teamRatings == Trained(map[], AllMatches(data[..i]), rate)
    {
      AllMatchesStep(data, i);
      TrainedAppend(map[], AllMatches(data[..i]), RoundsMatches(data[i].rounds), rate);
      teamRatings := ProcessYear(data[i].rounds, teamRatings, kFactor, homeStrength, awayStrength, tm, rate);
    }
    assert data[..|data|] == data;
    TrainedTeams(map[], AllMatches(data), rate);
  }

  /**
   * One match of calculate_form: both teams must already be rated (init_elos is
   * looked up first), then the rating update, and each team's gain is its new
   * rating minus its rating before the match.
   */
  function FormStep(st: FormState, m: Game, rate: Rater): (r: Result<FormState>)
    ensures r.Ok? <==> m.homeTeam in st.ratings && m.awayTeam in st.ratings
    ensures r.Err? ==> r.error == KeyError
  {
    if m.homeTeam !in st.ratings || m.awayTeam !in st.ratings then Err(KeyError)
    else
      var after := rate(st.ratings, m);
      var homeGain := after[m.homeTeam] - st.ratings[m.homeTeam];
      var awayGain := after[m.awayTeam] - st.ratings[m.awayTeam];
      Ok(FormState(after, RecordGains(st.gains, m.homeTeam, m.awayTeam, homeGain, awayGain)))
  }

  /** The home team's gain goes to its history, then the away team's to its one. */
  function RecordGains(gains: map<string, seq<real>>, homeTeam: string, awayTeam: string, homeGain: real, awayGain: real)
    : map<string, seq<real>>
  {
    var gains' := gains[homeTeam := GainsOf(gains, homeTeam) + [homeGain]];
    gains'[awayTeam := GainsOf(gains', awayTeam) + [awayGain]]
  }

  /** A match rates no new team, and gives both of its teams a gain history. */
  lemma FormStepKeys(st: FormState, m: Game, rate: Rater)
    requires FormStep(st, m, rate).Ok?
    ensures var after := FormStep(st, m, rate).value;
      after.ratings.Keys == st.ratings.Keys && after.gains.Keys == st.gains.Keys + {m.homeTeam, m.awayTeam}
  {
  }

  /** The state after the first n matches of ms. */
  function FormAfter(st: FormState, ms: seq<Game>, n: nat, rate: Rater): Result<FormState>
    requires n <= |ms|
  {
    if n == 0 then Ok(st)
    else match FormAfter(st, ms, n - 1, rate)
      case Err(e) => Err(e)
      case Ok(before) => FormStep(before, ms[n - 1], rate)
  }

  /** Each team of `elo`, with no gains yet. */
  function FormStart(elo: map<string, real>): FormState {
    FormState(elo, map t | t in elo :: [])
  }

  /** The form over the matches ms from the ratings `elo`: each team's mean over its last 5 gains. */
  function FormWith(ms: seq<Game>, elo: map<string, real>, rate: Rater): Result<map<string, real>> {
    match FormAfter(FormStart(elo), ms, |ms|, rate)
    case Err(e) => Err(e)
    case Ok(st) => Ok(map t | t in elo :: Mean(Last5(GainsOf(st.gains, t))))
  }

  /** The form calculate_form returns for the team ratings `elo`. */
  function FormOf(fixtures: Fixtures<Game>, elo: map<string, real>, homeStrength: map<string, real>, awayStrength: map<string, real>, tm: Transcendentals)
    : Result<map<string, real>>
    requires Lawful(tm)
  {
    FormWith(AllMatches(fixtures), elo, EloRater(homeStrength, awayStrength, DefaultK, tm))
  }

  /**
   * The run succeeds exactly when every team of every match is already rated (no
   * team is ever added), it fails only with KeyError, and it then rates exactly
   * the teams it started with.
   */
  lemma {:induction false} FormAfterKeys(st: FormState, ms: seq<Game>, n: nat, rate: Rater)
    requires n <= |ms|
    ensures var r := FormAfter(st, ms, n, rate);
      && (r.Ok? <==> GameTeams(ms[..n]) <= st.ratings.Keys)
      && (r.Err? ==> r.error == KeyError)
      && (r.Ok? ==> r.value.ratings.Keys == st.ratings.Keys)
  {
    if n > 0 {
      FormAfterKeys(st, ms, n - 1, rate);
      GameTeamsStep(ms, n - 1);
      var before := FormAfter(st, ms, n - 1, rate);
      if before.Ok? && FormStep(before.value, ms[n - 1], rate).Ok? {
        FormStepKeys(before.value, ms[n - 1], rate);
      }
    }
  }

  /**
   * calculate_form succeeds exactly when every team of every match is in `elo`,
   * fails only with KeyError, and then gives a form to exactly the teams of `elo`.
   */
  lemma FormOfKeys(fixtures: Fixtures<Game>, elo: map<string, real>, homeStrength: map<string, real>, awayStrength: map<string, real>, tm: Transcendentals)
    requires Lawful(tm)
    ensures var r := FormOf(fixtures, elo, homeStrength, awayStrength, tm);
      && (r.Ok? <==> GameTeams(AllMatches(fixtures)) <= elo.Keys)
      && (r.Err? ==> r.error == KeyError)
      && (r.Ok? ==> forall t :: t in r.value <==> t in elo)
  {
    var ms := AllMatches(fixtures);
    FormAfterKeys(FormStart(elo), ms, |ms|, EloRater(homeStrength, awayStrength, DefaultK, tm));
    assert ms[..|ms|] == ms;
  }

  /** Once a match fails, the whole run fails. */
  lemma {:induction false} FormErrorPersists(st: FormState, ms: seq<Game>, n: nat, n': nat, rate: Rater)
    requires n <= n' <= |ms|
    requires FormAfter(st, ms, n, rate).Err?
    ensures FormAfter(st, ms, n', rate) == FormAfter(st, ms, n, rate)
  {
    if n' > n {
      FormErrorPersists(st, ms, n, n' - 1, rate);
    }
  }

  /**
   * Each gain is measured against the rating the previous match left: the gains a
   * team has collected add up to its rating change over the run. (A match of a team
   * against itself would count its change twice, so those are excluded.)
   */
  lemma {:induction false} GainsTelescope(st: FormState, ms: seq<Game>, n: nat, team: string, rate: Rater)
    requires n <= |ms|
    requires forall k :: 0 <= k < n ==> ms[k].homeTeam != ms[k].awayTeam
    requires team in st.ratings
    requires FormAfter(st, ms, n, rate).Ok?
    ensures var after := FormAfter(st, ms, n, rate).value;
      team in after.ratings
      && Sum(GainsOf(after.gains, team)) == Sum(GainsOf(st.gains, team)) + (after.ratings[team] - st.ratings[team])
  {
    if n > 0 {
      assert FormAfter(st, ms, n - 1, rate).Ok?;
      GainsTelescope(st, ms, n - 1, team, rate);
      var before := FormAfter(st, ms, n - 1, rate).value;
      FormAfterUnfold(st, ms, n, rate);
      StepTelescope(before, ms[n - 1], team, rate);
    }
  }

  lemma FormAfterUnfold(st: FormState, ms: seq<Game>, n: nat, rate: Rater)
    requires 0 < n <= |ms| && FormAfter(st, ms, n - 1, rate).Ok?
    ensures FormAfter(st, ms, n, rate) == FormStep(FormAfter(st, ms, n - 1, rate).value, ms[n - 1], rate)
  {
  }

  /** One match adds its gain to the team's gains exactly when it changes the team's rating. */
  lemma StepTelescope(before: FormState, m: Game, team: string, rate: Rater)
    requires m.homeTeam != m.awayTeam && team in before.ratings
    requires FormStep(before, m, rate).Ok?
    ensures var after := FormStep(before, m, rate).value;
      team in after.ratings
      && Sum(GainsOf(after.gains, team)) == Sum(GainsOf(before.gains, team)) + (after.ratings[team] - before.ratings[team])
  {
    var after := FormStep(before, m, rate).value;
    var homeGain := after.ratings[m.homeTeam] - before.ratings[m.homeTeam];
    var awayGain := after.ratings[m.awayTeam] - before.ratings[m.awayTeam];
    RecordedGains(before.gains, m.homeTeam, m.awayTeam, homeGain, awayGain, team);
    var g := GainsOf(before.gains, team);
    if team == m.homeTeam || team == m.awayTeam {
      var x := after.ratings[team] - before.ratings[team];
      assert (g + [x])[..|g|] == g;
    }
  }

  /** What RecordGains does to one team's gains, for a match between two different teams. */
  lemma RecordedGains(gains: map<string, seq<real>>, homeTeam: string, awayTeam: string, homeGain: real, awayGain: real, team: string)
    requires homeTeam != awayTeam
    ensures GainsOf(RecordGains(gains, homeTeam, awayTeam, homeGain, awayGain), team)
      == if team == homeTeam then GainsOf(gains, homeTeam) + [homeGain]
         else if team == awayTeam then GainsOf(gains, awayTeam) + [awayGain]
         else GainsOf(gains, team)
  {
  }

  /**
   * calculate_form: `init_elos` is a copy of the ratings that is brought up to date
   * after every match, so it always equals them; each team's deque holds the last
   * 5 of its gains; the result is their mean per team of `elo`, 0 without a gain.
   */
  method CalculateForm(fixtures: Fixtures<Game>, elo: map<string, real>, homeStrength: map<string, real>, awayStrength: map<string, real>, tm: Transcendentals)
    returns (teamForm: Result<map<string, real>>)
    requires Lawful(tm)
    ensures teamForm == FormOf(fixtures, elo, homeStrength, awayStrength, tm)
  {
    ghost var rate := EloRater(homeStrength, awayStrength, DefaultK, tm);
    EloRaterRatesAsProcessGame(homeStrength, awayStrength, DefaultK, tm);
    teamForm := FormLoop(AllMatches(fixtures), elo, homeStrength, awayStrength, tm, rate);
  }

  /**
   * calculate_form's loop over the matches ms, stated for any rating update that
   * agrees with process_game.
   */
  method FormLoop(ms: seq<Game>, elo: map<string, real>, homeStrength: map<string, real>, awayStrength: map<string, real>,
                  tm: Transcendentals, ghost rate: Rater)
    returns (teamForm: Result<map<string, real>>)
    requires Lawful(tm) && RatesAsProcessGame(rate, homeStrength, awayStrength, DefaultK, tm)
    ensures teamForm == FormWith(ms, elo, rate)
  {
    var ratings := elo;
    var initElos := elo;
    var form: map<string, FormWindow> := map t | t in elo :: [];
    ghost var gains: map<string, seq<real>> := FormStart(elo).gains;
    for i := 0 to |ms|
      invariant FormLoopInv(elo, ms, i, rate, ratings, initElos, form, gains)
    {
      var m := ms[i];
      if m.homeTeam !in initElos || m.awayTeam !in initElos {
        FormErrorPersists(FormStart(elo), ms, i + 1, |ms|, rate);
        return Err(KeyError);
      }
      var initialEloHome := initElos[m.homeTeam];
      var initialEloAway := initElos[m.awayTeam];
      var ratings' := RateMatch(m, ratings, DefaultK, homeStrength, awayStrength, tm, rate);
      var homeGain := ratings'[m.homeTeam] - initialEloHome;
      var awayGain := ratings'[m.awayTeam] - initialEloAway;
      FormLoopStep(elo, ms, i, rate, ratings, form, gains, ratings', homeGain, awayGain);
      form := PushForm(form, m.homeTeam, m.awayTeam, homeGain, awayGain);
      gains := RecordGains(gains, m.homeTeam, m.awayTeam, homeGain, awayGain);
      initElos := initElos[m.homeTeam := ratings'[m.homeTeam]][m.awayTeam := ratings'[m.awayTeam]];
      ratings := ratings';
    }
    assert ms[..|ms|] == ms;
    teamForm := Ok(map t | t in ratings :: Mean(form[t]));
    FormMeans(elo, ratings, form, gains);
  }

  /**
   * What calculate_form's loop keeps after i matches: the ratings and gains are the
   * specification's, init_elos is the same as the ratings, and every team of `elo` has
   * a deque holding the last five of its gains.
   */
  ghost predicate FormLoopInv(elo: map<string, real>, ms: seq<Game>, i: nat, rate: Rater, ratings: map<string, real>,
                              initElos: map<string, real>, form: map<string, FormWindow>, gains: map<string, seq<real>>)
  {
    && i <= |ms|
    && FormAfter(FormStart(elo), ms, i, rate) == Ok(FormState(ratings, gains))
    && initElos == ratings
    && (forall t :: t in ratings <==> t in elo)
    && (forall t :: t in ratings <==> t in form)
    && (forall t :: t in ratings <==> t in gains)
    && (forall t :: t in form ==> form[t] == Last5(gains[t]))
  }

  /** One pass of calculate_form's loop, with both teams rated, keeps FormLoopInv. */
  lemma FormLoopStep(elo: map<string, real>, ms: seq<Game>, i: nat, rate: Rater, ratings: map<string, real>,
                     form: map<string, FormWindow>, gains: map<string, seq<real>>, ratings': map<string, real>,
                     homeGain: real, awayGain: real)
    requires FormLoopInv(elo, ms, i, rate, ratings, ratings, form, gains) && i < |ms|
    requires ms[i].homeTeam in ratings && ms[i].awayTeam in ratings
    requires ratings' == rate(ratings, ms[i])
    requires homeGain == ratings'[ms[i].homeTeam] - ratings[ms[i].homeTeam]
    requires awayGain == ratings'[ms[i].awayTeam] - ratings[ms[i].awayTeam]
    ensures FormLoopInv(elo, ms, i + 1, rate, ratings',
                        ratings[ms[i].homeTeam := ratings'[ms[i].homeTeam]][ms[i].awayTeam := ratings'[ms[i].awayTeam]],
                        PushForm(form, ms[i].homeTeam, ms[i].awayTeam, homeGain, awayGain),
                        RecordGains(gains, ms[i].homeTeam, ms[i].awayTeam, homeGain, awayGain))
  {
    var m := ms[i];
    FormAfterNext(FormStart(elo), ms, i, rate, ratings, gains, ratings', homeGain, awayGain);
    PushFormRecords(form, gains, m.homeTeam, m.awayTeam, homeGain, awayGain);
    CopyCaughtUp(ratings, m, rate);
  }

  /**
   * A copy of the ratings that takes the two new ratings of a match equals the
   * ratings after the match.
   */
  lemma CopyCaughtUp(ratings: map<string, real>, m: Game, rate: Rater)
    requires m.homeTeam in ratings && m.awayTeam in ratings
    ensures var ratings' := rate(ratings, m);
      ratings[m.homeTeam := ratings'[m.homeTeam]][m.awayTeam := ratings'[m.awayTeam]] == ratings'
  {
    var ratings' := rate(ratings, m);
    var copy := ratings[m.homeTeam := ratings'[m.homeTeam]][m.awayTeam := ratings'[m.awayTeam]];
    assert forall t :: t in copy <==> t in ratings';
    assert forall t :: t in copy ==> copy[t] == ratings'[t];
  }

  /** The result of the loop: the mean of each team's window of its last 5 gains. */
  lemma FormMeans(elo: map<string, real>, ratings: map<string, real>, form: map<string, FormWindow>, gains: map<string, seq<real>>)
    requires forall t :: t in ratings <==> t in elo
    requires forall t :: t in ratings <==> t in form
    requires forall t :: t in ratings <==> t in gains
    requires forall t :: t in form ==> form[t] == Last5(gains[t])
    ensures (map t | t in ratings :: Mean(form[t])) == (map t | t in elo :: Mean(Last5(GainsOf(gains, t))))
  {
    forall t | t in elo ensures t in ratings && Mean(form[t]) == Mean(Last5(GainsOf(gains, t))) {
      assert GainsOf(gains, t) == gains[t];
    }
  }

  /** One more match: the rating update, then both gains recorded. */
  lemma FormAfterNext(st: FormState, ms: seq<Game>, i: nat, rate: Rater,
                      ratings: map<string, real>, gains: map<string, seq<real>>, ratings': map<string, real>,
                      homeGain: real, awayGain: real)
    requires i < |ms| && FormAfter(st, ms, i, rate) == Ok(FormState(ratings, gains))
    requires ms[i].homeTeam in ratings && ms[i].awayTeam in ratings
    requires ratings' == rate(ratings, ms[i])
    requires homeGain == ratings'[ms[i].homeTeam] - ratings[ms[i].homeTeam]
    requires awayGain == ratings'[ms[i].awayTeam] - ratings[ms[i].awayTeam]
    ensures FormAfter(st, ms, i + 1, rate) == Ok(FormState(ratings', RecordGains(gains, ms[i].homeTeam, ms[i].awayTeam, homeGain, awayGain)))
  {
  }

  /** process_game, as the rating update `rate` of match m. */
  method RateMatch(m: Game, ratings: map<string, real>, kFactor: real, homeStrength: map<string, real>, awayStrength: map<string, real>,
                   tm: Transcendentals, ghost rate: Rater)
    returns (ratings': map<string, real>)
    requires Lawful(tm) && RatesAsProcessGame(rate, homeStrength, awayStrength, kFactor, tm)
    ensures ratings' == rate(ratings, m)
  {
    ratings' := ProcessGame(m, ratings, kFactor, homeStrength, awayStrength, tm);
  }

  /** `form[home_team].append(home_gain)`, then the same for the away team. */
  function PushForm(form: map<string, FormWindow>, homeTeam: string, awayTeam: string, homeGain: real, awayGain: real)
    : map<string, FormWindow>
    requires homeTeam in form && awayTeam in form
  {
    var form' := form[homeTeam := Push(form[homeTeam], homeGain)];
    form'[awayTeam := Push(form'[awayTeam], awayGain)]
  }

  /**
   * When every deque holds the last 5 gains of its team, it still does once both
   * teams' deques have taken the new gains and the gains are recorded.
   */
  lemma PushFormRecords(form: map<string, FormWindow>, gains: map<string, seq<real>>,
                        homeTeam: string, awayTeam: string, homeGain: real, awayGain: real)
    requires homeTeam in form && awayTeam in form
    requires forall t :: t in form <==> t in gains
    requires forall t :: t in form ==> form[t] == Last5(gains[t])
    ensures var form', gains' := PushForm(form, homeTeam, awayTeam, homeGain, awayGain),
                                 RecordGains(gains, homeTeam, awayTeam, homeGain, awayGain);
      && (forall t :: t in form' <==> t in form)
      && (forall t :: t in form' <==> t in gains')
      && (forall t :: t in form' ==> form'[t] == Last5(gains'[t]))
  {
    var homeHistory := gains[homeTeam];
    PushLast5(homeHistory, homeGain);
    var gains1 := gains[homeTeam := homeHistory + [homeGain]];
    var form1 := form[homeTeam := Push(form[homeTeam], homeGain)];
    var awayHistory := gains1[awayTeam];
    PushLast5(awayHistory, awayGain);
    assert forall t :: t in form1 ==> form1[t] == Last5(gains1[t]);
  }

  // ---------------------------------------------------------------------------
  // simulate_games
  // ---------------------------------------------------------------------------

  /** The home advantage simulate_games uses: the home strength pushed away from the away one by half their difference. */
  function StrengthAdvantage(homeStrength: real, awayStrength: real): (r: real)
    ensures r - homeStrength == (homeStrength - awayStrength) / 2.0
  {
    homeStrength - (awayStrength - homeStrength) / 2.0
  }

  /** `round(p * 1000)`: a probability in (0, 1) as per-mille, within [0, 1000]. */
  function PerMille(p: real): (r: int)
    ensures 0.0 < p < 1.0 ==> 0 <= r <= 1000
    ensures -0.5 <= p * 1000.0 - r as real <= 0.5
  {
    RoundHalfEven(p * 1000.0)
  }

  /** The outcome of a random number against the per-mille home and draw thresholds. */
  function PerMilleOutcome(randomNumber: int, probHomeWin: int, probDraw: int): (o: Outcome) {
    if randomNumber < probHomeWin then Home
    else if randomNumber < probHomeWin + probDraw then Draw
    else Away
  }

  /**
   * The thresholds cut 0..999 into consecutive intervals: below the home
   * threshold a home win, then probDraw numbers of draws, the rest away wins.
   */
  lemma PerMilleIntervals(randomNumber: int, probHomeWin: int, probDraw: int)
    requires probDraw >= 0
    ensures PerMilleOutcome(randomNumber, probHomeWin, probDraw) == Home <==> randomNumber < probHomeWin
    ensures PerMilleOutcome(randomNumber, probHomeWin, probDraw) == Draw <==> probHomeWin <= randomNumber < probHomeWin + probDraw
    ensures PerMilleOutcome(randomNumber, probHomeWin, probDraw) == Away <==> probHomeWin + probDraw <= randomNumber
  {
  }

  /** A larger random number never gives an outcome earlier in Home, Draw, Away order. */
  lemma PerMilleMonotone(randomNumber: int, randomNumber': int, probHomeWin: int, probDraw: int)
    requires randomNumber <= randomNumber'
    ensures Sim.Rank(PerMilleOutcome(randomNumber, probHomeWin, probDraw)) <= Sim.Rank(PerMilleOutcome(randomNumber', probHomeWin, probDraw))
  {
  }

  /** The probabilities simulate_games draws a future match against, with the teams' form added to their ratings. */
  function SimProbabilities(m: FutureMatch, form: map<string, real>, tm: Transcendentals): (r: EloSystem.Probabilities)
    requires Lawful(tm) && m.homeTeam in form && m.awayTeam in form
    ensures r.homeWin + r.draw + r.awayWin == 1.0
  {
    CalculateMatchProbabilities(m.homeTeamElo + form[m.homeTeam], m.awayTeamElo + form[m.awayTeam],
                                StrengthAdvantage(m.homeStrength, m.awayStrength), tm)
  }

  /**
   * One simulated match: both teams need a form entry, the outcome comes from the
   * random number against the per-mille thresholds, and the points go to the table.
   */
  function SimStep(points: Table, m: FutureMatch, form: map<string, real>, randomNumber: int, tm: Transcendentals)
    : (r: Result<Table>)
    requires Lawful(tm)
    ensures r.Err? ==> r.error == KeyError
    ensures r.Ok? ==> Sim.Grown(points, r.value) && Teams(r.value) == Teams(points)
    ensures r.Ok? ==> Total(points) + 2 <= Total(r.value) <= Total(points) + 3
  {
    if m.homeTeam !in form || m.awayTeam !in form then Err(KeyError)
    else
      var p := SimProbabilities(m, form, tm);
      var o := PerMilleOutcome(randomNumber, PerMille(p.homeWin), PerMille(p.draw));
      var r := Sim.Tally(points, m.homeTeam, m.awayTeam, o);
      if r.Ok? then Sim.TallyGrows(points, m.homeTeam, m.awayTeam, o); r else r
  }

  /**
   * What one simulated match may do to the table: fail with a KeyError, or keep
   * the teams and their order and hand out 2 or 3 points.
   */
  ghost predicate TalliesMatch(step: (Table, FutureMatch, int) -> Result<Table>) {
    forall points: Table, m: FutureMatch, randomNumber: int {:trigger step(points, m, randomNumber)} ::
      && (step(points, m, randomNumber).Err? ==> step(points, m, randomNumber).error == KeyError)
      && (step(points, m, randomNumber).Ok? ==>
            && Sim.Grown(points, step(points, m, randomNumber).value)
            && Teams(step(points, m, randomNumber).value) == Teams(points)
            && Total(points) + 2 <= Total(step(points, m, randomNumber).value) <= Total(points) + 3)
  }

  /** A simulated match as a function value, so that its arithmetic stays out of the trials' proofs. */
  type Tallier = step: (Table, FutureMatch, int) -> Result<Table> | TalliesMatch(step)
    witness (points: Table, m: FutureMatch, randomNumber: int) => Err(KeyError)

  lemma Tallies(step: Tallier, points: Table, m: FutureMatch, randomNumber: int)
    ensures var r := step(points, m, randomNumber);
      && (r.Err? ==> r.error == KeyError)
      && (r.Ok? ==> Sim.Grown(points, r.value) && Teams(r.value) == Teams(points)
                    && Total(points) + 2 <= Total(r.value) <= Total(points) + 3)
  {
  }

  /** simulate_games' match, for the given form. */
  function SimTallier(form: map<string, real>, tm: Transcendentals): Tallier
    requires Lawful(tm)
  {
    (points: Table, m: FutureMatch, randomNumber: int) => SimStep(points, m, form, randomNumber, tm)
  }

  /** A step function that plays every match as SimStep does. */
  ghost predicate TalliesAsSimStep(step: Tallier, form: map<string, real>, tm: Transcendentals)
    requires Lawful(tm)
  {
    forall points, m, randomNumber {:trigger SimStep(points, m, form, randomNumber, tm)} ::
      step(points, m, randomNumber) == SimStep(points, m, form, randomNumber, tm)
  }

  lemma SimTallierTalliesAsSimStep(form: map<string, real>, tm: Transcendentals)
    requires Lawful(tm)
    ensures TalliesAsSimStep(SimTallier(form, tm), form, tm)
  {
  }

  /** The table after the first n matches of ms, the k-th match drawing draw(k). */
  function SimTrial(points: Table, ms: seq<FutureMatch>, n: nat, draw: nat -> int, step: Tallier)
    : (r: Result<Table>)
    requires n <= |ms|
    ensures r.Err? ==> r.error == KeyError
    ensures r.Ok? ==> Sim.Grown(points, r.value) && Teams(r.value) == Teams(points)
    ensures r.Ok? ==> Total(points) + 2 * n <= Total(r.value) <= Total(points) + 3 * n
  {
    if n == 0 then Ok(points)
    else match SimTrial(points, ms, n - 1, draw, step)
      case Err(e) => Err(e)
      case Ok(before) =>
        var r := step(before, ms[n - 1], draw(n - 1));
        Tallies(step, before, ms[n - 1], draw(n - 1));
        if r.Ok? then Sim.GrownTransitive(points, before, r.value); r else r
  }

  /** Once a match fails, the trial fails. */
  lemma {:induction false} SimTrialErrorPersists(points: Table, ms: seq<FutureMatch>, n: nat, n': nat, draw: nat -> int, step: Tallier)
    requires n <= n' <= |ms|
    requires SimTrial(points, ms, n, draw, step).Err?
    ensures SimTrial(points, ms, n', draw, step) == SimTrial(points, ms, n, draw, step)
  {
    if n' > n {
      SimTrialErrorPersists(points, ms, n, n' - 1, draw, step);
    }
  }

  /**
   * The first n trials, each on a fresh copy of `table` and over every match of
   * ms, trial t drawing draws(t). They succeed together or the first failure is
   * the result.
   */
  function Simulations(table: Table, ms: seq<FutureMatch>, draws: nat -> nat -> int, n: nat, step: Tallier)
    : (r: Result<seq<Table>>)
    ensures r.Ok? <==> forall t :: 0 <= t < n ==> SimTrial(table, ms, |ms|, draws(t), step).Ok?
    ensures r.Ok? ==> |r.value| == n
    ensures r.Ok? ==> forall t :: 0 <= t < n ==> r.value[t] == SimTrial(table, ms, |ms|, draws(t), step).value
  {
    if n == 0 then Ok([])
    else match Simulations(table, ms, draws, n - 1, step)
      case Err(e) => Err(e)
      case Ok(done) =>
        match SimTrial(table, ms, |ms|, draws(n - 1), step)
        case Err(e) => Err(e)
        case Ok(last) => Ok(done + [last])
  }

  /** Once a trial fails, the simulation fails. */
  lemma {:induction false} SimulationsErrorPersists(table: Table, ms: seq<FutureMatch>, draws: nat -> nat -> int, n: nat, n': nat, step: Tallier)
    requires n <= n'
    requires Simulations(table, ms, draws, n, step).Err?
    ensures Simulations(table, ms, draws, n', step) == Simulations(table, ms, draws, n, step)
  {
    if n' > n {
      SimulationsErrorPersists(table, ms, draws, n, n' - 1, step);
    }
  }

  /** What simulate_games returns: the form first (its failure is the result), then N simulations. */
  function SimulateGamesOf(future: Fixtures<FutureMatch>, fixtures: Fixtures<Game>, elo: map<string, real>,
                           homeStrength: map<string, real>, awayStrength: map<string, real>,
                           raw: seq<(string, int)>, draws: nat -> nat -> int, n: nat, tm: Transcendentals)
    : (r: Result<seq<Table>>)
    requires Lawful(tm)
  {
    match FormOf(fixtures, elo, homeStrength, awayStrength, tm)
    case Err(e) => Err(e)
    case Ok(form) => Simulations(LegacyHelper.TableOf(raw), AllMatches(future), draws, n, SimTallier(form, tm))
  }

  /**
   * simulate_games records N tallies; each starts from the current table, keeps its
   * teams and order, and gains 2 or 3 points per match.
   */
  lemma SimulateGamesTallies(future: Fixtures<FutureMatch>, fixtures: Fixtures<Game>, elo: map<string, real>,
                             homeStrength: map<string, real>, awayStrength: map<string, real>,
                             raw: seq<(string, int)>, draws: nat -> nat -> int, n: nat, tm: Transcendentals)
    requires Lawful(tm)
    requires SimulateGamesOf(future, fixtures, elo, homeStrength, awayStrength, raw, draws, n, tm).Ok?
    ensures var sims := SimulateGamesOf(future, fixtures, elo, homeStrength, awayStrength, raw, draws, n, tm).value;
      var table, ms := LegacyHelper.TableOf(raw), AllMatches(future);
      && |sims| == n
      && forall t :: 0 <= t < n ==>
           Sim.Grown(table, sims[t]) && Teams(sims[t]) == Teams(table)
           && Total(table) + 2 * |ms| <= Total(sims[t]) <= Total(table) + 3 * |ms|
  {
    var form := FormOf(fixtures, elo, homeStrength, awayStrength, tm).value;
    var table, ms := LegacyHelper.TableOf(raw), AllMatches(future);
    forall t | 0 <= t < n
      ensures SimTrial(table, ms, |ms|, draws(t), SimTallier(form, tm)).Ok?
    {
    }
  }

  /** The matches of one trial, played into `teamPoints`. */
  method PlayMatches(teamPoints: Table, ms: seq<FutureMatch>, form: map<string, real>, draw: nat -> int, tm: Transcendentals,
                     ghost step: Tallier)
    returns (r: Result<Table>)
    requires Lawful(tm) && TalliesAsSimStep(step, form, tm)
    ensures r == SimTrial(teamPoints, ms, |ms|, draw, step)
  {
    var current := teamPoints;
    for k := 0 to |ms|
      invariant SimTrial(teamPoints, ms, k, draw, step) == Ok(current)
    {
      var next := PlayTallied(current, ms[k], form, draw(k), tm, step);
      if next.Err? {
        SimTrialErrorPersists(teamPoints, ms, k + 1, |ms|, draw, step);
        return next;
      }
      current := next.value;
    }
    r := Ok(current);
  }

  /** PlayMatch, stated through the step function the trials are defined with. */
  method PlayTallied(teamPoints: Table, m: FutureMatch, form: map<string, real>, randomNumber: int, tm: Transcendentals,
                     ghost step: Tallier)
    returns (r: Result<Table>)
    requires Lawful(tm) && TalliesAsSimStep(step, form, tm)
    ensures r == step(teamPoints, m, randomNumber)
  {
    r := PlayMatch(teamPoints, m, form, randomNumber, tm);
  }

  /** One match of simulate_games' innermost loop. */
  method PlayMatch(teamPoints: Table, m: FutureMatch, form: map<string, real>, randomNumber: int, tm: Transcendentals)
    returns (r: Result<Table>)
    requires Lawful(tm)
    ensures r == SimStep(teamPoints, m, form, randomNumber, tm)
  {
    if m.homeTeam !in form || m.awayTeam !in form {
      return Err(KeyError);
    }
    var homeTeamEloRating := m.homeTeamElo + form[m.homeTeam];
    var awayTeamEloRating := m.awayTeamElo + form[m.awayTeam];
    var homeAdvantage := StrengthAdvantage(m.homeStrength, m.awayStrength);
    var probabilities := CalculateMatchProbabilities(homeTeamEloRating, awayTeamEloRating, homeAdvantage, tm);
    var probHomeWin := PerMille(probabilities.homeWin);
    var probDraw := PerMille(probabilities.draw);
    var points := teamPoints;
    if randomNumber < probHomeWin {
      if m.homeTeam !in Teams(points) { return Err(KeyError); }
      points := AddPoints(points, m.homeTeam, 3);
    } else if randomNumber < probHomeWin + probDraw {
      if m.homeTeam !in Teams(points) { return Err(KeyError); }
      points := AddPoints(points, m.homeTeam, 1);
      if m.awayTeam !in Teams(points) { return Err(KeyError); }
      points := AddPoints(points, m.awayTeam, 1);
    } else {
      if m.awayTeam !in Teams(points) { return Err(KeyError); }
      points := AddPoints(points, m.awayTeam, 3);
    }
    r := Ok(points);
  }

  /**
   * simulate_games: the form once, then N trials, each on a fresh table from
   * get_table; the result lists the N final tables.
   */
  method SimulateGames(future: Fixtures<FutureMatch>, fixtures: Fixtures<Game>, elo: map<string, real>,
                       homeStrength: map<string, real>, awayStrength: map<string, real>,
                       raw: seq<(string, int)>, draws: nat -> nat -> int, n: nat, tm: Transcendentals)
    returns (allSimulations: Result<seq<Table>>)
    requires Lawful(tm)
    ensures allSimulations == SimulateGamesOf(future, fixtures, elo, homeStrength, awayStrength, raw, draws, n, tm)
  {
    var form := CalculateForm(fixtures, elo, homeStrength, awayStrength, tm);
    if form.Err? {
      return Err(form.error);
    }
    var ms := AllMatches(future);
    ghost var step := SimTallier(form.value, tm);
    SimTallierTalliesAsSimStep(form.value, tm);
    var done: seq<Table> := [];
    for t := 0 to n
      invariant Simulations(LegacyHelper.TableOf(raw), ms, draws, t, step) == Ok(done)
    {
      var teamPoints := LegacyHelper.GetTable(raw);
      var trial := PlayMatches(teamPoints, ms, form.value, draws(t), tm, step);
      if trial.Err? {
        SimulationsErrorPersists(LegacyHelper.TableOf(raw), ms, draws, t + 1, n, step);
        return Err(trial.error);
      }
      done := done + [trial.value];
    }
    allSimulations := Ok(done);
  }

  // ---------------------------------------------------------------------------
  // calculate_specific_game
  // ---------------------------------------------------------------------------

  /**
   * calculate_specific_game: the probabilities for one match from team_elo.json,
   * the strength files and the form. A team missing from a strength file leaves None
   * in the subtraction (TypeError); a team missing from the ratings has no form
   * entry either (KeyError).
   */
  method CalculateSpecificGame(homeTeam: string, awayTeam: string, fixtures: Fixtures<Game>, teamElo: map<string, real>,
                               homeStrength: map<string, real>, awayStrength: map<string, real>, tm: Transcendentals)
    returns (r: Result<EloSystem.Probabilities>)
    requires Lawful(tm)
    ensures (homeTeam !in homeStrength || awayTeam !in awayStrength) ==> r == Err(TypeError)
    ensures homeTeam in homeStrength && awayTeam in awayStrength && FormOf(fixtures, teamElo, homeStrength, awayStrength, tm).Err? ==>
      r == Err(FormOf(fixtures, teamElo, homeStrength, awayStrength, tm).error)
    ensures homeTeam in homeStrength && awayTeam in awayStrength && FormOf(fixtures, teamElo, homeStrength, awayStrength, tm).Ok? ==>
      var form := FormOf(fixtures, teamElo, homeStrength, awayStrength, tm).value;
      if homeTeam in form && awayTeam in form && homeTeam in teamElo && awayTeam in teamElo then
        r == Ok(FormProbabilities(homeTeam, awayTeam, teamElo, form, StrengthAdvantage(homeStrength[homeTeam], awayStrength[awayTeam]), tm))
      else r == Err(KeyError)
    ensures r.Ok? ==> homeTeam in teamElo && awayTeam in teamElo
  {
    if homeTeam !in homeStrength || awayTeam !in awayStrength {
      return Err(TypeError);
    }
    var homeAdvantage := StrengthAdvantage(homeStrength[homeTeam], awayStrength[awayTeam]);
    var form := CalculateForm(fixtures, teamElo, homeStrength, awayStrength, tm);
    FormOfKeys(fixtures, teamElo, homeStrength, awayStrength, tm);
    if form.Err? {
      return Err(form.error);
    }
    r := SpecificGameWithForm(homeTeam, awayTeam, teamElo, form.value, homeAdvantage, tm);
  }

  /** The probabilities of a match between two rated teams, with their form added to their ratings. */
  function FormProbabilities(homeTeam: string, awayTeam: string, teamElo: map<string, real>, form: map<string, real>,
                             homeAdvantage: real, tm: Transcendentals): (r: EloSystem.Probabilities)
    requires Lawful(tm)
    requires homeTeam in teamElo && awayTeam in teamElo && homeTeam in form && awayTeam in form
  {
    CalculateMatchProbabilities(teamElo[homeTeam] + form[homeTeam], teamElo[awayTeam] + form[awayTeam], homeAdvantage, tm)
  }

  /** The rest of calculate_specific_game, once the form is known. */
  method SpecificGameWithForm(homeTeam: string, awayTeam: string, teamElo: map<string, real>, form: map<string, real>,
                              homeAdvantage: real, tm: Transcendentals)
    returns (r: Result<EloSystem.Probabilities>)
    requires Lawful(tm)
    requires forall t :: t in form <==> t in teamElo
    ensures if homeTeam in form && awayTeam in form && homeTeam in teamElo && awayTeam in teamElo then
        r == Ok(FormProbabilities(homeTeam, awayTeam, teamElo, form, homeAdvantage, tm))
      else r == Err(KeyError)
  {
    if homeTeam !in form || awayTeam !in form {
      return Err(KeyError);
    }
    var homeTeamEloRating := teamElo[homeTeam] + form[homeTeam];
    var awayTeamEloRating := teamElo[awayTeam] + form[awayTeam];
    r := Ok(CalculateMatchProbabilities(homeTeamEloRating, awayTeamEloRating, homeAdvantage, tm));
  }
}
