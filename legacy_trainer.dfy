/**
 * The stand-alone rating trainer (test.py): every match of fixtures.json, season
 * by season and round by round, updates team_ratings in place. The expected
 * score is the logistic one of the other engines, the actual score is 1, 0.5 or
 * 0 by the goal comparison, and the update is k (20 by default) times the
 * surprise.
 *
 * process_game reads home_strength.json and away_strength.json on every call;
 * nothing writes them during a run, so they are the parameters `homeStrength`
 * and `awayStrength`. fixtures.json is the parameter `data`.
 */
module LegacyTrainer {
  import opened Numerics
  import opened Fixtures
  import EloSystem
  import LegacyElo

  /** The rating process_game gives a team it has not seen. */
  const InitialRating: real := 1500.0

  /** The default k_factor of update_rating, process_game and the loops above it. */
  const DefaultK: real := 20.0

  /** actual_home and actual_away: 1 and 0 to the side that scored more, 0.5 each on a draw. */
  function MatchScores(homeScore: int, awayScore: int): (r: (real, real))
    ensures r.0 + r.1 == 1.0
    ensures homeScore > awayScore <==> r == (1.0, 0.0)
    ensures homeScore < awayScore <==> r == (0.0, 1.0)
    ensures homeScore == awayScore <==> r == (0.5, 0.5)
  {
    if homeScore > awayScore then (1.0, 0.0)
    else if homeScore < awayScore then (0.0, 1.0)
    else (0.5, 0.5)
  }

  /**
   * team_ratings after process_game(g): unseen teams enter at 1500, the two teams
   * get their new ratings, every other entry stays.
   */
  function GameRatings(ratings: map<string, real>, homeStrength: map<string, real>, awayStrength: map<string, real>,
                       g: Game, kFactor: real, tm: Transcendentals): (r: map<string, real>)
    requires Lawful(tm)
    ensures forall t :: t in r <==> t in ratings || t == g.homeTeam || t == g.awayTeam
    ensures forall t :: t in ratings && t != g.homeTeam && t != g.awayTeam ==> r[t] == ratings[t]
  {
    var ratingHome := EloSystem.RatingOf(ratings, g.homeTeam, InitialRating);
    var ratingAway := EloSystem.RatingOf(ratings, g.awayTeam, InitialRating);
    var hfa := LegacyElo.StrengthOf(homeStrength, g.homeTeam) * 100.0;
    var afa := LegacyElo.StrengthOf(awayStrength, g.awayTeam) * 100.0;
    var expectedHome := EloSystem.ExpectedScore(ratingHome, ratingAway, hfa, tm);
    var expectedAway := EloSystem.ExpectedScore(ratingAway, ratingHome, afa, tm);
    var (actualHome, actualAway) := MatchScores(g.homeGoals, g.awayGoals);
    LegacyElo.Rerated(ratings, g.homeTeam, g.awayTeam, LegacyElo.UpdateRating(ratingHome, actualHome, expectedHome, kFactor),
                      LegacyElo.UpdateRating(ratingAway, actualAway, expectedAway, kFactor))
  }

  /** process_game: team_ratings updated in place, modelled as the map before and after. */
  method ProcessGame(game: Game, teamRatings: map<string, real>, kFactor: real,
                     homeStrength: map<string, real>, awayStrength: map<string, real>, tm: Transcendentals)
    returns (teamRatings': map<string, real>)
    requires Lawful(tm)
    ensures teamRatings' == GameRatings(teamRatings, homeStrength, awayStrength, game, kFactor, tm)
  {
    teamRatings' := teamRatings;
    if game.homeTeam !in teamRatings' {
      teamRatings' := teamRatings'[game.homeTeam := InitialRating];
    }
    if game.awayTeam !in teamRatings' {
      teamRatings' := teamRatings'[game.awayTeam := InitialRating];
    }
    var ratingHome := teamRatings'[game.homeTeam];
    var ratingAway := teamRatings'[game.awayTeam];
    var hfa := LegacyElo.StrengthOf(homeStrength, game.homeTeam) * 100.0;
    var afa := LegacyElo.StrengthOf(awayStrength, game.awayTeam) * 100.0;
    var expectedHome := EloSystem.ExpectedScore(ratingHome, ratingAway, hfa, tm);
    var expectedAway := EloSystem.ExpectedScore(ratingAway, ratingHome, afa, tm);
    var (actualHome, actualAway) := MatchScores(game.homeGoals, game.awayGoals);
    var newRatingHome := LegacyElo.UpdateRating(ratingHome, actualHome, expectedHome, kFactor);
    var newRatingAway := LegacyElo.UpdateRating(ratingAway, actualAway, expectedAway, kFactor);
    teamRatings' := teamRatings'[game.homeTeam := newRatingHome];
    teamRatings' := teamRatings'[game.awayTeam := newRatingAway];
  }

  /** A team process_game has not seen plays exactly as if it had been rated 1500. */
  lemma UnseenTeamsStartAt1500(ratings: map<string, real>, homeStrength: map<string, real>, awayStrength: map<string, real>,
                               g: Game, kFactor: real, tm: Transcendentals)
    requires Lawful(tm)
    ensures var seeded := map t | t in ratings.Keys + {g.homeTeam, g.awayTeam} :: EloSystem.RatingOf(ratings, t, InitialRating);
      GameRatings(ratings, homeStrength, awayStrength, g, kFactor, tm) == GameRatings(seeded, homeStrength, awayStrength, g, kFactor, tm)
  {
    var seeded := map t | t in ratings.Keys + {g.homeTeam, g.awayTeam} :: EloSystem.RatingOf(ratings, t, InitialRating);
    assert EloSystem.RatingOf(seeded, g.homeTeam, InitialRating) == EloSystem.RatingOf(ratings, g.homeTeam, InitialRating);
    assert EloSystem.RatingOf(seeded, g.awayTeam, InitialRating) == EloSystem.RatingOf(ratings, g.awayTeam, InitialRating);
    LegacyElo.SeededUpdate(ratings, seeded, g.homeTeam, g.awayTeam);
  }

  /**
   * Without any strength advantage (hfa = afa = 0) the two expectations add up to
   * 1, so between two different teams whatever one side gains the other loses.
   */
  lemma NoAdvantageZeroSum(ratings: map<string, real>, homeStrength: map<string, real>, awayStrength: map<string, real>,
                           g: Game, kFactor: real, tm: Transcendentals)
    requires Lawful(tm) && g.homeTeam != g.awayTeam
    requires LegacyElo.StrengthOf(homeStrength, g.homeTeam) == 0.0 && LegacyElo.StrengthOf(awayStrength, g.awayTeam) == 0.0
    ensures var ratingHome, ratingAway := EloSystem.RatingOf(ratings, g.homeTeam, InitialRating), EloSystem.RatingOf(ratings, g.awayTeam, InitialRating);
      EloSystem.ExpectedScore(ratingHome, ratingAway, 0.0, tm) + EloSystem.ExpectedScore(ratingAway, ratingHome, 0.0, tm) == 1.0
    ensures var r := GameRatings(ratings, homeStrength, awayStrength, g, kFactor, tm);
      (r[g.homeTeam] - EloSystem.RatingOf(ratings, g.homeTeam, InitialRating))
      + (r[g.awayTeam] - EloSystem.RatingOf(ratings, g.awayTeam, InitialRating)) == 0.0
  {
    var ratingHome, ratingAway := EloSystem.RatingOf(ratings, g.homeTeam, InitialRating), EloSystem.RatingOf(ratings, g.awayTeam, InitialRating);
    EloSystem.ExpectedScoreComplement(ratingHome, ratingAway, 0.0, tm);
    var hfa := LegacyElo.StrengthOf(homeStrength, g.homeTeam) * 100.0;
    var afa := LegacyElo.StrengthOf(awayStrength, g.awayTeam) * 100.0;
    SameExpectation(ratingHome, ratingAway, hfa, 0.0, tm);
    SameExpectation(ratingAway, ratingHome, afa, -0.0, tm);
    var expectedHome := EloSystem.ExpectedScore(ratingHome, ratingAway, hfa, tm);
    var expectedAway := EloSystem.ExpectedScore(ratingAway, ratingHome, afa, tm);
    var (actualHome, actualAway) := MatchScores(g.homeGoals, g.awayGoals);
    OppositeGains(kFactor, actualHome, actualAway, expectedHome, expectedAway);
  }

  lemma SameExpectation(ratingA: real, ratingB: real, advantage: real, advantage': real, tm: Transcendentals)
    requires Lawful(tm) && advantage == advantage'
    ensures EloSystem.ExpectedScore(ratingA, ratingB, advantage, tm) == EloSystem.ExpectedScore(ratingA, ratingB, advantage', tm)
  {
  }

  /** Scores that add up to what the expectations add up to move the two ratings by opposite amounts. */
  lemma OppositeGains(k: real, actualHome: real, actualAway: real, expectedHome: real, expectedAway: real)
    requires actualHome + actualAway == expectedHome + expectedAway
    ensures k * (actualHome - expectedHome) + k * (actualAway - expectedAway) == 0.0
  {
    assert k * (actualHome - expectedHome) + k * (actualAway - expectedAway)
        == k * ((actualHome + actualAway) - (expectedHome + expectedAway));
  }

  // ---------------------------------------------------------------------------
  // process_round, process_year, run_elo_rating_system
  // ---------------------------------------------------------------------------

  /** process_game with k, as a function value, so that the loops' proofs never unfold its arithmetic. */
  function TrainerRater(homeStrength: map<string, real>, awayStrength: map<string, real>, kFactor: real, tm: Transcendentals)
    : LegacyElo.Rater
    requires Lawful(tm)
  {
    (ratings: map<string, real>, g: Game) => GameRatings(ratings, homeStrength, awayStrength, g, kFactor, tm)
  }

  /** `rate` is process_game with k wherever process_game is applied. */
  ghost predicate RatesAsProcessGame(rate: LegacyElo.Rater, homeStrength: map<string, real>, awayStrength: map<string, real>,
                                     kFactor: real, tm: Transcendentals)
    requires Lawful(tm)
  {
    forall ratings, g {:trigger GameRatings(ratings, homeStrength, awayStrength, g, kFactor, tm)} ::
      rate(ratings, g) == GameRatings(ratings, homeStrength, awayStrength, g, kFactor, tm)
  }

  lemma TrainerRaterRatesAsProcessGame(homeStrength: map<string, real>, awayStrength: map<string, real>, kFactor: real, tm: Transcendentals)
    requires Lawful(tm)
    ensures RatesAsProcessGame(TrainerRater(homeStrength, awayStrength, kFactor, tm), homeStrength, awayStrength, kFactor, tm)
  {
  }

  /** What run_elo_rating_system returns for fixtures.json `data`. */
  function TrainedRatings(data: Fixtures<Game>, homeStrength: map<string, real>, awayStrength: map<string, real>,
                          kFactor: real, tm: Transcendentals): map<string, real>
    requires Lawful(tm)
  {
    LegacyElo.Trained(map[], AllMatches(data), TrainerRater(homeStrength, awayStrength, kFactor, tm))
  }

  /** process_round: the games of one round, in order. */
  method ProcessRound(gamesList: seq<Game>, teamRatings: map<string, real>, kFactor: real,
                      homeStrength: map<string, real>, awayStrength: map<string, real>, tm: Transcendentals, ghost rate: LegacyElo.Rater)
    returns (teamRatings': map<string, real>)
    requires Lawful(tm) && RatesAsProcessGame(rate, homeStrength, awayStrength, kFactor, tm)
    ensures teamRatings' == LegacyElo.Trained(teamRatings, gamesList, rate)
  {
    teamRatings' := teamRatings;
    for i := 0 to |gamesList|
      invariant teamRatings' == LegacyElo.Trained(teamRatings, gamesList[..i], rate)
    {
      assert gamesList[..i + 1][..i] == gamesList[..i];
      teamRatings' := ProcessGame(gamesList[i], teamRatings', kFactor, homeStrength, awayStrength, tm);
    }
    assert gamesList[..|gamesList|] == gamesList;
  }

  /** process_year: the rounds of one season, in order. */
  method ProcessYear(yearData: seq<Round<Game>>, teamRatings: map<string, real>, kFactor: real,
                     homeStrength: map<string, real>, awayStrength: map<string, real>, tm: Transcendentals, ghost rate: LegacyElo.Rater)
    returns (teamRatings': map<string, real>)
    requires Lawful(tm) && RatesAsProcessGame(rate, homeStrength, awayStrength, kFactor, tm)
    ensures teamRatings' == LegacyElo.Trained(teamRatings, RoundsMatches(yearData), rate)
  {
    teamRatings' := teamRatings;
    for j := 0 to |yearData|
      invariant teamRatings' == LegacyElo.Trained(teamRatings, RoundsMatches(yearData[..j]), rate)
    {
      RoundsMatchesStep(yearData, j);
      LegacyElo.TrainedAppend(teamRatings, RoundsMatches(yearData[..j]), yearData[j].matches, rate);
      teamRatings' := ProcessRound(yearData[j].matches, teamRatings', kFactor, homeStrength, awayStrength, tm, rate);
    }
    assert yearData[..|yearData|] == yearData;
  }

  /**
   * run_elo_rating_system: from an empty map (the initial rating is never used),
   * every season in order; the result rates exactly the teams of the fixtures.
   */
  method RunEloRatingSystem(data: Fixtures<Game>, initialRating: real, kFactor: real,
                            homeStrength: map<string, real>, awayStrength: map<string, real>, tm: Transcendentals)
    returns (teamRatings: map<string, real>)
    requires Lawful(tm)
    ensures teamRatings == TrainedRatings(data, homeStrength, awayStrength, kFactor, tm)
    ensures forall t :: t in teamRatings <==> t in GameTeams(AllMatches(data))
  {
    ghost var rate := TrainerRater(homeStrength, awayStrength, kFactor, tm);
    TrainerRaterRatesAsProcessGame(homeStrength, awayStrength, kFactor, tm);
    teamRatings := LegacyElo.InitializeTeamRatings(initialRating);
    for i := 0 to |data|
      invariant teamRatings == LegacyElo.Trained(map[], AllMatches(data[..i]), rate)
    {
      AllMatchesStep(data, i);
      LegacyElo.TrainedAppend(map[], AllMatches(data[..i]), RoundsMatches(data[i].rounds), rate);
      teamRatings := ProcessYear(data[i].rounds, teamRatings, kFactor, homeStrength, awayStrength, tm, rate);
    }
    assert data[..|data|] == data;
    LegacyElo.TrainedTeams(map[], AllMatches(data), rate);
  }
}
