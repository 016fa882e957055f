/**
 * The computations of the newer data layer (src/data_manager.py): grouping query rows
 * into season -> round buckets, the head-to-head pair filter and adjustment, and the
 * home/away win fractions. The SQL queries are inputs: a query result is a sequence
 * of rows in the order the database returns them.
 */
module DataManager {
  import opened Wrappers
  import opened Numerics
  import opened Fixtures
  import opened Helper

  /** One row of a fixtures query: the season and round labels and the match. */
  datatype Row<M> = Row(season: string, round: string, item: M)

  /** The items of the rows labelled (season, round), in query order. */
  function RowsIn<M>(rows: seq<Row<M>>, season: string, round: string): seq<M> {
    if rows == [] then []
    else
      var last := rows[|rows| - 1];
      RowsIn(rows[..|rows| - 1], season, round) + (if last.season == season && last.round == round then [last.item] else [])
  }

  /** The season label of each row, in query order. */
  function SeasonLabels<M>(rows: seq<Row<M>>): (r: seq<string>)
    ensures |r| == |rows| && forall k :: 0 <= k < |rows| ==> r[k] == rows[k].season
  {
    if rows == [] then [] else SeasonLabels(rows[..|rows| - 1]) + [rows[|rows| - 1].season]
  }

  /** The round labels of the rows of `season`, in query order. */
  function RoundLabels<M>(rows: seq<Row<M>>, season: string): seq<string> {
    if rows == [] then []
    else
      var last := rows[|rows| - 1];
      RoundLabels(rows[..|rows| - 1], season) + (if last.season == season then [last.round] else [])
  }

  /** A season no row is labelled with has no round labels. */
  lemma {:induction false} NoRoundLabels<M>(rows: seq<Row<M>>, season: string)
    requires season !in SeasonLabels(rows)
    ensures RoundLabels(rows, season) == []
  {
    if rows != [] {
      var init := rows[..|rows| - 1];
      assert forall k :: 0 <= k < |init| ==> SeasonLabels(init)[k] == SeasonLabels(rows)[k];
      NoRoundLabels(init, season);
    }
  }

  /**
   * A season's rounds as the dict built from `labels` keeps them: one round per
   * distinct label, in first-appearance order, and no round without a match.
   */
  predicate RoundsInOrder<M>(rs: seq<Round<M>>, labels: seq<string>) {
    && RoundNames(rs) == Distinct(labels)
    && (forall j :: 0 <= j < |rs| ==> rs[j].matches != [])
  }

  /**
   * The insertion order of the dict built from `rows`: one season per distinct
   * season label, in first-appearance order, each with at least one round, and
   * its rounds in the first-appearance order of the round labels of its rows.
   */
  predicate InQueryOrder<M>(fx: Fixtures<M>, rows: seq<Row<M>>) {
    && Names(fx) == Distinct(SeasonLabels(rows))
    && (forall i :: 0 <= i < |fx| ==> fx[i].rounds != [] && RoundsInOrder(fx[i].rounds, RoundLabels(rows, fx[i].name)))
  }

  /** `rounds.setdefault(round, []).append(m)` on one season's rounds. */
  function AppendToRound<M>(rs: seq<Round<M>>, round: string, m: M): (r: seq<Round<M>>)
    requires UniqueRounds(rs)
    ensures UniqueRounds(r)
    ensures forall rn :: RoundBucket(r, rn) == RoundBucket(rs, rn) + (if rn == round then [m] else [])
    ensures forall j :: 0 <= j < |r| ==> r[j].matches != [] || (j < |rs| && r[j] == rs[j])
    ensures |r| == |rs| + (if RoundIndex(rs, round).None? then 1 else 0)
  {
    match RoundIndex(rs, round)
    case None =>
      NewRoundBuckets(rs, round, m);
      rs + [Round(round, [m])]
    case Some(j) =>
      SameRoundBuckets(rs, j, m);
      rs[j := Round(round, rs[j].matches + [m])]
  }

  /** A round not there yet goes at the end with its one match. */
  lemma NewRoundBuckets<M>(rs: seq<Round<M>>, round: string, m: M)
    requires UniqueRounds(rs) && RoundIndex(rs, round).None?
    ensures UniqueRounds(rs + [Round(round, [m])])
    ensures forall rn :: RoundBucket(rs + [Round(round, [m])], rn) == RoundBucket(rs, rn) + (if rn == round then [m] else [])
  {
    var r := rs + [Round(round, [m])];
    assert RoundNames(r) == RoundNames(rs) + [round];
    KeyIndexSnoc(RoundNames(rs), round);
  }

  /** A round already there keeps its place and gets the match at its end. */
  lemma SameRoundBuckets<M>(rs: seq<Round<M>>, j: nat, m: M)
    requires UniqueRounds(rs) && j < |rs|
    ensures UniqueRounds(rs[j := Round(rs[j].name, rs[j].matches + [m])])
    ensures forall rn :: RoundBucket(rs[j := Round(rs[j].name, rs[j].matches + [m])], rn) == RoundBucket(rs, rn) + (if rn == rs[j].name then [m] else [])
  {
    var r := rs[j := Round(rs[j].name, rs[j].matches + [m])];
    assert RoundNames(r) == RoundNames(rs);
    RoundIndexUnique(rs, j);
  }

  /** `fixtures.setdefault(season, {}).setdefault(round, []).append(m)`. */
  function AppendToBucket<M>(fx: Fixtures<M>, season: string, round: string, m: M): (r: Fixtures<M>)
    requires WellFormed(fx)
    ensures WellFormed(r)
    ensures forall s, rn :: Bucket(r, s, rn) == Bucket(fx, s, rn) + (if s == season && rn == round then [m] else [])
    ensures |r| == |fx| + (if SeasonIndex(fx, season).None? then 1 else 0)
    ensures forall k :: 0 <= k < |fx| ==> r[k].name == fx[k].name
  {
    match SeasonIndex(fx, season)
    case None =>
      var rounds := AppendToRound([], round, m);
      NewSeasonAppend(fx, season, round, m, rounds);
      fx + [Season(season, rounds)]
    case Some(i) =>
      var rounds := AppendToRound(fx[i].rounds, round, m);
      SameSeasonAppend(fx, i, round, m, rounds);
      fx[i := Season(season, rounds)]
  }

  /** A season not there yet goes at the end, holding the one match. */
  lemma NewSeasonAppend<M>(fx: Fixtures<M>, season: string, round: string, m: M, rounds: seq<Round<M>>)
    requires WellFormed(fx) && SeasonIndex(fx, season).None? && rounds == AppendToRound([], round, m)
    ensures WellFormed(fx + [Season(season, rounds)])
    ensures forall s, rn :: Bucket(fx + [Season(season, rounds)], s, rn) == Bucket(fx, s, rn) + (if s == season && rn == round then [m] else [])
  {
    var r := fx + [Season(season, rounds)];
    assert r[..|fx|] == fx;
    NewSeasonBuckets(fx, r, season);
  }

  /** A season already there keeps its place, and its round gets the match. */
  lemma SameSeasonAppend<M>(fx: Fixtures<M>, i: nat, round: string, m: M, rounds: seq<Round<M>>)
    requires WellFormed(fx) && i < |fx| && rounds == AppendToRound(fx[i].rounds, round, m)
    ensures WellFormed(fx[i := Season(fx[i].name, rounds)])
    ensures forall s, rn :: Bucket(fx[i := Season(fx[i].name, rounds)], s, rn) == Bucket(fx, s, rn) + (if s == fx[i].name && rn == round then [m] else [])
  {
    var r := fx[i := Season(fx[i].name, rounds)];
    SameSeasonBuckets(fx, r, i);
    SeasonIndexUnique(fx, i);
  }

  /** Appending a match under `round` keeps the rounds in the order of their labels. */
  lemma AppendToRoundInOrder<M>(rs: seq<Round<M>>, labels: seq<string>, round: string, m: M)
    requires UniqueRounds(rs) && RoundsInOrder(rs, labels)
    ensures RoundsInOrder(AppendToRound(rs, round, m), labels + [round])
  {
    DistinctSnoc(labels, round);
    DistinctMembers(labels, round);
    var r := AppendToRound(rs, round, m);
    match RoundIndex(rs, round)
    case None =>
      assert round !in RoundNames(rs);
      assert r == rs + [Round(round, [m])];
      assert RoundNames(r) == RoundNames(rs) + [round];
    case Some(j) =>
      assert RoundNames(rs)[j] == round;
      assert r == rs[j := Round(round, rs[j].matches + [m])];
      assert RoundNames(r) == RoundNames(rs);
  }

  /** One more row, added to its bucket, keeps the collection in query order. */
  lemma AppendToBucketInOrder<M>(fx: Fixtures<M>, rows: seq<Row<M>>, row: Row<M>)
    requires WellFormed(fx) && InQueryOrder(fx, rows)
    ensures InQueryOrder(AppendToBucket(fx, row.season, row.round, row.item), rows + [row])
  {
    match SeasonIndex(fx, row.season)
    case None =>
      var rounds := AppendToRound([], row.round, row.item);
      AppendToRoundInOrder([], [], row.round, row.item);
      assert [] + [row.round] == [row.round];
      NewSeasonInOrder(fx, rows, row, rounds);
      assert AppendToBucket(fx, row.season, row.round, row.item) == fx + [Season(row.season, rounds)];
    case Some(i) =>
      var rounds := AppendToRound(fx[i].rounds, row.round, row.item);
      AppendToRoundInOrder(fx[i].rounds, RoundLabels(rows, row.season), row.round, row.item);
      SameSeasonInOrder(fx, rows, row, i, rounds);
      assert AppendToBucket(fx, row.season, row.round, row.item) == fx[i := Season(row.season, rounds)];
  }

  /** The season labels of one more row. */
  lemma SeasonLabelsSnoc<M>(rows: seq<Row<M>>, row: Row<M>)
    ensures Distinct(SeasonLabels(rows + [row])) == if row.season in SeasonLabels(rows) then Distinct(SeasonLabels(rows)) else Distinct(SeasonLabels(rows)) + [row.season]
  {
    assert SeasonLabels(rows + [row]) == SeasonLabels(rows) + [row.season];
    DistinctSnoc(SeasonLabels(rows), row.season);
  }

  /** One more row adds its round label to its own season's labels only. */
  lemma RoundLabelsSnoc<M>(rows: seq<Row<M>>, row: Row<M>, season: string)
    ensures RoundLabels(rows + [row], season) == RoundLabels(rows, season) + (if row.season == season then [row.round] else [])
  {
    assert (rows + [row])[..|rows|] == rows;
  }

  /** A row of a new season: the season goes at the end, with its first round. */
  lemma NewSeasonInOrder<M>(fx: Fixtures<M>, rows: seq<Row<M>>, row: Row<M>, rounds: seq<Round<M>>)
    requires InQueryOrder(fx, rows) && SeasonIndex(fx, row.season).None?
    requires rounds != [] && RoundsInOrder(rounds, [row.round])
    ensures InQueryOrder(fx + [Season(row.season, rounds)], rows + [row])
  {
    NewSeasonNames(fx, rows, row, rounds);
    NoRoundLabels(rows, row.season);
    RoundLabelsSnoc(rows, row, row.season);
    NewSeasonRounds(fx, rows, row, rounds);
  }

  lemma NewSeasonNames<M>(fx: Fixtures<M>, rows: seq<Row<M>>, row: Row<M>, rounds: seq<Round<M>>)
    requires Names(fx) == Distinct(SeasonLabels(rows)) && SeasonIndex(fx, row.season).None?
    ensures row.season !in SeasonLabels(rows)
    ensures Names(fx + [Season(row.season, rounds)]) == Distinct(SeasonLabels(rows + [row]))
  {
    var r := fx + [Season(row.season, rounds)];
    assert row.season !in Names(fx);
    DistinctMembers(SeasonLabels(rows), row.season);
    SeasonLabelsSnoc(rows, row);
    assert Names(r) == Names(fx) + [row.season];
  }

  lemma NewSeasonRounds<M>(fx: Fixtures<M>, rows: seq<Row<M>>, row: Row<M>, rounds: seq<Round<M>>)
    requires InQueryOrder(fx, rows) && SeasonIndex(fx, row.season).None?
    requires rounds != [] && RoundsInOrder(rounds, RoundLabels(rows + [row], row.season))
    ensures var r := fx + [Season(row.season, rounds)];
      forall i :: 0 <= i < |r| ==> r[i].rounds != [] && RoundsInOrder(r[i].rounds, RoundLabels(rows + [row], r[i].name))
  {
    var r := fx + [Season(row.season, rounds)];
    forall i | 0 <= i < |r|
      ensures r[i].rounds != [] && RoundsInOrder(r[i].rounds, RoundLabels(rows + [row], r[i].name))
    {
      if i < |fx| {
        OtherSeasonInOrder(fx, rows, row, i);
      }
    }
  }

  /** A row of a season already there: the season keeps its place and its round gets the match. */
  lemma SameSeasonInOrder<M>(fx: Fixtures<M>, rows: seq<Row<M>>, row: Row<M>, i: nat, rounds: seq<Round<M>>)
    requires WellFormed(fx) && InQueryOrder(fx, rows) && i < |fx| && fx[i].name == row.season
    requires rounds != [] && RoundsInOrder(rounds, RoundLabels(rows, row.season) + [row.round])
    ensures InQueryOrder(fx[i := Season(row.season, rounds)], rows + [row])
  {
    SameSeasonNames(fx, rows, row, i, rounds);
    RoundLabelsSnoc(rows, row, row.season);
    SameSeasonRounds(fx, rows, row, i, rounds);
  }

  lemma SameSeasonNames<M>(fx: Fixtures<M>, rows: seq<Row<M>>, row: Row<M>, i: nat, rounds: seq<Round<M>>)
    requires Names(fx) == Distinct(SeasonLabels(rows)) && i < |fx| && fx[i].name == row.season
    ensures Names(fx[i := Season(row.season, rounds)]) == Distinct(SeasonLabels(rows + [row]))
  {
    var r := fx[i := Season(row.season, rounds)];
    assert Names(fx)[i] == row.season;
    DistinctMembers(SeasonLabels(rows), row.season);
    SeasonLabelsSnoc(rows, row);
    assert Names(r) == Names(fx);
  }

  lemma SameSeasonRounds<M>(fx: Fixtures<M>, rows: seq<Row<M>>, row: Row<M>, i: nat, rounds: seq<Round<M>>)
    requires WellFormed(fx) && InQueryOrder(fx, rows) && i < |fx| && fx[i].name == row.season
    requires rounds != [] && RoundsInOrder(rounds, RoundLabels(rows + [row], row.season))
    ensures var r := fx[i := Season(row.season, rounds)];
      forall k :: 0 <= k < |r| ==> r[k].rounds != [] && RoundsInOrder(r[k].rounds, RoundLabels(rows + [row], r[k].name))
  {
    var r := fx[i := Season(row.season, rounds)];
    forall k | 0 <= k < |r|
      ensures r[k].rounds != [] && RoundsInOrder(r[k].rounds, RoundLabels(rows + [row], r[k].name))
    {
      if k != i {
        assert fx[k].name != fx[i].name;
        OtherSeasonInOrder(fx, rows, row, k);
      }
    }
  }

  /** A season the new row is not labelled with keeps its rounds and their labels. */
  lemma OtherSeasonInOrder<M>(fx: Fixtures<M>, rows: seq<Row<M>>, row: Row<M>, k: nat)
    requires InQueryOrder(fx, rows) && k < |fx| && fx[k].name != row.season
    ensures fx[k].rounds != [] && RoundsInOrder(fx[k].rounds, RoundLabels(rows + [row], fx[k].name))
  {
    RoundLabelsSnoc(rows, row, fx[k].name);
    assert RoundLabels(rows + [row], fx[k].name) == RoundLabels(rows, fx[k].name);
    assert fx[k].rounds != [] && RoundsInOrder(fx[k].rounds, RoundLabels(rows, fx[k].name));
  }

  lemma NewSeasonBuckets<M>(fx: Fixtures<M>, r: Fixtures<M>, season: string)
    requires WellFormed(fx) && SeasonIndex(fx, season).None?
    requires |r| == |fx| + 1 && r[..|fx|] == fx && r[|fx|].name == season && UniqueRounds(r[|fx|].rounds)
    ensures WellFormed(r)
    ensures forall s :: SeasonIndex(r, s) == (if s == season then Some(|fx|) else SeasonIndex(fx, s))
  {
    assert Names(r) == Names(fx) + [season];
    KeyIndexSnoc(Names(fx), season);
  }

  lemma SameSeasonBuckets<M>(fx: Fixtures<M>, r: Fixtures<M>, i: nat)
    requires WellFormed(fx) && i < |fx|
    requires |r| == |fx| && (forall k :: 0 <= k < |fx| && k != i ==> r[k] == fx[k])
    requires r[i].name == fx[i].name && UniqueRounds(r[i].rounds)
    ensures WellFormed(r)
    ensures forall s :: SeasonIndex(r, s) == SeasonIndex(fx, s)
  {
    assert Names(r) == Names(fx);
  }

  lemma RowsInStep<M>(rows: seq<Row<M>>, k: nat)
    requires k < |rows|
    ensures forall s, rn ::
      RowsIn(rows[..k + 1], s, rn) == RowsIn(rows[..k], s, rn) + (if rows[k].season == s && rows[k].round == rn then [rows[k].item] else [])
  {
    assert rows[..k + 1][..k] == rows[..k];
  }

  /**
   * get_fixtures: group the query's rows by season and round. Each bucket holds
   * exactly the matches of the rows with its labels, in query order.
   */
  method GetFixtures(rows: seq<Row<Game>>) returns (fixtures: Fixtures<Game>)
    ensures WellFormed(fixtures)
    ensures forall s, rn :: Bucket(fixtures, s, rn) == RowsIn(rows, s, rn)
    ensures InQueryOrder(fixtures, rows)
  {
    fixtures := [];
    for k := 0 to |rows|
      invariant GroupedBy(fixtures, rows[..k])
    {
      GroupedStep(fixtures, rows, k);
      fixtures := AppendToBucket(fixtures, rows[k].season, rows[k].round, rows[k].item);
    }
    assert rows[..|rows|] == rows;
  }

  /** `fx` is what get_fixtures builds from `rows`. */
  ghost predicate GroupedBy<M>(fx: Fixtures<M>, rows: seq<Row<M>>) {
    && WellFormed(fx)
    && (forall s, rn :: Bucket(fx, s, rn) == RowsIn(rows, s, rn))
    && InQueryOrder(fx, rows)
  }

  /** The step of get_fixtures' loop: row k joins the first k rows. */
  lemma GroupedStep<M>(fx: Fixtures<M>, rows: seq<Row<M>>, k: nat)
    requires k < |rows| && GroupedBy(fx, rows[..k])
    ensures WellFormed(fx) && GroupedBy(AppendToBucket(fx, rows[k].season, rows[k].round, rows[k].item), rows[..k + 1])
  {
    BucketsStep(fx, rows, k);
    NextRowInOrder(fx, rows, k);
  }

  lemma BucketsStep<M>(fx: Fixtures<M>, rows: seq<Row<M>>, k: nat)
    requires k < |rows| && WellFormed(fx) && forall s, rn :: Bucket(fx, s, rn) == RowsIn(rows[..k], s, rn)
    ensures forall s, rn :: Bucket(AppendToBucket(fx, rows[k].season, rows[k].round, rows[k].item), s, rn) == RowsIn(rows[..k + 1], s, rn)
  {
    RowsInStep(rows, k);
  }

  lemma NextRowInOrder<M>(fx: Fixtures<M>, rows: seq<Row<M>>, k: nat)
    requires k < |rows| && WellFormed(fx) && InQueryOrder(fx, rows[..k])
    ensures InQueryOrder(AppendToBucket(fx, rows[k].season, rows[k].round, rows[k].item), rows[..k + 1])
  {
    assert rows[..k + 1] == rows[..k] + [rows[k]];
    AppendToBucketInOrder(fx, rows[..k], rows[k]);
  }

  /**
   * get_future_matches: every row goes under the one season "2025", grouped by its
   * round, in query order; the season exists even when there are no rows.
   */
  method GetFutureMatches(rows: seq<(string, FutureMatch)>) returns (future: Fixtures<FutureMatch>)
    ensures WellFormed(future)
    ensures |future| == 1 && future[0].name == "2025"
    ensures forall rn :: Bucket(future, "2025", rn) == RowsIn(FutureRows(rows), "2025", rn)
    ensures RoundsInOrder(future[0].rounds, RoundLabels(FutureRows(rows), "2025"))
  {
    future := [Season("2025", [])];
    for k := 0 to |rows|
      invariant FutureGroupedBy(future, rows[..k])
    {
      FutureGroupedStep(future, rows, k);
      future := AppendFuture(future, rows[k].0, rows[k].1);
    }
    assert rows[..|rows|] == rows;
  }

  /** `future` is what get_future_matches builds from `rows`. */
  ghost predicate FutureGroupedBy(future: Fixtures<FutureMatch>, rows: seq<(string, FutureMatch)>) {
    && WellFormed(future)
    && |future| == 1 && future[0].name == "2025"
    && (forall s, rn :: Bucket(future, s, rn) == RowsIn(FutureRows(rows), s, rn))
    && RoundsInOrder(future[0].rounds, RoundLabels(FutureRows(rows), "2025"))
  }

  /** The step of get_future_matches' loop. */
  lemma FutureGroupedStep(future: Fixtures<FutureMatch>, rows: seq<(string, FutureMatch)>, k: nat)
    requires k < |rows| && FutureGroupedBy(future, rows[..k])
    ensures WellFormed(future) && |future| == 1 && future[0].name == "2025"
    ensures FutureGroupedBy(AppendFuture(future, rows[k].0, rows[k].1), rows[..k + 1])
  {
    FutureRowsStep(rows, k);
    FutureLabelsStep(rows, k);
    AppendToRoundInOrder(future[0].rounds, RoundLabels(FutureRows(rows[..k]), "2025"), rows[k].0, rows[k].1);
  }

  /** One row of get_future_matches, added to the single season "2025". */
  function AppendFuture(future: Fixtures<FutureMatch>, round: string, m: FutureMatch): (r: Fixtures<FutureMatch>)
    requires WellFormed(future) && |future| == 1 && future[0].name == "2025"
    ensures WellFormed(r) && |r| == 1 && r[0].name == "2025"
    ensures forall s, rn :: Bucket(r, s, rn) == Bucket(future, s, rn) + (if s == "2025" && rn == round then [m] else [])
    ensures r[0].rounds == AppendToRound(future[0].rounds, round, m)
  {
    assert SeasonIndex(future, "2025") == Some(0);
    AppendToBucket(future, "2025", round, m)
  }

  lemma FutureRowsStep(rows: seq<(string, FutureMatch)>, k: nat)
    requires k < |rows|
    ensures forall s, rn ::
      RowsIn(FutureRows(rows[..k + 1]), s, rn) == RowsIn(FutureRows(rows[..k]), s, rn) + (if s == "2025" && rn == rows[k].0 then [rows[k].1] else [])
  {
    RowsInStep(FutureRows(rows), k);
    assert FutureRows(rows[..k + 1]) == FutureRows(rows)[..k + 1];
    assert FutureRows(rows[..k]) == FutureRows(rows)[..k];
  }

  /** One more future row adds its round label to the labels of "2025". */
  lemma FutureLabelsStep(rows: seq<(string, FutureMatch)>, k: nat)
    requires k < |rows|
    ensures RoundLabels(FutureRows(rows[..k + 1]), "2025") == RoundLabels(FutureRows(rows[..k]), "2025") + [rows[k].0]
  {
    assert FutureRows(rows[..k + 1]) == FutureRows(rows[..k]) + [Row("2025", rows[k].0, rows[k].1)];
    RoundLabelsSnoc(FutureRows(rows[..k]), Row("2025", rows[k].0, rows[k].1), "2025");
  }

  /** The future-match rows labelled with the fixed season "2025". */
  function FutureRows(rows: seq<(string, FutureMatch)>): (r: seq<Row<FutureMatch>>)
    ensures |r| == |rows|
    ensures forall k :: 0 <= k < |rows| ==> r[k] == Row("2025", rows[k].0, rows[k].1)
  {
    if rows == [] then [] else FutureRows(rows[..|rows| - 1]) + [Row("2025", rows[|rows| - 1].0, rows[|rows| - 1].1)]
  }

  /** Every row lands in the bucket of its own season and round. */
  lemma {:induction false} RowInOwnBucket<M>(rows: seq<Row<M>>, k: nat)
    requires k < |rows|
    ensures rows[k].item in RowsIn(rows, rows[k].season, rows[k].round)
  {
    if k < |rows| - 1 {
      RowInOwnBucket(rows[..|rows| - 1], k);
    }
  }

  /** Newest first: the order `ORDER BY date DESC` returns. */
  predicate NewestFirst(games: seq<Game>) {
    forall i, j :: 0 <= i < j < |games| ==> games[i].date >= games[j].date
  }

  /**
   * get_games_between_teams: the matches of the two teams in either orientation,
   * read from `history`, the matches table in the query's date-descending order.
   */
  function GetGamesBetweenTeams(history: seq<Game>, team1: string, team2: string): (r: seq<Game>)
    ensures forall g :: g in r <==> g in history && Between(g, team1, team2)
    ensures |r| <= |history|
  {
    if history == [] then []
    else
      var rest := GetGamesBetweenTeams(history[1..], team1, team2);
      if Between(history[0], team1, team2) then [history[0]] + rest else rest
  }

  /** The selection keeps the query's newest-first order. */
  lemma {:induction false} GamesBetweenNewestFirst(history: seq<Game>, team1: string, team2: string)
    requires NewestFirst(history)
    ensures NewestFirst(GetGamesBetweenTeams(history, team1, team2))
  {
    if history != [] {
      var rest := GetGamesBetweenTeams(history[1..], team1, team2);
      assert NewestFirst(history[1..]);
      GamesBetweenNewestFirst(history[1..], team1, team2);
      if Between(history[0], team1, team2) {
        forall k | 0 <= k < |rest| ensures rest[k].date <= history[0].date {
          NewestFirstHead(history, rest[k]);
        }
        ConsNewestFirst(history[0], rest);
      }
    }
  }

  lemma NewestFirstHead(games: seq<Game>, g: Game)
    requires NewestFirst(games) && games != [] && g in games[1..]
    ensures g.date <= games[0].date
  {
    var j :| 0 <= j < |games[1..]| && games[1..][j] == g;
    assert games[j + 1] == g;
  }

  lemma ConsNewestFirst(x: Game, rest: seq<Game>)
    requires NewestFirst(rest)
    requires forall k :: 0 <= k < |rest| ==> rest[k].date <= x.date
    ensures NewestFirst([x] + rest)
  {
    var r := [x] + rest;
    forall i, j | 0 <= i < j < |r| ensures r[i].date >= r[j].date {
      assert r[j] == rest[j - 1];
      if i > 0 { assert r[i] == rest[i - 1]; }
    }
  }

  /** Either orientation of the pair selects the same games, in the same order. */
  lemma {:induction false} GamesBetweenSymmetric(history: seq<Game>, team1: string, team2: string)
    ensures GetGamesBetweenTeams(history, team1, team2) == GetGamesBetweenTeams(history, team2, team1)
  {
    if history != [] { GamesBetweenSymmetric(history[1..], team1, team2); }
  }

  /**
   * A match result (+1, 0 or -1) times a decay factor, written as a case split so
   * that it stays linear; SignedIsProduct shows it is the product.
   */
  function Signed(r: int, d: real): real {
    if r > 0 then d else if r < 0 then -d else 0.0
  }

  lemma SignedIsProduct(r: int, d: real)
    requires -1 <= r <= 1
    ensures Signed(r, d) == r as real * d
  {
  }

  /** The decayed result of each game, from `team`'s side, in the games' order. */
  function DecayedResults(games: seq<Game>, team: string, kFactor: real, today: Day, tm: Transcendentals): (r: seq<real>)
    requires Lawful(tm)
    ensures |r| == |games|
    ensures forall i :: 0 <= i < |games| ==>
      r[i] == Signed(GetMatchResult(games[i], team), GetDecayFactor(kFactor, games[i].date, false, today, tm))
  {
    if games == [] then []
    else
      var g := games[|games| - 1];
      DecayedResults(games[..|games| - 1], team, kFactor, today, tm)
        + [Signed(GetMatchResult(g, team), GetDecayFactor(kFactor, g.date, false, today, tm))]
  }

  /** The head-to-head adjustment of a list of games, from `team`'s side: their mean decayed result times the factor. */
  function H2hAdjustment(games: seq<Game>, team: string, kFactor: real, h2hFactor: real, today: Day, tm: Transcendentals): real
    requires Lawful(tm)
  {
    if |games| == 0 then 0.0
    else ScaledMean(Sum(DecayedResults(games, team, kFactor, today, tm)), |games|, h2hFactor)
  }

  /** `(h2h_score / total_games) * h2h_factor`. */
  function ScaledMean(total: real, n: nat, f: real): real
    requires n > 0
  {
    (total / n as real) * f
  }

  lemma ScaledMeanBounded(total: real, n: nat, bound: real, f: real)
    requires n > 0 && Abs(total) <= n as real * bound
    ensures Abs(ScaledMean(total, n, f)) <= Abs(f) * bound
  {
    MeanBound(total, n as real, bound, f);
  }

  lemma ZeroWithinBound(f: real, bound: real)
    requires bound >= 0.0
    ensures Abs(0.0) <= Abs(f) * bound
  {
    assert Abs(f) >= 0.0;
  }

  lemma ScaledMeanNegated(total: real, negated: real, n: nat, f: real)
    requires n > 0 && negated == -total
    ensures ScaledMean(negated, n, f) == -ScaledMean(total, n, f)
  {
    NegatedMean(total, negated, n as real, f);
  }

  /**
   * get_h2h_adjustment: the mean decayed result of the two teams' previous games,
   * from the home team's side, times h2h_factor (8 by default); 0 without history.
   */
  method GetH2hAdjustment(history: seq<Game>, homeTeam: string, awayTeam: string, kFactor: real, h2hFactor: real, today: Day, tm: Transcendentals)
    returns (adjustment: real)
    requires Lawful(tm)
    ensures adjustment == H2hAdjustment(GetGamesBetweenTeams(history, homeTeam, awayTeam), homeTeam, kFactor, h2hFactor, today, tm)
    ensures (forall g :: g in history ==> !Between(g, homeTeam, awayTeam)) ==> adjustment == 0.0
  {
    if forall g :: g in history ==> !Between(g, homeTeam, awayTeam) {
      NoSharedGames(history, homeTeam, awayTeam);
    }
    var games := GetGamesBetweenTeams(history, homeTeam, awayTeam);
    var totalGames := |games|;
    if totalGames == 0 {
      assert H2hAdjustment(games, homeTeam, kFactor, h2hFactor, today, tm) == 0.0;
      return 0.0;
    }
    var h2hScore := SumDecayedResults(games, homeTeam, kFactor, today, tm);
    var normalizedScore := h2hScore / totalGames as real;
    adjustment := normalizedScore * h2hFactor;
    H2hAdjustmentIsMean(games, homeTeam, kFactor, h2hFactor, today, tm, normalizedScore);
  }

  /** The accumulation loop of get_h2h_adjustment: h2h_score += result * decay over the games. */
  method SumDecayedResults(games: seq<Game>, team: string, kFactor: real, today: Day, tm: Transcendentals) returns (h2hScore: real)
    requires Lawful(tm)
    ensures h2hScore == Sum(DecayedResults(games, team, kFactor, today, tm))
  {
    ghost var terms := DecayedResults(games, team, kFactor, today, tm);
    h2hScore := 0.0;
    for i := 0 to |games|
      invariant h2hScore == Sum(terms[..i])
    {
      SumStep(terms, i);
      var result := GetMatchResult(games[i], team);
      var decay := GetDecayFactor(kFactor, games[i].date, false, today, tm);
      SignedIsProduct(result, decay);
      h2hScore := h2hScore + result as real * decay;
    }
    assert terms[..|games|] == terms;
  }

  lemma H2hAdjustmentIsMean(games: seq<Game>, team: string, kFactor: real, h2hFactor: real, today: Day, tm: Transcendentals, mean: real)
    requires Lawful(tm) && games != []
    requires mean == Sum(DecayedResults(games, team, kFactor, today, tm)) / |games| as real
    ensures H2hAdjustment(games, team, kFactor, h2hFactor, today, tm) == mean * h2hFactor
  {
  }

  /** Without a shared game the pair filter selects nothing. */
  lemma NoSharedGames(history: seq<Game>, team1: string, team2: string)
    requires forall g :: g in history ==> !Between(g, team1, team2)
    ensures GetGamesBetweenTeams(history, team1, team2) == []
  {
    var r := GetGamesBetweenTeams(history, team1, team2);
    assert forall g :: g !in r;
  }

  /** One game's decayed result lies in [-k / ln 11, k / ln 11]. */
  lemma DecayedResultBounded(g: Game, team: string, kFactor: real, today: Day, tm: Transcendentals)
    requires Lawful(tm) && kFactor >= 0.0
    ensures Abs(Signed(GetMatchResult(g, team), GetDecayFactor(kFactor, g.date, false, today, tm))) <= MaxDecay(kFactor, tm)
  {
    DecayFactorBounded(kFactor, g.date, false, today, tm);
  }

  /** The decayed results of n games sum to at most n * k / ln 11 in absolute value. */
  lemma DecayedResultsBounded(games: seq<Game>, team: string, kFactor: real, today: Day, tm: Transcendentals)
    requires Lawful(tm) && kFactor >= 0.0
    ensures Abs(Sum(DecayedResults(games, team, kFactor, today, tm))) <= |games| as real * (MaxDecay(kFactor, tm))
  {
    var terms := DecayedResults(games, team, kFactor, today, tm);
    forall i | 0 <= i < |terms| ensures Abs(terms[i]) <= MaxDecay(kFactor, tm) {
      DecayedResultBounded(games[i], team, kFactor, today, tm);
    }
    SumBounded(terms, |games|, MaxDecay(kFactor, tm));
    assert Abs(Sum(terms)) <= |games| as real * (MaxDecay(kFactor, tm));
  }

  /** |adjustment| <= |h2h_factor| * k / ln 11: k / ln 11 is the largest decay a game can have. */
  lemma H2hAdjustmentBounded(games: seq<Game>, team: string, kFactor: real, h2hFactor: real, today: Day, tm: Transcendentals)
    requires Lawful(tm) && kFactor >= 0.0
    ensures Abs(H2hAdjustment(games, team, kFactor, h2hFactor, today, tm)) <= Abs(h2hFactor) * (MaxDecay(kFactor, tm))
  {
    DecayedResultsBounded(games, team, kFactor, today, tm);
    AdjustmentWithin(H2hAdjustment(games, team, kFactor, h2hFactor, today, tm), Sum(DecayedResults(games, team, kFactor, today, tm)),
      |games|, MaxDecay(kFactor, tm), h2hFactor);
  }

  /** A scaled mean of n terms each within [-m, m], or 0 without terms, lies within |f| * m. */
  lemma AdjustmentWithin(adjustment: real, total: real, n: nat, m: real, f: real)
    requires m >= 0.0 && Abs(total) <= n as real * m
    requires adjustment == if n == 0 then 0.0 else ScaledMean(total, n, f)
    ensures Abs(adjustment) <= Abs(f) * m
  {
    if n > 0 {
      ScaledMeanBounded(total, n, m, f);
    } else {
      ZeroWithinBound(f, m);
    }
  }

  /** Seen from the other team, the decayed results of games between the two sum to the opposite. */
  lemma DecayedResultsNegated(games: seq<Game>, home: string, away: string, kFactor: real, today: Day, tm: Transcendentals)
    requires Lawful(tm) && home != away
    requires forall g :: g in games ==> Between(g, home, away)
    ensures Sum(DecayedResults(games, away, kFactor, today, tm)) == -Sum(DecayedResults(games, home, kFactor, today, tm))
  {
    var mine := DecayedResults(games, home, kFactor, today, tm);
    var theirs := DecayedResults(games, away, kFactor, today, tm);
    forall i | 0 <= i < |games| ensures theirs[i] == -mine[i] {
      assert games[i] in games;
      assert GetMatchResult(games[i], away) == -GetMatchResult(games[i], home);
    }
    SumNegated(mine, theirs);
  }

  /** The adjustment of games between two teams, seen from the other team, is the opposite. */
  lemma H2hAdjustmentNegated(games: seq<Game>, home: string, away: string, kFactor: real, h2hFactor: real, today: Day, tm: Transcendentals)
    requires Lawful(tm) && home != away
    requires forall g :: g in games ==> Between(g, home, away)
    ensures H2hAdjustment(games, away, kFactor, h2hFactor, today, tm) == -H2hAdjustment(games, home, kFactor, h2hFactor, today, tm)
  {
    if games != [] {
      DecayedResultsNegated(games, home, away, kFactor, today, tm);
      ScaledMeanNegated(Sum(DecayedResults(games, home, kFactor, today, tm)), Sum(DecayedResults(games, away, kFactor, today, tm)),
        |games|, h2hFactor);
    }
  }

  /** Swapping the two teams negates the head-to-head adjustment get_h2h_adjustment computes. */
  lemma H2hAdjustmentAntisymmetric(history: seq<Game>, home: string, away: string, kFactor: real, h2hFactor: real, today: Day, tm: Transcendentals)
    requires Lawful(tm) && home != away
    ensures H2hAdjustment(GetGamesBetweenTeams(history, away, home), away, kFactor, h2hFactor, today, tm)
         == -H2hAdjustment(GetGamesBetweenTeams(history, home, away), home, kFactor, h2hFactor, today, tm)
  {
    GamesBetweenSymmetric(history, home, away);
    H2hAdjustmentNegated(GetGamesBetweenTeams(history, home, away), home, away, kFactor, h2hFactor, today, tm);
  }

  /** `counter.setdefault(key, 0)`: the key is present afterwards, and no count changes. */
  function SetDefault(counter: map<string, nat>, key: string): (r: map<string, nat>)
    ensures forall t :: t in r <==> t in counter || t == key
    ensures r[key] == CountOf(counter, key)
    ensures forall t :: t in counter ==> r[t] == counter[t]
  {
    if key in counter then counter else counter[key := 0]
  }

  /** `counter.get(key, 0)`. */
  function CountOf(counter: map<string, nat>, key: string): nat {
    if key in counter then counter[key] else 0
  }

  /**
   * The four counters of set_strength once the games `done` have been visited: keyed
   * by the teams that played at home (away), holding their home (away) games and wins.
   */
  ghost predicate Tallied(done: seq<Game>, homeWins: map<string, nat>, awayWins: map<string, nat>,
                          homeGames: map<string, nat>, awayGames: map<string, nat>) {
    && HomeTallied(done, homeWins, homeGames)
    && AwayTallied(done, awayWins, awayGames)
  }

  ghost predicate HomeTallied(done: seq<Game>, wins: map<string, nat>, games: map<string, nat>) {
    && wins.Keys == HomeTeams(done) && games.Keys == HomeTeams(done)
    && (forall t :: t in games ==> games[t] == HomeGames(done, t) && wins[t] == HomeWins(done, t))
  }

  ghost predicate AwayTallied(done: seq<Game>, wins: map<string, nat>, games: map<string, nat>) {
    && wins.Keys == AwayTeams(done) && games.Keys == AwayTeams(done)
    && (forall t :: t in games ==> games[t] == AwayGames(done, t) && wins[t] == AwayWins(done, t))
  }

  /** Counting one more match keeps the home counters in step with the games visited. */
  lemma HomeTalliedStep(done: seq<Game>, m: Game, wins: map<string, nat>, games: map<string, nat>,
                        wins': map<string, nat>, games': map<string, nat>)
    requires HomeTallied(done, wins, games)
    requires forall t :: t in games' <==> t in games || t == m.homeTeam
    requires forall t :: t in wins' <==> t in wins || t == m.homeTeam
    requires games'[m.homeTeam] == CountOf(games, m.homeTeam) + 1
    requires wins'[m.homeTeam] == CountOf(wins, m.homeTeam) + (if m.result == Home then 1 else 0)
    requires forall t :: t in games && t != m.homeTeam ==> games'[t] == games[t]
    requires forall t :: t in wins && t != m.homeTeam ==> wins'[t] == wins[t]
    ensures HomeTallied(done + [m], wins', games')
  {
    var next := done + [m];
    assert HomeTeams(next) == HomeTeams(done) + {m.homeTeam};
    forall t | t in games' ensures games'[t] == HomeGames(next, t) && wins'[t] == HomeWins(next, t) {
      HomeCountsStep(done, m, t);
      if t != m.homeTeam {
        assert t in games;
      } else if t !in games {
        NoHomeGames(done, t);
      }
    }
  }

  lemma AwayTalliedStep(done: seq<Game>, m: Game, wins: map<string, nat>, games: map<string, nat>,
                        wins': map<string, nat>, games': map<string, nat>)
    requires AwayTallied(done, wins, games)
    requires forall t :: t in games' <==> t in games || t == m.awayTeam
    requires forall t :: t in wins' <==> t in wins || t == m.awayTeam
    requires games'[m.awayTeam] == CountOf(games, m.awayTeam) + 1
    requires wins'[m.awayTeam] == CountOf(wins, m.awayTeam) + (if m.result == Away then 1 else 0)
    requires forall t :: t in games && t != m.awayTeam ==> games'[t] == games[t]
    requires forall t :: t in wins && t != m.awayTeam ==> wins'[t] == wins[t]
    ensures AwayTallied(done + [m], wins', games')
  {
    var next := done + [m];
    assert AwayTeams(next) == AwayTeams(done) + {m.awayTeam};
    forall t | t in games' ensures games'[t] == AwayGames(next, t) && wins'[t] == AwayWins(next, t) {
      AwayCountsStep(done, m, t);
      if t != m.awayTeam {
        assert t in games;
      } else if t !in games {
        NoAwayGames(done, t);
      }
    }
  }

  /** A counted draw adds no win to either side. */
  lemma DrawsCountForNeither(done: seq<Game>, m: Game, team: string)
    requires m.result == Draw
    ensures HomeWins(done + [m], team) == HomeWins(done, team)
    ensures AwayWins(done + [m], team) == AwayWins(done, team)
    ensures HomeGames(done + [m], team) == HomeGames(done, team) + (if m.homeTeam == team then 1 else 0)
  {
    assert (done + [m])[..|done|] == done;
  }

  lemma PrefixStep<T>(before: seq<T>, xs: seq<T>, k: nat)
    requires k < |xs|
    ensures before + xs[..k + 1] == (before + xs[..k]) + [xs[k]]
  {
    assert xs[..k + 1] == xs[..k] + [xs[k]];
  }

  lemma FractionInUnit(wins: nat, games: nat)
    requires wins <= games && games > 0
    ensures 0.0 <= wins as real / games as real <= 1.0
  {
  }

  /**
   * set_strength, without the UPDATE statements: a team's home (away) strength is
   * its home (away) wins over its home (away) games across all the fixtures, so it
   * lies in [0, 1]; every team that played at home (away) gets one.
   */
  method SetStrength(fixtures: Fixtures<Game>) returns (homeStrength: map<string, real>, awayStrength: map<string, real>)
    ensures homeStrength.Keys == HomeTeams(AllMatches(fixtures))
    ensures awayStrength.Keys == AwayTeams(AllMatches(fixtures))
    ensures forall t :: t in homeStrength ==>
      HomeGames(AllMatches(fixtures), t) > 0 &&
      homeStrength[t] == HomeWins(AllMatches(fixtures), t) as real / HomeGames(AllMatches(fixtures), t) as real
    ensures forall t :: t in awayStrength ==>
      AwayGames(AllMatches(fixtures), t) > 0 &&
      awayStrength[t] == AwayWins(AllMatches(fixtures), t) as real / AwayGames(AllMatches(fixtures), t) as real
    ensures forall t :: t in homeStrength ==> 0.0 <= homeStrength[t] <= 1.0
    ensures forall t :: t in awayStrength ==> 0.0 <= awayStrength[t] <= 1.0
  {
    var homeWins: map<string, nat> := map[];
    var awayWins: map<string, nat> := map[];
    var totalHomeMatches: map<string, nat> := map[];
    var totalAwayMatches: map<string, nat> := map[];
    ghost var done: seq<Game> := [];
    for i := 0 to |fixtures|
      invariant done == AllMatches(fixtures[..i])
      invariant Tallied(done, homeWins, awayWins, totalHomeMatches, totalAwayMatches)
    {
      AllMatchesStep(fixtures, i);
      var rounds := fixtures[i].rounds;
      for j := 0 to |rounds|
        invariant done == AllMatches(fixtures[..i]) + RoundsMatches(rounds[..j])
        invariant Tallied(done, homeWins, awayWins, totalHomeMatches, totalAwayMatches)
      {
        RoundsMatchesStep(rounds, j);
        AppendAssoc(AllMatches(fixtures[..i]), RoundsMatches(rounds[..j]), rounds[j].matches);
        var matches := rounds[j].matches;
        ghost var before := done;
        for k := 0 to |matches|
          invariant done == before + matches[..k]
          invariant Tallied(done, homeWins, awayWins, totalHomeMatches, totalAwayMatches)
        {
          homeWins, awayWins, totalHomeMatches, totalAwayMatches :=
            CountMatch(matches[k], homeWins, awayWins, totalHomeMatches, totalAwayMatches, done);
          PrefixStep(before, matches, k);
          done := done + [matches[k]];
        }
        assert matches[..|matches|] == matches;
      }
      assert rounds[..|rounds|] == rounds;
    }
    assert fixtures[..|fixtures|] == fixtures;
    homeStrength := Fractions(homeWins, totalHomeMatches);
    awayStrength := Fractions(awayWins, totalAwayMatches);
    StrengthsOfTally(done, homeWins, awayWins, totalHomeMatches, totalAwayMatches);
  }

  /** The body of set_strength's innermost loop: the setdefault calls and increments for one match. */
  method CountMatch(m: Game, homeWins: map<string, nat>, awayWins: map<string, nat>,
                    totalHomeMatches: map<string, nat>, totalAwayMatches: map<string, nat>, ghost done: seq<Game>)
    returns (homeWins': map<string, nat>, awayWins': map<string, nat>,
             totalHomeMatches': map<string, nat>, totalAwayMatches': map<string, nat>)
    requires Tallied(done, homeWins, awayWins, totalHomeMatches, totalAwayMatches)
    ensures Tallied(done + [m], homeWins', awayWins', totalHomeMatches', totalAwayMatches')
  {
    var homeTeam, awayTeam := m.homeTeam, m.awayTeam;
    homeWins', awayWins', totalHomeMatches', totalAwayMatches' := homeWins, awayWins, totalHomeMatches, totalAwayMatches;
    homeWins' := SetDefault(homeWins', homeTeam);
    awayWins' := SetDefault(awayWins', awayTeam);
    totalHomeMatches' := SetDefault(totalHomeMatches', homeTeam);
    totalAwayMatches' := SetDefault(totalAwayMatches', awayTeam);
    totalHomeMatches' := totalHomeMatches'[homeTeam := totalHomeMatches'[homeTeam] + 1];
    totalAwayMatches' := totalAwayMatches'[awayTeam := totalAwayMatches'[awayTeam] + 1];
    if m.result == Home {
      homeWins' := homeWins'[homeTeam := homeWins'[homeTeam] + 1];
    } else if m.result == Away {
      awayWins' := awayWins'[awayTeam := awayWins'[awayTeam] + 1];
    }
    HomeTalliedStep(done, m, homeWins, totalHomeMatches, homeWins', totalHomeMatches');
    AwayTalliedStep(done, m, awayWins, totalAwayMatches, awayWins', totalAwayMatches');
  }

  /** `{team: wins / total[team] for team, wins in wins.items() if total[team] > 0}`. */
  function Fractions(wins: map<string, nat>, total: map<string, nat>): map<string, real> {
    map t | t in wins && t in total && total[t] > 0 :: wins[t] as real / total[t] as real
  }

  /** The strength maps built from a full tally are the win fractions of the games counted. */
  lemma StrengthsOfTally(done: seq<Game>, homeWins: map<string, nat>, awayWins: map<string, nat>,
                         homeGames: map<string, nat>, awayGames: map<string, nat>)
    requires Tallied(done, homeWins, awayWins, homeGames, awayGames)
    ensures Fractions(homeWins, homeGames).Keys == HomeTeams(done)
    ensures Fractions(awayWins, awayGames).Keys == AwayTeams(done)
    ensures forall t :: t in Fractions(homeWins, homeGames) ==>
      HomeGames(done, t) > 0 && Fractions(homeWins, homeGames)[t] == HomeWins(done, t) as real / HomeGames(done, t) as real
    ensures forall t :: t in Fractions(awayWins, awayGames) ==>
      AwayGames(done, t) > 0 && Fractions(awayWins, awayGames)[t] == AwayWins(done, t) as real / AwayGames(done, t) as real
    ensures forall t :: t in Fractions(homeWins, homeGames) ==> 0.0 <= Fractions(homeWins, homeGames)[t] <= 1.0
    ensures forall t :: t in Fractions(awayWins, awayGames) ==> 0.0 <= Fractions(awayWins, awayGames)[t] <= 1.0
  {
    var homeStrength, awayStrength := Fractions(homeWins, homeGames), Fractions(awayWins, awayGames);
    forall t | t in HomeTeams(done) ensures t in homeStrength {
      HomeTeamHasHomeGames(done, t);
    }
    forall t | t in AwayTeams(done) ensures t in awayStrength {
      AwayTeamHasAwayGames(done, t);
    }
    forall t | t in homeStrength ensures 0.0 <= homeStrength[t] <= 1.0 {
      FractionInUnit(homeWins[t], homeGames[t]);
    }
    forall t | t in awayStrength ensures 0.0 <= awayStrength[t] <= 1.0 {
      FractionInUnit(awayWins[t], awayGames[t]);
    }
  }
}
