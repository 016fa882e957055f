/**
 * The match records the engine consumes, and the season -> round -> matches
 * collections they are grouped into. Python dicts keep insertion order, and the
 * engine processes matches in that order, so a collection is a sequence of
 * named entries rather than a Dafny map.
 */
module Fixtures {
  import opened Wrappers

  /** A calendar date as a day number (Python's date.toordinal()). */
  type Day = int

  datatype Outcome = Home | Draw | Away

  /** A played match: one row of the matches table, or one entry of fixtures.json. */
  datatype Game = Game(
    date: Day,
    leagueId: int,
    homeTeam: string,
    awayTeam: string,
    homeGoals: int,
    awayGoals: int,
    result: Outcome)

  /** A match still to be played: one row of the future_matches table. */
  datatype FutureMatch = FutureMatch(
    date: Day,
    leagueId: int,
    homeTeam: string,
    awayTeam: string,
    homeStrength: real,
    awayStrength: real,
    homeTeamElo: real,
    awayTeamElo: real)

  datatype Round<M> = Round(name: string, matches: seq<M>)

  datatype Season<M> = Season(name: string, rounds: seq<Round<M>>)

  /** season -> round -> matches, in insertion order. */
  type Fixtures<M> = seq<Season<M>>

  /** Dict keys are unique: no season name twice, no round name twice in a season. */
  predicate WellFormed<M>(fx: Fixtures<M>) {
    && (forall i, j :: 0 <= i < j < |fx| ==> fx[i].name != fx[j].name)
    && (forall i :: 0 <= i < |fx| ==> UniqueRounds(fx[i].rounds))
  }

  predicate UniqueRounds<M>(rs: seq<Round<M>>) {
    forall i, j :: 0 <= i < j < |rs| ==> rs[i].name != rs[j].name
  }

  /** The matches of a list of rounds, in processing order. */
  function RoundsMatches<M>(rs: seq<Round<M>>): seq<M> {
    if rs == [] then [] else RoundsMatches(rs[..|rs| - 1]) + rs[|rs| - 1].matches
  }

  /** Every match of a collection, in the order the nested season/round loops visit them. */
  function AllMatches<M>(fx: Fixtures<M>): seq<M> {
    if fx == [] then [] else AllMatches(fx[..|fx| - 1]) + RoundsMatches(fx[|fx| - 1].rounds)
  }

  /** The flattened rounds hold exactly the matches of the rounds. */
  lemma {:induction false} RoundsMatchesMembers<M>(rs: seq<Round<M>>, m: M)
    ensures m in RoundsMatches(rs) <==> exists r :: r in rs && m in r.matches
  {
    if rs != [] {
      var init, last := rs[..|rs| - 1], rs[|rs| - 1];
      RoundsMatchesMembers(init, m);
      assert rs == init + [last];
      if m in RoundsMatches(rs) && m !in last.matches {
        var r :| r in init && m in r.matches;
        assert r in rs;
      }
      if m in last.matches { assert last in rs; }
      if r :| r in rs && m in r.matches {
        if r != last { assert r in init; }
      }
    }
  }

  /** The flattened collection holds exactly the matches of its seasons' rounds. */
  lemma {:induction false} AllMatchesMembers<M>(fx: Fixtures<M>, m: M)
    ensures m in AllMatches(fx) <==> exists s, r :: s in fx && r in s.rounds && m in r.matches
  {
    if fx != [] {
      var init, last := fx[..|fx| - 1], fx[|fx| - 1];
      AllMatchesMembers(init, m);
      RoundsMatchesMembers(last.rounds, m);
      assert fx == init + [last];
      if m in AllMatches(fx) {
        if m in AllMatches(init) {
          var s, r :| s in init && r in s.rounds && m in r.matches;
          assert s in fx;
        } else {
          var r :| r in last.rounds && m in r.matches;
          assert last in fx;
        }
      }
      if s, r :| s in fx && r in s.rounds && m in r.matches {
        if s != last { assert s in init; }
      }
    }
  }

  /** One more round visited by the inner loop extends the flattened prefix by its matches. */
  lemma RoundsMatchesStep<M>(rs: seq<Round<M>>, i: nat)
    requires i < |rs|
    ensures RoundsMatches(rs[..i + 1]) == RoundsMatches(rs[..i]) + rs[i].matches
  {
    assert rs[..i + 1][..i] == rs[..i];
  }

  /** The matches of the first j rounds come first among the matches of all of them. */
  lemma {:induction false} RoundsMatchesPrefix<M>(rs: seq<Round<M>>, j: nat)
    requires j <= |rs|
    ensures RoundsMatches(rs[..j]) <= RoundsMatches(rs)
  {
    if j < |rs| {
      var init := rs[..|rs| - 1];
      assert init[..j] == rs[..j];
      RoundsMatchesPrefix(init, j);
    } else {
      assert rs[..j] == rs;
    }
  }

  /** The matches of the first i seasons come first among the matches of all of them. */
  lemma {:induction false} AllMatchesPrefix<M>(fx: Fixtures<M>, i: nat)
    requires i <= |fx|
    ensures AllMatches(fx[..i]) <= AllMatches(fx)
  {
    if i < |fx| {
      var init := fx[..|fx| - 1];
      assert init[..i] == fx[..i];
      AllMatchesPrefix(init, i);
    } else {
      assert fx[..i] == fx;
    }
  }

  /** One more season visited by the outer loop extends the flattened prefix by its rounds' matches. */
  lemma AllMatchesStep<M>(fx: Fixtures<M>, i: nat)
    requires i < |fx|
    ensures AllMatches(fx[..i + 1]) == AllMatches(fx[..i]) + RoundsMatches(fx[i].rounds)
  {
    assert fx[..i + 1][..i] == fx[..i];
  }

  /** The number of matches in the first j rounds. */
  function RoundsBefore<M>(rs: seq<Round<M>>, j: nat): nat
    requires j <= |rs|
  {
    if j == 0 then 0 else RoundsBefore(rs, j - 1) + |rs[j - 1].matches|
  }

  /** The number of matches in the first i seasons. */
  function SeasonsBefore<M>(fx: Fixtures<M>, i: nat): nat
    requires i <= |fx|
  {
    if i == 0 then 0 else SeasonsBefore(fx, i - 1) + |RoundsMatches(fx[i - 1].rounds)|
  }

  lemma {:induction false} RoundsBeforeIsPrefix<M>(rs: seq<Round<M>>, j: nat)
    requires j <= |rs|
    ensures RoundsBefore(rs, j) == |RoundsMatches(rs[..j])|
  {
    if j == 0 {
      assert rs[..0] == [];
    } else {
      RoundsBeforeIsPrefix(rs, j - 1);
      RoundsMatchesStep(rs, j - 1);
    }
  }

  lemma {:induction false} SeasonsBeforeIsPrefix<M>(fx: Fixtures<M>, i: nat)
    requires i <= |fx|
    ensures SeasonsBefore(fx, i) == |AllMatches(fx[..i])|
  {
    if i == 0 {
      assert fx[..0] == [];
    } else {
      SeasonsBeforeIsPrefix(fx, i - 1);
      AllMatchesStep(fx, i - 1);
    }
  }

  /**
   * Round j's matches follow the matches of the rounds before it inside the
   * flattened sequence ms[offset..], when ms holds the matches of all the rounds there.
   */
  lemma RoundSpan<M>(ms: seq<M>, offset: nat, rs: seq<Round<M>>, j: nat)
    requires j < |rs| && offset + |RoundsMatches(rs)| <= |ms|
    requires forall k :: 0 <= k < |RoundsMatches(rs)| ==> ms[offset + k] == RoundsMatches(rs)[k]
    ensures RoundsBefore(rs, j + 1) <= |RoundsMatches(rs)|
    ensures forall k :: 0 <= k < |rs[j].matches| ==> ms[offset + RoundsBefore(rs, j) + k] == rs[j].matches[k]
  {
    RoundsBeforeIsPrefix(rs, j);
    RoundsBeforeIsPrefix(rs, j + 1);
    RoundsMatchesStep(rs, j);
    RoundsMatchesPrefix(rs, j + 1);
    var before, all := RoundsMatches(rs[..j + 1]), RoundsMatches(rs);
    forall k | 0 <= k < |rs[j].matches|
      ensures ms[offset + RoundsBefore(rs, j) + k] == rs[j].matches[k]
    {
      assert before[RoundsBefore(rs, j) + k] == rs[j].matches[k];
      assert all[RoundsBefore(rs, j) + k] == before[RoundsBefore(rs, j) + k];
    }
  }

  /** Season i's matches follow the matches of the seasons before it in AllMatches(fx). */
  lemma SeasonSpan<M>(fx: Fixtures<M>, i: nat)
    requires i < |fx|
    ensures SeasonsBefore(fx, i + 1) <= |AllMatches(fx)|
    ensures forall k :: 0 <= k < |RoundsMatches(fx[i].rounds)| ==>
      AllMatches(fx)[SeasonsBefore(fx, i) + k] == RoundsMatches(fx[i].rounds)[k]
  {
    SeasonsBeforeIsPrefix(fx, i);
    SeasonsBeforeIsPrefix(fx, i + 1);
    AllMatchesStep(fx, i);
    AllMatchesPrefix(fx, i + 1);
    var before, all, rm, b := AllMatches(fx[..i + 1]), AllMatches(fx), RoundsMatches(fx[i].rounds), SeasonsBefore(fx, i);
    assert before == AllMatches(fx[..i]) + rm && b == |AllMatches(fx[..i])|;
    forall k | 0 <= k < |rm|
      ensures all[b + k] == rm[k]
    {
      assert before[b + k] == rm[k];
      assert all[b + k] == before[b + k];
    }
  }

  /** All the rounds together hold all the matches. */
  lemma RoundsEnd<M>(rs: seq<Round<M>>)
    ensures RoundsBefore(rs, |rs|) == |RoundsMatches(rs)|
  {
    RoundsBeforeIsPrefix(rs, |rs|);
    assert rs[..|rs|] == rs;
  }

  lemma SeasonsEnd<M>(fx: Fixtures<M>)
    ensures SeasonsBefore(fx, |fx|) == |AllMatches(fx)|
  {
    SeasonsBeforeIsPrefix(fx, |fx|);
    assert fx[..|fx|] == fx;
  }

  /** The teams that play at home in some game of ms. */
  function HomeTeams(ms: seq<Game>): set<string> {
    set m | m in ms :: m.homeTeam
  }

  function AwayTeams(ms: seq<Game>): set<string> {
    set m | m in ms :: m.awayTeam
  }

  function GameTeams(ms: seq<Game>): set<string> {
    HomeTeams(ms) + AwayTeams(ms)
  }

  function FutureTeams(ms: seq<FutureMatch>): set<string> {
    (set m | m in ms :: m.homeTeam) + (set m | m in ms :: m.awayTeam)
  }

  /** One more game adds its two teams to the teams seen. */
  lemma GameTeamsStep(ms: seq<Game>, k: nat)
    requires k < |ms|
    ensures GameTeams(ms[..k + 1]) == GameTeams(ms[..k]) + {ms[k].homeTeam, ms[k].awayTeam}
  {
    assert ms[..k + 1] == ms[..k] + [ms[k]];
  }

  lemma FutureTeamsStep(ms: seq<FutureMatch>, k: nat)
    requires k < |ms|
    ensures FutureTeams(ms[..k + 1]) == FutureTeams(ms[..k]) + {ms[k].homeTeam, ms[k].awayTeam}
  {
    assert ms[..k + 1] == ms[..k] + [ms[k]];
  }

  lemma AppendAssoc<T>(a: seq<T>, b: seq<T>, c: seq<T>)
    ensures a + (b + c) == (a + b) + c
  {
  }

  /** Two teams meet in a game, in either orientation. */
  predicate Between(g: Game, team1: string, team2: string) {
    (g.homeTeam == team1 && g.awayTeam == team2) || (g.homeTeam == team2 && g.awayTeam == team1)
  }

  /** Home games of `team` among ms. */
  function HomeGames(ms: seq<Game>, team: string): nat {
    if ms == [] then 0 else HomeGames(ms[..|ms| - 1], team) + (if ms[|ms| - 1].homeTeam == team then 1 else 0)
  }

  /** Home games of `team` among ms whose recorded result is a home win. */
  function HomeWins(ms: seq<Game>, team: string): (n: nat)
    ensures n <= HomeGames(ms, team)
  {
    if ms == [] then 0
    else HomeWins(ms[..|ms| - 1], team) + (if ms[|ms| - 1].homeTeam == team && ms[|ms| - 1].result == Home then 1 else 0)
  }

  function AwayGames(ms: seq<Game>, team: string): nat {
    if ms == [] then 0 else AwayGames(ms[..|ms| - 1], team) + (if ms[|ms| - 1].awayTeam == team then 1 else 0)
  }

  function AwayWins(ms: seq<Game>, team: string): (n: nat)
    ensures n <= AwayGames(ms, team)
  {
    if ms == [] then 0
    else AwayWins(ms[..|ms| - 1], team) + (if ms[|ms| - 1].awayTeam == team && ms[|ms| - 1].result == Away then 1 else 0)
  }

  /** Games among ms whose recorded result is a draw. */
  function Draws(ms: seq<Game>): (n: nat)
    ensures n <= |ms|
  {
    if ms == [] then 0 else Draws(ms[..|ms| - 1]) + (if ms[|ms| - 1].result == Draw then 1 else 0)
  }

  /** A team that played at home has at least one home game. */
  lemma {:induction false} HomeTeamHasHomeGames(ms: seq<Game>, team: string)
    requires team in HomeTeams(ms)
    ensures HomeGames(ms, team) > 0
  {
    if ms[|ms| - 1].homeTeam != team {
      var m :| m in ms && m.homeTeam == team;
      assert m in ms[..|ms| - 1];
      HomeTeamHasHomeGames(ms[..|ms| - 1], team);
    }
  }

  lemma {:induction false} AwayTeamHasAwayGames(ms: seq<Game>, team: string)
    requires team in AwayTeams(ms)
    ensures AwayGames(ms, team) > 0
  {
    if ms[|ms| - 1].awayTeam != team {
      var m :| m in ms && m.awayTeam == team;
      assert m in ms[..|ms| - 1];
      AwayTeamHasAwayGames(ms[..|ms| - 1], team);
    }
  }

  /** One more game adds to the home tallies of its home team only. */
  lemma HomeCountsStep(ms: seq<Game>, m: Game, team: string)
    ensures HomeGames(ms + [m], team) == HomeGames(ms, team) + (if m.homeTeam == team then 1 else 0)
    ensures HomeWins(ms + [m], team) == HomeWins(ms, team) + (if m.homeTeam == team && m.result == Home then 1 else 0)
  {
    assert (ms + [m])[..|ms|] == ms;
  }

  lemma AwayCountsStep(ms: seq<Game>, m: Game, team: string)
    ensures AwayGames(ms + [m], team) == AwayGames(ms, team) + (if m.awayTeam == team then 1 else 0)
    ensures AwayWins(ms + [m], team) == AwayWins(ms, team) + (if m.awayTeam == team && m.result == Away then 1 else 0)
  {
    assert (ms + [m])[..|ms|] == ms;
  }

  /** A team that never played at home has no home games and no home wins. */
  lemma {:induction false} NoHomeGames(ms: seq<Game>, team: string)
    requires team !in HomeTeams(ms)
    ensures HomeGames(ms, team) == 0 && HomeWins(ms, team) == 0
  {
    if ms != [] {
      assert HomeTeams(ms[..|ms| - 1]) <= HomeTeams(ms);
      NoHomeGames(ms[..|ms| - 1], team);
    }
  }

  lemma {:induction false} NoAwayGames(ms: seq<Game>, team: string)
    requires team !in AwayTeams(ms)
    ensures AwayGames(ms, team) == 0 && AwayWins(ms, team) == 0
  {
    if ms != [] {
      assert AwayTeams(ms[..|ms| - 1]) <= AwayTeams(ms);
      NoAwayGames(ms[..|ms| - 1], team);
    }
  }

  /** The season names of a collection, in order: the dict's keys. */
  function Names<M>(fx: Fixtures<M>): (r: seq<string>)
    ensures |r| == |fx| && forall i :: 0 <= i < |fx| ==> r[i] == fx[i].name
  {
    if fx == [] then [] else Names(fx[..|fx| - 1]) + [fx[|fx| - 1].name]
  }

  /** The round names of one season, in order. */
  function RoundNames<M>(rs: seq<Round<M>>): (r: seq<string>)
    ensures |r| == |rs| && forall j :: 0 <= j < |rs| ==> r[j] == rs[j].name
  {
    if rs == [] then [] else RoundNames(rs[..|rs| - 1]) + [rs[|rs| - 1].name]
  }

  /**
   * The distinct strings of xs, each at its first appearance: the keys, in order,
   * of a dict into which the strings of xs are inserted one after the other.
   */
  function Distinct(xs: seq<string>): seq<string> {
    if xs == [] then []
    else
      var d := Distinct(xs[..|xs| - 1]);
      if xs[|xs| - 1] in d then d else d + [xs[|xs| - 1]]
  }

  /** Distinct keeps exactly the strings of xs. */
  lemma {:induction false} DistinctMembers(xs: seq<string>, x: string)
    ensures x in Distinct(xs) <==> x in xs
  {
    if xs != [] {
      var init := xs[..|xs| - 1];
      DistinctMembers(init, x);
      assert xs == init + [xs[|xs| - 1]];
    }
  }

  /** Distinct lists no string twice. */
  lemma {:induction false} DistinctUnique(xs: seq<string>)
    ensures forall i, j :: 0 <= i < j < |Distinct(xs)| ==> Distinct(xs)[i] != Distinct(xs)[j]
  {
    if xs != [] {
      var init := xs[..|xs| - 1];
      DistinctUnique(init);
    }
  }

  /** One more string is appended to Distinct exactly when it is new. */
  lemma DistinctSnoc(xs: seq<string>, x: string)
    ensures Distinct(xs + [x]) == if x in xs then Distinct(xs) else Distinct(xs) + [x]
  {
    assert (xs + [x])[..|xs|] == xs;
    DistinctMembers(xs, x);
  }

  /** The index of `name` in a sequence of keys, if any (a dict lookup by key). */
  function KeyIndex(names: seq<string>, name: string): (r: Option<nat>)
    ensures r.Some? ==> r.value < |names| && names[r.value] == name
    ensures r.None? <==> name !in names
  {
    if names == [] then None
    else if names[|names| - 1] == name then Some(|names| - 1)
    else KeyIndex(names[..|names| - 1], name)
  }

  /** The index of the season called `name`, if any. */
  function SeasonIndex<M>(fx: Fixtures<M>, name: string): (r: Option<nat>)
    ensures r.Some? ==> r.value < |fx| && fx[r.value].name == name
    ensures r.None? <==> forall k :: 0 <= k < |fx| ==> fx[k].name != name
  {
    KeyIndex(Names(fx), name)
  }

  /** The index of the round called `name` within one season, if any. */
  function RoundIndex<M>(rs: seq<Round<M>>, name: string): (r: Option<nat>)
    ensures r.Some? ==> r.value < |rs| && rs[r.value].name == name
    ensures r.None? <==> forall k :: 0 <= k < |rs| ==> rs[k].name != name
  {
    KeyIndex(RoundNames(rs), name)
  }

  /** `rounds.get(name, [])`. */
  function RoundBucket<M>(rs: seq<Round<M>>, name: string): seq<M> {
    match RoundIndex(rs, name)
    case None => []
    case Some(j) => rs[j].matches
  }

  /** `fixtures.get(season, {}).get(round, [])`. */
  function Bucket<M>(fx: Fixtures<M>, season: string, round: string): seq<M> {
    match SeasonIndex(fx, season)
    case None => []
    case Some(i) => RoundBucket(fx[i].rounds, round)
  }

  /** Looking up in one more key finds it there, or looks among the others. */
  lemma KeyIndexSnoc(names: seq<string>, x: string)
    ensures forall name :: KeyIndex(names + [x], name) == if x == name then Some(|names|) else KeyIndex(names, name)
  {
    assert (names + [x])[..|names|] == names;
  }

  /** With unique names, a name found at index i is found at i by the lookup. */
  lemma {:induction false} KeyIndexUnique(names: seq<string>, j: nat)
    requires j < |names| && forall a, b :: 0 <= a < b < |names| ==> names[a] != names[b]
    ensures KeyIndex(names, names[j]) == Some(j)
  {
    if j < |names| - 1 {
      KeyIndexUnique(names[..|names| - 1], j);
    }
  }

  lemma RoundIndexUnique<M>(rs: seq<Round<M>>, j: nat)
    requires UniqueRounds(rs) && j < |rs|
    ensures RoundIndex(rs, rs[j].name) == Some(j)
  {
    KeyIndexUnique(RoundNames(rs), j);
  }

  lemma SeasonIndexUnique<M>(fx: Fixtures<M>, i: nat)
    requires WellFormed(fx) && i < |fx|
    ensures SeasonIndex(fx, fx[i].name) == Some(i)
  {
    KeyIndexUnique(Names(fx), i);
  }
}
