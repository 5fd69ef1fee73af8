/**
 * A team's season summary from its normalized statistics: points at three
 * for a win and one for a draw, goal difference, the win rate in percent to
 * one decimal and goals per match to two decimals, the rates 0 when no
 * match has been played.
 */
module TeamSeasonAggregates {
  import opened JsNumbers
  import opened TeamStatsNormalizer

  datatype TeamSeasonAggregates = TeamSeasonAggregates(
    matchesPlayed: real, wins: real, draws: real, losses: real,
    winRate: real, points: real,
    goalsFor: real, goalsAgainst: real, goalDifference: real,
    goalsForPerMatch: real, goalsAgainstPerMatch: real)

  /** The totals the summary reads are numbers, as the record's type
    * declares. */
  predicate Tallied(s: TeamStats) {
    && s.fixtures.played.Num? && s.fixtures.wins.Num? && s.fixtures.draws.Num? && s.fixtures.losses.Num?
    && s.goals.goalsFor.Num? && s.goals.against.Num?
  }

  /** `Number((x / played).toFixed(d))` when `played` is truthy, else 0. */
  function Rate(x: real, played: real, d: nat): (r: real)
    ensures played == 0.0 ==> r == 0.0
    ensures played != 0.0 ==> Abs(r - x / played) * (Pow10(d) as real) <= 0.5
    ensures played != 0.0 ==> RoundsTo(x / played, Pow10(d), r)
  {
    if played == 0.0 then 0.0 else RoundTo(Finite(x / played), d).r
  }

  /** `aggregateTeamSeasonStats(stats)`. */
  function AggregateTeamSeasonStats(stats: TeamStats): (a: TeamSeasonAggregates)
    requires Tallied(stats)
    ensures a.matchesPlayed == stats.fixtures.played.n && a.wins == stats.fixtures.wins.n
    ensures a.draws == stats.fixtures.draws.n && a.losses == stats.fixtures.losses.n
    ensures a.goalsFor == stats.goals.goalsFor.n && a.goalsAgainst == stats.goals.against.n
    ensures a.points - a.draws == 3.0 * a.wins
    ensures a.goalDifference + a.goalsAgainst == a.goalsFor
    ensures a.matchesPlayed == 0.0 ==> a.winRate == 0.0 && a.goalsForPerMatch == 0.0 && a.goalsAgainstPerMatch == 0.0
    ensures a.matchesPlayed != 0.0 ==> Abs(a.winRate - a.wins / a.matchesPlayed * 100.0) * 10.0 <= 0.5
    ensures a.matchesPlayed != 0.0 ==> Abs(a.goalsForPerMatch - a.goalsFor / a.matchesPlayed) * 100.0 <= 0.5
    ensures a.matchesPlayed != 0.0 ==> Abs(a.goalsAgainstPerMatch - a.goalsAgainst / a.matchesPlayed) * 100.0 <= 0.5
    ensures a.matchesPlayed != 0.0 ==> RoundsTo(a.wins / a.matchesPlayed * 100.0, 10, a.winRate)
    ensures a.matchesPlayed != 0.0 ==> RoundsTo(a.goalsFor / a.matchesPlayed, 100, a.goalsForPerMatch)
    ensures a.matchesPlayed != 0.0 ==> RoundsTo(a.goalsAgainst / a.matchesPlayed, 100, a.goalsAgainstPerMatch)
  {
    var played := stats.fixtures.played.n;
    var wins := stats.fixtures.wins.n;
    var draws := stats.fixtures.draws.n;
    var goalsFor := stats.goals.goalsFor.n;
    var goalsAgainst := stats.goals.against.n;
    assert Pow10(1) == 10 && Pow10(2) == 100;
    TeamSeasonAggregates(
      played, wins, draws, stats.fixtures.losses.n,
      if played != 0.0 then RoundTo(Finite(wins / played * 100.0), 1).r else 0.0,
      wins * 3.0 + draws,
      goalsFor, goalsAgainst, goalsFor - goalsAgainst,
      Rate(goalsFor, played, 2), Rate(goalsAgainst, played, 2))
  }

  /** A record whose wins do not exceed its matches has a win rate between
    * 0 and 100. */
  lemma WinRateIsPercentage(stats: TeamStats)
    requires Tallied(stats)
    requires 0.0 <= stats.fixtures.wins.n <= stats.fixtures.played.n
    ensures 0.0 <= AggregateTeamSeasonStats(stats).winRate <= 100.0
  {
    var p := stats.fixtures.played.n;
    var w := stats.fixtures.wins.n;
    if p != 0.0 {
      QuotientBound(w, p, 1.0);
      RoundToWithin(w / p * 100.0, 1, 100);
    }
  }

  /** With played matches split into wins, draws and losses, the points are
    * at most three a match, and reach it exactly when every match was won. */
  lemma PointsBound(stats: TeamStats)
    requires Tallied(stats)
    requires var f := stats.fixtures;
      && 0.0 <= f.wins.n && 0.0 <= f.draws.n && 0.0 <= f.losses.n
      && f.played.n == f.wins.n + f.draws.n + f.losses.n
    ensures var a := AggregateTeamSeasonStats(stats);
      && 0.0 <= a.points <= 3.0 * a.matchesPlayed
      && (a.points == 3.0 * a.matchesPlayed <==> a.wins == a.matchesPlayed)
  {
  }

  /** Seen from the opponent's side (goals for and against exchanged), the
    * goal difference changes sign and the per-match rates swap. */
  lemma SwappedGoals(stats: TeamStats)
    requires Tallied(stats)
    ensures var a := AggregateTeamSeasonStats(stats);
      var b := AggregateTeamSeasonStats(stats.(goals := Goals(stats.goals.against, stats.goals.goalsFor)));
      && b.goalDifference == -a.goalDifference
      && b.goalsForPerMatch == a.goalsAgainstPerMatch
      && b.goalsAgainstPerMatch == a.goalsForPerMatch
      && b.points == a.points && b.winRate == a.winRate
  {
  }

  /** A team that won two of its three matches has a win rate of 66.7. */
  lemma TwoWinsInThree(stats: TeamStats)
    requires Tallied(stats) && stats.fixtures.played.n == 3.0 && stats.fixtures.wins.n == 2.0
    ensures AggregateTeamSeasonStats(stats).winRate == 66.7
  {
    assert Pow10(1) == 10;
    assert Magnitude(2.0 / 3.0 * 100.0, 10) == 667;
  }
}
