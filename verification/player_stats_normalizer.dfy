/**
 * The flat per-competition statistics of a single player: the same counters
 * as a squad member's season entry, with the team reduced to its id, name
 * and logo and no check on the team itself.
 */
module PlayerStatsNormalizer {
  import opened Errors
  import JsNumbers
  import opened Json
  import opened TeamNormalizer
  import opened TeamPlayersNormalizer

  datatype NormalizedPlayerStats = NormalizedPlayerStats(
    teamId: Json, teamName: Json, teamLogo: Json,
    leagueId: Json, leagueName: Json, season: Json,
    appearances: Json, minutes: Json, position: Json, rating: Option<JsNumbers.JsNumber>,
    goals: Json, assists: Json,
    passes: Json, passAccuracy: Option<JsNumbers.JsNumber>,
    yellowCards: Json, redCards: Json)

  const InvalidPlayerStats: Error := Plain("Invalid player statistics response")

  /** `normalizePlayerStats(stats)`. */
  function NormalizePlayerStats(stats: Json): (r: Result<NormalizedPlayerStats>)
    ensures r.Ok? <==> Truthy(Get(stats, "team")) && Truthy(Get(stats, "league"))
    ensures r.Err? ==> r.error == InvalidPlayerStats
    ensures r.Ok? ==> var team := Get(stats, "team");
      && r.value.teamId == Get(team, "id") && r.value.teamName == Get(team, "name")
      && r.value.teamLogo == Get(team, "logo")
    ensures r.Ok? ==> var league := Get(stats, "league");
      r.value.leagueId == Get(league, "id") && r.value.leagueName == Get(league, "name") && r.value.season == Get(league, "season")
    ensures r.Ok? ==> var games := Get(stats, "games");
      && r.value.appearances == OrZero(Get(games, "appearences"))
      && r.value.minutes == OrZero(Get(games, "minutes"))
      && r.value.position == Coalesce(Get(games, "position"), Str(""))
      && r.value.rating == NumberIfTruthy(Get(games, "rating"))
    ensures r.Ok? ==>
      && r.value.goals == OrZero(Get(Get(stats, "goals"), "total"))
      && r.value.assists == OrZero(Get(Get(stats, "goals"), "assists"))
      && r.value.passes == OrZero(Get(Get(stats, "passes"), "total"))
      && r.value.passAccuracy == NumberIfTruthy(Get(Get(stats, "passes"), "accuracy"))
      && r.value.yellowCards == OrZero(Get(Get(stats, "cards"), "yellow"))
      && r.value.redCards == OrZero(Get(Get(stats, "cards"), "red"))
  {
    if !Truthy(stats) || !Truthy(Get(stats, "team")) || !Truthy(Get(stats, "league")) then Err(InvalidPlayerStats)
    else
      var team := Get(stats, "team");
      var league := Get(stats, "league");
      var games := Get(stats, "games");
      var goals := Get(stats, "goals");
      var passes := Get(stats, "passes");
      var cards := Get(stats, "cards");
      Ok(NormalizedPlayerStats(
        Get(team, "id"), Get(team, "name"), Get(team, "logo"),
        Get(league, "id"), Get(league, "name"), Get(league, "season"),
        OrZero(Get(games, "appearences")), OrZero(Get(games, "minutes")),
        Coalesce(Get(games, "position"), Str("")), NumberIfTruthy(Get(games, "rating")),
        OrZero(Get(goals, "total")), OrZero(Get(goals, "assists")),
        OrZero(Get(passes, "total")), NumberIfTruthy(Get(passes, "accuracy")),
        OrZero(Get(cards, "yellow")), OrZero(Get(cards, "red"))))
  }

  /** The flat record of a season entry. */
  function Flatten(s: PlayerSeasonStats): (f: NormalizedPlayerStats) {
    NormalizedPlayerStats(
      s.team.id, s.team.name, s.team.logo,
      s.leagueId, s.leagueName, s.season,
      s.appearances, s.minutes, s.position, s.rating,
      s.goals, s.assists, s.passes, s.passAccuracy, s.yellowCards, s.redCards)
  }

  /** The two normalizers agree: whatever the seasonal one accepts the flat
    * one accepts with the same values, except that the seasonal one turns a
    * missing logo into `null`; the flat one additionally accepts exactly the
    * entries whose team fails the team-core check. */
  lemma FlatAgreesWithSeasonal(stats: Json)
    ensures NormalizePlayerSeasonStats(stats).Ok? ==>
      && NormalizePlayerStats(stats).Ok?
      && Flatten(NormalizePlayerSeasonStats(stats).value)
         == NormalizePlayerStats(stats).value.(teamLogo := OrNull(NormalizePlayerStats(stats).value.teamLogo))
    ensures NormalizePlayerStats(stats).Ok? && NormalizePlayerSeasonStats(stats).Err? <==>
      && Truthy(Get(stats, "team")) && Truthy(Get(stats, "league"))
      && NormalizeTeamCore(Get(stats, "team")).Err?
  {
  }

  /** The flat normalizer does not look inside the team: a team without an
    * id is accepted and passed through as `undefined`. */
  lemma TeamNotChecked()
    ensures var stats := Obj([Field("team", Obj([])), Field("league", Obj([]))]);
      && NormalizePlayerStats(stats).Ok?
      && NormalizePlayerStats(stats).value.teamId == Undefined
      && NormalizePlayerStats(stats).value.teamLogo == Undefined
      && NormalizePlayerSeasonStats(stats) == Err(InvalidTeamCore)
  {
    var fs := [Field("team", Obj([])), Field("league", Obj([]))];
    LookupFirst(fs, 0);
    LookupFirst(fs, 1);
  }
}
