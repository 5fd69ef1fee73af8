/**
 * The table of supported leagues and the two checks made against it: that a
 * league is supported, and that a season is not older than the first season
 * the league is offered for.
 */
module Leagues {
  import opened Errors
  import opened JsNumbers

  datatype League = League(id: int, name: string, country: string, countryCode: string, fromSeason: int, logo: string)

  function Logo(id: int): string {
    "https://media.api-sports.io/football/leagues/" + IntToString(id) + ".png"
  }

  /** `SUPPORTED_LEAGUES[id]`. */
  function SupportedLeague(id: int): Option<League> {
    if id == 39 then Some(League(39, "Premier League", "England", "GB", 1992, Logo(39)))
    else if id == 140 then Some(League(140, "La Liga", "Spain", "ES", 1929, Logo(140)))
    else if id == 135 then Some(League(135, "Serie A", "Italy", "IT", 1898, Logo(135)))
    else if id == 78 then Some(League(78, "Bundesliga", "Germany", "DE", 1963, Logo(78)))
    else if id == 61 then Some(League(61, "Ligue 1", "France", "FR", 1932, Logo(61)))
    else if id == 262 then Some(League(262, "Liga MX", "Mexico", "MX", 1943, Logo(262)))
    else None
  }

  /** Each entry is filed under its own id. */
  lemma TableIsKeyedById(id: int)
    ensures SupportedLeague(id).Some? <==> id in {39, 140, 135, 78, 61, 262}
    ensures SupportedLeague(id).Some? ==> SupportedLeague(id).value.id == id
    ensures SupportedLeague(id).Some? ==> SupportedLeague(id).value.logo == Logo(id)
  {
  }

  /** `SUPPORTED_LEAGUES[key]` for a number key: the property name is
    * `String(key)`, so only an integer can name an entry. */
  function LeagueAt(key: JsNumber): Option<League> {
    if IsInteger(key) then SupportedLeague(key.r.Floor) else None
  }

  /** The keys that name an entry are exactly the six ids, as numbers. */
  lemma LeagueAtKeys(key: JsNumber)
    ensures LeagueAt(key).Some? <==> key.Finite? && key.r in {39.0, 140.0, 135.0, 78.0, 61.0, 262.0}
  {
    if IsInteger(key) {
      var id := key.r.Floor;
      TableIsKeyedById(id);
      assert key.r == id as real;
    } else if key.Finite? {
      assert key.r !in {39.0, 140.0, 135.0, 78.0, 61.0, 262.0};
    }
  }

  lemma PremierLeague()
    ensures LeagueAt(Finite(39.0)) == SupportedLeague(39)
    ensures SupportedLeague(39).Some? && SupportedLeague(39).value.name == "Premier League"
    ensures SupportedLeague(39).value.fromSeason == 1992
  {
    assert (39.0).Floor == 39;
  }

  /** `validateLeague(league)`. */
  function ValidateLeague(league: JsNumber): (r: Result<()>)
    ensures r.Ok? <==> league.Finite? && league.r in {39.0, 140.0, 135.0, 78.0, 61.0, 262.0}
    ensures r.Err? ==> r.error == Api(400, "unsupported_league", "League " + JsNumberToString(league) + " is not supported")
  {
    LeagueAtKeys(league);
    if LeagueAt(league).None? then
      Err(Api(400, "unsupported_league", "League " + JsNumberToString(league) + " is not supported"))
    else
      Ok(())
  }

  /** `validateSeason(league, season)`: `season < fromSeason` is false for a
    * NaN season, so only a season below the first one is refused. */
  function ValidateSeason(league: JsNumber, season: JsNumber): (r: Result<()>)
    ensures LeagueAt(league).None? ==> r.Ok?
    ensures LeagueAt(league).Some? ==> var from := LeagueAt(league).value.fromSeason as real;
      (r.Err? <==> season.NegInf? || (season.Finite? && season.r < from))
    ensures r.Err? ==> r.error == Api(400, "invalid_season",
      "Season " + JsNumberToString(season) + " is not supported for " + LeagueAt(league).value.name)
  {
    var meta := LeagueAt(league);
    if meta.None? then Ok(())
    else if Less(season, Finite(meta.value.fromSeason as real)) then
      Err(Api(400, "invalid_season", "Season " + JsNumberToString(season) + " is not supported for " + meta.value.name))
    else
      Ok(())
  }

  /** Acceptance is upward closed: a season no smaller than an accepted one
    * is accepted too, and there is no upper bound. */
  lemma SeasonAcceptanceIsMonotone(league: JsNumber, s: JsNumber, t: JsNumber)
    requires ValidateSeason(league, s).Ok? && !s.NaN? && !Less(t, s)
    ensures ValidateSeason(league, t).Ok?
  {
  }

  /** A supported league accepts its first season and refuses the one
    * before it. */
  lemma FirstSeasonIsTheBoundary(league: JsNumber)
    requires LeagueAt(league).Some?
    ensures var from := LeagueAt(league).value.fromSeason as real;
      ValidateSeason(league, Finite(from - 1.0)).Err? && ValidateSeason(league, Finite(from)).Ok?
  {
  }

  /** The Premier League is offered from 1992, and a NaN season is let
    * through. */
  lemma PremierLeagueFrom1992()
    ensures ValidateSeason(Finite(39.0), Finite(1991.0)).Err? && ValidateSeason(Finite(39.0), Finite(1992.0)).Ok?
    ensures ValidateSeason(Finite(39.0), NaN).Ok? && ValidateSeason(Finite(39.0), NegInf).Err?
    ensures ValidateLeague(Finite(39.0)).Ok? && ValidateLeague(Finite(40.0)).Err? && ValidateLeague(Finite(39.5)).Err?
  {
    PremierLeague();
  }

  /** A fractional season is compared as it is and printed by `String()`. */
  lemma FractionalSeasonIsRefused()
    ensures ValidateSeason(Finite(39.0), Finite(1991.5))
      == Err(Api(400, "invalid_season", "Season 1991.5 is not supported for Premier League"))
  {
    PremierLeague();
    RenderSeason();
    MessageText();
    var r := ValidateSeason(Finite(39.0), Finite(1991.5));
    assert r.Err?;
  }

  lemma MessageText()
    ensures "Season " + "1991.5" + " is not supported for " + "Premier League"
      == "Season 1991.5 is not supported for Premier League"
  {
  }

  lemma RenderSeason()
    ensures JsNumberToString(Finite(1991.5)) == "1991.5"
  {
    assert FractionDigits(0.5, 20) == "5" by {
      assert FractionDigits(0.0, 19) == "";
    }
    assert (1991.5).Floor == 1991;
    assert Abs(1991.5) == 1991.5;
    assert NatToString(1991) == "1991";
    assert NumberToString(1991.5) == "" + NatToString(1991) + "." + FractionDigits(0.5, 20);
  }
}
