/**
 * A team's season statistics in one competition: the form string and the
 * fixture and goal totals, each defaulting to 0. The upstream field for
 * defeats is spelt `loses`; `losses` is read when it is absent.
 */
module TeamStatsNormalizer {
  import opened Errors
  import opened Json
  import opened TeamNormalizer

  datatype Fixtures = Fixtures(played: Json, wins: Json, draws: Json, losses: Json)

  datatype Goals = Goals(goalsFor: Json, against: Json)

  datatype TeamStats = TeamStats(
    team: TeamCore, leagueId: real, season: real,
    form: Json, fixtures: Fixtures, goals: Goals)

  const InvalidTeamStats: Error := Plain("Invalid team statistics response")

  /** `x?.total ?? 0`. */
  function TotalOr0(x: Json): (r: Json)
    ensures !IsNullish(r)
    ensures !IsNullish(Get(x, "total")) ==> r == Get(x, "total")
    ensures IsNullish(Get(x, "total")) ==> r == Num(0.0)
  {
    Coalesce(Get(x, "total"), Num(0.0))
  }

  /** `fixtures?.loses?.total ?? fixtures?.losses?.total ?? 0`. */
  function Losses(fixtures: Json): (r: Json)
    ensures !IsNullish(r)
    ensures !IsNullish(Get(Get(fixtures, "loses"), "total")) ==> r == Get(Get(fixtures, "loses"), "total")
    ensures IsNullish(Get(Get(fixtures, "loses"), "total")) ==> r == TotalOr0(Get(fixtures, "losses"))
  {
    Coalesce(Coalesce(Get(Get(fixtures, "loses"), "total"), Get(Get(fixtures, "losses"), "total")), Num(0.0))
  }

  function FixturesOf(item: Json): Fixtures {
    var fixtures := Get(item, "fixtures");
    Fixtures(TotalOr0(Get(fixtures, "played")), TotalOr0(Get(fixtures, "wins")),
             TotalOr0(Get(fixtures, "draws")), Losses(fixtures))
  }

  function GoalsOf(item: Json): Goals {
    var goals := Get(item, "goals");
    Goals(TotalOr0(Get(Get(goals, "for"), "total")), TotalOr0(Get(Get(goals, "against"), "total")))
  }

  /** `normalizeTeamStats(item, team, league, season)`: any object or array is
    * accepted (`typeof item === "object"`, `null` excluded by the falsy
    * test). */
  function NormalizeTeamStats(item: Json, team: TeamCore, league: real, season: real): (r: Result<TeamStats>)
    ensures r.Ok? <==> item.Obj? || item.Arr?
    ensures r.Err? ==> r.error == InvalidTeamStats
    ensures r.Ok? ==> r.value.team == team && r.value.leagueId == league && r.value.season == season
    ensures r.Ok? ==> r.value.form == OrNull(Get(item, "form"))
    ensures r.Ok? ==> var f := Get(item, "fixtures");
      && r.value.fixtures.played == TotalOr0(Get(f, "played"))
      && r.value.fixtures.wins == TotalOr0(Get(f, "wins"))
      && r.value.fixtures.draws == TotalOr0(Get(f, "draws"))
      && r.value.fixtures.losses == Losses(f)
    ensures r.Ok? ==> var g := Get(item, "goals");
      && r.value.goals.goalsFor == TotalOr0(Get(Get(g, "for"), "total"))
      && r.value.goals.against == TotalOr0(Get(Get(g, "against"), "total"))
  {
    if !Truthy(item) || !(item.Obj? || item.Arr?) then Err(InvalidTeamStats)
    else Ok(TeamStats(team, league, season, OrNull(Get(item, "form")), FixturesOf(item), GoalsOf(item)))
  }

  /** A present `loses` wins over `losses`; `losses` is the fallback. */
  lemma LossesSpelling(n: Json, m: Json)
    requires !IsNullish(n) && !IsNullish(m)
    ensures Losses(Obj([Field("loses", Obj([Field("total", n)])), Field("losses", Obj([Field("total", m)]))])) == n
    ensures Losses(Obj([Field("losses", Obj([Field("total", m)]))])) == m
    ensures Losses(Obj([])) == Num(0.0)
  {
    LookupFirst([Field("loses", Obj([Field("total", n)])), Field("losses", Obj([Field("total", m)]))], 0);
    LookupAbsent([Field("losses", Obj([Field("total", m)]))], "loses");
  }

  /** Missing sections give zero totals and a `null` form. */
  lemma MissingSectionsDefault(team: TeamCore)
    ensures var raw := Obj([Field("form", Null), Field("fixtures", Obj([])), Field("goals", Obj([]))]);
      var r := NormalizeTeamStats(raw, team, 39.0, 2024.0);
      && r.Ok? && r.value.team == team && r.value.form == Null
      && r.value.fixtures == Fixtures(Num(0.0), Num(0.0), Num(0.0), Num(0.0))
      && r.value.goals == Goals(Num(0.0), Num(0.0))
  {
    var fs := [Field("form", Null), Field("fixtures", Obj([])), Field("goals", Obj([]))];
    LookupFirst(fs, 0);
    LookupFirst(fs, 1);
    LookupFirst(fs, 2);
  }

  /** Primitives, `null` and `undefined` are refused. */
  lemma PrimitivesAreRefused(item: Json)
    requires !item.Obj? && !item.Arr?
    ensures NormalizeTeamStats(item, TeamCore(Null, Null, Null, Null), 0.0, 0.0) == Err(InvalidTeamStats)
  {
  }

  // ---------------------------------------------------------------------------
  // Upstream form

  /** The records `normalizeTeamStats` can return. */
  predicate IsTeamStats(s: TeamStats) {
    && !s.form.Undefined?
    && !IsNullish(s.fixtures.played) && !IsNullish(s.fixtures.wins)
    && !IsNullish(s.fixtures.draws) && !IsNullish(s.fixtures.losses)
    && !IsNullish(s.goals.goalsFor) && !IsNullish(s.goals.against)
  }

  function Total(x: Json): Json {
    Obj([Field("total", x)])
  }

  function FixturesToRaw(f: Fixtures): Json {
    Obj([Field("played", Total(f.played)), Field("wins", Total(f.wins)),
         Field("draws", Total(f.draws)), Field("loses", Total(f.losses))])
  }

  function GoalsToRaw(g: Goals): Json {
    Obj([Field("for", Total(Total(g.goalsFor))), Field("against", Total(Total(g.against)))])
  }

  /** The statistics object as the upstream API sends it. */
  function TeamStatsToRaw(s: TeamStats): Json {
    Obj([Field("form", s.form), Field("fixtures", FixturesToRaw(s.fixtures)), Field("goals", GoalsToRaw(s.goals))])
  }

  lemma FixturesRoundTrip(f: Fixtures)
    requires !IsNullish(f.played) && !IsNullish(f.wins) && !IsNullish(f.draws) && !IsNullish(f.losses)
    ensures FixturesOf(Obj([Field("fixtures", FixturesToRaw(f))])) == f
  {
    LookupFirst([Field("fixtures", FixturesToRaw(f))], 0);
    var fs := FixturesToRaw(f).fields;
    LookupFirst(fs, 1);
    LookupFirst(fs, 2);
    LookupFirst(fs, 3);
  }

  lemma GoalsRoundTrip(g: Goals)
    requires !IsNullish(g.goalsFor) && !IsNullish(g.against)
    ensures GoalsOf(Obj([Field("goals", GoalsToRaw(g))])) == g
  {
    LookupFirst([Field("goals", GoalsToRaw(g))], 0);
    LookupFirst(GoalsToRaw(g).fields, 1);
  }

  /** `normalizeTeamStats` reads only `form`, `fixtures` and `goals`. */
  lemma SectionsRead(raw: Json, form: Json, fixtures: Json, goals: Json)
    requires raw == Obj([Field("form", form), Field("fixtures", fixtures), Field("goals", goals)])
    ensures Get(raw, "form") == form
    ensures FixturesOf(raw) == FixturesOf(Obj([Field("fixtures", fixtures)]))
    ensures GoalsOf(raw) == GoalsOf(Obj([Field("goals", goals)]))
  {
    LookupFirst(raw.fields, 0);
    LookupFirst(raw.fields, 1);
    LookupFirst(raw.fields, 2);
  }

  /** Exactly the well-formed records come out, and each is reproduced from
    * its upstream form together with the arguments it was built from. */
  lemma TeamStatsRoundTrip(s: TeamStats, item: Json, team: TeamCore, league: real, season: real)
    ensures NormalizeTeamStats(item, team, league, season).Ok? ==> IsTeamStats(NormalizeTeamStats(item, team, league, season).value)
    ensures IsTeamStats(s) ==> NormalizeTeamStats(TeamStatsToRaw(s), s.team, s.leagueId, s.season) == Ok(s)
  {
    if IsTeamStats(s) {
      SectionsRead(TeamStatsToRaw(s), s.form, FixturesToRaw(s.fixtures), GoalsToRaw(s.goals));
      FixturesRoundTrip(s.fixtures);
      GoalsRoundTrip(s.goals);
    }
  }
}
