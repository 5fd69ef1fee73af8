/**
 * Fixtures: the list form (ids, date, short status, the two sides and their
 * goals) and the detail form, which adds the venue, the referee and the
 * half-time and full-time scores rendered as `"home-away"`.
 */
module MatchNormalizer {
  import opened Errors
  import JsNumbers
  import opened Json
  import opened TeamNormalizer
  import opened TeamPlayersNormalizer

  /** A side of a fixture: `{id, name, logo}` as sent upstream. */
  datatype MatchSide = MatchSide(id: Json, name: Json, logo: Json)

  datatype MatchTeam = MatchTeam(team: MatchSide, goals: Json)

  datatype NormalizedMatch = NormalizedMatch(
    id: Json, leagueId: Json, season: Json, date: Json, status: Json,
    home: MatchTeam, away: MatchTeam)

  /** The detail form; `None` is a property left `undefined`. */
  datatype MatchDetails = MatchDetails(
    base: NormalizedMatch, venue: Json, referee: Json,
    halftimeScore: Option<string>, fulltimeScore: Option<string>)

  const InvalidMatch: Error := Plain("Invalid match response")

  /** The guard of `normalizeMatch`. */
  predicate HasMatchShape(fixture: Json) {
    && Truthy(Get(fixture, "fixture"))
    && Truthy(Get(Get(fixture, "teams"), "home"))
    && Truthy(Get(Get(fixture, "teams"), "away"))
    && Truthy(Get(fixture, "league"))
  }

  function Side(team: Json): (s: MatchSide)
    ensures s.id == Get(team, "id") && s.name == Get(team, "name") && s.logo == Get(team, "logo")
  {
    MatchSide(Get(team, "id"), Get(team, "name"), Get(team, "logo"))
  }

  /** `normalizeMatch(fixture)`. Reading `fixture.fixture.status.short`
    * throws a `TypeError` when `status` is missing. */
  function NormalizeMatch(fixture: Json): (r: Result<NormalizedMatch>)
    ensures !HasMatchShape(fixture) <==> r == Err(InvalidMatch)
    ensures HasMatchShape(fixture) ==> (r == Err(TypeError) <==> IsNullish(Get(Get(fixture, "fixture"), "status")))
    ensures r.Ok? ==> var f := Get(fixture, "fixture");
      && r.value.id == Get(f, "id") && r.value.date == Get(f, "date")
      && r.value.status == Get(Get(f, "status"), "short")
      && r.value.leagueId == Get(Get(fixture, "league"), "id")
      && r.value.season == Get(Get(fixture, "league"), "season")
    ensures r.Ok? ==>
      && r.value.home.team == Side(Get(Get(fixture, "teams"), "home"))
      && r.value.away.team == Side(Get(Get(fixture, "teams"), "away"))
      && r.value.home.goals == OrNull(Get(Get(fixture, "goals"), "home"))
      && r.value.away.goals == OrNull(Get(Get(fixture, "goals"), "away"))
  {
    if !HasMatchShape(fixture) then Err(InvalidMatch)
    else if IsNullish(Get(Get(fixture, "fixture"), "status")) then Err(TypeError)
    else Ok(MatchOf(fixture))
  }

  /** The record built once the guard has passed. */
  function MatchOf(fixture: Json): NormalizedMatch {
    var homeTeam := Side(Get(Get(fixture, "teams"), "home"));
    var awayTeam := Side(Get(Get(fixture, "teams"), "away"));
    var f := Get(fixture, "fixture");
    var league := Get(fixture, "league");
    NormalizedMatch(
      Get(f, "id"), Get(league, "id"), Get(league, "season"), Get(f, "date"), Get(Get(f, "status"), "short"),
      MatchTeam(homeTeam, OrNull(Get(Get(fixture, "goals"), "home"))),
      MatchTeam(awayTeam, OrNull(Get(Get(fixture, "goals"), "away"))))
  }

  /** `` `${s.home}-${s.away}` `` when the score object is truthy. */
  function Score(s: Json): (r: Option<string>)
    ensures r.None? <==> !Truthy(s)
    ensures r.Some? ==> r.value == ToStr(Get(s, "home")) + "-" + ToStr(Get(s, "away"))
  {
    if Truthy(s) then Some(ToStr(Get(s, "home")) + "-" + ToStr(Get(s, "away"))) else None
  }

  /** `normalizeMatchDetails(fixture)`. */
  function NormalizeMatchDetails(fixture: Json): (r: Result<MatchDetails>)
    ensures r.Ok? <==> NormalizeMatch(fixture).Ok?
    ensures r.Err? ==> r.error == NormalizeMatch(fixture).error
    ensures r.Ok? ==> r.value.base == NormalizeMatch(fixture).value
    ensures r.Ok? ==> var f := Get(fixture, "fixture");
      && r.value.venue == OrUndefined(Get(Get(f, "venue"), "name"))
      && r.value.referee == OrUndefined(Get(f, "referee"))
      && r.value.halftimeScore == Score(Get(Get(fixture, "score"), "halftime"))
      && r.value.fulltimeScore == Score(Get(Get(fixture, "score"), "fulltime"))
  {
    var base :- NormalizeMatch(fixture);
    var f := Get(fixture, "fixture");
    Ok(MatchDetails(
      base,
      OrUndefined(Get(Get(f, "venue"), "name")),
      OrUndefined(Get(f, "referee")),
      Score(Get(Get(fixture, "score"), "halftime")),
      Score(Get(Get(fixture, "score"), "fulltime"))))
  }

  // ---------------------------------------------------------------------------
  // Upstream form

  function SideToRaw(s: MatchSide): Json {
    Obj([Field("id", s.id), Field("name", s.name), Field("logo", s.logo)])
  }

  function FixtureToRaw(m: NormalizedMatch): Json {
    Obj([Field("id", m.id), Field("date", m.date), Field("status", Obj([Field("short", m.status)]))])
  }

  function LeagueToRaw(m: NormalizedMatch): Json {
    Obj([Field("id", m.leagueId), Field("season", m.season)])
  }

  function TeamsToRaw(m: NormalizedMatch): Json {
    Obj([Field("home", SideToRaw(m.home.team)), Field("away", SideToRaw(m.away.team))])
  }

  function GoalsToRaw(m: NormalizedMatch): Json {
    Obj([Field("home", m.home.goals), Field("away", m.away.goals)])
  }

  /** A fixture as the upstream API sends it. */
  function MatchToRaw(m: NormalizedMatch): Json {
    Obj([Field("fixture", FixtureToRaw(m)), Field("league", LeagueToRaw(m)),
         Field("teams", TeamsToRaw(m)), Field("goals", GoalsToRaw(m))])
  }

  /** The records `normalizeMatch` can return: goals are never `undefined`. */
  predicate IsMatch(m: NormalizedMatch) {
    !m.home.goals.Undefined? && !m.away.goals.Undefined?
  }

  lemma MatchToRawReads(m: NormalizedMatch)
    ensures var raw := MatchToRaw(m);
      && Get(raw, "fixture") == FixtureToRaw(m) && Get(raw, "league") == LeagueToRaw(m)
      && Get(raw, "teams") == TeamsToRaw(m) && Get(raw, "goals") == GoalsToRaw(m)
  {
    var fs := MatchToRaw(m).fields;
    LookupFirst(fs, 0);
    LookupFirst(fs, 1);
    LookupFirst(fs, 2);
    LookupFirst(fs, 3);
  }

  lemma SideRoundTrip(s: MatchSide)
    ensures Side(SideToRaw(s)) == s
  {
    LookupFirst(SideToRaw(s).fields, 1);
    LookupFirst(SideToRaw(s).fields, 2);
  }

  /** Every record `normalizeMatch` returns has goals that are not
    * `undefined`. */
  lemma NormalizedMatchIsMatch(fixture: Json)
    ensures NormalizeMatch(fixture).Ok? ==> IsMatch(NormalizeMatch(fixture).value)
  {
  }

  /** One side of `MatchOf`, from the two properties it reads. */
  function SideOf(fixture: Json, k: string): MatchTeam {
    MatchTeam(Side(Get(Get(fixture, "teams"), k)), OrNull(Get(Get(fixture, "goals"), k)))
  }

  lemma MatchOfSides(fixture: Json)
    ensures MatchOf(fixture).home == SideOf(fixture, "home")
    ensures MatchOf(fixture).away == SideOf(fixture, "away")
  {
  }

  /** The properties `normalizeMatch` reads from a fixture hold the fields
    * of `m`. */
  predicate ReadsAs(fixture: Json, m: NormalizedMatch) {
    var f := Get(fixture, "fixture");
    var league := Get(fixture, "league");
    && f.Obj? && Get(f, "id") == m.id && Get(f, "date") == m.date
    && Get(f, "status").Obj? && Get(Get(f, "status"), "short") == m.status
    && league.Obj? && Get(league, "id") == m.leagueId && Get(league, "season") == m.season
    && Get(Get(fixture, "teams"), "home").Obj? && SideOf(fixture, "home") == m.home
    && Get(Get(fixture, "teams"), "away").Obj? && SideOf(fixture, "away") == m.away
  }

  /** A fixture that reads as some match passes the guard. */
  lemma ReadsAsPassesGuard(fixture: Json, m: NormalizedMatch)
    requires ReadsAs(fixture, m)
    ensures NormalizeMatch(fixture) == Ok(MatchOf(fixture))
  {
    assert HasMatchShape(fixture);
    assert !IsNullish(Get(Get(fixture, "fixture"), "status"));
  }

  lemma ReadsAsBuilds(fixture: Json, m: NormalizedMatch)
    requires ReadsAs(fixture, m)
    ensures MatchOf(fixture) == m
  {
    MatchOfSides(fixture);
  }

  /** `normalizeMatch` depends only on the properties it reads. */
  lemma NormalizeMatchFromReads(fixture: Json, m: NormalizedMatch)
    requires IsMatch(m)
    requires ReadsAs(fixture, m)
    ensures NormalizeMatch(fixture) == Ok(m)
  {
    ReadsAsPassesGuard(fixture, m);
    ReadsAsBuilds(fixture, m);
  }

  lemma CoreOfRaw(m: NormalizedMatch)
    ensures var f := Get(MatchToRaw(m), "fixture");
      && f.Obj? && Get(f, "id") == m.id && Get(f, "date") == m.date
      && Get(f, "status").Obj? && Get(Get(f, "status"), "short") == m.status
    ensures var league := Get(MatchToRaw(m), "league");
      league.Obj? && Get(league, "id") == m.leagueId && Get(league, "season") == m.season
    ensures Get(Get(MatchToRaw(m), "teams"), "home").Obj? && Get(Get(MatchToRaw(m), "teams"), "away").Obj?
  {
    MatchToRawReads(m);
    FixtureReads(m);
    LeagueReads(m);
    TeamsReads(m);
  }

  lemma FixtureReads(m: NormalizedMatch)
    ensures Get(FixtureToRaw(m), "id") == m.id && Get(FixtureToRaw(m), "date") == m.date
    ensures Get(FixtureToRaw(m), "status").Obj? && Get(Get(FixtureToRaw(m), "status"), "short") == m.status
  {
    LookupFirst(FixtureToRaw(m).fields, 1);
    LookupFirst(FixtureToRaw(m).fields, 2);
  }

  lemma LeagueReads(m: NormalizedMatch)
    ensures Get(LeagueToRaw(m), "id") == m.leagueId && Get(LeagueToRaw(m), "season") == m.season
  {
    LookupFirst(LeagueToRaw(m).fields, 1);
  }

  lemma TeamsReads(m: NormalizedMatch)
    ensures Get(TeamsToRaw(m), "home") == SideToRaw(m.home.team) && Get(TeamsToRaw(m), "away") == SideToRaw(m.away.team)
    ensures Get(GoalsToRaw(m), "home") == m.home.goals && Get(GoalsToRaw(m), "away") == m.away.goals
  {
    LookupFirst(TeamsToRaw(m).fields, 1);
    LookupFirst(GoalsToRaw(m).fields, 1);
  }

  lemma SideOfRaw(m: NormalizedMatch)
    requires IsMatch(m)
    ensures SideOf(MatchToRaw(m), "home") == m.home
    ensures SideOf(MatchToRaw(m), "away") == m.away
  {
    MatchToRawReads(m);
    TeamsReads(m);
    SideRoundTrip(m.home.team);
    SideRoundTrip(m.away.team);
  }

  /** Every such record is reproduced from its upstream form. */
  lemma MatchRoundTrip(m: NormalizedMatch)
    requires IsMatch(m)
    ensures NormalizeMatch(MatchToRaw(m)) == Ok(m)
  {
    CoreOfRaw(m);
    SideOfRaw(m);
    NormalizeMatchFromReads(MatchToRaw(m), m);
  }

  /** A fixture without `fixture`, `teams` or `league` objects is refused
    * with the normalizer's own message. */
  lemma LeagueOnlyIsInvalid()
    ensures NormalizeMatch(Obj([Field("league", Obj([Field("id", Num(39.0))]))])) == Err(InvalidMatch)
  {
  }

  /** Missing goals are `null`, whatever the rest of the fixture says. */
  lemma UpcomingMatchHasNullGoals(fixture: Json)
    requires NormalizeMatch(fixture).Ok?
    requires IsNullish(Get(Get(fixture, "goals"), "home")) && IsNullish(Get(Get(fixture, "goals"), "away"))
    ensures NormalizeMatch(fixture).value.home.goals == Null
    ensures NormalizeMatch(fixture).value.away.goals == Null
  {
  }

  // ---------------------------------------------------------------------------
  // Score strings

  lemma DigitsBeforeDash(a: string, b: string, c: string, d: string)
    requires JsNumbers.AllDigits(a) && JsNumbers.AllDigits(c)
    requires a + "-" + b == c + "-" + d
    ensures a == c && b == d
  {
    var s := a + "-" + b;
    assert forall i :: 0 <= i < |a| ==> s[i] == a[i] && s[i] != '-';
    assert forall i :: 0 <= i < |c| ==> s[i] == c[i] && s[i] != '-';
    assert s[|a|] == '-' && s[|c|] == '-';
    assert |a| == |c|;
    assert a == s[..|a|] == c;
    assert b == s[|a| + 1..] == d;
  }

  /** With whole non-negative goal counts the score string determines the
    * score: distinct scores render differently. */
  lemma ScoreDeterminesGoals(h1: nat, a1: nat, h2: nat, a2: nat)
    requires Score(Obj([Field("home", Num(h1 as real)), Field("away", Num(a1 as real))]))
          == Score(Obj([Field("home", Num(h2 as real)), Field("away", Num(a2 as real))]))
    ensures h1 == h2 && a1 == a2
  {
    var x := [Field("home", Num(h1 as real)), Field("away", Num(a1 as real))];
    var y := [Field("home", Num(h2 as real)), Field("away", Num(a2 as real))];
    LookupFirst(x, 1);
    LookupFirst(y, 1);
    assert ToStr(Num(h1 as real)) == JsNumbers.NatToString(h1);
    assert ToStr(Num(h2 as real)) == JsNumbers.NatToString(h2);
    assert ToStr(Num(a1 as real)) == JsNumbers.NatToString(a1);
    assert ToStr(Num(a2 as real)) == JsNumbers.NatToString(a2);
    DigitsBeforeDash(JsNumbers.NatToString(h1), JsNumbers.NatToString(a1), JsNumbers.NatToString(h2), JsNumbers.NatToString(a2));
    JsNumbers.NatToStringInjective(h1, h2);
    JsNumbers.NatToStringInjective(a1, a2);
  }

  /** A truthy score object is rendered even when its goals are missing or
    * `null`; a missing one leaves the property `undefined`. */
  lemma ScoreOfMissingGoals()
    ensures Score(Obj([])) == Some("undefined-undefined")
    ensures Score(Obj([Field("home", Null), Field("away", Null)])) == Some("null-null")
    ensures Score(Undefined) == None && Score(Null) == None
  {
    var fs := [Field("home", Null), Field("away", Null)];
    LookupFirst(fs, 0);
    LookupFirst(fs, 1);
    assert ToStr(Null) + "-" + ToStr(Null) == "null-null";
    assert ToStr(Undefined) + "-" + ToStr(Undefined) == "undefined-undefined";
  }
}
