/**
 * Squad members with their per-competition season statistics. A player
 * needs a truthy `id` and `name`; every statistics entry needs a truthy
 * `team` and `league`, and its team must pass the team-core check. Counters
 * default to 0, ratings are parsed only when truthy.
 */
module TeamPlayersNormalizer {
  import opened Errors
  import JsNumbers
  import opened Json
  import opened TeamNormalizer

  datatype PlayerSeasonStats = PlayerSeasonStats(
    team: TeamCore,
    leagueId: Json, leagueName: Json, season: Json,
    appearances: Json, minutes: Json, position: Json, rating: Option<JsNumbers.JsNumber>,
    goals: Json, assists: Json,
    passes: Json, passAccuracy: Option<JsNumbers.JsNumber>,
    yellowCards: Json, redCards: Json)

  datatype PlayerWithSeasonStats = PlayerWithSeasonStats(
    id: Json, name: Json, photo: Json, age: Json, nationality: Json,
    stats: seq<PlayerSeasonStats>)

  const InvalidTeamPlayer: Error := Plain("Invalid team player response")
  const InvalidSeasonStats: Error := Plain("Invalid player season statistics response")

  /** `x ?? 0`. */
  function OrZero(x: Json): (r: Json)
    ensures !IsNullish(r)
    ensures IsNullish(x) ==> r == Num(0.0)
    ensures !IsNullish(x) ==> r == x
  {
    Coalesce(x, Num(0.0))
  }

  /** `x ? Number(x) : null`. */
  function NumberIfTruthy(x: Json): (r: Option<JsNumbers.JsNumber>)
    ensures r.None? <==> !Truthy(x)
    ensures r.Some? ==> r.value == ToNumber(x)
  {
    if Truthy(x) then Some(ToNumber(x)) else None
  }

  /** `x ?? undefined`: `null` becomes `undefined`. */
  function OrUndefined(x: Json): (r: Json)
    ensures !r.Null?
    ensures IsNullish(x) <==> r == Undefined
    ensures !IsNullish(x) ==> r == x
  {
    Coalesce(x, Undefined)
  }

  /** `normalizePlayerSeasonStats(stats)`. */
  function NormalizePlayerSeasonStats(stats: Json): (r: Result<PlayerSeasonStats>)
    ensures !Truthy(Get(stats, "team")) || !Truthy(Get(stats, "league")) ==> r == Err(InvalidSeasonStats)
    ensures Truthy(Get(stats, "team")) && Truthy(Get(stats, "league")) ==>
      (r.Ok? <==> NormalizeTeamCore(Get(stats, "team")).Ok?)
      && (r.Err? ==> r.error == InvalidTeamCore)
    ensures r.Ok? ==> r.value.team == NormalizeTeamCore(Get(stats, "team")).value
    ensures r.Ok? ==> var league := Get(stats, "league");
      r.value.leagueId == Get(league, "id") && r.value.leagueName == Get(league, "name") && r.value.season == Get(league, "season")
    ensures r.Ok? ==> var games := Get(stats, "games");
      && r.value.appearances == OrZero(Get(games, "appearences"))
      && r.value.minutes == OrZero(Get(games, "minutes"))
      && r.value.position == Coalesce(Get(games, "position"), Str(""))
      && r.value.rating == NumberIfTruthy(Get(games, "rating"))
    ensures r.Ok? ==>
      && r.value.goals == OrZero(Get(Get(stats, "goals"), "total"))
      && r.value.assists == OrZero(Get(Get(stats, "goals"), "assists"))
      && r.value.passes == OrZero(Get(Get(stats, "passes"), "total"))
      && r.value.passAccuracy == NumberIfTruthy(Get(Get(stats, "passes"), "accuracy"))
      && r.value.yellowCards == OrZero(Get(Get(stats, "cards"), "yellow"))
      && r.value.redCards == OrZero(Get(Get(stats, "cards"), "red"))
  {
    if !Truthy(Get(stats, "team")) || !Truthy(Get(stats, "league")) then Err(InvalidSeasonStats)
    else
      var team :- NormalizeTeamCore(Get(stats, "team"));
      var league := Get(stats, "league");
      var games := Get(stats, "games");
      var goals := Get(stats, "goals");
      var passes := Get(stats, "passes");
      var cards := Get(stats, "cards");
      Ok(PlayerSeasonStats(
        team,
        Get(league, "id"), Get(league, "name"), Get(league, "season"),
        OrZero(Get(games, "appearences")), OrZero(Get(games, "minutes")),
        Coalesce(Get(games, "position"), Str("")), NumberIfTruthy(Get(games, "rating")),
        OrZero(Get(goals, "total")), OrZero(Get(goals, "assists")),
        OrZero(Get(passes, "total")), NumberIfTruthy(Get(passes, "accuracy")),
        OrZero(Get(cards, "yellow")), OrZero(Get(cards, "red"))))
  }

  /** `statistics.map(normalizePlayerSeasonStats)`: the first entry that
    * throws makes the whole map throw. */
  function NormalizeAll(items: seq<Json>): (r: Result<seq<PlayerSeasonStats>>)
    ensures r.Ok? <==> forall i :: 0 <= i < |items| ==> NormalizePlayerSeasonStats(items[i]).Ok?
    ensures r.Ok? ==> |r.value| == |items|
    ensures r.Ok? ==> forall i :: 0 <= i < |items| ==> r.value[i] == NormalizePlayerSeasonStats(items[i]).value
    ensures r.Err? ==>
      exists i :: 0 <= i < |items| && NormalizePlayerSeasonStats(items[i]) == Err(r.error)
        && (forall j :: 0 <= j < i ==> NormalizePlayerSeasonStats(items[j]).Ok?)
  {
    MapOrThrow(NormalizePlayerSeasonStats, items)
  }

  /** The error of the map is the error of its first failing entry, whatever
    * the later entries hold. */
  lemma FirstBadEntryDecides(items: seq<Json>, i: int)
    requires 0 <= i < |items| && NormalizePlayerSeasonStats(items[i]).Err?
    requires forall j :: 0 <= j < i ==> NormalizePlayerSeasonStats(items[j]).Ok?
    ensures NormalizeAll(items) == Err(NormalizePlayerSeasonStats(items[i]).error)
  {
    var r := NormalizeAll(items);
    assert r.Err?;
    var k :| 0 <= k < |items| && NormalizePlayerSeasonStats(items[k]) == Err(r.error)
      && (forall j :: 0 <= j < k ==> NormalizePlayerSeasonStats(items[j]).Ok?);
    assert k == i;
  }

  /** `normalizeTeamPlayer(item)`. */
  function NormalizeTeamPlayer(item: Json): (r: Result<PlayerWithSeasonStats>)
    ensures !Truthy(Get(Get(item, "player"), "id")) || !Truthy(Get(Get(item, "player"), "name")) ==>
      r == Err(InvalidTeamPlayer)
    ensures r.Ok? ==> var player := Get(item, "player");
      && r.value.id == Get(player, "id") && r.value.name == Get(player, "name")
      && r.value.photo == OrUndefined(Get(player, "photo"))
      && r.value.age == OrUndefined(Get(player, "age"))
      && r.value.nationality == OrUndefined(Get(player, "nationality"))
    ensures !Get(item, "statistics").Arr? && Truthy(Get(Get(item, "player"), "id")) && Truthy(Get(Get(item, "player"), "name")) ==>
      r.Ok? && r.value.stats == []
    ensures Get(item, "statistics").Arr? && r.Ok? ==>
      && |r.value.stats| == |Get(item, "statistics").items|
      && forall i :: 0 <= i < |r.value.stats| ==>
           NormalizePlayerSeasonStats(Get(item, "statistics").items[i]).Ok? &&
           r.value.stats[i] == NormalizePlayerSeasonStats(Get(item, "statistics").items[i]).value
    ensures Get(item, "statistics").Arr? && Truthy(Get(Get(item, "player"), "id")) && Truthy(Get(Get(item, "player"), "name")) ==>
      (r.Ok? <==> forall i :: 0 <= i < |Get(item, "statistics").items| ==>
                    NormalizePlayerSeasonStats(Get(item, "statistics").items[i]).Ok?)
    ensures (Get(item, "statistics").Arr? && Truthy(Get(Get(item, "player"), "id")) && Truthy(Get(Get(item, "player"), "name"))
             && r.Err?) ==>
      NormalizeAll(Get(item, "statistics").items).Err? && r.error == NormalizeAll(Get(item, "statistics").items).error
  {
    var player := Get(item, "player");
    if !Truthy(Get(player, "id")) || !Truthy(Get(player, "name")) then Err(InvalidTeamPlayer)
    else
      var statistics := Get(item, "statistics");
      var stats :- if statistics.Arr? then NormalizeAll(statistics.items) else Ok([]);
      Ok(PlayerWithSeasonStats(
        Get(player, "id"), Get(player, "name"),
        OrUndefined(Get(player, "photo")), OrUndefined(Get(player, "age")), OrUndefined(Get(player, "nationality")),
        stats))
  }

  /** A player whose statistics entry has no league fails entirely. */
  lemma OneBadEntryFailsPlayer(item: Json, k: nat)
    requires Truthy(Get(Get(item, "player"), "id")) && Truthy(Get(Get(item, "player"), "name"))
    requires Get(item, "statistics").Arr? && k < |Get(item, "statistics").items|
    requires !Truthy(Get(Get(item, "statistics").items[k], "league"))
    ensures NormalizeTeamPlayer(item).Err?
  {
  }

  // ---------------------------------------------------------------------------
  // Upstream form

  /** A value whose `Number()` is `n` and which is truthy, so that the
    * rating rule parses it: every number is a possible rating. */
  function NumberToRaw(n: JsNumbers.JsNumber): (x: Json) {
    match n
    case NaN => Obj([])
    case PosInf => Str("Infinity")
    case NegInf => Str("-Infinity")
    case Finite(r) => if r == 0.0 then Arr([]) else Num(r)
  }

  lemma NumberToRawParses(n: JsNumbers.JsNumber)
    ensures Truthy(NumberToRaw(n)) && ToNumber(NumberToRaw(n)) == n
  {
    if n.Finite? && n.r == 0.0 {
      assert ToStr(Arr([])) == "";
    }
  }

  function OptionalNumberToRaw(n: Option<JsNumbers.JsNumber>): Json {
    if n.Some? then NumberToRaw(n.value) else Null
  }

  lemma OptionalNumberRoundTrip(n: Option<JsNumbers.JsNumber>)
    ensures NumberIfTruthy(OptionalNumberToRaw(n)) == n
  {
    if n.Some? {
      NumberToRawParses(n.value);
    }
  }

  /** The records `normalizePlayerSeasonStats` can return. */
  predicate IsSeasonStats(s: PlayerSeasonStats) {
    && IsTeamCore(s.team)
    && !IsNullish(s.appearances) && !IsNullish(s.minutes) && !IsNullish(s.position)
    && !IsNullish(s.goals) && !IsNullish(s.assists) && !IsNullish(s.passes)
    && !IsNullish(s.yellowCards) && !IsNullish(s.redCards)
  }

  function LeagueToRaw(s: PlayerSeasonStats): Json {
    Obj([Field("id", s.leagueId), Field("name", s.leagueName), Field("season", s.season)])
  }

  function GamesToRaw(s: PlayerSeasonStats): Json {
    Obj([Field("appearences", s.appearances), Field("minutes", s.minutes), Field("position", s.position),
         Field("rating", OptionalNumberToRaw(s.rating))])
  }

  function GoalsToRaw(s: PlayerSeasonStats): Json {
    Obj([Field("total", s.goals), Field("assists", s.assists)])
  }

  function PassesToRaw(s: PlayerSeasonStats): Json {
    Obj([Field("total", s.passes), Field("accuracy", OptionalNumberToRaw(s.passAccuracy))])
  }

  function CardsToRaw(s: PlayerSeasonStats): Json {
    Obj([Field("yellow", s.yellowCards), Field("red", s.redCards)])
  }

  /** A statistics entry as the upstream API sends it. */
  function SeasonStatsToRaw(s: PlayerSeasonStats): Json {
    Obj([Field("team", TeamCoreToRaw(s.team)), Field("league", LeagueToRaw(s)), Field("games", GamesToRaw(s)),
         Field("goals", GoalsToRaw(s)), Field("passes", PassesToRaw(s)), Field("cards", CardsToRaw(s))])
  }

  lemma SeasonStatsToRawReads(s: PlayerSeasonStats)
    ensures var raw := SeasonStatsToRaw(s);
      && Get(raw, "team") == TeamCoreToRaw(s.team) && Get(raw, "league") == LeagueToRaw(s)
      && Get(raw, "games") == GamesToRaw(s)
  {
    var fs := SeasonStatsToRaw(s).fields;
    LookupFirst(fs, 0);
    LookupFirst(fs, 1);
    LookupFirst(fs, 2);
  }

  lemma SeasonStatsToRawCounterReads(s: PlayerSeasonStats)
    ensures var raw := SeasonStatsToRaw(s);
      && Get(raw, "goals") == GoalsToRaw(s)
      && Get(raw, "passes") == PassesToRaw(s) && Get(raw, "cards") == CardsToRaw(s)
  {
    var fs := SeasonStatsToRaw(s).fields;
    LookupFirst(fs, 3);
    LookupFirst(fs, 4);
    LookupFirst(fs, 5);
  }

  lemma SectionReads(s: PlayerSeasonStats)
    ensures Get(LeagueToRaw(s), "id") == s.leagueId && Get(LeagueToRaw(s), "name") == s.leagueName
    ensures Get(LeagueToRaw(s), "season") == s.season
    ensures Get(GamesToRaw(s), "appearences") == s.appearances && Get(GamesToRaw(s), "minutes") == s.minutes
    ensures Get(GamesToRaw(s), "position") == s.position && Get(GamesToRaw(s), "rating") == OptionalNumberToRaw(s.rating)
  {
    var league := LeagueToRaw(s).fields;
    LookupFirst(league, 0);
    LookupFirst(league, 1);
    LookupFirst(league, 2);
    var games := GamesToRaw(s).fields;
    LookupFirst(games, 0);
    LookupFirst(games, 1);
    LookupFirst(games, 2);
    LookupFirst(games, 3);
  }

  lemma CounterReads(s: PlayerSeasonStats)
    ensures Get(GoalsToRaw(s), "total") == s.goals && Get(GoalsToRaw(s), "assists") == s.assists
    ensures Get(PassesToRaw(s), "total") == s.passes
    ensures Get(PassesToRaw(s), "accuracy") == OptionalNumberToRaw(s.passAccuracy)
    ensures Get(CardsToRaw(s), "yellow") == s.yellowCards && Get(CardsToRaw(s), "red") == s.redCards
  {
    LookupFirst(GoalsToRaw(s).fields, 1);
    LookupFirst(PassesToRaw(s).fields, 1);
    LookupFirst(CardsToRaw(s).fields, 1);
  }

  /** Every record `normalizePlayerSeasonStats` returns is well formed. */
  lemma NormalizedSeasonStatsAreWellFormed(stats: Json)
    ensures NormalizePlayerSeasonStats(stats).Ok? ==> IsSeasonStats(NormalizePlayerSeasonStats(stats).value)
  {
    if NormalizePlayerSeasonStats(stats).Ok? {
      TeamCoreRoundTrip(TeamCore(Undefined, Undefined, Undefined, Undefined), Get(stats, "team"));
    }
  }

  /** Every well-formed record, any rating included, is reproduced from its
    * upstream form. */
  lemma SeasonStatsRoundTrip(s: PlayerSeasonStats)
    requires IsSeasonStats(s)
    ensures NormalizePlayerSeasonStats(SeasonStatsToRaw(s)) == Ok(s)
  {
    SeasonStatsToRawReads(s);
    SeasonStatsToRawCounterReads(s);
    SectionReads(s);
    CounterReads(s);
    TeamCoreRoundTrip(s.team, Undefined);
    OptionalNumberRoundTrip(s.rating);
    OptionalNumberRoundTrip(s.passAccuracy);
  }

  /** Appearances are read from the upstream spelling `appearences`; a record
    * spelling it `appearances` counts 0. */
  lemma AppearancesSpelling(team: Json, league: Json)
    requires NormalizePlayerSeasonStats(Obj([Field("team", team), Field("league", league)])).Ok?
    ensures var games := Obj([Field("appearances", Num(10.0))]);
      var r := NormalizePlayerSeasonStats(Obj([Field("team", team), Field("league", league), Field("games", games)]));
      r.Ok? && r.value.appearances == Num(0.0)
  {
    var fs := [Field("team", team), Field("league", league), Field("games", Obj([Field("appearances", Num(10.0))]))];
    LookupFirst(fs, 0);
    LookupFirst(fs, 1);
    LookupFirst(fs, 2);
    LookupFirst([Field("team", team), Field("league", league)], 1);
  }
}
