/**
 * Team records from the upstream football API: the core (`id`, `name`,
 * `logo`, `country`) and the full team with its foundation year, national
 * flag and venue. Required fields are checked by truthiness, optional ones
 * default through `??`.
 */
module TeamNormalizer {
  import opened Errors
  import opened Json

  datatype TeamCore = TeamCore(id: Json, name: Json, logo: Json, country: Json)

  datatype Venue = Venue(id: Json, name: Json, city: Json, capacity: Json, image: Json)

  datatype Team = Team(core: TeamCore, founded: Json, national: Json, venue: Option<Venue>)

  const InvalidTeamCore: Error := Plain("Invalid team core response")
  const InvalidTeam: Error := Plain("Invalid team response")

  /** `x ?? null`. */
  function OrNull(x: Json): (r: Json)
    ensures !r.Undefined?
    ensures IsNullish(x) <==> r == Null
    ensures !IsNullish(x) ==> r == x
  {
    Coalesce(x, Null)
  }

  /** `normalizeTeamCore(team)`. */
  function NormalizeTeamCore(team: Json): (r: Result<TeamCore>)
    ensures r.Ok? <==> Truthy(Get(team, "id")) && Truthy(Get(team, "name"))
    ensures r.Err? ==> r.error == InvalidTeamCore
    ensures r.Ok? ==> r.value.id == Get(team, "id") && r.value.name == Get(team, "name")
    ensures r.Ok? ==> r.value.logo == OrNull(Get(team, "logo")) && r.value.country == OrNull(Get(team, "country"))
  {
    if !Truthy(Get(team, "id")) || !Truthy(Get(team, "name")) then Err(InvalidTeamCore)
    else Ok(TeamCore(Get(team, "id"), Get(team, "name"), OrNull(Get(team, "logo")), OrNull(Get(team, "country"))))
  }

  /** The records `normalizeTeamCore` can return. */
  predicate IsTeamCore(c: TeamCore) {
    Truthy(c.id) && Truthy(c.name) && !c.logo.Undefined? && !c.country.Undefined?
  }

  /** A team core as the upstream API sends it. */
  function TeamCoreToRaw(c: TeamCore): Json {
    Obj([Field("id", c.id), Field("name", c.name), Field("logo", c.logo), Field("country", c.country)])
  }

  /** Exactly the well-formed cores come out, and each is reproduced from
    * its upstream form. */
  lemma TeamCoreRoundTrip(c: TeamCore, team: Json)
    ensures NormalizeTeamCore(team).Ok? ==> IsTeamCore(NormalizeTeamCore(team).value)
    ensures IsTeamCore(c) ==> NormalizeTeamCore(TeamCoreToRaw(c)) == Ok(c)
  {
    var raw := TeamCoreToRaw(c).fields;
    LookupFirst(raw, 0);
    LookupFirst(raw, 1);
    LookupFirst(raw, 2);
    LookupFirst(raw, 3);
  }

  /** Falsy ids and names are refused even when present; `""` logos and
    * countries are kept. */
  lemma TeamCoreFalsyFields(name: Json)
    ensures NormalizeTeamCore(Obj([Field("id", Num(0.0)), Field("name", name)])) == Err(InvalidTeamCore)
    ensures NormalizeTeamCore(Obj([Field("id", Num(1.0)), Field("name", Str(""))])) == Err(InvalidTeamCore)
    ensures NormalizeTeamCore(Obj([Field("id", Num(1.0)), Field("name", Str("A")), Field("logo", Str(""))]))
      == Ok(TeamCore(Num(1.0), Str("A"), Str(""), Null))
  {
  }

  function NormalizeVenue(v: Json): (r: Venue)
    ensures !r.id.Undefined? && !r.name.Undefined? && !r.city.Undefined? && !r.capacity.Undefined? && !r.image.Undefined?
  {
    Venue(OrNull(Get(v, "id")), OrNull(Get(v, "name")), OrNull(Get(v, "city")), OrNull(Get(v, "capacity")), OrNull(Get(v, "image")))
  }

  /** `normalizeTeam(item)`. */
  function NormalizeTeam(item: Json): (r: Result<Team>)
    ensures !Truthy(Get(item, "team")) ==> r == Err(InvalidTeam)
    ensures Truthy(Get(item, "team")) ==>
      (r.Ok? <==> NormalizeTeamCore(Get(item, "team")).Ok?)
    ensures Truthy(Get(item, "team")) && r.Err? ==> r.error == InvalidTeamCore
    ensures r.Ok? ==> r.value.core == NormalizeTeamCore(Get(item, "team")).value
    ensures r.Ok? ==> r.value.founded == OrNull(Get(Get(item, "team"), "founded"))
    ensures r.Ok? ==> r.value.national == Coalesce(Get(Get(item, "team"), "national"), Bool(false))
    ensures r.Ok? ==> (r.value.venue.None? <==> !Truthy(Get(item, "venue")))
    ensures r.Ok? && r.value.venue.Some? ==> r.value.venue.value == NormalizeVenue(Get(item, "venue"))
  {
    if !Truthy(Get(item, "team")) then Err(InvalidTeam)
    else
      var t := Get(item, "team");
      var core :- NormalizeTeamCore(t);
      var v := Get(item, "venue");
      Ok(Team(core, OrNull(Get(t, "founded")), Coalesce(Get(t, "national"), Bool(false)),
        if Truthy(v) then Some(NormalizeVenue(v)) else None))
  }

  /** The records `normalizeTeam` can return. */
  predicate IsTeam(t: Team) {
    && IsTeamCore(t.core)
    && !t.founded.Undefined?
    && !IsNullish(t.national)
    && (t.venue.Some? ==> var v := t.venue.value;
         !v.id.Undefined? && !v.name.Undefined? && !v.city.Undefined? && !v.capacity.Undefined? && !v.image.Undefined?)
  }

  function VenueToRaw(v: Venue): Json {
    Obj([Field("id", v.id), Field("name", v.name), Field("city", v.city), Field("capacity", v.capacity), Field("image", v.image)])
  }

  /** The `team` object of an upstream team item. */
  function TeamObjectToRaw(t: Team): Json {
    var c := t.core;
    Obj([Field("id", c.id), Field("name", c.name), Field("logo", c.logo), Field("country", c.country),
         Field("founded", t.founded), Field("national", t.national)])
  }

  /** A team item as the upstream API sends it; a missing venue is `null`. */
  function TeamToRaw(t: Team): Json {
    Obj([Field("team", TeamObjectToRaw(t)), Field("venue", if t.venue.Some? then VenueToRaw(t.venue.value) else Null)])
  }

  lemma VenueRoundTrip(v: Venue)
    requires !v.id.Undefined? && !v.name.Undefined? && !v.city.Undefined? && !v.capacity.Undefined? && !v.image.Undefined?
    ensures NormalizeVenue(VenueToRaw(v)) == v
  {
    var venue := VenueToRaw(v).fields;
    LookupFirst(venue, 0);
    LookupFirst(venue, 1);
    LookupFirst(venue, 2);
    LookupFirst(venue, 3);
    LookupFirst(venue, 4);
  }

  lemma TeamToRawReads(t: Team)
    ensures Get(TeamToRaw(t), "team") == TeamObjectToRaw(t)
    ensures Get(TeamToRaw(t), "venue") == if t.venue.Some? then VenueToRaw(t.venue.value) else Null
  {
    var outer := TeamToRaw(t).fields;
    LookupFirst(outer, 0);
    LookupFirst(outer, 1);
  }

  lemma TeamObjectReads(t: Team)
    ensures var o := TeamObjectToRaw(t);
      && Get(o, "id") == t.core.id && Get(o, "name") == t.core.name
      && Get(o, "logo") == t.core.logo && Get(o, "country") == t.core.country
      && Get(o, "founded") == t.founded && Get(o, "national") == t.national
  {
    var team := TeamObjectToRaw(t).fields;
    LookupFirst(team, 0);
    LookupFirst(team, 1);
    LookupFirst(team, 2);
    LookupFirst(team, 3);
    LookupFirst(team, 4);
    LookupFirst(team, 5);
  }

  /** Every team `normalizeTeam` returns is well formed. */
  lemma NormalizedTeamIsTeam(item: Json)
    ensures NormalizeTeam(item).Ok? ==> IsTeam(NormalizeTeam(item).value)
  {
  }

  /** Every well-formed team is reproduced from its upstream form. */
  lemma TeamRoundTrip(t: Team)
    requires IsTeam(t)
    ensures NormalizeTeam(TeamToRaw(t)) == Ok(t)
  {
    TeamToRawReads(t);
    TeamObjectReads(t);
    if t.venue.Some? {
      VenueRoundTrip(t.venue.value);
    }
  }

  /** `national: false` and `founded: 0` are kept; only missing values take
    * the defaults. */
  lemma TeamKeepsFalsyOptionals()
    ensures var team := Obj([Field("id", Num(1.0)), Field("name", Str("A")), Field("founded", Num(0.0)), Field("national", Bool(false))]);
      var r := NormalizeTeam(Obj([Field("team", team)]));
      r.Ok? && r.value.founded == Num(0.0) && r.value.national == Bool(false) && r.value.venue.None?
    ensures var r := NormalizeTeam(Obj([Field("team", Obj([Field("id", Num(1.0)), Field("name", Str("A"))]))]));
      r.Ok? && r.value.founded == Null && r.value.national == Bool(false)
    ensures NormalizeTeam(Obj([])) == Err(InvalidTeam)
  {
  }
}
