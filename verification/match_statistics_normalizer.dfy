/**
 * The per-team statistics of a fixture: the upstream list of
 * `{type, value}` entries is folded into one object keyed by the entry's
 * `type` exactly as sent (no renaming), a later entry of the same type
 * overwriting an earlier one, a missing value becoming `null`.
 */
module MatchStatisticsNormalizer {
  import opened Errors
  import opened Json

  datatype MatchTeamStatistics = MatchTeamStatistics(teamId: Json, teamName: Json, logo: Json, stats: seq<Field>)

  const InvalidMatchStatistics: Error := Plain("Invalid match statistics response")

  /** `stats[item.type]`: the property key is `String(item.type)`. */
  function StatKey(item: Json): string {
    ToStr(Get(item, "type"))
  }

  /** `item.value ?? null`. */
  function StatValue(item: Json): Json {
    Coalesce(Get(item, "value"), Null)
  }

  /** Some entry has type `k`. */
  predicate KeyOccurs(items: seq<Json>, k: string) {
    exists i :: 0 <= i < |items| && StatKey(items[i]) == k
  }

  /** The value of the last entry of type `k`, `undefined` when none has it. */
  function LastValue(items: seq<Json>, k: string): Json {
    if items == [] then Undefined
    else if StatKey(items[|items| - 1]) == k then StatValue(items[|items| - 1])
    else LastValue(items[..|items| - 1], k)
  }

  lemma {:induction false} LastValueAbsent(items: seq<Json>, k: string)
    requires !KeyOccurs(items, k)
    ensures LastValue(items, k) == Undefined
    decreases |items|
  {
    if items != [] {
      var p := items[..|items| - 1];
      assert forall i :: 0 <= i < |p| ==> p[i] == items[i];
      LastValueAbsent(p, k);
    }
  }

  /** The `for ... of` loop over the entries. Reading `item.type` of a
    * `null` or `undefined` entry throws a `TypeError`. */
  function Collect(items: seq<Json>): (r: Result<seq<Field>>)
    ensures r.Ok? <==> forall i :: 0 <= i < |items| ==> !IsNullish(items[i])
    ensures r.Err? ==> r.error == TypeError
    decreases |items|
  {
    if items == [] then Ok([])
    else
      var p := items[..|items| - 1];
      var last := items[|items| - 1];
      assert forall i :: 0 <= i < |p| ==> p[i] == items[i];
      var prev :- Collect(p);
      if IsNullish(last) then Err(TypeError)
      else Ok(Assign(prev, StatKey(last), StatValue(last)))
  }

  lemma KeyOccursSnoc(items: seq<Json>, k: string)
    requires items != []
    ensures KeyOccurs(items, k) <==> KeyOccurs(items[..|items| - 1], k) || StatKey(items[|items| - 1]) == k
  {
    var p := items[..|items| - 1];
    if KeyOccurs(items, k) {
      var i :| 0 <= i < |items| && StatKey(items[i]) == k;
      if i < |p| { assert StatKey(p[i]) == k; }
    }
    if KeyOccurs(p, k) {
      var i :| 0 <= i < |p| && StatKey(p[i]) == k;
      assert StatKey(items[i]) == k;
    }
  }

  /** The collected object has one property per type that occurs, holding
    * the value of the last entry of that type. */
  lemma {:induction false} CollectSpec(items: seq<Json>)
    requires Collect(items).Ok?
    ensures DistinctKeys(Collect(items).value)
    ensures forall k :: HasKey(Collect(items).value, k) <==> KeyOccurs(items, k)
    ensures forall k :: Lookup(Collect(items).value, k) == LastValue(items, k)
    decreases |items|
  {
    if items != [] {
      var p := items[..|items| - 1];
      var last := items[|items| - 1];
      assert forall i :: 0 <= i < |p| ==> p[i] == items[i];
      CollectSpec(p);
      var prev := Collect(p).value;
      AssignProperties(prev, StatKey(last), StatValue(last));
      forall k ensures HasKey(Collect(items).value, k) <==> KeyOccurs(items, k) {
        KeyOccursSnoc(items, k);
      }
    }
  }

  /** `normalizeMatchStatistics(raw)`. */
  function NormalizeMatchStatistics(raw: Json): (r: Result<MatchTeamStatistics>)
    ensures !Truthy(Get(raw, "team")) || !Get(raw, "statistics").Arr? <==> r == Err(InvalidMatchStatistics)
    ensures Truthy(Get(raw, "team")) && Get(raw, "statistics").Arr? ==>
      (r == Err(TypeError) <==> exists i :: 0 <= i < |Get(raw, "statistics").items| && IsNullish(Get(raw, "statistics").items[i]))
    ensures r.Ok? ==> var team := Get(raw, "team");
      r.value.teamId == Get(team, "id") && r.value.teamName == Get(team, "name") && r.value.logo == Get(team, "logo")
    ensures r.Ok? ==> DistinctKeys(r.value.stats)
    ensures r.Ok? ==> forall k :: HasKey(r.value.stats, k) <==> KeyOccurs(Get(raw, "statistics").items, k)
    ensures r.Ok? ==> forall k :: Lookup(r.value.stats, k) == LastValue(Get(raw, "statistics").items, k)
  {
    if !Truthy(Get(raw, "team")) || !Get(raw, "statistics").Arr? then Err(InvalidMatchStatistics)
    else
      var stats :- Collect(Get(raw, "statistics").items);
      CollectSpec(Get(raw, "statistics").items);
      var team := Get(raw, "team");
      Ok(MatchTeamStatistics(Get(team, "id"), Get(team, "name"), Get(team, "logo"), stats))
  }

  /** A later entry of the same type wins, whatever came before it. */
  lemma LaterEntryWins(items: seq<Json>, item: Json)
    requires Collect(items + [item]).Ok?
    ensures Lookup(Collect(items + [item]).value, StatKey(item)) == StatValue(item)
  {
    var s := items + [item];
    assert s[|items|] == item;
    CollectSpec(s);
  }

  /** Entries of other types do not disturb a type's value. */
  lemma OtherEntriesKeepValue(items: seq<Json>, item: Json, k: string)
    requires Collect(items + [item]).Ok? && StatKey(item) != k
    ensures Collect(items).Ok?
    ensures Lookup(Collect(items + [item]).value, k) == Lookup(Collect(items).value, k)
  {
    var s := items + [item];
    assert s[..|s| - 1] == items;
    assert s[|s| - 1] == item;
    assert forall i :: 0 <= i < |items| ==> items[i] == s[i];
    CollectSpec(s);
    CollectSpec(items);
  }

  /** Types are kept as sent: an upstream `"Shots on Goal"` entry is stored
    * under that key, and no camel-cased `shotsOnGoal` key appears. */
  lemma TypesAreNotRenamed(team: Json)
    requires Truthy(team)
    ensures var item := Obj([Field("type", Str("Shots on Goal")), Field("value", Num(5.0))]);
      var raw := Obj([Field("team", team), Field("statistics", Arr([item]))]);
      var r := NormalizeMatchStatistics(raw);
      && r.Ok?
      && Lookup(r.value.stats, "Shots on Goal") == Num(5.0)
      && !HasKey(r.value.stats, "shotsOnGoal")
  {
    var item := Obj([Field("type", Str("Shots on Goal")), Field("value", Num(5.0))]);
    var fs := [Field("team", team), Field("statistics", Arr([item]))];
    LookupFirst(fs, 0);
    LookupFirst(fs, 1);
    LookupFirst(item.fields, 0);
    LookupFirst(item.fields, 1);
    assert StatKey(item) == "Shots on Goal";
    assert StatValue(item) == Num(5.0);
    assert [item][..0] == [];
    assert !KeyOccurs([item], "shotsOnGoal");
  }

  /** An entry without a value is stored as `null`, not left out. */
  lemma MissingValueIsNull(item: Json)
    requires item.Obj? && IsNullish(Get(item, "value"))
    ensures Collect([item]).Ok?
    ensures HasKey(Collect([item]).value, StatKey(item))
    ensures Lookup(Collect([item]).value, StatKey(item)) == Null
  {
    CollectSpec([item]);
    assert KeyOccurs([item], StatKey(item)) by { assert StatKey([item][0]) == StatKey(item); }
  }

  /** The object is refused without a truthy team or a statistics array. */
  lemma EmptyObjectIsInvalid()
    ensures NormalizeMatchStatistics(Obj([])) == Err(InvalidMatchStatistics)
  {
  }
}
