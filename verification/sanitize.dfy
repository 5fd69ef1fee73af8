/**
 * The recursive clean-up applied before a value is stored in the document
 * store, which refuses empty property names: every `""` key is dropped at
 * every depth; everything else is kept in order.
 */
module Sanitize {
  import opened Json

  /** No object at any depth has an empty key. */
  predicate NoEmptyKeys(j: Json) {
    match j
    case Arr(items) => forall i :: 0 <= i < |items| ==> NoEmptyKeys(items[i])
    case Obj(fields) => forall i :: 0 <= i < |fields| ==> fields[i].key != "" && NoEmptyKeys(fields[i].value)
    case _ => true
  }

  /** `sanitizeForFirestore(input)`. */
  function Sanitize(j: Json): (r: Json)
    ensures j.Arr? <==> r.Arr?
    ensures j.Obj? <==> r.Obj?
    ensures j.Arr? ==> |r.items| == |j.items|
    ensures j.Arr? ==> forall i :: 0 <= i < |j.items| ==> r.items[i] == Sanitize(j.items[i])
    ensures !j.Arr? && !j.Obj? ==> r == j
    decreases j, 1
  {
    match j
    case Arr(items) => Arr(SanitizeItems(j, items))
    case Obj(fields) => Obj(SanitizeFields(j, fields))
    case _ => j
  }

  function SanitizeItems(ghost parent: Json, items: seq<Json>): (r: seq<Json>)
    requires forall i :: 0 <= i < |items| ==> items[i] < parent
    ensures |r| == |items|
    ensures forall i :: 0 <= i < |items| ==> r[i] == Sanitize(items[i])
    decreases parent, 0, |items|
  {
    if items == [] then []
    else [Sanitize(items[0])] + SanitizeItems(parent, items[1..])
  }

  /** The non-empty properties in order, each value sanitized. */
  function SanitizeFields(ghost parent: Json, fields: seq<Field>): (r: seq<Field>)
    requires forall i :: 0 <= i < |fields| ==> fields[i].value < parent
    ensures |r| <= |fields|
    decreases parent, 0, |fields|
  {
    if fields == [] then []
    else if fields[0].key == "" then SanitizeFields(parent, fields[1..])
    else [Field(fields[0].key, Sanitize(fields[0].value))] + SanitizeFields(parent, fields[1..])
  }

  /** The keys an object keeps: its non-empty ones, in order. */
  function NonEmptyKeys(ks: seq<string>): seq<string> {
    if ks == [] then []
    else if ks[0] == "" then NonEmptyKeys(ks[1..])
    else [ks[0]] + NonEmptyKeys(ks[1..])
  }

  /** Sanitized object properties are exactly the non-empty keys, in order,
    * each with its own value sanitized. */
  lemma {:induction false} FieldsKept(parent: Json, fields: seq<Field>)
    requires forall i :: 0 <= i < |fields| ==> fields[i].value < parent
    ensures KeysOf(SanitizeFields(parent, fields)) == NonEmptyKeys(KeysOf(fields))
    ensures forall k :: k != "" ==> Lookup(SanitizeFields(parent, fields), k) == Sanitize(Lookup(fields, k))
    ensures !HasKey(SanitizeFields(parent, fields), "")
    decreases |fields|
  {
    if fields != [] {
      var rest := SanitizeFields(parent, fields[1..]);
      FieldsKept(parent, fields[1..]);
      assert KeysOf(fields)[1..] == KeysOf(fields[1..]);
      forall k | k != ""
        ensures Lookup(SanitizeFields(parent, fields), k) == Sanitize(Lookup(fields, k))
      {
        LookupCons(fields[0], fields[1..], k);
        assert fields == [fields[0]] + fields[1..];
        if fields[0].key != "" {
          LookupCons(Field(fields[0].key, Sanitize(fields[0].value)), rest, k);
        }
      }
      if fields[0].key != "" {
        var r := [Field(fields[0].key, Sanitize(fields[0].value))] + rest;
        assert r[1..] == rest;
        assert KeysOf(r)[1..] == KeysOf(rest);
        HasKeyCons(r, "");
      }
    }
  }

  /** The result has no empty key at any depth. */
  lemma {:induction false} SanitizeRemovesEmptyKeys(j: Json)
    ensures NoEmptyKeys(Sanitize(j))
    decreases j
  {
    match j
    case Arr(items) =>
      forall i | 0 <= i < |items|
        ensures NoEmptyKeys(Sanitize(j).items[i])
      {
        SanitizeRemovesEmptyKeys(items[i]);
      }
    case Obj(fields) =>
      assert Sanitize(j) == Obj(SanitizeFields(j, fields));
      FieldsNoEmptyKeys(j, fields);
    case _ =>
  }

  lemma {:induction false} FieldsNoEmptyKeys(parent: Json, fields: seq<Field>)
    requires forall i :: 0 <= i < |fields| ==> fields[i].value < parent
    ensures forall i :: 0 <= i < |SanitizeFields(parent, fields)| ==>
      SanitizeFields(parent, fields)[i].key != "" && NoEmptyKeys(SanitizeFields(parent, fields)[i].value)
    decreases parent, |fields|
  {
    if fields != [] {
      var rest := SanitizeFields(parent, fields[1..]);
      FieldsNoEmptyKeys(parent, fields[1..]);
      if fields[0].key != "" {
        SanitizeRemovesEmptyKeys(fields[0].value);
        var r := [Field(fields[0].key, Sanitize(fields[0].value))] + rest;
        assert forall i :: 1 <= i < |r| ==> r[i] == rest[i - 1];
      }
    }
  }

  /** A value without empty keys is returned as it is. */
  lemma {:induction false} SanitizeIsIdentityOnClean(j: Json)
    requires NoEmptyKeys(j)
    ensures Sanitize(j) == j
    decreases j
  {
    match j
    case Arr(items) =>
      forall i | 0 <= i < |items|
        ensures Sanitize(j).items[i] == items[i]
      {
        SanitizeIsIdentityOnClean(items[i]);
      }
    case Obj(fields) =>
      FieldsIdentityOnClean(j, fields);
    case _ =>
  }

  lemma {:induction false} FieldsIdentityOnClean(parent: Json, fields: seq<Field>)
    requires forall i :: 0 <= i < |fields| ==> fields[i].value < parent
    requires forall i :: 0 <= i < |fields| ==> fields[i].key != "" && NoEmptyKeys(fields[i].value)
    ensures SanitizeFields(parent, fields) == fields
    decreases parent, |fields|
  {
    if fields != [] {
      FieldsIdentityOnClean(parent, fields[1..]);
      SanitizeIsIdentityOnClean(fields[0].value);
      assert fields == [fields[0]] + fields[1..];
    }
  }

  /** Sanitizing twice is sanitizing once. */
  lemma SanitizeIsIdempotent(j: Json)
    ensures Sanitize(Sanitize(j)) == Sanitize(j)
  {
    SanitizeRemovesEmptyKeys(j);
    SanitizeIsIdentityOnClean(Sanitize(j));
  }

  /** Sanitizing leaves a value unchanged exactly when it has no empty keys. */
  lemma SanitizeFixesExactlyClean(j: Json)
    ensures Sanitize(j) == j <==> NoEmptyKeys(j)
  {
    SanitizeRemovesEmptyKeys(j);
    if NoEmptyKeys(j) {
      SanitizeIsIdentityOnClean(j);
    }
  }
}
