/**
 * Loosely typed JavaScript values as they arrive from the upstream provider
 * and the HTTP query string, with the handful of language operations the
 * backend applies to them: optional-chained property reads (`a?.b`),
 * ECMAScript ToBoolean (section 7.1.2 of ECMA-262), nullish coalescing
 * (`a ?? b`), `Number(x)`, `String(x)` and property assignment.
 *
 * An object is the sequence of its own properties in enumeration order.
 */
module Json {
  import opened JsNumbers

  datatype Json =
    | Undefined
    | Null
    | Bool(b: bool)
    | Num(n: real)
    | Str(s: string)
    | Arr(items: seq<Json>)
    | Obj(fields: seq<Field>)

  datatype Field = Field(key: string, value: Json)

  // ---------------------------------------------------------------------------
  // Properties

  /** Keys of an object's properties, in order. */
  function KeysOf(fields: seq<Field>): (ks: seq<string>)
    ensures |ks| == |fields|
    ensures forall i :: 0 <= i < |fields| ==> ks[i] == fields[i].key
  {
    if fields == [] then [] else [fields[0].key] + KeysOf(fields[1..])
  }

  /** No key occurs twice: a well-formed object. */
  predicate DistinctKeys(fields: seq<Field>) {
    forall i, j :: 0 <= i < j < |fields| ==> fields[i].key != fields[j].key
  }

  predicate HasKey(fields: seq<Field>, k: string) {
    exists i :: 0 <= i < |fields| && fields[i].key == k
  }

  /** The value of property `k`, `undefined` when there is none. */
  function Lookup(fields: seq<Field>, k: string): Json {
    if fields == [] then Undefined
    else if fields[0].key == k then fields[0].value
    else Lookup(fields[1..], k)
  }

  /** A missing property reads as `undefined`. */
  lemma {:induction false} LookupAbsent(fields: seq<Field>, k: string)
    requires !HasKey(fields, k)
    ensures Lookup(fields, k) == Undefined
    decreases |fields|
  {
    if fields != [] {
      assert fields[0].key != k;
      assert forall i :: 0 <= i < |fields[1..]| ==> fields[1..][i] == fields[i + 1];
      LookupAbsent(fields[1..], k);
    }
  }

  /** In a well-formed object every property is the one read under its key. */
  lemma LookupDistinct(fields: seq<Field>, i: int)
    requires DistinctKeys(fields) && 0 <= i < |fields|
    ensures Lookup(fields, fields[i].key) == fields[i].value
  {
    LookupFirst(fields, i);
  }

  /** Lookup walks the properties front to back. */
  lemma LookupCons(f: Field, rest: seq<Field>, k: string)
    ensures Lookup([f] + rest, k) == if f.key == k then f.value else Lookup(rest, k)
  {
    assert ([f] + rest)[1..] == rest;
  }

  /** The first property with a key is the one read. */
  lemma {:induction false} LookupFirst(fields: seq<Field>, i: int)
    requires 0 <= i < |fields|
    requires forall j :: 0 <= j < i ==> fields[j].key != fields[i].key
    ensures Lookup(fields, fields[i].key) == fields[i].value
    decreases i
  {
    if i > 0 {
      LookupCons(fields[0], fields[1..], fields[i].key);
      assert fields == [fields[0]] + fields[1..];
      LookupFirst(fields[1..], i - 1);
    }
  }

  /** `j?.k`: a property read that yields `undefined` on anything that is not
    * an object (including `undefined` and `null` themselves). */
  function Get(j: Json, k: string): Json {
    if j.Obj? then Lookup(j.fields, k) else Undefined
  }

  /** Whether `j.k` (without `?.`) throws: reading a property of `undefined`
    * or `null` is a TypeError. */
  predicate IsNullish(j: Json) {
    j.Undefined? || j.Null?
  }

  /** ECMAScript ToBoolean. */
  predicate Truthy(j: Json) {
    match j
    case Undefined => false
    case Null => false
    case Bool(b) => b
    case Num(n) => n != 0.0
    case Str(s) => s != ""
    case Arr(_) => true
    case Obj(_) => true
  }

  /** `a ?? b`: only `null` and `undefined` are replaced. */
  function Coalesce(a: Json, b: Json): Json {
    if IsNullish(a) then b else a
  }

  // ---------------------------------------------------------------------------
  // Conversions

  /** `String(x)` (also what a template literal inserts). Array elements that
    * are `null` or `undefined` are rendered as empty strings. */
  function ToStr(j: Json): string
    decreases j, 1
  {
    match j
    case Undefined => "undefined"
    case Null => "null"
    case Bool(b) => if b then "true" else "false"
    case Num(n) => NumberToString(n)
    case Str(s) => s
    case Arr(items) => JoinItems(j, items)
    case Obj(_) => "[object Object]"
  }

  function JoinItems(ghost parent: Json, items: seq<Json>): string
    requires forall i :: 0 <= i < |items| ==> items[i] < parent
    decreases parent, 0, |items|
  {
    if items == [] then ""
    else
      var last := items[|items| - 1];
      var piece := if IsNullish(last) then "" else ToStr(last);
      if |items| == 1 then piece else JoinItems(parent, items[..|items| - 1]) + "," + piece
  }

  /** `Number(x)`. */
  function ToNumber(j: Json): JsNumber {
    match j
    case Undefined => NaN
    case Null => Finite(0.0)
    case Bool(b) => Finite(if b then 1.0 else 0.0)
    case Num(n) => Finite(n)
    case Str(s) => ParseNumber(s)
    case Arr(_) => ParseNumber(ToStr(j))
    case Obj(_) => NaN
  }

  // ---------------------------------------------------------------------------
  // Building objects

  /** `obj[k] = v`: an existing property keeps its position and takes the new
    * value; a new property is appended. */
  function Assign(fields: seq<Field>, k: string, v: Json): (r: seq<Field>)
    ensures HasKey(fields, k) ==> |r| == |fields|
    ensures !HasKey(fields, k) ==> r == fields + [Field(k, v)]
    ensures forall i :: 0 <= i < |fields| ==> r[i].key == fields[i].key
    ensures forall i :: 0 <= i < |fields| && fields[i].key != k ==> r[i] == fields[i]
    ensures DistinctKeys(fields) ==> forall i :: 0 <= i < |fields| && fields[i].key == k ==> r[i].value == v
  {
    if fields == [] then [Field(k, v)]
    else if fields[0].key == k then [Field(k, v)] + fields[1..]
    else
      var rest := Assign(fields[1..], k, v);
      assert HasKey(fields, k) <==> HasKey(fields[1..], k) by {
        if HasKey(fields, k) {
          var i :| 0 <= i < |fields| && fields[i].key == k;
          assert fields[1..][i - 1] == fields[i];
        }
      }
      [fields[0]] + rest
  }

  /** The keys after an assignment are the old ones plus `k`. */
  lemma AssignKeys(fields: seq<Field>, k: string, v: Json, k': string)
    ensures HasKey(Assign(fields, k, v), k') <==> k' == k || HasKey(fields, k')
  {
    var r := Assign(fields, k, v);
    if HasKey(fields, k') {
      var j :| 0 <= j < |fields| && fields[j].key == k';
      assert r[j].key == k';
    }
    if HasKey(fields, k) {
      var i :| 0 <= i < |fields| && fields[i].key == k;
      assert r[i].key == k;
    } else {
      assert r[|fields|].key == k;
    }
    if HasKey(r, k') {
      var j :| 0 <= j < |r| && r[j].key == k';
      if j < |fields| {
        assert fields[j].key == k';
      }
    }
  }

  lemma AssignDistinct(fields: seq<Field>, k: string, v: Json)
    requires DistinctKeys(fields)
    ensures DistinctKeys(Assign(fields, k, v))
  {
    var r := Assign(fields, k, v);
    if !HasKey(fields, k) {
      forall i, j | 0 <= i < j < |r| ensures r[i].key != r[j].key {
        if j == |fields| {
          assert r[j].key == k && r[i].key == fields[i].key;
        }
      }
    }
  }

  /** Reading a key after an assignment. */
  lemma AssignLookupAt(fields: seq<Field>, k: string, v: Json, k': string)
    requires DistinctKeys(fields)
    ensures Lookup(Assign(fields, k, v), k') == if k' == k then v else Lookup(fields, k')
  {
    var r := Assign(fields, k, v);
    AssignDistinct(fields, k, v);
    AssignKeys(fields, k, v, k');
    if HasKey(r, k') {
      var j :| 0 <= j < |r| && r[j].key == k';
      LookupDistinct(r, j);
      if j < |fields| {
        assert fields[j].key == k';
        LookupDistinct(fields, j);
      } else {
        assert r[j] == Field(k, v);
      }
    } else {
      LookupAbsent(r, k');
      LookupAbsent(fields, k');
    }
  }

  lemma AssignProperties(fields: seq<Field>, k: string, v: Json)
    requires DistinctKeys(fields)
    ensures DistinctKeys(Assign(fields, k, v))
    ensures Lookup(Assign(fields, k, v), k) == v
    ensures forall k' :: k' != k ==> Lookup(Assign(fields, k, v), k') == Lookup(fields, k')
    ensures forall k' :: HasKey(Assign(fields, k, v), k') <==> k' == k || HasKey(fields, k')
  {
    AssignDistinct(fields, k, v);
    AssignLookupAt(fields, k, v, k);
    forall k'
      ensures k' != k ==> Lookup(Assign(fields, k, v), k') == Lookup(fields, k')
      ensures HasKey(Assign(fields, k, v), k') <==> k' == k || HasKey(fields, k')
    {
      AssignLookupAt(fields, k, v, k');
      AssignKeys(fields, k, v, k');
    }
  }

  /** `{...base, ...extra}`: the properties of `extra` assigned, in order, onto
    * a copy of `base`. */
  function Spread(base: seq<Field>, extra: seq<Field>): seq<Field>
    decreases |extra|
  {
    if extra == [] then base
    else Spread(Assign(base, extra[0].key, extra[0].value), extra[1..])
  }

  lemma HasKeyCons(fields: seq<Field>, k: string)
    requires fields != []
    ensures HasKey(fields, k) <==> fields[0].key == k || HasKey(fields[1..], k)
  {
    if HasKey(fields, k) {
      var i :| 0 <= i < |fields| && fields[i].key == k;
      if i > 0 {
        assert fields[1..][i - 1].key == k;
      }
    }
    if HasKey(fields[1..], k) {
      var i :| 0 <= i < |fields[1..]| && fields[1..][i].key == k;
      assert fields[i + 1].key == k;
    }
  }

  lemma {:induction false} SpreadDistinct(base: seq<Field>, extra: seq<Field>)
    requires DistinctKeys(base)
    ensures DistinctKeys(Spread(base, extra))
    decreases |extra|
  {
    if extra != [] {
      AssignProperties(base, extra[0].key, extra[0].value);
      SpreadDistinct(Assign(base, extra[0].key, extra[0].value), extra[1..]);
    }
  }

  lemma {:induction false} SpreadLookupAt(base: seq<Field>, extra: seq<Field>, k: string)
    requires DistinctKeys(base) && DistinctKeys(extra)
    ensures HasKey(extra, k) ==> Lookup(Spread(base, extra), k) == Lookup(extra, k)
    ensures !HasKey(extra, k) ==> Lookup(Spread(base, extra), k) == Lookup(base, k)
    ensures HasKey(Spread(base, extra), k) <==> HasKey(base, k) || HasKey(extra, k)
    decreases |extra|
  {
    if extra != [] {
      var k0, v0 := extra[0].key, extra[0].value;
      var mid := Assign(base, k0, v0);
      AssignProperties(base, k0, v0);
      var tail := extra[1..];
      assert DistinctKeys(tail) by {
        forall i, j | 0 <= i < j < |tail| ensures tail[i].key != tail[j].key {
          assert tail[i] == extra[i + 1] && tail[j] == extra[j + 1];
        }
      }
      assert Spread(base, extra) == Spread(mid, tail);
      SpreadLookupAt(mid, tail, k);
      HasKeyCons(extra, k);
      if k == k0 {
        assert !HasKey(tail, k0);
      } else {
        assert Lookup(extra, k) == Lookup(tail, k);
      }
    }
  }

  /** After a spread, a key of `extra` reads as in `extra` and every other key
    * reads as in `base`; the keys are the union of both. */
  lemma SpreadLookup(base: seq<Field>, extra: seq<Field>)
    requires DistinctKeys(base) && DistinctKeys(extra)
    ensures DistinctKeys(Spread(base, extra))
    ensures forall k :: HasKey(extra, k) ==> Lookup(Spread(base, extra), k) == Lookup(extra, k)
    ensures forall k :: !HasKey(extra, k) ==> Lookup(Spread(base, extra), k) == Lookup(base, k)
    ensures forall k :: HasKey(Spread(base, extra), k) <==> HasKey(base, k) || HasKey(extra, k)
  {
    SpreadDistinct(base, extra);
    forall k
      ensures HasKey(extra, k) ==> Lookup(Spread(base, extra), k) == Lookup(extra, k)
      ensures !HasKey(extra, k) ==> Lookup(Spread(base, extra), k) == Lookup(base, k)
      ensures HasKey(Spread(base, extra), k) <==> HasKey(base, k) || HasKey(extra, k)
    {
      SpreadLookupAt(base, extra, k);
    }
  }
}
