/**
 * Versioned cache keys: `["v" + version, resource, ...parts].join("_")`.
 * Bumping a resource's version changes the leading segment of all its keys,
 * which retires the old entries without a purge.
 */
module CacheKeys {
  import opened JsNumbers
  import opened CacheConfig

  /** A dynamic key part: a string or any number (ids, seasons, page numbers). */
  datatype KeyPart = Text(s: string) | Number(n: JsNumber)

  /** How `join` renders a part: a number through `String()`. */
  function PartString(p: KeyPart): string {
    match p
    case Text(s) => s
    case Number(n) => JsNumberToString(n)
  }

  function Render(parts: seq<KeyPart>): (pieces: seq<string>)
    ensures |pieces| == |parts|
    ensures forall i :: 0 <= i < |parts| ==> pieces[i] == PartString(parts[i])
  {
    if parts == [] then [] else [PartString(parts[0])] + Render(parts[1..])
  }

  /** Each piece preceded by the separator. */
  function SepSuffix(pieces: seq<string>): string {
    if pieces == [] then "" else "_" + pieces[0] + SepSuffix(pieces[1..])
  }

  /** `Array.prototype.join("_")`. */
  function Join(pieces: seq<string>): string {
    if pieces == [] then "" else pieces[0] + SepSuffix(pieces[1..])
  }

  /** The leading segment `v{version}`. */
  function VersionTag(version: int): string {
    "v" + IntToString(version)
  }

  /** The key a version table with `version` for `resource` would produce. */
  function KeyWithVersion(version: int, resource: Resource, parts: seq<KeyPart>): string {
    Join([VersionTag(version), Name(resource)] + Render(parts))
  }

  /** The key under the current version table. */
  function BuildCacheKey(resource: Resource, parts: seq<KeyPart>): (key: string)
    ensures var prefix := "v" + IntToString(Version(resource)) + "_" + Name(resource);
      && (parts == [] ==> key == prefix)
      && (parts != [] ==> key == BuildCacheKey(resource, parts[..|parts| - 1]) + "_" + PartString(parts[|parts| - 1]))
  {
    if parts != [] then
      KeyAppend(VersionTag(Version(resource)), Name(resource), parts);
      Join([VersionTag(Version(resource)), Name(resource)] + Render(parts))
    else
      JoinHead(VersionTag(Version(resource)), Name(resource), []);
      Join([VersionTag(Version(resource)), Name(resource)] + Render(parts))
  }

  lemma KeyAppend(tag: string, name: string, parts: seq<KeyPart>)
    requires parts != []
    ensures Join([tag, name] + Render(parts))
      == Join([tag, name] + Render(parts[..|parts| - 1])) + "_" + PartString(parts[|parts| - 1])
  {
    var front := parts[..|parts| - 1];
    var p := parts[|parts| - 1];
    assert parts == front + [p];
    RenderAppend(front, p);
    JoinAppend(tag, name, Render(front), PartString(p));
  }

  lemma JoinAppend(tag: string, name: string, front: seq<string>, last: string)
    ensures Join([tag, name] + (front + [last])) == Join([tag, name] + front) + "_" + last
  {
    JoinHead(tag, name, front + [last]);
    JoinHead(tag, name, front);
    SepSuffixAppend(front, last);
  }

  lemma JoinHead(tag: string, name: string, pieces: seq<string>)
    ensures Join([tag, name] + pieces) == tag + "_" + name + SepSuffix(pieces)
  {
    var all := [tag, name] + pieces;
    assert all[1..] == [name] + pieces;
    assert all[1..][1..] == pieces;
  }

  lemma {:induction false} RenderAppend(parts: seq<KeyPart>, p: KeyPart)
    ensures Render(parts + [p]) == Render(parts) + [PartString(p)]
  {
    assert |Render(parts + [p])| == |Render(parts) + [PartString(p)]|;
  }

  lemma {:induction false} SepSuffixAppend(pieces: seq<string>, x: string)
    ensures SepSuffix(pieces + [x]) == SepSuffix(pieces) + "_" + x
  {
    if pieces != [] {
      assert (pieces + [x])[1..] == pieces[1..] + [x];
      SepSuffixAppend(pieces[1..], x);
    }
  }

  /** Every key starts with `v{version}_{resource}`, and the remainder does not
    * depend on the version: a version bump changes only the leading segment. */
  lemma KeyLayout(version: int, resource: Resource, parts: seq<KeyPart>)
    ensures KeyWithVersion(version, resource, parts)
      == "v" + IntToString(version) + "_" + Name(resource) + SepSuffix(Render(parts))
    ensures BuildCacheKey(resource, parts) == KeyWithVersion(Version(resource), resource, parts)
  {
    JoinHead(VersionTag(version), Name(resource), Render(parts));
  }

  /** Two different versions never produce the same key. */
  lemma VersionBumpChangesKey(v1: int, v2: int, resource: Resource, parts: seq<KeyPart>)
    requires v1 != v2
    ensures KeyWithVersion(v1, resource, parts) != KeyWithVersion(v2, resource, parts)
  {
    KeyLayout(v1, resource, parts);
    KeyLayout(v2, resource, parts);
    var tail := "_" + Name(resource) + SepSuffix(Render(parts));
    if KeyWithVersion(v1, resource, parts) == KeyWithVersion(v2, resource, parts) {
      CommonFrame(IntToString(v1), IntToString(v2), tail);
      IntToStringInjective(v1, v2);
    }
  }

  lemma CommonFrame(a: string, b: string, tail: string)
    requires "v" + a + tail == "v" + b + tail
    ensures a == b
  {
    var k := "v" + a + tail;
    assert k[1..|k| - |tail|] == a;
    assert k[1..|k| - |tail|] == b;
  }

  /** Because parts are joined without escaping, a part that contains `_`
    * collides with two parts. */
  lemma SeparatorInPartCollides()
    ensures BuildCacheKey(Team, [Text("1_2")]) == BuildCacheKey(Team, [Number(Finite(1.0)), Number(Finite(2.0))])
    ensures BuildCacheKey(Team, [Text("1_2")]) == "v1_team_1_2"
  {
    var two := [Number(Finite(1.0)), Number(Finite(2.0))];
    KeyLayout(1, Team, [Text("1_2")]);
    KeyLayout(1, Team, two);
    SmallNumbers();
    assert Render(two) == ["1", "2"];
    assert SepSuffix(["1", "2"]) == "_1_2";
    assert SepSuffix(Render([Text("1_2")])) == "_1_2";
  }

  lemma SmallNumbers()
    ensures JsNumberToString(Finite(1.0)) == "1" && JsNumberToString(Finite(2.0)) == "2"
    ensures IntToString(1) == "1"
  {
    assert (1.0).Floor == 1 && (2.0).Floor == 2;
    assert NatToString(1) == "1" && NatToString(2) == "2";
  }

  /** A number part is rendered as `String()` renders it, fractions and NaN
    * included, so it shares its key with the string it prints as. */
  lemma NumberPartsRenderAsStrings()
    ensures BuildCacheKey(Team, [Number(Finite(2.5))]) == "v1_team_2.5"
    ensures BuildCacheKey(Team, [Number(NaN)]) == BuildCacheKey(Team, [Text("NaN")])
    ensures BuildCacheKey(Team, [Number(Finite(39.0))]) == BuildCacheKey(Team, [Text("39")])
  {
    assert FractionDigits(0.5, 20) == "5" by {
      assert FractionDigits(0.0, 19) == "";
    }
    assert NumberToString(2.5) == "2.5";
    assert IntToString(39) == "39";
  }

  predicate SeparatorFree(pieces: seq<string>) {
    forall i :: 0 <= i < |pieces| ==> '_' !in pieces[i]
  }

  /** The first separator-free segment of `a + x` is `a` when `x` is empty or
    * starts with the separator. */
  lemma LeadingSegment(a: string, x: string, b: string, y: string)
    requires '_' !in a && '_' !in b
    requires x == [] || x[0] == '_'
    requires y == [] || y[0] == '_'
    requires a + x == b + y
    ensures a == b && x == y
  {
    if |a| < |b| {
      SplitAt(a, x, b, y);
      assert false;
    } else if |b| < |a| {
      SplitAt(b, y, a, x);
      assert false;
    } else {
      assert a == (a + x)[..|a|] == (b + y)[..|b|] == b;
    }
  }

  lemma SplitAt(a: string, x: string, b: string, y: string)
    requires |a| < |b| && a + x == b + y
    ensures x != [] && x[0] == b[|a|]
  {
    assert (a + x)[|a|] == (b + y)[|a|];
  }

  lemma {:induction false} SepSuffixInjective(xs: seq<string>, ys: seq<string>)
    requires SeparatorFree(xs) && SeparatorFree(ys)
    requires SepSuffix(xs) == SepSuffix(ys)
    ensures xs == ys
  {
    if xs != [] && ys != [] {
      var sx := SepSuffix(xs[1..]);
      var sy := SepSuffix(ys[1..]);
      SepSuffixShape(xs[1..]);
      SepSuffixShape(ys[1..]);
      assert ("_" + xs[0] + sx)[1..] == xs[0] + sx;
      assert ("_" + ys[0] + sy)[1..] == ys[0] + sy;
      assert '_' !in xs[0] && '_' !in ys[0];
      LeadingSegment(xs[0], sx, ys[0], sy);
      SepSuffixInjective(xs[1..], ys[1..]);
      assert xs == [xs[0]] + xs[1..];
      assert ys == [ys[0]] + ys[1..];
    }
  }

  lemma SepSuffixShape(xs: seq<string>)
    ensures SepSuffix(xs) == [] || SepSuffix(xs)[0] == '_'
  {
  }

  lemma JoinInjective(tag: string, n1: string, ps: seq<string>, n2: string, qs: seq<string>)
    requires '_' !in n1 && '_' !in n2
    requires SeparatorFree(ps) && SeparatorFree(qs)
    requires Join([tag, n1] + ps) == Join([tag, n2] + qs)
    ensures n1 == n2 && ps == qs
  {
    JoinHead(tag, n1, ps);
    JoinHead(tag, n2, qs);
    var xs := [n1] + ps;
    var ys := [n2] + qs;
    assert xs[1..] == ps && ys[1..] == qs;
    assert SepSuffix(xs) == "_" + n1 + SepSuffix(ps);
    assert SepSuffix(ys) == "_" + n2 + SepSuffix(qs);
    assert tag + SepSuffix(xs) == tag + SepSuffix(ys);
    assert SepSuffix(xs) == (tag + SepSuffix(xs))[|tag|..];
    assert SeparatorFree(xs) && SeparatorFree(ys);
    SepSuffixInjective(xs, ys);
  }

  /** When no part contains the separator, the key determines the resource
    * and the rendered parts: distinct requests never share a key. */
  lemma KeysInjectiveWithoutSeparator(r1: Resource, ps: seq<KeyPart>, r2: Resource, qs: seq<KeyPart>)
    requires SeparatorFree(Render(ps)) && SeparatorFree(Render(qs))
    requires BuildCacheKey(r1, ps) == BuildCacheKey(r2, qs)
    ensures r1 == r2 && Render(ps) == Render(qs)
  {
    TablesArePositive();
    NamesAreDistinct(r1, r2);
    NamesAreDistinct(r2, r1);
    JoinInjective(VersionTag(1), Name(r1), Render(ps), Name(r2), Render(qs));
  }
}
