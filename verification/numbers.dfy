/**
 * JavaScript numbers as the backend observes them: the result of `Number(x)`
 * can be NaN or an infinity besides a finite value, so it is a `JsNumber`.
 * Finite values are exact reals; binary floating point is not modelled.
 *
 * The module also holds the decimal rendering of integers (`String(n)`), the
 * string-to-number conversion `Number(s)` restricted to the decimal forms the
 * query strings and upstream rating strings use, `Math.max`/`Math.min`,
 * `Math.ceil` of a quotient, and `Number(x.toFixed(d))`.
 */
module JsNumbers {

  datatype JsNumber = NaN | PosInf | NegInf | Finite(r: real)

  /** `Number.isFinite`. */
  predicate IsFinite(n: JsNumber) {
    n.Finite?
  }

  /** `Number.isInteger`: finite and without fractional part. */
  predicate IsInteger(n: JsNumber) {
    n.Finite? && n.r.Floor as real == n.r
  }

  /** ECMAScript ToBoolean on a number: false exactly for 0 and NaN. */
  predicate Truthy(n: JsNumber) {
    n.PosInf? || n.NegInf? || (n.Finite? && n.r != 0.0)
  }

  /** `a || b` on numbers. */
  function Or(a: JsNumber, b: JsNumber): JsNumber {
    if Truthy(a) then a else b
  }

  /** IEEE comparison `a < b`: false whenever NaN is involved. */
  predicate Less(a: JsNumber, b: JsNumber) {
    match (a, b)
    case (NaN, _) => false
    case (_, NaN) => false
    case (NegInf, NegInf) => false
    case (NegInf, _) => true
    case (PosInf, _) => false
    case (Finite(x), NegInf) => false
    case (Finite(x), PosInf) => true
    case (Finite(x), Finite(y)) => x < y
  }

  /** `Math.max(a, b)`: NaN if either argument is NaN. */
  function Max(a: JsNumber, b: JsNumber): JsNumber {
    if a.NaN? || b.NaN? then NaN else if Less(a, b) then b else a
  }

  /** `Math.min(a, b)`: NaN if either argument is NaN. */
  function Min(a: JsNumber, b: JsNumber): JsNumber {
    if a.NaN? || b.NaN? then NaN else if Less(b, a) then b else a
  }

  /** IEEE addition: opposite infinities give NaN. */
  function Add(a: JsNumber, b: JsNumber): JsNumber {
    match (a, b)
    case (NaN, _) => NaN
    case (_, NaN) => NaN
    case (PosInf, NegInf) => NaN
    case (NegInf, PosInf) => NaN
    case (PosInf, _) => PosInf
    case (NegInf, _) => NegInf
    case (Finite(x), PosInf) => PosInf
    case (Finite(x), NegInf) => NegInf
    case (Finite(x), Finite(y)) => Finite(x + y)
  }

  /** IEEE addition of exact reals is commutative and associative, NaN and
    * infinities included, with 0 as its identity. */
  lemma AddLaws(a: JsNumber, b: JsNumber, c: JsNumber)
    ensures Add(a, b) == Add(b, a)
    ensures Add(Add(a, b), c) == Add(a, Add(b, c))
    ensures Add(Finite(0.0), a) == a
  {
    match (a, b, c)
    case (Finite(x), Finite(y), Finite(z)) =>
    case _ =>
  }

  function Negate(n: JsNumber): JsNumber {
    match n
    case NaN => NaN
    case PosInf => NegInf
    case NegInf => PosInf
    case Finite(x) => Finite(-x)
  }

  // ---------------------------------------------------------------------------
  // Integer arithmetic helpers

  /** `Math.ceil(a / b)` for a positive divisor. */
  function CeilDiv(a: int, b: int): (q: int)
    requires b > 0
    ensures (q - 1) * b < a <= q * b
  {
    -((-a) / b)
  }

  function Pow10(d: nat): (p: nat)
    ensures p >= 1
  {
    if d == 0 then 1 else 10 * Pow10(d - 1)
  }

  function Abs(x: real): real {
    if x < 0.0 then -x else x
  }

  /** `y` is a whole number of steps of `1 / scale`. */
  predicate OnGrid(y: real, scale: nat) {
    (y * scale as real).Floor as real == y * scale as real
  }

  /** The multiple of `1 / scale` nearest to `x`, ties away from zero. */
  function RoundAt(x: real, scale: nat): (y: real)
    requires scale >= 1
    ensures OnGrid(y, scale)
    ensures Abs(y - x) * (scale as real) <= 0.5
    ensures Abs(y - x) * (scale as real) == 0.5 ==> Abs(y) > Abs(x)
  {
    RoundingError(x, scale as real, Magnitude(x, scale));
    RoundingOnGrid(x, scale, Magnitude(x, scale));
    RoundingTie(x, scale as real, Magnitude(x, scale));
    if x < 0.0 then -(Magnitude(x, scale) as real / scale as real) else Magnitude(x, scale) as real / scale as real
  }

  /** The rounded magnitude in units of `1 / scale`. */
  function Magnitude(x: real, scale: nat): (k: int)
    ensures k >= 0
  {
    (Abs(x) * scale as real + 0.5).Floor
  }

  /**
   * `Number(x.toFixed(d))` on exact reals: the nearest multiple of 10^-d,
   * ties away from zero (toFixed rounds the magnitude and re-attaches the
   * sign). NaN and the infinities come back unchanged.
   */
  function RoundTo(n: JsNumber, d: nat): (m: JsNumber)
    ensures n.Finite? <==> m.Finite?
    ensures !n.Finite? ==> m == n
    ensures n.Finite? ==> Abs(m.r - n.r) * (Pow10(d) as real) <= 0.5
    ensures n.Finite? ==> OnGrid(m.r, Pow10(d))
    ensures n.Finite? && Abs(m.r - n.r) * (Pow10(d) as real) == 0.5 ==> Abs(m.r) > Abs(n.r)
    ensures n.Finite? ==> RoundsTo(n.r, Pow10(d), m.r)
  {
    match n
    case Finite(x) => Finite(RoundAt(x, Pow10(d)))
    case _ => n
  }

  lemma RoundingError(x: real, scale: real, k: int)
    requires scale >= 1.0
    requires k == (Abs(x) * scale + 0.5).Floor
    ensures Abs((if x < 0.0 then -(k as real / scale) else k as real / scale) - x) * scale <= 0.5
  {
    var y := Abs(x) * scale;
    assert y - 0.5 < k as real <= y + 0.5;
    var q := k as real / scale;
    assert q * scale == k as real;
    var res := if x < 0.0 then -q else q;
    assert Abs(res - x) == Abs(q - Abs(x));
    assert (q - Abs(x)) * scale == k as real - y;
    if q >= Abs(x) {
      assert Abs(q - Abs(x)) * scale == k as real - y;
    } else {
      assert Abs(q - Abs(x)) * scale == y - k as real;
    }
  }

  /** The rounded value is `k` steps of `1 / scale` from zero. */
  lemma RoundingOnGrid(x: real, scale: nat, k: int)
    requires scale >= 1
    ensures OnGrid(if x < 0.0 then -(k as real / scale as real) else k as real / scale as real, scale)
  {
    var s := scale as real;
    var q := k as real / s;
    assert q * s == k as real;
    var w := if x < 0.0 then -k else k;
    WholeOnGrid(if x < 0.0 then -q else q, scale, w);
  }

  lemma WholeOnGrid(y: real, scale: nat, w: int)
    requires y * scale as real == w as real
    ensures OnGrid(y, scale)
  {
    FloorOfWhole(w);
  }

  /** A distance of exactly half a step is a tie, and it went to the larger
    * magnitude. */
  lemma RoundingTie(x: real, scale: real, k: int)
    requires scale >= 1.0
    requires k == (Abs(x) * scale + 0.5).Floor
    ensures var y := if x < 0.0 then -(k as real / scale) else k as real / scale;
      Abs(y - x) * scale == 0.5 ==> Abs(y) > Abs(x)
  {
    var q := k as real / scale;
    assert q * scale == k as real;
    var y := if x < 0.0 then -q else q;
    assert Abs(y - x) == Abs(q - Abs(x));
    if Abs(y - x) * scale == 0.5 {
      // k - 1/2 <= |x| * scale < k + 1/2, so a distance of 1/2 is the lower end.
      assert q > Abs(x);
    }
  }

  /**
   * `y` is `x` rounded to a multiple of `1 / scale`: on the grid, within half
   * a step, and a tie goes to the larger magnitude.
   */
  predicate RoundsTo(x: real, scale: nat, y: real) {
    && OnGrid(y, scale)
    && Abs(y - x) * (scale as real) <= 0.5
    && (Abs(y - x) * (scale as real) == 0.5 ==> Abs(y) > Abs(x))
  }

  /** Rounding is fully described by its three promises: the value that
    * keeps them is the rounded value. */
  lemma RoundAtIsUnique(x: real, scale: nat, y: real)
    requires scale >= 1
    requires RoundsTo(x, scale, y)
    ensures y == RoundAt(x, scale)
  {
    SameRounding(x, scale, y, RoundAt(x, scale));
  }

  /** The same for `toFixed(d)`: a finite number rounds to the one value
    * keeping the promises at 10^-d. */
  lemma RoundToIsUnique(n: JsNumber, d: nat, y: real)
    requires n.Finite? && RoundsTo(n.r, Pow10(d), y)
    ensures RoundTo(n, d) == Finite(y)
  {
    RoundAtIsUnique(n.r, Pow10(d), y);
  }

  lemma SameRounding(x: real, scale: nat, y: real, z: real)
    requires scale >= 1
    requires RoundsTo(x, scale, y) && RoundsTo(x, scale, z)
    ensures y == z
  {
    var j := StepsOf(x, scale, y);
    var i := StepsOf(x, scale, z);
    WholeNeighbours(i, j, x * scale as real);
  }

  /** A rounded value in whole steps: the step count is itself `x * scale`
    * rounded to a whole number. */
  lemma StepsOf(x: real, scale: nat, y: real) returns (j: int)
    requires scale >= 1 && RoundsTo(x, scale, y)
    ensures y == j as real / scale as real
    ensures NearestWhole(j, x * scale as real)
  {
    j := GridSteps(y, scale);
    StepsNear(y, x, scale as real, j);
  }

  /** `j` is within half of `X`, and on a tie has the larger magnitude. */
  predicate NearestWhole(j: int, X: real) {
    && Abs(j as real - X) <= 0.5
    && (Abs(j as real - X) == 0.5 ==> Abs(j as real) > Abs(X))
  }

  /** The number of steps of `1 / scale` a value on the grid is made of. */
  lemma GridSteps(y: real, scale: nat) returns (j: int)
    requires scale >= 1 && OnGrid(y, scale)
    ensures j as real == y * scale as real
    ensures y == j as real / scale as real
  {
    j := (y * scale as real).Floor;
  }

  /** Measured in steps of `1 / s`, a rounded `y` is the nearest whole
    * number to `x * s`. */
  lemma StepsNear(y: real, x: real, s: real, j: int)
    requires s > 0.0 && y * s == j as real
    requires Abs(y - x) * s <= 0.5
    requires Abs(y - x) * s == 0.5 ==> Abs(y) > Abs(x)
    ensures NearestWhole(j, x * s)
  {
    DistanceInSteps(y, x, s, j);
    MagnitudeInSteps(y, x, s, j);
  }

  lemma DistanceInSteps(y: real, x: real, s: real, j: int)
    requires s > 0.0 && y * s == j as real
    ensures Abs(y - x) * s == Abs(j as real - x * s)
  {
    var d := (y - x) * s;
    assert d == y * s - x * s;
    ScaleAbs(y - x, s);
  }

  lemma MagnitudeInSteps(y: real, x: real, s: real, j: int)
    requires s > 0.0 && y * s == j as real
    ensures Abs(y) > Abs(x) <==> Abs(j as real) > Abs(x * s)
  {
    ScaleAbs(y, s);
    ScaleAbs(x, s);
    assert (Abs(y) - Abs(x)) * s == Abs(y) * s - Abs(x) * s;
  }

  /** Two whole numbers within half of `X`, each winning a tie by magnitude,
    * are the same number. */
  lemma WholeNeighbours(i: int, j: int, X: real)
    requires NearestWhole(i, X) && NearestWhole(j, X)
    ensures i == j
  {
  }

  lemma FloorOfWhole(k: int)
    ensures (k as real).Floor == k
  {
  }

  lemma ScaleAbs(a: real, s: real)
    requires s > 0.0
    ensures Abs(a * s) == Abs(a) * s
  {
  }

  /** Rounding keeps a value inside `[0, hi]` for a whole number `hi`: both
    * ends are multiples of every 10^-d. */
  lemma RoundToWithin(x: real, d: nat, hi: nat)
    requires 0.0 <= x <= hi as real
    ensures RoundTo(Finite(x), d).Finite?
    ensures 0.0 <= RoundTo(Finite(x), d).r <= hi as real
  {
    var p := Pow10(d);
    RoundAtWithin(x, p, hi);
  }

  lemma RoundAtWithin(x: real, scale: nat, hi: nat)
    requires scale >= 1
    requires 0.0 <= x <= hi as real
    ensures 0.0 <= RoundAt(x, scale) <= hi as real
  {
    var s := scale as real;
    var k := Magnitude(x, scale);
    assert RoundAt(x, scale) == k as real / s;
    MagnitudeAtMost(x, scale, hi);
    QuotientBound(k as real, s, hi as real);
  }

  /** The rounded magnitude of a value in `[0, hi]` is at most `hi * scale`. */
  lemma MagnitudeAtMost(x: real, scale: nat, hi: nat)
    requires 0.0 <= x <= hi as real
    ensures Magnitude(x, scale) as real <= hi as real * scale as real
  {
    var s := scale as real;
    assert (hi as real - x) * s >= 0.0;
    var top := hi * scale;
    assert top as real == hi as real * s;
    assert Magnitude(x, scale) <= top;
  }

  /** A non-negative `a` of at most `h` parts of size `c` divides to at most `h`. */
  lemma QuotientBound(a: real, c: real, h: real)
    requires c > 0.0 && 0.0 <= a <= h * c
    ensures 0.0 <= a / c <= h
  {
    assert a / c * c == a;
    assert (h - a / c) * c == h * c - a;
  }

  // ---------------------------------------------------------------------------
  // Decimal digits

  predicate IsDigit(c: char) {
    '0' <= c <= '9'
  }

  predicate AllDigits(s: string) {
    forall i :: 0 <= i < |s| ==> IsDigit(s[i])
  }

  function DigitValue(c: char): nat
    requires IsDigit(c)
  {
    (c as int - '0' as int) as nat
  }

  function DigitChar(d: nat): (c: char)
    requires d < 10
    ensures IsDigit(c) && DigitValue(c) == d
  {
    ('0' as int + d) as char
  }

  /** The value of a decimal digit string, most significant digit first. */
  function DigitsValue(s: string): nat
    requires AllDigits(s)
  {
    if s == [] then 0 else DigitsValue(s[..|s| - 1]) * 10 + DigitValue(s[|s| - 1])
  }

  /** The value of the digits after a decimal point: 0.d1 d2 d3 ... */
  function FractionValue(s: string): (v: real)
    requires AllDigits(s)
    ensures 0.0 <= v <= 1.0
  {
    if s == [] then 0.0 else (DigitValue(s[0]) as real + FractionValue(s[1..])) / 10.0
  }

  /** `String(n)` for a non-negative integer: shortest decimal, no leading zero. */
  function NatToString(n: nat): (s: string)
    ensures |s| >= 1 && AllDigits(s)
    ensures |s| > 1 ==> s[0] != '0'
  {
    if n < 10 then [DigitChar(n)] else NatToString(n / 10) + [DigitChar(n % 10)]
  }

  /** `String(i)` for an integer. */
  function IntToString(i: int): (s: string)
    ensures |s| >= 1
    ensures i >= 0 ==> AllDigits(s)
    ensures i < 0 ==> s[0] == '-' && AllDigits(s[1..])
  {
    if i < 0 then "-" + NatToString(-i) else NatToString(i)
  }

  /** Reading the decimal rendering back gives the number: the two are inverse. */
  lemma {:induction false} NatToStringRoundTrip(n: nat)
    ensures DigitsValue(NatToString(n)) == n
  {
    if n >= 10 {
      var s := NatToString(n);
      assert s[..|s| - 1] == NatToString(n / 10);
      NatToStringRoundTrip(n / 10);
    }
  }

  /** The decimal rendering of naturals is injective. */
  lemma NatToStringInjective(a: nat, b: nat)
    requires NatToString(a) == NatToString(b)
    ensures a == b
  {
    NatToStringRoundTrip(a);
    NatToStringRoundTrip(b);
  }

  lemma IntToStringInjective(a: int, b: int)
    requires IntToString(a) == IntToString(b)
    ensures a == b
  {
    var s := IntToString(a);
    if a < 0 && b < 0 {
      assert s[1..] == NatToString(-a) == NatToString(-b);
      NatToStringInjective(-a, -b);
    } else if a >= 0 && b >= 0 {
      NatToStringInjective(a, b);
    }
  }

  /** `String(x)` for a finite number. Integers are rendered exactly; other
    * values get their integer part and up to twenty fractional digits. */
  function NumberToString(x: real): string {
    if x.Floor as real == x then IntToString(x.Floor)
    else
      var m := Abs(x);
      (if x < 0.0 then "-" else "") + NatToString(m.Floor) + "." + FractionDigits(m - m.Floor as real, 20)
  }

  /** `String(x)` for any number, including NaN and the infinities. */
  function JsNumberToString(x: JsNumber): string {
    match x
    case NaN => "NaN"
    case PosInf => "Infinity"
    case NegInf => "-Infinity"
    case Finite(r) => NumberToString(r)
  }

  function FractionDigits(f: real, fuel: nat): string
    requires 0.0 <= f < 1.0
    decreases fuel
  {
    if fuel == 0 || f == 0.0 then ""
    else
      var d := (f * 10.0).Floor;
      assert 0 <= d < 10;
      [DigitChar(d)] + FractionDigits(f * 10.0 - d as real, fuel - 1)
  }

  // ---------------------------------------------------------------------------
  // String to number

  predicate IsSpace(c: char) {
    c == ' ' || c == '\t' || c == '\n' || c == '\r' || c == '\U{000B}' || c == '\U{000C}'
  }

  function TrimStart(s: string): (t: string)
    ensures |t| <= |s|
    ensures t == [] || !IsSpace(t[0])
  {
    if s != [] && IsSpace(s[0]) then TrimStart(s[1..]) else s
  }

  function TrimEnd(s: string): (t: string)
    ensures |t| <= |s|
    ensures t == [] || !IsSpace(t[|t| - 1])
  {
    if s != [] && IsSpace(s[|s| - 1]) then TrimEnd(s[..|s| - 1]) else s
  }

  /** Position of the first `c` in `s`, or `|s|` if there is none. */
  function IndexOf(s: string, c: char): (k: nat)
    ensures k <= |s|
    ensures k < |s| ==> s[k] == c
    ensures forall i :: 0 <= i < k ==> s[i] != c
  {
    if s == [] then 0 else if s[0] == c then 0 else 1 + IndexOf(s[1..], c)
  }

  /** An unsigned decimal literal: `Infinity`, or digits with an optional
    * fraction, at least one digit in all. Anything else is NaN. */
  function ParseUnsigned(t: string): JsNumber {
    if t == "Infinity" then PosInf
    else
      var k := IndexOf(t, '.');
      var whole := t[..k];
      var frac := if k < |t| then t[k + 1..] else "";
      if AllDigits(whole) && AllDigits(frac) && |whole| + |frac| > 0 then
        Finite(DigitsValue(whole) as real + FractionValue(frac))
      else
        NaN
  }

  /** `Number(s)` for a string: surrounding white space is ignored, the empty
    * string is 0, and a leading sign applies to the unsigned literal. */
  function ParseNumber(s: string): JsNumber {
    var t := TrimEnd(TrimStart(s));
    if t == [] then Finite(0.0)
    else if t[0] == '-' then Negate(ParseUnsigned(t[1..]))
    else if t[0] == '+' then ParseUnsigned(t[1..])
    else ParseUnsigned(t)
  }

  lemma AllDigitsHasNoDot(s: string)
    requires AllDigits(s)
    ensures IndexOf(s, '.') == |s|
  {
  }

  lemma TrimDigits(s: string)
    requires |s| >= 1 && AllDigits(s)
    ensures TrimEnd(TrimStart(s)) == s
  {
    assert !IsSpace(s[0]);
    assert TrimStart(s) == s;
    assert !IsSpace(s[|s| - 1]);
  }

  /** `Number(String(n))` is `n` for every natural number. */
  lemma ParseNatToString(n: nat)
    ensures ParseNumber(NatToString(n)) == Finite(n as real)
  {
    var s := NatToString(n);
    TrimDigits(s);
    AllDigitsHasNoDot(s);
    assert s[..|s|] == s;
    assert IsDigit(s[0]);
    NatToStringRoundTrip(n);
  }

  /** `Number(String(i))` is `i` for every integer. */
  lemma ParseIntToString(i: int)
    ensures ParseNumber(IntToString(i)) == Finite(i as real)
  {
    if i >= 0 {
      ParseNatToString(i);
    } else {
      var d := NatToString(-i);
      assert IntToString(i) == "-" + d;
      ParseNatToString(-i);
      ParseNegated(d);
    }
  }

  /** A minus sign negates a decimal literal. */
  lemma ParseNegated(d: string)
    requires |d| >= 1 && AllDigits(d)
    ensures ParseNumber("-" + d) == Negate(ParseNumber(d))
  {
    var s := "-" + d;
    TrimDigits(d);
    assert !IsSpace(s[0]) && !IsSpace(s[|s| - 1]);
    assert TrimStart(s) == s;
    assert TrimEnd(s) == s;
    assert s[1..] == d;
    assert d[0] != '-' && d[0] != '+';
  }

  /** `Number(String(x))` gives `x` back for NaN, both infinities and every
    * integer. */
  lemma ParseJsNumberToString(x: JsNumber)
    requires !x.Finite? || IsInteger(x)
    ensures ParseNumber(JsNumberToString(x)) == x
  {
    match x
    case NaN =>
      var t := "NaN";
      assert TrimStart(t) == t && TrimEnd(t) == t;
      assert IndexOf(t, '.') == 3;
      assert !AllDigits(t[..3]);
    case PosInf =>
      var t := "Infinity";
      assert TrimStart(t) == t && TrimEnd(t) == t;
    case NegInf =>
      var t := "-Infinity";
      assert TrimStart(t) == t && TrimEnd(t) == t;
      assert t[1..] == "Infinity";
    case Finite(r) =>
      assert NumberToString(r) == IntToString(r.Floor);
      ParseIntToString(r.Floor);
  }
}
