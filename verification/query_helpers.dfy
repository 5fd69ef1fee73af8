/**
 * Reading single values out of a parsed query string, where a repeated
 * parameter arrives as an array of strings.
 */
module QueryHelpers {
  import opened Errors
  import opened JsNumbers
  import opened Json

  /** `getQueryParam(value)`: a string, or the first element of an array when
    * that is a string. */
  function GetQueryParam(value: Json): (r: Option<string>)
    ensures value.Str? ==> r == Some(value.s)
    ensures value.Arr? && |value.items| > 0 && value.items[0].Str? ==> r == Some(value.items[0].s)
    ensures r.Some? ==> value.Str? || (value.Arr? && |value.items| > 0 && value.items[0] == Str(r.value))
  {
    if value.Str? then Some(value.s)
    else if value.Arr? && |value.items| > 0 && value.items[0].Str? then Some(value.items[0].s)
    else None
  }

  /** `getQueryNumber(value)`: the number the parameter spells, when it is a
    * non-empty string that parses to a finite number. */
  function GetQueryNumber(value: Json): (r: Option<real>)
    ensures GetQueryParam(value) == None || GetQueryParam(value) == Some("") ==> r == None
    ensures r.Some? ==> GetQueryParam(value).Some? && ParseNumber(GetQueryParam(value).value) == Finite(r.value)
    ensures GetQueryParam(value).Some? && GetQueryParam(value).value != "" && ParseNumber(GetQueryParam(value).value).Finite? ==> r.Some?
  {
    var str := GetQueryParam(value);
    if str.None? || str.value == "" then None
    else
      var num := ParseNumber(str.value);
      if IsFinite(num) then Some(num.r) else None
  }

  /** Every integer written in decimal reads back as itself, alone or first
    * in a repeated parameter; so 0 and negative values come through. */
  lemma QueryNumberOfInteger(i: int, rest: seq<Json>)
    ensures GetQueryNumber(Str(IntToString(i))) == Some(i as real)
    ensures GetQueryNumber(Arr([Str(IntToString(i))] + rest)) == Some(i as real)
  {
    ParseIntToString(i);
  }

  /** Values that are not strings, and arrays that do not start with one, read
    * as absent. */
  lemma NonStringsAreAbsent(n: real, rest: seq<Json>)
    ensures GetQueryParam(Num(n)) == None && GetQueryNumber(Num(n)) == None
    ensures GetQueryParam(Arr([])) == None
    ensures GetQueryParam(Arr([Num(n)] + rest)) == None
    ensures GetQueryNumber(Str("Infinity")) == None
  {
  }
}
