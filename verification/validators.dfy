/**
 * Query-parameter validation: a positive integer id and a season year. The
 * raw query value is any JavaScript value; only a string passes the type
 * test. The current calendar year is a parameter.
 */
module Validators {
  import opened Errors
  import opened JsNumbers
  import opened Json

  predicate IsInvalidParam(e: Error) {
    e.ApiError? && e.status == 400 && e.code == "invalid_param" && e.retryAfter.None?
  }

  /** `requirePositiveInt(value, name)`. */
  function RequirePositiveInt(value: Json, name: string): (r: Result<int>)
    ensures r.Err? ==> IsInvalidParam(r.error)
    ensures !value.Str? ==> r == Err(Api(400, "invalid_param", name + " is required"))
    ensures r.Ok? <==> value.Str? && IsInteger(ParseNumber(value.s)) && ParseNumber(value.s).r > 0.0
    ensures r.Ok? ==> r.value > 0 && ParseNumber(value.s) == Finite(r.value as real)
    ensures value.Str? && r.Err? ==> r.error.message == name + " must be a positive integer"
  {
    if !value.Str? then Err(Api(400, "invalid_param", name + " is required"))
    else
      var num := ParseNumber(value.s);
      if !IsInteger(num) || num.r <= 0.0 then Err(Api(400, "invalid_param", name + " must be a positive integer"))
      else Ok(num.r.Floor)
  }

  /** The decimal rendering of every positive integer is accepted and read
    * back as that integer. */
  lemma PositiveIntRoundTrip(n: int, name: string)
    requires n > 0
    ensures RequirePositiveInt(Str(IntToString(n)), name) == Ok(n)
  {
    ParseIntToString(n);
  }

  /** Zero and negative integers are refused with the same error. */
  lemma NonPositiveIntRefused(n: int, name: string)
    requires n <= 0
    ensures RequirePositiveInt(Str(IntToString(n)), name) == Err(Api(400, "invalid_param", name + " must be a positive integer"))
  {
    ParseIntToString(n);
  }

  /** `requireSeason(value)` in calendar year `currentYear`. */
  function RequireSeason(value: Json, currentYear: int): (r: Result<int>)
    ensures r.Err? ==> IsInvalidParam(r.error)
    ensures !value.Str? ==> r == Err(Api(400, "invalid_param", "season is required"))
    ensures value.Str? && r.Err? ==> r.error.message == "season must be a valid year"
    ensures r.Ok? <==>
      && value.Str? && IsInteger(ParseNumber(value.s))
      && 2000.0 <= ParseNumber(value.s).r <= (currentYear + 1) as real
    ensures r.Ok? ==> 2000 <= r.value <= currentYear + 1 && ParseNumber(value.s) == Finite(r.value as real)
  {
    if !value.Str? then Err(Api(400, "invalid_param", "season is required"))
    else
      var year := ParseNumber(value.s);
      if !IsInteger(year) || year.r < 2000.0 || year.r > (currentYear + 1) as real then
        Err(Api(400, "invalid_param", "season must be a valid year"))
      else
        Ok(year.r.Floor)
  }

  /** A year written in decimal is accepted exactly when it lies between 2000
    * and next year, and is then read back unchanged. */
  lemma SeasonRange(y: int, currentYear: int)
    ensures RequireSeason(Str(IntToString(y)), currentYear).Ok? <==> 2000 <= y <= currentYear + 1
    ensures 2000 <= y <= currentYear + 1 ==> RequireSeason(Str(IntToString(y)), currentYear) == Ok(y)
  {
    ParseIntToString(y);
  }
}
