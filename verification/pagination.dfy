/**
 * Page and page-size defaults from the query: `page` is at least 1 and
 * `limit` at most 50; zero, NaN and absent values take the defaults.
 */
module Pagination {
  import opened Errors
  import opened JsNumbers
  import opened Json

  const DefaultPage: real := 1.0
  const DefaultLimit: real := 20.0
  const MaxLimit: real := 50.0

  datatype Page = Page(page: JsNumber, limit: JsNumber)

  /** `Number(x) || d`: the parsed value, or `d` when it is 0 or NaN. */
  function NumberOr(x: Json, d: real): (n: JsNumber)
    ensures !n.NaN?
    ensures JsNumbers.Truthy(ToNumber(x)) ==> n == ToNumber(x)
    ensures !JsNumbers.Truthy(ToNumber(x)) ==> n == Finite(d)
  {
    Or(ToNumber(x), Finite(d))
  }

  /** `getPagination(query)`. Reading a property of `null` or `undefined`
    * throws. */
  function GetPagination(query: Json): (r: Result<Page>)
    ensures r.Err? <==> IsNullish(query)
    ensures r.Err? ==> r.error == TypeError
    ensures r.Ok? ==> !r.value.page.NaN? && !Less(r.value.page, Finite(1.0))
    ensures r.Ok? ==> !r.value.limit.NaN? && !Less(Finite(50.0), r.value.limit)
  {
    if IsNullish(query) then Err(TypeError)
    else
      var page := Max(NumberOr(Get(query, "page"), DefaultPage), Finite(1.0));
      var limit := Min(NumberOr(Get(query, "limit"), DefaultLimit), Finite(MaxLimit));
      Ok(Page(page, limit))
  }

  /** A page given as a finite number is taken if it is at least 1, and a
    * limit if it is at most 50; missing, zero and NaN give the defaults. */
  lemma PaginationValues(query: Json)
    requires !IsNullish(query)
    ensures var p := ToNumber(Get(query, "page"));
      && (!JsNumbers.Truthy(p) ==> GetPagination(query).value.page == Finite(1.0))
      && (p.Finite? && p.r >= 1.0 ==> GetPagination(query).value.page == p)
      && (p.Finite? && p.r != 0.0 && p.r < 1.0 ==> GetPagination(query).value.page == Finite(1.0))
    ensures var l := ToNumber(Get(query, "limit"));
      && (!JsNumbers.Truthy(l) ==> GetPagination(query).value.limit == Finite(20.0))
      && (l.Finite? && l.r != 0.0 && l.r <= 50.0 ==> GetPagination(query).value.limit == l)
      && (l.Finite? && l.r > 50.0 ==> GetPagination(query).value.limit == Finite(50.0))
  {
  }

  /** The limit has no lower bound and neither value is forced to an
    * integer: `limit=-5` and `page=2.5` pass through. */
  lemma NoLowerBoundNoRounding()
    ensures GetPagination(Obj([Field("limit", Num(-5.0))])).value.limit == Finite(-5.0)
    ensures GetPagination(Obj([Field("page", Num(2.5))])).value.page == Finite(2.5)
    ensures GetPagination(Obj([])).value == Page(Finite(1.0), Finite(20.0))
  {
  }
}
