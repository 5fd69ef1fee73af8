/**
 * The request wrapper: an optional rate check for the named endpoint, then
 * the wrapped function, with every thrown error turned into a JSON reply.
 * The wrapped function is a pure function from the request to success or a
 * thrown error; on success it has written its own reply and the wrapper
 * writes none.
 */
module Handler {
  import opened Errors
  import opened Json
  import opened AuthContext
  import opened RateLimitResolver
  import opened RateLimiter
  import opened HttpResponses

  /** The rate-limit state after the request, whether the wrapped function
    * ran, and the reply the wrapper itself wrote, if any. */
  datatype Outcome = Outcome(store: RateStore, invoked: bool, reply: Option<Reply>)

  type Limiter = (RateStore, string, int, int, int) -> Result<RateStore>

  /** The catch block: like `fail`, but an `ApiError` with a truthy
    * `retryAfter` also reports it. */
  function CatchReply(e: Error): (r: Reply)
    ensures ErrorOf(r.body).Obj?
    ensures e.ApiError? ==>
      && r.status == e.status
      && Get(ErrorOf(r.body), "code") == Str(e.code)
      && Get(ErrorOf(r.body), "message") == Str(e.message)
    ensures e.ApiError? ==>
      (HasKey(ErrorOf(r.body).fields, "retryAfter") <==> e.retryAfter.Some? && e.retryAfter.value != 0)
    ensures e.ApiError? && e.retryAfter.Some? && e.retryAfter.value != 0 ==>
      Get(ErrorOf(r.body), "retryAfter") == Num(e.retryAfter.value as real)
    ensures !e.ApiError? ==> r == Fail(e)
  {
    if e.ApiError? then
      var extra := if e.retryAfter.Some? && e.retryAfter.value != 0
        then [Field("retryAfter", Num(e.retryAfter.value as real))] else [];
      var r := Reply(e.status, ErrorBody(e.code, e.message, extra));
      ErrorBodyReads(e.code, e.message, extra);
      var inner := ErrorOf(r.body).fields;
      LookupCons(inner[0], inner[1..], "retryAfter");
      LookupCons(inner[1], inner[2..], "retryAfter");
      assert extra != [] ==> inner[2].key == "retryAfter";
      r
    else
      Fail(e)
  }

  /** The wrapper's reply is `fail`'s whenever there is no truthy
    * `retryAfter` to report. */
  lemma CatchAgreesWithFail(e: Error)
    requires e.ApiError? ==> e.retryAfter.None? || e.retryAfter.value == 0
    ensures CatchReply(e) == Fail(e)
  {
  }

  /** Running the wrapped function on `req` with the rate state `store`. */
  function Invoke(fn: Request -> Result<()>, req: Request, store: RateStore): (o: Outcome)
    ensures o.invoked && o.store == store
    ensures o.reply.None? <==> fn(req).Ok?
  {
    match fn(req)
    case Ok(_) => Outcome(store, true, None)
    case Err(e) => Outcome(store, true, Some(CatchReply(e)))
  }

  /** `handler(fn, endpointName)(req, res)` at time `now`, with the rate
    * limiter `limit`. */
  function HandleWith(limit: Limiter, fn: Request -> Result<()>, endpointName: Option<string>,
                      req: Request, store: RateStore, now: int): Outcome
  {
    if Present(endpointName) then
      var c := ResolveRateLimit(req, endpointName.value);
      match limit(store, c.key, c.limit, c.windowMs, now)
      case Err(e) => Outcome(store, false, Some(CatchReply(e)))
      case Ok(next) => Invoke(fn, req, next)
    else
      Invoke(fn, req, store)
  }

  /** The wrapper as intended: the denial carries `retryAfter`. */
  function Handle(fn: Request -> Result<()>, endpointName: Option<string>,
                  req: Request, store: RateStore, now: int): (o: Outcome)
    ensures !Present(endpointName) ==> o == Invoke(fn, req, store)
    ensures Present(endpointName) ==>
      var c := ResolveRateLimit(req, endpointName.value);
      var checked := RateLimit(store, c.key, c.limit, c.windowMs, now);
      && (o.invoked <==> checked.Ok?)
      && (checked.Ok? ==> o == Invoke(fn, req, checked.value))
      && (checked.Err? ==> o.store == store && o.reply == Some(CatchReply(checked.error)))
  {
    HandleWith(RateLimit, fn, endpointName, req, store, now)
  }

  /** The wrapper as the code is written. */
  function HandleAsWritten(fn: Request -> Result<()>, endpointName: Option<string>,
                           req: Request, store: RateStore, now: int): (o: Outcome)
    ensures !Present(endpointName) ==> o == Invoke(fn, req, store)
  {
    HandleWith(RateLimitAsWritten, fn, endpointName, req, store, now)
  }

  /** Without an endpoint name no rate state is read or written, and the
    * wrapped function always runs. */
  lemma NoEndpointNoRateLimit(fn: Request -> Result<()>, req: Request, store: RateStore, now: int, other: RateStore)
    ensures Handle(fn, None, req, store, now).store == store
    ensures Handle(fn, Some(""), req, store, now).store == store
    ensures Handle(fn, None, req, store, now).invoked
    ensures Handle(fn, None, req, store, now).reply == Handle(fn, None, req, other, now).reply
  {
  }

  /** A request whose bucket is full inside its window is answered 429 by the
    * wrapper itself, the wrapped function does not run, the rate state is
    * unchanged, and the reply reports the seconds left exactly when some are
    * left. */
  lemma DeniedRequestNeverRunsFn(fn: Request -> Result<()>, endpoint: string, req: Request, store: RateStore, now: int)
    requires endpoint != ""
    requires var c := ResolveRateLimit(req, endpoint);
      c.key in store && store[c.key].count >= c.limit && now <= store[c.key].resetAt
    ensures var o := Handle(fn, Some(endpoint), req, store, now);
      var c := ResolveRateLimit(req, endpoint);
      && !o.invoked && o.store == store
      && o.reply.Some? && o.reply.value.status == 429
      && Get(ErrorOf(o.reply.value.body), "code") == Str("rate_limited")
      && (HasKey(ErrorOf(o.reply.value.body).fields, "retryAfter") <==> now < store[c.key].resetAt)
  {
    var c := ResolveRateLimit(req, endpoint);
    var e := RateLimit(store, c.key, c.limit, c.windowMs, now).error;
    assert e.retryAfter.value == 0 <==> now == store[c.key].resetAt;
  }

  /** An admitted request runs the wrapped function; the wrapper writes a
    * reply exactly when the function throws. */
  lemma AdmittedRequestRunsFn(fn: Request -> Result<()>, endpoint: string, req: Request, store: RateStore, now: int)
    requires endpoint != ""
    requires var c := ResolveRateLimit(req, endpoint);
      RateLimit(store, c.key, c.limit, c.windowMs, now).Ok?
    ensures var o := Handle(fn, Some(endpoint), req, store, now);
      && o.invoked
      && (o.reply.None? <==> fn(req).Ok?)
  {
  }

  /** As written, a denial never reports `retryAfter`, although seconds
    * remain in the window. */
  lemma AsWrittenNeverReportsRetryAfter(fn: Request -> Result<()>, endpoint: string, req: Request, store: RateStore, now: int)
    requires endpoint != ""
    requires var c := ResolveRateLimit(req, endpoint);
      c.key in store && store[c.key].count >= c.limit && now <= store[c.key].resetAt
    ensures var o := HandleAsWritten(fn, Some(endpoint), req, store, now);
      && !o.invoked && o.store == store
      && o.reply.Some? && o.reply.value.status == 429
      && !HasKey(ErrorOf(o.reply.value.body).fields, "retryAfter")
  {
  }

  /** A concrete instance: an anonymous caller at 10.0.0.1 that has used its
    * 10 calls to `getPlayer` in a window closing 30 s from now gets
    * `retryAfter: 30` from the corrected wrapper and no `retryAfter` from the
    * wrapper as written. */
  lemma RetryAfterLostExample(fn: Request -> Result<()>)
    ensures var req := Request(None, Some("10.0.0.1"), None);
      var store := map["getPlayer:ip:10.0.0.1" := RateEntry(10, 30000)];
      && Handle(fn, Some("getPlayer"), req, store, 0).reply.Some?
      && HandleAsWritten(fn, Some("getPlayer"), req, store, 0).reply.Some?
      && Get(ErrorOf(Handle(fn, Some("getPlayer"), req, store, 0).reply.value.body), "retryAfter") == Num(30.0)
      && !HasKey(ErrorOf(HandleAsWritten(fn, Some("getPlayer"), req, store, 0).reply.value.body).fields, "retryAfter")
  {
    var req := Request(None, Some("10.0.0.1"), None);
    assert ResolveRateLimit(req, "getPlayer") == RateLimitConfig("getPlayer:ip:10.0.0.1", 10, 60000);
  }
}
