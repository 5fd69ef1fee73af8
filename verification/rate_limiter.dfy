/**
 * The fixed-window rate limiter. The process-wide map from bucket key to
 * `{count, resetAt}` is explicit state and the clock reading `now` (epoch
 * milliseconds) is a parameter. An allowed call yields the new map; a denied
 * call is the thrown 429 error and leaves the map as it was.
 */
module RateLimiter {
  import opened Errors
  import opened JsNumbers

  datatype RateEntry = RateEntry(count: int, resetAt: int)

  type RateStore = map<string, RateEntry>

  /** Seconds until the window closes, rounded up. */
  function RetryAfter(resetAt: int, now: int): (s: int)
    ensures (s - 1) * 1000 < resetAt - now <= s * 1000
  {
    CeilDiv(resetAt - now, 1000)
  }

  /** The error thrown on denial, carrying `retryAfter`. */
  function RateLimited(resetAt: int, now: int): Error {
    ApiError(429, "rate_limited", "Too many requests", Some(RetryAfter(resetAt, now)))
  }

  /** Whether the call at `now` starts a new window: the key has no entry or
    * its window closed strictly before `now`. */
  predicate StartsWindow(store: RateStore, key: string, now: int) {
    key !in store || store[key].resetAt < now
  }

  /** `rateLimit(key, limit, windowMs)` at time `now`. */
  function RateLimit(store: RateStore, key: string, limit: int, windowMs: int, now: int): (r: Result<RateStore>)
    ensures StartsWindow(store, key, now) ==> r == Ok(store[key := RateEntry(1, now + windowMs)])
    ensures !StartsWindow(store, key, now) && store[key].count < limit ==>
      r == Ok(store[key := RateEntry(store[key].count + 1, store[key].resetAt)])
    ensures !StartsWindow(store, key, now) && store[key].count >= limit ==>
      && r.Err? && r.error.ApiError?
      && r.error.status == 429 && r.error.code == "rate_limited"
      && r.error.retryAfter.Some? && r.error.retryAfter.value >= 0
      && (r.error.retryAfter.value - 1) * 1000 < store[key].resetAt - now <= r.error.retryAfter.value * 1000
    ensures r.Ok? ==> r.value.Keys == store.Keys + {key}
    ensures r.Ok? ==> forall k :: k in store && k != key ==> r.value[k] == store[k]
  {
    if key !in store || store[key].resetAt < now then
      Ok(store[key := RateEntry(1, now + windowMs)])
    else if store[key].count >= limit then
      Err(RateLimited(store[key].resetAt, now))
    else
      Ok(store[key := RateEntry(store[key].count + 1, store[key].resetAt)])
  }

  /** The error the code as written throws: `ApiError`'s constructor
    * takes three parameters, so the fourth argument `retryAfter` is dropped. */
  function RateLimitedAsWritten(resetAt: int, now: int): (e: Error)
    ensures e.ApiError? && e.status == 429 && e.retryAfter.None?
  {
    Api(429, "rate_limited", "Too many requests")
  }

  /** `rateLimit` as the code is written: the same transitions, but the
    * denial is `RateLimitedAsWritten`. */
  function RateLimitAsWritten(store: RateStore, key: string, limit: int, windowMs: int, now: int): (r: Result<RateStore>)
    ensures r.Err? ==> r.error.ApiError? && r.error.retryAfter.None?
  {
    if key !in store || store[key].resetAt < now then
      Ok(store[key := RateEntry(1, now + windowMs)])
    else if store[key].count >= limit then
      Err(RateLimitedAsWritten(store[key].resetAt, now))
    else
      Ok(store[key := RateEntry(store[key].count + 1, store[key].resetAt)])
  }

  /** The two limiters admit and deny the same calls with the same new
    * state; their errors differ only in `retryAfter`. */
  lemma AsWrittenDiffersOnlyInRetryAfter(store: RateStore, key: string, limit: int, windowMs: int, now: int)
    ensures var w := RateLimitAsWritten(store, key, limit, windowMs, now);
      var c := RateLimit(store, key, limit, windowMs, now);
      && (w.Ok? <==> c.Ok?)
      && (w.Ok? ==> w == c)
      && (w.Err? ==> w.error == c.error.(retryAfter := None))
  {
  }

  /** The count of a bucket stays between 1 and `max(limit, 1)` under calls
    * with one limit: a denied call never increments it. */
  lemma CountStaysBounded(store: RateStore, key: string, limit: int, windowMs: int, now: int)
    requires key in store ==> 1 <= store[key].count <= if limit < 1 then 1 else limit
    ensures var r := RateLimit(store, key, limit, windowMs, now);
      r.Ok? ==> 1 <= r.value[key].count <= if limit < 1 then 1 else limit
  {
  }

  /** The window boundary belongs to the old window: at `now == resetAt` a full
    * bucket is still denied, and one millisecond later it is reset. */
  lemma WindowBoundary(store: RateStore, key: string, limit: int, windowMs: int)
    requires key in store && store[key].count >= limit
    ensures RateLimit(store, key, limit, windowMs, store[key].resetAt).Err?
    ensures RateLimit(store, key, limit, windowMs, store[key].resetAt).error.retryAfter == Some(0)
    ensures var t := store[key].resetAt + 1;
      RateLimit(store, key, limit, windowMs, t) == Ok(store[key := RateEntry(1, t + windowMs)])
  {
  }

  /** Allowed/denied outcome of each call in a sequence on one bucket, and the
    * store after the last call. */
  function Replay(store: RateStore, key: string, limit: int, windowMs: int, times: seq<int>): (seq<bool>, RateStore)
    decreases |times|
  {
    if times == [] then ([], store)
    else
      match RateLimit(store, key, limit, windowMs, times[0])
      case Ok(next) =>
        var (flags, last) := Replay(next, key, limit, windowMs, times[1..]);
        ([true] + flags, last)
      case Err(_) =>
        var (flags, last) := Replay(store, key, limit, windowMs, times[1..]);
        ([false] + flags, last)
  }

  function Repeat(b: bool, n: nat): (s: seq<bool>)
    ensures |s| == n && forall i :: 0 <= i < n ==> s[i] == b
  {
    if n == 0 then [] else [b] + Repeat(b, n - 1)
  }

  /** Inside an open window that has admitted `count` calls, the next
    * `limit - count` calls pass and the one after is denied. */
  lemma {:induction false} OpenWindowAdmits(store: RateStore, key: string, limit: int, windowMs: int, times: seq<int>)
    requires key in store && 1 <= store[key].count <= limit
    requires |times| == limit - store[key].count + 1
    requires forall i :: 0 <= i < |times| ==> times[i] <= store[key].resetAt
    ensures Replay(store, key, limit, windowMs, times).0 == Repeat(true, limit - store[key].count) + [false]
    decreases |times|
  {
    var e := store[key];
    if e.count == limit {
      assert times[1..] == [];
      assert Repeat(true, 0) + [false] == [false];
    } else {
      var next := store[key := RateEntry(e.count + 1, e.resetAt)];
      assert RateLimit(store, key, limit, windowMs, times[0]) == Ok(next);
      OpenWindowAdmits(next, key, limit, windowMs, times[1..]);
      assert Repeat(true, limit - e.count) == [true] + Repeat(true, limit - e.count - 1);
    }
  }

  /** A bucket that starts a fresh window at time `t` with limit N >= 1 admits
    * exactly N calls at times up to `t + windowMs` and denies the next. */
  lemma FreshWindowAdmitsExactlyLimit(store: RateStore, key: string, limit: int, windowMs: int, times: seq<int>)
    requires limit >= 1
    requires |times| == limit + 1
    requires StartsWindow(store, key, times[0])
    requires forall i :: 0 <= i < |times| ==> times[i] <= times[0] + windowMs
    ensures Replay(store, key, limit, windowMs, times).0 == Repeat(true, limit) + [false]
  {
    var next := store[key := RateEntry(1, times[0] + windowMs)];
    assert RateLimit(store, key, limit, windowMs, times[0]) == Ok(next);
    OpenWindowAdmits(next, key, limit, windowMs, times[1..]);
    assert Repeat(true, limit) == [true] + Repeat(true, limit - 1);
  }
}
