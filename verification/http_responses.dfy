/**
 * The success envelope `ok(data, options)` and the error mapping
 * `fail(res, error)` of the HTTP layer. A response is its status code and its
 * JSON body; the clock reading `now` (epoch milliseconds) is a parameter.
 */
module HttpResponses {
  import opened Errors
  import opened Json

  datatype Reply = Reply(status: int, body: Json)

  /** `{error: {code, message, ...extra}}`. */
  function ErrorBody(code: string, message: string, extra: seq<Field>): Json {
    Obj([Field("error", Obj([Field("code", Str(code)), Field("message", Str(message))] + extra))])
  }

  /** The `error` object of a reply body. */
  function ErrorOf(body: Json): Json {
    Get(body, "error")
  }

  lemma ErrorBodyReads(code: string, message: string, extra: seq<Field>)
    ensures ErrorOf(ErrorBody(code, message, extra)) == Obj([Field("code", Str(code)), Field("message", Str(message))] + extra)
    ensures Get(ErrorOf(ErrorBody(code, message, extra)), "code") == Str(code)
    ensures Get(ErrorOf(ErrorBody(code, message, extra)), "message") == Str(message)
  {
    var inner := [Field("code", Str(code)), Field("message", Str(message))] + extra;
    LookupFirst(ErrorBody(code, message, extra).fields, 0);
    LookupFirst(inner, 0);
    LookupFirst(inner, 1);
  }

  /** `fail(res, error)`: an `ApiError` keeps its status, code and message;
    * anything else is a 500 `internal_error`. No other field is written. */
  function Fail(e: Error): (r: Reply)
    ensures ErrorOf(r.body).Obj? && |ErrorOf(r.body).fields| == 2
    ensures !HasKey(ErrorOf(r.body).fields, "retryAfter")
    ensures e.ApiError? ==>
      && r.status == e.status
      && Get(ErrorOf(r.body), "code") == Str(e.code)
      && Get(ErrorOf(r.body), "message") == Str(e.message)
    ensures !e.ApiError? ==>
      && r.status == 500
      && Get(ErrorOf(r.body), "code") == Str("internal_error")
      && Get(ErrorOf(r.body), "message") == Str("Internal server error")
  {
    if e.ApiError? then
      ErrorBodyReads(e.code, e.message, []);
      Reply(e.status, ErrorBody(e.code, e.message, []))
    else
      ErrorBodyReads("internal_error", "Internal server error", []);
      Reply(500, ErrorBody("internal_error", "Internal server error", []))
  }

  /** `ok(data, options)` at time `now`. */
  function OkEnvelope(data: Json, options: Json, now: int): (r: Json)
    ensures r.Obj? && DistinctKeys(r.fields)
    ensures Get(r, "data") == data
    ensures Get(Get(r, "meta"), "timestamp") == Num(now as real)
    ensures IsNullish(Get(options, "cached")) ==> Get(Get(r, "meta"), "cached") == Bool(false)
    ensures !IsNullish(Get(options, "cached")) ==> Get(Get(r, "meta"), "cached") == Get(options, "cached")
    ensures HasKey(r.fields, "pagination") <==> Truthy(Get(options, "pagination"))
    ensures HasKey(r.fields, "pagination") ==> Get(r, "pagination") == Get(options, "pagination")
    ensures forall i :: 0 <= i < |r.fields| ==> r.fields[i].key in {"data", "meta", "pagination"}
  {
    var meta := Obj([Field("cached", Coalesce(Get(options, "cached"), Bool(false))), Field("timestamp", Num(now as real))]);
    var pagination := Get(options, "pagination");
    var fields := [Field("data", data), Field("meta", meta)]
      + if Truthy(pagination) then [Field("pagination", pagination)] else [];
    assert Truthy(pagination) ==> fields[2].key == "pagination";
    LookupCons(meta.fields[0], meta.fields[1..], "timestamp");
    LookupCons(fields[0], fields[1..], "meta");
    LookupCons(fields[1], fields[2..], "meta");
    if Truthy(pagination) then
      LookupFirst(fields, 2);
      Obj(fields)
    else
      Obj(fields)
  }

  /** An explicit `cached: false` stays false and `cached: true` stays true;
    * only a missing flag defaults. The `meta` object never carries pagination. */
  lemma CachedFlag(data: Json, now: int, b: bool)
    ensures Get(Get(OkEnvelope(data, Obj([Field("cached", Bool(b))]), now), "meta"), "cached") == Bool(b)
    ensures Get(Get(OkEnvelope(data, Undefined, now), "meta"), "cached") == Bool(false)
    ensures !HasKey(Get(OkEnvelope(data, Undefined, now), "meta").fields, "pagination")
  {
    LookupFirst(OkEnvelope(data, Undefined, now).fields, 1);
  }
}

/**
 * The newer envelope `ok(res, data, meta)`: the timestamp is in seconds and
 * every caller-supplied meta property, `timestamp` included, overrides the
 * default because it is spread afterwards.
 */
module Response {
  import opened Json

  /** `Math.floor(now / 1000)` for a millisecond clock. */
  function Seconds(now: int): (s: int)
    ensures s * 1000 <= now < s * 1000 + 1000
  {
    now / 1000
  }

  /** Spreading caller meta over the default timestamp leaves every other
    * key as the caller gave it. */
  lemma SpreadOverTimestamp(stamp: Json, meta: seq<Field>)
    requires DistinctKeys(meta)
    ensures forall k :: k != "timestamp" ==> Lookup(Spread([Field("timestamp", stamp)], meta), k) == Lookup(meta, k)
  {
    var base := [Field("timestamp", stamp)];
    SpreadLookup(base, meta);
    forall k | k != "timestamp"
      ensures Lookup(Spread(base, meta), k) == Lookup(meta, k)
    {
      if !HasKey(meta, k) {
        LookupAbsent(base, k);
        LookupAbsent(meta, k);
      }
    }
  }

  /** The body sent by `ok(res, data, meta)`; `meta` is the own properties of
    * the supplied object, `[]` when it is omitted. */
  function OkBody(data: Json, meta: seq<Field>, now: int): (r: Json)
    ensures r.Obj? && |r.fields| == 2 && r.fields[0] == Field("data", data)
    ensures Get(r, "data") == data
    ensures DistinctKeys(meta) ==> Get(r, "meta").Obj? && DistinctKeys(Get(r, "meta").fields)
    ensures DistinctKeys(meta) && !HasKey(meta, "timestamp") ==> Get(Get(r, "meta"), "timestamp") == Num(Seconds(now) as real)
    ensures DistinctKeys(meta) && HasKey(meta, "timestamp") ==> Get(Get(r, "meta"), "timestamp") == Lookup(meta, "timestamp")
    ensures DistinctKeys(meta) ==> forall k :: k != "timestamp" ==> Get(Get(r, "meta"), k) == Lookup(meta, k)
    ensures DistinctKeys(meta) ==> forall k :: HasKey(Get(r, "meta").fields, k) <==> k == "timestamp" || HasKey(meta, k)
  {
    var base := [Field("timestamp", Num(Seconds(now) as real))];
    if DistinctKeys(meta) then
      SpreadLookup(base, meta);
      SpreadOverTimestamp(Num(Seconds(now) as real), meta);
      var r := Obj([Field("data", data), Field("meta", Obj(Spread(base, meta)))]);
      LookupFirst(r.fields, 1);
      r
    else
      Obj([Field("data", data), Field("meta", Obj(Spread(base, meta)))])
  }

  /** Without caller meta the body is exactly data plus a seconds timestamp;
    * `cached` and `pagination` appear only when supplied. */
  lemma DefaultMeta(data: Json, now: int)
    ensures OkBody(data, [], now) == Obj([Field("data", data), Field("meta", Obj([Field("timestamp", Num(Seconds(now) as real))]))])
    ensures !HasKey(Get(OkBody(data, [], now), "meta").fields, "cached")
    ensures !HasKey(Get(OkBody(data, [], now), "meta").fields, "pagination")
  {
  }
}
