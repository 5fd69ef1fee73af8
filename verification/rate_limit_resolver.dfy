/**
 * Choice of the rate-limit bucket, limit and window for a request to a named
 * endpoint: 20 calls a minute, 10 for the expensive listings, five times as
 * many for an authenticated caller, bucketed per user or per client address.
 */
module RateLimitResolver {
  import opened Errors
  import opened AuthContext

  datatype RateLimitConfig = RateLimitConfig(key: string, limit: int, windowMs: int)

  const DefaultLimit: int := 20
  const ExpensiveLimit: int := 10
  const WindowMs: int := 60000
  const AuthenticatedFactor: int := 5

  predicate IsExpensive(endpoint: string) {
    endpoint in ["getMatches", "getTeamPlayers", "getPlayer"]
  }

  /** `req.ip || req.headers["x-forwarded-for"] || "unknown"`. */
  function ClientAddress(req: Request): (ip: string)
    ensures Present(req.ip) ==> ip == req.ip.value
    ensures !Present(req.ip) && Present(req.forwardedFor) ==> ip == req.forwardedFor.value
    ensures !Present(req.ip) && !Present(req.forwardedFor) ==> ip == "unknown"
  {
    if Present(req.ip) then req.ip.value
    else if Present(req.forwardedFor) then req.forwardedFor.value
    else "unknown"
  }

  /** The limit an anonymous caller gets on `endpoint`. */
  function BaseLimit(endpoint: string): int {
    if IsExpensive(endpoint) then ExpensiveLimit else DefaultLimit
  }

  function ResolveRateLimit(req: Request, endpoint: string): (c: RateLimitConfig)
    ensures c.windowMs == 60000
    ensures c.limit in {10, 20, 50, 100}
    ensures GetAuthContext(req).isAuthenticated ==>
      c.limit == 5 * BaseLimit(endpoint) && c.key == endpoint + ":user:" + PlaceholderUid
    ensures !GetAuthContext(req).isAuthenticated ==>
      c.limit == BaseLimit(endpoint) && c.key == endpoint + ":ip:" + ClientAddress(req)
  {
    var auth := GetAuthContext(req);
    var ip := ClientAddress(req);
    var base := if IsExpensive(endpoint) then ExpensiveLimit else DefaultLimit;
    var limit := if auth.isAuthenticated then base * AuthenticatedFactor else base;
    var key := if auth.isAuthenticated then endpoint + ":user:" + auth.uid.value else endpoint + ":ip:" + ip;
    RateLimitConfig(key, limit, WindowMs)
  }

  /** The limit depends only on the endpoint and on whether the caller is
    * authenticated, not on the address. */
  lemma LimitIgnoresAddress(a: Request, b: Request, endpoint: string)
    requires GetAuthContext(a).isAuthenticated == GetAuthContext(b).isAuthenticated
    ensures ResolveRateLimit(a, endpoint).limit == ResolveRateLimit(b, endpoint).limit
  {
  }

  /** Every authenticated caller of an endpoint lands in the same bucket,
    * whatever token or address it sends. */
  lemma AuthenticatedCallersShareBucket(a: Request, b: Request, endpoint: string)
    requires GetAuthContext(a).isAuthenticated && GetAuthContext(b).isAuthenticated
    ensures ResolveRateLimit(a, endpoint).key == ResolveRateLimit(b, endpoint).key
  {
  }

  /** The base limit is 10 exactly for the three expensive endpoints. */
  lemma BaseLimits(endpoint: string)
    ensures BaseLimit(endpoint) == 10 <==> endpoint == "getMatches" || endpoint == "getTeamPlayers" || endpoint == "getPlayer"
    ensures BaseLimit(endpoint) != 10 ==> BaseLimit(endpoint) == 20
  {
  }
}
