/**
 * The parts of an incoming HTTP request the core reads, and the
 * authentication context derived from its `authorization` header. No token
 * is verified yet: any `Bearer ` header is accepted and every authenticated
 * caller gets the same placeholder uid.
 */
module AuthContext {
  import opened Errors

  /** `req.headers.authorization`, `req.ip` and
    * `req.headers["x-forwarded-for"]`. */
  datatype Request = Request(
    authorization: Option<string>,
    ip: Option<string>,
    forwardedFor: Option<string>)

  datatype Auth = Auth(isAuthenticated: bool, uid: Option<string>)

  const BearerPrefix: string := "Bearer "
  const PlaceholderUid: string := "future-user"

  /** A string header value is truthy when present and non-empty. */
  predicate Present(h: Option<string>) {
    h.Some? && h.value != ""
  }

  function GetAuthContext(req: Request): (a: Auth)
    ensures a.isAuthenticated <==> req.authorization.Some? && BearerPrefix <= req.authorization.value
    ensures a.isAuthenticated ==> a.uid == Some(PlaceholderUid)
    ensures !a.isAuthenticated ==> a.uid == None
  {
    if !Present(req.authorization) || !(BearerPrefix <= req.authorization.value) then
      Auth(false, None)
    else
      Auth(true, Some(PlaceholderUid))
  }

  /** The prefix test is exact: case and the trailing space matter, and an
    * empty token still authenticates. */
  lemma BearerPrefixIsExact(req: Request)
    ensures req.authorization == Some("Bearer ") ==> GetAuthContext(req).isAuthenticated
    ensures req.authorization == Some("bearer x") ==> !GetAuthContext(req).isAuthenticated
    ensures req.authorization == Some("Bearer") ==> !GetAuthContext(req).isAuthenticated
    ensures req.authorization == Some("") ==> GetAuthContext(req) == Auth(false, None)
    ensures req.authorization == None ==> GetAuthContext(req) == Auth(false, None)
  {
    assert "bearer x"[0] != BearerPrefix[0];
    assert |"Bearer"| < |BearerPrefix|;
  }
}
