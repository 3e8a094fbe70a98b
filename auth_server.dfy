/** lib/auth-server.ts: finding the signed-in user of a server-side request.
    The session cookie is tried first, then an `Authorization: Bearer`
    header; verifying a token (`supabase.auth.getUser`) is an oracle that
    yields a user or nothing. */
module AuthServer {
  import opened Wrappers
  import Text

  datatype User = User(id: string)

  /** The part of an incoming request the lookup reads: the value of its
      `authorization` header, if it has one. */
  datatype Request = Request(authorization: Option<string>)

  const AccessTokenCookie: string := "sb-access-token"
  const BearerPrefix: string := "Bearer "

  /** `cookieStore.get("sb-access-token")?.value`. */
  function AccessToken(cookies: map<string, string>): Option<string> {
    if AccessTokenCookie in cookies then Some(cookies[AccessTokenCookie]) else None
  }

  /** `if (authHeader?.startsWith("Bearer ")) authHeader.substring(7)`: the
      token of a Bearer header, nothing for a missing or other header. */
  function BearerToken(header: Option<string>): (r: Option<string>)
    ensures r.Some? <==> header.Some? && Text.StartsWith(header.value, BearerPrefix)
    ensures r.Some? ==> header.value == BearerPrefix + r.value
  {
    if header.Some? && Text.StartsWith(header.value, BearerPrefix) then Some(Text.Drop(header.value, 7))
    else None
  }

  /** A Bearer header gives back exactly the token it was built from. */
  lemma BearerRoundTrip(token: string)
    ensures BearerToken(Some(BearerPrefix + token)) == Some(token)
  {
    var h := BearerPrefix + token;
    assert h[..|BearerPrefix|] == BearerPrefix;
  }

  /** The verified user of a non-empty cookie token, if any. */
  function CookieUser(cookies: map<string, string>, verify: string -> Option<User>): Option<User> {
    var token := AccessToken(cookies);
    if token.Some? && token.value != "" then verify(token.value) else None
  }

  /** `getServerUser(request?)`. A user is only ever one the oracle vouched
      for, for the cookie token or for the Bearer token of the request;
      without either the result is `null`, never an error. */
  function GetServerUser(
    cookies: map<string, string>, request: Option<Request>, verify: string -> Option<User>): (r: Option<User>)
    ensures var header := if request.Some? then BearerToken(request.value.authorization) else None;
      && (r.Some? ==>
            || (AccessToken(cookies).Some? && r == verify(AccessToken(cookies).value))
            || (header.Some? && r == verify(header.value)))
      && (AccessToken(cookies).None? && header.None? ==> r.None?)
  {
    var fromCookie := CookieUser(cookies, verify);
    if fromCookie.Some? then fromCookie
    else if request.Some? && BearerToken(request.value.authorization).Some? then
      verify(BearerToken(request.value.authorization).value)
    else None
  }

  /** A cookie token that verifies decides the user, whatever the request
      carries: the header is not consulted. */
  lemma CookieComesFirst(
    cookies: map<string, string>, r1: Option<Request>, r2: Option<Request>, verify: string -> Option<User>)
    requires AccessTokenCookie in cookies && cookies[AccessTokenCookie] != ""
    requires verify(cookies[AccessTokenCookie]).Some?
    ensures GetServerUser(cookies, r1, verify) == verify(cookies[AccessTokenCookie])
    ensures GetServerUser(cookies, r1, verify) == GetServerUser(cookies, r2, verify)
  {
  }

  /** A missing, empty or unverified cookie token falls through to the
      header, which counts only when it is a Bearer header; its token is the
      header without its first seven characters. */
  lemma HeaderFallback(cookies: map<string, string>, request: Option<Request>, verify: string -> Option<User>)
    requires CookieUser(cookies, verify).None?
    ensures GetServerUser(cookies, request, verify) ==
      if request.Some? && request.value.authorization.Some?
         && Text.StartsWith(request.value.authorization.value, BearerPrefix)
      then verify(request.value.authorization.value[7..])
      else None
  {
    if request.Some? && request.value.authorization.Some? {
      var h := request.value.authorization.value;
      if Text.StartsWith(h, BearerPrefix) {
        assert BearerToken(request.value.authorization) == Some(h[7..]);
      }
    }
  }
}
