/**
 * Session identity: the opaque `sessionId` cookie that partitions the table into
 * per-session ledgers, the cookie the create route issues, and the gate the
 * session-scoped routes sit behind.
 */
module Session {
  import opened Wrappers

  const CookieName: string := "sessionId"
  const CookiePath: string := "/"
  /** Seven days, in seconds. */
  const CookieMaxAge: int := 60 * 60 * 24 * 7

  /** A `Set-Cookie` instruction attached to a reply. */
  datatype Cookie = Cookie(name: string, value: string, path: string, maxAge: int)

  /**
   * JavaScript truthiness of `request.cookies.sessionId`: an absent cookie and an
   * empty one are both falsy.
   */
  predicate Present(cookie: Option<string>)
    ensures Present(cookie) ==> cookie.Some? && |cookie.value| > 0
    ensures cookie == Some("") ==> !Present(cookie)
  {
    cookie.Some? && cookie.value != ""
  }

  /** The cookie that carries a freshly issued session id back to the client. */
  function Issue(token: string): (c: Cookie)
    ensures c.name == "sessionId" && c.value == token
    ensures c.path == "/" && c.maxAge == 604800
  {
    Cookie(CookieName, token, CookiePath, CookieMaxAge)
  }

  /** What the session gate lets through: the cookie's token, or nothing (a 401). */
  function Gate(cookie: Option<string>): (r: Option<string>)
    ensures r.Some? <==> Present(cookie)
    ensures r.Some? ==> cookie == Some(r.value) && r.value != ""
  {
    if Present(cookie) then Some(cookie.value) else None
  }
}
