/**
 * The transport the profile calls go through (src/slack_api_client.rs),
 * reduced to its one decision: which default headers the client sends.
 */
module SlackApiClient {
  import opened Wrappers

  /** Name of the header that carries the session cookie. */
  const CookieHeader: string := "Cookie"

  /**
   * Default headers of the API client: a `Cookie: d=<value>` header exactly
   * when a session cookie accompanies the token, and nothing else.
   */
  function DefaultHeaders(dCookie: Option<string>): (h: map<string, string>)
    ensures CookieHeader in h <==> dCookie.Some?
    ensures h.Keys <= {CookieHeader}
    ensures CookieHeader in h ==> |h[CookieHeader]| >= 2 && h[CookieHeader][..2] == "d=" && h[CookieHeader][2..] == dCookie.value
  {
    match dCookie
    case None => map[]
    case Some(value) => map[CookieHeader := "d=" + value]
  }
}
