/**
 * Credential resolution (src/tokens.rs).
 *
 * A stored credential is either a literal API token, used as is, or the
 * `https://` URL of a team workspace. For a workspace the program reads the
 * browser's `d` session cookie for `.slack.com`, replays it against
 * `https://<host>/customize/emoji` and scrapes the token out of the page with
 * the pattern `"api_token":"(xo[^"]+)"`.
 *
 * The browser cookie store, the HTTP client and the URL parser are outside
 * the model: an `Environment` value stands for what they answer.
 */
module Tokens {
  import opened Wrappers

  /** The literal prefix that marks a credential as a workspace URL. */
  const HttpsScheme: string := "https://"
  /** Domain and name of the browser session cookie that is looked up. */
  const SlackCookieDomain: string := ".slack.com"
  const SessionCookieName: string := "d"
  /** Path of the page the token is scraped from. */
  const ScrapePath: string := "/customize/emoji"
  /** The fixed text in front of the captured token: `"api_token":"`. */
  const TokenKey: string := "\"api_token\":\""
  /** Every scraped token starts with these two characters. */
  const TokenLead: string := "xo"

  /** What the URL parser makes of the credential. */
  datatype UrlParse = Unparseable | NoHost | Host(name: string)

  /**
   * The collaborators of `token_for_team`:
   * - `lookupCookie(domain, name)`: the browser cookie store;
   * - `clientBuilds`: whether the HTTP client could be built;
   * - `parseUrl(url)`: the URL parser, reduced to the host it finds;
   * - `fetch(url, jarCookie)`: a GET of `url` sent with the cookie jar seeded
   *   by `jarCookie`, giving the response body or a transport failure.
   */
  datatype Environment = Environment(
    lookupCookie: (string, string) -> Option<string>,
    clientBuilds: bool,
    parseUrl: string -> UrlParse,
    fetch: (string, string) -> Option<string>)

  /**
   * The failure points of `token_for_team`, in the order they are met;
   * `NoTokenInPage` is the error reported as "No token in the scraped page".
   */
  datatype TokenError =
    | CookieNotFound
    | ClientBuildFailed
    | InvalidUrl
    | EmptyHost
    | FetchFailed
    | NoTokenInPage

  /** The token together with the session cookie it must travel with. */
  datatype TokenAndCookie = TokenAndCookie(token: string, dCookie: Option<string>)

  /** Exact, case-sensitive `starts_with("https://")`. */
  predicate IsTeamUrl(credential: string) {
    |HttpsScheme| <= |credential| && credential[..|HttpsScheme|] == HttpsScheme
  }

  /** The shape every scraped token has: `xo`, at least one more character, no `"`. */
  predicate IsScrapedToken(token: string) {
    && |token| >= |TokenLead| + 1
    && token[..|TokenLead|] == TokenLead
    && forall k :: 0 <= k < |token| ==> token[k] != '"'
  }

  /** The cookie string the jar is seeded with: `d=<value>; Domain=.slack.com`. */
  function JarCookie(value: string): (r: string)
    ensures |r| == |SessionCookieName| + 1 + |value| + |"; Domain="| + |SlackCookieDomain|
    ensures r[..|SessionCookieName| + 1] == SessionCookieName + "="
    ensures r[|SessionCookieName| + 1..|SessionCookieName| + 1 + |value|] == value
    ensures r[|SessionCookieName| + 1 + |value|..] == "; Domain=" + SlackCookieDomain
  {
    SessionCookieName + "=" + value + "; Domain=" + SlackCookieDomain
  }

  /** The page scraped for a workspace host: `https://<host>/customize/emoji`. */
  function ScrapeUrl(host: string): (r: string)
    ensures IsTeamUrl(r)
    ensures |r| == |HttpsScheme| + |host| + |ScrapePath|
    ensures r[|HttpsScheme|..|HttpsScheme| + |host|] == host
    ensures r[|HttpsScheme| + |host|..] == ScrapePath
  {
    HttpsScheme + host + ScrapePath
  }

  /**
   * Resolve a credential to a token: a credential that does not start with
   * `https://` is the token itself; any other is scraped, and a scraped token
   * can never equal the credential.
   */
  function Resolve(credential: string, env: Environment): (r: Result<string, TokenError>)
    ensures r == Ok(credential) <==> !IsTeamUrl(credential)
    ensures r.Ok? && IsTeamUrl(credential) ==> IsScrapedToken(r.value)
    ensures IsTeamUrl(credential) ==> r == TokenForTeam(credential, env)
  {
    if IsTeamUrl(credential) then
      var r := TokenForTeam(credential, env);
      assert r.Ok? ==> r.value[0] == TokenLead[0] != credential[0];
      r
    else Ok(credential)
  }

  /**
   * Derive a token from a workspace URL: cookie lookup, client construction,
   * URL parse and host, fetch of the scrape page, pattern match, in that order.
   */
  function TokenForTeam(teamUrl: string, env: Environment): (r: Result<string, TokenError>)
    ensures r.Ok? ==> IsScrapedToken(r.value)
    ensures r == Err(CookieNotFound)
            <==> env.lookupCookie(SlackCookieDomain, SessionCookieName).None?
    ensures r == Err(EmptyHost)
            <==> && env.lookupCookie(SlackCookieDomain, SessionCookieName).Some?
                 && env.clientBuilds
                 && env.parseUrl(teamUrl) == NoHost
  {
    match env.lookupCookie(SlackCookieDomain, SessionCookieName)
    case None => Err(CookieNotFound)
    case Some(cookie) =>
      if !env.clientBuilds then Err(ClientBuildFailed)
      else
        match env.parseUrl(teamUrl)
        case Unparseable => Err(InvalidUrl)
        case NoHost => Err(EmptyHost)
        case Host(host) =>
          match env.fetch(ScrapeUrl(host), JarCookie(cookie))
          case None => Err(FetchFailed)
          case Some(body) =>
            match ExtractToken(body)
            case None => Err(NoTokenInPage)
            case Some(token) => Ok(token)
  }

  /**
   * The token paired with the cookie it was obtained with. tokens.rs returns
   * the token alone while slack_api.rs reads `.token` and `.d_cookie`; this is
   * the pair those callers assume: no cookie for a literal token, the looked-up
   * `d` cookie for a scraped one.
   */
  function ResolveWithCookie(credential: string, env: Environment): (r: Result<TokenAndCookie, TokenError>)
    ensures r.Ok? <==> Resolve(credential, env).Ok?
    ensures r.Ok? ==> r.value.token == Resolve(credential, env).value
    ensures r.Err? ==> r.error == Resolve(credential, env).error
    ensures r.Ok? ==> (r.value.dCookie.None? <==> !IsTeamUrl(credential))
    ensures r.Ok? && IsTeamUrl(credential)
            ==> r.value.dCookie == env.lookupCookie(SlackCookieDomain, SessionCookieName)
  {
    if !IsTeamUrl(credential) then Ok(TokenAndCookie(credential, None))
    else
      match TokenForTeam(credential, env)
      case Err(e) => Err(e)
      case Ok(token) => Ok(TokenAndCookie(token, env.lookupCookie(SlackCookieDomain, SessionCookieName)))
  }

  // ---------------------------------------------------------------------------
  // The pattern `"api_token":"(xo[^"]+)"` as a scan of the page.
  // ---------------------------------------------------------------------------

  /** Length of the maximal prefix of `s` free of `"` (what `[^"]*` consumes). */
  function QuoteFreeRun(s: string): (n: nat)
    ensures n <= |s|
    ensures forall k :: 0 <= k < n ==> s[k] != '"'
    ensures n < |s| ==> s[n] == '"'
  {
    if s == [] || s[0] == '"' then 0 else 1 + QuoteFreeRun(s[1..])
  }

  /** Where the characters after `"api_token":"xo` start, for a match at `i`. */
  function RunStart(i: nat): nat {
    i + |TokenKey| + |TokenLead|
  }

  /**
   * The pattern matches at position `i`: `"api_token":"xo` starts there, at
   * least one non-quote character follows, and the run of non-quote
   * characters is closed by a `"`.
   */
  predicate MatchesAt(body: string, i: nat) {
    && RunStart(i) <= |body|
    && body[i..i + |TokenKey|] == TokenKey
    && body[i + |TokenKey|..RunStart(i)] == TokenLead
    && var run := QuoteFreeRun(body[RunStart(i)..]);
       1 <= run && RunStart(i) + run < |body|
  }

  /** The capture group of a match at `i`: `xo` and the run after it. */
  function TokenAt(body: string, i: nat): string
    requires MatchesAt(body, i)
  {
    body[i + |TokenKey|..RunStart(i) + QuoteFreeRun(body[RunStart(i)..])]
  }

  /** The first position at or after `from` where the pattern matches. */
  function FindMatch(body: string, from: nat): (r: Option<nat>)
    requires from <= |body|
    ensures r.Some? ==> from <= r.value <= |body| && MatchesAt(body, r.value)
    ensures r.Some? ==> forall j :: from <= j < r.value ==> !MatchesAt(body, j)
    ensures r.None? ==> forall j :: from <= j ==> !MatchesAt(body, j)
    decreases |body| - from
  {
    if MatchesAt(body, from) then Some(from)
    else if from == |body| then None
    else FindMatch(body, from + 1)
  }

  /** The capture group of the leftmost match in the page, if any. */
  function ExtractToken(body: string): (r: Option<string>)
    ensures r.Some? ==> IsScrapedToken(r.value)
  {
    match FindMatch(body, 0)
    case None => None
    case Some(i) =>
      MatchAtIsCapture(body, i);
      Some(TokenAt(body, i))
  }

  /**
   * Reference meaning of the pattern, independent of the scan: at position
   * `i` the page reads `"api_token":"` + `token` + `"`, where `token` is `xo`
   * followed by at least one character and holds no `"`.
   */
  ghost predicate CaptureAt(body: string, i: nat, token: string) {
    && i + |TokenKey| + |token| < |body|
    && body[i..i + |TokenKey|] == TokenKey
    && body[i + |TokenKey|..i + |TokenKey| + |token|] == token
    && body[i + |TokenKey| + |token|] == '"'
    && IsScrapedToken(token)
  }

  /** A match found by the scan is a capture in the reference sense. */
  lemma MatchAtIsCapture(body: string, i: nat)
    requires MatchesAt(body, i)
    ensures CaptureAt(body, i, TokenAt(body, i))
  {
  }

  /** Every capture in the reference sense is found by the scan, with the same token. */
  lemma CaptureIsMatchAt(body: string, i: nat, token: string)
    requires CaptureAt(body, i, token)
    ensures MatchesAt(body, i) && TokenAt(body, i) == token
  {
  }

  /** At one position the pattern captures at most one token. */
  lemma CaptureUnique(body: string, i: nat, t1: string, t2: string)
    requires CaptureAt(body, i, t1) && CaptureAt(body, i, t2)
    ensures t1 == t2
  {
  }

  /** A token is extracted exactly when it is the capture at the leftmost capturing position. */
  lemma ExtractTokenIsLeftmostCapture(body: string, token: string)
    ensures ExtractToken(body) == Some(token)
            <==> exists i: nat :: CaptureAt(body, i, token)
                                 && forall j: nat, t :: j < i ==> !CaptureAt(body, j, t)
  {
    var found := FindMatch(body, 0);
    if ExtractToken(body) == Some(token) {
      var i := found.value;
      MatchAtIsCapture(body, i);
      forall j: nat, t | j < i ensures !CaptureAt(body, j, t) {
        if CaptureAt(body, j, t) {
          CaptureIsMatchAt(body, j, t);
        }
      }
    }
    if exists i: nat :: CaptureAt(body, i, token) && forall j: nat, t :: j < i ==> !CaptureAt(body, j, t) {
      var i: nat :| CaptureAt(body, i, token) && forall j: nat, t :: j < i ==> !CaptureAt(body, j, t);
      CaptureIsMatchAt(body, i, token);
      assert found.Some?;
      var f := found.value;
      MatchAtIsCapture(body, f);
      assert f == i;
      CaptureUnique(body, i, TokenAt(body, f), token);
    }
  }

  /** The page yields no token exactly when the pattern captures nowhere in it. */
  lemma NoTokenIffNoCapture(body: string)
    ensures ExtractToken(body).None? <==> forall i: nat, t :: !CaptureAt(body, i, t)
  {
    if ExtractToken(body).None? {
      forall i: nat, t ensures !CaptureAt(body, i, t) {
        if CaptureAt(body, i, t) {
          CaptureIsMatchAt(body, i, t);
        }
      }
    } else {
      MatchAtIsCapture(body, FindMatch(body, 0).value);
    }
  }

  /** `part` occurs in `whole` starting at position `i`. */
  predicate OccursAt(whole: string, i: nat, part: string) {
    i + |part| <= |whole| && whole[i..i + |part|] == part
  }

  /** A scraped token is a contiguous part of the page. */
  lemma ExtractedTokenInPage(body: string)
    requires ExtractToken(body).Some?
    ensures exists i: nat :: OccursAt(body, i, ExtractToken(body).value)
  {
    var f := FindMatch(body, 0).value;
    MatchAtIsCapture(body, f);
    assert OccursAt(body, f + |TokenKey|, ExtractToken(body).value);
  }

  // ---------------------------------------------------------------------------
  // Properties of the resolution pipeline.
  // ---------------------------------------------------------------------------

  /** A literal token is resolved without consulting cookies, URL parser or network. */
  lemma LiteralIgnoresEnvironment(credential: string, env1: Environment, env2: Environment)
    requires !IsTeamUrl(credential)
    ensures Resolve(credential, env1) == Resolve(credential, env2) == Ok(credential)
  {
  }

  /** The scheme test is exact and case-sensitive: `HTTPS://` and `http://` mark literal tokens. */
  lemma SchemeTestIsCaseSensitive(env: Environment)
    ensures Resolve("HTTPS://team.slack.com", env) == Ok("HTTPS://team.slack.com")
    ensures Resolve("http://team.slack.com", env) == Ok("http://team.slack.com")
  {
    assert !IsTeamUrl("HTTPS://team.slack.com") by {
      assert "HTTPS://team.slack.com"[1] != HttpsScheme[1];
    }
    assert !IsTeamUrl("http://team.slack.com") by {
      assert "http://team.slack.com"[4] != HttpsScheme[4];
    }
  }

  /** Of the team URL only the host counts: its scheme, path and query are discarded. */
  lemma OnlyHostMatters(url1: string, url2: string, env: Environment)
    requires env.parseUrl(url1) == env.parseUrl(url2)
    ensures TokenForTeam(url1, env) == TokenForTeam(url2, env)
  {
  }

  /**
   * Each failure is reached only after every earlier step succeeded, and the
   * last one means the fetched page holds no capture of the pattern anywhere.
   */
  lemma {:induction false} FailureOrder(teamUrl: string, env: Environment)
    ensures var r := TokenForTeam(teamUrl, env);
            var cookie := env.lookupCookie(SlackCookieDomain, SessionCookieName);
            && (r == Err(ClientBuildFailed) <==> cookie.Some? && !env.clientBuilds)
            && (r == Err(InvalidUrl) <==> cookie.Some? && env.clientBuilds && env.parseUrl(teamUrl) == Unparseable)
            && (r == Err(FetchFailed)
                <==> && cookie.Some? && env.clientBuilds && env.parseUrl(teamUrl).Host?
                     && env.fetch(ScrapeUrl(env.parseUrl(teamUrl).name), JarCookie(cookie.value)).None?)
            && (r == Err(NoTokenInPage)
                <==> && cookie.Some? && env.clientBuilds && env.parseUrl(teamUrl).Host?
                     && var page := env.fetch(ScrapeUrl(env.parseUrl(teamUrl).name), JarCookie(cookie.value));
                        page.Some? && forall i: nat, t :: !CaptureAt(page.value, i, t))
  {
    var cookie := env.lookupCookie(SlackCookieDomain, SessionCookieName);
    if cookie.Some? && env.clientBuilds && env.parseUrl(teamUrl).Host? {
      var page := env.fetch(ScrapeUrl(env.parseUrl(teamUrl).name), JarCookie(cookie.value));
      if page.Some? {
        NoTokenIffNoCapture(page.value);
      }
    }
  }

  /**
   * A scraped token is the leftmost capture of the page fetched from
   * `https://<host>/customize/emoji` with the jar seeded by the looked-up cookie.
   */
  lemma {:induction false} ScrapedTokenOrigin(teamUrl: string, env: Environment, token: string)
    ensures TokenForTeam(teamUrl, env) == Ok(token)
            <==> && env.lookupCookie(SlackCookieDomain, SessionCookieName).Some?
                 && env.clientBuilds
                 && env.parseUrl(teamUrl).Host?
                 && var page := env.fetch(ScrapeUrl(env.parseUrl(teamUrl).name),
                                          JarCookie(env.lookupCookie(SlackCookieDomain, SessionCookieName).value));
                    && page.Some?
                    && exists i: nat :: CaptureAt(page.value, i, token)
                                       && forall j: nat, t :: j < i ==> !CaptureAt(page.value, j, t)
  {
    var cookie := env.lookupCookie(SlackCookieDomain, SessionCookieName);
    if cookie.Some? && env.clientBuilds && env.parseUrl(teamUrl).Host? {
      var page := env.fetch(ScrapeUrl(env.parseUrl(teamUrl).name), JarCookie(cookie.value));
      if page.Some? {
        ExtractTokenIsLeftmostCapture(page.value, token);
      }
    }
  }

  /** A page embedding `"api_token":"xoxp-12345"` yields exactly `xoxp-12345`. */
  lemma ExampleTokenScraped()
    ensures ExtractToken("{\"api_token\":\"xoxp-12345\"}") == Some("xoxp-12345")
  {
    var body := "{\"api_token\":\"xoxp-12345\"}";
    var token := "xoxp-12345";
    var pre := "{" + TokenKey;
    assert body == pre + token + "\"}";
    assert body[..|pre|] == pre;
    assert body[1..1 + |TokenKey|] == pre[1..] == TokenKey;
    assert body[|pre|..|pre| + |token|] == token;
    assert CaptureAt(body, 1, token);
    forall j: nat, t | j < 1 ensures !CaptureAt(body, j, t) {
      assert body[0] != TokenKey[0];
    }
    ExtractTokenIsLeftmostCapture(body, token);
  }

  /** A page without the key, or whose `xo` run is never closed by a quote, yields no token. */
  lemma ExampleNoTokenScraped()
    ensures ExtractToken("{\"ok\":true}").None?
    ensures ExtractToken("\"api_token\":\"xoxp").None?
  {
  }
}
