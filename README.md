# slack_status: credential resolution and status calls, in Dafny

This project models the core of `slack_status`, a small command-line tool
that sets or reads a user's Slack status (emoji, text, optional expiration)
for configured accounts.

- **Credential resolution** (`tokens.dfy`, module `Tokens`). A credential
  that does not start with exactly `https://` is a literal API token and is
  used as is. Any other credential is a team workspace URL. For that URL the
  tool looks up the browser's `d` cookie for `.slack.com`, seeds an HTTP
  cookie jar with `d=<value>; Domain=.slack.com` and builds the client. It
  then parses the URL, keeps only its host, fetches
  `https://<host>/customize/emoji` and scrapes the token with the pattern
  `"api_token":"(xo[^"]+)"`. The pattern is modelled as a recursive scan of
  the page (`QuoteFreeRun`, `MatchesAt`, `FindMatch`, `ExtractToken`). It is
  proved equal to a reference reading (`CaptureAt`): the token is the
  capture at the leftmost position where the page reads `"api_token":"`,
  then `xo`, then at least one non-quote character, then a closing `"`.
- **Client headers** (`slack_api_client.dfy`, module `SlackApiClient`). The
  API client sends `Cookie: d=<value>` exactly when a session cookie
  accompanies the token.
- **Status operations** (`slack_api.dfy`, module `SlackApi`). Both get and
  set resolve the credential first. A set computes the expiration (`now +
  duration*60`, or `0` without a duration), builds the three-field profile
  object and makes one users.profile.set call. A get makes one
  users.profile.get call and reads back the status text. A missing profile
  is the error "User profile was not returned". A missing status text reads
  as `""`.

The browser cookie store, the HTTP client, the URL parser and the remote API
are not modelled. They are parameters: `Tokens.Environment` holds the cookie
lookup, whether the client builds, the URL parser reduced to its host, and
the page fetch. `SlackApi.Remote` holds whether the API client builds and
the two profile calls. The current time is the parameter `now`.

Behaviour of the code that the model keeps:
- The failure order is cookie lookup, then client construction, then URL
  parse, then host, then fetch, then pattern match (src/tokens.rs:18-47).
  So a host-less URL with no cookie fails on the cookie.
- The scrape fetch does not check the HTTP status (src/tokens.rs:41). Any
  body the transport returns is scanned. `fetch` fails only on a transport
  error.
- A URL that does not parse (`InvalidUrl`) and a URL with no host
  (`EmptyHost`) are separate failures, as in src/tokens.rs:37-38.

The source is inconsistent with itself. `resolve` in src/tokens.rs:8 returns
only the token, while src/slack_api.rs:17-19 and 25 read `.token` and
`.d_cookie` from its result. `Tokens.Resolve` models src/tokens.rs as
written. `Tokens.ResolveWithCookie` is the pair the callers assume, stated
as an explicit assumption: no cookie on the literal-token path, and the
looked-up `d` cookie on the URL path. It is proved to agree with `Resolve`
on success, token and error.

## Model

| member | source | states |
|---|---|---|
| `Tokens.Resolve` | src/tokens.rs:8-14 | the result is the credential unchanged exactly when it does not start with `https://` (case-sensitive); a credential that does start with it always goes through `TokenForTeam`, so a successful result is a scraped token: it starts with `xo`, is at least 3 long and has no `"` |
| `Tokens.TokenForTeam` | src/tokens.rs:17-50 | a scraped token has the shape `xo` + at least one non-quote character; the failure is `CookieNotFound` exactly when the cookie lookup fails, and `EmptyHost` exactly when cookie and client succeeded but the URL has no host |
| `Tokens.ResolveWithCookie` | src/slack_api.rs:17-19 | the assumed token/cookie pair: succeeds and fails exactly as `Resolve`, with the same token or error; the cookie is absent exactly for a literal token and is the looked-up `d` cookie for a URL |
| `Tokens.JarCookie` | src/tokens.rs:22-23 | the jar is seeded with `d=`, then the cookie value verbatim, then `; Domain=.slack.com` |
| `Tokens.ScrapeUrl` | src/tokens.rs:39 | the scrape URL is `https://`, the host verbatim, then `/customize/emoji`, and nothing else |
| `Tokens.QuoteFreeRun` | src/tokens.rs:43 | the run measured is the maximal quote-free prefix: no `"` inside it, and a `"` right after it unless it reaches the end |
| `Tokens.FindMatch` | src/tokens.rs:44-46 | the position found matches the pattern and no earlier position from the start does; no position matches when none is found |
| `Tokens.ExtractToken` | src/tokens.rs:43-49 | an extracted token starts with `xo`, is at least 3 long and holds no `"` |
| `Tokens.MatchAtIsCapture` | src/tokens.rs:43-46 | a match found by the scan reads `"api_token":"` + token + `"` in the page |
| `Tokens.CaptureIsMatchAt` | src/tokens.rs:43-46 | every occurrence of `"api_token":"` + token + `"` with a well-shaped token is found by the scan, with that token |
| `Tokens.CaptureUnique` | src/tokens.rs:43-46 | at one position the pattern captures at most one token (the `[^"]+` run is maximal) |
| `Tokens.ExtractTokenIsLeftmostCapture` | src/tokens.rs:43-47 | a token is extracted if and only if it is the capture at the leftmost position where the pattern captures |
| `Tokens.NoTokenIffNoCapture` | src/tokens.rs:44-47 | the page yields no token if and only if the pattern captures at no position, including when an `xo` run is never closed by a quote |
| `Tokens.ExtractedTokenInPage` | src/tokens.rs:44-49 | an extracted token is a contiguous substring of the page |
| `Tokens.LiteralIgnoresEnvironment` | src/tokens.rs:9-13 | a credential not starting with `https://` resolves to itself whatever the cookie store, URL parser and network answer |
| `Tokens.SchemeTestIsCaseSensitive` | src/tokens.rs:9 | `HTTPS://…` and `http://…` credentials are literal tokens |
| `Tokens.OnlyHostMatters` | src/tokens.rs:37-39 | two URLs with the same parsed host give the same outcome: scheme, path and query are discarded |
| `Tokens.FailureOrder` | src/tokens.rs:18-47 | each failure (client build, URL parse, fetch, no token) happens exactly when every earlier step succeeded and that step failed; "no token" means the fetched page captures nowhere |
| `Tokens.ScrapedTokenOrigin` | src/tokens.rs:37-49 | a URL resolves to a token if and only if cookie, client and host are found and the token is the leftmost capture of the page fetched from the scrape URL with the seeded jar |
| `Tokens.ExampleTokenScraped` | src/tokens.rs:43-49 | a page holding `"api_token":"xoxp-12345"` yields exactly `xoxp-12345` |
| `Tokens.ExampleNoTokenScraped` | src/tokens.rs:44-47 | a page without the key, and one whose `xo` run has no closing quote, yield no token |
| `SlackApiClient.DefaultHeaders` | src/slack_api_client.rs:29-40 | the client sends a `Cookie` header exactly when a cookie is present, its value is `d=` + the cookie, and no other header is added |
| `SlackApi.Expiration` | src/slack_api.rs:42-45 | without a duration the expiration is 0 whatever `now` is; with duration `d` it is at least `now` and exceeds it by exactly `d` whole minutes |
| `SlackApi.ProfilePayload` | src/slack_api.rs:48-52 | the set payload has exactly the keys `status_emoji`, `status_text`, `status_expiration`; emoji and text are copied verbatim and the expiration is a number |
| `SlackApi.ProfileOf` | src/slack_api.rs:61 | a response with a profile gives that profile; one without gives `ProfileNotReturned` |
| `SlackApi.StatusTextOf` | src/slack_api.rs:26-30 | a missing profile is `ProfileNotReturned`; otherwise the status text, or `""` when it is absent |
| `SlackApi.GetStatus` | src/slack_api.rs:16-31 | a resolution error is returned as is; with the credential resolved, a client that fails to build gives `ClientBuildFailed`; success needs a resolved credential and a built client |
| `SlackApi.SetStatus` | src/slack_api.rs:33-62 | a resolution error is returned as is; with the credential resolved, a client that fails to build gives `ClientBuildFailed`; success needs a resolved credential and a built client |
| `SlackApi.ResolutionFailureMakesNoCall` | src/slack_api.rs:16-39 | when resolution fails, get and set give the same outcome whatever the remote does: no profile call is made |
| `SlackApi.GetStatusMakesOneCall` | src/slack_api.rs:17-25 | the outcome of a get depends on the remote only through one users.profile.get call with the resolved token and its cookie header |
| `SlackApi.SetStatusMakesOneCall` | src/slack_api.rs:37-60 | the outcome of a set depends on the remote only through one users.profile.set call with the resolved token, its cookie header and the payload for `now` |
| `SlackApi.LiteralTokenSentVerbatim` | src/slack_api.rs:17-25 | a literal token reaches the API unchanged and with no cookie header |
| `SlackApi.ScrapedTokenSentWithCookie` | src/slack_api.rs:17-25 | a scraped token reaches the API with `Cookie: d=<looked-up cookie>` |
| `SlackApi.SetStatusSendsPayload` | src/slack_api.rs:41-61 | with the credential resolved and the client built, the set result is the reply's profile (or `ProfileNotReturned`, or the API error) of the one users.profile.set call made with the resolved token, its cookie header and the payload for `now` |
| `SlackApi.LiteralTokenSetVerbatim` | src/slack_api.rs:37-61 | a literal token reaches the set call unchanged, with no cookie header and the payload for `now` |
| `SlackApi.ScrapedTokenSetWithCookie` | src/slack_api.rs:37-61 | a scraped token reaches the set call with `Cookie: d=<looked-up cookie>` and the payload for `now` |
| `SlackApi.ExampleResponses` | src/slack_api.rs:26-30 | `{"profile":{"status_text":"On vacation"}}` reads as "On vacation", `{"profile":{}}` reads as `""`, and a set answered without a profile fails with `ProfileNotReturned` |

## Left out

- Browser cookie-store access (`get_cookie`): a foreign OS and browser capability. Only its answer is modelled, as `Environment.lookupCookie`.
- The HTTP client, its cookie jar, its User-Agent header and the GET requests (src/tokens.rs:21-41): network I/O through a library. Only "client built or not" and "body or transport failure" are modelled.
- URL parsing (src/tokens.rs:37-38): done by a library. It is an oracle returning "unparseable", "no host" or a host name.
- The Slack API library's request and response types and its calls (src/slack_api.rs:21-25, 54-60): an external library. Responses are `ProfileResponse` records. Its error kinds are reduced to an error text.
- JSON rendering of the profile object (src/slack_api.rs:53): key order and escaping belong to the serialiser. The payload is a map from key to value.
- The system clock (src/slack_api.rs:41): `now` is a parameter, so the clock-before-epoch error of that line is not modelled.
- Expiration: does not model the `u64` arithmetic of src/slack_api.rs:43. `now + duration*60` is computed on unbounded naturals, so results above 2^64-1 (a debug-build panic or a release-build wrap-around) are not captured.
- SlackApiClient.DefaultHeaders: does not model the panic of src/slack_api_client.rs:38 when the cookie value is not a valid header value.
- The request sender of src/slack_api_client.rs:12-27 (query-string building and the GET): network plumbing.
- src/main.rs and src/settings.rs: configuration loading, the command line, console output and the loop over accounts. The older `set_status` in src/main.rs:38-63 duplicates the expiration and payload logic modelled here.
