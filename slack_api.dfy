/**
 * Reading and setting the user's status (src/slack_api.rs).
 *
 * Both operations resolve the credential first, build a client that sends the
 * session cookie along with a scraped token, and make one users.profile call.
 * The remote API is outside the model: a `Remote` value stands for what it
 * answers, and the current time is a parameter.
 */
module SlackApi {
  import opened Wrappers
  import Tokens
  import SlackApiClient

  /** Seconds per minute of status duration. */
  const SecondsPerMinute: nat := 60
  /** Expiration meaning "the status never expires". */
  const NeverExpires: nat := 0
  /** Keys of the profile object sent on set. */
  const StatusEmojiKey: string := "status_emoji"
  const StatusTextKey: string := "status_text"
  const StatusExpirationKey: string := "status_expiration"

  /** A named status from the configuration: emoji, text and an optional duration in minutes. */
  datatype SlackStatus = SlackStatus(emoji: string, text: string, duration: Option<nat>)

  /** The JSON values the profile object is built from. */
  datatype JsonValue = JString(str: string) | JNumber(num: nat)

  /** The part of the user profile the program reads back. */
  datatype UserProfile = UserProfile(statusText: Option<string>, statusEmoji: Option<string>, statusExpiration: Option<int>)

  /** A users.profile response: the profile may be missing. */
  datatype ProfileResponse = ProfileResponse(profile: Option<UserProfile>)

  /**
   * The remote side as this program sees it:
   * - `clientBuilds`: whether the HTTP client with its default headers could be built;
   * - `getProfile(token, headers)`: the users.profile.get call;
   * - `setProfile(token, headers, profile)`: the users.profile.set call.
   * A call that fails gives the library's error text.
   */
  datatype Remote = Remote(
    clientBuilds: bool,
    getProfile: (string, map<string, string>) -> Result<ProfileResponse, string>,
    setProfile: (string, map<string, string>, map<string, JsonValue>) -> Result<ProfileResponse, string>)

  /**
   * Why a status operation failed; `ProfileNotReturned` is the error reported
   * as "User profile was not returned".
   */
  datatype StatusError =
    | ResolveFailed(cause: Tokens.TokenError)
    | ClientBuildFailed
    | ApiFailed(reason: string)
    | ProfileNotReturned

  /**
   * The expiration sent with a status: `now` plus the duration in seconds, or
   * 0 (never) without a duration. The duration in whole minutes can be read
   * back from the result.
   */
  function Expiration(now: nat, duration: Option<nat>): (r: nat)
    ensures duration.None? ==> r == NeverExpires
    ensures duration.Some? ==> r >= now
    ensures duration.Some? ==> (r - now) % SecondsPerMinute == 0
                               && (r - now) / SecondsPerMinute == duration.value
  {
    match duration
    case None => NeverExpires
    case Some(minutes) => now + minutes * SecondsPerMinute
  }

  /**
   * The profile object sent on set: exactly the three status fields, emoji and
   * text copied verbatim and the expiration as a number.
   */
  function ProfilePayload(status: SlackStatus, expiration: nat): (m: map<string, JsonValue>)
    ensures m.Keys == {StatusEmojiKey, StatusTextKey, StatusExpirationKey}
    ensures m[StatusEmojiKey] == JString(status.emoji)
    ensures m[StatusTextKey] == JString(status.text)
    ensures m[StatusExpirationKey] == JNumber(expiration)
  {
    map[StatusEmojiKey := JString(status.emoji),
        StatusTextKey := JString(status.text),
        StatusExpirationKey := JNumber(expiration)]
  }

  /** The profile of a response, or `ProfileNotReturned` when it has none. */
  function ProfileOf(response: ProfileResponse): (r: Result<UserProfile, StatusError>)
    ensures r.Ok? <==> response.profile.Some?
    ensures r.Ok? ==> r.value == response.profile.value
    ensures r.Err? ==> r.error == ProfileNotReturned
  {
    match response.profile
    case None => Err(ProfileNotReturned)
    case Some(profile) => Ok(profile)
  }

  /**
   * The status text of a get response: a missing profile is an error, a
   * profile without status text reads as the empty string.
   */
  function StatusTextOf(response: ProfileResponse): (r: Result<string, StatusError>)
    ensures r == Err(ProfileNotReturned) <==> response.profile.None?
    ensures r.Ok? <==> response.profile.Some?
    ensures r.Ok? && response.profile.value.statusText.Some? ==> r.value == response.profile.value.statusText.value
    ensures r.Ok? && response.profile.value.statusText.None? ==> r.value == ""
  {
    match ProfileOf(response)
    case Err(e) => Err(e)
    case Ok(profile) => Ok(profile.statusText.GetOr(""))
  }

  /**
   * Read the user's status text. A resolution error is reported before any
   * profile call; a missing profile is an error; a missing status text reads
   * as the empty string.
   */
  function GetStatus(credential: string, env: Tokens.Environment, remote: Remote): (r: Result<string, StatusError>)
    ensures Tokens.Resolve(credential, env).Err?
            ==> r == Err(ResolveFailed(Tokens.Resolve(credential, env).error))
    ensures Tokens.Resolve(credential, env).Ok? && !remote.clientBuilds ==> r == Err(ClientBuildFailed)
    ensures r.Ok? ==> Tokens.Resolve(credential, env).Ok? && remote.clientBuilds
  {
    match Tokens.ResolveWithCookie(credential, env)
    case Err(e) => Err(ResolveFailed(e))
    case Ok(resolved) =>
      if !remote.clientBuilds then Err(ClientBuildFailed)
      else
        match remote.getProfile(resolved.token, SlackApiClient.DefaultHeaders(resolved.dCookie))
        case Err(reason) => Err(ApiFailed(reason))
        case Ok(response) => StatusTextOf(response)
  }

  /**
   * Set the user's status at time `now` and return the profile the service
   * sends back. A resolution error is reported before any profile call; a
   * response without a profile is an error.
   */
  function SetStatus(credential: string, status: SlackStatus, now: nat, env: Tokens.Environment, remote: Remote)
    : (r: Result<UserProfile, StatusError>)
    ensures Tokens.Resolve(credential, env).Err?
            ==> r == Err(ResolveFailed(Tokens.Resolve(credential, env).error))
    ensures Tokens.Resolve(credential, env).Ok? && !remote.clientBuilds ==> r == Err(ClientBuildFailed)
    ensures r.Ok? ==> Tokens.Resolve(credential, env).Ok? && remote.clientBuilds
  {
    match Tokens.ResolveWithCookie(credential, env)
    case Err(e) => Err(ResolveFailed(e))
    case Ok(resolved) =>
      if !remote.clientBuilds then Err(ClientBuildFailed)
      else
        var payload := ProfilePayload(status, Expiration(now, status.duration));
        match remote.setProfile(resolved.token, SlackApiClient.DefaultHeaders(resolved.dCookie), payload)
        case Err(reason) => Err(ApiFailed(reason))
        case Ok(response) => ProfileOf(response)
  }

  // ---------------------------------------------------------------------------
  // Properties of the two operations.
  // ---------------------------------------------------------------------------

  /** When resolution fails, neither operation depends on the remote side: no call is made. */
  lemma ResolutionFailureMakesNoCall(credential: string, status: SlackStatus, now: nat,
                                     env: Tokens.Environment, remote1: Remote, remote2: Remote)
    requires Tokens.Resolve(credential, env).Err?
    ensures GetStatus(credential, env, remote1) == GetStatus(credential, env, remote2)
    ensures SetStatus(credential, status, now, env, remote1) == SetStatus(credential, status, now, env, remote2)
  {
  }

  /**
   * A get makes exactly one profile call, with the resolved token and the
   * cookie header that belongs to it: two remotes that agree on that one call
   * give the same outcome.
   */
  lemma GetStatusMakesOneCall(credential: string, env: Tokens.Environment, remote1: Remote, remote2: Remote)
    requires Tokens.ResolveWithCookie(credential, env).Ok?
    requires remote1.clientBuilds == remote2.clientBuilds
    requires var resolved := Tokens.ResolveWithCookie(credential, env).value;
             var headers := SlackApiClient.DefaultHeaders(resolved.dCookie);
             remote1.getProfile(resolved.token, headers) == remote2.getProfile(resolved.token, headers)
    ensures GetStatus(credential, env, remote1) == GetStatus(credential, env, remote2)
  {
  }

  /**
   * A set makes exactly one profile call, with the resolved token, its cookie
   * header and the payload built from the status and `now`.
   */
  lemma SetStatusMakesOneCall(credential: string, status: SlackStatus, now: nat,
                              env: Tokens.Environment, remote1: Remote, remote2: Remote)
    requires Tokens.ResolveWithCookie(credential, env).Ok?
    requires remote1.clientBuilds == remote2.clientBuilds
    requires var resolved := Tokens.ResolveWithCookie(credential, env).value;
             var headers := SlackApiClient.DefaultHeaders(resolved.dCookie);
             var payload := ProfilePayload(status, Expiration(now, status.duration));
             remote1.setProfile(resolved.token, headers, payload) == remote2.setProfile(resolved.token, headers, payload)
    ensures SetStatus(credential, status, now, env, remote1) == SetStatus(credential, status, now, env, remote2)
  {
  }

  /** A literal token goes to the API verbatim and without a cookie header. */
  lemma LiteralTokenSentVerbatim(credential: string, env: Tokens.Environment, remote: Remote)
    requires !Tokens.IsTeamUrl(credential) && remote.clientBuilds
    ensures GetStatus(credential, env, remote)
            == match remote.getProfile(credential, map[])
               case Err(reason) => Err(ApiFailed(reason))
               case Ok(response) => StatusTextOf(response)
  {
  }

  /** A scraped token goes to the API with `Cookie: d=<looked-up cookie>`. */
  lemma ScrapedTokenSentWithCookie(credential: string, env: Tokens.Environment, remote: Remote)
    requires Tokens.IsTeamUrl(credential) && remote.clientBuilds
    requires Tokens.Resolve(credential, env).Ok?
    ensures var cookie := env.lookupCookie(Tokens.SlackCookieDomain, Tokens.SessionCookieName);
            && cookie.Some?
            && GetStatus(credential, env, remote)
               == match remote.getProfile(Tokens.Resolve(credential, env).value,
                                          map[SlackApiClient.CookieHeader := "d=" + cookie.value])
                  case Err(reason) => Err(ApiFailed(reason))
                  case Ok(response) => StatusTextOf(response)
  {
  }

  /**
   * With the credential resolved and the client built, a set sends the
   * resolved token, its cookie header and the payload for `now` in one
   * users.profile.set call, and returns the profile of the reply, or
   * `ProfileNotReturned` when the reply has none.
   */
  lemma SetStatusSendsPayload(credential: string, status: SlackStatus, now: nat,
                              env: Tokens.Environment, remote: Remote)
    requires Tokens.ResolveWithCookie(credential, env).Ok? && remote.clientBuilds
    ensures var resolved := Tokens.ResolveWithCookie(credential, env).value;
            SetStatus(credential, status, now, env, remote)
            == match remote.setProfile(resolved.token, SlackApiClient.DefaultHeaders(resolved.dCookie),
                                       ProfilePayload(status, Expiration(now, status.duration)))
               case Err(reason) => Err(ApiFailed(reason))
               case Ok(response) => ProfileOf(response)
  {
  }

  /** A literal token goes to the set call verbatim, without a cookie header. */
  lemma LiteralTokenSetVerbatim(credential: string, status: SlackStatus, now: nat,
                                env: Tokens.Environment, remote: Remote)
    requires !Tokens.IsTeamUrl(credential) && remote.clientBuilds
    ensures SetStatus(credential, status, now, env, remote)
            == match remote.setProfile(credential, map[], ProfilePayload(status, Expiration(now, status.duration)))
               case Err(reason) => Err(ApiFailed(reason))
               case Ok(response) => ProfileOf(response)
  {
  }

  /** A scraped token goes to the set call with `Cookie: d=<looked-up cookie>`. */
  lemma ScrapedTokenSetWithCookie(credential: string, status: SlackStatus, now: nat,
                                  env: Tokens.Environment, remote: Remote)
    requires Tokens.IsTeamUrl(credential) && remote.clientBuilds
    requires Tokens.Resolve(credential, env).Ok?
    ensures var cookie := env.lookupCookie(Tokens.SlackCookieDomain, Tokens.SessionCookieName);
            && cookie.Some?
            && SetStatus(credential, status, now, env, remote)
               == match remote.setProfile(Tokens.Resolve(credential, env).value,
                                          map[SlackApiClient.CookieHeader := "d=" + cookie.value],
                                          ProfilePayload(status, Expiration(now, status.duration)))
                  case Err(reason) => Err(ApiFailed(reason))
                  case Ok(response) => ProfileOf(response)
  {
  }

  /** A remote whose client builds and whose calls give fixed answers. */
  function FixedRemote(getAnswer: ProfileResponse, setAnswer: ProfileResponse): Remote {
    Remote(true, (token, headers) => Ok(getAnswer), (token, headers, profile) => Ok(setAnswer))
  }

  /** Reading `{"profile":{"status_text":"On vacation"}}` and `{"profile":{}}`; setting with no profile back. */
  lemma ExampleResponses(env: Tokens.Environment, status: SlackStatus, now: nat)
    ensures var withText := ProfileResponse(Some(UserProfile(Some("On vacation"), None, None)));
            GetStatus("xoxp-1", env, FixedRemote(withText, withText)) == Ok("On vacation")
    ensures var empty := ProfileResponse(Some(UserProfile(None, None, None)));
            GetStatus("xoxp-1", env, FixedRemote(empty, empty)) == Ok("")
    ensures var none := ProfileResponse(None);
            SetStatus("xoxp-1", status, now, env, FixedRemote(none, none)) == Err(ProfileNotReturned)
  {
  }
}
