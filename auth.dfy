/**
 * The SmartRent OAuth session client (src/lib/auth.ts).
 *
 * The client holds at most one session. Each call decides whether to reuse it,
 * to refresh it through `POST /tokens`, or to create a new one from a username and
 * password (or a two-factor continuation) through `POST /sessions`.
 *
 * Every server exchange is an input `Reply`, the current time is an input in
 * milliseconds, and the requests a call sends come back as its `sent` list.
 * The pure functions below say what one call does: its result, the session held
 * afterwards and the requests sent. The methods of `SmartRentAuthClient` update
 * the held session in place and are proved to agree with them.
 */
module Auth {
  import opened Wrappers

  /** An instant in milliseconds since the epoch (what a JavaScript `Date` holds). */
  type Millis = int

  /** An OAuth session payload: `user_id`, `access_token`, `refresh_token`, `expires` (seconds). */
  datatype OAuthData = OAuthData(userId: int, accessToken: string, refreshToken: string, expires: int)

  /**
   * The `data` object of a `/sessions` reply, described by the keys it carries:
   * `oauth` when it has `access_token` (with the other OAuth fields), `tfaApiToken`
   * when it has `tfa_api_token`. A reply without `data` is `Payload(None, None)`.
   */
  datatype Payload = Payload(oauth: Option<OAuthData>, tfaApiToken: Option<string>)

  /** The session the client holds; `expires` is an instant in milliseconds. */
  datatype Session = Session(userId: int, accessToken: string, refreshToken: string, expires: Millis)

  /** Form bodies of `POST /sessions`: `{username, password}` or `{tfa_api_token, token}`. */
  datatype Credentials =
    | Login(username: string, password: string)
    | TwoFactor(tfaApiToken: string, token: string)

  /** A request sent to the authentication endpoints. */
  datatype Request =
    | PostSessions(credentials: Credentials)
    | PostTokens(refreshToken: string)  // the refresh token travels in `Authorization-X-Refresh`

  /** What one exchange yields: a body, an HTTP error status, or no response at all. */
  datatype Reply<T> = Ok(body: T) | HttpError(status: int) | NoResponse

  /** What `getSession` resolves to: nothing, a session, or the raw two-factor payload. */
  datatype SessionResult = Nothing | Established(session: Session) | Challenge(payload: Payload)

  /** One call: what it returns, the session held afterwards, and the requests it sent. */
  datatype Step<R> = Step(result: R, held: Option<Session>, sent: seq<Request>)

  /** The keys of the JSON object a payload stands for. */
  function Keys(p: Payload): set<string>
  {
    (if p.oauth.Some? then {"user_id", "access_token", "refresh_token", "expires"} else {})
    + (if p.tfaApiToken.Some? then {"tfa_api_token"} else {})
  }

  /** `isOauthSession`: the payload carries `access_token`. */
  function IsOauthSession(p: Payload): (b: bool)
    ensures b <==> "access_token" in Keys(p)
  {
    p.oauth.Some?
  }

  /** `isTfaSession`: the payload carries `tfa_api_token`. */
  function IsTfaSession(p: Payload): (b: bool)
    ensures b <==> "tfa_api_token" in Keys(p)
  {
    p.tfaApiToken.Some?
  }

  /** A held session is reused while its expiry lies strictly after `now`. */
  predicate IsFresh(s: Session, now: Millis) { s.expires > now }

  /**
   * `_storeSession`'s record: the payload's fields, with the expiry in seconds turned
   * into an instant 100 ms before the server's.
   */
  function ToSession(data: OAuthData): (s: Session)
    ensures s.userId == data.userId && s.accessToken == data.accessToken
    ensures s.refreshToken == data.refreshToken
    ensures forall now :: IsFresh(s, now) <==> now + 100 < 1000 * data.expires
  {
    Session(data.userId, data.accessToken, data.refreshToken, 1000 * data.expires - 100)
  }

  /**
   * `_getStoredOrRefreshedSession`: reuse a fresh session; otherwise, when a session
   * with a refresh token is held, refresh it once through `/tokens`.
   */
  function StoredOrRefreshed(held: Option<Session>, now: Millis, reply: Reply<OAuthData>): (st: Step<Option<Session>>)
    ensures st.sent == [] || (held.Some? && st.sent == [PostTokens(held.value.refreshToken)])
    ensures st.sent == [] ==> st.held == held
    ensures st.sent != [] ==> (st.result.Some? <==> reply.Ok?)
    ensures st.result.Some? ==> st.held == st.result
    ensures st.result.None? ==> st.held == held
  {
    match held
    case None => Step(None, None, [])
    case Some(s) =>
      if IsFresh(s, now) then Step(held, held, [])
      else if s.refreshToken == "" then Step(None, held, [])
      else
        var sent := [PostTokens(s.refreshToken)];
        match reply
        case Ok(data) => var renewed := ToSession(data); Step(Some(renewed), Some(renewed), sent)
        case _ => Step(None, held, sent)
  }

  /**
   * `_createSession`: with a username and a password, one `/sessions` request; an
   * OAuth payload is stored and returned, otherwise a two-factor payload is
   * returned untouched, otherwise nothing.
   */
  function CreateSessionStep(held: Option<Session>, username: string, password: string, reply: Reply<Payload>): (st: Step<SessionResult>)
    ensures st.sent == [] <==> username == "" || password == ""
    ensures st.sent != [] ==> st.sent == [PostSessions(Login(username, password))]
    ensures st.result.Established? <==> st.sent != [] && reply.Ok? && IsOauthSession(reply.body)
    ensures st.result.Established? ==>
      st.held == Some(st.result.session) && st.result.session == ToSession(reply.body.oauth.value)
    ensures !st.result.Established? ==> st.held == held
    ensures st.result.Challenge? <==>
      st.sent != [] && reply.Ok? && !IsOauthSession(reply.body) && IsTfaSession(reply.body)
    ensures st.result.Challenge? ==> reply == Ok(st.result.payload)
  {
    if username == "" || password == "" then Step(Nothing, held, [])
    else
      var sent := [PostSessions(Login(username, password))];
      match reply
      case Ok(p) =>
        if IsOauthSession(p) then
          var s := ToSession(p.oauth.value); Step(Established(s), Some(s), sent)
        else if IsTfaSession(p) then Step(Challenge(p), held, sent)
        else Step(Nothing, held, sent)
      case _ => Step(Nothing, held, sent)
  }

  /** `getSession`: the stored or refreshed session if there is one, else `_createSession`. */
  function GetSessionStep(held: Option<Session>, username: string, password: string, now: Millis,
                          refreshReply: Reply<OAuthData>, loginReply: Reply<Payload>): (st: Step<SessionResult>)
    ensures st.result.Established? ==> st.held == Some(st.result.session)
    ensures !st.result.Established? ==> st.held == held
    ensures st.result.Challenge? ==> IsTfaSession(st.result.payload) && !IsOauthSession(st.result.payload)
    ensures |st.sent| <= 2
  {
    var r := StoredOrRefreshed(held, now, refreshReply);
    if r.result.Some? then Step(Established(r.result.value), r.held, r.sent)
    else
      var c := CreateSessionStep(r.held, username, password, loginReply);
      Step(c.result, c.held, r.sent + c.sent)
  }

  /**
   * `getTfaSession`: always one `/sessions` request with the continuation token and
   * the code; only an OAuth payload is stored.
   */
  function TfaSessionStep(held: Option<Session>, tfaApiToken: string, code: string, reply: Reply<Payload>): (st: Step<Option<Session>>)
    ensures st.sent == [PostSessions(TwoFactor(tfaApiToken, code))]
    ensures st.result.Some? <==> reply.Ok? && IsOauthSession(reply.body)
    ensures st.result.Some? ==> st.held == st.result && st.result.value == ToSession(reply.body.oauth.value)
    ensures st.result.None? ==> st.held == held
  {
    var sent := [PostSessions(TwoFactor(tfaApiToken, code))];
    match reply
    case Ok(p) =>
      if IsOauthSession(p) then var s := ToSession(p.oauth.value); Step(Some(s), Some(s), sent)
      else Step(None, held, sent)
    case _ => Step(None, held, sent)
  }

  /** `getAccessToken`: the access token of the stored or refreshed session; never a login. */
  function AccessTokenStep(held: Option<Session>, now: Millis, reply: Reply<OAuthData>): (st: Step<Option<string>>)
    ensures forall r :: r in st.sent ==> r.PostTokens?
    ensures st.result.Some? ==> st.held.Some? && st.result.value == st.held.value.accessToken
    ensures st.result.None? ==> st.held == held
  {
    var r := StoredOrRefreshed(held, now, reply);
    match r.result
    case Some(s) => Step(Some(s.accessToken), r.held, r.sent)
    case None => Step(None, r.held, r.sent)
  }

  /** The client object: its one mutable field is the session it holds. */
  class SmartRentAuthClient {
    var session: Option<Session>

    constructor (session: Option<Session>)
      ensures this.session == session
    {
      this.session := session;
    }

    /** `_storeSession`: overwrite the held session with the one built from `data`. */
    method StoreSession(data: OAuthData) returns (s: Session)
      modifies this
      ensures s == ToSession(data) && session == Some(s)
    {
      s := Session(data.userId, data.accessToken, data.refreshToken, 1000 * data.expires - 100);
      session := Some(s);
    }

    method GetStoredOrRefreshedSession(now: Millis, reply: Reply<OAuthData>) returns (result: Option<Session>, sent: seq<Request>)
      modifies this
      ensures Step(result, session, sent) == StoredOrRefreshed(old(session), now, reply)
    {
      sent := [];
      if session.Some? && session.value.expires > now {
        return session, sent;
      }
      result := None;
      if session.Some? {
        var refreshToken := session.value.refreshToken;
        if refreshToken == "" {
          return;
        }
        sent := [PostTokens(refreshToken)];
        if reply.Ok? {
          var s := StoreSession(reply.body);
          result := Some(s);
        }
      }
    }

    method CreateSession(username: string, password: string, reply: Reply<Payload>) returns (result: SessionResult, sent: seq<Request>)
      modifies this
      ensures Step(result, session, sent) == CreateSessionStep(old(session), username, password, reply)
    {
      result, sent := Nothing, [];
      if username == "" || password == "" {
        return;
      }
      sent := [PostSessions(Login(username, password))];
      if !reply.Ok? {
        return;
      }
      var sessionData := reply.body;
      if IsOauthSession(sessionData) {
        var s := StoreSession(sessionData.oauth.value);
        result := Established(s);
      } else if IsTfaSession(sessionData) {
        result := Challenge(sessionData);
      }
    }

    method GetSession(username: string, password: string, now: Millis,
                      refreshReply: Reply<OAuthData>, loginReply: Reply<Payload>)
      returns (result: SessionResult, sent: seq<Request>)
      modifies this
      ensures Step(result, session, sent) == GetSessionStep(old(session), username, password, now, refreshReply, loginReply)
    {
      var stored, refreshSent := GetStoredOrRefreshedSession(now, refreshReply);
      if stored.Some? {
        return Established(stored.value), refreshSent;
      }
      var createSent;
      result, createSent := CreateSession(username, password, loginReply);
      sent := refreshSent + createSent;
    }

    method GetTfaSession(tfaApiToken: string, code: string, reply: Reply<Payload>) returns (result: Option<Session>, sent: seq<Request>)
      modifies this
      ensures Step(result, session, sent) == TfaSessionStep(old(session), tfaApiToken, code, reply)
    {
      sent := [PostSessions(TwoFactor(tfaApiToken, code))];
      result := None;
      if reply.Ok? && IsOauthSession(reply.body) {
        var s := StoreSession(reply.body.oauth.value);
        result := Some(s);
      }
    }

    /** `setSession`: replace the held session. */
    method SetSession(s: Session)
      modifies this
      ensures session == Some(s)
    {
      session := Some(s);
    }

    method GetAccessToken(now: Millis, reply: Reply<OAuthData>) returns (token: Option<string>, sent: seq<Request>)
      modifies this
      ensures Step(token, session, sent) == AccessTokenStep(old(session), now, reply)
    {
      var s;
      s, sent := GetStoredOrRefreshedSession(now, reply);
      token := if s.Some? then Some(s.value.accessToken) else None;
    }
  }
}
