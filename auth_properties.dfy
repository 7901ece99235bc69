/**
 * Properties of the session client that span one or several calls
 * (src/lib/auth.ts): reuse, the expiry boundary, the refresh fallback,
 * the credential short-circuit and the two-factor round trip.
 */
module AuthProperties {
  import opened Wrappers
  import opened Auth

  /** One `getAccessToken` call: the instant it runs at and the `/tokens` reply it would get. */
  datatype TokenCall = TokenCall(now: Millis, reply: Reply<OAuthData>)

  /** A series of `getAccessToken` calls on one client, in order. */
  function AccessTokenRun(held: Option<Session>, calls: seq<TokenCall>): (run: Step<seq<Option<string>>>)
    ensures |run.result| == |calls|
    decreases |calls|
  {
    if |calls| == 0 then Step([], held, [])
    else
      var first := AccessTokenStep(held, calls[0].now, calls[0].reply);
      var rest := AccessTokenRun(first.held, calls[1..]);
      Step([first.result] + rest.result, rest.held, first.sent + rest.sent)
  }

  /** A held session that has not expired is returned as it is, with no request. */
  lemma FreshSessionReused(s: Session, now: Millis, username: string, password: string,
                           refreshReply: Reply<OAuthData>, loginReply: Reply<Payload>)
    requires IsFresh(s, now)
    ensures GetSessionStep(Some(s), username, password, now, refreshReply, loginReply) == Step(Established(s), Some(s), [])
    ensures AccessTokenStep(Some(s), now, refreshReply) == Step(Some(s.accessToken), Some(s), [])
  {
  }

  /**
   * Repeated `getAccessToken` calls while the session is fresh all return its
   * token, send nothing and leave the session as it was.
   */
  lemma {:induction false} RepeatedReuse(s: Session, calls: seq<TokenCall>)
    requires forall i :: 0 <= i < |calls| ==> calls[i].now < s.expires
    ensures AccessTokenRun(Some(s), calls).held == Some(s)
    ensures AccessTokenRun(Some(s), calls).sent == []
    ensures forall i :: 0 <= i < |calls| ==> AccessTokenRun(Some(s), calls).result[i] == Some(s.accessToken)
  {
    if |calls| > 0 {
      RepeatedReuse(s, calls[1..]);
    }
  }

  /** The comparison is strict: at `now == expires` the session is refreshed, not reused. */
  lemma ExpiryBoundaryRefreshes(s: Session, reply: Reply<OAuthData>)
    requires s.refreshToken != ""
    ensures StoredOrRefreshed(Some(s), s.expires, reply).sent == [PostTokens(s.refreshToken)]
  {
  }

  /** An expired session without a refresh token: no `/tokens` request, nothing returned, session kept. */
  lemma EmptyRefreshTokenSkipsRefresh(s: Session, now: Millis, reply: Reply<OAuthData>)
    requires !IsFresh(s, now) && s.refreshToken == ""
    ensures StoredOrRefreshed(Some(s), now, reply) == Step(None, Some(s), [])
  {
  }

  /**
   * An expired session whose refresh fails (an HTTP error or no response) is kept,
   * and `getSession` goes on to a password login with the given credentials.
   */
  lemma RefreshFailureFallsBack(s: Session, now: Millis, username: string, password: string,
                                refreshReply: Reply<OAuthData>, loginReply: Reply<Payload>)
    requires !IsFresh(s, now) && s.refreshToken != "" && !refreshReply.Ok?
    ensures StoredOrRefreshed(Some(s), now, refreshReply) == Step(None, Some(s), [PostTokens(s.refreshToken)])
    ensures var st := GetSessionStep(Some(s), username, password, now, refreshReply, loginReply);
            var c := CreateSessionStep(Some(s), username, password, loginReply);
            st == Step(c.result, c.held, [PostTokens(s.refreshToken)] + c.sent)
  {
  }

  /** With no session and an empty username or password, nothing is sent and nothing returned. */
  lemma MissingCredentialsSendNothing(username: string, password: string, now: Millis,
                                      refreshReply: Reply<OAuthData>, loginReply: Reply<Payload>)
    requires username == "" || password == ""
    ensures GetSessionStep(None, username, password, now, refreshReply, loginReply) == Step(Nothing, None, [])
  {
  }

  /**
   * Two-factor round trip: a login answered with a continuation token `t`, then
   * `getTfaSession(t, code)` answered with an OAuth payload, leaves the session built
   * from the second payload; its refresh token is the second reply's.
   */
  lemma TwoFactorRoundTrip(username: string, password: string, now: Millis, refreshReply: Reply<OAuthData>,
                           t: string, code: string, data: OAuthData, extra: Option<string>)
    requires username != "" && password != ""
    ensures var login := GetSessionStep(None, username, password, now, refreshReply, Ok(Payload(None, Some(t))));
            && login == Step(Challenge(Payload(None, Some(t))), None, [PostSessions(Login(username, password))])
            && var tfa := TfaSessionStep(login.held, t, code, Ok(Payload(Some(data), extra)));
            && tfa.held == Some(ToSession(data))
            && tfa.held.value.refreshToken == data.refreshToken
            && login.sent + tfa.sent == [PostSessions(Login(username, password)), PostSessions(TwoFactor(t, code))]
  {
  }

  /**
   * After a successful refresh, a later `getAccessToken` that runs more than 100 ms
   * before the new server expiry reuses the renewed session without a request.
   */
  lemma RefreshThenReuse(s: Session, now: Millis, data: OAuthData, later: Millis, reply: Reply<OAuthData>)
    requires !IsFresh(s, now) && s.refreshToken != ""
    requires later + 100 < 1000 * data.expires
    ensures var first := AccessTokenStep(Some(s), now, Ok(data));
            && first == Step(Some(data.accessToken), Some(ToSession(data)), [PostTokens(s.refreshToken)])
            && AccessTokenStep(first.held, later, reply) == Step(Some(data.accessToken), first.held, [])
  {
  }

  /** The worked example: a first login with an OAuth payload expiring at 2000000000 s. */
  lemma FirstLoginExample(now: Millis, refreshReply: Reply<OAuthData>)
    ensures var st := GetSessionStep(None, "a@b.com", "secret", now, refreshReply,
                                     Ok(Payload(Some(OAuthData(1, "AT", "RT", 2000000000)), None)));
            st.result == Established(Session(1, "AT", "RT", 1999999999900))
            && st.held == Some(Session(1, "AT", "RT", 1999999999900))
  {
  }
}
