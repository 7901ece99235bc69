/**
 * Properties of the settings-page handlers (homebridge-ui/server.js) that span
 * several calls or pin down one path through `login`.
 */
module UiServerProperties {
  import opened Wrappers
  import opened Auth
  import opened UiServer

  /** Nothing at the storage path keeps the session file from being written. */
  predicate Writable(fs: FileSystem, root: string)
  {
    !(PluginPath(root) in fs && fs[PluginPath(root)].File?) && !(SessionPath(root) in fs && fs[SessionPath(root)].Dir?)
  }

  /** Logging out twice is logging out once. */
  lemma ClearSessionIdempotent(fs: FileSystem, root: string)
    ensures Cleared(Cleared(fs, root).0, root) == Cleared(fs, root)
  {
  }

  /** After a successful logout the session check answers 404. */
  lemma LogoutThenCheck(fs: FileSystem, root: string)
    requires Cleared(fs, root).1 == Ok200
    ensures CheckSessionCode(Cleared(fs, root).0, root) == Reply(404, None)
  {
  }

  /** After a successful login the session check answers 200. */
  lemma LoginThenCheck(fs: FileSystem, root: string, input: LoginInput, loginReply: Reply<Payload>, tfaReply: Reply<Payload>)
    requires LoginSpec(fs, root, input, loginReply, tfaReply).result == Ok200
    ensures CheckSessionCode(LoginSpec(fs, root, input, loginReply, tfaReply).fs, root) == Ok200
  {
  }

  /** A login answered with an OAuth payload saves the session built from it. */
  lemma PasswordLoginSaves(fs: FileSystem, root: string, input: LoginInput, data: OAuthData, extra: Option<string>, tfaReply: Reply<Payload>)
    requires input.email != "" && input.password != ""
    requires data.accessToken != "" && Writable(fs, root)
    ensures var st := LoginSpec(fs, root, input, Ok(Payload(Some(data), extra)), tfaReply);
            && st.result == Ok200
            && Holds(st.fs, root, ToSession(data))
            && st.sent == [PostSessions(Login(input.email, input.password))]
  {
  }

  /** A two-factor challenge with no code is answered 401; nothing is written and no second request is sent. */
  lemma TfaCodeRequired(fs: FileSystem, root: string, email: string, password: string, t: string, tfaReply: Reply<Payload>)
    requires email != "" && password != ""
    ensures LoginSpec(fs, root, LoginInput(email, password, ""), Ok(Payload(None, Some(t))), tfaReply)
            == LoginStep(Reply(401, Some("2FA code required")), fs, [PostSessions(Login(email, password))])
  {
  }

  /**
   * A two-factor challenge with a code: the code travels with the continuation token
   * of the first reply, and the session of the second reply is what is saved.
   */
  lemma TfaLoginSaves(fs: FileSystem, root: string, email: string, password: string, code: string,
                      t: string, data: OAuthData, extra: Option<string>)
    requires email != "" && password != "" && code != ""
    requires data.accessToken != "" && Writable(fs, root)
    ensures var st := LoginSpec(fs, root, LoginInput(email, password, code), Ok(Payload(None, Some(t))), Ok(Payload(Some(data), extra)));
            && st.result == Ok200
            && Holds(st.fs, root, ToSession(data))
            && st.sent == [PostSessions(Login(email, password)), PostSessions(TwoFactor(t, code))]
  {
  }

  /** A two-factor reply without an access token raises and leaves the file system as it was. */
  lemma TfaWithoutTokenRaises(fs: FileSystem, root: string, email: string, password: string, code: string,
                              t: string, tfaReply: Reply<Payload>)
    requires email != "" && password != "" && code != ""
    requires !(tfaReply.Ok? && IsOauthSession(tfaReply.body))
    ensures LoginSpec(fs, root, LoginInput(email, password, code), Ok(Payload(None, Some(t))), tfaReply)
            == LoginStep(Raised(LoginFailed), fs, [PostSessions(Login(email, password)), PostSessions(TwoFactor(t, code))])
  {
  }

  /** A failed first exchange raises, sends nothing more and writes nothing. */
  lemma FailedLoginRaises(fs: FileSystem, root: string, input: LoginInput, loginReply: Reply<Payload>, tfaReply: Reply<Payload>)
    requires input.email != "" && input.password != "" && !loginReply.Ok?
    ensures LoginSpec(fs, root, input, loginReply, tfaReply)
            == LoginStep(Raised(LoginFailed), fs, [PostSessions(Login(input.email, input.password))])
  {
  }
}
