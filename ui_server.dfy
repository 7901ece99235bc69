/**
 * The settings-page server (homebridge-ui/server.js): it reports whether a session
 * file is saved, deletes it on logout, and logs in with an email, a password and an
 * optional two-factor code, saving the resulting session under the storage path.
 *
 * The file system is a map from path to node. The login's two `/sessions` replies are
 * inputs, and the requests sent come back as a list. A request handler either
 * replies `{code, message}` or raises a request error with a message.
 */
module UiServer {
  import opened Wrappers
  import opened Auth

  /** What a file holds: a saved session (its JSON rendering) or any other text. */
  datatype Content = SessionJson(session: Session) | OtherText(text: string)

  /** A path names a directory or a file. */
  datatype Node = Dir | File(content: Content)

  type FileSystem = map<string, Node>

  /** What a handler gives back: a reply, or a raised request error and its message. */
  datatype UiResult = Reply(code: int, message: Option<string>) | Raised(error: string)

  /** The fields of the `/login` payload; a missing field is the empty string. */
  datatype LoginInput = LoginInput(email: string, password: string, tfaCode: string)

  /** One login: its result, the file system afterwards and the requests sent. */
  datatype LoginStep = LoginStep(result: UiResult, fs: FileSystem, sent: seq<Request>)

  const Ok200: UiResult := Reply(200, None)
  const LoginFailed: string := "Failed to login to SmartRent"
  const DeleteFailed: string := "Failed to delete auth token"

  /** The plugin's directory under the storage path. */
  function PluginPath(root: string): string { root + "/smartrent" }

  /** The saved session file. */
  function SessionPath(root: string): (p: string)
    ensures p != PluginPath(root) && |p| > |PluginPath(root)|
    ensures p[..|PluginPath(root)| + 1] == PluginPath(root) + "/"
  {
    PluginPath(root) + "/session.json"
  }

  /** The session file at `root` holds exactly `s`. */
  predicate Holds(fs: FileSystem, root: string, s: Session)
  {
    SessionPath(root) in fs && fs[SessionPath(root)] == File(SessionJson(s))
  }

  /** `checkSession`: 200 when something exists at the session path, 404 otherwise. */
  function CheckSessionCode(fs: FileSystem, root: string): (r: UiResult)
    ensures r == Ok200 <==> SessionPath(root) in fs
    ensures r == Reply(404, None) <==> SessionPath(root) !in fs
  {
    if SessionPath(root) in fs then Ok200 else Reply(404, None)
  }

  /**
   * `clearSession`: remove the session file when it exists and reply 200; removing
   * fails, and the handler raises, when the path is a directory.
   */
  function Cleared(fs: FileSystem, root: string): (r: (FileSystem, UiResult))
    ensures r.1 == Ok200 ==> SessionPath(root) !in r.0
    ensures r.1 == Ok200 <==> !(SessionPath(root) in fs && fs[SessionPath(root)].Dir?)
    ensures r.1 != Ok200 ==> r == (fs, Raised(DeleteFailed))
    ensures forall p :: p != SessionPath(root) ==> (p in r.0 <==> p in fs)
    ensures forall p :: p != SessionPath(root) && p in fs ==> r.0[p] == fs[p]
  {
    var path := SessionPath(root);
    if path !in fs then (fs, Ok200)
    else if fs[path].Dir? then (fs, Raised(DeleteFailed))
    else (fs - {path}, Ok200)
  }

  /**
   * Saving a session: create the plugin directory when nothing is there, then write the
   * session file. Writing fails, and the handler raises, when the plugin path is a
   * file or the session path is a directory.
   */
  function Saved(fs: FileSystem, root: string, s: Session): (r: (FileSystem, UiResult))
    ensures r.1 == Ok200 <==>
      !(PluginPath(root) in fs && fs[PluginPath(root)].File?) && !(SessionPath(root) in fs && fs[SessionPath(root)].Dir?)
    ensures r.1 != Ok200 ==> r.1 == Raised(LoginFailed)
    ensures r.1 == Ok200 ==> Holds(r.0, root, s) && PluginPath(root) in r.0 && r.0[PluginPath(root)] == Dir
    ensures r.1 != Ok200 ==> (SessionPath(root) in r.0 <==> SessionPath(root) in fs)
    ensures r.1 != Ok200 && SessionPath(root) in fs ==> r.0[SessionPath(root)] == fs[SessionPath(root)]
    ensures forall p :: p != SessionPath(root) && p != PluginPath(root) ==> (p in r.0 <==> p in fs)
    ensures forall p :: p != SessionPath(root) && p != PluginPath(root) && p in fs ==> r.0[p] == fs[p]
  {
    var plugin, path := PluginPath(root), SessionPath(root);
    var withDir := if plugin in fs then fs else fs[plugin := Dir];
    if withDir[plugin].File? then (withDir, Raised(LoginFailed))
    else if path in withDir && withDir[path].Dir? then (withDir, Raised(LoginFailed))
    else (withDir[path := File(SessionJson(s))], Ok200)
  }

  /**
   * `login`: check the email, then the password; log in with a new client; on a
   * two-factor challenge require the code and send it with the continuation token;
   * save a session that carries an access token, otherwise raise.
   */
  function LoginSpec(fs: FileSystem, root: string, input: LoginInput,
                     loginReply: Reply<Payload>, tfaReply: Reply<Payload>): (st: LoginStep)
    ensures input.email == "" ==> st == LoginStep(Reply(401, Some("Email required")), fs, [])
    ensures input.email != "" && input.password == "" ==> st == LoginStep(Reply(401, Some("Password required")), fs, [])
    ensures input.email != "" && input.password != "" ==>
      |st.sent| >= 1 && st.sent[0] == PostSessions(Login(input.email, input.password))
    ensures st.result == Ok200 ==> exists s: Session :: s.accessToken != "" && Holds(st.fs, root, s)
    ensures st.result != Ok200 ==> (SessionPath(root) in st.fs <==> SessionPath(root) in fs)
    ensures st.result != Ok200 && SessionPath(root) in fs ==> st.fs[SessionPath(root)] == fs[SessionPath(root)]
    ensures st.result.Reply? ==> st.result.code == 200 || st.result.code == 401
    ensures st.result.Raised? ==> st.result.error == LoginFailed
  {
    if input.email == "" then LoginStep(Reply(401, Some("Email required")), fs, [])
    else if input.password == "" then LoginStep(Reply(401, Some("Password required")), fs, [])
    else
      var first := CreateSessionStep(None, input.email, input.password, loginReply);
      if first.result.Challenge? then
        if input.tfaCode == "" then LoginStep(Reply(401, Some("2FA code required")), fs, first.sent)
        else
          var tfa := TfaSessionStep(first.held, first.result.payload.tfaApiToken.value, input.tfaCode, tfaReply);
          Persist(fs, root, tfa.result, first.sent + tfa.sent)
      else
        Persist(fs, root, if first.result.Established? then Some(first.result.session) else None, first.sent)
  }

  /** The last part of `login`: save the session when it carries an access token, otherwise raise. */
  function Persist(fs: FileSystem, root: string, session: Option<Session>, sent: seq<Request>): (st: LoginStep)
    ensures st.sent == sent
    ensures st.result == Ok200 ==> session.Some? && session.value.accessToken != "" && Holds(st.fs, root, session.value)
    ensures session.None? || session.value.accessToken == "" ==> st == LoginStep(Raised(LoginFailed), fs, sent)
    ensures st.result != Ok200 ==> st.result == Raised(LoginFailed)
    ensures st.result != Ok200 ==> (SessionPath(root) in st.fs <==> SessionPath(root) in fs)
    ensures st.result != Ok200 && SessionPath(root) in fs ==> st.fs[SessionPath(root)] == fs[SessionPath(root)]
  {
    if session.Some? && session.value.accessToken != "" then
      var saved := Saved(fs, root, session.value);
      LoginStep(saved.1, saved.0, sent)
    else LoginStep(Raised(LoginFailed), fs, sent)
  }

  /** The settings-page server: the storage path it was started with and the files under it. */
  class PluginUiServer {
    const storagePath: string
    var fs: FileSystem

    constructor (storagePath: string, fs: FileSystem)
      ensures this.storagePath == storagePath && this.fs == fs
    {
      this.storagePath := storagePath;
      this.fs := fs;
    }

    method CheckSession() returns (r: UiResult)
      ensures r == CheckSessionCode(fs, storagePath)
    {
      if SessionPath(storagePath) in fs {
        return Ok200;
      }
      return Reply(404, None);
    }

    method ClearSession() returns (r: UiResult)
      modifies this
      ensures (fs, r) == Cleared(old(fs), storagePath)
    {
      var found := CheckSession();
      if found.code == 200 {
        var path := SessionPath(storagePath);
        if fs[path].Dir? {
          return Raised(DeleteFailed);
        }
        fs := fs - {path};
      }
      return Ok200;
    }

    method Login(input: LoginInput, loginReply: Reply<Payload>, tfaReply: Reply<Payload>)
      returns (r: UiResult, sent: seq<Request>)
      modifies this
      ensures LoginStep(r, fs, sent) == LoginSpec(old(fs), storagePath, input, loginReply, tfaReply)
    {
      var authClient := new SmartRentAuthClient(None);
      sent := [];
      if input.email == "" {
        return Reply(401, Some("Email required")), sent;
      }
      if input.password == "" {
        return Reply(401, Some("Password required")), sent;
      }
      // A new client holds no session, so neither the clock nor a refresh reply is consulted.
      var sessionData;
      sessionData, sent := authClient.GetSession(input.email, input.password, 0, NoResponse, loginReply);
      var session: Option<Session>;
      if sessionData.Challenge? {
        if input.tfaCode == "" {
          return Reply(401, Some("2FA code required")), sent;
        }
        var tfaSent;
        session, tfaSent := authClient.GetTfaSession(sessionData.payload.tfaApiToken.value, input.tfaCode, tfaReply);
        sent := sent + tfaSent;
      } else {
        session := if sessionData.Established? then Some(sessionData.session) else None;
      }
      if session.None? || session.value.accessToken == "" {
        return Raised(LoginFailed), sent;
      }
      var plugin, path := PluginPath(storagePath), SessionPath(storagePath);
      if plugin !in fs {
        fs := fs[plugin := Dir];
      }
      if fs[plugin].File? || (path in fs && fs[path].Dir?) {
        return Raised(LoginFailed), sent;
      }
      fs := fs[path := File(SessionJson(session.value))];
      r := Ok200;
    }
  }
}
