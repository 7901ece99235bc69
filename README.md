# SmartRent Homebridge plugin: session lifecycle, discovery and login backend

This project is a Dafny model of the core of a Homebridge plugin that exposes SmartRent
locks, switches and leak sensors to HomeKit. It covers four parts of the plugin:

- **The OAuth session client** (`SmartRentAuthClient`, `auth.dfy`). It holds at most one
  session. A held session is reused while its expiry lies strictly in the future. An
  expired one is refreshed through `POST /tokens` when it carries a refresh token. If
  that fails, a new session is created through `POST /sessions` from a username and a
  password, and that login may end in a two-factor continuation. Every server exchange
  is an input `Reply` (`Ok(body)`, `HttpError(status)` or `NoResponse`). The clock is an
  integer number of milliseconds. The requests a call sends are its `sent` list. Pure
  step functions say what each call returns, what session is held afterwards and what
  was sent. The class methods update the held session in place, and each is proved to
  agree with its step function. Cross-call properties are in `auth_properties.dfy`.
- **Device discovery in the API client** (`api.dfy`). It picks a unit, either by
  marketing name or the first one. It asks for the unit's hub's rooms only when the
  unit has a hub. It joins the rooms' device lists in room order. It also builds the
  request paths of the state calls.
- **Accessory reconciliation in the platform** (`platform.dfy`). Each discovered device
  is mapped to an accessory kind. A device whose UUID is not cached is registered. A
  device whose UUID is cached updates the first cached accessory with that UUID, whose
  context device is replaced in place. Cached accessories whose UUID was not discovered
  are unregistered. Calls into the host are appended to a `calls` log, and the cached
  accessories are objects.
- **The settings-page server** (`ui_server.dfy`, `ui_server_properties.dfy`). It answers
  whether a session file exists and deletes it on logout. For a login it checks the
  email, then the password, then the two-factor code when one is demanded. It chains
  the two session calls and writes the session file only when the final session carries
  an access token. The file system is a map from path to node (directory or file).

`wrappers.dfy` holds `Option` and the first-match search that `Array.prototype.find`
performs. `devices.dfy` holds the device record.

### Behaviour worth knowing

- `getAccessToken` (src/lib/auth.ts:280-286) takes no credentials and never logs in.
  It only reuses or refreshes the held session. src/lib/client.ts calls it, and the
  constructor, with arguments that auth.ts does not accept. client.ts is not part of
  this model.
- `getSession` falls back to a password login after every failed refresh, whether the
  server answered with an error status or did not answer (src/lib/auth.ts:146-160, 230-237).
- The client keeps its session in memory only (src/lib/auth.ts:44, 105-114). The one
  place a session is written to disk is the settings-page server
  (homebridge-ui/server.js:75-82).
- The client reports every failure by resolving to `undefined` after logging it
  (src/lib/auth.ts:130-131, 146-160, 183-200, 213, 251-269, 285). It has no separate
  error kinds.

## Model

| member | source | states |
|---|---|---|
| Wrappers.FindIndex | src/platform.ts:141-143 | the index found is the first element satisfying the predicate; none is found only when no element satisfies it |
| Auth.IsOauthSession | src/lib/auth.ts:216-219 | a payload is an OAuth session exactly when its keys include `access_token` (see the "## Left out" line on the other OAuth fields) |
| Auth.IsTfaSession | src/lib/auth.ts:221-224 | a payload is a two-factor continuation exactly when its keys include `tfa_api_token` |
| Auth.ToSession | src/lib/auth.ts:105-111 | the stored session copies user id, access token and refresh token; it counts as fresh at `now` exactly when `now + 100 < 1000 * expires` |
| Auth.SmartRentAuthClient.constructor | src/lib/auth.ts:46-49 | the client starts with the session it is given, or none |
| Auth.SmartRentAuthClient.StoreSession | src/lib/auth.ts:105-114 | overwrites the held session with the one built from the payload and returns it |
| Auth.StoredOrRefreshed | src/lib/auth.ts:120-161 | sends nothing or exactly one `/tokens` request with the held refresh token; with nothing sent the held session is unchanged; after a request a session is returned iff the reply succeeded; a returned session is the held one; a failure leaves the held session unchanged |
| Auth.SmartRentAuthClient.GetStoredOrRefreshedSession | src/lib/auth.ts:120-161 | result, new held session and requests are those of `StoredOrRefreshed` |
| Auth.CreateSessionStep | src/lib/auth.ts:167-214 | no request iff username or password is empty, otherwise exactly one login request; a session is established iff the reply succeeded with an OAuth payload, and it is then held and built from that payload; a two-factor payload without `access_token` is returned unchanged; anything else leaves the held session unchanged |
| Auth.SmartRentAuthClient.CreateSession | src/lib/auth.ts:167-214 | agrees with `CreateSessionStep` |
| Auth.GetSessionStep | src/lib/auth.ts:230-238 | an established session is the held one; otherwise the held session is unchanged; a challenge is a two-factor payload without OAuth data; at most two requests |
| Auth.SmartRentAuthClient.GetSession | src/lib/auth.ts:230-238 | agrees with `GetSessionStep` |
| Auth.TfaSessionStep | src/lib/auth.ts:245-270 | always exactly one `/sessions` request carrying the continuation token and code; a session is stored and returned iff the reply is an OAuth payload; otherwise the held session is unchanged |
| Auth.SmartRentAuthClient.GetTfaSession | src/lib/auth.ts:245-270 | agrees with `TfaSessionStep` |
| Auth.SmartRentAuthClient.SetSession | src/lib/auth.ts:272-274 | the held session becomes the given one |
| Auth.AccessTokenStep | src/lib/auth.ts:280-286 | only `/tokens` requests are ever sent, never a login; a returned token is the held session's access token; no token leaves the held session unchanged |
| Auth.SmartRentAuthClient.GetAccessToken | src/lib/auth.ts:280-286 | agrees with `AccessTokenStep` |
| AuthProperties.FreshSessionReused | src/lib/auth.ts:122-124 | a session expiring after `now` is returned by `getSession` and `getAccessToken` with no request, and stays held |
| AuthProperties.RepeatedReuse | src/lib/auth.ts:280-286 | any series of `getAccessToken` calls before the expiry returns the same token each time, sends nothing and keeps the session |
| AuthProperties.ExpiryBoundaryRefreshes | src/lib/auth.ts:122 | at `now == expires` the session is refreshed, not reused |
| AuthProperties.EmptyRefreshTokenSkipsRefresh | src/lib/auth.ts:127-132 | an expired session without a refresh token sends nothing, returns nothing and stays held |
| AuthProperties.RefreshFailureFallsBack | src/lib/auth.ts:146-160 | a failed refresh keeps the old session, and `getSession` continues with a password login after the `/tokens` request |
| AuthProperties.MissingCredentialsSendNothing | src/lib/auth.ts:169-177 | with no session and an empty username or password, nothing is sent or returned |
| AuthProperties.TwoFactorRoundTrip | src/lib/auth.ts:245-250 | a login answered with a continuation token, then the two-factor call with that token answered with OAuth data, holds the session of the second reply; the two requests are the login and the token with the code |
| AuthProperties.RefreshThenReuse | src/lib/auth.ts:144-145 | after a successful refresh, a later call within the new expiry reuses the renewed session without a request |
| AuthProperties.FirstLoginExample | src/lib/auth.ts:105-111 | a first login with `expires = 2000000000` s holds a session expiring at 1999999999900 ms |
| Api.SelectUnit | src/lib/api.ts:94-97 | with a unit name set, the first record with that marketing name, or none; without one, the first record, or none for an empty list |
| Api.DiscoverDevices | src/lib/api.ts:90-126 | `/units` is always asked first; the rooms are asked for iff a unit was selected and its hub id is non-zero, and then for exactly that hub; the devices are then the rooms' devices joined, otherwise none |
| Api.Flatten | src/lib/api.ts:116-119 | the joined list holds a device iff some room lists it |
| Api.FlattenAppend | src/lib/api.ts:116-119 | joining distributes over concatenation of room lists |
| Api.FlattenLength | src/lib/api.ts:116-119 | the number of devices found is the sum of the rooms' device counts |
| Api.FlattenPosition | src/lib/api.ts:116-119 | device `k` of room `i` sits right after the devices of the rooms before `i` |
| Api.NatToStringRoundTrip | src/lib/api.ts:111 | the decimal rendering of a natural number reads back as that number |
| Api.IntToStringRoundTrip | src/lib/api.ts:111 | the rendering of any integer, sign included, reads back as that integer |
| Api.RoomsPathInjective | src/lib/api.ts:111 | different hub ids give different rooms paths |
| Api.GetState | src/lib/api.ts:129-137 | one read of `/hubs/<hubId>/devices/<deviceId>`; returns the reply's attributes |
| Api.SetState | src/lib/api.ts:139-148 | one patch of the same path carrying the given attributes; returns the reply's attributes |
| Api.DevicePathRoundTrip | src/lib/api.ts:133-135 | ids without `/` are read back from the device path, so each device has its own path |
| Platform.KindOf | src/platform.ts:66-86 | `entry_control` is a lock, `switch_binary` a switch, `sensor_notification` with a `leak` attribute a leak sensor, and nothing else has a handler |
| Platform.InitCallsShape | src/platform.ts:88-122 | one initialisation makes at most one host call and none for an unsupported device; the call carries the device and its kind; it is an update of the cached accessory exactly when one was found, and otherwise a registration under the device's UUID |
| Platform.DeviceUuids | src/platform.ts:134-146 | one UUID per discovered device, in order, whatever its type |
| Platform.LastUpdateAfterInit | src/platform.ts:88-122 | one initialisation changes a cached accessory's context only when it updates that very accessory with a supported device |
| Platform.DeviceCallsJustified | src/platform.ts:88-122 | every host call of the first loop registers a supported device whose UUID is not cached, or updates the first cached accessory with its UUID |
| Platform.SupportedDeviceHandled | src/platform.ts:134-146 | every supported device is registered when its UUID is not cached, and otherwise updates the first cached match |
| Platform.UnregisterCallsExact | src/platform.ts:149-159 | cached accessory `i` is unregistered iff its UUID is not kept; only cached accessories are unregistered |
| Platform.UnregisteredIffUndiscovered | src/platform.ts:149-159 | after discovery a cached accessory is unregistered iff no discovered device of any type has its UUID |
| Platform.ContextUntouched | src/platform.ts:134-146 | a cached accessory that no supported device targets keeps its context |
| Platform.ContextIsLastTarget | src/platform.ts:134-146 | otherwise its context is the last supported device that targets it |
| Platform.SmartRentPlatform.constructor | src/platform.ts:29-38 | the platform starts with no cached accessories and no host calls |
| Platform.SmartRentPlatform.ConfigureAccessory | src/platform.ts:48-53 | appends exactly the given accessory and makes no host call |
| Platform.SmartRentPlatform.InitAccessory | src/platform.ts:55-123 | a supported device either updates the given cached accessory, replacing its context, or is registered; an unsupported one causes no call and no change; no other accessory changes |
| Platform.SmartRentPlatform.InitDevices | src/platform.ts:134-146 | returns the kept UUID list; appends the calls of `DeviceCalls`; each cached context becomes its last update |
| Platform.SmartRentPlatform.UnregisterUndiscovered | src/platform.ts:149-159 | appends the calls of `UnregisterCalls` for the kept list |
| Platform.SmartRentPlatform.DiscoverDevices | src/platform.ts:130-160 | the cached accessory list is unchanged; the host calls are the first loop's followed by the unregistrations |
| Platform.SmartRentPlatform.DidFinishLaunching | src/platform.ts:40-45 | discovery runs iff the access token is present and non-empty; without it no host call is made and every cached context stays as it was; with it the calls and contexts are those of discovery |
| UiServer.SessionPath | homebridge-ui/server.js:13-14 | the session file path starts with the plugin directory followed by `/`, so it lies inside that directory and differs from it |
| UiServer.CheckSessionCode | homebridge-ui/server.js:23-29 | 200 iff something exists at the session path, 404 iff nothing does |
| UiServer.PluginUiServer.CheckSession | homebridge-ui/server.js:23-34 | agrees with `CheckSessionCode` on the current file system |
| UiServer.Cleared | homebridge-ui/server.js:36-47 | on 200 no session file is left; 200 unless the session path is a directory, in which case it raises and changes nothing; no other path changes |
| UiServer.PluginUiServer.ClearSession | homebridge-ui/server.js:36-47 | new file system and result are those of `Cleared` |
| UiServer.Saved | homebridge-ui/server.js:75-85 | the write succeeds iff the plugin path is not a file and the session path is not a directory; the file then holds the session inside a plugin directory; a failure raises and leaves the session path as it was; no other path changes |
| UiServer.Persist | homebridge-ui/server.js:75-88 | 200 only for a session with a non-empty access token, which the file then holds; without one it raises and writes nothing |
| UiServer.LoginSpec | homebridge-ui/server.js:49-94 | an empty email gives 401 "Email required" and an empty password 401 "Password required", both before any request; otherwise the first request is the password login; 200 only when the file holds a session with an access token; any other outcome leaves the session file as it was; replies are 200 or 401 and raised errors say "Failed to login to SmartRent" |
| UiServer.PluginUiServer.Login | homebridge-ui/server.js:49-94 | result, new file system and requests are those of `LoginSpec` |
| UiServer.PluginUiServer.constructor | homebridge-ui/server.js:10-14 | the server starts with its storage path and the existing files |
| UiServerProperties.ClearSessionIdempotent | homebridge-ui/server.js:36-42 | logging out twice gives the same file system and result as once |
| UiServerProperties.LogoutThenCheck | homebridge-ui/server.js:36-42 | after a successful logout the session check answers 404 |
| UiServerProperties.LoginThenCheck | homebridge-ui/server.js:75-84 | after a successful login the session check answers 200 |
| UiServerProperties.PasswordLoginSaves | homebridge-ui/server.js:61-84 | a login answered with OAuth data saves the session built from it, after one request |
| UiServerProperties.TfaCodeRequired | homebridge-ui/server.js:65-69 | a two-factor challenge without a code gives 401 "2FA code required", writes nothing and sends no second request |
| UiServerProperties.TfaLoginSaves | homebridge-ui/server.js:70-73 | the two-factor request pairs the first reply's continuation token with the code, and the session of its reply is saved |
| UiServerProperties.TfaWithoutTokenRaises | homebridge-ui/server.js:86-88 | a two-factor reply without an access token raises and leaves the file system unchanged |
| UiServerProperties.FailedLoginRaises | homebridge-ui/server.js:86-92 | a failed first exchange raises after one request and leaves the file system unchanged |

## Left out

- The HTTP transport: axios instances, interceptors, headers and form encoding (src/lib/request.ts, src/lib/client.ts, `_initializeClient` and `_requestSession` in src/lib/auth.ts). Each exchange is an input reply value instead.
- The difference between a 401 and another error status, and between an error status and no response. It only selects a log message, so every failure is handled alike.
- Logging everywhere. It has no effect on behaviour.
- The HomeKit accessory handlers (src/accessories). A registration or update records the handler kind it would construct, and nothing more.
- The host's accessory objects for new registrations. A `Register` call records the UUID, the device and the kind instead of allocating an object.
- `uuid.generate` on the decimal device id is the given function `uuidOf`.
- The wall clock and `Date`. The current time is an integer millisecond parameter, and the session's expiry is an integer millisecond instant.
- JSON serialisation of the saved session. A session file holds the session value itself.
- Asynchronous ordering. Every handler runs to completion before the next starts.
- API request failures in `discoverDevices`, `getState` and `setState`. They propagate as exceptions from code that is not part of this model, so the replies are given as successful inputs.
- A `hub_id` that is null or missing. Hub ids are integers, and only 0 is falsy.
- The `message` detail that the settings-page server attaches to a raised request error. Only the error's title is modelled.
- File-system failures other than a node of the wrong kind, for example a missing storage directory or lack of permission. `fs.existsSync` throwing, which `checkSession` would turn into "Failed to check session", is also left out.
- A payload whose `access_token` is present but whose other OAuth fields are missing. The model treats the OAuth fields as present together, as the type declaration does.
- A successful `/tokens` reply whose `data` lacks some OAuth fields. The model assumes every successful refresh reply carries all four fields. The code stores the refresh payload without classifying it (src/lib/auth.ts:144-145, unlike the checks at :204 and :248). So a reply such as `data: {}` would be stored as a session with undefined tokens and an invalid expiry, and `getSession` would return it instead of falling back to a password login (src/lib/auth.ts:233-234).
- Platform.SmartRentPlatform.DiscoverDevices: requires that no accessory object is cached twice. The host hands each cached accessory back once.
- UiServer.Cleared: raises when the session path is a directory rather than always replying 200, because removing a directory without `recursive` fails.
- The `onRequest` route table and `ready()` call of the settings-page server. These are wiring into the host UI library.
