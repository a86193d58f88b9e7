/** The authentication commands: offline registration, logging in from a
    cached Microsoft session, recalling a session for a known client, and the
    two halves of a Microsoft device-code login. Progress events are returned
    as the sequence of states passed to the front end, in order. */
module ApiAuth {
  import opened Wrappers
  import opened Uuids
  import Auth
  import Clients
  import AuthCaches
  import Controllers
  import opened Api

  // ----- Messages -----

  const LookingMessage: string := "Looking for cache..."
  const ExpiredMessage: string := "Cache expired, re-authentication is required."
  const ValidCacheMessage: string := "Valid cache found."
  const NoCacheMessage: string := "No cache found."
  const ValidatingMessage: string := "Validating cache..."
  const RegisteringMessage: string := "Registering new client from cached profile..."
  const ValidatedMessage: string := "Cache successfully validated, authentication is allowed."
  const NotFoundMessage: string := "Account not found in cache."
  const NotCachedError: string := "Account not found in cache or cached token(s) have expired."
  const VerifyingMessage: string := "Verifying account..."
  const OfflineCreatedMessage: string := "Offline account created."
  const AccountExistsError: string := "Account already exists."
  const NoProfileError: string := "No profile found from account."
  const NoLoginPrefix: string := "No ongoing auth found from provided login key: "

  /** The link text appended to the errors of a recalled session. */
  const BugReportLabel: string := "<u className=\"text-red-500\">Report a bug</u> if you believe this is an error."

  /** The error when a known client has no cached login, around the client's
      Minecraft UUID; the markup is kept as the program writes it, escaped
      quotes, line breaks and indentation included. */
  const NoKeyHead: string := "<div>No authentication key found in cache for client with ID <u className=\\\"text-red-400\\\">"
  const NoKeyTail: string := "</u>.\n                        <br />Please check your account cache in <u className=\\\"text-red-400\\\">auth_cache.json</u> if allowed to.\n                        <br /> <br />\n                        "
  const DivOpen: string := "<div>"
  const DivClose: string := "</div>"
  const Breaks: string := "<br /><br />"
  const NoClientHead: string := "<div>No client registered with ID: "

  function NoKeyMessage(mcUuid: string): string {
    NoKeyHead + mcUuid + NoKeyTail + BugReportLabel + DivClose
  }

  /** The error when no client is stored under the recalled id. */
  function NoClientMessage(id: string): string {
    NoClientHead + id + Breaks + BugReportLabel + DivClose
  }

  /** An error of the cached login, wrapped for the recall command. */
  function Wrapped(e: string): string {
    DivOpen + e + Breaks + BugReportLabel + DivClose
  }

  /** The login key names a cached session that has not expired at `now`. */
  predicate Usable(entries: map<string, AuthCaches.MinecraftAuthCache>, key: string, now: U64) {
    key in entries && !AuthCaches.HasExpired(entries[key], now)
  }

  /** `AuthCredentials`: the link and code shown to the user. */
  datatype AuthCredentials = AuthCredentials(uri: string, code: string)

  // ----- auth_validity -----

  /** `auth_validity` (with the UUID already parsed): the expiry of a cached
      session for that Minecraft UUID, or 0 when none is cached. */
  method AuthValidity(ctx: ApiContext, uuid: Uuid) returns (r: U64)
    ensures !ctx.authCache.Caches(uuid) ==> r == 0
    ensures ctx.authCache.Caches(uuid) ==>
      exists key :: key in ctx.authCache.entries && ctx.authCache.entries[key].profile.uuid == uuid &&
                    ctx.authCache.entries[key].expiration == r
  {
    var cache := ctx.authCache.GetFromMcUuid(uuid);
    match cache {
      case Some(c) =>
        var key :| key in ctx.authCache.entries && ctx.authCache.entries[key] == c;
        return c.expiration;
      case None =>
        return 0;
    }
  }

  // ----- cached_authentication / auth_ms_cache -----

  /** The client a cached session logs in: the stored client with the
      profile's UUID, or else one registered for the profile under `newId`. */
  method Admit(clients: Clients.ClientList, profile: Auth.MinecraftProfile, newId: Uuid, saveError: Option<string>)
    returns (r: Result<Uuid, string>)
    requires clients.Valid() && newId !in clients.clients
    modifies clients
    ensures clients.Valid()
    ensures r.Ok? ==> r.value in clients.clients && clients.clients[r.value].uuid == profile.uuid
    ensures old(clients.HasMcUuid(profile.uuid)) ==> r.Ok? && clients.clients == old(clients.clients)
    ensures !old(clients.HasMcUuid(profile.uuid)) && old(clients.HasUsername(profile.username)) ==>
      r == Err("Client " + profile.username + " already exists") && clients.clients == old(clients.clients)
    ensures !old(clients.HasMcUuid(profile.uuid)) && !old(clients.HasUsername(profile.username)) ==>
      clients.clients == old(clients.clients)[newId :=
        Clients.Client(newId, profile.username, profile.uuid, Clients.AuthTypeOf(profile), map[])] &&
      r == (if saveError.None? then Ok(newId) else Err(saveError.value))
  {
    var found := clients.GetByMcUuid(profile.uuid);
    match found {
      case Some(c) =>
        var k :| k in clients.clients && clients.clients[k] == c;
        r := Ok(c.id);
      case None =>
        r := clients.Register(profile, newId, saveError);
    }
  }

  /** The ids whose controllers logging in the Minecraft UUID `mc` may
      replace: the stored clients with that UUID or, when there is none,
      `newId`, the id a new client gets. */
  function Candidates(clients: map<Uuid, Clients.Client>, mc: Uuid, newId: Uuid): (r: set<Uuid>)
    ensures forall k :: k in clients && clients[k].uuid == mc ==> k in r
    ensures (forall k :: k in clients ==> clients[k].uuid != mc) ==> r == {newId}
  {
    if exists k :: k in clients && clients[k].uuid == mc
    then set k | k in clients && clients[k].uuid == mc
    else {newId}
  }

  /** `ClientController::new_cached` followed by `add`: the client is logged in
      with a controller holding the cached session, with one instance per
      stored connection, replacing any controller it had. */
  method LogIn(ctx: ApiContext, clientId: Uuid, cache: AuthCaches.MinecraftAuthCache)
    requires ctx.Valid() && clientId in ctx.clients.clients
    modifies ctx.controllers, ctx.controllers.Owned(clientId)
    ensures ctx.Valid()
    ensures clientId in old(ctx.controllers.list) ==>
      Controllers.Dropped(old(ctx.controllers.list[clientId]), old(ctx.controllers.list[clientId].Tasks()))
    ensures clientId in ctx.controllers.list && fresh(ctx.controllers.list[clientId])
    ensures ctx.controllers.list == old(ctx.controllers.list)[clientId := ctx.controllers.list[clientId]]
    ensures ctx.controllers.list[clientId].uuid == cache.profile.uuid
    ensures ctx.controllers.list[clientId].auth == Auth.Microsoft(cache.accessToken, cache.msa, cache.profile)
    ensures ctx.controllers.list[clientId].instances.Keys == ctx.clients.clients[clientId].connections.Keys
  {
    var made := Controllers.ClientController.NewCached(ctx.clients, clientId, cache);
    assert made.Ok?;
    ctx.controllers.Add(made.value);
  }

  /** The end of `cached_authentication` once an unexpired session is found:
      the client it admits is logged in with a controller built from the
      session, and a controller that client had is dropped. Only the
      controllers of the clients that session could admit are touched. */
  method LogInCached(ctx: ApiContext, cache: AuthCaches.MinecraftAuthCache, newId: Uuid, saveError: Option<string>)
    returns (r: Result<Uuid, string>)
    requires ctx.Valid() && newId !in ctx.clients.clients
    modifies ctx.clients, ctx.controllers,
             ctx.controllers.OwnedBy(Candidates(ctx.clients.clients, cache.profile.uuid, newId))
    ensures ctx.Valid()
    ensures old(ctx.clients.HasMcUuid(cache.profile.uuid)) ==> r.Ok? && ctx.clients.clients == old(ctx.clients.clients)
    ensures !old(ctx.clients.HasMcUuid(cache.profile.uuid)) && old(ctx.clients.HasUsername(cache.profile.username)) ==>
      r == Err("Client " + cache.profile.username + " already exists") && ctx.clients.clients == old(ctx.clients.clients)
    ensures !old(ctx.clients.HasMcUuid(cache.profile.uuid)) && !old(ctx.clients.HasUsername(cache.profile.username)) ==>
      ctx.clients.clients == old(ctx.clients.clients)[newId :=
        Clients.Client(newId, cache.profile.username, cache.profile.uuid, Clients.AuthTypeOf(cache.profile), map[])] &&
      r == (if saveError.None? then Ok(newId) else Err(saveError.value))
    ensures r.Err? ==> ctx.controllers.list == old(ctx.controllers.list)
    ensures r.Ok? && r.value in old(ctx.controllers.list) ==>
      Controllers.Dropped(old(ctx.controllers.list[r.value]), old(ctx.controllers.list[r.value].Tasks()))
    ensures r.Ok? ==>
      var id := r.value;
      id in ctx.clients.clients && ctx.clients.clients[id].uuid == cache.profile.uuid &&
      id in ctx.controllers.list && fresh(ctx.controllers.list[id]) &&
      ctx.controllers.list == old(ctx.controllers.list)[id := ctx.controllers.list[id]] &&
      ctx.controllers.list[id].uuid == cache.profile.uuid &&
      ctx.controllers.list[id].auth == Auth.Microsoft(cache.accessToken, cache.msa, cache.profile) &&
      ctx.controllers.list[id].instances.Keys == ctx.clients.clients[id].connections.Keys
  {
    ghost var keys := Candidates(ctx.clients.clients, cache.profile.uuid, newId);
    forall k | k in keys
      ensures ctx.controllers.Owned(k) <= ctx.controllers.OwnedBy(keys)
    {
      ctx.controllers.OwnedByCovers(keys, k);
    }
    r := Admit(ctx.clients, cache.profile, newId, saveError);
    if r.Err? {
      return;
    }
    assert r.value in keys;
    assert ctx.controllers.Instances() == old(ctx.controllers.Instances());
    assert ctx.controllers.Owned(r.value) == old(ctx.controllers.Owned(r.value));
    LogIn(ctx, r.value, cache);
  }

  /** The cache lookup of `cached_authentication`: the session under the
      login key when it has not expired, with the progress it reports. */
  function LookUp(entries: map<string, AuthCaches.MinecraftAuthCache>, loginKey: string, now: U64)
    : (r: (Option<AuthCaches.MinecraftAuthCache>, seq<Auth.AuthState>))
    ensures r.0.Some? <==> Usable(entries, loginKey, now)
    ensures r.0.Some? ==> r.0.value == entries[loginKey]
    ensures r.1 == [Auth.Working(LookingMessage),
                    if r.0.Some? then Auth.Working(ValidCacheMessage)
                    else Auth.Error(if loginKey in entries then ExpiredMessage else NoCacheMessage),
                    Auth.Working(ValidatingMessage)]
  {
    var start := [Auth.Working(LookingMessage)];
    if loginKey !in entries then (None, start + [Auth.Error(NoCacheMessage), Auth.Working(ValidatingMessage)])
    else if AuthCaches.HasExpired(entries[loginKey], now)
    then (None, start + [Auth.Error(ExpiredMessage), Auth.Working(ValidatingMessage)])
    else (Some(entries[loginKey]), start + [Auth.Working(ValidCacheMessage), Auth.Working(ValidatingMessage)])
  }

  /** `cached_authentication` (also the whole of `auth_ms_cache`): with an
      unexpired session cached under `loginKey`, finds the client with that
      profile's UUID or registers one under `newId`, then logs it in by adding
      a controller built from the cache. A failed registration ends the command
      with the client list already changed and no controller added. */
  method CachedAuthentication(ctx: ApiContext, loginKey: string, now: U64, newId: Uuid, saveError: Option<string>)
    returns (r: Result<(string, Auth.MinecraftProfile), string>, events: seq<Auth.AuthState>)
    requires ctx.Valid() && newId !in ctx.clients.clients
    modifies ctx.clients, ctx.controllers,
             if Usable(ctx.authCache.entries, loginKey, now)
             then ctx.controllers.OwnedBy(Candidates(ctx.clients.clients, ctx.authCache.entries[loginKey].profile.uuid, newId))
             else {}
    ensures ctx.Valid()
    ensures !Usable(ctx.authCache.entries, loginKey, now) ==>
      r == Err(NotCachedError) &&
      ctx.clients.clients == old(ctx.clients.clients) && ctx.controllers.list == old(ctx.controllers.list) &&
      events == LookUp(ctx.authCache.entries, loginKey, now).1 + [Auth.Error(NotFoundMessage)]
    ensures Usable(ctx.authCache.entries, loginKey, now) ==>
      var profile := ctx.authCache.entries[loginKey].profile;
      var known := old(ctx.clients.HasMcUuid(profile.uuid));
      events == LookUp(ctx.authCache.entries, loginKey, now).1 +
                (if known then [] else [Auth.Working(RegisteringMessage)]) +
                (if r.Ok? then [Auth.Success(ValidatedMessage)] else [])
    ensures Usable(ctx.authCache.entries, loginKey, now) ==>
      var profile := ctx.authCache.entries[loginKey].profile;
      old(ctx.clients.HasMcUuid(profile.uuid)) ==> r.Ok? && ctx.clients.clients == old(ctx.clients.clients)
    ensures Usable(ctx.authCache.entries, loginKey, now) ==>
      var profile := ctx.authCache.entries[loginKey].profile;
      !old(ctx.clients.HasMcUuid(profile.uuid)) && old(ctx.clients.HasUsername(profile.username)) ==>
        r == Err("Client " + profile.username + " already exists") && ctx.clients.clients == old(ctx.clients.clients)
    ensures Usable(ctx.authCache.entries, loginKey, now) ==>
      var profile := ctx.authCache.entries[loginKey].profile;
      !old(ctx.clients.HasMcUuid(profile.uuid)) && !old(ctx.clients.HasUsername(profile.username)) ==>
        ctx.clients.clients == old(ctx.clients.clients)[newId :=
          Clients.Client(newId, profile.username, profile.uuid, Clients.AuthTypeOf(profile), map[])] &&
        r == (if saveError.None? then Ok((newId.text, profile)) else Err(saveError.value))
    ensures r.Err? ==> ctx.controllers.list == old(ctx.controllers.list)
    ensures r.Ok? ==>
      var id := Uuid(r.value.0);
      var cache := ctx.authCache.entries[loginKey];
      Usable(ctx.authCache.entries, loginKey, now) && r.value.1 == cache.profile &&
      id in ctx.clients.clients && ctx.clients.clients[id].uuid == cache.profile.uuid &&
      id in ctx.controllers.list && fresh(ctx.controllers.list[id]) &&
      ctx.controllers.list == old(ctx.controllers.list)[id := ctx.controllers.list[id]] &&
      ctx.controllers.list[id].uuid == cache.profile.uuid &&
      ctx.controllers.list[id].auth == Auth.Microsoft(cache.accessToken, cache.msa, cache.profile) &&
      ctx.controllers.list[id].instances.Keys == ctx.clients.clients[id].connections.Keys
  {
    var lookUp := LookUp(ctx.authCache.entries, loginKey, now);
    var found := lookUp.0;
    events := lookUp.1;
    if found.None? {
      events := events + [Auth.Error(NotFoundMessage)];
      return Err(NotCachedError), events;
    }
    var cache := found.value;
    if !ctx.clients.HasMcUuid(cache.profile.uuid) {
      events := events + [Auth.Working(RegisteringMessage)];
    }
    var admitted := LogInCached(ctx, cache, newId, saveError);
    if admitted.Err? {
      return Err(admitted.error), events;
    }
    events := events + [Auth.Success(ValidatedMessage)];
    r := Ok((admitted.value.text, cache.profile));
  }

  // ----- recall_authentication -----

  /** How recalling the session cached under `key` ends: logged in when the
      session is usable, otherwise the cached login's error wrapped for the
      recall, with that login's progress events in either case. */
  predicate Recalled(entries: map<string, AuthCaches.MinecraftAuthCache>, key: string, now: U64,
                     r: Result<bool, string>, events: seq<Auth.AuthState>)
  {
    if Usable(entries, key, now)
    then r == Ok(true) && events == LookUp(entries, key, now).1 + [Auth.Success(ValidatedMessage)]
    else r == Err(Wrapped(NotCachedError)) && events == LookUp(entries, key, now).1 + [Auth.Error(NotFoundMessage)]
  }

  /** The second half of `recall_authentication`, for a stored client that is
      not logged in: the session cached for its Minecraft UUID logs it in. The
      client already exists, so nothing is registered. */
  method RecallStored(ctx: ApiContext, id: Uuid, now: U64, newId: Uuid, saveError: Option<string>)
    returns (r: Result<bool, string>, events: seq<Auth.AuthState>)
    requires ctx.Valid() && newId !in ctx.clients.clients && id in ctx.clients.clients
    modifies ctx.clients, ctx.controllers,
             ctx.controllers.OwnedBy(Candidates(ctx.clients.clients, ctx.clients.clients[id].uuid, newId))
    ensures ctx.Valid()
    ensures ctx.clients.clients == old(ctx.clients.clients)
    ensures r.Ok? ==> r.value
    ensures !ctx.authCache.Caches(ctx.clients.clients[id].uuid) ==>
      r == Err(NoKeyMessage(ctx.clients.clients[id].uuid.text)) && events == []
    ensures ctx.authCache.Caches(ctx.clients.clients[id].uuid) ==>
      exists key :: key in ctx.authCache.entries && ctx.authCache.entries[key].profile.uuid == ctx.clients.clients[id].uuid &&
        Recalled(ctx.authCache.entries, key, now, r, events)
    ensures r.Ok? ==>
      exists c :: c in ctx.clients.clients && ctx.clients.clients[c].uuid == ctx.clients.clients[id].uuid &&
        c in ctx.controllers.list && fresh(ctx.controllers.list[c]) &&
        ctx.controllers.list == old(ctx.controllers.list)[c := ctx.controllers.list[c]] &&
        ctx.controllers.list[c].uuid == ctx.clients.clients[id].uuid &&
        ctx.controllers.list[c].instances.Keys == ctx.clients.clients[c].connections.Keys
    ensures r.Err? ==> ctx.controllers.list == old(ctx.controllers.list)
  {
    var mcUuid := ctx.clients.clients[id].uuid;
    var key := ctx.authCache.GetKeyFromMcUuid(mcUuid);
    if key.None? {
      return Err(NoKeyMessage(mcUuid.text)), [];
    }
    assert ctx.clients.HasMcUuid(mcUuid);
    assert ctx.authCache.entries[key.value].profile.uuid == mcUuid;
    assert ctx.controllers.Instances() == old(ctx.controllers.Instances());
    var result;
    result, events := CachedAuthentication(ctx, key.value, now, newId, saveError);
    match result {
      case Ok(v) =>
        assert ctx.controllers.list[Uuid(v.0)].uuid == mcUuid;
        r := Ok(true);
      case Err(e) =>
        r := Err(Wrapped(e));
    }
    assert Recalled(ctx.authCache.entries, key.value, now, r, events);
  }

  /** `recall_authentication`: succeeds at once for a client already logged
      in; otherwise logs in a stored client from the session cached for its
      Minecraft UUID. It never registers a client. */
  method RecallAuthentication(ctx: ApiContext, parsed: Result<Uuid, string>, now: U64, newId: Uuid, saveError: Option<string>)
    returns (r: Result<bool, string>, events: seq<Auth.AuthState>)
    requires ctx.Valid() && newId !in ctx.clients.clients
    modifies ctx.clients, ctx.controllers,
             if parsed.Ok? && parsed.value in ctx.clients.clients
             then ctx.controllers.OwnedBy(Candidates(ctx.clients.clients, ctx.clients.clients[parsed.value].uuid, newId))
             else {}
    ensures ctx.Valid()
    ensures ctx.clients.clients == old(ctx.clients.clients)
    ensures r.Ok? ==> r.value
    ensures parsed.Err? ==> r == Err(parsed.error) && events == []
    ensures parsed.Ok? && old(ctx.controllers.Contains(parsed.value)) ==>
      r == Ok(true) && events == [] && ctx.controllers.list == old(ctx.controllers.list)
    ensures parsed.Ok? && !old(ctx.controllers.Contains(parsed.value)) && parsed.value !in ctx.clients.clients ==>
      r == Err(NoClientMessage(parsed.value.text)) && events == []
    ensures parsed.Ok? && !old(ctx.controllers.Contains(parsed.value)) && parsed.value in ctx.clients.clients &&
            !ctx.authCache.Caches(ctx.clients.clients[parsed.value].uuid) ==>
      r == Err(NoKeyMessage(ctx.clients.clients[parsed.value].uuid.text)) && events == []
    ensures parsed.Ok? && !old(ctx.controllers.Contains(parsed.value)) && parsed.value in ctx.clients.clients &&
            ctx.authCache.Caches(ctx.clients.clients[parsed.value].uuid) ==>
      var mc := ctx.clients.clients[parsed.value].uuid;
      exists key :: key in ctx.authCache.entries && ctx.authCache.entries[key].profile.uuid == mc &&
        Recalled(ctx.authCache.entries, key, now, r, events)
    ensures r.Ok? && !old(ctx.controllers.Contains(parsed.value)) ==>
      parsed.value in ctx.clients.clients &&
      var mc := ctx.clients.clients[parsed.value].uuid;
      exists c :: c in ctx.clients.clients && ctx.clients.clients[c].uuid == mc &&
        c in ctx.controllers.list && fresh(ctx.controllers.list[c]) &&
        ctx.controllers.list == old(ctx.controllers.list)[c := ctx.controllers.list[c]] &&
        ctx.controllers.list[c].uuid == mc &&
        ctx.controllers.list[c].instances.Keys == ctx.clients.clients[c].connections.Keys
    ensures r.Err? ==> ctx.controllers.list == old(ctx.controllers.list)
  {
    if parsed.Err? {
      return Err(parsed.error), [];
    }
    var id := parsed.value;
    if ctx.controllers.Get(id).Some? {
      return Ok(true), [];
    }
    var client := ctx.clients.GetById(id);
    if client.None? {
      return Err(NoClientMessage(id.text)), [];
    }
    r, events := RecallStored(ctx, id, now, newId, saveError);
  }

  // ----- auth_offline -----

  /** `auth_offline`: registers an offline account under `newId`, refusing a
      username that is already registered; `nameUuid` is the name-based UUID
      hash. */
  method AuthOffline(ctx: ApiContext, username: string, nameUuid: string -> Uuid, newId: Uuid, saveError: Option<string>)
    returns (r: Result<(string, Auth.MinecraftProfile), string>, events: seq<Auth.AuthState>)
    requires ctx.Valid() && newId !in ctx.clients.clients
    modifies ctx.clients
    ensures ctx.Valid()
    ensures old(ctx.clients.HasUsername(username)) ==>
      r == Err(AccountExistsError) && ctx.clients.clients == old(ctx.clients.clients) &&
      events == [Auth.Working(VerifyingMessage), Auth.Error("Account " + username + " is already registered.")]
    ensures !old(ctx.clients.HasUsername(username)) ==>
      var profile := Auth.WithUsername(username, nameUuid);
      ctx.clients.clients == old(ctx.clients.clients)[newId := Clients.Client(newId, username, profile.uuid, Clients.Offline, map[])] &&
      r == (if saveError.None? then Ok((newId.text, profile)) else Err(saveError.value)) &&
      events == [Auth.Working(VerifyingMessage), Auth.Working(OfflineCreatedMessage)]
  {
    events := [Auth.Working(VerifyingMessage)];
    var existing := ctx.clients.GetByUsername(username);
    if existing.Some? {
      events := events + [Auth.Error("Account " + username + " is already registered.")];
      return Err(AccountExistsError), events;
    }
    events := events + [Auth.Working(OfflineCreatedMessage)];
    var profile := Auth.WithUsername(username, nameUuid);
    var id := ctx.clients.Register(profile, newId, saveError);
    match id {
      case Ok(v) => r := Ok((v.text, profile));
      case Err(e) => r := Err(e);
    }
  }

  // ----- auth_ms_init -----

  /** `auth_ms_init`: starts a Microsoft login, asking the provider for a device
      code (`reply`). On success the login is kept under `loginKey`, replacing
      any login in progress there, and its link and code are returned. */
  method AuthMsInit(ctx: ApiContext, loginKey: string, reply: Result<Auth.DeviceCodeResponse, string>)
    returns (r: Result<AuthCredentials, string>, events: seq<Auth.AuthState>)
    requires ctx.Valid()
    modifies ctx
    ensures ctx.Valid()
    ensures events == [Auth.Working("Getting access info..."),
                       if reply.Ok? then Auth.Working("Got MS access credentials.") else Auth.Error(reply.error)]
    ensures reply.Err? ==> r == Err(reply.error) && ctx.ongoingAuths == old(ctx.ongoingAuths)
    ensures reply.Ok? ==>
      r == Ok(AuthCredentials(reply.value.verificationUri, reply.value.userCode)) &&
      loginKey in ctx.ongoingAuths && fresh(ctx.ongoingAuths[loginKey]) &&
      ctx.ongoingAuths == old(ctx.ongoingAuths)[loginKey := ctx.ongoingAuths[loginKey]] &&
      ctx.ongoingAuths[loginKey].credentials == Some(Auth.FromDeviceCode(reply.value))
  {
    var auth := new Auth.Authentication();
    events := auth.GetAccessInfo(reply);
    if auth.credentials.Some? {
      var credentials := auth.credentials.value;
      ctx.ongoingAuths := ctx.ongoingAuths[loginKey := auth];
      r := Ok(AuthCredentials(credentials.uri, credentials.code));
    } else {
      r := Err(Auth.Display(auth.state));
    }
  }

  // ----- auth_ms_finish -----

  const NoMsaMessage: string := "No MSA credentials to authenticate with"

  /** The provider steps of `auth_ms_finish` on a login that holds its device
      code: the user's sign-in (`msReply`), then the session token
      (`tokenReply`) and the profile (`profileReply`). A failed sign-in is
      reported in the progress but the login then ends on the missing
      Microsoft token. */
  method Complete(auth: Auth.Authentication, msReply: Result<Auth.Msa, string>,
                  tokenReply: Result<Auth.MinecraftToken, string>, profileReply: Result<Auth.ProfileResponse, string>)
    returns (events: seq<Auth.AuthState>)
    requires Pending(auth)
    modifies auth
    ensures auth.Valid()
    ensures msReply.Err? ==>
      auth.accessToken.None? && auth.state == Auth.Error(NoMsaMessage) &&
      events == [Auth.Working("Waiting for User authentication..."), Auth.Working("Authenticating Microsoft account..."),
                 Auth.Error(msReply.error),
                 Auth.Working("Waiting for Microsoft authentication..."), Auth.Error(NoMsaMessage)]
    ensures msReply.Ok? && tokenReply.Err? ==> auth.accessToken.None? && auth.state == Auth.Error(tokenReply.error)
    ensures msReply.Ok? && tokenReply.Ok? ==>
      auth.msa == Some(msReply.value) && auth.accessToken == Some(tokenReply.value) &&
      auth.profile == (if profileReply.Ok? then Some(Auth.FromProfileResponse(profileReply.value)) else None) &&
      |events| > 0 && events[|events| - 1] == Auth.Success(tokenReply.value.accessToken)
  {
    var _, msEvents := auth.AuthenticateMs(Auth.DefaultTimeout(), msReply);
    var _, _, mcEvents := auth.AuthenticateMinecraft(tokenReply, profileReply);
    events := msEvents + mcEvents;
  }

  /** `ClientController::new` followed by `add`: the client is logged in with a
      controller that has no instances yet. */
  method LogInFresh(ctx: ApiContext, id: Uuid, profile: Auth.MinecraftProfile, auth: Auth.AuthProtocol)
    requires ctx.Valid()
    modifies ctx.controllers, ctx.controllers.Owned(id)
    ensures ctx.Valid()
    ensures id in old(ctx.controllers.list) ==>
      Controllers.Dropped(old(ctx.controllers.list[id]), old(ctx.controllers.list[id].Tasks()))
    ensures id in ctx.controllers.list && fresh(ctx.controllers.list[id])
    ensures ctx.controllers.list == old(ctx.controllers.list)[id := ctx.controllers.list[id]]
    ensures ctx.controllers.list[id].instances == map[] && ctx.controllers.list[id].auth == auth
    ensures ctx.controllers.list[id].username == profile.username && ctx.controllers.list[id].uuid == profile.uuid
  {
    var controller := new Controllers.ClientController(id, profile.username, profile.uuid, auth);
    ctx.controllers.Add(controller);
  }

  /** The registering branch of `auth_ms_finish`: caches the session under the
      login key, registers the profile's client under `newId` and logs it in
      with a controller holding the session. */
  method Store(ctx: ApiContext, loginKey: string, token: Auth.MinecraftToken, msa: Auth.Msa,
               profile: Auth.MinecraftProfile, newId: Uuid, saveError: Option<string>)
    returns (r: Result<(string, Auth.MinecraftProfile), string>)
    requires ctx.Valid() && newId !in ctx.clients.clients && profile.authenticated
    modifies ctx.clients, ctx.authCache, ctx.controllers, ctx.controllers.Owned(newId)
    ensures ctx.Valid()
    ensures ctx.authCache.entries ==
      old(ctx.authCache.entries)[loginKey := AuthCaches.MinecraftAuthCache(token.accessToken, token.expiresAt, msa, profile)]
    ensures old(ctx.clients.HasUsername(profile.username)) ==>
      r == Err("Client " + profile.username + " already exists") &&
      ctx.clients.clients == old(ctx.clients.clients) && ctx.controllers.list == old(ctx.controllers.list)
    ensures !old(ctx.clients.HasUsername(profile.username)) ==>
      ctx.clients.clients == old(ctx.clients.clients)[newId :=
        Clients.Client(newId, profile.username, profile.uuid, Clients.Microsoft, map[])]
    ensures !old(ctx.clients.HasUsername(profile.username)) && saveError.Some? ==>
      r == Err(saveError.value) && ctx.controllers.list == old(ctx.controllers.list)
    ensures !old(ctx.clients.HasUsername(profile.username)) && saveError.None? ==>
      r == Ok((newId.text, profile)) && newId in ctx.controllers.list &&
      ctx.controllers.list == old(ctx.controllers.list)[newId := ctx.controllers.list[newId]] &&
      fresh(ctx.controllers.list[newId]) && ctx.controllers.list[newId].instances == map[] &&
      ctx.controllers.list[newId].auth == Auth.Microsoft(token.accessToken, msa, profile)
  {
    var cache := AuthCaches.MinecraftAuthCache(token.accessToken, token.expiresAt, msa, profile);
    ctx.authCache.entries := ctx.authCache.entries[loginKey := cache];
    var id := ctx.clients.Register(profile, newId, saveError);
    if id.Err? {
      return Err(id.error);
    }
    LogInFresh(ctx, id.value, profile, Auth.Microsoft(token.accessToken, msa, profile));
    r := Ok((id.value.text, profile));
  }

  /** `auth_ms_finish`: takes the login in progress under `loginKey` out of the
      context (so each key serves one login) and completes it with the
      provider. With `register` set, the session is then cached, a client
      registered and a controller added; otherwise the id returned is empty
      and nothing is stored. */
  method AuthMsFinish(ctx: ApiContext, loginKey: string, register: bool,
                      msReply: Result<Auth.Msa, string>, tokenReply: Result<Auth.MinecraftToken, string>,
                      profileReply: Result<Auth.ProfileResponse, string>, newId: Uuid, saveError: Option<string>)
    returns (r: Result<(string, Auth.MinecraftProfile), string>, events: seq<Auth.AuthState>)
    requires ctx.Valid() && newId !in ctx.clients.clients
    modifies ctx, ctx.clients, ctx.authCache, ctx.controllers, ctx.controllers.Owned(newId),
             if loginKey in ctx.ongoingAuths then {ctx.ongoingAuths[loginKey]} else {}
    ensures ctx.Valid()
    ensures ctx.ongoingAuths == old(ctx.ongoingAuths) - {loginKey}
    ensures loginKey !in old(ctx.ongoingAuths) ==> r == Err(NoLoginPrefix + loginKey) && events == []
    ensures loginKey in old(ctx.ongoingAuths) && msReply.Err? ==> r == Err(NoMsaMessage) && Auth.Error(msReply.error) in events
    ensures loginKey in old(ctx.ongoingAuths) && msReply.Ok? && tokenReply.Err? ==> r == Err(tokenReply.error)
    ensures loginKey in old(ctx.ongoingAuths) && msReply.Ok? && tokenReply.Ok? && profileReply.Err? ==>
      r == Err(NoProfileError)
    ensures loginKey in old(ctx.ongoingAuths) && msReply.Ok? && tokenReply.Ok? ==>
      |events| > 0 && events[|events| - 1] == Auth.Success(tokenReply.value.accessToken)
    ensures !(register && loginKey in old(ctx.ongoingAuths) && msReply.Ok? && tokenReply.Ok? && profileReply.Ok?) ==>
      ctx.clients.clients == old(ctx.clients.clients) && ctx.authCache.entries == old(ctx.authCache.entries) &&
      ctx.controllers.list == old(ctx.controllers.list)
    ensures !register && loginKey in old(ctx.ongoingAuths) && msReply.Ok? && tokenReply.Ok? && profileReply.Ok? ==>
      r == Ok(("", Auth.FromProfileResponse(profileReply.value)))
    ensures register && loginKey in old(ctx.ongoingAuths) && msReply.Ok? && tokenReply.Ok? && profileReply.Ok? ==>
      var profile := Auth.FromProfileResponse(profileReply.value);
      ctx.authCache.entries == old(ctx.authCache.entries)[loginKey :=
        AuthCaches.MinecraftAuthCache(tokenReply.value.accessToken, tokenReply.value.expiresAt, msReply.value, profile)] &&
      (r.Ok? <==> !old(ctx.clients.HasUsername(profile.username)) && saveError.None?) &&
      (r.Ok? ==> r.value == (newId.text, profile) && newId in ctx.controllers.list &&
                 ctx.clients.clients == old(ctx.clients.clients)[newId :=
                   Clients.Client(newId, profile.username, profile.uuid, Clients.Microsoft, map[])] &&
                 ctx.controllers.list[newId].auth == Auth.Microsoft(tokenReply.value.accessToken, msReply.value, profile))
    ensures register && loginKey in old(ctx.ongoingAuths) && msReply.Ok? && tokenReply.Ok? && profileReply.Ok? ==>
      var profile := Auth.FromProfileResponse(profileReply.value);
      (old(ctx.clients.HasUsername(profile.username)) ==>
         r == Err("Client " + profile.username + " already exists") &&
         ctx.clients.clients == old(ctx.clients.clients) && ctx.controllers.list == old(ctx.controllers.list)) &&
      (!old(ctx.clients.HasUsername(profile.username)) ==>
         ctx.clients.clients == old(ctx.clients.clients)[newId :=
           Clients.Client(newId, profile.username, profile.uuid, Clients.Microsoft, map[])]) &&
      (!old(ctx.clients.HasUsername(profile.username)) && saveError.Some? ==>
         r == Err(saveError.value) && ctx.controllers.list == old(ctx.controllers.list)) &&
      (r.Ok? ==>
         ctx.controllers.list == old(ctx.controllers.list)[newId := ctx.controllers.list[newId]] &&
         fresh(ctx.controllers.list[newId]) && ctx.controllers.list[newId].instances == map[])
  {
    if loginKey !in ctx.ongoingAuths {
      return Err(NoLoginPrefix + loginKey), [];
    }
    var auth := ctx.ongoingAuths[loginKey];
    ctx.ongoingAuths := ctx.ongoingAuths - {loginKey};
    events := Complete(auth, msReply, tokenReply, profileReply);
    if auth.accessToken.None? {
      return Err(Auth.Display(auth.state)), events;
    }
    var token := auth.accessToken.value;
    if auth.profile.None? {
      return Err(NoProfileError), events;
    }
    var profile := auth.profile.value;
    if !register {
      return Ok(("", profile)), events;
    }
    r := Store(ctx, loginKey, token, auth.msa.value, profile, newId, saveError);
  }
}
