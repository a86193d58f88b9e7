# clientworks bookkeeping core, in Dafny

clientworks is a desktop app that runs Minecraft bot accounts. A Rust back
end serves a web front end through commands. This project models the back
end's bookkeeping and proves properties of it:

- **Versions.** The protocol-version enum: its text codec, its list of all
  versions and its default.
- **Servers.** The name-keyed server registry, and how a server is displayed
  as `ip:port`.
- **Clients.** The id-keyed account registry. Registering refuses a username
  that is already taken. Unregistering looks the account up by its Minecraft
  UUID.
- **Auth.** The Microsoft device-code login as a three-step state machine
  (`Authentication`), offline profiles, the timeout arithmetic, and token
  refresh.
- **AuthCaches.** The credential cache: expiry, lookup by Minecraft UUID, and
  the progress events.
- **Instances.** One bot connection (`ClientInstance`): its running flag, chat
  queue and background task (connect, disconnect, kill, soft kill, drop), and
  the tick/chat/init event handler.
- **ChatLogs.** The registry of active chat histories, and the flush loop
  that sends each history to the front end.
- **Controllers.** A per-account `ClientController` owns that account's
  instances. The `ControllerContainer` holds the logged-in accounts.
- **Api, ApiAuth, ApiControllers.** The shared context and the commands:
  - client and server listings;
  - offline, cached and Microsoft logins;
  - recalling a session;
  - creating connections;
  - chat, connect, disconnect and kill on an instance.

Registries that are updated in place are classes whose methods state the new
contents. Value types and conversions are datatypes and functions. Lookups
that scan a `HashMap` are loops that pick the next unvisited key with `:|`.
So whenever several entries match, the model does not fix which one is
found, just as the source does not.

Everything the back end gets from outside is a parameter:
- the provider's replies (device code, Microsoft token, Minecraft token, profile);
- whether a save to disk failed (`saveError`);
- the current time (`now`);
- fresh `Uuid::new_v4` ids (`newId`);
- the name-based UUID hash (`nameUuid`);
- whether a task finished within the soft-kill window (`finishedInTime`).

The parsing of UUID text belongs to an external crate. Where the source handles
a failed parse, the parse outcome is passed in. Where it unwraps the parse
(src-tauri/src/api/controller.rs:33 and 101, src-tauri/src/api/auth.rs:138),
the UUID is passed in already parsed, and "## Left out" lists the panic.

Events sent to the front end are returned as sequences:
- `auth-progress-update` states are returned as `events`;
- chat-channel lines are returned as `notice` or `sent`.

## Model

| member | source | states |
|---|---|---|
| Versions.Parse | src-tauri/src/client/mod.rs:98-105 | parsing succeeds exactly on a version's text; the version returned renders back to the input; otherwise the error is `Invalid version: <s>` and no version has that text |
| Versions.ToString | src-tauri/src/client/mod.rs:154-187 | `from_string` reads every version's display text back as that version |
| Versions.FromString | src-tauri/src/client/mod.rs:108-141 | only strings of four to six characters, the length of a dotted release number, are accepted |
| Versions.FromStringSound | src-tauri/src/client/mod.rs:108-141 | whatever `from_string` accepts is the display text of the version it returns |
| Versions.FromStringComplete | src-tauri/src/client/mod.rs:108-141 | `from_string` returns `None` exactly for strings that are no version's text |
| Versions.ToStringInjective | src-tauri/src/client/mod.rs:154-187 | distinct versions display as distinct texts |
| Versions.All | src-tauri/src/client/mod.rs:142-151 | `all()` has 28 entries and every version is the entry at its declaration position |
| Versions.Default | src-tauri/src/client/mod.rs:73-77 | the default version is the last entry of `all()` |
| Versions.AllListsEveryVersion | src-tauri/src/client/mod.rs:142-151 | `all()` has 28 entries and lists every version, at its declaration position |
| Versions.AllIsInDeclarationOrder | src-tauri/src/client/mod.rs:142-151 | entry `i` of `all()` is the version declared `i`-th |
| Versions.AllIsStrictlyIncreasing | src-tauri/src/client/mod.rs:142-151 | `all()` is strictly increasing in the derived order, so no version appears twice |
| Versions.DefaultIsNewest | src-tauri/src/client/mod.rs:73-77 | the default (1.21.7) is the greatest version in the derived order |
| Versions.SourceExamples | src-tauri/src/client/mod.rs:312-325 | the assertions of the unit tests: "1.20.5" parses to 1.20.5, 1.16.5 displays as "1.16.5", and there are 28 versions |
| Servers.Decimal | src-tauri/src/api/server.rs:85-89 | a port is written as a non-empty run of decimal digits |
| Servers.DecimalRoundTrip | src-tauri/src/api/server.rs:85-89 | the decimal text of a port reads back to the same number |
| Servers.LastIndexOf | src-tauri/src/api/server.rs:85-89 | the position found holds the character and no later position does; `None` when it does not occur |
| Servers.DisplayRoundTrip | src-tauri/src/api/server.rs:85-89 | `ip:port` is unambiguous: splitting at the last colon recovers the ip and the port; `Servers.Display` is the `ip:port` rendering it is about |
| Servers.SaveOutcome | src-tauri/src/api/server.rs:13-21 | saving fails exactly when the write fails, with the write's message |
| Servers.ServerList.constructor | src-tauri/src/api/server.rs:51-65 | the list holds exactly the loaded servers |
| Servers.ServerList.GetServer | src-tauri/src/api/server.rs:73-75 | finds a server exactly when the name is a key, and returns that entry |
| Servers.ServerList.Create | src-tauri/src/api/server.rs:23-32 | a taken name is refused and the list is unchanged; otherwise the server is stored under its name and the save outcome is returned |
| Servers.ServerList.Delete | src-tauri/src/api/server.rs:34-41 | an unknown name is refused and the list is unchanged; otherwise exactly that name is removed |
| Servers.CreateThenDelete | src-tauri/src/api/server.rs:23-41 | creating a new name and then deleting it leaves the list as it was, and each step reports its save |
| Auth.FromProfileResponse | src-tauri/src/client/auth.rs:28-38 | a profile from the provider is authenticated and keeps the reply's id, name, skins and capes |
| Auth.OfflineSeed | src-tauri/src/client/auth.rs:41-57 | the hashed seed is the fixed `OfflinePlayer:` prefix followed by the username |
| Auth.WithUsername | src-tauri/src/client/auth.rs:41-57 | an offline profile is unauthenticated, has the username, has no skins or capes, and its UUID is the name-based hash of the seed |
| Auth.OfflineSeedInjective | src-tauri/src/client/auth.rs:41-57 | distinct usernames are hashed from distinct seeds |
| Auth.OfflineIsNotOnline | src-tauri/src/client/auth.rs:28-57 | no offline profile equals a profile built from a provider reply |
| Auth.DeviceCodeRoundTrip | src-tauri/src/client/auth.rs:106-116 | the conversions between the device-code reply and the stored verification info lose nothing in either direction; the two conversions are `Auth.ToDeviceCode` and `Auth.FromDeviceCode` |
| Auth.Display | src-tauri/src/client/auth.rs:131-140 | a working or error state displays as its message; a success state's display carries its token, which can be read back |
| Auth.IsFinal | src-tauri/src/client/auth.rs:186-188 | a state is final exactly when it is not a working state |
| Auth.DurationFromMillis | src-tauri/src/client/auth.rs:149-151 | the duration built from milliseconds is well formed (nanoseconds below one second) |
| Auth.TimeoutFromDuration | src-tauri/src/client/auth.rs:154-158 | a duration under 2^64 ms becomes a timeout of exactly that many milliseconds |
| Auth.TimeoutDuration | src-tauri/src/client/auth.rs:149-151 | the duration of a timeout is well formed |
| Auth.TimeoutDurationRoundTrip | src-tauri/src/client/auth.rs:142-158 | timeout to duration and back is the identity, and the duration's seconds are the milliseconds divided by 1000; `Auth.AsMillis` is the duration-to-milliseconds conversion it uses |
| Auth.DefaultTimeoutIsNinetySeconds | src-tauri/src/client/auth.rs:160-164 | the default timeout is 90000 ms, that is 90 s; `Auth.DefaultTimeout` is that value |
| Auth.RefreshMs | src-tauri/src/client/auth.rs:71-95 | the result is the provider's reply; the reported state is final exactly on failure, and carries the success or error message |
| Auth.Authentication.constructor | src-tauri/src/client/auth.rs:174-185 | a new authenticator holds nothing and is in the started state |
| Auth.Authentication.GetAccessInfo | src-tauri/src/client/auth.rs:203-245 | reports "Getting access info..." and then the final state; on a reply it keeps the device code, otherwise it ends in the reply's error; the later credentials are untouched |
| Auth.Authentication.AuthenticateMs | src-tauri/src/client/auth.rs:246-293 | without a device code it sends nothing and ends in an error; with one, it sends the device code with the timeout, and stores the Microsoft token or ends in the reply's error |
| Auth.Authentication.AuthenticateMinecraft | src-tauri/src/client/auth.rs:294-329 | without a Microsoft token it sends nothing and ends in an error; otherwise it trades the token for a session token, then fetches the profile with it, and succeeds with the session token |
| Auth.FullProcess | src-tauri/src/client/auth.rs:338-356 | the three steps, run in order from a new authenticator against successful replies, end in success holding the device code, the Microsoft token, the session token and the profile |
| ChatLogs.ChatHistory.Push | src-tauri/src/client/instance.rs:222-225 | a line is appended at the end of the history |
| ChatLogs.ChatHistory.Pop | src-tauri/src/client/hooks/chatlog.rs:51 | takes the last line, or nothing from an empty history |
| ChatLogs.ReverseAt | src-tauri/src/client/hooks/chatlog.rs:51-54 | position `i` of the reversed history is position `n-1-i` of the history |
| ChatLogs.SentToConcat | src-tauri/src/client/hooks/chatlog.rs:47-56 | what one key receives from two consecutive sends is what it receives from the first, then the second |
| ChatLogs.SentToTagged | src-tauri/src/client/hooks/chatlog.rs:51-54 | lines addressed to one key reach that key, all of them in order, and no other key |
| ChatLogs.SendAll | src-tauri/src/client/hooks/chatlog.rs:51-54 | appending lines addressed to one instance extends only that instance's share |
| ChatLogs.FlushStep | src-tauri/src/client/hooks/chatlog.rs:47-56 | flushing one more history keeps every flushed key's share equal to its history read from the end |
| ChatLogs.DrainHistory | src-tauri/src/client/hooks/chatlog.rs:51-54 | draining empties the history and sends its lines newest first, each addressed to the instance |
| ChatLogs.ChatLog.constructor | src-tauri/src/client/hooks/chatlog.rs:17-19 | the registry starts empty |
| ChatLogs.ChatLog.SetActive | src-tauri/src/client/hooks/chatlog.rs:21-31 | a key already registered keeps its history; otherwise the history is added under the key |
| ChatLogs.ChatLog.RemoveActive | src-tauri/src/client/hooks/chatlog.rs:33-35 | exactly that key is removed |
| ChatLogs.ChatLog.FlushPass | src-tauri/src/client/hooks/chatlog.rs:37-61 | one pass empties every registered history; each instance is sent exactly its own history, newest first; an unregistered key is sent nothing |
| Instances.SourceDisplay | src-tauri/src/client/instance.rs:53-62 | every state source displays as a six-letter word |
| Instances.ErrorDisplay | src-tauri/src/client/instance.rs:76-86 | every message is non-empty, and a not-connected error displays as `Client is not connected [<source>]` |
| Instances.ErrorDisplayStart | src-tauri/src/client/instance.rs:76-86 | each kind of end error has a message with its own first letter, and a not-connected message names its source |
| Instances.SourceDisplayStart | src-tauri/src/client/instance.rs:53-62 | the three state sources display with distinct first letters |
| Instances.ErrorDisplayInjective | src-tauri/src/client/instance.rs:76-98 | distinct end errors give distinct messages, so the string the front end gets identifies the error |
| Instances.ChatCalls | src-tauri/src/client/instance.rs:206-214 | one chat call per queued line, in queue order |
| Instances.DropWarning | src-tauri/src/client/instance.rs:395-407 | dropping warns exactly when the kill failed with something other than "not connected" |
| Instances.ClientInstance.constructor | src-tauri/src/client/instance.rs:260-283 | a new instance has its key, account info and target; its version is the given one or 1.21; it is not running, with nothing queued and no task |
| Instances.ClientInstance.IsRunning | src-tauri/src/client/instance.rs:283-286 | reports whether the instance's running flag is set |
| Instances.ClientInstance.SendMessage | src-tauri/src/client/instance.rs:294-303 | the message is appended to the queue, whether or not the instance is running |
| Instances.ClientInstance.Kill | src-tauri/src/client/instance.rs:376-389 | with a task it aborts it, stops running and succeeds; without one it reports a missing thread; afterwards no handle is held and no spawned task is live |
| Instances.ClientInstance.Connect | src-tauri/src/client/instance.rs:304-342 | any previous task is aborted; the instance runs with one new live task, the only live task it has spawned |
| Instances.ClientInstance.DisconnectNotify | src-tauri/src/client/instance.rs:343-358 | it clears the running flag; it succeeds if the instance was running, and otherwise reports a missing client |
| Instances.ClientInstance.Disconnect | src-tauri/src/client/instance.rs:359-375 | it takes the stored game client and makes it leave; without one it reports a missing handle and makes no call |
| Instances.ClientInstance.Drop | src-tauri/src/client/instance.rs:395-407 | dropping kills the task and leaves no live task; a kill without a task is not warned about |
| Instances.ClientInstance.SoftKill | src-tauri/src/client/instance.rs:146-161 | as written: the handle is taken; a task that ends in time gives success; on a timeout the result is a timeout error and the task is still live |
| Instances.ClientInstance.SoftKillAborting | src-tauri/src/client/instance.rs:137-161 | as documented: on a timeout the task is aborted, so afterwards no spawned task is live |
| Instances.ClientInstance.SendQueued | src-tauri/src/client/instance.rs:206-214 | a running tick sends every queued line in order and empties the queue |
| Instances.ClientInstance.Handle | src-tauri/src/client/instance.rs:194-257 | a tick sends the queue while running and otherwise leaves; a chat line is logged to the history, the history is registered and the running flag is cleared; init logs the welcome lines; disconnects clear the running flag; other events change nothing |
| Instances.SoftKillTimeoutLeaksTask | src-tauri/src/client/instance.rs:146-161 | a soft kill that times out, then a connect, leaves two live tasks, which breaks the one-live-task invariant |
| Instances.SoftKillAbortingKeepsOneTask | src-tauri/src/client/instance.rs:137-161 | the same sequence with the aborting soft kill leaves only the new task live |
| Clients.AuthTypeOf | src-tauri/src/api/client.rs:92-110 | an account is recorded as Microsoft exactly when its profile is authenticated |
| Clients.RegisterOutcome | src-tauri/src/api/client.rs:71-79 | registration reports the new id exactly when the save succeeds, and the save's error otherwise |
| Clients.ClientList.constructor | src-tauri/src/api/client.rs:184-199 | the list holds exactly the loaded clients |
| Clients.ClientList.GetById | src-tauri/src/api/client.rs:176-182 | finds a client exactly when the id is a key, and returns that entry |
| Clients.ClientList.GetByUsername | src-tauri/src/api/client.rs:152-163 | finds a client exactly when some client has the username, and returns one of them |
| Clients.ClientList.GetByMcUuid | src-tauri/src/api/client.rs:164-175 | finds a client exactly when some client has the Minecraft UUID, and returns one of them |
| Clients.ClientList.ContainsUuid | src-tauri/src/api/client.rs:146-151 | true exactly when some client has the Minecraft UUID |
| Clients.ClientList.Register | src-tauri/src/api/client.rs:92-110 | a taken username is refused and the list is unchanged; otherwise a client with the profile's name, UUID and auth type and no connections is stored under the new id, even when the save then fails |
| Clients.ClientList.Unregister | src-tauri/src/api/client.rs:112-130 | an unknown Minecraft UUID is refused and the list is unchanged; otherwise exactly one client with that UUID is removed and the save outcome is returned |
| Clients.ClientList.InsertConnection | src-tauri/src/api/controller.rs:46-47 | the connection is stored under its id in that client's connections, and nothing else changes |
| AuthCaches.ExpiryIsMonotone | src-tauri/src/api/auth.rs:51-57 | a record has not expired at its own expiry time, and once expired it stays expired; `AuthCaches.HasExpired` is the `has_expired` test it is about |
| AuthCaches.ProgressOf | src-tauri/src/api/auth.rs:106-118 | the event names the state kind; it carries the token of a success and the message otherwise |
| AuthCaches.ProgressRoundTrip | src-tauri/src/api/auth.rs:101-118 | the progress event loses nothing: the state can be recovered from it |
| AuthCaches.AuthCache.constructor | src-tauri/src/api/auth.rs:64-74 | the cache holds exactly the loaded records |
| AuthCaches.AuthCache.GetFromMcUuid | src-tauri/src/api/auth.rs:81-89 | finds a record exactly when one belongs to the Minecraft UUID, and returns such a record |
| AuthCaches.AuthCache.GetKeyFromMcUuid | src-tauri/src/api/auth.rs:90-97 | finds a key exactly when a record belongs to the Minecraft UUID, and returns the key of such a record |
| Controllers.ClientController.constructor | src-tauri/src/client/mod.rs:244-254 | a controller has the account's id, name, UUID and protocol, and no instances |
| Controllers.ClientController.NewCached | src-tauri/src/client/mod.rs:255-280 | fails with "Could not find client ..." exactly when the client is not stored; otherwise the controller logs in with the cached session and has one stopped instance per saved connection, with that connection's server and version |
| Controllers.ClientController.CreateInstance | src-tauri/src/client/mod.rs:281-292 | a new instance is stored under the new id and nothing else changes; its version is the given one or 1.21 |
| Controllers.ClientController.GetInstance | src-tauri/src/client/mod.rs:293-299 | finds an instance exactly when the key is stored, and returns it |
| Controllers.ClientController.DropInstances | src-tauri/src/client/mod.rs:234-241 | dropping the instances kills every instance's task |
| Controllers.ClientController.RemoveInstance | src-tauri/src/client/mod.rs:301-303 | exactly that key is removed, and the removed instance's task is killed; only that instance and its task may change |
| Controllers.ClientController.Drop | src-tauri/src/client/mod.rs:234-241 | dropping a controller leaves no instance holding a task handle, stops every instance that had a task, and kills that task |
| Controllers.ControllerContainer.constructor | src-tauri/src/client/mod.rs:199-211 | the container starts empty |
| Controllers.ControllerContainer.Contains | src-tauri/src/client/mod.rs:217-219 | true exactly when a controller is stored under the key |
| Controllers.ControllerContainer.Get | src-tauri/src/client/mod.rs:225-231 | finds a controller exactly when the key is stored, and returns it |
| Controllers.ControllerContainer.Add | src-tauri/src/client/mod.rs:212-216 | the controller is stored under its own id; a different controller it replaces is dropped (its instances lose their handles and their tasks are killed); nothing outside the replaced controller's instances and tasks changes |
| Controllers.ControllerContainer.Remove | src-tauri/src/client/mod.rs:221-224 | exactly that key is removed and its controller is dropped (its instances lose their handles and their tasks are killed); nothing outside that controller's instances and tasks changes |
| Api.ApiContext.LoadFromDir | src-tauri/src/api/mod.rs:52-62 | the loaded registries, with no controller and no login in progress; the context is valid exactly when the loaded clients are keyed by their ids |
| Api.RemoveClient | src-tauri/src/api/mod.rs:73-77 | an unknown UUID gets "Client <uuid> does not exist" and changes nothing; otherwise exactly one client with that Minecraft UUID is removed, the others are kept, and the save's outcome is returned |
| Api.MapClientInfo | src-tauri/src/api/mod.rs:79-87 | the info gives the client's id, name and UUID texts, whether it uses Microsoft auth, and how many connections it has |
| Api.GetClient | src-tauri/src/api/mod.rs:89-98 | finds info exactly when some client's id text is the given text, and the info is that of such a client |
| Api.GetClients | src-tauri/src/api/mod.rs:108-117 | one info per stored client: every client's info is listed, and every entry is some client's info |
| Api.InfoOf | src-tauri/src/api/mod.rs:144-158 | a server's info has its name, ip and port, and zero connections |
| Api.GetServers | src-tauri/src/api/mod.rs:144-158 | one info per stored server, each with zero connections |
| ApiAuth.AuthValidity | src-tauri/src/api/auth.rs:131-143 | the expiry of a record cached for the UUID, or 0 when there is none |
| ApiAuth.Admit | src-tauri/src/api/auth.rs:226-234 | a client with the profile's UUID is reused unchanged; failing that, a new client is registered, or the name clash is refused |
| ApiAuth.LogIn | src-tauri/src/api/auth.rs:236-237 | the client gets a new controller holding the cached session, with one instance per saved connection; a controller it had is dropped, and nothing outside that controller's instances and tasks changes |
| ApiAuth.LogInCached | src-tauri/src/api/auth.rs:226-237 | a client with the session's UUID is reused, or one is registered (refusing a name clash or reporting a failed save); on success that client gets a controller built from the session and its old controller is dropped; only the controllers of the clients the session could admit are touched |
| ApiAuth.LookUp | src-tauri/src/api/auth.rs:208-224 | a session is found exactly when the key is cached and unexpired; the progress events are the ones for that case |
| ApiAuth.CachedAuthentication | src-tauri/src/api/auth.rs:203-253 | an unusable key is refused and nothing changes (the frame is empty then); otherwise the client is reused or registered and logged in with a controller built from the cache; the progress events match each path |
| ApiAuth.RecallStored | src-tauri/src/api/auth.rs:162-178 | a stored client without a cached session is refused; otherwise some session cached for its UUID decides: a usable one logs in a client with that UUID, with a new controller, and returns `Ok(true)`; an expired one gives the wrapped not-cached error and adds nothing; the client list never changes |
| ApiAuth.RecallAuthentication | src-tauri/src/api/auth.rs:145-183 | a logged-in client succeeds at once; an unknown client and a client without a cached session get their own errors; otherwise a usable cached session logs the client in and returns `Ok(true)`, and an expired one gives the wrapped not-cached error |
| ApiAuth.AuthOffline | src-tauri/src/api/auth.rs:185-201 | a taken username is refused with its events; otherwise an offline client is registered under the new id and its profile is returned |
| ApiAuth.AuthMsInit | src-tauri/src/api/auth.rs:255-275 | on a device code, a new login in progress is kept under the key and the link and code are returned; on a failure nothing is kept and the error is returned |
| ApiAuth.Complete | src-tauri/src/api/auth.rs:289-299 | the provider steps on a pending login: a failed sign-in ends on the missing Microsoft token; a failed token exchange ends in its error; otherwise the login holds both tokens and the last event is success |
| ApiAuth.LogInFresh | src-tauri/src/api/auth.rs:314-321 | the client gets a new controller with the profile's name and UUID, the given protocol, and no instances; a controller stored under that id is dropped, and nothing outside that controller's instances and tasks changes |
| ApiAuth.Store | src-tauri/src/api/auth.rs:303-322 | the session is cached under the login key; the profile's client is registered and logged in, or the name clash or failed save is reported |
| ApiAuth.AuthMsFinish | src-tauri/src/api/auth.rs:277-337 | the login is removed from those in progress; a missing login or a failed provider step gets its own error and stores nothing; with `register` the session is always cached, a name clash gets "Client <name> already exists" with clients and controllers unchanged, a failed save keeps the new client but adds no controller and returns the save's error, and otherwise a fresh controller with no instances is stored under the new id; without `register` the profile is returned with an empty id |
| ApiControllers.CreateConnection | src-tauri/src/api/controller.rs:26-54 | an unknown server or controller gets its own error; otherwise a new instance and its connection record are stored; on an unknown version text the instance runs 1.21 but the record says 1.21.7 |
| ApiControllers.CreateConnectionConsistent | src-tauri/src/api/controller.rs:26-54 | as above, but one resolved version goes to both, so the instance and its record always agree |
| ApiControllers.GetInstances | src-tauri/src/api/controller.rs:56-89 | an invalid UUID, an unknown client and a missing controller get their own errors; otherwise every instance that has a record is listed under its key's text, with its running flag and record, and nothing else is listed |
| ApiControllers.GetAvailableVersions | src-tauri/src/api/controller.rs:91-94 | every version is listed, once each, oldest first |
| ApiControllers.LocateInstance | src-tauri/src/api/controller.rs:96-106 | finds the instance exactly when the controller and the key exist, and reports which one is missing otherwise |
| ApiControllers.SendChat | src-tauri/src/api/controller.rs:108-125 | the key's parse error and the lookup errors are returned; a stopped instance refuses the message and keeps its queue; a running one queues it |
| ApiControllers.ConnectClient | src-tauri/src/api/controller.rs:127-143 | on success the instance runs with a new live task and the connect notice is sent; errors send nothing |
| ApiControllers.DisconnectClient | src-tauri/src/api/controller.rs:145-162 | the notice is sent once the key parses; the instance then stops running, and a stopped one reports "not connected" |
| ApiControllers.KillClient | src-tauri/src/api/controller.rs:182-198 | the notice is sent once the key parses; the task is aborted and no spawned task stays live, and an instance without a task reports that |

## Left out

- Everything with files: `from_file`, `write_to_file` and the save directory. Loaded contents and the outcome of a save are parameters.
- Tauri event emission, the `com_channel` of the front end, the 400 ms flush sleep and the ANSI colour codes of chat lines. Events and notices are returned as sequences.
- The Microsoft and Minecraft providers, the `azalea` game client, and `Uuid::new_v4`/`new_v3`. Their results are parameters.
- Concurrency: the mutexes, the `RwLock` around the chat registry, and the interleaving of the flush thread with instance tasks. `ChatLogs.ChatLog.FlushPass` is one pass run alone.
- `kill_client_soft` (src-tauri/src/api/controller.rs:164-180) calls a method `ClientInstance` does not have, so it is not modelled. `soft_kill` itself is.
- `get_client_by_user` (src-tauri/src/api/mod.rs:100-106) is `todo!()`.
- `get_logs` and the log location: file paths only.
- `add_server` and `delete_server` (src-tauri/src/api/mod.rs:127-142) only delegate to `Servers.ServerList.Create` and `Servers.ServerList.Delete`.
- ApiControllers.CreateConnection: requires a stored client whenever the server and the controller exist. The source unwraps that lookup (src-tauri/src/api/controller.rs:46), so it panics there. This is reachable: `remove_client` removes the client but leaves its controller. The UUID parse unwrap at line 33 is modelled by taking the parsed UUID.
- ApiAuth.AuthValidity: takes the UUID already parsed. The source unwraps `Uuid::from_str` on its text (src-tauri/src/api/auth.rs:138), so malformed text panics while the context lock is held, and no value is returned.
- ApiControllers.LocateInstance: takes the client id already parsed. The source unwraps `Uuid::from_str` on it (src-tauri/src/api/controller.rs:101), so a malformed id panics while the context lock is held. In `disconnect_client` and `kill_client` that panic comes after the notice has been sent (lines 152 and 189). The callers `SendChat`, `ConnectClient`, `DisconnectClient` and `KillClient` therefore do not model that crash either.
- ApiAuth.AuthMsFinish: when the Microsoft sign-in fails, the provider's error shows only in the events. The result is "No MSA credentials to authenticate with", because the later step overwrites the state.
- ApiAuth.Store: a failed write of the credential cache is not modelled. The source unwraps it (src-tauri/src/api/auth.rs:78) and panics; the model always treats that write as successful.
- Instances.ClientInstance.Disconnect: nothing in the source ever stores the game client, so on a real instance it always reports a missing handle. The model keeps the field so that the other branch is stated too.
- The HTML wording of recall errors is kept verbatim, including the raw-string markup.
- Ownership: Rust gives every instance and task exactly one owner. `Controllers.ControllerContainer.Valid` does not require distinct controllers to hold distinct instance objects, so the frames of `Add`, `Remove` and the login commands keep unchanged every instance and task outside the dropped controller's, which is what "no other controller is touched" means under that ownership.

## Findings

| source | as written | input that shows it | evidently intended | confidence | as-written member | corrected member |
|---|---|---|---|---|---|---|
| src-tauri/src/client/instance.rs:146-161 | on a timeout, `soft_kill` drops the taken handle, which detaches the task without aborting it | a live task that does not end within the window, followed by `connect` | abort the task on a timeout, as the doc comment at lines 137-138 says | not executed | Instances.SoftKillTimeoutLeaksTask | Instances.SoftKillAbortingKeepsOneTask |
| src-tauri/src/api/controller.rs:34-45 | the instance gets `version` through `ClientInstance::new` (the parsed one or 1.21), while the saved connection gets `unwrap_or_default()` (1.21.7) | version text "foo", which parses to `None` | one version for the running instance and for the record it is rebuilt from | not executed | ApiControllers.CreateConnection | ApiControllers.CreateConnectionConsistent |
