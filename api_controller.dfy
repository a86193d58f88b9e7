/** The instance commands: creating a connection, listing a client's
    instances, the version list, and chat, connect, disconnect and kill on one
    instance. A client is named by `id` (its text, with `uuid` the UUID it
    parses to) and an instance by its key. Notifications sent to the front
    end's chat channel are returned as the key and line sent. */
module ApiControllers {
  import opened Wrappers
  import opened Uuids
  import opened Versions
  import Servers
  import Clients
  import Controllers
  import opened Instances
  import opened Api

  const OfflineChatError: string := "Cannot send chat messages while the instance is offline [state]"
  const ConnectNotice: string := "Received connect command..."
  const DisconnectNotice: string := "Received disconnect command..."
  const KillNotice: string := "Received hard-kill command..."

  // ----- create_connection -----

  /** `create_connection` as written: the new instance is built with the
      parsed version or 1.21, while the connection record saved for it takes
      the parsed version or `Version::default()` (1.21.7). The UUID parse and
      the client lookup are unwrapped, so the client must exist whenever the
      server and the controller do. */
  method CreateConnection(ctx: ApiContext, id: string, uuid: Uuid, serverName: string, versionText: string, newId: Uuid)
    returns (r: Result<string, string>)
    requires ctx.Valid()
    requires uuid in ctx.controllers.list ==> newId !in ctx.controllers.list[uuid].instances
    requires serverName in ctx.servers.servers && uuid in ctx.controllers.list ==> uuid in ctx.clients.clients
    modifies ctx.clients, if uuid in ctx.controllers.list then {ctx.controllers.list[uuid]} else {}
    ensures ctx.Valid()
    ensures serverName !in ctx.servers.servers ==>
      r == Err("Server '" + serverName + "' not found") && ctx.clients.clients == old(ctx.clients.clients)
    ensures serverName in ctx.servers.servers && uuid !in ctx.controllers.list ==>
      r == Err("Controller for client '" + id + "' not found") && ctx.clients.clients == old(ctx.clients.clients)
    ensures r.Err? && uuid in ctx.controllers.list ==>
      ctx.controllers.list[uuid].instances == old(ctx.controllers.list[uuid].instances)
    ensures serverName in ctx.servers.servers && uuid in ctx.controllers.list ==>
      var server := ctx.servers.servers[serverName];
      var version := FromString(versionText);
      var c := ctx.controllers.list[uuid];
      r == Ok(newId.text) && newId in c.instances && fresh(c.instances[newId]) &&
      c.instances == old(c.instances)[newId := c.instances[newId]] &&
      Controllers.IsNewInstance(c.instances[newId], newId, c.username, c.uuid, c.auth, server, version.GetOr(V1_21)) &&
      ctx.clients.clients == old(ctx.clients.clients)[uuid := old(ctx.clients.clients)[uuid].(connections :=
        old(ctx.clients.clients)[uuid].connections[newId := Clients.ClientConnection(newId, version.GetOr(Default()), server)])]
    ensures r.Ok? && FromString(versionText).None? ==>
      ctx.controllers.list[uuid].instances[newId].version == V1_21 &&
      ctx.clients.clients[uuid].connections[newId].version == V1_21_7
  {
    var version := FromString(versionText);
    var server := ctx.servers.GetServer(serverName);
    if server.None? {
      return Err("Server '" + serverName + "' not found");
    }
    var controller := ctx.controllers.Get(uuid);
    if controller.None? {
      return Err("Controller for client '" + id + "' not found");
    }
    var instanceId := controller.value.CreateInstance(server.value, version, newId);
    var conn := Clients.ClientConnection(instanceId, version.GetOr(Default()), server.value);
    ctx.clients.InsertConnection(uuid, conn);
    r := Ok(instanceId.text);
  }

  /** `create_connection` with one version for both: the version resolved
      once (the parsed one or `Version::default()`) is given to the new
      instance and saved with its connection, so the instance a restart
      rebuilds from the record runs the version this one runs. */
  method CreateConnectionConsistent(ctx: ApiContext, id: string, uuid: Uuid, serverName: string, versionText: string, newId: Uuid)
    returns (r: Result<string, string>)
    requires ctx.Valid()
    requires uuid in ctx.controllers.list ==> newId !in ctx.controllers.list[uuid].instances
    requires serverName in ctx.servers.servers && uuid in ctx.controllers.list ==> uuid in ctx.clients.clients
    modifies ctx.clients, if uuid in ctx.controllers.list then {ctx.controllers.list[uuid]} else {}
    ensures ctx.Valid()
    ensures serverName !in ctx.servers.servers ==>
      r == Err("Server '" + serverName + "' not found") && ctx.clients.clients == old(ctx.clients.clients)
    ensures serverName in ctx.servers.servers && uuid !in ctx.controllers.list ==>
      r == Err("Controller for client '" + id + "' not found") && ctx.clients.clients == old(ctx.clients.clients)
    ensures r.Err? && uuid in ctx.controllers.list ==>
      ctx.controllers.list[uuid].instances == old(ctx.controllers.list[uuid].instances)
    ensures serverName in ctx.servers.servers && uuid in ctx.controllers.list ==>
      var server := ctx.servers.servers[serverName];
      var version := FromString(versionText).GetOr(Default());
      var c := ctx.controllers.list[uuid];
      r == Ok(newId.text) && newId in c.instances && fresh(c.instances[newId]) &&
      c.instances == old(c.instances)[newId := c.instances[newId]] &&
      Controllers.IsNewInstance(c.instances[newId], newId, c.username, c.uuid, c.auth, server, version) &&
      ctx.clients.clients == old(ctx.clients.clients)[uuid := old(ctx.clients.clients)[uuid].(connections :=
        old(ctx.clients.clients)[uuid].connections[newId := Clients.ClientConnection(newId, version, server)])]
    ensures r.Ok? ==>
      ctx.controllers.list[uuid].instances[newId].version == ctx.clients.clients[uuid].connections[newId].version
  {
    var version := FromString(versionText).GetOr(Default());
    var server := ctx.servers.GetServer(serverName);
    if server.None? {
      return Err("Server '" + serverName + "' not found");
    }
    var controller := ctx.controllers.Get(uuid);
    if controller.None? {
      return Err("Controller for client '" + id + "' not found");
    }
    var instanceId := controller.value.CreateInstance(server.value, Some(version), newId);
    var conn := Clients.ClientConnection(instanceId, version, server.value);
    ctx.clients.InsertConnection(uuid, conn);
    r := Ok(instanceId.text);
  }

  // ----- get_instances / get_available_versions -----

  /** `get_instances`: for a client that is stored and logged in, the running
      flag and connection record of every instance that has a record, keyed
      by the instance id's text. */
  method GetInstances(ctx: ApiContext, parsed: Option<Uuid>)
    returns (r: Result<map<string, (bool, Clients.ClientConnection)>, string>)
    ensures parsed.None? ==> r == Err("Invalid UUID")
    ensures parsed.Some? && parsed.value !in ctx.clients.clients ==> r == Err("Client not found")
    ensures parsed.Some? && parsed.value in ctx.clients.clients && parsed.value !in ctx.controllers.list ==>
      r == Err("Controller not found")
    ensures r.Ok? <==> parsed.Some? && parsed.value in ctx.clients.clients && parsed.value in ctx.controllers.list
    ensures r.Ok? ==>
      var conns := ctx.clients.clients[parsed.value].connections;
      var instances := ctx.controllers.list[parsed.value].instances;
      (forall k :: k in instances && k in conns ==>
         k.text in r.value && r.value[k.text] == (instances[k].IsRunning(), conns[k])) &&
      (forall t :: t in r.value ==> Uuid(t) in instances && Uuid(t) in conns)
  {
    if parsed.None? {
      return Err("Invalid UUID");
    }
    var uuid := parsed.value;
    var client := ctx.clients.GetById(uuid);
    if client.None? {
      return Err("Client not found");
    }
    var controller := ctx.controllers.Get(uuid);
    if controller.None? {
      return Err("Controller not found");
    }
    var conns := client.value.connections;
    var instances := controller.value.instances;
    var m: map<string, (bool, Clients.ClientConnection)> := map[];
    var done: set<Uuid> := {};
    while done != instances.Keys
      invariant done <= instances.Keys
      invariant forall k :: k in done && k in conns ==> k.text in m && m[k.text] == (instances[k].IsRunning(), conns[k])
      invariant forall t :: t in m ==> Uuid(t) in done && Uuid(t) in conns
      decreases instances.Keys - done
    {
      var k :| k in instances && k !in done;
      if k in conns {
        m := m[k.text := (instances[k].IsRunning(), conns[k])];
      }
      done := done + {k};
    }
    r := Ok(m);
  }

  /** `get_available_versions`: every version, once each, oldest first. */
  method GetAvailableVersions() returns (r: seq<Version>)
    ensures forall v :: v in r
    ensures forall i, j :: 0 <= i < j < |r| ==> Less(r[i], r[j])
    ensures forall i, j :: 0 <= i < j < |r| ==> r[i] != r[j]
  {
    r := All();
    forall v: Version
      ensures v in r
    {
      AllListsEveryVersion(v);
    }
    AllIsStrictlyIncreasing();
  }

  // ----- locate_instance and the commands on one instance -----

  /** `locate_instance`: the instance stored under `key` by the controller of
      client `uuid`, telling a missing controller from a missing instance. */
  function LocateInstance(ctx: ApiContext, id: string, uuid: Uuid, key: Uuid): (r: Result<ClientInstance, string>)
    reads ctx, ctx.controllers, ctx.controllers.list.Values
    ensures r.Ok? <==> uuid in ctx.controllers.list && key in ctx.controllers.list[uuid].instances
    ensures uuid !in ctx.controllers.list ==> r == Err("No client controller found from id: " + id)
    ensures uuid in ctx.controllers.list && key !in ctx.controllers.list[uuid].instances ==>
      r == Err("No client instance found from key: " + key.text)
    ensures r.Ok? && ctx.controllers.Valid() ==> r.value.id == key
  {
    if uuid !in ctx.controllers.list then Err("No client controller found from id: " + id)
    else if key !in ctx.controllers.list[uuid].instances then Err("No client instance found from key: " + key.text)
    else Ok(ctx.controllers.list[uuid].instances[key])
  }

  /** The instance a command on `keyParse` addresses, as a frame. */
  function Target(ctx: ApiContext, id: string, uuid: Uuid, keyParse: Result<Uuid, string>): set<ClientInstance>
    reads ctx, ctx.controllers, ctx.controllers.list.Values
  {
    if keyParse.Ok? && LocateInstance(ctx, id, uuid, keyParse.value).Ok?
    then {LocateInstance(ctx, id, uuid, keyParse.value).value} else {}
  }

  /** The tasks those instances hold, as a frame. */
  function TasksOf(s: set<ClientInstance>): set<TaskHandle>
    reads s
  {
    set i, t | i in s && t in i.Held() :: t
  }

  /** `send_chat`: queues the message on a running instance; a stopped one
      refuses it and keeps its queue. */
  method SendChat(ctx: ApiContext, id: string, uuid: Uuid, keyParse: Result<Uuid, string>, message: string)
    returns (r: Result<Unit, string>)
    modifies Target(ctx, id, uuid, keyParse)
    ensures keyParse.Err? ==> r == Err(keyParse.error)
    ensures keyParse.Ok? && LocateInstance(ctx, id, uuid, keyParse.value).Err? ==>
      r == Err(LocateInstance(ctx, id, uuid, keyParse.value).error)
    ensures keyParse.Ok? && LocateInstance(ctx, id, uuid, keyParse.value).Ok? ==>
      var inst := LocateInstance(ctx, id, uuid, keyParse.value).value;
      (old(inst.runState) ==> r == Ok(Unit) && inst.chatInputs == old(inst.chatInputs) + [message]) &&
      (!old(inst.runState) ==> r == Err(OfflineChatError) && inst.chatInputs == old(inst.chatInputs)) &&
      inst.runState == old(inst.runState)
  {
    if keyParse.Err? {
      return Err(keyParse.error);
    }
    var located := LocateInstance(ctx, id, uuid, keyParse.value);
    if located.Err? {
      return Err(located.error);
    }
    var inst := located.value;
    if !inst.IsRunning() {
      return Err(OfflineChatError);
    }
    inst.SendMessage(message);
    r := Ok(Unit);
  }

  /** `connect_client`: (re)connects the instance, then tells its chat
      channel. Whatever task the instance held is aborted and a new one is
      the only live task. */
  method ConnectClient(ctx: ApiContext, id: string, uuid: Uuid, keyParse: Result<Uuid, string>)
    returns (r: Result<Unit, string>, notice: Option<(Uuid, string)>)
    modifies Target(ctx, id, uuid, keyParse), TasksOf(Target(ctx, id, uuid, keyParse))
    ensures keyParse.Err? ==> r == Err(keyParse.error) && notice.None?
    ensures keyParse.Ok? && LocateInstance(ctx, id, uuid, keyParse.value).Err? ==>
      r == Err(LocateInstance(ctx, id, uuid, keyParse.value).error) && notice.None?
    ensures keyParse.Ok? && LocateInstance(ctx, id, uuid, keyParse.value).Ok? ==>
      var inst := LocateInstance(ctx, id, uuid, keyParse.value).value;
      r == Ok(Unit) && notice == Some((keyParse.value, ConnectNotice)) &&
      inst.runState && inst.clientThread.Some? && fresh(inst.clientThread.value) && inst.clientThread.value.live &&
      (old(inst.Valid()) ==> inst.Valid())
  {
    if keyParse.Err? {
      return Err(keyParse.error), None;
    }
    var located := LocateInstance(ctx, id, uuid, keyParse.value);
    if located.Err? {
      return Err(located.error), None;
    }
    var inst := located.value;
    inst.Connect();
    r, notice := Ok(Unit), Some((keyParse.value, ConnectNotice));
  }

  /** `disconnect_client`: tells the instance's chat channel, then asks the
      instance to leave at its next tick; a stopped instance reports that it
      is not connected. */
  method DisconnectClient(ctx: ApiContext, id: string, uuid: Uuid, keyParse: Result<Uuid, string>)
    returns (r: Result<Unit, string>, notice: Option<(Uuid, string)>)
    modifies Target(ctx, id, uuid, keyParse)
    ensures keyParse.Err? ==> r == Err(keyParse.error) && notice.None?
    ensures keyParse.Ok? ==> notice == Some((keyParse.value, DisconnectNotice))
    ensures keyParse.Ok? && LocateInstance(ctx, id, uuid, keyParse.value).Err? ==>
      r == Err(LocateInstance(ctx, id, uuid, keyParse.value).error)
    ensures keyParse.Ok? && LocateInstance(ctx, id, uuid, keyParse.value).Ok? ==>
      var inst := LocateInstance(ctx, id, uuid, keyParse.value).value;
      !inst.runState && inst.clientThread == old(inst.clientThread) &&
      r == (if old(inst.runState) then Ok(Unit) else Err(ErrorDisplay(NoConnect(Client))))
  {
    if keyParse.Err? {
      return Err(keyParse.error), None;
    }
    notice := Some((keyParse.value, DisconnectNotice));
    var located := LocateInstance(ctx, id, uuid, keyParse.value);
    if located.Err? {
      return Err(located.error), notice;
    }
    var inst := located.value;
    var ended := inst.DisconnectNotify();
    r := if ended.Ok? then Ok(Unit) else Err(ErrorDisplay(ended.error));
  }

  /** `kill_client`: tells the instance's chat channel, then aborts the
      instance's task; an instance without one reports that it has no task. */
  method KillClient(ctx: ApiContext, id: string, uuid: Uuid, keyParse: Result<Uuid, string>)
    returns (r: Result<Unit, string>, notice: Option<(Uuid, string)>)
    modifies Target(ctx, id, uuid, keyParse), TasksOf(Target(ctx, id, uuid, keyParse))
    ensures keyParse.Err? ==> r == Err(keyParse.error) && notice.None?
    ensures keyParse.Ok? ==> notice == Some((keyParse.value, KillNotice))
    ensures keyParse.Ok? && LocateInstance(ctx, id, uuid, keyParse.value).Err? ==>
      r == Err(LocateInstance(ctx, id, uuid, keyParse.value).error)
    ensures keyParse.Ok? && LocateInstance(ctx, id, uuid, keyParse.value).Ok? ==>
      var inst := LocateInstance(ctx, id, uuid, keyParse.value).value;
      inst.clientThread.None? &&
      (old(inst.clientThread).Some? ==> r == Ok(Unit) && !inst.runState && !old(inst.clientThread).value.live) &&
      (old(inst.clientThread).None? ==> r == Err(ErrorDisplay(NoConnect(Thread))) && inst.runState == old(inst.runState)) &&
      (old(inst.Valid()) ==> inst.Valid() && forall t :: t in inst.spawned ==> !t.live)
  {
    if keyParse.Err? {
      return Err(keyParse.error), None;
    }
    notice := Some((keyParse.value, KillNotice));
    var located := LocateInstance(ctx, id, uuid, keyParse.value);
    if located.Err? {
      return Err(located.error), notice;
    }
    var inst := located.value;
    var ended := inst.Kill();
    r := if ended.Ok? then Ok(Unit) else Err(ErrorDisplay(ended.error));
  }
}
