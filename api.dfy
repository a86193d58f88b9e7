/** The command layer's shared state and the commands that only read or
    delegate: the client and server listings and client removal. */
module Api {
  import opened Wrappers
  import opened Uuids
  import Servers
  import Auth
  import Clients
  import AuthCaches
  import Controllers

  /** `ApiContext`: everything the commands share. The save directory is
      left out with the files; the registries are fixed objects whose contents
      change, and only the map of logins in progress is replaced. */
  class ApiContext {
    const controllers: Controllers.ControllerContainer
    const clients: Clients.ClientList
    const servers: Servers.ServerList
    const authCache: AuthCaches.AuthCache
    var ongoingAuths: map<string, Auth.Authentication>

    /** The registries keep their own invariants, and every login in progress
        has its own authenticator, which holds a device code and nothing more
        yet. */
    ghost predicate Valid()
      reads this, controllers, controllers.list.Values, clients, ongoingAuths.Values
    {
      controllers.Valid() && clients.Valid() &&
      (forall k :: k in ongoingAuths ==> Pending(ongoingAuths[k])) &&
      (forall k, j :: k in ongoingAuths && j in ongoingAuths && ongoingAuths[k] == ongoingAuths[j] ==> k == j)
    }

    /** `load_from_dir`, with the three files' parsed contents given: no
        controller and no login in progress yet. The context is valid exactly
        when the loaded clients are stored under their own ids. */
    constructor LoadFromDir(clientsLoaded: map<Uuid, Clients.Client>, serversLoaded: map<string, Servers.Server>,
                            cacheLoaded: map<string, AuthCaches.MinecraftAuthCache>)
      ensures fresh(controllers) && fresh(clients) && fresh(servers) && fresh(authCache)
      ensures controllers.list == map[] && ongoingAuths == map[]
      ensures clients.clients == clientsLoaded && servers.servers == serversLoaded && authCache.entries == cacheLoaded
      ensures Valid() <==> clients.Valid()
    {
      controllers := new Controllers.ControllerContainer();
      clients := new Clients.ClientList(clientsLoaded);
      servers := new Servers.ServerList(serversLoaded);
      authCache := new AuthCaches.AuthCache(cacheLoaded);
      ongoingAuths := map[];
    }
  }

  /** An authenticator that has obtained its device code and nothing after it. */
  predicate Pending(a: Auth.Authentication)
    reads a
  {
    a.Valid() && a.credentials.Some? && a.msa.None?
  }

  /** `remove_client`: `unregister` on the context's client list. */
  method RemoveClient(ctx: ApiContext, uuidText: string, parsed: Option<Uuid>, saveError: Option<string>)
    returns (r: Result<Unit, string>)
    requires ctx.Valid()
    modifies ctx.clients
    ensures ctx.Valid()
    ensures r.Ok? <==> old(ctx.clients.HasMcUuid(parsed.GetOr(Nil))) && saveError.None?
    ensures !old(ctx.clients.HasMcUuid(parsed.GetOr(Nil))) ==>
      r == Err("Client " + uuidText + " does not exist") && ctx.clients.clients == old(ctx.clients.clients)
    ensures old(ctx.clients.HasMcUuid(parsed.GetOr(Nil))) ==>
      r == Servers.SaveOutcome(saveError) &&
      exists id :: id in old(ctx.clients.clients) && old(ctx.clients.clients)[id].uuid == parsed.GetOr(Nil) &&
        ctx.clients.clients == old(ctx.clients.clients) - {id}
  {
    r := ctx.clients.Unregister(uuidText, parsed, saveError);
  }

  /** `ClientInfo`: what the front end is told about a client. */
  datatype ClientInfo = ClientInfo(id: string, username: string, auth: bool, uuid: string, instanceCount: nat)

  /** `map_client_info`. */
  function MapClientInfo(c: Clients.Client): (r: ClientInfo)
    ensures r.auth <==> c.auth == Clients.Microsoft
    ensures r.instanceCount == |c.connections|
    ensures r.id == c.id.text && r.uuid == c.uuid.text && r.username == c.username
  {
    ClientInfo(c.id.text, c.username, c.auth == Clients.Microsoft, c.uuid.text, |c.connections|)
  }

  /** `get_client`: the info of the client whose id text is `id`, if any. */
  method GetClient(ctx: ApiContext, id: string) returns (r: Option<ClientInfo>)
    ensures r.Some? <==> exists k :: k in ctx.clients.clients && ctx.clients.clients[k].id.text == id
    ensures r.Some? ==> r.value.id == id
    ensures r.Some? ==> exists k :: k in ctx.clients.clients && r.value == MapClientInfo(ctx.clients.clients[k])
  {
    var m := ctx.clients.clients;
    var done: set<Uuid> := {};
    while done != m.Keys
      invariant done <= m.Keys
      invariant forall k :: k in done ==> m[k].id.text != id
      decreases m.Keys - done
    {
      var k :| k in m && k !in done;
      if m[k].id.text == id {
        return Some(MapClientInfo(m[k]));
      }
      done := done + {k};
    }
    r := None;
  }

  /** `get_clients`: one info per stored client, in the map's order. */
  method GetClients(ctx: ApiContext) returns (r: seq<ClientInfo>)
    ensures |r| == |ctx.clients.clients|
    ensures forall k :: k in ctx.clients.clients ==> MapClientInfo(ctx.clients.clients[k]) in r
    ensures forall i :: 0 <= i < |r| ==> exists k :: k in ctx.clients.clients && r[i] == MapClientInfo(ctx.clients.clients[k])
  {
    var m := ctx.clients.clients;
    var done: set<Uuid> := {};
    r := [];
    while done != m.Keys
      invariant done <= m.Keys
      invariant |r| == |done|
      invariant forall k :: k in done ==> MapClientInfo(m[k]) in r
      invariant forall i :: 0 <= i < |r| ==> exists k :: k in done && r[i] == MapClientInfo(m[k])
      decreases m.Keys - done
    {
      var k :| k in m && k !in done;
      r := r + [MapClientInfo(m[k])];
      done := done + {k};
    }
  }

  /** `ServerInfo`: what the front end is told about a server. */
  datatype ServerInfo = ServerInfo(name: string, ip: string, port: U16, connections: nat)

  /** The info reported for a server: its own fields and no connections. */
  function InfoOf(s: Servers.Server): (r: ServerInfo)
    ensures r.connections == 0
    ensures r.name == s.name && r.ip == s.ip && r.port == s.port
  {
    ServerInfo(s.name, s.ip, s.port, 0)
  }

  /** `get_servers`: one info per stored server, each with no connections
      counted. */
  method GetServers(ctx: ApiContext) returns (r: seq<ServerInfo>)
    ensures |r| == |ctx.servers.servers|
    ensures forall i :: 0 <= i < |r| ==> r[i].connections == 0
    ensures forall n :: n in ctx.servers.servers ==> InfoOf(ctx.servers.servers[n]) in r
    ensures forall i :: 0 <= i < |r| ==> exists n :: n in ctx.servers.servers && r[i] == InfoOf(ctx.servers.servers[n])
  {
    var m := ctx.servers.servers;
    var done: set<string> := {};
    r := [];
    while done != m.Keys
      invariant done <= m.Keys
      invariant |r| == |done|
      invariant forall i :: 0 <= i < |r| ==> r[i].connections == 0
      invariant forall n :: n in done ==> InfoOf(m[n]) in r
      invariant forall i :: 0 <= i < |r| ==> exists n :: n in done && r[i] == InfoOf(m[n])
      decreases m.Keys - done
    {
      var n :| n in m && n !in done;
      r := r + [InfoOf(m[n])];
      done := done + {n};
    }
  }
}
