/** The registry of bot accounts of api/client.rs: `id -> Client`, where each
    client remembers its persisted connections (`connection id -> server and
    version`). Saving the list to disk is a parameter holding its error, if any. */
module Clients {
  import opened Wrappers
  import opened Uuids
  import opened Versions
  import opened Servers
  import Auth

  /** A persisted connection (`ClientConnection`; `ClientConnection::new`). */
  datatype ClientConnection = ClientConnection(id: Uuid, version: Version, server: Server)

  datatype AuthType = Offline | Microsoft

  /** A registered account (`Client`; `Client::new` is this constructor with no connections). */
  datatype Client = Client(id: Uuid, username: string, uuid: Uuid, auth: AuthType, connections: map<Uuid, ClientConnection>)

  /** Every connection is stored under its own id. */
  predicate ConnectionsKeyed(c: Client) {
    forall k :: k in c.connections ==> c.connections[k].id == k
  }

  /** The authentication type `register` records for a profile. */
  function AuthTypeOf(profile: Auth.MinecraftProfile): (t: AuthType)
    ensures t == Microsoft <==> profile.authenticated
  {
    if profile.authenticated then Microsoft else Offline
  }

  /** The outcome of `register` once the client is in the list: the new id, or
      the error of saving the list. */
  function RegisterOutcome(id: Uuid, saveError: Option<string>): (r: Result<Uuid, string>)
    ensures r.Ok? <==> saveError.None?
    ensures r.Ok? ==> r.value == id
    ensures r.Err? ==> r.error == saveError.value
  {
    match saveError
    case None => Ok(id)
    case Some(e) => Err(e)
  }

  /** `List`. */
  class ClientList {
    var clients: map<Uuid, Client>

    /** Every client is stored under its own id, and so is each of its connections. */
    predicate Valid()
      reads this
    {
      forall id :: id in clients ==> clients[id].id == id && ConnectionsKeyed(clients[id])
    }

    /** Some client has this username. */
    predicate HasUsername(username: string)
      reads this
    {
      exists id :: id in clients && clients[id].username == username
    }

    /** Some client has this Minecraft UUID. */
    predicate HasMcUuid(mcUuid: Uuid)
      reads this
    {
      exists id :: id in clients && clients[id].uuid == mcUuid
    }

    /** `List::from_file` with the parsed file content given. */
    constructor (loaded: map<Uuid, Client>)
      ensures clients == loaded
    {
      clients := loaded;
    }

    /** `get_by_id` and `get_mut_by_id`: a plain key lookup. */
    function GetById(id: Uuid): (r: Option<Client>)
      reads this
      ensures r.Some? <==> id in clients
      ensures r.Some? ==> r.value == clients[id]
    {
      if id in clients then Some(clients[id]) else None
    }

    /** `get_by_username`: the first client met, in the map's unspecified
        order, with that username. */
    method GetByUsername(username: string) returns (r: Option<Client>)
      ensures r.Some? <==> HasUsername(username)
      ensures r.Some? ==> r.value.username == username && r.value in clients.Values
    {
      var rest := clients.Keys;
      while rest != {}
        invariant rest <= clients.Keys
        invariant forall id :: id in clients && id !in rest ==> clients[id].username != username
        decreases rest
      {
        var id :| id in rest;
        if clients[id].username == username {
          return Some(clients[id]);
        }
        rest := rest - {id};
      }
      return None;
    }

    /** `get_by_mc_uuid`: the first client met with that Minecraft UUID. */
    method GetByMcUuid(mcUuid: Uuid) returns (r: Option<Client>)
      ensures r.Some? <==> HasMcUuid(mcUuid)
      ensures r.Some? ==> r.value.uuid == mcUuid && r.value in clients.Values
    {
      var rest := clients.Keys;
      while rest != {}
        invariant rest <= clients.Keys
        invariant forall id :: id in clients && id !in rest ==> clients[id].uuid != mcUuid
        decreases rest
      {
        var id :| id in rest;
        if clients[id].uuid == mcUuid {
          return Some(clients[id]);
        }
        rest := rest - {id};
      }
      return None;
    }

    /** `contains_uuid`: whether any client has that Minecraft UUID. */
    method ContainsUuid(mcUuid: Uuid) returns (found: bool)
      ensures found <==> HasMcUuid(mcUuid)
    {
      found := false;
      var rest := clients.Keys;
      while rest != {} && !found
        invariant rest <= clients.Keys
        invariant found ==> HasMcUuid(mcUuid)
        invariant !found ==> forall id :: id in clients && id !in rest ==> clients[id].uuid != mcUuid
        decreases rest
      {
        var id :| id in rest;
        found := clients[id].uuid == mcUuid;
        rest := rest - {id};
      }
    }

    /** `register`: refuses a username already taken; otherwise stores, under
        the fresh id `newId`, a client for the profile with no connections and
        saves the list. A failed save is reported but the client stays. */
    method Register(profile: Auth.MinecraftProfile, newId: Uuid, saveError: Option<string>)
      returns (r: Result<Uuid, string>)
      requires Valid() && newId !in clients
      modifies this
      ensures Valid()
      ensures old(HasUsername(profile.username)) ==>
        r == Err("Client " + profile.username + " already exists") && clients == old(clients)
      ensures !old(HasUsername(profile.username)) ==>
        clients == old(clients)[newId := Client(newId, profile.username, profile.uuid, AuthTypeOf(profile), map[])] &&
        r == RegisterOutcome(newId, saveError)
    {
      var existing := GetByUsername(profile.username);
      if existing.Some? {
        return Err("Client " + profile.username + " already exists");
      }
      clients := clients[newId := Client(newId, profile.username, profile.uuid, AuthTypeOf(profile), map[])];
      r := RegisterOutcome(newId, saveError);
    }

    /** `unregister`: removes the client with the Minecraft UUID written in
        `uuidText` (read as the nil UUID when `parsed` says it is malformed) and
        saves the list; fails when no client has it. */
    method Unregister(uuidText: string, parsed: Option<Uuid>, saveError: Option<string>)
      returns (r: Result<Unit, string>)
      requires Valid()
      modifies this
      ensures Valid()
      ensures !old(HasMcUuid(parsed.GetOr(Nil))) ==>
        r == Err("Client " + uuidText + " does not exist") && clients == old(clients)
      ensures old(HasMcUuid(parsed.GetOr(Nil))) ==>
        r == SaveOutcome(saveError) &&
        exists id :: id in old(clients) && old(clients)[id].uuid == parsed.GetOr(Nil) && clients == old(clients) - {id}
    {
      var client := GetByMcUuid(parsed.GetOr(Nil));
      match client {
        case Some(c) =>
          clients := clients - {c.id};
          r := SaveOutcome(saveError);
        case None =>
          r := Err("Client " + uuidText + " does not exist");
      }
    }

    /** `get_mut_by_id(client_id).connections.insert(...)`: records a connection
        for a registered client. */
    method InsertConnection(clientId: Uuid, connection: ClientConnection)
      requires Valid() && clientId in clients
      modifies this
      ensures Valid()
      ensures clients == old(clients)[clientId := old(clients)[clientId].(connections :=
        old(clients)[clientId].connections[connection.id := connection])]
    {
      var c := clients[clientId];
      clients := clients[clientId := c.(connections := c.connections[connection.id := connection])];
    }
  }
}
