/** The per-account controllers of client/mod.rs: a `ClientController` owns the
    connection instances of one account, and the `ControllerContainer` keys the
    controllers by client id. Removing or replacing an entry drops it, and
    dropping an instance kills its task. */
module Controllers {
  import opened Wrappers
  import opened Uuids
  import opened Versions
  import opened Servers
  import opened Auth
  import opened Instances
  import Clients
  import AuthCaches

  /** `inst` is as `ClientInstance::new` leaves it for that key, account,
      server and version. */
  ghost predicate IsNewInstance(inst: ClientInstance, key: Uuid, username: string, uuid: Uuid, auth: AuthProtocol,
                                server: Server, version: Version)
    reads inst
  {
    inst.id == key && inst.info == Info(username, uuid.text, auth) &&
    inst.target == server && inst.version == version &&
    !inst.runState && inst.chatInputs == [] && inst.client.None? && inst.clientThread.None? &&
    inst.spawned == {}
  }

  /** The controller `c`, whose instances held the tasks `held`, has been
      dropped since the pre-state: it still has the same instances, none of
      them holds a task handle, every one that held a task is stopped, and
      every task they held has been killed. */
  twostate predicate Dropped(c: ClientController, held: set<TaskHandle>)
    reads c, c.instances.Values, held
  {
    c.instances == old(c.instances) &&
    (forall k :: k in c.instances ==>
       c.instances[k].clientThread.None? &&
       (old(c.instances[k].clientThread).Some? ==> !c.instances[k].runState)) &&
    forall t :: t in held ==> !t.live
  }

  /** `ClientController`. */
  class ClientController {
    const id: Uuid
    const username: string
    const uuid: Uuid
    const auth: AuthProtocol
    var instances: map<Uuid, ClientInstance>

    /** Every instance is stored under its own id (so no instance is stored twice). */
    ghost predicate Valid()
      reads this
    {
      forall k :: k in instances ==> instances[k].id == k
    }

    /** The tasks held by the instances, as a frame. */
    function Tasks(): set<TaskHandle>
      reads this, instances.Values
    {
      set k | k in instances && instances[k].clientThread.Some? :: instances[k].clientThread.value
    }

    /** `ClientController::new`: no instances yet. */
    constructor (id: Uuid, username: string, uuid: Uuid, auth: AuthProtocol)
      ensures this.id == id && this.username == username && this.uuid == uuid && this.auth == auth
      ensures instances == map[] && Valid()
    {
      this.id := id;
      this.username := username;
      this.uuid := uuid;
      this.auth := auth;
      instances := map[];
    }

    /** `ClientController::new_cached`: fails when `clientId` is not
        registered; otherwise a controller logging in with the cached
        credentials, with one new instance per persisted connection of the
        client, stored under the connection's key. */
    static method NewCached(clients: Clients.ClientList, clientId: Uuid, cache: AuthCaches.MinecraftAuthCache)
      returns (r: Result<ClientController, string>)
      ensures clientId !in clients.clients <==> r.Err?
      ensures r.Err? ==> r.error == "Could not find client " + clientId.text + " in local client register."
      ensures r.Ok? ==> fresh(r.value) && r.value.Valid()
      ensures r.Ok? ==>
        var c := r.value;
        var conns := clients.clients[clientId].connections;
        c.id == clientId && c.username == cache.profile.username && c.uuid == cache.profile.uuid &&
        c.auth == Microsoft(cache.accessToken, cache.msa, cache.profile) &&
        c.instances.Keys == conns.Keys &&
        forall k :: k in c.instances ==>
          fresh(c.instances[k]) &&
          IsNewInstance(c.instances[k], k, c.username, c.uuid, c.auth, conns[k].server, conns[k].version)
    {
      var client := clients.GetById(clientId);
      if client.None? {
        return Err("Could not find client " + clientId.text + " in local client register.");
      }
      var conns := client.value.connections;
      var profile := cache.profile;
      var controller := new ClientController(clientId, profile.username, profile.uuid,
                                             Microsoft(cache.accessToken, cache.msa, profile));
      var rest := conns.Keys;
      while rest != {}
        invariant rest <= conns.Keys
        invariant controller.instances.Keys == conns.Keys - rest
        invariant controller.id == clientId && controller.username == profile.username
        invariant controller.uuid == profile.uuid && controller.auth == Microsoft(cache.accessToken, cache.msa, profile)
        invariant forall k :: k in controller.instances ==>
          fresh(controller.instances[k]) &&
          IsNewInstance(controller.instances[k], k, profile.username, profile.uuid, controller.auth,
                        conns[k].server, conns[k].version)
        invariant fresh(controller)
        decreases rest
      {
        var key :| key in rest;
        var inst := new ClientInstance(key, profile.username, profile.uuid, controller.auth,
                                       conns[key].server, Some(conns[key].version));
        controller.instances := controller.instances[key := inst];
        rest := rest - {key};
      }
      r := Ok(controller);
    }

    /** `create_instance`: a new instance under the fresh id `newId`, which it
        returns; version 1.21 unless one is given. */
    method CreateInstance(server: Server, version: Option<Version>, newId: Uuid) returns (id: Uuid)
      requires Valid() && newId !in instances
      modifies this
      ensures Valid() && id == newId
      ensures id in instances && fresh(instances[id])
      ensures instances == old(instances)[id := instances[id]]
      ensures IsNewInstance(instances[id], id, username, uuid, auth, server, version.GetOr(V1_21))
    {
      id := newId;
      var inst := new ClientInstance(id, username, uuid, auth, server, version);
      instances := instances[id := inst];
    }

    /** `get_instance` and `get_instance_mut`: a plain key lookup. */
    function GetInstance(key: Uuid): (r: Option<ClientInstance>)
      reads this
      ensures r.Some? <==> key in instances
      ensures r.Some? ==> r.value == instances[key]
    {
      if key in instances then Some(instances[key]) else None
    }

    /** Dropping every instance of the controller, which kills their tasks. */
    method DropInstances()
      requires Valid()
      modifies instances.Values, Tasks()
      ensures forall k :: k in instances ==> instances[k].clientThread.None?
      ensures forall k :: k in instances && old(instances[k].clientThread).Some? ==>
        !instances[k].runState && !old(instances[k].clientThread).value.live
    {
      var done: set<Uuid> := {};
      while done != instances.Keys
        invariant done <= instances.Keys
        invariant forall k :: k in done ==>
          (instances[k].clientThread.None? &&
           (old(instances[k].clientThread).Some? ==>
              !instances[k].runState && !old(instances[k].clientThread).value.live))
        invariant forall k :: k in instances && k !in done ==>
          instances[k].clientThread == old(instances[k].clientThread)
        decreases instances.Keys - done
      {
        var key :| key in instances && key !in done;
        var _ := instances[key].Drop();
        done := done + {key};
      }
    }

    /** `remove_instance`: removes that key only; the removed instance is
        dropped, which kills its task. */
    method RemoveInstance(key: Uuid)
      requires Valid()
      modifies this, if key in instances then {instances[key]} + instances[key].Held() else {}
      ensures Valid()
      ensures instances == old(instances) - {key}
      ensures key in old(instances) ==> old(instances)[key].clientThread.None?
      ensures key in old(instances) && old(instances[key].clientThread).Some? ==>
        !old(instances[key].clientThread).value.live
    {
      if key in instances {
        var removed := instances[key];
        instances := instances - {key};
        var _ := removed.Drop();
      }
    }

    /** Dropping the controller, which drops its instances. */
    method Drop()
      requires Valid()
      modifies instances.Values, Tasks()
      ensures forall k :: k in instances ==> instances[k].clientThread.None?
      ensures forall k :: k in instances && old(instances[k].clientThread).Some? ==>
        !instances[k].runState && !old(instances[k].clientThread).value.live
    {
      DropInstances();
    }
  }

  /** `ControllerContainer`: the controllers of the logged-in accounts, keyed
      by client id. */
  class ControllerContainer {
    var list: map<Uuid, ClientController>

    /** Every controller is stored under its own id. */
    ghost predicate Valid()
      reads this, list.Values
    {
      forall k :: k in list ==> list[k].id == k && list[k].Valid()
    }

    /** `ControllerContainer::new`. */
    constructor ()
      ensures list == map[] && Valid()
    {
      list := map[];
    }

    /** `contains`. */
    predicate Contains(key: Uuid): (r: bool)
      reads this
      ensures r <==> key in list.Keys
    {
      key in list
    }

    /** `get` and `get_mut`: a plain key lookup. */
    function Get(key: Uuid): (r: Option<ClientController>)
      reads this
      ensures r.Some? <==> Contains(key)
      ensures r.Some? ==> r.value == list[key]
    {
      if key in list then Some(list[key]) else None
    }

    /** The instances of every controller, as a frame. */
    function Instances(): set<ClientInstance>
      reads this, list.Values
    {
      set c, i | c in list.Values && i in c.instances.Values :: i
    }

    /** The tasks held by those instances, as a frame. */
    function HeldTasks(): set<TaskHandle>
      reads this, list.Values, Instances()
    {
      set c, t | c in list.Values && t in c.Tasks() :: t
    }

    /** What dropping the controller stored under `key` may change: its
        instances and the tasks they hold. */
    function Owned(key: Uuid): set<object>
      reads this, list.Values, Instances()
    {
      if key in list then
        assert list[key].instances.Values <= Instances();
        list[key].instances.Values + list[key].Tasks()
      else {}
    }

    /** What dropping the controllers stored under `keys` may change. */
    function OwnedBy(keys: set<Uuid>): set<object>
      reads this, list.Values, Instances()
    {
      set k, o | k in keys && k in list && o in Owned(k) :: o
    }

    /** Each key's share is part of the whole. */
    lemma OwnedByCovers(keys: set<Uuid>, key: Uuid)
      requires key in keys
      ensures Owned(key) <= OwnedBy(keys)
    {
      if key in list {
        forall o | o in Owned(key)
          ensures o in OwnedBy(keys)
        {
        }
      }
    }

    /** `add`: stores the controller under its id, replacing (and dropping)
        whatever controller was stored there. Only the replaced controller's
        instances and tasks change. */
    method Add(controller: ClientController)
      requires Valid() && controller.Valid()
      modifies this, Owned(controller.id)
      ensures Valid()
      ensures list == old(list)[controller.id := controller]
      ensures Get(controller.id) == Some(controller)
      ensures controller.id in old(list) && old(list[controller.id]) != controller ==>
        Dropped(old(list[controller.id]), old(list[controller.id].Tasks()))
    {
      var key := controller.id;
      if key in list && list[key] != controller {
        list[key].Drop();
      }
      list := list[key := controller];
    }

    /** `remove`: removes that key only, dropping its controller. Only that
        controller's instances and tasks change. */
    method Remove(key: Uuid)
      requires Valid()
      modifies this, Owned(key)
      ensures Valid()
      ensures list == old(list) - {key}
      ensures !Contains(key)
      ensures key in old(list) ==>
        Dropped(old(list[key]), old(list[key].Tasks()))
    {
      if key in list {
        list[key].Drop();
        list := list - {key};
      }
    }
  }
}
