/** One connection of a bot account to a server (`ClientInstance` of
    client/instance.rs): the running flag, the queue of chat lines waiting for
    the next tick, and the handle of the background task that runs the game
    client. The game client itself and the task's body are outside the model:
    a task is an object that is live until it is aborted or runs to its end. */
module Instances {
  import opened Wrappers
  import opened Uuids
  import opened Versions
  import opened Servers
  import opened Auth
  import opened ChatLogs

  // ----- Errors -----

  /** Which piece of state an error is about (`StateSource`). */
  datatype StateSource = Client | Thread | Handle

  /** `Display for StateSource`. */
  function SourceDisplay(s: StateSource): (r: string)
    ensures |r| == 6
  {
    match s
    case Client => "client"
    case Thread => "thread"
    case Handle => "handle"
  }

  datatype InstanceEndError = NoHandle | NoConnect(source: StateSource) | Timeout

  const NotConnectedPrefix: string := "Client is not connected ["

  /** `Display for InstanceEndError` (also its conversion into `String`). */
  function ErrorDisplay(e: InstanceEndError): (r: string)
    ensures |r| > 0
    ensures e.NoConnect? ==> r == NotConnectedPrefix + SourceDisplay(e.source) + "]"
  {
    match e
    case NoHandle => "No thread handle present on client instance."
    case NoConnect(source) => NotConnectedPrefix + SourceDisplay(source) + "]"
    case Timeout => "Thread cancellation has timed out."
  }

  /** The first character of each error's message. */
  lemma {:induction false} ErrorDisplayStart(e: InstanceEndError)
    ensures |ErrorDisplay(e)| > |NotConnectedPrefix|
    ensures ErrorDisplay(e)[0] == match e case NoHandle => 'N' case NoConnect(_) => 'C' case Timeout => 'T'
    ensures e.NoConnect? ==> ErrorDisplay(e)[|NotConnectedPrefix|] == SourceDisplay(e.source)[0]
  {
    var t := ErrorDisplay(e);
    match e
    case NoHandle =>
      assert t == "No thread handle present on client instance.";
    case Timeout =>
      assert t == "Thread cancellation has timed out.";
    case NoConnect(source) =>
      assert t == NotConnectedPrefix + SourceDisplay(source) + "]";
      assert t[0] == NotConnectedPrefix[0];
  }

  /** The three sources are told apart by their first letter. */
  lemma SourceDisplayStart(a: StateSource, b: StateSource)
    ensures |SourceDisplay(a)| > 0
    ensures SourceDisplay(a)[0] == SourceDisplay(b)[0] ==> a == b
  {
    assert SourceDisplay(Client) == "client" && SourceDisplay(Client)[0] == 'c';
    assert SourceDisplay(Thread) == "thread" && SourceDisplay(Thread)[0] == 't';
    assert SourceDisplay(StateSource.Handle) == "handle" && SourceDisplay(StateSource.Handle)[0] == 'h';
  }

  /** Distinct errors are displayed as distinct messages, so the text handed to
      the front end still tells the errors apart. */
  lemma ErrorDisplayInjective(a: InstanceEndError, b: InstanceEndError)
    ensures ErrorDisplay(a) == ErrorDisplay(b) ==> a == b
  {
    ErrorDisplayStart(a);
    ErrorDisplayStart(b);
    if a.NoConnect? && b.NoConnect? {
      SourceDisplayStart(a.source, b.source);
    }
  }

  // ----- Tasks, events and the game client -----

  /** A spawned background task (`JoinHandle<()>`). */
  class TaskHandle {
    var live: bool

    /** `tokio::spawn`. */
    constructor ()
      ensures live
    {
      live := true;
    }

    /** `JoinHandle::abort`. */
    method Abort()
      modifies this
      ensures !live
    {
      live := false;
    }

    /** The task runs to its end while awaited. */
    method Finish()
      modifies this
      ensures !live
    {
      live := false;
    }
  }

  /** The game client handed out by the client library (never stored in this
      version of the program). */
  datatype GameClient = GameClient(username: string)

  /** A call on the game client: send a chat line, or leave the server. */
  datatype ClientCall = ChatCall(message: string) | DisconnectCall

  /** The game events the handler reacts to; every other event and packet is ignored. */
  datatype Event =
    | Tick
    | Chat(message: string)
    | Init
    | Disconnect(reason: Option<string>)
    | DisconnectPacket(packetReason: string)
    | Ignored

  datatype Info = Info(username: string, uuid: string, auth: AuthProtocol)

  const NonRunningNotice: string := "Encountered non-running state notification on tick update, disconnecting..."
  const ConnectedNotice: string := "Successfully connected to server."
  const DisconnectedPrefix: string := "Disconnected from server: "
  const NoReason: string := "No reason provided."

  /** The chat calls that send `lines` in order. */
  function ChatCalls(lines: seq<string>): (r: seq<ClientCall>)
    ensures |r| == |lines|
    ensures forall i :: 0 <= i < |lines| ==> r[i] == ChatCall(lines[i])
  {
    seq(|lines|, i requires 0 <= i < |lines| => ChatCall(lines[i]))
  }

  /** What `Drop` logs about the result of the kill it performs: nothing on
      success or when there was nothing to kill, a warning otherwise. */
  function DropWarning(r: Result<Unit, InstanceEndError>): (w: Option<string>)
    ensures w.None? <==> (r.Ok? || r.error.NoConnect?)
  {
    match r
    case Ok(_) => None
    case Err(NoConnect(_)) => None
    case Err(e) => Some("Failed to kill client connection during drop: " + ErrorDisplay(e))
  }

  // ----- The instance -----

  class ClientInstance {
    const id: Uuid
    const info: Info
    const target: Server
    const version: Version
    var runState: bool
    var chatInputs: seq<string>
    var client: Option<GameClient>
    var clientThread: Option<TaskHandle>
    /** Every task this instance has spawned. */
    ghost var spawned: set<TaskHandle>

    /** At most one spawned task is live, and it is the one whose handle the
        instance holds. */
    ghost predicate Valid()
      reads this, spawned
    {
      (clientThread.Some? ==> clientThread.value in spawned) &&
      (forall t :: t in spawned && t.live ==> clientThread == Some(t))
    }

    /** `ClientInstance::new`: not running, nothing queued, no task, and
        version 1.21 unless one is given. */
    constructor (id: Uuid, username: string, uuid: Uuid, auth: AuthProtocol, server: Server, version: Option<Version>)
      ensures this.id == id && info == Info(username, uuid.text, auth) && target == server
      ensures this.version == version.GetOr(V1_21)
      ensures !runState && chatInputs == [] && client.None? && clientThread.None?
      ensures spawned == {} && Valid()
    {
      this.id := id;
      info := Info(username, uuid.text, auth);
      target := server;
      this.version := version.GetOr(V1_21);
      runState := false;
      chatInputs := [];
      client := None;
      clientThread := None;
      spawned := {};
    }

    /** The task whose handle is held, as a frame. */
    function Held(): set<TaskHandle>
      reads this
    {
      if clientThread.Some? then {clientThread.value} else {}
    }

    /** `is_running`. */
    function IsRunning(): (r: bool)
      reads this
      ensures r <==> runState
    {
      runState
    }

    /** `send_message`: queues a line for the next tick, whatever the running state. */
    method SendMessage(message: string)
      modifies this`chatInputs
      ensures chatInputs == old(chatInputs) + [message]
    {
      chatInputs := chatInputs + [message];
    }

    /** `kill`: aborts the task whose handle is held and marks the instance as
        not running; without a handle, reports that there is no task. */
    method Kill() returns (r: Result<Unit, InstanceEndError>)
      modifies this`runState, this`clientThread, Held()
      ensures clientThread.None?
      ensures old(clientThread).Some? ==> r == Ok(Unit) && !runState && !old(clientThread).value.live
      ensures old(clientThread).None? ==> r == Err(NoConnect(Thread)) && runState == old(runState)
      ensures forall t :: t in spawned && Some(t) != old(clientThread) ==> t.live == old(t.live)
      ensures old(Valid()) ==> Valid() && forall t :: t in spawned ==> !t.live
    {
      match clientThread {
        case Some(handle) =>
          clientThread := None;
          handle.Abort();
          runState := false;
          r := Ok(Unit);
        case None =>
          r := Err(NoConnect(Thread));
      }
    }

    /** `connect`: kills any previous task (ignoring the error when there is
        none), marks the instance as running and spawns a new task whose handle
        it keeps. */
    method Connect()
      modifies this`runState, this`clientThread, this`spawned, Held()
      ensures runState
      ensures clientThread.Some? && fresh(clientThread.value) && clientThread.value.live
      ensures spawned == old(spawned) + {clientThread.value}
      ensures old(clientThread).Some? ==> !old(clientThread).value.live
      ensures forall t :: t in old(spawned) && Some(t) != old(clientThread) ==> t.live == old(t.live)
      ensures old(Valid()) ==> Valid() && forall t :: t in old(spawned) ==> !t.live
    {
      var _ := Kill();
      runState := true;
      var task := new TaskHandle();
      clientThread := Some(task);
      spawned := spawned + {task};
    }

    /** `disconnect_notify`: asks the task to leave at its next tick by clearing
        the running flag; fails when the instance is not running. The task
        handle is left alone. */
    method DisconnectNotify() returns (r: Result<Unit, InstanceEndError>)
      modifies this`runState
      ensures !old(runState) ==> r == Err(NoConnect(Client)) && !runState
      ensures old(runState) ==> r == Ok(Unit) && !runState
    {
      if !runState {
        return Err(NoConnect(Client));
      }
      runState := false;
      r := Ok(Unit);
    }

    /** `disconnect`: takes the stored game client and makes it leave; without
        one, fails. Nothing ever stores a game client, so in this version of
        the program it always fails. */
    method Disconnect() returns (r: Result<Unit, InstanceEndError>, calls: seq<ClientCall>)
      modifies this`client
      ensures client.None?
      ensures old(client).Some? ==> r == Ok(Unit) && calls == [DisconnectCall]
      ensures old(client).None? ==> r == Err(NoConnect(StateSource.Handle)) && calls == []
    {
      match client {
        case Some(_) =>
          client := None;
          r, calls := Ok(Unit), [DisconnectCall];
        case None =>
          r, calls := Err(NoConnect(StateSource.Handle)), [];
      }
    }

    /** `Drop for ClientInstance`: kills the task and warns only on an error
        other than `NoConnect`, which `kill` never returns, so it never warns. */
    method Drop() returns (warning: Option<string>)
      modifies this`runState, this`clientThread, Held()
      ensures warning.None?
      ensures clientThread.None?
      ensures old(clientThread).Some? ==> !runState && !old(clientThread).value.live
      ensures old(Valid()) ==> Valid() && forall t :: t in spawned ==> !t.live
    {
      var r := Kill();
      warning := DropWarning(r);
    }

    /** `soft_kill(&id, &mut client_thread)`: takes the handle and waits up to
        8 seconds for the task to end (`finishedInTime`). On a timeout the
        handle is dropped without aborting the task, which keeps running with
        no handle left to stop it. The running flag is not touched. */
    method SoftKill(finishedInTime: bool) returns (r: Result<Unit, InstanceEndError>)
      modifies this`clientThread, Held()
      ensures clientThread.None?
      ensures old(clientThread).None? ==> r == Err(NoConnect(Thread))
      ensures old(clientThread).Some? && finishedInTime ==> r == Ok(Unit) && !old(clientThread).value.live
      ensures old(clientThread).Some? && !finishedInTime ==>
        r == Err(Timeout) && old(clientThread).value.live == old(clientThread.value.live)
    {
      match clientThread {
        case Some(handle) =>
          clientThread := None;
          if finishedInTime {
            handle.Finish();
            r := Ok(Unit);
          } else {
            r := Err(Timeout);
          }
        case None =>
          r := Err(NoConnect(Thread));
      }
    }

    /** `soft_kill` as its documentation describes it: on a timeout it falls
        back to aborting the task, so no task outlives its handle. */
    method SoftKillAborting(finishedInTime: bool) returns (r: Result<Unit, InstanceEndError>)
      modifies this`clientThread, Held()
      ensures clientThread.None?
      ensures old(clientThread).None? ==> r == Err(NoConnect(Thread))
      ensures old(clientThread).Some? ==> r == (if finishedInTime then Ok(Unit) else Err(Timeout))
      ensures old(clientThread).Some? ==> !old(clientThread).value.live
      ensures old(Valid()) ==> Valid() && forall t :: t in spawned ==> !t.live
    {
      match clientThread {
        case Some(handle) =>
          clientThread := None;
          if finishedInTime {
            handle.Finish();
            r := Ok(Unit);
          } else {
            handle.Abort();
            r := Err(Timeout);
          }
        case None =>
          r := Err(NoConnect(Thread));
      }
    }

    /** The tick branch of `handle` while running: sends every queued line in
        order, then pops as many lines as there were. */
    method SendQueued() returns (calls: seq<ClientCall>)
      modifies this`chatInputs
      ensures calls == ChatCalls(old(chatInputs))
      ensures chatInputs == []
    {
      var count := |chatInputs|;
      calls := [];
      for i := 0 to count
        invariant calls == ChatCalls(chatInputs[..i])
      {
        calls := calls + [ChatCall(chatInputs[i])];
      }
      assert chatInputs[..count] == chatInputs;
      for j := 0 to count
        invariant chatInputs == old(chatInputs)[j..]
      {
        chatInputs := chatInputs[1..];
      }
    }

    /** The event handler `handle`, run by this instance's task against the
        running flag and input queue it shares with the instance and against
        the task's own chat history. */
    method Handle(event: Event, history: ChatHistory, log: ChatLog) returns (calls: seq<ClientCall>)
      requires log.Valid() && history.owner == id
      modifies this`runState, this`chatInputs, history, log
      ensures log.Valid()
      ensures event.Tick? && !old(runState) ==>
        calls == [DisconnectCall] && history.lines == old(history.lines) + [NonRunningNotice] &&
        chatInputs == old(chatInputs) && !runState
      ensures event.Tick? && old(runState) ==>
        calls == ChatCalls(old(chatInputs)) && chatInputs == [] && runState &&
        history.lines == old(history.lines)
      ensures event.Chat? ==>
        calls == [] && history.lines == old(history.lines) + [event.message] && !runState &&
        log.active == (if id in old(log.active) then old(log.active) else old(log.active)[id := history])
      ensures event.Init? ==>
        calls == [] && history.lines == old(history.lines) + [ConnectedNotice] && runState == old(runState)
      ensures event.Disconnect? ==>
        calls == [] && history.lines == old(history.lines) + [DisconnectedPrefix + event.reason.GetOr(NoReason)] &&
        !runState
      ensures event.DisconnectPacket? ==>
        calls == [] && history.lines == old(history.lines) + [DisconnectedPrefix + event.packetReason] &&
        runState == old(runState)
      ensures event.Ignored? ==>
        calls == [] && history.lines == old(history.lines) && runState == old(runState)
      ensures !event.Tick? ==> chatInputs == old(chatInputs)
      ensures !event.Chat? ==> log.active == old(log.active)
    {
      calls := [];
      match event {
        case Tick =>
          if !runState {
            history.Push(NonRunningNotice);
            calls := [DisconnectCall];
          } else {
            calls := SendQueued();
          }
        case Chat(message) =>
          history.Push(message);
          log.SetActive(id, history);
          runState := false;
        case Init =>
          history.Push(ConnectedNotice);
        case Disconnect(reason) =>
          history.Push(DisconnectedPrefix + reason.GetOr(NoReason));
          runState := false;
        case DisconnectPacket(reason) =>
          history.Push(DisconnectedPrefix + reason);
        case Ignored =>
      }
    }
  }

  /** The defect of `soft_kill`: once it times out on a live task, a later
      `connect` finds no handle to kill and spawns a second task beside the
      first, both live. */
  method SoftKillTimeoutLeaksTask(id: Uuid, username: string, uuid: Uuid, auth: AuthProtocol, server: Server)
    returns (inst: ClientInstance, first: TaskHandle, second: TaskHandle)
    ensures first in inst.spawned && second in inst.spawned && first != second
    ensures first.live && second.live
    ensures !inst.Valid()
  {
    inst := new ClientInstance(id, username, uuid, auth, server, None);
    inst.Connect();
    first := inst.clientThread.value;
    var r := inst.SoftKill(false);
    inst.Connect();
    second := inst.clientThread.value;
  }

  /** With the aborting `soft_kill`, the same sequence leaves only the new task live. */
  method SoftKillAbortingKeepsOneTask(id: Uuid, username: string, uuid: Uuid, auth: AuthProtocol, server: Server)
    returns (inst: ClientInstance, first: TaskHandle, second: TaskHandle)
    ensures first in inst.spawned && second in inst.spawned && first != second
    ensures !first.live && second.live
    ensures inst.Valid()
  {
    inst := new ClientInstance(id, username, uuid, auth, server, None);
    inst.Connect();
    first := inst.clientThread.value;
    var r := inst.SoftKillAborting(false);
    inst.Connect();
    second := inst.clientThread.value;
  }
}
