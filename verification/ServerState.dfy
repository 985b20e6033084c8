/** The state shared by the main thread and the workers, and the operations on it.  Each function here is
    one operation of the source that runs under a mutex or touches only data of one thread; the classes
    of module Server carry them out in place, and module ServerSteps interleaves them. */
module ServerState {
  import opened Common
  import opened HttpMessages
  import opened HandlerAllocator

  const READ_BUFFER_SIZE := 2048

  datatype ConnectionState = CNone | CNeedRequest | CNeedResponse | CDataSending | CNeedClose

  datatype RunnableType = ENone | EReadRequest | EWriteResponse | ESendData

  /** A connection descriptor.  `serial` is the number of the grant of the handler: it is not in the
      source and no operation branches on it. */
  datatype Descriptor = Descriptor(
    state: ConnectionState,
    accessLock: bool,
    request: Option<Request>,
    serial: nat)

  /** A runnable object; `id` stands for its address, `serial` for the grant it was created for. */
  datatype Runnable = Runnable(id: nat, kind: RunnableType, connection: int, serial: nat)

  /** What has happened on one grant of a handler.  The source keeps no such record. */
  datatype Grant = Grant(
    handler: int,
    tick: nat,
    scheduled: seq<RunnableType>,
    received: seq<string>,
    envs: seq<Env>,
    sent: seq<string>,
    closed: bool)

  /** `ticks` counts the advances of the handler counter, so the counter itself is `At(space, ticks)`;
      `created` counts the runnables created. */
  datatype Core = Core(
    table: map<int, Descriptor>,
    ticks: nat,
    mainSock: int,
    comm: seq<int>,
    runnables: seq<Runnable>,
    inProcess: seq<Runnable>,
    poolQueue: seq<Runnable>,
    doneQueue: seq<Runnable>,
    created: nat,
    history: seq<Grant>)

  const EMPTY_CORE := Core(map[], 0, CONNECTION_HANDLER_INVALID, [], [], [], [], [], 0, [])

  // ----- connections -----

  /** A handler for a new socket, with a fresh descriptor; no handler when the search fails. */
  function Register(space: Space, c: Core): (Option<int>, Core) {
    var h := Generated(space, c.table.Keys, c.ticks);
    var c1 := c.(ticks := c.ticks + Search(space, c.table.Keys, c.ticks));
    if h == CONNECTION_HANDLER_INVALID then (None, c1)
    else
      (Some(h),
       c1.(table := c.table[h := Descriptor(CNone, false, None, |c.history|)],
           history := c.history + [Grant(h, c1.ticks, [], [], [], [], false)]))
  }

  /** `AcceptNewConnection` and the `push_back` of its result. */
  function AcceptConnection(space: Space, c: Core): (Option<int>, Core) {
    var (h, c1) := Register(space, c);
    (h, if h.Some? then c1.(comm := c1.comm + [h.value]) else c1)
  }

  /** `CloseServerConnection`: an unknown handler is only logged. */
  function CloseServerConnection(c: Core, h: int): Core {
    var c1 := c.(comm := RemoveFirst(c.comm, h));
    if h in c.table then
      var i := c.table[h].serial;
      c1.(table := c.table - {h},
          history := PutGrant(c.history, i, GrantAt(c.history, i).(closed := true)))
    else c1
  }

  function SetState(c: Core, h: int, state: ConnectionState): Core
    requires h in c.table
  {
    c.(table := c.table[h := c.table[h].(state := state)])
  }

  function SetLock(c: Core, h: int, lock: bool): Core
    requires h in c.table
  {
    c.(table := c.table[h := c.table[h].(accessLock := lock)])
  }

  function StoreRequest(c: Core, h: int, request: Request): Core
    requires h in c.table
  {
    c.(table := c.table[h := c.table[h].(request := Some(request))])
  }

  const NO_GRANT := Grant(CONNECTION_HANDLER_INVALID, 0, [], [], [], [], false)

  function GrantAt(history: seq<Grant>, i: nat): Grant {
    if i < |history| then history[i] else NO_GRANT
  }

  function PutGrant(history: seq<Grant>, i: nat, g: Grant): seq<Grant> {
    if i < |history| then history[i := g] else history
  }

  /** `recv` on the connection's socket. */
  function Receive(c: Core, h: int, bytes: string): Core
    requires h in c.table
  {
    var i := c.table[h].serial;
    var g := GrantAt(c.history, i);
    c.(history := PutGrant(c.history, i, g.(received := g.received + [bytes])))
  }

  /** The request is processed with the answers of the file system and the clock in `env`. */
  function Consult(c: Core, h: int, env: Env): Core
    requires h in c.table
  {
    var i := c.table[h].serial;
    var g := GrantAt(c.history, i);
    c.(history := PutGrant(c.history, i, g.(envs := g.envs + [env])))
  }

  /** `send` on the connection's socket. */
  function Send(c: Core, h: int, bytes: string): Core
    requires h in c.table
  {
    var i := c.table[h].serial;
    var g := GrantAt(c.history, i);
    c.(history := PutGrant(c.history, i, g.(sent := g.sent + [bytes])))
  }

  // ----- runnables -----

  /** `ReceiveRunnableTypeForConnection`. */
  function TypeFor(state: ConnectionState): RunnableType {
    match state
    case CNone => ENone
    case CNeedRequest => EReadRequest
    case CNeedResponse => EWriteResponse
    case CDataSending => ESendData
    case CNeedClose => ENone
  }

  /** `ScheduleRunnable`: create the runnable, take the lock, keep the runnable for the pool. */
  function ScheduleRunnable(c: Core, h: int, kind: RunnableType): Core
    requires h in c.table
  {
    var i := c.table[h].serial;
    var g := GrantAt(c.history, i);
    SetLock(c, h, true).(
      runnables := c.runnables + [Runnable(c.created, kind, h, i)],
      created := c.created + 1,
      history := PutGrant(c.history, i, g.(scheduled := g.scheduled + [kind])))
  }

  /** `OnRead` and `OnWrite` once the descriptor was found unlocked. */
  function ScheduleFor(c: Core, h: int): Core
    requires h in c.table
  {
    var kind := TypeFor(c.table[h].state);
    if kind != ENone then ScheduleRunnable(c, h, kind) else c
  }

  // ----- queues and lists -----

  function PushToPool(c: Core, i: nat): Core
    requires i < |c.runnables|
  {
    c.(poolQueue := c.poolQueue + [c.runnables[i]])
  }

  /** `MarkRunnersStatusToInProgress`: the whole list moves to the front of the other. */
  function Splice(c: Core): Core {
    c.(inProcess := c.runnables + c.inProcess, runnables := [])
  }

  function PopTask(c: Core): Core
    requires c.poolQueue != []
  {
    c.(poolQueue := c.poolQueue[1..])
  }

  function PushDone(c: Core, r: Runnable): Core {
    c.(doneQueue := c.doneQueue + [r])
  }

  function TakeDone(c: Core): Core {
    c.(doneQueue := [])
  }

  /** One round of `EraseCompletedRunners`: `None` is the "Runner was not found" exception. */
  function EraseRunner(c: Core, r: Runnable): Option<Core> {
    if r in c.inProcess then Some(c.(inProcess := RemoveFirst(c.inProcess, r))) else None
  }
}
