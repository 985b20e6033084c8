/** The server as a system of atomic steps: the main loop of `Server::Start` with a program counter, any
    number of pool workers each with its own, and every interleaving of them. */
module ServerSteps {
  import opened Common
  import opened HttpMessages
  import opened HandlerAllocator
  import opened ServerState

  /** The three pure computations of a worker: `HttpServer::ReadRequest`, `ProcessRequest` (`None` when it
      does not return) and `HttpResponse::Generate`. */
  datatype App = App(
    parse: string -> Request,
    process: (Request, Env) -> Option<Response>,
    generate: Response -> string)

  /** `guarded` selects the scan for connections to close: as written it looks at the state alone
      (`false`); the guarded variant also asks for the access lock to be free. */
  datatype Config = Config(space: Space, app: App, guarded: bool)

  /** Where the main thread is in its loop. */
  datatype MainPc =
    | LoopHead
    | Scanning(rest: seq<int>, found: seq<int>)
    | Closing(toClose: seq<int>)
    | Selecting
    | Events(readable: seq<int>, writable: seq<int>)
    | Connecting(accepted: int, readable: seq<int>, writable: seq<int>)
    | Committing(handler: int, readable: seq<int>, writable: seq<int>)
    | Scheduling(pushed: nat)
    | Draining
    | Erasing(items: seq<Runnable>)

  /** How far a worker is with the runnable it popped. */
  datatype Phase =
    | Started
    | Parsed(request: Request)
    | RequestStored
    | Responding(response: Response)
    | Sent(sentResponse: Response)
    | Finishing
    | Unlocked

  datatype Worker = Idle | Busy(r: Runnable, phase: Phase)

  /** Why the process died: an exception that leaves a thread, a failed `assert`, a null pointer. */
  datatype Crash =
    | HandlersExhausted
    | InvalidHandler
    | RunnerNotFound(r: Runnable)
    | BadDescriptor(r: Runnable)
    | EmptyRequest(r: Runnable)
    | NoResponse(r: Runnable, request: Request, env: Env)
    | SendDataRun(r: Runnable)

  datatype State = State(core: Core, pc: MainPc, workers: seq<Worker>, crash: Option<Crash>)

  datatype Action =
    // main thread
    | BeginScan(order: seq<int>)
    | ScanNext
    | CloseNext
    | Select(readable: seq<int>, writable: seq<int>)
    | NextEvent
    | FinishConnect
    | Commit
    | PushNext
    | DrainDone
    | EraseNext
    // worker w
    | Pop(w: nat)
    | ReceiveAndParse(w: nat, bytes: string)
    | KeepRequest(w: nat)
    | MarkRead(w: nat)
    | Process(w: nat, env: Env)
    | SendResponse(w: nat)
    | MarkSent(w: nat)
    | RunSendData(w: nat)
    | Unlock(w: nat)
    | Finish(w: nat)

  /** A step that only looks at the connections. */
  predicate IsLookAction(a: Action) {
    a.BeginScan? || a.ScanNext? || a.Select?
  }

  /** A step that leaves all runnables where they are. */
  predicate IsPollAction(a: Action) {
    IsLookAction(a) || a.CloseNext? || a.NextEvent? || a.FinishConnect?
  }

  predicate IsHandOverAction(a: Action) {
    a.PushNext? || a.DrainDone? || a.EraseNext?
  }

  predicate IsMainAction(a: Action) {
    IsPollAction(a) || a.Commit? || IsHandOverAction(a)
  }

  /** A step that leaves a record in the grant of its connection. */
  predicate IsRecordingAction(a: Action) {
    a.ReceiveAndParse? || a.Process? || a.SendResponse?
  }

  /** A step of `run` that goes on with the runnable and uses its connection. */
  predicate IsJobAction(a: Action) {
    IsRecordingAction(a) || a.KeepRequest? || a.MarkRead? || a.MarkSent?
  }

  predicate IsPoolAction(a: Action) {
    a.Pop? || a.RunSendData? || a.Unlock? || a.Finish?
  }

  ghost predicate Ascending(s: seq<int>) {
    forall i, j :: 0 <= i < j < |s| ==> s[i] < s[j]
  }

  /** The handlers given to `select`. */
  ghost predicate Polled(c: Core, s: seq<int>) {
    Ascending(s) && forall h :: h in s ==> h in c.comm || h == c.mainSock
  }

  predicate InPhase(s: State, w: nat, kind: RunnableType) {
    w < |s.workers| && s.workers[w].Busy? && s.workers[w].r.kind == kind
  }

  /** What may happen next.  Nothing happens after a crash. */
  ghost predicate Enabled(s: State, a: Action) {
    && s.crash.None?
    && match a
       case BeginScan(order) =>
         s.pc.LoopHead? && Ascending(order) && forall h :: h in order <==> h in s.core.table
       case ScanNext => s.pc.Scanning?
       case CloseNext => s.pc.Closing?
       case Select(readable, writable) => s.pc.Selecting? && Polled(s.core, readable) && Polled(s.core, writable)
       case NextEvent => s.pc.Events?
       case FinishConnect => s.pc.Connecting?
       case Commit => s.pc.Committing?
       case PushNext => s.pc.Scheduling?
       case DrainDone => s.pc.Draining?
       case EraseNext => s.pc.Erasing?
       case Pop(w) => w < |s.workers| && s.workers[w].Idle? && s.core.poolQueue != []
       case ReceiveAndParse(w, bytes) =>
         InPhase(s, w, EReadRequest) && s.workers[w].phase.Started? && |bytes| <= READ_BUFFER_SIZE
       case KeepRequest(w) => InPhase(s, w, EReadRequest) && s.workers[w].phase.Parsed?
       case MarkRead(w) => InPhase(s, w, EReadRequest) && s.workers[w].phase.RequestStored?
       case Process(w, env) =>
         InPhase(s, w, EWriteResponse) && s.workers[w].phase.Started? && env.Valid()
       case SendResponse(w) => InPhase(s, w, EWriteResponse) && s.workers[w].phase.Responding?
       case MarkSent(w) => InPhase(s, w, EWriteResponse) && s.workers[w].phase.Sent?
       case RunSendData(w) => InPhase(s, w, ESendData) && s.workers[w].phase.Started?
       case Unlock(w) => w < |s.workers| && s.workers[w].Busy? && s.workers[w].phase.Finishing?
       case Finish(w) => w < |s.workers| && s.workers[w].Busy? && s.workers[w].phase.Unlocked?
  }

  // ----- steps of the main thread -----

  function Die(s: State, why: Crash): State {
    s.(crash := Some(why))
  }

  /** `TestConnectionNeedsClose`, as written or guarded. */
  predicate NeedsClose(cfg: Config, d: Descriptor) {
    d.state.CNeedClose? && (cfg.guarded ==> !d.accessLock)
  }

  /** One descriptor of `ForEachConnection`. */
  function ScanNextStep(cfg: Config, s: State): State
    requires s.pc.Scanning?
  {
    if s.pc.rest == [] then s.(pc := Closing(s.pc.found))
    else
      var h := s.pc.rest[0];
      var take := h in s.core.table && NeedsClose(cfg, s.core.table[h]);
      s.(pc := Scanning(s.pc.rest[1..], if take then s.pc.found + [h] else s.pc.found))
  }

  function CloseNextStep(s: State): State
    requires s.pc.Closing?
  {
    if s.pc.toClose == [] then s.(pc := Selecting)
    else s.(core := CloseServerConnection(s.core, s.pc.toClose[0]), pc := Closing(s.pc.toClose[1..]))
  }

  /** Every polled handler is in the table. */
  predicate AllKnown(c: Core) {
    c.mainSock in c.table && forall h | h in c.comm :: h in c.table
  }

  /** `ObtainIdleConnections` looks every polled handler up before it selects. */
  function SelectStep(s: State, readable: seq<int>, writable: seq<int>): State {
    if AllKnown(s.core) then
      s.(pc := Events(readable, writable))
    else Die(s, InvalidHandler)
  }

  /** The next handler ready for reading or, after those, for writing.  `OnRead` and `OnWrite` begin by
      testing the access lock; the rest of both is `CommitStep`. */
  function NextEventStep(cfg: Config, s: State): State
    requires s.pc.Events?
  {
    if s.pc.readable != [] then
      var h, next := s.pc.readable[0], Events(s.pc.readable[1..], s.pc.writable);
      if h == s.core.mainSock then AcceptStep(cfg, s, next) else TestLockStep(s, h, next)
    else if s.pc.writable != [] then
      var h, next := s.pc.writable[0], Events([], s.pc.writable[1..]);
      if h == s.core.mainSock then s.(pc := next) else TestLockStep(s, h, next)
    else s.(pc := Scheduling(0))
  }

  function AcceptStep(cfg: Config, s: State, next: MainPc): State
    requires next.Events?
  {
    if s.core.mainSock !in s.core.table then Die(s, InvalidHandler)
    else
      var (h, core) := AcceptConnection(cfg.space, s.core);
      if h.None? then Die(s, HandlersExhausted)
      else s.(core := core, pc := Connecting(h.value, next.readable, next.writable))
  }

  function TestLockStep(s: State, h: int, next: MainPc): State
    requires next.Events?
  {
    if h in s.core.table && !s.core.table[h].accessLock then
      s.(pc := Committing(h, next.readable, next.writable))
    else s.(pc := next)
  }

  /** `OnConnect`. */
  function FinishConnectStep(s: State): State
    requires s.pc.Connecting?
  {
    var h := s.pc.accepted;
    if h !in s.core.table then Die(s, InvalidHandler)
    else s.(core := SetState(s.core, h, CNeedRequest), pc := Events(s.pc.readable, s.pc.writable))
  }

  function CommitStep(s: State): State
    requires s.pc.Committing?
  {
    var h := s.pc.handler;
    if h !in s.core.table then Die(s, InvalidHandler)
    else s.(core := ScheduleFor(s.core, h), pc := Events(s.pc.readable, s.pc.writable))
  }

  /** Hand the next runnable to the pool, or put the whole list with those in process. */
  function PushNextStep(s: State): State
    requires s.pc.Scheduling?
  {
    if s.pc.pushed < |s.core.runnables| then
      s.(core := PushToPool(s.core, s.pc.pushed), pc := Scheduling(s.pc.pushed + 1))
    else s.(core := Splice(s.core), pc := Draining)
  }

  function DrainStep(s: State): State {
    s.(core := TakeDone(s.core), pc := Erasing(s.core.doneQueue))
  }

  function EraseNextStep(s: State): State
    requires s.pc.Erasing?
  {
    if s.pc.items == [] then s.(pc := LoopHead)
    else
      match EraseRunner(s.core, s.pc.items[0])
      case None => Die(s, RunnerNotFound(s.pc.items[0]))
      case Some(core) => s.(core := core, pc := Erasing(s.pc.items[1..]))
  }

  // ----- steps of a worker -----

  function PopStep(s: State, w: nat): State
    requires w < |s.workers| && s.core.poolQueue != []
  {
    s.(core := PopTask(s.core), workers := s.workers[w := Busy(s.core.poolQueue[0], Started)])
  }

  /** Worker `w` goes on with its runnable in the next phase, having changed the shared state. */
  function GoOn(s: State, w: nat, core: Core, phase: Phase): State
    requires w < |s.workers| && s.workers[w].Busy?
  {
    s.(core := core, workers := s.workers[w := Busy(s.workers[w].r, phase)])
  }

  /** The step of a worker that uses the descriptor of its connection in the given phase; without a
      descriptor it is an exception (or a dead pointer) and the end of the process. */
  function UseDescriptor(app: App, s: State, w: nat, a: Action): State
    requires w < |s.workers| && s.workers[w].Busy?
    requires s.workers[w].r.connection in s.core.table
    requires a.KeepRequest? ==> s.workers[w].phase.Parsed?
    requires a.SendResponse? ==> s.workers[w].phase.Responding?
    requires a.MarkSent? ==> s.workers[w].phase.Sent?
  {
    var r, phase := s.workers[w].r, s.workers[w].phase;
    var h := r.connection;
    match a
    case ReceiveAndParse(_, bytes) => GoOn(s, w, Receive(s.core, h, bytes), Parsed(app.parse(bytes)))
    case KeepRequest(_) => GoOn(s, w, StoreRequest(s.core, h, phase.request), RequestStored)
    case MarkRead(_) => GoOn(s, w, SetState(s.core, h, CNeedResponse), Finishing)
    case Process(_, env) => ProcessStep(app, s, w, s.core.table[h].request, env)
    case SendResponse(_) =>
      GoOn(s, w, Send(s.core, h, app.generate(phase.response)), Sent(phase.response))
    case MarkSent(_) =>
      var state := if phase.sentResponse.closeAfterSending then CNeedClose else CDataSending;
      GoOn(s, w, SetState(s.core, h, state), Finishing)
    case Unlock(_) => GoOn(s, w, SetLock(s.core, h, false), Unlocked)
    case _ => s
  }

  function ProcessStep(app: App, s: State, w: nat, request: Option<Request>, env: Env): State
    requires w < |s.workers| && s.workers[w].Busy?
    requires s.workers[w].r.connection in s.core.table
  {
    var r := s.workers[w].r;
    match request
    case None => Die(s, EmptyRequest(r))
    case Some(req) =>
      match app.process(req, env)
      case None => Die(s, NoResponse(r, req, env))
      case Some(response) => GoOn(s, w, Consult(s.core, r.connection, env), Responding(response))
  }

  function FinishStep(s: State, w: nat): State
    requires w < |s.workers| && s.workers[w].Busy?
  {
    s.(core := PushDone(s.core, s.workers[w].r), workers := s.workers[w := Idle])
  }

  // ----- runs -----

  ghost function Step(cfg: Config, s: State, a: Action): State
    requires Enabled(s, a)
  {
    match a
    case BeginScan(order) => s.(pc := Scanning(order, []))
    case ScanNext => ScanNextStep(cfg, s)
    case CloseNext => CloseNextStep(s)
    case Select(readable, writable) => SelectStep(s, readable, writable)
    case NextEvent => NextEventStep(cfg, s)
    case FinishConnect => FinishConnectStep(s)
    case Commit => CommitStep(s)
    case PushNext => PushNextStep(s)
    case DrainDone => DrainStep(s)
    case EraseNext => EraseNextStep(s)
    case Pop(w) => PopStep(s, w)
    case RunSendData(w) => Die(s, SendDataRun(s.workers[w].r))
    case Finish(w) => FinishStep(s, w)
    case _ =>
      if s.workers[a.w].r.connection in s.core.table then UseDescriptor(cfg.app, s, a.w, a)
      else Die(s, BadDescriptor(s.workers[a.w].r))
  }

  /** The state after `Start` has created the listening socket and the pool. */
  function Initial(space: Space, workers: nat): State {
    var (h, core) := Register(space, EMPTY_CORE);
    var main := if h.Some? then h.value else CONNECTION_HANDLER_INVALID;
    State(core.(mainSock := main), LoopHead, seq(workers, _ => Idle),
          if h.Some? then None else Some(HandlersExhausted))
  }

  /** `states` are the states passed through when the given actions are taken one after the other. */
  ghost predicate IsRun(cfg: Config, workers: nat, actions: seq<Action>, states: seq<State>) {
    && |states| == |actions| + 1
    && states[0] == Initial(cfg.space, workers)
    && forall i :: 0 <= i < |actions| ==>
         Enabled(states[i], actions[i]) && states[i + 1] == Step(cfg, states[i], actions[i])
  }
}
