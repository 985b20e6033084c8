/** The invariant of the server: who owns each runnable, which runnable works on which connection, and
    what each of them has done so far. */
module ServerInvariant {
  import opened Common
  import opened HttpMessages
  import opened HandlerAllocator
  import opened ServerState
  import opened ServerSteps

  // ----- where the runnables are -----

  /** The runnables not yet handed to the pool. */
  function Unpushed(s: State): seq<Runnable> {
    match s.pc
    case Scheduling(i) => if i <= |s.core.runnables| then s.core.runnables[i..] else []
    case Draining => []
    case Erasing(_) => []
    case _ => s.core.runnables
  }

  predicate IsActive(k: Worker) {
    k.Busy? && !k.phase.Unlocked?
  }

  /** How often a runnable is in the hands of a worker, before (`active`) or after the worker unlocks
      its connection. */
  function Held(workers: seq<Worker>, active: bool, r: Runnable): nat {
    if workers == [] then 0
    else
      Held(workers[..|workers| - 1], active, r) + HeldBy(workers[|workers| - 1], active, r)
  }

  function HeldBy(k: Worker, active: bool, r: Runnable): nat {
    if k.Busy? && IsActive(k) == active && k.r == r then 1 else 0
  }

  function Occurrences(q: seq<Runnable>, r: Runnable): nat {
    multiset(q)[r]
  }

  /** How often a runnable is in a place where it has not yet unlocked its connection. */
  function Active(s: State, r: Runnable): nat {
    Occurrences(Unpushed(s), r) + Occurrences(s.core.poolQueue, r) + Held(s.workers, true, r)
  }

  function BeingErased(s: State): seq<Runnable> {
    if s.pc.Erasing? then s.pc.items else []
  }

  /** How often a runnable is in a place where it waits to be erased. */
  function Done(s: State, r: Runnable): nat {
    Held(s.workers, false, r) + Occurrences(s.core.doneQueue, r) + Occurrences(BeingErased(s), r)
  }

  /** How often the two lists of `unique_ptr` own a runnable. */
  function Owned(c: Core, r: Runnable): nat {
    Occurrences(c.runnables, r) + Occurrences(c.inProcess, r)
  }

  /** Every runnable in some place is owned once, every owned one is in one place, and the address tells
      the owned ones apart. */
  ghost predicate OwnInv(s: State) {
    && (forall r :: Owned(s.core, r) == Active(s, r) + Done(s, r))
    && (forall r :: Owned(s.core, r) <= 1)
    && (forall r :: Owned(s.core, r) > 0 ==> r.id < s.core.created)
    && (forall r1, r2 :: Owned(s.core, r1) > 0 && Owned(s.core, r2) > 0 && r1.id == r2.id ==> r1 == r2)
  }

  // ----- the connections -----

  ghost predicate TableInv(cfg: Config, c: Core) {
    && (forall h :: h in c.table <==> h == c.mainSock || h in c.comm)
    && NoDup(c.comm)
    && c.mainSock !in c.comm
    && (forall h :: h in c.table ==>
          && IsHandler(cfg.space, h)
          && c.table[h].serial < |c.history|
          && c.history[c.table[h].serial].handler == h
          && !c.history[c.table[h].serial].closed)
    && (forall i :: 0 <= i < |c.history| && !c.history[i].closed ==>
          c.history[i].handler in c.table && c.table[c.history[i].handler].serial == i)
    && c.table[c.mainSock] == Descriptor(CNone, false, None, 0)
  }

  /** The grants are those of the counter values at which they were made, one after the other. */
  ghost predicate TickInv(cfg: Config, c: Core) {
    && (forall i :: 0 <= i < |c.history| ==>
          c.history[i].tick <= c.ticks && c.history[i].handler == At(cfg.space, c.history[i].tick))
    && (forall i, j :: 0 <= i < j < |c.history| ==> c.history[i].tick < c.history[j].tick)
  }

  /** `_need_connection_to_be_closed` is never cleared. */
  ghost predicate AlwaysCloses(app: App) {
    forall req: Request, env: Env :: env.Valid() && app.process(req, env).Some? ==>
      app.process(req, env).value.closeAfterSending
  }

  /** The response to the one request read, for the environment it was processed in. */
  ghost predicate Answered(app: App, g: Grant) {
    && |g.received| == 1 && |g.envs| == 1 && g.envs[0].Valid()
    && var response := app.process(app.parse(g.received[0]), g.envs[0]);
       response.Some? && g.sent == [app.generate(response.value)]
  }

  /** A connection on which nothing has been done. */
  ghost predicate Untouched(g: Grant) {
    g.scheduled == [] && g.received == [] && g.envs == [] && g.sent == [] && !g.closed
  }

  /** The request has been read, and nothing else done, by the runnables scheduled so far. */
  ghost predicate HasRequest(app: App, d: Descriptor, g: Grant) {
    && |g.received| == 1 && |g.received[0]| <= READ_BUFFER_SIZE
    && d.request == Some(app.parse(g.received[0]))
    && g.envs == [] && g.sent == []
  }

  /** What a connection looks like while no runnable works on it. */
  ghost predicate RestOK(app: App, pc: MainPc, h: int, d: Descriptor, g: Grant) {
    match d.state
    case CNone => pc.Connecting? && pc.accepted == h && Untouched(g)
    case CNeedRequest => Untouched(g)
    case CNeedResponse => HasRequest(app, d, g) && g.scheduled == [EReadRequest]
    case CDataSending => false
    case CNeedClose => Answered(app, g) && g.scheduled == [EReadRequest, EWriteResponse]
  }

  ghost predicate RestInv(app: App, s: State) {
    forall h :: h in s.core.table && h != s.core.mainSock && !s.core.table[h].accessLock ==>
      RestOK(app, s.pc, h, s.core.table[h], GrantAt(s.core.history, s.core.table[h].serial))
  }

  /** What the connection of an active runnable looks like, by the phase the runnable is in. */
  ghost predicate JobOK(app: App, c: Core, r: Runnable, phase: Phase) {
    && r.connection in c.table
    && c.table[r.connection].serial == r.serial
    && c.table[r.connection].accessLock
    && r.serial < |c.history|
    && match r.kind
       case EReadRequest => ReadJobOK(app, c.table[r.connection], c.history[r.serial], phase)
       case EWriteResponse => WriteJobOK(app, c.table[r.connection], c.history[r.serial], phase)
       case _ => false
  }

  ghost predicate ReadJobOK(app: App, d: Descriptor, g: Grant, phase: Phase) {
    && g.scheduled == [EReadRequest]
    && match phase
       case Started => d.state.CNeedRequest? && g.received == [] && g.envs == [] && g.sent == []
       case Parsed(request) =>
         && d.state.CNeedRequest? && |g.received| == 1 && |g.received[0]| <= READ_BUFFER_SIZE
         && request == app.parse(g.received[0]) && g.envs == [] && g.sent == []
       case RequestStored => d.state.CNeedRequest? && HasRequest(app, d, g)
       case Finishing => d.state.CNeedResponse? && HasRequest(app, d, g)
       case _ => false
  }

  ghost predicate WriteJobOK(app: App, d: Descriptor, g: Grant, phase: Phase) {
    && g.scheduled == [EReadRequest, EWriteResponse]
    && |g.received| == 1 && |g.received[0]| <= READ_BUFFER_SIZE
    && d.request == Some(app.parse(g.received[0]))
    && match phase
       case Started => d.state.CNeedResponse? && g.envs == [] && g.sent == []
       case Responding(response) => d.state.CNeedResponse? && Consulted(app, g, response) && g.sent == []
       case Sent(response) =>
         d.state.CNeedResponse? && Consulted(app, g, response) && g.sent == [app.generate(response)]
       case Finishing => d.state.CNeedClose? && Answered(app, g)
       case _ => false
  }

  ghost predicate Consulted(app: App, g: Grant, response: Response) {
    && |g.received| == 1 && |g.envs| == 1 && g.envs[0].Valid()
    && app.process(app.parse(g.received[0]), g.envs[0]) == Some(response)
  }

  /** A write runnable whose connection was closed between its last assignment and its unlocking; its
      handler may have been granted again. */
  ghost predicate Orphan(c: Core, r: Runnable, phase: Phase) {
    && r.kind.EWriteResponse? && phase.Finishing?
    && (r.connection in c.table ==> r.serial < c.table[r.connection].serial)
    && r.serial < |c.history|
    && c.history[r.serial].handler == r.connection
  }

  /** `OnFinished` of worker `w` finds the descriptor of another grant than its own, and finds it locked:
      the worker takes away the lock of that grant's runnable. */
  predicate ForeignUnlock(s: State, w: nat) {
    && w < |s.workers| && s.workers[w].Busy? && s.workers[w].phase.Finishing?
    && var r := s.workers[w].r;
       && r.connection in s.core.table
       && s.core.table[r.connection].serial != r.serial
       && s.core.table[r.connection].accessLock
  }

  ghost predicate QueuedInv(app: App, s: State) {
    && (forall r :: r in Unpushed(s) ==> JobOK(app, s.core, r, Started))
    && (forall r :: r in s.core.poolQueue ==> JobOK(app, s.core, r, Started))
  }

  ghost predicate WorkersInv(cfg: Config, s: State) {
    forall w :: 0 <= w < |s.workers| && IsActive(s.workers[w]) ==>
      || JobOK(cfg.app, s.core, s.workers[w].r, s.workers[w].phase)
      || (!cfg.guarded && Orphan(s.core, s.workers[w].r, s.workers[w].phase))
  }

  /** Mutual exclusion: at most one active runnable for a grant, and one whenever it is locked. */
  ghost predicate LockInv(s: State) {
    && OneEach(s)
    && forall h :: h in s.core.table && s.core.table[h].accessLock ==>
         HasSerial(s, s.core.table[h].serial)
  }

  ghost predicate OneEach(s: State) {
    forall r1, r2 :: Active(s, r1) > 0 && Active(s, r2) > 0 && r1.serial == r2.serial ==> r1 == r2
  }

  ghost predicate HasSerial(s: State, serial: nat) {
    exists r :: Active(s, r) > 0 && r.serial == serial
  }

  // ----- the closed connections -----

  /** What is known of a grant for good. */
  ghost predicate GrantOK(app: App, g: Grant) {
    && (g.sent == [] || Answered(app, g))
    && g.scheduled <= [EReadRequest, EWriteResponse]
    && |g.received| <= 1
    && (forall b :: b in g.received ==> |b| <= READ_BUFFER_SIZE)
    && (g.closed ==> Answered(app, g) && g.scheduled == [EReadRequest, EWriteResponse])
  }

  ghost predicate HistoryInv(app: App, c: Core) {
    && (forall i :: 0 <= i < |c.history| ==> GrantOK(app, c.history[i]))
    && c.history != [] && Untouched(c.history[0])
  }

  // ----- the main thread -----

  /** The connections found by the scan stay ready to be closed until they are closed. */
  ghost predicate ReadyToClose(cfg: Config, c: Core, hs: seq<int>) {
    && NoDup(hs)
    && forall h :: h in hs ==> h in c.table && NeedsClose(cfg, c.table[h])
  }

  ghost predicate Known(c: Core, hs: seq<int>) {
    forall h :: h in hs ==> h in c.table
  }

  ghost predicate PcInv(cfg: Config, s: State) {
    match s.pc
    case LoopHead => s.core.runnables == []
    case Scanning(rest, found) =>
      && s.core.runnables == []
      && Known(s.core, rest) && ReadyToClose(cfg, s.core, found) && NoDup(found + rest)
    case Closing(toClose) => s.core.runnables == [] && ReadyToClose(cfg, s.core, toClose)
    case Selecting => s.core.runnables == []
    case Events(readable, writable) => Known(s.core, readable) && Known(s.core, writable)
    case Connecting(h, readable, writable) =>
      && Known(s.core, readable) && Known(s.core, writable)
      && h in s.core.comm && h in s.core.table && !s.core.table[h].accessLock && s.core.table[h].state.CNone?
    case Committing(h, readable, writable) =>
      && Known(s.core, readable) && Known(s.core, writable)
      && h in s.core.comm && h in s.core.table && !s.core.table[h].accessLock
    case Scheduling(i) => i <= |s.core.runnables|
    case Draining => s.core.runnables == []
    case Erasing(_) => s.core.runnables == []
  }

  ghost predicate Inv(cfg: Config, s: State) {
    && s.crash.None? && AlwaysCloses(cfg.app)
    && TableInv(cfg, s.core) && TickInv(cfg, s.core) && HistoryInv(cfg.app, s.core)
    && PcInv(cfg, s)
    && OwnInv(s) && LockInv(s)
    && RestInv(cfg.app, s) && QueuedInv(cfg.app, s) && WorkersInv(cfg, s)
  }
}
