/** Runs of the server as written: pieces to build them from, and one that ends in the exception of
    `OnFinished`, because a connection is closed between the last assignment of its write runnable and the
    unlocking. */
module ServerRuns {
  import opened Common
  import opened HttpMessages
  import opened HandlerAllocator
  import opened ServerState
  import opened ServerSteps
  import opened ServerInvariant

  ghost predicate Reachable(cfg: Config, workers: nat, s: State) {
    exists actions: seq<Action>, states: seq<State> ::
      IsRun(cfg, workers, actions, states) && states[|actions|] == s
  }

  lemma ReachInitial(cfg: Config, workers: nat)
    ensures Reachable(cfg, workers, Initial(cfg.space, workers))
  {
    assert IsRun(cfg, workers, [], [Initial(cfg.space, workers)]);
  }

  lemma Reach(cfg: Config, workers: nat, s: State, a: Action)
    requires Reachable(cfg, workers, s) && Enabled(s, a)
    ensures Reachable(cfg, workers, Step(cfg, s, a))
  {
    var actions: seq<Action>, states: seq<State> :|
      IsRun(cfg, workers, actions, states) && states[|actions|] == s;
    assert IsRun(cfg, workers, actions + [a], states + [Step(cfg, s, a)]);
    assert (states + [Step(cfg, s, a)])[|actions + [a]|] == Step(cfg, s, a);
  }

  // ----- pieces of runs -----

  /** `s` is alive at the given place of the main loop. */
  ghost predicate AliveAt(cfg: Config, workers: nat, s: State, pc: MainPc) {
    Reachable(cfg, workers, s) && s.crash.None? && s.pc == pc
  }

  ghost predicate Enumerates(order: seq<int>, c: Core) {
    Ascending(order) && forall h :: h in order <==> h in c.table
  }

  ghost predicate NothingToClose(cfg: Config, c: Core, hs: seq<int>) {
    forall i :: 0 <= i < |hs| ==> hs[i] in c.table && !NeedsClose(cfg, c.table[hs[i]])
  }

  /** A scan that finds nothing further closes what it has found. */
  lemma {:induction false} ScanOn(cfg: Config, workers: nat, s: State, rest: seq<int>, found: seq<int>)
    requires AliveAt(cfg, workers, s, Scanning(rest, found)) && NothingToClose(cfg, s.core, rest)
    ensures AliveAt(cfg, workers, s.(pc := Closing(found)), Closing(found))
    decreases |rest|
  {
    Reach(cfg, workers, s, ScanNext);
    if rest != [] {
      ScanOn(cfg, workers, s.(pc := Scanning(rest[1..], found)), rest[1..], found);
    }
  }

  /** An iteration that closes nothing comes to `select`. */
  lemma LoopToSelect(cfg: Config, workers: nat, s: State, order: seq<int>)
    requires AliveAt(cfg, workers, s, LoopHead)
    requires Enumerates(order, s.core) && NothingToClose(cfg, s.core, order)
    ensures AliveAt(cfg, workers, s.(pc := Selecting), Selecting)
  {
    Reach(cfg, workers, s, BeginScan(order));
    ScanOn(cfg, workers, s.(pc := Scanning(order, [])), order, []);
    Reach(cfg, workers, s.(pc := Closing([])), CloseNext);
  }

  /** A scan that begins with a connection that is not to be closed. */
  lemma LoopSkips(cfg: Config, workers: nat, s: State, first: int, rest: seq<int>)
    requires AliveAt(cfg, workers, s.(pc := Scanning([first] + rest, [])), Scanning([first] + rest, []))
    requires first in s.core.table && !NeedsClose(cfg, s.core.table[first])
    ensures AliveAt(cfg, workers, s.(pc := Scanning(rest, [])), Scanning(rest, []))
  {
    assert ([first] + rest)[1..] == rest;
    Reach(cfg, workers, s.(pc := Scanning([first] + rest, [])), ScanNext);
  }

  lemma LoopBegins(cfg: Config, workers: nat, s: State, order: seq<int>)
    requires AliveAt(cfg, workers, s, LoopHead) && Enumerates(order, s.core)
    ensures AliveAt(cfg, workers, s.(pc := Scanning(order, [])), Scanning(order, []))
  {
    Reach(cfg, workers, s, BeginScan(order));
  }

  /** A scan that finds the connection `h`, alone. */
  lemma LoopFinds(cfg: Config, workers: nat, s: State, before: seq<int>, h: int, after: seq<int>)
    requires AliveAt(cfg, workers, s, LoopHead)
    requires Enumerates(before + [h] + after, s.core)
    requires NothingToClose(cfg, s.core, before) && NothingToClose(cfg, s.core, after)
    requires h in s.core.table && NeedsClose(cfg, s.core.table[h]) && |before| <= 1
    ensures AliveAt(cfg, workers, s.(pc := Closing([h])), Closing([h]))
  {
    LoopBegins(cfg, workers, s, before + [h] + after);
    ScanFinds(cfg, workers, s, before, h, after);
  }

  lemma ScanFinds(cfg: Config, workers: nat, s: State, before: seq<int>, h: int, after: seq<int>)
    requires AliveAt(cfg, workers, s.(pc := Scanning(before + [h] + after, [])), Scanning(before + [h] + after, []))
    requires NothingToClose(cfg, s.core, before) && NothingToClose(cfg, s.core, after)
    requires h in s.core.table && NeedsClose(cfg, s.core.table[h]) && |before| <= 1
    ensures AliveAt(cfg, workers, s.(pc := Closing([h])), Closing([h]))
  {
    var order := before + [h] + after;
    if before != [] {
      assert order == [before[0]] + ([h] + after);
      LoopSkips(cfg, workers, s, before[0], [h] + after);
    } else {
      assert order == [h] + after;
    }
    LoopTakes(cfg, workers, s, h, after);
  }

  lemma LoopTakes(cfg: Config, workers: nat, s: State, h: int, after: seq<int>)
    requires AliveAt(cfg, workers, s.(pc := Scanning([h] + after, [])), Scanning([h] + after, []))
    requires NothingToClose(cfg, s.core, after)
    requires h in s.core.table && NeedsClose(cfg, s.core.table[h])
    ensures AliveAt(cfg, workers, s.(pc := Closing([h])), Closing([h]))
  {
    assert ([h] + after)[1..] == after && [] + [h] == [h];
    Reach(cfg, workers, s.(pc := Scanning([h] + after, [])), ScanNext);
    ScanOn(cfg, workers, s.(pc := Scanning(after, [h])), after, [h]);
  }

  /** An iteration that closes the connection `h`, alone, comes to `select`. */
  lemma LoopCloses(cfg: Config, workers: nat, s: State, before: seq<int>, h: int, after: seq<int>)
    requires AliveAt(cfg, workers, s, LoopHead)
    requires Enumerates(before + [h] + after, s.core)
    requires NothingToClose(cfg, s.core, before) && NothingToClose(cfg, s.core, after)
    requires h in s.core.table && NeedsClose(cfg, s.core.table[h]) && |before| <= 1
    ensures var s' := s.(core := CloseServerConnection(s.core, h), pc := Selecting);
            AliveAt(cfg, workers, s', Selecting)
  {
    LoopFinds(cfg, workers, s, before, h, after);
    Reach(cfg, workers, s.(pc := Closing([h])), CloseNext);
    assert [h][1..] == [];
    Reach(cfg, workers, s.(core := CloseServerConnection(s.core, h), pc := Closing([])), CloseNext);
  }

  lemma SelectReads(cfg: Config, workers: nat, s: State, h: int)
    requires AliveAt(cfg, workers, s, Selecting) && AllKnown(s.core)
    requires h in s.core.comm || h == s.core.mainSock
    ensures AliveAt(cfg, workers, s.(pc := Events([h], [])), Events([h], []))
  {
    Reach(cfg, workers, s, Select([h], []));
  }

  /** The shared state once the runnable in hand has been given to the pool and a finished one erased. */
  function HandedOver(c: Core): Core {
    var inProcess := c.runnables + c.inProcess;
    c.(poolQueue := c.poolQueue + c.runnables,
       runnables := [],
       inProcess := if c.doneQueue == [] then inProcess else RemoveFirst(inProcess, c.doneQueue[0]),
       doneQueue := [])
  }

  lemma PushesAll(cfg: Config, workers: nat, s: State)
    requires AliveAt(cfg, workers, s, Scheduling(0)) && |s.core.runnables| <= 1
    ensures var c := s.core.(poolQueue := s.core.poolQueue + s.core.runnables,
                             inProcess := s.core.runnables + s.core.inProcess, runnables := []);
            AliveAt(cfg, workers, s.(core := c, pc := Draining), Draining)
  {
    Reach(cfg, workers, s, PushNext);
    if s.core.runnables != [] {
      assert s.core.runnables == [s.core.runnables[0]];
      Reach(cfg, workers, Step(cfg, s, PushNext), PushNext);
    } else {
      assert s.core.poolQueue + [] == s.core.poolQueue;
    }
  }

  lemma ErasesAll(cfg: Config, workers: nat, s: State)
    requires AliveAt(cfg, workers, s, Draining) && |s.core.doneQueue| <= 1
    requires forall r :: r in s.core.doneQueue ==> r in s.core.inProcess
    ensures var inProcess := if s.core.doneQueue == [] then s.core.inProcess
                             else RemoveFirst(s.core.inProcess, s.core.doneQueue[0]);
            var s' := s.(core := s.core.(inProcess := inProcess, doneQueue := []), pc := LoopHead);
            AliveAt(cfg, workers, s', LoopHead)
  {
    Reach(cfg, workers, s, DrainDone);
    var s1 := DrainStep(s);
    if s.core.doneQueue != [] {
      assert s.core.doneQueue[0] in s.core.doneQueue;
      Reach(cfg, workers, s1, EraseNext);
      s1 := EraseNextStep(s1);
    }
    Reach(cfg, workers, s1, EraseNext);
  }

  lemma EventsToLoop(cfg: Config, workers: nat, s: State)
    requires AliveAt(cfg, workers, s, Events([], []))
    requires |s.core.runnables| <= 1 && |s.core.doneQueue| <= 1
    requires forall r :: r in s.core.doneQueue ==> r in s.core.inProcess
    ensures AliveAt(cfg, workers, s.(core := HandedOver(s.core), pc := LoopHead), LoopHead)
  {
    Reach(cfg, workers, s, NextEvent);
    var s1 := s.(pc := Scheduling(0));
    PushesAll(cfg, workers, s1);
    var c := s.core.(poolQueue := s.core.poolQueue + s.core.runnables,
                     inProcess := s.core.runnables + s.core.inProcess, runnables := []);
    ErasesAll(cfg, workers, s.(core := c, pc := Draining));
  }

  /** The shared state after a connection was accepted and set up. */
  function Connected(space: Space, c: Core): Core {
    var (h, c1) := AcceptConnection(space, c);
    if h.Some? then SetState(c1, h.value, CNeedRequest) else c
  }

  /** An iteration that accepts a connection. */
  lemma SelectAccepts(cfg: Config, workers: nat, s: State)
    requires AliveAt(cfg, workers, s, Selecting) && AllKnown(s.core)
    requires AcceptConnection(cfg.space, s.core).0.Some?
    requires s.core.runnables == [] && s.core.doneQueue == []
    ensures var s' := s.(core := Connected(cfg.space, s.core), pc := LoopHead);
            AliveAt(cfg, workers, s', LoopHead)
  {
    SelectReads(cfg, workers, s, s.core.mainSock);
    var s1 := s.(pc := Events([s.core.mainSock], []));
    assert [s.core.mainSock][1..] == [];
    Reach(cfg, workers, s1, NextEvent);
    Reach(cfg, workers, Step(cfg, s1, NextEvent), FinishConnect);
    var s2 := s.(core := Connected(cfg.space, s.core), pc := Events([], []));
    EventsToLoop(cfg, workers, s2);
    var c := s2.core;
    assert HandedOver(c) == c by {
      assert c.poolQueue + [] == c.poolQueue && [] + c.inProcess == c.inProcess;
    }
  }

  /** An iteration that schedules a runnable for `h`. */
  lemma SelectSchedules(cfg: Config, workers: nat, s: State, h: int)
    requires AliveAt(cfg, workers, s, Selecting) && AllKnown(s.core)
    requires h in s.core.comm && h != s.core.mainSock && !s.core.table[h].accessLock
    requires s.core.runnables == [] && |s.core.doneQueue| <= 1
    requires forall r :: r in s.core.doneQueue ==> r in s.core.inProcess
    ensures var s' := s.(core := HandedOver(ScheduleFor(s.core, h)), pc := LoopHead);
            AliveAt(cfg, workers, s', LoopHead)
  {
    SelectReads(cfg, workers, s, h);
    var s1 := s.(pc := Events([h], []));
    assert [h][1..] == [];
    Reach(cfg, workers, s1, NextEvent);
    var s2 := s.(pc := Committing(h, [], []));
    Reach(cfg, workers, s2, Commit);
    EventsToLoop(cfg, workers, s.(core := ScheduleFor(s.core, h), pc := Events([], [])));
  }

  // ----- one connection from accepting to closing -----

  /** The server with one worker and one connection `h`, whose descriptor is `d` and whose grant is `g`. */
  function Scene(h: int, d: Descriptor, g: Grant, inProcess: seq<Runnable>, pool: seq<Runnable>,
                 done: seq<Runnable>, created: nat, worker: Worker): State
  {
    State(Core(map[1 := Descriptor(CNone, false, None, 0), h := d], 2, 1, [h], [], inProcess, pool, done,
               created, [Grant(1, 1, [], [], [], [], false), g]),
          LoopHead, [worker], None)
  }

  function SecondHandler(space: Space): (h: int)
    ensures IsHandler(space, h)
  {
    At(space, 2)
  }

  lemma HandlersDiffer(space: Space)
    ensures At(space, 1) == 1 && SecondHandler(space) != 1
    ensures Search(space, {}, 0) == 1 && Search(space, {1}, 1) == 1
  {
    assert At(space, 0) == 0 && At(space, 1) == Advance(space, 0) == 1;
    assert !InUse(space, {}, 0, 1);
    NotBackBefore(space, 1, 1);
    assert !InUse(space, {1}, 1, 1);
  }

  function ReadJob(h: int): Runnable {
    Runnable(0, EReadRequest, h, 1)
  }

  function WriteJob(h: int): Runnable {
    Runnable(1, EWriteResponse, h, 1)
  }

  function HandlerOrder(h: int): seq<int> {
    if 1 < h then [1, h] else [h, 1]
  }

  lemma SceneAccepted(cfg: Config)
    ensures AliveAt(cfg, 1, AcceptedScene(cfg.space), LoopHead)
  {
    var s := Initial(cfg.space, 1);
    InitialScene(cfg.space);
    ReachInitial(cfg, 1);
    LoopToSelect(cfg, 1, s, [1]);
    SelectAccepts(cfg, 1, s.(pc := Selecting));
  }

  lemma InitialScene(space: Space)
    ensures var s := Initial(space, 1);
            && s == State(Core(map[1 := Descriptor(CNone, false, None, 0)], 1, 1, [], [], [], [], [], 0,
                               [Grant(1, 1, [], [], [], [], false)]), LoopHead, [Idle], None)
            && AcceptConnection(space, s.core).0.Some?
            && s.(core := Connected(space, s.core)) == AcceptedScene(space)
  {
    HandlersDiffer(space);
    var s := Initial(space, 1);
    assert s.core.table == map[1 := Descriptor(CNone, false, None, 0)];
    assert s.core.table.Keys == {1};
    assert s.workers == [Idle];
    assert Connected(space, s.core).table == AcceptedScene(space).core.table;
  }

  /** From a scene with an unlocked connection to one in which its runnable is in the pool. */
  lemma SceneScheduled(cfg: Config, s: State, h: int)
    requires AliveAt(cfg, 1, s, LoopHead) && h != 1
    requires s.core.table.Keys == {1, h} && s.core.mainSock == 1 && s.core.comm == [h]
    requires s.core.table[1].state.CNone? && !s.core.table[h].state.CNeedClose?
    requires !s.core.table[h].accessLock
    requires s.core.runnables == [] && |s.core.doneQueue| <= 1
    requires forall r :: r in s.core.doneQueue ==> r in s.core.inProcess
    ensures AliveAt(cfg, 1, s.(core := HandedOver(ScheduleFor(s.core, h))), LoopHead)
  {
    LoopToSelect(cfg, 1, s, HandlerOrder(h));
    SelectSchedules(cfg, 1, s.(pc := Selecting), h);
    assert s.(core := HandedOver(ScheduleFor(s.core, h)), pc := LoopHead)
        == s.(core := HandedOver(ScheduleFor(s.core, h)));
  }

  /** The shared state after a read runnable has run, been unlocked and been pushed as done. */
  function AfterReading(app: App, c: Core, r: Runnable, bytes: string): Core
    requires r.connection in c.table
  {
    var h := r.connection;
    var c1 := SetState(StoreRequest(Receive(c, h, bytes), h, app.parse(bytes)), h, CNeedResponse);
    PushDone(SetLock(c1, h, false), r)
  }

  /** Worker 0 is at its runnable `r`, whose connection is in the table. */
  ghost predicate Working(cfg: Config, s: State, c: Core, r: Runnable, phase: Phase) {
    && s == State(c, LoopHead, [Busy(r, phase)], None)
    && Reachable(cfg, 1, s) && r.connection in c.table
  }

  lemma WorkGoesOn(cfg: Config, s: State, c: Core, r: Runnable, phase: Phase, a: Action, c': Core, next: Phase)
    requires Working(cfg, s, c, r, phase) && Enabled(s, a)
    requires Step(cfg, s, a) == GoOn(s, 0, c', next) && r.connection in c'.table
    ensures Working(cfg, State(c', LoopHead, [Busy(r, next)], None), c', r, next)
  {
    Reach(cfg, 1, s, a);
    assert [Busy(r, phase)][0 := Busy(r, next)] == [Busy(r, next)];
  }

  lemma Reading(cfg: Config, c: Core, r: Runnable, bytes: string)
    requires Working(cfg, State(c, LoopHead, [Busy(r, Started)], None), c, r, Started)
    requires r.kind.EReadRequest? && |bytes| <= READ_BUFFER_SIZE
    ensures AliveAt(cfg, 1, State(AfterReading(cfg.app, c, r, bytes), LoopHead, [Idle], None), LoopHead)
  {
    var h, request := r.connection, cfg.app.parse(bytes);
    var s0 := State(c, LoopHead, [Busy(r, Started)], None);
    var c1 := Receive(c, h, bytes);
    WorkGoesOn(cfg, s0, c, r, Started, ReceiveAndParse(0, bytes), c1, Parsed(request));
    var s1 := State(c1, LoopHead, [Busy(r, Parsed(request))], None);
    var c2 := StoreRequest(c1, h, request);
    WorkGoesOn(cfg, s1, c1, r, Parsed(request), KeepRequest(0), c2, RequestStored);
    ReadingOn(cfg, c2, r);
  }

  lemma ReadingOn(cfg: Config, c: Core, r: Runnable)
    requires Working(cfg, State(c, LoopHead, [Busy(r, RequestStored)], None), c, r, RequestStored)
    requires r.kind.EReadRequest?
    ensures var c' := PushDone(SetLock(SetState(c, r.connection, CNeedResponse), r.connection, false), r);
            AliveAt(cfg, 1, State(c', LoopHead, [Idle], None), LoopHead)
  {
    var h := r.connection;
    var s0 := State(c, LoopHead, [Busy(r, RequestStored)], None);
    var c1 := SetState(c, h, CNeedResponse);
    WorkGoesOn(cfg, s0, c, r, RequestStored, MarkRead(0), c1, Finishing);
    var s1 := State(c1, LoopHead, [Busy(r, Finishing)], None);
    var c2 := SetLock(c1, h, false);
    WorkGoesOn(cfg, s1, c1, r, Finishing, Unlock(0), c2, Unlocked);
    var s2 := State(c2, LoopHead, [Busy(r, Unlocked)], None);
    Reach(cfg, 1, s2, Finish(0));
    assert [Busy(r, Unlocked)][0 := Idle] == [Idle];
  }

  /** The shared state after a write runnable has run. */
  function AfterWriting(app: App, c: Core, r: Runnable, env: Env, response: Response): Core
    requires r.connection in c.table
  {
    var h := r.connection;
    SetState(Send(Consult(c, h, env), h, app.generate(response)), h, CNeedClose)
  }

  lemma Writing(cfg: Config, c: Core, r: Runnable, request: Request, env: Env, response: Response)
    requires Working(cfg, State(c, LoopHead, [Busy(r, Started)], None), c, r, Started)
    requires r.kind.EWriteResponse? && c.table[r.connection].request == Some(request) && env.Valid()
    requires cfg.app.process(request, env) == Some(response) && response.closeAfterSending
    ensures var c' := AfterWriting(cfg.app, c, r, env, response);
            AliveAt(cfg, 1, State(c', LoopHead, [Busy(r, Finishing)], None), LoopHead)
  {
    var h := r.connection;
    var s0 := State(c, LoopHead, [Busy(r, Started)], None);
    var c1 := Consult(c, h, env);
    WorkGoesOn(cfg, s0, c, r, Started, Process(0, env), c1, Responding(response));
    var s1 := State(c1, LoopHead, [Busy(r, Responding(response))], None);
    var c2 := Send(c1, h, cfg.app.generate(response));
    WorkGoesOn(cfg, s1, c1, r, Responding(response), SendResponse(0), c2, Sent(response));
    var s2 := State(c2, LoopHead, [Busy(r, Sent(response))], None);
    WorkGoesOn(cfg, s2, c2, r, Sent(response), MarkSent(0), SetState(c2, h, CNeedClose), Finishing);
  }

  /** Worker 0 takes the only runnable of the pool. */
  lemma Picks(cfg: Config, c: Core, r: Runnable)
    requires AliveAt(cfg, 1, State(c, LoopHead, [Idle], None), LoopHead)
    requires c.poolQueue == [r] && r.connection in c.table
    ensures var c' := c.(poolQueue := []);
            Working(cfg, State(c', LoopHead, [Busy(r, Started)], None), c', r, Started)
  {
    var s := State(c, LoopHead, [Idle], None);
    Reach(cfg, 1, s, Pop(0));
    assert [r][1..] == [] && [Idle][0 := Busy(r, Started)] == [Busy(r, Started)];
  }

  // ----- the scenes -----

  function AcceptedScene(space: Space): State {
    var h := SecondHandler(space);
    Scene(h, Descriptor(CNeedRequest, false, None, 1), Grant(h, 2, [], [], [], [], false), [], [], [], 0, Idle)
  }

  function ReadScene(cfg: Config, bytes: string): State {
    var h := SecondHandler(cfg.space);
    Scene(h, Descriptor(CNeedResponse, false, Some(cfg.app.parse(bytes)), 1),
          Grant(h, 2, [EReadRequest], [bytes], [], [], false), [ReadJob(h)], [], [ReadJob(h)], 1, Idle)
  }

  /** The connection after its response was sent, its runnable not yet unlocked. */
  function Answering(cfg: Config, bytes: string, env: Env): State
    requires cfg.app.process(cfg.app.parse(bytes), env).Some?
  {
    var h, request := SecondHandler(cfg.space), cfg.app.parse(bytes);
    var response := cfg.app.process(request, env).value;
    Scene(h, Descriptor(CNeedClose, true, Some(request), 1),
          Grant(h, 2, [EReadRequest, EWriteResponse], [bytes], [env], [cfg.app.generate(response)], false),
          [WriteJob(h)], [], [], 2, Busy(WriteJob(h), Finishing))
  }

  lemma SceneRead(cfg: Config, bytes: string)
    requires |bytes| <= READ_BUFFER_SIZE
    ensures AliveAt(cfg, 1, ReadScene(cfg, bytes), LoopHead)
  {
    HandlersDiffer(cfg.space);
    SceneAccepted(cfg);
    var h, s := SecondHandler(cfg.space), AcceptedScene(cfg.space);
    SceneScheduled(cfg, s, h);
    var c := HandedOver(ScheduleFor(s.core, h));
    assert c.poolQueue == [ReadJob(h)];
    Picks(cfg, c, ReadJob(h));
    Reading(cfg, c.(poolQueue := []), ReadJob(h), bytes);
    ReadSceneIs(cfg, bytes);
  }

  /** The shared state of a scene. */
  function SceneCore(h: int, d: Descriptor, g: Grant, inProcess: seq<Runnable>, done: seq<Runnable>,
                     created: nat): Core
  {
    Scene(h, d, g, inProcess, [], done, created, Idle).core
  }

  lemma SceneTouch(h: int, d: Descriptor, g: Grant, inProcess: seq<Runnable>, done: seq<Runnable>,
                   created: nat, d': Descriptor, g': Grant)
    requires h != 1 && d.serial == 1
    ensures var c := SceneCore(h, d, g, inProcess, done, created);
            && c.table[h := d'] == SceneCore(h, d', g', inProcess, done, created).table
            && PutGrant(c.history, 1, g') == SceneCore(h, d', g', inProcess, done, created).history
            && GrantAt(c.history, 1) == g && c.table[h] == d
  {
  }

  lemma ScheduledScene(h: int, d: Descriptor, g: Grant, inProcess: seq<Runnable>, done: seq<Runnable>,
                       created: nat, inProcess': seq<Runnable>)
    requires h != 1 && d.serial == 1 && TypeFor(d.state) != ENone
    requires var all := [Runnable(created, TypeFor(d.state), h, 1)] + inProcess;
             inProcess' == if done == [] then all else RemoveFirst(all, done[0])
    ensures HandedOver(ScheduleFor(SceneCore(h, d, g, inProcess, done, created), h)).(poolQueue := [])
         == SceneCore(h, d.(accessLock := true), g.(scheduled := g.scheduled + [TypeFor(d.state)]),
                      inProcess', [], created + 1)
  {
    var d', g' := d.(accessLock := true), g.(scheduled := g.scheduled + [TypeFor(d.state)]);
    ScheduledSceneCore(h, d, g, inProcess, done, created);
    var r := Runnable(created, TypeFor(d.state), h, 1);
    HandedOverScene(SceneCore(h, d', g', inProcess, done, created + 1), r, inProcess, done);
  }

  lemma ScheduledSceneCore(h: int, d: Descriptor, g: Grant, inProcess: seq<Runnable>, done: seq<Runnable>,
                      created: nat)
    requires h != 1 && d.serial == 1 && TypeFor(d.state) != ENone
    ensures ScheduleFor(SceneCore(h, d, g, inProcess, done, created), h)
         == SceneCore(h, d.(accessLock := true), g.(scheduled := g.scheduled + [TypeFor(d.state)]),
                      inProcess, done, created + 1).(runnables := [Runnable(created, TypeFor(d.state), h, 1)])
  {
    SceneTouch(h, d, g, inProcess, done, created,
               d.(accessLock := true), g.(scheduled := g.scheduled + [TypeFor(d.state)]));
  }

  lemma HandedOverScene(c: Core, r: Runnable, inProcess: seq<Runnable>, done: seq<Runnable>)
    requires c.runnables == [] && c.poolQueue == [] && c.inProcess == inProcess && c.doneQueue == done
    ensures HandedOver(c.(runnables := [r])).(poolQueue := [])
         == c.(inProcess := if done == [] then [r] + inProcess else RemoveFirst([r] + inProcess, done[0]),
               doneQueue := [])
  {
  }

  lemma ReadSceneIs(cfg: Config, bytes: string)
    requires SecondHandler(cfg.space) != 1
    ensures var h := SecondHandler(cfg.space);
            var c := HandedOver(ScheduleFor(AcceptedScene(cfg.space).core, h)).(poolQueue := []);
            AfterReading(cfg.app, c, ReadJob(h), bytes) == ReadScene(cfg, bytes).core
  {
    var h, request := SecondHandler(cfg.space), cfg.app.parse(bytes);
    var d0, g0 := Descriptor(CNeedRequest, false, None, 1), Grant(h, 2, [], [], [], [], false);
    ScheduledScene(h, d0, g0, [], [], 0, [ReadJob(h)]);
    var d, g := Descriptor(CNeedRequest, true, None, 1), Grant(h, 2, [EReadRequest], [], [], [], false);
    assert g0.scheduled + [EReadRequest] == [EReadRequest];
    SceneReadIs(cfg, h, d, g, bytes);
  }

  lemma SceneReadIs(cfg: Config, h: int, d: Descriptor, g: Grant, bytes: string)
    requires h != 1 && d.serial == 1 && g.received == []
    ensures AfterReading(cfg.app, SceneCore(h, d, g, [ReadJob(h)], [], 1), ReadJob(h), bytes)
         == SceneCore(h, Descriptor(CNeedResponse, false, Some(cfg.app.parse(bytes)), 1),
                      g.(received := [bytes]), [ReadJob(h)], [ReadJob(h)], 1)
  {
    assert g.received + [bytes] == [bytes];
    SceneTouch(h, d, g, [ReadJob(h)], [], 1,
               Descriptor(CNeedResponse, false, Some(cfg.app.parse(bytes)), 1), g.(received := [bytes]));
  }

  lemma ReadSceneTable(cfg: Config, bytes: string)
    requires SecondHandler(cfg.space) != 1
    ensures var h, c := SecondHandler(cfg.space), ReadScene(cfg, bytes).core;
            && c.table.Keys == {1, h} && c.mainSock == 1 && c.comm == [h]
            && c.table[1].state.CNone?
            && c.table[h] == Descriptor(CNeedResponse, false, Some(cfg.app.parse(bytes)), 1)
            && c.runnables == [] && c.poolQueue == [] && c.created == 1
            && c.doneQueue == [ReadJob(h)] && c.inProcess == [ReadJob(h)]
  {
  }

  lemma HandsOverWriter(c: Core, h: int)
    requires h in c.table && c.table[h].state.CNeedResponse? && c.table[h].serial == 1 && c.created == 1
    requires c.runnables == [] && c.poolQueue == []
    ensures var c' := HandedOver(ScheduleFor(c, h));
            && c'.poolQueue == [WriteJob(h)] && h in c'.table
            && c'.table[h].request == c.table[h].request
  {
  }

  lemma SceneAnswering(cfg: Config, bytes: string, env: Env)
    requires |bytes| <= READ_BUFFER_SIZE && AlwaysCloses(cfg.app)
    requires env.Valid() && cfg.app.process(cfg.app.parse(bytes), env).Some?
    ensures AliveAt(cfg, 1, Answering(cfg, bytes, env), LoopHead)
  {
    HandlersDiffer(cfg.space);
    SceneRead(cfg, bytes);
    var h, request, s := SecondHandler(cfg.space), cfg.app.parse(bytes), ReadScene(cfg, bytes);
    ReadSceneTable(cfg, bytes);
    SceneScheduled(cfg, s, h);
    HandsOverWriter(s.core, h);
    var c := HandedOver(ScheduleFor(s.core, h));
    Picks(cfg, c, WriteJob(h));
    var response := cfg.app.process(request, env).value;
    Writing(cfg, c.(poolQueue := []), WriteJob(h), request, env, response);
    AnsweringIs(cfg, bytes, env);
  }

  lemma AnsweringIs(cfg: Config, bytes: string, env: Env)
    requires SecondHandler(cfg.space) != 1
    requires cfg.app.process(cfg.app.parse(bytes), env).Some?
    ensures var h := SecondHandler(cfg.space);
            var c := HandedOver(ScheduleFor(ReadScene(cfg, bytes).core, h)).(poolQueue := []);
            var response := cfg.app.process(cfg.app.parse(bytes), env).value;
            AfterWriting(cfg.app, c, WriteJob(h), env, response) == Answering(cfg, bytes, env).core
  {
    var h, request := SecondHandler(cfg.space), cfg.app.parse(bytes);
    var d0 := Descriptor(CNeedResponse, false, Some(request), 1);
    var g0 := Grant(h, 2, [EReadRequest], [bytes], [], [], false);
    OlderErased(h);
    ScheduledScene(h, d0, g0, [ReadJob(h)], [ReadJob(h)], 1, [WriteJob(h)]);
    assert g0.scheduled + [EWriteResponse] == [EReadRequest, EWriteResponse];
    SceneWrittenIs(cfg, h, d0.(accessLock := true),
                   Grant(h, 2, [EReadRequest, EWriteResponse], [bytes], [], [], false), env,
                   cfg.app.process(request, env).value);
  }

  lemma OlderErased(h: int)
    ensures RemoveFirst([WriteJob(h)] + [ReadJob(h)], ReadJob(h)) == [WriteJob(h)]
  {
    var jobs := [WriteJob(h)] + [ReadJob(h)];
    assert jobs[1..] == [ReadJob(h)];
    assert IndexOf([ReadJob(h)], ReadJob(h)) == 0;
    assert IndexOf(jobs, ReadJob(h)) == 1;
  }

  lemma SceneWrittenIs(cfg: Config, h: int, d: Descriptor, g: Grant, env: Env, response: Response)
    requires h != 1 && d.serial == 1 && g.envs == [] && g.sent == []
    ensures AfterWriting(cfg.app, SceneCore(h, d, g, [WriteJob(h)], [], 2), WriteJob(h), env, response)
         == SceneCore(h, d.(state := CNeedClose), g.(envs := [env], sent := [cfg.app.generate(response)]),
                      [WriteJob(h)], [], 2)
  {
    assert g.envs + [env] == [env] && g.sent + [cfg.app.generate(response)] == [cfg.app.generate(response)];
    SceneTouch(h, d, g, [WriteJob(h)], [], 2,
               d.(state := CNeedClose), g.(envs := [env], sent := [cfg.app.generate(response)]));
  }

  // ----- the exception in OnFinished -----

  /** As written, the scan finds the connection that is still locked and closes it. */
  lemma SceneStranded(cfg: Config, bytes: string, env: Env)
    requires !cfg.guarded && |bytes| <= READ_BUFFER_SIZE && AlwaysCloses(cfg.app)
    requires env.Valid() && cfg.app.process(cfg.app.parse(bytes), env).Some?
    ensures var s, h := Answering(cfg, bytes, env), SecondHandler(cfg.space);
            AliveAt(cfg, 1, s.(core := CloseServerConnection(s.core, h), pc := Selecting), Selecting)
  {
    HandlersDiffer(cfg.space);
    SceneAnswering(cfg, bytes, env);
    var s, h := Answering(cfg, bytes, env), SecondHandler(cfg.space);
    AnsweringTable(cfg, bytes, env);
    SceneCloses(cfg, s, h);
  }

  lemma AnsweringTable(cfg: Config, bytes: string, env: Env)
    requires !cfg.guarded && SecondHandler(cfg.space) != 1
    requires cfg.app.process(cfg.app.parse(bytes), env).Some?
    ensures var c, h := Answering(cfg, bytes, env).core, SecondHandler(cfg.space);
            && c.table.Keys == {1, h} && c.mainSock == 1 && c.comm == [h]
            && c.table[1].state.CNone? && c.table[h].state.CNeedClose?
  {
  }

  /** As written, the scan finds a connection in `CNeedClose`, locked or not, and closes it. */
  lemma SceneCloses(cfg: Config, s: State, h: int)
    requires !cfg.guarded && AliveAt(cfg, 1, s, LoopHead) && h != 1
    requires s.core.table.Keys == {1, h} && s.core.mainSock == 1 && s.core.comm == [h]
    requires s.core.table[1].state.CNone? && s.core.table[h].state.CNeedClose?
    ensures AliveAt(cfg, 1, s.(core := CloseServerConnection(s.core, h), pc := Selecting), Selecting)
  {
    if 1 < h {
      assert [1] + [h] + [] == [1, h];
      LoopCloses(cfg, 1, s, [1], h, []);
    } else {
      assert [] + [h] + [1] == [h, 1];
      LoopCloses(cfg, 1, s, [], h, [1]);
    }
  }

  /** The server as written, with any processor that answers some request, has a run that ends because a
      write runnable does not find its descriptor in `OnFinished`. */
  lemma OnFinishedCanThrow(cfg: Config, bytes: string, env: Env)
    requires !cfg.guarded && |bytes| <= READ_BUFFER_SIZE && AlwaysCloses(cfg.app)
    requires env.Valid() && cfg.app.process(cfg.app.parse(bytes), env).Some?
    ensures exists s :: Reachable(cfg, 1, s)
                     && s.crash == Some(BadDescriptor(WriteJob(SecondHandler(cfg.space))))
  {
    HandlersDiffer(cfg.space);
    SceneStranded(cfg, bytes, env);
    var s, h := Answering(cfg, bytes, env), SecondHandler(cfg.space);
    var s1 := s.(core := CloseServerConnection(s.core, h), pc := Selecting);
    Reach(cfg, 1, s1, Unlock(0));
    assert Step(cfg, s1, Unlock(0)).crash == Some(BadDescriptor(WriteJob(h)));
  }
}
