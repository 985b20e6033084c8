/** What an iteration of the main thread, and a turn of a worker, come to when nothing interferes: as
    functions, which the methods of module Server carry out, and as runs of the steps of ServerSteps. */
module ServerLoops {
  import opened Common
  import opened HttpMessages
  import opened HandlerAllocator
  import opened ServerState
  import opened ServerSteps
  import opened ServerRuns

  // ----- the loops of the main thread -----

  /** The connections a scan in the given order finds. */
  function ToClose(cfg: Config, c: Core, order: seq<int>): seq<int> {
    if order == [] then []
    else
      var h, found := order[|order| - 1], ToClose(cfg, c, order[..|order| - 1]);
      if h in c.table && NeedsClose(cfg, c.table[h]) then found + [h] else found
  }

  function CloseAll(c: Core, hs: seq<int>): Core {
    if hs == [] then c else CloseServerConnection(CloseAll(c, hs[..|hs| - 1]), hs[|hs| - 1])
  }

  /** `EraseCompletedRunners` on the given items, with the first one that is not found, if any. */
  function EraseAll(c: Core, items: seq<Runnable>): (Core, Option<Runnable>)
    decreases |items|
  {
    if items == [] then (c, None)
    else
      match EraseRunner(c, items[0])
      case None => (c, Some(items[0]))
      case Some(c1) => EraseAll(c1, items[1..])
  }

  /** Without interference, the scan comes to what `ToClose` says. */
  lemma {:induction false} ScanningRun(cfg: Config, workers: nat, s: State, order: seq<int>, i: nat)
    requires i <= |order|
    requires AliveAt(cfg, workers, s, Scanning(order[i..], ToClose(cfg, s.core, order[..i])))
    ensures AliveAt(cfg, workers, s.(pc := Closing(ToClose(cfg, s.core, order))),
                    Closing(ToClose(cfg, s.core, order)))
    decreases |order| - i
  {
    Reach(cfg, workers, s, ScanNext);
    if i < |order| {
      assert order[..i + 1][..i] == order[..i] && order[i..][1..] == order[i + 1..];
      ScanningRun(cfg, workers, ScanNextStep(cfg, s), order, i + 1);
    } else {
      assert order[..i] == order;
    }
  }

  /** Without interference, the runnables are all handed to the pool, and then put with those in
      process. */
  lemma {:induction false} SchedulingRun(cfg: Config, workers: nat, s: State, i: nat)
    requires AliveAt(cfg, workers, s, Scheduling(i)) && i <= |s.core.runnables|
    ensures var c := Splice(s.core.(poolQueue := s.core.poolQueue + s.core.runnables[i..]));
            AliveAt(cfg, workers, s.(core := c, pc := Draining), Draining)
    decreases |s.core.runnables| - i
  {
    Reach(cfg, workers, s, PushNext);
    var rest := s.core.runnables[i..];
    if i < |s.core.runnables| {
      var q := s.core.poolQueue;
      assert (q + [s.core.runnables[i]]) + s.core.runnables[i + 1..] == q + rest;
      SchedulingRun(cfg, workers, PushNextStep(s), i + 1);
    } else {
      assert s.core.poolQueue + rest == s.core.poolQueue;
    }
  }

  lemma {:induction false} CloseAllFront(c: Core, h: int, hs: seq<int>)
    ensures CloseAll(CloseServerConnection(c, h), hs) == CloseAll(c, [h] + hs)
  {
    var all := [h] + hs;
    if hs != [] {
      CloseAllFront(c, h, hs[..|hs| - 1]);
      assert all[..|all| - 1] == [h] + hs[..|hs| - 1];
    } else {
      assert all[..0] == [];
    }
  }

  /** Without interference, closing step by step comes to what `CloseAll` says. */
  lemma {:induction false} ClosingRun(cfg: Config, workers: nat, s: State, hs: seq<int>)
    requires AliveAt(cfg, workers, s, Closing(hs))
    ensures AliveAt(cfg, workers, s.(core := CloseAll(s.core, hs), pc := Selecting), Selecting)
    decreases |hs|
  {
    Reach(cfg, workers, s, CloseNext);
    if hs != [] {
      assert hs == [hs[0]] + hs[1..];
      CloseAllFront(s.core, hs[0], hs[1..]);
      ClosingRun(cfg, workers, CloseNextStep(s), hs[1..]);
    }
  }

  /** Without interference, erasing step by step comes to what `EraseAll` says: back to the loop head, or
      to the exception. */
  lemma {:induction false} ErasingRun(cfg: Config, workers: nat, s: State, items: seq<Runnable>)
    requires AliveAt(cfg, workers, s, Erasing(items))
    ensures var (c, missing) := EraseAll(s.core, items);
            if missing.None? then AliveAt(cfg, workers, s.(core := c, pc := LoopHead), LoopHead)
            else exists s' :: Reachable(cfg, workers, s') && s'.crash == Some(RunnerNotFound(missing.value))
    decreases |items|
  {
    Reach(cfg, workers, s, EraseNext);
    if items != [] && EraseRunner(s.core, items[0]).Some? {
      ErasingRun(cfg, workers, EraseNextStep(s), items[1..]);
    }
  }

  // ----- what is closed and erased -----

  /** The scan finds exactly the connections it comes to that are in `CNeedClose` (and, with the guard, not
      locked). */
  lemma {:induction false} FoundExactly(cfg: Config, c: Core, order: seq<int>, h: int)
    ensures h in ToClose(cfg, c, order)
       <==> && h in order && h in c.table && c.table[h].state.CNeedClose?
            && (cfg.guarded ==> !c.table[h].accessLock)
  {
    if order != [] {
      FoundExactly(cfg, c, order[..|order| - 1], h);
      assert order == order[..|order| - 1] + [order[|order| - 1]];
    }
  }

  lemma {:induction false} ClosedExactly(c: Core, hs: seq<int>, h: int)
    ensures var c' := CloseAll(c, hs);
            && (h in c'.table <==> h in c.table && h !in hs)
            && (h in c'.table ==> c'.table[h] == c.table[h])
  {
    if hs != [] {
      ClosedExactly(c, hs[..|hs| - 1], h);
      assert hs == hs[..|hs| - 1] + [hs[|hs| - 1]];
    }
  }

  /** Erasing removes each of the items once; it fails if and only if one of them is not there as often. */
  lemma {:induction false} ErasedExactly(c: Core, items: seq<Runnable>)
    ensures var (c', missing) := EraseAll(c, items);
            && c' == c.(inProcess := c'.inProcess)
            && (missing.None? <==> multiset(items) <= multiset(c.inProcess))
            && (missing.None? ==> multiset(c'.inProcess) == multiset(c.inProcess) - multiset(items))
    decreases |items|
  {
    if items != [] {
      assert items == [items[0]] + items[1..];
      if items[0] in c.inProcess {
        var c1 := c.(inProcess := RemoveFirst(c.inProcess, items[0]));
        ErasedExactly(c1, items[1..]);
        OneLess(items, c.inProcess, c1.inProcess);
      } else {
        assert multiset(items)[items[0]] > 0 && multiset(c.inProcess)[items[0]] == 0;
      }
    }
  }

  lemma OneLess(items: seq<Runnable>, before: seq<Runnable>, after: seq<Runnable>)
    requires items != [] && items[0] in before && multiset(after) == multiset(before) - multiset{items[0]}
    ensures multiset(items) <= multiset(before) <==> multiset(items[1..]) <= multiset(after)
    ensures multiset(before) - multiset(items) == multiset(after) - multiset(items[1..])
  {
    var x := items[0];
    assert items == [x] + items[1..];
    assert multiset(items) == multiset{x} + multiset(items[1..]);
    assert multiset(before)[x] > 0;
    if multiset(items[1..]) <= multiset(after) {
      forall y ensures multiset(items)[y] <= multiset(before)[y] {
        assert multiset(items[1..])[y] <= multiset(after)[y];
      }
    }
    if multiset(items) <= multiset(before) {
      forall y ensures multiset(items[1..])[y] <= multiset(after)[y] {
        assert multiset(items)[y] <= multiset(before)[y];
      }
    }
  }

  // ----- events -----

  /** `OnRead` and `OnWrite`. */
  function Attend(c: Core, h: int): Core {
    if h in c.table && !c.table[h].accessLock then ScheduleFor(c, h) else c
  }

  /** What is done about a handler ready for reading. */
  function ServeRead(space: Space, c: Core, h: int): (Core, Option<Crash>) {
    if h != c.mainSock then (Attend(c, h), None)
    else if h !in c.table then (c, Some(InvalidHandler))
    else
      var (accepted, c1) := AcceptConnection(space, c);
      if accepted.None? then (c1, Some(HandlersExhausted))
      else (SetState(c1, accepted.value, CNeedRequest), None)
  }

  function ServeReads(space: Space, c: Core, hs: seq<int>): (Core, Option<Crash>)
    decreases |hs|
  {
    if hs == [] then (c, None)
    else
      var (c1, crash) := ServeRead(space, c, hs[0]);
      if crash.Some? then (c1, crash) else ServeReads(space, c1, hs[1..])
  }

  function ServeWrites(c: Core, hs: seq<int>): Core
    decreases |hs|
  {
    if hs == [] then c
    else ServeWrites(if hs[0] == c.mainSock then c else Attend(c, hs[0]), hs[1..])
  }

  /** A run ends with the given crash. */
  ghost predicate EndsWith(cfg: Config, workers: nat, why: Crash) {
    exists s :: Reachable(cfg, workers, s) && s.crash == Some(why)
  }

  lemma AttendRun(cfg: Config, workers: nat, s: State, next: MainPc)
    requires AliveAt(cfg, workers, s, s.pc) && s.pc.Events? && next.Events?
    requires s.pc.readable != [] || s.pc.writable != []
    requires var h := if s.pc.readable != [] then s.pc.readable[0] else s.pc.writable[0];
             h != s.core.mainSock && NextEventStep(cfg, s) == TestLockStep(s, h, next)
    ensures var h := if s.pc.readable != [] then s.pc.readable[0] else s.pc.writable[0];
            AliveAt(cfg, workers, s.(core := Attend(s.core, h), pc := next), next)
  {
    var s1 := NextEventStep(cfg, s);
    Reach(cfg, workers, s, NextEvent);
    if s1.pc.Committing? {
      Reach(cfg, workers, s1, Commit);
    }
  }

  lemma AcceptRun(cfg: Config, workers: nat, s: State, hs: seq<int>, writable: seq<int>)
    requires AliveAt(cfg, workers, s, Events(hs, writable)) && hs != [] && hs[0] == s.core.mainSock
    ensures var (c, crash) := ServeRead(cfg.space, s.core, hs[0]);
            if crash.None? then
              AliveAt(cfg, workers, s.(core := c, pc := Events(hs[1..], writable)), Events(hs[1..], writable))
            else EndsWith(cfg, workers, crash.value)
  {
    Reach(cfg, workers, s, NextEvent);
    var s1 := NextEventStep(cfg, s);
    if s1.crash.None? {
      Reach(cfg, workers, s1, FinishConnect);
    }
  }

  /** Without interference, the handlers ready for reading are served as `ServeReads` says. */
  lemma {:induction false} ReadsRun(cfg: Config, workers: nat, s: State, hs: seq<int>, writable: seq<int>)
    requires AliveAt(cfg, workers, s, Events(hs, writable))
    ensures var (c, crash) := ServeReads(cfg.space, s.core, hs);
            if crash.None? then
              AliveAt(cfg, workers, s.(core := c, pc := Events([], writable)), Events([], writable))
            else EndsWith(cfg, workers, crash.value)
    decreases |hs|
  {
    if hs != [] {
      var (c1, crash) := ServeRead(cfg.space, s.core, hs[0]);
      if hs[0] == s.core.mainSock {
        AcceptRun(cfg, workers, s, hs, writable);
      } else {
        AttendRun(cfg, workers, s, Events(hs[1..], writable));
      }
      if crash.None? {
        ReadsRun(cfg, workers, s.(core := c1, pc := Events(hs[1..], writable)), hs[1..], writable);
      }
    }
  }

  /** And those ready for writing as `ServeWrites` says. */
  lemma {:induction false} WritesRun(cfg: Config, workers: nat, s: State, hs: seq<int>)
    requires AliveAt(cfg, workers, s, Events([], hs))
    ensures AliveAt(cfg, workers, s.(core := ServeWrites(s.core, hs), pc := Scheduling(0)), Scheduling(0))
    decreases |hs|
  {
    if hs == [] {
      Reach(cfg, workers, s, NextEvent);
    } else {
      if hs[0] == s.core.mainSock {
        Reach(cfg, workers, s, NextEvent);
      } else {
        AttendRun(cfg, workers, s, Events([], hs[1..]));
      }
      var c1 := if hs[0] == s.core.mainSock then s.core else Attend(s.core, hs[0]);
      WritesRun(cfg, workers, s.(core := c1, pc := Events([], hs[1..])), hs[1..]);
    }
  }

  // ----- which connections are served -----

  /** The runnables for a connection, in order. */
  function RunnablesFor(rs: seq<Runnable>, h: int): seq<Runnable> {
    if rs == [] then []
    else
      var last := rs[|rs| - 1];
      RunnablesFor(rs[..|rs| - 1], h) + if last.connection == h then [last] else []
  }

  /** What a connection that is ready and not locked is given, by its state. */
  function KindDue(d: Descriptor): Option<RunnableType> {
    if d.accessLock then None
    else
      match d.state
      case CNone => None
      case CNeedRequest => Some(EReadRequest)
      case CNeedResponse => Some(EWriteResponse)
      case CDataSending => Some(ESendData)
      case CNeedClose => None
  }

  /** From `c` to `c'`, the connection `h` was locked and given the one runnable due to it, if it was ready
      and one was due; and otherwise nothing was done about it. */
  ghost predicate HandledAs(c: Core, c': Core, h: int, ready: bool) {
    && c'.mainSock == c.mainSock && c.created <= c'.created
    && h in c.table && h in c'.table
    && if ready && KindDue(c.table[h]).Some? then
         && c'.table[h] == c.table[h].(accessLock := true)
         && exists id :: c.created <= id
              && RunnablesFor(c'.runnables, h)
                 == RunnablesFor(c.runnables, h) + [Runnable(id, KindDue(c.table[h]).value, h, c.table[h].serial)]
       else
         c'.table[h] == c.table[h] && RunnablesFor(c'.runnables, h) == RunnablesFor(c.runnables, h)
  }

  lemma HandledFurther(c: Core, c1: Core, c2: Core, h: int, first: bool, second: bool)
    requires HandledAs(c, c1, h, first) && HandledAs(c1, c2, h, second)
    ensures HandledAs(c, c2, h, first || second)
  {
  }

  lemma AttendHandles(c: Core, k: int, h: int)
    requires h in c.table
    ensures HandledAs(c, Attend(c, k), h, k == h)
  {
    var c' := Attend(c, k);
    if c'.runnables != c.runnables {
      assert c'.runnables[..|c'.runnables| - 1] == c.runnables;
      assert RunnablesFor(c.runnables, h) + [] == RunnablesFor(c.runnables, h);
      if k == h {
        var r := c'.runnables[|c'.runnables| - 1];
        assert r == Runnable(c.created, KindDue(c.table[h]).value, h, c.table[h].serial);
      }
    }
  }

  lemma AcceptHandlesNone(space: Space, c: Core, h: int)
    requires h in c.table && c.mainSock in c.table && ServeRead(space, c, c.mainSock).1.None?
    ensures HandledAs(c, ServeRead(space, c, c.mainSock).0, h, false)
  {
  }

  lemma {:induction false} ReadsHandled(space: Space, c: Core, hs: seq<int>, h: int)
    requires h in c.table && h != c.mainSock && ServeReads(space, c, hs).1.None?
    ensures HandledAs(c, ServeReads(space, c, hs).0, h, h in hs)
    decreases |hs|
  {
    if hs != [] {
      var c1 := ServeRead(space, c, hs[0]).0;
      if hs[0] == c.mainSock {
        AcceptHandlesNone(space, c, h);
      } else {
        AttendHandles(c, hs[0], h);
      }
      ReadsHandled(space, c1, hs[1..], h);
      HandledFurther(c, c1, ServeReads(space, c1, hs[1..]).0, h, hs[0] == h, h in hs[1..]);
    }
  }

  lemma {:induction false} WritesHandled(c: Core, hs: seq<int>, h: int)
    requires h in c.table && h != c.mainSock
    ensures HandledAs(c, ServeWrites(c, hs), h, h in hs)
    decreases |hs|
  {
    if hs != [] {
      var c1 := if hs[0] == c.mainSock then c else Attend(c, hs[0]);
      AttendHandles(c, hs[0], h);
      WritesHandled(c1, hs[1..], h);
      HandledFurther(c, c1, ServeWrites(c1, hs[1..]), h, hs[0] == h, h in hs[1..]);
    }
  }

  /** Every connection is served if it was ready for reading or for writing, and no other is. */
  lemma EventsHandled(space: Space, c: Core, readable: seq<int>, writable: seq<int>, h: int)
    requires h in c.table && h != c.mainSock && ServeReads(space, c, readable).1.None?
    ensures HandledAs(c, ServeWrites(ServeReads(space, c, readable).0, writable), h, h in readable || h in writable)
  {
    var c1 := ServeReads(space, c, readable).0;
    ReadsHandled(space, c, readable, h);
    WritesHandled(c1, writable, h);
    HandledFurther(c, c1, ServeWrites(c1, writable), h, h in readable, h in writable);
  }

  // ----- an iteration -----

  /** The scheduling and the erasing that end an iteration. */
  function FinishIteration(c: Core): (Core, Option<Crash>) {
    var c1 := Splice(c.(poolQueue := c.poolQueue + c.runnables));
    var (c2, missing) := EraseAll(TakeDone(c1), c1.doneQueue);
    (c2, if missing.None? then None else Some(RunnerNotFound(missing.value)))
  }

  /** One iteration of the loop of `Server::Start`, given what the scan and `select` yield. */
  ghost function Iteration(cfg: Config, c: Core, order: seq<int>, readable: seq<int>, writable: seq<int>)
    : (Core, Option<Crash>)
  {
    var c1 := CloseAll(c, ToClose(cfg, c, order));
    if !AllKnown(c1) then (c1, Some(InvalidHandler))
    else
      var (c2, crash) := ServeReads(cfg.space, c1, readable);
      if crash.Some? then (c2, crash) else FinishIteration(ServeWrites(c2, writable))
  }

  lemma ClosingPartRun(cfg: Config, workers: nat, s: State, order: seq<int>)
    requires AliveAt(cfg, workers, s, LoopHead) && Enabled(s, BeginScan(order))
    ensures var c := CloseAll(s.core, ToClose(cfg, s.core, order));
            AliveAt(cfg, workers, s.(core := c, pc := Selecting), Selecting)
  {
    Reach(cfg, workers, s, BeginScan(order));
    var s1 := s.(pc := Scanning(order, []));
    assert order[0..] == order && order[..0] == [];
    ScanningRun(cfg, workers, s1, order, 0);
    var hs := ToClose(cfg, s.core, order);
    ClosingRun(cfg, workers, s.(pc := Closing(hs)), hs);
  }

  lemma FinishingPartRun(cfg: Config, workers: nat, s: State)
    requires AliveAt(cfg, workers, s, Scheduling(0))
    ensures var (c, crash) := FinishIteration(s.core);
            if crash.None? then AliveAt(cfg, workers, s.(core := c, pc := LoopHead), LoopHead)
            else EndsWith(cfg, workers, crash.value)
  {
    assert s.core.runnables[0..] == s.core.runnables;
    SchedulingRun(cfg, workers, s, 0);
    var c1 := Splice(s.core.(poolQueue := s.core.poolQueue + s.core.runnables));
    var s1 := s.(core := c1, pc := Draining);
    Reach(cfg, workers, s1, DrainDone);
    ErasingRun(cfg, workers, DrainStep(s1), c1.doneQueue);
  }

  lemma EventsPartRun(cfg: Config, workers: nat, s: State, readable: seq<int>, writable: seq<int>)
    requires AliveAt(cfg, workers, s, Selecting) && Enabled(s, Select(readable, writable)) && AllKnown(s.core)
    ensures var (c, crash) := ServeReads(cfg.space, s.core, readable);
            if crash.None? then
              AliveAt(cfg, workers, s.(core := ServeWrites(c, writable), pc := Scheduling(0)), Scheduling(0))
            else EndsWith(cfg, workers, crash.value)
  {
    Reach(cfg, workers, s, Select(readable, writable));
    var s1 := s.(pc := Events(readable, writable));
    ReadsRun(cfg, workers, s1, readable, writable);
    var (c, crash) := ServeReads(cfg.space, s.core, readable);
    if crash.None? {
      WritesRun(cfg, workers, s.(core := c, pc := Events([], writable)), writable);
    }
  }

  /** An iteration that no worker interferes with is a run of the steps of the main thread, back to the
      loop head or to the same end. */
  lemma IterationIsRun(cfg: Config, workers: nat, s: State, order: seq<int>, readable: seq<int>,
                       writable: seq<int>)
    requires AliveAt(cfg, workers, s, LoopHead) && Enabled(s, BeginScan(order))
    requires var c := CloseAll(s.core, ToClose(cfg, s.core, order)); Polled(c, readable) && Polled(c, writable)
    ensures var (c, crash) := Iteration(cfg, s.core, order, readable, writable);
            if crash.None? then AliveAt(cfg, workers, s.(core := c, pc := LoopHead), LoopHead)
            else EndsWith(cfg, workers, crash.value)
  {
    ClosingPartRun(cfg, workers, s, order);
    var c1 := CloseAll(s.core, ToClose(cfg, s.core, order));
    var s1 := s.(core := c1, pc := Selecting);
    if AllKnown(c1) {
      EventsPartRun(cfg, workers, s1, readable, writable);
      var (c2, crash) := ServeReads(cfg.space, c1, readable);
      if crash.None? {
        FinishingPartRun(cfg, workers, s.(core := ServeWrites(c2, writable), pc := Scheduling(0)));
      }
    } else {
      Reach(cfg, workers, s1, Select(readable, writable));
    }
  }

  // ----- the turn of a worker -----

  /** `HttpServerReadRequestRunnable::run` on the bytes received. */
  function ReadRun(app: App, c: Core, r: Runnable, bytes: string): (Core, Option<Crash>) {
    var h := r.connection;
    if h !in c.table then (c, Some(BadDescriptor(r)))
    else (SetState(StoreRequest(Receive(c, h, bytes), h, app.parse(bytes)), h, CNeedResponse), None)
  }

  /** `HttpServerWriteResponseRunnable::run`. */
  function WriteRun(app: App, c: Core, r: Runnable, env: Env): (Core, Option<Crash>) {
    var h := r.connection;
    if h !in c.table then (c, Some(BadDescriptor(r)))
    else if c.table[h].request.None? then (c, Some(EmptyRequest(r)))
    else
      var request := c.table[h].request.value;
      var response := app.process(request, env);
      if response.None? then (c, Some(NoResponse(r, request, env)))
      else
        var state := if response.value.closeAfterSending then CNeedClose else CDataSending;
        (SetState(Send(Consult(c, h, env), h, app.generate(response.value)), h, state), None)
  }

  function RunOf(app: App, c: Core, r: Runnable, bytes: string, env: Env): (Core, Option<Crash>)
    requires r.kind != ENone
  {
    match r.kind
    case EReadRequest => ReadRun(app, c, r, bytes)
    case EWriteResponse => WriteRun(app, c, r, env)
    case ESendData => (c, Some(SendDataRun(r)))
  }

  /** `MarkRunnerStatusToDone`. */
  function DoneCallback(c: Core, r: Runnable): (Core, Option<Crash>) {
    if r.connection !in c.table then (c, Some(BadDescriptor(r)))
    else (PushDone(SetLock(c, r.connection, false), r), None)
  }

  /** One turn of `ThreadWorkerFunction` with a task to pop: run it and call back. */
  function Turn(app: App, c: Core, bytes: string, env: Env): (Core, Option<Crash>)
    requires c.poolQueue != [] && c.poolQueue[0].kind != ENone
  {
    var r := c.poolQueue[0];
    var (c1, crash) := RunOf(app, PopTask(c), r, bytes, env);
    if crash.Some? then (c1, crash) else DoneCallback(c1, r)
  }

  /** A run of the system passes through a state like `s` but for the shared state, in which worker `w`
      is as given. */
  ghost predicate PassesBy(cfg: Config, workers: nat, s: State, w: nat, c: Core, k: Worker)
    requires w < |s.workers|
  {
    Reachable(cfg, workers, s.(core := c, workers := s.workers[w := k]))
  }

  /** It goes on in the same way after a step of worker `w` on its runnable. */
  lemma PassesOn(cfg: Config, workers: nat, s: State, w: nat, c: Core, r: Runnable, phase: Phase, a: Action,
                 c': Core, k: Worker)
    requires w < |s.workers| && s.crash.None? && PassesBy(cfg, workers, s, w, c, Busy(r, phase))
    requires var s1 := s.(core := c, workers := s.workers[w := Busy(r, phase)]);
             && Enabled(s1, a)
             && Step(cfg, s1, a) == s1.(core := c', workers := s1.workers[w := k])
    ensures PassesBy(cfg, workers, s, w, c', k)
  {
    var s1 := s.(core := c, workers := s.workers[w := Busy(r, phase)]);
    Reach(cfg, workers, s1, a);
    assert s1.workers[w := k] == s.workers[w := k];
  }

  lemma ReadPasses(cfg: Config, workers: nat, s: State, w: nat, c: Core, r: Runnable, bytes: string)
    requires w < |s.workers| && s.crash.None? && PassesBy(cfg, workers, s, w, c, Busy(r, Started))
    requires r.kind.EReadRequest? && r.connection in c.table && |bytes| <= READ_BUFFER_SIZE
    ensures PassesBy(cfg, workers, s, w, ReadRun(cfg.app, c, r, bytes).0, Busy(r, Finishing))
  {
    var h, request := r.connection, cfg.app.parse(bytes);
    var c1 := Receive(c, h, bytes);
    PassesOn(cfg, workers, s, w, c, r, Started, ReceiveAndParse(w, bytes), c1, Busy(r, Parsed(request)));
    var c2 := StoreRequest(c1, h, request);
    PassesOn(cfg, workers, s, w, c1, r, Parsed(request), KeepRequest(w), c2, Busy(r, RequestStored));
    PassesOn(cfg, workers, s, w, c2, r, RequestStored, MarkRead(w), SetState(c2, h, CNeedResponse),
             Busy(r, Finishing));
  }

  lemma WritePasses(cfg: Config, workers: nat, s: State, w: nat, c: Core, r: Runnable, env: Env)
    requires w < |s.workers| && s.crash.None? && PassesBy(cfg, workers, s, w, c, Busy(r, Started))
    requires r.kind.EWriteResponse? && env.Valid() && WriteRun(cfg.app, c, r, env).1.None?
    ensures PassesBy(cfg, workers, s, w, WriteRun(cfg.app, c, r, env).0, Busy(r, Finishing))
  {
    var h := r.connection;
    var response := cfg.app.process(c.table[h].request.value, env).value;
    var c1 := Consult(c, h, env);
    PassesOn(cfg, workers, s, w, c, r, Started, ServerSteps.Process(w, env), c1, Busy(r, Responding(response)));
    var c2 := Send(c1, h, cfg.app.generate(response));
    PassesOn(cfg, workers, s, w, c1, r, Responding(response), SendResponse(w), c2, Busy(r, Sent(response)));
    var state := if response.closeAfterSending then CNeedClose else CDataSending;
    PassesOn(cfg, workers, s, w, c2, r, Sent(response), MarkSent(w), SetState(c2, h, state), Busy(r, Finishing));
  }

  lemma RunPasses(cfg: Config, workers: nat, s: State, w: nat, c: Core, r: Runnable, bytes: string, env: Env)
    requires w < |s.workers| && s.crash.None? && PassesBy(cfg, workers, s, w, c, Busy(r, Started))
    requires r.kind != ENone && |bytes| <= READ_BUFFER_SIZE && env.Valid()
    ensures var (c', crash) := RunOf(cfg.app, c, r, bytes, env);
            if crash.None? then PassesBy(cfg, workers, s, w, c', Busy(r, Finishing))
            else exists s' :: Reachable(cfg, workers, s') && s'.core == c' && s'.crash == crash
  {
    var s1 := s.(core := c, workers := s.workers[w := Busy(r, Started)]);
    match r.kind
    case EReadRequest =>
      Reach(cfg, workers, s1, ReceiveAndParse(w, bytes));
      if r.connection in c.table {
        ReadPasses(cfg, workers, s, w, c, r, bytes);
      }
    case EWriteResponse =>
      Reach(cfg, workers, s1, ServerSteps.Process(w, env));
      if WriteRun(cfg.app, c, r, env).1.None? {
        WritePasses(cfg, workers, s, w, c, r, env);
      }
    case ESendData => Reach(cfg, workers, s1, RunSendData(w));
  }

  lemma CallbackPasses(cfg: Config, workers: nat, s: State, w: nat, c: Core, r: Runnable)
    requires w < |s.workers| && s.crash.None? && PassesBy(cfg, workers, s, w, c, Busy(r, Finishing))
    ensures var (c', crash) := DoneCallback(c, r);
            if crash.None? then PassesBy(cfg, workers, s, w, c', Idle)
            else exists s' :: Reachable(cfg, workers, s') && s'.core == c' && s'.crash == crash
  {
    var h := r.connection;
    if h in c.table {
      var c1 := SetLock(c, h, false);
      PassesOn(cfg, workers, s, w, c, r, Finishing, Unlock(w), c1, Busy(r, Unlocked));
      PassesOn(cfg, workers, s, w, c1, r, Unlocked, Finish(w), PushDone(c1, r), Idle);
    } else {
      Reach(cfg, workers, s.(core := c, workers := s.workers[w := Busy(r, Finishing)]), Unlock(w));
    }
  }

  /** A turn that nothing interrupts is a run of the steps of its worker, to the end of the turn or to the
      same exception. */
  lemma TurnIsRun(cfg: Config, workers: nat, s: State, w: nat, bytes: string, env: Env)
    requires Reachable(cfg, workers, s) && s.crash.None? && w < |s.workers| && s.workers[w].Idle?
    requires s.core.poolQueue != [] && s.core.poolQueue[0].kind != ENone
    requires |bytes| <= READ_BUFFER_SIZE && env.Valid()
    ensures var (c, crash) := Turn(cfg.app, s.core, bytes, env);
            exists s' :: Reachable(cfg, workers, s') && s'.core == c && s'.crash == crash
                      && (crash.None? ==> s' == s.(core := c))
  {
    var r := s.core.poolQueue[0];
    Reach(cfg, workers, s, Pop(w));
    RunPasses(cfg, workers, s, w, PopTask(s.core), r, bytes, env);
    var (c1, crash) := RunOf(cfg.app, PopTask(s.core), r, bytes, env);
    if crash.None? {
      CallbackPasses(cfg, workers, s, w, c1, r);
      assert s.workers[w := Idle] == s.workers;
    }
  }
}
