/** The server with its fields, changed in place: each method does to them what the operation of module
    ServerState (or a loop of those) does to the shared state.  `View` is that state. */
module Server {
  import opened Common
  import opened HttpMessages
  import opened HandlerAllocator
  import opened ConnectionTable
  import opened ServerState
  import opened ServerSteps
  import opened ServerLoops

  /** The mutex-protected queue; each method is one critical section. */
  class QueueSafe<T> {
    var queue: seq<T>

    constructor ()
      ensures queue == []
    {
      queue := [];
    }

    method Push(item: T)
      modifies this
      ensures queue == old(queue) + [item]
    {
      queue := queue + [item];
    }

    method TryPop() returns (item: Option<T>)
      modifies this
      ensures if old(queue) == [] then item == None && queue == []
              else item == Some(old(queue)[0]) && queue == old(queue)[1..]
    {
      if |queue| > 0 {
        item := Some(queue[0]);
        queue := queue[1..];
      } else {
        item := None;
      }
    }

    method PopAll() returns (items: seq<T>)
      modifies this
      ensures items == old(queue) && queue == []
    {
      items := queue;
      queue := [];
    }
  }

  // ----- the server -----

  class HttpServer {
    const table: Table
    const poolQueue: QueueSafe<Runnable>
    const doneQueue: QueueSafe<Runnable>
    var mainSock: int
    var comm: seq<int>
    var runnables: seq<Runnable>
    var inProcess: seq<Runnable>
    var created: nat
    ghost var history: seq<Grant>

    ghost predicate Valid()
      reads this, table
    {
      table.Valid() && |history| == table.grants && poolQueue != doneQueue
    }

    /** The shared state. */
    ghost function View(): Core
      reads this, table, poolQueue, doneQueue
    {
      Core(table.descriptors, table.ticks, mainSock, comm, runnables, inProcess, poolQueue.queue,
           doneQueue.queue, created, history)
    }

    /** `Start`, up to the loop. */
    constructor (space: Space)
      ensures Valid() && table.space == space
      ensures View() == Initial(space, 0).core
    {
      table := new Table(space);
      poolQueue := new QueueSafe();
      doneQueue := new QueueSafe();
      mainSock, comm, runnables, inProcess, created := CONNECTION_HANDLER_INVALID, [], [], [], 0;
      history := [];
      new;
      assert table.descriptors.Keys == {};
      mainSock := table.GenerateConnectionHandler();
      if mainSock != CONNECTION_HANDLER_INVALID {
        history := [Grant(mainSock, table.ticks, [], [], [], [], false)];
      }
    }

    method AcceptNewConnection() returns (r: Result<int, Crash>)
      requires Valid()
      modifies this, table
      ensures Valid()
      ensures mainSock !in old(table.descriptors) ==> r == Err(InvalidHandler) && View() == old(View())
      ensures mainSock in old(table.descriptors) ==>
                var (h, c) := AcceptConnection(table.space, old(View()));
                View() == c && r == if h.Some? then Ok(h.value) else Err(HandlersExhausted)
    {
      var descr := table.GetConnectionDescriptor(mainSock);
      if descr.None? {
        return Err(InvalidHandler);
      }
      var h := table.GenerateConnectionHandler();
      if h == CONNECTION_HANDLER_INVALID {
        return Err(HandlersExhausted);
      }
      history := history + [Grant(h, table.ticks, [], [], [], [], false)];
      comm := comm + [h];
      return Ok(h);
    }

    method CloseConnection(h: int)
      requires Valid()
      modifies this, table
      ensures Valid() && View() == CloseServerConnection(old(View()), h)
    {
      comm := RemoveFirst(comm, h);
      var descr := table.GetConnectionDescriptor(h);
      if descr.Some? {
        var i := descr.value.serial;
        history := PutGrant(history, i, GrantAt(history, i).(closed := true));
        table.ReleaseConnectionHandler(h);
      }
    }

    /** The test for connections to close: first collect, then close. */
    method CloseFinished(cfg: Config, order: seq<int>)
      requires Valid()
      modifies this, table
      ensures Valid() && View() == CloseAll(old(View()), ToClose(cfg, old(View()), order))
      ensures forall h :: h in table.descriptors <==>
                && h in old(table.descriptors)
                && !(h in order && old(table.descriptors)[h].state.CNeedClose?
                     && (cfg.guarded ==> !old(table.descriptors)[h].accessLock))
      ensures forall h :: h in table.descriptors ==> table.descriptors[h] == old(table.descriptors)[h]
    {
      var toClose: seq<int> := [];
      for i := 0 to |order|
        invariant Valid() && View() == old(View())
        invariant toClose == ToClose(cfg, old(View()), order[..i])
      {
        assert order[..i + 1][..i] == order[..i];
        var h := order[i];
        if h in table.descriptors && NeedsClose(cfg, table.descriptors[h]) {
          toClose := toClose + [h];
        }
      }
      assert order[..|order|] == order;
      for i := 0 to |toClose|
        invariant Valid() && View() == CloseAll(old(View()), toClose[..i])
      {
        assert toClose[..i + 1][..i] == toClose[..i];
        CloseConnection(toClose[i]);
      }
      assert toClose[..|toClose|] == toClose;
      forall h
        ensures h in table.descriptors <==> h in old(table.descriptors) && h !in toClose
        ensures h in table.descriptors ==> table.descriptors[h] == old(table.descriptors)[h]
        ensures h in toClose
           <==> && h in order && h in old(table.descriptors) && old(table.descriptors)[h].state.CNeedClose?
                && (cfg.guarded ==> !old(table.descriptors)[h].accessLock)
      {
        FoundExactly(cfg, old(View()), order, h);
        ClosedExactly(old(View()), toClose, h);
      }
    }

    method OnConnect(h: int) returns (r: Result<(), Crash>)
      requires Valid()
      modifies table`descriptors
      ensures Valid()
      ensures h !in old(table.descriptors) ==> r == Err(InvalidHandler) && View() == old(View())
      ensures h in old(table.descriptors) ==> r == Ok(()) && View() == SetState(old(View()), h, CNeedRequest)
      ensures h in old(table.descriptors) ==>
                table.descriptors == old(table.descriptors)[h := old(table.descriptors)[h].(state := CNeedRequest)]
    {
      var descr := table.GetConnectionDescriptor(h);
      if descr.None? {
        return Err(InvalidHandler);
      }
      table.Write(h, descr.value.(state := CNeedRequest));
      return Ok(());
    }

    method OnRead(h: int)
      requires Valid()
      modifies this, table`descriptors
      ensures Valid()
      ensures View() == Attend(old(View()), h)
    {
      var descr := table.GetConnectionDescriptor(h);
      if descr.Some? {
        if !descr.value.accessLock {
          var kind := TypeFor(descr.value.state);
          if kind != ENone {
            Schedule(h, kind);
          }
        }
      }
    }

    method OnWrite(h: int)
      requires Valid()
      modifies this, table`descriptors
      ensures Valid()
      ensures View() == Attend(old(View()), h)
    {
      var descr := table.GetConnectionDescriptor(h);
      if descr.Some? {
        if !descr.value.accessLock {
          var kind := TypeFor(descr.value.state);
          if kind != ENone {
            Schedule(h, kind);
          }
        }
      }
    }

    /** `ScheduleRunnable`: create the runnable, lock its connection, keep it for the pool. */
    method Schedule(h: int, kind: RunnableType)
      requires Valid() && h in table.descriptors
      modifies this, table`descriptors
      ensures Valid() && View() == ScheduleRunnable(old(View()), h, kind)
    {
      var descr := table.descriptors[h];
      var r := Runnable(created, kind, h, descr.serial);
      created := created + 1;
      var g := GrantAt(history, descr.serial);
      history := PutGrant(history, descr.serial, g.(scheduled := g.scheduled + [kind]));
      table.Write(h, descr.(accessLock := true));
      runnables := runnables + [r];
    }

    /** Whatever is ready for reading, and then whatever is ready for writing. */
    method ServeEvents(readable: seq<int>, writable: seq<int>) returns (crash: Option<Crash>)
      requires Valid()
      modifies this, table
      ensures Valid()
      ensures var (c, why) := ServeReads(table.space, old(View()), readable);
              crash == why && View() == if why.None? then ServeWrites(c, writable) else c
      ensures crash.None? ==>
                forall h :: h in old(table.descriptors) && h != old(mainSock) ==>
                  HandledAs(old(View()), View(), h, h in readable || h in writable)
    {
      var toRead := readable;
      while toRead != []
        invariant Valid()
        invariant ServeReads(table.space, View(), toRead) == ServeReads(table.space, old(View()), readable)
        decreases |toRead|
      {
        if toRead[0] == mainSock {
          var accepted := AcceptNewConnection();
          if accepted.Err? {
            return Some(accepted.error);
          }
          var connected := OnConnect(accepted.value);
        } else {
          OnRead(toRead[0]);
        }
        toRead := toRead[1..];
      }
      ghost var c := View();
      var toWrite := writable;
      while toWrite != []
        invariant Valid() && ServeWrites(View(), toWrite) == ServeWrites(c, writable)
        decreases |toWrite|
      {
        if toWrite[0] != mainSock {
          OnWrite(toWrite[0]);
        }
        toWrite := toWrite[1..];
      }
      forall h | h in old(table.descriptors) && h != old(mainSock)
        ensures HandledAs(old(View()), View(), h, h in readable || h in writable)
      {
        EventsHandled(table.space, old(View()), readable, writable, h);
      }
      return None;
    }

    /** The look-up of every handler to be polled. */
    method TestPolled() returns (ok: bool)
      requires Valid()
      ensures ok <==> AllKnown(View())
    {
      var polled := comm + [mainSock];
      for i := 0 to |polled|
        invariant forall j :: 0 <= j < i ==> polled[j] in table.descriptors
      {
        var descr := table.GetConnectionDescriptor(polled[i]);
        if descr.None? {
          assert polled[i] == mainSock || polled[i] in comm;
          return false;
        }
      }
      assert polled[|comm|] == mainSock;
      forall h | h in comm ensures h in table.descriptors {
        var j :| 0 <= j < |comm| && comm[j] == h;
        assert polled[j] == h;
      }
      return true;
    }

    /** One iteration of the loop of `Start`; `order` is the order of the scan, and `readable` and `writable`
        are what `select` yields. */
    method Iterate(cfg: Config, order: seq<int>, readable: seq<int>, writable: seq<int>)
      returns (crash: Option<Crash>)
      requires Valid() && cfg.space == table.space
      modifies this, table, poolQueue, doneQueue
      ensures Valid()
      ensures (View(), crash) == Iteration(cfg, old(View()), order, readable, writable)
    {
      CloseFinished(cfg, order);
      var ok := TestPolled();
      if !ok {
        return Some(InvalidHandler);
      }
      crash := ServeEvents(readable, writable);
      if crash.None? {
        ScheduleExecution();
        MarkRunnersStatusToInProgress();
        var missing := EraseCompletedRunners();
        crash := if missing.None? then None else Some(RunnerNotFound(missing.value));
      }
    }

    /** Hand all runnables to the pool. */
    method ScheduleExecution()
      requires Valid()
      modifies poolQueue
      ensures Valid()
      ensures View() == old(View()).(poolQueue := old(View()).poolQueue + runnables)
    {
      for i := 0 to |runnables|
        invariant poolQueue.queue == old(poolQueue.queue) + runnables[..i]
        invariant Valid() && View() == old(View()).(poolQueue := poolQueue.queue)
      {
        assert runnables[..i + 1] == runnables[..i] + [runnables[i]];
        poolQueue.Push(runnables[i]);
      }
      assert runnables[..|runnables|] == runnables;
    }

    method MarkRunnersStatusToInProgress()
      requires Valid()
      modifies this
      ensures Valid() && View() == Splice(old(View()))
      ensures inProcess == old(runnables) + old(inProcess) && runnables == []
    {
      inProcess := runnables + inProcess;
      runnables := [];
    }

    method EraseCompletedRunners() returns (missing: Option<Runnable>)
      requires Valid()
      modifies this, doneQueue
      ensures Valid()
      ensures (View(), missing) == EraseAll(TakeDone(old(View())), old(doneQueue.queue))
      ensures doneQueue.queue == []
      ensures missing.None? <==> multiset(old(doneQueue.queue)) <= multiset(old(inProcess))
      ensures missing.None? ==> multiset(inProcess) == multiset(old(inProcess)) - multiset(old(doneQueue.queue))
    {
      ErasedExactly(TakeDone(View()), doneQueue.queue);
      var items := doneQueue.PopAll();
      while |items| > 0
        invariant Valid()
        invariant EraseAll(View(), items) == EraseAll(TakeDone(old(View())), old(doneQueue.queue))
        decreases |items|
      {
        var item := items[0];
        if item !in inProcess {
          return Some(item);
        }
        items := items[1..];
        inProcess := RemoveFirst(inProcess, item);
      }
      return None;
    }

    // ----- what a worker does -----

    /** `HttpServerReadRequestRunnable::run`, not interrupted. */
    method RunReadRequest(app: App, r: Runnable, bytes: string) returns (crash: Option<Crash>)
      requires Valid()
      modifies this`history, table`descriptors
      ensures Valid() && (View(), crash) == ReadRun(app, old(View()), r, bytes)
    {
      var descr := table.GetConnectionDescriptor(r.connection);
      if descr.None? {
        return Some(BadDescriptor(r));
      }
      var i := descr.value.serial;
      history := PutGrant(history, i, GrantAt(history, i).(received := GrantAt(history, i).received + [bytes]));
      var request := app.parse(bytes);
      descr := table.GetConnectionDescriptor(r.connection);
      table.Write(r.connection, descr.value.(request := Some(request)));
      table.Write(r.connection, table.descriptors[r.connection].(state := CNeedResponse));
      return None;
    }

    /** `HttpServerWriteResponseRunnable::run`, not interrupted. */
    method RunWriteResponse(app: App, r: Runnable, env: Env) returns (crash: Option<Crash>)
      requires Valid() && env.Valid()
      modifies this`history, table`descriptors
      ensures Valid() && (View(), crash) == WriteRun(app, old(View()), r, env)
    {
      var descr := table.GetConnectionDescriptor(r.connection);
      if descr.None? {
        return Some(BadDescriptor(r));
      }
      if descr.value.request.None? {
        return Some(EmptyRequest(r));
      }
      var request := descr.value.request.value;
      var response := app.process(request, env);
      if response.None? {
        return Some(NoResponse(r, request, env));
      }
      var i := descr.value.serial;
      history := PutGrant(history, i, GrantAt(history, i).(envs := GrantAt(history, i).envs + [env]));
      ghost var sent := GrantAt(history, i).sent + [app.generate(response.value)];
      history := PutGrant(history, i, GrantAt(history, i).(sent := sent));
      var state := if response.value.closeAfterSending then CNeedClose else CDataSending;
      table.Write(r.connection, descr.value.(state := state));
      return None;
    }

    /** `MarkRunnerStatusToDone`: unlock the connection, then report. */
    method MarkRunnerStatusToDone(r: Runnable) returns (crash: Option<Crash>)
      requires Valid()
      modifies table`descriptors, doneQueue
      ensures Valid() && (View(), crash) == DoneCallback(old(View()), r)
    {
      var descr := table.GetConnectionDescriptor(r.connection);
      if descr.None? {
        return Some(BadDescriptor(r));
      }
      table.Write(r.connection, descr.value.(accessLock := false));
      doneQueue.Push(r);
      return None;
    }

    /** One turn of the loop of `ThreadWorkerFunction`; without a task the worker sleeps. */
    method WorkerTurn(app: App, bytes: string, env: Env) returns (crash: Option<Crash>)
      requires Valid() && env.Valid()
      requires poolQueue.queue != [] ==> poolQueue.queue[0].kind != ENone
      modifies this`history, table`descriptors, poolQueue, doneQueue
      ensures Valid()
      ensures (View(), crash) == if old(poolQueue.queue) == [] then (old(View()), None)
                                 else Turn(app, old(View()), bytes, env)
    {
      var task := poolQueue.TryPop();
      if task.None? {
        return None;
      }
      var r := task.value;
      match r.kind {
        case EReadRequest => crash := RunReadRequest(app, r, bytes);
        case EWriteResponse => crash := RunWriteResponse(app, r, env);
        case ESendData => crash := Some(SendDataRun(r));
        case ENone => assert false;
      }
      if crash.None? {
        crash := MarkRunnerStatusToDone(r);
      }
    }
  }
}
