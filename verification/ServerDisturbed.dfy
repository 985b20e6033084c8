/** Runs of the server as written in which a handler is granted again under a runnable that has still to
    unlock it: exclusion is broken, and a connection is served twice.  And how many handlers and workers it
    takes. */
module ServerDisturbed {
  import opened Common
  import opened HttpMessages
  import opened HandlerAllocator
  import opened ServerState
  import opened ServerSteps
  import opened ServerInvariant
  import opened ServerWorkers
  import opened ServerAlways
  import opened ServerTheorems
  import opened ServerRefinement
  import opened ServerProgress
  import opened ServerRuns
  import opened ServerLoops

  // ----- a handler granted again too early -----

  lemma ReachableAgrees(cfg: Config, workers: nat, s: State)
    requires Reachable(cfg, workers, s)
    ensures PlacesInv(s) && KeysInv(s) && AllKnown(s.core)
  {
    var actions: seq<Action>, states: seq<State> :|
      IsRun(cfg, workers, actions, states) && states[|actions|] == s;
    RunAlways(cfg, workers, actions, states, |actions|);
  }

  /** The handlers granted by the advances of the counter from 3 to `t`. */
  function Round(space: Space, t: nat): set<int> {
    set i | 3 <= i <= t :: At(space, i)
  }

  /** Less than a cycle apart the counter is at different handlers. */
  lemma Elsewhere(space: Space, i: nat, j: nat)
    requires i < j < i + Size(space)
    ensures At(space, i) != At(space, j)
  {
    SameHandler(space, i, j);
    ModOf(j - i, Size(space), 0, j - i);
  }

  lemma SameAgain(space: Space, i: nat)
    ensures At(space, i + Size(space)) == At(space, i)
  {
    SameHandler(space, i, i + Size(space));
    ModOf(Size(space), Size(space), 1, 0);
  }

  lemma NotInRound(space: Space, t: nat, j: nat)
    requires if j == 2 then t < 2 + Size(space) else t < j < 3 + Size(space)
    ensures At(space, j) !in Round(space, t)
  {
    if At(space, j) in Round(space, t) {
      var i :| 3 <= i <= t && At(space, i) == At(space, j);
      if i < j {
        Elsewhere(space, i, j);
      } else {
        Elsewhere(space, j, i);
      }
    }
  }

  /** Before the counter has come round, the next handler is free. */
  lemma NextIsFree(space: Space, t: nat)
    requires 2 <= t < Size(space)
    ensures Search(space, {1} + Round(space, t), t) == 1
  {
    HandlersDiffer(space);
    Elsewhere(space, 1, t + 1);
    NotInRound(space, t, t + 1);
    assert !InUse(space, {1} + Round(space, t), t, 1);
  }

  /** When it has, the search passes the listening socket and comes to the second handler again. */
  lemma SecondIsNext(space: Space)
    requires Size(space) >= 3
    ensures var n := Size(space);
            && Search(space, {1} + Round(space, n), n) == 2 && At(space, n + 2) == SecondHandler(space)
            && SecondHandler(space) !in {1} + Round(space, n)
  {
    var n := Size(space);
    var used := {1} + Round(space, n);
    HandlersDiffer(space);
    SameAgain(space, 1);
    SameAgain(space, 2);
    NotInRound(space, n, 2);
    assert InUse(space, used, n, 1) && !InUse(space, used, n, 2);
    assert SearchFrom(space, used, n, 2) == 2;
  }

  /** The writer of the first connection has still to unlock it; since then the handlers up to the advance
      `t` of the counter have been granted to connections that have done nothing. */
  ghost predicate Filling(cfg: Config, s: State, t: nat) {
    && AliveAt(cfg, 1, s, Selecting)
    && s.workers == [Busy(WriteJob(SecondHandler(cfg.space)), Finishing)]
    && s.core.mainSock == 1 && s.core.ticks == t && t <= |s.core.history|
    && s.core.table.Keys == {1} + Round(cfg.space, t)
    && (forall h :: h in s.core.table ==> !s.core.table[h].state.CNeedClose?)
    && s.core.runnables == [] && s.core.poolQueue == [] && s.core.doneQueue == []
  }

  /** What accepting a connection on the handler `h` makes of the shared state. */
  lemma ConnectedIs(space: Space, c: Core, k: nat)
    requires k == Search(space, c.table.Keys, c.ticks) < Size(space)
    ensures AcceptConnection(space, c).0 == Some(At(space, c.ticks + k))
    ensures var c', h := Connected(space, c), At(space, c.ticks + k);
            && c'.table == c.table[h := Descriptor(CNeedRequest, false, None, |c.history|)]
            && c'.ticks == c.ticks + k && c'.mainSock == c.mainSock
            && c'.history == c.history + [Grant(h, c'.ticks, [], [], [], [], false)]
            && c'.runnables == c.runnables && c'.poolQueue == c.poolQueue && c'.doneQueue == c.doneQueue
  {
  }

  /** An iteration that closes nothing. */
  lemma Onward(cfg: Config, s: State)
    requires AliveAt(cfg, 1, s, LoopHead)
    requires forall h :: h in s.core.table ==> !s.core.table[h].state.CNeedClose?
    ensures AliveAt(cfg, 1, s.(pc := Selecting), Selecting)
  {
    var order := InOrder(s.core.table.Keys);
    forall i | 0 <= i < |order| ensures order[i] in s.core.table {
      assert order[i] in order;
    }
    LoopToSelect(cfg, 1, s, order);
  }

  lemma AcceptsOne(cfg: Config, s: State, t: nat, k: nat)
    requires Filling(cfg, s, t) && k == Search(cfg.space, s.core.table.Keys, t) < Size(cfg.space)
    ensures AliveAt(cfg, 1, s.(core := Connected(cfg.space, s.core)), Selecting)
  {
    ReachableAgrees(cfg, 1, s);
    ConnectedIs(cfg.space, s.core, k);
    SelectAccepts(cfg, 1, s);
    var s' := s.(core := Connected(cfg.space, s.core), pc := LoopHead);
    Onward(cfg, s');
    assert s'.(pc := Selecting) == s.(core := Connected(cfg.space, s.core));
  }

  lemma FillsOne(cfg: Config, s: State, t: nat)
    requires Filling(cfg, s, t) && 2 <= t < Size(cfg.space)
    ensures Filling(cfg, s.(core := Connected(cfg.space, s.core)), t + 1)
  {
    NextIsFree(cfg.space, t);
    AcceptsOne(cfg, s, t, 1);
    ConnectedIs(cfg.space, s.core, 1);
    assert Round(cfg.space, t + 1) == Round(cfg.space, t) + {At(cfg.space, t + 1)};
  }

  /** Connections are accepted until the counter has come round. */
  lemma {:induction false} FillsUp(cfg: Config, s: State, t: nat) returns (full: State)
    requires Filling(cfg, s, t) && 2 <= t <= Size(cfg.space)
    ensures Filling(cfg, full, Size(cfg.space))
    decreases Size(cfg.space) - t
  {
    if t == Size(cfg.space) {
      full := s;
    } else {
      FillsOne(cfg, s, t);
      full := FillsUp(cfg, s.(core := Connected(cfg.space, s.core)), t + 1);
    }
  }

  /** The connection `h` has been accepted, after the first, and nothing has been done for it. */
  ghost predicate IsNew(c: Core, h: int, lock: bool) {
    && h in c.table && c.table[h].serial >= 2
    && c.table[h] == Descriptor(CNeedRequest, lock, None, c.table[h].serial)
    && c.table[h].serial < |c.history| && c.history[c.table[h].serial].received == []
    && c.runnables == [] && c.doneQueue == []
    && forall k :: k in c.table ==> !c.table[k].state.CNeedClose?
  }

  /** The handler of the first connection is granted again. */
  lemma GrantsAgain(cfg: Config, s: State) returns (s': State)
    requires Size(cfg.space) >= 3 && Filling(cfg, s, Size(cfg.space))
    ensures AliveAt(cfg, 1, s', Selecting) && s'.workers == s.workers
    ensures s'.core.mainSock != SecondHandler(cfg.space)
    ensures IsNew(s'.core, SecondHandler(cfg.space), false) && s'.core.poolQueue == []
  {
    SecondIsNext(cfg.space);
    HandlersDiffer(cfg.space);
    AcceptsOne(cfg, s, Size(cfg.space), 2);
    ConnectedIs(cfg.space, s.core, 2);
    s' := s.(core := Connected(cfg.space, s.core));
  }

  /** Its new connection gets a read runnable. */
  lemma Relocks(cfg: Config, s: State, h: int) returns (s': State)
    requires AliveAt(cfg, 1, s, Selecting) && h != s.core.mainSock
    requires IsNew(s.core, h, false) && s.core.poolQueue == []
    ensures AliveAt(cfg, 1, s', LoopHead) && s'.workers == s.workers
    ensures IsNew(s'.core, h, true) && s'.core.mainSock == s.core.mainSock
    ensures s'.core.poolQueue == [Runnable(s.core.created, EReadRequest, h, s'.core.table[h].serial)]
  {
    ReachableAgrees(cfg, 1, s);
    SelectSchedules(cfg, 1, s, h);
    HandsOverReader(s.core, h);
    s' := s.(core := HandedOver(ScheduleFor(s.core, h)), pc := LoopHead);
  }

  lemma HandsOverReader(c: Core, h: int)
    requires IsNew(c, h, false) && c.poolQueue == []
    ensures var c' := HandedOver(ScheduleFor(c, h));
            && IsNew(c', h, true)
            && c'.poolQueue == [Runnable(c.created, EReadRequest, h, c'.table[h].serial)]
  {
  }

  /** When the first connection's runnable unlocks, the second connection has an active runnable and no
      lock. */
  lemma WronglyUnlocked(cfg: Config, s: State, h: int)
    requires AliveAt(cfg, 1, s, LoopHead) && s.workers == [Busy(WriteJob(h), Finishing)]
    requires IsNew(s.core, h, true)
    requires |s.core.poolQueue| == 1 && s.core.poolQueue[0].serial == s.core.table[h].serial
    ensures exists s' :: Reachable(cfg, 1, s') && s'.crash.None? && !Exclusive(s')
  {
    Reach(cfg, 1, s, Unlock(0));
    var s', q := Step(cfg, s, Unlock(0)), s.core.poolQueue[0];
    assert q in s'.core.poolQueue;
    OccursIn(s'.core.poolQueue, q);
    assert Active(s', q) > 0;
    assert h in s'.core.table && !s'.core.table[h].accessLock && s'.core.table[h].serial == q.serial;
  }

  lemma FillingBegins(cfg: Config, bytes: string, env: Env) returns (s: State)
    requires !cfg.guarded && |bytes| <= READ_BUFFER_SIZE && AlwaysCloses(cfg.app)
    requires env.Valid() && cfg.app.process(cfg.app.parse(bytes), env).Some?
    ensures Filling(cfg, s, 2)
  {
    HandlersDiffer(cfg.space);
    SceneStranded(cfg, bytes, env);
    AnsweringTable(cfg, bytes, env);
    var a, h := Answering(cfg, bytes, env), SecondHandler(cfg.space);
    s := a.(core := CloseServerConnection(a.core, h), pc := Selecting);
    assert Round(cfg.space, 2) == {};
    assert s.core.table.Keys == {1};
  }

  /** The writer of the first connection is late: its handler has a new connection, locked by a read
      runnable. */
  lemma LateWriter(cfg: Config, bytes: string, env: Env) returns (s: State)
    requires !cfg.guarded && Size(cfg.space) >= 3
    requires |bytes| <= READ_BUFFER_SIZE && AlwaysCloses(cfg.app)
    requires env.Valid() && cfg.app.process(cfg.app.parse(bytes), env).Some?
    ensures var h := SecondHandler(cfg.space);
            && AliveAt(cfg, 1, s, LoopHead) && s.workers == [Busy(WriteJob(h), Finishing)]
            && h != s.core.mainSock && IsNew(s.core, h, true) && |s.core.poolQueue| == 1 && s.core.poolQueue[0].kind.EReadRequest?
            && s.core.poolQueue[0].connection == h
            && s.core.poolQueue[0].serial == s.core.table[h].serial
  {
    s := FillingBegins(cfg, bytes, env);
    s := FillsUp(cfg, s, 2);
    s := GrantsAgain(cfg, s);
    s := Relocks(cfg, s, SecondHandler(cfg.space));
  }

  /** With three or more valid handlers the server as written has a run that breaks mutual exclusion: a
      handler is granted again under a runnable that has still to unlock it. */
  lemma RegrantBreaksExclusion(cfg: Config, bytes: string, env: Env)
    requires !cfg.guarded && Size(cfg.space) >= 3
    requires |bytes| <= READ_BUFFER_SIZE && AlwaysCloses(cfg.app)
    requires env.Valid() && cfg.app.process(cfg.app.parse(bytes), env).Some?
    ensures exists s :: Reachable(cfg, 1, s) && s.crash.None? && !Exclusive(s)
  {
    var s := LateWriter(cfg, bytes, env);
    WronglyUnlocked(cfg, s, SecondHandler(cfg.space));
  }

  // ----- a connection served twice -----

  /** The late writer unlocks the connection and ends. */
  lemma LateUnlock(cfg: Config, s: State, h: int) returns (s': State)
    requires AliveAt(cfg, 1, s, LoopHead) && s.workers == [Busy(WriteJob(h), Finishing)]
    requires IsNew(s.core, h, true) && h != s.core.mainSock
    ensures Serving(cfg, s', h, s.core.table[h].serial) && |s'.core.doneQueue| == 1
    ensures s'.core.poolQueue == s.core.poolQueue && NothingClosable(s'.core)
    ensures s'.core.table[h] == Descriptor(CNeedRequest, false, None, s.core.table[h].serial)
  {
    Reach(cfg, 1, s, Unlock(0));
    var s1 := Step(cfg, s, Unlock(0));
    Reach(cfg, 1, s1, Finish(0));
    s' := Step(cfg, s1, Finish(0));
  }

  /** The only worker waits, the main thread is at its loop head, and the connection `h` is that of the
      grant `i`. */
  ghost predicate Serving(cfg: Config, s: State, h: int, i: nat) {
    && AliveAt(cfg, 1, s, LoopHead) && s.workers == [Idle]
    && h != s.core.mainSock && h in s.core.table && s.core.table[h].serial == i < |s.core.history|
    && s.core.runnables == []
  }

  /** The pool has a runnable of the given kind for `h` in front. */
  predicate InFront(c: Core, kind: RunnableType, h: int) {
    c.poolQueue != [] && c.poolQueue[0].kind == kind && c.poolQueue[0].connection == h
  }

  ghost predicate NothingClosable(c: Core) {
    forall h :: h in c.table ==> !c.table[h].state.CNeedClose?
  }

  lemma HandsOverOne(c: Core, h: int)
    requires h in c.table && c.table[h].serial < |c.history| && c.runnables == []
    requires TypeFor(c.table[h].state) != ENone
    ensures var c', i := HandedOver(ScheduleFor(c, h)), c.table[h].serial;
            && c'.table == c.table[h := c.table[h].(accessLock := true)]
            && c'.poolQueue == c.poolQueue + [Runnable(c.created, TypeFor(c.table[h].state), h, i)]
            && c'.runnables == [] && c'.doneQueue == [] && c'.mainSock == c.mainSock
            && i < |c'.history| && c'.history[i].received == c.history[i].received
            && c'.history[i].sent == c.history[i].sent
  {
  }

  /** The main thread finds the connection unlocked and schedules what its state asks for. */
  lemma SchedulesOne(cfg: Config, s: State, h: int, i: nat) returns (s': State)
    requires Serving(cfg, s, h, i) && |s.core.doneQueue| <= 1 && NothingClosable(s.core)
    requires !s.core.table[h].accessLock && TypeFor(s.core.table[h].state) != ENone
    ensures Serving(cfg, s', h, i) && s'.core.doneQueue == []
    ensures s'.core.table == s.core.table[h := s.core.table[h].(accessLock := true)]
    ensures s'.core.poolQueue
         == s.core.poolQueue + [Runnable(s.core.created, TypeFor(s.core.table[h].state), h, i)]
    ensures s'.core.history[i].received == s.core.history[i].received
    ensures s'.core.history[i].sent == s.core.history[i].sent
  {
    Onward(cfg, s);
    var s1 := s.(pc := Selecting);
    ReachableAgrees(cfg, 1, s1);
    forall r | r in s1.core.doneQueue ensures r in s1.core.inProcess {
      OccursIn(s1.core.doneQueue, r);
      OccursIn(s1.core.inProcess, r);
      assert Owned(s1.core, r) > 0;
    }
    SelectSchedules(cfg, 1, s1, h);
    HandsOverOne(s1.core, h);
    s' := s1.(core := HandedOver(ScheduleFor(s1.core, h)), pc := LoopHead);
  }

  /** The descriptor after a read runnable has run and unlocked it. */
  function AfterRead(app: App, d: Descriptor, bytes: string): Descriptor {
    d.(request := Some(app.parse(bytes)), state := CNeedResponse, accessLock := false)
  }

  lemma ReadTurnIs(app: App, c: Core, h: int, i: nat, bytes: string, env: Env)
    requires InFront(c, EReadRequest, h) && h in c.table && c.table[h].serial == i < |c.history|
    ensures var (c', crash) := Turn(app, c, bytes, env);
            && crash.None? && c'.table == c.table[h := AfterRead(app, c.table[h], bytes)]
            && c'.poolQueue == c.poolQueue[1..] && |c'.doneQueue| == |c.doneQueue| + 1
            && c'.runnables == c.runnables && c'.mainSock == c.mainSock
            && i < |c'.history| && |c'.history[i].received| == |c.history[i].received| + 1
            && c'.history[i].sent == c.history[i].sent
  {
  }

  /** The worker reads from the connection. */
  lemma ReadsOne(cfg: Config, s: State, h: int, i: nat, bytes: string, env: Env) returns (s': State)
    requires Serving(cfg, s, h, i) && InFront(s.core, EReadRequest, h)
    requires |bytes| <= READ_BUFFER_SIZE && env.Valid()
    ensures Serving(cfg, s', h, i) && |s'.core.doneQueue| == |s.core.doneQueue| + 1
    ensures s'.core.table == s.core.table[h := AfterRead(cfg.app, s.core.table[h], bytes)]
    ensures s'.core.poolQueue == s.core.poolQueue[1..]
    ensures |s'.core.history[i].received| == |s.core.history[i].received| + 1
    ensures s'.core.history[i].sent == s.core.history[i].sent
  {
    TurnIsRun(cfg, 1, s, 0, bytes, env);
    ReadTurnIs(cfg.app, s.core, h, i, bytes, env);
    s' := s.(core := Turn(cfg.app, s.core, bytes, env).0);
  }

  /** A request that the processor answers, with a response that asks for closing. */
  ghost predicate Answerable(app: App, request: Option<Request>, env: Env) {
    && env.Valid() && request.Some? && app.process(request.value, env).Some?
    && app.process(request.value, env).value.closeAfterSending
  }

  lemma WriteTurnIs(app: App, c: Core, h: int, i: nat, env: Env)
    requires InFront(c, EWriteResponse, h) && h in c.table && c.table[h].serial == i < |c.history|
    requires Answerable(app, c.table[h].request, env)
    ensures var (c', crash) := Turn(app, c, "", env);
            && crash.None?
            && c'.table == c.table[h := c.table[h].(state := CNeedClose, accessLock := false)]
            && c'.poolQueue == c.poolQueue[1..]
            && c'.runnables == c.runnables && c'.mainSock == c.mainSock
            && i < |c'.history| && c'.history[i].received == c.history[i].received
            && |c'.history[i].sent| == |c.history[i].sent| + 1
  {
  }

  /** The worker sends a response on the connection. */
  lemma WritesOne(cfg: Config, s: State, h: int, i: nat, env: Env) returns (s': State)
    requires Serving(cfg, s, h, i) && InFront(s.core, EWriteResponse, h)
    requires Answerable(cfg.app, s.core.table[h].request, env)
    ensures Serving(cfg, s', h, i) && s'.core.poolQueue == s.core.poolQueue[1..]
    ensures s'.core.table == s.core.table[h := s.core.table[h].(state := CNeedClose, accessLock := false)]
    ensures s'.core.history[i].received == s.core.history[i].received
    ensures |s'.core.history[i].sent| == |s.core.history[i].sent| + 1
  {
    TurnIsRun(cfg, 1, s, 0, "", env);
    WriteTurnIs(cfg.app, s.core, h, i, env);
    s' := s.(core := Turn(cfg.app, s.core, "", env).0);
  }

  ghost predicate ReadTwice(s: State, i: nat) {
    i < |s.core.history| && |s.core.history[i].received| >= 2
  }

  ghost predicate AnsweredTwice(s: State, i: nat) {
    i < |s.core.history| && |s.core.history[i].sent| >= 2
  }

  /** Two read runnables for the connection: after the first one its write runnable is scheduled, which the
      second one unlocks, so that there is another. */
  lemma TwoReaders(cfg: Config, s: State, h: int, i: nat, bytes: string, env: Env) returns (s': State)
    requires Serving(cfg, s, h, i) && s.core.table[h] == Descriptor(CNeedRequest, false, None, i)
    requires NothingClosable(s.core) && |s.core.doneQueue| <= 1
    requires InFront(s.core, EReadRequest, h) && |s.core.poolQueue| == 1
    requires |bytes| <= READ_BUFFER_SIZE && env.Valid()
    ensures Serving(cfg, s', h, i) && ReadTwice(s', i) && NothingClosable(s'.core)
    ensures |s'.core.doneQueue| == 1
    ensures s'.core.table[h] == Descriptor(CNeedResponse, false, Some(cfg.app.parse(bytes)), i)
    ensures InFront(s'.core, EWriteResponse, h) && |s'.core.poolQueue| == 1
  {
    var s1 := SchedulesOne(cfg, s, h, i);
    var s2 := ReadsOne(cfg, s1, h, i, bytes, env);
    var s3 := SchedulesOne(cfg, s2, h, i);
    s' := ReadsOne(cfg, s3, h, i, bytes, env);
  }

  /** Both write runnables send the response. */
  lemma TwoWriters(cfg: Config, s: State, h: int, i: nat, env: Env) returns (s': State)
    requires Serving(cfg, s, h, i) && NothingClosable(s.core) && |s.core.doneQueue| <= 1
    requires !s.core.table[h].accessLock && s.core.table[h].state.CNeedResponse?
    requires Answerable(cfg.app, s.core.table[h].request, env)
    requires InFront(s.core, EWriteResponse, h) && |s.core.poolQueue| == 1
    ensures Serving(cfg, s', h, i) && AnsweredTwice(s', i)
    ensures s'.core.history[i].received == s.core.history[i].received
  {
    var s1 := SchedulesOne(cfg, s, h, i);
    var s2 := WritesOne(cfg, s1, h, i, env);
    s' := WritesOne(cfg, s2, h, i, env);
  }

  lemma ServesTwice(cfg: Config, s: State, h: int, i: nat, bytes: string, env: Env) returns (s': State)
    requires Serving(cfg, s, h, i) && s.core.table[h] == Descriptor(CNeedRequest, false, None, i)
    requires NothingClosable(s.core) && |s.core.doneQueue| <= 1
    requires InFront(s.core, EReadRequest, h) && |s.core.poolQueue| == 1
    requires |bytes| <= READ_BUFFER_SIZE && Answerable(cfg.app, Some(cfg.app.parse(bytes)), env)
    ensures Reachable(cfg, 1, s') && ReadTwice(s', i) && AnsweredTwice(s', i)
  {
    var s1 := TwoReaders(cfg, s, h, i, bytes, env);
    s' := TwoWriters(cfg, s1, h, i, env);
  }

  /** With three or more valid handlers the server as written has a run that reads a connection twice and
      sends two responses on it. */
  lemma RegrantServesTwice(cfg: Config, bytes: string, env: Env)
    requires !cfg.guarded && Size(cfg.space) >= 3
    requires |bytes| <= READ_BUFFER_SIZE && AlwaysCloses(cfg.app)
    requires env.Valid() && cfg.app.process(cfg.app.parse(bytes), env).Some?
    ensures exists s, i :: Reachable(cfg, 1, s) && ReadTwice(s, i) && AnsweredTwice(s, i)
  {
    var h := SecondHandler(cfg.space);
    var s := LateWriter(cfg, bytes, env);
    var i := s.core.table[h].serial;
    var s1 := LateUnlock(cfg, s, h);
    var s2 := ServesTwice(cfg, s1, h, i, bytes, env);
  }

  // ----- more workers -----

  /** The same with `k` more workers, which wait. */
  function Padded(s: State, k: nat): State {
    s.(workers := s.workers + seq(k, _ => Idle))
  }

  /** A step does not mind further workers that wait. */
  lemma StepPadded(cfg: Config, s: State, a: Action, k: nat)
    requires Enabled(s, a)
    ensures Enabled(Padded(s, k), a) && Step(cfg, Padded(s, k), a) == Padded(Step(cfg, s, a), k)
  {
    if !IsMainAction(a) {
      UpdatePadded(s, a.w, Step(cfg, s, a).workers[a.w], k);
    }
  }

  lemma UpdatePadded(s: State, w: nat, worker: Worker, k: nat)
    requires w < |s.workers|
    ensures Padded(s, k).workers[w] == s.workers[w]
    ensures Padded(s, k).workers[w := worker] == s.workers[w := worker] + seq(k, _ => Idle)
  {
  }

  lemma InitialPadded(space: Space, workers: nat, k: nat)
    ensures Initial(space, workers + k) == Padded(Initial(space, workers), k)
  {
    assert seq(workers + k, _ => Idle) == seq(workers, _ => Idle) + seq(k, _ => Idle);
  }

  /** What a server can reach it can reach with more workers. */
  lemma {:induction false} RunPadded(
    cfg: Config, workers: nat, actions: seq<Action>, states: seq<State>, k: nat, n: nat)
    requires IsRun(cfg, workers, actions, states) && n <= |actions|
    ensures Reachable(cfg, workers + k, Padded(states[n], k))
  {
    if n == 0 {
      InitialPadded(cfg.space, workers, k);
      ReachInitial(cfg, workers + k);
    } else {
      RunPadded(cfg, workers, actions, states, k, n - 1);
      StepPadded(cfg, states[n - 1], actions[n - 1], k);
      Reach(cfg, workers + k, Padded(states[n - 1], k), actions[n - 1]);
    }
  }

  lemma ReachablePadded(cfg: Config, workers: nat, s: State, k: nat)
    requires Reachable(cfg, workers, s)
    ensures Reachable(cfg, workers + k, Padded(s, k))
  {
    var actions: seq<Action>, states: seq<State> :|
      IsRun(cfg, workers, actions, states) && states[|actions|] == s;
    RunPadded(cfg, workers, actions, states, k, |actions|);
  }

  lemma {:induction false} HeldPadded(workers: seq<Worker>, k: nat, active: bool, r: Runnable)
    ensures Held(workers + seq(k, _ => Idle), active, r) == Held(workers, active, r)
  {
    var all := workers + seq(k, _ => Idle);
    if k == 0 {
      assert all == workers;
    } else {
      HeldPadded(workers, k - 1, active, r);
      assert all[..|all| - 1] == workers + seq(k - 1, _ => Idle);
    }
  }

  /** Workers that wait do not restore exclusion. */
  lemma ExclusivePadded(s: State, k: nat)
    requires Exclusive(Padded(s, k))
    ensures Exclusive(s)
  {
    forall r ensures Active(Padded(s, k), r) == Active(s, r) {
      HeldPadded(s.workers, k, true, r);
    }
    forall h | h in s.core.table && s.core.table[h].accessLock
      ensures exists r :: SoleActive(s, r, s.core.table[h].serial)
    {
      var r :| SoleActive(Padded(s, k), r, s.core.table[h].serial);
      assert SoleActive(s, r, s.core.table[h].serial);
    }
  }

  // ----- how many handlers and workers it takes -----

  /** Without workers nothing is ever unlocked. */
  lemma NoWorkersUndisturbed(cfg: Config, actions: seq<Action>, states: seq<State>)
    requires IsRun(cfg, 0, actions, states)
    ensures Undisturbed(actions, states, |actions|)
  {
    forall i | 0 <= i < |actions| ensures !Snatches(states[i], actions[i]) {
      WorkersStay(cfg, 0, actions, states, i);
    }
  }

  lemma TooFewUndisturbed(cfg: Config, workers: nat, actions: seq<Action>, states: seq<State>)
    requires Size(cfg.space) == 2 || workers == 0
    requires AlwaysCloses(cfg.app) && IsRun(cfg, workers, actions, states)
    ensures Undisturbed(actions, states, |actions|)
  {
    if workers == 0 {
      NoWorkersUndisturbed(cfg, actions, states);
    } else {
      TwoHandlersUndisturbed(cfg, workers, actions, states, |actions|);
    }
  }

  lemma TooFewKeepExclusion(cfg: Config, workers: nat, s: State)
    requires Size(cfg.space) == 2 || workers == 0
    requires AlwaysCloses(cfg.app) && Reachable(cfg, workers, s)
    ensures Exclusive(s)
  {
    var actions: seq<Action>, states: seq<State> :|
      IsRun(cfg, workers, actions, states) && states[|actions|] == s;
    TooFewUndisturbed(cfg, workers, actions, states);
    ExclusionKept(cfg, workers, actions, states, |actions|);
  }

  lemma TooFewServeOnce(cfg: Config, workers: nat, s: State, i: nat)
    requires Size(cfg.space) == 2 || workers == 0
    requires AlwaysCloses(cfg.app) && Reachable(cfg, workers, s)
    ensures !ReadTwice(s, i) && !AnsweredTwice(s, i)
  {
    var actions: seq<Action>, states: seq<State> :|
      IsRun(cfg, workers, actions, states) && states[|actions|] == s;
    TooFewUndisturbed(cfg, workers, actions, states);
    if i < |s.core.history| {
      GrantsOK(cfg, workers, actions, states, |actions|, i);
    }
  }

  lemma OneIsEnoughToBreak(cfg: Config, workers: nat, s: State)
    requires workers >= 1 && Reachable(cfg, 1, s) && s.crash.None? && !Exclusive(s)
    ensures exists s' :: Reachable(cfg, workers, s') && s'.crash.None? && !Exclusive(s')
  {
    ReachablePadded(cfg, 1, s, workers - 1);
    if Exclusive(Padded(s, workers - 1)) {
      ExclusivePadded(s, workers - 1);
    }
  }

  lemma OneIsEnoughToServeTwice(cfg: Config, workers: nat, s: State, i: nat)
    requires workers >= 1 && Reachable(cfg, 1, s) && ReadTwice(s, i) && AnsweredTwice(s, i)
    ensures exists s' :: Reachable(cfg, workers, s') && ReadTwice(s', i) && AnsweredTwice(s', i)
  {
    ReachablePadded(cfg, 1, s, workers - 1);
    var s' := Padded(s, workers - 1);
    assert ReadTwice(s', i) && AnsweredTwice(s', i);
  }

  /** Some run of the server as written breaks mutual exclusion if and only if there are three or more valid
      handlers, and a worker; the process then lives on. */
  lemma ExclusionBreaksIff(cfg: Config, workers: nat, bytes: string, env: Env)
    requires !cfg.guarded && |bytes| <= READ_BUFFER_SIZE && AlwaysCloses(cfg.app)
    requires env.Valid() && cfg.app.process(cfg.app.parse(bytes), env).Some?
    ensures (exists s :: Reachable(cfg, workers, s) && !Exclusive(s)) <==> Size(cfg.space) >= 3 && workers >= 1
    ensures (exists s :: Reachable(cfg, workers, s) && s.crash.None? && !Exclusive(s))
       <==> Size(cfg.space) >= 3 && workers >= 1
  {
    if Size(cfg.space) >= 3 && workers >= 1 {
      RegrantBreaksExclusion(cfg, bytes, env);
      var s :| Reachable(cfg, 1, s) && s.crash.None? && !Exclusive(s);
      OneIsEnoughToBreak(cfg, workers, s);
    } else {
      forall s | Reachable(cfg, workers, s) ensures Exclusive(s) {
        TooFewKeepExclusion(cfg, workers, s);
      }
    }
  }

  /** Under the same condition some run reads a connection twice, some run sends two responses on one, and
      some run does both; so it is none of the sequential description. */
  lemma ServesTwiceIff(cfg: Config, workers: nat, bytes: string, env: Env)
    requires !cfg.guarded && |bytes| <= READ_BUFFER_SIZE && AlwaysCloses(cfg.app)
    requires env.Valid() && cfg.app.process(cfg.app.parse(bytes), env).Some?
    ensures (exists s, i :: Reachable(cfg, workers, s) && ReadTwice(s, i))
       <==> Size(cfg.space) >= 3 && workers >= 1
    ensures (exists s, i :: Reachable(cfg, workers, s) && AnsweredTwice(s, i))
       <==> Size(cfg.space) >= 3 && workers >= 1
    ensures (exists s, i :: Reachable(cfg, workers, s) && ReadTwice(s, i) && AnsweredTwice(s, i))
       <==> Size(cfg.space) >= 3 && workers >= 1
  {
    if Size(cfg.space) >= 3 && workers >= 1 {
      RegrantServesTwice(cfg, bytes, env);
      var s, i :| Reachable(cfg, 1, s) && ReadTwice(s, i) && AnsweredTwice(s, i);
      OneIsEnoughToServeTwice(cfg, workers, s, i);
    } else {
      forall s, i | Reachable(cfg, workers, s) ensures !ReadTwice(s, i) && !AnsweredTwice(s, i) {
        TooFewServeOnce(cfg, workers, s, i);
      }
    }
  }

  lemma OneIsEnoughToThrow(cfg: Config, workers: nat, bytes: string, env: Env)
    requires !cfg.guarded && |bytes| <= READ_BUFFER_SIZE && AlwaysCloses(cfg.app) && workers >= 1
    requires env.Valid() && cfg.app.process(cfg.app.parse(bytes), env).Some?
    ensures exists s :: Reachable(cfg, workers, s)
                     && s.crash == Some(BadDescriptor(WriteJob(SecondHandler(cfg.space))))
  {
    OnFinishedCanThrow(cfg, bytes, env);
    var s :| Reachable(cfg, 1, s) && s.crash == Some(BadDescriptor(WriteJob(SecondHandler(cfg.space))));
    ReachablePadded(cfg, 1, s, workers - 1);
    assert Padded(s, workers - 1).crash == s.crash;
  }

  lemma NoWorkerThrows(cfg: Config, s: State, a: Action, r: Runnable)
    requires Enabled(s, a) && s.workers == []
    ensures Step(cfg, s, a).crash != Some(BadDescriptor(r))
  {
    if Step(cfg, s, a).crash.Some? {
      CrashCaused(cfg, s, a);
    }
  }

  lemma NoWorkersNoThrow(cfg: Config, s: State, r: Runnable)
    requires Reachable(cfg, 0, s)
    ensures s.crash != Some(BadDescriptor(r))
  {
    var actions: seq<Action>, states: seq<State> :|
      IsRun(cfg, 0, actions, states) && states[|actions|] == s;
    if actions == [] {
      InitialPlaces(cfg, 0);
    } else {
      WorkersStay(cfg, 0, actions, states, |actions| - 1);
      NoWorkerThrows(cfg, states[|actions| - 1], actions[|actions| - 1], r);
    }
  }

  /** The exception of `OnFinished` takes a worker, and no more handlers than any server has. */
  lemma OnFinishedThrowsIff(cfg: Config, workers: nat, bytes: string, env: Env)
    requires !cfg.guarded && |bytes| <= READ_BUFFER_SIZE && AlwaysCloses(cfg.app)
    requires env.Valid() && cfg.app.process(cfg.app.parse(bytes), env).Some?
    ensures (exists s, r :: Reachable(cfg, workers, s) && s.crash == Some(BadDescriptor(r))) <==> workers >= 1
  {
    if workers >= 1 {
      OneIsEnoughToThrow(cfg, workers, bytes, env);
    } else {
      forall s, r | Reachable(cfg, 0, s) ensures s.crash != Some(BadDescriptor(r)) {
        NoWorkersNoThrow(cfg, s, r);
      }
    }
  }
}
