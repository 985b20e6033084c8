/** Each connection goes through its states once, with one runnable for reading and one for writing, and
    the work done in a run is bounded by the connections accepted. */
module ServerProgress {
  import opened HttpMessages
  import opened HandlerAllocator
  import opened ServerState
  import opened ServerSteps
  import opened ServerInvariant
  import opened ServerWorkers
  import opened ServerMain
  import opened ServerAlways
  import opened ServerTheorems

  // ----- the states of a connection -----

  ghost predicate Follows(before: ConnectionState, after: ConnectionState) {
    || after == before
    || (before.CNone? && after.CNeedRequest?)
    || (before.CNeedRequest? && after.CNeedResponse?)
    || (before.CNeedResponse? && after.CNeedClose?)
  }

  /** The same grant of the same handler is in both tables. */
  ghost predicate SameConnection(s: State, s': State, h: int) {
    h in s.core.table && h in s'.core.table && s.core.table[h].serial == s'.core.table[h].serial
  }

  lemma MainKeepsStates(cfg: Config, s: State, a: Action, h: int)
    requires Enabled(s, a)
    requires IsMainAction(a) && !a.NextEvent? && !a.FinishConnect?
    requires SameConnection(s, Step(cfg, s, a), h)
    ensures Step(cfg, s, a).core.table[h].state == s.core.table[h].state
  {
  }

  lemma MainStateFollows(cfg: Config, s: State, a: Action, h: int)
    requires TableInv(cfg, s.core) && RestInv(cfg.app, s) && PcInv(cfg, s) && Enabled(s, a)
    requires IsMainAction(a)
    requires SameConnection(s, Step(cfg, s, a), h)
    ensures Follows(s.core.table[h].state, Step(cfg, s, a).core.table[h].state)
  {
    if !a.NextEvent? && !a.FinishConnect? {
      MainKeepsStates(cfg, s, a, h);
    }
  }

  lemma WorkerStateFollows(cfg: Config, s: State, a: Action, h: int)
    requires Enabled(s, a)
    requires IsJobAction(a)
    requires AlwaysCloses(cfg.app) && JobOK(cfg.app, s.core, s.workers[a.w].r, s.workers[a.w].phase)
    requires SameConnection(s, Step(cfg, s, a), h)
    ensures Follows(s.core.table[h].state, Step(cfg, s, a).core.table[h].state)
  {
    if a.MarkSent? {
      ConsultedCloses(cfg.app, s.core, s.workers[a.w].r, s.workers[a.w].phase.sentResponse);
    }
  }

  lemma StateFollows(cfg: Config, s: State, a: Action, h: int)
    requires Inv(cfg, s) && Enabled(s, a) && SameConnection(s, Step(cfg, s, a), h)
    ensures Follows(s.core.table[h].state, Step(cfg, s, a).core.table[h].state)
  {
    if IsJobAction(a) {
      JobOf(cfg, s, a.w);
      WorkerStateFollows(cfg, s, a, h);
    } else if IsPoolAction(a) {
      PoolStateFollows(cfg, s, a, h);
    } else {
      MainStateFollows(cfg, s, a, h);
    }
  }

  lemma PoolStateFollows(cfg: Config, s: State, a: Action, h: int)
    requires Enabled(s, a) && IsPoolAction(a)
    requires SameConnection(s, Step(cfg, s, a), h)
    ensures Follows(s.core.table[h].state, Step(cfg, s, a).core.table[h].state)
  {
  }

  /** In every step of an undisturbed run a connection stays in its state or goes to the next one; it never gets
      to sending data, and each connection, closed or not, was given a runnable for reading and then one
      for writing, or the first of them, or none. */
  lemma ConnectionLife(cfg: Config, workers: nat, actions: seq<Action>, states: seq<State>, n: nat, h: int)
    requires Reached(cfg, workers, actions, states, n) && h in states[n].core.table
    ensures n < |actions| && SameConnection(states[n], states[n + 1], h) ==>
              Follows(states[n].core.table[h].state, states[n + 1].core.table[h].state)
    ensures !states[n].core.table[h].state.CDataSending?
    ensures forall i :: 0 <= i < |states[n].core.history| ==>
              states[n].core.history[i].scheduled <= [EReadRequest, EWriteResponse]
  {
    RunInv(cfg, workers, actions, states, n);
    assert forall i :: 0 <= i < |states[n].core.history| ==> GrantOK(cfg.app, states[n].core.history[i]);
    if n < |actions| && SameConnection(states[n], states[n + 1], h) {
      StateFollows(cfg, states[n], actions[n], h);
    }
    NoDataSending(cfg, states[n], h);
  }

  lemma NoDataSending(cfg: Config, s: State, h: int)
    requires TableInv(cfg, s.core) && HistoryInv(cfg.app, s.core) && LockInv(s)
    requires RestInv(cfg.app, s) && QueuedInv(cfg.app, s) && WorkersInv(cfg, s)
    requires h in s.core.table
    ensures !s.core.table[h].state.CDataSending?
  {
    if s.core.table[h].accessLock {
      assert HasSerial(s, s.core.table[h].serial);
      var r :| Active(s, r) > 0 && r.serial == s.core.table[h].serial;
      var phase := ActiveJob(cfg, s, r);
    }
  }

  // ----- the work left -----

  /** How much there is still to do for a runnable at each place on its way. */
  function PhaseWork(k: Worker): nat {
    match k
    case Idle => 0
    case Busy(_, Started) => 6
    case Busy(_, Parsed(_)) => 5
    case Busy(_, Responding(_)) => 5
    case Busy(_, RequestStored) => 4
    case Busy(_, Sent(_)) => 4
    case Busy(_, Finishing) => 3
    case Busy(_, Unlocked) => 2
  }

  function WorkersWork(workers: seq<Worker>): nat {
    if workers == [] then 0
    else WorkersWork(workers[..|workers| - 1]) + PhaseWork(workers[|workers| - 1])
  }

  /** How much there is to do for a connection besides the runnables it has been given: two runnables at
      the most, and the closing. */
  function GrantWork(g: Grant): int {
    9 * (2 - |g.scheduled|) + if g.closed then 0 else 1
  }

  const WORK_PER_CONNECTION := 19

  /** The first grant is that of the listening socket. */
  function HistoryWork(history: seq<Grant>): int {
    if |history| <= 1 then 0
    else HistoryWork(history[..|history| - 1]) + GrantWork(history[|history| - 1])
  }

  function Work(s: State): int {
    HistoryWork(s.core.history) + 8 * |Unpushed(s)| + 7 * |s.core.poolQueue| + WorkersWork(s.workers)
    + |s.core.doneQueue| + |BeingErased(s)|
  }

  /** The steps that get something done: scheduling a runnable, each step on its way, closing. */
  predicate IsWork(s: State, a: Action) {
    match a
    case BeginScan(_) => false
    case ScanNext => false
    case CloseNext => s.pc.Closing? && s.pc.toClose != []
    case Select(_, _) => false
    case NextEvent => false
    case FinishConnect => false
    case Commit =>
      s.pc.Committing? && s.pc.handler in s.core.table
      && TypeFor(s.core.table[s.pc.handler].state) != ENone
    case PushNext => s.pc.Scheduling? && s.pc.pushed < |s.core.runnables|
    case DrainDone => false
    case EraseNext => s.pc.Erasing? && s.pc.items != []
    case _ => true
  }

  predicate IsAccept(s: State, a: Action) {
    a.NextEvent? && s.pc.Events? && s.pc.readable != [] && s.pc.readable[0] == s.core.mainSock
  }

  // ----- sums -----

  lemma {:induction false} WorkersWorkUpdate(workers: seq<Worker>, w: nat, k: Worker)
    requires w < |workers|
    ensures WorkersWork(workers[w := k]) == WorkersWork(workers) - PhaseWork(workers[w]) + PhaseWork(k)
  {
    var n := |workers| - 1;
    if w == n {
      assert workers[w := k][..n] == workers[..n];
    } else {
      WorkersWorkUpdate(workers[..n], w, k);
      assert workers[w := k][..n] == workers[..n][w := k];
    }
  }

  lemma {:induction false} HistoryWorkUpdate(history: seq<Grant>, i: nat, g: Grant)
    requires 1 <= i < |history|
    ensures HistoryWork(history[i := g]) == HistoryWork(history) - GrantWork(history[i]) + GrantWork(g)
  {
    var n := |history| - 1;
    if i == n {
      assert history[i := g][..n] == history[..n];
    } else {
      HistoryWorkUpdate(history[..n], i, g);
      assert history[i := g][..n] == history[..n][i := g];
    }
  }

  lemma {:induction false} HistoryWorkNatural(app: App, history: seq<Grant>)
    requires forall i :: 0 <= i < |history| ==> GrantOK(app, history[i])
    ensures HistoryWork(history) >= 0
  {
    if |history| > 1 {
      var n := |history| - 1;
      HistoryWorkNatural(app, history[..n]);
      assert GrantOK(app, history[n]);
    }
  }

  // ----- each step -----

  lemma MoveWork(s: State, w: nat, c': Core, phase: Phase)
    requires w < |s.workers| && s.workers[w].Busy?
    requires c'.runnables == s.core.runnables && c'.poolQueue == s.core.poolQueue
    requires c'.doneQueue == s.core.doneQueue
    ensures Work(GoOn(s, w, c', phase))
         == Work(s) - PhaseWork(s.workers[w]) + PhaseWork(Busy(s.workers[w].r, phase))
            + HistoryWork(c'.history) - HistoryWork(s.core.history)
  {
    assert Unpushed(GoOn(s, w, c', phase)) == Unpushed(s);
    WorkersWorkUpdate(s.workers, w, Busy(s.workers[w].r, phase));
  }

  /** What a worker records in the grant of its connection changes nothing about the work left. */
  lemma RecordWork(history: seq<Grant>, i: nat, g: Grant)
    requires 1 <= i < |history| && GrantWork(g) == GrantWork(history[i])
    ensures HistoryWork(PutGrant(history, i, g)) == HistoryWork(history)
  {
    HistoryWorkUpdate(history, i, g);
  }

  lemma JobSerial(cfg: Config, c: Core, r: Runnable, phase: Phase)
    requires TableInv(cfg, c) && JobOK(cfg.app, c, r, phase)
    ensures 1 <= r.serial < |c.history|
  {
  }

  lemma ReceiveWork(cfg: Config, c: Core, r: Runnable, bytes: string)
    requires TableInv(cfg, c) && JobOK(cfg.app, c, r, Started)
    ensures HistoryWork(Receive(c, r.connection, bytes).history) == HistoryWork(c.history)
  {
    JobSerial(cfg, c, r, Started);
    var g := c.history[r.serial];
    RecordWork(c.history, r.serial, g.(received := g.received + [bytes]));
  }

  lemma ConsultWork(cfg: Config, c: Core, r: Runnable, env: Env)
    requires TableInv(cfg, c) && JobOK(cfg.app, c, r, Started)
    ensures HistoryWork(Consult(c, r.connection, env).history) == HistoryWork(c.history)
  {
    JobSerial(cfg, c, r, Started);
    var g := c.history[r.serial];
    RecordWork(c.history, r.serial, g.(envs := g.envs + [env]));
  }

  lemma SendWork(cfg: Config, c: Core, r: Runnable, phase: Phase, bytes: string)
    requires TableInv(cfg, c) && JobOK(cfg.app, c, r, phase)
    ensures HistoryWork(Send(c, r.connection, bytes).history) == HistoryWork(c.history)
  {
    JobSerial(cfg, c, r, phase);
    var g := c.history[r.serial];
    RecordWork(c.history, r.serial, g.(sent := g.sent + [bytes]));
  }

  lemma RecordingWork(cfg: Config, s: State, a: Action)
    requires Enabled(s, a) && IsRecordingAction(a)
    requires TableInv(cfg, s.core) && JobOK(cfg.app, s.core, s.workers[a.w].r, s.workers[a.w].phase)
    ensures var s' := Step(cfg, s, a); s'.crash.None? ==> HistoryWork(s'.core.history) == HistoryWork(s.core.history)
  {
    var r, phase := s.workers[a.w].r, s.workers[a.w].phase;
    if a.ReceiveAndParse? {
      ReceiveWork(cfg, s.core, r, a.bytes);
    } else if a.Process? {
      ConsultWork(cfg, s.core, r, a.env);
    } else {
      SendWork(cfg, s.core, r, phase, cfg.app.generate(phase.response));
    }
  }

  lemma PhaseFalls(cfg: Config, s: State, a: Action)
    requires Enabled(s, a) && IsJobAction(a) && Step(cfg, s, a).crash.None?
    ensures PhaseWork(Step(cfg, s, a).workers[a.w]) < PhaseWork(s.workers[a.w])
  {
  }

  /** A worker that gets on with its runnable has less to do with it, and leaves the queues alone. */
  lemma GetsOn(cfg: Config, s: State, a: Action)
    requires Enabled(s, a) && (IsJobAction(a) || a.Unlock?)
    requires Step(cfg, s, a).crash.None?
    ensures var s' := Step(cfg, s, a);
            && s'.workers[a.w].Busy?
            && s' == GoOn(s, a.w, s'.core, s'.workers[a.w].phase)
            && PhaseWork(s'.workers[a.w]) < PhaseWork(s.workers[a.w])
            && s'.core.runnables == s.core.runnables && s'.core.poolQueue == s.core.poolQueue
            && s'.core.doneQueue == s.core.doneQueue
  {
    if IsJobAction(a) {
      JobGoesOn(cfg, s, a);
      PhaseFalls(cfg, s, a);
    }
  }

  lemma RunWork(cfg: Config, s: State, a: Action)
    requires Enabled(s, a)
    requires IsJobAction(a) || a.Unlock?
    requires HistoryWork(Step(cfg, s, a).core.history) == HistoryWork(s.core.history)
    ensures var s' := Step(cfg, s, a); s'.crash.None? ==> Work(s') < Work(s)
  {
    var s' := Step(cfg, s, a);
    if s'.crash.None? {
      GetsOn(cfg, s, a);
      MoveWork(s, a.w, s'.core, s'.workers[a.w].phase);
    }
  }

  lemma PoolWork(cfg: Config, s: State, a: Action)
    requires Enabled(s, a) && (a.Pop? || a.Finish?)
    ensures Work(Step(cfg, s, a)) < Work(s)
  {
    var s' := Step(cfg, s, a);
    assert Unpushed(s') == Unpushed(s);
    WorkersWorkUpdate(s.workers, a.w, s'.workers[a.w]);
  }

  lemma CommitWork(cfg: Config, s: State)
    requires Enabled(s, Commit) && TableInv(cfg, s.core) && PcInv(cfg, s)
    ensures Work(CommitStep(s)) == Work(s) - if IsWork(s, Commit) then 1 else 0
  {
    var c, h := s.core, s.pc.handler;
    if IsWork(s, Commit) {
      var i := c.table[h].serial;
      var g := c.history[i];
      assert Unpushed(CommitStep(s)) == Unpushed(s) + [NewRunnable(c, h)];
      HistoryWorkUpdate(c.history, i, g.(scheduled := g.scheduled + [TypeFor(c.table[h].state)]));
    } else {
      assert Unpushed(CommitStep(s)) == Unpushed(s);
    }
  }

  lemma CloseWork(cfg: Config, s: State)
    requires Enabled(s, CloseNext) && TableInv(cfg, s.core) && PcInv(cfg, s)
    ensures Work(CloseNextStep(s)) == Work(s) - if IsWork(s, CloseNext) then 1 else 0
  {
    assert Unpushed(CloseNextStep(s)) == Unpushed(s);
    if s.pc.toClose != [] {
      ClosingHead(cfg, s);
      var i := s.core.table[s.pc.toClose[0]].serial;
      HistoryWorkUpdate(s.core.history, i, s.core.history[i].(closed := true));
    }
  }

  lemma AcceptWork(cfg: Config, s: State)
    requires Enabled(s, NextEvent) && TableInv(cfg, s.core) && HistoryInv(cfg.app, s.core)
    ensures Work(NextEventStep(cfg, s)) <= Work(s) + if IsAccept(s, NextEvent) then WORK_PER_CONNECTION else 0
  {
    var s' := NextEventStep(cfg, s);
    EventKeepsWork(cfg, s);
    if s'.core != s.core {
      RegisterWork(cfg, s.core);
    }
  }

  lemma EventKeepsWork(cfg: Config, s: State)
    requires s.pc.Events?
    ensures var s' := NextEventStep(cfg, s);
            && s'.workers == s.workers
            && (s'.core == s.core
                || (IsAccept(s, NextEvent) && s'.core == AcceptConnection(cfg.space, s.core).1))
            && Unpushed(s') == Unpushed(s) && BeingErased(s') == BeingErased(s) == []
  {
  }

  lemma RegisterWork(cfg: Config, c: Core)
    requires c.history != []
    ensures var c' := AcceptConnection(cfg.space, c).1;
            && c'.runnables == c.runnables && c'.poolQueue == c.poolQueue && c'.doneQueue == c.doneQueue
            && HistoryWork(c'.history) <= HistoryWork(c.history) + WORK_PER_CONNECTION
  {
    var c' := AcceptConnection(cfg.space, c).1;
    if c'.history != c.history {
      assert c'.history[..|c.history|] == c.history;
    }
  }

  lemma HandOverWork(cfg: Config, s: State, a: Action)
    requires Enabled(s, a) && PcInv(cfg, s)
    requires IsLookAction(a) || a.FinishConnect? || IsHandOverAction(a)
    ensures var s' := Step(cfg, s, a);
            s'.crash.None? ==> Work(s') == Work(s) - if IsWork(s, a) then 1 else 0
  {
    if a.PushNext? && s.pc.pushed < |s.core.runnables| {
      assert Unpushed(s) == [s.core.runnables[s.pc.pushed]] + Unpushed(Step(cfg, s, a));
    }
  }

  lemma NoSendData(cfg: Config, s: State, a: Action)
    requires Inv(cfg, s) && Enabled(s, a)
    ensures !a.RunSendData?
  {
    match a
    case RunSendData(w) => RunSendDataNever(cfg, s, w);
    case _ =>
  }

  /** A step that works leaves less to do, and no step but an accept leaves more. */
  lemma StepWork(cfg: Config, s: State, a: Action)
    requires Inv(cfg, s) && Enabled(s, a) && Step(cfg, s, a).crash.None?
    ensures Work(Step(cfg, s, a)) + (if IsWork(s, a) then 1 else 0)
         <= Work(s) + if IsAccept(s, a) then WORK_PER_CONNECTION else 0
  {
    NoSendData(cfg, s, a);
    if IsRecordingAction(a) {
      JobOf(cfg, s, a.w);
      RecordingWork(cfg, s, a);
      RunWork(cfg, s, a);
    } else if IsJobAction(a) || a.Unlock? {
      RunWork(cfg, s, a);
    } else if a.Pop? || a.Finish? {
      PoolWork(cfg, s, a);
    } else if a.Commit? {
      CommitWork(cfg, s);
    } else if a.CloseNext? {
      CloseWork(cfg, s);
    } else if a.NextEvent? {
      AcceptWork(cfg, s);
    } else {
      HandOverWork(cfg, s, a);
    }
  }

  // ----- runs -----

  /** How many of the first `n` steps worked, and how many accepted a connection. */
  function WorkSteps(actions: seq<Action>, states: seq<State>, n: nat): nat
    requires n <= |actions| < |states|
  {
    if n == 0 then 0
    else WorkSteps(actions, states, n - 1) + if IsWork(states[n - 1], actions[n - 1]) then 1 else 0
  }

  function Accepts(actions: seq<Action>, states: seq<State>, n: nat): nat
    requires n <= |actions| < |states|
  {
    if n == 0 then 0
    else Accepts(actions, states, n - 1) + if IsAccept(states[n - 1], actions[n - 1]) then 1 else 0
  }

  lemma {:induction false} InitialWork(cfg: Config, workers: nat, k: nat)
    requires k <= workers
    ensures WorkersWork(Initial(cfg.space, workers).workers[..k]) == 0
  {
    if k > 0 {
      InitialWork(cfg, workers, k - 1);
      var ws := Initial(cfg.space, workers).workers;
      assert ws[..k][..k - 1] == ws[..k - 1];
    }
  }

  lemma WorkLeft(cfg: Config, workers: nat, actions: seq<Action>, states: seq<State>, n: nat)
    requires Reached(cfg, workers, actions, states, n)
    ensures Work(states[n]) >= 0
  {
    RunInv(cfg, workers, actions, states, n);
    HistoryWorkNatural(cfg.app, states[n].core.history);
  }

  /** The step works at the expense of the work left, and only an accept adds to that. */
  ghost predicate Pays(s: State, a: Action, s': State) {
    Work(s') + (if IsWork(s, a) then 1 else 0)
    <= Work(s) + if IsAccept(s, a) then WORK_PER_CONNECTION else 0
  }

  lemma {:induction false} PaidSum(actions: seq<Action>, states: seq<State>, m: nat, n: nat)
    requires m <= n <= |actions| < |states|
    requires forall i :: m <= i < n ==> Pays(states[i], actions[i], states[i + 1])
    ensures WorkSteps(actions, states, n) - WorkSteps(actions, states, m)
         <= Work(states[m]) - Work(states[n])
            + WORK_PER_CONNECTION * (Accepts(actions, states, n) - Accepts(actions, states, m))
    decreases n
  {
    if m < n {
      PaidSum(actions, states, m, n - 1);
      PaidStep(actions, states, m, n);
    }
  }

  lemma PaidStep(actions: seq<Action>, states: seq<State>, m: nat, n: nat)
    requires m < n <= |actions| < |states| && Pays(states[n - 1], actions[n - 1], states[n])
    requires WorkSteps(actions, states, n - 1) - WorkSteps(actions, states, m)
          <= Work(states[m]) - Work(states[n - 1])
             + WORK_PER_CONNECTION * (Accepts(actions, states, n - 1) - Accepts(actions, states, m))
    ensures WorkSteps(actions, states, n) - WorkSteps(actions, states, m)
         <= Work(states[m]) - Work(states[n])
            + WORK_PER_CONNECTION * (Accepts(actions, states, n) - Accepts(actions, states, m))
  {
  }

  lemma WorkOfStep(cfg: Config, workers: nat, actions: seq<Action>, states: seq<State>, n: nat)
    requires GoodRun(cfg, workers, actions, states) && n < |actions| && states[n + 1].crash.None?
    ensures Pays(states[n], actions[n], states[n + 1])
  {
    RunInv(cfg, workers, actions, states, n);
    StepWork(cfg, states[n], actions[n]);
  }

  /** Along a run, the work done between two of its states is at most the work left at the first of them
      and 19 steps for each connection accepted since. */
  lemma WorkBetween(
    cfg: Config, workers: nat, actions: seq<Action>, states: seq<State>, m: nat, n: nat)
    requires Reached(cfg, workers, actions, states, n) && m <= n
    ensures WorkSteps(actions, states, n) - WorkSteps(actions, states, m)
         <= Work(states[m]) - Work(states[n])
            + WORK_PER_CONNECTION * (Accepts(actions, states, n) - Accepts(actions, states, m))
    ensures Work(states[n]) >= 0
  {
    WorkLeft(cfg, workers, actions, states, n);
    forall i | m <= i < n ensures Pays(states[i], actions[i], states[i + 1]) {
      AliveBefore(cfg, workers, actions, states, i + 1, n);
      WorkOfStep(cfg, workers, actions, states, i);
    }
    PaidSum(actions, states, m, n);
  }

  lemma AliveBefore(cfg: Config, workers: nat, actions: seq<Action>, states: seq<State>, m: nat, n: nat)
    requires IsRun(cfg, workers, actions, states) && m <= n < |states| && states[n].crash.None?
    ensures states[m].crash.None?
  {
    assert m < n ==> Enabled(states[m], actions[m]);
  }

  /** The work done in a whole run is at most 19 steps for each accepted connection. */
  lemma WorkBounded(cfg: Config, workers: nat, actions: seq<Action>, states: seq<State>, n: nat)
    requires Reached(cfg, workers, actions, states, n)
    ensures WorkSteps(actions, states, n) <= WORK_PER_CONNECTION * Accepts(actions, states, n)
  {
    WorkBetween(cfg, workers, actions, states, 0, n);
    var ws := states[0].workers;
    InitialWork(cfg, workers, workers);
    assert ws[..workers] == ws;
  }

  // ----- the work goes on -----

  /** Worker `w` has a step to take. */
  ghost predicate CanMove(s: State, w: nat) {
    exists a :: !IsMainAction(a) && a.w == w && Enabled(s, a)
  }

  lemma Moves(s: State, a: Action)
    requires !IsMainAction(a) && Enabled(s, a)
    ensures CanMove(s, a.w)
  {
  }

  /** The phases in which a runnable of each kind can be, short of finishing. */
  predicate PhaseFits(kind: RunnableType, phase: Phase) {
    match phase
    case Started => kind.EReadRequest? || kind.EWriteResponse?
    case Parsed(_) => kind.EReadRequest?
    case RequestStored => kind.EReadRequest?
    case Responding(_) => kind.EWriteResponse?
    case Sent(_) => kind.EWriteResponse?
    case _ => false
  }

  lemma JobPhase(app: App, c: Core, r: Runnable, phase: Phase)
    requires JobOK(app, c, r, phase) && !phase.Finishing?
    ensures PhaseFits(r.kind, phase)
  {
  }

  lemma ActivePhase(cfg: Config, s: State, w: nat)
    requires Inv(cfg, s) && w < |s.workers| && IsActive(s.workers[w]) && !s.workers[w].phase.Finishing?
    ensures PhaseFits(s.workers[w].r.kind, s.workers[w].phase)
  {
    JobOf(cfg, s, w);
    JobPhase(cfg.app, s.core, s.workers[w].r, s.workers[w].phase);
  }

  lemma FittingCanMove(s: State, w: nat)
    requires s.crash.None? && w < |s.workers| && s.workers[w].Busy?
    requires PhaseFits(s.workers[w].r.kind, s.workers[w].phase)
    ensures CanMove(s, w)
  {
    match s.workers[w].phase
    case Started =>
      if s.workers[w].r.kind.EReadRequest? {
        Moves(s, ReceiveAndParse(w, ""));
      } else {
        Moves(s, Process(w, SOME_ENV));
      }
    case Parsed(_) => Moves(s, KeepRequest(w));
    case RequestStored => Moves(s, MarkRead(w));
    case Responding(_) => Moves(s, SendResponse(w));
    case Sent(_) => Moves(s, MarkSent(w));
  }

  /** A worker with a runnable has a step to take, and so has one without while there is a task. */
  lemma WorkerCanMove(s: State, w: nat)
    requires s.crash.None? && w < |s.workers| && (s.workers[w].Busy? || s.core.poolQueue != [])
    requires IsActive(s.workers[w]) && !s.workers[w].phase.Finishing? ==>
               PhaseFits(s.workers[w].r.kind, s.workers[w].phase)
    ensures CanMove(s, w)
  {
    if s.workers[w].Idle? {
      Moves(s, Pop(w));
    } else {
      var phase := s.workers[w].phase;
      if phase.Finishing? {
        Moves(s, Unlock(w));
      } else if phase.Unlocked? {
        Moves(s, Finish(w));
      } else {
        FittingCanMove(s, w);
      }
    }
  }

  /** The runnable that a lock is for. */
  lemma LockHolder(s: State, h: int) returns (r: Runnable)
    requires LockInv(s) && h in s.core.table && s.core.table[h].accessLock
    ensures r.serial == s.core.table[h].serial
    ensures r in Unpushed(s) || r in s.core.poolQueue
            || exists w :: 0 <= w < |s.workers| && s.workers[w].Busy? && s.workers[w].r == r
  {
    assert HasSerial(s, s.core.table[h].serial);
    r :| Active(s, r) > 0 && r.serial == s.core.table[h].serial;
    OccursIn(Unpushed(s), r);
    OccursIn(s.core.poolQueue, r);
    if r !in Unpushed(s) && r !in s.core.poolQueue {
      var w := HeldWitness(s.workers, true, r);
    }
  }

  lemma {:induction false} WorkersStay(
    cfg: Config, workers: nat, actions: seq<Action>, states: seq<State>, n: nat)
    requires IsRun(cfg, workers, actions, states) && n < |states|
    ensures |states[n].workers| == workers
  {
    if n > 0 {
      WorkersStay(cfg, workers, actions, states, n - 1);
      StepKeepsWorkers(cfg, states[n - 1], actions[n - 1]);
    }
  }

  lemma StepKeepsWorkers(cfg: Config, s: State, a: Action)
    requires Enabled(s, a)
    ensures |Step(cfg, s, a).workers| == |s.workers|
  {
  }

  /** The work never stops with a connection locked: its runnable is with the main thread, which has a step
      to take, or some worker has one. */
  lemma LockedGoesOn(cfg: Config, workers: nat, actions: seq<Action>, states: seq<State>, n: nat, h: int)
    requires Reached(cfg, workers, actions, states, n) && workers > 0
    requires h in states[n].core.table && states[n].core.table[h].accessLock
    ensures || (exists r :: r in Unpushed(states[n]) && r.serial == states[n].core.table[h].serial)
            || exists w :: 0 <= w < workers && CanMove(states[n], w)
  {
    RunInv(cfg, workers, actions, states, n);
    WorkersStay(cfg, workers, actions, states, n);
    var s := states[n];
    var r := LockHolder(s, h);
    if r !in Unpushed(s) {
      var w: nat := 0;
      if r !in s.core.poolQueue {
        w :| 0 <= w < |s.workers| && s.workers[w].Busy? && s.workers[w].r == r;
      }
      if IsActive(s.workers[w]) && !s.workers[w].phase.Finishing? {
        ActivePhase(cfg, s, w);
      }
      WorkerCanMove(s, w);
    }
  }

  lemma {:induction false} InOrder(keys: set<int>) returns (order: seq<int>)
    ensures Ascending(order) && forall h :: h in order <==> h in keys
    decreases |keys|
  {
    if keys == {} {
      order := [];
    } else {
      var last := Largest(keys);
      var before := InOrder(keys - {last});
      order := before + [last];
      forall i | 0 <= i < |before| ensures before[i] < last {
        assert before[i] in before;
      }
    }
  }

  lemma Largest(keys: set<int>) returns (m: int)
    requires keys != {}
    ensures m in keys && forall h :: h in keys ==> h <= m
    decreases |keys|
  {
    assert (forall k :: k !in keys) ==> keys == {};
    var k :| k in keys;
    m := k;
    var rest := keys - {k};
    if rest != {} {
      var n := Largest(rest);
      m := if k < n then n else k;
    }
    forall h | h in keys ensures h <= m {
      assert h == k || h in rest;
    }
  }

  /** The main thread always has a step to take. */
  lemma MainGoesOn(s: State)
    requires s.crash.None?
    ensures exists a :: IsMainAction(a) && Enabled(s, a)
  {
    match s.pc
    case LoopHead =>
      var order := InOrder(s.core.table.Keys);
      assert Enabled(s, BeginScan(order));
    case Scanning(_, _) => assert Enabled(s, ScanNext);
    case Closing(_) => assert Enabled(s, CloseNext);
    case Selecting => assert Enabled(s, Select([], []));
    case Events(_, _) => assert Enabled(s, NextEvent);
    case Connecting(_, _, _) => assert Enabled(s, FinishConnect);
    case Committing(_, _, _) => assert Enabled(s, Commit);
    case Scheduling(_) => assert Enabled(s, PushNext);
    case Draining => assert Enabled(s, DrainDone);
    case Erasing(_) => assert Enabled(s, EraseNext);
  }

  // ----- how many runnables there are -----

  /** The runnables scheduled on all connections. */
  function ScheduledTotal(history: seq<Grant>): nat {
    if history == [] then 0
    else ScheduledTotal(history[..|history| - 1]) + |history[|history| - 1].scheduled|
  }

  lemma {:induction false} ScheduledTotalUpdate(history: seq<Grant>, i: nat, g: Grant)
    requires i < |history|
    ensures ScheduledTotal(PutGrant(history, i, g))
         == ScheduledTotal(history) - |history[i].scheduled| + |g.scheduled|
  {
    var n := |history| - 1;
    if i == n {
      assert history[i := g][..n] == history[..n];
    } else {
      ScheduledTotalUpdate(history[..n], i, g);
      assert history[i := g][..n] == history[..n][i := g];
    }
  }

  lemma SameScheduled(history: seq<Grant>, i: nat, g: Grant)
    requires i < |history| ==> |g.scheduled| == |history[i].scheduled|
    ensures ScheduledTotal(PutGrant(history, i, g)) == ScheduledTotal(history)
  {
    if i < |history| {
      ScheduledTotalUpdate(history, i, g);
    }
  }

  lemma {:induction false} ScheduledAtMostTwo(app: App, history: seq<Grant>)
    requires forall i :: 0 <= i < |history| ==> GrantOK(app, history[i])
    requires history != [] && history[0].scheduled == []
    ensures ScheduledTotal(history) <= 2 * (|history| - 1)
  {
    if |history| > 1 {
      ScheduledAtMostTwo(app, history[..|history| - 1]);
      assert GrantOK(app, history[|history| - 1]);
    }
  }

  lemma AcceptCreates(cfg: Config, s: State)
    requires Enabled(s, NextEvent)
    ensures var c' := NextEventStep(cfg, s).core;
            && c'.created == s.core.created
            && ScheduledTotal(c'.history) == ScheduledTotal(s.core.history)
            && |c'.history| <= |s.core.history| + if IsAccept(s, NextEvent) then 1 else 0
  {
    var c' := NextEventStep(cfg, s).core;
    if c'.history != s.core.history {
      assert c'.history[..|s.core.history|] == s.core.history;
    }
  }

  lemma CloseCreates(s: State)
    requires Enabled(s, CloseNext)
    ensures var c' := CloseNextStep(s).core;
            && c'.created == s.core.created
            && ScheduledTotal(c'.history) == ScheduledTotal(s.core.history)
            && |c'.history| == |s.core.history|
  {
    if s.pc.toClose != [] && s.pc.toClose[0] in s.core.table {
      var i := s.core.table[s.pc.toClose[0]].serial;
      SameScheduled(s.core.history, i, GrantAt(s.core.history, i).(closed := true));
    }
  }

  lemma CommitCreates(cfg: Config, s: State)
    requires Enabled(s, Commit) && TableInv(cfg, s.core) && PcInv(cfg, s)
    ensures var c' := CommitStep(s).core;
            && ScheduledTotal(c'.history) - ScheduledTotal(s.core.history) == c'.created - s.core.created
            && |c'.history| == |s.core.history|
  {
    var d := s.core.table[s.pc.handler];
    var g := s.core.history[d.serial];
    ScheduledTotalUpdate(s.core.history, d.serial, g.(scheduled := g.scheduled + [TypeFor(d.state)]));
  }

  lemma MainCreates(cfg: Config, s: State, a: Action)
    requires Enabled(s, a) && TableInv(cfg, s.core) && PcInv(cfg, s)
    requires IsMainAction(a)
    ensures var c' := Step(cfg, s, a).core;
            && ScheduledTotal(c'.history) - ScheduledTotal(s.core.history) == c'.created - s.core.created
            && |c'.history| <= |s.core.history| + if IsAccept(s, a) then 1 else 0
  {
    if a.NextEvent? {
      AcceptCreates(cfg, s);
    } else if a.CloseNext? {
      CloseCreates(s);
    } else if a.Commit? {
      CommitCreates(cfg, s);
    }
  }

  lemma WorkerCreates(cfg: Config, s: State, a: Action)
    requires Enabled(s, a)
    requires !IsMainAction(a)
    ensures var s' := Step(cfg, s, a);
            && s'.core.created == s.core.created
            && ScheduledTotal(s'.core.history) == ScheduledTotal(s.core.history)
            && |s'.core.history| == |s.core.history|
  {
    var s' := Step(cfg, s, a);
    if s'.core.history != s.core.history {
      var i := s.core.table[s.workers[a.w].r.connection].serial;
      SameScheduled(s.core.history, i, s'.core.history[i]);
    }
  }

  lemma {:induction false} CreatedCounted(
    cfg: Config, workers: nat, actions: seq<Action>, states: seq<State>, n: nat)
    requires GoodRun(cfg, workers, actions, states) && n < |states|
    ensures states[n].core.created == ScheduledTotal(states[n].core.history)
    ensures |states[n].core.history| <= 1 + Accepts(actions, states, n)
  {
    if n == 0 {
      InitialInv(cfg, workers);
    } else {
      CreatedCounted(cfg, workers, actions, states, n - 1);
      RunInv(cfg, workers, actions, states, n - 1);
      var s, a := states[n - 1], actions[n - 1];
      if IsMainAction(a) {
        MainCreates(cfg, s, a);
      } else {
        WorkerCreates(cfg, s, a);
      }
    }
  }

  /** A run creates at most two runnables for each accepted connection. */
  lemma TwoRunnablesEach(cfg: Config, workers: nat, actions: seq<Action>, states: seq<State>, n: nat)
    requires Reached(cfg, workers, actions, states, n)
    ensures states[n].core.created <= 2 * Accepts(actions, states, n)
  {
    CreatedCounted(cfg, workers, actions, states, n);
    RunInv(cfg, workers, actions, states, n);
    ScheduledAtMostTwo(cfg.app, states[n].core.history);
  }

  // ----- the first round of the handlers -----

  /** Two grants of a handler are at least a whole cycle of the counter apart. */
  lemma GrantsOfOneHandler(cfg: Config, c: Core, i: nat, j: nat)
    requires TickInv(cfg, c) && i < j < |c.history| && c.history[i].handler == c.history[j].handler
    ensures c.history[j].tick - c.history[i].tick >= Size(cfg.space)
  {
    var first, second := c.history[i].tick, c.history[j].tick;
    SameHandler(cfg.space, first, second);
    if second - first < Size(cfg.space) {
      ModOf(second - first, Size(cfg.space), 0, second - first);
    }
  }

  /** While the handler counter has not gone once around, every runnable unlocks its own grant. */
  lemma FirstRoundStep(cfg: Config, s: State, a: Action)
    requires TableInv(cfg, s.core) && TickInv(cfg, s.core) && WorkersInv(cfg, s)
    requires s.core.ticks < Size(cfg.space)
    ensures !Snatches(s, a)
  {
    if Snatches(s, a) {
      assert IsActive(s.workers[a.w]);
      var r := s.workers[a.w].r;
      GrantsOfOneHandler(cfg, s.core, r.serial, s.core.table[r.connection].serial);
    }
  }

  lemma TicksGrow(cfg: Config, workers: nat, actions: seq<Action>, states: seq<State>, n: nat)
    requires IsRun(cfg, workers, actions, states) && n < |actions|
    ensures states[n].core.ticks <= states[n + 1].core.ticks
  {
    StepTicks(cfg, states[n], actions[n]);
  }

  lemma StepTicks(cfg: Config, s: State, a: Action)
    requires Enabled(s, a)
    ensures s.core.ticks <= Step(cfg, s, a).core.ticks
  {
  }

  /** In a run in which the handler counter has not gone once around (2^32 - 1 advances for `int`
      handlers) no lock is taken away from another grant; so it is one of those the theorems are about. */
  lemma {:induction false} FirstRoundRun(
    cfg: Config, workers: nat, actions: seq<Action>, states: seq<State>, n: nat)
    requires AlwaysCloses(cfg.app) && IsRun(cfg, workers, actions, states) && n <= |actions|
    requires states[n].core.ticks < Size(cfg.space)
    ensures Undisturbed(actions, states, n)
  {
    if n > 0 {
      TicksGrow(cfg, workers, actions, states, n - 1);
      FirstRoundRun(cfg, workers, actions, states, n - 1);
      FirstRoundNext(cfg, workers, actions, states, n - 1);
      UndisturbedFurther(actions, states, n);
    }
  }

  lemma UndisturbedFurther(actions: seq<Action>, states: seq<State>, n: nat)
    requires 0 < n <= |actions| < |states|
    requires Undisturbed(actions, states, n - 1) && !Snatches(states[n - 1], actions[n - 1])
    ensures Undisturbed(actions, states, n)
  {
  }

  lemma FirstRoundNext(cfg: Config, workers: nat, actions: seq<Action>, states: seq<State>, n: nat)
    requires AlwaysCloses(cfg.app) && IsRun(cfg, workers, actions, states) && n < |actions|
    requires states[n].core.ticks < Size(cfg.space) && Undisturbed(actions, states, n)
    ensures !Snatches(states[n], actions[n])
  {
    RunInv(cfg, workers, actions, states, n);
    FirstRoundStep(cfg, states[n], actions[n]);
  }

  // ----- spaces of two handlers -----

  /** There is the grant of the listening socket, and perhaps one other, at which the counter then stays. */
  ghost predicate OneConnection(s: State) {
    && s.core.mainSock == 1 && s.core.ticks == |s.core.history|
    && 1 <= |s.core.history| <= 2
  }

  lemma OnlyAcceptsGrant(cfg: Config, s: State, a: Action)
    requires Enabled(s, a) && !a.NextEvent?
    ensures var c, c' := s.core, Step(cfg, s, a).core;
            c'.mainSock == c.mainSock && c'.ticks == c.ticks && |c'.history| == |c.history|
  {
  }

  /** With two handlers a search that starts from the one not listening gives up. */
  lemma TwoHandlersSearch(space: Space, used: set<int>)
    requires Size(space) == 2 && 1 in used
    ensures Generated(space, used, 2) == CONNECTION_HANDLER_INVALID
  {
    assert At(space, 0) == 0 && At(space, 1) == Advance(space, 0) == 1;
    SameHandler(space, 1, 3);
    assert InUse(space, used, 2, 1);
  }

  lemma OneConnectionStep(cfg: Config, s: State, a: Action)
    requires Size(cfg.space) == 2 && KeysInv(s) && OneConnection(s) && Enabled(s, a)
    ensures OneConnection(Step(cfg, s, a))
  {
    if a.NextEvent? {
      TwoHandlersEvent(cfg, s);
    } else {
      OnlyAcceptsGrant(cfg, s, a);
    }
  }

  lemma TwoHandlersEvent(cfg: Config, s: State)
    requires Size(cfg.space) == 2 && KeysInv(s) && OneConnection(s) && Enabled(s, NextEvent)
    ensures OneConnection(NextEventStep(cfg, s))
  {
    var space, used := cfg.space, s.core.table.Keys;
    if s.core.ticks == 2 {
      TwoHandlersSearch(space, used);
    } else {
      assert SearchFrom(space, used, 1, 1) <= 2;
      if Search(space, used, 1) == 2 {
        assert Generated(space, used, 1) == CONNECTION_HANDLER_INVALID;
      }
    }
  }

  /** The handler of a runnable that has lost its connection is not granted again. */
  lemma LostForGood(cfg: Config, s: State, w: nat)
    requires TableInv(cfg, s.core) && PlacesInv(s) && KeysInv(s) && OneConnection(s)
    requires w < |s.workers| && s.workers[w].Busy? && Orphan(s.core, s.workers[w].r, s.workers[w].phase)
    ensures s.workers[w].r.connection !in s.core.table
  {
    WorkerIsOwner(s, w);
    assert s.core.history[s.core.table[s.core.mainSock].serial].handler == s.core.mainSock;
  }

  lemma OneConnectionSnatchesNothing(cfg: Config, s: State, a: Action)
    requires TableInv(cfg, s.core) && WorkersInv(cfg, s) && PlacesInv(s) && KeysInv(s) && OneConnection(s)
    ensures !Snatches(s, a)
  {
    if a.Unlock? && a.w < |s.workers| && IsActive(s.workers[a.w])
       && Orphan(s.core, s.workers[a.w].r, s.workers[a.w].phase) {
      LostForGood(cfg, s, a.w);
    }
  }

  /** With two valid handlers only, one of them listening, exclusion is never broken. */
  lemma {:induction false} TwoHandlersUndisturbed(
    cfg: Config, workers: nat, actions: seq<Action>, states: seq<State>, n: nat)
    requires Size(cfg.space) == 2
    requires AlwaysCloses(cfg.app) && IsRun(cfg, workers, actions, states) && n <= |actions|
    ensures OneConnection(states[n]) && Undisturbed(actions, states, n)
  {
    if n == 0 {
      InitialIs(cfg.space, workers);
    } else {
      TwoHandlersUndisturbed(cfg, workers, actions, states, n - 1);
      TwoHandlersNext(cfg, workers, actions, states, n - 1);
      UndisturbedFurther(actions, states, n);
    }
  }

  lemma TwoHandlersNext(cfg: Config, workers: nat, actions: seq<Action>, states: seq<State>, n: nat)
    requires Size(cfg.space) == 2
    requires AlwaysCloses(cfg.app) && IsRun(cfg, workers, actions, states) && n < |actions|
    requires OneConnection(states[n]) && Undisturbed(actions, states, n)
    ensures OneConnection(states[n + 1]) && !Snatches(states[n], actions[n])
  {
    RunAlways(cfg, workers, actions, states, n);
    RunInv(cfg, workers, actions, states, n);
    OneConnectionStep(cfg, states[n], actions[n]);
    OneConnectionSnatchesNothing(cfg, states[n], actions[n]);
  }
}
