/** The steps of the workers keep the invariant. */
module ServerWorkers {
  import opened Common
  import opened HttpMessages
  import opened ServerState
  import opened ServerSteps
  import opened ServerInvariant

  // ----- what the workers hold -----

  lemma {:induction false} HeldUpdate(workers: seq<Worker>, w: nat, k: Worker, active: bool, r: Runnable)
    requires w < |workers|
    ensures Held(workers[w := k], active, r) + HeldBy(workers[w], active, r)
         == Held(workers, active, r) + HeldBy(k, active, r)
  {
    var n := |workers| - 1;
    var changed := workers[w := k];
    if w == n {
      assert changed[..n] == workers[..n];
    } else {
      HeldUpdate(workers[..n], w, k, active, r);
      assert changed[..n] == workers[..n][w := k];
    }
  }

  lemma HeldTwice(workers: seq<Worker>, w1: nat, w2: nat, active: bool, r: Runnable)
    requires w1 < |workers| && w2 < |workers| && w1 != w2
    ensures HeldBy(workers[w1], active, r) + HeldBy(workers[w2], active, r) <= Held(workers, active, r)
  {
    HeldUpdate(workers, w1, Idle, active, r);
    HeldUpdate(workers[w1 := Idle], w2, Idle, active, r);
  }

  lemma {:induction false} HeldWitness(workers: seq<Worker>, active: bool, r: Runnable) returns (w: nat)
    requires Held(workers, active, r) > 0
    ensures w < |workers| && workers[w].Busy? && IsActive(workers[w]) == active && workers[w].r == r
  {
    var n := |workers| - 1;
    if HeldBy(workers[n], active, r) > 0 {
      w := n;
    } else {
      w := HeldWitness(workers[..n], active, r);
    }
  }

  lemma OccursIn(q: seq<Runnable>, r: Runnable)
    ensures r in q <==> Occurrences(q, r) > 0
  {
    assert r in q <==> r in multiset(q);
  }

  lemma ActiveMember(s: State, w: nat)
    requires w < |s.workers| && IsActive(s.workers[w])
    ensures Active(s, s.workers[w].r) > 0
  {
    HeldUpdate(s.workers, w, Idle, true, s.workers[w].r);
  }

  /** A runnable that still waits works for another grant than one a worker is at. */
  lemma WaitingIsOther(s: State, w: nat, r: Runnable)
    requires OwnInv(s) && LockInv(s)
    requires w < |s.workers| && IsActive(s.workers[w])
    requires r in Unpushed(s) || r in s.core.poolQueue
    ensures r.serial != s.workers[w].r.serial
  {
    HeldUpdate(s.workers, w, Idle, true, s.workers[w].r);
    OccursIn(Unpushed(s), r);
    OccursIn(s.core.poolQueue, r);
    assert Active(s, r) > 0 && Active(s, s.workers[w].r) > 0;
    assert Owned(s.core, r) <= 1;
  }

  /** Two workers are at runnables of different grants. */
  lemma WorkersDiffer(s: State, w1: nat, w2: nat)
    requires OwnInv(s) && LockInv(s)
    requires w1 < |s.workers| && w2 < |s.workers| && w1 != w2
    requires IsActive(s.workers[w1]) && IsActive(s.workers[w2])
    ensures s.workers[w1].r.serial != s.workers[w2].r.serial
  {
    ActiveMember(s, w1);
    ActiveMember(s, w2);
    HeldTwice(s.workers, w1, w2, true, s.workers[w1].r);
    assert Owned(s.core, s.workers[w1].r) <= 1;
  }

  /** Every runnable stays as active, and as done, as it was. */
  ghost predicate SamePlaces(s: State, s': State) {
    && (forall r :: Active(s', r) == Active(s, r))
    && (forall r :: Done(s', r) == Done(s, r))
  }

  lemma SameOwn(s: State, s': State)
    requires OwnInv(s) && SamePlaces(s, s')
    requires forall r :: Owned(s'.core, r) == Owned(s.core, r)
    requires s'.core.created == s.core.created
    ensures OwnInv(s')
  {
  }

  lemma SameLocks(s: State, s': State)
    requires LockInv(s) && SamePlaces(s, s')
    requires forall h :: h in s'.core.table && s'.core.table[h].accessLock ==>
               h in s.core.table && s.core.table[h].accessLock
               && s.core.table[h].serial == s'.core.table[h].serial
    ensures LockInv(s')
  {
    forall h | h in s'.core.table && s'.core.table[h].accessLock
      ensures HasSerial(s', s'.core.table[h].serial)
    {
      assert HasSerial(s, s.core.table[h].serial);
      var r :| Active(s, r) > 0 && r.serial == s.core.table[h].serial;
      assert Active(s', r) > 0;
    }
  }

  // ----- a step that stays with its runnable -----

  /** The shared state after the descriptor and the grant of one connection have changed. */
  function Touch(c: Core, r: Runnable, d: Descriptor, g: Grant): Core
    requires r.serial < |c.history|
  {
    c.(table := c.table[r.connection := d], history := c.history[r.serial := g])
  }

  ghost predicate SameGrant(g: Grant, g': Grant) {
    g'.handler == g.handler && g'.tick == g.tick && g'.closed == g.closed
  }

  /** Worker `w` may change its connection's descriptor to `d` and grant to `g`. */
  ghost predicate MayTouch(cfg: Config, s: State, w: nat, d: Descriptor, g: Grant) {
    && Inv(cfg, s)
    && w < |s.workers| && IsActive(s.workers[w])
    && var r := s.workers[w].r;
       && JobOK(cfg.app, s.core, r, s.workers[w].phase)
       && !s.core.table[r.connection].state.CNeedClose?
       && d.serial == r.serial && d.accessLock
       && SameGrant(s.core.history[r.serial], g) && GrantOK(cfg.app, g)
  }

  lemma TouchKeepsTable(cfg: Config, c: Core, r: Runnable, d: Descriptor, g: Grant)
    requires TableInv(cfg, c) && TickInv(cfg, c)
    requires r.connection in c.table && c.table[r.connection].serial == r.serial < |c.history|
    requires r.connection != c.mainSock
    requires d.serial == r.serial && SameGrant(c.history[r.serial], g)
    ensures TableInv(cfg, Touch(c, r, d, g)) && TickInv(cfg, Touch(c, r, d, g))
  {
  }

  lemma TouchKeepsHistory(cfg: Config, c: Core, r: Runnable, d: Descriptor, g: Grant)
    requires TableInv(cfg, c) && HistoryInv(cfg.app, c)
    requires r.connection in c.table && c.table[r.connection].serial == r.serial < |c.history|
    requires r.connection != c.mainSock
    requires GrantOK(cfg.app, g)
    ensures HistoryInv(cfg.app, Touch(c, r, d, g))
  {
    assert r.serial != 0;
  }

  lemma TouchKeepsJob(app: App, c: Core, r: Runnable, d: Descriptor, g: Grant, other: Runnable, phase: Phase)
    requires r.connection in c.table && c.table[r.connection].serial == r.serial < |c.history|
    requires other.serial != r.serial
    requires JobOK(app, c, other, phase)
    ensures JobOK(app, Touch(c, r, d, g), other, phase)
  {
  }

  lemma TouchKeepsQueued(app: App, s: State, w: nat, d: Descriptor, g: Grant, phase: Phase)
    requires OwnInv(s) && LockInv(s) && QueuedInv(app, s)
    requires w < |s.workers| && IsActive(s.workers[w]) && JobOK(app, s.core, s.workers[w].r, s.workers[w].phase)
    ensures QueuedInv(app, GoOn(s, w, Touch(s.core, s.workers[w].r, d, g), phase))
  {
    var r := s.workers[w].r;
    var c' := Touch(s.core, r, d, g);
    var s' := GoOn(s, w, c', phase);
    assert Unpushed(s') == Unpushed(s);
    forall q | q in Unpushed(s) || q in s.core.poolQueue ensures JobOK(app, c', q, Started) {
      WaitingIsOther(s, w, q);
      TouchKeepsJob(app, s.core, r, d, g, q, Started);
    }
  }

  lemma TouchKeepsWorkers(cfg: Config, s: State, w: nat, d: Descriptor, g: Grant, phase: Phase)
    requires OwnInv(s) && LockInv(s) && WorkersInv(cfg, s)
    requires w < |s.workers| && IsActive(s.workers[w]) && JobOK(cfg.app, s.core, s.workers[w].r, s.workers[w].phase)
    requires SameGrant(s.core.history[s.workers[w].r.serial], g)
    requires JobOK(cfg.app, Touch(s.core, s.workers[w].r, d, g), s.workers[w].r, phase)
    ensures WorkersInv(cfg, GoOn(s, w, Touch(s.core, s.workers[w].r, d, g), phase))
  {
    var r := s.workers[w].r;
    var c' := Touch(s.core, r, d, g);
    var s' := GoOn(s, w, c', phase);
    forall v | 0 <= v < |s'.workers| && IsActive(s'.workers[v])
      ensures || JobOK(cfg.app, c', s'.workers[v].r, s'.workers[v].phase)
              || (!cfg.guarded && Orphan(c', s'.workers[v].r, s'.workers[v].phase))
    {
      if v != w {
        WorkersDiffer(s, v, w);
        if JobOK(cfg.app, s.core, s.workers[v].r, s.workers[v].phase) {
          TouchKeepsJob(cfg.app, s.core, r, d, g, s.workers[v].r, s.workers[v].phase);
        }
      }
    }
  }

  lemma GoOnKeepsPlaces(s: State, w: nat, c': Core, phase: Phase)
    requires w < |s.workers| && IsActive(s.workers[w]) && !phase.Unlocked?
    requires c'.runnables == s.core.runnables
    requires c'.poolQueue == s.core.poolQueue && c'.doneQueue == s.core.doneQueue
    ensures SamePlaces(s, GoOn(s, w, c', phase))
  {
    assert Unpushed(GoOn(s, w, c', phase)) == Unpushed(s);
    forall r
      ensures Active(GoOn(s, w, c', phase), r) == Active(s, r)
      ensures Done(GoOn(s, w, c', phase), r) == Done(s, r)
    {
      HeldUpdate(s.workers, w, Busy(s.workers[w].r, phase), true, r);
      HeldUpdate(s.workers, w, Busy(s.workers[w].r, phase), false, r);
    }
  }

  lemma TouchKeepsRest(cfg: Config, s: State, w: nat, d: Descriptor, g: Grant, phase: Phase)
    requires TableInv(cfg, s.core) && RestInv(cfg.app, s)
    requires w < |s.workers| && IsActive(s.workers[w])
    requires JobOK(cfg.app, s.core, s.workers[w].r, s.workers[w].phase)
    requires d.serial == s.workers[w].r.serial && d.accessLock
    ensures RestInv(cfg.app, GoOn(s, w, Touch(s.core, s.workers[w].r, d, g), phase))
  {
    var r := s.workers[w].r;
    var c' := Touch(s.core, r, d, g);
    forall h | h in c'.table && h != c'.mainSock && !c'.table[h].accessLock
      ensures RestOK(cfg.app, s.pc, h, c'.table[h], GrantAt(c'.history, c'.table[h].serial))
    {
      assert h != r.connection;
      assert s.core.table[h].serial != r.serial;
      assert GrantAt(c'.history, c'.table[h].serial) == GrantAt(s.core.history, s.core.table[h].serial);
    }
  }

  lemma TouchKeepsPc(cfg: Config, s: State, w: nat, d: Descriptor, g: Grant, phase: Phase)
    requires PcInv(cfg, s)
    requires w < |s.workers| && IsActive(s.workers[w])
    requires JobOK(cfg.app, s.core, s.workers[w].r, s.workers[w].phase)
    requires !s.core.table[s.workers[w].r.connection].state.CNeedClose?
    ensures PcInv(cfg, GoOn(s, w, Touch(s.core, s.workers[w].r, d, g), phase))
  {
  }

  /** A worker step that changes only the connection of its runnable and leaves it as its next phase
      wants it keeps the invariant. */
  lemma TouchInv(cfg: Config, s: State, w: nat, d: Descriptor, g: Grant, phase: Phase)
    requires MayTouch(cfg, s, w, d, g)
    requires !phase.Unlocked? && JobOK(cfg.app, Touch(s.core, s.workers[w].r, d, g), s.workers[w].r, phase)
    ensures Inv(cfg, GoOn(s, w, Touch(s.core, s.workers[w].r, d, g), phase))
  {
    assert s.workers[w].r.connection != s.core.mainSock;
    TouchKeepsTable(cfg, s.core, s.workers[w].r, d, g);
    TouchKeepsHistory(cfg, s.core, s.workers[w].r, d, g);
    TouchKeepsQueued(cfg.app, s, w, d, g, phase);
    TouchKeepsWorkers(cfg, s, w, d, g, phase);
    var s' := GoOn(s, w, Touch(s.core, s.workers[w].r, d, g), phase);
    GoOnKeepsPlaces(s, w, s'.core, phase);
    SameOwn(s, s');
    SameLocks(s, s');
    TouchKeepsRest(cfg, s, w, d, g, phase);
    TouchKeepsPc(cfg, s, w, d, g, phase);
  }

  // ----- the steps of a runnable -----

  /** With the connection changed to `d` and `g`, the runnable is in the given phase. */
  ghost predicate Advances(app: App, c: Core, r: Runnable, phase: Phase, d: Descriptor, g: Grant, next: Phase) {
    && JobOK(app, c, r, phase)
    && !c.table[r.connection].state.CNeedClose?
    && d.serial == r.serial && d.accessLock
    && SameGrant(c.history[r.serial], g) && GrantOK(app, g)
    && !next.Unlocked?
    && JobOK(app, Touch(c, r, d, g), r, next)
  }

  lemma AdvanceInv(cfg: Config, s: State, w: nat, d: Descriptor, g: Grant, next: Phase)
    requires Inv(cfg, s)
    requires w < |s.workers| && IsActive(s.workers[w])
    requires Advances(cfg.app, s.core, s.workers[w].r, s.workers[w].phase, d, g, next)
    ensures Inv(cfg, GoOn(s, w, Touch(s.core, s.workers[w].r, d, g), next))
  {
    TouchInv(cfg, s, w, d, g, next);
  }

  lemma JobOf(cfg: Config, s: State, w: nat)
    requires Inv(cfg, s)
    requires w < |s.workers| && IsActive(s.workers[w]) && !s.workers[w].phase.Finishing?
    ensures JobOK(cfg.app, s.core, s.workers[w].r, s.workers[w].phase)
    ensures GrantOK(cfg.app, s.core.history[s.workers[w].r.serial])
  {
  }

  lemma ReceiveJob(app: App, c: Core, r: Runnable, bytes: string)
    requires JobOK(app, c, r, Started) && r.kind.EReadRequest? && |bytes| <= READ_BUFFER_SIZE
    requires GrantOK(app, c.history[r.serial])
    ensures var d, g := c.table[r.connection], c.history[r.serial].(received := [bytes]);
            && Receive(c, r.connection, bytes) == Touch(c, r, d, g)
            && Advances(app, c, r, Started, d, g, Parsed(app.parse(bytes)))
  {
    var d, g := c.table[r.connection], c.history[r.serial].(received := [bytes]);
    assert c.table[r.connection := d] == c.table;
    assert c.history[r.serial].received + [bytes] == [bytes];
  }

  lemma ReceiveInv(cfg: Config, s: State, w: nat, bytes: string)
    requires Inv(cfg, s) && Enabled(s, ReceiveAndParse(w, bytes))
    ensures Inv(cfg, Step(cfg, s, ReceiveAndParse(w, bytes)))
  {
    JobOf(cfg, s, w);
    var r := s.workers[w].r;
    ReceiveJob(cfg.app, s.core, r, bytes);
    var d, g := s.core.table[r.connection], s.core.history[r.serial].(received := [bytes]);
    AdvanceInv(cfg, s, w, d, g, Parsed(cfg.app.parse(bytes)));
  }

  lemma KeepRequestJob(app: App, c: Core, r: Runnable, request: Request)
    requires JobOK(app, c, r, Parsed(request)) && GrantOK(app, c.history[r.serial])
    ensures var d, g := c.table[r.connection].(request := Some(request)), c.history[r.serial];
            && StoreRequest(c, r.connection, request) == Touch(c, r, d, g)
            && Advances(app, c, r, Parsed(request), d, g, RequestStored)
  {
  }

  lemma KeepRequestInv(cfg: Config, s: State, w: nat)
    requires Inv(cfg, s) && Enabled(s, KeepRequest(w))
    ensures Inv(cfg, Step(cfg, s, KeepRequest(w)))
  {
    JobOf(cfg, s, w);
    var r, request := s.workers[w].r, s.workers[w].phase.request;
    KeepRequestJob(cfg.app, s.core, r, request);
    var d := s.core.table[r.connection].(request := Some(request));
    AdvanceInv(cfg, s, w, d, s.core.history[r.serial], RequestStored);
  }

  lemma MarkReadJob(app: App, c: Core, r: Runnable)
    requires JobOK(app, c, r, RequestStored) && GrantOK(app, c.history[r.serial])
    ensures var d, g := c.table[r.connection].(state := CNeedResponse), c.history[r.serial];
            && SetState(c, r.connection, CNeedResponse) == Touch(c, r, d, g)
            && Advances(app, c, r, RequestStored, d, g, Finishing)
  {
  }

  lemma MarkReadInv(cfg: Config, s: State, w: nat)
    requires Inv(cfg, s) && Enabled(s, MarkRead(w))
    ensures Inv(cfg, Step(cfg, s, MarkRead(w)))
  {
    JobOf(cfg, s, w);
    var r := s.workers[w].r;
    MarkReadJob(cfg.app, s.core, r);
    var d := s.core.table[r.connection].(state := CNeedResponse);
    AdvanceInv(cfg, s, w, d, s.core.history[r.serial], Finishing);
  }

  /** The process ended because the processor did not return, on a request read from a connection. */
  ghost predicate UnansweredRequest(app: App, s: State, crash: Option<Crash>) {
    && crash.Some? && crash.value.NoResponse?
    && var NoResponse(r, request, env) := crash.value;
       && env.Valid() && app.process(request, env).None?
       && r.serial < |s.core.history| && |s.core.history[r.serial].received| == 1
       && request == app.parse(s.core.history[r.serial].received[0])
  }

  lemma ProcessJob(app: App, c: Core, r: Runnable, env: Env)
    requires JobOK(app, c, r, Started) && r.kind.EWriteResponse? && env.Valid()
    requires GrantOK(app, c.history[r.serial])
    ensures c.table[r.connection].request.Some?
    ensures var response := app.process(c.table[r.connection].request.value, env);
            var d, g := c.table[r.connection], c.history[r.serial].(envs := [env]);
            response.Some? ==>
              && Consult(c, r.connection, env) == Touch(c, r, d, g)
              && Advances(app, c, r, Started, d, g, Responding(response.value))
  {
    var d, g := c.table[r.connection], c.history[r.serial].(envs := [env]);
    assert c.table[r.connection := d] == c.table;
    assert c.history[r.serial].envs + [env] == [env];
  }

  /** Processing finds the request that was read from this connection. */
  lemma ProcessInv(cfg: Config, s: State, w: nat, env: Env)
    requires Inv(cfg, s) && Enabled(s, Process(w, env))
    ensures var s' := Step(cfg, s, Process(w, env));
            Inv(cfg, s') || UnansweredRequest(cfg.app, s, s'.crash)
  {
    JobOf(cfg, s, w);
    var r := s.workers[w].r;
    ProcessJob(cfg.app, s.core, r, env);
    var response := cfg.app.process(s.core.table[r.connection].request.value, env);
    if response.Some? {
      var d, g := s.core.table[r.connection], s.core.history[r.serial].(envs := [env]);
      AdvanceInv(cfg, s, w, d, g, Responding(response.value));
    }
  }

  lemma ConsultedAndSent(app: App, g: Grant, response: Response)
    requires Consulted(app, g, response) && g.sent == [app.generate(response)]
    ensures Answered(app, g)
  {
  }

  lemma SendJob(app: App, c: Core, r: Runnable, response: Response)
    requires JobOK(app, c, r, Responding(response)) && GrantOK(app, c.history[r.serial])
    ensures var d, g := c.table[r.connection], c.history[r.serial].(sent := [app.generate(response)]);
            && Send(c, r.connection, app.generate(response)) == Touch(c, r, d, g)
            && Advances(app, c, r, Responding(response), d, g, Sent(response))
  {
    var d, g := c.table[r.connection], c.history[r.serial].(sent := [app.generate(response)]);
    assert c.table[r.connection := d] == c.table;
    assert c.history[r.serial].sent + [app.generate(response)] == [app.generate(response)];
    ConsultedAndSent(app, g, response);
  }

  lemma SendInv(cfg: Config, s: State, w: nat)
    requires Inv(cfg, s) && Enabled(s, SendResponse(w))
    ensures Inv(cfg, Step(cfg, s, SendResponse(w)))
  {
    JobOf(cfg, s, w);
    var r, response := s.workers[w].r, s.workers[w].phase.response;
    SendJob(cfg.app, s.core, r, response);
    var d, g := s.core.table[r.connection], s.core.history[r.serial].(sent := [cfg.app.generate(response)]);
    AdvanceInv(cfg, s, w, d, g, Sent(response));
  }

  lemma MarkSentJob(app: App, c: Core, r: Runnable, response: Response)
    requires JobOK(app, c, r, Sent(response)) && GrantOK(app, c.history[r.serial])
    ensures var d, g := c.table[r.connection].(state := CNeedClose), c.history[r.serial];
            && SetState(c, r.connection, CNeedClose) == Touch(c, r, d, g)
            && Advances(app, c, r, Sent(response), d, g, Finishing)
  {
    ConsultedAndSent(app, c.history[r.serial], response);
  }

  /** A response that was sent asked for the connection to be closed. */
  lemma ConsultedCloses(app: App, c: Core, r: Runnable, response: Response)
    requires AlwaysCloses(app) && JobOK(app, c, r, Sent(response))
    ensures response.closeAfterSending
  {
    var g := c.history[r.serial];
    assert app.process(app.parse(g.received[0]), g.envs[0]).value == response;
  }

  lemma MarkSentInv(cfg: Config, s: State, w: nat)
    requires Inv(cfg, s) && Enabled(s, MarkSent(w))
    ensures Inv(cfg, Step(cfg, s, MarkSent(w)))
  {
    JobOf(cfg, s, w);
    var r, response := s.workers[w].r, s.workers[w].phase.sentResponse;
    MarkSentJob(cfg.app, s.core, r, response);
    ConsultedCloses(cfg.app, s.core, r, response);
    var d := s.core.table[r.connection].(state := CNeedClose);
    AdvanceInv(cfg, s, w, d, s.core.history[r.serial], Finishing);
  }

  /** The `assert(false)` of the send-data runnable is never reached. */
  lemma RunSendDataNever(cfg: Config, s: State, w: nat)
    requires WorkersInv(cfg, s)
    ensures !Enabled(s, RunSendData(w))
  {
    if w < |s.workers| && s.workers[w].Busy? && s.workers[w].phase.Started? {
      assert IsActive(s.workers[w]);
    }
  }

  // ----- popping, unlocking, finishing -----

  lemma SameJob(app: App, c: Core, c': Core, r: Runnable, phase: Phase)
    requires c'.table == c.table && c'.history == c.history
    requires JobOK(app, c, r, phase)
    ensures JobOK(app, c', r, phase)
  {
  }

  lemma PopKeepsPlaces(s: State, w: nat)
    requires w < |s.workers| && s.workers[w].Idle? && s.core.poolQueue != []
    ensures SamePlaces(s, PopStep(s, w))
  {
    var q, s' := s.core.poolQueue, PopStep(s, w);
    assert q == [q[0]] + q[1..];
    assert Unpushed(s') == Unpushed(s);
    forall r ensures Active(s', r) == Active(s, r) && Done(s', r) == Done(s, r) {
      HeldUpdate(s.workers, w, Busy(q[0], Started), true, r);
      HeldUpdate(s.workers, w, Busy(q[0], Started), false, r);
    }
  }

  lemma PopKeepsJobs(cfg: Config, s: State, w: nat)
    requires QueuedInv(cfg.app, s) && WorkersInv(cfg, s)
    requires w < |s.workers| && s.workers[w].Idle? && s.core.poolQueue != []
    ensures QueuedInv(cfg.app, PopStep(s, w)) && WorkersInv(cfg, PopStep(s, w))
  {
    var s' := PopStep(s, w);
    assert Unpushed(s') == Unpushed(s);
    forall r | r in Unpushed(s) || r in s.core.poolQueue ensures JobOK(cfg.app, s'.core, r, Started) {
      SameJob(cfg.app, s.core, s'.core, r, Started);
    }
    assert s.core.poolQueue[0] in s.core.poolQueue;
    forall v | 0 <= v < |s.workers| && s.workers[v].Busy? && JobOK(cfg.app, s.core, s.workers[v].r, s.workers[v].phase)
      ensures JobOK(cfg.app, s'.core, s.workers[v].r, s.workers[v].phase)
    {
      SameJob(cfg.app, s.core, s'.core, s.workers[v].r, s.workers[v].phase);
    }
  }

  lemma PopInv(cfg: Config, s: State, w: nat)
    requires Inv(cfg, s) && Enabled(s, Pop(w))
    ensures Inv(cfg, PopStep(s, w))
  {
    PopKeepsPlaces(s, w);
    SameOwn(s, PopStep(s, w));
    SameLocks(s, PopStep(s, w));
    PopKeepsJobs(cfg, s, w);
  }

  lemma FinishKeepsPlaces(s: State, w: nat)
    requires w < |s.workers| && s.workers[w].Busy? && s.workers[w].phase.Unlocked?
    ensures SamePlaces(s, FinishStep(s, w))
  {
    var s' := FinishStep(s, w);
    assert Unpushed(s') == Unpushed(s);
    forall r ensures Active(s', r) == Active(s, r) && Done(s', r) == Done(s, r) {
      HeldUpdate(s.workers, w, Idle, true, r);
      HeldUpdate(s.workers, w, Idle, false, r);
    }
  }

  lemma FinishKeepsJobs(cfg: Config, s: State, w: nat)
    requires QueuedInv(cfg.app, s) && WorkersInv(cfg, s)
    requires w < |s.workers| && s.workers[w].Busy? && s.workers[w].phase.Unlocked?
    ensures QueuedInv(cfg.app, FinishStep(s, w)) && WorkersInv(cfg, FinishStep(s, w))
  {
    var s' := FinishStep(s, w);
    assert Unpushed(s') == Unpushed(s);
    forall r | r in Unpushed(s) || r in s.core.poolQueue ensures JobOK(cfg.app, s'.core, r, Started) {
      SameJob(cfg.app, s.core, s'.core, r, Started);
    }
    forall v | 0 <= v < |s.workers| && s.workers[v].Busy? && JobOK(cfg.app, s.core, s.workers[v].r, s.workers[v].phase)
      ensures JobOK(cfg.app, s'.core, s.workers[v].r, s.workers[v].phase)
    {
      SameJob(cfg.app, s.core, s'.core, s.workers[v].r, s.workers[v].phase);
    }
  }

  lemma FinishInv(cfg: Config, s: State, w: nat)
    requires Inv(cfg, s) && Enabled(s, Finish(w))
    ensures Inv(cfg, FinishStep(s, w))
  {
    FinishKeepsPlaces(s, w);
    SameOwn(s, FinishStep(s, w));
    SameLocks(s, FinishStep(s, w));
    FinishKeepsJobs(cfg, s, w);
  }

  // ----- unlocking -----

  function UnlockStep(s: State, w: nat): State
    requires w < |s.workers| && s.workers[w].Busy? && s.workers[w].r.connection in s.core.table
  {
    GoOn(s, w, SetLock(s.core, s.workers[w].r.connection, false), Unlocked)
  }

  /** Unlocking moves the runnable, and no other, from the active to the done ones. */
  ghost predicate Moves(s: State, s': State, r: Runnable) {
    && Active(s, r) == Active(s', r) + 1 && Done(s', r) == Done(s, r) + 1
    && (forall q :: q != r ==> Active(s', q) == Active(s, q))
    && (forall q :: q != r ==> Done(s', q) == Done(s, q))
  }

  lemma UnlockMoves(s: State, w: nat)
    requires w < |s.workers| && IsActive(s.workers[w]) && s.workers[w].r.connection in s.core.table
    ensures Moves(s, UnlockStep(s, w), s.workers[w].r)
  {
    var s', k := UnlockStep(s, w), Busy(s.workers[w].r, Unlocked);
    assert Unpushed(s') == Unpushed(s);
    HeldUpdate(s.workers, w, k, true, k.r);
    HeldUpdate(s.workers, w, k, false, k.r);
    forall q | q != k.r ensures Active(s', q) == Active(s, q) && Done(s', q) == Done(s, q) {
      HeldUpdate(s.workers, w, k, true, q);
      HeldUpdate(s.workers, w, k, false, q);
    }
  }

  lemma UnlockKeepsOwn(s: State, w: nat)
    requires OwnInv(s)
    requires w < |s.workers| && IsActive(s.workers[w]) && s.workers[w].r.connection in s.core.table
    ensures OwnInv(UnlockStep(s, w))
  {
    UnlockMoves(s, w);
    var s' := UnlockStep(s, w);
    forall q ensures Owned(s'.core, q) == Active(s', q) + Done(s', q) {
      assert Owned(s.core, q) == Active(s, q) + Done(s, q);
    }
  }

  lemma UnlockKeepsLocks(cfg: Config, s: State, w: nat)
    requires TableInv(cfg, s.core) && LockInv(s)
    requires w < |s.workers| && IsActive(s.workers[w])
    requires JobOK(cfg.app, s.core, s.workers[w].r, Finishing)
    ensures LockInv(UnlockStep(s, w))
  {
    UnlockMoves(s, w);
    var r, s' := s.workers[w].r, UnlockStep(s, w);
    forall q ensures Active(s', q) <= Active(s, q) {
    }
    forall h | h in s'.core.table && s'.core.table[h].accessLock
      ensures HasSerial(s', s'.core.table[h].serial)
    {
      assert HasSerial(s, s.core.table[h].serial);
      var q :| Active(s, q) > 0 && q.serial == s.core.table[h].serial;
      assert q.serial != r.serial;
      assert Active(s', q) > 0;
    }
  }

  lemma UnlockKeepsQueued(app: App, s: State, w: nat)
    requires OwnInv(s) && LockInv(s) && QueuedInv(app, s)
    requires w < |s.workers| && IsActive(s.workers[w]) && JobOK(app, s.core, s.workers[w].r, Finishing)
    ensures QueuedInv(app, UnlockStep(s, w))
  {
    var r, s' := s.workers[w].r, UnlockStep(s, w);
    var d, g := s.core.table[r.connection].(accessLock := false), s.core.history[r.serial];
    assert s'.core == Touch(s.core, r, d, g);
    assert Unpushed(s') == Unpushed(s);
    forall q | q in Unpushed(s) || q in s.core.poolQueue ensures JobOK(app, s'.core, q, Started) {
      WaitingIsOther(s, w, q);
      TouchKeepsJob(app, s.core, r, d, g, q, Started);
    }
  }

  lemma UnlockKeepsWorkers(cfg: Config, s: State, w: nat)
    requires OwnInv(s) && LockInv(s) && WorkersInv(cfg, s)
    requires w < |s.workers| && IsActive(s.workers[w])
    requires JobOK(cfg.app, s.core, s.workers[w].r, Finishing)
    ensures WorkersInv(cfg, UnlockStep(s, w))
  {
    var r, s' := s.workers[w].r, UnlockStep(s, w);
    var d, g := s.core.table[r.connection].(accessLock := false), s.core.history[r.serial];
    assert s'.core == Touch(s.core, r, d, g);
    forall v | 0 <= v < |s'.workers| && IsActive(s'.workers[v])
      ensures || JobOK(cfg.app, s'.core, s'.workers[v].r, s'.workers[v].phase)
              || (!cfg.guarded && Orphan(s'.core, s'.workers[v].r, s'.workers[v].phase))
    {
      WorkersDiffer(s, v, w);
      if JobOK(cfg.app, s.core, s.workers[v].r, s.workers[v].phase) {
        TouchKeepsJob(cfg.app, s.core, r, d, g, s.workers[v].r, s.workers[v].phase);
      }
    }
  }

  lemma UnlockKeepsRest(cfg: Config, s: State, w: nat)
    requires TableInv(cfg, s.core) && RestInv(cfg.app, s) && PcInv(cfg, s)
    requires w < |s.workers| && IsActive(s.workers[w])
    requires JobOK(cfg.app, s.core, s.workers[w].r, Finishing)
    ensures TableInv(cfg, UnlockStep(s, w).core)
    ensures RestInv(cfg.app, UnlockStep(s, w)) && PcInv(cfg, UnlockStep(s, w))
  {
  }

  /** Unlocking a connection that is not locked changes nothing about the connections. */
  lemma IdleUnlock(s: State, w: nat)
    requires w < |s.workers| && s.workers[w].Busy? && s.workers[w].r.connection in s.core.table
    requires !s.core.table[s.workers[w].r.connection].accessLock
    ensures UnlockStep(s, w) == GoOn(s, w, s.core, Unlocked)
  {
    var h := s.workers[w].r.connection;
    assert s.core.table[h := s.core.table[h].(accessLock := false)] == s.core.table;
  }

  lemma IdleUnlockKeepsJobs(cfg: Config, s: State, w: nat)
    requires QueuedInv(cfg.app, s) && WorkersInv(cfg, s)
    requires w < |s.workers| && IsActive(s.workers[w])
    ensures QueuedInv(cfg.app, GoOn(s, w, s.core, Unlocked)) && WorkersInv(cfg, GoOn(s, w, s.core, Unlocked))
  {
    assert Unpushed(GoOn(s, w, s.core, Unlocked)) == Unpushed(s);
  }

  /** A late `OnFinished` that finds a later grant of its handler, not locked, does no harm. */
  lemma IdleUnlockKeepsLocks(cfg: Config, s: State, w: nat)
    requires TableInv(cfg, s.core) && LockInv(s)
    requires w < |s.workers| && IsActive(s.workers[w]) && Orphan(s.core, s.workers[w].r, Finishing)
    requires s.workers[w].r.connection in s.core.table
    requires !s.core.table[s.workers[w].r.connection].accessLock
    ensures LockInv(UnlockStep(s, w))
  {
    UnlockMoves(s, w);
    IdleUnlock(s, w);
    var r, s' := s.workers[w].r, UnlockStep(s, w);
    forall q ensures Active(s', q) <= Active(s, q) {
    }
    forall h | h in s'.core.table && s'.core.table[h].accessLock
      ensures HasSerial(s', s'.core.table[h].serial)
    {
      assert HasSerial(s, s.core.table[h].serial);
      var q :| Active(s, q) > 0 && q.serial == s.core.table[h].serial;
      assert s.core.history[r.serial].handler == r.connection;
      assert q.serial != r.serial;
      assert Active(s', q) > 0;
    }
  }

  /** `OnFinished` finds the descriptor of its own grant, or is that of an orphan: then it finds none, or
      that of a later grant. */
  lemma UnlockInv(cfg: Config, s: State, w: nat)
    requires Inv(cfg, s) && Enabled(s, Unlock(w)) && !ForeignUnlock(s, w)
    ensures s.workers[w].r.connection in s.core.table ==> Inv(cfg, UnlockStep(s, w))
    ensures s.workers[w].r.connection !in s.core.table ==>
              !cfg.guarded && Orphan(s.core, s.workers[w].r, Finishing)
  {
    if Orphan(s.core, s.workers[w].r, Finishing) {
      if s.workers[w].r.connection in s.core.table {
        UnlockKeepsOwn(s, w);
        IdleUnlockKeepsLocks(cfg, s, w);
        IdleUnlock(s, w);
        IdleUnlockKeepsJobs(cfg, s, w);
      }
    } else {
      assert JobOK(cfg.app, s.core, s.workers[w].r, Finishing);
      UnlockKeepsOwn(s, w);
      UnlockKeepsLocks(cfg, s, w);
      UnlockKeepsQueued(cfg.app, s, w);
      UnlockKeepsWorkers(cfg, s, w);
      UnlockKeepsRest(cfg, s, w);
    }
  }
}
