/** The server refines a sequential description of each connection: open it, read one request, send one
    response.  The pool, the queues and the interleaving do not show. */
module ServerRefinement {
  import opened HttpMessages
  import opened ServerState
  import opened ServerSteps
  import opened ServerInvariant
  import opened ServerWorkers
  import opened ServerAlways
  import opened ServerTheorems

  // ----- the description -----

  /** A connection of the description; what it has sent is in `Wire`. */
  datatype Conn = Fresh | HasRead(bytes: string) | HasReplied(bytes: string, env: Env)

  datatype Event = Stutter | Open | Read(conn: nat, bytes: string) | Reply(conn: nat, env: Env)

  ghost predicate SpecStep(app: App, a: seq<Conn>, e: Event, a': seq<Conn>) {
    match e
    case Stutter => a' == a
    case Open => a' == a + [Fresh]
    case Read(i, bytes) =>
      && i < |a| && a[i].Fresh? && |bytes| <= READ_BUFFER_SIZE
      && a' == a[i := HasRead(bytes)]
    case Reply(i, env) =>
      && i < |a| && a[i].HasRead? && env.Valid() && app.process(app.parse(a[i].bytes), env).Some?
      && a' == a[i := HasReplied(a[i].bytes, env)]
  }

  /** What the description sends on a connection. */
  function Wire(app: App, k: Conn): seq<string> {
    match k
    case HasReplied(bytes, env) =>
      (match app.process(app.parse(bytes), env)
       case Some(response) => [app.generate(response)]
       case None => [])
    case _ => []
  }

  // ----- the abstraction -----

  function ConnOf(g: Grant): Conn {
    if g.received == [] then Fresh
    else if g.sent == [] || g.envs == [] then HasRead(g.received[0])
    else HasReplied(g.received[0], g.envs[0])
  }

  function ConnsOf(history: seq<Grant>): (a: seq<Conn>)
    ensures |a| == |history|
    ensures forall i :: 0 <= i < |a| ==> a[i] == ConnOf(history[i])
  {
    if history == [] then []
    else ConnsOf(history[..|history| - 1]) + [ConnOf(history[|history| - 1])]
  }

  function Described(s: State): seq<Conn> {
    ConnsOf(s.core.history)
  }

  /** Writing one grant changes one connection of the description. */
  lemma DescribedPut(history: seq<Grant>, i: nat, g: Grant)
    requires i < |history|
    ensures ConnsOf(PutGrant(history, i, g)) == ConnsOf(history)[i := ConnOf(g)]
  {
  }

  lemma DescribedSame(history: seq<Grant>, i: nat, g: Grant)
    requires i < |history| ==> ConnOf(g) == ConnOf(history[i])
    ensures ConnsOf(PutGrant(history, i, g)) == ConnsOf(history)
  {
    if i < |history| {
      DescribedPut(history, i, g);
    }
  }

  // ----- steps -----

  lemma MainRefines(cfg: Config, s: State, a: Action) returns (e: Event)
    requires Enabled(s, a)
    requires IsMainAction(a)
    ensures SpecStep(cfg.app, Described(s), e, Described(Step(cfg, s, a)))
  {
    var s' := Step(cfg, s, a);
    e := Stutter;
    if a.NextEvent? && s'.core.history != s.core.history {
      e := Open;
      assert s'.core.history[..|s'.core.history| - 1] == s.core.history;
    } else if a.CloseNext? && s.pc.toClose != [] && s.pc.toClose[0] in s.core.table {
      var i := s.core.table[s.pc.toClose[0]].serial;
      DescribedSame(s.core.history, i, GrantAt(s.core.history, i).(closed := true));
    } else if a.Commit? && s.pc.handler in s.core.table {
      var d := s.core.table[s.pc.handler];
      var g := GrantAt(s.core.history, d.serial);
      DescribedSame(s.core.history, d.serial, g.(scheduled := g.scheduled + [TypeFor(d.state)]));
    }
  }

  lemma ReceiveRefines(app: App, c: Core, r: Runnable, bytes: string)
    requires JobOK(app, c, r, Started) && r.kind.EReadRequest? && |bytes| <= READ_BUFFER_SIZE
    ensures SpecStep(app, ConnsOf(c.history), Read(r.serial, bytes),
                     ConnsOf(Receive(c, r.connection, bytes).history))
  {
    var g := c.history[r.serial];
    DescribedPut(c.history, r.serial, g.(received := g.received + [bytes]));
  }

  lemma SendRefines(app: App, c: Core, r: Runnable, response: Response)
    requires JobOK(app, c, r, Responding(response))
    ensures SpecStep(app, ConnsOf(c.history), Reply(r.serial, c.history[r.serial].envs[0]),
                     ConnsOf(Send(c, r.connection, app.generate(response)).history))
  {
    var g := c.history[r.serial];
    DescribedPut(c.history, r.serial, g.(sent := g.sent + [app.generate(response)]));
  }

  lemma ConsultRefines(app: App, c: Core, r: Runnable, env: Env)
    requires JobOK(app, c, r, Started) && r.kind.EWriteResponse?
    ensures ConnsOf(Consult(c, r.connection, env).history) == ConnsOf(c.history)
  {
    var g := c.history[r.serial];
    DescribedSame(c.history, r.serial, g.(envs := g.envs + [env]));
  }

  lemma ReceiveStepRefines(cfg: Config, s: State, w: nat, bytes: string)
    requires Enabled(s, ReceiveAndParse(w, bytes)) && JobOK(cfg.app, s.core, s.workers[w].r, Started)
    ensures SpecStep(cfg.app, Described(s), Read(s.workers[w].r.serial, bytes),
                     Described(Step(cfg, s, ReceiveAndParse(w, bytes))))
  {
    ReceiveRefines(cfg.app, s.core, s.workers[w].r, bytes);
  }

  lemma SendStepRefines(cfg: Config, s: State, w: nat)
    requires Enabled(s, SendResponse(w)) && JobOK(cfg.app, s.core, s.workers[w].r, s.workers[w].phase)
    ensures SpecStep(cfg.app, Described(s),
                     Reply(s.workers[w].r.serial, s.core.history[s.workers[w].r.serial].envs[0]),
                     Described(Step(cfg, s, SendResponse(w))))
  {
    SendRefines(cfg.app, s.core, s.workers[w].r, s.workers[w].phase.response);
  }

  lemma ProcessStepRefines(cfg: Config, s: State, w: nat, env: Env)
    requires Enabled(s, Process(w, env)) && JobOK(cfg.app, s.core, s.workers[w].r, Started)
    ensures Described(Step(cfg, s, Process(w, env))) == Described(s)
  {
    ConsultRefines(cfg.app, s.core, s.workers[w].r, env);
  }

  /** Every step of the server is one step of the description, or none. */
  lemma StepRefines(cfg: Config, s: State, a: Action) returns (e: Event)
    requires Inv(cfg, s) && Enabled(s, a)
    ensures SpecStep(cfg.app, Described(s), e, Described(Step(cfg, s, a)))
  {
    e := Stutter;
    if a.ReceiveAndParse? {
      JobOf(cfg, s, a.w);
      ReceiveStepRefines(cfg, s, a.w, a.bytes);
      e := Read(s.workers[a.w].r.serial, a.bytes);
    } else if a.SendResponse? {
      JobOf(cfg, s, a.w);
      SendStepRefines(cfg, s, a.w);
      e := Reply(s.workers[a.w].r.serial, s.core.history[s.workers[a.w].r.serial].envs[0]);
    } else if a.Process? {
      JobOf(cfg, s, a.w);
      ProcessStepRefines(cfg, s, a.w, a.env);
    } else if IsMainAction(a) {
      e := MainRefines(cfg, s, a);
    } else {
      KeepsHistory(cfg, s, a);
    }
  }

  lemma KeepsHistory(cfg: Config, s: State, a: Action)
    requires Enabled(s, a)
    requires !IsMainAction(a) && !IsRecordingAction(a)
    ensures Step(cfg, s, a).core.history == s.core.history
  {
  }

  lemma SentIsWire(app: App, g: Grant)
    requires GrantOK(app, g)
    ensures g.sent == Wire(app, ConnOf(g))
  {
  }

  // ----- runs -----

  /** What was recorded of a grant is right in every state of a run, the last one of a crash included. */
  lemma GrantsOK(cfg: Config, workers: nat, actions: seq<Action>, states: seq<State>, n: nat, i: nat)
    requires GoodRun(cfg, workers, actions, states) && n < |states| && i < |states[n].core.history|
    ensures GrantOK(cfg.app, states[n].core.history[i])
  {
    RunInv(cfg, workers, actions, states, n);
    if states[n].crash.Some? {
      DyingChangesNothing(cfg, states[n - 1], actions[n - 1]);
    }
  }

  /** In every state of an undisturbed run, however it ends, each connection has been sent exactly what the description
      sends. */
  lemma WireExact(cfg: Config, workers: nat, actions: seq<Action>, states: seq<State>, n: nat)
    requires GoodRun(cfg, workers, actions, states) && n < |states|
    ensures forall i :: 0 <= i < |states[n].core.history| ==>
              states[n].core.history[i].sent == Wire(cfg.app, Described(states[n])[i])
  {
    forall i | 0 <= i < |states[n].core.history|
      ensures states[n].core.history[i].sent == Wire(cfg.app, Described(states[n])[i])
    {
      GrantsOK(cfg, workers, actions, states, n, i);
      SentIsWire(cfg.app, states[n].core.history[i]);
    }
  }

  /** Each undisturbed run of the server is a run of the description, from its beginning with the listening socket
      alone; `e` is the step that the description takes with the step `n` of the server. */
  lemma RunRefines(cfg: Config, workers: nat, actions: seq<Action>, states: seq<State>, n: nat)
    returns (e: Event)
    requires GoodRun(cfg, workers, actions, states) && n < |actions|
    ensures Described(states[0]) == [Fresh]
    ensures SpecStep(cfg.app, Described(states[n]), e, Described(states[n + 1]))
  {
    DescribedInitial(cfg, workers);
    RunInv(cfg, workers, actions, states, n);
    e := StepRefines(cfg, states[n], actions[n]);
  }

  lemma DescribedInitial(cfg: Config, workers: nat)
    requires AlwaysCloses(cfg.app)
    ensures Described(Initial(cfg.space, workers)) == [Fresh]
  {
    InitialInv(cfg, workers);
    var history := Initial(cfg.space, workers).core.history;
    assert |history| == 1 && Untouched(history[0]);
  }
}
