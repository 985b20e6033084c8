/** What holds in every state of every run of the server. */
module ServerTheorems {
  import opened Common
  import opened HandlerAllocator
  import opened ServerState
  import opened ServerSteps
  import opened ServerInvariant
  import opened ServerWorkers
  import opened ServerMain
  import opened ServerAlways

  // ----- the invariant holds -----

  lemma InitialInv(cfg: Config, workers: nat)
    requires AlwaysCloses(cfg.app)
    ensures Inv(cfg, Initial(cfg.space, workers))
    ensures Initial(cfg.space, workers).core.mainSock == 1
  {
    InitialPlaces(cfg, workers);
    InitialIs(cfg.space, workers);
    InitialTable(cfg, workers);
    var s := Initial(cfg.space, workers);
    forall r ensures Active(s, r) == 0 {
      assert Owned(s.core, r) == 0;
    }
    NothingActive(cfg, s);
  }

  lemma InitialTable(cfg: Config, workers: nat)
    ensures var c := Initial(cfg.space, workers).core;
            TableInv(cfg, c) && TickInv(cfg, c) && HistoryInv(cfg.app, c)
  {
    InitialIs(cfg.space, workers);
    assert At(cfg.space, 0) == 0 && At(cfg.space, 1) == Advance(cfg.space, 0) == 1;
    OnlyListening(cfg, Initial(cfg.space, workers).core);
  }

  lemma OnlyListening(cfg: Config, c: Core)
    requires c.mainSock == 1 == At(cfg.space, 1) && c.comm == [] && c.ticks == 1
    requires c.table == map[1 := Descriptor(CNone, false, None, 0)]
    requires c.history == [Grant(1, 1, [], [], [], [], false)]
    ensures TableInv(cfg, c) && TickInv(cfg, c) && HistoryInv(cfg.app, c)
  {
    UntouchedOK(cfg.app, c.history[0]);
    assert IsHandler(cfg.space, 1);
  }

  lemma UntouchedOK(app: App, g: Grant)
    requires Untouched(g)
    ensures GrantOK(app, g)
  {
  }

  lemma NothingActive(cfg: Config, s: State)
    requires forall r :: Active(s, r) == 0
    requires forall h :: h in s.core.table ==> !s.core.table[h].accessLock
    ensures LockInv(s) && QueuedInv(cfg.app, s) && WorkersInv(cfg, s)
  {
    forall r | r in Unpushed(s) || r in s.core.poolQueue ensures Active(s, r) > 0 {
      OccursIn(Unpushed(s), r);
      OccursIn(s.core.poolQueue, r);
    }
    forall w | 0 <= w < |s.workers| && IsActive(s.workers[w]) ensures Active(s, s.workers[w].r) > 0 {
      ActiveMember(s, w);
    }
  }

  /** The reasons for which the process can die in the step `a` from `s`. */
  ghost predicate Explained(cfg: Config, s: State, a: Action, why: Crash) {
    match why
    case HandlersExhausted =>
      a.NextEvent?
      && forall h :: IsHandler(cfg.space, h) && h != At(cfg.space, s.core.ticks) ==> h in s.core.table
    case BadDescriptor(r) =>
      && !cfg.guarded && a.Unlock? && a.w < |s.workers|
      && s.workers[a.w] == Busy(r, Finishing) && Orphan(s.core, r, Finishing)
      && r.connection !in s.core.table
    case NoResponse(r, request, env) =>
      a.Process? && UnansweredRequest(cfg.app, s, Some(why))
    case _ => false
  }

  /** The step takes away the lock of another grant's runnable. */
  predicate Snatches(s: State, a: Action) {
    a.Unlock? && ForeignUnlock(s, a.w)
  }

  /** The step `a` from `s` leads to a good state or to an explained end. */
  ghost predicate StepsWell(cfg: Config, s: State, a: Action)
    requires Enabled(s, a)
  {
    var s' := Step(cfg, s, a);
    if s'.crash.None? then Inv(cfg, s') else Explained(cfg, s, a, s'.crash.value)
  }

  lemma MainStepInv(cfg: Config, s: State, a: Action)
    requires Inv(cfg, s) && Enabled(s, a) && IsMainAction(a)
    ensures StepsWell(cfg, s, a)
  {
    match a
    case BeginScan(order) => BeginScanInv(cfg, s, order);
    case ScanNext => ScanNextInv(cfg, s);
    case CloseNext => CloseNextInv(cfg, s);
    case Select(readable, writable) => SelectInv(cfg, s, readable, writable);
    case NextEvent => NextEventWell(cfg, s);
    case FinishConnect => FinishConnectInv(cfg, s);
    case Commit => CommitInv(cfg, s);
    case PushNext => PushNextInv(cfg, s);
    case DrainDone => DrainInv(cfg, s);
    case EraseNext => EraseNextInv(cfg, s);
  }

  lemma NextEventWell(cfg: Config, s: State)
    requires Inv(cfg, s) && Enabled(s, NextEvent)
    ensures StepsWell(cfg, s, NextEvent)
  {
    NextEventInv(cfg, s);
    GeneratedInvalid(cfg.space, s.core.table.Keys, s.core.ticks);
  }

  lemma WorkerStepInv(cfg: Config, s: State, a: Action)
    requires Inv(cfg, s) && Enabled(s, a) && IsJobAction(a)
    ensures StepsWell(cfg, s, a)
  {
    match a
    case ReceiveAndParse(w, bytes) => ReceiveInv(cfg, s, w, bytes);
    case KeepRequest(w) => KeepRequestInv(cfg, s, w);
    case MarkRead(w) => MarkReadInv(cfg, s, w);
    case Process(w, env) => ProcessInv(cfg, s, w, env);
    case SendResponse(w) => SendInv(cfg, s, w);
    case MarkSent(w) => MarkSentInv(cfg, s, w);
  }

  lemma PoolStepInv(cfg: Config, s: State, a: Action)
    requires Inv(cfg, s) && Enabled(s, a) && IsPoolAction(a) && !Snatches(s, a)
    ensures StepsWell(cfg, s, a)
  {
    match a
    case Pop(w) => PopInv(cfg, s, w);
    case RunSendData(w) => RunSendDataNever(cfg, s, w);
    case Unlock(w) => UnlockInv(cfg, s, w);
    case Finish(w) => FinishInv(cfg, s, w);
  }

  /** A step from a good state leads to a good state or to an explained end. */
  lemma StepInv(cfg: Config, s: State, a: Action)
    requires Inv(cfg, s) && Enabled(s, a) && !Snatches(s, a)
    ensures StepsWell(cfg, s, a)
  {
    if IsPoolAction(a) {
      PoolStepInv(cfg, s, a);
    } else if IsJobAction(a) {
      WorkerStepInv(cfg, s, a);
    } else {
      MainStepInv(cfg, s, a);
    }
  }

  /** None of the first `n` steps takes away the lock of another grant's runnable. */
  ghost predicate Undisturbed(actions: seq<Action>, states: seq<State>, n: nat)
    requires n <= |actions| < |states|
  {
    forall i :: 0 <= i < n ==> !Snatches(states[i], actions[i])
  }

  /** The guarded scan closes no connection under a runnable, so every runnable unlocks its own grant. */
  lemma GuardedSnatchesNothing(cfg: Config, s: State, a: Action)
    requires cfg.guarded && WorkersInv(cfg, s)
    ensures !Snatches(s, a)
  {
    if Snatches(s, a) {
      assert IsActive(s.workers[a.w]);
    }
  }

  /** As long as no lock is taken away from another grant, every state before the end is good, and the end
      is good or explained. */
  lemma {:induction false} RunInv(cfg: Config, workers: nat, actions: seq<Action>, states: seq<State>, n: nat)
    requires AlwaysCloses(cfg.app) && IsRun(cfg, workers, actions, states) && n <= |actions|
    requires cfg.guarded || Undisturbed(actions, states, n)
    ensures if states[n].crash.None? then Inv(cfg, states[n])
            else n > 0 && Inv(cfg, states[n - 1])
                 && Explained(cfg, states[n - 1], actions[n - 1], states[n].crash.value)
  {
    if n == 0 {
      InitialInv(cfg, workers);
    } else {
      RunInv(cfg, workers, actions, states, n - 1);
      if cfg.guarded {
        GuardedSnatchesNothing(cfg, states[n - 1], actions[n - 1]);
      }
      StepInv(cfg, states[n - 1], actions[n - 1]);
    }
  }

  /** So no run of the guarded server is disturbed. */
  lemma GuardedUndisturbed(cfg: Config, workers: nat, actions: seq<Action>, states: seq<State>)
    requires cfg.guarded && AlwaysCloses(cfg.app) && IsRun(cfg, workers, actions, states)
    ensures Undisturbed(actions, states, |actions|)
  {
    forall i | 0 <= i < |actions| ensures !Snatches(states[i], actions[i]) {
      RunInv(cfg, workers, actions, states, i);
      GuardedSnatchesNothing(cfg, states[i], actions[i]);
    }
  }

  /** The runs in which no lock is taken away from another grant.  These are all runs of the guarded server,
      and exactly the runs of the server as written in which exclusion is kept. */
  ghost predicate GoodRun(cfg: Config, workers: nat, actions: seq<Action>, states: seq<State>) {
    && AlwaysCloses(cfg.app) && IsRun(cfg, workers, actions, states)
    && (cfg.guarded || Undisturbed(actions, states, |actions|))
  }

  /** A state of such a run in which the process still lives. */
  ghost predicate Reached(cfg: Config, workers: nat, actions: seq<Action>, states: seq<State>, n: nat) {
    GoodRun(cfg, workers, actions, states) && n < |states| && states[n].crash.None?
  }

  // ----- mutual exclusion -----

  /** `r` is the one active runnable for the grant. */
  ghost predicate SoleActive(s: State, r: Runnable, serial: nat) {
    && Active(s, r) == 1 && r.serial == serial
    && forall q :: Active(s, q) > 0 && q.serial == serial ==> q == r
  }

  /** Each connection has one active runnable if it is locked and none if it is not. */
  ghost predicate Exclusive(s: State) {
    forall h :: h in s.core.table ==>
      if s.core.table[h].accessLock then exists r :: SoleActive(s, r, s.core.table[h].serial)
      else forall q :: Active(s, q) > 0 ==> q.serial != s.core.table[h].serial
  }

  lemma InvExclusive(cfg: Config, s: State)
    requires Inv(cfg, s)
    ensures Exclusive(s)
  {
    forall h | h in s.core.table && s.core.table[h].accessLock
      ensures exists r :: SoleActive(s, r, s.core.table[h].serial)
    {
      assert HasSerial(s, s.core.table[h].serial);
      var r :| Active(s, r) > 0 && r.serial == s.core.table[h].serial;
      assert Owned(s.core, r) <= 1;
      assert SoleActive(s, r, s.core.table[h].serial);
    }
    forall h, q | h in s.core.table && !s.core.table[h].accessLock && Active(s, q) > 0
      ensures q.serial != s.core.table[h].serial
    {
      UnlockedIsFree(cfg, s, h, q);
    }
  }

  lemma DyingKeepsExclusion(s: State, why: Crash)
    requires Exclusive(s)
    ensures Exclusive(Die(s, why))
  {
    forall r ensures Active(Die(s, why), r) == Active(s, r) {
    }
    forall h | h in s.core.table && s.core.table[h].accessLock
      ensures exists r :: SoleActive(Die(s, why), r, s.core.table[h].serial)
    {
      var r :| SoleActive(s, r, s.core.table[h].serial);
      assert SoleActive(Die(s, why), r, s.core.table[h].serial);
    }
  }

  /** While no lock is taken away from another grant, exclusion holds. */
  lemma ExclusionKept(cfg: Config, workers: nat, actions: seq<Action>, states: seq<State>, n: nat)
    requires AlwaysCloses(cfg.app) && IsRun(cfg, workers, actions, states) && n <= |actions|
    requires cfg.guarded || Undisturbed(actions, states, n)
    ensures Exclusive(states[n])
  {
    RunInv(cfg, workers, actions, states, n);
    if states[n].crash.None? {
      InvExclusive(cfg, states[n]);
    } else {
      InvExclusive(cfg, states[n - 1]);
      DyingChangesNothing(cfg, states[n - 1], actions[n - 1]);
      DyingKeepsExclusion(states[n - 1], states[n].crash.value);
    }
  }

  /** Taking a lock away leaves its runnable active and its connection unlocked. */
  lemma SnatchingBreaks(cfg: Config, s: State, a: Action)
    requires LockInv(s) && Enabled(s, a) && Snatches(s, a)
    ensures !Exclusive(Step(cfg, s, a))
  {
    var r, s' := s.workers[a.w].r, UnlockStep(s, a.w);
    var serial := s.core.table[r.connection].serial;
    assert HasSerial(s, serial);
    var q :| Active(s, q) > 0 && q.serial == serial;
    UnlockMoves(s, a.w);
    assert Active(s', q) > 0;
    assert r.connection in s'.core.table && s'.core.table[r.connection].serial == serial;
  }

  lemma ExclusiveStep(cfg: Config, s: State, a: Action)
    requires LockInv(s) && Enabled(s, a) && Exclusive(Step(cfg, s, a))
    ensures !Snatches(s, a)
  {
    if Snatches(s, a) {
      SnatchingBreaks(cfg, s, a);
    }
  }

  lemma {:induction false} ExclusiveIsUndisturbed(
    cfg: Config, workers: nat, actions: seq<Action>, states: seq<State>, n: nat)
    requires AlwaysCloses(cfg.app) && IsRun(cfg, workers, actions, states) && n <= |actions|
    requires forall i :: 0 <= i < |states| ==> Exclusive(states[i])
    ensures Undisturbed(actions, states, n)
  {
    if n > 0 {
      ExclusiveIsUndisturbed(cfg, workers, actions, states, n - 1);
      RunInv(cfg, workers, actions, states, n - 1);
      assert Exclusive(states[n]);
      ExclusiveStep(cfg, states[n - 1], actions[n - 1]);
    }
  }

  /** Mutual exclusion holds in every state of a run if and only if no `OnFinished` in it finds the
      descriptor of another grant of its handler, locked.  With the guarded scan none ever does. */
  lemma MutualExclusion(cfg: Config, workers: nat, actions: seq<Action>, states: seq<State>)
    requires AlwaysCloses(cfg.app) && IsRun(cfg, workers, actions, states)
    ensures (forall n :: 0 <= n < |states| ==> Exclusive(states[n])) <==> Undisturbed(actions, states, |actions|)
    ensures cfg.guarded ==> Undisturbed(actions, states, |actions|)
  {
    if cfg.guarded {
      GuardedUndisturbed(cfg, workers, actions, states);
    }
    if Undisturbed(actions, states, |actions|) {
      forall n | 0 <= n < |states| ensures Exclusive(states[n]) {
        ExclusionKept(cfg, workers, actions, states, n);
      }
    }
    if forall n :: 0 <= n < |states| ==> Exclusive(states[n]) {
      ExclusiveIsUndisturbed(cfg, workers, actions, states, |actions|);
    }
  }

  // ----- how a run can end -----

  predicate IsAt(s: State, w: nat, r: Runnable) {
    w < |s.workers| && s.workers[w].Busy? && s.workers[w].r == r
  }

  /** What the step that ends the process shows of the reason, in any state. */
  ghost predicate Caused(cfg: Config, s: State, a: Action, why: Crash) {
    match why
    case HandlersExhausted =>
      a.NextEvent?
      && forall h :: IsHandler(cfg.space, h) && h != At(cfg.space, s.core.ticks) ==> h in s.core.table
    case BadDescriptor(r) =>
      (IsJobAction(a) || a.Unlock?) && IsAt(s, a.w, r) && r.connection !in s.core.table
    case NoResponse(r, request, env) =>
      a.Process? && IsAt(s, a.w, r) && env.Valid() && cfg.app.process(request, env).None?
    case EmptyRequest(r) =>
      a.Process? && IsAt(s, a.w, r) && r.connection in s.core.table
      && s.core.table[r.connection].request.None?
    case SendDataRun(r) => a.RunSendData?
    case InvalidHandler => true
    case RunnerNotFound(r) => true
  }

  lemma CrashCaused(cfg: Config, s: State, a: Action)
    requires Enabled(s, a) && Step(cfg, s, a).crash.Some?
    ensures Caused(cfg, s, a, Step(cfg, s, a).crash.value)
  {
    GeneratedInvalid(cfg.space, s.core.table.Keys, s.core.ticks);
  }

  /** No run, disturbed or not, ends because a runner or a handler is not found or data are to be sent; what
      else ends it shows in its last step.  An undisturbed run ends only because no handler is left for a
      new connection, because the processor does not return on a request that was read, or, as written,
      because a connection was closed between the last assignment of its write runnable and the
      unlocking. */
  lemma CrashesExplained(cfg: Config, workers: nat, actions: seq<Action>, states: seq<State>, n: nat)
    requires AlwaysCloses(cfg.app) && IsRun(cfg, workers, actions, states)
    requires n < |states| && states[n].crash.Some?
    ensures n > 0
    ensures var why := states[n].crash.value;
            && !why.InvalidHandler? && !why.RunnerNotFound? && !why.SendDataRun?
            && Caused(cfg, states[n - 1], actions[n - 1], why)
            && (cfg.guarded || Undisturbed(actions, states, n) ==>
                  Explained(cfg, states[n - 1], actions[n - 1], why))
            && (cfg.guarded ==> !why.BadDescriptor? && !why.EmptyRequest?)
  {
    TableAgreement(cfg, workers, actions, states, n);
    OwnershipConserved(cfg, workers, actions, states, n);
    InitialPlaces(cfg, workers);
    NeverSendsData(cfg, workers, actions, states, n - 1);
    CrashCaused(cfg, states[n - 1], actions[n - 1]);
    if cfg.guarded || Undisturbed(actions, states, n) {
      RunInv(cfg, workers, actions, states, n);
    }
  }

  // ----- closing -----

  /** The runnable a worker is at finds the descriptor of its own grant. */
  ghost predicate FindsDescriptor(s: State, r: Runnable) {
    r.connection in s.core.table && s.core.table[r.connection].serial == r.serial
  }

  /** With the guarded scan every runnable finds its own descriptor until it has unlocked it. */
  lemma GuardedCloseSafety(cfg: Config, workers: nat, actions: seq<Action>, states: seq<State>, n: nat,
                           r: Runnable)
    requires cfg.guarded && Reached(cfg, workers, actions, states, n)
    requires Active(states[n], r) > 0
    ensures FindsDescriptor(states[n], r)
  {
    RunInv(cfg, workers, actions, states, n);
    var phase := ActiveJob(cfg, states[n], r);
  }

  /** As written, a runnable that does not find its descriptor is a write runnable in the hands of a
      worker, between setting `CNeedClose` and unlocking; the handler has no descriptor, or that of a later
      grant. */
  lemma OnlyFinishingWritersLoseDescriptors(
    cfg: Config, workers: nat, actions: seq<Action>, states: seq<State>, n: nat, r: Runnable)
    requires Reached(cfg, workers, actions, states, n)
    requires Active(states[n], r) > 0 && !FindsDescriptor(states[n], r)
    ensures !cfg.guarded && r.kind.EWriteResponse?
    ensures var table := states[n].core.table;
            r.connection in table ==> r.serial < table[r.connection].serial
    ensures exists w :: 0 <= w < |states[n].workers| && states[n].workers[w] == Busy(r, Finishing)
  {
    RunInv(cfg, workers, actions, states, n);
    var s := states[n];
    OccursIn(Unpushed(s), r);
    OccursIn(s.core.poolQueue, r);
    assert !JobOK(cfg.app, s.core, r, Started);
    var w := HeldWitness(s.workers, true, r);
    assert s.workers[w] == Busy(r, Finishing);
  }

  /** A worker is at the runnable of the current grant of `h`, which has only to be unlocked. */
  ghost predicate FinishingAt(s: State, w: nat, h: int, serial: nat) {
    w < |s.workers| && s.workers[w].Busy? && s.workers[w].phase.Finishing?
    && s.workers[w].r.connection == h && s.workers[w].r.serial == serial
  }

  lemma LockedIsFinishing(cfg: Config, s: State, h: int) returns (w: nat)
    requires TableInv(cfg, s.core) && LockInv(s) && QueuedInv(cfg.app, s) && WorkersInv(cfg, s)
    requires h in s.core.table && s.core.table[h].state.CNeedClose? && s.core.table[h].accessLock
    ensures FinishingAt(s, w, h, s.core.table[h].serial)
  {
    assert HasSerial(s, s.core.table[h].serial);
    var r :| Active(s, r) > 0 && r.serial == s.core.table[h].serial;
    OccursIn(Unpushed(s), r);
    OccursIn(s.core.poolQueue, r);
    assert r in Unpushed(s) || r in s.core.poolQueue ==> JobOK(cfg.app, s.core, r, Started);
    w := HeldWitness(s.workers, true, r);
  }

  lemma FinishingIsLocked(cfg: Config, s: State, w: nat, h: int)
    requires WorkersInv(cfg, s)
    requires h in s.core.table && FinishingAt(s, w, h, s.core.table[h].serial)
    ensures s.core.table[h].accessLock
  {
    assert IsActive(s.workers[w]);
  }

  /** Unlocking by worker `w` ends the process, for want of the descriptor of `h`. */
  ghost predicate Stranded(cfg: Config, s: State, w: nat, h: int, serial: nat) {
    && FinishingAt(s, w, h, serial) && s.crash.None?
    && Step(cfg, s, Unlock(w)).crash == Some(BadDescriptor(s.workers[w].r))
  }

  lemma ClosingStrands(cfg: Config, s: State, w: nat)
    requires s.crash.None? && s.pc.Closing? && s.pc.toClose != [] && s.pc.toClose[0] in s.core.table
    ensures var h := s.pc.toClose[0];
            var serial := s.core.table[h].serial;
            Stranded(cfg, CloseNextStep(s), w, h, serial) <==> FinishingAt(s, w, h, serial)
  {
  }

  lemma ClosingHead(cfg: Config, s: State)
    requires PcInv(cfg, s) && s.pc.Closing? && s.pc.toClose != []
    ensures s.pc.toClose[0] in s.core.table && NeedsClose(cfg, s.core.table[s.pc.toClose[0]])
  {
    var h := s.pc.toClose[0];
    assert h in s.pc.toClose;
  }

  lemma StrandsIffLocked(cfg: Config, s: State)
    requires TableInv(cfg, s.core) && LockInv(s) && QueuedInv(cfg.app, s) && WorkersInv(cfg, s)
    requires s.crash.None? && s.pc.Closing? && s.pc.toClose != [] && s.pc.toClose[0] in s.core.table
    requires s.core.table[s.pc.toClose[0]].state.CNeedClose?
    ensures var h := s.pc.toClose[0];
            s.core.table[h].accessLock
            <==> exists w :: Stranded(cfg, CloseNextStep(s), w, h, s.core.table[h].serial)
  {
    var h := s.pc.toClose[0];
    if s.core.table[h].accessLock {
      var w := LockedIsFinishing(cfg, s, h);
      ClosingStrands(cfg, s, w);
    }
    forall w | Stranded(cfg, CloseNextStep(s), w, h, s.core.table[h].serial) ensures s.core.table[h].accessLock {
      ClosingStrands(cfg, s, w);
      FinishingIsLocked(cfg, s, w, h);
    }
  }

  /** Closing a connection strands its runnable, so that the unlocking would end the process, if and only if
      the connection is locked at that moment. */
  lemma ClosingStrandsIffLocked(
    cfg: Config, workers: nat, actions: seq<Action>, states: seq<State>, n: nat)
    requires Reached(cfg, workers, actions, states, n)
    requires states[n].pc.Closing? && states[n].pc.toClose != []
    ensures states[n].pc.toClose[0] in states[n].core.table
    ensures var d := states[n].core.table[states[n].pc.toClose[0]];
            d.accessLock
            <==> exists w :: Stranded(cfg, CloseNextStep(states[n]), w, states[n].pc.toClose[0], d.serial)
  {
    RunInv(cfg, workers, actions, states, n);
    ClosingHead(cfg, states[n]);
    StrandsIffLocked(cfg, states[n]);
  }
}
