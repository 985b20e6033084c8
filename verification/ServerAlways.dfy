/** What holds in every state of every run, whatever the application does and however handlers are granted
    again: who owns the runnables, and which connections there are. */
module ServerAlways {
  import opened Common
  import opened HandlerAllocator
  import opened ServerState
  import opened ServerSteps
  import opened ServerInvariant
  import opened ServerWorkers
  import opened ServerMain

  // ----- crashes -----

  /** A step that ends the process does nothing else. */
  lemma DyingChangesNothing(cfg: Config, s: State, a: Action)
    requires Enabled(s, a) && Step(cfg, s, a).crash.Some?
    ensures Step(cfg, s, a) == Die(s, Step(cfg, s, a).crash.value)
  {
  }

  // ----- the runnables -----

  /** The runnables are where they belong, and the main thread hands them over in time. */
  ghost predicate PlacesInv(s: State) {
    && OwnInv(s)
    && match s.pc
       case Events(_, _) => true
       case Connecting(_, _, _) => true
       case Committing(_, _, _) => true
       case Scheduling(i) => i <= |s.core.runnables|
       case _ => s.core.runnables == []
  }

  ghost predicate SameLists(c: Core, c': Core) {
    && c'.runnables == c.runnables && c'.inProcess == c.inProcess && c'.poolQueue == c.poolQueue
    && c'.doneQueue == c.doneQueue && c'.created == c.created
  }

  lemma SameListsKeepPlaces(s: State, s': State)
    requires OwnInv(s) && SameLists(s.core, s'.core) && s'.workers == s.workers
    requires Unpushed(s') == Unpushed(s) && BeingErased(s') == BeingErased(s)
    ensures OwnInv(s')
  {
    assert SamePlaces(s, s');
    SameOwn(s, s');
  }

  lemma MovingKeepsPlaces(cfg: Config, s: State, a: Action)
    requires PlacesInv(s) && Enabled(s, a)
    requires IsPollAction(a)
    ensures PlacesInv(Step(cfg, s, a))
  {
    var s' := Step(cfg, s, a);
    assert Unpushed(s') == Unpushed(s);
    SameListsKeepPlaces(s, s');
  }

  lemma HandingKeepsPlaces(cfg: Config, s: State, a: Action)
    requires PlacesInv(s) && Enabled(s, a) && (a.PushNext? || a.DrainDone?)
    ensures PlacesInv(Step(cfg, s, a))
  {
    var s' := Step(cfg, s, a);
    if a.PushNext? {
      PushNextPlaces(s);
    } else {
      assert SamePlaces(s, s');
    }
    SameOwn(s, s');
  }

  /** "Runner was not found" is not reached. */
  lemma ErasingKeepsPlaces(s: State)
    requires PlacesInv(s) && Enabled(s, EraseNext)
    ensures PlacesInv(EraseNextStep(s)) && EraseNextStep(s).crash.None?
  {
    if s.pc.items == [] {
      SameListsKeepPlaces(s, EraseNextStep(s));
    } else {
      ErasedIsOwned(s);
      EraseKeepsOwn(s);
    }
  }

  lemma CommittingKeepsPlaces(cfg: Config, s: State)
    requires PlacesInv(s) && KeysInv(s) && Enabled(s, Commit)
    ensures PlacesInv(CommitStep(s))
  {
    if Schedules(s) {
      CommitKeepsOwn(s);
    } else {
      assert Unpushed(CommitStep(s)) == Unpushed(s);
      SameListsKeepPlaces(s, CommitStep(s));
    }
  }

  lemma JobKeepsPlaces(cfg: Config, s: State, a: Action)
    requires PlacesInv(s) && Enabled(s, a) && IsJobAction(a)
    ensures PlacesInv(Step(cfg, s, a))
  {
    var s' := Step(cfg, s, a);
    if s'.crash.Some? {
      DyingChangesNothing(cfg, s, a);
      SameListsKeepPlaces(s, s');
    } else {
      JobGoesOn(cfg, s, a);
      GoOnKeepsPlaces(s, a.w, s'.core, s'.workers[a.w].phase);
      SameOwn(s, s');
    }
  }

  /** Such a step changes the connection, the grant and the phase of its runnable, and nothing else. */
  lemma JobGoesOn(cfg: Config, s: State, a: Action)
    requires Enabled(s, a) && IsJobAction(a) && Step(cfg, s, a).crash.None?
    ensures var s' := Step(cfg, s, a);
            && s'.workers[a.w].Busy? && !s'.workers[a.w].phase.Unlocked?
            && s' == GoOn(s, a.w, s'.core, s'.workers[a.w].phase)
            && SameLists(s.core, s'.core)
            && SameTable(s.core, s'.core, s.workers[a.w].r.connection)
  {
  }

  /** The connections are the same, each of the same grant, and those besides `h` unchanged. */
  ghost predicate SameTable(c: Core, c': Core, h: int) {
    && c'.mainSock == c.mainSock && c'.comm == c.comm && |c'.history| == |c.history|
    && c'.table.Keys == c.table.Keys
    && (forall k :: k in c.table ==> c'.table[k].serial == c.table[k].serial)
    && (forall k :: k in c.table && k != h ==> c'.table[k] == c.table[k])
  }

  lemma PoolKeepsPlaces(cfg: Config, s: State, a: Action)
    requires PlacesInv(s) && Enabled(s, a) && IsPoolAction(a)
    ensures PlacesInv(Step(cfg, s, a))
  {
    var s' := Step(cfg, s, a);
    if a.Pop? {
      PopKeepsPlaces(s, a.w);
      SameOwn(s, s');
    } else if a.Finish? {
      FinishKeepsPlaces(s, a.w);
      SameOwn(s, s');
    } else if s'.crash.Some? {
      SameListsKeepPlaces(s, s');
    } else {
      UnlockKeepsOwn(s, a.w);
    }
  }

  lemma PlacesKept(cfg: Config, s: State, a: Action)
    requires PlacesInv(s) && KeysInv(s) && Enabled(s, a)
    ensures PlacesInv(Step(cfg, s, a))
  {
    if IsJobAction(a) {
      JobKeepsPlaces(cfg, s, a);
    } else if IsPoolAction(a) {
      PoolKeepsPlaces(cfg, s, a);
    } else if a.PushNext? || a.DrainDone? {
      HandingKeepsPlaces(cfg, s, a);
    } else if a.EraseNext? {
      ErasingKeepsPlaces(s);
    } else if a.Commit? {
      CommittingKeepsPlaces(cfg, s);
    } else {
      MovingKeepsPlaces(cfg, s, a);
    }
  }

  // ----- the connections -----

  /** The connections are those polled and the listening socket, which no one ever closes. */
  ghost predicate KeysInv(s: State) {
    && (forall h :: h in s.core.table <==> h == s.core.mainSock || h in s.core.comm)
    && NoDup(s.core.comm) && s.core.mainSock !in s.core.comm
    && (forall h :: h in s.core.table ==> s.core.table[h].serial < |s.core.history|)
    && s.core.table[s.core.mainSock].state.CNone?
    && (forall r :: Owned(s.core, r) > 0 ==> r.connection != s.core.mainSock)
    && match s.pc
       case Scanning(_, found) => s.core.mainSock !in found
       case Closing(toClose) => s.core.mainSock !in toClose
       case Events(readable, writable) => Known(s.core, readable) && Known(s.core, writable)
       case Connecting(h, readable, writable) =>
         h in s.core.comm && Known(s.core, readable) && Known(s.core, writable)
       case Committing(h, readable, writable) =>
         h in s.core.comm && Known(s.core, readable) && Known(s.core, writable)
       case _ => true
  }

  lemma ScanningKeepsKeys(cfg: Config, s: State, a: Action)
    requires KeysInv(s) && Enabled(s, a) && IsLookAction(a)
    ensures KeysInv(Step(cfg, s, a)) && Step(cfg, s, a).crash.None?
  {
  }

  lemma ClosingKeepsKeys(s: State)
    requires KeysInv(s) && Enabled(s, CloseNext)
    ensures KeysInv(CloseNextStep(s))
  {
    if s.pc.toClose != [] {
      assert s.pc.toClose[0] in s.pc.toClose;
      ClosedKeys(s.core, s.pc.toClose[0]);
      ClosedTable(s.core, s.pc.toClose[0]);
    }
  }

  lemma ClosedKeys(c: Core, h: int)
    requires (forall k :: k in c.table <==> k == c.mainSock || k in c.comm) && NoDup(c.comm)
    requires h != c.mainSock
    ensures var c' := CloseServerConnection(c, h);
            && (forall k :: k in c'.table <==> k == c'.mainSock || k in c'.comm) && NoDup(c'.comm)
            && (forall k :: k in c'.comm ==> k in c.comm)
  {
    RemoveFirstNoDup(c.comm, h);
    ClosedTable(c, h);
  }

  lemma ClosedTable(c: Core, h: int)
    ensures var c' := CloseServerConnection(c, h);
            && SameLists(c, c') && c'.mainSock == c.mainSock && |c'.history| == |c.history|
            && c'.comm == RemoveFirst(c.comm, h)
            && (forall k :: k in c'.table <==> k in c.table && k != h)
            && (forall k :: k in c'.table ==> c'.table[k] == c.table[k])
  {
  }

  lemma AcceptingKeepsKeys(cfg: Config, s: State, next: MainPc)
    requires KeysInv(s) && s.crash.None? && s.pc.Events? && next.Events?
    requires Known(s.core, next.readable) && Known(s.core, next.writable)
    ensures var s' := AcceptStep(cfg, s, next);
            KeysInv(s') && s'.crash != Some(InvalidHandler)
  {
  }

  lemma EventKeepsKeys(cfg: Config, s: State)
    requires KeysInv(s) && Enabled(s, NextEvent)
    ensures var s' := NextEventStep(cfg, s);
            KeysInv(s') && s'.crash != Some(InvalidHandler)
  {
    if s.pc.readable != [] {
      assert s.pc.readable[0] in s.pc.readable;
      if s.pc.readable[0] == s.core.mainSock {
        AcceptingKeepsKeys(cfg, s, Events(s.pc.readable[1..], s.pc.writable));
      }
    } else if s.pc.writable != [] {
      assert s.pc.writable[0] in s.pc.writable;
    }
  }

  lemma ConnectingKeepsKeys(s: State)
    requires KeysInv(s) && Enabled(s, FinishConnect)
    ensures KeysInv(FinishConnectStep(s)) && FinishConnectStep(s).crash.None?
  {
  }

  lemma CommittingKeepsKeys(s: State)
    requires KeysInv(s) && Enabled(s, Commit)
    ensures KeysInv(CommitStep(s)) && CommitStep(s).crash.None?
  {
    if Schedules(s) {
      CommitAdds(s);
      ScheduledCore(s);
    }
  }

  lemma HandingKeepsKeys(cfg: Config, s: State, a: Action)
    requires KeysInv(s) && PlacesInv(s) && Enabled(s, a) && IsHandOverAction(a)
    ensures KeysInv(Step(cfg, s, a)) && Step(cfg, s, a).crash.None?
  {
    if a.PushNext? {
      PushNextPlaces(s);
    } else if a.EraseNext? {
      ErasingKeepsPlaces(s);
      if s.pc.items != [] {
        ErasedIsOwned(s);
        ErasePlaces(s);
      }
    }
  }

  lemma WorkerIsOwner(s: State, w: nat)
    requires OwnInv(s) && w < |s.workers| && s.workers[w].Busy?
    ensures Owned(s.core, s.workers[w].r) == 1
  {
    HeldUpdate(s.workers, w, Idle, IsActive(s.workers[w]), s.workers[w].r);
    assert Owned(s.core, s.workers[w].r) <= 1;
  }

  lemma OthersKeepKeys(s: State, s': State, h: int)
    requires KeysInv(s) && SameTable(s.core, s'.core, h) && h != s.core.mainSock && s'.pc == s.pc
    requires forall r :: Owned(s'.core, r) == Owned(s.core, r)
    ensures KeysInv(s')
  {
  }

  lemma JobKeepsKeys(cfg: Config, s: State, a: Action)
    requires KeysInv(s) && PlacesInv(s) && Enabled(s, a) && IsJobAction(a)
    ensures KeysInv(Step(cfg, s, a)) && Step(cfg, s, a).crash != Some(InvalidHandler)
  {
    var s' := Step(cfg, s, a);
    WorkerIsOwner(s, a.w);
    if s'.crash.None? {
      JobGoesOn(cfg, s, a);
      OthersKeepKeys(s, s', s.workers[a.w].r.connection);
    } else {
      DyingChangesNothing(cfg, s, a);
    }
  }

  lemma PoolKeepsKeys(cfg: Config, s: State, a: Action)
    requires KeysInv(s) && PlacesInv(s) && Enabled(s, a) && IsPoolAction(a)
    ensures KeysInv(Step(cfg, s, a)) && Step(cfg, s, a).crash != Some(InvalidHandler)
  {
    var s' := Step(cfg, s, a);
    if s'.crash.Some? {
      DyingChangesNothing(cfg, s, a);
    } else if a.Unlock? {
      UnlockKeepsKeys(s, a.w);
    }
  }

  lemma UnlockKeepsKeys(s: State, w: nat)
    requires KeysInv(s) && OwnInv(s)
    requires w < |s.workers| && s.workers[w].Busy? && s.workers[w].r.connection in s.core.table
    ensures KeysInv(UnlockStep(s, w))
  {
    WorkerIsOwner(s, w);
    OthersKeepKeys(s, UnlockStep(s, w), s.workers[w].r.connection);
  }

  lemma KeysKept(cfg: Config, s: State, a: Action)
    requires KeysInv(s) && PlacesInv(s) && Enabled(s, a)
    ensures KeysInv(Step(cfg, s, a)) && Step(cfg, s, a).crash != Some(InvalidHandler)
  {
    if IsJobAction(a) {
      JobKeepsKeys(cfg, s, a);
    } else if IsPoolAction(a) {
      PoolKeepsKeys(cfg, s, a);
    } else if IsLookAction(a) {
      ScanningKeepsKeys(cfg, s, a);
    } else if a.CloseNext? {
      ClosingKeepsKeys(s);
    } else if a.NextEvent? {
      EventKeepsKeys(cfg, s);
    } else if a.FinishConnect? {
      ConnectingKeepsKeys(s);
    } else if a.Commit? {
      CommittingKeepsKeys(s);
    } else {
      HandingKeepsKeys(cfg, s, a);
    }
  }

  // ----- runs -----

  /** `Start` gives the listening socket the handler 1. */
  lemma InitialIs(space: Space, workers: nat)
    ensures Initial(space, workers)
         == State(Core(map[1 := Descriptor(CNone, false, None, 0)], 1, 1, [], [], [], [], [], 0,
                       [Grant(1, 1, [], [], [], [], false)]),
                  LoopHead, seq(workers, _ => Idle), None)
  {
    assert At(space, 0) == 0 && At(space, 1) == Advance(space, 0) == 1;
    assert !InUse(space, {}, 0, 1);
    assert Search(space, {}, 0) == 1;
    assert EMPTY_CORE.table.Keys == {};
  }

  lemma InitialPlaces(cfg: Config, workers: nat)
    ensures var s := Initial(cfg.space, workers);
            && s.crash.None? && s.core.mainSock == 1
            && PlacesInv(s) && KeysInv(s) && NothingToSend(s)
  {
    InitialIs(cfg.space, workers);
    var s := Initial(cfg.space, workers);
    forall r ensures Active(s, r) == 0 && Done(s, r) == 0 && Owned(s.core, r) == 0 {
      if Held(s.workers, true, r) > 0 {
        var w := HeldWitness(s.workers, true, r);
      }
      if Held(s.workers, false, r) > 0 {
        var w := HeldWitness(s.workers, false, r);
      }
    }
  }

  lemma {:induction false} RunAlways(cfg: Config, workers: nat, actions: seq<Action>, states: seq<State>, n: nat)
    requires IsRun(cfg, workers, actions, states) && n < |states|
    ensures PlacesInv(states[n]) && KeysInv(states[n])
    ensures states[n].crash != Some(InvalidHandler)
  {
    if n == 0 {
      InitialPlaces(cfg, workers);
    } else {
      RunAlways(cfg, workers, actions, states, n - 1);
      PlacesKept(cfg, states[n - 1], actions[n - 1]);
      KeysKept(cfg, states[n - 1], actions[n - 1]);
    }
  }

  // ----- ownership -----

  ghost predicate InHand(s: State, r: Runnable) {
    r in s.core.poolQueue || r in s.core.doneQueue || r in BeingErased(s)
  }

  lemma EveryoneIsFound(cfg: Config, s: State, a: Action)
    requires PlacesInv(s) && Enabled(s, a)
    ensures var s' := Step(cfg, s, a); s'.crash.Some? ==> !s'.crash.value.RunnerNotFound?
  {
    if a.EraseNext? {
      ErasingKeepsPlaces(s);
    }
  }

  /** In every state of every run the two owning lists hold, once each, exactly the runnables that are
      somewhere on their way; so a runnable that some queue, worker or scan still has in hand is not
      erased, and "Runner was not found" is never thrown. */
  lemma OwnershipConserved(cfg: Config, workers: nat, actions: seq<Action>, states: seq<State>, n: nat)
    requires IsRun(cfg, workers, actions, states) && n < |states|
    ensures forall r :: Owned(states[n].core, r) == Active(states[n], r) + Done(states[n], r) <= 1
    ensures forall w :: 0 <= w < |states[n].workers| && states[n].workers[w].Busy? ==>
              Owned(states[n].core, states[n].workers[w].r) == 1
    ensures forall r :: InHand(states[n], r) ==> Owned(states[n].core, r) == 1
    ensures states[n].crash.Some? ==> !states[n].crash.value.RunnerNotFound?
  {
    RunAlways(cfg, workers, actions, states, n);
    var s := states[n];
    forall w | 0 <= w < |s.workers| && s.workers[w].Busy? ensures Owned(s.core, s.workers[w].r) == 1 {
      WorkerIsOwner(s, w);
    }
    forall r | InHand(s, r)
      ensures Owned(s.core, r) == 1
    {
      OccursIn(s.core.poolQueue, r);
      OccursIn(s.core.doneQueue, r);
      OccursIn(BeingErased(s), r);
    }
    if n == 0 {
      InitialPlaces(cfg, workers);
    } else {
      RunAlways(cfg, workers, actions, states, n - 1);
      EveryoneIsFound(cfg, states[n - 1], actions[n - 1]);
    }
  }

  // ----- the table -----

  /** The polled handlers and the listening socket are the keys of the table, each once, and every handler
      the main thread has still to serve in this iteration is in the table. */
  ghost predicate TableAgrees(s: State) {
    && (forall h :: h in s.core.table <==> h == s.core.mainSock || h in s.core.comm)
    && NoDup(s.core.comm) && s.core.mainSock !in s.core.comm
    && match s.pc
       case Events(readable, writable) => Known(s.core, readable) && Known(s.core, writable)
       case Connecting(h, readable, writable) =>
         h in s.core.table && Known(s.core, readable) && Known(s.core, writable)
       case Committing(h, readable, writable) =>
         h in s.core.table && Known(s.core, readable) && Known(s.core, writable)
       case _ => true
  }

  /** In every state of every run the table agrees with what the main thread polls and serves; so none of
      its look-ups fails. */
  lemma TableAgreement(cfg: Config, workers: nat, actions: seq<Action>, states: seq<State>, n: nat)
    requires IsRun(cfg, workers, actions, states) && n < |states|
    ensures TableAgrees(states[n])
    ensures states[n].crash != Some(InvalidHandler)
  {
    RunAlways(cfg, workers, actions, states, n);
  }

  // ----- sending data -----

  /** Every response asks for its connection to be closed, and nothing is ever left to be sent. */
  ghost predicate NothingToSend(s: State) {
    && (forall h :: h in s.core.table ==> !s.core.table[h].state.CDataSending?)
    && (forall r :: Owned(s.core, r) > 0 ==> !r.kind.ESendData?)
    && (forall w :: 0 <= w < |s.workers| ==> Closes(s.workers[w]))
  }

  predicate Closes(k: Worker) {
    k.Busy? ==>
      match k.phase
      case Responding(response) => response.closeAfterSending
      case Sent(response) => response.closeAfterSending
      case _ => true
  }

  lemma MovingSendsNothing(cfg: Config, s: State, a: Action)
    requires NothingToSend(s) && Enabled(s, a)
    requires IsPollAction(a)
    ensures NothingToSend(Step(cfg, s, a))
  {
    assert SameLists(s.core, Step(cfg, s, a).core);
  }

  lemma CommittingSendsNothing(s: State)
    requires NothingToSend(s) && KeysInv(s) && Enabled(s, Commit)
    ensures NothingToSend(CommitStep(s))
  {
    if Schedules(s) {
      CommitAdds(s);
      ScheduledCore(s);
    }
  }

  lemma HandingSendsNothing(cfg: Config, s: State, a: Action)
    requires NothingToSend(s) && PlacesInv(s) && Enabled(s, a)
    requires IsHandOverAction(a)
    ensures NothingToSend(Step(cfg, s, a))
  {
    if a.PushNext? {
      PushNextPlaces(s);
    } else if a.EraseNext? && s.pc.items != [] {
      ErasedIsOwned(s);
      ErasePlaces(s);
    }
  }

  lemma JobSendsNothing(cfg: Config, s: State, a: Action)
    requires AlwaysCloses(cfg.app) && NothingToSend(s) && Enabled(s, a) && IsJobAction(a)
    ensures NothingToSend(Step(cfg, s, a))
  {
    var s' := Step(cfg, s, a);
    assert Closes(s.workers[a.w]);
    if s'.crash.None? {
      JobGoesOn(cfg, s, a);
      JobCloses(cfg, s, a);
    } else {
      DyingChangesNothing(cfg, s, a);
    }
  }

  lemma JobCloses(cfg: Config, s: State, a: Action)
    requires AlwaysCloses(cfg.app) && Enabled(s, a) && IsJobAction(a) && Closes(s.workers[a.w])
    requires Step(cfg, s, a).crash.None?
    ensures var s', h := Step(cfg, s, a), s.workers[a.w].r.connection;
            && Closes(s'.workers[a.w]) && h in s.core.table && h in s'.core.table
            && (s'.core.table[h].state.CDataSending? ==> s.core.table[h].state.CDataSending?)
  {
    if IsRecordingAction(a) {
      RecordingCloses(cfg, s, a);
    }
  }

  lemma RecordingCloses(cfg: Config, s: State, a: Action)
    requires AlwaysCloses(cfg.app) && Enabled(s, a) && IsRecordingAction(a) && Closes(s.workers[a.w])
    requires Step(cfg, s, a).crash.None?
    ensures var s', h := Step(cfg, s, a), s.workers[a.w].r.connection;
            && Closes(s'.workers[a.w]) && h in s.core.table && s'.core.table == s.core.table
  {
  }

  lemma PoolSendsNothing(cfg: Config, s: State, a: Action)
    requires NothingToSend(s) && PlacesInv(s) && Enabled(s, a) && IsPoolAction(a)
    ensures NothingToSend(Step(cfg, s, a)) && !a.RunSendData?
  {
    if !a.Pop? {
      WorkerIsOwner(s, a.w);
    }
  }

  lemma StepSendsNothing(cfg: Config, s: State, a: Action)
    requires AlwaysCloses(cfg.app)
    requires NothingToSend(s) && PlacesInv(s) && KeysInv(s) && Enabled(s, a)
    ensures NothingToSend(Step(cfg, s, a)) && !a.RunSendData?
  {
    if IsJobAction(a) {
      JobSendsNothing(cfg, s, a);
    } else if IsPoolAction(a) {
      PoolSendsNothing(cfg, s, a);
    } else if IsHandOverAction(a) {
      HandingSendsNothing(cfg, s, a);
    } else if a.Commit? {
      CommittingSendsNothing(s);
    } else {
      MovingSendsNothing(cfg, s, a);
    }
  }

  /** `CDataSending` is never set, and the `assert(false)` of the send-data runnable never reached. */
  lemma {:induction false} NeverSendsData(
    cfg: Config, workers: nat, actions: seq<Action>, states: seq<State>, n: nat)
    requires AlwaysCloses(cfg.app) && IsRun(cfg, workers, actions, states) && n < |states|
    ensures NothingToSend(states[n])
    ensures n < |actions| ==> !actions[n].RunSendData?
  {
    RunAlways(cfg, workers, actions, states, n);
    if n == 0 {
      InitialPlaces(cfg, workers);
    } else {
      NeverSendsData(cfg, workers, actions, states, n - 1);
      RunAlways(cfg, workers, actions, states, n - 1);
      StepSendsNothing(cfg, states[n - 1], actions[n - 1]);
    }
    if n < |actions| {
      StepSendsNothing(cfg, states[n], actions[n]);
    }
  }
}
