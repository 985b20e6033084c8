/** The steps of the main thread keep the invariant. */
module ServerMain {
  import opened Common
  import opened ServerState
  import opened ServerSteps
  import opened ServerInvariant
  import opened ServerWorkers

  // ----- steps that move no runnable -----

  /** `s'` has the connections, lists and workers of `s`, and the main thread holds the same runnables. */
  ghost predicate OnlyPcChanges(s: State, s': State) {
    && s' == s.(pc := s'.pc)
    && Unpushed(s') == Unpushed(s) && BeingErased(s') == BeingErased(s)
    && !s.pc.Connecting? && !s'.pc.Connecting?
  }

  lemma PcChangeInv(cfg: Config, s: State, s': State)
    requires Inv(cfg, s) && OnlyPcChanges(s, s') && PcInv(cfg, s')
    ensures Inv(cfg, s')
  {
    SameOwn(s, s');
    SameLocks(s, s');
  }

  lemma BeginScanInv(cfg: Config, s: State, order: seq<int>)
    requires Inv(cfg, s) && Enabled(s, BeginScan(order))
    ensures Inv(cfg, s.(pc := Scanning(order, [])))
  {
    assert [] + order == order;
    PcChangeInv(cfg, s, s.(pc := Scanning(order, [])));
  }

  lemma ScanNextInv(cfg: Config, s: State)
    requires Inv(cfg, s) && Enabled(s, ScanNext)
    ensures Inv(cfg, ScanNextStep(cfg, s))
  {
    ScanNextPc(cfg, s);
    PcChangeInv(cfg, s, ScanNextStep(cfg, s));
  }

  lemma ScanNextPc(cfg: Config, s: State)
    requires PcInv(cfg, s) && s.pc.Scanning?
    ensures PcInv(cfg, ScanNextStep(cfg, s))
  {
    var rest, found := s.pc.rest, s.pc.found;
    if rest != [] {
      assert (found + [rest[0]]) + rest[1..] == found + rest;
      ScanFound(found, rest);
    }
  }

  lemma ScanFound(found: seq<int>, rest: seq<int>)
    requires rest != [] && NoDup(found + rest)
    ensures NoDup(found + [rest[0]]) && NoDup(found + rest[1..])
  {
    var all := found + rest;
    assert found + [rest[0]] == all[..|found| + 1];
    assert found + rest[1..] == all[..|found|] + all[|found| + 1..];
    RemoveAtNoDup(all, |found|);
  }

  lemma SelectInv(cfg: Config, s: State, readable: seq<int>, writable: seq<int>)
    requires Inv(cfg, s) && Enabled(s, Select(readable, writable))
    ensures Inv(cfg, SelectStep(s, readable, writable))
  {
    PcChangeInv(cfg, s, SelectStep(s, readable, writable));
  }

  // ----- who is active -----

  /** Every active runnable finds its connection as its phase wants it, or is an orphan. */
  lemma ActiveJob(cfg: Config, s: State, r: Runnable) returns (phase: Phase)
    requires QueuedInv(cfg.app, s) && WorkersInv(cfg, s)
    requires Active(s, r) > 0
    ensures JobOK(cfg.app, s.core, r, phase) || (!cfg.guarded && Orphan(s.core, r, phase))
  {
    OccursIn(Unpushed(s), r);
    OccursIn(s.core.poolQueue, r);
    if r in Unpushed(s) || r in s.core.poolQueue {
      phase := Started;
    } else {
      var w := HeldWitness(s.workers, true, r);
      phase := s.workers[w].phase;
    }
  }

  /** No runnable is active for a connection that is not locked. */
  lemma UnlockedIsFree(cfg: Config, s: State, h: int, r: Runnable)
    requires TableInv(cfg, s.core) && QueuedInv(cfg.app, s) && WorkersInv(cfg, s)
    requires h in s.core.table && !s.core.table[h].accessLock
    requires Active(s, r) > 0
    ensures r.serial != s.core.table[h].serial
  {
    var phase := ActiveJob(cfg, s, r);
  }

  /** A connection ready to be closed has been answered; if it is still locked, by a write runnable
      that has only to unlock it. */
  lemma ClosableIsAnswered(cfg: Config, s: State, h: int)
    requires TableInv(cfg, s.core) && LockInv(s)
    requires RestInv(cfg.app, s) && QueuedInv(cfg.app, s) && WorkersInv(cfg, s)
    requires h in s.core.table && s.core.table[h].state.CNeedClose?
    ensures var g := s.core.history[s.core.table[h].serial];
            Answered(cfg.app, g) && g.scheduled == [EReadRequest, EWriteResponse]
  {
    if s.core.table[h].accessLock {
      assert HasSerial(s, s.core.table[h].serial);
      var r :| Active(s, r) > 0 && r.serial == s.core.table[h].serial;
      var phase := ActiveJob(cfg, s, r);
    }
  }

  // ----- closing -----

  lemma CloseKeepsTable(cfg: Config, c: Core, h: int)
    requires TableInv(cfg, c) && TickInv(cfg, c)
    requires h in c.table && h != c.mainSock
    ensures TableInv(cfg, CloseServerConnection(c, h)) && TickInv(cfg, CloseServerConnection(c, h))
  {
    RemoveFirstNoDup(c.comm, h);
  }

  lemma CloseKeepsHistory(cfg: Config, c: Core, h: int)
    requires TableInv(cfg, c) && HistoryInv(cfg.app, c)
    requires h in c.table && h != c.mainSock
    requires var g := c.history[c.table[h].serial];
             Answered(cfg.app, g) && g.scheduled == [EReadRequest, EWriteResponse]
    ensures HistoryInv(cfg.app, CloseServerConnection(c, h))
  {
    assert c.table[h].serial != 0;
    var g := c.history[c.table[h].serial];
    assert GrantOK(cfg.app, g);
    assert GrantOK(cfg.app, g.(closed := true));
  }

  lemma CloseKeepsJob(cfg: Config, c: Core, h: int, r: Runnable, phase: Phase)
    requires TableInv(cfg, c)
    requires h in c.table && r.connection != h
    requires JobOK(cfg.app, c, r, phase)
    ensures JobOK(cfg.app, CloseServerConnection(c, h), r, phase)
  {
    assert r.serial != c.table[h].serial;
  }

  lemma CloseKeepsQueued(cfg: Config, s: State, s': State)
    requires TableInv(cfg, s.core) && QueuedInv(cfg.app, s)
    requires s.pc.Closing? && s.pc.toClose != [] && s' == CloseNextStep(s)
    requires s.pc.toClose[0] in s.core.table && s.core.table[s.pc.toClose[0]].state.CNeedClose?
    ensures QueuedInv(cfg.app, s')
  {
    var h := s.pc.toClose[0];
    assert Unpushed(s') == Unpushed(s);
    forall r | r in Unpushed(s) || r in s.core.poolQueue ensures JobOK(cfg.app, s'.core, r, Started) {
      assert JobOK(cfg.app, s.core, r, Started);
      CloseKeepsJob(cfg, s.core, h, r, Started);
    }
  }

  /** Closing leaves at most the write runnable that is about to unlock without its connection. */
  lemma CloseKeepsWorkers(cfg: Config, s: State, s': State)
    requires TableInv(cfg, s.core) && WorkersInv(cfg, s)
    requires s.pc.Closing? && s.pc.toClose != [] && s' == CloseNextStep(s)
    requires s.pc.toClose[0] in s.core.table && NeedsClose(cfg, s.core.table[s.pc.toClose[0]])
    ensures WorkersInv(cfg, s')
  {
    var h := s.pc.toClose[0];
    forall w | 0 <= w < |s'.workers| && IsActive(s'.workers[w])
      ensures || JobOK(cfg.app, s'.core, s'.workers[w].r, s'.workers[w].phase)
              || (!cfg.guarded && Orphan(s'.core, s'.workers[w].r, s'.workers[w].phase))
    {
      var r, phase := s.workers[w].r, s.workers[w].phase;
      if JobOK(cfg.app, s.core, r, phase) && r.connection != h {
        CloseKeepsJob(cfg, s.core, h, r, phase);
      }
    }
  }

  lemma CloseKeepsRest(cfg: Config, s: State, s': State)
    requires TableInv(cfg, s.core) && RestInv(cfg.app, s) && PcInv(cfg, s)
    requires s.pc.Closing? && s.pc.toClose != [] && s' == CloseNextStep(s)
    requires s.pc.toClose[0] in s.core.table && s.pc.toClose[0] != s.core.mainSock
    ensures RestInv(cfg.app, s') && PcInv(cfg, s')
  {
  }

  lemma CloseNextInv(cfg: Config, s: State)
    requires Inv(cfg, s) && Enabled(s, CloseNext)
    ensures Inv(cfg, CloseNextStep(s))
  {
    var s' := CloseNextStep(s);
    if s.pc.toClose == [] {
      PcChangeInv(cfg, s, s');
    } else {
      var h := s.pc.toClose[0];
      assert h in s.pc.toClose;
      ClosableIsAnswered(cfg, s, h);
      CloseKeepsTable(cfg, s.core, h);
      CloseKeepsHistory(cfg, s.core, h);
      CloseKeepsQueued(cfg, s, s');
      CloseKeepsWorkers(cfg, s, s');
      CloseKeepsRest(cfg, s, s');
      SameOwn(s, s');
      SameLocks(s, s');
    }
  }

  // ----- accepting -----

  lemma AcceptKeepsKeys(cfg: Config, c: Core)
    requires TableInv(cfg, c) && AcceptConnection(cfg.space, c).0.Some?
    ensures TableInv(cfg, AcceptConnection(cfg.space, c).1)
  {
  }

  lemma AcceptKeepsHistory(cfg: Config, c: Core)
    requires TickInv(cfg, c) && HistoryInv(cfg.app, c) && AcceptConnection(cfg.space, c).0.Some?
    ensures TickInv(cfg, AcceptConnection(cfg.space, c).1)
    ensures HistoryInv(cfg.app, AcceptConnection(cfg.space, c).1)
  {
  }

  lemma AcceptKeepsTable(cfg: Config, c: Core)
    requires TableInv(cfg, c) && TickInv(cfg, c) && HistoryInv(cfg.app, c)
    ensures var (h, c') := AcceptConnection(cfg.space, c);
            h.Some? ==> TableInv(cfg, c') && TickInv(cfg, c') && HistoryInv(cfg.app, c')
  {
    if AcceptConnection(cfg.space, c).0.Some? {
      AcceptKeepsKeys(cfg, c);
      AcceptKeepsHistory(cfg, c);
    }
  }

  lemma AcceptKeepsJob(cfg: Config, c: Core, r: Runnable, phase: Phase)
    requires JobOK(cfg.app, c, r, phase)
    requires AcceptConnection(cfg.space, c).0.Some?
    ensures JobOK(cfg.app, AcceptConnection(cfg.space, c).1, r, phase)
  {
  }

  lemma AcceptKeepsJobs(cfg: Config, s: State, next: MainPc)
    requires QueuedInv(cfg.app, s) && WorkersInv(cfg, s)
    requires s.pc.Events? && s.pc.readable != [] && s.pc.readable[0] == s.core.mainSock && next.Events?
    requires s.core.mainSock in s.core.table && AcceptConnection(cfg.space, s.core).0.Some?
    ensures QueuedInv(cfg.app, AcceptStep(cfg, s, next)) && WorkersInv(cfg, AcceptStep(cfg, s, next))
  {
    var s' := AcceptStep(cfg, s, next);
    assert Unpushed(s') == Unpushed(s);
    forall r | r in Unpushed(s) || r in s.core.poolQueue ensures JobOK(cfg.app, s'.core, r, Started) {
      AcceptKeepsJob(cfg, s.core, r, Started);
    }
    forall w | 0 <= w < |s'.workers| && IsActive(s'.workers[w])
      ensures || JobOK(cfg.app, s'.core, s'.workers[w].r, s'.workers[w].phase)
              || (!cfg.guarded && Orphan(s'.core, s'.workers[w].r, s'.workers[w].phase))
    {
      if JobOK(cfg.app, s.core, s.workers[w].r, s.workers[w].phase) {
        AcceptKeepsJob(cfg, s.core, s.workers[w].r, s.workers[w].phase);
      }
    }
  }

  lemma AcceptKeepsRest(cfg: Config, s: State, next: MainPc)
    requires TableInv(cfg, s.core) && RestInv(cfg.app, s) && PcInv(cfg, s)
    requires s.pc.Events? && next.Events? && Known(s.core, next.readable) && Known(s.core, next.writable)
    requires AcceptConnection(cfg.space, s.core).0.Some?
    ensures RestInv(cfg.app, AcceptStep(cfg, s, next)) && PcInv(cfg, AcceptStep(cfg, s, next))
  {
    var c' := AcceptStep(cfg, s, next).core;
    forall h | h in s.core.table
      ensures h in c'.table
      ensures GrantAt(c'.history, s.core.table[h].serial) == GrantAt(s.core.history, s.core.table[h].serial)
    {
    }
  }

  /** Accepting fails when all handlers but one are in use, and otherwise keeps the invariant. */
  lemma AcceptInv(cfg: Config, s: State, next: MainPc)
    requires Inv(cfg, s)
    requires s.pc.Events? && s.pc.readable != [] && s.pc.readable[0] == s.core.mainSock
    requires next == Events(s.pc.readable[1..], s.pc.writable)
    ensures var s' := AcceptStep(cfg, s, next);
            if AcceptConnection(cfg.space, s.core).0.Some? then Inv(cfg, s')
            else s'.crash == Some(HandlersExhausted)
  {
    if AcceptConnection(cfg.space, s.core).0.Some? {
      var s' := AcceptStep(cfg, s, next);
      AcceptKeepsTable(cfg, s.core);
      AcceptKeepsJobs(cfg, s, next);
      AcceptKeepsRest(cfg, s, next);
      AcceptKeepsPlaces(cfg, s, next);
    }
  }

  lemma AcceptKeepsPlaces(cfg: Config, s: State, next: MainPc)
    requires OwnInv(s) && LockInv(s) && s.core.mainSock in s.core.table
    requires s.pc.Events? && next.Events? && AcceptConnection(cfg.space, s.core).0.Some?
    ensures OwnInv(AcceptStep(cfg, s, next)) && LockInv(AcceptStep(cfg, s, next))
  {
    var s' := AcceptStep(cfg, s, next);
    assert Unpushed(s') == Unpushed(s);
    SameOwn(s, s');
    SameLocks(s, s');
  }

  // ----- events -----

  /** A test of the lock, or of nothing, only moves the main thread on. */
  lemma NextEventInv(cfg: Config, s: State)
    requires Inv(cfg, s) && Enabled(s, NextEvent)
    ensures var s' := NextEventStep(cfg, s);
            || Inv(cfg, s')
            || (s'.crash == Some(HandlersExhausted) && AcceptConnection(cfg.space, s.core).0.None?)
  {
    if s.pc.readable != [] && s.pc.readable[0] == s.core.mainSock {
      AcceptInv(cfg, s, Events(s.pc.readable[1..], s.pc.writable));
    } else {
      EventMove(cfg, s);
      PcChangeInv(cfg, s, NextEventStep(cfg, s));
    }
  }

  lemma EventMove(cfg: Config, s: State)
    requires TableInv(cfg, s.core) && PcInv(cfg, s) && s.pc.Events?
    requires !(s.pc.readable != [] && s.pc.readable[0] == s.core.mainSock)
    ensures OnlyPcChanges(s, NextEventStep(cfg, s)) && PcInv(cfg, NextEventStep(cfg, s))
  {
    if s.pc.readable != [] {
      assert s.pc.readable[0] in s.pc.readable;
    } else if s.pc.writable != [] {
      assert s.pc.writable[0] in s.pc.writable;
    }
  }

  lemma ConnectKeepsJob(cfg: Config, c: Core, h: int, r: Runnable, phase: Phase)
    requires h in c.table && !c.table[h].accessLock
    requires JobOK(cfg.app, c, r, phase)
    ensures JobOK(cfg.app, SetState(c, h, CNeedRequest), r, phase)
  {
  }

  lemma ConnectKeepsJobs(cfg: Config, s: State)
    requires QueuedInv(cfg.app, s) && WorkersInv(cfg, s)
    requires s.pc.Connecting? && s.pc.accepted in s.core.table
    requires !s.core.table[s.pc.accepted].accessLock
    ensures QueuedInv(cfg.app, FinishConnectStep(s)) && WorkersInv(cfg, FinishConnectStep(s))
  {
    var h, s' := s.pc.accepted, FinishConnectStep(s);
    assert Unpushed(s') == Unpushed(s);
    forall r | r in Unpushed(s) || r in s.core.poolQueue ensures JobOK(cfg.app, s'.core, r, Started) {
      ConnectKeepsJob(cfg, s.core, h, r, Started);
    }
    forall w | 0 <= w < |s'.workers| && IsActive(s'.workers[w])
      ensures || JobOK(cfg.app, s'.core, s'.workers[w].r, s'.workers[w].phase)
              || (!cfg.guarded && Orphan(s'.core, s'.workers[w].r, s'.workers[w].phase))
    {
      if JobOK(cfg.app, s.core, s.workers[w].r, s.workers[w].phase) {
        ConnectKeepsJob(cfg, s.core, h, s.workers[w].r, s.workers[w].phase);
      }
    }
  }

  lemma ConnectKeepsRest(cfg: Config, s: State)
    requires TableInv(cfg, s.core) && TickInv(cfg, s.core) && RestInv(cfg.app, s) && PcInv(cfg, s)
    requires s.pc.Connecting?
    ensures var s' := FinishConnectStep(s);
            && TableInv(cfg, s'.core) && TickInv(cfg, s'.core)
            && RestInv(cfg.app, s') && PcInv(cfg, s')
  {
  }

  /** `OnConnect` finds the descriptor just made. */
  lemma FinishConnectInv(cfg: Config, s: State)
    requires Inv(cfg, s) && Enabled(s, FinishConnect)
    ensures Inv(cfg, FinishConnectStep(s))
  {
    var s' := FinishConnectStep(s);
    ConnectKeepsJobs(cfg, s);
    ConnectKeepsRest(cfg, s);
    assert Unpushed(s') == Unpushed(s);
    SameOwn(s, s');
    SameLocks(s, s');
  }

  // ----- scheduling a runnable -----

  /** The runnable that `ScheduleRunnable` creates, and the descriptor and grant it leaves. */
  function NewRunnable(c: Core, h: int): Runnable
    requires h in c.table
  {
    Runnable(c.created, TypeFor(c.table[h].state), h, c.table[h].serial)
  }

  function LockedDescriptor(c: Core, h: int): Descriptor
    requires h in c.table
  {
    c.table[h].(accessLock := true)
  }

  function ScheduledGrant(c: Core, h: int): Grant
    requires h in c.table && c.table[h].serial < |c.history|
  {
    var g := c.history[c.table[h].serial];
    g.(scheduled := g.scheduled + [TypeFor(c.table[h].state)])
  }

  /** There is something to schedule. */
  ghost predicate Schedules(s: State) {
    && s.pc.Committing? && s.crash.None?
    && s.pc.handler in s.core.table && s.pc.handler != s.core.mainSock
    && s.core.table[s.pc.handler].serial < |s.core.history|
    && TypeFor(s.core.table[s.pc.handler].state) != ENone
  }

  /** There is something to schedule, and nothing at work there. */
  ghost predicate CanSchedule(s: State) {
    Schedules(s) && !s.core.table[s.pc.handler].accessLock
  }

  lemma ScheduledCore(s: State)
    requires Schedules(s)
    ensures var c, h := s.core, s.pc.handler;
            var t := Touch(c, NewRunnable(c, h), LockedDescriptor(c, h), ScheduledGrant(c, h));
            CommitStep(s).core
              == t.(runnables := c.runnables + [NewRunnable(c, h)], created := c.created + 1)
  {
  }

  /** The new runnable is the only one that changes place. */
  lemma CommitAdds(s: State)
    requires Schedules(s)
    ensures var s', r := CommitStep(s), NewRunnable(s.core, s.pc.handler);
            && (forall q :: Active(s', q) == Active(s, q) + if q == r then 1 else 0)
            && (forall q :: Done(s', q) == Done(s, q))
            && (forall q :: Owned(s'.core, q) == Owned(s.core, q) + if q == r then 1 else 0)
  {
    ScheduledCore(s);
    assert Unpushed(CommitStep(s)) == s.core.runnables + [NewRunnable(s.core, s.pc.handler)];
  }

  lemma CommitKeepsOwn(s: State)
    requires Schedules(s) && OwnInv(s)
    ensures OwnInv(CommitStep(s))
  {
    CommitAdds(s);
    var s', r := CommitStep(s), NewRunnable(s.core, s.pc.handler);
    assert Owned(s.core, r) == 0;
    forall q ensures Owned(s'.core, q) == Active(s', q) + Done(s', q) {
      assert Owned(s.core, q) == Active(s, q) + Done(s, q);
    }
  }

  lemma CommitKeepsLocks(cfg: Config, s: State)
    requires CanSchedule(s) && TableInv(cfg, s.core) && LockInv(s)
    requires QueuedInv(cfg.app, s) && WorkersInv(cfg, s)
    ensures LockInv(CommitStep(s))
  {
    CommitAdds(s);
    ScheduledCore(s);
    var h, s', r := s.pc.handler, CommitStep(s), NewRunnable(s.core, s.pc.handler);
    forall q | Active(s, q) > 0 ensures q.serial != r.serial {
      UnlockedIsFree(cfg, s, h, q);
    }
    forall k | k in s'.core.table && s'.core.table[k].accessLock
      ensures HasSerial(s', s'.core.table[k].serial)
    {
      if k == h {
        assert Active(s', r) > 0;
      } else {
        assert HasSerial(s, s.core.table[k].serial);
        var q :| Active(s, q) > 0 && q.serial == s.core.table[k].serial;
        assert Active(s', q) > 0;
      }
    }
  }

  /** The new runnable finds its connection as it wants it. */
  lemma NewJob(cfg: Config, s: State)
    requires CanSchedule(s) && HistoryInv(cfg.app, s.core) && RestInv(cfg.app, s)
    ensures var c, h := s.core, s.pc.handler;
            var r, g := NewRunnable(c, h), ScheduledGrant(c, h);
            GrantOK(cfg.app, g) && JobOK(cfg.app, Touch(c, r, LockedDescriptor(c, h), g), r, Started)
  {
    var c, h := s.core, s.pc.handler;
    var d, g := c.table[h], c.history[c.table[h].serial];
    assert GrantOK(cfg.app, g);
    assert RestOK(cfg.app, s.pc, h, d, g);
    assert g.scheduled + [TypeFor(d.state)]
        == if d.state.CNeedRequest? then [EReadRequest] else [EReadRequest, EWriteResponse];
  }

  lemma CommitKeepsQueued(cfg: Config, s: State)
    requires CanSchedule(s) && TableInv(cfg, s.core) && HistoryInv(cfg.app, s.core)
    requires RestInv(cfg.app, s) && QueuedInv(cfg.app, s) && WorkersInv(cfg, s)
    ensures QueuedInv(cfg.app, CommitStep(s))
  {
    var c, h, s' := s.core, s.pc.handler, CommitStep(s);
    var r, d, g := NewRunnable(c, h), LockedDescriptor(c, h), ScheduledGrant(c, h);
    ScheduledCore(s);
    NewJob(cfg, s);
    SameJob(cfg.app, Touch(c, r, d, g), s'.core, r, Started);
    assert Unpushed(s') == Unpushed(s) + [r];
    forall q | q in Unpushed(s) || q in c.poolQueue ensures JobOK(cfg.app, s'.core, q, Started) {
      OccursIn(Unpushed(s), q);
      OccursIn(c.poolQueue, q);
      UnlockedIsFree(cfg, s, h, q);
      TouchKeepsJob(cfg.app, c, r, d, g, q, Started);
      SameJob(cfg.app, Touch(c, r, d, g), s'.core, q, Started);
    }
  }

  lemma CommitKeepsWorkers(cfg: Config, s: State)
    requires CanSchedule(s) && TableInv(cfg, s.core)
    requires QueuedInv(cfg.app, s) && WorkersInv(cfg, s)
    ensures WorkersInv(cfg, CommitStep(s))
  {
    var c, h, s' := s.core, s.pc.handler, CommitStep(s);
    var r, d, g := NewRunnable(c, h), LockedDescriptor(c, h), ScheduledGrant(c, h);
    ScheduledCore(s);
    forall w | 0 <= w < |s'.workers| && IsActive(s'.workers[w])
      ensures || JobOK(cfg.app, s'.core, s'.workers[w].r, s'.workers[w].phase)
              || (!cfg.guarded && Orphan(s'.core, s'.workers[w].r, s'.workers[w].phase))
    {
      var q, phase := s.workers[w].r, s.workers[w].phase;
      if JobOK(cfg.app, c, q, phase) {
        ActiveMember(s, w);
        UnlockedIsFree(cfg, s, h, q);
        TouchKeepsJob(cfg.app, c, r, d, g, q, phase);
        SameJob(cfg.app, Touch(c, r, d, g), s'.core, q, phase);
      }
    }
  }

  lemma CommitKeepsRest(cfg: Config, s: State)
    requires CanSchedule(s) && TableInv(cfg, s.core) && RestInv(cfg.app, s) && PcInv(cfg, s)
    ensures RestInv(cfg.app, CommitStep(s)) && PcInv(cfg, CommitStep(s))
  {
    ScheduledCore(s);
  }

  lemma CommitInv(cfg: Config, s: State)
    requires Inv(cfg, s) && Enabled(s, Commit)
    ensures Inv(cfg, CommitStep(s))
  {
    var c, h, s' := s.core, s.pc.handler, CommitStep(s);
    if TypeFor(c.table[h].state) == ENone {
      PcChangeInv(cfg, s, s');
    } else {
      var r, d, g := NewRunnable(c, h), LockedDescriptor(c, h), ScheduledGrant(c, h);
      ScheduledCore(s);
      NewJob(cfg, s);
      TouchKeepsTable(cfg, c, r, d, g);
      TouchKeepsHistory(cfg, c, r, d, g);
      CommitKeepsOwn(s);
      CommitKeepsLocks(cfg, s);
      CommitKeepsQueued(cfg, s);
      CommitKeepsWorkers(cfg, s);
      CommitKeepsRest(cfg, s);
    }
  }

  // ----- handing runnables over -----

  /** `s'` has the connections and workers of `s`. */
  ghost predicate SameConnections(s: State, s': State) {
    && s'.core.table == s.core.table && s'.core.history == s.core.history
    && s'.core.mainSock == s.core.mainSock && s'.core.comm == s.core.comm && s'.core.ticks == s.core.ticks
    && s'.core.created == s.core.created
    && s'.workers == s.workers && s'.crash == s.crash
    && !s.pc.Connecting? && !s'.pc.Connecting?
  }

  lemma HandOverInv(cfg: Config, s: State, s': State)
    requires Inv(cfg, s) && SameConnections(s, s') && PcInv(cfg, s')
    requires forall r :: r in Unpushed(s') || r in s'.core.poolQueue ==>
               r in Unpushed(s) || r in s.core.poolQueue
    requires OwnInv(s') && forall r :: Active(s', r) == Active(s, r)
    ensures Inv(cfg, s')
  {
    forall r | r in Unpushed(s') || r in s'.core.poolQueue ensures JobOK(cfg.app, s'.core, r, Started) {
      SameJob(cfg.app, s.core, s'.core, r, Started);
    }
    HandOverWorkers(cfg, s, s');
    forall h | h in s'.core.table && s'.core.table[h].accessLock
      ensures HasSerial(s', s'.core.table[h].serial)
    {
      assert HasSerial(s, s.core.table[h].serial);
      var r :| Active(s, r) > 0 && r.serial == s.core.table[h].serial;
      assert Active(s', r) > 0;
    }
  }

  lemma HandOverWorkers(cfg: Config, s: State, s': State)
    requires WorkersInv(cfg, s) && SameConnections(s, s')
    ensures WorkersInv(cfg, s')
  {
    forall w | 0 <= w < |s'.workers| && IsActive(s'.workers[w])
      ensures || JobOK(cfg.app, s'.core, s'.workers[w].r, s'.workers[w].phase)
              || (!cfg.guarded && Orphan(s'.core, s'.workers[w].r, s'.workers[w].phase))
    {
      if JobOK(cfg.app, s.core, s.workers[w].r, s.workers[w].phase) {
        SameJob(cfg.app, s.core, s'.core, s.workers[w].r, s.workers[w].phase);
      }
    }
  }

  lemma PushNextPlaces(s: State)
    requires s.pc.Scheduling? && s.pc.pushed <= |s.core.runnables|
    ensures SamePlaces(s, PushNextStep(s))
    ensures forall r :: Owned(PushNextStep(s).core, r) == Owned(s.core, r)
    ensures forall r :: r in Unpushed(PushNextStep(s)) || r in PushNextStep(s).core.poolQueue ==>
              r in Unpushed(s) || r in s.core.poolQueue
  {
    var i, s' := s.pc.pushed, PushNextStep(s);
    if i < |s.core.runnables| {
      assert Unpushed(s) == [s.core.runnables[i]] + Unpushed(s');
    } else {
      assert Unpushed(s) == Unpushed(s') == [];
    }
  }

  lemma PushNextInv(cfg: Config, s: State)
    requires Inv(cfg, s) && Enabled(s, PushNext)
    ensures Inv(cfg, PushNextStep(s))
  {
    PushNextPlaces(s);
    SameOwn(s, PushNextStep(s));
    HandOverInv(cfg, s, PushNextStep(s));
  }

  lemma DrainInv(cfg: Config, s: State)
    requires Inv(cfg, s) && Enabled(s, DrainDone)
    ensures Inv(cfg, DrainStep(s))
  {
    var s' := DrainStep(s);
    assert SamePlaces(s, s');
    SameOwn(s, s');
    HandOverInv(cfg, s, s');
  }

  // ----- erasing -----

  /** The runnable to be erased is owned by the list that is searched for it. */
  lemma ErasedIsOwned(s: State)
    requires OwnInv(s) && s.core.runnables == []
    requires s.pc.Erasing? && s.pc.items != []
    ensures s.pc.items[0] in s.core.inProcess
  {
    var r := s.pc.items[0];
    OccursIn(s.pc.items, r);
    OccursIn(s.core.inProcess, r);
    assert Owned(s.core, r) > 0;
  }

  lemma ErasePlaces(s: State)
    requires s.pc.Erasing? && s.pc.items != [] && s.pc.items[0] in s.core.inProcess
    ensures var s', r := EraseNextStep(s), s.pc.items[0];
            && (forall q :: Active(s', q) == Active(s, q))
            && (forall q :: Done(s, q) == Done(s', q) + if q == r then 1 else 0)
            && (forall q :: Owned(s.core, q) == Owned(s'.core, q) + if q == r then 1 else 0)
  {
    var items, r := s.pc.items, s.pc.items[0];
    assert items == [r] + items[1..];
    OccursIn(s.core.inProcess, r);
  }

  lemma EraseKeepsOwn(s: State)
    requires OwnInv(s)
    requires s.pc.Erasing? && s.pc.items != [] && s.pc.items[0] in s.core.inProcess
    ensures OwnInv(EraseNextStep(s))
  {
    ErasePlaces(s);
    var s' := EraseNextStep(s);
    forall q ensures Owned(s'.core, q) == Active(s', q) + Done(s', q) {
      assert Owned(s.core, q) == Active(s, q) + Done(s, q);
    }
  }

  /** "Runner was not found" is not reached. */
  lemma EraseNextInv(cfg: Config, s: State)
    requires Inv(cfg, s) && Enabled(s, EraseNext)
    ensures Inv(cfg, EraseNextStep(s))
  {
    if s.pc.items == [] {
      PcChangeInv(cfg, s, EraseNextStep(s));
    } else {
      ErasedIsOwned(s);
      ErasePlaces(s);
      EraseKeepsOwn(s);
      EraseKeepsRest(cfg, s);
      HandOverInv(cfg, s, EraseNextStep(s));
    }
  }

  lemma EraseKeepsRest(cfg: Config, s: State)
    requires PcInv(cfg, s) && s.pc.Erasing? && s.pc.items != [] && s.pc.items[0] in s.core.inProcess
    ensures var s' := EraseNextStep(s);
            && SameConnections(s, s') && PcInv(cfg, s')
            && Unpushed(s') == Unpushed(s) && s'.core.poolQueue == s.core.poolQueue
  {
  }
}
