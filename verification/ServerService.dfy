/** What an iteration of the main loop does for the connections: those that need it are closed, those that are
    ready are served, and the runnables that are done are erased, whatever the workers do meanwhile. */
module ServerService {
  import opened Common
  import opened HandlerAllocator
  import opened ServerState
  import opened ServerSteps
  import opened ServerInvariant
  import opened ServerWorkers
  import opened ServerMain
  import opened ServerAlways
  import opened ServerTheorems

  // ----- the order of the loop -----

  /** Where the main thread goes from `pc` by a step that does not end the process. */
  ghost predicate GoesTo(cfg: Config, c: Core, pc: MainPc, a: Action, next: MainPc) {
    match pc
    case LoopHead =>
      && next.Scanning? && next.found == [] && Ascending(next.rest)
      && forall h :: h in next.rest <==> h in c.table
    case Scanning(rest, found) =>
      if rest == [] then next == Closing(found)
      else if rest[0] in c.table && c.table[rest[0]].state.CNeedClose?
              && (cfg.guarded ==> !c.table[rest[0]].accessLock) then
        next == Scanning(rest[1..], found + [rest[0]])
      else next == Scanning(rest[1..], found)
    case Closing(toClose) => next == if toClose == [] then Selecting else Closing(toClose[1..])
    case Selecting => a.Select? && next == Events(a.readable, a.writable)
    case Events(readable, writable) =>
      if readable != [] then
        if readable[0] == c.mainSock then
          next.Connecting? && next.readable == readable[1..] && next.writable == writable
        else next == AfterTest(c, readable[0], readable[1..], writable)
      else if writable != [] then
        if writable[0] == c.mainSock then next == Events([], writable[1..])
        else next == AfterTest(c, writable[0], [], writable[1..])
      else next == Scheduling(0)
    case Connecting(_, readable, writable) => next == Events(readable, writable)
    case Committing(_, readable, writable) => next == Events(readable, writable)
    case Scheduling(i) => next == if i < |c.runnables| then Scheduling(i + 1) else Draining
    case Draining => next == Erasing(c.doneQueue)
    case Erasing(items) => next == if items == [] then LoopHead else Erasing(items[1..])
  }

  function AfterTest(c: Core, h: int, readable: seq<int>, writable: seq<int>): MainPc {
    if h in c.table && !c.table[h].accessLock then Committing(h, readable, writable)
    else Events(readable, writable)
  }

  /** The main thread goes through its loop in order; the workers do not move it. */
  lemma LoopOrder(cfg: Config, s: State, a: Action)
    requires Enabled(s, a) && Step(cfg, s, a).crash.None?
    ensures if IsMainAction(a) then GoesTo(cfg, s.core, s.pc, a, Step(cfg, s, a).pc)
            else Step(cfg, s, a).pc == s.pc
  {
  }

  lemma AliveNext(cfg: Config, workers: nat, actions: seq<Action>, states: seq<State>, j: nat, n: nat)
    requires IsRun(cfg, workers, actions, states) && j < n < |states| && states[n].crash.None?
    ensures Enabled(states[j], actions[j]) && states[j + 1] == Step(cfg, states[j], actions[j])
    ensures states[j + 1].crash.None?
  {
    assert j + 1 < n ==> Enabled(states[j + 1], actions[j + 1]);
  }

  // ----- serving -----

  predicate InEvents(pc: MainPc) {
    pc.Events? || pc.Connecting? || pc.Committing?
  }

  /** The main thread has still to come to `h`. */
  predicate Ahead(pc: MainPc, h: int) {
    InEvents(pc) && (h in pc.readable || h in pc.writable)
  }

  /** The main thread comes to `h`, ready for reading or for writing. */
  predicate ComesTo(s: State, a: Action, h: int) {
    && a.NextEvent? && s.pc.Events?
    && if s.pc.readable != [] then s.pc.readable[0] == h else s.pc.writable != [] && s.pc.writable[0] == h
  }

  lemma StillAhead(cfg: Config, s: State, a: Action, h: int)
    requires Enabled(s, a) && Step(cfg, s, a).crash.None? && Ahead(s.pc, h)
    ensures ComesTo(s, a, h) || Ahead(Step(cfg, s, a).pc, h)
  {
    LoopOrder(cfg, s, a);
  }

  /** Its turn comes before anything is scheduled. */
  lemma {:induction false} TurnComes(
    cfg: Config, workers: nat, actions: seq<Action>, states: seq<State>, m: nat, n: nat, h: int) returns (i: nat)
    requires IsRun(cfg, workers, actions, states) && m < n < |states| && states[n].crash.None?
    requires Ahead(states[m].pc, h) && states[n].pc == Scheduling(0)
    ensures m <= i < n && ComesTo(states[i], actions[i], h)
    decreases n - m
  {
    AliveNext(cfg, workers, actions, states, m, n);
    StillAhead(cfg, states[m], actions[m], h);
    if ComesTo(states[m], actions[m], h) {
      i := m;
    } else {
      i := TurnComes(cfg, workers, actions, states, m + 1, n, h);
    }
  }

  lemma EventsGoOn(cfg: Config, s: State, a: Action)
    requires Enabled(s, a) && Step(cfg, s, a).crash.None? && InEvents(s.pc)
    ensures InEvents(Step(cfg, s, a).pc) || Step(cfg, s, a).pc == Scheduling(0)
    ensures s.core.runnables <= Step(cfg, s, a).core.runnables
    ensures s.core.created <= Step(cfg, s, a).core.created
    ensures s.core.mainSock == Step(cfg, s, a).core.mainSock
  {
    LoopOrder(cfg, s, a);
  }

  /** The main thread is among the events from step `m` to step `n`. */
  ghost predicate AmongEvents(states: seq<State>, m: nat, n: nat)
    requires m <= n < |states|
  {
    forall j :: m <= j < n ==> InEvents(states[j].pc)
  }

  lemma {:induction false} EventsUntil(
    cfg: Config, workers: nat, actions: seq<Action>, states: seq<State>, m: nat, n: nat)
    requires IsRun(cfg, workers, actions, states) && m < n < |states| && states[n].crash.None?
    requires InEvents(states[m].pc) && forall j :: m < j < n ==> !states[j].pc.Scheduling?
    ensures AmongEvents(states, m, n)
    decreases n - m
  {
    AliveNext(cfg, workers, actions, states, m, n);
    EventsGoOn(cfg, states[m], actions[m]);
    if m + 1 < n {
      EventsUntil(cfg, workers, actions, states, m + 1, n);
    }
  }

  /** What is kept for the pool stays until it is scheduled. */
  lemma {:induction false} StaysListed(
    cfg: Config, workers: nat, actions: seq<Action>, states: seq<State>, m: nat, n: nat, r: Runnable)
    requires IsRun(cfg, workers, actions, states) && m <= n < |states| && states[n].crash.None?
    requires AmongEvents(states, m, n) && r in states[m].core.runnables
    ensures r in states[n].core.runnables
    decreases n - m
  {
    if m < n {
      AliveNext(cfg, workers, actions, states, m, n);
      EventsGoOn(cfg, states[m], actions[m]);
      StaysListed(cfg, workers, actions, states, m + 1, n, r);
    }
  }

  /** No worker touches a connection that is not locked. */
  lemma UnlockedKept(cfg: Config, s: State, a: Action, h: int)
    requires Inv(cfg, s) && Enabled(s, a) && !IsMainAction(a) && Step(cfg, s, a).crash.None?
    requires h in s.core.table && !s.core.table[h].accessLock
    ensures var c' := Step(cfg, s, a).core;
            h in c'.table && c'.table[h] == s.core.table[h] && c'.created == s.core.created
  {
    if IsJobAction(a) {
      JobOf(cfg, s, a.w);
      JobGoesOn(cfg, s, a);
    }
  }

  /** The connection waits for its request to be read, or for its response. */
  predicate Waits(d: Descriptor) {
    !d.accessLock && (d.state.CNeedRequest? || d.state.CNeedResponse?)
  }

  /** `r` is the runnable that the connection waits for. */
  predicate IsFor(r: Runnable, h: int, d: Descriptor, created: nat) {
    && r.connection == h && r.serial == d.serial && r.id >= created
    && r.kind == if d.state.CNeedRequest? then EReadRequest else EWriteResponse
  }

  /** The step that schedules. */
  lemma CommitExactly(cfg: Config, s: State)
    requires Enabled(s, Commit) && s.pc.handler in s.core.table
    ensures var c, c', h := s.core, Step(cfg, s, Commit).core, s.pc.handler;
            var d := c.table[h];
            if d.state.CNone? || d.state.CNeedClose? then c' == c
            else
              && c'.table == c.table[h := d.(accessLock := true)]
              && c'.runnables == c.runnables + [Runnable(c.created,
                   if d.state.CNeedRequest? then EReadRequest
                   else if d.state.CNeedResponse? then EWriteResponse else ESendData, h, d.serial)]
              && c'.created == c.created + 1
  {
  }

  lemma {:induction false} CommitComes(
    cfg: Config, workers: nat, actions: seq<Action>, states: seq<State>, m: nat, n: nat, h: int, d: Descriptor)
    returns (r: Runnable)
    requires GoodRun(cfg, workers, actions, states) && m < n < |states| && states[n].crash.None?
    requires AmongEvents(states, m, n) && states[n].pc == Scheduling(0)
    requires states[m].pc.Committing? && states[m].pc.handler == h
    requires h in states[m].core.table && states[m].core.table[h] == d && Waits(d)
    ensures r in states[n].core.runnables && IsFor(r, h, d, states[m].core.created)
    decreases n - m
  {
    var s, a := states[m], actions[m];
    AliveNext(cfg, workers, actions, states, m, n);
    LoopOrder(cfg, s, a);
    if IsMainAction(a) {
      CommitExactly(cfg, s);
      var c' := Step(cfg, s, a).core;
      r := c'.runnables[|c'.runnables| - 1];
      StaysListed(cfg, workers, actions, states, m + 1, n, r);
    } else {
      RunInv(cfg, workers, actions, states, m);
      UnlockedKept(cfg, s, a, h);
      r := CommitComes(cfg, workers, actions, states, m + 1, n, h, d);
    }
  }

  /** `h` is locked for `r`, the one runnable of its grant that is not done. */
  ghost predicate IsServed(s: State, h: int, d: Descriptor, r: Runnable) {
    && h in s.core.table && s.core.table[h].serial == d.serial && s.core.table[h].accessLock
    && Active(s, r) == 1 && Occurrences(s.core.runnables, r) == 1
    && forall q :: Active(s, q) > 0 && q.serial == d.serial ==> q == r
  }

  lemma ListedIsServed(cfg: Config, s: State, h: int, d: Descriptor, created: nat, r: Runnable)
    requires Inv(cfg, s) && s.pc == Scheduling(0)
    requires r in s.core.runnables && IsFor(r, h, d, created)
    ensures IsServed(s, h, d, r)
  {
    assert Unpushed(s) == s.core.runnables;
    OccursIn(Unpushed(s), r);
    assert JobOK(cfg.app, s.core, r, Started);
    assert Owned(s.core, r) <= 1;
  }

  /** A connection that waits when its turn comes is given its runnable. */
  lemma WaitingIsServed(
    cfg: Config, workers: nat, actions: seq<Action>, states: seq<State>, i: nat, n: nat, h: int)
    returns (r: Runnable)
    requires GoodRun(cfg, workers, actions, states) && i < n < |states| && states[n].crash.None?
    requires AmongEvents(states, i, n) && states[n].pc == Scheduling(0)
    requires ComesTo(states[i], actions[i], h) && h != states[i].core.mainSock
    requires h in states[i].core.table && Waits(states[i].core.table[h])
    ensures r in states[n].core.runnables
    ensures IsFor(r, h, states[i].core.table[h], states[i].core.created)
    ensures IsServed(states[n], h, states[i].core.table[h], r)
  {
    var s, d := states[i], states[i].core.table[h];
    AliveNext(cfg, workers, actions, states, i, n);
    LoopOrder(cfg, s, actions[i]);
    TestKeepsCore(cfg, s, h);
    r := CommitComes(cfg, workers, actions, states, i + 1, n, h, d);
    RunInv(cfg, workers, actions, states, n);
    ListedIsServed(cfg, states[n], h, d, s.core.created, r);
  }

  lemma TestKeepsCore(cfg: Config, s: State, h: int)
    requires Enabled(s, NextEvent) && ComesTo(s, NextEvent, h) && h != s.core.mainSock
    ensures Step(cfg, s, NextEvent).core == s.core
  {
  }

  /** The main thread comes to `h` at step `i`, and if the connection then waits, it is locked at step `n`
      with one new runnable, for what it waits for. */
  ghost predicate ServedAt(actions: seq<Action>, states: seq<State>, i: nat, n: nat, h: int)
    requires i < |actions| && i < |states| && n < |states|
  {
    && ComesTo(states[i], actions[i], h) && h in states[i].core.table
    && (Waits(states[i].core.table[h]) ==>
          exists r :: r in states[n].core.runnables
                   && IsFor(r, h, states[i].core.table[h], states[i].core.created)
                   && IsServed(states[n], h, states[i].core.table[h], r))
  }

  /** From `select` to the scheduling, whatever the workers do meanwhile, the main thread comes to every
      connection that is ready for reading or for writing; if it then waits for its request to be read, or
      for its response, it is locked and has exactly one runnable, the right one. */
  lemma ReadyAreServed(
    cfg: Config, workers: nat, actions: seq<Action>, states: seq<State>, m: nat, n: nat, h: int) returns (i: nat)
    requires GoodRun(cfg, workers, actions, states) && m < n < |states| && states[n].crash.None?
    requires actions[m].Select? && (h in actions[m].readable || h in actions[m].writable)
    requires h != states[m].core.mainSock
    requires states[n].pc == Scheduling(0) && forall j :: m < j < n ==> !states[j].pc.Scheduling?
    ensures m < i < n && ServedAt(actions, states, i, n, h)
  {
    AliveNext(cfg, workers, actions, states, m, n);
    LoopOrder(cfg, states[m], actions[m]);
    assert states[m + 1].pc == Events(actions[m].readable, actions[m].writable);
    EventsUntil(cfg, workers, actions, states, m + 1, n);
    i := TurnComes(cfg, workers, actions, states, m + 1, n, h);
    SameListener(cfg, workers, actions, states, m, i);
    RunAlways(cfg, workers, actions, states, i);
    HeadIsKnown(states[i], actions[i], h);
    if Waits(states[i].core.table[h]) {
      var r := WaitingIsServed(cfg, workers, actions, states, i, n, h);
    }
  }

  lemma HeadIsKnown(s: State, a: Action, h: int)
    requires KeysInv(s) && ComesTo(s, a, h)
    ensures h in s.core.table
  {
    assert s.pc.readable != [] ==> h in s.pc.readable;
    assert s.pc.readable == [] ==> h in s.pc.writable;
  }

  lemma {:induction false} SameListener(
    cfg: Config, workers: nat, actions: seq<Action>, states: seq<State>, m: nat, n: nat)
    requires IsRun(cfg, workers, actions, states) && m <= n < |states|
    ensures states[n].core.mainSock == states[m].core.mainSock
    decreases n - m
  {
    if m < n {
      ListenerKept(cfg, states[m], actions[m]);
      SameListener(cfg, workers, actions, states, m + 1, n);
    }
  }

  lemma ListenerKept(cfg: Config, s: State, a: Action)
    requires Enabled(s, a)
    ensures Step(cfg, s, a).core.mainSock == s.core.mainSock
  {
  }

  // ----- closing -----

  /** The scan looks at `h`. */
  predicate LooksAt(s: State, a: Action, h: int) {
    a.ScanNext? && s.pc.Scanning? && s.pc.rest != [] && s.pc.rest[0] == h
  }

  /** The connection is due to be closed. */
  predicate Due(cfg: Config, d: Descriptor) {
    d.state.CNeedClose? && (cfg.guarded ==> !d.accessLock)
  }

  predicate InScan(pc: MainPc) {
    pc.Scanning? || pc.Closing?
  }

  /** Only the closing takes a connection out of the table, during a scan. */
  lemma ScanKeepsKeys(cfg: Config, s: State, a: Action, h: int)
    requires Enabled(s, a) && Step(cfg, s, a).crash.None? && InScan(s.pc)
    requires h in s.core.table
    ensures var c' := Step(cfg, s, a).core;
            if a.CloseNext? && s.pc.toClose != [] && s.pc.toClose[0] == h then h !in c'.table
            else h in c'.table && c'.table[h].serial == s.core.table[h].serial
  {
    if IsJobAction(a) {
      JobGoesOn(cfg, s, a);
    }
  }

  lemma ScanAddsNoKeys(cfg: Config, s: State, a: Action, h: int)
    requires Enabled(s, a) && Step(cfg, s, a).crash.None? && InScan(s.pc)
    requires h !in s.core.table
    ensures h !in Step(cfg, s, a).core.table
  {
    if IsJobAction(a) {
      JobGoesOn(cfg, s, a);
    }
  }

  /** `h` is in the table, of the given grant, exactly if `closed` is false. */
  ghost predicate IsOpen(s: State, h: int, serial: nat, closed: bool) {
    if closed then h !in s.core.table else h in s.core.table && s.core.table[h].serial == serial
  }

  /** What was found is closed, and nothing else. */
  lemma {:induction false} ClosedOrKept(
    cfg: Config, workers: nat, actions: seq<Action>, states: seq<State>, m: nat, n: nat, h: int, serial: nat)
    requires IsRun(cfg, workers, actions, states) && m < n < |states| && states[n].crash.None?
    requires states[m].pc.Closing? && states[n].pc.Selecting?
    requires forall j :: m <= j < n ==> !states[j].pc.Selecting?
    requires h in states[m].core.table ==> states[m].core.table[h].serial == serial
    ensures IsOpen(states[n], h, serial, h !in states[m].core.table || h in states[m].pc.toClose)
    decreases n - m
  {
    var s, a := states[m], actions[m];
    AliveNext(cfg, workers, actions, states, m, n);
    LoopOrder(cfg, s, a);
    if h in s.core.table {
      ScanKeepsKeys(cfg, s, a, h);
    } else {
      ScanAddsNoKeys(cfg, s, a, h);
    }
    if m + 1 < n {
      ClosedOrKept(cfg, workers, actions, states, m + 1, n, h, serial);
    }
  }

  /** Once the scan has looked at `h`, it is closed if it was found. */
  lemma {:induction false} Decided(
    cfg: Config, workers: nat, actions: seq<Action>, states: seq<State>, m: nat, n: nat, h: int, serial: nat)
    requires IsRun(cfg, workers, actions, states) && m < n < |states| && states[n].crash.None?
    requires states[m].pc.Scanning? && h !in states[m].pc.rest && states[n].pc.Selecting?
    requires forall j :: m <= j < n ==> !states[j].pc.Selecting?
    requires IsOpen(states[m], h, serial, false)
    ensures IsOpen(states[n], h, serial, h in states[m].pc.found)
    decreases n - m
  {
    var s, a := states[m], actions[m];
    AliveNext(cfg, workers, actions, states, m, n);
    LoopOrder(cfg, s, a);
    ScanKeepsKeys(cfg, s, a, h);
    if states[m + 1].pc.Closing? {
      ClosedOrKept(cfg, workers, actions, states, m + 1, n, h, serial);
    } else {
      Decided(cfg, workers, actions, states, m + 1, n, h, serial);
    }
  }

  lemma {:induction false} ScanDecides(
    cfg: Config, workers: nat, actions: seq<Action>, states: seq<State>, m: nat, n: nat, h: int, serial: nat)
    returns (i: nat)
    requires IsRun(cfg, workers, actions, states) && m < n < |states| && states[n].crash.None?
    requires states[m].pc.Scanning? && Ascending(states[m].pc.rest) && states[n].pc.Selecting?
    requires h in states[m].pc.rest && h !in states[m].pc.found
    requires forall j :: m <= j < n ==> !states[j].pc.Selecting?
    requires IsOpen(states[m], h, serial, false)
    ensures m <= i < n && LooksAt(states[i], actions[i], h) && IsOpen(states[i], h, serial, false)
    ensures IsOpen(states[n], h, serial, Due(cfg, states[i].core.table[h]))
    decreases n - m
  {
    var s, a := states[m], actions[m];
    AliveNext(cfg, workers, actions, states, m, n);
    LoopOrder(cfg, s, a);
    ScanKeepsKeys(cfg, s, a, h);
    if LooksAt(s, a, h) {
      i := m;
      assert h !in s.pc.rest[1..];
      Decided(cfg, workers, actions, states, m + 1, n, h, serial);
    } else {
      i := ScanDecides(cfg, workers, actions, states, m + 1, n, h, serial);
    }
  }

  /** The scan looks at `h` at step `i`, and at step `n` it is closed if it was due, and otherwise the same
      connection as at step `m`. */
  ghost predicate ClosedAt(cfg: Config, actions: seq<Action>, states: seq<State>, m: nat, i: nat, n: nat, h: int)
    requires i < |actions| && m < |states| && i < |states| && n < |states|
  {
    && LooksAt(states[i], actions[i], h) && h in states[m].core.table && h in states[i].core.table
    && if states[i].core.table[h].state.CNeedClose? && (cfg.guarded ==> !states[i].core.table[h].accessLock) then
         h !in states[n].core.table
       else h in states[n].core.table && states[n].core.table[h].serial == states[m].core.table[h].serial
  }

  /** From the beginning of the scan to `select`, whatever the workers do meanwhile, the scan looks at every
      connection and exactly those are closed that are then in `CNeedClose` (and, with the guard, not
      locked). */
  lemma DueAreClosed(
    cfg: Config, workers: nat, actions: seq<Action>, states: seq<State>, m: nat, n: nat, h: int) returns (i: nat)
    requires IsRun(cfg, workers, actions, states) && m < n < |states| && states[n].crash.None?
    requires actions[m].BeginScan? && h in states[m].core.table
    requires states[n].pc.Selecting? && forall j :: m < j < n ==> !states[j].pc.Selecting?
    ensures m < i < n && ClosedAt(cfg, actions, states, m, i, n, h)
  {
    AliveNext(cfg, workers, actions, states, m, n);
    LoopOrder(cfg, states[m], actions[m]);
    i := ScanDecides(cfg, workers, actions, states, m + 1, n, h, states[m].core.table[h].serial);
  }

  // ----- erasing -----

  lemma ErasingStep(cfg: Config, s: State, a: Action, r: Runnable)
    requires PlacesInv(s) && Enabled(s, a) && Step(cfg, s, a).crash.None? && s.pc.Erasing?
    ensures var s' := Step(cfg, s, a);
            && (s'.pc.Erasing? || s'.pc.LoopHead?)
            && Owned(s'.core, r) - Occurrences(BeingErased(s'), r)
               == Owned(s.core, r) - Occurrences(BeingErased(s), r)
  {
    LoopOrder(cfg, s, a);
    if a.EraseNext? {
      if s.pc.items != [] {
        ErasedIsOwned(s);
        ErasePlaces(s);
        assert s.pc.items == [s.pc.items[0]] + s.pc.items[1..];
      }
    } else if IsJobAction(a) {
      JobGoesOn(cfg, s, a);
    }
  }

  lemma {:induction false} ErasesItems(
    cfg: Config, workers: nat, actions: seq<Action>, states: seq<State>, m: nat, n: nat, r: Runnable)
    requires IsRun(cfg, workers, actions, states) && m < n < |states| && states[n].crash.None?
    requires states[m].pc.Erasing? && states[n].pc.LoopHead? && forall j :: m <= j < n ==> !states[j].pc.LoopHead?
    ensures Owned(states[n].core, r) + Occurrences(states[m].pc.items, r) == Owned(states[m].core, r)
    decreases n - m
  {
    AliveNext(cfg, workers, actions, states, m, n);
    RunAlways(cfg, workers, actions, states, m);
    ErasingStep(cfg, states[m], actions[m], r);
    if m + 1 < n {
      ErasesItems(cfg, workers, actions, states, m + 1, n, r);
    }
  }

  /** From the draining of the done queue to the loop head, whatever the workers do meanwhile, exactly the
      runnables that were in the queue are erased. */
  lemma DoneAreErased(
    cfg: Config, workers: nat, actions: seq<Action>, states: seq<State>, m: nat, n: nat, r: Runnable)
    requires IsRun(cfg, workers, actions, states) && m < n < |states| && states[n].crash.None?
    requires actions[m].DrainDone?
    requires states[n].pc.LoopHead? && forall j :: m < j < n ==> !states[j].pc.LoopHead?
    ensures Owned(states[n].core, r) == if r in states[m].core.doneQueue then 0 else Owned(states[m].core, r)
    ensures states[m + 1].core.doneQueue == []
  {
    AliveNext(cfg, workers, actions, states, m, n);
    LoopOrder(cfg, states[m], actions[m]);
    assert m + 1 < n;
    ErasesItems(cfg, workers, actions, states, m + 1, n, r);
    RunAlways(cfg, workers, actions, states, m);
    DrainedIsOwned(states[m], r);
  }

  lemma DrainedIsOwned(s: State, r: Runnable)
    requires OwnInv(s)
    ensures Occurrences(s.core.doneQueue, r)
         == if r in s.core.doneQueue then Owned(s.core, r) else 0
  {
    OccursIn(s.core.doneQueue, r);
    assert Owned(s.core, r) == Active(s, r) + Done(s, r);
    assert Owned(s.core, r) <= 1;
  }

  // ----- exactly when the process dies -----

  /** The reason for which the step `a` from `s` ends the process, if it does. */
  ghost function Ends(cfg: Config, s: State, a: Action): Option<Crash>
    requires Enabled(s, a)
  {
    if IsMainAction(a) then EndsMain(cfg, s, a)
    else if a.Pop? || a.Finish? then None
    else if a.RunSendData? then Some(SendDataRun(s.workers[a.w].r))
    else if s.workers[a.w].r.connection !in s.core.table then Some(BadDescriptor(s.workers[a.w].r))
    else if !a.Process? then None
    else
      var r := s.workers[a.w].r;
      var request := s.core.table[r.connection].request;
      if request.None? then Some(EmptyRequest(r))
      else if cfg.app.process(request.value, a.env).None? then Some(NoResponse(r, request.value, a.env))
      else None
  }

  ghost function EndsMain(cfg: Config, s: State, a: Action): Option<Crash>
    requires Enabled(s, a) && IsMainAction(a)
  {
    if a.Select? then
      if AllPolledKnown(s.core) then None else Some(InvalidHandler)
    else if a.NextEvent? then
      if s.pc.readable == [] || s.pc.readable[0] != s.core.mainSock then None
      else if s.core.mainSock !in s.core.table then Some(InvalidHandler)
      else if forall h :: IsHandler(cfg.space, h) && h != At(cfg.space, s.core.ticks) ==> h in s.core.table then
        Some(HandlersExhausted)
      else None
    else if a.FinishConnect? then
      if s.pc.accepted in s.core.table then None else Some(InvalidHandler)
    else if a.Commit? then
      if s.pc.handler in s.core.table then None else Some(InvalidHandler)
    else if a.EraseNext? && s.pc.items != [] && s.pc.items[0] !in s.core.inProcess then
      Some(RunnerNotFound(s.pc.items[0]))
    else None
  }

  ghost predicate AllPolledKnown(c: Core) {
    c.mainSock in c.table && forall h :: h in c.comm ==> h in c.table
  }

  lemma MainEnds(cfg: Config, s: State, a: Action)
    requires Enabled(s, a) && IsMainAction(a)
    ensures Step(cfg, s, a).crash == Ends(cfg, s, a)
  {
    if a.NextEvent? {
      GeneratedInvalid(cfg.space, s.core.table.Keys, s.core.ticks);
    }
  }

  lemma WorkerEnds(cfg: Config, s: State, a: Action)
    requires Enabled(s, a) && !IsMainAction(a)
    ensures Step(cfg, s, a).crash == Ends(cfg, s, a)
  {
  }

  /** A step ends the process exactly for the reason given, if there is one. */
  lemma EndsExactly(cfg: Config, s: State, a: Action)
    requires Enabled(s, a)
    ensures Step(cfg, s, a).crash == Ends(cfg, s, a)
  {
    if IsMainAction(a) {
      MainEnds(cfg, s, a);
    } else {
      WorkerEnds(cfg, s, a);
    }
  }

  // ----- what the steps of the main thread do -----

  /** Accepting adds a connection on a free handler, and the main thread goes on to set it up. */
  lemma AcceptExactly(cfg: Config, s: State) returns (h: int)
    requires Enabled(s, NextEvent) && s.pc.readable != [] && s.pc.readable[0] == s.core.mainSock
    requires Step(cfg, s, NextEvent).crash.None?
    ensures IsHandler(cfg.space, h) && h !in s.core.table
    ensures var c, c' := s.core, Step(cfg, s, NextEvent).core;
            && c'.table == c.table[h := Descriptor(CNone, false, None, |c.history|)]
            && c'.comm == c.comm + [h]
            && c'.history == c.history + [Grant(h, c'.ticks, [], [], [], [], false)]
            && c' == c.(table := c'.table, comm := c'.comm, history := c'.history, ticks := c'.ticks)
    ensures Step(cfg, s, NextEvent).pc == Connecting(h, s.pc.readable[1..], s.pc.writable)
  {
    h := Generated(cfg.space, s.core.table.Keys, s.core.ticks);
  }

  lemma ConnectExactly(cfg: Config, s: State)
    requires Enabled(s, FinishConnect) && s.pc.accepted in s.core.table
    ensures var c, h := s.core, s.pc.accepted;
            Step(cfg, s, FinishConnect).core
            == c.(table := c.table[h := c.table[h].(state := CNeedRequest)])
  {
  }

  /** Closing takes one connection from the table and the first of its handlers from those polled. */
  lemma CloseExactly(cfg: Config, s: State)
    requires Enabled(s, CloseNext) && s.pc.toClose != [] && s.pc.toClose[0] in s.core.table
    requires s.core.table[s.pc.toClose[0]].serial < |s.core.history|
    ensures var c, h := s.core, s.pc.toClose[0];
            var i := c.table[h].serial;
            Step(cfg, s, CloseNext).core
            == c.(table := c.table - {h}, comm := RemoveFirst(c.comm, h),
                  history := c.history[i := c.history[i].(closed := true)])
  {
  }

  /** Scheduling hands the runnables over one by one, and then puts all of them with those in process. */
  lemma PushExactly(cfg: Config, s: State)
    requires Enabled(s, PushNext)
    ensures var c, i := s.core, s.pc.pushed;
            Step(cfg, s, PushNext).core
            == if i < |c.runnables| then c.(poolQueue := c.poolQueue + [c.runnables[i]])
               else c.(inProcess := c.runnables + c.inProcess, runnables := [])
  {
  }

  /** A worker takes the runnable that was queued first, and in the end reports it. */
  lemma TaskExactly(cfg: Config, s: State, a: Action)
    requires Enabled(s, a) && (a.Pop? || a.Finish?)
    ensures var s' := Step(cfg, s, a);
            if a.Pop? then
              && s'.core == s.core.(poolQueue := s.core.poolQueue[1..])
              && s'.workers == s.workers[a.w := Busy(s.core.poolQueue[0], Started)]
            else
              && s'.core == s.core.(doneQueue := s.core.doneQueue + [s.workers[a.w].r])
              && s'.workers == s.workers[a.w := Idle]
  {
  }

  // ----- what the steps of a worker do to its connection -----

  /** The descriptor `d` of the connection of a worker in the given phase, after the step `a`. */
  function DescriptorAfter(d: Descriptor, phase: Phase, a: Action): Descriptor {
    match a
    case KeepRequest(_) => if phase.Parsed? then d.(request := Some(phase.request)) else d
    case MarkRead(_) => d.(state := CNeedResponse)
    case MarkSent(_) =>
      if phase.Sent? then
        d.(state := if phase.sentResponse.closeAfterSending then CNeedClose else CDataSending)
      else d
    case Unlock(_) => d.(accessLock := false)
    case _ => d
  }

  /** What happens on the grant `g` by it. */
  function GrantAfter(app: App, g: Grant, phase: Phase, a: Action): Grant {
    match a
    case ReceiveAndParse(_, bytes) => g.(received := g.received + [bytes])
    case Process(_, env) => g.(envs := g.envs + [env])
    case SendResponse(_) => if phase.Responding? then g.(sent := g.sent + [app.generate(phase.response)]) else g
    case _ => g
  }

  lemma JobExactly(cfg: Config, s: State, a: Action)
    requires Enabled(s, a) && (IsJobAction(a) || a.Unlock?) && Step(cfg, s, a).crash.None?
    requires s.workers[a.w].r.connection in s.core.table
    requires s.core.table[s.workers[a.w].r.connection].serial < |s.core.history|
    ensures var c, c', r, phase := s.core, Step(cfg, s, a).core, s.workers[a.w].r, s.workers[a.w].phase;
            var i := c.table[r.connection].serial;
            && c'.table == c.table[r.connection := DescriptorAfter(c.table[r.connection], phase, a)]
            && c'.history == c.history[i := GrantAfter(cfg.app, c.history[i], phase, a)]
            && c' == c.(table := c'.table, history := c'.history)
  {
    var c, r := s.core, s.workers[a.w].r;
    assert c.table[r.connection := c.table[r.connection]] == c.table;
    assert c.history[c.table[r.connection].serial := c.history[c.table[r.connection].serial]] == c.history;
  }
}
