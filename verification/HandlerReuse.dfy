/** How long a handler stays away: runs of the allocator under any sequence of requests and releases. */
module HandlerReuse {
  import opened HandlerAllocator

  /** What one advance of the counter came to: the handler was in use, was granted, or was the one from
      which the search had started. */
  datatype Outcome = Skipped | Granted | Stopped

  /** One advance, with the handlers in use at that moment. */
  datatype Tick = Tick(handler: int, outcome: Outcome, used: set<int>)

  datatype Op = Generate | Release(handler: int)

  /** The handlers in use, and all advances of the counter so far. */
  datatype Allocator = Allocator(used: set<int>, ticks: seq<Tick>)

  /** The first `k` advances of a search that takes `n`. */
  function TicksOf(space: Space, used: set<int>, t: nat, n: nat, k: nat): (ticks: seq<Tick>)
    ensures |ticks| == k
  {
    if k == 0 then []
    else
      var outcome := if k < n then Skipped else if n < Size(space) then Granted else Stopped;
      TicksOf(space, used, t, n, k - 1) + [Tick(At(space, t + k), outcome, used)]
  }

  function Apply(space: Space, a: Allocator, op: Op): Allocator {
    match op
    case Generate =>
      var n := Search(space, a.used, |a.ticks|);
      var h := Generated(space, a.used, |a.ticks|);
      Allocator(if h == CONNECTION_HANDLER_INVALID then a.used else a.used + {h},
                a.ticks + TicksOf(space, a.used, |a.ticks|, n, n))
    case Release(h) =>
      if h != CONNECTION_HANDLER_INVALID then a.(used := a.used - {h}) else a
  }

  function Run(space: Space, ops: seq<Op>): Allocator {
    if ops == [] then Allocator({}, [])
    else Apply(space, Run(space, ops[..|ops| - 1]), ops[|ops| - 1])
  }

  /** A release frees the handler; a request advances the counter until a free handler is found or all have
      been tried, and takes the handler found, if any. */
  lemma ApplyExactly(space: Space, a: Allocator, op: Op)
    ensures var a' := Apply(space, a, op);
            match op
            case Release(h) => a'.ticks == a.ticks && a'.used == if h == -1 then a.used else a.used - {h}
            case Generate =>
              && a.ticks < a'.ticks
              && (forall i :: |a.ticks| < i < |a'.ticks| ==> At(space, i) in a.used)
              && if a'.used == a.used && At(space, |a'.ticks|) == At(space, |a.ticks|) then
                   forall h :: IsHandler(space, h) && h != At(space, |a.ticks|) ==> h in a.used
                 else
                   At(space, |a'.ticks|) !in a.used && a'.used == a.used + {At(space, |a'.ticks|)}
  {
    if op.Generate? {
      var t := |a.ticks|;
      var n := Search(space, a.used, t);
      GeneratedInvalid(space, a.used, t);
      NotBackBefore(space, t, n);
      forall i | t < i < t + n ensures At(space, i) in a.used {
        assert InUse(space, a.used, t, i - t);
      }
      if n < Size(space) {
        assert !InUse(space, a.used, t, n);
      }
    }
  }

  /** The `t`-th advance is to the next handler of the cycle and comes to what the table says. */
  ghost predicate TickOK(space: Space, t: nat, tick: Tick) {
    && tick.handler == At(space, t + 1)
    && match tick.outcome
       case Skipped => tick.handler in tick.used
       case Granted => tick.handler !in tick.used
       case Stopped => forall h :: IsHandler(space, h) && h != tick.handler ==> h in tick.used
  }

  ghost predicate TicksOK(space: Space, ticks: seq<Tick>) {
    forall t :: 0 <= t < |ticks| ==> TickOK(space, t, ticks[t])
  }

  lemma AdvanceOK(space: Space, used: set<int>, t: nat, k: nat)
    requires 1 <= k <= Search(space, used, t)
    ensures var n := Search(space, used, t);
            TickOK(space, t + k - 1, TicksOf(space, used, t, n, k)[k - 1])
  {
    var n := Search(space, used, t);
    if k < n {
      assert InUse(space, used, t, k);
    } else if n == Size(space) {
      NotBackBefore(space, t, n);
      GeneratedInvalid(space, used, t);
    } else {
      assert !InUse(space, used, t, n);
    }
  }

  lemma {:induction false} AdvancesOK(space: Space, used: set<int>, t: nat, k: nat, i: nat)
    requires i < k <= Search(space, used, t)
    ensures TickOK(space, t + i, TicksOf(space, used, t, Search(space, used, t), k)[i])
    decreases k
  {
    if i == k - 1 {
      AdvanceOK(space, used, t, k);
    } else {
      AdvancesOK(space, used, t, k - 1, i);
    }
  }

  lemma {:induction false} RunTicks(space: Space, ops: seq<Op>)
    ensures TicksOK(space, Run(space, ops).ticks)
  {
    if ops != [] {
      RunTicks(space, ops[..|ops| - 1]);
      var a := Run(space, ops[..|ops| - 1]);
      if ops[|ops| - 1].Generate? {
        var t, n := |a.ticks|, Search(space, a.used, |a.ticks|);
        var ticks := Run(space, ops).ticks;
        assert ticks == a.ticks + TicksOf(space, a.used, t, n, n);
        forall i | t <= i < |ticks| ensures TickOK(space, i, ticks[i]) {
          AdvancesOK(space, a.used, t, n, i - t);
        }
      }
    }
  }

  /** Handler `g` had its turn strictly between the advances `i` and `j`: then it was granted, or in use,
      or the search was giving up with all the others in use. */
  ghost predicate HadItsTurn(space: Space, ticks: seq<Tick>, i: nat, j: nat, g: int) {
    exists t :: i < t < j < |ticks| && ticks[t].handler == g && TickOK(space, t, ticks[t])
  }

  lemma GrantsApart(space: Space, ticks: seq<Tick>, i: nat, j: nat)
    requires TicksOK(space, ticks) && i < j < |ticks| && ticks[i].handler == ticks[j].handler
    ensures (j - i) % Size(space) == 0 && j - i >= Size(space)
  {
    assert TickOK(space, i, ticks[i]) && TickOK(space, j, ticks[j]);
    SameHandler(space, i + 1, j + 1);
    if j - i < Size(space) {
      ModOf(j - i, Size(space), 0, j - i);
    }
  }

  lemma OthersHadTheirTurn(space: Space, ticks: seq<Tick>, i: nat, j: nat, g: int)
    requires TicksOK(space, ticks) && i + Size(space) <= j < |ticks|
    requires IsHandler(space, g) && g != ticks[i].handler
    ensures HadItsTurn(space, ticks, i, j, g)
  {
    assert TickOK(space, i, ticks[i]);
    var k := Covers(space, i + 1, g);
    NotBackBefore(space, i + 1, k);
    assert TickOK(space, i + k, ticks[i + k]);
  }

  /** Between two grants of a handler lies a whole number of cycles, at least one, in which every other
      valid handler had its turn. */
  lemma NoEarlyReuse(space: Space, ops: seq<Op>, i: nat, j: nat)
    requires var ticks := Run(space, ops).ticks;
             && i < j < |ticks| && ticks[i].handler == ticks[j].handler
             && ticks[i].outcome == Granted && ticks[j].outcome == Granted
    ensures (j - i) % Size(space) == 0 && j - i >= Size(space)
    ensures var ticks := Run(space, ops).ticks;
            forall g :: IsHandler(space, g) && g != ticks[i].handler ==> HadItsTurn(space, ticks, i, j, g)
  {
    var ticks := Run(space, ops).ticks;
    RunTicks(space, ops);
    GrantsApart(space, ticks, i, j);
    forall g | IsHandler(space, g) && g != ticks[i].handler ensures HadItsTurn(space, ticks, i, j, g) {
      OthersHadTheirTurn(space, ticks, i, j, g);
    }
  }
}
