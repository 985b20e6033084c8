/** The connection handler allocator: a round-robin search over the values of `connection_handler`,
    which is a cyclic range of integers from which one value, -1, is excluded. */
module HandlerAllocator {

  const CONNECTION_HANDLER_INVALID := -1

  datatype Range = Range(lo: int, hi: int)

  /** The values of the integer type.  It has to hold -1 and at least one value besides 0 and -1. */
  type Space = r: Range | r.lo <= -1 && 1 <= r.hi witness Range(-1, 1)

  /** The C++ `int`. */
  const INT_SPACE: Space := Range(-0x8000_0000, 0x7fff_ffff)

  predicate IsHandler(space: Space, h: int) {
    space.lo <= h <= space.hi && h != CONNECTION_HANDLER_INVALID
  }

  /** How many valid handlers there are. */
  function Size(space: Space): (n: nat)
    ensures n >= 2
  {
    space.hi - space.lo
  }

  /** `++` on the handler type, wrapping at the top. */
  function Increment(space: Space, h: int): int {
    if h == space.hi then space.lo else h + 1
  }

  /** One advance of the counter: `++`, and once more over the invalid value. */
  function Advance(space: Space, h: int): int {
    var n := Increment(space, h);
    if n == CONNECTION_HANDLER_INVALID then Increment(space, n) else n
  }

  /** The place of a handler in the cycle 0, 1, .., hi, lo, .., -2. */
  function Position(space: Space, h: int): (p: nat)
    requires IsHandler(space, h)
    ensures p < Size(space)
  {
    if h >= 0 then h else space.hi + 1 + (h - space.lo)
  }

  /** The value of the counter, which starts at 0, after `ticks` advances. */
  function At(space: Space, ticks: nat): (h: int)
    ensures IsHandler(space, h)
  {
    if ticks == 0 then 0 else Advance(space, At(space, ticks - 1))
  }

  // ----- the cycle -----

  lemma ModNext(k: nat, n: nat)
    requires n > 0
    ensures (k + 1) % n == if k % n + 1 == n then 0 else k % n + 1
  {
    if k % n + 1 == n {
      ModOf(k + 1, n, k / n + 1, 0);
    } else {
      ModOf(k + 1, n, k / n, k % n + 1);
    }
  }

  lemma ModOf(a: int, n: nat, q: int, r: nat)
    requires n > 0 && a == q * n + r && r < n
    ensures a % n == r
  {
    var q1, r1 := a / n, a % n;
    assert a == q1 * n + r1;
    assert (q1 - q) * n == r - r1;
    if q1 - q >= 1 {
      MulAtLeast(q1 - q, n);
    } else if q - q1 >= 1 {
      MulAtLeast(q - q1, n);
    }
  }

  lemma MulAtLeast(d: int, n: nat)
    requires d >= 1
    ensures d * n >= n
  {
  }

  /** The counter is at the place in the cycle that the number of advances gives. */
  lemma {:induction false} PositionAt(space: Space, ticks: nat)
    ensures Position(space, At(space, ticks)) == ticks % Size(space)
  {
    if ticks > 0 {
      PositionAt(space, ticks - 1);
      ModNext(ticks - 1, Size(space));
    }
  }

  lemma SamePosition(space: Space, h1: int, h2: int)
    requires IsHandler(space, h1) && IsHandler(space, h2)
    requires Position(space, h1) == Position(space, h2)
    ensures h1 == h2
  {
  }

  lemma ModDifference(i: nat, j: nat, n: nat)
    requires n > 0 && i <= j
    ensures i % n == j % n <==> (j - i) % n == 0
  {
    var qi, qj, ri, rj := i / n, j / n, i % n, j % n;
    assert i == qi * n + ri && j == qj * n + rj;
    if ri <= rj {
      assert j - i == (qj - qi) * n + (rj - ri);
      ModOf(j - i, n, qj - qi, rj - ri);
    } else {
      assert j - i == (qj - qi - 1) * n + (n + rj - ri);
      ModOf(j - i, n, qj - qi - 1, n + rj - ri);
    }
  }

  /** Counter values are equal exactly when they are a whole number of cycles apart. */
  lemma SameHandler(space: Space, i: nat, j: nat)
    requires i <= j
    ensures At(space, i) == At(space, j) <==> (j - i) % Size(space) == 0
  {
    PositionAt(space, i);
    PositionAt(space, j);
    ModDifference(i, j, Size(space));
    if i % Size(space) == j % Size(space) {
      SamePosition(space, At(space, i), At(space, j));
    }
  }

  /** Within one cycle every handler comes up. */
  lemma Covers(space: Space, ticks: nat, h: int) returns (k: nat)
    requires IsHandler(space, h)
    ensures 0 < k <= Size(space) && At(space, ticks + k) == h
  {
    var n := Size(space);
    var p, r := Position(space, h), ticks % n;
    k := if p > r then p - r else n + p - r;
    assert ticks == (ticks / n) * n + r;
    if p > r {
      ModOf(ticks + k, n, ticks / n, p);
    } else {
      assert ticks + k == (ticks / n + 1) * n + p;
      ModOf(ticks + k, n, ticks / n + 1, p);
    }
    PositionAt(space, ticks + k);
    SamePosition(space, At(space, ticks + k), h);
  }

  /** The handlers of `int` are its 2^32 values but -1, and the counter goes through them upwards from 0,
      from the largest to the smallest, and over -1. */
  lemma IntHandlers(h: int)
    ensures IsHandler(INT_SPACE, h) <==> -2147483648 <= h <= 2147483647 && h != -1
    ensures Size(INT_SPACE) == 4294967295 && At(INT_SPACE, 0) == 0
    ensures h == 2147483647 ==> Advance(INT_SPACE, h) == -2147483648
    ensures h == -2 ==> Advance(INT_SPACE, h) == 0
    ensures IsHandler(INT_SPACE, h) && h != 2147483647 && h != -2 ==> Advance(INT_SPACE, h) == h + 1
  {
  }

  // ----- the search -----

  /** The handler reached after `j` more advances is in use. */
  predicate InUse(space: Space, used: set<int>, ticks: nat, j: nat) {
    At(space, ticks + j) in used
  }

  /** The number of advances after which the search ends, if the first `k - 1` did not end it: at the
      first handler not in use, or after a full cycle, back at the start, which is not examined. */
  function SearchFrom(space: Space, used: set<int>, ticks: nat, k: nat): (n: nat)
    requires 1 <= k <= Size(space)
    ensures k <= n <= Size(space)
    ensures n < Size(space) ==> !InUse(space, used, ticks, n)
    ensures forall j :: k <= j < n ==> InUse(space, used, ticks, j)
    decreases Size(space) - k
  {
    if k == Size(space) || !InUse(space, used, ticks, k) then k
    else SearchFrom(space, used, ticks, k + 1)
  }

  function Search(space: Space, used: set<int>, ticks: nat): (n: nat)
    ensures 1 <= n <= Size(space)
  {
    SearchFrom(space, used, ticks, 1)
  }

  /** The handler `GenerateConnectionHandler` returns. */
  function Generated(space: Space, used: set<int>, ticks: nat): (h: int)
    ensures h == CONNECTION_HANDLER_INVALID || (IsHandler(space, h) && h !in used)
  {
    var n := Search(space, used, ticks);
    if n == Size(space) then CONNECTION_HANDLER_INVALID else At(space, ticks + n)
  }

  /** The search fails if and only if every valid handler, except perhaps the one at which the counter
      stands, is in use. */
  lemma GeneratedInvalid(space: Space, used: set<int>, ticks: nat)
    ensures Generated(space, used, ticks) == CONNECTION_HANDLER_INVALID
       <==> forall h :: IsHandler(space, h) && h != At(space, ticks) ==> h in used
  {
    var n := Search(space, used, ticks);
    if n == Size(space) {
      forall h | IsHandler(space, h) && h != At(space, ticks) ensures h in used {
        AllButStartInUse(space, used, ticks, h);
      }
    } else {
      NotBackBefore(space, ticks, n);
      assert IsHandler(space, At(space, ticks + n));
    }
  }

  lemma NotBackBefore(space: Space, ticks: nat, n: nat)
    requires 1 <= n <= Size(space)
    ensures At(space, ticks + n) == At(space, ticks) <==> n == Size(space)
  {
    SameHandler(space, ticks, ticks + n);
    if n < Size(space) {
      ModOf(n, Size(space), 0, n);
    } else {
      ModOf(n, Size(space), 1, 0);
    }
  }

  lemma AllButStartInUse(space: Space, used: set<int>, ticks: nat, h: int)
    requires Search(space, used, ticks) == Size(space)
    requires IsHandler(space, h) && h != At(space, ticks)
    ensures h in used
  {
    var k := Covers(space, ticks, h);
    NotBackBefore(space, ticks, k);
    assert InUse(space, used, ticks, k);
  }
}
