/** EventLoopThreadPool: round-robin choice of a loop.  Loop 0 is the base loop,
    loops 1 to n are the sub loops. */
module ThreadPool {

  type LoopId = nat

  /** The loop of the k-th connection, counting from 0. */
  function LoopFor(n: nat, k: nat): LoopId {
    if n == 0 then 0 else 1 + k % n
  }

  /** next_ after k calls. */
  function NextAfter(n: nat, k: nat): nat {
    if n == 0 then 0 else k % n
  }

  class EventLoopThreadPool {
    const loops: seq<LoopId>
    var next: nat
    ghost var calls: nat

    ghost predicate Valid()
      reads this
    {
      && (forall i :: 0 <= i < |loops| ==> loops[i] == i + 1)
      && next == NextAfter(|loops|, calls)
    }

    constructor (numThreads: nat)
      ensures Valid() && |loops| == numThreads && calls == 0
    {
      loops := seq(numThreads, i => i + 1);
      next, calls := 0, 0;
    }

    method GetNextLoop() returns (loop: LoopId)
      requires Valid()
      modifies this
      ensures Valid() && calls == old(calls) + 1
      ensures loop == LoopFor(|loops|, old(calls))
    {
      loop := 0;
      if |loops| > 0 {
        loop := loops[next];
        next := next + 1;
        if next >= |loops| {
          next := 0;
        }
        Wraps(calls, |loops|);
      }
      calls := calls + 1;
    }
  }

  lemma Wraps(k: nat, n: nat)
    requires n > 0
    ensures (k + 1) % n == if k % n + 1 >= n then 0 else k % n + 1
  {
    var q, r := k / n, k % n;
    assert k == q * n + r;
    if r + 1 >= n {
      assert k + 1 == (q + 1) * n;
      ModIs(k + 1, n, q + 1, 0);
    } else {
      ModIs(k + 1, n, q, r + 1);
    }
  }

  lemma ModIs(x: nat, n: nat, q: nat, r: nat)
    requires n > 0 && x == q * n + r && r < n
    ensures x % n == r && x / n == q
  {
    var d := x / n - q;
    assert x == (x / n) * n + x % n;
    assert d * n == r - x % n;
  }

  /** How many of the k connections from the a-th on are placed on loop 1 + r. */
  function Placed(n: nat, r: nat, a: nat, k: nat): nat
    requires n > 0
  {
    if k == 0 then 0
    else Placed(n, r, a, k - 1) + (if LoopFor(n, a + k - 1) == 1 + r then 1 else 0)
  }

  /** Position in the turn, and turns completed, counted one connection at a
      time. */
  function Part(n: nat, k: nat): (p: nat)
    requires n > 0
    ensures p < n
  {
    if k == 0 || Part(n, k - 1) + 1 == n then 0 else Part(n, k - 1) + 1
  }

  function Turns(n: nat, k: nat): nat
    requires n > 0
  {
    if k == 0 then 0 else Turns(n, k - 1) + (if Part(n, k) == 0 then 1 else 0)
  }

  lemma {:induction false} TurnsAreQuotients(n: nat, k: nat)
    requires n > 0
    ensures Part(n, k) == k % n && Turns(n, k) == k / n
    ensures k == Turns(n, k) * n + Part(n, k)
  {
    if k == 0 {
      ModIs(0, n, 0, 0);
    } else {
      TurnsAreQuotients(n, k - 1);
      ModIs(k, n, Turns(n, k), Part(n, k)) by {
        assert Part(n, k) == 0 ==> Turns(n, k) * n == Turns(n, k - 1) * n + n;
      }
    }
  }

  /** How far position p is from the next place of loop 1 + r. */
  function Distance(n: nat, r: nat, p: nat): nat
    requires p < n && r < n
  {
    if p <= r then r - p else r + n - p
  }

  /** Full turns, and one more if the place of the loop falls in the part turn. */
  lemma {:induction false} PlacedIs(n: nat, r: nat, a: nat, k: nat)
    requires r < n
    ensures var d := Distance(n, r, Part(n, a));
            && Placed(n, r, a, k) == Turns(n, k) + (if d < Part(n, k) then 1 else 0)
            && Distance(n, r, Part(n, a + k)) ==
                 (if Part(n, k) <= d then d - Part(n, k) else d + n - Part(n, k))
  {
    if k > 0 {
      PlacedIs(n, r, a, k - 1);
      PartOfLoop(n, r, a + k - 1);
    }
  }

  lemma PartOfLoop(n: nat, r: nat, k: nat)
    requires r < n
    ensures LoopFor(n, k) == 1 + r <==> Part(n, k) == r
  {
    TurnsAreQuotients(n, k);
  }

  /** In every window of k consecutive connections each sub loop gets k / n of
      them, rounded down or up. */
  lemma RoundRobinBalanced(n: nat, r: nat, a: nat, k: nat)
    requires r < n
    ensures k / n <= Placed(n, r, a, k) <= (k + n - 1) / n
  {
    PlacedIs(n, r, a, k);
    TurnsAreQuotients(n, k);
    RoundedUp(n, Turns(n, k), Part(n, k));
  }

  lemma RoundedUp(n: nat, q: nat, m: nat)
    requires m < n
    ensures (q * n + m + n - 1) / n == q + (if m > 0 then 1 else 0)
  {
    if m > 0 {
      assert q * n + m + n - 1 == (q + 1) * n + (m - 1);
      ModIs(q * n + m + n - 1, n, q + 1, m - 1);
    } else {
      ModIs(q * n + m + n - 1, n, q, n - 1);
    }
  }
}
