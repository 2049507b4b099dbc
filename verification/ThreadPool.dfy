/** net/EventLoopThreadPool: which loop the next connection goes to. */
module ThreadPools {

  type LoopId = nat

  // ------------------------------------------------------------ specification

  /** How many of the first `k` calls on `n` loops return the i-th. */
  function Served(i: nat, k: nat, n: nat): nat
    requires n > 0
  {
    if k == 0 then 0 else Served(i, k - 1, n) + (if (k - 1) % n == i then 1 else 0)
  }

  lemma MulOrder(a: int, b: int, n: int)
    requires a < b && n > 0
    ensures a * n + n <= b * n
  {
    assert b * n == (a + 1) * n + (b - a - 1) * n;
    assert (b - a - 1) * n >= 0;
  }

  lemma DivUnique(m: int, n: int, q: int, r: int)
    requires 0 <= r < n && m == q * n + r
    ensures m / n == q && m % n == r
  {
    var d := m / n;
    assert m == n * d + m % n;
    if d > q { MulOrder(q, d, n); } else if d < q { MulOrder(d, q, n); }
  }

  /** The exact share of loop `i` after `k` calls. */
  lemma {:induction false} ShareIs(i: nat, k: nat, n: nat)
    requires i < n
    ensures Served(i, k, n) == (k + n - 1 - i) / n
  {
    if k == 0 {
      DivUnique(n - 1 - i, n, 0, n - 1 - i);
    } else {
      ShareIs(i, k - 1, n);
      NextShare(i, k - 1, n);
    }
  }

  lemma NextShare(i: nat, j: nat, n: nat)
    requires i < n
    ensures (j + n - i) / n == (j + n - 1 - i) / n + (if j % n == i then 1 else 0)
  {
    var q, r := j / n, j % n;
    assert j == q * n + r;
    Share(j, n, q, r, i);
  }

  lemma Share(j: nat, n: nat, q: nat, r: nat, i: nat)
    requires i < n && r < n && j == q * n + r
    ensures (j + n - 1 - i) / n == q + (if r > i then 1 else 0)
    ensures (j + n - i) / n == q + (if r >= i then 1 else 0)
  {
    assert (q + 1) * n == q * n + n;
    if r > i { DivUnique(j + n - 1 - i, n, q + 1, r - 1 - i); } else { DivUnique(j + n - 1 - i, n, q, r + n - 1 - i); }
    if r >= i { DivUnique(j + n - i, n, q + 1, r - i); } else { DivUnique(j + n - i, n, q, r + n - i); }
  }

  /** No loop is ever more than one connection ahead of another, and earlier loops
      are never behind later ones. */
  lemma Balanced(i: nat, j: nat, k: nat, n: nat)
    requires i <= j < n
    ensures Served(j, k, n) <= Served(i, k, n) <= Served(j, k, n) + 1
  {
    var q, r := k / n, k % n;
    assert k == q * n + r;
    RoundsServed(i, k, n, q, r);
    RoundsServed(j, k, n, q, r);
  }

  /** `q` full rounds and `r` calls into the next. */
  lemma RoundsServed(i: nat, k: nat, n: nat, q: nat, r: nat)
    requires i < n && r < n && k == q * n + r
    ensures Served(i, k, n) == q + (if r > i then 1 else 0)
  {
    ShareIs(i, k, n);
    Share(k, n, q, r, i);
  }

  // ----------------------------------------------------------- implementation

  class EventLoopThreadPool {
    const baseLoop: LoopId
    var started: bool
    var numThreads: nat
    var next: nat
    var loops: seq<LoopId>
    ghost var calls: nat

    ghost predicate Valid()
      reads this
    {
      next == if loops == [] then 0 else calls % |loops|
    }

    constructor (baseLoop: LoopId, numThreads: nat)
      ensures Valid() && !started && loops == [] && calls == 0
      ensures this.baseLoop == baseLoop && this.numThreads == numThreads
    {
      this.baseLoop, this.numThreads := baseLoop, numThreads;
      started, next, loops, calls := false, 0, [], 0;
    }

    /** `spawned` are the loops the new threads report. */
    method Start(spawned: seq<LoopId>)
      requires Valid() && !started && loops == [] && calls == 0 && |spawned| == numThreads
      modifies this
      ensures Valid() && started && loops == spawned && calls == 0
    {
      started := true;
      var i := 0;
      while i < numThreads
        invariant 0 <= i <= numThreads && numThreads == |spawned| && loops == spawned[..i]
        invariant started && next == 0 && calls == 0
      {
        loops := loops + [spawned[i]];
        i := i + 1;
      }
    }

    method GetNextLoop() returns (loop: LoopId)
      requires Valid() && started
      modifies `next, `calls
      ensures Valid() && calls == old(calls) + 1
      ensures loop == if loops == [] then baseLoop else loops[old(calls) % |loops|]
    {
      loop := baseLoop;
      if loops != [] {
        NextIndex(calls, |loops|);
        loop := loops[next];
        next := next + 1;
        if next >= |loops| {
          next := 0;
        }
      }
      calls := calls + 1;
    }
  }

  lemma NextIndex(k: nat, n: nat)
    requires n > 0
    ensures (k + 1) % n == if k % n + 1 == n then 0 else k % n + 1
  {
    var q, r := k / n, k % n;
    assert k == q * n + r;
    assert (q + 1) * n == q * n + n;
    if r + 1 == n {
      DivUnique(k + 1, n, q + 1, 0);
    } else {
      DivUnique(k + 1, n, q, r + 1);
    }
  }
}
