/** EventLoopThreadPool.cc: round-robin choice of an I/O loop. */
module ThreadPools {

  type Loop = nat

  /** The index after `next` among `n` loops, with wraparound. */
  function NextIndex(next: nat, n: nat): nat {
    if n <= next + 1 then 0 else next + 1
  }

  /** How many of the first `calls` calls picked the loop at position `i` of `n`. */
  function Picks(calls: nat, n: nat, i: nat): nat
    requires 0 < n
  {
    if calls == 0 then 0 else Picks(calls - 1, n, i) + if (calls - 1) % n == i then 1 else 0
  }

  lemma {:induction false} MulStep(n: nat, a: nat, b: nat)
    requires a < b
    ensures n * a + n <= n * b
    decreases b
  {
    assert n * b == n * (b - 1) + n;
    if a < b - 1 { MulStep(n, a, b - 1); }
  }

  lemma DivUnique(k: nat, n: nat, q: nat, r: nat)
    requires 0 < n && k == n * q + r && r < n
    ensures k / n == q && k % n == r
  {
    var p := k / n;
    assert k == n * p + k % n;
    if q < p { MulStep(n, q, p); }
    if p < q { MulStep(n, p, q); }
  }

  lemma DivStep(k: nat, n: nat)
    requires 0 < n
    ensures (k + 1) / n == if k % n == n - 1 then k / n + 1 else k / n
    ensures (k + 1) % n == if k % n == n - 1 then 0 else k % n + 1
  {
    var q, r := k / n, k % n;
    assert k == n * q + r;
    if r == n - 1 {
      assert n * (q + 1) == n * q + n;
      DivUnique(k + 1, n, q + 1, 0);
    } else {
      DivUnique(k + 1, n, q, r + 1);
    }
  }

  /** Fairness: after any number of calls loop `i` has been picked once per full round, and once
      more if the current round has passed it; so any two counts differ by at most one. */
  lemma {:induction false} RoundRobin(calls: nat, n: nat, i: nat)
    requires i < n
    ensures Picks(calls, n, i) == calls / n + if i < calls % n then 1 else 0
    decreases calls
  {
    if calls == 0 {
      DivUnique(0, n, 0, 0);
    } else {
      RoundRobin(calls - 1, n, i);
      DivStep(calls - 1, n);
    }
  }

  /** No loop is ever more than one call ahead of another. */
  lemma Fair(calls: nat, n: nat, i: nat, j: nat)
    requires i < n && j < n
    ensures Picks(calls, n, i) <= Picks(calls, n, j) + 1
  {
    RoundRobin(calls, n, i);
    RoundRobin(calls, n, j);
  }

  class EventLoopThreadPool {
    const baseLoop: Loop
    var started: bool
    var numThreads: nat
    var loops: seq<Loop>
    var next: nat
    ghost var calls: nat

    ghost predicate Valid()
      reads this
    {
      (loops == [] ==> next == 0) && (loops != [] ==> next == calls % |loops|)
    }

    constructor (baseLoop: Loop)
      ensures Valid() && !started && loops == [] && this.baseLoop == baseLoop && numThreads == 0 && calls == 0
    {
      this.baseLoop := baseLoop;
      started, numThreads, loops, next, calls := false, 0, [], 0, 0;
    }

    method SetThreadNum(n: nat)
      requires Valid()
      modifies this`numThreads
      ensures Valid() && numThreads == n
    {
      numThreads := n;
    }

    /** start: thread i runs a loop of its own, `spawned[i]`. */
    method Start(spawned: seq<Loop>)
      requires Valid() && !started && loops == [] && calls == 0 && |spawned| == numThreads
      modifies this`started, this`loops
      ensures Valid() && started && loops == spawned
    {
      started := true;
      for i := 0 to numThreads
        invariant loops == spawned[..i] && started && next == 0 && calls == 0
      {
        loops := loops + [spawned[i]];
      }
      assert spawned[..numThreads] == spawned;
    }

    /** Call number k returns loop k modulo the number of loops, or the base loop if there is none. */
    method GetNextLoop() returns (loop: Loop)
      requires Valid()
      modifies this`next, this`calls
      ensures Valid() && calls == old(calls) + 1
      ensures loop == if loops == [] then baseLoop else loops[old(calls) % |loops|]
      ensures loops != [] ==> old(next) < |loops| && loop == loops[old(next)]
      ensures next == NextIndex(old(next), |loops|)
    {
      loop := baseLoop;
      if loops != [] {
        DivStep(calls, |loops|);
        loop := loops[next];
        next := next + 1;
        if |loops| <= next {
          next := 0;
        }
      }
      calls := calls + 1;
    }
  }
}
