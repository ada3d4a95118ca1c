/**
 * What the two benchmark binaries share about their workers: the
 * worker-local state, the ways a worker's receive loop can end, how many
 * items a worker solves from what it is delivered, and the pool-wide count.
 */
module Pool {
  import opened Wrapping
  import opened Requests

  /** Why a worker thread panics inside its loop. */
  datatype PanicReason =
    | DivideByZero     // `wrapping_div` with a zero divisor
    | AnswerMismatch   // the `assert_eq!` in `check_answer`

  /** How a run of a worker's receive loop ends. */
  datatype WorkerExit =
    | Finished                  // the channel reported closed: the loop is left for good
    | Blocked                   // the channel is empty but open: the thread waits in `recv`
    | Panicked(reason: PanicReason)

  /**
   * A worker thread's own state: its id (also the core it is bound to) and
   * its local `solved` counter, which nothing else reads or writes.
   */
  class Worker {
    const id: nat
    var solved: nat

    constructor (id: nat)
      ensures this.id == id && solved == 0
    {
      this.id := id;
      solved := 0;
    }
  }

  /**
   * How many of the delivered items a worker solves: it stops at the first
   * item that divides by zero, and every item before that is solved.
   */
  function SolvablePrefix(items: seq<ComputeRequest>): (n: nat)
    ensures n <= |items|
    ensures forall i :: 0 <= i < n ==> !DividesByZero(items[i])
    ensures n < |items| ==> DividesByZero(items[n])
  {
    if items == [] || DividesByZero(items[0]) then 0
    else 1 + SolvablePrefix(items[1..])
  }

  function Sum(xs: seq<nat>): nat {
    if xs == [] then 0 else xs[0] + Sum(xs[1..])
  }

  /** The items of all workers, worker by worker. */
  function Concat(parts: seq<seq<ComputeRequest>>): (all: seq<ComputeRequest>)
    ensures forall w, req :: 0 <= w < |parts| && req in parts[w] ==> req in all
  {
    if parts == [] then [] else parts[0] + Concat(parts[1..])
  }

  /** What each worker solves when worker `w` is delivered `parts[w]`. */
  function SolvedCounts(parts: seq<seq<ComputeRequest>>): (counts: seq<nat>)
    ensures |counts| == |parts|
  {
    seq(|parts|, w requires 0 <= w < |parts| => SolvablePrefix(parts[w]))
  }

  /** Without a zero divisor among them, a worker solves all its items. */
  lemma SolvesAllWithoutZeroDivisor(items: seq<ComputeRequest>)
    requires forall req :: req in items ==> !DividesByZero(req)
    ensures SolvablePrefix(items) == |items|
  {
  }

  /** Summed over the pool, solved counts add up to all delivered items. */
  lemma {:induction false} SolvedCountsAddUp(parts: seq<seq<ComputeRequest>>)
    requires forall req :: req in Concat(parts) ==> !DividesByZero(req)
    ensures Sum(SolvedCounts(parts)) == |Concat(parts)|
  {
    if parts != [] {
      SolvesAllWithoutZeroDivisor(parts[0]);
      SolvedCountsAddUp(parts[1..]);
      assert SolvedCounts(parts) == [SolvablePrefix(parts[0])] + SolvedCounts(parts[1..]);
    }
  }

  /**
   * However the channel hands the driver's `m` jobs out among the workers
   * (any split, any order: `parts[w]` is what worker `w` receives, and
   * together they are exactly the jobs), no worker stops early and the
   * workers' solved counts sum to `m`.
   */
  lemma PoolSolvesEveryJob(parts: seq<seq<ComputeRequest>>, m: nat)
    requires m <= Modulus
    requires multiset(Concat(parts)) == multiset(Jobs(m))
    ensures forall w :: 0 <= w < |parts| ==> SolvedCounts(parts)[w] == |parts[w]|
    ensures Sum(SolvedCounts(parts)) == m
  {
    JobsNeverDivideByZero(m);
    forall req | req in Concat(parts) ensures !DividesByZero(req) {
      assert req in multiset(Concat(parts));
    }
    forall w | 0 <= w < |parts| ensures SolvedCounts(parts)[w] == |parts[w]| {
      SolvesAllWithoutZeroDivisor(parts[w]);
    }
    SolvedCountsAddUp(parts);
    assert |multiset(Concat(parts))| == |multiset(Jobs(m))|;
  }
}
