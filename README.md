# flume-monoio benchmark core, modelled in Dafny

The repository holds two benchmark binaries that push 100 000 000 small
arithmetic work items through one shared bounded flume channel to a pool of
CPU-pinned workers. `src/sync.rs` uses four blocking OS-thread workers that
acknowledge every item with a zero-sized token on a second channel.
`src/async.rs` uses three workers, each a single task on a monoio event
loop, and has no completion channel.

This project models the sequential logic of both binaries:

- `wrapping.dfy` (module `Wrapping`): `usize` on a 64-bit target and the
  `wrapping_add`, `wrapping_sub`, `wrapping_mul` and `wrapping_div`
  operations, as arithmetic modulo 2^64. Division requires a nonzero divisor.
- `requests.dfy` (module `Requests`): the `ComputeRequest` item type, the
  worker's evaluating match (`Compute`) and `check_answer` (`CheckAnswer`).
  It also holds the driver's generation rule (`Generate`, `Jobs`) and its
  facts: no zero divisor, no wrap-around below 10^8, and the first eight
  outcomes. The two binaries declare these identically, at
  src/async.rs:3-24, 56-61, 85-92 and src/sync.rs:1-22, 48-53, 73-80, so
  one module models both copies.
- `channels.dfy` (module `Channels`): a sequential view of a flume bounded
  channel. It is a class with a FIFO `queue`, a `capacity` and a count of
  live `senders`. A receive that would park the thread returns `Pending`.
- `pool.dfy` (module `Pool`): the worker-local state (`Worker`, with its
  `solved` counter) and the ways a worker loop ends. It also proves that
  however the jobs are split among workers, the solved counts add up to the
  number of jobs.
- `driver.dfy` (module `Driver`): the driver's submission loop and the
  blocking binary's completion drain.
- `async_bench.dfy` and `sync_bench.dfy`: each binary's worker loop, and
  one sequential schedule of its `main`, proved to end with every worker
  finished and the counts adding up.

A division by zero panics in Rust. The model makes it an explicit outcome:
the worker loop ends with `Panicked(DivideByZero)` after taking the
offending item. `Compute` and `CheckAnswer` require a nonzero divisor
because their only call site comes after that point. The self-check's
failure is the outcome `Panicked(AnswerMismatch)`. The worker loops are
proved never to produce it.

The blocking worker sends its completion token before incrementing `solved`
(src/sync.rs:57-58). Item count, worker counts and capacities are the
constants of the source, not parameters.

## Model

| member | source | states |
|---|---|---|
| Wrapping.WrappingAdd | src/async.rs:57 | the sum itself when it fits in 64 bits, otherwise the sum less 2^64 |
| Wrapping.WrappingSub | src/async.rs:58 | the difference itself when it does not underflow, otherwise the difference plus 2^64 |
| Wrapping.WrappingMul | src/async.rs:59 | congruent to the exact product modulo 2^64, and equal to it exactly when the product is below 2^64 (both directions) |
| Wrapping.WrappingDiv | src/async.rs:60 | defined only for a nonzero divisor; the result r is the floor quotient, r*b <= a < r*b + b |
| Requests.Exact | src/async.rs:56-61 | the unbounded value of each operation: Add, Mul and Div are never negative, Div lies between 0 and the dividend, and Sub is negative exactly when the subtrahend exceeds the minuend |
| Requests.Compute | src/async.rs:56-61 | defined unless the item is Div with divisor 0; the answer is the exact mathematical value reduced modulo 2^64, and is that value whenever it fits in a usize |
| Requests.CheckAnswer | src/async.rs:12-21 | the self-check passes exactly for the answer the worker's own evaluation gives; every other answer makes the `assert_eq!` fail |
| Requests.CheckAnswerAcceptsExactlyCompute | src/async.rs:12-21 | the self-check accepts an answer iff it equals the exact value reduced modulo 2^64, so it accepts Compute's answer and rejects every other |
| Requests.Generate | src/async.rs:86-92 | item num has operands (num, num / 2) and never divides by zero: a Div item has divisor at least 1; the unreachable arm is dead |
| Requests.Jobs | src/async.rs:85 | the items for the index range 0..m, one per index, item i at position i |
| Requests.GenerateCycles | src/async.rs:85-92 | item num is Add, Sub, Mul or Div exactly when num % 4 is 0, 1, 2 or 3, with operands (num, num / 2); the unreachable arm is never taken |
| Requests.GeneratedNeverWraps | src/async.rs:85-90 | for every index below 100 000 000, the generated item evaluates to its exact value: no Add or Mul overflow and no Sub underflow |
| Requests.FirstEightOutcomes | src/async.rs:85-92 | items 0 to 7 evaluate to 0, 1, 2, 3, 6, 3, 18, 2 |
| Requests.JobsNeverDivideByZero | src/async.rs:85-96 | no item of the driver's job sequence divides by zero |
| Pool.Worker.constructor | src/async.rs:53 | a new worker has solved nothing |
| Pool.SolvablePrefix | src/async.rs:55-66 | a worker solves the items before the first zero divisor in what it receives, and every one of them has a nonzero divisor |
| Pool.SolvesAllWithoutZeroDivisor | src/async.rs:55-66 | a worker whose items have no zero divisor solves all of them |
| Pool.SolvedCountsAddUp | src/async.rs:55-66 | over a pool, the solved counts sum to the number of delivered items when none divides by zero |
| Pool.PoolSolvesEveryJob | src/async.rs:53-96 | for any split of the driver's jobs among workers, in any order, no worker stops early and the solved counts sum to the number of jobs |
| Channels.Channel.constructor | src/async.rs:28 | `flume::bounded(n)` gives an empty channel of capacity n with one sender handle |
| Channels.Channel.CloneSender | src/sync.rs:34 | cloning a sender adds one live sender handle |
| Channels.Channel.DropSender | src/async.rs:100 | dropping a sender removes one live sender handle |
| Channels.Channel.Send | src/async.rs:95 | a sent item joins the back of the queue |
| Channels.Channel.Recv | src/sync.rs:47 | a receive takes the oldest item; on an empty queue it reports closed when no sender is left, and would block otherwise |
| Driver.SendJobs | src/async.rs:85-96 | the driver appends exactly the generated items 0 .. m-1, in index order, to the work channel |
| Driver.AwaitCompletions | src/sync.rs:89-91 | the driver takes min(m, available) tokens and leaves the rest; it reaches m only if m tokens are there |
| AsyncBench.Work | src/async.rs:53-70 | a worker's solved count grows by exactly the items it takes before any zero divisor; it panics at a zero divisor; otherwise it drains the queue and ends finished if the channel is closed, blocked if not; the self-check never fires |
| AsyncBench.Run | src/async.rs:26-108 | with the driver sending all jobs and dropping its sender, all three workers finish without panicking and their solved counts sum to 100 000 000 |
| SyncBench.Work | src/sync.rs:46-62 | as for the cooperative worker, and the tokens it sends always equal its increase of solved |
| SyncBench.Round | src/sync.rs:31-65 | four workers in turn drain the queued jobs, one token per job, and all end blocked on an open channel or finished on a closed one |
| SyncBench.SubmitAndAwait | src/sync.rs:73-91 | after submission and the workers' drain, the driver receives exactly 100 000 000 tokens, the number of jobs it sent |
| SyncBench.ShutDown | src/sync.rs:95-99 | once the driver drops its handles, every worker leaves its loop because the channel closed, no solved count changes, no token is sent after the drop, both queues stay empty, and every sender handle is released |
| SyncBench.Run | src/sync.rs:24-106 | the completion barrier is met with exactly as many tokens as jobs, all four workers finish without panicking, and their solved counts sum to the tokens received |

## Left out

- Thread spawning and joining, and `thread.join().unwrap()` re-raising a worker's panic: concurrency, with no sequential contract.
- CPU affinity (`monoio::utils::bind_to_cpu_set`) and its failure path: a platform call. Worker ids stand for cores. In src/sync.rs worker 3 and the driver share core 3; the model does not represent this.
- The monoio io_uring runtime and `block_on`: an external async runtime. A suspended `recv_async().await` is treated like a blocking `recv()`.
- Console output (`println!` lifecycle and progress lines): output only.
- Commented-out code in src/async.rs (the spawn wrapper, the stream and the completion send): it does not execute.
- Channels.Channel.Send: requires a free slot, because a send into a full channel blocks and a sequential model cannot block. Both binaries size each channel for the whole workload, and the schedules prove the slot is always there.
- Channels.Channel.Send: flume's failure when every receiver has been dropped is not modelled, since receiver handles are not counted. Neither binary drops its receivers before its sends are done.
- Driver.SendJobs: requires room for all jobs, for the same reason as Channels.Channel.Send.
- AsyncBench.Run: proves one interleaving only. The driver sends everything, then the workers run in turn. Contention, and the unexplained one-worker-at-a-time behaviour noted in the source, are not modelled. Pool.PoolSolvesEveryJob covers every other split of the jobs.
- SyncBench.Run: proves one interleaving only. The workers run in turn between the driver's steps, and worker 0 takes every job.
- Pool.Worker.constructor: `solved` is a `nat`, while Rust infers `i32` for `let mut solved = 0`. At most 10^8 items exist, below 2^31, so the counter never overflows.
- Exactly-once delivery across concurrently receiving workers is a flume guarantee. Sequentially it becomes "a received item leaves the queue".
