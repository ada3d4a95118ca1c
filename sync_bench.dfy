/**
 * The blocking binary (src/sync.rs): four OS-thread workers drain the shared
 * work channel and send one zero-sized token per solved item back over a
 * completion channel; the driver waits for as many tokens as it sent jobs
 * before it drops its handles.
 */
module SyncBench {
  import opened Requests
  import opened Channels
  import opened Pool
  import opened Driver

  /** `(0..=3)`: worker ids, and so cores, 0 to 3. */
  const WorkerCount: nat := 4

  /**
   * The worker's `while let Ok(next_msg) = rx.recv()` loop, run until the
   * receive yields no item or the thread panics. Each received item is
   * evaluated, checked, acknowledged with one token on `done`, and then
   * counted, so the tokens this call sends always equal its increase of
   * `solved`. The completion channel must have room for every token.
   */
  method Work(w: Worker, rx: Channel<ComputeRequest>, done: Channel<()>) returns (exit: WorkerExit)
    requires done.senders > 0
    requires |done.queue| + |rx.queue| <= done.capacity
    modifies w`solved, rx`queue, done`queue
    ensures var n := SolvablePrefix(old(rx.queue));
      && w.solved == old(w.solved) + n
      && |done.queue| == |old(done.queue)| + n
      && (n < |old(rx.queue)| ==> exit == Panicked(DivideByZero) && rx.queue == old(rx.queue)[n + 1..])
      && (n == |old(rx.queue)| ==> rx.queue == [] && exit == (if rx.senders == 0 then Finished else Blocked))
  {
    ghost var items := rx.queue;
    ghost var k := 0;
    while true
      invariant k <= SolvablePrefix(items)
      invariant rx.queue == items[k..]
      invariant w.solved == old(w.solved) + k
      invariant |done.queue| == |old(done.queue)| + k
      decreases |rx.queue|
    {
      var msg := rx.Recv();
      if !msg.Item? {
        exit := if msg.Disconnected? then Finished else Blocked;
        return;
      }
      var req := msg.value;
      if DividesByZero(req) {
        exit := Panicked(DivideByZero);
        return;
      }
      var answer := Compute(req);
      if !CheckAnswer(req, answer) {
        exit := Panicked(AnswerMismatch);
        return;
      }
      done.Send(());
      w.solved := w.solved + 1;
      k := k + 1;
    }
  }

  /**
   * Every worker in turn runs its loop until the work channel yields no
   * item. Worker 0 takes all the queued jobs (none of which divides by
   * zero), acknowledging each; the others find the channel empty. All four
   * end blocked while the channel is open, and finished once it is closed.
   */
  method Round(w0: Worker, w1: Worker, w2: Worker, w3: Worker,
               rx: Channel<ComputeRequest>, done: Channel<()>)
    returns (exits: seq<WorkerExit>)
    requires w0 != w1 && w0 != w2 && w0 != w3 && w1 != w2 && w1 != w3 && w2 != w3
    requires done.senders > 0
    requires |done.queue| + |rx.queue| <= done.capacity
    requires forall req :: req in rx.queue ==> !DividesByZero(req)
    modifies w0`solved, w1`solved, w2`solved, w3`solved, rx`queue, done`queue
    ensures w0.solved == old(w0.solved) + |old(rx.queue)|
    ensures w1.solved == old(w1.solved) && w2.solved == old(w2.solved) && w3.solved == old(w3.solved)
    ensures |done.queue| == |old(done.queue)| + |old(rx.queue)|
    ensures rx.queue == []
    ensures |exits| == WorkerCount
    ensures forall t :: 0 <= t < WorkerCount ==> exits[t] == (if rx.senders == 0 then Finished else Blocked)
  {
    SolvesAllWithoutZeroDivisor(rx.queue);
    var e0 := Work(w0, rx, done);
    var e1 := Work(w1, rx, done);
    var e2 := Work(w2, rx, done);
    var e3 := Work(w3, rx, done);
    exits := [e0, e1, e2, e3];
  }

  /**
   * The driver's part up to the barrier: it submits every job, the workers
   * take them all and block on the still-open work channel, and the driver
   * then receives one completion token per job.
   */
  method SubmitAndAwait(w0: Worker, w1: Worker, w2: Worker, w3: Worker,
                        rx: Channel<ComputeRequest>, done: Channel<()>)
    returns (completions: nat)
    requires w0 != w1 && w0 != w2 && w0 != w3 && w1 != w2 && w1 != w3 && w2 != w3
    requires rx.queue == [] && rx.senders > 0 && rx.capacity == ChannelCapacity
    requires done.queue == [] && done.senders > 0 && done.capacity == ChannelCapacity
    modifies w0`solved, w1`solved, w2`solved, w3`solved, rx`queue, done`queue
    ensures completions == ItemCount
    ensures w0.solved == old(w0.solved) + ItemCount
    ensures w1.solved == old(w1.solved) && w2.solved == old(w2.solved) && w3.solved == old(w3.solved)
    ensures rx.queue == [] && done.queue == []
  {
    SendJobs(rx, ItemCount);
    JobsNeverDivideByZero(ItemCount);
    var blocked := Round(w0, w1, w2, w3, rx, done);
    completions := AwaitCompletions(done, ItemCount);
  }

  /**
   * Shutdown: the driver drops its handles, closing the work channel; each
   * worker wakes, finds it closed, leaves its loop, and its thread drops
   * its completion sender.
   */
  method ShutDown(w0: Worker, w1: Worker, w2: Worker, w3: Worker,
                  rx: Channel<ComputeRequest>, done: Channel<()>)
    returns (exits: seq<WorkerExit>)
    requires w0 != w1 && w0 != w2 && w0 != w3 && w1 != w2 && w1 != w3 && w2 != w3
    requires rx.queue == [] && rx.senders == 1
    requires done.queue == [] && done.senders == WorkerCount + 1
    modifies w0`solved, w1`solved, w2`solved, w3`solved
    modifies rx`senders, rx`queue, done`senders, done`queue
    ensures rx.queue == [] && done.queue == []
    ensures w0.solved == old(w0.solved) && w1.solved == old(w1.solved)
    ensures w2.solved == old(w2.solved) && w3.solved == old(w3.solved)
    ensures rx.senders == 0 && done.senders == 0
    ensures |exits| == WorkerCount
    ensures forall t :: 0 <= t < WorkerCount ==> exits[t] == Finished
  {
    // the driver drops its work sender and its completion sender;
    // dropping receivers is not modelled
    rx.DropSender();
    done.DropSender();
    exits := Round(w0, w1, w2, w3, rx, done);
    done.DropSender();
    done.DropSender();
    done.DropSender();
    done.DropSender();
  }

  /**
   * One sequential schedule of `main`: four workers, each holding a clone
   * of the completion sender, then the driver's submission and barrier,
   * then shutdown. The barrier is met in full (the driver receives exactly
   * as many tokens as it sent jobs), every worker leaves its loop because
   * the channel closed, none panics, and the solved counts add up to the
   * tokens received.
   */
  method Run() returns (solved: seq<nat>, exits: seq<WorkerExit>, completions: nat)
    ensures |solved| == WorkerCount && |exits| == WorkerCount
    ensures forall t :: 0 <= t < WorkerCount ==> exits[t] == Finished
    ensures completions == ItemCount
    ensures Sum(solved) == completions
  {
    var rx := new Channel<ComputeRequest>(ChannelCapacity);
    var done := new Channel<()>(ChannelCapacity);
    var w0 := new Worker(0);
    var w1 := new Worker(1);
    var w2 := new Worker(2);
    var w3 := new Worker(3);
    done.CloneSender();
    done.CloneSender();
    done.CloneSender();
    done.CloneSender();

    completions := SubmitAndAwait(w0, w1, w2, w3, rx, done);
    exits := ShutDown(w0, w1, w2, w3, rx, done);

    solved := [w0.solved, w1.solved, w2.solved, w3.solved];
    assert Sum(solved[3..]) == 0 by { assert solved[3..][1..] == []; }
    assert Sum(solved[2..]) == 0 by { assert solved[2..][1..] == solved[3..]; }
    assert Sum(solved[1..]) == 0 by { assert solved[1..][1..] == solved[2..]; }
  }
}
