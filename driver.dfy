/**
 * The driver thread's two loops: submitting the generated jobs (identical in
 * both binaries) and, in the blocking binary, awaiting one completion token
 * per job.
 */
module Driver {
  import opened Wrapping
  import opened Requests
  import opened Channels

  /** The bound both binaries pass to `flume::bounded` for each channel. */
  const ChannelCapacity: nat := 100_000_000

  /**
   * `(0..m).for_each(|num| tx.send(Generate(num)))`: the jobs are appended
   * one per index, in index order, behind whatever the channel held. The
   * buffer must have room for all of them: a send into a full channel would
   * block, which this sequential model does not represent.
   */
  method SendJobs(tx: Channel<ComputeRequest>, m: nat)
    requires m <= Modulus
    requires tx.senders > 0
    requires |tx.queue| + m <= tx.capacity
    modifies tx`queue
    ensures tx.queue == old(tx.queue) + Jobs(m)
  {
    for num := 0 to m
      invariant tx.queue == old(tx.queue) + Jobs(num)
    {
      tx.Send(Generate(num));
      assert Jobs(num + 1) == Jobs(num) + [Generate(num)];
    }
  }

  /**
   * `(0..m).for_each(|_| complete_rx.recv().expect(..))`: the driver takes
   * tokens until it has `m` of them or the channel runs dry. Running dry
   * means the driver blocks forever (a sender is alive) or panics in
   * `expect` (none is); `received < m` reports either. During the barrier
   * the driver still holds its own completion sender, so only the first
   * can happen there.
   */
  method AwaitCompletions(done: Channel<()>, m: nat) returns (received: nat)
    modifies done`queue
    ensures received == if |old(done.queue)| < m then |old(done.queue)| else m
    ensures done.queue == old(done.queue)[received..]
  {
    received := 0;
    while received < m
      invariant received <= m && received <= |old(done.queue)|
      invariant done.queue == old(done.queue)[received..]
      decreases m - received
    {
      var token := done.Recv();
      if !token.Item? {
        return;
      }
      received := received + 1;
    }
  }
}
