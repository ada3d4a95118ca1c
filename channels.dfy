/**
 * A sequential abstraction of a flume bounded channel as both benchmark
 * binaries use it: a FIFO buffer of at most `capacity` items and a count of
 * live sender handles. The library's locking, wake-ups and receiver
 * bookkeeping are not modelled; a receive that would park the calling
 * thread is reported as `Pending` instead.
 */
module Channels {

  /** What one `recv()` / `recv_async().await` call yields. */
  datatype Received<T> =
    | Item(value: T)   // `Ok(item)`: the oldest buffered item
    | Disconnected     // `Err(..)`: empty, and every sender has been dropped
    | Pending          // empty while a sender is alive: the caller would block here

  class Channel<T> {
    /** The bound given to `flume::bounded`. */
    const capacity: nat
    /** Items sent and not yet received, oldest first. */
    var queue: seq<T>
    /** Live `Sender` handles; the channel closes when this reaches 0. */
    var senders: nat

    /** `flume::bounded(capacity)`: an empty channel with one sender handle. */
    constructor (capacity: nat)
      ensures this.capacity == capacity
      ensures queue == [] && senders == 1
    {
      this.capacity := capacity;
      queue := [];
      senders := 1;
    }

    /** `tx.clone()`: one more sender handle keeps the channel open. */
    method CloneSender()
      requires senders > 0
      modifies this`senders
      ensures senders == old(senders) + 1
    {
      senders := senders + 1;
    }

    /** `drop(tx)`: releasing the last sender handle closes the channel. */
    method DropSender()
      requires senders > 0
      modifies this`senders
      ensures senders == old(senders) - 1
    {
      senders := senders - 1;
    }

    /**
     * `tx.send(x)` through a live handle when the buffer has room: the item
     * joins the back of the queue.
     */
    method Send(x: T)
      requires senders > 0
      requires |queue| < capacity
      modifies this`queue
      ensures queue == old(queue) + [x]
    {
      queue := queue + [x];
    }

    /**
     * `rx.recv()`: the oldest item if there is one; otherwise `Disconnected`
     * once no sender is left, and `Pending` while one is.
     */
    method Recv() returns (r: Received<T>)
      modifies this`queue
      ensures old(queue) != [] ==> r == Item(old(queue)[0]) && queue == old(queue)[1..]
      ensures old(queue) == [] ==> queue == []
      ensures old(queue) == [] ==> r == (if senders == 0 then Disconnected else Pending)
    {
      if queue != [] {
        r := Item(queue[0]);
        queue := queue[1..];
      } else if senders == 0 {
        r := Disconnected;
      } else {
        r := Pending;
      }
    }
  }
}
