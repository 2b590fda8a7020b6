/**
 * A Go channel, seen sequentially: a FIFO buffer of fixed capacity, the
 * items receivers have taken so far, the number of receivers blocked on
 * an empty channel, and whether the channel has been closed.
 */
module Channels {
  import opened Wrappers

  class Channel<T> {
    /** The capacity given to make(chan T, capacity); zero for an unbuffered channel. */
    const capacity: nat
    /** Items sent and not yet received, oldest first. */
    var buffer: seq<T>
    /** Items taken by receivers, in the order they were taken. */
    var received: seq<T>
    /** Receivers currently blocked waiting for an item. */
    var waiting: nat
    var closed: bool

    /** Receivers only block on an empty channel, and a closed channel wakes them all. */
    ghost predicate Valid()
      reads this
    {
      |buffer| <= capacity && (waiting > 0 ==> buffer == [] && !closed)
    }

    /** Everything ever sent on the channel, in send order. */
    function Sent(): seq<T>
      reads this
    {
      received + buffer
    }

    /** A send completes at once: a receiver is waiting or the buffer has room. */
    predicate Ready()
      reads this
    {
      waiting > 0 || |buffer| < capacity
    }

    constructor (capacity: nat)
      ensures Valid() && this.capacity == capacity
      ensures buffer == [] && received == [] && waiting == 0 && !closed
    {
      this.capacity := capacity;
      buffer, received, waiting, closed := [], [], 0, false;
    }

    /** A send that completes: hand the item to a waiting receiver, or queue it. */
    method Send(x: T)
      requires Valid() && !closed && Ready()
      modifies this
      ensures Valid() && !closed
      ensures Sent() == old(Sent()) + [x]
      ensures old(waiting) > 0 ==> received == old(received) + [x] && buffer == old(buffer) && waiting == old(waiting) - 1
      ensures old(waiting) == 0 ==> received == old(received) && buffer == old(buffer) + [x] && waiting == 0
    {
      if waiting > 0 {
        received := received + [x];
        waiting := waiting - 1;
      } else {
        buffer := buffer + [x];
      }
    }

    /** Go's `select { case c <- x: ...; default: ... }`: send only if that completes at once. */
    method TrySend(x: T) returns (sent: bool)
      requires Valid() && !closed
      modifies this
      ensures Valid() && !closed
      ensures sent == old(Ready())
      ensures sent ==> Sent() == old(Sent()) + [x]
      ensures sent && old(waiting) > 0 ==> received == old(received) + [x] && buffer == old(buffer) && waiting == old(waiting) - 1
      ensures sent && old(waiting) == 0 ==> received == old(received) && buffer == old(buffer) + [x] && waiting == 0
      ensures !sent ==> unchanged(this)
    {
      sent := Ready();
      if sent {
        Send(x);
      }
    }

    /** A receiver blocks on an empty, open channel. */
    method Await()
      requires Valid() && buffer == [] && !closed
      modifies this
      ensures Valid() && waiting == old(waiting) + 1
      ensures buffer == old(buffer) && received == old(received) && closed == old(closed)
    {
      waiting := waiting + 1;
    }

    /**
     * A receive that completes: the oldest buffered item, or None once the
     * channel is closed and drained (Go's `v, ok := <-c` with ok == false).
     */
    method Receive() returns (r: Option<T>)
      requires Valid() && (buffer != [] || closed)
      modifies this
      ensures Valid() && Sent() == old(Sent()) && closed == old(closed) && waiting == old(waiting)
      ensures old(buffer) == [] ==> r == None && unchanged(this)
      ensures old(buffer) != [] ==> r == Some(old(buffer)[0]) && buffer == old(buffer)[1..]
                                    && received == old(received) + [old(buffer)[0]]
    {
      if buffer == [] {
        r := None;
      } else {
        r := Some(buffer[0]);
        received := received + [buffer[0]];
        buffer := buffer[1..];
      }
    }

    /** close(c): buffered items stay receivable; blocked receivers wake with nothing. */
    method Close()
      requires Valid() && !closed
      modifies this
      ensures Valid() && closed && waiting == 0
      ensures buffer == old(buffer) && received == old(received)
    {
      closed := true;
      waiting := 0;
    }
  }
}
