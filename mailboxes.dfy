/**
 * The mailbox contract shared by all dispatchers, as an abstract FIFO queue with a
 * closed flag.
 */
module Mailboxes {
  import opened Wrappers
  import opened Addresses
  import opened Protocols

  class Mailbox {
    /** Whether the mailbox offers the allocation-free `Send(actor, consumer, completes, representation)`. */
    const isPreallocated: bool
    /** The pending invocations, oldest first. */
    var queue: seq<Message>
    var closed: bool

    constructor (isPreallocated: bool)
      ensures this.isPreallocated == isPreallocated
      ensures queue == [] && !closed
    {
      this.isPreallocated := isPreallocated;
      queue := [];
      closed := false;
    }

    /** `Send(message)`: enqueues an already built message. */
    method Send(m: Message)
      modifies this`queue
      ensures queue == old(queue) + [m] && closed == old(closed)
    {
      queue := queue + [m];
    }

    /**
     * `Send(actor, consumer, completes, representation)`: the preallocated path builds
     * the message in place; what is enqueued is the same message.
     */
    method SendPreallocated(target: Address, invocation: Invocation, completes: Option<ClientCompletes>, representation: string)
      modifies this`queue
      ensures queue == old(queue) + [Message(target, invocation, representation)]
      ensures closed == old(closed)
    {
      queue := queue + [Message(target, invocation, representation)];
    }

    /** `Receive()`: the oldest pending message, or `None` when the queue is empty. */
    method Receive() returns (m: Option<Message>)
      modifies this`queue
      ensures old(queue) == [] ==> m == None && queue == []
      ensures old(queue) != [] ==> m == Some(old(queue)[0]) && queue == old(queue)[1..]
      ensures closed == old(closed)
    {
      if queue == [] {
        m := None;
      } else {
        m := Some(queue[0]);
        queue := queue[1..];
      }
    }

    /** `Close()`: idempotent. */
    method Close()
      modifies this`closed
      ensures closed
    {
      closed := true;
    }
  }
}
