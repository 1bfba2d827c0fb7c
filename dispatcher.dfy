/**
 * The many-to-one array-queue dispatcher: one mailbox, one drain task. Each `Deliver`
 * step dequeues at most `throttlingCount` messages in FIFO order and hands them to the
 * actor unless the dispatcher is closed, in which case they are dropped.
 *
 * Handing a message to its actor is an effect outside this model: the dispatcher
 * records each delivered message, in order, in `delivered`. The asynchronous run loop,
 * its backoff waits and the cancellation token sources are not modelled; only whether
 * the token sources have been disposed is kept, in `tokensDisposed`.
 */
module ArrayQueueDispatcher {
  import opened Wrappers
  import opened Protocols
  import opened Mailboxes

  /** An `ObjectDisposedException`, raised by cancelling a disposed token source. */
  datatype ObjectDisposed = ObjectDisposed

  /** How many messages one `Deliver` dequeues from a queue of length `n`. */
  function Taken(throttlingCount: int, n: nat): (k: nat)
    ensures k <= n
    ensures throttlingCount <= 0 ==> k == 0
    ensures throttlingCount > 0 ==> k <= throttlingCount && (k == throttlingCount || k == n)
  {
    if throttlingCount <= 0 then 0 else if throttlingCount < n then throttlingCount else n
  }

  /** How long the queue is after `rounds` `Deliver` steps with no new arrivals. */
  function RemainingAfter(n: nat, throttlingCount: int, rounds: nat): nat
  {
    if rounds == 0 then n else RemainingAfter(n - Taken(throttlingCount, n), throttlingCount, rounds - 1)
  }

  /** With a positive throttle, `rounds` steps empty a queue of at most `rounds * throttlingCount` messages. */
  lemma {:induction false} DrainEmptiesQueue(n: nat, throttlingCount: int, rounds: nat)
    requires throttlingCount > 0 && n <= rounds * throttlingCount
    ensures RemainingAfter(n, throttlingCount, rounds) == 0
  {
    if rounds > 0 {
      var k := Taken(throttlingCount, n);
      if k == throttlingCount {
        assert n - k <= (rounds - 1) * throttlingCount;
      }
      DrainEmptiesQueue(n - k, throttlingCount, rounds - 1);
    } else {
      assert n == 0;
    }
  }

  class ManyToOneConcurrentArrayQueueDispatcher {
    const mailbox: Mailbox
    const mailboxSize: int
    const fixedBackoff: int
    const throttlingCount: int
    const totalSendRetries: int

    var closed: bool
    /** Whether the drain task has been launched. */
    var started: bool
    /** Whether the cancellation token sources have been disposed (by `Close`). */
    var tokensDisposed: bool
    /** How many times `Execute` has reset the backoff wait. */
    var backoffResets: nat
    /** Every message handed to the actor, in order. */
    var delivered: seq<Message>

    constructor (mailboxSize: int, fixedBackoff: int, throttlingCount: int, totalSendRetries: int)
      ensures fresh(mailbox) && mailbox.queue == [] && !mailbox.closed
      ensures this.mailboxSize == mailboxSize && this.fixedBackoff == fixedBackoff
      ensures this.throttlingCount == throttlingCount && this.totalSendRetries == totalSendRetries
      ensures !closed && !started && !tokensDisposed && backoffResets == 0 && delivered == []
    {
      this.mailboxSize := mailboxSize;
      this.fixedBackoff := fixedBackoff;
      this.throttlingCount := throttlingCount;
      this.totalSendRetries := totalSendRetries;
      mailbox := new Mailbox(false);
      closed := false;
      started := false;
      tokensDisposed := false;
      backoffResets := 0;
      delivered := [];
    }

    /** `IsClosed`: whether `Close()` has been called. */
    predicate IsClosed()
      reads this
      ensures IsClosed() <==> closed
    {
      closed
    }

    /**
     * `RequiresExecutionNotification`: fixed at construction, true exactly when no
     * fixed backoff was given, so senders must signal the dispatcher.
     */
    predicate RequiresExecutionNotification()
      ensures RequiresExecutionNotification() <==> fixedBackoff == 0
    {
      fixedBackoff == 0
    }

    /**
     * `Close()` as the source writes it: sets `closed`, then cancels and disposes the
     * token sources. Cancelling an already disposed source raises, so a second call
     * fails after setting `closed`.
     */
    method CloseAsWritten() returns (outcome: Outcome<ObjectDisposed>)
      modifies this`closed, this`tokensDisposed
      ensures closed && tokensDisposed
      ensures outcome == if old(tokensDisposed) then Fail(ObjectDisposed) else Pass
    {
      closed := true;
      if tokensDisposed {
        return Fail(ObjectDisposed);
      }
      tokensDisposed := true;
      outcome := Pass;
    }

    /** `Close()` as intended: sticky and idempotent; only the first call disposes the token sources. */
    method Close()
      modifies this`closed, this`tokensDisposed
      ensures closed && tokensDisposed
      ensures old(closed) && old(tokensDisposed) ==> unchanged(this)
    {
      closed := true;
      if !tokensDisposed {
        tokensDisposed := true;
      }
    }

    /** `Execute(mailbox)`: resets the backoff wait; the mailbox is left as it is. */
    method Execute()
      modifies this`backoffResets
      ensures backoffResets == old(backoffResets) + 1
    {
      backoffResets := backoffResets + 1;
    }

    /** `Start()`: launches the drain task once; later calls do nothing. */
    method Start()
      modifies this`started
      ensures started
      ensures old(started) ==> unchanged(this)
    {
      if started {
        return;
      }
      started := true;
    }

    /**
     * `Deliver()`: dequeues up to `throttlingCount` messages in FIFO order, handing
     * each to the actor unless the dispatcher is closed. Answers whether it made
     * progress: false exactly when the throttle is positive and the queue was empty.
     */
    method Deliver() returns (progressed: bool)
      modifies this`delivered, mailbox`queue
      ensures var k := Taken(throttlingCount, |old(mailbox.queue)|);
        && mailbox.queue == old(mailbox.queue)[k..]
        && delivered == old(delivered) + (if closed then [] else old(mailbox.queue)[..k])
      ensures progressed <==> throttlingCount <= 0 || old(mailbox.queue) != []
    {
      var idx := 0;
      while idx < throttlingCount
        invariant 0 <= idx <= |old(mailbox.queue)|
        invariant idx <= if throttlingCount > 0 then throttlingCount else 0
        invariant mailbox.queue == old(mailbox.queue)[idx..]
        invariant delivered == old(delivered) + (if closed then [] else old(mailbox.queue)[..idx])
      {
        var message := mailbox.Receive();
        if message.None? {
          return idx > 0;
        }
        if !closed {
          delivered := delivered + [message.value];
        }
        idx := idx + 1;
      }
      return true;
    }
  }

  /** The source's `Close` fails when called a second time. */
  method CloseTwiceAsWritten() returns (second: Outcome<ObjectDisposed>)
    ensures second == Fail(ObjectDisposed)
  {
    var d := new ManyToOneConcurrentArrayQueueDispatcher(16, 0, 1, 1);
    var first := d.CloseAsWritten();
    second := d.CloseAsWritten();
  }
}
