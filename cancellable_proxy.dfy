/**
 * The generated `ICancellable` proxy. A `Cancel()` on a live actor becomes one message
 * in the actor's mailbox; on a stopped actor it is reported to the world's dead
 * letters, which fails with a null dereference when the world has none.
 */
module CancellableProxies {
  import opened Wrappers
  import opened Addresses
  import opened Protocols
  import opened Mailboxes
  import opened Worlds
  import opened Actors
  import opened DeadLettersActors

  const CancelRepresentation: string := "Cancel()"

  class CancellableProxy {
    const actor: Actor
    const mailbox: Mailbox
    /** The world of the actor's stage, which the source reaches as `actor.DeadLetters`. */
    const world: World

    constructor (actor: Actor, mailbox: Mailbox, world: World)
      ensures this.actor == actor && this.mailbox == mailbox && this.world == world
    {
      this.actor := actor;
      this.mailbox := mailbox;
      this.world := world;
    }

    /**
     * `Cancel()`: answers true exactly when the actor is live, having enqueued one
     * "Cancel()" message whichever send path the mailbox offers. On a stopped actor it
     * answers false having reported one "Cancel()" dead letter, or raises a null
     * dereference when the world has no dead letters.
     */
    method Cancel() returns (r: Result<bool, NullDereference>)
      modifies mailbox`queue, world`reported
      ensures r == Success(true) <==> !actor.IsStopped()
      ensures r == Success(false) <==> actor.IsStopped() && world.deadLetters.Some?
      ensures r == Failure(NullDereference) <==> actor.IsStopped() && world.deadLetters.None?
      ensures !actor.IsStopped() ==>
        mailbox.queue == old(mailbox.queue) + [Message(actor.Address(), CancelCall, CancelRepresentation)]
      ensures actor.IsStopped() ==> mailbox.queue == old(mailbox.queue)
      ensures r == Success(false) ==>
        world.reported == old(world.reported) + [DeadLetter(actor.Address(), CancelRepresentation)]
      ensures r != Success(false) ==> world.reported == old(world.reported)
    {
      if !actor.IsStopped() {
        if mailbox.isPreallocated {
          mailbox.SendPreallocated(actor.Address(), CancelCall, None, CancelRepresentation);
        } else {
          mailbox.Send(Message(actor.Address(), CancelCall, CancelRepresentation));
        }
        return Success(true);
      }
      var reported := world.ReportDeadLetter(DeadLetter(actor.Address(), CancelRepresentation));
      if reported.Fail? {
        return Failure(NullDereference);
      }
      return Success(false);
    }
  }

  /**
   * Once the dead-letters actor has stopped, the world's slot is null, so cancelling
   * through the proxy of a stopped actor raises a null dereference and reports nothing.
   */
  method CancelAfterDeadLettersStopped(deadLetters: DeadLettersActor, proxy: CancellableProxy)
    returns (r: Result<bool, NullDereference>)
    requires deadLetters.world == proxy.world && proxy.actor.IsStopped()
    modifies deadLetters.world`deadLetters, proxy.mailbox`queue, proxy.world`reported
    ensures r == Failure(NullDereference)
    ensures proxy.world.reported == old(proxy.world.reported)
  {
    deadLetters.AfterStop();
    r := proxy.Cancel();
  }
}
