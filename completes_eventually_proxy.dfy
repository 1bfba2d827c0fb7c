/**
 * The generated `ICompletesEventually` proxy. Each of `Conclude`, `Stop` and `With`
 * becomes one message in the actor's mailbox while the actor is live. Once it is
 * stopped, the call is reported to the world's dead letters, which fails with a null
 * dereference when the world has none.
 */
module CompletesEventuallyProxies {
  import opened Wrappers
  import opened Addresses
  import opened Protocols
  import opened Mailboxes
  import opened Worlds
  import opened Actors

  const ConcludeRepresentation: string := "Conclude()"
  const StopRepresentation: string := "Stop()"
  const WithRepresentation: string := "With(object)"

  class CompletesEventuallyProxy {
    const actor: Actor
    const mailbox: Mailbox
    /** The world of the actor's stage, which the source reaches as `actor.DeadLetters`. */
    const world: World

    constructor (actor: Actor, mailbox: Mailbox, world: World)
      ensures this.actor == actor && this.mailbox == mailbox && this.world == world
    {
      this.actor := actor;
      this.mailbox := mailbox;
      this.world := world;
    }

    /** The proxy's address is the actor's. */
    function Address(): (a: Address)
      ensures a == actor.environment.address
    {
      actor.Address()
    }

    /** The proxy is stopped exactly when the actor is. */
    predicate IsStopped()
      reads actor.environment
      ensures IsStopped() <==> actor.environment.stopped
    {
      actor.IsStopped()
    }

    /**
     * Enqueues `invocation` under `representation` on a live actor; otherwise reports
     * it as a dead letter, failing when the world has no dead letters.
     */
    method SendOrReport(invocation: Invocation, representation: string) returns (outcome: Outcome<NullDereference>)
      modifies mailbox`queue, world`reported
      ensures outcome.Fail? <==> IsStopped() && world.deadLetters.None?
      ensures !IsStopped() ==> mailbox.queue == old(mailbox.queue) + [Message(Address(), invocation, representation)]
      ensures IsStopped() ==> mailbox.queue == old(mailbox.queue)
      ensures IsStopped() && world.deadLetters.Some? ==>
        world.reported == old(world.reported) + [DeadLetter(Address(), representation)]
      ensures !IsStopped() || world.deadLetters.None? ==> world.reported == old(world.reported)
    {
      if !actor.IsStopped() {
        if mailbox.isPreallocated {
          mailbox.SendPreallocated(actor.Address(), invocation, None, representation);
        } else {
          mailbox.Send(Message(actor.Address(), invocation, representation));
        }
        return Pass;
      }
      outcome := world.ReportDeadLetter(DeadLetter(actor.Address(), representation));
    }

    method Conclude() returns (outcome: Outcome<NullDereference>)
      modifies mailbox`queue, world`reported
      ensures outcome.Fail? <==> IsStopped() && world.deadLetters.None?
      ensures !IsStopped() ==> mailbox.queue == old(mailbox.queue) + [Message(Address(), ConcludeCall, ConcludeRepresentation)]
      ensures IsStopped() ==> mailbox.queue == old(mailbox.queue)
      ensures IsStopped() && world.deadLetters.Some? ==>
        world.reported == old(world.reported) + [DeadLetter(Address(), ConcludeRepresentation)]
      ensures !IsStopped() || world.deadLetters.None? ==> world.reported == old(world.reported)
    {
      outcome := SendOrReport(ConcludeCall, ConcludeRepresentation);
    }

    method Stop() returns (outcome: Outcome<NullDereference>)
      modifies mailbox`queue, world`reported
      ensures outcome.Fail? <==> IsStopped() && world.deadLetters.None?
      ensures !IsStopped() ==> mailbox.queue == old(mailbox.queue) + [Message(Address(), StopCall, StopRepresentation)]
      ensures IsStopped() ==> mailbox.queue == old(mailbox.queue)
      ensures IsStopped() && world.deadLetters.Some? ==>
        world.reported == old(world.reported) + [DeadLetter(Address(), StopRepresentation)]
      ensures !IsStopped() || world.deadLetters.None? ==> world.reported == old(world.reported)
    {
      outcome := SendOrReport(StopCall, StopRepresentation);
    }

    /** `With(outcome)`: the enqueued message carries `value` unchanged. */
    method With(value: Object) returns (outcome: Outcome<NullDereference>)
      modifies mailbox`queue, world`reported
      ensures outcome.Fail? <==> IsStopped() && world.deadLetters.None?
      ensures !IsStopped() ==> mailbox.queue == old(mailbox.queue) + [Message(Address(), WithCall(value), WithRepresentation)]
      ensures IsStopped() ==> mailbox.queue == old(mailbox.queue)
      ensures IsStopped() && world.deadLetters.Some? ==>
        world.reported == old(world.reported) + [DeadLetter(Address(), WithRepresentation)]
      ensures !IsStopped() || world.deadLetters.None? ==> world.reported == old(world.reported)
    {
      outcome := SendOrReport(WithCall(value), WithRepresentation);
    }
  }
}
