/**
 * The world's dead-letters slot as actors and proxies reach it. `World.DeadLetters` is
 * a proxy onto the dead-letters actor, or null before that actor starts and after it
 * stops. A sender that reports a dead letter dereferences the slot.
 */
module Worlds {
  import opened Wrappers
  import opened Protocols

  /** A `NullReferenceException`. */
  datatype NullDereference = NullDereference

  class World {
    /** `World.DeadLetters`: a proxy onto the dead-letters actor, or null. */
    var deadLetters: Option<Proxy>
    /** Every `FailedDelivery` sent through `deadLetters`, in order. */
    var reported: seq<DeadLetter>

    constructor ()
      ensures deadLetters == None && reported == []
    {
      deadLetters := None;
      reported := [];
    }

    /**
     * `DeadLetters.FailedDelivery(letter)` as a sender writes it: the letter goes to the
     * dead-letters proxy, and a null slot is a null dereference.
     */
    method ReportDeadLetter(letter: DeadLetter) returns (outcome: Outcome<NullDereference>)
      modifies this`reported
      ensures outcome.Fail? <==> deadLetters.None?
      ensures deadLetters.Some? ==> reported == old(reported) + [letter]
      ensures deadLetters.None? ==> reported == old(reported)
    {
      if deadLetters.None? {
        return Fail(NullDereference);
      }
      reported := reported + [letter];
      outcome := Pass;
    }
  }
}
