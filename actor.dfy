/**
 * The `Actor` base behaviour: the stop guard, the secured accessors, the choice of a
 * child's supervisor, address-based equality, `Completes`, stowing, and the default
 * life-cycle hooks.
 *
 * The actor's `LifeCycle` is a collaborator outside this model: an actor records each
 * call it makes on its life cycle, in order, in `lifeCycleCalls`, and reads the
 * stopped and secured flags through to its environment.
 */
module Actors {
  import opened Wrappers
  import opened Addresses
  import opened Protocols
  import opened Environments

  /** The life-cycle operations the actor base delegates to. */
  datatype LifeCycleCall =
    | LifeCycleStop
    | LifeCycleAfterStop
    | LifeCycleBeforeStart
    | LifeCycleStowMessages
    | LifeCycleDisperseStowedMessages
    | LifeCycleSecure

  /** An `InvalidOperationException` with its message. */
  datatype InvalidOperation = InvalidOperation(message: string)

  /** What `ParentAs` can raise: an invalid operation, or a null dereference of a missing parent. */
  datatype AccessError = Invalid(message: string) | NullReference

  /** The `ICompletes` result slot an actor creates for itself. */
  datatype ResultCompletes = ResultCompletes(id: nat)

  /** What `ChildActorFor` asks its stage for: a child of `definition` under `parent`, supervised by `supervisor`. */
  datatype ChildRequest = ChildRequest(definition: Definition, parent: Address, supervisor: Option<Proxy>)

  /** What `ParentAs<T>` asks its stage for: a proxy of `protocol` onto the actor at `target`. */
  datatype ProxyRequest = ProxyRequest(protocol: TypeToken, target: Address)

  const SupervisorProtocol: TypeToken := TypeToken("ISupervisor")
  const ParentSecuredMessage: string := "A secured actor cannot provide its parent."
  const StageSecuredMessage: string := "A secured actor cannot provide its stage."
  const CompletesMessage: string := "Completes is not available for this protocol behavior"

  /**
   * The supervisor a child gets: the definition's own, else this actor's `ISupervisor`
   * proxy when this actor is a supervisor, else none.
   */
  function ChildSupervisor(definition: Definition, isSupervisor: bool, supervisorProxy: Option<Proxy>): (s: Option<Proxy>)
    ensures definition.supervisor.Some? ==> s == definition.supervisor
    ensures definition.supervisor.None? && isSupervisor ==> s == supervisorProxy
    ensures definition.supervisor.None? && !isSupervisor ==> s == None
    ensures s.Some? ==> s == definition.supervisor || (isSupervisor && s == supervisorProxy)
  {
    if definition.supervisor.Some? then definition.supervisor
    else if isSupervisor then supervisorProxy
    else None
  }

  /** `Completes()`: the actor's result slot, or an invalid operation when there is none. */
  function CompletesOf(completes: Option<ResultCompletes>): (r: Result<ResultCompletes, InvalidOperation>)
    ensures r.Success? <==> completes.Some?
    ensures r.Success? ==> r.value == completes.value
    ensures r.Failure? ==> r.error == InvalidOperation(CompletesMessage)
  {
    match completes
    case Some(c) => Success(c)
    case None => Failure(InvalidOperation(CompletesMessage))
  }

  class Actor {
    const environment: Environment
    /** The actor's concrete runtime class (`GetType()`). */
    const runtimeType: TypeToken
    /** Whether the concrete class implements `ISupervisor`. */
    const isSupervisor: bool
    const completes: Option<ResultCompletes>
    var lifeCycleCalls: seq<LifeCycleCall>

    /** The environment is passed in rather than picked up from a thread-local slot. */
    constructor (environment: Environment, runtimeType: TypeToken, isSupervisor: bool, completes: ResultCompletes)
      ensures this.environment == environment && this.runtimeType == runtimeType
      ensures this.isSupervisor == isSupervisor && this.completes == Some(completes)
      ensures lifeCycleCalls == []
    {
      this.environment := environment;
      this.runtimeType := runtimeType;
      this.isSupervisor := isSupervisor;
      this.completes := Some(completes);
      lifeCycleCalls := [];
    }

    /** `Address`: the address the actor's life cycle environment holds. */
    function Address(): (a: Address)
      ensures a == environment.address
    {
      environment.address
    }

    /** `IsStopped`: whether the actor's environment has been stopped. */
    predicate IsStopped()
      reads environment
      ensures IsStopped() <==> environment.IsStopped()
    {
      environment.stopped
    }

    /**
     * `Stop()`: does nothing if the actor is already stopped or is the dead-letters
     * actor; otherwise delegates to `LifeCycle.Stop`.
     */
    method Stop()
      modifies this`lifeCycleCalls
      ensures !IsStopped() && Address().id != DeadLettersId ==>
        lifeCycleCalls == old(lifeCycleCalls) + [LifeCycleStop]
      ensures IsStopped() || Address().id == DeadLettersId ==>
        lifeCycleCalls == old(lifeCycleCalls)
    {
      if !IsStopped() {
        if Address().id != DeadLettersId {
          lifeCycleCalls := lifeCycleCalls + [LifeCycleStop];
        }
      }
    }

    /** `Equals(other)`: a non-null actor of the same runtime class at an equal address. */
    predicate Equals(other: Actor?)
      ensures Equals(other) ==> other != null && other.runtimeType == runtimeType
      ensures other != null && other.runtimeType == runtimeType ==>
        (Equals(other) <==> SameAddress(Address(), other.Address()))
    {
      other != null && other.runtimeType == runtimeType && SameAddress(Address(), other.Address())
    }

    /** Actor equality is an equivalence relation on actors. */
    lemma EqualsIsEquivalence(b: Actor, c: Actor)
      ensures Equals(this)
      ensures Equals(b) <==> b.Equals(this)
      ensures Equals(b) && b.Equals(c) ==> Equals(c)
    {
    }

    /** `Parent`: an invalid operation when the environment is secured, otherwise the parent (null for the root). */
    function Parent(): (r: Result<Option<Address>, InvalidOperation>)
      reads environment
      ensures r.Failure? <==> environment.IsSecured()
      ensures r.Failure? ==> r.error == InvalidOperation(ParentSecuredMessage)
      ensures r.Success? ==> r.value == environment.parent
    {
      if environment.IsSecured() then Failure(InvalidOperation(ParentSecuredMessage))
      else Success(environment.parent)
    }

    /**
     * `ParentAs<T>()`: an invalid operation when secured; otherwise a proxy of the
     * protocol onto the parent, which dereferences the parent and so fails with a null
     * reference for an actor without one.
     */
    function ParentAs(protocol: TypeToken): (r: Result<ProxyRequest, AccessError>)
      reads environment
      ensures environment.IsSecured() ==> r == Failure(Invalid(ParentSecuredMessage))
      ensures !environment.IsSecured() && environment.parent.None? ==> r == Failure(NullReference)
      ensures r.Success? <==> !environment.IsSecured() && environment.parent.Some?
      ensures r.Success? ==> r.value == ProxyRequest(protocol, environment.parent.value)
    {
      if environment.IsSecured() then Failure(Invalid(ParentSecuredMessage))
      else if environment.parent.None? then Failure(NullReference)
      else Success(ProxyRequest(protocol, environment.parent.value))
    }

    /** `Stage`: an invalid operation when the environment is secured, otherwise the stage. */
    function Stage(): (r: Result<StageRef, InvalidOperation>)
      reads environment
      ensures r.Failure? <==> environment.IsSecured()
      ensures r.Failure? ==> r.error == InvalidOperation(StageSecuredMessage)
      ensures r.Success? ==> r.value == environment.stage
    {
      if environment.IsSecured() then Failure(InvalidOperation(StageSecuredMessage))
      else Success(environment.stage)
    }

    /** `ChildActorFor<T>(definition)`: the child's parent is this actor; its supervisor is chosen by `ChildSupervisor`. */
    function ChildActorFor(definition: Definition): (r: ChildRequest)
      reads environment
      ensures r.parent == Address() && r.definition == definition
      ensures r.supervisor == ChildSupervisor(definition, isSupervisor, environment.LookUpProxy(SupervisorProtocol))
      ensures definition.supervisor.Some? ==> r.supervisor == definition.supervisor
      ensures definition.supervisor.None? && !isSupervisor ==> r.supervisor == None
    {
      ChildRequest(definition, Address(), ChildSupervisor(definition, isSupervisor, environment.LookUpProxy(SupervisorProtocol)))
    }

    function Completes(): (r: Result<ResultCompletes, InvalidOperation>)
      ensures r == CompletesOf(completes)
      ensures r.Success? ==> Some(r.value) == completes
    {
      CompletesOf(completes)
    }

    /** `StowMessages(overrides)`: the life cycle starts stowing, and `overrides` becomes the override set. */
    method StowMessages(overrides: seq<TypeToken>)
      modifies this`lifeCycleCalls, environment`stowageOverrides
      ensures lifeCycleCalls == old(lifeCycleCalls) + [LifeCycleStowMessages]
      ensures environment.stowageOverrides == Some(overrides)
      ensures forall p :: environment.IsStowageOverride(p) <==> p in overrides
    {
      lifeCycleCalls := lifeCycleCalls + [LifeCycleStowMessages];
      environment.StowageOverrides(overrides);
    }

    /** `DisperseStowedMessages()`: delegates to the life cycle. */
    method DisperseStowedMessages()
      modifies this`lifeCycleCalls
      ensures lifeCycleCalls == old(lifeCycleCalls) + [LifeCycleDisperseStowedMessages]
    {
      lifeCycleCalls := lifeCycleCalls + [LifeCycleDisperseStowedMessages];
    }

    /** `SelfAs<T>()`: a proxy of the protocol onto this very actor, whether or not it is secured. */
    function SelfAs(protocol: TypeToken): (r: ProxyRequest)
      ensures r.protocol == protocol && r.target == Address()
    {
      ProxyRequest(protocol, Address())
    }

    /** `Definition`: the definition the actor was created from. */
    function Definition(): (d: Definition)
      ensures d == environment.definition
    {
      environment.definition
    }

    /** `Secure()`: delegates to `LifeCycle.Secure`. */
    method Secure()
      modifies this`lifeCycleCalls
      ensures lifeCycleCalls == old(lifeCycleCalls) + [LifeCycleSecure]
    {
      lifeCycleCalls := lifeCycleCalls + [LifeCycleSecure];
    }

    // The default hooks. `Start`, `BeforeStart`, `AfterStop` and `BeforeResume` are
    // no-ops: they have no frame, so they change nothing.

    method Start()
    {
    }

    method BeforeStart()
    {
    }

    method AfterStop()
    {
    }

    method BeforeResume(reason: string)
    {
    }

    /** The default `BeforeRestart(reason)` runs `LifeCycle.AfterStop`. */
    method BeforeRestart(reason: string)
      modifies this`lifeCycleCalls
      ensures lifeCycleCalls == old(lifeCycleCalls) + [LifeCycleAfterStop]
    {
      lifeCycleCalls := lifeCycleCalls + [LifeCycleAfterStop];
    }

    /** The default `AfterRestart(reason)` runs `LifeCycle.BeforeStart`. */
    method AfterRestart(reason: string)
      modifies this`lifeCycleCalls
      ensures lifeCycleCalls == old(lifeCycleCalls) + [LifeCycleBeforeStart]
    {
      lifeCycleCalls := lifeCycleCalls + [LifeCycleBeforeStart];
    }
  }
}
