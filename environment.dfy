/**
 * The per-actor environment: address, definition, parent, mailbox, children, proxy
 * cache, stowage buffers, and the secured and stopped flags.
 *
 * Children and the parent are held as addresses. Calling `Stop` on a child is an effect
 * outside this object, so the environment records each such call, in order, in
 * `childStopCalls`.
 */
module Environments {
  import opened Wrappers
  import opened Addresses
  import opened Protocols
  import opened Mailboxes

  /** The constructor argument an `ArgumentNullException` names. */
  datatype Argument = StageArgument | AddressArgument | DefinitionArgument | ParentArgument | MailboxArgument

  /**
   * The argument the constructor rejects, checked in the order stage, address,
   * definition, parent, mailbox; the parent may be null only for the private root.
   */
  function NullArgument(stage: Option<StageRef>, address: Option<Address>, definition: Option<Definition>,
                        parent: Option<Address>, mailbox: Mailbox?): (r: Option<Argument>)
    ensures r == None <==>
      stage.Some? && address.Some? && definition.Some? && mailbox != null &&
      (address.value.id != PrivateRootId ==> parent.Some?)
    ensures r == Some(StageArgument) <==> stage.None?
    ensures r == Some(AddressArgument) <==> stage.Some? && address.None?
    ensures r == Some(DefinitionArgument) <==> stage.Some? && address.Some? && definition.None?
    ensures r == Some(MailboxArgument) <==>
      stage.Some? && address.Some? && definition.Some? &&
      (address.value.id != PrivateRootId ==> parent.Some?) && mailbox == null
    ensures r == Some(ParentArgument) <==>
      stage.Some? && address.Some? && definition.Some? && address.value.id != PrivateRootId && parent.None?
    ensures address.Some? && address.value.id == PrivateRootId ==> r != Some(ParentArgument)
  {
    if stage.None? then Some(StageArgument)
    else if address.None? then Some(AddressArgument)
    else if definition.None? then Some(DefinitionArgument)
    else if address.value.id != PrivateRootId && parent.None? then Some(ParentArgument)
    else if mailbox == null then Some(MailboxArgument)
    else None
  }

  /** The part of an environment that `Stop` changes. */
  datatype StopState = StopState(
    children: seq<Address>,
    childStopCalls: seq<Address>,
    stowage: seq<Message>,
    suspended: seq<Message>,
    stopped: bool,
    mailboxClosed: bool)

  /** What `Stop` does: the first call stops children in order, resets both stowages and closes the mailbox. */
  function StopOf(s: StopState): StopState
  {
    if s.stopped then s
    else StopState([], s.childStopCalls + s.children, [], [], true, true)
  }

  /** Stopping twice is stopping once. */
  lemma StopIsIdempotent(s: StopState)
    ensures StopOf(StopOf(s)) == StopOf(s)
  {
  }

  /** After any `Stop` the environment is stopped; after the first, it is fully torn down. */
  lemma StopTearsDown(s: StopState)
    ensures StopOf(s).stopped
    ensures !s.stopped ==> StopOf(s).children == [] && StopOf(s).mailboxClosed
    ensures !s.stopped ==> StopOf(s).stowage == [] && StopOf(s).suspended == []
    ensures !s.stopped ==> StopOf(s).childStopCalls == s.childStopCalls + s.children
    ensures s.stopped ==> StopOf(s) == s
  {
  }

  class Environment {
    const stage: StageRef
    const address: Address
    const definition: Definition
    /** The parent actor's address; absent only for the private root. */
    const parent: Option<Address>
    const mailbox: Mailbox
    const maybeSupervisor: Option<Proxy>

    var children: seq<Address>
    /** Every `Stop` this environment has issued to a child, in order. */
    var childStopCalls: seq<Address>
    var completesEventuallyAddress: Option<Address>
    var proxyCache: map<TypeToken, Proxy>
    var stowage: seq<Message>
    var suspended: seq<Message>
    var secured: bool
    var stopped: bool
    /** `null` until `StowageOverrides` is first called. */
    var stowageOverrides: Option<seq<TypeToken>>

    /** Once stopped, the mailbox is closed. */
    ghost predicate Valid()
      reads this, mailbox
    {
      stopped ==> mailbox.closed
    }

    ghost function StopView(): StopState
      reads this, mailbox
    {
      StopState(children, childStopCalls, stowage, suspended, stopped, mailbox.closed)
    }

    constructor (stage: StageRef, address: Address, definition: Definition, parent: Option<Address>,
                 mailbox: Mailbox, maybeSupervisor: Option<Proxy>)
      requires NullArgument(Some(stage), Some(address), Some(definition), parent, mailbox) == None
      ensures Valid()
      ensures this.stage == stage && this.address == address && this.definition == definition
      ensures this.parent == parent && this.mailbox == mailbox && this.maybeSupervisor == maybeSupervisor
      ensures children == [] && childStopCalls == [] && completesEventuallyAddress == None
      ensures proxyCache == map[] && stowage == [] && suspended == []
      ensures !secured && !stopped && stowageOverrides == None
    {
      this.stage := stage;
      this.address := address;
      this.definition := definition;
      this.parent := parent;
      this.mailbox := mailbox;
      this.maybeSupervisor := maybeSupervisor;
      children := [];
      childStopCalls := [];
      completesEventuallyAddress := None;
      proxyCache := map[];
      stowage := [];
      suspended := [];
      secured := false;
      stopped := false;
      stowageOverrides := None;
    }

    /** The constructor together with its argument checks: a null argument is an `ArgumentNullException`. */
    static method Create(stage: Option<StageRef>, address: Option<Address>, definition: Option<Definition>,
                         parent: Option<Address>, mailbox: Mailbox?, maybeSupervisor: Option<Proxy>)
      returns (r: Result<Environment, Argument>)
      ensures r.Failure? <==> NullArgument(stage, address, definition, parent, mailbox).Some?
      ensures r.Failure? ==> Some(r.error) == NullArgument(stage, address, definition, parent, mailbox)
      ensures r.Success? ==> fresh(r.value) && r.value.Valid()
      ensures r.Success? ==> r.value.stage == stage.value && r.value.address == address.value
      ensures r.Success? ==> r.value.definition == definition.value && r.value.parent == parent
      ensures r.Success? ==> r.value.mailbox == mailbox && r.value.maybeSupervisor == maybeSupervisor
      ensures r.Success? ==> r.value.children == [] && r.value.childStopCalls == []
      ensures r.Success? ==> r.value.completesEventuallyAddress == None && r.value.proxyCache == map[]
      ensures r.Success? ==> r.value.stowage == [] && r.value.suspended == []
      ensures r.Success? ==> !r.value.secured && !r.value.stopped && r.value.stowageOverrides == None
    {
      var missing := NullArgument(stage, address, definition, parent, mailbox);
      if missing.Some? {
        return Failure(missing.value);
      }
      var e := new Environment(stage.value, address.value, definition.value, parent, mailbox, maybeSupervisor);
      return Success(e);
    }

    /** `AddChild`: appends the child and keeps the others as they were. */
    method AddChild(child: Address)
      modifies this`children
      ensures children == old(children) + [child]
    {
      children := children + [child];
    }

    /**
     * `CompletesEventually(completes)`: the first call asks the world for a new
     * completes-eventually actor, whose address `newAddress` stands for, and records
     * that address; every later call reuses the recorded address.
     */
    method CompletesEventually(client: ClientCompletes, newAddress: Address) returns (ce: CompletesEventuallyRef)
      modifies this`completesEventuallyAddress
      ensures old(completesEventuallyAddress).None? ==>
        ce == CompletesEventuallyRef(newAddress, client) && completesEventuallyAddress == Some(newAddress)
      ensures old(completesEventuallyAddress).Some? ==>
        ce == CompletesEventuallyRef(old(completesEventuallyAddress).value, client) &&
        completesEventuallyAddress == old(completesEventuallyAddress)
      ensures completesEventuallyAddress == Some(ce.address) && ce.client == client
    {
      if completesEventuallyAddress.None? {
        ce := CompletesEventuallyRef(newAddress, client);
        completesEventuallyAddress := Some(ce.address);
        return;
      }
      ce := CompletesEventuallyRef(completesEventuallyAddress.value, client);
    }

    /** `CacheProxy<T>(proxy)`: a non-null proxy is cached under its own runtime class. */
    method CacheProxy(proxy: Option<Proxy>)
      modifies this`proxyCache
      ensures proxy.None? ==> proxyCache == old(proxyCache)
      ensures proxy.Some? ==> proxyCache == old(proxyCache)[proxy.value.runtimeType := proxy.value]
      ensures proxy.Some? ==> LookUpProxy(proxy.value.runtimeType) == proxy
    {
      if proxy.Some? {
        proxyCache := proxyCache[proxy.value.runtimeType := proxy.value];
      }
    }

    /** `CacheProxy(type, proxy)`: caches under the given type, replacing an earlier entry. */
    method CacheProxyAs(proxyType: TypeToken, proxy: Proxy)
      modifies this`proxyCache
      ensures proxyCache == old(proxyCache)[proxyType := proxy]
      ensures LookUpProxy(proxyType) == Some(proxy)
      ensures forall t :: t != proxyType ==> LookUpProxy(t) == old(LookUpProxy(t))
    {
      proxyCache := proxyCache[proxyType := proxy];
    }

    /** `LookUpProxy(type)`: the proxy last cached under `type`, or null. */
    function LookUpProxy(proxyType: TypeToken): (r: Option<Proxy>)
      reads this
      ensures r.Some? <==> proxyType in proxyCache
      ensures r.Some? ==> r.value == proxyCache[proxyType]
    {
      if proxyType in proxyCache then Some(proxyCache[proxyType]) else None
    }

    /** `IsSecured`: whether `SetSecured()` has been called. */
    predicate IsSecured()
      reads this
      ensures IsSecured() <==> secured
    {
      secured
    }

    /** `SetSecured()`: secured from now on; nothing clears the flag. */
    method SetSecured()
      modifies this`secured
      ensures IsSecured()
    {
      secured := true;
    }

    /** `IsStopped`: whether `Stop()` has run. */
    predicate IsStopped()
      reads this
      ensures IsStopped() <==> stopped
    {
      stopped
    }

    /**
     * `Stop()`: guarded by compare-and-set, so the body runs only on the call that
     * turns `stopped` from false to true. It stops the children in list order,
     * resets both stowages and closes the mailbox.
     */
    method Stop()
      requires Valid()
      modifies this`stopped, this`children, this`childStopCalls, this`stowage, this`suspended, mailbox
      ensures Valid() && IsStopped()
      ensures StopView() == StopOf(old(StopView()))
      ensures old(stopped) ==> unchanged(this, mailbox)
    {
      if !stopped {
        stopped := true;
        StopChildren();
        suspended := [];
        stowage := [];
        mailbox.Close();
      }
    }

    /** `StopChildren()`: calls `Stop` on each child in list order, then clears the list. */
    method StopChildren()
      modifies this`children, this`childStopCalls
      ensures children == [] && childStopCalls == old(childStopCalls) + old(children)
    {
      var i := 0;
      while i < |children|
        invariant 0 <= i <= |children| && children == old(children)
        invariant childStopCalls == old(childStopCalls) + children[..i]
      {
        childStopCalls := childStopCalls + [children[i]];
        i := i + 1;
      }
      assert children[..i] == children;
      children := [];
    }

    /** `IsStowageOverride(protocol)`: false until overrides are set, then membership in the last set given. */
    predicate IsStowageOverride(protocol: TypeToken)
      reads this
      ensures IsStowageOverride(protocol) ==> stowageOverrides.Some?
    {
      stowageOverrides.Some? && protocol in stowageOverrides.value
    }

    /** `StowageOverrides(overrides)`: replaces the override set. */
    method StowageOverrides(overrides: seq<TypeToken>)
      modifies this`stowageOverrides
      ensures stowageOverrides == Some(overrides)
      ensures forall p :: IsStowageOverride(p) <==> p in overrides
    {
      stowageOverrides := Some(overrides);
    }
  }
}
