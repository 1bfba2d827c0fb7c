/**
 * The shared ring-buffer mailbox plugin: it hands out ring-buffer mailboxes, sharing
 * one dispatcher among all actors whose hash code is the same.
 *
 * The ring-buffer dispatcher itself is outside this model. `RingBufferDispatcher` keeps
 * only what the plugin relies on: its construction parameters, its own mailbox, and
 * whether it has been started and closed.
 */
module SharedRingBuffer {
  import opened Wrappers
  import opened Mailboxes

  /** The plugin configuration: its name, whether it is the default mailbox, and the dispatcher parameters. */
  datatype RingConfiguration = RingConfiguration(
    name: string,
    isDefaultMailbox: bool,
    ringSize: int,
    fixedBackoff: int,
    dispatcherThrottlingCount: int)

  class RingBufferDispatcher {
    const ringSize: int
    const fixedBackoff: int
    const throttlingCount: int
    const mailbox: Mailbox
    var started: bool
    var closed: bool

    constructor (ringSize: int, fixedBackoff: int, throttlingCount: int)
      ensures this.ringSize == ringSize && this.fixedBackoff == fixedBackoff && this.throttlingCount == throttlingCount
      ensures fresh(mailbox) && !started && !closed
    {
      this.ringSize := ringSize;
      this.fixedBackoff := fixedBackoff;
      this.throttlingCount := throttlingCount;
      mailbox := new Mailbox(true);
      started := false;
      closed := false;
    }

    method Start()
      modifies this`started
      ensures started
    {
      started := true;
    }

    method Close()
      modifies this`closed
      ensures closed
    {
      closed := true;
    }
  }

  /** One `Register(name, isDefault, provider)` call a plugin makes on its registrar. */
  datatype Registration = Registration(name: string, isDefault: bool, provider: SharedRingBufferMailboxPlugin)

  class Registrar {
    var registrations: seq<Registration>

    constructor ()
      ensures registrations == []
    {
      registrations := [];
    }

    method Register(name: string, isDefault: bool, provider: SharedRingBufferMailboxPlugin)
      modifies this`registrations
      ensures registrations == old(registrations) + [Registration(name, isDefault, provider)]
    {
      registrations := registrations + [Registration(name, isDefault, provider)];
    }
  }

  class SharedRingBufferMailboxPlugin {
    const configuration: RingConfiguration
    /** The plugin's pass: always 1. */
    const pass: int
    /** The dispatcher shared by every actor of a hash code. */
    var dispatchers: map<int, RingBufferDispatcher>

    /**
     * Every cached dispatcher has been started, and distinct hash codes never share a
     * dispatcher or a mailbox.
     */
    ghost predicate Valid()
      reads this, dispatchers.Values
    {
      && (forall h :: h in dispatchers ==> dispatchers[h].started)
      && (forall h, k :: h in dispatchers && k in dispatchers && h != k ==>
            dispatchers[h] != dispatchers[k] && dispatchers[h].mailbox != dispatchers[k].mailbox)
    }

    constructor (configuration: RingConfiguration)
      ensures Valid()
      ensures this.configuration == configuration && pass == 1 && dispatchers == map[]
    {
      this.configuration := configuration;
      pass := 1;
      dispatchers := map[];
    }

    /** `Start(registrar)`: registers this plugin under its configured name and default flag. */
    method Start(registrar: Registrar)
      modifies registrar`registrations
      ensures registrar.registrations ==
        old(registrar.registrations) + [Registration(configuration.name, configuration.isDefaultMailbox, this)]
    {
      registrar.Register(configuration.name, configuration.isDefaultMailbox, this);
    }

    /** `Close()`: closes every cached dispatcher and keeps them cached. */
    method Close()
      modifies dispatchers.Values`closed
      ensures forall h :: h in dispatchers ==> dispatchers[h].closed
    {
      var remaining := dispatchers.Values;
      while remaining != {}
        invariant remaining <= dispatchers.Values
        invariant forall d :: d in dispatchers.Values - remaining ==> d.closed
        decreases remaining
      {
        var d :| d in remaining;
        d.Close();
        remaining := remaining - {d};
      }
      assert forall h :: h in dispatchers ==> dispatchers[h] in dispatchers.Values;
    }

    /**
     * `ProvideMailboxFor(hashCode, dispatcher)`: the given dispatcher's mailbox when
     * there is one; otherwise the mailbox of the dispatcher cached for `hashCode`;
     * otherwise a new dispatcher built from the configuration is cached under
     * `hashCode`, started, and its mailbox returned.
     */
    method ProvideMailboxFor(hashCode: int, dispatcher: RingBufferDispatcher?) returns (mailbox: Mailbox)
      requires Valid()
      modifies this`dispatchers
      ensures Valid()
      ensures dispatcher != null ==> mailbox == dispatcher.mailbox && dispatchers == old(dispatchers)
      ensures dispatcher == null && hashCode in old(dispatchers) ==>
        mailbox == old(dispatchers)[hashCode].mailbox && dispatchers == old(dispatchers)
      ensures dispatcher == null && hashCode !in old(dispatchers) ==>
        && hashCode in dispatchers && fresh(dispatchers[hashCode]) && fresh(mailbox)
        && dispatchers == old(dispatchers)[hashCode := dispatchers[hashCode]]
        && mailbox == dispatchers[hashCode].mailbox
        && dispatchers[hashCode].started && !dispatchers[hashCode].closed
        && dispatchers[hashCode].ringSize == configuration.ringSize
        && dispatchers[hashCode].fixedBackoff == configuration.fixedBackoff
        && dispatchers[hashCode].throttlingCount == configuration.dispatcherThrottlingCount
      ensures dispatcher == null ==> hashCode in dispatchers && mailbox == dispatchers[hashCode].mailbox
      ensures forall h :: h in old(dispatchers) ==> h in dispatchers && dispatchers[h] == old(dispatchers)[h]
    {
      if dispatcher != null {
        return dispatcher.mailbox;
      }
      if hashCode in dispatchers {
        return dispatchers[hashCode].mailbox;
      }
      var newDispatcher := new RingBufferDispatcher(configuration.ringSize, configuration.fixedBackoff,
                                                    configuration.dispatcherThrottlingCount);
      dispatchers := dispatchers[hashCode := newDispatcher];
      newDispatcher.Start();
      mailbox := newDispatcher.mailbox;
    }

    /** `ProvideMailboxFor(hashCode)`: the shared mailbox for `hashCode`. */
    method ProvideMailboxForHash(hashCode: int) returns (mailbox: Mailbox)
      requires Valid()
      modifies this`dispatchers
      ensures Valid()
      ensures hashCode in dispatchers && mailbox == dispatchers[hashCode].mailbox
      ensures hashCode in old(dispatchers) ==>
        dispatchers == old(dispatchers) && mailbox == old(dispatchers)[hashCode].mailbox
      ensures hashCode !in old(dispatchers) ==>
        && fresh(dispatchers[hashCode]) && fresh(mailbox)
        && dispatchers == old(dispatchers)[hashCode := dispatchers[hashCode]]
        && dispatchers[hashCode].started && !dispatchers[hashCode].closed
        && dispatchers[hashCode].ringSize == configuration.ringSize
        && dispatchers[hashCode].fixedBackoff == configuration.fixedBackoff
        && dispatchers[hashCode].throttlingCount == configuration.dispatcherThrottlingCount
      ensures forall h :: h in old(dispatchers) ==> h in dispatchers && dispatchers[h] == old(dispatchers)[h]
    {
      mailbox := ProvideMailboxFor(hashCode, null);
    }

    /** `With(override)`: this plugin when there is no override, else a new plugin with the override and no dispatchers. */
    method With(overrideConfiguration: Option<RingConfiguration>) returns (plugin: SharedRingBufferMailboxPlugin)
      ensures overrideConfiguration.None? ==> plugin == this
      ensures overrideConfiguration.Some? ==>
        fresh(plugin) && plugin.configuration == overrideConfiguration.value && plugin.dispatchers == map[] && plugin.Valid()
    {
      if overrideConfiguration.None? {
        return this;
      }
      plugin := new SharedRingBufferMailboxPlugin(overrideConfiguration.value);
    }
  }

  /** Two requests for the same hash code get the same mailbox. */
  method SameHashSameMailbox(plugin: SharedRingBufferMailboxPlugin, hashCode: int) returns (first: Mailbox, second: Mailbox)
    requires plugin.Valid()
    modifies plugin`dispatchers
    ensures first == second
  {
    first := plugin.ProvideMailboxForHash(hashCode);
    second := plugin.ProvideMailboxForHash(hashCode);
  }

  /** Requests for distinct hash codes get distinct mailboxes. */
  method DistinctHashesDistinctMailboxes(plugin: SharedRingBufferMailboxPlugin, h: int, k: int) returns (first: Mailbox, second: Mailbox)
    requires plugin.Valid() && h != k
    modifies plugin`dispatchers
    ensures first != second
  {
    first := plugin.ProvideMailboxForHash(h);
    second := plugin.ProvideMailboxForHash(k);
  }
}
