/**
 * The dead-letters actor: it registers itself as the world's dead letters when
 * created, fans every failed delivery out to its listeners in registration order,
 * and withdraws itself from the world when it stops.
 *
 * A listener's `Handle` is code outside this model. What it does is a parameter,
 * `handle`, which says for each listener and letter whether the handler returns or
 * throws. The actor records each `Handle` call, in order, in `handleCalls`. Its logger
 * is the sequence `log`.
 */
module DeadLettersActors {
  import opened Wrappers
  import opened Addresses
  import opened Protocols
  import opened Worlds

  /** A registered `IDeadLettersListener`, by identity. */
  datatype Listener = Listener(id: nat)

  /** What one `Handle` call does: returns, or throws with `reason`. */
  datatype HandleResult = Handled | Threw(reason: string)

  /** A logger entry: the debug line for each letter, and a warning for each listener that threw. */
  datatype LogEntry = Debug(letter: DeadLetter) | Warn(letter: DeadLetter, reason: string)

  const DeadLettersProtocol: TypeToken := TypeToken("IDeadLetters")

  /** The warnings `FailedDelivery` logs for `letter`: one per listener that throws, in listener order. */
  function Warnings(listeners: seq<Listener>, letter: DeadLetter, handle: (Listener, DeadLetter) -> HandleResult): seq<LogEntry>
  {
    if listeners == [] then []
    else
      var last := listeners[|listeners| - 1];
      Warnings(listeners[..|listeners| - 1], letter, handle) +
        (match handle(last, letter)
         case Handled => []
         case Threw(reason) => [Warn(letter, reason)])
  }

  /** The `Handle` calls one fan-out makes: each listener exactly once, in list order, given `letter`. */
  function HandleCallsFor(listeners: seq<Listener>, letter: DeadLetter): (calls: seq<(Listener, DeadLetter)>)
    ensures |calls| == |listeners|
    ensures forall i :: 0 <= i < |listeners| ==> calls[i] == (listeners[i], letter)
  {
    if listeners == [] then []
    else HandleCallsFor(listeners[..|listeners| - 1], letter) + [(listeners[|listeners| - 1], letter)]
  }

  /** How many of `listeners` throw on `letter`. */
  function Failures(listeners: seq<Listener>, letter: DeadLetter, handle: (Listener, DeadLetter) -> HandleResult): nat
  {
    if listeners == [] then 0
    else Failures(listeners[..|listeners| - 1], letter, handle) + (if handle(listeners[|listeners| - 1], letter).Threw? then 1 else 0)
  }

  /** The warnings for two runs of listeners are those of the first run, then those of the second. */
  lemma {:induction false} WarningsSplit(a: seq<Listener>, b: seq<Listener>, letter: DeadLetter, handle: (Listener, DeadLetter) -> HandleResult)
    ensures Warnings(a + b, letter, handle) == Warnings(a, letter, handle) + Warnings(b, letter, handle)
  {
    if b == [] {
      assert a + b == a;
    } else {
      var b' := b[..|b| - 1];
      assert (a + b)[..|a + b| - 1] == a + b';
      assert (a + b)[|a + b| - 1] == b[|b| - 1];
      WarningsSplit(a, b', letter, handle);
    }
  }

  /**
   * Exactly one warning per failing listener; each warning names the letter and the
   * reason its listener threw; so no warning at all when every listener handles it.
   */
  lemma {:induction false} WarningsMatchFailures(listeners: seq<Listener>, letter: DeadLetter, handle: (Listener, DeadLetter) -> HandleResult)
    ensures |Warnings(listeners, letter, handle)| == Failures(listeners, letter, handle) <= |listeners|
    ensures forall w :: w in Warnings(listeners, letter, handle) ==>
      w.Warn? && w.letter == letter && exists l :: l in listeners && handle(l, letter) == Threw(w.reason)
    ensures (forall l :: l in listeners ==> handle(l, letter) == Handled) ==> Warnings(listeners, letter, handle) == []
  {
    if listeners != [] {
      var init := listeners[..|listeners| - 1];
      var last := listeners[|listeners| - 1];
      WarningsMatchFailures(init, letter, handle);
      assert forall l :: l in init ==> l in listeners;
      assert last in listeners;
    }
  }

  /** A single listener that throws yields exactly one warning, carrying its reason. */
  lemma OneFailingListener(l: Listener, letter: DeadLetter, handle: (Listener, DeadLetter) -> HandleResult, reason: string)
    requires handle(l, letter) == Threw(reason)
    ensures Warnings([l], letter, handle) == [Warn(letter, reason)]
  {
    assert [l][..0] == [];
  }

  class DeadLettersActor {
    const address: Address
    const world: World
    /** Registered listeners, in registration order. */
    var listeners: seq<Listener>
    /** Every `Handle` call made on a listener, in order, with the letter it was given. */
    var handleCalls: seq<(Listener, DeadLetter)>
    var log: seq<LogEntry>

    /** Starts with no listeners and installs a proxy onto itself as the world's dead letters. */
    constructor (address: Address, world: World)
      modifies world`deadLetters
      ensures this.address == address && this.world == world
      ensures listeners == [] && handleCalls == [] && log == []
      ensures world.deadLetters == Some(Proxy(DeadLettersProtocol, address))
    {
      this.address := address;
      this.world := world;
      listeners := [];
      handleCalls := [];
      log := [];
      world.deadLetters := Some(Proxy(DeadLettersProtocol, address));
    }

    /** `RegisterListener`: appends to the listener list. */
    method RegisterListener(listener: Listener)
      modifies this`listeners
      ensures listeners == old(listeners) + [listener]
    {
      listeners := listeners + [listener];
    }

    /**
     * `FailedDelivery(letter)`: one debug entry, then `Handle` on every listener in list
     * order; a listener that throws is logged as a warning and the fan-out goes on.
     */
    method FailedDelivery(letter: DeadLetter, handle: (Listener, DeadLetter) -> HandleResult)
      modifies this`handleCalls, this`log
      ensures handleCalls == old(handleCalls) + HandleCallsFor(listeners, letter)
      ensures log == old(log) + [Debug(letter)] + Warnings(listeners, letter, handle)
    {
      log := log + [Debug(letter)];
      var i := 0;
      while i < |listeners|
        invariant 0 <= i <= |listeners|
        invariant handleCalls == old(handleCalls) + HandleCallsFor(listeners[..i], letter)
        invariant log == old(log) + [Debug(letter)] + Warnings(listeners[..i], letter, handle)
      {
        var listener := listeners[i];
        handleCalls := handleCalls + [(listener, letter)];
        var outcome := handle(listener, letter);
        if outcome.Threw? {
          log := log + [Warn(letter, outcome.reason)];
        }
        assert listeners[..i + 1][..i] == listeners[..i];
        i := i + 1;
      }
      assert listeners[..i] == listeners;
    }

    /** `AfterStop`: the world no longer has dead letters. */
    method AfterStop()
      modifies world`deadLetters
      ensures world.deadLetters == None
    {
      world.deadLetters := None;
    }
  }
}
