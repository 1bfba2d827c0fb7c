# vlingo-net actor runtime core, in Dafny

This project models the core of the vlingo-net actor runtime and proves properties of the model:

- the basic address factory, with its two atomic id counters and `long.Parse`-based lookups;
- the per-actor `Environment`, with its children, proxy cache, stowage, and secured and stopped flags;
- the `Actor` base class: the stop guard, the secured accessors, choosing a child's supervisor, equality, and the default hooks;
- the many-to-one array-queue dispatcher's throttled `Deliver` step and its `Close`;
- the generated `Cancellable__Proxy` and `CompletesEventually__Proxy`, which turn protocol calls into mailbox messages or dead letters;
- the dead-letters actor's listener fan-out;
- the shared ring-buffer mailbox plugin, which shares one dispatcher per hash code.

Objects whose fields the runtime updates in place are Dafny classes with `modifies` frames:

- `BasicAddressFactory`, `Environment`, `Actor`, the dispatcher, the two proxies, `DeadLettersActor` and the plugin;
- two stand-in collaborators: `Mailbox`, a FIFO queue with a closed flag, and `World`, whose `DeadLetters` slot is an optional proxy that the dead-letters actor sets on creation and clears in `AfterStop`. Reporting a dead letter through an empty slot is a null dereference, as it is in the source.

Values are datatypes: addresses, messages, dead letters, proxies and definitions.

Collaborators that are not part of this model are represented by state that records what the core asks of them:

- `LifeCycle`: the actor keeps `lifeCycleCalls`.
- Child actors' `Stop`: the environment keeps `childStopCalls`.
- Message delivery: the dispatcher keeps `delivered`.
- Listener `Handle` calls: the dead-letters actor keeps `handleCalls`.
- The logger: the dead-letters actor keeps `log`.

A listener's behaviour is a function parameter that answers, for each listener, whether `Handle` returns or throws. The world's ids are constants: `PrivateRootId` is `long.MaxValue`, and the public root, dead-letters and high-root ids count down from it. `World.cs` is not part of this model.

C# `long` is the subtype `Long`. `AtomicLong` wrap-around is written out explicitly.

The runtime's design documentation for the `IDispatcher` contract, which this dispatcher implements (ManyToOneConcurrentArrayQueueDispatcher.cs:14) and every mailbox backend must meet, promises that `Close()` stops the drain activity and is safe to call more than once. `IDispatcher.cs` itself is not part of this model. This dispatcher's code does not keep that promise: its second call cancels a disposed token source. The model follows the code, and "## Findings" records the discrepancy. The rest of the model uses the corrected `Close`.

## Model

| member | source | states |
|---|---|---|
| Addresses.NextAfterCounts | src/Vlingo.Actors/BasicAddressFactory.cs:21-34 | the ordinary counter starts at 1 and, until it reaches long.MaxValue, stands at n + 1 after n `GetAndIncrement` calls |
| Addresses.HighAfterCounts | src/Vlingo.Actors/BasicAddressFactory.cs:20-42 | the high counter starts at `HighRootId` and, until it reaches long.MinValue, stands n below it after n `DecrementAndGet` calls |
| Addresses.UniqueIdsIncrease | src/Vlingo.Actors/BasicAddressFactory.cs:34-38 | ids handed out by `Unique`, `UniqueWith` and `UniquePrefixedWith` strictly increase, so no two are equal |
| Addresses.HighIdsDecrease | src/Vlingo.Actors/BasicAddressFactory.cs:42 | ids handed out by `WithHighId` strictly decrease, so no two are equal |
| Addresses.UniqueAndHighIdsDisjoint | src/Vlingo.Actors/BasicAddressFactory.cs:20-42 | while the ordinary counter has not reached the high counter, every ordinary id is below, and so distinct from, every high id |
| Addresses.ParseLong | src/Vlingo.Actors/BasicAddressFactory.cs:28 | `long.Parse` under the integer number style: text that is not well formed (after trimming white space, an optional sign and at least one decimal digit) is a format error; well-formed text is an overflow exactly when its value is out of the `long` range, and otherwise parses to exactly that value |
| Addresses.LoneSignFails | src/Vlingo.Actors/BasicAddressFactory.cs:28 | a sign with no digits is a format error |
| Addresses.DoubledSignFails | src/Vlingo.Actors/BasicAddressFactory.cs:28 | two signs are a format error |
| Addresses.InnerWhiteFails | src/Vlingo.Actors/BasicAddressFactory.cs:28 | white space between digits is a format error |
| Addresses.SurroundingWhiteIgnored | src/Vlingo.Actors/BasicAddressFactory.cs:28 | leading and trailing white space does not change what a text parses to |
| Addresses.ParseSeesOnlyTrimmed | src/Vlingo.Actors/BasicAddressFactory.cs:28 | two texts with the same trimmed core parse alike |
| Addresses.ParseCanonicalNumeral | src/Vlingo.Actors/BasicAddressFactory.cs:28 | a run of digits, with or without a leading minus, parses to its value when that is a `long`, and is an overflow otherwise |
| Addresses.FormatLong | src/Vlingo.Actors/BasicAddressFactory.cs:24 | `id.ToString()`: a non-empty decimal text with no white space at either end; `FormatThenParse` proves it parses back to the id |
| Addresses.FormatThenParse | src/Vlingo.Actors/BasicAddressFactory.cs:24 | every `long` parses back from its own decimal text, exactly |
| Addresses.BasicAddressFactory.constructor | src/Vlingo.Actors/BasicAddressFactory.cs:18-22 | the high counter starts at `HighRootId` and the ordinary counter at 1 |
| Addresses.BasicAddressFactory.NextUniqueId | src/Vlingo.Actors/BasicAddressFactory.cs:34 | answers the current ordinary counter and advances it by one, wrapping at long.MaxValue; the high counter is untouched |
| Addresses.BasicAddressFactory.Unique | src/Vlingo.Actors/BasicAddressFactory.cs:34 | a nameless address with the next ordinary id; only the ordinary counter moves |
| Addresses.BasicAddressFactory.UniqueWith | src/Vlingo.Actors/BasicAddressFactory.cs:38 | the next ordinary id with the given, possibly null, name |
| Addresses.BasicAddressFactory.UniquePrefixedWith | src/Vlingo.Actors/BasicAddressFactory.cs:36 | the next ordinary id with the name marked as a prefix |
| Addresses.BasicAddressFactory.WithHighIdNamed | src/Vlingo.Actors/BasicAddressFactory.cs:42 | decrements the high counter (wrapping at long.MinValue) and answers the new value with the name; the ordinary counter is untouched |
| Addresses.BasicAddressFactory.WithHighId | src/Vlingo.Actors/BasicAddressFactory.cs:40 | is `WithHighId(null)` |
| Addresses.BasicAddressFactory.TestNextIdValue | src/Vlingo.Actors/BasicAddressFactory.cs:32 | changes nothing and answers the id the next `Unique*` call will hand out, which is n + 1 after n calls while no wrap has happened |
| Addresses.BasicAddressFactory.NoneAddress | src/Vlingo.Actors/BasicAddressFactory.cs:44 | always the same address, id 0 and name "(none)" |
| Addresses.BasicAddressFactory.FromReserved | src/Vlingo.Actors/BasicAddressFactory.cs:26 | the given id and name, unchanged |
| Addresses.BasicAddressFactory.FromIdString | src/Vlingo.Actors/BasicAddressFactory.cs:28 | succeeds exactly when the text parses as a `long`, with that id; otherwise it fails with the same parse error |
| Addresses.BasicAddressFactory.FromIdStringNamed | src/Vlingo.Actors/BasicAddressFactory.cs:30 | as `FromIdString`, and the address also carries the name |
| Addresses.BasicAddressFactory.FindableBy | src/Vlingo.Actors/BasicAddressFactory.cs:24 | succeeds exactly when the id's text parses, with the parsed id |
| Addresses.BasicAddressFactory.FindableByLongId | src/Vlingo.Actors/BasicAddressFactory.cs:24 | a `long` id is always findable, as an address with that very id |
| Environments.NullArgument | src/Vlingo.Actors/Environment.cs:45-56 | the constructor rejects the first missing argument, in the order stage, address, definition, parent, mailbox: each argument is named exactly when every earlier one is present and it is missing, a missing parent counting only when the address is not the private root; nothing is rejected exactly when all are present |
| Environments.Environment.constructor | src/Vlingo.Actors/Environment.cs:36-68 | a new environment holds its arguments, no children, an empty proxy cache, empty stowages, no overrides, and is neither secured nor stopped |
| Environments.Environment.Create | src/Vlingo.Actors/Environment.cs:36-68 | fails exactly when an argument is missing, naming it; otherwise it answers a fresh, valid environment holding the stage, address, definition, parent, mailbox and supervisor given, with no children, no child stops issued, no completes-eventually address, an empty proxy cache, empty stowages, no overrides, and neither secured nor stopped |
| Environments.StopIsIdempotent | src/Vlingo.Actors/Environment.cs:120-129 | stopping a second time changes nothing more than stopping once |
| Environments.StopTearsDown | src/Vlingo.Actors/Environment.cs:120-129 | after the first stop, every child has been stopped, in list order, and the list is empty; both stowages are empty and the mailbox is closed; a later stop changes nothing |
| Environments.Environment.AddChild | src/Vlingo.Actors/Environment.cs:70-73 | appends the child and keeps the others in order |
| Environments.Environment.CompletesEventually | src/Vlingo.Actors/Environment.cs:75-85 | the first call records the new completes-eventually address; every later call reuses the recorded address for the new client |
| Environments.Environment.CacheProxy | src/Vlingo.Actors/Environment.cs:87-90 | a null proxy changes nothing; a proxy is cached under its own runtime class and is then what a look-up of that class answers |
| Environments.Environment.CacheProxyAs | src/Vlingo.Actors/Environment.cs:92-95 | caches under the given type, replacing an earlier entry; a look-up of any other type answers what it answered before |
| Environments.Environment.LookUpProxy | src/Vlingo.Actors/Environment.cs:108-109 | answers the proxy cached under the type, and null exactly when there is none |
| Environments.Environment.IsSecured | src/Vlingo.Actors/Environment.cs:111 | true exactly when the secured flag is set |
| Environments.Environment.SetSecured | src/Vlingo.Actors/Environment.cs:113-116 | the environment is secured afterwards |
| Environments.Environment.IsStopped | src/Vlingo.Actors/Environment.cs:118 | true exactly when the stopped flag is set |
| Environments.Environment.Stop | src/Vlingo.Actors/Environment.cs:120-129 | keeps "stopped implies mailbox closed"; the first call stops the children, clears both stowages and closes the mailbox; a later call changes nothing |
| Environments.Environment.StopChildren | src/Vlingo.Actors/Environment.cs:146-150 | issues `Stop` to every child exactly once, in list order, then clears the list |
| Environments.Environment.IsStowageOverride | src/Vlingo.Actors/Environment.cs:131-139 | false while no overrides have been set, and membership in the last set given afterwards |
| Environments.Environment.StowageOverrides | src/Vlingo.Actors/Environment.cs:141-144 | replaces the override set; afterwards a protocol is an override exactly when it is in the new set |
| Actors.ChildSupervisor | src/Vlingo.Actors/Actor.cs:137-158 | the definition's own supervisor wins; otherwise a supervising actor supplies its cached `ISupervisor` proxy; otherwise there is none |
| Actors.CompletesOf | src/Vlingo.Actors/Actor.cs:188-196 | the actor's completes when it has one, and otherwise an invalid operation with the source's message |
| Actors.Actor.constructor | src/Vlingo.Actors/Actor.cs:123-129 | a new actor has its environment and a completes slot, and has made no life-cycle call |
| Actors.Actor.Address | src/Vlingo.Actors/Actor.cs:28 | the address the life cycle's environment holds |
| Actors.Actor.IsStopped | src/Vlingo.Actors/Actor.cs:53 | stopped exactly when the environment is |
| Actors.Actor.Stop | src/Vlingo.Actors/Actor.cs:58-68 | delegates one stop to the life cycle exactly when the actor is not stopped and is not the dead-letters actor, and otherwise does nothing |
| Actors.Actor.Equals | src/Vlingo.Actors/Actor.cs:81-89 | equal exactly when the other is a non-null actor of the same runtime class at an equal address |
| Actors.Actor.EqualsIsEquivalence | src/Vlingo.Actors/Actor.cs:81-89 | actor equality is reflexive, symmetric and transitive |
| Actors.Actor.Parent | src/Vlingo.Actors/Actor.cs:107-118 | fails with the "cannot provide its parent" invalid operation exactly when secured, and otherwise answers the parent |
| Actors.Actor.ParentAs | src/Vlingo.Actors/Actor.cs:224-233 | fails when secured, and with a null dereference when there is no parent; otherwise it answers a proxy of the protocol onto the parent |
| Actors.Actor.Stage | src/Vlingo.Actors/Actor.cs:257-268 | fails with the "cannot provide its stage" invalid operation exactly when secured, and otherwise answers the stage |
| Actors.Actor.ChildActorFor | src/Vlingo.Actors/Actor.cs:137-158 | asks the stage for a child of the definition whose parent is this actor, with the supervisor `ChildSupervisor` chooses |
| Actors.Actor.Completes | src/Vlingo.Actors/Actor.cs:188-196 | answers the actor's own completes slot when there is one |
| Actors.Actor.StowMessages | src/Vlingo.Actors/Actor.cs:309-313 | starts stowing in the life cycle; afterwards a protocol is a stowage override exactly when it was given |
| Actors.Actor.DisperseStowedMessages | src/Vlingo.Actors/Actor.cs:293-296 | delegates one dispersal to the life cycle |
| Actors.Actor.SelfAs | src/Vlingo.Actors/Actor.cs:248-251 | a proxy of the protocol onto this actor's own address |
| Actors.Actor.Definition | src/Vlingo.Actors/Actor.cs:211 | the definition the environment holds |
| Actors.Actor.Secure | src/Vlingo.Actors/Actor.cs:238-241 | delegates one secure to the life cycle |
| Actors.Actor.BeforeRestart | src/Vlingo.Actors/Actor.cs:340-344 | the default hook runs the life cycle's after-stop once |
| Actors.Actor.AfterRestart | src/Vlingo.Actors/Actor.cs:351-355 | the default hook runs the life cycle's before-start once |
| ArrayQueueDispatcher.Taken | src/Vlingo.Actors/Plugin/Mailbox/AgronaMPSCArrayQueue/ManyToOneConcurrentArrayQueueDispatcher.cs:87-99 | one step takes no more than the queue holds and no more than the throttle; it takes either the full throttle or the whole queue, and nothing when the throttle is not positive |
| ArrayQueueDispatcher.DrainEmptiesQueue | src/Vlingo.Actors/Plugin/Mailbox/AgronaMPSCArrayQueue/ManyToOneConcurrentArrayQueueDispatcher.cs:59-101 | with a positive throttle and no new arrivals, r steps of the drain loop empty a queue of at most r times the throttle |
| ArrayQueueDispatcher.ManyToOneConcurrentArrayQueueDispatcher.constructor | src/Vlingo.Actors/Plugin/Mailbox/AgronaMPSCArrayQueue/ManyToOneConcurrentArrayQueueDispatcher.cs:25-38 | the dispatcher holds its parameters and owns a new, empty, open mailbox and is neither closed nor started |
| ArrayQueueDispatcher.ManyToOneConcurrentArrayQueueDispatcher.IsClosed | src/Vlingo.Actors/Plugin/Mailbox/AgronaMPSCArrayQueue/ManyToOneConcurrentArrayQueueDispatcher.cs:48 | true exactly when the closed flag is set |
| ArrayQueueDispatcher.ManyToOneConcurrentArrayQueueDispatcher.RequiresExecutionNotification | src/Vlingo.Actors/Plugin/Mailbox/AgronaMPSCArrayQueue/ManyToOneConcurrentArrayQueueDispatcher.cs:32-57 | senders must notify the dispatcher exactly when the fixed backoff given at construction is zero |
| ArrayQueueDispatcher.ManyToOneConcurrentArrayQueueDispatcher.CloseAsWritten | src/Vlingo.Actors/Plugin/Mailbox/AgronaMPSCArrayQueue/ManyToOneConcurrentArrayQueueDispatcher.cs:40-46 | the source's `Close`: it sets closed and disposes the token sources, and raises `ObjectDisposedException` exactly when they were already disposed |
| ArrayQueueDispatcher.CloseTwiceAsWritten | src/Vlingo.Actors/Plugin/Mailbox/AgronaMPSCArrayQueue/ManyToOneConcurrentArrayQueueDispatcher.cs:40-46 | the source's `Close`, called a second time on a new dispatcher, raises `ObjectDisposedException` |
| ArrayQueueDispatcher.ManyToOneConcurrentArrayQueueDispatcher.Close | src/Vlingo.Actors/Plugin/Mailbox/AgronaMPSCArrayQueue/ManyToOneConcurrentArrayQueueDispatcher.cs:40-46 | the corrected `Close`: closed and disposed afterwards; a second call changes nothing |
| ArrayQueueDispatcher.ManyToOneConcurrentArrayQueueDispatcher.Execute | src/Vlingo.Actors/Plugin/Mailbox/AgronaMPSCArrayQueue/ManyToOneConcurrentArrayQueueDispatcher.cs:50-55 | resets the backoff wait once and leaves the mailbox alone |
| ArrayQueueDispatcher.ManyToOneConcurrentArrayQueueDispatcher.Start | src/Vlingo.Actors/Plugin/Mailbox/AgronaMPSCArrayQueue/ManyToOneConcurrentArrayQueueDispatcher.cs:70-81 | the drain task is launched once; later calls change nothing |
| ArrayQueueDispatcher.ManyToOneConcurrentArrayQueueDispatcher.Deliver | src/Vlingo.Actors/Plugin/Mailbox/AgronaMPSCArrayQueue/ManyToOneConcurrentArrayQueueDispatcher.cs:85-101 | removes exactly the first `Taken` messages; hands them to the actor in FIFO order unless closed, and drops them if closed; reports no progress exactly when the throttle is positive and the queue was empty |
| Worlds.World.ReportDeadLetter | src/Vlingo.Actors/Actor.cs:34 | `actor.DeadLetters.FailedDelivery(letter)`: a null dereference exactly when the world's slot is empty, with nothing reported; otherwise the letter is reported once |
| CancellableProxies.CancellableProxy.constructor | src/Vlingo.Actors/Cancellable__Proxy.cs:18-22 | the proxy holds the actor and its mailbox, and reaches dead letters through the actor's world |
| CancellableProxies.CancellableProxy.Cancel | src/Vlingo.Actors/Cancellable__Proxy.cs:23-42 | answers true exactly when the actor is live, having enqueued one "Cancel()" message and reported nothing; on a stopped actor it enqueues nothing, and answers false having reported one "Cancel()" dead letter exactly when the world has dead letters, raising a null dereference (and reporting nothing) exactly when it has none |
| CancellableProxies.CancelAfterDeadLettersStopped | src/Vlingo.Actors/DeadLettersActor.cs:46-50 | once the dead-letters actor has stopped, `Cancel` on a stopped actor's proxy raises a null dereference and reports nothing |
| CompletesEventuallyProxies.CompletesEventuallyProxy.constructor | src/Vlingo.Actors/CompletesEventually__Proxy.cs:21-25 | the proxy holds the actor and its mailbox, and reaches dead letters through the actor's world |
| CompletesEventuallyProxies.CompletesEventuallyProxy.Address | src/Vlingo.Actors/CompletesEventually__Proxy.cs:27 | the actor's address |
| CompletesEventuallyProxies.CompletesEventuallyProxy.IsStopped | src/Vlingo.Actors/CompletesEventually__Proxy.cs:29 | stopped exactly when the actor is |
| CompletesEventuallyProxies.CompletesEventuallyProxy.SendOrReport | src/Vlingo.Actors/CompletesEventually__Proxy.cs:31-89 | a live actor gets exactly one message and no dead letter; a stopped actor gets no message and, when the world has dead letters, exactly one dead letter with the same representation; the call fails with a null dereference exactly when the actor is stopped and the world has none |
| CompletesEventuallyProxies.CompletesEventuallyProxy.Conclude | src/Vlingo.Actors/CompletesEventually__Proxy.cs:31-49 | one "Conclude()" message, or once stopped one "Conclude()" dead letter, or a null dereference when the world has no dead letters |
| CompletesEventuallyProxies.CompletesEventuallyProxy.Stop | src/Vlingo.Actors/CompletesEventually__Proxy.cs:51-69 | one "Stop()" message, or once stopped one "Stop()" dead letter, or a null dereference when the world has no dead letters |
| CompletesEventuallyProxies.CompletesEventuallyProxy.With | src/Vlingo.Actors/CompletesEventually__Proxy.cs:71-89 | one "With(object)" message carrying the outcome unchanged, or once stopped one "With(object)" dead letter, or a null dereference when the world has no dead letters |
| DeadLettersActors.HandleCallsFor | src/Vlingo.Actors/DeadLettersActor.cs:27-31 | one fan-out calls `Handle` on each listener exactly once, in list order, with the letter |
| DeadLettersActors.WarningsSplit | src/Vlingo.Actors/DeadLettersActor.cs:27-38 | a failing listener does not disturb the rest: the warnings for a list of listeners are those of any prefix, followed by those of the rest |
| DeadLettersActors.WarningsMatchFailures | src/Vlingo.Actors/DeadLettersActor.cs:27-38 | exactly one warning per listener that throws; each warning carries the letter and that listener's reason; no warning when every listener handles the letter |
| DeadLettersActors.OneFailingListener | src/Vlingo.Actors/DeadLettersActor.cs:29-37 | a single throwing listener produces exactly one warning, with its reason |
| DeadLettersActors.DeadLettersActor.constructor | src/Vlingo.Actors/DeadLettersActor.cs:17-21 | starts with no listeners and installs an `IDeadLetters` proxy onto itself as the world's dead letters |
| DeadLettersActors.DeadLettersActor.RegisterListener | src/Vlingo.Actors/DeadLettersActor.cs:41-44 | appends the listener, keeping registration order |
| DeadLettersActors.DeadLettersActor.FailedDelivery | src/Vlingo.Actors/DeadLettersActor.cs:23-39 | logs one debug entry and then exactly the warnings `Warnings` gives; calls every listener once, in order; leaves the listener list unchanged |
| DeadLettersActors.DeadLettersActor.AfterStop | src/Vlingo.Actors/DeadLettersActor.cs:46-50 | the world has no dead letters afterwards |
| SharedRingBuffer.SharedRingBufferMailboxPlugin.constructor | src/Vlingo.Actors/Plugin/Mailbox/SharedRingBuffer/SharedRingBufferMailboxPlugin.cs:24-32 | holds the configuration, has pass 1 and no dispatchers |
| SharedRingBuffer.SharedRingBufferMailboxPlugin.Start | src/Vlingo.Actors/Plugin/Mailbox/SharedRingBuffer/SharedRingBufferMailboxPlugin.cs:39-42 | registers this plugin once, under the configured name and default flag |
| SharedRingBuffer.SharedRingBufferMailboxPlugin.Close | src/Vlingo.Actors/Plugin/Mailbox/SharedRingBuffer/SharedRingBufferMailboxPlugin.cs:36-37 | every cached dispatcher is closed afterwards |
| SharedRingBuffer.SharedRingBufferMailboxPlugin.ProvideMailboxFor | src/Vlingo.Actors/Plugin/Mailbox/SharedRingBuffer/SharedRingBufferMailboxPlugin.cs:46-73 | an explicit dispatcher's mailbox, with the cache unchanged; else the cached dispatcher's mailbox, with the cache unchanged; else a new dispatcher from the configuration, cached under the hash code and started; existing entries are never replaced, and distinct hash codes never share a dispatcher or a mailbox |
| SharedRingBuffer.SharedRingBufferMailboxPlugin.ProvideMailboxForHash | src/Vlingo.Actors/Plugin/Mailbox/SharedRingBuffer/SharedRingBufferMailboxPlugin.cs:44 | the mailbox of the dispatcher cached for the hash code, with the cache unchanged; when none is cached, a fresh dispatcher built from the configuration's ring size, backoff and throttling count is cached under the hash code, started and not closed, and its fresh mailbox is answered; other entries are never replaced |
| SharedRingBuffer.SharedRingBufferMailboxPlugin.With | src/Vlingo.Actors/Plugin/Mailbox/SharedRingBuffer/SharedRingBufferMailboxPlugin.cs:75-76 | no override answers this same plugin; an override answers a new plugin with that configuration and no dispatchers |
| SharedRingBuffer.SameHashSameMailbox | src/Vlingo.Actors/Plugin/Mailbox/SharedRingBuffer/SharedRingBufferMailboxPlugin.cs:56-72 | two requests for the same hash code get the same mailbox |
| SharedRingBuffer.DistinctHashesDistinctMailboxes | src/Vlingo.Actors/Plugin/Mailbox/SharedRingBuffer/SharedRingBufferMailboxPlugin.cs:59-69 | requests for distinct hash codes get distinct mailboxes |

## Left out

- Concurrency and atomics: `AtomicLong`, `AtomicBoolean`, `ConcurrentDictionary.GetOrAdd` and the dispatcher's lock are plain fields and sequential steps. Races between threads are not modelled.
- The dispatcher's asynchronous `Run` loop, its `Backoff` waits and its cancellation tokens: only whether the token sources were disposed is kept. `Run` ends only through a concurrent `Close`.
- ArrayQueueDispatcher.ManyToOneConcurrentArrayQueueDispatcher.Execute: it does not model the `ObjectDisposedException` that a call after `Close` raises on the disposed backoff token source.
- ArrayQueueDispatcher.ManyToOneConcurrentArrayQueueDispatcher.Start: it does not model the `ObjectDisposedException` that `Start` after `Close` raises when it reads the disposed dispatcher token source.
- ArrayQueueDispatcher.ManyToOneConcurrentArrayQueueDispatcher.Deliver: the actor's handling of a message is not modelled. This includes messages it sends to its own mailbox during the step; the step reads the queue as it stood at the start.
- Mailboxes: the mailbox implementations are not part of this model. `Mailbox` is an unbounded FIFO queue with a closed flag. Bounded capacity, send retries and the dispatcher signal on send are not modelled.
- `LifeCycle`, `Stage`, `World` and `Stowage` internals are not part of this model. Calls into them are recorded, or become parameters, as described above.
- `IsDispersing`, `IsStowing`, `ViewTestState`, `GetHashCode`, `ToString`, `Scheduler`, `Logger` and `StageNamed` on `Actor`: each only reads state of those unseen collaborators.
- World ids: `World.cs` is not part of this model. The reserved ids are assumed to count down from long.MaxValue.
- Address equality: `BasicAddress.cs` is not part of this model. Equal addresses are assumed to be those with equal ids.
- Addresses.ParseLong: does not model trailing NUL characters, or the current culture's sign symbols, which `long.Parse` also accepts.
- Environments.Environment.LookUpProxy: the generic `LookUpProxy<T>` cast to `T` is not modelled; answers are untyped proxies.
- `Actor.ChildActorFor(Definition, Type)`: it builds a generic method by reflection.
- The `Actor` constructor: it takes its environment from a thread-local slot (or a test environment); the model passes the environment in.
- `Actor.CompletesEventually`: it asks the unseen world for a completes-eventually actor, and has no logic of its own.
- `Actor` hooks `Start`, `BeforeStart`, `AfterStop` and `BeforeResume`: they are no-op methods with no frame, so they change nothing, and they carry no contract.
- Environments.Environment.AddChild: a child added after `Stop` is not stopped, as in the source.
- `Actor.DeadLetters`: the path from the actor through its stage to the world is not modelled; each proxy holds the world directly.
- Environments.Environment.Stop: promises nothing about the messages still queued in the closed mailbox. The stand-in `Mailbox.Close` keeps them, but real mailbox implementations may release them.
- SharedRingBuffer.SharedRingBufferMailboxPlugin.ProvideMailboxFor: the explicit dispatcher is typed as a ring-buffer dispatcher, so the `InvalidCastException` for any other dispatcher is not modelled.
- SharedRingBuffer.SharedRingBufferMailboxPlugin.constructor: the public constructor's default configuration (`SharedRingBufferMailboxPluginConfiguration.Define()`) is not part of this model. The model's single constructor takes the configuration, as the private one does.
- The plugin's `Name` and `Configuration` accessors: they only answer the configuration's fields. `RingBufferDispatcher` is not part of this model. Its stand-in keeps only its parameters, its mailbox, and its started and closed flags.
- The logger's formatting and the exception objects: a warning keeps the letter and the thrown reason.

## Findings

| source | as written | input that shows it | evidently intended | confidence | as-written member | corrected member |
|---|---|---|---|---|---|---|
| src/Vlingo.Actors/Plugin/Mailbox/AgronaMPSCArrayQueue/ManyToOneConcurrentArrayQueueDispatcher.cs:40-46 | `Close` cancels and then disposes `dispatcherTokenSource` every time it is called | calling `Close()` twice on a new dispatcher: the second `Cancel()` runs on a disposed source and raises `ObjectDisposedException` | `Close` is safe to call more than once: later calls do nothing | not executed | ArrayQueueDispatcher.CloseTwiceAsWritten | ArrayQueueDispatcher.ManyToOneConcurrentArrayQueueDispatcher.Close |
