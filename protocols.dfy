/**
 * Values that travel between actors: runtime types, protocol invocations, messages,
 * dead letters, proxies and actor definitions.
 */
module Protocols {
  import opened Wrappers
  import opened Addresses

  /** A `System.Type` value: a protocol interface or a concrete (proxy) class. */
  datatype TypeToken = TypeToken(name: string)

  /** An arbitrary `object` argument of a protocol call; `Null` is the null reference. */
  datatype Object = Null | Ref(id: nat)

  /** The protocol calls that the generated proxies of this model turn into messages. */
  datatype Invocation =
    | CancelCall              // ICancellable.Cancel()
    | ConcludeCall            // IStoppable.Conclude()
    | StopCall                // IStoppable.Stop()
    | WithCall(outcome: Object) // ICompletesEventually.With(outcome)

  /** An enqueued invocation: the target actor, the deferred call and its representation string. */
  datatype Message = Message(target: Address, invocation: Invocation, representation: string)

  /** A record of an invocation that could not be delivered. */
  datatype DeadLetter = DeadLetter(target: Address, representation: string)

  /** A proxy object: its runtime class and the address of the actor it stands for. */
  datatype Proxy = Proxy(runtimeType: TypeToken, target: Address)

  /** The parts of an actor `Definition` the core reads: the optional supervisor. */
  datatype Definition = Definition(actorType: TypeToken, supervisor: Option<Proxy>)

  /** A reference to the stage an actor lives on. */
  datatype StageRef = StageRef(name: string)

  /** A reference to a client's completion sink (`ICompletes`). */
  datatype ClientCompletes = ClientCompletes(id: nat)

  /** A handle on a completes-eventually actor: its address and the client it completes. */
  datatype CompletesEventuallyRef = CompletesEventuallyRef(address: Address, client: ClientCompletes)
}
