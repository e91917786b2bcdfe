/** Foreign types the promise library only passes around: Swift's Optional,
    Grand Central Dispatch queues, the `Error` protocol and closures. */
module Base {

  datatype Option<+T> = None | Some(value: T)

  /** A `DispatchQueue`, known only by its identity: the core never looks
      inside a queue, it only submits work to it. */
  datatype Queue = Queue(id: nat)

  /** A user closure, known only by its identity. Running it is recorded in
      the runtime's trace and has no other effect on the model. */
  type CallbackId = nat

  /** Swift's `Error`: a user-thrown error, or `PromiseFailure.cancelled`,
      the one error the library produces itself. */
  datatype Error = Thrown(code: nat) | Cancelled
}
