/** Values shared by both layers: the opaque actions that are registered and run,
    the initializers that Register adapts, and the error a run may report. */
module Actions {

  /** Any value that offers an `Init()` method. Only its identity matters to the
      container, so it is modelled by an identifier. */
  datatype Initializer = Initializer(id: nat)

  /** A zero-argument Go `func()`. Either a func handed to RegisterFunc by its
      caller, identified by `id`, or `InitCall(initer)`: the closure that
      Register builds around an Initializer, whose one effect is to call
      `initer.Init()`. Running an action is recorded by
      appending it to a trace. */
  datatype Action = Func(id: nat) | InitCall(initer: Initializer)

  /** A Go `error` value. */
  datatype Error = Error(message: string)

  /** `None` stands for Go's nil error. */
  datatype Option<T> = None | Some(value: T)
}
