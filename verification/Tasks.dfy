/** The things the runtime schedules. */
module Tasks {
  datatype Event = READ | WRITE

  /** Callbacks the hooks create, and the program's own. */
  datatype Callback =
    | IoTimeout(fiber: nat, info: nat, fd: nat, event: Event)  // cancels the event if the call's record is alive
    | WakeFiber(fiber: nat)                                    // schedules a sleeping fiber
    | User(n: nat)

  datatype Task = FiberTask(fiber: nat) | CallTask(cb: Callback)
}
