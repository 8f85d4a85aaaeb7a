/** The vocabulary shared by the scheduler, the IO manager, the timers and the hooks. */
module Tasks {
  type FiberId = nat

  /** The two events a file descriptor can be registered for. */
  datatype Event = READ | WRITE

  /** The function objects that reach the task queue. */
  datatype Callback =
    | User(id: nat)                                // submitted by a client
    | Wake(fiber: FiberId)                         // bound by sleep, usleep and nanosleep: schedule this fiber
    | Timeout(call: nat, fd: nat, event: Event)    // the condition timer of one hooked IO call

  /** What a task, or an event slot, resumes. */
  datatype Cont = FiberCont(fiber: FiberId) | CallCont(cb: Callback)

  datatype Option<+T> = None | Some(value: T)

  function RemoveAt<T>(s: seq<T>, k: nat): seq<T>
    requires k < |s|
  {
    s[..k] + s[k + 1..]
  }
}
