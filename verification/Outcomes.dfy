// How a call or a phase of a call ends, and the writes it makes on the way.

module Outcomes {
  import opened OnloadTypes

  /** The result handed back to controller-runtime. */
  datatype Result = Done | Requeue | RequeueAfter(seconds: nat)

  datatype Error = NameTooLong | ModuleShouldExist(name: string) | DaemonSetNotFound | ApiFailure

  /** How a phase ends: fall through to the next one, return, or fail. */
  datatype Flow = Continue | Return(result: Result) | Fail(error: Error)

  datatype Plan = Plan(writes: seq<ClusterWrite>, flow: Flow)

  /** A phase that falls through has written nothing. */
  type Phase = p: Plan | p.flow.Continue? ==> p.writes == [] witness Plan([], Continue)

  const DEFAULT_REQUEUE_TIME: nat := 5

  /** A phase that has finished its writes requeues if it made any. */
  function RequeueIfChanged(writes: seq<ClusterWrite>): Phase {
    Plan(writes, if writes != [] then Return(Requeue) else Continue)
  }

  /** Run `next` only if `first` fell through. */
  function OrElse(first: Phase, next: Phase): Phase {
    if first.flow.Continue? then next else first
  }
}
