/**
 * The event-handler contract (lib/core/handler.go): three methods, each
 * returning an error that is nil on success. A handler is modelled as a
 * transition over its own state S (for the ECR handler, the cluster's
 * secrets): given the call, it yields the new state and the error.
 */
module Handlers {
  import opened Outcomes

  /**
   * One invocation of the handler. `None` stands for the nil object the cache
   * hands back for a key it does not hold; the controller only ever passes a
   * resolved object as `Create`'s argument and as `Update`'s new side.
   */
  datatype Call<T> =
    | Create(obj: T)
    | Update(oldObj: Option<T>, newObj: T)
    | Delete(stale: Option<T>)

  /** What a handler call produces: the handler's new state and its error. */
  datatype Reply<S> = Reply(state: S, outcome: Outcome)

  /**
   * A handler that fails every call: the scenario in which the controller's
   * retry ceiling is observed.
   */
  ghost predicate AlwaysFails<S(!new), T(!new)>(handle: (S, Call<T>) -> Reply<S>) {
    forall s, c :: handle(s, c).outcome.Failure?
  }
}
