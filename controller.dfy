/**
 * The reconciliation controller (lib/core/controller.go): one worker cycle
 * takes an item off the queue, resolves it against the informer's cache,
 * makes exactly one handler call (or fails on the lookup), and then applies
 * the bounded retry policy before releasing the item.
 */
module Controllers {
  import opened Outcomes
  import opened IndexKeys
  import opened Handlers
  import opened WorkQueues

  /** The number of rate-limited requeues a failing item gets before it is dropped (`retry`). */
  const Retry: nat := 5

  /**
   * The informer's indexer, as seen by `GetByKey`: the objects it holds by key,
   * and the keys whose lookup fails with an error.
   */
  datatype Cache<T> = Cache(objects: map<string, T>, failing: map<string, Error>)

  /** `GetByKey`'s `(obj, exists, err)` triple: an error, a hit, or a miss (a nil object). */
  datatype Lookup<T> = LookupFailed(error: Error) | Found(obj: T) | Missing

  function GetByKey<T>(c: Cache<T>, key: string): Lookup<T> {
    if key in c.failing then LookupFailed(c.failing[key])
    else if key in c.objects then Found(c.objects[key])
    else Missing
  }

  /** The value `GetByKey` hands back: the object, or nil for a key the cache does not hold. */
  function Fetched<T>(c: Cache<T>, key: string): Option<T> {
    if key in c.objects then Some(c.objects[key]) else None
  }

  /** What `processItem` decides for one item: return a lookup error, or make this one call. */
  datatype Step<T> = Abort(error: Error) | Invoke(call: Call<T>)

  /**
   * `processItem`'s decision, stated on the cache itself: a failed lookup of
   * the new key is returned; a missing new key means Delete (even for an
   * update item); a present new key means Create for a create item, and for
   * an update item Update(old, new) unless the old key's lookup fails
   * (a missing old object is passed as nil).
   */
  function Resolve<T>(c: Cache<T>, item: Item): (s: Step<T>)
    ensures NewKey(item) in c.failing ==> s == Abort(c.failing[NewKey(item)])
    ensures NewKey(item) !in c.failing && NewKey(item) !in c.objects ==> s == Invoke(Delete(None))
    ensures NewKey(item) !in c.failing && NewKey(item) in c.objects && OldKey(item) == "" ==>
              s == Invoke(Create(c.objects[NewKey(item)]))
    ensures NewKey(item) !in c.failing && NewKey(item) in c.objects && OldKey(item) != "" ==>
              s == if OldKey(item) in c.failing then Abort(c.failing[OldKey(item)])
                   else Invoke(Update(Fetched(c, OldKey(item)), c.objects[NewKey(item)]))
  {
    var newKey, oldKey := NewKey(item), OldKey(item);
    match GetByKey(c, newKey)
    case LookupFailed(e) => Abort(e)
    case Missing => Invoke(Delete(None))
    case Found(obj) =>
      if oldKey != "" then
        match GetByKey(c, oldKey)
        case LookupFailed(e) => Abort(e)
        case Missing => Invoke(Update(None, obj))
        case Found(prev) => Invoke(Update(Some(prev), obj))
      else
        Invoke(Create(obj))
  }

  /** The handler calls a step makes: none or exactly one. */
  function CallsOf<T>(s: Step<T>): seq<Call<T>> {
    match s
    case Abort(_) => []
    case Invoke(c) => [c]
  }

  /** What a step returns: the lookup error, or exactly the handler's own reply. */
  function Apply<S, T>(handle: (S, Call<T>) -> Reply<S>, world: S, s: Step<T>): Reply<S> {
    match s
    case Abort(e) => Reply(world, Failure(e))
    case Invoke(c) => handle(world, c)
  }

  /** A bare string key is handled exactly as an `IndexKey` with that new key and no old key. */
  lemma BareKeyIsCreateOrDeleteItem<T>(c: Cache<T>, name: string)
    ensures Resolve(c, Bare(name)) == Resolve(c, Keyed(IndexKey("", name)))
  {
  }

  /**
   * Which handler method is called: Delete exactly when the new key is missing,
   * Create exactly when it is present on a create item, Update exactly when it
   * is present on an update item whose old lookup succeeded; the handler is
   * not called exactly when a lookup fails.
   */
  lemma ResolveChoosesOneMethod<T>(c: Cache<T>, item: Item)
    ensures var s := Resolve(c, item);
            var n, o := NewKey(item), OldKey(item);
            && (s.Abort? <==> n in c.failing || (n in c.objects && o != "" && o in c.failing))
            && (s.Invoke? && s.call.Delete? <==> n !in c.failing && n !in c.objects)
            && (s.Invoke? && s.call.Create? <==> n !in c.failing && n in c.objects && o == "")
            && (s.Invoke? && s.call.Update? <==> n !in c.failing && n in c.objects && o != "" && o !in c.failing)
  {
  }

  /**
   * `processItem` makes at most one handler call, and none exactly when the
   * new key's lookup fails or, for an update item whose new key is present,
   * the old key's lookup fails.
   */
  lemma ResolveCallsAtMostOnce<T>(c: Cache<T>, item: Item)
    ensures var calls := CallsOf(Resolve(c, item));
            var n, o := NewKey(item), OldKey(item);
            && |calls| <= 1
            && (calls == [] <==> n in c.failing || (n in c.objects && o != "" && o in c.failing))
  {
  }

  // ---------------------------------------------------------------------------
  // The retry policy of `handleErr`.

  datatype Action = Forget | Requeue | Drop

  /**
   * `handleErr`'s choice: Forget on success; on an error, a rate-limited
   * requeue while fewer than `Retry` requeues happened, else drop.
   */
  function Decide(err: Outcome, requeues: nat): (a: Action)
    ensures a == Forget <==> err.Success?
    ensures a == Requeue <==> err.Failure? && requeues < Retry
    ensures a == Drop <==> err.Failure? && requeues >= Retry
  {
    if err.Success? then Forget
    else if requeues < Retry then Requeue
    else Drop
  }

  /** The queue after `handleErr(err, key)`: a dropped key is forgotten as well. */
  function HandledState<K(==)>(q: QueueState<K>, key: K, err: Outcome): QueueState<K> {
    match Decide(err, Requeues(q, key))
    case Forget => Forgotten(q, key)
    case Requeue => RateLimitedAdded(q, key)
    case Drop => Forgotten(q, key)
  }

  /** The errors `handleErr` hands to `runtime.HandleError`: only the one of a dropped key. */
  function Reported(err: Outcome, requeues: nat): seq<Error> {
    if Decide(err, requeues) == Drop then [err.error] else []
  }

  /** The controller keeps every requeue count within the ceiling. */
  predicate Bounded<K>(q: QueueState<K>) {
    forall k :: k in q.requeues ==> q.requeues[k] <= Retry
  }

  lemma HandledKeepsInv<K>(q: QueueState<K>, key: K, err: Outcome)
    requires Inv(q) && Bounded(q)
    ensures Inv(HandledState(q, key, err)) && Bounded(HandledState(q, key, err))
    ensures HandledState(q, key, err).processing == q.processing
  {
    if Decide(err, Requeues(q, key)) == Requeue {
      RateLimitedCounts(q, key);
      AddedKeepsInv(q.(requeues := q.requeues[key := Requeues(q, key) + 1]), key);
    }
  }

  // ---------------------------------------------------------------------------
  // One worker cycle (`processNextItem`) as a function of the whole state.

  /** Everything a worker cycle touches: the queue, the handler's state, and two logs. */
  datatype Worker<S, T> = Worker(
    queue: QueueState<Item>,
    world: S,             // the handler's own state
    calls: seq<Call<T>>,  // every handler call made, in order
    reported: seq<Error>) // every error reported on drop, in order

  /** Get the head item, process it, apply the retry policy, then Done. */
  function Cycle<S, T>(c: Cache<T>, handle: (S, Call<T>) -> Reply<S>, w: Worker<S, T>): Worker<S, T>
    requires w.queue.pending != []
  {
    var key := w.queue.pending[0];
    var step := Resolve(c, key);
    var reply := Apply(handle, w.world, step);
    var got := Got(w.queue);
    var handled := HandledState(got, key, reply.outcome);
    Worker(Released(handled, key), reply.state, w.calls + CallsOf(step),
           w.reported + Reported(reply.outcome, Requeues(got, key)))
  }

  /**
   * The effect of one cycle on the head item `key`: it is released (the
   * processing set is back as before), it is queued again at the end exactly
   * when its processing failed below the ceiling on a live queue (and stays
   * marked dirty exactly then, every other key's mark unchanged), its count
   * follows the retry policy, the other counts stay, the handler result is
   * exactly what decided, and an error is reported exactly when the item is dropped.
   */
  lemma CycleEffect<S, T>(c: Cache<T>, handle: (S, Call<T>) -> Reply<S>, w: Worker<S, T>)
    requires Inv(w.queue) && Bounded(w.queue) && w.queue.pending != []
    ensures var key := w.queue.pending[0];
            var n := Requeues(w.queue, key);
            var err := Apply(handle, w.world, Resolve(c, key)).outcome;
            var w' := Cycle(c, handle, w);
            && Inv(w'.queue) && Bounded(w'.queue)
            && w'.queue.processing == w.queue.processing
            && w'.queue.shuttingDown == w.queue.shuttingDown
            && w'.queue.pending == w.queue.pending[1..] +
                 (if err.Failure? && n < Retry && !w.queue.shuttingDown then [key] else [])
            && w'.queue.dirty ==
                 (if err.Failure? && n < Retry && !w.queue.shuttingDown then w.queue.dirty else w.queue.dirty - {key})
            && Requeues(w'.queue, key) == (if err.Failure? && n < Retry then n + 1 else 0)
            && (forall j :: j != key ==> Requeues(w'.queue, j) == Requeues(w.queue, j))
            && w'.calls == w.calls + CallsOf(Resolve(c, key))
            && w'.reported == w.reported + (if err.Failure? && n >= Retry then [err.error] else [])
  {
    var key := w.queue.pending[0];
    var err := Apply(handle, w.world, Resolve(c, key)).outcome;
    var got := Got(w.queue);
    GotKeepsInv(w.queue);
    assert Bounded(got);
    assert Requeues(got, key) == Requeues(w.queue, key);
    var handled := HandledState(got, key, err);
    HandledKeepsInv(got, key, err);
    if Decide(err, Requeues(got, key)) == Requeue {
      RateLimitedCounts(got, key);
      if !w.queue.shuttingDown {
        RedeliveredOnceAfterDone(got.(requeues := got.requeues[key := Requeues(got, key) + 1]), key);
      } else {
        ReleasedWithoutAddLeaves(handled, key);
      }
    } else {
      ForgottenResets(got, key);
      ReleasedWithoutAddLeaves(handled, key);
    }
    ReleasedKeepsInv(handled, key);
  }

  // ---------------------------------------------------------------------------
  // The retry ceiling: an item whose processing always fails.

  /** `key` is the only pending item of a live queue, with `n` requeues recorded. */
  predicate SoleItem(q: QueueState<Item>, key: Item, n: nat) {
    Inv(q) && Bounded(q) && q.pending == [key] && Requeues(q, key) == n && !q.shuttingDown
  }

  /**
   * Up to `i` cycles, stopping early once nothing is pending: the logs only
   * grow, by at most one handler call and one report per cycle.
   */
  function RunCycles<S, T>(c: Cache<T>, handle: (S, Call<T>) -> Reply<S>, w: Worker<S, T>, i: nat): (r: Worker<S, T>)
    ensures w.calls <= r.calls && |r.calls| <= |w.calls| + i
    ensures w.reported <= r.reported && |r.reported| <= |w.reported| + i
    decreases i
  {
    if i == 0 || w.queue.pending == [] then w else RunCycles(c, handle, Cycle(c, handle, w), i - 1)
  }

  /** Every failing cycle below the ceiling requeues the item once more, reporting nothing. */
  lemma {:induction false} FailingRunRequeues<S(!new), T(!new)>(c: Cache<T>, handle: (S, Call<T>) -> Reply<S>,
                                                   w: Worker<S, T>, key: Item, n: nat, i: nat)
    requires AlwaysFails(handle) && SoleItem(w.queue, key, n) && n + i <= Retry
    ensures SoleItem(RunCycles(c, handle, w, i).queue, key, n + i)
    ensures RunCycles(c, handle, w, i).reported == w.reported
    ensures |RunCycles(c, handle, w, i).calls| <= |w.calls| + i
    decreases i
  {
    if i > 0 {
      CycleEffect(c, handle, w);
      var w' := Cycle(c, handle, w);
      assert w.queue.pending[1..] == [];
      FailingRunRequeues(c, handle, w', key, n + 1, i - 1);
      assert RunCycles(c, handle, w, i) == RunCycles(c, handle, w', i - 1);
    }
  }

  /**
   * With a handler that always fails, a fresh item is requeued exactly `Retry`
   * (5) times, and the next failure drops it: nothing is pending any more,
   * its count is back at 0, and exactly that failure is reported.
   */
  lemma RetryCeiling<S(!new), T(!new)>(c: Cache<T>, handle: (S, Call<T>) -> Reply<S>, w: Worker<S, T>, key: Item)
    requires AlwaysFails(handle) && SoleItem(w.queue, key, 0)
    ensures forall i :: 1 <= i <= Retry ==> SoleItem(RunCycles(c, handle, w, i).queue, key, i)
    ensures var last := RunCycles(c, handle, w, Retry + 1);
            && last.queue.pending == [] && Requeues(last.queue, key) == 0
            && |last.reported| == |w.reported| + 1
            && |last.calls| <= |w.calls| + Retry + 1
  {
    forall i | 1 <= i <= Retry ensures SoleItem(RunCycles(c, handle, w, i).queue, key, i) {
      FailingRunRequeues(c, handle, w, key, 0, i);
    }
    FailingRunRequeues(c, handle, w, key, 0, Retry);
    var before := RunCycles(c, handle, w, Retry);
    CycleEffect(c, handle, before);
    RunSplit(c, handle, w, Retry);
  }

  /** One more cycle after `i` of them, while something is still pending. */
  lemma {:induction false} RunSplit<S, T>(c: Cache<T>, handle: (S, Call<T>) -> Reply<S>, w: Worker<S, T>, i: nat)
    requires RunCycles(c, handle, w, i).queue.pending != []
    ensures RunCycles(c, handle, w, i + 1) == Cycle(c, handle, RunCycles(c, handle, w, i))
    decreases i
  {
    if i > 0 {
      RunSplit(c, handle, Cycle(c, handle, w), i - 1);
    }
  }

  // ---------------------------------------------------------------------------
  // Termination of a worker that drains the queue.

  /** The attempts an item may still get: one more than the requeues it has left. */
  function Attempts<K(==)>(q: QueueState<K>, k: K): nat {
    Retry + 1 - (if Requeues(q, k) <= Retry then Requeues(q, k) else Retry)
  }

  function Budget<K(==)>(q: QueueState<K>, s: seq<K>): nat {
    if s == [] then 0 else Attempts(q, s[0]) + Budget(q, s[1..])
  }

  lemma {:induction false} BudgetAppend<K>(q: QueueState<K>, s: seq<K>, k: K)
    ensures Budget(q, s + [k]) == Budget(q, s) + Attempts(q, k)
  {
    if s != [] {
      assert (s + [k])[1..] == s[1..] + [k];
      BudgetAppend(q, s[1..], k);
    }
  }

  lemma {:induction false} BudgetFrame<K>(q: QueueState<K>, q': QueueState<K>, s: seq<K>)
    requires forall i :: 0 <= i < |s| ==> Requeues(q, s[i]) == Requeues(q', s[i])
    ensures Budget(q, s) == Budget(q', s)
  {
    if s != [] {
      BudgetFrame(q, q', s[1..]);
    }
  }

  /** Every cycle uses up at least one attempt of the pending items' budget. */
  lemma CycleSpendsBudget<S, T>(c: Cache<T>, handle: (S, Call<T>) -> Reply<S>, w: Worker<S, T>)
    requires Inv(w.queue) && Bounded(w.queue) && w.queue.pending != []
    ensures var q' := Cycle(c, handle, w).queue;
            Budget(q', q'.pending) < Budget(w.queue, w.queue.pending)
  {
    CycleEffect(c, handle, w);
    var q, q' := w.queue, Cycle(c, handle, w).queue;
    var key, rest := q.pending[0], q.pending[1..];
    forall i | 0 <= i < |rest| ensures Requeues(q, rest[i]) == Requeues(q', rest[i]) {
      assert rest[i] == q.pending[i + 1] && q.pending[0] != q.pending[i + 1];
    }
    BudgetFrame(q, q', rest);
    if q'.pending != rest {
      BudgetAppend(q', rest, key);
    }
  }

  // ---------------------------------------------------------------------------

  /**
   * The controller object: the shared queue, the informer's cache (owned and
   * updated by the informer; the controller only reads it), and the handler
   * with its state. `calls` and `reported` log every handler call and every
   * error reported on drop.
   */
  class Controller<S, T> {
    const queue: WorkQueue<Item>
    const handle: (S, Call<T>) -> Reply<S>
    var cache: Cache<T>
    var world: S
    var calls: seq<Call<T>>
    var reported: seq<Error>

    ghost predicate Valid()
      reads this, queue
    {
      queue.Valid() && Bounded(queue.State())
    }

    function Snapshot(): Worker<S, T>
      reads this, queue
    {
      Worker(queue.State(), world, calls, reported)
    }

    /** `NewController`: takes a built queue, cache and handler; does nothing else. */
    constructor (queue: WorkQueue<Item>, cache: Cache<T>, handle: (S, Call<T>) -> Reply<S>, world: S)
      requires queue.Valid() && Bounded(queue.State())
      ensures Valid()
      ensures this.queue == queue && this.cache == cache && this.handle == handle && this.world == world
      ensures calls == [] && reported == []
    {
      this.queue := queue;
      this.cache := cache;
      this.handle := handle;
      this.world := world;
      calls := [];
      reported := [];
    }

    /** One handler call: logged, and its reply is taken as it is. */
    method Invoke(c: Call<T>) returns (err: Outcome)
      modifies this`world, this`calls
      ensures calls == old(calls) + [c]
      ensures Reply(world, err) == handle(old(world), c)
    {
      var reply := handle(world, c);
      world := reply.state;
      calls := calls + [c];
      err := reply.outcome;
    }

    /** `processItem`: at most one handler call, whose result is exactly what is returned. */
    method ProcessItem(item: Item) returns (err: Outcome)
      modifies this`world, this`calls
      ensures calls == old(calls) + CallsOf(Resolve(cache, item))
      ensures Reply(world, err) == Apply(handle, old(world), Resolve(cache, item))
    {
      var newKey, oldKey := NewKey(item), OldKey(item);
      match GetByKey(cache, newKey) {
        case LookupFailed(e) =>
          err := Failure(e);
        case Missing =>
          err := Invoke(Delete(None));
        case Found(obj) =>
          if oldKey != "" {
            match GetByKey(cache, oldKey) {
              case LookupFailed(e) =>
                err := Failure(e);
              case Missing =>
                // a warning only: the handler must cope with a nil old object
                err := Invoke(Update(None, obj));
              case Found(prev) =>
                err := Invoke(Update(Some(prev), obj));
            }
          } else {
            err := Invoke(Create(obj));
          }
      }
    }

    /** `handleErr`: Forget, rate-limited requeue, or Forget and report. */
    method HandleErr(err: Outcome, key: Item)
      requires Valid()
      modifies queue, this`reported
      ensures Valid()
      ensures queue.State() == HandledState(old(queue.State()), key, err)
      ensures reported == old(reported) + Reported(err, old(queue.NumRequeues(key)))
    {
      HandledKeepsInv(queue.State(), key, err);
      if err.Success? {
        queue.Forget(key);
        return;
      }
      if queue.NumRequeues(key) < Retry {
        queue.AddRateLimited(key);
        return;
      }
      queue.Forget(key);
      reported := reported + [err.error];
    }

    /**
     * `processNextItem`: on quit, nothing happens and the answer is false;
     * otherwise one whole cycle, with `Done` called once, after `handleErr`.
     */
    method ProcessNextItem() returns (more: bool)
      requires Valid()
      requires queue.pending != [] || queue.shuttingDown
      modifies queue, this`world, this`calls, this`reported
      ensures Valid()
      ensures more <==> old(queue.pending) != []
      ensures !more ==> Snapshot() == old(Snapshot())
      ensures more ==> Snapshot() == Cycle(cache, handle, old(Snapshot()))
    {
      var item := queue.Get();
      if item.None? {
        return false;
      }
      var key := item.value;
      var err := ProcessItem(key);
      HandleErr(err, key);
      HandledKeepsInv(Got(old(queue.State())), key, err);
      queue.Done(key);
      return true;
    }

    /**
     * `runWorker`: cycles until `processNextItem` answers false. Where the Go
     * worker would block on an empty live queue, the model returns; either
     * way the queue has been drained, and the controller's state is that of
     * some number of whole cycles from the start.
     */
    method RunWorker()
      requires Valid()
      modifies queue, this`world, this`calls, this`reported
      ensures Valid()
      ensures queue.pending == []
      ensures queue.processing == old(queue.processing)
      ensures exists n: nat :: Snapshot() == RunCycles(cache, handle, old(Snapshot()), n)
    {
      ghost var start := Snapshot();
      ghost var k: nat := 0;
      while queue.pending != [] || queue.shuttingDown
        invariant Valid()
        invariant queue.processing == old(queue.processing)
        invariant Snapshot() == RunCycles(cache, handle, start, k)
        decreases Budget(queue.State(), queue.pending)
      {
        ghost var before := Snapshot();
        var more := ProcessNextItem();
        if !more {
          break;
        }
        assert Snapshot() == Cycle(cache, handle, before);
        RunSplit(cache, handle, start, k);
        k := k + 1;
        CycleSpendsBudget(cache, handle, before);
        CycleEffect(cache, handle, before);
      }
      assert Snapshot() == RunCycles(cache, handle, old(Snapshot()), k);
    }
  }
}
