/**
 * The rate-limited work queue the controller drains (client-go's
 * `workqueue.RateLimitingInterface`, built by main.go with
 * `NewRateLimitingQueue`). Its code is not part of this repository; this
 * module states the behaviour the controller relies on:
 *   - a FIFO of distinct pending keys, a "dirty" set of keys that are wanted,
 *     and a "processing" set of keys checked out by a worker;
 *   - `Add` is a no-op for a key already wanted, and only marks a key that is
 *     being processed, which `Done` then re-queues;
 *   - a per-key requeue count that `AddRateLimited` increments and `Forget`
 *     resets to 0.
 * The queue's value is `QueueState`; every operation is a function on it, and
 * the class `WorkQueue` performs the same operations on its fields.
 */
module WorkQueues {
  import opened Outcomes

  datatype QueueState<K> = QueueState(
    pending: seq<K>,
    dirty: set<K>,
    processing: set<K>,
    requeues: map<K, nat>,
    shuttingDown: bool)

  predicate Distinct<K(==)>(s: seq<K>) {
    forall i, j :: 0 <= i < j < |s| ==> s[i] != s[j]
  }

  /**
   * The queue's bookkeeping invariant: pending keys are distinct, wanted and
   * not checked out; a wanted key that is not pending is checked out (it is
   * redelivered when released).
   */
  predicate Inv<K(==)>(q: QueueState<K>) {
    && Distinct(q.pending)
    && (forall i :: 0 <= i < |q.pending| ==> q.pending[i] in q.dirty && q.pending[i] !in q.processing)
    && (forall k :: k in q.dirty ==> k in q.pending || k in q.processing)
  }

  /** `NumRequeues`: the failures recorded for `k` since it was last forgotten. */
  function Requeues<K(==)>(q: QueueState<K>, k: K): nat {
    if k in q.requeues then q.requeues[k] else 0
  }

  /** `Add`: ignored while shutting down and for a key already wanted. */
  function Added<K(==)>(q: QueueState<K>, k: K): QueueState<K> {
    if q.shuttingDown || k in q.dirty then q
    else if k in q.processing then q.(dirty := q.dirty + {k})
    else q.(dirty := q.dirty + {k}, pending := q.pending + [k])
  }

  /** `Get` when a key is available: the head is checked out. */
  function Got<K(==)>(q: QueueState<K>): QueueState<K>
    requires q.pending != []
  {
    var k := q.pending[0];
    q.(pending := q.pending[1..], processing := q.processing + {k}, dirty := q.dirty - {k})
  }

  /** `Done`: the key is released, and re-queued if it was added meanwhile. */
  function Released<K(==)>(q: QueueState<K>, k: K): QueueState<K> {
    var q' := q.(processing := q.processing - {k});
    if k in q.dirty then q'.(pending := q.pending + [k]) else q'
  }

  /** `Forget`: the requeue count returns to 0; presence in the queue is untouched. */
  function Forgotten<K(==)>(q: QueueState<K>, k: K): QueueState<K> {
    q.(requeues := q.requeues - {k})
  }

  /**
   * `AddRateLimited`: the rate limiter records one more failure, then the key
   * is added (client-go adds it after a backoff delay; time is not modelled).
   */
  function RateLimitedAdded<K(==)>(q: QueueState<K>, k: K): QueueState<K> {
    Added(q.(requeues := q.requeues[k := Requeues(q, k) + 1]), k)
  }

  // ---------------------------------------------------------------------------
  // The contract, stated about the operations.

  lemma AddedKeepsInv<K>(q: QueueState<K>, k: K)
    requires Inv(q)
    ensures Inv(Added(q, k))
    ensures Added(q, k).processing == q.processing && Added(q, k).requeues == q.requeues
  {
    var q' := Added(q, k);
    if !q.shuttingDown && k !in q.dirty && k !in q.processing {
      assert k !in q.pending;
      forall i | 0 <= i < |q'.pending|
        ensures q'.pending[i] in q'.dirty && q'.pending[i] !in q'.processing
      {
        if i < |q.pending| { assert q'.pending[i] == q.pending[i]; }
      }
    }
  }

  /** Adding a wanted key again changes nothing: repeated adds coalesce. */
  lemma AddIdempotent<K>(q: QueueState<K>, k: K)
    ensures Added(Added(q, k), k) == Added(q, k)
  {
  }

  /** A key that is already pending is never queued twice. */
  lemma AddPendingIsNoop<K>(q: QueueState<K>, k: K)
    requires Inv(q) && k in q.pending
    ensures Added(q, k) == q
  {
    var i :| 0 <= i < |q.pending| && q.pending[i] == k;
    assert k in q.dirty;
  }

  /**
   * Mutual exclusion: `Get` never hands out a key that another worker holds,
   * and the checked-out key is no longer pending.
   */
  lemma GotKeepsInv<K>(q: QueueState<K>)
    requires Inv(q) && q.pending != []
    ensures q.pending[0] !in q.processing
    ensures q.pending[0] !in Got(q).pending && q.pending[0] in Got(q).processing
    ensures Inv(Got(q))
  {
    var k := q.pending[0];
    var q' := Got(q);
    assert forall i :: 0 <= i < |q'.pending| ==> q'.pending[i] == q.pending[i + 1];
    forall i | 0 <= i < |q'.pending| ensures q'.pending[i] != k {
      assert q.pending[0] != q.pending[i + 1];
    }
  }

  lemma ReleasedKeepsInv<K>(q: QueueState<K>, k: K)
    requires Inv(q) && k in q.processing
    ensures Inv(Released(q, k))
    ensures k !in Released(q, k).processing
  {
    var q' := Released(q, k);
    if k in q.dirty {
      assert k !in q.pending;
      forall i | 0 <= i < |q'.pending|
        ensures q'.pending[i] in q'.dirty && q'.pending[i] !in q'.processing
      {
        if i < |q.pending| { assert q'.pending[i] == q.pending[i]; }
      }
    }
  }

  /**
   * Redelivery: a key added while it is checked out is queued exactly once,
   * at the end, when it is released.
   */
  lemma RedeliveredOnceAfterDone<K>(q: QueueState<K>, k: K)
    requires Inv(q) && k in q.processing && !q.shuttingDown
    ensures Released(Added(q, k), k).pending == q.pending + [k]
    ensures k !in q.pending
  {
  }

  /** A key that was not added again while checked out simply leaves the queue. */
  lemma ReleasedWithoutAddLeaves<K>(q: QueueState<K>, k: K)
    requires Inv(q) && k in q.processing && k !in q.dirty
    ensures Released(q, k).pending == q.pending
    ensures k !in Released(q, k).pending && k !in Released(q, k).processing
  {
  }

  lemma ForgottenResets<K>(q: QueueState<K>, k: K)
    requires Inv(q)
    ensures Inv(Forgotten(q, k))
    ensures Requeues(Forgotten(q, k), k) == 0
    ensures forall j :: j != k ==> Requeues(Forgotten(q, k), j) == Requeues(q, j)
    ensures Forgotten(q, k).pending == q.pending && Forgotten(q, k).dirty == q.dirty
  {
  }

  /** Each rate-limited add counts one more requeue of that key and of no other. */
  lemma RateLimitedCounts<K>(q: QueueState<K>, k: K)
    requires Inv(q)
    ensures Inv(RateLimitedAdded(q, k))
    ensures Requeues(RateLimitedAdded(q, k), k) == Requeues(q, k) + 1
    ensures forall j :: j != k ==> Requeues(RateLimitedAdded(q, k), j) == Requeues(q, j)
  {
    AddedKeepsInv(q.(requeues := q.requeues[k := Requeues(q, k) + 1]), k);
  }

  // ---------------------------------------------------------------------------

  /** The queue as a shared mutable object; each method is one operation of the contract. */
  class WorkQueue<K(==)> {
    var pending: seq<K>
    var dirty: set<K>
    var processing: set<K>
    var requeues: map<K, nat>
    var shuttingDown: bool

    function State(): QueueState<K>
      reads this
    {
      QueueState(pending, dirty, processing, requeues, shuttingDown)
    }

    ghost predicate Valid()
      reads this
    {
      Inv(State())
    }

    constructor ()
      ensures Valid()
      ensures State() == QueueState([], {}, {}, map[], false)
    {
      pending, dirty, processing, requeues, shuttingDown := [], {}, {}, map[], false;
    }

    function NumRequeues(k: K): nat
      reads this
    {
      Requeues(State(), k)
    }

    method Add(k: K)
      requires Valid()
      modifies this
      ensures Valid()
      ensures State() == Added(old(State()), k)
    {
      AddedKeepsInv(State(), k);
      if shuttingDown || k in dirty {
        return;
      }
      dirty := dirty + {k};
      if k in processing {
        return;
      }
      pending := pending + [k];
    }

    /**
     * `Get`. The Go call blocks while the queue is empty and live; the model
     * is called only once that wait is over. `None` is the "quit" answer.
     */
    method Get() returns (item: Option<K>)
      requires Valid()
      requires pending != [] || shuttingDown
      modifies this
      ensures Valid()
      ensures item.None? <==> old(pending) == []
      ensures item.None? ==> State() == old(State())
      ensures item.Some? ==> old(pending) != [] && item.value == old(pending)[0]
                             && item.value !in old(processing)
                             && State() == Got(old(State()))
    {
      if pending == [] {
        return None;
      }
      GotKeepsInv(State());
      var k := pending[0];
      pending := pending[1..];
      processing := processing + {k};
      dirty := dirty - {k};
      item := Some(k);
    }

    method Done(k: K)
      requires Valid() && k in processing
      modifies this
      ensures Valid()
      ensures State() == Released(old(State()), k)
    {
      ReleasedKeepsInv(State(), k);
      processing := processing - {k};
      if k in dirty {
        pending := pending + [k];
      }
    }

    method Forget(k: K)
      requires Valid()
      modifies this
      ensures Valid()
      ensures State() == Forgotten(old(State()), k)
    {
      requeues := requeues - {k};
    }

    method AddRateLimited(k: K)
      requires Valid()
      modifies this
      ensures Valid()
      ensures State() == RateLimitedAdded(old(State()), k)
    {
      requeues := requeues[k := NumRequeues(k) + 1];
      Add(k);
    }

    method ShutDown()
      requires Valid()
      modifies this
      ensures Valid()
      ensures State() == old(State()).(shuttingDown := true)
    {
      shuttingDown := true;
    }
  }
}
