# ecr-secret-controller, modelled in Dafny

The system is a Kubernetes controller. It watches namespaces and keeps a docker-config secret in each one that holds the current Amazon ECR registry tokens. Excluded namespaces have that secret removed.

The model follows the program's own layers:

- **`IndexKeys`** (`indexkey.dfy`) is the work item. It is a pair of cache keys, old and new; an empty old key marks a create or delete item. Its JSON form follows the struct tags: `old` is omitted when empty. Decoding that form gives the key back, so the form identifies the work item.
- **`Handlers`** (`handler.dfy`) is the event-handler contract. A handler is a transition over its own state: given a `Create`, `Update(old, new)` or `Delete` call, it returns the new state and a success-or-error outcome.
- **`WorkQueues`** (`workqueue.dfy`) is the rate-limited work queue the controller uses. It comes from client-go and its code is not part of this repository, so the module states the behaviour the controller relies on:
  - keys are distinct and coalesced by `Add`;
  - a key checked out by `Get` is never handed to another worker;
  - `Done` re-queues a key that was added meanwhile;
  - `AddRateLimited` and `Forget` raise and reset a per-key requeue count.

  The class `WorkQueue` performs each operation on its fields. Each method is proved to equal the corresponding function on the queue's value, and to keep the bookkeeping invariant.
- **`Controllers`** (`controller.dfy`) is the reconciliation loop:
  - `processItem` is a pure decision, `Resolve`, over the informer's cache: return a lookup error, or make exactly one handler call.
  - `handleErr` is the retry policy: forget on success, requeue while fewer than 5 requeues happened, otherwise forget and report.
  - One whole `processNextItem` cycle is the function `Cycle`. The class `Controller` performs it step by step through the queue object, and its `ProcessNextItem` is proved equal to `Cycle`.
  - Proved about cycles:
    - the exact effect of a cycle on the queue, the requeue counts, the call log and the error reports;
    - with a handler that always fails, an item is requeued exactly 5 times and then dropped with its count back at 0;
    - a worker that drains the queue terminates.
- **`EcrHandlers`** (`ecr.dfy`) is the ECR handler:
  - the secret name defaults to `ecr`; the exclusion test is list membership;
  - the `auths` map is built from the fetched (endpoint, token) pairs, with the last duplicate endpoint winning;
  - the built secret has a fixed shape;
  - the upsert rule: in an excluded namespace, delete the secret if it exists; otherwise create it when absent or update it when present.

  The cluster's secrets are a map keyed by (namespace, name), reached through the four API calls of the typed client. Both the functions (`Upserted`, `Handle`) and the object that calls the API step by step (`EcrHandler.Upsert`) are proved to agree.
- **`EcrController`** (`main.go`, in `main.dfy`) holds:
  - the informer callbacks that turn add, update and delete events into queue items;
  - the `WORKER_NUMBER` and `ECR_RESYNC_PERIOD` settings, read from an environment map;
  - two end-to-end lemmas. A present, non-excluded namespace ends up holding exactly the built secret after one cycle, when, for an update item, the old key's lookup does not fail, the API allows the write, and an existing secret is readable. A deleted namespace's item is forgotten with one `Delete` call, and the cluster is unchanged.

**Inputs instead of effects.** Things the program does through I/O or foreign code enter the model as parameters:

- the ECR token fetch (`GetEcrAuths`) is a `Result<seq<AuthData>>` input;
- the informer's cache is a value `Cache` (the objects by key, and the keys whose lookup fails);
- the process environment is a `map<string, string>`.

**Where the code and its comments differ, the model follows the code:**

- The file header says `ECR_RESYNC_PERIOD` defaults to 2 hours; the code's default is `"5"`.
- In `UpdateFunc`, `err` is reassigned by the second key extraction. So only the new object's key gates the enqueue. A failed old key becomes `""`, which turns the update into a create item.

**Integer widths.**

- `strconv.Atoi` and `strconv.ParseInt(s, 10, 64)` are modelled with Go's syntax and range rules, for a 64-bit `int` (on a 32-bit build `Atoi` would clamp at 2^31 - 1 instead). The digits are scanned from the left: a non-digit is a syntax error (value 0), unless the digits before it already passed 2^64 - 1, which is a range error. On a range error they return the bound on the sign's side.
- The hours-to-`time.Duration` multiplication wraps around at 64 bits. A period of 2562048 hours parses but wraps to a negative duration (`ResyncPeriodWraps`); since the wrap is periodic, larger periods wrap to arbitrary durations, positive or negative.

## Model

| member | source | states |
|---|---|---|
| IndexKeys.Marshal | lib/core/indexkey.go:7-13 | the encoding always carries `new` with the new key; it has an `old` member exactly when the old key is non-empty, and then with that value |
| IndexKeys.UnmarshalMarshal | lib/core/indexkey.go:7-13 | decoding the tagged encoding gives back the same key: omitting an empty `old` loses nothing |
| IndexKeys.MarshalInjective | lib/core/indexkey.go:7-13 | two keys have the same encoding exactly when they are the same work item (both fields equal) |
| WorkQueues.AddedKeepsInv | main.go:99-122 | `Add` keeps the queue invariant (distinct pending keys, none checked out) and leaves the processing set and the requeue counts unchanged |
| WorkQueues.AddIdempotent | main.go:99-122 | adding the same key twice is the same as adding it once: repeated events for one item coalesce |
| WorkQueues.AddPendingIsNoop | main.go:99-122 | adding a key that is already pending changes nothing, so a key is never queued twice |
| WorkQueues.GotKeepsInv | lib/core/controller.go:60-69 | `Get` hands out a key no worker holds, removes it from the pending keys, marks it checked out, and keeps the invariant |
| WorkQueues.ReleasedKeepsInv | lib/core/controller.go:66-69 | `Done` keeps the invariant and releases the key |
| WorkQueues.RedeliveredOnceAfterDone | lib/core/controller.go:66-69 | a key added again while checked out is queued exactly once, at the end, when `Done` releases it |
| WorkQueues.ReleasedWithoutAddLeaves | lib/core/controller.go:66-69 | a key not added again while checked out leaves the queue on `Done`, and the other pending keys stay as they were |
| WorkQueues.ForgottenResets | lib/core/controller.go:129-134 | `Forget` puts the key's requeue count back at 0, leaves every other count and what is queued unchanged, and keeps the invariant |
| WorkQueues.RateLimitedCounts | lib/core/controller.go:138-144 | `AddRateLimited` raises the key's requeue count by one, leaves every other count unchanged, and keeps the invariant |
| WorkQueues.WorkQueue.constructor | main.go:81 | a new queue is empty, live and satisfies the invariant |
| WorkQueues.WorkQueue.Add | main.go:103 | the queue after the call is `Added` of the queue before, and the invariant holds |
| WorkQueues.WorkQueue.Get | lib/core/controller.go:62-65 | quit (no item) exactly when nothing was pending, changing nothing; otherwise the head key, which no worker held, and the queue becomes `Got` of the old queue |
| WorkQueues.WorkQueue.Done | lib/core/controller.go:69 | the queue after the call is `Released` of the queue before |
| WorkQueues.WorkQueue.Forget | lib/core/controller.go:133 | the queue after the call is `Forgotten` of the queue before |
| WorkQueues.WorkQueue.AddRateLimited | lib/core/controller.go:143 | the queue after the call is `RateLimitedAdded` of the queue before |
| WorkQueues.WorkQueue.ShutDown | lib/core/controller.go:158 | only the shutting-down flag changes, and the invariant holds |
| Controllers.Resolve | lib/core/controller.go:81-125 | a failed new-key lookup is returned; a missing new key means Delete with a nil object, even for an update item; a present new key means Create on a create item, and Update(old, new) on an update item, with nil for a missing old object, unless the old key's lookup fails, whose error is returned |
| Controllers.ResolveCallsAtMostOnce | lib/core/controller.go:99-121 | a step makes at most one handler call, and none exactly when the new key's lookup fails or, for an update item whose new object is present, the old key's lookup fails |
| Controllers.BareKeyIsCreateOrDeleteItem | lib/core/controller.go:85-90 | a bare string key is handled exactly as an index key with that new key and no old key |
| Controllers.ResolveChoosesOneMethod | lib/core/controller.go:92-121 | each of the four outcomes (no call, Delete, Create, Update) happens if and only if its cache condition holds |
| Controllers.Decide | lib/core/controller.go:128-151 | the retry action is unique: Forget if and only if success; Requeue if and only if an error with fewer than 5 requeues; Drop if and only if an error with 5 or more |
| Controllers.HandledKeepsInv | lib/core/controller.go:128-151 | the retry policy keeps the queue invariant and every requeue count at most 5, and leaves the processing set unchanged |
| Controllers.CycleEffect | lib/core/controller.go:60-77 | one cycle: the head item is released; it is queued again at the end, and stays marked dirty, exactly when the result was an error below the ceiling on a live queue, and no other key's dirty mark changes; its count rises by one or returns to 0 accordingly, other counts stay; the calls made are exactly those of `Resolve`; one error is reported exactly when the item is dropped; here the result is processItem's, the lookup error when no handler is called and otherwise the handler's reply |
| Controllers.FailingRunRequeues | lib/core/controller.go:137-145 | with a handler that always fails, each cycle below the ceiling leaves the item the only one pending with one more requeue, reporting nothing |
| Controllers.RetryCeiling | lib/core/controller.go:137-151 | with a handler that always fails, and the item the only one pending on a live queue with no requeues yet, it is requeued exactly 5 times (count 1 to 5 after cycles 1 to 5); the sixth failure drops it, with nothing pending, its count back at 0, and exactly one error reported |
| Controllers.RunCycles | lib/core/controller.go:54-57 | the definition of a worker's repeated `processNextItem`, up to `i` cycles and stopping once the queue is empty: the call log and the report log only grow, by at most one entry each per cycle; `RunSplit`, `CycleSpendsBudget` and `RetryCeiling` state the rest |
| Controllers.RunSplit | lib/core/controller.go:54-57 | running one more cycle after `i` cycles, while something is pending, is the same as one more `Cycle` |
| Controllers.CycleSpendsBudget | lib/core/controller.go:54-57 | every cycle strictly decreases the attempts the pending items have left, so a worker draining the queue stops |
| Controllers.Controller.constructor | lib/core/controller.go:182-190 | the controller holds exactly the queue, cache and handler it is given, with empty call and report logs |
| Controllers.Controller.Invoke | lib/core/controller.go:99-121 | a handler call is logged and its reply is taken exactly as the handler gives it |
| Controllers.Controller.ProcessItem | lib/core/controller.go:81-125 | the calls logged are exactly those `Resolve` decides, and the error returned and the handler's new state are exactly the reply of that call, or the lookup error |
| Controllers.Controller.HandleErr | lib/core/controller.go:128-151 | the queue becomes `HandledState` (forget, rate-limited requeue, or forget and drop), and an error is reported only for a dropped key |
| Controllers.Controller.ProcessNextItem | lib/core/controller.go:60-77 | it answers false exactly on quit, and then changes nothing; otherwise the controller's whole state is one `Cycle` of the old state, with `Done` after `handleErr` |
| Controllers.Controller.RunWorker | lib/core/controller.go:54-57 | the loop terminates with nothing pending, the invariant kept, and no key left checked out that was not before; the whole state (queue, cluster, calls, reports) is that of some number of `Cycle`s from the start |
| EcrHandlers.Cluster.GetSecret | lib/handlers/ecr.go:110 | the stored secret at (namespace, name), or, when it is missing or its read fails, the empty secret whose name is "", since the handler discards the read's error |
| EcrHandlers.Cluster.CreateSecret | lib/handlers/ecr.go:131 | the new state and error are `ApiCreate`'s: refused if the secret exists or the write is forbidden, otherwise stored |
| EcrHandlers.Cluster.UpdateSecret | lib/handlers/ecr.go:140 | the new state and error are `ApiUpdate`'s: refused if the secret is missing or the write is forbidden, otherwise replaced |
| EcrHandlers.Cluster.DeleteSecret | lib/handlers/ecr.go:111 | the new state and error are `ApiDelete`'s: refused if the secret is missing or the write is forbidden, otherwise removed |
| EcrHandlers.SecretNameOrDefault | lib/handlers/ecr.go:36-41 | the name is never empty; it is the given name when that is non-empty, and "ecr" otherwise |
| EcrHandlers.InArray | lib/handlers/ecr.go:52-55 | found exactly when the namespace is in the exclusion list |
| EcrHandlers.IfSkip | lib/handlers/ecr.go:52-55 | the definition of `ifSkip`: a namespace is skipped exactly when it is in the exclusion list; the upsert lemmas state what skipping does |
| EcrHandlers.AuthsOfEntries | lib/handlers/ecr.go:76-82 | the `auths` map has one entry for each endpoint that occurs and no other; each entry holds the token of the endpoint's last occurrence and email "none" |
| EcrHandlers.AuthsOfLastWins | lib/handlers/ecr.go:76-82 | an endpoint that does not occur again later keeps the token given with it, with email "none" |
| EcrHandlers.EcrSecretShape | lib/handlers/ecr.go:69-99 | after a failed fetch, no secret and the same error; otherwise a secret named after the settings, in the namespace, of type `kubernetes.io/dockerconfigjson`, whose only data key `.dockerconfigjson` holds the `auths` map |
| EcrHandlers.ExcludedNamespaceLosesSecret | lib/handlers/ecr.go:108-120 | in an excluded namespace, Upsert succeeds whatever the delete says, removes the secret exactly when it exists, its read succeeds and the API allows the delete, and never creates or changes a secret |
| EcrHandlers.FetchFailureChangesNothing | lib/handlers/ecr.go:122-125 | without tokens, Upsert in a non-excluded namespace returns the fetch error and leaves the cluster unchanged |
| EcrHandlers.UpsertInstallsSecret | lib/handlers/ecr.go:122-150 | in a non-excluded namespace with tokens, Upsert succeeds and leaves exactly the built secret at its address (created when absent, updated when present and readable); a refused write fails with Forbidden, and an existing secret whose read fails is taken as absent, so the create fails with AlreadyExists; both failures change nothing |
| EcrHandlers.UpsertTouchesOnlyItsSecret | lib/handlers/ecr.go:104-150 | Upsert changes no secret other than the handler's own secret in that namespace |
| EcrHandlers.HandleDelegatesToUpsert | lib/handlers/ecr.go:153-166 | Update(old, new) is Create(new), which is Upsert(new); Delete succeeds and changes nothing |
| EcrHandlers.EcrHandler.constructor | lib/handlers/ecr.go:30-49 | the handler holds the client, the exclusion list, and the secret name or its "ecr" default |
| EcrHandlers.EcrHandler.BuildAuths | lib/handlers/ecr.go:76-82 | the loop builds exactly `AuthsOf` of the fetched pairs |
| EcrHandlers.EcrHandler.BuildEcrSecret | lib/handlers/ecr.go:69-99 | the result is `EcrSecret` of the settings: the fetch error, or the built secret |
| EcrHandlers.EcrHandler.Upsert | lib/handlers/ecr.go:104-150 | the API calls in sequence leave the cluster and return the error exactly as `Upserted` says |
| EcrHandlers.EcrHandler.Create | lib/handlers/ecr.go:153-155 | the effect and the error are the handler contract's Create, which is Upsert |
| EcrHandlers.EcrHandler.Update | lib/handlers/ecr.go:158-160 | the effect and the error are the handler contract's Update, which is Upsert of the new object |
| EcrHandlers.EcrHandler.Delete | lib/handlers/ecr.go:162-166 | always succeeds; it modifies nothing |
| EcrController.AddEventItem | main.go:99-105 | an item exactly when the key was extracted, and then a create item with that key and an empty old key |
| EcrController.UpdateEventItem | main.go:106-113 | an item exactly when the new key was extracted, whatever happened to the old key; it carries the new key and the old key, or "" when the old key failed |
| EcrController.DeleteEventItem | main.go:114-122 | an item exactly when the deletion-tolerant extractor gave a key, and then an item with that key and an empty old key |
| EcrController.OnAdd | main.go:99-105 | the queue becomes the old queue with `AddEventItem` added, or unchanged when there is none |
| EcrController.OnUpdate | main.go:106-113 | the queue becomes the old queue with `UpdateEventItem` added, or unchanged when there is none |
| EcrController.OnDelete | main.go:114-122 | the queue becomes the old queue with `DeleteEventItem` added, or unchanged when there is none |
| EcrController.UnreadableOldKeyMakesCreateItem | main.go:106-113 | an update whose old key cannot be extracted enqueues the same item as an add event, for which the controller never calls Update |
| EcrController.TombstoneIsEnqueued | main.go:114-122 | the tombstone of a deleted object is enqueued under its last key, although plain key extraction would fail on it |
| EcrController.ParseInt64 | main.go:91 | the parsed value always lies within the signed 64-bit range, and a failed parse gives 0 or one of the two bounds |
| EcrController.ParseStopsAtNonDigit | main.go:91 | scanning from the left, a value whose first non-digit follows digits of at most 2^64 - 1 is a syntax error with value 0; if those digits pass 2^64 - 1 it is a range error with the bound on the sign's side |
| EcrController.NotEndingInDigitIsSyntaxError | main.go:91 | a value of at most 20 characters that does not end in a digit is a syntax error with value 0 |
| EcrController.NotEndingInDigitFails | main.go:91 | a value of any length that does not end in a digit is never accepted |
| EcrController.WorkerNumber | main.go:44 | the definition of the worker count: whatever the variable holds it is a 64-bit integer; `WorkerNumberDefault`, `WorkerNumberGiven`, `WorkerNumberUnparsable` and `WorkerNumberOverflowBeforeJunk` state its values |
| EcrController.WorkerNumberDefault | main.go:44 | 2 workers when the variable is unset or empty |
| EcrController.WorkerNumberGiven | main.go:44 | a rendered count gives that many workers; a count beyond 64 bits gives the clamped bound, because the range error is discarded |
| EcrController.WorkerNumberUnparsable | main.go:44 | a value of at most 20 characters that does not end in a digit gives 0 workers, because the syntax error is discarded |
| EcrController.WorkerNumberOverflowBeforeJunk | main.go:44 | digits above 2^64 - 1 followed by a non-digit give the largest int64 workers: the range error wins over the syntax error, and it is discarded too |
| EcrController.ResyncPeriod | main.go:89-95 | the definition of the resync period: an accepted value is always a 64-bit duration; `ResyncPeriodDefault`, `ResyncPeriodGiven`, `ResyncPeriodUnparsable` and `ResyncPeriodWraps` state its values |
| EcrController.ResyncPeriodDefault | main.go:89-95 | 5 hours when the variable is unset or empty, not the 2 of the header comment |
| EcrController.ResyncPeriodGiven | main.go:89-95 | a rendered count of hours up to 2562047 gives exactly that many hours |
| EcrController.ResyncPeriodUnparsable | main.go:91-92 | a value of any length that does not end in a digit is a fatal error |
| EcrController.ResyncPeriodWraps | main.go:94 | 2562048 hours parses but the 64-bit multiplication wraps around to a negative duration |
| EcrController.PresentNamespaceGetsSecret | main.go:83-127 | one cycle on the item of a present, non-excluded namespace (a create item, or an update item whose old key's lookup does not fail) makes one handler call; unless the API refuses the write or an existing secret cannot be read, the namespace then holds exactly the built secret, the item is forgotten and not requeued, and nothing is reported; otherwise the cluster is unchanged |
| EcrController.DeletedNamespaceIsForgotten | lib/core/controller.go:98-100 | one cycle on the item of a namespace no longer in the cache calls Delete with a nil object, leaves the cluster unchanged, and forgets the item without requeueing or reporting |

## Left out

- `Controller.Run` is not modelled: the goroutines, the stop channel, `WaitForCacheSync`, `wait.Until` and `HandleCrash`. Its point is concurrency and lifecycle. Workers are modelled one cycle at a time; `Controllers.RunCycles` is the loop of one worker (`runWorker`), not `Controller.Run`.
- `HasSynced` and `LastSyncResourceVersion` are not modelled: they only forward to the informer.
- lib/aws/aws.go is not part of this model. `GetEcrAuths` is an input, either pairs or an error.
- The rate limiter's backoff curve and all time durations are left out. `AddRateLimited` re-adds the key at once; the delay client-go waits is not modelled.
- WorkQueues.WorkQueue.Get: the Go call blocks while the queue is empty and live. The model is called only once that wait is over, which is the precondition `pending != [] || shuttingDown`.
- Controllers.Controller.RunWorker: where the Go worker would block on an empty live queue, the model returns. Its contract states termination with nothing pending, not an endless loop.
- The Kubernetes API behind `lc.GetSecret`, `CreateSecret`, `UpdateSecret` and `DeleteSecret` is not shown in the repository. It is modelled with the API server's usual answers:
  - create is refused for an existing secret;
  - update and delete are refused for a missing one;
  - a fixed set of addresses has every write refused;
  - a fixed set of addresses has every read fail, and the handler, which discards the read's error, sees the empty secret there.
- JSON bytes are left out. The docker config is stored as a value, and `json.Marshal` of a map of string structs cannot fail, so that error path is absent.
- The informer's cache contents and key extraction are inputs (`Cache`, `Watched`). The watch, the list and the resync timer are not modelled.
- `main()` is not modelled: client construction, informer registration, `select {}` and all logging.
- `lc.GetEnvWithDefault`, `lc.InArray` and `lc.CommaStrToSlice` are not part of this model:
  - the environment lookup is taken to return the default for an unset or empty variable;
  - `InArray` is taken to be list membership;
  - the exclusion list is taken as already split.
- EcrController.PresentNamespaceGetsSecret: it is not stated for an update item whose old key's lookup fails; there no handler is called and the item is retried, as `Controllers.ResolveCallsAtMostOnce` and `Controllers.CycleEffect` state. When the write is refused or the read fails, it states only that the cluster is unchanged; the retry in that case is covered by `Controllers.CycleEffect`.
- Controllers.RetryCeiling: it is stated for an item that is the only one pending on a live queue, starting with no requeues. With other items interleaved, or after a shutdown, the per-cycle effect is still given by `Controllers.CycleEffect`, but the five-retries sequence is not stated as one lemma.
- EcrController.EcrHandle: one token-fetch result is used for every call in a run of cycles. The program fetches again on each Upsert, so successive calls may see different tokens or errors; each single call is still modelled for any fetch result.
- EcrController.WorkerNumberUnparsable: it is stated for values of at most 20 characters, where the digits before the first bad character cannot overflow. Longer values whose digits overflow first give the largest int64, which `EcrController.WorkerNumberOverflowBeforeJunk` states.
