# Broker: a key-consolidating batch queue with a debounce timer

This project models `broker.go` of the `tinywasm/broker` Go package in Dafny and proves properties of that model.

Callers submit byte fragments tagged by a key with `Enqueue`. Fragments that share a key go into one pending `Item`, in arrival order. Items stay in the order their keys first arrived. Every submission re-arms one shared timer. When the timer fires, or when `FlushNow` is called, the whole queue is handed to the `onFlush` callback as a snapshot and the queue is emptied. `Clear` drops the queue without delivering it.

The project has three modules:

- `Queue` (`queue.dfy`) holds the queue as a value. `Consolidate` is what one `Enqueue` does to the queue. `Replay` is what a run of submissions builds from an empty queue. The lemmas say what both mean: keys stay unique and keep their first-arrival order, each key's fragments stay in call order, and the length is the number of distinct keys.
- `Batching` (`batching.dfy`) holds the class `Broker`. It has the Go struct's mutable state as fields: `queue`, `timer` and `onFlush`. It also has the state of the time provider the broker talks to:
  - `pending` is the set of handles whose flush is still scheduled.
  - `nextHandle` is a generation counter, so a re-armed timer always gets a new handle.
  - `deliveries` logs every callback invocation.
  - The ghost field `batch` holds the submissions since the queue was last emptied.

  `Valid()` is the object invariant. It says that the queue is `Replay(batch)` and has unique keys and no empty items. It says that at most one handle is outstanding and that it is the one held in `timer`. It says that no delivery was ever empty. It also says that a flush is scheduled exactly when the queue is non-empty, so the timer never fires on an empty queue.
- `Scenarios` (`scenarios.dfy`) holds the runs exercised by `broker_shared_test.go`, written as client methods. It also has a stale-timer run and a run with no handler. Each method's postcondition states the run's outcome, and that outcome follows from the contracts of `Broker` alone.

The time provider is abstract:
- `AfterFunc` returns a fresh handle and schedules it.
- `StopHandle` unschedules a handle. Stopping a handle that already fired or was already stopped does nothing.
- `TimerFires(h)` is the provider running the flush of handle `h`. A handle that is no longer scheduled does nothing.

The flush callback is known only by its identity (`Handler`). Each invocation is recorded as a `Delivery` of that identity and the snapshot it received.

`broker.go` calls `onFlush` while still holding the mutex (lines 72-73 and 86-88), so in the model a flush, including its delivery, is one atomic step.

## Model

| member | source | states |
|---|---|---|
| `Queue.Consolidate` | broker.go:46-59 | after an enqueue the key is present, and no key other than the enqueued one has been added |
| `Queue.ConsolidateExisting` | broker.go:47-52 | for a key already present, the fragment goes to the end of that item's data; the queue length and every other item stay the same |
| `Queue.ConsolidateNew` | broker.go:55-59 | for a new key, `Item{key, [data]}` goes to the end of the queue and the earlier items stay the same |
| `Queue.ConsolidateLength` | broker.go:47-59 | the queue grows by one exactly when the key was absent, and otherwise keeps its length |
| `Queue.ConsolidateKeepsInvariant` | broker.go:47-59 | an enqueue keeps keys unique and every item non-empty |
| `Queue.ConsolidateFragments` | broker.go:49 | the enqueued key's fragments gain `data` at the end; every other key's fragments stay the same |
| `Queue.ConsolidateKeys` | broker.go:47-59 | the key order changes only when an absent key is appended at the end |
| `Queue.UniqueCount` | broker.go:99-104 | in a key-unique queue, the length (`QueueLength`) equals the number of distinct keys |
| `Queue.ReplayInvariant` | broker.go:41-62 | any run of enqueues from an empty queue leaves the keys unique and no item empty |
| `Queue.ReplayFragments` | broker.go:49 | after any run of enqueues, each key's item holds exactly the fragments submitted under that key, in call order |
| `Queue.ReplayKeys` | broker.go:55-59 | after any run of enqueues, the queue lists each submitted key once, in first-arrival order |
| `Queue.ReplayKeySet` | broker.go:41-62 | the keys present are exactly the keys submitted |
| `Queue.ReplayLength` | broker_shared_test.go:11-34 | after any run of enqueues, the queue length equals the number of distinct keys submitted |
| `Batching.Delivered` | broker.go:75-88 | a flush makes at most one delivery; it makes one exactly when the queue is non-empty and a callback is set, and that delivery carries the whole queue |
| `Batching.Broker.New` | broker.go:26-32 | a new broker has an empty queue, no timer, nothing scheduled, no callback and the given window |
| `Batching.Broker.SetOnFlush` | broker.go:35-39 | replaces the callback; nothing else changes |
| `Batching.Broker.StopHandle` | broker.go:66 | a stopped handle is no longer scheduled; stopping it again changes nothing |
| `Batching.Broker.AfterFunc` | broker.go:68 | returns a handle never returned before and schedules it |
| `Batching.Broker.ResetTimer` | broker.go:64-69 | the previous handle is stopped before a new one is created; afterwards exactly the new handle is outstanding |
| `Batching.Broker.Enqueue` | broker.go:42-62 | the queue becomes `Consolidate` of the old queue and the broker stays valid; the timer is re-armed with exactly one outstanding handle; the callback and the delivery log are unchanged |
| `Batching.Broker.Flush` | broker.go:71-89 | an empty queue changes nothing and delivers nothing; a non-empty queue is emptied and its snapshot goes to the current callback if one is set, and is dropped otherwise |
| `Batching.Broker.TimerFires` | broker.go:68 | a scheduled handle firing flushes the queue and leaves nothing scheduled; a stopped or replaced handle firing changes nothing |
| `Batching.Broker.FlushNow` | broker.go:92-97 | stops the held handle, then flushes; afterwards the queue is empty and nothing is scheduled |
| `Batching.Broker.QueueLength` | broker.go:100-104 | returns the queue length, which is the number of distinct pending keys |
| `Batching.Broker.Clear` | broker.go:107-116 | empties the queue, sets the timer handle to nil, leaves nothing scheduled and delivers nothing |
| `Scenarios.ConsolidateSameKey` | broker_shared_test.go:12-22 | three enqueues on one key give length 1, and that one item holds the three fragments in order |
| `Scenarios.DifferentKeysNotConsolidated` | broker_shared_test.go:24-34 | three distinct keys give length 3, in arrival order |
| `Scenarios.FlushAfterBatchWindow` | broker_shared_test.go:38-71 | when the window expires the callback receives the queued item once, and the queue is then empty |
| `Scenarios.FlushTwoKeys` | broker.go:42-89 | `a:A, a:B, b:C` gives length 2; the flush delivers `{a:[A,B]}` then `{b:[C]}` and the queue is then empty |
| `Scenarios.StaleTimerDoesNotFlush` | broker.go:64-69 | a handle replaced by a later enqueue never flushes; only the latest handle delivers |
| `Scenarios.FlushNowForcesImmediateFlush` | broker_shared_test.go:73-91 | `FlushNow` delivers at once and empties the queue, and the stopped timer firing later delivers nothing |
| `Scenarios.EmptyQueueNoFlush` | broker_shared_test.go:93-106 | `FlushNow` on an empty queue never calls the callback |
| `Scenarios.FlushWithoutHandler` | broker.go:79-88 | with no callback set, a flush still empties the queue and nothing is delivered |
| `Scenarios.ClearRemovesAll` | broker_shared_test.go:110-125 | `Clear` takes the length from 2 to 0 and never calls the callback |
| `Scenarios.FlushNowTwice` | broker.go:92-97 | two `FlushNow` calls with nothing enqueued between them deliver at most once, and only on the first call |

## Left out

- Mutex locking and thread interleavings (`b.mu`): each public method is one atomic step. Not modelled as a result: `FlushNow` reads `b.timer` without the lock (broker.go:93), `Stop` cannot stop a callback that has already started, and a callback that calls back into the broker deadlocks because `onFlush` runs while the mutex is held.
- Real time and the `tinywasm/time` time provider: `AfterFunc` and `Stop` are foreign calls. They are replaced by the handle counter, the `pending` set and the explicit `TimerFires` step. The window's length in milliseconds is stored in `batchWindow` but never measured, so the model does not say when a flush fires. It says only which handle may fire it.
- What the callback itself does: an invocation is only an entry in `deliveries`.
- Slice capacity and aliasing: the preallocated capacity of 16 (broker.go:28), the reuse of the backing array by `b.queue[:0]` (broker.go:84, 115), and the shallow `copy` whose snapshot shares `Data` slices and caller-owned byte slices (broker.go:81). In the model, items and fragments are immutable values, so the snapshot cannot change after delivery.
- Keys: a Go `string` is a byte string, while a Dafny `string` is a sequence of characters. The model only compares keys for equality, so keys are treated as opaque values and no behaviour is lost.
- Integer width: `QueueLength` returns a Go `int`, and the model's count is unbounded. The two differ only for a queue of more than 2^63 - 1 distinct keys, which cannot fit in memory.
