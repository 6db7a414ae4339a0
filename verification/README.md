# Distributed data object: a verified model

This project models the client-side runtime of the distributed data object in Dafny
and proves what its parts promise, alone and together. `dafny verify dfyconfig.toml`
verifies all of it.

Each part has the same shape. What an operation does is a function on values. The
object that does it in place (a heap multimap with iterators, a map of owned
buffers, a linked list) is a class whose methods are proved to do what the function
says. Concurrency is a state machine whose steps are the regions run under a mutex,
and a theorem about it holds for every list of enabled steps. What the outside world
answers (the database, the sockets, the object service, the clock) is a parameter.

- `common.dfy`: types shared by several parts.
- `task_queue.dfy`, `task_scheduler.dfy`: the scheduler's queue as an ordered
  multimap, a priority queue refined by it, and the object with its side index.
- `scheduler_runs.dfy`, `scheduler_safety.dfy`, `scheduler_history.dfy`,
  `scheduler_extremes.dfy`: callers, worker, clock and destructor in every
  interleaving; wake-ups, capacity, dispatch and the join; run counts, spacing and
  cancellation; and the runs that go as far as these bounds allow.
- `soft_bus.dfy`, `soft_bus_adapter.dfy`, `soft_bus_runs.dfy`, `soft_bus_cover.dfy`,
  `soft_bus_loss.dfy`: the send path, its caches, sockets and flushes, on top of the
  scheduler; when what is cached has a flush coming; and how a message can be lost.
- `asset_timer.dfy`: the debounce of asset changes, with its wait, against an executor
  whose entries may have left its queue.
- `change_pipeline.dfy`: from raw database keys to notifications.
- `storage_engine.dfy`, `engine_laws.dfy`, `object_tables.dfy`: tables, observers,
  objects and watchers, and what calls do to each other.
- `handler_list.dfy`: the callback list and the watched flag.
- `bytes_utils.dfy`, `typed_values.dfy`, `data_callbacks.dfy`,
  `flat_object_store.dfy`: typed values and the callbacks of the object service.
- `js_values.dfy`: the script layer over all of it.

A method that is one branch after another is proved equal to its function on values
and has no row below; the rows name the laws about those functions.

## Where the code does not do what one might expect

Each of these is proved with its exact condition and, where one is needed, a run that
shows it.

- A count of zero wraps on the first decrement: such an entry can start any number of
  times up to 2^64 (`SchedulerExtremes.CanRunIff`, `SchedulerExtremes.CountBoundsIff`).
- A scheduler of capacity zero can hang in its destructor; no other can
  (`SchedulerSafety.HangsIffNoCapacity`).
- The queue exceeds its capacity, by one, exactly when a periodic entry is queued again
  behind a full queue (`SchedulerSafety.ExceedsIff`), and a run that does so exists for
  every capacity from one up to the number of ids (`SchedulerExtremes.CanExceedIff`).
- Remove without waiting does not stop a periodic entry in the middle of a run
  (`SchedulerHistory.RemoveStopsIff`, `SchedulerExtremes.RemovedYetRuns`).
- Probing a peer opens a socket without queueing a flush. If messages are cached for the
  peer and no flush is coming, they stay until the next call of SendData gets as far as
  Execute; nothing else leaves them so
  (`SoftBusCover.ReachableCoveredIff`, `SoftBusCover.StrandedRun`,
  `SoftBusCover.StaysStranded`, `SoftBusCover.ExecuteCovers`).
- Sessions or asset keys that hold `#` can share a timer, and the change of one is
  then answered for the other (`AssetTimer.NeverLostIff`).
- Deleting a watched session leaves its observer behind
  (`ObjectTables.DeleteAgreesIff`, `ObjectTables.StaleObserver`).
- The flag of the change listener disagrees with its list exactly when the store
  refuses a call that needs it (`HandlerList.AlwaysConsistentIff`).
- A peer's data overwrites local values when the local table cannot be read
  (`DataCallbacks.LocalDataWinsIff`).
- The native layer cannot return an empty string (`TypedValues.ValueReads`,
  `JsValues.EmptyNeedsTag`); a string is cut at a zero byte, and an array buffer set by
  a script comes back as something else (`JsValues.SetThenGet`,
  `JsValues.RoundTripIff`).

## Model

| member | source | states |
|---|---|---|
| TaskQueue.UpperBound | frameworks/innerkitsimpl/include/communicator/task_scheduler.h:73 | the place where a multimap inserts a key: behind every entry due no later, in front of the first due later |
| TaskQueue.IndexOf | frameworks/innerkitsimpl/include/communicator/task_scheduler.h:87-90 | the first entry that carries an id, or the length if none does |
| TaskQueue.Decremented | frameworks/innerkitsimpl/include/communicator/task_scheduler.h:169 | the unsigned decrement of the count: one less, and zero wraps to the largest 64-bit value |
| TaskQueue.InsertSorted | frameworks/innerkitsimpl/include/communicator/task_scheduler.h:73 | inserting keeps the queue ordered by due time, and by insertion among equals |
| TaskQueue.AtWellFormed | frameworks/innerkitsimpl/include/communicator/task_scheduler.h:62-79 | At keeps order, distinct ids and the running id apart from the queued ones, for any arguments, as long as the next id is fresh |
| TaskQueue.ResetWellFormed | frameworks/innerkitsimpl/include/communicator/task_scheduler.h:80-102 | Reset keeps the same shape, whether it retimes the running slot, moves an entry or finds nothing |
| TaskQueue.RemoveWellFormed | frameworks/innerkitsimpl/include/communicator/task_scheduler.h:115-128 | Remove takes out exactly the entries of the id, of which there is at most one, and keeps the shape |
| TaskQueue.FinishWellFormed | frameworks/innerkitsimpl/include/communicator/task_scheduler.h:175-181 | queueing a periodic entry again after its run keeps the shape and frees the running slot |
| TaskQueue.InsertBag | frameworks/innerkitsimpl/include/communicator/task_scheduler.h:73 | seen as a set of entries, inserting adds one entry and nothing else |
| TaskQueue.ResetBag | frameworks/innerkitsimpl/include/communicator/task_scheduler.h:80-102 | Reset answers by the running slot, or swaps the one entry of the id for one due an interval from now, which has the new interval if the old one was periodic and none otherwise, and the same count, or answers that the id is invalid; in each case nothing else changes |
| TaskQueue.RemoveBag | frameworks/innerkitsimpl/include/communicator/task_scheduler.h:115-128 | seen as a set, Remove keeps exactly the entries of other ids, and notifies the worker exactly when there was one to remove |
| TaskQueue.TakeBag | frameworks/innerkitsimpl/include/communicator/task_scheduler.h:163-169 | what the worker takes is the least entry by due time and insertion order, and only that entry leaves the set |
| TaskQueue.FinishBag | frameworks/innerkitsimpl/include/communicator/task_scheduler.h:175-181 | after a run the slot is idle; a periodic entry with runs left is queued again one interval from now, any other is not |
| Scheduler.AgreesInsert | frameworks/innerkitsimpl/include/communicator/task_scheduler.h:73-77 | adding a node and its iterator keeps the index a bijection from ids onto the nodes |
| Scheduler.AgreesErase | frameworks/innerkitsimpl/include/communicator/task_scheduler.h:125-126 | erasing a node and its index entry keeps the bijection |
| Scheduler.IndexFinds | frameworks/innerkitsimpl/include/communicator/task_scheduler.h:87-90 | the iterator the index holds for an id is the node that a search of the multimap would find, and there is none exactly when the search fails |
| Scheduler.MoveCommutes | frameworks/innerkitsimpl/include/communicator/task_scheduler.h:95-100 | inserting the new node before erasing the old one, as Reset does, leaves the queue that erasing first would leave |
| Scheduler.UpperBoundAfterErase | frameworks/innerkitsimpl/include/communicator/task_scheduler.h:95-99 | erasing an entry moves the insertion place of a key down by one exactly if the entry was in front of it |
| Scheduler.Move | frameworks/innerkitsimpl/include/communicator/task_scheduler.h:95-100 | insert, erase and re-pointing of the iterator, in that order: the bijection holds again, and the wake-up condition is the one on the old and the new head |
| Scheduler.TaskScheduler.At | frameworks/innerkitsimpl/include/communicator/task_scheduler.h:62-79 | the heap scheduler, with its index, does what the queue operation says: result, notification and new state, the refusal for a full queue included |
| Scheduler.TaskScheduler.Reset | frameworks/innerkitsimpl/include/communicator/task_scheduler.h:80-102 | as At, for its three branches; the index agrees with the multimap again when the lock is released |
| Scheduler.TaskScheduler.Retime | frameworks/innerkitsimpl/include/communicator/task_scheduler.h:91-94 | writing the interval through an iterator leaves the order and every other entry alone, and leaves a one-shot entry one |
| Scheduler.TaskScheduler.Requeue | frameworks/innerkitsimpl/include/communicator/task_scheduler.h:91-101 | the third branch of Reset through a reference to the node: the node, its interval written in place, is replaced by one at its new place |
| Scheduler.TaskScheduler.Clean | frameworks/innerkitsimpl/include/communicator/task_scheduler.h:103-108 | empties multimap and index |
| Scheduler.TaskScheduler.Remove | frameworks/innerkitsimpl/include/communicator/task_scheduler.h:115-128 | as At, for what follows the wait; the id is in neither the multimap nor the index afterwards |
| Scheduler.TaskScheduler.Begin | frameworks/innerkitsimpl/include/communicator/task_scheduler.h:155-170 | the first locked region of the loop: waits for work, waits for the head, or takes the head, decrementing its count |
| Scheduler.TaskScheduler.Finish | frameworks/innerkitsimpl/include/communicator/task_scheduler.h:174-183 | the second locked region of the loop, the notification of waiting callers included |
| SchedulerRuns.FreshNext | frameworks/innerkitsimpl/include/communicator/task_scheduler.h:186-193 | below 2^64 - 1 issued ids, the next id is none that is queued or running |
| SchedulerRuns.CoreStep | frameworks/innerkitsimpl/include/communicator/task_scheduler.h:54-193 | every step of callers, worker, clock and destructor keeps the queue well formed, the slot busy exactly while executing, and every queued id issued |
| SchedulerRuns.RunCore | frameworks/innerkitsimpl/include/communicator/task_scheduler.h:54-193 | hence in every reachable state, under every interleaving |
| SchedulerRuns.AtBag | frameworks/innerkitsimpl/include/communicator/task_scheduler.h:62-79 | a submission that is taken adds exactly its own entry under a new id, and one that is refused changes nothing |
| SchedulerSafety.SafeStep | frameworks/innerkitsimpl/include/communicator/task_scheduler.h:54-184 | every step loses no wake-up, wakes the callers that wait for the end of a run, keeps the capacity bound and keeps the destructor on track |
| SchedulerSafety.ReachableSafe | frameworks/innerkitsimpl/include/communicator/task_scheduler.h:54-184 | in every run: a worker parked for work without a notification has an empty queue; one parked until T has nothing due earlier; at most capacity entries while a run is on and one more otherwise |
| SchedulerSafety.StartsLeastDue | frameworks/innerkitsimpl/include/communicator/task_scheduler.h:150-170 | every start, in any reachable state, is of an entry that is due and comes before all others queued; it alone leaves the queue and its count goes down by one |
| SchedulerSafety.WorkerLooks | frameworks/innerkitsimpl/include/communicator/task_scheduler.h:150-170 | when the worker looks at the queue it starts something exactly if something is due, and else parks, for work exactly if there is none and otherwise until the least due time; between its looks it leaves exactly when destruction has begun |
| SchedulerSafety.JoiningStep | frameworks/innerkitsimpl/include/communicator/task_scheduler.h:54-60 | while the destructor joins a scheduler with room for one entry, the worker is never asleep for good, and each of its steps brings it nearer to its exit |
| SchedulerSafety.JoinTerminates | frameworks/innerkitsimpl/include/communicator/task_scheduler.h:54-60 | on every continuation the worker takes at most three more steps and has exited when they are used up |
| SchedulerSafety.ExceedsIff | frameworks/innerkitsimpl/include/communicator/task_scheduler.h:175-179 | a step takes a queue past its capacity if and only if the worker, its run over, queues a periodic entry with runs left behind a full queue |
| SchedulerSafety.HangsIffNoCapacity | frameworks/innerkitsimpl/include/communicator/task_scheduler.h:54-68 | some run leaves the joining destructor with a worker asleep for good if and only if the capacity is zero |
| SchedulerHistory.RecordedStep | frameworks/innerkitsimpl/include/communicator/task_scheduler.h:62-184 | every step keeps runs so far plus runs left equal to the submitted count for what is queued, and keeps starts spaced |
| SchedulerHistory.ReachableRecorded | frameworks/innerkitsimpl/include/communicator/task_scheduler.h:62-184 | in every run a count n >= 1 bounds the runs by n, a zero interval bounds them by one, and starts are at least one interval apart unless Reset came between |
| SchedulerHistory.SpentStep | frameworks/innerkitsimpl/include/communicator/task_scheduler.h:80-184 | an id that is neither queued nor to be repeated stays so under every step, does not start, and if not running is not found by Reset |
| SchedulerHistory.CancelledForGood | frameworks/innerkitsimpl/include/communicator/task_scheduler.h:80-193 | once an id is neither queued nor running, it starts in no continuation and Reset answers that it is invalid |
| SchedulerHistory.RemoveCancels | frameworks/innerkitsimpl/include/communicator/task_scheduler.h:115-128 | a Remove that returns leaves the id unqueued; if it is not running then, it is gone for good |
| SchedulerHistory.WaitsForRun | frameworks/innerkitsimpl/include/communicator/task_scheduler.h:115-128 | a call returns at once, unless it was asked to wait and the id is running: then all it does is to go to sleep |
| SchedulerHistory.WaitedRemoveIsFinal | frameworks/innerkitsimpl/include/communicator/task_scheduler.h:115-128 | once a waiting call has returned the id is gone for good: it starts in no continuation and Reset does not find it |
| SchedulerHistory.RemoveStopsIff | frameworks/innerkitsimpl/include/communicator/task_scheduler.h:115-128 | a Remove that returns stops the id in every continuation if and only if destruction has begun or the id is not a periodic one in the middle of a run with runs left |
| SchedulerHistory.RunsOnceMore | frameworks/innerkitsimpl/include/communicator/task_scheduler.h:175-179 | the continuation that shows it: the run ends, queues itself again and starts again |
| SchedulerExtremes.CanRunIff | frameworks/innerkitsimpl/include/communicator/task_scheduler.h:163-181 | over all schedulers and runs, an entry submitted with a count and an interval can have started exactly m times if and only if m is at most its count; a count of zero allows 2^64 starts, and no interval at most one |
| SchedulerExtremes.CountBoundsIff | frameworks/innerkitsimpl/include/communicator/task_scheduler.h:163-181 | a submitted count bounds the number of starts in all runs if and only if it is not zero |
| SchedulerExtremes.RunsMore | frameworks/innerkitsimpl/include/communicator/task_scheduler.h:150-184 | from a run in progress, any number of further starts up to the runs left is reached |
| SchedulerExtremes.RemovedYetRuns | frameworks/innerkitsimpl/include/communicator/task_scheduler.h:115-128 | a run from a new scheduler to a periodic entry in the middle of a run: a Remove that does not wait returns and the entry starts again |
| SchedulerExtremes.CanExceedIff | frameworks/innerkitsimpl/include/communicator/task_scheduler.h:175-179 | some run has more entries queued than the capacity if and only if the capacity is at least one and below the number of ids |
| SchedulerExtremes.Overfull | frameworks/innerkitsimpl/include/communicator/task_scheduler.h:175-179 | the run that shows it, for each such capacity |
| SchedulerExtremes.NumberedStep | frameworks/innerkitsimpl/include/communicator/task_scheduler.h:62-79 | queued and running entries together never outnumber the ids issued |
| SoftBus.Conserves | frameworks/innerkitsimpl/src/communicator/softbus_adapter_standard.cpp:360-388 | for each device, what was submitted and not lost is what SendBytes was given followed by the cache, in order, and nothing submitted is unaccounted for |
| SoftBus.CacheOk | frameworks/innerkitsimpl/src/communicator/softbus_adapter_standard.cpp:360-388 | caching keeps every device in order, bounded by 100, with each buffer owned once or deleted once, also when copying fails and when the oldest is evicted |
| SoftBus.CacheIs | frameworks/innerkitsimpl/src/communicator/softbus_adapter_standard.cpp:360-388 | a message cached is the message itself, in a new buffer, behind what is there, and at the limit the oldest goes; a failed copy caches nothing, and no call touches another device |
| SoftBus.DrainOk | frameworks/innerkitsimpl/src/communicator/softbus_adapter_standard.cpp:490-499 | draining a cache hands over all of it, in order, deletes its buffers once, and touches no other device |
| SoftBusAdapter.Adapter.CacheData | frameworks/innerkitsimpl/src/communicator/softbus_adapter_standard.cpp:360-388 | the cache map changed in place, with the buffer allocated, copied and evicted by hand, does what the operation on values says |
| SoftBus.SocketKept | frameworks/innerkitsimpl/src/communicator/softbus_adapter_standard.cpp:390-403 | the answer is the entry of the table, else what opening returned; a socket once entered is the one every later call gets, a failed attempt leaves no entry, and nothing else changes |
| SoftBus.ShutdownIs | frameworks/innerkitsimpl/src/communicator/softbus_adapter_standard.cpp:505-515 | a device is in the table afterwards exactly if it was there with another socket, with that socket; nothing else changes; and a device cut off gets whatever opening a new socket returns |
| SoftBusAdapter.Adapter.DrainCache | frameworks/innerkitsimpl/src/communicator/softbus_adapter_standard.cpp:490-499 | the erasing loop of a flush over one cache leaves it empty, in order |
| SoftBusAdapter.Adapter.Flush | frameworks/innerkitsimpl/src/communicator/softbus_adapter_standard.cpp:477-503 | a flush drains the caches of exactly the devices of the socket table, each once |
| SoftBusAdapter.Adapter.OnClientShutdown | frameworks/innerkitsimpl/src/communicator/softbus_adapter_standard.cpp:505-515 | exactly the entries of that socket leave the table, and no cache changes |
| SoftBusAdapter.Adapter.SendData | frameworks/innerkitsimpl/src/communicator/softbus_adapter_standard.cpp:344-358 | with nobody in between: every outcome with its status, and after success a flush is queued |
| SoftBusAdapter.Adapter.ReleaseAll | frameworks/innerkitsimpl/src/communicator/softbus_adapter_standard.cpp:57-68 | the destructor deletes every cached buffer and clears both tables |
| SoftBusAdapter.ExecuteQueues | frameworks/innerkitsimpl/src/communicator/softbus_adapter_standard.cpp:502 | after Execute a flush is queued, whether it was taken or refused for a full queue |
| SoftBusRuns.InvStep | frameworks/innerkitsimpl/src/communicator/softbus_adapter_standard.cpp:344-522 | every step of senders, probes, shutdowns, worker, flush and destructor keeps the caches, the buffers, the scheduler and the flush in step |
| SoftBusRuns.SubmittedRun | frameworks/innerkitsimpl/src/communicator/softbus_adapter_standard.cpp:360-388 | what is on record as submitted for a device is, after any run, exactly the payloads of its calls whose copy succeeded, in the order of the calls |
| SoftBusRuns.FlushAllIs | frameworks/innerkitsimpl/src/communicator/softbus_adapter_standard.cpp:477-503 | a flush gives SendBytes exactly what was cached for the devices it walks that have a socket, in order, and changes no other cache and no socket |
| SoftBusRuns.CutsIs | frameworks/innerkitsimpl/src/communicator/softbus_adapter_standard.cpp:505-515 | the cuts of a device go up exactly when it leaves the socket table, which it does exactly when its own socket is shut down |
| SoftBusRuns.ReachableConserves | frameworks/innerkitsimpl/src/communicator/softbus_adapter_standard.cpp:360-503 | in every run and for every device: the payloads that senders sent to it, less those lost, are what SendBytes was given followed by the cache, in order; caches are bounded; buffers are live exactly while cached and deleted once |
| SoftBusRuns.ReleaseOk | frameworks/innerkitsimpl/src/communicator/softbus_adapter_standard.cpp:57-68 | after the destructor every buffer ever allocated was deleted exactly once |
| SoftBusRuns.SuccessIsCovered | frameworks/innerkitsimpl/src/communicator/softbus_adapter_standard.cpp:344-358 | when Execute returns, a flush that has not started is queued and due |
| SoftBusRuns.FlushQueuedStep | frameworks/innerkitsimpl/src/communicator/softbus_adapter_standard.cpp:477-503 | with a flush queued the worker is not asleep for good, and no step sets its start back |
| SoftBusRuns.QueuedFlushStarts | frameworks/innerkitsimpl/src/communicator/softbus_adapter_standard.cpp:477-503 | short of destruction, a queued flush starts within four steps of the worker |
| SoftBusRuns.PendingStep | frameworks/innerkitsimpl/src/communicator/softbus_adapter_standard.cpp:390-515 | a message stays ahead of the flush that will carry it unless the socket of its device is removed |
| SoftBusRuns.SendDataDelivers | frameworks/innerkitsimpl/src/communicator/softbus_adapter_standard.cpp:344-515 | once a flush that starts after Execute has finished, the message has left the cache, unless the socket of its device was shut down in between |
| SoftBusCover.CoveredStep | frameworks/innerkitsimpl/src/communicator/softbus_adapter_standard.cpp:344-522 | a step leaves a flush coming for every device with a socket and cached messages if and only if it is not a probe that opens the first socket of a device with cached messages while none is coming for it |
| SoftBusCover.ReachableCoveredIff | frameworks/innerkitsimpl/src/communicator/softbus_adapter_standard.cpp:344-522 | from the start and short of destruction, at every moment of a run every device with a socket and cached messages has a flush coming, if and only if no action of the run is such a probe |
| SoftBusCover.StrandedRun | frameworks/innerkitsimpl/src/communicator/softbus_adapter_standard.cpp:517-522 | the run that shows it: a send that finds no socket, then a probe that opens one |
| SoftBusCover.StaysStranded | frameworks/innerkitsimpl/src/communicator/softbus_adapter_standard.cpp:477-522 | on every continuation in which no call reaches Execute the message stays cached and nothing is sent for its device |
| SoftBusCover.ExecuteCovers | frameworks/innerkitsimpl/src/communicator/softbus_adapter_standard.cpp:502 | the next call that reaches Execute, for any device, has a flush coming for all again |
| SoftBusLoss.CacheExplained | frameworks/innerkitsimpl/src/communicator/softbus_adapter_standard.cpp:360-388 | caching evicts a message only when a hundred later ones for its device have been cached |
| SoftBusLoss.ReachableExplained | frameworks/innerkitsimpl/src/communicator/softbus_adapter_standard.cpp:360-503 | in every run a message was evicted only after a hundred later ones for its device, and discarded only by the destructor |
| SoftBusLoss.SendDataSends | frameworks/innerkitsimpl/src/communicator/softbus_adapter_standard.cpp:344-515 | once a flush that starts after Execute has finished, the message was handed to SendBytes, unless a hundred later ones came first, the socket of its device was shut down in between, or destruction has begun |
| AssetTimer.InvStep | frameworks/innerkitsimpl/src/adaptor/asset_change_timer.cpp:53-88 | starting, dequeuing, stopping and handling keep the table in step with the executor |
| AssetTimer.TableTracksTasks | frameworks/innerkitsimpl/src/adaptor/asset_change_timer.cpp:53-88 | in every reachable state the table holds a key exactly when one entry for it is queued or has begun without passing StopTimer, and then exactly one |
| AssetTimer.StopInv | frameworks/innerkitsimpl/src/adaptor/asset_change_timer.cpp:82-88 | StopTimer cancels nothing that is still to run |
| AssetTimer.StartIs | frameworks/innerkitsimpl/src/adaptor/asset_change_timer.cpp:53-64 | StartTimer queues a task due in 100 ms for a key that has none, puts off the one still in the queue to 100 ms from now, or forgets the id of one that has left it; no other key and no other task changes |
| AssetTimer.StopIs | frameworks/innerkitsimpl/src/adaptor/asset_change_timer.cpp:82-88 | StopTimer forgets its own key and cancels at most the queued task that the table holds for it; nothing else changes |
| AssetTimer.TellsIff | frameworks/innerkitsimpl/src/adaptor/asset_change_timer.cpp:66-80 | the watcher is told of a pair exactly when its HandleAssetChanges succeeds, and no other step calls either |
| AssetTimer.QuietPeriod | frameworks/innerkitsimpl/src/adaptor/asset_change_timer.cpp:53-64 | a task of a key begins at least 100 ms after every earlier StartTimer for it, whatever happens in between |
| AssetTimer.DebounceLosesNothing | frameworks/innerkitsimpl/src/adaptor/asset_change_timer.cpp:53-88 | after StartTimer, also when its Reset fails, a run that leaves nothing under way for the key has begun a HandleAssetChanges for it since |
| AssetTimer.WorkStep | frameworks/innerkitsimpl/src/adaptor/asset_change_timer.cpp:66-88 | every step but a StartTimer does one of the finitely many steps that what is under way has ahead |
| AssetTimer.AnsweredInTime | frameworks/innerkitsimpl/src/adaptor/asset_change_timer.cpp:53-88 | after StartTimer, a run without further StartTimer calls takes a bounded number of steps besides the clock's, can go on until nothing is under way, and has then begun a HandleAssetChanges for the key |
| AssetTimer.NeverMoreThanStarts | frameworks/innerkitsimpl/src/adaptor/asset_change_timer.cpp:53-80 | in every run, the HandleAssetChanges calls of a key begun and still to come never outnumber its StartTimer calls |
| AssetTimer.OwnKeyIff | frameworks/innerkitsimpl/src/adaptor/asset_change_timer.cpp:56 | a session and asset share their key with no other pair if and only if neither holds the separator |
| AssetTimer.NeverLostIff | frameworks/innerkitsimpl/src/adaptor/asset_change_timer.cpp:53-88 | the changes of a pair are answered for that pair in all runs if and only if neither part holds the separator |
| AssetTimer.SharedKeyRun | frameworks/innerkitsimpl/src/adaptor/asset_change_timer.cpp:56-63 | the run that shows it: one pair absorbs the change of another |
| AssetTimer.AssetChangeTimer.StartTimer | frameworks/innerkitsimpl/src/adaptor/asset_change_timer.cpp:53-64 | the table changed in place does what the state machine says |
| AssetTimer.AssetChangeTimer.StopTimer | frameworks/innerkitsimpl/src/adaptor/asset_change_timer.cpp:82-88 | likewise, with the table entry created when it is missing |
| ChangePipeline.FieldsAre | frameworks/innerkitsimpl/src/adaptor/flat_object_storage_engine.cpp:486-503 | a key is passed on exactly if it was there with the prefix in front |
| ChangePipeline.FindsAsset | frameworks/innerkitsimpl/src/adaptor/distributed_object_store_impl.cpp:255-264 | an asset key is found exactly for a non-empty dot-free name followed by .modifyTime or .size |
| ChangePipeline.AssetStep | frameworks/innerkitsimpl/src/adaptor/distributed_object_store_impl.cpp:231-243 | what one more changed key adds to the set of changed assets |
| ChangePipeline.WatcherProxy.OnChanged | frameworks/innerkitsimpl/src/adaptor/distributed_object_store_impl.cpp:226-253 | the watcher gets the plain keys in order; each changed asset is called back once with transfer enabled, and appended once without |
| ChangePipeline.WatcherProxy.OnChange | frameworks/innerkitsimpl/src/adaptor/flat_object_storage_engine.cpp:483-504 | from raw keys inserted and updated: the plain notification, and one asset call for each dot-free k with p_k.modifyTime or p_k.size among them |
| ChangePipeline.NotifyChange | frameworks/innerkitsimpl/src/adaptor/flat_object_storage_engine.cpp:465-481 | announced data goes to the observer of the session if it has one, with transfer disabled: the plain keys, prefix off where there is one, then each asset k exactly if p_k.modifyTime, p_k.size or one of the two without the prefix was announced |
| ChangePipeline.PipelinePlain | frameworks/innerkitsimpl/src/adaptor/flat_object_storage_engine.cpp:483-504 | both passes together give, in order, the stripped dot-free fields other than the device id |
| ChangePipeline.StripIs | frameworks/innerkitsimpl/src/adaptor/flat_object_storage_engine.cpp:472-479 | the prefix is taken off exactly where it is there |
| ChangePipeline.StrippedAre | frameworks/innerkitsimpl/src/adaptor/flat_object_storage_engine.cpp:472-479 | a key is announced exactly if it was changed with the prefix in front, or is one without it that was changed |
| ChangePipeline.PrefixedLeadsBack | frameworks/innerkitsimpl/src/adaptor/flat_object_storage_engine.cpp:465-504 | prefixed fields come back as the fields, in order, by either way |
| ChangePipeline.PlainMembers | frameworks/innerkitsimpl/src/adaptor/distributed_object_store_impl.cpp:231-236 | what the watcher is told plainly are the dot-free keys other than the device id |
| StorageEngine.Entries | frameworks/innerkitsimpl/src/adaptor/flat_object_storage_engine.cpp:229-233 | the batch made of a map overrides the table with that map, in whatever order it lists the entries |
| StorageEngine.FlatObjectStorageEngine.DoUpdateItems | frameworks/innerkitsimpl/src/adaptor/flat_object_storage_engine.cpp:217-243 | the batch built from a map overrides the table with it; an empty map is refused as not initialised |
| EngineLaws.SessionsIsolated | frameworks/innerkitsimpl/src/adaptor/flat_object_storage_engine.cpp:90-343 | over every run of calls, what a session has and every answer it gets is what it would have and get without the calls for other sessions |
| EngineLaws.CallLeavesOthers | frameworks/innerkitsimpl/src/adaptor/flat_object_storage_engine.cpp:90-343 | no call changes the table or the observer of another session |
| EngineLaws.SucceedsIff | frameworks/innerkitsimpl/src/adaptor/flat_object_storage_engine.cpp:90-343 | when exactly each of the six calls succeeds |
| EngineLaws.RefusedChangesNothing | frameworks/innerkitsimpl/src/adaptor/flat_object_storage_engine.cpp:90-343 | a refused call changes nothing, and says why by its status |
| EngineLaws.CreateThenDelete | frameworks/innerkitsimpl/src/adaptor/flat_object_storage_engine.cpp:245-265 | CreateTable succeeds exactly on an open engine without the table, and DeleteTable then restores the engine, an observer left over included |
| EngineLaws.RegisterThenUnRegister | frameworks/innerkitsimpl/src/adaptor/flat_object_storage_engine.cpp:287-343 | on a live table both succeed and the engine is as before without an observer; an observer that was there is kept by the one and removed by the other |
| EngineLaws.BatchIsWrites | frameworks/innerkitsimpl/src/adaptor/flat_object_storage_engine.cpp:217-243 | UpdateItems does what its entries do as single writes, in whatever order they list the data |
| ObjectTables.WithoutMembers | frameworks/innerkitsimpl/src/adaptor/distributed_object_store_impl.cpp:49-62 | erasing while walking removes exactly the objects of the session and keeps sessions distinct |
| ObjectTables.CreateAgrees | frameworks/innerkitsimpl/src/adaptor/distributed_object_store_impl.cpp:64-106 | CreateObject keeps the four tables in agreement, on success and on every failure |
| ObjectTables.WatchAgrees | frameworks/innerkitsimpl/src/adaptor/distributed_object_store_impl.cpp:139-168 | so does Watch of a live object |
| ObjectTables.UnWatchAgrees | frameworks/innerkitsimpl/src/adaptor/distributed_object_store_impl.cpp:170-189 | so does UnWatch of a live object |
| ObjectTables.DeleteAgreesIff | frameworks/innerkitsimpl/src/adaptor/distributed_object_store_impl.cpp:108-122 | a successful DeleteObject keeps them in agreement if and only if the session is not watched |
| ObjectTables.AgreeStep | frameworks/innerkitsimpl/src/adaptor/distributed_object_store_impl.cpp:37-189 | a call leaves the four tables in agreement if and only if it is not a successful deletion of a watched session |
| ObjectTables.AlwaysAgreeIff | frameworks/innerkitsimpl/src/adaptor/distributed_object_store_impl.cpp:37-189 | after every prefix of a run sessions of objects and tables are the same and distinct and watchers and observers name the same sessions, if and only if every deletion that succeeds is of an unwatched session |
| ObjectTables.StaleObserver | frameworks/innerkitsimpl/src/adaptor/flat_object_storage_engine.cpp:245-265 | the run without unwatching: a new watcher for the session created anew is never registered; it is refused if the new object has the address of the old one and accepted if not |
| ObjectTables.CreateRefines | frameworks/innerkitsimpl/src/adaptor/distributed_object_store_impl.cpp:64-106 | seen as a map from sessions to objects, CreateObject adds the session if it is not there, or changes nothing and fails |
| ObjectTables.DeleteRefines | frameworks/innerkitsimpl/src/adaptor/distributed_object_store_impl.cpp:108-122 | DeleteObject removes the session if it is there, or changes nothing and fails |
| ObjectTables.WatchRefines | frameworks/innerkitsimpl/src/adaptor/distributed_object_store_impl.cpp:139-168 | Watch of a live object succeeds exactly if its session has no watcher and the database agrees; then the engine tells the new watcher, and nothing else changes |
| ObjectTables.UnWatchRefines | frameworks/innerkitsimpl/src/adaptor/distributed_object_store_impl.cpp:170-189 | UnWatch of a live object succeeds exactly if its session has a watcher and the database agrees; then nobody is told, and nothing else changes |
| ObjectTables.WatchThenUnWatch | frameworks/innerkitsimpl/src/adaptor/distributed_object_store_impl.cpp:139-189 | watching and unwatching again restores the whole store |
| ObjectTables.GetIs | frameworks/innerkitsimpl/src/adaptor/distributed_object_store_impl.cpp:124-137 | Get finds an object exactly if it is the live object of the session |
| ObjectTables.DistributedObjectStore.RemoveCacheObject | frameworks/innerkitsimpl/src/adaptor/distributed_object_store_impl.cpp:49-62 | the erasing walk over the vector |
| ObjectTables.DistributedObjectStore.DeleteObject | frameworks/innerkitsimpl/src/adaptor/distributed_object_store_impl.cpp:108-122 | deletes the table first and the objects only on success |
| ObjectTables.DistributedObjectStore.Get | frameworks/innerkitsimpl/src/adaptor/distributed_object_store_impl.cpp:124-137 | the first object of the session, or an error |
| HandlerList.RemovedExactly | frameworks/jskitsimpl/src/adaptor/js_watcher.cpp:302-327 | on a duplicate-free list a removal takes out the one match and nothing else |
| HandlerList.RemovedKeeps | frameworks/jskitsimpl/src/adaptor/js_watcher.cpp:302-327 | a removal keeps exactly the other callbacks, and keeps the list duplicate-free |
| HandlerList.EventListener.Find | frameworks/jskitsimpl/src/adaptor/js_watcher.cpp:276-289 | finds a node of the callback exactly if there is one |
| HandlerList.EventListener.Clear | frameworks/jskitsimpl/src/adaptor/js_watcher.cpp:291-298 | empties the list |
| HandlerList.EventListener.Add | frameworks/jskitsimpl/src/adaptor/js_watcher.cpp:331-356 | prepends the callback on a new node exactly if it is absent |
| HandlerList.EventListener.Unlink | frameworks/jskitsimpl/src/adaptor/js_watcher.cpp:314-323 | relinks the heap list around one node and leaves the others in order |
| HandlerList.EventListener.Advance | frameworks/jskitsimpl/src/adaptor/js_watcher.cpp:302-327 | one turn of the walk: unlinks a match or steps over |
| HandlerList.EventListener.Del | frameworks/jskitsimpl/src/adaptor/js_watcher.cpp:300-329 | removes every match up to a node that cannot be read, and reports whether the list is empty |
| HandlerList.ChangeEventListener.DoAdd | frameworks/jskitsimpl/src/adaptor/js_watcher.cpp:373-386 | asks the store to watch if not watching, then adds |
| HandlerList.ChangeEventListener.DoDel | frameworks/jskitsimpl/src/adaptor/js_watcher.cpp:388-401 | deletes, and asks the store to unwatch if nobody is left |
| HandlerList.ChangeEventListener.DoClear | frameworks/jskitsimpl/src/adaptor/js_watcher.cpp:403-415 | empties, and asks the store to unwatch if watching |
| HandlerList.ListensAsSet | frameworks/jskitsimpl/src/adaptor/js_watcher.cpp:373-415 | a call adds its callback, takes out its callback, or empties the set; the list stays duplicate-free |
| HandlerList.ConsistentIff | frameworks/jskitsimpl/src/adaptor/js_watcher.cpp:373-415 | the flag says whether there is someone to call after a call if and only if the store agrees, where the call turns that |
| HandlerList.AlwaysConsistentIff | frameworks/jskitsimpl/src/adaptor/js_watcher.cpp:373-415 | after every prefix of a run the flag holds exactly when the list is non-empty, if and only if the store agrees to every call that needs it |
| HandlerList.AgreesAfterIff | frameworks/jskitsimpl/src/adaptor/js_watcher.cpp:373-415 | from any duplicate-free list, also after a refusal, when exactly a call leaves flag and list in agreement |
| BytesUtils.PutNumFrame | frameworks/innerkitsimpl/include/common/bytes_utils.h:28-39 | a write puts the value into its range with the last byte first, leaves every other byte alone, grows the vector just enough and fills a gap with zeros |
| BytesUtils.PutThenGet | frameworks/innerkitsimpl/include/common/bytes_utils.h:28-54 | reading at the same offset and length gives back what was written, or the length error exactly when the size no longer fits 32 bits |
| BytesUtils.GetNumBytes | frameworks/innerkitsimpl/include/common/bytes_utils.h:41-54 | a read succeeds exactly if the vector reaches to the end of its range, and answers its bytes, the last first |
| BytesUtils.PutApart | frameworks/innerkitsimpl/include/common/bytes_utils.h:28-54 | ranges apart do not disturb each other |
| BytesUtils.Buffer.PutNum | frameworks/innerkitsimpl/include/common/bytes_utils.h:28-39 | the loop, on the resized vector, writes the bytes reversed |
| BytesUtils.Buffer.GetNum | frameworks/innerkitsimpl/include/common/bytes_utils.h:41-54 | the loop reads them back through the pointer; too short a vector is an error and writes nothing |
| TypedValues.ValueReads | frameworks/innerkitsimpl/src/adaptor/flat_object_store.cpp:289-405 | an encoded value decodes to itself if and only if it is no string whose tagged size is one or wraps |
| TypedValues.StoredAs | frameworks/innerkitsimpl/src/adaptor/flat_object_store.cpp:289-315 | each kind of value as it is stored: its type byte, then a string and raw bytes as they are, a flag as one byte, a double with its last byte first |
| TypedValues.PutIs | frameworks/innerkitsimpl/src/adaptor/flat_object_store.cpp:179-186 | a put succeeds exactly if the engine is or can be opened, the session has a table and the database agrees, and then stores the bytes under the prefixed key and changes nothing else |
| TypedValues.GetIs | frameworks/innerkitsimpl/src/adaptor/flat_object_store.cpp:188-195 | a get succeeds exactly under those conditions and if the key is there, answers the bytes stored under the prefixed key, and changes no table |
| TypedValues.TypeReads | frameworks/innerkitsimpl/src/adaptor/flat_object_store.cpp:391-405 | its type decodes to the one it was put with, unless the size wraps to zero |
| TypedValues.PutThenGetValue | frameworks/innerkitsimpl/src/adaptor/flat_object_store.cpp:289-405 | after a successful put the value and its type are read back; the empty string is the length error |
| TypedValues.PutFrame | frameworks/innerkitsimpl/src/adaptor/flat_object_store.cpp:289-315 | a put changes what is read under no other key and in no other session, and a failed put changes nothing |
| TypedValues.StepRefines | frameworks/innerkitsimpl/src/adaptor/flat_object_store.cpp:179-186 | creating, putting and deleting act on the tables as on a plain map of typed values |
| TypedValues.GetsWhatWasPut | frameworks/innerkitsimpl/src/adaptor/flat_object_store.cpp:289-405 | after any run every get that the database answers reads the last value put under the key, and fails where there is none |
| FlatObjectStores.FlatObjectStore.PutDouble | frameworks/innerkitsimpl/src/adaptor/flat_object_store.cpp:289-296 | builds the bytes in a buffer and puts them under the prefixed key |
| FlatObjectStores.FlatObjectStore.PutBoolean | frameworks/innerkitsimpl/src/adaptor/flat_object_store.cpp:298-305 | likewise for one byte |
| FlatObjectStores.FlatObjectStore.PutString | frameworks/innerkitsimpl/src/adaptor/flat_object_store.cpp:307-315 | likewise, the string appended to the type byte |
| FlatObjectStores.FlatObjectStore.PutComplex | frameworks/innerkitsimpl/src/adaptor/flat_object_store.cpp:365-377 | likewise for raw bytes |
| FlatObjectStores.FlatObjectStore.GetDouble | frameworks/innerkitsimpl/src/adaptor/flat_object_store.cpp:317-331 | reads eight bytes behind the type byte, or reports why not and leaves the caller's value |
| FlatObjectStores.FlatObjectStore.GetBoolean | frameworks/innerkitsimpl/src/adaptor/flat_object_store.cpp:333-348 | reads the byte behind the type byte |
| FlatObjectStores.FlatObjectStore.GetString | frameworks/innerkitsimpl/src/adaptor/flat_object_store.cpp:350-363 | reads what follows the type byte; nothing there is an error |
| FlatObjectStores.FlatObjectStore.GetComplex | frameworks/innerkitsimpl/src/adaptor/flat_object_store.cpp:379-389 | erases the type byte |
| FlatObjectStores.FlatObjectStore.GetTypeOf | frameworks/innerkitsimpl/src/adaptor/flat_object_store.cpp:391-405 | reads the type byte |
| FlatObjectStores.FlatObjectStore.OnRetrieve | frameworks/innerkitsimpl/src/adaptor/flat_object_store.cpp:77-95 | the retrieve callback: empty data does nothing, other data overwrites, and completion is announced |
| FlatObjectStores.FlatObjectStore.FilterData | frameworks/innerkitsimpl/src/adaptor/flat_object_store.cpp:280-287 | the erasing loop leaves exactly the keys that are not there locally |
| FlatObjectStores.FlatObjectStore.OnDataChange | frameworks/innerkitsimpl/src/adaptor/flat_object_store.cpp:102-120 | the data-change callback: the missing keys are written and reported, and completion is announced |
| FlatObjectStores.FlatObjectStore.CheckRetrieveCache | frameworks/innerkitsimpl/src/adaptor/flat_object_store.cpp:258-266 | announces a cached session once more and forgets it |
| DataCallbacks.LocalDataWins | frameworks/innerkitsimpl/src/adaptor/flat_object_store.cpp:102-113 | with the local data read, a peer's data adds exactly the missing keys, alters none, and touches no other session |
| DataCallbacks.LocalDataWinsIff | frameworks/innerkitsimpl/src/adaptor/flat_object_store.cpp:102-113 | every local value survives if and only if the local data was read, or the write failed, or no value differs |
| DataCallbacks.DataChangeIdempotent | frameworks/innerkitsimpl/src/adaptor/flat_object_store.cpp:102-120 | the same data again changes nothing and reports nothing |
| DataCallbacks.ReportsMissing | frameworks/innerkitsimpl/src/adaptor/flat_object_store.cpp:102-120 | a data change reports exactly the entries that the local table was not read to have, in one call, if there are any; then the session, if it completes now |
| DataCallbacks.RetrieveReports | frameworks/innerkitsimpl/src/adaptor/flat_object_store.cpp:77-95 | a retrieval reports no change, only the session, if it completes now |
| DataCallbacks.ReportsWhatItAdds | frameworks/innerkitsimpl/src/adaptor/flat_object_store.cpp:99-122 | over any run of peers' data the keys reported for a session are exactly those that its table has gained |
| DataCallbacks.FirstWriterWins | frameworks/innerkitsimpl/src/adaptor/flat_object_store.cpp:99-122 | after any number of peers a key has its local value, or that of the first peer that sent it |
| DataCallbacks.AnnouncementsBalance | frameworks/innerkitsimpl/src/adaptor/flat_object_store.cpp:74-122 | in every run the cache holds no session twice, and announcements are two for each check (lines 258-266) that found the session plus one if it is cached |
| DataCallbacks.AnnouncedOnceBetweenChecks | frameworks/innerkitsimpl/src/adaptor/flat_object_store.cpp:74-122 | between two checks a session is announced at most once: exactly if a callback completes it that was not cached before |
| JsValues.CutAt | frameworks/jskitsimpl/src/common/js_util.cpp:88 | a C string ends at its first zero |
| JsValues.KeyExact | frameworks/jskitsimpl/src/adaptor/js_distributedobject.cpp:45-50 | a key without a zero reaches the native layer as it is if it is under 64 bytes, and cut to its first 63 otherwise |
| JsValues.TagsApart | interfaces/jskits/distributed_data_object.js:139-155 | no tag is mistaken for another, whatever follows it |
| JsValues.NativeRoundTrip | frameworks/jskitsimpl/src/adaptor/js_distributedobject.cpp:126-240 | put and get agree on the type and the value for everything the native layer can read back |
| JsValues.RawRoundTrip | frameworks/jskitsimpl/src/adaptor/js_distributedobject.cpp:66-240 | without the tags: what is put by the native interface is what its get returns, a text cut at its first zero |
| JsValues.TagSurvives | interfaces/jskits/distributed_data_object.js:139-171 | the tag tells what the text is for every value, also for an empty string and for one that begins like a tag |
| JsValues.SetThenGet | interfaces/jskits/distributed_data_object.js:139-171 | through all layers: a value that fits is seen as it is, cut at a zero byte, with undefined as null and an array buffer as what its text parses to; one that does not fit leaves what was there |
| JsValues.SetStores | interfaces/jskits/distributed_data_object.js:153-171 | a value that fits is stored as its type byte and its bytes, text behind the tag that says what it is, so that another device reads it; one that does not fit stores nothing |
| JsValues.MissingIsUndefined | interfaces/jskits/distributed_data_object.js:139-152 | a key that was never set reads as undefined |
| JsValues.RoundTripIff | interfaces/jskits/distributed_data_object.js:139-171 | on a key that held nothing, a value comes back if and only if it is of a type that is stored and no array buffer, its tagged text is at most 500 KiB and, if a string, it holds no zero byte |
| JsValues.SetFrame | frameworks/innerkitsimpl/src/adaptor/distributed_object_impl.cpp:40-47 | setting a property changes no other, but for the device id that an asset part records (DeviceRecorded) |
| JsValues.DeviceRecorded | frameworks/innerkitsimpl/src/adaptor/distributed_object_impl.cpp:40-47 | setting a value that is stored as text under a key with a dot leaves this device under the device-id key, so the native get returns it; any other set leaves that key as it was |
| JsValues.EmptyNeedsTag | frameworks/innerkitsimpl/include/common/string_utils.h:44-56 | the native layer alone loses the empty string, and the whole stack returns it |

## Left out

- Scheduler.TaskScheduler.Remove: covers what follows the wait; the wait itself, the callers that sleep in it and their wake-up are steps of SchedulerRuns.
- Scheduler.Node: only the interval is written through an iterator, as in the code; the other fields are constants.
- SchedulerRuns.CoreStep: the clock never goes back and at most 2^64 - 1 ids are issued; once destruction has begun only a running body still calls in; a body that waits for the end of its own run blocks itself and is not a step.
- SchedulerSafety.JoinTerminates: counts the worker's steps; that the operating system lets the worker take them, and that a running body ends, is not modelled.
- SchedulerSafety.ReachableSafe: a spurious return from a wait is the step that a wake-up would take.
- AssetTimer.AnsweredInTime: counts steps; that the executor takes them is not modelled. The clock can go on as far as it likes, so what is queued falls due.
- AssetTimer.DebounceLosesNothing: HandleAssetChanges is one step with an outcome; reading the asset and reporting it to the service are not modelled. ExecutorPool is not part of this repository and is given the scheduler's contract, with any number of entries under way.
- SoftBusAdapter.Adapter.SendData: says what one undisturbed call does; interleavings are in SoftBusRuns. The foreign calls Socket, Bind and SendBytes are a parameter or no step at all: their results change no state of the adapter.
- SoftBusCover.ReachableCoveredIff: a call of SendData under way counts as a flush to come, as the one step that can take that away finds no socket.
- SoftBusRuns.ReachableConserves: what is sent is what was copied into a buffer without failure; what a flush hands to SendBytes counts as sent whatever SendBytes returns, as in the code.
- ChangePipeline.WatcherProxy.OnChanged: the order in which changed assets are walked is that of a hash set and is left open.
- StorageEngine.FlatObjectStorageEngine.DoCreateTable: two calls for one session that both pass the first check are not interleaved; a new in-memory table is empty; synchronisation with other devices is not modelled.
- ObjectTables.AlwaysAgreeIff: each call is one step; callers pass objects that are alive, and a new object is never put at the address of a live one.
- HandlerList.EventListener.Del: the memory of an unlinked node is not tracked further; the comparison of a readable reference always succeeds, and Find reads every reference.
- TypedValues.GetsWhatWasPut: writes by peers and by the callbacks are not part of these runs; DataCallbacks speaks of them.
- FlatObjectStores.FlatObjectStore.GetComplex: what is stored must hold a type byte, as the code erases one without looking.
- FlatObjectStores.FlatObjectStore.GetBoolean: a stored byte other than zero and one, which no put writes, reads as true.
- FlatObjectStores.FlatObjectStore.OnDataChange: a callback is one step, so nothing is written locally between reading the table and writing the rest.
- JsValues.SetThenGet: strings are their UTF-8 bytes, so converting them, and where a long key is cut inside a character, is not modelled; JSON text is assumed to parse back to its value and to hold no zero byte; property definitions, assets as proxies and the version counter are left out. The script object is a value here, not a class.
- Progress notifications and their cache: one map entry per session, written and erased under one lock.
- SetStatusNotifier, device lists and status reports of the storage engine: forwarding.
- The collaboration_edit tree: forwarding to a closed database library.
- IPC proxies, callback stubs, cache manager calls, radar reports, logging and permission checks: their results are parameters.
- UvQueue: its rollback takes back the last queued argument rather than its own.
- The ani layer: its watcher repeats the list modelled in HandlerList.
- Memory exhaustion, real time and scheduling fairness.
