# Verified model of the core loop, its network plugin and its deferred transactions

This project models, in Dafny, the parts of the server core where several threads and
several calls have to fit together, and proves what they promise.

* **Deferred transactions** (`src/database/transaction.hpp`). A transaction object keeps, per
  collection, an append-only log of slots: writes, callables, and dependencies on slots of
  other objects. `update` decides whether to run, cuts one batch of one kind per collection
  and hands it to a pool that finishes it later. `TransactionLog` and `TransactionState` say
  what each operation does as functions on values; `Transaction` is the object as the program
  keeps it, a class whose methods are proved against those functions. `Scheduler` is a system
  of any number of objects with batches in flight, in which pushes, gates, cuts, executions
  and completions interleave freely; `SchedulerInvariant`, `DispatchOrder`,
  `SchedulerTheorems`, `Deletion`, `DeletionLimits`, `Progress`, `Blocking`,
  `DependencyTargets`, `Draining`, `Interleaving`, `IterationOrders` and
  `SchedulerWitnesses` prove its theorems over all runs and schedules.
* **Endpoints and inputs** (`src/core/coreloop_network_plugin.hpp`). Packet tasks and the tick
  share sharded lists, a registry of endpoints and a disconnect queue. `EndpointState` says
  what each critical section does, `NetworkPlugin` is the plugin as a class proved against
  it, `EndpointProtocol` interleaves the sections, and `EndpointInvariant`,
  `EndpointTheorems`, `EndpointPaths`, `EndpointDiscipline`, `EndpointDrops` and
  `EndpointWitness` prove its theorems. `LockOrder` models the same code one lock operation and one access at a time and
  proves that it cannot deadlock and what can race.
* **Pooled buffers** (`src/memory/per_thread_pool.hpp`, `src/core/coreloop.hpp`). `CoreLoop` has
  the pool and the self re-arming receive as classes; `PoolPeak` bounds what a pool makes.
  `BufferOwnership`, `BufferTheorems`, `Receives` and `BufferDrops` add them to the endpoint
  protocol and prove single ownership, what becomes of a completed receive, that recycling
  never disturbs a datagram, and which buffers are lost.
* **The reflection codec** (`src/database/bson_reflection_struct.hpp`). `KeyHash` is the key
  hash; `Reflection` writes a typed table of fields as a document tree and reads it back;
  `ReflectionLimits` finds exactly which types survive the round trip; `ReflectionRetyped` is
  about documents read by another version of their type; `ReflectionRecord` is
  the codec as classes that write through references and append in place.
* **Heart beat** (`src/core/coreloop.hpp`). `Heartbeat` is the pacing of the main loop.

`Wrappers` has the one datatype that several of them share.

Findings about the code that came out of the proofs:

* Effects of a log follow push order exactly if its batches are executed in dispatch order.
  The cursor moves past slots that are still in flight, so the pool is free to break this.
* An object can be told to go while one of its batches is in flight (`EarlyDeletion`). If all
  further slots finish in dispatch order, that can still happen if and only if the last slot
  of some log is done while a batch of that log is in flight (`TooEarlyExactly`); it never
  does if the last slot of each log is always marked after the batches before it
  (`DeletionSafe`).
* A dependency slot never becomes done. While it is the last of any collection, an object
  that has not been told to go yet is not told to, however long it has been flagged
  (`TrailingDependencyKeeps`, and a run with all jobs done in `KeptForEver`).
* A dependency blocks its log for ever, while the owner of its target can be found, if it
  names a dependency, itself or a later slot of its own log (`VainDependencyBlocks`, and a run that
  gets there in `DependencyOnDependency`). Where everything else is disciplined, pushing a
  dependency keeps the system able to drain, however pushes go on, if and only if its target
  exists at the push and is a job (`DependencyExactly`).
* A scan that reads other objects while they push may be no atomic scan at all
  (`ScanOfNoMoment`); it is that of its last read exactly if what it passed is still met then.
* The callable counter has 8 bits, so 256 queued callables look like none
  (`GateClosedBy256Callables`).
* An empty batch ends the whole pass. If two objects iterate some two collections in opposite
  order they can block each other for good; the system can always drain if and only if all
  orders are the same (`OrdersDecide`), and then every fair schedule drains it, update by
  update (`EveryFairScheduleDrains`) and step by step (`EveryInterleavedScheduleDrains`).
* `disconnect` called twice for one connection breaks an assertion of the tick
  (`DoubleDisconnect`), and so does a request, in the middle of a tick, for an endpoint
  that is only about to get its client; `DisciplineIsExact` has the exact condition.
* A tick asks three times, without the lock, whether something is empty. These are the only
  accesses that can race (`OnlyPeeksRace`), and they do (`PeekRaces`).
* A teardown loses the buffers that arrive in a shard after the same tick has collected it,
  and only those (`BuffersLostExactly`); they never return to their pool (`DroppedForever`,
  and a run that loses one in `LosesABuffer`).
* A nested document goes to the first struct member, whatever its key, so a type with two
  struct members on one level is not restored (`RestoresExactly`).
* The mean of a loop converges to the heart beat from below if its turns leave time to sleep
  (`Converges`), and to what a turn takes if each works a heart beat or longer
  (`HeavyConverges`).
* Line 233 of the codec names `tuple_element` without `_t`, which would send every member
  down the last branch. The model dispatches on the type of the member, as intended.

## Model

| member | source | states |
|---|---|---|
| TransactionLog.ScanMeaning | src/database/transaction.hpp:385-457 | A value is the result of the scan if and only if it is the longest run of jobs of one kind, behind met dependencies, that starts at the cursor, with the kind flag of its elements: a declarative meaning that fixes the result uniquely |
| TransactionLog.ScanStopsExactly | src/database/transaction.hpp:395-453 | A scan goes past a slot if and only if all jobs from the cursor to it are of one kind and no dependency up to it has a target that is known, was pushed and is not done: an unknown owner or a target not pushed yet holds nothing back |
| TransactionLog.AdvanceStaysUntouched | src/database/transaction.hpp:399-409 | Slots at or past the cursor are never pending or done, before and after any scan, so the two checks at the head of the loop never fire; a scan sets no done flag |
| TransactionLog.ScanOverTimeIsSweep | src/database/transaction.hpp:395-453 | A scan whose reads of other objects are spread over time, however these change in between, is the longest run of jobs of one kind behind dependencies that were met when read |
| TransactionLog.ScanLinearisesExactly | src/database/transaction.hpp:395-453 | It equals the atomic scan at its last read if and only if every dependency it passed is still met then |
| TransactionLog.ScanLinearises | src/database/transaction.hpp:395-453 | So it does whenever flags are only set in between |
| TransactionLog.ScanOfNoMoment | src/database/transaction.hpp:411-428 | If a target is pushed in between, the result may be that of no atomic scan under any view |
| TransactionLog.DrainLength | src/database/transaction.hpp:385-457 | With all dependencies met, the number of scans that empty a log is exactly the number of maximal same-kind runs among its remaining jobs (one, if only dependencies remain) |
| TransactionState.PushIsValid | src/database/transaction.hpp:301-381 | A push of any kind keeps the object's invariant: slots from the cursor on untouched, 8-bit counter equal to the queued callables modulo 256, dependencies never done |
| TransactionState.UpdateIsValid | src/database/transaction.hpp:144-298 | A whole update, deletion check, gate and pass, keeps the same invariant |
| TransactionState.GateMeaning | src/database/transaction.hpp:151-189 | For every object that is not told to go, flagged or not, the gate opens if and only if the number of queued callables is not a multiple of 256 or enough time has passed; one to 255 callables open it unless the object was told to go before |
| TransactionState.UpdateAnswer | src/database/transaction.hpp:144-190 | The caller is told to delete the object if and only if it is flagged and either was told so before, or every log is passed with its last slot, if any, done. Then it only remembers that; otherwise its flags stay and its 64-bit clock restarts if a pass starts and goes on if not |
| TransactionState.ClosedGateTakesNothing | src/database/transaction.hpp:183-189 | An update that is not let through dispatches nothing and leaves every log as it was |
| TransactionState.GateClosedBy256Callables | src/database/transaction.hpp:183-189 | After 256 pushes of callables to a new object no update dispatches anything or touches a log until the interval has elapsed; with one push more the gate is open |
| Transaction.Transaction.PushOperation | src/database/transaction.hpp:324-350 | Appends a write and returns its slot id; nothing else changes |
| Transaction.Transaction.PushCallable | src/database/transaction.hpp:353-368 | Appends a callable and raises the counter, with wrap-around |
| Transaction.Transaction.PushDependency | src/database/transaction.hpp:371-381 | Appends a dependency |
| Transaction.Transaction.GetPendingOperations | src/database/transaction.hpp:385-457 | In place, the batch, the flag, the cursor and the counter become what the scan of the specification says, for every registry of other objects |
| Transaction.CollectBatch | src/database/transaction.hpp:394-456 | The scanning loop computes that scan |
| Transaction.Transaction.Update | src/database/transaction.hpp:144-298 | The object ends and dispatches exactly as the specification of update says, and the caller is told to delete it exactly in the case that UpdateAnswer names |
| Transaction.Transaction.CompleteSlot | src/database/transaction.hpp:267-291 | The pool marks one slot done and no longer pending |
| Transaction.Transaction.CheckDeletion | src/database/transaction.hpp:154-178 | The deletion loop decides that every log is passed and its last slot done |
| SchedulerInvariant.RunKeeps | src/database/transaction.hpp:144-472 | The invariant of the whole system of objects, batches in flight, effects and honoured dependencies holds in every state of every run |
| SchedulerTheorems.ExactlyOnceFifo | src/database/transaction.hpp:300-456 | In every reachable state all batches ever cut from a log, concatenated, are its jobs below the cursor, in push order and each once; nothing at or past the cursor is pending or done |
| SchedulerTheorems.CallablesCounted | src/database/transaction.hpp:151-189 | In every reachable state the callable counter of every object is the number of its queued callables modulo 256; with 1 to 255 queued the gate opens without waiting, also for a flagged object, unless it was told to go before |
| SchedulerTheorems.PassAtAccumulatedTime | src/database/transaction.hpp:151-189 | In every run, once the clock of an object restarts and while, whenever its gate comes by, no callables are queued and it is not told to go, the first gate to open is exactly the first by which the elapsed times add up to the interval, whatever happens in between |
| SchedulerTheorems.CrossObjectOrder | src/database/transaction.hpp:411-428 | Once a dependency is passed whose target can be found, the target's effect precedes every effect behind the dependency, in every later state, whatever the completion order |
| SchedulerTheorems.CutExactly | src/database/transaction.hpp:395-456 | In every state of every run a cut moves the cursor exactly that far; the jobs it moves past become pending and nothing else of the log changes |
| SchedulerTheorems.CursorOnDependency | src/database/transaction.hpp:411-428 | A cut whose cursor stands on a dependency leaves it there if and only if the target can be found and is not done |
| SchedulerTheorems.DoneForever | src/database/transaction.hpp:265-291 | A slot is done only after its effect, and stays done |
| Deletion.DeletionCheckExactly | src/database/transaction.hpp:154-178 | If the last slot of each log of the object is marked done only after all earlier batches of that log, in whatever order those and all others finish, the check succeeds if and only if everything is passed and done and no log ends in a dependency |
| Deletion.DeletionSafe | src/database/transaction.hpp:146-178 | Under that condition on last slots alone, when an update first answers that the object can go, all its work is done and none of its batches is in flight |
| DeletionLimits.TooEarlyExactly | src/database/transaction.hpp:146-178 | From the end of any run, some continuation in which all further slots of the object finish in dispatch order leads to the object being told to go for the first time with a batch in flight, if and only if the last slot of some log of it is done while a batch of that log is in flight |
| DeletionLimits.TrailingDependencyKeeps | src/database/transaction.hpp:157-178 | From any state of any run in which a log ends in a dependency and its object has not been told to go, as long as nothing more is pushed to that log every update of the object, whatever the time and whatever its getter knows, answers that it is to be kept |
| SchedulerWitnesses.KeptForEver | src/database/transaction.hpp:157-178 | A run that ends with a flagged object whose jobs are all done and with nothing in flight, which every update in every continuation answers to keep, unless more is pushed |
| SchedulerTheorems.UpdateIsPath | src/database/transaction.hpp:144-298 | One update is a path of the system: its gate and one cut per collection reached, so theorems about runs are theorems about updates; it answers that the object can go exactly if it is flagged and told so, now or before, and then cuts nothing |
| SchedulerWitnesses.EarlyDeletion | src/database/transaction.hpp:165-177 | A run without that order in which every update of a flagged object answers that it can go while a batch is in flight, and effects are out of push order |
| DispatchOrder.PushOrderExactly | src/database/transaction.hpp:192-294 | The effects of a log follow push order throughout a run if and only if no batch of it was executed before an earlier one had taken effect |
| DispatchOrder.DrainedInPushOrder | src/database/transaction.hpp:192-294 | Under that condition a drained log has effected all its jobs in push order, for every interleaving with other logs and objects |
| DispatchOrder.BatchingRefinesSequential | src/database/transaction.hpp:221-291 | For every meaning of a piece of work, the store of a collection that one object works on is, after draining, the fold over the pushed jobs in push order |
| DispatchOrder.BatchingRefinesSequentialPerOwner | src/database/transaction.hpp:221-291 | Where several objects work on one collection, one whose work commutes with that of the others has, once drained, changed the store as if its jobs had been applied one by one in push order, undisturbed |
| Progress.SomeUpdateMoves | src/database/transaction.hpp:192-207 | With a common iteration order, backward dependencies on jobs, nothing scheduled for deletion and nothing in flight, whenever a slot is unpassed some object's open update raises a cursor, although an empty batch ends its pass |
| Draining.RoundShrinks | src/database/transaction.hpp:144-298 | A round in which every object with something left gets one open update, a move of its own, in any order with those of others and the moves of the pool, and which ends with nothing in flight, passes at least one slot |
| Draining.EveryFairScheduleDrains | src/database/transaction.hpp:144-298 | Every schedule of such rounds has passed every slot after at most as many rounds as there were unpassed slots, whatever the getters know |
| Draining.RunDrainsFairly | src/database/transaction.hpp:144-298 | So it is after every disciplined run, once pushing stops |
| Interleaving.TwoRoundsShrink | src/database/transaction.hpp:144-298 | With gates and cuts as separate steps, between which the pool and other updates may do anything: two rounds, in each of which every object with something left gets an open update and every batch in flight at the start finishes, pass at least one slot, with other batches in flight all along |
| Interleaving.EveryInterleavedScheduleDrains | src/database/transaction.hpp:144-298 | After every disciplined run, once pushing stops, every path made of such rounds has passed every slot after at most twice as many rounds as there were unpassed slots |
| Draining.RunCanAlwaysDrain | src/database/transaction.hpp:144-456 | Every disciplined run extends, without new pushes and by updates alone, to a state where every slot is passed and nothing is in flight |
| IterationOrders.OrdersMatter | src/database/transaction.hpp:192-207 | For any two orders that visit some two collections in opposite order a disciplined run reaches a state, nothing in flight, in which no update of any object ever moves anything and which no schedule drains |
| IterationOrders.OrdersDecide | src/database/transaction.hpp:192-207 | For objects over one set of collections, every disciplined run can go on to drain if and only if all iteration orders are the same |
| Blocking.VainDependencyBlocks | src/database/transaction.hpp:411-428 | From any state of any run on, a cursor never passes a dependency that names a dependency, itself or a later slot of its own log, as long as the getters find the owner of its target, and nothing behind it ever takes effect |
| DependencyTargets.DependencyExactly | src/database/transaction.hpp:370-428 | At the end of any disciplined run over one order, pushing a dependency leaves every disciplined continuation that ends with live objects able to drain, if and only if the target exists at the push and is a job |
| SchedulerWitnesses.DependencyOnDependency | src/database/transaction.hpp:370-381 | A run that pushes such a dependency, after which a pushed write never takes effect however the run goes on |
| NetworkPlugin.NetworkPlugin.HandleNetworkPacket | src/core/coreloop_network_plugin.hpp:204-229 | The section of the packet task registers the endpoint where it is new and appends the buffer to the list of its shard and endpoint, and changes nothing else, where the program's assertion holds, which RegistryOutsideTeardown shows of every run |
| NetworkPlugin.NetworkPlugin.CreateNewClients | src/core/coreloop_network_plugin.hpp:89-104 | The loop gives every new endpoint a client and one callback, in any order |
| NetworkPlugin.NetworkPlugin.Accumulate | src/core/coreloop_network_plugin.hpp:115-134 | The loop moves what a shard holds for known clients to the end of their lists and leaves the rest |
| NetworkPlugin.NetworkPlugin.DeliverClientInputs | src/core/coreloop_network_plugin.hpp:138-147 | Every client gets its whole list once, and the lists are cleared |
| NetworkPlugin.NetworkPlugin.Teardown | src/core/coreloop_network_plugin.hpp:157-190 | Tearing down removes the endpoint from data, registry and every shard, in that order |
| NetworkPlugin.NetworkPlugin.Tick | src/core/coreloop_network_plugin.hpp:86-196 | A tick nobody interrupts is the composition of its sections; requested endpoints are registered and distinct, as its assertion demands and the discipline of disconnects ensures |
| NetworkPlugin.TickIsRun | src/core/coreloop_network_plugin.hpp:86-196 | That composition is a run of the interleaved protocol from idle to idle |
| EndpointInvariant.RunKeeps | src/core/coreloop_network_plugin.hpp:86-242 | The invariant of registry, requests, conservation, sessions and delivery holds in every state of every disciplined run |
| EndpointTheorems.RegistryOutsideTeardown | src/core/coreloop_network_plugin.hpp:204-226 | In every interleaving, outside a teardown the registered endpoints are the disjoint union of clients and new endpoints, shards know exactly the endpoints they have lists for, all registered, and no assertion has failed |
| EndpointTheorems.InputsConserved | src/core/coreloop_network_plugin.hpp:106-147 | Without disconnects, delivered, then held by the client, then held by the shard is exactly what was stored, per network id and endpoint, in order |
| EndpointTheorems.InputsAccountedFor | src/core/coreloop_network_plugin.hpp:106-190 | With disconnects the same account closes, with what teardowns dropped |
| EndpointTheorems.CallbacksAlternate | src/core/coreloop_network_plugin.hpp:89-104 | For every endpoint new-client and disconnected callbacks alternate, starting with new-client, also with reconnects during teardown; inputs come only in between |
| EndpointTheorems.TickDelivers | src/core/coreloop_network_plugin.hpp:106-147 | What a shard or client holds when a tick starts is delivered in that tick, in order |
| EndpointTheorems.DeliveredByNextTick | src/core/coreloop_network_plugin.hpp:106-147 | What is stored at any moment, in the middle of a tick and in the noted race too, is delivered by the first tick that starts later, unless its endpoint is torn down before |
| EndpointDiscipline.DisciplineIsExact | src/core/coreloop_network_plugin.hpp:149-193 | At the end of any disciplined run, a disconnect request lets no assertion ever fail, all further requests disciplined, if and only if the endpoint is not requested already and has a client, or is new while no tick is under way |
| EndpointDrops.TeardownDropsExactly | src/core/coreloop_network_plugin.hpp:157-190 | In a disciplined run, what is dropped of an endpoint grows only when a shard of it is cleared, by exactly what packet tasks stored there since the same tick collected that shard |
| EndpointDrops.EraseDropsNothing | src/core/coreloop_network_plugin.hpp:159-160 | Erasing the data of a client drops nothing |
| EndpointWitness.DoubleDisconnect | src/core/coreloop_network_plugin.hpp:170-172 | A run with one undisciplined request, the second for the same client, in which the assertion of the tick fails |
| LockOrder.TickOrdered | src/core/coreloop_network_plugin.hpp:86-196 | Every acquisition of a tick respects disconnect < local[0] < ... < local[n-1] < shared, every access has its lock, whatever the tick finds to do, and it ends holding nothing |
| LockOrder.PacketTaskOrdered | src/core/coreloop_network_plugin.hpp:207-229 | So does every packet task |
| LockOrder.OnlyPeeksRace | src/core/coreloop_network_plugin.hpp:86-242 | In every reachable state of any number of ticks, packet tasks and disconnects, if two threads are about to use the same shard, registry or request list, one of them is a tick that asks without the lock whether it is empty |
| LockOrder.PeekRaces | src/core/coreloop_network_plugin.hpp:89-215 | A run in which a tick asks so about new endpoints while a packet task is about to add one |
| LockOrder.TeardownIsOneSection | src/core/coreloop_network_plugin.hpp:157-186 | In every reachable state, while a teardown is about to use the registry no other thread is in a section of any shard, and while it is about to clear a shard none is in a section of that shard or a later one: the granularity at which the protocol above interleaves |
| LockOrder.NoWaitCycle | src/core/coreloop_network_plugin.hpp:91-241 | In every reachable state of any number of ticks, packet tasks and disconnects the wait-for graph is acyclic |
| LockOrder.SomeoneMoves | src/core/coreloop_network_plugin.hpp:91-241 | In every reachable state with a lock held, a holder can step; with a task unfinished, some task can |
| LockOrder.EveryScheduleFinishes | src/core/coreloop_network_plugin.hpp:91-241 | Every schedule is over after exactly as many steps as there are lock operations and accesses, and not before |
| CoreLoop.PerThreadPool.Get | src/memory/per_thread_pool.hpp:35-45 | Takes an object out of the free queue, or makes a new one, whichever the concurrent queue yields |
| CoreLoop.PerThreadPool.Release | src/memory/per_thread_pool.hpp:48-52 | Puts the object back into the queue |
| PoolPeak.HistoryIsSound | src/memory/per_thread_pool.hpp:35-52 | In every history of a pool what is taken was with nobody, and everything ever made is either free or with a user, once |
| PoolPeak.MadeIsPeak | src/memory/per_thread_pool.hpp:35-52 | A pool makes no more objects than were out at one moment, plus one for each time its queue yielded none although it had some; if that never happens, exactly as many as were ever out at once |
| CoreLoop.CoreLoop.OnReceived | src/core/coreloop.hpp:339-358 | A completed receive releases or hands on its objects and re-arms itself with others |
| Receives.CompletionMeans | src/core/coreloop.hpp:339-358 | A datagram adds exactly one task, with the buffer, endpoint object and network id of the receive, and gives neither object back; an error adds none and gives both back; then objects are taken for the next receive, which is armed under the same id, and other receives stay |
| Receives.OnReceivedIsPath | src/core/coreloop.hpp:333-371 | In every reachable state a completion is two steps of the system; the datagram ends up unchanged in a buffer of its task with the address of its sender beside it, and the next receive is armed with other objects |
| BufferTheorems.SingleOwner | src/core/coreloop.hpp:333-371 | In every reachable state every object a pool ever made is at exactly one place, once: free, armed, with a task, in one list of a shard, with a client, with a user, or dropped |
| BufferTheorems.InputsIntact | src/core/coreloop_network_plugin.hpp:138-147 | Every buffer waiting for or handed to a client holds unchanged a datagram of that endpoint, and different buffers hold different datagrams |
| BufferTheorems.TaskFilesUnderSender | src/core/coreloop_network_plugin.hpp:204-232 | A packet task files its buffer under the sender and network id of the datagram in it, however long it waited |
| BufferDrops.DroppedForever | src/core/coreloop_network_plugin.hpp:160-183 | A buffer that a teardown dropped is in no later state in the queue of the pool, armed, with a task, in a list, with a client or with a user |
| BufferDrops.RunLosesDropped | src/core/coreloop_network_plugin.hpp:160-183 | The buffers lost are exactly those of the inputs the plugin dropped |
| BufferDrops.Projects | src/core/coreloop_network_plugin.hpp:86-242 | What the plugin does in any disciplined run of the system with pools is a disciplined run of the endpoint protocol, so every theorem about the latter holds of the former |
| BufferDrops.BuffersLostExactly | src/core/coreloop_network_plugin.hpp:157-190 | In every disciplined run with pools, the list of lost buffers of an endpoint grows only when a teardown clears a shard of it, by exactly the buffers that packet tasks filed there since the same tick collected that shard, in order |
| BufferDrops.LosesABuffer | src/core/coreloop_network_plugin.hpp:174-184 | A disciplined run that loses a buffer: it arrives between the collection and the clearing of its shard |
| KeyHash.HashOfCString | src/database/bson_reflection_struct.hpp:12-23 | The loop computes the hash of the bytes up to the first NUL |
| KeyHash.EmptyKey | src/database/bson_reflection_struct.hpp:14-16 | The hash of the empty key is 2166136261, and so is that of whatever starts with a NUL |
| KeyHash.OneMoreByte | src/database/bson_reflection_struct.hpp:16-20 | One more byte: the hash so far exclusive-or the byte, bit by bit, a negative char widened with ones, times 16777619 modulo 2^32 |
| KeyHash.StepIsInjective | src/database/bson_reflection_struct.hpp:18-19 | One step of the hash is injective in the running hash and in the byte |
| KeyHash.CommonSuffix | src/database/bson_reflection_struct.hpp:12-23 | Keys with a common suffix have the same hash if and only if what precedes it has |
| KeyHash.OneByteApart | src/database/bson_reflection_struct.hpp:12-23 | Keys of equal length that differ in exactly one byte never share a hash, for either sign of char |
| Reflection.RoundTrip | src/database/bson_reflection_struct.hpp:67-273 | On a type with distinct hashes and at most one struct member on each level, visiting the serialised document into any target restores every field at every depth, strings up to their first NUL, and no assertion fails |
| ReflectionLimits.RestoresExactly | src/database/bson_reflection_struct.hpp:123-150 | A type is restored for all values and targets if and only if on every level its member hashes differ and at most one member is a struct |
| ReflectionLimits.RoundTripExactly | src/database/bson_reflection_struct.hpp:238-241 | On such a type the very values come back if and only if no string has a NUL |
| ReflectionLimits.NumberedFieldsRestored | src/database/bson_reflection_struct.hpp:12-23 | Scalars whose names differ pairwise in one byte are always restored |
| ReflectionRetyped.ConvertMeans | src/database/bson_reflection_struct.hpp:67-76 | A number stored into a floating-point member keeps its amount, into a truth value it becomes whether it is not zero |
| ReflectionRetyped.ConvertToInteger | src/database/bson_reflection_struct.hpp:67-76 | Into an integer member it loses its fraction, towards zero, where it is in range; a 64-bit integer out of range stays the same modulo 2^32 |
| ReflectionRetyped.NumberGoesTo | src/database/bson_reflection_struct.hpp:67-93 | A number goes to the first member with the hash of its key if that is a number; an assertion fails if it is not; without such a member nothing changes |
| ReflectionRetyped.TextGoesTo | src/database/bson_reflection_struct.hpp:95-121 | The same for strings |
| ReflectionRetyped.DocumentGoesTo | src/database/bson_reflection_struct.hpp:123-150 | A document goes to the first struct member whatever the hash, unless a member before it, or any if there is no struct, has the hash: then an assertion fails |
| ReflectionRetyped.DocumentMeans | src/database/bson_reflection_struct.hpp:230-273 | A serialised document has one element per member, in order, with its name and string values up to their first NUL, its number as it is, and structs as documents of their own |
| ReflectionRetyped.ReadsOtherVersion | src/database/bson_reflection_struct.hpp:67-273 | A document written from a type and visited into any target of a version with other number types: every field at every depth ends up converted, and no assertion fails |
| ReflectionRetyped.ThroughOtherVersion | src/database/bson_reflection_struct.hpp:67-273 | Written, read and written again by another version, and read back, everything comes back but what follows a NUL, if the other version can hold the numbers |
| ReflectionRecord.BsonReflection.CheckAndStore | src/database/bson_reflection_struct.hpp:67-93 | Where no assertion fails, writes the number, converted, to the first numeric member with the hash and never stops the visit |
| ReflectionRecord.BsonReflection.CheckAndRecurse | src/database/bson_reflection_struct.hpp:123-150 | Visits the document into the first struct member, whatever its key, unless an assertion about an earlier member fails |
| ReflectionRecord.BsonReflection.VisitAll | src/database/bson_reflection_struct.hpp:193-207 | Every element is visited; the references end as the specification says |
| ReflectionRecord.BsonReflection.SerializeMembers | src/database/bson_reflection_struct.hpp:230-266 | Appends exactly the members from the given one on |
| ReflectionRecord.Copy | src/database/bson_reflection_struct.hpp:188-273 | Serialising one record and visiting into another makes the other equal, at every depth, whatever it held |
| Heartbeat.CoreLoop.RunTick | src/core/coreloop.hpp:227-249 | One turn measures, averages, works and sleeps as the specification says; the mean is never negative |
| Heartbeat.LoopFollowsMean | src/core/coreloop.hpp:227-249 | The loop's mean follows the recurrence the bounds are about |
| Heartbeat.TurnLasts | src/core/coreloop.hpp:238-247 | A turn with no time to sleep lasts as long as its work and what follows; with time to sleep it lasts, up to the end of the sleep, twice the heart beat less the mean, rounded down |
| Heartbeat.Contraction | src/core/coreloop.hpp:233-247 | With e the mean less the heart beat, 0.9e - 0.05 < e' always, and e' <= 0.9e when there is time to sleep and nothing follows the sleep |
| Heartbeat.ErrorBand | src/core/coreloop.hpp:232-247 | After n turns -0.5 - 0.9^n·abs(e0) <= e <= 0.9^n·abs(e0) |
| Heartbeat.ErrorBounds | src/core/coreloop.hpp:232-249 | The sharper bounds with sign, the lower one for every load, the upper one with time spent after the sleep |
| Heartbeat.Converges | src/core/coreloop.hpp:232-247 | The mean converges to the heart beat: for every distance there is a number of turns after which every calm run stays that close, and no higher |
| Heartbeat.SettlesFromStart | src/core/coreloop.hpp:219-250 | A loop whose turns each work less than a heart beat settles at the heart beat from below |
| Heartbeat.LoadBand | src/core/coreloop.hpp:227-249 | For every load: after n turns the mean is between the least time a turn takes and the longer of heart beat and longest work plus the longest time after a sleep, but for 0.95^n of what it was outside of that |
| Heartbeat.HeavyLoad | src/core/coreloop.hpp:227-249 | If every turn works the same, a heart beat or more, the distance of the mean to what a turn takes shrinks to 0.95^n and keeps its sign, from above exactly so |
| Heartbeat.HeavyConverges | src/core/coreloop.hpp:227-249 | Such a mean converges to what a turn takes, from whatever it was |

## Left out

- MongoDB and BSON: bulk operations, validation, reply handling and the byte layout belong to foreign libraries. Applying a piece of work is an arbitrary function, a document is a tree, and strings are assumed to be valid UTF-8, on which the foreign iterator would otherwise stop.
- The mapping from operation types to driver calls (lines 223-250 of the transaction file): the operation type and its documents are carried along unchanged.
- `src/database/database.hpp` and the pool behind `execute`: only that a batch is executed later, at any time.
- Transaction.Transaction: a second `init` of an object, move construction and assignment, and wrap-around of 64-bit slot ids are not modelled. The record of a collection, which the program updates through a pointer, is stored back at the end of a scan, so concurrent access to one record within one call is not captured.
- Transaction.CollectBatch: lowers the callable counter once by the number of callables at the end of the scan instead of once for each slot.
- Objects never disappear from `Scheduler`: destruction after an update returned false is not modelled. The getter knows an arbitrary set of objects at each cut.
- DispatchOrder.BatchingRefinesSequential: is about a collection in which one object has work, and its companion about work that commutes with that of other objects; between objects the program fixes no other order than that of dependencies, for which see CrossObjectOrder.
- NetworkPlugin.NetworkPlugin.DeliverClientInputs: delivery to all clients is one step of the protocol; a client that releases a buffer while `client_inputs` still runs is not modelled.
- The theorems about endpoints assume that `disconnect` keeps to the condition of EndpointDiscipline.DisciplineIsExact; of other requests they say only that an assertion can fail.
- LockOrder.OnlyPeeksRace: leaves out the data of clients, which has no lock; only the tick and the tasks it waits for use it.
- LockOrder.SomeoneMoves: callbacks are assumed to take none of these locks, and mutexes to be exclusive and not re-entrant. Which branches a task takes is arbitrary.
- CoreLoop.PerThreadPool.Get: the per-thread allocator behind the queue only ever makes new objects; construction and destruction of objects is reduced to their contents becoming undefined.
- KeyHash.HashOf: stands for both hashes of a name; `traits/string_literal.hpp`, which hashes member names, is not part of this model.
- ReflectionRecord.BsonReflection.CheckAndRecurse: a nested record is visited as a record of its own and put back, so references shared between members are not captured. Out-of-range conversion from double wraps here, where the language leaves it open, and doubles are real numbers; ThroughOtherVersion counts a 64-bit integer as held by a double only up to 2^53. `fields` and its cached document are left out.
- Heartbeat.CoreLoop: time is whole milliseconds, sleeps are exact and the mean is a real number; rounding of floats and clocks is not modelled.
- Fiber pools, counters, barriers, starting and stopping threads, sockets, `send_data`, plugin detection, `coreloop_scheduled_tick.hpp`, `coreloop_user_tick_plugin.hpp`, `coreloop_palanteer_tick_time.hpp`, `fixed_string.hpp` and `main.cpp`: foreign semantics or thin code that would add only easy members.
