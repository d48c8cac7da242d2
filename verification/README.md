# A verified model of asio-grpc

asio-grpc runs gRPC's completion queue as an Asio execution context. This project models four parts
of it in Dafny and proves what they promise, over every run, schedule and input:

1. **The event loop and its cross-thread work queue.** `EventLoop` is a step machine with one atomic
   access per step: any number of producer threads with program counters, one consumer running
   `process_work`, spurious and real CAS failures, reuse of delivered operations, and a map from each
   operation to its `next` field as the heap. `WorkPipeline` is the abstract machine: a FIFO with an
   active flag, followed by plain sequences. `EventLoopRefinement` shows that the first refines the
   second; `EventLoopSafety`, `EventLoopTheorems`, `EventLoopRounds` and `EventLoopStopping` state what
   follows from it, and `EventLoopExamples` has runs, step by step.
   `IntrusiveQueues` has the list code as heap classes.
2. **Ownership and work accounting.** `Ownership` (memory, owning pointers, guards),
   `PointerScripts` (any use of any number of owning pointers), `Submission` (submitting and
   completing operations), `SubmissionRuns` (any number of submissions at once), `WorkTrackers` (tracking executors).
3. **`repeatedly_request`** in its callback, sender and coroutine forms. `RequestSpec`,
   `RequestSenderSpec` and `RequestAwaitableSpec` are the state machines and their theorems;
   `RepeatedlyRequest`, `RepeatedlyRequestSender` and `RepeatedlyRequestAwaitable` are classes with the
   source's fields, each method of which is proved to be exactly one step of the state machine.
   `RequestHistory`, `RequestSenderHistory` and `RequestAwaitableHistory` say, from the events of a run
   alone, how often each thing happened in it and where everything went.
4. **The double-buffered file transfer** of the client and server examples: `FileTransfer`
   and `FileReceive`.

Destructors are explicit calls of `Destroy`, exceptions are outcome values, and what other threads, gRPC
or a caller decide is a parameter or an event that the theorems quantify over.

## Where the code falls short, and exactly when

Each result is an equivalence over all runs or inputs, with a failing input beside it.

- A context whose count is zero is documented to become stopped. `run` loads the count before it resets
  `stopped`; a stop in between is erased, and `run` then never returns. In every run, a loop at zero work
  has no stop coming if and only if a reset was taken at zero work with nobody about to stop, and neither
  work nor a call of `stop` came after it (`EventLoopStopping.StrandedIffErased`,
  `EventLoopExamples.StrandedRun`).
- Operations popped into the local variable of `process_local_queue` are lost, with their work
  never returned, if and only if a handler throws before the last of them was popped
  (`EventLoopTheorems.LostIffThrowMidBatch`, `EventLoopExamples.LostRun`).
- The sender form never signals its receiver if and only if stop is requested between the check and the
  first request, whose result `start` drops, or re-arming throws (`RequestSenderSpec.SilentExactly`,
  `RequestSenderSpec.SilentSchedule`, `RequestSenderSpec.SilentRearm`).
- A callback operation is lost if and only if allocating the RPC context throws while re-arming, or the
  loop drops it from its queue because another handler throws (`RequestSpec.LostExactly`,
  `RequestSpec.LostSchedule`, `RequestSpec.DroppedSchedule`).
- A coroutine operation is lost if and only if its coroutine ends where the guard in its body is not armed
  (discarded before the body is entered, the RPC context cannot be made, or, after the guard was released,
  the handler cannot be copied or the successor not spawned), or the loop drops the coroutine's entry or
  the queued operation (`RequestAwaitableSpec.LostExactly`, `RequestAwaitableSpec.LostUnentered`,
  `RequestAwaitableSpec.LostUnmade`, `RequestAwaitableSpec.LostUnspawned`,
  `RequestAwaitableSpec.LostUncopied`, `RequestAwaitableSpec.DroppedOperation`,
  `RequestAwaitableSpec.DroppedCoroutine`). Its buffer is lost if and only if the loop drops it
  (`RequestAwaitableSpec.BufferLostExactly`, `RequestAwaitableSpec.DroppedBuffer`).
- In the coroutine form one request is made after the stop flag is set if and only if a coroutine was
  already spawned and its body is then entered (`RequestAwaitableSpec.StopBound`,
  `RequestAwaitableSpec.LateRequest`).
- `AllocatedPointer`'s move assignment abandons what the target owned: every block is freed exactly
  once if and only if no move assignment meets an owning target
  (`PointerScripts.FreedOnceIffNeverOverwritten`, `PointerScripts.OverwriteExample`). It also keeps the
  target's allocator: no pointer ever owns a block of a foreign allocator if and only if no move
  assignment takes a block across allocators (`PointerScripts.MatchedIffNeverCrossed`,
  `PointerScripts.CrossingExample`).
- The server opens its output without truncating it: over an existing file the output is what was
  received if and only if the old file was no longer (`FileReceive.StaleTail`,
  `FileReceive.StaleTailExample`).
- The client throws at its first read if and only if the file is empty (`FileTransfer.SendFile`).

## Premises

- Atomics are sequentially consistent; the memory orders in the source are weaker.
- A gRPC tag is delivered once per started operation, and an alarm once per `Set`. Making a gRPC request
  does not throw.
- At most one thread runs the loop of a context. Only operations that are not already submitted are
  submitted, as the intrusive `next` field demands.
- Block numbers stand for addresses that are never reused. In `EventLoop`, by contrast,
  operations are reused freely.
- A prepaid submission uses a unit of work that its submitter already holds, as
  `add_operation` and `add_local_operation` do in `repeatedly_request`.
- The tracking completion handler that an operation carries holds a unit of its own; it is counted
  in `WorkTrackers` and not in the contribution of the operation.
- The stop flags start out false, being value-initialised (src/agrpc/detail/utility.hpp:126-130). The flag
  is read once per event: a stop that lands after that read and before the request acts like one right
  after the event, so "after the flag is set" in the stop bounds means between events.
- `start` of the sender form is `noexcept`, so its allocation succeeds or the program ends. Spawning a
  coroutine counts one unit of work until its body has been entered.
- `when_both` is a join of its two operations, which may happen in either order. A failed read of a
  message leaves its buffer as it was. File writes succeed; file reads fail only at the end.

## Model

| member | source | states |
|---|---|---|
| EventLoopRefinement.InitialRefines | src/agrpc/grpcContext.hpp:208-215 | a new context, its remote queue inactive, refines the empty pipeline |
| EventLoopRefinement.CasPushes | src/agrpc/detail/atomicIntrusiveQueue.hpp:64-73 | whatever happened to `head` since it was read, a return to the same pointer included, a successful CAS puts the item in front of the current chain, so ABA is harmless |
| EventLoopRefinement.StopMarkActivates | src/agrpc/detail/atomicIntrusiveQueue.hpp:52-57 | `try_mark_active` activates an inactive queue and leaves an active one and its chain alone |
| EventLoopRefinement.ReverseOneCells | src/agrpc/detail/intrusiveQueue.hpp:55-61 | one turn of `make_reversed` on cells moves one element from the unreversed chain to the front of the reversed one |
| EventLoopRefinement.AppendCellsJoins | src/agrpc/detail/intrusiveQueue.hpp:94-110 | `append` on cells concatenates the represented sequences |
| EventLoopRefinement.PushBackCellsAppends | src/agrpc/detail/intrusiveQueue.hpp:80-92 | `push_back` on cells appends to the represented sequence |
| EventLoopRefinement.PopFrontCellsDrops | src/agrpc/detail/intrusiveQueue.hpp:70-78 | `pop_front` on cells leaves the rest of the sequence, with a null tail iff it is empty |
| EventLoopRefinement.ListsAfterTryDeactivate | src/agrpc/detail/atomicIntrusiveQueue.hpp:75-84 | the CAS to the sentinel succeeds iff the FIFO is empty, and does what the FIFO does |
| EventLoopRefinement.ListsAfterExchange | src/agrpc/detail/atomicIntrusiveQueue.hpp:96-97 | exchanging a non-empty active queue takes all items, and what is taken is an item, never the sentinel |
| EventLoopRefinement.ListsAfterAppend | src/agrpc/detail/grpcContextImplementation.ipp:124-133 | a fully reversed batch is not empty and joins the local queue in enqueue order |
| EventLoopRefinement.ProduceRefines | src/agrpc/detail/grpcContextImplementation.ipp:85-92 | every step of a thread in `add_remote_operation`, `stop` or `work_finished` refines a step of the pipeline |
| EventLoopRefinement.DequeueRefines | src/agrpc/detail/atomicIntrusiveQueue.hpp:75-98 | every step of `try_mark_inactive_or_dequeue_all` refines a step of the pipeline |
| EventLoopRefinement.HandleRefines | src/agrpc/detail/grpcContextImplementation.ipp:94-98 | local pushes, stops, returned units, returns and throws inside `complete` refine the pipeline |
| EventLoopRefinement.LoopRefines | src/agrpc/detail/grpcContextImplementation.ipp:153-206 | every other step of `process_work` refines a step of the pipeline |
| EventLoopRefinement.StepRefines | src/agrpc/detail/grpcContextImplementation.ipp:85-206 | every step of the pointer machine, by any thread and with any CAS outcome, is the same step of the abstract pipeline with the same visible effects |
| EventLoopRefinement.RunRefines | src/agrpc/detail/grpcContextImplementation.ipp:85-206 | every run of the pointer machine is a run of the abstract pipeline |
| LinkedCells.ListUnique | src/agrpc/detail/intrusiveQueue.hpp:51-66 | the chain reached from a pointer is unique |
| EventLoopTheorems.StepKeepsGood | src/agrpc/detail/grpcContextImplementation.ipp:85-206 | refinement, order, exact work count and visibility of stop are kept by every step |
| EventLoopTheorems.RunKeepsGood | src/agrpc/detail/grpcContextImplementation.ipp:85-206 | and hence by every run |
| EventLoopTheorems.RemoteOrder | src/agrpc/detail/atomicIntrusiveQueue.hpp:64-98 | in every run: operations delivered, then those in transit, then the reversed chain from `head`, is the sequence of pushes in CAS order; nothing is lost, duplicated or reordered |
| EventLoopTheorems.CompletionOrder | src/agrpc/detail/grpcContextImplementation.ipp:124-145 | in every run completions are the arrivals that were not lost, in order of arrival; remote ones arrive in CAS order and local ones in push order; with none lost they are exactly the first arrivals |
| EventLoopTheorems.ProducerOrder | src/agrpc/detail/atomicIntrusiveQueue.hpp:64-73 | for each producer, what it submitted is what it pushed, in that order, followed by the operation it is still pushing |
| EventLoopTheorems.WakeUpToken | src/agrpc/detail/atomicIntrusiveQueue.hpp:36-84 | in every run the queue is inactive and empty, or exactly one obligation to look at it exists; wake-ups minus deactivations is one iff it is active |
| EventLoopTheorems.CallsAreLegal | src/agrpc/detail/atomicIntrusiveQueue.hpp:86-98 | the alarm is never set while pending, dequeuing is never entered inactive, and the exchange always yields an item |
| EventLoopTheorems.NoLostWakeUp | src/agrpc/detail/grpcContext.ipp:75-105 | a consumer about to block, with any number of gRPC operations in flight, has empty local queues, and queued work or a stop request only while the thread that will wake it is still in `enqueue` or `stop` |
| EventLoopTheorems.DequeueAllContract | src/agrpc/detail/atomicIntrusiveQueue.hpp:75-98 | a call with producers interfering at every step returns empty iff it leaves the queue inactive; what waited or arrived meanwhile is, in order, what was taken followed by what still waits |
| EventLoopTheorems.ZeroWorkIffIdle | src/agrpc/detail/grpcContext.ipp:97-105 | the work count is never negative and is zero iff nothing is queued, in flight, running, being submitted, held or lost |
| EventLoopTheorems.StopIffLastUnit | src/agrpc/detail/grpcContext.ipp:99-105 | whoever returns a unit (the loop, a handler or another thread) goes on to stop the context iff that was the last unit anywhere |
| EventLoopStopping.ZeroWorkStops | src/agrpc/grpcContext.hpp:158-174 | in every run without a reset at zero work, a loop whose count is zero is stopped or about to be, and if it is about to block some thread will wake it |
| EventLoopStopping.StrandedIffErased | src/agrpc/detail/grpcContextImplementation.ipp:188-206 | in every run a loop at zero work is stopped or about to be iff it is not so that a reset was taken at zero work with nobody about to stop and neither work nor a call of `stop` came after it |
| EventLoopStopping.StrandedForGood | src/agrpc/detail/grpcContextImplementation.ipp:188-206 | `run`, once its loop has no work and no stop coming, stays in it in every continuation without new work or calls of `stop` |
| EventLoopExamples.StrandedRun | src/agrpc/detail/grpcContextImplementation.ipp:190-195 | a run that ends with `run` blocked, no work, not stopped and no other thread inside |
| EventLoopExamples.LostRun | src/agrpc/detail/grpcContextImplementation.ipp:135-145 | a run in which a handler's throw loses an operation and leaves its unit counted |
| EventLoopExamples.RemoteRun | src/agrpc/detail/grpcContextImplementation.ipp:85-145 | a run in which an operation enqueued by another thread wakes the consumer and is completed |
| EventLoopTheorems.DrainLeavesNothing | src/agrpc/detail/grpcContext.ipp:44-69 | draining alone ends only with all queues empty, no event pending and the remote queue inactive; remaining work is held by trackers or was lost |
| EventLoopTheorems.LostIffThrowMidBatch | src/agrpc/detail/grpcContextImplementation.ipp:135-145 | operations are lost iff a handler throws while operations popped with its own still wait |
| EventLoopTheorems.ConsumerNeverStuck | src/agrpc/detail/grpcContextImplementation.ipp:153-186 | the consumer can always take its next step, without relying on any gRPC operation being ready, except when blocking for an event with nothing of its own to do and no alarm pending; every pointer it follows is an operation |
| EventLoopRounds.Entry | src/agrpc/detail/grpcContextImplementation.ipp:188-206 | the consumer enters the loop, in the mode asked for, iff it is called to drain or at a count other than zero |
| EventLoopRounds.Exit | src/agrpc/detail/grpcContextImplementation.ipp:153-186 | it leaves iff a handler throws, the check finds the context stopped outside draining, or a poll or drain times out with nothing pending |
| EventLoopRounds.Returns | src/agrpc/detail/grpcContextImplementation.ipp:200-216 | in every run, `run` returns only by an exception or stopped, and a time-out returns only with no operation waiting that the consumer knows of |
| EventLoopRounds.GoesOn | src/agrpc/detail/grpcContextImplementation.ipp:163-185 | a check that finds the context not stopped polls, without blocking iff operations are waiting, and then a new round follows whatever the poll yields |
| EventLoopRounds.RoundCompletes | src/agrpc/detail/grpcContextImplementation.ipp:153-166 | by the stop check of a round, with producers interfering at every step, everything that was in the local queue at its beginning and, if flagged, everything in the remote queue has been completed, in that order |
| EventLoopRounds.Deliveries | src/agrpc/detail/grpcContextImplementation.ipp:135-185 | in every run each gRPC completion and each operation taken runs its handler once and nothing else does; what was started and not taken is still in the completion queue |
| EventLoopRounds.StoppedUntilReset | src/agrpc/detail/grpcContext.ipp:75-86 | in every run `stopped` holds iff it was set, by another thread, a handler or the consumer itself, and not reset since |
| EventLoopRounds.DueOnlyAtZero | src/agrpc/detail/grpcContextImplementation.ipp:190-194 | the consumer is about to set `stopped` itself iff it found the count at zero on entry or returned the last unit, and has not done so yet |
| EventLoopRounds.ProducerNeverStuck | src/agrpc/detail/atomicIntrusiveQueue.hpp:64-73 | every thread inside `enqueue`, `stop` or `work_finished` can take its next step, and its CAS can succeed iff `head` is what it read |
| EventLoopRounds.ConsumerGoesOn | src/agrpc/detail/grpcContextImplementation.ipp:124-186 | at every point of the loop but a blocking `get_next_event` the consumer can take its next step |
| EventLoopTheorems.LockFree | src/agrpc/detail/atomicIntrusiveQueue.hpp:64-73 | the non-spurious CAS failures of one `enqueue` are at most the changes of `head` during it |
| EventLoopTheorems.RetriesCharged | src/agrpc/detail/atomicIntrusiveQueue.hpp:64-73 | the same as a potential argument from any point inside `enqueue` |
| IntrusiveQueues.IntrusiveQueue.constructor | src/agrpc/detail/intrusiveQueue.hpp:31-31 | a new queue is empty |
| IntrusiveQueues.IntrusiveQueue.Move | src/agrpc/detail/intrusiveQueue.hpp:37-40 | move construction takes all items and empties the source |
| IntrusiveQueues.IntrusiveQueue.MoveAssign | src/agrpc/detail/intrusiveQueue.hpp:44-49 | move assignment swaps the contents, also with itself |
| IntrusiveQueues.IntrusiveQueue.MakeReversed | src/agrpc/detail/intrusiveQueue.hpp:51-66 | reverses any chain in place; the result is a valid queue of the reversed sequence |
| IntrusiveQueues.IntrusiveQueue.Empty | src/agrpc/detail/intrusiveQueue.hpp:68-68 | true iff the queue holds no item |
| IntrusiveQueues.IntrusiveQueue.PopFront | src/agrpc/detail/intrusiveQueue.hpp:70-78 | removes and returns the first item, keeping the queue valid |
| IntrusiveQueues.IntrusiveQueue.PushBack | src/agrpc/detail/intrusiveQueue.hpp:80-92 | appends one item, keeping the queue valid |
| IntrusiveQueues.IntrusiveQueue.LinkTail | src/agrpc/detail/intrusiveQueue.hpp:107-107 | linking the tail to a disjoint chain concatenates |
| IntrusiveQueues.IntrusiveQueue.Append | src/agrpc/detail/intrusiveQueue.hpp:94-110 | concatenates and empties the source, also when the source is the queue itself |
| IntrusiveQueues.CommandMoves | src/agrpc/detail/intrusiveQueue.hpp:37-110 | for each item, what one command takes from the queues it adds to the free items and the other way round |
| IntrusiveQueues.ExecuteConserves | src/agrpc/detail/intrusiveQueue.hpp:37-110 | no command drops an item, puts it in two queues or twice in one |
| IntrusiveQueues.OnePlaceApart | src/agrpc/detail/intrusiveQueue.hpp:37-110 | different queues share no item |
| IntrusiveQueues.Perform | src/agrpc/detail/intrusiveQueue.hpp:37-110 | one command on one of any number of heap queues changes exactly the named queues, as sequences |
| IntrusiveQueues.RunScript | src/agrpc/detail/intrusiveQueue.hpp:37-110 | any script on any number of heap queues yields the sequences it computes, every item still in exactly one place |
| Ownership.AllocatedPointer.constructor | src/agrpc/detail/allocate.hpp:44-47 | wraps a block of an allocator |
| Ownership.AllocatedPointer.Move | src/agrpc/detail/allocate.hpp:52-55 | ownership moves, the source owns nothing |
| Ownership.AllocatedPointer.MoveAssign | src/agrpc/detail/allocate.hpp:57-64 | overwrites the target without freeing; self-assignment does nothing |
| Ownership.AllocatedPointer.Destroy | src/agrpc/detail/allocate.hpp:66-72 | frees the owned block, if any, once |
| Ownership.AllocatedPointer.Release | src/agrpc/detail/allocate.hpp:90-90 | gives up the block without freeing it |
| Ownership.AllocatedPointer.Reset | src/agrpc/detail/allocate.hpp:92-96 | frees the owned block at once and owns nothing afterwards |
| Ownership.AllocationGuard.Release | src/agrpc/detail/allocate.hpp:133-137 | hands the block to an owning pointer |
| Ownership.AllocationGuard.Destroy | src/agrpc/detail/allocate.hpp:125-131 | returns the raw memory iff it was not handed on |
| Ownership.AllocateObject | src/agrpc/detail/allocate.hpp:147-157 | a pointer to a new block, or an exception and no block kept, whichever of allocation and construction throws |
| Ownership.WorkGuard.Destroy | src/agrpc/detail/utility.hpp:193-217 | returns one unit of work iff still armed |
| PointerScripts.CommandMoves | src/agrpc/detail/allocate.hpp:44-96 | each command keeps, for each block of each allocator, the number of places it is in |
| PointerScripts.ScriptKeepsOnePlace | src/agrpc/detail/allocate.hpp:35-100 | in any script each block is owned by one pointer, or was freed, released or abandoned, once |
| PointerScripts.Destinations | src/agrpc/detail/allocate.hpp:66-96 | in any script exactly `reset` and destruction free, and exactly `release` releases, what the pointer owns, in order |
| PointerScripts.BlocksFollowMoves | src/agrpc/detail/allocate.hpp:52-64 | a block is where the moves took it: following them from its owner leads to the pointer that owns it at the end, and nothing owns it once let go |
| PointerScripts.AbandonedIffOverwritten | src/agrpc/detail/allocate.hpp:57-64 | blocks are abandoned iff a move assignment meets a target that owns one |
| PointerScripts.FreedOnceIffNeverOverwritten | src/agrpc/detail/allocate.hpp:35-100 | after any script, over any number of allocators, that ends with nothing owned, every block not released was freed exactly once iff no move assignment met an owning target |
| PointerScripts.OverwriteExample | src/agrpc/detail/allocate.hpp:57-64 | a script that leaks a block |
| PointerScripts.MatchedIffNeverCrossed | src/agrpc/detail/allocate.hpp:57-64 | no pointer ever owns a block of another allocator iff no move assignment takes a block across allocators |
| PointerScripts.CrossingExample | src/agrpc/detail/allocate.hpp:57-72 | a script after which destroying a pointer would free through the wrong allocator |
| PointerScripts.Free | src/agrpc/detail/allocate.hpp:66-96 | freeing one pointer's block, by `reset` or destructor, leaves every other pointer's block live |
| PointerScripts.Perform | src/agrpc/detail/allocate.hpp:44-96 | one command on real pointers and memories does what the script state says, and frees only live blocks, through their own memory |
| PointerScripts.RunScript | src/agrpc/detail/allocate.hpp:35-100 | any script on any number of real pointers and memories does |
| Submission.Context.Complete | src/agrpc/detail/typeErasedOperation.hpp:59-71 | completion frees the operation exactly once, before the handler runs, runs the handler iff asked to, and returns one unit |
| Submission.Context.CompleteWith | src/agrpc/detail/typeErasedOperation.hpp:59-71 | the same with a handler that submits the next operation: it is live together with the completed one iff freeing comes after the handler |
| Submission.AllocateOperationAndInvoke | src/agrpc/detail/allocateOperation.hpp:56-80 | a throw at any point leaves work, memory and queues unchanged; success adds one unit, one entry and one block, all taken back once if the consumer completes the operation before, between or after the releases |
| Submission.PublishAndRelease | src/agrpc/detail/allocateOperation.hpp:69-79 | the releases never touch an operation the consumer may have freed |
| Submission.RunLedger | src/agrpc/detail/allocateOperation.hpp:56-80 | any script of submissions, throwing or not, and completions keeps allocated operations equal to pending ones and work at the base plus one unit each, and leaves each operation pending, freed or handled as the book says |
| Submission.BooksBalance | src/agrpc/detail/allocateOperation.hpp:56-80 | over any script every operation left pending is finished or still pending, and nothing else is |
| SubmissionRuns.Ledger | src/agrpc/detail/allocateOperation.hpp:56-80 | over every interleaving of any number of submitting threads with completions: work is the base plus one unit per pending operation and per thread that has not published, and every operation is owned by one thread, pending, or freed, once |
| SubmissionRuns.History | src/agrpc/detail/typeErasedOperation.hpp:59-71 | over every interleaving the handlers called are, in order, those of the operations completed with invocation; pending are those published and not completed; an operation is freed exactly by its completion or by a throw before it was published |
| SubmissionRuns.RunKeepsLedger | src/agrpc/detail/allocateOperation.hpp:56-80 | the same from any point of any run |
| SubmissionRuns.ThrowLeavesNothing | src/agrpc/detail/allocateOperation.hpp:62-80 | a submission that throws, wherever it does, leaves threads, work and pending operations as they were and the memory freed |
| Submission.OneShotBuffer.Construct | src/agrpc/detail/oneShotAllocator.hpp:49-56 | the buffer is handed out whether or not an object lives there; the most objects ever alive in it are recorded |
| Submission.OneShotBuffer.DestroyObject | src/agrpc/detail/oneShotAllocator.hpp:58-58 | only destroying the object vacates the buffer |
| Submission.RunHandlerChain | src/agrpc/detail/operation.hpp:69-80 | a handler chain of any length that resubmits into one buffer from inside its completions never has two operations alive in it; with freeing after the handler it would from the second submission on; every operation is handled and freed once, in order |
| RequestSpec.RunKeepsInv | src/agrpc/detail/repeatedlyRequest.hpp:148-205 | work, ownership of contexts and completion count are kept by every run |
| RequestSpec.WorkMatchesPlace | src/agrpc/detail/repeatedlyRequest.hpp:148-198 | in every run the operation accounts for two units with a request in flight, one queued, none gone |
| RequestSpec.ContextsOwnedOnce | src/agrpc/detail/repeatedlyRequest.hpp:164-205 | in every run each RPC context is owned by the pending request or by the handler's side, or was freed, exactly once |
| RequestSpec.LostExactly | src/agrpc/detail/repeatedlyRequest.hpp:173-189 | the operation is lost iff a successful request, not cancelled, cannot allocate the next context, or the loop drops the queued operation |
| RequestSpec.DroppedSchedule | src/agrpc/detail/grpcContextImplementation.ipp:135-145 | a run in which re-arming never fails and the loop drops the queued operation |
| RequestSpec.LostSchedule | src/agrpc/detail/repeatedlyRequest.hpp:175-175 | a run that loses the operation and one unit of work |
| RequestSpec.StopBound | src/agrpc/detail/repeatedlyRequest.hpp:48-63 | once an event finds the flag set no later event makes a request, and at most the one in flight reaches the handler (a stop between the flag's load and the request counts as after the event) |
| RequestSpec.CancelInHandlerTooLate | src/agrpc/detail/repeatedlyRequest.hpp:173-185 | re-arming precedes the handler, so a cancellation raised by the handler comes one request too late, in every continuation |
| RequestSpec.CompletedUnlessDrained | src/agrpc/detail/repeatedlyRequest.hpp:135-136 | the completion handler is called once iff the operation ended otherwise than by draining, else never |
| RequestHistory.History | src/agrpc/detail/repeatedlyRequest.hpp:148-217 | in every run the handler is called exactly for the accepted requests, a request is made exactly at the launch and at each acceptance that finds the flag clear, one is pending iff one more was made than answered, the operation is queued, completed and gone exactly as its events say, and the flag is set iff something cancelled |
| RequestHistory.Contexts | src/agrpc/detail/repeatedlyRequest.hpp:164-205 | in every run the pending request has the latest RPC context, an accepted request's context is with the handler's side until that destroys it, and any other is freed when its request is answered |
| RepeatedlyRequest.CallbackOperation.constructor | src/agrpc/detail/repeatedlyRequest.hpp:140-146 | the fields of an operation not yet started |
| RepeatedlyRequest.CallbackOperation.Cancel | src/agrpc/detail/repeatedlyRequest.hpp:53-59 | cancellation is one step of the state machine |
| RepeatedlyRequest.CallbackOperation.Initiate | src/agrpc/detail/repeatedlyRequest.hpp:148-161 | nothing if stopped; a throw changes nothing; else the field names a fresh context and one unit is added |
| RepeatedlyRequest.CallbackOperation.Start | src/agrpc/detail/repeatedlyRequest.hpp:222-255 | the initiating function is one step of the state machine, whichever allocation throws |
| RepeatedlyRequest.CallbackOperation.Launch | src/agrpc/detail/repeatedlyRequest.hpp:233-253 | creating the operation and its first request, undone completely by a throw |
| RepeatedlyRequest.CallbackOperation.FirstRequest | src/agrpc/detail/repeatedlyRequest.hpp:210-217 | an operation cancelled before its first request is queued for completion |
| RepeatedlyRequest.CallbackOperation.TakeTag | src/agrpc/detail/grpcContextImplementation.ipp:177-182 | delivering a request is one step of the state machine; the handler gets a context iff the request is accepted, and it is that of the finished request and never the one in flight; it throws iff the handler or re-arming does |
| RepeatedlyRequest.CallbackOperation.OnRequestComplete | src/agrpc/detail/repeatedlyRequest.hpp:164-198 | the same between taking the tag and returning its unit |
| RepeatedlyRequest.CallbackOperation.OnRequestOk | src/agrpc/detail/repeatedlyRequest.hpp:173-185 | re-arms before the handler runs and, even if it throws, queues the operation afterwards iff it was not re-armed |
| RepeatedlyRequest.CallbackOperation.OnDrained | src/agrpc/detail/repeatedlyRequest.hpp:192-197 | draining frees context and operation and returns the operation's unit |
| RepeatedlyRequest.CallbackOperation.OnDequeued | src/agrpc/detail/typeErasedOperation.hpp:59-71 | the queued operation frees itself and completes iff not draining |
| RepeatedlyRequest.CallbackOperation.OnLoopDrops | src/agrpc/detail/grpcContextImplementation.ipp:135-145 | being dropped from the loop's batch is one step: nothing is destroyed and no work returned |
| RepeatedlyRequest.CallbackOperation.OnDropped | src/agrpc/detail/allocate.hpp:66-72 | the handler's side frees a context it was given, once |
| RequestSenderSpec.RunKeepsInv | src/agrpc/detail/repeatedlyRequestSender.hpp:215-264 | work, ownership and signal count are kept by every run |
| RequestSenderSpec.WorkAndOwnership | src/agrpc/detail/repeatedlyRequestSender.hpp:104-164 | in every run the work is one for the request in flight plus one per live handler operation, and each handler operation is in flight, live or freed, exactly once |
| RequestSenderSpec.SilentExactly | src/agrpc/detail/repeatedlyRequestSender.hpp:167-182 | once started, the receiver is never signalled iff stop comes between check and first request, or re-arming throws |
| RequestSenderSpec.ReceiverContract | src/agrpc/detail/repeatedlyRequestSender.hpp:167-286 | the receiver is signalled at most once, never while a request is pending, and, when none is, exactly once iff neither of the two happened |
| RequestSenderSpec.SignalKind | src/agrpc/detail/repeatedlyRequestSender.hpp:230-286 | the signal is a value iff a request failed outside draining and the receiver took the value, and an error iff a handler could not be connected or the receiver's `set_value` threw |
| RequestSenderSpec.SilentSchedule | src/agrpc/detail/repeatedlyRequestSender.hpp:175-181 | a concrete schedule that leaves the receiver unsignalled |
| RequestSenderSpec.SilentRearm | src/agrpc/detail/repeatedlyRequestSender.hpp:244-244 | another, in which re-arming throws |
| RequestSenderSpec.StopBound | src/agrpc/detail/repeatedlyRequestSender.hpp:215-228 | once an event finds the flag set no later event makes a request, and at most the one in flight is handled (a stop between the flag's load and the request counts as after the event) |
| RequestSenderSpec.StopInHandlerIsLast | src/agrpc/detail/repeatedlyRequestSender.hpp:237-250 | a stop raised by the handler function makes its request the last, in every continuation |
| RequestSenderHistory.History | src/agrpc/detail/repeatedlyRequestSender.hpp:167-286 | in every run a handler operation is started exactly for each connected handler that re-arming does not throw away, a request is made exactly by `start` and each such event that finds the flag clear, the receiver is signalled exactly at the events that end the operation, and live are those started and not ended |
| RequestSenderHistory.HandlerOperations | src/agrpc/detail/repeatedlyRequestSender.hpp:104-164 | in every run the pending request has the latest handler operation, a started one is live until it ends and only then freed, any other is freed when its request is answered |
| RequestSenderHistory.FlagFollowsToken | src/agrpc/detail/repeatedlyRequestSender.hpp:36-71 | while a request is pending the flag is set iff stop has been requested |
| RepeatedlyRequestSender.SenderOperation.constructor | src/agrpc/detail/repeatedlyRequestSender.hpp:187-203 | the fields of an operation not yet started |
| RepeatedlyRequestSender.SenderOperation.StartBegin | src/agrpc/detail/repeatedlyRequestSender.hpp:169-173 | one step of the state machine: done on a shut-down context |
| RepeatedlyRequestSender.SenderOperation.StartCheckStop | src/agrpc/detail/repeatedlyRequestSender.hpp:174-179 | one step: done if stop is already requested |
| RepeatedlyRequestSender.SenderOperation.StartEmplace | src/agrpc/detail/repeatedlyRequestSender.hpp:53-71 | one step: registering on a stopped token sets the flag at once |
| RepeatedlyRequestSender.SenderOperation.StartInitiate | src/agrpc/detail/repeatedlyRequestSender.hpp:181-181 | one step: the result of the first initiation is dropped |
| RepeatedlyRequestSender.SenderOperation.RequestStop | src/agrpc/detail/repeatedlyRequestSender.hpp:63-67 | one step: the registered callback sets the flag and deregisters itself |
| RepeatedlyRequestSender.SenderOperation.Initiate | src/agrpc/detail/repeatedlyRequestSender.hpp:207-228 | nothing if stopped; a throw changes nothing; else a request into a fresh handler operation and one unit |
| RepeatedlyRequestSender.SenderOperation.TakeTag | src/agrpc/detail/grpcContextImplementation.ipp:177-182 | delivering a request is one step of the state machine |
| RepeatedlyRequestSender.SenderOperation.OnRequestComplete | src/agrpc/detail/repeatedlyRequestSender.hpp:230-264 | the same between taking the tag and returning its unit |
| RepeatedlyRequestSender.SenderOperation.FreeAndSignal | src/agrpc/detail/repeatedlyRequestSender.hpp:252-263 | frees the handler operation, deregisters and signals once |
| RepeatedlyRequestSender.SenderOperation.OnAccepted | src/agrpc/detail/repeatedlyRequestSender.hpp:235-251 | connects before re-arming; a handler that cannot be connected ends the operation with an error |
| RepeatedlyRequestSender.SenderOperation.OnConnected | src/agrpc/detail/repeatedlyRequestSender.hpp:244-250 | re-arms before the handler starts; a throw there leaves the handler operation to its owning pointer |
| RepeatedlyRequestSender.SenderOperation.Proceed | src/agrpc/detail/repeatedlyRequestSender.hpp:245-250 | starts the handler and signals iff not re-armed, also if the handler frees itself before the pointer is released |
| RepeatedlyRequestSender.SenderOperation.Leave | src/agrpc/detail/allocate.hpp:66-72 | an exception frees the handler operation through the owning pointer, nothing else does |
| RepeatedlyRequestSender.SenderOperation.StartHandler | src/agrpc/detail/repeatedlyRequestSender.hpp:155-159 | one unit while the handler operation lives |
| RepeatedlyRequestSender.SenderOperation.HandlerEnded | src/agrpc/detail/repeatedlyRequestSender.hpp:115-130 | value, error and done alike free the handler operation once and return its unit |
| RequestAwaitableSpec.RunKeepsInv | src/agrpc/detail/repeatedlyRequest.hpp:372-424 | work, buffer and request counts are kept by every run |
| RequestAwaitableSpec.WorkAndBuffer | src/agrpc/detail/repeatedlyRequest.hpp:306-424 | in every run the work matches what is outstanding, the buffer is freed only after the operation is gone and the object in it destroyed, and all units are returned iff it is freed |
| RequestAwaitableSpec.FreedForever | src/agrpc/detail/repeatedlyRequest.hpp:314-319 | the buffer is freed at most once and never used again |
| RequestAwaitableSpec.LostExactly | src/agrpc/detail/repeatedlyRequest.hpp:387-424 | the operation is lost iff its coroutine is discarded before its body is entered, cannot make its RPC context, or throws between releasing its guard and spawning or queueing, or the loop drops the coroutine's entry or the queued operation |
| RequestAwaitableSpec.BufferLostExactly | src/agrpc/detail/repeatedlyRequest.hpp:382-385 | the buffer is lost with its unit iff the loop drops it from its queue |
| RequestAwaitableSpec.DroppedOperation | src/agrpc/detail/grpcContextImplementation.ipp:135-145 | a run in which the loop drops the queued operation |
| RequestAwaitableSpec.DroppedCoroutine | src/agrpc/detail/grpcContextImplementation.ipp:135-145 | a run in which the loop drops the entry of a spawned coroutine, whose unit stays counted too |
| RequestAwaitableSpec.DroppedBuffer | src/agrpc/detail/grpcContextImplementation.ipp:135-145 | a run in which the loop drops the buffer of a completed operation |
| RequestAwaitableSpec.LostUnentered | src/agrpc/detail/repeatedlyRequest.hpp:393-406 | a run that loses the operation with two units: discarded unentered |
| RequestAwaitableSpec.LostUnmade | src/agrpc/detail/repeatedlyRequest.hpp:401-401 | another: the RPC context cannot be made |
| RequestAwaitableSpec.LostUnspawned | src/agrpc/detail/repeatedlyRequest.hpp:410-414 | another: the successor cannot be spawned |
| RequestAwaitableSpec.LostUncopied | src/agrpc/detail/repeatedlyRequest.hpp:413-413 | another: the handler cannot be copied, although already stopped |
| RequestAwaitableSpec.FailedFirstSpawn | src/agrpc/detail/repeatedlyRequest.hpp:382-393 | a throw out of the first spawn leaves only the queued buffer and its unit, which the loop frees |
| RequestAwaitableSpec.StopBound | src/agrpc/detail/repeatedlyRequest.hpp:387-424 | with the flag set, exactly one more request is made iff a coroutine was already spawned and its body is entered, and exactly one more is handled iff one is still answered |
| RequestAwaitableSpec.LateRequest | src/agrpc/detail/repeatedlyRequest.hpp:389-409 | a run that makes its request after the flag was set |
| RequestAwaitableHistory.RequestHistory | src/agrpc/detail/repeatedlyRequest.hpp:387-424 | in every run a handler runs exactly for each answered request that no exception kept from it, a coroutine is spawned exactly at the launch and at each such answer that finds the flag clear, and what was spawned or requested and not left or answered is waiting or pending |
| RequestAwaitableHistory.LifeHistory | src/agrpc/detail/repeatedlyRequest.hpp:306-424 | in every run the operation is queued exactly as its events say, is gone iff dequeued, drained or thrown out of its launch, and exactly then its buffer was queued, which is freed iff the loop got to it |
| RequestAwaitableHistory.CompletedUnlessDrained | src/agrpc/detail/repeatedlyRequest.hpp:363-364 | the completion handler is called once iff the operation ended neither by draining nor by a throw out of its launch, else never |
| RepeatedlyRequestAwaitable.AwaitableOperation.constructor | src/agrpc/detail/repeatedlyRequest.hpp:372-380 | the fields of an operation not yet started |
| RepeatedlyRequestAwaitable.AwaitableOperation.Cancel | src/agrpc/detail/repeatedlyRequest.hpp:53-59 | cancellation is one step of the state machine |
| RepeatedlyRequestAwaitable.AwaitableOperation.Initiate | src/agrpc/detail/repeatedlyRequest.hpp:387-395 | spawns iff not stopped, counting one unit; a throw changes nothing |
| RepeatedlyRequestAwaitable.AwaitableOperation.Start | src/agrpc/detail/repeatedlyRequest.hpp:222-255 | the initiating function is one step of the state machine, whichever of its parts throws |
| RepeatedlyRequestAwaitable.AwaitableOperation.Launch | src/agrpc/detail/repeatedlyRequest.hpp:233-253 | constructing counts the buffer; a throw after that destroys the operation, which queues the buffer; a cancelled operation is queued |
| RepeatedlyRequestAwaitable.AwaitableOperation.EnterBody | src/agrpc/detail/repeatedlyRequest.hpp:398-409 | entering the body is one step and finds the buffer empty |
| RepeatedlyRequestAwaitable.AwaitableOperation.DrainEntry | src/agrpc/detail/repeatedlyRequest.hpp:393-406 | discarding an unentered coroutine is one step |
| RepeatedlyRequestAwaitable.AwaitableOperation.OnAnswered | src/agrpc/detail/repeatedlyRequest.hpp:407-424 | an answered request is one step: the buffer is vacated, then the body goes on, throwing or not |
| RepeatedlyRequestAwaitable.AwaitableOperation.Resume | src/agrpc/detail/repeatedlyRequest.hpp:410-423 | copies the handler, then spawns the successor before the handler runs, so its own cancellation does not stop it; throws iff copying or spawning does |
| RepeatedlyRequestAwaitable.AwaitableOperation.DestroyOperation | src/agrpc/detail/repeatedlyRequest.hpp:382-385 | destruction queues the buffer once |
| RepeatedlyRequestAwaitable.AwaitableOperation.OnDrainRequest | src/agrpc/detail/repeatedlyRequest.hpp:402-406 | destroying a suspended coroutine is one step; the buffer outlives the object in it |
| RepeatedlyRequestAwaitable.AwaitableOperation.OnDequeued | src/agrpc/detail/typeErasedOperation.hpp:59-71 | completing the queued operation is one step |
| RepeatedlyRequestAwaitable.AwaitableOperation.OnBufferDequeued | src/agrpc/detail/repeatedlyRequest.hpp:315-319 | freeing the buffer is one step and finds it empty |
| RepeatedlyRequestAwaitable.AwaitableOperation.OnLoopDrops | src/agrpc/detail/grpcContextImplementation.ipp:135-145 | being dropped from the loop's batch is one step for operation, coroutine entry and buffer alike |
| RepeatedlyRequestAwaitable.AwaitableOperation.SpawnFirst | src/agrpc/detail/repeatedlyRequest.hpp:210-217 | spawns the first coroutine or queues the operation; a throw destroys it and queues the buffer |
| WorkTrackers.WorkTracker.Construct | src/agrpc/detail/grpcExecutorBase.hpp:117-121 | a new tracker takes one unit of its context |
| WorkTrackers.WorkTracker.CopyConstruct | src/agrpc/detail/grpcExecutorBase.hpp:62-66 | a copy takes one more unit of the same context |
| WorkTrackers.WorkTracker.MoveConstruct | src/agrpc/detail/grpcExecutorBase.hpp:68-71 | a move takes over the source's unit |
| WorkTrackers.WorkTracker.CopyAssign | src/agrpc/detail/grpcExecutorBase.hpp:81-97 | returns the old unit, then takes the new one; the old context is stopped iff its count was one, even if it is also the new one |
| WorkTrackers.WorkTracker.MoveAssign | src/agrpc/detail/grpcExecutorBase.hpp:99-114 | returns the old unit, stopping the old context iff it was the last, and takes over the source's |
| WorkTrackers.WorkTracker.Destroy | src/agrpc/detail/grpcExecutorBase.hpp:73-79 | returns the unit unless moved from, stopping the context iff it was the last |
| WorkTrackers.LiveUpdate | src/agrpc/detail/grpcExecutorBase.hpp:81-97 | redirecting one tracker changes the number of trackers per context accordingly |
| WorkTrackers.AssignNeverReachesZero | src/agrpc/detail/grpcExecutorBase.hpp:81-97 | two trackers of one context hold two units, so copy assignment between them never reaches zero |
| WorkTrackers.Perform | src/agrpc/detail/grpcExecutorBase.hpp:55-122 | one command keeps every context's count at its base plus its live trackers; copy assignment within a context never stops it |
| WorkTrackers.RunScript | src/agrpc/detail/grpcExecutorBase.hpp:55-122 | any script over any contexts and trackers keeps the balance |
| FileTransfer.SourceFile.ReadSome | example/file-transfer-client.cpp:74-76 | a read of any length from one byte to the buffer size overwrites only the front of the buffer; eof iff at the end |
| FileTransfer.Round | example/file-transfer-client.cpp:86-116 | one round sends exactly the bytes read before and reads on into the other buffer, in either order |
| FileTransfer.NextRound | example/file-transfer-client.cpp:86-118 | in terms of the transfer, each round sends the next message or shows how much the connection survived |
| FileTransfer.SendChunks | example/file-transfer-client.cpp:78-119 | the loop ends and has sent every message but the last, or all that the connection survives |
| FileTransfer.SendFile | example/file-transfer-client.cpp:69-131 | the messages delivered are those of the transfer as far as the connection lasts; an empty file throws |
| FileTransfer.ContentsOfMessages | example/file-transfer-client.cpp:74-126 | for every schedule of short reads the concatenated chunks are the file |
| FileTransfer.MarksOfMessages | example/file-transfer-client.cpp:123-126 | only the last message carries the finish mark |
| FileTransfer.MessagesAreTheFile | example/file-transfer-client.cpp:74-126 | both, and every chunk but the last is as large as a read can be |
| FileReceive.WriteAndRead | example/file-transfer-server.cpp:83-118 | writes one message while reading the next, unless the mark was received, in either order |
| FileReceive.Next | example/file-transfer-server.cpp:120-128 | in terms of the messages, each round extends the file by exactly the next message |
| FileReceive.ReceiveRest | example/file-transfer-server.cpp:122-129 | the loop ends with the first marked message written, or with all messages written and a failed read |
| FileReceive.FlagsDecide | example/file-transfer-server.cpp:124-137 | at the end `finish_write` holds iff a mark was received, and `!ok && finish_write` is unreachable |
| FileReceive.ReceiveFile | example/file-transfer-server.cpp:56-140 | for every message sequence, failing read and old file: untouched if nothing came; else a file survives iff the mark was received, and then each position below the received length holds the byte received and each above it the old byte |
| FileReceive.StaleTail | example/file-transfer-server.cpp:79-80 | on an existing path the file is what was received iff the old one was no longer |
| FileReceive.StaleTailExample | example/file-transfer-server.cpp:79-80 | a session that leaves a stale tail |
| FileReceive.RoundTrip | example/file-transfer-server.cpp:56-137 | for every non-empty file, schedule of short reads and point of failure: the whole file if everything was delivered, no file otherwise |
| FileReceive.Transfer | example/file-transfer-client.cpp:69-131 | the two programs joined: the output equals the input iff the client delivered its last message, else there is no output |

## Left out

- C++ memory orders weaker than sequential consistency: the language has no model for them.
- Networks, alarms, files, threads, and the insides of gRPC, Asio and libunifex: they are events and parameters.
- `when_both`: its two completions are an atomic join; overlapping increments inside it are not modelled.
- `GrpcSender` and `ScheduleSender`: one request and one signal each, a special case of the sender form.
- `create_and_submit_no_arg_operation`: a branch in front of `allocate_operation_and_invoke`.
- The local-allocator variant of operations: it differs only in where the allocator comes from.
- `PollContext`: its buffer reuse depends on when a foreign executor frees memory.
- `submit` of the senders, executor properties and options, `bind_allocator`, and the thin wrappers in `rpc.hpp` and `wait.hpp`: forwarding wrappers.
- The destructor of a context with other threads still inside it: not supported by the source.
- Submission.OneShotBuffer.Construct: the debug-build assertion that one allocator object hands its buffer out once is not modelled.
- The lifetime of the cancellation slot: only that connecting it may throw is modelled.
- Termination of a run: the loop's theorems are about every finite run; fairness between threads is not modelled.
