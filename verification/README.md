# Stream slots and reconnection

A client keeps many quote streams open over one WebSocket connection that may be lost and replaced
at any time. This project models the parts of the client that must agree for that to work, and
proves what they guarantee under every interleaving.

* **Slots.** `StreamManager` admits streams up to a limit with a lock-free counter, queues the
  rest, and serves the queue with one worker that retires and is revived through a flag.
  Modules `Admission` (the machine), `AdmissionOrder`, `AdmissionSlots`, `AdmissionWakeups`
  (invariants), `AdmissionTheorems`, `AdmissionRequests` (one request among all others), and
  `StreamManagerClass`, which has the methods of the source.
* **Streams.** The live stream map, the handles that are stopped or dropped, the adapter tasks, the
  callback that ends a stream, and the remapping of ids after a reconnect, with `stopped_flag`,
  `slot_released` and `effective_stream_id` read and written outside the map's lock. Modules
  `Registry`, `RegistryInv`, `RegistrySteps`, `RegistryTheorems`, `RegistryStops` (stop against
  remap), `RegistryFlow` (what gets done), `Delivery` (the way of a quote to `recv`), and
  `QuoteStreamClass`. Module `System` runs slots and streams together.
* **The connection loop.** `Resume` is the pass that requests every stream again, `ResumeFate` says
  what becomes of each, and `ResumePassClass` has its loops; `Requests`, `RequestsTheorems`,
  `RequestsFlow` and `ConnectionClass` match requests and replies; `Reconnect`, `Backoff` and
  `Keepalive` hold the retries, their delays and the pings. Modules `Exchange` and `ExchangeTheorems`
  run requests and streams together, for the question whose id a stream is given; `GivingUp` adds the
  retries, and follows the loop to its end.

`dafny verify dfyconfig.toml` checks everything.

## How it is modelled

Each machine is a state, a predicate saying which events can happen, and a function giving the next
state. One event is one atomic load, store, compare-and-swap, `fetch_sub` or notification, or one
section under a lock that touches locked data only. The sections that also touch shared flags (the
remap, `on_end`, the drains) are split into their atomic operations. A run is any sequence of events
each of which can happen, so the scheduler, the server and the users are arbitrary. All atomics of
the source are sequentially consistent, so interleaving is the right meaning. History that no code
reads (logs, who holds a slot, for whom an id was issued) is kept beside the real fields and named
as such.

The classes have the fields of the source. Their methods are built from one method per atomic
operation, with arbitrary events of the other tasks in between, and `Valid()` says that the fields
are the state reached by a run of the machine; so everything proved of all runs holds of every
object at every moment.

Assumptions:

* Futures run to completion. A start or a stop cancelled while it waits would keep its slot.
* The server never issues a stream id twice (`FOR_USER.md:81`). Where this matters it is a guard
  of the machine or a hypothesis; `Resume.PassLosesNothingIff` says exactly what happens without it.
* The server answers a request at most once, with the id of that request. Which call a response
  reaches is not assumed but proved.
* The client's request counter and the loop's own do not wrap at 32 bits. The other counter,
  `active_count`, is modelled with its wrap-around and proved not to use it.
* Ids, quotes and requests are otherwise opaque. A socket is an arbitrary sequence of frames and
  errors, and encoding, sending and dialling succeed or fail arbitrarily, and take any time; only
  `Keepalive.SilentPeerIsDetectedIff` supposes that a ping is sent at once.

## What does not hold

Six properties one might expect do not hold of every run. For each the exact condition is proved, and
a concrete input or run is given where the failure needs one.

* A raised limit may wake nobody: `notify_waiters` stores no permit (`src/queue.rs:44-48`).
  `AdmissionTheorems.RaisedLimitCanBeMissed`, `AdmissionTheorems.RaiseReachesWorkerIff`; without a
  change of the limit nothing is missed, `AdmissionTheorems.FixedLimitStrandsNoRequest`.
* A completed stop may leave its stream in the map, re-keyed by a resume that had read the flag just
  before it was set. `RegistryTheorems.StopCanBeOvertaken` shows it, `RegistryStops.StopCanLeakIff`
  says when a stop is in danger, `RegistryTheorems.StopLeavesEntryIff` when it was hit.
* A reused stream id may overwrite a stream without ending it. `Resume.ReusedIdLosesAStream`,
  `Resume.PassLosesNothingIff`.
* A caller may receive the reply to a resume request. The ids of the two kinds of request come from
  two counters that usually agree, and a resume wait broken off by an error, a close frame or the end
  of the stream is followed by reading the same `ws_stream` again. `RequestsTheorems.AnswerIsOwnIff`
  and `RequestsTheorems.RepliesAreOwnIff` give the exact condition: a late reply to such an abandoned
  request, with the id of a pending one. `RequestsTheorems.LateReplyAnswersAnother` is a run of the
  machine, whose socket may still deliver a frame at that point; whether the WebSocket library ever
  does is not part of this model, and `RequestsTheorems.AnswersAreOwn` shows that nothing goes wrong
  if it does not. If the call that receives such a reply is a start, its stream is registered under the
  id that the server issued for the resumed stream, and `recv` returns that stream's quotes:
  `ExchangeTheorems.LateReplyStartsAStream` is such a run, `ExchangeTheorems.StreamIsItsOwnIff` says
  that this is the only way to it.
* The delay product passes 64 bits from attempt 59 on; an optimised build wraps and does not wait at
  attempts 63 and 64 (a build with overflow checks panics). `Backoff.BackoffIsCappedIff`.
* With exact ticks and instantaneous sends, a silent peer is never noticed when the timeout is zero or
  not shorter than the ping interval. `Keepalive.SilentPeerIsDetectedIff`.

## Model

| member | source | states |
|---|---|---|
| `AdmissionSlots.KeepsCount` | src/queue.rs:67-79 | every event keeps the slot accounting: the counter plus the slots already subtracted is the number of slots ever claimed, each slot not yet subtracted has one task that answers for it, and counter and pending claims stay within the largest limit stored |
| `AdmissionSlots.NoUnderflow` | src/queue.rs:107-110 | whoever reaches `fetch_sub` finds the counter above zero, so the 32-bit subtraction never wraps |
| `AdmissionTheorems.ActiveCountIsHeldSlots` | src/queue.rs:70-78 | in every state of every interleaving `active_count` is exactly the number of slots whose flag is clear or whose winner has still to subtract |
| `AdmissionTheorems.EverySlotHasAHolder` | src/queue.rs:164-218 | a slot not yet subtracted belongs to a start, a handle or a release in progress |
| `AdmissionTheorems.CounterReturnsToZero` | src/queue.rs:107-110 | with no start, handle or release left, the counter is 0 |
| `AdmissionTheorems.SlotIsSubtractedOnce` | src/queue.rs:175-218 | whichever of stop, drop, stream end, failed start, failed resume and shutdown race for a slot, `fetch_sub` runs at most once for it, and only after its flag was set |
| `AdmissionTheorems.LimitsWereStored` | src/queue.rs:44-48 | the present limit and the largest one of the run were each in force at some point: the initial limit, or one that the store of `set_max_concurrent` wrote |
| `AdmissionTheorems.LimitIsLastStored` | src/queue.rs:44-48 | in every state the limit is the one that the last executed store wrote, or the initial one if none was |
| `AdmissionTheorems.StoredWasPassed` | src/queue.rs:44-48 | whatever is written, or about to be, was passed to `set_max_concurrent` |
| `AdmissionTheorems.AdmissionStaysWithinALimit` | src/queue.rs:67-79 | although limit and counter are read separately and both may be stale, the counter is at most some limit that was in force: the initial one, or one that an executed store wrote |
| `AdmissionOrder.KeepsOrder` | src/queue.rs:113-161 | every event keeps: one task acts for the worker flag, and the queue in push order is what was answered, being started, in the worker's hand, and queued, in this order |
| `AdmissionTheorems.WorkerIsUnique` | src/queue.rs:88-98 | the flag is raised exactly while some task acts for it, and never do two tasks act for it |
| `AdmissionTheorems.LogsAreTheRun` | src/queue.rs:81-159 | the recorded orders of queueing, claiming and answering are those of the events of the run |
| `AdmissionTheorems.QueueIsFifo` | src/queue.rs:124-159 | queued requests are started and answered in `push_back` order, each at most once, although lost races push requests back to the front |
| `AdmissionTheorems.WaitingRequestIsInLine` | src/queue.rs:81-104 | a request that waits is in exactly one place: the queue, the worker's hand, or being started |
| `AdmissionWakeups.KeepsStrand` | src/queue.rs:124-143 | every event, the worker's retirement included, keeps: a non-empty queue has a raised flag or a task about to look at it |
| `AdmissionTheorems.NoRequestIsStranded` | src/queue.rs:81-98 | whenever the queue is not empty, the flag is raised, or a requester is between its push and its compare-and-swap, or a retiring worker is between lowering the flag and its second look |
| `AdmissionWakeups.KeepsWake` | src/queue.rs:107-122 | every event keeps: a worker that saw the limit reached finds it still reached, or a wake-up is stored or on its way |
| `AdmissionTheorems.NoWakeUpIsLost` | src/queue.rs:107-122 | a worker that saw the limit reached, with no permit stored and no releaser between `fetch_sub` and `notify_one`, has no slot below the limit that was in force when it read it, and none below the present limit unless a limit was written since |
| `AdmissionTheorems.ReadLimitWasInForce` | src/queue.rs:115-116 | the limit a task acts on was in force at the event in which the task last loaded it, and is the present one unless a limit was written after that |
| `AdmissionTheorems.WorkGoesOn` | src/queue.rs:113-122 | while the flag is up or a task is about to look, some worker, requester or releaser can step, or a start is in flight, or the worker is rightly parked: every slot below the limit it read is taken, and a slot free below the present limit means that a limit was written since |
| `AdmissionTheorems.WaitingRequestIsServed` | src/queue.rs:81-122 | while a request waits, some worker, requester or releaser can step, or a start is in flight, or the worker is rightly parked in the same sense |
| `AdmissionTheorems.FixedLimitStrandsNoRequest` | src/queue.rs:107-122 | if the limit is never changed, a queued request beside a free slot always has a worker, requester or releaser that can step, or a start in flight |
| `AdmissionTheorems.OnlyTheWorkerWaits` | src/queue.rs:118-122 | at most one task is parked on the notification, and it is the worker |
| `AdmissionTheorems.UndisturbedWorkerStartsTheFront` | src/queue.rs:114-155 | with a slot free, four steps of the worker alone claim it for the front of the queue |
| `AdmissionTheorems.UndisturbedWorkerWaits` | src/queue.rs:115-122 | with every slot taken, three steps of the worker alone use up a stored permit and lead back to the top of the loop, or park it among the waiters; queue and slots stay as they were |
| `AdmissionTheorems.UndisturbedWorkerRetires` | src/queue.rs:130-143 | with a slot free and the queue empty, five steps of the worker alone lower the flag and end it |
| `AdmissionTheorems.UndisturbedWorkerLooksAgain` | src/queue.rs:133-142 | a retiring worker whose second look finds work is back at the top of its loop in two steps, with the flag up, exactly if nobody had raised the flag |
| `AdmissionTheorems.IdleSlotMeansRaisedLimit` | src/queue.rs:44-48 | a worker left parked beside a free slot acts on a smaller limit that was in force when it read it, and another limit was written after that |
| `AdmissionTheorems.RaiseReachesWorkerIff` | src/queue.rs:44-48 | the notification sends a worker that has read a limit back to read it again if and only if the worker is already parked; otherwise it keeps the old limit and no permit is stored |
| `AdmissionTheorems.RaisedLimitCanBeMissed` | src/queue.rs:44-48 | a concrete run in which `notify_waiters` misses the worker: a request is queued, a slot is free, and no task can move |
| `AdmissionRequests.RequestTakesOnePath` | src/queue.rs:62-104 | in every run a request claims a slot for itself once, or enters the queue once, and never both; which of them it did fits where its task stands |
| `AdmissionRequests.QueuedIsPushedOnce` | src/queue.rs:84-86 | a request is in the order of arrivals exactly once if it entered the queue, and not at all otherwise |
| `AdmissionRequests.RequestGetsItsOwnAnswer` | src/queue.rs:157-159 | in every run at most one start is made and answered for a request; the result sent to a queued one is the answer to that start, and a request that claimed a slot itself has its answer when it is done |
| `AdmissionRequests.UndisturbedRequest` | src/queue.rs:67-86 | from every state, a new request that nothing disturbs has claimed a slot after three steps if the counter was below the limit, and is the last in the queue otherwise |
| `AdmissionRequests.PermitsServeOnce` | src/queue.rs:107-122 | every permit serves once: the worker has gone round at the limit without waiting no more often than slots were given back while nobody waited |
| `StreamManagerClass.StreamManager.ClaimSlot` | src/queue.rs:72-76 | the compare-and-swap adds one exactly when the counter still has the value read, and a new slot begins |
| `StreamManagerClass.StreamManager.PollNotified` | src/queue.rs:118-122 | the first poll takes the stored permit, which is then gone, or joins the waiters |
| `StreamManagerClass.StreamManager.RaiseWorkerFlag` | src/queue.rs:89-93 | exactly one of the racing tasks finds the flag clear |
| `StreamManagerClass.StreamManager.ClaimRelease` | src/queue.rs:212-217 | exactly the first caller for a slot wins, and the flag is set either way |
| `StreamManagerClass.StreamManager.NotifyOneWaiter` | src/queue.rs:107-110 | wakes the waiter, or stores a permit when there is none |
| `StreamManagerClass.StreamManager.NotifyAllWaiters` | src/queue.rs:44-48 | wakes whoever waits and stores no permit |
| `StreamManagerClass.StreamManager.Yield` | src/queue.rs:62-161 | between two atomic operations of a task, any events of others: the task stays where it is unless it was parked and is woken, and flags once set stay set |
| `StreamManagerClass.StreamManager.ReleaseSlot` | src/queue.rs:175-184 | after the guarded release the slot's flag is set, and the task goes on as its caller requires |
| `StreamManagerClass.StreamManager.StartStreamInternal` | src/queue.rs:164-265 | a start is answered by exactly one event of its task, which is the one answer to its request; if it failed, its slot has been released; the direct caller is done, the worker goes on to send the result |
| `StreamManagerClass.StreamManager.QueueAndWait` | src/queue.rs:81-104 | the slow path queues this request once, and ends with the result sent to this very request, or the caller still waits and none was sent |
| `StreamManagerClass.StreamManager.ClaimAndStart` | src/queue.rs:70-79 | the fast path starts the request exactly when the counter still has the value read, and then returns the answer to that start; otherwise the request goes to the queue |
| `StreamManagerClass.StreamManager.RequestStream` | src/queue.rs:62-104 | the call enters a task of its own; either that claims a slot, is never queued, and the answer to its own start is the outcome, or it is queued exactly once, and the outcome is the result sent to it, which is the answer to the start made for it, or it waits for one not yet sent |
| `StreamManagerClass.StreamManager.Retire` | src/queue.rs:130-143 | goes on exactly when its last step took the flag, which it found clear, after a second look that found work; otherwise it saw the queue empty, or found the flag already up |
| `StreamManagerClass.StreamManager.ServeOrPutBack` | src/queue.rs:145-159 | if the counter still has the value read, the request is started and the one answer to that start is sent to it as the last step; otherwise the last step puts it back in front of the queue |
| `StreamManagerClass.StreamManager.ProcessQueue` | src/queue.rs:113-161 | the worker's loop among arbitrary events of others performs every one of the given rounds unless it parks or retires before, and the first in any case; if it stops parked with no wake-up pending, every slot below the limit in force at its reading is taken, and a slot free below the present limit means that a limit was written since |
| `StreamManagerClass.StreamManager.SetMaxConcurrent` | src/queue.rs:44-48 | the call writes the limit, and as a later, last step wakes everyone waiting at that moment |
| `StreamManagerClass.StreamManager.EndStream` | src/queue.rs:206-218 | after `on_end` the stream's slot is released, by this call or by another |
| `StreamManagerClass.StreamManager.ObjectIsSound` | src/queue.rs:62-161 | at any moment of any object's life: the counter is exact and at most a limit that was in force, no queued request is stranded, and starts and answers follow the queue's order |
| `Delivery.DispatchKeepsPipe` | src/connection.rs:633-638 | a dispatch appends to the pipeline: received, queued, held and raw quotes are together what was dispatched, in order |
| `Delivery.PumpKeepsPipe` | src/queue.rs:239-254 | the adapter moves quotes on in order and drops only other payloads, and nothing more once it was turned away |
| `Delivery.RecvKeepsPipe` | src/stream.rs:80-82 | `recv` takes the oldest quote that has not been received |
| `RegistrySteps.KeepsInv` | src/connection.rs:278-458 | every event keeps the invariant of map, flags, sections in progress, stop paths and pipelines |
| `RegistryTheorems.KeyIsEffectiveId` | src/connection.rs:366-386 | every entry's key is the effective id of its stream, and no stream has two entries, at every release of the lock |
| `RegistryTheorems.UnstoppedStreamIsKept` | src/connection.rs:278-458 | over any number of reconnects, a registered stream that nobody stopped is in the map under its effective id, or inside a locked section that is moving or ending it |
| `RegistryTheorems.StreamIsKeptOrReleased` | src/connection.rs:639-675 | with the lock free and no stop under way, a registered stream has its entry or its slot has been released |
| `RegistryTheorems.IssuedAreTheGrants` | src/connection.rs:362-386 | the record of which stream took an id is that of the run: the start that received it in its response, or the resume turn that awaited it; whose request the server had answered is the matter of `Exchange` |
| `RegistryTheorems.NoCrossDelivery` | src/connection.rs:633-638 | every entry's key, and the id of every frame dispatched to a stream, was received by that same stream's start or granted in a resume turn of it, over any number of reconnects; whose request the server had answered is the matter of `Exchange` |
| `RegistryTheorems.StopRemovesOnlyItsOwn` | src/stream.rs:108-117 | what a stop, a drop or an adapter is about to unregister can only be that stream's own entry |
| `RegistryTheorems.DispatchedAreTheFrames` | src/connection.rs:633-638 | in every run, what was put into a stream's raw channel is exactly the data of the frames read under its id while its adapter was there, in order, and what it received is one quote for each completed call of `recv` |
| `RegistryTheorems.DeliveryIsFifo` | src/stream.rs:80-82 | `recv` returns the quotes among the data frames that the run read for the stream, in order and without repeat across remaps, as many as it was called for; while the handle lives the rest is on its way and none is lost |
| `RegistryFlow.EveryQuoteCanBeReceived` | src/queue.rs:239-254 | in every state of every run, steps of the adapter and of the reader alone bring every quote that was read for a live handle to it, in order, and leave room for more |
| `RegistryFlow.DetachedStreamIsReadToItsEnd` | src/stream.rs:77-82 | in every state of every run, once nobody sends to a stream any more, its handle can receive every quote that was read for it, and then the adapter ends with the channel empty, so that `recv` reports the end |
| `RegistryFlow.NothingIsReceivedAfterDrop` | src/stream.rs:134-189 | once the handle has dropped its receiver nothing more is received |
| `RegistryFlow.UndisturbedAdapterLeaves` | src/queue.rs:243-247 | an adapter that holds a quote for a dropped receiver takes its stream out of the map and ends |
| `RegistryFlow.EveryStreamGetsItsTurn` | src/connection.rs:284-302 | throughout a resume pass, the turns begun and those to come are together the entries that the map had when the pass began, each once |
| `RegistryFlow.PassEndsWhenAllHadTheirTurn` | src/connection.rs:302-457 | a pass ends only when each of these entries has had its turn |
| `RegistryFlow.TurnAsksIff` | src/connection.rs:303-311 | a turn requests its stream exactly when the stream is not stopped and its adapter is there, and otherwise gives it up |
| `RegistryFlow.UndisturbedTurnResumes` | src/connection.rs:302-386 | from every state of every run, a turn of such a stream that the server grants and nothing disturbs ends with the stream in the map under the granted id, not under the old one, and alive |
| `RegistryFlow.UndisturbedTurnEnds` | src/connection.rs:303-345 | a turn of a stopped stream, of one without its adapter, or of one whose request fails, undisturbed, takes exactly that entry out and leaves its stream stopped and released |
| `RegistryFlow.EntriesLeaveOnlyBy` | src/connection.rs:278-458 | an entry leaves the map exactly by a stop or an adapter unregistering its key, the end of its stream, a drain, or its own turn |
| `RegistryFlow.RemovesOnlyInItsTurn` | src/connection.rs:303-345 | the loop goes to give an entry up only in that entry's turn, because its stream was stopped or had lost its adapter, or because its request failed |
| `RegistryFlow.StopTakesBackEveryId` | src/stream.rs:95-117 | in every run, a completed stop has loaded the effective id twice and has unregistered what it loaded and the original id, each once, and nothing else |
| `RegistryTheorems.RekeyedOnlyByStore` | src/connection.rs:374-385 | a stream's effective id changes only when a remap stores the granted id, and a set flag stays set |
| `RegistryTheorems.RekeyedAtMostOnceAfterStop` | src/connection.rs:366-386 | after the flag is set the stream is re-keyed at most once more, by a section that had read the flag before |
| `RegistryTheorems.StoppedIsNotResumed` | src/connection.rs:303-311 | no event lets a stopped stream be requested again, or its granted id be stored by a section that reads the flag afterwards |
| `RegistryTheorems.StopLeavesEntryIff` | src/stream.rs:92-130 | after a completed stop with the lock free, the stream still has an entry exactly when such a remap stored its id after stop had loaded the ids, and nobody has removed the entry since |
| `RegistryStops.TakenOutByRemoval` | src/connection.rs:303-310 | the record that an entry was taken out is set by exactly these events: the stream's end at the server, a drain, a failed or stopped resume, the adapter's unregistering of the effective id |
| `RegistryStops.WindowIsDecidedAtStop` | src/stream.rs:92-93 | a stop sets its flag once, and whether that falls between a remap's reading of the flag and its store is known at that event |
| `RegistryStops.StopOutsideWindowIsClean` | src/stream.rs:92-117 | a stop whose flag was not set between a remap's reading of the same stream's flag and its store of the new id leaves no entry, whatever else happens |
| `RegistryStops.StopInWindowCanLeak` | src/connection.rs:366-386 | from every state in which a stop begins in that window the run can go on so that the stop completes and its stream stays in the map |
| `RegistryStops.StopCanLeakIff` | src/stream.rs:92-117 | a stop called now may leave its entry behind if and only if a remap of its stream has read the flag and not yet stored the new id |
| `RegistryStops.UninterruptedStopIsClean` | src/connection.rs:366-386 | were the section of the stream's own remaps one atomic step, no completed stop would leave an entry |
| `RegistryTheorems.StopCanBeOvertaken` | src/stream.rs:95-117 | a concrete run in which a completed stop leaves its stream in the map under the new id |
| `QuoteStreamClass.Client.UnregisterStream` | src/connection.rs:740-743 | exactly the entry under that id goes |
| `QuoteStreamClass.Client.ClaimRelease` | src/stream.rs:119-128 | exactly the first path for a stream wins the release, which is the last event of the run |
| `QuoteStreamClass.Client.StopAndRelease` | src/stream.rs:95-128 | loads the ids twice, unregisters each distinct one, and leaves the slot released, by its own last step exactly if it says so; it stays behind only while the lock is taken, in the middle of unregistering |
| `QuoteStreamClass.Client.StopStream` | src/stream.rs:88-131 | stopping twice does nothing; a completed stop leaves the slot released, and no entry unless at the call a remap of the stream had read the flag and not yet stored its id; then it leaves one exactly when it was overtaken and nobody took the entry out; a stop not completed has set the flag and stands before an id to unregister while the lock is taken |
| `QuoteStreamClass.Client.DropStream` | src/stream.rs:134-189 | inside a runtime dropping does what stop does, with the same two guarantees about the entry; outside one it releases the slot only; a stopped handle's drop does nothing |
| `QuoteStreamClass.Client.OnEnd` | src/queue.rs:210-218 | flag first, then release: afterwards the stream is stopped and its slot released, by this call or by another |
| `QuoteStreamClass.Client.HandleStreamEnd` | src/connection.rs:639-646 | exactly the entry under the id is removed, and its stream ends up stopped and released |
| `QuoteStreamClass.Client.CleanUpStreams` | src/connection.rs:668-675 | the drain leaves an empty map and every stream that was registered when the lock was taken stopped and released; the drain of `stop_all_streams` is the same loop |
| `System.OtherSlotEvents` | src/queue.rs:62-161 | no other event of slot admission touches a stream's slot |
| `System.OtherStreamEvents` | src/connection.rs:278-458 | no other event of the stream map opens, closes or releases a stream |
| `System.KeepsGood` | src/queue.rs:202-264 | every event of the whole system keeps the one-to-one link of streams and started slots, with equal release flags |
| `System.ActiveCountIsOpenStreams` | src/queue.rs:70-78 | `active_count` is the number of slots of open streams, one each and all different, of starts in flight, and of releases on their way to the counter |
| `System.OpenStreamsStayWithinALimit` | src/queue.rs:67-79 | the streams whose slot is not released are at most as many as some limit that was in force, over all reconnects, stops, drops and ends |
| `System.ClosingEverythingFreesEverySlot` | src/stream.rs:119-128 | once every stream is released and no start or release is in progress, the counter is 0 |
| `System.ReleaseIsNeverBlocked` | src/stream.rs:119-128 | a handle or callback that reaches the compare-and-swap can always perform it |
| `Exchange.KeepsGood` | src/queue.rs:171-234 | every event of requests and streams together keeps: both views of the loop agree, an awaited resume request was sent for the stream whose turn it is, and what a call received was issued for the request whose reply answered it |
| `ExchangeTheorems.StreamIsItsOwnIff` | src/queue.rs:186-234 | in every run, every id of a stream was issued by the server in answer to that stream's own start or one of its own resumes, if and only if its start was not handed the late reply to an abandoned resume request |
| `ExchangeTheorems.QuotesAreItsOwn` | src/connection.rs:633-638 | such a stream is in the map only under ids, and is sent data only under ids, that were issued for requests made for it |
| `ExchangeTheorems.EveryStreamIsItsOwn` | src/connection.rs:362-386 | if the loop reads no more replies from a connection on which a wait was broken off, this holds of every stream, over any number of reconnects |
| `ExchangeTheorems.StartIsNeverBlocked` | src/queue.rs:186-234 | the id that a start received has never been taken by another stream |
| `ExchangeTheorems.LateReplyStartsAStream` | src/queue.rs:186-234 | a concrete run that ends with a new stream registered under the id that the server issued in answer to another stream's resume request |
| `Resume.RemovalAccounts` | src/connection.rs:303-310 | removing an entry with its `on_end` loses no stream and ends none twice |
| `Resume.RemapAccounts` | src/connection.rs:366-386 | a remap loses exactly the stream whose key is the granted id, if there is such an entry |
| `Resume.PassLosesNothingIff` | src/connection.rs:284-457 | for every snapshot order and all interleaved frames: the pass ends no stream twice, keeps keys and effective ids equal, and accounts for every stream exactly when no granted id is the key of another entry at that moment |
| `Resume.FreshNeverClashes` | src/connection.rs:284-457 | ids that are neither in use nor granted twice never clash |
| `Resume.EntriesComeFrom` | src/connection.rs:362-386 | an entry after the pass was there before, or belongs to the stream whose turn was granted its key |
| `Resume.OldIdMeansGaveUp` | src/connection.rs:433-453 | an entry left under its old id belongs to a turn that had sent its request and stopped waiting because the socket died |
| `Resume.ResumeKeepsEveryStream` | src/connection.rs:284-457 | with fresh ids every stream ends the pass once: ended, or under one key, granted in its own turn or its old one when the socket died |
| `Resume.ReusedIdLosesAStream` | src/connection.rs:366-386 | a concrete pass with a reused id that overwrites a stream not yet resumed: it is neither in the map nor ended |
| `ResumeFate.FateOfStream` | src/connection.rs:302-457 | for every pass with fresh ids and every stream of its snapshot: it is ended if and only if its turn began stopped, its request was not encoded or not sent, its end was read under its old id before its reply or under the granted id later, its reply was an error or named no stream, or it was stopped at its reply; otherwise it finishes in the map under the id that its own reply granted, or its old one if none came, with that as its effective id |
| `ResumeFate.PassCounts` | src/connection.rs:313-314 | every turn that sends or tries to send takes the next request id, and no other does |
| `ResumePassClass.ResumePass.Remove` | src/connection.rs:303-310 | removes the entry, if there is one, and calls its callback |
| `ResumePassClass.ResumePass.MoveEntry` | src/connection.rs:366-386 | the locked section: out under the old id, in under the new one, or ended when stopped meanwhile; what that means for a stream is stated by `ResumeFate.FateOfStream` |
| `ResumePassClass.ResumePass.AwaitReply` | src/connection.rs:347-455 | the loop over frames computes what the specification says for the frames read |
| `ResumePassClass.ResumePass.ResumeStreams` | src/connection.rs:278-458 | the nested loops compute the specified pass and keep the map well formed; when ids are fresh they lose nothing, end exactly the streams that there is a reason to end, and leave every other under the id granted to it, or its old one if no reply came |
| `RequestsTheorems.KeepsInv` | src/connection.rs:495-530 | every event of callers, loop and server keeps the invariant of channel, map, answers, outstanding requests and phase |
| `RequestsTheorems.RequestIsInOnePlace` | src/connection.rs:495-530 | a request accepted by the channel is at all times in exactly one of: channel, loop's hand, pending map, answers; one not accepted is in none |
| `RequestsTheorems.AnsweredOnce` | src/connection.rs:617-632 | no call is answered twice |
| `RequestsTheorems.AnswersStand` | src/connection.rs:617-632 | no event changes or withdraws an answer |
| `RequestsTheorems.DisconnectAnswersPending` | src/connection.rs:658-665 | the drain after a disconnect answers every pending request and leaves none |
| `RequestsTheorems.NoneIsLeftUnanswered` | src/connection.rs:272-275 | when the loop has returned, exactly the accepted requests have been answered, and no more are accepted |
| `RequestsTheorems.InsertNeverOverwrites` | src/connection.rs:500-506 | the id about to be inserted is never in the map |
| `RequestsTheorems.ResumePassIsAlone` | src/connection.rs:257-264 | throughout a resume pass nothing is pending and only resume requests are outstanding; no reply read then reaches a caller, and the one that ends a wait is the awaited one |
| `RequestsTheorems.SameIdNeedsAbandonedWait` | src/connection.rs:352-360 | two requests with one id are outstanding together only if one is a resume request whose wait was given up, and the other a caller's |
| `RequestsTheorems.RepliesAreOwnIff` | src/connection.rs:617-623 | a pending request can only be answered by the reply to itself, if and only if no given-up resume request with its id is outstanding |
| `RequestsTheorems.AnswerIsOwnIff` | src/connection.rs:617-632 | in every run, the answer a call has received was sent for its own request if and only if no event handed that call the reply to a resume request nobody awaits any more |
| `RequestsTheorems.AnswersAreOwnIff` | src/connection.rs:617-632 | all answers of a run are own if and only if none of its events is such a reply with the id of a pending request |
| `RequestsTheorems.AnswersAreOwn` | src/connection.rs:617-632 | over any number of reconnects and waits broken off, if the loop reads no more replies from a connection on which a wait was broken off, every response or error a caller receives was sent for its own request |
| `RequestsTheorems.LateReplyAnswersAnother` | src/connection.rs:443-453 | a concrete run of the machine in which a reply read after a wait was broken off answers a caller's request |
| `RequestsFlow.OfferedOnce` | src/connection.rs:697-705 | in every run a call is offered to the channel at most once, and stands where that offer has brought it |
| `RequestsFlow.RequestsAreTakenInOrder` | src/connection.rs:495-498 | requests leave the channel in the order in which it accepted them; none is lost or repeated in it |
| `RequestsFlow.AcceptedCallsAre` | src/connection.rs:697-705 | the calls that the channel took are exactly those that stand as accepted, each once |
| `RequestsFlow.ResumeIdsAreNew` | src/connection.rs:313-314 | a resume request has an id larger than that of every request that the loop forwarded, and of every resume request before it |
| `RequestsFlow.UndisturbedRequestIsAnswered` | src/connection.rs:495-530 | from every state in which the loop serves a connection, the request at the front of the channel, undisturbed, is sent, and the server's reply to it becomes its one answer |
| `ConnectionClass.Connection.ChannelSend` | src/connection.rs:697-704 | accepted while there is room, refused once the receiver is gone, otherwise waiting |
| `ConnectionClass.Connection.SendRequest` | src/connection.rs:679-714 | after a shutdown nothing happens; otherwise the call is numbered and offered to the channel once: it returns the one answer of its own call, which has the call's id and was sent for its own request exactly when no late resume reply was handed to this call; or it was refused by a closed channel, unanswered; or it waits, accepted and unanswered, or with the channel full; it never waits for a loop that is gone |
| `ConnectionClass.Connection.Insert` | src/connection.rs:503-506 | inserts under a key that was not in the map |
| `ConnectionClass.Connection.ForwardRequest` | src/connection.rs:495-530 | the loop takes, inserts and writes the request, in this order and nothing else; afterwards the request is pending and outstanding, or, when encoding or sending failed, answered and out of the map, with everything else pending as before; the counter is past its id |
| `ConnectionClass.Connection.HandleServerMessage` | src/connection.rs:617-632 | answers the pending request with that id and no other, and a caller's own reply answers that caller |
| `ConnectionClass.Connection.FailPendingRequests` | src/connection.rs:658-665 | visits the map in any order, empties it, and answers every request that was pending, in one event |
| `ConnectionClass.Connection.RunSingleConnection` | src/connection.rs:461-609 | every pass up to the first return does its work if it finds some when it looks, the loop does nothing else, and the connection is left once |
| `ConnectionClass.Connection.ResumeTurn` | src/connection.rs:313-455 | the turn sends its request, or fails to, once, reads exactly the outstanding replies offered to it up to its own, and breaks off only if that does not come; nothing becomes pending or answered meanwhile |
| `ConnectionClass.ReadsEndWithOwnReplyIff` | src/connection.rs:348-456 | what a turn reads ends with its own reply if that is among the replies, and with breaking off otherwise; everything before is the reply to another outstanding request |
| `ConnectionClass.Connection.ReadReply` | src/connection.rs:352-360 | a reply read in a resume pass changes no caller's request and ends the wait exactly when it is the awaited one |
| `ConnectionClass.Connection.RunConnectionLoop` | src/connection.rs:175-275 | the milestones of the loop are the planned ones: each connection is lost and its requests failed before the loop dials or leaves, every stream's turn asks once, and the clean-up comes last; when it has returned, a call was answered exactly when the channel had accepted it |
| `ConnectionClass.Connection.DropTheReceiver` | src/connection.rs:272-275 | what was left in the channel is answered |
| `Backoff.ProductFitsIff` | src/connection.rs:811-814 | the product fits in 64 bits exactly up to attempt 58 |
| `Backoff.BackoffIsCapped` | src/connection.rs:811-814 | up to there the delay is the smaller of 100 * 2^(attempt-1) and the maximum |
| `Backoff.BackoffIsCappedIff` | src/connection.rs:811-814 | for every attempt, when the delay is the intended one: up to 58, or when the maximum is no more than what the cut to 64 bits leaves; attempts 63 and 64 do not wait |
| `Backoff.BackoffGrows` | src/connection.rs:811-814 | up to attempt 58 the delays do not decrease |
| `Backoff.TotalDelayIsBounded` | src/connection.rs:216-247 | the delays of up to 58 attempts add up to at most 100 * (2^m - 1), and to at most m times the maximum |
| `Reconnect.RunRound` | src/connection.rs:188-269 | one pass of the loop does what the log says, leaves when it should, and counts the attempt |
| `Reconnect.RunConnectionLoop` | src/connection.rs:175-275 | the loop performs the specified log over any rounds |
| `Reconnect.AttemptsAreConsecutive` | src/connection.rs:213-246 | the published attempts are 1, 2, 3, ... since the last successful dial, never above the maximum |
| `Reconnect.StepsAreInOrder` | src/connection.rs:188-275 | in every log: a lost connection has its requests failed; a published attempt is followed by its own delay and a dial; a successful dial, and nothing else, is published as connected and followed by the resume pass; only leaving is followed by the two clean-ups, in their order |
| `Reconnect.CleansUpIffItLeaves` | src/connection.rs:272-275 | both clean-ups run exactly when the loop leaves, once, and nothing happens afterwards |
| `Reconnect.LeavesAtFirstReason` | src/connection.rs:205-230 | the loop dials once in every round, with that round's outcome, up to the first in which shutdown was asked for, the channel is closed, or the failures in a row use up the attempts; there it leaves, and it publishes that it gives up exactly if neither of the first two holds |
| `Reconnect.LongOutageEndsTheRun` | src/connection.rs:213-230 | with a maximum of m, no run survives m + 1 rounds without a successful dial, whenever the outage begins |
| `Reconnect.GivesUpAfterExactly` | src/connection.rs:213-275 | if connecting always fails the loop dials exactly m times, publishes that it gives up, and cleans up; for m up to 58 its sleeps are bounded by the capped exponential |
| `GivingUp.RunFits` | src/connection.rs:188-275 | every run of requests and streams that retries as configured performs, step by step, the specified log over its rounds |
| `GivingUp.CoveredStays` | src/connection.rs:668-675 | every event keeps: a stream still to be ended by the loop's final drain is in the map or being ended, until it is stopped and released |
| `GivingUp.LeavingSettlesEverything` | src/connection.rs:272-275 | once the loop has returned, for whatever reason, its log is the specified one, a call was answered exactly when the channel had accepted it, and every stream registered when the final drain took the lock is stopped and released |
| `GivingUp.GivingUpSettlesEverything` | src/connection.rs:213-275 | if connecting always fails and nobody asks the loop to leave, then once it has returned it has dialled exactly m times and given up within the bound on its sleeps, every accepted request is answered, and every stream then registered is released |
| `GivingUp.GivingUpHappens` | src/connection.rs:213-275 | a run in which the loop gives up and returns |
| `Keepalive.RunSingleConnection` | src/connection.rs:484-602 | the loop's variables compute the specified status over any trace of events |
| `Keepalive.AwaitsSinceLatestPing` | src/connection.rs:559-562 | a pong is awaited exactly when none was processed since the latest ping |
| `Keepalive.TimesOutIff` | src/connection.rs:580-600 | the connection is given up exactly at a tick that comes more than the positive timeout after the sending of the latest ping ended, with no pong in between |
| `Keepalive.PingFailsIff` | src/connection.rs:591-598 | the connection is given up for want of a ping exactly at a tick that is not overdue and whose ping cannot be sent |
| `Keepalive.AliveIff` | src/connection.rs:580-600 | over any trace, the connection is alive exactly when no tick was overdue and every ping was sent |
| `Keepalive.SilentPeerIsDetectedIff` | src/connection.rs:478-602 | with exact ticks and sends that take no time, a silent peer is given up at the second tick if 0 < timeout < interval, and otherwise never, because each ping restarts the clock |

## Left out

- StreamManagerClass.StreamManager.ProcessQueue: the worker's loop runs for a given number of rounds and is then observed, because a worker need not ever return.
- StreamManagerClass.StreamManager.RequestStream: the answer to the start is arbitrary here; that it is the reply to the request is the business of module `Requests`.
- QuoteStreamClass.Client.StopStream: does not say that the lock is ever granted; while another section holds it, the stop is observed as not done.
- ResumePassClass.ResumePass.ResumeStreams: entries are not unregistered by other tasks during the pass; module `Registry` has the pass with all of them interleaved.
- ConnectionClass.Connection.SendRequest: is observed after any number of events and may still wait; that a server answers is not promised by the code.
- ConnectionClass.Connection.RunSingleConnection: keepalive and stream frames are passes that leave requests alone; they are in `Keepalive` and `Registry`.
- Reconnect.RunConnectionLoop: the attempt counter is unbounded, so its 32-bit overflow after four thousand million failed dials is not modelled.
- The `StopStream` requests that a stop sends before each unregistering: they are calls of `send_request` whose results it ignores, and take any time.
- Weak memory, fairness of the scheduler, and progress while a bounded channel is full: the loop waits for room in a stream's channel while it holds the read lock.
- A bound on the streams open at the server: a resume that finds its stream stopped frees the slot without stopping the new server stream, and a drop outside a runtime sends no stop.
- Newcomers may overtake queued requests on the fast path, so the order proved is that of queued requests only.
- Streams registered after the final clean-up are not ended by it.
- Setting up the WebSocket and TLS, URLs, the message codec, tracing, and which connection state is published last.
- `src/client.rs`, `src/config.rs`, `src/state.rs`, `src/error.rs`, `src/instructions.rs` and the command line: wrappers, builders, accessors and field-by-field conversions.
- `QuoteStream::new`, the handle without a manager, has no slot; apart from that it behaves like the managed one.
