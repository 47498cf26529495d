# JobQ, verified

JobQ is an in-memory job queue for asynchronous work inside one process. Callers submit inputs, a
batcher collects them into windows, a queue stores the resulting jobs, and workers execute them. This
project models the parts of JobQ whose correctness does not show in any single function body, and
proves what they promise.

**Admission** (`Admission`, `AdmissionInvariant`, `AdmissionTheorems`, `AdmissionLock`,
`AdmissionProgress`, `WindowSlot`, `Window`). Any number of callers join one open window; the window is
submitted once; acceptance or rejection has to reach every caller that joined. `Admission.dfy` is a state
machine over the atomic steps of `enqueue`: taking the slot mutex, taking the entry out, upgrading the weak admission, pushing,
putting the entry back, creating and publishing a window, dropping a discarded admission, the job
becoming visible, `Queue::enqueue` returning, the result being recorded, cancellation at every await,
destructors, and the worker's `seal` at any moment. Reference counts and the owner of the mutex are
part of the state. `AdmissionInvariant.dfy` proves one inductive invariant; the theorems are about every
run of any length with any number of callers and windows, and `AdmissionProgress` bounds the length of
runs without new arrivals and shows that one that cannot go on has answered everybody. `Window` and
`WindowSlot` are the classes; an uninterrupted `join` is proved to be a run of the machine and the class to end in that run's state.

**Lifecycle and wake-ups** (`Lifecycle`, `WakeUp`, `DequeueWait`). The first-claim-wins outcome cell with
its close signal, as objects and then raced by any number of threads; the listen / check / park protocol
against flag / notify, with the exact condition under which no wake-up is lost; and the loop in which the
priority queue's `dequeue` waits, where one can be, with the exact condition for each call.

**Stream batches** (`StreamMember`, `StreamObjects`, `Isolation`, `Routing`, `Multiplexed`,
`Independent`, `StreamBatchJob`). Members with bounded channels, consumers that read or drop their handle
between any two steps in which another thread can be seen, the biased routing loop, the shared
preparation raced against departures, and the settlement of whoever is left. `Routing` also holds an independent reference: the marks of a member's
history, the first mark that ends its stream, and what the member is owed.

**Retry** (`Retry`, `RetryJob`). The rounds of the batch retry loop as a function of the replies, each
member's own story through them, and the loop itself over mutable deliveries, proved to be that function.
User code is an oracle that may return results, a list of the wrong length, an outer error, or a panic.

**Priority queue** (`PriorityOrder`, `PriorityQueue`). A binary heap, kept in a sequence, refines
a sorted one, which answers every history of calls like a naive queue that serves the first arrival of the highest priority.

Automatic induction is off on every lemma: each proof is the one that is written.

Where documentation and code differ, the code is modelled. The queue trait says that `dequeue` answers
`None` when the queue is closed (`crates/jobq-core/src/queue/traits.rs:28`); the priority queue goes on
handing out what it holds and answers `None` only when it is empty.

## Model

| member | source | states |
|---|---|---|
| AdmissionTheorems.EnqueueIsTruthful | crates/jobq-core/src/batch/task.rs:38-65 | in every reachable state, a caller that got `Ok` has its member at exactly one position of one window, whose submission returned `Ok`; a caller that got the queue's error has it in a window whose submission returned that error and which no worker sealed |
| AdmissionTheorems.UncancelledCallersAreTold | crates/jobq-core/src/batch/task.rs:45-64 | along any run that holds no cancellation of a caller, if it has finished it got `Ok` if and only if its window's submission returned `Ok`, and the queue's error if and only if that returned the error; there is no third answer |
| AdmissionTheorems.NoneMeansAccepted | crates/jobq-core/src/batch/window.rs:122-127 | `join` answers `None` only for a window whose submission has been accepted |
| AdmissionTheorems.SiblingsAgree | crates/jobq-core/src/batch/window.rs:44-73 | uncancelled callers of one window get the same answer |
| AdmissionTheorems.OneSeat | crates/jobq-core/src/batch/window.rs:285-301 | a caller is at no more than one position of no more than one window |
| AdmissionTheorems.MembersConserved | crates/jobq-core/src/batch/window.rs:199-243 | a window's contents, or what its one `seal` returned, are exactly the payloads of the callers that joined it, in join order and index-aligned; what `seal` returned stays the whole membership in every later state |
| AdmissionTheorems.LaterRun | crates/jobq-core/src/batch/window.rs:285-336 | along any run memberships only grow, seals and resolved submissions are final, sealed windows gain nobody, and a dead admission never comes back |
| AdmissionTheorems.NoStrandedCaller | crates/jobq-core/src/batch/window.rs:193-249 | while a submission is unresolved, every caller of its window that was not cancelled owns a strong reference |
| AdmissionTheorems.OnlyDeadWindowsAreGivenUp | crates/jobq-core/src/batch/window.rs:153-162 | a destructor's `abandon`, or a `join` that finds a pending entry that no longer upgrades, only ever gives up on a window all of whose callers were cancelled |
| AdmissionTheorems.GoneForEver | crates/jobq-core/src/batch/window.rs:199-240 | a window that left the slot never returns to it and never gains a member |
| AdmissionTheorems.StaleCallbackIsHarmless | crates/jobq-core/src/batch/window.rs:143-173 | any number of steps after a window was replaced, its `accept`, `evict` or `abandon` changes neither the slot nor another window |
| AdmissionTheorems.DisplacedIsSealed | crates/jobq-core/src/batch/window.rs:203-227 | a window that leaves the slot other than through a callback is displaced by the mutex owner and is sealed at that moment |
| AdmissionTheorems.RecordedInTheSlot | crates/jobq-core/src/batch/window.rs:143-173 | a result recorded while its window is in the slot: acceptance leaves it there with the same options, marked accepted; rejection empties the slot |
| AdmissionTheorems.WhyAWindowLeaves | crates/jobq-core/src/batch/window.rs:143-240 | whatever the step, a window leaves the slot, or the hands of the mutex owner, only if it is sealed, was rejected, or all its callers were cancelled |
| AdmissionTheorems.WhyAWindowIsSealed | crates/jobq-core/src/batch/window.rs:203-230 | an unsealed window becomes sealed only by its job's `seal`, by the push that fills it to the limit, or by a `join` that has other options or finds its submission given up |
| AdmissionTheorems.NoDeadWindowLingers | crates/jobq-core/src/batch/window.rs:76-82 | in every reachable state a pending window in the slot is owned by somebody, or the destructor that takes it out is still running |
| AdmissionInvariant.StepKeeps | crates/jobq-core/src/batch/window.rs:181-250 | every atomic step keeps the invariant: mutex ownership, entries, places, contents, submissions, reference counts |
| AdmissionInvariant.RunKeeps | crates/jobq-core/src/batch/window.rs:181-250 | so does every run |
| AdmissionLock.LockNeverReentered | crates/jobq-core/src/batch/window.rs:194-249 | the owner of the slot mutex is never at a point that takes it again, and none of its steps inside the guarded block releases a reference, so no destructor runs there |
| AdmissionLock.DiscardCanBeLast | crates/jobq-core/src/batch/window.rs:216-246 | there is a run in which `join`, still owning the mutex, holds the last reference to the admission it is going to discard: dropping it before the mutex is free would deadlock |
| AdmissionLock.LockIsReleased | crates/jobq-core/src/batch/window.rs:196-244 | whoever owns the mutex frees it within four steps of its own |
| AdmissionLock.SomebodyCanMove | crates/jobq-core/src/batch/window.rs:71-73 | no interleaving deadlocks: as long as a caller has no answer, some step is enabled that is neither an arrival, a withdrawal nor a cancellation |
| AdmissionProgress.RunsEnd | crates/jobq-core/src/batch/window.rs:181-250 | a run without arrivals has at most 17 steps per caller and 2 per window, however the steps interleave |
| AdmissionProgress.MaximalRunsAnswerEverybody | crates/jobq-core/src/batch/task.rs:45-64 | a run from any reachable state that goes on until nobody can go on has answered everybody; every caller that nobody cancelled and that did not withdraw got `Ok` if and only if its window was accepted and the queue's error if and only if it was rejected; without arrivals the run is no longer than 17 steps per caller and 2 per window |
| AdmissionProgress.EverybodyCanBeAnswered | crates/jobq-core/src/batch/window.rs:71-73 | from every reachable state everybody can be answered without anyone arriving, withdrawing or being cancelled |
| AdmissionProgress.StepDescends | crates/jobq-core/src/batch/window.rs:181-250 | every step but an arrival brings the end nearer |
| Windows.Window.Push | crates/jobq-core/src/batch/window.rs:285-301 | refuses exactly when sealed and changes nothing then; otherwise appends to both vectors, is sealed exactly when their length has reached the limit, and notifies exactly then |
| Windows.Window.Close | crates/jobq-core/src/batch/window.rs:303-307 | seals, keeps the contents, always notifies |
| Windows.Window.Seal | crates/jobq-core/src/batch/window.rs:329-335 | hands out both vectors whole and aligned and leaves a sealed, empty window |
| Windows.Window.constructor | crates/jobq-core/src/batch/window.rs:261-279 | one member, sealed from the start when the size limit is at most one |
| WindowSlots.JoinIsARun | crates/jobq-core/src/batch/window.rs:181-250 | an uninterrupted `join` is a run of the machine and ends in `JoinAlone` |
| WindowSlots.JoinEntersTheOpenWindow | crates/jobq-core/src/batch/window.rs:199-216 | from any reachable state with the mutex free and an unsealed window with the caller's options in the slot, accepted or still owned, an uninterrupted `join` adds its member behind the others, opens no window, and keeps the window in the slot unless it is full now; if it was accepted the caller is done at once with `Ok`, and otherwise it waits for that window's submission |
| WindowSlots.JoinOpensAWindow | crates/jobq-core/src/batch/window.rs:199-248 | from any reachable state with the mutex free and no window the caller can enter, an uninterrupted `join` opens one with its member alone, puts it into the slot unless it is full, seals the one it displaces, changes no other, and waits for its own submission |
| WindowSlots.WindowSlot.Join | crates/jobq-core/src/batch/window.rs:181-250 | the class's `join` leaves slot, found window, opened window, strong counts and its answer as that run does |
| WindowSlots.WindowSlot.Enter | crates/jobq-core/src/batch/window.rs:199-230 | closes a window with other options or a dead pending admission, else upgrades and pushes; what it returns and leaves behind in each case |
| WindowSlots.WindowSlot.OpenAndPublish | crates/jobq-core/src/batch/window.rs:232-243 | a new window enters the slot exactly when it is not full from the start |
| WindowSlots.WindowSlot.Accept | crates/jobq-core/src/batch/window.rs:143-151 | its own window's entry stays, with the same options, and is marked accepted; any other entry stays as it is |
| WindowSlots.WindowSlot.Abandon | crates/jobq-core/src/batch/window.rs:153-162 | takes out its own window's entry exactly if it is pending; leaves any other |
| WindowSlots.WindowSlot.Evict | crates/jobq-core/src/batch/window.rs:164-173 | takes out its own window's entry; leaves any other |
| Lifecycles.OneTerminalOutcome | crates/jobq-core/src/future.rs:133-149 | for any interleaving of claims and receiver drops: an outcome is recorded iff some call won, at most one wins; it is the outcome that call was made with, or the configured error if it was the receiver's drop; the result future is sent it exactly once, and with a drop error configured a closed signal implies an outcome |
| Lifecycles.QuietRaceIsSettled | crates/jobq-core/src/future.rs:133-149 | once every call has returned and one had an outcome to set, an outcome stands and the signal is closed |
| Lifecycles.RaceIsMonotone | crates/jobq-core/src/future.rs:32-48 | a recorded outcome never changes and a closed signal never opens |
| Lifecycles.OpenNeverComesBack | crates/jobq-core/src/future.rs:151-153 | once `is_open`, with its two separate reads, has answered no, it answers no whatever happens around later reads |
| Lifecycles.StreamLifecycle.SetTerminal | crates/jobq-core/src/future.rs:133-141 | the first call records, sends and closes; later ones change nothing; the answer tells which |
| Lifecycles.StreamLifecycle.ReceiverDropped | crates/jobq-core/src/future.rs:143-149 | claims the configured error if there is one, and closes in any case |
| Lifecycles.StreamLifecycle.Close | crates/jobq-core/src/future.rs:97-101 | notifies only when it is the call that flips the flag |
| Lifecycles.JobFutureSetter.SetResult | crates/jobq-core/src/future.rs:308-312 | only the first result is sent |
| WakeUps.NoLostWakeUp | crates/jobq-core/src/future.rs:97-115 | no run leaves a waiter parked and unnotified after the closer is done, if and only if the listener is created before the flag is read |
| WakeUps.CoveredRun | crates/jobq-core/src/batch/window.rs:292-327 | in every state of every run an unnotified sleeper means the flag is unset or its setter is about to notify, also with `seal` setting the flag silently and waits that time out |
| WakeUps.LateListenerSleeps | crates/jobq-core/src/queue/priority.rs:119-127 | check-then-listen, as in the priority queue, can sleep through `close`, which notifies everybody: the run |
| WakeUps.WhenALateListenerIsSafe | crates/jobq-core/src/queue/priority.rs:113-127 | in any state, a waiter that checks before it listens can lose its wake-up if and only if the flag is not set yet as it starts |
| DequeueWaits.WhenDequeueMaySleep | crates/jobq-core/src/queue/priority.rs:112-129 | in any state, with the loop, the heap, other calls, `enqueue`'s `notify(1)` and `close`: a call of `dequeue` may be left asleep over an item, and over the closing - no notification under way, every other call asleep too or returned - if and only if it does not find the queue closed; also if no two notifications ever merge |
| DequeueWaits.LetThemReturn | crates/jobq-core/src/queue/priority.rs:112-129 | from that point on every other call can be made to return, however many there are and wherever they are, leaving the heap empty: nobody is left to take the next item |
| DequeueWaits.NotificationsCanMerge | crates/jobq-core/src/queue/priority.rs:105-107 | a late listener is not needed for it: with two calls asleep and two items pushed, `notify(1)` does nothing the second time, and one call sleeps on over an item: the run |
| DequeueWaits.WhoListensInTimeHears | crates/jobq-core/src/queue/priority.rs:127-139 | a call that is listening when the flag is set is not asleep any more once the closer has notified, whatever happens in between |
| DequeueWaits.NeverParks | crates/jobq-core/src/queue/priority.rs:114-117 | a call that finds the queue closed never waits, whatever else happens |
| DequeueWaits.BeforeListening | crates/jobq-core/src/queue/priority.rs:119-127 | a call that finds it open can get to the point before its listener with an empty heap, nobody notified and no notification under way, whatever state it started in |
| StreamMembers.FinishedMemberDrains | crates/jobq-core/src/batch/stream/member.rs:96-100 | after `finish` the consumer receives every remaining accepted item in order, then end of stream, not earlier, and the outcome stays |
| StreamMembers.AcceptKeepsMember | crates/jobq-core/src/future.rs:397-412 | an accepted item keeps: at most `capacity` items buffered, received plus buffered equals accepted, and the lifecycle facts |
| StreamMembers.PopKeepsMember | crates/jobq-core/src/future.rs:370-379 | so does taking an item |
| StreamObjects.NewStream | crates/jobq-core/src/future.rs:332-353 | builds a stream exactly for the capacities the source admits, with that total capacity, and an error otherwise |
| StreamObjects.StreamBatchMember.TrySend | crates/jobq-core/src/batch/stream/member.rs:78-94 | delivers exactly when open and not full, hands the item back otherwise, and says which |
| StreamObjects.StreamBatchMember.Finish | crates/jobq-core/src/batch/stream/member.rs:96-100 | gives up the sending half and claims the outcome, once |
| StreamObjects.StreamBatchMember.IsOpen | crates/jobq-core/src/batch/stream/member.rs:53-55 | open means the sending half is there, the signal is not closed and no outcome is recorded |
| StreamObjects.JobStream.Drop | crates/jobq-core/src/future.rs:355-362 | the destructor is the four consumer steps of the member machine: claim, set the flag, notify, receiver gone |
| StreamObjects.BatchCompletion.FailUnfinished | crates/jobq-core/src/batch/stream/member.rs:14-18 | over shared lifecycle objects: each gets the error unless it already had an outcome |
| StreamObjects.BatchCompletion.HasFailure | crates/jobq-core/src/batch/stream/member.rs:20-24 | yes if and only if some recorded outcome is an error |
| Isolation.RunsAlone | crates/jobq-core/src/batch/stream/mode.rs:97-129 | in a trace of addressed acts, each machine ends as it would alone on its own part of the trace |
| Isolation.OutOfRange | crates/jobq-core/src/batch/stream/mode.rs:99-103 | an event for an index that does not exist changes nothing, wherever it stands in the trace |
| Routing.MemberGetsWhatItIsOwed | crates/jobq-core/src/batch/stream/mode.rs:84-133 | for any interleaving of loop and consumer steps, outcome, result future, received and accepted items are those of the reference |
| Routing.CutIsFirst | crates/jobq-core/src/batch/stream/mode.rs:99-126 | the reference's cut is the first finish, overrun, departure or producer end |
| Routing.MarksAreTheEvents | crates/jobq-core/src/batch/stream/mode.rs:97-120 | the reference's producer marks are the events the loop took, in order, but for the one in hand |
| Routing.AnEventOnItsOwn | crates/jobq-core/src/batch/stream/mode.rs:99-120 | what an event comes to for an open member while no consumer moves: an item is buffered if there is room and ends the member with `ConsumerLag` if there is none; a finish ends it; the user's errors become task errors |
| Routing.AnEventTooLate | crates/jobq-core/src/batch/stream/mode.rs:100-117 | an event for a member that has an outcome, a closed signal or no sending half changes nothing |
| Routing.StepAgrees | crates/jobq-core/src/batch/stream/member.rs:78-100 | each single act keeps the running member and the reference in agreement |
| MultiplexedMode.RunMultiplexed | crates/jobq-core/src/batch/stream/mode.rs:46-143 | on every return all members have an outcome and the status is `Failed` iff one is an error; the state is where its trace leads; the events taken are a prefix of those produced; nothing in the trace acts for a consumer or ends the producer early; no more than 64 events before the first pause, between any two and since the last; it returns, panics or is still running for the reasons the loop has, and with no panic and more ready polls than events and members it returns |
| MultiplexedMode.RouteAll | crates/jobq-core/src/batch/stream/mode.rs:61-133 | the loop: it is done if all closures have been yielded or the producer has given all its events and then its end, a panic leaves it at the tick it comes in, and it is still running only if no tick is left and neither has happened; in all ticks before, every answer of the producer was served but for those in ticks that went to a closure, one per yielded closure; when it is done no member has its sending half |
| MultiplexedMode.RunRound | crates/jobq-core/src/batch/stream/mode.rs:67-132 | one pass: pauses exactly when the budget is used up; unless a closure was yielded, the producer's answer was served: one event if it had one, its end if it had none, nothing if it was not ready, and its panic goes on |
| MultiplexedMode.SelectBiased | crates/jobq-core/src/batch/stream/mode.rs:84-130 | a closure is taken iff one is ready when polled - closed with its listeners notified, or closed and polled for the first time - and otherwise the producer is served; `None` iff no closure is left |
| MultiplexedMode.PollProducer | crates/jobq-core/src/batch/stream/mode.rs:97-129 | sleeps iff the producer is not ready, lets its panic through, takes exactly its next event iff it has one, and ends every member iff it has ended |
| MultiplexedMode.EndProducer | crates/jobq-core/src/batch/stream/mode.rs:121-127 | with consumers moving before each `finish`: every member is finished once, in order, and nothing else happens |
| MultiplexedMode.RouteEvent | crates/jobq-core/src/batch/stream/mode.rs:99-120 | the event is taken once; the signals are exactly those of its check, its second check and the channel, as far as the member is open, with consumers moving in between; no closure is yielded and nobody regains a sending half |
| MultiplexedMode.MemberGetsItsOwnItems | crates/jobq-core/src/batch/stream/mode.rs:66-133 | isolation from end to end: received is a prefix of what the member is owed, which is a prefix of the produced items tagged with its index, and its outcome depends on its own part of the trace alone |
| MultiplexedMode.StayingConsumerGetsItsProducersVerdict | crates/jobq-core/src/batch/stream/mode.rs:99-126 | a member whose consumer never drops its handle gets its outcome from its own finish event, from the channel its own items overran, or from the producer's end once it has come |
| MultiplexedMode.TakenProjects | crates/jobq-core/src/batch/stream/mode.rs:97-120 | the events tagged with an index are exactly those the lone member takes |
| MultiplexedMode.LateEventsChangeNothing | crates/jobq-core/src/batch/stream/mode.rs:66-66 | when the loop leaves with `remaining == 0`, no event still to come could have changed a member |
| IndependentMode.RunIndependent | crates/jobq-core/src/batch/stream/mode.rs:207-284 | wherever it is, the members are where a genuine trace leads, and each has the fate its own stream and consumer give it, stayed or left; on every return all members have an outcome and the status is `Failed` iff one is an error; it is still running only because the preparation or some future has not ended, with every turn taken |
| IndependentMode.FateOf | crates/jobq-core/src/batch/stream/mode.rs:172-195 | for stayed and left consumers alike: received is a prefix of accepted, and that of the stream's items; the outcome is the stream's ending, the preparation's error, or the departure of a consumer that did leave; one that stays gets every item and that ending |
| IndependentMode.Prepare | crates/jobq-core/src/batch/stream/mode.rs:220-243 | `closed` counts distinct departed members; everybody has left before the closures can run dry; the preparation's result is used only if, when the closures were last polled, in the same turn, somebody's closure was not ready - consumers may leave while `prepare` is polled; still unfinished only if no turn is left and fewer of them found it ready than there are members |
| IndependentMode.EverybodyMayHaveLeft | crates/jobq-core/src/batch/stream/mode.rs:229-243 | the preparation's result can be used although everybody has left by then: the trace |
| IndependentMode.PollPreparing | crates/jobq-core/src/batch/stream/mode.rs:229-242 | one poll: closures first, exactly if one is ready; `prepare` only when none is, with consumers moving before its result is taken; otherwise its result is what `prepare` gave, if it was ready |
| IndependentMode.FailAll | crates/jobq-core/src/batch/stream/mode.rs:247-264 | with consumers moving before each `finish`: whoever had an outcome keeps it, everyone else ends with the error or has left before their turn, and every member is given it once, in order |
| IndependentMode.Drive | crates/jobq-core/src/batch/stream/mode.rs:267-277 | in any order of polling, the trace is exactly what the turns make of it, it is left unfinished only when no turn is left, and the status collects exactly the failed ones |
| IndependentMode.MemberFollowsItsStream | crates/jobq-core/src/batch/stream/mode.rs:149-196 | along any genuine trace a member fares as it would alone and has the fate that its own stream and consumer give it; only its own consumer's move can make it leave |
| IndependentMode.GenuineFollows | crates/jobq-core/src/batch/stream/mode.rs:164-195 | along a genuine trace the items yielded are a prefix of the stream's, and at its ending all of them |
| IndependentMode.StepKeeps | crates/jobq-core/src/batch/stream/mode.rs:172-195 | every step of a member's future or consumer keeps: accepted is what was yielded but for the item in hand or one lost to a departure; an outcome before the end is a departure |
| IndependentMode.PollFollows | crates/jobq-core/src/batch/stream/mode.rs:164-195 | polling a future moves it along its own stream: no item skipped, doubled or invented, and the right ending |
| IndependentMode.WhatAPollDoes | crates/jobq-core/src/batch/stream/mode.rs:159-195 | one poll of a future, stage by stage: a member that is not open ends at once, before its stream is constructed or with the item in hand lost; otherwise every item is offered, waits for room, and is accepted; errors become task errors, and the stream's end is the member's |
| IndependentMode.OnlyBackpressureStops | crates/jobq-core/src/batch/stream/member.rs:65-76 | a future that is polled moves on, if and only if it is not waiting for room in a full channel whose receiver is still there |
| StreamBatchJobs.Settle | crates/jobq-core/src/job.rs:479-492 | for any mode, with the handles gone and consumers moving before each member's turn: afterwards every member has exactly one outcome, sent once, and no sender; an outcome stays, a missing one becomes the right error unless the consumer leaves first; `Failed` iff the mode said so, panicked, or some outcome is an error |
| StreamBatchJobs.SettledMembersDrain | crates/jobq-core/src/job.rs:471-492 | after `execute` a consumer that is still there receives everything accepted for its member and then end of stream, not earlier |
| StreamBatchJobs.FailUnfinished | crates/jobq-core/src/batch/stream/member.rs:14-18 | changes only missing outcomes, and nothing else of a member whose consumer stands still |
| StreamBatchJobs.StreamBatchJob.ExecuteMultiplexed | crates/jobq-core/src/job.rs:456-493 | when done, every member has exactly one outcome and no sender, and what the mode's run left is kept; an escaping panic makes the status `Failed` and is the outcome of whoever had none; otherwise `Failed` iff some outcome is an error; the trace is one the mode can leave; the panic escapes exactly when a tick's panic ended the loop, and the job is still running only for the reason the loop is; with nobody there at the start the mode is not run |
| StreamBatchJobs.StreamBatchJob.ExecuteIndependent | crates/jobq-core/src/job.rs:456-493 | the same over a genuine trace, `Failed` iff some outcome is an error in any case; still running only because the preparation or a future has not ended in the turns there were |
| Retry.BatchingIsTransparent | crates/jobq-core/src/job.rs:258-318 | for code whose result depends on the input and the attempt number alone, each member of a batch gets exactly what a job of its own with the same `max_retries` would deliver |
| Retry.RoundsWithinBudget | crates/jobq-core/src/job.rs:39-42 | a member takes part in exactly the rounds up to its last one, at least one and at most `max(1, max_retries)`; every earlier answer was a task error; if the last one is too, exactly that many rounds were used |
| Retry.NextRound | crates/jobq-core/src/job.rs:294-315 | the next round is exactly the members whose own answer was a task error with attempts to spare, in unchanged order |
| Retry.WhoIsAskedAgain | crates/jobq-core/src/job.rs:299-311 | a member that was answered with success, or with any error that is no task error, is not asked again; one answered with a task error is, if and only if its budget allows another attempt |
| Retry.WhatEachIsAnswered | crates/jobq-core/src/job.rs:269-292 | each member is answered with the result at its own position, if there is one per member, and else with the size mismatch, the outer error or the panic |
| Retry.OtherErrorsEndTheJob | crates/jobq-core/src/job.rs:269-292 | a panic, a wrong number of results or an outer error that is no task error ends every member of that round with that error, and the job |
| Retry.SameLastRound | crates/jobq-core/src/job.rs:266-315 | a member's last round is the same seen from any round it is in |
| RetryJobs.Job.Execute | crates/jobq-core/src/job.rs:258-318 | every delivery gets exactly one result, its member's own answer in the last round that included it; the executor is asked exactly what the rounds are made of; `Failed` iff some delivered result is an error; the loop ends |
| RetryJobs.Job.Distribute | crates/jobq-core/src/job.rs:294-314 | one round, position by position: afterwards inputs, deliveries, standings and status are those of the next round |
| RetryJobs.CallAt | crates/jobq-core/src/job.rs:266-272 | call `r` was made with exactly the inputs of round `r`, which was not empty |
| RetryJobs.RoundsUseUpTheBudget | crates/jobq-core/src/job.rs:266-315 | the attempts left, summed over the surviving members, go down each round by at least the number of its members |
| RetryJobs.JobDelivery.Retry | crates/jobq-core/src/job.rs:39-42 | counts the attempt, then says whether there is another |
| RetryJobs.StandingsOver | crates/jobq-core/src/job.rs:294-311 | dealing with one position changes the standing of the member at that position alone |
| PriorityOrder.CompareIsATotalOrder | crates/jobq-core/src/queue/priority.rs:23-43 | the comparison is a total order - transitive, with opposites - whose equality is the one on priority and index |
| PriorityOrder.AnswersLikeTheNaiveQueue | crates/jobq-core/src/queue/priority.rs:89-129 | from any matching state the answers are those of a queue that keeps the calls themselves, in order of arrival, and serves the first that no other outranks |
| PriorityOrder.EveryHistoryIsAnsweredNaively | crates/jobq-core/src/queue/priority.rs:89-129 | so every history of calls on a new queue is answered; a higher priority outranks a lower one and no options count as priority 0 |
| PriorityOrder.TheHigherPriorityIsServedFirst | crates/jobq-core/src/queue/priority.rs:94-103 | of two items on a new queue the later is served first if and only if its options outrank the earlier's |
| PriorityOrder.ContentsAreAStableSort | crates/jobq-core/src/queue/priority.rs:37-43 | what the queue holds, in order, is the stable sort by priority of the calls that are waiting |
| PriorityOrder.Drain | crates/jobq-core/src/queue/priority.rs:112-117 | dequeuing after close hands out the stable sort of exactly the calls that were waiting, and then nothing |
| PriorityOrder.ClosedForGood | crates/jobq-core/src/queue/priority.rs:89-117 | a closed queue stays closed, refuses every item and keeps its `length` |
| PriorityOrder.ObeyKeepsTheQueueOk | crates/jobq-core/src/queue/priority.rs:94-129 | sortedness and index bounds hold for ever; `length` is exact while the queue is open and never below the contents afterwards |
| PriorityQueues.PriorityQueue.Enqueue | crates/jobq-core/src/queue/priority.rs:89-110 | refused when closed; else the item is added with the priority asked for, 0 without options, and the next index, at its place in the sorted sequence, and counted |
| PriorityQueues.PriorityQueue.Dequeue | crates/jobq-core/src/queue/priority.rs:112-129 | removes the head of the sorted sequence; waits only when open and empty; counts down only while open |
| PriorityQueues.BinaryHeap.Pop | crates/jobq-core/src/queue/priority.rs:119-124 | removes the root and restores the heap |
| PriorityQueues.RootIsHead | crates/jobq-core/src/queue/priority.rs:102-103 | the root of a heap is the head of any sorted arrangement of its entries |

## Left out

- The asynchronous runtime: wakers, `poll_fn`, `Shared`, `FuturesUnordered` and tokio appear as choices of the next step. The closures-before-producer rule of `select_biased!` is kept.
- Real time: `Window::ready` may return at any moment after it parked.
- User code: an oracle for its results; error messages, sources and downcasting are reduced to a cause.
- AdmissionTheorems.EnqueueIsTruthful: the queue is assumed to return `Ok` only after the job is visible and an error only when it is not, which the three built-in queues do; the caller's error is identified by its window, not by its text.
- The slot outlives its admissions: `Weak<WindowSlot>` is taken to upgrade.
- AdmissionProgress.MaximalRunsAnswerEverybody: a submission that has begun can always go on; for a full FIFO queue that takes a worker, which is not modelled.
- WindowSlots.WindowSlot.Join: the class is proved for an uninterrupted call; interleavings are the state machine's matter.
- MultiplexedMode.RunMultiplexed: members are values in one sequence that the loop updates element by element, and the lifecycle that member, activity and completion share is one value in it; the shared objects are in `StreamObjects`, tied to the same transitions operation by operation. A consumer's destructor moves in four steps; the loop's own claim, close and notification are one, and are split in `Lifecycles`; so a consumer that sets the flag in between, and takes the notification over with it, is not modelled here.
- IndependentMode.RunIndependent: as above; a consumer's moves may come between any two steps of a member's future, and a turn of the schedule is one such step.
- RetryJobs.Job.Execute: starts from what `seal` handed out; waiting and sealing are in `WakeUps` and `Windows`.
- PriorityQueues.PriorityQueue.Enqueue: the index counter is unbounded, so a wrap-around after 2^64 insertions is not modelled; a call is one step, although the source takes its index before it takes the heap's lock.
- PriorityQueues.PriorityQueue.Dequeue: the wait is one answer; the loop around it, and when it can lose its wake-up, are in `DequeueWaits`.
- DequeueWaits.WhenDequeueMaySleep: a call that is dropped while it waits, and hands its notification on, is not modelled.
- PriorityQueues.BinaryHeap.Pop: the standard library's heap is a plain sift-up, sift-down heap over a sequence here.
- `futures::mpsc` and `oneshot` are a bounded sequence and a single-use cell.
- `StreamJob::execute` and single streams without a batch: the same lifecycle with one member.
- Workers, builders, weak handles, type erasure, options, `JobFutureSet`, `JobFuture`'s cached result, and the FIFO and LIFO queues: plumbing whose claims read off their bodies.
- The size of `len()` after close for the FIFO queue, which its code does not keep.
