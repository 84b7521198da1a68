# perfacet: verified call governance

A Dafny 4.11 model of the parts of the perfacet gateway whose correctness spans several tables, several
callbacks or several threads, with machine-checked proofs about every run. `dafny verify dfyconfig.toml`
checks the project.

## What is modelled

**The call engine.** One loop thread owns five tables: the governor's counters and queues, the in-flight
index, the task store, the circuit breaker, and the live calls. Its callbacks re-enter each other: a permit
that is dropped runs `releaseSlot`, which runs `tryDequeue`, which runs the callback of another request,
which may drop its own permit. The engine appears in three forms.

* `Pipeline.dfy`, `Governor.dfy`, `InFlightTable.dfy`, `Tasks.dfy`, `Circuit.dfy` and `Retry.dfy` hold the
  objects: classes whose methods update fields in place, with the same loops, branches and re-entrant calls
  as the C++ methods. The measure of the re-entrant recursion is the number of queued requests.
* `Engine.dfy` states what each of those methods does as a function on one state value. A queued
  `std::function` is the waiter that captured its request; an armed timer or a pending upstream callback is
  a field of the call that it keeps alive. `Pipeline.Pipeline.Turn` and `Pipeline.Pipeline.Serve` prove that
  the objects do exactly what the functions say, for one event and for any sequence of events.
* `EngineMoves.dfy` takes a turn apart into atomic moves. `EngineKeeps.dfy` shows that every move keeps the
  invariant of `EngineInvariant.dfy`, table by table; `EngineTurns.dfy` shows that every turn, with all its
  nested callbacks, is a run of valid moves of the kinds that belong to its event, so any reflexive and
  transitive relation that holds of single moves of those kinds holds of whole turns (`EngineTurns.StepTurn`).
* `EngineOffer.dfy` shows what the re-entrant recursion of a release amounts to: one pass down one queue, which
  times some waiters out, lets some have the slot and hand it straight on, and leaves it with at most one.

The main results are in `EngineResults.dfy` (one reply, ledgers, limits, attempts, permits), `EngineLimits.dfy` (who
gets a slot and who waits, by the calls that run and the configured numbers), `EngineReplies.dfy` and
`EngineGrounds.dfy` (what every request is told, and on what ground), `EngineCalls.dfy` (the life of a call),
`EngineRetries.dfy` and `EngineBreaker.dfy` (attempts and breakers, by the log), `EngineTaskLife.dfy` (how long a handle
is good), `EngineHistory.dfy` (what can never be undone), `EngineOutcomes.dfy` and `EngineOutcomeRuns.dfy` (which
events write the status of a task), `EngineFifo.dfy` and `EngineFifoRuns.dfy` (order and idle slots),
`EngineDrain.dfy` (shutdown) and `EngineCauses.dfy` (where a slot, an insert and a handle come from). They quantify
over every configuration and every sequence of events: arrivals, wait timers, promote timers, upstream answers,
destructions of calls, `tasks/get`, `tasks/cancel`, stop, tool listings and probes, with any clock reading and any
upstream answer. Limits, replies, attempts and lifetimes are told in calls, clock readings, log entries and configured
numbers, not in the functions of `Engine.dfy` that decide them.

**The byte path and the timers.** `Buffers.dfy` proves the index arithmetic of the netlib buffer against a byte
queue; `Connection.dfy` proves the output stream FIFO under every pattern of short, refused and interrupted
writes; `Timers.dfy` proves the timer heap with lazy cancellation, where callbacks arm and cancel timers.

**The projected and cached views.** `ToolKeys.dfy` and `Access.dfy` relate what is listed to what can be called;
`Grants.dfy` relates the time-to-live of a list to the grants it depends on.

**The trace exporter.** `OtlpDrain.dfy` is the single-drainer handoff over all thread interleavings.

## What the proofs found

Each of these is a lemma with a concrete input or an exact condition; the code was modelled as it is.

* A backend whose name ends in `_` passes the loader's check, yet its tools are listed under names that parse
  to another key (`ToolKeys.ParseStr` gives the exact condition, `Access.ListedButNotCallable` the example).
* The principal's grant bump is read at authentication and the list's time-to-live a little later. The list is
  right for its whole time-to-live if and only if no listed backend lies above what the principal has with the
  grants that still run at the second reading, and not above what it had at the first (`Grants.StaleBump`;
  `Grants.StaleListExample` is a list that is wrong from the start).
* The comment in `src/health/CountCircuit.cpp` says that the open state is only left through the cooldown. Before its
  deadline an open breaker stays open if and only if no business success comes in, and the first one closes it
  (`Circuit.OnlySuccessClosesOpen`). The code is followed.
* A waiter can be left in front of a slot it could have, with nobody to offer it (`EngineFifo.Strands`). Three kinds
  of turns do that, each with its exact condition: the end of a call (of the agent at the head of another tool's
  queue, or of its own tool when the next in line could have a slot too), the end of the head's own wait, and a
  listing that raises the limit. A run is free of idle slots if and only if no turn of it is one of these
  (`EngineFifo.NoIdleSlotExactly`); `EngineFifoRuns.StrandedWaiter` is a run of four turns that ends in one.
* Slots are granted in order of arrival if and only if no arrival of the run gets a slot while somebody of its
  tool is still in line (`EngineFifo.InOrderExactly`). Unless somebody is stranded already, the one overtaken is
  held up by its principal's limit (`EngineFifo.OvertakenIsBlocked`); `EngineFifoRuns.OvertakenWaiter` is such a run.
* The outcome of a task is not final. A settled task that is still stored keeps its outcome if and only if no turn is
  its owner's `tasks/cancel`, or a requestStop that finds the finished call not destroyed yet; either makes it
  cancelled (`EngineOutcomes.OutcomeStaysExactly`). `EngineOutcomeRuns.CompletedIsCancelled` has a run for each.
* The key of the in-flight index joins agent, tool and hash with newlines, so two names could share one
  (`InFlightTable.SharedKeyHasNewline` says exactly when). No request reaches that case: the front end takes only
  names that equal a header value, and then the key is injective for any agent (`InFlightTable.MapKeyInjective`).
* The end of a call takes the mapping of its key away even when the mapping is that of a newer, confirmed call
  (`InFlightTable.EraseDropsKey` says exactly which mappings go). From then on no look-up finds the newer call.
* A posted `closeInLoop` that runs after the peer has gone, with output still buffered, takes a connection from
  Disconnected back to Disconnecting, and nothing else does (`Connection.RevertsExactly`); no byte is accepted
  after it.
* A pool that refuses a job while the span queue is full strands the queue for good: enqueue returns at the size
  test before it could ask for a drainer. With nobody draining, anything is ever posted again if and only if the
  tracer is open and its queue has room (`OtlpDrain.PostingGoesOn`, `OtlpDrain.StrandedForGood`).
* A post that throws (a malformed endpoint does) leaves `draining_` set for ever. The wait in the tracer's destructor
  can end if and only if no post has thrown (`OtlpDrain.DestructorCanReturn`); `OtlpDrain.HangsForGood` is a run after
  which it cannot.

## Model

| member | source | states |
|---|---|---|
| EngineResults.ExactlyOneReply | src/pipeline/Pipeline.cpp:269-412 | In every reachable state a request has at most one reply, and has none exactly while it waits in a governor queue or in a live call that has not answered |
| EngineResults.QueuedOrCalled | src/pipeline/Pipeline.cpp:378-411 | No request is both queued and owned by a call that owes its reply |
| EngineResults.DestructorIsSilent | src/pipeline/Pipeline.cpp:424-439 | Whenever a call can be destroyed it has answered, so the destructor sends nothing |
| EngineResults.LedgersAgree | src/govern/LocalGovernor.cpp:44-53 | Between turns permitHeld, the sums of both in-use tables, inflightHeld, the in-flight index, the live table and the calls all have the same size, and the same ids |
| EngineResults.PermitsAreHeld | src/govern/Governor.cpp:34-43 | Every live call holds a permit, for its own tool and agent |
| EngineResults.NothingLeaks | src/govern/LocalGovernor.cpp:103-111 | When no call is left every counter is zero |
| EngineResults.LimitsHold | src/govern/LocalGovernor.cpp:17-42 | Use per tool is the number of its calls and at most the larger of its limit and the default, through all listing flips; use per principal is within its limit |
| EngineResults.BoundedAttempts | src/pipeline/Pipeline.cpp:545-595 | At most one attempt outstanding, at most max(1, maxAttempts) in all, none after a reply or a timeout; a cancelled call has replied |
| EngineResults.GuardsNeverBite | src/govern/LocalGovernor.cpp:103-111 | When a call of a run ends both counters of its slot are positive, and after the turn, with every release nested in it, each counter of each tool and agent is down by exactly that slot and up by that of whoever keeps it |
| EngineLimits.ArrivalIsSeated | src/govern/LocalGovernor.cpp:17-62 | In every run, an arrival that asks for a slot gets one if and only if the running calls of its tool are fewer than the tool's own maxConcurrency, if that is positive and the tool validated, or than the default otherwise, and those of its agent fewer than the principal limit; seated, it is told that its upstream is unavailable or is under way |
| EngineLimits.ArrivalWaits | src/pipeline/Pipeline.cpp:371-376 | One that finds no room joins its queue at the end, until exactly the configured wait from now, or is throttled at once if that is zero |
| EngineLimits.GrantsWithinLimits | src/govern/LocalGovernor.cpp:35-101 | Whoever gets a slot in any turn of a run, nested releases included, gets it while the calls that run, without the one that ends, leave room under the configured numbers of the tool and of its agent |
| EngineLimits.OwnLimitHolds | src/govern/LocalGovernor.cpp:17-24 | In a run through which the limit of a tool stands, its own while it is validated or the default, its calls never exceed it, even when the default is larger |
| EngineLimits.ListingValidates | src/govern/LocalGovernor.cpp:113-128 | After a listing a configured tool of that backend is validated exactly if it was listed, and all else is as it was |
| EngineRetries.RetriedExactly | src/pipeline/Pipeline.cpp:567-612 | In every run an answer is followed in its turn by a further attempt of the call if and only if the call is neither answered nor cancelled, its class is retryable, not excluded and no timeout, attempts and time are left and the breaker was not open; otherwise by the result, unless the request was answered before |
| EngineRetries.OnlyAnswersRetry | src/pipeline/Pipeline.cpp:545-595 | A call that exists is sent again only in a turn in which an answer to it comes in |
| EngineBreaker.BreakerFollowsRun | src/pipeline/Pipeline.cpp:576-586 | In every run the breaker of a backend is where a fresh one would be after exactly the uncancelled answers and the probes of that backend |
| EngineBreaker.ClosedCountsFailures | src/health/CountCircuit.cpp:45-61 | A closed breaker has counted the failures at the end of what the run told it, and they are too few |
| EngineReplies.ArrivalAnswered | src/pipeline/Pipeline.cpp:269-369 | Every arrival of every run is answered in its turn with exactly the reply of its situation: unknown or refused by rank, built-in, the running call of its key, or draining; all others, and only they, ask for a slot of the tool they named |
| EngineReplies.NoticeIsToken | src/pipeline/Pipeline.cpp:348-357 | Every still-running notice of any turn of any run names the id that the request's own key was mapped to, of a call that exists, and not the one the request confirmed |
| EngineReplies.TokenWorks | src/pipeline/Pipeline.cpp:297-306 | A request that carries the mapped id of its key asks for a slot, or is told that the gateway is draining, and never gets another notice |
| EngineReplies.NoticeConfirms | src/pipeline/Pipeline.cpp:302-358 | The same request sent next with the id from its notice asks for a slot and gets no other notice |
| EngineReplies.PromoteAnswers | src/pipeline/Pipeline.cpp:497-538 | When the promote timer of an unanswered call fires its request is answered in that turn: by the missing capability, by the handle of its task as stored or as new, by the full store or by the expired task; answered calls are left alone, and the timer is off |
| EngineReplies.FirstPromotionHands | src/pipeline/Pipeline.cpp:497-531 | A first promotion of a call younger than the time to live, with room among the living tasks, answers with a handle to the new task |
| EngineGrounds.RepliesGrounded | src/pipeline/Pipeline.cpp:70-613 | Every reply of every turn of every run has its ground before the turn: a waiter is throttled only when its own time is over or by its own timer, or told unavailable only while its upstream is shut; a result, a cancellation, a promotion and a refusal only go to the call or the newcomer that the event is about |
| EngineGrounds.WaitTimerExactly | src/govern/LocalGovernor.cpp:70-83 | A wait timer takes out and throttles exactly the waiter it was armed for, wherever it stands, or does nothing |
| EngineGrounds.CancelReaches | src/pipeline/Pipeline.cpp:195-213 | tasks/cancel cancels and answers a call if and only if its task is stored, alive and the asker's own, and touches no other call |
| EngineCalls.CallsLive | src/pipeline/Pipeline.cpp:382-613 | In every turn of every run: a call begins only for the newcomer or a waiter in time, under the next id, fired once, timer armed, with its breaker read; its timer stays armed but for its own firing and a concluding answer, each answer counts once, only a stop or its owner's cancel cancels it; and it ends exactly when it is dropped with no timer and nothing outstanding |
| EngineTaskLife.HandleLasts | src/task/MemTaskStore.cpp:8-31 | A handle given out in a run is found under its id, with its owner, through every continuation whose clock stays below the birth of the call plus the configured time to live |
| EngineTaskLife.TaskLasts | src/task/MemTaskStore.cpp:8-41 | No turn of any continuation loses a task before its time is over |
| EngineTaskLife.TtlIsConfigured | src/pipeline/Pipeline.cpp:317-325 | Every task ever stored has the configured time to live |
| EngineTaskLife.AskedExactly | src/pipeline/Pipeline.cpp:187-213 | A tasks/get or tasks/cancel leaves exactly the tasks whose time is not over |
| EngineResults.MoveAssignKeepsBooks | src/govern/Governor.cpp:15-23 | Move-assignment returns exactly the slot of its left side and carries the other one over, with all ledgers intact |
| EngineKeeps.GiveBackExact | src/govern/LocalGovernor.cpp:105-108 | A permit on the stack is counted in both tables |
| EngineHistory.CancelledIsAbsorbing | src/pipeline/Pipeline.cpp:458-469 | A cancelled task stays cancelled whatever follows, an outcome can only be cancelled, owner and tool never change, and an id that left the store never comes back |
| EngineOutcomes.OutcomeStaysExactly | src/pipeline/Pipeline.cpp:195-213 | For every run and continuation at whose end a settled task is still stored: it has its outcome if and only if no turn of the continuation was its owner's tasks/cancel or a requestStop while its call existed, and otherwise it is cancelled |
| EngineOutcomes.OutcomeTakenBack | src/pipeline/Pipeline.cpp:458-469 | The same for one turn, whatever the event |
| EngineOutcomes.StatusChanges | src/pipeline/Pipeline.cpp:70-613 | A turn writes another status over a task, settled or not, if and only if it is its owner's tasks/cancel, a requestStop while its call exists, or the last answer to its uncancelled call, and this is the status it writes |
| EngineOutcomes.StopTasks | src/pipeline/Pipeline.cpp:70-75 | requestStop cancels exactly the stored tasks whose call exists, completed ones included |
| EngineOutcomeRuns.CompletedIsCancelled | src/pipeline/Pipeline.cpp:458-469 | A run that completes a task, and its two continuations that cancel it, by the owner and by requestStop |
| EngineHistory.CancelOverwrites | src/pipeline/Pipeline.cpp:195-213 | The owner's cancel of an unexpired task always takes: the task is cancelled, and so is its call if it is alive |
| EngineHistory.UpstreamSettles | src/pipeline/Pipeline.cpp:567-613 | An upstream answer changes at most the task of its own call, and only from working to the outcome of that answer |
| EngineHistory.LastAnswerSettles | src/pipeline/Pipeline.cpp:596-604 | An answer that is neither absorbed nor retried leaves the call's stored task with its outcome |
| EngineHistory.TokenDies | src/pipeline/InFlight.cpp:30-59 | Once an id is unmapped, by erase or by a newer insert, it never confirms anything again, in any continuation |
| EngineHistory.HitsAreExact | src/pipeline/Pipeline.cpp:296-305 | A lookup hit is a live call of exactly that agent, tool and hash, with the same task handle, whatever the agents are called |
| EngineHistory.OneHandlePerCall | src/pipeline/Pipeline.cpp:302-347 | All task ids handed out for one in-flight id are equal, the handle leads to its call while it lives, and the store stays within its bound |
| EngineHistory.RetryDoesNotAmplify | src/pipeline/Pipeline.cpp:295-410 | Live calls on one (agent, tool, hash) are at most one more than the inserts that overwrote the mapping, and each of those was confirmed or had queued |
| EngineCauses.OverwriteHasCause | src/pipeline/Pipeline.cpp:302-307 | Every insert of a run that overwrote a mapping was, in the turn that logged it, for the request that arrived then with the id mapped for its key, or for one that stood in the queue of the tool whose slot the turn was about, with time left |
| EngineCauses.InsertHasCause | src/pipeline/Pipeline.cpp:378-409 | Every insert of a run has its cause in the turn that logged it: an arrival with an unmapped key, one with the mapped call's token, or a waiter of the tool the turn was about |
| EngineCauses.StepStarts | src/pipeline/Pipeline.cpp:378-409 | One turn with all its nested releases starts at most one call, and for one of these causes |
| EngineCauses.HandleAtHand | src/pipeline/Pipeline.cpp:336-345 | The handle a turn gives out is its last act, and its task is in the store, as given |
| EngineCauses.HandlesGoToOwners | src/pipeline/Pipeline.cpp:316-325 | Every handle went to the agent that owns the task |
| EngineCauses.HandlesNeedCapability | src/pipeline/Pipeline.cpp:312-347 | No handle goes to a request that did not itself declare the tasks capability |
| EngineCauses.GrantedInTime | src/govern/LocalGovernor.cpp:94-98 | In any turn of a run, with all nested releases, a slot only goes to the newcomer that asks for it or to a waiter of that tool whose deadline has not passed, and grants are never struck from the record |
| EngineCauses.HandOutIsStored | src/pipeline/Pipeline.cpp:336-345 | A handle is given, once, exactly when the task is in the store at that moment, and as the store has it |
| EngineCauses.UnhandedTurn | src/pipeline/Pipeline.cpp:545-613 | Releases, refusals, waits, answers, cancels and stops hand out no task handle |
| EngineFifo.InOrderExactly | src/govern/LocalGovernor.cpp:55-101 | For every run: slots are granted in order of arrival, ahead of everyone still waiting, all the way, if and only if no arrival of the run gets a slot while somebody is still in line |
| EngineFifo.NoIdleSlotExactly | src/govern/LocalGovernor.cpp:73-111 | For every run: nobody ever waits in front of a slot it could have if and only if no turn strands a waiter, by the end of a call, the end of a wait or a listing |
| EngineFifo.StrictFifo | src/govern/LocalGovernor.cpp:55-111 | Both together: a run is in order and without idle slots throughout if and only if no turn overtakes or strands |
| EngineFifo.StepOrder | src/govern/LocalGovernor.cpp:55-101 | One turn with all its nested releases keeps the order if and only if it is not an overtaking arrival |
| EngineFifo.StepIdle | src/govern/LocalGovernor.cpp:73-128 | One turn with all its nested releases leaves the head of a queue in front of a free slot, having found none, if and only if it is one that strands |
| EngineFifo.DropIdle | src/govern/LocalGovernor.cpp:103-111 | The end of a call strands a queue only if its tool is below the limit and the head belongs to the call's agent; then, for another tool, exactly if no waiter of that agent takes the slot over, and for its own, exactly if the slot is taken over and the next in line could have one as well |
| EngineFifo.WaitIdle | src/govern/LocalGovernor.cpp:73-82 | The wait timer strands a queue if and only if it takes the head out and the next in line could have a slot |
| EngineFifo.OvertakenIsBlocked | src/govern/LocalGovernor.cpp:55-62 | While nobody is stranded, an arrival overtakes exactly when it gets a slot in front of a queue, and then the principal at the head is at its own limit and is another one |
| EngineFifo.DisturbedIsBlocked | src/govern/LocalGovernor.cpp:55-111 | While nobody is stranded, whatever overtakes or strands, but for a listing, finds a free slot and a head that is held up by its own principal's limit |
| EngineFifo.InOrderMeans | src/govern/LocalGovernor.cpp:86-101 | The order is exactly: grants in order of arrival, everyone waiting after everyone served, the queue in order of arrival |
| EngineFifoRuns.StrandedWaiter | src/govern/LocalGovernor.cpp:103-111 | A run: an agent at its limit waits for a second tool, its first call ends, and it is left in front of a free slot |
| EngineFifoRuns.OvertakenWaiter | src/govern/LocalGovernor.cpp:59-62 | A run: a newcomer of another principal gets the slot that the waiter at the head is not allowed yet |
| EngineOffer.ReleaseIs | src/govern/LocalGovernor.cpp:86-111 | Whatever is right of each single round of tryDequeue is right of the whole re-entrant recursion and its one pass down the queue: the induction principle behind the results about releases |
| EngineOffer.ReleaseQueues | src/govern/LocalGovernor.cpp:103-111 | After a release the queue of its own tool is what the pass leaves, and every other queue is as it was |
| EngineOffer.ReleaseCounts | src/govern/LocalGovernor.cpp:86-111 | After a release every counter is as before, but for one slot of the tool and of the agent that keeps it |
| EngineOffer.ReleaseLogged | src/govern/LocalGovernor.cpp:86-101 | A release grants to exactly those the pass lets have the slot, in queue order, and starts one call, for who keeps it, or none |
| EngineOffer.OfferedInTime | src/govern/LocalGovernor.cpp:94-98 | Whoever a pass lets have the slot stood in the queue with time left; its upstream is available exactly if it keeps it |
| EngineOffer.OfferEnds | src/govern/LocalGovernor.cpp:88-90 | When nobody keeps the slot the queue is empty or its head cannot take one |
| EngineOffer.DropPass | src/govern/LocalGovernor.cpp:103-111 | Queues, grants and inserts after the end of a call |
| EngineDrain.Drain | src/cli/Gateway.cpp:74-81 | After requestStop no attempt, first or retry, is ever sent, queues stay empty, every call is cancelled and answered, and every request ever received has its one reply |
| EngineDrain.StopStops | src/pipeline/Pipeline.cpp:70-75 | requestStop cancels every call and empties every queue, and sends nothing upstream |
| EngineDrain.RejectedInOrder | src/govern/LocalGovernor.cpp:130-139 | A queue is refused from its head on, everyone in it once |
| EngineDrain.StepQuiet | src/pipeline/Pipeline.cpp:361-369 | Any event in a stopped gateway leaves it stopped and sends nothing upstream |
| EngineTurns.StepTurn | src/pipeline/Pipeline.cpp:70-613 | A relation closed under the kinds of valid moves that belong to an event holds of its whole turn: the induction principle behind the results about runs |
| EngineTurns.RunInv | src/pipeline/Pipeline.cpp:70-613 | Every reachable state satisfies the whole invariant |
| EngineTurns.TryDequeueTurn | src/govern/LocalGovernor.cpp:86-101 | tryDequeue with all callbacks it runs is a sequence of valid moves; the recursion ends because every round takes a waiter out |
| Engine.PopShrinks | src/govern/LocalGovernor.cpp:91-92 | Popping a waiter takes exactly its request out of the waiting bag, the measure of the recursion |
| Engine.FindWaiter | src/govern/LocalGovernor.cpp:75-81 | The wait timer finds the first waiter with its id, or none |
| EngineKeeps.InvKept | src/pipeline/Pipeline.cpp:269-613 | Every atomic move keeps every part of the invariant |
| Pipeline.Pipeline.Turn | src/pipeline/Pipeline.cpp:70-613 | One event handled by the objects changes their joint state exactly as the engine step does |
| Pipeline.Pipeline.Serve | src/pipeline/Pipeline.cpp:70-613 | Any sequence of events takes the objects where the engine's run goes |
| Pipeline.Pipeline.HandleCall | src/pipeline/Pipeline.cpp:269-293 | Parse, policy and built-ins, before the in-flight lookup |
| Pipeline.Pipeline.Route | src/pipeline/Pipeline.cpp:295-369 | Duplicate, confirmed, draining or admitted |
| Pipeline.Pipeline.OnDuplicate | src/pipeline/Pipeline.cpp:307-358 | The duplicate gets the running call's handle, a new one, or the still-running notice |
| Pipeline.Pipeline.FirstHandle | src/pipeline/Pipeline.cpp:316-335 | The first duplicate turns the running call into a task |
| Pipeline.Pipeline.Enter | src/pipeline/Pipeline.cpp:371-381 | The deadline of the wait comes from the configuration |
| Pipeline.Pipeline.Acquire | src/govern/LocalGovernor.cpp:55-84 | Go, reject or queue |
| Pipeline.Pipeline.OnAdmit | src/pipeline/Pipeline.cpp:382-411 | The callback of acquire: throttled, unavailable with the permit dropped, or started |
| Pipeline.Pipeline.CreateCall | src/pipeline/Pipeline.cpp:406-409 | The in-flight entry, the call object and its entry in the live table |
| Pipeline.Pipeline.TryDequeue | src/govern/LocalGovernor.cpp:86-101 | The loop over the queue, with re-entrant callbacks |
| Pipeline.Pipeline.ReleaseSlot | src/govern/LocalGovernor.cpp:103-111 | The books first, then the queue of the same tool |
| Pipeline.Pipeline.DestroyPermit | src/govern/Governor.cpp:25-30 | A destroyed permit is unheld and its slot returned |
| Pipeline.Pipeline.MovePermit | src/govern/Governor.cpp:15-23 | Self-assignment does nothing; otherwise the old slot is returned and the other taken over |
| Pipeline.Pipeline.Respond | src/pipeline/Pipeline.cpp:448-456 | The first reply goes out, later ones do not |
| Pipeline.Pipeline.CancelWait | src/pipeline/Pipeline.cpp:458-469 | Cancelled, answered, and the task cancelled |
| Pipeline.Pipeline.AttachTask | src/pipeline/Pipeline.cpp:441-446 | Call, byTask and in-flight entry all get the handle |
| Pipeline.Pipeline.FireAttempt | src/pipeline/Pipeline.cpp:545-565 | One more attempt outstanding; the first arms the promote timer |
| Pipeline.Pipeline.OnPromote | src/pipeline/Pipeline.cpp:497-538 | The promote timer's reply, or nothing |
| Pipeline.Pipeline.OnUpstream | src/pipeline/Pipeline.cpp:567-613 | Absorbed, retried or concluded |
| Pipeline.Pipeline.Weigh | src/pipeline/Pipeline.cpp:576-595 | The breaker counts the answer, and the retry decision uses what it read before |
| Pipeline.Pipeline.Conclude | src/pipeline/Pipeline.cpp:596-612 | Timer off, task settled, request answered once |
| Pipeline.Pipeline.Destroy | src/pipeline/Pipeline.cpp:424-439 | The call leaves every table and hands its permit on |
| Pipeline.Pipeline.CancelTask | src/pipeline/Pipeline.cpp:195-213 | Only the owner cancels |
| Pipeline.Pipeline.RequestStop | src/pipeline/Pipeline.cpp:70-75 | Every live call is cancelled, in the order of the table |
| Pipeline.Pipeline.RejectAllQueued | src/govern/LocalGovernor.cpp:130-139 | Every queue is emptied and every waiter throttled |
| Pipeline.Pipeline.OnWaitTimer | src/govern/LocalGovernor.cpp:73-82 | The waiter is taken out and throttled if it still waits |
| Governor.LocalGovernor.MayTake | src/govern/LocalGovernor.cpp:35-42 | Both limits have room |
| Governor.LocalGovernor.ToolLimitOf | src/govern/LocalGovernor.cpp:17-24 | A configured limit counts only when validated and positive |
| Governor.LocalGovernor.Issue | src/govern/LocalGovernor.cpp:44-53 | Both tables and the counter go up, and the permit names the slot |
| Governor.LocalGovernor.ReturnSlot | src/govern/LocalGovernor.cpp:103-109 | Both tables, guarded, and the counter go down |
| Governor.LocalGovernor.Enqueue | src/govern/LocalGovernor.cpp:70-83 | The waiter goes to the back of its tool's queue with a fresh id |
| Governor.LocalGovernor.RemoveWaiter | src/govern/LocalGovernor.cpp:73-82 | Exactly the waiter with the id leaves, or nothing changes |
| Governor.LocalGovernor.OnToolsListed | src/govern/LocalGovernor.cpp:113-128 | The tools of that backend become active or invalid by the listing, all others stay |
| InFlightTable.InFlight.Find | src/pipeline/InFlight.cpp:20-28 | The mapped entry of the key |
| InFlightTable.InFlight.Add | src/pipeline/InFlight.cpp:30-45 | Both maps and the counter, overwriting an existing mapping |
| InFlightTable.InFlight.AttachTask | src/pipeline/InFlight.cpp:47-51 | The entry gets the task id if it exists |
| InFlightTable.InFlight.Remove | src/pipeline/InFlight.cpp:53-59 | The entry goes, and the mapping of its key whichever id it holds |
| InFlightTable.MapKeyInjective | src/pipeline/InFlight.cpp:8-18 | The joined key keeps agent, tool and hash apart when tool name and hash hold no newline, as the front end and the hash see to, whatever the agent is called |
| InFlightTable.SharedKeyHasNewline | src/pipeline/InFlight.cpp:8-18 | The key of a triple is also the key of another agent and tool if and only if its agent or tool holds a newline |
| InFlightTable.SoundKept | src/pipeline/InFlight.cpp:30-59 | Every operation keeps: each mapping points to a live entry filed under that key, and the counter is the size |
| InFlightTable.LookupSound | src/pipeline/InFlight.cpp:20-28 | A hit has exactly the asked agent, tool and hash; a token is accepted exactly when its id is the mapped one |
| InFlightTable.SupersededIsUnmapped | src/pipeline/InFlight.cpp:30-59 | A newer insert or any erase of the key unmaps the older id |
| InFlightTable.EraseDropsKey | src/pipeline/InFlight.cpp:53-59 | Erasing an entry drops the mapping of its key, whichever id it holds, and no other |
| InFlightTable.TokenNeverReturns | src/pipeline/InFlight.cpp:20-59 | An unmapped id is never accepted again through any operations |
| Tasks.MemTaskStore.SweepExpired | src/task/MemTaskStore.cpp:8-17 | Exactly the expired tasks go, in whatever order they are visited |
| Tasks.MemTaskStore.Add | src/task/MemTaskStore.cpp:19-24 | Refused exactly when full of unexpired others |
| Tasks.MemTaskStore.Get | src/task/MemTaskStore.cpp:26-31 | The unexpired task or none |
| Tasks.MemTaskStore.UpdateStatus | src/task/MemTaskStore.cpp:33-41 | Status and time of an unexpired task, nothing else |
| Tasks.LivesExactly | src/task/MemTaskStore.cpp:8-41 | Any operation leaves a task of before if and only if it has no time to live or its end lies ahead, unchanged unless it is the one updated; a new one is stored if and only if the living ones leave room |
| Tasks.BoundKept | src/task/MemTaskStore.cpp:8-41 | No operation takes the store over its bound |
| Circuit.HistoryExplains | src/health/CountCircuit.cpp:14-76 | For every history: closed means the trailing failures are counted and too few, open means a failure opened it and nothing since could end that, half-open counts the successes since the cooldown |
| Circuit.OpensOnTheNth | src/health/CountCircuit.cpp:45-61 | A failure opens a closed breaker exactly when it is the openAfter-th in a row |
| Circuit.OpenLastsUntilCooldown | src/health/CountCircuit.cpp:14-29 | Without a business success open lasts exactly until its deadline, which nothing moves |
| Circuit.HalfOpenClosesOnEnough | src/health/CountCircuit.cpp:31-43 | Half-open closes exactly on the configured number of successes without failure |
| Circuit.HalfOpenFailureReopens | src/health/CountCircuit.cpp:48-53 | One failure re-opens it for a full cooldown |
| Circuit.OnlySuccessClosesOpen | src/health/CountCircuit.cpp:31-76 | Over every history before its deadline an open breaker stays open throughout if and only if it holds no business success, and the first one closes it |
| Circuit.CountCircuit.IsOpen | src/health/CountCircuit.cpp:21-29 | The query may move an expired open slot to half-open |
| Circuit.CountCircuit.OnSuccess | src/health/CountCircuit.cpp:31-43 | The slot after a success |
| Circuit.CountCircuit.OnFailure | src/health/CountCircuit.cpp:45-61 | The slot after a failure, and whether this one opened it |
| Circuit.CountCircuit.OnProbeSuccess | src/health/CountCircuit.cpp:63-76 | The slot after a probe, which never closes an open breaker |
| Retry.ShouldRetry | src/health/RetryPolicy.cpp:11-34 | The scans decide by attempts, breaker, deadline, the two lists, and idempotency for timeouts |
| Retry.ListsDecide | src/health/RetryPolicy.cpp:16-33 | With attempts and time left and the breaker not open, a retry is refused exactly for a class on the never list, off the retryable list, or a timeout that is outstanding or of a tool not listed as idempotent |
| ToolKeys.Parse | src/ir/ToolKey.cpp:5-14 | A parsed key renders back to the name and has two non-empty parts |
| ToolKeys.ParseStr | src/ir/ToolKey.cpp:5-18 | A rendered key parses back to itself if and only if the backend is addressable and the tool non-empty |
| ToolKeys.StrInjective | src/ir/ToolKey.cpp:16-18 | Addressable keys never share a name |
| ToolKeys.TrailingUnderscoreMisparses | src/ir/ToolKey.cpp:5-18 | A backend ending in an underscore misparses |
| Access.DecidedExactly | src/policy/RankPolicy.cpp:7-26 | Allowed if and only if the backend is known, the principal has a level, and the backend's level is within the principal's own level or within the rank of its grants; unknown if and only if there is no such backend, or it is secret and above both; the built-in tools by level and admin right |
| Access.ListedExactly | src/catalog/FacetView.cpp:8-23 | A name is listed if and only if it is that of an indexed tool within the principal's reach |
| Access.VisibleOfExactly | src/catalog/FacetView.cpp:14-22 | Of a backend within reach every tool is listed, in order, and of any other none |
| Access.BuiltinsListed | src/catalog/FacetView.cpp:24-43 | After them, request_elevation with a level and upstream_status with the admin right |
| Access.PushVisible | src/catalog/FacetView.cpp:14-22 | The inner loop appends exactly the visible tools of the backend, in order |
| Access.ListTools | src/catalog/FacetView.cpp:8-45 | The list is the visible tools of every indexed backend, then the visible built-ins |
| Access.ListCallAgree | src/catalog/FacetView.cpp:8-23 | A business name is listed exactly when it is an indexed tool and sending it back resolves to that tool and is allowed |
| Access.ListedButNotCallable | src/catalog/FacetView.cpp:14-22 | Without an addressable backend name the agreement fails |
| Access.HiddenBackendLeavesNoTrace | src/policy/RankPolicy.cpp:17-26 | Removing a backend changes no decision for a principal if and only if it is hidden from it |
| Access.HiddenBackendNotListed | src/policy/RankPolicy.cpp:28-32 | Removing a hidden backend changes nothing in the list |
| Grants.GrantStore.EffectiveBump | src/policy/JsonlGrantStore.cpp:86-97 | The highest rank among the agent's running grants, 0 without any |
| Grants.BumpReaches | src/policy/JsonlGrantStore.cpp:86-97 | The bump reaches a rank exactly when an approved grant of the agent that has not ended has that rank or more |
| Grants.GrantStore.ShortestRemaining | src/policy/JsonlGrantStore.cpp:99-111 | The time until the first of them ends |
| Grants.GrantStore.ListBody | src/pipeline/Pipeline.cpp:98-107 | The visible tools, and a time-to-live within which the agent's running grants stay the same, 0 while the index is cold |
| Grants.ActiveUntilShortest | src/policy/JsonlGrantStore.cpp:99-111 | The same grants run exactly until the remaining time is over |
| Grants.ListRightForItsTtl | src/pipeline/Pipeline.cpp:98-107 | At every moment of the time-to-live the bump, and the list, are what was served |
| Grants.StaleBump | src/frontend/HttpMcp.cpp:467 | With the bump read at authentication, the list is right for its whole time-to-live if and only if no listed backend's level lies above what the grants running at the second reading give and not above what those at the first gave |
| Grants.ListChanges | src/catalog/FacetView.cpp:8-45 | A lower bump changes the list if and only if it loses a backend that has tools in it |
| Grants.StaleListExample | src/frontend/HttpMcp.cpp:467 | A grant that ends in the gap leaves a listed tool that is no longer allowed |
| Buffers.Buffer.Retrieve | netlib/include/netlib/Buffer.h:26-36 | Takes bytes off the front of the queue, or all of them |
| Buffers.Buffer.Append | netlib/include/netlib/Buffer.h:53-57 | Adds bytes at the back of the queue |
| Buffers.Buffer.MakeSpace | netlib/include/netlib/Buffer.h:100-110 | Room for the bytes, by growth or by compaction, with the contents unchanged |
| Buffers.Buffer.Compact | netlib/include/netlib/Buffer.h:104-108 | The overlapping move keeps the contents |
| Buffers.Buffer.Resize | netlib/include/netlib/Buffer.h:101-102 | Growth keeps the contents |
| Buffers.Buffer.ReadFd | netlib/src/Buffer.cpp:7-26 | What the kernel delivered into both areas is appended in order |
| Connection.TcpConnection.SendBufferInLoop | netlib/src/TcpConnection.cpp:108-135 | The direct write when idle, the rest buffered, a hard error drops the message |
| Connection.TcpConnection.HandleWritable | netlib/src/TcpConnection.cpp:137-160 | Writes until drained or refused, then closes if that was asked for |
| Connection.TcpConnection.CloseInLoop | netlib/src/TcpConnection.cpp:190-198 | Closes when nothing is buffered, waits otherwise |
| Connection.TcpConnection.HandleClosed | netlib/src/TcpConnection.cpp:162-179 | Detaches once |
| Connection.TcpConnection.RequestClose | netlib/src/TcpConnection.cpp:73-84 | shutdown and forceClose post the close |
| Connection.IdleDelivers | netlib/src/TcpConnection.cpp:108-135 | On an idle connection the first answer that is no interruption decides: what was written goes out, the rest is buffered, a hard error drops it |
| Connection.BusyDelivers | netlib/src/TcpConnection.cpp:126-131 | With bytes still to write a message goes behind them without a write |
| Connection.CloseTakes | netlib/src/TcpConnection.cpp:73-84 | An accepted close request disconnects as soon as it runs with nothing buffered, and otherwise waits for the last bytes |
| Connection.StreamIsFifo | netlib/src/TcpConnection.cpp:108-160 | Accepted bytes followed by buffered ones are the payloads in order, in every run, and writability is awaited exactly when something is buffered |
| Connection.ClosesOnlyDrained | netlib/src/TcpConnection.cpp:190-198 | Our side closes only when every byte sent has been accepted |
| Connection.ShutdownCompletes | netlib/src/TcpConnection.cpp:137-160 | After shutdown, over any number of turns with any short, interrupted or refused writes, the connection is closed if and only if the socket has had room for all that was buffered, and then it has accepted every byte sent |
| Connection.DetachedAcceptsNothing | netlib/src/TcpConnection.cpp:162-179 | A detached connection stays detached and accepts nothing |
| Connection.RevertsExactly | netlib/src/TcpConnection.cpp:190-198 | In every run, a disconnected connection leaves that state exactly when a posted closeInLoop runs with output still buffered, and even then it stays detached and accepts nothing |
| Connection.DisconnectedCanRevert | netlib/src/TcpConnection.cpp:190-198 | A run in which it happens |
| Timers.CancelledNeverRuns | netlib/src/EventLoop.cpp:192-195 | A timer cancelled before its callback starts never runs, even from the same batch |
| Timers.NoTimerIsLost | netlib/src/EventLoop.cpp:197-250 | A timer that was armed and not cancelled has run or is pending if it is a one-shot, and is pending with its interval if it is periodic |
| Timers.OneShotRunsOnce | netlib/src/EventLoop.cpp:228-248 | A one-shot runs at most once |
| Timers.NoneRunsEarly | netlib/src/EventLoop.cpp:221-227 | None starts before its deadline, which is the armed one or one interval after its last batch |
| Timers.BatchInDeadlineOrder | netlib/src/EventLoop.cpp:221-240 | Within a batch callbacks start in deadline order |
| Timers.BatchServesAllDue | netlib/src/EventLoop.cpp:221-250 | All that was due has run or was cancelled when the batch is through, and no timer has two heap entries |
| Timers.EventLoop.ProcessExpired | netlib/src/EventLoop.cpp:221-250 | The loop serves every due timer, whatever its callbacks do to the timers |
| Timers.EventLoop.RunBatch | netlib/src/EventLoop.cpp:228-250 | The loop over the batch runs it to its end, whatever the callbacks do |
| Timers.EventLoop.PopDue | netlib/src/EventLoop.cpp:224-227 | Exactly the due timers are popped, earliest first |
| Timers.EventLoop.InsertTimer | netlib/src/EventLoop.cpp:197-202 | A fresh timer with its callback |
| Timers.EventLoop.CancelInLoop | netlib/src/EventLoop.cpp:192-195 | Marked cancelled and the callback dropped |
| OtlpDrain.SingleDrainer | src/observe/OtlpHttpJsonTracer.cpp:115-155 | draining_ holds exactly while one thread is on its way to drain, draining, or dead of a throwing post; never two; the queue is bounded |
| OtlpDrain.PostsInOrder | src/observe/OtlpHttpJsonTracer.cpp:140-155 | Posted is a prefix of accepted; nothing is lost before the close unless a post threw |
| OtlpDrain.QueueIsServed | src/observe/OtlpHttpJsonTracer.cpp:115-138 | A non-empty queue has a drainer unless a pool add failed or a post threw; after a failed add the next span brings a drainer if and only if the queue has room for it |
| OtlpDrain.FullQueueIsFinal | src/observe/OtlpHttpJsonTracer.cpp:119-122 | From a full queue that nobody drains nothing is ever accepted or posted again, under any continuation |
| OtlpDrain.PostingGoesOn | src/observe/OtlpHttpJsonTracer.cpp:115-155 | With nobody draining, some continuation posts if and only if the tracer is open and the queue has room |
| OtlpDrain.StrandedForGood | src/observe/OtlpHttpJsonTracer.cpp:119-136 | One failed pool add with a queue of one span reaches the state from which nothing is posted again |
| OtlpDrain.NoneLeftBehind | src/observe/OtlpHttpJsonTracer.cpp:32-45 | No thread is left when the destructor returns |
| OtlpDrain.ThrowingPostIsFinal | src/observe/OtlpHttpJsonTracer.cpp:157-165 | After a throwing post nothing is posted and the destructor never returns |
| OtlpDrain.DestructorCanReturn | src/observe/OtlpHttpJsonTracer.cpp:32-45 | From any state the destructor can still return if and only if no post has thrown |
| OtlpDrain.HangsForGood | src/observe/OtlpHttpJsonTracer.cpp:140-165 | A run of six steps in which a post throws, after which no continuation lets the destructor return |
| OtlpDrain.Tracer.EnqueueLocked | src/observe/OtlpHttpJsonTracer.cpp:118-128 | Dropped when closed or full; kicks exactly when nobody drains |
| OtlpDrain.Tracer.TakeLocked | src/observe/OtlpHttpJsonTracer.cpp:144-150 | The head, or the end of draining |
| OtlpDrain.Tracer.DrainAlone | src/observe/OtlpHttpJsonTracer.cpp:140-155 | Undisturbed, the loop posts everything queued in order and clears the flag |
| OtlpDrain.Tracer.GiveUpLocked | src/observe/OtlpHttpJsonTracer.cpp:132-136 | A failed pool add clears the flag, and the queue may be stranded |
| OtlpDrain.Tracer.CloseLocked | src/observe/OtlpHttpJsonTracer.cpp:32-37 | Closed and emptied |
| OtlpDrain.Tracer.PollLocked | src/observe/OtlpHttpJsonTracer.cpp:38-42 | The destructor goes on exactly when no thread is left |

## Left out

* JSON bodies, error texts, audit records, spans and counters that only count: opaque or absent.
* HTTP parsing, header checks and the upstream client: an upstream is an environment that answers each attempt
  once, later, with any class of result.
* A null backend in `fireAttempt`, which calls `onUpstream` at once without counting an attempt; the backend of an
  allowed call is taken to exist.
* Random ids are fresh numbers and the parameter hash is given; collisions of either are not modelled.
* The clock is read once per event. Within one callback the C++ code reads it several times, milliseconds apart.
* Iteration orders of unordered maps are parameters of the events that depend on them.
* A look-up that creates an empty queue or an empty breaker slot is modelled only where the slot can be seen later.
* The grant file, its refresh and its write race: the grant table is a fixed snapshot.
* Built-in tools answer at once; what they answer is not modelled. Nor is the body of a tasks/get reply: the look-up
  and the sweep that come with it are.
* `queueFrame` and `flushQueued`: nothing in the repository calls the first.
* epoll, eventfd, timerfd, the acceptor and the thread pool: system calls and their wrappers.
* Catalogue, tool index, taxonomy and health counters are given look-ups.
* Liveness under a fair scheduler (that a callback is eventually run, or that the destructor's wait does end) is not
  stated; that the wait can end is.
* EngineResults.ExactlyOneReply: a confirm value that is not a string throws out of handleCall before any reply
  (src/pipeline/Pipeline.cpp:299); the model takes it as already parsed.
* EngineHistory.HitsAreExact: assumes tool names and hashes without newlines, which the name check of the front end
  (src/frontend/HttpMcp.cpp:413-419) and the printing of the hash (src/pipeline/Pipeline.cpp:16-33) see to.
* EngineCauses.HandlesGoToOwners: the same assumption about newlines.
