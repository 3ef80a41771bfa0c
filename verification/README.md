# gol: runs, logs and the machinery that keeps them

gol runs agents. A run is an append-only log of events; a pure reducer folds the log into a state, and a
driver grows it one decision at a time. Workers take runs off a leased Redis queue, drive them, and write
their logs through a store that appends only onto the log a worker saw. Around that stand the asks runs put
to each other and to their user, the stops and triggers of their owners, the outbox and streams clients read,
and the journal a local run is kept in.

This project models those parts in Dafny and proves what they promise, for every input, every interleaving of
processes, and a death between any two steps.

| file | what it holds |
|---|---|
| `Protocol.dfy` | specs, effects, events, logs, harness and dispatch phases |
| `Reducer.dfy`, `Folding.dfy`, `Authorizer.dfy` | the reducer, the fold over a log, the policy |
| `Driving.dfy`, `Looping.dfy`, `Outcomes.dfy`, `Driver.dfy` | what a driver does to its log, as functions; the loop of `run_until`; what its events mean; the driver as an object |
| `CrashResume.dfy`, `Termination.dfy`, `Budget.dfy`, `Asks.dfy` | resuming a cut log, termination, budgets over delegation trees, the ask index |
| `Queue.dfy`, `RunQueue.dfy`, `Stores.dfy` | the queue's scripts as functions and as an object's methods; conditional appends |
| `RunLog.dfy`, `Cluster.dfy` | the logs writers can build; every process as steps |
| `Serializing.dfy`, `NothingLost.dfy`, `Deployments.dfy` | what each step does to the logs; what it keeps of the queue; whole runs |
| `Spending.dfy`, `Delegations.dfy` | budgets over whole runs, and over the delegation trees they store |
| `Visits.dfy`, `Enqueues.dfy`, `Deliveries.dfy` | a worker's whole visit to a run; a producer's; answers, replies and stops |
| `Wakeups.dfy`, `Sweep.dfy` | parked runs and the ask sweep; the sweep of pending runs |
| `Outbox.dfy`, `Stops.dfy`, `MemoryStore.dfy`, `Streams.dfy` | the in-memory store's indices, the store as an object, the streams |
| `Fires.dfy`, `Ticks.dfy`, `Scheduler.dfy` | fires against stops, one run per tick, the search for a skipped tick |
| `BoxTurns.dfy`, `Sandbox.dfy` | Box turns and their sandboxes |
| `Journal.dfy`, `JournalFile.dfy` | the journal's codec and its file |

Everything a driver meets outside its log (decider, tools, models, memory, spawner, deliverer, the caller at a
boundary) is a `World` that answers from the log. Ids are opaque. A name-based run id (version 5 of section 5.5
of RFC 9562) is a function of what it is derived from, assumed injective where distinctness is claimed. CRC-32
and UTF-8 validity are parameters of the codec, a zone's offset and a pattern's matching are parameters of the
scheduler. Lease expiry, deaths, lost writes and clock readings are steps any run of the model may take.

## Where the code does not do what it is said to do

Each of these is kept as the code has it, with a lemma that shows it and one that says exactly when the promise
holds.

- A log cut between a sent message's `ChildStarted` and its `MessageSent` is not carried on as it was: the
  message is never recorded (`CrashResumeEquivalence`). Workers store a step's events in one batch, so no log
  they store is cut there (`LogsSerialize`).
- A spawner that answers with a child stored by an earlier, unrecorded attempt can take a run past its budget
  (`StaleChildOverspends`); a child keeps the budget exactly when it is already counted, or fits what is left of
  the steps and model calls, the ten children and the hops (`ChildKeepsBudget`). So budgets over a deployment are
  claimed only for runs in which every driver's spawner and deliverer return the carved limits or a counted
  child (`StoredWithinBudget`); everything else is claimed whatever they return.
- `ask_state` reads a message that expects no reply as an open ask (`TellReadsOpen`). An id reads open exactly
  when the harness waits on it or it is such a message and nothing answered it, never both (`AskIndexAgrees`).
- `RunCompleted` recorded before a run started ends its log but not its dispatch phase
  (`RunEndsDispatchUnlessUnstarted`).
- The sweep reads the store and takes a forgotten run off pending in two steps. A run whose producer is about to
  store it is lost as soon as it is stored (`ForgottenInFlightIsLost`), and one stored since the read is lost at
  once (`ForgottenStoredIsLost`); `ForgettingLosesARun` is such a run of the deployment, in which no producer was
  in flight when the sweep looked. Forgetting is safe exactly when no producer is about to store the run and none
  has stored it without pushing it (`ForgetSafeIff`); `NoRunIsLost` assumes that of each forgetting, and nothing
  else does.
- A put that fails ends whatever open run its id names, since it may have committed. A child's id is fixed by its
  request, so the put of a second attempt can end a child that an earlier one stored and a worker is running
  (`FailedPutEnds`).
- A resume computes its tick from a clock it read before it writes. Of two resumes, the later one can write back
  a tick that was moved on meanwhile, with every clock right, and the tick is moved on twice
  (`StaleResumeMovesTwice`). A step keeps the moved ticks in order exactly when a tick it gives afresh comes from
  a clock that had reached the last moved tick (`StaysAheadIff`). A tick still has one run (`OneRunPerTick`).
- A Box turn's claim takes the lease, then loads the run, and only then counts its delivery. A claim that stalls
  between is counted after the lease holder, and its cleanup reaches the holder's sandbox in the middle of its
  gateway call (`HolderLosesSandbox`), or confirms its name gone before it is provisioned (`HolderProvisionsLate`).
  A sandbox is up through its call exactly when no later delivery's cleanup has reached its name (`LiveIff`), so
  while its delivery is the last counted (`LiveThroughCall`); it is provisioned late exactly when one had
  (`LateIff`).

## Model

| member | source | states |
|---|---|---|
| Reducer.ReducerProgress | crates/protocol/src/reduce.rs:56-220 | for any events in any order: the step stays in 1..max(1, max_steps), the attempt within MAX_RETRIES, no (step, attempt) waits twice, and tool calls handed out plus asks waited on are at most the waits, at most (MAX_RETRIES+1)·max(1, max_steps) |
| Reducer.WaitsAreTracked | crates/protocol/src/reduce.rs:88-190 | the waits entered are strictly increasing in (step, attempt), and where the harness stands against the last one |
| Reducer.ApplicableIffActedOn | crates/protocol/src/reduce.rs:226-250 | `applicable` holds exactly where an authorization is not dropped by the reducer |
| Reducer.HandsOutOne | crates/protocol/src/reduce.rs:269-297 | an event hands out at most one effect, only on its authorization while running, and a tool call only while entering its wait |
| Reducer.TerminalAbsorbs | crates/protocol/src/reduce.rs:56-64 | an ended harness takes no further event and hands out nothing |
| Reducer.RunEndsDispatchUnlessUnstarted | crates/protocol/src/reduce.rs:7-54 | an event ends the dispatch phase exactly when it ends the log, except a completion before the run started |
| Reducer.EndsPhase | crates/protocol/src/reduce.rs:7-54 | an end of a phase that has not ended leaves exactly what the event says: the outcome, the failure and its message, cancelled, or expired |
| Reducer.PhaseLeaves | crates/protocol/src/reduce.rs:7-54 | on any other event the phase climbs the ladder one rung at a time, waits, pauses, recovers or resumes from where it may, or stays |
| Reducer.EndsHarness | crates/protocol/src/reduce.rs:56-220 | an open harness ends completed only by a completion while running, failed only by a failure or an expiry, cancelled only by a cancel, with the outcome, class and message of the event |
| Reducer.WaitLeaves | crates/protocol/src/reduce.rs:88-190 | a wait is left for its answered step exactly by the result of its own call and attempt, or the answer to its own ask; nothing but an end moves it otherwise |
| Reducer.StepLeaves | crates/protocol/src/reduce.rs:88-220 | a running step enters a wait, tries again or moves to the next step exactly where it may, and as the event names it |
| Folding.Fold | crates/protocol/src/fold.rs:25-70 | the one-pass fold with its set of seen children gives the harness, dispatch, steps, model calls, distinct children and given budget that the log defines |
| Folding.EndedAs | crates/protocol/src/fold.rs:25-70 | a log whose last event ends it folds to the dispatch phase and the harness that event says, class, message and outcome included |
| Folding.StepsArePositions | crates/protocol/src/fold.rs:36-44 | the steps counted are the places in the log of decisions that cost one |
| Folding.ModelCallsArePositions | crates/protocol/src/fold.rs:45-49 | the model calls counted are the places of authorized model calls |
| Folding.ChildrenAreDistinct | crates/protocol/src/fold.rs:46-60 | the children counted are the distinct children the log names |
| Folding.IdleIffUnstarted | crates/protocol/src/reduce.rs:60-70 | only RunStarted takes the harness out of idle, and nothing brings it back |
| Authorizer.AllowedExactly | crates/protocol/src/authorizer.rs:15-97 | a completion is always allowed; any other effect exactly when its capability is held and its depth, size, timeout and memory scope are in bounds |
| Authorizer.FindsFirst | crates/protocol/src/authorizer.rs:25-30 | the tool looked up is the first of its name, and there is none exactly when no tool has it |
| Authorizer.OwnerOf | crates/protocol/src/authorizer.rs:98-121 | a scope has an owner unless it is global, or it is the session or workspace of a run whose metadata names none |
| Looping.TurnProgress | crates/harness/src/driver.rs:759-794 | a turn of the loop only appends, and one that goes on leaves strictly fewer turns to take |
| Looping.TurnOf | crates/harness/src/driver.rs:257-375 | what one turn appends, in each of its courses: no answer, budget spent, denied, completed, performed |
| Outcomes.ToolResultMeans | crates/harness/src/driver.rs:386-428 | a recorded result is what the tool answered to the effect's own input, for the call the harness waits on; an unknown tool or an error fails the run with it |
| Outcomes.ToolResultIff | crates/harness/src/driver.rs:386-428 | a call has one outcome exactly when the harness waits on that very call, and none otherwise |
| Outcomes.ModelMeans | crates/harness/src/driver.rs:429-448 | a recorded response is what the model said to the effect's prompt, and its error fails the run with it |
| Outcomes.MemoryMeans | crates/harness/src/driver.rs:449-492 | memory is read and written in the effect's scope and key exactly when the run names an owner and the store answers, with the value read or written; else the run fails |
| Outcomes.DelegateMeans | crates/harness/src/driver.rs:564-624 | a child is recorded exactly when the spawner started it for the effect's agent and task, the run's step and the carved limits, under the id and limits it answered; else the refusal is recorded |
| Outcomes.MessageMeans | crates/harness/src/driver.rs:643-707 | a message is recorded as sent, after the task it started, exactly when the deliverer took the effect's own message with the carved limits its task needs; else the refusal is recorded |
| Outcomes.QuestionMeans | crates/harness/src/driver.rs:626-641 | a question is recorded with the effect's prompt where the run can wait for an answer, and refused where it cannot |
| Outcomes.DecidesWithinBudget | crates/harness/src/driver.rs:257-317 | what the decider chose is recorded exactly when a step is left, and for a model call a model call; a completion of a running run needs neither; else the run fails at its limit |
| Outcomes.DeciderFails | crates/harness/src/driver.rs:257-317 | a decider's error is returned and records nothing |
| Outcomes.VerdictMeans | crates/harness/src/driver.rs:321-375 | a decision is authorized exactly when the policy allows it and the harness acts on it; else it is denied, with the policy's reason, or that it does not apply where the run is |
| Looping.DecisionsBounded | crates/harness/src/driver.rs:745-795 | the loop asks the decider at most steps left + 1 times |
| Termination.RunUntilTerminates | crates/harness/src/driver.rs:74-141 | from any log ended at most once: resume and run_until ask at most (max_steps − steps − given, floored at 0) + 1 decisions, only append, and leave at most one terminal event with nothing after it |
| Termination.RecoverOrderly | crates/harness/src/driver.rs:745-758 | finishing a cut step decides nothing, and ends the log at most once |
| CrashResume.CrashResumeEquivalence | crates/harness/src/driver.rs:88-141 | a run cut anywhere and rebuilt gives the same log as the uninterrupted one, if and only if the cut does not fall between the two events of a sent message |
| CrashResume.TurnRecovers | crates/harness/src/driver.rs:745-758 | a cut after a decision, an authorization, a result or a completion is finished to exactly the end of its turn |
| CrashResume.RecoverBoundary | crates/harness/src/driver.rs:745-758 | at a step boundary, resume and its preamble append nothing |
| CrashResume.TurnKeepsBoundary | crates/harness/src/driver.rs:759-794 | a turn leaves its log at a boundary again, ended at most once, and an open stop is a pause, a wait or a decider failure |
| CrashResume.LoopSettles | crates/harness/src/driver.rs:745-795 | the loop stops at a boundary with the log ended, or paused, or waiting for a reply, or with the decider's error |
| Drivers.Driver.RunUntil | crates/harness/src/driver.rs:745-795 | the driver's loop does to its log what the functions say, asks as often, and consumes what the cut left pending |
| Drivers.Driver.Resume | crates/harness/src/driver.rs:88-141 | rebuilding a driver: started, ended, completed, undecided and pending logs, and the refused ones |
| Drivers.Driver.Decide | crates/harness/src/driver.rs:257-317 | a decision against the budget: its events, effects and error |
| Drivers.Driver.AuthorizeDecided | crates/harness/src/driver.rs:321-375 | the verdict on a decision, and what it hands out |
| Drivers.Driver.Perform | crates/harness/src/driver.rs:377-505 | effects are performed in order until one abandons the rest |
| Budget.ChildKeepsBudget | crates/protocol/src/fold.rs:46-60 | a child keeps its parent's whole budget if and only if it is already counted, or its steps and model calls fit what is left (or the counter saturates), with fewer than 10 children and hops to spare |
| Budget.CarveLeavesHalf | crates/harness/src/driver.rs:564-590 | what is carved is at least one of each, half of what is left, and only for a running run with fewer than 10 children |
| Budget.DisciplineKeepsBudget | crates/harness/src/driver.rs:267-308 | every log that decides within budget and records carved children keeps steps + given ≤ max_steps, model calls likewise, at most 10 children, none past 8 hops |
| Budget.TurnDisciplined | crates/harness/src/driver.rs:257-375 | a turn of a driver whose spawner and deliverer return the carved limits or a counted child writes such a log |
| Budget.RecoverDisciplined | crates/harness/src/driver.rs:88-141 | so does resuming a log cut anywhere |
| Budget.RunKeepsBudget | crates/harness/src/driver.rs:745-795 | however a run is resumed and run, it stays within its budget |
| Budget.TreeWithinBudget | crates/harness/src/driver.rs:592-706 | over a run and all its descendants: total steps and model calls are at most the root's limits, at most 10 children each, and no chain past the hop cap |
| Budget.StaleChildOverspends | crates/server/src/spawner.rs:318-340 | a child stored earlier with more than is now left takes its parent past its budget |
| Asks.AskIndexAgrees | crates/server/src/deliverer.rs:273-294 | in an open log with asks recorded in open steps and fresh ids, an id reads open exactly when the harness waits on it or it is an unanswered message that expects no reply, never both |
| Asks.TellReadsOpen | crates/server/src/deliverer.rs:277-283 | a message that expects no reply reads as an open ask that nothing waits on |
| Asks.LateAnswerChangesNothing | crates/protocol/src/reduce.rs:251-267 | an answer to an ask that is not open changes nothing the log folds to |
| Asks.AnswerAnswersOnce | crates/protocol/src/reduce.rs:102-127 | the answer to an open ask closes it and answers its step; the answer to a message that expects none moves nothing |
| Asks.TurnInOpenSteps | crates/harness/src/driver.rs:625-706 | drivers record asks only in open running steps |
| Queue.ReapExactly | crates/server/src/queue.rs:197-207 | the reaper hands back exactly the claimed runs without a lease, in order, to the end claims take from |
| Queue.ReapPlaces | crates/server/src/queue.rs:197-207 | where each run stands after a reap |
| Queue.WakeOnlyItsAsk | crates/server/src/queue.rs:166-174 | a wake for another ask, or a second one, changes nothing; the right one moves the run from parked to the list |
| Queue.FirstInFirstOut | crates/server/src/queue.rs:97-155 | a pushed, released or woken run is claimed after what was listed before it |
| Queue.ClaimIsExclusive | crates/server/src/queue.rs:122-133 | a claimed run is leased, in processing, and not claimed a second time |
| Queue.StartsCount | crates/server/src/queue.rs:135-192 | starts count up one by one, through releases and reaps, and begin again after an acknowledgement or a park |
| Queue.OthersUntouched | crates/server/src/queue.rs:82-174 | a push, start, wake, mark or lapse of one run leaves where every other run stands |
| Queue.OtherClaimsUntouched | crates/server/src/queue.rs:140-193 | so do a release, a park and an acknowledgement |
| Queue.PendKeepsTime | crates/server/src/queue.rs:82-120 | marking a pending run again keeps its first time; unpending undoes the mark, and a push lists the run and undoes it |
| Queue.LeaseIsItsHolders | crates/server/src/queue.rs:140-193 | a token that does not hold the lease releases and parks nothing and takes no lease away; the one that does gives it up |
| RunQueues.RunQueue.Claim | crates/server/src/queue.rs:122-133 | the script over the queue's lists and leases |
| RunQueues.RunQueue.Reap | crates/server/src/queue.rs:194-207 | the script's loop over a snapshot of processing, and the runs it reports |
| RunQueues.RunQueue.Park | crates/server/src/queue.rs:153-164 | the script while the token holds the lease, and nothing otherwise |
| RunLog.WrittenShaped | crates/server/src/worker.rs:601-774 | a log built by writers one after another ends once, and while open is queued, scheduled, or started with its last step whole |
| RunLog.StoredResumes | crates/server/src/worker.rs:648-666 | resuming a stored log performs nothing: it owes at most its start or one advance, and never a torn message |
| RunLog.WaitsIffQueued | crates/server/src/spawner.rs:170-181 | a stored run still waits exactly while its log is what it was stored with, which is exactly while it is unended and queued |
| Visits.VisitIsSteps | crates/server/src/worker.rs:601-774 | from its claim to its acknowledgement or park, a worker no other process disturbs takes steps that leave the store with exactly the log that scheduling, rebuilding the driver and running its loop once gives, for any number of turns, and the queue with the run parked on its ask or acknowledged; each state on the way has that log or is where the next visit comes to it |
| Visits.KilledVisit | crates/server/src/worker.rs:601-774 | wherever in that visit the worker is killed, the run has ended as it would have, or a second worker that claims it leaves the same log |
| Visits.ReadyResumes | crates/server/src/worker.rs:640-660 | a stored open run, once scheduled, is never refused by resume |
| Visits.TooManyStarts | crates/server/src/worker.rs:379-463 | a run started as often as it may be is failed, unrun, and acknowledged |
| Visits.NothingToVisit | crates/server/src/worker.rs:379-412 | a claimed run that is not stored or has ended is acknowledged as it is |
| Visits.RefusedAppend | crates/server/src/worker.rs:510-547 | on a moved log a worker starts over from the log as it is, three times, then hands the run back having stored nothing; on an ended one it acknowledges |
| Visits.LostLease | crates/server/src/worker.rs:615-640 | a worker that lost its lease stores nothing more, and leaves the queue as it is |
| Visits.RecheckWakes | crates/server/src/worker.rs:1104-1128 | a run just parked is woken at once exactly when a stop covers it or its ask is not open |
| Spending.StoredWithinBudget | crates/harness/src/driver.rs:564-706 | in every reachable state of a deployment whose drivers all meet spawners and deliverers that return the carved limits or a counted child, every stored log is within its run's budget |
| Delegations.StepBacked | crates/server/src/spawner.rs:298-345 | when spawners store a child before it is recorded, every recorded child stays stored with the limits and the hop it was recorded with |
| Delegations.DeploymentKeepsBudget | crates/harness/src/driver.rs:564-706 | in every reachable state of such a deployment with honest spawners: over any stored run and all the runs recorded under it, total steps and model calls are at most that run's limits, at most 10 children each, and no chain past the hop cap |
| RunLog.StoredAsksAgree | crates/server/src/deliverer.rs:273-294 | in every stored open log with fresh ids, what reads open is the one its harness waits on, or an unanswered message that expects no reply |
| RunLog.WorksAnswerless | crates/server/src/worker.rs:601-774 | no worker's batch answers an ask |
| NothingLost.PlaceKept | crates/server/src/worker.rs:379-463 | what any process counts on of its run's place stays true whatever the others do |
| Enqueues.EnqueueIsSteps | crates/server/src/spawner.rs:44-165 | what asking for a run comes to over its producer's own steps: new, already stored, or fired past a gate, with a put that fails, committed or not, and a push that fails |
| Enqueues.FailedPutEnds | crates/server/src/spawner.rs:44-81 | a put that fails ends the run stored under its id exactly when that is open and no fire asked for it, whether this put or an earlier one stored it |
| Deliveries.DeliverReads | crates/server/src/deliverer.rs:342-381 | a deliverer goes on to append exactly when the ask is open in a stored, unended log, leaves the ask exactly when it was never sent and is not to be closed, and otherwise only wakes; it has changed nothing yet |
| Deliveries.DeliveryRecords | crates/server/src/deliverer.rs:342-381 | in every run of a deployment: a deliverer that read an ask open next appends its answer to the asker's log as that then is, unless it has ended, which closes the ask, and then takes the asker off it and lists it |
| Deliveries.ReplyRecords | crates/server/src/http.rs:1014-1060 | a user's reply is appended only onto the very log its question was read from, answers the question the run waits on there, and wakes the run; on any other log it changes nothing |
| Deliveries.StopRecords | crates/server/src/http.rs:1268-1358 | a stop cancels only a run it found parked or not yet scheduled, only in the very log it read, and then wakes it from the ask it was parked on |
| Deliveries.DeliverIsSteps | crates/server/src/worker.rs:1378-1405 | the pass over due asks delivers each as the deployment's deliverer does when no other comes between its steps |
| Deliveries.ParkedIsSteps | crates/server/src/worker.rs:1302-1377 | and the pass over parked runs looks at, answers and wakes each as that process does |
| NothingLost.ProduceKeeps | crates/server/src/spawner.rs:44-165 | each step of a producer, a fire, a settle or the sweep keeps every open run placed |
| NothingLost.LaborKeeps | crates/server/src/worker.rs:379-774 | so does each step of a worker, whatever its driver meets |
| NothingLost.ServeKeeps | crates/server/src/deliverer.rs:342-381 | so does each step of a deliverer, a reply, a stop, the ask sweep, the reaper, expiry and death |
| Serializing.TakenExactly | crates/server/src/store.rs:695-717 | a worker's append is taken only onto the log it saw, and leaves the store with its own log |
| Stores.AppendOutcome | crates/server/src/store.rs:693-717 | an append is taken exactly onto a stored, open log of the length seen, adds the batch there and nowhere else, and any other changes nothing and says why |
| Serializing.TurnWrites | crates/server/src/worker.rs:725-758 | a turn from a stored boundary is what a driver resumed from that log would write |
| NothingLost.AckKept | crates/server/src/queue.rs:183-193 | acknowledging an ended run takes nothing from any other |
| NothingLost.ClaimKept | crates/server/src/queue.rs:122-133 | a claim, or the drop of a run listed twice, loses no run |
| Serializing.StepLogs | crates/server/src/worker.rs:601-774 | every step of every process only adds to logs, moves each by at most one writer's batch, and an answer is only appended by a process that then wakes the run |
| Serializing.BeganFollows | crates/server/src/worker.rs:629-690 | what a worker does first with a loaded log is one writer's batch: cancelled, scheduled, failed, or resumed |
| NothingLost.StepKeeps | crates/server/src/worker.rs:379-774 | every step of every process keeps every open run in its place, but for an unsafe forgetting |
| Deployments.NoRunIsLost | crates/server/src/worker.rs:1254-1290 | in every state reachable without an unsafe forgetting, a stored open run is pending, listed, claimed or parked; a leased one is claimed; and only an ended one is about to be acknowledged |
| Deployments.ForgottenInFlightIsLost | crates/server/src/worker.rs:1280-1285 | a run forgotten while its producer is about to store it is open and nowhere once it is stored |
| Deployments.ForgottenStoredIsLost | crates/server/src/worker.rs:1280-1285 | a run stored and not pushed since the sweep read the store is open and nowhere once it is forgotten |
| Deployments.ForgettingLosesARun | crates/server/src/worker.rs:1254-1290 | a run of the deployment that loses a run, with no producer in flight when the sweep looked |
| NothingLost.ForgetSafeIff | crates/server/src/worker.rs:1254-1290 | taking a run found unstored off pending keeps the invariant if and only if, by then, no producer is about to store it and none has stored it without pushing it |
| Deployments.LogsSerialize | crates/server/src/worker.rs:601-774 | in every reachable state, whatever drivers meet and sweeps forget, each log is one writer's batch after another, each what a driver resumed from exactly the log before it writes (or a lone end or answer); it ends once and is never torn |
| Deployments.StepSerializes | crates/server/src/store.rs:693-717 | each step leaves a log as it is or appends one such batch |
| Deployments.LogsOnlyGrow | crates/server/src/store.rs:693-717 | over any stretch of a run, logs are only added to |
| Wakeups.NoLostWakeup | crates/server/src/worker.rs:1104-1127 | in every crash-free interleaving, a run parked on an ask its log answers has a recheck or a wake outstanding |
| Wakeups.StepOwes | crates/server/src/deliverer.rs:342-381 | each step keeps that, through parks, rechecks, answers, replies and wakes |
| Wakeups.SweepParked | crates/server/src/worker.rs:1302-1377 | the sweep's loop over the listed parked runs, and the runs it reports |
| Wakeups.SweepDue | crates/server/src/worker.rs:1378-1405 | its loop over asks past their deadline |
| Wakeups.DueSettled | crates/server/src/deliverer.rs:342-381 | after it, no due ask is open in its asker's log or parked on |
| Wakeups.SweepsExactly | crates/server/src/worker.rs:1302-1377 | a pass takes off parked, and lists again, exactly the runs whose log no longer waits, those it has an answer for, and the stopped ones that wait for their user |
| Wakeups.SweepRules | crates/server/src/worker.rs:1302-1377 | for one parked run, from its log: one that waits no more is woken as it is, one that waits for its user only under a stop, any other is given the answer it is due and woken, and left where none is due |
| Wakeups.SweptWaits | crates/server/src/worker.rs:1302-1377 | after a pass over all parked runs, every run still parked waits on the ask it is parked on |
| Wakeups.SweepFindsAnswered | crates/server/src/worker.rs:1302-1377 | in every reachable state, deaths included, one pass leaves no run parked on an ask its log answers, nor a parked run whose log ended |
| Sweeps.Sweep | crates/server/src/worker.rs:1254-1290 | the sweep's loop over the listed pending runs, and the runs it reports queued |
| Sweeps.SettlesOne | crates/server/src/worker.rs:1262-1287 | a waiting run is queued, or cancelled if its gate was shut, or kept if its gate could not tell; any other stored run is off pending; an unstored one goes only once forgotten |
| Sweeps.SweepIsSteps | crates/server/src/worker.rs:1262-1287 | what a pass does to one run is what the deployment's sweeping process does when no other comes between its steps |
| Sweeps.SweepKeeps | crates/server/src/worker.rs:1254-1290 | a whole pass loses no run: every open stored run is still pending, listed, claimed or parked, and logs only grow |
| Outbox.NumberKeeps | crates/server/src/store.rs:665-717 | storing events keeps: a principal's count is the sum of its runs' log lengths, its rows are exactly pruned+1..count in order, each naming a distinct stored event |
| Outbox.PruneKeeps | crates/server/src/store.rs:1222-1243 | so does pruning |
| Outbox.PruneDrops | crates/server/src/store.rs:1222-1243 | a row is kept exactly when no row of its principal numbered at or above it was stored before the time pruned to |
| Outbox.PrunedMark | crates/server/src/store.rs:1222-1243 | the principal's mark becomes the highest number of a row stored before that time, or stays |
| Outbox.NumberAdds | crates/server/src/store.rs:665-691 | the rows added name the new events of the run at their places, numbered after the principal's last, and no other principal's count moves |
| Outbox.TotalWithout | crates/server/src/store.rs:665-691 | the sum of log lengths does not depend on the order runs are taken in |
| Outbox.PageIsNext | crates/server/src/store.rs:1170-1216 | a page from an unpruned cursor is the next numbers without a gap, up to the last or the limit |
| MemoryStores.InMemoryStore.PutRun | crates/server/src/store.rs:812-825 | a run is stored once, numbered in the outbox and in the store's order, and the store stays valid |
| MemoryStores.InMemoryStore.AppendChecked | crates/server/src/store.rs:695-717 | an append is refused on a missing, ended or moved log or a batch past its end, else appended and numbered, and the store stays valid |
| MemoryStores.InMemoryStore.PruneOutbox | crates/server/src/store.rs:1222-1243 | the loops of a prune, what they drop, and that the store stays valid |
| MemoryStores.InMemoryStore.OutboxAfter | crates/server/src/store.rs:1170-1216 | a page read from the rows; each entry's event is stored |
| MemoryStores.InMemoryStore.PutStop | crates/server/src/store.rs:1025-1032 | a stop replaces the principal's earlier one of its scope, numbered after everything |
| MemoryStores.CheckOneTerminal | crates/server/src/store.rs:92-105 | a batch is taken exactly when nothing follows its first terminal event |
| Stops.Stopped | crates/server/src/store.rs:1034-1054 | the walk up the lineage ends, and answers whether some stored run at or above is named by its principal's stop |
| Stops.CoveredLater | crates/server/src/store.rs:1025-1054 | a covered run stays covered under every later store operation |
| Stops.PutStopLater | crates/server/src/store.rs:1025-1032 | replacing a stop of the same scope keeps what it covered |
| Stops.PutStopNames | crates/server/src/store.rs:484-490 | a new stop names exactly the stored runs of its scope and principal, besides those named before |
| Stops.CoveredByParent | crates/server/src/store.rs:1034-1054 | a stored run is covered exactly when it is named or the run above it is covered |
| Stops.StoredAfterStops | crates/server/src/store.rs:484-490 | a run stored after the stops is covered exactly when a stop names its id or the run above it is covered: no earlier thread or owner stop reaches it |
| Streams.OutboxStream | crates/server/src/stream.rs:142-219 | whatever is appended or pruned between reads, the numbers sent are consecutive from the cursor, then at most one reset from a cursor that was pruned; each read catches up or sends a full page |
| Streams.RunStream | crates/server/src/stream.rs:224-286 | what is sent is exactly the log from the cursor, each event with its place, ending with the terminal event and nothing after it |
| Fires.FireVersusStop | crates/server/src/triggers.rs:236-332 | in every interleaving, a gate ever opened at a generation a trigger had by its owner's pause is for a run stored by then, and the stop recorded after the pause covers it from then on |
| Fires.PushedIsCovered | crates/server/src/http.rs:1409-1432 | once an owner's stop paused the triggers and recorded itself, a pushed run whose every gate was opened for a fire from before the pause was stored before the stop, and is covered by it |
| Fires.SinceStep | crates/server/src/store.rs:943-961 | after a pause no gate opens for a generation from before it: a resumed trigger runs at a later one |
| Fires.PushedThroughGate | crates/server/src/spawner.rs:110-165 | only a run whose gate was opened is pushed |
| Fires.GateDecides | crates/server/src/spawner.rs:110-165 | a run whose trigger runs at the generation its fire read is pushed next; any other is held, its log ended and never pushed |
| Fires.FireReads | crates/server/src/triggers.rs:236-302 | a running trigger's fire stores its run under the trigger's generation, and a paused one starts no fire |
| Fires.SweepSettles | crates/server/src/triggers.rs:303-332 | a fire that died is settled at the generation it recorded, and its gate is asked only while its run still waits |
| Fires.OwnerActs | crates/server/src/store.rs:943-975 | a new trigger runs at generation 0; a deleted one opens no gate; a pause, and a stop of all of its owner's and no other's, keep generations; a resume takes the next one, and only if the trigger was paused |
| Fires.ResumeShutsGate | crates/server/src/triggers.rs:303-332 | a pause and a resume shut the gate to every fire that read the trigger before |
| Fires.StopCovers | crates/server/src/http.rs:1409-1432 | the owner's stop covers every run of the owner's that was stored by the pause |
| Ticks.OneRunPerTick | crates/server/src/triggers.rs:223-243 | however schedulers race, retry or die, among all runs of the store: every tick of every trigger that was fired and put has its own run under its derived id, never another's, and no other run is of that tick |
| Ticks.TickRunStays | crates/server/src/store.rs:812-824 | a stored run keeps its spec, trigger and tick, however often its tick is put again |
| Ticks.TicksMoveOnce | crates/server/src/scheduler.rs:235-266 | while each tick given afresh comes from a clock that had reached the trigger's last moved tick, each tick is moved on at most once, in order |
| Ticks.PutWasChecked | crates/server/src/triggers.rs:236-256 | in every run, a tick's run is put only by a process whose last step was a check that found the trigger running and still at that tick |
| Ticks.FiresAndMoves | crates/server/src/scheduler.rs:235-266 | a scheduler left alone fires a due tick: its run is stored and the trigger moved to its next tick |
| Ticks.GivenTicks | crates/server/src/store.rs:943-988 | a new trigger, a resumed one and an unscheduled one, left alone, each run at their next tick after the clock read; without one, a resume leaves the trigger paused and the scheduler pauses it |
| Ticks.GivenMeanwhile | crates/server/src/store.rs:943-988 | a resume of a running trigger, and a first tick for one scheduled since, change nothing |
| Ticks.StaysAheadIff | crates/server/src/store.rs:943-988 | a step keeps every trigger's ticks in order if and only if a tick it gives afresh comes from a clock that had reached the last moved one |
| Ticks.StaleClockMovesBack | crates/server/src/http.rs:1635-1675 | from any state, a tick given from a clock behind is moved on after a later one |
| Ticks.AdvanceIncreases | crates/server/src/store.rs:976-988 | each successful advance moves to a strictly later tick or to none; a failed one changes nothing |
| Ticks.StaleResumeMovesTwice | crates/server/src/http.rs:1635-1675 | a run of the model, with every clock right, in which a tick is moved on twice |
| Scheduler.GapTick | crates/server/src/scheduler.rs:67-125 | for minute-aligned offsets with at most one change per scanned hour: the earliest forward jump strictly inside the interval over a named wall-clock minute, and none exactly when there is none |
| Scheduler.Resumes | crates/server/src/scheduler.rs:88-104 | the bisection ends at the instant the clocks resume |
| Scheduler.IsTick | crates/server/src/scheduler.rs:132-170 | a candidate is a tick exactly when its wall-clock time is there for the first time and is named, or comes right after a gap that skipped a named one |
| Scheduler.NextTick | crates/server/src/scheduler.rs:37-62 | the result is past its start: the first candidate that is a tick, or the first gap before it; none exactly when no candidate in reach is one |
| Scheduler.NextStays | crates/server/src/scheduler.rs:37-62 | the next tick from a time is the next tick from every later time before it, when the cron library finds the same occurrence until it comes |
| Scheduler.NextIsOne | crates/server/src/scheduler.rs:37-62 | a time has at most one next tick |
| BoxTurns.EndsClean | crates/server/src/worker.rs:916-971 | when delivery n ends the turn, a sandbox still up is a later delivery's, or came up after a cleanup confirmed it gone, when its delivery was no longer the last counted |
| BoxTurns.EndsOwned | crates/server/src/worker.rs:916-971 | with no death and no failed removal, each of those has its worker still under way, about to remove it |
| BoxTurns.LateIff | crates/server/src/worker.rs:879-900 | a delivery provisions after its name was confirmed gone exactly when a cleanup had confirmed it, and that was a later delivery's |
| BoxTurns.LatestIsNeverLate | crates/server/src/worker.rs:879-900 | the last delivery counted never does |
| BoxTurns.HolderProvisionsLate | crates/server/src/worker.rs:379-440 | a run, with no death and no failed removal, in which the lease holder does |
| BoxTurns.NeverRemovesLater | crates/server/src/worker.rs:949-971 | no worker removes a later delivery's sandbox |
| BoxTurns.LiveIff | crates/server/src/worker.rs:879-915 | while the turn is open, a delivery's sandbox is up between its provision and the end of its gateway call if and only if no cleanup has reached its name since, and only a later delivery's does |
| BoxTurns.LiveThroughCall | crates/server/src/worker.rs:879-915 | so it is up while no later delivery is counted |
| BoxTurns.HolderLosesSandbox | crates/server/src/worker.rs:379-440 | a run, with no death and no failed removal, in which the lease holder loses its sandbox in the middle of its call |
| BoxTurns.NoneLeft | crates/server/src/worker.rs:879-971 | once every worker is done, with no death and no failed removal, no sandbox is left |
| BoxTurns.StopEndsClean | crates/server/src/http.rs:1268-1358 | a stop that cancels a turn no worker took up finds no sandbox up |
| BoxTurns.GoesOnlyUnstopped | crates/server/src/worker.rs:879-915 | in every run: a turn is started, provisioned and called only past a check that found it unstopped, unended and still its own, and ended only past a last lease check |
| BoxTurns.StopsAtChecks | crates/server/src/worker.rs:879-915 | a stop met at any check before the call goes to cleanup, and a lost lease drops the sandbox |
| BoxTurns.UpIff | crates/server/src/worker.rs:879-971 | in every run, a sandbox is up exactly when a provision, failed ones that left it included, brought it up and no cleanup, drop or sweep has taken it down since |
| BoxTurns.ClaimBegins | crates/server/src/worker.rs:379-463 | a claim counts its delivery only for a turn it loaded open, and a delivery past the limit only cleans up |
| Sandboxes.CleanBox | crates/server/src/worker.rs:949-963 | the cleanup removes exactly deliveries 1 to n's sandboxes, each confirmed gone, and fails only on one that cannot be removed |
| Sandboxes.SandboxHost.Provision | crates/server/src/inference.rs:226-250 | a name already up is refused |
| Journal.JournalRoundTrip | crates/runtime-tokio/src/journal.rs:83-152 | encoding any records and decoding the file gives them back, with no tail |
| Journal.JournalCut | crates/runtime-tokio/src/journal.rs:134-177 | for every cut of a valid journal, decoding returns exactly the records of the whole frames before it |
| Journal.JournalInverse | crates/runtime-tokio/src/journal.rs:134-152 | whatever decodes is, up to its whole length, byte for byte the file of what it decodes to |
| Journal.FrameRoundTrip | crates/runtime-tokio/src/journal.rs:83-117 | a frame reads back as its record, whatever follows |
| Journal.FrameInverse | crates/runtime-tokio/src/journal.rs:154-209 | bytes that read as a record are that record's frame |
| Journal.CutFrame | crates/runtime-tokio/src/journal.rs:154-177 | a frame cut short reads as nothing, and as no error |
| Journal.WholeFramesCounts | crates/runtime-tokio/src/journal.rs:134-152 | the frames counted whole are exactly those that end by the cut |
| JournalFiles.DecodeBytes | crates/runtime-tokio/src/journal.rs:134-152 | the decoder's loop over records and whole |
| JournalFiles.JournalFile.Open | crates/runtime-tokio/src/journal.rs:35-52 | opening cuts the torn tail and leaves exactly the file of the records before it; a file that is not frames is left alone; a failed start leaves what its write left |
| JournalFiles.JournalFile.Append | crates/runtime-tokio/src/journal.rs:70-79 | a write that fails part way is rolled back, or leaves what it wrote when the roll back fails too |
| JournalFiles.JournalFile.Commit | crates/runtime-tokio/src/journal.rs:56-58 | a record that fits is written as its frame; one that does not leaves the file as it was |
| JournalFiles.CommitLeaves | crates/runtime-tokio/src/journal.rs:56-79 | whatever a commit leaves, the journal reads as the records before it, or with it when all of its frame is there |
| JournalFiles.JournalFile.History | crates/runtime-tokio/src/journal.rs:61-67 | the records of the file's whole frames, or why it does not read |
| JournalFiles.ReopenThenCommit | crates/runtime-tokio/src/journal.rs:35-79 | opening after a killed commit and committing again gives the whole records and then the new one |
| JournalFiles.KilledCommit | crates/runtime-tokio/src/journal.rs:35-79 | a commit killed after any of its bytes leaves a journal that reads as the records before it, or with it if its frame was whole |

## Left out

- Background turns in the deployment model: a turn's gateway call and completion are not a driver's steps; Box turns have a model of their own, and other turns are not modelled.
- VisitIsSteps: is of a visit no other process comes between, with a stop met only where the world's boundary says; visits that are disturbed keep `StepSerializes` and `RefusedAppend`.
- The text after a failure's fixed words (the error of a failed push, the number of starts), and a reply's retries on a moved log, each of which is a reply of its own here.
- Message rows and `task_answer`: what the ask sweep finds due to an ask is a parameter of `SweepParked` and `SweepDue`.
- `Driver::retry`, `Driver::deliver_tool_result`, catalogs and skills: not reached by the workers' loop.
- Event ids, times and actors: no decision of the modelled code reads them.
- 32-bit overflow of the fold's own step and model-call counters: they are natural numbers here, saturating only where the code saturates. The outbox's and the store's 64-bit numbers, and generations, are natural numbers too.
- DeploymentKeepsBudget: counts the runs that logs record; a child stored by a worker that died before it stored its parent's step is recorded nowhere, and spends its own limits besides.
- The choice of a child's spec and id by the spawner: a driver's children come with its world, and the deployment's producers store them.
- The order of two timed-out writes and store errors that hide a committed write, except for the put that may have committed (`PutFails`); any other failed call is a death of its process.
- Volumes of Box runs and the sandbox sweep beyond its removal of an ended turn's sandboxes.
- BoxTurns: a start counted after an acknowledgement cleared the count is not modelled; such a delivery reads the log ended before it provisions.
- EndsOwned: a removal that fails leaves a sandbox whose worker is done, so it is not claimed of runs with one.
- Webhook replays' answers, trigger rotation and the key checks of hooks; deleting a trigger in the model of ticks.
- Fires: a run's trigger and generation, which the code keeps as text in its metadata, are given; unreadable metadata is not modelled.
- NextTick: the cron library's next occurrence is a parameter, taken to be later than its start; a zone is its offset at each instant.
- Stopped: answers for stores in which hops increase down the lineage, as specs are built; over a cyclic lineage the walk would not end.
- Postgres, Redis connections, HTTP, providers, tokens, panics and real time.
- Threads, artifacts, agents and the listing of open runs under a stop.
