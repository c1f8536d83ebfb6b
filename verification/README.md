# Verified model of a2a-proof

`a2a-proof` is a contract-testing engine for agents that speak A2A. This project models the deterministic cores
under its I/O in Dafny and proves properties of them that span functions and files.

Run `dafny verify dfyconfig.toml` to check the whole project.

## What is modelled

- **Responses.** `Protocol` describes stream events and, as a value, what is collected from them; `Collector`
  holds the class that is updated event by event, proved equal to that value. `CollectorLaws` says what the
  collected value is as a function of the event log alone, `EventLaws` what each event contributes and when it is
  accepted, in terms of its own messages, artifacts and parts, and `OutcomeLaws` what an outcome lists.
- **Push notifications.** `Push` holds the receiver, its subscriptions and the waiter as classes. One handler or
  the waiter runs at a time, so each runs from one suspension to the next in one step; what happens while the
  waiter is suspended is an input (`Tick`). `PushInvariant` treats all interleavings, `PushSchedule` shows that
  the outcome of a wait does not depend on them, `PushOutcome` relates that outcome to the collector, and
  `PushRejection` says over whole schedules when a wait succeeds in spite of a rejection.
- **Trials and scenarios.** `Runner` splits a turn at the operation it awaits (`Begin`, `Resume`) and holds the
  methods that run a trial on the objects of `Push`. `Requests` says what each turn asks of the agent, how context and
  task are carried over, and when a trial goes on. `Lifetimes` follows the push subscriptions of a trial,
  `Scheduler` interleaves the trials of a scenario under a semaphore, `ParallelRuns` shows that in every schedule each
  trial ends as a sequential one on the same replies, `Scenarios` has the sequential path, early
  stop, latency checks and the suite, and `TurnReports` relates what is reported of a trial to what its operations
  returned. `PushTrial` puts the subscriptions of `Push` into the world of a trial.
- **Record and replay.** `Cassette` converts outcomes to JSON and back and holds recorder and tape. `Traces` describes
  a run with a trace of what was returned or raised, and scripts that answer calls in an agent's place: a tape, or the
  very calls of a recorded trial. `Replay` and `ReplayScripts` compare trials that are answered alike. `Revisions` has a
  contract as it was recorded and as it is replayed (scenarios left out, added or changed in place) and the replay as
  it should be, in which every trial is answered by its own recorded calls. `ReplayOrder` is the condition under which
  the tape does that, `ReplayExact` and `ReplayTheorem` show that it is exact, `Selections` reads it off the recorded
  verdicts where the contract was not changed, `ReplayConditions` has its simpler forms, and `ReplayWitnesses` has
  recordings whose replay gives other verdicts.
- **Report.** `Report` is the JUnit report as a list of cases with the counts in its attributes.
- **Statistics.** `Statistics` has the Wilson bound, required successes and the least provable number of trials
  over the reals; `Latency` has interpolated percentiles with half-even rounding (`Rounding`).
- **JSON.** `JsonText` is the compact text whose octets are measured, `Pointer` is RFC 6901, `Redaction` the replacement of AP2 tokens, `Schema` the limits on JSON Schemas,
  `Evidence` the redaction and truncation of evidence files, `Records` what redaction keeps, `SingleSecret` the exact condition under which one
  secret is removed by its own pass, `SecretLists` the one under which it is removed whatever the other secrets are,
  `Truncations` what a truncated text shows, `Trajectory` the checks of state sequences, `Names` the generation of
  scenario names, `Invariants` the global invariants on texts.

Everything outside is given as a `World`: a state of its own and a function that answers every request with an
outcome or an exception, the random identifiers, and the clock.

## Where the code does less than it seems to

- A handler can crash on a full queue, but only after a rejection: with a rejection announced and not yet taken,
  nothing consumed, and 999 deliveries accepted, the next new delivery raises `QueueFull`
  (`src/a2a_proof/push.py:299-329`). `PushInvariant.CrashExactly` gives the exact condition,
  `PushInvariant.CrashAfterRejection` a run.
- `docs/push-notifications.md:72-73` says that an invalid payload fails the trial. The waiter looks for a rejection
  before a take but not when it is woken by one (`src/a2a_proof/push.py:89-106`), so an invalid payload behind a
  completed task is overlooked if both arrive during one suspension (`PushOutcome.RejectionRace`). Over whole schedules:
  what is rejected before the wait always fails it (`PushRejection.RejectedAtStart`); with what is rejected first in
  some suspension the wait still succeeds if and only if the deliveries before it end the wait with an outcome, or they
  do not end it, no deadline has passed, and the first element that suspension leaves in the queue is a delivery that
  ends it (`PushRejection.RejectedWaitExactly`).
- A cassette holds what operations returned, in order, not what they raised and not which calls they answered.
  Recording runs every trial (`src/a2a_proof/cli.py:475`); a replay may stop early, be restricted to some scenarios,
  or run a changed contract (`src/a2a_proof/cli.py:396-398`, `src/a2a_proof/cli.py:566-586`). `docs/cassettes.md:18-20`
  and `docs/cassettes.md:41-43` promise that a replay reproduces the recorded run and that a changed expectation is
  judged on the recorded responses. Every call of a replay is answered with what was recorded for that call if and
  only if three things hold: every call it should make was recorded, nothing was returned after such a call that
  raised, and where a recorded outcome is not asked for, no call is made for a later trial
  (`ReplayTheorem.ReplayExactly`, and without recursion `ReplayConditions.InOrderPointwise`). For an unchanged contract
  this can be read off the recorded verdicts (`Selections.SelectionExactly`). For the whole contract without early stop
  it says that nothing was returned after something was raised (`ReplayConditions.WithoutEarlyStop`); where nothing
  raised, that everything in front of a replayed trial is replayed in full (`ReplayConditions.WithoutRaises`).
  Four replays with other verdicts: after a raise in the first of two trials (`ReplayWitnesses.RaiseFirstDiverges`),
  with early stop (`ReplayWitnesses.EarlyReplayDiverges`), of one scenario of two
  (`ReplayWitnesses.SelectionDiverges`), and with one expectation changed, which changes the verdict on a scenario
  nobody touched (`ReplayWitnesses.RevisionDiverges`).
- `contains_in_order` is checked on a trajectory in which adjacent repeats were merged
  (`src/a2a_proof/protocol.py:219-222`), so a list with adjacent repeats never matches a response that reported it
  (`Trajectory.RecordedAnswersAlike`, which also says that nothing else is lost).
- Redaction in evidence files always removes every secret exactly when no secret is part of the word in the marker,
  if secrets have no brackets (`Evidence.RemovalExactly`). The passes run one after the other, so the marker of one
  secret can complete another: a secret is removed from every text, whatever the other secrets are, exactly if it is
  seamless, that is, differs from the marker somewhere however the two overlap (`SecretLists.RemovedAmongAnyExactly`).
  With no other secrets it is enough that it cannot start inside a marker and no marker completes it
  (`SingleSecret.RemovedExactly`): "[[" is removed alone, but not together with "b" (`SecretLists.RemovableNotAmongAny`),
  and "]a" not even alone (`Evidence.BracketSecretSurvives`).
- Long texts are truncated after redaction, and the mark put behind the cut, "…[truncated]", can hold a secret or
  complete one: no truncated text ever shows a seamless secret exactly if the mark does neither
  (`Truncations.NeverShownExactly`); "a…" is shown by a text cut behind "a" (`Truncations.EllipsisSecretShown`). A text
  is cut short of the limit exactly if the last bracket before the limit starts a marker that ends before the limit;
  what stands between that marker and the limit is lost (`Evidence.ShorterThanLimit`).
- A response that violates the global invariants is reported as a marker, without data and files, but its states,
  timings and the failures of its other checks are still reported. The marker can itself hold a forbidden text
  (`TurnReports.MarkerCanViolate`); every reported text keeps the invariants exactly if the text of its response does
  or the marker does (`TurnReports.ForbiddenShownExactly`).
- Without the validation of conversations a second push turn would leak the first subscription
  (`Lifetimes.SecondPushLeaks`), and no later step of the trial would close it (`Lifetimes.ForgottenForGood`).

## Model

| member | source | states |
|---|---|---|
| Collector.ResponseCollector.constructor | src/a2a_proof/protocol.py:59-72 | a fresh collector has collected nothing |
| Collector.ResponseCollector.SetTaskId | src/a2a_proof/protocol.py:224-227 | records a task id unless it is empty |
| Collector.ResponseCollector.SetContextId | src/a2a_proof/protocol.py:229-232 | records a context id unless it is empty |
| Collector.ResponseCollector.SetState | src/a2a_proof/protocol.py:219-222 | the state becomes current and is appended to the trajectory unless it repeats the last |
| Collector.ResponseCollector.Say | src/a2a_proof/protocol.py:141-154 | a message replaces the content under its key, after its identity and parts were checked; a user's message only counts for the check |
| Collector.ResponseCollector.Store | src/a2a_proof/protocol.py:156-185 | an artifact replaces or extends what is stored under its key and keeps its last name |
| Collector.CollectFiles | src/a2a_proof/protocol.py:295-326 | the file parts in order, or the first overlong link or invalid metadata |
| Collector.ResponseCollector.Update | src/a2a_proof/protocol.py:85-91 | a status sets task, context and state and says its message, in this order |
| Collector.ResponseCollector.Snapshot | src/a2a_proof/protocol.py:130-139 | a task's status, history and artifacts take effect in order up to the first error; what they leave behind is stated by EventLaws.TaskCollected |
| Collector.ResponseCollector.Add | src/a2a_proof/protocol.py:74-99 | one event is counted, checked, applied and measured; on an error the effects up to it remain |
| Collector.ResponseCollector.Result | src/a2a_proof/protocol.py:101-128 | the outcome, or the refusal of an empty or non-terminal response |
| CollectorLaws.AcceptedEffects | src/a2a_proof/protocol.py:74-99 | the collected value is the effects of the accepted events in order, and the counter is their number |
| CollectorLaws.StatesAreCollapsedLog | src/a2a_proof/protocol.py:219-222 | the trajectory is the log of reported states with adjacent repeats merged, the state is the last of them |
| CollectorLaws.ArtifactsOfLog | src/a2a_proof/protocol.py:156-185 | artifacts are in first-seen key order, and each depends on the publications under its own key only, whatever is interleaved |
| CollectorLaws.ArtifactIsReplacementPlusAppends | src/a2a_proof/protocol.py:174-185 | an artifact equals its last replacement plus all later appends, under the last name given |
| CollectorLaws.MessagesOfLog | src/a2a_proof/protocol.py:141-154 | messages are in first-seen key order, each the last one said under its key |
| CollectorLaws.RawBytesConserved | src/a2a_proof/protocol.py:173-184 | at every key raw_bytes stays the sum of the sizes of the raw files stored there |
| CollectorLaws.RawTotalIsFileBytes | src/a2a_proof/protocol.py:192-194 | the measured raw size is the sum over all reported files |
| CollectorLaws.IdentityNeverChanges | src/a2a_proof/protocol.py:234-269 | with an expected identity, started from its context, no other task or context is ever recorded |
| CollectorLaws.OutcomeWithinLimits | src/a2a_proof/protocol.py:187-217 | after accepted events all size limits hold of the outcome; the separators between texts come on top |
| CollectorLaws.OutcomeStates | src/a2a_proof/protocol.py:101-128 | the outcome's states are the collapsed log, or the default state alone |
| EventLaws.DataInOrder | src/a2a_proof/protocol.py:272-292 | the structured parts, all of them and in order, each with its value, media type and artifact |
| EventLaws.FilesInOrder | src/a2a_proof/protocol.py:295-326 | the raw and linked files, all of them and in order, each with its metadata; only raw ones have a size and a digest |
| EventLaws.TaskCollected | src/a2a_proof/protocol.py:130-139 | after an accepted task every key holds the last message filed under it, the status message coming before the history, and the last artifact with the last name given; other keys keep theirs; state, task and context are recorded |
| EventLaws.StatusIsBareTask | src/a2a_proof/protocol.py:85-91 | a status update does what a task without history and artifacts does |
| EventLaws.EventIsRecorded | src/a2a_proof/protocol.py:224-232 | the recorded task and context are those of the event unless a message of the agent names others |
| EventLaws.MessageCollected | src/a2a_proof/protocol.py:80-82 | an accepted message is held under its key unless the user sent it, and reports the state message |
| EventLaws.ArtifactCollected | src/a2a_proof/protocol.py:92-96 | an accepted artifact is appended to what its key holds or takes its place, and touches no other key |
| EventLaws.MessageAcceptedExactly | src/a2a_proof/protocol.py:141-154 | a message is accepted if and only if it names no unexpected task or context and, unless the user sent it, each of its parts is acceptable |
| EventLaws.ArtifactAcceptedExactly | src/a2a_proof/protocol.py:156-173 | an artifact is accepted if and only if each of its parts is, with its identifier and the name in force |
| EventLaws.EventAcceptedExactly | src/a2a_proof/protocol.py:74-99 | an event is accepted if and only if it is among the first thousand, has a payload, names the expected task and context, its effects are accepted and the sizes kept |
| OutcomeLaws.TextIsJoined | src/a2a_proof/protocol.py:112-113 | the text is the non-empty texts in order, with one line break between neighbours |
| OutcomeLaws.OutcomeOfContents | src/a2a_proof/protocol.py:101-128 | when there is an outcome, and that it lists text, data and files of all messages and then of all artifacts |
| OutcomeLaws.SizesExactly | src/a2a_proof/protocol.py:187-217 | the size check passes if and only if characters of text, octets of files and of structured data, and numbers of parts are within the limits |
| JsonText.SizeIsTextLength | src/a2a_proof/protocol.py:198-205 | the measured size of a value is the number of UTF-8 octets of its compact JSON text |
| Push.SubscriptionState.constructor | src/a2a_proof/push.py:46-58 | a new subscription is empty and unbound |
| Push.SubscriptionState.Refuse | src/a2a_proof/push.py:381-386 | the first rejection is kept and announced if the queue has room |
| Push.SubscriptionState.RecordDelivery | src/a2a_proof/push.py:299-329 | a body is refused, counted, recognised as a retry, or enqueued, in the order of the program's checks |
| Push.SubscriptionState.Handle | src/a2a_proof/push.py:299-329 | the handlers that run during a suspension take effect one after the other |
| Push.PushSubscription.Bind | src/a2a_proof/push.py:75-79 | binds task and context of an open subscription |
| Push.PushSubscription.Wait | src/a2a_proof/push.py:81-116 | drains the queue until a terminal delivery, an error, a noticed rejection or the deadline |
| Push.PushSubscription.TakeAll | src/a2a_proof/push.py:89-116 | the loop itself, equal to the recursive description of a wait |
| Push.PushSubscription.ValidateIdentity | src/a2a_proof/push.py:123-130 | accepts exactly the notifications that name the bound task and context, and some task at all |
| Push.PushSubscription.Take | src/a2a_proof/push.py:106-116 | one delivery is checked, collected, and ends the wait if it is terminal |
| Push.PushSubscription.Close | src/a2a_proof/push.py:118-121 | an open subscription is removed from its receiver, a closed one is left alone |
| Push.PushReceiver.constructor | src/a2a_proof/push.py:141-166 | a started receiver has no subscriptions |
| Push.PushReceiver.Register | src/a2a_proof/push.py:176-188 | adds a subscription under the new path, or refuses when not running or full |
| Push.PushReceiver.Remove | src/a2a_proof/push.py:204-205 | removes a path, if it is there |
| Push.PushReceiver.Shutdown | src/a2a_proof/push.py:190-196 | forgets all subscriptions and stops |
| PushInvariant.ReachableValid | src/a2a_proof/push.py:46-58 | in every interleaving: bytes and fingerprints within limits, accepted deliveries are those consumed followed by those queued, with distinct events, and at most one sentinel |
| PushInvariant.OccupancyBound | src/a2a_proof/push.py:299-329 | the queue holds at most one element per fingerprint, and one more after a rejection |
| PushInvariant.RejectionIsFinal | src/a2a_proof/push.py:381-386 | the first rejection reason never changes |
| PushInvariant.CrashExactly | src/a2a_proof/push.py:323-328 | a handler meets a full queue if and only if the announced rejection was not taken, nothing was consumed and all but one event were accepted |
| PushInvariant.RoomUntilRejected | src/a2a_proof/push.py:323-328 | while nothing was rejected the queue always has room |
| PushInvariant.CrashAfterRejection | src/a2a_proof/push.py:323-328 | a run of one refused request and a thousand new events that crashes a handler |
| PushInvariant.AnsweredExactly | src/a2a_proof/push.py:299-329 | which bodies are answered with 400, 413 and 429 |
| PushInvariant.RejectedExactly | src/a2a_proof/push.py:299-329 | a body is a rejection if and only if it is answered with another status than 204 |
| PushSchedule.CleanExactly | src/a2a_proof/push.py:299-329 | a subscription is free of rejections if and only if all its bodies parsed, within the byte and event limits |
| PushSchedule.DrainIsFold | src/a2a_proof/push.py:89-116 | without a rejection, draining the queue is folding over its deliveries |
| PushSchedule.WaitIsFold | src/a2a_proof/push.py:81-116 | for every schedule without a rejection the wait returns the fold over the distinct deliveries in first-arrival order |
| PushSchedule.BindCommutes | src/a2a_proof/push.py:75-79 | deliveries that arrive before the subscription is bound are treated the same |
| PushSchedule.RetriesStayClean | src/a2a_proof/push.py:312-316 | within the byte budget a retry gives no reason for a rejection |
| PushSchedule.RetryChangesNothing | src/a2a_proof/push.py:315-316 | inserting a retry anywhere, under any other schedule, leaves the result of the wait |
| PushOutcome.FoldIsCollected | src/a2a_proof/push.py:106-116 | with matching identities the fold is the collector's result on the deliveries up to the first terminal one |
| PushOutcome.TerminalFinishes | src/a2a_proof/push.py:431-442 | after an accepted terminal event the collector always gives an outcome |
| PushOutcome.TerminalExactly | src/a2a_proof/push.py:431-442 | an accepted message, task or status is terminal if and only if the collector could finish after it |
| PushOutcome.WaitReturnsCollected | src/a2a_proof/push.py:81-116 | the whole wait is that collector result, the collector's event limit never fires, and a collected terminal delivery gives an outcome |
| PushOutcome.WaitTimes | src/a2a_proof/push.py:106-116 | the duration of a wait and the time of its first event are the nearest milliseconds from registration to the terminal and to the first delivery |
| PushOutcome.RejectedBefore | src/a2a_proof/push.py:90-91 | a wait that starts after a rejection fails with its reason |
| PushRejection.WokenAfterRejection | src/a2a_proof/push.py:89-108 | a waiter woken after a rejection succeeds if and only if the first queued element is a terminal delivery with the right identity that can be collected |
| PushRejection.RejectedWaitExactly | src/a2a_proof/push.py:81-116 | for every schedule in which a suspension is the first to bring a rejection, and whatever follows: the wait succeeds if and only if the clean deliveries before end it with an outcome, or they do not end it, no deadline passes, and the first element that suspension leaves in the queue is a delivery that ends it |
| PushRejection.RejectedAtStart | src/a2a_proof/push.py:90-91 | whatever is rejected before the wait fails it with the first reason |
| PushRejection.FirstUnclean | src/a2a_proof/push.py:299-329 | every schedule without a rejection at its start that has one later splits as the exact statement above needs |
| PushOutcome.RejectionRace | src/a2a_proof/push.py:89-108 | the same two deliveries fail or complete the wait, depending on when it started |
| Runner.ValidateShape | src/a2a_proof/models.py:820-842 | accepts a conversation if and only if it starts with input and push turns and awaiting turns come in adjacent pairs; names a violation otherwise |
| Runner.Assess | src/a2a_proof/runner.py:252-287 | the checks and invariants of a response, and what is reported of it: states, timings and all failures, and unless it is hidden its text, files and data, with every value an AP2 expectation points at hidden and every path apart from those as received |
| Runner.RegisterFor | src/a2a_proof/runner.py:362-367 | registers a subscription exactly for push turns, and says why it cannot |
| Runner.SendInput | src/a2a_proof/runner.py:368-395 | sends the input, binds a registered subscription to the returned task, and closes it on whatever is raised |
| Runner.ExecuteInput | src/a2a_proof/runner.py:352-395 | an input turn as a whole, with the subscription held afterwards |
| Runner.ExecuteAction | src/a2a_proof/runner.py:398-427 | an action needs a task; awaiting push needs a subscription, asks the world for the wait on its path and closes it |
| Runner.ExecuteTurn | src/a2a_proof/runner.py:316-349 | a turn is an action or an input |
| Runner.RunTurn | src/a2a_proof/runner.py:237-295 | one turn, its result, and the context and task kept for the next |
| Runner.RunTurns | src/a2a_proof/runner.py:235-303 | turns until one fails or raises |
| Runner.RunTrial | src/a2a_proof/runner.py:217-313 | a whole trial on the objects: result, receiver and world as the two-step description says, the held subscription closed at the end |
| Runner.TurnLoopEnds | src/a2a_proof/runner.py:235-313 | every trial ends |
| Requests.TurnAsks | src/a2a_proof/runner.py:352-427 | a turn ends its trial at once if and only if something it needs is missing, and otherwise asks for just itself, in the context and for the task of the trial |
| Requests.FirstRequest | src/a2a_proof/runner.py:229-231 | the first request is in the random context and names no task |
| Requests.NextRequest | src/a2a_proof/runner.py:290-295 | the next request is in the returned context and names the returned task if the response asks for input or authentication or the next turn is an action, and otherwise no task |
| Requests.GoesOnExactly | src/a2a_proof/runner.py:252-289 | a trial goes on to its next turn if and only if the operation returned, with a task where one was subscribed to, the check lists nothing and the invariants hold |
| Requests.PassedInFull | src/a2a_proof/runner.py:308-313 | a trial passes only with a passed result for every turn and without an error |
| Lifetimes.AtMostOne | src/a2a_proof/runner.py:233-305 | a trial of a validated conversation holds at most one subscription |
| Lifetimes.BeginConserves | src/a2a_proof/runner.py:352-379 | starting a turn keeps what a trial holds in line with its position, shows a target only in push turns, and touches no other subscription |
| Lifetimes.ResumeConserves | src/a2a_proof/runner.py:383-415 | whatever is returned or raised, the reply keeps the same |
| Lifetimes.LeavesReceiver | src/a2a_proof/runner.py:296-306 | a trial leaves the receiver's subscriptions as it found them, for every agent |
| Lifetimes.NeverWantsSubscription | src/a2a_proof/runner.py:363-415 | with a listening receiver that has room, no validated conversation fails for want of a receiver or subscription |
| Lifetimes.SecondPushLeaks | src/a2a_proof/runner.py:362-391 | without validation a second push turn leaves the first subscription registered and owned by no one |
| Lifetimes.ForgottenForGood | src/a2a_proof/runner.py:235-306 | a subscription owned by no one is still registered when the trial has ended, whatever its remaining turns do |
| PushTrial.ExecutePush | src/a2a_proof/runner.py:362-391 | with subscriptions in the world: a push turn that returns holds a new subscription that received what arrived meanwhile and is bound to the returned task |
| PushTrial.AwaitTurn | src/a2a_proof/runner.py:410-415 | what the wait on the held subscription gives becomes the response or the error of the awaiting turn, and the subscription is closed |
| PushTrial.PairCollects | src/a2a_proof/runner.py:352-415 | without a rejection and with matching identities, a push turn that succeeds and the turn that awaits it are judged on what the collector makes of the distinct deliveries up to the first terminal one, whether they came before or after the task was known, and the receiver is as before |
| Scheduler.Exchange | src/a2a_proof/runner.py:184-203 | a step of one trial exchanges its own paths for others and leaves those of all other trials |
| Scheduler.PoolSize | src/a2a_proof/runner.py:184-203 | there are at most as many new subscriptions as trials in flight |
| Scheduler.NextKeepsValid | src/a2a_proof/runner.py:184-203 | every step of every trial keeps the ownership invariant, and each trial in the state it reaches alone |
| Scheduler.ReachableValid | src/a2a_proof/runner.py:184-203 | so it holds after every schedule |
| Scheduler.ParallelTrials | src/a2a_proof/runner.py:184-203 | with at most 32 permits the receiver's limit of 100 never refuses a trial, each trial is in the state it reaches alone on what it was given, and at the end the receiver is as before |
| ParallelRuns.GivenTrialIsSequential | src/a2a_proof/runner.py:217-313 | for every world: a trial that is given the context, routes and replies that the world gives to a sequential trial ends as that trial, with the same result up to its duration |
| ParallelRuns.ParallelIsSequential | src/a2a_proof/runner.py:184-214 | whatever the schedule: when all trials of a scenario have ended, each has the result of a sequential trial on what it was given, up to its duration, and the number of passed trials and without a latency block the verdict are those of the sequential trials |
| Scenarios.EvaluateLatency | src/a2a_proof/runner.py:446-474 | percentiles of the durations of trials without an error against their maxima; failed when there is none |
| Scenarios.LatencyIgnoresOrder | src/a2a_proof/runner.py:446-474 | the latency result depends only on the multiset of durations |
| Scenarios.FasterPasses | src/a2a_proof/runner.py:446-474 | pointwise shorter durations never fail a check that longer ones passed |
| Scenarios.LatencyJudged | src/a2a_proof/runner.py:446-474 | a latency check passes if and only if some trial has no error and the percentiles of the durations of all those trials are at most a thousand times their maxima |
| Scenarios.RunTrials | src/a2a_proof/runner.py:160-182 | the sequential loop with early stop, on the objects |
| Scenarios.HopelessByCount | src/a2a_proof/runner.py:177-182 | the count of failures exceeds the tolerated ones if and only if no continuation can pass |
| Scenarios.EarlyStop | src/a2a_proof/runner.py:158-182 | the early-stopped run is a prefix of the full one with the same verdict, and ends at the first trial after which no continuation could pass |
| Scenarios.LatencyRunsAll | src/a2a_proof/runner.py:177-182 | with a latency block early stop has no effect |
| Scenarios.EnoughPassedMeetsRate | src/a2a_proof/runner.py:204-208 | for a full run passed_trials >= required_trials means that the pass rate was met |
| Scenarios.RunScenario | src/a2a_proof/runner.py:145-214 | the result of a scenario on the sequential path |
| Scenarios.RunSuite | src/a2a_proof/runner.py:92-142 | no scenario runs after a failed card check; the suite passes if the card and all scenarios do |
| Scenarios.SuiteLeavesReceiver | src/a2a_proof/runner.py:116-134 | a sequential suite leaves the receiver as it found it |
| TurnReports.TrialReports | src/a2a_proof/runner.py:273-287 | what holds of every report on a turn holds of all turns of a trial |
| TurnReports.AloneReports | src/a2a_proof/runner.py:273-287 | and of all turns of a trial that runs among others |
| TurnReports.ResultsAreReports | src/a2a_proof/runner.py:235-303 | the i-th turn of a trial is the report on the i-th outcome that was returned |
| TurnReports.ResponsesAreShown | src/a2a_proof/runner.py:252-287 | every result of a trial shows the states, timings and failures of its response, and unless it is hidden its data with every value an AP2 expectation points at hidden and every path apart from those as received |
| TurnReports.ForbiddenShownExactly | src/a2a_proof/runner.py:263-285 | for all turns of a trial: a text is replaced, with its data and files, exactly if it violates the invariants, and the reported text keeps the invariants if and only if the response or the marker does |
| TurnReports.MarkerCanViolate | src/a2a_proof/runner.py:270-283 | where "global" is forbidden, the marker shows it |
| Invariants.Evaluate | src/a2a_proof/assertions.py:121-138 | lists violated texts by number and leaked variables by name |
| Invariants.NoFailuresExactly | src/a2a_proof/assertions.py:121-138 | nothing is listed if and only if no forbidden text or secret occurs |
| Invariants.HoldsExactly | src/a2a_proof/assertions.py:121-138 | the rules hold if and only if no forbidden text or secret is shown anywhere in the text: in its own letter case with case sensitivity, in any without |
| Cassette.RoundTrip | src/a2a_proof/cassette.py:131-171 | an outcome that is written and read back is the same outcome |
| Cassette.FileRoundTrip | src/a2a_proof/cassette.py:145-146 | a file part keeps its digest |
| Cassette.DumpAloneLosesDigest | src/a2a_proof/models.py:1168-1173 | the dump of the model alone would lose it |
| Cassette.CollectedRoundTrip | src/a2a_proof/cassette.py:131-171 | every outcome the collector can build from parts with proper digests survives |
| Cassette.Recorder.Call | src/a2a_proof/cassette.py:32-38 | an operation is recorded when it returns and not when it raises: a call of the recording world, and the tape stays the dump of what the trace returned |
| Cassette.Tape.NextTurn | src/a2a_proof/cassette.py:55-62 | returns the next outcome, and raises without moving when there is none |
| Cassette.Tape.Replay | src/a2a_proof/cassette.py:49-53 | every operation of a replay is a call of the world of the tape |
| ReplayOrder.TapeAnswers | src/a2a_proof/cassette.py:55-62 | the tape answers the next call as recorded, and moves on as it was recorded, if nothing was returned after a raise |
| Replay.OneTurnMatches | src/a2a_proof/runner.py:237-295 | one turn keeps two runs in step that are answered alike, whatever the context ids are |
| Replay.TrialFollows | src/a2a_proof/runner.py:217-313 | a trial against a script that answers its calls as another run was answered makes the same calls, with the same turns and verdict |
| ReplayScripts.TrialGoesWell | src/a2a_proof/cassette.py:49-62 | where the tape answers the first calls of a recorded trial as recorded, and the trial makes just these against the tape or against its own calls, it does so against both, with the same result |
| Scenarios.LoopIsCut | src/a2a_proof/runner.py:160-182 | the trials of an early-stopped run are those of the full run, cut at the first that stops it |
| Scenarios.CutKeepsVerdict | src/a2a_proof/runner.py:177-208 | cutting trials where they stop a scenario keeps its verdict |
| ReplayOrder.InOrderAnswered | src/a2a_proof/cassette.py:55-62 | calls that repeat a recording that is in order for them are answered call by call as recorded |
| ReplayOrder.AnsweredInOrder | src/a2a_proof/cassette.py:55-62 | and a recording is in order for any calls that a tape answered as recorded |
| Revisions.BlocksAreTrace | src/a2a_proof/cassette.py:32-38 | the calls of a run by scenario and trial are the whole trace of what was recorded |
| Revisions.ResultsAreSuite | src/a2a_proof/runner.py:116-134 | and its results are those of the sequential suite, with or without early stop |
| ReplayExact.SuiteGoesWell | src/a2a_proof/cli.py:566-586 | if the recording is in order for the calls a replay makes, or for those it should make, it makes just these, answered as recorded, and has the results it should have |
| ReplayTheorem.ReplayExactly | src/a2a_proof/cli.py:566-611 | for every recording and every replay of a possibly changed contract, restricted or not, stopped early or not: every call was recorded and is answered with what was recorded for it if and only if the recording is in order for the calls that each trial makes against its own recorded calls |
| ReplayTheorem.ReplayReproduces | src/a2a_proof/cli.py:566-611 | then the replay reports every scenario as against the recorded calls of its own trials, but for durations, with the card verdict of the replayed contract; and if every recorded call is made the tape is read to its end |
| Selections.OwnIsCut | src/a2a_proof/runner.py:160-182 | a recorded scenario against its own calls is the recorded one, cut where early stop ends it, call by call |
| Selections.SelectionExactly | src/a2a_proof/cli.py:600-672 | for any selection of the scenarios of an unchanged contract, with or without early stop: answered as recorded if and only if the recording is in order for the trials that its own verdicts leave of the selected scenarios |
| Selections.SelectionReproduces | src/a2a_proof/cli.py:600-672 | then every selected scenario has the recorded trials up to where it stops, turn by turn, and without latency checks the recorded verdict |
| ReplayConditions.InOrderPointwise | src/a2a_proof/cassette.py:55-62 | in order means: every replayed call was recorded, no outcome is left out before a replayed trial, and nothing was returned after a replayed call that raised |
| ReplayConditions.WithoutRaises | src/a2a_proof/cassette.py:55-62 | where nothing raised: in order if and only if all trials before a replayed one are replayed in full |
| ReplayConditions.RaisesLastInOrder | src/a2a_proof/cassette.py:55-62 | where raises come last: in order if and only if every replayed call was recorded and no outcome is left out before a replayed trial |
| ReplayConditions.AllReplayed | src/a2a_proof/cassette.py:55-62 | where everything is replayed: in order if and only if nothing was returned after something was raised |
| ReplayConditions.WithoutEarlyStop | src/a2a_proof/cassette.py:32-62 | the whole unchanged contract without early stop is answered as recorded if and only if nothing was returned after something was raised |
| ReplayWitnesses.RaiseFirstDiverges | src/a2a_proof/cassette.py:32-62 | a raise in the first of two trials moves to the second in the replay |
| ReplayWitnesses.EarlyReplayDiverges | src/a2a_proof/cli.py:566-586 | nothing raises, the first scenario fails its first trial: an early-stopped replay fails a second scenario that passed |
| ReplayWitnesses.SelectionDiverges | src/a2a_proof/cli.py:600-672 | nothing raises or stops early: a replay of the second of two scenarios alone judges it on the outcome of the first |
| ReplayWitnesses.RevisionDiverges | src/a2a_proof/cli.py:566-586 | nothing raises: a changed expectation that fails the first of two turns makes the replay fail an unchanged scenario that passed |
| Replay.TapeRoundTrip | src/a2a_proof/cassette.py:65-119 | the written tape reads back as the recorded one |
| Report.RenderScenario | src/a2a_proof/reporting.py:260-306 | a case for every trial, skipped when tolerated, and one for the latency check |
| Report.CaseExactly | src/a2a_proof/reporting.py:260-306 | the case of a trial is silent if and only if it passed, skipped if the scenario had enough without it, and else an error or a failure |
| Report.RenderJunit | src/a2a_proof/reporting.py:215-309 | the cases as emitted; for every result a run can give, each attribute is the number of its elements, and there is no failure or error exactly if the suite passed |
| Report.CountsAgree | src/a2a_proof/reporting.py:229-248 | tests, failures, errors and skipped are the numbers of emitted elements |
| Report.ReportIsVerdict | src/a2a_proof/reporting.py:215-309 | no failure and no error is reported if and only if the suite passed |
| Report.RunsAreReported | src/a2a_proof/runner.py:135-142 | every result of a sequential run meets the premises of the two rows above |
| Report.ParallelConsistent | src/a2a_proof/runner.py:184-214 | and so does every scenario result of the parallel path |
| Report.ParallelSuiteConsistent | src/a2a_proof/runner.py:116-142 | and every result of a suite whose scenarios ran in parallel, one after the other |
| Statistics.BoundReaches | src/a2a_proof/models.py:1245-1249 | for 0 < m < 1 the Wilson bound reaches m if and only if k >= nm and (k - nm)^2 >= z^2 n m (1 - m) |
| Statistics.BoundMonotone | src/a2a_proof/models.py:1245-1249 | the bound never falls with another success |
| Statistics.BoundAtMostRate | src/a2a_proof/models.py:1245-1249 | the bound lies between 0 and the observed rate |
| Statistics.FullBound | src/a2a_proof/models.py:1245-1249 | with n of n successes the bound is n / (n + z^2) |
| Statistics.ProvableMonotone | src/a2a_proof/models.py:1252-1256 | what n trials can prove, more trials can prove |
| Statistics.EnoughIsProvable | src/a2a_proof/models.py:1252-1256 | a number of trials that suffices, so the search ends |
| Statistics.MinimumProvableTrials | src/a2a_proof/models.py:1252-1256 | terminates with the least number of trials that can prove the rate |
| Statistics.RequiredIsThreshold | src/a2a_proof/models.py:849-858 | passed >= required_trials if and only if the rate, or the bound on it, reaches the minimum |
| Statistics.AcceptedIsTotal | src/a2a_proof/models.py:1070-1086 | a contract is accepted if and only if required_trials exists, and then it is between one and the trials |
| Statistics.AcceptedFromLeast | src/a2a_proof/models.py:1070-1086 | a statistical scenario is accepted if and only if it has at least the least provable number of trials |
| Latency.Percentile | src/a2a_proof/runner.py:477-485 | between two ranks the nearest integer, the even one of two, to the point on the line between their samples; on a rank its sample |
| Latency.QuantileIsPercentile | src/a2a_proof/runner.py:477-485 | for every ascending order of the samples: between two ranks the nearest integer to the point on the line between their samples, on a rank its sample |
| Latency.QuantileOfPermutation | src/a2a_proof/runner.py:477-485 | depends only on the multiset of durations |
| Latency.QuantileInRange | src/a2a_proof/runner.py:477-485 | lies between the least and the greatest duration |
| Latency.QuantileMonotoneInP | src/a2a_proof/runner.py:457-458 | a higher percentile is never lower, so p50 <= p95 |
| Latency.QuantileMonotoneInSamples | src/a2a_proof/runner.py:477-485 | longer durations never lower a percentile |
| Pointer.TwoPassesDecode | src/a2a_proof/assertions.py:475 | replacing ~1 and then ~0 decodes every paired string from left to right |
| Pointer.PrintIsValid | src/a2a_proof/models.py:318-323 | what is printed is accepted by the validator |
| Pointer.ParsePrint | src/a2a_proof/ap2.py:903-905 | parsing what was printed gives the tokens back |
| Pointer.PrintParse | src/a2a_proof/ap2.py:903-905 | printing what was parsed gives an accepted pointer back |
| Pointer.PrintParseExactly | src/a2a_proof/models.py:318-323 | and the accepted pointers are exactly those it gives back |
| Pointer.Resolve | src/a2a_proof/assertions.py:472-489 | the loop over the pieces finds what following the parsed tokens finds: for printed tokens exactly the value they lead to, by numerals in arrays and by names in objects |
| Pointer.ElementSelected | src/a2a_proof/assertions.py:481-487 | the numeral i selects the i-th element of an array |
| Pointer.NoOtherElement | src/a2a_proof/assertions.py:481-489 | and any other token none |
| Pointer.MemberSelected | src/a2a_proof/assertions.py:476-480 | a name selects the member of that name |
| Pointer.NoOtherMember | src/a2a_proof/assertions.py:476-480 | and none where there is none of that name |
| Pointer.GetLeads | src/a2a_proof/ap2.py:884-900 | a list of tokens leads to exactly the value that its elements and members lead to one by one |
| Pointer.EscapesOfRfc | src/a2a_proof/assertions.py:475 | ~0 is a tilde, ~1 a slash, and ~01 stands for ~1 |
| Pointer.ChildrenDiffer | src/a2a_proof/assertions.py:481-487 | different tokens never lead to the same child; canonical numerals name one index each |
| Redaction.ReplaceThenGet | src/a2a_proof/ap2.py:908-928 | a replacement reports whether the path resolved, and then the path leads to it |
| Redaction.ReplaceElsewhere | src/a2a_proof/ap2.py:908-928 | paths apart from the replaced one lead where they led before |
| Redaction.ReplaceCommutes | src/a2a_proof/ap2.py:908-928 | replacements at two different paths of which none extends the other can be exchanged, and so can nested ones |
| Redaction.RedactAp2 | src/a2a_proof/ap2.py:328-350 | of every part only the value changes: at the path of each matching expectation there is a marker or nothing, and every path apart from those reads as before |
| Redaction.RedactionHides | src/a2a_proof/ap2.py:328-350 | at the path of every matching expectation there is a marker or nothing |
| Redaction.RedactionPreserves | src/a2a_proof/ap2.py:328-350 | a pointer that is neither prefix nor extension of a redacted one resolves as before |
| Redaction.OrderIrrelevant | src/a2a_proof/ap2.py:336-348 | with distinct decoded paths the order of expectations does not matter |
| Redaction.SamePathLastWins | src/a2a_proof/ap2.py:336-348 | at the same path the last expectation decides the marker |
| Redaction.ImpliedPaths | src/a2a_proof/models.py:439-444 | a mandate without a path is expected in the member named after its type |
| Redaction.OwnPaths | src/a2a_proof/ap2.py:339-343 | a path of its own leads where its printed tokens lead |
| Redaction.AppliesExactly | src/a2a_proof/ap2.py:856-867 | an absent filter admits every part; a media type is compared in any letter case |
| Redaction.MarkerShown | src/a2a_proof/ap2.py:336-348 | where a value was, the marker of the kind of its token is shown, if the paths of all other matching expectations are apart |
| Schema.PushChildren | src/a2a_proof/models.py:1311-1321 | pushes the children one level deeper and stops at a reference that is not local |
| Schema.Visit | src/a2a_proof/models.py:1308-1321 | one step of the traversal keeps what the rest of it has to decide |
| Schema.WalkSchema | src/a2a_proof/models.py:1306-1321 | the stack traversal ends and accepts if and only if the recursive definition does |
| Schema.ValidateLimits | src/a2a_proof/models.py:1297-1321 | a schema is accepted if and only if its compact text has at most 100,000 octets, no path into it has more than 50 steps, and none leads to a reference that does not start with a number sign |
| Schema.DepthByPaths | src/a2a_proof/models.py:1306-1321 | the recursive depth limit holds if and only if no path into the schema has more steps |
| Schema.ReferencesByPaths | src/a2a_proof/models.py:1311-1321 | references are local by recursion if and only if they are at the end of every path |
| Trajectory.CollapseAppend | src/a2a_proof/protocol.py:219-222 | recording one more state is merging it into the collapsed sequence |
| Trajectory.CollapseFixedPoints | src/a2a_proof/protocol.py:219-222 | a sequence is its own collapse if and only if it has no adjacent repeats |
| Trajectory.InOrderIffEmbedding | src/a2a_proof/assertions.py:248-251 | the check succeeds if and only if a strictly increasing embedding exists |
| Trajectory.ContainsInOrder | src/a2a_proof/assertions.py:248-251 | the loop over the shared iterator decides it |
| Trajectory.EvaluateStates | src/a2a_proof/assertions.py:238-252 | the whole state check, on normalized states |
| Trajectory.SameNameExactly | src/a2a_proof/assertions.py:234-235 | two names without blanks around them are compared as equal if and only if they differ in nothing but the case of letters and in dashes, blanks and underscores |
| Trajectory.OuterBlanksIgnored | src/a2a_proof/assertions.py:234-235 | blanks around a name make no difference |
| Trajectory.CollapseKeepsOrder | src/a2a_proof/assertions.py:248-251 | without adjacent repeats in the expected list the collapsed trajectory answers like the raw one |
| Trajectory.RecordedAnswersAlike | src/a2a_proof/assertions.py:248-251 | for sequences of the states that can be reported at all, the collapsed trajectory answers alike if and only if the expected list has no adjacent repeats or names a state that is never reported |
| Evidence.Redact | src/a2a_proof/evidence.py:116-119 | the text is overwritten secret by secret |
| Evidence.NoSecretRemains | src/a2a_proof/evidence.py:115-119 | no seamless secret occurs after all passes, whatever the other secrets are |
| Evidence.OrdinarySecretsSeamless | src/a2a_proof/evidence.py:108-119 | a secret without brackets that is not part of REDACTED is seamless |
| Evidence.RemovalExactly | src/a2a_proof/evidence.py:108-119 | secrets without brackets are always removed if and only if none is part of REDACTED |
| Evidence.BracketSecretSurvives | src/a2a_proof/evidence.py:108-119 | a secret with a bracket that occurs after its own removal |
| SingleSecret.RemovedExactly | src/a2a_proof/evidence.py:108-119 | for every non-empty secret on its own: it never occurs after its pass, in any text, if and only if it clashes with every tail of the marker and no marker completes it |
| SecretLists.RemovedAmongAnyExactly | src/a2a_proof/evidence.py:108-119 | for every secret that avoids some character: after all passes it never occurs in any text, whatever the other secrets, if and only if it is seamless |
| SecretLists.RemovableNotAmongAny | src/a2a_proof/evidence.py:108-119 | "[[" is always removed by its own pass but not where "b" is removed as well |
| SingleSecret.TailSurvives | src/a2a_proof/evidence.py:108-119 | a secret that agrees with a tail of the marker occurs in its own pass over itself followed by its rest |
| SingleSecret.CompletedSurvives | src/a2a_proof/evidence.py:108-119 | a secret that a marker completes occurs in its own pass over a text built from it |
| SingleSecret.SeamlessIsRemovable | src/a2a_proof/evidence.py:108-119 | seamless secrets are among those that are removed |
| Evidence.RecordsAreFree | src/a2a_proof/evidence.py:115-124 | no text or key anywhere in a redacted record contains a seamless secret |
| Records.FirstMatchReplaced | src/a2a_proof/evidence.py:116-119 | a pass replaces the first match by the marker, keeps what is before it, and goes on behind it |
| Records.ShapeKept | src/a2a_proof/evidence.py:115-124 | redaction keeps the shape of a record: lists item by item, objects by their distinct redacted keys in order, each with the value of the last member redacted to it |
| Records.CleanUnchanged | src/a2a_proof/evidence.py:115-124 | a record without a secret is kept as it is |
| Evidence.BoundedPrefixSound | src/a2a_proof/evidence.py:204-209 | the result is a prefix, at most nine characters over the limit, and never ends inside a marker |
| Evidence.TruncationKeepsFree | src/a2a_proof/evidence.py:204-209 | cutting a redacted text does not bring a secret back |
| Evidence.ShorterThanLimit | src/a2a_proof/evidence.py:204-209 | exactly when the result is shorter than the limit |
| Truncations.TruncatedShows | src/a2a_proof/evidence.py:181-184 | a truncated text shows a seamless secret if and only if the mark holds it, or the end of what was kept and the start of the mark make it up |
| Truncations.NeverShownExactly | src/a2a_proof/evidence.py:181-184 | no text truncated at the limit ever shows a seamless secret, whatever the other secrets, if and only if the mark neither holds it nor completes one of its first characters, as many as the limit allows |
| Truncations.EllipsisSecretShown | src/a2a_proof/evidence.py:181-184 | the seamless secret "a…" is shown by some truncated text |
| Names.CandidatesDistinct | src/a2a_proof/cli.py:657-658 | different suffixes give different candidates even after truncation |
| Names.TakenBound | src/a2a_proof/cli.py:656-659 | by pigeonhole not all candidates can be taken |
| Names.UniqueName | src/a2a_proof/cli.py:653-661 | terminates with an unused name of at most 200 characters, the first free candidate |
| Names.CandidateExactly | src/a2a_proof/cli.py:657-658 | a candidate is the base, cut as far as the length requires, with a blank and the number behind it |
| Names.MessageExactly | src/a2a_proof/cli.py:637-642 | a skill is used for its first example alone, without blanks around it, if that is neither empty nor too long |
| Names.BaseNameExactly | src/a2a_proof/cli.py:643-644 | a scenario is named after the name of its skill, or after its id if it has no name, cut to 200 characters |
| Names.ScenariosFromCard | src/a2a_proof/cli.py:634-650 | the generated scenarios have distinct names within bounds and the first messages of the card, at most twenty, each named after the skill its message is from |
| Names.AcceptableMeansUnique | src/a2a_proof/models.py:1050-1062 | such a list passes the uniqueness validator |
| Decimal.NumeralOfValue | src/a2a_proof/assertions.py:481-484 | canonical numerals and numbers correspond one to one |

## Left out

- Text outside ASCII: case folding, blanks, digits and Unicode normalisation are those of ASCII; `Evidence` leaves the
  folding of single characters open, and foldings that change the length of a text are not covered.
- Floating point: statistics, percentiles and timestamps are real numbers; `z` is a parameter and the square root any
  function that gives a non-negative root. The rounded bound in reports is not modelled.
- SHA-256 and protobuf serialisation: the fingerprint of a delivery is its event.
- Random routes: `token_urlsafe` is given by the world, and results that need it assume a route not in use.
- Parsing of requests: whether a body parses and what a request is refused for are given with the arrival, so
  authentication, header and path checks and HTTP itself are not part of the model.
- Texts of parts: the text of a message or artifact is given with it, and unknown task states do not occur.
- Expectations on responses are one function per turn that lists failures or raises; JSON Schema, regular expressions,
  AP2 verification, delegation and `_json_equal` are not part of the model, and so are the texts of most failures.
- Runner.ExecuteAction: the result of awaiting push notifications comes from the world like every other reply; the
  world of `PushTrial` gives that of `Push.PushSubscription.Wait`, with subscriptions as values.
- Scheduler.ParallelTrials: trials are described by their steps, not by objects, and permits may be taken in any order.
- ParallelRuns.ParallelIsSequential: the durations of parallel trials are given, so a verdict that depends on them through
  a latency block is not compared.
- Cassette.RoundTrip: JSON text, unknown members, the card and the size limit of the file are not modelled; a cassette
  over 50 million bytes can be written but not read.
- ReplayTheorem.ReplayExactly: both contracts list their common scenarios in the same order; a scenario that a change
  moves elsewhere counts as one that is left out and one that is added, so nothing is recorded for it.
- Report.RenderJunit: names and kinds of cases are modelled, not times, messages and XML.
- Evidence: the limits on data and files of a record and the timeout of a pattern.
- Agent Card discovery and checks, command line, configuration files, diffs, terminal output and files on disk.
