# Payment intermediation: a verified model

This project models a backend that accepts payments, hands them to one of two
external payment processors, and keeps an audit of what was charged where. It
covers the durable store, the outbox dispatcher, the work stream, the worker
pool, replicated processor availability with its elected health poller, the
processors' own books, and the money conversions at the edges.

## How it is put together

- `Domain`, `Tables`: the values, the three tables, and the effect of each SQL
  statement as a function of table contents and transaction timestamp.
- `Store`: the store class. Each method has the shape of its statement (common
  table expressions, guards, row loop) and is proved against `Tables` and
  `Summaries`.
- `Routing`, `AvailabilityService`: the versioned cache and the service class
  that commits, applies and broadcasts.
- `Replication`: availability as a state machine with a history of every row
  ever committed. `Convergence`, `Recovery` and `Leadership` hold its invariants.
- `System`: the whole protocol as one labelled state machine, with any number
  of instances, dispatchers, workers and clients. A label fixes everything the
  environment decides about one atomic step: a failed call may or may not have
  been applied, a publication may or may not have been stored, a submission may
  be recorded at any later time, messages are delivered in any order and any
  number of times until acknowledged, and any agent may stop at any point.
- `Invariants`, `Preservation`: one inductive invariant over store rows, stream
  contents, agents in flight, both processors' books and every cache.
- `Safety`, `Leases`, `RowLeases`, `Answers`, `Assessments`, `Refinement`, `Audit`,
  `Drain`: the theorems about all runs from a fresh system. `Sharpness` and `Faults`
  show that bounds and assumptions are needed and that faults do occur.
- `Programs`: the worker, dispatcher and election loops as imperative code. Each
  call is one labelled step of `System`, recorded with its place in the run. Before
  every turn, between any two statements of a loop, and between the commit, the
  local apply and the broadcast of one availability update, all other agents may
  take any number of steps, so every theorem about runs applies to the loops.
- `Money`: both decimal printers and the rounding of an incoming amount.

Assumptions about the surroundings, each visible in the model: a statement is
atomic; a processor answers 200 or 422 only for a payment it has recorded
(`contract.md:107`); a publication that is acknowledged without being stored has
an id that was stored before; owner strings are never reused. A clock that never
goes back is assumed only by the theorems that say so (`Monotone`).

Two promises turn out to hold only under a condition, which is proved exact.
Counters bumped only by a caller that was told `true` agree with the summary if
and only if no step of the run completed a payment and lost its reply
(`Audit.CountersAgreeWithScan`), and under every configuration some run does
(`Sharpness.CountersCanFallShort`). The two
printers agree on every int64 except the minimum, for which the processor-side
printer emits text that is not a JSON number (`Money.PrintersAgree`).

## Model

| member | source | states |
|---|---|---|
| Safety.ChargedAtOneProcessor | internal/processing/workers.go:118-126 | In every run no correlation ID is ever submitted to or recorded by both processors; everything sent went to the payment's permanent assignment with its stored amount and time, stale workers and late recordings included |
| Audit.AuditConservation | internal/database/postgres.go:241-285 | In every reachable state, for each processor and window, the processor's book equals the summary plus exactly the in-doubt payments, and equals the summary if and only if nothing in the window is in doubt |
| Audit.CountersAgreeWithScan | internal/database/postgres.go:206-222 | Counting applied completions one by one gives the grouped scan for every window; counters bumped only by told callers fall short by exactly the untold completions, and agree if and only if no step of the run completed a payment in the window and lost its reply |
| Audit.SummariesNeverDecrease | internal/database/postgres.go:206-285 | No continuation of any run lowers the count or the cents of any window |
| Audit.BookIsSummaryPlusDoubt | internal/database/postgres.go:245-256 | A processor's recorded payments split into its completed ones and its in-doubt ones, with equal amounts |
| Audit.LogIsSummary | internal/database/postgres.go:206-222 | The tally of a duplicate-free completion log is the scan of the table |
| Drain.Drainable | internal/processing/workers.go:66-160 | From every reachable state some finite continuation, with a clock that never goes back, completes every payment, empties the stream and dispatches every row, whether the only status heard is 200 or the only status heard is 422 |
| Drain.RecordedCanBeCompleted | contract.md:99-107 | A payment its processor has recorded can be completed there by a continuation in which every answer heard is 422 |
| Drain.Draining | internal/processing/workers.go:66-160 | The schedule behind it, built for any state that satisfies the invariant |
| Drain.DispatchAll | internal/outbox/dispatcher.go:59-99 | Repeated dispatcher turns reach a state with no undispatched row |
| Drain.ProcessAll | internal/processing/workers.go:66-160 | Repeated worker turns reach a state with an empty stream, leaving the outbox alone |
| Drain.GettingReady | internal/availability/election.go:36-80 | From any state, waiting, a new instance, a healthy poll and fresh agents reach a state where every lease has expired and payments can be routed, with both tables and the stream untouched |
| Answers.AnswerDecides | internal/processor/default.go:72-87 | In every run a worker's next step after an answer is the completion exactly for 200 and 422, the failure report exactly for an expired deadline and 500 to 599, and the release otherwise |
| Answers.CompletionWasConfirmed | internal/processing/workers.go:126-142 | No run completes a payment unless some worker was told 200 or 422 about it before |
| Assessments.RowIsLastWrite | internal/database/postgres.go:328-362 | Read off the steps of any run: a processor's row has the verdict of the last failure or counted observation, as many versions as there were of those, and the time of the last failure; only a healthy observation that started no later than that is not counted |
| Assessments.UnhealthyIsRecorded | internal/database/postgres.go:344-353 | In every reachable state an unhealthy observation takes the processor out of routing with a new version |
| RowLeases.RowLeaseExcludes | internal/database/postgres.go:72-90 | With a clock that never goes back, two claims of one outbox row are at least the expiry time apart unless the first claimer handed it back, whether it stopped or never heard the reply |
| RowLeases.RowLeaseIsExact | internal/database/postgres.go:78-87 | A claimed row that is left alone can be claimed by an idle dispatcher if and only if the expiry time has passed |
| RowLeases.HandingBackFreesAtOnce | internal/database/postgres.go:100-110 | After its owner hands it back any idle dispatcher can claim the row at once; handing back another's row changes no row |
| Safety.NoLostWork | internal/outbox/dispatcher.go:79-97 | Every payment that is not completed has a row still to be dispatched or a message in the stream; whatever was ever stored is still there or completed; only stored payments are marked dispatched |
| Safety.PaymentFactsArePermanent | internal/database/postgres.go:133-151 | Amount, acceptance time, assignment, completion and dispatch survive every continuation of every run |
| Safety.RowsWellFormed | init.sql:1-29 | In every reachable state lease columns are set exactly while processing or dispatching, processing implies assigned, completed implies processed by the assignment, and the two tables have the same keys |
| Safety.RepeatedAcceptChangesNothing | contract.md:37-37 | Accepting a known correlation ID again, with any amount, leaves the entire system state unchanged, in every reachable state |
| Safety.FirstAcceptanceWins | contract.md:36-37 | The first acceptance of a positive amount fixes amount and time in every later state of the run, and any further acceptance changes nothing |
| Safety.RoutingWasJustified | internal/processing/workers.go:90-95 | For every assignment there are a step at which a worker read its own instance's cache and that worker's next step, the claim that made the assignment; in the cache read, the processor's entry was a row committed by then and available, and Fallback was assigned only when that same cache did not know Default available |
| Safety.SelectionWasRead | internal/availability/availability.go:65-78 | A worker about to claim read the cache it selected from off its own instance, at an earlier step after which it took no other |
| Safety.AssignmentLasts | internal/database/postgres.go:136-136 | The assignment a claim makes is the selection of the claiming worker's cache, and it is the one in force at the end of every run |
| Safety.CachesHoldCommittedRows | internal/availability/availability.go:50-60 | Versions strictly increase along the history, every cache entry is the row committed under its version, and none is newer than the table |
| Safety.SubscribeBeforeHydrate | internal/app/run.go:53-62 | Under any interleaving, an instance for which nothing was lost or skipped holds exactly the table once nothing is in flight |
| Safety.ReliableRunHasNoGap | internal/app/run.go:53-62 | Along such a run the current row is always cached or still on its way |
| Safety.PassiveFailureDominates | internal/database/postgres.go:328-362 | An available row was last written by a healthy poll that started strictly after the row's failure time, and, with a clock that never goes back, after every passive failure ever committed |
| Safety.StaleLeaderIsBounded | internal/availability/election.go:71-105 | At most one instance leads under a live session; a leader whose ended session already got its one late observation is about to make the liveness check that makes it give up |
| Safety.OneStaleRecord | internal/availability/election.go:82-126 | No run has two steps that record an observation under one session after that session ended |
| Safety.Reached | internal/processing/workers.go:66-160 | The invariant over all tables, agents, books and caches holds after every run |
| Leases.LeaseExclusion | internal/database/postgres.go:133-148 | With a clock that never goes back, at most one worker holds an unexpired, unreleased lease on a payment, and the row names it |
| Leases.SupersededWorkerIsFenced | internal/database/postgres.go:189-223 | After another worker's claim is granted, every step of the superseded worker leaves that row unchanged until it claims this payment again, whatever other payments it claims meanwhile, for any length of run and any clock |
| Leases.FenceHoldsForGood | internal/database/postgres.go:194-197 | A worker that does not own a row and does not claim that payment again never touches it |
| Leases.ReleaseFreesAtOnce | internal/database/postgres.go:186-202 | After a release by the owner the very next claim is granted at any time, to anyone and with any selection, with the same assignment, amount and time; a release by anyone else changes no row |
| Leases.LateReleaseIsSafeExactly | internal/database/postgres.go:189-201 | A release applied only after its failure was reported keeps the leases on record if and only if its worker holds no unexpired lease on that payment by then |
| Leases.CompletedAtMostOnce | internal/database/postgres.go:206-222 | No run completes a payment twice |
| Leases.SubmissionExclusion | internal/config/config.go:56-63 | If claim-to-submission delay plus processor timeout is at most the claim expiry, two workers never have submissions of one payment open together |
| Sharpness.SubmissionExclusionIsExact | internal/config/config.go:56-63 | That bound is necessary too: overlap is impossible if and only if it holds |
| Sharpness.OverlapExists | internal/processing/workers.go:95-126 | When the bound fails, a legal prompt run from a fresh system opens two submissions of one payment |
| Sharpness.CountersCanFallShort | internal/database/postgres.go:206-222 | Under every configuration some legal run makes told-only counters disagree with the summary |
| Faults.StoppedForGood | internal/processing/workers.go:57-63 | Once an agent is stopped, alone or with its instance, no later step of any run is taken under its owner string |
| Faults.EndedSessionNeverPasses | internal/database/postgres.go:407-413 | Once a session ended, the next liveness check under it makes its leader give up |
| Faults.LostUpdateIsMissed | internal/messaging/nats.go:20-22 | Under every configuration one lost update leaves a hydrated, quiet cache different from the table |
| Faults.UpdatesMayRepeat | internal/messaging/nats.go:42-58 | Under every configuration some run delivers one update to one instance twice |
| Refinement.SystemRefinesPaymentMachine | internal/database/postgres.go:116-223 | Along every run each payment passes through Absent, Accepted, Assigned, Completed in that order, each at most once, values unchanged, completed only where the processor's book holds it |
| Refinement.RunRefines | internal/database/postgres.go:116-223 | The stutter-free trace of any run from any invariant state is a run of the per-payment machine |
| Refinement.StepRefines | internal/database/postgres.go:116-223 | Each concrete step is one abstract step for at most one payment and a stutter for all others |
| Preservation.InvHolds | internal/processing/workers.go:66-160 | Every step keeps the invariant and undoes no permanent fact |
| Preservation.RunKeepsInv | internal/processing/workers.go:66-160 | So does every run |
| Preservation.PublishKeepsStream | internal/messaging/nats.go:136-144 | Storing, de-duplicating or failing a publication keeps "ever stored implies present or completed" |
| Preservation.AckKeepsStream | internal/processing/workers.go:104-106 | Removing an acknowledged message keeps it too, because only completed payments are acknowledged |
| Preservation.SubmitKeepsBook | internal/processing/workers.go:118-126 | A submission by any holder of a claim, current or stale, keeps each book to its own payments |
| Preservation.CompleteKeepsLog | internal/database/postgres.go:206-222 | A completion is logged once and never again |
| Preservation.ClaimKeepsRoutes | internal/database/postgres.go:133-151 | A first assignment takes the claiming worker's selection and is kept with the cache it read; every earlier assignment and its cache stay |
| Leases.LeasesKept | internal/database/postgres.go:140-148 | Every step, by anyone, keeps each unexpired lease on record |
| Tables.ClaimAnswersExactly | internal/database/postgres.go:133-161 | Exactly when each of the four claim answers is given, for a consistent row; a lease can be taken over from its expiry time on |
| Tables.AcceptKeeps | internal/database/postgres.go:52-60 | Accepting keeps both tables consistent and undoes nothing |
| Tables.ClaimKeeps | internal/database/postgres.go:133-151 | So does claiming; a prior assignment is never replaced |
| Tables.ReleaseKeeps | internal/database/postgres.go:189-197 | So does releasing a claim; the assignment stays |
| Tables.CompleteKeeps | internal/database/postgres.go:206-218 | So does completing; a completed row never changes again |
| Tables.OutboxStatementsKeep | internal/database/postgres.go:72-110 | So do the outbox statements; a dispatched row never changes again |
| Tables.AcceptIsIdempotent | internal/database/postgres.go:43-60 | A second acceptance of a stored id changes neither table, and acceptances of different payments commute |
| Summaries.WindowsAddUp | internal/database/postgres.go:250-252 | A two-bounded window is the sum of two disjoint windows that cover it |
| Summaries.SummaryMeans | internal/database/postgres.go:244-256 | With a bound missing a total is that of everything the processor completed; with both it is that of exactly what was accepted between them, both included |
| Summaries.TotalUnion | internal/database/postgres.go:245-256 | Count and sum of disjoint sets of payments add up |
| Stores.Store.constructor | init.sql:1-40 | A new store has three empty tables |
| Stores.Store.Accept | internal/database/postgres.go:43-68 | A positive amount is accepted, known or not; a new payment is stored pending and unassigned with its waiting outbox row, both or neither; nothing else changes |
| Stores.Store.ClaimOutbox | internal/database/postgres.go:70-98 | Claims the least unlocked dispatchable row for exactly the expiry from now on, and changes only it; returns nothing exactly when there is none |
| Stores.Store.ReleaseOutbox | internal/database/postgres.go:100-110 | The owner's row waits again with no claim on it; for anyone else nothing changes |
| Stores.Store.MarkOutboxDispatched | internal/database/postgres.go:225-239 | True exactly for the current owner; then the row is terminal and dispatched at the statement's time |
| Stores.Store.ClaimPayment | internal/database/postgres.go:112-184 | The statement's guarded update and classification: the lease runs for exactly the expiry from now on, an expired one can be taken over, the assignment is written once, and the four answers are those of the row |
| Stores.Store.ReleasePayment | internal/database/postgres.go:186-202 | True exactly for the current owner; then the payment is pending with no claim on it and everything else about it unchanged; otherwise nothing changes |
| Stores.Store.CompletePayment | internal/database/postgres.go:204-223 | True exactly for the current owner and the assigned processor; then the row is terminal with that processor, this instance and the statement's time; expiry is not checked |
| Stores.Store.GroupCompleted | internal/database/postgres.go:245-256 | One group per processor with completions in the window, each with its exact total |
| Stores.Store.TotalCompleted | internal/database/postgres.go:245-256 | A scan in any order gives count and cents of everything the processor completed, filtered by acceptance time only when both bounds are given |
| Stores.Store.PaymentSummary | internal/database/postgres.go:241-285 | Accumulating the groups in any order gives both processors' exact totals, zero for an absent group, unfiltered if a bound is missing and with both bounds inclusive otherwise; it fails exactly when a sum does not fit an int64 |
| Stores.Store.ReadProcessorAvailability | internal/database/postgres.go:287-315 | Every stored row exactly once |
| Stores.Store.RecordPassiveFailure | internal/database/postgres.go:328-339 | The row becomes unavailable, one version newer, with the new failure time |
| Stores.Store.RecordPollObservation | internal/database/postgres.go:341-362 | Rejected if and only if it is healthy and a row exists whose failure time is at or after the start; any other one is stored as observed, one version newer, with the failure time unchanged and the other processor's row untouched |
| Routing.SelectFrom | internal/availability/availability.go:62-78 | Only known available processors; Fallback only when Default is not known available; none exactly when neither is |
| Routing.ApplyAllIsNewest | internal/availability/availability.go:49-60 | After any deliveries, in any order and repeated, the cache holds a maximum-version candidate for each processor heard of and nothing else |
| Routing.ApplyNeverRegresses | internal/availability/availability.go:49-60 | No delivery takes a processor back to an older version |
| Routing.ReplicasConverge | internal/availability/availability.go:49-60 | Replicas that saw the same set of events agree |
| Routing.LossIsRepaired | internal/availability/availability.go:35-47 | Seeing all events later repairs any earlier loss |
| AvailabilityServices.Service.constructor | internal/availability/availability.go:27-33 | Starts with an empty cache |
| AvailabilityServices.Service.Apply | internal/availability/availability.go:49-60 | A received state replaces the cached one if and only if its version is positive and newer; the other processor's entry stays |
| AvailabilityServices.Service.Hydrate | internal/availability/availability.go:35-47 | Whatever the row order, the cache becomes the pointwise newest of itself and the table; a failed read is an error that applies nothing |
| AvailabilityServices.Service.Select | internal/availability/availability.go:62-78 | The selection of the current cache |
| AvailabilityServices.Service.RecordPassiveFailure | internal/availability/availability.go:80-95 | Commit, then local apply, then broadcast; a failure that is not known to be persisted is neither applied nor broadcast, and a failed broadcast undoes nothing |
| AvailabilityServices.Service.RecordPollObservation | internal/availability/availability.go:97-115 | The same; an observation is accepted if and only if it is not a too old healthy one and its reply arrived, and one that is not accepted changes neither cache nor subject |
| AvailabilityServices.HydrationIsDelivery | internal/availability/availability.go:35-47 | Hydration equals receiving every stored row as an event, in any order and repeated |
| Replication.StepKeepsHistory | internal/database/postgres.go:330-362 | Row k + 1 of a processor has version k + 1, the table holds the last one, and history only grows |
| Convergence.StepKeepsCopies | internal/availability/availability.go:38-60 | No step puts anything but committed rows into a cache, an inbox or a pending broadcast |
| Convergence.StepKeepsNoGap | internal/app/run.go:53-62 | No reliable step loses the current row for a subscribed instance |
| Convergence.QuietCacheIsTable | internal/availability/availability.go:38-47 | A live instance without a gap holds the table once nothing is in flight |
| Recovery.StepKeepsRecovery | internal/database/postgres.go:330-362 | Any number of concurrent pollers and failing workers keep recovery behind the latest failure |
| Recovery.AvailableMeansRecovered | internal/database/postgres.go:344-353 | What an available row says about every failure before it |
| Leadership.StepKeepsLeadership | internal/database/postgres.go:386-428 | Lock, sessions and each leader's place in its loop stay consistent however sessions end |
| Leadership.LeadershipMeans | internal/availability/election.go:82-105 | One live leader, and at most one stale observation per ended session |
| Programs.Cluster.constructor | internal/app/run.go:21-62 | A fresh system, reached by the empty run |
| Programs.Cluster.Step | internal/processing/workers.go:66-160 | One labelled step of others extends the run by that label and keeps every recorded call of the program at its place in the run |
| Programs.Cluster.Call | internal/processing/workers.go:66-160 | One step of the program itself is recorded with its place in the run and the states before and after it |
| Programs.Cluster.Others | internal/processing/workers.go:53-64 | The run grows by exactly those offered steps that are possible, are not the agent's own and leave its notice to it; the agent is where it was or has stopped, and its instance's cache goes back on no version |
| Programs.Cluster.Next | internal/messaging/nats.go:185-194 | Exactly the stored message under that sequence number, or a failure that is no step at all |
| Programs.Cluster.SelectProcessor | internal/availability/availability.go:62-78 | The selection is that of the cache of the worker's own live instance at that moment |
| Programs.Cluster.ClaimPayment | internal/processing/workers.go:95-116 | The table changes as the store's statement says unless the call was never applied; where each answer or lost reply takes the worker |
| Programs.Cluster.Process | internal/processor/default.go:51-88 | Submits, lets everyone run, and hears the answer: the payment is confirmed exactly by 200 and 422, the processor is failing exactly for an expired deadline and 500 to 599, anything else is retried; a confirmation is heard only for a recorded payment |
| Programs.Cluster.HearAnswer | internal/processor/default.go:72-87 | Confirmed exactly by 200 and 422, failing exactly for an expired deadline and 500 to 599, otherwise to be released; after a confirmation the payment is in the processor's book |
| Programs.Cluster.ArriveAtProcessor | contract.md:99-107 | The submission is in the processor's book, and nothing else changes |
| Programs.Cluster.CommitPassiveFailure | internal/database/postgres.go:328-339 | The row changes as the upsert says unless the call was never applied; a reply leaves one notice to hand on |
| Programs.Cluster.RecordPassiveFailure | internal/availability/availability.go:80-95 | The report is one step; when its reply arrived, the own cache then has that row or a newer one and, if sent, the row is in every instance's inbox |
| Programs.Cluster.Announce | internal/availability/availability.go:87-94 | Of its own two steps in the run, the first applies the row to the own cache and the second broadcasts or skips it, with others running before and between; afterwards the own cache has that row or a newer one and, if sent, every inbox has it |
| Programs.Cluster.ApplyOwn | internal/availability/availability.go:87-87 | The own cache becomes the newer of itself and the row, and only the broadcast is still owed |
| Programs.Cluster.Publicise | internal/messaging/nats.go:24-40 | A broadcast adds the row to every instance's inbox and a skip to none; no cache and no loop changes |
| Programs.Cluster.ReleasePayment | internal/database/postgres.go:186-202 | The owner's payment becomes pending at once with no claim on it, another's is untouched, and nothing changes when the call was never applied; the worker goes on to leave the message either way |
| Programs.Cluster.CompletePayment | internal/processing/workers.go:142-155 | A reply says exactly whether this call completed the payment; the table changes as the store's statement says unless the call was never applied; only a reply of true leads to an acknowledgement |
| Programs.Cluster.Ack | internal/processing/workers.go:175-179 | What is acknowledged is durably completed; an applied acknowledgement removes exactly this message |
| Programs.Cluster.Nak | internal/processing/workers.go:181-188 | Stream and table are untouched: the message stays for redelivery |
| Programs.Cluster.ReleaseAndNak | internal/processing/workers.go:162-173 | Release, then leave the message, whether or not the release was applied |
| Programs.Cluster.ClaimOutbox | internal/outbox/dispatcher.go:61-77 | A row is granted exactly when the offered one was free and the reply arrived; it is then leased to this dispatcher for exactly the expiry time, as it is when the reply is lost |
| Programs.Cluster.Publish | internal/messaging/nats.go:136-144 | Success means the payment's message was stored now or before; a failure may have stored it too |
| Programs.Cluster.MarkOutboxDispatched | internal/outbox/dispatcher.go:90-97 | The row becomes dispatched if this dispatcher still owns it and the call was applied |
| Programs.Cluster.ReleaseOutbox | internal/outbox/dispatcher.go:82-88 | The row becomes pending again if this dispatcher still owns it and the call was applied |
| Programs.Cluster.TryHealthLeadership | internal/database/postgres.go:386-405 | Acquired exactly when the session reached a free lock and the reply arrived; a lost reply leaves the lock with a session nobody leads under |
| Programs.Cluster.HasLeadership | internal/availability/election.go:97-105 | Passes exactly when the check was made and the session was alive; otherwise the loop is about to give up |
| Programs.Cluster.Close | internal/database/postgres.go:415-428 | Afterwards the instance follows and its session holds no lock |
| Programs.Cluster.PollProcessor | internal/availability/election.go:107-134 | Its own calls in order; the recording one writes the answer with the database time read just before the request, and no other one writes to the table |
| Programs.Cluster.AwaitAnswer | internal/processor/default.go:93-122 | A failed or incomplete answer ends the poll without a write |
| Programs.Cluster.FinishPoll | internal/availability/election.go:119-133 | A complete answer is recorded once, with the poll's own start time, or dropped if the statement was not applied |
| Programs.Cluster.CommitPollObservation | internal/database/postgres.go:341-362 | Unless the call was never applied, a too old healthy observation changes nothing and any other one is stored as observed, one version newer; an accepted one with a reply leaves one notice to hand on |
| Programs.Cluster.RecordPollObservation | internal/availability/election.go:126-133 | An accepted observation whose row came back is afterwards in the own cache, or a newer one is, and, if sent, in every inbox |
| Programs.WorkOnce | internal/processing/workers.go:66-160 | Without a message nothing happens at all; with one, the turn's calls are exactly those of the course that the claim's answer prescribes, a failure is reported if and only if the payment was submitted and met an expired deadline or 500 to 599, and the payment is acknowledged if and only if it was found completed or this turn completed it and learned so |
| Programs.TurnReports | internal/processing/workers.go:126-131 | Among a turn's calls there is a failure report if and only if it submitted and met an expired deadline or 500 to 599 |
| Programs.HandleDelivery | internal/processing/workers.go:90-158 | The answer is the claim statement's at the moment of the claim, and it alone decides the course |
| Programs.FollowClaim | internal/processing/workers.go:96-158 | Acknowledge a completed payment, leave a refused or unanswered one, submit a granted one, and nothing else |
| Programs.ClaimOnce | internal/processing/workers.go:90-116 | Select, then claim, and where each answer leads |
| Programs.SubmitOnce | internal/processing/workers.go:118-158 | After a granted claim, exactly the calls of a submission; acknowledged if and only if the processor confirmed and the worker learned that its completion was applied |
| Programs.GiveUp | internal/processing/workers.go:127-139 | An unconfirmed payment is reported only if the processor is unavailable, then released and left |
| Programs.CompleteOnce | internal/processing/workers.go:142-158 | Acknowledged if and only if the completion was applied by this call and its reply arrived |
| Programs.RunWorker | internal/processing/workers.go:66-160 | With everybody else running before every turn and statement, the loop's calls are its turns one after another; each turn did nothing if and only if there was no message to fetch when it began, and every payment the loop acknowledged is durably completed |
| Programs.TakeTurn | internal/processing/workers.go:67-82 | Others run while the worker waits for a message, and then it takes one turn, begun at a point of the run where the message was there or the turn did nothing |
| Programs.DispatchOnce | internal/outbox/dispatcher.go:59-99 | A turn finds no free row, or loses the reply, or publishes and then marks if and only if the publication was acknowledged |
| Programs.PublishOnce | internal/outbox/dispatcher.go:79-97 | Mark if and only if the publication was acknowledged, and otherwise release; what it took for published was stored |
| Programs.RunDispatcher | internal/outbox/dispatcher.go:59-99 | With everybody else running before every turn and statement, the loop's calls are its turns one after another; each found no row if and only if the offered one was not free when it began, and everything the loop took for published was stored in the stream |
| Programs.TakeDispatch | internal/outbox/dispatcher.go:61-77 | Others run while the dispatcher waits, and then it takes one turn |
| Programs.Poll | internal/availability/election.go:82-95 | Both processors in order, each behind its own liveness check, or the calls up to the check that ended the round |
| Programs.NextPoll | internal/availability/election.go:85-93 | Extends the leader's calls by one checked poll, or by the check that failed |
| Programs.CheckAndPoll | internal/availability/election.go:86-89 | A poll follows only a check that passed; a check that was made and failed found the session gone |
| Programs.StepDown | internal/availability/election.go:59-60 | The leader resigns unless it already gave up |
| Programs.RunLeader | internal/availability/election.go:36-80 | The loop's calls are whole polls, each behind a check that passed, then the failed check or the resignation; and at most one observation it recorded came after its session had ended |
| Programs.RunElection | internal/availability/election.go:36-69 | The loop's calls are its attempts at the lock one after another; each led if and only if the lock was free when it began and the reply arrived; under each session at most one observation it recorded came after the session ended; it never ends leading, and no two instances lead under live sessions |
| Programs.ElectOnce | internal/availability/election.go:40-60 | Leads exactly when the lock was free and the reply arrived, and then makes exactly the leader's calls |
| Programs.TakeTrial | internal/availability/election.go:45-66 | Others run during the retry wait, and then the instance makes one attempt |
| Programs.CallsAreStaleAtMostOnce | internal/availability/election.go:82-126 | Of the calls a program made, at most one recorded an observation under a given session after that session had ended |
| Programs.EarlierExtends | internal/processing/workers.go:66-160 | Facts established at one moment of a run hold at every later one |
| Money.MarshalDecimalCents | internal/summary/handler.go:89-107 | The byte-by-byte printer produces sign, whole units, point and two digits of every int64 |
| Money.DecimalRoundTrip | internal/summary/handler.go:92-107 | The text is a number under section 6 of RFC 8259 and denotes exactly the cents it was made from |
| Money.DecimalTextIsInjective | internal/summary/handler.go:92-107 | Different amounts never print alike |
| Money.PrintersAgree | internal/processor/default.go:138-147 | The processor-side printer agrees with it, and prints a JSON number, for every int64 if and only if it is not the minimum |
| Money.MinimumIsMisprinted | internal/processor/default.go:141-145 | For the minimum int64 the text has two leading signs and is no JSON number |
| Money.CentsAreNearest | internal/intake/handler.go:68-75 | An accepted amount is the nearest positive int64 number of cents; exactly the products outside [1/2, 2^63 - 1/2) are refused |
| Money.IntakeIsExact | internal/intake/handler.go:68-75 | With both operations correctly rounded, every two-decimal amount below 2^51 cents is stored exactly and forwarded as the same value |
| Money.IntakeBoundIsSharp | internal/intake/handler.go:68-75 | From 2^51 cents on correct rounding alone no longer decides the stored amount |

## Left out

- HTTP servers, routing, shutdown, logging, configuration parsing, container and proxy files: plumbing. A cancelled context is a step that stops the agent.
- JSON, UUID and RFC 3339 parsing and printing: library code. Identifiers are numbers in the order PostgreSQL sorts them, times are whole microseconds.
- PostgreSQL's own locking and snapshots: each statement is one atomic step. `SKIP LOCKED` appears as the set of rows other transactions hold, with no fairness.
- A statement whose call failed was applied at the time of the failure or never; it is not applied later. For a release, `Leases.LateReleaseIsSafeExactly` gives the exact condition under which a later application would be harmless. Submissions to processors, in contrast, may be recorded at any later time.
- 64-bit wrap-around of row versions and stream sequence numbers: both are unbounded here.
- Stream and consumer provisioning, `AckWait`, `MaxAckPending`, retry delays and the length of the duplicate window: redelivery and de-duplication of any id ever stored are possible at any time, which covers every setting.
- Messages with a malformed id, rows with a service name other than the two the schema admits, and a worker without a client for the assignment: they add only cases that change nothing.
- Full IEEE 754: the intake bound uses the relative error 2^-53 of one correctly rounded operation.
- AvailabilityServices.Service.RecordPassiveFailure: commit, apply and broadcast are one call of the class with no other agent in between; `Replication` has them as separate steps, and `Programs.Cluster.RecordPassiveFailure` lets others run between them.
- Programs.RunWorker: the endless loop runs for as long as its finite script of environment decisions lasts, and waits between retries are not timed; the same holds for the dispatcher, leader and election loops.
- Programs.RunLeader: a script holds whole rounds of two polls; a leader that is cancelled within a round stops with its instance.
- Drain.Drainable: the schedule may end the current health-leadership session and assumes that Default answers one health request as healthy and confirms submissions; it shows that a finishing continuation exists, not that every fair one finishes.
- Safety.SubscribeBeforeHydrate: says nothing for an instance that lost an update; such a cache still holds only committed rows and never goes back.
