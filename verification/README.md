# The work bus, modelled and proved

The bus is an append-only `events` log in which every event has a unique dedupe key. Tables are projections folded
from that log; worker processes queue and lease tasks, judge each other, deliver detections and limit their sessions
through it. This project states what the bus has to keep and proves it in Dafny, for every log, every run and every
interleaving of the processes.

- `Projections`, `BusState`, `Reducer`, `OwnProjection`, `TasksProjection`: folds with rejection and rollback, the
  snapshot and its dirty rows, watermarks, batches and rebuilds. The fold is a parameter: a function of the tables and
  of the log up to its own event. `TasksProjection` puts the task folds in its place.
- `Tasks`, `LeaseSpec`, `LeaseProtocol`, `LeaseOutcomes`, `FailureBudget`, `LegacyWithdrawal`, `LeaseDb`, `Holders`,
  `Judging`, `GrantOrder`: the task folds, the transactions that append and fold, dedupe freshness, fencing, what every
  transaction does to a row, the failure budget, the withdrawal of old launch tasks, the judging of dead holders, the
  order of grants.
- `TaskKeys`: the printer of task keys and the family of suffix parsers that undo it.
- `Cards`, `CardAutomaton`, `CardDb`: cards and pull requests, relinking, the fault stop, and the edges of the card
  automaton as a relation of their own.
- `Observations`, `Delivery`, `Detections`: what the watch of the pull requests records, how the processes of one node
  kind share a cursor, and which tasks they detect.
- `MachineSessions`: the session limit kept by files, with no lock.
- `Assignments`, `Shards`, `Layers`: balancing the tests over shards with Graham's bound, and selecting the tests a
  change needs.
- `Options` holds the option type.

Code that overwrites tables is a class (`Reducer.BusDb`, `LeaseDb.Db`, `CardDb.Db`) or a method with a loop, proved
equal to a function on values; the lemmas speak of that function. Protocols between processes are step relations:
a run is any sequence of enabled steps.

Where the code does not do what it is for, the model keeps the code, a lemma gives an input that shows it, and the exact
condition under which the code does it is proved:

- `TaskKeys.RoundTrip`: a task reads back from its row if and only if `ReadsBack` holds. A generation that is
  `-:-`, or whose text with a colon before it ends in a stop, does not; a generation on a queue without generations
  does not; a stop after a body of a pull request or a review input hides it.
- `TaskKeys.OneTaskPerKey`: the key alone does not tell a launch under generation `12:-` from a launch of pull
  request 12 (`OneKeyForTwoTasks`); these are the only two ways to share a key.
- `LegacyWithdrawal.WithdrawalKeepsIff`: withdrawing the launch tasks of before reads the rows first and does not look
  at them again in its transactions. The log and the rows stay tied to each other if and only if the generation was
  granted meanwhile or the row is queued when it is granted; a row read as queued that was withdrawn or superseded since
  gets a grant that it never carries. `EndsAnothersLease` is the lease of another holder ended by it.
- `MachineSessions.SoundWithoutRaces`: what keeps the sessions within the limit holds throughout a run if and only if
  no sweep removes the file of a live claim that goes on, and no count takes such a claim for dead. `SweepRace` and
  `HandoverRace` are runs with such a step that leave two sessions under a limit of one: a sweep that removes a file
  written after it read the old one, and a count that probes a process after it handed its session over and died.
- `Detections.DeliveryDetects`: a live delivery leaves out a task that stands when another of its card or pull request
  was queued ahead of it in the same transaction, since that is a change by another actor; the exact condition is
  proved. A tick leaves out no task that stands (`TickDetects`).
- `Cards.FoldKeepsLive`: one event breaks the link of a live pull request if and only if it is a late merge, and
  `TwoClosesTwoLive` is a log with two closes of one pull request. The one dedupe key `pr:N:closed` rules it out.
- `Cards.AnotherLaunchRestores`: a card with two launch tasks is brought back by a start of the earlier one, because
  only the numbers of the generations are compared.

A watermark of zero makes the first on-append write skip what the log already holds. The writers never let that matter
(`OwnProjection.WritersKeepOwn`); `TasksProjection.SkippedWithoutTheGuard` shows what an event appended past them would
lose.

## Model

| member | source | states |
|---|---|---|
| Projections.FoldedAllIsFaithful | scripts/core/rejection.ts:21-36 | Folding events one by one, each in its savepoint, gives the plain left fold of them: a rejected event leaves the tables as they were and an event under the key `reducer.rejected:` and its own in the log, and every row the folds wrote is noted dirty |
| Projections.RecordsAreOfRejections | scripts/core/rejection.ts:7-19 | Folding adds to the log nothing but records of the events the plain fold rejects, each under its type and key, and every one of those has its record |
| Projections.DifferentRecords | scripts/core/rejection.ts:15 | Two rejected events with different dedupe keys have two different records |
| Projections.RunGoesOn | scripts/core/reducer.ts:603-610 | A legacy event and one of a type without a fold change nothing; any other leaves of each row and sequence the last write of its fold |
| Projections.RunSplits | scripts/core/watermark.ts:25-34 | A fold may be stopped after any event and taken up again there |
| Projections.RunReadsThePrefix | scripts/core/reducer.ts:603-610 | What a log makes of the tables depends on nothing after the last event folded |
| Projections.PendingThrough | scripts/core/reducer.ts:612-619 | The first n pending events are exactly the pending events up to the id of the n-th, so a full batch may move user_version there |
| BusState.BatchIsRange | scripts/core/reducer.ts:617-619 | A batch of any size folds exactly the events up to where it says it ends, and it ends later than it began |
| BusState.ReducedBatchIsFaithful | scripts/core/reducer.ts:672-685 | One pending batch moves user_version forward and leaves the snapshot equal to the plain in-order fold, and live equal to that fold caught up by the incremental ones, whatever live was before |
| BusState.BuiltBatchIsFaithful | scripts/core/reducer.ts:654-670 | One batch of a rebuild leaves its shadow equal to the in-order fold from empty as far as it got, and touches neither live nor the snapshot |
| BusState.PublishedIsFaithful | scripts/core/reducer.ts:644-652 | Publishing a finished rebuild leaves the same projections as a pending reduction to its target |
| BusState.EveryRunIsFaithful | scripts/core/reducer.ts:585-696 | After any interleaving of appends, on-append folds, pending batches and rebuilds: live and snapshot agree outside the dirty rows, the snapshot is the in-order fold through user_version, sequences included, and every event rejected in order has its record |
| BusState.EveryRejectionHasItsRecord | scripts/core/rejection.ts:7-19 | In every state of every run each event through user_version that is rejected in order has an event of its own of the type of rejections, under its own key, as long as no other event takes such a key |
| BusState.EveryRunDistinct | scripts/core/db.ts:254-272 | In every state of every run no two events of the log have one dedupe key |
| BusState.ReducedRecords | scripts/core/watermark.ts:25-34 | An on-append fold adds to the log only records of events it rejects, and every one of those has its own |
| Reducer.BusDb.AppendEvent | scripts/core/db.ts:254-272 | An event joins the log exactly when its dedupe key is not in it |
| Reducer.BusDb.FoldEvents | scripts/core/reducer.ts:603-610 | The loop of savepoints ends in the fold of the events on values, and counts exactly those rejected as rejected and the others as applied |
| Reducer.BusDb.ReduceProjection | scripts/core/watermark.ts:25-34 | The pending events of one projection are folded and its watermark moves to the end the log had |
| Reducer.BusDb.AppendAndReduce | scripts/core/queue.ts:1104-1119 | An on-append write: append, set a watermark of zero to just before, fold |
| Reducer.BusDb.MarkInOrderThrough | scripts/core/reducer.ts:621-628 | user_version moves and every incremental projection is folded again from there |
| Reducer.BusDb.RestoreDirtyRows | scripts/core/reducer.ts:589-594 | The dirty rows of live, and they alone, take the value they have in the snapshot, with its sequences |
| Reducer.BusDb.SnapshotDirtyRows | scripts/core/reducer.ts:596-601 | The dirty rows of the snapshot take the value they have in live |
| Reducer.BusDb.FoldBatch | scripts/core/reducer.ts:672-685 | Restoring, folding a batch and snapshotting gives the tables that the batch makes of the snapshot |
| Reducer.BusDb.ReduceBatch | scripts/core/reducer.ts:672-685 | The transaction is one pending batch, and says whether another is needed |
| Reducer.BusDb.BuildBeside | scripts/core/reducer.ts:654-670 | A rebuild from empty in batches of any size ends with live and snapshot equal to the in-order fold to its target |
| Reducer.BusDb.Reduce | scripts/core/reducer.ts:687-696 | Pending or rebuild, whatever the batch size: it ends, and live and snapshot are the plain in-order fold of the whole log; only records of rejections join the log, and every event rejected in order has its own |
| OwnProjection.EveryRunKeepsOwn | scripts/core/queue.ts:1083-1119 | A table that one projection owns is, in every state of a run, the fold of its own events through its watermark: restoring, refolding and publishing in between leave no trace, and other projections do not disturb it |
| OwnProjection.OwnLiveIsInOrder | scripts/core/queue.ts:1083-1119 | With its watermark at the end of its events the live table is the one an in-order reduction of the whole log gives |
| OwnProjection.WritersKeepOwn | scripts/core/queue.ts:1104-1119 | As long as its events are written by its own on-append writer alone, no run skips or leaves any of them, and in every state the live table is the one an in-order reduction of the whole log gives |
| TasksProjection.TasksAreOwned | scripts/core/queue.ts:1083-1102 | The task folds go by their own table and its sequence alone, so what is proved of an owned table holds of the tasks |
| TasksProjection.TasksAlone | scripts/core/queue.ts:1100-1102 | A bus that folds nothing but tasks is one of those these results speak of |
| TasksProjection.RunIsReplay | scripts/core/queue.ts:977-1102 | Folded as rows of the bus with their AUTOINCREMENT sequence, a log gives exactly the tasks its events make |
| TasksProjection.LiveTasks | scripts/core/queue.ts:1102-1119 | Whatever batches, rebuilds and other projections do in between, in every state the live tasks are the in-order fold of the log, so what is proved of that fold holds of them |
| TasksProjection.SkippedWithoutTheGuard | scripts/core/queue.ts:1108-1112 | An event that queues a task, appended past its writer before the first on-append write, is skipped for good, and the live table lacks its row |
| Tasks.GrantsCountUp | scripts/core/queue.ts:1039-1049 | The generations granted on a task are 1, 2, 3 and so on, and the row carries the last |
| Tasks.HeldThroughout | scripts/core/queue.ts:1030-1037 | A lease held under one generation at two moments was held under it all the time between |
| Tasks.Fencing | scripts/core/queue.ts:1030-1071 | An event applied under a generation proves that lease unbroken from its grant: no other grant and no end lies between |
| Tasks.OneEndPerGeneration | scripts/core/queue.ts:1056-1071 | Every generation is ended by at most one applied event |
| Tasks.RowIsItsHistory | scripts/core/queue.ts:977-1081 | State, event_id, lease_gen, failures and the end of the lease of every row are read off the events applied to it |
| LeaseSpec.FreshKeeps | scripts/core/queue.ts:1114-1119 | An event of a task that the unique key lets through keeps what ties the log, the dedupe index and the rows together |
| LeaseProtocol.GrantTakes | scripts/core/lease.ts:208-212 | A grant is never swallowed by the unique key nor rejected: the queued row becomes leased under the next generation |
| LeaseProtocol.EndTakes | scripts/core/lease.ts:239-332 | The end of a held lease is never swallowed nor rejected, whatever context is appended before it |
| LeaseProtocol.EnqueueTakes | scripts/core/queue.ts:1148-1154 | Queueing a task never queued before gives a queued row exactly if the fold accepts the event, queueing again changes nothing |
| LeaseProtocol.NextKeeps | scripts/core/lease.ts:154-332 | Every transaction, on what was read before it, keeps: the log holds the grants 1 to lease_gen of a task and no others, and no end of the generation a leased row is under |
| LeaseProtocol.EveryRunKeeps | scripts/core/lease.ts:208-332 | Dedupe freshness in every state that any run of the writers reaches, each supersede naming the event its row stood at in some earlier state; no row is lost or goes back to an earlier event |
| LeaseProtocol.EveryRunProjected | scripts/core/queue.ts:1114-1119 | In every state of every run the tasks table is the in-order fold of the log |
| LeaseProtocol.StaleHolderChangesNothing | scripts/core/lease.ts:154-159 | Under a generation that has passed or a lease that has ended, completing, failing, waiting, releasing, renewing and superseding change neither log nor table, and no action under a lease touches another task |
| LeaseProtocol.LeaseActionTakes | scripts/core/lease.ts:232-332 | Under a held lease each of them goes through and changes its own row alone, to the state the holder is told |
| LeaseOutcomes.FailingSays | scripts/core/lease.ts:249-313 | Failing a held lease: a stale head supersedes the task, a named retry time puts it back, a third failure that is not excused stops it with the stop of the card and the alarm, unless it is withdrawn or its session beats, and any other queues or withdraws it |
| LeaseOutcomes.ExpiringSays | scripts/core/lease.ts:334-342 | A lease that lapsed, or whose holder is gone, is failed in the same way |
| LeaseOutcomes.FailureCountsIff | scripts/core/lease.ts:249-251 | A failure that neither supersedes the task nor makes it wait goes uncounted if and only if its reason is `not_mergeable`, the task has a pull request and an update of it is on the way |
| LeaseOutcomes.ThirdFailureStops | scripts/core/lease.ts:279-294 | Over every run: the third counted failure since the last clean start leaves the task stopped, with both records in the log |
| LeaseOutcomes.GrantSays | scripts/core/lease.ts:208-212 | A grant leases the row for thirty minutes under the next generation, in the name of the worker |
| LeaseOutcomes.RenewingSays | scripts/core/lease.ts:232-237 | A renewal moves the end of the lease thirty minutes past its time |
| LeaseOutcomes.CompletingSays | scripts/core/lease.ts:239-247 | The outcome, then the completed event; the row is completed and its lease over |
| LeaseOutcomes.WaitingSays | scripts/core/lease.ts:268-277 | The context, then the released event; the row is queued again and counts no failure |
| LeaseOutcomes.OutdatingSays | scripts/core/lease.ts:324-332 | The row of a lease on a stale head is superseded |
| LeaseOutcomes.BeatSays | scripts/core/queue.ts:1073-1081 | A heartbeat moves the end of the lease it names, if that is held for a task of its card, and nothing else |
| LeaseOutcomes.SupersedingSays | scripts/core/queue.ts:985-991 | A task is superseded unless it is |
| LeaseOutcomes.WithdrawingSays | scripts/core/queue.ts:1004-1010 | A task is withdrawn exactly while it is queued, leased or stopped |
| LeaseOutcomes.RequeuingSays | scripts/core/queue.ts:993-1002 | A stopped, withdrawn or superseded task, and a completed answer, is queued again without failures |
| LeaseOutcomes.RequestingSays | scripts/core/queue.ts:993-1002 | So is one that a request asks for |
| LeaseOutcomes.SettingAgainSays | scripts/core/queue.ts:1261-1268 | An answer is set again with one more failure, or an alarm is raised once two were read |
| LeaseOutcomes.RejectedIsRecorded | scripts/core/rejection.ts:7-19 | A rejected event of a task leaves the rows as they are, and after itself a record of it that nobody folds |
| FailureBudget.NextInBudget | scripts/core/lease.ts:253-313 | Every transaction keeps fewer than three failures on a task at work or done, and exactly three on a stopped one, except a requeue after a fault that goes through and whose guard no longer holds: that one breaks it |
| FailureBudget.EveryRunInBudget | scripts/supervisor/run.ts:133-152 | One process requeues, so the budget holds in every state of every run: whatever the workers do between the reading of an answer and its requeue, its failures are those that were read |
| FailureBudget.NextLeavesDone | scripts/core/queue.ts:993-1071 | Nothing but a requeue moves a completed task on, except that it may be superseded, with the same failures |
| FailureBudget.InBudgetIff | scripts/core/lease.ts:253-313 | Whoever requeues, the budget holds in every state of a run exactly when every requeue after a fault that goes through still finds fewer than two failures |
| FailureBudget.SetAgainInBudgetIff | scripts/core/queue.ts:1261-1268 | A requeue after a fault that goes through counts one failure more, whatever was read, and keeps the budget exactly if its guard holds of the row at the time of the transaction |
| LegacyWithdrawal.WithdrawalKeepsIff | scripts/nodes/launch/launch-withdraw.ts:29-42 | A withdrawal by a row read before keeps the grants of the log and the rows tied exactly if the generation was granted since or the row is queued when it is granted; else the key of its next grant is spent |
| LegacyWithdrawal.FreshReadingWithdraws | scripts/nodes/launch/launch-withdraw.ts:29-35 | While the reading holds the task is withdrawn under the next generation and no other row moves |
| LegacyWithdrawal.EndsAnothersLease | scripts/nodes/launch/launch-withdraw.ts:29-35 | Where another holder was granted the next generation since and holds it, its lease is ended and counted as a failure |
| LeaseDb.Db.AppendAndReduce | scripts/core/queue.ts:1114-1119 | The event just appended is folded or its rejection recorded; a swallowed one changes nothing |
| LeaseDb.Db.QueueTask | scripts/core/queue.ts:1144-1154 | The transaction of the protocol; it says `queued` exactly for a key never queued before |
| LeaseDb.Db.SupersedeTask | scripts/core/queue.ts:1156-1163 | The transaction of the protocol, keyed by the event of the row that was read before it |
| LeaseDb.Db.SetAgainAfterItsStop | scripts/core/queue.ts:1261-1268 | Queued again under the number of failures read before, or an alarm |
| LeaseDb.Db.LeaseQueued | scripts/core/lease.ts:176-190 | A lease exactly for a queued task that waits for nothing, and then the grant of the protocol |
| LeaseDb.Db.LeaseWhileFree | scripts/core/lease.ts:214-230 | Counting, queueing and leasing in one transaction |
| LeaseDb.Db.RenewLease | scripts/core/lease.ts:232-237 | The renewal of the protocol, refused exactly when the lease is not held |
| LeaseDb.Db.CompleteTask | scripts/core/lease.ts:239-247 | The completion of the protocol with its outcome, refused exactly when the lease is not held |
| LeaseDb.Db.ReleaseTask | scripts/core/lease.ts:268-323 | Waiting and releasing put the task back without a failure, refused exactly when the lease is not held |
| LeaseDb.Db.SupersedeLease | scripts/core/lease.ts:324-332 | A lease on a stale head is superseded and its task queued anew, refused exactly when it is not held |
| LeaseDb.Db.Failed | scripts/core/lease.ts:279-294 | One failure: counted or not, withdrawn, stopped at the third, or put back while a heartbeat is fresh |
| LeaseDb.Db.FailTask | scripts/core/lease.ts:306-313 | The failure of the protocol by its reason, and the state the holder is told is the one the row is in |
| LeaseDb.Db.Expired | scripts/core/lease.ts:334-342 | The rows read at the start are failed by the policy one after the other |
| LeaseDb.GrantIsTheRow | scripts/core/lease.ts:208-212 | The lease a holder is told is the row it names, held under that generation |
| LeaseDb.ExpiredOneByOne | scripts/core/lease.ts:334-342 | Each of the rows is failed exactly once and no other row is touched |
| Holders.DeadVerdictIsSound | scripts/core/lease.ts:411-418 | A dead verdict is right when it is given: the process that recorded the start is not alive |
| Holders.ProbeSays | scripts/core/lease.ts:411-418 | A holder is judged alive exactly if a living process has its pid and started within two seconds of the record, dead exactly if none does, and nothing is proven without a record or a reading |
| Holders.ReadSays | scripts/core/lease.ts:389-394 | A row read is leased, its holder the actor of the grant of its generation, with the start that holder recorded, if any |
| Holders.EveryRunSound | scripts/core/lease.ts:424-458 | Whatever a judge has read of a holder stays true while it goes on judging |
| Holders.NeverFreesALivingHolder | scripts/core/lease.ts:424-458 | Under any interleaving a judge ends only the lease it read, never one whose recorded process is alive, and does nothing when that lease was ended or granted again in between |
| Judging.JudgeHolders | scripts/core/lease.ts:438-451 | The loop over the rows frees, reports as hung, or reports as unproven, as judging them one by one does |
| Judging.JudgedSays | scripts/core/lease.ts:424-451 | The lease of a dead holder is failed and told as freed, a holder unheard of for twenty minutes is reported once as hung or unproven, and anything else does nothing |
| Judging.OnlyTheDeadLoseTheirLeases | scripts/core/lease.ts:438-451 | After a call a lease it read is held exactly if it was held before and its holder was not judged dead; silence alone ends none |
| Judging.FreedAreTheDead | scripts/core/lease.ts:424-432 | The keys said to be freed are those of the leases that were held by a holder judged dead, in their order |
| Judging.JudgingAgainIsQuiet | scripts/core/lease.ts:434-436 | Judging the same findings again frees nothing and raises no alarm |
| GrantOrder.InGrantOrder | scripts/core/lease.ts:192-206 | The rows granted now in their order, then those that wait for their card |
| GrantOrder.NowAndLater | scripts/core/lease.ts:192-206 | No row is dropped or listed twice |
| GrantOrder.NowIsLeasedInTurn | scripts/core/lease.ts:169-174 | Leasing the next task until there is none grants exactly the keys of the now part, in that order |
| GrantOrder.GrantOrderIsRepeatedLeasing | scripts/core/lease.ts:169-206 | When no task waits until later, the now part is what repeated leasing grants, with and without one per card, and nothing else is |
| GrantOrder.RanksAreDistinct | scripts/core/lease.ts:63-80 | Two tasks of a queue never tie, so the order is one |
| GrantOrder.NextIsAhead | scripts/core/lease.ts:63-86 | The task leased next can be leased, and is ahead of every other that can: first the cards asked for, then reviews by their last event and other tasks by id |
| TaskKeys.RoundTrip | scripts/core/queue.ts:1174-1181 | A task whose key can be printed is read back from the row written for it if and only if ReadsBack holds |
| TaskKeys.PlainRoundTrip | scripts/core/queue.ts:859-876 | Without a generation: exactly when its stop counts from one, hides no body or input, and is not taken for a generation |
| TaskKeys.GenerationRoundTrip | scripts/core/identifiers.ts:106-110 | With one: exactly on a queue of generations, without stop and input, when it is not the plain form and no stop reads out of it |
| TaskKeys.EventAccepted | scripts/core/queue.ts:955-971 | The folds accept the event written for a task that reads back exactly when it has no stop or is an answer |
| TaskKeys.LeaseEventAccepted | scripts/core/lease.ts:149-152 | Once any event of a task was accepted, the lease events built from the row are, exactly unless it has a generation, other than the plain form, on a queue without generations |
| TaskKeys.OneTaskPerKey | scripts/core/queue.ts:859-862 | Two tasks that read back share a key exactly when they are equal or the generation of one is the printed pull request and head of the other |
| TaskKeys.PrintsIff | scripts/core/identifiers.ts:68-92 | Exactly which tasks have a key; for any other the code throws |
| TaskKeys.IdentifiedIff | scripts/core/queue.ts:955-971 | Exactly which events name a task, and at which the code throws |
| TaskKeys.PlainKeys | scripts/core/identifiers.ts:68-84 | The key of a task of each queue, written out |
| TaskKeys.GeneratedKey | scripts/core/identifiers.ts:79-80 | With a generation it follows the card |
| TaskKeys.ReviewKey | scripts/core/identifiers.ts:86-92 | With a review input both bodies follow the head, a missing card body as `-` |
| TaskKeys.MergeKey | scripts/core/queue.ts:843-862 | A merge names the body of its pull request last |
| TaskKeys.AnswerKey | scripts/core/queue.ts:827-862 | An answer names the body of its card, then its stop |
| TaskKeys.WitnessKey | scripts/core/queue.ts:827-862 | A witness names the body of its card, then its base |
| TaskKeys.ShaSays | scripts/core/identifiers.ts:11-38 | What text is a sha of a commit, and what text is one of a body |
| TaskKeys.ReadsStop | scripts/core/queue.ts:868-871 | The stop parser gives back the printed stop, or nothing for a stop of zero |
| TaskKeys.ReadsCardBody | scripts/core/queue.ts:873-876 | The card body parser gives back the printed card body past a base and a stop |
| TaskKeys.ReadsBase | scripts/core/queue.ts:855-857 | The base parser gives back the printed base past a stop |
| TaskKeys.ReadsPrBody | scripts/core/queue.ts:851-853 | The pull request body parser gives back the printed body exactly when no stop follows |
| TaskKeys.ReadsInput | scripts/core/identifiers.ts:99-102 | The review input parser gives back the printed input exactly when no stop follows |
| TaskKeys.AStopIsNoGeneration | scripts/core/identifiers.ts:79-80 | The generation `stop-3` is printed but does not read back |
| TaskKeys.OneKeyForTwoTasks | scripts/core/identifiers.ts:79-81 | Two different launch tasks that both read back have one key |
| Cards.FoldKeepsLive | scripts/core/reducer.ts:83-162 | An event keeps every open or merged pull request linked from its card exactly unless it merges one that was closed before and whose card has moved on |
| Cards.LiveIsLinked | scripts/core/reducer.ts:101-162 | With one close per pull request in the log, that holds in every in-order state |
| Cards.OneLivePerCard | scripts/core/reducer.ts:83-111 | No card owns two pull requests that are open or merged |
| Cards.PullRequestsKeep | scripts/core/reducer.ts:113-162 | The card of a pull request never changes once set, and merged is final, over whole logs |
| Cards.TwoClosesTwoLive | scripts/core/reducer.ts:149-157 | With two closes of one pull request a card ends up with a merged and an open one |
| Cards.OpeningRestores | scripts/core/card-automaton.ts:124-134 | So does a pull request that does not relink the card, unless it belongs to another card |
| Cards.EarlierLaunchMovesNothing | scripts/core/card-automaton.ts:99-118 | With one launch task, once it was leased under a generation, no start and no opening that keeps the link of the card brings the fault-stopped card back under an earlier one, however late it comes |
| Cards.AnotherLaunchRestores | scripts/core/card-automaton.ts:106-118 | With two launch tasks a start of the earlier one does |
| CardAutomaton.EveryStepIsAnEdge | scripts/core/card-automaton.ts:94-275 | Over every log: whenever the state of a card changes the event is about it and the change is one of its edges, and an applied event takes the card along the edge there is |
| CardAutomaton.MoveAppliesIff | scripts/core/card-automaton.ts:140-275 | Exactly when each of the events that move a card is applied |
| CardAutomaton.CloseSays | scripts/core/reducer.ts:149-162 | A close of a known pull request that is not merged closes it, or merges it and its card, unless the card was closed; no other card moves |
| CardAutomaton.MergedCloseMergesTheCard | scripts/core/reducer.ts:149-162 | The same over every log |
| CardAutomaton.ObserveSays | scripts/core/reducer.ts:113-147 | Exactly when an observation is refused, and the pull request and the link it leaves |
| CardAutomaton.NamedInTurn | scripts/core/reducer.ts:113-147 | The card of an observation: the one it names, the one the pull request has, the first linked to it, or for a new one that of its branch |
| CardAutomaton.OpenSays | scripts/core/reducer.ts:251-262 | Exactly when an opening is refused, and the card in review and linked that it leaves |
| CardDb.Db.LinkCard | scripts/core/reducer.ts:83-111 | A card is linked, or refused and left as it was, while its pull request is open, merged or unknown |
| CardDb.Db.FirstCardOf | scripts/core/reducer.ts:79-81 | The scan finds the first card linked to the pull request, if any |
| CardDb.Db.ObservePr | scripts/core/reducer.ts:113-147 | The observation of the model, refused exactly when that rejects |
| CardDb.Db.ClosePr | scripts/core/reducer.ts:149-162 | The close of the model, refused exactly when that rejects |
| CardDb.Db.OpenPr | scripts/core/reducer.ts:251-262 | The opening of the model, refused exactly when that rejects, even after the card was linked |
| CardDb.Db.OpenOnCard | scripts/core/card-automaton.ts:124-134 | The move of a card whose pull request is opened, under the lease when a fault stopped it |
| CardDb.Db.StartCard | scripts/core/card-automaton.ts:158-166 | The start of a card, queued or restored from a fault |
| CardDb.Db.Apply | scripts/core/rejection.ts:21-36 | A refused event is rolled back whole |
| CardDb.Db.FoldAll | scripts/core/reducer.ts:603-610 | Folding a log from empty tables ends in the in-order state |
| Observations.Tick | scripts/ports/netwatch.ts:93-97 | The events of a snapshot, built before any is appended, are appended in order; it counts those that were new |
| Observations.TickRecordsAll | scripts/core/observations.ts:58-64 | After a tick every close and every advance of main of its snapshot is in the log, and all it adds is what the snapshot shows |
| Observations.WrittenWhenDifferent | scripts/core/observations.ts:24-41 | An observation is written exactly when it differs from the last one recorded of its pull request |
| Observations.RecordedWithoutStutter | scripts/core/observations.ts:24-41 | Over every run the payloads recorded of a pull request are those observed, without consecutive repeats |
| Observations.ChangesAreKept | scripts/core/observations.ts:38-40 | A stream in which each observation differs from the one before is recorded whole, as A, B and A again |
| Observations.OneClose | scripts/core/observations.ts:43-52 | Over every run two closes of one pull request in the log are one event, whoever wrote them |
| Observations.EveryRunLinked | scripts/core/observations.ts:51 | So over every run every open or merged pull request is the one its card is linked to |
| Delivery.FirstDetections | scripts/core/node.ts:196-206 | The nested loops give the detections of the fold over events and tasks |
| Delivery.FirstsHold | scripts/core/node.ts:196-206 | One detection for every key that some event finds, each naming the first such event |
| Delivery.NextKeepsSound | scripts/core/node.ts:352-394 | Every step keeps the committed windows chained, moves the cursor only forward and repeats no dedupe key |
| Delivery.DeliveredOnce | scripts/core/node.ts:357-381 | Every id from the opening to the cursor lies in exactly one committed window, and no other id in any |
| Delivery.CursorNeverBack | scripts/core/node.ts:361-381 | Over whole runs the cursor never goes back, the opening stays, and what was delivered stays delivered |
| Delivery.DetectedAtMostOnce | scripts/core/node.ts:352-358 | Over every run two detections of one task key by processes that detect live are one event, by whatever way it was seen |
| Delivery.DetectedIsQueued | scripts/core/node.ts:352-358 | In every state a task reported by a process that detects live has been queued |
| Delivery.QueuedSays | scripts/core/node.ts:352-358 | A detection queues its task unless its key was queued before, and no other |
| Delivery.ReportsAreDelivered | scripts/core/node.ts:369-389 | A detection recorded by event names an event of the subscription in a committed window, whose scope, where it has one, has the pull request and the card of the task |
| Detections.DeliveryDetects | scripts/core/node.ts:184-206 | Every task found that a matching event of a committed window asks for has a detection: one of its pull request, of its card, or any task where it has no scope; after the commit it is recorded exactly if it was before, or nothing happened to it and no task queued ahead of it is of its card or pull request |
| Detections.StandsWhenReached | scripts/core/node.ts:391-394 | What a commit records on its way changes whether a later task stands exactly by queueing a new task of the same card or pull request |
| Detections.RecordsTheStanding | scripts/core/node.ts:383-386 | A commit adds the records of exactly the detections that stand when they are reached |
| Detections.OnePerCard | scripts/core/node.ts:380-394 | A live delivery queues no two new tasks of one card or of one pull request |
| Detections.TickDetects | scripts/core/node.ts:403-407 | A tick records exactly the tasks found that stood before it queued any |
| MachineSessions.StepKeepsSound | scripts/core/machine-sessions.ts:142-183 | A step of any claim keeps, exactly unless it is one of the two races: a counting claim remembers every live claim as old as its own, a claim told `claimed` counted all of them |
| MachineSessions.SoundWithoutRaces | scripts/core/machine-sessions.ts:142-183 | That holds throughout a run exactly when no step of it is such a race |
| MachineSessions.ToldWithinLimit | scripts/core/machine-sessions.ts:153-161 | In such a state the youngest live claim told `claimed` counted the others, so they are within the limit |
| MachineSessions.NeverOverTheLimit | scripts/core/machine-sessions.ts:142-175 | At every moment of every interleaving without the two races, the live claimants told `claimed` number at most the limit |
| MachineSessions.ReleaseFrees | scripts/core/machine-sessions.ts:123-126 | A release leaves no file of the claimant and the live claims of all others |
| MachineSessions.ReleasedSlotIsClaimed | scripts/core/machine-sessions.ts:108-162 | While one slot is left it goes to the first that calls, the second is refused, and told `claimed` once the first has released |
| MachineSessions.StartedHandsOver | scripts/core/machine-sessions.ts:116-121 | A session handed over to a live process is a live claim, as old as the claim was |
| MachineSessions.AgainIsTold | scripts/core/machine-sessions.ts:142-148 | A claimant that holds a live claim is told `claimed` again, and no file moves |
| MachineSessions.YieldFrees | scripts/core/machine-sessions.ts:155-159 | A claim that counts too many takes its own file back and no other |
| MachineSessions.CrashLeavesTheFiles | scripts/core/machine-sessions.ts:142-162 | A call that is cut off leaves every file and every live claim as it was |
| MachineSessions.DeathEndsItsClaims | scripts/core/machine-sessions.ts:177-179 | The live claims of a process end with it |
| MachineSessions.UninterruptedCall | scripts/core/machine-sessions.ts:142-162 | A call nobody interrupts is told `claimed` exactly when fewer live claims than the limit stand, and leaves exactly the live files and its own |
| MachineSessions.CountsTheLive | scripts/core/machine-sessions.ts:177-186 | A count nobody interrupts sees exactly the live claims |
| MachineSessions.SweepRace | scripts/core/machine-sessions.ts:164-169 | A sweep that removes a file written after it read the dead one leaves two sessions under a limit of one |
| MachineSessions.HandoverRace | scripts/core/machine-sessions.ts:118-123 | A session handed over between the reading and the probe of a count leaves two sessions under a limit of one |
| Assignments.Conservation | scripts/ci/shard.ts:22-27 | The loads of the shards add up to the weight placed, the tallies to the items placed |
| Assignments.GreedyBalance | scripts/ci/shard.ts:22-27 | Placing on the lightest keeps any two shards within the heaviest item placed |
| Assignments.OptimalOnHeavyItems | scripts/ci/shard.ts:18-29 | While every item is heavier than a third of the bound, the greedy split fits wherever any split does |
| Assignments.GrahamBound | scripts/ci/shard.ts:18-29 | No shard of the greedy split exceeds (4 - 1/m)/3 of the heaviest shard of any other assignment |
| Shards.NewTestWeightIsUpperMedian | scripts/ci/shard.ts:8-11 | The weight of a new test is the upper median of the measured ones, raised to the minimum |
| Shards.WeightIsPositive | scripts/ci/shard.ts:13-16 | No file weighs less than the minimum |
| Shards.MeasuredWeight | scripts/ci/shard.ts:13-16 | A measured file has its measure, and no less than 0.1 |
| Shards.UnmeasuredWeight | scripts/ci/shard.ts:13-16 | Any other has the weight of a new test, which is 1 while nothing is measured |
| Shards.RankedSays | scripts/ci/shard.ts:6-21 | Files are dealt heaviest first, and those of one weight in the order of their paths |
| Shards.RankedDependsOnTheSet | scripts/ci/shard.ts:21 | The order of dealing depends on the set of files alone |
| Shards.Lightest | scripts/ci/shard.ts:23 | The first of the lightest shards |
| Shards.BalanceShards | scripts/ci/shard.ts:18-29 | The loop over totals gives the greedy split; it throws exactly for files and no shard |
| Shards.BalancedIsPartition | scripts/ci/shard.ts:18-29 | Every file is on exactly one shard, once, and nothing else is |
| Shards.BalancedSpread | scripts/ci/shard.ts:18-29 | The heaviest and the lightest shard differ by at most the heaviest file |
| Shards.BalancedWithinGraham | scripts/ci/shard.ts:18-29 | Graham's bound for balanceShards against every other partition of the same files |
| Shards.BalancedDependsOnTheSet | scripts/ci/shard.ts:18-29 | Shards computed separately from the same set of files fit together |
| Layers.ReverseGraph | scripts/ci/layers.ts:86-93 | A file is listed under another exactly when it imports it |
| Layers.Dependents | scripts/ci/layers.ts:95-107 | Exactly the changed files and the files with an import path to one, on cyclic graphs too |
| Layers.SelectRun | scripts/ci/layers.ts:138-164 | The run the selection rules give, full or of the closure's layers and tests |
| Layers.SelectedSays | scripts/ci/layers.ts:138-164 | Exactly when a run is full, and else exactly its tests and layers: those that are, or import however far, a changed file, a file the layer map counts with it, or one summoned for one of seven reasons |
| Layers.SelectionIsClosed | scripts/ci/layers.ts:138-164 | A run that is not full contains every test that imports a changed file, however far |
| Layers.SelectionGrows | scripts/ci/layers.ts:138-164 | Adding changed paths to some never shrinks the tests, a full run being the top |
| Layers.WindowGate | scripts/ci/layers.ts:166-175 | The gate of a window sets the package manifest aside and adds the readers of its scripts |
| Layers.GateSays | scripts/ci/layers.ts:166-175 | The gate is the run of the paths but the manifest, or of none, and with the manifest the readers of its scripts besides |
| Layers.GateGrows | scripts/ci/layers.ts:166-175 | The gate too never shrinks with more changed paths |

## Left out

- Log ids: an event's id is its position in the log; gaps that AUTOINCREMENT may leave are not modelled.
- SQLite, JSON, SHA-256, time and regular expressions: tables are maps, transactions are atomic steps, times are
  naturals, hashes are injective, and an expression ending in `$` is the leftmost place from which it matches the rest.
- Folds that read the log beyond their own event (`closedByReport`, `witnessedOnMain`, `sharedByADecision`): what they
  find is a parameter of the event, and the replay theorems do not cover them.
- The candidate queries and `deriveQueues`, role, decision and plan folds, owner waits, card bodies, board pages,
  commands, git and GitHub: policies and I/O outside the kept invariants, or easy table updates.
- Tasks.RowIsItsHistory: dedupe keys of task events are kept as their parts, not as printed text; whether `identityOf`
  accepts an event is a flag of the event there, and `TaskKeys` says when it is set.
- LeaseProtocol.NextKeeps: events that other folds project and that a transaction appends beside a task event take part
  only as log entries with keys of their own. Whether the folds accept an event of the queue is a parameter of the
  action; a supersede of a task with a row and the events of a lease are taken as accepted, which
  `TaskKeys.LeaseEventAccepted` proves with its one exception.
- LeaseDb.Db.FailTask: whether a heartbeat is fresh, a retry time is named or an update waits is read by queries and
  passed in.
- LeaseDb.Db.CompleteTask: what `stillDue` checks is left to the caller.
- Holders.NeverFreesALivingHolder: the alarms of `judgeHolders` are modelled in `Judging`, for a call nobody interrupts.
- TaskKeys.ReadsStop: stops are unbounded naturals; a stop above 2^53 - 1, which loses digits as a number, is not
  modelled.
- Cards.EarlierLaunchMovesNothing: restricted to cards whose launches run under one task, because the code compares
  numbers only; `AnotherLaunchRestores` shows why. An opening that links the card to another pull request moves it
  whatever generation it carries.
- Cards.LiveIsLinked: the card of a branch and the checks of the payload of an observation are parameters of the event.
- Delivery.DeliveredOnce: one process's loop of turns, slots and leases in flight is not modelled, and the enqueued
  event of a detection is taken as accepted by its fold.
- Observations.RecordedWithoutStutter: a snapshot names each open pull request once, and nobody else writes
  observations or their keys.
- Observations.OneClose: imported events, which no fold reads, are not in its log.
- BusState.EveryRejectionHasItsRecord: holds while no other event takes a key that begins with `reducer.rejected:`, as no
  writer does; without that condition a rejection has an event under its key, whatever its type.
- Observations.TickRecordsAll: holds while closes and advances of main alone take their keys.
- Reducer.BusDb.BuildBeside: nobody else writes between its transactions; `BusState.EveryRunIsFaithful` covers every
  interleaving of them.
- Reducer.BusDb.Reduce: nobody else writes between its transactions; `BusState.EveryRunIsFaithful` covers every
  interleaving of them. The type of the records is promised under the condition of
  `BusState.EveryRejectionHasItsRecord`.
- LeaseDb.Db.LeaseQueued: whether the task waits until later is passed in; `GrantOrder` models when it does.
- LeaseDb.Db.Failed: the heartbeat and the waiting update that the code queries for are passed in.
- LeaseDb.Db.Expired: the rows the query selects and what is read of each are passed in.
- FailureBudget.EveryRunInBudget: that one process requeues is a condition on the run (`OneRequeuer`): the reading of an
  answer and its requeue are one call of `deriveQueues`, requests are carried out earlier in the same tick, and a lock
  lets one such process serve a bus. The lock is not modelled.
- LegacyWithdrawal.WithdrawalKeepsIff: the command is run by hand; it is no step of the runs of `LeaseProtocol`.
- Judging.JudgeHolders: the rows and what the system says of each process are passed in, and nobody interrupts the call;
  `Holders` covers every interleaving.
- TasksProjection.SkippedWithoutTheGuard: no writer appends a task event so; it shows what the guard is for.
- TasksProjection.LiveTasks: how an event reads as one of a task and how a row is kept as text are parameters.
- MachineSessions.NeverOverTheLimit: the limit is fixed, a claimant has one call in flight, the claimed pid is the
  calling process or one it hands over to, pids are not used again, file operations do not fail (the code answers
  `claimed` when they do), and the files of waiting claimants are not modelled.
- Shards.BalancedWithinGraham: weights are exact reals where the code adds floating-point numbers.
- Layers.WindowGate: the tests and layers of a gate are sets; their sorted order is not modelled.
- Layers.SelectRun: the tests and layers of a run are sets; their sorted order is not modelled. Path patterns, the layer
  map and the texts of the tests are parameters.
