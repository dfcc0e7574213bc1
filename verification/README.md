# Channel digests: a verified model

The service acquires public channel posts for a digest run, selects the newest ones into a canonical manifest,
asks Knowledge for a recap, and settles the run when the answer arrives. This project models that service in
Dafny and proves what its transactions keep under every interleaving, crash, wait and redelivery. The end-to-end
result is `TruthfulCompletion.CompletedRunsAreTruthful`: a run that ends `completed` really covered its window. Its
converse is `TickOutcomes.CompletesExactlyWhenRead`: a run that covered its window ends `completed`.

## How the model is built

| layer | files |
|---|---|
| orders and tables | `Order.dfy` (`order by ... limit`), `Schema.dfy` (the tables as values) |
| the walk over one channel | `Provider.dfy` (page contract), `Revisions.dfy` (revision store), `Walk.dfy` (one step per provider answer or statement) |
| transactions as functions | `Coordinator.dfy` (with the reports), `Intake.dfy`, `Schedule.dfy`, `Retention.dfy` (with the reaper), `Manifest.dfy`, `Selection.dfy` |
| the interleaved service | `Machine.dfy`: the executor tick as a local state machine, facts in flight, refusals, reaper, sweeps, clock |
| proofs about a walk | `Coverage`, `Bounds`, `Exactness`, `SmoothWalks`, `Waits`, `Withdrawal` |
| proofs about transactions and texts | `ManifestText`, `IntakeProofs`, `ScheduleProofs`, `RetentionProofs`, `Losses` |
| invariants of every step | `Evidence`, `EvidenceSteps`, `Stored`, `Truth`, `TruthSteps` |
| results over whole executions | `Lifecycle`, `StoredLifecycle`, `Deadlines`, `Ticks`, `Citations`, `Reporting`, `RetentionLifecycle`, `ScheduleLifecycle`, `Delivery`, `FactDelivery`, `Settling` |
| the code's own form | `Database.dfy` (tables as fields), `Acquisition.dfy`, `RunExecutor.dfy`, `DigestCoordinator.dfy`, `CommandIntake.dfy`, `Upkeep.dfy`: classes whose methods change the tables statement by statement, with loops and rollbacks |

Each SQL transaction is one function on the tables and one method of a class; the method is proved to leave
exactly the tables and the answer of the function, and the theorems are about the functions. Reads that the code
makes before a transaction are steps of their own, so they may be stale. `Walk.Step` and `Executor.ExecStep` make
the loops of `execute` and `execute_one` interruptible anywhere; the methods `AcquisitionEngine.Execute` and
`RunExecutor.ExecuteOne` log what they met, and the log replays to the tables they leave.

A uniqueness constraint of the schema is the key of a map; one over other columns is a precondition of the methods
that rely on it and a proved invariant of every reachable state (`StoredSpec.StoredInv`).

Instants are whole seconds, identities are integers ordered as the database orders them, SHA-256 and the canonical
rendering of a manifest are injective constructors, and the verdicts of the contract crate are parameters.
A page is the first `limit` posts below a cursor of a channel whose ids fall and whose times do not rise.

## What is assumed of the rest of the platform

- An operation belongs to one command, however often it is delivered, and Knowledge sends facts only about recap
  requests that were committed (`Machine.Plausible`).
- There is one executor. Everything else may run at the same time and more than once.
- Truthful completion: while the executor works on the run the channels and the owner's subscriptions stay, the
  provider answers with the channel, and no sweep of bodies reaches the window; a post of the run that was stored
  before a tick can be cited when the tick starts (`TruthSpec.Fixed`). That the run's own walk stores what can be
  cited and withdraws none of it is proved, not assumed (`Citing.WalkCites`).
- Bounded lifetime: the reaper runs at least every `gap` seconds and never finds more than one batch overdue
  (`DeadlineSpec.Prompt`).

## What turned out to need a condition

- A built manifest is the same for every order of its sources if and only if contract sources that share their
  order key are equal (`OrderMattersExactlyWhen`). All negative message ids share one key component (`u128::MAX`),
  so two negative ids of one channel and instant keep their order of arrival: `NegativeIdsKeepArrivalOrder` is a
  concrete pair, under a contract that accepts every value. Provider ids are positive, so negative ids reach only
  direct callers of the public builder; for distinct messages of the provider the keys differ
  (`DistinctMessagesSuffice`).
- A list with a source that its own checks refuse gets the same error in every order if and only if all such sources
  have one error, or a bound or the window refuses the list before (`ErrorMattersExactlyWhen`). One body over the
  bound and one wrong link answer "limit" or "invalid", whichever comes first (`TwoErrorsShowOrder`).
- A completion delivered again, whose flag and reads lie before or after the settlement in any way, is answered
  "replayed" if and only if its lookup comes after the settlement or its verification before it, and "invalid"
  otherwise (`RedeliveryAnswers`): a delivery that looked up too early to find the result and verifies too late to
  find the run waiting is refused. It changes nothing in any case (`RedeliveryChangesNothing`).
- A failure delivered again is answered "replayed" if and only if its run has the manifest at the check
  (`FailureRedeliveryAnswers`). An acknowledged completion is always decided (`AckedCompletionIsDecided`); a failure
  that the check acknowledges is decided if and only if the run has a result. A run that the deadline failed has
  none, so its late failure is acknowledged and never decided (`CheckedFailureIsDecidedExactlyWhen`).
- A short body batch leaves no old body among the rows it saw, and a short text batch none among the texts of the runs
  settled by then, whatever runs between and after the two. At a later state an old body is left if and only if a row
  stored since holds it: a walk over an old window stores one (`ShortSweepLeavesNothing`).
- A cited message carries the body its post has now if and only if the row of that body can be cited and no other row
  of the message that can be was observed later (`CitedBodyIsCurrent`). A post edited and edited back converges on its
  first row and is cited with the body between (`EditedBackCitesBetween`).
- The adapter narrows the page cursor to 32 bits, falls back to the newest post, and caps the page at 100. It meets
  the page contract on every channel if and only if the limit is zero, or at most 100 with no cursor or one from 1
  to 2^31 - 1 (`MeetsContractExactlyWhen`; a post at the cursor's own id and 101 posts are the inputs that fail).
- A settled run is completed if and only if the recap omitted nothing, every walk of the tick that committed its
  manifest read its channel to the end, and no message that could be cited was dropped (`CompletesExactlyWhenRead`). A
  walk that nothing disturbs, over dated posts, does not read its channel to the end if and only if the channel holds
  2000 posts and none of the newest 2000 is older than the window (`ExecutorReads`); after a crash it may report a partial
  result although the channel is shorter, since it reads again from the newest post with the pages that are left
  (`ResumedWalkMayBePartial`).
- A walk that reports no partial result covered its window if and only if its page limit and its page size are
  positive (`CompleteMeansCoveredExactlyWhen`), as the executor's 20 and 100 are. With a page limit of zero it
  reports itself complete without reading; with a page size of zero the empty page proves every message gone, so it
  withdraws the whole channel and reports itself complete (`NoPageIsComplete`, `EmptyPageWithdrawsAll`).

## Model

| member | source | states |
|---|---|---|
| Provider.FetchPublicPosts | src/provider.rs:243-273 | the loop reads exactly the page of the specification function, for every cursor and limit |
| PageContract.MeetsContractExactlyWhen | src/provider.rs:243-273 | whatever the channel holds the adapter serves the first `limit` posts below the cursor, and a next cursor exactly when the page is full, if and only if the limit is zero, or at most 100 with no cursor or one in 1..2^31-1 |
| Coverage.PageClosesGap | src/acquisition.rs:128-153 | a stored page extends "everything at or above the cursor is stored" down to its next cursor, or to the whole window when it is short or holds a post older than the window |
| Coverage.StorePostMoves | src/acquisition.rs:175-219 | after visiting a post the walk moves on or gives up; a storable in-window post is in the store then, newly or from before |
| Coverage.SavedLeaseSound | src/acquisition.rs:316-355 | a checkpoint never promises more than what is stored |
| Coverage.ResumeSound | src/acquisition.rs:284-314 | resuming from a sound checkpoint is sound, with the two meanings of a missing cursor told apart by the page count and the state |
| Coverage.StepSound | src/acquisition.rs:90-169 | every step keeps cursor, checkpoint and half-stored page sound and removes no row |
| Coverage.SoundGrows | src/revisions.rs:71-83 | other writers, which only add rows, keep a walk sound |
| Coverage.AttemptsSound | src/acquisition.rs:94-169 | any number of attempts cut off anywhere keeps the checkpoint sound |
| Coverage.CompleteWalkCovers | src/acquisition.rs:154-169 | an attempt that reports no partial result, after any number of crashed or waiting ones, leaves a row for every storable in-window post |
| Bounds.CompleteMeansCoveredExactlyWhen | src/acquisition.rs:94-169 | a report without partial means the window is covered, over every channel and every schedule of attempts, if and only if both page bounds are positive, for any request that can want a post |
| Bounds.NoPageIsComplete | src/acquisition.rs:102-169 | with a page limit of zero an attempt reads nothing, changes no row and reports itself complete |
| Bounds.EmptyPageWithdrawsAll | src/acquisition.rs:357-372 | with a page size of zero an attempt withdraws every row of the channel, whatever it holds, and reports itself complete |
| Exactness.PageFollowsPlan | src/acquisition.rs:102-153 | reading on from a cursor follows the closed-form plan of the uninterrupted walk |
| Exactness.PagePurges | src/acquisition.rs:227-258 | after its withdrawal no unwithdrawn stored message of the page's stretch is missing upstream |
| Exactness.StepExact | src/acquisition.rs:90-169 | every step keeps rows and withdrawals inside the plan and what was passed stored and purged |
| Exactness.EndedWalkMatchesPlan | src/acquisition.rs:94-169 | a schedule that ended by itself added exactly the wanted posts of the planned region and withdrew exactly its messages the channel lacks; a walk the page limit cuts never calls itself complete |
| Exactness.CrashesChangeNothing | src/acquisition.rs:134-163 | any two schedules that ended leave the same (message, digest) rows and the same withdrawn messages |
| Exactness.LiveIsNotAbsent | src/acquisition.rs:357-372 | a page never proves a message gone that the channel holds and does not mark deleted, bodiless and oversized posts included |
| SmoothWalks.UndisturbedWalkReports | src/acquisition.rs:90-169 | an attempt that nothing disturbs fails if and only if a post it reads could be stored but has no date; otherwise it reports a partial result if and only if all the pages it may read are full and none of their posts is older than the window, and counts every wanted post |
| SmoothWalks.ExecutorReads | src/executor.rs:252-263 | an undisturbed walk of the executor is partial if and only if the channel holds 2000 posts and the newest 2000 are not older than the window |
| SmoothWalks.ResumedWalkMayBePartial | src/acquisition.rs:302-313 | a concrete attempt that resumes after a crash between the last page and the last checkpoint, and reports a partial result of a channel an undisturbed walk reads completely |
| Waits.WaitHoldsRun | src/acquisition.rs:284-355 | a provider wait keeps the position, holds back exactly its run for the seconds asked, at least one and at most an hour, and defers the attempt until then |
| Waits.RefusalEnds | src/acquisition.rs:116-131 | a refusal fails a walk that has read no page and ends any other as partial |
| Waits.FailedStatementEnds | src/acquisition.rs:90-169 | a statement that is not carried out ends the walk and changes nothing |
| Waits.FirstAttemptBegins | src/provider.rs:27-39 | the first attempt begins at the newest post exactly under a valid name, and fails touching nothing under any other |
| Waits.CheckpointReleasesRun | src/acquisition.rs:316-355 | any other checkpoint keeps cursor and counters and holds nothing back |
| Waits.LastCheckpointTells | src/acquisition.rs:154-169 | the last checkpoint says completed exactly when the report is not partial, and otherwise whether the page limit or the provider ended the walk |
| Waits.AttemptGoesOn | src/acquisition.rs:302-313 | a completed walk reads nothing again, any other reads on below its cursor or closes when its pages are used up |
| Waits.PagesAreCounted | src/acquisition.rs:94-131 | an attempt counts the pages it reads on top of those of the attempts before |
| Counts.RevisionsAreCounted | src/acquisition.rs:175-219 | however the channel changes between pages, an attempt counts each content of a message it wants once, on top of what was counted before |
| Withdrawal.WithdrawalIsJustified | src/acquisition.rs:227-258 | every withdrawal of an attempt is proved by one page of it, asked for below the cursor of that moment |
| Withdrawal.WithdrawalIsSound | src/acquisition.rs:227-258 | while the channel changes arbitrarily between requests, what a step withdraws was absent or marked deleted when the page of that step, the last one fetched, was served |
| Withdrawal.SomeStepWithdrew | src/acquisition.rs:227-258 | what an attempt withdrew, one of its steps withdrew |
| Withdrawal.NothingBelowThePages | src/acquisition.rs:116-130 | an attempt stopped by the page limit or the provider withdraws nothing below the lowest post it read |
| Withdrawal.RangesTile | src/acquisition.rs:357-372 | the proved ranges of successive pages are disjoint and cover exactly the ids at or above the last lower bound |
| Withdrawal.RangesAreTiles | src/acquisition.rs:94-153 | over a fixed channel the ranges that the pages of an attempt prove, in the order fetched, are the first tiles below the cursor it resumed at |
| Withdrawal.AttemptTiles | src/acquisition.rs:94-153 | so the ranges of an attempt are disjoint and cover exactly the ids from the last lower bound up to its first cursor |
| ManifestProofs.OrderMattersExactlyWhen | src/manifest.rs:84-142 | a built manifest is the same for every permutation of its sources if and only if sources that share their order key are the same contract source |
| ManifestProofs.OrderDoesNotMatter | src/manifest.rs:84-142 | where equal keys mean equal contract sources, any permutation gives the same verdict and, when built, the same manifest |
| ManifestProofs.DistinctMessagesSuffice | src/manifest.rs:186-193 | distinct non-negative message ids give distinct order keys, so the order does not matter |
| ManifestProofs.EqualKeysShowArrivalOrder | src/manifest.rs:115 | in any list, exchanging two sources that share their key and differ as contract sources changes the built manifest |
| ManifestProofs.NegativeIdsKeepArrivalOrder | src/manifest.rs:186-193 | a concrete pair with negative ids whose two orders give two manifests |
| ManifestProofs.ErrorMattersExactlyWhen | src/manifest.rs:92-114 | a list with a refused source is answered alike in every order if and only if its refused sources have one error, or a bound or the window refuses it first |
| ManifestProofs.TwoErrorsShowOrder | src/manifest.rs:149-160 | a concrete pair whose two orders give two errors |
| ManifestProofs.SortAscends | src/manifest.rs:115 | the sort leaves the sources ascending by publication, channel, message id and index |
| ManifestProofs.SortIsStable | src/manifest.rs:115 | sources with the same key keep their order |
| ManifestProofs.MessagesAreOfText | src/manifest.rs:95-141 | the recorded messages are exactly those of the text, each once, ascending, and both counts and the digest are of that text |
| TextProofs.TextCitesSources | src/manifest.rs:105-172 | the text of a built manifest names its identity, owner, run and window and cites exactly the given sources, each once with its revision, message, instant, whole body, digest, link, index and label, in the order of the keys |
| TextProofs.LabelTells | src/manifest.rs:165-172 | the label is the trimmed display name, or the username when nothing is left of it, cut after 80 characters |
| TextProofs.BuildAnswers | src/manifest.rs:92-160 | the exact verdict: bounds, window, the first faulty source and the contract decide in this order |
| Citations.ManifestsCiteRows | src/coordinator.rs:118-199 | in every reachable state a manifest is of its run and owner and its recap request carries its identity, hash and counts and the operation of the run; its text is the one hashed and counted, and the content of each source is the body of a digest stored for its message, published inside the window |
| SelectionProofs.SelectionKeepsNewest | src/executor.rs:307-380 | the kept rows are latest live revisions of distinct messages, as many as the cap or the window allows, ascending by publication; none left out was published after a kept one, and on a tie it has the higher channel, then the lower message id, then the lower revision id |
| SelectionProofs.RowNumberCounts | src/executor.rs:320-333 | the revision index is one plus the number of earlier in-window revisions, withdrawn ones included |
| SelectionProofs.SelectionRefinesNewest | src/executor.rs:307-380 | each source tells the columns of its row and channel and the number of earlier revisions, publication never falls along the sources, nothing left out was published after one of them, and `eligible` exceeds their number exactly when a citable message was dropped |
| SelectionProofs.DistinctOnKeepsFirst | src/executor.rs:315-339 | `distinct on` keeps the first row of each (channel, message) group and no other |
| SelectionProofs.CitedIsLatest | src/executor.rs:315-339 | of a selected message the cited revision is the latest one that can be cited, and no other |
| Citing.CitedBodyIsCurrent | src/executor.rs:315-339 | a selected message carries the body its post has now if and only if the row of that body is the latest citable one |
| Citing.EditedBackCitesBetween | schema.sql:104-134 | a post edited and edited back adds no row and is cited with the body between |
| Order.FirstSize | src/maintenance.rs:29-48 | a batch holds `limit` rows, or all of them when there are fewer |
| Order.FirstDrains | src/maintenance.rs:29-48 | a batch of j and then a batch of k of what is left are the first j + k |
| Order.FirstIsDownwardClosed | src/reaper.rs:62-72 | nothing outside a batch comes before a row inside it |
| EvidenceTransactions.BeginStep | src/executor.rs:188-217 | beginning moves one accepted run together with its running report |
| EvidenceTransactions.CommitManifestStep | src/coordinator.rs:118-199 | manifest, recap request and state of one run change together or not at all |
| EvidenceTransactions.CompleteEmptyStep | src/coordinator.rs:208-243 | an empty completion settles an acquiring run with its report and no evidence |
| EvidenceTransactions.FailStep | src/coordinator.rs:251-290 | a failure settles an open run with its one failed report |
| EvidenceTransactions.SettleCompletionStep | src/coordinator.rs:398-451 | with the flag equal to the stored one, outcome, state, result and report stay in agreement |
| EvidenceTransactions.SettleFailureStep | src/coordinator.rs:489-548 | a failure fact settles state, result and report of a waiting run together |
| EvidenceTransactions.RecordStep | src/executor.rs:286-300 | recording the flag changes nothing else, and only before there is a manifest |
| EvidenceBatches.AcceptRunStep | src/intake.rs:310-408 | accepting a run adds at most that run, its decision and its queued report |
| IntakeProofs.RunAnswers | src/intake.rs:310-408 | the exact answer to a run command: refused when invalid or its key belongs to another run, replayed when decided, a storage error when its identity is taken or its window empty, otherwise applied |
| IntakeProofs.RunApplies | src/intake.rs:346-408 | an applied run command has its run with every column, its decision and, on demand, its queued report |
| EvidenceBatches.OnDemandIsNew | src/intake.rs:346-366 | an undecided on-demand command never meets an existing run under its natural key |
| EvidenceBatches.AcceptSubscriptionStep | src/intake.rs:131-223 | a subscription command touches no run and reports only its own operation |
| IntakeProofs.SubscriptionAnswers | src/intake.rs:131-223 | the exact answer to a subscription command: refused when invalid or at the limit, replayed when decided, otherwise applied |
| IntakeProofs.SubscriptionApplies | src/intake.rs:170-223 | an applied subscription command is in effect, recorded and reported |
| EvidenceBatches.RejectStep | src/intake.rs:268-303 | a refusal records one decision and reports only its own operation |
| IntakeProofs.RejectionIsRecorded | src/intake.rs:268-303 | a refusal records its reason and reports the operation as failed, once |
| IntakeProofs.OccurrenceIsRecorded | src/coordinator.rs:579-627 | an accepted occurrence records its decision and reports its own operation, and one that is not accepted changes nothing |
| EvidenceBatches.AcceptOccurrenceStep | src/coordinator.rs:559-627 | an occurrence adds accepted scheduled runs of its operation and nothing to other runs |
| EvidenceBatches.BatchIsReaped | src/reaper.rs:62-72 | the reports of a sweep go to exactly the runs it failed |
| EvidenceBatches.ReapFine | src/reaper.rs:59-102 | a sweep fails open runs only, each with one failed report, and keeps all evidence in order |
| EvidenceSteps.ExecOkAround | src/executor.rs:110-146 | while other actors move, the run the executor works on at most fails |
| EvidenceSteps.HandlersOkAround | src/coordinator.rs:320-333 | the flag a fact read of a run with a manifest stays the stored one |
| EvidenceSteps.ExecStepKept | src/executor.rs:110-146 | every step of a tick keeps tables and the executor's knowledge right, also when the reaper failed the run in between |
| EvidenceSteps.NextKept | src/coordinator.rs:118-627 | every action of every actor keeps all invariants and changes nothing it may not change |
| Lifecycle.EvidenceMatchesState | src/coordinator.rs:118-199 | in every reachable state manifests, recap requests and results are exactly those the run states stand for, and a result's outcome is its run's state |
| Lifecycle.SettledForGood | src/coordinator.rs:414-425 | a settled run keeps state and result under any interleaving |
| Lifecycle.ReportsTrackState | src/reports.rs:113-134 | an on-demand operation has exactly one terminal report if and only if its run is settled, with the matching status; queued always; running exactly when acquisition began |
| Lifecycle.ScheduledRunsAreSilent | src/reports.rs:139-153 | once a scheduled run exists the reports of its operation never change |
| Lifecycle.OutcomesAgree | src/coordinator.rs:320-333 | outcome, state and report of a settlement say completed exactly when nothing was omitted and the flag stored at that moment is false, and the report warns of exactly the causes that apply |
| Reporting.ReportsTellRuns | src/coordinator.rs:677-689 | in every reachable state a run has a failure exactly when it failed, its result agrees, and each report of its operation carries the owner, stage, failure, retry advice code by code, result and warnings that go with what the run came to |
| Settling.FirstCompletionSettles | src/coordinator.rs:301-451 | a completion delivered for the first time about a run that waits for exactly this manifest settles it: completed when nothing was omitted and the stored flag is false, otherwise partial, with its result and decision |
| Settling.FirstFailureSettles | src/coordinator.rs:453-548 | a failure delivered for the first time about such a run fails it |
| Settling.LookUpAnswers | src/coordinator.rs:334-367 | the lookup finds nothing, the result of a failure, or whether the stored result is exactly the one delivered |
| Settling.CommitReplays | src/coordinator.rs:128-152 | a manifest committed again is replayed, another one of the same run refused, and neither changes anything |
| Settling.CommitAppliesExactlyWhen | src/coordinator.rs:118-199 | a first manifest is committed exactly for an accepted or acquiring run of its owner within the bounds of the schema and under a fresh identity |
| Settling.EarlyRunsOnly | src/coordinator.rs:208-290 | a run is completed without a recap, or failed by the executor, exactly when its owner asks and it does not wait for a recap yet |
| StoredWrites.AppendOk | schema.sql:104-134 | an append keeps identities unique and every row's digest, link and size right, and changes no existing row |
| StoredWrites.WithdrawTextsOk | src/revisions.rs:103-140 | a withdrawal takes the text of every manifest that cites a withdrawn message |
| StoredWrites.SelectionFits | src/manifest.rs:149-160 | what is selected from stored rows passes the builder's size, link, digest and limit checks |
| StoredWrites.SetSubscriptionOk | schema.sql:34-84 | a change keeps at most twenty active subscriptions an owner, unique usernames, and every first activation |
| IntakeProofs.SubscriptionTakesEffect | schema.sql:34-84 | after a change the owner watches the channel of the lower-cased name if and only if asked to, every other channel and owner is as before, and a new row carries the instant as its first activation |
| IntakeProofs.LimitHoldsExactlyWhen | schema.sql:64-76 | a change is refused exactly when it would activate a twenty-first subscription |
| StoredSteps.NextKeepsStored | src/revisions.rs:103-140 | every action keeps rows, texts, subscriptions and the executor's selection in order |
| StoredLifecycle.CitedMessagesAreLive | src/executor.rs:332 | in every reachable state each message of a manifest with its text has a revision that is not withdrawn, and text and minimization exclude each other |
| StoredLifecycle.NothingComesBack | schema.sql:244-247 | bodies and texts never come back, withdrawn rows have no body, and withdrawal and minimization instants are written at most once |
| StoredLifecycle.SubscriptionsAreBounded | schema.sql:49-84 | at most twenty active subscriptions an owner, so the executor's `limit 20` drops no channel; first activation never changes |
| StoredLifecycle.BuilderNeverRefuses | src/manifest.rs:92-102 | for a recorded selection the builder succeeds exactly when the contract accepts the value |
| StoredLifecycle.RedeliveryAnswers | src/coordinator.rs:301-433 | a completion delivered again, its flag and reads placed anywhere around the settlement, is answered Replayed if and only if its lookup is after the settlement or its verification before it, and Invalid otherwise |
| StoredLifecycle.RedeliveryChangesNothing | src/coordinator.rs:398-433 | after the settlement the transaction of the same completion changes nothing, whatever flag it was read with |
| Deadlines.NextTicks | src/executor.rs:190-192 | in every step an open run keeps state and instant or moves forward and takes the instant, and a new run carries the instant |
| Deadlines.MovesAreFew | src/executor.rs:190-192 | over a whole execution a run changes its state at most three times, and an open one has done so at most twice |
| Deadlines.OpenRunsAreYoung | src/reaper.rs:59-79 | with a prompt reaper every run settles within three deadlines and gaps of its creation |
| Deadlines.ReapedRunsAreOld | src/reaper.rs:62-72 | only open runs older than the deadline are reaped |
| Truth.NameOfWalk | src/acquisition.rs:16-33 | what a walk promises does not depend on the username it asked for |
| Truth.CountTruth | src/executor.rs:252-276 | a channel counted without a gap is covered |
| Truth.SelectionTells | src/executor.rs:131-141 | a selection that dropped nothing from covered channels holds every post the run owes |
| Truth.CommitTruth | src/executor.rs:386-427 | the commit carries a complete selection into the manifest, or completes empty only when nothing is owed |
| TruthSteps.ExecTruth | src/executor.rs:110-146 | every executor step, crashes included, keeps the promise to the run |
| Citing.WalkCites | src/acquisition.rs:175-258 | a step of the run's own walk leaves every stored post the run owes with a row that can be cited: what it stores has its body and lies in the window, and its withdrawals spare it |
| Citing.SweepCites | src/maintenance.rs:29-48 | a body sweep that does not reach the window spares what can be cited |
| TruthfulCompletion.CompletedRunsAreTruthful | src/executor.rs:110-146 | a run that ends completed has every storable in-window post of every watched channel as a message of its manifest, or there is none if it completed without one |
| TickOutcomes.TicksTell | src/executor.rs:240-300 | all through a tick the counters are the numbers of walks that ended, reported and wait, the flag says whether one left part of its channel unread, and from the selection on whether that was so or a citable message was left out |
| TickOutcomes.TickHasStart | src/executor.rs:110-146 | whatever the executor knows of a run it learned in a tick that began with a listing |
| TickOutcomes.ChosenBegins | src/executor.rs:188-217 | an accepted run moves to acquiring with its report unless it was settled meanwhile, an interrupted one goes on |
| TickOutcomes.WalksConclude | src/executor.rs:271-279 | a walk that waits ends the tick, walks of which none reported fail the run, any other go on to the selection |
| TickOutcomes.TickFails | src/executor.rs:120-127 | when no walk reported the run fails as unavailable |
| TickOutcomes.TickCommits | src/executor.rs:386-427 | an acquiring run without sources ends completed if and only if every channel was read completely, a refused manifest fails it, and otherwise it waits, marked incomplete exactly when a channel was not read completely or a message was dropped |
| TickOutcomes.CompletesExactlyWhenRead | src/executor.rs:110-146 | the converse of truthful completion: a settled run is completed if and only if the recap omitted nothing, every walk of its tick read its channel to the end, and no citable message was dropped |
| Drain.SweepsDrainBodies | src/maintenance.rs:29-48 | k sweeps of limit L minimize exactly the first kL expired bodies of the order and touch no other row |
| Drain.OldestBodiesFirst | src/maintenance.rs:33-41 | a body left expired was published no earlier than any taken, with the higher identity at the same instant, and a taken one was expired and carries the instant of a sweep |
| Drain.SweepsDrainTexts | src/maintenance.rs:58-82 | k sweeps of limit L minimize exactly the first kL expired texts of the order |
| Drain.OldestTextsFirst | src/maintenance.rs:65-75 | a text left expired is of a window that began no earlier than that of any taken, and only texts of settled runs are taken |
| Drain.BodiesDrained | src/maintenance.rs:29-48 | k sweeps of limit L change exactly min(n, kL) of the n rows that are expired |
| Drain.TextsDrained | src/maintenance.rs:58-82 | the same for manifest texts |
| Drain.ExpiredBodiesCount | src/maintenance.rs:33-41 | every expired row counts once |
| Drain.ExpiredTextsCount | src/maintenance.rs:65-75 | every expired manifest counts once |
| RetentionLifecycle.TextsFollowRuns | src/executor.rs:328-333 | in every reachable state a text names its run's window start and cites nothing published before it |
| RetentionLifecycle.ShortSweepLeavesNothing | src/retention.rs:105-122 | with two short batches as separate transactions and anything between and after them: no settled run has an old text right after the text batch, and later an old body is left exactly when a row stored since the body batch holds it, an old text exactly when its run settled since the text batch |
| ReaperProofs.LatestRunsReaped | src/reaper.rs:59-79 | a sweep fails exactly the hundred late runs that moved last the longest time ago, or all of them, at that instant and for the deadline |
| ReaperProofs.ReapedAreReported | src/reaper.rs:80-102 | every on-demand run the deadline failed is reported as failed with a retry offered, and nothing else is |
| Losses.RowTellsPost | src/acquisition.rs:198-215 | a visited post adds at most its own row, with its body, link and instant, observed at the end of the window |
| Losses.RowsChangeBy | src/revisions.rs:103-132 | over every action a stored row changes in two ways only: it is withdrawn exactly when a page proves its message gone, and a sweep of bodies may take an old body |
| Losses.ManifestsChangeBy | src/revisions.rs:119-132 | over every action a manifest changes in two ways only: it loses its text exactly when a page proves one of its messages gone, and a sweep of texts may take that of an old settled run |
| ScheduleProofs.WindowsAreDisjoint | schema.sql:162-177 | scheduled windows are non-empty, at most seven days long and pairwise disjoint, whatever the gaps |
| ScheduleProofs.WindowsTile | schema.sql:162-177 | with gaps of at most seven days every instant from activation or first previous due to the last due lies in exactly one window |
| ScheduleProofs.WindowHolds | schema.sql:162-177 | a window begins at the latest of activation, previous due instant and seven days before its end, or one day before it outside a schedule |
| ScheduleProofs.EarliestIsLeast | src/coordinator.rs:643 | the activation that starts an owner's window is an activation before the due instant of an active subscription of that owner, and no other of that owner is earlier |
| ScheduleProofs.AcceptedOccurrenceReaches | src/coordinator.rs:631-674 | a fan-out gives every owner with an active subscription before the due instant the window since the earliest of its own, and every new run is a fresh one of those |
| ScheduleProofs.FreshOccurrenceApplies | src/coordinator.rs:559-627 | an undecided occurrence under a schedule key is accepted however many owners it reaches, one under another key is invalid, a decided one replayed |
| ScheduleProofs.ReplayAddsNone | src/coordinator.rs:579-596 | a replayed occurrence is answered by its decision, and even without it every insertion is skipped |
| ScheduleLifecycle.NaturalKeysAreUnique | schema.sql:137-155 | in every reachable state no two runs share owner, trigger, key and window |
| ScheduleLifecycle.ScheduledRunsTile | src/coordinator.rs:559-674 | at the end of an execution that accepted occurrences following each other within seven days, for an owner whose earliest active subscription stays, an instant lies inside a stored run the owner got from them if and only if it lies between activation or first previous due and last due, and then inside exactly one |
| Delivery.AtMostOneEffect | src/intake.rs:131-223 | of all transactions about one (subject, key), under any redelivery, at most one changes anything |
| Delivery.AckedIsDecided | src/bus.rs:190-194 | an acknowledged command has a decision under its message identity or key, then and ever after |
| Delivery.RefusalRollsBack | src/intake.rs:170-194 | a refused command, the subscription limit included, rolls back completely and leaves its refusal to a second transaction under the same message and key |
| Delivery.RefusalIsRecorded | src/intake.rs:268-303 | what leaves a refusal changes nothing, and the transaction of the refusal records it with its reason and reports the failure unless the command was decided meanwhile |
| Delivery.DispositionTells | src/bus.rs:190-194 | an occurrence under a wrong key is terminated, a decided command acknowledged and any other asked for again, exactly; what is not acknowledged changed nothing |
| Delivery.CommittedRowsAreSettled | schema.sql:289-299 | no committed inbox row is processing, no message has two decisions, and each transaction records at most its own decision, once |
| FactDelivery.HandlerAnswers | src/coordinator.rs:301-451 | the answer to a completion is the first one its handler gives, at the lookup, the verification or the transaction |
| FactDelivery.FailureRedeliveryAnswers | src/coordinator.rs:453-548 | a failure delivered again, its check placed anywhere around the settlement, is answered Replayed if and only if the run has its manifest at the check, and Invalid otherwise |
| FactDelivery.ResultsAreDecided | src/coordinator.rs:398-451 | in every reachable state each result has its decision, and a failure is decided only with its result |
| FactDelivery.AckedCompletionIsDecided | src/bus.rs:241-269 | an acknowledged completion has a decision under its message identity or its result, then and ever after |
| FactDelivery.AckedFailureIsDecided | src/coordinator.rs:489-548 | the same of a failure its transaction acknowledged |
| FactDelivery.CheckedFailureIsDecidedExactlyWhen | src/coordinator.rs:453-488 | a failure its check acknowledged is decided, then and ever after, if and only if the run has a result |
| Executor.OldestPendingIsChosen | src/executor.rs:148-172 | the oldest open run that no provider wait holds back is chosen, and nothing exactly when there is none |
| Databases.Database.InsertDecision | src/intake.rs:154-169 | a decision is inserted exactly when neither its key nor its message is there |
| Databases.Database.ReportRun | src/reports.rs:139-153 | the operation of an on-demand run is reported once per status, a scheduled run not at all |
| Acquisition.RevisionRepository.Append | schema.sql:104-134 | a known (message, digest) converges on its row, a taken identity fails, otherwise the row is added |
| Acquisition.RevisionRepository.WithdrawMissing | src/revisions.rs:103-147 | one statement withdraws the proved messages and their manifests' texts and counts both |
| Acquisition.AcquisitionEngine.StorePage | src/acquisition.rs:175-219 | the loop over posts is the storing steps of the walk, with the same rows, counters and early stop |
| Acquisition.AcquisitionEngine.WithdrawAbsent | src/acquisition.rs:227-258 | nothing is withdrawn without a proved range, and exactly its absences with one |
| Acquisition.AcquisitionEngine.ResumeFrom | src/acquisition.rs:284-314 | the stored checkpoint decides where the attempt reads on or that it waits |
| Acquisition.AcquisitionEngine.SaveCheckpoint | src/acquisition.rs:316-355 | the lease holds cursor, counters, state and expiry, the wait clamped to an hour |
| Acquisition.AcquisitionEngine.Execute | src/acquisition.rs:90-169 | the loop over pages ends, and its log replays step by step to the tables it leaves and the outcome it reports |
| Acquisition.LoggedExecutionCovers | src/acquisition.rs:154-169 | an execution that reports no partial result over a channel's pages covered the window |
| DigestCoordinators.DigestCoordinator.CommitManifest | src/coordinator.rs:118-199 | the statements of the transaction, rolled back on every refusal, have the effect and answer of the transaction function |
| DigestCoordinators.DigestCoordinator.CompleteEmptyRun | src/coordinator.rs:208-243 | the same for the empty completion |
| DigestCoordinators.DigestCoordinator.FailRun | src/coordinator.rs:251-290 | the same for the failure of a run |
| DigestCoordinators.DigestCoordinator.SettleCompletion | src/coordinator.rs:301-451 | reads, verification and transaction of a completion answer and change what the three steps of the machine do |
| DigestCoordinators.DigestCoordinator.SettleFailure | src/coordinator.rs:453-548 | the same for a failure fact |
| DigestCoordinators.DigestCoordinator.FanOut | src/coordinator.rs:631-674 | the loop over owners inserts exactly the runs of the fan-out, or stops at the first violated constraint |
| DigestCoordinators.DigestCoordinator.AcceptOccurrence | src/coordinator.rs:559-627 | decision, fan-out and report commit together or not at all |
| CommandIntakes.CommandIntake.AcceptRun | src/intake.rs:310-408 | one delivery of a run command: its transaction, and a refusal in a second one |
| CommandIntakes.CommandIntake.AcceptSubscription | src/intake.rs:131-223 | one delivery of a subscription command, the limit refusal in a second transaction included |
| CommandIntakes.CommandIntake.SetSubscription | schema.sql:34-84 | the channel is found or added, and the change refused exactly when it would activate a twenty-first |
| CommandIntakes.CommandIntake.Reject | src/intake.rs:268-303 | a refusal is recorded and reported once |
| Upkeep.Reaper.ReapOnce | src/reaper.rs:59-102 | the loop fails and reports exactly the batch, and the count is the number of runs failed |
| Upkeep.Maintenance.MinimizeBefore | src/maintenance.rs:29-48 | the rows of the batch, and no others, lose their bodies, and the count is the size of the batch |
| Upkeep.Maintenance.MinimizeManifestsBefore | src/maintenance.rs:58-82 | the same for manifest texts |
| Upkeep.RetentionSweeper.SweepOnce | src/retention.rs:105-122 | both batches use the cutoff so many days back, each takes five thousand or all that is older, and the counters grow by what each took |
| RunExecutors.RunExecutor.BeginAcquisition | src/executor.rs:188-217 | state and running report change together when the run is still accepted |
| RunExecutors.RunExecutor.SubscribedChannels | src/executor.rs:219-234 | distinct watched channels with their usernames, as many as twenty allow, in the order of the usernames, and none left out comes before one listed |
| RunExecutors.RunExecutor.SelectSources | src/executor.rs:307-380 | the ranking, the cut and the reversal give the selection and the count before the cut |
| RunExecutors.RunExecutor.Acquire | src/executor.rs:240-280 | the loop over channels replays as steps of the tick, and its counters are the numbers of walks that reported and that wait, its flag whether another left part of its channel unread |
| RunExecutors.RunExecutor.Commit | src/executor.rs:386-427 | empty, unbuildable and built selections go the three ways of the commit |
| RunExecutors.RunExecutor.ExecuteOne | src/executor.rs:110-146 | a whole tick that nothing interrupts replays, event by event, to the tables it leaves, from idle through no other idle state to idle, and it worked exactly when a run was chosen |

## Left out

- Output languages, payload hashes, causation references, display texts of errors and the provider peer id: columns no property here depends on.
- NATS, envelope JSON, the outbox publish loop, HTTP routes, sessions, configuration, telemetry and process supervision: transport and wiring; only the mapping of an answer to ack, term or nak is kept (`DeliverySpec.DispositionOf`).
- Contract-crate validation, canonical serialization and the recap request's own check: verdicts are parameters, rendering is an injective constructor. The contract crate is not part of this model.
- Schedule registration, `transition_run`, `acquire_lease` and thin repository wrappers: outside the service flow.
- Row locks, `skip locked` and advisory locks: each transaction is atomic and serialized.
- Identities drawn for subscription, outbox and holder rows: taken as fresh. Fresh identities of runs, revisions, results, manifests and channels may collide, and the collision is an error as in the schema.
- ManifestBuilder.SortByKey: the standard library's stable in-place sort is modelled on values as a stable insertion, so moves inside the vector are not captured.
- Acquisition.AcquisitionEngine.Execute: the retention counter that a withdrawal bumps and the request timeout are not modelled; a timeout is a refusal of the provider.
- Provider.FetchPublicPosts: media-only fields and the mapping of wire errors are not modelled.
- The collation of usernames: a parameter that ranks texts.
- Sub-second instants: the executor renders windows to seconds, and rows are compared in seconds.
- The usernames an owner may subscribe to and the parsing of command payloads: a readable command carries one verdict, `valid`.
