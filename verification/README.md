# Ring notification service: a verified model

The project models the three stateful parts of the Ring service and proves what they promise over
whole runs.

* **Email sending plans** (`internal/email/plan.go` over `internal/store/emailplans.go`). A plan is
  created for a list of targets and then moved by pause, resume, manual and automatic advances. The
  specification is a function on plan records (`EmailPlanModel`); `EmailPlanStore.PlanStore` and
  `EmailPlanService.PlanService` are the imperative code, each method proved equal to the
  specification; `EmailPlanSafety`, `EmailPlanFaults`, `EmailPlanRuns`, `EmailPlanTheorems`,
  `EmailPlanBooks`, `EmailPlanProgress` and `EmailPlanExamples` prove the theorems about runs, and
  `EmailPlanEffects` says in the columns of the tables what one operation leaves behind.
* **The SOP replay buffer and the merged listing** (`internal/push/replay.go`, `internal/push/sop.go`,
  `internal/store/notifications.go`): modules `Notifications`, `Replay`, `SopListing`, `SopService`
  and the interleaving model `ReplayLoss`.
* **Push fan-out** (`internal/push/streams.go`, `flush.go`, `push.go`, `internal/store/subscriptions.go`):
  modules `SopStreams`, `StreamInterleaving`, `StreamReader`, `RemovalBuffer`, `Subscriptions`,
  `Devices` and `PushDelivery`.
* **Delivery statistics** (`internal/httpserver/adminctl/adminctl.go`): module `Breakdowns`.

## Hypotheses

* Operations on one plan are serialised; the code takes no lock. The clock, the contact lists and the
  SMTP answers are arbitrary and may change from call to call. Every store write can end `Stored`,
  `Lost`, or `Unacknowledged` (stored although an error is reported). The theorems named "fault-free"
  in the table, and those of `EmailPlanProgress` about orderly runs, shrinking and completion, assume
  `Stored` for all of them; the others say which writes they need, or assume nothing.
* Progress and bounded completion assume quotas of at least one and, for progress, an interval that is
  not negative as a `time.Duration`, a clock that does not run backwards and is past the zero time, and
  no manual advance while the plan is paused. None of the settings is validated by the code.
  `EmailPlanProgress.PausedManualAdvanceWastesATick` and the run `EmailPlanExamples.WastedTick` show that
  the last proviso is needed; `EmailPlanProgress.AdvanceShrinksIff` says exactly when an accepted
  advance does anything.
* Recipient, plan, stream, subscription and notification identifiers are fresh, as random UUIDs are
  meant to be. Where an id may come back (the replay buffer), that is modelled.
* The listing is asked with an `offset` and a `take` that are not negative; the handler lets negative
  numbers through, and the slice at `internal/push/sop.go:76` then panics. Its three queries (rows,
  count, duplicates; `internal/store/notifications.go:49-75`) see one state of the table.
* `sort.Slice` is not stable and map iteration has no order, so pages are specified up to the order of
  notifications with equal timestamps.
* The cache lock gives mutual exclusion between buffer operations; a listing and the removal that
  follows it are two steps. Stream writes happen outside the registry lock, one step each.

## Where the code falls short of a property

* The daily limit holds, under any faults and any clock, for the attempts *recorded* in the advance
  table (`DailyLimit`). For the messages themselves it fails when the row of an advance is lost, or an
  update breaks the advance off: `LostRowBreaksDailyLimit` sends twice the limit, and
  `EmailPlanExamples.DailyLimitExceeded` is such a run. A caller can tell beforehand: no advance on a
  day exceeds the limit, whatever is answered and whatever fails, if and only if the messages already
  submitted that day plus the smallest of the interval quota, the budget the recorded attempts leave
  and the number of pending recipients, or nothing if that is negative, stay within it
  (`NextAdvanceRespectsLimitIff`). The mail of a day is always the recorded attempts plus the mail of
  unrecorded advances (`DailyMailUnderFaults`), at most one capacity per advance (`LeakPerAdvance`),
  and none in a run whose advances leave their rows (`DailyMailLimit`).
* A recipient is mailed again when a message was submitted and the update that should have said so is
  *lost*. The number of messages to an account is exactly that of these forgotten ones, plus one if its
  row says sent or failed (`SendsAreExact`, `MailPerAccountUnderFaults`); updates that were stored with
  an error reported, and those of skipped rows, cost nothing. So an account is mailed at most once if
  and only if nothing was forgotten, or one message was and no later advance submitted another
  (`AtMostOneMailIff`); `EmailPlanExamples.AccountMailedTwice` is a run with two. Here too a caller can
  tell beforehand: no advance on a day takes a recipient over one message, whatever is answered and
  whatever fails, if and only if none was submitted to it yet, or one was and either its row says so or
  quota, budget and pending list leave room for nobody (`NextAdvanceMailsOnceIff`).
* A plan write that is lost after its advance row was stored, or a row stored with an error reported,
  makes the next advance use the same number again. What is left: numbers start at 1, never decrease
  and have no gaps, and they are 1..count if and only if no advance went uncounted
  (`NumbersUnderFaults`). Recipients are still marked in the order of the numbers (`MarksUnderFaults`),
  and those marked k are the ones that the advances numbered k report plus those that operations
  without a row dealt with (`AttributionUnderFaults`).
* Without faults, a plan that is not completed is without a next instant if and only if the instant
  chosen last was the zero time (`NextInstantIsLastChosen`).
* The SOP total is the number of distinct notifications if and only if the replay list holds no id
  twice (`TotalIsUnionIff`). The buffer never does (`BufferIsTopHundred`, `TotalIsAlwaysRight`).
* The replay-count slack in the row limit of the SOP query is not needed: any limit of at least
  `offset + take` gives a right page (`TruncatedPageIsFullPage`).
* `NothingSilentlyLost` is about ids. As long as nothing but equal copies of a notification is appended
  while a listing is returning it, the removal also takes no copy that was not returned or superseded
  (`RemovalTakesOnlyReturnedCopies`). That proviso is all that separates ids from copies
  (`SecondCopyCanVanish`); its failing input is hypothetical, because ids are random, nothing is
  redelivered, and the one id that is appended twice, that of a batch naming an account twice, comes
  with an equal copy.
* `WaitToRead` can sleep through a cancellation (`CancellationCanBeMissed`). It does so exactly when the
  watcher of the call speaks before the reader has parked, and for as long as the reader stays parked
  (`CancellationMissedIff`). What ends such a sleep is a write, the completion of the stream, or a
  watcher left over from an earlier call, which may still broadcast when its call is over
  (`SleepEndsIff`, `LeftoverCanWake`); without such a watcher nothing but traffic on the stream does
  (`SleepsUntilTraffic`).
* A removal request names a row, not the token that was rejected, and a renewal rewrites the row in
  place. The row a flush deletes therefore carries the rejected token if and only if the last renewal
  that landed since the report, if there was one, brought that very token
  (`ReportHitsRejectedTokenIff`); otherwise the flush deletes a subscription with another token, as in
  `RenewedSubscriptionIsDeleted`.
* A registration that deactivates the old row and then fails leaves the device without any token that
  resolves; this and the two intended causes are the only ones (`TokenSurvivesIff`).
* `IntervalMinutes` beyond 153,722,867 either way wraps around in a `time.Duration`
  (`IntervalDurationExact`).

## Model

| member | source | states |
|---|---|---|
| UtcClock.DayWindow | internal/email/plan.go:646-653 | the half-open window of the daily query holds exactly the instants of the clock's UTC day |
| UtcClock.DayHas24Hours | internal/email/plan.go:646-653 | the length of a minute and of a day in nanoseconds |
| UtcClock.DailyQueryWindow | internal/email/plan.go:646-653 | the window of the daily query is the 24 hours from the last multiple of 24 hours, and no other window |
| UtcClock.IntervalDurationExact | internal/email/plan.go:367-371 | the interval waited is the one asked for, in minutes of 60 seconds, iff the product fits in 64 bits; otherwise it is off by a multiple of 2^64 |
| EmailPlanModel.BestContactIsFirstMaximal | internal/email/plan.go:517-528 | the contact chosen is a primary one if there is any, among these the one verified last, and of several such the first |
| EmailPlanService.ChooseContact | internal/email/plan.go:257-275 | the loop over contacts finds that contact |
| EmailPlanModel.SettleTells | internal/email/plan.go:253-310 | the row after one recipient: Skipped with its message and the old address, or Sent or Failed with the address of the chosen contact and no error or its first 4096 characters |
| EmailPlanSafety.RunKeepsSafe | internal/email/plan.go:181-379 | after any run with any failing writes: finished recipients are a prefix in (created_at, id) order and Completed means nobody is pending |
| EmailPlanSafety.RunKeepsSettings | internal/store/emailplans.go:111-118 | no operation changes quotas, interval or recipient count |
| EmailPlanFaults.FinishedNeverReopens | internal/store/emailplans.go:126-144 | whatever fails, a finished recipient is never touched again |
| EmailPlanFaults.CompletedAbsorbs | internal/email/plan.go:139-192 | a completed plan is not changed by any later operation |
| EmailPlanFaults.AdvanceRepairsCompletion | internal/email/plan.go:198-214 | after any failures one accepted advance with nothing pending completes the plan and sends nothing |
| EmailPlanFaults.CompletedMeansNobodyPending | internal/email/plan.go:347-351 | after any run with any failing writes, every recipient of a completed plan is finished |
| EmailPlanFaults.SendsAreExact | internal/email/plan.go:248-316 | any faults: messages to a recipient = one if its row says sent or failed + those whose update was lost after the submission |
| EmailPlanFaults.DaysAreAccounted | internal/email/plan.go:216-251 | messages of a day are those of recorded advances plus those of unrecorded ones, and the recorded ones respect the limit |
| EmailPlanRuns.RunKeepsStrict | internal/email/plan.go:242-345 | fault-free runs keep numbering, attribution, exact mail and life cycle together |
| EmailPlanTheorems.CreatedIsStrict | internal/email/plan.go:55-107 | a created plan starts with ordered, distinct, untouched rows and keeps all accounts apart |
| EmailPlanTheorems.PlanConserves | internal/email/plan.go:242-345 | fault-free: advances are numbered 1..count, attempted = sent + failed, recipients = pending + sums, and advance k counts exactly the rows marked k |
| EmailPlanTheorems.PlanLifeCycle | internal/email/plan.go:139-214 | fault-free: Completed iff nobody pending, then final and without next instant; rows finish in interval order, once each |
| EmailPlanTheorems.NothingPendingIsUnreachable | internal/email/plan.go:198-214 | fault-free: the branch that completes a plan with nothing pending is never taken |
| EmailPlanTheorems.NextInstantIsLastChosen | internal/email/plan.go:158-371 | fault-free: the next instant of a plan that is not completed is the one chosen last, and missing iff that was the zero time |
| EmailPlanTheorems.NextInstantExists | internal/email/plan.go:347-371 | fault-free: a plan that is not completed has a next instant |
| EmailPlanTheorems.DailyLimit | internal/email/plan.go:629-644 | any faults, any clock: attempts recorded on a UTC day never exceed the daily limit |
| EmailPlanTheorems.DailyLimitFrom | internal/email/plan.go:629-653 | any faults, any clock: the attempts of 24 hours from any midnight, the bounds written out, never exceed the daily limit |
| EmailPlanTheorems.DailyMailLimit | internal/email/plan.go:216-251 | the messages of a day respect the limit in every run whose advances leave their rows |
| EmailPlanTheorems.DailyMailUnderFaults | internal/email/plan.go:318-345 | messages of a day = recorded attempts + messages of unrecorded advances |
| EmailPlanTheorems.NextAdvanceRespectsLimitIff | internal/email/plan.go:216-235 | exactly when no advance on a day can take its messages over the limit, whatever is answered and whatever fails |
| EmailPlanTheorems.LeakPerAdvance | internal/email/plan.go:232-316 | one advance lets at most its own capacity go unrecorded |
| EmailPlanTheorems.LostRowBreaksDailyLimit | internal/email/plan.go:318-345 | a lost advance row and a repetition send twice the daily limit |
| EmailPlanTheorems.AtMostOneMailPerAccount | internal/email/plan.go:248-316 | fault-free: no account is mailed twice by a plan, and the submissions are the sent and failed rows in order |
| EmailPlanTheorems.MailPerAccountUnderFaults | internal/email/plan.go:248-316 | any faults, from creation: the exact number of messages to an account, and that it is at most its failed updates plus one |
| EmailPlanTheorems.AtMostOneMailIff | internal/email/plan.go:311-315 | an account is mailed at most once iff no message to it was forgotten, or one was and none was submitted later |
| EmailPlanTheorems.NextAdvanceMailsOnceIff | internal/email/plan.go:216-316 | exactly when no advance on a day can take a recipient over one message, whatever is answered and whatever fails |
| EmailPlanBooks.NumbersUnderFaults | internal/email/plan.go:318-345 | any faults: advance numbers start at 1, never decrease and have no gaps; they are 1..count iff every stored advance was counted |
| EmailPlanBooks.AttributionUnderFaults | internal/email/plan.go:242-345 | any faults: the rows marked k are those reported by the advances numbered k plus those of operations without an advance row, status by status |
| EmailPlanBooks.MarksUnderFaults | internal/email/plan.go:242-316 | any faults: recipients are marked in the order of the numbers, none beyond the plan's count plus one |
| EmailPlanProgress.BatchIsShortestPrefix | internal/email/plan.go:248-316 | the loop handles the shortest prefix of the pending list with enough contactable recipients, or all of it |
| EmailPlanProgress.LeavingWorkMeansFullCapacity | internal/email/plan.go:232-316 | an advance that leaves somebody pending attempts exactly its capacity |
| EmailPlanProgress.AdvanceShrinksIff | internal/email/plan.go:216-240 | an accepted advance shrinks the pending list iff the quota is positive and the day is not spent |
| EmailPlanProgress.SpentDaysWait | internal/email/plan.go:347-371 | in orderly runs a plan whose day is spent waits at least until the next midnight |
| EmailPlanProgress.SpentPlansWaitForMidnight | internal/email/plan.go:347-371 | the same from creation on, with the 24 hours written out |
| EmailPlanProgress.AutomaticAdvanceProgresses | internal/email/plan.go:194-235 | in orderly runs every accepted automatic advance has capacity and shrinks the pending list, also across pause and resume |
| EmailPlanProgress.SpentDayOnlyPostpones | internal/email/plan.go:216-230 | on a spent day an accepted advance changes the next instant and nothing else |
| EmailPlanProgress.PausedManualAdvanceWastesATick | internal/email/plan.go:169-171 | a manual advance of a paused plan can make a later automatic advance do nothing |
| EmailPlanProgress.CompletesWithinCeiling | internal/email/plan.go:347-371 | without daily limit, N recipients and quota M: at most ceil(N/M) accepted advances, and complete after that many |
| EmailPlanProgress.AutomaticAdvancesAreBounded | internal/email/plan.go:181-235 | with or without a daily limit, an orderly run accepts at most as many automatic advances as there are recipients, and is complete after that many |
| EmailPlanEffects.RowTellsReply | internal/email/plan.go:253-315 | any faults: an operation leaves a recipient row as it is, or an advance made a pending one tell what was written to which address and how that ended |
| EmailPlanEffects.NewMailIsAddressed | internal/email/plan.go:291-292 | any faults: every new message goes to the chosen contact of a recipient that was pending |
| EmailPlanEffects.RowsNameTheAddress | internal/email/plan.go:291-315 | any faults, from creation: a row that says sent or failed names an address a message to it went to |
| EmailPlanEffects.MessagesMatchRows | internal/email/plan.go:291-315 | fault-free, from creation: every message belongs to a sent or failed row and went to the address it names |
| EmailPlanEffects.TurnedAway | internal/email/plan.go:186-196 | which advances are refused, with which error, and that a refused one changes nothing |
| EmailPlanEffects.AdvanceStaysWithinAllowance | internal/email/plan.go:216-250 | any faults: one advance submits at most the quota and at most what is left of the 24 hours it falls into |
| EmailPlanEffects.AdvanceEnters | internal/email/plan.go:232-379 | fault-free: what an accepted advance enters in the advance row and the plan row, and that it submits exactly its allowance when somebody is left |
| EmailPlanEffects.StampsFollowStatus | internal/email/plan.go:139-371 | any faults, from creation: completedAt, pausedAt and lastAdvancedAt are set exactly as status and count say |
| EmailPlanEffects.CreationEnters | internal/email/plan.go:55-107 | a new plan has the given settings and one pending row for each target, in (created_at, id) order |
| EmailPlanExamples.DailyLimitExceeded | internal/email/plan.go:318-345 | a concrete run from creation that sends two messages on a day whose limit is one |
| EmailPlanExamples.AccountMailedTwice | internal/email/plan.go:311-315 | a concrete run from creation, a lost update and a repeated advance, that mails one account twice |
| EmailPlanExamples.WastedTick | internal/email/plan.go:347-371 | a concrete run: pause, manual advance, resume, and an accepted automatic advance that does nothing |
| EmailPlanStore.PlanStore.CreateEmailPlan | internal/store/emailplans.go:14-28 | all rows and the plan are stored together or not at all |
| EmailPlanStore.PlanStore.UpdateEmailPlanStatus | internal/store/emailplans.go:111-118 | the plan row becomes the given one unless the write is lost |
| EmailPlanStore.PlanStore.CountPendingRecipients | internal/store/emailplans.go:120-124 | the number of pending rows of any table |
| EmailPlanStore.PlanStore.ListPendingRecipients | internal/store/emailplans.go:126-136 | the pending rows of any table, in order |
| EmailPlanStore.PendingAreTheSuffix | internal/store/emailplans.go:126-136 | when the pending rows are those from one position on, as in every reachable plan, the list is exactly these rows |
| EmailPlanStore.PlanStore.UpdateRecipient | internal/store/emailplans.go:138-144 | exactly the row with that id is rewritten |
| EmailPlanStore.PlanStore.InsertAdvance | internal/store/emailplans.go:146-149 | the advance row is added at the end |
| EmailPlanStore.PlanStore.SumAttemptedToday | internal/store/emailplans.go:151-155 | the attempts of the advances started in the half-open window |
| EmailPlanStore.PlanStore.CountRecipientsByStatus | internal/store/emailplans.go:68-94 | for each plan asked for that has recipients, the five counters are the counts of its rows; other plans have no entry |
| EmailPlanStore.CountIsCardinality | internal/store/emailplans.go:68-94 | a counter is the number of rows with that status |
| EmailPlanStore.PlanStore.ListDuePlans | internal/store/emailplans.go:157-167 | exactly the scheduled plans whose next instant has come, in that order, each once |
| EmailPlanTargets.DedupeKeepsFirsts | internal/email/plan.go:497-508 | deduplication keeps, in order, exactly the first target of every account |
| EmailPlanTargets.DedupeAccounts | internal/email/plan.go:497-508 | the map-and-slice loop computes that list |
| EmailPlanTargets.DedupeCovers | internal/email/plan.go:497-508 | no account is lost |
| EmailPlanTargets.ResolvedIsDistinct | internal/email/plan.go:419-480 | whatever the directory answers, no account is targeted twice |
| EmailPlanTargets.ResolvedNamesEveryAccount | internal/email/plan.go:419-480 | every account with a readable id that the directory answers is targeted, under its nick or else its name, and nobody else |
| EmailPlanService.PlanService.SendLoop | internal/email/plan.go:248-316 | the send loop leaves rows, counters and mail of the specification, and stops at the first failed update |
| EmailPlanService.PlanService.GetRemainingDailyCapacity | internal/email/plan.go:629-644 | the daily limit minus the attempts of the 24 hours from the last midnight, never negative; nothing without a limit |
| EmailPlanService.PlanService.Reschedule | internal/email/plan.go:347-371 | which of the next instants is chosen |
| EmailPlanService.PlanService.CreatePlan | internal/email/plan.go:55-107 | creation refuses or stores exactly the specified new record |
| EmailPlanService.PlanService.PausePlan | internal/email/plan.go:139-156 | pause sets status and pausedAt and nothing else, with each error |
| EmailPlanService.PlanService.ResumePlan | internal/email/plan.go:158-179 | resume sets the status, clears pausedAt and moves a missing or past instant to now, with each error |
| EmailPlanService.PlanService.AdvancePlanInterval | internal/email/plan.go:181-379 | an advance moves the record as specified, in all branches and under all faults (what that means column by column: EmailPlanEffects) |
| EmailPlanService.PlanService.AdvanceDuePlans | internal/email/plan.go:381-393 | exactly the due plans are advanced automatically; a failing one does not stop the others |
| Notifications.CompactInPlace | internal/push/replay.go:62-68 | filtering into the reused slice keeps the other notes, in order, losing and duplicating none |
| Notifications.SortNewestFirst | internal/push/replay.go:69-71 | the sort leaves a newest-first permutation |
| Replay.ReplayBuffer.AppendNotification | internal/push/replay.go:55-79 | the account's list becomes an append result, other accounts keep theirs |
| Replay.ReplayBuffer.RemoveNotifications | internal/push/replay.go:82-107 | the account's list is filtered by the ids, other accounts keep their lists |
| Replay.RemovalTakesTheIds | internal/push/replay.go:82-107 | the filtering takes every copy of the ids, no other note, and keeps the order |
| Replay.BufferIsTopHundred | internal/push/replay.go:55-79 | after any appends: distinct ids, newest first, min(100, ids) notes, nothing dropped newer than anything kept |
| SopListing.MergedIsNewestCopy | internal/push/sop.go:43-58 | the merge holds the newest copy of every id of either side, the replay copy on a tie |
| SopListing.MergedIgnoresOrder | internal/push/sop.go:43-58 | the order in which the database returns equally old rows makes no difference to the merge |
| SopListing.TruncationAgrees | internal/push/sop.go:43-58 | leaving out rows changes nothing in the merge above the oldest row fetched |
| SopListing.TruncatedPageIsFullPage | internal/push/sop.go:60-78 | a page from the truncated query is a page of the full merge |
| SopListing.PageShows | internal/push/sop.go:65-78 | a page holds min(take, what is left after offset) notes of the merge, newest first, none twice |
| SopListing.PagesJoin | internal/push/sop.go:69-76 | consecutive pages of one ordering join to one page: nothing is skipped or repeated between them |
| SopListing.TotalIsUnionIff | internal/store/notifications.go:49-75 | rows + replay - duplicates counts the distinct ids iff the replay list has distinct ids |
| SopService.NotificationStore.ListNotificationsForSop | internal/store/notifications.go:49-75 | the newest matching rows up to the limit, how many match, and how many of those are in the replay list as well |
| SopService.MatchingIs | internal/store/notifications.go:49-75 | the rows listed: those of the account that name the app, name none in the case of the default app, or all without an app |
| SopService.SopService.ListSopNotifications | internal/push/sop.go:29-79 | the page holds the notes at positions offset to offset + take of the full merge, newest first, of the replay list with every matching row; the total is right iff the replay list has distinct ids |
| ReplayLoss.NothingSilentlyLost | internal/httpserver/sopctl/sopctl.go:128-142 | in every interleaving each appended id is buffered, was returned, or was cut when 100 at least as new were kept |
| ReplayLoss.TotalIsAlwaysRight | internal/push/sop.go:34-46 | at every moment of every interleaving the total is the size of the union |
| ReplayLoss.RemovalTakesOnlyReturnedCopies | internal/httpserver/sopctl/sopctl.go:128-142 | without different copies arriving meanwhile, a removal takes only copies that were returned or superseded |
| ReplayLoss.SecondCopyCanVanish | internal/push/replay.go:82-107 | a (hypothetical) run in which a different second copy of an id is removed unseen |
| Devices.NormalizeJoinsSop | internal/push/replay.go:111-117 | a device and its SOP subscription get one key; ids without suffix are unchanged |
| SopStreams.SopStream.TryWrite | internal/push/streams.go:29-38 | accepted at the end of the queue iff the stream is not completed |
| SopStreams.SopStream.TryRead | internal/push/streams.go:41-50 | takes the first item, also after completion |
| SopStreams.SopStream.Close | internal/push/streams.go:82-89 | completes the stream, keeping its items |
| SopStreams.StreamRegistry.Subscribe | internal/push/streams.go:111-123 | a fresh open stream is registered, nothing else changes |
| SopStreams.StreamRegistry.Unsubscribe | internal/push/streams.go:126-141 | the stream is completed and unregistered, the account entry goes with its last stream |
| SopStreams.StreamRegistry.Broadcast | internal/push/streams.go:144-159 | undisturbed, exactly the account's streams receive the notification |
| SopStreams.StreamRegistry.ConnectedDeviceIds | internal/push/streams.go:163-176 | the normalised device ids of the account's streams |
| StreamInterleaving.SafeInAllInterleavings | internal/push/streams.go:111-159 | open streams are registered under one account, closed ones under none, no account entry is empty, queues are first in first out |
| StreamInterleaving.BroadcastDelivery | internal/push/streams.go:144-159 | a broadcast is accepted at most once per stream of its snapshot, exactly once unless the stream was completed before its turn |
| StreamInterleaving.SeenStreamsAreServed | internal/push/push.go:378-393 | the streams whose devices a delivery leaves out of the websocket packet are in its broadcast's later snapshot and accept the message once, unless completed meanwhile |
| StreamInterleaving.TakenThenQueued | internal/push/streams.go:29-50 | items read followed by items queued are the accepted ones in order |
| StreamReader.NoWakeupIsLost | internal/push/streams.go:55-79 | a waiting reader never sleeps through a write or completion; true means an item, false means cancelled or completed and empty |
| StreamReader.CancellationCanBeMissed | internal/push/streams.go:55-79 | a run in which a cancellation is slept through |
| StreamReader.CancellationMissedIff | internal/push/streams.go:55-79 | in every interleaving a cancellation is slept through iff its watcher spoke before the reader parked and the reader is parked since |
| StreamReader.AnnouncementWakes | internal/push/streams.go:55-79 | a cancellation announced to a parked reader wakes it, and it returns that it was cancelled |
| StreamReader.SleepEndsIff | internal/push/streams.go:55-79 | exactly what ends such a sleep: a write, the completion, or a watcher left over from an earlier call |
| StreamReader.SleepsUntilTraffic | internal/push/streams.go:55-79 | without leftover watchers it lasts as long as the stream is quiet |
| StreamReader.LeftoverCanWake | internal/httpserver/sopctl/sopctl.go:202-224 | a run in which a watcher of the first call ends the sleep of the second |
| RemovalBuffer.FlushBuffer.Requeue | internal/push/flush.go:48-54 | what a failing flush had drained goes behind what came meanwhile |
| RemovalBuffer.Flusher.IdsToDelete | internal/push/push.go:118-126 | the reported ids, each once |
| RemovalBuffer.Flusher.FlushRemovalBuffer | internal/push/push.go:116-134 | exactly the reported subscriptions are deleted, or everything is held for retry |
| RemovalBuffer.RemovalsAreConserved | internal/push/flush.go:38-55 | in every interleaving enqueued = pending + in flight + handled, flushes share nothing, and each reported id is held or its row is gone |
| Subscriptions.RowCarriesCurrentToken | internal/push/push.go:174-190 | while a row exists it keeps its key and carries the token of the last request that landed |
| Subscriptions.ReportHitsRejectedTokenIff | internal/push/push.go:116-134 | the row a flush deletes has the rejected token iff the last renewal that landed since the report, if any, brought that token |
| Subscriptions.RenewedSubscriptionIsDeleted | internal/push/push.go:761-763 | a concrete run in which a renewed subscription is deleted for its old token |
| Subscriptions.FirstIs | internal/store/subscriptions.go:16-23 | the single-row queries return the matching row that is oldest, by id among equally old ones, or nothing when none matches |
| Subscriptions.SubscribedIs | internal/push/push.go:154-216 | a request touches only the row of its account, device and provider: rewritten, switched off, or added when missing |
| Subscriptions.SubscribeEffect | internal/push/push.go:154-216 | any faults, column by column: the row of the account, device and provider gets token, state and app, or is switched off, or is new; all others stay |
| Subscriptions.SuccessIff | internal/push/push.go:154-216 | the caller is told of a success exactly when nothing failed |
| Subscriptions.ReplyShowsTheRow | internal/push/push.go:169-216 | the row told of is stored and carries the request |
| Subscriptions.RunKeepsOnePerDevice | internal/push/push.go:154-216 | any run, any failing writes: at most one row per account, device and provider |
| Subscriptions.OnlyLastStoredResolves | internal/store/subscriptions.go:66-73 | a token that resolves is the last one stored for its account and device |
| Subscriptions.RotatedTokenIsDead | internal/push/push.go:219-226 | once a later token of the device is stored the earlier one finds nothing |
| Subscriptions.RegisteredTokenResolves | internal/push/push.go:219-226 | a registration that reports success has a token that resolves to its account and device |
| Subscriptions.TokenSurvivesIff | internal/push/push.go:169-190 | exactly which operations make a resolving token stop resolving |
| Subscriptions.TokenResolvesUntilKilled | internal/push/push.go:236-245 | over a run a token resolves until the first such operation and never again |
| Subscriptions.ActivatedIs | internal/store/subscriptions.go:91-102 | the delivery query returns exactly the account's active rows that name the app, name none in the case of the default app, or all without an app; ids stay distinct |
| Subscriptions.SubscriptionTable.DeactivateSubscriptions | internal/store/subscriptions.go:12-14 | switches off the rows of one account, device and provider |
| Subscriptions.SubscriptionTable.UpdateSubscription | internal/store/subscriptions.go:30-36 | rewrites the row with that id |
| Subscriptions.SubscriptionTable.DeleteSubscriptions | internal/store/subscriptions.go:104-110 | deletes exactly the rows of the device, with the ids, or with owner and id, and counts them |
| Subscriptions.SubscriptionService.SubscribeDevice | internal/push/push.go:154-216 | the table and the answer are those of the specification, for every failing read or write |
| Subscriptions.SubscriptionService.RegisterSopToken | internal/push/push.go:219-226 | the token is returned only if nothing failed |
| Subscriptions.SubscriptionService.UnsubscribeDevice | internal/push/push.go:149-151 | the rows left are exactly those of other devices |
| PushDelivery.FirstBestIsUnique | internal/push/push.go:834-845 | "first of maximal priority" names one subscription |
| PushDelivery.SelectSubscriptionsByDevice | internal/push/push.go:822-846 | each device gets its first best subscription, by provider name: live SOP, Apple, Google, UnifiedPush, the rest; for VoIP live SOP, Appk, Apple unless somebody has Appk, Google, UnifiedPush, the rest |
| PushDelivery.NothingSelectedIff | internal/push/push.go:834-845 | a device gets nothing iff all it has is Appk, or, for VoIP, Apple while somebody has Appk |
| PushDelivery.SelectedPassesOver | internal/push/push.go:408-414 | in a delivery, which providers a selected subscription can have been preferred to on its device |
| PushDelivery.VoipIs | internal/push/push.go:887-889 | a VoIP notification is one whose push type is these four letters in either case |
| PushDelivery.UnconnectedIs | internal/push/push.go:408-413 | what the filter keeps: exactly the subscriptions without a websocket connection, with distinct ids |
| PushDelivery.SelectRemaining | internal/push/push.go:408-414 | the selection is made among those, one subscription per device |
| PushDelivery.RecordsAreExpected | internal/push/push.go:402-449 | connected subscriptions get one Skipped, other SOP ones one Held, selected ones one outcome if the packet went out, the rest none |
| PushDelivery.SendPushNotification | internal/push/push.go:595-763 | one send records success, failure or an invalid token as the provider answers, failure for an unknown provider, nothing for SOP, and queues the row of an invalid token |
| PushDelivery.BuildWebSocketExclusions | internal/push/push.go:905-922 | the ids to exclude are the given ones and those of the connected SOP devices |
| PushDelivery.DeliverPushNotification | internal/push/push.go:376-449 | a delivery leaves exactly the expected records, removals, websocket exclusions, replay and error |
| Breakdowns.ToSummary | internal/httpserver/adminctl/adminctl.go:316-345 | every counter, the total with unnamed outcomes, and the success rate among attempts |
| Breakdowns.CountsAddUp | internal/httpserver/adminctl/adminctl.go:316-345 | counts add up over lists, and one row counts what it says under its outcome |
| Breakdowns.KeysInOrderOfAppearance | internal/httpserver/adminctl/adminctl.go:448-456 | groups come in the order of their first rows |
| Breakdowns.GroupsConserve | internal/httpserver/adminctl/adminctl.go:448-456 | each counter summed over the groups is the ungrouped one |
| Breakdowns.GroupsHoldTheirRows | internal/httpserver/adminctl/adminctl.go:448-456 | a group holds exactly the rows of its key, in order |
| Breakdowns.SortBreakdowns | internal/httpserver/adminctl/adminctl.go:465-472 | the in-place insertion sort leaves a stable permutation in descending order of total |
| Breakdowns.StableSortIsUnique | internal/httpserver/adminctl/adminctl.go:465-472 | order and stability leave exactly one result |
| Breakdowns.BuildBreakdowns | internal/httpserver/adminctl/adminctl.go:447-463 | the result is the stable sort of one summary per key |
| Breakdowns.BreakdownConserves | internal/httpserver/adminctl/adminctl.go:447-463 | every counter, summed over the breakdown, is that of the ungrouped summary |
| Breakdowns.BreakdownIsUnique | internal/httpserver/adminctl/adminctl.go:316-463 | the rows determine the breakdown, although map iteration has no order |

## Left out

- SMTP, MIME, FCM, APNs, UnifiedPush, NATS, Redis and gRPC: only their answers appear, as parameters.
- GORM and PostgreSQL: a query is a function on a table; the unique indexes are not relied on.
- `SendNotificationBatch`: it repeats the delivery of one notification for many accounts.
- EmailPlanTheorems.NextInstantExists: instants that are exactly the zero time are excluded, because the code stores them as missing; the exact condition is NextInstantIsLastChosen.
- EmailPlanTheorems.AtMostOneMailIff: its condition is on the whole run; the one a caller can check is NextAdvanceMailsOnceIff.
- EmailPlanTheorems.DailyMailLimit: gives a sufficient condition on whole runs; the exact one, on the next advance, is NextAdvanceRespectsLimitIff.
- SopStreams.StreamRegistry.Broadcast: describes a broadcast nothing interferes with; the interleaved one is StreamInterleaving.BroadcastDelivery.
- StreamReader.NoWakeupIsLost: one reader per stream with one request context, as the handler has; that a cancelled reader returns is not claimed, because it need not.
- PushDelivery.DeliverPushNotification: every record is assumed to be stored; the sends run one after another in an arbitrary order, which is how their records and removals appear in the lists.
- Subscriptions.RunKeepsOnePerDevice: operations run one after another; two concurrent registrations of one device are not covered.
- Concurrent advances of one plan, which the code does not guard against.
- Reads of the plan operations that fail: before the first write they leave everything as it was. The read that builds the answer comes last; when it fails the caller sees an error although all is stored, which looks like an Unacknowledged plan write.
- Lock expiry, the lifetime of replay lists, failures of the cache, and the microsecond rounding of stored and cached instants.
- The 4096 kept of an error are characters here and bytes in the code.
- Overflow of row counts and counters; success rates are exact rationals, not binary floats.
- `queue.go`, cron parsing, `renewalInterval`, topic and scope lookups, preferences: not modelled, because they would add only easy members.
- HTTP handlers, authentication, configuration, discovery, migrations, entity codecs, names, subjects and bodies, `processed_at` and `updated_at`.
- Resolution of application ids: the resolved id and whether it is configured are parameters.
