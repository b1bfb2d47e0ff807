# Mitup bot: verified protocols

A Dafny model of the parts of the Mitup Telegram bot whose guarantees span several functions, with
proofs of what they keep over every run. A meeting is shown as cards in many chats; the bot edits those
cards after each committed change, serializes the updates of one user in one chat, keeps a waiting list
per meeting, and runs a supporter tier through Patreon. `dafny verify dfyconfig.toml` checks everything.

| file | what it models |
|---|---|
| `background_jobs.dfy` | the background jobs and the rules that merge two submits under one key |
| `refresh_queue.dfy` | the coalescing queue, its worker as a state machine, and the mutable queue refining it |
| `freshness.dfy` | commit, own-card draw, submit and worker steps interleaved, with edits that may be lost: which card each step loses |
| `settling.dfy` | what the chats show once the worker comes to rest: for every run, up to date exactly when no card was lost |
| `freshness_races.dfy` | one input for each way a card can be lost |
| `outbox_drain.dfy` | the post-commit drain: retries, abandonment, skipped inline edits, the report |
| `digest_cache.dfy` | the render digests and the capture, commit, drain, reconcile lifecycle |
| `update_locks.dfy` | the dynamic table of reference-counted locks, refined to one line per key |
| `roster.dfy` | attendees and waiting list, promotion in place |
| `supporter.dfy`, `entitlements.dfy` | tiers, and the writers of a supporter's level and runway |
| `rate_limiter.dfy` | pauses after a 429 and the retry loop |
| `decimal.dfy`, `callback_data.dfy` | the wire format of callback buttons |
| `lifecycle.dfy` | deactivation, warning, deletion under changing tiers |
| `calendar.dfy` | the longest meeting across daylight-saving changes |

How it is built: each stateful object of the program is a class whose methods equate the new state with
a pure function of the old one; the theorems are about runs of those functions. The network, the clock,
the database and other tasks are parameters: a script of answers, a time per step, or arbitrary
environment steps. One step of a state machine is the code between two awaits.

Some promises hold only under a condition. There the code is modelled as it is, the condition is proved
to be exact for all inputs, and an input shows that it is needed:

- Every card ends up showing its meeting's latest state. Which card a step loses is read off the state in
  front of it (`Freshness.Loses`); a step keeps every card in somebody's hands exactly when it loses none
  (`Freshness.StepKeepsInvIff`), and once the worker is left to itself every run of it ends with all cards
  up to date exactly when none was lost (`Settling.WorkerSettlesIff`). In particular:
  - An interrupted refresh gives way to one submitted meanwhile, which its documentation justifies with
    that one covering every card. All cards end up to date exactly when no stale card was left to the
    interrupted one alone (`Settling.InterruptSettlesIff`).
  - The submitter's card is left out of its own refresh unless a job of the meeting is in flight at the
    submit. A job in flight at the commit that has ended since may have left the card stale, and then
    nothing repairs it (`Settling.SubmitSettlesIff`).
  - A card changed by its own invocation under a job that has already rendered it stays stale exactly when
    the refresh is not scoped to it, or is not submitted for want of other cards
    (`Settling.InvocationSettlesIff`).
  - Two invocations may draw one card against the order of their commits (`Settling.OwnDrawSettlesIff`).
- A failed edit is documented to leave a stored digest that describes what Telegram shows. It does
  exactly when the failed edit was not applied (`DigestCache.WriteKeepsSoundIffHonest`), and a digest
  left wrong makes later repairs be skipped (`DigestCache.UnconfirmedEditIsNeverRepaired`).
- A card drawn more than once in one body shows the last render exactly when that one is queued or no
  earlier one was (`DigestCache.LastRenderOfWriteShownIff`).
- A tier change moves nobody up. It leaves people behind free places exactly when the new tier has no cap,
  somebody waits, and the meeting's own limit is absent or not reached (`Roster.StepKeepsFairIff`,
  `Roster.NewcomerPassesTheQueue`).
- The sweep's documentation gives a lapsed patron about two weeks. Linking again does not clear the mark
  of an earlier notice, and then it is one (`Entitlements.FirstMissAfterLink`,
  `Entitlements.ReturningPatronIsNotTold`).
- A lowered grant is documented to leave the level to the daily reconciliation. A linked user who is no
  patron and has no runway is looked at by neither pass (`Entitlements.StepKeepsSaneIff`,
  `Entitlements.StrandedLevelIsNeverSettled`).
- Callback data comes back from the wire exactly when it is canonical (`CallbackWire.RoundTripsIffCanonical`).
  The year of a date is printed with four digits, as Python 3.14, which the packages require, does.

## Model

| member | source | states |
|---|---|---|
| BackgroundJobs.MergeDrawsBoth | libs/telegram/mitup_bot/card_refresh.py:184-219 | one merged refresh draws every card either submit would have drawn |
| BackgroundJobs.CoalescedRefreshClosedForm | libs/telegram/mitup_bot/card_refresh.py:205-219 | after any burst: union of scopes with None absorbing, a skip only if all agree, oldest origin and time, newest hold, count of the rest |
| BackgroundJobs.CoalescedDrawSet | libs/telegram/mitup_bot/card_refresh.py:184-202 | the merged draw set contains the union of the single ones, equals it when skips agree, and is every scoped card when they do not |
| BackgroundJobs.CoalescedSendClosedForm | libs/telegram/mitup_bot/card_refresh.py:222-237 | a burst of sends leaves the last payload under the first one's origin, attempt and enqueue time |
| RefreshQueues.PutSets | libs/telegram/mitup_bot/card_refresh.py:323-344 | writing a key changes that key only, keeps keys unique and keeps its place in line |
| RefreshQueues.ReadyMeansHoldOver | libs/telegram/mitup_bot/card_refresh.py:356-364 | a job is ready iff its hold has lasted its seconds or the queue is stopping, and until then the wait is what is left of it |
| RefreshQueues.SkipClearedOnlyInFlight | libs/telegram/mitup_bot/card_refresh.py:330-333 | a refresh loses its skip, and nothing else, iff its meeting is being drawn |
| RefreshQueues.BurstLeavesOneMergedJob | libs/telegram/mitup_bot/card_refresh.py:323-344 | every submit of a burst under a free key is accepted, one merged job waits, no other key notices |
| RefreshQueues.SubmitMerges | libs/telegram/mitup_bot/card_refresh.py:330-340 | a submit under a waiting key replaces the job by the merge, even at the cap |
| RefreshQueues.StepKeepsWorkerInv | libs/telegram/mitup_bot/card_refresh.py:323-470 | every worker step keeps unique keys, one job in flight, the bound, conservation and the lookout for ready jobs |
| RefreshQueues.ReachableWorkerInv | libs/telegram/mitup_bot/card_refresh.py:323-470 | the worker invariant holds in every reachable state |
| RefreshQueues.QueueTheorem | libs/telegram/mitup_bot/card_refresh.py:284-395 | accepted submits = retired + superseded + those behind waiting and running jobs; at most one in flight; at most max_pending + 1 outstanding; a sleeping loop can wake whenever a job is ready |
| RefreshQueues.SleepLooksInTime | libs/telegram/mitup_bot/card_refresh.py:558-572 | falling asleep with the event cleared sets a deadline no later than any hold's end |
| RefreshQueues.SleepEndsWithAHold | libs/telegram/mitup_bot/card_refresh.py:366-370 | the deadline of a sleep is later than now and is the end of some hold |
| RefreshQueues.WorkSetsTheEvent | libs/telegram/mitup_bot/card_refresh.py:341-395 | an accepted submit and a requeue set the event, and only falling asleep clears it |
| RefreshQueues.StopFromSleep | libs/telegram/mitup_bot/card_refresh.py:604-621 | a sleeping worker can be stopped at once; it keeps its jobs and its invariant, and every hold is over |
| RefreshQueues.RefreshQueue.Submit | libs/telegram/mitup_bot/card_refresh.py:323-344 | accepted iff the queue accepts and the key waits or there is room; a refusal changes nothing; an acceptance leaves the key waiting, wakes the worker and keeps the high-water mark |
| RefreshQueues.RefreshQueue.Take | libs/telegram/mitup_bot/card_refresh.py:372-384 | on an accepting queue takes the oldest job whose hold of its own seconds since its own start is over, and nothing iff every hold still lasts; the others stay in order |
| RefreshQueues.RefreshQueue.Requeue | libs/telegram/mitup_bot/card_refresh.py:386-395 | an interrupted job is put back with its attempt counted unless its key is taken, and the worker is woken |
| RefreshQueues.RefreshQueue.EndJob | libs/telegram/mitup_bot/card_refresh.py:449-470 | an outcome is counted, a cancellation puts the job back, and the key always leaves flight |
| RefreshQueues.RefreshQueue.RunStopping | libs/telegram/mitup_bot/card_refresh.py:449-470 | on a stopping queue the oldest job is run at once, whatever its hold |
| RefreshQueues.RefreshQueue.DrainPending | libs/telegram/mitup_bot/card_refresh.py:585-602 | the shutdown drain ends, runs the held jobs in order, each once, and leaves exactly what the deadline cut off |
| Freshness.StepLosesExactly | libs/telegram/mitup_bot/card_refresh.py:323-470 | after any step a card is lost exactly if the step, read off the state before it, loses it |
| Freshness.StepKeepsInvIff | libs/telegram/mitup_bot/card_refresh.py:323-470 | a step keeps every card in somebody's hands iff it loses none; the structure is kept by every step |
| Freshness.FreshAtRest | libs/telegram/mitup_bot/card_refresh.py:397-447 | any run of safe steps loses no card, and if it comes to rest every card shows its meeting's latest state |
| Settling.WorkerMakesProgress | libs/telegram/mitup_bot/card_refresh.py:397-470 | every worker step is safe and lowers a measure, so the worker comes to rest |
| Settling.WorkerIsNotStuck | libs/telegram/mitup_bot/card_refresh.py:558-583 | with the holds over, some worker step can be made as long as a job waits or runs |
| Settling.WorkerSettles | libs/telegram/mitup_bot/card_refresh.py:574-583 | from every state with nothing open some run of the worker comes to rest |
| Settling.LostStays | libs/telegram/mitup_bot/card_refresh.py:397-470 | no step of the worker finds a lost card again |
| Settling.WorkerSettlesIff | libs/telegram/mitup_bot/card_refresh.py:397-470 | whichever way the worker comes to rest, all cards are up to date iff none was lost at the start |
| Settling.StepSettlesIff | libs/telegram/mitup_bot/card_refresh.py:323-470 | after a step that leaves nothing open, all cards end up to date iff that step was safe |
| Settling.InterruptSettlesIff | libs/telegram/mitup_bot/card_refresh.py:386-395 | after an interruption all cards end up to date iff the key was free or no stale card was left to the job alone |
| Settling.FailSettlesIff | libs/telegram/mitup_bot/card_refresh.py:420-447 | after a failure all cards end up to date iff no stale card was left to the job alone |
| Settling.SubmitSettlesIff | libs/telegram/mitup_bot/card_refresh.py:323-344 | after the last submit is accepted all cards end up to date iff no ended job left the own card stale behind a surviving skip |
| Settling.InvocationSettlesIff | libs/telegram/mitup_bot/api_wrapper.py:1537-1593 | after a whole invocation all cards end up to date iff its own card, if changed under a job that has rendered it, is covered by some refresh |
| Settling.OwnDrawSettlesIff | libs/telegram/mitup_bot/api_wrapper.py:859-874 | an own draw overtaken by another commit leaves its card stale iff no refresh waiting, running or its own draws it again |
| Settling.RequeueCoversExactly | libs/telegram/mitup_bot/card_refresh.py:386-395 | a waiting refresh draws all an interrupted one would, whatever cards there are, iff its scope is wide enough |
| Settling.CoveringRequeueIsSafe | libs/telegram/mitup_bot/card_refresh.py:386-395 | giving way to a refresh that covers the interrupted one loses no card |
| Settling.StopRefuses | libs/telegram/mitup_bot/card_refresh.py:323-364 | a stopped queue takes no refresh and holds nothing back |
| Freshness.SubmitDraws | libs/telegram/mitup_bot/card_refresh.py:323-344 | a submit loses no draw that was waiting, and draws a card in its scope iff no skip of it survives |
| Freshness.RequeueDraws | libs/telegram/mitup_bot/card_refresh.py:386-395 | an interrupted job is put back with its draws, or leaves those of the job waiting under its key |
| Freshness.CommitLoses | libs/telegram/mitup_bot/api_wrapper.py:1507-1593 | a commit loses its own card exactly when a job has rendered an older state of it and no refresh covers it |
| Freshness.SubmitLoses | libs/telegram/mitup_bot/card_refresh.py:323-344 | a submit loses exactly the cards it owes and does not reach |
| FreshnessRaces.NarrowRequeueLosesACard | libs/telegram/mitup_bot/card_refresh.py:386-395 | an input: an unscoped refresh interrupted behind a scoped one |
| FreshnessRaces.SkipAfterFlightLosesACard | libs/telegram/mitup_bot/card_refresh.py:323-336 | an input: a job that ended between commit and submit has left the submitter's card stale |
| FreshnessRaces.OwnCardOutOfScopeIsLost | libs/telegram/mitup_bot/api_wrapper.py:1507-1535 | an input: a refresh scoped past the submitter's own card |
| FreshnessRaces.OnlyCardIsLost | libs/telegram/mitup_bot/api_wrapper.py:1537-1593 | an input: a single card, so nothing is submitted |
| FreshnessRaces.CrossedDrawsLoseACard | libs/telegram/mitup_bot/api_wrapper.py:859-874 | an input: two invocations drawing one card against commit order |
| FreshnessRaces.FailedRefreshLosesACard | libs/telegram/mitup_bot/card_refresh.py:420-447 | an input: a refresh that raises is not put back |
| FreshnessRaces.FailedEditLosesACard | libs/telegram/mitup_bot/card_refresh.py:420-428 | an input: an edit that fails inside a refresh is not repeated by it |
| FreshnessRaces.FailedOwnDrawLosesACard | libs/telegram/mitup_bot/api_wrapper.py:917-938 | an input: an own edit that fails after commit |
| FreshnessRaces.RefusedSubmitLosesACard | libs/telegram/mitup_bot/card_refresh.py:323-329 | an input: a stopping queue refuses the refresh |
| OutboxDrain.InvokeQueuedWithRetry | libs/telegram/mitup_bot/api_wrapper.py:940-960 | an attempt is repeated, up to three in all, iff it failed on the network and either never connected or is idempotent; the last answer is the result |
| OutboxDrain.SentAtMostOnce | libs/telegram/mitup_bot/api_wrapper.py:376-388 | a call that is not idempotent is applied at most once, and every attempt but the last never left the process |
| OutboxDrain.DrainOutbox | libs/telegram/mitup_bot/api_wrapper.py:876-915 | calls run in order under the rules; the report's counts, skipped ids, abandoned names and the unreachable users are those of what happened |
| OutboxDrain.Classify | libs/telegram/mitup_bot/api_wrapper.py:917-938 | sent iff accepted, unchanged or for an unreachable user; network failures and only they count against the network, except the slow inline edits named apart |
| OutboxDrain.DrainQueuedCall | libs/telegram/mitup_bot/api_wrapper.py:917-938 | classifies the final answer and notes an unreachable user |
| OutboxDrain.DrainReport.Record | libs/telegram/mitup_bot/api_wrapper.py:343-365 | the tally after one more outcome; a slow inline edit neither counts nor resets the failure run |
| OutboxDrain.DeadAtIsThreeInARow | libs/telegram/mitup_bot/api_wrapper.py:359-369 | the counter reaches the limit exactly at a third network failure with no sent or failed call since the first |
| OutboxDrain.DispositionsAreDetermined | libs/telegram/mitup_bot/api_wrapper.py:884-900 | the rules leave no choice about any call |
| OutboxDrain.OnlyInlineEditsAreSkipped | libs/telegram/mitup_bot/api_wrapper.py:887-900 | a call is skipped iff it is an inline edit behind three slow ones, abandoned iff behind a third network failure, and otherwise runs |
| OutboxDrain.EveryCallIsAccountedFor | libs/telegram/mitup_bot/api_wrapper.py:343-373 | queued = sent + failed + skipped + abandoned |
| OutboxDrain.SkippedIdsAre | libs/telegram/mitup_bot/api_wrapper.py:887-889 | the report names each skipped edit by its own id, in queue order |
| OutboxDrain.UnreachableAre | libs/telegram/mitup_bot/api_wrapper.py:923-926 | a user is noted as unreachable iff the final answer to a call that ran says so |
| DigestCache.WriteKeepsSoundIffHonest | libs/telegram/mitup_bot/api_wrapper.py:1447-1462 | with one render per card, stored digests stay true iff every edit that changed a card holding one was confirmed and reconciled |
| DigestCache.EachFateLeaves | libs/telegram/mitup_bot/api_wrapper.py:1447-1462 | what a queued edit leaves of its card and row, for each way it can end |
| DigestCache.OnlyDeadRowsGo | libs/telegram/mitup_bot/reconcile.py:39-47 | a row is dropped iff Telegram reported its card gone and the reconcile was kept; a body that raises changes nothing |
| DigestCache.LeftOutIffDigestMatches | libs/telegram/mitup_bot/api_wrapper.py:1484-1500 | an edit is left out iff its row holds the digest of what it would send |
| DigestCache.HonestRunKeepsSound | libs/telegram/mitup_bot/reconcile.py:23-48 | over any run of such writes a stored digest describes what Telegram shows |
| DigestCache.SkippedEditIsANoOp | libs/telegram/mitup_bot/api_wrapper.py:1480-1500 | an edit left out for its digest would have changed nothing |
| DigestCache.NextRenderRepairs | libs/telegram/mitup_bot/api_wrapper.py:1447-1462 | whatever failed before, the next delivered or skipped render leaves the card showing it until it is drawn again |
| DigestCache.UnconfirmedEditIsNeverRepaired | libs/telegram/mitup_bot/api_wrapper.py:428-443 | an edit applied but not confirmed makes every later render of the earlier state be skipped |
| DigestCache.LastRenderOfWriteShownIff | libs/telegram/mitup_bot/api_wrapper.py:1464-1500 | however often a body draws a card, the card shows the last render iff that one is queued or no earlier one was |
| DigestCache.SecondRenderOfACardIsDropped | libs/telegram/mitup_bot/api_wrapper.py:1464-1500 | an input: returning to the stored state is skipped and the passing render stays |
| DigestCache.WriteLifecycle.UpdateSingleMeetingMessage | libs/telegram/mitup_bot/api_wrapper.py:1464-1505 | queues the edit iff its digest differs from the stored one |
| DigestCache.WriteLifecycle.QueuedMeetingMessageEdit | libs/telegram/mitup_bot/api_wrapper.py:1447-1462 | one more edit: shown content, dead rows and confirmed digests follow its fate |
| DigestCache.WriteLifecycle.ReconcileOutbox | libs/telegram/mitup_bot/reconcile.py:39-48 | dead rows are gone and each survivor holds its last confirmed digest |
| DigestCache.WriteLifecycle.BeginWrite | libs/data/mitup_bot/db.py:398-431 | a raising body changes nothing; a committed one is drained and reconciled, in that order |
| UpdateLocks.UpdateLockKey | apps/bot/mitup_bot/update_processor.py:33-46 | a key iff the update names a user or a chat, and then it is that pair |
| UpdateLocks.AdvanceKeepsLinesInv | apps/bot/mitup_bot/update_processor.py:91-126 | every action keeps the lines increasing and starts in arrival order |
| UpdateLocks.ServedInArrivalOrder | apps/bot/mitup_bot/update_processor.py:91-126 | in every run the updates of a key start in the order they arrived |
| UpdateLocks.OnlyTheRunningHeadHasStarted | apps/bot/mitup_bot/update_processor.py:83-126 | in every run, of the updates in a line exactly the head that runs has been started |
| UpdateLocks.LeavesOnlyByEndingOrGivingUp | apps/bot/mitup_bot/update_processor.py:118-126 | an update leaves its line iff it ran and ended or gave up; no step moves another line |
| UpdateLocks.ArrivalJoinsAtTheEnd | apps/bot/mitup_bot/update_processor.py:102-109 | an arrival joins its line at the end and starts at once iff nobody is in it |
| UpdateLocks.PerUserUpdateProcessor.Arrive | apps/bot/mitup_bot/update_processor.py:91-117 | an arrival joins the line of its key, creating the lock if there is none |
| UpdateLocks.PerUserUpdateProcessor.Grant | apps/bot/mitup_bot/update_processor.py:119-121 | the lock goes to the longest waiting update of its key |
| UpdateLocks.PerUserUpdateProcessor.Finish | apps/bot/mitup_bot/update_processor.py:118-126 | a finished or failed update leaves its line, and the last one takes the lock out of the table |
| UpdateLocks.PerUserUpdateProcessor.Cancel | apps/bot/mitup_bot/update_processor.py:119-126 | a cancelled waiter leaves its line and no other |
| UpdateLocks.PerUserUpdateProcessor.MutualExclusion | apps/bot/mitup_bot/update_processor.py:83-126 | all in-flight updates of a key hold one lock object and at most one runs |
| UpdateLocks.PerUserUpdateProcessor.TableIsTheInFlightKeys | apps/bot/mitup_bot/update_processor.py:102-126 | a key is in the table iff an update of it is in flight, and waiters is their number |
| UpdateLocks.PerUserUpdateProcessor.NobodyIsStuck | apps/bot/mitup_bot/update_processor.py:118-126 | of each key with updates in flight one runs or can be granted the lock |
| Roster.CapacityIsTheTightestLimit | libs/core/mitup_bot/limits.py:88-99 | the capacity in force admits a count iff the owner's tier and the meeting's own limit both do |
| Roster.PromotionCounts | libs/data/mitup_bot/models/meetups.py:325-340 | promoting n moves exactly n links from waiting to confirmed |
| Roster.PromotionFillsUp | libs/data/mitup_bot/models/meetups.py:325-340 | promotion ends with nobody waiting or the meeting full, never above the capacity, and does nothing when full |
| Roster.StepKeepsFairIff | libs/data/mitup_bot/models/meetups.py:295-340 | every step keeps "someone waits only when full, confirmed before waiting"; a tier change iff it does not lift the cap over a waiting list under a loose or absent limit |
| Roster.RunKeepsFair | libs/data/mitup_bot/models/meetups.py:218-233 | the roster invariant over every run of such steps |
| Roster.ConfirmedOnlyWithinCapacity | libs/data/mitup_bot/models/meetups.py:300-340 | no step raises the confirmed count beyond the capacity |
| Roster.CountsAreOfRows | libs/data/mitup_bot/models/meetups.py:208-216 | the two counts are those of the confirmed and of the waiting rows |
| Roster.JoinAddsTheNewcomer | libs/data/mitup_bot/models/meetups.py:300-323 | somebody new is put at the end, waiting iff the capacity is used up; a full meeting without a waiting list stays as it is |
| Roster.LeaveTakesOneOff | libs/data/mitup_bot/models/meetups.py:295-298 | the first equal link goes; the others stay in order and change at most from waiting to confirmed |
| Roster.SettingsAreSet | apps/bot/mitup_bot/handlers/meeting/edit/edit_meeting_participants.py:54-69 | a setting is what it was set to, and only a limit moves anybody, up |
| Roster.NobodyIsPassed | libs/data/mitup_bot/models/meetups.py:345-352 | in any run at all, of two people waiting the later never moves up before the earlier |
| Roster.NewcomerPassesTheQueue | libs/data/mitup_bot/models/meetups.py:218-233 | whenever someone waits, an upgrade to an uncapped tier lets the next to join pass the whole queue |
| Roster.Meetup.WaitingLinks | libs/data/mitup_bot/models/meetups.py:345-352 | all the waiting links and no others, by created time and then id |
| Roster.Meetup.PromoteFromWaitingList | libs/data/mitup_bot/models/meetups.py:325-340 | flips in place exactly the first min(waiting, free) links, returns those in order, touches no other |
| Roster.Meetup.RemoveParticipant | libs/data/mitup_bot/models/meetups.py:295-298 | removes the first equal link and promotes; with none equal nothing changes |
| Roster.Meetup.AddParticipant | libs/data/mitup_bot/models/meetups.py:300-310 | somebody new is appended, confirmed or waiting by fullness, or refused when full without a waiting list |
| Roster.Meetup.CreateJoinedLink | libs/data/mitup_bot/models/meetups.py:312-323 | appends the new link unless an equal one is there |
| Roster.Meetup.SetParticipantLimit | apps/bot/mitup_bot/handlers/meeting/edit/edit_meeting_participants.py:54-69 | a new limit promotes whoever it makes room for |
| Supporter.Rank | libs/core/mitup_bot/supporter.py:55-56 | the position of a level in the tier order |
| Supporter.Highest | libs/core/mitup_bot/supporter.py:70-74 | one of the two levels, and at least each of them |
| Supporter.LevelForAmount | libs/core/mitup_bot/supporter.py:77-87 | an active patron always holds a paying tier, and a higher one exactly from its threshold |
| Supporter.ParticipantCapacity | libs/core/mitup_bot/supporter.py:140-149 | uncapped iff the level reaches the second paying tier |
| Entitlements.StepKeepsSaneIff | apps/bot/mitup_bot/web/patreon.py:545-581 | no step goes under the floor, and a level above it keeps a runway except when a grant is lowered under a linked user without one |
| Entitlements.RunKeepsFloor | apps/events/mitup_bot/events/supporter_check.py:233-274 | over every run the level never drops below the granted floor |
| Entitlements.RunKeepsRunway | apps/events/mitup_bot/events/supporter_check.py:302-342 | unless a level is stranded, none above the floor is permanent |
| Entitlements.StrandedLevelIsNeverSettled | apps/bot/mitup_bot/handlers/supporter_grant/utils.py:121-138 | a stranded level outlives any number of daily passes over a user who is no patron |
| Entitlements.NoEarlyRevocation | apps/events/mitup_bot/events/supporter_check.py:233-260 | a revocation only hits somebody absent from the roster, a full week after the last notice |
| Entitlements.UnmarkedLinkHasTwoPeriods | apps/events/mitup_bot/events/supporter_check.py:113-115 | after linking an unmarked row the daily passes revoke no earlier than two weeks on |
| Entitlements.FirstMissAfterLink | apps/bot/mitup_bot/patreon_link.py:269-281 | the first due pass that misses the patron gives notice iff the row was unmarked, and revokes iff it was marked |
| Entitlements.ReturningPatronIsNotTold | apps/bot/mitup_bot/patreon_link.py:178-205 | a run: a patron who comes back by linking loses the tier after one week without a notice since |
| Entitlements.DailyRunSettlesActivePatron | apps/events/mitup_bot/events/supporter_check.py:400-437 | a daily run lands an active patron on the higher of entitlement and floor, and repeating it changes nothing |
| Entitlements.DailyRunSparesLapsedUntilDue | apps/events/mitup_bot/events/supporter_check.py:119-137 | a daily run takes a level only by a revocation, which lands on the floor and is not repeated |
| Entitlements.RepeatedGainIsANoOp | apps/bot/mitup_bot/web/patreon.py:557-564 | a repeated delivery of a paying tier changes nothing more |
| Entitlements.LinkGrantsTier | apps/bot/mitup_bot/patreon_link.py:226-281 | an accepted link leaves the higher of the granted tier and the floor, with a week of runway iff paying; a refused one changes nothing |
| Entitlements.WebhookTakesEffect | apps/bot/mitup_bot/web/patreon.py:533-581 | the patron's gain is applied at once, a loss above the floor keeps the level for a week and marks the notice, another's webhook does nothing |
| Entitlements.DuePassTakesEffect | apps/events/mitup_bot/events/supporter_check.py:119-260 | a member whose runway has ended is extended, told or taken to the floor; others are left alone |
| Entitlements.SyncPassTakesEffect | apps/events/mitup_bot/events/supporter_check.py:302-374 | an active member holds the higher of entitlement and floor; others are left alone |
| Entitlements.GrantAndUnlinkTakeEffect | apps/bot/mitup_bot/handlers/supporter_grant/utils.py:121-138 | a grant sets the floor and raises a linked level or sets an unlinked one; an unlink leaves the floor and no row |
| Entitlements.ApplyMembershipTransition | apps/bot/mitup_bot/web/patreon.py:545-581 | the new record, and an outcome that says up, down, grace or unchanged exactly when it is so |
| Entitlements.AdvanceGraceFlow | apps/events/mitup_bot/events/supporter_check.py:233-274 | extended for an active patron, then notice, then revocation to the floor |
| Entitlements.ApplyTargetLevel | apps/events/mitup_bot/events/supporter_check.py:302-342 | the entitled tier clamped to the floor, with a fresh runway iff it changes anything |
| Entitlements.LinkPatreonAccount | apps/bot/mitup_bot/patreon_link.py:208-297 | refused links change nothing; others set level and runway but leave the mark of an earlier notice |
| Entitlements.ApplyGrant | apps/bot/mitup_bot/handlers/supporter_grant/utils.py:121-138 | the floor is set; a linked user's level only moves up, an unlinked one's is the floor |
| RateLimiter.RequestKeyOf | libs/telegram/mitup_bot/rate_limiter.py:70-91 | the scope a request is shaped by: a user exactly for a number that is not negative, an inline edit exactly without a chat |
| RateLimiter.KeysSeparateChats | libs/telegram/mitup_bot/rate_limiter.py:62-91 | two requests share a key and a pause iff they name one chat, never with an inline edit; only a request with no recipient has none |
| RateLimiter.SpellingDoesNotMatter | libs/telegram/mitup_bot/rate_limiter.py:81-83 | a chat id in a string names the same chat as the number |
| RateLimiter.ClearAtCoversEveryHold | libs/telegram/mitup_bot/rate_limiter.py:136-148 | the time a key is clear is no earlier than any hold on it or on everything |
| RateLimiter.ClearAtIsSomeHold | libs/telegram/mitup_bot/rate_limiter.py:136-148 | and no later than the latest of them |
| RateLimiter.HoldTouchesOnlyItsKey | libs/telegram/mitup_bot/rate_limiter.py:141-148 | a keyed hold changes no other key's wait and never shortens its own |
| RateLimiter.RetryAfterPauses.Remaining | libs/telegram/mitup_bot/rate_limiter.py:136-139 | positive exactly when the full history says so, and then by the same amount |
| RateLimiter.RetryAfterPauses.Hold | libs/telegram/mitup_bot/rate_limiter.py:141-148 | adds one hold to the history, keeps the map true to it and free of elapsed pauses of other keys |
| RateLimiter.RetryAfterPauses.Prune | libs/telegram/mitup_bot/rate_limiter.py:150-153 | forgets elapsed pauses only, with no effect on any wait |
| RateLimiter.MitupRateLimiter.Wait | libs/telegram/mitup_bot/rate_limiter.py:155-158 | returns only once the key is clear, even when others extend the pause during a sleep |
| RateLimiter.MitupRateLimiter.OnThrottled | libs/telegram/mitup_bot/rate_limiter.py:211-222 | holds the key for the time asked plus the grace |
| RateLimiter.MaxRetries | libs/telegram/mitup_bot/rate_limiter.py:235 | an asked number other than 0 is used, otherwise the configured one |
| RateLimiter.MitupRateLimiter.ProcessRequest | libs/telegram/mitup_bot/rate_limiter.py:224-261 | at most max_retries + 1 calls, every 429 held including the exhausting one, and no call, not even the first, handed on before every pause held over its key by then |
| RateLimiter.EarlierHoldDelaysEveryAttempt | libs/telegram/mitup_bot/rate_limiter.py:243-247 | a pause held for another request before this one began delays all its attempts |
| Decimal.ReadPrintInt | libs/core/mitup_bot/callback_data.py:89-92 | a printed int reads back |
| CallbackWire.RecogniserIsThePattern | libs/core/mitup_bot/callback_data.py:120-142 | the pattern accepts a string with given groups iff the recogniser returns them, so a match has one reading |
| CallbackWire.PrintedSplits | libs/core/mitup_bot/callback_data.py:89-92 | a printed form falls apart where its parts were joined |
| CallbackWire.CanonicalSuffixParses | libs/core/mitup_bot/callback_data.py:290-306 | every canonical suffix matches its own pattern and validates to itself |
| CallbackWire.RoundTripsIffCanonical | libs/core/mitup_bot/callback_data.py:89-142 | parsing the printed form returns the same data iff it is canonical, for every format |
| CallbackWire.PrintingIsInjective | libs/core/mitup_bot/callback_data.py:171-174 | two canonical buttons never share a wire form |
| CallbackWire.AcceptedIsCanonicalIff | libs/core/mitup_bot/callback_data.py:94-118 | whatever is accepted is canonical unless it names meeting 0 |
| CallbackWire.WireNamesTheDeclaration | libs/core/mitup_bot/callback_data.py:89-142 | every printed and every accepted form begins with the action and the entity |
| CallbackWire.AcceptedByOneDeclaration | libs/core/mitup_bot/callback_data.py:120-142 | a form two declarations accept has one action and one entity |
| CallbackWire.DocumentedBase | libs/core/mitup_bot/callback_data.py:74-92 | the documented example of the base format, and one with an origin |
| CallbackWire.DocumentedDate | libs/core/mitup_bot/callback_data.py:191-198 | the documented example of a date |
| CallbackWire.DocumentedSuffixes | libs/core/mitup_bot/callback_data.py:229-384 | the suffixes of the documented examples of the other formats |
| Lifecycle.LevelsByDuration | libs/core/mitup_bot/lifecycle.py:76-88 | groups every level, in order, under the duration its policy has, with no empty group |
| Lifecycle.GroupingIsTheLookup | apps/events/mitup_bot/events/lifecycle_queries.py:27-42 | for any duration function the grouped condition is the owner's own lookup, and it can be built iff all windows are whole days |
| Lifecycle.ResolvedWindows | apps/events/mitup_bot/events/lifecycle_queries.py:45-58 | every level's window in whole days, or the error iff one has a remainder |
| Lifecycle.IntervalDays | libs/core/mitup_bot/lifecycle.py:90-98 | the whole number of days, or none iff there is a remainder |
| Lifecycle.SweepsInDays | apps/events/mitup_bot/events/warn_meeting_deletions.py:34-44 | warned a week before 90 or 365 days of retention end, deleted after them and a week after the warning |
| Lifecycle.EventsTakeEffect | apps/events/mitup_bot/events/inactive_meetings.py:262-288 | what deactivation, reactivation, the sweeps and a tier change write, and that they write nothing else |
| Lifecycle.DueTimeIsTheSweepsIff | libs/data/mitup_bot/models/meetups.py:174-186 | the date shown is the one the sweep applies iff both stamps are set |
| Lifecycle.HigherTierNeverDeletesSooner | libs/core/mitup_bot/lifecycle.py:61-74 | moving up a tier brings neither warning nor deletion forward |
| Lifecycle.StampsTellTheRun | libs/data/mitup_bot/models/meetups.py:154-167 | in every run the stamps are the times of the last standing deactivation and warning, and the two marks of a warning are never apart |
| Lifecycle.NeverDeletedUnwarned | apps/events/mitup_bot/events/delete_meetings.py:35-46 | under arbitrary tier changes a deletion comes more than a week after a warning that still stands and more than the present retention after the deactivation |
| Lifecycle.Meetup.Reactivate | apps/bot/mitup_bot/handlers/meeting/reactivate_meeting.py:79-91 | an inactive meeting starts over with no stamp left |
| Lifecycle.WarnOwnerChunk | apps/events/mitup_bot/events/warn_meeting_deletions.py:99-128 | stamps, in place, exactly the nominated meetings whose digest did not raise |
| Lifecycle.DeleteOwnerChunk | apps/events/mitup_bot/events/delete_meetings.py:49-85 | takes exactly the deletable meetings whose notice did not raise |
| Calendar.LatestEndIsAdmitted | libs/core/mitup_bot/limits.py:140-147 | the latest end passes the duration check for every start and every zone with separated transitions, and shows the wall clock asked for iff the clocks do not skip it |
| Calendar.LatestEndIsTheFirstPass | libs/core/mitup_bot/limits.py:140-147 | no earlier instant shows that wall clock |
| Calendar.FirstFoldPassesIffShown | libs/core/mitup_bot/limits.py:130-147 | reading with fold 0 alone passes the check iff the wall clock is not skipped, so both folds are needed |
| Calendar.CapIsAWeek | libs/core/mitup_bot/limits.py:130-137 | the check admits a week of wall-clock time in the zone |
| Calendar.PeriodIs | libs/core/mitup_bot/limits.py:135-136 | the clocks are at the offset of the last transition that has come |
| Calendar.EveryInstantReadsBack | libs/core/mitup_bot/limits.py:146-147 | what the clocks show at an instant is read back as that instant by one of the folds |
| Calendar.RepeatedWallClock | libs/core/mitup_bot/limits.py:146-147 | of a repeated wall clock fold 0 is the first pass |
| Calendar.SkippedWallClock | libs/core/mitup_bot/limits.py:146-147 | a skipped wall clock reads after the gap for fold 0 and before it for fold 1 |

## Left out

- Telegram, Patreon and HTTP clients, web routes, handler registration and views: each outbound call is an arbitrary answer.
- The ORM, transactions and migrations: a committed transaction is one step, and a unique-constraint race is an input of the operation that can lose it.
- Logging, metrics, tracing and the reporter of the queue: no effect on the state the theorems are about, except the counters kept in `RefreshQueue`.
- asyncio internals: locks are first come first served, events are level triggered, cancellation arrives only at an await. `await_ready_job` is the pair of steps that falls asleep and wakes up.
- The leaky buckets of the base rate limiter and the base update processor's semaphore: their source is not part of this model; they appear as arbitrary delays.
- Rendering and hashing: content is opaque and its digest injective; a body stripped of custom emoji counts as the original.
- Immediate-mode edits, which bypass the outbox and the digests, and cards posted while a write runs.
- Freshness together with the digest cache: an edit skipped for its digest is taken for one that lands, and the digest theorems take the writers of a card one at a time.
- FreshnessRaces.CrossedDrawsLoseACard: two invocations on one card are shown to need an order; what orders them in practice, row locks and the per-user lock, is not composed with the queue.
- Settling.WorkerSettlesIff: speaks of states with no invocation open; with several open, which cards a merge of their refreshes happens to repair depends on the order of their submits, and only `Freshness.StepKeepsInvIff` speaks of that.
- Keyed sends filed under a meeting's own key, which no caller does.
- Terminal and inline fan-outs beyond `MeetingRefresh` and `KeyedSend`, and the timeout of one job, which is a failed job here.
- Calls of an outbox other than card edits in `DigestCache`, and the marking of unreachable users inactive: the drain reports the users, the row update is not modelled.
- Aliases of callback data, which only widen what a pattern accepts; the trailing newline `$` admits and Unicode digits of `\d`.
- RateLimiter.SpellingDoesNotMatter: white space, underscores and Unicode digits, which `int` also reads, are not.
- RateLimiter.MitupRateLimiter.ProcessRequest: the metric of delayed requests and the bucket probe behind it are not modelled, and a script that runs out stands for a request still waiting.
- Roster.Meetup.CreateJoinedLink: the ORM's own appending through the back-reference and the database's uniqueness of (user, meeting) are not modelled; keys are given by the caller, later than all before.
- The sort of `waiting_links` is a library call; here it is an insertion sort with the same result.
- Entitlements.LinkPatreonAccount: the uniqueness race is the same input as the check before it, since both leave everything as it was; the unlink handler is the step `Unlink` only.
- The subscription's hosts-group bans, the creator-token refresh and the chunking of the sweeps.
- Calendar.LatestEndIsAdmitted: zones whose transitions lie closer together than their offset changes are excluded; the wall-clock arithmetic is in whole seconds.
- Broadcasts, deactivation conditions and meeting edit handlers: only the state changes the theorems need appear as steps.
