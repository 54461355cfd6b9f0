# ChatTea backend: verified model

A Dafny model of the hand-written protocols that the ChatTea backend keeps on PostgreSQL, and proofs about
them. The SQL `WHERE` guards are the protocol: each guarded statement is a function on a row or a table, each
repository is a class whose methods update its tables in place and are proved to compute those functions, and
each protocol is a state machine over those functions whose runs interleave workers, crashes and requests in
every order. One database transaction is one atomic step. Times are integer milliseconds. A caller reads the
clock before its statement runs, so every event carries the moment that its caller read; where a result needs
a clock, the machine has one that never goes back, and moments lie anywhere before it.

An operation is specified twice. The function that its method computes is what the machines run; beside it a
predicate says what the operation owes its caller, in terms of the tables before and after: when exactly it
succeeds, which refusal goes with which cause, what changes and what stands. Those predicates are named
`...Answer` (`UploadService.FinalizeAnswer`, `Matching.ActAnswer`, `Phone.ResetAnswer`), the methods ensure
them, and they do not mention the functions.

`dafny verify dfyconfig.toml` checks the project.

| modules | what they model |
|---|---|
| `Common`, `ClaimBatch` | optional columns, the clock, backoff, sums, ordered and limited selection |
| `UploadTable`, `UploadPipeline`, `UploadFences`, `UploadOrphans` | verified uploads over the database and an object store: the machine, its fences, its orphans |
| `AccountDeletion`, `DeletionLease`, `DeletionBatch` | account deletion: table, lease protocol, maintenance batch |
| `UploadLifecycle` | uploads and account deletion as one system |
| `UploadService`, `UploadCleanup`, `UploadQuota` | finalizeUpload, the cleanup batch, the two quotas |
| `PushTable`, `PushRules`, `PushOutcomes`, `PushService`, `PushSystem`, `PushDelivery` | the push outbox: tables, answers of the provider and what they decide, batches, the system, delivery |
| `Balances`, `Billing`, `BillingOrder`, `BillingAnswers`, `Matching`, `Credits` | the billing ledger, matching, and the credits that connect them |
| `Phone`, `PhoneLifecycle`, `Sessions` | phone verification and refresh sessions |
| `Chat`, `ChatPaging`, `ReadReceipts` | message pages, read receipts and idempotent sends |
| `Migrations` | the migration runner |

Some results say exactly when the code keeps what one would expect of it:

- Old moments and uploads (`UploadOrphans.ClaimIsSafeIff`, `UploadFences.FenceRegainedIff`). finalizeUpload
  reads the clock before its claim transaction, and a claim that comes late takes the lease of its old moment.
  If a put under a longer lease is still under way on the row, the claim shortens the cleanup lease that
  protects it, cleanup deletes the object and forgets its key, and the put lands as an orphan: a claim is safe
  if and only if its lease does not end before that of a live write, which a released row's cleanup lease
  shows (`UploadOrphans.ReleasedRowShowsIff`). A claim at the very moment of an earlier one also gives that
  worker its lease back; under a lease that still runs no two workers ever hold a row. The runs are
  `UploadOrphans.LateClaimOrphans` and `UploadFences.LateClaimSharesFence`.
- Account deletion and the object store. The upload statements of anonymisation keep the cleanup lease only for
  rows that are `processing`. Taken alone, as repository calls, they are safe if and only if the owner has no
  live write on any other row (`UploadOrphans.AnonymizeIsSafeIff`). The account's life guarantees that: hidden
  accounts pass no access check and are deleted only after the grace period, so with requests of bounded
  length no write is live then (`UploadLifecycle.DeletionMeetsNoLiveWrite`), and deletion orphans nothing
  (`UploadLifecycle.LifecycleLeavesNoOrphans`).
- Restores (`DeletionLease.RestoredIff`). A restore compares the deadline with a moment that it read before its
  statement runs, so it can lift the deletion of an account that a worker has already claimed
  (`DeletionLease.LateRestoreLiftsClaimed`): it does if and only if that moment lies before the deadline.
  A worker's lost lease comes back if and only if the account is claimed again at the same moment
  (`DeletionLease.LeaseRegainedIff`).
- Subscriptions (`BillingOrder.SubscriptionOrderMattersOnlyForTies`). Of two newest events with the same
  timestamp the first delivered wins, so the order of delivery is irrelevant if and only if no such tie
  carries different plans. Consumables refuse such ties.
- Migrations (`Migrations.RerunsConverge`). Rerunning after crashes reaches the uninterrupted result if and
  only if no run stopped between building an index and marking it.

## Model

The results come first, the operations that they are about after them, repository by repository.

| member | source | states |
|---|---|---|
| `UploadPipeline.RunKeepsInv` | src/modules/upload/upload.repository.ts:63-342 | Every interleaving of finalizers, cleanup workers, crashes and anonymisation keeps the invariant, whatever the store's timing and however old the callers' moments. |
| `UploadFences.ReachableStatesAreSafe` | src/modules/upload/upload.repository.ts:92-195 | In every reachable state a verified row's object is in the store, no two finalizers hold one row under a running lease, a prepared row's cleanup lease is its processing lease, and the deletion-state, verified-fields and final-size checks hold. |
| `UploadFences.CleanupSparesLiveFinalize` | src/modules/upload/upload.repository.ts:323-342 | No cleanup claim takes a row whose processing lease is live. |
| `UploadFences.FailedIsAbsorbing` | src/modules/upload/upload.repository.ts:152-316 | Failed is absorbing, and verified is left only by anonymising the owner. |
| `UploadFences.FenceRegainedIff` | src/modules/upload/upload.repository.ts:63-114 | A finalizer that lost its processing lease gets it back in a step if and only if that step claims the row at the moment of its own claim, so that the leases are equal. |
| `UploadFences.LostFenceStaysLost` | src/modules/upload/upload.repository.ts:92-113 | Without such a claim a lost lease stays lost over every run. |
| `UploadFences.FenceLostEarlyStaysLost` | src/modules/upload/upload.repository.ts:92-113 | A lease lost before it has run out is lost for good, whatever is claimed later. |
| `UploadFences.LateClaimSharesFence` | src/modules/upload/upload.service.ts:52-58 | A run in which a claim with an old moment gives a second worker the first one's expired lease. |
| `UploadFences.SupersededFinalizerChangesNothing` | src/modules/upload/upload.repository.ts:133-235 | Without the lease, prepare, fail, release and verify leave the table alone; verify succeeds only on a row verified with the same key. |
| `UploadOrphans.RunKeepsTimed` | src/modules/upload/upload.service.ts:99-133 | Timely puts, claims that undercut no live write and anonymisations without a stray write keep every live write shielded and every stored object answered for. |
| `UploadOrphans.AllowedRunsLeaveNoOrphans` | src/modules/upload/upload.service.ts:99-161 | In such a run every final object belongs to a verified row or to one still due for final deletion. |
| `UploadOrphans.ClaimIsSafeIff` | src/modules/upload/upload.service.ts:52-58 | A finalize claim is safe for every later allowed run if and only if its lease does not end before that of a live write on the row. |
| `UploadOrphans.ReleasedRowShowsIff` | src/modules/upload/upload.repository.ts:92-113 | For a released, prepared row the caller can tell from the row: the claim undercuts no write, in any system that the row fits, if and only if the row's cleanup lease has run out or reaches no further than the claim's. |
| `UploadOrphans.LateClaimOrphans` | src/modules/upload/upload.service.ts:52-118 | A timely run without any deletion in which a claim with an old moment orphans an object. |
| `UploadOrphans.AnonymizeIsSafeIff` | src/modules/user/user.repository.ts:278-304 | The two upload statements of anonymisation, taken alone, are safe for every later allowed run if and only if no live write of the owner targets a row that is not processing. |
| `UploadOrphans.DeletionDuringFailedPutOrphans` | src/modules/user/user.repository.ts:284-290 | A state, reached by timely steps, in which those statements orphan an object. |
| `UploadLifecycle.JointStepKeepsInv` | src/modules/user/user.service.ts:72-116 | With requests of a bounded length, no lease of a scheduled account's finalizers outlives its deadline. |
| `UploadLifecycle.DeletionMeetsNoLiveWrite` | src/strategys/access-token.strategy.ts:28-36 | When an account is deleted, every lease of its owner's finalizers has run out. |
| `UploadLifecycle.LifecycleLeavesNoOrphans` | src/modules/user/user.repository.ts:145-304 | Over any run of uploads, cleanup, schedules, restores, claims and deletions with requests of bounded length, timely puts and claims that undercut no live write leave no orphan: deletion needs no assumption. |
| `UploadService.FinalizedIsARun` | src/modules/upload/upload.service.ts:49-134 | In any system an uninterrupted call by a new worker, whatever moment it read, is a run of the interleaving model. |
| `UploadService.FinalizeSucceeds` | src/modules/upload/upload.service.ts:49-134 | On a finalizable upload a call whose image is valid and whose put succeeds verifies the row, stores the object and touches nothing else. |
| `UploadService.FinalizeAnswers` | src/modules/upload/upload.service.ts:49-134 | Whatever a call finds and whatever the store answers: a missing row, a stored failure, expiry, a running lease, an invalid or unavailable image, other or empty content and a failed put each have their own answer, and the caller's row and the store end exactly as it says; no other row changes. |
| `UploadService.PayloadIffVerified` | src/modules/upload/upload.service.ts:49-134 | A call succeeds if and only if it leaves the caller's row verified; it then returns the row's object, which is in the store if it was there for an already verified row. |
| `UploadTable.CreateAnswers` | src/modules/upload/upload.repository.ts:11-60 | An upload is created if and only if fewer than five are live, fewer than twenty were made within the hour and the id is free; each refusal names its cause. |
| `UploadTable.CleanupClaimAnswers` | src/modules/upload/upload.repository.ts:244-259 | A claim leaves a due row out only if it took as many as it may, each of them more urgent. |
| `UploadCleanup.BatchMeets` | src/modules/upload/upload.service.ts:136-186 | Every claimed row ends as its own deletions went, the rest stand, a key leaves the store only as a claimed row's doomed object, and the rows done with are those let go. |
| `UploadCleanup.RetriedExactlyAfterBackoff` | src/modules/upload/upload.repository.ts:285-342 | A row let go is never due again, any other one exactly from its backoff on. |
| `UploadCleanup.DueIff` | src/modules/upload/upload.repository.ts:323-342 | A row is due if and only if something is left to delete, no lease shields it, and an open upload has expired unless a doomed object waits. |
| `UploadCleanup.WorkComesDue` | src/modules/upload/upload.repository.ts:323-342 | A row is due from some moment on if and only if an object of it is left to delete. |
| `UploadCleanup.CleanupBatchIsARun` | src/modules/upload/upload.service.ts:136-186 | A cleanup batch is a run of the interleaving model. |
| `UploadQuota.QuotasHold` | src/modules/upload/upload.repository.ts:20-60 | For any order of request moments: no hour holds more than twenty creates of a user, and from the latest create on at most five unexpired uploads are open. |
| `UploadQuota.QuotaStepKeeps` | src/modules/upload/upload.repository.ts:20-60 | Each create and every other step keeps both quotas, for every window. |
| `DeletionLease.DeletedIsFrozen` | src/modules/user/user.repository.ts:253-272 | An account is anonymised at most once. |
| `DeletionLease.DeletionFollowsDeadline` | src/modules/user/user.repository.ts:259-272 | Only the current lease holder deletes, never before the deadline. |
| `DeletionLease.RestoredIff` | src/modules/user/user.repository.ts:183-196 | A scheduled account, claimed or not, is restored in a run if and only if a restore that compared with a moment before the deadline takes place before the deletion. |
| `DeletionLease.ClaimedIsNotRestoredLater` | src/modules/user/user.repository.ts:183-238 | A claimed account is never restored by restores whose moment is not before the claim's. |
| `DeletionLease.LateRestoreLiftsClaimed` | src/modules/user/user.repository.ts:193-194 | A run in which a restore read before the deadline lifts the deletion of an account that a worker has claimed. |
| `DeletionLease.FirstDeadlineStands` | src/modules/user/user.repository.ts:145-164 | Without a restore the first deadline stands until deletion, and scheduling again returns it. |
| `DeletionLease.LeaseRegainedIff` | src/modules/user/user.repository.ts:198-238 | A worker that lost the account's lease gets it back in a step if and only if that step claims the account at the moment of the worker's own claim. |
| `DeletionLease.LostLeaseStaysLost` | src/modules/user/user.repository.ts:240-272 | Without such a claim a superseded holder can neither anonymise nor release, ever again. |
| `DeletionLease.HoldersShareTheMoment` | src/modules/user/user.repository.ts:198-238 | Two workers hold one account only under claims made at the same moment. |
| `DeletionLease.LateClaimSharesLease` | src/modules/user/user.repository.ts:198-222 | A run in which a claim with an old moment makes two workers hold one account. |
| `DeletionBatch.DeletionBatchIsARun` | src/modules/user/user.service.ts:86-115 | A maintenance batch is a run of the lease protocol. |
| `AccountDeletion.ClaimAnswers` | src/modules/user/user.repository.ts:198-222 | A claim takes accounts whose deadline has passed and that nobody holds, and leaves one out only if it took as many as it may, all with earlier deadlines. |
| `PushSystem.RunKeepsInv` | src/modules/notification/notification.repository.ts:36-286 | Every interleaving of notifications, token changes, deletions and delivery workers keeps the invariant. |
| `PushSystem.OpenJobsAreAimed` | src/modules/notification/notification.repository.ts:36-162 | Every open job points at an existing token whose value is its snapshot and whose owner is the recipient; queued jobs have fewer than five sends, receipt-pending ones a ticket and fewer than eight checks. |
| `PushSystem.RegistrationIsSafe` | src/modules/notification/notification.repository.ts:71-143 | Registration keeps tokens unique, every open job aimed, and jobs in flight either unchanged or cancelled; when it succeeds, the token is there. |
| `PushSystem.InvalidationHitsTheSentToken` | src/modules/notification/notification.repository.ts:269-286 | An accepted result can only invalidate the token whose value was sent, and it belongs to the recipient. |
| `PushSystem.FenceOrigin` | src/modules/notification/notification.repository.ts:164-264 | Only the claim that hands out an attempt lets its result in, and the result shuts it out again. |
| `PushSystem.AttemptsAreHandledOnce` | src/modules/notification/notification.repository.ts:164-264 | No attempt is handed out twice and no attempt has two accepted results. |
| `PushSystem.LostFenceStaysLost` | src/modules/notification/notification.repository.ts:224-264 | An overtaken worker's result never changes anything. |
| `PushSystem.FinishedIsAbsorbing` | src/modules/notification/notification.repository.ts:36-264 | Delivered, failed, exhausted and cancelled jobs never change again, except that their token reference may be cleared or the job removed. |
| `PushSystem.SendAnswerDecides` | src/modules/notification/notification.service.ts:146-186 | In every state that the invariant allows, the answer to an accepted send attempt decides the job: ok waits a quarter of an hour for its receipt, no answer and the two transient errors send again later up to the fifth attempt, any other error is final; the token goes if and only if the device is not registered, and nothing else changes but its other jobs. |
| `PushSystem.ReceiptAnswerDecides` | src/modules/notification/notification.service.ts:188-219 | The same for receipts: ok delivers, a missing one is asked for again later up to the eighth check, an error is final, and the token goes if and only if the device is not registered. |
| `PushSystem.NotifyReachesEveryToken` | src/modules/notification/notification.repository.ts:36-60 | In every reachable state a new notification leaves exactly one queued job for each token of its recipient if push is enabled, and none otherwise. |
| `PushOutcomes.SendsSettle` | src/modules/notification/notification.service.ts:70-101 | Recording a request's answers in order: each claimed job ends as its own answer says unless an earlier answer revoked its token, exactly the revoked tokens go, and all other jobs stand. |
| `PushOutcomes.ChecksSettle` | src/modules/notification/notification.service.ts:103-132 | The same for receipts, by ticket; a batch with a job that has no ticket fails that job and asks for the others later. |
| `PushOutcomes.SendsCounted` | src/modules/notification/notification.service.ts:224-230 | The counters are the numbers of jobs that their own answers leave accepted, waiting, and finished without success. |
| `PushOutcomes.ChecksCounted` | src/modules/notification/notification.service.ts:232-238 | The same for receipts. |
| `PushTable.NotifyAnswers` | src/modules/notification/notification.repository.ts:36-60 | One queued job, due at once and aimed at the token's value, for each token of the recipient; nothing else changes. |
| `PushTable.RegisterAnswers` | src/modules/notification/notification.repository.ts:71-143 | Refused if and only if the value sits on another device; otherwise the device's row, or a new one, holds the value alone, queued jobs follow it, jobs in flight are cancelled, and all other tokens and jobs stand. |
| `PushTable.UnregisterAnswers` | src/modules/notification/notification.repository.ts:145-162 | Succeeds if and only if the device has a token of the user or none at all, and takes exactly the user's tokens there, with their open jobs cancelled. |
| `PushTable.AccountEventsMeet` | src/modules/user/user.repository.ts:165-322 | A scheduled deletion takes exactly the account's tokens and cancels their open jobs; anonymising takes its notifications and their jobs as well. |
| `PushTable.ClaimAnswers` | src/modules/notification/notification.repository.ts:164-222 | A claim leaves a due job out only if it took as many as it may, each of which comes first. |
| `PushDelivery.AcceptedResultsAreFew` | src/modules/notification/notification.service.ts:146-219 | Under any crashes and overtaking, at most five send results and eight receipt results of one job are accepted. |
| `PushDelivery.CrashFreeRunsFinish` | src/modules/notification/notification.service.ts:146-219 | In every run in which each attempt of a job is recorded before the next is handed out, at most five sends and eight checks of it are handed out; in every run it is finished after thirteen accepted results. |
| `PushDelivery.OpenJobsComeDue` | src/modules/notification/notification.repository.ts:356-370 | In every run an open job can be claimed from a certain moment on. |
| `PushDelivery.JobFinishesInSystem` | src/modules/notification/notification.service.ts:146-222 | From any state a waiting job, undisturbed, is finished by claims and results of the system within its rank, whatever the provider answers. |
| `PushDelivery.RoundsFinish` | src/modules/notification/notification.service.ts:146-222 | The rank argument: five sends and eight checks at most. |
| `PushDelivery.SendRound` | src/modules/notification/notification.service.ts:146-186 | A send round of the rank argument is a claim and a result of the system. |
| `PushDelivery.ReceiptRound` | src/modules/notification/notification.service.ts:188-219 | A receipt round likewise. |
| `PushDelivery.SendBatchIsARun` | src/modules/notification/notification.service.ts:70-101 | A whole send batch is a run of the system. |
| `PushDelivery.ReceiptBatchIsARun` | src/modules/notification/notification.service.ts:103-134 | A whole receipt batch is a run of the system. |
| `PushService.SendBatchShrinks` | src/modules/notification/notification.service.ts:70-101 | A batch leaves due at most what was due and not claimed. |
| `PushService.SendBatchesDrain` | src/modules/notification/notification.service.ts:70-101 | Repeated send batches at one moment drain the due set by at least `limit` each, whatever the provider answers. |
| `PushService.ReceiptBatchesDrain` | src/modules/notification/notification.service.ts:103-134 | The same for receipt batches. |
| `PushService.SummariesBalance` | src/modules/notification/notification.service.ts:224-238 | Every claimed job is counted exactly once. |
| `Common.BackoffBounds` | src/modules/notification/notification.service.ts:221-222 | The capped exponential delay is nondecreasing and between thirty seconds and an hour. |
| `Common.BackoffDoubles` | src/modules/notification/notification.service.ts:221-222 | It doubles with every attempt until it reaches the hour, at the eighth attempt. |
| `BillingOrder.OrderDoesNotMatter` | src/modules/billing/billing.repository.ts:26-187 | Any two deliveries of the same consistent events, permuted and repeated, end in the same records and balances. |
| `BillingOrder.NewestEventWins` | src/modules/billing/billing.repository.ts:116-153 | Every transaction ends in the state of its newest event; events without units that the table accepts leave nothing. |
| `BillingOrder.LedgerAndBalancesAgree` | src/modules/billing/billing.repository.ts:97-187 | After any webhooks, consistent or not: balances equal granted units, and each transaction's ledger telescopes to its units if granted and to nothing otherwise, in order of event time. |
| `BillingOrder.DeliveryPaysItsWorth` | src/modules/billing/billing.repository.ts:116-176 | One delivery changes a balance by exactly what it changes the user's granted units by. |
| `BillingOrder.SubscriptionOrderMattersOnlyForTies` | src/modules/billing/billing.repository.ts:52-54 | For consistent events, the order of delivery does not matter for subscriptions if and only if no two newest events of one user tie with different plans. |
| `BillingOrder.SubscriptionsEndNewest` | src/modules/billing/billing.repository.ts:45-73 | Every user ends with one of the newest subscription events. |
| `Billing.WebhookAnswers` | src/modules/billing/billing.repository.ts:26-187 | Every answer agrees with the tables: duplicate and payload conflict for a recorded id, each conflict by name, applied if and only if newer than what stands, with the delta by which the owner's balance and the transaction's worth move, stale with the standing state otherwise; a failure leaves nothing. |
| `BillingAnswers.RedeliveryChangesNothing` | src/modules/billing/billing.repository.ts:28-44 | Once a webhook was taken, whatever came since, the same one is answered as a duplicate, its id with another payload is refused, and neither changes anything. |
| `BillingAnswers.ConsumableAppliedIffNewest` | src/modules/billing/billing.repository.ts:97-187 | After any consistent deliveries a new consumable event fails if and only if its units are not accepted, is applied if and only if it is the newest of its transaction, is stale otherwise, and answers the state then shown and the delta paid. |
| `BillingAnswers.SubscriptionAppliedIffNewest` | src/modules/billing/billing.repository.ts:45-73 | A new subscription event is applied if and only if it is the newest of its user. |
| `Credits.CreditsAreConserved` | src/modules/matching/matching.repository.ts:247-364 | Over every run of webhooks, actions, undos and boosts a balance is the units granted less the superlikes standing and the boosts made. |
| `Credits.MatchesAreExact` | src/modules/matching/matching.repository.ts:173-389 | Two users are matched if and only if each likes the other; the match's room is its own and holds exactly the two; a like stands if and only if an active like or superlike does. |
| `Credits.RunKeepsMatches` | src/modules/matching/matching.repository.ts:164-389 | Every run keeps likes, actions, matches and rooms in agreement. |
| `Credits.BoostsNeverOverlap` | src/modules/matching/matching.repository.ts:344-364 | A user's boosts are pairwise disjoint for any order of request moments. |
| `Credits.DailyLimitHolds` | src/modules/matching/matching.repository.ts:256-277 | Under a fixed limit no UTC day ever holds more standing likes than allowed. |
| `Credits.PlanLimitHolds` | src/modules/matching/matching.service.ts:7-12 | From the empty tables, on a plan with a limit: at most 10, 20 or 40 standing likes a UTC day. |
| `Credits.UndoRestores` | src/modules/matching/matching.repository.ts:303-342 | Undoing an unmatched newest action restores likes, matches, rooms and balances; only the reverted action remains. |
| `Credits.RepeatAnswersTheSame` | src/modules/matching/matching.repository.ts:176-215 | Repeating an action that went through gives the same answer and changes nothing. |
| `Matching.ActAnswers` | src/modules/matching/matching.repository.ts:164-301 | Without an active action and with acceptable profiles an action goes through if and only if a superlike finds a credit and a new like a day with room; every other case has its own refusal and changes nothing; a superlike takes exactly one credit, and a returned like opens one room. |
| `PhoneLifecycle.VerificationsAreProper` | src/modules/phone/phone.repository.ts:23-157 | Over any interleaving a row is verified at most once, while latest, activated, in time, after one to five claimed attempts and for its purpose; attempts never exceed five; the quotas hold. |
| `PhoneLifecycle.OneClaimable` | src/modules/phone/phone.repository.ts:23-31 | At most one row of a phone can be claimed at any time. |
| `PhoneLifecycle.RowsOnlyAdvance` | src/modules/phone/phone.repository.ts:97-157 | Codes are set once, attempts grow, successes stay, removed rows do not return. |
| `Phone.ReserveKeepsQuota` | src/modules/phone/phone.repository.ts:50-95 | For every window and any moment: rows of a phone stay a minute apart, five an hour, twenty an hour of an address. |
| `Sessions.HashesRotateOnce` | src/modules/auth/auth.repository.ts:87-118 | Each stored hash wins at most one rotation. |
| `Sessions.EndedSessionsNeverRotate` | src/modules/phone/phone.repository.ts:183-218 | No hash stored before a password reset, logout or scheduled deletion is rotated after it, whatever came before and comes after. |
| `Sessions.ValidatedIsLive` | src/modules/auth/auth.service.ts:238-245 | A hash that validates is the live one and can be rotated at that moment. |
| `ChatPaging.BrowsingBackIsComplete` | src/modules/chat/chat.repository.ts:89-123 | The newest page and the pages before it, of any sizes, show every visible message exactly once, in order, and end. |
| `ChatPaging.BrowsingOnIsComplete` | src/modules/chat/chat.repository.ts:89-123 | The pages after a message, of any sizes, show exactly the later messages, in order. |
| `ChatPaging.EmptyPageMeansDone` | src/modules/chat/chat.repository.ts:89-123 | A page is empty if and only if nothing is left on that side. |
| `ChatPaging.FirstRowsArePrefix` | src/modules/chat/chat.repository.ts:107-122 | Ascending and limited is a prefix of the whole listing. |
| `ChatPaging.LastRowsAreSuffix` | src/modules/chat/chat.repository.ts:107-122 | Descending, limited and reversed is a suffix of it. |
| `ChatPaging.PageAfter` | src/modules/chat/chat.service.ts:44-64 | The page after a message is the slice of the listing that follows it. |
| `ChatPaging.PageBefore` | src/modules/chat/chat.service.ts:44-64 | The page before a message is the slice that precedes it. |
| `ChatPaging.NewestPage` | src/modules/chat/chat.service.ts:44-64 | The page without a cursor is the newest slice. |
| `ReadReceipts.ReceiptsNeverMoveBack` | src/modules/chat/chat.repository.ts:134-143 | Over any run a receipt never moves backwards. |
| `ReadReceipts.ReadStaysRead` | src/modules/chat/chat.repository.ts:47-57 | What has been read stays read. |
| `ReadReceipts.OnlyLaterMessagesAreUnread` | src/modules/chat/chat.repository.ts:125-145 | After a read, only messages sent later can become unread. |
| `ReadReceipts.ArrivalIsUnreadIff` | src/modules/chat/chat.repository.ts:49-57 | A message that arrives is unread if and only if it is someone else's and lies past the receipt. |
| `ReadReceipts.ResendingIsIdempotent` | src/modules/chat/chat.repository.ts:170-199 | A second send under one key finds the first message and changes nothing. |
| `Chat.MarkingReadsAll` | src/modules/chat/chat.repository.ts:47-57 | In every state, also with an erased boundary message, marking leaves nothing unread. |
| `PhoneLifecycle.PasswordIsLastReset` | src/modules/phone/phone.repository.ts:179-218 | Over every run that changes accounts in no other way, a user's password is that of the last successful reset. |
| `PhoneLifecycle.ResetEndsSessions` | src/modules/phone/phone.repository.ts:190-214 | A successful reset verifies its row and ends every session of its user, and no other. |
| `Phone.ReserveAnswers` | src/modules/phone/phone.repository.ts:41-95 | A code is reserved if and only if the phone has no row younger than a minute and fewer than five, and the address fewer than twenty, younger than an hour; each refusal names its cause. |
| `Phone.RowAnswers` | src/modules/phone/phone.repository.ts:97-157 | When exactly a code is set, an attempt claimed and a row verified, and what that changes. |
| `Phone.ResetAnswers` | src/modules/phone/phone.repository.ts:179-218 | A reset succeeds if and only if the phone has a user and its newest row is an unexpired, unverified, tried reset; the row is then verified, the user has the new password and no session, and everything else stands; otherwise nothing changes. |
| `Chat.CreateAnswers` | src/modules/chat/chat.repository.ts:170-199 | A message is created if and only if the sender has not used the key in the room; otherwise the one that has it is answered. |
| `Chat.MarkAnswers` | src/modules/chat/chat.repository.ts:125-145 | The receipt moves to the newest message shown if and only if that lies further, and no other receipt moves. |
| `Chat.PageRefusedIff` | src/modules/chat/chat.service.ts:44-64 | A page is refused if and only if fewer than one message is asked for, two cursors are given or the cursor is not shown in the room, each with its code; fifty is the default and a hundred the limit. |
| `ReadReceipts.UnreadAreTheLaterOnes` | src/modules/chat/chat.repository.ts:47-57 | In every reachable state the unread messages are those that others sent after the last message read, or after its moment once it is erased. |
| `ReadReceipts.OnlySendersChangeMessages` | src/modules/chat/chat.repository.ts:201-226 | Over every run a message shows its sender's last edit and is hidden if and only if its sender hid it. |
| `Migrations.HistoriesAreSafe` | scripts/migrate.ts:87-151 | Over any runs, crashes and directories: recorded files have their effect (an index live and marked), transactional files take effect at most once, nothing recorded or committed is taken back, and a live index goes only when a committed transactional file drops it. |
| `Migrations.IndexFilePreserves` | scripts/migrate.ts:68-85 | The runner itself drops and changes no live index. |
| `Migrations.RerunsConverge` | scripts/migrate.ts:87-151 | The same over any number of interrupted runs; a blocked directory stops every run without a change. |
| `Migrations.RerunConvergesIff` | scripts/migrate.ts:87-151 | A rerun reaches the uninterrupted result if and only if the run did not stop between building an index and marking it. |
| `Migrations.FileResumes` | scripts/migrate.ts:68-149 | A file left unfinished is taken up with the clean result, or its index was left unmarked. |
| `Migrations.UnseenBuildBlocks` | scripts/migrate.ts:139-147 | The blocking case does occur. |
| `Migrations.FileAnswers` | scripts/migrate.ts:94-149 | An undisturbed file goes through if and only if it is well formed, not recorded with another checksum and its index is not live under another marker; each obstacle is named and changes nothing. |
| `Migrations.RunSucceedsIff` | scripts/migrate.ts:92-151 | An uninterrupted run succeeds if and only if it leaves the whole directory recorded; otherwise it names the obstacle of the first file that is not. |
| `Migrations.SuccessMeansApplied` | scripts/migrate.ts:92-151 | A run that ends well, whatever happened to it, has recorded every file with its content. |
| `UploadTable.UploadRepository.CreatePendingUpload` | src/modules/upload/upload.repository.ts:11-60 | Computes `CreatePending` and ensures `CreateAnswer`: when exactly an upload is created, and why not. |
| `UploadTable.UploadRepository.ClaimFinalize` | src/modules/upload/upload.repository.ts:63-114 | Answers verified, failed, expired, busy or claimed, in the order the code tests them, and writes only the expired and the claimed row. |
| `UploadTable.UploadRepository.PrepareFinalObject` | src/modules/upload/upload.repository.ts:116-150 | Under the processing lease writes key, deletion mark and cleanup lease; a state conflict or an empty object changes nothing. |
| `UploadTable.UploadRepository.MarkVerified` | src/modules/upload/upload.repository.ts:152-195 | Verifies under the lease, or returns a row already verified with the same key, or reports a conflict or an empty object. |
| `UploadTable.UploadRepository.MarkFailed` | src/modules/upload/upload.repository.ts:197-218 | Fails the user's row if and only if it is being processed under the caller's lease. |
| `UploadTable.UploadRepository.ReleaseFinalizeLease` | src/modules/upload/upload.repository.ts:220-235 | Returns the row to pending if and only if it is being processed under the caller's lease. |
| `UploadTable.UploadRepository.MarkStagingDeleted` | src/modules/upload/upload.repository.ts:237-242 | Marks the staging object deleted and drops the cleanup lease, whatever the row's state. |
| `UploadTable.UploadRepository.ClaimCleanupBatch` | src/modules/upload/upload.repository.ts:244-283 | Leases exactly the first due rows in claim order, fails the open ones, and reports `hasMore` exactly. |
| `UploadTable.ClaimLeavesTheRestDue` | src/modules/upload/upload.repository.ts:264-283 | With a lease in the future, what is due after a claim is what was due and not claimed. |
| `UploadTable.UploadRepository.ApplyCleanupResult` | src/modules/upload/upload.repository.ts:285-316 | Records a cleanup result only under the cleanup lease it was made for. |
| `UploadTable.UploadRepository.AnonymizeOwner` | src/modules/user/user.repository.ts:278-304 | The two upload statements in order; all of the owner's rows fail, and only one that is being processed with an object on record keeps cleanup away. |
| `UploadService.Service.FinalizeUpload` | src/modules/upload/upload.service.ts:49-134 | Computes `Finalized` and ensures `FinalizeAnswer`: each outcome has its own answer, row and store. |
| `UploadCleanup.CleanupWorker.CleanupExpiredStagingBatch` | src/modules/upload/upload.service.ts:136-186 | The cleanup batch: exactly the first due rows are worked off, the store loses exactly the keys whose deletion took effect, and the summary counts them. |
| `UploadCleanup.CleanupWorker.CleanUpOne` | src/modules/upload/upload.service.ts:143-170 | One row: required deletions, the recorded result and the backoff. |
| `ClaimBatch.SelectFirst` | src/modules/upload/upload.repository.ts:246-259 | Ordered and limited selection: the first `limit` due rows, or all of them. |
| `AccountDeletion.UserRepository.ScheduleDeletion` | src/modules/user/user.repository.ts:145-164 | An account that is there and not deleted has a deadline afterwards, the first one if it had one; only a first schedule changes anything. |
| `AccountDeletion.UserRepository.RestoreScheduledDeletion` | src/modules/user/user.repository.ts:183-196 | Succeeds if and only if the deadline lies ahead and the account is not deleted; forgets schedule, lease and attempts. |
| `AccountDeletion.UserRepository.ClaimDueDeletionBatch` | src/modules/user/user.repository.ts:198-238 | Leases exactly the first due accounts and reports `hasMore` exactly. |
| `AccountDeletion.UserRepository.ReleaseDeletionLease` | src/modules/user/user.repository.ts:240-251 | Drops the lease only for its holder. |
| `AccountDeletion.UserRepository.AnonymizeDeletedAccount` | src/modules/user/user.repository.ts:253-272 | Deletes if and only if the lease is the current one and still running and the deadline has passed. |
| `AccountDeletion.UserRepository.ProcessDueAccountDeletionBatch` | src/modules/user/user.service.ts:86-115 | The worker's batch: each claimed account ends deleted or released for a retry, nothing else changes, and the counts are exact. |
| `PushTable.NotificationRepository.CreateWithPushOutbox` | src/modules/notification/notification.repository.ts:36-60 | One queued job for each token of the recipient, aimed at its value. |
| `PushTable.NotificationRepository.RegisterPushToken` | src/modules/notification/notification.repository.ts:71-143 | Conflict, refresh, rotation and takeover, with what each does to the jobs. |
| `PushTable.NotificationRepository.UnregisterPushToken` | src/modules/notification/notification.repository.ts:145-162 | Cancels the open jobs of the device's own tokens and removes them. |
| `PushTable.NotificationRepository.ClaimSendBatch` | src/modules/notification/notification.repository.ts:164-192 | Claims exactly the first due sends, counts the attempt, and reports `hasMore` exactly. |
| `PushTable.NotificationRepository.ClaimReceiptBatch` | src/modules/notification/notification.repository.ts:194-222 | The same for receipts. |
| `PushTable.NotificationRepository.ApplySendResults` | src/modules/notification/notification.repository.ts:224-243 | Applies each result whose attempt still holds its job, in order. |
| `PushTable.NotificationRepository.ApplyReceiptResults` | src/modules/notification/notification.repository.ts:245-264 | The same for receipts. |
| `PushTable.NotificationRepository.InvalidatePushToken` | src/modules/notification/notification.repository.ts:269-286 | Cancels the token's other open jobs and removes the token. |
| `PushTable.ClaimLeavesTheRestDue` | src/modules/notification/notification.repository.ts:188-222 | What is due after a claim is what was due and not claimed. |
| `PushService.Service.ProcessPushOutboxBatch` | src/modules/notification/notification.service.ts:70-101 | Claims, sends, records and counts; ensures `SendBatchAnswer` and the counters as numbers of outcomes. |
| `PushService.Service.ProcessPushReceiptBatch` | src/modules/notification/notification.service.ts:103-134 | The same for receipts, with `ReceiptBatchAnswer`. |
| `Balances.BalanceTable.Credit` | src/modules/billing/billing.repository.ts:157-176 | The upsert that adds a delta to a balance. |
| `Billing.BillingRepository.ApplyRevenueCatEvent` | src/modules/billing/billing.repository.ts:26-80 | Computes `Delivered` and ensures `WebhookAnswer`; a failure leaves nothing, not even the recorded event. |
| `Billing.BillingRepository.ApplyConsumableTransition` | src/modules/billing/billing.repository.ts:97-187 | Identity and timestamp conflicts, stale events, units that the table refuses, and the transition with its balance and ledger entry. |
| `Matching.MatchingRepository.ActOnCandidate` | src/modules/matching/matching.repository.ts:164-301 | Computes `Act` and ensures `ActAnswer`: replay, each refusal, and what a success records, as one transaction. |
| `Matching.MatchingRepository.MatchIfReverseExists` | src/modules/matching/matching.repository.ts:366-389 | Opens a room and a match when the reverse like exists and no match does. |
| `Matching.MatchingRepository.UndoLastAction` | src/modules/matching/matching.repository.ts:303-342 | Reverts one of the newest active actions, takes back its like and its credit, if and only if the two have not matched. |
| `Matching.MatchingRepository.ActivateBoost` | src/modules/matching/matching.repository.ts:344-364 | A boost starts if and only if a credit is there and none is running; it takes one credit and lasts half an hour. |
| `Phone.PhoneRepository.ReserveVerification` | src/modules/phone/phone.repository.ts:41-95 | Cooldown, phone limit, address limit, or a pending row. |
| `Phone.PhoneRepository.ActivateVerification` | src/modules/phone/phone.repository.ts:97-104 | Sets code and expiry if and only if the row is the newest and still pending. |
| `Phone.PhoneRepository.DeleteVerification` | src/modules/phone/phone.repository.ts:106-108 | Removes the row. |
| `Phone.PhoneRepository.ClaimVerificationAttempt` | src/modules/phone/phone.repository.ts:117-139 | Counts an attempt if and only if the row is the phone's newest, of the purpose, unexpired, unverified and tried fewer than five times. |
| `Phone.PhoneRepository.MarkAsVerified` | src/modules/phone/phone.repository.ts:141-157 | Verifies the row if and only if it is the newest, unexpired, unverified and tried. |
| `Phone.PhoneRepository.ResetPasswordWithVerification` | src/modules/phone/phone.repository.ts:179-218 | Computes `ResetPassword` and ensures `ResetAnswer`: all of it if and only if the reset is earned, or nothing. |
| `Sessions.AuthRepository.SaveRefreshToken` | src/modules/auth/auth.repository.ts:65-77 | One session a user and device, replaced on conflict. |
| `Sessions.AuthRepository.RotateRefreshToken` | src/modules/auth/auth.repository.ts:79-118 | Replaces the session if and only if the user exists, the stored hash is the expected one and the session has not expired. |
| `Sessions.AuthRepository.DeleteRefreshToken` | src/modules/auth/auth.repository.ts:120-124 | Removes the device's session. |
| `Sessions.SessionTable.DropUser` | src/modules/phone/phone.repository.ts:214-214 | Removes every session of the user. |
| `Chat.ChatRepository.CreateMessage` | src/modules/chat/chat.repository.ts:170-199 | Inserts, or returns the message that already has the key. |
| `Chat.ChatRepository.EditMessage` | src/modules/chat/chat.repository.ts:201-216 | Only the sender changes the text, only while the message is shown; every other message stands. |
| `Chat.ChatRepository.DeleteMessage` | src/modules/chat/chat.repository.ts:218-226 | Only the sender hides a message that is shown; every other message stands. |
| `Chat.ChatRepository.MarkRoomRead` | src/modules/chat/chat.repository.ts:125-145 | Moves the receipt to the newest visible message if that is further, and leaves nothing unread. |
| `Migrations.Runner.PrepareConcurrentIndexTarget` | scripts/migrate.ts:68-77 | Keeps this file's live index, refuses another's, drops an invalid one. |
| `Migrations.Runner.ApplyIndexFile` | scripts/migrate.ts:127-148 | Prepare, build, mark and record, with every failure and crash. |
| `Migrations.Runner.ApplyFile` | scripts/migrate.ts:104-149 | One file, with checksum check and both modes. |
| `Migrations.Runner.RunMigrations` | scripts/migrate.ts:87-151 | A whole run over the directory; when it ends well every file is recorded. |

## Left out

- Statement-level READ COMMITTED races, `SKIP LOCKED` (claims see every due row), advisory-lock hash
  collisions and the planner: every transaction is one atomic step.
- Staging objects are not in the modelled store, which holds final objects; their deletion is an outcome.
- Columns that no guard reads (updatedAt, titles, bodies, routes, error texts, sentAt, expected content type
  and size, user agent) and the 32-bit width of counters.
- Upload input validation, image decoding, presigned URLs, object reads and puts, the push and SMS providers:
  outcomes of these calls are parameters.
- UploadOrphans.AllowedRunsLeaveNoOrphans: assumes that a put takes effect before the lease it ran under
  expires, because nothing in the code bounds a put that the store delays longer, that no claim undercuts a
  live write, and that no owner is anonymised with a stray write; `ClaimIsSafeIff` and `AnonymizeIsSafeIff`
  show the last two to be the exact conditions, and `UploadLifecycle` discharges the last one.
- UploadLifecycle.LifecycleLeavesNoOrphans: assumes that no request takes longer than a bound, for which four
  days will do, from its first reading of the clock to its last statement; nothing in the code bounds it.
  The two upload assumptions, on puts and on claims, remain.
- UploadFences.LostFenceStaysLost: for runs without a claim at the worker's own moment, without which it fails
  (`FenceRegainedIff`, `LateClaimSharesFence`).
- DeletionLease.LostLeaseStaysLost: for runs without a claim at the worker's own moment, without which it fails
  (`LeaseRegainedIff`, `LateClaimSharesLease`). That maintenance runs one batch at a time is not modelled.
- UploadPipeline.RunKeepsInv: rows of a cleanup batch are claimed as one step each.
- PushSystem.RunKeepsInv: a send result with an empty ticket, or a ticket that another job has, makes the
  apply transaction roll back; both are crashes before the result here. Creation of push tokens draws ids
  that were never used.
- Billing.BillingRepository.ApplyRevenueCatEvent: one provider; signature checks, payload parsing and
  notifications are not part of this model, and the nullable subscription timestamp is always set, as every
  event sets it.
- Matching.MatchingRepository.ActOnCandidate: whether the two profiles are complete, visible, mutually
  acceptable and unblocked is one parameter, evaluated where the code evaluates it. Its precondition, one
  active action for a pair, is kept by every run (`Credits.RunKeepsMatches`).
- Credits.CreditsAreConserved: without anonymisation, which deletes balances and other users' actions by
  design.
- Credits.UndoRestores: for an action later than the user's other active ones; of equally new actions the
  database may return any, and then another one may be undone.
- consumeLikedMeAccess and candidate lists, the community module, product catalogue and profile editing:
  single guarded statements or reads.
- PhoneLifecycle.VerificationsAreProper: the database clock in milliseconds, non-decreasing; codes are opaque
  and a bcrypt hash never equals the pending marker. Whether a code matches is an outcome.
- Sessions.HashesRotateOnce: stored hashes are fresh, as salted hashes are; a sign-in that began before a
  reset and saves its session after it is a new session. Kakao and signup token consumption is left out.
- Chat.ChatRepository.MarkRoomRead: rooms, members and their removal are left out, and message ids and
  timestamps are drawn by the database. Text limits and validation are left out.
- Migrations.Runner.ApplyIndexFile: SQL grammar, markers and checksums are injective values; the two
  postcondition checks after the build and after the comment cannot fail once those statements succeeded, as
  nobody else changes the index in between, and are left out.
- Migrations.HistoriesAreSafe: of a transactional file's SQL the model knows only which indexes it drops.
- NestJS wiring, GraphQL, cookies, logging, heartbeats and shutdown.
