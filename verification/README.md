# Hyrule Cloud: a verified model of the VM lifecycle and its account fences

Hyrule Cloud sells virtual machines. API processes, a worker and crash recovery
all act on the same VM row through short locked transactions, with provider
calls between them; account and administration transactions share those locks.
This project models that as state machines over single transactions and single
provider calls, and proves what holds over every interleaving.

| file | what it is |
|---|---|
| `Records.dfy` | the durable state of one VM: row, guest receipt, retention evidence, recorded expiry changes |
| `Transactions.dfy` | what each locked transaction does to that state |
| `Outcomes.dfy` | when each transaction decides which way, and what it leaves, in the fields of the row |
| `LockedVm.dfy` | the same transactions as updates of an object's fields, proved equal to `Transactions` |
| `Lifecycle.dfy` | one VM as a concurrent system: attempt, deletions in flight, provider guests, clock, crashes, lost acknowledgements |
| `Invariant.dfy`, `Preservation.dfy` | the inductive invariant and the proof that every step keeps it |
| `Reports.dfy` | where a succeeded receipt comes from, over whole runs |
| `Guarantees.dfy` | what follows in every reachable state and over every run |
| `Progress.dfy` | what the steps bring about: starts that start, stops that stop, reports that deliver, deletions that give everything back |
| `HandoffFailure.dfy` | the failure path of an order before its handoff: exactly when it is safe, over everything that can follow |
| `Refunds.dfy`, `RefundedGuests.dfy` | exactly when a failed order is refunded, exactly when one of its guests still runs at that moment, and exactly when the order or a guest of it can run again |
| `Exceptions.dfy` | concrete reachable states in which the code breaks a promise |
| `Fleet.dfy` | all VMs together: the unique prefix index and address reuse |
| `PrefixScan.dfy`, `RecoverySweep.dfy`, `ExpiryNotices.dfy`, `StepUp.dfy`, `JobListing.dfy` | the allocator scan, the recovery cursor, the notice map, the step-up limiter and the job merge, each an imperative member with its specification |
| `PurchasedTime.dfy`, `PaidExtension.dfy` | conservation of purchased time, and the outcome of a paid extension under ambiguous commits |
| `Capacity.dfy` | capacity admission against clones, crashes, resumes and failures |
| `Accounts.dfy`, `AccountFence.dfy` | the account handlers, and the same requests interleaved lock by lock |

How to read it. `Lifecycle.Step` lists every step. A run is any sequence of
enabled steps; nothing is assumed about scheduling, and calls may fail, stall,
repeat or be abandoned. `Reachable` means reached from a database without the
VM by a run in which the pre-handoff failure path is taken only before the
handoff is published (`Orderly`); `HandoffFailure` says exactly what happens
without that condition. A guest "can run" when it is present and a
start has ever been sent to it.

## Where the code and its promise part

* `mark_vm_failed` does not look at the handoff state. After a published handoff
  it can give back the address of a guest that runs, or of one that the attempt
  is about to start (`MarkFailedStrandsAGuest`, `PublishedRowStrands`). Over
  everything that can follow, it keeps addresses safe if and only if the row is
  terminal already, or no guest can run and the attempt neither waits for a clone
  nor is about to start one (`MarkFailedIsSafeIff`). What a caller can read from
  the row is sufficient: an unpublished handoff or a terminal status
  (`UnpublishedIsHarmless`); every freshly published row occurs in a state that
  strands a guest.
* The account worker that resumes machines does not look at the deletion claim,
  so it can start a guest that a deletion has already claimed
  (`ClaimedGuestStarted`; exact condition in `AccountResumeStartsClaimed`).
* A paid order can end FAILED without a refund: when the acknowledgement of the
  failure commit is lost, nothing ever looks at the row again
  (`FailureWithoutRefund`). A FAILED order without a refund can still be refunded
  if and only if the attempt whose failure commit was acknowledged is about to
  record it (`RefundedIff`, `RefundFollowsAcknowledgedFailure`).
* A refund is meant to wait for a stopped guest, but the failure path looks only
  at a guest whose UUID is on the row. A clone that was booted and never recorded
  (recording it raised, or the reply to its start was lost) runs on while the
  refund is recorded (`RefundedGuestRuns`). The failure commit leaves a running
  guest if and only if one runs and none is recorded
  (`FailureLeavesGuestRunningIff`). From then on the service neither stops,
  starts, deletes nor adopts that guest, in any continuation, and never gives back
  its address (`UntrackedGuestIsBeyondReach`).
* A refunded order can be recovered and run again, though it is never delivered
  (`RefundedGuestRecovered`). From FAILED, its row can be RUNNING again if and only
  if an expiry claim had taken evidence of its guest before the failure, the guest
  still exists, and no other account has come to own the row
  (`RefundedRunsAgainIff`); and only through a completed recovery
  (`RefundedStaysStopped`). As for the guests themselves: without starts that are
  already on their way, some guest can be running later if and only if one runs
  now or the order can be recovered (`RefundedGuestRunsIff`); with them, if and
  only if a guest is present that was ever told to start
  (`RefundedGuestCanRunIff`).
* Registration adds its session and starter key after committing the account,
  without looking again; a disable in between leaves a disabled account with a
  session (`RegistrationSlipsPast`; exact condition, over everything that can
  follow, in `RegistrationKeepsFenceIff`).
* Capacity is measured from running guests and under an advisory lock of a
  database connection. Starting a halted guest skips admission, and so do a holder
  that goes on cloning or inserting after the database has dropped its lock, and
  an old clone request that lands once more and takes disk (`ResumeOvercommits`,
  `LostLockOvercommits`, `LateClonesOvercommit`). Without these, no interleaving
  overcommits (`NoOverAdmission`); with them, the excess is at most what they took
  (`OveruseIsUnasked`).
* A dispatch that raises ends the recovery loop after the cursor has moved, so the
  rest of its page waits for the next cycle (`SweepIsFair` says exactly when an id
  is dispatched).
* With more than one reserved prefix index the bounded scan can report an
  exhausted pool while an index is free (`CompleteIffOnlyZeroReserved`).
* The step-up limiter reads its clock before it waits for the row locks, so stamps
  can be served out of order. Each window admits at most 5 verifications whatever
  the stamps are (`WindowsOf`). If stamps are served in order, a closed interval of
  one window length admits 10, and a half-open one 9 (`TenIsReached`); if they lag
  by at most d, 5n verifications span at least n - 1 window lengths less d
  (`GuessesAreSpaced`, `GuessesAreBounded`). A lag of one second already lets 13
  into one window length (`LaggingStampsSlip`).

## Model

| member | source | states |
|---|---|---|
| Guarantees.ReadyIsEarned | hyrule_cloud/orchestrator.py:1324-1365 | in every run that ends READY the receipt has succeeded, its generation is that of the guest on the row, and that very guest reported its success in the run, in time and to a waiting receipt, despite superseded attempts, crashes and adopted guests |
| Reports.SuccessWasReported | hyrule_cloud/services/guest_result.py:70-91 | a succeeded receipt of a started guest comes from a success report of that guest in the run |
| Reports.FailureReportIsFinal | hyrule_cloud/services/guest_result.py:82-90 | after an accepted failure report no continuation makes the receipt of that generation succeed |
| Reports.RunKeepsOneStart | hyrule_cloud/orchestrator.py:1198-1225 | over every run at most one guest of a generation is ever told to start |
| Progress.SuccessDelivers | hyrule_cloud/orchestrator.py:1546-1584 | from every reachable state in which an unrestricted attempt waits in time for its guest, a success report leads to READY |
| Progress.FailureReportRefunds | hyrule_cloud/orchestrator.py:1570-1575 | and a failure report leads to FAILED with its refund due |
| Guarantees.DeliveredOrRefunded | hyrule_cloud/orchestrator.py:1321-1395 | no reachable state is both delivered (READY, or provisioned and suspended) and refunded, and a refund is recorded at most once |
| Guarantees.RefundIsFinal | hyrule_cloud/orchestrator.py:1468-1544 | after a refund no continuation delivers, refunds again or re-enters PROVISIONING |
| Guarantees.MissedRefundStaysMissed | hyrule_cloud/orchestrator.py:1508-1544 | the only-if half of `Refunds.RefundedIff`, for every row that has left PROVISIONING: without an attempt about to refund, no continuation refunds |
| Refunds.RefundFollowsAcknowledgedFailure | hyrule_cloud/orchestrator.py:1477-1544 | an attempt comes to record a refund if and only if its failure commit applies, with a recorded guest known to be stopped, and is acknowledged; the row is then FAILED and a guest on it halted |
| Refunds.FailureLeavesGuestRunningIff | hyrule_cloud/orchestrator.py:1481-1508 | after the failure commit some guest runs if and only if one ran before and none is recorded on the row |
| Refunds.UntrackedGuestIsBeyondReach | hyrule_cloud/orchestrator.py:1483-1508 | over every continuation a terminal row without a recorded guest keeps its address, and no step of the service touches a guest of it |
| Refunds.RunningUnrecordedIsUntracked | hyrule_cloud/orchestrator.py:1227-1232 | the failure of an order with a running, unrecorded guest leaves exactly such a row |
| Refunds.RefundedOnlyAfterFailure | hyrule_cloud/orchestrator.py:1481-1544 | every run that records a refund contains such a commit; whether an unrecorded guest runs is `FailureLeavesGuestRunningIff` |
| Refunds.RefundedIff | hyrule_cloud/orchestrator.py:1508-1544 | a reachable FAILED order without a refund can still be refunded if and only if that attempt is about to record it |
| Refunds.ReachableKept | hyrule_cloud/orchestrator.py:2682-2720 | in every reachable state evidence belongs to a row past its expiry until a recovery is authorized, and a failed row's evidence is still unprotected |
| RefundedGuests.RefundedStaysStopped | hyrule_cloud/services/admin_operations.py:292-365 | over every run without a completed recovery the row of a refunded order stays FAILED, destroyed or retained; without a start already on its way, no guest runs that did not run before |
| RefundedGuests.RefundedRunsAgainIff | hyrule_cloud/services/vm_retention.py:66-150 | a refunded FAILED order can end with its row RUNNING and its guest running if and only if there is evidence of the guest, the guest still exists, and no other account owns the row |
| RefundedGuests.RefundedGuestRunsIff | hyrule_cloud/orchestrator.py:1453-1508 | without starts already on their way, some guest of a refunded FAILED order can be running later if and only if one runs now or the order can be recovered |
| RefundedGuests.RefundedGuestCanRunIff | hyrule_cloud/orchestrator.py:1453-1508 | with them, if and only if a guest is present that was ever told to start |
| Guarantees.RunningGuestHoldsAddress | hyrule_cloud/orchestrator.py:2805-2854 | a guest that runs or could still run has its address reserved on its own row, for all interleavings of allocation, clone, crash, recovery, destroy and retry |
| Guarantees.RunningGuestIsKnown | hyrule_cloud/orchestrator.py:960-1014 | such a guest belongs to the current receipt, and is the one named on the row once one is named |
| Guarantees.PlainClaimIsFinal | hyrule_cloud/orchestrator.py:2682-2720 | a deletion claim made without evidence stays on the row, and never gains evidence, in every continuation; the row itself can go only as an unpaid reservation in PROVISIONING |
| Guarantees.DestroyedIsFinal | hyrule_cloud/orchestrator.py:2805-2830 | DESTROYED implies claimed and is absorbing over every continuation |
| Guarantees.ClaimLiftedOnlyByRestore | hyrule_cloud/services/vm_retention.py:129-150 | the only step that lifts a claim is a completed recovery, and it needs evidence |
| Guarantees.DestroyCallExcludesRetention | hyrule_cloud/orchestrator.py:2682-2761 | when any guest is passed to the provider's destroy call there is no evidence, now or in any continuation |
| Guarantees.RetainedWasNeverDestroyed | hyrule_cloud/orchestrator.py:2692-2704 | while evidence exists, it names the guest on the row and no guest of the VM was ever passed to the destroy call |
| Guarantees.RenewalNeverLosesToExpiry | hyrule_cloud/orchestrator.py:3062-3146 | when the expiry worker's destroy claims a row, the expiry committed at that instant is older than now minus grace, despite renewals between query, first lock and second lock |
| Guarantees.UnauthorizedChangesNothing | hyrule_cloud/orchestrator.py:2664-2667 | a deletion whose caller may not make it leaves the whole state of the VM as it was |
| Guarantees.ClaimsAreAuthorized | hyrule_cloud/orchestrator.py:2664-2667 | every claim is made by an authorized deletion |
| Progress.ExpirySuspendsIff | hyrule_cloud/orchestrator.py:3081-3121 | the sweep suspends exactly the expired, unclaimed rows within their grace that are not failed, stopped or without a guest, and then the guest is off and the reason the expiry or the administrative one that was there |
| Progress.ExpiryDeletesIff | hyrule_cloud/orchestrator.py:3062-3079 | the sweep hands out a deletion exactly for rows that are claimed or past their grace |
| Progress.DeletionCompletes | hyrule_cloud/orchestrator.py:2762-2833 | a machine without evidence whose guest is known, or that never asked for one, can be deleted completely: guest gone, row DESTROYED, prefix given back |
| Progress.CleanupIff | hyrule_cloud/orchestrator.py:2835-2854 | for a terminal row without evidence and without an attempt that is exactly when its guest is known, none was asked for, or its prefix is back already |
| Progress.RunningMeansStarted | hyrule_cloud/orchestrator.py:2490-2511 | when an extension, a transfer, an account worker or an administrator turns a row RUNNING, its guest runs |
| Progress.PromisedStartIsMade | hyrule_cloud/orchestrator.py:2490-2511 | with an enabled owner and a known power the promised start of an extension is made |
| Progress.StopLeavesGuestOff | hyrule_cloud/services/admin_operations.py:245-252 | disabling an account and an administrator's shutdown leave the guest off |
| Progress.AttemptBegins | hyrule_cloud/orchestrator.py:1045-1157 | where an attempt starts, by guest and prefix of the row |
| Progress.ReceiptIsRead | hyrule_cloud/orchestrator.py:972-976 | how an attempt without a recorded guest goes on from its receipt |
| Progress.SearchDecides | hyrule_cloud/orchestrator.py:977-1001 | a search adopts exactly the one running guest, fails on a halted one, and leaves every doubt to a retry |
| Progress.CloneIsFresh | hyrule_cloud/orchestrator.py:1198-1225 | a clone is asked for under a generation no guest has, with the address of the row |
| Progress.FailedBootFails | hyrule_cloud/providers/xcpng.py:382-392 | a failed start ends in the failure path, and its clean-up removes the guest |
| Progress.UnfinishedIsLeft | hyrule_cloud/orchestrator.py:1324-1360 | what cannot be finished now changes nothing, and a failed report fails the attempt |
| Progress.AmbiguityHaltsAll | hyrule_cloud/orchestrator.py:981-996 | several guests of one generation are all halted, and the row is left for a retry |
| Progress.CheckObeysRestriction | hyrule_cloud/orchestrator.py:1016-1043 | an attempt goes on exactly without a restriction, and stops the guest of a restricted row |
| Progress.SuspendedDeliveryIsOff | hyrule_cloud/orchestrator.py:1342-1362 | a machine delivered under a restriction is off |
| Guarantees.NoExtensionAfterClaim | hyrule_cloud/orchestrator.py:2306-2311 | until a recovery completes, no paid or administrative extension commits after a claim |
| Guarantees.ResumeMarkerIsPaid | hyrule_cloud/orchestrator.py:2370-2397 | a resume marker always refers to a committed extension receipt |
| Guarantees.ClaimedGuestNotStarted | hyrule_cloud/orchestrator.py:2645-2653 | no extension, transfer, administrator or customer step starts or reboots a claimed or destroyed VM's guest |
| Guarantees.AccountResumeStartsClaimed | hyrule_cloud/services/admin_operations.py:292-345 | the exact condition, including the owner comparison, under which the account worker starts a guest that is already claimed |
| Guarantees.StepSummary | hyrule_cloud/orchestrator.py:2655-2833 | what any single step can do to status, claim, evidence and recorded grants |
| Guarantees.RowVanishes | hyrule_cloud/orchestrator.py:917-930 | a row disappears only while it is an unpaid reservation in PROVISIONING |
| Preservation.StepKeeps | hyrule_cloud/orchestrator.py:839-3146 | every orderly step of the lifecycle keeps the invariant |
| Preservation.RunKeeps | hyrule_cloud/orchestrator.py:839-3146 | the invariant holds after every orderly run |
| Exceptions.MarkFailedStrandsAGuest | hyrule_cloud/orchestrator.py:1666-1702 | after a published handoff the failure path gives back the address of a guest that can run |
| HandoffFailure.MarkFailedIsSafeIff | hyrule_cloud/orchestrator.py:1666-1702 | every continuation of the failure path keeps addresses safe if and only if the row is terminal, or no guest can run and the attempt is not waiting for a clone or about to start one |
| HandoffFailure.UnpublishedIsHarmless | hyrule_cloud/orchestrator.py:1666-1702 | the path is safe over every continuation on a row whose handoff is unpublished or whose status is terminal |
| HandoffFailure.PublishedRowStrands | hyrule_cloud/orchestrator.py:1198-1227 | every freshly published paid row occurs in a reachable state in which no guest runs yet and the path strands one |
| Exceptions.ClaimedGuestStarted | hyrule_cloud/services/admin_operations.py:336-345 | a reachable run in which a claimed guest of the account is started |
| Exceptions.FailureWithoutRefund | hyrule_cloud/orchestrator.py:1508-1544 | a witness for `Refunds.RefundedIff`: a reachable paid order is FAILED and no continuation refunds it |
| Exceptions.RefundedGuestRuns | hyrule_cloud/orchestrator.py:1227-1232 | a witness for `Refunds.FailureLeavesGuestRunningIff`: a paid order is FAILED and refunded while its unrecorded guest runs |
| Exceptions.RefundedGuestRecovered | hyrule_cloud/services/vm_retention.py:66-150 | a witness for `RefundedGuests.RefundedRunsAgainIff`: a refunded VM is RUNNING again, unclaimed |
| Fleet.PrefixesAreUnique | hyrule_cloud/orchestrator.py:317-337 | over every run of the fleet no two rows hold the same /64 index |
| Fleet.FreeIndexHasNoGuest | hyrule_cloud/orchestrator.py:2720-2854 | the index of any guest that runs or could still run is in use, so a free index has none |
| Fleet.NoSharedAddress | hyrule_cloud/orchestrator.py:317-337 | guests of different VMs that can run never share an address |
| PrefixScan.AllocateCustomerPrefix | hyrule_cloud/orchestrator.py:317-337 | the first free index in scan order, never used or reserved; with {0} reserved it fails exactly when the pool is full |
| PrefixScan.VisitsEachOnce | hyrule_cloud/orchestrator.py:330-335 | from any start, total - 1 offsets visit pairwise different indexes within 1..total-1 |
| PrefixScan.CompleteIffOnlyZeroReserved | hyrule_cloud/orchestrator.py:328-337 | the bounded scan reaches every index from every start if and only if only 0 is reserved |
| PurchasedTime.ChainIsClosedForm | hyrule_cloud/orchestrator.py:2366-2393 | replaying the previous/new expiry chain gives max(e0 + sum d, max_i(t_i + sum_{j>=i} d_j)) |
| PurchasedTime.ExpiryIsClosedForm | hyrule_cloud/api/admin.py:1160-1169 | in every reachable state expires_at equals that closed form over paid, granted and recovered time |
| PurchasedTime.DeadlinesIncrease | hyrule_cloud/orchestrator.py:2370 | a later deadline exceeds every earlier one by at least the later grant's days |
| PurchasedTime.NoTimeIsLost | hyrule_cloud/orchestrator.py:2366-2370 | the expiry covers the first deadline plus every day granted, and each grant counted from its own time |
| PaidExtension.Service.Extend | hyrule_cloud/orchestrator.py:2350-2428 | the call is a run of the lifecycle and keeps its invariant; rejected exactly if nothing could be staged or the lost commit was found absent: neither receipt nor time; applied, readable or not: receipt once, time in the chain, expiry no earlier than what was bought; open exactly if an unacknowledged commit could not be reconciled |
| PaidExtension.Service.CommitExtension | hyrule_cloud/orchestrator.py:2398-2418 | the receipt found under a fresh lock decides an unacknowledged commit correctly, whatever ran in between |
| PaidExtension.CommittedStaysBought | hyrule_cloud/orchestrator.py:2366-2397 | once committed, receipt, chain and expiry stay over every later run, and the row never vanishes |
| PaidExtension.ReceiptDecides | hyrule_cloud/orchestrator.py:2402-2410 | the receipt is there exactly if the run contains the commit of this extension |
| PaidExtension.Service.FinishExtension | hyrule_cloud/orchestrator.py:2419-2428 | the post-commit start and read are no second extension and never report a rejection; a paused guest whose promised start went through with known power runs |
| PaidExtension.OthersKeepReceipts | hyrule_cloud/orchestrator.py:2382-2397 | no other transaction adds, removes or rewrites a receipt of this extension |
| RecoverySweep.Sweeper.RecoverTrackedProvisioning | hyrule_cloud/orchestrator.py:639-697 | one sweep moves the cursor and dispatches the next page under the high-water mark, up to a dispatch that raises |
| RecoverySweep.PageSound | hyrule_cloud/orchestrator.py:666-686 | a page is ascending, bounded, inside the window, and skips no eligible id before its last |
| RecoverySweep.SweepIsFair | hyrule_cloud/orchestrator.py:639-697 | in a cycle no id is dispatched twice, and an id eligible throughout and not above the mark is dispatched once if and only if no dispatch raises at it or before it in its page |
| RecoverySweep.SweepProgresses | hyrule_cloud/orchestrator.py:687-694 | a sweep that does not end the cycle moves the cursor towards a fixed mark, while new rows keep arriving |
| RecoverySweep.EveryCycleEnds | hyrule_cloud/orchestrator.py:687-694 | every cycle ends within as many sweeps as its mark allows |
| ExpiryNotices.NoticeBook.WarnUpcomingExpiry | hyrule_cloud/orchestrator.py:2900-2963 | the notice map after one warning check, with the marker committed before the event |
| ExpiryNotices.NoticeBook.WarnPendingDeletion | hyrule_cloud/orchestrator.py:2965-2986 | the same for the last call before deletion |
| ExpiryNotices.MostUrgentIsLeast | hyrule_cloud/orchestrator.py:2920-2945 | the threshold chosen is the least one that has been crossed |
| ExpiryNotices.WarningIsDueIff | hyrule_cloud/orchestrator.py:2938-2955 | a warning is due exactly before the expiry, once a threshold is crossed whose most urgent one was not announced for this deadline |
| ExpiryNotices.LastCallIsDueIff | hyrule_cloud/orchestrator.py:2965-2986 | the last call is due exactly in its hours before the end of the grace, once |
| ExpiryNotices.DueIsAnnounced | hyrule_cloud/orchestrator.py:150-161 | what is due is marked and, without a crash, announced; markers of the same deadline stay |
| ExpiryNotices.AtMostOncePerDeadline | hyrule_cloud/orchestrator.py:138-161 | no notice is emitted twice for one deadline, over any run of sweeps, crashes and renewals |
| ExpiryNotices.RenewalRearms | hyrule_cloud/orchestrator.py:138-147 | after a renewal every marker counts as unsent |
| ExpiryNotices.WarningsGetMoreUrgent | hyrule_cloud/orchestrator.py:2900-2963 | the warnings of one deadline come in strictly falling thresholds |
| StepUp.Session.StepUp | hyrule_cloud/api/admin.py:322-394 | a request elevates exactly if administrator, session and password are right and fewer than five passwords were verified in a running window of 900 seconds; refusals are rolled back |
| StepUp.TriedOutcome | hyrule_cloud/api/admin.py:359-388 | which answer a request gets, and how window, count and elevation change, in both directions |
| StepUp.WindowsOf | hyrule_cloud/api/admin.py:359-370 | the verifications split into windows of at most 5, each shorter than the window length, a full length apart |
| StepUp.GuessesAreSpaced | hyrule_cloud/api/admin.py:331-388 | if stamps lag those served before by at most d, 5n verifications span at least n - 1 window lengths less d, and one more spans more; for stamps in order ten span a window length |
| StepUp.GuessesAreBounded | hyrule_cloud/api/admin.py:76-77 | under the same lag, at most 5n verifications from the first to the last in an interval of n - 1 window lengths less d: 10 for stamps in order and one window length, 9 if half open |
| StepUp.LaggingStampsSlip | hyrule_cloud/api/admin.py:331-370 | with a lag of one second 13 verifications fall into one window length |
| StepUp.TenIsReached | hyrule_cloud/api/admin.py:359-388 | the bound of 10 is reached |
| JobListing.ListJobs | hyrule_cloud/api/admin.py:694-756 | the answer is in newest-first order, as long as the rows and the limit allow, and equals the listing that the refinement lemmas below are about |
| JobListing.SortSound | hyrule_cloud/api/admin.py:755 | the sorted list is in newest-first order and a permutation of its input |
| JobListing.ListingRefinesUnion | hyrule_cloud/api/admin.py:700-756 | position by position the creation times equal those of the newest rows of the whole union, however the queries break ties |
| JobListing.OmittedIsNotNewer | hyrule_cloud/api/admin.py:700-756 | a job newer than some returned job is itself returned |
| Capacity.Cluster.MeasureProvider | hyrule_cloud/providers/xcpng.py:239-310 | running guests take vCPU and memory, existing ones take disk; the sums over the walk are exact |
| Capacity.Cluster.ReserveVmWithCapacity | hyrule_cloud/orchestrator.py:774-814 | an existing planned id is returned, or refused when size, owner, OS or domain differ, without consuming anything; otherwise a row is added exactly when the order fits |
| Capacity.AdmittedExactlyWhenItFits | hyrule_cloud/orchestrator.py:261-306 | unless a machine is both pending and cloned, an order is admitted if and only if vCPU stays within floor(physical x ratio) and RAM and disk keep their headrooms |
| Capacity.BudgetMeaning | hyrule_cloud/orchestrator.py:287-306 | staying within the budget means vCPUs within cores times the configured ratio, and MB and GB within what foreign guests and headroom leave |
| Capacity.NoOverAdmission | hyrule_cloud/orchestrator.py:261-306 | over every run of checked reservation, release, failure, handoff, clone, crash and guest deletion without a lock lost under a holder that goes on, all machines stay within each budget: for vCPU and memory if no halted guest is started, for disk if no old clone request lands again |
| Capacity.OveruseIsUnasked | hyrule_cloud/orchestrator.py:1158-1227 | over every run at all, duplicate clones included, the budget is exceeded by no more than what was started again, cloned again or taken after a lost lock |
| Capacity.StepStaysBounded | hyrule_cloud/orchestrator.py:815-837 | every step keeps the bound, between the two reads of the check as well |
| Capacity.LostLockOvercommits | hyrule_cloud/orchestrator.py:815-837 | a run in which the database drops the lock of a cloning holder overcommits |
| Capacity.ResumeOvercommits | hyrule_cloud/providers/xcpng.py:281-287 | starting a halted guest overcommits |
| Capacity.LateClonesOvercommit | hyrule_cloud/orchestrator.py:1213-1225 | a clone request that lands again takes disk beyond the budget |
| Accounts.Directory.DisableAccount | hyrule_cloud/api/admin.py:911-988 | served exactly for another enabled administrator and not the last one; afterwards the account has no session, live key or open machine |
| Accounts.DisableOutcome | hyrule_cloud/api/admin.py:936-953 | a disable takes everything from the account and nothing from any other |
| Accounts.Directory.EnableAccount | hyrule_cloud/api/admin.py:993-1033 | served exactly for an enabled administrator and an existing account, which is enabled afterwards; no credential is restored |
| Accounts.Directory.SetAccountRole | hyrule_cloud/api/admin.py:1038-1077 | who may promote and demote, both directions, and the role afterwards |
| Accounts.Directory.ClaimVm | hyrule_cloud/api/auth.py:1136-1257 | served exactly for an enabled account and an ownerless live machine, which then belongs to it with its token burnt; every other machine is as before |
| Accounts.Directory.DetachAccount | hyrule_cloud/api/auth.py:1022-1120 | the refusals in order; every remaining machine is handed over once with a fresh token, sessions and keys go with the account |
| Accounts.DeletionOutcome | hyrule_cloud/api/auth.py:1082-1120 | a deletion takes the account with its sessions and keys, hands over what is left of its machines, and leaves every other account alone |
| Accounts.EffectOutcome | hyrule_cloud/api/auth.py:436-443 | what login, key minting, insertion, activation and transfer write, and nothing else |
| Accounts.VerdictOutcome | hyrule_cloud/api/auth.py:1336-1354 | which of these requests are served, in both directions |
| AccountFence.CommitInsideLocks | hyrule_cloud/api/admin.py:920-956 | a commit writes only rows its transaction has locked, and gives sessions, keys and machines only to locked accounts |
| AccountFence.CommitKeepsSound | hyrule_cloud/api/auth.py:1210-1257 | everything every other open transaction checked under its locks stays true |
| AccountFence.StepKeepsSound | hyrule_cloud/api/admin.py:826-855 | over every step locks stay exclusive, checks made under them stay valid, and every machine keeps an existing owner or a live token |
| AccountFence.DisableIsAFence | hyrule_cloud/api/admin.py:920-988 | over every interleaving with careful registrations, a disabled account has no session, no unrevoked key and no owned machine with a live token |
| AccountFence.DisabledUntilEnabled | hyrule_cloud/api/admin.py:993-1033 | a disabled account stays disabled and empty-handed until an enable commits, and cannot be deleted meanwhile |
| AccountFence.ClaimedStaysClaimed | hyrule_cloud/api/auth.py:1254-1257 | over every run a claimed or transferred machine belongs to its account alone, and no token opens it, until it is transferred again, its owner is deleted or its row released |
| AccountFence.NoMachineIsStranded | hyrule_cloud/api/auth.py:1022-1130 | over every run, a machine that is not destroyed has an existing owner or a live token |
| AccountFence.AnAdministratorRemains | hyrule_cloud/api/admin.py:826-844 | over every run an enabled administrator remains |
| AccountFence.CommitKeepsAdministrator | hyrule_cloud/services/admin_authorization.py:9-21 | whoever commits an administrative change is an enabled administrator at that instant |
| AccountFence.RegistrationKeepsFenceIff | hyrule_cloud/api/auth.py:338-364 | an insert of a registration keeps the fence over every careful continuation if and only if the account is enabled and no disable of it is past its statements |
| AccountFence.RegistrationSlipsPast | hyrule_cloud/api/auth.py:306-364 | a run that leaves a disabled account with a session |
| AccountFence.HandlerIsARun | hyrule_cloud/api/admin.py:904-1077 | what a handler does without interference is a run of the interleaved machine |
| Outcomes.HandoffOutcome | hyrule_cloud/orchestrator.py:557-563 | published exactly if asked to or published before |
| Outcomes.InsertOutcome | hyrule_cloud/orchestrator.py:457-500 | the inserted row, and a receipt exactly for a paid one |
| Outcomes.DispatchOutcome | hyrule_cloud/orchestrator.py:545-555 | which rows get a receipt, and which are refused |
| Outcomes.ActivationOutcome | hyrule_cloud/orchestrator.py:895-912 | payer and account after activation, and when it is refused |
| Outcomes.ReleaseOutcome | hyrule_cloud/orchestrator.py:917-930 | exactly the unpaid rows in PROVISIONING may go |
| Outcomes.PublishOutcome | hyrule_cloud/orchestrator.py:627-633 | exactly paid provisioning rows are handed over |
| Outcomes.GenerationOutcome | hyrule_cloud/services/guest_result.py:43-67 | a fresh generation exactly while the row is provisioning without a guest |
| Outcomes.RecordingOutcome | hyrule_cloud/orchestrator.py:1002-1014 | when a guest is adopted or recorded |
| Outcomes.RestrictionOutcome | hyrule_cloud/orchestrator.py:1016-1043 | when an attempt goes on, stops, stops its guest or leaves it to the deletion |
| Outcomes.PollOutcome | hyrule_cloud/orchestrator.py:1561-1584 | when waiting goes on, succeeds, fails or is superseded |
| Outcomes.DeliveryOutcome | hyrule_cloud/orchestrator.py:1324-1365 | delivery if and only if claim, status, guest, receipt and power allow it; READY if and only if nothing restricts the row |
| Outcomes.FailureOutcome | hyrule_cloud/orchestrator.py:1477-1508 | when the failure applies, and what both failure paths leave |
| Outcomes.ReportOutcome | hyrule_cloud/services/guest_result.py:70-91 | a report counts if and only if it is of its generation, in time or a repetition, and for what it says |
| Outcomes.RefusalOutcome | hyrule_cloud/orchestrator.py:2664-2697 | a deletion passes its checks if and only if authorized, unfinished, still expired, and not in the way of a recovery or retention |
| Outcomes.ClaimOutcome | hyrule_cloud/orchestrator.py:2698-2721 | when it goes ahead, the claim and the evidence it leaves |
| Outcomes.ProtectOutcome | hyrule_cloud/orchestrator.py:2732-2759 | when a guest is protected and what the row is then |
| Outcomes.FinishOutcome | hyrule_cloud/orchestrator.py:2805-2830 | DESTROYED, and the prefix given back if and only if the guest on the row was dealt with and its address is free |
| Outcomes.QuarantineOutcome | hyrule_cloud/orchestrator.py:2835-2854 | a quarantined prefix goes back if and only if no guest can be left |
| Outcomes.ExpiryOutcome | hyrule_cloud/orchestrator.py:3062-3100 | what the sweep decides, in both directions |
| Outcomes.SuspensionOutcome | hyrule_cloud/orchestrator.py:3114-3121 | status and reason after an expiry stop |
| Outcomes.ExtensionOutcome | hyrule_cloud/orchestrator.py:2359-2397 | who may buy time, how much of it, and when a start is promised |
| Outcomes.ReconcileOutcome | hyrule_cloud/orchestrator.py:2313-2348 | when an expired machine is marked stopped, and when the power must be known |
| Outcomes.AdminGrantOutcome | hyrule_cloud/api/admin.py:1155-1169 | who may be granted time, and how much |
| Outcomes.ResumptionOutcome | hyrule_cloud/orchestrator.py:2464-2511 | a promised start is made if and only if the guest is off, and the row is RUNNING if and only if the power is known |
| Outcomes.TransferResumeOutcome | hyrule_cloud/orchestrator.py:2537-2619 | the same after a transfer |
| Outcomes.AccountResumeOutcome | hyrule_cloud/services/admin_operations.py:292-345 | the same after an account is enabled |
| Outcomes.AccountStopOutcome | hyrule_cloud/services/admin_operations.py:232-275 | which machines of a disabled account are stopped, and why they say so |
| Outcomes.AdminPowerOutcome | hyrule_cloud/api/admin.py:1307-1424 | when each power action is allowed, and what it leaves |
| Outcomes.TransferOutcome | hyrule_cloud/api/admin.py:1672-1697 | when a row may be transferred, and the promise it carries |
| Outcomes.OwnerOutcome | hyrule_cloud/api/auth.py:1250-1257 | when a row may be claimed or detached |
| Outcomes.PrepareOutcome | hyrule_cloud/services/vm_retention.py:66-104 | when a recovery is prepared, and its new expiry |
| Outcomes.RecoveryOutcome | hyrule_cloud/services/vm_retention.py:107-150 | when it is authorized and completed, and what is lifted |
| LockedVm.VmRecord.constructor | hyrule_cloud/orchestrator.py:457-500 | the inserted row: a paid one carries a handoff state and a receipt |
| LockedVm.VmRecord.SetHandoffState | hyrule_cloud/orchestrator.py:557-563 | a published handoff is never taken back |
| LockedVm.VmRecord.StageReceipt | hyrule_cloud/orchestrator.py:545-555 | a receipt is staged only for a paid provisioning row without receipt and guest |
| LockedVm.VmRecord.ActivateReservation | hyrule_cloud/orchestrator.py:839-915 | the reservation gains its payer; an existing owner is never overwritten |
| LockedVm.VmRecord.MarkFailed | hyrule_cloud/orchestrator.py:1666-1702 | terminal status and prefix given back, without a look at the handoff |
| LockedVm.VmRecord.AdoptGuest | hyrule_cloud/orchestrator.py:1002-1014 | a found guest is adopted only under the receipt's own generation |
| LockedVm.VmRecord.FinalizeDelivery | hyrule_cloud/orchestrator.py:1324-1390 | the final transaction of an attempt, with every way out of it |
| LockedVm.VmRecord.RecordFailure | hyrule_cloud/orchestrator.py:1477-1525 | FAILED only from PROVISIONING and only with the guest known to be halted |
| LockedVm.VmRecord.ClaimDeletion | hyrule_cloud/orchestrator.py:2655-2721 | the first lock section of a deletion, with evidence created only together with a new claim |
| LockedVm.VmRecord.CheckDeletion | hyrule_cloud/orchestrator.py:2660-2697 | why a deletion is refused; an accepted expiry deletion of an unclaimed row finds it past its bound |
| LockedVm.VmRecord.PrepareRetention | hyrule_cloud/services/vm_retention.py:13-44 | evidence is taken only for the guest and the paying owner on the row |
| LockedVm.ExpireCandidate | hyrule_cloud/orchestrator.py:3062-3146 | decision, renewal and deletion of one candidate: a renewed row is never claimed, and a claimed one is past its grace |
| LockedVm.VmRecord.ProtectRetained | hyrule_cloud/orchestrator.py:2732-2759 | the second lock section when evidence exists |
| LockedVm.VmRecord.FinishDeletion | hyrule_cloud/orchestrator.py:2805-2830 | DESTROYED, and the prefix released only if this deletion deleted the guest on the row |
| LockedVm.VmRecord.ReleaseDestroyedPrefix | hyrule_cloud/orchestrator.py:2835-2854 | a quarantined prefix is released only when no guest can be left |
| LockedVm.VmRecord.SweepExpiry | hyrule_cloud/orchestrator.py:3062-3121 | the locked part of the expiry sweep |
| LockedVm.VmRecord.ReconcilePower | hyrule_cloud/orchestrator.py:2313-2348 | a lost expiry stop is reconciled before payment |
| LockedVm.VmRecord.Extend | hyrule_cloud/orchestrator.py:2359-2397 | receipt, time and resume marker in one transaction |
| LockedVm.VmRecord.ResumeExtension | hyrule_cloud/orchestrator.py:2464-2511 | stale markers are dropped, unknown power rolls back, else the guest runs |
| LockedVm.VmRecord.ResumeTransfer | hyrule_cloud/orchestrator.py:2537-2619 | the outcome of a transfer resumption for every status, claim and power |
| LockedVm.VmRecord.SuspendForAccount | hyrule_cloud/services/admin_operations.py:231-275 | only machines still owned by the account are stopped, and independent restrictions survive |
| LockedVm.VmRecord.ResumeForAccount | hyrule_cloud/services/admin_operations.py:292-365 | the resume half of the account worker; a machine of another account is left alone |
| LockedVm.VmRecord.AdminPower | hyrule_cloud/api/admin.py:1307-1430 | what each administrator power action needs and leaves |
| LockedVm.VmRecord.AdminExtend | hyrule_cloud/api/admin.py:1146-1171 | granted time and its audit in one transaction |
| LockedVm.VmRecord.TransferTo | hyrule_cloud/api/admin.py:1654-1703 | refusals and the new owner, with the pending resumption of a stopped machine |

## Left out

- Simulation mode, which writes status unconditionally, and legacy rows and labels; every row is created by the modelled insert.
- Custom-domain attachment, DNS records and probes, SSH probes, event and refund text. DNS is published outside any lock, so address safety is about provider guests, not about the AAAA record; a failed DNS cleanup is a flag of the destroy step.
- Native-intent and bundle payment paths beyond the handoff they share with ordinary orders; quotes; the payment ledger other than the extension receipt and the number of refunds.
- Guarantees.DeliveredOrRefunded: counts the refunds of the provisioning attempt; refunds that a route records before the handoff, and their amounts, are not modelled.
- A VM id is inserted once. Re-inserting a released planned id while an old deletion is still in flight is not modelled.
- At most one provisioning attempt is alive per VM (its advisory lock); the lock itself is not modelled. Dispatch through the recovery worker is the same step as dispatch by the API.
- The attempt adopts or replaces guests by generation; several candidates are all stopped in one step, and a candidate found halted is a failure, as in the code.
- The unlocked read-then-delete of an unpaid reservation, and of the failure path, is one step each.
- Restore: its prepare, authorize and complete transactions are steps; the history of restore operations and the quota on concurrent ones are not kept.
- RefundedGuests.RefundedStaysStopped: the account worker reads the clock once per operation, here at each machine; the account lock that it holds keeps every claim, failure and protection of the account's machines out of that interval.
- Guarantees.ClaimedGuestNotStarted: whether the owner of a VM is enabled arrives as a parameter of each lifecycle step; `AccountFence` treats the accounts themselves.
- NULL expiry and the management identity check appear as the `authorized` flag of a deletion; a row without expiry is not modelled.
- Capacity.Cluster.MeasureProvider: one aggregated host with a constant foreign load; per-host clamping of free memory and staleness of the provider's cache are not modelled.
- Capacity.NoOverAdmission: rows inserted without admission by direct creation are outside its runs.
- ExpiryNotices.AtMostOncePerDeadline: notices are at most once, not at least once; a crash between marker and event loses the event, as in the code.
- StepUp.GuessesAreSpaced: how long a request waits for its locks is a parameter (d).
- StepUp.Session.StepUp: session lookup, audits and password hashing are inputs.
- AccountFence.DisableIsAFence: domain and mail tokens, password and recovery changes, wallet links and the deletion guard's advisory lock are not modelled; locks are taken in any order, and the common lock set of enabled administrators is reduced to the actor's row and the count, which only adds interleavings.
- Accounts.Directory.DisableAccount: domain and mail tokens, and the queued suspension of the account's machines, are not part of the tables.
- Accounts.Directory.DetachAccount: why an account may not be detached (domains, orders, retained machines, pending resumptions) is one input. Deletion with the destroy policy is a request of the interleaved machine that needs no machine left.
- Login, key minting, insertion, activation and transfer are requests of `Accounts.Effect` and `AccountFence` without a method of their own; transfers and activations of the VM row are in `LockedVm`.
- Proofs of ownership (token, wallet signature, SSH signature) count as given.
