/** What every transaction must do, and when, in the fields of the row: both
    directions of each decision, and what the row is afterwards. */
module Outcomes {
  import opened Records
  import opened Transactions

  // ----- reservation, payment and receipts -----

  /** A handoff is published once and for all. */
  lemma HandoffOutcome(row: Row, ready: bool)
    ensures SetHandoff(row, ready) == row.(handoff := SetHandoff(row, ready).handoff)
    ensures SetHandoff(row, ready).handoff.HandedOff? <==> ready || row.handoff.HandedOff?
    ensures SetHandoff(row, ready).handoff != Unset
  {
  }

  /** A reservation holds its prefix, unclaimed and unrestricted, and carries a
      receipt exactly if it is paid for. */
  lemma InsertOutcome(owner: Owner, prefix: nat, expiresAt: Time, ready: bool, generation: nat, deadline: Time)
    ensures var rec := Inserted(owner, prefix, expiresAt, ready, generation, deadline);
            && rec.row.status == Provisioning && rec.row.owner == owner && rec.row.prefix == Some(prefix)
            && rec.row.guest == None && rec.row.claimedAt == None && rec.row.expiresAt == expiresAt
            && rec.row.reason == Unrestricted && rec.retention == None && rec.grants == []
            && rec.receipt == (if owner.wallet != 0 then Some(Receipt(generation, deadline, Awaiting)) else None)
            && (rec.row.handoff.HandedOff? <==> owner.wallet != 0 && ready)
            && (rec.row.handoff.Unset? <==> owner.wallet == 0)
  {
  }

  /** A receipt is staged for a paid row that is provisioning, unless the row has
      one or names a guest; every other row is refused. */
  lemma DispatchOutcome(rec: Record, generation: nat, deadline: Time)
    ensures var r := PrepareDispatch(rec, generation, deadline);
            && (r.Some? <==> rec.row.status == Provisioning && rec.row.owner.wallet != 0)
            && (r.Some? ==>
                  r.value == rec.(receipt := if rec.receipt == None && rec.row.guest == None
                                             then Some(Receipt(generation, deadline, Awaiting)) else rec.receipt))
  {
  }

  /** Activation attaches the payer, and the payer's account only to a row
      without one; a row that is provisioning must have been paid for. */
  lemma ActivationOutcome(rec: Record, wallet: nat, account: Option<nat>, ready: bool, generation: nat, deadline: Time)
    ensures var r := Activated(rec, wallet, account, ready, generation, deadline);
            && (r.Some? <==> rec.row.status != Provisioning || wallet != 0)
            && (r.Some? ==>
                  && r.value.row.owner.wallet == wallet
                  && (rec.row.owner.account.Some? ==> r.value.row.owner.account == rec.row.owner.account)
                  && (rec.row.owner.account.None? ==> r.value.row.owner.account == account)
                  && r.value.row.status == rec.row.status && r.value.row.prefix == rec.row.prefix
                  && (rec.row.status == Provisioning ==> r.value.receipt.Some? || rec.row.guest.Some?)
                  && (if rec.row.status == Provisioning
                      then (r.value.row.handoff.HandedOff? <==> ready || rec.row.handoff.HandedOff?)
                      else r.value.row.handoff == rec.row.handoff))
  {
  }

  /** Releasing takes unpaid reservations only, the sweep unclaimed ones only. */
  lemma ReleaseOutcome(row: Row)
    ensures Releasable(row) <==> row.owner.wallet == 0 && row.status == Provisioning
    ensures Purgeable(row) <==> row.owner.wallet == 0 && row.status == Provisioning && row.claimedAt == None
  {
  }

  lemma PublishOutcome(rec: Record)
    ensures PublishedHandoff(rec) == rec.(row := rec.row.(handoff := PublishedHandoff(rec).row.handoff))
    ensures rec.row.status == Provisioning && rec.row.owner.wallet != 0 ==> PublishedHandoff(rec).row.handoff == HandedOff
    ensures !(rec.row.status == Provisioning && rec.row.owner.wallet != 0) ==> PublishedHandoff(rec) == rec
  {
  }

  // ----- the provisioning attempt -----

  /** A new generation is given out exactly while the row has no guest. */
  lemma GenerationOutcome(rec: Record, generation: nat, deadline: Time)
    ensures var r := FreshGeneration(rec, generation, deadline);
            && (r.Some? <==> rec.row.status == Provisioning && rec.row.guest == None)
            && (r.Some? ==> r.value == rec.(receipt := Some(Receipt(generation, deadline, Awaiting))))
  {
  }

  /** A guest is recorded unless another one is; adoption also needs its receipt. */
  lemma RecordingOutcome(rec: Record, guest: Guest, generation: nat)
    ensures GuestRecorded(rec, guest).Some? <==> rec.row.guest == None || rec.row.guest == Some(guest)
    ensures GuestAdopted(rec, guest, generation).Some? <==>
              && rec.row.status == Provisioning && (rec.row.guest == None || rec.row.guest == Some(guest))
              && rec.receipt.Some? && rec.receipt.value.generation == generation
    ensures GuestRecorded(rec, guest).Some? ==> GuestRecorded(rec, guest).value == rec.(row := rec.row.(guest := Some(guest)))
    ensures GuestAdopted(rec, guest, generation).Some? ==>
              GuestAdopted(rec, guest, generation).value == rec.(row := rec.row.(guest := Some(guest)))
  {
  }

  /** An attempt goes on only with its own guest for an unclaimed, unrestricted
      row of an enabled owner; a claimed guest is left to its deletion, and a
      restricted one is stopped. */
  lemma RestrictionOutcome(row: Row, guest: Guest, ownerEnabled: bool)
    ensures RestrictionOf(row, guest, ownerEnabled) == Continue <==>
              && row.guest == Some(guest) && row.claimedAt == None && row.status != Destroyed
              && row.reason != AccountDisabled && row.reason != ManualAdmin && ownerEnabled
    ensures RestrictionOf(row, guest, ownerEnabled) == DeleteGuest <==>
              row.guest == Some(guest) && (row.claimedAt.Some? || row.status == Destroyed)
    ensures RestrictionOf(row, guest, ownerEnabled) == Stop <==> row.guest != Some(guest)
  {
  }

  /** Waiting ends with the verdict of the current generation or its deadline. */
  lemma PollOutcome(receipt: Option<Receipt>, generation: nat, now: Time)
    ensures Polled(receipt, generation, now) == Done <==>
              receipt.Some? && receipt.value.generation == generation && receipt.value.outcome == Succeeded
    ensures Polled(receipt, generation, now) == Wait <==>
              && receipt.Some? && receipt.value.generation == generation && receipt.value.outcome == Awaiting
              && now < receipt.value.deadline
    ensures Polled(receipt, generation, now) == Superseded <==> receipt.Some? && receipt.value.generation != generation
  {
  }

  predicate Finalizable(row: Row) {
    && row.claimedAt == None
    && (row.status == Provisioning
        || (row.status == Suspended && (row.reason == AccountDisabled || row.reason == ManualAdmin)))
  }

  predicate Successful(rec: Record, guest: Guest, generation: nat) {
    && rec.row.guest == Some(guest) && rec.receipt.Some?
    && rec.receipt.value.generation == generation && rec.receipt.value.outcome == Succeeded
  }

  /** Delivery happens exactly for a successful guest of a row that may still be
      delivered; it is READY unless a restriction holds, and then the guest is
      known to be stopped. */
  lemma DeliveryOutcome(rec: Record, guest: Guest, generation: nat, power: Power, stopped: bool, now: Time)
    ensures var f := Finalized(rec, guest, generation, power, stopped, now);
            && (f.Delivered? <==>
                  && Finalizable(rec.row) && Successful(rec, guest, generation)
                  && (rec.row.reason == Unrestricted || power == Off || (power == On && stopped)))
            && (f.Delivered? ==>
                  f.record == rec.(row := rec.row.(status := if rec.row.reason == Unrestricted then Ready else Suspended,
                                                   provisionedAt := Some(now))))
            && (f == Retry <==>
                  && Finalizable(rec.row) && Successful(rec, guest, generation) && rec.row.reason != Unrestricted
                  && power != Off && !(power == On && stopped))
            && (f == Abandon <==> !Finalizable(rec.row))
            && (f == Fail <==>
                  && Finalizable(rec.row) && rec.row.guest == Some(guest) && rec.receipt.Some?
                  && rec.receipt.value.generation == generation && rec.receipt.value.outcome != Succeeded)
  {
  }

  /** The failure applies exactly while provisioning, with a recorded guest known
      to be stopped. */
  lemma FailureOutcome(rec: Record, power: Power, stopped: bool)
    ensures var r := FailureRecorded(rec, power, stopped);
            && (r.Some? <==>
                  && rec.row.status == Provisioning
                  && (rec.row.guest == None || power == Off || (power == On && stopped)))
            && (r.Some? ==> r.value == rec.(row := rec.row.(status := Failed)))
    ensures MarkedFailed(rec).row.status == (if rec.row.status == Destroyed then Destroyed else Failed)
    ensures rec.row.status != Destroyed && rec.row.status != Failed ==> MarkedFailed(rec).row.prefix == None
  {
  }

  /** A report counts once, for its own generation, before its deadline, and for
      what it says; repeating it is harmless, contradicting it is refused. */
  lemma ReportOutcome(receipt: Receipt, generation: nat, succeeded: bool, now: Time)
    ensures var r := ReportAccepted(receipt, generation, succeeded, now);
            && (r.Some? <==>
                  && receipt.generation == generation
                  && (match receipt.outcome
                      case Awaiting => now <= receipt.deadline
                      case Succeeded => succeeded
                      case SetupFailed => !succeeded))
            && (r.Some? ==>
                  && r.value == receipt.(outcome := r.value.outcome)
                  && (r.value.outcome == Succeeded <==> succeeded) && (r.value.outcome == SetupFailed <==> !succeeded))
  {
  }

  // ----- deletion -----

  /** Everything of the VM is gone and given back. */
  predicate AllGone(row: Row) {
    row.status == Destroyed && row.prefix == None && (row.guest == None || row.deletedGuest == row.guest)
  }

  /** A deletion passes the checks exactly if the caller may make it, something
      is left to do, an expiry deletion still finds the row expired, and neither
      a recovery nor a completed retention stands in the way. */
  lemma RefusalOutcome(rec: Record, request: DestroyRequest)
    ensures DeletionRefusal(rec, request) == None <==>
              && request.authorized && !AllGone(rec.row)
              && (request.cutoff.Some? && rec.row.claimedAt == None && rec.row.status != Destroyed ==>
                    rec.row.status != Failed && rec.row.expiresAt < request.cutoff.value)
              && (request.reconcile ==> rec.retention.Some?)
              && (rec.retention.Some? ==>
                    !rec.retention.value.state.Restoring? && (request.cutoff.Some? ==> rec.retention.value.state != Retained))
    ensures !request.authorized ==> DeletionRefusal(rec, request) == Some(Refused)
  {
  }

  /** The expiry deletion takes evidence first. */
  predicate TakesEvidence(rec: Record, request: DestroyRequest, keepExpired: bool) {
    && rec.retention == None && keepExpired && request.cutoff.Some?
    && rec.row.status != Destroyed && rec.row.guest.Some? && rec.row.claimedAt == None
  }

  /** A deletion goes ahead exactly if it passes the checks and its evidence, old
      or new, is of the guest on the row; then the row is claimed, and the order
      remembers what it was about. */
  lemma ClaimOutcome(rec: Record, request: DestroyRequest, keepExpired: bool, capture: Option<Manifest>, now: Time)
    ensures var (rec', answer) := DeletionClaimed(rec, request, keepExpired, capture, now);
            && (answer.Proceed? <==>
                  && DeletionRefusal(rec, request) == None
                  && (rec.retention.Some? ==> rec.row.guest == Some(rec.retention.value.manifest.guest))
                  && (TakesEvidence(rec, request, keepExpired) ==>
                        && capture.Some? && rec.row.guest == Some(capture.value.guest) && capture.value.disks > 0
                        && rec.row.owner.wallet != 0))
            && (!answer.Proceed? ==> rec' == rec)
            && (answer.Proceed? ==>
                  && rec' == rec.(row := rec'.row, retention := rec'.retention)
                  && rec'.row == rec.row.(claimedAt := if rec.row.claimedAt.Some? then rec.row.claimedAt else Some(now))
                  && rec'.retention == (if TakesEvidence(rec, request, keepExpired)
                                        then Some(Retention(capture.value, rec.row.owner, Prepared)) else rec.retention)
                  && answer.order.guest == rec.row.guest
                  && answer.order.manifest == (if rec'.retention.Some? then Some(rec'.retention.value.manifest) else None))
  {
  }

  /** Protection happens exactly for a claimed row whose evidence is unchanged;
      then the row is suspended and keeps its address. */
  lemma ProtectOutcome(rec: Record, order: Order, protected: bool)
    ensures var (rec', answer) := RetentionProtected(rec, order, protected);
            && (rec' != rec ==> answer == KeptRetained && protected && rec.row.claimedAt.Some? && rec.retention.Some?)
            && (answer == Raised ==> rec' == rec)
            && (&& order.manifest.Some? && rec.row.guest == Some(order.manifest.value.guest) && rec.row.claimedAt.Some?
                && rec.retention.Some? && rec.retention.value.manifest == order.manifest.value
                && !rec.retention.value.state.Restoring?
                && (order.cutoff.Some? ==> rec.retention.value.state != Retained) && protected ==>
                  && answer == KeptRetained && rec'.retention == Some(rec.retention.value.(state := Retained))
                  && rec'.row.status == Suspended && rec'.row.prefix == rec.row.prefix
                  && rec'.row.reason == (if rec.row.reason == ManualAdmin || rec.row.reason == AccountDisabled
                                         then rec.row.reason else Expired))
  {
  }

  /** A finished deletion leaves the row DESTROYED and names the deleted guest;
      the prefix goes back exactly if the guest on the row is the one this
      deletion dealt with and its address is free. */
  lemma FinishOutcome(rec: Record, guest: Option<Guest>, addressFree: bool)
    ensures var rec' := DeletionFinished(rec, guest, addressFree);
            && rec'.row.status == Destroyed && (guest.Some? ==> rec'.row.deletedGuest == guest)
            && (guest == None ==> rec'.row.deletedGuest == rec.row.deletedGuest)
            && (rec'.row.prefix == None <==> rec.row.prefix == None || (addressFree && rec.row.guest == guest))
            && (rec'.row.prefix.Some? ==> rec'.row.prefix == rec.row.prefix)
            && rec'.row.guest == rec.row.guest && rec'.row.claimedAt == rec.row.claimedAt
  {
  }

  /** A quarantined prefix is released exactly when no guest can be left. */
  lemma QuarantineOutcome(rec: Record)
    ensures PrefixReleased(rec) == rec.(row := rec.row.(prefix := PrefixReleased(rec).row.prefix))
    ensures PrefixReleased(rec).row.prefix == None <==>
              || rec.row.prefix == None
              || (&& rec.row.status == Destroyed
                  && (if rec.row.guest.Some? then rec.row.deletedGuest == rec.row.guest else rec.receipt == None))
  {
  }

  // ----- expiry and extension -----

  /** A row that the sweep suspends: expired, within its grace, and not stopped,
      finished or still without a guest. */
  predicate ToSuspend(row: Row, now: Time, grace: nat) {
    && row.claimedAt == None && row.status != Failed && row.status != Suspended && !AllGone(row)
    && row.expiresAt < now <= row.expiresAt + grace && (row.status == Provisioning ==> row.guest.Some?)
  }

  lemma ExpiryOutcome(row: Row, now: Time, grace: nat)
    ensures ExpiryOf(row, now, grace).DeleteGuestAt? <==>
              !AllGone(row) && (row.claimedAt.Some? || (row.status != Failed && now > row.expiresAt + grace))
    ensures ExpiryOf(row, now, grace).DeleteGuestAt? ==> ExpiryOf(row, now, grace).cutoff == now - grace
    ensures ExpiryOf(row, now, grace) == SuspendGuest <==> ToSuspend(row, now, grace)
  {
  }

  lemma SuspensionOutcome(rec: Record)
    ensures var rec' := SuspendedForExpiry(rec);
            && rec' == rec.(row := rec.row.(status := rec'.row.status, reason := rec'.row.reason))
            && (rec.row.status != Provisioning ==> rec'.row.status == Suspended)
            && (rec.row.status == Provisioning ==> rec'.row.status == Provisioning)
            && rec'.row.reason == (if rec.row.reason == AccountDisabled || rec.row.reason == ManualAdmin
                                   then rec.row.reason else Expired)
  {
  }

  /** Who may buy time: unclaimed rows of delivered machines without an
      administrative restriction. */
  predicate Extendable(row: Row) {
    && row.claimedAt == None && (row.status == Ready || row.status == Running || row.status == Suspended)
    && row.reason != AccountDisabled && row.reason != ManualAdmin
  }

  /** An expired machine that runs on paper must show its power first. */
  predicate PowerDue(row: Row, now: Time) {
    Extendable(row) && row.status != Suspended && row.expiresAt < now && row.guest.Some?
  }

  /** An extension is granted exactly to an extendable row of an enabled owner
      whose power is known if it is due; it adds days of 86400 seconds to the
      later of expiry and now, and promises a start exactly to a stopped guest. */
  lemma ExtensionOutcome(rec: Record, id: nat, days: nat, ownerEnabled: bool, power: Power, now: Time)
    ensures var r := Extended(rec, id, days, ownerEnabled, power, now);
            && (r.Some? <==> days > 0 && ownerEnabled && Extendable(rec.row) && (PowerDue(rec.row, now) ==> power != Unknown))
            && (r.Some? ==>
                  && r.value.row.expiresAt == (if rec.row.expiresAt < now then now else rec.row.expiresAt) + days * 86400
                  && |r.value.grants| == |rec.grants| + 1 && HasReceipt(r.value.grants, id)
                  && r.value.row.status == (if PowerDue(rec.row, now) && power == Off then Suspended else rec.row.status)
                  && r.value.row.resume ==
                     (if r.value.row.status == Suspended && rec.row.guest.Some?
                      then Some(ResumeMarker(id, rec.row.guest.value, rec.row.owner)) else rec.row.resume))
  {
    var r := Extended(rec, id, days, ownerEnabled, power, now);
    if r.Some? { assert r.value.grants[|rec.grants|].id == id; }
  }

  /** Before payment an expired machine that is found off is marked so. */
  lemma ReconcileOutcome(row: Row, power: Power, now: Time)
    ensures PowerReconciled(row, power, now) == None <==> PowerDue(row, now) && power == Unknown
    ensures PowerDue(row, now) && power == Off ==> PowerReconciled(row, power, now) == Some(row.(status := Suspended, reason := Expired))
    ensures !(PowerDue(row, now) && power != On) ==> PowerReconciled(row, power, now) == Some(row)
  {
  }

  lemma AdminGrantOutcome(rec: Record, id: nat, days: nat, now: Time)
    ensures var r := AdminExtended(rec, id, days, now);
            && (r.Some? <==>
                  && days > 0 && rec.row.claimedAt == None
                  && (rec.row.status == Ready || rec.row.status == Running || rec.row.status == Suspended))
            && (r.Some? ==>
                  && r.value.row == rec.row.(expiresAt := r.value.row.expiresAt)
                  && r.value.row.expiresAt == (if rec.row.expiresAt < now then now else rec.row.expiresAt) + days * 86400)
  {
  }

  /** The promise of a paid extension still stands. */
  predicate Promised(row: Row) {
    && row.resume.Some? && row.status == Suspended && row.claimedAt == None
    && row.guest == Some(row.resume.value.guest) && row.owner == row.resume.value.owner
    && row.reason != AccountDisabled && row.reason != ManualAdmin
  }

  /** A promised start is made exactly if the guest is off, and ends with the row
      RUNNING exactly if the power is known; a stale promise is dropped. */
  lemma ResumptionOutcome(rec: Record, ownerEnabled: bool, power: Power)
    ensures var r := ExtensionResumed(rec, ownerEnabled, power);
            && (Promised(rec.row) && ownerEnabled ==>
                  && (r.started <==> power == Off)
                  && (r.record.row.status == Running <==> power != Unknown)
                  && (power != Unknown ==> r.record.row.resume == None && r.record.row.reason == Unrestricted)
                  && (power == Unknown ==> r.record == rec))
            && (Promised(rec.row) && !ownerEnabled ==> r == Resumption(rec, false))
            && (!Promised(rec.row) ==> r == Resumption(rec.(row := rec.row.(resume := None)), false))
  {
  }

  // ----- ownership, accounts and administrators -----

  /** A transfer's promise still stands for the account it was made to. */
  predicate Awaits(row: Row, ownerEnabled: bool) {
    row.transferResume.Some? && row.owner.account == row.transferResume && ownerEnabled && row.claimedAt == None
  }

  /** A transferred machine that was stopped runs for its new owner: a guest that
      is off is told to start, and the row is RUNNING unless it is still being
      provisioned; without a guest it is queued again. */
  lemma TransferResumeOutcome(rec: Record, enabled: bool, power: Power, now: Time, generation: nat, deadline: Time)
    ensures var r := TransferResumed(rec, enabled, power, now, generation, deadline);
            && (r.Some? ==> r.value.record.row.transferResume == None)
            && (Awaits(rec.row, enabled) && rec.row.expiresAt > now && rec.row.guest.Some?
                && (rec.row.status == Suspended || rec.row.status == Provisioning) ==>
                  && (r.Some? <==> power != Unknown)
                  && (r.Some? ==>
                        && (r.value.started <==> power == Off) && r.value.record.row.reason == Unrestricted
                        && r.value.record.row.status == (if rec.row.status == Suspended then Running else Provisioning)))
            && (r.Some? && r.value.started ==> Awaits(rec.row, enabled) && rec.row.expiresAt > now && rec.row.guest.Some?)
            && (Awaits(rec.row, enabled) && rec.row.expiresAt > now && rec.row.guest == None && rec.row.status == Suspended ==>
                  && (r.Some? <==> rec.row.owner.wallet != 0)
                  && (r.Some? ==> r.value.record.row.status == Provisioning && r.value.record.row.reason == Unrestricted
                                  && r.value.record.receipt.Some?))
            && (Awaits(rec.row, enabled) && rec.row.expiresAt <= now ==> r.Some? && r.value.record.row.reason == Expired)
            && (rec.row.transferResume.Some? && rec.row.owner.account.Some? && rec.row.owner.account != rec.row.transferResume ==>
                  r == Some(Resumption(rec.(row := rec.row.(transferResume := None)), false)))
  {
  }

  /** A restarted machine that still owes its report gets a new deadline for it. */
  lemma RestartOutcome(rec: Record, deadline: Time)
    ensures var rec' := GuestRestarted(rec, deadline);
            && rec'.row == rec.row.(reason := Unrestricted, status := if rec.row.status == Provisioning then Provisioning else Running)
            && rec'.receipt == (if rec.row.status == Provisioning && rec.receipt.Some? && rec.receipt.value.outcome == Awaiting
                                then Some(rec.receipt.value.(deadline := deadline)) else rec.receipt)
  {
  }

  /** The same for the machines of an account that is enabled again. */
  lemma AccountResumeOutcome(rec: Record, account: nat, power: Power, now: Time, generation: nat, deadline: Time)
    ensures var r := AccountResumed(rec, account, power, now, generation, deadline);
            && (rec.row.owner.account != Some(account) || rec.row.reason != AccountDisabled ==> r == Some(Resumption(rec, false)))
            && (rec.row.owner.account == Some(account) && rec.row.reason == AccountDisabled ==>
                  && (rec.row.status == Failed || rec.row.status == Destroyed ==>
                        r == Some(Resumption(rec.(row := rec.row.(reason := Unrestricted)), false)))
                  && (rec.row.status != Failed && rec.row.status != Destroyed && rec.row.expiresAt <= now ==>
                        r == Some(Resumption(rec.(row := rec.row.(reason := Expired)), false)))
                  && (rec.row.status != Failed && rec.row.status != Destroyed && rec.row.expiresAt > now && rec.row.guest.Some? ==>
                        && (r.Some? <==> power != Unknown)
                        && (r.Some? ==>
                              && (r.value.started <==> power == Off) && r.value.record.row.reason == Unrestricted
                              && r.value.record.row.status == (if rec.row.status == Provisioning then Provisioning else Running)))
                  && (rec.row.status != Failed && rec.row.status != Destroyed && rec.row.expiresAt > now && rec.row.guest == None ==>
                        && (r.Some? <==> rec.row.status == Provisioning || rec.row.owner.wallet != 0)
                        && (r.Some? ==> r.value.record.row.status == Provisioning && r.value.record.row.reason == Unrestricted)))
  {
  }

  /** Disabling an account stops its machines and says why, except where another
      restriction was there first. */
  lemma AccountStopOutcome(rec: Record, account: nat, power: Power)
    ensures var r := AccountSuspended(rec, account, power);
            var acts := rec.row.owner.account == Some(account) && rec.row.status != Destroyed
                        && !(rec.row.status == Failed && rec.row.guest == None);
            && (r == None <==> acts && rec.row.guest.Some? && power == Unknown)
            && (!acts ==> r == Some(rec))
            && (acts && r.Some? ==>
                  if rec.row.status == Suspended && (rec.row.reason == ManualAdmin || rec.row.reason == Expired)
                  then r.value == rec
                  else
                    && r.value.row.reason == AccountDisabled
                    && r.value.row.status == (if rec.row.status == Provisioning || rec.row.status == Failed
                                              then rec.row.status else Suspended))
  {
  }

  /** An administrator may power a machine on only for an enabled owner before its
      expiry, and off at any time after provisioning. */
  lemma AdminPowerOutcome(rec: Record, action: PowerAction, enabled: bool, power: Power, now: Time)
    ensures var r := AdminPowered(rec, action, enabled, power, now);
            && (r.Some? <==>
                  && rec.row.claimedAt == None && rec.row.status != Destroyed && rec.row.status != Provisioning
                  && rec.row.guest.Some? && (action != RebootGuest ==> power != Unknown)
                  && (action == StartGuest ==> rec.row.expiresAt > now)
                  && (action == StartGuest || action == RebootGuest ==>
                        && rec.row.status != Failed && rec.row.reason != AccountDisabled
                        && (rec.row.owner.account.Some? ==> enabled)))
            && (r.Some? && action == StartGuest ==>
                  && (r.value.started <==> power == Off)
                  && r.value.record.row == rec.row.(status := Running, reason := Unrestricted))
            && (r.Some? && action == RebootGuest ==> r.value == Resumption(rec, true))
            && (r.Some? && (action == ShutdownGuest || action == HaltGuest) ==>
                  && !r.value.started
                  && r.value.record.row == rec.row.(
                       status := if rec.row.status == Failed then Failed else Suspended,
                       reason := if rec.row.reason == AccountDisabled then AccountDisabled else ManualAdmin))
    ensures Rebootable(rec.row, enabled) <==> rec.row.guest.Some? && rec.row.claimedAt == None && enabled
  {
  }

  /** A transfer moves the row, and a machine stopped for its old account is
      promised a start under the new one. */
  lemma TransferOutcome(rec: Record, account: nat, wallet: nat)
    ensures var r := Transferred(rec, account, wallet);
            && (r.Some? <==>
                  && rec.row.claimedAt == None && rec.row.status != Destroyed && rec.row.status != Provisioning
                  && rec.row.resume == None)
            && (r.Some? ==>
                  && r.value.row.owner == Owner(Some(account), wallet) && r.value.row.status == rec.row.status
                  && r.value.row.transferResume ==
                     (if rec.row.reason == AccountDisabled && rec.row.status != Failed then Some(account) else rec.row.transferResume)
                  && r.value.row.reason ==
                     (if rec.row.reason == AccountDisabled && rec.row.status == Failed then Unrestricted else rec.row.reason))
  {
  }

  lemma OwnerOutcome(rec: Record, account: nat)
    ensures OwnershipClaimed(rec, account).Some? <==>
              rec.row.owner.account == None && rec.row.claimedAt == None && rec.row.status != Destroyed && rec.retention == None
    ensures OwnershipClaimed(rec, account).Some? ==>
              OwnershipClaimed(rec, account).value == rec.(row := rec.row.(owner := Owner(Some(account), rec.row.owner.wallet)))
    ensures Detached(rec).Some? <==>
              rec.row.status != Destroyed && rec.retention == None && rec.row.reason != AccountDisabled && rec.row.resume == None
    ensures Detached(rec).Some? ==> Detached(rec).value == rec.(row := rec.row.(owner := Owner(None, rec.row.owner.wallet)))
  {
  }

  // ----- recovery -----

  /** A recovery is prepared exactly for a retained guest of the same owner; it
      extends from the later of expiry and now. */
  lemma PrepareOutcome(rec: Record, operation: nat, days: nat, now: Time)
    ensures var r := RestorePrepared(rec, operation, days, now);
            && (r.Some? <==>
                  && rec.retention.Some? && rec.retention.value.state == Retained && rec.row.claimedAt.Some?
                  && rec.row.guest == Some(rec.retention.value.manifest.guest) && rec.row.owner == rec.retention.value.owner
                  && 0 < days <= 365)
            && (r.Some? ==>
                  && r.value == rec.(retention := r.value.retention) && r.value.retention.Some?
                  && r.value.retention.value.state ==
                     Restoring(Restore(operation, false, now, days, rec.row.expiresAt,
                                       (if rec.row.expiresAt < now then now else rec.row.expiresAt) + days * 86400)))
  {
  }

  predicate Recovering(rec: Record, operation: nat, authorized: bool, ownerEnabled: bool) {
    && rec.retention.Some? && rec.retention.value.state.Restoring?
    && rec.retention.value.state.restore.operation == operation
    && rec.retention.value.state.restore.authorized == authorized
    && rec.row.claimedAt.Some? && rec.row.status == Suspended && rec.row.owner == rec.retention.value.owner
    && rec.row.guest == Some(rec.retention.value.manifest.guest)
    && (if rec.row.owner.account.Some? then ownerEnabled else rec.row.reason != AccountDisabled)
  }

  /** Authorizing moves the expiry once; completing lifts claim and evidence. */
  lemma RecoveryOutcome(rec: Record, operation: nat, ownerEnabled: bool, now: Time)
    ensures var r := RestoreAuthorized(rec, operation, ownerEnabled, now);
            && (r.Some? <==>
                  && Recovering(rec, operation, false, ownerEnabled)
                  && rec.row.expiresAt == rec.retention.value.state.restore.previous
                  && now < rec.retention.value.state.restore.newExpiry)
            && (r.Some? ==>
                  && r.value.row == rec.row.(expiresAt := rec.retention.value.state.restore.newExpiry, reason := ManualAdmin)
                  && BeingAuthorized(r.value))
    ensures var r := RestoreCompleted(rec, operation, ownerEnabled, now);
            && (r.Some? <==>
                  && Recovering(rec, operation, true, ownerEnabled)
                  && rec.row.expiresAt == rec.retention.value.state.restore.newExpiry && now < rec.row.expiresAt)
            && (r.Some? ==>
                  && r.value.row == rec.row.(claimedAt := None, reason := ManualAdmin) && r.value.retention == None
                  && r.value.grants == rec.grants)
  {
  }

  predicate BeingAuthorized(rec: Record) {
    rec.retention.Some? && rec.retention.value.state.Restoring? && rec.retention.value.state.restore.authorized
  }
}
