/** What each locked transaction does to the durable state of one VM. Every
    function is a single transaction: None stands for an exception that rolls
    the transaction back. Results of provider calls made inside the lock
    arrive as arguments. */
module Transactions {
  import opened Records

  // ----- reservation and payment -----

  function SetHandoff(row: Row, ready: bool): Row {
    if !ready && row.handoff.HandedOff? then row
    else row.(handoff := if ready then HandedOff else Pending)
  }

  /** Stage a receipt for a paid row that has neither receipt nor guest. */
  function PrepareDispatch(rec: Record, generation: nat, deadline: Time): Option<Record> {
    if !rec.row.status.Provisioning? || !Paying(rec.row) then None
    else if rec.receipt.None? && rec.row.guest.None? then
      Some(rec.(receipt := Some(Receipt(generation, deadline, Awaiting))))
    else Some(rec)
  }

  function NewRow(owner: Owner, prefix: nat, expiresAt: Time): Row {
    Row(Provisioning, None, owner, Some(prefix), None, expiresAt, Unrestricted, Unset, None, None, None, None)
  }

  function Inserted(owner: Owner, prefix: nat, expiresAt: Time, ready: bool, generation: nat, deadline: Time): Record {
    var row := NewRow(owner, prefix, expiresAt);
    if owner.wallet == 0 then Record(row, None, None, [])
    else Record(SetHandoff(row, ready), Some(Receipt(generation, deadline, Awaiting)), None, [])
  }

  /** Insert of a planned VM id that already has its row. */
  function Replayed(rec: Record, ready: bool, generation: nat, deadline: Time): Option<Record> {
    if rec.row.status.Provisioning? && Paying(rec.row) then
      PrepareDispatch(rec.(row := SetHandoff(rec.row, ready)), generation, deadline)
    else Some(rec)
  }

  function Activated(rec: Record, wallet: nat, account: Option<nat>, ready: bool,
                     generation: nat, deadline: Time): Option<Record> {
    var owner := Owner(if account.Some? && rec.row.owner.account.None? then account else rec.row.owner.account, wallet);
    var row := rec.row.(owner := owner);
    if row.status.Provisioning? then
      PrepareDispatch(rec.(row := SetHandoff(row, ready)), generation, deadline)
    else Some(rec.(row := row))
  }

  predicate Releasable(row: Row) { !Paying(row) && row.status.Provisioning? }

  predicate Purgeable(row: Row) { Releasable(row) && !Claimed(row) }

  function PublishedHandoff(rec: Record): Record {
    if rec.row.status.Provisioning? && Paying(rec.row) then rec.(row := SetHandoff(rec.row, true)) else rec
  }

  /** The pre-handoff failure path: terminal status, prefix given back. */
  function MarkedFailed(rec: Record): Record {
    if rec.row.status.Destroyed? || rec.row.status.Failed? then rec
    else rec.(row := rec.row.(status := Failed, prefix := None))
  }

  // ----- the provisioning attempt -----

  function FreshGeneration(rec: Record, generation: nat, deadline: Time): Option<Record> {
    if !rec.row.status.Provisioning? || rec.row.guest.Some? then None
    else Some(rec.(receipt := Some(Receipt(generation, deadline, Awaiting))))
  }

  /** None: the row already names another guest. */
  function GuestRecorded(rec: Record, guest: Guest): Option<Record> {
    if rec.row.guest.Some? && rec.row.guest != Some(guest) then None
    else Some(rec.(row := rec.row.(guest := Some(guest))))
  }

  function GuestAdopted(rec: Record, guest: Guest, generation: nat): Option<Record> {
    if !rec.row.status.Provisioning? || rec.receipt.None? || rec.receipt.value.generation != generation
       || (rec.row.guest.Some? && rec.row.guest != Some(guest))
    then None
    else Some(rec.(row := rec.row.(guest := Some(guest))))
  }

  datatype Restriction = Continue | Stop | StopGuest | DeleteGuest

  function RestrictionOf(row: Row, guest: Guest, ownerEnabled: bool): Restriction {
    if row.guest != Some(guest) then Stop
    else if Claimed(row) || row.status.Destroyed? then DeleteGuest
    else if AdminRestricted(row) || !ownerEnabled then StopGuest
    else Continue
  }

  datatype Poll = Wait | Done | Superseded | Bad

  function Polled(receipt: Option<Receipt>, generation: nat, now: Time): Poll {
    if receipt.None? then Bad
    else if receipt.value.generation != generation then Superseded
    else if receipt.value.outcome.Succeeded? then Done
    else if receipt.value.outcome.SetupFailed? || receipt.value.deadline <= now then Bad
    else Wait
  }

  datatype Finish = Abandon | Stale | Fail | Retry | Delivered(record: Record)

  predicate MustRemainSuspended(row: Row) { row.reason.Expired? || AdminRestricted(row) }

  /** power: the guest's power as read under the lock; stopped: whether the
      stop call for a running guest returned. */
  function Finalized(rec: Record, guest: Guest, generation: nat, power: Power, stopped: bool, now: Time): Finish {
    var row := rec.row;
    if Claimed(row) then Abandon
    else if !row.status.Provisioning? && !(AdminRestricted(row) && row.status.Suspended?) then Abandon
    else if row.guest != Some(guest) || rec.receipt.None? || rec.receipt.value.generation != generation then Stale
    else if !rec.receipt.value.outcome.Succeeded? then Fail
    else if MustRemainSuspended(row) then
      if power.Unknown? || (power.On? && !stopped) then Retry
      else Delivered(rec.(row := row.(status := Suspended, provisionedAt := Some(now))))
    else Delivered(rec.(row := row.(status := Ready, provisionedAt := Some(now))))
  }

  /** The terminal failure transition; None keeps the attempt retryable. */
  function FailureRecorded(rec: Record, power: Power, stopped: bool): Option<Record> {
    if !rec.row.status.Provisioning? then None
    else if rec.row.guest.Some? && (power.Unknown? || (power.On? && !stopped)) then None
    else Some(rec.(row := rec.row.(status := Failed)))
  }

  function ReportAccepted(receipt: Receipt, generation: nat, succeeded: bool, now: Time): Option<Receipt> {
    var outcome := if succeeded then Succeeded else SetupFailed;
    if receipt.generation != generation then None
    else if !receipt.outcome.Awaiting? then if receipt.outcome == outcome then Some(receipt) else None
    else if now > receipt.deadline then None
    else Some(receipt.(outcome := outcome))
  }

  // ----- deletion -----

  /** cutoff: the expiry bound of an expiry deletion, absent for explicit
      ones. authorized: the management identity matched an enabled owner.
      reconcile: a retention reconciliation rather than a deletion. */
  datatype DestroyRequest = DestroyRequest(cutoff: Option<Time>, authorized: bool, reconcile: bool)

  /** What an accepted deletion remembers after its first lock section. */
  datatype Order = Order(guest: Option<Guest>, provisioning: bool, manifest: Option<Manifest>,
                         cutoff: Option<Time>, verified: bool)

  datatype Answer = Refused | AlreadyDeleted | KeptRetained | Raised | Proceed(order: Order)

  function OrderFor(row: Row, manifest: Option<Manifest>, cutoff: Option<Time>): Order {
    Order(row.guest, row.status.Provisioning?, manifest, cutoff, DeletionVerified(row))
  }

  function WithClaim(row: Row, now: Time): Row {
    if Claimed(row) then row else row.(claimedAt := Some(now))
  }

  predicate CleanupComplete(row: Row) {
    row.status.Destroyed? && row.prefix.None? && (row.guest.None? || DeletionVerified(row))
  }

  /** Why a deletion is not accepted, if it is not. */
  function DeletionRefusal(rec: Record, request: DestroyRequest): Option<Answer> {
    var row := rec.row;
    if !request.authorized then Some(Refused)
    else if CleanupComplete(row) then Some(AlreadyDeleted)
    else if !Claimed(row) && request.cutoff.Some? && !row.status.Destroyed?
            && (row.status.Failed? || row.expiresAt >= request.cutoff.value) then Some(Refused)
    else if request.reconcile && rec.retention.None? then Some(Refused)
    else if rec.retention.Some? && rec.retention.value.state.Restoring? then Some(Refused)
    else if rec.retention.Some? && rec.retention.value.state.Retained? && request.cutoff.Some? then Some(KeptRetained)
    else None
  }

  /** First lock section of a deletion. keepExpired: retention is switched on;
      capture: the protection inventory of the guest, absent if it failed. */
  function DeletionClaimed(rec: Record, request: DestroyRequest, keepExpired: bool, capture: Option<Manifest>, now: Time)
    : (Record, Answer)
  {
    var row := rec.row;
    var refusal := DeletionRefusal(rec, request);
    if refusal.Some? then (rec, refusal.value)
    else if rec.retention.Some? then
      var manifest := rec.retention.value.manifest;
      if row.guest != Some(manifest.guest) then (rec, Raised)
      else (rec.(row := WithClaim(row, now)), Proceed(OrderFor(row, Some(manifest), request.cutoff)))
    else if !row.status.Destroyed? && row.guest.Some? && !Claimed(row) && request.cutoff.Some? && keepExpired then
      if capture.None? || row.guest != Some(capture.value.guest) || capture.value.disks == 0 || !Paying(row) then (rec, Raised)
      else
        (rec.(row := WithClaim(row, now), retention := Some(Retention(capture.value, row.owner, Prepared))),
         Proceed(OrderFor(row, capture, request.cutoff)))
    else (rec.(row := WithClaim(row, now)), Proceed(OrderFor(row, None, request.cutoff)))
  }

  /** Second lock section when the claim carries retention evidence. */
  function RetentionProtected(rec: Record, order: Order, protected: bool): (Record, Answer) {
    var row := rec.row;
    if order.manifest.None? || row.guest != Some(order.manifest.value.guest) || !Claimed(row) then (rec, Refused)
    else if rec.retention.None? || rec.retention.value.manifest != order.manifest.value then (rec, Raised)
    else if rec.retention.value.state.Restoring? then (rec, Refused)
    else if rec.retention.value.state.Retained? && order.cutoff.Some? then (rec, KeptRetained)
    else if !protected then (rec, Raised)
    else
      (rec.(row := row.(status := Suspended, reason := if AdminRestricted(row) then row.reason else Expired),
            retention := Some(rec.retention.value.(state := Retained))), KeptRetained)
  }

  /** Last lock section of an ordinary deletion; addressFree: every user of
      the address is verifiably gone, as far as this deletion knows. */
  function DeletionFinished(rec: Record, guest: Option<Guest>, addressFree: bool): Record {
    var row := rec.row;
    rec.(row := row.(status := Destroyed,
                     deletedGuest := if guest.Some? then guest else row.deletedGuest,
                     prefix := if row.guest == guest && addressFree then None else row.prefix))
  }

  function PrefixReleased(rec: Record): Record {
    if !rec.row.status.Destroyed? then rec
    else if rec.row.guest.Some? && !DeletionVerified(rec.row) then rec
    else if rec.row.guest.None? && rec.receipt.Some? then rec
    else rec.(row := rec.row.(prefix := None))
  }

  // ----- expiry, extension and power -----

  datatype ExpiryDecision = LeaveAlone | SuspendGuest | DeleteGuestAt(cutoff: Time)

  function ExpiryOf(row: Row, now: Time, grace: nat): ExpiryDecision {
    if CleanupComplete(row) then LeaveAlone
    else if !Claimed(row) && row.status.Failed? then LeaveAlone
    else if Claimed(row) || now > row.expiresAt + grace then DeleteGuestAt(now - grace)
    else if row.expiresAt >= now || row.status.Suspended? then LeaveAlone
    else if row.status.Provisioning? && row.guest.None? then LeaveAlone
    else SuspendGuest
  }

  function SuspendedForExpiry(rec: Record): Record {
    rec.(row := rec.row.(status := if rec.row.status.Provisioning? then Provisioning else Suspended,
                         reason := if AdminRestricted(rec.row) then rec.row.reason else Expired))
  }

  predicate CanExtend(row: Row) {
    !Claimed(row) && !row.status.Destroyed? && !row.status.Failed? && !row.status.Provisioning? && !AdminRestricted(row)
  }

  /** An expiry stop whose commit was lost is reconciled before payment; None
      means that the power could not be established. */
  function PowerReconciled(row: Row, power: Power, now: Time): Option<Row> {
    if !CanExtend(row) || row.expiresAt >= now || row.guest.None? || row.status.Suspended? then Some(row)
    else match power
      case On => Some(row)
      case Off => Some(row.(status := Suspended, reason := Expired))
      case Unknown => None
  }

  function Later(expiresAt: Time, now: Time, days: nat): Time { Max(expiresAt, now) + days * DAY }

  function Extended(rec: Record, id: nat, days: nat, ownerEnabled: bool, power: Power, now: Time): Option<Record> {
    match PowerReconciled(rec.row, power, now)
    case None => None
    case Some(row) =>
      if days == 0 || !CanExtend(row) || !ownerEnabled then None
      else
        var next := Later(row.expiresAt, now, days);
        var marker := if row.status.Suspended? && row.guest.Some?
                      then Some(ResumeMarker(id, row.guest.value, row.owner)) else row.resume;
        Some(rec.(row := row.(expiresAt := next, resume := marker),
                  grants := rec.grants + [Grant(id, Paid, now, days, row.expiresAt, next)]))
  }

  function AdminExtended(rec: Record, id: nat, days: nat, now: Time): Option<Record> {
    var row := rec.row;
    if days == 0 || Claimed(row) || row.status.Provisioning? || row.status.Failed? || row.status.Destroyed? then None
    else
      var next := Later(row.expiresAt, now, days);
      Some(rec.(row := row.(expiresAt := next),
                grants := rec.grants + [Grant(id, AdminGrant, now, days, row.expiresAt, next)]))
  }

  /** What a resumption does: the new record, and whether it told the provider
      to start the guest. */
  datatype Resumption = Resumption(record: Record, started: bool)

  predicate StaleMarker(row: Row, marker: ResumeMarker) {
    !row.status.Suspended? || Claimed(row) || row.guest != Some(marker.guest)
    || row.owner != marker.owner || AdminRestricted(row)
  }

  function ExtensionResumed(rec: Record, ownerEnabled: bool, power: Power): Resumption {
    var row := rec.row;
    if row.resume.None? then Resumption(rec, false)
    else if StaleMarker(row, row.resume.value) then Resumption(rec.(row := row.(resume := None)), false)
    else if !ownerEnabled || power.Unknown? then Resumption(rec, false)
    else
      Resumption(rec.(row := row.(status := Running, reason := Unrestricted, resume := None)), power.Off?)
  }

  function DeadlineRenewed(rec: Record, deadline: Time): Record {
    if rec.receipt.Some? && rec.receipt.value.outcome.Awaiting?
    then rec.(receipt := Some(rec.receipt.value.(deadline := deadline))) else rec
  }

  /** Start the recorded guest for its owner again: a provisioning guest gets a
      new report window, any other guest is running. */
  function GuestRestarted(rec: Record, deadline: Time): Record {
    if rec.row.status.Provisioning? then
      DeadlineRenewed(rec.(row := rec.row.(reason := Unrestricted)), deadline)
    else rec.(row := rec.row.(status := Running, reason := Unrestricted))
  }

  function Requeued(rec: Record, generation: nat, deadline: Time): Option<Record> {
    PrepareDispatch(rec.(row := rec.row.(status := Provisioning, reason := Unrestricted)), generation, deadline)
  }

  function TransferSettled(rec: Record): Record { rec.(row := rec.row.(transferResume := None)) }

  /** ownerEnabled: the account on the row exists and is enabled. None: rolled
      back, to be retried. */
  function TransferResumed(rec: Record, ownerEnabled: bool, power: Power, now: Time, generation: nat, deadline: Time)
    : Option<Resumption>
  {
    var row := rec.row;
    if row.owner.account.None? || row.transferResume.None? then None
    else if row.owner.account != row.transferResume then Some(Resumption(TransferSettled(rec), false))
    else if !ownerEnabled then None
    else if Claimed(row) then Some(Resumption(TransferSettled(rec), false))
    else if row.expiresAt <= now then
      Some(Resumption(TransferSettled(rec.(row := row.(reason := Expired))), false))
    else if row.status.Destroyed? || row.status.Failed? then
      Some(Resumption(TransferSettled(rec.(row := row.(reason := Unrestricted))), false))
    else if (row.status.Provisioning? || row.status.Suspended?) && row.guest.Some? then
      if power.Unknown? then None
      else Some(Resumption(TransferSettled(GuestRestarted(rec, deadline)), power.Off?))
    else if row.status.Suspended? then
      match Requeued(rec, generation, deadline)
      case None => None
      case Some(queued) => Some(Resumption(TransferSettled(queued), false))
    else Some(Resumption(TransferSettled(rec.(row := row.(reason := Unrestricted))), false))
  }

  datatype PowerAction = StartGuest | RebootGuest | ShutdownGuest | HaltGuest

  predicate PowersOn(action: PowerAction) { action.StartGuest? || action.RebootGuest? }

  predicate AdminPowerAllowed(row: Row, action: PowerAction, ownerEnabled: bool, now: Time) {
    && (PowersOn(action) && row.owner.account.Some? ==> ownerEnabled)
    && !Claimed(row) && !row.status.Destroyed? && !row.status.Provisioning?
    && (PowersOn(action) ==> !row.status.Failed? && !row.reason.AccountDisabled?)
    && (action.StartGuest? ==> row.expiresAt > now)
    && row.guest.Some?
  }

  function AdminPowered(rec: Record, action: PowerAction, ownerEnabled: bool, power: Power, now: Time): Option<Resumption> {
    var row := rec.row;
    if !AdminPowerAllowed(row, action, ownerEnabled, now) then None
    else match action
      case StartGuest =>
        if power.Unknown? then None
        else Some(Resumption(rec.(row := row.(status := Running, reason := Unrestricted)), power.Off?))
      case RebootGuest => Some(Resumption(rec, true))
      case ShutdownGuest => if power.Unknown? then None else Some(Resumption(AdminStopped(rec), false))
      case HaltGuest => if power.Unknown? then None else Some(Resumption(AdminStopped(rec), false))
  }

  function AdminStopped(rec: Record): Record {
    rec.(row := rec.row.(status := if rec.row.status.Failed? then Failed else Suspended,
                         reason := if rec.row.reason.AccountDisabled? then AccountDisabled else ManualAdmin))
  }

  predicate Rebootable(row: Row, authorized: bool) { row.guest.Some? && !Claimed(row) && authorized }

  // ----- ownership -----

  function Transferred(rec: Record, account: nat, wallet: nat): Option<Record> {
    var row := rec.row;
    if Claimed(row) || row.status.Destroyed? || row.resume.Some? || row.status.Provisioning? then None
    else
      var moved := row.(owner := Owner(Some(account), wallet));
      if !row.reason.AccountDisabled? then Some(rec.(row := moved))
      else if row.status.Failed? then Some(rec.(row := moved.(reason := Unrestricted)))
      else Some(rec.(row := moved.(transferResume := Some(account))))
  }

  function OwnershipClaimed(rec: Record, account: nat): Option<Record> {
    var row := rec.row;
    if row.owner.account.Some? || Claimed(row) || row.status.Destroyed? || rec.retention.Some? then None
    else Some(rec.(row := row.(owner := Owner(Some(account), row.owner.wallet))))
  }

  function Detached(rec: Record): Option<Record> {
    var row := rec.row;
    if row.status.Destroyed? || rec.retention.Some? || row.reason.AccountDisabled? || row.resume.Some? then None
    else Some(rec.(row := row.(owner := Owner(None, row.owner.wallet))))
  }

  /** The worker that stops a disabled account's machines skips a machine that
      has changed hands since it was listed. */
  function AccountSuspended(rec: Record, account: nat, power: Power): Option<Record> {
    var row := rec.row;
    if row.owner.account != Some(account) then Some(rec)
    else if row.status.Destroyed? || (row.status.Failed? && row.guest.None?) then Some(rec)
    else if row.guest.Some? && power.Unknown? then None
    else if row.status.Suspended? && (row.reason.ManualAdmin? || row.reason.Expired?) then Some(rec)
    else Some(rec.(row := row.(status := if row.status.Provisioning? || row.status.Failed? then row.status else Suspended,
                               reason := AccountDisabled)))
  }

  /** The worker that resumes an enabled account's machines. */
  function AccountResumed(rec: Record, account: nat, power: Power, now: Time, generation: nat, deadline: Time): Option<Resumption> {
    var row := rec.row;
    if row.owner.account != Some(account) || !row.reason.AccountDisabled? then Some(Resumption(rec, false))
    else if row.status.Destroyed? || row.status.Failed? then
      Some(Resumption(rec.(row := row.(reason := Unrestricted)), false))
    else if row.expiresAt <= now then Some(Resumption(rec.(row := row.(reason := Expired)), false))
    else if row.guest.Some? then
      if power.Unknown? then None else Some(Resumption(GuestRestarted(rec, deadline), power.Off?))
    else if row.status.Provisioning? then Some(Resumption(rec.(row := row.(reason := Unrestricted)), false))
    else match Requeued(rec, generation, deadline)
      case None => None
      case Some(queued) => Some(Resumption(queued, false))
  }

  // ----- recovery of a retained guest -----

  function RestorePrepared(rec: Record, operation: nat, days: nat, now: Time): Option<Record> {
    if rec.retention.None? then None
    else
      var row, kept := rec.row, rec.retention.value;
      if !kept.state.Retained? || !Claimed(row) || row.guest != Some(kept.manifest.guest)
         || row.owner != kept.owner || days == 0 || days > 365 then None
      else
        var restore := Restore(operation, false, now, days, row.expiresAt, Later(row.expiresAt, now, days));
        Some(rec.(retention := Some(kept.(state := Restoring(restore)))))
  }

  predicate RestoreCurrent(rec: Record, operation: nat, authorized: bool, ownerEnabled: bool) {
    && (if rec.row.owner.account.Some? then ownerEnabled else !rec.row.reason.AccountDisabled?)
    && rec.retention.Some? && rec.retention.value.state.Restoring?
    && rec.retention.value.state.restore.operation == operation
    && rec.retention.value.state.restore.authorized == authorized
    && Claimed(rec.row) && rec.row.guest == Some(rec.retention.value.manifest.guest)
    && rec.row.owner == rec.retention.value.owner && rec.row.status.Suspended?
  }

  function RestoreAuthorized(rec: Record, operation: nat, ownerEnabled: bool, now: Time): Option<Record> {
    if !RestoreCurrent(rec, operation, false, ownerEnabled) then None
    else
      var row, kept := rec.row, rec.retention.value;
      var restore := kept.state.restore;
      if row.expiresAt != restore.previous || restore.newExpiry <= now then None
      else Some(rec.(row := row.(expiresAt := restore.newExpiry, reason := ManualAdmin),
                     retention := Some(kept.(state := Restoring(restore.(authorized := true)))),
                     grants := rec.grants + [Grant(operation, Recovery, restore.asked, restore.days, restore.previous, restore.newExpiry)]))
  }

  function RestoreCompleted(rec: Record, operation: nat, ownerEnabled: bool, now: Time): Option<Record> {
    if !RestoreCurrent(rec, operation, true, ownerEnabled) then None
    else
      var restore := rec.retention.value.state.restore;
      if restore.newExpiry <= now || rec.row.expiresAt != restore.newExpiry then None
      else Some(rec.(row := rec.row.(claimedAt := None, reason := ManualAdmin), retention := None))
  }
}
