/** The row of one VM under its lifecycle lock, updated field by field. Each
    method is the body of one transaction of the orchestrator or of the
    administration API, and ends in the state that Transactions describes. */
module LockedVm {
  import opened Records
  import opened Transactions
  import opened Outcomes

  class VmRecord {
    var status: Status
    var guest: Option<Guest>
    var account: Option<nat>
    var wallet: nat
    var prefix: Option<nat>
    var claimedAt: Option<Time>
    var expiresAt: Time
    var reason: Suspension
    var handoff: Handoff
    var deletedGuest: Option<Guest>
    var provisionedAt: Option<Time>
    var resume: Option<ResumeMarker>
    var transferResume: Option<nat>
    var receipt: Option<Receipt>
    var retention: Option<Retention>
    var grants: seq<Grant>

    function View(): Record
      reads this
    {
      Record(Row(status, guest, Owner(account, wallet), prefix, claimedAt, expiresAt, reason, handoff,
                 deletedGuest, provisionedAt, resume, transferResume), receipt, retention, grants)
    }

    /** Insert of a new row: paid orders carry a handoff state and a receipt. */
    constructor (account: Option<nat>, wallet: nat, prefix: nat, expiresAt: Time, ready: bool,
                 generation: nat, deadline: Time)
      ensures View() == Inserted(Owner(account, wallet), prefix, expiresAt, ready, generation, deadline)
    {
      this.status, this.guest, this.prefix := Provisioning, None, Some(prefix);
      this.account, this.wallet := account, wallet;
      this.claimedAt, this.expiresAt, this.reason := None, expiresAt, Unrestricted;
      this.handoff := if wallet == 0 then Unset else if ready then HandedOff else Pending;
      this.deletedGuest, this.provisionedAt, this.resume, this.transferResume := None, None, None, None;
      this.receipt := if wallet == 0 then None else Some(Receipt(generation, deadline, Awaiting));
      this.retention, this.grants := None, [];
    }

    method SetHandoffState(ready: bool)
      modifies this`handoff
      ensures View() == old(View()).(row := SetHandoff(old(View()).row, ready))
      ensures old(handoff) == HandedOff || ready ==> handoff == HandedOff
    {
      if !ready && handoff == HandedOff { return; }
      handoff := if ready then HandedOff else Pending;
    }

    method StageReceipt(generation: nat, deadline: Time) returns (ok: bool)
      modifies this`receipt
      ensures var r := PrepareDispatch(old(View()), generation, deadline);
              ok == r.Some? && View() == if ok then r.value else old(View())
      ensures old(receipt).Some? ==> receipt == old(receipt)
      ensures ok ==> receipt.Some? || guest.Some?
    {
      if status != Provisioning || wallet == 0 { return false; }
      if receipt.None? && guest.None? { receipt := Some(Receipt(generation, deadline, Awaiting)); }
      return true;
    }

    method ActivateReservation(payer: nat, payerAccount: Option<nat>, ready: bool, generation: nat, deadline: Time)
      returns (ok: bool)
      modifies this
      ensures var r := Activated(old(View()), payer, payerAccount, ready, generation, deadline);
              ok == r.Some? && View() == if ok then r.value else old(View())
      ensures old(account).Some? ==> account == old(account)
      ensures old(handoff) == HandedOff ==> handoff == HandedOff
      ensures ok && status == Provisioning ==> payer != 0 && (receipt.Some? || guest.Some?)
    {
      var oldWallet, oldAccount, oldHandoff := wallet, account, handoff;
      wallet := payer;
      if payerAccount.Some? && account.None? { account := payerAccount; }
      if status == Provisioning {
        SetHandoffState(ready);
        ok := StageReceipt(generation, deadline);
        if !ok { wallet, account, handoff := oldWallet, oldAccount, oldHandoff; }
        return;
      }
      return true;
    }

    method MarkFailed()
      modifies this
      ensures View() == MarkedFailed(old(View()))
      ensures status == Failed || status == Destroyed
      ensures guest == old(guest) && handoff == old(handoff)
    {
      if status != Destroyed && status != Failed {
        status := Failed;
        prefix := None;
      }
    }

    method AdoptGuest(recovered: Guest, generation: nat) returns (ok: bool)
      modifies this`guest
      ensures var r := GuestAdopted(old(View()), recovered, generation);
              ok == r.Some? && View() == if ok then r.value else old(View())
      ensures old(guest).Some? ==> guest == old(guest)
    {
      if status != Provisioning || receipt.None? || receipt.value.generation != generation { return false; }
      if guest.Some? && guest != Some(recovered) { return false; }
      guest := Some(recovered);
      return true;
    }

    /** Final transaction of an attempt. The power of the guest is looked at
        only when the machine must stay suspended. */
    method FinalizeDelivery(built: Guest, generation: nat, power: Power, stopped: bool, now: Time)
      returns (finish: Finish)
      modifies this
      ensures finish == Finalized(old(View()), built, generation, power, stopped, now)
      ensures View() == if finish.Delivered? then finish.record else old(View())
      ensures finish.Delivered? ==> old(claimedAt).None? && guest == Some(built) && receipt.Some? && receipt.value.outcome == Succeeded
      ensures finish.Delivered? ==> (status == Ready <==> reason == Unrestricted) && (status == Suspended || status == Ready)
      ensures finish.Delivered? && status == Suspended ==> power == Off || (power == On && stopped)
    {
      if claimedAt.Some? { return Abandon; }
      var adminSuspended := reason == AccountDisabled || reason == ManualAdmin;
      if status != Provisioning && !(adminSuspended && status == Suspended) { return Abandon; }
      if guest != Some(built) || receipt.None? || receipt.value.generation != generation { return Stale; }
      if receipt.value.outcome != Succeeded { return Fail; }
      var mustRemainSuspended := reason == Expired || adminSuspended;
      if mustRemainSuspended {
        if power == On {
          if !stopped { return Retry; }
        } else if power != Off {
          return Retry;
        }
      }
      status := if mustRemainSuspended then Suspended else Ready;
      provisionedAt := Some(now);
      return Delivered(View());
    }

    method RecordFailure(power: Power, stopped: bool) returns (ok: bool)
      modifies this`status
      ensures var r := FailureRecorded(old(View()), power, stopped);
              ok == r.Some? && View() == if ok then r.value else old(View())
      ensures ok ==> old(status) == Provisioning && (guest.None? || power == Off || (power == On && stopped))
    {
      if status != Provisioning { return false; }
      if guest.Some? {
        if power == On {
          if !stopped { return false; }
        } else if power != Off {
          return false;
        }
      }
      status := Failed;
      return true;
    }

    /** Evidence of the guest on the row, for the owner on the row. */
    method PrepareRetention(capture: Option<Manifest>) returns (ok: bool)
      modifies this`retention
      ensures ok <==> capture.Some? && guest == Some(capture.value.guest) && capture.value.disks > 0 && wallet != 0
      ensures retention == if ok then Some(Retention(capture.value, Owner(account, wallet), Prepared)) else old(retention)
    {
      if capture.None? || guest != Some(capture.value.guest) || capture.value.disks == 0 || wallet == 0 { return false; }
      retention := Some(Retention(capture.value, Owner(account, wallet), Prepared));
      return true;
    }

    /** The checks of a deletion under its first lock. */
    method CheckDeletion(request: DestroyRequest) returns (refusal: Option<Answer>)
      ensures refusal == DeletionRefusal(View(), request)
      ensures !request.authorized ==> refusal == Some(Refused)
      ensures refusal == None <==>
                && request.authorized
                && !(status == Destroyed && prefix == None && (guest == None || deletedGuest == guest))
                && (request.cutoff.Some? && claimedAt == None && status != Destroyed ==>
                      status != Failed && expiresAt < request.cutoff.value)
                && (request.reconcile ==> retention.Some?)
                && (retention.Some? ==>
                      !retention.value.state.Restoring? && (request.cutoff.Some? ==> retention.value.state != Retained))
    {
      if !request.authorized { return Some(Refused); }
      var alreadyDestroyed := status == Destroyed;
      var verified := guest.Some? && deletedGuest == guest;
      if alreadyDestroyed && prefix.None? && (guest.None? || verified) { return Some(AlreadyDeleted); }
      if claimedAt.None? && request.cutoff.Some? && !alreadyDestroyed {
        if status == Failed || expiresAt >= request.cutoff.value { return Some(Refused); }
      }
      if request.reconcile && retention.None? { return Some(Refused); }
      if retention.Some? && retention.value.state.Restoring? { return Some(Refused); }
      if retention.Some? && retention.value.state == Retained && request.cutoff.Some? { return Some(KeptRetained); }
      return None;
    }

    /** First lock section of a deletion. */
    method ClaimDeletion(request: DestroyRequest, keepExpired: bool, capture: Option<Manifest>, now: Time)
      returns (answer: Answer)
      modifies this`claimedAt, this`retention
      ensures (View(), answer) == DeletionClaimed(old(View()), request, keepExpired, capture, now)
      ensures old(claimedAt).Some? ==> claimedAt == old(claimedAt) && retention == old(retention)
      ensures !request.authorized ==> answer == Refused && View() == old(View())
      ensures !answer.Proceed? ==> View() == old(View())
      ensures answer.Proceed? ==> claimedAt == if old(claimedAt).Some? then old(claimedAt) else Some(now)
      ensures answer.Proceed? <==>
                && request.authorized
                && !(status == Destroyed && prefix == None && (guest == None || deletedGuest == guest))
                && (request.cutoff.Some? && old(claimedAt) == None && status != Destroyed ==>
                      status != Failed && expiresAt < request.cutoff.value)
                && (request.reconcile ==> old(retention).Some?)
                && (old(retention).Some? ==>
                      && !old(retention).value.state.Restoring? && guest == Some(old(retention).value.manifest.guest)
                      && (request.cutoff.Some? ==> old(retention).value.state != Retained))
                && (old(TakesEvidence(View(), request, keepExpired)) ==>
                      capture.Some? && guest == Some(capture.value.guest) && capture.value.disks > 0 && wallet != 0)
    {
      var refusal := CheckDeletion(request);
      if refusal.Some? { return refusal.value; }
      var verified := guest.Some? && deletedGuest == guest;
      var manifest := if retention.Some? then Some(retention.value.manifest) else None;
      var wantsRetention := claimedAt.None? && request.cutoff.Some? && keepExpired;
      if status != Destroyed && guest.Some? && manifest.None? && wantsRetention {
        var prepared := PrepareRetention(capture);
        if !prepared { return Raised; }
        manifest := capture;
      }
      if manifest.Some? && guest != Some(manifest.value.guest) { return Raised; }
      var order := Order(guest, status == Provisioning, manifest, request.cutoff, verified);
      if claimedAt.None? { claimedAt := Some(now); }
      return Proceed(order);
    }

    /** Second lock section of a deletion that carries retention evidence. */
    method ProtectRetained(order: Order, protected: bool) returns (answer: Answer)
      modifies this
      ensures (View(), answer) == RetentionProtected(old(View()), order, protected)
      ensures View() != old(View()) ==> claimedAt.Some? && protected && status == Suspended && prefix == old(prefix)
    {
      if order.manifest.None? || guest != Some(order.manifest.value.guest) || claimedAt.None? { return Refused; }
      if retention.None? || retention.value.manifest != order.manifest.value { return Raised; }
      if retention.value.state.Restoring? { return Refused; }
      if retention.value.state == Retained && order.cutoff.Some? { return KeptRetained; }
      if !protected { return Raised; }
      retention := Some(retention.value.(state := Retained));
      status := Suspended;
      if reason != ManualAdmin && reason != AccountDisabled { reason := Expired; }
      return KeptRetained;
    }

    /** Last lock section of an ordinary deletion. */
    method FinishDeletion(deleted: Option<Guest>, addressFree: bool)
      modifies this
      ensures View() == DeletionFinished(old(View()), deleted, addressFree)
      ensures prefix != old(prefix) ==> addressFree && guest == deleted
    {
      var cleanupOk := addressFree;
      status := Destroyed;
      if deleted.Some? { deletedGuest := deleted; }
      if guest != deleted { cleanupOk := false; }
      if cleanupOk { prefix := None; }
    }

    method ReleaseDestroyedPrefix()
      modifies this`prefix
      ensures View() == PrefixReleased(old(View()))
      ensures prefix != old(prefix) ==> status == Destroyed && (if guest.Some? then deletedGuest == guest else receipt.None?)
    {
      if status != Destroyed { return; }
      if guest.Some? && deletedGuest != guest { return; }
      if guest.None? && receipt.Some? { return; }
      prefix := None;
    }

    /** The locked part of the expiry sweep; stopped: the stop call returned. */
    method SweepExpiry(now: Time, grace: nat, stopped: bool) returns (decision: ExpiryDecision)
      modifies this`status, this`reason
      ensures decision == ExpiryOf(old(View()).row, now, grace)
      ensures View() == if decision.SuspendGuest? && (old(View()).row.guest.None? || stopped)
                        then SuspendedForExpiry(old(View())) else old(View())
      ensures decision.DeleteGuestAt? <==>
                && !old(status == Destroyed && prefix == None && (guest == None || deletedGuest == guest))
                && (claimedAt.Some? || (old(status) != Failed && now > expiresAt + grace))
      ensures decision.DeleteGuestAt? ==> decision.cutoff == now - grace
      ensures claimedAt == None && expiresAt < now <= expiresAt + grace && (guest == None || stopped)
              && old(status) != Failed && old(status) != Destroyed && old(status) != Suspended
              && !(old(status) == Provisioning && guest == None) ==>
                && status == (if old(status) == Provisioning then Provisioning else Suspended)
                && reason == if old(reason) == AccountDisabled || old(reason) == ManualAdmin then old(reason) else Expired
      ensures View() != old(View()) ==> claimedAt == None && expiresAt < now <= expiresAt + grace && (guest == None || stopped)
    {
      if status == Destroyed && prefix.None? && (guest.None? || deletedGuest == guest) { return LeaveAlone; }
      var claimed := claimedAt.Some?;
      if !claimed && status == Failed { return LeaveAlone; }
      if claimed || now > expiresAt + grace { return DeleteGuestAt(now - grace); }
      if expiresAt >= now || status == Suspended { return LeaveAlone; }
      if status == Provisioning && guest.None? { return LeaveAlone; }
      if guest.Some? && !stopped { return SuspendGuest; }
      if status != Provisioning { status := Suspended; }
      if reason != AccountDisabled && reason != ManualAdmin { reason := Expired; }
      return SuspendGuest;
    }

    method ReconcilePower(power: Power, now: Time) returns (known: bool)
      modifies this
      ensures var r := PowerReconciled(old(View()).row, power, now);
              known == r.Some? && View() == if known then old(View()).(row := r.value) else old(View())
      ensures View() != old(View()) ==> power == Off && expiresAt < now && status == Suspended && reason == Expired
    {
      if claimedAt.Some? || status == Destroyed || status == Failed || status == Provisioning
         || reason == AccountDisabled || reason == ManualAdmin { return true; }
      if expiresAt >= now || guest.None? || status == Suspended { return true; }
      if power == On { return true; }
      if power != Off { return false; }
      status := Suspended;
      reason := Expired;
      return true;
    }

    /** The transaction of a paid extension, up to its commit. */
    method Extend(id: nat, days: nat, ownerEnabled: bool, power: Power, now: Time) returns (ok: bool)
      modifies this
      ensures var r := Extended(old(View()), id, days, ownerEnabled, power, now);
              ok == r.Some? && View() == if ok then r.value else old(View())
      ensures ok ==> old(claimedAt).None? && HasReceipt(grants, id) && expiresAt >= old(expiresAt) + days * DAY
      ensures resume != old(resume) ==> resume.Some? && resume.value.receipt == id && HasReceipt(grants, id)
    {
      var oldStatus, oldReason := status, reason;
      var known := ReconcilePower(power, now);
      if !known { return false; }
      if days == 0 || !CanExtend(View().row) || !ownerEnabled {
        status, reason := oldStatus, oldReason;
        return false;
      }
      var previous := expiresAt;
      expiresAt := Max(previous, now) + days * DAY;
      if status == Suspended && guest.Some? { resume := Some(ResumeMarker(id, guest.value, Owner(account, wallet))); }
      grants := grants + [Grant(id, Paid, now, days, previous, expiresAt)];
      assert grants[|grants| - 1].id == id;
      return true;
    }

    /** The post-commit start of an extended guest; started: the provider was
        told to start it. */
    method ResumeExtension(ownerEnabled: bool, power: Power) returns (started: bool)
      modifies this
      ensures Resumption(View(), started) == ExtensionResumed(old(View()), ownerEnabled, power)
      ensures started ==> claimedAt.None? && ownerEnabled && power == Off && status == Running && resume.None?
      ensures old(Promised(View().row)) && ownerEnabled ==>
                (started <==> power == Off) && (status == Running <==> power != Unknown)
      ensures !old(Promised(View().row)) ==> !started && status == old(status) && resume == None
    {
      if resume.None? { return false; }
      var pending := resume.value;
      if status != Suspended || claimedAt.Some? || guest != Some(pending.guest)
         || Owner(account, wallet) != pending.owner || reason == AccountDisabled || reason == ManualAdmin {
        resume := None;
        return false;
      }
      if !ownerEnabled { return false; }
      started := false;
      if power == Off {
        started := true;
      } else if power != On {
        return false;
      }
      status := Running;
      reason := Unrestricted;
      resume := None;
    }

    /** Tell a guest's machine to run again for its owner. */
    method RestartGuest(deadline: Time)
      modifies this
      ensures View() == GuestRestarted(old(View()), deadline)
    {
      if status == Provisioning {
        if receipt.Some? && receipt.value.outcome == Awaiting {
          receipt := Some(receipt.value.(deadline := deadline));
        }
      } else {
        status := Running;
      }
      reason := Unrestricted;
    }

    method ResumeTransfer(ownerEnabled: bool, power: Power, now: Time, generation: nat, deadline: Time)
      returns (ok: bool, started: bool)
      modifies this
      ensures var r := TransferResumed(old(View()), ownerEnabled, power, now, generation, deadline);
              && ok == r.Some? && View() == (if ok then r.value.record else old(View()))
              && (ok ==> started == r.value.started)
      ensures ok ==> transferResume.None?
      ensures started ==> claimedAt.None? && ownerEnabled && expiresAt > now && guest.Some? && power == Off
    {
      started := false;
      if account.None? || transferResume.None? { return false, false; }
      if account != transferResume {
        transferResume := None;
        return true, false;
      }
      if !ownerEnabled { return false, false; }
      if claimedAt.Some? {
        transferResume := None;
        return true, false;
      }
      var oldStatus, oldReason := status, reason;
      if expiresAt <= now {
        reason := Expired;
      } else if status == Destroyed || status == Failed {
        reason := Unrestricted;
      } else if (status == Provisioning || status == Suspended) && guest.Some? {
        if power == Unknown { return false, false; }
        started := power == Off;
        RestartGuest(deadline);
      } else if status == Suspended {
        status := Provisioning;
        reason := Unrestricted;
        var staged := StageReceipt(generation, deadline);
        if !staged {
          status, reason := oldStatus, oldReason;
          return false, false;
        }
      } else {
        reason := Unrestricted;
      }
      transferResume := None;
      return true, started;
    }

    /** The resume half of the account worker. */
    method ResumeForAccount(owner: nat, power: Power, now: Time, generation: nat, deadline: Time)
      returns (ok: bool, started: bool)
      modifies this
      ensures var r := AccountResumed(old(View()), owner, power, now, generation, deadline);
              && ok == r.Some? && View() == (if ok then r.value.record else old(View()))
              && (ok ==> started == r.value.started)
      ensures started ==> account == Some(owner) && expiresAt > now && guest.Some? && power == Off
      ensures old(account) != Some(owner) ==> View() == old(View())
    {
      started := false;
      if account != Some(owner) || reason != AccountDisabled { return true, false; }
      if status == Destroyed || status == Failed {
        reason := Unrestricted;
        return true, false;
      }
      if expiresAt <= now {
        reason := Expired;
        return true, false;
      }
      if guest.Some? {
        if power == Unknown { return false, false; }
        started := power == Off;
        RestartGuest(deadline);
        return true, started;
      }
      if status == Provisioning {
        reason := Unrestricted;
        return true, false;
      }
      var oldStatus, oldReason := status, reason;
      status := Provisioning;
      reason := Unrestricted;
      ok := StageReceipt(generation, deadline);
      if !ok { status, reason := oldStatus, oldReason; }
    }

    /** The suspend half of the account worker. */
    method SuspendForAccount(owner: nat, power: Power) returns (ok: bool)
      modifies this
      ensures var r := AccountSuspended(old(View()), owner, power);
              ok == r.Some? && View() == if ok then r.value else old(View())
      ensures View() != old(View()) ==> account == Some(owner) && reason == AccountDisabled
      ensures old(status) == Suspended && (old(reason) == ManualAdmin || old(reason) == Expired) ==> reason == old(reason)
    {
      if account != Some(owner) { return true; }
      if status == Destroyed { return true; }
      if status == Failed && guest.None? { return true; }
      if guest.Some? && power == Unknown { return false; }
      if status == Suspended && (reason == ManualAdmin || reason == Expired) { return true; }
      if status != Provisioning && status != Failed { status := Suspended; }
      reason := AccountDisabled;
      return true;
    }

    /** A direct power action of an administrator. */
    method AdminPower(action: PowerAction, ownerEnabled: bool, power: Power, now: Time) returns (ok: bool, started: bool)
      modifies this
      ensures var r := AdminPowered(old(View()), action, ownerEnabled, power, now);
              && ok == r.Some? && View() == (if ok then r.value.record else old(View()))
              && (ok ==> started == r.value.started)
      ensures ok ==> claimedAt.None? && guest.Some?
      ensures started ==> PowersOn(action) && status != Failed && (account.Some? ==> ownerEnabled)
    {
      var powersOn := action == StartGuest || action == RebootGuest;
      if powersOn && account.Some? && !ownerEnabled { return false, false; }
      if claimedAt.Some? { return false, false; }
      if status == Destroyed { return false, false; }
      if powersOn && status == Failed { return false, false; }
      if status == Provisioning { return false, false; }
      if action == StartGuest && expiresAt <= now { return false, false; }
      if powersOn && reason == AccountDisabled { return false, false; }
      if guest.None? { return false, false; }
      if action == RebootGuest { return true, true; }
      if power == Unknown { return false, false; }
      if action == StartGuest {
        status := Running;
        reason := Unrestricted;
        return true, power == Off;
      }
      if status != Failed { status := Suspended; }
      if reason != AccountDisabled { reason := ManualAdmin; }
      return true, false;
    }

    method AdminExtend(id: nat, days: nat, now: Time) returns (ok: bool)
      modifies this
      ensures var r := AdminExtended(old(View()), id, days, now);
              ok == r.Some? && View() == if ok then r.value else old(View())
      ensures ok ==> claimedAt.None? && status == old(status) && expiresAt >= old(expiresAt) + days * DAY
    {
      if days == 0 || claimedAt.Some? || status == Provisioning || status == Failed || status == Destroyed { return false; }
      var previous := expiresAt;
      expiresAt := Max(previous, now) + days * DAY;
      grants := grants + [Grant(id, AdminGrant, now, days, previous, expiresAt)];
      return true;
    }

    /** The row part of an ownership transfer. */
    method TransferTo(target: nat, identity: nat) returns (ok: bool)
      modifies this
      ensures var r := Transferred(old(View()), target, identity);
              ok == r.Some? && View() == if ok then r.value else old(View())
      ensures ok ==> account == Some(target) && claimedAt.None? && resume.None?
      ensures ok && old(reason) == AccountDisabled && status != Failed ==> transferResume == Some(target)
    {
      if claimedAt.Some? || status == Destroyed { return false; }
      if resume.Some? { return false; }
      if status == Provisioning { return false; }
      account := Some(target);
      wallet := identity;
      if reason == AccountDisabled {
        if status == Failed {
          reason := Unrestricted;
        } else {
          transferResume := Some(target);
        }
      }
      return true;
    }
  }

  /** One candidate of the expiry sweep: the decision under the first lock, a
      renewal that may come in before the second, and the deletion under it. */
  method ExpireCandidate(vm: VmRecord, now: Time, grace: nat, stopped: bool, renewal: Grant, power: Power, later: Time,
                         keepExpired: bool, capture: Option<Manifest>)
    returns (renewed: bool, answer: Answer)
    requires now <= later
    modifies vm
    ensures answer.Proceed? ==> vm.claimedAt.Some?
    ensures answer.Proceed? && old(vm.claimedAt).None? && old(vm.status) != Destroyed ==>
              !renewed && vm.expiresAt < now - grace && old(vm.status) != Failed
    ensures renewed ==> vm.claimedAt.None? && vm.expiresAt >= later + renewal.days * DAY && HasReceipt(vm.grants, renewal.id)
  {
    renewed, answer := false, Refused;
    var decision := vm.SweepExpiry(now, grace, stopped);
    if !decision.DeleteGuestAt? { return; }
    renewed := vm.Extend(renewal.id, renewal.days, true, power, later);
    answer := vm.ClaimDeletion(DestroyRequest(Some(decision.cutoff), true, false), keepExpired, capture, later);
  }
}
