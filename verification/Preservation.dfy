/** Every orderly step keeps the invariant, and so does every orderly run. */
module Preservation {
  import opened Records
  import opened Transactions
  import opened Lifecycle
  import opened Invariant

  lemma FreshInv(s: VM)
    requires Fresh(s)
    ensures Inv(s)
  {
  }

  /** Facts about deletions survive: removed guests stay removed, and a row that
      left provisioning stays out of it. */
  predicate Onward(s: VM, s': VM) {
    && (forall g | g in s.guests :: g in s'.guests && (!s.guests[g].present ==> !s'.guests[g].present))
    && (s'.record.Some? ==>
          && s.record.Some?
          && (s'.record.value.row.status.Provisioning? ==> s.record.value.row.status.Provisioning?)
          && (s.record.value.receipt.None? && !s.record.value.row.status.Provisioning? ==> s'.record.value.receipt.None?))
  }

  lemma DeletionsKeep(s: VM, s': VM)
    requires Onward(s, s') && forall d | d in s.deletions :: DeletionSound(s, d)
    ensures forall d | d in s.deletions :: DeletionSound(s', d)
  {
  }

  // ----- reservation, payment and handoff -----

  lemma InsertKeeps(s: VM, t: ReserveStep)
    requires Inv(s) && ReserveEnabled(s, t) && t.Insert?
    ensures Inv(ReserveNext(s, t))
  {
  }

  /** Payment, handoff and dispatch: only owner and handoff of the row change,
      and a missing receipt may be staged for a paid provisioning row. */
  predicate Dispatching(before: Record, after: Record, generation: nat) {
    && after.row == before.row.(owner := after.row.owner, handoff := after.row.handoff)
    && after.retention == before.retention && after.grants == before.grants
    && (before.row.handoff.HandedOff? ==> after.row.handoff.HandedOff?)
    && (!before.row.handoff.Unset? ==> !after.row.handoff.Unset?)
    && (after.row.status.Provisioning? && after.receipt.Some? ==> Paying(after.row))
    && (|| after.receipt == before.receipt
        || (&& before.receipt.None? && after.row.status.Provisioning? && !after.row.handoff.Unset?
            && after.receipt.Some? && after.receipt.value.generation == generation))
  }

  lemma ReservingDispatches(s: VM, t: ReserveStep)
    requires Inv(s) && ReserveEnabled(s, t) && (t.Replay? || t.Activate? || t.Spawn? || t.Publish?)
    ensures Dispatching(s.record.value, ReserveNext(s, t).record.value, s.generations)
  {
  }

  lemma DispatchingKeeps(s: VM, s': VM)
    requires Inv(s) && s.record.Some? && s'.record.Some?
    requires s' == s.(record := s'.record, generations := s'.generations, dispatched := s'.dispatched)
    requires Dispatching(s.record.value, s'.record.value, s.generations)
    requires s'.generations >= s.generations
    requires s'.record.value.receipt != s.record.value.receipt ==> s'.generations > s.generations
    requires s.dispatched ==> s'.dispatched
    requires s'.dispatched && !s.dispatched ==>
               && s'.record.value.row.handoff.HandedOff? && s'.record.value.receipt.Some?
               && s'.record.value.row.status.Provisioning?
    ensures Inv(s')
  {
  }

  lemma DispatchKeeps(s: VM, t: ReserveStep)
    requires Inv(s) && ReserveEnabled(s, t) && (t.Replay? || t.Activate? || t.Spawn? || t.Publish?)
    ensures Inv(ReserveNext(s, t))
  {
    ReservingDispatches(s, t);
    DispatchingKeeps(s, ReserveNext(s, t));
  }

  lemma EndKeeps(s: VM, t: ReserveStep)
    requires Inv(s) && ReserveEnabled(s, t) && Orderly(s, Reserving(t)) && (t.Release? || t.Purge? || t.MarkFailed?)
    ensures Inv(ReserveNext(s, t))
  {
  }

  lemma ReserveKeeps(s: VM, t: ReserveStep)
    requires Inv(s) && ReserveEnabled(s, t) && Orderly(s, Reserving(t))
    ensures Inv(ReserveNext(s, t))
  {
    if t.Insert? { InsertKeeps(s, t); }
    else if t.Release? || t.Purge? || t.MarkFailed? { EndKeeps(s, t); }
    else { DispatchKeeps(s, t); }
  }

  // ----- the provisioning attempt -----

  /** A step that moves the attempt only. */
  lemma MoveKeeps(s: VM, s': VM)
    requires Inv(s) && s' == s.(attempt := s'.attempt, refunds := s'.refunds)
    requires AttemptSound(s') && RowSound(s') && (s.dispatched || (s'.attempt.Idle? && s'.refunds == 0))
    ensures Inv(s')
  {
  }

  lemma ReadKeeps(s: VM, t: AttemptStep)
    requires Inv(s) && AttemptEnabled(s, t)
    requires t.Begin? || t.ReadReceipt? || t.ReadGeneration? || t.PollReport? || t.Refund? || t.Raise? || t.Crash?
    ensures Inv(AttemptNext(s, t))
  {
    MoveKeeps(s, AttemptNext(s, t));
  }

  lemma SearchKeeps(s: VM, t: AttemptStep)
    requires Inv(s) && AttemptEnabled(s, t) && (t.FoundNone? || t.FoundOne?)
    ensures Inv(AttemptNext(s, t))
  {
    if t.FoundOne? { assert t.guest in Candidates(s, s.attempt.generation); }
    assert forall g | g in s.guests && CanRun(s, g) :: g in Candidates(s, s.attempt.generation);
    MoveKeeps(s, AttemptNext(s, t));
  }

  lemma SameRecordIsGentle(s: VM)
    requires Inv(s) && s.record.Some?
    ensures Gentle(s.record.value, s.record.value)
  {
  }

  lemma StopsAreFewer(s: VM, t: AttemptStep)
    requires MachinesSound(s) && AttemptEnabled(s, t) && (t.FoundMany? || t.Check?)
    ensures Fewer(s.guests, AttemptNext(s, t).guests)
  {
    if t.Check? { HaltedIsFewer(s.guests, Some(s.attempt.guest), t.stopped); }
  }

  /** Provider calls of the attempt that only stop guests. */
  lemma StopKeeps(s: VM, t: AttemptStep)
    requires Inv(s) && AttemptEnabled(s, t) && (t.FoundMany? || t.Check?)
    ensures Inv(AttemptNext(s, t))
  {
    var s' := AttemptNext(s, t);
    var moved := s.(attempt := s'.attempt);
    MoveKeeps(s, moved);
    if s.record.Some? {
      SameRecordIsGentle(moved);
      StopsAreFewer(s, t);
      GentleKeeps(moved, s');
    }
  }

  /** What an attempt does not touch: claims, deletions and time. */
  predicate Apart(s: VM, s': VM) {
    && Onward(s, s') && s'.deletions == s.deletions && s'.destroyed == s.destroyed && s'.born == s.born
    && s'.clock == s.clock && s'.cutoffs == s.cutoffs && s'.config == s.config && s'.record.Some? == s.record.Some?
    && (s.record.Some? ==>
          var rec, rec' := s.record.value, s'.record.value;
          && rec'.retention == rec.retention && rec'.grants == rec.grants
          && rec'.row == rec.row.(guest := rec'.row.guest) && (rec.row.guest.Some? ==> rec'.row.guest == rec.row.guest))
  }

  lemma ApartKeeps(s: VM, s': VM)
    requires Inv(s) && Apart(s, s')
    ensures ClaimSound(s') && TimeSound(s')
  {
    DeletionsKeep(s, s');
  }

  lemma CreateKeeps(s: VM, t: AttemptStep)
    requires Inv(s) && AttemptEnabled(s, t) && t.Create?
    ensures Inv(AttemptNext(s, t))
  {
    ApartKeeps(s, AttemptNext(s, t));
  }

  lemma BootKeeps(s: VM, t: AttemptStep)
    requires Inv(s) && AttemptEnabled(s, t) && t.Boot?
    ensures Inv(AttemptNext(s, t))
  {
    ApartKeeps(s, AttemptNext(s, t));
  }

  lemma BootFailedKeeps(s: VM, t: AttemptStep)
    requires Inv(s) && AttemptEnabled(s, t) && t.BootFailed?
    ensures Inv(AttemptNext(s, t))
  {
    ApartKeeps(s, AttemptNext(s, t));
  }

  lemma AdoptKeeps(s: VM, t: AttemptStep)
    requires Inv(s) && AttemptEnabled(s, t) && t.Adopt?
    ensures Inv(AttemptNext(s, t))
  {
    ApartKeeps(s, AttemptNext(s, t));
  }

  lemma RegenerateKeeps(s: VM, t: AttemptStep)
    requires Inv(s) && AttemptEnabled(s, t) && t.Regenerate?
    ensures Inv(AttemptNext(s, t))
  {
    ApartKeeps(s, AttemptNext(s, t));
  }

  lemma RecordGuestKeeps(s: VM, t: AttemptStep)
    requires Inv(s) && AttemptEnabled(s, t) && t.RecordGuest?
    ensures Inv(AttemptNext(s, t))
  {
  }

  /** The attempt ends with its verdict on the row: delivered, or failed. */
  predicate Verdict(before: Record, after: Record, next: Attempt) {
    && after == before.(row := before.row.(status := after.row.status, provisionedAt := after.row.provisionedAt))
    && (|| (&& (after.row.status.Ready? || after.row.status.Suspended?) && after.row.provisionedAt.Some?
            && after.row.guest.Some? && after.receipt.Some? && after.receipt.value.outcome.Succeeded?
            && !before.row.status.Destroyed? && (next.Idle? || next.Failing?))
        || (&& before.row.status.Provisioning? && after.row.status.Failed?
            && after.row.provisionedAt == before.row.provisionedAt && (next.Idle? || next.Refunding?)))
  }

  lemma VerdictKeeps(s: VM, s': VM)
    requires Inv(s) && s.record.Some? && s'.record.Some? && !s.attempt.Idle? && !s.attempt.Refunding?
    requires s' == s.(record := s'.record, guests := s'.guests, attempt := s'.attempt)
    requires Fewer(s.guests, s'.guests) && Verdict(s.record.value, s'.record.value, s'.attempt)
    ensures Inv(s')
  {
    DeletionsKeep(s, s');
    assert forall g | g in s'.guests :: CanRun(s', g) ==> CanRun(s, g);
    TimeKeepsStill(s, s');
  }

  lemma TimeKeepsStill(s: VM, s': VM)
    requires TimeSound(s) && s.record.Some? && s'.record.Some?
    requires s' == s.(record := s'.record, guests := s'.guests, attempt := s'.attempt)
    requires s'.record.value.grants == s.record.value.grants && s'.record.value.retention == s.record.value.retention
    requires s'.record.value.row.expiresAt == s.record.value.row.expiresAt
    requires s'.record.value.row.resume == s.record.value.row.resume
    ensures TimeSound(s')
  {
  }

  lemma HaltedIsFewer(guests: Machines, g: Option<Guest>, stop: bool)
    requires forall h | h in guests :: guests[h].running ==> guests[h].present && guests[h].booted
    ensures Fewer(guests, HaltedIf(guests, g, stop))
  {
  }

  lemma FinalizeKeeps(s: VM, t: AttemptStep)
    requires Inv(s) && AttemptEnabled(s, t) && t.Finalize?
    ensures Inv(AttemptNext(s, t))
  {
    var s' := AttemptNext(s, t);
    if s.record.Some?
       && Finalized(s.record.value, s.attempt.guest, s.attempt.generation, t.power, t.stopped, s.clock).Delivered?
    {
      HaltedIsFewer(s.guests, Some(s.attempt.guest), MustRemainSuspended(s.record.value.row) && t.power.On?);
      VerdictKeeps(s, s');
    } else {
      MoveKeeps(s, s');
    }
  }

  lemma HandleFailureKeeps(s: VM, t: AttemptStep)
    requires Inv(s) && AttemptEnabled(s, t) && t.HandleFailure?
    ensures Inv(AttemptNext(s, t))
  {
    var s' := AttemptNext(s, t);
    if s.record.Some? && FailureRecorded(s.record.value, t.power, t.stopped).Some? {
      HaltedIsFewer(s.guests, RowGuest(s), t.power.On?);
      VerdictKeeps(s, s');
    } else {
      MoveKeeps(s, s');
    }
  }

  lemma AttemptKeeps(s: VM, t: AttemptStep)
    requires Inv(s) && AttemptEnabled(s, t)
    ensures Inv(AttemptNext(s, t))
  {
    if t.FoundMany? || t.Check? { StopKeeps(s, t); }
    else if t.FoundNone? || t.FoundOne? { SearchKeeps(s, t); }
    else if t.Create? { CreateKeeps(s, t); }
    else if t.Boot? { BootKeeps(s, t); }
    else if t.BootFailed? { BootFailedKeeps(s, t); }
    else if t.Adopt? { AdoptKeeps(s, t); }
    else if t.Regenerate? { RegenerateKeeps(s, t); }
    else if t.RecordGuest? { RecordGuestKeeps(s, t); }
    else if t.Finalize? { FinalizeKeeps(s, t); }
    else if t.HandleFailure? { HandleFailureKeeps(s, t); }
    else { ReadKeeps(s, t); }
  }

  // ----- deletion -----

  /** What an accepted deletion does to the record: it claims the row, and the
      evidence is what it was or is created together with the claim. */
  predicate Claiming(before: Record, after: Record, order: Order, now: Time) {
    && after == before.(row := WithClaim(before.row, now), retention := after.retention)
    && order == OrderFor(before.row, order.manifest, order.cutoff)
    && (if after.retention.Some? then
          && order.manifest == Some(after.retention.value.manifest)
          && before.row.guest == Some(after.retention.value.manifest.guest)
          && (before.retention.Some? ==> after.retention == before.retention)
          && (before.retention.None? ==>
                !Claimed(before.row) && !before.row.status.Destroyed? && after.retention.value.state.Prepared?)
        else before.retention.None? && order.manifest.None?)
  }

  lemma AnswerOf(rec: Record, request: DestroyRequest, keepExpired: bool, capture: Option<Manifest>, now: Time)
    ensures var (rec', answer) := DeletionClaimed(rec, request, keepExpired, capture, now);
            if answer.Proceed? then Claiming(rec, rec', answer.order, now) else rec' == rec
  {
  }

  lemma ClaimingKeeps(s: VM, s': VM, order: Order)
    requires Inv(s) && s.record.Some? && s'.record.Some?
    requires s' == s.(record := s'.record, deletions := s.deletions + {Deletion(order, Accepted)})
    requires Claiming(s.record.value, s'.record.value, order, s.clock)
    ensures Inv(s')
  {
    DeletionsKeep(s, s');
    assert DeletionSound(s', Deletion(order, Accepted));
  }

  lemma AcceptKeeps(s: VM, t: DeleteStep)
    requires Inv(s) && DeleteEnabled(s, t) && t.Accept?
    ensures Inv(DeleteNext(s, t))
  {
    AnswerOf(s.record.value, t.request, t.keepExpired, t.capture, s.clock);
    var s' := DeleteNext(s, t);
    var (rec, answer) := DeletionClaimed(s.record.value, t.request, t.keepExpired, t.capture, s.clock);
    if answer.Proceed? { ClaimingKeeps(s, s', answer.order); }
  }

  lemma ResolveKeeps(s: VM, t: DeleteStep)
    requires Inv(s) && DeleteEnabled(s, t) && t.Resolve?
    ensures Inv(DeleteNext(s, t))
  {
    assert DeletionSound(s, t.deletion);
    DeletionsKeep(s, DeleteNext(s, t));
  }

  lemma ProtectKeeps(s: VM, t: DeleteStep)
    requires Inv(s) && DeleteEnabled(s, t) && t.Protect?
    ensures Inv(DeleteNext(s, t))
  {
    assert DeletionSound(s, t.deletion);
    GentleKeeps(s, DeleteNext(s, t));
  }

  lemma LogKeeps(s: VM, destroyed: set<Guest>)
    requires Inv(s) && s.record.Some? && Claimed(s.record.value.row) && s.record.value.retention.None? && s.dispatched
    ensures Inv(s.(destroyed := destroyed))
  {
  }

  lemma CallIsFewer(s: VM, order: Order, completed: bool)
    requires MachinesSound(s)
    ensures Fewer(s.guests, WithDestroyCall(s, order, completed).guests)
  {
  }

  lemma CallKeeps(s: VM, order: Order, completed: bool)
    requires Inv(s) && s.record.Some? && Claimed(s.record.value.row) && s.record.value.retention.None? && s.dispatched
    ensures Inv(WithDestroyCall(s, order, completed))
  {
    var s' := WithDestroyCall(s, order, completed);
    var mid := s.(guests := s'.guests);
    SameRecordIsGentle(s);
    CallIsFewer(s, order, completed);
    GentleKeeps(s, mid);
    LogKeeps(mid, s'.destroyed);
  }

  lemma CleanedKeeps(s: VM, d: Deletion)
    requires Inv(s) && DeletionSound(s, d) && d.order.manifest.None?
    requires s.born.Some? && (s.record.Some? ==> Claimed(s.record.value.row) && s.record.value.retention.None?)
    ensures Inv(s.(deletions := s.deletions + {d}))
  {
    DeletionsKeep(s, s.(deletions := s.deletions + {d}));
  }

  lemma DestroyKeeps(s: VM, t: DeleteStep)
    requires Inv(s) && DeleteEnabled(s, t) && (t.Destroy? || t.DestroyFails?)
    ensures Inv(DeleteNext(s, t))
  {
    var order := t.deletion.order;
    assert DeletionSound(s, t.deletion);
    if DestroyCall(order).Some? { CallKeeps(s, order, t.Destroy?); }
    if t.Destroy? {
      var called := WithDestroyCall(s, order, true);
      DeletionsKeep(s, called);
      CleanedKeeps(called, Deletion(order, Cleaned(t.dnsFree && AddressFree(order, t.deletion.stage.unresolved))));
    }
  }

  lemma CompleteKeeps(s: VM, t: DeleteStep)
    requires Inv(s) && DeleteEnabled(s, t) && (t.Complete? || t.ReleasePrefix?)
    ensures Inv(DeleteNext(s, t))
  {
    if t.Complete? { assert DeletionSound(s, t.deletion); }
    DeletionsKeep(s, DeleteNext(s, t));
  }

  lemma DeleteKeeps(s: VM, t: DeleteStep)
    requires Inv(s) && DeleteEnabled(s, t)
    ensures Inv(DeleteNext(s, t))
  {
    match t
    case Accept(_, _, _) => AcceptKeeps(s, t);
    case Resolve(_) => ResolveKeeps(s, t);
    case Protect(_, _) => ProtectKeeps(s, t);
    case Destroy(_, _) => DestroyKeeps(s, t);
    case DestroyFails(_) => DestroyKeeps(s, t);
    case Complete(_) => CompleteKeeps(s, t);
    case ReleasePrefix => CompleteKeeps(s, t);
  }

  // ----- power, time, ownership and recovery -----

  lemma ExpiryIsGentle(s: VM, t: PowerStep)
    requires Inv(s) && PowerEnabled(s, t) && (t.ExpireSuspend? || t.ExpireDelete? || t.Reboot?)
    ensures Gentle(s.record.value, PowerNext(s, t).record.value)
  {
  }

  lemma AccountStopIsGentle(s: VM, t: PowerStep)
    requires Inv(s) && PowerEnabled(s, t) && t.SuspendAccount?
    ensures Gentle(s.record.value, PowerNext(s, t).record.value)
  {
  }

  lemma AdminPoweredIsGentle(rec: Record, action: PowerAction, enabled: bool, power: Power, now: Time)
    requires Tracked(rec) && AdminPowered(rec, action, enabled, power, now).Some?
    ensures Gentle(rec, AdminPowered(rec, action, enabled, power, now).value.record)
  {
  }

  lemma AdminPowerIsGentle(s: VM, t: PowerStep)
    requires Inv(s) && PowerEnabled(s, t) && t.AdminPower?
    ensures Gentle(s.record.value, PowerNext(s, t).record.value)
  {
    AdminPoweredIsGentle(s.record.value, t.action, t.ownerEnabled, t.power, s.clock);
  }

  lemma TimeIsGentle(s: VM, t: PowerStep)
    requires Inv(s) && PowerEnabled(s, t) && (t.Extend? || t.AdminExtend?)
    ensures Gentle(s.record.value, PowerNext(s, t).record.value)
  {
  }

  lemma ExtensionResumeIsGentle(s: VM, t: PowerStep)
    requires Inv(s) && PowerEnabled(s, t) && t.ResumeExtension?
    ensures Gentle(s.record.value, PowerNext(s, t).record.value)
  {
  }

  /** Live rows have a guest, and a pending recovery is well formed. */
  predicate Tracked(rec: Record) {
    && (rec.row.status.Running? || rec.row.status.Suspended? ==> rec.row.guest.Some?)
    && GentleTime(rec, rec)
  }

  lemma RestartIsGentle(rec: Record, deadline: Time)
    requires Tracked(rec) && rec.row.guest.Some? && !rec.row.status.Destroyed?
    ensures Gentle(rec, GuestRestarted(rec, deadline))
    ensures Gentle(rec, TransferSettled(GuestRestarted(rec, deadline)))
  {
  }

  lemma SettledIsGentle(rec: Record, reason: Suspension)
    requires Tracked(rec)
    ensures Gentle(rec, TransferSettled(rec.(row := rec.row.(reason := reason))))
  {
  }

  lemma TransferResumedIsGentle(rec: Record, enabled: bool, power: Power, now: Time, generation: nat, deadline: Time)
    requires Tracked(rec) && TransferResumed(rec, enabled, power, now, generation, deadline).Some?
    ensures Gentle(rec, TransferResumed(rec, enabled, power, now, generation, deadline).value.record)
  {
    SettledIsGentle(rec, rec.row.reason);
    SettledIsGentle(rec, Expired);
    SettledIsGentle(rec, Unrestricted);
    if rec.row.guest.Some? && !rec.row.status.Destroyed? { RestartIsGentle(rec, deadline); }
    var result := TransferResumed(rec, enabled, power, now, generation, deadline).value.record;
    assert || result == TransferSettled(GuestRestarted(rec, deadline))
           || exists r: Suspension :: result == TransferSettled(rec.(row := rec.row.(reason := r)));
  }

  lemma AccountResumedIsGentle(rec: Record, account: nat, power: Power, now: Time, generation: nat, deadline: Time)
    requires Tracked(rec) && (rec.row.status.Ready? ==> rec.row.guest.Some?)
    requires AccountResumed(rec, account, power, now, generation, deadline).Some?
    ensures Gentle(rec, AccountResumed(rec, account, power, now, generation, deadline).value.record)
  {
  }

  lemma OwnerIsGentle(s: VM, t: PowerStep)
    requires Inv(s) && PowerEnabled(s, t) && (t.Transfer? || t.ClaimOwner? || t.Detach?)
    ensures Gentle(s.record.value, PowerNext(s, t).record.value)
  {
  }

  lemma RestoreIsGentle(s: VM, t: PowerStep)
    requires Inv(s) && PowerEnabled(s, t) && (t.PrepareRestore? || t.AuthorizeRestore? || t.CompleteRestore?)
    ensures Gentle(s.record.value, PowerNext(s, t).record.value)
  {
  }

  lemma PowerIsGentle(s: VM, t: PowerStep)
    requires Inv(s) && PowerEnabled(s, t)
    ensures Gentle(s.record.value, PowerNext(s, t).record.value)
  {
    if t.Extend? || t.AdminExtend? { TimeIsGentle(s, t); }
    else if t.ResumeExtension? { ExtensionResumeIsGentle(s, t); }
    else if t.ResumeTransfer? {
      TransferResumedIsGentle(s.record.value, t.ownerEnabled, t.power, s.clock, s.generations, Deadline(s));
    }
    else if t.ResumeAccount? {
      AccountResumedIsGentle(s.record.value, t.account, t.power, s.clock, s.generations, Deadline(s));
    }
    else if t.SuspendAccount? { AccountStopIsGentle(s, t); }
    else if t.AdminPower? { AdminPowerIsGentle(s, t); }
    else if t.Transfer? || t.ClaimOwner? || t.Detach? { OwnerIsGentle(s, t); }
    else if t.PrepareRestore? || t.AuthorizeRestore? || t.CompleteRestore? { RestoreIsGentle(s, t); }
    else { ExpiryIsGentle(s, t); }
  }

  lemma PowerOnlyMoves(s: VM, t: PowerStep)
    requires PowerEnabled(s, t)
    ensures OnlyGuestsAndRecord(s, PowerNext(s, t)) && PowerNext(s, t).record.Some?
  {
  }

  lemma PowerIsFewer(s: VM, t: PowerStep)
    requires Inv(s) && PowerEnabled(s, t)
    ensures Fewer(s.guests, PowerNext(s, t).guests)
  {
  }

  lemma PowerKeeps(s: VM, t: PowerStep)
    requires Inv(s) && PowerEnabled(s, t)
    ensures Inv(PowerNext(s, t))
  {
    PowerIsGentle(s, t);
    PowerOnlyMoves(s, t);
    PowerIsFewer(s, t);
    GentleKeeps(s, PowerNext(s, t));
  }

  // ----- events outside the service -----

  /** An old clone request lands: its guest was never started. */
  lemma LateCreateKeeps(s: VM, t: WorldStep)
    requires Inv(s) && WorldEnabled(s, t) && t.LateCreate?
    ensures Inv(WorldNext(s, t))
  {
    var s' := WorldNext(s, t);
    DeletionsKeep(s, s');
    assert forall g | g in s'.guests && CanRun(s', g) :: g in s.guests && CanRun(s, g);
  }

  /** Every other event, seen as a gentle change. Nothing can happen to a guest
      before the first dispatch, and the record cannot vanish after it. */
  lemma EventKeeps(s: VM, t: WorldStep)
    requires Inv(s) && WorldEnabled(s, t) && !t.LateCreate? && s.record.Some?
    ensures Inv(WorldNext(s, t))
  {
    GentleKeeps(s, WorldNext(s, t));
  }

  lemma WorldKeeps(s: VM, t: WorldStep)
    requires Inv(s) && WorldEnabled(s, t)
    ensures Inv(WorldNext(s, t))
  {
    if t.LateCreate? { LateCreateKeeps(s, t); }
    else if s.record.Some? { EventKeeps(s, t); }
    else { DeletionsKeep(s, WorldNext(s, t)); }
  }

  lemma StepKeeps(s: VM, t: Step)
    requires Inv(s) && Enabled(s, t) && Orderly(s, t)
    ensures Inv(Next(s, t))
  {
    match t
    case Reserving(r) => ReserveKeeps(s, r);
    case Provisioner(a) => AttemptKeeps(s, a);
    case Deleting(d) => DeleteKeeps(s, d);
    case Managing(p) => PowerKeeps(s, p);
    case Outside(w) => WorldKeeps(s, w);
  }

  /** A state some orderly run reaches from a database without this VM. */
  ghost predicate Reachable(s: VM) {
    exists s0: VM, steps: seq<Step> :: Reaches(s0, steps, s)
  }

  predicate Reaches(s0: VM, steps: seq<Step>, s: VM) {
    Fresh(s0) && Run(s0, steps) && OrderlyRun(s0, steps) && After(s0, steps) == s
  }

  lemma ReachableInv(s: VM)
    requires Reachable(s)
    ensures Inv(s)
  {
    var s0: VM, steps: seq<Step> :| Reaches(s0, steps, s);
    FreshInv(s0);
    RunKeeps(s0, steps);
  }

  lemma {:induction false} RunKeeps(s: VM, steps: seq<Step>)
    requires Inv(s) && Run(s, steps) && OrderlyRun(s, steps)
    ensures Inv(After(s, steps))
    decreases |steps|
  {
    if steps != [] {
      StepKeeps(s, steps[0]);
      RunKeeps(Next(s, steps[0]), steps[1..]);
    }
  }

  lemma {:induction false} RunExtends(s: VM, steps: seq<Step>, t: Step)
    requires Run(s, steps) && OrderlyRun(s, steps)
    requires Enabled(After(s, steps), t) && Orderly(After(s, steps), t)
    ensures Run(s, steps + [t]) && OrderlyRun(s, steps + [t])
    ensures After(s, steps + [t]) == Next(After(s, steps), t)
    decreases |steps|
  {
    var all := steps + [t];
    if steps == [] {
      assert all[1..] == [];
    } else {
      assert all[1..] == steps[1..] + [t];
      RunExtends(Next(s, steps[0]), steps[1..], t);
    }
  }

  lemma FreshReachable(s: VM)
    requires Fresh(s)
    ensures Reachable(s)
  {
    assert Reaches(s, [], s);
  }

  lemma ReachableNext(s: VM, t: Step)
    requires Reachable(s) && Enabled(s, t) && Orderly(s, t)
    ensures Reachable(Next(s, t))
  {
    var s0: VM, steps: seq<Step> :| Reaches(s0, steps, s);
    RunExtends(s0, steps, t);
    assert Reaches(s0, steps + [t], Next(s, t));
  }
}
