/** Exactly when a failed order is refunded, and exactly when one of its guests
    still runs at that moment. */
module Refunds {
  import opened Records
  import opened Transactions
  import opened Lifecycle
  import opened Invariant
  import opened Preservation
  import opened Guarantees

  // ----- exactly when a failed order is refunded -----

  /** The failure commit of an attempt applies: a recorded guest is known to be
      stopped. Without a recorded guest nothing is looked at. */
  predicate FailureCommits(s: VM, t: Step) {
    && t.Provisioner? && t.attempting.HandleFailure?
    && s.attempt.Failing? && s.record.Some? && s.record.value.row.status.Provisioning?
    && (s.record.value.row.guest.None? || t.attempting.power.Off? || (t.attempting.power.On? && t.attempting.stopped))
  }

  predicate FailsAcknowledged(s: VM, t: Step) { FailureCommits(s, t) && t.attempting.acked }

  lemma AttemptComesToRefund(s: VM, t: AttemptStep)
    requires AttemptEnabled(s, t) && !s.attempt.Refunding?
    ensures AttemptNext(s, t).attempt.Refunding? <==> FailsAcknowledged(s, Provisioner(t))
    ensures AttemptNext(s, t).refunds == s.refunds
  {
  }

  lemma OthersLeaveAttempt(s: VM, t: Step)
    requires Enabled(s, t) && !t.Provisioner?
    ensures Next(s, t).attempt == s.attempt && Next(s, t).refunds == s.refunds
  {
    if t.Managing? { PowerOnlyMoves(s, t.power); }
  }

  /** An attempt comes to record a refund exactly by an acknowledged failure
      commit, and that commit leaves the row FAILED and the guest on it, if
      there is one, halted. */
  lemma RefundFollowsAcknowledgedFailure(s: VM, t: Step)
    requires Reachable(s) && Enabled(s, t) && !s.attempt.Refunding?
    ensures Next(s, t).attempt.Refunding? <==> FailsAcknowledged(s, t)
    ensures Next(s, t).refunds == s.refunds
    ensures FailsAcknowledged(s, t) ==> FailedStopped(Next(s, t))
  {
    ReachableInv(s);
    if t.Provisioner? { AttemptComesToRefund(s, t.attempting); } else { OthersLeaveAttempt(s, t); }
    if FailsAcknowledged(s, t) { FailureStopsGuest(s, t.attempting); }
  }

  predicate FailedStopped(s: VM) {
    && s.record.Some? && s.record.value.row.status.Failed?
    && (RowGuest(s).Some? ==> RowGuest(s).value in s.guests && !s.guests[RowGuest(s).value].running)
  }

  lemma FailureStopsGuest(s: VM, t: AttemptStep)
    requires Inv(s) && AttemptEnabled(s, t) && FailsAcknowledged(s, Provisioner(t))
    ensures FailedStopped(AttemptNext(s, t))
  {
  }

  /** Some step of the run is an acknowledged failure commit that leaves the
      row FAILED with the guest on it, if there is one, halted. */
  predicate FailsWithin(s: VM, steps: seq<Step>)
    requires Run(s, steps)
    decreases |steps|
  {
    steps != [] &&
    ((FailsAcknowledged(s, steps[0]) && FailedStopped(Next(s, steps[0]))) || FailsWithin(Next(s, steps[0]), steps[1..]))
  }

  /** No refund without such a commit. A guest that is not on the row may still
      run then; the next section says exactly when. */
  lemma {:induction false} RefundedOnlyAfterFailure(s: VM, steps: seq<Step>)
    requires Reachable(s) && Run(s, steps) && OrderlyRun(s, steps)
    requires s.refunds == 0 && !s.attempt.Refunding? && After(s, steps).refunds > 0
    ensures FailsWithin(s, steps)
    decreases |steps|
  {
    RefundFollowsAcknowledgedFailure(s, steps[0]);
    if !FailsAcknowledged(s, steps[0]) {
      ReachableNext(s, steps[0]);
      RefundedOnlyAfterFailure(Next(s, steps[0]), steps[1..]);
    }
  }

  /** A failed order can still be refunded exactly while the attempt whose
      failure commit was acknowledged is about to record the refund. */
  lemma RefundedIff(s: VM)
    requires Reachable(s) && s.record.Some? && s.record.value.row.status.Failed? && s.refunds == 0
    ensures (exists steps: seq<Step> :: Run(s, steps) && OrderlyRun(s, steps) && After(s, steps).refunds == 1)
            <==> s.attempt.Refunding?
  {
    ReachableInv(s);
    if s.attempt.Refunding? {
      var t := Provisioner(Refund(true));
      RunExtends(s, [], t);
      assert [] + [t] == [t];
      assert Run(s, [t]) && OrderlyRun(s, [t]) && After(s, [t]).refunds == 1;
    } else {
      forall steps: seq<Step> | Run(s, steps) && OrderlyRun(s, steps) ensures After(s, steps).refunds == 0 {
        MissedRefundStaysMissed(s, steps);
      }
    }
  }

  // ----- a guest that still runs -----

  predicate GuestRuns(s: VM) { exists g :: g in s.guests && s.guests[g].running }

  /** The failure commit leaves a running guest behind exactly if one runs that
      was never recorded on the row. */
  lemma FailureLeavesGuestRunningIff(s: VM, t: Step)
    requires Reachable(s) && Enabled(s, t) && FailureCommits(s, t)
    ensures GuestRuns(Next(s, t)) <==> RowGuest(s).None? && GuestRuns(s)
  {
    ReachableInv(s);
    var n := Next(s, t);
    if RowGuest(s).None? {
      assert n.guests == s.guests;
    } else {
      forall g | g in n.guests ensures !n.guests[g].running {
        assert s.guests[g].running ==> CanRun(s, g);
      }
    }
  }

  /** A terminal row that names no guest although one was asked for; no deletion
      in flight knows one either. */
  predicate Untracked(s: VM) {
    && s.record.Some? && (s.record.value.row.status.Failed? || s.record.value.row.status.Destroyed?)
    && s.record.value.row.guest.None? && s.record.value.receipt.Some?
    && (s.attempt.Idle? || s.attempt.Refunding?)
    && forall d | d in s.deletions :: d.order.guest.None?
  }

  lemma ReserveLeavesUntracked(s: VM, t: ReserveStep)
    requires Untracked(s) && ReserveEnabled(s, t)
    ensures var n := ReserveNext(s, t);
            Untracked(n) && n.guests == s.guests && n.record.value.row.prefix == s.record.value.row.prefix
  {
  }

  lemma AttemptLeavesUntracked(s: VM, t: AttemptStep)
    requires Untracked(s) && AttemptEnabled(s, t)
    ensures var n := AttemptNext(s, t); Untracked(n) && n.guests == s.guests && n.record == s.record
  {
  }

  lemma DeleteLeavesUntracked(s: VM, t: DeleteStep)
    requires Inv(s) && Untracked(s) && DeleteEnabled(s, t)
    ensures var n := DeleteNext(s, t);
            Untracked(n) && n.guests == s.guests && n.record.value.row.prefix == s.record.value.row.prefix
  {
    if t.Accept? { AnswerOf(s.record.value, t.request, t.keepExpired, t.capture, s.clock); }
    else if !t.ReleasePrefix? { assert DeletionSound(s, t.deletion); }
  }

  lemma PowerLeavesUntracked(s: VM, t: PowerStep)
    requires Inv(s) && Untracked(s) && PowerEnabled(s, t)
    ensures var n := PowerNext(s, t);
            Untracked(n) && n.guests == s.guests && n.record.value.row.prefix == s.record.value.row.prefix
  {
    PowerIsGentle(s, t);
    PowerOnlyMoves(s, t);
  }

  lemma StepLeavesUntracked(s: VM, t: Step)
    requires Inv(s) && Untracked(s) && Enabled(s, t)
    ensures Untracked(Next(s, t)) && Next(s, t).record.value.row.prefix == s.record.value.row.prefix
    ensures !t.Outside? ==> Next(s, t).guests == s.guests
  {
    match t
    case Reserving(r) => ReserveLeavesUntracked(s, r);
    case Provisioner(a) => AttemptLeavesUntracked(s, a);
    case Deleting(d) => DeleteLeavesUntracked(s, d);
    case Managing(p) => PowerLeavesUntracked(s, p);
    case Outside(w) => OutsideLeavesUntracked(s, w);
  }

  lemma OutsideLeavesUntracked(s: VM, t: WorldStep)
    requires Untracked(s) && WorldEnabled(s, t)
    ensures Untracked(WorldNext(s, t)) && WorldNext(s, t).record.value.row == s.record.value.row
  {
  }

  predicate NothingOutside(steps: seq<Step>) { forall i | 0 <= i < |steps| :: !steps[i].Outside? }

  /** What the service can still do to a guest that was never recorded: nothing.
      It neither stops, starts, deletes nor adopts it, in any continuation, and
      never gives back the address. */
  lemma {:induction false} UntrackedGuestIsBeyondReach(s: VM, steps: seq<Step>)
    requires Inv(s) && Untracked(s) && Run(s, steps) && OrderlyRun(s, steps)
    ensures var last := After(s, steps);
            && Untracked(last) && last.record.value.row.prefix == s.record.value.row.prefix
            && (s.dispatched ==> last.record.value.row.prefix.Some?)
            && (NothingOutside(steps) ==> last.guests == s.guests)
    decreases |steps|
  {
    if steps != [] {
      StepKeeps(s, steps[0]);
      StepLeavesUntracked(s, steps[0]);
      assert forall i | 0 <= i < |steps[1..]| :: steps[1..][i] == steps[i + 1];
      UntrackedGuestIsBeyondReach(Next(s, steps[0]), steps[1..]);
    }
  }

  /** Deletions in flight know the guest on the row or none. */
  predicate Named(s: VM) {
    s.record.Some? ==> forall d | d in s.deletions && d.order.guest.Some? :: RowGuest(s) == d.order.guest
  }

  /** A guest stays on its row. */
  predicate KeepsGuest(s: VM, s': VM) {
    && (s.record.None? && s.born.Some? ==> s'.record.None?)
    && (s'.record.Some? && RowGuest(s).Some? ==> RowGuest(s') == RowGuest(s))
  }

  lemma AttemptKeepsGuest(s: VM, t: AttemptStep)
    requires AttemptEnabled(s, t)
    ensures KeepsGuest(s, AttemptNext(s, t)) && AttemptNext(s, t).deletions == s.deletions
  {
    if !Writes(t) { AttemptOnlyReads(s, t); }
  }

  lemma ReserveKeepsGuest(s: VM, t: ReserveStep)
    requires ReserveEnabled(s, t)
    ensures KeepsGuest(s, ReserveNext(s, t)) && ReserveNext(s, t).deletions == s.deletions
  {
  }

  lemma DeleteKeepsNamed(s: VM, t: DeleteStep)
    requires DeleteEnabled(s, t) && Named(s)
    ensures Named(DeleteNext(s, t))
  {
    if t.Accept? { AnswerOf(s.record.value, t.request, t.keepExpired, t.capture, s.clock); }
  }

  lemma StepKeepsNamed(s: VM, t: Step)
    requires Inv(s) && Named(s) && Enabled(s, t)
    ensures Named(Next(s, t))
  {
    match t
    case Reserving(r) => ReserveKeepsGuest(s, r);
    case Provisioner(a) => AttemptKeepsGuest(s, a);
    case Deleting(d) => DeleteKeepsNamed(s, d);
    case Managing(p) =>
      PowerIsGentle(s, p);
      PowerOnlyMoves(s, p);
    case Outside(w) => OutsideKeepsNamed(s, w);
  }

  lemma OutsideKeepsNamed(s: VM, t: WorldStep)
    requires Named(s) && WorldEnabled(s, t)
    ensures Named(WorldNext(s, t))
  {
  }

  lemma {:induction false} RunKeepsNamed(s: VM, steps: seq<Step>)
    requires Inv(s) && Named(s) && Run(s, steps) && OrderlyRun(s, steps)
    ensures Named(After(s, steps))
    decreases |steps|
  {
    if steps != [] {
      StepKeeps(s, steps[0]);
      StepKeepsNamed(s, steps[0]);
      RunKeepsNamed(Next(s, steps[0]), steps[1..]);
    }
  }

  lemma ReachableNamed(s: VM)
    requires Reachable(s)
    ensures Named(s)
  {
    var s0: VM, steps: seq<Step> :| Reaches(s0, steps, s);
    FreshInv(s0);
    RunKeepsNamed(s0, steps);
  }

  lemma FailureUntracks(s: VM, t: AttemptStep, g: Guest)
    requires Inv(s) && Named(s) && AttemptEnabled(s, t) && FailureCommits(s, Provisioner(t))
    requires RowGuest(s).None? && CanRun(s, g)
    ensures Untracked(AttemptNext(s, t))
  {
  }

  /** The refund of an order with a running, unrecorded guest leaves exactly
      such a row. */
  lemma RunningUnrecordedIsUntracked(s: VM, t: Step)
    requires Reachable(s) && Enabled(s, t) && FailureCommits(s, t) && RowGuest(s).None? && GuestRuns(s)
    ensures Untracked(Next(s, t)) && GuestRuns(Next(s, t)) && Inv(Next(s, t))
  {
    FailureLeavesGuestRunningIff(s, t);
    ReachableInv(s);
    ReachableNamed(s);
    var g :| g in s.guests && s.guests[g].running;
    FailureUntracks(s, t.attempting, g);
    StepKeeps(s, t);
  }

  // ----- what holds of evidence and restrictions -----

  predicate BeingRestored(rec: Record) {
    rec.retention.Some? && rec.retention.value.state.Restoring? && rec.retention.value.state.restore.authorized
  }

  /** A row stopped for a disabled account has one; evidence belongs to a row
      past its expiry, until its recovery is authorized. */
  predicate Kept(rec: Record, clock: Time) {
    && (rec.row.reason.AccountDisabled? ==> rec.row.owner.account.Some?)
    && (rec.retention.Some? && (rec.row.status.Provisioning? || rec.row.status.Failed?) ==> rec.retention.value.state.Prepared?)
    && (rec.retention.Some? && !BeingRestored(rec) ==> rec.row.expiresAt < clock)
    && (BeingRestored(rec) ==> rec.row.status.Suspended? && rec.row.reason.ManualAdmin?)
  }

  predicate KeptVm(s: VM) { s.record.Some? ==> Kept(s.record.value, s.clock) }

  lemma ReserveStaysKept(s: VM, t: ReserveStep)
    requires Inv(s) && KeptVm(s) && ReserveEnabled(s, t) && Orderly(s, Reserving(t))
    ensures KeptVm(ReserveNext(s, t))
  {
  }

  lemma AttemptStaysKept(s: VM, t: AttemptStep)
    requires Inv(s) && KeptVm(s) && AttemptEnabled(s, t)
    ensures KeptVm(AttemptNext(s, t))
  {
    if !Writes(t) { AttemptOnlyReads(s, t); }
  }

  lemma NewEvidenceIsExpired(rec: Record, request: DestroyRequest, keepExpired: bool, capture: Option<Manifest>, now: Time)
    requires rec.retention.None?
    ensures var rec' := DeletionClaimed(rec, request, keepExpired, capture, now).0;
            rec'.retention.Some? ==> request.cutoff.Some? && rec.row.expiresAt < request.cutoff.value && !rec.row.status.Failed?
  {
  }

  lemma DeleteStaysKept(s: VM, t: DeleteStep)
    requires Inv(s) && KeptVm(s) && DeleteEnabled(s, t)
    ensures KeptVm(DeleteNext(s, t))
  {
    if t.Accept? {
      AnswerOf(s.record.value, t.request, t.keepExpired, t.capture, s.clock);
      if s.record.value.retention.None? {
        NewEvidenceIsExpired(s.record.value, t.request, t.keepExpired, t.capture, s.clock);
      }
    } else if t.Complete? {
      assert DeletionSound(s, t.deletion);
    }
  }

  /** What the steps below need of the invariant. */
  predicate Grounded(rec: Record) {
    && (rec.retention.Some? ==> Claimed(rec.row) && rec.row.guest.Some?)
    && (rec.row.status.Suspended? ==> rec.row.guest.Some?)
  }

  lemma RestoreStaysKept(s: VM, t: PowerStep)
    requires KeptVm(s) && PowerEnabled(s, t) && (t.PrepareRestore? || t.AuthorizeRestore? || t.CompleteRestore?)
    ensures KeptVm(PowerNext(s, t))
  {
  }

  lemma ResumeStaysKept(s: VM, t: PowerStep)
    requires KeptVm(s) && PowerEnabled(s, t) && Grounded(s.record.value)
    requires t.ResumeExtension? || t.ResumeTransfer? || t.ResumeAccount?
    ensures KeptVm(PowerNext(s, t))
  {
  }

  lemma OwnerStaysKept(s: VM, t: PowerStep)
    requires KeptVm(s) && PowerEnabled(s, t) && Grounded(s.record.value) && (t.Transfer? || t.ClaimOwner? || t.Detach?)
    ensures KeptVm(PowerNext(s, t))
  {
  }

  lemma OtherPowerStaysKept(s: VM, t: PowerStep)
    requires KeptVm(s) && PowerEnabled(s, t) && Grounded(s.record.value)
    requires t.ExpireSuspend? || t.ExpireDelete? || t.Extend? || t.AdminExtend? || t.AdminPower? || t.Reboot? || t.SuspendAccount?
    ensures KeptVm(PowerNext(s, t))
  {
  }

  lemma PowerStaysKept(s: VM, t: PowerStep)
    requires KeptVm(s) && PowerEnabled(s, t) && Grounded(s.record.value)
    ensures KeptVm(PowerNext(s, t))
  {
    if t.PrepareRestore? || t.AuthorizeRestore? || t.CompleteRestore? { RestoreStaysKept(s, t); }
    else if t.ResumeExtension? || t.ResumeTransfer? || t.ResumeAccount? { ResumeStaysKept(s, t); }
    else if t.Transfer? || t.ClaimOwner? || t.Detach? { OwnerStaysKept(s, t); }
    else { OtherPowerStaysKept(s, t); }
  }

  lemma StepStaysKept(s: VM, t: Step)
    requires Inv(s) && KeptVm(s) && Enabled(s, t) && Orderly(s, t)
    ensures KeptVm(Next(s, t))
  {
    match t
    case Reserving(r) => ReserveStaysKept(s, r);
    case Provisioner(a) => AttemptStaysKept(s, a);
    case Deleting(d) => DeleteStaysKept(s, d);
    case Managing(p) => PowerStaysKept(s, p);
    case Outside(w) => WorldStaysKept(s, w);
  }

  lemma WorldStaysKept(s: VM, t: WorldStep)
    requires KeptVm(s) && WorldEnabled(s, t)
    ensures KeptVm(WorldNext(s, t))
  {
  }

  lemma {:induction false} RunStaysKept(s: VM, steps: seq<Step>)
    requires Inv(s) && KeptVm(s) && Run(s, steps) && OrderlyRun(s, steps)
    ensures KeptVm(After(s, steps))
    decreases |steps|
  {
    if steps != [] {
      StepKeeps(s, steps[0]);
      StepStaysKept(s, steps[0]);
      RunStaysKept(Next(s, steps[0]), steps[1..]);
    }
  }

  lemma ReachableKept(s: VM)
    requires Reachable(s)
    ensures Inv(s) && KeptVm(s)
  {
    ReachableInv(s);
    var s0: VM, steps: seq<Step> :| Reaches(s0, steps, s);
    FreshInv(s0);
    RunStaysKept(s0, steps);
  }
}
