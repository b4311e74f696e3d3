/** The row of a refunded order never returns to RUNNING by itself; exactly when
    the order, and exactly when one of its guests, can run again. */
module RefundedGuests {
  import opened Records
  import opened Transactions
  import opened Lifecycle
  import opened Invariant
  import opened Preservation
  import opened Guarantees
  import opened Refunds
  import opened HandoffFailure

  // ----- stopped until a recovery completes -----

  predicate StoppedRecord(rec: Record) {
    rec.row.status.Failed? || rec.row.status.Destroyed? || (rec.row.status.Suspended? && rec.retention.Some?)
  }

  /** Refunded, and failed, destroyed or retained. */
  predicate RefundedStopped(s: VM) { s.refunds > 0 && s.record.Some? && StoppedRecord(s.record.value) }

  lemma PowerStaysStopped(s: VM, t: PowerStep)
    requires PowerEnabled(s, t) && Grounded(s.record.value) && KeptVm(s) && StoppedRecord(s.record.value) && !t.CompleteRestore?
    requires s.record.value.row.status.Destroyed? ==> Claimed(s.record.value.row)
    ensures StoppedRecord(PowerNext(s, t).record.value)
    ensures PowerEffect(s, s.record.value, t).starts ==> s.record.value.row.status.Failed? && t.Reboot?
  {
  }

  lemma ReserveStaysStopped(s: VM, t: ReserveStep)
    requires Inv(s) && RefundedStopped(s) && ReserveEnabled(s, t) && Orderly(s, Reserving(t))
    ensures RefundedStopped(ReserveNext(s, t))
  {
  }

  lemma AttemptStaysStopped(s: VM, t: AttemptStep)
    requires Inv(s) && RefundedStopped(s) && AttemptEnabled(s, t)
    ensures AttemptNext(s, t) == s
  {
  }

  lemma DeleteStaysStopped(s: VM, t: DeleteStep)
    requires Inv(s) && RefundedStopped(s) && DeleteEnabled(s, t)
    ensures RefundedStopped(DeleteNext(s, t))
  {
    if t.Accept? { AnswerOf(s.record.value, t.request, t.keepExpired, t.capture, s.clock); }
  }

  /** Short of a completed recovery the row is not RUNNING again, and the only
      power call is a reboot, which starts nothing that is off. */
  lemma StepStaysStopped(s: VM, t: Step)
    requires Inv(s) && KeptVm(s) && RefundedStopped(s) && Enabled(s, t) && Orderly(s, t) && !CompletesRestore(t)
    ensures RefundedStopped(Next(s, t))
    ensures StartsGuest(s, t) ==> s.record.value.row.status.Failed? && t.power.Reboot?
  {
    match t
    case Reserving(r) => ReserveStaysStopped(s, r);
    case Provisioner(a) => AttemptStaysStopped(s, a);
    case Deleting(d) => DeleteStaysStopped(s, d);
    case Managing(p) =>
      OthersLeaveAttempt(s, t);
      PowerStaysStopped(s, p);
    case Outside(w) => OutsideSummary(s, w);
  }

  /** A start that was sent earlier takes effect. */
  predicate StartsLate(t: Step) { t.Outside? && t.world.LateStart? }

  predicate NoLateStart(steps: seq<Step>) { forall i | 0 <= i < |steps| :: !StartsLate(steps[i]) }

  predicate NoneMoreRun(s: VM, s': VM) {
    forall g | g in s'.guests && s'.guests[g].running :: g in s.guests && s.guests[g].running
  }

  lemma DeleteRunsNone(s: VM, t: DeleteStep)
    requires DeleteEnabled(s, t)
    ensures NoneMoreRun(s, DeleteNext(s, t))
  {
  }

  lemma OutsideRunsNone(s: VM, t: WorldStep)
    requires WorldEnabled(s, t) && !t.LateStart?
    ensures NoneMoreRun(s, WorldNext(s, t))
  {
  }

  lemma StepRunsNone(s: VM, t: Step)
    requires Inv(s) && KeptVm(s) && RefundedStopped(s) && Enabled(s, t) && Orderly(s, t) && !CompletesRestore(t) && !StartsLate(t)
    ensures NoneMoreRun(s, Next(s, t))
  {
    match t
    case Reserving(r) => ReserveRunsNone(s, r);
    case Provisioner(a) => AttemptStaysStopped(s, a);
    case Deleting(d) => DeleteRunsNone(s, d);
    case Managing(p) => PowerRunsNone(s, p);
    case Outside(w) => OutsideRunsNone(s, w);
  }

  lemma ReserveRunsNone(s: VM, t: ReserveStep)
    requires ReserveEnabled(s, t)
    ensures ReserveNext(s, t).guests == s.guests
  {
  }

  lemma PowerRunsNone(s: VM, t: PowerStep)
    requires Inv(s) && KeptVm(s) && RefundedStopped(s) && PowerEnabled(s, t) && !t.CompleteRestore?
    ensures NoneMoreRun(s, PowerNext(s, t))
  {
    PowerStaysStopped(s, t);
  }

  /** Only a completed recovery brings the row of a refunded order back; short
      of one, and of a start that was already on its way, no account worker,
      extension, transfer or administrator makes any guest run that did not. */
  lemma {:induction false} RefundedStaysStopped(s: VM, steps: seq<Step>)
    requires Reachable(s) && RefundedStopped(s) && Run(s, steps) && OrderlyRun(s, steps) && NoRestoreCompleted(steps)
    ensures RefundedStopped(After(s, steps))
    ensures NoLateStart(steps) ==> NoneMoreRun(s, After(s, steps))
    decreases |steps|
  {
    if steps != [] {
      assert steps[0] in steps;
      ReachableKept(s);
      StepStaysStopped(s, steps[0]);
      if !StartsLate(steps[0]) { StepRunsNone(s, steps[0]); }
      ReachableNext(s, steps[0]);
      assert forall i | 0 <= i < |steps[1..]| :: steps[1..][i] == steps[i + 1];
      RefundedStaysStopped(Next(s, steps[0]), steps[1..]);
    }
  }

  // ----- what makes a recovery impossible -----

  /** No evidence, or evidence of another owner. */
  predicate Unrecoverable(rec: Record) {
    rec.retention.None? || (rec.row.owner.account.Some? && rec.row.owner.account != rec.retention.value.owner.account)
  }

  lemma PowerStaysUnrecoverable(s: VM, t: PowerStep)
    requires PowerEnabled(s, t) && Grounded(s.record.value) && Unrecoverable(s.record.value)
    ensures Unrecoverable(PowerNext(s, t).record.value) && !t.CompleteRestore?
  {
  }

  lemma ReserveStaysUnrecoverable(s: VM, t: ReserveStep)
    requires ReserveEnabled(s, t) && s.record.Some? && Unrecoverable(s.record.value) && ReserveNext(s, t).record.Some?
    ensures Unrecoverable(ReserveNext(s, t).record.value)
  {
  }

  lemma DeleteStaysUnrecoverable(s: VM, t: DeleteStep)
    requires Inv(s) && DeleteEnabled(s, t) && s.record.Some? && StoppedRecord(s.record.value) && Unrecoverable(s.record.value)
    ensures Unrecoverable(DeleteNext(s, t).record.value)
  {
    if t.Accept? {
      AnswerOf(s.record.value, t.request, t.keepExpired, t.capture, s.clock);
      if s.record.value.retention.None? {
        NewEvidenceIsExpired(s.record.value, t.request, t.keepExpired, t.capture, s.clock);
      }
    }
  }

  lemma {:induction false} UnrecoverableStaysStopped(s: VM, steps: seq<Step>)
    requires Reachable(s) && RefundedStopped(s) && Unrecoverable(s.record.value) && Run(s, steps) && OrderlyRun(s, steps)
    ensures RefundedStopped(After(s, steps)) && NoRestoreCompleted(steps)
    decreases |steps|
  {
    if steps != [] {
      ReachableKept(s);
      StepStaysUnrecoverable(s, steps[0]);
      StepStaysStopped(s, steps[0]);
      ReachableNext(s, steps[0]);
      UnrecoverableStaysStopped(Next(s, steps[0]), steps[1..]);
      assert forall i | 0 < i < |steps| :: steps[i] == steps[1..][i - 1];
    }
  }

  lemma StepStaysUnrecoverable(s: VM, t: Step)
    requires Inv(s) && KeptVm(s) && RefundedStopped(s) && Unrecoverable(s.record.value) && Enabled(s, t) && Orderly(s, t)
    ensures Next(s, t).record.Some? && Unrecoverable(Next(s, t).record.value) && !CompletesRestore(t)
  {
    match t
    case Reserving(r) =>
      ReserveStaysStopped(s, r);
      ReserveStaysUnrecoverable(s, r);
    case Provisioner(a) => AttemptStaysStopped(s, a);
    case Deleting(d) => DeleteStaysUnrecoverable(s, d);
    case Managing(p) => PowerStaysUnrecoverable(s, p);
    case Outside(w) => OutsideSummary(s, w);
  }

  // ----- a guest that is gone -----

  /** The recorded guest was removed from the provider. */
  predicate GuestGone(s: VM) {
    && s.record.Some? && !s.record.value.row.status.Provisioning? && !s.record.value.row.status.Running?
    && s.record.value.row.guest.Some? && s.record.value.row.guest.value in s.guests
    && !s.guests[s.record.value.row.guest.value].present
  }

  lemma PowerStaysGone(s: VM, t: PowerStep)
    requires MachinesSound(s) && GuestGone(s) && PowerEnabled(s, t)
    ensures GuestGone(PowerNext(s, t))
  {
  }

  lemma AttemptStaysGone(s: VM, t: AttemptStep)
    requires GuestGone(s) && AttemptEnabled(s, t)
    ensures GuestGone(AttemptNext(s, t))
  {
  }

  lemma ReserveStaysGone(s: VM, t: ReserveStep)
    requires GuestGone(s) && ReserveEnabled(s, t)
    ensures GuestGone(ReserveNext(s, t))
  {
  }

  lemma WorldStaysGone(s: VM, t: WorldStep)
    requires GuestGone(s) && WorldEnabled(s, t)
    ensures GuestGone(WorldNext(s, t))
  {
  }

  lemma StepStaysGone(s: VM, t: Step)
    requires Inv(s) && GuestGone(s) && Enabled(s, t)
    ensures GuestGone(Next(s, t))
  {
    match t
    case Reserving(r) => ReserveStaysGone(s, r);
    case Provisioner(a) => AttemptStaysGone(s, a);
    case Deleting(d) => DeleteStaysGone(s, d);
    case Managing(p) => PowerStaysGone(s, p);
    case Outside(w) => WorldStaysGone(s, w);
  }

  lemma DeleteStaysGone(s: VM, t: DeleteStep)
    requires GuestGone(s) && DeleteEnabled(s, t)
    ensures GuestGone(DeleteNext(s, t))
  {
    if t.Accept? { AnswerOf(s.record.value, t.request, t.keepExpired, t.capture, s.clock); }
  }

  lemma {:induction false} GoneStaysGone(s: VM, steps: seq<Step>)
    requires Inv(s) && GuestGone(s) && Run(s, steps) && OrderlyRun(s, steps)
    ensures GuestGone(After(s, steps))
    decreases |steps|
  {
    if steps != [] {
      StepKeeps(s, steps[0]);
      StepStaysGone(s, steps[0]);
      GoneStaysGone(Next(s, steps[0]), steps[1..]);
    }
  }

  // ----- the way back -----

  /** Some continuation, without a start that is already on its way, ends with
      the row RUNNING and its guest running. */
  ghost predicate CanRunAgain(s: VM) {
    exists steps: seq<Step> :: Run(s, steps) && OrderlyRun(s, steps) && NoLateStart(steps) && RowRuns(After(s, steps))
  }

  predicate RowRuns(s: VM) {
    && s.record.Some? && s.record.value.row.status.Running?
    && RowGuest(s).Some? && RowGuest(s).value in s.guests && s.guests[RowGuest(s).value].running
  }

  lemma OneStepBack(s: VM, t: Step)
    requires Enabled(s, t) && Orderly(s, t) && !StartsLate(t) && CanRunAgain(Next(s, t))
    ensures CanRunAgain(s)
  {
    var steps: seq<Step> :| Run(Next(s, t), steps) && OrderlyRun(Next(s, t), steps) && NoLateStart(steps) && RowRuns(After(Next(s, t), steps));
    assert ([t] + steps)[1..] == steps;
    assert forall i | 0 < i < |[t] + steps| :: ([t] + steps)[i] == steps[i - 1];
    assert Run(s, [t] + steps) && OrderlyRun(s, [t] + steps) && After(s, [t] + steps) == After(Next(s, t), steps);
  }

  /** The recorded guest is there and halted. */
  predicate GuestHalted(s: VM) {
    && RowGuest(s).Some? && RowGuest(s).value in s.guests
    && s.guests[RowGuest(s).value].present && !s.guests[RowGuest(s).value].running
  }

  predicate Restorable(s: VM, state: RetentionState) {
    && s.record.Some? && GuestHalted(s)
    && var rec := s.record.value;
       && rec.retention.Some? && rec.retention.value.state == state && rec.retention.value.owner == rec.row.owner
       && rec.row.guest == Some(rec.retention.value.manifest.guest) && Claimed(rec.row) && rec.row.status.Suspended?
       && (rec.row.owner.account.None? ==> !rec.row.reason.AccountDisabled?)
  }

  lemma RestoredRuns(s: VM, restore: Restore)
    requires Restorable(s, Restoring(restore)) && restore.authorized && s.record.value.row.expiresAt == restore.newExpiry > s.clock
    ensures CanRunAgain(s)
  {
    var complete := Managing(CompleteRestore(restore.operation, true));
    var restored := Next(s, complete);
    var start := Managing(AdminPower(StartGuest, true, Off));
    var started := Next(restored, start);
    assert Run(started, []) && OrderlyRun(started, []) && NoLateStart([]) && RowRuns(After(started, []));
    OneStepBack(restored, start);
    OneStepBack(s, complete);
  }

  lemma RetainedRuns(s: VM)
    requires Restorable(s, Retained) && s.record.value.row.expiresAt < s.clock
    ensures CanRunAgain(s)
  {
    var prepare := Managing(PrepareRestore(0, 1));
    var prepared := Next(s, prepare);
    var authorize := Managing(AuthorizeRestore(0, true));
    var authorized := Next(prepared, authorize);
    RestoredRuns(authorized, authorized.record.value.retention.value.state.restore);
    OneStepBack(prepared, authorize);
    OneStepBack(s, prepare);
  }

  /** A failed row with evidence of a present guest of the same owner. */
  predicate FailedWithEvidence(s: VM) {
    && s.record.Some? && s.record.value.row.status.Failed?
    && RowGuest(s).Some? && RowGuest(s).value in s.guests && s.guests[RowGuest(s).value].present
    && var rec := s.record.value;
       && rec.retention.Some? && rec.retention.value.state.Prepared?
       && rec.row.guest == Some(rec.retention.value.manifest.guest) && Claimed(rec.row) && rec.row.expiresAt < s.clock
       && (rec.row.owner.account.None? ==> !rec.row.reason.AccountDisabled?)
  }

  lemma ProtectedRuns(s: VM, d: Deletion)
    requires FailedWithEvidence(s) && s.record.value.retention.value.owner == s.record.value.row.owner
    requires d == Deletion(OrderFor(s.record.value.row, Some(s.record.value.retention.value.manifest), None), Resolved(false))
    requires d in s.deletions
    ensures CanRunAgain(s)
  {
    var protect := Deleting(Protect(d, true));
    RetainedRuns(Next(s, protect));
    OneStepBack(s, protect);
  }

  lemma EvidenceRuns(s: VM)
    requires FailedWithEvidence(s) && s.record.value.retention.value.owner == s.record.value.row.owner
    ensures CanRunAgain(s)
  {
    var rec := s.record.value;
    var accept := Deleting(Accept(DestroyRequest(None, true, false), false, None));
    var d := Deletion(OrderFor(rec.row, Some(rec.retention.value.manifest), None), Accepted);
    var accepted := Next(s, accept);
    assert accepted.record == s.record && d in accepted.deletions;
    var resolved := Next(accepted, Deleting(Resolve(d)));
    ProtectedRuns(resolved, d.(stage := Resolved(false)));
    OneStepBack(accepted, Deleting(Resolve(d)));
    OneStepBack(s, accept);
  }

  /** A settled payment may have changed the owner meanwhile; another one can
      change it back unless an account is in the way. */
  lemma FailedRuns(s: VM)
    requires FailedWithEvidence(s) && !Unrecoverable(s.record.value)
    requires s.record.value.retention.value.owner.account.None? ==> !s.record.value.row.reason.AccountDisabled?
    ensures CanRunAgain(s)
  {
    var owner := s.record.value.retention.value.owner;
    var activate := Reserving(Activate(owner.wallet, owner.account, true));
    EvidenceRuns(Next(s, activate));
    OneStepBack(s, activate);
  }

  /** Evidence of a guest that still exists, and no other owner. */
  predicate Recoverable(s: VM) {
    && s.record.Some? && !Unrecoverable(s.record.value)
    && RowGuest(s).Some? && RowGuest(s).value in s.guests && s.guests[RowGuest(s).value].present
  }

  /** A refunded order can run again exactly when an expiry claim had taken
      evidence of its guest before the failure, the guest still exists, and no
      other account has come to own the row. */
  lemma RefundedRunsAgainIff(s: VM)
    requires Reachable(s) && s.refunds > 0 && s.record.Some? && s.record.value.row.status.Failed?
    ensures CanRunAgain(s) <==> Recoverable(s)
  {
    ReachableKept(s);
    if Unrecoverable(s.record.value) {
      forall steps: seq<Step> | Run(s, steps) && OrderlyRun(s, steps) ensures !RowRuns(After(s, steps)) {
        UnrecoverableStaysStopped(s, steps);
      }
    } else if !s.guests[RowGuest(s).value].present {
      forall steps: seq<Step> | Run(s, steps) && OrderlyRun(s, steps) ensures !RowRuns(After(s, steps)) {
        GoneStaysGone(s, steps);
      }
    } else {
      FailedRuns(s);
    }
  }

  // ----- any guest of a refunded order -----

  lemma RefundedIsBarren(s: VM)
    requires Inv(s) && s.refunds > 0 && s.record.Some? && s.record.value.row.status.Failed? && NoneCanRun(s)
    ensures Barren(s)
  {
    assert forall d | d in s.deletions :: DeletionSound(s, d);
    if RowGuest(s).Some? { assert !CanRun(s, RowGuest(s).value); }
  }

  /** No guest runs again once none could start. */
  lemma BarrenRunsNone(s: VM, steps: seq<Step>)
    requires Inv(s) && s.refunds > 0 && s.record.Some? && s.record.value.row.status.Failed? && NoneCanRun(s)
    requires Run(s, steps) && OrderlyRun(s, steps)
    ensures !GuestRuns(After(s, steps))
  {
    RefundedIsBarren(s);
    RunStaysBarren(s, steps);
    RunKeeps(s, steps);
    var last := After(s, steps);
    assert forall g | g in last.guests :: last.guests[g].running ==> CanRun(last, g);
  }

  /** A guest of a refunded order can be running in some continuation exactly
      when one is present that was ever told to start. */
  lemma RefundedGuestCanRunIff(s: VM)
    requires Reachable(s) && s.refunds > 0 && s.record.Some? && s.record.value.row.status.Failed?
    ensures (exists steps: seq<Step> :: Run(s, steps) && OrderlyRun(s, steps) && GuestRuns(After(s, steps)))
            <==> exists g :: g in s.guests && CanRun(s, g)
  {
    ReachableInv(s);
    if g :| g in s.guests && CanRun(s, g) {
      var t := Outside(LateStart(g));
      RunExtends(s, [], t);
      assert [] + [t] == [t];
      assert Next(s, t).guests[g].running;
      assert Run(s, [t]) && OrderlyRun(s, [t]) && GuestRuns(After(s, [t]));
    } else {
      forall steps: seq<Step> | Run(s, steps) && OrderlyRun(s, steps) ensures !GuestRuns(After(s, steps)) {
        BarrenRunsNone(s, steps);
      }
    }
  }

  /** Without starts that are already on their way, exactly when one runs now
      or the order can be recovered. */
  lemma RefundedGuestRunsIff(s: VM)
    requires Reachable(s) && s.refunds > 0 && s.record.Some? && s.record.value.row.status.Failed?
    ensures (exists steps: seq<Step> :: Run(s, steps) && OrderlyRun(s, steps) && NoLateStart(steps) && GuestRuns(After(s, steps)))
            <==> GuestRuns(s) || Recoverable(s)
  {
    ReachableKept(s);
    RefundedRunsAgainIff(s);
    if GuestRuns(s) {
      assert Run(s, []) && OrderlyRun(s, []) && NoLateStart([]) && After(s, []) == s;
    } else if Recoverable(s) {
      var steps: seq<Step> :| Run(s, steps) && OrderlyRun(s, steps) && NoLateStart(steps) && RowRuns(After(s, steps));
      assert GuestRuns(After(s, steps));
    } else {
      forall steps: seq<Step> | Run(s, steps) && OrderlyRun(s, steps) && NoLateStart(steps) ensures !GuestRuns(After(s, steps)) {
        UnrecoverableRunsNone(s, steps);
      }
    }
  }

  lemma UnrecoverableRunsNone(s: VM, steps: seq<Step>)
    requires Reachable(s) && s.refunds > 0 && s.record.Some? && s.record.value.row.status.Failed?
    requires !GuestRuns(s) && !Recoverable(s) && Run(s, steps) && OrderlyRun(s, steps) && NoLateStart(steps)
    ensures !GuestRuns(After(s, steps))
  {
    ReachableKept(s);
    if Unrecoverable(s.record.value) {
      UnrecoverableStaysStopped(s, steps);
      RefundedStaysStopped(s, steps);
    } else {
      assert RowGuest(s).Some? && !CanRun(s, RowGuest(s).value);
      BarrenRunsNone(s, steps);
    }
  }
}
