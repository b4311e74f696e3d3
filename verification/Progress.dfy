/** What the steps of the service bring about: starts that start, stops that
    stop, reports that deliver, and deletions that give everything back. */
module Progress {
  import opened Records
  import opened Transactions
  import opened Outcomes
  import opened Lifecycle
  import opened Invariant
  import opened Preservation
  import opened Refunds

  predicate GuestOn(s: VM) { RowGuest(s).Some? && RowGuest(s).value in s.guests && s.guests[RowGuest(s).value].running }

  predicate GuestOff(s: VM) { RowGuest(s).Some? ==> RowGuest(s).value in s.guests && !s.guests[RowGuest(s).value].running }

  // ----- starts -----

  predicate MayRun(t: PowerStep) {
    t.ResumeExtension? || t.ResumeTransfer? || t.ResumeAccount? || (t.AdminPower? && t.action == StartGuest)
  }

  /** A row that comes to read RUNNING has a running guest. */
  lemma RunningMeansStarted(s: VM, t: PowerStep)
    requires PowerEnabled(s, t) && MayRun(t)
    requires s.record.value.row.status != Running && PowerNext(s, t).record.value.row.status == Running
    ensures GuestOn(PowerNext(s, t))
  {
  }

  lemma StartLeavesGuestOn(s: VM, enabled: bool, power: Power)
    requires PowerEnabled(s, AdminPower(StartGuest, enabled, power))
    ensures GuestOn(PowerNext(s, AdminPower(StartGuest, enabled, power)))
  {
    AdminPowerOutcome(s.record.value, StartGuest, enabled, power, s.clock);
  }

  /** A promised start is made: with an enabled owner and a known power the row
      reads RUNNING and its guest runs. */
  lemma PromisedStartIsMade(s: VM, power: Power)
    requires PowerEnabled(s, ResumeExtension(true, power)) && Promised(s.record.value.row) && power != Unknown
    ensures var s' := PowerNext(s, ResumeExtension(true, power));
            s'.record.value.row.status == Running && s'.record.value.row.resume == None && GuestOn(s')
  {
    ResumptionOutcome(s.record.value, true, power);
    RunningMeansStarted(s, ResumeExtension(true, power));
  }

  /** A restart of a machine that is still being provisioned runs its guest too. */
  lemma RestartLeavesGuestOn(s: VM, t: PowerStep)
    requires PowerEnabled(s, t) && (t.ResumeTransfer? || t.ResumeAccount?) && PowerEffect(s, s.record.value, t).starts
    ensures GuestOn(PowerNext(s, t))
  {
  }

  lemma BootLeavesGuestOn(s: VM)
    requires Inv(s) && s.attempt.Booting? && s.attempt.guest in s.guests && s.guests[s.attempt.guest].present
    ensures var s' := AttemptNext(s, Boot); s'.guests[s.attempt.guest].running
  {
  }

  // ----- stops -----

  /** The sweep can suspend exactly the rows it should, and then the guest on the
      row is off, the status SUSPENDED unless it was PROVISIONING, and the reason
      the expiry unless an administrative one was there. */
  lemma ExpirySuspendsIff(s: VM)
    ensures PowerEnabled(s, ExpireSuspend) <==> s.record.Some? && ToSuspend(s.record.value.row, s.clock, s.config.grace)
    ensures Inv(s) && PowerEnabled(s, ExpireSuspend) ==>
              var row, s' := s.record.value.row, PowerNext(s, ExpireSuspend);
              && GuestOff(s')
              && s'.record.value.row.status == (if row.status == Provisioning then Provisioning else Suspended)
              && s'.record.value.row.reason ==
                 (if row.reason == AccountDisabled || row.reason == ManualAdmin then row.reason else Expired)
  {
    if s.record.Some? {
      ExpiryOutcome(s.record.value.row, s.clock, s.config.grace);
      SuspensionOutcome(s.record.value);
    }
  }

  /** The sweep hands out a deletion exactly for rows that are claimed or past
      their grace, with the bound of that moment. */
  lemma ExpiryDeletesIff(s: VM)
    ensures PowerEnabled(s, ExpireDelete) <==>
              && s.record.Some? && !AllGone(s.record.value.row)
              && (|| s.record.value.row.claimedAt.Some?
                  || (s.record.value.row.status != Failed && s.clock > s.record.value.row.expiresAt + s.config.grace))
    ensures PowerEnabled(s, ExpireDelete) ==>
              PowerNext(s, ExpireDelete) == s.(cutoffs := s.cutoffs + {s.clock - s.config.grace}, generations := s.generations + 1)
  {
    if s.record.Some? { ExpiryOutcome(s.record.value.row, s.clock, s.config.grace); }
  }

  /** Disabling an account and an administrator's shutdown leave the guest off. */
  lemma StopLeavesGuestOff(s: VM, t: PowerStep)
    requires Inv(s) && PowerEnabled(s, t)
    requires || (t.AdminPower? && (t.action == ShutdownGuest || t.action == HaltGuest))
             || (t.SuspendAccount? && s.record.value.row.owner.account == Some(t.account) && s.record.value.row.status != Destroyed)
    ensures GuestOff(PowerNext(s, t))
  {
  }

  /** So does taking a guest into retention. */
  lemma ProtectLeavesGuestOff(s: VM, d: Deletion)
    requires Inv(s) && DeleteEnabled(s, Protect(d, true)) && DeleteNext(s, Protect(d, true)).record != s.record
    ensures GuestOff(DeleteNext(s, Protect(d, true)))
  {
    assert DeletionSound(s, d);
  }

  /** An attempt that finds several guests of its generation halts them all. */
  lemma AmbiguityHaltsAll(s: VM)
    requires AttemptEnabled(s, FoundMany)
    ensures var s' := AttemptNext(s, FoundMany);
            && s'.attempt == Idle && s'.record == s.record
            && forall g | g in Candidates(s, s.attempt.generation) :: g in s'.guests && !s'.guests[g].running
  {
  }

  /** A restriction found on the way stops the guest and ends the attempt, unless
      the stop call fails; without one the attempt goes on. */
  lemma CheckObeysRestriction(s: VM, enabled: bool, stopped: bool)
    requires AttemptEnabled(s, Check(enabled, stopped)) && s.record.Some?
    ensures var s', verdict := AttemptNext(s, Check(enabled, stopped)), RestrictionOf(s.record.value.row, s.attempt.guest, enabled);
            && (s'.attempt.Reading? <==> verdict == Continue) && (s'.attempt.Idle? <==> verdict != Continue)
            && (verdict == StopGuest && stopped && s.attempt.guest in s.guests ==> !s'.guests[s.attempt.guest].running)
  {
  }

  /** A machine delivered under a restriction is off. */
  lemma SuspendedDeliveryIsOff(s: VM, power: Power, stopped: bool, acked: bool)
    requires Inv(s) && AttemptEnabled(s, Finalize(power, stopped, acked)) && s.record.Some?
    requires Finalized(s.record.value, s.attempt.guest, s.attempt.generation, power, stopped, s.clock).Delivered?
    requires s.record.value.row.reason != Unrestricted
    ensures GuestOff(AttemptNext(s, Finalize(power, stopped, acked)))
  {
    DeliveryOutcome(s.record.value, s.attempt.guest, s.attempt.generation, power, stopped, s.clock);
  }

  // ----- the way of an attempt -----

  /** An attempt begins with the guest on the row, or else with the prefix of the
      row and the receipt. */
  lemma AttemptBegins(s: VM)
    requires Inv(s) && AttemptEnabled(s, Begin)
    ensures var s', row := AttemptNext(s, Begin), s.record.value.row;
            && (row.guest.Some? ==> s'.attempt == Checking(row.guest.value))
            && (row.guest == None ==> row.prefix.Some? && s'.attempt == Preparing(row.prefix.value))
  {
  }

  lemma ReceiptIsRead(s: VM)
    requires AttemptEnabled(s, ReadReceipt) && s.record.Some? && s.record.value.row.guest == None
    ensures var a, rec := AttemptNext(s, ReadReceipt).attempt, s.record.value;
            && (rec.receipt == None ==> a == Replacing(s.attempt.prefix))
            && (rec.receipt.Some? ==>
                  a == Recovering(s.attempt.prefix, rec.receipt.value.generation, rec.receipt.value.outcome != Awaiting))
  {
  }

  /** A search adopts the one guest that runs; it replaces a guest that was never
      there unless it has reported, fails on one that is off, and leaves every
      doubt to a retry. */
  lemma SearchDecides(s: VM, g: Guest, power: Power)
    ensures AttemptEnabled(s, FoundNone) ==>
              AttemptNext(s, FoundNone).attempt == if s.attempt.received then Failing else Replacing(s.attempt.prefix)
    ensures AttemptEnabled(s, FoundOne(g, power)) ==>
              var a := AttemptNext(s, FoundOne(g, power)).attempt;
              && (power == On <==> a == Adopting(s.attempt.generation, g)) && (power == Off <==> a == Failing)
              && (power == Unknown <==> a == Idle)
  {
  }

  /** A clone is asked for under a fresh generation and the address of the row. */
  lemma CloneIsFresh(s: VM, g: Guest)
    requires Inv(s)
    ensures AttemptEnabled(s, Regenerate) && s.record.Some? && s.record.value.row.status == Provisioning && s.record.value.row.guest == None ==>
              var s' := AttemptNext(s, Regenerate);
              && s'.attempt == Creating(s.attempt.prefix, s.generations) && s'.generations == s.generations + 1
              && s'.record.value.receipt == Some(Receipt(s.generations, s.clock + s.config.window, Awaiting))
              && (forall h | h in s.guests :: s.guests[h].generation != s.generations)
    ensures AttemptEnabled(s, Create(g)) ==>
              var s' := AttemptNext(s, Create(g));
              && s'.guests == s.guests[g := Machine(s.attempt.generation, s.attempt.prefix, true, false, false)]
              && s'.attempt == Booting(s.attempt.generation, g)
  {
    assert forall h | h in s.guests :: s.guests[h].generation in s.requested;
  }

  /** A failed start ends in the failure path, and its clean-up removes the guest. */
  lemma FailedBootFails(s: VM, sent: bool, deleted: bool)
    requires AttemptEnabled(s, BootFailed(sent, deleted)) && s.attempt.guest in s.guests
    ensures var s' := AttemptNext(s, BootFailed(sent, deleted));
            && s'.attempt == Failing && s'.record == s.record
            && (s'.guests[s.attempt.guest].present <==> s.guests[s.attempt.guest].present && !deleted)
  {
  }

  /** What cannot be finished now is left as it is; a failed report fails. */
  lemma UnfinishedIsLeft(s: VM, power: Power, stopped: bool, acked: bool)
    ensures AttemptEnabled(s, Finalize(power, stopped, acked)) && s.record.Some? ==>
              var s' := AttemptNext(s, Finalize(power, stopped, acked));
              var f := Finalized(s.record.value, s.attempt.guest, s.attempt.generation, power, stopped, s.clock);
              && (!f.Delivered? ==> s'.record == s.record && s'.guests == s.guests)
              && (f == Fail ==> s'.attempt == Failing) && (f == Retry || f == Stale || f == Abandon ==> s'.attempt == Idle)
    ensures AttemptEnabled(s, HandleFailure(power, stopped, acked)) && s.record.Some?
            && FailureRecorded(s.record.value, power, stopped) == None ==>
              AttemptNext(s, HandleFailure(power, stopped, acked)) == s.(attempt := Idle)
  {
  }

  // ----- delivery -----

  /** An attempt that waits for the report of its running guest, in time and
      without any restriction on the row. */
  predicate AwaitsReport(s: VM) {
    && s.attempt.Waiting? && s.record.Some? && s.record.value.receipt.Some?
    && var rec := s.record.value;
       && rec.row.status == Provisioning && rec.row.claimedAt == None && rec.row.reason == Unrestricted
       && rec.row.guest == Some(s.attempt.guest)
       && rec.receipt.value.generation == s.attempt.generation && rec.receipt.value.outcome == Awaiting
       && s.clock <= rec.receipt.value.deadline
  }

  ghost predicate Comes(s: VM, goal: VM -> bool) {
    exists steps: seq<Step> :: Run(s, steps) && OrderlyRun(s, steps) && goal(After(s, steps))
  }

  lemma ComesNow(s: VM, goal: VM -> bool)
    requires goal(s)
    ensures Comes(s, goal)
  {
    assert Run(s, []) && OrderlyRun(s, []) && After(s, []) == s;
  }

  lemma ComesNext(s: VM, t: Step, goal: VM -> bool)
    requires Enabled(s, t) && Orderly(s, t) && Comes(Next(s, t), goal)
    ensures Comes(s, goal)
  {
    var steps: seq<Step> :| Run(Next(s, t), steps) && OrderlyRun(Next(s, t), steps) && goal(After(Next(s, t), steps));
    assert ([t] + steps)[1..] == steps;
    assert Run(s, [t] + steps) && OrderlyRun(s, [t] + steps) && After(s, [t] + steps) == After(Next(s, t), steps);
  }

  predicate IsReady(s: VM) { s.record.Some? && s.record.value.row.status == Ready }

  predicate IsFailed(s: VM) { s.record.Some? && s.record.value.row.status == Failed && s.attempt.Refunding? }

  lemma FinalizedDelivers(s: VM)
    requires s.attempt.Finalizing? && s.record.Some? && Finalizable(s.record.value.row)
    requires Successful(s.record.value, s.attempt.guest, s.attempt.generation) && s.record.value.row.reason == Unrestricted
    ensures Comes(s, IsReady)
  {
    var finalize := Provisioner(Finalize(Unknown, true, true));
    DeliveryOutcome(s.record.value, s.attempt.guest, s.attempt.generation, Unknown, true, s.clock);
    ComesNow(Next(s, finalize), IsReady);
    ComesNext(s, finalize, IsReady);
  }

  /** The state right after the report. */
  function Reported(s: VM, outcome: Outcome): VM
    requires AwaitsReport(s)
  {
    s.(record := Some(s.record.value.(receipt := Some(s.record.value.receipt.value.(outcome := outcome)))))
  }

  lemma ReportArrives(s: VM, succeeded: bool)
    requires Inv(s) && AwaitsReport(s)
    ensures var t := Outside(Report(s.attempt.guest, succeeded));
            Enabled(s, t) && Next(s, t) == Reported(s, if succeeded then Succeeded else SetupFailed)
  {
    ReportOutcome(s.record.value.receipt.value, s.attempt.generation, succeeded, s.clock);
  }

  /** A success report that comes in time delivers the machine. */
  lemma SuccessDelivers(s: VM)
    requires Reachable(s) && AwaitsReport(s)
    ensures Comes(s, IsReady)
  {
    ReachableInv(s);
    ReportArrives(s, true);
    var reported := Reported(s, Succeeded);
    PollOutcome(reported.record.value.receipt, s.attempt.generation, s.clock);
    FinalizedDelivers(Next(reported, Provisioner(PollReport)));
    ComesNext(reported, Provisioner(PollReport), IsReady);
    ComesNext(s, Outside(Report(s.attempt.guest, true)), IsReady);
  }

  lemma FailedComes(s: VM)
    requires s.attempt.Failing? && s.record.Some? && s.record.value.row.status == Provisioning && GuestOn(s)
    ensures Comes(s, IsFailed)
  {
    var failure := Provisioner(HandleFailure(On, true, true));
    FailureOutcome(s.record.value, On, true);
    ComesNow(Next(s, failure), IsFailed);
    ComesNext(s, failure, IsFailed);
  }

  /** A failure report fails the order, and its refund is then due. */
  lemma FailureReportRefunds(s: VM)
    requires Reachable(s) && AwaitsReport(s) && GuestOn(s)
    ensures Comes(s, IsFailed)
  {
    ReachableInv(s);
    ReportArrives(s, false);
    var reported := Reported(s, SetupFailed);
    PollOutcome(reported.record.value.receipt, s.attempt.generation, s.clock);
    FailedComes(Next(reported, Provisioner(PollReport)));
    ComesNext(reported, Provisioner(PollReport), IsFailed);
    ComesNext(s, Outside(Report(s.attempt.guest, false)), IsFailed);
  }

  // ----- deletion -----

  /** Destroyed, the guest on the row gone, and the prefix given back. */
  predicate IsCleaned(s: VM) {
    && s.record.Some? && AllGone(s.record.value.row)
    && (RowGuest(s).Some? ==> RowGuest(s).value in s.guests && !s.guests[RowGuest(s).value].present)
  }

  const EXPLICIT := DestroyRequest(None, true, false)

  /** A deletion past its checks, for a row without evidence that has nothing to
      keep its prefix for. */
  predicate Ordered(s: VM, d: Deletion) {
    && s.record.Some? && s.record.value.retention == None && d in s.deletions
    && d.order.guest == RowGuest(s) && d.order.manifest == None
    && (RowGuest(s).None? ==> s.record.value.receipt == None || s.record.value.row.prefix == None)
  }

  lemma FinishedIsCleaned(s: VM, d: Deletion)
    requires Inv(s) && Ordered(s, d) && d.stage == Cleaned(true) && d.order.guest.Some?
    ensures Comes(s, IsCleaned)
  {
    assert DeletionSound(s, d);
    FinishOutcome(s.record.value, d.order.guest, true);
    ComesNow(Next(s, Deleting(Complete(d))), IsCleaned);
    ComesNext(s, Deleting(Complete(d)), IsCleaned);
  }

  lemma FinishedWithoutGuestIsCleaned(s: VM, d: Deletion)
    requires Inv(s) && Ordered(s, d) && d.stage.Cleaned? && d.order.guest == None
    ensures Comes(s, IsCleaned)
  {
    FinishOutcome(s.record.value, None, d.stage.addressFree);
    var finished := Next(s, Deleting(Complete(d)));
    QuarantineOutcome(finished.record.value);
    ComesNow(Next(finished, Deleting(ReleasePrefix)), IsCleaned);
    ComesNext(finished, Deleting(ReleasePrefix), IsCleaned);
    ComesNext(s, Deleting(Complete(d)), IsCleaned);
  }

  lemma ResolvedIsCleaned(s: VM, d: Deletion)
    requires Inv(s) && Ordered(s, d) && d.stage.Resolved?
    ensures Comes(s, IsCleaned)
  {
    var destroy := Deleting(Destroy(d, true));
    var s' := Next(s, destroy);
    var done := Deletion(d.order, Cleaned(AddressFree(d.order, d.stage.unresolved)));
    StepKeeps(s, destroy);
    assert done in s'.deletions && s'.record == s.record;
    if d.order.guest.Some? { FinishedIsCleaned(s', done); } else { FinishedWithoutGuestIsCleaned(s', done); }
    ComesNext(s, destroy, IsCleaned);
  }

  lemma OrderedIsCleaned(s: VM, d: Deletion)
    requires Inv(s) && Ordered(s, d) && d.stage.Accepted?
    ensures Comes(s, IsCleaned)
  {
    var resolve := Deleting(Resolve(d));
    var s' := Next(s, resolve);
    var unresolved := d.order.guest.None? && s.record.value.receipt.Some?;
    StepKeeps(s, resolve);
    assert Deletion(d.order, Resolved(unresolved)) in s'.deletions;
    ResolvedIsCleaned(s', Deletion(d.order, Resolved(unresolved)));
    ComesNext(s, resolve, IsCleaned);
  }

  /** Without evidence, a machine whose guest is known, that never asked for one,
      or that holds no prefix any more, can be deleted completely. */
  lemma DeletionCompletes(s: VM)
    requires Inv(s) && s.record.Some? && s.record.value.retention == None && !IsCleaned(s)
    requires RowGuest(s).Some? || s.record.value.receipt == None || s.record.value.row.prefix == None
    ensures Comes(s, IsCleaned)
  {
    var rec := s.record.value;
    ClaimOutcome(rec, EXPLICIT, false, None, s.clock);
    RefusalOutcome(rec, EXPLICIT);
    var accept := Deleting(Accept(EXPLICIT, false, None));
    var s' := Next(s, accept);
    var d := Deletion(DeletionClaimed(rec, EXPLICIT, false, None, s.clock).1.order, Accepted);
    StepKeeps(s, accept);
    OrderedIsCleaned(s', d);
    ComesNext(s, accept, IsCleaned);
  }

  /** Exactly when a terminal row without evidence, and with no attempt alive, can
      be cleaned up completely: its guest is known, or none was ever asked for,
      or its prefix is back already. */
  lemma CleanupIff(s: VM)
    requires Reachable(s) && s.record.Some? && s.record.value.retention == None && s.attempt.Idle?
    requires s.record.value.row.status == Failed || s.record.value.row.status == Destroyed
    ensures Comes(s, IsCleaned) <==>
              RowGuest(s).Some? || s.record.value.receipt == None || s.record.value.row.prefix == None
  {
    ReachableInv(s);
    if IsCleaned(s) {
      ComesNow(s, IsCleaned);
    } else if RowGuest(s).Some? || s.record.value.receipt == None || s.record.value.row.prefix == None {
      DeletionCompletes(s);
    } else {
      ReachableNamed(s);
      forall steps: seq<Step> | Run(s, steps) && OrderlyRun(s, steps) ensures !IsCleaned(After(s, steps)) {
        UntrackedGuestIsBeyondReach(s, steps);
      }
    }
  }
}
