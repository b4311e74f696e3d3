/** Concrete runs of the code as it stands that break a promise. The exact
    conditions are in HandoffFailure, Guarantees, Refunds and RefundedGuests. */
module Exceptions {
  import opened Records
  import opened Transactions
  import opened Lifecycle
  import opened Invariant
  import opened Preservation
  import opened Guarantees
  import opened HandoffFailure
  import opened Refunds

  const BUYER := Owner(Some(1), 1)

  // ----- a paid order up to the boot of its clone -----

  const ROW := PaidRow(BUYER, 7, 30)

  const CLONING := CloneAsked(BUYER, 7, 30)

  const BOOTED := CLONING.(guests := map[0 := Machine(2, 7, true, true, true)], attempt := Recording(2, 0))

  lemma OrderBooted()
    ensures Reachable(BOOTED)
  {
    OrderCloning(BUYER, 7, 30);
    var created := Then(CLONING, Provisioner(Create(0)));
    var booted := Then(created, Provisioner(Boot));
    assert booted.guests == BOOTED.guests;
    assert booted == BOOTED;
  }

  /** The pre-handoff failure path does not look at the handoff. Taken after the
      handoff (say, the publishing commit was applied but not acknowledged), it
      gives back the address of a guest that runs. */
  lemma MarkFailedStrandsAGuest()
    ensures exists s: VM, g: Guest :: Reachable(s) && Enabled(s, Reserving(MarkFailed)) && CanRun(s, g)
              && CanRun(Next(s, Reserving(MarkFailed)), g)
              && Next(s, Reserving(MarkFailed)).record.value.row.prefix.None?
  {
    OrderBooted();
    assert CanRun(BOOTED, 0) && CanRun(Next(BOOTED, Reserving(MarkFailed)), 0);
  }

  // ----- a claimed guest that is started -----

  const RECORDED := BOOTED.(record := Some(Record(ROW.(guest := Some(0)), Some(Receipt(2, 900, Awaiting)), None, [])),
                            attempt := Checking(0))

  lemma OrderRecorded()
    ensures Reachable(RECORDED)
  {
    OrderBooted();
    var recorded := Then(BOOTED, Provisioner(RecordGuest));
    assert recorded == RECORDED;
  }

  const REPORTED := RECORDED.(record := Some(RECORDED.record.value.(receipt := Some(Receipt(2, 900, Succeeded)))),
                              attempt := Waiting(0, 2))

  lemma OrderWaiting()
    ensures Reachable(RECORDED.(attempt := Waiting(0, 2)))
  {
    OrderRecorded();
    var checked := Then(RECORDED, Provisioner(Check(true, true)));
    var waiting := Then(checked, Provisioner(ReadGeneration));
    assert waiting == RECORDED.(attempt := Waiting(0, 2));
  }

  lemma OrderReported()
    ensures Reachable(REPORTED)
  {
    OrderWaiting();
    var reported := Then(RECORDED.(attempt := Waiting(0, 2)), Outside(Report(0, true)));
    assert reported == REPORTED;
  }

  const DELIVERED := REPORTED.(record := Some(REPORTED.record.value.(
    row := REPORTED.record.value.row.(status := Ready, provisionedAt := Some(0)))), attempt := Idle)

  lemma OrderDelivered()
    ensures Reachable(DELIVERED)
  {
    OrderReported();
    var polled := Then(REPORTED, Provisioner(PollReport));
    var ready := Then(polled, Provisioner(Finalize(On, true, true)));
    assert ready == DELIVERED;
  }

  const STOPPED := DELIVERED.(
    record := Some(DELIVERED.record.value.(
      row := DELIVERED.record.value.row.(status := Suspended, reason := AccountDisabled))),
    guests := map[0 := Machine(2, 7, true, true, false)], generations := 4)

  lemma OrderStopped()
    ensures Reachable(STOPPED)
  {
    OrderDelivered();
    var stopped := Then(DELIVERED, Managing(SuspendAccount(1, On)));
    assert stopped.guests == STOPPED.guests;
    assert stopped == STOPPED;
  }

  /** Resuming an account's machines can start a guest that a deletion has
      already claimed: the provider refused the deletion of a machine stopped
      for a disabled account, and the account was enabled again. */
  lemma ClaimedGuestStarted()
    ensures exists s: VM :: Reachable(s) && Enabled(s, Managing(ResumeAccount(1, Off)))
              && StartsGuest(s, Managing(ResumeAccount(1, Off))) && Claimed(s.record.value.row)
              && Next(s, Managing(ResumeAccount(1, Off))).record.value.row.status.Running?
  {
    OrderStopped();
    var claimed := Then(STOPPED, Deleting(Accept(DestroyRequest(None, true, false), false, None)));
    assert Enabled(claimed, Managing(ResumeAccount(1, Off)));
  }

  // ----- a refund with a running guest -----

  const FAILING := BOOTED.(attempt := Failing)

  const UNRECORDED := BOOTED.(
    record := Some(BOOTED.record.value.(row := BOOTED.record.value.row.(status := Failed))), attempt := Refunding)

  lemma OrderUnrecorded()
    ensures Reachable(UNRECORDED)
  {
    OrderBooted();
    var failing := Then(BOOTED, Provisioner(Raise));
    assert failing == FAILING;
    var failed := Then(FAILING, Provisioner(HandleFailure(Unknown, false, true)));
    assert failed == UNRECORDED;
  }

  /** A refund does not wait for a guest whose UUID was never recorded: the
      clone is booted, recording it raises (the owner changed, or the database
      failed), the failure path looks at no power, and the refund is recorded
      while the guest runs. */
  lemma RefundedGuestRuns()
    ensures exists s: VM :: Reachable(s) && s.refunds == 1 && GuestRuns(s) && s.record.Some?
              && s.record.value.row.status.Failed? && Paying(s.record.value.row) && Untracked(s)
  {
    OrderUnrecorded();
    var refunded := Then(UNRECORDED, Provisioner(Refund(true)));
    assert refunded.guests[0].running;
  }

  // ----- a failed order without a refund -----

  const UNREFUNDED := RECORDED.(
    record := Some(RECORDED.record.value.(row := RECORDED.record.value.row.(status := Failed))),
    guests := map[0 := Machine(2, 7, true, true, false)], attempt := Idle)

  lemma OrderFailed()
    ensures Reachable(UNREFUNDED)
  {
    OrderRecorded();
    var failing := Then(RECORDED, Provisioner(Raise));
    var failed := Then(failing, Provisioner(HandleFailure(On, true, false)));
    assert failed.guests == UNREFUNDED.guests;
    assert failed == UNREFUNDED;
  }

  /** A paid order can end FAILED and never be refunded here: the failure commit
      was applied but its acknowledgement was lost, and recovery looks only at
      provisioning rows. */
  lemma FailureWithoutRefund(steps: seq<Step>)
    requires Run(UNREFUNDED, steps) && OrderlyRun(UNREFUNDED, steps)
    ensures Reachable(UNREFUNDED) && UNREFUNDED.record.value.row.status.Failed? && Paying(UNREFUNDED.record.value.row)
    ensures After(UNREFUNDED, steps).refunds == 0
  {
    OrderFailed();
    ReachableInv(UNREFUNDED);
    MissedRefundStaysMissed(UNREFUNDED, steps);
  }

  // ----- a refunded guest that is recovered -----

  const LATE: Time := 40 * DAY
  const BOUND: Time := 40 * DAY - 172800
  const KEPT := Manifest(0, 1)
  const ORDER := Order(Some(0), true, Some(KEPT), Some(BOUND), false)

  const SWEPT := RECORDED.(attempt := Failing, clock := LATE, cutoffs := {BOUND}, generations := 4)

  lemma OrderLate()
    ensures Reachable(RECORDED.(attempt := Failing, clock := LATE))
  {
    OrderRecorded();
    var failing := Then(RECORDED, Provisioner(Raise));
    var late := Then(failing, Outside(Tick(LATE)));
    assert late == RECORDED.(attempt := Failing, clock := LATE);
  }

  lemma OrderSwept()
    ensures Reachable(SWEPT)
  {
    OrderLate();
    var swept := Then(RECORDED.(attempt := Failing, clock := LATE), Managing(ExpireDelete));
    assert swept.cutoffs == SWEPT.cutoffs;
    assert swept == SWEPT;
  }

  const CLAIMED := SWEPT.(
    record := Some(SWEPT.record.value.(row := SWEPT.record.value.row.(claimedAt := Some(LATE)),
                                       retention := Some(Retention(KEPT, BUYER, Prepared)))),
    deletions := {Deletion(ORDER, Accepted)})

  lemma OrderClaimed()
    ensures Reachable(CLAIMED)
  {
    OrderSwept();
    var claimed := Then(SWEPT, Deleting(Accept(DestroyRequest(Some(BOUND), true, false), true, Some(KEPT))));
    assert claimed.deletions == CLAIMED.deletions;
    assert claimed == CLAIMED;
  }

  const RETAINABLE := CLAIMED.(
    record := Some(CLAIMED.record.value.(row := CLAIMED.record.value.row.(status := Failed))),
    guests := map[0 := Machine(2, 7, true, true, false)], attempt := Idle, refunds := 1)

  lemma OrderRefunded()
    ensures Reachable(RETAINABLE)
  {
    OrderClaimed();
    var failed := Then(CLAIMED, Provisioner(HandleFailure(On, true, true)));
    assert failed.guests == RETAINABLE.guests;
    var refunded := Then(failed, Provisioner(Refund(true)));
    assert refunded == RETAINABLE;
  }

  const RETAINED := RETAINABLE.(
    record := Some(RETAINABLE.record.value.(
      row := RETAINABLE.record.value.row.(status := Suspended, reason := Expired),
      retention := Some(Retention(KEPT, BUYER, Retained)))),
    deletions := {Deletion(ORDER, Accepted), Deletion(ORDER, Resolved(false))})

  lemma OrderRetained()
    ensures Reachable(RETAINED)
  {
    OrderRefunded();
    var resolved := Then(RETAINABLE, Deleting(Resolve(Deletion(ORDER, Accepted))));
    assert resolved.deletions == RETAINED.deletions;
    var retained := Then(resolved, Deleting(Protect(Deletion(ORDER, Resolved(false)), true)));
    assert retained.guests == RETAINED.guests;
    assert retained == RETAINED;
  }

  const RECOVERY := Restore(1, true, LATE, 30, 30 * DAY, 70 * DAY)

  const AUTHORIZED := RETAINED.(
    record := Some(RETAINED.record.value.(
      row := RETAINED.record.value.row.(expiresAt := 70 * DAY, reason := ManualAdmin),
      retention := Some(Retention(KEPT, BUYER, Restoring(RECOVERY))),
      grants := [Grant(1, Recovery, LATE, 30, 30 * DAY, 70 * DAY)])),
    generations := 6)

  lemma OrderAuthorized()
    ensures Reachable(AUTHORIZED)
  {
    OrderRetained();
    var prepared := Then(RETAINED, Managing(PrepareRestore(1, 30)));
    var authorized := Then(prepared, Managing(AuthorizeRestore(1, true)));
    assert authorized.record.value.grants == AUTHORIZED.record.value.grants;
    assert authorized == AUTHORIZED;
  }

  const RECOVERED := AUTHORIZED.(
    record := Some(AUTHORIZED.record.value.(row := AUTHORIZED.record.value.row.(claimedAt := None), retention := None)),
    generations := 7)

  lemma OrderRecovered()
    ensures Reachable(RECOVERED)
  {
    OrderAuthorized();
    var restored := Then(AUTHORIZED, Managing(CompleteRestore(1, true)));
    assert restored == RECOVERED;
  }

  /** A refunded VM can run for its owner again: its failure was recorded after
      an expiry claim with evidence, the guest was then retained, recovered and
      started by an administrator. It is never delivered, though. */
  lemma RefundedGuestRecovered()
    ensures exists s: VM :: Reachable(s) && s.refunds == 1 && s.record.Some? && s.record.value.row.status.Running?
              && !Claimed(s.record.value.row)
  {
    OrderRecovered();
    var started := Then(RECOVERED, Managing(AdminPower(StartGuest, true, Off)));
    assert started.refunds == 1;
  }
}
