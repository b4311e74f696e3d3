/** What the lifecycle promises in every reachable state and over every run. */
module Guarantees {
  import opened Records
  import opened Transactions
  import opened Lifecycle
  import opened Invariant
  import opened Preservation
  import opened Reports

  // ----- delivery -----

  /** READY is earned: whatever attempts came before, the machine named on the
      row is the one whose receipt succeeded, and in the run that led here that
      very machine reported its success, in time and to a waiting receipt. */
  lemma ReadyIsEarned(s0: VM, steps: seq<Step>, s: VM)
    requires Reaches(s0, steps, s) && s.record.Some? && s.record.value.row.status.Ready?
    ensures var rec := s.record.value;
            && rec.row.guest.Some? && rec.row.guest.value in s.guests
            && rec.receipt.Some? && rec.receipt.value.outcome.Succeeded?
            && s.guests[rec.row.guest.value].generation == rec.receipt.value.generation
            && ReportedWithin(s0, steps, rec.row.guest.value, rec.receipt.value.generation)
  {
    FreshInv(s0);
    RunKeeps(s0, steps);
    SuccessWasReported(s0, steps, s.record.value.row.guest.value, s.record.value.receipt.value.generation);
  }

  predicate DeliveredRow(s: VM) {
    s.record.Some? && (s.record.value.row.status.Ready? || s.record.value.row.provisionedAt.Some?)
  }

  /** Delivered or refunded, never both, and refunded at most once. */
  lemma DeliveredOrRefunded(s: VM)
    requires Reachable(s)
    ensures s.refunds <= 1 && !(DeliveredRow(s) && s.refunds > 0)
  {
    ReachableInv(s);
  }

  /** Once refunded, no continuation of the run ever delivers, refunds again or
      returns the row to provisioning. */
  lemma {:induction false} RefundIsFinal(s: VM, steps: seq<Step>)
    requires Inv(s) && Run(s, steps) && OrderlyRun(s, steps) && s.refunds > 0
    ensures After(s, steps).refunds == 1 && !DeliveredRow(After(s, steps)) && After(s, steps).record.Some?
    ensures !After(s, steps).record.value.row.status.Provisioning?
    decreases |steps|
  {
    if steps != [] {
      StepKeeps(s, steps[0]);
      RefundIsFinal(Next(s, steps[0]), steps[1..]);
    }
  }

  // ----- addresses -----

  /** A guest that can run always has its address reserved by its own row. */
  lemma RunningGuestHoldsAddress(s: VM, g: Guest)
    requires Reachable(s) && CanRun(s, g)
    ensures s.record.Some? && s.record.value.row.prefix == Some(s.guests[g].address)
  {
    ReachableInv(s);
  }

  /** The guest named on the row is the only one that can run; before a guest
      is named, every guest that can run belongs to the current receipt. */
  lemma RunningGuestIsKnown(s: VM, g: Guest)
    requires Reachable(s) && CanRun(s, g)
    ensures s.record.Some? && s.record.value.receipt.Some?
    ensures s.guests[g].generation == s.record.value.receipt.value.generation
    ensures RowGuest(s).Some? ==> RowGuest(s) == Some(g)
  {
    ReachableInv(s);
  }

  // ----- what one step can do to the record -----

  predicate CompletesRestore(t: Step) { t.Managing? && t.power.CompleteRestore? }

  predicate AcceptsDeletion(t: Step) { t.Deleting? && t.delete_.Accept? }

  predicate BoughtTime(g: Grant) { g.kind.Paid? || g.kind.AdminGrant? }

  /** Destroyed rows stay destroyed; a claim is made by an accepted deletion
      and lifted, with its evidence, by a completed recovery; evidence appears
      only with a new claim; and time is bought only for unclaimed rows. */
  predicate Summary(before: Record, after: Record, t: Step) {
    && (after.row.status.Provisioning? ==>
          before.row.status.Provisioning? && (Paying(before.row) ==> Paying(after.row)))
    && (before.row.status.Destroyed? ==> after.row.status.Destroyed?)
    && (|| after.row.claimedAt == before.row.claimedAt
        || (AcceptsDeletion(t) && !Claimed(before.row) && Claimed(after.row))
        || (CompletesRestore(t) && before.retention.Some?))
    && (|| after.retention.Some? == before.retention.Some?
        || (AcceptsDeletion(t) && !Claimed(before.row))
        || (CompletesRestore(t) && before.retention.Some?))
    && (|| after.grants == before.grants
        || !Claimed(before.row)
        || (&& |after.grants| == |before.grants| + 1 && after.grants[..|before.grants|] == before.grants
            && !BoughtTime(after.grants[|before.grants|])))
  }

  lemma ReserveSummary(s: VM, t: ReserveStep)
    requires ReserveEnabled(s, t) && s.record.Some? && ReserveNext(s, t).record.Some?
    ensures Summary(s.record.value, ReserveNext(s, t).record.value, Reserving(t))
  {
  }

  /** The attempt steps that end in a locked transaction on the row. */
  predicate Writes(t: AttemptStep) { t.Adopt? || t.Regenerate? || t.RecordGuest? || t.Finalize? || t.HandleFailure? }

  lemma AttemptOnlyReads(s: VM, t: AttemptStep)
    requires AttemptEnabled(s, t) && !Writes(t)
    ensures AttemptNext(s, t).record == s.record
  {
  }

  lemma AttemptSummary(s: VM, t: AttemptStep)
    requires AttemptEnabled(s, t) && s.record.Some?
    ensures AttemptNext(s, t).record.Some?
    ensures Summary(s.record.value, AttemptNext(s, t).record.value, Provisioner(t))
  {
    if !Writes(t) { AttemptOnlyReads(s, t); }
  }

  lemma DeleteSummary(s: VM, t: DeleteStep)
    requires Inv(s) && DeleteEnabled(s, t) && s.record.Some?
    ensures DeleteNext(s, t).record.Some?
    ensures Summary(s.record.value, DeleteNext(s, t).record.value, Deleting(t))
  {
    if t.Accept? {
      AnswerOf(s.record.value, t.request, t.keepExpired, t.capture, s.clock);
    } else if t.Protect? {
      assert DeletionSound(s, t.deletion);
    } else if t.Complete? {
      assert DeletionSound(s, t.deletion);
    }
  }

  lemma PowerGrants(s: VM, t: PowerStep)
    requires PowerEnabled(s, t)
    ensures var before, after := s.record.value, PowerNext(s, t).record.value;
            && (|| after.grants == before.grants || !Claimed(before.row)
                || (after.grants == before.grants + [after.grants[|after.grants| - 1]]
                    && !BoughtTime(after.grants[|after.grants| - 1])))
            && (|| (after.row.claimedAt == before.row.claimedAt && after.retention.Some? == before.retention.Some?)
                || (t.CompleteRestore? && before.retention.Some?))
  {
  }

  lemma PowerSummary(s: VM, t: PowerStep)
    requires Inv(s) && PowerEnabled(s, t)
    ensures Summary(s.record.value, PowerNext(s, t).record.value, Managing(t))
  {
    PowerIsGentle(s, t);
    PowerGrants(s, t);
  }

  lemma OutsideSummary(s: VM, t: WorldStep)
    requires WorldEnabled(s, t) && s.record.Some?
    ensures WorldNext(s, t).record.Some? && Summary(s.record.value, WorldNext(s, t).record.value, Outside(t))
  {
  }

  lemma StepSummary(s: VM, t: Step)
    requires Inv(s) && Enabled(s, t) && s.record.Some? && Next(s, t).record.Some?
    ensures Summary(s.record.value, Next(s, t).record.value, t)
  {
    match t
    case Reserving(r) => ReserveSummary(s, r);
    case Provisioner(a) => AttemptSummary(s, a);
    case Deleting(d) => DeleteSummary(s, d);
    case Managing(p) => PowerSummary(s, p);
    case Outside(w) => OutsideSummary(s, w);
  }

  /** A row disappears only while it is an unpaid provisioning reservation. */
  lemma RowVanishes(s: VM, t: Step)
    requires Inv(s) && Enabled(s, t) && s.record.Some? && Next(s, t).record.None?
    ensures Releasable(s.record.value.row)
  {
    match t
    case Reserving(r) =>
    case Provisioner(a) => AttemptSummary(s, a);
    case Deleting(d) => DeleteSummary(s, d);
    case Managing(p) => PowerOnlyMoves(s, p);
    case Outside(w) => OutsideSummary(s, w);
  }

  // ----- refunds -----

  /** Nothing is provisioning and no attempt is about to record a refund. */
  predicate PastRefund(s: VM) {
    s.record.Some? && !s.record.value.row.status.Provisioning? && !s.attempt.Refunding? && s.refunds == 0
  }

  lemma AttemptPastRefund(s: VM, t: AttemptStep)
    requires PastRefund(s) && AttemptEnabled(s, t)
    ensures !AttemptNext(s, t).attempt.Refunding? && AttemptNext(s, t).refunds == 0
  {
  }

  lemma PastRefundStays(s: VM, t: Step)
    requires Inv(s) && PastRefund(s) && Enabled(s, t)
    ensures PastRefund(Next(s, t))
  {
    if Next(s, t).record.None? { RowVanishes(s, t); } else { StepSummary(s, t); }
    if t.Provisioner? { AttemptPastRefund(s, t.attempting); }
  }

  /** Only the attempt whose own failure commit was acknowledged records the
      refund: once its moment has passed, no continuation ever makes up for it. */
  lemma {:induction false} MissedRefundStaysMissed(s: VM, steps: seq<Step>)
    requires Inv(s) && Run(s, steps) && OrderlyRun(s, steps) && PastRefund(s)
    ensures PastRefund(After(s, steps))
    decreases |steps|
  {
    if steps != [] {
      StepKeeps(s, steps[0]);
      PastRefundStays(s, steps[0]);
      MissedRefundStaysMissed(Next(s, steps[0]), steps[1..]);
    }
  }

  // ----- claims, deletion and retention -----

  /** The row, if it is still there, is claimed and carries no evidence. */
  predicate PlainlyClaimed(s: VM) {
    s.born.Some? && (s.record.Some? ==> Claimed(s.record.value.row) && s.record.value.retention.None?)
  }

  /** Release deletes no such row: it is paid for or past provisioning. */
  predicate Lasting(s: VM) { s.record.Some? && !Releasable(s.record.value.row) }

  /** A claim without evidence is final: whatever follows, the claim stays on
      the row and never gains retention evidence. The row itself can go only as
      an unpaid reservation in provisioning. */
  lemma {:induction false} PlainClaimIsFinal(s: VM, steps: seq<Step>)
    requires Inv(s) && Run(s, steps) && OrderlyRun(s, steps) && PlainlyClaimed(s)
    ensures PlainlyClaimed(After(s, steps))
    ensures Lasting(s) ==> Lasting(After(s, steps))
    decreases |steps|
  {
    if steps != [] {
      StepKeeps(s, steps[0]);
      PlainClaimStays(s, steps[0]);
      PlainClaimIsFinal(Next(s, steps[0]), steps[1..]);
    }
  }

  lemma PlainClaimStays(s: VM, t: Step)
    requires Inv(s) && Enabled(s, t) && PlainlyClaimed(s)
    ensures PlainlyClaimed(Next(s, t)) && (Lasting(s) ==> Lasting(Next(s, t)))
  {
    if s.record.Some? {
      if Next(s, t).record.None? { RowVanishes(s, t); } else { StepSummary(s, t); }
      BornStays(s, t);
    }
  }

  lemma BornStays(s: VM, t: Step)
    requires Enabled(s, t) && s.born.Some?
    ensures Next(s, t).born == s.born
  {
    if t.Managing? { PowerOnlyMoves(s, t.power); }
  }

  predicate IsDestroyed(s: VM) { s.record.Some? && s.record.value.row.status.Destroyed? }

  lemma DestroyedStays(s: VM, t: Step)
    requires Inv(s) && Enabled(s, t) && IsDestroyed(s)
    ensures IsDestroyed(Next(s, t))
  {
    if Next(s, t).record.None? { RowVanishes(s, t); } else { StepSummary(s, t); }
  }

  /** Deletion is final: a destroyed row is claimed, and it stays destroyed
      through every continuation. */
  lemma {:induction false} DestroyedIsFinal(s: VM, steps: seq<Step>)
    requires Inv(s) && Run(s, steps) && OrderlyRun(s, steps) && IsDestroyed(s)
    ensures IsDestroyed(After(s, steps)) && Claimed(After(s, steps).record.value.row)
    decreases |steps|
  {
    if steps != [] {
      StepKeeps(s, steps[0]);
      DestroyedStays(s, steps[0]);
      DestroyedIsFinal(Next(s, steps[0]), steps[1..]);
    }
  }

  /** Only a completed recovery lifts a claim, and it needs evidence. */
  lemma ClaimLiftedOnlyByRestore(s: VM, t: Step)
    requires Inv(s) && Enabled(s, t) && s.record.Some? && Claimed(s.record.value.row)
    requires Next(s, t).record.Some? && !Claimed(Next(s, t).record.value.row)
    ensures CompletesRestore(t) && s.record.value.retention.Some?
  {
    StepSummary(s, t);
  }

  /** The guest a step passes to the provider's destroy call. */
  function CallOf(t: Step): Option<Guest> {
    if t.Deleting? && t.delete_.Destroy? then DestroyCall(t.delete_.deletion.order)
    else if t.Deleting? && t.delete_.DestroyFails? then DestroyCall(t.delete_.deletion.order)
    else None
  }

  /** Retention and destruction exclude each other: when any guest is passed to
      the provider's destroy call there is no evidence, and no continuation
      ever creates some. */
  lemma DestroyCallExcludesRetention(s: VM, t: Step, steps: seq<Step>)
    requires Reachable(s) && Enabled(s, t) && Orderly(s, t) && CallOf(t).Some?
    requires Run(Next(s, t), steps) && OrderlyRun(Next(s, t), steps)
    ensures s.record.Some? ==> s.record.value.retention.None?
    ensures var last := After(Next(s, t), steps); last.record.Some? ==> last.record.value.retention.None?
  {
    ReachableInv(s);
    assert DeletionSound(s, t.delete_.deletion);
    StepKeeps(s, t);
    RunKeeps(Next(s, t), steps);
    DestroyedGrows(Next(s, t), steps);
  }

  lemma {:induction false} DestroyedGrows(s: VM, steps: seq<Step>)
    requires Run(s, steps)
    ensures s.destroyed <= After(s, steps).destroyed
    decreases |steps|
  {
    if steps != [] { DestroyedGrows(Next(s, steps[0]), steps[1..]); }
  }

  /** While evidence exists, no guest of this VM was ever passed to the
      provider's destroy call, and the evidence names the guest on the row. */
  lemma RetainedWasNeverDestroyed(s: VM)
    requires Reachable(s) && s.record.Some? && s.record.value.retention.Some?
    ensures s.destroyed == {} && Claimed(s.record.value.row)
    ensures s.record.value.row.guest == Some(s.record.value.retention.value.manifest.guest)
    ensures !s.record.value.row.status.Destroyed?
  {
    ReachableInv(s);
  }

  // ----- renewal against expiry -----

  /** The step that turns an unclaimed row into a claimed one. */
  predicate ClaimsNow(s: VM, t: Step) {
    && Enabled(s, t) && s.record.Some? && !Claimed(s.record.value.row)
    && Next(s, t).record.Some? && Claimed(Next(s, t).record.value.row)
  }

  /** Renewal never loses to expiry: when the expiry worker's deletion claims a
      row, the expiry committed at that instant is older than now minus grace. */
  lemma RenewalNeverLosesToExpiry(s: VM, t: Step)
    requires Reachable(s) && ClaimsNow(s, t)
    ensures t.Deleting? && t.delete_.Accept?
    ensures t.delete_.request.cutoff.Some? ==>
              s.record.value.row.expiresAt < s.clock - s.config.grace && !s.record.value.row.status.Failed?
  {
    ReachableInv(s);
    StepSummary(s, t);
    if t.delete_.request.cutoff.Some? {
      ClaimNeedsOldExpiry(s.record.value, t.delete_.request, t.delete_.keepExpired, t.delete_.capture, s.clock);
    }
  }

  /** An unauthorized deletion changes nothing at all. */
  lemma UnauthorizedChangesNothing(s: VM, t: DeleteStep)
    requires DeleteEnabled(s, t) && t.Accept? && !t.request.authorized
    ensures DeleteNext(s, t) == s
  {
  }

  /** So every claim is made by an authorized deletion. */
  lemma ClaimsAreAuthorized(s: VM, t: Step)
    requires Reachable(s) && ClaimsNow(s, t)
    ensures AcceptsDeletion(t) && t.delete_.request.authorized
  {
    RenewalNeverLosesToExpiry(s, t);
    if !t.delete_.request.authorized { UnauthorizedChangesNothing(s, t.delete_); }
  }

  lemma ClaimNeedsOldExpiry(rec: Record, request: DestroyRequest, keepExpired: bool, capture: Option<Manifest>, now: Time)
    requires !Claimed(rec.row) && !rec.row.status.Destroyed? && request.cutoff.Some?
    requires Claimed(DeletionClaimed(rec, request, keepExpired, capture, now).0.row)
    ensures rec.row.expiresAt < request.cutoff.value && !rec.row.status.Failed?
  {
  }

  function Bought(grants: seq<Grant>): nat {
    if grants == [] then 0
    else Bought(grants[..|grants| - 1]) + (if BoughtTime(grants[|grants| - 1]) then 1 else 0)
  }

  function GrantsOf(s: VM): seq<Grant> { if s.record.None? then [] else s.record.value.grants }

  lemma GrantsWhileClaimed(s: VM, t: Step)
    requires Inv(s) && Enabled(s, t) && s.record.Some? && Claimed(s.record.value.row)
    requires Next(s, t).record.Some?
    ensures Bought(GrantsOf(Next(s, t))) == Bought(GrantsOf(s))
  {
    StepSummary(s, t);
    var before, after := GrantsOf(s), GrantsOf(Next(s, t));
    if after != before { assert after[..|after| - 1] == before; }
  }

  predicate NoRestoreCompleted(steps: seq<Step>) {
    forall i | 0 <= i < |steps| :: !CompletesRestore(steps[i])
  }

  lemma ClaimedStep(s: VM, t: Step)
    requires Inv(s) && Enabled(s, t) && Orderly(s, t) && !CompletesRestore(t)
    requires s.record.Some? && Claimed(s.record.value.row) && Next(s, t).record.Some?
    ensures Inv(Next(s, t)) && Claimed(Next(s, t).record.value.row) && Bought(GrantsOf(Next(s, t))) == Bought(GrantsOf(s))
  {
    StepKeeps(s, t);
    GrantsWhileClaimed(s, t);
    if !Claimed(Next(s, t).record.value.row) { ClaimLiftedOnlyByRestore(s, t); }
  }

  lemma StillThere(s: VM, steps: seq<Step>)
    requires Inv(s) && s.record.Some? && steps != [] && Run(s, steps) && After(s, steps).record.Some?
    ensures Next(s, steps[0]).record.Some?
  {
    if Next(s, steps[0]).record.None? { MissingStays(Next(s, steps[0]), steps[1..]); }
  }

  /** No extension commits after a claim: until a recovery completes, the
      number of paid and administrative extensions stays what it was. */
  lemma {:induction false} NoExtensionAfterClaim(s: VM, steps: seq<Step>)
    requires Inv(s) && Run(s, steps) && OrderlyRun(s, steps) && NoRestoreCompleted(steps)
    requires s.record.Some? && Claimed(s.record.value.row) && After(s, steps).record.Some?
    ensures Bought(GrantsOf(After(s, steps))) == Bought(GrantsOf(s)) && Claimed(After(s, steps).record.value.row)
    decreases |steps|
  {
    if steps != [] {
      StillThere(s, steps);
      ClaimedStep(s, steps[0]);
      assert forall i | 0 <= i < |steps[1..]| :: steps[1..][i] == steps[i + 1];
      NoExtensionAfterClaim(Next(s, steps[0]), steps[1..]);
    }
  }

  lemma {:induction false} MissingStays(s: VM, steps: seq<Step>)
    requires Run(s, steps) && s.record.None? && s.born.Some?
    ensures After(s, steps).record.None?
    decreases |steps|
  {
    if steps != [] { MissingStays(Next(s, steps[0]), steps[1..]); }
  }

  /** A resume marker refers to a committed paid extension. */
  lemma ResumeMarkerIsPaid(s: VM)
    requires Reachable(s) && s.record.Some? && s.record.value.row.resume.Some?
    ensures HasReceipt(s.record.value.grants, s.record.value.row.resume.value.receipt)
  {
    ReachableInv(s);
  }

  // ----- starts -----

  /** The step tells the provider to start or reboot the recorded guest. */
  predicate StartsGuest(s: VM, t: Step) {
    t.Managing? && s.record.Some? && PowerEffect(s, s.record.value, t.power).starts
  }

  /** Deletion wins over every power-on path but one: no extension, transfer,
      administrator or customer step starts a claimed guest. */
  lemma ClaimedGuestNotStarted(s: VM, t: Step)
    requires Reachable(s) && Enabled(s, t) && StartsGuest(s, t) && !t.power.ResumeAccount?
    ensures var row := s.record.value.row;
            && !Claimed(row) && !row.status.Destroyed? && row.guest.Some?
            && (row.status.Failed? ==> t.power.Reboot?)
  {
    ReachableInv(s);
  }

  /** The worker that resumes an account's machines does not look at the claim:
      exactly when it starts a guest that a deletion has already claimed. */
  lemma AccountResumeStartsClaimed(s: VM, account: nat, power: Power)
    requires Reachable(s) && Enabled(s, Managing(ResumeAccount(account, power))) && Claimed(s.record.value.row)
    ensures var row := s.record.value.row;
            StartsGuest(s, Managing(ResumeAccount(account, power))) <==>
              && row.owner.account == Some(account) && row.reason.AccountDisabled? && !row.status.Destroyed? && !row.status.Failed?
              && row.expiresAt > s.clock && row.guest.Some? && power.Off?
  {
  }
}
