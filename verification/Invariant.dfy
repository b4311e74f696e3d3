/** The inductive invariant of one VM's lifecycle and the proof that every
    step keeps it. */
module Invariant {
  import opened Records
  import opened Transactions
  import opened Lifecycle

  /** No clone request was ever sent and no task was ever dispatched. */
  predicate Untouched(s: VM) {
    && s.guests == map[] && s.requested == map[] && !s.dispatched && s.attempt.Idle?
    && s.refunds == 0 && s.destroyed == {}
  }

  /** This guest could still use its address: it is present and a start has
      been sent to it at some time. */
  predicate CanRun(s: VM, g: Guest) {
    g in s.guests && s.guests[g].present && s.guests[g].booted
  }

  predicate NoneCanRun(s: VM) { forall g | g in s.guests :: !CanRun(s, g) }

  predicate OnlyCanRun(s: VM, g: Guest) { forall h | h in s.guests :: CanRun(s, h) ==> h == g }

  // ----- the parts -----

  predicate MachinesSound(s: VM) {
    && (forall n | n in s.requested :: n < s.generations)
    && (forall g | g in s.guests ::
          && s.guests[g].generation in s.requested
          && s.guests[g].address == s.requested[s.guests[g].generation]
          && (s.guests[g].running ==> CanRun(s, g)))
  }

  predicate DispatchSound(s: VM) {
    && (s.record.None? || s.record.value.receipt.None? ==> Untouched(s))
    && (!s.dispatched ==> Untouched(s))
    && (s.born.None? ==> s.record.None? && s.deletions == {})
    && (s.record.Some? ==>
          var rec := s.record.value;
          && s.born.Some?
          && (rec.row.status.Provisioning? ==> rec.row.prefix.Some?)
          && (rec.receipt.Some? ==>
                && !rec.row.handoff.Unset? && rec.receipt.value.generation < s.generations
                && (rec.row.status.Provisioning? ==> Paying(rec.row)))
          && (s.dispatched ==> rec.row.handoff.HandedOff?)
          && (rec.row.guest.Some? ==> s.dispatched))
  }

  /** The prefix stays on the row until its guest is known, every clone request
      carries it, and it is held by every guest that can run. */
  predicate AddressHeld(s: VM) {
    s.record.Some? && s.record.value.receipt.Some? && s.dispatched ==>
      var rec := s.record.value;
      && (rec.row.guest.None? ==> rec.row.prefix.Some?)
      && (rec.row.prefix.Some? ==> forall n | n in s.requested :: s.requested[n] == rec.row.prefix.value)
      && (forall g | g in s.guests && CanRun(s, g) ::
            && rec.row.prefix.Some?
            && (if rec.row.guest.Some? then rec.row.guest == Some(g)
                else rec.receipt.value.generation == s.guests[g].generation))
  }

  predicate Cloning(a: Attempt) {
    a.Preparing? || a.Recovering? || a.Adopting? || a.Replacing? || a.Creating? || a.Booting? || a.Recording?
  }

  predicate AttemptSound(s: VM) {
    && (!s.attempt.Idle? ==> s.dispatched)
    && (s.record.Some? && s.record.value.receipt.Some? && s.dispatched ==>
          var rec := s.record.value;
          && (Cloning(s.attempt) ==> rec.row.guest.None?)
          && (match s.attempt
              case Preparing(p) => rec.row.prefix == Some(p)
              case Recovering(p, n, _) => rec.row.prefix == Some(p) && rec.receipt.value.generation == n
              case Adopting(n, g) =>
                g in s.guests && s.guests[g].booted && s.guests[g].generation == n && OnlyCanRun(s, g)
              case Replacing(p) => rec.row.prefix == Some(p) && NoneCanRun(s)
              case Creating(p, n) =>
                rec.row.prefix == Some(p) && rec.receipt.value.generation == n && n in s.requested && NoneCanRun(s)
              case Booting(n, g) =>
                && g in s.guests && s.guests[g].generation == n && rec.receipt.value.generation == n
                && NoneCanRun(s)
              case Recording(n, g) =>
                && g in s.guests && s.guests[g].generation == n && rec.receipt.value.generation == n
                && s.guests[g].booted && OnlyCanRun(s, g)
              case Refunding =>
                && s.refunds == 0 && rec.row.provisionedAt.None?
                && !rec.row.status.Provisioning? && !rec.row.status.Ready?
              case _ => true))
  }

  predicate RowSound(s: VM) {
    s.record.Some? ==>
      var rec := s.record.value;
      && (rec.row.guest.Some? ==>
            && rec.receipt.Some?
            && rec.row.guest.value in s.guests && s.guests[rec.row.guest.value].booted
            && s.guests[rec.row.guest.value].generation == rec.receipt.value.generation)
      && (rec.row.status.Ready? || rec.row.status.Running? || rec.row.status.Suspended? ==> rec.row.guest.Some?)
      && (rec.row.status.Ready? ==> rec.row.provisionedAt.Some?)
      && (rec.row.provisionedAt.Some? ==>
            && rec.row.guest.Some? && rec.receipt.value.outcome.Succeeded?
            && !rec.row.status.Provisioning? && !rec.row.status.Failed?)
      && (s.refunds > 0 ==>
            && s.refunds == 1 && s.attempt.Idle? && rec.row.provisionedAt.None?
            && !rec.row.status.Provisioning? && !rec.row.status.Ready?)
  }

  predicate Removed(s: VM, g: Guest) { g in s.guests && !s.guests[g].present }

  /** No receipt, and none will ever be staged: the row cannot be dispatched. */
  predicate NeverGuest(s: VM) {
    s.record.Some? ==> s.record.value.receipt.None? && !s.record.value.row.status.Provisioning?
  }

  predicate DeletionSound(s: VM, d: Deletion) {
    && (d.order.manifest.Some? ==> d.order.guest == Some(d.order.manifest.value.guest))
    && (d.order.guest.Some? ==> d.order.guest.value in s.guests)
    && (d.order.verified ==> d.order.guest.Some? && Removed(s, d.order.guest.value))
    && (!d.order.provisioning && s.record.Some? ==> !s.record.value.row.status.Provisioning?)
    && (d.stage.Resolved? && d.order.guest.None? && !d.stage.unresolved && !d.order.provisioning ==> NeverGuest(s))
    && (d.stage.Cleaned? ==> d.order.manifest.None?)
    && (d.stage.Cleaned? && d.order.guest.Some? ==> Removed(s, d.order.guest.value))
    && (d.stage.Cleaned? && d.order.guest.None? && d.stage.addressFree ==> NeverGuest(s))
  }

  /** Claims and evidence: a deletion without a manifest means a claim that
      never had evidence; evidence means that every deletion carries it. */
  predicate ClaimSound(s: VM) {
    && (forall d | d in s.deletions :: DeletionSound(s, d))
    && (s.record.Some? ==>
          var rec := s.record.value;
          && (rec.row.status.Destroyed? ==> Claimed(rec.row) && rec.retention.None?)
          && (rec.retention.Some? ==>
                && Claimed(rec.row) && rec.row.guest == Some(rec.retention.value.manifest.guest))
          && (forall d | d in s.deletions && d.order.manifest.None? :: Claimed(rec.row) && rec.retention.None?)
          && (s.destroyed != {} ==> Claimed(rec.row) && rec.retention.None?)
          && (rec.row.deletedGuest.Some? ==> Removed(s, rec.row.deletedGuest.value)))
  }

  predicate GrantFollows(grant: Grant, previous: Time) {
    grant.days > 0 && grant.previous == previous && grant.next == Later(previous, grant.at, grant.days)
  }

  function Current(born: Time, grants: seq<Grant>): Time {
    if grants == [] then born else grants[|grants| - 1].next
  }

  /** Every recorded change starts from the expiry left by the one before. */
  predicate Chained(born: Time, grants: seq<Grant>) {
    forall i | 0 <= i < |grants| :: GrantFollows(grants[i], Current(born, grants[..i]))
  }

  predicate TimeSound(s: VM) {
    && (forall c | c in s.cutoffs :: c <= s.clock - s.config.grace)
    && (s.record.Some? ==>
          var rec := s.record.value;
          && s.born.Some? && Chained(s.born.value, rec.grants) && rec.row.expiresAt == Current(s.born.value, rec.grants)
          && (rec.row.resume.Some? ==> HasReceipt(rec.grants, rec.row.resume.value.receipt))
          && (rec.retention.Some? && rec.retention.value.state.Restoring? ==>
                var restore := rec.retention.value.state.restore;
                restore.days > 0 && restore.newExpiry == Later(restore.previous, restore.asked, restore.days)))
  }

  predicate Inv(s: VM) {
    && MachinesSound(s) && DispatchSound(s) && AddressHeld(s) && AttemptSound(s)
    && RowSound(s) && ClaimSound(s) && TimeSound(s)
  }

  // ----- gentle changes -----

  /** Guests may stop, start again if a start was ever sent, or be removed. */
  predicate Fewer(before: Machines, after: Machines) {
    && before.Keys == after.Keys
    && (forall g | g in before ::
          && after[g].generation == before[g].generation && after[g].address == before[g].address
          && after[g].booted == before[g].booted && (after[g].present ==> before[g].present)
          && (after[g].running ==> after[g].present && after[g].booted))
  }

  predicate SameReceipt(before: Option<Receipt>, after: Option<Receipt>) {
    && before.Some? == after.Some?
    && (before.Some? ==>
          && after.value.generation == before.value.generation
          && (before.value.outcome.Awaiting? || after.value.outcome == before.value.outcome))
  }

  predicate GentleStatus(before: Row, after: Row) {
    && after.guest == before.guest && after.prefix == before.prefix && after.handoff == before.handoff
    && after.deletedGuest == before.deletedGuest && after.provisionedAt == before.provisionedAt
    && (after.status.Provisioning? ==> before.status.Provisioning? && after.owner.wallet == before.owner.wallet)
    && (after.status.Ready? ==> before.status.Ready?)
    && (after.status.Failed? ==> before.status.Failed?)
    && (after.status.Running? || after.status.Suspended? ==> after.guest.Some?)
    && after.status.Destroyed? == before.status.Destroyed?
  }

  /** A claim with its evidence stays as it is, or a completed recovery lifts
      both at once. */
  predicate GentleClaim(before: Record, after: Record) {
    || (&& after.row.claimedAt == before.row.claimedAt && after.retention.Some? == before.retention.Some?
        && (before.retention.Some? ==> after.retention.value.manifest == before.retention.value.manifest))
    || (before.retention.Some? && after.retention.None? && after.row.claimedAt.None?)
  }

  predicate GentleTime(before: Record, after: Record) {
    && (|| (after.grants == before.grants && after.row.expiresAt == before.row.expiresAt)
        || (&& |after.grants| == |before.grants| + 1 && after.grants[..|before.grants|] == before.grants
            && GrantFollows(after.grants[|before.grants|], before.row.expiresAt)
            && after.row.expiresAt == after.grants[|before.grants|].next))
    && (|| after.row.resume.None? || after.row.resume == before.row.resume
        || HasReceipt(after.grants[|before.grants|..], after.row.resume.value.receipt))
    && (after.retention.Some? && after.retention.value.state.Restoring? ==>
          var restore := after.retention.value.state.restore;
          && restore.days > 0 && restore.newExpiry == Later(restore.previous, restore.asked, restore.days))
  }

  predicate Gentle(before: Record, after: Record) {
    && SameReceipt(before.receipt, after.receipt) && GentleStatus(before.row, after.row)
    && GentleClaim(before, after) && GentleTime(before, after)
  }

  lemma ChainGrows(born: Time, grants: seq<Grant>, grant: Grant)
    requires Chained(born, grants) && GrantFollows(grant, Current(born, grants))
    ensures Chained(born, grants + [grant]) && Current(born, grants + [grant]) == grant.next
  {
  }

  lemma ReceiptStays(before: seq<Grant>, after: seq<Grant>, id: nat)
    requires |before| <= |after| && after[..|before|] == before
    requires HasReceipt(before, id) || HasReceipt(after[|before|..], id)
    ensures HasReceipt(after, id)
  {
  }

  lemma TimeKeeps(s: VM, before: Record, after: Record)
    requires TimeSound(s) && s.record == Some(before) && GentleTime(before, after)
    ensures Chained(s.born.value, after.grants) && after.row.expiresAt == Current(s.born.value, after.grants)
    ensures after.row.resume.Some? ==> HasReceipt(after.grants, after.row.resume.value.receipt)
  {
    if after.grants != before.grants {
      var n := |before.grants|;
      assert after.grants == before.grants + [after.grants[n]];
      ChainGrows(s.born.value, before.grants, after.grants[n]);
      if after.row.resume.Some? { ReceiptStays(before.grants, after.grants, after.row.resume.value.receipt); }
    }
  }

  predicate OnlyGuestsAndRecord(s: VM, s': VM) {
    && s'.config == s.config && s'.born == s.born && s'.requested == s.requested && s'.dispatched == s.dispatched
    && s'.deletions == s.deletions && s'.destroyed == s.destroyed && s'.refunds == s.refunds
    && s'.attempt == s.attempt && s'.generations >= s.generations && s'.clock >= s.clock
    && (forall c | c in s'.cutoffs :: c in s.cutoffs || c <= s.clock - s.config.grace)
  }

  /** The workhorse: a gentle change of the record together with stops, restarts
      and removals of guests keeps the invariant. */
  lemma GentleKeeps(s: VM, s': VM)
    requires Inv(s) && s.record.Some? && s'.record.Some? && OnlyGuestsAndRecord(s, s')
    requires Fewer(s.guests, s'.guests) && Gentle(s.record.value, s'.record.value)
    ensures Inv(s')
  {
    TimeKeeps(s, s.record.value, s'.record.value);
    assert forall g | g in s'.guests :: CanRun(s', g) ==> CanRun(s, g);
    assert MachinesSound(s');
    assert DispatchSound(s') by { if s.guests == map[] { assert s'.guests == map[]; } }
    assert forall d | d in s'.deletions :: DeletionSound(s, d);
  }
}
