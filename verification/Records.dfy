/** The durable state of one VM: its row, its guest receipt, its retention
    evidence and the expiry changes recorded for it. Times are whole seconds. */
module Records {

  datatype Option<+T> = None | Some(value: T)

  type Time = int
  type Guest = nat

  const DAY: int := 86400

  datatype Status = Provisioning | Ready | Running | Suspended | Failed | Destroyed

  datatype Suspension = Unrestricted | Expired | AccountDisabled | ManualAdmin

  /** Publication of the paid order to the provisioner: unset while unpaid,
      pending until the quote or intent is linked, then handed off for good. */
  datatype Handoff = Unset | Pending | HandedOff

  /** A wallet of 0 is the empty string that marks an unpaid reservation. */
  datatype Owner = Owner(account: Option<nat>, wallet: nat)

  datatype Outcome = Awaiting | Succeeded | SetupFailed

  /** The guest completion receipt; the generation names one clone. */
  datatype Receipt = Receipt(generation: nat, deadline: Time, outcome: Outcome)

  datatype Manifest = Manifest(guest: Guest, disks: nat)

  datatype Restore = Restore(operation: nat, authorized: bool, asked: Time, days: nat,
                             previous: Time, newExpiry: Time)

  datatype RetentionState = Prepared | Retained | Restoring(restore: Restore)

  datatype Retention = Retention(manifest: Manifest, owner: Owner, state: RetentionState)

  /** Why an expiry moved: a paid extension, an administrator grant, or an
      authorized recovery. The entry carries its own identity (payment event,
      audit or operation), and the previous and the new expiry. */
  datatype GrantKind = Paid | AdminGrant | Recovery

  datatype Grant = Grant(id: nat, kind: GrantKind, at: Time, days: nat, previous: Time, next: Time)

  /** The promise to start a guest once a paid extension has committed; it
      names the receipt of that extension. */
  datatype ResumeMarker = ResumeMarker(receipt: nat, guest: Guest, owner: Owner)

  datatype Row = Row(
    status: Status,
    guest: Option<Guest>,
    owner: Owner,
    prefix: Option<nat>,
    claimedAt: Option<Time>,
    expiresAt: Time,
    reason: Suspension,
    handoff: Handoff,
    deletedGuest: Option<Guest>,
    provisionedAt: Option<Time>,
    resume: Option<ResumeMarker>,
    transferResume: Option<nat>)

  datatype Record = Record(row: Row, receipt: Option<Receipt>, retention: Option<Retention>, grants: seq<Grant>)

  /** What the provider says about a guest's power; Unknown also covers a
      failed or malformed answer. */
  datatype Power = On | Off | Unknown

  predicate Paying(row: Row) { row.owner.wallet != 0 }

  predicate Claimed(row: Row) { row.claimedAt.Some? }

  /** The provider confirmed the deletion of exactly the guest on the row. */
  predicate DeletionVerified(row: Row) { row.guest.Some? && row.deletedGuest == row.guest }

  predicate AdminRestricted(row: Row) { row.reason.AccountDisabled? || row.reason.ManualAdmin? }

  /** The receipt of a paid extension is among the recorded changes. */
  predicate HasReceipt(grants: seq<Grant>, id: nat) {
    exists i | 0 <= i < |grants| :: grants[i].kind.Paid? && grants[i].id == id
  }

  function Max(a: int, b: int): int { if a < b then b else a }
}
