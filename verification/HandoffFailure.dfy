/** The failure path of an order that never reached its provisioner. It does not
    look at the handoff; this module says exactly when it is safe, over
    everything that can follow. */
module HandoffFailure {
  import opened Records
  import opened Transactions
  import opened Lifecycle
  import opened Invariant
  import opened Preservation
  import opened Guarantees

  /** Every guest that can run has its address on the row. */
  predicate AddressesSafe(s: VM) {
    forall g | g in s.guests && CanRun(s, g) :: s.record.Some? && s.record.value.row.prefix == Some(s.guests[g].address)
  }

  /** Addresses stay safe whatever follows, provided that the path is not taken
      once more after a handoff. */
  ghost predicate StaysSafe(s: VM) {
    forall steps: seq<Step> :: Run(s, steps) && OrderlyRun(s, steps) ==> AddressesSafe(After(s, steps))
  }

  predicate Terminal(row: Row) { row.status.Failed? || row.status.Destroyed? }

  /** The attempt is about to start a guest: it has yet to clone one, or the
      one it cloned is still there. */
  predicate BootPending(s: VM) {
    s.attempt.Creating? || (s.attempt.Booting? && !Absent(s, s.attempt.guest))
  }

  predicate Absent(s: VM, g: Guest) { g in s.guests && !s.guests[g].present }

  /** Claims and deletions as far as they matter here. */
  predicate ClaimsHold(s: VM) {
    && s.record.Some?
    && (s.record.value.row.status.Destroyed? ==> Claimed(s.record.value.row) && s.record.value.retention.None?)
    && (s.record.value.retention.Some? ==> s.record.value.row.guest.Some? && Claimed(s.record.value.row))
    && (forall d | d in s.deletions ::
          && (d.order.manifest.Some? ==> d.order.guest.Some?) && (d.stage.Cleaned? ==> d.order.manifest.None?)
          && (d.order.manifest.None? ==> Claimed(s.record.value.row) && s.record.value.retention.None?))
  }

  /** No guest can run, and none ever will. */
  predicate Barren(s: VM) {
    && ClaimsHold(s) && NoneCanRun(s) && !BootPending(s)
    && !s.record.value.row.status.Provisioning?
    && (if s.record.value.row.guest.Some? then Absent(s, s.record.value.row.guest.value) else Terminal(s.record.value.row))
    && (s.attempt.Recording? ==> Absent(s, s.attempt.guest))
  }

  lemma ReserveStaysBarren(s: VM, t: ReserveStep)
    requires Barren(s) && ReserveEnabled(s, t)
    ensures Barren(ReserveNext(s, t))
  {
  }

  lemma WriteStaysBarren(s: VM, t: AttemptStep)
    requires Barren(s) && AttemptEnabled(s, t) && Writes(t)
    ensures Barren(AttemptNext(s, t))
  {
  }

  lemma AttemptStaysBarren(s: VM, t: AttemptStep)
    requires Barren(s) && AttemptEnabled(s, t)
    ensures Barren(AttemptNext(s, t))
  {
    if Writes(t) { WriteStaysBarren(s, t); } else { AttemptOnlyReads(s, t); }
  }

  lemma DeleteStaysBarren(s: VM, t: DeleteStep)
    requires Barren(s) && DeleteEnabled(s, t)
    ensures Barren(DeleteNext(s, t))
  {
    if t.Accept? { AnswerOf(s.record.value, t.request, t.keepExpired, t.capture, s.clock); }
  }

  /** The row cannot be provisioned again. */
  predicate Spent(rec: Record) {
    && !rec.row.status.Provisioning? && (rec.row.guest.None? ==> Terminal(rec.row))
    && (rec.row.status.Destroyed? ==> Claimed(rec.row) && rec.retention.None?)
    && (rec.retention.Some? ==> rec.row.guest.Some? && Claimed(rec.row))
  }

  predicate StaysSpent(before: Record, after: Record) {
    && Spent(after) && after.row.guest == before.row.guest
    && (Claimed(before.row) && before.retention.None? ==> Claimed(after.row) && after.retention.None?)
  }

  lemma ResumeStaysSpent(s: VM, t: PowerStep)
    requires PowerEnabled(s, t) && Spent(s.record.value) && (t.ResumeExtension? || t.ResumeTransfer? || t.ResumeAccount?)
    ensures StaysSpent(s.record.value, PowerNext(s, t).record.value)
  {
  }

  lemma PowerStaysSpent(s: VM, t: PowerStep)
    requires PowerEnabled(s, t) && Spent(s.record.value)
    ensures StaysSpent(s.record.value, PowerNext(s, t).record.value)
  {
    if t.ResumeExtension? || t.ResumeTransfer? || t.ResumeAccount? { ResumeStaysSpent(s, t); }
  }

  lemma PowerOnlyRestarts(s: VM, t: PowerStep)
    requires PowerEnabled(s, t)
    ensures var s' := PowerNext(s, t);
            && s'.guests.Keys == s.guests.Keys && s'.attempt == s.attempt && s'.deletions == s.deletions
            && forall g | g in s.guests ::
                 && s'.guests[g].present == s.guests[g].present
                 && (s'.guests[g].booted ==> s.guests[g].booted || RowGuest(s) == Some(g))
  {
  }

  lemma PowerStaysBarren(s: VM, t: PowerStep)
    requires Barren(s) && PowerEnabled(s, t)
    ensures Barren(PowerNext(s, t))
  {
    PowerStaysSpent(s, t);
    PowerOnlyRestarts(s, t);
    PowerOnlyMoves(s, t);
  }

  lemma WorldStaysBarren(s: VM, t: WorldStep)
    requires Barren(s) && WorldEnabled(s, t)
    ensures Barren(WorldNext(s, t))
  {
  }

  lemma {:induction false} RunStaysBarren(s: VM, steps: seq<Step>)
    requires Barren(s) && Run(s, steps)
    ensures Barren(After(s, steps))
    decreases |steps|
  {
    if steps != [] {
      match steps[0] {
        case Reserving(r) => ReserveStaysBarren(s, r);
        case Provisioner(a) => AttemptStaysBarren(s, a);
        case Deleting(d) => DeleteStaysBarren(s, d);
        case Managing(p) => PowerStaysBarren(s, p);
        case Outside(w) => WorldStaysBarren(s, w);
      }
      RunStaysBarren(Next(s, steps[0]), steps[1..]);
    }
  }

  // ----- the exact condition -----

  const FAIL: Step := Reserving(MarkFailed)

  /** Harmless: the row is terminal already, or no guest can run and the
      attempt is not about to start one. */
  predicate Harmless(s: VM) {
    s.record.Some? && (Terminal(s.record.value.row) || (NoneCanRun(s) && !BootPending(s)))
  }

  lemma FailedIsBarren(s: VM)
    requires Inv(s) && Enabled(s, FAIL) && !Terminal(s.record.value.row) && NoneCanRun(s) && !BootPending(s)
    ensures Barren(Next(s, FAIL))
  {
    assert forall d | d in s.deletions :: DeletionSound(s, d);
  }

  lemma SoundStaysSafe(s: VM)
    requires Inv(s)
    ensures StaysSafe(s)
  {
    forall steps: seq<Step> | Run(s, steps) && OrderlyRun(s, steps) ensures AddressesSafe(After(s, steps)) {
      RunKeeps(s, steps);
    }
  }

  lemma HarmlessStaysSafe(s: VM)
    requires Inv(s) && Enabled(s, FAIL) && Harmless(s)
    ensures StaysSafe(Next(s, FAIL))
  {
    if Terminal(s.record.value.row) {
      SoundStaysSafe(s);
    } else {
      FailedIsBarren(s);
      forall steps: seq<Step> | Run(Next(s, FAIL), steps) ensures AddressesSafe(After(Next(s, FAIL), steps)) {
        RunStaysBarren(Next(s, FAIL), steps);
      }
    }
  }

  lemma FreshGuest(guests: set<Guest>) returns (g: Guest)
    ensures forall h | h in guests :: h < g
    decreases guests
  {
    g := 0;
    if guests != {} {
      var k :| k in guests;
      g := FreshGuest(guests - {k});
      assert forall h | h in guests && h != k :: h in guests - {k};
      if g <= k { g := k + 1; }
    }
  }

  lemma OneStepUnsafe(s: VM, t: Step)
    requires Enabled(s, t) && Orderly(s, t) && !StaysSafe(Next(s, t))
    ensures !StaysSafe(s)
  {
    var steps: seq<Step> :| Run(Next(s, t), steps) && OrderlyRun(Next(s, t), steps) && !AddressesSafe(After(Next(s, t), steps));
    assert ([t] + steps)[1..] == steps;
    assert Run(s, [t] + steps) && OrderlyRun(s, [t] + steps) && After(s, [t] + steps) == After(Next(s, t), steps);
  }

  lemma NowUnsafe(s: VM)
    requires !AddressesSafe(s)
    ensures !StaysSafe(s)
  {
    assert Run(s, []) && OrderlyRun(s, []) && After(s, []) == s;
  }

  /** An attempt past its checks clones and starts a guest whose address the
      failed row no longer holds. */
  lemma PendingBootStrands(s: VM)
    requires BootPending(s) && s.record.Some? && s.record.value.row.prefix.None?
    requires s.attempt.Booting? ==> s.attempt.guest in s.guests
    ensures !StaysSafe(s)
    decreases s.attempt.Creating?
  {
    if s.attempt.Booting? {
      var booted := Next(s, Provisioner(Boot));
      assert CanRun(booted, s.attempt.guest);
      NowUnsafe(booted);
      OneStepUnsafe(s, Provisioner(Boot));
    } else {
      var g := FreshGuest(s.guests.Keys);
      PendingBootStrands(Next(s, Provisioner(Create(g))));
      OneStepUnsafe(s, Provisioner(Create(g)));
    }
  }

  /** Exactly when the failure path keeps addresses safe, over everything that
      can follow it. */
  lemma MarkFailedIsSafeIff(s: VM)
    requires Reachable(s) && Enabled(s, FAIL)
    ensures StaysSafe(Next(s, FAIL)) <==> Harmless(s)
  {
    ReachableInv(s);
    var n := Next(s, FAIL);
    if Harmless(s) {
      HarmlessStaysSafe(s);
    } else if BootPending(s) {
      PendingBootStrands(n);
    } else {
      var g :| g in s.guests && CanRun(s, g);
      assert CanRun(n, g) && !AddressesSafe(n);
      NowUnsafe(n);
    }
  }

  /** What a caller can read from the row: before the handoff is published, and
      on a terminal row, the path is harmless. */
  lemma UnpublishedIsHarmless(s: VM)
    requires Reachable(s) && Enabled(s, FAIL)
    requires !s.record.value.row.handoff.HandedOff? || Terminal(s.record.value.row)
    ensures StaysSafe(Next(s, FAIL))
  {
    ReachableInv(s);
    MarkFailedIsSafeIff(s);
  }

  // ----- a published row tells nothing -----

  function PaidRow(owner: Owner, prefix: nat, days: nat): Row {
    NewRow(owner, prefix, days * DAY).(handoff := HandedOff)
  }

  const START := VM(Config(172800, 900), None, None, map[], 0, map[], false, Idle, {}, {}, {}, 0, 0)

  function Dispatched(owner: Owner, prefix: nat, days: nat): VM {
    START.(record := Some(Record(PaidRow(owner, prefix, days), Some(Receipt(0, 900, Awaiting)), None, [])),
           born := Some(days * DAY), generations := 2, dispatched := true)
  }

  /** A clone request is out for a row that has just been handed over. */
  function CloneAsked(owner: Owner, prefix: nat, days: nat): VM {
    Dispatched(owner, prefix, days).(
      record := Some(Record(PaidRow(owner, prefix, days), Some(Receipt(2, 900, Awaiting)), None, [])),
      generations := 3, requested := map[2 := prefix], attempt := Creating(prefix, 2))
  }

  /** Take one orderly step of a run. */
  ghost function Then(s: VM, t: Step): (s': VM)
    requires Reachable(s) && Enabled(s, t) && Orderly(s, t)
    ensures s' == Next(s, t) && Reachable(s')
  {
    ReachableNext(s, t);
    Next(s, t)
  }

  lemma OrderDispatched(owner: Owner, prefix: nat, days: nat)
    requires owner.wallet != 0
    ensures Reachable(Dispatched(owner, prefix, days))
  {
    FreshReachable(START);
    var paid := Then(START, Reserving(Insert(owner, prefix, days, true)));
    var dispatched := Then(paid, Reserving(Spawn));
    assert dispatched == Dispatched(owner, prefix, days);
  }

  lemma OrderSearched(owner: Owner, prefix: nat, days: nat)
    requires owner.wallet != 0
    ensures Reachable(Dispatched(owner, prefix, days).(attempt := Recovering(prefix, 0, false)))
  {
    OrderDispatched(owner, prefix, days);
    var begun := Then(Dispatched(owner, prefix, days), Provisioner(Begin));
    var read := Then(begun, Provisioner(ReadReceipt));
    assert read == Dispatched(owner, prefix, days).(attempt := Recovering(prefix, 0, false));
  }

  lemma OrderCloning(owner: Owner, prefix: nat, days: nat)
    requires owner.wallet != 0
    ensures Reachable(CloneAsked(owner, prefix, days))
  {
    OrderSearched(owner, prefix, days);
    var s := Dispatched(owner, prefix, days).(attempt := Recovering(prefix, 0, false));
    var searched := Then(s, Provisioner(FoundNone));
    var renewed := Then(searched, Provisioner(Regenerate));
    assert renewed == CloneAsked(owner, prefix, days);
  }

  /** Every paid row, once handed over, occurs in a reachable state in which no
      guest runs yet and the failure path strands one all the same. */
  lemma PublishedRowStrands(owner: Owner, prefix: nat, days: nat)
    requires owner.wallet != 0
    ensures exists s: VM ::
              && Reachable(s) && s.record.Some? && s.record.value.row == PaidRow(owner, prefix, days)
              && NoneCanRun(s) && Enabled(s, FAIL) && !StaysSafe(Next(s, FAIL))
  {
    OrderCloning(owner, prefix, days);
    var s := CloneAsked(owner, prefix, days);
    MarkFailedIsSafeIff(s);
    assert NoneCanRun(s) && Enabled(s, FAIL);
  }
}
