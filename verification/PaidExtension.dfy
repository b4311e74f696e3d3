/** One paid extension, from the settled payment to the answer given to the
    customer, when a commit may lose its acknowledgement and other transactions
    run as soon as the locks are released. */
module PaidExtension {
  import opened Records
  import opened Transactions
  import opened Lifecycle
  import opened Invariant
  import opened Preservation
  import opened Guarantees
  import opened PurchasedTime
  import opened Outcomes
  import opened Progress

  /** How often a receipt was recorded. */
  function Receipts(grants: seq<Grant>, id: nat): nat {
    if grants == [] then 0
    else Receipts(grants[..|grants| - 1], id)
         + (if grants[|grants| - 1].kind.Paid? && grants[|grants| - 1].id == id then 1 else 0)
  }

  predicate UsesReceipt(t: Step, id: nat) { t.Managing? && t.power.Extend? && t.power.id == id }

  predicate Unrelated(others: seq<Step>, id: nat) {
    forall i | 0 <= i < |others| :: !UsesReceipt(others[i], id)
  }

  /** The transactions of others, if they can run at all. */
  function Perturbed(s: VM, others: seq<Step>): VM {
    if Run(s, others) && OrderlyRun(s, others) then After(s, others) else s
  }

  lemma {:induction false} ReceiptsAppend(grants: seq<Grant>, g: Grant, id: nat)
    ensures Receipts(grants + [g], id) == Receipts(grants, id) + (if g.kind.Paid? && g.id == id then 1 else 0)
  {
  }

  lemma {:induction false} ReceiptsPositive(grants: seq<Grant>, id: nat)
    ensures HasReceipt(grants, id) <==> Receipts(grants, id) > 0
  {
    if grants != [] {
      var n := |grants| - 1;
      var before := grants[..n];
      ReceiptsPositive(before, id);
      if HasReceipt(before, id) {
        var i :| 0 <= i < |before| && before[i].kind.Paid? && before[i].id == id;
        assert grants[i] == before[i];
      }
      if HasReceipt(grants, id) {
        var i :| 0 <= i < |grants| && grants[i].kind.Paid? && grants[i].id == id;
        if i < n { assert before[i] == grants[i]; }
      }
    }
  }

  /** The list of changes only grows, by at most one entry a step. */
  lemma PowerGrows(s: VM, t: PowerStep)
    requires PowerEnabled(s, t)
    ensures var before, after := GrantsOf(s), GrantsOf(PowerNext(s, t));
            || after == before
            || (after == before + [after[|before|]] && |after| > |before|
                && (after[|before|].kind.Paid? ==> t.Extend? && after[|before|].id == t.id))
  {
  }

  lemma ReserveGrants(s: VM, t: ReserveStep)
    requires ReserveEnabled(s, t) && s.record.Some? && ReserveNext(s, t).record.Some?
    ensures GrantsOf(ReserveNext(s, t)) == GrantsOf(s)
  {
  }

  lemma AttemptGrants(s: VM, t: AttemptStep)
    requires AttemptEnabled(s, t)
    ensures GrantsOf(AttemptNext(s, t)) == GrantsOf(s)
  {
  }

  lemma DeleteGrants(s: VM, t: DeleteStep)
    requires DeleteEnabled(s, t)
    ensures GrantsOf(DeleteNext(s, t)) == GrantsOf(s)
  {
  }

  lemma PowerKeepsReceipt(s: VM, t: PowerStep, id: nat)
    requires PowerEnabled(s, t) && !(t.Extend? && t.id == id)
    ensures Receipts(GrantsOf(PowerNext(s, t)), id) == Receipts(GrantsOf(s), id)
    ensures GrantsOf(s) <= GrantsOf(PowerNext(s, t))
  {
    PowerGrows(s, t);
    var before, after := GrantsOf(s), GrantsOf(PowerNext(s, t));
    if after != before { ReceiptsAppend(before, after[|before|], id); }
  }

  lemma OthersKeepReceipt(s: VM, t: Step, id: nat)
    requires Enabled(s, t) && !UsesReceipt(t, id) && s.record.Some? && Next(s, t).record.Some?
    ensures Receipts(GrantsOf(Next(s, t)), id) == Receipts(GrantsOf(s), id)
    ensures GrantsOf(s) <= GrantsOf(Next(s, t))
  {
    match t
    case Reserving(r) => ReserveGrants(s, r);
    case Provisioner(a) => AttemptGrants(s, a);
    case Deleting(d) => DeleteGrants(s, d);
    case Managing(p) => PowerKeepsReceipt(s, p, id);
    case Outside(w) =>
  }

  // ----- a lifecycle run -----

  /** This run of the lifecycle leads from s to s'. */
  predicate LedTo(s: VM, run: seq<Step>, s': VM) { Run(s, run) && OrderlyRun(s, run) && After(s, run) == s' }

  lemma {:induction false} Joined(s: VM, first: seq<Step>, s': VM, second: seq<Step>, s'': VM)
    requires LedTo(s, first, s') && LedTo(s', second, s'')
    ensures LedTo(s, first + second, s'')
    decreases |first|
  {
    if first == [] {
      assert first + second == second;
    } else {
      assert (first + second)[1..] == first[1..] + second;
      Joined(Next(s, first[0]), first[1..], s', second, s'');
    }
  }

  lemma OneStep(s: VM, t: Step)
    requires Enabled(s, t) && Orderly(s, t)
    ensures LedTo(s, [t], Next(s, t))
  {
    assert [t][1..] == [];
  }

  /** Past provisioning, a row never vanishes. */
  predicate Settled(s: VM) { s.record.Some? && !s.record.value.row.status.Provisioning? }

  lemma {:induction false} SettledStays(s: VM, steps: seq<Step>)
    requires Inv(s) && Settled(s) && Run(s, steps) && OrderlyRun(s, steps)
    ensures Inv(After(s, steps)) && Settled(After(s, steps))
    decreases |steps|
  {
    if steps != [] {
      SettledStep(s, steps[0]);
      SettledStays(Next(s, steps[0]), steps[1..]);
    }
  }

  lemma SettledStep(s: VM, t: Step)
    requires Inv(s) && Settled(s) && Enabled(s, t) && Orderly(s, t)
    ensures Inv(Next(s, t)) && Settled(Next(s, t))
  {
    StepKeeps(s, t);
    if Next(s, t).record.None? { RowVanishes(s, t); } else { StepSummary(s, t); }
  }

  /** No other transaction adds, removes or rewrites a receipt of this one. */
  lemma {:induction false} OthersKeepReceipts(s: VM, others: seq<Step>, id: nat)
    requires Inv(s) && Settled(s) && Run(s, others) && OrderlyRun(s, others) && Unrelated(others, id)
    ensures Receipts(GrantsOf(After(s, others)), id) == Receipts(GrantsOf(s), id)
    ensures GrantsOf(s) <= GrantsOf(After(s, others))
    decreases |others|
  {
    if others != [] {
      SettledStep(s, others[0]);
      OthersKeepReceipt(s, others[0], id);
      assert forall i | 0 <= i < |others[1..]| :: others[1..][i] == others[i + 1];
      OthersKeepReceipts(Next(s, others[0]), others[1..], id);
    }
  }

  // ----- the extension -----

  /** What becomes of the commit and of every later contact with the database
      or the provider; others: transactions that run after the locks fall. */
  datatype Commit = Acknowledged | LostAck | NotApplied

  datatype Fate = Fate(commit: Commit, rolledBack: bool, relocked: bool, others: seq<Step>,
                       power: Power, resumed: bool, readBack: bool)

  datatype Result = InvalidDays | Rejected | Applied | AppliedStateUnavailable | OutcomeUnknown

  /** The parameters of one extension; the receipt id is new. */
  datatype Purchase = Purchase(id: nat, days: nat, ownerEnabled: bool, power: Power)

  /** The record that the extension leaves when its commit applies. */
  function Staged(s: VM, o: Purchase): Option<Record> {
    if s.record.None? then None else Extended(s.record.value, o.id, o.days, o.ownerEnabled, o.power, s.clock)
  }

  function CommitOf(o: Purchase): Step { Managing(Lifecycle.Extend(o.id, o.days, o.ownerEnabled, o.power)) }

  predicate Payable(s: VM, o: Purchase) { PowerSeen(s, RowGuest(s), o.power) && !HasReceipt(GrantsOf(s), o.id) }

  lemma StagedIsEnabled(s: VM, o: Purchase)
    requires Payable(s, o)
    ensures Enabled(s, CommitOf(o)) <==> Staged(s, o).Some?
    ensures Staged(s, o).Some? ==> Next(s, CommitOf(o)).record == Staged(s, o) && Settled(s)
  {
  }

  lemma StagedOnce(s: VM, o: Purchase)
    requires Staged(s, o).Some?
    ensures var before, after, now := s.record.value, Staged(s, o).value, s.clock;
            && Receipts(after.grants, o.id) == Receipts(before.grants, o.id) + 1
            && after.row.expiresAt == Later(before.row.expiresAt, now, o.days)
            && after.grants == before.grants + [Grant(o.id, Paid, now, o.days, before.row.expiresAt, after.row.expiresAt)]
  {
    var before, after := s.record.value, Staged(s, o).value;
    ReceiptsAppend(before.grants, Grant(o.id, Paid, s.clock, o.days, before.row.expiresAt, after.row.expiresAt), o.id);
  }

  /** The purchased time is there: the receipt once, the time in the chain that
      makes up the expiry, and the expiry no earlier than what was bought. */
  predicate TimeBought(staged: Record, s: VM, o: Purchase) {
    && s.record.Some? && Receipts(s.record.value.grants, o.id) == 1
    && staged.grants <= s.record.value.grants && staged.row.expiresAt <= s.record.value.row.expiresAt
  }

  /** The expiry follows the chain, so it is no earlier than any entry's. */
  lemma EntryIsCovered(s: VM, i: nat)
    requires Inv(s) && s.record.Some? && i < |s.record.value.grants|
    ensures s.record.value.grants[i].next <= s.record.value.row.expiresAt
  {
    var grants := s.record.value.grants;
    if i < |grants| - 1 { DeadlinesIncrease(s.born.value, grants, i, |grants| - 1); }
  }

  /** Once the extension has committed, it stays committed whatever follows. */
  lemma CommittedStaysBought(s: VM, o: Purchase, run: seq<Step>, last: VM)
    requires Inv(s) && Payable(s, o) && Staged(s, o).Some? && LedTo(s, run, last)
    requires Commits(run, o)
    ensures TimeBought(Staged(s, o).value, last, o)
    ensures last.record.value.row.expiresAt >= Later(s.record.value.row.expiresAt, s.clock, o.days)
  {
    StagedIsEnabled(s, o);
    StagedOnce(s, o);
    ReceiptsPositive(GrantsOf(s), o.id);
    var next := Next(s, CommitOf(o));
    SettledStep(s, CommitOf(o));
    SettledStays(next, run[1..]);
    OthersKeepReceipts(next, run[1..], o.id);
    EntryIsCovered(last, |s.record.value.grants|);
  }

  /** The run starts with the commit of this extension, or never contains it. */
  predicate Commits(run: seq<Step>, o: Purchase) { run != [] && run[0] == CommitOf(o) && Unrelated(run[1..], o.id) }

  lemma CommitsThenOthers(run: seq<Step>, more: seq<Step>, o: Purchase)
    requires Commits(run, o) && Unrelated(more, o.id)
    ensures Commits(run + more, o)
  {
    assert (run + more)[1..] == run[1..] + more;
  }

  /** The receipt tells afterwards whether the commit was applied. */
  lemma ReceiptDecides(s: VM, o: Purchase, run: seq<Step>, last: VM)
    requires Inv(s) && Payable(s, o) && Staged(s, o).Some? && LedTo(s, run, last)
    ensures Commits(run, o) ==> HasReceipt(GrantsOf(last), o.id)
    ensures Unrelated(run, o.id) ==> !HasReceipt(GrantsOf(last), o.id)
  {
    StagedIsEnabled(s, o);
    ReceiptsPositive(GrantsOf(s), o.id);
    ReceiptsPositive(GrantsOf(last), o.id);
    if Commits(run, o) { CommittedStaysBought(s, o, run, last); }
    if Unrelated(run, o.id) { OthersKeepReceipts(s, run, o.id); }
  }

  lemma AppliedOutcome(s: VM, o: Purchase, run: seq<Step>, mid: VM, more: seq<Step>, last: VM)
    requires Inv(s) && Payable(s, o) && Staged(s, o).Some? && LedTo(s, run, mid) && LedTo(mid, more, last)
    requires Commits(run, o) && Unrelated(more, o.id)
    ensures LedTo(s, run + more, last) && Commits(run + more, o) && Inv(last) && TimeBought(Staged(s, o).value, last, o)
    ensures last.record.value.row.expiresAt >= Later(s.record.value.row.expiresAt, s.clock, o.days)
  {
    Joined(s, run, mid, more, last);
    CommitsThenOthers(run, more, o);
    RunKeeps(s, run + more);
    CommittedStaysBought(s, o, run + more, last);
  }

  datatype Verdict = Present | Absent | Undetermined

  class Service {
    var vm: VM

    constructor (vm: VM)
      ensures this.vm == vm
    {
      this.vm := vm;
    }

    /** Commit the staged record; without an acknowledgement look for the
        receipt on a fresh connection, under the lifecycle lock. */
    method CommitExtension(o: Purchase, fate: Fate) returns (verdict: Verdict, ghost run: seq<Step>)
      requires Inv(vm) && Payable(vm, o) && Staged(vm, o).Some? && Unrelated(fate.others, o.id)
      modifies this
      ensures LedTo(old(vm), run, vm)
      ensures verdict.Present? ==> Commits(run, o)
      ensures verdict.Absent? ==> fate.commit.NotApplied? && Unrelated(run, o.id) && !HasReceipt(GrantsOf(vm), o.id)
      ensures verdict.Absent? <==> fate.commit.NotApplied? && fate.rolledBack && fate.relocked && vm.record.Some?
      ensures verdict.Undetermined? <==> !fate.commit.Acknowledged? && (!fate.rolledBack || !fate.relocked || vm.record.None?)
    {
      StagedIsEnabled(vm, o);
      run := [];
      if !fate.commit.NotApplied? {
        OneStep(vm, CommitOf(o));
        vm := Next(vm, CommitOf(o));
        run := [CommitOf(o)];
      }
      if !fate.commit.Acknowledged? {
        if !fate.rolledBack || !fate.relocked { return Undetermined, run; }
      }
      ghost var others := if Run(vm, fate.others) && OrderlyRun(vm, fate.others) then fate.others else [];
      Joined(old(vm), run, vm, others, Perturbed(vm, fate.others));
      vm := Perturbed(vm, fate.others);
      assert run != [] ==> (run + others)[1..] == others;
      run := run + others;
      if fate.commit.Acknowledged? { return Present, run; }
      if vm.record.None? { return Undetermined, run; }
      ReceiptDecides(old(vm), o, run, vm);
      return (if HasReceipt(vm.record.value.grants, o.id) then Present else Absent), run;
    }

    /** Start the guest again if it was paused, then read the state back. */
    method FinishExtension(o: Purchase, paused: bool, fate: Fate) returns (result: Result, ghost run: seq<Step>)
      modifies this
      ensures LedTo(old(vm), run, vm) && Unrelated(run, o.id)
      ensures result == Applied || result == AppliedStateUnavailable
      ensures result.Applied? <==> (paused ==> fate.resumed) && fate.readBack && vm.record.Some?
      ensures paused && fate.resumed && o.ownerEnabled && fate.power != Unknown
              && old(Enabled(vm, Managing(ResumeExtension(true, fate.power))) && Promised(vm.record.value.row)) ==>
                vm.record.Some? && vm.record.value.row.status == Running && GuestOn(vm)
    {
      run := [];
      if paused {
        if !fate.resumed { return AppliedStateUnavailable, run; }
        var resume := Managing(ResumeExtension(o.ownerEnabled, fate.power));
        if Enabled(vm, resume) {
          OneStep(vm, resume);
          if o.ownerEnabled && fate.power != Unknown && Promised(vm.record.value.row) { PromisedStartIsMade(vm, fate.power); }
          vm := Next(vm, resume);
          run := [resume];
        }
      }
      result := if fate.readBack && vm.record.Some? then Applied else AppliedStateUnavailable;
    }

    /** Extend by days on behalf of a settled payment, as a run of the
        lifecycle. Rejected: neither the receipt nor the time is there, and no
        step of the run is this extension. Applied, with or without a readable
        state: both are there, once. The outcome stays open only when the
        reconciliation itself failed. */
    method Extend(o: Purchase, days: int, fate: Fate) returns (result: Result, ghost run: seq<Step>)
      requires Inv(vm) && Payable(vm, o) && Unrelated(fate.others, o.id) && (days > 0 ==> o.days == days)
      modifies this
      ensures LedTo(old(vm), run, vm) && Inv(vm)
      ensures result.InvalidDays? <==> days <= 0
      ensures result.InvalidDays? ==> run == []
      ensures result.Rejected? ==> Unrelated(run, o.id) && !HasReceipt(GrantsOf(vm), o.id)
      ensures result.Rejected? ==> old(Staged(vm, o)).None? || fate.commit.NotApplied?
      ensures result.Applied? || result.AppliedStateUnavailable? ==>
                && Commits(run, o)
                && old(Staged(vm, o)).Some? && TimeBought(old(Staged(vm, o)).value, vm, o)
                && vm.record.value.row.expiresAt >= Later(old(vm).record.value.row.expiresAt, old(vm).clock, days)
      ensures result.Rejected? <==>
                days > 0 && (old(Staged(vm, o)).None? || (fate.commit.NotApplied? && fate.rolledBack && fate.relocked))
      ensures days > 0 && old(Staged(vm, o)).Some? && fate.commit.Acknowledged? ==>
                result.Applied? || result.AppliedStateUnavailable?
      ensures result.OutcomeUnknown? <==>
                days > 0 && old(Staged(vm, o)).Some? && !fate.commit.Acknowledged? && (!fate.rolledBack || !fate.relocked)
    {
      run := [];
      if days <= 0 { return InvalidDays, run; }
      var staged := Staged(vm, o);
      if staged.None? { return Rejected, run; }
      StagedIsEnabled(vm, o);
      var paused := staged.value.row.status.Suspended? && staged.value.row.guest.Some?;
      var verdict;
      verdict, run := CommitExtension(o, fate);
      SettledStays(old(vm), run);
      if verdict.Undetermined? { return OutcomeUnknown, run; }
      if verdict.Absent? { return Rejected, run; }
      ghost var mid, more := vm, [];
      result, more := FinishExtension(o, paused, fate);
      AppliedOutcome(old(vm), o, run, mid, more, vm);
      run := run + more;
    }
  }
}
