/** Where a succeeded receipt comes from: over whole runs, from a success report
    of the guest itself, made in time and while the receipt was waiting for it. */
module Reports {
  import opened Records
  import opened Transactions
  import opened Lifecycle
  import opened Invariant
  import opened Preservation

  /** The receipt of this generation reads succeeded. */
  predicate SucceededAs(s: VM, generation: nat) {
    && s.record.Some? && s.record.value.receipt.Some?
    && s.record.value.receipt.value.generation == generation && s.record.value.receipt.value.outcome == Succeeded
  }

  /** This step is a success report of guest g for that generation: the receipt
      is waiting for it and its deadline has not passed. */
  predicate ReportsSuccess(s: VM, t: Step, g: Guest, generation: nat) {
    && t == Outside(Report(g, true)) && g in s.guests && s.guests[g].booted && s.guests[g].generation == generation
    && s.record.Some? && s.record.value.receipt.Some?
    && s.record.value.receipt.value.generation == generation && s.record.value.receipt.value.outcome == Awaiting
    && s.clock <= s.record.value.receipt.value.deadline
  }

  predicate ReportedWithin(s: VM, steps: seq<Step>, g: Guest, generation: nat)
    requires Run(s, steps)
    decreases |steps|
  {
    steps != [] &&
    (ReportsSuccess(s, steps[0], g, generation) || ReportedWithin(Next(s, steps[0]), steps[1..], g, generation))
  }

  // ----- only a report decides -----

  /** What a step other than a report may do to the receipt. */
  predicate KeepsVerdict(s: VM, s': VM) {
    && s'.generations >= s.generations
    && (s'.record.Some? && s'.record.value.receipt.Some? ==>
          var after := s'.record.value.receipt.value;
          || (after.generation >= s.generations && after.outcome == Awaiting)
          || (s.record.Some? && s.record.value.receipt.Some?
              && s.record.value.receipt.value.generation == after.generation
              && s.record.value.receipt.value.outcome == after.outcome))
  }

  lemma ReserveKeepsVerdict(s: VM, t: ReserveStep)
    requires ReserveEnabled(s, t)
    ensures KeepsVerdict(s, ReserveNext(s, t))
  {
  }

  lemma AttemptKeepsVerdict(s: VM, t: AttemptStep)
    requires AttemptEnabled(s, t)
    ensures KeepsVerdict(s, AttemptNext(s, t))
  {
  }

  lemma DeleteKeepsVerdict(s: VM, t: DeleteStep)
    requires DeleteEnabled(s, t)
    ensures KeepsVerdict(s, DeleteNext(s, t))
  {
    if t.Accept? { AnswerOf(s.record.value, t.request, t.keepExpired, t.capture, s.clock); }
  }

  lemma PowerKeepsVerdict(s: VM, t: PowerStep)
    requires PowerEnabled(s, t)
    ensures KeepsVerdict(s, PowerNext(s, t))
  {
  }

  lemma OutsideKeepsVerdict(s: VM, t: WorldStep)
    requires WorldEnabled(s, t) && !t.Report?
    ensures KeepsVerdict(s, WorldNext(s, t))
  {
  }

  lemma OnlyReportsDecide(s: VM, t: Step)
    requires Enabled(s, t) && !(t.Outside? && t.world.Report?)
    ensures KeepsVerdict(s, Next(s, t))
  {
    match t
    case Reserving(r) => ReserveKeepsVerdict(s, r);
    case Provisioner(a) => AttemptKeepsVerdict(s, a);
    case Deleting(d) => DeleteKeepsVerdict(s, d);
    case Managing(p) => PowerKeepsVerdict(s, p);
    case Outside(w) => OutsideKeepsVerdict(s, w);
  }

  lemma SuccessIsReported(s: VM, t: Step, generation: nat)
    requires Enabled(s, t) && !SucceededAs(s, generation) && SucceededAs(Next(s, t), generation)
    ensures t.Outside? && t.world.Report? && ReportsSuccess(s, t, t.world.guest, generation)
  {
    if !(t.Outside? && t.world.Report?) { OnlyReportsDecide(s, t); }
  }

  // ----- one start for each generation -----

  /** At most one guest of a generation is ever told to start, and none while its
      clone is still to come. */
  predicate OneStart(s: VM) {
    && (forall g, h | g in s.guests && h in s.guests && s.guests[g].booted && s.guests[h].booted
                      && s.guests[g].generation == s.guests[h].generation :: g == h)
    && (s.attempt.Creating? || s.attempt.Booting? ==>
          forall h | h in s.guests && s.guests[h].booted :: s.guests[h].generation != s.attempt.generation)
    && (s.attempt.Booting? ==>
          s.attempt.guest in s.guests && s.guests[s.attempt.guest].generation == s.attempt.generation)
  }

  /** Guests stay known, with their generation, and what was started stays so. */
  predicate StartsKept(s: VM, s': VM) {
    forall g | g in s.guests ::
      g in s'.guests && s'.guests[g].generation == s.guests[g].generation && (s.guests[g].booted ==> s'.guests[g].booted)
  }

  /** No guest is told to start for the first time. */
  predicate NoneStarted(s: VM, s': VM) {
    forall g | g in s'.guests && s'.guests[g].booted :: g in s.guests && s.guests[g].booted
  }

  lemma ReserveStartsNone(s: VM, t: ReserveStep)
    requires ReserveEnabled(s, t)
    ensures StartsKept(s, ReserveNext(s, t)) && NoneStarted(s, ReserveNext(s, t)) && ReserveNext(s, t).attempt == s.attempt
  {
  }

  lemma DeleteStartsNone(s: VM, t: DeleteStep)
    requires DeleteEnabled(s, t)
    ensures StartsKept(s, DeleteNext(s, t)) && NoneStarted(s, DeleteNext(s, t)) && DeleteNext(s, t).attempt == s.attempt
  {
  }

  lemma PowerStartsNone(s: VM, t: PowerStep)
    requires PowerEnabled(s, t) && (RowGuest(s).Some? ==> RowGuest(s).value in s.guests && s.guests[RowGuest(s).value].booted)
    ensures StartsKept(s, PowerNext(s, t)) && NoneStarted(s, PowerNext(s, t)) && PowerNext(s, t).attempt == s.attempt
  {
  }

  lemma OutsideStartsNone(s: VM, t: WorldStep)
    requires WorldEnabled(s, t)
    ensures StartsKept(s, WorldNext(s, t)) && NoneStarted(s, WorldNext(s, t)) && WorldNext(s, t).attempt == s.attempt
  {
  }

  lemma RegenerateKeepsOneStart(s: VM, t: AttemptStep)
    requires MachinesSound(s) && OneStart(s) && AttemptEnabled(s, t) && t.Regenerate?
    ensures OneStart(AttemptNext(s, t)) && StartsKept(s, AttemptNext(s, t))
  {
    assert forall h | h in s.guests :: s.guests[h].generation < s.generations;
  }

  lemma CreateKeepsOneStart(s: VM, t: AttemptStep)
    requires OneStart(s) && AttemptEnabled(s, t) && t.Create?
    ensures OneStart(AttemptNext(s, t)) && StartsKept(s, AttemptNext(s, t))
  {
  }

  lemma BootKeepsOneStart(s: VM, t: AttemptStep)
    requires OneStart(s) && AttemptEnabled(s, t) && (t.Boot? || t.BootFailed?)
    ensures OneStart(AttemptNext(s, t)) && StartsKept(s, AttemptNext(s, t))
  {
  }

  predicate OnlyStops(t: AttemptStep) { t.FoundMany? || t.Check? || t.Finalize? || t.HandleFailure? }

  lemma StopKeepsOneStart(s: VM, t: AttemptStep)
    requires AttemptEnabled(s, t) && OnlyStops(t)
    ensures StartsKept(s, AttemptNext(s, t)) && NoneStarted(s, AttemptNext(s, t))
    ensures !AttemptNext(s, t).attempt.Creating? && !AttemptNext(s, t).attempt.Booting?
  {
  }

  lemma OtherKeepsOneStart(s: VM, t: AttemptStep)
    requires AttemptEnabled(s, t) && !OnlyStops(t) && !t.Regenerate? && !t.Create? && !t.Boot? && !t.BootFailed?
    ensures AttemptNext(s, t).guests == s.guests
    ensures AttemptNext(s, t).attempt == s.attempt || !(AttemptNext(s, t).attempt.Creating? || AttemptNext(s, t).attempt.Booting?)
  {
  }

  lemma AttemptKeepsOneStart(s: VM, t: AttemptStep)
    requires MachinesSound(s) && OneStart(s) && AttemptEnabled(s, t)
    ensures OneStart(AttemptNext(s, t)) && StartsKept(s, AttemptNext(s, t))
  {
    if t.Regenerate? { RegenerateKeepsOneStart(s, t); }
    else if t.Create? { CreateKeepsOneStart(s, t); }
    else if t.Boot? || t.BootFailed? { BootKeepsOneStart(s, t); }
    else if OnlyStops(t) { StopKeepsOneStart(s, t); }
    else { OtherKeepsOneStart(s, t); }
  }

  lemma StepKeepsOneStart(s: VM, t: Step)
    requires Inv(s) && OneStart(s) && Enabled(s, t)
    ensures OneStart(Next(s, t)) && StartsKept(s, Next(s, t))
  {
    match t
    case Reserving(r) => ReserveStartsNone(s, r);
    case Provisioner(a) => AttemptKeepsOneStart(s, a);
    case Deleting(d) => DeleteStartsNone(s, d);
    case Managing(p) => PowerStartsNone(s, p);
    case Outside(w) => OutsideStartsNone(s, w);
  }

  lemma {:induction false} RunKeepsOneStart(s: VM, steps: seq<Step>)
    requires Inv(s) && OneStart(s) && Run(s, steps) && OrderlyRun(s, steps)
    ensures OneStart(After(s, steps)) && StartsKept(s, After(s, steps))
    decreases |steps|
  {
    if steps != [] {
      StepKeeps(s, steps[0]);
      StepKeepsOneStart(s, steps[0]);
      RunKeepsOneStart(Next(s, steps[0]), steps[1..]);
    }
  }

  // ----- over whole runs -----

  /** If a run ends with the receipt of a started guest succeeded, that guest has
      reported success in it. */
  lemma {:induction false} SuccessWasReported(s: VM, steps: seq<Step>, g: Guest, generation: nat)
    requires Inv(s) && OneStart(s) && Run(s, steps) && OrderlyRun(s, steps)
    requires !SucceededAs(s, generation) && SucceededAs(After(s, steps), generation)
    requires var last := After(s, steps); g in last.guests && last.guests[g].booted && last.guests[g].generation == generation
    ensures ReportedWithin(s, steps, g, generation)
    decreases |steps|
  {
    if SucceededAs(Next(s, steps[0]), generation) {
      SuccessIsReported(s, steps[0], generation);
      RunKeepsOneStart(s, steps);
    } else {
      StepKeeps(s, steps[0]);
      StepKeepsOneStart(s, steps[0]);
      SuccessWasReported(Next(s, steps[0]), steps[1..], g, generation);
    }
  }

  /** This generation is over: it failed, or another one has taken its place. */
  predicate NeverSucceeds(s: VM, generation: nat) {
    && generation < s.generations
    && (s.record.Some? && s.record.value.receipt.Some? ==>
          s.record.value.receipt.value.generation != generation || s.record.value.receipt.value.outcome == SetupFailed)
  }

  lemma StepNeverSucceeds(s: VM, t: Step, generation: nat)
    requires NeverSucceeds(s, generation) && Enabled(s, t)
    ensures NeverSucceeds(Next(s, t), generation)
  {
    if !(t.Outside? && t.world.Report?) { OnlyReportsDecide(s, t); }
  }

  lemma {:induction false} RunNeverSucceeds(s: VM, steps: seq<Step>, generation: nat)
    requires NeverSucceeds(s, generation) && Run(s, steps)
    ensures NeverSucceeds(After(s, steps), generation)
    decreases |steps|
  {
    if steps != [] {
      StepNeverSucceeds(s, steps[0], generation);
      RunNeverSucceeds(Next(s, steps[0]), steps[1..], generation);
    }
  }

  /** After an accepted report of a failure no continuation makes the receipt of
      that generation succeed. */
  lemma FailureReportIsFinal(s: VM, g: Guest, steps: seq<Step>)
    requires Reachable(s) && Enabled(s, Outside(Report(g, false))) && Run(Next(s, Outside(Report(g, false))), steps)
    ensures !SucceededAs(After(Next(s, Outside(Report(g, false))), steps), s.guests[g].generation)
  {
    ReachableInv(s);
    RunNeverSucceeds(Next(s, Outside(Report(g, false))), steps, s.guests[g].generation);
  }
}
