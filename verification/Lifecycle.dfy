/** One VM as a concurrent system: its durable record, the guests the provider
    holds for it, the provisioning attempt that owns it, and the deletions in
    flight. Every step is one locked transaction, one provider call or one
    event outside the service, and any steps may interleave.

    At most one attempt is alive at a time (the attempt lock); a crash returns
    it to Idle wherever it stands. Deletions form a set from which nothing is
    taken: a call may stall for ever, repeat itself or be abandoned. */
module Lifecycle {
  import opened Records
  import opened Transactions

  // ----- state -----

  /** booted: a start was sent to this guest at some time. */
  datatype Machine = Machine(generation: nat, address: nat, present: bool, booted: bool, running: bool)

  type Machines = map<Guest, Machine>

  /** Where the provisioning attempt stands between two of its steps. */
  datatype Attempt =
    | Idle
    | Preparing(prefix: nat)
    | Recovering(prefix: nat, generation: nat, received: bool)
    | Adopting(generation: nat, guest: Guest)
    | Replacing(prefix: nat)
    | Creating(prefix: nat, generation: nat)
    | Booting(generation: nat, guest: Guest)
    | Recording(generation: nat, guest: Guest)
    | Checking(guest: Guest)
    | Reading(guest: Guest)
    | Waiting(guest: Guest, generation: nat)
    | Finalizing(guest: Guest, generation: nat)
    | Failing
    | Refunding

  datatype Stage = Accepted | Resolved(unresolved: bool) | Cleaned(addressFree: bool)

  datatype Deletion = Deletion(order: Order, stage: Stage)

  datatype Config = Config(grace: nat, window: nat)

  /** born: the first expiry, set by the only insert of this VM id.
      requested: the address carried by each clone request ever sent.
      cutoffs: expiry bounds handed out by the expiry sweep.
      destroyed: guests ever passed to the provider's destroy call. */
  datatype VM = VM(
    config: Config,
    record: Option<Record>,
    born: Option<Time>,
    guests: Machines,
    generations: nat,
    requested: map<nat, nat>,
    dispatched: bool,
    attempt: Attempt,
    deletions: set<Deletion>,
    cutoffs: set<Time>,
    destroyed: set<Guest>,
    refunds: nat,
    clock: Time)

  predicate Fresh(s: VM) {
    && s.record == None && s.born == None && s.guests == map[] && s.requested == map[] && !s.dispatched
    && s.attempt == Idle && s.deletions == {} && s.cutoffs == {} && s.destroyed == {} && s.refunds == 0
  }

  // ----- the provider -----

  function Halted(guests: Machines, g: Guest): Machines {
    if g in guests then guests[g := guests[g].(running := false)] else guests
  }

  function HaltedIf(guests: Machines, g: Option<Guest>, stop: bool): Machines {
    if g.Some? && stop then Halted(guests, g.value) else guests
  }

  function Gone(guests: Machines, g: Guest): Machines {
    if g in guests then guests[g := guests[g].(present := false, running := false)] else guests
  }

  function Started(guests: Machines, g: Guest): Machines {
    if g in guests then guests[g := guests[g].(booted := true, running := guests[g].present)] else guests
  }

  /** Power answers are truthful when they say On or Off. */
  predicate PowerSeen(s: VM, g: Option<Guest>, power: Power) {
    match power
    case On => g.Some? && g.value in s.guests && s.guests[g.value].running
    case Off => g.Some? && g.value in s.guests && s.guests[g.value].present && !s.guests[g.value].running
    case Unknown => true
  }

  function Candidates(s: VM, generation: nat): set<Guest> {
    set g | g in s.guests && s.guests[g].present && s.guests[g].generation == generation
  }

  function Deadline(s: VM): Time { s.clock + s.config.window }

  function RowGuest(s: VM): Option<Guest> { if s.record.None? then None else s.record.value.row.guest }

  // ----- reservation, payment and handoff -----

  datatype ReserveStep =
    | Insert(owner: Owner, prefix: nat, days: nat, ready: bool)
    | Replay(ready: bool)
    | Activate(wallet: nat, account: Option<nat>, ready: bool)
    | Release
    | Purge
    | Publish
    | MarkFailed
    | Spawn

  /** Spawn is reached only through callers that have published the handoff or
      have read it as not pending next to a receipt. */
  predicate ReserveEnabled(s: VM, t: ReserveStep) {
    match t
    case Insert(_, _, _, _) => s.record.None? && s.born.None?
    case Replay(ready) => s.record.Some? && Replayed(s.record.value, ready, s.generations, Deadline(s)).Some?
    case Activate(w, a, ready) => s.record.Some? && Activated(s.record.value, w, a, ready, s.generations, Deadline(s)).Some?
    case Release => s.record.Some? && Releasable(s.record.value.row)
    case Purge => s.record.Some? && Purgeable(s.record.value.row)
    case Publish => s.record.Some?
    case MarkFailed => s.record.Some?
    case Spawn => s.record.Some? && s.record.value.row.handoff.HandedOff?
                  && PrepareDispatch(s.record.value, s.generations, Deadline(s)).Some?
  }

  function ReserveNext(s: VM, t: ReserveStep): VM
    requires ReserveEnabled(s, t)
  {
    match t
    case Insert(owner, prefix, days, ready) =>
      var expiry := s.clock + days * DAY;
      s.(record := Some(Inserted(owner, prefix, expiry, ready, s.generations, Deadline(s))),
         born := Some(expiry), generations := s.generations + 1)
    case Replay(ready) =>
      s.(record := Replayed(s.record.value, ready, s.generations, Deadline(s)), generations := s.generations + 1)
    case Activate(w, a, ready) =>
      s.(record := Activated(s.record.value, w, a, ready, s.generations, Deadline(s)), generations := s.generations + 1)
    case Release => s.(record := None)
    case Purge => s.(record := None)
    case Publish => s.(record := Some(PublishedHandoff(s.record.value)))
    case MarkFailed => s.(record := Some(MarkedFailed(s.record.value)))
    case Spawn =>
      s.(record := PrepareDispatch(s.record.value, s.generations, Deadline(s)),
         generations := s.generations + 1, dispatched := true)
  }

  // ----- the provisioning attempt -----

  datatype AttemptStep =
    | Begin
    | ReadReceipt
    | FoundNone
    | FoundOne(guest: Guest, power: Power)
    | FoundMany
    | Adopt
    | Regenerate
    | Create(guest: Guest)
    | Boot
    | BootFailed(sent: bool, deleted: bool)
    | RecordGuest
    | Check(ownerEnabled: bool, stopped: bool)
    | ReadGeneration
    | PollReport
    | Finalize(power: Power, stopped: bool, acked: bool)
    | HandleFailure(power: Power, stopped: bool, acked: bool)
    | Refund(owed: bool)
    | Raise
    | Crash

  predicate AttemptEnabled(s: VM, t: AttemptStep) {
    match t
    case Begin => s.attempt.Idle? && s.dispatched && s.record.Some? && s.record.value.row.status.Provisioning?
    case ReadReceipt => s.attempt.Preparing?
    case FoundNone => s.attempt.Recovering? && Candidates(s, s.attempt.generation) == {}
    case FoundOne(g, power) =>
      s.attempt.Recovering? && Candidates(s, s.attempt.generation) == {g} && PowerSeen(s, Some(g), power)
    case FoundMany =>
      s.attempt.Recovering? && exists g, h ::
        g in Candidates(s, s.attempt.generation) && h in Candidates(s, s.attempt.generation) && g != h
    case Adopt => s.attempt.Adopting?
    case Regenerate => s.attempt.Replacing?
    case Create(g) => s.attempt.Creating? && g !in s.guests
    case Boot => s.attempt.Booting?
    case BootFailed(_, _) => s.attempt.Booting?
    case RecordGuest => s.attempt.Recording?
    case Check(_, _) => s.attempt.Checking?
    case ReadGeneration => s.attempt.Reading?
    case PollReport => s.attempt.Waiting?
    case Finalize(power, _, _) => s.attempt.Finalizing? && PowerSeen(s, Some(s.attempt.guest), power)
    case HandleFailure(power, _, _) => s.attempt.Failing? && PowerSeen(s, RowGuest(s), power)
    case Refund(_) => s.attempt.Refunding?
    case Raise => !s.attempt.Idle? && !s.attempt.Refunding?
    case Crash => true
  }

  function AttemptNext(s: VM, t: AttemptStep): VM
    requires AttemptEnabled(s, t)
  {
    match t
    case Begin =>
      var row := s.record.value.row;
      s.(attempt := if row.guest.Some? then Checking(row.guest.value)
                    else if row.prefix.None? then Failing else Preparing(row.prefix.value))
    case ReadReceipt => s.(attempt := ReceiptRead(s, s.attempt.prefix))
    case FoundNone => s.(attempt := if s.attempt.received then Failing else Replacing(s.attempt.prefix))
    case FoundOne(g, power) =>
      s.(attempt := match power
                    case On => Adopting(s.attempt.generation, g)
                    case Off => Failing
                    case Unknown => Idle)
    case FoundMany =>
      s.(guests := map g | g in s.guests ::
                     if g in Candidates(s, s.attempt.generation) then s.guests[g].(running := false) else s.guests[g],
         attempt := Idle)
    case Adopt =>
      if s.record.None? then s.(attempt := Idle)
      else (match GuestAdopted(s.record.value, s.attempt.guest, s.attempt.generation)
        case None => s.(attempt := Idle)
        case Some(rec) => s.(record := Some(rec), attempt := Checking(s.attempt.guest)))
    case Regenerate =>
      if s.record.None? then s.(attempt := Failing)
      else (match FreshGeneration(s.record.value, s.generations, Deadline(s))
        case None => s.(attempt := Failing)
        case Some(rec) =>
          s.(record := Some(rec), generations := s.generations + 1,
             requested := s.requested[s.generations := s.attempt.prefix],
             attempt := Creating(s.attempt.prefix, s.generations)))
    case Create(g) =>
      s.(guests := s.guests[g := Machine(s.attempt.generation, s.attempt.prefix, true, false, false)],
         attempt := Booting(s.attempt.generation, g))
    case Boot =>
      s.(guests := Started(s.guests, s.attempt.guest), attempt := Recording(s.attempt.generation, s.attempt.guest))
    case BootFailed(sent, deleted) =>
      var tried := if sent then Started(s.guests, s.attempt.guest) else s.guests;
      s.(guests := if deleted then Gone(tried, s.attempt.guest) else tried, attempt := Failing)
    case RecordGuest =>
      if s.record.None? then s.(attempt := Checking(s.attempt.guest))
      else (match GuestRecorded(s.record.value, s.attempt.guest)
        case None => s.(attempt := Idle)
        case Some(rec) => s.(record := Some(rec), attempt := Checking(s.attempt.guest)))
    case Check(ownerEnabled, stopped) =>
      if s.record.None? then s.(attempt := Idle)
      else (match RestrictionOf(s.record.value.row, s.attempt.guest, ownerEnabled)
        case Continue => s.(attempt := Reading(s.attempt.guest))
        case Stop => s.(attempt := Idle)
        case DeleteGuest => s.(attempt := Idle)
        case StopGuest => s.(guests := HaltedIf(s.guests, Some(s.attempt.guest), stopped), attempt := Idle))
    case ReadGeneration =>
      s.(attempt := if s.record.None? || s.record.value.receipt.None? then Failing
                    else Waiting(s.attempt.guest, s.record.value.receipt.value.generation))
    case PollReport =>
      var receipt := if s.record.None? then None else s.record.value.receipt;
      s.(attempt := match Polled(receipt, s.attempt.generation, s.clock)
                    case Wait => s.attempt
                    case Done => Finalizing(s.attempt.guest, s.attempt.generation)
                    case Superseded => Idle
                    case Bad => Failing)
    case Finalize(power, stopped, acked) =>
      if s.record.None? then s.(attempt := Idle)
      else
        var remain := MustRemainSuspended(s.record.value.row);
        (match Finalized(s.record.value, s.attempt.guest, s.attempt.generation, power, stopped, s.clock)
         case Abandon => s.(attempt := Idle)
         case Stale => s.(attempt := Idle)
         case Retry => s.(attempt := Idle)
         case Fail => s.(attempt := Failing)
         case Delivered(rec) =>
           s.(record := Some(rec), guests := HaltedIf(s.guests, Some(s.attempt.guest), remain && power.On?),
              attempt := if acked || remain then Idle else Failing))
    case HandleFailure(power, stopped, acked) =>
      if s.record.None? then s.(attempt := Idle)
      else (match FailureRecorded(s.record.value, power, stopped)
        case None => s.(attempt := Idle)
        case Some(rec) =>
          s.(record := Some(rec), guests := HaltedIf(s.guests, RowGuest(s), power.On?),
             attempt := if acked then Refunding else Idle))
    case Refund(owed) => s.(refunds := s.refunds + (if owed then 1 else 0), attempt := Idle)
    case Raise => s.(attempt := Failing)
    case Crash => s.(attempt := Idle)
  }

  function ReceiptRead(s: VM, prefix: nat): Attempt {
    if s.record.None? then Idle
    else if s.record.value.row.guest.Some? then Checking(s.record.value.row.guest.value)
    else (match s.record.value.receipt
      case None => Replacing(prefix)
      case Some(receipt) => Recovering(prefix, receipt.generation, !receipt.outcome.Awaiting?))
  }

  // ----- deletion -----

  datatype DeleteStep =
    | Accept(request: DestroyRequest, keepExpired: bool, capture: Option<Manifest>)
    | Resolve(deletion: Deletion)
    | Protect(deletion: Deletion, protected: bool)
    | Destroy(deletion: Deletion, dnsFree: bool)
    | DestroyFails(deletion: Deletion)
    | Complete(deletion: Deletion)
    | ReleasePrefix

  predicate DeleteEnabled(s: VM, t: DeleteStep) {
    match t
    case Accept(request, _, _) => s.record.Some? && (request.cutoff.Some? ==> request.cutoff.value in s.cutoffs)
    case Resolve(d) => d in s.deletions && d.stage.Accepted?
    case Protect(d, _) => d in s.deletions && d.stage.Resolved? && d.order.guest.Some? && d.order.manifest.Some? && s.record.Some?
    case Destroy(d, _) => d in s.deletions && d.stage.Resolved? && (d.order.guest.None? || d.order.manifest.None?)
    case DestroyFails(d) => d in s.deletions && d.stage.Resolved? && DestroyCall(d.order).Some?
    case Complete(d) => d in s.deletions && d.stage.Cleaned?
    case ReleasePrefix => s.record.Some?
  }

  /** The guest an order passes to the provider's destroy call. */
  function DestroyCall(order: Order): Option<Guest> {
    if order.manifest.None? && !order.verified then order.guest else None
  }

  function WithDestroyCall(s: VM, order: Order, completed: bool): VM {
    match DestroyCall(order)
    case None => s
    case Some(g) =>
      s.(destroyed := s.destroyed + {g}, guests := if completed then Gone(s.guests, g) else s.guests)
  }

  function AddressFree(order: Order, unresolved: bool): bool {
    order.guest.Some? || (!order.provisioning && !unresolved)
  }

  function DeleteNext(s: VM, t: DeleteStep): VM
    requires DeleteEnabled(s, t)
  {
    match t
    case Accept(request, keepExpired, capture) =>
      var (rec, answer) := DeletionClaimed(s.record.value, request, keepExpired, capture, s.clock);
      s.(record := Some(rec),
         deletions := if answer.Proceed? then s.deletions + {Deletion(answer.order, Accepted)} else s.deletions)
    case Resolve(d) =>
      var unresolved := d.order.guest.None? && s.record.Some? && s.record.value.receipt.Some?;
      s.(deletions := s.deletions + {Deletion(d.order, Resolved(unresolved))})
    case Protect(d, protected) =>
      var (rec, answer) := RetentionProtected(s.record.value, d.order, protected);
      s.(record := Some(rec), guests := HaltedIf(s.guests, d.order.guest, rec != s.record.value))
    case Destroy(d, dnsFree) =>
      WithDestroyCall(s, d.order, true).(
        deletions := s.deletions + {Deletion(d.order, Cleaned(dnsFree && AddressFree(d.order, d.stage.unresolved)))})
    case DestroyFails(d) => WithDestroyCall(s, d.order, false)
    case Complete(d) =>
      if s.record.None? then s
      else s.(record := Some(DeletionFinished(s.record.value, d.order.guest, d.stage.addressFree)))
    case ReleasePrefix => s.(record := Some(PrefixReleased(s.record.value)))
  }

  // ----- expiry, extension, power, ownership and recovery -----

  datatype PowerStep =
    | ExpireSuspend
    | ExpireDelete
    | Extend(id: nat, days: nat, ownerEnabled: bool, power: Power)
    | AdminExtend(id: nat, days: nat)
    | ResumeExtension(ownerEnabled: bool, power: Power)
    | ResumeTransfer(ownerEnabled: bool, power: Power)
    | AdminPower(action: PowerAction, ownerEnabled: bool, power: Power)
    | Reboot(authorized: bool)
    | SuspendAccount(account: nat, power: Power)
    | ResumeAccount(account: nat, power: Power)
    | Transfer(account: nat, wallet: nat)
    | ClaimOwner(account: nat)
    | Detach
    | PrepareRestore(operation: nat, days: nat)
    | AuthorizeRestore(operation: nat, ownerEnabled: bool)
    | CompleteRestore(operation: nat, ownerEnabled: bool)

  /** The record after a power step, absent when the step is refused or rolled
      back; whether the provider was told to start or reboot the guest; and
      whether it was told to stop it. */
  datatype Effect = Effect(record: Option<Record>, starts: bool, stops: bool)

  function Resumed(r: Option<Resumption>): Effect {
    if r.None? then Effect(None, false, false) else Effect(Some(r.value.record), r.value.started, false)
  }

  function PowerEffect(s: VM, rec: Record, t: PowerStep): Effect {
    match t
    case ExpireSuspend =>
      if ExpiryOf(rec.row, s.clock, s.config.grace).SuspendGuest? then Effect(Some(SuspendedForExpiry(rec)), false, true)
      else Effect(None, false, false)
    case ExpireDelete => Effect(Some(rec), false, false)
    case Extend(id, days, en, power) => Effect(Extended(rec, id, days, en, power, s.clock), false, false)
    case AdminExtend(id, days) => Effect(AdminExtended(rec, id, days, s.clock), false, false)
    case ResumeExtension(en, power) => Resumed(Some(ExtensionResumed(rec, en, power)))
    case ResumeTransfer(en, power) => Resumed(TransferResumed(rec, en, power, s.clock, s.generations, Deadline(s)))
    case AdminPower(action, en, power) =>
      var r := AdminPowered(rec, action, en, power, s.clock);
      Resumed(r).(stops := r.Some? && !PowersOn(action))
    case Reboot(authorized) =>
      if Rebootable(rec.row, authorized) then Effect(Some(rec), true, false) else Effect(None, false, false)
    case SuspendAccount(account, power) =>
      var r := AccountSuspended(rec, account, power);
      Effect(r, false, r.Some? && power.On? && rec.row.owner.account == Some(account) && !rec.row.status.Destroyed?)
    case ResumeAccount(account, power) => Resumed(AccountResumed(rec, account, power, s.clock, s.generations, Deadline(s)))
    case Transfer(account, wallet) => Effect(if wallet == 0 then None else Transferred(rec, account, wallet), false, false)
    case ClaimOwner(account) => Effect(OwnershipClaimed(rec, account), false, false)
    case Detach => Effect(Detached(rec), false, false)
    case PrepareRestore(op, days) => Effect(RestorePrepared(rec, op, days, s.clock), false, false)
    case AuthorizeRestore(op, en) => Effect(RestoreAuthorized(rec, op, en, s.clock), false, false)
    case CompleteRestore(op, en) => Effect(RestoreCompleted(rec, op, en, s.clock), false, false)
  }

  function ObservedPower(t: PowerStep): Power {
    match t
    case Extend(_, _, _, power) => power
    case ResumeExtension(_, power) => power
    case ResumeTransfer(_, power) => power
    case AdminPower(_, _, power) => power
    case SuspendAccount(_, power) => power
    case ResumeAccount(_, power) => power
    case _ => Unknown
  }

  predicate PowerEnabled(s: VM, t: PowerStep) {
    && s.record.Some?
    && PowerSeen(s, s.record.value.row.guest, ObservedPower(t))
    && PowerEffect(s, s.record.value, t).record.Some?
    && (t.Extend? ==> !HasReceipt(s.record.value.grants, t.id))
    && (t.ExpireDelete? ==> ExpiryOf(s.record.value.row, s.clock, s.config.grace).DeleteGuestAt?)
  }

  /** A forced restart of a guest that is off changes nothing. */
  function PoweredGuests(s: VM, effect: Effect, t: PowerStep): Machines {
    var g := RowGuest(s);
    if effect.stops then HaltedIf(s.guests, g, true)
    else if effect.starts && g.Some? && !t.Reboot? && !(t.AdminPower? && t.action.RebootGuest?)
    then Started(s.guests, g.value)
    else s.guests
  }

  function PowerNext(s: VM, t: PowerStep): VM
    requires PowerEnabled(s, t)
  {
    var effect := PowerEffect(s, s.record.value, t);
    s.(record := effect.record, guests := PoweredGuests(s, effect, t), generations := s.generations + 1,
       cutoffs := if t.ExpireDelete? then s.cutoffs + {s.clock - s.config.grace} else s.cutoffs)
  }

  // ----- events outside the service -----

  /** LateCreate: an old clone request lands, possibly twice, and its guest is
      halted. LateStart: a start sent earlier takes effect. Halt and Vanish: a
      guest stops or is removed by itself or by an operator. */
  datatype WorldStep =
    | Report(guest: Guest, succeeded: bool)
    | LateCreate(guest: Guest, generation: nat)
    | LateStart(guest: Guest)
    | Halt(guest: Guest)
    | Vanish(guest: Guest)
    | Tick(now: Time)

  predicate WorldEnabled(s: VM, t: WorldStep) {
    match t
    case Report(g, ok) =>
      && g in s.guests && s.guests[g].booted && s.record.Some? && s.record.value.receipt.Some?
      && ReportAccepted(s.record.value.receipt.value, s.guests[g].generation, ok, s.clock).Some?
    case LateCreate(g, generation) => g !in s.guests && generation in s.requested
    case LateStart(g) => g in s.guests && s.guests[g].booted
    case Halt(g) => g in s.guests
    case Vanish(g) => g in s.guests
    case Tick(now) => now >= s.clock
  }

  function WorldNext(s: VM, t: WorldStep): VM
    requires WorldEnabled(s, t)
  {
    match t
    case Report(g, ok) =>
      s.(record := Some(s.record.value.(receipt :=
           ReportAccepted(s.record.value.receipt.value, s.guests[g].generation, ok, s.clock))))
    case LateCreate(g, generation) =>
      s.(guests := s.guests[g := Machine(generation, s.requested[generation], true, false, false)])
    case LateStart(g) => s.(guests := Started(s.guests, g))
    case Halt(g) => s.(guests := Halted(s.guests, g))
    case Vanish(g) => s.(guests := Gone(s.guests, g))
    case Tick(now) => s.(clock := now)
  }

  // ----- the whole system -----

  datatype Step =
    | Reserving(reserve: ReserveStep)
    | Provisioner(attempting: AttemptStep)
    | Deleting(delete_: DeleteStep)
    | Managing(power: PowerStep)
    | Outside(world: WorldStep)

  predicate Enabled(s: VM, t: Step) {
    match t
    case Reserving(r) => ReserveEnabled(s, r)
    case Provisioner(a) => AttemptEnabled(s, a)
    case Deleting(d) => DeleteEnabled(s, d)
    case Managing(p) => PowerEnabled(s, p)
    case Outside(w) => WorldEnabled(s, w)
  }

  function Next(s: VM, t: Step): VM
    requires Enabled(s, t)
  {
    match t
    case Reserving(r) => ReserveNext(s, r)
    case Provisioner(a) => AttemptNext(s, a)
    case Deleting(d) => DeleteNext(s, d)
    case Managing(p) => PowerNext(s, p)
    case Outside(w) => WorldNext(s, w)
  }

  /** The pre-handoff failure path is taken before the handoff is published. */
  predicate Orderly(s: VM, t: Step) {
    t == Reserving(MarkFailed) && s.record.Some? ==> !s.record.value.row.handoff.HandedOff?
  }

  /** A run: the steps are enabled one after the other from the first state. */
  predicate Run(s: VM, steps: seq<Step>)
    decreases |steps|
  {
    steps == [] || (Enabled(s, steps[0]) && Run(Next(s, steps[0]), steps[1..]))
  }

  predicate OrderlyRun(s: VM, steps: seq<Step>)
    requires Run(s, steps)
    decreases |steps|
  {
    steps == [] || (Orderly(s, steps[0]) && OrderlyRun(Next(s, steps[0]), steps[1..]))
  }

  function After(s: VM, steps: seq<Step>): VM
    requires Run(s, steps)
    decreases |steps|
  {
    if steps == [] then s else After(Next(s, steps[0]), steps[1..])
  }
}
