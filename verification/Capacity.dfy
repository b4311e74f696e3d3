/** Capacity admission: what is measured at the provider and summed from the
    unplaced rows, under a lock shared with the handoff of a row to its clone. */
module Capacity {
  import opened Records

  const MIB: nat := 1024 * 1024
  const GIB: nat := 1024 * 1024 * 1024

  datatype Kind = Cpu | Ram | Disk

  /** vCPUs, MB and GB. */
  datatype Size = Size(vcpu: nat, ramMb: nat, diskGb: nat)

  /** The configuration and the hardware, with what foreign guests use. */
  datatype Host = Host(cores: nat, ratioNum: nat, ratioDen: nat, memory: nat, storage: nat,
                       otherVcpu: nat, otherMemory: nat, otherStorage: nat, headroomMb: nat, headroomGb: nat)

  /** Unplaced: PROVISIONING without a guest UUID. Closed: failed or ended
      before a UUID was recorded. */
  datatype RowState = Unplaced | Placed | Closed | Absent

  datatype GuestState = NoGuest | Halted | Live

  datatype Slot = Slot(size: Size, row: RowState, guest: GuestState)

  datatype Measure = Measure(vcpu: nat, freeMemory: nat, freeStorage: nat)

  datatype Verdict = Fits | NoVcpu | NoRam | NoStorage

  function Amount(size: Size, k: Kind): nat {
    match k case Cpu => size.vcpu case Ram => size.ramMb case Disk => size.diskGb
  }

  function Scale(k: Kind): nat { match k case Cpu => 1 case Ram => MIB case Disk => GIB }

  /** A running guest takes vCPU and memory, an existing one takes disk. */
  predicate OnProvider(slot: Slot, k: Kind) { slot.guest.Live? || (k.Disk? && slot.guest.Halted?) }

  predicate Counted(slot: Slot, k: Kind) { slot.row.Unplaced? || OnProvider(slot, k) }

  function Part(taken: bool, slot: Slot, k: Kind): nat { if taken then Amount(slot.size, k) else 0 }

  function Provided(slots: seq<Slot>, k: Kind): nat {
    if slots == [] then 0 else Part(OnProvider(slots[0], k), slots[0], k) + Provided(slots[1..], k)
  }

  function Pending(slots: seq<Slot>, k: Kind): nat {
    if slots == [] then 0 else Part(slots[0].row.Unplaced?, slots[0], k) + Pending(slots[1..], k)
  }

  /** Every machine that is pending or cloned, counted once. */
  function Used(slots: seq<Slot>, k: Kind): nat {
    if slots == [] then 0 else Part(Counted(slots[0], k), slots[0], k) + Used(slots[1..], k)
  }

  function NonNegative(x: int): nat { if x < 0 then 0 else x }

  function CpuLimit(h: Host): nat
    requires h.ratioDen > 0
  {
    h.cores * h.ratioNum / h.ratioDen
  }

  /** What the provider reports. */
  function Measured(h: Host, slots: seq<Slot>): Measure {
    Measure(h.otherVcpu + Provided(slots, Cpu),
            NonNegative(h.memory - h.otherMemory - Provided(slots, Ram) * MIB),
            NonNegative(h.storage - h.otherStorage - Provided(slots, Disk) * GIB))
  }

  function Admission(h: Host, m: Measure, pending: Size, asked: Size): Verdict
    requires h.ratioDen > 0
  {
    if m.vcpu + pending.vcpu + asked.vcpu > CpuLimit(h) then NoVcpu
    else if m.freeMemory - pending.ramMb * MIB - asked.ramMb * MIB < h.headroomMb * MIB then NoRam
    else if m.freeStorage - pending.diskGb * GIB - asked.diskGb * GIB < h.headroomGb * GIB then NoStorage
    else Fits
  }

  function PendingSize(slots: seq<Slot>): Size {
    Size(Pending(slots, Cpu), Pending(slots, Ram), Pending(slots, Disk))
  }

  /** The most that customer machines may take, in bytes for memory and disk. */
  function Budget(h: Host, k: Kind): int
    requires h.ratioDen > 0
  {
    match k
    case Cpu => CpuLimit(h) - h.otherVcpu
    case Ram => h.memory - h.otherMemory - h.headroomMb * MIB
    case Disk => h.storage - h.otherStorage - h.headroomGb * GIB
  }

  /** What a replayed order must share with its row besides the size. */
  datatype Terms = Terms(account: Option<nat>, profile: nat, os: nat, domainMode: nat, domain: Option<nat>)

  datatype Reservation = Reserved(id: nat) | Replayed(id: nat) | Mismatch | Refused(why: Verdict)

  /** The database and the provider as one orchestrator sees them. */
  class Cluster {
    const host: Host
    var slots: seq<Slot>
    var orders: seq<Terms>

    constructor (host: Host)
      requires host.ratioDen > 0
      ensures this.host == host && slots == [] && orders == []
    {
      this.host := host;
      slots, orders := [], [];
    }

    /** Walk over the provider's machines; halted ones hold no vCPU or memory. */
    method MeasureProvider() returns (m: Measure)
      ensures m == Measured(host, slots)
    {
      var vcpu, ram, disk := 0, 0, 0;
      for i := 0 to |slots|
        invariant vcpu + Provided(slots[i..], Cpu) == Provided(slots, Cpu)
        invariant ram + Provided(slots[i..], Ram) == Provided(slots, Ram)
        invariant disk + Provided(slots[i..], Disk) == Provided(slots, Disk)
      {
        assert slots[i..][1..] == slots[i + 1..];
        if slots[i].guest == Live { vcpu, ram := vcpu + slots[i].size.vcpu, ram + slots[i].size.ramMb; }
        if slots[i].guest != NoGuest { disk := disk + slots[i].size.diskGb; }
      }
      m := Measure(host.otherVcpu + vcpu, NonNegative(host.memory - host.otherMemory - ram * MIB),
                   NonNegative(host.storage - host.otherStorage - disk * GIB));
    }

    /** Reservation without interference: a planned row that exists is
        returned as it is, if it is for the same order; otherwise the order
        must fit before its row is added. */
    method ReserveVmWithCapacity(asked: Size, terms: Terms, planned: Option<nat>) returns (r: Reservation)
      requires host.ratioDen > 0 && |orders| == |slots|
      modifies this
      ensures |orders| == |slots|
      ensures var replay := planned.Some? && planned.value < |old(slots)| && !old(slots)[planned.value].row.Absent?;
              && (r.Replayed? || r.Mismatch? <==> replay) && (r.Replayed? ==> r.id == planned.value)
              && (r.Mismatch? <==>
                    replay && !(old(slots)[planned.value].size == asked && old(orders)[planned.value] == terms))
      ensures var verdict := Admission(host, Measured(host, old(slots)), PendingSize(old(slots)), asked);
              && (r.Reserved? ==> verdict.Fits? && r.id == |old(slots)|)
              && (r.Refused? ==> r.why == verdict && !verdict.Fits?)
      ensures slots == if r.Reserved? then old(slots) + [Slot(asked, Unplaced, NoGuest)] else old(slots)
      ensures orders == if r.Reserved? then old(orders) + [terms] else old(orders)
    {
      if planned.Some? && planned.value < |slots| && slots[planned.value].row != Absent {
        if orders[planned.value] != terms || slots[planned.value].size != asked { return Mismatch; }
        return Replayed(planned.value);
      }
      var m := MeasureProvider();
      var pending := PendingSize(slots);
      var verdict := Admission(host, m, pending, asked);
      if verdict != Fits { return Refused(verdict); }
      slots := slots + [Slot(asked, Unplaced, NoGuest)];
      orders := orders + [terms];
      return Reserved(|slots| - 1);
    }
  }

  // ----- the check, exactly -----

  predicate WithinBudget(h: Host, slots: seq<Slot>, k: Kind)
    requires h.ratioDen > 0
  {
    Used(slots, k) * Scale(k) <= Budget(h, k)
  }

  /** What staying within the budget means: vCPUs against the cores times the
      configured ratio, MB and GB against what is left after the foreign guests
      and the headroom. */
  lemma BudgetMeaning(h: Host, slots: seq<Slot>)
    requires h.ratioDen > 0
    ensures WithinBudget(h, slots, Cpu) <==> (h.otherVcpu + Used(slots, Cpu)) * h.ratioDen <= h.cores * h.ratioNum
    ensures WithinBudget(h, slots, Ram) <==>
              (Used(slots, Ram) + h.headroomMb) * 1048576 + h.otherMemory <= h.memory
    ensures WithinBudget(h, slots, Disk) <==>
              (Used(slots, Disk) + h.headroomGb) * 1073741824 + h.otherStorage <= h.storage
  {
    FloorMeaning(h.otherVcpu + Used(slots, Cpu), h.cores * h.ratioNum, h.ratioDen);
  }

  lemma FloorMeaning(x: nat, a: nat, b: nat)
    requires b > 0
    ensures x <= a / b <==> x * b <= a
  {
    var q := a / b;
    assert a == q * b + a % b;
    if x <= q { Ordered(x, q, b); } else { Ordered(q + 1, x, b); }
  }

  lemma Ordered(x: nat, y: nat, b: nat)
    requires x <= y
    ensures x * b <= y * b
  {
    assert y * b == x * b + (y - x) * b;
  }

  /** No machine is both pending and cloned; a crash during a clone breaks it. */
  predicate CountedOnce(slots: seq<Slot>) {
    forall i | 0 <= i < |slots| :: slots[i].row.Unplaced? ==> slots[i].guest.NoGuest?
  }

  lemma {:induction false} UsedSplits(slots: seq<Slot>, k: Kind)
    ensures Provided(slots, k) <= Used(slots, k) <= Provided(slots, k) + Pending(slots, k)
    ensures CountedOnce(slots) ==> Used(slots, k) == Provided(slots, k) + Pending(slots, k)
  {
    if slots != [] {
      assert forall i | 0 <= i < |slots[1..]| :: slots[1..][i] == slots[i + 1];
      UsedSplits(slots[1..], k);
    }
  }

  lemma {:induction false} UsedAppended(slots: seq<Slot>, slot: Slot, k: Kind)
    ensures Used(slots + [slot], k) == Used(slots, k) + Part(Counted(slot, k), slot, k)
  {
    if slots == [] {
      assert slots + [slot] == [slot];
    } else {
      assert (slots + [slot])[1..] == slots[1..] + [slot];
      UsedAppended(slots[1..], slot, k);
    }
  }

  /** Unless something is counted twice, an order is admitted exactly when it
      stays within the vCPU limit and both headrooms once placed. */
  lemma AdmittedExactlyWhenItFits(h: Host, slots: seq<Slot>, asked: Size)
    requires h.ratioDen > 0 && CountedOnce(slots) && asked.ramMb > 0 && asked.diskGb > 0
    ensures Admission(h, Measured(h, slots), PendingSize(slots), asked).Fits?
            <==> forall k: Kind :: WithinBudget(h, slots + [Slot(asked, Unplaced, NoGuest)], k)
  {
    var after := slots + [Slot(asked, Unplaced, NoGuest)];
    forall k: Kind
      ensures Used(after, k) == Provided(slots, k) + Pending(slots, k) + Amount(asked, k)
    {
      UsedSplits(slots, k);
      UsedAppended(slots, Slot(asked, Unplaced, NoGuest), k);
    }
    var m := Measured(h, slots);
    assert WithinBudget(h, after, Cpu) <==> m.vcpu + Pending(slots, Cpu) + asked.vcpu <= CpuLimit(h);
    assert WithinBudget(h, after, Ram)
      <==> m.freeMemory - Pending(slots, Ram) * MIB - asked.ramMb * MIB >= h.headroomMb * MIB;
    assert WithinBudget(h, after, Disk)
      <==> m.freeStorage - Pending(slots, Disk) * GIB - asked.diskGb * GIB >= h.headroomGb * GIB;
  }

  // ----- the same check in the middle of everything else -----

  /** Who holds the capacity lock, and what it has done so far. rechecked: the
      clone's fresh receipt was committed, on a row that was still unplaced. */
  datatype Lock =
    | Free
    | HasMeasured(asked: Size, measure: Measure)
    | HasSummed(asked: Size, measure: Measure, pending: Size)
    | HandingOff(id: nat, rechecked: bool)

  /** strays: holders that go on after the lock was lost under them. asked: the
      slots for which a clone request may have been sent. A slot without a row
      is a duplicate clone. */
  datatype World = World(host: Host, slots: seq<Slot>, lock: Lock, strays: seq<Lock>, asked: set<nat>)

  /** Close: a row fails or is released. LoseLock: the holder is done, refused
      or dead. LoseConnection: the database drops the lock while the holder, or
      the clone request it has sent, goes on. LateClone: an old clone request
      lands, possibly twice, and its guest is halted. RemoveGuest also covers a
      stale clone deleted before a new one. */
  datatype Step =
    | MeasureHosts(asked: Size)
    | SumPending
    | InsertRow
    | BeginHandoff(id: nat)
    | Recheck
    | Clone
    | RecordUuid
    | LoseLock
    | LoseConnection
    | StrayInsert(n: nat)
    | StrayRecheck(n: nat)
    | StrayClone(n: nat, boots: bool)
    | StrayRecord(n: nat)
    | LateClone(id: nat)
    | Close(id: nat, absent: bool)
    | Halt(id: nat)
    | Resume(id: nat)
    | RemoveGuest(id: nat)

  predicate CanRecheck(w: World, l: Lock) { l.HandingOff? && l.id < |w.slots| && w.slots[l.id].row.Unplaced? }

  predicate CanClone(w: World, l: Lock) {
    l.HandingOff? && l.rechecked && l.id < |w.slots| && w.slots[l.id].guest.NoGuest?
  }

  /** After its clone an attempt records the guest on any row that is left;
      before, it adopts a running guest for an unplaced row only. */
  predicate CanRecord(w: World, l: Lock) {
    && l.HandingOff? && l.id < |w.slots| && !w.slots[l.id].guest.NoGuest? && !w.slots[l.id].row.Absent?
    && (!l.rechecked ==> w.slots[l.id].guest.Live? && w.slots[l.id].row.Unplaced?)
  }

  function PendingSeen(w: World, l: Lock): Size { if l.HasSummed? then l.pending else PendingSize(w.slots) }

  predicate CanInsert(w: World, l: Lock)
    requires w.host.ratioDen > 0
  {
    (l.HasMeasured? || l.HasSummed?) && Admission(w.host, l.measure, PendingSeen(w, l), l.asked).Fits?
  }

  predicate Enabled(w: World, s: Step) {
    && w.host.ratioDen > 0
    && match s
       case MeasureHosts(_) => w.lock.Free?
       case SumPending => w.lock.HasMeasured?
       case InsertRow => w.lock.HasSummed? && CanInsert(w, w.lock)
       case BeginHandoff(i) => w.lock.Free? && i < |w.slots| && !w.slots[i].row.Absent? && !w.slots[i].row.Placed?
       case Recheck => CanRecheck(w, w.lock)
       case Clone => CanClone(w, w.lock)
       case RecordUuid => CanRecord(w, w.lock)
       case LoseLock => true
       case LoseConnection => !w.lock.Free?
       case StrayInsert(n) => n < |w.strays| && CanInsert(w, w.strays[n])
       case StrayRecheck(n) => n < |w.strays| && CanRecheck(w, w.strays[n])
       case StrayClone(n, _) => n < |w.strays| && CanClone(w, w.strays[n])
       case StrayRecord(n) => n < |w.strays| && CanRecord(w, w.strays[n])
       case LateClone(i) => i < |w.slots| && i in w.asked
       case Close(i, _) => i < |w.slots| && w.slots[i].row.Unplaced?
       case Halt(i) => i < |w.slots| && w.slots[i].guest.Live?
       case Resume(i) => i < |w.slots| && w.slots[i].guest.Halted?
       case RemoveGuest(i) => i < |w.slots|
  }

  function Duplicate(size: Size): Slot { Slot(size, Absent, Halted) }

  function WithGuest(slots: seq<Slot>, i: nat, guest: GuestState): seq<Slot>
    requires i < |slots|
  {
    slots[i := slots[i].(guest := guest)]
  }

  function WithRow(slots: seq<Slot>, i: nat, row: RowState): seq<Slot>
    requires i < |slots|
  {
    slots[i := slots[i].(row := row)]
  }

  function Next(w: World, s: Step): World
    requires Enabled(w, s)
  {
    match s
    case MeasureHosts(asked) => w.(lock := HasMeasured(asked, Measured(w.host, w.slots)))
    case SumPending => w.(lock := HasSummed(w.lock.asked, w.lock.measure, PendingSize(w.slots)))
    case InsertRow => w.(slots := w.slots + [Slot(w.lock.asked, Unplaced, NoGuest)], lock := Free)
    case BeginHandoff(i) => w.(lock := HandingOff(i, false))
    case Recheck => w.(lock := HandingOff(w.lock.id, true), asked := w.asked + {w.lock.id})
    case Clone => w.(slots := WithGuest(w.slots, w.lock.id, Live))
    case RecordUuid => w.(slots := WithRow(w.slots, w.lock.id, Placed))
    case LoseLock => w.(lock := Free)
    case LoseConnection => w.(lock := Free, strays := w.strays + [w.lock])
    case StrayInsert(n) =>
      w.(slots := w.slots + [Slot(w.strays[n].asked, Unplaced, NoGuest)], strays := w.strays[..n] + w.strays[n + 1..])
    case StrayRecheck(n) =>
      w.(strays := w.strays[n := HandingOff(w.strays[n].id, true)], asked := w.asked + {w.strays[n].id})
    case StrayClone(n, boots) => w.(slots := WithGuest(w.slots, w.strays[n].id, if boots then Live else Halted))
    case StrayRecord(n) => w.(slots := WithRow(w.slots, w.strays[n].id, Placed))
    case LateClone(i) => w.(slots := w.slots + [Duplicate(w.slots[i].size)])
    case Close(i, absent) => w.(slots := WithRow(w.slots, i, if absent then Absent else Closed))
    case Halt(i) => w.(slots := WithGuest(w.slots, i, Halted))
    case Resume(i) => w.(slots := WithGuest(w.slots, i, Live))
    case RemoveGuest(i) => w.(slots := WithGuest(w.slots, i, NoGuest))
  }

  predicate Run(w: World, steps: seq<Step>)
    decreases |steps|
  {
    steps == [] || (Enabled(w, steps[0]) && Run(Next(w, steps[0]), steps[1..]))
  }

  function After(w: World, steps: seq<Step>): World
    requires Run(w, steps)
    decreases |steps|
  {
    if steps == [] then w else After(Next(w, steps[0]), steps[1..])
  }

  /** What a step takes without asking: a halted guest is started again, an old
      clone request lands once more, or a holder that lost its lock inserts its
      row or makes its clone. */
  function Unasked(w: World, s: Step, k: Kind): nat
    requires Enabled(w, s)
  {
    match s
    case Resume(i) => Part(!OnProvider(w.slots[i], k), w.slots[i], k)
    case LateClone(i) => Part(OnProvider(Duplicate(w.slots[i].size), k), w.slots[i], k)
    case StrayInsert(n) => Amount(w.strays[n].asked, k)
    case StrayClone(n, boots) =>
      var slot := w.slots[w.strays[n].id];
      Part(OnProvider(slot.(guest := if boots then Live else Halted), k), slot, k)
    case _ => 0
  }

  function UnaskedIn(w: World, steps: seq<Step>, k: Kind): nat
    requires Run(w, steps)
    decreases |steps|
  {
    if steps == [] then 0 else Unasked(w, steps[0], k) + UnaskedIn(Next(w, steps[0]), steps[1..], k)
  }

  /** A rechecked row stays counted even if it fails before its clone. */
  function Committed(w: World, k: Kind): nat {
    Used(w.slots, k) +
    if w.lock.HandingOff? && w.lock.rechecked && w.lock.id < |w.slots| then Part(!Counted(w.slots[w.lock.id], k), w.slots[w.lock.id], k) else 0
  }

  /** m is what the provider reports when `used` of kind k is taken. */
  predicate Reports(h: Host, m: Measure, k: Kind, used: nat) {
    match k
    case Cpu => m.vcpu == h.otherVcpu + used
    case Ram => m.freeMemory == NonNegative(h.memory - h.otherMemory - used * MIB)
    case Disk => m.freeStorage == NonNegative(h.storage - h.otherStorage - used * GIB)
  }

  /** owed: taken without asking so far; late: since the measurement. */
  predicate Bounded(w: World, k: Kind, owed: nat, late: nat, read: nat) {
    && w.host.ratioDen > 0 && late <= owed && (w.lock.HandingOff? ==> w.lock.id < |w.slots|)
    && Committed(w, k) * Scale(k) <= NonNegative(Budget(w.host, k)) + owed * Scale(k)
    && (w.lock.HasMeasured? || w.lock.HasSummed? ==> Reports(w.host, w.lock.measure, k, read))
    && (w.lock.HasMeasured? ==> Provided(w.slots, k) <= read + late)
    && (w.lock.HasSummed? ==> Used(w.slots, k) <= read + Amount(w.lock.pending, k) + late)
  }

  lemma {:induction false} SlotChanged(slots: seq<Slot>, i: nat, slot: Slot, k: Kind)
    requires i < |slots| && slot.size == slots[i].size
    ensures var after := slots[i := slot];
            && Used(after, k) + Part(Counted(slots[i], k), slot, k) == Used(slots, k) + Part(Counted(slot, k), slot, k)
            && Provided(after, k) + Part(OnProvider(slots[i], k), slot, k) == Provided(slots, k) + Part(OnProvider(slot, k), slot, k)
  {
    if i > 0 {
      assert slots[i := slot][1..] == slots[1..][i - 1 := slot];
      SlotChanged(slots[1..], i - 1, slot, k);
    } else {
      assert slots[i := slot][1..] == slots[1..];
    }
  }

  lemma Scaled(used: nat, before: nat, more: nat, k: Kind)
    requires used <= before + more
    ensures used * Scale(k) <= before * Scale(k) + more * Scale(k)
  {
  }

  lemma Distributed(a: nat, b: nat, k: Kind)
    ensures (a + b) * Scale(k) == a * Scale(k) + b * Scale(k)
  {
  }

  /** The slot a step changes, if it changes one. */
  function Changes(w: World, s: Step): Option<nat>
    requires Enabled(w, s)
  {
    match s
    case Clone => Some(w.lock.id)
    case RecordUuid => Some(w.lock.id)
    case StrayClone(n, _) => Some(w.strays[n].id)
    case StrayRecord(n) => Some(w.strays[n].id)
    case Close(i, _) => Some(i)
    case Halt(i) => Some(i)
    case Resume(i) => Some(i)
    case RemoveGuest(i) => Some(i)
    case _ => None
  }

  lemma ChangeTakesAtMost(w: World, s: Step, k: Kind)
    requires Enabled(w, s) && Changes(w, s).Some?
    ensures Committed(Next(w, s), k) <= Committed(w, k) + Unasked(w, s, k)
    ensures !w.lock.HandingOff? ==>
      && Used(Next(w, s).slots, k) <= Used(w.slots, k) + Unasked(w, s, k)
      && Provided(Next(w, s).slots, k) <= Provided(w.slots, k) + Unasked(w, s, k)
  {
    var i := Changes(w, s).value;
    SlotChanged(w.slots, i, Next(w, s).slots[i], k);
  }

  lemma StepTakesAtMost(w: World, s: Step, k: Kind)
    requires Enabled(w, s) && !s.InsertRow? && (w.lock.HandingOff? ==> w.lock.id < |w.slots|)
    ensures Committed(Next(w, s), k) <= Committed(w, k) + Unasked(w, s, k)
    ensures !w.lock.HandingOff? ==>
      && Used(Next(w, s).slots, k) <= Used(w.slots, k) + Unasked(w, s, k)
      && Provided(Next(w, s).slots, k) <= Provided(w.slots, k) + Unasked(w, s, k)
  {
    if Changes(w, s).Some? {
      ChangeTakesAtMost(w, s, k);
    } else if s.StrayInsert? {
      UsedAppended(w.slots, Slot(w.strays[s.n].asked, Unplaced, NoGuest), k);
      ProvidedAppended(w.slots, Slot(w.strays[s.n].asked, Unplaced, NoGuest), k);
    } else if s.LateClone? {
      UsedAppended(w.slots, Duplicate(w.slots[s.id].size), k);
      ProvidedAppended(w.slots, Duplicate(w.slots[s.id].size), k);
    }
  }

  lemma {:induction false} ProvidedAppended(slots: seq<Slot>, slot: Slot, k: Kind)
    ensures Provided(slots + [slot], k) == Provided(slots, k) + Part(OnProvider(slot, k), slot, k)
  {
    if slots == [] {
      assert slots + [slot] == [slot];
    } else {
      assert (slots + [slot])[1..] == slots[1..] + [slot];
      ProvidedAppended(slots[1..], slot, k);
    }
  }

  /** An order that was admitted fits on top of what was read, for each kind. */
  lemma AdmittedFits(w: World, k: Kind, read: nat)
    requires Enabled(w, InsertRow) && Reports(w.host, w.lock.measure, k, read)
    ensures var total := read + Amount(w.lock.pending, k) + Amount(w.lock.asked, k);
            total * Scale(k) <= NonNegative(Budget(w.host, k)) || Amount(w.lock.pending, k) + Amount(w.lock.asked, k) == 0
  {
    match k
    case Cpu =>
    case Ram => assert w.lock.measure.freeMemory - w.lock.pending.ramMb * MIB - w.lock.asked.ramMb * MIB >= w.host.headroomMb * MIB;
    case Disk => assert w.lock.measure.freeStorage - w.lock.pending.diskGb * GIB - w.lock.asked.diskGb * GIB >= w.host.headroomGb * GIB;
  }

  lemma InsertStaysBounded(w: World, k: Kind, owed: nat, late: nat, read: nat)
    requires Bounded(w, k, owed, late, read) && Enabled(w, InsertRow)
    ensures Bounded(Next(w, InsertRow), k, owed, late, read)
  {
    var slot := Slot(w.lock.asked, Unplaced, NoGuest);
    UsedAppended(w.slots, slot, k);
    var total := read + Amount(w.lock.pending, k) + Amount(slot.size, k);
    assert Committed(Next(w, InsertRow), k) == Used(w.slots, k) + Amount(slot.size, k);
    AdmittedFits(w, k, read);
    if total * Scale(k) <= NonNegative(Budget(w.host, k)) {
      Scaled(Used(w.slots, k) + Amount(slot.size, k), total, owed, k);
    }
  }

  function ReadAfter(w: World, s: Step, k: Kind, read: nat): nat {
    if s.MeasureHosts? then Provided(w.slots, k) else read
  }

  function LateAfter(w: World, s: Step, k: Kind, late: nat): nat
    requires Enabled(w, s)
  {
    if s.MeasureHosts? then 0 else late + Unasked(w, s, k)
  }

  lemma ReadStaysBounded(w: World, s: Step, k: Kind, owed: nat, late: nat, read: nat)
    requires Bounded(w, k, owed, late, read) && Enabled(w, s) && (s.MeasureHosts? || s.SumPending?)
    ensures Bounded(Next(w, s), k, owed, LateAfter(w, s, k, late), ReadAfter(w, s, k, read))
  {
    UsedSplits(w.slots, k);
  }

  lemma OtherStaysBounded(w: World, s: Step, k: Kind, owed: nat, late: nat, read: nat)
    requires Bounded(w, k, owed, late, read) && Enabled(w, s) && !s.MeasureHosts? && !s.SumPending? && !s.InsertRow?
    ensures Bounded(Next(w, s), k, owed + Unasked(w, s, k), late + Unasked(w, s, k), read)
  {
    StepTakesAtMost(w, s, k);
    var more := Unasked(w, s, k);
    Scaled(Committed(Next(w, s), k), Committed(w, k), more, k);
    Distributed(owed, more, k);
  }

  lemma StepStaysBounded(w: World, s: Step, k: Kind, owed: nat, late: nat, read: nat)
    requires Bounded(w, k, owed, late, read) && Enabled(w, s)
    ensures Bounded(Next(w, s), k, owed + Unasked(w, s, k), LateAfter(w, s, k, late), ReadAfter(w, s, k, read))
  {
    if s.InsertRow? { InsertStaysBounded(w, k, owed, late, read); }
    else if s.MeasureHosts? || s.SumPending? { ReadStaysBounded(w, s, k, owed, late, read); }
    else { OtherStaysBounded(w, s, k, owed, late, read); }
  }

  lemma {:induction false} RunStaysBounded(w: World, steps: seq<Step>, k: Kind, owed: nat, late: nat, read: nat)
    requires Bounded(w, k, owed, late, read) && Run(w, steps)
    ensures var e := After(w, steps);
            Used(e.slots, k) * Scale(k) <= NonNegative(Budget(w.host, k)) + (owed + UnaskedIn(w, steps, k)) * Scale(k)
    decreases |steps|
  {
    if steps == [] {
      Scaled(Used(w.slots, k), Committed(w, k), 0, k);
    } else {
      StepStaysBounded(w, steps[0], k, owed, late, read);
      RunStaysBounded(Next(w, steps[0]), steps[1..], k, owed + Unasked(w, steps[0], k),
                      LateAfter(w, steps[0], k, late), ReadAfter(w, steps[0], k, read));
    }
  }

  function Empty(h: Host): World { World(h, [], Free, [], {}) }

  /** No over-admission: whatever is interleaved, the machines that are pending
      or cloned exceed the budget by no more than what was started again,
      cloned twice, or taken by a holder that had lost its lock, none of which
      goes through the check. */
  lemma OveruseIsUnasked(h: Host, steps: seq<Step>, k: Kind)
    requires h.ratioDen > 0 && Run(Empty(h), steps)
    ensures Used(After(Empty(h), steps).slots, k) * Scale(k)
            <= NonNegative(Budget(h, k)) + UnaskedIn(Empty(h), steps, k) * Scale(k)
  {
    assert Bounded(Empty(h), k, 0, 0, 0);
    RunStaysBounded(Empty(h), steps, k, 0, 0, 0);
  }

  /** No lock is lost under a holder that goes on; for vCPU and memory no halted
      guest is started, and for disk no old clone request lands. Rows may fail,
      and holders may die, at any moment. */
  predicate Asks(steps: seq<Step>, k: Kind) {
    forall i | 0 <= i < |steps| ::
      !steps[i].LoseConnection? && (if k.Disk? then !steps[i].LateClone? else !steps[i].Resume?)
  }

  lemma {:induction false} NothingUnasked(w: World, steps: seq<Step>, k: Kind)
    requires Run(w, steps) && Asks(steps, k) && w.strays == []
    ensures UnaskedIn(w, steps, k) == 0
    decreases |steps|
  {
    if steps != [] {
      assert forall i | 0 <= i < |steps[1..]| :: steps[1..][i] == steps[i + 1];
      NothingUnasked(Next(w, steps[0]), steps[1..], k);
    }
  }

  lemma NoOverAdmission(h: Host, steps: seq<Step>, k: Kind)
    requires h.ratioDen > 0 && Run(Empty(h), steps) && Asks(steps, k)
    ensures Used(After(Empty(h), steps).slots, k) * Scale(k) <= NonNegative(Budget(h, k))
  {
    OveruseIsUnasked(h, steps, k);
    NothingUnasked(Empty(h), steps, k);
  }

  // ----- the exceptions happen -----

  lemma RunGrows(w: World, s: Step, rest: seq<Step>)
    requires Enabled(w, s) && Run(Next(w, s), rest)
    ensures Run(w, [s] + rest) && After(w, [s] + rest) == After(Next(w, s), rest)
  {
  }

  lemma {:induction false} RunJoined(w: World, first: seq<Step>, second: seq<Step>)
    requires Run(w, first) && Run(After(w, first), second)
    ensures Run(w, first + second) && After(w, first + second) == After(After(w, first), second)
    decreases |first|
  {
    if first == [] {
      assert first + second == second;
    } else {
      assert (first + second)[1..] == first[1..] + second;
      RunJoined(Next(w, first[0]), first[1..], second);
    }
  }

  const SMALL := Size(1, 1, 1)
  const ONE_CORE := Host(1, 1, 1, 8 * MIB, 2 * GIB, 0, 0, 0, 0, 0)

  const NEW := Slot(SMALL, Unplaced, NoGuest)
  const FAILED := Slot(SMALL, Closed, NoGuest)
  const HALTED := Slot(SMALL, Placed, Halted)

  function Holding(slots: seq<Slot>, strays: seq<Lock>, asked: set<nat>): World { World(ONE_CORE, slots, Free, strays, asked) }

  /** A second small machine is admitted next to one that takes no vCPU at the
      moment, and a first one next to none. */
  lemma Admits(slots: seq<Slot>, strays: seq<Lock>, asked: set<nat>)
    requires slots == [] || slots == [FAILED] || slots == [HALTED]
    ensures Run(Holding(slots, strays, asked), [MeasureHosts(SMALL), SumPending, InsertRow])
    ensures After(Holding(slots, strays, asked), [MeasureHosts(SMALL), SumPending, InsertRow])
            == Holding(if slots == [] then [NEW] else [slots[0], NEW], strays, asked)
  {
    var w := Holding(slots, strays, asked);
    var w1 := Next(w, MeasureHosts(SMALL));
    var w2 := Next(w1, SumPending);
    if slots != [] { assert slots[1..] == []; }
    assert Pending(slots, Cpu) == 0 && Pending(slots, Ram) == 0 && Pending(slots, Disk) == 0;
    assert Provided(slots, Cpu) == 0 && Provided(slots, Ram) == 0 && Provided(slots, Disk) <= 1;
    assert w2.lock.measure.vcpu == 0 && w2.lock.pending == Size(0, 0, 0);
    assert w2.lock.measure.freeMemory == 8 * MIB && w2.lock.measure.freeStorage >= GIB;
    RunGrows(w2, InsertRow, []);
    RunGrows(w1, SumPending, [InsertRow] + []);
    RunGrows(w, MeasureHosts(SMALL), [SumPending] + ([InsertRow] + []));
    assert [MeasureHosts(SMALL)] + ([SumPending] + ([InsertRow] + [])) == [MeasureHosts(SMALL), SumPending, InsertRow];
  }

  predicate Overcommitted(w: World, k: Kind) { w.host == ONE_CORE && !WithinBudget(ONE_CORE, w.slots, k) }

  lemma TwoLiveOvercommit(w: World, row: RowState)
    requires w.host == ONE_CORE && w.slots == [Slot(SMALL, row, Live), NEW]
    ensures Overcommitted(w, Cpu)
  {
    assert w.slots[1..] == [NEW] && w.slots[1..][1..] == [];
    assert Used(w.slots[1..], Cpu) == 1;
  }

  const ADMISSION := [MeasureHosts(SMALL), SumPending, InsertRow]
  const CONNECTION_LOST := [BeginHandoff(0), Recheck, LoseConnection, Close(0, false)]
  const PLACED := [BeginHandoff(0), Recheck, Clone, RecordUuid, LoseLock, Halt(0)]

  lemma ConnectionLost()
    ensures Run(Holding([NEW], [], {}), CONNECTION_LOST)
    ensures After(Holding([NEW], [], {}), CONNECTION_LOST) == Holding([FAILED], [HandingOff(0, true)], {0})
  {
    var v := Holding([NEW], [], {});
    var v1 := Next(v, BeginHandoff(0));
    var v2 := Next(v1, Recheck);
    var v3 := Next(v2, LoseConnection);
    RunGrows(v3, Close(0, false), []);
    RunGrows(v2, LoseConnection, [Close(0, false)] + []);
    RunGrows(v1, Recheck, [LoseConnection] + ([Close(0, false)] + []));
    RunGrows(v, BeginHandoff(0), [Recheck] + ([LoseConnection] + ([Close(0, false)] + [])));
    assert [BeginHandoff(0)] + ([Recheck] + ([LoseConnection] + ([Close(0, false)] + []))) == CONNECTION_LOST;
  }

  lemma PlacedThenHalted()
    ensures Run(Holding([NEW], [], {}), PLACED) && After(Holding([NEW], [], {}), PLACED) == Holding([HALTED], [], {0})
  {
    var v := Holding([NEW], [], {});
    CloneAsked();
    RecordedThenHalted();
    assert PLACED == [BeginHandoff(0), Recheck, Clone] + [RecordUuid, LoseLock, Halt(0)];
    RunJoined(v, [BeginHandoff(0), Recheck, Clone], [RecordUuid, LoseLock, Halt(0)]);
  }

  const CLONED := World(ONE_CORE, [Slot(SMALL, Unplaced, Live)], HandingOff(0, true), [], {0})

  lemma CloneAsked()
    ensures Run(Holding([NEW], [], {}), [BeginHandoff(0), Recheck, Clone])
    ensures After(Holding([NEW], [], {}), [BeginHandoff(0), Recheck, Clone]) == CLONED
  {
    var v := Holding([NEW], [], {});
    var v1 := Next(v, BeginHandoff(0));
    var v2 := Next(v1, Recheck);
    RunGrows(v2, Clone, []);
    RunGrows(v1, Recheck, [Clone]);
    RunGrows(v, BeginHandoff(0), [Recheck, Clone]);
  }

  lemma RecordedThenHalted()
    ensures Run(CLONED, [RecordUuid, LoseLock, Halt(0)])
    ensures After(CLONED, [RecordUuid, LoseLock, Halt(0)]) == Holding([HALTED], [], {0})
  {
    var v1 := Next(CLONED, RecordUuid);
    var v2 := Next(v1, LoseLock);
    RunGrows(v2, Halt(0), []);
    RunGrows(v1, LoseLock, [Halt(0)]);
    RunGrows(CLONED, RecordUuid, [LoseLock, Halt(0)]);
  }

  predicate Leads(w: World, steps: seq<Step>, k: Kind) { Run(w, steps) && Overcommitted(After(w, steps), k) }

  lemma LeadsVia(w: World, first: seq<Step>, mid: World, second: seq<Step>, k: Kind)
    requires Run(w, first) && After(w, first) == mid && Leads(mid, second, k)
    ensures Leads(w, first + second, k)
  {
    RunJoined(w, first, second);
  }

  lemma LeadsNow(w: World, s: Step, k: Kind)
    requires Enabled(w, s) && Overcommitted(Next(w, s), k)
    ensures Leads(w, [s], k)
  {
    RunGrows(w, s, []);
    assert [s] + [] == [s];
  }

  /** The database drops the lock of a holder that is cloning; its row fails,
      its room is given away, and the clone arrives. */
  lemma LostLockOvercommits()
    ensures Leads(Empty(ONE_CORE), ADMISSION + (CONNECTION_LOST + (ADMISSION + [StrayClone(0, true)])), Cpu)
  {
    var stray := [HandingOff(0, true)];
    var last := Holding([FAILED, NEW], stray, {0});
    TwoLiveOvercommit(Next(last, StrayClone(0, true)), Closed);
    LeadsNow(last, StrayClone(0, true), Cpu);
    Admits([FAILED], stray, {0});
    LeadsVia(Holding([FAILED], stray, {0}), ADMISSION, last, [StrayClone(0, true)], Cpu);
    ConnectionLost();
    LeadsVia(Holding([NEW], [], {}), CONNECTION_LOST, Holding([FAILED], stray, {0}), ADMISSION + [StrayClone(0, true)], Cpu);
    Admits([], [], {});
    LeadsVia(Empty(ONE_CORE), ADMISSION, Holding([NEW], [], {}), CONNECTION_LOST + (ADMISSION + [StrayClone(0, true)]), Cpu);
  }

  /** A guest is halted, the vCPU it gave up is sold, and it is started again. */
  lemma ResumeOvercommits()
    ensures Leads(Empty(ONE_CORE), ADMISSION + (PLACED + (ADMISSION + [Resume(0)])), Cpu)
  {
    var last := Holding([HALTED, NEW], [], {0});
    TwoLiveOvercommit(Next(last, Resume(0)), Placed);
    LeadsNow(last, Resume(0), Cpu);
    Admits([HALTED], [], {0});
    LeadsVia(Holding([HALTED], [], {0}), ADMISSION, last, [Resume(0)], Cpu);
    PlacedThenHalted();
    LeadsVia(Holding([NEW], [], {}), PLACED, Holding([HALTED], [], {0}), ADMISSION + [Resume(0)], Cpu);
    Admits([], [], {});
    LeadsVia(Empty(ONE_CORE), ADMISSION, Holding([NEW], [], {}), PLACED + (ADMISSION + [Resume(0)]), Cpu);
  }

  const DOUBLE := Duplicate(SMALL)

  /** A clone request lands twice more: the duplicates take disk that nobody
      asked for. */
  lemma LateClonesOvercommit()
    ensures Leads(Empty(ONE_CORE), ADMISSION + (PLACED + ([LateClone(0)] + [LateClone(0)])), Disk)
  {
    var once := Holding([HALTED, DOUBLE], [], {0});
    var twice := Next(once, LateClone(0));
    assert twice.slots == [HALTED, DOUBLE, DOUBLE];
    assert twice.slots[1..] == [DOUBLE, DOUBLE] && twice.slots[1..][1..] == [DOUBLE] && twice.slots[1..][1..][1..] == [];
    assert Used([DOUBLE], Disk) == 1 && Used([DOUBLE, DOUBLE], Disk) == 2;
    LeadsNow(once, LateClone(0), Disk);
    RunGrows(Holding([HALTED], [], {0}), LateClone(0), []);
    assert [LateClone(0)] + [] == [LateClone(0)];
    LeadsVia(Holding([HALTED], [], {0}), [LateClone(0)], once, [LateClone(0)], Disk);
    PlacedThenHalted();
    LeadsVia(Holding([NEW], [], {}), PLACED, Holding([HALTED], [], {0}), [LateClone(0)] + [LateClone(0)], Disk);
    Admits([], [], {});
    LeadsVia(Empty(ONE_CORE), ADMISSION, Holding([NEW], [], {}), PLACED + ([LateClone(0)] + [LateClone(0)]), Disk);
  }
}
