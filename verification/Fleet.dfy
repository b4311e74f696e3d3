/** All VMs together: the unique prefix index and address reuse. */
module Fleet {
  import opened Records
  import opened Lifecycle
  import opened Invariant
  import opened Preservation

  type Vms = map<nat, VM>

  predicate Holds(s: VM, prefix: nat) { s.record.Some? && s.record.value.row.prefix == Some(prefix) }

  predicate InUse(f: Vms, prefix: nat) { exists v :: v in f && Holds(f[v], prefix) }

  /** A step of one VM. The unique index refuses an insert whose prefix is on
      any row. */
  predicate FleetEnabled(f: Vms, v: nat, t: Step) {
    && v in f && Enabled(f[v], t) && Orderly(f[v], t)
    && (t.Reserving? && t.reserve.Insert? ==> !InUse(f, t.reserve.prefix))
  }

  function FleetNext(f: Vms, v: nat, t: Step): Vms
    requires FleetEnabled(f, v, t)
  {
    f[v := Next(f[v], t)]
  }

  predicate FleetFresh(f: Vms) { forall v | v in f :: Fresh(f[v]) }

  datatype Action = Action(vm: nat, step: Step)

  predicate FleetRun(f: Vms, actions: seq<Action>)
    decreases |actions|
  {
    actions == [] ||
    (FleetEnabled(f, actions[0].vm, actions[0].step)
     && FleetRun(FleetNext(f, actions[0].vm, actions[0].step), actions[1..]))
  }

  function FleetAfter(f: Vms, actions: seq<Action>): Vms
    requires FleetRun(f, actions)
    decreases |actions|
  {
    if actions == [] then f else FleetAfter(FleetNext(f, actions[0].vm, actions[0].step), actions[1..])
  }

  ghost predicate FleetInv(f: Vms) {
    && (forall v | v in f :: Inv(f[v]))
    && (forall v, w, p | v in f && w in f && Holds(f[v], p) && Holds(f[w], p) :: v == w)
  }

  predicate Inserts(t: Step) { t.Reserving? && t.reserve.Insert? }

  lemma ReserveKeepsPrefix(s: VM, t: ReserveStep, p: nat)
    requires ReserveEnabled(s, t) && !t.Insert? && Holds(ReserveNext(s, t), p)
    ensures Holds(s, p)
  {
  }

  lemma AttemptKeepsPrefix(s: VM, t: AttemptStep, p: nat)
    requires AttemptEnabled(s, t) && Holds(AttemptNext(s, t), p)
    ensures Holds(s, p)
  {
  }

  lemma DeleteKeepsPrefix(s: VM, t: DeleteStep, p: nat)
    requires Inv(s) && DeleteEnabled(s, t) && Holds(DeleteNext(s, t), p)
    ensures Holds(s, p)
  {
  }

  /** Only an insert puts a prefix on a row. */
  lemma PrefixOnlyInserted(s: VM, t: Step, p: nat)
    requires Inv(s) && Enabled(s, t) && !Inserts(t) && Holds(Next(s, t), p)
    ensures Holds(s, p)
  {
    match t
    case Reserving(r) => ReserveKeepsPrefix(s, r, p);
    case Provisioner(a) => AttemptKeepsPrefix(s, a, p);
    case Deleting(d) => DeleteKeepsPrefix(s, d, p);
    case Managing(m) => PowerIsGentle(s, m);
    case Outside(w) =>
  }

  lemma FleetStepKeeps(f: Vms, v: nat, t: Step)
    requires FleetInv(f) && FleetEnabled(f, v, t)
    ensures FleetInv(FleetNext(f, v, t))
  {
    var f' := FleetNext(f, v, t);
    StepKeeps(f[v], t);
    forall a, b, p | a in f' && b in f' && Holds(f'[a], p) && Holds(f'[b], p) ensures a == b {
      if Inserts(t) {
        assert !InUse(f, t.reserve.prefix);
      } else {
        if Holds(f'[v], p) { PrefixOnlyInserted(f[v], t, p); }
      }
    }
  }

  lemma {:induction false} FleetRunKeeps(f: Vms, actions: seq<Action>)
    requires FleetInv(f) && FleetRun(f, actions)
    ensures FleetInv(FleetAfter(f, actions))
    decreases |actions|
  {
    if actions != [] {
      FleetStepKeeps(f, actions[0].vm, actions[0].step);
      FleetRunKeeps(FleetNext(f, actions[0].vm, actions[0].step), actions[1..]);
    }
  }

  lemma FleetReached(f: Vms, actions: seq<Action>)
    requires FleetFresh(f) && FleetRun(f, actions)
    ensures FleetInv(FleetAfter(f, actions))
  {
    forall v | v in f ensures Inv(f[v]) { FreshInv(f[v]); }
    FleetRunKeeps(f, actions);
  }

  /** Over every run of the fleet, no two rows hold the same index. */
  lemma PrefixesAreUnique(f: Vms, actions: seq<Action>, v: nat, w: nat, p: nat)
    requires FleetFresh(f) && FleetRun(f, actions)
    requires v in FleetAfter(f, actions) && w in FleetAfter(f, actions)
    requires Holds(FleetAfter(f, actions)[v], p) && Holds(FleetAfter(f, actions)[w], p)
    ensures v == w
  {
    FleetReached(f, actions);
  }

  /** An index that is free for reuse is used by no guest, of any VM, that runs
      or could still run. */
  lemma FreeIndexHasNoGuest(f: Vms, actions: seq<Action>, v: nat, g: Guest)
    requires FleetFresh(f) && FleetRun(f, actions)
    requires v in FleetAfter(f, actions) && CanRun(FleetAfter(f, actions)[v], g)
    ensures InUse(FleetAfter(f, actions), FleetAfter(f, actions)[v].guests[g].address)
  {
    FleetReached(f, actions);
    var s := FleetAfter(f, actions)[v];
    assert Inv(s);
    assert Holds(s, s.guests[g].address);
  }

  /** Address safety: guests of different VMs that run or could still run never
      share an address, and one VM never has two of them on its row. */
  lemma NoSharedAddress(f: Vms, actions: seq<Action>, v: nat, g: Guest, w: nat, h: Guest)
    requires FleetFresh(f) && FleetRun(f, actions) && v != w
    requires v in FleetAfter(f, actions) && CanRun(FleetAfter(f, actions)[v], g)
    requires w in FleetAfter(f, actions) && CanRun(FleetAfter(f, actions)[w], h)
    ensures FleetAfter(f, actions)[v].guests[g].address != FleetAfter(f, actions)[w].guests[h].address
  {
    FleetReached(f, actions);
    var s, r := FleetAfter(f, actions)[v], FleetAfter(f, actions)[w];
    assert Inv(s) && Inv(r);
    assert Holds(s, s.guests[g].address) && Holds(r, r.guests[h].address);
  }
}
