/** Accounts with their sessions, API keys and machines, and the requests that
    change them. Effect is the write set of one transaction, given what its
    own statements saw; Directory runs the request handlers one at a time. */
module Accounts {
  import opened Records

  type Id = nat

  datatype Account = Account(admin: bool, disabled: bool)

  datatype Key = Key(account: Id, revoked: bool)

  /** Live, claimed by a deletion, or destroyed. */
  datatype Stage = Live | Deleting | Gone

  /** token: a management token is stored and still opens the machine. */
  datatype Vm = Vm(owner: Option<Id>, token: bool, stage: Stage)

  datatype Tables = Tables(accounts: map<Id, Account>, sessions: map<Id, Id>, keys: map<Id, Key>, vms: map<Id, Vm>)

  /** A transfer and an activation carry the owner that an unlocked read found;
      both compare it again under the lock. blocked: the account has domains,
      domain orders, retained machines or resumptions that have not finished. */
  datatype Request =
    | Disable(actor: Id, target: Id)
    | Enable(actor: Id, target: Id)
    | SetRole(actor: Id, target: Id, admin: bool)
    | Login(account: Id, session: Id)
    | MintKey(account: Id, key: Id)
    | InsertVm(vm: Id, owner: Option<Id>)
    | Activate(vm: Id, expected: Option<Id>, payer: Option<Id>)
    | Claim(account: Id, vm: Id)
    | Transfer(actor: Id, vm: Id, expected: Option<Id>, target: Id)
    | DeleteAccount(account: Id, detach: bool, blocked: bool)
    | AdvanceDeletion(vm: Id)

  /** The rows that the statements of a disable or a deletion found. */
  datatype Seen = Seen(sessions: set<Id>, keys: set<Id>, vms: set<Id>)

  predicate Usable(d: Tables, a: Id) { a in d.accounts && !d.accounts[a].disabled }

  predicate Administrates(d: Tables, a: Id) { Usable(d, a) && d.accounts[a].admin }

  predicate Owns(d: Tables, a: Id, v: Id) { v in d.vms && d.vms[v].owner == Some(a) }

  function Administrators(d: Tables): set<Id> { set a | a in d.accounts && Administrates(d, a) }

  function SessionsOf(d: Tables, a: Id): set<Id> { set s | s in d.sessions && d.sessions[s] == a }

  function LiveKeysOf(d: Tables, a: Id): set<Id> { set k | k in d.keys && d.keys[k] == Key(a, false) }

  function MachinesOf(d: Tables, a: Id): set<Id> { set v | v in d.vms && Owns(d, a, v) }

  /** The machines a deleted account must hand over. */
  function Remaining(d: Tables, a: Id): set<Id> { set v | v in d.vms && Owns(d, a, v) && !d.vms[v].stage.Gone? }

  function SeenBy(d: Tables, r: Request): Seen {
    match r
    case Disable(_, a) => Seen(SessionsOf(d, a), LiveKeysOf(d, a), MachinesOf(d, a))
    case DeleteAccount(a, _, _) => Seen({}, {}, Remaining(d, a))
    case _ => Seen({}, {}, {})
  }

  /** The account or machine row a request writes to is there, and a row it
      inserts is not. */
  predicate Applicable(d: Tables, r: Request) {
    match r
    case Disable(_, a) => a in d.accounts
    case Enable(_, a) => a in d.accounts
    case SetRole(_, a, _) => a in d.accounts
    case Login(a, s) => a in d.accounts && s !in d.sessions
    case MintKey(a, k) => a in d.accounts && k !in d.keys
    case InsertVm(v, o) => v !in d.vms && (o.Some? ==> o.value in d.accounts)
    case Activate(v, _, p) => v in d.vms && (p.Some? ==> p.value in d.accounts)
    case Claim(a, v) => a in d.accounts && v in d.vms
    case Transfer(_, v, _, a) => a in d.accounts && v in d.vms
    case DeleteAccount(a, _, _) => a in d.accounts
    case AdvanceDeletion(v) => v in d.vms
  }

  function WithAccount(d: Tables, a: Id, row: Account): Tables { d.(accounts := d.accounts[a := row]) }

  function WithVm(d: Tables, v: Id, row: Vm): Tables { d.(vms := d.vms[v := row]) }

  function Fenced(d: Tables, a: Id, seen: Seen): Tables
    requires a in d.accounts
  {
    Tables(
      d.accounts[a := d.accounts[a].(disabled := true)],
      map s | s in d.sessions && s !in seen.sessions :: d.sessions[s],
      map k | k in d.keys :: if k in seen.keys then d.keys[k].(revoked := true) else d.keys[k],
      map v | v in d.vms :: if v in seen.vms then d.vms[v].(token := false) else d.vms[v])
  }

  /** A machine after the deletion of account a: the ones handed over carry a
      fresh token, and the foreign key clears whatever else named the account. */
  function HandedOver(vm: Vm, a: Id, detached: bool): Vm {
    if detached then vm.(owner := None, token := true)
    else if vm.owner == Some(a) then vm.(owner := None)
    else vm
  }

  function Removed(d: Tables, a: Id, seen: Seen): Tables {
    Tables(
      map b | b in d.accounts && b != a :: d.accounts[b],
      map s | s in d.sessions && d.sessions[s] != a :: d.sessions[s],
      map k | k in d.keys && d.keys[k].account != a :: d.keys[k],
      map v | v in d.vms :: HandedOver(d.vms[v], a, v in seen.vms))
  }

  function Later(stage: Stage): Stage { if stage.Live? then Deleting else Gone }

  /** What the commit of a request writes. */
  function Effect(d: Tables, r: Request, seen: Seen): Tables
    requires Applicable(d, r)
  {
    match r
    case Disable(_, a) => Fenced(d, a, seen)
    case Enable(_, a) => WithAccount(d, a, d.accounts[a].(disabled := false))
    case SetRole(_, a, admin) => WithAccount(d, a, d.accounts[a].(admin := admin))
    case Login(a, s) => d.(sessions := d.sessions[s := a])
    case MintKey(a, k) => d.(keys := d.keys[k := Key(a, false)])
    case InsertVm(v, o) => WithVm(d, v, Vm(o, true, Live))
    case Activate(v, _, p) => WithVm(d, v, if d.vms[v].owner.None? then d.vms[v].(owner := p) else d.vms[v])
    case Claim(a, v) => WithVm(d, v, d.vms[v].(owner := Some(a), token := false))
    case Transfer(_, v, _, a) => WithVm(d, v, d.vms[v].(owner := Some(a), token := false))
    case DeleteAccount(a, _, _) => Removed(d, a, seen)
    case AdvanceDeletion(v) => WithVm(d, v, d.vms[v].(stage := Later(d.vms[v].stage)))
  }

  datatype Outcome = Done | Unauthorized | Forbidden | NotFound | Conflict

  /** The answer of a handler that runs without interference, its checks in
      the order in which the handler makes them. */
  function Verdict(d: Tables, r: Request): Outcome {
    match r
    case Disable(actor, a) =>
      if a == actor then Conflict else if !Administrates(d, actor) then Forbidden
      else if a !in d.accounts then NotFound
      else if Administrates(d, a) && |Administrators(d)| <= 1 then Conflict else Done
    case Enable(actor, a) =>
      if !Administrates(d, actor) then Forbidden else if a !in d.accounts then NotFound else Done
    case SetRole(actor, a, admin) =>
      if a == actor && !admin then Conflict else if !Administrates(d, actor) then Forbidden
      else if a !in d.accounts then NotFound
      else if !admin && Administrates(d, a) && |Administrators(d)| <= 1 then Conflict else Done
    case Login(a, s) => if a !in d.accounts || s in d.sessions then Unauthorized else if !Usable(d, a) then Forbidden else Done
    case MintKey(a, k) => if !Usable(d, a) || k in d.keys then Forbidden else Done
    case InsertVm(v, o) => if o.Some? && !Usable(d, o.value) then Forbidden else if v in d.vms then Conflict else Done
    case Activate(v, expected, p) =>
      if v !in d.vms then NotFound
      else if (expected.Some? && !Usable(d, expected.value)) || (p.Some? && !Usable(d, p.value)) then Forbidden
      else if d.vms[v].owner != expected then Conflict else Done
    case Claim(a, v) =>
      if !Usable(d, a) then Forbidden else if v !in d.vms then NotFound
      else if d.vms[v].owner.Some? || !d.vms[v].stage.Live? then Conflict else Done
    case Transfer(actor, v, expected, a) =>
      if !Administrates(d, actor) then Forbidden else if v !in d.vms then NotFound
      else if !Usable(d, a) || d.vms[v].owner != expected || !d.vms[v].stage.Live? then Conflict else Done
    case DeleteAccount(a, detach, blocked) =>
      if a !in d.accounts then Conflict else if !Usable(d, a) then Forbidden
      else if d.accounts[a].admin || blocked || (!detach && Remaining(d, a) != {}) then Conflict else Done
    case AdvanceDeletion(v) => if v in d.vms then Done else NotFound
  }

  /** What login, key minting, insertion, activation, transfer and the stages of a
      deletion write, and nothing else. */
  lemma EffectOutcome(d: Tables, r: Request, seen: Seen)
    requires Applicable(d, r)
    ensures var e := Effect(d, r, seen);
            && (r.Login? ==> e == d.(sessions := e.sessions) && e.sessions.Keys == d.sessions.Keys + {r.session}
                             && e.sessions[r.session] == r.account)
            && (r.MintKey? ==> e == d.(keys := e.keys) && e.keys.Keys == d.keys.Keys + {r.key} && e.keys[r.key] == Key(r.account, false))
            && (r.InsertVm? ==> e == d.(vms := e.vms) && e.vms.Keys == d.vms.Keys + {r.vm} && e.vms[r.vm] == Vm(r.owner, true, Live))
            && (r.Activate? ==>
                  && e == d.(vms := e.vms) && e.vms.Keys == d.vms.Keys
                  && e.vms[r.vm].owner == (if d.vms[r.vm].owner == None then r.payer else d.vms[r.vm].owner)
                  && e.vms[r.vm].token == d.vms[r.vm].token)
            && (r.Transfer? ==>
                  && e == d.(vms := e.vms) && e.vms.Keys == d.vms.Keys
                  && e.vms[r.vm].owner == Some(r.target) && !e.vms[r.vm].token && e.vms[r.vm].stage == d.vms[r.vm].stage)
            && (r.AdvanceDeletion? ==>
                  && e == d.(vms := e.vms) && e.vms.Keys == d.vms.Keys && e.vms[r.vm].stage != Live
                  && (e.vms[r.vm].stage == Gone <==> d.vms[r.vm].stage != Live) && e.vms[r.vm].owner == d.vms[r.vm].owner)
            && (r.DeleteAccount? ==>
                  && e.accounts.Keys == d.accounts.Keys - {r.account} && e.vms.Keys == d.vms.Keys
                  && (forall v | v in e.vms :: e.vms[v].owner != Some(r.account))
                  && (forall v | v in e.vms && v in seen.vms :: e.vms[v].owner == None && e.vms[v].token))
  {
  }

  /** Who is served, request by request. */
  lemma VerdictOutcome(d: Tables, r: Request)
    ensures r.Login? ==> (Verdict(d, r).Done? <==> Usable(d, r.account) && r.session !in d.sessions)
    ensures r.MintKey? ==> (Verdict(d, r).Done? <==> Usable(d, r.account) && r.key !in d.keys)
    ensures r.InsertVm? ==> (Verdict(d, r).Done? <==> (r.owner.Some? ==> Usable(d, r.owner.value)) && r.vm !in d.vms)
    ensures r.Activate? ==>
              (Verdict(d, r).Done? <==>
                 && r.vm in d.vms && d.vms[r.vm].owner == r.expected
                 && (r.expected.Some? ==> Usable(d, r.expected.value)) && (r.payer.Some? ==> Usable(d, r.payer.value)))
    ensures r.Transfer? ==>
              (Verdict(d, r).Done? <==>
                 && Administrates(d, r.actor) && Usable(d, r.target)
                 && r.vm in d.vms && d.vms[r.vm].owner == r.expected && d.vms[r.vm].stage == Live)
    ensures r.DeleteAccount? ==>
              (Verdict(d, r).Done? <==>
                 && Usable(d, r.account) && !d.accounts[r.account].admin && !r.blocked
                 && (r.detach || Remaining(d, r.account) == {}))
    ensures r.AdvanceDeletion? ==> (Verdict(d, r).Done? <==> r.vm in d.vms)
  {
  }

  function Handled(d: Tables, r: Request): Tables {
    if Verdict(d, r).Done? then Effect(d, r, SeenBy(d, r)) else d
  }

  function Detached(vms: map<Id, Vm>, done: set<Id>): map<Id, Vm> {
    map v | v in vms :: if v in done then vms[v].(owner := None, token := true) else vms[v]
  }

  lemma DetachedOne(vms: map<Id, Vm>, done: set<Id>, v: Id)
    requires v in vms && v !in done
    ensures Detached(vms, done + {v}) == Detached(vms, done)[v := vms[v].(owner := None, token := true)]
    ensures Detached(vms, done)[v] == vms[v]
  {
  }

  /** A disable takes everything from the account, and nothing from any other. */
  lemma DisableOutcome(d: Tables, a: Id)
    requires a in d.accounts
    ensures var e := Fenced(d, a, SeenBy(d, Disable(a, a)));
            && e.accounts.Keys == d.accounts.Keys && e.accounts[a] == Account(d.accounts[a].admin, true)
            && SessionsOf(e, a) == {} && LiveKeysOf(e, a) == {}
            && (forall b | b in d.accounts && b != a :: e.accounts[b] == d.accounts[b])
            && (forall s | s in d.sessions && d.sessions[s] != a :: s in e.sessions && e.sessions[s] == d.sessions[s])
            && e.keys.Keys == d.keys.Keys && (forall k | k in d.keys && d.keys[k].account != a :: e.keys[k] == d.keys[k])
            && e.vms.Keys == d.vms.Keys
            && (forall v | v in d.vms ::
                  e.vms[v] == d.vms[v].(token := d.vms[v].token && d.vms[v].owner != Some(a)))
  {
    var e := Fenced(d, a, SeenBy(d, Disable(a, a)));
    assert forall k | k in e.keys :: e.keys[k] == Key(a, false) ==> d.keys[k] == Key(a, false);
  }

  /** A deletion takes the account with its sessions and keys, hands over what is
      left of its machines, and leaves every other account as it was. */
  lemma DeletionOutcome(d: Tables, a: Id)
    ensures var e := Removed(d, a, Seen({}, {}, Remaining(d, a)));
            && e.accounts.Keys == d.accounts.Keys - {a} && (forall b | b in e.accounts :: e.accounts[b] == d.accounts[b])
            && SessionsOf(e, a) == {} && MachinesOf(e, a) == {}
            && (forall s | s in d.sessions && d.sessions[s] != a :: s in e.sessions && e.sessions[s] == d.sessions[s])
            && (forall k | k in d.keys && d.keys[k].account != a :: k in e.keys && e.keys[k] == d.keys[k])
            && e.vms.Keys == d.vms.Keys
            && (forall v | v in d.vms ::
                  e.vms[v] == if d.vms[v].owner != Some(a) then d.vms[v]
                              else d.vms[v].(owner := None, token := d.vms[v].token || d.vms[v].stage != Gone))
  {
  }

  lemma DetachedThenRemoved(d: Tables, a: Id)
    ensures var owned := Remaining(d, a);
            Removed(d.(vms := Detached(d.vms, owned)), a, Seen({}, {}, {})) == Removed(d, a, Seen({}, {}, owned))
  {
    var owned := Remaining(d, a);
    assert Removed(d.(vms := Detached(d.vms, owned)), a, Seen({}, {}, {})).vms == Removed(d, a, Seen({}, {}, owned)).vms;
  }

  /** The handlers, each a sequence of updates in one transaction. */
  class Directory {
    var accounts: map<Id, Account>
    var sessions: map<Id, Id>
    var keys: map<Id, Key>
    var vms: map<Id, Vm>

    function View(): Tables
      reads this
    {
      Tables(accounts, sessions, keys, vms)
    }

    constructor ()
      ensures View() == Tables(map[], map[], map[], map[])
    {
      accounts, sessions, keys, vms := map[], map[], map[], map[];
    }

    /** What a disable writes: the account, its sessions, its keys, and the tokens
        of its machines. */
    method FenceAccount(target: Id)
      requires target in accounts
      modifies this
      ensures View() == Fenced(old(View()), target, SeenBy(old(View()), Disable(target, target)))
    {
      accounts := accounts[target := accounts[target].(disabled := true)];
      sessions := map s | s in sessions && sessions[s] != target :: sessions[s];
      keys := map k | k in keys :: if keys[k] == Key(target, false) then Key(target, true) else keys[k];
      vms := map v | v in vms :: if vms[v].owner == Some(target) then vms[v].(token := false) else vms[v];
      ghost var after := Fenced(old(View()), target, SeenBy(old(View()), Disable(target, target)));
      assert sessions == after.sessions && keys == after.keys && vms == after.vms;
    }

    method DisableAccount(actor: Id, target: Id) returns (outcome: Outcome)
      modifies this
      ensures var r := Disable(actor, target); outcome == Verdict(old(View()), r) && View() == Handled(old(View()), r)
      ensures outcome.Done? <==>
                && actor != target && old(Administrates(View(), actor)) && target in old(accounts)
                && (old(accounts)[target].admin && !old(accounts)[target].disabled ==> |old(Administrators(View()))| > 1)
      ensures outcome.Done? ==>
                && target in accounts && accounts[target] == Account(old(accounts)[target].admin, true)
                && SessionsOf(View(), target) == {} && LiveKeysOf(View(), target) == {}
                && forall v | v in vms && vms[v].owner == Some(target) :: !vms[v].token
    {
      if target == actor { return Conflict; }
      if !Administrates(View(), actor) { return Forbidden; }
      var enabled := |Administrators(View())|;
      if target !in accounts { return NotFound; }
      if accounts[target].admin && !accounts[target].disabled && enabled <= 1 { return Conflict; }
      FenceAccount(target);
      outcome := Done;
      DisableOutcome(old(View()), target);
    }

    method EnableAccount(actor: Id, target: Id) returns (outcome: Outcome)
      modifies this
      ensures var r := Enable(actor, target); outcome == Verdict(old(View()), r) && View() == Handled(old(View()), r)
      ensures outcome.Done? <==> old(Administrates(View(), actor)) && target in old(accounts)
      ensures outcome.Done? ==> target in accounts && accounts[target] == Account(old(accounts)[target].admin, false)
      ensures sessions == old(sessions) && keys == old(keys) && vms == old(vms)
    {
      if !Administrates(View(), actor) { return Forbidden; }
      if target !in accounts { return NotFound; }
      accounts := accounts[target := accounts[target].(disabled := false)];
      return Done;
    }

    method SetAccountRole(actor: Id, target: Id, admin: bool) returns (outcome: Outcome)
      modifies this
      ensures var r := SetRole(actor, target, admin);
              outcome == Verdict(old(View()), r) && View() == Handled(old(View()), r)
      ensures outcome.Done? <==>
                && (actor == target ==> admin) && old(Administrates(View(), actor)) && target in old(accounts)
                && (!admin && old(accounts)[target].admin && !old(accounts)[target].disabled ==> |old(Administrators(View()))| > 1)
      ensures outcome.Done? ==> target in accounts && accounts[target] == Account(admin, old(accounts)[target].disabled)
      ensures sessions == old(sessions) && keys == old(keys) && vms == old(vms)
    {
      if target == actor && !admin { return Conflict; }
      if !Administrates(View(), actor) { return Forbidden; }
      var enabled := |Administrators(View())|;
      if target !in accounts { return NotFound; }
      if accounts[target].admin && !admin && !accounts[target].disabled && enabled <= 1 { return Conflict; }
      accounts := accounts[target := accounts[target].(admin := admin)];
      return Done;
    }

    method ClaimVm(account: Id, vm: Id) returns (outcome: Outcome)
      modifies this
      ensures var r := Claim(account, vm); outcome == Verdict(old(View()), r) && View() == Handled(old(View()), r)
      ensures outcome.Done? <==>
                && account in old(accounts) && !old(accounts)[account].disabled
                && vm in old(vms) && old(vms)[vm].owner == None && old(vms)[vm].stage == Live
      ensures outcome.Done? ==> vm in vms && vms[vm].owner == Some(account) && !vms[vm].token && vms[vm].stage == Live
      ensures vms.Keys == old(vms.Keys) && forall v | v in vms && v != vm :: vms[v] == old(vms)[v]
      ensures accounts == old(accounts) && sessions == old(sessions) && keys == old(keys)
    {
      if account !in accounts || accounts[account].disabled { return Forbidden; }
      if vm !in vms { return NotFound; }
      if vms[vm].owner.Some? || vms[vm].stage != Live { return Conflict; }
      vms := vms[vm := vms[vm].(owner := Some(account))];
      vms := vms[vm := vms[vm].(token := false)];
      outcome := Done;
      assert vms == old(vms)[vm := old(vms)[vm].(owner := Some(account), token := false)];
    }

    /** Every machine gets a fresh token and loses its owner, one by one. */
    method HandOver(owned: set<Id>) returns (detached: seq<Id>)
      requires owned <= vms.Keys
      modifies this`vms
      ensures multiset(detached) == multiset(owned)
      ensures vms == Detached(old(vms), owned)
    {
      detached := [];
      var left, done := owned, {};
      while left != {}
        invariant left !! done && left + done == owned
        invariant multiset(detached) == multiset(done) && vms == Detached(old(vms), done)
        decreases left
      {
        var v :| v in left;
        DetachedOne(old(vms), done, v);
        vms := vms[v := vms[v].(token := true)];
        vms := vms[v := vms[v].(owner := None)];
        detached, left, done := detached + [v], left - {v}, done + {v};
      }
    }

    /** Removing the row cascades to its sessions and keys, and clears it from
        machines that still name it. */
    method RemoveAccount(account: Id)
      modifies this
      ensures View() == Removed(old(View()), account, Seen({}, {}, {}))
    {
      sessions := map s | s in sessions && sessions[s] != account :: sessions[s];
      keys := map k | k in keys && keys[k].account != account :: keys[k];
      vms := map v | v in vms :: if vms[v].owner == Some(account) then vms[v].(owner := None) else vms[v];
      accounts := map b | b in accounts && b != account :: accounts[b];
      ghost var after := Removed(old(View()), account, Seen({}, {}, {}));
      assert accounts == after.accounts && sessions == after.sessions && keys == after.keys && vms == after.vms;
    }

    /** Account deletion with the detach policy. */
    method DetachAccount(account: Id, blocked: bool) returns (outcome: Outcome, detached: seq<Id>)
      modifies this
      ensures var r := DeleteAccount(account, true, blocked);
              outcome == Verdict(old(View()), r) && View() == Handled(old(View()), r)
      ensures outcome.Done? <==>
                account in old(accounts) && !old(accounts)[account].disabled && !old(accounts)[account].admin && !blocked
      ensures outcome.Done? ==> account !in accounts && accounts.Keys == old(accounts.Keys) - {account}
      ensures outcome.Done? ==> SessionsOf(View(), account) == {} && MachinesOf(View(), account) == {}
      ensures outcome.Done? ==> forall v | v in old(Remaining(View(), account)) :: v in vms && vms[v].owner == None && vms[v].token
      ensures outcome.Done? ==> multiset(detached) == multiset(old(Remaining(View(), account)))
      ensures !outcome.Done? ==> detached == []
    {
      detached := [];
      if account !in accounts { return Conflict, detached; }
      if accounts[account].disabled { return Forbidden, detached; }
      if accounts[account].admin { return Conflict, detached; }
      if blocked { return Conflict, detached; }
      detached := HandOver(Remaining(View(), account));
      ghost var handed := View();
      RemoveAccount(account);
      outcome := Done;
      DetachedThenRemoved(old(View()), account);
      assert handed == old(View()).(vms := Detached(old(vms), old(Remaining(View(), account))));
      DeletionOutcome(old(View()), account);
    }
  }
}
