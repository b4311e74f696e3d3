/** Account and administration transactions interleaved lock by lock. A
    transaction locks and re-reads account rows, then machine rows, lets its
    statements see what is committed at that moment, and writes only at its
    commit; in between any other transaction may run. */
module AccountFence {
  import opened Records
  import opened Accounts

  /** accounts and vms are the row locks held; count is the number of enabled
      administrators read; seen is what the statements found. */
  datatype Txn = Txn(request: Request, accounts: set<Id>, vms: set<Id>, count: Option<nat>, seen: Option<Seen>)

  datatype World = World(tables: Tables, open: map<Id, Txn>)

  /** Registration commits its account, its session and its starter key
      separately; Bootstrap is the command line creating an administrator. */
  datatype Step =
    | Open(t: Id, request: Request)
    | LockAccount(t: Id, account: Id)
    | CountAdministrators(t: Id)
    | LockVm(t: Id, vm: Id)
    | Sweep(t: Id)
    | Commit(t: Id)
    | Abort(t: Id)
    | RegisterAccount(account: Id)
    | RegisterSession(account: Id, session: Id)
    | RegisterKey(account: Id, key: Id)
    | Bootstrap(account: Id)
    | DropSession(session: Id)
    | RevokeKey(key: Id)
    | ReleaseRow(vm: Id)

  function Maybe(a: Option<Id>): set<Id> { if a.Some? then {a.value} else {} }

  function Needs(r: Request): set<Id> {
    match r
    case Disable(actor, a) => {actor, a}
    case Enable(actor, a) => {actor, a}
    case SetRole(actor, a, _) => {actor, a}
    case Login(a, _) => {a}
    case MintKey(a, _) => {a}
    case InsertVm(_, o) => Maybe(o)
    case Activate(_, expected, p) => Maybe(expected) + Maybe(p)
    case Claim(a, _) => {a}
    case Transfer(actor, _, _, a) => {actor, a}
    case DeleteAccount(a, _, _) => {a}
    case AdvanceDeletion(_) => {}
  }

  function Actor(r: Request): Option<Id> {
    match r
    case Disable(actor, _) => Some(actor)
    case Enable(actor, _) => Some(actor)
    case SetRole(actor, _, _) => Some(actor)
    case Transfer(actor, _, _, _) => Some(actor)
    case _ => None
  }

  function VmsOf(r: Request): set<Id> {
    match r
    case Activate(v, _, _) => {v}
    case Claim(_, v) => {v}
    case Transfer(_, v, _, _) => {v}
    case AdvanceDeletion(v) => {v}
    case _ => {}
  }

  predicate Sweeps(r: Request) { r.Disable? || r.DeleteAccount? }

  /** A request that takes an administrator away from account a. */
  predicate Demotes(r: Request, a: Id) {
    (r.Disable? && r.target == a) || (r.SetRole? && r.target == a && !r.admin)
  }

  predicate NotAgainstSelf(r: Request) { Actor(r).Some? ==> !Demotes(r, Actor(r).value) }

  /** What a transaction checks on an account row right after locking it. */
  predicate AccountPasses(d: Tables, r: Request, a: Id) {
    && a in d.accounts
    && (Actor(r) == Some(a) ==> Administrates(d, a))
    && (!r.Disable? && !r.Enable? && !r.SetRole? ==> Usable(d, a))
    && (r.DeleteAccount? ==> !d.accounts[a].admin)
  }

  predicate VmPasses(d: Tables, r: Request, v: Id) {
    && v in d.vms
    && match r
       case Disable(_, a) => d.vms[v].owner == Some(a)
       case DeleteAccount(a, _, _) => d.vms[v].owner == Some(a)
       case Activate(_, expected, _) => d.vms[v].owner == expected
       case Claim(_, _) => d.vms[v].owner.None? && d.vms[v].stage.Live?
       case Transfer(_, _, expected, _) => d.vms[v].owner == expected && d.vms[v].stage.Live?
       case _ => true
  }

  predicate AccountFree(w: World, t: Id, a: Id) { forall u | u in w.open && u != t :: a !in w.open[u].accounts }

  predicate VmFree(w: World, t: Id, v: Id) { forall u | u in w.open && u != t :: v !in w.open[u].vms }

  predicate NeverSwept(w: World, s: Id) {
    forall u | u in w.open && w.open[u].seen.Some? :: s !in w.open[u].seen.value.sessions && s !in w.open[u].seen.value.keys
  }

  /** Tokens and identifiers are drawn at random and never come back. */
  predicate FreshAccount(w: World, a: Id) { a !in w.tables.accounts && forall u | u in w.open :: a !in Needs(w.open[u].request) }

  predicate ReadyToCommit(w: World, t: Id)
    requires t in w.open
  {
    var x := w.open[t];
    && x.accounts == Needs(x.request) && VmsOf(x.request) <= x.vms
    && (Sweeps(x.request) ==> x.seen.Some?)
    && Applicable(w.tables, x.request)
    && (x.request.DeleteAccount? ==> forall v | v in MachinesOf(w.tables, x.request.account) :: VmFree(w, t, v))
  }

  predicate Enabled(w: World, s: Step) {
    var d := w.tables;
    match s
    case Open(t, r) =>
      t !in w.open && NotAgainstSelf(r)
    case LockAccount(t, a) =>
      && t in w.open
      && var x := w.open[t];
         && a in Needs(x.request) && a !in x.accounts && x.seen.None? && x.vms == {}
         && AccountFree(w, t, a) && AccountPasses(d, x.request, a)
         && (Demotes(x.request, a) ==> x.count.Some? && (Administrates(d, a) ==> x.count.value > 1))
    case CountAdministrators(t) =>
      t in w.open && w.open[t].count.None? && Maybe(Actor(w.open[t].request)) <= w.open[t].accounts
    case LockVm(t, v) =>
      && t in w.open
      && var x := w.open[t];
         v in VmsOf(x.request) && x.accounts == Needs(x.request) && VmFree(w, t, v) && VmPasses(d, x.request, v)
    case Sweep(t) =>
      && t in w.open
      && var x := w.open[t];
         && Sweeps(x.request) && x.accounts == Needs(x.request) && x.seen.None?
         && (forall v | v in SeenBy(d, x.request).vms :: VmFree(w, t, v))
         && (x.request.DeleteAccount? ==> !x.request.blocked)
         && (x.request.DeleteAccount? && !x.request.detach ==> SeenBy(d, x.request).vms == {})
    case Commit(t) => t in w.open && ReadyToCommit(w, t)
    case Abort(t) => t in w.open
    case RegisterAccount(a) => FreshAccount(w, a)
    case RegisterSession(a, s) => a in d.accounts && s !in d.sessions && NeverSwept(w, s)
    case RegisterKey(a, k) => a in d.accounts && k !in d.keys && NeverSwept(w, k)
    case Bootstrap(a) => FreshAccount(w, a)
    case DropSession(s) => true
    case RevokeKey(k) => k in d.keys
    case ReleaseRow(v) => forall u | u in w.open :: v !in w.open[u].vms
  }

  function Next(w: World, s: Step): World
    requires Enabled(w, s)
  {
    var d := w.tables;
    match s
    case Open(t, r) => w.(open := w.open[t := Txn(r, {}, {}, None, None)])
    case LockAccount(t, a) => w.(open := w.open[t := w.open[t].(accounts := w.open[t].accounts + {a})])
    case CountAdministrators(t) => w.(open := w.open[t := w.open[t].(count := Some(|Administrators(d)|))])
    case LockVm(t, v) => w.(open := w.open[t := w.open[t].(vms := w.open[t].vms + {v})])
    case Sweep(t) =>
      var seen := SeenBy(d, w.open[t].request);
      w.(open := w.open[t := w.open[t].(seen := Some(seen), vms := w.open[t].vms + seen.vms)])
    case Commit(t) => World(Committed(d, w.open[t]), w.open - {t})
    case Abort(t) => w.(open := w.open - {t})
    case RegisterAccount(a) => w.(tables := WithAccount(d, a, Account(false, false)))
    case RegisterSession(a, s) => w.(tables := d.(sessions := d.sessions[s := a]))
    case RegisterKey(a, k) => w.(tables := d.(keys := d.keys[k := Key(a, false)]))
    case Bootstrap(a) => w.(tables := WithAccount(d, a, Account(true, false)))
    case DropSession(s) => w.(tables := d.(sessions := d.sessions - {s}))
    case RevokeKey(k) => w.(tables := d.(keys := d.keys[k := d.keys[k].(revoked := true)]))
    case ReleaseRow(v) => w.(tables := d.(vms := d.vms - {v}))
  }

  function Found(x: Txn): Seen { if x.seen.Some? then x.seen.value else Seen({}, {}, {}) }

  function Committed(d: Tables, x: Txn): Tables
    requires Applicable(d, x.request)
  {
    Effect(d, x.request, Found(x))
  }

  predicate Run(w: World, steps: seq<Step>)
    decreases |steps|
  {
    steps == [] || (Enabled(w, steps[0]) && Run(Next(w, steps[0]), steps[1..]))
  }

  function After(w: World, steps: seq<Step>): World
    requires Run(w, steps)
    decreases |steps|
  {
    if steps == [] then w else After(Next(w, steps[0]), steps[1..])
  }

  // ----- what holds between any two steps -----

  predicate Exclusive(w: World) {
    forall t, u | t in w.open && u in w.open && t != u ::
      w.open[t].accounts !! w.open[u].accounts && w.open[t].vms !! w.open[u].vms
  }

  /** Everything a transaction checked under its locks is still so. */
  predicate StillChecked(d: Tables, x: Txn) {
    && x.accounts <= Needs(x.request)
    && (forall a | a in x.accounts :: AccountPasses(d, x.request, a))
    && (forall v | v in x.vms :: VmPasses(d, x.request, v))
    && (x.vms != {} || x.seen.Some? ==> x.accounts == Needs(x.request))
    && (x.seen.Some? ==> Sweeps(x.request) && x.seen.value.vms <= x.vms)
    && NotAgainstSelf(x.request)
    && (x.request.DeleteAccount? && x.seen.Some? ==> Remaining(d, x.request.account) <= x.seen.value.vms)
  }

  /** Owners, sessions and keys name accounts that exist. */
  predicate Linked(d: Tables) {
    && (forall v | v in d.vms && d.vms[v].owner.Some? :: d.vms[v].owner.value in d.accounts)
    && (forall s | s in d.sessions :: d.sessions[s] in d.accounts)
    && (forall k | k in d.keys :: d.keys[k].account in d.accounts)
  }

  /** No machine is out of everybody's reach: until it is destroyed it has an
      owner or a token. */
  predicate InReach(d: Tables) { forall v | v in d.vms && !d.vms[v].stage.Gone? :: d.vms[v].owner.Some? || d.vms[v].token }

  predicate Sound(w: World) {
    && Exclusive(w) && (forall t | t in w.open :: StillChecked(w.tables, w.open[t]))
    && Linked(w.tables) && InReach(w.tables)
  }

  /** A disabled account has no session, no unrevoked key, and no machine that
      a management token still opens. */
  predicate Fence(d: Tables) {
    forall a | a in d.accounts && d.accounts[a].disabled ::
      SessionsOf(d, a) == {} && LiveKeysOf(d, a) == {} && forall v | v in MachinesOf(d, a) :: !d.vms[v].token
  }

  /** A disable that ran its statements has found everything there is. */
  predicate FoundAll(d: Tables, x: Txn) {
    x.request.Disable? && x.seen.Some? ==>
      && SessionsOf(d, x.request.target) <= x.seen.value.sessions
      && LiveKeysOf(d, x.request.target) <= x.seen.value.keys
      && MachinesOf(d, x.request.target) <= x.seen.value.vms
  }

  predicate Guarded(w: World) { Fence(w.tables) && forall t | t in w.open :: FoundAll(w.tables, w.open[t]) }

  // ----- what a change of the tables leaves alone -----

  predicate SameAccount(d: Tables, e: Tables, a: Id) {
    (a in d.accounts <==> a in e.accounts) && (a in d.accounts ==> d.accounts[a] == e.accounts[a])
  }

  /** Rows outside the given locks are untouched, destroyed machines stay
      destroyed, and machines come only to locked accounts. */
  ghost predicate Confined(d: Tables, e: Tables, accounts: set<Id>, vms: set<Id>) {
    && (forall a | a !in accounts :: SameAccount(d, e, a))
    && (forall v | v in d.vms && v !in vms :: v in e.vms && e.vms[v] == d.vms[v])
    && (forall v | v in e.vms && e.vms[v].owner.Some? && e.vms[v].owner.value !in accounts ::
          Owns(d, e.vms[v].owner.value, v) && (d.vms[v].stage.Gone? ==> e.vms[v].stage.Gone?))
  }

  /** Sessions and live keys come only to locked accounts. */
  predicate Withheld(d: Tables, e: Tables, accounts: set<Id>) {
    && (forall s | s in e.sessions && e.sessions[s] !in accounts :: s in d.sessions && d.sessions[s] == e.sessions[s])
    && (forall k | k in e.keys && !e.keys[k].revoked && e.keys[k].account !in accounts ::
          k in d.keys && d.keys[k] == e.keys[k])
  }

  /** A transaction that has its locks, and what it found, and can commit. */
  ghost predicate Complete(d: Tables, x: Txn) {
    && StillChecked(d, x) && x.accounts == Needs(x.request) && VmsOf(x.request) <= x.vms
    && (Sweeps(x.request) ==> x.seen.Some?) && Applicable(d, x.request)
  }

  /** The machine rows a commit may write: a deletion also touches the
      destroyed machines of its account. */
  function Touched(d: Tables, x: Txn): set<Id> {
    if x.request.DeleteAccount? then x.vms + MachinesOf(d, x.request.account) else x.vms
  }

  ghost predicate InsideLocks(d: Tables, x: Txn)
    requires Applicable(d, x.request)
  {
    var e := Committed(d, x);
    Confined(d, e, x.accounts, Touched(d, x)) && Withheld(d, e, x.accounts)
  }

  lemma DisableInsideLocks(d: Tables, x: Txn)
    requires Complete(d, x) && x.request.Disable?
    ensures InsideLocks(d, x)
  {}

  lemma DeletionInsideLocks(d: Tables, x: Txn)
    requires Complete(d, x) && x.request.DeleteAccount?
    ensures InsideLocks(d, x)
  {
  }

  lemma AccountRowInsideLocks(d: Tables, x: Txn)
    requires Complete(d, x)
    requires x.request.Enable? || x.request.SetRole? || x.request.Login? || x.request.MintKey?
    ensures InsideLocks(d, x)
  {}

  lemma OwnerRowInsideLocks(d: Tables, x: Txn)
    requires Complete(d, x) && (x.request.Activate? || x.request.Claim? || x.request.Transfer?)
    ensures InsideLocks(d, x)
  {
  }

  lemma MachineRowInsideLocks(d: Tables, x: Txn)
    requires Complete(d, x) && (x.request.InsertVm? || x.request.AdvanceDeletion?)
    ensures InsideLocks(d, x)
  {
  }

  /** A commit stays inside the locks of its transaction. */
  lemma CommitInsideLocks(d: Tables, x: Txn)
    requires Complete(d, x)
    ensures InsideLocks(d, x)
  {
    match x.request
    case Disable(_, _) => DisableInsideLocks(d, x);
    case DeleteAccount(_, _, _) => DeletionInsideLocks(d, x);
    case Enable(_, _) => AccountRowInsideLocks(d, x);
    case SetRole(_, _, _) => AccountRowInsideLocks(d, x);
    case Login(_, _) => AccountRowInsideLocks(d, x);
    case MintKey(_, _) => AccountRowInsideLocks(d, x);
    case Activate(_, _, _) => OwnerRowInsideLocks(d, x);
    case Claim(_, _) => OwnerRowInsideLocks(d, x);
    case Transfer(_, _, _, _) => OwnerRowInsideLocks(d, x);
    case _ => MachineRowInsideLocks(d, x);
  }

  lemma OtherStaysChecked(d: Tables, e: Tables, accounts: set<Id>, vms: set<Id>, x: Txn)
    requires StillChecked(d, x) && Confined(d, e, accounts, vms)
    requires x.accounts !! accounts && x.vms !! vms
    ensures StillChecked(e, x)
  {
  }

  lemma OtherFoundAll(d: Tables, e: Tables, accounts: set<Id>, vms: set<Id>, x: Txn)
    requires StillChecked(d, x) && Confined(d, e, accounts, vms) && Withheld(d, e, accounts)
    requires x.accounts !! accounts && FoundAll(d, x)
    ensures FoundAll(e, x)
  {
  }

  // ----- one commit -----

  lemma CommitKeepsLinks(d: Tables, x: Txn)
    requires Complete(d, x) && Linked(d)
    ensures Linked(Committed(d, x))
  {
  }

  /** A disable takes tokens only from machines that have an owner, and a
      deletion hands every remaining machine a fresh token. */
  lemma CommitKeepsReach(d: Tables, x: Txn)
    requires Complete(d, x) && InReach(d)
    ensures InReach(Committed(d, x))
  {
  }

  lemma DisableKeepsFence(d: Tables, x: Txn)
    requires Complete(d, x) && Fence(d) && FoundAll(d, x) && x.request.Disable?
    ensures Fence(Committed(d, x))
  {
  }

  lemma DeletionKeepsFence(d: Tables, x: Txn)
    requires Complete(d, x) && Fence(d) && x.request.DeleteAccount?
    ensures Fence(Committed(d, x))
  {
  }

  lemma OtherKeepsFence(d: Tables, x: Txn)
    requires Complete(d, x) && Fence(d) && !Sweeps(x.request)
    ensures Fence(Committed(d, x))
  {
    var e := Committed(d, x);
    forall a | a in e.accounts && e.accounts[a].disabled
      ensures SessionsOf(e, a) == {} && LiveKeysOf(e, a) == {} && forall v | v in MachinesOf(e, a) :: !e.vms[v].token
    {
      assert d.accounts[a].disabled;
      assert SessionsOf(e, a) <= SessionsOf(d, a) && LiveKeysOf(e, a) <= LiveKeysOf(d, a);
      assert forall v | v in MachinesOf(e, a) :: v in MachinesOf(d, a) || !e.vms[v].token;
      assert forall v | v in MachinesOf(e, a) && v in MachinesOf(d, a) :: e.vms[v].token ==> d.vms[v].token;
    }
  }

  lemma CommitKeepsFence(d: Tables, x: Txn)
    requires Complete(d, x) && Fence(d) && FoundAll(d, x)
    ensures Fence(Committed(d, x))
  {
    if x.request.Disable? { DisableKeepsFence(d, x); }
    else if x.request.DeleteAccount? { DeletionKeepsFence(d, x); }
    else { OtherKeepsFence(d, x); }
  }

  /** Whoever takes an administrator away is another one, still locked. */
  lemma CommitKeepsAdministrator(d: Tables, x: Txn)
    requires Complete(d, x) && Administrators(d) != {}
    ensures Administrators(Committed(d, x)) != {}
    ensures Actor(x.request).Some? ==> Administrates(d, Actor(x.request).value)
  {
    var e := Committed(d, x);
    var a :| a in Administrators(d);
    var keeper := if x.request.Disable? || x.request.SetRole? then Actor(x.request).value else a;
    assert keeper in Administrators(e);
  }

  // ----- every step -----

  lemma OthersStaySound(w: World, e: Tables, accounts: set<Id>, vms: set<Id>)
    requires Sound(w) && Confined(w.tables, e, accounts, vms) && Linked(e) && InReach(e)
    requires forall u | u in w.open :: w.open[u].accounts !! accounts && w.open[u].vms !! vms
    ensures Sound(w.(tables := e))
  {
    forall u | u in w.open ensures StillChecked(e, w.open[u]) {
      OtherStaysChecked(w.tables, e, accounts, vms, w.open[u]);
    }
  }

  lemma CommitKeepsSound(w: World, t: Id)
    requires Sound(w) && Enabled(w, Commit(t))
    ensures Sound(Next(w, Commit(t)))
  {
    var d, x := w.tables, w.open[t];
    CommitInsideLocks(d, x);
    CommitKeepsLinks(d, x);
    CommitKeepsReach(d, x);
    var rest := World(d, w.open - {t});
    assert forall u | u in rest.open :: u in w.open && u != t && rest.open[u] == w.open[u];
    if x.request.DeleteAccount? {
      forall u | u in rest.open ensures rest.open[u].vms !! Touched(d, x) {
        assert forall v | v in MachinesOf(d, x.request.account) :: v !in w.open[u].vms;
      }
    }
    OthersStaySound(rest, Committed(d, x), x.accounts, Touched(d, x));
  }

  /** Opening, locking, reading and giving up write nothing. */
  predicate Quiet(s: Step) { s.Open? || s.LockAccount? || s.CountAdministrators? || s.LockVm? || s.Sweep? || s.Abort? }

  /** Replacing one transaction: its facts hold, and its locks were free. */
  lemma ReplacedKeepsSound(w: World, t: Id, x: Txn)
    requires Sound(w) && StillChecked(w.tables, x)
    requires forall u | u in w.open && u != t :: w.open[u].accounts !! x.accounts && w.open[u].vms !! x.vms
    ensures Sound(w.(open := w.open[t := x]))
  {
  }

  lemma LockKeepsSound(w: World, s: Step)
    requires Sound(w) && Enabled(w, s) && (s.LockAccount? || s.LockVm?)
    ensures Sound(Next(w, s))
  {
    var x := Next(w, s).open[s.t];
    assert StillChecked(w.tables, w.open[s.t]);
    ReplacedKeepsSound(w, s.t, x);
  }

  lemma SweepKeepsSound(w: World, t: Id)
    requires Sound(w) && Enabled(w, Sweep(t))
    ensures Sound(Next(w, Sweep(t)))
  {
  }

  lemma QuietKeepsSound(w: World, s: Step)
    requires Sound(w) && Enabled(w, s) && Quiet(s)
    ensures Sound(Next(w, s))
  {
    match s
    case Open(t, r) => ReplacedKeepsSound(w, t, Next(w, s).open[t]);
    case CountAdministrators(t) => ReplacedKeepsSound(w, t, Next(w, s).open[t]);
    case Sweep(t) => SweepKeepsSound(w, t);
    case Abort(t) => assert forall u | u in Next(w, s).open :: Next(w, s).open[u] == w.open[u];
    case _ => LockKeepsSound(w, s);
  }

  lemma OutsideKeepsSound(w: World, s: Step)
    requires Sound(w) && Enabled(w, s) && !Quiet(s) && !s.Commit?
    ensures Sound(Next(w, s))
  {
    var e := Next(w, s).tables;
    var account := if s.RegisterAccount? || s.Bootstrap? then {s.account} else {};
    var vm := if s.ReleaseRow? then {s.vm} else {};
    assert Confined(w.tables, e, account, vm);
    OthersStaySound(w, e, account, vm);
  }

  lemma StepKeepsSound(w: World, s: Step)
    requires Sound(w) && Enabled(w, s)
    ensures Sound(Next(w, s))
  {
    if s.Commit? { CommitKeepsSound(w, s.t); }
    else if Quiet(s) { QuietKeepsSound(w, s); }
    else { OutsideKeepsSound(w, s); }
  }

  /** Registration adds its session and its key as if it held the lock of the
      account it created: the account is enabled and no disable is past its
      statements. */
  predicate Undisturbed(w: World, a: Id) {
    && Usable(w.tables, a)
    && forall u | u in w.open :: w.open[u].request.Disable? && w.open[u].request.target == a ==> w.open[u].seen.None?
  }

  predicate Careful(w: World, s: Step) {
    (s.RegisterSession? || s.RegisterKey? ==> Undisturbed(w, s.account))
  }

  lemma CommitKeepsGuarded(w: World, t: Id)
    requires Sound(w) && Guarded(w) && Enabled(w, Commit(t))
    ensures Guarded(Next(w, Commit(t)))
  {
    var d, x := w.tables, w.open[t];
    CommitInsideLocks(d, x);
    CommitKeepsFence(d, x);
    forall u | u in w.open && u != t ensures FoundAll(Committed(d, x), w.open[u]) {
      OtherFoundAll(d, Committed(d, x), x.accounts, Touched(d, x), w.open[u]);
    }
  }

  lemma QuietKeepsGuarded(w: World, s: Step)
    requires Guarded(w) && Enabled(w, s) && Quiet(s)
    ensures Guarded(Next(w, s))
  {
  }

  /** Everything but the two registration inserts and the commits. */
  lemma OutsideKeepsGuarded(w: World, s: Step)
    requires Sound(w) && Guarded(w) && Enabled(w, s) && !Quiet(s) && !s.Commit? && !s.RegisterSession? && !s.RegisterKey?
    ensures Guarded(Next(w, s))
  {
    var d, e := w.tables, Next(w, s).tables;
    forall a: Id ensures SessionsOf(e, a) <= SessionsOf(d, a) && LiveKeysOf(e, a) <= LiveKeysOf(d, a) && MachinesOf(e, a) <= MachinesOf(d, a) {}
    forall u | u in w.open ensures FoundAll(e, w.open[u]) {
      assert FoundAll(d, w.open[u]);
    }
  }

  /** The registration inserts keep the fence exactly when they are careful. */
  lemma RegistrationKeepsGuardedIff(w: World, s: Step)
    requires Sound(w) && Guarded(w) && Enabled(w, s) && (s.RegisterSession? || s.RegisterKey?)
    ensures Guarded(Next(w, s)) <==> Undisturbed(w, s.account)
  {
    var d, e, a := w.tables, Next(w, s).tables, s.account;
    var added := if s.RegisterSession? then s.session else s.key;
    assert s.RegisterSession? ==> added in SessionsOf(e, a);
    assert s.RegisterKey? ==> added in LiveKeysOf(e, a);
    forall b: Id | b != a ensures SessionsOf(e, b) == SessionsOf(d, b) && LiveKeysOf(e, b) == LiveKeysOf(d, b) {
      assert s.RegisterSession? ==> forall x | x in e.sessions && e.sessions[x] == b :: x in d.sessions;
      assert s.RegisterKey? ==> forall x | x in e.keys && e.keys[x] == Key(b, false) :: x in d.keys;
    }
    if Undisturbed(w, a) {
      forall u | u in w.open ensures FoundAll(e, w.open[u]) { assert FoundAll(d, w.open[u]); }
    } else if Usable(d, a) {
      var u :| u in w.open && w.open[u].request.Disable? && w.open[u].request.target == a && w.open[u].seen.Some?;
      assert !FoundAll(e, w.open[u]);
    }
  }

  lemma StepKeepsGuarded(w: World, s: Step)
    requires Sound(w) && Guarded(w) && Enabled(w, s) && Careful(w, s)
    ensures Guarded(Next(w, s))
  {
    if s.Commit? { CommitKeepsGuarded(w, s.t); }
    else if Quiet(s) { QuietKeepsGuarded(w, s); }
    else if s.RegisterSession? || s.RegisterKey? { RegistrationKeepsGuardedIff(w, s); }
    else { OutsideKeepsGuarded(w, s); }
  }

  lemma StepKeepsAdministrator(w: World, s: Step)
    requires Sound(w) && Enabled(w, s) && Administrators(w.tables) != {}
    ensures Administrators(Next(w, s).tables) != {}
  {
    if s.Commit? {
      CommitKeepsAdministrator(w.tables, w.open[s.t]);
    } else {
      var a :| a in Administrators(w.tables);
      assert a in Administrators(Next(w, s).tables);
    }
  }

  // ----- whole runs -----

  predicate CarefulRun(w: World, steps: seq<Step>)
    requires Run(w, steps)
    decreases |steps|
  {
    steps == [] || (Careful(w, steps[0]) && CarefulRun(Next(w, steps[0]), steps[1..]))
  }

  /** No machine ends up out of reach, in any run at all. */
  lemma {:induction false} NoMachineIsStranded(w: World, steps: seq<Step>)
    requires Sound(w) && Run(w, steps)
    ensures Sound(After(w, steps)) && InReach(After(w, steps).tables) && Linked(After(w, steps).tables)
    decreases |steps|
  {
    if steps != [] {
      StepKeepsSound(w, steps[0]);
      NoMachineIsStranded(Next(w, steps[0]), steps[1..]);
    }
  }

  /** An enabled administrator remains, in any run at all. */
  lemma {:induction false} AnAdministratorRemains(w: World, steps: seq<Step>)
    requires Sound(w) && Run(w, steps) && Administrators(w.tables) != {}
    ensures Administrators(After(w, steps).tables) != {}
    decreases |steps|
  {
    if steps != [] {
      StepKeepsSound(w, steps[0]);
      StepKeepsAdministrator(w, steps[0]);
      AnAdministratorRemains(Next(w, steps[0]), steps[1..]);
    }
  }

  /** Disabling is a fence over every run whose registrations are careful. */
  lemma {:induction false} DisableIsAFence(w: World, steps: seq<Step>)
    requires Sound(w) && Guarded(w) && Run(w, steps) && CarefulRun(w, steps)
    ensures Guarded(After(w, steps)) && Fence(After(w, steps).tables)
    decreases |steps|
  {
    if steps != [] {
      StepKeepsSound(w, steps[0]);
      StepKeepsGuarded(w, steps[0]);
      DisableIsAFence(Next(w, steps[0]), steps[1..]);
    }
  }

  predicate Enables(w: World, s: Step, a: Id) {
    s.Commit? && s.t in w.open && w.open[s.t].request.Enable? && w.open[s.t].request.target == a
  }

  predicate NeverEnabled(w: World, steps: seq<Step>, a: Id)
    requires Run(w, steps)
    decreases |steps|
  {
    steps == [] || (!Enables(w, steps[0], a) && NeverEnabled(Next(w, steps[0]), steps[1..], a))
  }

  lemma StepKeepsDisabled(w: World, s: Step, a: Id)
    requires Sound(w) && Enabled(w, s) && !Enables(w, s, a)
    requires a in w.tables.accounts && w.tables.accounts[a].disabled
    ensures var e := Next(w, s).tables; a in e.accounts && e.accounts[a].disabled
  {
    if s.Commit? {
      var x := w.open[s.t];
      if x.request.DeleteAccount? { assert AccountPasses(w.tables, x.request, x.request.account); }
    }
  }

  /** A disabled account stays disabled and empty-handed until it is enabled,
      and cannot delete itself in the meantime. */
  lemma {:induction false} DisabledUntilEnabled(w: World, steps: seq<Step>, a: Id)
    requires Sound(w) && Guarded(w) && Run(w, steps) && CarefulRun(w, steps) && NeverEnabled(w, steps, a)
    requires a in w.tables.accounts && w.tables.accounts[a].disabled
    ensures var e := After(w, steps).tables;
            && a in e.accounts && e.accounts[a].disabled
            && SessionsOf(e, a) == {} && LiveKeysOf(e, a) == {} && forall v | v in MachinesOf(e, a) :: !e.vms[v].token
    decreases |steps|
  {
    if steps != [] {
      StepKeepsSound(w, steps[0]);
      StepKeepsGuarded(w, steps[0]);
      StepKeepsDisabled(w, steps[0], a);
      DisabledUntilEnabled(Next(w, steps[0]), steps[1..], a);
    }
  }

  // ----- a machine that was claimed -----

  /** The machine belongs to the account, and no token opens it. */
  predicate HeldBy(w: World, v: Id, a: Id) {
    v in w.tables.vms && w.tables.vms[v].owner == Some(a) && !w.tables.vms[v].token
  }

  /** Another transfer of the machine commits, its owner is deleted, or its row
      is released. */
  predicate Parts(w: World, s: Step, v: Id, a: Id) {
    || (s.ReleaseRow? && s.vm == v)
    || (s.Commit? && s.t in w.open && w.open[s.t].request.Transfer? && w.open[s.t].request.vm == v)
    || (s.Commit? && s.t in w.open && w.open[s.t].request.DeleteAccount? && w.open[s.t].request.account == a)
  }

  predicate NeverParts(w: World, steps: seq<Step>, v: Id, a: Id)
    requires Run(w, steps)
    decreases |steps|
  {
    steps == [] || (!Parts(w, steps[0], v, a) && NeverParts(Next(w, steps[0]), steps[1..], v, a))
  }

  lemma CommitKeepsHeld(d: Tables, x: Txn, v: Id, a: Id)
    requires Complete(d, x) && v in d.vms && d.vms[v].owner == Some(a) && !d.vms[v].token
    requires !(x.request.Transfer? && x.request.vm == v) && !(x.request.DeleteAccount? && x.request.account == a)
    ensures var e := Committed(d, x); v in e.vms && e.vms[v].owner == Some(a) && !e.vms[v].token
  {
    assert forall u | u in x.vms :: VmPasses(d, x.request, u);
  }

  lemma StepKeepsHeld(w: World, s: Step, v: Id, a: Id)
    requires Sound(w) && HeldBy(w, v, a) && Enabled(w, s) && !Parts(w, s, v, a)
    ensures HeldBy(Next(w, s), v, a)
  {
    if s.Commit? { CommitKeepsHeld(w.tables, w.open[s.t], v, a); }
  }

  /** The commit of a claim or a transfer gives the machine to that account alone:
      the anonymous token is burnt. */
  lemma CommitHandsOver(w: World, t: Id)
    requires Sound(w) && Enabled(w, Commit(t)) && (w.open[t].request.Claim? || w.open[t].request.Transfer?)
    ensures var r := w.open[t].request; HeldBy(Next(w, Commit(t)), r.vm, if r.Claim? then r.account else r.target)
  {
  }

  lemma {:induction false} HeldStaysHeld(w: World, steps: seq<Step>, v: Id, a: Id)
    requires Sound(w) && HeldBy(w, v, a) && Run(w, steps) && NeverParts(w, steps, v, a)
    ensures HeldBy(After(w, steps), v, a)
    decreases |steps|
  {
    if steps != [] {
      StepKeepsSound(w, steps[0]);
      StepKeepsHeld(w, steps[0], v, a);
      HeldStaysHeld(Next(w, steps[0]), steps[1..], v, a);
    }
  }

  /** A claimed or transferred machine belongs to its account alone, over every
      run, until it is transferred again, its owner is deleted, or its row is
      released; whatever was handed out before does not open it. */
  lemma ClaimedStaysClaimed(w: World, t: Id, steps: seq<Step>)
    requires Sound(w) && Enabled(w, Commit(t)) && (w.open[t].request.Claim? || w.open[t].request.Transfer?)
    requires Run(Next(w, Commit(t)), steps)
    requires var r := w.open[t].request; NeverParts(Next(w, Commit(t)), steps, r.vm, if r.Claim? then r.account else r.target)
    ensures var r := w.open[t].request; HeldBy(After(Next(w, Commit(t)), steps), r.vm, if r.Claim? then r.account else r.target)
  {
    var r := w.open[t].request;
    CommitHandsOver(w, t);
    StepKeepsSound(w, Commit(t));
    HeldStaysHeld(Next(w, Commit(t)), steps, r.vm, if r.Claim? then r.account else r.target);
  }

  // ----- registration, exactly -----

  /** The fence holds whatever follows, as long as it is careful. */
  ghost predicate StaysFenced(w: World) {
    forall steps: seq<Step> :: Run(w, steps) && CarefulRun(w, steps) ==> Fence(After(w, steps).tables)
  }

  /** A disable that is past its statements commits, and leaves what was added
      behind its back. */
  lemma DisableMissesAddition(w: World, u: Id)
    requires Sound(w) && u in w.open && w.open[u].request.Disable? && w.open[u].seen.Some? && !FoundAll(w.tables, w.open[u])
    requires MachinesOf(w.tables, w.open[u].request.target) <= w.open[u].seen.value.vms
    ensures !StaysFenced(w)
  {
    var x := w.open[u];
    var e := Next(w, Commit(u)).tables;
    var a := x.request.target;
    assert e.accounts[a].disabled;
    if s :| s in SessionsOf(w.tables, a) && s !in x.seen.value.sessions {
      assert s in SessionsOf(e, a);
    } else {
      var k :| k in LiveKeysOf(w.tables, a) && k !in x.seen.value.keys;
      assert k in LiveKeysOf(e, a);
    }
    assert !Fence(e);
    var n := Next(w, Commit(u));
    assert [Commit(u)][1..] == [] && Run(n, []) && CarefulRun(n, []) && After(n, []) == n;
    assert Run(w, [Commit(u)]) && CarefulRun(w, [Commit(u)]) && After(w, [Commit(u)]) == Next(w, Commit(u));
  }

  /** An insert of a registration keeps the fence, over everything careful that
      can follow, exactly if the account is enabled and no disable of it is past
      its statements. */
  lemma RegistrationKeepsFenceIff(w: World, s: Step)
    requires Sound(w) && Guarded(w) && Enabled(w, s) && (s.RegisterSession? || s.RegisterKey?)
    ensures StaysFenced(Next(w, s)) <==> Undisturbed(w, s.account)
  {
    var n := Next(w, s);
    StepKeepsSound(w, s);
    RegistrationKeepsGuardedIff(w, s);
    if Undisturbed(w, s.account) {
      forall steps: seq<Step> | Run(n, steps) && CarefulRun(n, steps) ensures Fence(After(n, steps).tables) {
        DisableIsAFence(n, steps);
      }
    } else if Usable(w.tables, s.account) {
      var u :| u in w.open && w.open[u].request.Disable? && w.open[u].request.target == s.account && w.open[u].seen.Some?;
      assert MachinesOf(n.tables, s.account) == MachinesOf(w.tables, s.account);
      AdditionIsMissed(w, s, u);
      DisableMissesAddition(n, u);
    } else {
      assert s.RegisterSession? ==> s.session in SessionsOf(n.tables, s.account);
      assert s.RegisterKey? ==> s.key in LiveKeysOf(n.tables, s.account);
      assert Run(n, []) && CarefulRun(n, []) && After(n, []) == n && !Fence(n.tables);
    }
  }

  lemma AdditionIsMissed(w: World, s: Step, u: Id)
    requires Enabled(w, s) && (s.RegisterSession? || s.RegisterKey?)
    requires u in w.open && w.open[u].request.Disable? && w.open[u].request.target == s.account && w.open[u].seen.Some?
    ensures !FoundAll(Next(w, s).tables, w.open[u])
  {
    var e := Next(w, s).tables;
    if s.RegisterSession? { assert s.session in SessionsOf(e, s.account); } else { assert s.key in LiveKeysOf(e, s.account); }
  }

  // ----- handlers are runs -----

  lemma {:induction false} RunJoined(w: World, first: seq<Step>, second: seq<Step>)
    requires Run(w, first) && Run(After(w, first), second)
    ensures Run(w, first + second) && After(w, first + second) == After(After(w, first), second)
    decreases |first|
  {
    if first == [] {
      assert first + second == second;
    } else {
      assert (first + second)[1..] == first[1..] + second;
      RunJoined(Next(w, first[0]), first[1..], second);
    }
  }

  lemma RunExtended(w: World, steps: seq<Step>, s: Step)
    requires Run(w, steps) && Enabled(After(w, steps), s)
    ensures Run(w, steps + [s]) && After(w, steps + [s]) == Next(After(w, steps), s)
  {
    var n := Next(After(w, steps), s);
    assert Run(n, []) && After(n, []) == n;
    assert [s][1..] == [];
    RunJoined(w, steps, [s]);
  }

  function Alone(d: Tables, r: Request, held: set<Id>, count: Option<nat>): World {
    World(d, map[0 := Txn(r, held, {}, count, None)])
  }

  lemma ServedPasses(d: Tables, r: Request, a: Id)
    requires Verdict(d, r).Done? && a in Needs(r)
    ensures AccountPasses(d, r, a) && NotAgainstSelf(r)
    ensures Demotes(r, a) && Administrates(d, a) ==> |Administrators(d)| > 1
  {}

  lemma LockTaken(d: Tables, r: Request, steps: seq<Step>, held: set<Id>, count: Option<nat>, a: Id)
    requires Run(World(d, map[]), steps) && After(World(d, map[]), steps) == Alone(d, r, held, count)
    requires Verdict(d, r).Done? && a in Needs(r) && a !in held
    requires Actor(r).Some? && Actor(r) != Some(a) ==> count == Some(|Administrators(d)|)
    ensures Run(World(d, map[]), steps + [LockAccount(0, a)])
    ensures After(World(d, map[]), steps + [LockAccount(0, a)]) == Alone(d, r, held + {a}, count)
  {
    ServedPasses(d, r, a);
    var w := Alone(d, r, held, count);
    assert Demotes(r, a) ==> Actor(r) != Some(a);
    assert Enabled(w, LockAccount(0, a));
    RunExtended(World(d, map[]), steps, LockAccount(0, a));
    assert Next(w, LockAccount(0, a)).open == Alone(d, r, held + {a}, count).open;
  }

  /** The lock of the actor, if the request has one, and the count. */
  lemma ActorLocked(d: Tables, r: Request) returns (steps: seq<Step>, held: set<Id>, count: Option<nat>)
    requires Verdict(d, r).Done?
    ensures held <= Needs(r) && (Actor(r).Some? ==> held == {Actor(r).value} && count == Some(|Administrators(d)|))
    ensures Run(World(d, map[]), steps) && After(World(d, map[]), steps) == Alone(d, r, held, count)
  {
    var w := World(d, map[]);
    assert NotAgainstSelf(r);
    assert Next(w, Open(0, r)) == Alone(d, r, {}, None);
    RunExtended(w, [], Open(0, r));
    steps, held, count := [] + [Open(0, r)], {}, None;
    if Actor(r).Some? {
      LockTaken(d, r, steps, held, count, Actor(r).value);
      steps, held := steps + [LockAccount(0, Actor(r).value)], held + {Actor(r).value};
      assert held == {Actor(r).value};
      assert Next(Alone(d, r, held, None), CountAdministrators(0)) == Alone(d, r, held, Some(|Administrators(d)|));
      RunExtended(w, steps, CountAdministrators(0));
      steps, count := steps + [CountAdministrators(0)], Some(|Administrators(d)|);
    }
  }

  /** The locks of an uninterrupted request, the actor's first. */
  lemma LocksTaken(d: Tables, r: Request) returns (steps: seq<Step>, count: Option<nat>)
    requires Verdict(d, r).Done?
    ensures Run(World(d, map[]), steps) && After(World(d, map[]), steps) == Alone(d, r, Needs(r), count)
  {
    var held;
    steps, held, count := ActorLocked(d, r);
    while held != Needs(r)
      invariant held <= Needs(r) && (Actor(r).Some? ==> Actor(r).value in held && count == Some(|Administrators(d)|))
      invariant Run(World(d, map[]), steps) && After(World(d, map[]), steps) == Alone(d, r, held, count)
      decreases Needs(r) - held
    {
      assert Needs(r) - held != {} by { assert held + (Needs(r) - held) == Needs(r); }
      var a :| a in Needs(r) - held;
      LockTaken(d, r, steps, held, count, a);
      steps, held := steps + [LockAccount(0, a)], held + {a};
    }
  }

  /** With its locks, a request sweeps or locks its machine, if it does either. */
  lemma RowsTaken(d: Tables, r: Request) returns (steps: seq<Step>, x: Txn)
    requires Verdict(d, r).Done?
    ensures Run(World(d, map[]), steps) && After(World(d, map[]), steps) == World(d, map[0 := x])
    ensures x.request == r && x.accounts == Needs(r) && VmsOf(r) <= x.vms
    ensures x.seen == if Sweeps(r) then Some(SeenBy(d, r)) else None
  {
    var w := World(d, map[]);
    var count;
    steps, count := LocksTaken(d, r);
    x := Txn(r, Needs(r), {}, count, None);
    var here := World(d, map[0 := x]);
    if Sweeps(r) {
      x := x.(seen := Some(SeenBy(d, r)), vms := {} + SeenBy(d, r).vms);
      assert Enabled(here, Sweep(0)) && Next(here, Sweep(0)) == World(d, map[0 := x]);
      RunExtended(w, steps, Sweep(0));
      steps := steps + [Sweep(0)];
    } else if VmsOf(r) != {} {
      var v :| v in VmsOf(r);
      assert VmsOf(r) == {v};
      x := x.(vms := {} + {v});
      assert Enabled(here, LockVm(0, v)) && Next(here, LockVm(0, v)) == World(d, map[0 := x]);
      RunExtended(w, steps, LockVm(0, v));
      steps := steps + [LockVm(0, v)];
    }
  }

  /** What a handler does when nothing interferes is a run of this machine, so
      the runs above include every sequence of handler calls. */
  lemma HandlerIsARun(d: Tables, r: Request) returns (steps: seq<Step>)
    requires Verdict(d, r).Done?
    ensures Run(World(d, map[]), steps) && After(World(d, map[]), steps) == World(Handled(d, r), map[])
  {
    var x;
    steps, x := RowsTaken(d, r);
    RunExtended(World(d, map[]), steps, Commit(0));
    steps := steps + [Commit(0)];
    assert map[0 := x] - {0} == map[];
  }

  /** Registration commits the account first and adds the session afterwards
      without looking again, so a disable in between leaves the session. */
  lemma RegistrationSlipsPast(d: Tables, actor: Id, a: Id, session: Id) returns (steps: seq<Step>)
    requires Administrates(d, actor) && a !in d.accounts && session !in d.sessions
    ensures Run(World(d, map[]), steps)
    ensures var e := After(World(d, map[]), steps).tables;
            a in e.accounts && e.accounts[a].disabled && session in SessionsOf(e, a) && !Fence(e)
  {
    var w := World(d, map[]);
    var d1 := WithAccount(d, a, Account(false, false));
    RunExtended(w, [], RegisterAccount(a));
    assert [] + [RegisterAccount(a)] == [RegisterAccount(a)];
    var r := Disable(actor, a);
    var disable := HandlerIsARun(d1, r);
    RunJoined(w, [RegisterAccount(a)], disable);
    var d2 := Handled(d1, r);
    steps := [RegisterAccount(a)] + disable;
    RunExtended(w, steps, RegisterSession(a, session));
    steps := steps + [RegisterSession(a, session)];
    var e := After(w, steps).tables;
    assert session in SessionsOf(e, a);
  }
}
