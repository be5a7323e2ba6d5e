/**
 Staff accounts: the admin side of the role hierarchy, and the audit log every change leaves.
 Each call is atomic.
 */
module Staff {
  import opened Wrappers

  type Id = nat

  datatype Role = StaffRole | ModeratorRole | AdminRole
  datatype Account = Account(username: string, role: Role, active: bool, password: nat, createdBy: Option<Id>)

  datatype AuditAction =
    | AccountCreated(role: Role)
    | RoleChanged(oldRole: Role, newRole: Role)
    | Deactivated
    | Reactivated
    | PasswordReset

  datatype AuditEntry = AuditEntry(actor: Id, target: Id, action: AuditAction)

  datatype State = State(accounts: map<Id, Account>, log: seq<AuditEntry>, nextId: Id)

  datatype Refusal = NotFound | RootIsManagedElsewhere | LastAdmin | UsernameTaken

  datatype Call =
    | Create(actor: Id, username: string, role: Role, password: nat)
    | UpdateRole(actor: Id, target: Id, role: Role)
    | Deactivate(actor: Id, target: Id)
    | Reactivate(actor: Id, target: Id)
    | ResetPassword(actor: Id, target: Id, password: nat)

  /** The root admins, seeded at boot, are the accounts nobody created. */
  predicate IsRoot(a: Account) { a.createdBy.None? }

  predicate ManagesOthers(a: Account) { a.role.AdminRole? && a.active && !IsRoot(a) }

  function Managers(accounts: map<Id, Account>): set<Id> {
    set id | id in accounts && ManagesOthers(accounts[id])
  }

  function Updated(s: State, actor: Id, target: Id, a: Account, action: AuditAction): State {
    s.(accounts := s.accounts[target := a], log := s.log + [AuditEntry(actor, target, action)])
  }

  predicate EndsManaging(c: Call) {
    match c
    case UpdateRole(_, _, role) => !role.AdminRole?
    case Deactivate(_, _) => true
    case _ => false
  }

  function RefusalOf(s: State, c: Call): Option<Refusal> {
    match c
    case Create(_, username, _, _) =>
      if exists id :: id in s.accounts && s.accounts[id].username == username then Some(UsernameTaken) else None
    case _ =>
      if c.target !in s.accounts then Some(NotFound)
      else if IsRoot(s.accounts[c.target]) then Some(RootIsManagedElsewhere)
      else if EndsManaging(c) && Managers(s.accounts) == {c.target} then Some(LastAdmin)
      else None
  }

  function Do(s: State, c: Call): State {
    if RefusalOf(s, c).Some? then s else
    match c
    case Create(actor, username, role, password) =>
      Updated(s.(nextId := s.nextId + 1), actor, s.nextId, Account(username, role, true, password, Some(actor)),
          AccountCreated(role))
    case UpdateRole(actor, target, role) =>
      Updated(s, actor, target, s.accounts[target].(role := role), RoleChanged(s.accounts[target].role, role))
    case Deactivate(actor, target) => Updated(s, actor, target, s.accounts[target].(active := false), Deactivated)
    case Reactivate(actor, target) => Updated(s, actor, target, s.accounts[target].(active := true), Reactivated)
    case ResetPassword(actor, target, password) =>
      Updated(s, actor, target, s.accounts[target].(password := password), PasswordReset)
  }

  class StaffAccountsService {
    var accounts: map<Id, Account>
    var log: seq<AuditEntry>
    var nextId: Id

    ghost function Now(): State
      reads this
    {
      State(accounts, log, nextId)
    }

    constructor (accounts: map<Id, Account>, nextId: Id)
      ensures Now() == State(accounts, [], nextId)
    {
      this.accounts, log, this.nextId := accounts, [], nextId;
    }

    method Record(actor: Id, target: Id, action: AuditAction)
      modifies this`log
      ensures log == old(log) + [AuditEntry(actor, target, action)]
    {
      log := log + [AuditEntry(actor, target, action)];
    }

    method CountOtherActiveNonRootAdmins(excluded: Id) returns (n: nat)
      ensures n == |Managers(accounts) - {excluded}|
    {
      var others := set id | id in accounts && accounts[id].role.AdminRole? && accounts[id].active
                              && accounts[id].createdBy.Some? && id != excluded;
      assert others == Managers(accounts) - {excluded};
      n := |others|;
    }

    method Create(actor: Id, username: string, role: Role, password: nat) returns (refused: Option<Refusal>)
      modifies this
      ensures refused == RefusalOf(old(Now()), Call.Create(actor, username, role, password))
      ensures Now() == Do(old(Now()), Call.Create(actor, username, role, password))
    {
      if exists id :: id in accounts && accounts[id].username == username {
        return Some(UsernameTaken);
      }
      var id := nextId;
      nextId := nextId + 1;
      accounts := accounts[id := Account(username, role, true, password, Some(actor))];
      Record(actor, id, AccountCreated(role));
      return None;
    }

    method UpdateRole(actor: Id, target: Id, role: Role) returns (refused: Option<Refusal>)
      modifies this
      ensures refused == RefusalOf(old(Now()), Call.UpdateRole(actor, target, role))
      ensures Now() == Do(old(Now()), Call.UpdateRole(actor, target, role))
    {
      if target !in accounts {
        return Some(NotFound);
      }
      var before := accounts[target];
      if before.createdBy.None? {
        return Some(RootIsManagedElsewhere);
      }
      if before.role.AdminRole? && before.active && !role.AdminRole? {
        var remaining := CountOtherActiveNonRootAdmins(target);
        if remaining == 0 {
          return Some(LastAdmin);
        }
      }
      accounts := accounts[target := before.(role := role)];
      Record(actor, target, RoleChanged(before.role, role));
      return None;
    }

    method Deactivate(actor: Id, target: Id) returns (refused: Option<Refusal>)
      modifies this
      ensures refused == RefusalOf(old(Now()), Call.Deactivate(actor, target))
      ensures Now() == Do(old(Now()), Call.Deactivate(actor, target))
    {
      if target !in accounts {
        return Some(NotFound);
      }
      var before := accounts[target];
      if before.createdBy.None? {
        return Some(RootIsManagedElsewhere);
      }
      if before.role.AdminRole? && before.active {
        var remaining := CountOtherActiveNonRootAdmins(target);
        if remaining == 0 {
          return Some(LastAdmin);
        }
      }
      accounts := accounts[target := before.(active := false)];
      Record(actor, target, Deactivated);
      return None;
    }

    method Reactivate(actor: Id, target: Id) returns (refused: Option<Refusal>)
      modifies this
      ensures refused == RefusalOf(old(Now()), Call.Reactivate(actor, target))
      ensures Now() == Do(old(Now()), Call.Reactivate(actor, target))
    {
      if target !in accounts {
        return Some(NotFound);
      }
      if accounts[target].createdBy.None? {
        return Some(RootIsManagedElsewhere);
      }
      accounts := accounts[target := accounts[target].(active := true)];
      Record(actor, target, Reactivated);
      return None;
    }

    method ResetPassword(actor: Id, target: Id, password: nat) returns (refused: Option<Refusal>)
      modifies this
      ensures refused == RefusalOf(old(Now()), Call.ResetPassword(actor, target, password))
      ensures Now() == Do(old(Now()), Call.ResetPassword(actor, target, password))
    {
      if target !in accounts {
        return Some(NotFound);
      }
      if accounts[target].createdBy.None? {
        return Some(RootIsManagedElsewhere);
      }
      accounts := accounts[target := accounts[target].(password := password)];
      Record(actor, target, PasswordReset);
      return None;
    }
  }

  // ---- runs ----

  function Run(s: State, calls: seq<Call>): State {
    if calls == [] then s else Do(Run(s, calls[..|calls| - 1]), calls[|calls| - 1])
  }

  /** The API starts with the root admins and an empty audit log. */
  predicate Initial(s: State) {
    s.log == [] && forall id :: id in s.accounts ==> IsRoot(s.accounts[id]) && id < s.nextId
  }

  // ---- there is always somebody left to manage accounts ----

  lemma {:induction false} IdsBelow(s: State, calls: seq<Call>)
    requires Initial(s)
    ensures forall id :: id in Run(s, calls).accounts ==> id < Run(s, calls).nextId
  {
    if calls != [] { IdsBelow(s, calls[..|calls| - 1]); }
  }

  /** Once an active admin other than root exists, one exists ever after. */
  lemma {:induction false} AlwaysAManager(s: State, calls: seq<Call>, n: nat)
    requires Initial(s) && n <= |calls| && Managers(Run(s, calls[..n]).accounts) != {}
    ensures Managers(Run(s, calls).accounts) != {}
  {
    if n == |calls| {
      assert calls[..n] == calls;
    } else {
      var before := calls[..|calls| - 1];
      assert before[..n] == calls[..n];
      AlwaysAManager(s, before, n);
      IdsBelow(s, before);
    }
  }

  /** The guard refuses exactly the calls that would leave no such admin. */
  lemma {:induction false} LastAdminIff(s: State, c: Call)
    requires !c.Create? && c.target in s.accounts && !IsRoot(s.accounts[c.target]) && Managers(s.accounts) != {}
    requires c.Deactivate? || c.UpdateRole?
    ensures var a := s.accounts[c.target];
      var a' := if c.Deactivate? then a.(active := false) else a.(role := c.role);
      RefusalOf(s, c) == Some(LastAdmin) <==> Managers(s.accounts[c.target := a']) == {}
  {
    var a := s.accounts[c.target];
    var a' := if c.Deactivate? then a.(active := false) else a.(role := c.role);
    var after := s.accounts[c.target := a'];
    if RefusalOf(s, c) == Some(LastAdmin) {
      forall id | id in after ensures !ManagesOthers(after[id]) {
        assert id in s.accounts && ManagesOthers(s.accounts[id]) ==> id in Managers(s.accounts);
      }
    } else {
      var id :| id in Managers(s.accounts);
      if id in Managers(after) {
      } else {
        assert id == c.target && Managers(s.accounts) != {id};
        var other :| other in Managers(s.accounts) && other != id;
        assert other in Managers(after);
      }
    }
  }

  // ---- root is out of reach ----

  function Roots(accounts: map<Id, Account>): map<Id, Account> {
    map id | id in accounts && IsRoot(accounts[id]) :: accounts[id]
  }

  lemma DoKeepsRoots(s: State, c: Call)
    requires forall id :: id in s.accounts ==> id < s.nextId
    ensures Roots(Do(s, c).accounts) == Roots(s.accounts)
  {
    hide EndsManaging, Managers;
  }

  /** No run of this API creates, removes or changes a root account. */
  lemma {:induction false} RootsNeverChange(s: State, calls: seq<Call>)
    requires Initial(s)
    ensures Roots(Run(s, calls).accounts) == s.accounts
  {
    if calls == [] {
    } else {
      var before := calls[..|calls| - 1];
      RootsNeverChange(s, before);
      IdsBelow(s, before);
      DoKeepsRoots(Run(s, before), calls[|calls| - 1]);
    }
  }

  // ---- the audit log tells the whole story ----

  datatype Standing = Standing(role: Role, active: bool)

  function Replayed(before: map<Id, Standing>, e: AuditEntry): map<Id, Standing> {
    match e.action
    case AccountCreated(role) => before[e.target := Standing(role, true)]
    case RoleChanged(_, role) =>
        if e.target in before then before[e.target := before[e.target].(role := role)] else before
    case Deactivated => if e.target in before then before[e.target := before[e.target].(active := false)] else before
    case Reactivated => if e.target in before then before[e.target := before[e.target].(active := true)] else before
    case PasswordReset => before
  }

  function Replay(log: seq<AuditEntry>): map<Id, Standing> {
    if log == [] then map[] else Replayed(Replay(log[..|log| - 1]), log[|log| - 1])
  }

  function Standings(accounts: map<Id, Account>): map<Id, Standing> {
    map id | id in accounts && !IsRoot(accounts[id]) :: Standing(accounts[id].role, accounts[id].active)
  }

  /** Each change of role starts from the role the log had arrived at. */
  ghost predicate Chained(log: seq<AuditEntry>) {
    forall k :: 0 <= k < |log| && log[k].action.RoleChanged? ==>
      log[k].target in Replay(log[..k]) && Replay(log[..k])[log[k].target].role == log[k].action.oldRole
  }

  lemma ReplaySnoc(log: seq<AuditEntry>, e: AuditEntry)
    ensures Replay(log + [e]) == Replayed(Replay(log), e)
    ensures Chained(log)
            && (e.action.RoleChanged? ==> e.target in Replay(log) && Replay(log)[e.target].role == e.action.oldRole)
            ==> Chained(log + [e])
  {
    assert forall k :: 0 <= k <= |log| ==> (log + [e])[..k] == log[..k];
    assert log[..|log|] == log;
  }

  lemma DoIsLogged(s: State, c: Call)
    requires Replay(s.log) == Standings(s.accounts) && Chained(s.log)
    requires forall id :: id in s.accounts ==> id < s.nextId
    ensures var s' := Do(s, c); Replay(s'.log) == Standings(s'.accounts) && Chained(s'.log)
  {
    hide Chained, Replay;
    var s' := Do(s, c);
    if RefusalOf(s, c).None? {
      ReplaySnoc(s.log, s'.log[|s.log|]);
    }
  }

  /** Replaying the audit log of any run rebuilds the role and the active flag of every
      managed account, and of no other. */
  lemma {:induction false} LogReplaysToState(s: State, calls: seq<Call>)
    requires Initial(s)
    ensures Replay(Run(s, calls).log) == Standings(Run(s, calls).accounts)
    ensures Chained(Run(s, calls).log)
  {
    if calls == [] {
      assert Standings(s.accounts) == map[];
    } else {
      LogReplaysToState(s, calls[..|calls| - 1]);
      IdsBelow(s, calls[..|calls| - 1]);
      DoIsLogged(Run(s, calls[..|calls| - 1]), calls[|calls| - 1]);
    }
  }

  lemma {:induction false} RoleHolds(log: seq<AuditEntry>, i: nat, j: nat, target: Id, role: Role)
    requires i <= j <= |log| && target in Replay(log[..i]) && Replay(log[..i])[target].role == role
    requires forall k :: i <= k < j && log[k].target == target ==>
        !log[k].action.RoleChanged? && !log[k].action.AccountCreated?
    ensures target in Replay(log[..j]) && Replay(log[..j])[target].role == role
    decreases j - i
  {
    if i < j {
      assert log[..i + 1][..i] == log[..i];
      RoleHolds(log, i + 1, j, target, role);
    }
  }

  ghost predicate CreatedOnce(log: seq<AuditEntry>) {
    forall k :: 0 <= k < |log| && log[k].action.AccountCreated? ==> log[k].target !in Replay(log[..k])
  }

  lemma DoCreatesOnce(s: State, c: Call)
    requires CreatedOnce(s.log) && Replay(s.log) == Standings(s.accounts)
    requires forall id :: id in s.accounts ==> id < s.nextId
    ensures CreatedOnce(Do(s, c).log)
  {
    hide Replay, Managers;
    var l, l' := s.log, Do(s, c).log;
    assert forall k :: 0 <= k <= |l| ==> l'[..k] == l[..k];
    assert l[..|l|] == l;
  }

  lemma {:induction false} RunCreatesOnce(s: State, calls: seq<Call>)
    requires Initial(s)
    ensures CreatedOnce(Run(s, calls).log)
  {
    if calls != [] {
      var before := calls[..|calls| - 1];
      RunCreatesOnce(s, before);
      IdsBelow(s, before);
      LogReplaysToState(s, before);
      DoCreatesOnce(Run(s, before), calls[|calls| - 1]);
    }
  }

  lemma {:induction false} StaysKnown(log: seq<AuditEntry>, i: nat, j: nat, target: Id)
    requires i <= j <= |log| && target in Replay(log[..i])
    ensures target in Replay(log[..j])
    decreases j - i
  {
    if i < j {
      assert log[..i + 1][..i] == log[..i];
      StaysKnown(log, i + 1, j, target);
    }
  }

  /** Consecutive changes of one account's role chain: the later starts where the earlier ended. */
  lemma {:induction false} RoleChangesChain(s: State, calls: seq<Call>, i: nat, j: nat)
    requires Initial(s)
    requires var log := Run(s, calls).log;
      && i < j < |log| && log[i].action.RoleChanged? && log[j].action.RoleChanged? && log[i].target == log[j].target
      && forall k :: i < k < j && log[k].target == log[i].target ==> !log[k].action.RoleChanged?
    ensures Run(s, calls).log[j].action.oldRole == Run(s, calls).log[i].action.newRole
  {
    var log := Run(s, calls).log;
    var target := log[i].target;
    LogReplaysToState(s, calls);
    RunCreatesOnce(s, calls);
    assert log[..i + 1][..i] == log[..i];
    forall k | i < k < j && log[k].target == target ensures !log[k].action.AccountCreated? {
      StaysKnown(log, i + 1, k, target);
    }
    RoleHolds(log, i + 1, j, target, log[i].action.newRole);
  }

  // ---- every field is what a call last set it to ----

  /** What a call sets each field of its account to. */
  function UsernameSetBy(c: Call): Option<string> { if c.Create? then Some(c.username) else None }

  function RoleSetBy(c: Call): Option<Role> { if c.Create? || c.UpdateRole? then Some(c.role) else None }

  function ActiveSetBy(c: Call): Option<bool> {
    if c.Create? || c.Reactivate? then Some(true) else if c.Deactivate? then Some(false) else None
  }

  function PasswordSetBy(c: Call): Option<nat> { if c.Create? || c.ResetPassword? then Some(c.password) else None }

  function CreatorSetBy(c: Call): Option<Id> { if c.Create? then Some(c.actor) else None }

  /** The account a call is about; a new one takes the next id. */
  function SubjectOf(s: State, c: Call): Id { if c.Create? then s.nextId else c.target }

  /** What the last call about `id` that was not refused, among those that set it, set it to. */
  function LastSet<T>(s: State, calls: seq<Call>, id: Id, setBy: Call -> Option<T>): Option<T> {
    if calls == [] then None else
    var before, last := calls[..|calls| - 1], calls[|calls| - 1];
    if SubjectOf(Run(s, before), last) == id && setBy(last).Some? && RefusalOf(Run(s, before), last).None?
    then setBy(last) else LastSet(s, before, id, setBy)
  }

  predicate AsSet(s: State, calls: seq<Call>, id: Id, a: Account) {
    && LastSet(s, calls, id, UsernameSetBy) == Some(a.username)
    && LastSet(s, calls, id, RoleSetBy) == Some(a.role)
    && LastSet(s, calls, id, ActiveSetBy) == Some(a.active)
    && LastSet(s, calls, id, PasswordSetBy) == Some(a.password)
    && LastSet(s, calls, id, CreatorSetBy) == a.createdBy
  }

  /** Every managed account has the username and creator it was created with, and the role, the
      active flag and the password that were set last. */
  lemma {:induction false} AccountsAreAsSet(s: State, calls: seq<Call>, id: Id)
    requires Initial(s) && id in Run(s, calls).accounts && !IsRoot(Run(s, calls).accounts[id])
    ensures AsSet(s, calls, id, Run(s, calls).accounts[id])
  {
    if calls != [] {
      var before, last := calls[..|calls| - 1], calls[|calls| - 1];
      var now := Run(s, before);
      IdsBelow(s, before);
      if id in now.accounts && !IsRoot(now.accounts[id]) { AccountsAreAsSet(s, before, id); }
      DoSets(now, last, id);
      hide RefusalOf, Do, Initial;
    }
  }

  lemma DoSets(s: State, c: Call, id: Id)
    requires id in Do(s, c).accounts && !IsRoot(Do(s, c).accounts[id]) && forall i :: i in s.accounts ==> i < s.nextId
    ensures var a := Do(s, c).accounts[id];
      if SubjectOf(s, c) == id && RefusalOf(s, c).None? then
        && (c.Create? || (id in s.accounts && !IsRoot(s.accounts[id])))
        && a.username == (if UsernameSetBy(c).Some? then UsernameSetBy(c).value else s.accounts[id].username)
        && a.role == (if RoleSetBy(c).Some? then RoleSetBy(c).value else s.accounts[id].role)
        && a.active == (if ActiveSetBy(c).Some? then ActiveSetBy(c).value else s.accounts[id].active)
        && a.password == (if PasswordSetBy(c).Some? then PasswordSetBy(c).value else s.accounts[id].password)
        && a.createdBy == (if CreatorSetBy(c).Some? then CreatorSetBy(c) else s.accounts[id].createdBy)
      else id in s.accounts && a == s.accounts[id]
  {
    hide EndsManaging, Managers;
  }

  predicate DistinctNames(accounts: map<Id, Account>) {
    forall i, j :: i in accounts && j in accounts && accounts[i].username == accounts[j].username ==> i == j
  }

  /** No two accounts ever share a username. */
  lemma {:induction false} UsernamesStayUnique(s: State, calls: seq<Call>)
    requires Initial(s) && DistinctNames(s.accounts)
    ensures DistinctNames(Run(s, calls).accounts)
  {
    if calls != [] {
      UsernamesStayUnique(s, calls[..|calls| - 1]);
      hide EndsManaging, Managers;
    }
  }

  /** A new account appears, as asked for, unless the username is taken. */
  lemma {:induction false} CreatedIff(s: State, calls: seq<Call>, actor: Id, username: string, role: Role,
      password: nat)
    requires Initial(s)
    ensures var accounts, accounts' := Run(s, calls).accounts,
        Run(s, calls + [Create(actor, username, role, password)]).accounts;
      if exists id :: id in accounts && accounts[id].username == username then accounts' == accounts
      else accounts' == accounts[Run(s, calls).nextId := Account(username, role, true, password, Some(actor))]
           && Run(s, calls).nextId !in accounts
  {
    IdsBelow(s, calls);
    assert (calls + [Create(actor, username, role, password)])[..|calls|] == calls;
  }

  /** Who made each call that was not refused, and about which account, in order. */
  function Accepted(s: State, calls: seq<Call>): seq<(Id, Id)> {
    if calls == [] then [] else
    var before, last := calls[..|calls| - 1], calls[|calls| - 1];
    Accepted(s, before) +
      if RefusalOf(Run(s, before), last).None? then [(last.actor, SubjectOf(Run(s, before), last))] else []
  }

  function Attribution(e: AuditEntry): (Id, Id) { (e.actor, e.target) }

  function Attributions(log: seq<AuditEntry>): seq<(Id, Id)> {
    seq(|log|, i requires 0 <= i < |log| => Attribution(log[i]))
  }

  /** The audit log has one entry for each of them, with its actor and account. */
  lemma {:induction false} EveryChangeIsAttributed(s: State, calls: seq<Call>)
    ensures Attributions(Run(s, calls).log) == Attributions(s.log) + Accepted(s, calls)
  {
    if calls != [] {
      var before, last := calls[..|calls| - 1], calls[|calls| - 1];
      EveryChangeIsAttributed(s, before);
      hide RefusalOf, IsRoot;
      var log, log' := Run(s, before).log, Run(s, calls).log;
      if |log'| > |log| { assert Attributions(log') == Attributions(log) + [Attribution(log'[|log|])]; }
    }
  }
}
