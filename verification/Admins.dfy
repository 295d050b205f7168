/**
 First-admin setup and last-admin protection, as the steps of concurrent transactions.

 Setup runs under one advisory lock; role changes, status changes and grants run under another. A transaction's reads
 see committed rows and its writes appear when it commits.
 */
module Admins {
  import opened Wrappers

  type UserId = nat
  type CallId = nat

  datatype Role = ADMIN | MOD | USER
  datatype Status = ACTIVE | PENDING | BANNED
  datatype User = User(role: Role, status: Status)

  /** A permission row; `server` is None for a permission on every server. */
  datatype Grant = Grant(user: UserId, permission: nat, server: Option<nat>)

  datatype Op =
    | SetStatus(user: UserId, status: Status)
    | SetRole(user: UserId, role: Role)
    | AddGrant(user: UserId, permission: nat, server: Option<nat>)

  datatype Pc =
    | SetupLocked                       // holds the setup lock
    | SetupOpen                         // has read that no admin was created
    | Locked(op: Op)                    // holds the last-admin lock
    | Read(op: Op, target: User)        // has read the target, and an active admin must be seen to remain
    | Ready(op: Op)                     // every check has passed

  datatype State = State(
    users: map<UserId, User>,
    grants: set<Grant>,
    initialAdminCreated: bool,
    created: set<UserId>,               // history: admins created by setup
    calls: map<CallId, Pc>
  )

  datatype Step =
    | Register(user: UserId, status: Status)
    | LockSetup(call: CallId)
    | ReadFlag(call: CallId)
    | CommitSetup(call: CallId, user: UserId)
    | Lock(call: CallId, op: Op)
    | ReadTarget(call: CallId)
    | CountAdmins(call: CallId)
    | Commit(call: CallId)
    | Revoke(grants: set<Grant>)        // one grant, or the grants of a deleted server
    | Abandon(call: CallId)

  ghost predicate Init(s: State) {
    s == State(map[], {}, false, {}, map[])
  }

  predicate HoldsSetup(pc: Pc) {
    pc.SetupLocked? || pc.SetupOpen?
  }

  predicate HoldsAdmin(pc: Pc) {
    pc.Locked? || pc.Read? || pc.Ready?
  }

  predicate ActiveAdmin(user: User) {
    user == User(ADMIN, ACTIVE)
  }

  function ActiveAdmins(users: map<UserId, User>): set<UserId> {
    set u | u in users && ActiveAdmin(users[u])
  }

  /** `deactivates` and `demotes` */
  predicate Threatens(target: User, op: Op) {
    ActiveAdmin(target)
    && ((op.SetStatus? && op.status != ACTIVE) || (op.SetRole? && op.role != ADMIN))
  }

  function At(s: State, c: CallId, pc: Pc): State {
    s.(calls := s.calls[c := pc])
  }

  function End(s: State, c: CallId): State {
    s.(calls := s.calls - {c})
  }

  predicate NoChange(target: User, op: Op) {
    match op
    case SetStatus(_, status) => target.status == status
    case SetRole(_, role) => target.role == role
    case AddGrant(_, _, _) => target.role != MOD
  }

  function DoReadTarget(s: State, c: CallId): State
    requires c in s.calls && s.calls[c].Locked?
  {
    var op := s.calls[c].op;
    if op.user !in s.users || NoChange(s.users[op.user], op) then End(s, c)
    else if Threatens(s.users[op.user], op) then At(s, c, Read(op, s.users[op.user]))
    else At(s, c, Ready(op))
  }

  function DoCountAdmins(s: State, c: CallId): State
    requires c in s.calls && s.calls[c].Read?
  {
    if |ActiveAdmins(s.users)| <= 1 then End(s, c) else At(s, c, Ready(s.calls[c].op))
  }

  function DoCommit(s: State, c: CallId): State
    requires c in s.calls && s.calls[c].Ready? && s.calls[c].op.user in s.users
  {
    var op := s.calls[c].op;
    var user := s.users[op.user];
    var s' := End(s, c);
    match op
    case SetStatus(u, status) => s'.(users := s.users[u := user.(status := status)])
    case SetRole(u, role) =>
      s'.(users := s.users[u := user.(role := role)], grants := set g | g in s.grants && g.user != u)
    case AddGrant(u, permission, server) => s'.(grants := s.grants + {Grant(u, permission, server)})
  }

  ghost predicate Enabled(s: State, step: Step) {
    match step
    case Register(u, _) => u !in s.users
    case LockSetup(c) => c !in s.calls && forall d | d in s.calls :: !HoldsSetup(s.calls[d])
    case ReadFlag(c) => c in s.calls && s.calls[c].SetupLocked?
    case CommitSetup(c, u) => c in s.calls && s.calls[c].SetupOpen? && u !in s.users
    case Lock(c, op) => c !in s.calls && forall d | d in s.calls :: !HoldsAdmin(s.calls[d])
    case ReadTarget(c) => c in s.calls && s.calls[c].Locked?
    case CountAdmins(c) => c in s.calls && s.calls[c].Read?
    case Commit(c) => c in s.calls && s.calls[c].Ready? && s.calls[c].op.user in s.users
    case Revoke(_) => true
    case Abandon(c) => c in s.calls
  }

  ghost function Next(s: State, step: Step): State
    requires Enabled(s, step)
  {
    match step
    case Register(u, status) => s.(users := s.users[u := User(USER, status)])
    case LockSetup(c) => At(s, c, SetupLocked)
    case ReadFlag(c) => if s.initialAdminCreated then End(s, c) else At(s, c, SetupOpen)
    case CommitSetup(c, u) =>
      End(s, c).(users := s.users[u := User(ADMIN, ACTIVE)], initialAdminCreated := true, created := s.created + {u})
    case Lock(c, op) => At(s, c, Locked(op))
    case ReadTarget(c) => DoReadTarget(s, c)
    case CountAdmins(c) => DoCountAdmins(s, c)
    case Commit(c) => DoCommit(s, c)
    case Revoke(gs) => s.(grants := s.grants - gs)
    case Abandon(c) => End(s, c)
  }

  ghost predicate Run(states: seq<State>, steps: seq<Step>) {
    && |states| == |steps| + 1
    && Init(states[0])
    && (forall i | 0 <= i < |steps| :: Enabled(states[i], steps[i]) && states[i + 1] == Next(states[i], steps[i]))
  }

  // ---- the invariant

  ghost predicate PcOk(users: map<UserId, User>, initialAdminCreated: bool, pc: Pc) {
    match pc
    case SetupLocked => true
    case SetupOpen => !initialAdminCreated
    case Locked(_) => true
    case Read(op, target) => op.user in users && users[op.user] == target && Threatens(target, op)
    case Ready(op) => && op.user in users
                      && (Threatens(users[op.user], op) ==> |ActiveAdmins(users)| >= 2)
                      && (op.AddGrant? ==> users[op.user].role == MOD)
  }

  ghost predicate Exclusive(calls: map<CallId, Pc>) {
    && (forall c, d | c in calls && d in calls && HoldsSetup(calls[c]) && HoldsSetup(calls[d]) :: c == d)
    && (forall c, d | c in calls && d in calls && HoldsAdmin(calls[c]) && HoldsAdmin(calls[d]) :: c == d)
  }

  ghost predicate CallsOk(s: State) {
    forall c | c in s.calls :: PcOk(s.users, s.initialAdminCreated, s.calls[c])
  }

  ghost predicate RowsOk(s: State) {
    && (s.initialAdminCreated ==> |ActiveAdmins(s.users)| >= 1)
    && |s.created| == (if s.initialAdminCreated then 1 else 0)
    && s.created <= s.users.Keys
    && (forall g | g in s.grants :: g.user in s.users && s.users[g.user].role == MOD)
  }

  ghost predicate Inv(s: State) {
    Exclusive(s.calls) && CallsOk(s) && RowsOk(s)
  }

  /** A new user takes nothing away. */
  lemma NewUser(users: map<UserId, User>, u: UserId, user: User)
    requires u !in users
    ensures ActiveAdmins(users[u := user]) == ActiveAdmins(users) + (if ActiveAdmin(user) then {u} else {})
    ensures |ActiveAdmins(users[u := user])| == |ActiveAdmins(users)| + (if ActiveAdmin(user) then 1 else 0)
  {
    assert ActiveAdmins(users[u := user]) == ActiveAdmins(users) + (if ActiveAdmin(user) then {u} else {});
  }

  lemma ChangedUser(users: map<UserId, User>, u: UserId, user: User)
    requires u in users
    ensures |ActiveAdmins(users[u := user])|
            == |ActiveAdmins(users)| - (if ActiveAdmin(users[u]) then 1 else 0) + (if ActiveAdmin(user) then 1 else 0)
  {
    var others := ActiveAdmins(users) - {u};
    assert ActiveAdmins(users) == others + (if ActiveAdmin(users[u]) then {u} else {});
    assert ActiveAdmins(users[u := user]) == others + (if ActiveAdmin(user) then {u} else {});
  }

  lemma MoveKeeps(s: State, c: CallId, pc: Pc)
    requires Inv(s) && PcOk(s.users, s.initialAdminCreated, pc)
    requires HoldsSetup(pc) ==> forall d | d in s.calls && d != c :: !HoldsSetup(s.calls[d])
    requires HoldsAdmin(pc) ==> forall d | d in s.calls && d != c :: !HoldsAdmin(s.calls[d])
    ensures Inv(At(s, c, pc))
  {
  }

  lemma EndKeeps(s: State, c: CallId)
    requires Inv(s)
    ensures Inv(End(s, c))
  {
  }

  lemma RegisterKeeps(s: State, u: UserId, status: Status)
    requires Inv(s) && u !in s.users
    ensures Inv(s.(users := s.users[u := User(USER, status)]))
  {
    NewUser(s.users, u, User(USER, status));
  }

  lemma CommitSetupKeeps(s: State, c: CallId, u: UserId)
    requires Inv(s) && c in s.calls && s.calls[c].SetupOpen? && u !in s.users
    ensures Inv(Next(s, CommitSetup(c, u)))
  {
    NewUser(s.users, u, User(ADMIN, ACTIVE));
    var users' := s.users[u := User(ADMIN, ACTIVE)];
    assert PcOk(s.users, s.initialAdminCreated, s.calls[c]);
    forall d | d in s.calls && d != c ensures PcOk(users', true, s.calls[d]) {
      assert PcOk(s.users, s.initialAdminCreated, s.calls[d]) && !HoldsSetup(s.calls[d]);
    }
  }

  lemma CommitKeeps(s: State, c: CallId)
    requires Inv(s) && c in s.calls && s.calls[c].Ready? && s.calls[c].op.user in s.users
    ensures Inv(DoCommit(s, c))
  {
    var op := s.calls[c].op;
    assert PcOk(s.users, s.initialAdminCreated, s.calls[c]);
    if op.SetStatus? {
      ChangedUser(s.users, op.user, s.users[op.user].(status := op.status));
    } else if op.SetRole? {
      ChangedUser(s.users, op.user, s.users[op.user].(role := op.role));
    }
  }

  lemma CallMoves(s: State, step: Step)
    requires Inv(s) && Enabled(s, step)
    requires step.LockSetup? || step.ReadFlag? || step.Lock? || step.ReadTarget? || step.CountAdmins?
    ensures Inv(Next(s, step))
  {
    EndKeeps(s, step.call);
    match step
    case LockSetup(c) => MoveKeeps(s, c, SetupLocked);
    case ReadFlag(c) =>
      if !s.initialAdminCreated {
        MoveKeeps(s, c, SetupOpen);
      }
    case Lock(c, op) => MoveKeeps(s, c, Locked(op));
    case ReadTarget(c) =>
      var op := s.calls[c].op;
      if op.user in s.users && !NoChange(s.users[op.user], op) {
        MoveKeeps(s, c, if Threatens(s.users[op.user], op) then Read(op, s.users[op.user]) else Ready(op));
      }
    case CountAdmins(c) =>
      assert PcOk(s.users, s.initialAdminCreated, s.calls[c]);
      if |ActiveAdmins(s.users)| > 1 {
        MoveKeeps(s, c, Ready(s.calls[c].op));
      }
  }

  lemma NextKeeps(s: State, step: Step)
    requires Inv(s) && Enabled(s, step)
    ensures Inv(Next(s, step))
  {
    match step
    case Register(u, status) => RegisterKeeps(s, u, status);
    case CommitSetup(c, u) => CommitSetupKeeps(s, c, u);
    case Commit(c) => CommitKeeps(s, c);
    case Revoke(_) =>
    case Abandon(c) => EndKeeps(s, c);
    case _ => CallMoves(s, step);
  }

  lemma {:induction false} InvHolds(states: seq<State>, steps: seq<Step>, n: nat)
    requires Run(states, steps) && n < |states|
    ensures Inv(states[n])
  {
    if n > 0 {
      InvHolds(states, steps, n - 1);
      NextKeeps(states[n - 1], steps[n - 1]);
    }
  }

  // ---- the theorems

  /** What a committed operation writes, and that it writes nothing else. */
  lemma CommitWrites(states: seq<State>, steps: seq<Step>, n: nat, c: CallId)
    requires Run(states, steps) && n < |steps| && steps[n] == Commit(c)
    ensures var op, s, s' := states[n].calls[c].op, states[n], states[n + 1];
            && s'.users.Keys == s.users.Keys && op.user in s.users
            && (forall u | u in s.users && u != op.user :: s'.users[u] == s.users[u])
            && s'.users[op.user].status == (if op.SetStatus? then op.status else s.users[op.user].status)
            && s'.users[op.user].role == (if op.SetRole? then op.role else s.users[op.user].role)
            && (forall g :: g in s'.grants <==>
                  || (g in s.grants && !(op.SetRole? && g.user == op.user))
                  || (op.AddGrant? && g == Grant(op.user, op.permission, op.server)))
            && s'.initialAdminCreated == s.initialAdminCreated && c !in s'.calls
  {
    assert states[n + 1] == DoCommit(states[n], c);
  }

  /** The target's row as an operation that was not refused finds it: there, and different from what it asks for. */
  predicate Applies(users: map<UserId, User>, op: Op) {
    && op.user in users
    && (op.SetStatus? ==> users[op.user].status != op.status)
    && (op.SetRole? ==> users[op.user].role != op.role)
    && (op.AddGrant? ==> users[op.user].role == MOD)
  }

  /** Reading the target ends the call exactly if there is nothing to do, or a grant is not for a MOD. */
  lemma TargetDecides(states: seq<State>, steps: seq<Step>, n: nat, c: CallId)
    requires Run(states, steps) && n < |steps| && steps[n] == ReadTarget(c)
    ensures var op, s, s' := states[n].calls[c].op, states[n], states[n + 1];
            && (c in s'.calls <==> Applies(s.users, op))
            && (c in s'.calls ==> s'.calls[c].op == op)
            && (c in s'.calls && s'.calls[c].Ready? <==>
                  && Applies(s.users, op)
                  && !(s.users[op.user].role == ADMIN && s.users[op.user].status == ACTIVE
                       && (op.SetStatus? || op.SetRole?)))
  {
    assert states[n + 1] == DoReadTarget(states[n], c);
  }

  /** Counting admins ends the call exactly if the change would leave no active admin. */
  lemma CountDecides(states: seq<State>, steps: seq<Step>, n: nat, c: CallId)
    requires Run(states, steps) && n < |steps| && steps[n] == CountAdmins(c)
    ensures var op, s, s' := states[n].calls[c].op, states[n], states[n + 1];
            && op.user in s.users && !op.AddGrant?
            && (c !in s'.calls <==> ActiveAdmins(Applied(s.users, op)) == {})
            && (c in s'.calls ==> s'.calls[c] == Ready(op))
            && s'.users == s.users
  {
    InvHolds(states, steps, n);
    assert PcOk(states[n].users, states[n].initialAdminCreated, states[n].calls[c]);
    var op := states[n].calls[c].op;
    assert op.user in ActiveAdmins(states[n].users);
    RefusalIsExact(states[n].users, op);
    assert states[n + 1] == DoCountAdmins(states[n], c);
  }

  /** A transaction that fails rolls back: the call is gone, its lock with it, and nothing was written. */
  lemma FailureRollsBack(states: seq<State>, steps: seq<Step>, n: nat, c: CallId)
    requires Run(states, steps) && n < |steps| && steps[n] == Abandon(c)
    ensures c in states[n].calls && c !in states[n + 1].calls
    ensures states[n + 1] == states[n].(calls := states[n + 1].calls)
  {
    assert states[n + 1] == Next(states[n], steps[n]);
  }

  /** Revoking takes away exactly the grants it names, and registering adds exactly one ordinary user. */
  lemma RevokeAndRegisterWrite(states: seq<State>, steps: seq<Step>, n: nat)
    requires Run(states, steps) && n < |steps| && (steps[n].Revoke? || steps[n].Register?)
    ensures var s, s', step := states[n], states[n + 1], steps[n];
            && (step.Revoke? ==>
                  s'.users == s.users && forall g :: g in s'.grants <==> g in s.grants && g !in step.grants)
            && (step.Register? ==>
                  && s'.grants == s.grants && step.user !in s.users
                  && s'.users == s.users[step.user := User(USER, step.status)])
  {
    assert states[n + 1] == Next(states[n], steps[n]);
  }

  /** Setup adds one active admin and sets its flag, together, and only if the flag was not set. */
  lemma SetupWrites(states: seq<State>, steps: seq<Step>, n: nat, c: CallId, u: UserId)
    requires Run(states, steps) && n < |steps| && steps[n] == CommitSetup(c, u)
    ensures var s, s' := states[n], states[n + 1];
            && !s.initialAdminCreated && s'.initialAdminCreated
            && u !in s.users && s'.users == s.users[u := User(ADMIN, ACTIVE)] && s'.grants == s.grants
  {
    InvHolds(states, steps, n);
    assert PcOk(states[n].users, states[n].initialAdminCreated, states[n].calls[c]);
  }

  /** The users after a role or status change. */
  function Applied(users: map<UserId, User>, op: Op): map<UserId, User>
    requires op.user in users && !op.AddGrant?
  {
    users[op.user := if op.SetStatus? then users[op.user].(status := op.status) else users[op.user].(role := op.role)]
  }

  /** A change is refused for the sake of the last admin exactly when it would leave no active admin. */
  lemma RefusalIsExact(users: map<UserId, User>, op: Op)
    requires op.user in users && !op.AddGrant? && ActiveAdmins(users) != {}
    ensures Threatens(users[op.user], op) && |ActiveAdmins(users)| <= 1 <==> ActiveAdmins(Applied(users, op)) == {}
  {
    ChangedUser(users, op.user, Applied(users, op)[op.user]);
  }

  /** Setup creates at most one admin in a whole run, and exactly one once its flag is set. */
  lemma SetupCreatesOneAdmin(states: seq<State>, steps: seq<Step>, n: nat)
    requires Run(states, steps) && n < |states|
    ensures |states[n].created| == (if states[n].initialAdminCreated then 1 else 0)
  {
    InvHolds(states, steps, n);
  }

  /** Once setup is complete there is always an active admin, whatever role and status changes race. */
  lemma AnActiveAdminRemains(states: seq<State>, steps: seq<Step>, m: nat, n: nat)
    requires Run(states, steps) && m <= n < |states| && states[m].initialAdminCreated
    ensures exists u :: u in states[n].users && ActiveAdmin(states[n].users[u])
  {
    FlagStays(states, steps, m, n);
    InvHolds(states, steps, n);
    var u :| u in ActiveAdmins(states[n].users);
  }

  lemma {:induction false} FlagStays(states: seq<State>, steps: seq<Step>, m: nat, n: nat)
    requires Run(states, steps) && m <= n < |states| && states[m].initialAdminCreated
    ensures states[n].initialAdminCreated
  {
    if m < n {
      FlagStays(states, steps, m, n - 1);
      assert states[n] == Next(states[n - 1], steps[n - 1]);
    }
  }

  /** A permission row always belongs to a user whose role is MOD. */
  lemma GrantsBelongToMods(states: seq<State>, steps: seq<Step>, n: nat, g: Grant)
    requires Run(states, steps) && n < |states| && g in states[n].grants
    ensures g.user in states[n].users && states[n].users[g.user].role == MOD
  {
    InvHolds(states, steps, n);
  }

  // ---- the intended paths are open

  /** The state after some steps, each of them enabled. */
  ghost predicate Leads(s: State, steps: seq<Step>, s': State)
    decreases |steps|
  {
    if steps == [] then s' == s else Enabled(s, steps[0]) && Leads(Next(s, steps[0]), steps[1..], s')
  }

  /** Undisturbed, setup creates its admin if none was created. */
  lemma SetupPath(s: State, u: UserId)
    requires s.calls == map[] && !s.initialAdminCreated && u !in s.users
    ensures Leads(s, [LockSetup(0), ReadFlag(0), CommitSetup(0, u)],
                  s.(users := s.users[u := User(ADMIN, ACTIVE)], initialAdminCreated := true,
                     created := s.created + {u}))
  {
    var s1 := Next(s, LockSetup(0));
    var s2 := Next(s1, ReadFlag(0));
    var s3 := Next(s2, CommitSetup(0, u));
    assert s3.calls == map[];
    assert Leads(s3, [], s3);
    assert Leads(s2, [CommitSetup(0, u)], s3);
    assert [ReadFlag(0), CommitSetup(0, u)][1..] == [CommitSetup(0, u)];
    assert Leads(s1, [ReadFlag(0), CommitSetup(0, u)], s3);
    assert [LockSetup(0), ReadFlag(0), CommitSetup(0, u)][1..] == [ReadFlag(0), CommitSetup(0, u)];
  }

  /** Undisturbed, an operation that applies and does not threaten the last admin commits. */
  lemma ChangePath(s: State, op: Op)
    requires s.calls == map[] && Applies(s.users, op) && s.users[op.user].role != ADMIN
    ensures var s' := DoCommit(At(s, 0, Ready(op)), 0); Leads(s, [Lock(0, op), ReadTarget(0), Commit(0)], s')
  {
    var s1 := Next(s, Lock(0, op));
    var s2 := Next(s1, ReadTarget(0));
    assert s2.calls == map[0 := Ready(op)];
    var s3 := Next(s2, Commit(0));
    assert Leads(s3, [], s3);
    assert Leads(s2, [Commit(0)], s3);
    assert [ReadTarget(0), Commit(0)][1..] == [Commit(0)];
    assert Leads(s1, [ReadTarget(0), Commit(0)], s3);
    assert [Lock(0, op), ReadTarget(0), Commit(0)][1..] == [ReadTarget(0), Commit(0)];
  }
}
