/**
 Refresh sessions and forced password recovery, as the steps of concurrent calls over one database.

 The database is READ COMMITTED: a statement sees what is committed, and the row lock taken by an UPDATE or a
 SELECT ... FOR UPDATE is held until its transaction ends. A transaction's writes appear when it commits, so the state
 holds the committed rows and a call's own pending writes are part of its position. Hashes are injective, and token
 ids and password hashes are never drawn twice.
 */
module Sessions {
  import opened Wrappers

  type UserId = nat
  type CallId = nat
  type Jti = nat
  type Hash = nat
  type Time = nat

  datatype Status = PENDING | ACTIVE | BANNED

  /** The columns of a user that sessions depend on. */
  datatype User = User(status: Status, mustChange: bool, tempHash: Option<Hash>, tempExpires: Option<Time>)

  /** What a signed refresh token says, and the login it descends from (the position of that login in the log). */
  datatype Token = Token(user: UserId, temporaryAuth: bool, family: nat)

  /** A signed pre-auth token; a temporary one names the credential matched at login. */
  datatype PreAuth = PreAuth(user: UserId, fingerprint: Option<Hash>)

  datatype Change = SetStatus(status: Status) | ResetTo(hash: Hash, expires: Time) | FinishForced(hash: Hash)

  /** The rows a `DELETE ... WHERE user_id` has seen, and the length of the log when it ran. */
  datatype Snapshot = Snapshot(rows: set<Jti>, from: nat)

  datatype Pc =
    | Found(user: UserId, jti: Jti)                      // rotation: the stored row was read
    | Checked(user: UserId, jti: Jti)                    // rotation: the user is locked and was accepted
    | Took(user: UserId, jti: Jti)                       // rotation: the stored row is deleted, not committed
    | ToConsume(user: UserId, hash: Hash)                // login: a temporary password was matched
    | ToInsert(user: UserId, forced: Option<Hash>)       // login: a session is about to be inserted
    | PlannedReset(user: UserId, hash: Hash, expires: Time)
    | PlannedChange(user: UserId, hash: Hash)            // forced change: the old password was matched
    | Updating(user: UserId, change: Change, deleted: Option<Snapshot>)

  /** What has been committed, in order. `from` is when the transaction's delete of sessions ran. */
  datatype Event =
    | Login(user: UserId, forced: Option<Hash>)
    | Exchanged(jti: Jti, next: Jti)
    | Used(user: UserId, hash: Hash)
    | Reset(user: UserId, hash: Hash, from: nat)
    | Changed(user: UserId, hash: Hash, from: nat)
    | Banned(user: UserId, from: nat)

  /** The committed rows, with everything ever signed or drawn. */
  datatype Db = Db(
    users: map<UserId, User>,
    rows: map<Jti, Time>,        // live refresh rows with their expiry
    tokens: map<Jti, Token>,     // every refresh token ever signed
    hashes: set<Hash>,           // every temporary password hash ever drawn
    log: seq<Event>
  )

  datatype State = State(db: Db, preAuths: set<PreAuth>, calls: map<CallId, Pc>, now: Time)

  datatype Step =
    | Register(user: UserId, status: Status)
    | Tick(later: Time)
    | DropRows(ids: set<Jti>)    // logout, one session, and parts of a logout everywhere or an ordinary password change
    | Abandon(call: CallId)      // an error or a crash: the transaction rolls back
    | FindRow(call: CallId, jti: Jti)
    | LockUser(call: CallId)
    | TakeRow(call: CallId)
    | CommitRotation(call: CallId, jti: Jti, expires: Time, swept: set<Jti>)
    | LoginPrimary(call: CallId, user: UserId)
    | LoginTemporary(call: CallId, user: UserId)
    | AskTwoFactor(user: UserId)
    | CompleteTwoFactor(call: CallId, preAuth: PreAuth)
    | Consume(call: CallId)
    | InsertSession(call: CallId, jti: Jti, expires: Time)
    | PlanReset(call: CallId, user: UserId, hash: Hash, expires: Time)
    | PlanChange(call: CallId, user: UserId)
    | ChangeStatus(call: CallId, user: UserId, status: Status)
    | BeginUpdate(call: CallId)
    | DeleteSessions(call: CallId)
    | CommitUpdate(call: CallId)

  ghost predicate Init(s: State) {
    s == State(Db(map[], map[], map[], {}, []), {}, map[], 0)
  }

  /** The user row a call has locked. */
  predicate Locks(pc: Pc, u: UserId) {
    (pc.Checked? || pc.Took? || pc.Updating?) && pc.user == u
  }

  ghost predicate Unlocked(calls: map<CallId, Pc>, u: UserId) {
    forall c | c in calls :: !Locks(calls[c], u)
  }

  ghost predicate RowFree(calls: map<CallId, Pc>, j: Jti) {
    forall c | c in calls :: !(calls[c].Took? && calls[c].jti == j)
  }

  function At(s: State, c: CallId, pc: Pc): State {
    s.(calls := s.calls[c := pc])
  }

  function End(s: State, c: CallId): State {
    s.(calls := s.calls - {c})
  }

  /** The token's origin must agree with the account's recovery state, and the account must be active. */
  predicate Accepts(user: User, token: Token) {
    user.mustChange == token.temporaryAuth && user.status == ACTIVE
  }

  // ---- rotation

  function DoFindRow(s: State, c: CallId, j: Jti): State
    requires j in s.db.tokens
  {
    if j in s.db.rows && s.db.rows[j] > s.now then At(s, c, Found(s.db.tokens[j].user, j)) else s
  }

  function DoLockUser(s: State, c: CallId): State
    requires c in s.calls && s.calls[c].Found? && s.calls[c].jti in s.db.tokens
  {
    var u, j := s.calls[c].user, s.calls[c].jti;
    if u in s.db.users && Accepts(s.db.users[u], s.db.tokens[j]) then At(s, c, Checked(u, j)) else End(s, c)
  }

  function DoTakeRow(s: State, c: CallId): State
    requires c in s.calls && s.calls[c].Checked?
  {
    if s.calls[c].jti in s.db.rows then At(s, c, Took(s.calls[c].user, s.calls[c].jti)) else End(s, c)
  }

  predicate Expired(db: Db, j: Jti, u: UserId, now: Time) {
    j in db.rows && db.rows[j] <= now && j in db.tokens && db.tokens[j].user == u
  }

  /** The new token takes the place of the old one; expired rows are swept on the way. */
  function Rotated(db: Db, j: Jti, j': Jti, expires: Time, swept: set<Jti>): Db
    requires j in db.tokens
  {
    db.(rows := (db.rows - {j} - swept)[j' := expires], tokens := db.tokens[j' := db.tokens[j]],
        log := db.log + [Exchanged(j, j')])
  }

  function DoCommitRotation(s: State, c: CallId, j': Jti, expires: Time, swept: set<Jti>): State
    requires c in s.calls && s.calls[c].Took? && s.calls[c].jti in s.db.tokens
  {
    var j := s.calls[c].jti;
    s.(db := Rotated(s.db, j, j', expires, swept), calls := s.calls - {c})
  }

  // ---- login

  /** The temporary credential of a user who must change the password, while it can still be used. */
  predicate Usable(user: User, now: Time) {
    user.status == ACTIVE && user.mustChange && user.tempHash.Some? && user.tempExpires.Some?
        && user.tempExpires.value > now
  }

  function DoCompleteTwoFactor(s: State, c: CallId, p: PreAuth): State
    requires p.user in s.db.users
  {
    var user := s.db.users[p.user];
    if user.status != ACTIVE || user.mustChange != p.fingerprint.Some? then s
    else if p.fingerprint.None? then At(s, c, ToInsert(p.user, None))
    else if Usable(user, s.now) && user.tempHash == p.fingerprint then At(s, c, ToConsume(p.user, user.tempHash.value))
    else s
  }

  function Spend(db: Db, u: UserId, h: Hash): Db
    requires u in db.users
  {
    db.(users := db.users[u := db.users[u].(tempExpires := None)], log := db.log + [Used(u, h)])
  }

  /** One conditional UPDATE clears the expiry of exactly the credential that was matched. */
  function DoConsume(s: State, c: CallId): State
    requires c in s.calls && s.calls[c].ToConsume?
  {
    var u, h := s.calls[c].user, s.calls[c].hash;
    if u in s.db.users && s.db.users[u].mustChange && s.db.users[u].tempHash == Some(h)
       && s.db.users[u].tempExpires.Some? && s.db.users[u].tempExpires.value > s.now
    then s.(db := Spend(s.db, u, h), calls := s.calls[c := ToInsert(u, Some(h))])
    else End(s, c)
  }

  function LoggedIn(db: Db, u: UserId, forced: Option<Hash>, j: Jti, expires: Time): Db {
    db.(rows := db.rows[j := expires], tokens := db.tokens[j := Token(u, forced.Some?, |db.log|)],
        log := db.log + [Login(u, forced)])
  }

  function DoInsertSession(s: State, c: CallId, j: Jti, expires: Time): State
    requires c in s.calls && s.calls[c].ToInsert?
  {
    var u, forced := s.calls[c].user, s.calls[c].forced;
    s.(db := LoggedIn(s.db, u, forced, j, expires), calls := s.calls - {c})
  }

  // ---- resets, forced changes, bans

  function DoPlanChange(s: State, c: CallId, u: UserId): State
    requires u in s.db.users
  {
    var user := s.db.users[u];
    if user.mustChange && user.tempHash.Some? && user.tempExpires.None?
    then At(s, c, PlannedChange(u, user.tempHash.value))
    else s
  }

  function DoBeginUpdate(s: State, c: CallId): State
    requires c in s.calls && (s.calls[c].PlannedReset? || s.calls[c].PlannedChange?)
  {
    var pc := s.calls[c];
    if pc.user !in s.db.users then End(s, c)
    else match pc
      case PlannedReset(u, h, e) => At(s, c, Updating(u, ResetTo(h, e), None))
      case PlannedChange(u, h) =>
        var user := s.db.users[u];
        if user.mustChange && user.tempExpires.None? && user.tempHash == Some(h)
        then At(s, c, Updating(u, FinishForced(h), None))
        else End(s, c)
  }

  function RowsOf(db: Db, u: UserId): set<Jti> {
    set j | j in db.rows && j in db.tokens && db.tokens[j].user == u
  }

  function DoDeleteSessions(s: State, c: CallId): State
    requires c in s.calls && s.calls[c].Updating?
  {
    var u := s.calls[c].user;
    At(s, c, s.calls[c].(deleted := Some(Snapshot(RowsOf(s.db, u), |s.db.log|))))
  }

  function Apply(user: User, change: Change): User {
    match change
    case SetStatus(status) => user.(status := status)
    case ResetTo(h, e) => user.(mustChange := true, tempHash := Some(h), tempExpires := Some(e))
    case FinishForced(_) => user.(mustChange := false, tempHash := None, tempExpires := None)
  }

  predicate Clears(change: Change) {
    change != SetStatus(PENDING) && change != SetStatus(ACTIVE)
  }

  function Record(u: UserId, change: Change, from: nat): Event {
    match change
    case SetStatus(_) => Banned(u, from)
    case ResetTo(h, _) => Reset(u, h, from)
    case FinishForced(h) => Changed(u, h, from)
  }

  function Updated(db: Db, u: UserId, change: Change, deleted: Option<Snapshot>): Db
    requires u in db.users
  {
    var db' := db.(users := db.users[u := Apply(db.users[u], change)]);
    if deleted.None? then db'
    else db'.(rows := db.rows - deleted.value.rows, log := db.log + [Record(u, change, deleted.value.from)])
  }

  /** After a completed forced change the same request logs the user in. */
  function DoCommitUpdate(s: State, c: CallId): State
    requires c in s.calls && s.calls[c].Updating? && s.calls[c].user in s.db.users
  {
    var pc := s.calls[c];
    var calls' := if pc.change.FinishForced? then s.calls[c := ToInsert(pc.user, None)] else s.calls - {c};
    s.(db := Updated(s.db, pc.user, pc.change, pc.deleted), calls := calls')
  }

  // ---- the step relation

  ghost predicate Enabled(s: State, step: Step) {
    match step
    case Register(u, _) => u !in s.db.users
    case Tick(t) => t >= s.now
    case DropRows(ids) => forall j | j in ids :: RowFree(s.calls, j)
    case Abandon(c) => c in s.calls
    case FindRow(c, j) => c !in s.calls && j in s.db.tokens
    case LockUser(c) =>
      c in s.calls && s.calls[c].Found? && s.calls[c].jti in s.db.tokens && Unlocked(s.calls, s.calls[c].user)
    case TakeRow(c) => c in s.calls && s.calls[c].Checked? && RowFree(s.calls, s.calls[c].jti)
    case CommitRotation(c, j', _, swept) =>
      c in s.calls && s.calls[c].Took? && s.calls[c].jti in s.db.tokens && j' !in s.db.tokens
      && (forall j | j in swept :: RowFree(s.calls, j) && Expired(s.db, j, s.calls[c].user, s.now))
    case LoginPrimary(c, u) =>
      c !in s.calls && u in s.db.users && s.db.users[u].status == ACTIVE && !s.db.users[u].mustChange
    case LoginTemporary(c, u) => c !in s.calls && u in s.db.users && Usable(s.db.users[u], s.now)
    case AskTwoFactor(u) => u in s.db.users && s.db.users[u].status == ACTIVE
                            && (s.db.users[u].mustChange ==> Usable(s.db.users[u], s.now))
    case CompleteTwoFactor(c, p) => c !in s.calls && p in s.preAuths && p.user in s.db.users
    case Consume(c) => c in s.calls && s.calls[c].ToConsume? && Unlocked(s.calls, s.calls[c].user)
    case InsertSession(c, j, _) => c in s.calls && s.calls[c].ToInsert? && j !in s.db.tokens
    case PlanReset(c, u, h, _) => c !in s.calls && u in s.db.users && h !in s.db.hashes
    case PlanChange(c, u) => c !in s.calls && u in s.db.users
    case ChangeStatus(c, u, status) =>
      c !in s.calls && u in s.db.users && s.db.users[u].status != status && Unlocked(s.calls, u)
    case BeginUpdate(c) => c in s.calls && (s.calls[c].PlannedReset? || s.calls[c].PlannedChange?)
                           && Unlocked(s.calls, s.calls[c].user)
    case DeleteSessions(c) =>
      c in s.calls && s.calls[c].Updating? && s.calls[c].deleted.None? && Clears(s.calls[c].change)
    case CommitUpdate(c) => c in s.calls && s.calls[c].Updating? && s.calls[c].user in s.db.users
                            && (Clears(s.calls[c].change) <==> s.calls[c].deleted.Some?)
  }

  ghost function Next(s: State, step: Step): State
    requires Enabled(s, step)
  {
    match step
    case Register(u, status) => s.(db := s.db.(users := s.db.users[u := User(status, false, None, None)]))
    case Tick(t) => s.(now := t)
    case DropRows(ids) => s.(db := s.db.(rows := s.db.rows - ids))
    case Abandon(c) => End(s, c)
    case FindRow(c, j) => DoFindRow(s, c, j)
    case LockUser(c) => DoLockUser(s, c)
    case TakeRow(c) => DoTakeRow(s, c)
    case CommitRotation(c, j', expires, swept) => DoCommitRotation(s, c, j', expires, swept)
    case LoginPrimary(c, u) => At(s, c, ToInsert(u, None))
    case LoginTemporary(c, u) => At(s, c, ToConsume(u, s.db.users[u].tempHash.value))
    case AskTwoFactor(u) =>
      s.(preAuths := s.preAuths + {PreAuth(u, if s.db.users[u].mustChange then s.db.users[u].tempHash else None)})
    case CompleteTwoFactor(c, p) => DoCompleteTwoFactor(s, c, p)
    case Consume(c) => DoConsume(s, c)
    case InsertSession(c, j, expires) => DoInsertSession(s, c, j, expires)
    case PlanReset(c, u, h, expires) => At(s.(db := s.db.(hashes := s.db.hashes + {h})), c, PlannedReset(u, h, expires))
    case PlanChange(c, u) => DoPlanChange(s, c, u)
    case ChangeStatus(c, u, status) => At(s, c, Updating(u, SetStatus(status), None))
    case BeginUpdate(c) => DoBeginUpdate(s, c)
    case DeleteSessions(c) => DoDeleteSessions(s, c)
    case CommitUpdate(c) => DoCommitUpdate(s, c)
  }

  ghost predicate Run(states: seq<State>, steps: seq<Step>) {
    && |states| == |steps| + 1
    && Init(states[0])
    && (forall i | 0 <= i < |steps| :: Enabled(states[i], steps[i]) && states[i + 1] == Next(states[i], steps[i]))
  }
}
