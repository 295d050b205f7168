/**
 What every run of the session machine keeps: who may hold a live refresh row, and where recovery stands.
 */
module SessionsSafety {
  import opened Wrappers
  import opened Sessions

  // ---- recovery as an automaton over the log

  /** The three shapes of the recovery columns. */
  datatype Recovery = Normal | Pending(hash: Hash) | Consumed(hash: Hash)

  predicate Shaped(user: User, r: Recovery) {
    match r
    case Normal => !user.mustChange && user.tempHash.None? && user.tempExpires.None?
    case Pending(h) => user.mustChange && user.tempHash == Some(h) && user.tempExpires.Some?
    case Consumed(h) => user.mustChange && user.tempHash == Some(h) && user.tempExpires.None?
  }

  function After(r: Recovery, u: UserId, e: Event): Recovery {
    match e
    case Reset(v, h, _) => if v == u then Pending(h) else r
    case Used(v, h) => if v == u then Consumed(h) else r
    case Changed(v, _, _) => if v == u then Normal else r
    case _ => r
  }

  /** Where a user's recovery stands after a log. */
  function Replay(log: seq<Event>, u: UserId): Recovery {
    if log == [] then Normal else After(Replay(log[..|log| - 1], u), u, log[|log| - 1])
  }

  lemma ReplayAppend(log: seq<Event>, e: Event, u: UserId)
    ensures Replay(log + [e], u) == After(Replay(log, u), u, e)
  {
    assert (log + [e])[..|log|] == log;
  }

  /** A credential is used only while its reset is pending, and a forced change completes only after that use. */
  predicate LegalAt(log: seq<Event>, k: nat)
    requires k < |log|
  {
    match log[k]
    case Used(u, h) => Replay(log[..k], u) == Pending(h)
    case Changed(u, h, _) => Replay(log[..k], u) == Consumed(h)
    case _ => true
  }

  ghost predicate Legal(log: seq<Event>) {
    forall k | 0 <= k < |log| :: LegalAt(log, k)
  }

  lemma LegalAppend(log: seq<Event>, e: Event)
    requires Legal(log)
    requires e.Used? ==> Replay(log, e.user) == Pending(e.hash)
    requires e.Changed? ==> Replay(log, e.user) == Consumed(e.hash)
    ensures Legal(log + [e])
  {
    var log' := log + [e];
    forall k | 0 <= k < |log'| ensures LegalAt(log', k) {
      if k < |log| {
        assert LegalAt(log, k);
        assert log'[..k] == log[..k];
      } else {
        assert log'[..k] == log;
      }
    }
  }

  // ---- resources a call owns alone

  datatype Ticket = UserLock(user: UserId) | ResetOf(hash: Hash) | LoginOf(hash: Hash)

  predicate Owns(pc: Pc, t: Ticket) {
    match t
    case UserLock(u) => Locks(pc, u)
    case ResetOf(h) => (pc.PlannedReset? && pc.hash == h) || (pc.Updating? && pc.change.ResetTo? && pc.change.hash == h)
    case LoginOf(h) => pc.ToInsert? && pc.forced == Some(h)
  }

  ghost predicate Exclusive(calls: map<CallId, Pc>) {
    forall c, d, t | c in calls && d in calls && Owns(calls[c], t) && Owns(calls[d], t) :: c == d
  }

  // ---- the log

  predicate IsReset(e: Event, h: Hash) {
    e.Reset? && e.hash == h
  }

  predicate IsForcedLogin(e: Event, h: Hash) {
    e.Login? && e.forced == Some(h)
  }

  predicate IsExchange(e: Event, j: Jti) {
    e.Exchanged? && e.jti == j
  }

  /** The event ended every session of `u` that its delete could see. */
  predicate Cleared(e: Event, u: UserId) {
    (e.Reset? || e.Changed? || e.Banned?) && e.user == u
  }

  ghost predicate NoReset(log: seq<Event>, h: Hash) {
    forall k | 0 <= k < |log| :: !IsReset(log[k], h)
  }

  ghost predicate NoForcedLogin(log: seq<Event>, h: Hash) {
    forall k | 0 <= k < |log| :: !IsForcedLogin(log[k], h)
  }

  ghost predicate WasUsed(log: seq<Event>, u: UserId, h: Hash) {
    exists k | 0 <= k < |log| :: log[k] == Used(u, h)
  }

  /** A reset, a forced login of a reset and the exchange of a token id each happen at most once. */
  ghost predicate Once(log: seq<Event>) {
    && (forall a, b, h | 0 <= a < |log| && 0 <= b < |log| && IsReset(log[a], h) && IsReset(log[b], h) :: a == b)
    && (forall a, b, h | 0 <= a < |log| && 0 <= b < |log| && IsForcedLogin(log[a], h) && IsForcedLogin(log[b], h) ::
          a == b)
    && (forall a, b, j | 0 <= a < |log| && 0 <= b < |log| && IsExchange(log[a], j) && IsExchange(log[b], j) :: a == b)
  }

  // ---- live rows

  type Rows = map<Jti, Time>
  type Tokens = map<Jti, Token>

  ghost predicate TokensOk(tokens: Tokens, log: seq<Event>) {
    forall j | j in tokens ::
      && tokens[j].family < |log| && log[tokens[j].family].Login?
      && log[tokens[j].family].user == tokens[j].user
      && log[tokens[j].family].forced.Some? == tokens[j].temporaryAuth
  }

  /** Every row belongs to a signed token, and the tokens descended from one login have at most one row. */
  ghost predicate RowsOk(rows: Rows, tokens: Tokens) {
    && rows.Keys <= tokens.Keys
    && (forall i, j | i in rows && j in rows && tokens[i].family == tokens[j].family :: i == j)
  }

  /** An exchanged token has no row, and sessions that survive a clearing descend from a login after its delete. */
  ghost predicate Spent(rows: Rows, tokens: Tokens, log: seq<Event>) {
    && (forall k | 0 <= k < |log| && log[k].Exchanged? :: log[k].jti in tokens && log[k].jti !in rows)
    && (forall k, u | 0 <= k < |log| && Cleared(log[k], u) :: log[k].from <= k)
    && (forall k, u, j | 0 <= k < |log| && Cleared(log[k], u) && j in rows && j in tokens && tokens[j].user == u ::
          tokens[j].family >= log[k].from)
  }

  ghost predicate SnapshotOk(rows: Rows, tokens: Tokens, log: seq<Event>, u: UserId, snap: Snapshot) {
    && snap.from <= |log|
    && (forall j | j in snap.rows :: j in tokens && tokens[j].user == u)
    && (forall j | j in rows && j in tokens && tokens[j].user == u :: j in snap.rows || tokens[j].family >= snap.from)
  }

  // ---- calls

  ghost predicate RotationOk(db: Db, pc: Pc)
    requires pc.Found? || pc.Checked? || pc.Took?
  {
    && pc.jti in db.tokens && db.tokens[pc.jti].user == pc.user
    && (!pc.Found? ==> pc.user in db.users && Accepts(db.users[pc.user], db.tokens[pc.jti]))
    && (pc.Took? ==> pc.jti in db.rows)
  }

  ghost predicate UpdateOk(db: Db, pc: Pc)
    requires pc.Updating?
  {
    && pc.user in db.users
    && (pc.change.ResetTo? ==> pc.change.hash in db.hashes && NoReset(db.log, pc.change.hash))
    && (pc.change.FinishForced? ==> Shaped(db.users[pc.user], Consumed(pc.change.hash)))
    && (pc.deleted.Some? ==> SnapshotOk(db.rows, db.tokens, db.log, pc.user, pc.deleted.value))
  }

  ghost predicate PcOk(db: Db, pc: Pc) {
    match pc
    case Found(_, _) => RotationOk(db, pc)
    case Checked(_, _) => RotationOk(db, pc)
    case Took(_, _) => RotationOk(db, pc)
    case ToConsume(_, _) => true
    case ToInsert(u, forced) => forced.Some? ==> WasUsed(db.log, u, forced.value) && NoForcedLogin(db.log, forced.value)
    case PlannedReset(_, h, _) => h in db.hashes && NoReset(db.log, h)
    case PlannedChange(_, _) => true
    case Updating(_, _, _) => UpdateOk(db, pc)
  }

  ghost predicate HashesOk(hashes: set<Hash>, log: seq<Event>) {
    && (forall k | 0 <= k < |log| && log[k].Reset? :: log[k].hash in hashes)
    && (forall k | 0 <= k < |log| && log[k].Login? && log[k].forced.Some? ::
          WasUsed(log, log[k].user, log[k].forced.value))
  }

  ghost predicate UsersOk(users: map<UserId, User>, log: seq<Event>) {
    && (forall u | u in users :: Shaped(users[u], Replay(log, u)))
    && (forall k | 0 <= k < |log| && (log[k].Used? || log[k].Reset? || log[k].Changed?) :: log[k].user in users)
  }

  ghost predicate LogOk(hashes: set<Hash>, log: seq<Event>) {
    Legal(log) && Once(log) && HashesOk(hashes, log)
  }

  ghost predicate DbOk(db: Db) {
    && TokensOk(db.tokens, db.log)
    && RowsOk(db.rows, db.tokens)
    && Spent(db.rows, db.tokens, db.log)
    && UsersOk(db.users, db.log)
    && LogOk(db.hashes, db.log)
  }

  ghost predicate CallsOk(db: Db, calls: map<CallId, Pc>) {
    forall c | c in calls :: PcOk(db, calls[c])
  }

  ghost predicate Inv(s: State) {
    DbOk(s.db) && CallsOk(s.db, s.calls) && Exclusive(s.calls)
  }

  // ---- facts about logs

  /**
   A pending or consumed reset was made by some reset of that user, with no recovery event of the user other than
   its use since.
   */
  lemma {:induction false} LastReset(log: seq<Event>, u: UserId) returns (m: nat)
    requires Legal(log) && Replay(log, u) != Normal
    ensures m < |log| && log[m].Reset? && log[m].user == u && log[m].hash == Replay(log, u).hash
    ensures forall k | m < k < |log| && log[k].Reset? :: log[k].user != u
    ensures forall k | m < k < |log| && log[k].Changed? :: log[k].user != u
    ensures Replay(log, u).Pending? ==> forall k | m < k < |log| && log[k].Used? :: log[k].user != u
    ensures Replay(log, u).Consumed? ==> exists i | m < i < |log| :: log[i] == Used(u, log[m].hash)
  {
    var n := |log| - 1;
    var before := log[..n];
    assert forall k | 0 <= k < n :: before[..k] == log[..k];
    assert forall k | 0 <= k < n :: LegalAt(log, k) ==> LegalAt(before, k);
    var e := log[n];
    assert LegalAt(log, n);
    if e.Reset? && e.user == u {
      m := n;
    } else {
      m := LastReset(before, u);
      assert e.Used? && e.user == u ==> log[n] == Used(u, log[m].hash);
    }
  }

  lemma NeverUsedBefore(log: seq<Event>, u: UserId, h: Hash)
    requires Legal(log) && Once(log) && Replay(log, u) == Pending(h)
    ensures forall k | 0 <= k < |log| && log[k].Used? :: log[k].hash != h
  {
    var m := LastReset(log, u);
    assert IsReset(log[m], h);
    forall k | 0 <= k < |log| && log[k].Used? ensures log[k].hash != h {
      assert LegalAt(log, k);
      LegalPrefix(log, k);
      var m' := LastReset(log[..k], log[k].user);
      assert IsReset(log[m'], log[k].hash);
    }
  }

  lemma PendingIsUnused(hashes: set<Hash>, log: seq<Event>, u: UserId, h: Hash)
    requires LogOk(hashes, log) && Replay(log, u) == Pending(h)
    ensures forall k | 0 <= k < |log| && log[k].Used? :: log[k].hash != h
    ensures NoForcedLogin(log, h)
  {
    NeverUsedBefore(log, u, h);
    if !NoForcedLogin(log, h) {
      var k: nat :| k < |log| && IsForcedLogin(log[k], h);
      ForcedWasUsed(hashes, log, k, h);
    }
  }

  lemma ForcedWasUsed(hashes: set<Hash>, log: seq<Event>, k: nat, h: Hash)
    requires HashesOk(hashes, log) && k < |log| && IsForcedLogin(log[k], h)
    ensures exists i | 0 <= i < |log| :: log[i].Used? && log[i].hash == h
  {
    assert WasUsed(log, log[k].user, h);
  }

  lemma LegalPrefix(log: seq<Event>, n: nat)
    requires Legal(log) && n <= |log|
    ensures Legal(log[..n])
  {
    forall k | 0 <= k < n ensures LegalAt(log[..n], k) {
      assert LegalAt(log, k);
      assert log[..n][..k] == log[..k];
    }
  }

  lemma {:induction false} Untouched(log: seq<Event>, u: UserId)
    requires forall k | 0 <= k < |log| && (log[k].Used? || log[k].Reset? || log[k].Changed?) :: log[k].user != u
    ensures Replay(log, u) == Normal
  {
    if log != [] {
      Untouched(log[..|log| - 1], u);
    }
  }

  // ---- appending to the log

  lemma UsedGrows(log: seq<Event>, e: Event, u: UserId, h: Hash)
    requires WasUsed(log, u, h)
    ensures WasUsed(log + [e], u, h)
  {
    var k :| 0 <= k < |log| && log[k] == Used(u, h);
    assert (log + [e])[k] == Used(u, h);
  }

  lemma OnceAppend(log: seq<Event>, e: Event)
    requires Once(log)
    requires e.Reset? ==> NoReset(log, e.hash)
    requires e.Login? && e.forced.Some? ==> NoForcedLogin(log, e.forced.value)
    requires e.Exchanged? ==> forall k | 0 <= k < |log| :: !IsExchange(log[k], e.jti)
    ensures Once(log + [e])
  {
  }

  lemma LogAppend(hashes: set<Hash>, log: seq<Event>, e: Event)
    requires LogOk(hashes, log)
    requires e.Used? ==> Replay(log, e.user) == Pending(e.hash)
    requires e.Changed? ==> Replay(log, e.user) == Consumed(e.hash)
    requires e.Reset? ==> NoReset(log, e.hash) && e.hash in hashes
    requires e.Login? && e.forced.Some? ==> NoForcedLogin(log, e.forced.value) && WasUsed(log, e.user, e.forced.value)
    requires e.Exchanged? ==> forall k | 0 <= k < |log| :: !IsExchange(log[k], e.jti)
    ensures LogOk(hashes, log + [e])
  {
    LegalAppend(log, e);
    OnceAppend(log, e);
    var log' := log + [e];
    forall k | 0 <= k < |log'| && log'[k].Login? && log'[k].forced.Some?
      ensures WasUsed(log', log'[k].user, log'[k].forced.value)
    {
      UsedGrows(log, e, log'[k].user, log'[k].forced.value);
    }
  }

  lemma UsersAppend(users: map<UserId, User>, log: seq<Event>, e: Event)
    requires UsersOk(users, log)
    requires !e.Used? && !e.Reset? && !e.Changed?
    ensures UsersOk(users, log + [e])
  {
    forall u | u in users ensures Shaped(users[u], Replay(log + [e], u)) {
      ReplayAppend(log, e, u);
    }
  }

  lemma UsersStep(users: map<UserId, User>, log: seq<Event>, e: Event, u: UserId, user: User)
    requires UsersOk(users, log) && u in users
    requires (e.Used? || e.Reset? || e.Changed?) && e.user == u
    requires Shaped(user, After(Replay(log, u), u, e))
    ensures UsersOk(users[u := user], log + [e])
  {
    var users' := users[u := user];
    forall v | v in users' ensures Shaped(users'[v], Replay(log + [e], v)) {
      ReplayAppend(log, e, v);
    }
  }

  // ---- a call moves, the database does not

  /** Nobody but `c` owns what `pc` owns. */
  ghost predicate Available(calls: map<CallId, Pc>, c: CallId, pc: Pc) {
    forall d, t | d in calls && d != c && Owns(calls[d], t) :: !Owns(pc, t)
  }

  lemma MoveKeeps(s: State, c: CallId, pc: Pc)
    requires Inv(s) && PcOk(s.db, pc) && Available(s.calls, c, pc)
    ensures Inv(At(s, c, pc))
  {
    ExclusiveMoves(s.calls, c, pc);
  }

  lemma ExclusiveMoves(calls: map<CallId, Pc>, c: CallId, pc: Pc)
    requires Exclusive(calls) && Available(calls, c, pc)
    ensures Exclusive(calls[c := pc])
  {
  }

  lemma EndKeeps(s: State, c: CallId)
    requires Inv(s)
    ensures Inv(End(s, c))
  {
  }

  lemma LockKeeps(s: State, c: CallId, pc: Pc)
    requires Inv(s) && PcOk(s.db, pc) && Unlocked(s.calls, pc.user)
    requires forall t | Owns(pc, t) :: t == UserLock(pc.user) || (c in s.calls && Owns(s.calls[c], t))
    ensures Inv(At(s, c, pc))
  {
    MoveKeeps(s, c, pc);
  }

  lemma LockUserKeeps(s: State, c: CallId)
    requires Inv(s) && c in s.calls && s.calls[c].Found? && s.calls[c].jti in s.db.tokens
    requires Unlocked(s.calls, s.calls[c].user)
    ensures Inv(DoLockUser(s, c))
  {
    var u, j := s.calls[c].user, s.calls[c].jti;
    assert PcOk(s.db, s.calls[c]);
    if u in s.db.users && Accepts(s.db.users[u], s.db.tokens[j]) {
      LockKeeps(s, c, Checked(u, j));
    } else {
      EndKeeps(s, c);
    }
  }

  lemma TookOwnsNoMore(calls: map<CallId, Pc>, c: CallId)
    requires Exclusive(calls) && c in calls && calls[c].Checked?
    ensures Available(calls, c, Took(calls[c].user, calls[c].jti))
  {
    assert forall t :: Owns(Took(calls[c].user, calls[c].jti), t) ==> Owns(calls[c], t);
  }

  lemma TakeRowKeeps(s: State, c: CallId)
    requires Inv(s) && c in s.calls && s.calls[c].Checked?
    ensures Inv(DoTakeRow(s, c))
  {
    assert PcOk(s.db, s.calls[c]);
    if s.calls[c].jti in s.db.rows {
      TookOwnsNoMore(s.calls, c);
      MoveKeeps(s, c, Took(s.calls[c].user, s.calls[c].jti));
    } else {
      EndKeeps(s, c);
    }
  }

  lemma RotationMoves(s: State, step: Step)
    requires Inv(s) && Enabled(s, step) && (step.FindRow? || step.LockUser? || step.TakeRow?)
    ensures Inv(Next(s, step))
  {
    match step
    case FindRow(c, j) => MoveKeeps(s, c, Found(s.db.tokens[j].user, j));
    case LockUser(c) => LockUserKeeps(s, c);
    case TakeRow(c) => TakeRowKeeps(s, c);
  }

  lemma LoginMoves(s: State, step: Step)
    requires Inv(s) && Enabled(s, step)
    requires step.LoginPrimary? || step.LoginTemporary? || step.AskTwoFactor? || step.CompleteTwoFactor?
             || step.PlanChange?
    ensures Inv(Next(s, step))
  {
    match step
    case LoginPrimary(c, u) => MoveKeeps(s, c, ToInsert(u, None));
    case LoginTemporary(c, u) => MoveKeeps(s, c, ToConsume(u, s.db.users[u].tempHash.value));
    case AskTwoFactor(_) =>
    case CompleteTwoFactor(c, p) =>
      MoveKeeps(s, c, ToInsert(p.user, None));
      if s.db.users[p.user].tempHash.Some? {
        MoveKeeps(s, c, ToConsume(p.user, s.db.users[p.user].tempHash.value));
      }
    case PlanChange(c, u) =>
      if s.db.users[u].tempHash.Some? {
        MoveKeeps(s, c, PlannedChange(u, s.db.users[u].tempHash.value));
      }
  }

  lemma UpdateMoves(s: State, step: Step)
    requires Inv(s) && Enabled(s, step) && (step.ChangeStatus? || step.BeginUpdate? || step.DeleteSessions?)
    ensures Inv(Next(s, step))
  {
    match step
    case ChangeStatus(c, u, status) => LockKeeps(s, c, Updating(u, SetStatus(status), None));
    case BeginUpdate(c) =>
      var pc := s.calls[c];
      assert PcOk(s.db, pc);
      EndKeeps(s, c);
      if pc.user in s.db.users {
        if pc.PlannedReset? {
          LockKeeps(s, c, Updating(pc.user, ResetTo(pc.hash, pc.expires), None));
        } else if Shaped(s.db.users[pc.user], Consumed(pc.hash)) {
          LockKeeps(s, c, Updating(pc.user, FinishForced(pc.hash), None));
        }
      }
    case DeleteSessions(c) =>
      var pc := s.calls[c];
      assert PcOk(s.db, pc);
      var pc' := pc.(deleted := Some(Snapshot(RowsOf(s.db, pc.user), |s.db.log|)));
      assert forall t :: Owns(pc', t) ==> Owns(pc, t);
      MoveKeeps(s, c, pc');
  }

  // ---- the database changes

  /** A change of the database that cannot disturb what call `pc` relies on. */
  ghost predicate Undisturbed(db: Db, db': Db, pc: Pc) {
    && (forall j | j in db.tokens :: j in db'.tokens && db'.tokens[j] == db.tokens[j])
    && db.hashes <= db'.hashes
    && db.log <= db'.log && (forall h | Owns(pc, ResetOf(h)) && NoReset(db.log, h) :: NoReset(db'.log, h))
    && (forall h | Owns(pc, LoginOf(h)) && NoForcedLogin(db.log, h) :: NoForcedLogin(db'.log, h))
    && (forall u | Locks(pc, u) && u in db.users ::
          && u in db'.users && db'.users[u] == db.users[u]
          && (forall j | j in db'.rows && j in db'.tokens && db'.tokens[j].user == u ::
                (j in db.rows && j in db.tokens) || db'.tokens[j].family >= |db.log|))
    && (pc.Took? && pc.jti in db.rows ==> pc.jti in db'.rows)
  }

  lemma Frame(db: Db, db': Db, pc: Pc)
    requires PcOk(db, pc) && Undisturbed(db, db', pc) && db'.tokens.Keys >= db.tokens.Keys
    ensures PcOk(db', pc)
  {
    if pc.ToInsert? && pc.forced.Some? {
      assert Owns(pc, LoginOf(pc.forced.value));
      var k :| 0 <= k < |db.log| && db.log[k] == Used(pc.user, pc.forced.value);
      assert db'.log[k] == Used(pc.user, pc.forced.value);
    } else if pc.PlannedReset? {
      assert Owns(pc, ResetOf(pc.hash));
    } else if pc.Updating? {
      assert Locks(pc, pc.user);
      if pc.change.ResetTo? {
        assert Owns(pc, ResetOf(pc.change.hash));
      }
    } else if pc.Checked? || pc.Took? {
      assert Locks(pc, pc.user);
    }
  }

  lemma DbKeeps(s: State, db': Db, calls': map<CallId, Pc>, c: CallId)
    requires Inv(s) && DbOk(db') && Exclusive(calls')
    requires calls'.Keys <= s.calls.Keys + {c}
    requires forall d | d in calls' && d != c ::
               d in s.calls && calls'[d] == s.calls[d] && Undisturbed(s.db, db', s.calls[d])
    requires c in calls' ==> PcOk(db', calls'[c])
    ensures Inv(s.(db := db', calls := calls'))
  {
    forall d | d in calls' ensures PcOk(db', calls'[d]) {
      if d != c {
        Frame(s.db, db', s.calls[d]);
      }
    }
  }

  // ---- registering and dropping

  lemma RegisterKeeps(s: State, u: UserId, status: Status)
    requires Inv(s) && u !in s.db.users
    ensures Inv(s.(db := s.db.(users := s.db.users[u := User(status, false, None, None)])))
  {
    var db' := s.db.(users := s.db.users[u := User(status, false, None, None)]);
    Untouched(s.db.log, u);
    forall c | c in s.calls ensures PcOk(db', s.calls[c]) {
      Frame(s.db, db', s.calls[c]);
    }
  }

  lemma DropKeeps(s: State, ids: set<Jti>)
    requires Inv(s) && forall j | j in ids :: RowFree(s.calls, j)
    ensures Inv(s.(db := s.db.(rows := s.db.rows - ids)))
  {
    var db' := s.db.(rows := s.db.rows - ids);
    forall c | c in s.calls ensures PcOk(db', s.calls[c]) {
      Frame(s.db, db', s.calls[c]);
    }
  }

  lemma DrawKeeps(s: State, c: CallId, u: UserId, h: Hash, expires: Time)
    requires Inv(s) && c !in s.calls && h !in s.db.hashes
    ensures Inv(At(s.(db := s.db.(hashes := s.db.hashes + {h})), c, PlannedReset(u, h, expires)))
  {
    var db' := s.db.(hashes := s.db.hashes + {h});
    forall d | d in s.calls ensures PcOk(db', s.calls[d]) {
      Frame(s.db, db', s.calls[d]);
    }
    forall d, t | d in s.calls && Owns(s.calls[d], t) ensures !Owns(PlannedReset(u, h, expires), t) {
      assert PcOk(s.db, s.calls[d]);
    }
    MoveKeeps(s.(db := db'), c, PlannedReset(u, h, expires));
  }

  // ---- a rotation commits

  lemma RotatedDb(db: Db, j: Jti, j': Jti, expires: Time, swept: set<Jti>)
    requires DbOk(db) && j in db.rows && j' !in db.tokens && j in db.tokens
    ensures DbOk(Rotated(db, j, j', expires, swept))
  {
    LogAppend(db.hashes, db.log, Exchanged(j, j'));
    UsersAppend(db.users, db.log, Exchanged(j, j'));
    RotatedRows(db, j, j', expires, swept);
    RotatedSpent(db, j, j', expires, swept);
  }

  lemma RotatedRows(db: Db, j: Jti, j': Jti, expires: Time, swept: set<Jti>)
    requires DbOk(db) && j in db.rows && j' !in db.tokens && j in db.tokens
    ensures var db' := Rotated(db, j, j', expires, swept); TokensOk(db'.tokens, db'.log) && RowsOk(db'.rows, db'.tokens)
  {
  }

  lemma RotatedSpent(db: Db, j: Jti, j': Jti, expires: Time, swept: set<Jti>)
    requires DbOk(db) && j in db.rows && j' !in db.tokens && j in db.tokens
    ensures var db' := Rotated(db, j, j', expires, swept); Spent(db'.rows, db'.tokens, db'.log)
  {
    var db' := Rotated(db, j, j', expires, swept);
    forall k, u, i | 0 <= k < |db'.log| && Cleared(db'.log[k], u) && i in db'.rows && i in db'.tokens
                     && db'.tokens[i].user == u
      ensures db'.tokens[i].family >= db'.log[k].from
    {
      assert Cleared(db.log[k], u);
      var i0 := if i == j' then j else i;
      assert i0 in db.rows && i0 in db.tokens && db.tokens[i0].user == u;
    }
  }

  lemma RotationDisturbsNobody(db: Db, pc: Pc, u: UserId, j: Jti, j': Jti, expires: Time, swept: set<Jti>)
    requires j in db.tokens && j' !in db.tokens && db.tokens[j].user == u && !Locks(pc, u)
    requires pc.Took? ==> pc.jti !in swept && pc.jti in db.tokens && db.tokens[pc.jti].user == pc.user
    ensures Undisturbed(db, Rotated(db, j, j', expires, swept), pc)
  {
    AppendHarmless(db.log, Exchanged(j, j'));
  }

  lemma CommitRotationKeeps(s: State, c: CallId, j': Jti, expires: Time, swept: set<Jti>)
    requires Inv(s) && c in s.calls && s.calls[c].Took? && s.calls[c].jti in s.db.tokens && j' !in s.db.tokens
    requires forall j | j in swept :: RowFree(s.calls, j)
    ensures Inv(DoCommitRotation(s, c, j', expires, swept))
  {
    var j, u := s.calls[c].jti, s.calls[c].user;
    assert PcOk(s.db, s.calls[c]);
    assert Owns(s.calls[c], UserLock(u));
    RotatedDb(s.db, j, j', expires, swept);
    var db' := Rotated(s.db, j, j', expires, swept);
    forall d | d in s.calls && d != c ensures Undisturbed(s.db, db', s.calls[d]) {
      assert !Owns(s.calls[d], UserLock(u));
      assert PcOk(s.db, s.calls[d]);
      RotationDisturbsNobody(s.db, s.calls[d], u, j, j', expires, swept);
    }
    DbKeeps(s, db', s.calls - {c}, c);
  }

  lemma AppendHarmless(log: seq<Event>, e: Event)
    ensures log <= log + [e]
    ensures forall h | NoReset(log, h) && !IsReset(e, h) :: NoReset(log + [e], h)
    ensures forall h | NoForcedLogin(log, h) && !IsForcedLogin(e, h) :: NoForcedLogin(log + [e], h)
  {
  }

  // ---- a login inserts

  lemma LoggedInDb(db: Db, u: UserId, forced: Option<Hash>, j: Jti, expires: Time)
    requires DbOk(db) && j !in db.tokens
    requires forced.Some? ==> WasUsed(db.log, u, forced.value) && NoForcedLogin(db.log, forced.value)
    ensures DbOk(LoggedIn(db, u, forced, j, expires))
  {
    LogAppend(db.hashes, db.log, Login(u, forced));
    UsersAppend(db.users, db.log, Login(u, forced));
    LoggedInRows(db, u, forced, j, expires);
    LoggedInSpent(db, u, forced, j, expires);
  }

  lemma LoggedInRows(db: Db, u: UserId, forced: Option<Hash>, j: Jti, expires: Time)
    requires TokensOk(db.tokens, db.log) && RowsOk(db.rows, db.tokens) && j !in db.tokens
    ensures var db' := LoggedIn(db, u, forced, j, expires);
            TokensOk(db'.tokens, db'.log) && RowsOk(db'.rows, db'.tokens)
  {
  }

  lemma LoggedInSpent(db: Db, u: UserId, forced: Option<Hash>, j: Jti, expires: Time)
    requires DbOk(db) && j !in db.tokens
    ensures var db' := LoggedIn(db, u, forced, j, expires); Spent(db'.rows, db'.tokens, db'.log)
  {
    var db' := LoggedIn(db, u, forced, j, expires);
    forall k, v, i | 0 <= k < |db'.log| && Cleared(db'.log[k], v) && i in db'.rows && i in db'.tokens
                     && db'.tokens[i].user == v
      ensures db'.tokens[i].family >= db'.log[k].from
    {
      assert Cleared(db.log[k], v);
      if i != j {
        assert i in db.rows && i in db.tokens;
      }
    }
  }

  lemma LoginDisturbsNobody(db: Db, u: UserId, forced: Option<Hash>, j: Jti, expires: Time, pc: Pc)
    requires j !in db.tokens && (forced.Some? ==> !Owns(pc, LoginOf(forced.value)))
    ensures Undisturbed(db, LoggedIn(db, u, forced, j, expires), pc)
  {
    AppendHarmless(db.log, Login(u, forced));
  }

  lemma InsertKeeps(s: State, c: CallId, j: Jti, expires: Time)
    requires Inv(s) && c in s.calls && s.calls[c].ToInsert? && j !in s.db.tokens
    ensures Inv(DoInsertSession(s, c, j, expires))
  {
    var u, forced := s.calls[c].user, s.calls[c].forced;
    assert PcOk(s.db, s.calls[c]);
    LoggedInDb(s.db, u, forced, j, expires);
    var db' := LoggedIn(s.db, u, forced, j, expires);
    forall d | d in s.calls && d != c ensures Undisturbed(s.db, db', s.calls[d]) {
      assert forced.Some? ==> Owns(s.calls[c], LoginOf(forced.value));
      LoginDisturbsNobody(s.db, u, forced, j, expires, s.calls[d]);
    }
    DbKeeps(s, db', s.calls - {c}, c);
  }

  // ---- a temporary credential is used

  lemma SpendDb(db: Db, u: UserId, h: Hash)
    requires DbOk(db) && u in db.users && Shaped(db.users[u], Pending(h))
    ensures DbOk(Spend(db, u, h))
  {
    assert Replay(db.log, u) == Pending(h) by {
      assert Shaped(db.users[u], Replay(db.log, u));
    }
    LogAppend(db.hashes, db.log, Used(u, h));
    UsersStep(db.users, db.log, Used(u, h), u, db.users[u].(tempExpires := None));
  }

  lemma SpendDisturbsNobody(db: Db, u: UserId, h: Hash, pc: Pc)
    requires u in db.users && !Locks(pc, u)
    ensures Undisturbed(db, Spend(db, u, h), pc)
  {
    AppendHarmless(db.log, Used(u, h));
  }

  /** Nobody else is about to log in with the credential that was just used. */
  lemma LoginTicketFree(s: State, c: CallId, u: UserId, h: Hash)
    requires Inv(s) && Replay(s.db.log, u) == Pending(h)
    ensures Available(s.calls, c, ToInsert(u, Some(h)))
  {
    PendingIsUnused(s.db.hashes, s.db.log, u, h);
    forall d, t | d in s.calls && d != c && Owns(s.calls[d], t) ensures !Owns(ToInsert(u, Some(h)), t) {
      assert PcOk(s.db, s.calls[d]);
    }
  }

  lemma SpentTicket(db: Db, u: UserId, h: Hash)
    requires LogOk(db.hashes, db.log) && Replay(db.log, u) == Pending(h) && u in db.users
    ensures PcOk(Spend(db, u, h), ToInsert(u, Some(h)))
  {
    PendingIsUnused(db.hashes, db.log, u, h);
    AppendHarmless(db.log, Used(u, h));
    assert Spend(db, u, h).log[|db.log|] == Used(u, h);
  }

  lemma SpendKeeps(s: State, c: CallId, u: UserId, h: Hash)
    requires Inv(s) && u in s.db.users && Shaped(s.db.users[u], Pending(h)) && Unlocked(s.calls, u)
    ensures Inv(s.(db := Spend(s.db, u, h), calls := s.calls[c := ToInsert(u, Some(h))]))
  {
    assert Shaped(s.db.users[u], Replay(s.db.log, u));
    SpendDb(s.db, u, h);
    LoginTicketFree(s, c, u, h);
    ExclusiveMoves(s.calls, c, ToInsert(u, Some(h)));
    SpentTicket(s.db, u, h);
    forall d | d in s.calls && d != c ensures Undisturbed(s.db, Spend(s.db, u, h), s.calls[d]) {
      SpendDisturbsNobody(s.db, u, h, s.calls[d]);
    }
    DbKeeps(s, Spend(s.db, u, h), s.calls[c := ToInsert(u, Some(h))], c);
  }

  lemma ConsumeKeeps(s: State, c: CallId)
    requires Inv(s) && c in s.calls && s.calls[c].ToConsume? && Unlocked(s.calls, s.calls[c].user)
    ensures Inv(DoConsume(s, c))
  {
    var u, h := s.calls[c].user, s.calls[c].hash;
    if u in s.db.users && Shaped(s.db.users[u], Pending(h)) && s.db.users[u].tempExpires.value > s.now {
      SpendKeeps(s, c, u, h);
    } else {
      EndKeeps(s, c);
    }
  }

  // ---- a reset, a forced change or a change of status commits

  lemma UpdatedDb(db: Db, pc: Pc)
    requires DbOk(db) && pc.Updating? && UpdateOk(db, pc) && (Clears(pc.change) <==> pc.deleted.Some?)
    ensures DbOk(Updated(db, pc.user, pc.change, pc.deleted))
  {
    var u, user := pc.user, db.users[pc.user];
    assert Shaped(user, Replay(db.log, u));
    if pc.deleted.Some? {
      var e := Record(u, pc.change, pc.deleted.value.from);
      LogAppend(db.hashes, db.log, e);
      if pc.change.SetStatus? {
        UsersAppend(db.users, db.log, e);
      } else {
        UsersStep(db.users, db.log, e, u, Apply(user, pc.change));
      }
      UpdatedSpent(db, pc);
    }
  }

  lemma UpdatedSpent(db: Db, pc: Pc)
    requires DbOk(db) && pc.Updating? && UpdateOk(db, pc) && pc.deleted.Some?
    ensures var db' := Updated(db, pc.user, pc.change, pc.deleted); Spent(db'.rows, db'.tokens, db'.log)
  {
    var db' := Updated(db, pc.user, pc.change, pc.deleted);
    forall k, v, i | 0 <= k < |db'.log| && Cleared(db'.log[k], v) && i in db'.rows && i in db'.tokens
                     && db'.tokens[i].user == v
      ensures db'.tokens[i].family >= db'.log[k].from
    {
      assert i in db.rows && i in db.tokens;
      if k < |db.log| {
        assert Cleared(db.log[k], v);
      }
    }
  }

  lemma UpdateDisturbsNobody(db: Db, pc: Pc, other: Pc)
    requires pc.Updating? && UpdateOk(db, pc) && !Locks(other, pc.user)
    requires pc.change.ResetTo? ==> !Owns(other, ResetOf(pc.change.hash))
    requires other.Took? ==> other.jti in db.tokens && db.tokens[other.jti].user == other.user
    ensures Undisturbed(db, Updated(db, pc.user, pc.change, pc.deleted), other)
  {
    if pc.deleted.Some? {
      AppendHarmless(db.log, Record(pc.user, pc.change, pc.deleted.value.from));
    }
  }

  lemma LockedOut(s: State, c: CallId, d: CallId)
    requires Inv(s) && c in s.calls && s.calls[c].Updating? && d in s.calls && d != c
    ensures var pc := s.calls[c]; Undisturbed(s.db, Updated(s.db, pc.user, pc.change, pc.deleted), s.calls[d])
  {
    var pc := s.calls[c];
    assert PcOk(s.db, pc) && PcOk(s.db, s.calls[d]);
    assert Owns(pc, UserLock(pc.user)) && !Owns(s.calls[d], UserLock(pc.user));
    if pc.change.ResetTo? {
      assert Owns(pc, ResetOf(pc.change.hash)) && !Owns(s.calls[d], ResetOf(pc.change.hash));
    }
    UpdateDisturbsNobody(s.db, pc, s.calls[d]);
  }

  lemma CommitUpdateKeeps(s: State, c: CallId)
    requires Inv(s) && c in s.calls && s.calls[c].Updating? && s.calls[c].user in s.db.users
    requires Clears(s.calls[c].change) <==> s.calls[c].deleted.Some?
    ensures Inv(DoCommitUpdate(s, c))
  {
    var pc := s.calls[c];
    assert PcOk(s.db, pc);
    UpdatedDb(s.db, pc);
    forall d | d in s.calls && d != c
      ensures Undisturbed(s.db, Updated(s.db, pc.user, pc.change, pc.deleted), s.calls[d])
    {
      LockedOut(s, c, d);
    }
    if pc.change.FinishForced? {
      ExclusiveMoves(s.calls, c, ToInsert(pc.user, None));
      DbKeeps(s, Updated(s.db, pc.user, pc.change, pc.deleted), s.calls[c := ToInsert(pc.user, None)], c);
    } else {
      DbKeeps(s, Updated(s.db, pc.user, pc.change, pc.deleted), s.calls - {c}, c);
    }
  }

  // ---- every step, every run

  lemma CommitsKeep(s: State, step: Step)
    requires Inv(s) && Enabled(s, step)
    requires step.CommitRotation? || step.Consume? || step.InsertSession? || step.CommitUpdate?
    ensures Inv(Next(s, step))
  {
    match step
    case CommitRotation(c, j', expires, swept) => CommitRotationKeeps(s, c, j', expires, swept);
    case Consume(c) => ConsumeKeeps(s, c);
    case InsertSession(c, j, expires) => InsertKeeps(s, c, j, expires);
    case CommitUpdate(c) => CommitUpdateKeeps(s, c);
  }

  lemma OthersKeep(s: State, step: Step)
    requires Inv(s) && Enabled(s, step)
    requires step.Register? || step.Tick? || step.DropRows? || step.Abandon? || step.PlanReset?
    ensures Inv(Next(s, step))
  {
    match step
    case Register(u, status) => RegisterKeeps(s, u, status);
    case Tick(_) =>
    case DropRows(ids) => DropKeeps(s, ids);
    case Abandon(c) => EndKeeps(s, c);
    case PlanReset(c, u, h, expires) => DrawKeeps(s, c, u, h, expires);
  }

  lemma NextKeeps(s: State, step: Step)
    requires Inv(s) && Enabled(s, step)
    ensures Inv(Next(s, step))
  {
    if step.FindRow? || step.LockUser? || step.TakeRow? {
      RotationMoves(s, step);
    } else if step.ChangeStatus? || step.BeginUpdate? || step.DeleteSessions? {
      UpdateMoves(s, step);
    } else if step.CommitRotation? || step.Consume? || step.InsertSession? || step.CommitUpdate? {
      CommitsKeep(s, step);
    } else if step.Register? || step.Tick? || step.DropRows? || step.Abandon? || step.PlanReset? {
      OthersKeep(s, step);
    } else {
      LoginMoves(s, step);
    }
  }

  lemma {:induction false} InvHolds(states: seq<State>, steps: seq<Step>, n: nat)
    requires Run(states, steps) && n < |states|
    ensures Inv(states[n])
  {
    if n > 0 {
      InvHolds(states, steps, n - 1);
      NextKeeps(states[n - 1], steps[n - 1]);
    }
  }
}
