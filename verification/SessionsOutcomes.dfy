/**
 What the steps of the session machine write, and whom they let in, in every run.
 */
module SessionsOutcomes {
  import opened Wrappers
  import opened Sessions
  import opened SessionsSafety

  // ---- committed updates

  /** What a committed change makes of a user's columns. */
  predicate Carries(before: User, after: User, change: Change) {
    match change
    case SetStatus(x) =>
      && after.status == x && after.mustChange == before.mustChange
      && after.tempHash == before.tempHash && after.tempExpires == before.tempExpires
    case ResetTo(h, e) =>
      && after.status == before.status && after.mustChange
      && after.tempHash == Some(h) && after.tempExpires == Some(e)
    case FinishForced(_) =>
      && after.status == before.status && !after.mustChange && after.tempHash.None? && after.tempExpires.None?
  }

  /** A status change, a reset or a forced change writes its own columns of its user, and nothing else of any user. */
  lemma UpdateIsWritten(states: seq<State>, steps: seq<Step>, n: nat, c: CallId)
    requires Run(states, steps) && n < |steps| && steps[n] == CommitUpdate(c)
    ensures var pc, users, users' := states[n].calls[c], states[n].db.users, states[n + 1].db.users;
            && users'.Keys == users.Keys && pc.user in users && Carries(users[pc.user], users'[pc.user], pc.change)
            && (forall v | v in users && v != pc.user :: users'[v] == users[v])
  {
    assert states[n + 1] == DoCommitUpdate(states[n], c);
  }

  /** Of the sessions, it ends exactly those its delete has seen; only a ban, a reset or a forced change deletes any. */
  lemma UpdateEndsSessions(states: seq<State>, steps: seq<Step>, n: nat, c: CallId)
    requires Run(states, steps) && n < |steps| && steps[n] == CommitUpdate(c)
    ensures var pc := states[n].calls[c];
            && (pc.deleted.Some? <==> !pc.change.SetStatus? || pc.change.status == BANNED)
            && states[n + 1].db.rows
               == (if pc.deleted.Some? then states[n].db.rows - pc.deleted.value.rows else states[n].db.rows)
  {
    assert states[n + 1] == DoCommitUpdate(states[n], c);
  }

  /** The delete sees every committed session of its user and no other. */
  lemma DeleteSeesAllSessions(states: seq<State>, steps: seq<Step>, n: nat, c: CallId)
    requires Run(states, steps) && n < |steps| && steps[n] == DeleteSessions(c)
    ensures var u := states[n].calls[c].user;
            && c in states[n + 1].calls && states[n + 1].calls[c].Updating?
            && states[n + 1].calls[c].change == states[n].calls[c].change
            && states[n + 1].calls[c].deleted.Some?
            && (forall j | j in states[n].db.rows ::
                  j in states[n].db.tokens
                  && (j in states[n + 1].calls[c].deleted.value.rows <==> states[n].db.tokens[j].user == u))
  {
    InvHolds(states, steps, n);
    assert states[n + 1] == DoDeleteSessions(states[n], c);
  }

  /** A transaction that fails rolls back: the call is gone, its locks with it, and nothing was written. */
  lemma FailureRollsBack(states: seq<State>, steps: seq<Step>, n: nat, c: CallId)
    requires Run(states, steps) && n < |steps| && steps[n] == Abandon(c)
    ensures c in states[n].calls && c !in states[n + 1].calls && states[n + 1].db == states[n].db
  {
    assert states[n + 1] == Next(states[n], steps[n]);
  }

  /** A status change is for an existing user with another status; a reset draws a new credential for one. */
  lemma AdminsActOnUsers(states: seq<State>, steps: seq<Step>, n: nat)
    requires Run(states, steps) && n < |steps| && (steps[n].ChangeStatus? || steps[n].PlanReset?)
    ensures var s, s', step := states[n], states[n + 1], steps[n];
            && step.user in s.db.users && s'.db.users == s.db.users && s'.db.rows == s.db.rows
            && (step.ChangeStatus? ==>
                  && s.db.users[step.user].status != step.status && Unlocked(s.calls, step.user)
                  && s'.calls == s.calls[step.call := Updating(step.user, SetStatus(step.status), None)])
            && (step.PlanReset? ==>
                  && step.hash !in s.db.hashes && step.hash in s'.db.hashes
                  && s'.calls == s.calls[step.call := PlannedReset(step.user, step.hash, step.expires)])
  {
    assert states[n + 1] == Next(states[n], steps[n]);
  }

  // ---- who may log in

  /** A call that the step lets begin a login of `u`: past its checks, with a session still to insert. */
  ghost predicate Enters(s: State, s': State, c: CallId, u: UserId) {
    c !in s.calls && c in s'.calls && s'.calls[c].user == u && (s'.calls[c].ToInsert? || s'.calls[c].ToConsume?)
  }

  /** The account is active, and the credential is the one that its recovery state asks for. */
  predicate MayEnter(user: User, pc: Pc, now: Time) {
    && user.status == ACTIVE
    && (pc.ToInsert? ==> !user.mustChange && pc.forced.None?)
    && (pc.ToConsume? ==>
          && user.mustChange && user.tempHash == Some(pc.hash)
          && user.tempExpires.Some? && user.tempExpires.value > now)
  }

  lemma EntryIsChecked(s: State, step: Step, c: CallId, u: UserId)
    requires Enabled(s, step) && Enters(s, Next(s, step), c, u)
    ensures u in s.db.users && MayEnter(s.db.users[u], Next(s, step).calls[c], s.now)
  {
  }

  /**
   Whoever begins a login is active and presents what the recovery state asks for: the password of an account in its
   normal state, or the unexpired temporary credential of one that must change it.
   */
  lemma OnlyTheEntitledLogIn(states: seq<State>, steps: seq<Step>, n: nat, c: CallId, u: UserId)
    requires Run(states, steps) && n < |steps| && Enters(states[n], states[n + 1], c, u)
    ensures u in states[n].db.users && MayEnter(states[n].db.users[u], states[n + 1].calls[c], states[n].now)
  {
    EntryIsChecked(states[n], steps[n], c, u);
  }

  /** A pre-auth token completes exactly if it still agrees with the account, to the very credential it was made for. */
  lemma TwoFactorCompletesExactly(states: seq<State>, steps: seq<Step>, n: nat, c: CallId, p: PreAuth)
    requires Run(states, steps) && n < |steps| && steps[n] == CompleteTwoFactor(c, p)
    ensures var user := states[n].db.users[p.user];
            c in states[n + 1].calls <==>
              && user.status == ACTIVE && user.mustChange == p.fingerprint.Some?
              && (p.fingerprint.Some? ==>
                    user.tempHash == p.fingerprint && user.tempExpires.Some? && user.tempExpires.value > states[n].now)
    ensures c in states[n + 1].calls ==>
              states[n + 1].calls[c] == if p.fingerprint.Some? then ToConsume(p.user, p.fingerprint.value)
                                        else ToInsert(p.user, None)
  {
    assert states[n + 1] == DoCompleteTwoFactor(states[n], c, p);
  }

  /** The account was active and in the state that the pre-auth token records when it was issued. */
  ghost predicate Issues(s: State, step: Step, p: PreAuth) {
    && step == AskTwoFactor(p.user) && p.user in s.db.users && s.db.users[p.user].status == ACTIVE
    && (p.fingerprint.None? ==> !s.db.users[p.user].mustChange)
    && (p.fingerprint.Some? ==>
          && Shaped(s.db.users[p.user], Pending(p.fingerprint.value))
          && s.db.users[p.user].tempExpires.value > s.now)
  }

  lemma PreAuthStepsBack(s: State, step: Step, p: PreAuth)
    requires Enabled(s, step) && p in Next(s, step).preAuths
    ensures p in s.preAuths || Issues(s, step, p)
  {
  }

  /** A pre-auth token was issued to an active account, and a temporary one for a credential that could be used then. */
  lemma {:induction false} PreAuthWasIssued(states: seq<State>, steps: seq<Step>, n: nat, p: PreAuth) returns (m: nat)
    requires Run(states, steps) && n < |states| && p in states[n].preAuths
    ensures m < n && Issues(states[m], steps[m], p)
  {
    PreAuthStepsBack(states[n - 1], steps[n - 1], p);
    if p in states[n - 1].preAuths {
      m := PreAuthWasIssued(states, steps, n - 1, p);
    } else {
      m := n - 1;
    }
  }

  /** Whoever completes a two-factor login was asked for the second factor before, under the same recovery state. */
  lemma TwoFactorWasAsked(states: seq<State>, steps: seq<Step>, n: nat, c: CallId, p: PreAuth) returns (m: nat)
    requires Run(states, steps) && n < |steps| && steps[n] == CompleteTwoFactor(c, p)
    ensures m < n && Issues(states[m], steps[m], p)
  {
    m := PreAuthWasIssued(states, steps, n, p);
  }

  /** A forced change is taken up exactly if the account's credential has been consumed, and for that credential. */
  lemma ChangeIsPlannedExactly(states: seq<State>, steps: seq<Step>, n: nat, c: CallId, u: UserId)
    requires Run(states, steps) && n < |steps| && steps[n] == PlanChange(c, u)
    ensures var user, s' := states[n].db.users[u], states[n + 1];
            && (c in s'.calls <==> user.mustChange && user.tempExpires.None?)
            && (c in s'.calls ==> Shaped(user, Consumed(s'.calls[c].hash)) && s'.calls[c].PlannedChange?
                                  && s'.calls[c].user == u)
  {
    InvHolds(states, steps, n);
    assert Shaped(states[n].db.users[u], Replay(states[n].db.log, u));
    assert states[n + 1] == DoPlanChange(states[n], c, u);
  }

  /** A credential is consumed exactly while its reset is pending and unexpired; otherwise nothing is written. */
  lemma ConsumedExactly(states: seq<State>, steps: seq<Step>, n: nat, c: CallId)
    requires Run(states, steps) && n < |steps| && steps[n] == Consume(c)
    ensures var pc, s, s' := states[n].calls[c], states[n], states[n + 1];
            if pc.user in s.db.users && Shaped(s.db.users[pc.user], Pending(pc.hash))
               && s.db.users[pc.user].tempExpires.value > s.now
            then && c in s'.calls && s'.calls[c] == ToInsert(pc.user, Some(pc.hash))
                 && s'.db.users == s.db.users[pc.user := s.db.users[pc.user].(tempExpires := None)]
            else c !in s'.calls && s'.db == s.db
  {
    assert states[n + 1] == DoConsume(states[n], c);
  }

  /** A login inserts one row, for a token of its user whose origin is the credential that was presented. */
  lemma LoginInsertsItsSession(states: seq<State>, steps: seq<Step>, n: nat, c: CallId, j: Jti, expires: Time)
    requires Run(states, steps) && n < |steps| && steps[n] == InsertSession(c, j, expires)
    ensures var pc, db, db' := states[n].calls[c], states[n].db, states[n + 1].db;
            && db'.rows == db.rows[j := expires] && j !in db.tokens && j in db'.tokens
            && db'.tokens[j].user == pc.user && db'.tokens[j].temporaryAuth == pc.forced.Some?
            && db'.users == db.users && c !in states[n + 1].calls
  {
    assert states[n + 1] == DoInsertSession(states[n], c, j, expires);
  }

  // ---- a ban keeps its user out

  /** The step commits a status of `u`. */
  ghost predicate SetsStatus(s: State, step: Step, u: UserId) {
    && step.CommitUpdate? && step.call in s.calls && s.calls[step.call].Updating?
    && s.calls[step.call].user == u && s.calls[step.call].change.SetStatus?
  }

  lemma StatusStays(s: State, step: Step, u: UserId)
    requires Enabled(s, step) && u in s.db.users && !SetsStatus(s, step, u)
    ensures u in Next(s, step).db.users && Next(s, step).db.users[u].status == s.db.users[u].status
  {
  }

  lemma {:induction false} StatusLasts(states: seq<State>, steps: seq<Step>, n: nat, m: nat, u: UserId)
    requires Run(states, steps) && n <= m < |states| && u in states[n].db.users
    requires forall k | n <= k < m :: !SetsStatus(states[k], steps[k], u)
    ensures u in states[m].db.users && states[m].db.users[u].status == states[n].db.users[u].status
  {
    if n < m {
      StatusLasts(states, steps, n, m - 1, u);
      StatusStays(states[m - 1], steps[m - 1], u);
    }
  }

  /**
   From the commit of a ban to the next committed change of status the user is BANNED: no login of theirs begins, and no
   rotation of theirs is under way beyond its check, so that none commits.
   */
  lemma BannedUserStaysOut(states: seq<State>, steps: seq<Step>, n: nat, m: nat, c: CallId)
    requires Run(states, steps) && n < m < |steps| && steps[n] == CommitUpdate(c)
    requires states[n].calls[c].change == SetStatus(BANNED)
    requires forall k | n < k < m :: !SetsStatus(states[k], steps[k], states[n].calls[c].user)
    ensures var u, s, s' := states[n].calls[c].user, states[m], states[m + 1];
            && u in s.db.users && s.db.users[u].status == BANNED
            && (forall d | d in s'.calls :: !Enters(s, s', d, u))
            && (forall d | d in s.calls && (s.calls[d].Checked? || s.calls[d].Took?) :: s.calls[d].user != u)
  {
    var u := states[n].calls[c].user;
    UpdateIsWritten(states, steps, n, c);
    StatusLasts(states, steps, n + 1, m, u);
    var s, s' := states[m], states[m + 1];
    forall d | d in s'.calls ensures !Enters(s, s', d, u) {
      if Enters(s, s', d, u) {
        OnlyTheEntitledLogIn(states, steps, m, d, u);
      }
    }
    InvHolds(states, steps, m);
    forall d | d in states[m].calls && (states[m].calls[d].Checked? || states[m].calls[d].Took?)
      ensures states[m].calls[d].user != u
    {
      assert PcOk(states[m].db, states[m].calls[d]);
    }
  }

  // ---- a rotation from its first step

  predicate Rotates(pc: Pc, j: Jti) {
    (pc.Found? || pc.Checked? || pc.Took?) && pc.jti == j
  }

  lemma RotationStepsBack(s: State, step: Step, c: CallId, j: Jti)
    requires Enabled(s, step) && c in Next(s, step).calls && Rotates(Next(s, step).calls[c], j)
    ensures (c in s.calls && Rotates(s.calls[c], j))
            || (step == FindRow(c, j) && j in s.db.rows && s.db.rows[j] > s.now)
  {
  }

  /** A token that is being exchanged was live and unexpired when its rotation began. */
  lemma {:induction false} RotationBeganLive(states: seq<State>, steps: seq<Step>, n: nat, c: CallId, j: Jti)
    returns (m: nat)
    requires Run(states, steps) && n < |states| && c in states[n].calls && Rotates(states[n].calls[c], j)
    ensures m < n && steps[m] == FindRow(c, j) && j in states[m].db.rows && states[m].db.rows[j] > states[m].now
  {
    RotationStepsBack(states[n - 1], steps[n - 1], c, j);
    if c in states[n - 1].calls && Rotates(states[n - 1].calls[c], j) {
      m := RotationBeganLive(states, steps, n - 1, c, j);
    } else {
      m := n - 1;
    }
  }

  /** Replacing a token keeps every other session, but for expired ones of the same user. */
  lemma RotationReplacesItsToken(states: seq<State>, steps: seq<Step>, n: nat, c: CallId, j': Jti, expires: Time,
                                 swept: set<Jti>)
    requires Run(states, steps) && n < |steps| && steps[n] == CommitRotation(c, j', expires, swept)
    ensures var j, db, db' := states[n].calls[c].jti, states[n].db, states[n + 1].db;
            && j in db.tokens && j' in db'.tokens && db'.tokens[j'] == db.tokens[j]
            && j !in db'.rows && j' in db'.rows && db'.rows[j'] == expires && j' !in db.tokens
            && (forall i | i in db.rows && i in db.tokens && i != j
                           && (db.rows[i] > states[n].now || db.tokens[i].user != db.tokens[j].user) ::
                  i in db'.rows && db'.rows[i] == db.rows[i])
            && db'.users == db.users
  {
    InvHolds(states, steps, n);
    assert PcOk(states[n].db, states[n].calls[c]);
    assert states[n + 1] == DoCommitRotation(states[n], c, j', expires, swept);
  }
}
