/**
 Sessions and forced recovery over whole runs, for any interleaving of any number of calls.
 */
module SessionsTheorems {
  import opened Sessions
  import opened SessionsSafety

  // ---- clearing sessions

  /**
   Once a ban, a reset or a completed forced change has committed, every live row of the user descends from a login
   whose insert came after the transaction's delete: no rotation, however it raced, leaves an older session alive.
   */
  lemma ClearedSessionsStayCleared(states: seq<State>, steps: seq<Step>, n: nat, k: nat, u: UserId, j: Jti)
    requires Run(states, steps) && n < |states|
    requires k < |states[n].db.log| && Cleared(states[n].db.log[k], u)
    requires j in states[n].db.rows && j in states[n].db.tokens && states[n].db.tokens[j].user == u
    ensures var login := states[n].db.tokens[j].family;
            && states[n].db.log[k].from <= login < |states[n].db.log|
            && states[n].db.log[login].Login? && states[n].db.log[login].user == u
  {
    InvHolds(states, steps, n);
  }

  /** Without a login since the delete, the user has no refresh row at all. */
  lemma NoSessionUntilTheNextLogin(states: seq<State>, steps: seq<Step>, n: nat, k: nat, u: UserId)
    requires Run(states, steps) && n < |states|
    requires k < |states[n].db.log| && Cleared(states[n].db.log[k], u)
    requires forall m | states[n].db.log[k].from <= m < |states[n].db.log| && states[n].db.log[m].Login? ::
               states[n].db.log[m].user != u
    ensures RowsOf(states[n].db, u) == {}
  {
    forall j | j in RowsOf(states[n].db, u) ensures false {
      ClearedSessionsStayCleared(states, steps, n, k, u, j);
    }
  }

  /**
   A rotation commits only for an active user whose recovery state agrees with the token, at the moment it commits.
   */
  lemma RotationNeedsAnAcceptedUser(states: seq<State>, steps: seq<Step>, n: nat)
    requires Run(states, steps) && n < |steps| && steps[n].CommitRotation?
    ensures var s := states[n]; var c := steps[n].call;
            && c in s.calls && s.calls[c].Took? && s.calls[c].jti in s.db.tokens
            && var token := s.db.tokens[s.calls[c].jti];
               && token.user in s.db.users && s.db.users[token.user].status == ACTIVE
               && s.db.users[token.user].mustChange == token.temporaryAuth
  {
    InvHolds(states, steps, n);
    assert PcOk(states[n].db, states[n].calls[steps[n].call]);
  }

  /** A later database: the log only grows, and a signed token never changes. */
  ghost predicate Later(db: Db, db': Db) {
    && db.log <= db'.log
    && (forall j | j in db.tokens :: j in db'.tokens && db'.tokens[j] == db.tokens[j])
  }

  lemma StepIsLater(s: State, step: Step)
    requires Enabled(s, step)
    ensures Later(s.db, Next(s, step).db)
  {
  }

  lemma LastStepIsLater(states: seq<State>, steps: seq<Step>, n: nat)
    requires Run(states, steps) && n < |steps|
    ensures Later(states[n].db, states[n + 1].db)
  {
    StepIsLater(states[n], steps[n]);
  }

  lemma {:induction false} ChainIsLater(dbs: seq<Db>, m: nat, n: nat)
    requires m <= n < |dbs| && forall i | 0 <= i < |dbs| - 1 :: Later(dbs[i], dbs[i + 1])
    ensures Later(dbs[m], dbs[n])
  {
    if m < n {
      ChainIsLater(dbs, m, n - 1);
      assert Later(dbs[n - 1], dbs[n - 1 + 1]);
    }
  }

  /** What has been committed stays committed. */
  lemma HistoryOnlyGrows(states: seq<State>, steps: seq<Step>, m: nat, n: nat)
    requires Run(states, steps) && m <= n < |states|
    ensures Later(states[m].db, states[n].db)
  {
    var dbs := seq(|states|, i requires 0 <= i < |states| => states[i].db);
    forall i | 0 <= i < |dbs| - 1 ensures Later(dbs[i], dbs[i + 1]) {
      LastStepIsLater(states, steps, i);
    }
    ChainIsLater(dbs, m, n);
  }

  // ---- exchanging tokens

  /** A refresh token id is exchanged at most once, and afterwards it has no row. */
  lemma ExchangedOnce(states: seq<State>, steps: seq<Step>, n: nat, a: nat, b: nat)
    requires Run(states, steps) && n < |states| && a < |states[n].db.log| && b < |states[n].db.log|
    requires states[n].db.log[a].Exchanged? && states[n].db.log[b].Exchanged?
    requires states[n].db.log[a].jti == states[n].db.log[b].jti
    ensures a == b && states[n].db.log[a].jti !in states[n].db.rows
  {
    InvHolds(states, steps, n);
    assert IsExchange(states[n].db.log[a], states[n].db.log[a].jti);
    assert IsExchange(states[n].db.log[b], states[n].db.log[a].jti);
  }

  /** The tokens descended from one login have at most one live row. */
  lemma OneRowPerLogin(states: seq<State>, steps: seq<Step>, n: nat, i: Jti, j: Jti)
    requires Run(states, steps) && n < |states| && i in states[n].db.rows && j in states[n].db.rows
    ensures i in states[n].db.tokens && j in states[n].db.tokens
    ensures states[n].db.tokens[i].family == states[n].db.tokens[j].family ==> i == j
  {
    InvHolds(states, steps, n);
  }

  // ---- forced recovery

  /** The recovery columns have exactly three shapes, and the log says which. */
  lemma ThreeShapes(states: seq<State>, steps: seq<Step>, n: nat, u: UserId)
    requires Run(states, steps) && n < |states| && u in states[n].db.users
    ensures Shaped(states[n].db.users[u], Replay(states[n].db.log, u))
  {
    InvHolds(states, steps, n);
  }

  /** One reset gives at most one forced login, whichever way two-factor is set, and only after its use. */
  lemma OneForcedLoginPerReset(states: seq<State>, steps: seq<Step>, n: nat, a: nat, b: nat, h: Hash)
    requires Run(states, steps) && n < |states| && a < |states[n].db.log| && b < |states[n].db.log|
    requires IsForcedLogin(states[n].db.log[a], h) && IsForcedLogin(states[n].db.log[b], h)
    ensures a == b && WasUsed(states[n].db.log, states[n].db.log[a].user, h)
  {
    InvHolds(states, steps, n);
  }

  /** A reset's credential is used at most once. */
  lemma UsedOnce(states: seq<State>, steps: seq<Step>, n: nat, a: nat, b: nat)
    requires Run(states, steps) && n < |states| && a <= b < |states[n].db.log|
    requires states[n].db.log[a].Used? && states[n].db.log[b].Used?
             && states[n].db.log[a].hash == states[n].db.log[b].hash
    ensures a == b
  {
    InvHolds(states, steps, n);
    var log := states[n].db.log;
    assert LegalAt(log, b);
    LegalPrefix(log, b);
    NeverUsedBefore(log[..b], log[b].user, log[b].hash);
  }

  /**
   A forced change completes for one reset of that user: the reset came first, then the use of its credential, then the
   change, and the user was not reset again in between.
   */
  lemma ForcedChangeAnswersItsReset(states: seq<State>, steps: seq<Step>, n: nat, k: nat) returns (reset: nat, use: nat)
    requires Run(states, steps) && n < |states| && k < |states[n].db.log| && states[n].db.log[k].Changed?
    ensures var log := states[n].db.log; var e := log[k];
            && reset < use < k
            && log[reset].Reset? && log[reset].user == e.user && log[reset].hash == e.hash
            && log[use] == Used(e.user, e.hash)
            && (forall i | reset < i < k && log[i].Reset? :: log[i].user != e.user)
            && (forall i | reset < i < k && log[i].Changed? :: log[i].user != e.user)
  {
    InvHolds(states, steps, n);
    var log := states[n].db.log;
    assert LegalAt(log, k);
    LegalPrefix(log, k);
    reset := LastReset(log[..k], log[k].user);
    use :| reset < use < k && log[..k][use] == Used(log[k].user, log[k].hash);
    assert forall i | 0 <= i < k :: log[..k][i] == log[i];
  }
}
