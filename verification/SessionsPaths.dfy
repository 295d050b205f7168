/**
 The intended paths through sessions and recovery are open: a call that nobody disturbs gets what it asks for.
 */
module SessionsPaths {
  import opened Wrappers
  import opened Sessions
  import opened SessionsSafety

  /** The state after some steps, each of them enabled. */
  ghost predicate Leads(s: State, steps: seq<Step>, s': State)
    decreases |steps|
  {
    if steps == [] then s' == s
    else Enabled(s, steps[0]) && Leads(Next(s, steps[0]), steps[1..], s')
  }

  lemma One(s: State, step: Step)
    requires Enabled(s, step)
    ensures Leads(s, [step], Next(s, step))
  {
    assert Leads(Next(s, step), [], Next(s, step));
    assert [step][1..] == [];
  }

  lemma {:induction false} Then(s: State, a: seq<Step>, s1: State, b: seq<Step>, s2: State)
    requires Leads(s, a, s1) && Leads(s1, b, s2)
    ensures Leads(s, a + b, s2)
    decreases |a|
  {
    if a == [] {
      assert a + b == b;
    } else {
      Then(Next(s, a[0]), a[1..], s1, b, s2);
      assert (a + b)[0] == a[0] && (a + b)[1..] == a[1..] + b;
    }
  }

  lemma Extend(s: State, steps: seq<Step>, s1: State, step: Step) returns (s2: State)
    requires Leads(s, steps, s1) && Enabled(s1, step)
    ensures s2 == Next(s1, step) && Leads(s, steps + [step], s2)
  {
    s2 := Next(s1, step);
    One(s1, step);
    Then(s, steps, s1, [step], s2);
  }

  /** No call is under way. */
  predicate Quiet(s: State) {
    s.calls == map[]
  }

  /** A live token of an accepted user is exchanged for a successor of the same login, and its own row goes. */
  lemma RotationPath(s: State, j: Jti, j': Jti, expires: Time) returns (steps: seq<Step>, s': State)
    requires Quiet(s) && j in s.db.tokens && j in s.db.rows && s.db.rows[j] > s.now && j' !in s.db.tokens
    requires s.db.tokens[j].user in s.db.users && s.db.users[s.db.tokens[j].user].status == ACTIVE
    requires s.db.users[s.db.tokens[j].user].mustChange == s.db.tokens[j].temporaryAuth
    ensures Leads(s, steps, s') && Quiet(s')
    ensures s'.db.rows == (s.db.rows - {j})[j' := expires] && s'.db.users == s.db.users
    ensures j' in s'.db.tokens && s'.db.tokens[j'] == s.db.tokens[j]
  {
    steps := [FindRow(0, j)];
    One(s, steps[0]);
    s' := Next(s, steps[0]);
    s' := Extend(s, steps, s', LockUser(0));
    steps := steps + [LockUser(0)];
    s' := Extend(s, steps, s', TakeRow(0));
    steps := steps + [TakeRow(0)];
    s' := Extend(s, steps, s', CommitRotation(0, j', expires, {}));
    steps := steps + [CommitRotation(0, j', expires, {})];
    assert s.db.rows - {j} - {} == s.db.rows - {j};
    assert s'.calls == map[];
  }

  lemma UpdatePath(s: State, u: UserId, change: Change) returns (steps: seq<Step>, s': State)
    requires s.calls == map[0 := Updating(u, change, None)] && u in s.db.users && Clears(change)
    ensures Leads(s, steps, s')
    ensures s'.db == Updated(s.db, u, change, Some(Snapshot(RowsOf(s.db, u), |s.db.log|))) && s'.now == s.now
    ensures s'.calls == if change.FinishForced? then map[0 := ToInsert(u, None)] else map[]
  {
    steps := [DeleteSessions(0)];
    One(s, steps[0]);
    s' := Next(s, steps[0]);
    assert s'.calls == map[0 := Updating(u, change, Some(Snapshot(RowsOf(s.db, u), |s.db.log|)))];
    s' := Extend(s, steps, s', CommitUpdate(0));
    steps := steps + [CommitUpdate(0)];
  }

  /** An admin's reset leaves its credential pending and the user without sessions. */
  lemma ResetPath(s: State, u: UserId, h: Hash, expires: Time) returns (steps: seq<Step>, s': State)
    requires Quiet(s) && u in s.db.users && h !in s.db.hashes
    ensures Leads(s, steps, s') && Quiet(s') && s'.now == s.now
    ensures s'.db.users == s.db.users[u := Apply(s.db.users[u], ResetTo(h, expires))]
    ensures Shaped(s'.db.users[u], Pending(h)) && RowsOf(s'.db, u) == {}
  {
    steps := [PlanReset(0, u, h, expires)];
    One(s, steps[0]);
    s' := Next(s, steps[0]);
    s' := Extend(s, steps, s', BeginUpdate(0));
    steps := steps + [BeginUpdate(0)];
    assert s'.calls == map[0 := Updating(u, ResetTo(h, expires), None)];
    var s1 := s';
    var more;
    more, s' := UpdatePath(s1, u, ResetTo(h, expires));
    Then(s, steps, s1, more, s');
    steps := steps + more;
  }

  /** The temporary password logs the user in once: its credential is consumed and a forced session is there. */
  lemma ForcedLoginPath(s: State, u: UserId, h: Hash, j: Jti, expires: Time) returns (steps: seq<Step>, s': State)
    requires Quiet(s) && u in s.db.users && s.db.users[u].status == ACTIVE && Shaped(s.db.users[u], Pending(h))
    requires s.db.users[u].tempExpires.value > s.now
    requires j !in s.db.tokens
    ensures Leads(s, steps, s') && Quiet(s')
    ensures u in s'.db.users && Shaped(s'.db.users[u], Consumed(h))
    ensures j in s'.db.rows && j in s'.db.tokens && s'.db.tokens[j].user == u && s'.db.tokens[j].temporaryAuth
  {
    steps := [LoginTemporary(0, u)];
    One(s, steps[0]);
    s' := Next(s, steps[0]);
    s' := Extend(s, steps, s', Consume(0));
    steps := steps + [Consume(0)];
    s' := Extend(s, steps, s', InsertSession(0, j, expires));
    steps := steps + [InsertSession(0, j, expires)];
    assert s'.calls == map[];
  }

  lemma FinishPath(s: State, u: UserId, h: Hash) returns (steps: seq<Step>, s': State)
    requires Quiet(s) && u in s.db.users && Shaped(s.db.users[u], Consumed(h))
    ensures Leads(s, steps, s') && s'.calls == map[0 := ToInsert(u, None)]
    ensures u in s'.db.users && Shaped(s'.db.users[u], Normal) && s'.db.tokens == s.db.tokens
    ensures RowsOf(s'.db, u) == {}
  {
    steps := [PlanChange(0, u)];
    One(s, steps[0]);
    s' := Next(s, steps[0]);
    s' := Extend(s, steps, s', BeginUpdate(0));
    steps := steps + [BeginUpdate(0)];
    assert s'.calls == map[0 := Updating(u, FinishForced(h), None)];
    var s1 := s';
    var more;
    more, s' := UpdatePath(s1, u, FinishForced(h));
    Then(s, steps, s1, more, s');
    steps := steps + more;
  }

  /** The forced change ends the recovery, clears the old sessions and logs the user in with an ordinary one. */
  lemma ForcedChangePath(s: State, u: UserId, h: Hash, j: Jti, expires: Time) returns (steps: seq<Step>, s': State)
    requires Quiet(s) && u in s.db.users && Shaped(s.db.users[u], Consumed(h)) && j !in s.db.tokens
    ensures Leads(s, steps, s') && Quiet(s')
    ensures u in s'.db.users && Shaped(s'.db.users[u], Normal)
    ensures RowsOf(s'.db, u) == {j} && !s'.db.tokens[j].temporaryAuth
  {
    steps, s' := FinishPath(s, u, h);
    var s1 := s';
    s' := Extend(s, steps, s1, InsertSession(0, j, expires));
    steps := steps + [InsertSession(0, j, expires)];
    assert s'.calls == map[];
    assert forall i :: i in RowsOf(s'.db, u) ==> i == j || i in RowsOf(s1.db, u);
  }

  /** An active user in the normal state logs in with the password and gets an ordinary session beside the others. */
  lemma LoginPath(s: State, u: UserId, j: Jti, expires: Time) returns (steps: seq<Step>, s': State)
    requires Quiet(s) && u in s.db.users && s.db.users[u].status == ACTIVE && !s.db.users[u].mustChange
    requires j !in s.db.tokens
    ensures Leads(s, steps, s') && Quiet(s')
    ensures s'.db.rows == s.db.rows[j := expires] && s'.db.users == s.db.users
    ensures j in s'.db.tokens && s'.db.tokens[j].user == u && !s'.db.tokens[j].temporaryAuth
  {
    steps := [LoginPrimary(0, u)];
    One(s, steps[0]);
    s' := Next(s, steps[0]);
    s' := Extend(s, steps, s', InsertSession(0, j, expires));
    steps := steps + [InsertSession(0, j, expires)];
    assert s'.calls == map[];
  }

  /** With two-factor a login takes two requests; the second one is bound to the first by its pre-auth token. */
  lemma TwoFactorPath(s: State, u: UserId, j: Jti, expires: Time) returns (steps: seq<Step>, s': State)
    requires Quiet(s) && u in s.db.users && s.db.users[u].status == ACTIVE && !s.db.users[u].mustChange
    requires j !in s.db.tokens
    ensures Leads(s, steps, s') && Quiet(s')
    ensures s'.db.rows == s.db.rows[j := expires] && j in s'.db.tokens && !s'.db.tokens[j].temporaryAuth
  {
    steps := [AskTwoFactor(u)];
    One(s, steps[0]);
    s' := Next(s, steps[0]);
    s' := Extend(s, steps, s', CompleteTwoFactor(0, PreAuth(u, None)));
    steps := steps + [CompleteTwoFactor(0, PreAuth(u, None))];
    s' := Extend(s, steps, s', InsertSession(0, j, expires));
    steps := steps + [InsertSession(0, j, expires)];
    assert s'.calls == map[];
  }

  /** A temporary credential with two-factor: the pre-auth token leads to the consumption of that very credential. */
  lemma ForcedTwoFactorPath(s: State, u: UserId, h: Hash) returns (steps: seq<Step>, s': State)
    requires Quiet(s) && u in s.db.users && s.db.users[u].status == ACTIVE && Shaped(s.db.users[u], Pending(h))
    requires s.db.users[u].tempExpires.value > s.now
    ensures Leads(s, steps, s') && s'.calls == map[0 := ToInsert(u, Some(h))]
    ensures u in s'.db.users && Shaped(s'.db.users[u], Consumed(h))
  {
    steps := [AskTwoFactor(u)];
    One(s, steps[0]);
    s' := Next(s, steps[0]);
    s' := Extend(s, steps, s', CompleteTwoFactor(0, PreAuth(u, Some(h))));
    steps := steps + [CompleteTwoFactor(0, PreAuth(u, Some(h)))];
    s' := Extend(s, steps, s', Consume(0));
    steps := steps + [Consume(0)];
    assert s'.calls == map[0 := ToInsert(u, Some(h))];
  }

  /** A ban leaves the user BANNED and without sessions. */
  lemma BanPath(s: State, u: UserId) returns (steps: seq<Step>, s': State)
    requires Quiet(s) && u in s.db.users && s.db.users[u].status != BANNED
    ensures Leads(s, steps, s') && Quiet(s')
    ensures u in s'.db.users && s'.db.users[u].status == BANNED && RowsOf(s'.db, u) == {}
  {
    steps := [ChangeStatus(0, u, BANNED)];
    One(s, steps[0]);
    var s1 := Next(s, steps[0]);
    assert s1.calls == map[0 := Updating(u, SetStatus(BANNED), None)];
    var more;
    more, s' := UpdatePath(s1, u, SetStatus(BANNED));
    Then(s, steps, s1, more, s');
    steps := steps + more;
  }
}
