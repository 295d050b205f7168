/**
 Runs in which a request and an approval are overtaken in both of their rounds, so that the bounds on their statements
 are reached.
 */
module AccessRuns {
  import opened Access

  /** A run that ends in `s`, in which call 0 began at step `m` and has made `count` statements since. */
  ghost predicate Made(states: seq<State>, steps: seq<Step>, m: nat, count: nat, s: State) {
    && Run(states, steps) && Lives(states, m, |steps|, 0) && states[|steps|] == s
    && Statements(steps[m..], 0) == count
  }

  lemma Grow(states: seq<State>, steps: seq<Step>, step: Step) returns (states': seq<State>, steps': seq<Step>)
    requires Run(states, steps) && Enabled(states[|steps|], step)
    ensures states' == states + [Effect(states[|steps|], step)] && steps' == steps + [step] && Run(states', steps')
  {
    states', steps' := states + [Effect(states[|steps|], step)], steps + [step];
    forall i | 0 <= i < |steps'|
      ensures Enabled(states'[i], steps'[i]) && states'[i + 1] == Effect(states'[i], steps'[i])
    {
      if i < |steps| {
        assert Enabled(states[i], steps[i]);
      }
    }
  }

  lemma Make(states: seq<State>, steps: seq<Step>, m: nat, count: nat, s: State, step: Step)
    returns (states': seq<State>, steps': seq<Step>)
    requires Made(states, steps, m, count, s) && Enabled(s, step) && 0 in Effect(s, step).calls
    ensures Made(states', steps', m, count + (if step == Proceed(0) then 1 else 0), Effect(s, step))
    ensures states'[m] == states[m]
  {
    states', steps' := Grow(states, steps, step);
    assert steps'[m..] == steps[m..] + [step];
    assert steps'[m..][..|steps| - m] == steps[m..];
  }

  /** One server and one user, with the user's row if there is one. */
  ghost function OneServer(access: AccessType, rows: map<Pair, Row>, nextId: RowId, calls: map<CallId, Pc>): State {
    State(map[0 := Server(access, false)], {0}, rows, nextId, [], calls)
  }

  const PAIR: Pair := Pair(0, 0)

  lemma AServer(access: AccessType) returns (states: seq<State>, steps: seq<Step>)
    ensures Run(states, steps) && states[|steps|] == OneServer(access, map[], 0, map[])
  {
    states, steps := [State(map[], {}, map[], 0, [], map[])], [];
    states, steps := Grow(states, steps, CreateServer(0, access));
    states, steps := Grow(states, steps, ServerReady(0));
    assert states[|steps|].servers == map[0 := Server(access, false)];
  }

  lemma ThreeRequests() returns (states: seq<State>, steps: seq<Step>)
    ensures Made(states, steps, |steps|, 0,
                 OneServer(REQUEST, map[], 0, map[0 := InsertPending(PAIR, 0), 1 := InsertPending(PAIR, 0),
                                                  2 := InsertPending(PAIR, 0)]))
  {
    states, steps := AServer(REQUEST);
    states, steps := Grow(states, steps, StartRequest(0, PAIR));
    states, steps := Grow(states, steps, StartRequest(1, PAIR));
    states, steps := Grow(states, steps, StartRequest(2, PAIR));
    assert steps[|steps|..] == [];
  }

  lemma ARequestIsOvertaken() returns (states: seq<State>, steps: seq<Step>, m: nat)
    ensures Made(states, steps, m, 1,
                 OneServer(REQUEST, map[], 1, map[0 := FindForRequest(PAIR, 0), 2 := InsertPending(PAIR, 0)]))
    ensures states[m].calls[0] == InsertPending(PAIR, 0)
  {
    states, steps := ThreeRequests();
    m := |steps|;
    states, steps := Make(states, steps, m, 0, states[|steps|], Proceed(1));
    states, steps := Make(states, steps, m, 0, states[|steps|], Proceed(0));
    states, steps := Make(states, steps, m, 1, states[|steps|], Revoke(PAIR));
    assert states[|steps|].calls == map[0 := FindForRequest(PAIR, 0), 2 := InsertPending(PAIR, 0)];
    assert states[|steps|].rows == map[];
  }

  /** The first round of call 0 is lost to call 1 and a revocation. */
  lemma ARequestTriesAgain() returns (states: seq<State>, steps: seq<Step>, m: nat)
    ensures Made(states, steps, m, 3,
                 OneServer(REQUEST, map[], 1, map[0 := InsertPending(PAIR, 1), 2 := InsertPending(PAIR, 0)]))
    ensures states[m].calls[0] == InsertPending(PAIR, 0)
  {
    states, steps, m := ARequestIsOvertaken();
    states, steps := Make(states, steps, m, 1, states[|steps|], Proceed(0));
    states, steps := Make(states, steps, m, 2, states[|steps|], Proceed(0));
  }

  /** The second round is lost in the same way to call 2: five statements are made and the report is still to come. */
  lemma ARequestCanMakeSix() returns (states: seq<State>, steps: seq<Step>, m: nat)
    ensures Run(states, steps) && Lives(states, m, |steps|, 0) && states[m].calls[0] == InsertPending(PAIR, 0)
    ensures Statements(steps[m..], 0) == 5 && states[|steps|].calls[0] == ReportRequest(PAIR, 1)
  {
    states, steps, m := ARequestTriesAgain();
    states, steps := Make(states, steps, m, 3, states[|steps|], Proceed(2));
    states, steps := Make(states, steps, m, 3, states[|steps|], Proceed(0));
    states, steps := Make(states, steps, m, 4, states[|steps|], Revoke(PAIR));
    states, steps := Make(states, steps, m, 4, states[|steps|], Proceed(0));
  }

  lemma AnApprovalAboutToInsert(states: seq<State>, steps: seq<Step>, c: CallId, calls: map<CallId, Pc>)
    returns (states': seq<State>, steps': seq<Step>)
    requires Run(states, steps) && states[|steps|] == OneServer(PRIVATE, map[], 0, calls) && c !in calls
    ensures Run(states', steps')
    ensures states'[|steps'|] == OneServer(PRIVATE, map[], 0, calls[c := InsertApproved(PAIR, PRIVATE, 0)])
  {
    states', steps' := Grow(states, steps, StartApproval(c, PAIR));
    states', steps' := Grow(states', steps', Proceed(c));
    states', steps' := Grow(states', steps', Proceed(c));
    assert states'[|steps'|].calls == calls[c := InsertApproved(PAIR, PRIVATE, 0)];
  }

  lemma ThreeApprovals() returns (states: seq<State>, steps: seq<Step>)
    ensures Made(states, steps, |steps|, 0,
                 OneServer(PRIVATE, map[], 0, map[0 := ApprovePending(PAIR, PRIVATE, 0),
                                                  1 := InsertApproved(PAIR, PRIVATE, 0),
                                                  2 := InsertApproved(PAIR, PRIVATE, 0)]))
  {
    states, steps := AServer(PRIVATE);
    states, steps := AnApprovalAboutToInsert(states, steps, 1, map[]);
    states, steps := AnApprovalAboutToInsert(states, steps, 2, map[1 := InsertApproved(PAIR, PRIVATE, 0)]);
    states, steps := Grow(states, steps, StartApproval(0, PAIR));
    assert states[|steps|].calls == map[0 := ApprovePending(PAIR, PRIVATE, 0), 1 := InsertApproved(PAIR, PRIVATE, 0),
                                        2 := InsertApproved(PAIR, PRIVATE, 0)];
    assert steps[|steps|..] == [];
  }

  /** The first round of call 0 ends in an insert that call 1 has made before. */
  lemma AnApprovalTriesAgain() returns (states: seq<State>, steps: seq<Step>, m: nat)
    ensures Made(states, steps, m, 3,
                 OneServer(PRIVATE, map[PAIR := Row(0, APPROVED, false)], 1,
                           map[0 := ApprovePending(PAIR, PRIVATE, 1), 2 := InsertApproved(PAIR, PRIVATE, 0)]))
    ensures states[m].calls[0] == ApprovePending(PAIR, PRIVATE, 0)
  {
    states, steps := ThreeApprovals();
    m := |steps|;
    states, steps := Make(states, steps, m, 0, states[|steps|], Proceed(0));
    states, steps := Make(states, steps, m, 1, states[|steps|], Proceed(0));
    states, steps := Make(states, steps, m, 2, states[|steps|], Proceed(1));
    states, steps := Make(states, steps, m, 2, states[|steps|], Proceed(0));
    assert states[|steps|].calls
        == map[0 := ApprovePending(PAIR, PRIVATE, 1), 2 := InsertApproved(PAIR, PRIVATE, 0)];
  }

  /** So does the second, after a revocation: six statements are made and the report is still to come. */
  lemma AnApprovalCanMakeSeven() returns (states: seq<State>, steps: seq<Step>, m: nat)
    ensures Run(states, steps) && Lives(states, m, |steps|, 0) && states[m].calls[0] == ApprovePending(PAIR, PRIVATE, 0)
    ensures Statements(steps[m..], 0) == 6 && states[|steps|].calls[0] == ReportApproval(PAIR, PRIVATE, 1)
  {
    states, steps, m := AnApprovalTriesAgain();
    states, steps := Make(states, steps, m, 3, states[|steps|], Proceed(0));
    states, steps := Make(states, steps, m, 4, states[|steps|], Revoke(PAIR));
    states, steps := Make(states, steps, m, 4, states[|steps|], Proceed(0));
    states, steps := Make(states, steps, m, 5, states[|steps|], Proceed(2));
    states, steps := Make(states, steps, m, 5, states[|steps|], Proceed(0));
  }
}
