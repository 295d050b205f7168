/**
 What holds in every interleaving of create, start, stop, restart, delete and boot reconciliation, and where
 restart's second settle makes it fail.
 */
module LifecycleTheorems {
  import opened Wrappers
  import opened Servers
  import opened Lifecycle
  import opened LifecycleSafety

  /** Any step keeps the invariant exactly when it is harmless. */
  lemma HarmlessIsExact(s: State, step: Step)
    requires Inv(s) && Enabled(s, step)
    ensures Inv(Next(s, step)) <==> Harmless(s, step)
  {
    if Harmless(s, step) {
      Keeps(s, step);
    } else {
      StolenRow(s, step.c);
    }
  }

  lemma StolenRow(s: State, c: CallId)
    requires Inv(s) && Enabled(s, CatchRow(c)) && !Harmless(s, CatchRow(c))
    ensures !Inv(DoCatch(s, c))
  {
    var pc := s.calls[c];
    var s' := DoCatch(s, c);
    assert s'.rows[pc.id].status == Stopped;
    if Runs(s.docker, pc.cid) {
      assert !RowOk(s', pc.id);
    } else {
      var d :| d in s.calls && Holds(s.calls[d], pc.id);
      assert PcOk(s, s.calls[d]);
      assert d != c && d in s'.calls && !PcOk(s', s'.calls[d]);
    }
  }

  ghost predicate HarmlessRun(states: seq<State>, steps: seq<Step>) {
    Run(states, steps) && forall i | 0 <= i < |steps| :: Harmless(states[i], steps[i])
  }

  lemma {:induction false} InvHolds(states: seq<State>, steps: seq<Step>, n: nat)
    requires HarmlessRun(states, steps) && n < |states|
    ensures Inv(states[n])
  {
    if n > 0 {
      InvHolds(states, steps, n - 1);
      Keeps(states[n - 1], steps[n - 1]);
    }
  }

  // ---- runs without restart are harmless

  predicate RestartPc(pc: Pc) {
    || InTryBlock(pc) || pc.OuterCatch?
    || (pc.ClaimStop? && pc.restart) || (pc.StopContainer? && pc.restart) || (pc.StartContainer? && pc.restart)
  }

  ghost predicate NoRestart(s: State) {
    forall c | c in s.calls :: !RestartPc(s.calls[c])
  }

  lemma NoRestartKept(s: State, step: Step)
    requires NoRestart(s) && Enabled(s, step) && !(step.BeginStop? && step.restart)
    ensures NoRestart(Next(s, step)) && Harmless(s, step)
  {
    var s' := Next(s, step);
    if !step.Boot? && !step.BootWrite? && !step.BootDone? {
      OtherCallsStay(s, step);
      if step.c in s'.calls {
        if step.DockerCreate? || step.DockerStart? || step.DockerStop? || step.DockerRemove?
           || step.DockerInspect? || step.DockerFind? {
          DockerStepStaysPlain(s, step);
        } else {
          OtherStepStaysPlain(s, step);
        }
      }
    }
  }

  lemma DockerMovesOneCall(s: State, step: Step)
    requires Enabled(s, step)
    requires step.DockerCreate? || step.DockerStart? || step.DockerStop? || step.DockerRemove?
             || step.DockerInspect? || step.DockerFind?
    ensures forall c | c in Next(s, step).calls && c != step.c :: c in s.calls && Next(s, step).calls[c] == s.calls[c]
  {
  }

  lemma OtherCallsStay(s: State, step: Step)
    requires Enabled(s, step) && !step.Boot? && !step.BootWrite? && !step.BootDone?
    ensures forall c | c in Next(s, step).calls && c != step.c :: c in s.calls && Next(s, step).calls[c] == s.calls[c]
  {
    if step.DockerCreate? || step.DockerStart? || step.DockerStop? || step.DockerRemove?
       || step.DockerInspect? || step.DockerFind? {
      DockerMovesOneCall(s, step);
    }
  }

  lemma SwitchStaysPlain(s: State, step: Step)
    requires NoRestart(s) && Enabled(s, step) && (step.DockerStart? || step.DockerStop?)
    requires step.c in Next(s, step).calls
    ensures !RestartPc(Next(s, step).calls[step.c])
  {
    assert !RestartPc(s.calls[step.c]);
  }

  lemma DockerStepStaysPlain(s: State, step: Step)
    requires NoRestart(s) && Enabled(s, step)
    requires step.DockerCreate? || step.DockerStart? || step.DockerStop? || step.DockerRemove?
             || step.DockerInspect? || step.DockerFind?
    requires step.c in Next(s, step).calls
    ensures !RestartPc(Next(s, step).calls[step.c])
  {
    if step.DockerStart? || step.DockerStop? {
      SwitchStaysPlain(s, step);
    }
  }

  lemma WriteStaysPlain(s: State, step: Step)
    requires NoRestart(s) && Enabled(s, step)
    requires step.Claim? || step.SettleRow? || step.Store? || step.Erase? || step.CatchRow?
    requires step.c in Next(s, step).calls
    ensures !RestartPc(Next(s, step).calls[step.c])
  {
    if step.Claim? {
      ClaimStaysPlain(s, step.c);
    } else {
      assert !RestartPc(s.calls[step.c]);
    }
  }

  lemma ClaimStaysPlain(s: State, c: CallId)
    requires NoRestart(s) && c in s.calls
             && (s.calls[c].StartCounted? || s.calls[c].ClaimStop? || s.calls[c].ClaimDelete?)
    ensures c in DoClaim(s, c).calls ==> !RestartPc(DoClaim(s, c).calls[c])
  {
    assert !RestartPc(s.calls[c]);
  }

  lemma OtherStepStaysPlain(s: State, step: Step)
    requires NoRestart(s) && Enabled(s, step) && !(step.BeginStop? && step.restart)
    requires !step.Boot? && !step.BootWrite? && !step.BootDone?
    requires !(step.DockerCreate? || step.DockerStart? || step.DockerStop? || step.DockerRemove?
               || step.DockerInspect? || step.DockerFind?)
    requires step.c in Next(s, step).calls
    ensures !RestartPc(Next(s, step).calls[step.c])
  {
    if step.Claim? || step.SettleRow? || step.Store? || step.Erase? || step.CatchRow? {
      WriteStaysPlain(s, step);
    } else if step.c in s.calls {
      assert !RestartPc(s.calls[step.c]);
    }
  }

  /** Without restart calls every interleaving, boots and crashes included, is harmless. */
  lemma {:induction false} RestartFreeRunsAreHarmless(states: seq<State>, steps: seq<Step>, n: nat)
    requires Run(states, steps) && n < |states|
    requires forall i | 0 <= i < |steps| :: !(steps[i].BeginStop? && steps[i].restart)
    ensures NoRestart(states[n])
    ensures forall i | 0 <= i < n :: Harmless(states[i], steps[i])
  {
    if n > 0 {
      RestartFreeRunsAreHarmless(states, steps, n - 1);
      NoRestartKept(states[n - 1], steps[n - 1]);
    }
  }

  // ---- ownership

  /** A step by a call that has claimed a row finds that row, and the container it names, as the call left them. */
  ghost predicate Undisturbed(s: State, step: Step)
    requires Enabled(s, step)
  {
    match step
    case SettleRow(c) => Hits(s.rows, s.calls[c].id, s.calls[c].from, Some(s.calls[c].cid))
    case Store(c) => Hits(s.rows, s.calls[c].id, Creating, None)
    case Erase(c) =>
      if s.calls[c].EraseRow? then Hits(s.rows, s.calls[c].id, Stopping, s.calls[c].container)
      else s.calls[c].id !in s.rows
    case Claim(c) => s.calls[c].StartCounted? && s.calls[c].restart ==>
                       Hits(s.rows, s.calls[c].id, Stopping, Some(s.calls[c].cid))
    case DockerStart(c, _) => OwnContainer(s, c, s.calls[c].id, s.calls[c].cid)
    case DockerStop(c, _) => OwnContainer(s, c, s.calls[c].id, s.calls[c].cid)
    case DockerRemove(c, _) => OwnContainer(s, c, s.calls[c].id, s.calls[c].cid)
    case _ => true
  }

  /** The call holds the row that names this container, and no other call holds it. */
  ghost predicate OwnContainer(s: State, c: CallId, id: ServerId, cid: ContainerId)
    requires c in s.calls
  {
    && Holds(s.calls[c], id) && Unheld(s.calls, c, id)
    && id in s.rows && s.rows[id].container == Some(cid)
    && (forall j | j in s.rows && s.rows[j].container == Some(cid) && cid in s.docker :: j == id)
  }

  lemma OwnsContainer(s: State, c: CallId)
    requires Inv(s) && c in s.calls && HoldOf(s.calls[c]).Held? && HoldOf(s.calls[c]).container.Some?
    ensures OwnContainer(s, c, HoldOf(s.calls[c]).id, HoldOf(s.calls[c]).container.value)
  {
    HolderFacts(s, c);
    forall j | j in s.rows && s.rows[j].container == HoldOf(s.calls[c]).container
               && HoldOf(s.calls[c]).container.value in s.docker
      ensures j == HoldOf(s.calls[c]).id
    {
      assert RowOk(s, j);
    }
  }

  /**
   In every harmless interleaving of any number of calls, a row has at most one owner between a won claim and its
   settle, only the owner starts, stops or removes the container, and the owner's settle never misses.
   */
  lemma OneOwnerPerRow(states: seq<State>, steps: seq<Step>, n: nat)
    requires HarmlessRun(states, steps) && n < |steps|
    ensures Exclusive(states[n].calls)
    ensures Undisturbed(states[n], steps[n])
  {
    InvHolds(states, steps, n);
    var s, step := states[n], steps[n];
    if step.DockerStart? || step.DockerStop? || step.DockerRemove? {
      OwnsContainer(s, step.c);
    } else if step.SettleRow? || step.Store? || step.Erase? || step.Claim? {
      assert PcOk(s, s.calls[step.c]);
    }
  }

  // ---- truth

  ghost predicate RowsTellTheTruth(s: State) {
    && (forall id | id in s.rows && s.rows[id].status == Running ::
          s.rows[id].container.Some? && Runs(s.docker, s.rows[id].container.value))
    && (forall id | id in s.rows && s.rows[id].status == Stopped && s.rows[id].container.Some? ::
          !Runs(s.docker, s.rows[id].container.value))
    && (forall k | Runs(s.docker, k) ::
          && s.docker[k].server in s.rows
          && (forall id | id in s.rows :: s.rows[id].container == Some(k) <==> id == s.docker[k].server))
  }

  /** RUNNING and STOPPED are true of the container, and a running container belongs to exactly one row. */
  lemma StatusesAreTrue(states: seq<State>, steps: seq<Step>, n: nat)
    requires HarmlessRun(states, steps) && n < |states|
    ensures RowsTellTheTruth(states[n])
  {
    InvHolds(states, steps, n);
    var s := states[n];
    forall id | id in s.rows
      ensures s.rows[id].status == Running ==> s.rows[id].container.Some? && Runs(s.docker, s.rows[id].container.value)
      ensures s.rows[id].status == Stopped && s.rows[id].container.Some? ==> !Runs(s.docker, s.rows[id].container.value)
    {
      assert RowOk(s, id);
    }
    forall k, id | Runs(s.docker, k) && id in s.rows
      ensures s.docker[k].server in s.rows
      ensures s.rows[id].container == Some(k) <==> id == s.docker[k].server
    {
      assert ContainerOk(s, k);
      assert RowOk(s, id);
    }
    forall k | Runs(s.docker, k) ensures s.docker[k].server in s.rows {
      assert ContainerOk(s, k);
    }
  }

  // ---- restart's second settle steals a claim

  lemma Grow(states: seq<State>, steps: seq<Step>, step: Step) returns (states': seq<State>, steps': seq<Step>)
    requires Run(states, steps) && Enabled(states[|steps|], step)
    ensures Run(states', steps') && |steps'| == |steps| + 1
    ensures steps'[|steps|] == step && states'[|steps|] == states[|steps|]
    ensures states'[|steps| + 1] == Next(states[|steps|], step)
  {
    states', steps' := states + [Next(states[|steps|], step)], steps + [step];
    forall i | 0 <= i < |steps'|
      ensures Enabled(states'[i], steps'[i]) && states'[i + 1] == Next(states'[i], steps'[i])
    {
      if i < |steps| {
        assert Enabled(states[i], steps[i]);
      }
    }
  }

  const RAM: nat := 4096

  /** Server 0 in the given status, with its container 0 stopped or running. */
  ghost function OneServer(status: Status, running: bool, lock: Option<CallId>, calls: map<CallId, Pc>): State {
    State(map[0 := Row(status, Some(0), 512)], map[0 := Container(0, running)], lock, calls, None, 1.0, {0}, {0})
  }

  lemma AnInsertedServer() returns (states: seq<State>, steps: seq<Step>)
    ensures Run(states, steps)
    ensures states[|steps|] == State(map[0 := Row(Creating, None, 512)], map[], None, map[0 := CreateContainer(0)],
                                     None, 1.0, {0}, {})
  {
    states, steps := [State(map[], map[], None, map[], None, 1.0, {}, {})], [];
    states, steps := Grow(states, steps, BeginCreate(0, 512, RAM));
    states, steps := Grow(states, steps, Acquire(0));
    states, steps := Grow(states, steps, Count(0));
    assert states[|steps|].calls == map[0 := CreateCounted(512, RAM, 0)];
    states, steps := Grow(states, steps, Insert(0, 0));
  }

  lemma ACreatedContainer() returns (states: seq<State>, steps: seq<Step>)
    ensures Run(states, steps)
    ensures states[|steps|] == OneServer(Creating, false, None, map[0 := CreateStart(0, 0)])
  {
    states, steps := AnInsertedServer();
    states, steps := Grow(states, steps, DockerCreate(0, Done, 0));
    states, steps := Grow(states, steps, Store(0));
  }

  lemma ARunningServer() returns (states: seq<State>, steps: seq<Step>)
    ensures Run(states, steps) && states[|steps|] == OneServer(Running, true, None, map[])
  {
    states, steps := ACreatedContainer();
    states, steps := Grow(states, steps, DockerStart(0, Done));
    states, steps := Grow(states, steps, SettleRow(0));
    assert states[|steps|].calls == map[];
  }

  lemma AStoppingServer() returns (states: seq<State>, steps: seq<Step>)
    ensures Run(states, steps)
    ensures states[|steps|] == OneServer(Stopping, true, None, map[0 := StopContainer(0, 0, 512, true)])
  {
    states, steps := ARunningServer();
    states, steps := Grow(states, steps, BeginStop(0, 0, true));
    states, steps := Grow(states, steps, Claim(0));
  }

  lemma AHalfRestartedServer() returns (states: seq<State>, steps: seq<Step>)
    ensures Run(states, steps) && states[|steps|] == OneServer(Stopping, false, None, map[0 := Measure(0, 0, 512)])
  {
    states, steps := AStoppingServer();
    states, steps := Grow(states, steps, DockerStop(0, Done));
  }

  /** With one server nothing else counts against its own start. */
  lemma AnAdmittedStart(s: State, c: CallId, restart: bool)
    requires c in s.calls && s.calls[c] == StartLocked(0, 0, 512, RAM, restart)
    requires s.rows.Keys == {0} && s.ratio == 1.0
    ensures DoCount(s, c) == Goto(s, c, StartCounted(0, 0, 512, RAM, restart, 0))
    ensures Admitted(s, StartCounted(0, 0, 512, RAM, restart, 0))
  {
    assert Unstopped(s.rows) - {0} == {};
  }

  lemma ARestartingServer() returns (states: seq<State>, steps: seq<Step>)
    ensures Run(states, steps)
    ensures states[|steps|] == OneServer(Stopping, false, Some(0), map[0 := StartCounted(0, 0, 512, RAM, true, 0)])
  {
    states, steps := AHalfRestartedServer();
    states, steps := Grow(states, steps, MeasureHost(0, Some(RAM)));
    states, steps := Grow(states, steps, Acquire(0));
    AnAdmittedStart(states[|steps|], 0, true);
    states, steps := Grow(states, steps, Count(0));
  }

  lemma AFailedStart() returns (states: seq<State>, steps: seq<Step>)
    ensures Run(states, steps)
    ensures states[|steps|] == OneServer(Starting, false, None, map[0 := Settle(0, 0, Starting, Stopped, Catch)])
  {
    states, steps := ARestartingServer();
    states, steps := Grow(states, steps, Claim(0));
    states, steps := Grow(states, steps, DockerStart(0, Rejected));
  }

  lemma ARejectedRestart() returns (states: seq<State>, steps: seq<Step>)
    ensures Run(states, steps) && states[|steps|] == OneServer(Stopped, false, None, map[0 := OuterCatch(0, 0, false)])
  {
    states, steps := AFailedStart();
    states, steps := Grow(states, steps, SettleRow(0));
  }

  lemma AClaimedDelete() returns (states: seq<State>, steps: seq<Step>)
    ensures Run(states, steps)
    ensures states[|steps|]
         == OneServer(Stopping, false, None, map[0 := OuterCatch(0, 0, false), 1 := RemoveContainer(0, 0)])
  {
    states, steps := ARejectedRestart();
    states, steps := Grow(states, steps, BeginDelete(1, 0));
    states, steps := Grow(states, steps, Claim(1));
  }

  /**
   A restart whose start is rejected settles STOPPED, and a delete then claims the row. Restart's outer catch takes
   the row back to STOPPED although the delete still goes on to remove the container.
   */
  lemma RestartCanStealAClaim() returns (states: seq<State>, steps: seq<Step>)
    ensures Run(states, steps) && |steps| > 0
    ensures steps[|steps| - 1] == CatchRow(0) && !Harmless(states[|steps| - 1], CatchRow(0))
    ensures states[|steps|] == OneServer(Stopped, false, None, map[1 := RemoveContainer(0, 0)])
  {
    states, steps := AClaimedDelete();
    assert Holds(states[|steps|].calls[1], 0);
    states, steps := Grow(states, steps, CatchRow(0));
    assert states[|steps|].calls == map[1 := RemoveContainer(0, 0)];
  }

  lemma ASecondClaimant() returns (states: seq<State>, steps: seq<Step>)
    ensures Run(states, steps)
    ensures states[|steps|] == OneServer(Stopped, false, Some(2), map[1 := RemoveContainer(0, 0),
                                                                     2 := StartLocked(0, 0, 512, RAM, false)])
  {
    states, steps := RestartCanStealAClaim();
    states, steps := Grow(states, steps, BeginStart(2, 0, RAM));
    states, steps := Grow(states, steps, Acquire(2));
  }

  lemma ASecondAdmission() returns (states: seq<State>, steps: seq<Step>)
    ensures Run(states, steps)
    ensures states[|steps|] == OneServer(Stopped, false, Some(2), map[1 := RemoveContainer(0, 0),
                                                                     2 := StartCounted(0, 0, 512, RAM, false, 0)])
  {
    states, steps := ASecondClaimant();
    AnAdmittedStart(states[|steps|], 2, false);
    states, steps := Grow(states, steps, Count(2));
  }

  /** A start can then claim the same row, so that two calls hold one row at once. */
  lemma RestartCanBreakExclusion() returns (states: seq<State>, steps: seq<Step>)
    ensures Run(states, steps) && !Exclusive(states[|steps|].calls)
  {
    states, steps := ASecondAdmission();
    states, steps := Grow(states, steps, Claim(2));
    var calls := states[|steps|].calls;
    assert Holds(calls[1], 0) && Holds(calls[2], 0);
  }
}
