/**
 Calls from their first step to the claim that admits them, the advisory lock, and boots, over whole runs.
 */
module LifecycleCalls {
  import opened Wrappers
  import opened Servers
  import opened Reconciliation
  import opened Lifecycle
  import opened LifecycleSafety
  import opened LifecycleTheorems
  import opened LifecycleOutcomes
  import opened LifecycleMemory

  // ---- the locked section

  /** A call queues at `n`, acquires the lock at `a`, reads the sum at `k` and commits or is refused at `m`. */
  ghost predicate Section(steps: seq<Step>, n: nat, a: nat, k: nat, m: nat, c: CallId) {
    && n < a < k < m < |steps|
    && Waits(steps, n + 1, a, c) && steps[a] == Acquire(c)
    && Waits(steps, a + 1, k, c) && steps[k] == Count(c)
    && Waits(steps, k + 1, m, c)
  }

  /** The rows that a start counts: those of other servers that are not STOPPED. */
  ghost function OthersUp(rows: Rows, id: ServerId): (r: set<ServerId>)
    ensures r <= rows.Keys
  {
    set i | i in rows && i != id && rows[i].status != Stopped
  }

  lemma CreateIsCounted(states: seq<State>, steps: seq<Step>, n: nat, a: nat, k: nat, m: nat, c: CallId)
    requires Run(states, steps) && Section(steps, n, a, k, m, c)
    requires c in states[n + 1].calls && states[n + 1].calls[c].CreateQueued?
    ensures var pc := states[n + 1].calls[c];
            && c in states[m].calls
            && states[m].calls[c] == CreateCounted(pc.memory, pc.totalRam, Memory(states[k].rows, states[k].rows.Keys))
  {
    CallWaits(states, steps, n + 1, a, c);
    assert states[a + 1] == DoAcquire(states[a], c);
    CallWaits(states, steps, a + 1, k, c);
    assert states[k + 1] == DoCount(states[k], c);
    CallWaits(states, steps, k + 1, m, c);
  }

  lemma StartIsCounted(states: seq<State>, steps: seq<Step>, n: nat, a: nat, k: nat, m: nat, c: CallId)
    requires Run(states, steps) && Section(steps, n, a, k, m, c)
    requires c in states[n + 1].calls && states[n + 1].calls[c].StartQueued?
    ensures var pc := states[n + 1].calls[c];
            && c in states[m].calls
            && states[m].calls[c] == StartCounted(pc.id, pc.cid, pc.memory, pc.totalRam, pc.restart,
                                                  Memory(states[k].rows, OthersUp(states[k].rows, pc.id)))
  {
    CallWaits(states, steps, n + 1, a, c);
    assert states[a + 1] == DoAcquire(states[a], c);
    CallWaits(states, steps, a + 1, k, c);
    var id := states[n + 1].calls[c].id;
    assert Unstopped(states[k].rows) - {id} == OthersUp(states[k].rows, id);
    assert states[k + 1] == DoCount(states[k], c);
    CallWaits(states, steps, k + 1, m, c);
  }

  /** The request and the rows already there fit the share of the host's memory. */
  predicate Fits(requested: nat, inUse: nat, total: nat, ratio: real) {
    (requested + inUse) as real <= total as real * ratio
  }

  /**
   A create inserts one new CREATING row with the limit it asked for, and only if that fits beside all rows counted.
   */
  lemma CreateInserts(states: seq<State>, steps: seq<Step>, n: nat, a: nat, k: nat, m: nat,
                      c: CallId, memory: Megabytes, total: nat, id: ServerId)
    requires Run(states, steps) && Section(steps, n, a, k, m, c)
    requires steps[n] == BeginCreate(c, memory, total) && steps[m] == Insert(c, id)
    ensures id !in states[m].usedIds && states[m + 1].rows == states[m].rows[id := Row(Creating, None, memory)]
    ensures Fits(memory, Memory(states[k].rows, states[k].rows.Keys), total, states[m].ratio)
  {
    CreateIsCounted(states, steps, n, a, k, m, c);
    AdmitsExactly(total, states[m].ratio, memory, Memory(states[k].rows, states[k].rows.Keys));
    assert states[m + 1] == DoInsert(states[m], c, id);
  }

  /** A create that is refused did not fit, and changes no row. */
  lemma RefusedCreateDidNotFit(states: seq<State>, steps: seq<Step>, n: nat, a: nat, k: nat, m: nat,
                               c: CallId, memory: Megabytes, total: nat)
    requires Run(states, steps) && Section(steps, n, a, k, m, c)
    requires steps[n] == BeginCreate(c, memory, total) && steps[m] == Refuse(c)
    ensures !Fits(memory, Memory(states[k].rows, states[k].rows.Keys), total, states[m].ratio)
    ensures states[m + 1].rows == states[m].rows && c !in states[m + 1].calls
  {
    CreateIsCounted(states, steps, n, a, k, m, c);
    AdmitsExactly(total, states[m].ratio, memory, Memory(states[k].rows, states[k].rows.Keys));
    assert states[m + 1] == DoRefuse(states[m], c);
  }

  /**
   A start's claim takes the row it read from STOPPED to STARTING, and only if its limit fits beside the rows counted;
   it changes nothing if the row has moved meanwhile.
   */
  lemma StartClaims(states: seq<State>, steps: seq<Step>, n: nat, a: nat, k: nat, m: nat,
                    c: CallId, id: ServerId, total: nat)
    requires Run(states, steps) && Section(steps, n, a, k, m, c)
    requires steps[n] == BeginStart(c, id, total) && steps[m] == Claim(c)
    ensures var read, rows, rows' := states[n].rows[id], states[m].rows, states[m + 1].rows;
            && read.status == Stopped && read.container.Some?
            && Fits(read.memory, Memory(states[k].rows, OthersUp(states[k].rows, id)), total, states[m].ratio)
            && (if id in rows && rows[id].status == Stopped && rows[id].container == read.container
                then rows' == rows[id := rows[id].(status := Starting)] && c in states[m + 1].calls
                else rows' == rows && c !in states[m + 1].calls)
  {
    StartIsCounted(states, steps, n, a, k, m, c);
    var inUse := Memory(states[k].rows, OthersUp(states[k].rows, id));
    AdmitsExactly(total, states[m].ratio, states[n].rows[id].memory, inUse);
    assert states[m + 1] == DoClaim(states[m], c);
  }

  lemma RefusedStartDidNotFit(states: seq<State>, steps: seq<Step>, n: nat, a: nat, k: nat, m: nat,
                              c: CallId, id: ServerId, total: nat)
    requires Run(states, steps) && Section(steps, n, a, k, m, c)
    requires steps[n] == BeginStart(c, id, total) && steps[m] == Refuse(c)
    ensures !Fits(states[n].rows[id].memory, Memory(states[k].rows, OthersUp(states[k].rows, id)), total,
                  states[m].ratio)
    ensures states[m + 1].rows == states[m].rows && c !in states[m + 1].calls
  {
    StartIsCounted(states, steps, n, a, k, m, c);
    var inUse := Memory(states[k].rows, OthersUp(states[k].rows, id));
    AdmitsExactly(total, states[m].ratio, states[n].rows[id].memory, inUse);
    assert states[m + 1] == DoRefuse(states[m], c);
  }

  // ---- restart between its stop and its start

  lemma RestartIsCounted(states: seq<State>, steps: seq<Step>, n: nat, a: nat, k: nat, m: nat, c: CallId, total: nat)
    requires Run(states, steps) && Section(steps, n, a, k, m, c) && steps[n] == MeasureHost(c, Some(total))
    ensures var pc := states[n].calls[c];
            && c in states[m].calls
            && states[m].calls[c] == StartCounted(pc.id, pc.cid, pc.memory, total, true,
                                                  Memory(states[k].rows, OthersUp(states[k].rows, pc.id)))
  {
    assert states[n + 1] == DoMeasure(states[n], c, Some(total));
    StartIsCounted(states, steps, n, a, k, m, c);
  }

  lemma RestartClaimLands(states: seq<State>, steps: seq<Step>, m: nat, c: CallId)
    requires HarmlessRun(states, steps) && m < |steps| && steps[m] == Claim(c)
    requires states[m].calls[c].StartCounted? && states[m].calls[c].restart
    ensures var pc := states[m].calls[c];
            && Fits(pc.memory, pc.inUse, pc.totalRam, states[m].ratio)
            && Hits(states[m + 1].rows, pc.id, Starting, Some(pc.cid))
            && c in states[m + 1].calls && states[m + 1].calls[c] == StartContainer(pc.id, pc.cid, true)
  {
    var pc := states[m].calls[c];
    AdmitsExactly(pc.totalRam, states[m].ratio, pc.memory, pc.inUse);
    InvHolds(states, steps, m);
    assert PcOk(states[m], pc);
    assert states[m + 1] == DoClaim(states[m], c);
  }

  /** A restart that has measured the host takes its own STOPPING row to STARTING if it fits. */
  lemma RestartClaims(states: seq<State>, steps: seq<Step>, n: nat, a: nat, k: nat, m: nat, c: CallId, total: nat)
    requires HarmlessRun(states, steps) && Section(steps, n, a, k, m, c)
    requires steps[n] == MeasureHost(c, Some(total)) && steps[m] == Claim(c)
    ensures var pc := states[n].calls[c];
            && Fits(pc.memory, Memory(states[k].rows, OthersUp(states[k].rows, pc.id)), total, states[m].ratio)
            && Hits(states[m + 1].rows, pc.id, Starting, Some(pc.cid))
            && c in states[m + 1].calls && states[m + 1].calls[c] == StartContainer(pc.id, pc.cid, true)
  {
    RestartIsCounted(states, steps, n, a, k, m, c, total);
    RestartClaimLands(states, steps, m, c);
  }

  /** A restart whose stop Docker did goes on to measure the host, with the row and its limit as they were read. */
  lemma StoppedRestartMeasures(states: seq<State>, steps: seq<Step>, n: nat, c: CallId)
    requires Run(states, steps) && n < |steps| && steps[n] == DockerStop(c, Done) && states[n].calls[c].restart
    ensures var pc := states[n].calls[c];
            && c in states[n + 1].calls && states[n + 1].calls[c] == Measure(pc.id, pc.cid, pc.memory)
            && states[n + 1].rows == states[n].rows && !Runs(states[n + 1].docker, pc.cid)
  {
    assert states[n + 1] == DoDockerStop(states[n], c, Done);
  }

  lemma CatchLands(states: seq<State>, steps: seq<Step>, n: nat, m: nat, c: CallId)
    requires HarmlessRun(states, steps) && Waits(steps, n, m, c) && m < |steps| && steps[m] == CatchRow(c)
    requires c in states[n].calls && states[n].calls[c].OuterCatch? && states[n].calls[c].claimed
    ensures var pc := states[n].calls[c]; Hits(states[m + 1].rows, pc.id, Stopped, Some(pc.cid))
  {
    CallWaits(states, steps, n, m, c);
    InvHolds(states, steps, m);
    assert PcOk(states[m], states[m].calls[c]);
    assert states[m + 1] == DoCatch(states[m], c);
  }

  /** A restart that cannot measure the host, or fails there, leaves its row STOPPED. */
  lemma UnmeasuredRestartStops(states: seq<State>, steps: seq<Step>, n: nat, m: nat, c: CallId)
    requires HarmlessRun(states, steps) && n < |steps| && c in states[n].calls && states[n].calls[c].Measure?
    requires steps[n] == MeasureHost(c, None) || steps[n] == Fault(c)
    requires Waits(steps, n + 1, m, c) && m < |steps| && steps[m] == CatchRow(c)
    ensures var pc := states[n].calls[c]; Hits(states[m + 1].rows, pc.id, Stopped, Some(pc.cid))
  {
    assert states[n + 1] == if steps[n].Fault? then DoFault(states[n], c) else DoMeasure(states[n], c, None);
    CatchLands(states, steps, n + 1, m, c);
  }

  /** A restart that is refused for memory, or fails in its locked section, leaves its row STOPPED. */
  lemma RefusedRestartStops(states: seq<State>, steps: seq<Step>, n: nat, m: nat, c: CallId)
    requires HarmlessRun(states, steps) && n < |steps| && c in states[n].calls
    requires var pc := states[n].calls[c]; (pc.StartQueued? || pc.StartLocked? || pc.StartCounted?) && pc.restart
    requires steps[n] == Refuse(c) || steps[n] == Fault(c)
    requires Waits(steps, n + 1, m, c) && m < |steps| && steps[m] == CatchRow(c)
    ensures var pc := states[n].calls[c]; Hits(states[m + 1].rows, pc.id, Stopped, Some(pc.cid))
  {
    assert states[n + 1] == if steps[n].Fault? then DoFault(states[n], c) else DoRefuse(states[n], c);
    CatchLands(states, steps, n + 1, m, c);
  }

  // ---- stop and delete claims

  /** A stop, or the stop of a restart, takes a row it read as RUNNING to STOPPING unless the row has moved. */
  lemma StopClaims(states: seq<State>, steps: seq<Step>, n: nat, m: nat, c: CallId, id: ServerId, restart: bool)
    requires Run(states, steps) && n < |steps| && steps[n] == BeginStop(c, id, restart)
    requires Waits(steps, n + 1, m, c) && m < |steps| && steps[m] == Claim(c)
    ensures var read, rows, rows' := states[n].rows[id], states[m].rows, states[m + 1].rows;
            && read.status == Running && read.container.Some?
            && if id in rows && rows[id].status == Running && rows[id].container == read.container
               then && rows' == rows[id := rows[id].(status := Stopping)] && c in states[m + 1].calls
                    && states[m + 1].calls[c] == StopContainer(id, read.container.value, read.memory, restart)
               else rows' == rows && c !in states[m + 1].calls
  {
    CallWaits(states, steps, n + 1, m, c);
    assert states[m + 1] == DoClaim(states[m], c);
  }

  /** A delete takes a row it read as STOPPED to STOPPING, and removes its container first if it has one. */
  lemma DeleteClaims(states: seq<State>, steps: seq<Step>, n: nat, m: nat, c: CallId, id: ServerId)
    requires Run(states, steps) && n < |steps| && steps[n] == BeginDelete(c, id)
    requires Waits(steps, n + 1, m, c) && m < |steps| && steps[m] == Claim(c)
    ensures var read, rows, rows' := states[n].rows[id], states[m].rows, states[m + 1].rows;
            && read.status == Stopped
            && if id in rows && rows[id].status == Stopped && rows[id].container == read.container
               then && rows' == rows[id := rows[id].(status := Stopping)] && c in states[m + 1].calls
                    && (read.container.Some? ==> states[m + 1].calls[c] == RemoveContainer(id, read.container.value))
                    && (read.container.None? ==> states[m + 1].calls[c].EraseRow? && states[m + 1].calls[c].id == id)
               else rows' == rows && c !in states[m + 1].calls
  {
    CallWaits(states, steps, n + 1, m, c);
    assert states[m + 1] == DoClaim(states[m], c);
  }

  // ---- the advisory lock

  /** The lock is held by a call inside its locked section. */
  ghost predicate LockIsHeld(s: State) {
    s.lock.Some? ==> s.lock.value in s.calls && HoldsLock(s.calls[s.lock.value])
  }

  lemma LockStepReleases(s: State, step: Step)
    requires Ledger(s) && LockIsHeld(s) && Enabled(s, step) && LockStep(step)
    requires Next(s, step).lock == Some(step.c)
    ensures step.c in Next(s, step).calls && HoldsLock(Next(s, step).calls[step.c])
  {
  }

  lemma OnlyLockStepsHold(s: State, step: Step)
    requires Ledger(s) && LockIsHeld(s) && Enabled(s, step) && CallStep(step) && !LockStep(step)
    ensures s.lock != Some(step.c)
  {
  }

  lemma LockStaysHeld(s: State, step: Step)
    requires Ledger(s) && LockIsHeld(s) && Enabled(s, step)
    ensures LockIsHeld(Next(s, step))
  {
    var s' := Next(s, step);
    if CallStep(step) && s'.lock.Some? {
      LockOfMover(s, step);
      if LockStep(step) && s'.lock == Some(step.c) {
        LockStepReleases(s, step);
      } else if !LockStep(step) {
        OnlyLockStepsHold(s, step);
        LockUntouched(s, step);
        OthersLeaveCall(s, step, s'.lock.value);
      } else {
        OthersLeaveCall(s, step, s'.lock.value);
      }
    }
  }

  /** The lock is never leaked: in every run it is free or held by a call that is still in its locked section. */
  lemma {:induction false} LockIsNeverLeaked(states: seq<State>, steps: seq<Step>, n: nat)
    requires Run(states, steps) && n < |states|
    ensures Ledger(states[n]) && LockIsHeld(states[n])
  {
    if n > 0 {
      LockIsNeverLeaked(states, steps, n - 1);
      LedgerKept(states[n - 1], steps[n - 1]);
      LockStaysHeld(states[n - 1], steps[n - 1]);
    }
  }

  // ---- boots

  /** A boot at `n` is followed by `m - n - 1` of its writes. */
  ghost predicate Booting(steps: seq<Step>, n: nat, m: nat) {
    n < m <= |steps| && steps[n].Boot? && forall k | n < k < m :: steps[k].BootWrite?
  }

  /** The row as the boot leaves it: as Docker answered, or as it was. */
  ghost predicate Rebooted(before: Row, after: Row, id: ServerId, answers: Answers) {
    if before.status == Stopped || (before.container.Some? && answers.inspect(before.container.value).Failed?)
    then after == before
    else AsAnswered(after, id, before.container, answers) && after.memory == before.memory
  }

  ghost predicate BootReaches(rows: Rows, answers: Answers) {
    forall id | id in rows && rows[id].status != Stopped :: !OutOfReach(id, rows[id].container, answers)
  }

  lemma PlanFollowsAnswers(rows: Rows, answers: Answers)
    ensures !BootReaches(rows, answers) ==> Plan(rows, answers) == map[]
    ensures BootReaches(rows, answers) ==>
              forall id | id in rows ::
                if id in Plan(rows, answers)
                then var p := Plan(rows, answers)[id];
                     p.before == rows[id]
                     && Rebooted(rows[id], rows[id].(status := p.status, container := p.container), id, answers)
                else Rebooted(rows[id], rows[id], id, answers)
    ensures Plan(rows, answers).Keys <= rows.Keys
  {
    forall id | id in rows && rows[id].status != Stopped
      ensures ReconcileRow(id, rows[id], answers).Unavailable? == OutOfReach(id, rows[id].container, answers)
    {
    }
  }

  /** Between a boot and its end, each row has its planned write ahead of it or behind it. */
  ghost predicate HalfBooted(before: Rows, s: State, answers: Answers) {
    && s.boot.Some? && s.rows.Keys == before.Keys
    && (forall id | id in s.boot.value :: id in before && s.boot.value[id].before == before[id] == s.rows[id]
                                          && Rebooted(before[id], before[id].(status := s.boot.value[id].status,
                                                                              container := s.boot.value[id].container),
                                                      id, answers))
    && (forall id | id in before && id !in s.boot.value :: Rebooted(before[id], s.rows[id], id, answers))
  }

  lemma WriteKeepsHalfBooted(before: Rows, s: State, answers: Answers, id: ServerId)
    requires HalfBooted(before, s, answers) && id in s.boot.value
    ensures HalfBooted(before, DoBootWrite(s, id), answers)
  {
  }

  lemma {:induction false} BootProceeds(states: seq<State>, steps: seq<Step>, n: nat, m: nat)
    requires Run(states, steps) && Booting(steps, n, m) && BootReaches(states[n].rows, steps[n].answers)
    ensures HalfBooted(states[n].rows, states[m], steps[n].answers)
    decreases m
  {
    if m == n + 1 {
      assert states[m] == DoBoot(states[n], steps[n].answers);
      PlanFollowsAnswers(states[n].rows, steps[n].answers);
    } else {
      BootProceeds(states, steps, n, m - 1);
      assert states[m] == DoBootWrite(states[m - 1], steps[m - 1].id);
      WriteKeepsHalfBooted(states[n].rows, states[m - 1], steps[n].answers, steps[m - 1].id);
    }
  }

  /** When a boot is done every row says what Docker answered, unless it was STOPPED or its inspect failed. */
  lemma BootFollowsAnswers(states: seq<State>, steps: seq<Step>, n: nat, m: nat)
    requires Run(states, steps) && Booting(steps, n, m) && m < |steps| && steps[m] == BootDone
    requires BootReaches(states[n].rows, steps[n].answers)
    ensures states[m + 1].rows.Keys == states[n].rows.Keys && states[m + 1].boot.None?
    ensures forall id | id in states[n].rows ::
              Rebooted(states[n].rows[id], states[m + 1].rows[id], id, steps[n].answers)
  {
    BootProceeds(states, steps, n, m);
  }

  /** A boot that cannot reach Docker for one of its rows writes nothing at all. */
  lemma UnreachedBootWritesNothing(states: seq<State>, steps: seq<Step>, n: nat)
    requires Run(states, steps) && n < |steps| && steps[n].Boot? && !BootReaches(states[n].rows, steps[n].answers)
    ensures states[n + 1].rows == states[n].rows && states[n + 1].boot == Some(map[])
  {
    PlanFollowsAnswers(states[n].rows, steps[n].answers);
  }
}
