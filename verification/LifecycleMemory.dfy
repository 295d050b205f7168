/**
 Memory admission over all interleavings.

 A create counts every row, a start or restart every row that is not STOPPED, and both act under the advisory lock
 while stops and deletes go on outside it.
 */
module LifecycleMemory {
  import opened Wrappers
  import opened Servers
  import opened Lifecycle
  import opened LifecycleSafety
  import opened LifecycleTheorems

  predicate HoldsLock(pc: Pc) {
    pc.CreateLocked? || pc.CreateCounted? || pc.StartLocked? || pc.StartCounted?
  }

  predicate Measures(pc: Pc) {
    pc.CreateQueued? || pc.CreateLocked? || pc.CreateCounted? || pc.StartQueued? || pc.StartLocked? || pc.StartCounted?
  }

  predicate Restartable(pc: Pc) {
    pc.StartQueued? || pc.StartLocked? || pc.StartCounted? || pc.ClaimStop? || pc.StopContainer? || pc.Measure?
  }

  /** A call remembers the memory limit of a row that cannot change or come back under another limit. */
  ghost predicate LimitRemembered(s: State, pc: Pc) {
    Restartable(pc) ==> pc.id in s.usedIds && (pc.id in s.rows ==> s.rows[pc.id].memory == pc.memory)
  }

  ghost predicate Ledger(s: State) {
    && s.rows.Keys <= s.usedIds
    && (forall c | c in s.calls :: HoldsLock(s.calls[c]) ==> s.lock == Some(c))
    && (forall c | c in s.calls :: LimitRemembered(s, s.calls[c]))
    && (s.boot.Some? ==> s.calls == map[])
  }

  /** Steps only lower the table: no row appears but by an insert, and limits never change. */
  ghost predicate Shrinks(rows: Rows, rows': Rows) {
    && rows'.Keys <= rows.Keys
    && (forall i | i in rows' :: rows'[i].memory == rows[i].memory)
  }

  predicate DockerStep(step: Step) {
    step.DockerCreate? || step.DockerStart? || step.DockerStop? || step.DockerRemove? || step.DockerInspect?
        || step.DockerFind?
  }

  lemma RowsAfterDocker(s: State, step: Step)
    requires Enabled(s, step) && DockerStep(step)
    ensures Next(s, step).rows == s.rows && Next(s, step).usedIds == s.usedIds && Next(s, step).ratio == s.ratio
  {
  }

  lemma RowsShrink(s: State, step: Step)
    requires Enabled(s, step) && !step.Insert?
    ensures Shrinks(s.rows, Next(s, step).rows) && Next(s, step).usedIds == s.usedIds
    ensures Next(s, step).ratio == s.ratio
  {
    if DockerStep(step) {
      RowsAfterDocker(s, step);
    }
  }

  predicate CallStep(step: Step) {
    !step.Boot? && !step.BootWrite? && !step.BootDone?
  }

  predicate BeginStep(step: Step) {
    step.BeginCreate? || step.BeginStart? || step.BeginStop? || step.BeginDelete?
  }

  predicate CarriesOn(pc: Pc, pc': Pc) {
    Restartable(pc') ==> Restartable(pc) && pc.id == pc'.id && pc.memory == pc'.memory
  }

  lemma LimitAfterSwitch(s: State, step: Step)
    requires Enabled(s, step) && (step.DockerStart? || step.DockerStop?) && step.c in Next(s, step).calls
    ensures CarriesOn(s.calls[step.c], Next(s, step).calls[step.c])
    ensures !Measures(Next(s, step).calls[step.c])
  {
  }

  lemma LimitAfterDocker(s: State, step: Step)
    requires Enabled(s, step) && DockerStep(step) && step.c in Next(s, step).calls
    ensures CarriesOn(s.calls[step.c], Next(s, step).calls[step.c])
    ensures !Measures(Next(s, step).calls[step.c])
  {
    if step.DockerStart? || step.DockerStop? {
      LimitAfterSwitch(s, step);
    }
  }

  lemma LimitAfterSettle(s: State, step: Step)
    requires Enabled(s, step) && (step.Store? || step.Erase? || step.SettleRow?)
    requires step.c in Next(s, step).calls
    ensures CarriesOn(s.calls[step.c], Next(s, step).calls[step.c])
    ensures !Measures(Next(s, step).calls[step.c])
  {
  }

  lemma LimitAfterWin(s: State, c: CallId)
    requires c in s.calls && (s.calls[c].StartCounted? || s.calls[c].ClaimStop? || s.calls[c].ClaimDelete?)
    ensures c in DoClaim(s, c).calls ==>
              CarriesOn(s.calls[c], DoClaim(s, c).calls[c]) && !Measures(DoClaim(s, c).calls[c])
  {
  }

  lemma LimitAfterClaim(s: State, step: Step)
    requires Enabled(s, step)
    requires step.Insert? || step.Claim? || step.Store? || step.Erase? || step.SettleRow?
    requires step.c in Next(s, step).calls
    ensures CarriesOn(s.calls[step.c], Next(s, step).calls[step.c])
    ensures !Measures(Next(s, step).calls[step.c])
  {
    if step.Store? || step.Erase? || step.SettleRow? {
      LimitAfterSettle(s, step);
    } else if step.Claim? {
      LimitAfterWin(s, step.c);
    }
  }

  lemma LimitInQueue(s: State, step: Step)
    requires Enabled(s, step) && CallStep(step) && !BeginStep(step) && !DockerStep(step)
    requires !(step.Insert? || step.Claim? || step.Store? || step.Erase? || step.SettleRow?)
    requires step.c in Next(s, step).calls
    ensures CarriesOn(s.calls[step.c], Next(s, step).calls[step.c])
    ensures Measures(Next(s, step).calls[step.c]) ==> step.Acquire? || step.Count? || step.MeasureHost?
  {
  }

  /** A call carries the limit it read on to its next steps, and queues only by the steps that measure or lock. */
  lemma LimitOfMover(s: State, step: Step)
    requires Enabled(s, step) && CallStep(step) && !BeginStep(step) && step.c in Next(s, step).calls
    ensures CarriesOn(s.calls[step.c], Next(s, step).calls[step.c])
    ensures Measures(Next(s, step).calls[step.c]) ==> step.Acquire? || step.Count? || step.MeasureHost?
  {
    if DockerStep(step) {
      LimitAfterDocker(s, step);
    } else if step.Insert? || step.Claim? || step.Store? || step.Erase? || step.SettleRow? {
      LimitAfterClaim(s, step);
    } else {
      LimitInQueue(s, step);
    }
  }

  predicate LockStep(step: Step) {
    step.Acquire? || step.Count? || step.Refuse? || step.Insert? || step.Claim? || step.Fault? || step.Abandon?
  }

  lemma LockUntouched(s: State, step: Step)
    requires Enabled(s, step) && CallStep(step) && !LockStep(step)
    ensures Next(s, step).lock == s.lock
  {
  }

  lemma LockStepMoves(s: State, step: Step)
    requires Ledger(s) && Enabled(s, step) && LockStep(step)
    ensures step.c in Next(s, step).calls && HoldsLock(Next(s, step).calls[step.c]) ==>
              Next(s, step).lock == Some(step.c)
    ensures Next(s, step).lock == s.lock || s.lock.None? || s.lock == Some(step.c)
  {
    assert HoldsLock(s.calls[step.c]) ==> s.lock == Some(step.c);
  }

  /** The lock is taken by one step and given back by the step that leaves the locked section. */
  lemma LockOfMover(s: State, step: Step)
    requires Ledger(s) && Enabled(s, step) && CallStep(step)
    ensures step.c in Next(s, step).calls && HoldsLock(Next(s, step).calls[step.c]) ==>
              Next(s, step).lock == Some(step.c)
    ensures Next(s, step).lock == s.lock || s.lock.None? || s.lock == Some(step.c)
  {
    if LockStep(step) {
      LockStepMoves(s, step);
    } else {
      LockUntouched(s, step);
      if !BeginStep(step) && step.c in Next(s, step).calls {
        LimitOfMover(s, step);
      }
    }
  }

  lemma LimitKept(s: State, step: Step)
    requires Ledger(s) && Enabled(s, step) && CallStep(step) && step.c in Next(s, step).calls
    ensures LimitRemembered(Next(s, step), Next(s, step).calls[step.c])
  {
    if !step.Insert? {
      RowsShrink(s, step);
    }
    if !BeginStep(step) {
      LimitOfMover(s, step);
      assert LimitRemembered(s, s.calls[step.c]);
    }
  }

  lemma LocksKept(s: State, step: Step)
    requires Ledger(s) && Enabled(s, step) && CallStep(step)
    ensures forall c | c in Next(s, step).calls :: HoldsLock(Next(s, step).calls[c]) ==> Next(s, step).lock == Some(c)
  {
    OtherCallsStay(s, step);
    LockOfMover(s, step);
  }

  lemma LimitsKept(s: State, step: Step)
    requires Ledger(s) && Enabled(s, step) && CallStep(step)
    ensures forall c | c in Next(s, step).calls :: LimitRemembered(Next(s, step), Next(s, step).calls[c])
  {
    var s' := Next(s, step);
    OtherCallsStay(s, step);
    if !step.Insert? {
      RowsShrink(s, step);
    }
    forall c | c in s'.calls ensures LimitRemembered(s', s'.calls[c]) {
      if c != step.c {
        assert LimitRemembered(s, s.calls[c]);
      } else {
        LimitKept(s, step);
      }
    }
  }

  lemma BootKeepsLedger(s: State, step: Step)
    requires Ledger(s) && Enabled(s, step) && !CallStep(step)
    ensures Ledger(Next(s, step))
  {
  }

  lemma NoCallDuringBoot(s: State, step: Step)
    requires Ledger(s) && Enabled(s, step) && CallStep(step)
    ensures s.boot.None? && Next(s, step).boot == s.boot
  {
  }

  lemma IdsStayUsed(s: State, step: Step)
    requires s.rows.Keys <= s.usedIds && Enabled(s, step)
    ensures Next(s, step).rows.Keys <= Next(s, step).usedIds
  {
    if !step.Insert? {
      RowsShrink(s, step);
    }
  }

  lemma LedgerKept(s: State, step: Step)
    requires Ledger(s) && Enabled(s, step)
    ensures Ledger(Next(s, step))
  {
    if CallStep(step) {
      IdsStayUsed(s, step);
      NoCallDuringBoot(s, step);
      LocksKept(s, step);
      LimitsKept(s, step);
    } else {
      BootKeepsLedger(s, step);
    }
  }

  // ---- one host, one limit

  /** Every call measures the same RAM total. */
  predicate FixedHost(step: Step, total: nat) {
    && (step.BeginCreate? || step.BeginStart? ==> step.totalRam == total)
    && (step.MeasureHost? ==> step.measured in {None, Some(total)})
  }

  ghost predicate CountOk(s: State, pc: Pc, total: nat) {
    && (Measures(pc) ==> pc.totalRam == total)
    && (pc.CreateCounted? ==> Memory(s.rows, s.rows.Keys) <= pc.inUse)
    && (pc.StartCounted? && pc.id in s.rows ==> pc.memory + pc.inUse <= Allocatable(total, s.ratio))
  }

  ghost predicate Bounded(s: State, total: nat) {
    && Ledger(s)
    && Memory(s.rows, s.rows.Keys) <= Allocatable(total, s.ratio)
    && (forall c | c in s.calls :: CountOk(s, s.calls[c], total))
  }

  /** A count taken under the lock stays an upper bound while other calls only lower the table. */
  lemma CountKept(s: State, s': State, pc: Pc, total: nat)
    requires CountOk(s, pc, total) && Shrinks(s.rows, s'.rows) && s'.ratio == s.ratio
    ensures CountOk(s', pc, total)
  {
    MemoryMonotone(s'.rows, s'.rows.Keys, s.rows, s.rows.Keys);
  }

  lemma FreshCount(s: State, c: CallId, total: nat)
    requires Bounded(s, total) && c in s.calls && (s.calls[c].CreateLocked? || s.calls[c].StartLocked?)
    ensures CountOk(DoCount(s, c), DoCount(s, c).calls[c], total)
  {
    var pc := s.calls[c];
    assert CountOk(s, pc, total) && LimitRemembered(s, pc);
    if pc.StartLocked? && pc.id in s.rows {
      MemoryRemove(s.rows, s.rows.Keys, pc.id);
      MemoryMonotone(s.rows, Unstopped(s.rows) - {pc.id}, s.rows, s.rows.Keys - {pc.id});
    }
  }

  lemma CountOfMover(s: State, step: Step, total: nat)
    requires Bounded(s, total) && Enabled(s, step) && FixedHost(step, total) && CallStep(step) && !step.Insert?
    requires step.c in Next(s, step).calls
    ensures CountOk(Next(s, step), Next(s, step).calls[step.c], total)
  {
    if step.Count? {
      FreshCount(s, step.c, total);
    } else if !BeginStep(step) {
      LimitOfMover(s, step);
      assert CountOk(s, s.calls[step.c], total);
    }
  }

  lemma BoundedByInsert(s: State, c: CallId, id: ServerId, total: nat)
    requires Bounded(s, total) && Enabled(s, Insert(c, id))
    ensures Bounded(DoInsert(s, c, id), total)
  {
    var s' := DoInsert(s, c, id);
    var pc := s.calls[c];
    LedgerKept(s, Insert(c, id));
    assert CountOk(s, pc, total);
    AdmitsRounded(pc.totalRam, s.ratio, pc.memory, pc.inUse);
    FitsExactly(pc.memory + pc.inUse, pc.totalRam, s.ratio);
    MemoryRemove(s'.rows, s'.rows.Keys, id);
    assert s'.rows.Keys - {id} == s.rows.Keys;
    MemoryMonotone(s'.rows, s.rows.Keys, s.rows, s.rows.Keys);
    forall d | d in s'.calls ensures CountOk(s', s'.calls[d], total) {
      if d != c {
        assert CountOk(s, s.calls[d], total) && LimitRemembered(s, s.calls[d]);
        assert HoldsLock(s.calls[d]) ==> s.lock == Some(d);
      }
    }
  }

  lemma CountsKept(s: State, step: Step, total: nat)
    requires Bounded(s, total) && Enabled(s, step) && FixedHost(step, total) && CallStep(step) && !step.Insert?
    ensures forall c | c in Next(s, step).calls :: CountOk(Next(s, step), Next(s, step).calls[c], total)
  {
    var s' := Next(s, step);
    OtherCallsStay(s, step);
    RowsShrink(s, step);
    forall c | c in s'.calls ensures CountOk(s', s'.calls[c], total) {
      if c == step.c {
        CountOfMover(s, step, total);
      } else {
        CountKept(s, s', s.calls[c], total);
      }
    }
  }

  lemma BootEndsCalls(s: State, step: Step)
    requires Ledger(s) && Enabled(s, step) && !CallStep(step)
    ensures Next(s, step).calls == map[]
  {
  }

  lemma BoundedKept(s: State, step: Step, total: nat)
    requires Bounded(s, total) && Enabled(s, step) && FixedHost(step, total)
    ensures Bounded(Next(s, step), total)
  {
    if step.Insert? {
      BoundedByInsert(s, step.c, step.id, total);
    } else {
      LedgerKept(s, step);
      RowsShrink(s, step);
      MemoryMonotone(Next(s, step).rows, Next(s, step).rows.Keys, s.rows, s.rows.Keys);
      if CallStep(step) {
        CountsKept(s, step, total);
      } else {
        BootEndsCalls(s, step);
      }
    }
  }

  lemma AllocatableNonNegative(total: nat, ratio: real)
    requires ratio > 0.0
    ensures Allocatable(total, ratio) >= 0
  {
    assert total as real * ratio >= 0.0;
  }

  lemma {:induction false} BoundedHolds(states: seq<State>, steps: seq<Step>, total: nat, n: nat)
    requires Run(states, steps) && n < |states|
    requires forall i | 0 <= i < |steps| :: FixedHost(steps[i], total)
    ensures Bounded(states[n], total)
  {
    if n == 0 {
      AllocatableNonNegative(total, states[0].ratio);
    } else {
      BoundedHolds(states, steps, total, n - 1);
      BoundedKept(states[n - 1], steps[n - 1], total);
    }
  }

  /**
   On a host whose RAM total does not change, in every interleaving of all calls, restarts included, the limits of
   all rows together stay within total * ratio, and a start or restart of a row that still exists is never
   refused for memory.
   */
  lemma MemoryIsNeverOvercommitted(states: seq<State>, steps: seq<Step>, total: nat, n: nat)
    requires Run(states, steps) && n < |states|
    requires forall i | 0 <= i < |steps| :: FixedHost(steps[i], total)
    ensures Memory(states[n].rows, states[n].rows.Keys) as real <= total as real * states[n].ratio
    ensures forall c | c in states[n].calls && states[n].calls[c].StartCounted?
                       && states[n].calls[c].id in states[n].rows ::
              !Enabled(states[n], Refuse(c))
  {
    BoundedHolds(states, steps, total, n);
    var s := states[n];
    FitsExactly(Memory(s.rows, s.rows.Keys), total, s.ratio);
    forall c | c in s.calls && s.calls[c].StartCounted? && s.calls[c].id in s.rows ensures !Enabled(s, Refuse(c)) {
      assert CountOk(s, s.calls[c], total);
      AdmitsRounded(total, s.ratio, s.calls[c].memory, s.calls[c].inUse);
    }
  }

  // ---- a host whose RAM total may be measured differently by every call

  predicate IsActive(status: Status) {
    status in {Creating, Starting, Running}
  }

  /** A call that can still bring a STOPPING row back to RUNNING. */
  predicate Revives(pc: Pc, id: ServerId) {
    match pc
    case StopContainer(i, _, _, _) => i == id
    case Measure(i, _, _) => i == id
    case StartQueued(i, _, _, _, restart) => i == id && restart
    case StartLocked(i, _, _, _, restart) => i == id && restart
    case StartCounted(i, _, _, _, restart, _) => i == id && restart
    case Settle(i, _, _, to, _) => i == id && to == Running
    case _ => false
  }

  /** The rows that are active, or can become active again without the lock. */
  ghost predicate MayRun(s: State, id: ServerId) {
    && id in s.rows
    && (IsActive(s.rows[id].status)
        || (s.rows[id].status == Stopping && exists c | c in s.calls :: Revives(s.calls[c], id)))
  }

  ghost function MayRunIds(s: State): (r: set<ServerId>)
    ensures r <= s.rows.Keys
  {
    set id | id in s.rows && MayRun(s, id)
  }

  ghost function ActiveIds(rows: Rows): (r: set<ServerId>)
    ensures r <= rows.Keys
  {
    set id | id in rows && IsActive(rows[id].status)
  }

  /** A commit of the locked section: the only steps that start a server. */
  predicate Admission(s: State, step: Step) {
    step.Insert? || (step.Claim? && step.c in s.calls && s.calls[step.c].StartCounted?)
  }

  lemma RevivedBefore(s: State, step: Step, id: ServerId)
    requires Inv(s) && Enabled(s, step) && CallStep(step) && !Admission(s, step)
    requires step.c in Next(s, step).calls && Revives(Next(s, step).calls[step.c], id)
    requires s.rows.Keys >= {id} && s.rows[id].status == Stopping
    ensures step.c in s.calls && Revives(s.calls[step.c], id)
  {
    if DockerStep(step) {
      RevivedBeforeDocker(s, step, id);
    } else if step.Claim? || step.SettleRow? || step.Store? || step.Erase? {
      WritesReviveNothing(s, step, id);
    } else if step.c in s.calls {
      assert PcOk(s, s.calls[step.c]);
    }
  }

  /** No write outside the locked section makes a call able to revive a STOPPING row. */
  lemma WritesReviveNothing(s: State, step: Step, id: ServerId)
    requires Inv(s) && Enabled(s, step) && (step.Claim? || step.SettleRow? || step.Store? || step.Erase?)
    requires !Admission(s, step) && id in s.rows && s.rows[id].status == Stopping
    ensures step.c in Next(s, step).calls ==> !Revives(Next(s, step).calls[step.c], id)
  {
    assert PcOk(s, s.calls[step.c]);
  }

  lemma RevivedBySwitch(s: State, step: Step, id: ServerId)
    requires Inv(s) && Enabled(s, step) && (step.DockerStart? || step.DockerStop?)
    requires step.c in Next(s, step).calls && Revives(Next(s, step).calls[step.c], id)
    requires s.rows.Keys >= {id} && s.rows[id].status == Stopping
    ensures Revives(s.calls[step.c], id)
  {
    assert PcOk(s, s.calls[step.c]);
  }

  lemma RevivedBeforeDocker(s: State, step: Step, id: ServerId)
    requires Inv(s) && Enabled(s, step) && DockerStep(step)
    requires step.c in Next(s, step).calls && Revives(Next(s, step).calls[step.c], id)
    requires s.rows.Keys >= {id} && s.rows[id].status == Stopping
    ensures Revives(s.calls[step.c], id)
  {
    if step.DockerStart? || step.DockerStop? {
      RevivedBySwitch(s, step, id);
    }
  }

  /** How the status of a row changes outside the locked section. */
  predicate PlainChange(s: State, step: Step, before: Status, after: Status) {
    || after == before
    || after in {Stopped, Error}
    || (after == Running && step.SettleRow?)
    || (after == Stopping && before == Running)
    || (after == Stopping && before == Stopped && step.Claim?)
  }

  lemma ClaimChange(s: State, c: CallId, id: ServerId)
    requires Inv(s) && c in s.calls && (s.calls[c].ClaimStop? || s.calls[c].ClaimDelete?) && id in DoClaim(s, c).rows
    ensures id in s.rows && PlainChange(s, Claim(c), s.rows[id].status, DoClaim(s, c).rows[id].status)
  {
  }

  lemma SettleChange(s: State, c: CallId, id: ServerId)
    requires Inv(s) && c in s.calls && s.calls[c].Settle? && id in DoSettle(s, c).rows
    ensures id in s.rows && PlainChange(s, SettleRow(c), s.rows[id].status, DoSettle(s, c).rows[id].status)
    ensures DoSettle(s, c).rows[id].status == Running && s.rows[id].status != Running ==> MayRun(s, id)
  {
    assert PcOk(s, s.calls[c]);
    if id == s.calls[c].id && s.calls[c].to == Running {
      assert Revives(s.calls[c], id);
    }
  }

  lemma StatusChange(s: State, step: Step, id: ServerId)
    requires Inv(s) && Enabled(s, step) && CallStep(step) && !Admission(s, step) && id in Next(s, step).rows
    ensures id in s.rows && PlainChange(s, step, s.rows[id].status, Next(s, step).rows[id].status)
    ensures Next(s, step).rows[id].status == Running && s.rows[id].status != Running ==> MayRun(s, id)
  {
    if DockerStep(step) {
      RowsAfterDocker(s, step);
    } else if step.Claim? {
      ClaimChange(s, step.c, id);
    } else if step.SettleRow? {
      SettleChange(s, step.c, id);
    } else {
      OtherChange(s, step, id);
    }
  }

  lemma OtherChange(s: State, step: Step, id: ServerId)
    requires Inv(s) && Enabled(s, step) && CallStep(step) && !DockerStep(step) && id in Next(s, step).rows
    requires !step.Claim? && !step.SettleRow? && !step.Insert?
    ensures id in s.rows && Next(s, step).rows[id].status in {s.rows[id].status, Stopped, Error}
  {
  }

  /** A row that a delete has just claimed, or that was STOPPING before, has the callers it had. */
  lemma ReviverBefore(s: State, step: Step, id: ServerId)
    requires Inv(s) && Enabled(s, step) && CallStep(step) && !Admission(s, step)
    requires id in s.rows && s.rows[id].status in {Stopping, Stopped}
    requires id in Next(s, step).rows && Next(s, step).rows[id].status == Stopping
    requires s.rows[id].status == Stopped ==> step.Claim?
    requires exists c | c in Next(s, step).calls :: Revives(Next(s, step).calls[c], id)
    ensures s.rows[id].status == Stopping && exists c | c in s.calls :: Revives(s.calls[c], id)
  {
    var d :| d in Next(s, step).calls && Revives(Next(s, step).calls[d], id);
    OtherCallsStay(s, step);
    if d != step.c {
      assert PcOk(s, s.calls[d]);
      assert Revives(s.calls[d], id);
    } else if s.rows[id].status == Stopping {
      RevivedBefore(s, step, id);
    }
  }

  /** Without the lock, a row can run only if it could already run. */
  lemma MayRunBefore(s: State, step: Step, id: ServerId)
    requires Inv(s) && Enabled(s, step) && CallStep(step) && !Admission(s, step)
    requires MayRun(Next(s, step), id)
    ensures MayRun(s, id)
  {
    StatusChange(s, step, id);
    if Next(s, step).rows[id].status == Stopping && s.rows[id].status != Running {
      ReviverBefore(s, step, id);
    }
  }

  /** The count of a start bounds every row, other than its own, that can run. */
  ghost predicate StartCountOk(s: State, pc: Pc) {
    pc.StartCounted? ==> Memory(s.rows, MayRunIds(s) - {pc.id}) <= pc.inUse
  }

  ghost predicate Metered(s: State) {
    && Inv(s) && Ledger(s)
    && (forall c | c in s.calls :: StartCountOk(s, s.calls[c]))
  }

  lemma FreshStartCount(s: State, c: CallId)
    requires Inv(s) && c in s.calls && s.calls[c].StartLocked?
    ensures StartCountOk(DoCount(s, c), DoCount(s, c).calls[c])
  {
    var s' := DoCount(s, c);
    var id := s.calls[c].id;
    assert MayRunIds(s') <= Unstopped(s.rows);
    MemoryMonotone(s'.rows, MayRunIds(s') - {id}, s.rows, Unstopped(s.rows) - {id});
  }

  lemma StartCountKept(s: State, step: Step, pc: Pc)
    requires Inv(s) && Enabled(s, step) && CallStep(step) && !Admission(s, step) && pc.StartCounted?
             && StartCountOk(s, pc)
    ensures StartCountOk(Next(s, step), pc)
  {
    var s' := Next(s, step);
    RowsShrink(s, step);
    forall id | id in MayRunIds(s') ensures id in MayRunIds(s) {
      MayRunBefore(s, step, id);
    }
    MemoryMonotone(s'.rows, MayRunIds(s') - {pc.id}, s.rows, MayRunIds(s) - {pc.id});
  }

  /** After an admission commits nobody is left in the locked section. */
  lemma NobodyCounts(s: State, step: Step)
    requires Ledger(s) && Enabled(s, step) && Admission(s, step)
    ensures forall c | c in Next(s, step).calls :: !Next(s, step).calls[c].StartCounted?
  {
    OtherCallsStay(s, step);
    assert HoldsLock(s.calls[step.c]);
    forall c | c in Next(s, step).calls ensures !Next(s, step).calls[c].StartCounted? {
      if c != step.c {
        assert HoldsLock(s.calls[c]) ==> s.lock == Some(c);
      }
    }
  }

  lemma CountedByMover(s: State, step: Step)
    requires Enabled(s, step) && CallStep(step) && step.c in Next(s, step).calls
    requires Next(s, step).calls[step.c].StartCounted?
    ensures step.Count? && s.calls[step.c].StartLocked?
  {
    if !BeginStep(step) {
      LimitOfMover(s, step);
    }
  }

  lemma StartCountsKept(s: State, step: Step)
    requires Metered(s) && Enabled(s, step) && CallStep(step) && !Admission(s, step)
    ensures forall c | c in Next(s, step).calls :: StartCountOk(Next(s, step), Next(s, step).calls[c])
  {
    var s' := Next(s, step);
    OtherCallsStay(s, step);
    forall c | c in s'.calls && s'.calls[c].StartCounted? ensures StartCountOk(s', s'.calls[c]) {
      if c == step.c {
        CountedByMover(s, step);
        FreshStartCount(s, c);
      } else {
        StartCountKept(s, step, s.calls[c]);
      }
    }
  }

  lemma MeteredKept(s: State, step: Step)
    requires Metered(s) && Enabled(s, step) && Harmless(s, step)
    ensures Metered(Next(s, step))
  {
    Keeps(s, step);
    LedgerKept(s, step);
    if CallStep(step) {
      if Admission(s, step) {
        NobodyCounts(s, step);
      } else {
        StartCountsKept(s, step);
      }
    }
  }

  lemma {:induction false} MeteredHolds(states: seq<State>, steps: seq<Step>, n: nat)
    requires HarmlessRun(states, steps) && n < |states|
    ensures Metered(states[n])
  {
    if n > 0 {
      MeteredHolds(states, steps, n - 1);
      MeteredKept(states[n - 1], steps[n - 1]);
    }
  }

  lemma AStartFitsTheRoundedShare(states: seq<State>, steps: seq<Step>, n: nat, c: CallId)
    requires HarmlessRun(states, steps) && n < |steps| && steps[n] == Claim(c)
    requires states[n].calls[c].StartCounted? && c in states[n + 1].calls && states[n + 1].calls[c].StartContainer?
    ensures Memory(states[n + 1].rows, ActiveIds(states[n + 1].rows))
         <= Allocatable(states[n].calls[c].totalRam, states[n].ratio)
  {
    var s, s', pc := states[n], states[n + 1], states[n].calls[c];
    MeteredHolds(states, steps, n);
    assert StartCountOk(s, pc) && LimitRemembered(s, pc);
    AdmitsRounded(pc.totalRam, s.ratio, pc.memory, pc.inUse);
    var active := ActiveIds(s'.rows);
    assert pc.id in active;
    MemoryRemove(s'.rows, active, pc.id);
    assert active - {pc.id} <= MayRunIds(s) - {pc.id};
    MemoryMonotone(s'.rows, active - {pc.id}, s.rows, MayRunIds(s) - {pc.id});
  }

  /**
   Whatever RAM totals the calls measure, at the moment a start or restart commits its claim the rows in CREATING,
   STARTING or RUNNING together need at most ratio * the total that call measured.
   */
  lemma AStartFitsTheHostItMeasured(states: seq<State>, steps: seq<Step>, n: nat, c: CallId)
    requires HarmlessRun(states, steps) && n < |steps| && steps[n] == Claim(c)
    requires states[n].calls[c].StartCounted? && c in states[n + 1].calls && states[n + 1].calls[c].StartContainer?
    ensures Memory(states[n + 1].rows, ActiveIds(states[n + 1].rows)) as real
         <= states[n].calls[c].totalRam as real * states[n].ratio
  {
    AStartFitsTheRoundedShare(states, steps, n, c);
    var needed := Memory(states[n + 1].rows, ActiveIds(states[n + 1].rows));
    FitsExactly(needed, states[n].calls[c].totalRam, states[n].ratio);
  }
}
