/**
 What a call leaves behind: whatever other calls do meanwhile, Docker's answer to its owner decides the row.
 */
module LifecycleOutcomes {
  import opened Wrappers
  import opened Servers
  import opened Reconciliation
  import opened Lifecycle
  import opened LifecycleSafety
  import opened LifecycleTheorems

  /** Steps of other calls, without a boot. */
  ghost predicate Waits(steps: seq<Step>, n: nat, m: nat, c: CallId) {
    && n <= m <= |steps|
    && (forall k | n <= k < m :: !steps[k].Boot? && !steps[k].BootWrite? && !steps[k].BootDone? && steps[k].c != c)
  }

  lemma DockerLeavesOthers(s: State, step: Step, c: CallId)
    requires Enabled(s, step) && c in s.calls
    requires step.DockerCreate? || step.DockerStart? || step.DockerStop? || step.DockerRemove?
             || step.DockerInspect? || step.DockerFind?
    requires step.c != c
    ensures c in Next(s, step).calls && Next(s, step).calls[c] == s.calls[c]
  {
  }

  lemma OthersLeaveCall(s: State, step: Step, c: CallId)
    requires Enabled(s, step) && c in s.calls
    requires !step.Boot? && !step.BootWrite? && !step.BootDone? && step.c != c
    ensures c in Next(s, step).calls && Next(s, step).calls[c] == s.calls[c]
  {
    if step.DockerCreate? || step.DockerStart? || step.DockerStop? || step.DockerRemove?
       || step.DockerInspect? || step.DockerFind? {
      DockerLeavesOthers(s, step, c);
    }
  }

  lemma {:induction false} CallWaits(states: seq<State>, steps: seq<Step>, n: nat, m: nat, c: CallId)
    requires Run(states, steps) && Waits(steps, n, m, c) && c in states[n].calls
    ensures c in states[m].calls && states[m].calls[c] == states[n].calls[c]
  {
    if n < m {
      CallWaits(states, steps, n, m - 1, c);
      OthersLeaveCall(states[m - 1], steps[m - 1], c);
    }
  }

  /** The status that an answer to a start or a stop stands for. */
  function StartAnswer(first: bool, reply: Reply): Status {
    if reply.Done? then Running else if first || reply.Unreached? then Error else Stopped
  }

  function StopAnswer(reply: Reply): Status {
    match reply
    case Done => Stopped
    case NotFound => Stopped
    case Unreached(_) => Error
    case Rejected => Running
  }

  /** A settle that follows, after any steps of other calls, puts its status into the row it claimed. */
  lemma SettleLands(states: seq<State>, steps: seq<Step>, n: nat, m: nat, c: CallId)
    requires HarmlessRun(states, steps) && Waits(steps, n, m, c) && m < |steps| && steps[m] == SettleRow(c)
    requires c in states[n].calls && states[n].calls[c].Settle?
    ensures var pc := states[n].calls[c];
            Hits(states[m + 1].rows, pc.id, pc.to, Some(pc.cid))
  {
    CallWaits(states, steps, n, m, c);
    InvHolds(states, steps, m);
    assert PcOk(states[m], states[m].calls[c]);
    assert states[m + 1] == DoSettle(states[m], c);
  }

  /**
   The answer to a start decides the row: RUNNING if Docker did it, ERROR if that is in doubt or the server was being
   created, STOPPED if Docker refused.
   */
  lemma StartAnswerDecides(states: seq<State>, steps: seq<Step>, n: nat, m: nat, c: CallId, reply: Reply)
    requires HarmlessRun(states, steps) && n < |steps| && steps[n] == DockerStart(c, reply)
    requires Waits(steps, n + 1, m, c) && m < |steps| && steps[m] == SettleRow(c)
    ensures var pc := states[n].calls[c];
            Hits(states[m + 1].rows, pc.id, StartAnswer(pc.CreateStart?, reply), Some(pc.cid))
  {
    assert states[n + 1] == DoDockerStart(states[n], c, reply);
    SettleLands(states, steps, n + 1, m, c);
  }

  lemma StopIsSettled(s: State, c: CallId, reply: Reply)
    requires c in s.calls && s.calls[c].StopContainer? && CanAct(s, s.calls[c].cid, reply)
    requires !(s.calls[c].restart && reply.Done?)
    ensures var pc := s.calls[c];
            && c in DoDockerStop(s, c, reply).calls
            && DoDockerStop(s, c, reply).calls[c] == Settle(pc.id, pc.cid, Stopping, StopAnswer(reply), Leave)
  {
  }

  /** The answer to a stop decides the row, unless it lets a restart go on. */
  lemma StopAnswerDecides(states: seq<State>, steps: seq<Step>, n: nat, m: nat, c: CallId, reply: Reply)
    requires HarmlessRun(states, steps) && n < |steps| && steps[n] == DockerStop(c, reply)
    requires !(states[n].calls[c].restart && reply.Done?)
    requires Waits(steps, n + 1, m, c) && m < |steps| && steps[m] == SettleRow(c)
    ensures var pc := states[n].calls[c];
            Hits(states[m + 1].rows, pc.id, StopAnswer(reply), Some(pc.cid))
  {
    assert states[n + 1] == DoDockerStop(states[n], c, reply);
    StopIsSettled(states[n], c, reply);
    SettleLands(states, steps, n + 1, m, c);
  }

  /** So does the erase of a delete: its row is gone, and the container does not run. */
  lemma EraseLands(states: seq<State>, steps: seq<Step>, n: nat, m: nat, c: CallId)
    requires HarmlessRun(states, steps) && Waits(steps, n, m, c) && m < |steps| && steps[m] == Erase(c)
    requires c in states[n].calls && states[n].calls[c].EraseRow?
    ensures var pc := states[n].calls[c];
            && pc.id !in states[m + 1].rows
            && (pc.container.Some? ==> !Runs(states[m + 1].docker, pc.container.value))
            && (c in states[m + 1].calls <==> pc.again)
  {
    CallWaits(states, steps, n, m, c);
    InvHolds(states, steps, m);
    assert PcOk(states[m], states[m].calls[c]);
    assert states[m + 1] == DoErase(states[m], c);
  }

  /** A delete whose container is removed takes its row away, and the container does not run. */
  lemma DeleteErases(states: seq<State>, steps: seq<Step>, n: nat, m: nat, c: CallId)
    requires HarmlessRun(states, steps) && n < |steps| && steps[n] == DockerRemove(c, Done)
    requires Waits(steps, n + 1, m, c) && m < |steps| && steps[m] == Erase(c)
    ensures var pc := states[n].calls[c];
            && states[n + 1].docker == states[n].docker - {pc.cid} && !EraseIsCaught(states[n + 1].calls[c])
            && pc.id !in states[m + 1].rows && !Runs(states[m + 1].docker, pc.cid) && c !in states[m + 1].calls
  {
    assert states[n + 1] == DoDockerRemove(states[n], c, Done);
    EraseLands(states, steps, n + 1, m, c);
  }

  // ---- compensation of a failed create

  /** A container that could not be created, or stored in its row, is looked up by its label. */
  lemma FailedCreateIsLookedUp(states: seq<State>, steps: seq<Step>, n: nat, c: CallId, reply: Reply, cid: ContainerId)
    requires Run(states, steps) && n < |steps| && steps[n] == DockerCreate(c, reply, cid) && !reply.Done?
    ensures c in states[n + 1].calls && states[n + 1].calls[c] == Compensate(states[n].calls[c].id)
    ensures states[n + 1].rows == states[n].rows
    ensures states[n + 1].docker == if reply == Unreached(true)
                                    then states[n].docker[cid := Container(states[n].calls[c].id, false)]
                                    else states[n].docker
  {
    assert states[n + 1] == DoDockerCreate(states[n], c, reply, cid);
  }

  lemma StoreLands(states: seq<State>, steps: seq<Step>, n: nat, m: nat, c: CallId)
    requires HarmlessRun(states, steps) && Waits(steps, n, m, c) && m < |steps| && steps[m] == Store(c)
    requires c in states[n].calls
    ensures var pc, rows := states[n].calls[c], states[m + 1].rows;
            match pc
            case ClaimContainer(id, k) => Hits(rows, id, Creating, Some(k))
            case Adopt(id, k) => Hits(rows, id, Error, Some(k))
            case Discard(id) => id !in rows
            case _ => true
  {
    CallWaits(states, steps, n, m, c);
    InvHolds(states, steps, m);
    assert PcOk(states[m], states[m].calls[c]);
    assert states[m + 1] == DoStore(states[m], c);
  }

  /** The container a create made is stored in its row, new, stopped and labelled with the server. */
  lemma CreatedContainerIsStored(states: seq<State>, steps: seq<Step>, n: nat, m: nat, c: CallId, cid: ContainerId)
    requires HarmlessRun(states, steps) && n < |steps| && steps[n] == DockerCreate(c, Done, cid)
    requires Waits(steps, n + 1, m, c) && m < |steps| && steps[m] == Store(c)
    ensures var id := states[n].calls[c].id;
            && cid !in states[n].docker && states[n + 1].docker == states[n].docker[cid := Container(id, false)]
            && Hits(states[m + 1].rows, id, Creating, Some(cid))
  {
    InvHolds(states, steps, n);
    assert states[n + 1] == DoDockerCreate(states[n], c, Done, cid);
    StoreLands(states, steps, n + 1, m, c);
  }

  /** What the lookup finds decides the row of a failed create: it is kept as ERROR with its container, or goes. */
  lemma LookupDecides(states: seq<State>, steps: seq<Step>, n: nat, m: nat, c: CallId, found: LookupAnswer)
    requires HarmlessRun(states, steps) && n < |steps| && steps[n] == DockerFind(c, found)
    requires !found.LookupUnreachable? && Waits(steps, n + 1, m, c) && m < |steps| && steps[m] == Store(c)
    ensures var id := states[n].calls[c].id;
            && (found.Managed? ==> Hits(states[m + 1].rows, id, Error, Some(found.id)))
            && (found.NoContainer? ==> id !in states[m + 1].rows)
  {
    assert states[n + 1] == DoDockerFind(states[n], c, found);
    StoreLands(states, steps, n + 1, m, c);
  }

  /** A lookup that cannot reach Docker leaves the row as it is for the next boot and ends the call. */
  lemma UnreachableLookupKeepsTheRow(states: seq<State>, steps: seq<Step>, n: nat, c: CallId)
    requires HarmlessRun(states, steps) && n < |steps| && steps[n] == DockerFind(c, LookupUnreachable)
    ensures var id := states[n].calls[c].id;
            && c !in states[n + 1].calls && states[n + 1].rows == states[n].rows
            && Hits(states[n + 1].rows, id, Creating, None)
  {
    InvHolds(states, steps, n);
    assert PcOk(states[n], states[n].calls[c]);
    assert states[n + 1] == DoDockerFind(states[n], c, LookupUnreachable);
  }

  // ---- a remove that failed

  /** The container is gone, or seen not to run. */
  predicate SeenDown(answer: InspectAnswer) {
    answer.Missing? || (answer.Found? && !answer.running)
  }

  lemma FailedRemoveIsInspected(states: seq<State>, steps: seq<Step>, n: nat, c: CallId, reply: Reply)
    requires Run(states, steps) && n < |steps| && steps[n] == DockerRemove(c, reply) && !reply.Done?
    ensures var pc := states[n].calls[c];
            && c in states[n + 1].calls && states[n + 1].calls[c] == InspectRemoved(pc.id, pc.cid)
            && states[n + 1].rows == states[n].rows
  {
    assert states[n + 1] == DoDockerRemove(states[n], c, reply);
  }

  /** After a failed remove the inspect decides: the row goes if the container is down, and is ERROR otherwise. */
  lemma InspectDecides(states: seq<State>, steps: seq<Step>, n: nat, m: nat, c: CallId, answer: InspectAnswer)
    requires HarmlessRun(states, steps) && n < |steps| && steps[n] == DockerInspect(c, answer)
    requires Waits(steps, n + 1, m, c) && m < |steps| && (steps[m] == Erase(c) || steps[m] == SettleRow(c))
    ensures steps[m] == Erase(c) <==> SeenDown(answer)
    ensures EraseIsCaught(states[n + 1].calls[c]) <==> answer.Found? && !answer.running
    ensures var pc := states[n].calls[c];
            if SeenDown(answer) then pc.id !in states[m + 1].rows
            else Hits(states[m + 1].rows, pc.id, Error, Some(pc.cid))
  {
    assert states[n + 1] == DoDockerInspect(states[n], c, answer);
    CallWaits(states, steps, n + 1, m, c);
    if SeenDown(answer) {
      EraseLands(states, steps, n + 1, m, c);
    } else {
      SettleLands(states, steps, n + 1, m, c);
    }
  }

  /** A database failure of that erase is caught only if the container was seen, and leaves ERROR. */
  lemma CaughtEraseIsError(states: seq<State>, steps: seq<Step>, n: nat, m: nat, c: CallId)
    requires HarmlessRun(states, steps) && n < |steps| && steps[n] == EraseFault(c)
    requires Waits(steps, n + 1, m, c) && m < |steps| && steps[m] == SettleRow(c)
    ensures var pc := states[n].calls[c]; Hits(states[m + 1].rows, pc.id, Error, pc.container)
  {
    assert states[n + 1] == DoEraseFault(states[n], c);
    SettleLands(states, steps, n + 1, m, c);
  }

  // ---- writes are guarded in every state, whoever owns the row

  /** The row that a write of call `pc` may touch, and the status it must find there. */
  predicate Guarded(rows: Rows, id: ServerId, pc: Pc, step: Step)
    requires id in rows
  {
    match step
    case Store(_) =>
      (pc.ClaimContainer? || pc.Adopt? || pc.Discard?) && pc.id == id && rows[id].status == Creating
    case Erase(_) =>
      (pc.EraseRow? || pc.EraseAgain?) && pc.id == id && rows[id].status == Stopping
    case SettleRow(_) =>
      pc.Settle? && pc.id == id && rows[id].status == pc.from && rows[id].container == Some(pc.cid)
    case CatchRow(_) =>
      pc.OuterCatch? && pc.id == id && rows[id].status == Stopping && rows[id].container == Some(pc.cid)
    case _ => true
  }

  /** Even a call that has lost its row overwrites or deletes it only in the status that its statement names. */
  lemma WritesAreGuarded(s: State, step: Step, id: ServerId)
    requires Enabled(s, step) && (step.Store? || step.Erase? || step.SettleRow? || step.CatchRow?) && id in s.rows
    requires id !in Next(s, step).rows || Next(s, step).rows[id] != s.rows[id]
    ensures Guarded(s.rows, id, s.calls[step.c], step)
  {
  }

  /** A start or restart that finds its row gone from STARTING tries to leave ERROR there before it fails. */
  lemma MissedRunningIsError(s: State, c: CallId)
    requires c in s.calls && s.calls[c].Settle? && s.calls[c].after.Retry?
    requires !Hits(s.rows, s.calls[c].id, s.calls[c].from, Some(s.calls[c].cid))
    ensures var pc, s' := s.calls[c], DoSettle(s, c);
            && s'.rows == s.rows && c in s'.calls
            && s'.calls[c] == Settle(pc.id, pc.cid, Starting, Error, if pc.after.catching then Catch else Leave)
  {
  }
}
