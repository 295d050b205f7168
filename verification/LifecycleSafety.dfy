/**
 Who owns a row, and what a row says about its container.

 Between its won claim and its settle a call is the only one that acts on its row or its container, so the settle
 always finds the row as the call left it; and RUNNING and STOPPED always tell the truth about the container.
 Restart's outer catch can break this. `Harmless` is the exact condition under which it does not.
 */
module LifecycleSafety {
  import opened Wrappers
  import opened Servers
  import opened Reconciliation
  import opened Lifecycle

  /** What a call may rely on: nothing, or that a row has exactly this status and container. */
  datatype Hold = Free | Held(id: ServerId, status: Status, container: Option<ContainerId>)

  function HoldOf(pc: Pc): Hold {
    match pc
    case CreateContainer(id) => Held(id, Creating, None)
    case ClaimContainer(id, _) => Held(id, Creating, None)
    case Compensate(id) => Held(id, Creating, None)
    case Adopt(id, _) => Held(id, Creating, None)
    case Discard(id) => Held(id, Creating, None)
    case CreateStart(id, cid) => Held(id, Creating, Some(cid))
    case StartQueued(id, cid, _, _, restart) => if restart then Held(id, Stopping, Some(cid)) else Free
    case StartLocked(id, cid, _, _, restart) => if restart then Held(id, Stopping, Some(cid)) else Free
    case StartCounted(id, cid, _, _, restart, _) => if restart then Held(id, Stopping, Some(cid)) else Free
    case StartContainer(id, cid, _) => Held(id, Starting, Some(cid))
    case StopContainer(id, cid, _, _) => Held(id, Stopping, Some(cid))
    case Measure(id, cid, _) => Held(id, Stopping, Some(cid))
    case RemoveContainer(id, cid) => Held(id, Stopping, Some(cid))
    case InspectRemoved(id, cid) => Held(id, Stopping, Some(cid))
    case EraseRow(id, container, _, _) => Held(id, Stopping, container)
    case Settle(id, cid, from, _, _) => Held(id, from, Some(cid))
    case OuterCatch(id, cid, claimed) => if claimed then Held(id, Stopping, Some(cid)) else Free
    case _ => Free
  }

  predicate Holds(pc: Pc, id: ServerId) {
    HoldOf(pc).Held? && HoldOf(pc).id == id
  }

  /** What a call may rely on about the container it is about to act on or to report. */
  predicate ContainerAsLeft(docker: Docker, pc: Pc) {
    match pc
    case ClaimContainer(id, cid) => cid in docker && docker[cid] == Container(id, false)
    case Adopt(id, cid) => cid in docker && docker[cid] == Container(id, false)
    case StartQueued(_, cid, _, _, restart) => restart ==> !Runs(docker, cid)
    case StartLocked(_, cid, _, _, restart) => restart ==> !Runs(docker, cid)
    case StartCounted(_, cid, _, _, restart, _) => restart ==> !Runs(docker, cid)
    case StartContainer(_, cid, _) => !Runs(docker, cid)
    case StopContainer(_, cid, _, _) => Runs(docker, cid)
    case Measure(_, cid, _) => !Runs(docker, cid)
    case RemoveContainer(_, cid) => !Runs(docker, cid)
    case InspectRemoved(_, cid) => !Runs(docker, cid)
    case EraseRow(_, container, _, _) => container.Some? ==> !Runs(docker, container.value)
    case Settle(_, cid, _, to, _) => (to == Running ==> Runs(docker, cid)) && (to == Stopped ==> !Runs(docker, cid))
    case OuterCatch(_, cid, claimed) => claimed ==> !Runs(docker, cid)
    case _ => true
  }

  predicate PcOk(s: State, pc: Pc) {
    && (HoldOf(pc).Held? ==>
          && Hits(s.rows, HoldOf(pc).id, HoldOf(pc).status, HoldOf(pc).container)
          && HoldOf(pc).status in {Creating, Starting, Stopping})
    && ContainerAsLeft(s.docker, pc)
    && (pc.Settle? ==> pc.to in {Running, Stopped, Error})
    && (pc.EraseAgain? ==> pc.id in s.usedIds && pc.id !in s.rows)
  }

  /** RUNNING has a running container, STOPPED does not, and the container is the server's own. */
  predicate RowOk(s: State, id: ServerId)
    requires id in s.rows
  {
    var row := s.rows[id];
    && (row.status == Running ==> row.container.Some? && Runs(s.docker, row.container.value))
    && (row.status == Stopped && row.container.Some? ==> !Runs(s.docker, row.container.value))
    && (row.container.Some? ==> row.container.value in s.usedContainers)
    && (row.container.Some? && row.container.value in s.docker ==> s.docker[row.container.value].server == id)
  }

  /** A running container is the one its server's row names. */
  predicate ContainerOk(s: State, k: ContainerId)
    requires k in s.docker
  {
    s.docker[k].running ==> s.docker[k].server in s.rows && s.rows[s.docker[k].server].container == Some(k)
  }

  /** A pending boot write is about an unchanged row and tells the truth. */
  ghost predicate PendingOk(s: State, id: ServerId, p: Pending) {
    && id in s.rows && s.rows[id] == p.before
    && p.status in {Running, Stopped}
    && (p.container.Some? ==>
          && p.container.value in s.docker
          && s.docker[p.container.value] == Container(id, p.status == Running))
    && (p.container.None? ==> p.status == Stopped)
    && (forall k | k in s.docker && s.docker[k] == Container(id, true) :: p.container == Some(k))
  }

  ghost predicate Exclusive(calls: map<CallId, Pc>) {
    forall c, d, id | c in calls && d in calls && Holds(calls[c], id) && Holds(calls[d], id) :: c == d
  }

  ghost predicate Inv(s: State) {
    && s.rows.Keys <= s.usedIds
    && s.docker.Keys <= s.usedContainers
    && (forall id | id in s.rows :: RowOk(s, id))
    && (forall k | k in s.docker :: ContainerOk(s, k))
    && Exclusive(s.calls)
    && (forall c | c in s.calls :: PcOk(s, s.calls[c]))
    && (s.boot.Some? ==>
          && s.calls == map[]
          && forall id | id in s.boot.value :: PendingOk(s, id, s.boot.value[id]))
  }

  /**
   The one step that may break the invariant is an outer catch running after restart gave its claim up. It is
   harmless when it misses, or when nobody owns the row it hits and the container does not run.
   */
  ghost predicate Harmless(s: State, step: Step) {
    step.CatchRow? && step.c in s.calls && s.calls[step.c].OuterCatch? && !s.calls[step.c].claimed ==>
      var pc := s.calls[step.c];
      Hits(s.rows, pc.id, Stopping, Some(pc.cid)) ==>
        (forall d | d in s.calls :: !Holds(s.calls[d], pc.id)) && !Runs(s.docker, pc.cid)
  }

  // ---- framing

  /** Only row `id` and containers labelled `id` differ, and what is new has never been used. */
  ghost predicate SameElsewhere(s: State, s': State, id: ServerId) {
    && s.usedIds <= s'.usedIds && s.usedContainers <= s'.usedContainers
    && s'.boot == s.boot
    && s'.rows.Keys <= s'.usedIds && s'.docker.Keys <= s'.usedContainers
    && (id in s.rows || id !in s.usedIds)
    && (forall i | i != id :: (i in s.rows <==> i in s'.rows) && (i in s.rows ==> s'.rows[i] == s.rows[i]))
    && (forall k | k in s.docker && s.docker[k].server != id :: k in s'.docker && s'.docker[k] == s.docker[k])
    && (forall k | k in s'.docker && s'.docker[k].server != id :: k in s.docker && s'.docker[k] == s.docker[k])
    && (forall k | k in s'.docker && k !in s.docker :: k !in s.usedContainers)
  }

  /** Rewriting or deleting one row touches nothing else. */
  lemma OneRow(s: State, s': State, id: ServerId)
    requires Inv(s) && id in s.rows
    requires s'.rows == s.rows - {id} || (id in s'.rows && s'.rows == s.rows[id := s'.rows[id]])
    requires s'.docker == s.docker && s'.usedIds == s.usedIds && s'.usedContainers == s.usedContainers
             && s'.boot == s.boot
    ensures SameElsewhere(s, s', id)
  {
  }

  /** Changing, creating or removing one container of a server touches nothing else. */
  lemma OneContainer(s: State, s': State, id: ServerId, cid: ContainerId)
    requires Inv(s) && id in s.rows && s'.rows == s.rows && s'.usedIds == s.usedIds && s'.boot == s.boot
    requires cid in s.docker ==> s.docker[cid].server == id
    requires s'.docker == s.docker - {cid}
             || (cid in s'.docker && s'.docker == s.docker[cid := s'.docker[cid]] && s'.docker[cid].server == id)
    requires s'.usedContainers == s.usedContainers + (if cid in s'.docker then {cid} else {})
    requires cid in s'.docker && cid !in s.docker ==> cid !in s.usedContainers
    ensures SameElsewhere(s, s', id)
  {
  }

  /** Everything about the one row a step works on. */
  ghost predicate LocalOk(s': State, id: ServerId) {
    && (id in s'.rows ==> RowOk(s', id))
    && (forall k | k in s'.docker && s'.docker[k].server == id :: ContainerOk(s', k))
  }

  lemma OtherContainerKept(s: State, s': State, id: ServerId, pc: Pc)
    requires Inv(s) && SameElsewhere(s, s', id) && PcOk(s, pc) && !Holds(pc, id)
    ensures ContainerAsLeft(s'.docker, pc)
  {
    if HoldOf(pc).Held? {
      assert RowOk(s, HoldOf(pc).id);
    }
  }

  lemma OtherCallKept(s: State, s': State, id: ServerId, pc: Pc)
    requires Inv(s) && SameElsewhere(s, s', id) && PcOk(s, pc) && !Holds(pc, id)
    ensures PcOk(s', pc)
  {
    OtherContainerKept(s, s', id, pc);
  }

  lemma OtherRowsKept(s: State, s': State, id: ServerId)
    requires Inv(s) && SameElsewhere(s, s', id) && LocalOk(s', id)
    ensures forall i | i in s'.rows :: RowOk(s', i)
    ensures forall k | k in s'.docker :: ContainerOk(s', k)
  {
    forall i | i in s'.rows ensures RowOk(s', i) {
      if i != id {
        assert RowOk(s, i);
      }
    }
    forall k | k in s'.docker ensures ContainerOk(s', k) {
      if s'.docker[k].server != id {
        assert ContainerOk(s, k);
      }
    }
  }

  ghost predicate Unheld(calls: map<CallId, Pc>, c: CallId, id: ServerId) {
    forall d | d in calls && d != c :: !Holds(calls[d], id)
  }

  /** The step goes on with call `c` at `pc`. */
  lemma Continue(s: State, s': State, c: CallId, pc: Pc, id: ServerId)
    requires Inv(s) && s.boot.None? && SameElsewhere(s, s', id) && LocalOk(s', id)
    requires s'.calls == s.calls[c := pc] && PcOk(s', pc)
    requires Unheld(s.calls, c, id)
    requires HoldOf(pc).Held? ==> HoldOf(pc).id == id
    ensures Inv(s')
  {
    OtherRowsKept(s, s', id);
    forall d | d in s'.calls ensures PcOk(s', s'.calls[d]) {
      if d != c {
        OtherCallKept(s, s', id, s.calls[d]);
      }
    }
  }

  /** The step ends call `c`. */
  lemma Finish(s: State, s': State, c: CallId, id: ServerId)
    requires Inv(s) && s.boot.None? && SameElsewhere(s, s', id) && LocalOk(s', id)
    requires s'.calls == s.calls - {c}
    requires Unheld(s.calls, c, id)
    ensures Inv(s')
  {
    OtherRowsKept(s, s', id);
    forall d | d in s'.calls ensures PcOk(s', s'.calls[d]) {
      OtherCallKept(s, s', id, s.calls[d]);
    }
  }

  /** Only the lock and call `c` change, and `c` claims no row it did not hold. */
  lemma Quiet(s: State, s': State, c: CallId)
    requires Inv(s) && s.boot.None?
    requires s' == s.(lock := s'.lock, calls := s'.calls)
    requires s'.calls == s.calls - {c} || (c in s'.calls && s'.calls == s.calls[c := s'.calls[c]])
    requires c in s'.calls ==>
               && PcOk(s', s'.calls[c])
               && (HoldOf(s'.calls[c]).Held? ==> c in s.calls && Holds(s.calls[c], HoldOf(s'.calls[c]).id))
    ensures Inv(s')
  {
    forall d | d in s'.calls ensures PcOk(s', s'.calls[d]) {
      if d != c {
        assert PcOk(s, s.calls[d]);
      }
    }
    forall i | i in s'.rows ensures RowOk(s', i) { assert RowOk(s, i); }
    forall k | k in s'.docker ensures ContainerOk(s', k) { assert ContainerOk(s, k); }
  }

  // ---- one lemma per kind of step

  /** A call that begins has read a row and holds nothing yet. */
  lemma KeepsBegin(s: State, c: CallId, pc: Pc)
    requires Inv(s) && CanBegin(s, c)
    requires pc.CreateQueued? || (pc.StartQueued? && !pc.restart) || pc.ClaimStop? || pc.ClaimDelete?
    ensures Inv(Goto(s, c, pc))
  {
    Quiet(s, Goto(s, c, pc), c);
  }

  lemma KeepsAcquire(s: State, c: CallId)
    requires Inv(s) && c in s.calls && (s.calls[c].CreateQueued? || s.calls[c].StartQueued?)
    ensures Inv(DoAcquire(s, c))
  {
    assert PcOk(s, s.calls[c]);
    Quiet(s, DoAcquire(s, c), c);
  }

  lemma KeepsCount(s: State, c: CallId)
    requires Inv(s) && c in s.calls && (s.calls[c].CreateLocked? || s.calls[c].StartLocked?)
    ensures Inv(DoCount(s, c))
  {
    assert PcOk(s, s.calls[c]);
    Quiet(s, DoCount(s, c), c);
  }

  lemma KeepsRefuse(s: State, c: CallId)
    requires Inv(s) && c in s.calls && (s.calls[c].CreateCounted? || s.calls[c].StartCounted?)
    ensures Inv(DoRefuse(s, c))
  {
    assert PcOk(s, s.calls[c]);
    Quiet(s, DoRefuse(s, c), c);
  }

  lemma KeepsMeasure(s: State, c: CallId, measured: Option<nat>)
    requires Inv(s) && c in s.calls && s.calls[c].Measure?
    ensures Inv(DoMeasure(s, c, measured))
  {
    assert PcOk(s, s.calls[c]);
    Quiet(s, DoMeasure(s, c, measured), c);
  }

  lemma KeepsFault(s: State, c: CallId)
    requires Inv(s) && c in s.calls && InTryBlock(s.calls[c])
    ensures Inv(DoFault(s, c))
  {
    assert PcOk(s, s.calls[c]);
    Quiet(s, DoFault(s, c), c);
  }

  lemma KeepsAbandon(s: State, c: CallId)
    requires Inv(s) && c in s.calls
    ensures Inv(DoAbandon(s, c))
  {
    Quiet(s, DoAbandon(s, c), c);
  }

  /** A call goes on with the hold it has. */
  lemma QuietGoto(s: State, c: CallId, pc: Pc)
    requires Inv(s) && s.boot.None? && c in s.calls && PcOk(s, pc) && HoldOf(pc) == HoldOf(s.calls[c])
    ensures Inv(Goto(s, c, pc))
  {
    Quiet(s, Goto(s, c, pc), c);
  }

  lemma KeepsInspectGone(s: State, c: CallId, caught: bool)
    requires Inv(s) && c in s.calls && s.calls[c].InspectRemoved?
    ensures Inv(Goto(s, c, EraseRow(s.calls[c].id, Some(s.calls[c].cid), true, caught)))
  {
    assert PcOk(s, s.calls[c]);
    QuietGoto(s, c, EraseRow(s.calls[c].id, Some(s.calls[c].cid), true, caught));
  }

  lemma KeepsInspectInDoubt(s: State, c: CallId)
    requires Inv(s) && c in s.calls && s.calls[c].InspectRemoved?
    ensures Inv(Goto(s, c, Settle(s.calls[c].id, s.calls[c].cid, Stopping, Error, Leave)))
  {
    assert PcOk(s, s.calls[c]);
    QuietGoto(s, c, Settle(s.calls[c].id, s.calls[c].cid, Stopping, Error, Leave));
  }

  lemma KeepsInspect(s: State, c: CallId, a: InspectAnswer)
    requires Inv(s) && c in s.calls && s.calls[c].InspectRemoved?
    ensures Inv(DoDockerInspect(s, c, a))
  {
    KeepsInspectGone(s, c, a.Found?);
    KeepsInspectInDoubt(s, c);
  }

  lemma KeepsEraseFault(s: State, c: CallId)
    requires Inv(s) && c in s.calls && EraseIsCaught(s.calls[c])
    ensures Inv(DoEraseFault(s, c))
  {
    var pc := s.calls[c];
    assert PcOk(s, pc);
    QuietGoto(s, c, Settle(pc.id, pc.container.value, Stopping, Error, Leave));
  }

  lemma KeepsFind(s: State, c: CallId, a: LookupAnswer)
    requires Inv(s) && c in s.calls && s.calls[c].Compensate? && TruthfulLookup(s.docker, s.calls[c].id, a)
    ensures Inv(DoDockerFind(s, c, a))
  {
    assert PcOk(s, s.calls[c]);
    if a.Managed? {
      assert ContainerOk(s, a.id);
    }
    Quiet(s, DoDockerFind(s, c, a), c);
  }

  lemma KeepsInsert(s: State, c: CallId, id: ServerId)
    requires Inv(s) && c in s.calls && s.calls[c].CreateCounted? && id !in s.usedIds
    ensures Inv(DoInsert(s, c, id))
  {
    var s' := DoInsert(s, c, id);
    forall k | k in s'.docker && s'.docker[k].server == id ensures ContainerOk(s', k) {
      assert ContainerOk(s, k);
    }
    forall d | d in s.calls ensures !Holds(s.calls[d], id) {
      assert PcOk(s, s.calls[d]);
    }
    Continue(s, s', c, CreateContainer(id), id);
  }

  /** A row that is STOPPED or RUNNING is nobody's. */
  lemma Unclaimed(s: State, id: ServerId)
    requires Inv(s) && id in s.rows && s.rows[id].status in {Stopped, Running, Error}
    ensures forall d | d in s.calls :: !Holds(s.calls[d], id)
  {
    forall d | d in s.calls ensures !Holds(s.calls[d], id) {
      assert PcOk(s, s.calls[d]);
    }
  }

  /** A compare-and-set to a status that makes no promise about the container keeps the row truthful. */
  lemma LocalAfterTransition(s: State, s': State, id: ServerId, to: Status)
    requires Inv(s) && id in s.rows
    requires s'.rows == s.rows[id := s.rows[id].(status := to)] && s'.docker == s.docker
    requires s'.usedContainers == s.usedContainers
    requires to == Running ==> s.rows[id].container.Some? && Runs(s.docker, s.rows[id].container.value)
    requires to == Stopped && s.rows[id].container.Some? ==> !Runs(s.docker, s.rows[id].container.value)
    ensures LocalOk(s', id)
  {
    assert RowOk(s, id);
    forall k | k in s'.docker && s'.docker[k].server == id ensures ContainerOk(s', k) {
      assert ContainerOk(s, k);
    }
  }

  /** What a compare-and-set may make of a row, given its container. */
  predicate MaySettle(s: State, id: ServerId, to: Status)
    requires id in s.rows
  {
    && (to == Running ==> s.rows[id].container.Some? && Runs(s.docker, s.rows[id].container.value))
    && (to == Stopped && s.rows[id].container.Some? ==> !Runs(s.docker, s.rows[id].container.value))
  }

  /** A compare-and-set by the only call on its row, which then goes on at `pc`. */
  lemma Moved(s: State, s': State, c: CallId, id: ServerId, to: Status, pc: Pc)
    requires Inv(s) && s.boot.None? && id in s.rows && Unheld(s.calls, c, id) && MaySettle(s, id, to)
    requires s' == s.(lock := s'.lock, rows := s.rows[id := s.rows[id].(status := to)], calls := s.calls[c := pc])
    requires PcOk(s', pc) && (HoldOf(pc).Held? ==> HoldOf(pc).id == id)
    ensures Inv(s')
  {
    LocalAfterTransition(s, s', id, to);
    OneRow(s, s', id);
    Continue(s, s', c, pc, id);
  }

  /** A compare-and-set by the only call on its row, which then ends. */
  lemma MovedLast(s: State, s': State, c: CallId, id: ServerId, to: Status)
    requires Inv(s) && s.boot.None? && id in s.rows && Unheld(s.calls, c, id) && MaySettle(s, id, to)
    requires s' == s.(rows := s.rows[id := s.rows[id].(status := to)], calls := s.calls - {c})
    ensures Inv(s')
  {
    LocalAfterTransition(s, s', id, to);
    OneRow(s, s', id);
    Finish(s, s', c, id);
  }

  lemma KeepsClaimStart(s: State, c: CallId)
    requires Inv(s) && c in s.calls && s.calls[c].StartCounted?
    ensures Inv(DoClaim(s, c))
  {
    var s' := DoClaim(s, c);
    var pc := s.calls[c];
    assert PcOk(s, pc);
    if Hits(s.rows, pc.id, if pc.restart then Stopping else Stopped, Some(pc.cid)) {
      if !pc.restart {
        Unclaimed(s, pc.id);
        assert RowOk(s, pc.id);
      }
      Moved(s, s', c, pc.id, Starting, StartContainer(pc.id, pc.cid, pc.restart));
    } else {
      Quiet(s, s', c);
    }
  }

  lemma KeepsClaimStop(s: State, c: CallId)
    requires Inv(s) && c in s.calls && s.calls[c].ClaimStop?
    ensures Inv(DoClaim(s, c))
  {
    var s' := DoClaim(s, c);
    var pc := s.calls[c];
    if Hits(s.rows, pc.id, Running, Some(pc.cid)) {
      Unclaimed(s, pc.id);
      assert RowOk(s, pc.id);
      Moved(s, s', c, pc.id, Stopping, StopContainer(pc.id, pc.cid, pc.memory, pc.restart));
    } else {
      Quiet(s, s', c);
    }
  }

  lemma KeepsWonDelete(s: State, c: CallId, pc': Pc)
    requires Inv(s) && c in s.calls && s.calls[c].ClaimDelete?
    requires Hits(s.rows, s.calls[c].id, Stopped, s.calls[c].container)
    requires var pc := s.calls[c];
             pc' == if pc.container.Some? then RemoveContainer(pc.id, pc.container.value)
                    else EraseRow(pc.id, None, false, false)
    ensures Inv(DoClaim(s, c))
  {
    var pc := s.calls[c];
    Unclaimed(s, pc.id);
    assert RowOk(s, pc.id);
    Moved(s, DoClaim(s, c), c, pc.id, Stopping, pc');
  }

  lemma KeepsClaimDelete(s: State, c: CallId)
    requires Inv(s) && c in s.calls && s.calls[c].ClaimDelete?
    ensures Inv(DoClaim(s, c))
  {
    if Hits(s.rows, s.calls[c].id, Stopped, s.calls[c].container) {
      KeepsWonDelete(s, c, DoClaim(s, c).calls[c]);
    } else {
      Quiet(s, DoClaim(s, c), c);
    }
  }

  /** The holder of a row is the only one, and its container carries the row's label. */
  lemma HolderFacts(s: State, c: CallId)
    requires Inv(s) && c in s.calls && HoldOf(s.calls[c]).Held?
    ensures var h := HoldOf(s.calls[c]);
            && Unheld(s.calls, c, h.id)
            && h.id in s.rows
            && PcOk(s, s.calls[c])
            && RowOk(s, h.id)
            && s.boot.None?
  {
  }

  lemma KeepsDockerCreate(s: State, c: CallId, reply: Reply, cid: ContainerId)
    requires Inv(s) && c in s.calls && s.calls[c].CreateContainer? && CanCreate(s, reply, cid)
    ensures Inv(DoDockerCreate(s, c, reply, cid))
  {
    var s' := DoDockerCreate(s, c, reply, cid);
    var id := s.calls[c].id;
    HolderFacts(s, c);
    forall k | k in s'.docker && s'.docker[k].server == id ensures ContainerOk(s', k) {
      if k != cid { assert ContainerOk(s, k); }
    }
    if Took(reply) {
      OneContainer(s, s', id, cid);
    } else {
      OneRow(s, s', id);
    }
    Continue(s, s', c, s'.calls[c], id);
  }

  /** Turning the container a row names on or off, for a row in a transitional status. */
  lemma LocalAfterSwitch(s: State, s': State, id: ServerId, cid: ContainerId, running: bool)
    requires Inv(s) && id in s.rows && s.rows[id].container == Some(cid)
    requires s.rows[id].status !in {Running, Stopped}
    requires cid in s.docker
    requires s'.docker == SetRunning(s.docker, cid, running)
    requires s'.rows == s.rows && s'.usedContainers == s.usedContainers
    ensures LocalOk(s', id) && s.docker[cid].server == id
  {
    assert RowOk(s, id);
    forall k | k in s'.docker && s'.docker[k].server == id ensures ContainerOk(s', k) {
      if k != cid { assert ContainerOk(s, k); }
    }
  }

  lemma LocalUnchanged(s: State, s': State, id: ServerId)
    requires Inv(s) && s'.rows == s.rows && s'.docker == s.docker && s'.usedContainers == s.usedContainers
    ensures LocalOk(s', id)
  {
    if id in s.rows { assert RowOk(s, id); }
    forall k | k in s'.docker && s'.docker[k].server == id ensures ContainerOk(s', k) {
      assert ContainerOk(s, k);
    }
  }

  /** Docker answers a start or stop: the container is switched or not, and the call moves to `pc`. */
  lemma KeepsSwitch(s: State, s': State, c: CallId, running: bool, took: bool, pc: Pc)
    requires Inv(s) && c in s.calls && HoldOf(s.calls[c]).Held? && HoldOf(s.calls[c]).container.Some?
    requires var h := HoldOf(s.calls[c]);
             && (took ==> h.container.value in s.docker)
             && s' == s.(docker := if took then SetRunning(s.docker, h.container.value, running) else s.docker,
                         calls := s.calls[c := pc])
             && HoldOf(pc) == h
    requires ContainerAsLeft(s'.docker, pc) && !pc.EraseAgain? && (pc.Settle? ==> pc.to in {Running, Stopped, Error})
    ensures Inv(s')
  {
    var h := HoldOf(s.calls[c]);
    HolderFacts(s, c);
    if took {
      LocalAfterSwitch(s, s', h.id, h.container.value, running);
      OneContainer(s, s', h.id, h.container.value);
    } else {
      OneRow(s, s', h.id);
      LocalUnchanged(s, s', h.id);
    }
    Continue(s, s', c, pc, h.id);
  }

  lemma KeepsFirstStart(s: State, c: CallId, reply: Reply)
    requires Inv(s) && c in s.calls && s.calls[c].CreateStart? && CanAct(s, s.calls[c].cid, reply)
    ensures Inv(DoDockerStart(s, c, reply))
  {
    var s', pc := DoDockerStart(s, c, reply), s.calls[c];
    assert PcOk(s, pc);
    KeepsSwitch(s, s', c, true, Took(reply),
                Settle(pc.id, pc.cid, Creating, if reply.Done? then Running else Error, Leave));
  }

  lemma KeepsStarted(s: State, c: CallId)
    requires Inv(s) && c in s.calls && s.calls[c].StartContainer? && s.calls[c].cid in s.docker
    ensures Inv(DoDockerStart(s, c, Done))
  {
    var pc := s.calls[c];
    assert PcOk(s, pc);
    KeepsSwitch(s, DoDockerStart(s, c, Done), c, true, true,
                Settle(pc.id, pc.cid, Starting, Running, Retry(pc.restart)));
  }

  lemma KeepsLaterStart(s: State, c: CallId, reply: Reply)
    requires Inv(s) && c in s.calls && s.calls[c].StartContainer? && CanAct(s, s.calls[c].cid, reply)
    ensures Inv(DoDockerStart(s, c, reply))
  {
    if reply.Done? {
      KeepsStarted(s, c);
    } else {
      var pc := s.calls[c];
      assert PcOk(s, pc);
      KeepsSwitch(s, DoDockerStart(s, c, reply), c, true, Took(reply),
                  Settle(pc.id, pc.cid, Starting, if reply.Unreached? then Error else Stopped,
                         if pc.restart then Catch else Leave));
    }
  }

  lemma KeepsDockerStart(s: State, c: CallId, reply: Reply)
    requires Inv(s) && c in s.calls && (s.calls[c].CreateStart? || s.calls[c].StartContainer?)
    requires CanAct(s, s.calls[c].cid, reply)
    ensures Inv(DoDockerStart(s, c, reply))
  {
    if s.calls[c].CreateStart? {
      KeepsFirstStart(s, c, reply);
    } else {
      KeepsLaterStart(s, c, reply);
    }
  }

  lemma KeepsDockerStop(s: State, c: CallId, reply: Reply)
    requires Inv(s) && c in s.calls && s.calls[c].StopContainer? && CanAct(s, s.calls[c].cid, reply)
    ensures Inv(DoDockerStop(s, c, reply))
  {
    var s' := DoDockerStop(s, c, reply);
    assert PcOk(s, s.calls[c]);
    KeepsSwitch(s, s', c, false, Took(reply), s'.calls[c]);
  }

  lemma LocalAfterRemove(s: State, s': State, id: ServerId, cid: ContainerId)
    requires Inv(s) && id in s.rows && s.rows[id].container == Some(cid)
    requires s.rows[id].status != Running && !Runs(s.docker, cid)
    requires s' == s.(docker := s.docker - {cid}, calls := s'.calls)
    ensures LocalOk(s', id) && SameElsewhere(s, s', id)
  {
    assert RowOk(s, id);
    forall k | k in s'.docker && s'.docker[k].server == id ensures ContainerOk(s', k) {
      assert ContainerOk(s, k);
    }
    OneContainer(s, s', id, cid);
  }

  lemma KeepsRemoved(s: State, c: CallId, reply: Reply)
    requires Inv(s) && c in s.calls && s.calls[c].RemoveContainer? && Took(reply) && !Runs(s.docker, s.calls[c].cid)
    ensures Inv(DoDockerRemove(s, c, reply))
  {
    var s', pc := DoDockerRemove(s, c, reply), s.calls[c];
    HolderFacts(s, c);
    LocalAfterRemove(s, s', pc.id, pc.cid);
    Continue(s, s', c, s'.calls[c], pc.id);
  }

  lemma KeepsDockerRemove(s: State, c: CallId, reply: Reply)
    requires Inv(s) && c in s.calls && s.calls[c].RemoveContainer? && CanRemove(s, s.calls[c].cid, reply)
    ensures Inv(DoDockerRemove(s, c, reply))
  {
    if Took(reply) {
      KeepsRemoved(s, c, reply);
    } else {
      HolderFacts(s, c);
      Quiet(s, DoDockerRemove(s, c, reply), c);
    }
  }

  lemma KeepsStore(s: State, c: CallId)
    requires Inv(s) && c in s.calls && (s.calls[c].ClaimContainer? || s.calls[c].Adopt? || s.calls[c].Discard?)
    ensures Inv(DoStore(s, c))
  {
    var s' := DoStore(s, c);
    var pc := s.calls[c];
    HolderFacts(s, c);
    forall k | k in s'.docker && s'.docker[k].server == pc.id ensures ContainerOk(s', k) {
      assert ContainerOk(s, k);
    }
    OneRow(s, s', pc.id);
    if pc.ClaimContainer? {
      Continue(s, s', c, s'.calls[c], pc.id);
    } else {
      Finish(s, s', c, pc.id);
    }
  }

  lemma KeepsErase(s: State, c: CallId)
    requires Inv(s) && c in s.calls && (s.calls[c].EraseRow? || s.calls[c].EraseAgain?)
    ensures Inv(DoErase(s, c))
  {
    var s' := DoErase(s, c);
    var pc := s.calls[c];
    assert PcOk(s, pc);
    if pc.EraseRow? {
      HolderFacts(s, c);
      forall k | k in s'.docker && s'.docker[k].server == pc.id ensures ContainerOk(s', k) {
        assert ContainerOk(s, k);
      }
      OneRow(s, s', pc.id);
      if pc.again {
        Continue(s, s', c, EraseAgain(pc.id), pc.id);
      } else {
        Finish(s, s', c, pc.id);
      }
    } else {
      Quiet(s, s', c);
    }
  }

  lemma SettleHits(s: State, c: CallId)
    requires Inv(s) && c in s.calls && s.calls[c].Settle?
    ensures s.calls[c].id in s.rows && MaySettle(s, s.calls[c].id, s.calls[c].to)
    ensures var pc := s.calls[c];
            DoSettle(s, c).rows == s.rows[pc.id := s.rows[pc.id].(status := pc.to)]
  {
    HolderFacts(s, c);
  }

  /** The outer catch that follows an inner settle relies on nothing. */
  lemma CaughtSettle(s: State, c: CallId)
    requires Inv(s) && c in s.calls && s.calls[c].Settle? && s.calls[c].after.Catch?
    ensures var pc := s.calls[c];
            && pc.id in s.rows
            && DoSettle(s, c) == s.(rows := s.rows[pc.id := s.rows[pc.id].(status := pc.to)],
                                    calls := s.calls[c := OuterCatch(pc.id, pc.cid, false)])
            && PcOk(DoSettle(s, c), OuterCatch(pc.id, pc.cid, false))
  {
    SettleHits(s, c);
  }

  lemma KeepsSettleThenCatch(s: State, c: CallId)
    requires Inv(s) && c in s.calls && s.calls[c].Settle? && s.calls[c].after.Catch?
    ensures Inv(DoSettle(s, c))
  {
    var pc := s.calls[c];
    CaughtSettle(s, c);
    SettleHits(s, c);
    HolderFacts(s, c);
    Moved(s, DoSettle(s, c), c, pc.id, pc.to, OuterCatch(pc.id, pc.cid, false));
  }

  lemma KeepsSettle(s: State, c: CallId)
    requires Inv(s) && c in s.calls && s.calls[c].Settle?
    ensures Inv(DoSettle(s, c))
  {
    if s.calls[c].after.Catch? {
      KeepsSettleThenCatch(s, c);
    } else {
      SettleHits(s, c);
      HolderFacts(s, c);
      MovedLast(s, DoSettle(s, c), c, s.calls[c].id, s.calls[c].to);
    }
  }

  lemma KeepsCatch(s: State, c: CallId)
    requires Inv(s) && c in s.calls && s.calls[c].OuterCatch? && Harmless(s, CatchRow(c))
    ensures Inv(DoCatch(s, c))
  {
    var s' := DoCatch(s, c);
    var pc := s.calls[c];
    assert PcOk(s, pc);
    if Hits(s.rows, pc.id, Stopping, Some(pc.cid)) {
      if pc.claimed {
        HolderFacts(s, c);
      }
      MovedLast(s, s', c, pc.id, Stopped);
    } else {
      Quiet(s, s', c);
    }
  }

  lemma KeepsBoot(s: State, answers: Answers)
    requires Inv(s) && Truthful(s.docker, answers)
    ensures Inv(DoBoot(s, answers))
  {
    var s' := DoBoot(s, answers);
    forall i | i in s'.rows ensures RowOk(s', i) { assert RowOk(s, i); }
    forall k | k in s'.docker ensures ContainerOk(s', k) { assert ContainerOk(s, k); }
    forall id | id in s'.boot.value ensures PendingOk(s', id, s'.boot.value[id]) {
      PlannedOk(s, answers, id);
    }
  }

  lemma PlannedOk(s: State, answers: Answers, id: ServerId)
    requires Inv(s) && Truthful(s.docker, answers) && id in Plan(s.rows, answers)
    ensures PendingOk(DoBoot(s, answers), id, Plan(s.rows, answers)[id])
  {
    var row := s.rows[id];
    assert RowOk(s, id);
    assert TruthfulLookup(s.docker, id, answers.lookup(id));
    if row.container.Some? {
      assert TruthfulInspect(s.docker, row.container.value, answers.inspect(row.container.value));
    }
    forall k | k in s.docker && s.docker[k] == Container(id, true)
      ensures Plan(s.rows, answers)[id].container == Some(k)
    {
      assert ContainerOk(s, k);
    }
  }

  lemma KeepsBootWrite(s: State, id: ServerId)
    requires Inv(s) && s.boot.Some? && id in s.boot.value
    ensures Inv(DoBootWrite(s, id))
  {
    var s' := DoBootWrite(s, id);
    assert PendingOk(s, id, s.boot.value[id]);
    forall i | i in s'.rows ensures RowOk(s', i) {
      assert RowOk(s, i);
    }
    forall k | k in s'.docker ensures ContainerOk(s', k) { assert ContainerOk(s, k); }
    forall i | i in s'.boot.value ensures PendingOk(s', i, s'.boot.value[i]) {
      assert PendingOk(s, i, s.boot.value[i]);
    }
  }

  lemma KeepsBootDone(s: State)
    requires Inv(s) && s.boot == Some(map[])
    ensures Inv(s.(boot := None))
  {
    var s' := s.(boot := None);
    forall i | i in s'.rows ensures RowOk(s', i) { assert RowOk(s, i); }
    forall k | k in s'.docker ensures ContainerOk(s', k) { assert ContainerOk(s, k); }
  }

  lemma KeepsDatabaseStep(s: State, step: Step)
    requires Inv(s) && Enabled(s, step) && Harmless(s, step)
    requires step.Insert? || step.Claim? || step.Store? || step.Erase? || step.SettleRow? || step.CatchRow?
             || step.Boot? || step.BootWrite? || step.BootDone?
    ensures Inv(Next(s, step))
  {
    match step
    case Insert(c, id) => KeepsInsert(s, c, id);
    case Claim(c) =>
      if s.calls[c].StartCounted? { KeepsClaimStart(s, c); }
      else if s.calls[c].ClaimStop? { KeepsClaimStop(s, c); }
      else { KeepsClaimDelete(s, c); }
    case Store(c) => KeepsStore(s, c);
    case Erase(c) => KeepsErase(s, c);
    case SettleRow(c) => KeepsSettle(s, c);
    case CatchRow(c) => KeepsCatch(s, c);
    case Boot(answers) => KeepsBoot(s, answers);
    case BootWrite(id) => KeepsBootWrite(s, id);
    case BootDone => KeepsBootDone(s);
  }

  lemma KeepsDockerStep(s: State, step: Step)
    requires Inv(s) && Enabled(s, step)
    requires step.DockerCreate? || step.DockerStart? || step.DockerStop? || step.DockerRemove?
             || step.DockerInspect? || step.DockerFind?
    ensures Inv(Next(s, step))
  {
    match step
    case DockerCreate(c, reply, cid) => KeepsDockerCreate(s, c, reply, cid);
    case DockerStart(c, reply) => KeepsDockerStart(s, c, reply);
    case DockerStop(c, reply) => KeepsDockerStop(s, c, reply);
    case DockerRemove(c, reply) => KeepsDockerRemove(s, c, reply);
    case DockerInspect(c, a) => KeepsInspect(s, c, a);
    case DockerFind(c, a) => KeepsFind(s, c, a);
  }

  lemma KeepsOtherStep(s: State, step: Step)
    requires Inv(s) && Enabled(s, step)
    requires step.BeginCreate? || step.BeginStart? || step.BeginStop? || step.BeginDelete? || step.Acquire?
             || step.Count? || step.Refuse? || step.MeasureHost? || step.Fault? || step.EraseFault? || step.Abandon?
    ensures Inv(Next(s, step))
  {
    match step
    case Acquire(c) => KeepsAcquire(s, c);
    case Count(c) => KeepsCount(s, c);
    case Refuse(c) => KeepsRefuse(s, c);
    case MeasureHost(c, measured) => KeepsMeasure(s, c, measured);
    case Fault(c) => KeepsFault(s, c);
    case EraseFault(c) => KeepsEraseFault(s, c);
    case Abandon(c) => KeepsAbandon(s, c);
    case BeginCreate(c, memory, total) => KeepsBegin(s, c, CreateQueued(memory, total));
    case BeginStart(c, id, total) => KeepsBegin(s, c, DoBeginStart(s, c, id, total).calls[c]);
    case BeginStop(c, id, restart) => KeepsBegin(s, c, DoBeginStop(s, c, id, restart).calls[c]);
    case BeginDelete(c, id) => KeepsBegin(s, c, ClaimDelete(id, s.rows[id].container));
  }

  lemma Keeps(s: State, step: Step)
    requires Inv(s) && Enabled(s, step) && Harmless(s, step)
    ensures Inv(Next(s, step))
  {
    if step.Insert? || step.Claim? || step.Store? || step.Erase? || step.SettleRow? || step.CatchRow?
       || step.Boot? || step.BootWrite? || step.BootDone? {
      KeepsDatabaseStep(s, step);
    } else if step.DockerCreate? || step.DockerStart? || step.DockerStop? || step.DockerRemove?
              || step.DockerInspect? || step.DockerFind? {
      KeepsDockerStep(s, step);
    } else {
      KeepsOtherStep(s, step);
    }
  }
}
