/**
 Create, start, stop, restart and delete as interleaved steps over one table of server rows.

 One step is one committed statement or transaction, or one answer from Docker. An UPDATE and the commit that
 publishes it are one step: the row lock keeps other writers out in between, and every reader of the memory
 sum holds the advisory lock. A call that is refused by its first read takes no step at all.
 */
module Lifecycle {
  import opened Wrappers
  import opened Servers
  import opened Reconciliation

  type CallId = nat

  /** What a call does after its settling compare-and-set. */
  datatype After =
    | Leave                  // return or throw, whether or not the row matched
    | Catch                  // fall into restart's outer catch
    | Retry(catching: bool)  // return when it matched; else settle STARTING to ERROR and throw

  /** Where a call is: the step it will take next, with the values it has read so far. */
  datatype Pc =
    | CreateQueued(memory: Megabytes, totalRam: nat)
    | CreateLocked(memory: Megabytes, totalRam: nat)
    | CreateCounted(memory: Megabytes, totalRam: nat, inUse: nat)
    | CreateContainer(id: ServerId)
    | ClaimContainer(id: ServerId, cid: ContainerId)
    | CreateStart(id: ServerId, cid: ContainerId)
    | Compensate(id: ServerId)
    | Adopt(id: ServerId, cid: ContainerId)
    | Discard(id: ServerId)
    | StartQueued(id: ServerId, cid: ContainerId, memory: Megabytes, totalRam: nat, restart: bool)
    | StartLocked(id: ServerId, cid: ContainerId, memory: Megabytes, totalRam: nat, restart: bool)
    | StartCounted(id: ServerId, cid: ContainerId, memory: Megabytes, totalRam: nat, restart: bool, inUse: nat)
    | StartContainer(id: ServerId, cid: ContainerId, restart: bool)
    | ClaimStop(id: ServerId, cid: ContainerId, memory: Megabytes, restart: bool)
    | StopContainer(id: ServerId, cid: ContainerId, memory: Megabytes, restart: bool)
    | Measure(id: ServerId, cid: ContainerId, memory: Megabytes)
    | ClaimDelete(id: ServerId, container: Option<ContainerId>)
    | RemoveContainer(id: ServerId, cid: ContainerId)
    | InspectRemoved(id: ServerId, cid: ContainerId)
    | EraseRow(id: ServerId, container: Option<ContainerId>, again: bool, caught: bool)
    | EraseAgain(id: ServerId)
    | Settle(id: ServerId, cid: ContainerId, from: Status, to: Status, after: After)
    | OuterCatch(id: ServerId, cid: ContainerId, claimed: bool)

  /** A write that boot reconciliation has decided on, over the row it read. */
  datatype Pending = Pending(before: Row, status: Status, container: Option<ContainerId>)

  datatype State = State(
    rows: Rows,
    docker: Docker,
    lock: Option<CallId>,
    calls: map<CallId, Pc>,
    boot: Option<map<ServerId, Pending>>,  // Some while a starting backend reconciles
    ratio: real,
    usedIds: set<ServerId>,                // server ids are never reused,
    usedContainers: set<ContainerId>       // and neither are container ids
  )

  /** An answer of the Docker service; only an unavailable daemon leaves the effect in doubt. */
  datatype Reply = Done | Unreached(effect: bool) | NotFound | Rejected

  datatype Step =
    | BeginCreate(c: CallId, memory: Megabytes, totalRam: nat)
    | BeginStart(c: CallId, id: ServerId, totalRam: nat)
    | BeginStop(c: CallId, id: ServerId, restart: bool)
    | BeginDelete(c: CallId, id: ServerId)
    | Acquire(c: CallId)
    | Count(c: CallId)
    | Refuse(c: CallId)
    | Insert(c: CallId, id: ServerId)
    | Claim(c: CallId)
    | DockerCreate(c: CallId, reply: Reply, cid: ContainerId)
    | DockerStart(c: CallId, reply: Reply)
    | DockerStop(c: CallId, reply: Reply)
    | DockerRemove(c: CallId, reply: Reply)
    | DockerInspect(c: CallId, inspected: InspectAnswer)
    | DockerFind(c: CallId, found: LookupAnswer)
    | Store(c: CallId)                                  // claimContainerId, or the writes of compensation
    | Erase(c: CallId)
    | MeasureHost(c: CallId, measured: Option<nat>)
    | SettleRow(c: CallId)
    | CatchRow(c: CallId)
    | Fault(c: CallId)                                  // a database failure inside restart's try block
    | EraseFault(c: CallId)                             // a database failure inside a delete's try block
    | Abandon(c: CallId)                                // any other failure that ends the call, or its process
    | Boot(answers: Answers)
    | BootWrite(id: ServerId)
    | BootDone

  ghost predicate Init(s: State) {
    s.rows == map[] && s.docker == map[] && s.lock == None && s.calls == map[] && s.boot == None
    && s.usedIds == {} && s.usedContainers == {} && 0.0 < s.ratio <= 1.0
  }

  function Goto(s: State, c: CallId, pc: Pc): State {
    s.(calls := s.calls[c := pc])
  }

  function End(s: State, c: CallId): State {
    s.(calls := s.calls - {c})
  }

  /** The statuses counted by a start: every row but the stopped ones and the one being started. */
  ghost function Unstopped(rows: Rows): (r: set<ServerId>)
    ensures r <= rows.Keys
  {
    set i | i in rows && rows[i].status != Stopped
  }

  // ---- begin

  predicate CanBegin(s: State, c: CallId) {
    s.boot == None && c !in s.calls
  }

  predicate Startable(s: State, id: ServerId) {
    id in s.rows && s.rows[id].status == Stopped && s.rows[id].container.Some?
  }

  predicate Stoppable(s: State, id: ServerId) {
    id in s.rows && s.rows[id].status == Running && s.rows[id].container.Some?
  }

  function DoBeginStart(s: State, c: CallId, id: ServerId, totalRam: nat): State
    requires Startable(s, id)
  {
    Goto(s, c, StartQueued(id, s.rows[id].container.value, s.rows[id].memory, totalRam, false))
  }

  function DoBeginStop(s: State, c: CallId, id: ServerId, restart: bool): State
    requires Stoppable(s, id)
  {
    Goto(s, c, ClaimStop(id, s.rows[id].container.value, s.rows[id].memory, restart))
  }

  // ---- the advisory lock: acquire, read the sum, then refuse or commit

  function DoAcquire(s: State, c: CallId): State
    requires c in s.calls && (s.calls[c].CreateQueued? || s.calls[c].StartQueued?)
  {
    match s.calls[c]
    case CreateQueued(memory, total) => Goto(s.(lock := Some(c)), c, CreateLocked(memory, total))
    case StartQueued(id, cid, memory, total, restart) =>
      Goto(s.(lock := Some(c)), c, StartLocked(id, cid, memory, total, restart))
  }

  ghost function DoCount(s: State, c: CallId): State
    requires c in s.calls && (s.calls[c].CreateLocked? || s.calls[c].StartLocked?)
  {
    match s.calls[c]
    case CreateLocked(memory, total) =>
      Goto(s, c, CreateCounted(memory, total, Memory(s.rows, s.rows.Keys)))
    case StartLocked(id, cid, memory, total, restart) =>
      Goto(s, c, StartCounted(id, cid, memory, total, restart, Memory(s.rows, Unstopped(s.rows) - {id})))
  }

  /** Admission passed: the check runs on the sum that was read under the lock. */
  predicate Admitted(s: State, pc: Pc)
    requires pc.CreateCounted? || pc.StartCounted?
  {
    Admits(pc.totalRam, s.ratio, pc.memory, pc.inUse)
  }

  function DoRefuse(s: State, c: CallId): State
    requires c in s.calls
  {
    var pc := s.calls[c];
    if pc.StartCounted? && pc.restart then Goto(s.(lock := None), c, OuterCatch(pc.id, pc.cid, true))
    else End(s.(lock := None), c)
  }

  function DoInsert(s: State, c: CallId, id: ServerId): State
    requires c in s.calls && s.calls[c].CreateCounted?
  {
    Goto(s.(lock := None, usedIds := s.usedIds + {id}, rows := s.rows[id := Row(Creating, None, s.calls[c].memory)]),
         c, CreateContainer(id))
  }

  // ---- claims: the compare-and-sets that make a call the owner of a row

  function DoClaim(s: State, c: CallId): State
    requires c in s.calls && (s.calls[c].StartCounted? || s.calls[c].ClaimStop? || s.calls[c].ClaimDelete?)
  {
    match s.calls[c]
    case StartCounted(id, cid, _, _, restart, _) =>
      var from := if restart then Stopping else Stopped;
      var s' := s.(lock := None, rows := Transition(s.rows, id, from, Starting, Some(cid)));
      if Hits(s.rows, id, from, Some(cid)) then Goto(s', c, StartContainer(id, cid, restart))
      else if restart then Goto(s', c, OuterCatch(id, cid, false))
      else End(s', c)
    case ClaimStop(id, cid, memory, restart) =>
      var s' := s.(rows := Transition(s.rows, id, Running, Stopping, Some(cid)));
      if Hits(s.rows, id, Running, Some(cid)) then Goto(s', c, StopContainer(id, cid, memory, restart)) else End(s', c)
    case ClaimDelete(id, container) =>
      var s' := s.(rows := Transition(s.rows, id, Stopped, Stopping, container));
      if !Hits(s.rows, id, Stopped, container) then End(s', c)
      else if container.Some? then Goto(s', c, RemoveContainer(id, container.value))
      else Goto(s', c, EraseRow(id, container, false, false))
  }

  // ---- Docker

  /** A created container is new, stopped, and labelled with its server. */
  predicate CanCreate(s: State, reply: Reply, cid: ContainerId) {
    !reply.NotFound? && cid !in s.usedContainers
  }

  function DoDockerCreate(s: State, c: CallId, reply: Reply, cid: ContainerId): State
    requires c in s.calls && s.calls[c].CreateContainer?
  {
    var id := s.calls[c].id;
    var created := s.(docker := s.docker[cid := Container(id, false)], usedContainers := s.usedContainers + {cid});
    match reply
    case Done => Goto(created, c, ClaimContainer(id, cid))
    case Unreached(effect) => Goto(if effect then created else s, c, Compensate(id))
    case _ => Goto(s, c, Compensate(id))
  }

  /** Docker acts on, and reports as missing, only what is there. */
  predicate CanAct(s: State, cid: ContainerId, reply: Reply) {
    && (reply.Done? || (reply.Unreached? && reply.effect) ==> cid in s.docker)
    && (reply.NotFound? ==> cid !in s.docker)
  }

  function Took(reply: Reply): bool {
    reply.Done? || (reply.Unreached? && reply.effect)
  }

  function SetRunning(docker: Docker, cid: ContainerId, running: bool): Docker
    requires cid in docker
  {
    docker[cid := docker[cid].(running := running)]
  }

  function DoDockerStart(s: State, c: CallId, reply: Reply): State
    requires c in s.calls && (s.calls[c].CreateStart? || s.calls[c].StartContainer?)
    requires CanAct(s, s.calls[c].cid, reply)
  {
    var pc := s.calls[c];
    var s' := if Took(reply) then s.(docker := SetRunning(s.docker, pc.cid, true)) else s;
    if pc.CreateStart? then
      Goto(s', c, Settle(pc.id, pc.cid, Creating, if reply.Done? then Running else Error, Leave))
    else if reply.Done? then
      Goto(s', c, Settle(pc.id, pc.cid, Starting, Running, Retry(pc.restart)))
    else
      Goto(s', c, Settle(pc.id, pc.cid, Starting, if reply.Unreached? then Error else Stopped,
                         if pc.restart then Catch else Leave))
  }

  function DoDockerStop(s: State, c: CallId, reply: Reply): State
    requires c in s.calls && s.calls[c].StopContainer? && CanAct(s, s.calls[c].cid, reply)
  {
    var pc := s.calls[c];
    var s' := if Took(reply) then s.(docker := SetRunning(s.docker, pc.cid, false)) else s;
    match reply
    case Done =>
      if pc.restart then Goto(s', c, Measure(pc.id, pc.cid, pc.memory))
      else Goto(s', c, Settle(pc.id, pc.cid, Stopping, Stopped, Leave))
    case Unreached(_) => Goto(s', c, Settle(pc.id, pc.cid, Stopping, Error, Leave))
    case NotFound => Goto(s', c, Settle(pc.id, pc.cid, Stopping, Stopped, Leave))
    case Rejected => Goto(s', c, Settle(pc.id, pc.cid, Stopping, Running, Leave))
  }

  /** A remove without force takes only a container that does not run; a missing one counts as removed. */
  predicate CanRemove(s: State, cid: ContainerId, reply: Reply) {
    !reply.NotFound? && (Took(reply) ==> !Runs(s.docker, cid))
  }

  function DoDockerRemove(s: State, c: CallId, reply: Reply): State
    requires c in s.calls && s.calls[c].RemoveContainer?
  {
    var pc := s.calls[c];
    var s' := if Took(reply) then s.(docker := s.docker - {pc.cid}) else s;
    if reply.Done? then Goto(s', c, EraseRow(pc.id, Some(pc.cid), false, false))
    else Goto(s', c, InspectRemoved(pc.id, pc.cid))
  }

  predicate TruthfulInspect(docker: Docker, cid: ContainerId, answer: InspectAnswer) {
    && (answer.Found? ==> answer.id == cid && cid in docker && docker[cid].running == answer.running)
    && (answer.Missing? ==> cid !in docker)
  }

  predicate TruthfulLookup(docker: Docker, id: ServerId, answer: LookupAnswer) {
    && (answer.Managed? ==> answer.id in docker && docker[answer.id] == Container(id, answer.running))
    && (answer.NoContainer? ==> forall k | k in docker :: docker[k].server != id)
  }

  function DoDockerInspect(s: State, c: CallId, answer: InspectAnswer): State
    requires c in s.calls && s.calls[c].InspectRemoved?
  {
    var pc := s.calls[c];
    if answer.Missing? || (answer.Found? && !answer.running)
    then Goto(s, c, EraseRow(pc.id, Some(pc.cid), true, answer.Found?))
    else Goto(s, c, Settle(pc.id, pc.cid, Stopping, Error, Leave))
  }

  function DoDockerFind(s: State, c: CallId, answer: LookupAnswer): State
    requires c in s.calls && s.calls[c].Compensate?
  {
    var id := s.calls[c].id;
    match answer
    case LookupUnreachable => End(s, c)
    case Managed(cid, _) => Goto(s, c, Adopt(id, cid))
    case NoContainer => Goto(s, c, Discard(id))
  }

  // ---- writes of the owner

  function DoStore(s: State, c: CallId): State
    requires c in s.calls && (s.calls[c].ClaimContainer? || s.calls[c].Adopt? || s.calls[c].Discard?)
  {
    match s.calls[c]
    case ClaimContainer(id, cid) =>
      if Hits(s.rows, id, Creating, None) then
        Goto(s.(rows := s.rows[id := s.rows[id].(container := Some(cid))]), c, CreateStart(id, cid))
      else Goto(s, c, Compensate(id))
    case Adopt(id, cid) =>
      if id in s.rows && s.rows[id].status == Creating then
        End(s.(rows := s.rows[id := s.rows[id].(status := Error, container := Some(cid))]), c)
      else End(s, c)
    case Discard(id) =>
      if id in s.rows && s.rows[id].status == Creating then End(s.(rows := s.rows - {id}), c) else End(s, c)
  }

  function DoErase(s: State, c: CallId): State
    requires c in s.calls && (s.calls[c].EraseRow? || s.calls[c].EraseAgain?)
  {
    var pc := s.calls[c];
    var s' := if pc.id in s.rows && s.rows[pc.id].status == Stopping then s.(rows := s.rows - {pc.id}) else s;
    if pc.EraseRow? && pc.again then Goto(s', c, EraseAgain(pc.id)) else End(s', c)
  }

  /** The delete of a row whose container was seen stopped is inside the `try`: its failure settles the row as ERROR. */
  predicate EraseIsCaught(pc: Pc) {
    pc.EraseRow? && pc.caught && pc.container.Some?
  }

  function DoEraseFault(s: State, c: CallId): State
    requires c in s.calls && EraseIsCaught(s.calls[c])
  {
    var pc := s.calls[c];
    Goto(s, c, Settle(pc.id, pc.container.value, Stopping, Error, Leave))
  }

  function DoMeasure(s: State, c: CallId, measured: Option<nat>): State
    requires c in s.calls && s.calls[c].Measure?
  {
    var pc := s.calls[c];
    match measured
    case None => Goto(s, c, OuterCatch(pc.id, pc.cid, true))
    case Some(total) => Goto(s, c, StartQueued(pc.id, pc.cid, pc.memory, total, true))
  }

  function DoSettle(s: State, c: CallId): State
    requires c in s.calls && s.calls[c].Settle?
  {
    var pc := s.calls[c];
    var s' := s.(rows := Transition(s.rows, pc.id, pc.from, pc.to, Some(pc.cid)));
    match pc.after
    case Leave => End(s', c)
    case Catch => Goto(s', c, OuterCatch(pc.id, pc.cid, false))
    case Retry(catching) =>
      if Hits(s.rows, pc.id, pc.from, Some(pc.cid)) then End(s', c)
      else Goto(s', c, Settle(pc.id, pc.cid, Starting, Error, if catching then Catch else Leave))
  }

  /** Restart's outer catch: a second settle, also after an inner settle gave the row up. */
  function DoCatch(s: State, c: CallId): State
    requires c in s.calls && s.calls[c].OuterCatch?
  {
    var pc := s.calls[c];
    End(s.(rows := Transition(s.rows, pc.id, Stopping, Stopped, Some(pc.cid))), c)
  }

  predicate InTryBlock(pc: Pc) {
    || pc.Measure?
    || (pc.StartQueued? && pc.restart)
    || (pc.StartLocked? && pc.restart)
    || (pc.StartCounted? && pc.restart)
    || (pc.Settle? && (pc.after.Catch? || (pc.after.Retry? && pc.after.catching)))
  }

  /** The transaction rolls back and control reaches the outer catch. */
  function DoFault(s: State, c: CallId): State
    requires c in s.calls && InTryBlock(s.calls[c])
  {
    var pc := s.calls[c];
    Goto(if s.lock == Some(c) then s.(lock := None) else s, c, OuterCatch(pc.id, pc.cid, !pc.Settle?))
  }

  function DoAbandon(s: State, c: CallId): State {
    End(if s.lock == Some(c) then s.(lock := None) else s, c)
  }

  // ---- boot

  ghost predicate Truthful(docker: Docker, answers: Answers) {
    && (forall k: ContainerId :: TruthfulInspect(docker, k, answers.inspect(k)))
    && (forall i: ServerId :: TruthfulLookup(docker, i, answers.lookup(i)))
  }

  ghost predicate SomeUnavailable(rows: Rows, answers: Answers) {
    exists i | i in Unstopped(rows) :: ReconcileRow(i, rows[i], answers).Unavailable?
  }

  /** A boot ends every call of the dead process and decides what to write; nothing if Docker is unavailable. */
  ghost function Plan(rows: Rows, answers: Answers): map<ServerId, Pending> {
    if SomeUnavailable(rows, answers) then map[]
    else map i | i in Unstopped(rows) && ReconcileRow(i, rows[i], answers).Settled? ::
           var o := ReconcileRow(i, rows[i], answers); Pending(rows[i], o.status, o.container)
  }

  ghost function DoBoot(s: State, answers: Answers): State {
    s.(calls := map[], lock := None, boot := Some(Plan(s.rows, answers)))
  }

  function DoBootWrite(s: State, id: ServerId): State
    requires s.boot.Some? && id in s.boot.value
  {
    var p := s.boot.value[id];
    var s' := s.(boot := Some(s.boot.value - {id}));
    if Hits(s.rows, id, p.before.status, p.before.container) then
      s'.(rows := s.rows[id := s.rows[id].(status := p.status, container := p.container)])
    else s'
  }

  // ---- the step relation

  ghost predicate Enabled(s: State, step: Step) {
    match step
    case BeginCreate(c, _, _) => CanBegin(s, c)
    case BeginStart(c, id, _) => CanBegin(s, c) && Startable(s, id)
    case BeginStop(c, id, _) => CanBegin(s, c) && Stoppable(s, id)
    case BeginDelete(c, id) => CanBegin(s, c) && id in s.rows && s.rows[id].status == Stopped
    case Acquire(c) => c in s.calls && s.lock == None && (s.calls[c].CreateQueued? || s.calls[c].StartQueued?)
    case Count(c) => c in s.calls && (s.calls[c].CreateLocked? || s.calls[c].StartLocked?)
    case Refuse(c) =>
      c in s.calls && (s.calls[c].CreateCounted? || s.calls[c].StartCounted?) && !Admitted(s, s.calls[c])
    case Insert(c, id) => c in s.calls && s.calls[c].CreateCounted? && Admitted(s, s.calls[c]) && id !in s.usedIds
    case Claim(c) =>
      && c in s.calls
      && (s.calls[c].ClaimStop? || s.calls[c].ClaimDelete? || (s.calls[c].StartCounted? && Admitted(s, s.calls[c])))
    case DockerCreate(c, reply, cid) => c in s.calls && s.calls[c].CreateContainer? && CanCreate(s, reply, cid)
    case DockerStart(c, reply) =>
      c in s.calls && (s.calls[c].CreateStart? || s.calls[c].StartContainer?) && CanAct(s, s.calls[c].cid, reply)
    case DockerStop(c, reply) => c in s.calls && s.calls[c].StopContainer? && CanAct(s, s.calls[c].cid, reply)
    case DockerRemove(c, reply) => c in s.calls && s.calls[c].RemoveContainer? && CanRemove(s, s.calls[c].cid, reply)
    case DockerInspect(c, a) =>
      c in s.calls && s.calls[c].InspectRemoved? && TruthfulInspect(s.docker, s.calls[c].cid, a)
    case DockerFind(c, a) => c in s.calls && s.calls[c].Compensate? && TruthfulLookup(s.docker, s.calls[c].id, a)
    case Store(c) => c in s.calls && (s.calls[c].ClaimContainer? || s.calls[c].Adopt? || s.calls[c].Discard?)
    case Erase(c) => c in s.calls && (s.calls[c].EraseRow? || s.calls[c].EraseAgain?)
    case MeasureHost(c, _) => c in s.calls && s.calls[c].Measure?
    case SettleRow(c) => c in s.calls && s.calls[c].Settle?
    case CatchRow(c) => c in s.calls && s.calls[c].OuterCatch?
    case Fault(c) => c in s.calls && InTryBlock(s.calls[c])
    case EraseFault(c) => c in s.calls && EraseIsCaught(s.calls[c])
    case Abandon(c) => c in s.calls
    case Boot(answers) => Truthful(s.docker, answers)
    case BootWrite(id) => s.boot.Some? && id in s.boot.value
    case BootDone => s.boot == Some(map[])
  }

  ghost function Next(s: State, step: Step): State
    requires Enabled(s, step)
  {
    match step
    case BeginCreate(c, memory, total) => Goto(s, c, CreateQueued(memory, total))
    case BeginStart(c, id, total) => DoBeginStart(s, c, id, total)
    case BeginStop(c, id, restart) => DoBeginStop(s, c, id, restart)
    case BeginDelete(c, id) => Goto(s, c, ClaimDelete(id, s.rows[id].container))
    case Acquire(c) => DoAcquire(s, c)
    case Count(c) => DoCount(s, c)
    case Refuse(c) => DoRefuse(s, c)
    case Insert(c, id) => DoInsert(s, c, id)
    case Claim(c) => DoClaim(s, c)
    case DockerCreate(c, reply, cid) => DoDockerCreate(s, c, reply, cid)
    case DockerStart(c, reply) => DoDockerStart(s, c, reply)
    case DockerStop(c, reply) => DoDockerStop(s, c, reply)
    case DockerRemove(c, reply) => DoDockerRemove(s, c, reply)
    case DockerInspect(c, a) => DoDockerInspect(s, c, a)
    case DockerFind(c, a) => DoDockerFind(s, c, a)
    case Store(c) => DoStore(s, c)
    case Erase(c) => DoErase(s, c)
    case MeasureHost(c, measured) => DoMeasure(s, c, measured)
    case SettleRow(c) => DoSettle(s, c)
    case CatchRow(c) => DoCatch(s, c)
    case Fault(c) => DoFault(s, c)
    case EraseFault(c) => DoEraseFault(s, c)
    case Abandon(c) => DoAbandon(s, c)
    case Boot(answers) => DoBoot(s, answers)
    case BootWrite(id) => DoBootWrite(s, id)
    case BootDone => s.(boot := None)
  }

  /** A run: `states[0]` is initial and each step leads from one state to the next. */
  ghost predicate Run(states: seq<State>, steps: seq<Step>) {
    && |states| == |steps| + 1
    && Init(states[0])
    && (forall i | 0 <= i < |steps| :: Enabled(states[i], steps[i]) && states[i + 1] == Next(states[i], steps[i]))
  }
}
