/**
 Access requests, approvals and revocations on servers, as concurrent calls. Every statement commits by itself, so one
 step is one statement. A server's access type is fixed when the server is created, and server ids are never reused.
 */
module Access {
  type ServerId = nat
  type UserId = nat
  type CallId = nat
  type RowId = nat

  const MAX_RACE_RETRIES: nat := 1

  datatype AccessType = OPEN | REQUEST | PRIVATE
  datatype AccessStatus = PENDING | APPROVED

  datatype Server = Server(access: AccessType, creating: bool)

  /** `requested`: history, the row was inserted as PENDING. */
  datatype Row = Row(id: RowId, status: AccessStatus, requested: bool)

  /** At most one row for a user on a server, by the table's unique constraint. */
  datatype Pair = Pair(server: ServerId, user: UserId)

  datatype Pc =
    | InsertPending(pair: Pair, attempt: nat)
    | FindForRequest(pair: Pair, attempt: nat)
    | Reload(pair: Pair, attempt: nat)
    | ReportRequest(pair: Pair, attempt: nat)     // reads the server once more to report what happened
    | ApprovePending(pair: Pair, access: AccessType, attempt: nat)
    | FindForApproval(pair: Pair, access: AccessType, attempt: nat)
    | InsertApproved(pair: Pair, access: AccessType, attempt: nat)
    | ReportApproval(pair: Pair, access: AccessType, attempt: nat)  // reads the row once more, likewise

  datatype State = State(
    servers: map<ServerId, Server>,
    past: set<ServerId>,             // every server id ever used
    rows: map<Pair, Row>,
    nextId: RowId,
    approvals: seq<RowId>,           // history: the rows turned from PENDING to APPROVED, in order
    calls: map<CallId, Pc>
  )

  datatype Step =
    | CreateServer(server: ServerId, access: AccessType)
    | ServerReady(server: ServerId)
    | DeleteServer(server: ServerId)
    | StartRequest(call: CallId, pair: Pair)
    | StartApproval(call: CallId, pair: Pair)
    | Proceed(call: CallId)          // the call's next statement
    | Abandon(call: CallId)
    | Revoke(pair: Pair)

  ghost predicate Init(s: State) {
    s == State(map[], {}, map[], 0, [], map[])
  }

  predicate Visible(s: State, server: ServerId) {
    server in s.servers && !s.servers[server].creating
  }

  function At(s: State, c: CallId, pc: Pc): State {
    s.(calls := s.calls[c := pc])
  }

  function End(s: State, c: CallId): State {
    s.(calls := s.calls - {c})
  }

  function Insert(s: State, c: CallId, pair: Pair, status: AccessStatus): State {
    End(s, c).(rows := s.rows[pair := Row(s.nextId, status, status == PENDING)], nextId := s.nextId + 1)
  }

  /** A PENDING row becomes APPROVED. */
  function Approve(s: State, c: CallId, pair: Pair): State
    requires pair in s.rows
  {
    End(s, c).(rows := s.rows[pair := s.rows[pair].(status := APPROVED)], approvals := s.approvals + [s.rows[pair].id])
  }

  /** The next statement of a call; a call that throws or returns ends. */
  function DoProceed(s: State, c: CallId): State
    requires c in s.calls
  {
    var pc := s.calls[c];
    var pair := pc.pair;
    match pc
    case InsertPending(_, n) =>
      if pair in s.rows then At(s, c, FindForRequest(pair, n))
      else if pair.server !in s.servers then End(s, c)  // the foreign key is violated
      else Insert(s, c, pair, PENDING)
    case FindForRequest(_, n) =>
      if pair in s.rows then End(s, c)
      else At(s, c, if n >= MAX_RACE_RETRIES then ReportRequest(pair, n) else Reload(pair, n))
    case Reload(_, n) =>
      if Visible(s, pair.server) && s.servers[pair.server].access == REQUEST then At(s, c, InsertPending(pair, n + 1))
      else End(s, c)
    case ApprovePending(_, access, n) =>
      if pair in s.rows && s.rows[pair].status == PENDING then Approve(s, c, pair)
      else At(s, c, FindForApproval(pair, access, n))
    case FindForApproval(_, access, n) =>
      if pair in s.rows then
        if s.rows[pair].status == APPROVED || n >= MAX_RACE_RETRIES then End(s, c)
        else At(s, c, ApprovePending(pair, access, n + 1))
      else if access == REQUEST then End(s, c)
      else At(s, c, InsertApproved(pair, access, n))
    case InsertApproved(_, access, n) =>
      if pair in s.rows then
        At(s, c, if n >= MAX_RACE_RETRIES then ReportApproval(pair, access, n) else ApprovePending(pair, access, n + 1))
      else if pair.server !in s.servers then End(s, c)
      else Insert(s, c, pair, APPROVED)
    case ReportRequest(_, _) => End(s, c)
    case ReportApproval(_, _, _) => End(s, c)
  }

  function DoDelete(s: State, server: ServerId): State {
    s.(servers := s.servers - {server}, rows := map p | p in s.rows && p.server != server :: s.rows[p])
  }

  ghost predicate Enabled(s: State, step: Step) {
    match step
    case CreateServer(v, _) => v !in s.past
    case ServerReady(v) => v in s.servers
    case DeleteServer(v) => v in s.servers
    case StartRequest(c, p) => c !in s.calls && Visible(s, p.server) && s.servers[p.server].access == REQUEST
    case StartApproval(c, p) => c !in s.calls && Visible(s, p.server) && s.servers[p.server].access != OPEN
    case Proceed(c) => c in s.calls
    case Abandon(c) => c in s.calls
    case Revoke(p) => Visible(s, p.server)
  }

  function Effect(s: State, step: Step): State
    requires Enabled(s, step)
  {
    match step
    case CreateServer(v, access) => s.(servers := s.servers[v := Server(access, true)], past := s.past + {v})
    case ServerReady(v) => s.(servers := s.servers[v := s.servers[v].(creating := false)])
    case DeleteServer(v) => DoDelete(s, v)
    case StartRequest(c, p) => At(s, c, InsertPending(p, 0))
    case StartApproval(c, p) => At(s, c, ApprovePending(p, s.servers[p.server].access, 0))
    case Proceed(c) => DoProceed(s, c)
    case Abandon(c) => End(s, c)
    case Revoke(p) => s.(rows := s.rows - {p})
  }

  ghost predicate Run(states: seq<State>, steps: seq<Step>) {
    && |states| == |steps| + 1
    && Init(states[0])
    && (forall i | 0 <= i < |steps| :: Enabled(states[i], steps[i]) && states[i + 1] == Effect(states[i], steps[i]))
  }

  // ---- the invariant

  predicate RowOk(row: Row, access: AccessType) {
    match access
    case OPEN => false
    case REQUEST => row.requested
    case PRIVATE => row.status == APPROVED && !row.requested
  }

  /** What a call knows of its server, if the server is still there. */
  ghost predicate PcOk(servers: map<ServerId, Server>, past: set<ServerId>, pc: Pc) {
    && pc.attempt <= MAX_RACE_RETRIES
    && pc.pair.server in past
    && (pc.pair.server in servers ==>
          var access := servers[pc.pair.server].access;
          match pc
          case InsertPending(_, _) => access == REQUEST
          case FindForRequest(_, _) => access == REQUEST
          case Reload(_, _) => access == REQUEST
          case ReportRequest(_, _) => access == REQUEST
          case ApprovePending(_, a, _) => a == access && access != OPEN
          case FindForApproval(_, a, _) => a == access && access != OPEN
          case InsertApproved(_, a, _) => a == access && access == PRIVATE
          case ReportApproval(_, a, _) => a == access && access == PRIVATE)
    && (pc.Reload? ==> pc.attempt == 0)
    && (pc.ReportRequest? || pc.ReportApproval? ==> pc.attempt == MAX_RACE_RETRIES)
    && (pc.InsertApproved? ==> pc.access != REQUEST)
  }

  ghost predicate RowsOk(servers: map<ServerId, Server>, rows: map<Pair, Row>, nextId: RowId) {
    && (forall p | p in rows :: p.server in servers && RowOk(rows[p], servers[p.server].access) && rows[p].id < nextId)
    && (forall p, q | p in rows && q in rows && rows[p].id == rows[q].id :: p == q)
  }

  ghost predicate ApprovalsOk(rows: map<Pair, Row>, nextId: RowId, approvals: seq<RowId>) {
    && (forall i | 0 <= i < |approvals| :: approvals[i] < nextId)
    && (forall i, j | 0 <= i < |approvals| && 0 <= j < |approvals| && approvals[i] == approvals[j] :: i == j)
    && (forall p | p in rows :: rows[p].status == PENDING ==> rows[p].requested && rows[p].id !in approvals)
    && (forall p | p in rows :: rows[p].status == APPROVED && rows[p].requested ==> rows[p].id in approvals)
  }

  ghost predicate Inv(s: State) {
    && s.servers.Keys <= s.past
    && (forall c | c in s.calls :: PcOk(s.servers, s.past, s.calls[c]))
    && RowsOk(s.servers, s.rows, s.nextId)
    && ApprovalsOk(s.rows, s.nextId, s.approvals)
  }

  lemma InsertKeeps(s: State, c: CallId, pair: Pair, status: AccessStatus)
    requires Inv(s) && pair !in s.rows && pair.server in s.servers
    requires RowOk(Row(s.nextId, status, status == PENDING), s.servers[pair.server].access)
    ensures Inv(Insert(s, c, pair, status))
  {
  }

  lemma ApproveKeeps(s: State, c: CallId, pair: Pair)
    requires Inv(s) && pair in s.rows && s.rows[pair].status == PENDING
    ensures Inv(Approve(s, c, pair))
  {
    assert RowOk(s.rows[pair], s.servers[pair.server].access);
  }

  lemma MoveKeeps(s: State, c: CallId, pc: Pc)
    requires Inv(s) && PcOk(s.servers, s.past, pc)
    ensures Inv(At(s, c, pc))
  {
  }

  lemma ProceedKeeps(s: State, c: CallId)
    requires Inv(s) && c in s.calls
    ensures Inv(DoProceed(s, c))
  {
    var pc := s.calls[c];
    assert PcOk(s.servers, s.past, pc);
    var s' := DoProceed(s, c);
    if c in s'.calls {
      MoveKeeps(s, c, s'.calls[c]);
    } else if pc.InsertPending? && pc.pair !in s.rows && pc.pair.server in s.servers {
      InsertKeeps(s, c, pc.pair, PENDING);
    } else if pc.InsertApproved? && pc.pair !in s.rows && pc.pair.server in s.servers {
      InsertKeeps(s, c, pc.pair, APPROVED);
    } else if pc.ApprovePending? {
      ApproveKeeps(s, c, pc.pair);
    }
  }

  lemma ServersKeep(s: State, step: Step)
    requires Inv(s) && Enabled(s, step) && (step.CreateServer? || step.ServerReady? || step.DeleteServer?)
    ensures Inv(Effect(s, step))
  {
    var s' := Effect(s, step);
    forall c | c in s'.calls ensures PcOk(s'.servers, s'.past, s'.calls[c]) {
      assert PcOk(s.servers, s.past, s.calls[c]);
    }
  }

  lemma EffectKeeps(s: State, step: Step)
    requires Inv(s) && Enabled(s, step)
    ensures Inv(Effect(s, step))
  {
    match step
    case StartRequest(c, p) => MoveKeeps(s, c, InsertPending(p, 0));
    case StartApproval(c, p) => MoveKeeps(s, c, ApprovePending(p, s.servers[p.server].access, 0));
    case Proceed(c) => ProceedKeeps(s, c);
    case Abandon(_) =>
    case Revoke(_) =>
    case _ => ServersKeep(s, step);
  }

  lemma {:induction false} InvHolds(states: seq<State>, steps: seq<Step>, n: nat)
    requires Run(states, steps) && n < |states|
    ensures Inv(states[n])
  {
    if n > 0 {
      InvHolds(states, steps, n - 1);
      EffectKeeps(states[n - 1], steps[n - 1]);
    }
  }

  // ---- the theorems

  /**
   Open servers have no access rows, private ones only approved rows, and an approved row on a request server was
   requested.
   */
  lemma RowsFitTheirServer(states: seq<State>, steps: seq<Step>, n: nat, p: Pair)
    requires Run(states, steps) && n < |states| && p in states[n].rows
    ensures var s := states[n];
            && p.server in s.servers && s.servers[p.server].access != OPEN
            && (s.servers[p.server].access == PRIVATE ==> s.rows[p].status == APPROVED && !s.rows[p].requested)
            && (s.servers[p.server].access == REQUEST ==> s.rows[p].requested)
  {
    InvHolds(states, steps, n);
  }

  /**
   The find of an approval decides: an approved row ends it, a pending one is tried again once, and where there is no
   row a private server gets one and a request server ends it.
   */
  lemma FindDecidesApproval(states: seq<State>, steps: seq<Step>, n: nat, c: CallId)
    requires Run(states, steps) && n < |steps| && steps[n] == Proceed(c) && states[n].calls[c].FindForApproval?
    ensures var pc, s, s' := states[n].calls[c], states[n], states[n + 1];
            && s'.rows == s.rows
            && (c in s'.calls && s'.calls[c] == ApprovePending(pc.pair, pc.access, 1) <==>
                  pc.pair in s.rows && s.rows[pc.pair].status == PENDING && pc.attempt == 0)
            && (c in s'.calls && s'.calls[c] == InsertApproved(pc.pair, pc.access, pc.attempt) <==>
                  pc.pair !in s.rows && pc.access != REQUEST)
            && (c !in s'.calls <==>
                  || (pc.pair in s.rows && (s.rows[pc.pair].status == APPROVED || pc.attempt == 1))
                  || (pc.pair !in s.rows && pc.access == REQUEST))
  {
    InvHolds(states, steps, n);
    assert PcOk(states[n].servers, states[n].past, states[n].calls[c]);
    assert states[n + 1] == DoProceed(states[n], c);
  }

  /** A server that is being created is there, with its access type, but not for requests, approvals or revocations. */
  lemma NewServerIsHidden(states: seq<State>, steps: seq<Step>, n: nat, v: ServerId, access: AccessType)
    requires Run(states, steps) && n < |steps| && steps[n] == CreateServer(v, access)
    ensures var s := states[n + 1];
            && v in s.servers && s.servers[v].access == access && !Visible(s, v)
            && (forall p | p in s.rows :: p.server != v)
  {
    InvHolds(states, steps, n);
    assert states[n + 1] == Effect(states[n], steps[n]);
  }

  /** A call that dies leaves its row as its last statement left it, and is gone. */
  lemma AbandonedCallIsGone(states: seq<State>, steps: seq<Step>, n: nat, c: CallId)
    requires Run(states, steps) && n < |steps| && steps[n] == Abandon(c)
    ensures c in states[n].calls && c !in states[n + 1].calls
    ensures states[n + 1].rows == states[n].rows && states[n + 1].servers == states[n].servers
  {
    assert states[n + 1] == Effect(states[n], steps[n]);
  }

  /** Revoking takes away exactly that user's row; deleting a server takes away exactly its rows. */
  lemma RowsGoExactly(states: seq<State>, steps: seq<Step>, n: nat)
    requires Run(states, steps) && n < |steps| && (steps[n].Revoke? || steps[n].DeleteServer?)
    ensures var s, s', step := states[n], states[n + 1], steps[n];
            forall p | p in s.rows ::
              if (step.Revoke? && p == step.pair) || (step.DeleteServer? && p.server == step.server) then p !in s'.rows
              else p in s'.rows && s'.rows[p] == s.rows[p]
  {
    assert states[n + 1] == Effect(states[n], steps[n]);
  }

  /**
   Each row is approved by at most one call, and a requested row is approved exactly when it is on record as
   approved.
   */
  lemma ApprovedOnce(states: seq<State>, steps: seq<Step>, n: nat)
    requires Run(states, steps) && n < |states|
    ensures var s := states[n];
            && (forall i, j | 0 <= i < |s.approvals| && 0 <= j < |s.approvals| && s.approvals[i] == s.approvals[j] ::
                  i == j)
            && (forall p | p in s.rows && s.rows[p].requested ::
                  s.rows[p].status == APPROVED <==> s.rows[p].id in s.approvals)
  {
    InvHolds(states, steps, n);
  }

  /** Undisturbed, a request puts a pending row where there is none, and an approval then approves that very row. */
  lemma RequestThenApproval(s: State, c: CallId, pair: Pair)
    requires c !in s.calls && Visible(s, pair.server) && s.servers[pair.server].access == REQUEST && pair !in s.rows
    ensures var s1 := DoProceed(At(s, c, InsertPending(pair, 0)), c);
            && Enabled(s, StartRequest(c, pair)) && s1.rows == s.rows[pair := Row(s.nextId, PENDING, true)]
            && Enabled(s1, StartApproval(c, pair))
            && var s2 := DoProceed(At(s1, c, ApprovePending(pair, REQUEST, 0)), c);
               && s2.rows == s.rows[pair := Row(s.nextId, APPROVED, true)]
               && s2.calls == s.calls
               && s2.approvals == s.approvals + [s.nextId]
  {
  }

  predicate IsRequest(pc: Pc) {
    pc.InsertPending? || pc.FindForRequest? || pc.Reload? || pc.ReportRequest?
  }

  /** The statements of a whole call: six for a request, seven for an approval. */
  function MaxStatements(pc: Pc): nat {
    if IsRequest(pc) then 6 else 7
  }

  /** How many statements a call may still make. */
  function Rank(pc: Pc): int {
    var left := MaxStatements(pc) - 3 * pc.attempt;
    match pc
    case InsertPending(_, _) => left
    case FindForRequest(_, _) => left - 1
    case Reload(_, _) => left - 2
    case ReportRequest(_, _) => 1
    case ApprovePending(_, _, _) => left
    case FindForApproval(_, _, _) => left - 1
    case InsertApproved(_, _, _) => left - 2
    case ReportApproval(_, _, _) => 1
  }

  function Statements(steps: seq<Step>, c: CallId): nat {
    if steps == [] then 0
    else Statements(steps[..|steps| - 1], c) + (if steps[|steps| - 1] == Proceed(c) then 1 else 0)
  }

  ghost predicate Lives(states: seq<State>, m: nat, n: nat, c: CallId) {
    m <= n < |states| && forall i | m <= i <= n :: c in states[i].calls
  }

  lemma ProceedSpends(s: State, c: CallId)
    requires c in s.calls && s.calls[c].attempt <= MAX_RACE_RETRIES && c in DoProceed(s, c).calls
    ensures IsRequest(DoProceed(s, c).calls[c]) == IsRequest(s.calls[c])
    ensures Rank(DoProceed(s, c).calls[c]) < Rank(s.calls[c])
  {
  }

  lemma OneStatement(s: State, step: Step, c: CallId)
    requires Enabled(s, step) && c in s.calls && c in Effect(s, step).calls
    requires s.calls[c].attempt <= MAX_RACE_RETRIES
    ensures Rank(Effect(s, step).calls[c]) <= Rank(s.calls[c]) - (if step == Proceed(c) then 1 else 0)
  {
    if step == Proceed(c) {
      ProceedSpends(s, c);
    } else {
      assert Effect(s, step).calls[c] == s.calls[c];
    }
  }

  lemma StepSpends(states: seq<State>, steps: seq<Step>, n: nat, c: CallId)
    requires Run(states, steps) && n < |steps| && c in states[n].calls && c in states[n + 1].calls
    ensures Rank(states[n + 1].calls[c]) <= Rank(states[n].calls[c]) - (if steps[n] == Proceed(c) then 1 else 0)
  {
    RankBound(states, steps, n, c);
    OneStatement(states[n], steps[n], c);
  }

  /** `ranks` never goes up, and goes down at each statement of `c`. */
  ghost predicate Spends(ranks: seq<int>, steps: seq<Step>, c: CallId) {
    && |ranks| == |steps| + 1
    && (forall i | 0 <= i < |steps| :: ranks[i + 1] <= ranks[i] - (if steps[i] == Proceed(c) then 1 else 0))
  }

  lemma {:induction false} StatementsCount(ranks: seq<int>, steps: seq<Step>, c: CallId)
    requires Spends(ranks, steps, c)
    ensures Statements(steps, c) + ranks[|steps|] <= ranks[0]
  {
    if steps != [] {
      StatementsCount(ranks[..|steps|], steps[..|steps| - 1], c);
    }
  }

  lemma RankBound(states: seq<State>, steps: seq<Step>, n: nat, c: CallId)
    requires Run(states, steps) && n < |states| && c in states[n].calls
    ensures states[n].calls[c].attempt <= 1 && 1 <= Rank(states[n].calls[c]) <= MaxStatements(states[n].calls[c])
  {
    InvHolds(states, steps, n);
    assert PcOk(states[n].servers, states[n].past, states[n].calls[c]);
  }

  ghost function Ranks(states: seq<State>, m: nat, n: nat, c: CallId): seq<int>
    requires Lives(states, m, n, c)
  {
    seq(n - m + 1, i requires 0 <= i <= n - m => Rank(states[m + i].calls[c]))
  }

  lemma RanksSpend(states: seq<State>, steps: seq<Step>, m: nat, n: nat, c: CallId)
    requires Run(states, steps) && Lives(states, m, n, c)
    ensures Spends(Ranks(states, m, n, c), steps[m..n], c)
  {
    var ranks := Ranks(states, m, n, c);
    forall i | 0 <= i < n - m
      ensures ranks[i + 1] <= ranks[i] - (if steps[m..n][i] == Proceed(c) then 1 else 0)
    {
      RankSpends(states, steps, m, n, i, c);
    }
  }

  lemma RankSpends(states: seq<State>, steps: seq<Step>, m: nat, n: nat, i: nat, c: CallId)
    requires Run(states, steps) && Lives(states, m, n, c) && i < n - m
    ensures Ranks(states, m, n, c)[i + 1] <= Ranks(states, m, n, c)[i] - (if steps[m..n][i] == Proceed(c) then 1 else 0)
  {
    StepSpends(states, steps, m + i, c);
  }

  /**
   Both retries end within two rounds. As long as a call goes on it has made fewer statements than a request's six or
   an approval's seven.
   */
  lemma RetriesEnd(states: seq<State>, steps: seq<Step>, m: nat, n: nat, c: CallId)
    requires Run(states, steps) && Lives(states, m, n, c)
    ensures states[n].calls[c].attempt <= 1 && Statements(steps[m..n], c) < MaxStatements(states[m].calls[c])
  {
    RankBound(states, steps, m, c);
    RankBound(states, steps, n, c);
    RanksSpend(states, steps, m, n, c);
    StatementsCount(Ranks(states, m, n, c), steps[m..n], c);
  }
}
