/**
 Where the history of a socket and of a snapshot comes from. One step is one tick of the model's clock, so a recorded
 time is the position of a step in the run.
 */
module GatewayChecks {
  import opened Wrappers
  import opened Reservations
  import opened Gateway
  import opened GatewaySafety
  import opened GatewayHistory

  lemma {:induction false} ClockCountsSteps(states: seq<State>, steps: seq<Step>, n: nat)
    requires Run(states, steps) && n < |states|
    ensures states[n].now == n
  {
    if n > 0 {
      ClockCountsSteps(states, steps, n - 1);
      EffectKeepsTime(states[n - 1], steps[n - 1]);
    }
  }

  lemma EffectKeepsTime(s: State, step: Step)
    requires Enabled(s, step)
    ensures Effect(s, step).now == s.now
  {
  }

  // ---- a check on record was made

  /** The step verifies the token of `i` that the check is about, with the principal it names. */
  ghost predicate Verifies(s: State, step: Step, i: SocketId, check: Check) {
    match step
    case AuthResult(id, Verified(p), _) =>
      id == i && i in s.sockets && s.sockets[i].checking == Some(check.token) && p == check.principal
    case GroupResult(poll, token, Verified(p)) =>
      && CanGroup(s, poll, token) && i in s.polling.polls[poll].phase.groups[token]
      && token == check.token && p == check.principal
    case _ => false
  }

  /** A socket that keeps its principal keeps the check that stands for it. */
  predicate Tame(k: Socket, k': Socket) {
    k'.hasPrincipal ==> k.hasPrincipal && k'.check == k.check
  }

  /** No socket but those in `others` gets a principal or a new check. */
  ghost predicate AllTame(sockets: Sockets, sockets': Sockets, others: set<SocketId>) {
    forall i | i in sockets' && i !in others ::
      if i in sockets then Tame(sockets[i], sockets'[i]) else !sockets'[i].hasPrincipal
  }

  lemma TameTwice(a: Sockets, b: Sockets, c: Sockets, others: set<SocketId>)
    requires AllTame(a, b, others) && AllTame(b, c, others)
    ensures AllTame(a, c, others)
  {
    forall i | i in c && i !in others ensures if i in a then Tame(a[i], c[i]) else !c[i].hasPrincipal {
      assert i in b ==> Tame(b[i], c[i]);
      assert i in a && i in b ==> Tame(a[i], b[i]);
    }
  }

  lemma DisconnectIsTame(s: State, id: SocketId)
    requires id in s.sockets
    ensures AllTame(s.sockets, DisconnectSilent(s, id).sockets, {})
  {
  }

  lemma {:induction false} DisconnectAllIsTame(s: State, ids: set<SocketId>)
    requires ids <= s.sockets.Keys
    ensures AllTame(s.sockets, DisconnectAll(s, ids).sockets, {})
    decreases ids
  {
    if ids != {} {
      var i :| i in ids && DisconnectAll(s, ids) == DisconnectAll(DisconnectSilent(s, i), ids - {i});
      DisconnectIsTame(s, i);
      DisconnectAllIsTame(DisconnectSilent(s, i), ids - {i});
      TameTwice(s.sockets, DisconnectSilent(s, i).sockets, DisconnectAll(s, ids).sockets, {});
    }
  }

  lemma {:induction false} CleanupAllIsTame(s: State, ids: set<SocketId>)
    requires ids <= s.sockets.Keys
    ensures AllTame(s.sockets, CleanupAll(s, ids).sockets, {})
    decreases ids
  {
    if ids != {} {
      var i :| i in ids && CleanupAll(s, ids) == CleanupAll(Cleanup(s, i), ids - {i});
      CleanupAllIsTame(Cleanup(s, i), ids - {i});
      TameTwice(s.sockets, Cleanup(s, i).sockets, CleanupAll(s, ids).sockets, {});
    }
  }

  lemma DestroyIsTame(s: State)
    ensures AllTame(s.sockets, DoDestroy(s).sockets, {})
  {
    var s1 := CleanupAll(ShutDown(s), Known(s.sockets));
    CleanupAllIsTame(ShutDown(s), Known(s.sockets));
    TameTwice(s.sockets, s1.sockets, Forget(s1).sockets, {});
  }

  lemma ConnectIsTame(s: State, id: SocketId, e: EngineId, cookie: Cookie)
    requires id !in s.sockets
    ensures AllTame(s.sockets, DoConnect(s, id, e, cookie).sockets, {})
  {
  }

  lemma AuthEventIsTame(s: State, id: SocketId, payload: Option<Token>)
    requires id in s.sockets
    ensures AllTame(s.sockets, DoAuthEvent(s, id, payload).sockets, {})
  {
  }

  lemma DisconnectedIsTame(s: State, id: SocketId)
    requires id in s.sockets
    ensures AllTame(s.sockets, DoDisconnected(s, id).sockets, {})
  {
  }

  lemma ResumeIsTame(s: State, p: nat)
    requires Tokenless(s.sockets) == {} && CanResume(s, p)
    ensures DoResume(s, p).sockets == s.sockets
  {
    BeginCheckMovesNoSocket(s, p, s.polling.polls[p]);
  }

  /** Steps that verify nobody. */
  lemma QuietStepIsTame(s: State, step: Step)
    requires Tokenless(s.sockets) == {} && Enabled(s, step) && !step.AuthResult? && !step.GroupResult?
    ensures AllTame(s.sockets, Effect(s, step).sockets, {})
  {
    match step
    case Connect(id, e, cookie) => ConnectIsTame(s, id, e, cookie);
    case AuthEvent(id, payload) => AuthEventIsTame(s, id, payload);
    case AuthDeadline(id) => DisconnectIsTame(s, id);
    case TokenExpiry(id) => DisconnectIsTame(s, id);
    case Disconnected(id) => DisconnectedIsTame(s, id);
    case IntervalTick => TickMovesNoSocket(s, false);
    case TimerTick => TickMovesNoSocket(TimerFired(s), true);
    case Resume(p) => ResumeIsTame(s, p);
    case Destroy => DestroyIsTame(s);
    case _ =>
  }

  lemma JoinTouchesOne(s: State, id: SocketId, token: Token, p: Principal)
    requires Tokenless(s.sockets) == {} && id in s.sockets
    ensures AllTame(s.sockets, DoJoin(s, id, token, p, true).sockets, {id})
    ensures DoJoin(s, id, token, p, true).sockets[id].check == Check(token, p, s.now)
  {
    var s1 := EnterRoom(s, id, Joined(s.sockets[id], token, p, s.now).(expiry := true));
    forall i ensures i !in Tokenless(s1.sockets) {
      assert i !in Tokenless(s.sockets);
    }
    StartPollingMovesNoSocket(s1);
  }

  lemma SuccessTouchesOne(s: State, id: SocketId, p: Principal, token: Token, unexpired: bool)
    requires Tokenless(s.sockets) == {} && id in s.sockets
    ensures AllTame(s.sockets, DoAuthSuccess(s, id, p, token, unexpired).sockets, {id})
  {
    JoinTouchesOne(s, id, token, p);
    DisconnectIsTame(s, id);
  }

  lemma ResultChecks(s: State, id: SocketId, result: Verification, unexpired: bool)
    requires Inv(s) && Tokenless(s.sockets) == {} && id in s.sockets && s.sockets[id].checking.Some?
    ensures var s' := DoAuthResult(s, id, result, unexpired);
            && AllTame(s.sockets, s'.sockets, {id})
            && (id in s'.sockets && s'.sockets[id].hasPrincipal ==>
                  && result.Verified?
                  && s'.sockets[id].check == Check(s.sockets[id].checking.value, result.principal, s.now))
  {
    var k, token := s.sockets[id].(checking := None), s.sockets[id].checking.value;
    var s1 := Put(s, id, k);
    forall i ensures i !in Tokenless(s1.sockets) {
      assert i !in Tokenless(s.sockets);
    }
    AuthBegins(s, id, k);
    if result.Verified? {
      SuccessTouchesOne(s1, id, result.principal, token, unexpired);
      TameTwice(s.sockets, s1.sockets, DoAuthResult(s, id, result, unexpired).sockets, {id});
      SuccessAdmits(s1, id, result.principal, token, unexpired);
      if MayJoin(s1, id, result.principal, unexpired) {
        EligibleJoins(s1, id, result.principal, token);
      }
    } else {
      DisconnectIsTame(s1, id);
    }
  }

  lemma GroupChecks(s: State, p: nat, token: Token, result: Verification)
    requires CanGroup(s, p, token)
    ensures var s', members := DoGroupResult(s, p, token, result), s.polling.polls[p].phase.groups[token];
            && AllTame(s.sockets, s'.sockets, members)
            && (forall i | i in members && i in s'.sockets && s'.sockets[i].hasPrincipal ::
                  && i in s.sockets && s.sockets[i].hasPrincipal
                  && (s'.sockets[i].check == s.sockets[i].check
                      || (result.Verified? && s'.sockets[i].check == Check(token, result.principal, s.now))))
  {
    if !Passed(result) {
      DisconnectAllIsTame(s, s.polling.polls[p].phase.groups[token]);
    }
  }

  /** The socket had that check before, or the step made it. */
  ghost predicate CheckStepsBack(s: State, step: Step, i: SocketId, check: Check) {
    || (i in s.sockets && s.sockets[i].hasPrincipal && s.sockets[i].check == check)
    || (check.at == s.now && Verifies(s, step, i, check))
  }

  lemma ResultStepsBack(s: State, step: Step, i: SocketId)
    requires Inv(s) && Tokenless(s.sockets) == {} && Enabled(s, step) && step.AuthResult?
    requires i in Effect(s, step).sockets && Effect(s, step).sockets[i].hasPrincipal
    ensures CheckStepsBack(s, step, i, Effect(s, step).sockets[i].check)
  {
    ResultChecks(s, step.id, step.result, step.unexpired);
  }

  lemma GroupStepsBack(s: State, step: Step, i: SocketId)
    requires Enabled(s, step) && step.GroupResult?
    requires i in Effect(s, step).sockets && Effect(s, step).sockets[i].hasPrincipal
    ensures CheckStepsBack(s, step, i, Effect(s, step).sockets[i].check)
  {
    GroupChecks(s, step.poll, step.token, step.result);
  }

  lemma StepChecks(s: State, step: Step, i: SocketId)
    requires Inv(s) && Enabled(s, step) && i in Effect(s, step).sockets && Effect(s, step).sockets[i].hasPrincipal
    ensures CheckStepsBack(s, step, i, Effect(s, step).sockets[i].check)
  {
    forall j ensures j !in Tokenless(s.sockets) {
      assert j in s.sockets ==> SocketOk(s.sockets[j], s.desk, s.now);
    }
    if step.AuthResult? {
      ResultStepsBack(s, step, i);
    } else if step.GroupResult? {
      GroupStepsBack(s, step, i);
    } else {
      QuietStepIsTame(s, step);
    }
  }

  lemma LastCheckStep(states: seq<State>, steps: seq<Step>, n: nat, i: SocketId)
    requires Run(states, steps) && n < |steps| && i in states[n + 1].sockets && states[n + 1].sockets[i].hasPrincipal
    ensures states[n].now == n && CheckStepsBack(states[n], steps[n], i, states[n + 1].sockets[i].check)
  {
    InvHolds(states, steps, n);
    ClockCountsSteps(states, steps, n);
    StepChecks(states[n], steps[n], i);
  }

  /** Every check that a step leaves was there before or made by the step, at the time of its position. */
  ghost predicate Traceable(states: seq<State>, steps: seq<Step>, i: SocketId) {
    && |states| == |steps| + 1 && i !in states[0].sockets
    && (forall n | 0 <= n < |steps| && i in states[n + 1].sockets && states[n + 1].sockets[i].hasPrincipal ::
          states[n].now == n && CheckStepsBack(states[n], steps[n], i, states[n + 1].sockets[i].check))
  }

  lemma RunIsTraceable(states: seq<State>, steps: seq<Step>, i: SocketId)
    requires Run(states, steps)
    ensures Traceable(states, steps, i)
  {
    forall n | 0 <= n < |steps| && i in states[n + 1].sockets && states[n + 1].sockets[i].hasPrincipal
      ensures states[n].now == n && CheckStepsBack(states[n], steps[n], i, states[n + 1].sockets[i].check)
    {
      LastCheckStep(states, steps, n, i);
    }
  }

  lemma {:induction false} CheckIsTraced(states: seq<State>, steps: seq<Step>, n: nat, i: SocketId)
    requires Traceable(states, steps, i) && n < |states| && i in states[n].sockets && states[n].sockets[i].hasPrincipal
    ensures var check := states[n].sockets[i].check;
            check.at < n && Verifies(states[check.at], steps[check.at], i, check)
  {
    var check := states[n].sockets[i].check;
    assert states[n - 1].now == n - 1 && CheckStepsBack(states[n - 1], steps[n - 1], i, check);
    if i in states[n - 1].sockets && states[n - 1].sockets[i].hasPrincipal && states[n - 1].sockets[i].check == check {
      CheckIsTraced(states, steps, n - 1, i);
    }
  }

  /** The check of a socket with a principal was made: its time is the position of the step that made it. */
  lemma CheckWasMade(states: seq<State>, steps: seq<Step>, n: nat, i: SocketId)
    requires Run(states, steps) && n < |states| && i in states[n].sockets && states[n].sockets[i].hasPrincipal
    ensures var check := states[n].sockets[i].check;
            check.at < n && Verifies(states[check.at], steps[check.at], i, check)
  {
    RunIsTraceable(states, steps, i);
    CheckIsTraced(states, steps, n, i);
  }

  // ---- a snapshot was collected

  /** The poll at this point has the snapshot of a collection that succeeded, or is about to look at its result. */
  ghost predicate Collects(step: Step, p: nat, poll: Poll) {
    step.CollectResult? && step.poll == p && (poll.phase.Collected? ==> step.present == poll.phase.present)
    && (!poll.phase.Collected? ==> step.present)
  }

  lemma TickPolls(s: State, immediate: bool)
    requires SocketsOk(s.sockets, s.desk, s.now)
    ensures forall p | p in Tick(s, immediate).polling.polls ::
              var poll := Tick(s, immediate).polling.polls[p];
              poll.collectedAt.None? || (p in s.polling.polls && s.polling.polls[p] == poll)
  {
    if !s.polling.inFlight {
      BeginCheckIsSetPoll(s.(polling := s.polling.(inFlight := true, nextPoll := s.polling.nextPoll + 1)),
                          s.polling.nextPoll, Poll(s.polling.generation, immediate, None, Collecting));
    }
  }

  lemma StartPollingPolls(s: State)
    requires SocketsOk(s.sockets, s.desk, s.now)
    ensures forall p | p in StartPollingIfNeeded(s).polling.polls ::
              var poll := StartPollingIfNeeded(s).polling.polls[p];
              poll.collectedAt.None? || (p in s.polling.polls && s.polling.polls[p] == poll)
  {
    if !s.polling.interval && !s.polling.inFlight {
      TickPolls(s.(polling := s.polling.(interval := true)), true);
    }
  }

  lemma SuccessPolls(s: State, id: SocketId, p: Principal, token: Token, unexpired: bool)
    requires Inv(s) && id in s.sockets
    ensures forall q | q in DoAuthSuccess(s, id, p, token, unexpired).polling.polls ::
              var poll := DoAuthSuccess(s, id, p, token, unexpired).polling.polls[q];
              poll.collectedAt.None? || (q in s.polling.polls && s.polling.polls[q] == poll)
  {
    if MayJoin(s, id, p, unexpired) {
      var k := Joined(s.sockets[id], token, p, s.now).(expiry := true);
      JoinKeeps(s, id, token, p, k);
      StartPollingPolls(EnterRoom(s, id, k));
    }
  }

  lemma ResultPolls(s: State, id: SocketId, result: Verification, unexpired: bool)
    requires Inv(s) && id in s.sockets && s.sockets[id].checking.Some?
    ensures forall q | q in DoAuthResult(s, id, result, unexpired).polling.polls ::
              var poll := DoAuthResult(s, id, result, unexpired).polling.polls[q];
              poll.collectedAt.None? || (q in s.polling.polls && s.polling.polls[q] == poll)
  {
    var k := s.sockets[id].(checking := None);
    AuthBegins(s, id, k);
    if result.Verified? {
      SuccessPolls(Put(s, id, k), id, result.principal, s.sockets[id].checking.value, unexpired);
    }
  }

  lemma GroupPolls(s: State, p: nat, token: Token, result: Verification)
    requires CanGroup(s, p, token)
    ensures var s' := DoGroupResult(s, p, token, result);
            && s'.polling.polls.Keys == s.polling.polls.Keys
            && (forall q | q in s.polling.polls ::
                  && s'.polling.polls[q].collectedAt == s.polling.polls[q].collectedAt
                  && (!s.polling.polls[q].phase.Collected? <==> !s'.polling.polls[q].phase.Collected?)
                  && (s.polling.polls[q].phase.Collected? ==> s'.polling.polls[q].phase == s.polling.polls[q].phase))
  {
    DisconnectAllFrame(s, s.polling.polls[p].phase.groups[token]);
  }

  lemma ResumePolls(s: State, p: nat)
    requires SocketsOk(s.sockets, s.desk, s.now) && CanResume(s, p)
    ensures var s' := DoResume(s, p);
            forall q | q in s'.polling.polls ::
              && q in s.polling.polls && s'.polling.polls[q].collectedAt == s.polling.polls[q].collectedAt
              && (q != p ==> s'.polling.polls[q] == s.polling.polls[q])
              && (q == p ==> !s'.polling.polls[q].phase.Collected?
                             && (s.polling.polls[q].phase.Collected? ==> s.polling.polls[q].phase.present))
  {
    BeginCheckIsSetPoll(s, p, s.polling.polls[p]);
  }

  lemma DestroyPolls(s: State)
    ensures DoDestroy(s).polling.polls == s.polling.polls
  {
    CleanupAllPolls(ShutDown(s), Known(s.sockets));
  }

  lemma {:induction false} CleanupAllPolls(s: State, ids: set<SocketId>)
    requires ids <= s.sockets.Keys
    ensures CleanupAll(s, ids).polling.polls == s.polling.polls
    decreases ids
  {
    if ids != {} {
      var i :| i in ids && CleanupAll(s, ids) == CleanupAll(Cleanup(s, i), ids - {i});
      CleanupAllPolls(Cleanup(s, i), ids - {i});
    }
  }

  /** How a poll that has a snapshot came to the state it is in: from itself, or by the collection. */
  ghost predicate PollStepsBack(s: State, step: Step, p: nat, poll: Poll) {
    || (&& p in s.polling.polls && s.polling.polls[p].collectedAt == poll.collectedAt
        && (s.polling.polls[p].phase.Collected? ==>
              if poll.phase.Collected? then s.polling.polls[p].phase == poll.phase
              else s.polling.polls[p].phase.present)
        && (!s.polling.polls[p].phase.Collected? ==> !poll.phase.Collected?))
    || (poll.collectedAt == Some(s.now) && Collects(step, p, poll))
  }

  lemma TickPollsStepBack(s: State, step: Step, p: nat)
    requires Inv(s) && Enabled(s, step) && p in Effect(s, step).polling.polls
    requires Effect(s, step).polling.polls[p].collectedAt.Some?
    requires step.AuthResult? || step.IntervalTick? || step.TimerTick?
    ensures PollStepsBack(s, step, p, Effect(s, step).polling.polls[p])
  {
    match step
    case AuthResult(id, result, unexpired) => ResultPolls(s, id, result, unexpired);
    case IntervalTick => TickPolls(s, false);
    case TimerTick => TickPolls(TimerFired(s), true);
  }

  lemma CheckPollsStepBack(s: State, step: Step, p: nat)
    requires Inv(s) && Enabled(s, step) && p in Effect(s, step).polling.polls
    requires step.GroupResult? || step.Resume? || step.CollectResult?
    ensures PollStepsBack(s, step, p, Effect(s, step).polling.polls[p])
  {
    match step
    case GroupResult(q, token, result) => GroupPolls(s, q, token, result);
    case Resume(q) => ResumePolls(s, q);
    case CollectResult(_, _) =>
  }

  lemma DisconnectPolls(s: State, id: SocketId)
    requires id in s.sockets
    ensures DisconnectSilent(s, id).polling.polls == s.polling.polls
  {
  }

  lemma ConnectPolls(s: State, id: SocketId, e: EngineId, cookie: Cookie)
    ensures DoConnect(s, id, e, cookie).polling.polls == s.polling.polls
  {
  }

  lemma AuthEventPolls(s: State, id: SocketId, payload: Option<Token>)
    requires id in s.sockets
    ensures DoAuthEvent(s, id, payload).polling.polls == s.polling.polls
  {
    DisconnectPolls(s, id);
    DisconnectPolls(Put(s, id, s.sockets[id].(status := Verifying)), id);
  }

  lemma DisconnectedPolls(s: State, id: SocketId)
    requires id in s.sockets
    ensures DoDisconnected(s, id).polling.polls == s.polling.polls
  {
  }

  lemma SocketStepKeepsPolls(s: State, step: Step)
    requires Enabled(s, step)
    requires !(step.AuthResult? || step.IntervalTick? || step.TimerTick?)
    requires !(step.GroupResult? || step.Resume? || step.CollectResult?)
    ensures Effect(s, step).polling.polls == s.polling.polls
  {
    match step
    case Connect(id, e, cookie) => ConnectPolls(s, id, e, cookie);
    case AuthEvent(id, payload) => AuthEventPolls(s, id, payload);
    case AuthDeadline(id) => DisconnectPolls(s, id);
    case TokenExpiry(id) => DisconnectPolls(s, id);
    case Disconnected(id) => DisconnectedPolls(s, id);
    case Destroy => DestroyPolls(s);
    case _ =>
  }

  lemma PollsStepBack(s: State, step: Step, p: nat)
    requires Inv(s) && Enabled(s, step) && p in Effect(s, step).polling.polls
    requires Effect(s, step).polling.polls[p].collectedAt.Some?
    ensures PollStepsBack(s, step, p, Effect(s, step).polling.polls[p])
  {
    if step.AuthResult? || step.IntervalTick? || step.TimerTick? {
      TickPollsStepBack(s, step, p);
    } else if step.GroupResult? || step.Resume? || step.CollectResult? {
      CheckPollsStepBack(s, step, p);
    } else {
      SocketStepKeepsPolls(s, step);
    }
  }

  lemma LastPollStep(states: seq<State>, steps: seq<Step>, n: nat, p: nat)
    requires Run(states, steps) && n < |steps| && p in states[n + 1].polling.polls
    requires states[n + 1].polling.polls[p].collectedAt.Some?
    ensures states[n].now == n && PollStepsBack(states[n], steps[n], p, states[n + 1].polling.polls[p])
  {
    InvHolds(states, steps, n);
    ClockCountsSteps(states, steps, n);
    PollsStepBack(states[n], steps[n], p);
  }

  /** The time of a poll's snapshot is the position of the step at which its collection succeeded. */
  lemma {:induction false} SnapshotWasCollected(states: seq<State>, steps: seq<Step>, n: nat, p: nat)
    requires Run(states, steps) && n < |states| && p in states[n].polling.polls
    requires states[n].polling.polls[p].collectedAt.Some?
    ensures var t := states[n].polling.polls[p].collectedAt.value;
            t < n && Collects(steps[t], p, states[n].polling.polls[p])
  {
    LastPollStep(states, steps, n - 1, p);
    if states[n].polling.polls[p].collectedAt != Some(n - 1) || !Collects(steps[n - 1], p, states[n].polling.polls[p]) {
      SnapshotWasCollected(states, steps, n - 1, p);
    }
  }

  /**
   Stats are sent at step `n`. They were collected at an earlier step, and between that step and `n` the token of every
   member of the room was verified and stood for an admin with an ordinary session and no password change ahead.
   */
  lemma EveryRecipientWasVerified(states: seq<State>, steps: seq<Step>, n: nat) returns (t: nat)
    requires Run(states, steps) && n < |steps| && Broadcasts(states[n], steps[n])
    ensures t < n && steps[t] == CollectResult(steps[n].poll, true)
    ensures forall i | i in Room(states[n].sockets) ::
              var check := states[n].sockets[i].check;
              && t <= check.at < n && Verifies(states[check.at], steps[check.at], i, check)
              && states[n].sockets[i].token == Some(check.token)
              && check.principal.admin && !check.principal.temporaryAuth && !check.principal.mustChangePassword
  {
    t := states[n].polling.polls[steps[n].poll].collectedAt.value;
    SnapshotWasCollected(states, steps, n, steps[n].poll);
    BroadcastOnlyToCheckedAdmins(states, steps, n);
    InvHolds(states, steps, n);
    forall i | i in Room(states[n].sockets)
      ensures var check := states[n].sockets[i].check;
              check.at < n && Verifies(states[check.at], steps[check.at], i, check)
    {
      assert SocketOk(states[n].sockets[i], states[n].desk, states[n].now);
      CheckWasMade(states, steps, n, i);
    }
  }
}
