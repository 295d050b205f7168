/**
 Authentication over a whole run: who can become authenticated, and who never will.
 */
module GatewayHistory {
  import opened Wrappers
  import opened Reservations
  import opened Gateway
  import opened GatewaySafety

  /**
   How a socket may change: it never reconnects, is never un-cleaned, and is authenticated only while neither
   happened.
   */
  predicate Ages(k: Socket, k': Socket) {
    && k'.engine == k.engine
    && (k.cleaned ==> k'.cleaned)
    && (k'.connected ==> k.connected)
    && (k.authenticated ==> k'.authenticated)
    && (k'.authenticated && !k.authenticated ==> k.connected && !k.cleaned)
  }

  ghost predicate AllAge(sockets: Sockets, sockets': Sockets) {
    sockets.Keys <= sockets'.Keys && forall i | i in sockets :: Ages(sockets[i], sockets'[i])
  }

  lemma AgeTwice(a: Sockets, b: Sockets, c: Sockets)
    requires AllAge(a, b) && AllAge(b, c)
    ensures AllAge(a, c)
  {
    forall i | i in a ensures Ages(a[i], c[i]) {
      assert Ages(a[i], b[i]) && Ages(b[i], c[i]);
    }
  }

  lemma DisconnectAges(s: State, id: SocketId)
    requires id in s.sockets
    ensures AllAge(s.sockets, DisconnectSilent(s, id).sockets)
  {
  }

  lemma {:induction false} DisconnectAllAges(s: State, ids: set<SocketId>)
    requires ids <= s.sockets.Keys
    ensures AllAge(s.sockets, DisconnectAll(s, ids).sockets)
    decreases ids
  {
    if ids != {} {
      var i :| i in ids && DisconnectAll(s, ids) == DisconnectAll(DisconnectSilent(s, i), ids - {i});
      DisconnectAges(s, i);
      DisconnectAllAges(DisconnectSilent(s, i), ids - {i});
      AgeTwice(s.sockets, DisconnectSilent(s, i).sockets, DisconnectAll(s, ids).sockets);
    }
  }

  lemma {:induction false} CleanupAllAges(s: State, ids: set<SocketId>)
    requires ids <= s.sockets.Keys
    ensures AllAge(s.sockets, CleanupAll(s, ids).sockets)
    decreases ids
  {
    if ids != {} {
      var i :| i in ids && CleanupAll(s, ids) == CleanupAll(Cleanup(s, i), ids - {i});
      assert AllAge(s.sockets, Cleanup(s, i).sockets);
      CleanupAllAges(Cleanup(s, i), ids - {i});
      AgeTwice(s.sockets, Cleanup(s, i).sockets, CleanupAll(s, ids).sockets);
    }
  }

  lemma BeginCheckMovesNoSocket(s: State, p: nat, poll: Poll)
    requires Tokenless(s.sockets) == {}
    ensures BeginCheck(s, p, poll).sockets == s.sockets
  {
    assert DisconnectAll(s, {}) == s;
  }

  lemma TickMovesNoSocket(s: State, immediate: bool)
    requires Tokenless(s.sockets) == {}
    ensures Tick(s, immediate).sockets == s.sockets
  {
    if !s.polling.inFlight {
      BeginCheckMovesNoSocket(s.(polling := s.polling.(inFlight := true, nextPoll := s.polling.nextPoll + 1)),
                              s.polling.nextPoll, Poll(s.polling.generation, immediate, None, Collecting));
    }
  }

  lemma StartPollingMovesNoSocket(s: State)
    requires Tokenless(s.sockets) == {}
    ensures StartPollingIfNeeded(s).sockets == s.sockets
  {
    if !s.polling.interval && !s.polling.inFlight {
      TickMovesNoSocket(s.(polling := s.polling.(interval := true)), true);
    }
  }

  lemma PutAges(sockets: Sockets, id: SocketId, k: Socket)
    requires id in sockets && Ages(sockets[id], k)
    ensures AllAge(sockets, sockets[id := k])
  {
  }

  /** Only a connected socket that has not been cleaned up joins the room. */
  lemma JoinAges(s: State, id: SocketId, token: Token, p: Principal)
    requires id in s.sockets && s.sockets[id].connected && !s.sockets[id].cleaned && Tokenless(s.sockets) == {}
    ensures AllAge(s.sockets, DoJoin(s, id, token, p, true).sockets)
  {
    var k := Joined(s.sockets[id], token, p, s.now).(expiry := true);
    var s1 := EnterRoom(s, id, k);
    PutAges(s.sockets, id, k);
    forall i ensures i !in Tokenless(s1.sockets) {
      assert i !in Tokenless(s.sockets);
    }
    StartPollingMovesNoSocket(s1);
  }

  lemma ExpiredJoinAges(s: State, id: SocketId, token: Token, p: Principal)
    requires id in s.sockets && s.sockets[id].connected && !s.sockets[id].cleaned
    ensures AllAge(s.sockets, DoJoin(s, id, token, p, false).sockets)
  {
    var k := Joined(s.sockets[id], token, p, s.now);
    var s1 := EnterRoom(s, id, k);
    PutAges(s.sockets, id, k);
    DisconnectAges(s1, id);
    AgeTwice(s.sockets, s1.sockets, DisconnectSilent(s1, id).sockets);
  }

  lemma AuthSuccessAges(s: State, id: SocketId, p: Principal, token: Token, unexpired: bool)
    requires id in s.sockets && SocketOk(s.sockets[id], s.desk, s.now) && Tokenless(s.sockets) == {}
    ensures AllAge(s.sockets, DoAuthSuccess(s, id, p, token, unexpired).sockets)
  {
    var k := s.sockets[id];
    if s.polling.live {
      if k.engine !in s.desk.table {
        DisconnectAges(s, id);
      } else if k.connected && Eligible(p) {
        JoinAges(s, id, token, p);
        ExpiredJoinAges(s, id, token, p);
      }
    }
  }

  lemma AuthResultAges(s: State, id: SocketId, result: Verification, unexpired: bool)
    requires id in s.sockets && s.sockets[id].checking.Some? && SocketOk(s.sockets[id], s.desk, s.now)
    requires Tokenless(s.sockets) == {}
    ensures AllAge(s.sockets, DoAuthResult(s, id, result, unexpired).sockets)
  {
    var s1 := Put(s, id, s.sockets[id].(checking := None));
    PutAges(s.sockets, id, s.sockets[id].(checking := None));
    forall i ensures i !in Tokenless(s1.sockets) {
      assert i !in Tokenless(s.sockets);
    }
    if result.Verified? {
      AuthSuccessAges(s1, id, result.principal, s.sockets[id].checking.value, unexpired);
    } else {
      DisconnectAges(s1, id);
    }
    AgeTwice(s.sockets, s1.sockets, DoAuthResult(s, id, result, unexpired).sockets);
  }

  lemma ConnectAges(s: State, id: SocketId, e: EngineId, cookie: Cookie)
    requires id !in s.sockets
    ensures AllAge(s.sockets, DoConnect(s, id, e, cookie).sockets)
  {
  }

  lemma AuthEventAges(s: State, id: SocketId, payload: Option<Token>)
    requires id in s.sockets
    ensures AllAge(s.sockets, DoAuthEvent(s, id, payload).sockets)
  {
  }

  lemma GroupAges(s: State, p: nat, token: Token, result: Verification)
    requires CanGroup(s, p, token)
    ensures AllAge(s.sockets, DoGroupResult(s, p, token, result).sockets)
  {
    if !Passed(result) {
      DisconnectAllAges(s, s.polling.polls[p].phase.groups[token]);
    }
  }

  lemma ResumeAges(s: State, p: nat)
    requires CanResume(s, p) && Tokenless(s.sockets) == {}
    ensures AllAge(s.sockets, DoResume(s, p).sockets)
  {
    if s.polling.polls[p].phase == Collected(true) && Current(s.polling, s.polling.polls[p]) {
      BeginCheckMovesNoSocket(s, p, s.polling.polls[p]);
    }
  }

  lemma DestroyAges(s: State)
    ensures AllAge(s.sockets, DoDestroy(s).sockets)
  {
    var s1 := CleanupAll(ShutDown(s), Known(s.sockets));
    CleanupAllAges(ShutDown(s), Known(s.sockets));
    assert AllAge(s1.sockets, Forget(s1).sockets);
    AgeTwice(s.sockets, s1.sockets, Forget(s1).sockets);
  }

  lemma CloseAges(sockets: Sockets, e: EngineId)
    ensures AllAge(sockets, Close(sockets, e))
  {
  }

  lemma DisconnectedAges(s: State, id: SocketId)
    requires id in s.sockets
    ensures AllAge(s.sockets, DoDisconnected(s, id).sockets)
  {
  }

  lemma AuthStepAges(s: State, step: Step)
    requires SocketsOk(s.sockets, s.desk, s.now) && Tokenless(s.sockets) == {} && Enabled(s, step)
    requires step.Connect? || step.AuthEvent? || step.AuthResult?
    ensures AllAge(s.sockets, Effect(s, step).sockets)
  {
    match step
    case Connect(id, e, cookie) => ConnectAges(s, id, e, cookie);
    case AuthEvent(id, payload) => AuthEventAges(s, id, payload);
    case AuthResult(id, result, unexpired) =>
      assert SocketOk(s.sockets[id], s.desk, s.now);
      AuthResultAges(s, id, result, unexpired);
  }

  lemma LeaveStepAges(s: State, step: Step)
    requires Enabled(s, step)
    requires step.AuthDeadline? || step.TokenExpiry? || step.Leave? || step.Disconnected? || step.RawClose?
    ensures AllAge(s.sockets, Effect(s, step).sockets)
  {
    match step
    case AuthDeadline(id) => DisconnectAges(s, id);
    case TokenExpiry(id) => DisconnectAges(s, id);
    case Leave(id) => PutAges(s.sockets, id, s.sockets[id].(connected := false, inRoom := false));
    case Disconnected(id) => DisconnectedAges(s, id);
    case RawClose(e) => CloseAges(s.sockets, e);
  }

  lemma PollStepAges(s: State, step: Step)
    requires Enabled(s, step) && Tokenless(s.sockets) == {}
    requires step.IntervalTick? || step.TimerTick? || step.GroupResult? || step.CollectResult? || step.Resume?
             || step.Destroy? || step.Reserve? || step.ReservationDeadline? || step.DestroyReservations?
    ensures AllAge(s.sockets, Effect(s, step).sockets)
  {
    match step
    case IntervalTick => TickMovesNoSocket(s, false);
    case TimerTick => TickMovesNoSocket(TimerFired(s), true);
    case GroupResult(p, token, result) => GroupAges(s, p, token, result);
    case CollectResult(_, _) =>
    case Resume(p) => ResumeAges(s, p);
    case Destroy => DestroyAges(s);
    case Reserve(_) =>
    case ReservationDeadline(_) =>
    case DestroyReservations =>
  }

  lemma NextAges(s: State, step: Step)
    requires SocketsOk(s.sockets, s.desk, s.now) && Enabled(s, step)
    ensures AllAge(s.sockets, Next(s, step).sockets)
  {
    forall i ensures i !in Tokenless(s.sockets) {
      assert i in s.sockets ==> SocketOk(s.sockets[i], s.desk, s.now);
    }
    if step.Connect? || step.AuthEvent? || step.AuthResult? {
      AuthStepAges(s, step);
    } else if step.AuthDeadline? || step.TokenExpiry? || step.Leave? || step.Disconnected? || step.RawClose? {
      LeaveStepAges(s, step);
    } else {
      PollStepAges(s, step);
    }
  }

  lemma LastStepAges(states: seq<State>, steps: seq<Step>, n: nat)
    requires Run(states, steps) && n < |steps|
    ensures AllAge(states[n].sockets, states[n + 1].sockets)
  {
    InvHolds(states, steps, n);
    NextAges(states[n], steps[n]);
  }

  lemma {:induction false} ChainAges(chain: seq<Sockets>, m: nat, n: nat)
    requires m <= n < |chain| && forall i | 0 <= i < |chain| - 1 :: AllAge(chain[i], chain[i + 1])
    ensures AllAge(chain[m], chain[n])
  {
    if m < n {
      ChainAges(chain, m, n - 1);
      assert AllAge(chain[n - 1], chain[n - 1 + 1]);
      AgeTwice(chain[m], chain[n - 1], chain[n]);
    }
  }

  lemma RunAges(states: seq<State>, steps: seq<Step>, m: nat, n: nat)
    requires Run(states, steps) && m <= n < |states|
    ensures AllAge(states[m].sockets, states[n].sockets)
  {
    var chain := seq(|states|, i requires 0 <= i < |states| => states[i].sockets);
    forall i | 0 <= i < |chain| - 1 ensures AllAge(chain[i], chain[i + 1]) {
      LastStepAges(states, steps, i);
    }
    ChainAges(chain, m, n);
  }

  /** Over a whole run at most one socket of an Engine.IO connection is ever authenticated. */
  lemma OneSocketPerConnection(states: seq<State>, steps: seq<Step>, m: nat, n: nat, i: SocketId, j: SocketId)
    requires Run(states, steps) && m <= n < |states|
    requires i in states[m].sockets && states[m].sockets[i].authenticated
    requires j in states[n].sockets && states[n].sockets[j].authenticated
    requires states[m].sockets[i].engine == states[n].sockets[j].engine
    ensures i == j
  {
    RunAges(states, steps, m, n);
    InvHolds(states, steps, n);
    assert Ages(states[m].sockets[i], states[n].sockets[i]);
  }

  /** A socket that was cleaned up, timed out or disconnected before it authenticated never gets a principal. */
  lemma TooLateIsNever(states: seq<State>, steps: seq<Step>, m: nat, n: nat, i: SocketId)
    requires Run(states, steps) && m <= n < |states| && i in states[m].sockets
    requires states[m].sockets[i].cleaned || (!states[m].sockets[i].connected && !states[m].sockets[i].authenticated)
    ensures i in states[n].sockets
    ensures states[n].sockets[i].authenticated == states[m].sockets[i].authenticated
    ensures !states[n].sockets[i].hasPrincipal && !states[n].sockets[i].inRoom
  {
    RunAges(states, steps, m, n);
    InvHolds(states, steps, n);
    assert Ages(states[m].sockets[i], states[n].sockets[i]);
    assert SocketOk(states[n].sockets[i], states[n].desk, states[n].now);
  }

  // ---- who is let into the room

  /** What `onAuthSuccess` asks for before a socket joins the admin room. */
  predicate MayJoin(s: State, id: SocketId, p: Principal, unexpired: bool)
    requires id in s.sockets
  {
    && s.polling.live && s.sockets[id].connected && s.sockets[id].engine in s.desk.table && unexpired
    && p.admin && !p.temporaryAuth && !p.mustChangePassword
  }

  lemma EligibleJoins(s: State, id: SocketId, p: Principal, token: Token)
    requires Inv(s) && id in s.sockets && MayJoin(s, id, p, true)
    ensures var k := DoAuthSuccess(s, id, p, token, true).sockets[id];
            k.inRoom && k.hasPrincipal && k.token == Some(token) && k.check == Check(token, p, s.now)
  {
    var k := Joined(s.sockets[id], token, p, s.now).(expiry := true);
    var s1 := EnterRoom(s, id, k);
    forall i ensures i !in Tokenless(s1.sockets) {
      assert i in s.sockets ==> SocketOk(s.sockets[i], s.desk, s.now);
    }
    StartPollingMovesNoSocket(s1);
  }

  lemma OthersStayOut(s: State, id: SocketId, p: Principal, token: Token, unexpired: bool)
    requires Inv(s) && id in s.sockets && !MayJoin(s, id, p, unexpired)
    ensures var k := DoAuthSuccess(s, id, p, token, unexpired).sockets[id]; !k.inRoom && !k.hasPrincipal
  {
    assert SocketOk(s.sockets[id], s.desk, s.now);
    if !s.polling.live {
      assert id !in Admins(s.sockets);
    } else if s.sockets[id].engine in s.desk.table {
      Joinable(s, id);
    }
  }

  /**
   A verified principal joins the admin room if and only if it is an admin with an ordinary session and no password
   change ahead, its token has not expired, its socket is connected and its reservation is still there.
   */
  lemma AdmittedExactly(states: seq<State>, steps: seq<Step>, n: nat, id: SocketId, p: Principal, unexpired: bool)
    requires Run(states, steps) && n < |steps| && steps[n] == AuthResult(id, Verified(p), unexpired)
    ensures id in states[n + 1].sockets
    ensures states[n + 1].sockets[id].inRoom <==> MayJoin(states[n], id, p, unexpired)
    ensures states[n + 1].sockets[id].hasPrincipal <==> MayJoin(states[n], id, p, unexpired)
  {
    InvHolds(states, steps, n);
    ResultAdmits(states[n], id, p, unexpired);
    RunAges(states, steps, n, n + 1);
  }

  lemma ResultAdmits(s: State, id: SocketId, p: Principal, unexpired: bool)
    requires Inv(s) && id in s.sockets && s.sockets[id].checking.Some?
    ensures var s' := DoAuthResult(s, id, Verified(p), unexpired);
            && id in s'.sockets && (s'.sockets[id].inRoom <==> MayJoin(s, id, p, unexpired))
            && (s'.sockets[id].hasPrincipal <==> MayJoin(s, id, p, unexpired))
  {
    var k, token := s.sockets[id].(checking := None), s.sockets[id].checking.value;
    var s1 := Put(s, id, k);
    AuthBegins(s, id, k);
    SuccessAdmits(s1, id, p, token, unexpired);
  }

  lemma SuccessAdmits(s: State, id: SocketId, p: Principal, token: Token, unexpired: bool)
    requires Inv(s) && id in s.sockets
    ensures var s' := DoAuthSuccess(s, id, p, token, unexpired);
            && id in s'.sockets && (s'.sockets[id].inRoom <==> MayJoin(s, id, p, unexpired))
            && (s'.sockets[id].hasPrincipal <==> MayJoin(s, id, p, unexpired))
  {
    forall i ensures i !in Tokenless(s.sockets) {
      assert i in s.sockets ==> SocketOk(s.sockets[i], s.desk, s.now);
    }
    AuthSuccessAges(s, id, p, token, unexpired);
    if MayJoin(s, id, p, unexpired) {
      EligibleJoins(s, id, p, token);
    } else {
      OthersStayOut(s, id, p, token, unexpired);
    }
  }

  /**
   Revalidating a token keeps all of its sockets in the room if it stands for such an admin, and none of them otherwise.
   */
  lemma RevalidatedExactly(s: State, p: nat, token: Token, result: Verification)
    requires Inv(s) && CanGroup(s, p, token)
    ensures var members, room, room' :=
              s.polling.polls[p].phase.groups[token], Room(s.sockets), Room(DoGroupResult(s, p, token, result).sockets);
            if && result.Verified? && result.principal.admin
               && !result.principal.temporaryAuth && !result.principal.mustChangePassword
            then room' == room
            else room' <= room - members
  {
    if Passed(result) {
      MarkingKeepsRoom(s.sockets, s.polling.polls[p].phase.groups[token], Check(token, result.principal, s.now));
    } else {
      DisconnectingEmptiesRoom(s, s.polling.polls[p].phase.groups[token]);
    }
  }

  lemma MarkingKeepsRoom(sockets: Sockets, members: set<SocketId>, check: Check)
    ensures Room(MarkChecked(sockets, members, check)) == Room(sockets)
  {
  }

  lemma DisconnectingEmptiesRoom(s: State, members: set<SocketId>)
    requires members <= s.sockets.Keys
    ensures Room(DisconnectAll(s, members).sockets) <= Room(s.sockets) - members
  {
    DisconnectAllLeave(s, members);
    DisconnectAllFrame(s, members);
  }
}
