/**
 What the gateway's handlers leave behind, in every run: what a connection waits for, what a disconnect closes, and how
 a tick goes on.
 */
module GatewayOutcomes {
  import opened Wrappers
  import opened Reservations
  import opened Gateway
  import opened GatewaySafety

  /** Only the sockets of one connection differ, and those are disconnected and out of the room. */
  ghost predicate Closes(sockets: Sockets, sockets': Sockets, e: EngineId) {
    && sockets.Keys <= sockets'.Keys
    && (forall i | i in sockets && sockets[i].engine != e :: sockets'[i] == sockets[i])
    && (forall i | i in sockets' && sockets'[i].engine == e :: !sockets'[i].connected && !sockets'[i].inRoom)
  }

  /** A socket that has been given up: no timer, no listener, no principal, and no reservation of its connection. */
  predicate GivenUp(s: State, id: SocketId)
    requires id in s.sockets
  {
    var k := s.sockets[id];
    !k.deadline && !k.listening && !k.expiry && !k.hasPrincipal && !k.inRoom && k.cleaned && k.engine !in s.desk.table
  }

  /** Reservations of other connections stay as they are. */
  ghost predicate OthersReserved(table: Table, table': Table, e: EngineId) {
    forall o | o != e :: (o in table <==> o in table') && (o in table ==> table'[o] == table[o])
  }

  lemma DisconnectCloses(s: State, id: SocketId)
    requires id in s.sockets
    ensures var s', e := DisconnectSilent(s, id), s.sockets[id].engine;
            && Closes(s.sockets, s'.sockets, e) && s'.sockets[id].engine == e && GivenUp(s', id)
            && OthersReserved(s.desk.table, s'.desk.table, e)
  {
  }

  /** A deadline or an expiry gives its socket up and closes that connection, and no other. */
  lemma TimeoutCloses(states: seq<State>, steps: seq<Step>, n: nat, id: SocketId)
    requires Run(states, steps) && n < |steps| && (steps[n] == AuthDeadline(id) || steps[n] == TokenExpiry(id))
    ensures var s, s' := states[n], states[n + 1];
            && Closes(s.sockets, s'.sockets, s.sockets[id].engine) && id in s'.sockets && GivenUp(s', id)
            && OthersReserved(s.desk.table, s'.desk.table, s.sockets[id].engine)
  {
    DisconnectCloses(states[n], id);
  }

  /** A raw connection that closes loses its reservation and all of its sockets, and no other connection does. */
  lemma RawCloseCloses(states: seq<State>, steps: seq<Step>, n: nat, e: EngineId)
    requires Run(states, steps) && n < |steps| && steps[n] == RawClose(e)
    ensures var s, s' := states[n], states[n + 1];
            && Closes(s.sockets, s'.sockets, e) && e !in s'.desk.table
            && OthersReserved(s.desk.table, s'.desk.table, e) && s'.polling == s.polling
  {
    assert Effect(states[n], steps[n])
        == states[n].(desk := Release(states[n].desk, e), sockets := Close(states[n].sockets, e));
  }

  /** A reservation that runs out is released, and no other; at shutdown all of them are, each counted once. */
  lemma ReservationsRunOut(states: seq<State>, steps: seq<Step>, n: nat)
    requires Run(states, steps) && n < |steps| && (steps[n].ReservationDeadline? || steps[n].DestroyReservations?)
    ensures var desk, desk', step := states[n].desk, states[n + 1].desk, steps[n];
            && states[n + 1].sockets == states[n].sockets && desk'.accepted == desk.accepted
            && (step.ReservationDeadline? ==>
                  && step.engine in desk.table && step.engine !in desk'.table && desk'.released == desk.released + 1
                  && OthersReserved(desk.table, desk'.table, step.engine))
            && (step.DestroyReservations? ==> desk'.table == map[] && desk'.released == desk.released + |desk.table|)
  {
    assert states[n + 1] == Next(states[n], steps[n]);
  }

  /** What a new socket waits for. */
  ghost predicate Awaits(k: Socket, e: EngineId, cookie: Cookie) {
    && k.engine == e && k.connected && k.known && k.deadline && !k.inRoom && !k.hasPrincipal && !k.expiry
    && !k.cleaned && !k.authenticated && k.token.None?
    && (cookie.AccessToken? ==> k.status == Verifying && k.checking == Some(cookie.token) && !k.listening)
    && (cookie.NoCookie? ==> k.status == Waiting && k.checking.None? && k.listening)
  }

  ghost predicate Connected(s: State, s': State, id: SocketId, e: EngineId, cookie: Cookie) {
    && id in s'.sockets && OthersReserved(s.desk.table, s'.desk.table, e)
    && (if e in s.desk.table && !s.desk.table[e] && !cookie.BadCookie?
        then && Awaits(s'.sockets[id], e, cookie) && e in s'.desk.table && s'.desk.table[e]
             && (forall i | i in s.sockets :: i in s'.sockets && s'.sockets[i] == s.sockets[i])
        else Closes(s.sockets, s'.sockets, e) && GivenUp(s', id) && !s'.sockets[id].connected)
  }

  lemma RefusedConnectionCloses(s: State, id: SocketId, e: EngineId, k: Socket)
    requires id !in s.sockets && k.engine == e
    ensures var s' := DisconnectSilent(Put(s.(desk := s.desk.(table := Claimed(s.desk.table, e))), id, k), id);
            && id in s'.sockets && OthersReserved(s.desk.table, s'.desk.table, e)
            && Closes(s.sockets, s'.sockets, e) && GivenUp(s', id) && !s'.sockets[id].connected
  {
    DisconnectCloses(Put(s.(desk := s.desk.(table := Claimed(s.desk.table, e))), id, k), id);
  }

  lemma AcceptedConnectionWaits(s: State, id: SocketId, e: EngineId, cookie: Cookie)
    requires id !in s.sockets && Claimable(s.desk.table, e) && !cookie.BadCookie?
    ensures Connected(s, DoConnect(s, id, e, cookie), id, e, cookie)
  {
  }

  lemma ConnectDecides(s: State, id: SocketId, e: EngineId, cookie: Cookie)
    requires id !in s.sockets
    ensures Connected(s, DoConnect(s, id, e, cookie), id, e, cookie)
  {
    if e in s.desk.table && !s.desk.table[e] && !cookie.BadCookie? {
      AcceptedConnectionWaits(s, id, e, cookie);
    } else {
      RefusedConnectionCloses(s, id, e, NewSocket(e));
      RefusedConnectionCloses(s, id, e, NewSocket(e).(deadline := true));
    }
  }

  /**
   A socket of a reserved, unclaimed connection waits, under its deadline, for the verification of its cookie or for an
   `auth` event; any other one, and one with a malformed cookie, is given up and its connection closed.
   */
  lemma ConnectionDecides(states: seq<State>, steps: seq<Step>, n: nat, id: SocketId, e: EngineId, cookie: Cookie)
    requires Run(states, steps) && n < |steps| && steps[n] == Connect(id, e, cookie)
    ensures Connected(states[n], states[n + 1], id, e, cookie)
  {
    ConnectDecides(states[n], id, e, cookie);
  }

  ghost predicate Challenged(s: State, s': State, id: SocketId, payload: Option<Token>)
    requires id in s.sockets
  {
    && id in s'.sockets
    && (if s.sockets[id].status == Waiting && payload.Some?
        then && s'.sockets[id].status == Verifying && s'.sockets[id].checking == payload
             && s'.sockets[id].connected == s.sockets[id].connected && s'.desk == s.desk
        else Closes(s.sockets, s'.sockets, s.sockets[id].engine) && GivenUp(s', id))
  }

  lemma AuthEventDecidesHere(s: State, id: SocketId, payload: Option<Token>)
    requires id in s.sockets
    ensures Challenged(s, DoAuthEvent(s, id, payload), id, payload)
  {
  }

  /** The first well-formed `auth` event starts a verification; any other one gives the socket up. */
  lemma AuthEventDecides(states: seq<State>, steps: seq<Step>, n: nat, id: SocketId, payload: Option<Token>)
    requires Run(states, steps) && n < |steps| && steps[n] == AuthEvent(id, payload)
    ensures Challenged(states[n], states[n + 1], id, payload)
  {
    AuthEventDecidesHere(states[n], id, payload);
  }

  ghost predicate Left(s: State, s': State, id: SocketId)
    requires id in s.sockets
  {
    && id in s'.sockets && s.sockets.Keys <= s'.sockets.Keys && GivenUp(s', id) && !s'.sockets[id].known
    && (!s.sockets[id].hasPrincipal ==> Closes(s.sockets, s'.sockets, s.sockets[id].engine))
    && (s.sockets[id].hasPrincipal ==> forall i | i in s.sockets && i != id :: s'.sockets[i] == s.sockets[i])
  }

  lemma DisconnectedClosesHere(s: State, id: SocketId)
    requires id in s.sockets
    ensures Left(s, DoDisconnected(s, id), id)
  {
  }

  /** A socket that disconnects without having been authenticated takes its raw connection down with it. */
  lemma DisconnectedCloses(states: seq<State>, steps: seq<Step>, n: nat, id: SocketId)
    requires Run(states, steps) && n < |steps| && steps[n] == Disconnected(id)
    ensures Left(states[n], states[n + 1], id)
  {
    DisconnectedClosesHere(states[n], id);
  }

  // ---- a tick from `await` to `await`

  /** The collection's result is recorded, with its time. */
  lemma CollectionIsRecorded(states: seq<State>, steps: seq<Step>, n: nat, p: nat, present: bool)
    requires Run(states, steps) && n < |steps| && steps[n] == CollectResult(p, present)
    ensures p in states[n + 1].polling.polls
    ensures states[n + 1].polling.polls[p].collectedAt == Some(states[n].now)
    ensures states[n + 1].polling.polls[p].phase == Collected(present)
  {
    assert states[n + 1] == Next(states[n], steps[n]);
  }

  /** The tick is over: its flight is free, and a pending immediate tick is now a timer unless the gateway is down. */
  predicate Over(q: Polling, q': Polling, p: nat) {
    && !q'.inFlight && p !in q'.polls
    && q'.timers == q.timers + (if q.pendingImmediate && q.live then 1 else 0)
    && q'.pendingImmediate == (q.pendingImmediate && !q.live)
    && q'.interval == q.interval && q'.adminCount == q.adminCount && q'.generation == q.generation
  }

  /** How a tick goes on, by what it waited for. */
  ghost predicate Resumed(s: State, q': Polling, p: nat)
    requires p in s.polling.polls
  {
    var q, poll := s.polling, s.polling.polls[p];
    match poll.phase
    case Checked(ok) =>
      if !ok then Over(q, q', p) && q'.cached.None?
      else if poll.collectedAt.None? then p in q'.polls && q'.polls[p] == poll.(phase := Collecting)
      else Over(q, q', p) && q'.cached == Some(s.now)
    case Collected(present) =>
      if !present then Over(q, q', p) && q'.cached.None?
      else if poll.generation != q.generation || !q.live then Over(q, q', p) && q'.cached == q.cached
      else
        && p in q'.polls
        && q'.polls[p].phase == if Groups(s.sockets) == map[] then Checked(false) else Checking(Groups(s.sockets))
    case _ => true
  }

  lemma ResumeDecidesHere(s: State, p: nat)
    requires Inv(s) && CanResume(s, p)
    ensures Resumed(s, DoResume(s, p).polling, p)
  {
    BeginCheckIsSetPoll(s, p, s.polling.polls[p]);
    EmptyRoomHasNoGroups(s.sockets);
  }

  lemma EmptyRoomHasNoGroups(sockets: Sockets)
    ensures Room(sockets) == {} ==> Groups(sockets) == map[]
  {
    if Room(sockets) == {} {
      assert forall i | i in sockets :: i !in Room(sockets) ==> !sockets[i].inRoom;
      assert RoomTokens(sockets) == {};
    }
  }

  /**
   A tick collects after a first revalidation that passed, revalidates again if the snapshot is there and its generation
   is current, sends it after a second one that passed, and ends in every other case.
   */
  lemma ResumeDecides(states: seq<State>, steps: seq<Step>, n: nat, p: nat)
    requires Run(states, steps) && n < |steps| && steps[n] == Resume(p)
    ensures Resumed(states[n], states[n + 1].polling, p)
  {
    InvHolds(states, steps, n);
    ResumeDecidesHere(states[n], p);
  }

  /** The groups of a revalidation: every room member under its own token, and nobody else. */
  lemma GroupsAreTheRoom(sockets: Sockets, t: Token, i: SocketId)
    ensures t in Groups(sockets) && i in Groups(sockets)[t] <==>
              i in sockets && sockets[i].inRoom && sockets[i].token == Some(t)
  {
    if i in sockets && sockets[i].inRoom && sockets[i].token == Some(t) {
      assert t in RoomTokens(sockets);
    }
  }
}
