/**
 The realtime gateway as an event machine. One step is one callback run to its next `await`.

 `disconnect(true)` marks every socket of the connection disconnected and out of its rooms; the disconnect handler
 then runs as a step of its own. Room membership, connection state and timers belong to Socket.IO and Node and are
 part of the state, next to the gateway's own fields.
 */
module Gateway {
  import opened Wrappers
  import opened Reservations

  type SocketId = nat
  type Token = nat

  datatype AuthStatus = Waiting | Verifying | Authenticated

  datatype Principal = Principal(admin: bool, temporaryAuth: bool, mustChangePassword: bool)

  /** A token was verified at some time and stood for a principal that may see metrics. */
  datatype Check = Check(token: Token, principal: Principal, at: nat)

  datatype Socket = Socket(
    engine: EngineId,
    connected: bool,
    inRoom: bool,
    known: bool,               // in the gateway's own map of sockets
    status: AuthStatus,
    deadline: bool,            // the authentication deadline is armed
    listening: bool,           // the `auth` listener is attached
    checking: Option<Token>,   // a verification whose result has not arrived
    hasPrincipal: bool,
    token: Option<Token>,
    expiry: bool,              // the expiry timer is armed
    cleaned: bool,             // history: cleanup has run
    authenticated: bool,       // history: has been authenticated
    check: Check               // history: the last eligibility check it passed
  )

  datatype Phase =
    | Checking(groups: map<Token, set<SocketId>>)  // tokens still to be verified
    | Checked(ok: bool)                            // revalidation has returned, the tick has not resumed
    | Collecting
    | Collected(present: bool)                     // the collection has ended, the tick has not resumed

  /** One run of `tick` between its awaits; `collectedAt` is when its snapshot was collected. */
  datatype Poll = Poll(generation: nat, immediate: bool, collectedAt: Option<nat>, phase: Phase)

  /** The fields the gateway uses for polling. */
  datatype Polling = Polling(
    adminCount: int,
    generation: nat,
    inFlight: bool,
    pendingImmediate: bool,
    live: bool,
    interval: bool,
    cached: Option<nat>,
    polls: map<nat, Poll>,
    nextPoll: nat,
    timers: nat                // pending setTimeout(tick(true), 0)
  )

  /** The reservation table, with the history of its use; connection ids are never reused. */
  datatype Desk = Desk(table: Table, engines: set<EngineId>, accepted: nat, released: nat)

  type Sockets = map<SocketId, Socket>

  datatype State = State(sockets: Sockets, desk: Desk, polling: Polling, now: nat)

  datatype Cookie = NoCookie | BadCookie | AccessToken(token: Token)

  datatype Verification = Failed | Verified(principal: Principal)

  datatype Step =
    | Reserve(engine: EngineId)
    | RawClose(engine: EngineId)
    | ReservationDeadline(engine: EngineId)
    | Connect(id: SocketId, engine: EngineId, cookie: Cookie)
    | AuthEvent(id: SocketId, payload: Option<Token>)
    | AuthResult(id: SocketId, result: Verification, unexpired: bool)
    | AuthDeadline(id: SocketId)
    | TokenExpiry(id: SocketId)
    | Leave(id: SocketId)
    | Disconnected(id: SocketId)
    | IntervalTick
    | TimerTick
    | GroupResult(poll: nat, token: Token, result: Verification)
    | CollectResult(poll: nat, present: bool)
    | Resume(poll: nat)
    | Destroy
    | DestroyReservations

  predicate Eligible(p: Principal) {
    p.admin && !p.temporaryAuth && !p.mustChangePassword
  }

  predicate Passed(result: Verification) {
    result.Verified? && Eligible(result.principal)
  }

  ghost predicate Init(s: State) {
    s == State(map[], Desk(map[], {}, 0, 0), Polling(0, 0, false, false, true, false, None, map[], 0, 0), 0)
  }

  function Put(s: State, id: SocketId, sock: Socket): State {
    s.(sockets := s.sockets[id := sock])
  }

  function Release(desk: Desk, e: EngineId): Desk {
    if e in desk.table then desk.(table := Released(desk.table, e), released := desk.released + 1) else desk
  }

  /** The connection is closed: its sockets leave their rooms and are no longer connected. */
  function Close(sockets: Sockets, e: EngineId): (r: Sockets)
    ensures r.Keys == sockets.Keys
  {
    map i | i in sockets ::
      if sockets[i].engine == e then sockets[i].(connected := false, inRoom := false) else sockets[i]
  }

  function StopPolling(p: Polling): Polling {
    p.(interval := false, cached := None, generation := p.generation + 1, pendingImmediate := false)
  }

  /** One admin less; the last one stops the polling. */
  function DropAdmin(p: Polling): Polling {
    var n := if p.adminCount - 1 > 0 then p.adminCount - 1 else 0;
    if n == 0 then StopPolling(p.(adminCount := n)) else p.(adminCount := n)
  }

  function CleanedUp(sock: Socket): Socket {
    sock.(deadline := false, listening := false, expiry := false, hasPrincipal := false, inRoom := false,
          cleaned := true)
  }

  /** A socket gives up its timers, its listener, its principal, its room and its reservation. */
  function Cleanup(s: State, id: SocketId): (r: State)
    requires id in s.sockets
    ensures r.sockets.Keys == s.sockets.Keys
  {
    var sock := s.sockets[id];
    State(s.sockets[id := CleanedUp(sock)],
          Release(s.desk, sock.engine),
          if sock.hasPrincipal then DropAdmin(s.polling) else s.polling,
          s.now)
  }

  function DisconnectSilent(s: State, id: SocketId): (r: State)
    requires id in s.sockets
    ensures r.sockets.Keys == s.sockets.Keys && r.now == s.now
  {
    var s' := Cleanup(s, id);
    s'.(sockets := Close(s'.sockets, s.sockets[id].engine))
  }

  ghost function DisconnectAll(s: State, ids: set<SocketId>): (r: State)
    requires ids <= s.sockets.Keys
    ensures r.sockets.Keys == s.sockets.Keys && r.now == s.now
    decreases ids
  {
    if ids == {} then s
    else
      var i :| i in ids;
      DisconnectAll(DisconnectSilent(s, i), ids - {i})
  }

  // ---- polling

  predicate Current(p: Polling, poll: Poll) {
    poll.generation == p.generation && p.live
  }

  function Room(sockets: Sockets): set<SocketId> {
    set i | i in sockets && sockets[i].inRoom
  }

  function RoomTokens(sockets: Sockets): set<Token> {
    set i | i in sockets && sockets[i].inRoom && sockets[i].token.Some? :: sockets[i].token.value
  }

  function Groups(sockets: Sockets): map<Token, set<SocketId>> {
    map t | t in RoomTokens(sockets) :: set i | i in sockets && sockets[i].inRoom && sockets[i].token == Some(t)
  }

  function Tokenless(sockets: Sockets): set<SocketId> {
    set i | i in sockets && sockets[i].inRoom && sockets[i].token.None?
  }

  function SetPoll(s: State, p: nat, poll: Poll): State {
    s.(polling := s.polling.(polls := s.polling.polls[p := poll]))
  }

  /** revalidateAdmins up to its first await, or its early return. */
  ghost function BeginCheck(s: State, p: nat, poll: Poll): (r: State)
    ensures r.now == s.now
  {
    if !Current(s.polling, poll) || Room(s.sockets) == {} then SetPoll(s, p, poll.(phase := Checked(false)))
    else
      var s' := DisconnectAll(s, Tokenless(s.sockets));
      if Groups(s'.sockets) == map[] then SetPoll(s', p, poll.(phase := Checked(false)))
      else SetPoll(s', p, poll.(phase := Checking(Groups(s'.sockets))))
  }

  function MarkChecked(sockets: Sockets, members: set<SocketId>, check: Check): (r: Sockets)
    ensures r.Keys == sockets.Keys
  {
    map i | i in sockets :: if i in members then sockets[i].(check := check) else sockets[i]
  }

  /** One token of the group loop has been verified; after the last one the room is looked at again. */
  ghost function DoGroupResult(s: State, p: nat, token: Token, result: Verification): (r: State)
    requires CanGroup(s, p, token)
    ensures r.now == s.now
  {
    var poll := s.polling.polls[p];
    var members := poll.phase.groups[token];
    var s' := if Passed(result)
              then s.(sockets := MarkChecked(s.sockets, members, Check(token, result.principal, s.now)))
              else DisconnectAll(s, members);
    var rest := poll.phase.groups - {token};
    SetPoll(s', p, poll.(phase := if rest != map[] then Checking(rest)
                                  else Checked(Current(s'.polling, poll) && Room(s'.sockets) != {})))
  }

  predicate CanGroup(s: State, p: nat, token: Token) {
    && p in s.polling.polls && s.polling.polls[p].phase.Checking? && token in s.polling.polls[p].phase.groups
    && s.polling.polls[p].phase.groups[token] <= s.sockets.Keys
  }

  ghost function Tick(s: State, immediate: bool): (r: State)
    ensures r.now == s.now
  {
    if s.polling.inFlight then s
    else BeginCheck(s.(polling := s.polling.(inFlight := true, nextPoll := s.polling.nextPoll + 1)), s.polling.nextPoll,
                    Poll(s.polling.generation, immediate, None, Collecting))
  }

  function TimerFired(s: State): State
    requires s.polling.timers > 0
  {
    s.(polling := s.polling.(timers := s.polling.timers - 1))
  }

  ghost function StartPollingIfNeeded(s: State): (r: State)
    ensures r.now == s.now
  {
    if s.polling.interval then s
    else if s.polling.inFlight then s.(polling := s.polling.(interval := true, pendingImmediate := true))
    else Tick(s.(polling := s.polling.(interval := true)), true)
  }

  /** The `finally` block of a tick. */
  function Finish(q: Polling, p: nat): Polling {
    var q' := q.(inFlight := false, polls := q.polls - {p});
    if q.pendingImmediate && q.live then q'.(pendingImmediate := false, timers := q.timers + 1) else q'
  }

  predicate CanResume(s: State, p: nat) {
    p in s.polling.polls && (s.polling.polls[p].phase.Checked? || s.polling.polls[p].phase.Collected?)
  }

  ghost function DoResume(s: State, p: nat): (r: State)
    requires CanResume(s, p)
    ensures r.now == s.now
  {
    var q := s.polling;
    var poll := q.polls[p];
    match poll.phase
    case Checked(ok) =>
      if !ok then s.(polling := Finish(q.(cached := None), p))
      else if poll.collectedAt.None? then SetPoll(s, p, poll.(phase := Collecting))
      else s.(polling := Finish(q.(cached := Some(s.now)), p))  // the snapshot is cached and broadcast to the room
    case Collected(present) =>
      if !present then s.(polling := Finish(q.(cached := None), p))
      else if !Current(q, poll) then s.(polling := Finish(q, p))
      else BeginCheck(s, p, poll)
  }

  /** The step in which stats are sent to the admin room. */
  predicate Broadcasts(s: State, step: Step) {
    step.Resume? && step.poll in s.polling.polls && s.polling.polls[step.poll].phase == Checked(true)
    && s.polling.polls[step.poll].collectedAt.Some?
  }

  // ---- connection and authentication

  function NewSocket(e: EngineId): Socket {
    Socket(e, true, false, true, Waiting, false, false, None, false, None, false, false, false,
           Check(0, Principal(false, false, false), 0))
  }

  function DoConnect(s: State, id: SocketId, e: EngineId, cookie: Cookie): State {
    var s' := s.(desk := s.desk.(table := Claimed(s.desk.table, e)));
    if !Claimable(s.desk.table, e) then DisconnectSilent(Put(s', id, NewSocket(e)), id)
    else
      var armed := NewSocket(e).(deadline := true);
      match cookie
      case BadCookie => DisconnectSilent(Put(s', id, armed), id)
      case AccessToken(t) => Put(s', id, armed.(status := Verifying, checking := Some(t)))
      case NoCookie => Put(s', id, armed.(listening := true))
  }

  function DoAuthEvent(s: State, id: SocketId, payload: Option<Token>): State
    requires id in s.sockets
  {
    var sock := s.sockets[id];
    if sock.status != Waiting then DisconnectSilent(s, id)
    else if payload.None? then DisconnectSilent(Put(s, id, sock.(status := Verifying)), id)
    else Put(s, id, sock.(status := Verifying, checking := payload))
  }

  function Joined(sock: Socket, token: Token, p: Principal, now: nat): Socket {
    sock.(deadline := false, status := Authenticated, hasPrincipal := true, token := Some(token), inRoom := true,
          authenticated := true, check := Check(token, p, now))
  }

  /** One admin more, and one reservation less. */
  function EnterRoom(s: State, id: SocketId, k: Socket): State {
    State(s.sockets[id := k], Release(s.desk, k.engine), s.polling.(adminCount := s.polling.adminCount + 1), s.now)
  }

  /**
   An eligible admin joins the room; `unexpired` says whether its token still has time left when the timer is armed.
   */
  ghost function DoJoin(s: State, id: SocketId, token: Token, p: Principal, unexpired: bool): (r: State)
    requires id in s.sockets
    ensures r.now == s.now
  {
    var k := Joined(s.sockets[id], token, p, s.now);
    if !unexpired then DisconnectSilent(EnterRoom(s, id, k), id)
    else StartPollingIfNeeded(EnterRoom(s, id, k.(expiry := true)))
  }

  /** A verified principal that may not see metrics is disconnected; the disconnect handler will clean it up. */
  function DoRefuse(s: State, id: SocketId): State
    requires id in s.sockets
  {
    var k := s.sockets[id];
    State(Close(s.sockets[id := k.(deadline := false)], k.engine), Release(s.desk, k.engine), s.polling, s.now)
  }

  /** onAuthSuccess: the reservation is released first, whatever else is found. */
  ghost function DoAuthSuccess(s: State, id: SocketId, p: Principal, token: Token, unexpired: bool): (r: State)
    requires id in s.sockets
    ensures r.now == s.now
  {
    var k := s.sockets[id];
    if !s.polling.live then s
    else if k.engine !in s.desk.table then DisconnectSilent(s, id)
    else if !k.connected then s.(desk := Release(s.desk, k.engine))
    else if !Eligible(p) then DoRefuse(s, id)
    else DoJoin(s, id, token, p, unexpired)
  }

  ghost function DoAuthResult(s: State, id: SocketId, result: Verification, unexpired: bool): (r: State)
    requires id in s.sockets && s.sockets[id].checking.Some?
    ensures r.now == s.now
  {
    var token := s.sockets[id].checking.value;
    var s' := Put(s, id, s.sockets[id].(checking := None));
    match result
    case Failed => DisconnectSilent(s', id)
    case Verified(p) => DoAuthSuccess(s', id, p, token, unexpired)
  }

  function DoDisconnected(s: State, id: SocketId): State
    requires id in s.sockets
  {
    var s' := Cleanup(s, id);
    var s'' := Put(s', id, CleanedUp(s.sockets[id]).(known := false));
    if s.sockets[id].hasPrincipal then s'' else s''.(sockets := Close(s''.sockets, s.sockets[id].engine))
  }

  ghost function CleanupAll(s: State, ids: set<SocketId>): (r: State)
    requires ids <= s.sockets.Keys
    ensures r.sockets.Keys == s.sockets.Keys && r.now == s.now
    decreases ids
  {
    if ids == {} then s
    else
      var i :| i in ids;
      CleanupAll(Cleanup(s, i), ids - {i})
  }

  function Known(sockets: Sockets): set<SocketId> {
    set i | i in sockets && sockets[i].known
  }

  function Forget(s: State): State {
    s.(sockets := map i | i in s.sockets :: s.sockets[i].(known := false))
  }

  function ShutDown(s: State): State {
    s.(polling := StopPolling(s.polling.(live := false, generation := s.polling.generation + 1)))
  }

  ghost function DoDestroy(s: State): (r: State)
    ensures r.now == s.now
  {
    Forget(CleanupAll(ShutDown(s), Known(s.sockets)))
  }

  // ---- the step relation

  ghost predicate Enabled(s: State, step: Step) {
    match step
    case Reserve(e) => e !in s.desk.engines
    case RawClose(_) => true
    case ReservationDeadline(e) => e in s.desk.table
    case Connect(id, e, _) => id !in s.sockets && e in s.desk.engines  // a connection is reserved before its sockets
    case AuthEvent(id, _) => id in s.sockets && s.sockets[id].listening
    case AuthResult(id, _, _) => id in s.sockets && s.sockets[id].checking.Some?
    case AuthDeadline(id) => id in s.sockets && s.sockets[id].deadline
    case TokenExpiry(id) => id in s.sockets && s.sockets[id].expiry
    case Leave(id) => id in s.sockets
    case Disconnected(id) => id in s.sockets && !s.sockets[id].connected
    case IntervalTick => s.polling.interval
    case TimerTick => s.polling.timers > 0
    case GroupResult(p, token, _) => CanGroup(s, p, token)
    case CollectResult(p, _) => p in s.polling.polls && s.polling.polls[p].phase.Collecting?
    case Resume(p) => CanResume(s, p)
    case Destroy => s.polling.live
    case DestroyReservations => true
  }

  ghost function Effect(s: State, step: Step): State
    requires Enabled(s, step)
  {
    match step
    case Reserve(e) =>
      s.(desk := Desk(Reserved(s.desk.table, e), s.desk.engines + {e},
                      s.desk.accepted + (if Accepts(s.desk.table, e) then 1 else 0), s.desk.released))
    case RawClose(e) => s.(desk := Release(s.desk, e), sockets := Close(s.sockets, e))
    case ReservationDeadline(e) => s.(desk := Release(s.desk, e))
    case Connect(id, e, cookie) => DoConnect(s, id, e, cookie)
    case AuthEvent(id, payload) => DoAuthEvent(s, id, payload)
    case AuthResult(id, result, unexpired) => DoAuthResult(s, id, result, unexpired)
    case AuthDeadline(id) => DisconnectSilent(s, id)
    case TokenExpiry(id) => DisconnectSilent(s, id)
    case Leave(id) => Put(s, id, s.sockets[id].(connected := false, inRoom := false))
    case Disconnected(id) => DoDisconnected(s, id)
    case IntervalTick => Tick(s, false)
    case TimerTick => Tick(TimerFired(s), true)
    case GroupResult(p, token, result) => DoGroupResult(s, p, token, result)
    case CollectResult(p, present) =>
      SetPoll(s, p, s.polling.polls[p].(collectedAt := Some(s.now), phase := Collected(present)))
    case Resume(p) => DoResume(s, p)
    case Destroy => DoDestroy(s)
    case DestroyReservations => s.(desk := s.desk.(table := map[], released := s.desk.released + |s.desk.table|))
  }

  ghost function Next(s: State, step: Step): State
    requires Enabled(s, step)
  {
    var s' := Effect(s, step);
    s'.(now := s'.now + 1)
  }

  ghost predicate Run(states: seq<State>, steps: seq<Step>) {
    && |states| == |steps| + 1
    && Init(states[0])
    && (forall i | 0 <= i < |steps| :: Enabled(states[i], steps[i]) && states[i + 1] == Next(states[i], steps[i]))
  }
}
