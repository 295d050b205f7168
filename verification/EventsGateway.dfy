/**
 The gateway object: its own fields, and its handlers up to their next `await`. Each handler takes the step of the event
 machine and keeps the invariant that the theorems about runs rest on.
 */
module EventsGatewayService {
  import opened Wrappers
  import opened Reservations
  import opened Gateway
  import opened GatewaySafety
  import opened GatewayOrder
  import opened GatewayHistory

  class EventsGateway {
    var adminCount: int
    var pollGeneration: nat
    var inFlight: bool
    var pendingImmediate: bool
    var live: bool
    var interval: bool
    var cachedSnapshot: Option<nat>

    // what belongs to Socket.IO, Node and the reservation service
    var sockets: Sockets
    var desk: Desk
    var polls: map<nat, Poll>
    var nextPoll: nat
    var timers: nat
    var now: nat

    function PollingNow(): Polling
      reads this
    {
      Polling(adminCount, pollGeneration, inFlight, pendingImmediate, live, interval, cachedSnapshot, polls, nextPoll,
              timers)
    }

    /** The state of the event machine. */
    function Now(): State
      reads this
    {
      State(sockets, desk, PollingNow(), now)
    }

    /** What holds between two callbacks. */
    ghost predicate Valid()
      reads this
    {
      Inv(Now())
    }

    constructor ()
      ensures Valid() && Init(Now())
    {
      adminCount, pollGeneration, inFlight, pendingImmediate := 0, 0, false, false;
      live, interval, cachedSnapshot := true, false, None;
      sockets, desk, polls, nextPoll, timers, now := map[], Desk(map[], {}, 0, 0), map[], 0, 0, 0;
      new;
      assert Admins(sockets) == {};
    }

    // ---- what the handlers are made of

    method StopPolling()
      modifies this
      ensures Now() == old(Now()).(polling := Gateway.StopPolling(old(PollingNow())))
    {
      if interval {
        interval := false;
      }
      cachedSnapshot := None;
      pollGeneration := pollGeneration + 1;
      pendingImmediate := false;
    }

    method ReleaseReservation(e: EngineId) returns (found: bool)
      modifies this`desk
      ensures found == (e in old(desk).table) && desk == Gateway.Release(old(desk), e)
    {
      found := e in desk.table;
      if found {
        desk := desk.(table := Released(desk.table, e), released := desk.released + 1);
      }
    }

    /** One admin less. */
    method LoseAdmin()
      modifies this
      ensures Now() == old(Now()).(polling := DropAdmin(old(PollingNow())))
    {
      adminCount := if adminCount - 1 > 0 then adminCount - 1 else 0;
      if adminCount == 0 {
        StopPolling();
      }
    }

    method CleanupSocket(id: SocketId)
      requires id in sockets
      modifies this
      ensures Now() == Cleanup(old(Now()), id)
    {
      var k := sockets[id];
      if k.hasPrincipal {
        LoseAdmin();
      }
      k := k.(deadline := false, listening := false, expiry := false, hasPrincipal := false);
      k := k.(inRoom := false, cleaned := true);
      sockets := sockets[id := k];
      var _ := ReleaseReservation(k.engine);
    }

    method DisconnectSilent(id: SocketId)
      requires id in sockets
      modifies this
      ensures Now() == Gateway.DisconnectSilent(old(Now()), id)
    {
      CleanupSocket(id);
      sockets := Close(sockets, sockets[id].engine);
    }

    /** The loop over the sockets of a token. */
    method DisconnectMembers(ids: set<SocketId>)
      requires ids <= sockets.Keys
      modifies this
      ensures Now() == DisconnectAll(old(Now()), ids)
    {
      var rest := ids;
      while rest != {}
        invariant rest <= sockets.Keys
        invariant DisconnectAll(Now(), rest) == DisconnectAll(old(Now()), ids)
        decreases rest
      {
        var i :| i in rest;
        DisconnectAnyFirst(Now(), rest, i);
        DisconnectSilent(i);
        rest := rest - {i};
      }
    }

    /** The loop over the gateway's own sockets. */
    method CleanupMembers(ids: set<SocketId>)
      requires ids <= sockets.Keys
      modifies this
      ensures Now() == CleanupAll(old(Now()), ids)
    {
      var rest := ids;
      while rest != {}
        invariant rest <= sockets.Keys
        invariant CleanupAll(Now(), rest) == CleanupAll(old(Now()), ids)
        decreases rest
      {
        var i :| i in rest;
        CleanupAnyFirst(Now(), rest, i);
        CleanupSocket(i);
        rest := rest - {i};
      }
    }

    // ---- connection and authentication

    method HandleConnection(id: SocketId, e: EngineId, cookie: Cookie)
      requires Valid() && id !in sockets && e in desk.engines
      modifies this
      ensures Valid() && Now() == DoConnect(old(Now()), id, e, cookie)
    {
      ConnectKeeps(Now(), id, e, cookie);
      Connect(id, e, cookie);
    }

    method Connect(id: SocketId, e: EngineId, cookie: Cookie)
      requires id !in sockets
      modifies this
      ensures Now() == DoConnect(old(Now()), id, e, cookie)
    {
      var claimed := Claimable(desk.table, e);
      desk := desk.(table := Claimed(desk.table, e));
      sockets := sockets[id := NewSocket(e)];
      if !claimed {
        DisconnectSilent(id);
        return;
      }
      var armed := NewSocket(e).(deadline := true);
      sockets := sockets[id := armed];
      assert sockets == old(sockets)[id := armed];
      match cookie
      case BadCookie =>
        DisconnectSilent(id);
      case AccessToken(token) =>
        sockets := sockets[id := armed.(status := Verifying, checking := Some(token))];
        assert sockets == old(sockets)[id := armed.(status := Verifying, checking := Some(token))];
      case NoCookie =>
        sockets := sockets[id := armed.(listening := true)];
        assert sockets == old(sockets)[id := armed.(listening := true)];
    }

    /** The `auth` listener. */
    method HandleAuth(id: SocketId, payload: Option<Token>)
      requires Valid() && id in sockets
      modifies this
      ensures Valid() && Now() == DoAuthEvent(old(Now()), id, payload)
    {
      AuthEventKeeps(Now(), id, payload);
      Authenticate(id, payload);
    }

    method Authenticate(id: SocketId, payload: Option<Token>)
      requires id in sockets
      modifies this
      ensures Now() == DoAuthEvent(old(Now()), id, payload)
    {
      if sockets[id].status != Waiting {
        DisconnectSilent(id);
        return;
      }
      sockets := sockets[id := sockets[id].(status := Verifying)];
      if payload.None? {
        DisconnectSilent(id);
        return;
      }
      sockets := sockets[id := sockets[id].(checking := payload)];
      assert sockets == old(sockets)[id := sockets[id]];
    }

    /** The authentication deadline or the token's expiry. */
    method OnTimeout(id: SocketId)
      requires Valid() && id in sockets
      modifies this
      ensures Valid() && Now() == Gateway.DisconnectSilent(old(Now()), id)
    {
      DisconnectStepKeeps(Now(), id);
      DisconnectSilent(id);
    }

    method JoinRoom(id: SocketId, token: Token, p: Principal)
      requires id in sockets
      modifies this
      ensures Now() == EnterRoom(old(Now()), id, Joined(old(sockets)[id], token, p, old(now)))
    {
      var k := sockets[id];
      var _ := ReleaseReservation(k.engine);
      k := k.(deadline := false);
      k := k.(status := Authenticated, hasPrincipal := true, token := Some(token));
      k := k.(inRoom := true, authenticated := true, check := Check(token, p, now));
      sockets := sockets[id := k];
      adminCount := adminCount + 1;
    }

    method ArmExpiry(id: SocketId)
      requires id in sockets
      modifies this`sockets
      ensures sockets == old(sockets)[id := old(sockets)[id].(expiry := true)]
    {
      sockets := sockets[id := sockets[id].(expiry := true)];
    }

    /** The part of `onAuthSuccess` after its checks. */
    method Join(id: SocketId, token: Token, p: Principal, unexpired: bool)
      requires Valid() && live && id in sockets && sockets[id].engine in desk.table && sockets[id].connected
      requires MaySeeMetrics(p)
      modifies this
      ensures Now() == DoJoin(old(Now()), id, token, p, unexpired)
    {
      ghost var s, k := Now(), Joined(sockets[id], token, p, now);
      JoinRoom(id, token, p);
      if !unexpired {
        DisconnectSilent(id);
        return;
      }
      ArmExpiry(id);
      assert Now() == EnterRoom(s, id, k.(expiry := true)) by {
        assert s.sockets[id := k][id := k.(expiry := true)] == s.sockets[id := k.(expiry := true)];
      }
      JoinKeeps(s, id, token, p, k.(expiry := true));
      StartPollingIfNeeded();
    }

    method OnAuthSuccess(id: SocketId, p: Principal, token: Token, unexpired: bool)
      requires Valid() && id in sockets
      modifies this
      ensures Valid() && Now() == DoAuthSuccess(old(Now()), id, p, token, unexpired)
      ensures id in sockets && (sockets[id].inRoom <==> MayJoin(old(Now()), id, p, unexpired))
    {
      AuthSuccessKeeps(Now(), id, p, token, unexpired);
      SuccessAdmits(Now(), id, p, token, unexpired);
      if live {
        var k := sockets[id];
        if k.engine !in desk.table {
          DisconnectSilent(id);
        } else if !k.connected {
          var _ := ReleaseReservation(k.engine);
        } else if !Eligible(p) {
          var _ := ReleaseReservation(k.engine);
          sockets := Close(sockets[id := k.(deadline := false)], k.engine);
        } else {
          Join(id, token, p, unexpired);
        }
      }
    }

    /** The result of a token's verification arrives. */
    method OnVerification(id: SocketId, result: Verification, unexpired: bool)
      requires Valid() && id in sockets && sockets[id].checking.Some?
      modifies this
      ensures Valid() && Now() == DoAuthResult(old(Now()), id, result, unexpired)
    {
      AuthResultKeeps(Now(), id, result, unexpired);
      var token := sockets[id].checking.value;
      AuthBegins(Now(), id, sockets[id].(checking := None));
      sockets := sockets[id := sockets[id].(checking := None)];
      match result
      case Failed => DisconnectSilent(id);
      case Verified(p) => OnAuthSuccess(id, p, token, unexpired);
    }

    method HandleDisconnect(id: SocketId)
      requires Valid() && id in sockets
      modifies this
      ensures Valid() && Now() == DoDisconnected(old(Now()), id)
    {
      DisconnectedKeeps(Now(), id);
      var wasAuthenticated := sockets[id].hasPrincipal;
      var engine := sockets[id].engine;
      CleanupSocket(id);
      sockets := sockets[id := sockets[id].(known := false)];
      if !wasAuthenticated {
        sockets := Close(sockets, engine);
      }
    }

    method OnModuleDestroy()
      requires Valid()
      modifies this
      ensures Valid() && Now() == DoDestroy(old(Now()))
      ensures !live && adminCount == 0 && !interval && !pendingImmediate
    {
      DestroyKeeps(Now());
      CleanupAllFrame(ShutDown(Now()), Known(sockets));
      Destroy();
    }

    method Destroy()
      modifies this
      ensures Now() == DoDestroy(old(Now()))
    {
      GoDown();
      CleanupMembers(Known(sockets));
      ForgetSockets();
    }

    method GoDown()
      modifies this
      ensures Now() == ShutDown(old(Now()))
    {
      live := false;
      pollGeneration := pollGeneration + 1;
      StopPolling();
    }

    method ForgetSockets()
      modifies this
      ensures Now() == Forget(old(Now()))
    {
      sockets := map i | i in sockets :: sockets[i].(known := false);
    }

    // ---- polling

    method StartPollingIfNeeded()
      requires Core(Now()) && LiveOk(Now()) && adminCount > 0
      modifies this
      ensures Valid() && Now() == Gateway.StartPollingIfNeeded(old(Now()))
    {
      StartPollingKeeps(Now());
      if interval {
        return;
      }
      interval := true;
      if inFlight {
        pendingImmediate := true;
      } else {
        Tick(true);
      }
    }

    /** A tick up to its first `await`. */
    method Tick(immediate: bool)
      requires Valid()
      modifies this
      ensures Valid() && Now() == Gateway.Tick(old(Now()), immediate)
    {
      TickKeeps(Now(), immediate);
      if inFlight {
        return;
      }
      RoomHasTokens(Now());
      var p := nextPoll;
      nextPoll := nextPoll + 1;
      inFlight := true;
      Revalidate(p, Poll(pollGeneration, immediate, None, Collecting));
    }

    /** `revalidateAdmins` up to its first `await`; every room member has a token, so nobody is disconnected here. */
    method Revalidate(p: nat, poll: Poll)
      requires Tokenless(sockets) == {}
      modifies this`polls
      ensures Now() == BeginCheck(old(Now()), p, poll)
    {
      assert DisconnectAll(Now(), {}) == Now();
      if poll.generation != pollGeneration || !live || Room(sockets) == {} {
        polls := polls[p := poll.(phase := Checked(false))];
        return;
      }
      var groups, _ := GroupRoom();
      polls := polls[p := poll.(phase := if groups == map[] then Checked(false) else Checking(groups))];
    }

    /** The loop over the room: its tokens, each with its sockets, and the members without a token. */
    method GroupRoom() returns (groups: map<Token, set<SocketId>>, tokenless: set<SocketId>)
      ensures groups == Groups(sockets) && tokenless == Tokenless(sockets)
    {
      groups, tokenless := map[], {};
      var rest := Room(sockets);
      while rest != {}
        invariant rest <= Room(sockets)
        invariant Grouped(sockets, Room(sockets) - rest, groups)
        invariant tokenless == Tokenless(sockets) - rest
        decreases rest
      {
        var i :| i in rest;
        assert Room(sockets) - (rest - {i}) == Room(sockets) - rest + {i};
        if sockets[i].token.None? {
          assert i in Tokenless(sockets);
          tokenless := tokenless + {i};
        } else {
          var token := sockets[i].token.value;
          GroupedGrows(sockets, Room(sockets) - rest, groups, i, token);
          groups := groups[token := (if token in groups then groups[token] else {}) + {i}];
        }
        rest := rest - {i};
      }
      AllGrouped(sockets, groups);
    }

    /** One token of the group loop has been verified, or not. */
    method OnGroupVerified(p: nat, token: Token, result: Verification)
      requires Valid() && CanGroup(Now(), p, token)
      modifies this
      ensures Valid() && Now() == DoGroupResult(old(Now()), p, token, result)
      ensures if && result.Verified? && result.principal.admin
                 && !result.principal.temporaryAuth && !result.principal.mustChangePassword
              then Room(sockets) == Room(old(sockets))
              else Room(sockets) <= Room(old(sockets)) - old(polls)[p].phase.groups[token]
    {
      GroupKeeps(Now(), p, token, result);
      RevalidatedExactly(Now(), p, token, result);
      SettleGroup(p, token, result);
    }

    method SettleGroup(p: nat, token: Token, result: Verification)
      requires CanGroup(Now(), p, token)
      modifies this
      ensures Now() == DoGroupResult(old(Now()), p, token, result)
    {
      var poll := polls[p];
      var members, rest := poll.phase.groups[token], poll.phase.groups - {token};
      if Passed(result) {
        sockets := MarkChecked(sockets, members, Check(token, result.principal, now));
      } else {
        DisconnectMembers(members);
      }
      var phase := if rest != map[] then Checking(rest)
                   else Checked(poll.generation == pollGeneration && live && Room(sockets) != {});
      polls := polls[p := poll.(phase := phase)];
    }

    /** The `finally` block of a tick. */
    method FinishTick(p: nat)
      modifies this
      ensures Now() == old(Now()).(polling := Finish(old(PollingNow()), p))
    {
      inFlight := false;
      polls := polls - {p};
      if pendingImmediate && live {
        pendingImmediate := false;
        timers := timers + 1;
      }
    }

    /**
     A tick goes on after an `await`. When it sends stats to the room, every member has passed a check made since they
     were collected.
     */
    method ResumeTick(p: nat) returns (sent: bool)
      requires Valid() && CanResume(Now(), p)
      modifies this
      ensures Valid() && Now() == DoResume(old(Now()), p)
      ensures sent <==> Broadcasts(old(Now()), Resume(p))
      ensures sent ==> forall i | i in Room(sockets) ::
                sockets[i].check.at >= old(polls)[p].collectedAt.value && MaySeeMetrics(sockets[i].check.principal)
    {
      ResumeKeeps(Now(), p);
      assert PollOk(sockets, polls[p], now);
      assert forall i | i in Room(sockets) :: SocketOk(sockets[i], desk, now);
      var poll := polls[p];
      sent := false;
      match poll.phase
      case Checked(ok) =>
        if !ok {
          cachedSnapshot := None;
          FinishTick(p);
        } else if poll.collectedAt.None? {
          polls := polls[p := poll.(phase := Collecting)];
        } else {
          cachedSnapshot := Some(now);
          sent := true;
          FinishTick(p);
        }
      case Collected(present) =>
        if !present {
          cachedSnapshot := None;
          FinishTick(p);
        } else if poll.generation != pollGeneration || !live {
          FinishTick(p);
        } else {
          RoomHasTokens(Now());
          Revalidate(p, poll);
        }
    }
  }

  lemma RoomHasTokens(s: State)
    requires SocketsOk(s.sockets, s.desk, s.now)
    ensures Tokenless(s.sockets) == {}
  {
    forall i | i in s.sockets ensures s.sockets[i].inRoom ==> s.sockets[i].token.Some? {
      assert SocketOk(s.sockets[i], s.desk, s.now);
    }
  }

  /** `groups` holds the tokens of the sockets in `seen`. */
  ghost predicate Grouped(sockets: Sockets, seen: set<SocketId>, groups: map<Token, set<SocketId>>) {
    && (forall t | t in groups :: groups[t] != {})
    && (forall t, i | t in groups && i in groups[t] :: i in seen && i in sockets && sockets[i].token == Some(t))
    && (forall i | i in seen && i in sockets && sockets[i].token.Some? ::
          sockets[i].token.value in groups && i in groups[sockets[i].token.value])
  }

  lemma GroupedGrows(sockets: Sockets, seen: set<SocketId>, groups: map<Token, set<SocketId>>,
                     i: SocketId, token: Token)
    requires Grouped(sockets, seen, groups) && i in sockets && sockets[i].token == Some(token)
    ensures Grouped(sockets, seen + {i}, groups[token := (if token in groups then groups[token] else {}) + {i}])
  {
  }

  lemma AllGrouped(sockets: Sockets, groups: map<Token, set<SocketId>>)
    requires Grouped(sockets, Room(sockets), groups)
    ensures groups == Groups(sockets)
  {
    forall t | t in groups ensures t in RoomTokens(sockets) && groups[t] == Groups(sockets)[t] {
      var i :| i in groups[t];
      assert i in Room(sockets);
      forall j ensures j in groups[t] <==> j in Groups(sockets)[t] {
        if j in Groups(sockets)[t] {
          assert j in Room(sockets);
        }
      }
    }
    forall t | t in RoomTokens(sockets) ensures t in groups {
      var i :| i in sockets && sockets[i].inRoom && sockets[i].token == Some(t);
      assert i in Room(sockets);
    }
  }
}
