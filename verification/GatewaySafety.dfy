/**
 What the gateway's fields say about its sockets at every event boundary, and who receives a broadcast.
 */
module GatewaySafety {
  import opened Wrappers
  import opened Reservations
  import opened Gateway
  import opened GatewayOrder

  function Admins(sockets: Sockets): set<SocketId> {
    set i | i in sockets && sockets[i].hasPrincipal
  }

  /** An admin with an ordinary session and no password change ahead. */
  predicate MaySeeMetrics(p: Principal) {
    p.admin && !p.temporaryAuth && !p.mustChangePassword
  }

  predicate SocketOk(k: Socket, desk: Desk, now: nat) {
    && (k.inRoom ==> k.hasPrincipal && k.connected)
    && (k.hasPrincipal ==> k.known && k.token.Some? && k.authenticated && !k.cleaned)
    && (k.cleaned || k.authenticated ==> k.engine !in desk.table)
    && (!k.known ==> k.cleaned)
    && k.engine in desk.engines
    && k.check.at <= now
    && (k.hasPrincipal ==> k.token == Some(k.check.token) && MaySeeMetrics(k.check.principal))
  }

  ghost predicate SocketsOk(sockets: Sockets, desk: Desk, now: nat) {
    && (forall i | i in sockets :: SocketOk(sockets[i], desk, now))
    && (forall i, j | i in sockets && j in sockets && sockets[i].authenticated && sockets[j].authenticated
                      && sockets[i].engine == sockets[j].engine :: i == j)
  }

  ghost predicate CountOk(sockets: Sockets, q: Polling) {
    q.adminCount == |Admins(sockets)|
  }

  /** At most one collection is in flight, and a pending immediate tick waits for it under an active interval. */
  ghost predicate FlightOk(q: Polling) {
    && (q.inFlight <==> q.polls != map[])
    && (forall a, b | a in q.polls && b in q.polls :: a == b)
    && (q.pendingImmediate ==> q.inFlight && q.interval)
  }

  ghost predicate IntervalOk(q: Polling) {
    q.interval <==> q.adminCount > 0
  }

  ghost predicate DeskOk(desk: Desk) {
    |desk.table| <= PENDING_CAP && desk.accepted == |desk.table| + desk.released && desk.table.Keys <= desk.engines
  }

  ghost predicate CheckedSince(k: Socket, t: nat) {
    k.check.at >= t
  }

  /** The sockets of a group have been accepted with its token. */
  ghost predicate Holders(sockets: Sockets, members: set<SocketId>, t: Token) {
    forall i | i in members :: i in sockets && sockets[i].authenticated && sockets[i].token == Some(t)
  }

  /** Every room member has been checked since the snapshot was collected, or its token is still to be verified. */
  ghost predicate PollOk(sockets: Sockets, poll: Poll, now: nat) {
    && (poll.phase.Checking? ==> forall t | t in poll.phase.groups :: Holders(sockets, poll.phase.groups[t], t))
    && (poll.phase.Collecting? ==> poll.collectedAt.None?)
    && (poll.collectedAt.Some? ==>
          && poll.collectedAt.value <= now
          && (poll.phase.Checking? ==>
                forall i | i in sockets && sockets[i].inRoom ::
                  CheckedSince(sockets[i], poll.collectedAt.value) || Listed(poll.phase.groups, i))
          && (poll.phase == Checked(true) ==>
                forall i | i in sockets && sockets[i].inRoom :: CheckedSince(sockets[i], poll.collectedAt.value)))
  }

  ghost predicate Listed(groups: map<Token, set<SocketId>>, i: SocketId) {
    exists t | t in groups :: i in groups[t]
  }

  ghost predicate PollsOk(sockets: Sockets, polls: map<nat, Poll>, now: nat) {
    forall p | p in polls :: PollOk(sockets, polls[p], now)
  }

  /** Everything but the tie between the admin count and the interval, which a handler may break for a moment. */
  ghost predicate Core(s: State) {
    && SocketsOk(s.sockets, s.desk, s.now)
    && CountOk(s.sockets, s.polling)
    && FlightOk(s.polling)
    && DeskOk(s.desk)
    && PollsOk(s.sockets, s.polling.polls, s.now)
  }

  /** After shutdown no socket is an admin. */
  ghost predicate LiveOk(s: State) {
    !s.polling.live ==> Admins(s.sockets) == {}
  }

  ghost predicate Inv(s: State) {
    Core(s) && LiveOk(s) && IntervalOk(s.polling)
  }

  // ---- releasing, closing, cleaning up

  lemma ReleaseKeeps(sockets: Sockets, desk: Desk, now: nat, e: EngineId)
    requires SocketsOk(sockets, desk, now) && DeskOk(desk)
    ensures SocketsOk(sockets, Release(desk, e), now) && DeskOk(Release(desk, e)) && e !in Release(desk, e).table
  {
    forall i | i in sockets ensures SocketOk(sockets[i], Release(desk, e), now) {
      assert SocketOk(sockets[i], desk, now);
    }
  }

  /** A token is kept, and so is the mark that it was accepted. */
  predicate SameToken(k: Socket, k': Socket) {
    k'.token == k.token && (k.authenticated ==> k'.authenticated)
  }

  /** Sockets that leave the room, without any other change a poll looks at. */
  ghost predicate RoomShrinks(sockets: Sockets, sockets': Sockets) {
    && sockets'.Keys >= sockets.Keys
    && (forall i | i in sockets' && sockets'[i].inRoom ::
          i in sockets && sockets[i].inRoom && sockets'[i].check == sockets[i].check)
    && (forall i | i in sockets :: SameToken(sockets[i], sockets'[i]))
  }

  lemma PollsKept(sockets: Sockets, sockets': Sockets, polls: map<nat, Poll>, now: nat)
    requires PollsOk(sockets, polls, now) && RoomShrinks(sockets, sockets')
    ensures PollsOk(sockets', polls, now)
  {
    forall p | p in polls ensures PollOk(sockets', polls[p], now) {
      assert PollOk(sockets, polls[p], now);
    }
  }

  lemma CloseKeepsSockets(sockets: Sockets, desk: Desk, now: nat, e: EngineId)
    requires SocketsOk(sockets, desk, now)
    ensures SocketsOk(Close(sockets, e), desk, now)
    ensures Admins(Close(sockets, e)) == Admins(sockets) && RoomShrinks(sockets, Close(sockets, e))
  {
    forall i | i in sockets ensures SocketOk(Close(sockets, e)[i], desk, now) {
      assert SocketOk(sockets[i], desk, now);
    }
  }

  lemma CloseKeeps(s: State, e: EngineId)
    requires Core(s)
    ensures Core(s.(sockets := Close(s.sockets, e)))
  {
    CloseKeepsSockets(s.sockets, s.desk, s.now, e);
    PollsKept(s.sockets, Close(s.sockets, e), s.polling.polls, s.now);
  }

  /** The clamp at zero is never needed: a socket with a principal has been counted. */
  lemma AdminsAfterCleanup(sockets: Sockets, id: SocketId, known: bool)
    requires id in sockets
    ensures var sockets' := sockets[id := CleanedUp(sockets[id]).(known := known)];
            && Admins(sockets') == Admins(sockets) - {id}
            && (sockets[id].hasPrincipal ==> |Admins(sockets)| == |Admins(sockets')| + 1)
            && (!sockets[id].hasPrincipal ==> Admins(sockets') == Admins(sockets))
  {
  }

  lemma DropAdminKeeps(q: Polling)
    requires FlightOk(q)
    ensures FlightOk(DropAdmin(q)) && DropAdmin(q).polls == q.polls
    ensures q.adminCount > 0 ==> DropAdmin(q).adminCount == q.adminCount - 1
  {
  }

  lemma CleanupKeepsSockets(s: State, id: SocketId, known: bool)
    requires Core(s) && id in s.sockets
    ensures var sockets' := s.sockets[id := CleanedUp(s.sockets[id]).(known := known)];
            && SocketsOk(sockets', Release(s.desk, s.sockets[id].engine), s.now)
            && DeskOk(Release(s.desk, s.sockets[id].engine))
            && RoomShrinks(s.sockets, sockets')
  {
    var k := s.sockets[id];
    var sockets' := s.sockets[id := CleanedUp(k).(known := known)];
    ReleaseKeeps(s.sockets, s.desk, s.now, k.engine);
    forall i | i in sockets' ensures SocketOk(sockets'[i], Release(s.desk, k.engine), s.now) {
      assert SocketOk(s.sockets[i], Release(s.desk, k.engine), s.now);
    }
  }

  /** Cleanup, with the socket kept in or dropped from the gateway's map. */
  lemma CleanupKeeps(s: State, id: SocketId, known: bool)
    requires Core(s) && id in s.sockets
    ensures Core(Put(Cleanup(s, id), id, CleanedUp(s.sockets[id]).(known := known)))
  {
    var s' := Put(Cleanup(s, id), id, CleanedUp(s.sockets[id]).(known := known));
    assert s'.sockets == s.sockets[id := CleanedUp(s.sockets[id]).(known := known)];
    DropAdminKeeps(s.polling);
    CleanupKeepsSockets(s, id, known);
    AdminsAfterCleanup(s.sockets, id, known);
    PollsKept(s.sockets, s'.sockets, s.polling.polls, s.now);
  }

  /** After a cleanup the interval runs exactly while admins remain. */
  lemma CleanupInterval(s: State, id: SocketId)
    requires Core(s) && id in s.sockets
    requires if s.sockets[id].hasPrincipal
             then s.polling.adminCount > 1 ==> s.polling.interval else IntervalOk(s.polling)
    ensures IntervalOk(Cleanup(s, id).polling)
  {
    AdminsAfterCleanup(s.sockets, id, s.sockets[id].known);
  }

  lemma CleanupIsPut(s: State, id: SocketId)
    requires id in s.sockets
    ensures Cleanup(s, id) == Put(Cleanup(s, id), id, CleanedUp(s.sockets[id]).(known := s.sockets[id].known))
  {
    var s' := Cleanup(s, id);
    assert s'.sockets == s'.sockets[id := CleanedUp(s.sockets[id])];
  }

  lemma DisconnectKeeps(s: State, id: SocketId)
    requires Core(s) && id in s.sockets
    requires if s.sockets[id].hasPrincipal
             then s.polling.adminCount > 1 ==> s.polling.interval else IntervalOk(s.polling)
    requires LiveOk(s)
    ensures Inv(DisconnectSilent(s, id))
  {
    CleanupIsPut(s, id);
    CleanupKeeps(s, id, s.sockets[id].known);
    CleanupInterval(s, id);
    AdminsAfterCleanup(s.sockets, id, s.sockets[id].known);
    CloseKeeps(Cleanup(s, id), s.sockets[id].engine);
    CloseKeepsSockets(Cleanup(s, id).sockets, Cleanup(s, id).desk, s.now, s.sockets[id].engine);
  }

  /** What disconnecting leaves alone, as seen from the poll in flight. */
  ghost predicate PollUntouched(s: State, s': State) {
    && s'.polling.polls == s.polling.polls && s'.polling.inFlight == s.polling.inFlight
    && s'.polling.live == s.polling.live && s'.now == s.now && s'.polling.nextPoll == s.polling.nextPoll
    && RoomShrinks(s.sockets, s'.sockets)
  }

  lemma DisconnectFrame(s: State, id: SocketId)
    requires id in s.sockets
    ensures PollUntouched(s, DisconnectSilent(s, id)) && !DisconnectSilent(s, id).sockets[id].inRoom
  {
  }

  lemma UntouchedTwice(s: State, s1: State, s2: State)
    requires PollUntouched(s, s1) && PollUntouched(s1, s2)
    ensures PollUntouched(s, s2)
  {
  }

  lemma {:induction false} DisconnectAllFrame(s: State, ids: set<SocketId>)
    requires ids <= s.sockets.Keys
    ensures PollUntouched(s, DisconnectAll(s, ids))
    decreases ids
  {
    if ids != {} {
      var i :| i in ids && DisconnectAll(s, ids) == DisconnectAll(DisconnectSilent(s, i), ids - {i});
      DisconnectFrame(s, i);
      DisconnectAllFrame(DisconnectSilent(s, i), ids - {i});
      UntouchedTwice(s, DisconnectSilent(s, i), DisconnectAll(s, ids));
    }
  }

  lemma StaysOut(s: State, ids: set<SocketId>, i: SocketId)
    requires ids <= s.sockets.Keys && i in s.sockets && !s.sockets[i].inRoom
    ensures !DisconnectAll(s, ids).sockets[i].inRoom
  {
    DisconnectAllFrame(s, ids);
  }

  lemma EachLeaves(s: State, ids: set<SocketId>, i: SocketId)
    requires ids <= s.sockets.Keys && i in ids
    ensures !DisconnectAll(s, ids).sockets[i].inRoom
  {
    DisconnectAnyFirst(s, ids, i);
    DisconnectFrame(s, i);
    StaysOut(DisconnectSilent(s, i), ids - {i}, i);
  }

  lemma DisconnectAllLeave(s: State, ids: set<SocketId>)
    requires ids <= s.sockets.Keys
    ensures forall i | i in ids :: !DisconnectAll(s, ids).sockets[i].inRoom
  {
    forall i | i in ids ensures !DisconnectAll(s, ids).sockets[i].inRoom {
      EachLeaves(s, ids, i);
    }
  }

  lemma {:induction false} DisconnectAllKeeps(s: State, ids: set<SocketId>)
    requires Inv(s) && ids <= s.sockets.Keys
    ensures Inv(DisconnectAll(s, ids))
    decreases ids
  {
    if ids != {} {
      var i :| i in ids && DisconnectAll(s, ids) == DisconnectAll(DisconnectSilent(s, i), ids - {i});
      DisconnectKeeps(s, i);
      DisconnectAllKeeps(DisconnectSilent(s, i), ids - {i});
    }
  }

  lemma CleanupFrame(s: State, id: SocketId)
    requires id in s.sockets && !s.polling.interval
    ensures Admins(Cleanup(s, id).sockets) == Admins(s.sockets) - {id}
    ensures !Cleanup(s, id).polling.interval && Cleanup(s, id).polling.live == s.polling.live
            && Cleanup(s, id).now == s.now
  {
  }

  lemma {:induction false} CleanupAllFrame(s: State, ids: set<SocketId>)
    requires ids <= s.sockets.Keys && !s.polling.interval
    ensures Admins(CleanupAll(s, ids).sockets) == Admins(s.sockets) - ids
    ensures CleanupAll(s, ids).polling.live == s.polling.live && CleanupAll(s, ids).now == s.now
    ensures !CleanupAll(s, ids).polling.interval
    decreases ids
  {
    if ids == {} {
      assert Admins(s.sockets) - ids == Admins(s.sockets);
    } else {
      var i :| i in ids && CleanupAll(s, ids) == CleanupAll(Cleanup(s, i), ids - {i});
      CleanupFrame(s, i);
      CleanupAllFrame(Cleanup(s, i), ids - {i});
      assert Admins(s.sockets) - {i} - (ids - {i}) == Admins(s.sockets) - ids;
    }
  }

  lemma {:induction false} CleanupAllKeeps(s: State, ids: set<SocketId>)
    requires Core(s) && ids <= s.sockets.Keys
    ensures Core(CleanupAll(s, ids))
    decreases ids
  {
    if ids != {} {
      var i :| i in ids && CleanupAll(s, ids) == CleanupAll(Cleanup(s, i), ids - {i});
      CleanupIsPut(s, i);
      CleanupKeeps(s, i, s.sockets[i].known);
      CleanupAllKeeps(Cleanup(s, i), ids - {i});
    }
  }

  // ---- polling

  /** A poll that is about to look at the room: nobody has been checked yet, but every member is listed. */
  lemma EveryoneIsListed(sockets: Sockets, i: SocketId)
    requires i in sockets && sockets[i].inRoom && sockets[i].token.Some?
    ensures Listed(Groups(sockets), i)
  {
    var t := sockets[i].token.value;
    assert t in RoomTokens(sockets);
    assert i in Groups(sockets)[t];
  }

  /** Storing the phase of the one poll in flight. */
  lemma SetPollKeeps(s: State, p: nat, poll: Poll)
    requires Core(s) && s.polling.inFlight && (forall a | a in s.polling.polls :: a == p)
    requires PollOk(s.sockets, poll, s.now)
    ensures Core(SetPoll(s, p, poll))
  {
  }

  function CheckPhase(s: State, poll: Poll): Phase {
    if !Current(s.polling, poll) || Room(s.sockets) == {} || Groups(s.sockets) == map[] then Checked(false)
    else Checking(Groups(s.sockets))
  }

  /** Every room member has a token, so a revalidation starts without disconnecting anyone. */
  lemma BeginCheckIsSetPoll(s: State, p: nat, poll: Poll)
    requires SocketsOk(s.sockets, s.desk, s.now)
    ensures BeginCheck(s, p, poll) == SetPoll(s, p, poll.(phase := CheckPhase(s, poll)))
  {
    forall i | i in s.sockets && s.sockets[i].inRoom ensures s.sockets[i].token.Some? {
      assert SocketOk(s.sockets[i], s.desk, s.now);
    }
    assert Tokenless(s.sockets) == {};
  }

  lemma CheckPhaseOk(s: State, poll: Poll)
    requires SocketsOk(s.sockets, s.desk, s.now)
    requires poll.collectedAt.Some? ==> poll.collectedAt.value <= s.now
    ensures PollOk(s.sockets, poll.(phase := CheckPhase(s, poll)), s.now)
  {
    forall i | i in s.sockets && s.sockets[i].inRoom ensures Listed(Groups(s.sockets), i) {
      assert SocketOk(s.sockets[i], s.desk, s.now);
      EveryoneIsListed(s.sockets, i);
    }
  }

  /** A tick that starts while nothing is in flight. */
  lemma FlightStarts(s: State, p: nat, poll: Poll)
    requires Inv(s) && !s.polling.inFlight && PollOk(s.sockets, poll, s.now)
    ensures Inv(SetPoll(s.(polling := s.polling.(inFlight := true, nextPoll := s.polling.nextPoll + 1)), p, poll))
  {
    assert s.polling.polls == map[];
    var polls := s.polling.polls[p := poll];
    assert polls.Keys == {p};
    assert PollsOk(s.sockets, polls, s.now);
  }

  lemma TickKeeps(s: State, immediate: bool)
    requires Inv(s)
    ensures Inv(Tick(s, immediate))
  {
    if !s.polling.inFlight {
      var p, poll := s.polling.nextPoll, Poll(s.polling.generation, immediate, None, Collecting);
      var s1 := s.(polling := s.polling.(inFlight := true, nextPoll := s.polling.nextPoll + 1));
      BeginCheckIsSetPoll(s1, p, poll);
      CheckPhaseOk(s1, poll);
      FlightStarts(s, p, poll.(phase := CheckPhase(s1, poll)));
    }
  }

  lemma StartPollingKeeps(s: State)
    requires Core(s) && LiveOk(s) && s.polling.adminCount > 0
    ensures Inv(StartPollingIfNeeded(s))
  {
    if !s.polling.interval && !s.polling.inFlight {
      var s1 := s.(polling := s.polling.(interval := true));
      TickKeeps(s1, true);
    }
  }

  lemma FinishKeeps(s: State, p: nat, cached: Option<nat>)
    requires Inv(s) && p in s.polling.polls
    ensures Inv(s.(polling := Finish(s.polling.(cached := cached), p)))
  {
    assert s.polling.polls - {p} == map[];
  }

  lemma ResumeKeeps(s: State, p: nat)
    requires Inv(s) && CanResume(s, p)
    ensures Inv(DoResume(s, p))
  {
    var poll := s.polling.polls[p];
    assert PollOk(s.sockets, poll, s.now);
    if poll.phase == Collected(true) && Current(s.polling, poll) {
      BeginCheckIsSetPoll(s, p, poll);
      CheckPhaseOk(s, poll);
      SetPollKeeps(s, p, poll.(phase := CheckPhase(s, poll)));
    } else if poll.phase == Checked(true) && poll.collectedAt.None? {
      SetPollKeeps(s, p, poll.(phase := Collecting));
    } else {
      FinishKeeps(s, p, s.polling.cached);
      FinishKeeps(s, p, None);
      FinishKeeps(s, p, Some(s.now));
    }
  }

  lemma MarkCheckedKeeps(s: State, members: set<SocketId>, check: Check)
    requires Inv(s) && Holders(s.sockets, members, check.token) && MaySeeMetrics(check.principal) && check.at == s.now
    ensures Inv(s.(sockets := MarkChecked(s.sockets, members, check)))
  {
    var sockets' := MarkChecked(s.sockets, members, check);
    assert Admins(sockets') == Admins(s.sockets);
    forall i | i in sockets' ensures SocketOk(sockets'[i], s.desk, s.now) {
      assert SocketOk(s.sockets[i], s.desk, s.now);
    }
    forall p | p in s.polling.polls ensures PollOk(sockets', s.polling.polls[p], s.now) {
      assert PollOk(s.sockets, s.polling.polls[p], s.now);
    }
  }

  /** After one group has been verified or disconnected, who is still in the room is checked or still listed. */
  lemma GroupDone(s: State, s': State, poll: Poll, token: Token, phase: Phase)
    requires PollOk(s.sockets, poll, s.now) && poll.phase.Checking? && token in poll.phase.groups
    requires s'.now == s.now && s'.sockets.Keys == s.sockets.Keys
    requires forall i | i in s.sockets :: SameToken(s.sockets[i], s'.sockets[i])
    requires forall i | i in s'.sockets && s'.sockets[i].inRoom ::
               && s.sockets[i].inRoom && s'.sockets[i].check.at >= s.sockets[i].check.at
               && (i in poll.phase.groups[token] ==> s'.sockets[i].check.at == s.now)
    requires var rest := poll.phase.groups - {token};
             phase == if rest != map[] then Checking(rest) else Checked(phase.Checked? && phase.ok)
    ensures PollOk(s'.sockets, poll.(phase := phase), s.now)
  {
    var rest := poll.phase.groups - {token};
    if poll.collectedAt.Some? {
      forall i | i in s'.sockets && s'.sockets[i].inRoom
        ensures CheckedSince(s'.sockets[i], poll.collectedAt.value) || Listed(rest, i)
      {
        if !CheckedSince(s.sockets[i], poll.collectedAt.value) && i !in poll.phase.groups[token] {
          var t :| t in poll.phase.groups && i in poll.phase.groups[t];
          assert t in rest && i in rest[t];
        }
      }
    }
  }

  lemma GroupKeeps(s: State, p: nat, token: Token, result: Verification)
    requires Inv(s) && CanGroup(s, p, token)
    ensures Inv(DoGroupResult(s, p, token, result))
  {
    var poll := s.polling.polls[p];
    var members := poll.phase.groups[token];
    assert PollOk(s.sockets, poll, s.now);
    var s' := DisconnectAll(s, members);
    if Passed(result) {
      var check := Check(token, result.principal, s.now);
      s' := s.(sockets := MarkChecked(s.sockets, members, check));
      MarkCheckedKeeps(s, members, check);
      forall i | i in s.sockets ensures s'.sockets[i].check.at >= s.sockets[i].check.at {
        assert SocketOk(s.sockets[i], s.desk, s.now);
      }
    } else {
      DisconnectAllKeeps(s, members);
      DisconnectAllFrame(s, members);
      DisconnectAllLeave(s, members);
    }
    var phase := DoGroupResult(s, p, token, result).polling.polls[p].phase;
    GroupDone(s, s', poll, token, phase);
    SetPollKeeps(s', p, poll.(phase := phase));
  }

  // ---- connections

  lemma ClockKeeps(s: State)
    requires Inv(s)
    ensures Inv(s.(now := s.now + 1))
  {
    forall i | i in s.sockets ensures SocketOk(s.sockets[i], s.desk, s.now + 1) {
      assert SocketOk(s.sockets[i], s.desk, s.now);
    }
    forall p | p in s.polling.polls ensures PollOk(s.sockets, s.polling.polls[p], s.now + 1) {
      assert PollOk(s.sockets, s.polling.polls[p], s.now);
    }
  }

  /** Only the reservation table changes, and no connection id comes back. */
  lemma DeskKeeps(s: State, desk: Desk)
    requires Inv(s) && DeskOk(desk) && s.desk.engines <= desk.engines
    requires forall e | e in desk.table :: e in s.desk.table || e !in s.desk.engines
    ensures Inv(s.(desk := desk))
  {
    forall i | i in s.sockets ensures SocketOk(s.sockets[i], desk, s.now) {
      assert SocketOk(s.sockets[i], s.desk, s.now);
    }
  }

  lemma ReleaseStepKeeps(s: State, e: EngineId)
    requires Inv(s)
    ensures Inv(s.(desk := Release(s.desk, e)))
  {
    ReleaseKeeps(s.sockets, s.desk, s.now, e);
    DeskKeeps(s, Release(s.desk, e));
  }

  lemma CloseStepKeeps(s: State, e: EngineId)
    requires Inv(s)
    ensures Inv(s.(sockets := Close(s.sockets, e)))
  {
    CloseKeeps(s, e);
    CloseKeepsSockets(s.sockets, s.desk, s.now, e);
  }

  /** A socket that is in no room and holds no principal changes, or appears. */
  lemma PutKeeps(s: State, id: SocketId, k: Socket)
    requires Inv(s) && !k.inRoom && !k.hasPrincipal && SocketOk(k, s.desk, s.now)
    requires id in s.sockets ==> !s.sockets[id].hasPrincipal && k.engine == s.sockets[id].engine
                                 && k.authenticated == s.sockets[id].authenticated && k.token == s.sockets[id].token
    requires id !in s.sockets ==> !k.authenticated
    ensures Inv(Put(s, id, k))
  {
    var sockets' := s.sockets[id := k];
    assert Admins(sockets') == Admins(s.sockets);
    if id in s.sockets {
      assert SocketOk(s.sockets[id], s.desk, s.now);
    }
    PollsKept(s.sockets, sockets', s.polling.polls, s.now);
  }

  /** A change to a socket's connection or pending verification, which the other fields do not depend on. */
  lemma TouchKeeps(s: State, id: SocketId, k: Socket)
    requires Inv(s) && id in s.sockets
    requires k == s.sockets[id].(connected := k.connected, inRoom := k.inRoom, checking := k.checking,
             status := k.status)
    requires (k.inRoom ==> s.sockets[id].inRoom) && (k.inRoom ==> k.connected)
    ensures Inv(Put(s, id, k))
  {
    var sockets' := s.sockets[id := k];
    assert Admins(sockets') == Admins(s.sockets);
    forall i | i in sockets' ensures SocketOk(sockets'[i], s.desk, s.now) {
      assert SocketOk(s.sockets[i], s.desk, s.now);
    }
    PollsKept(s.sockets, sockets', s.polling.polls, s.now);
  }

  lemma ConnectKeeps(s: State, id: SocketId, e: EngineId, cookie: Cookie)
    requires Inv(s) && id !in s.sockets && e in s.desk.engines
    ensures Inv(DoConnect(s, id, e, cookie))
  {
    var desk := s.desk.(table := Claimed(s.desk.table, e));
    var s1 := s.(desk := desk);
    DeskKeeps(s, desk);
    var k := if !Claimable(s.desk.table, e) then NewSocket(e) else DoConnectSocket(e, cookie);
    PutKeeps(s1, id, k);
    if !Claimable(s.desk.table, e) || cookie.BadCookie? {
      DisconnectKeeps(Put(s1, id, k), id);
    }
  }

  function DoConnectSocket(e: EngineId, cookie: Cookie): Socket {
    var armed := NewSocket(e).(deadline := true);
    match cookie
    case BadCookie => armed
    case AccessToken(t) => armed.(status := Verifying, checking := Some(t))
    case NoCookie => armed.(listening := true)
  }

  lemma DisconnectStepKeeps(s: State, id: SocketId)
    requires Inv(s) && id in s.sockets
    ensures Inv(DisconnectSilent(s, id))
  {
    DisconnectKeeps(s, id);
  }

  /** A token was presented and its verification is under way. */
  lemma AuthBegins(s: State, id: SocketId, k: Socket)
    requires Inv(s) && id in s.sockets && k == s.sockets[id].(status := k.status, checking := k.checking)
    ensures Inv(Put(s, id, k))
  {
    assert SocketOk(s.sockets[id], s.desk, s.now);
    TouchKeeps(s, id, k);
  }

  /** The payload holds no token. */
  lemma AuthIsMalformed(s: State, id: SocketId)
    requires Inv(s) && id in s.sockets
    ensures Inv(DisconnectSilent(Put(s, id, s.sockets[id].(status := Verifying)), id))
  {
    AuthBegins(s, id, s.sockets[id].(status := Verifying));
    DisconnectStepKeeps(Put(s, id, s.sockets[id].(status := Verifying)), id);
  }

  lemma AuthEventKeeps(s: State, id: SocketId, payload: Option<Token>)
    requires Inv(s) && id in s.sockets
    ensures Inv(DoAuthEvent(s, id, payload))
  {
    if s.sockets[id].status != Waiting {
      DisconnectStepKeeps(s, id);
    } else if payload.None? {
      AuthIsMalformed(s, id);
    } else {
      AuthBegins(s, id, s.sockets[id].(status := Verifying, checking := payload));
    }
  }

  /** A socket whose reservation is still there has never been cleaned up or authenticated. */
  lemma Joinable(s: State, id: SocketId)
    requires Inv(s) && id in s.sockets && s.sockets[id].engine in s.desk.table
    ensures var k := s.sockets[id]; !k.hasPrincipal && !k.cleaned && !k.authenticated && k.known && !k.inRoom
    ensures forall j | j in s.sockets && s.sockets[j].engine == s.sockets[id].engine :: !s.sockets[j].authenticated
  {
    forall j | j in s.sockets && s.sockets[j].engine == s.sockets[id].engine ensures !s.sockets[j].authenticated {
      assert SocketOk(s.sockets[j], s.desk, s.now);
    }
    assert SocketOk(s.sockets[id], s.desk, s.now);
  }

  lemma JoinKeepsPolls(sockets: Sockets, polls: map<nat, Poll>, now: nat, id: SocketId, k: Socket)
    requires PollsOk(sockets, polls, now) && id in sockets && k.check.at == now && !sockets[id].authenticated
    ensures PollsOk(sockets[id := k], polls, now)
  {
    forall p | p in polls ensures PollOk(sockets[id := k], polls[p], now) {
      assert PollOk(sockets, polls[p], now);
    }
  }

  lemma JoinKeepsSockets(s: State, id: SocketId, token: Token, p: Principal, k: Socket)
    requires Inv(s) && id in s.sockets && s.sockets[id].engine in s.desk.table && s.sockets[id].connected
    requires MaySeeMetrics(p)
    requires k == Joined(s.sockets[id], token, p, s.now).(expiry := k.expiry)
    ensures SocketsOk(s.sockets[id := k], Release(s.desk, k.engine), s.now) && DeskOk(Release(s.desk, k.engine))
  {
    Joinable(s, id);
    ReleaseKeeps(s.sockets, s.desk, s.now, k.engine);
    assert SocketOk(s.sockets[id], s.desk, s.now);
    JoinedSockets(s.sockets, Release(s.desk, k.engine), s.now, id, k);
  }

  /** The join: a reserved connection is released and its socket becomes the one authenticated socket on it. */
  lemma JoinKeeps(s: State, id: SocketId, token: Token, p: Principal, k: Socket)
    requires Inv(s) && s.polling.live && id in s.sockets && s.sockets[id].engine in s.desk.table
    requires s.sockets[id].connected && MaySeeMetrics(p)
    requires k == Joined(s.sockets[id], token, p, s.now).(expiry := k.expiry)
    ensures Core(EnterRoom(s, id, k))
  {
    Joinable(s, id);
    JoinKeepsSockets(s, id, token, p, k);
    assert Admins(s.sockets[id := k]) == Admins(s.sockets) + {id};
    JoinKeepsPolls(s.sockets, s.polling.polls, s.now, id, k);
  }

  lemma JoinedSockets(sockets: Sockets, desk: Desk, now: nat, id: SocketId, k: Socket)
    requires SocketsOk(sockets, desk, now) && id in sockets && SocketOk(k, desk, now)
    requires k.engine == sockets[id].engine
    requires forall j | j in sockets && sockets[j].authenticated :: sockets[j].engine != k.engine
    ensures SocketsOk(sockets[id := k], desk, now)
  {
  }

  lemma RefusalKeeps(s: State, id: SocketId)
    requires Inv(s) && id in s.sockets && s.sockets[id].engine in s.desk.table
    ensures Inv(DoRefuse(s, id))
  {
    var k := s.sockets[id];
    var s1 := Put(s, id, k.(deadline := false));
    Joinable(s, id);
    assert SocketOk(k, s.desk, s.now);
    PutKeeps(s, id, k.(deadline := false));
    ReleaseStepKeeps(s1, k.engine);
    CloseStepKeeps(s1.(desk := Release(s.desk, k.engine)), k.engine);
  }

  lemma JoinCompletes(s: State, id: SocketId, token: Token, p: Principal, unexpired: bool)
    requires Inv(s) && s.polling.live && id in s.sockets && s.sockets[id].engine in s.desk.table
             && s.sockets[id].connected && MaySeeMetrics(p)
    ensures Inv(DoJoin(s, id, token, p, unexpired))
  {
    if unexpired {
      JoinStarts(s, id, token, p);
    } else {
      JoinExpires(s, id, token, p);
    }
  }

  lemma JoinStarts(s: State, id: SocketId, token: Token, p: Principal)
    requires Inv(s) && s.polling.live && id in s.sockets && s.sockets[id].engine in s.desk.table
             && s.sockets[id].connected && MaySeeMetrics(p)
    ensures Inv(DoJoin(s, id, token, p, true))
  {
    var k := Joined(s.sockets[id], token, p, s.now).(expiry := true);
    JoinKeeps(s, id, token, p, k);
    StartPollingKeeps(EnterRoom(s, id, k));
  }

  lemma JoinExpires(s: State, id: SocketId, token: Token, p: Principal)
    requires Inv(s) && s.polling.live && id in s.sockets && s.sockets[id].engine in s.desk.table
             && s.sockets[id].connected && MaySeeMetrics(p)
    ensures Inv(DoJoin(s, id, token, p, false))
  {
    var k := Joined(s.sockets[id], token, p, s.now);
    JoinKeeps(s, id, token, p, k);
    DisconnectKeeps(EnterRoom(s, id, k), id);
  }

  lemma AuthSuccessKeeps(s: State, id: SocketId, p: Principal, token: Token, unexpired: bool)
    requires Inv(s) && id in s.sockets
    ensures Inv(DoAuthSuccess(s, id, p, token, unexpired))
  {
    var k := s.sockets[id];
    if s.polling.live {
      if k.engine !in s.desk.table {
        DisconnectStepKeeps(s, id);
      } else if !k.connected {
        ReleaseStepKeeps(s, k.engine);
      } else if !Eligible(p) {
        RefusalKeeps(s, id);
      } else {
        JoinCompletes(s, id, token, p, unexpired);
      }
    }
  }

  lemma AuthResultKeeps(s: State, id: SocketId, result: Verification, unexpired: bool)
    requires Inv(s) && id in s.sockets && s.sockets[id].checking.Some?
    ensures Inv(DoAuthResult(s, id, result, unexpired))
  {
    var k := s.sockets[id].(checking := None);
    assert SocketOk(s.sockets[id], s.desk, s.now);
    TouchKeeps(s, id, k);
    if result.Verified? {
      AuthSuccessKeeps(Put(s, id, k), id, result.principal, s.sockets[id].checking.value, unexpired);
    } else {
      DisconnectKeeps(Put(s, id, k), id);
    }
  }

  lemma DisconnectedKeeps(s: State, id: SocketId)
    requires Inv(s) && id in s.sockets
    ensures Inv(DoDisconnected(s, id))
  {
    var s' := Put(Cleanup(s, id), id, CleanedUp(s.sockets[id]).(known := false));
    CleanupKeeps(s, id, false);
    CleanupInterval(s, id);
    AdminsAfterCleanup(s.sockets, id, false);
    assert s'.sockets == s.sockets[id := CleanedUp(s.sockets[id]).(known := false)];
    assert Inv(s');
    CloseStepKeeps(s', s.sockets[id].engine);
  }

  lemma ForgetKeeps(s: State)
    requires Core(s) && Admins(s.sockets) == {} && !s.polling.interval
    requires forall i | i in s.sockets && s.sockets[i].known :: s.sockets[i].cleaned
    ensures Inv(Forget(s))
  {
    var sockets' := Forget(s).sockets;
    assert Admins(sockets') == {};
    forall i | i in sockets' ensures SocketOk(sockets'[i], s.desk, s.now) {
      assert SocketOk(s.sockets[i], s.desk, s.now);
    }
    PollsKept(s.sockets, sockets', s.polling.polls, s.now);
  }

  lemma {:induction false} CleanupAllCleans(s: State, ids: set<SocketId>)
    requires ids <= s.sockets.Keys
    ensures forall i | i in s.sockets && (i in ids || s.sockets[i].cleaned) :: CleanupAll(s, ids).sockets[i].cleaned
    ensures forall i | i in s.sockets :: CleanupAll(s, ids).sockets[i].known == s.sockets[i].known
    decreases ids
  {
    if ids != {} {
      var i :| i in ids && CleanupAll(s, ids) == CleanupAll(Cleanup(s, i), ids - {i});
      CleanupAllCleans(Cleanup(s, i), ids - {i});
    }
  }

  lemma ShutDownKeeps(s: State)
    requires Inv(s)
    ensures Core(ShutDown(s))
  {
  }

  lemma DestroyKeeps(s: State)
    requires Inv(s)
    ensures Inv(DoDestroy(s))
  {
    var ids := Known(s.sockets);
    ShutDownKeeps(s);
    AdminsAreKnown(s);
    CleanupAllKeeps(ShutDown(s), ids);
    CleanupAllFrame(ShutDown(s), ids);
    CleanupAllCleans(ShutDown(s), ids);
    ForgetKeeps(CleanupAll(ShutDown(s), ids));
  }

  lemma AdminsAreKnown(s: State)
    requires Inv(s)
    ensures Admins(s.sockets) - Known(s.sockets) == {}
  {
    forall i | i in Admins(s.sockets) ensures i in Known(s.sockets) {
      assert SocketOk(s.sockets[i], s.desk, s.now);
    }
  }

  lemma CollectKeeps(s: State, p: nat, present: bool)
    requires Inv(s) && p in s.polling.polls
    ensures Inv(SetPoll(s, p, s.polling.polls[p].(collectedAt := Some(s.now), phase := Collected(present))))
  {
    SetPollKeeps(s, p, s.polling.polls[p].(collectedAt := Some(s.now), phase := Collected(present)));
  }

  lemma ReserveKeeps(s: State, e: EngineId)
    requires Inv(s) && e !in s.desk.engines
    ensures Inv(Effect(s, Reserve(e)))
  {
    DeskKeeps(s, Effect(s, Reserve(e)).desk);
  }

  lemma SocketStepKeeps(s: State, step: Step)
    requires Inv(s) && Enabled(s, step)
    requires step.Connect? || step.AuthEvent? || step.AuthResult? || step.AuthDeadline? || step.TokenExpiry?
             || step.Leave? || step.Disconnected?
    ensures Inv(Effect(s, step))
  {
    match step
    case Connect(id, e, cookie) => ConnectKeeps(s, id, e, cookie);
    case AuthEvent(id, payload) => AuthEventKeeps(s, id, payload);
    case AuthResult(id, result, unexpired) => AuthResultKeeps(s, id, result, unexpired);
    case AuthDeadline(id) => DisconnectStepKeeps(s, id);
    case TokenExpiry(id) => DisconnectStepKeeps(s, id);
    case Leave(id) => TouchKeeps(s, id, s.sockets[id].(connected := false, inRoom := false));
    case Disconnected(id) => DisconnectedKeeps(s, id);
  }

  lemma DeskStepKeeps(s: State, step: Step)
    requires Inv(s) && Enabled(s, step)
    requires step.Reserve? || step.RawClose? || step.ReservationDeadline? || step.DestroyReservations?
    ensures Inv(Effect(s, step))
  {
    match step
    case Reserve(e) => ReserveKeeps(s, e);
    case RawClose(e) =>
      ReleaseStepKeeps(s, e);
      CloseStepKeeps(s.(desk := Release(s.desk, e)), e);
    case ReservationDeadline(e) => ReleaseStepKeeps(s, e);
    case DestroyReservations => DeskKeeps(s, Effect(s, step).desk);
  }

  lemma TimerKeeps(s: State)
    requires Inv(s) && s.polling.timers > 0
    ensures Inv(TimerFired(s))
  {
  }

  lemma TickStepKeeps(s: State, step: Step)
    requires Inv(s) && Enabled(s, step) && (step.IntervalTick? || step.TimerTick?)
    ensures Inv(Effect(s, step))
  {
    if step.IntervalTick? {
      TickKeeps(s, false);
    } else {
      TimerKeeps(s);
      TickKeeps(TimerFired(s), true);
    }
  }

  lemma PollStepKeeps(s: State, step: Step)
    requires Inv(s) && Enabled(s, step)
    requires step.GroupResult? || step.CollectResult? || step.Resume? || step.Destroy?
    ensures Inv(Effect(s, step))
  {
    match step
    case GroupResult(p, token, result) => GroupKeeps(s, p, token, result);
    case CollectResult(p, present) => CollectKeeps(s, p, present);
    case Resume(p) => ResumeKeeps(s, p);
    case Destroy => DestroyKeeps(s);
  }

  lemma EffectKeeps(s: State, step: Step)
    requires Inv(s) && Enabled(s, step)
    ensures Inv(Effect(s, step))
  {
    if step.Reserve? || step.RawClose? || step.ReservationDeadline? || step.DestroyReservations? {
      DeskStepKeeps(s, step);
    } else if step.IntervalTick? || step.TimerTick? {
      TickStepKeeps(s, step);
    } else if step.GroupResult? || step.CollectResult? || step.Resume? || step.Destroy? {
      PollStepKeeps(s, step);
    } else {
      SocketStepKeeps(s, step);
    }
  }

  lemma NextKeeps(s: State, step: Step)
    requires Inv(s) && Enabled(s, step)
    ensures Inv(Next(s, step))
  {
    EffectKeeps(s, step);
    ClockKeeps(Effect(s, step));
  }

  lemma {:induction false} InvHolds(states: seq<State>, steps: seq<Step>, n: nat)
    requires Run(states, steps) && n < |states|
    ensures Inv(states[n])
  {
    if n > 0 {
      InvHolds(states, steps, n - 1);
      NextKeeps(states[n - 1], steps[n - 1]);
    }
  }

  // ---- the theorems

  /** The fields agree with the sockets at every event boundary, in every run. */
  lemma FieldsAgree(states: seq<State>, steps: seq<Step>, n: nat)
    requires Run(states, steps) && n < |states|
    ensures var s := states[n]; var q := s.polling;
            && q.adminCount == |Admins(s.sockets)|
            && (q.interval <==> q.adminCount > 0)
            && |q.polls| <= 1 && (q.inFlight <==> |q.polls| == 1)
            && (q.pendingImmediate ==> q.inFlight && q.interval)
            && (forall id | id in s.sockets && s.sockets[id].hasPrincipal :: q.adminCount >= 1)
  {
    InvHolds(states, steps, n);
    var s := states[n];
    if s.polling.polls != map[] {
      var p :| p in s.polling.polls;
      assert s.polling.polls.Keys == {p};
      assert |s.polling.polls| == |s.polling.polls.Keys|;
    }
    forall id | id in s.sockets && s.sockets[id].hasPrincipal ensures |Admins(s.sockets)| >= 1 {
      assert id in Admins(s.sockets);
    }
  }

  /**
   Whoever is in the admin room when stats are sent had their own token verified since the stats were collected, and it
   stood for an admin with an ordinary session and no password change ahead.
   */
  lemma BroadcastOnlyToCheckedAdmins(states: seq<State>, steps: seq<Step>, n: nat)
    requires Run(states, steps) && n < |steps| && Broadcasts(states[n], steps[n])
    ensures forall i | i in Room(states[n].sockets) ::
              var k := states[n].sockets[i];
              && k.check.at >= states[n].polling.polls[steps[n].poll].collectedAt.value
              && k.token == Some(k.check.token)
              && k.check.principal.admin && !k.check.principal.temporaryAuth && !k.check.principal.mustChangePassword
  {
    InvHolds(states, steps, n);
    assert PollOk(states[n].sockets, states[n].polling.polls[steps[n].poll], states[n].now);
    forall i | i in Room(states[n].sockets)
      ensures SocketOk(states[n].sockets[i], states[n].desk, states[n].now) && states[n].sockets[i].hasPrincipal
    {
      assert SocketOk(states[n].sockets[i], states[n].desk, states[n].now);
    }
  }

  /** Never more than 100 reservations, and each accepted one is live or was released once. */
  lemma ReservationsAddUp(states: seq<State>, steps: seq<Step>, n: nat)
    requires Run(states, steps) && n < |states|
    ensures |states[n].desk.table| <= PENDING_CAP
    ensures states[n].desk.accepted == |states[n].desk.table| + states[n].desk.released
  {
    InvHolds(states, steps, n);
  }
}
