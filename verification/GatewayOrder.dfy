/**
 Disconnecting or cleaning up several sockets has one result, in whatever order it is done.
 */
module GatewayOrder {
  import opened Wrappers
  import opened Reservations
  import opened Gateway

  lemma MinusTwice<K, V>(m: map<K, V>, a: K, b: K)
    ensures m - {a} - {b} == m - {b} - {a}
  {
    var x, y := m - {a} - {b}, m - {b} - {a};
    assert x.Keys == m.Keys - {a} - {b} == y.Keys;
  }

  lemma ReleaseTwice(desk: Desk, a: EngineId, b: EngineId)
    ensures Release(Release(desk, a), b) == Release(Release(desk, b), a)
  {
    MinusTwice(desk.table, a, b);
  }

  lemma CleanupTwice(s: State, i: SocketId, j: SocketId)
    requires i in s.sockets && j in s.sockets && i != j
    ensures Cleanup(Cleanup(s, i), j) == Cleanup(Cleanup(s, j), i)
  {
    ReleaseTwice(s.desk, s.sockets[i].engine, s.sockets[j].engine);
    var a, b := CleanedUp(s.sockets[i]), CleanedUp(s.sockets[j]);
    assert s.sockets[i := a][j := b] == s.sockets[j := b][i := a];
  }

  /** Closing a connection and cleaning up a socket do not get in each other's way. */
  lemma CloseThenClean(sockets: Sockets, e: EngineId, j: SocketId)
    requires j in sockets
    ensures Close(sockets, e)[j := CleanedUp(Close(sockets, e)[j])] == Close(sockets[j := CleanedUp(sockets[j])], e)
  {
  }

  lemma CloseTwice(sockets: Sockets, a: EngineId, b: EngineId)
    ensures Close(Close(sockets, a), b) == Close(Close(sockets, b), a)
  {
  }

  /** Two disconnects are two cleanups and two closed connections. */
  lemma DisconnectIsCleanupAndClose(s: State, i: SocketId, j: SocketId)
    requires i in s.sockets && j in s.sockets && i != j
    ensures var s' := Cleanup(Cleanup(s, i), j);
            DisconnectSilent(DisconnectSilent(s, i), j)
            == s'.(sockets := Close(Close(s'.sockets, s.sockets[i].engine), s.sockets[j].engine))
  {
    CloseThenClean(Cleanup(s, i).sockets, s.sockets[i].engine, j);
  }

  lemma DisconnectTwice(s: State, i: SocketId, j: SocketId)
    requires i in s.sockets && j in s.sockets && i != j
    ensures DisconnectSilent(DisconnectSilent(s, i), j) == DisconnectSilent(DisconnectSilent(s, j), i)
  {
    DisconnectIsCleanupAndClose(s, i, j);
    DisconnectIsCleanupAndClose(s, j, i);
    CleanupTwice(s, i, j);
    CloseTwice(Cleanup(Cleanup(s, i), j).sockets, s.sockets[i].engine, s.sockets[j].engine);
  }

  /** The first two sockets may change places. */
  lemma DisconnectSwap(s: State, rest: set<SocketId>, i: SocketId, j: SocketId)
    requires rest <= s.sockets.Keys && i in s.sockets && j in s.sockets && i != j
    ensures DisconnectAll(DisconnectSilent(DisconnectSilent(s, i), j), rest)
         == DisconnectAll(DisconnectSilent(DisconnectSilent(s, j), i), rest)
  {
    DisconnectTwice(s, i, j);
  }

  /** Any of the sockets may be the first to be disconnected. */
  lemma {:induction false} DisconnectAnyFirst(s: State, ids: set<SocketId>, i: SocketId)
    requires ids <= s.sockets.Keys && i in ids
    ensures DisconnectAll(s, ids) == DisconnectAll(DisconnectSilent(s, i), ids - {i})
    decreases ids
  {
    var j :| j in ids && DisconnectAll(s, ids) == DisconnectAll(DisconnectSilent(s, j), ids - {j});
    if i != j {
      assert ids - {j} - {i} == ids - {i} - {j};
      DisconnectAnyFirst(DisconnectSilent(s, j), ids - {j}, i);
      DisconnectAnyFirst(DisconnectSilent(s, i), ids - {i}, j);
      DisconnectSwap(s, ids - {i} - {j}, i, j);
    }
  }

  /** Any of the sockets may be the first to be cleaned up. */
  lemma {:induction false} CleanupAnyFirst(s: State, ids: set<SocketId>, i: SocketId)
    requires ids <= s.sockets.Keys && i in ids
    ensures CleanupAll(s, ids) == CleanupAll(Cleanup(s, i), ids - {i})
    decreases ids
  {
    var j :| j in ids && CleanupAll(s, ids) == CleanupAll(Cleanup(s, j), ids - {j});
    if i != j {
      CleanupAnyFirst(Cleanup(s, j), ids - {j}, i);
      CleanupAnyFirst(Cleanup(s, i), ids - {i}, j);
      CleanupTwice(s, i, j);
      assert ids - {j} - {i} == ids - {i} - {j};
    }
  }
}
