/**
 Admission of raw Engine.IO connections: at most 100 may be waiting for authentication.
 */
module Reservations {
  type EngineId = string

  const PENDING_CAP: nat := 100

  /** The waiting connections, each with whether a socket has claimed it. */
  type Table = map<EngineId, bool>

  predicate Accepts(table: Table, id: EngineId) {
    id != "" && |table| < PENDING_CAP && id !in table
  }

  predicate Claimable(table: Table, id: EngineId) {
    id in table && !table[id]
  }

  function Reserved(table: Table, id: EngineId): (r: Table)
    ensures |table| <= PENDING_CAP ==> |r| <= PENDING_CAP
    ensures |r| == |table| + (if Accepts(table, id) then 1 else 0)
    ensures forall e | e in table :: e in r && r[e] == table[e]
    ensures id in r && id !in table ==> !r[id]
    ensures forall e | e in r :: e in table || e == id
  {
    if Accepts(table, id) then table[id := false] else table
  }

  function Claimed(table: Table, id: EngineId): (r: Table)
    ensures r.Keys == table.Keys && |r| == |table|
    ensures forall e | e in table :: r[e] == (table[e] || e == id)
  {
    if Claimable(table, id) then
      var r := table[id := true];
      assert r.Keys == table.Keys;
      assert |r| == |r.Keys|;
      r
    else table
  }

  function Released(table: Table, id: EngineId): (r: Table)
    ensures |table| == |r| + (if id in table then 1 else 0)
    ensures id !in r && forall e | e in table && e != id :: e in r && r[e] == table[e]
    ensures r.Keys <= table.Keys
  {
    var r := table - {id};
    assert r.Keys == table.Keys - {id};
    assert |r| == |r.Keys|;
    r
  }

  /** A connection is accepted exactly if it has an id, there is room and the id is not waiting already. */
  lemma AcceptedExactly(table: Table, id: EngineId)
    ensures |Reserved(table, id)| > |table| <==> id != "" && |table| < 100 && id !in table
  {
  }

  /** A reservation is claimed at most once: after a claim, and until it is reserved anew, no claim succeeds. */
  lemma ClaimedOnce(table: Table, id: EngineId, other: EngineId)
    ensures !Claimable(Claimed(table, id), id)
    ensures !Claimable(Claimed(Claimed(table, id), other), id)
    ensures !Claimable(Released(Claimed(table, id), other), id)
    ensures id in table ==> !Claimable(Reserved(Claimed(table, id), other), id)
  {
  }

  /** The reservation service: one map, changed in place. */
  class SocketReservationService {
    var reservations: Table
    ghost var accepted: nat
    ghost var released: nat

    /** Never more than the cap, and every accepted reservation is live or was released once. */
    ghost predicate Valid()
      reads this
    {
      |reservations| <= PENDING_CAP && accepted == |reservations| + released
    }

    constructor ()
      ensures Valid() && reservations == map[] && accepted == 0
    {
      reservations, accepted, released := map[], 0, 0;
    }

    method Reserve(id: EngineId) returns (closed: bool)
      requires Valid()
      modifies this
      ensures Valid()
      ensures reservations == Reserved(old(reservations), id)
      ensures closed == !Accepts(old(reservations), id)
      ensures accepted == old(accepted) + (if closed then 0 else 1)
    {
      if id == "" {
        return true;
      }
      if |reservations| >= PENDING_CAP || id in reservations {
        return true;
      }
      reservations := reservations[id := false];
      accepted := accepted + 1;
      return false;
    }

    method Claim(id: EngineId) returns (claimed: bool)
      requires Valid()
      modifies this
      ensures Valid() && accepted == old(accepted)
      ensures claimed == Claimable(old(reservations), id)
      ensures reservations == Claimed(old(reservations), id)
    {
      if id !in reservations || reservations[id] {
        return false;
      }
      ghost var _ := Claimed(reservations, id);
      reservations := reservations[id := true];
      return true;
    }

    method Release(id: EngineId, closeRaw: bool) returns (found: bool, closed: bool)
      requires Valid()
      modifies this
      ensures Valid() && accepted == old(accepted)
      ensures found == (id in old(reservations)) && closed == (found && closeRaw)
      ensures reservations == Released(old(reservations), id)
    {
      if id !in reservations {
        assert Released(reservations, id) == reservations;
        return false, false;
      }
      ghost var _ := Released(reservations, id);
      reservations := reservations - {id};
      released := released + 1;
      return true, closeRaw;
    }

    method OnModuleDestroy()
      requires Valid()
      modifies this
      ensures Valid() && reservations == map[] && accepted == old(accepted) && released == accepted
    {
      while reservations != map[]
        invariant Valid() && accepted == old(accepted)
        decreases |reservations|
      {
        var id :| id in reservations;
        var _, _ := Release(id, true);
      }
    }
  }
}
