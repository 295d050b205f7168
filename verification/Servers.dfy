/**
 The rows of the `servers` table, the containers Docker holds, and the two primitive
 database operations every lifecycle call is built from: a compare-and-set on
 (id, status, containerId), and a sum of memory limits.
 */
module Servers {
  import opened Wrappers

  type ServerId = nat
  type ContainerId = nat

  const MIN_MEMORY_MB: nat := 512

  /** A memory limit: validated to be at least 512 MB before a row is inserted. */
  type Megabytes = m: nat | MIN_MEMORY_MB <= m witness MIN_MEMORY_MB

  datatype Status = Stopped | Creating | Starting | Running | Stopping | Error

  datatype Row = Row(status: Status, container: Option<ContainerId>, memory: Megabytes)

  /** A container labelled with the server it was created for. */
  datatype Container = Container(server: ServerId, running: bool)

  type Rows = map<ServerId, Row>
  type Docker = map<ContainerId, Container>

  predicate Runs(docker: Docker, c: ContainerId) {
    c in docker && docker[c].running
  }

  /** The WHERE clause of a transition: the row exists with that status and container. */
  predicate Hits(rows: Rows, id: ServerId, status: Status, container: Option<ContainerId>) {
    id in rows && rows[id].status == status && rows[id].container == container
  }

  /** A compare-and-set of the status; it changes nothing when the row does not match. */
  function Transition(rows: Rows, id: ServerId, expected: Status, next: Status,
                      container: Option<ContainerId>): (r: Rows)
    ensures r.Keys == rows.Keys
    ensures forall i | i in rows :: r[i].memory == rows[i].memory && r[i].container == rows[i].container
    ensures forall i | i in rows && i != id :: r[i] == rows[i]
  {
    if Hits(rows, id, expected, container) then rows[id := rows[id].(status := next)] else rows
  }

  /** floor(total * ratio): the memory that servers may be given on a host. */
  function Allocatable(totalRamMb: nat, ratio: real): int {
    (totalRamMb as real * ratio).Floor
  }

  /** The memory check of create, start and restart. */
  predicate Admits(totalRamMb: nat, ratio: real, requestedMb: Megabytes, currentMb: nat) {
    var allocatable := Allocatable(totalRamMb, ratio);
    var available := if allocatable - currentMb > 0 then allocatable - currentMb else 0;
    requestedMb <= available
  }

  /** The rounded and clamped check admits exactly what fits the unrounded share of the host's memory. */
  lemma AdmitsExactly(totalRamMb: nat, ratio: real, requestedMb: Megabytes, currentMb: nat)
    ensures Admits(totalRamMb, ratio, requestedMb, currentMb)
       <==> (requestedMb + currentMb) as real <= totalRamMb as real * ratio
  {
    AdmitsRounded(totalRamMb, ratio, requestedMb, currentMb);
    FitsExactly(requestedMb + currentMb, totalRamMb, ratio);
  }

  lemma AdmitsRounded(totalRamMb: nat, ratio: real, requestedMb: Megabytes, currentMb: nat)
    ensures Admits(totalRamMb, ratio, requestedMb, currentMb)
       <==> requestedMb + currentMb <= Allocatable(totalRamMb, ratio)
  {
  }

  /** A whole number of megabytes fits the rounded share exactly when it fits the share. */
  lemma FitsExactly(mb: nat, totalRamMb: nat, ratio: real)
    ensures mb <= Allocatable(totalRamMb, ratio) <==> mb as real <= totalRamMb as real * ratio
  {
  }

  /** The memory limits of the rows in `ids`, added up. */
  ghost function Memory(rows: Rows, ids: set<ServerId>): (r: nat)
    requires ids <= rows.Keys
  {
    if ids == {} then 0
    else
      var i :| i in ids;
      rows[i].memory + Memory(rows, ids - {i})
  }

  lemma MemoryRemove(rows: Rows, ids: set<ServerId>, i: ServerId)
    requires ids <= rows.Keys && i in ids
    ensures Memory(rows, ids) == rows[i].memory + Memory(rows, ids - {i})
  {
    var j :| j in ids && Memory(rows, ids) == rows[j].memory + Memory(rows, ids - {j});
    if i != j {
      MemoryRemove(rows, ids - {j}, i);
      MemoryRemove(rows, ids - {i}, j);
      assert ids - {j} - {i} == ids - {i} - {j};
    }
  }

  /** Fewer rows, with unchanged limits, never need more memory. */
  lemma {:induction false} MemoryMonotone(rows: Rows, ids: set<ServerId>, rows': Rows, ids': set<ServerId>)
    requires ids <= rows.Keys && ids' <= rows'.Keys && ids <= ids'
    requires forall i | i in ids :: rows[i].memory == rows'[i].memory
    ensures Memory(rows, ids) <= Memory(rows', ids')
  {
    if ids' != {} {
      var i :| i in ids';
      MemoryRemove(rows', ids', i);
      if i in ids {
        MemoryRemove(rows, ids, i);
      }
      MemoryMonotone(rows, ids - {i}, rows', ids' - {i});
      if i !in ids {
        assert ids - {i} == ids;
      }
    }
  }
}
