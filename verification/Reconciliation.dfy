/**
 Boot reconciliation: every row that is not STOPPED is compared with what Docker answers,
 and either all outcomes are written or, when any of them is unavailable, none is.
 */
module Reconciliation {
  import opened Wrappers
  import opened Servers

  datatype InspectAnswer = Found(id: ContainerId, running: bool) | Missing | Unreachable | Failed

  datatype LookupAnswer = Managed(id: ContainerId, running: bool) | NoContainer | LookupUnreachable

  /** What Docker answers, for every container that may be inspected and every label looked up. */
  datatype Answers = Answers(inspect: ContainerId -> InspectAnswer, lookup: ServerId -> LookupAnswer)

  datatype Outcome =
    | Settled(status: Status, container: Option<ContainerId>)
    | Unavailable
    | Unchanged

  function StatusOf(running: bool): Status {
    if running then Running else Stopped
  }

  function LookupOutcome(answer: LookupAnswer): Outcome {
    match answer
    case LookupUnreachable => Unavailable
    case Managed(c, running) => Settled(StatusOf(running), Some(c))
    case NoContainer => Settled(Stopped, None)
  }

  function ReconcileRow(id: ServerId, row: Row, answers: Answers): Outcome {
    if row.container.Some? then
      match answers.inspect(row.container.value)
      case Found(c, running) => Settled(StatusOf(running), Some(c))
      case Unreachable => Unavailable
      case Failed => Unchanged
      case Missing => LookupOutcome(answers.lookup(id))
    else
      LookupOutcome(answers.lookup(id))
  }

  /** A row as stored, with the millisecond of its last update. */
  datatype Stored = Stored(row: Row, updatedAt: int)

  datatype Entry = Entry(id: ServerId, stored: Stored)

  type Table = map<ServerId, Stored>

  predicate AnyUnavailable(snapshot: seq<Entry>, answers: Answers) {
    exists i | 0 <= i < |snapshot| :: ReconcileRow(snapshot[i].id, snapshot[i].stored.row, answers).Unavailable?
  }

  /** The row is still as it was read: the WHERE clause of the conditional update. */
  predicate Unmoved(table: Table, e: Entry) {
    && e.id in table
    && table[e.id].row.status == e.stored.row.status
    && table[e.id].row.container == e.stored.row.container
    && table[e.id].updatedAt == e.stored.updatedAt
  }

  /** The conditional update of one row; it writes only over the row that was read. */
  function WriteOne(table: Table, e: Entry, outcome: Outcome, now: int): Table {
    var row := e.stored.row;
    if !outcome.Settled? || (row.status == outcome.status && row.container == outcome.container) then table
    else if Unmoved(table, e) then
      table[e.id := Stored(table[e.id].row.(status := outcome.status, container := outcome.container), now)]
    else table
  }

  function WriteAll(table: Table, snapshot: seq<Entry>, answers: Answers, now: int): (r: Table)
    ensures r.Keys == table.Keys
  {
    if snapshot == [] then table
    else
      var last := snapshot[|snapshot| - 1];
      WriteOne(WriteAll(table, snapshot[..|snapshot| - 1], answers, now), last,
               ReconcileRow(last.id, last.stored.row, answers), now)
  }

  /** The table after a reconciliation that read `snapshot` and then got `answers`. */
  function Reconciled(table: Table, snapshot: seq<Entry>, answers: Answers, now: int): Table {
    if AnyUnavailable(snapshot, answers) then table else WriteAll(table, snapshot, answers, now)
  }

  predicate DistinctIds(snapshot: seq<Entry>) {
    forall i, j | 0 <= i < j < |snapshot| :: snapshot[i].id != snapshot[j].id
  }

  /** The rows a boot reads: each row that is not STOPPED, once. */
  ghost predicate IsSnapshot(table: Table, snapshot: seq<Entry>) {
    && DistinctIds(snapshot)
    && (forall e | e in snapshot :: e.id in table && table[e.id] == e.stored && e.stored.row.status != Stopped)
    && (forall id | id in table && table[id].row.status != Stopped :: Entry(id, table[id]) in snapshot)
  }

  /** One container seen by an inspect and by a lookup is reported alike, unless the inspect fails. */
  ghost predicate Consistent(answers: Answers) {
    && (forall c: ContainerId | answers.inspect(c).Found? ::
          Agrees(answers, answers.inspect(c).id, answers.inspect(c).running))
    && (forall s: ServerId | answers.lookup(s).Managed? ::
          Agrees(answers, answers.lookup(s).id, answers.lookup(s).running))
  }

  ghost predicate Agrees(answers: Answers, c: ContainerId, running: bool) {
    answers.inspect(c) in {Found(c, running), Unreachable, Failed}
  }

  /** The servers table of a starting backend. */
  class ServerTable {
    var table: Table

    /** Classifies every snapshot row, then writes all the outcomes or none of them. */
    method Reconcile(snapshot: seq<Entry>, answers: Answers, now: int)
      modifies this
      ensures table == Reconciled(old(table), snapshot, answers, now)
    {
      var outcomes: seq<Outcome> := [];
      var unavailable := false;
      for i := 0 to |snapshot|
        invariant |outcomes| == i
        invariant forall k | 0 <= k < i :: outcomes[k] == ReconcileRow(snapshot[k].id, snapshot[k].stored.row, answers)
        invariant unavailable == exists k | 0 <= k < i :: outcomes[k].Unavailable?
        invariant table == old(table)
      {
        var outcome := ReconcileRow(snapshot[i].id, snapshot[i].stored.row, answers);
        outcomes := outcomes + [outcome];
        unavailable := unavailable || outcome.Unavailable?;
      }
      if unavailable {
        return;
      }
      for i := 0 to |snapshot|
        invariant table == WriteAll(old(table), snapshot[..i], answers, now)
      {
        assert snapshot[..i + 1][..i] == snapshot[..i];
        table := WriteOne(table, snapshot[i], outcomes[i], now);
      }
      assert snapshot[..|snapshot|] == snapshot;
    }
  }

  lemma {:induction false} WriteAllElsewhere(table: Table, snapshot: seq<Entry>, answers: Answers, now: int,
                                             id: ServerId)
    requires id in table
    requires forall e | e in snapshot :: e.id != id
    ensures WriteAll(table, snapshot, answers, now)[id] == table[id]
  {
    if snapshot != [] {
      WriteAllElsewhere(table, snapshot[..|snapshot| - 1], answers, now, id);
    }
  }

  /** Each snapshot row is written exactly as if it were the only one. */
  lemma {:induction false} WriteAllAt(table: Table, snapshot: seq<Entry>, answers: Answers, now: int, k: nat)
    requires DistinctIds(snapshot) && k < |snapshot| && snapshot[k].id in table
    ensures var e := snapshot[k];
            WriteAll(table, snapshot, answers, now)[e.id]
            == WriteOne(table, e, ReconcileRow(e.id, e.stored.row, answers), now)[e.id]
  {
    var n := |snapshot| - 1;
    if k < n {
      WriteAllAt(table, snapshot[..n], answers, now, k);
    } else {
      WriteAllElsewhere(table, snapshot[..n], answers, now, snapshot[k].id);
    }
  }

  /** The status and container are those of a container Docker reported. */
  predicate As(row: Row, container: ContainerId, running: bool) {
    row.container == Some(container) && (row.status == Running <==> running) && (row.status == Stopped <==> !running)
  }

  /** The row says what the lookup by label found. */
  predicate AsLookedUp(row: Row, answer: LookupAnswer) {
    match answer
    case Managed(c, running) => As(row, c, running)
    case NoContainer => row.status == Stopped && row.container == None
    case LookupUnreachable => false
  }

  /** The row says what Docker answered about the stored container or, if that is missing, about the server's label. */
  predicate AsAnswered(row: Row, id: ServerId, stored: Option<ContainerId>, answers: Answers) {
    match stored
    case None => AsLookedUp(row, answers.lookup(id))
    case Some(k) =>
      match answers.inspect(k)
      case Found(c, running) => As(row, c, running)
      case Missing => AsLookedUp(row, answers.lookup(id))
      case Unreachable => false
      case Failed => false
  }

  /** Docker could not be reached for a row: neither by an inspect nor by the lookup that it needed. */
  predicate OutOfReach(id: ServerId, stored: Option<ContainerId>, answers: Answers) {
    || (stored.Some? && answers.inspect(stored.value).Unreachable?)
    || ((stored.None? || answers.inspect(stored.value).Missing?) && answers.lookup(id).LookupUnreachable?)
  }

  /** What the reconciliation leaves in the row of one snapshot entry when nothing was out of reach. */
  ghost predicate SettledAsAnswered(table: Table, after: Table, e: Entry, answers: Answers) {
    var stored := e.stored.row.container;
    if e.id !in table then e.id !in after
    else if && table[e.id].row.status == e.stored.row.status && table[e.id].row.container == stored
            && table[e.id].updatedAt == e.stored.updatedAt
            && !(stored.Some? && answers.inspect(stored.value).Failed?) then
      && e.id in after
      && AsAnswered(after[e.id].row, e.id, stored, answers)
      && after[e.id].row.memory == table[e.id].row.memory
    else e.id in after && after[e.id] == table[e.id]
  }

  lemma UnavailableMeansOutOfReach(snapshot: seq<Entry>, answers: Answers)
    ensures AnyUnavailable(snapshot, answers) <==>
              exists i | 0 <= i < |snapshot| :: OutOfReach(snapshot[i].id, snapshot[i].stored.row.container, answers)
  {
    assert forall i | 0 <= i < |snapshot| ::
        ReconcileRow(snapshot[i].id, snapshot[i].stored.row, answers).Unavailable?
        == OutOfReach(snapshot[i].id, snapshot[i].stored.row.container, answers);
  }

  /**
   If Docker is out of reach for one row, every row is kept as it was. Otherwise every row still as it was read says
   what Docker answered, unless its inspect failed unexpectedly; every other row is kept.
   */
  lemma AllOrNothing(table: Table, snapshot: seq<Entry>, answers: Answers, now: int)
    requires DistinctIds(snapshot)
    ensures var after := Reconciled(table, snapshot, answers, now);
            if exists i | 0 <= i < |snapshot| :: OutOfReach(snapshot[i].id, snapshot[i].stored.row.container, answers)
            then after == table
            else
              && (forall k | 0 <= k < |snapshot| :: SettledAsAnswered(table, after, snapshot[k], answers))
              && (forall id | id in table && (forall d | d in snapshot :: d.id != id) :: after[id] == table[id])
  {
    UnavailableMeansOutOfReach(snapshot, answers);
    if !AnyUnavailable(snapshot, answers) {
      var after := WriteAll(table, snapshot, answers, now);
      forall k | 0 <= k < |snapshot| ensures SettledAsAnswered(table, after, snapshot[k], answers) {
        assert !ReconcileRow(snapshot[k].id, snapshot[k].stored.row, answers).Unavailable?;
        if snapshot[k].id in table {
          WriteAllAt(table, snapshot, answers, now, k);
        }
      }
      forall id | id in table && (forall d | d in snapshot :: d.id != id)
        ensures after[id] == table[id]
      {
        WriteAllElsewhere(table, snapshot, answers, now, id);
      }
    }
  }

  /** Writing outcomes that already hold changes nothing. */
  lemma {:induction false} NothingToWrite(table: Table, snapshot: seq<Entry>, answers: Answers, now: int)
    requires forall e | e in snapshot ::
               var o := ReconcileRow(e.id, e.stored.row, answers);
               o.Settled? ==> o == Settled(e.stored.row.status, e.stored.row.container)
    ensures WriteAll(table, snapshot, answers, now) == table
  {
    if snapshot != [] {
      var n := |snapshot| - 1;
      NothingToWrite(table, snapshot[..n], answers, now);
      assert snapshot[n] in snapshot;
    }
  }

  /** A second boot that gets the same answers writes nothing. */
  lemma SecondBootWritesNothing(table: Table, snapshot: seq<Entry>, answers: Answers, now: int,
                                snapshot': seq<Entry>, now': int)
    requires IsSnapshot(table, snapshot) && Consistent(answers)
    requires IsSnapshot(Reconciled(table, snapshot, answers, now), snapshot')
    ensures var after := Reconciled(table, snapshot, answers, now);
            Reconciled(after, snapshot', answers, now') == after
  {
    var after := Reconciled(table, snapshot, answers, now);
    if AnyUnavailable(snapshot, answers) {
      var i :| 0 <= i < |snapshot| && ReconcileRow(snapshot[i].id, snapshot[i].stored.row, answers).Unavailable?;
      assert snapshot[i] in snapshot;
      assert snapshot[i] in snapshot';
    } else if !AnyUnavailable(snapshot', answers) {
      forall e | e in snapshot'
        ensures var o := ReconcileRow(e.id, e.stored.row, answers);
                o.Settled? ==> o == Settled(e.stored.row.status, e.stored.row.container)
      {
        SettledStaysSettled(table, snapshot, answers, now, e.id);
      }
      NothingToWrite(after, snapshot', answers, now');
    }
  }

  lemma SettledStaysSettled(table: Table, snapshot: seq<Entry>, answers: Answers, now: int, id: ServerId)
    requires IsSnapshot(table, snapshot) && Consistent(answers) && !AnyUnavailable(snapshot, answers)
    requires id in table
    requires Reconciled(table, snapshot, answers, now)[id].row.status != Stopped
    ensures var row := Reconciled(table, snapshot, answers, now)[id].row;
            var o := ReconcileRow(id, row, answers);
            o.Settled? ==> o == Settled(row.status, row.container)
  {
    if table[id].row.status == Stopped {
      WriteAllElsewhere(table, snapshot, answers, now, id);
    } else {
      var k :| 0 <= k < |snapshot| && snapshot[k] == Entry(id, table[id]);
      UnavailableMeansOutOfReach(snapshot, answers);
      AllOrNothing(table, snapshot, answers, now);
      assert SettledAsAnswered(table, Reconciled(table, snapshot, answers, now), snapshot[k], answers);
    }
  }
}
