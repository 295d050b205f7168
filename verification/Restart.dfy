/**
 A restart of a row that nobody else touches: stop, measure, admit, start, with an inner and an outer catch.
 */
module Restart {
  import opened Wrappers
  import opened Servers
  import L = Lifecycle

  /** What Docker, the host and the admission check answer during one restart. */
  datatype Answers = Answers(
    stop: L.Reply,
    totalRam: Option<nat>,  // None: configuration, host or disk information is missing or insufficient
    ratio: real,
    inUse: nat,
    start: L.Reply
  )

  datatype Presence = Absent | Present(running: bool)

  /** Docker acts on, rejects, or reports as missing only what fits the container. */
  predicate Consistent(container: Presence, reply: L.Reply) {
    && (reply.Done? || reply.Rejected? || (reply.Unreached? && reply.effect) ==> container.Present?)
    && (reply.NotFound? ==> container.Absent?)
  }

  function Switched(container: Presence, reply: L.Reply, running: bool): Presence {
    if container.Present? && L.Took(reply) then Present(running) else container
  }

  predicate Admitted(a: Answers, memory: Megabytes) {
    a.totalRam.Some? && Admits(a.totalRam.value, a.ratio, memory, a.inUse)
  }

  function AfterStart(reply: L.Reply): Status {
    match reply
    case Done => Running
    case Unreached(_) => Error
    case _ => Stopped
  }

  /** The status a restart of a RUNNING row ends in. */
  function FinalStatus(a: Answers, memory: Megabytes): Status {
    match a.stop
    case Unreached(_) => Error
    case NotFound => Stopped
    case Rejected => Running
    case Done => if Admitted(a, memory) then AfterStart(a.start) else Stopped
  }

  /** The container after the restart. */
  function FinalContainer(a: Answers, memory: Megabytes, container: Presence): Presence {
    var stopped := Switched(container, a.stop, false);
    if a.stop.Done? && Admitted(a, memory) then Switched(stopped, a.start, true) else stopped
  }

  /** The answers of one restart fit the container they are about. */
  predicate Plausible(a: Answers, container: Presence) {
    Consistent(container, a.stop) && (a.stop.Done? ==> Consistent(Switched(container, a.stop, false), a.start))
  }

  /** The restart gets as far as asking for a start: it was stopped, the host was measured and its memory suffices. */
  predicate AsksToStart(a: Answers, memory: Megabytes) {
    && a.stop.Done? && a.totalRam.Some?
    && (memory + a.inUse) as real <= a.totalRam.value as real * a.ratio
  }

  predicate Effective(reply: L.Reply) {
    reply == L.Done || reply == L.Unreached(true)
  }

  lemma AdmittedIffItFits(a: Answers, memory: Megabytes)
    ensures a.stop.Done? && Admitted(a, memory) <==> AsksToStart(a, memory)
  {
    if a.totalRam.Some? {
      AdmitsExactly(a.totalRam.value, a.ratio, memory, a.inUse);
    }
  }

  /**
   Every combination of answers ends in RUNNING, STOPPED or ERROR. STOPPED is true of the container. RUNNING is true of
   it unless the container had stopped by itself and Docker then rejected the stop.
   */
  lemma FinalStatusIsTrue(a: Answers, memory: Megabytes, container: Presence)
    requires Plausible(a, container)
    ensures FinalStatus(a, memory) in {Running, Stopped, Error}
    ensures FinalStatus(a, memory) == Running <==>
              a.stop.Rejected? || (AsksToStart(a, memory) && a.start.Done?)
    ensures FinalStatus(a, memory) == Error <==>
              a.stop.Unreached? || (AsksToStart(a, memory) && a.start.Unreached?)
    ensures FinalStatus(a, memory) == Running ==>
              (FinalContainer(a, memory, container) == Present(true) <==>
                 !(container == Present(false) && a.stop.Rejected?))
    ensures FinalStatus(a, memory) == Stopped ==> FinalContainer(a, memory, container) != Present(true)
  {
    AdmittedIffItFits(a, memory);
  }

  /** The container is still there if it was, and runs after an effective start, or if it ran and was not stopped. */
  lemma FinalContainerIsLastEffect(a: Answers, memory: Megabytes, container: Presence)
    ensures FinalContainer(a, memory, container).Present? <==> container.Present?
    ensures FinalContainer(a, memory, container) == Present(true) <==>
              && container.Present?
              && ((AsksToStart(a, memory) && Effective(a.start))
                  || (!Effective(a.stop) && container == Present(true)))
  {
    AdmittedIffItFits(a, memory);
  }

  datatype Outcome = Returned | Conflict | NoContainer | Threw

  /** One server row with its container, and nobody else acting on either. */
  class Server {
    const memory: Megabytes
    const containerId: Option<ContainerId>
    var status: Status
    var container: Presence

    constructor (memory: Megabytes, containerId: Option<ContainerId>, status: Status, container: Presence)
      ensures this.memory == memory && this.containerId == containerId
      ensures this.status == status && this.container == container
    {
      this.memory, this.containerId, this.status, this.container := memory, containerId, status, container;
    }

    method Transition(expected: Status, next: Status) returns (hit: bool)
      modifies this`status
      ensures hit == (old(status) == expected)
      ensures status == if hit then next else old(status)
    {
      hit := status == expected;
      if hit {
        status := next;
      }
    }

    method StopContainer(reply: L.Reply)
      modifies this`container
      ensures container == Switched(old(container), reply, false)
    {
      if container.Present? && L.Took(reply) {
        container := Present(false);
      }
    }

    method StartContainer(reply: L.Reply)
      modifies this`container
      ensures container == Switched(old(container), reply, true)
    {
      if container.Present? && L.Took(reply) {
        container := Present(true);
      }
    }

    /** `inner` is what the inner catch settled, when it ran. */
    method Restart(a: Answers) returns (outcome: Outcome, ghost inner: Option<Status>)
      modifies this
      ensures old(status) != Running ==> outcome == Conflict && status == old(status) && container == old(container)
      ensures old(status) == Running && containerId.None? ==>
                outcome == NoContainer && status == Running && container == old(container)
      ensures old(status) == Running && containerId.Some? ==>
                && status == FinalStatus(a, memory)
                && container == FinalContainer(a, memory, old(container))
                && (outcome == Returned <==> AsksToStart(a, memory) && a.start.Done?)
      ensures inner.Some? ==> status == inner.value
      ensures inner.Some? <==>
                old(status) == Running && containerId.Some? && AsksToStart(a, memory) && !a.start.Done?
    {
      AdmittedIffItFits(a, memory);
      inner := None;
      if status != Running {
        return Conflict, None;
      }
      if containerId.None? {
        return NoContainer, None;
      }
      var claimed := Transition(Running, Stopping);
      StopContainer(a.stop);
      if !a.stop.Done? {
        var settled := match a.stop
          case Unreached(_) => Error
          case NotFound => Stopped
          case _ => Running;
        var _ := Transition(Stopping, settled);
        return Threw, None;
      }
      var failed := true;
      if Admitted(a, memory) {
        var starting := Transition(Stopping, Starting);
        StartContainer(a.start);
        if a.start.Done? {
          failed := false;
          var running := Transition(Starting, Running);
        } else {
          var _ := Transition(Starting, if a.start.Unreached? then Error else Stopped);
          inner := Some(status);
        }
      }
      if failed {
        var _ := Transition(Stopping, Stopped);
        return Threw, inner;
      }
      return Returned, None;
    }
  }
}
