/** The executor as one object: two queues, the closing flag and the running mark behind a lock.
    Each method is one critical section and is proved to be the act of that name in `Worker`. */
module WorkerStore {
  import opened Common
  import opened Worker

  datatype Refusal = Closing | Full

  class DatabaseWorker {
    var ordinary: seq<int>
    var control: seq<int>
    var closing: bool
    var running: Option<int>
    var fault: Option<Fault>
    var settled: map<int, Settlement>
    var thread: Thread
    var failed: bool

    function Contents(): Executor
      reads this
    {
      Executor(ordinary, control, closing, running, fault, settled, thread, failed)
    }

    constructor ()
      ensures Contents() == IDLE
    {
      ordinary, control, closing, running := [], [], false, None;
      fault, settled, thread, failed := None, map[], Serving, false;
    }

    // A full queue refuses at once.
    method CallJob(id: int, priority: bool) returns (refusal: Option<Refusal>)
      modifies this`ordinary, this`control
      ensures Contents() == Do(old(Contents()), Call(id, priority))
      ensures refusal.None? <==> Accepts(old(Contents()), Call(id, priority))
      ensures refusal == Some(Closing) <==> old(closing)
    {
      if closing {
        return Some(Closing);
      }
      var limit := if priority then CONTROL_LIMIT else ORDINARY_LIMIT;
      if |if priority then control else ordinary| >= limit {
        return Some(Full);
      }
      if priority {
        control := control + [id];
      } else {
        ordinary := ordinary + [id];
      }
      refusal := None;
    }

    method StopAcceptingJobs()
      modifies this`closing
      ensures Contents() == Do(old(Contents()), StopAccepting)
    {
      closing := true;
    }

    // The serving loop wakes when there is something to run, or leaves when there never will be.
    method Next() returns (id: Option<int>)
      requires thread == Serving && running.None?
      modifies this`ordinary, this`control, this`running, this`thread
      ensures Contents() == if old(control) != [] || old(ordinary) != [] then Do(old(Contents()), Take) else Do(old(Contents()), Leave)
      ensures id == running
    {
      if control != [] {
        id, control := Some(control[0]), control[1..];
      } else if ordinary != [] {
        id, ordinary := Some(ordinary[0]), ordinary[1..];
      } else {
        id := None;
        if closing {
          thread := Unwinding;
        }
      }
      running := id;
    }

    // Settle the running job's future by how it ended, and latch a fault if it shows one.
    method Settle(ending: Ending)
      requires running.Some?
      modifies this`running, this`fault, this`settled, this`thread, this`failed
      ensures Contents() == Do(old(Contents()), Finish(ending))
    {
      match ending {
        case Returned =>
          settled := settled[running.value := Value];
        case Raised(kind, domain) =>
          var latched := Latch(kind, domain);
          if latched.Some? {
            fault := latched;
          }
          settled := settled[running.value := if kind.ValueKind? && domain != Some(InternalError) then DomainError else WorkerFailed(fault)];
        case Fatal =>
          settled := settled[running.value := Aborted];
          thread, failed := Unwinding, true;
      }
      running := None;
    }

    // On the way out every job still queued is refused, control jobs first.
    method DrainQueues()
      requires thread == Unwinding
      modifies this`ordinary, this`control, this`closing, this`settled, this`thread
      ensures Contents() == Do(old(Contents()), Drain)
    {
      closing := true;
      ghost var all := DroppedAll(DroppedAll(settled, control), ordinary);
      while control != []
        invariant DroppedAll(DroppedAll(settled, control), ordinary) == all
        invariant ordinary == old(ordinary) && closing && thread == Unwinding
        decreases |control|
      {
        var id := control[0];
        control := control[1..];
        settled := settled[id := Dropped];
      }
      while ordinary != []
        invariant DroppedAll(settled, ordinary) == all
        invariant control == [] && closing && thread == Unwinding
        decreases |ordinary|
      {
        var id := ordinary[0];
        ordinary := ordinary[1..];
        settled := settled[id := Dropped];
      }
      thread := Drained;
    }

    method Close(clean: bool)
      requires thread == Drained
      modifies this`thread, this`failed
      ensures Contents() == Do(old(Contents()), CloseOwner(clean))
    {
      thread := Stopped;
      if !clean {
        failed := true;
      }
    }
  }
}
