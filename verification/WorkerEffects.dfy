/** What each critical section of the executor does: when it accepts, what it takes, how it settles,
    and that it changes nothing else. */
module WorkerEffects {
  import opened Common
  import opened Worker

  // A job is accepted while the executor is open and its own queue holds fewer than sixteen jobs,
  // or two control jobs; it goes to the end of that queue.
  lemma CallEffect(e: Executor, id: int, priority: bool)
    ensures var t := Do(e, Call(id, priority)); var open := !e.closing && (if priority then |e.control| < 2 else |e.ordinary| < 16);
      && (Accepts(e, Call(id, priority)) <==> open)
      && t.control == (if open && priority then e.control + [id] else e.control)
      && t.ordinary == (if open && !priority then e.ordinary + [id] else e.ordinary)
      && t == e.(control := t.control, ordinary := t.ordinary)
  {}

  // A free serving thread takes the oldest control job, or the oldest ordinary one when there is
  // none; whatever is taken is running, and the others keep their places.
  lemma TakeEffect(e: Executor)
    ensures var t := Do(e, Take); var free := e.thread == Serving && e.running.None?;
      && t.running == (if !free then e.running
                       else if |e.control| > 0 then Some(e.control[0])
                       else if |e.ordinary| > 0 then Some(e.ordinary[0]) else None)
      && t.control == (if free && |e.control| > 0 then e.control[1..] else e.control)
      && t.ordinary == (if free && |e.control| == 0 && |e.ordinary| > 0 then e.ordinary[1..] else e.ordinary)
      && t == e.(running := t.running, control := t.control, ordinary := t.ordinary)
  {}

  // The fault an ending shows: the one its error declares, else by the class of the error; a plain
  // value error shows none.
  predicate Shows(ending: Ending, fault: Fault) {
    && ending.Raised?
    && if ending.domain.Some? then fault == ending.domain.value
       else if ending.kind in {DatabaseKind, SystemKind} then fault == StorageError
       else ending.kind != ValueKind && fault == InternalError
  }

  // The running job's future alone is settled, by how it ended. A shown fault is remembered, an
  // older one stays otherwise; only a fatal ending unwinds the thread, and that is a failure.
  lemma FinishEffect(e: Executor, ending: Ending)
    requires e.running.Some?
    ensures var t := Do(e, Finish(ending)); var id := e.running.value;
      && t.running.None?
      && t.settled.Keys == e.settled.Keys + {id} && (forall k :: k in e.settled && k != id ==> t.settled[k] == e.settled[k])
      && (t.settled[id] == Value <==> ending.Returned?)
      && (t.settled[id] == Aborted <==> ending.Fatal?)
      && (t.settled[id] == DomainError <==> ending.Raised? && ending.kind == ValueKind && ending.domain != Some(InternalError))
      && (forall f :: t.settled[id] == WorkerFailed(Some(f)) <==> Shows(ending, f) && t.settled[id] != DomainError)
      && t.settled[id] != Dropped
      && (forall f :: Shows(ending, f) ==> t.fault == Some(f))
      && ((forall f :: !Shows(ending, f)) ==> t.fault == e.fault)
      && (t.thread == if ending.Fatal? then Unwinding else e.thread) && (t.failed <==> e.failed || ending.Fatal?)
      && t.control == e.control && t.ordinary == e.ordinary && t.closing == e.closing
  {
    assert ending.Raised? ==>
      (Shows(ending, InternalError) || Shows(ending, StorageError) <==> !(ending.kind == ValueKind && ending.domain.None?));
  }

  // The serving loop is left when closing was asked for and nothing is queued or running.
  lemma LeaveEffect(e: Executor)
    ensures var t := Do(e, Leave);
      && (t.thread != e.thread <==> e.thread == Serving && e.running.None? && e.closing && |e.control| + |e.ordinary| == 0)
      && (t.thread != e.thread ==> t.thread == Unwinding) && t == e.(thread := t.thread)
    ensures Do(e, StopAccepting).closing && Do(e, StopAccepting) == e.(closing := true)
  {}

  // On the way out every queued job is turned away and no other future is touched; nothing can be
  // queued any more.
  lemma DrainEffect(e: Executor, id: int)
    requires e.thread == Unwinding
    ensures var t := Do(e, Drain);
      && t.closing && t.control == [] && t.ordinary == [] && t.thread == Drained
      && (id in e.control || id in e.ordinary ==> id in t.settled && t.settled[id] == Dropped)
      && (id !in e.control && id !in e.ordinary ==> (id in t.settled <==> id in e.settled) && (id in t.settled ==> t.settled[id] == e.settled[id]))
      && t.running == e.running && t.fault == e.fault && t.failed == e.failed
  {
    DroppedEach(e.settled, e.control, id);
    DroppedEach(DroppedAll(e.settled, e.control), e.ordinary, id);
  }

  // The owner is closed once the queues are drained, and an unclean close is a failure.
  lemma CloseEffect(e: Executor, clean: bool)
    ensures var t := Do(e, CloseOwner(clean));
      if e.thread == Drained then t == e.(thread := Stopped, failed := t.failed) && (t.failed <==> e.failed || !clean) else t == e
  {}
}
