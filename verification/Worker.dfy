/** The bounded single-owner executor behind every database: callers queue jobs under one lock,
    one thread runs them, and closing drains. Each act below is one critical section, or the
    run of one job between two of them; schedules are arbitrary sequences of acts. */
module Worker {
  import opened Common

  const ORDINARY_LIMIT: nat := 16
  const CONTROL_LIMIT: nat := 2

  datatype Fault = StorageError | InternalError

  // What a job raised, by the classes the executor distinguishes.
  datatype Kind = ValueKind | ProgrammingKind | DatabaseKind | SystemKind | OtherKind

  datatype Ending =
    | Returned
    | Raised(kind: Kind, domain: Option<Fault>)   // domain: the fault the error itself declares
    | Fatal                                       // not an ordinary exception: the thread unwinds

  // How an accepted job's future is settled.
  datatype Settlement = Value | DomainError | WorkerFailed(fault: Option<Fault>) | Aborted | Dropped

  datatype Thread = Serving | Unwinding | Drained | Stopped

  datatype Executor = Executor(
    ordinary: seq<int>, control: seq<int>, closing: bool, running: Option<int>, fault: Option<Fault>,
    settled: map<int, Settlement>, thread: Thread, failed: bool)

  const IDLE := Executor([], [], false, None, None, map[], Serving, false)

  datatype Act =
    | Call(id: int, priority: bool)
    | StopAccepting
    | Take
    | Finish(ending: Ending)
    | Leave
    | Drain
    | CloseOwner(clean: bool)

  // Which fault a raised error latches, if any.
  function Latch(kind: Kind, domain: Option<Fault>): Option<Fault> {
    if domain.Some? then domain
    else
      match kind
      case ProgrammingKind => Some(InternalError)
      case DatabaseKind => Some(StorageError)
      case SystemKind => Some(StorageError)
      case ValueKind => None
      case OtherKind => Some(InternalError)
  }

  function FaultAfter(fault: Option<Fault>, ending: Ending): Option<Fault> {
    if ending.Raised? && Latch(ending.kind, ending.domain).Some? then Latch(ending.kind, ending.domain) else fault
  }

  function SettlementOf(fault: Option<Fault>, ending: Ending): Settlement {
    match ending
    case Returned => Value
    case Raised(kind, domain) =>
      if kind.ValueKind? && domain != Some(InternalError) then DomainError else WorkerFailed(FaultAfter(fault, ending))
    case Fatal => Aborted
  }

  function DroppedAll(settled: map<int, Settlement>, ids: seq<int>): map<int, Settlement>
    decreases |ids|
  {
    if ids == [] then settled else DroppedAll(settled[ids[0] := Dropped], ids[1..])
  }

  predicate Accepts(e: Executor, a: Act) {
    a.Call? && !e.closing && (if a.priority then |e.control| < CONTROL_LIMIT else |e.ordinary| < ORDINARY_LIMIT)
  }

  function Do(e: Executor, a: Act): Executor {
    match a
    case Call(id, priority) =>
      if !Accepts(e, a) then e
      else if priority then e.(control := e.control + [id])
      else e.(ordinary := e.ordinary + [id])
    case StopAccepting => e.(closing := true)
    case Take =>
      if e.thread != Serving || e.running.Some? then e
      else if e.control != [] then e.(control := e.control[1..], running := Some(e.control[0]))
      else if e.ordinary != [] then e.(ordinary := e.ordinary[1..], running := Some(e.ordinary[0]))
      else e
    case Finish(ending) =>
      if e.running.None? then e
      else
        e.(running := None, fault := FaultAfter(e.fault, ending),
           settled := e.settled[e.running.value := SettlementOf(e.fault, ending)],
           thread := if ending.Fatal? then Unwinding else e.thread,
           failed := e.failed || ending.Fatal?)
    case Leave =>
      // The serving loop ends once closing is set and nothing is queued.
      if e.thread == Serving && e.running.None? && e.closing && e.control == [] && e.ordinary == [] then e.(thread := Unwinding) else e
    case Drain =>
      if e.thread != Unwinding then e
      else
        e.(closing := true, control := [], ordinary := [], thread := Drained,
           settled := DroppedAll(DroppedAll(e.settled, e.control), e.ordinary))
    case CloseOwner(clean) => if e.thread != Drained then e else e.(thread := Stopped, failed := e.failed || !clean)
  }

  /* ----- what an observer of the schedule wrote down ----- */

  // Ids in the order they were accepted, and in the order they were taken to run; how those run to
  // an end ended; and whether an ordinary job was ever taken while a control job waited.
  datatype Log = Log(accepted: seq<int>, urgent: seq<int>, taken: seq<int>, takenUrgent: seq<int>,
                     ended: map<int, Ending>, settlements: int, jumped: bool)

  const NOTHING := Log([], [], [], [], map[], 0, false)

  datatype World = World(executor: Executor, log: Log)

  function Write(e: Executor, g: Log, a: Act): Log {
    match a
    case Call(id, priority) =>
      if !Accepts(e, a) then g
      else if priority then g.(urgent := g.urgent + [id])
      else g.(accepted := g.accepted + [id])
    case Take =>
      if e.thread != Serving || e.running.Some? then g
      else if Do(e, a).control != e.control then g.(takenUrgent := g.takenUrgent + [Do(e, a).running.value])
      else if Do(e, a).ordinary != e.ordinary then
        g.(taken := g.taken + [Do(e, a).running.value], jumped := g.jumped || e.control != [])
      else g
    case Finish(ending) => if e.running.Some? then g.(ended := g.ended[e.running.value := ending], settlements := g.settlements + 1) else g
    case Drain => if e.thread == Unwinding then g.(settlements := g.settlements + |e.control| + |e.ordinary|) else g
    case _ => g
  }

  // Every call brings its own future.
  predicate Fresh(w: World, a: Act) {
    a.Call? ==> a.id !in w.log.accepted && a.id !in w.log.urgent
  }

  function Step(w: World, a: Act): World {
    if Fresh(w, a) then World(Do(w.executor, a), Write(w.executor, w.log, a)) else w
  }

  function Run(w: World, acts: seq<Act>): World
    decreases |acts|
  {
    if acts == [] then w else Run(Step(w, acts[0]), acts[1..])
  }

  /* ----- invariants ----- */

  predicate Unique(s: seq<int>) {
    forall a, b :: 0 <= a < b < |s| ==> s[a] != s[b]
  }

  // A job's own ending answers its caller: with a value, with the error it raised, with a failure
  // that names a fault, or with what unwound the thread.
  predicate Answers(s: Settlement, ending: Ending) {
    match ending
    case Returned => s == Value
    case Raised(kind, domain) => if kind == ValueKind && domain != Some(InternalError) then s == DomainError else s.WorkerFailed? && s.fault.Some?
    case Fatal => s == Aborted
  }

  // Where an accepted id stands.
  predicate Stands(w: World, id: int) {
    var e, g := w.executor, w.log;
    && (id in g.taken || id in g.takenUrgent <==> id in g.ended || e.running == Some(id))
    && (id in g.ended ==> e.running != Some(id))
    && (id in g.ended && id in e.settled ==> Answers(e.settled[id], g.ended[id]))
    && (id in e.settled && id !in g.ended ==> e.settled[id] == Dropped)
    && (id in e.settled <==> id in g.ended || (e.thread in {Drained, Stopped} && (id in g.accepted || id in g.urgent)))
  }

  ghost predicate Orderly(w: World) {
    var e, g := w.executor, w.log;
    && |e.ordinary| <= ORDINARY_LIMIT && |e.control| <= CONTROL_LIMIT
    && Unique(g.accepted + g.urgent)
    && !g.jumped
    && (e.thread != Serving ==> e.running.None?)
    && (e.thread in {Drained, Stopped} ==> e.closing && e.ordinary == [] && e.control == [])
    && (e.thread in {Serving, Unwinding} ==> g.accepted == g.taken + e.ordinary && g.urgent == g.takenUrgent + e.control)
    && (e.thread in {Drained, Stopped} ==> g.taken <= g.accepted && g.takenUrgent <= g.urgent)
    && (e.thread != Serving && !e.failed ==> e.closing && g.taken == g.accepted && g.takenUrgent == g.urgent)
    && g.settlements == |e.settled|
    && (forall id {:trigger Stands(w, id)} :: Stands(w, id))
  }

  lemma IdleOrderly()
    ensures Orderly(World(IDLE, NOTHING))
  {
    forall id ensures Stands(World(IDLE, NOTHING), id) {}
  }

  lemma CallOrderly(w: World, a: Act)
    requires Orderly(w) && a.Call? && Fresh(w, a) && Accepts(w.executor, a)
    ensures Orderly(Step(w, a))
  {
    var w' := Step(w, a);
    var e, g := w.executor, w.log;
    var before, after := g.accepted + g.urgent, w'.log.accepted + w'.log.urgent;
    if w.executor.thread in {Drained, Stopped} {
      assert false;
    }
    if a.priority {
      assert after == before + [a.id];
      assert w'.log.urgent == w'.log.takenUrgent + w'.executor.control;
    } else {
      assert w'.log.accepted == w'.log.taken + w'.executor.ordinary;
      UniqueInsert(g.accepted, g.urgent, a.id);
    }
    forall id ensures Stands(w', id) { assert Stands(w, id); }
  }

  lemma UniqueInsert(s: seq<int>, t: seq<int>, x: int)
    requires Unique(s + t) && x !in s && x !in t
    ensures Unique((s + [x]) + t)
  {
    var u := (s + [x]) + t;
    forall a, b | 0 <= a < b < |u| ensures u[a] != u[b] {
      var a' := if a <= |s| then a else a - 1;
      var b' := if b <= |s| then b else b - 1;
      assert a != |s| ==> u[a] == (s + t)[a'];
      assert b != |s| ==> u[b] == (s + t)[b'];
      assert u[|s|] == x;
      assert forall k :: 0 <= k < |s + t| ==> (s + t)[k] in s || (s + t)[k] in t;
    }
  }

  // A queued id has not been taken.
  lemma QueuedUntaken(w: World, id: int)
    requires Orderly(w) && w.executor.thread in {Serving, Unwinding}
    requires id in w.executor.ordinary || id in w.executor.control
    ensures id !in w.log.taken && id !in w.log.takenUrgent
  {
    var e, g := w.executor, w.log;
    var all := g.accepted + g.urgent;
    var k :| 0 <= k < |all| && all[k] == id && (|g.taken| <= k < |g.accepted| || |g.accepted| + |g.takenUrgent| <= k) by {
      if id in e.ordinary {
        var m :| 0 <= m < |e.ordinary| && e.ordinary[m] == id;
        assert all[|g.taken| + m] == id;
      } else {
        var m :| 0 <= m < |e.control| && e.control[m] == id;
        assert all[|g.accepted| + |g.takenUrgent| + m] == id;
      }
    }
    forall m | 0 <= m < |g.taken| ensures g.taken[m] != id { assert all[m] == g.taken[m]; }
    forall m | 0 <= m < |g.takenUrgent| ensures g.takenUrgent[m] != id { assert all[|g.accepted| + m] == g.takenUrgent[m]; }
  }

  lemma TakeOrderly(w: World)
    requires Orderly(w) && w.executor.thread == Serving && w.executor.running.None?
    requires w.executor.control != [] || w.executor.ordinary != []
    ensures Orderly(Step(w, Take))
  {
    var w' := Step(w, Take);
    var e, g := w.executor, w.log;
    var id := w'.executor.running.value;
    if e.control != [] {
      assert e.control[0] in e.control;
      assert |w'.executor.control| == |e.control| - 1;
      assert g.takenUrgent + e.control == w'.log.takenUrgent + w'.executor.control;
    } else {
      assert e.ordinary[0] in e.ordinary;
      assert |w'.executor.ordinary| == |e.ordinary| - 1;
      assert g.taken + e.ordinary == w'.log.taken + w'.executor.ordinary;
    }
    QueuedUntaken(w, id);
    forall x ensures Stands(w', x) {
      assert Stands(w, x) && Stands(w, id);
      assert x in w'.log.taken || x in w'.log.takenUrgent <==> x in g.taken || x in g.takenUrgent || x == id;
    }
  }

  lemma FinishOrderly(w: World, ending: Ending)
    requires Orderly(w) && w.executor.running.Some?
    ensures Orderly(Step(w, Finish(ending)))
  {
    var w' := Step(w, Finish(ending));
    assert Stands(w, w.executor.running.value);
    forall x ensures Stands(w', x) { assert Stands(w, x); }
  }

  lemma {:induction false} DroppedSize(settled: map<int, Settlement>, ids: seq<int>)
    requires Unique(ids) && forall id :: id in ids ==> id !in settled
    ensures |DroppedAll(settled, ids)| == |settled| + |ids|
    ensures forall id :: id in DroppedAll(settled, ids) <==> id in settled || id in ids
    decreases |ids|
  {
    if ids != [] {
      var rest := ids[1..];
      assert ids == [ids[0]] + rest;
      forall id | id in rest ensures id !in settled[ids[0] := Dropped] {
        var k :| 0 <= k < |rest| && rest[k] == id;
        assert ids[k + 1] == id;
      }
      DroppedSize(settled[ids[0] := Dropped], rest);
    }
  }

  lemma {:induction false} DroppedEach(settled: map<int, Settlement>, ids: seq<int>, id: int)
    ensures var t := DroppedAll(settled, ids);
      && (id in ids ==> id in t && t[id] == Dropped)
      && (id !in ids ==> (id in t <==> id in settled) && (id in t ==> t[id] == settled[id]))
    decreases |ids|
  {
    if ids != [] {
      DroppedEach(settled[ids[0] := Dropped], ids[1..], id);
      assert ids == [ids[0]] + ids[1..];
    }
  }

  lemma UniqueParts(p: seq<int>, s: seq<int>, q: seq<int>, t: seq<int>)
    requires Unique((p + s) + (q + t))
    ensures Unique(s) && Unique(t) && forall id :: id in s ==> id !in t
  {
    var all := (p + s) + (q + t);
    assert forall k :: 0 <= k < |s| ==> all[|p| + k] == s[k];
    assert forall k :: 0 <= k < |t| ==> all[|p| + |s| + |q| + k] == t[k];
  }

  lemma DrainOrderly(w: World)
    requires Orderly(w) && w.executor.thread == Unwinding
    ensures Orderly(Step(w, Drain))
  {
    var w' := Step(w, Drain);
    var e, g := w.executor, w.log;
    UniqueParts(g.taken, e.ordinary, g.takenUrgent, e.control);
    forall id | id in e.control || id in e.ordinary ensures id !in e.settled {
      QueuedUntaken(w, id);
      assert Stands(w, id);
    }
    DroppedSize(e.settled, e.control);
    DroppedSize(DroppedAll(e.settled, e.control), e.ordinary);
    forall id ensures Stands(w', id) {
      DroppedEach(e.settled, e.control, id);
      DroppedEach(DroppedAll(e.settled, e.control), e.ordinary, id);
      assert Stands(w, id);
      assert id in g.accepted <==> id in g.taken || id in e.ordinary;
      assert id in g.urgent <==> id in g.takenUrgent || id in e.control;
    }
  }

  lemma RestOrderly(w: World, a: Act)
    requires Orderly(w) && (a.StopAccepting? || a.Leave? || a.CloseOwner?)
    ensures Orderly(Step(w, a))
  {
    var w' := Step(w, a);
    forall id ensures Stands(w', id) { assert Stands(w, id); }
  }

  lemma StepOrderly(w: World, a: Act)
    requires Orderly(w)
    ensures Orderly(Step(w, a))
  {
    if Fresh(w, a) && Step(w, a) != w {
      match a {
        case Call(_, _) => CallOrderly(w, a);
        case Take => TakeOrderly(w);
        case Finish(ending) => FinishOrderly(w, ending);
        case Drain => DrainOrderly(w);
        case _ => RestOrderly(w, a);
      }
    }
  }

  lemma {:induction false} AlwaysOrderly(w: World, acts: seq<Act>)
    requires Orderly(w)
    ensures Orderly(Run(w, acts))
    decreases |acts|
  {
    hide Orderly, Step;
    if acts != [] {
      StepOrderly(w, acts[0]);
      AlwaysOrderly(Step(w, acts[0]), acts[1..]);
    }
  }

  /* ----- the guarantees ----- */

  // Over every schedule: queues stay within their bounds, jobs of each class run in the order
  // they were accepted, and no ordinary job is ever taken while a control job waits.
  lemma BoundedAndInOrder(acts: seq<Act>)
    ensures var w := Run(World(IDLE, NOTHING), acts); var e, g := w.executor, w.log;
      && |e.ordinary| <= ORDINARY_LIMIT && |e.control| <= CONTROL_LIMIT
      && g.taken <= g.accepted && g.takenUrgent <= g.urgent && !g.jumped
  {
    IdleOrderly();
    AlwaysOrderly(World(IDLE, NOTHING), acts);
  }

  // Every accepted job is settled exactly once: as many settlements happened as futures are
  // settled, a job that ran is settled, and once the executor has stopped nothing accepted is
  // left unsettled - whether it closed in order or a fatal error ended it.
  lemma SettledExactlyOnce(acts: seq<Act>, id: int)
    ensures var w := Run(World(IDLE, NOTHING), acts); var e, g := w.executor, w.log;
      && g.settlements == |e.settled|
      && (id in e.settled ==> id in g.accepted || id in g.urgent)
      && (id in g.ended ==> id in e.settled)
      && (e.thread == Stopped ==> e.running.None? && (id in g.accepted || id in g.urgent ==> id in e.settled))
  {
    IdleOrderly();
    AlwaysOrderly(World(IDLE, NOTHING), acts);
    var w := Run(World(IDLE, NOTHING), acts);
    assert Stands(w, id);
    assert forall x :: x in w.log.taken ==> x in w.log.accepted;
    assert forall x :: x in w.log.takenUrgent ==> x in w.log.urgent;
  }

  // A future is settled by how its own job ended, and by nothing else; only a job that was never
  // run is turned away.
  lemma AnsweredByItsJob(acts: seq<Act>, id: int)
    ensures var w := Run(World(IDLE, NOTHING), acts); var e, g := w.executor, w.log;
      id in e.settled ==> if id in g.ended then Answers(e.settled[id], g.ended[id]) else e.settled[id] == Dropped
  {
    IdleOrderly();
    AlwaysOrderly(World(IDLE, NOTHING), acts);
    assert Stands(Run(World(IDLE, NOTHING), acts), id);
  }

  // An ordinary close runs every accepted job before the owner is closed.
  lemma OrdinaryCloseRunsAll(acts: seq<Act>, id: int)
    ensures var w := Run(World(IDLE, NOTHING), acts); var e, g := w.executor, w.log;
      e.thread in {Drained, Stopped} && !e.failed && (id in g.accepted || id in g.urgent) ==> id in g.ended
  {
    IdleOrderly();
    AlwaysOrderly(World(IDLE, NOTHING), acts);
    assert Stands(Run(World(IDLE, NOTHING), acts), id);
  }

  // From the moment closing starts nothing more is accepted.
  lemma {:induction false} NothingAcceptedAfterClosing(w: World, acts: seq<Act>)
    requires w.executor.closing
    ensures var w' := Run(w, acts);
      w'.executor.closing && w'.log.accepted == w.log.accepted && w'.log.urgent == w.log.urgent
    decreases |acts|
  {
    if acts != [] {
      NothingAcceptedAfterClosing(Step(w, acts[0]), acts[1..]);
    }
  }

  // A failure always names the fault it latched, a plain value error never latches one, and the
  // fault a job's own error declares wins over its class.
  lemma FailuresNameTheirFault(fault: Option<Fault>, kind: Kind, domain: Option<Fault>)
    ensures var ending := Raised(kind, domain); var s := SettlementOf(fault, ending);
      && (s.WorkerFailed? ==> s.fault.Some? && s.fault == FaultAfter(fault, ending))
      && (s.DomainError? <==> kind.ValueKind? && domain != Some(InternalError))
      && (kind.ValueKind? && domain.None? ==> FaultAfter(fault, ending) == fault)
      && (domain.Some? ==> FaultAfter(fault, ending) == domain)
  {}
}
