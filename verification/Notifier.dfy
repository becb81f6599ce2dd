/** The notifier as a whole: a delivery loop and an operator queue jobs for one worker, which owns
    the journal and reads snapshots of an inbox that peers, the participant and repository
    bindings keep changing. Every act below is atomic; acts interleave freely, callers are
    cancelled, jobs fail, and the process dies and restarts at any point between two acts. */
module Notifier {
  import opened Common
  import opened JournalModel
  import opened JournalRuns
  import I = Inbox
  import opened InboxHistory
  import opened InboxSource

  const MAX_QUEUE: nat := 16

  datatype Job =
    | JobReady(now: int)
    | JobPrepare(now: int)
    | JobReserve(now: int)
    | JobResolve(outcome: Outcome, now: int, call: seq<int>)   // call: the rows the provider answered for
    | JobRetry(seqs: seq<int>)
    | JobHealth
    | JobConfirm(evidence: Evidence)

  // A job alternates between reading the inbox and one journal transaction at a time.
  datatype Stage =
    | Entry
    | Recovered
    | Seeding(pointers: seq<Record>)
    | Holding(snap: Retained)
    | Reconciled
    | Scanned(scan: Scan)
    | Ingested
    | Checked

  datatype Ticket = Ticket(id: int, job: Job)

  datatype Running = Running(ticket: Ticket, stage: Stage)

  datatype Answer = Broke | Finished(rows: seq<int>)

  // Where one pass of the delivery loop stands. Between `Delivering` and `AwaitResolve` the
  // provider has answered.
  datatype Phase =
    | Down
    | Idle
    | AwaitReady(id: int)
    | Readied
    | AwaitPrepare(id: int)
    | Prepared
    | AwaitReserve(id: int)
    | Rendering(rows: seq<int>)
    | Delivering(rows: seq<int>)
    | AwaitResolve(id: int)

  // started: this process has settled left-over attempts; unresolved: an attempt may be open.
  datatype Loop = Loop(phase: Phase, started: bool, unresolved: bool)

  datatype World = World(
    chronicle: Chronicle, journey: Journey,
    queue: seq<Ticket>, running: Option<Running>, next: int,
    loop: Loop,
    calls: map<int, int>)   // provider calls for a sequence since its last operator retry

  datatype Act =
    | InboxAct(act: I.Act)
    | Boot
    | Crash
    | Begin(now: int)
    | Continue(now: int)
    | Call
    | Answered(outcome: Outcome, now: int)
    | Cancel
    | Operate(job: Job)
    | Work(lost: bool)   // lost: the job's work stands, but its answer fails to arrive
    | Fault

  function Mail(w: World): I.Contents {
    w.chronicle.inbox
  }

  /* ----- the worker's jobs ----- */

  datatype Turn = Go(journey: Journey, stage: Stage) | End(journey: Journey, answer: Answer)

  // Run one transaction: go on, or fail with nothing changed.
  function Transact(j: Journey, op: Op, next: Stage): Turn {
    if Apply(j.state, op).Commit? then Go(Step(j, op), next) else End(j, Broke)
  }

  function Conclude(j: Journey, op: Op, rows: seq<int>): Turn {
    if Apply(j.state, op).Commit? then End(Step(j, op), Finished(rows)) else End(j, Broke)
  }

  function Keys(work: map<int, Row>): seq<int> {
    Lowest(work.Keys, |work|)
  }

  function ReadRetained(i: I.Contents, j: Journey): Turn {
    match RetainedOf(i, CAPABLE, Keys(j.state.work))
    case Err(_) => End(j, Broke)
    case Ok(snap) => Go(j, Holding(snap))
  }

  // The first job of every process: settle a left-over attempt, then seed the retained pointers.
  function StepReady(i: I.Contents, j: Journey, now: int, stage: Stage): Turn {
    match stage
    case Entry => Transact(j, DoRecover(now), Recovered)
    case Recovered =>
      if j.state.seeded then End(j, Finished([]))
      else
        (match SeedRecords(i, CAPABLE)
         case Err(_) => End(j, Broke)
         case Ok(pointers) => Go(j, Seeding(pointers)))
    case Seeding(pointers) => Conclude(j, DoSeed(pointers), [])
    case _ => End(j, Broke)
  }

  // Reconcile, scan, admit and choose. A full journal is no failure: delivering what it
  // holds makes room.
  function StepPrepare(i: I.Contents, j: Journey, now: int, stage: Stage): Turn {
    match stage
    case Entry => ReadRetained(i, j)
    case Holding(snap) => Transact(j, DoReconcile(snap), Reconciled)
    case Reconciled =>
      (match ScanAfter(i, CAPABLE, j.state.enumerated)
       case Err(_) => End(j, Broke)
       case Ok(scan) => Go(j, Scanned(scan)))
    case Scanned(scan) =>
      (match Apply(j.state, DoIngest(scan))
       case Commit(_, _) => Go(Step(j, DoIngest(scan)), Ingested)
       case Refuse(e) => if e == Capacity then Go(j, Ingested) else End(j, Broke))
    case Ingested => if Clock(now) then End(j, Finished(Due(j.state, now, true))) else End(j, Broke)
    case _ => End(j, Broke)
  }

  function StepReserve(i: I.Contents, j: Journey, now: int, stage: Stage): Turn {
    match stage
    case Entry => ReadRetained(i, j)
    case Holding(snap) => Transact(j, DoReconcile(snap), Reconciled)
    case Reconciled =>
      var due := Due(j.state, now, true);
      if !Clock(now) then End(j, Broke)
      else if due == [] then End(j, Finished([]))
      else Conclude(j, DoReserve(due, now), due)
    case _ => End(j, Broke)
  }

  function StepRetry(i: I.Contents, j: Journey, seqs: seq<int>, stage: Stage): Turn {
    match stage
    case Entry => ReadRetained(i, j)
    case Holding(snap) => Transact(j, DoReconcile(snap), Reconciled)
    case Reconciled => Conclude(j, DoRetry(seqs), [])
    case _ => End(j, Broke)
  }

  // Activation is read back from the inbox before the journal records it.
  function StepConfirm(i: I.Contents, j: Journey, evidence: Evidence, stage: Stage): Turn {
    match stage
    case Entry => if i.activation == Some(evidence) then Go(j, Checked) else End(j, Broke)
    case Checked => Conclude(j, DoConfirm(evidence), [])
    case _ => End(j, Broke)
  }

  function StepJob(i: I.Contents, j: Journey, job: Job, stage: Stage): Turn {
    match job
    case JobReady(now) => StepReady(i, j, now, stage)
    case JobPrepare(now) => StepPrepare(i, j, now, stage)
    case JobReserve(now) => StepReserve(i, j, now, stage)
    case JobResolve(outcome, now, _) => Conclude(j, DoResolve(outcome, now), [])
    case JobRetry(seqs) => StepRetry(i, j, seqs, stage)
    case JobHealth => Conclude(j, DoAcknowledgeHealth, [])
    case JobConfirm(evidence) => StepConfirm(i, j, evidence, stage)
  }

  function CallsFor(calls: map<int, int>, q: int): int {
    if q in calls then calls[q] else 0
  }

  function CallsAfter(calls: map<int, int>, job: Job, p: Turn): map<int, int> {
    if job.JobRetry? && p.End? && p.answer.Finished? then calls - Elements(job.seqs) else calls
  }

  // The loop hears only of the job it is still waiting for.
  function Hear(l: Loop, id: int, answer: Answer): Loop {
    match l.phase
    case AwaitReady(x) =>
      if x != id then l else if answer.Broke? then l.(phase := Idle)
      else Loop(Readied, true, false)
    case AwaitPrepare(x) =>
      if x != id then l else if answer.Broke? || answer.rows == [] then l.(phase := Idle) else l.(phase := Prepared)
    case AwaitReserve(x) =>
      if x != id then l else if answer.Broke? then l.(phase := Idle)
      else if answer.rows == [] then l.(phase := Idle, unresolved := false)
      else l.(phase := Rendering(answer.rows))
    case AwaitResolve(x) =>
      if x != id then l else if answer.Broke? then l.(phase := Idle) else l.(phase := Idle, unresolved := false)
    case _ => l
  }

  function Reply(w: World, id: int, answer: Answer): World {
    w.(loop := Hear(w.loop, id, answer))
  }

  function DoWork(w: World, lost: bool): World {
    match w.running
    case None => if w.queue == [] then w else w.(queue := w.queue[1..], running := Some(Running(w.queue[0], Entry)))
    case Some(r) =>
      var p := StepJob(Mail(w), w.journey, r.ticket.job, r.stage);
      var w' := w.(journey := p.journey, calls := CallsAfter(w.calls, r.ticket.job, p));
      match p
      case Go(_, stage) => w'.(running := Some(Running(r.ticket, stage)))
      case End(_, answer) => Reply(w'.(running := None), r.ticket.id, if lost then Broke else answer)
  }

  /* ----- the loop ----- */

  // Queue a job and wait for it; a full queue fails the pass.
  function Submit(w: World, job: Job, wait: Phase): World {
    if |w.queue| >= MAX_QUEUE then w.(loop := w.loop.(phase := Idle))
    else w.(queue := w.queue + [Ticket(w.next, job)], next := w.next + 1, loop := w.loop.(phase := wait))
  }

  function DoCall(w: World): World {
    if w.loop.phase.Rendering? then
      w.(loop := w.loop.(phase := Delivering(w.loop.phase.rows)),
         calls := map q | q in w.calls.Keys + Elements(w.loop.phase.rows) :: CallsFor(w.calls, q) + (if q in w.loop.phase.rows then 1 else 0))
    else w
  }

  function Do(w: World, a: Act): World {
    match a
    case InboxAct(act) => w.(chronicle := Follow(w.chronicle, act))
    case Boot => if w.loop.phase.Down? then w.(loop := w.loop.(phase := Idle)) else w
    case Crash => w.(queue := [], running := None, loop := Loop(Down, false, false))
    case Begin(now) =>
      if !w.loop.phase.Idle? then w
      else if !w.loop.started || w.loop.unresolved then Submit(w, JobReady(now), AwaitReady(w.next))
      else Submit(w, JobPrepare(now), AwaitPrepare(w.next))
    case Continue(now) =>
      if w.loop.phase.Readied? then Submit(w, JobPrepare(now), AwaitPrepare(w.next))
      else if w.loop.phase.Prepared? then Submit(w.(loop := w.loop.(unresolved := true)), JobReserve(now), AwaitReserve(w.next))
      else w
    case Call => DoCall(w)
    case Answered(outcome, now) =>
      if w.loop.phase.Delivering? then Submit(w, JobResolve(outcome, now, w.loop.phase.rows), AwaitResolve(w.next)) else w
    case Cancel => if w.loop.phase.Down? then w else w.(loop := w.loop.(phase := Idle))
    case Operate(job) =>
      if w.loop.phase.Down? || !(job.JobRetry? || job.JobHealth? || job.JobConfirm?) || |w.queue| >= MAX_QUEUE then w
      else w.(queue := w.queue + [Ticket(w.next, job)], next := w.next + 1)
    case Work(lost) => if w.loop.phase.Down? then w else DoWork(w, lost)
    case Fault =>
      match w.running
      case None => w
      case Some(r) => Reply(w.(running := None), r.ticket.id, Broke)
  }

  function Live(w: World, acts: seq<Act>): World
    decreases |acts|
  {
    if acts == [] then w else Live(Do(w, acts[0]), acts[1..])
  }

  // A new journal beside an inbox nothing has reached yet.
  function Genesis(target: string, nonce: string, through: int, historyLost: bool): World {
    World(DAWN, Journey(Fresh(target, nonce, through, historyLost), EMPTY_HISTORY), [], None, 0, Loop(Down, false, false), map[])
  }
}
