/** Pointers come first: until they are seeded the journal holds no row and no job that could admit
    one is queued, so seeding always finds room. */
module NotifierSeeding {
  import opened JournalModel
  import opened JournalRuns
  import opened JournalHistory
  import I = Inbox
  import opened InboxSource
  import opened Notifier
  import opened NotifierData
  import opened NotifierSteps
  import opened NotifierLoop

  predicate NoPrepare(p: seq<Ticket>) {
    forall k :: 0 <= k < |p| ==> !p[k].job.JobPrepare?
  }

  // Before seeding nothing is admitted, and the loop has not got past its first job.
  predicate Unsown(s: State, p: seq<Ticket>, l: Loop) {
    s.work == map[] && !l.started && NoPrepare(p)
  }

  predicate Sown(w: World) {
    w.journey.state.seeded || Unsown(w.journey.state, Jobs(w), w.loop)
  }

  /* ----- transactions ----- */

  lemma OpSeeds(j: Journey, op: Op)
    requires Valid(j.state)
    ensures j.state.seeded || (op.DoSeed? && Apply(j.state, op).Commit?) ==> Step(j, op).state.seeded
  {
    hide Apply, Valid, Observe;
    if Apply(j.state, op).Commit? {
      ApplySeeds(j.state, op);
    }
  }

  lemma ApplySeeds(s: State, op: Op)
    requires Valid(s) && Apply(s, op).Commit?
    ensures s.seeded || op.DoSeed? ==> Apply(s, op).state.seeded
  {
    ApplyCompletes(s, op);
    hide Apply, Valid, Admit, ReserveWork, ResolveWork, RetryWork, ReconcileWork, Elements, Exhaustion, DroppedRows,
         NewlyUnknown, Objections, Frontier, Crossed, CrossedBumps, Judge, Selection;
  }

  // Only scanning and seeding admit rows.
  lemma StaysEmpty(j: Journey, op: Op)
    requires Valid(j.state) && j.state.work == map[] && !op.DoIngest? && !op.DoSeed?
    ensures Step(j, op).state.work == map[]
  {
    hide Apply, Valid, Observe;
    if Apply(j.state, op).Commit? {
      forall q ensures q !in Apply(j.state, op).state.work {
        if q in Apply(j.state, op).state.work {
          NewRow(j.state, op, q);
        }
      }
    }
  }

  /* ----- jobs ----- */

  lemma JobSeeds(i: I.Contents, j: Journey, job: Job, stage: Stage)
    requires Valid(j.state)
    ensures var p := StepJob(i, j, job, stage);
      && (j.state.seeded ==> p.journey.state.seeded)
      && (job.JobReady? && p.End? && p.answer.Finished? ==> p.journey.state.seeded)
  {
    hide Apply, Step, Valid, RetainedOf, ScanAfter, SeedRecords, Due;
    match job
    case JobReady(now) =>
      OpSeeds(j, DoRecover(now));
      if stage.Seeding? { OpSeeds(j, DoSeed(stage.pointers)); }
    case JobPrepare(now) =>
      if stage.Holding? { OpSeeds(j, DoReconcile(stage.snap)); }
      if stage.Scanned? { OpSeeds(j, DoIngest(stage.scan)); }
    case JobReserve(now) =>
      if stage.Holding? { OpSeeds(j, DoReconcile(stage.snap)); }
      OpSeeds(j, DoReserve(Due(j.state, now, true), now));
    case JobResolve(outcome, now, _) => OpSeeds(j, DoResolve(outcome, now));
    case JobRetry(seqs) =>
      if stage.Holding? { OpSeeds(j, DoReconcile(stage.snap)); }
      OpSeeds(j, DoRetry(seqs));
    case JobHealth => OpSeeds(j, DoAcknowledgeHealth);
    case JobConfirm(evidence) => OpSeeds(j, DoConfirm(evidence));
  }

  lemma JobAdmitsNothing(i: I.Contents, j: Journey, job: Job, stage: Stage)
    requires Valid(j.state) && j.state.work == map[] && !job.JobPrepare?
    ensures var p := StepJob(i, j, job, stage); p.journey.state.seeded || p.journey.state.work == map[]
  {
    hide Apply, Step, Valid, RetainedOf, ScanAfter, SeedRecords, Due;
    match job
    case JobReady(now) =>
      StaysEmpty(j, DoRecover(now));
      if stage.Seeding? { OpSeeds(j, DoSeed(stage.pointers)); }
    case JobReserve(now) =>
      if stage.Holding? { StaysEmpty(j, DoReconcile(stage.snap)); }
      StaysEmpty(j, DoReserve(Due(j.state, now, true), now));
    case JobResolve(outcome, now, _) => StaysEmpty(j, DoResolve(outcome, now));
    case JobRetry(seqs) =>
      if stage.Holding? { StaysEmpty(j, DoReconcile(stage.snap)); }
      StaysEmpty(j, DoRetry(seqs));
    case JobHealth => StaysEmpty(j, DoAcknowledgeHealth);
    case JobConfirm(evidence) => StaysEmpty(j, DoConfirm(evidence));
  }

  /* ----- acts ----- */

  // The loop counts as started only once it hears that a ready job finished.
  lemma HearStarts(p: seq<Ticket>, next: int, l: Loop, members: set<int>, answer: Answer)
    requires p != [] && Fits(p, next, l, members) && !l.started
    ensures Hear(l, p[0].id, answer).started ==> p[0].job.JobReady? && answer.Finished?
  {
    if !Deaf(l, p[0].id) {
      Heard(p, next, l, members);
    }
  }

  lemma WorkSown(w: World, lost: bool)
    requires Story(w.journey) && LoopSound(w) && Sown(w)
    ensures Sown(DoWork(w, lost))
  {
    hide Story, StepJob, Hear, CallsAfter, Fits, StageFits, Spent;
    StoryValid(w.journey);
    match w.running
    case None =>
      if w.queue != [] {
        assert Jobs(DoWork(w, lost)) == Jobs(w);
      }
    case Some(r) =>
      var turn := StepJob(Mail(w), w.journey, r.ticket.job, r.stage);
      JobSeeds(Mail(w), w.journey, r.ticket.job, r.stage);
      var p, answer := Jobs(w), if turn.End? && !lost then turn.answer else Broke;
      assert p[0] == r.ticket && p[1..] == w.queue;
      if !turn.journey.state.seeded {
        JobAdmitsNothing(Mail(w), w.journey, r.ticket.job, r.stage);
        HearStarts(p, w.next, w.loop, w.journey.state.members, answer);
        assert Jobs(DoWork(w, lost)) == if turn.Go? then p else p[1..];
      }
  }

  lemma FaultSown(w: World)
    requires LoopSound(w) && Sown(w)
    ensures Sown(Do(w, Fault))
  {
    hide Hear, Fits, StageFits, Spent;
    if w.running.Some? {
      var p := Jobs(w);
      assert p[0] == w.running.value.ticket && p[1..] == w.queue;
      assert Jobs(Do(w, Fault)) == p[1..];
      if !w.journey.state.seeded {
        HearStarts(p, w.next, w.loop, w.journey.state.members, Broke);
      }
    }
  }

  lemma PassStarted(p: seq<Ticket>, next: int, l: Loop, members: set<int>)
    requires Fits(p, next, l, members)
    ensures l.phase.Readied? || l.phase.Prepared? ==> l.started
  {}

  lemma Queued(w: World, t: Ticket, l: Loop)
    requires Sown(w)
    requires !w.journey.state.seeded ==> !t.job.JobPrepare? && !l.started
    ensures Sown(w.(loop := l)) && Sown(w.(queue := w.queue + [t], next := w.next + 1, loop := l))
  {
    assert Jobs(w.(loop := l)) == Jobs(w);
    assert Jobs(w.(queue := w.queue + [t], next := w.next + 1, loop := l)) == Jobs(w) + [t];
  }

  // A pass that has not started yet queues only a ready job.
  lemma QueueSown(w: World, a: Act)
    requires LoopSound(w) && Sown(w) && (a.Begin? || a.Continue? || a.Answered? || a.Operate?)
    ensures Sown(Do(w, a))
  {
    PassStarted(Jobs(w), w.next, w.loop, w.journey.state.members);
    hide LoopSound, Sown;
    var w' := Do(w, a);
    if w'.queue == w.queue {
      Queued(w, Ticket(0, JobHealth), w'.loop);
    } else {
      var t := w'.queue[|w.queue|];
      Queued(w, t, w'.loop);
      assert w' == w.(queue := w.queue + [t], next := w.next + 1, loop := w'.loop);
    }
  }

  lemma DoSown(w: World, a: Act)
    requires Story(w.journey) && LoopSound(w) && Sown(w)
    ensures Sown(Do(w, a))
  {
    hide Story, LoopSound, DoWork;
    match a
    case Work(lost) =>
      if !w.loop.phase.Down? {
        WorkSown(w, lost);
      }
    case Fault => FaultSown(w);
    case Begin(_) => QueueSown(w, a);
    case Continue(_) => QueueSown(w, a);
    case Answered(_, _) => QueueSown(w, a);
    case Operate(_) => QueueSown(w, a);
    case Crash => assert Jobs(Do(w, a)) == [];
    case _ => assert Jobs(Do(w, a)) == Jobs(w);
  }
}
