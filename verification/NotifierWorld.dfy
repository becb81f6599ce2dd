/** What holds in every reachable world, whatever peers, participant, operator, scheduler and
    crashes do: nothing owed is lost, nothing honest is refused, and every provider call is
    backed by its own committed reservation. */
module NotifierWorld {
  import opened Common
  import opened JournalModel
  import opened JournalRuns
  import opened JournalHistory
  import I = Inbox
  import opened InboxHistory
  import opened InboxSource
  import opened Notifier
  import opened NotifierData
  import opened NotifierSteps
  import opened NotifierLoop
  import opened NotifierSeeding

  ghost predicate Reachable(w: World) {
    && DataSound(w.chronicle, w.journey)
    && Held(w.chronicle, w.journey.state, w.running)
    && LoopSound(w)
    && Sown(w)
  }

  /* ----- jobs and the data ----- */

  ghost predicate Proceeds(c: Chronicle, p: Turn) {
    DataSound(c, p.journey) && (p.Go? ==> HeldAt(c, p.journey.state, p.stage))
  }

  lemma TransactData(c: Chronicle, j: Journey, op: Op, next: Stage, rows: seq<int>)
    requires DataSound(c, j) && OpFits(c, j.state, op)
    requires !next.Holding? && !next.Scanned? && !next.Seeding?
    ensures Proceeds(c, Transact(j, op, next)) && Proceeds(c, Conclude(j, op, rows))
  {
    hide DataSound, OpFits, Apply, Step;
    DataStep(c, j, op);
  }

  lemma ReadRetainedData(c: Chronicle, j: Journey)
    requires DataSound(c, j)
    ensures Proceeds(c, ReadRetained(c.inbox, j))
  {
    hide DataSound, SnapHeld, RetainedOf;
    RetainedHeld(c, j);
  }

  lemma ReadyData(c: Chronicle, j: Journey, now: int, stage: Stage)
    requires DataSound(c, j) && HeldAt(c, j.state, stage)
    ensures Proceeds(c, StepReady(c.inbox, j, now, stage))
  {
    hide DataSound, SeedHeld, SnapHeld, ScanHeld, Transact, Conclude, SeedRecords;
    match stage
    case Entry => TransactData(c, j, DoRecover(now), Recovered, []);
    case Recovered => SeedReads(c, j);
    case Seeding(pointers) => TransactData(c, j, DoSeed(pointers), Recovered, []);
    case _ =>
  }

  lemma IngestData(c: Chronicle, j: Journey, scan: Scan)
    requires DataSound(c, j) && ScanHeld(c, j.state, scan)
    ensures DataSound(c, Step(j, DoIngest(scan)))
  {
    hide DataSound, ScanHeld, Apply, Step;
    DataStep(c, j, DoIngest(scan));
  }

  lemma PrepareData(c: Chronicle, j: Journey, now: int, stage: Stage)
    requires DataSound(c, j) && HeldAt(c, j.state, stage)
    ensures Proceeds(c, StepPrepare(c.inbox, j, now, stage))
  {
    hide DataSound, SeedHeld, SnapHeld, ScanHeld, Transact, ReadRetained, ScanAfter, Apply, Step, Due;
    match stage
    case Entry => ReadRetainedData(c, j);
    case Holding(snap) => TransactData(c, j, DoReconcile(snap), Reconciled, []);
    case Reconciled => ScanReads(c, j);
    case Scanned(scan) => IngestData(c, j, scan);
    case _ =>
  }

  lemma ReserveData(c: Chronicle, j: Journey, now: int, stage: Stage)
    requires DataSound(c, j) && HeldAt(c, j.state, stage)
    ensures Proceeds(c, StepReserve(c.inbox, j, now, stage))
  {
    hide DataSound, SeedHeld, SnapHeld, ScanHeld, Transact, Conclude, ReadRetained, Due;
    match stage
    case Entry => ReadRetainedData(c, j);
    case Holding(snap) => TransactData(c, j, DoReconcile(snap), Reconciled, []);
    case Reconciled => TransactData(c, j, DoReserve(Due(j.state, now, true), now), Reconciled, Due(j.state, now, true));
    case _ =>
  }

  lemma RetryData(c: Chronicle, j: Journey, seqs: seq<int>, stage: Stage)
    requires DataSound(c, j) && HeldAt(c, j.state, stage)
    ensures Proceeds(c, StepRetry(c.inbox, j, seqs, stage))
  {
    hide DataSound, SeedHeld, SnapHeld, ScanHeld, Transact, Conclude, ReadRetained;
    match stage
    case Entry => ReadRetainedData(c, j);
    case Holding(snap) => TransactData(c, j, DoReconcile(snap), Reconciled, []);
    case Reconciled => TransactData(c, j, DoRetry(seqs), Reconciled, []);
    case _ =>
  }

  // Every stage of every job keeps journal and inbox in agreement, and what it reads stays good.
  lemma JobData(c: Chronicle, j: Journey, job: Job, stage: Stage)
    requires DataSound(c, j) && HeldAt(c, j.state, stage)
    ensures Proceeds(c, StepJob(c.inbox, j, job, stage))
  {
    hide DataSound, HeldAt, StepReady, StepPrepare, StepReserve, StepRetry, Conclude;
    match job
    case JobReady(now) => ReadyData(c, j, now, stage);
    case JobPrepare(now) => PrepareData(c, j, now, stage);
    case JobReserve(now) => ReserveData(c, j, now, stage);
    case JobResolve(outcome, now, _) => TransactData(c, j, DoResolve(outcome, now), Entry, []);
    case JobRetry(seqs) => RetryData(c, j, seqs, stage);
    case JobHealth => TransactData(c, j, DoAcknowledgeHealth, Entry, []);
    case JobConfirm(evidence) =>
      TransactData(c, j, DoConfirm(evidence), Entry, []);
      CheckedHolds(c, j.state);
  }

  lemma CheckedHolds(c: Chronicle, s: State)
    ensures HeldAt(c, s, Checked)
  {}

  /* ----- jobs and the attempt ----- */

  function MembersBy(s: State, op: Op): set<int> {
    match op
    case DoReserve(seqs, _) => Elements(seqs)
    case DoResolve(_, _) => {}
    case DoRecover(_) => {}
    case _ => s.members
  }

  lemma DraftMembers(s: State, op: Op)
    requires ValidAttempt(s) && DraftOf(s, op).Ready?
    ensures DraftOf(s, op).state.members == MembersBy(s, op)
    ensures op.DoReserve? ==> op.seqs != []
  {
    hide Admit, ReserveWork, ResolveWork, RetryWork, ReconcileWork, Elements, Exhaustion, DroppedRows, NewlyUnknown,
         Objections, Frontier, Crossed, CrossedBumps, Judge, OneKind, ReservedRows, Reservable, Retriable;
  }

  lemma CompletedMembers(d: Draft)
    requires Complete(d).Commit?
    ensures d.Ready? && Complete(d).state.members == d.state.members
  {
    hide Valid, Accrue;
  }

  lemma OpMembers(j: Journey, op: Op)
    requires Story(j) && Apply(j.state, op).Commit?
    ensures Step(j, op).state.members == MembersBy(j.state, op)
    ensures op.DoReserve? ==> op.seqs != []
  {
    hide Apply, Observe, Story, DraftOf, Complete;
    StoryValid(j);
    ApplyCompletes(j.state, op);
    CompletedMembers(DraftOf(j.state, op));
    DraftMembers(j.state, op);
  }

  lemma OpTries(j: Journey, op: Op, q: int)
    requires Apply(j.state, op).Commit?
    ensures Tries(Step(j, op).history, q) ==
      match op
      case DoReserve(seqs, _) => Tries(j.history, q) + (if q in seqs then 1 else 0)
      case DoRetry(seqs) => if q in seqs then 0 else Tries(j.history, q)
      case _ => Tries(j.history, q)
  {
    hide Apply, LostBy, OutcomesAfter, Plus, NewlyIgnored, ResolvedAs;
    assert Step(j, op).history.tries == TriesAfter(j.history, op);
    if op.DoReserve? {
      assert q in Elements(op.seqs) <==> q in op.seqs;
    }
  }

  // What a stage of a job may have done to the attempt and to the count of tries.
  predicate Bears(j: Journey, job: Job, stage: Stage, p: Turn) {
    var members, members' := j.state.members, p.journey.state.members;
    match job
    case JobReady(_) => if stage == Entry then p.Go? ==> members' == {} else members' == members
    case JobReserve(_) => if p.End? && p.answer.Finished? && p.answer.rows != [] then members' == Elements(p.answer.rows) else members' == members
    case JobResolve(_, _, _) => if p.End? && p.answer.Finished? then members' == {} else members' == members
    case _ => members' == members
  }

  predicate BearsTries(j: Journey, job: Job, p: Turn, q: int) {
    var before, after := Tries(j.history, q), Tries(p.journey.history, q);
    if job.JobReserve? && p.End? && p.answer.Finished? && q in p.answer.rows then after == before + 1
    else if job.JobRetry? && p.End? && p.answer.Finished? && q in job.seqs then after == 0
    else after == before
  }

  lemma JobBears(i: I.Contents, j: Journey, job: Job, stage: Stage)
    requires Story(j)
    ensures Bears(j, job, stage, StepJob(i, j, job, stage))
    ensures job.JobReady? && stage == Entry ==> StepJob(i, j, job, stage).Go? || StepJob(i, j, job, stage) == End(j, Broke)
    ensures job.JobResolve? || job.JobHealth? ==> StepJob(i, j, job, stage).End?
  {
    hide Story, Apply, Step, RetainedOf, ScanAfter, SeedRecords, Due;
    match job
    case JobReady(now) =>
      if stage == Entry && Apply(j.state, DoRecover(now)).Commit? { OpMembers(j, DoRecover(now)); }
      if stage.Seeding? && Apply(j.state, DoSeed(stage.pointers)).Commit? { OpMembers(j, DoSeed(stage.pointers)); }
    case JobPrepare(now) =>
      if stage.Holding? && Apply(j.state, DoReconcile(stage.snap)).Commit? { OpMembers(j, DoReconcile(stage.snap)); }
      if stage.Scanned? && Apply(j.state, DoIngest(stage.scan)).Commit? { OpMembers(j, DoIngest(stage.scan)); }
    case JobReserve(now) =>
      if stage.Holding? && Apply(j.state, DoReconcile(stage.snap)).Commit? { OpMembers(j, DoReconcile(stage.snap)); }
      if stage.Reconciled? && Apply(j.state, DoReserve(Due(j.state, now, true), now)).Commit? { OpMembers(j, DoReserve(Due(j.state, now, true), now)); }
    case JobResolve(outcome, now, _) =>
      if Apply(j.state, DoResolve(outcome, now)).Commit? { OpMembers(j, DoResolve(outcome, now)); }
    case JobRetry(seqs) =>
      if stage.Holding? && Apply(j.state, DoReconcile(stage.snap)).Commit? { OpMembers(j, DoReconcile(stage.snap)); }
      if stage.Reconciled? && Apply(j.state, DoRetry(seqs)).Commit? { OpMembers(j, DoRetry(seqs)); }
    case JobHealth =>
      if Apply(j.state, DoAcknowledgeHealth).Commit? { OpMembers(j, DoAcknowledgeHealth); }
    case JobConfirm(evidence) =>
      if Apply(j.state, DoConfirm(evidence)).Commit? { OpMembers(j, DoConfirm(evidence)); }
  }

  lemma JobTries(i: I.Contents, j: Journey, job: Job, stage: Stage, q: int)
    ensures BearsTries(j, job, StepJob(i, j, job, stage), q)
  {
    hide Apply, Step, RetainedOf, ScanAfter, SeedRecords, Due, Tries;
    match job
    case JobReady(now) =>
      if stage == Entry && Apply(j.state, DoRecover(now)).Commit? { OpTries(j, DoRecover(now), q); }
      if stage.Seeding? && Apply(j.state, DoSeed(stage.pointers)).Commit? { OpTries(j, DoSeed(stage.pointers), q); }
    case JobPrepare(now) =>
      if stage.Holding? && Apply(j.state, DoReconcile(stage.snap)).Commit? { OpTries(j, DoReconcile(stage.snap), q); }
      if stage.Scanned? && Apply(j.state, DoIngest(stage.scan)).Commit? { OpTries(j, DoIngest(stage.scan), q); }
    case JobReserve(now) =>
      if stage.Holding? && Apply(j.state, DoReconcile(stage.snap)).Commit? { OpTries(j, DoReconcile(stage.snap), q); }
      if stage.Reconciled? && Apply(j.state, DoReserve(Due(j.state, now, true), now)).Commit? { OpTries(j, DoReserve(Due(j.state, now, true), now), q); }
    case JobResolve(outcome, now, _) =>
      if Apply(j.state, DoResolve(outcome, now)).Commit? { OpTries(j, DoResolve(outcome, now), q); }
    case JobRetry(seqs) =>
      if stage.Holding? && Apply(j.state, DoReconcile(stage.snap)).Commit? { OpTries(j, DoReconcile(stage.snap), q); }
      if stage.Reconciled? && Apply(j.state, DoRetry(seqs)).Commit? { OpTries(j, DoRetry(seqs), q); }
    case JobHealth =>
      if Apply(j.state, DoAcknowledgeHealth).Commit? { OpTries(j, DoAcknowledgeHealth, q); }
    case JobConfirm(evidence) =>
      if Apply(j.state, DoConfirm(evidence)).Commit? { OpTries(j, DoConfirm(evidence), q); }
  }

  /* ----- one turn of the worker ----- */

  // Settling an attempt at the head of the queue upsets nobody: nothing behind it counts on one.
  lemma ReadyRuns(p: seq<Ticket>, next: int, l: Loop, members: set<int>)
    requires p != [] && Fits(p, next, l, members) && p[0].job.JobReady?
    ensures Fits(p, next, l, {})
  {
    assert !Plain(p[0].job);
    NoHazardBehind(p, l.unresolved, members, {});
    forall k | 0 <= k < |p| ensures PlaceFits(p, l.unresolved, {}, k) {
      if k > 0 {
        assert PlaceFits(p, l.unresolved, members, k) && p[..k][0] == p[0];
      }
    }
  }

  lemma TurnFits(p: seq<Ticket>, next: int, l: Loop, j: Journey, stage: Stage, turn: Turn, lost: bool)
    requires p != [] && Fits(p, next, l, j.state.members)
    requires Bears(j, p[0].job, stage, turn)
    requires p[0].job.JobReady? && stage != Entry ==> j.state.members == {}
    requires p[0].job.JobReady? && stage == Entry ==> turn.Go? || turn == End(j, Broke)
    requires p[0].job.JobResolve? ==> turn.End?
    ensures turn.Go? ==> Fits(p, next, l, turn.journey.state.members)
    ensures turn.End? ==> Fits(p[1..], next, Hear(l, p[0].id, if lost then Broke else turn.answer), turn.journey.state.members)
  {
    hide Fits, Hear;
    var members, members' := j.state.members, turn.journey.state.members;
    if turn.Go? {
      if p[0].job.JobReady? && stage == Entry {
        ReadyRuns(p, next, l, members);
      }
    } else {
      var answer := if lost then Broke else turn.answer;
      match p[0].job
      case JobReady(_) => EndReady(p, next, l, members, answer);
      case JobReserve(_) => ReserveEnds(p, next, l, members, turn.answer, lost, members');
      case JobResolve(_, _, _) => EndResolve(p, next, l, members, answer, members');
      case _ => EndPlain(p, next, l, members, answer);
    }
  }

  lemma ReserveEnds(p: seq<Ticket>, next: int, l: Loop, members: set<int>, answer: Answer, lost: bool, members': set<int>)
    requires p != [] && Fits(p, next, l, members) && p[0].job.JobReserve?
    requires members' == if answer.Finished? && answer.rows != [] then Elements(answer.rows) else members
    ensures Fits(p[1..], next, Hear(l, p[0].id, if lost then Broke else answer), members')
  {
    assert PlaceFits(p, l.unresolved, members, 0);
    assert answer.Finished? && answer.rows == [] ==> Elements(answer.rows) == {};
    EndReserve(p, next, l, members, if lost then Broke else answer, members');
  }

  lemma WorkFits(w: World, lost: bool)
    requires Story(w.journey) && LoopSound(w) && !w.loop.phase.Down?
    ensures var w' := DoWork(w, lost);
      Fits(Jobs(w'), w'.next, w'.loop, w'.journey.state.members) && StageFits(w'.running, w'.journey.state.members)
  {
    hide Story, StepJob, Hear, Bears;
    var p := Jobs(w);
    match w.running
    case None =>
      if w.queue != [] {
        assert Jobs(DoWork(w, lost)) == p;
      }
    case Some(r) =>
      var turn := StepJob(Mail(w), w.journey, r.ticket.job, r.stage);
      JobBears(Mail(w), w.journey, r.ticket.job, r.stage);
      assert p[0] == r.ticket && p[1..] == w.queue;
      TurnFits(p, w.next, w.loop, w.journey, r.stage, turn, lost);
      hide Fits;
      TurnStage(w.journey, r, turn);
      var w' := DoWork(w, lost);
      assert w'.journey == turn.journey && w'.next == w.next;
      if turn.Go? {
        assert Jobs(w') == p && w'.loop == w.loop;
      } else {
        assert Jobs(w') == p[1..] && w'.loop == Hear(w.loop, p[0].id, if lost then Broke else turn.answer);
      }
  }

  lemma TurnStage(j: Journey, r: Running, turn: Turn)
    requires Bears(j, r.ticket.job, r.stage, turn)
    requires r.ticket.job.JobReady? && r.stage != Entry ==> j.state.members == {}
    ensures turn.Go? && r.ticket.job.JobReady? ==> turn.journey.state.members == {}
  {}

  // Only rows that are not reserved can be retried.
  lemma RetryUnreserved(j: Journey, seqs: seq<int>, q: int)
    requires Story(j) && Apply(j.state, DoRetry(seqs)).Commit? && q in seqs
    ensures q !in j.state.members
  {
    hide Story, Apply, Observe, RetryDraft, Complete, Valid;
    StoryValid(j);
    ApplyCompletes(j.state, DoRetry(seqs));
    CompletedMembers(DraftOf(j.state, DoRetry(seqs)));
    RetriableUnreserved(j.state, seqs, q);
  }

  lemma RetriableUnreserved(s: State, seqs: seq<int>, q: int)
    requires Valid(s) && RetryDraft(s, seqs).Ready? && q in seqs
    ensures q !in s.members
  {
    hide RetryWork, OneKind, Selection;
    assert Retriable(s, q);
    assert q !in ReservedRows(s.work);
  }

  lemma RetryLeavesCall(i: I.Contents, j: Journey, job: Job, stage: Stage, q: int)
    requires Story(j) && job.JobRetry? && q in job.seqs
    requires StepJob(i, j, job, stage).End? && StepJob(i, j, job, stage).answer.Finished?
    ensures q !in j.state.members
  {
    hide Story, Apply, Step, RetainedOf;
    RetryUnreserved(j, job.seqs, q);
  }

  lemma CallsAfterAt(calls: map<int, int>, job: Job, turn: Turn, q: int)
    ensures CallsFor(CallsAfter(calls, job, turn), q) ==
      if job.JobRetry? && turn.End? && turn.answer.Finished? && q in job.seqs then 0 else CallsFor(calls, q)
  {
    assert job.JobRetry? ==> (q in Elements(job.seqs) <==> q in job.seqs);
  }

  lemma WorkSpent(w: World, lost: bool, q: int)
    requires Story(w.journey) && LoopSound(w) && !w.loop.phase.Down?
    ensures Spent(DoWork(w, lost), q)
  {
    hide Story, StepJob, Fits, Bears, CallsAfter, CallsFor, Tries;
    assert Spent(w, q);
    if w.running.Some? {
      var r := w.running.value;
      var turn := StepJob(Mail(w), w.journey, r.ticket.job, r.stage);
      JobTries(Mail(w), w.journey, r.ticket.job, r.stage, q);
      CallsAfterAt(w.calls, r.ticket.job, turn, q);
      if r.ticket.job.JobRetry? && turn.End? && turn.answer.Finished? && q in r.ticket.job.seqs {
        RetryLeavesCall(Mail(w), w.journey, r.ticket.job, r.stage, q);
      }
      RenderingBacked(Jobs(w), w.next, w.loop, w.journey.state.members, q);
      assert Jobs(w)[0] == r.ticket;
      if turn.End? {
        RenderingNew(Jobs(w), w.next, w.loop, w.journey.state.members, if lost then Broke else turn.answer);
      }
    }
  }

  lemma RenderingBacked(p: seq<Ticket>, next: int, l: Loop, members: set<int>, q: int)
    requires Fits(p, next, l, members)
    ensures l.phase.Rendering? && q in l.phase.rows ==> q in members && Quiet(p)
  {
    if l.phase.Rendering? {
      assert q in Elements(l.phase.rows) <==> q in l.phase.rows;
    }
  }

  // The loop starts rendering only the rows of a reservation that just finished.
  lemma RenderingNew(p: seq<Ticket>, next: int, l: Loop, members: set<int>, answer: Answer)
    requires p != [] && Fits(p, next, l, members)
    ensures var l' := Hear(l, p[0].id, answer);
      && (l'.phase.Rendering? ==> l' == l || (p[0].job.JobReserve? && answer.Finished? && l'.phase.rows == answer.rows))
      && (l.phase.Rendering? ==> l' == l)
  {
    if !Deaf(l, p[0].id) {
      Heard(p, next, l, members);
    }
  }

  /* ----- one act ----- */

  lemma IdleFits(p: seq<Ticket>, next: int, l: Loop, members: set<int>)
    requires Fits(p, next, l, members)
    ensures Fits(p, next, l.(phase := Idle), members)
  {}

  lemma JobsPushed(w: World, t: Ticket)
    ensures Jobs(w.(queue := w.queue + [t])) == Jobs(w) + [t]
  {}

  ghost predicate WorldFits(w: World) {
    Fits(Jobs(w), w.next, w.loop, w.journey.state.members) && StageFits(w.running, w.journey.state.members)
  }

  lemma BeginFits(w: World, now: int)
    requires WorldFits(w)
    ensures WorldFits(Do(w, Begin(now)))
  {
    JobsPushed(w, Ticket(w.next, JobReady(now)));
    JobsPushed(w, Ticket(w.next, JobPrepare(now)));
    hide Fits;
    if w.loop.phase.Idle? {
      IdleFits(Jobs(w), w.next, w.loop, w.journey.state.members);
      if !w.loop.started || w.loop.unresolved {
        Pushed(Jobs(w), w.next, w.loop, w.journey.state.members, JobReady(now), AwaitReady(w.next));
      } else {
        Pushed(Jobs(w), w.next, w.loop, w.journey.state.members, JobPrepare(now), AwaitPrepare(w.next));
      }
      assert Jobs(w.(loop := w.loop.(phase := Idle))) == Jobs(w);
    }
  }

  lemma ContinueFits(w: World, now: int)
    requires WorldFits(w)
    ensures WorldFits(Do(w, Continue(now)))
  {
    JobsPushed(w, Ticket(w.next, JobPrepare(now)));
    JobsPushed(w, Ticket(w.next, JobReserve(now)));
    IdleFits(Jobs(w), w.next, w.loop, w.journey.state.members);
    if w.loop.phase.Readied? {
      Pushed(Jobs(w), w.next, w.loop, w.journey.state.members, JobPrepare(now), AwaitPrepare(w.next));
    } else if w.loop.phase.Prepared? {
      QuietPlaced(Jobs(w), true, w.journey.state.members);
      PushedHazard(Jobs(w), w.next, w.loop.(unresolved := true), w.journey.state.members, JobReserve(now), AwaitReserve(w.next));
    }
    assert Jobs(Do(w, Continue(now))) == Jobs(w) || Jobs(Do(w, Continue(now))) == Jobs(w) + [Ticket(w.next, JobPrepare(now))]
      || Jobs(Do(w, Continue(now))) == Jobs(w) + [Ticket(w.next, JobReserve(now))];
  }

  lemma AnsweredFits(w: World, outcome: Outcome, now: int)
    requires WorldFits(w)
    ensures WorldFits(Do(w, Answered(outcome, now)))
  {
    IdleFits(Jobs(w), w.next, w.loop, w.journey.state.members);
    if w.loop.phase.Delivering? {
      var job := JobResolve(outcome, now, w.loop.phase.rows);
      JobsPushed(w, Ticket(w.next, job));
      PushedHazard(Jobs(w), w.next, w.loop, w.journey.state.members, job, AwaitResolve(w.next));
      assert Jobs(Do(w, Answered(outcome, now))) == Jobs(w) || Jobs(Do(w, Answered(outcome, now))) == Jobs(w) + [Ticket(w.next, job)];
    }
  }

  lemma OperateFits(w: World, job: Job)
    requires WorldFits(w)
    ensures WorldFits(Do(w, Operate(job)))
  {
    JobsPushed(w, Ticket(w.next, job));
    if Do(w, Operate(job)) != w {
      Pushed(Jobs(w), w.next, w.loop, w.journey.state.members, job, w.loop.phase);
      hide Fits;
      assert Jobs(Do(w, Operate(job))) == Jobs(w) + [Ticket(w.next, job)];
    }
  }

  lemma FaultFits(w: World)
    requires WorldFits(w)
    ensures WorldFits(Do(w, Fault))
  {
    hide Fits, Hear;
    if w.running.Some? {
      var p, members := Jobs(w), w.journey.state.members;
      assert p[0] == w.running.value.ticket && p[1..] == w.queue;
      match p[0].job {
        case JobReady(_) => EndReady(p, w.next, w.loop, members, Broke);
        case JobReserve(_) => EndReserve(p, w.next, w.loop, members, Broke, members);
        case JobResolve(_, _, _) => EndResolve(p, w.next, w.loop, members, Broke, members);
        case _ => EndPlain(p, w.next, w.loop, members, Broke);
      }
      assert Jobs(Do(w, Fault)) == p[1..];
    }
  }

  lemma PlainFits(w: World, a: Act)
    requires WorldFits(w) && (a.InboxAct? || a.Boot? || a.Crash? || a.Call? || a.Cancel?)
    ensures WorldFits(Do(w, a))
  {
    hide Follow;
    assert a.Crash? || Jobs(Do(w, a)) == Jobs(w);
    if a.Crash? {
      assert Jobs(Do(w, a)) == [];
    }
  }

  lemma DoFits(w: World, a: Act)
    requires Story(w.journey) && LoopSound(w)
    ensures WorldFits(Do(w, a))
  {
    hide Story, Fits, StageFits, Spent;
    match a
    case Begin(now) => BeginFits(w, now);
    case Continue(now) => ContinueFits(w, now);
    case Answered(outcome, now) => AnsweredFits(w, outcome, now);
    case Operate(job) => OperateFits(w, job);
    case Work(lost) =>
      if !w.loop.phase.Down? {
        WorkFits(w, lost);
      }
    case Fault => FaultFits(w);
    case _ => PlainFits(w, a);
  }

  lemma CallSpent(w: World, q: int)
    requires Spent(w, q)
    ensures Spent(DoCall(w), q)
  {
    hide Tries;
    if w.loop.phase.Rendering? {
      assert q in Elements(w.loop.phase.rows) <==> q in w.loop.phase.rows;
    }
  }

  lemma DoSpent(w: World, a: Act, q: int)
    requires Story(w.journey) && LoopSound(w)
    ensures Spent(Do(w, a), q)
  {
    hide Story, Fits, StageFits, Tries, CallsFor, Follow, Hear;
    assert Spent(w, q);
    match a
    case Work(lost) =>
      if !w.loop.phase.Down? {
        WorkSpent(w, lost, q);
      }
    case Call => CallSpent(w, q);
    case Fault =>
      if w.running.Some? {
        BrokenSilent(w.loop, w.running.value.ticket.id);
      }
    case _ =>
  }

  lemma BrokenSilent(l: Loop, id: int)
    ensures Hear(l, id, Broke).phase.Rendering? ==> Hear(l, id, Broke) == l
  {}

  lemma DoData(w: World, a: Act)
    requires Reachable(w)
    ensures DataSound(Do(w, a).chronicle, Do(w, a).journey)
    ensures Held(Do(w, a).chronicle, Do(w, a).journey.state, Do(w, a).running)
  {
    hide DataSound, HeldAt, Held, LoopSound, Follow, Hear, StepJob, CallsAfter;
    match a
    case InboxAct(act) =>
      DataOnward(w.chronicle, act, w.journey);
      HeldOnward(w.chronicle, act, w.journey, w.running);
    case Work(lost) =>
      if !w.loop.phase.Down? {
        WorkData(w, lost);
      }
    case Crash => NoneHeld(w.chronicle, w.journey.state);
    case Fault => NoneHeld(w.chronicle, w.journey.state);
    case _ =>
  }

  lemma NoneHeld(c: Chronicle, s: State)
    ensures Held(c, s, None)
  {}

  lemma HeldIs(c: Chronicle, s: State, r: Running)
    ensures Held(c, s, Some(r)) <==> HeldAt(c, s, r.stage)
  {
    hide SnapHeld, ScanHeld, SeedHeld;
  }

  lemma WorkData(w: World, lost: bool)
    requires DataSound(w.chronicle, w.journey) && Held(w.chronicle, w.journey.state, w.running)
    ensures var w' := DoWork(w, lost);
      && w'.chronicle == w.chronicle
      && DataSound(w'.chronicle, w'.journey) && Held(w'.chronicle, w'.journey.state, w'.running)
  {
    hide DataSound, HeldAt, Held, Hear, StepJob, CallsAfter;
    var s := w.journey.state;
    match w.running
    case None =>
      if w.queue != [] {
        HeldIs(w.chronicle, s, Running(w.queue[0], Entry));
        EntryHeld(w.chronicle, s);
      }
    case Some(r) =>
      HeldIs(w.chronicle, s, r);
      JobData(w.chronicle, w.journey, r.ticket.job, r.stage);
      var turn := StepJob(Mail(w), w.journey, r.ticket.job, r.stage);
      if turn.Go? {
        HeldIs(w.chronicle, turn.journey.state, Running(r.ticket, turn.stage));
      } else {
        NoneHeld(w.chronicle, turn.journey.state);
      }
  }

  lemma EntryHeld(c: Chronicle, s: State)
    ensures HeldAt(c, s, Entry)
  {}

  lemma DataStory(c: Chronicle, j: Journey)
    requires DataSound(c, j)
    ensures Story(j)
  {}

  // Every act leads from a reachable world to a reachable world.
  lemma ActReachable(w: World, a: Act)
    requires Reachable(w)
    ensures Reachable(Do(w, a))
  {
    hide DataSound, Held, Do, WorldFits, Sown;
    DataStory(w.chronicle, w.journey);
    DoData(w, a);
    DoFits(w, a);
    DoSown(w, a);
    forall q ensures Spent(Do(w, a), q) { DoSpent(w, a, q); }
    FittingLoop(Do(w, a));
  }

  lemma FittingLoop(w: World)
    requires WorldFits(w) && forall q {:trigger Spent(w, q)} :: Spent(w, q)
    ensures LoopSound(w)
  {}

  lemma {:induction false} AlwaysReachable(w: World, acts: seq<Act>)
    requires Reachable(w)
    ensures Reachable(Live(w, acts))
    decreases |acts|
  {
    hide Reachable, Do;
    if acts != [] {
      ActReachable(w, acts[0]);
      AlwaysReachable(Do(w, acts[0]), acts[1..]);
    }
  }

  lemma GenesisReachable(target: string, nonce: string, through: int, historyLost: bool)
    requires Hex(target, 64) && Hex(nonce, 32) && 0 <= through <= MAX_SEQUENCE
    ensures Reachable(Genesis(target, nonce, through, historyLost))
  {
    var w := Genesis(target, nonce, through, historyLost);
    hide Story, Kept;
    DawnKept();
    BeginsWell(target, nonce, through, historyLost);
    forall q ensures Traced(w.chronicle, w.journey, q) {}
    assert Jobs(w) == [];
    forall q ensures Spent(w, q) {}
  }
}
