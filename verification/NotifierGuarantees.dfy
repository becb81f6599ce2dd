/** The notifier's guarantees, for every run from a new journal: every interleaving of inbox
    requests, delivery passes, operator jobs, cancellations, failures, crashes and restarts. */
module NotifierGuarantees {
  import opened Common
  import opened JournalModel
  import opened JournalProofs
  import opened JournalRuns
  import opened JournalHistory
  import I = Inbox
  import opened InboxEffects
  import opened InboxHistory
  import opened InboxSource
  import opened SourceProofs
  import opened Notifier
  import opened NotifierData
  import opened NotifierSteps
  import opened NotifierLoop
  import opened NotifierWorld

  datatype Birth = Birth(target: string, nonce: string, through: int, historyLost: bool)

  predicate Sane(b: Birth) {
    Hex(b.target, 64) && Hex(b.nonce, 32) && 0 <= b.through <= MAX_SEQUENCE
  }

  function History(b: Birth, acts: seq<Act>): World {
    Live(Genesis(b.target, b.nonce, b.through, b.historyLost), acts)
  }

  lemma Reached(b: Birth, acts: seq<Act>)
    requires Sane(b)
    ensures Reachable(History(b, acts))
  {
    hide Reachable, Do, Genesis;
    GenesisReachable(b.target, b.nonce, b.through, b.historyLost);
    AlwaysReachable(Genesis(b.target, b.nonce, b.through, b.historyLost), acts);
  }

  /* ----- no silent loss ----- */

  lemma TracedAt(w: World, q: int)
    requires Reachable(w)
    ensures Traced(w.chronicle, w.journey, q) && LogFits(w.chronicle, q)
  {
    hide Story, LoopSound, Held, Traced, LogFits;
    KeptAt(w.chronicle, q);
  }

  lemma ImportedAt(w: World, a: Act)
    ensures Do(w, a).journey.state.imported == w.journey.state.imported
  {
    hide Follow, Hear, CallsAfter, StepJob, Elements, CallsFor;
    if a.Work? && w.running.Some? {
      var r := w.running.value;
      JobImported(Mail(w), w.journey, r.ticket.job, r.stage);
    }
  }

  lemma StepImported(j: Journey, op: Op)
    ensures Step(j, op).state.imported == j.state.imported
  {
    hide Observe, Apply;
    if Apply(j.state, op).Commit? {
      ApplyKeepsIdentity(j.state, op);
    }
  }

  lemma JobImported(i: I.Contents, j: Journey, job: Job, stage: Stage)
    ensures StepJob(i, j, job, stage).journey.state.imported == j.state.imported
  {
    hide Apply, Step, RetainedOf, ScanAfter, SeedRecords, Due;
    match job
    case JobReady(now) =>
      StepImported(j, DoRecover(now));
      if stage.Seeding? { StepImported(j, DoSeed(stage.pointers)); }
    case JobPrepare(now) =>
      if stage.Holding? { StepImported(j, DoReconcile(stage.snap)); }
      if stage.Scanned? { StepImported(j, DoIngest(stage.scan)); }
    case JobReserve(now) =>
      if stage.Holding? { StepImported(j, DoReconcile(stage.snap)); }
      StepImported(j, DoReserve(Due(j.state, now, true), now));
    case JobResolve(outcome, now, _) => StepImported(j, DoResolve(outcome, now));
    case JobRetry(seqs) =>
      if stage.Holding? { StepImported(j, DoReconcile(stage.snap)); }
      StepImported(j, DoRetry(seqs));
    case JobHealth => StepImported(j, DoAcknowledgeHealth);
    case JobConfirm(evidence) => StepImported(j, DoConfirm(evidence));
  }

  lemma {:induction false} ImportedKept(w: World, acts: seq<Act>)
    ensures Live(w, acts).journey.state.imported == w.journey.state.imported
    decreases |acts|
  {
    if acts != [] {
      ImportedAt(w, acts[0]);
      ImportedKept(Do(w, acts[0]), acts[1..]);
    }
  }

  /* ----- what the watermark covers ----- */

  // Act k was the participant acknowledging a position at or past q, when q had been stored.
  ghost predicate Covers(b: Birth, acts: seq<Act>, q: int, k: int)
    requires 0 <= k < |acts|
  {
    && acts[k].InboxAct? && acts[k].act.Acknowledging? && q <= acts[k].act.through
    && q in History(b, acts[..k]).chronicle.log
  }

  ghost predicate Acknowledged(b: Birth, acts: seq<Act>, q: int) {
    exists k {:trigger Covers(b, acts, q, k)} :: 0 <= k < |acts| && Covers(b, acts, q, k)
  }

  lemma {:induction false} LiveOn(w: World, acts: seq<Act>, a: Act)
    ensures Live(w, acts + [a]) == Do(Live(w, acts), a)
    decreases |acts|
  {
    hide Do;
    if acts == [] {
      assert ([] + [a])[1..] == [];
    } else {
      LiveOn(Do(w, acts[0]), acts[1..], a);
      assert (acts + [a])[1..] == acts[1..] + [a];
    }
  }

  lemma AckMoves(w: World, a: Act)
    ensures var i, t := Mail(w), Mail(Do(w, a));
      t.ack == if a.InboxAct? && a.act.Acknowledging? && a.act.through >= 0 then Max(i.ack, Min(a.act.through, i.head)) else i.ack
  {
    hide StepJob, Hear, CallsAfter, CallsFor, Elements;
    if a.InboxAct? {
      AckFollows(w.chronicle, a.act);
      hide Follow;
    }
  }

  lemma AckFollows(c: Chronicle, a: I.Act)
    ensures Follow(c, a).inbox.ack ==
      if a.Acknowledging? && a.through >= 0 then Max(c.inbox.ack, Min(a.through, c.inbox.head)) else c.inbox.ack
  {
    if a.Acknowledging? {
      AcknowledgeEffect(c.inbox, a.through);
    }
    hide Hex, Grown;
  }

  // What the inbox ever stored is what lies within its head.
  lemma LogAt(w: World, q: int)
    requires Reachable(w)
    ensures q in w.chronicle.log <==> 1 <= q <= Mail(w).head
  {
    TracedAt(w, q);
    hide Reachable, Traced, Gone;
  }

  lemma CoversOn(b: Birth, init: seq<Act>, a: Act, q: int, k: int)
    requires 0 <= k < |init|
    ensures Covers(b, init + [a], q, k) == Covers(b, init, q, k)
  {
    assert (init + [a])[..k] == init[..k];
  }

  // The watermark covers a stored row exactly when the participant acknowledged it: at its own
  // position or a later one, and after it was stored.
  lemma {:induction false} WatermarkIsAcknowledged(b: Birth, acts: seq<Act>, q: int)
    requires Sane(b) && q >= 1
    ensures q <= Mail(History(b, acts)).ack <==> Acknowledged(b, acts, q)
    decreases |acts|
  {
    hide Reachable, Do, Covers;
    if acts == [] {
      assert Mail(History(b, [])).ack == 0;
    } else {
      var init, a := acts[..|acts| - 1], acts[|acts| - 1];
      assert acts == init + [a] && acts[..|acts| - 1] == init;
      LiveOn(Genesis(b.target, b.nonce, b.through, b.historyLost), init, a);
      WatermarkIsAcknowledged(b, init, q);
      AckMoves(History(b, init), a);
      Reached(b, init);
      LogAt(History(b, init), q);
      LastCovers(b, acts, q);
      forall k | 0 <= k < |init| ensures Covers(b, acts, q, k) == Covers(b, init, q, k) { CoversOn(b, init, a, q, k); }
      assert Acknowledged(b, acts, q) <==> Acknowledged(b, init, q) || Covers(b, acts, q, |acts| - 1);
    }
  }

  lemma LastCovers(b: Birth, acts: seq<Act>, q: int)
    requires acts != []
    ensures var a := acts[|acts| - 1];
      Covers(b, acts, q, |acts| - 1) <==>
        a.InboxAct? && a.act.Acknowledging? && q <= a.act.through && q in History(b, acts[..|acts| - 1]).chronicle.log
  {}

  /* ----- nothing owed is lost ----- */

  // Every message and memory pointer the inbox ever stored above the imported checkpoint is still
  // in the inbox waiting to be scanned, or in the journal, or delivered, or the participant
  // acknowledged it after it was stored, or - a pointer only - its binding lifetime ended or a
  // newer pointer of that lifetime took its place.
  lemma NoSilentLoss(b: Birth, acts: seq<Act>, q: int)
    requires Sane(b)
    ensures var w := History(b, acts); var c, s := w.chronicle, w.journey.state;
      q in c.log && Noticed(c.log[q]) && q > b.through ==>
        || (q > s.enumerated && q in c.inbox.rows)
        || q in s.work
        || q in w.journey.history.delivered
        || Acknowledged(b, acts, q)
        || (c.log[q].source.Pointer? && Superseded(c.inbox, q, c.log[q].source))
  {
    hide Reachable, Live, Superseded, I.Coherent, Acknowledged;
    Reached(b, acts);
    TracedAt(History(b, acts), q);
    WatermarkIsAcknowledged(b, acts, Max(q, 1));
    ImportedKept(Genesis(b.target, b.nonce, b.through, b.historyLost), acts);
  }

  // A row of the journal is about the inbox row of its sequence, and is closed only for cause:
  // acknowledged under the watermark, obsolete when superseded, delivered by a committed outcome.
  lemma ClosedForCause(b: Birth, acts: seq<Act>, q: int)
    requires Sane(b)
    ensures var w := History(b, acts); var c, s := w.chronicle, w.journey.state;
      q in s.work ==>
        && q in c.log && Noticed(c.log[q]) && s.work[q].source == c.log[q].source
        && (s.work[q].disposition == Disposition.Acknowledged ==> Acknowledged(b, acts, q))
        && (s.work[q].disposition == Obsolete ==>
              Acknowledged(b, acts, q) || (c.log[q].source.Pointer? && Superseded(c.inbox, q, c.log[q].source)))
        && (s.work[q].disposition == Delivered <==> OutcomeDelivered in Outcomes(w.journey.history, q))
        && (s.work[q].disposition == Unknown ==> OutcomeUnknown in Outcomes(w.journey.history, q))
  {
    hide Reachable, Live, Superseded, I.Coherent, Acknowledged;
    Reached(b, acts);
    WatermarkIsAcknowledged(b, acts, Max(q, 1));
    var w := History(b, acts);
    TracedAt(w, q);
    StoryAt(w, q);
  }

  lemma StoryAt(w: World, q: int)
    requires Reachable(w)
    ensures var s, outcomes := w.journey.state, Outcomes(w.journey.history, q);
      q in s.work ==>
        && (s.work[q].disposition == Delivered <==> OutcomeDelivered in outcomes)
        && (s.work[q].disposition == Unknown ==> OutcomeUnknown in outcomes)
        && (q in w.journey.history.delivered ==> s.work[q].disposition == Delivered)
  {
    hide Kept, AllTraced, LoopSound, Held;
    assert RowStory(w.journey.state, w.journey.history, q);
    assert q in w.journey.state.work ==> ValidRow(q, w.journey.state.work[q]);
  }

  /* ----- an honest source is never refused ----- */

  lemma ReconcileAccepted(c: Chronicle, j: Journey, snap: Retained)
    requires DataSound(c, j) && SnapHeld(c, j.state, snap)
    ensures var txn := Apply(j.state, DoReconcile(snap)); txn.Commit? || txn == Refuse(AttemptInProgress)
  {
    hide Judge, Survives, Seal, Sound, ReconcileWork, Kept;
    StoryValid(j);
    ValidSound(j.state);
    hide Story, Valid;
    ReconcileSurvives(j.state, snap);
    SurvivorCommits(ReconcileDraft(j.state, snap));
    forall q ensures q !in Objections(j.state.work, snap) {
      assert Judgeable(c, j.state, snap, q);
      assert Traced(c, j, q);
    }
    assert Objections(j.state.work, snap) == {};
  }

  lemma ValidSound(s: State)
    requires Valid(s)
    ensures Sound(s)
  {}

  lemma RecordsAgree(c: Chronicle, j: Journey, records: seq<Record>)
    requires DataSound(c, j)
    requires forall r {:trigger RecordKnown(c, r)} :: r in records ==> RecordKnown(c, r)
    ensures forall r :: r in records ==> 1 <= r.sequence <= MAX_SEQUENCE
    ensures forall r :: r in records && r.sequence in j.state.work ==> j.state.work[r.sequence].source == r.source
    ensures forall r, r' :: r in records && r' in records && r.sequence == r'.sequence ==> r == r'
  {
    hide Kept, Story, Traced;
    forall r | r in records
      ensures 1 <= r.sequence <= MAX_SEQUENCE
      ensures r.sequence in j.state.work ==> j.state.work[r.sequence].source == r.source
    {
      assert RecordKnown(c, r);
      RecordWellFormed(c, r);
      assert Traced(c, j, r.sequence);
      TracedRow(c, j, r.sequence);
    }
    forall r, r' | r in records && r' in records && r.sequence == r'.sequence ensures r == r' {
      assert RecordKnown(c, r) && RecordKnown(c, r');
    }
  }

  lemma ScanWithin(c: Chronicle, j: Journey, scan: Scan)
    requires DataSound(c, j) && ScanHeld(c, j.state, scan)
    ensures j.state.scan <= scan.through <= MAX_SEQUENCE
    ensures RecordsWithin(scan.records, scan.through) && IgnoredWithin(scan)
  {
    hide Passed, Traced;
    StoryValid(j);
    KeptCoherent(c);
    hide Story, I.RowFits, I.OnePointer;
    forall q | q in scan.ignored ensures 1 <= q <= scan.through {
      KeptAt(c, q);
    }
    forall r | r in scan.records ensures r.sequence !in scan.ignored && r.sequence <= scan.through {
      assert RecordKnown(c, r);
    }
  }

  lemma IngestAccepted(c: Chronicle, j: Journey, scan: Scan)
    requires DataSound(c, j) && ScanHeld(c, j.state, scan)
    ensures var txn := Apply(j.state, DoIngest(scan)); txn.Commit? || txn == Refuse(Capacity)
  {
    hide Survives, Seal, Sound, Kept, Passed, Traced, RecordsWithin, IgnoredWithin, WellFormed;
    ScanWithin(c, j, scan);
    RecordsAgree(c, j, scan.records);
    StoryValid(j);
    ValidSound(j.state);
    hide Story, Valid;
    FittingWellFormed(c, j.state, DoIngest(scan));
    IngestSurvives(j.state, scan);
    SurvivorCommits(IngestDraft(j.state, scan));
    AdmitRefusal(j.state.work, j.state.scan, scan.records, false);
  }

  // Pointers are seeded while the journal is empty, where they always fit.
  lemma SeedAccepted(c: Chronicle, j: Journey, pointers: seq<Record>)
    requires DataSound(c, j) && SeedHeld(c, pointers) && (j.state.seeded || j.state.work == map[])
    ensures Apply(j.state, DoSeed(pointers)).Commit?
  {
    hide Survives, Seal, Sound, Kept, Traced, WellFormed;
    RecordsAgree(c, j, pointers);
    StoryValid(j);
    ValidSound(j.state);
    hide Story, Valid;
    FittingWellFormed(c, j.state, DoSeed(pointers));
    SeedSurvives(j.state, pointers);
    SurvivorCommits(SeedDraft(j.state, pointers));
    AdmitRefusal(j.state.work, j.state.scan, pointers, true);
    if !j.state.seeded {
      AdmitRoom(j.state.work, j.state.scan, pointers, true);
    }
    forall r | r in pointers ensures !r.source.Peer? { assert RecordKnown(c, r); }
  }

  // In every reachable world the source can be read, and whatever snapshot the running job holds,
  // however the inbox moved on since it was taken, the journal never calls it missing or changed:
  // reconciling is refused only while an attempt is open, admitting only for lack of room, and
  // seeding never.
  lemma HonestSourceNeverRefused(b: Birth, acts: seq<Act>)
    requires Sane(b)
    ensures var w := History(b, acts); var j := w.journey;
      && Snapshot(Mail(w), CAPABLE).Ok?
      && RetainedOf(Mail(w), CAPABLE, Keys(j.state.work)).Ok?
      && ScanAfter(Mail(w), CAPABLE, j.state.enumerated).Ok?
      && SeedRecords(Mail(w), CAPABLE).Ok?
      && (w.running.Some? ==>
            match w.running.value.stage
            case Holding(snap) => Apply(j.state, DoReconcile(snap)).Commit? || Apply(j.state, DoReconcile(snap)) == Refuse(AttemptInProgress)
            case Scanned(scan) => Apply(j.state, DoIngest(scan)).Commit? || Apply(j.state, DoIngest(scan)) == Refuse(Capacity)
            case Seeding(pointers) => Apply(j.state, DoSeed(pointers)).Commit?
            case _ => true)
  {
    hide Live, Apply, DataSound, LoopSound, SnapHeld, ScanHeld, SeedHeld, Snapshot, RetainedOf, ScanAfter, SeedRecords;
    Reached(b, acts);
    var w := History(b, acts);
    SoundCoherent(w.chronicle, w.journey);
    SnapshotHonest(Mail(w));
    RetainedHeld(w.chronicle, w.journey);
    ScanReads(w.chronicle, w.journey);
    SeedReads(w.chronicle, w.journey);
    if w.running.Some? {
      match w.running.value.stage
      case Holding(snap) => ReconcileAccepted(w.chronicle, w.journey, snap);
      case Scanned(scan) => IngestAccepted(w.chronicle, w.journey, scan);
      case Seeding(pointers) => SeedAccepted(w.chronicle, w.journey, pointers);
      case _ =>
    }
  }

  lemma SoundCoherent(c: Chronicle, j: Journey)
    requires DataSound(c, j)
    ensures I.Coherent(c.inbox)
  {
    KeptCoherent(c);
  }

  /* ----- provider calls ----- */

  lemma LoopAt(w: World)
    requires Reachable(w)
    ensures Fits(Jobs(w), w.next, w.loop, w.journey.state.members) && Valid(w.journey.state)
  {
    hide Fits, StageFits, Spent, Kept, AllTraced, Held;
  }

  lemma SpentAt(w: World, q: int)
    requires Reachable(w)
    ensures Spent(w, q) && Tries(w.journey.history, q) <= MAX_ATTEMPTS
  {
    hide Fits, StageFits, Kept, AllTraced, Held, Spent;
    assert Spent(w, q);
    assert RowStory(w.journey.state, w.journey.history, q);
  }

  // Whenever a provider call is about to be made or has been made, a committed reservation of
  // exactly its rows stands, none of them was ever delivered, and the call is within the budget
  // of three between operator retries.
  lemma CallsAreBacked(b: Birth, acts: seq<Act>, q: int)
    requires Sane(b)
    ensures var w := History(b, acts); var s, phase := w.journey.state, w.loop.phase;
      phase.Rendering? || phase.Delivering? ==>
        && s.attempt.Some? && s.members == Elements(phase.rows)
        && (q in phase.rows ==>
              && q in s.work && s.work[q].disposition == Reserved
              && q !in w.journey.history.delivered
              && CallsFor(w.calls, q) + (if phase.Rendering? then 1 else 0) <= MAX_ATTEMPTS)
  {
    hide Reachable, Live, ValidRow, Placed, OneKind, Tries;
    Reached(b, acts);
    var w := History(b, acts);
    LoopAt(w);
    SpentAt(w, q);
    StoryAt(w, q);
    assert w.loop.phase.Rendering? || w.loop.phase.Delivering? ==> (q in w.loop.phase.rows <==> q in Elements(w.loop.phase.rows));
    assert q in ReservedRows(w.journey.state.work) ==> w.journey.state.work[q].disposition == Reserved;
  }

  // However often the loop is cancelled, jobs fail or the process dies, no sequence is handed to
  // the provider more than three times between operator retries.
  lemma CallBudget(b: Birth, acts: seq<Act>, q: int)
    requires Sane(b)
    ensures CallsFor(History(b, acts).calls, q) <= MAX_ATTEMPTS
  {
    hide Reachable, Live;
    Reached(b, acts);
    SpentAt(History(b, acts), q);
  }

  // The answer of a provider call, even one whose caller was cancelled, is recorded against the
  // rows of that very call; and a queued reservation will find no attempt open.
  lemma AnswersAreAttributed(b: Birth, acts: seq<Act>, k: int)
    requires Sane(b) && 0 <= k < |Jobs(History(b, acts))|
    ensures var w := History(b, acts); var job := Jobs(w)[k].job;
      && (job.JobResolve? ==> w.journey.state.attempt.Some? && w.journey.state.members == Elements(job.call))
      && (job.JobReserve? ==> w.journey.state.attempt.None?)
  {
    hide Reachable, Live, ValidRow, OneKind, PhaseFits;
    Reached(b, acts);
    var w := History(b, acts);
    LoopAt(w);
    assert PlaceFits(Jobs(w), w.loop.unresolved, w.journey.state.members, k);
  }

  // A loop that has settled what it found and has nothing unresolved leaves no attempt open.
  lemma CleanLoopHasNoAttempt(b: Birth, acts: seq<Act>)
    requires Sane(b)
    ensures var w := History(b, acts);
      w.loop.started && !w.loop.unresolved ==> w.journey.state.attempt.None? && Quiet(Jobs(w))
  {
    hide Reachable, Live, ValidRow, OneKind, PhaseFits, Placed;
    Reached(b, acts);
    LoopAt(History(b, acts));
  }
}
