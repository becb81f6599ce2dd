/** The notifier's state as its worker owns it: each job reads the inbox and changes the journal,
    one transaction after another. `JobsAsMethods` below says that these are exactly the jobs the
    whole-system model interleaves with everything else. */
module NotificationStore {
  import opened Common
  import opened JournalModel
  import opened JournalRuns
  import opened JournalStore
  import I = Inbox
  import opened InboxSource
  import opened JournalEffects
  import opened NotificationEffects
  import opened NotificationModel
  import opened Notifier
  import opened SourceEffects
  import opened SourceProofs

  lemma CommitsAreValid(s: State, d: Draft)
    requires Valid(s)
    ensures Valid(ReportOf(s, Complete(d)).state)
  {}

  class NotificationState {
    const caps: Capabilities
    const journal: Journal

    constructor (journal: Journal, caps: Capabilities)
      ensures this.journal == journal && this.caps == caps
    {
      this.journal, this.caps := journal, caps;
    }

    method DoReconcile(i: I.Contents) returns (failure: Option<Failure>)
      requires Valid(journal.Contents())
      modifies journal
      ensures var r := ReconcileFrom(old(journal.Contents()), i, caps);
        failure == r.failure && journal.Contents() == r.state && Valid(r.state)
      ensures failure.None? && I.Coherent(i) ==> AllUpheld(journal.Contents(), i, caps)
    {
      hide Valid, RetainedOf, ReconcileDraft, Complete, I.Coherent, Upheld;
      ghost var s := journal.Contents();
      ValidBasics(s);
      ReconcileUpheld(s, i, caps);
      var snap := TakeRetained(i, caps, Keys(journal.work));
      match snap
      case Err(e) => failure := Some(SourceFailed(e));
      case Ok(retained) =>
        CommitsAreValid(s, ReconcileDraft(s, retained));
        var error := journal.Reconcile(retained);
        failure := if error.Some? then Some(JournalFailed(error.value)) else None;
    }

    // Recovery of an open attempt, then seeding, each a transaction of its own.
    method DoReady(now: int, i: I.Contents) returns (failure: Option<Failure>)
      requires Valid(journal.Contents())
      modifies journal
      ensures var r := ReadyFrom(old(journal.Contents()), i, now, caps);
        failure == r.failure && journal.Contents() == r.state && Valid(r.state)
      ensures failure.None? && I.Coherent(i) ==> journal.attempt.None? && journal.seeded
    {
      hide Valid, SeedRecords, SeedDraft, ResolveDraft, Complete, SeedFrom, I.Coherent;
      ghost var s := journal.Contents();
      if I.Coherent(i) && ReadyFrom(s, i, now, caps).failure.None? {
        ReadySeeds(s, i, now, caps);
      }
      ValidBasics(s);
      CommitsAreValid(s, ResolveDraft(s, OutcomeUnknown, now));
      var error, _ := journal.RecoverAttempt(now);
      if error.Some? {
        return Some(JournalFailed(error.value));
      }
      failure := DoSeed(i);
    }

    method DoSeed(i: I.Contents) returns (failure: Option<Failure>)
      requires Valid(journal.Contents())
      modifies journal
      ensures var r := SeedFrom(old(journal.Contents()), i, caps);
        failure == r.failure && journal.Contents() == r.state && Valid(r.state)
    {
      hide Valid, SeedRecords, SeedDraft, Complete;
      if journal.seeded {
        return None;
      }
      ghost var s := journal.Contents();
      ValidBasics(s);
      var pointers := [];
      if caps.pointers {
        var read := TakeSeed(i, caps);
        if read.Err? {
          return Some(SourceFailed(read.error));
        }
        pointers := read.value;
      }
      CommitsAreValid(s, SeedDraft(s, pointers));
      var error, _ := journal.SeedPointers(pointers);
      failure := if error.Some? then Some(JournalFailed(error.value)) else None;
    }

    method DoAdmit(i: I.Contents) returns (failure: Option<Failure>, admission: Option<JournalError>)
      requires Valid(journal.Contents())
      modifies journal
      ensures var r := AdmitFrom(old(journal.Contents()), i, caps);
        failure == r.failure && journal.Contents() == r.state && Valid(r.state)
      ensures admission.Some? ==> failure.None? && admission == Some(Capacity) && journal.Contents() == old(journal.Contents())
      ensures failure.None? && admission.None? && I.Coherent(i) ==>
        Reaches(old(journal.enumerated), old(journal.work).Keys, journal.Contents(), i, caps)
    {
      hide Valid, ScanAfter, IngestDraft, Complete, I.Coherent, Reaches;
      ghost var s := journal.Contents();
      ValidBasics(s);
      if I.Coherent(i) {
        IngestReaches(s, i, caps);
      }
      admission := None;
      var scan := TakeScan(i, caps, journal.enumerated);
      match scan
      case Err(e) => failure := Some(SourceFailed(e));
      case Ok(found) =>
        CommitsAreValid(s, IngestDraft(s, found));
        var error := journal.Ingest(found);
        if error == Some(Capacity) {
          admission, failure := error, None;
        } else {
          failure := if error.Some? then Some(JournalFailed(error.value)) else None;
        }
    }

    method DoPrepare(now: int, first: I.Contents, second: I.Contents)
      returns (failure: Option<Failure>, admission: Option<JournalError>, sequences: seq<int>)
      requires Valid(journal.Contents())
      modifies journal
      ensures var r := PrepareFrom(old(journal.Contents()), first, second, now, caps);
        failure == r.failure && journal.Contents() == r.state && Valid(r.state) && sequences == r.rows
      ensures failure.None? && admission.None? && I.Coherent(second) ==>
        Reaches(old(journal.enumerated), old(journal.work).Keys, journal.Contents(), second, caps)
      ensures admission.Some? ==> admission == Some(Capacity)
      ensures failure.None? ==> sequences == Due(journal.Contents(), now, caps.pointers)
    {
      hide Valid, ReconcileFrom, AdmitFrom, Due, I.Coherent, Reaches, AllUpheld;
      admission, sequences := None, [];
      ghost var s := journal.Contents();
      failure := DoReconcile(first);
      ReportsPlain(s, first, caps);
      ghost var t := journal.Contents();
      if failure.None? {
        ReconcileMeta(s, first, caps);
        ReconcileKeys(s, first, caps);
        failure, admission := DoAdmit(second);
        ReportsPlain(t, second, caps);
        if failure.None? && admission.None? && I.Coherent(second) {
          ReachesMore(t.enumerated, t.work.Keys, s.work.Keys, journal.Contents(), second, caps);
        }
        if failure.None? {
          var error;
          error, sequences := journal.DueNow(now, caps.pointers);
          failure := if error.Some? then Some(JournalFailed(error.value)) else None;
        }
      }
    }

    // Reads the inbox anew: rows released since preparing are reconciled away first.
    method DoReserveNext(now: int, i: I.Contents) returns (failure: Option<Failure>, rows: seq<int>)
      requires Valid(journal.Contents())
      modifies journal
      ensures var r := ReserveFrom(old(journal.Contents()), i, now, caps);
        failure == r.failure && journal.Contents() == r.state && Valid(r.state) && (failure.None? ==> rows == r.rows)
      ensures failure.None? && I.Coherent(i) ==>
        NextGroup(journal.Contents(), rows, now, caps.pointers) && AllUpheld(journal.Contents(), i, caps)
    {
      hide Valid, ReconcileFrom, Due, ReserveDraft, Complete, I.Coherent, AllUpheld, NextGroup;
      rows := [];
      ghost var s := journal.Contents();
      if I.Coherent(i) && ReserveFrom(s, i, now, caps).failure.None? {
        ReserveTakesNext(s, i, now, caps);
        ReserveUpheld(s, i, now, caps);
      }
      failure := DoReconcile(i);
      ReportsPlain(s, i, caps);
      if failure.None? {
        ghost var t := journal.Contents();
        var error, due := journal.DueNow(now, caps.pointers);
        if error.Some? {
          return Some(JournalFailed(error.value)), [];
        }
        if due != [] {
          ValidBasics(t);
          CommitsAreValid(t, ReserveDraft(t, due, now));
          error := journal.Reserve(due, now);
          rows := due;
          failure := if error.Some? then Some(JournalFailed(error.value)) else None;
        }
      }
    }

    method DoConfirm(evidence: Evidence, i: I.Contents) returns (failure: Option<Failure>)
      requires Valid(journal.Contents())
      modifies journal
      ensures var r := ConfirmFrom(old(journal.Contents()), i, evidence, caps);
        failure == r.failure && journal.Contents() == r.state && Valid(r.state)
      ensures failure.None? ==> journal.activated && i.activation == Some(Evidence(journal.target, journal.nonce))
    {
      hide Valid, Snapshot, ConfirmDraft, Complete;
      ghost var s := journal.Contents();
      ValidBasics(s);
      ConfirmReads(s, i, evidence, caps);
      var view := TakeSnapshot(i, caps);
      if view.Err? {
        return Some(SourceFailed(view.error));
      }
      if view.value.activation != Some(evidence) {
        return Some(JournalFailed(ActivationMismatch));
      }
      CommitsAreValid(s, ConfirmDraft(s, evidence));
      var error := journal.ConfirmActivation(evidence);
      failure := if error.Some? then Some(JournalFailed(error.value)) else None;
    }

    // An explicit retry never revives a row the inbox has already released.
    method DoRetry(seqs: seq<int>, i: I.Contents) returns (failure: Option<Failure>)
      requires Valid(journal.Contents())
      modifies journal
      ensures var r := RetryFrom(old(journal.Contents()), i, seqs, caps);
        failure == r.failure && journal.Contents() == r.state && Valid(r.state)
      ensures failure.None? && I.Coherent(i) ==>
        && AllUpheld(journal.Contents(), i, caps)
        && forall q :: q in seqs ==> q in journal.work && journal.work[q].disposition == Pending && journal.work[q].attempts == 0
    {
      hide Valid, ReconcileFrom, RetryDraft, Complete, I.Coherent, AllUpheld;
      if I.Coherent(i) && RetryFrom(journal.Contents(), i, seqs, caps).failure.None? {
        RetryRevives(journal.Contents(), i, seqs, caps);
      }
      failure := DoReconcile(i);
      if failure.None? {
        ghost var t := journal.Contents();
        ValidBasics(t);
        CommitsAreValid(t, RetryDraft(t, seqs));
        var error := journal.Retry(seqs);
        failure := if error.Some? then Some(JournalFailed(error.value)) else None;
      }
    }
  }

  // The source's activation is what counts, not that the request was answered.
  lemma ConfirmReads(s: State, i: I.Contents, evidence: Evidence, caps: Capabilities)
    requires Valid(s)
    ensures var r := ConfirmFrom(s, i, evidence, caps);
      && (r.failure.None? <==>
            && Snapshot(i, caps).Ok? && caps.acknowledgements
            && i.activation == Some(evidence) && evidence == Evidence(s.target, s.nonce))
      && r.state == (if r.failure.None? then s.(activated := true) else s)
  {
    hide Valid, Confirm;
    ConfirmEffect(s, evidence);
    if Snapshot(i, caps).Ok? {
      SnapshotShows(i, caps);
    }
    hide Snapshot;
  }

  lemma ValidBasics(s: State)
    requires Valid(s)
    ensures Bounded(s.counters) && s.scan <= s.enumerated
  {}

  lemma ReportsPlain(s: State, i: I.Contents, caps: Capabilities)
    ensures ReconcileFrom(s, i, caps).rows == [] && AdmitFrom(s, i, caps).rows == []
  {}

  /* ----- the jobs of the whole system ----- */

  // Run a job to its end with nothing in between: `first` is the inbox at its first read and
  // `second` at every later one.
  function RunJob(first: I.Contents, second: I.Contents, j: Journey, job: Job, stage: Stage, fuel: nat): Turn
    decreases fuel
  {
    var turn := StepJob(if stage == Entry then first else second, j, job, stage);
    if fuel == 0 || turn.End? then turn else RunJob(first, second, turn.journey, job, turn.stage, fuel - 1)
  }

  predicate Agrees(turn: Turn, r: Report) {
    && turn.End? && turn.journey.state == r.state
    && turn.answer == (if r.failure.Some? then Broke else Finished(r.rows))
  }

  lemma StepSettles(j: Journey, op: Op)
    ensures Step(j, op).state == ReportOf(j.state, Apply(j.state, op)).state
    ensures Apply(j.state, op).Commit? <==> ReportOf(j.state, Apply(j.state, op)).failure.None?
  {
    hide Apply, Observe;
  }

  lemma ReadyAgrees(i: I.Contents, j: Journey, now: int)
    ensures Agrees(RunJob(i, i, j, JobReady(now), Entry, 2), ReadyFrom(j.state, i, now, CAPABLE))
  {
    hide Step, SeedRecords, Seed, Recover;
    StepSettles(j, DoRecover(now));
    var k := Step(j, DoRecover(now));
    if SeedRecords(i, CAPABLE).Ok? {
      StepSettles(k, DoSeed(SeedRecords(i, CAPABLE).value));
    }
  }

  lemma PrepareAgrees(first: I.Contents, second: I.Contents, j: Journey, now: int)
    ensures Agrees(RunJob(first, second, j, JobPrepare(now), Entry, 4), PrepareFrom(j.state, first, second, now, CAPABLE))
  {
    hide Step, RetainedOf, AdmitFrom, Reconcile, Ingest, Due, Clock, DueFrom;
    if RetainedOf(first, CAPABLE, Keys(j.state.work)).Ok? {
      var op := DoReconcile(RetainedOf(first, CAPABLE, Keys(j.state.work)).value);
      StepSettles(j, op);
      if Apply(j.state, op).Commit? {
        AdmitAgrees(first, second, Step(j, op), now);
      }
    }
  }

  // The second half of preparing, from a reconciled journal.
  lemma AdmitAgrees(first: I.Contents, second: I.Contents, j: Journey, now: int)
    ensures var admitted := AdmitFrom(j.state, second, CAPABLE);
      Agrees(RunJob(first, second, j, JobPrepare(now), Reconciled, 2),
             if admitted.failure.Some? then admitted else DueFrom(admitted.state, now, CAPABLE))
  {
    hide Step, ScanAfter, Ingest, Due, Clock;
    if ScanAfter(second, CAPABLE, j.state.enumerated).Ok? {
      StepSettles(j, DoIngest(ScanAfter(second, CAPABLE, j.state.enumerated).value));
    }
  }

  lemma ReserveAgrees(i: I.Contents, second: I.Contents, j: Journey, now: int)
    ensures Agrees(RunJob(i, second, j, JobReserve(now), Entry, 2), ReserveFrom(j.state, i, now, CAPABLE))
  {
    hide Step, RetainedOf, Reconcile, Reserve, Due, Clock;
    if RetainedOf(i, CAPABLE, Keys(j.state.work)).Ok? {
      var op := DoReconcile(RetainedOf(i, CAPABLE, Keys(j.state.work)).value);
      StepSettles(j, op);
      var k := Step(j, op);
      StepSettles(k, DoReserve(Due(k.state, now, true), now));
    }
  }

  lemma ConfirmAgrees(i: I.Contents, j: Journey, evidence: Evidence)
    requires I.Coherent(i)
    ensures Agrees(RunJob(i, i, j, JobConfirm(evidence), Entry, 1), ConfirmFrom(j.state, i, evidence, CAPABLE))
  {
    hide Step, Snapshot, Confirm, I.Coherent;
    SnapshotHonest(i);
    SnapshotShows(i, CAPABLE);
    StepSettles(j, DoConfirm(evidence));
  }

  lemma RetryAgrees(i: I.Contents, second: I.Contents, j: Journey, seqs: seq<int>)
    ensures Agrees(RunJob(i, second, j, JobRetry(seqs), Entry, 2), RetryFrom(j.state, i, seqs, CAPABLE))
  {
    hide Step, RetainedOf, Reconcile, Retry;
    if RetainedOf(i, CAPABLE, Keys(j.state.work)).Ok? {
      var op := DoReconcile(RetainedOf(i, CAPABLE, Keys(j.state.work)).value);
      StepSettles(j, op);
      StepSettles(Step(j, op), DoRetry(seqs));
    }
  }

  // Each method, run by the worker without interruption, is the job of the whole-system model.
  lemma JobsAsMethods(first: I.Contents, second: I.Contents, j: Journey, now: int, seqs: seq<int>, evidence: Evidence)
    requires I.Coherent(first)
    ensures Agrees(RunJob(first, first, j, JobReady(now), Entry, 2), ReadyFrom(j.state, first, now, CAPABLE))
    ensures Agrees(RunJob(first, second, j, JobPrepare(now), Entry, 4), PrepareFrom(j.state, first, second, now, CAPABLE))
    ensures Agrees(RunJob(first, second, j, JobReserve(now), Entry, 2), ReserveFrom(j.state, first, now, CAPABLE))
    ensures Agrees(RunJob(first, second, j, JobRetry(seqs), Entry, 2), RetryFrom(j.state, first, seqs, CAPABLE))
    ensures Agrees(RunJob(first, first, j, JobConfirm(evidence), Entry, 1), ConfirmFrom(j.state, first, evidence, CAPABLE))
  {
    hide ConfirmFrom, I.Coherent, RunJob, Agrees, ReadyFrom, PrepareFrom, ReserveFrom, RetryFrom;
    ReadyAgrees(first, j, now);
    PrepareAgrees(first, second, j, now);
    ReserveAgrees(first, second, j, now);
    RetryAgrees(first, second, j, seqs);
    ConfirmAgrees(first, j, evidence);
  }
}
