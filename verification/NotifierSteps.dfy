/** Each journal transaction the notifier makes keeps journal and inbox in agreement, and the
    snapshots it holds are never refused for contradicting the journal. */
module NotifierSteps {
  import opened Common
  import opened JournalModel
  import opened JournalProofs
  import opened JournalRuns
  import opened JournalHistory
  import I = Inbox
  import opened InboxHistory
  import opened NotifierData

  // The snapshot a transaction consumes was read from this inbox.
  ghost predicate OpFits(c: Chronicle, s: State, op: Op) {
    match op
    case DoIngest(scan) => ScanHeld(c, s, scan)
    case DoReconcile(snap) => SnapHeld(c, s, snap)
    case DoSeed(pointers) => SeedHeld(c, pointers)
    case _ => true
  }

  lemma RecordWellFormed(c: Chronicle, r: Record)
    requires Kept(c) && RecordKnown(c, r)
    ensures WellFormed(r.source) && 1 <= r.sequence <= MAX_SEQUENCE
  {
    KeptAt(c, r.sequence);
    hide I.RowFits, I.OnePointer, I.BindingFits;
  }

  lemma FittingWellFormed(c: Chronicle, s: State, op: Op)
    requires Kept(c) && OpFits(c, s, op)
    ensures WellFormedOp(op)
  {
    hide Kept, Passed, Judgeable, WellFormed;
    if op.DoIngest? {
      forall r | r in op.scan.records ensures WellFormed(r.source) {
        assert RecordKnown(c, r);
        RecordWellFormed(c, r);
      }
    } else if op.DoSeed? {
      forall r | r in op.records ensures WellFormed(r.source) {
        assert RecordKnown(c, r);
        RecordWellFormed(c, r);
      }
    }
  }

  /* ----- what a commit admits, delivers and enumerates ----- */

  lemma NewRow(s: State, op: Op, q: int)
    requires Valid(s) && Apply(s, op).Commit?
    requires q !in s.work && q in Apply(s, op).state.work
    ensures op.DoIngest? || op.DoSeed?
    ensures Record(q, Apply(s, op).state.work[q].source) in (if op.DoIngest? then op.scan.records else op.records)
  {
    ApplyCompletes(s, op);
    hide Apply;
    match op
    case DoIngest(scan) =>
      AdmitRow(s.work, s.scan, scan.records, false, q);
      AdvanceRow(s.(work := Admit(s.work, s.scan, scan.records, false).work), Some(scan.through), q);
    case DoSeed(records) =>
      if !s.seeded {
        AdmitRow(s.work, s.scan, records, true, q);
      }
    case DoResolve(outcome, now) =>
      ResolveAddsNothing(s, outcome, now, q);
    case DoRecover(now) =>
      if s.attempt.Some? {
        ResolveAddsNothing(s, OutcomeUnknown, now, q);
      }
    case DoReconcile(snap) =>
      AdvanceRow(s.(work := ReconcileWork(s.work, snap)), None, q);
    case _ =>
  }

  lemma ResolveAddsNothing(s: State, outcome: Outcome, now: int, q: int)
    requires Valid(s) && q !in s.work && ResolveDraft(s, outcome, now).Ready?
    ensures q !in ResolveDraft(s, outcome, now).state.work
  {
    AdvanceRow(s.(work := ResolveWork(s.work, s.members, outcome, now), attempt := None, members := {}), None, q);
  }

  lemma EnumeratedBy(s: State, op: Op)
    requires Valid(s) && Apply(s, op).Commit?
    ensures Apply(s, op).state.enumerated == if op.DoIngest? then Max(s.enumerated, op.scan.through) else s.enumerated
  {
    ApplyCompletes(s, op);
    hide Apply;
  }

  // A scanned record above the frontier is in work afterwards, unless it was there already and
  // is now retired.
  lemma RecordAdmitted(s: State, scan: Scan, r: Record)
    requires Valid(s) && Apply(s, DoIngest(scan)).Commit?
    requires r in scan.records && s.scan < r.sequence
    ensures r.sequence in Apply(s, DoIngest(scan)).state.work || (r.sequence in s.work && Settled(s.work[r.sequence]))
  {
    var q := r.sequence;
    AdmitEffect(s.work, s.scan, scan.records, false);
    AdmitRow(s.work, s.scan, scan.records, false, q);
    AdvanceRow(s.(work := Admit(s.work, s.scan, scan.records, false).work), Some(scan.through), q);
  }

  lemma DeliveredGrows(j: Journey, op: Op, q: int)
    requires Apply(j.state, op).Commit?
    ensures var d := Step(j, op).history.delivered;
      && (q in j.history.delivered ==> q in d)
      && (ResolvedAs(j.state, op) == Some(OutcomeDelivered) && q in j.state.members ==> q in d)
  {
    hide Apply, LostBy, TriesAfter, OutcomesAfter, Plus, NewlyIgnored;
  }

  /* ----- tracing ----- */

  lemma RowAfterKeeps(s: State, op: Op, q: int)
    requires q in s.work
    ensures var r, r' := s.work[q], RowAfter(s, op, q);
      && r'.source == r.source
      && (r'.disposition == Acknowledged && r.disposition != Acknowledged ==>
            op.DoReconcile? && Judge(q, r, op.snap) == Close(Acknowledged))
      && (r'.disposition == Obsolete && r.disposition != Obsolete ==>
            op.DoReconcile? && Judge(q, r, op.snap) == Close(Obsolete))
      && (r'.disposition == Delivered && r.disposition != Delivered ==>
            (ResolvedAs(s, op) == Some(OutcomeDelivered) && q in s.members)
            || (op.DoReconcile? && Judge(q, r, op.snap) == Close(Delivered)))
  {
    hide Judge;
  }

  lemma RowTracedStep(c: Chronicle, j: Journey, op: Op, q: int)
    requires Kept(c) && Story(j) && WellFormedOp(op) && Apply(j.state, op).Commit? && OpFits(c, j.state, op)
    requires RowTraced(c, j.state, q)
    ensures RowTraced(c, Step(j, op).state, q)
  {
    hide Kept, Story, Apply, Judge;
    var s, t := j.state, Step(j, op).state;
    CommitMoves(j, op, q);
    if q in t.work {
      if q in s.work {
        RowAfterKeeps(s, op, q);
        if op.DoReconcile? {
          assert Judgeable(c, s, op.snap, q);
        }
        hide RowAfter, OpFits;
      } else {
        StoryValid(j);
        NewRow(s, op, q);
        assert RecordKnown(c, Record(q, t.work[q].source));
      }
    }
  }

  // A row that leaves the journal was delivered, or is no longer owed.
  lemma LeavesSettled(c: Chronicle, j: Journey, op: Op, q: int)
    requires Story(j) && WellFormedOp(op) && Apply(j.state, op).Commit? && OpFits(c, j.state, op)
    requires RowTraced(c, j.state, q)
    requires q in j.state.work && q !in Step(j, op).state.work
    ensures q in Step(j, op).history.delivered || Released(c.inbox, q, c.log[q])
  {
    hide Apply, Judge, Step;
    var s := j.state;
    CommitMoves(j, op, q);
    RowAfterKeeps(s, op, q);
    DeliveredGrows(j, op, q);
    DeliveredKnown(j, q);
    hide Story;
    if op.DoReconcile? {
      assert Judgeable(c, s, op.snap, q);
      NotLost(s, op, q);
    }
    hide OpFits, RowAfter, LostBy;
  }

  lemma NotLost(s: State, op: Op, q: int)
    requires op.DoReconcile? && q in s.work && !Judge(q, s.work[q], op.snap).Lost?
    ensures q !in LostBy(s, op)
  {
    hide Judge;
  }

  lemma DeliveredKnown(j: Journey, q: int)
    requires Story(j)
    ensures q in j.state.work && j.state.work[q].disposition == Delivered ==> q in j.history.delivered
  {
    assert RowStory(j.state, j.history, q);
    hide AllStories;
  }

  lemma CoveredStep(c: Chronicle, j: Journey, op: Op, q: int)
    requires Kept(c) && Story(j) && WellFormedOp(op) && Apply(j.state, op).Commit? && OpFits(c, j.state, op)
    requires Traced(c, j, q)
    ensures Covered(c, Step(j, op).state, Step(j, op).history.delivered, q)
  {
    hide Kept, Judge, Step, Apply;
    var s, t := j.state, Step(j, op).state;
    CommitMoves(j, op, q);
    StoryValid(j);
    EnumeratedStep(j, op);
    DeliveredGrows(j, op, q);
    if q in s.work && q !in t.work {
      LeavesSettled(c, j, op, q);
    }
    if q in c.log && Noticed(c.log[q]) && s.enumerated < q <= t.enumerated {
      assert Passed(c, s.enumerated, op.scan, q);
      if !Released(c.inbox, q, c.log[q]) {
        ScannedStep(j, op.scan, Record(q, c.log[q].source));
      }
    }
    hide Story, OpFits;
  }

  lemma EnumeratedStep(j: Journey, op: Op)
    requires Valid(j.state) && Apply(j.state, op).Commit?
    ensures Step(j, op).state.enumerated == if op.DoIngest? then Max(j.state.enumerated, op.scan.through) else j.state.enumerated
  {
    EnumeratedBy(j.state, op);
    hide Apply;
  }

  lemma ScannedStep(j: Journey, scan: Scan, r: Record)
    requires Valid(j.state) && Apply(j.state, DoIngest(scan)).Commit?
    requires r in scan.records && j.state.scan < r.sequence
    ensures r.sequence in Step(j, DoIngest(scan)).state.work || r.sequence in j.state.work
  {
    RecordAdmitted(j.state, scan, r);
    hide Apply;
  }

  lemma NothingLostStep(c: Chronicle, j: Journey, op: Op)
    requires OpFits(c, j.state, op) && Apply(j.state, op).Commit?
    requires forall q :: q in j.state.work ==> q in c.log
    ensures Step(j, op).history.lost == j.history.lost
  {
    hide Apply, Judge, TriesAfter, OutcomesAfter, Plus, NewlyIgnored, ResolvedAs;
    if op.DoReconcile? {
      forall q ensures q !in LostBy(j.state, op) {
        assert Judgeable(c, j.state, op.snap, q);
      }
      assert LostBy(j.state, op) == {};
    }
  }

  // Every transaction on a snapshot of this inbox keeps journal and inbox in agreement.
  lemma DataStep(c: Chronicle, j: Journey, op: Op)
    requires DataSound(c, j) && OpFits(c, j.state, op)
    ensures DataSound(c, Step(j, op))
  {
    hide Kept, Story, Apply, OpFits, Traced, Step;
    FittingWellFormed(c, j.state, op);
    StoryStep(j, op);
    StoryValid(j);
    if Apply(j.state, op).Commit? {
      CommitMoves(j, op, 0);
      EnumeratedStep(j, op);
      ReachKept(c, j.state, op);
      forall q | q in j.state.work ensures q in c.log {
        assert Traced(c, j, q);
        TracedRow(c, j, q);
      }
      NothingLostStep(c, j, op);
      forall q ensures Traced(c, Step(j, op), q) {
        assert Traced(c, j, q);
        TracedRow(c, j, q);
        RowTracedStep(c, j, op, q);
        CoveredStep(c, j, op, q);
        BothTraced(c, Step(j, op), q);
      }
    } else {
      RefusedStep(j, op);
    }
  }

  lemma BothTraced(c: Chronicle, j: Journey, q: int)
    requires RowTraced(c, j.state, q) && Covered(c, j.state, j.history.delivered, q)
    ensures Traced(c, j, q)
  {}

  lemma RefusedStep(j: Journey, op: Op)
    requires !Apply(j.state, op).Commit?
    ensures Step(j, op) == j
  {}

  lemma ReachKept(c: Chronicle, s: State, op: Op)
    requires OpFits(c, s, op) && s.enumerated <= Max(s.imported, c.inbox.head)
    ensures op.DoIngest? ==> Max(s.enumerated, op.scan.through) <= Max(s.imported, c.inbox.head)
  {
    hide Passed, RecordKnown;
  }
}
