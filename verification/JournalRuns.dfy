/** Whole runs of the journal, over every sequence of transactions and every snapshot an
    (even dishonest) source could hand it, with a ghost history of what was admitted,
    reserved, resolved and counted. */
module JournalRuns {
  import opened Common
  import opened JournalModel
  import opened JournalProofs

  datatype Op =
    | DoIngest(scan: Scan)
    | DoSeed(records: seq<Record>)
    | DoReserve(seqs: seq<int>, now: int)
    | DoResolve(outcome: Outcome, now: int)
    | DoRecover(now: int)
    | DoRetry(seqs: seq<int>)
    | DoReconcile(snap: Retained)
    | DoConfirm(evidence: Evidence)
    | DoAcknowledgeHealth

  function Apply(s: State, op: Op): Txn {
    match op
    case DoIngest(scan) => Ingest(s, scan)
    case DoSeed(records) => Seed(s, records)
    case DoReserve(seqs, now) => Reserve(s, seqs, now)
    case DoResolve(outcome, now) => Resolve(s, outcome, now)
    case DoRecover(now) => Recover(s, now)
    case DoRetry(seqs) => Retry(s, seqs)
    case DoReconcile(snap) => Reconcile(s, snap)
    case DoConfirm(evidence) => Confirm(s, evidence)
    case DoAcknowledgeHealth => AcknowledgeHealth(s)
  }

  // What an observer who sees every commit would have written down.
  datatype History = History(
    admitted: int,                       // rows ever admitted
    dropped: int,                        // rows removed because an old bridge could not account for them
    lost: set<int>,                      // sequences such a bridge ever failed to account for
    total: Counters,                     // everything ever counted
    since: Counters,                     // everything counted since health was last acknowledged
    reserved: int,                       // sum of all reservation sizes
    ignored: set<int>,                   // frames skipped by scans
    tries: map<int, int>,                // reservations of a sequence since its last operator retry
    outcomes: map<int, seq<Outcome>>,    // every resolved attempt of a sequence, across retries
    delivered: set<int>)                 // sequences with a committed delivered outcome

  const EMPTY_HISTORY := History(0, 0, {}, ZERO, ZERO, 0, {}, map[], map[], {})

  function Tries(h: History, q: int): int {
    if q in h.tries then h.tries[q] else 0
  }

  function Outcomes(h: History, q: int): seq<Outcome> {
    if q in h.outcomes then h.outcomes[q] else []
  }

  function ResolvedAs(s: State, op: Op): Option<Outcome> {
    match op
    case DoResolve(outcome, _) => Some(outcome)
    case DoRecover(_) => if s.attempt.Some? then Some(OutcomeUnknown) else None
    case _ => None
  }

  function LostBy(s: State, op: Op): set<int> {
    if op.DoReconcile? then LostRows(s.work, op.snap) else {}
  }

  function TriesAfter(h: History, op: Op): map<int, int> {
    match op
    case DoReserve(seqs, _) =>
      map q | q in h.tries.Keys + Elements(seqs) :: Tries(h, q) + (if q in seqs then 1 else 0)
    case DoRetry(seqs) => map q | q in h.tries :: if q in seqs then 0 else h.tries[q]
    case _ => h.tries
  }

  function OutcomesAfter(h: History, members: set<int>, resolved: Option<Outcome>): map<int, seq<Outcome>> {
    match resolved
    case None => h.outcomes
    case Some(o) =>
      map q | q in h.outcomes.Keys + members :: if q in members then Outcomes(h, q) + [o] else h.outcomes[q]
  }

  function Observe(s: State, h: History, op: Op, t: State, bumps: Counters): History {
    var resolved := ResolvedAs(s, op);
    History(
      h.admitted + |t.work.Keys - s.work.Keys|,
      h.dropped + |LostBy(s, op) - t.work.Keys|,
      h.lost + LostBy(s, op),
      Plus(h.total, bumps),
      if op.DoAcknowledgeHealth? then bumps else Plus(h.since, bumps),
      h.reserved + (if op.DoReserve? then |op.seqs| else 0),
      h.ignored + (if op.DoIngest? then NewlyIgnored(op.scan.ignored, s.enumerated) else {}),
      TriesAfter(h, op),
      OutcomesAfter(h, s.members, resolved),
      if resolved == Some(OutcomeDelivered) then h.delivered + s.members else h.delivered)
  }

  datatype Journey = Journey(state: State, history: History)

  // A refused transaction leaves no trace.
  function Step(j: Journey, op: Op): Journey {
    match Apply(j.state, op)
    case Refuse(_) => j
    case Commit(t, bumps) => Journey(t, Observe(j.state, j.history, op, t, bumps))
  }

  function Run(j: Journey, ops: seq<Op>): Journey
    decreases |ops|
  {
    if ops == [] then j else Run(Step(j, ops[0]), ops[1..])
  }

  predicate WellFormedOp(op: Op) {
    match op
    case DoIngest(scan) => forall r :: r in scan.records ==> WellFormed(r.source)
    case DoSeed(records) => forall r :: r in records ==> WellFormed(r.source)
    case _ => true
  }

  // Every transaction is an update run to completion, except recovery with nothing to recover.
  function DraftOf(s: State, op: Op): Draft {
    match op
    case DoIngest(scan) => IngestDraft(s, scan)
    case DoSeed(records) => SeedDraft(s, records)
    case DoReserve(seqs, now) => ReserveDraft(s, seqs, now)
    case DoResolve(outcome, now) => ResolveDraft(s, outcome, now)
    case DoRecover(now) => if s.attempt.None? then Ready(s, ZERO) else ResolveDraft(s, OutcomeUnknown, now)
    case DoRetry(seqs) => RetryDraft(s, seqs)
    case DoReconcile(snap) => ReconcileDraft(s, snap)
    case DoConfirm(evidence) => ConfirmDraft(s, evidence)
    case DoAcknowledgeHealth => AcknowledgeHealthDraft(s)
  }

  lemma DraftSurvives(s: State, op: Op)
    requires Sound(s) && WellFormedOp(op)
    ensures Survives(DraftOf(s, op))
  {
    match op
    case DoIngest(scan) => IngestSurvives(s, scan);
    case DoSeed(records) => SeedSurvives(s, records);
    case DoReserve(seqs, now) => ReserveSurvives(s, seqs, now);
    case DoResolve(outcome, now) => ResolveSurvives(s, outcome, now);
    case DoRecover(now) => ResolveSurvives(s, OutcomeUnknown, now);
    case DoRetry(seqs) => RetrySurvives(s, seqs);
    case DoReconcile(snap) => ReconcileSurvives(s, snap);
    case DoConfirm(evidence) =>
    case DoAcknowledgeHealth =>
  }

  lemma ApplyCompletes(s: State, op: Op)
    requires Valid(s)
    ensures Apply(s, op) == Complete(DraftOf(s, op))
  {
    if op.DoRecover? && s.attempt.None? {
      SurvivorCommits(Ready(s, ZERO));
    }
  }

  // Who a journal is for, and where it began.
  predicate SameIdentity(s: State, t: State) {
    && t.target == s.target && t.nonce == s.nonce && t.imported == s.imported && t.historyLost == s.historyLost
  }

  lemma AdvanceIdentity(s: State, through: Option<int>)
    requires through.Some? ==> s.scan <= through.value
    ensures var t := Advance(s, through).state; SameIdentity(s, t) && t.activated == s.activated
  {
    hide Frontier, Crossed, CrossedBumps;
  }

  lemma DraftIdentity(s: State, op: Op)
    requires DraftOf(s, op).Ready?
    ensures var t := DraftOf(s, op).state; SameIdentity(s, t) && (!op.DoConfirm? ==> t.activated == s.activated)
  {
    hide Advance, Admit, ResolveWork, ReserveWork, RetryWork, ReconcileWork, Judge, Objections, NewlyUnknown, DroppedRows, Exhaustion,
         OneKind, Reservable, Retriable, NewlyIgnored, IgnoredWithin, RecordsWithin, Selection, Elements;
    match op
    case DoIngest(scan) => AdvanceIdentity(s.(work := Admit(s.work, s.scan, scan.records, false).work), Some(scan.through));
    case DoResolve(outcome, now) =>
      AdvanceIdentity(s.(work := ResolveWork(s.work, s.members, outcome, now), attempt := None, members := {}), None);
    case DoRecover(now) =>
      AdvanceIdentity(s.(work := ResolveWork(s.work, s.members, OutcomeUnknown, now), attempt := None, members := {}), None);
    case DoReconcile(snap) => AdvanceIdentity(s.(work := ReconcileWork(s.work, snap)), None);
    case _ =>
  }

  lemma CompleteIdentity(s: State, d: Draft)
    requires d.Ready? && Complete(d).Commit?
    ensures Complete(d).state == d.state.(counters := Complete(d).state.counters)
  {
    hide Valid, Accrue;
  }

  // No transaction changes a journal's identity, and only confirmation changes its activation.
  lemma ApplyKeepsIdentity(s: State, op: Op)
    requires Apply(s, op).Commit?
    ensures var t := Apply(s, op).state; SameIdentity(s, t) && (!op.DoConfirm? ==> t.activated == s.activated)
  {
    if !(op.DoRecover? && s.attempt.None?) {
      ApplyDrafted(s, op);
      hide Apply, DraftOf, Complete;
      DraftIdentity(s, op);
      CompleteIdentity(s, DraftOf(s, op));
    }
  }

  lemma ApplyDrafted(s: State, op: Op)
    requires !(op.DoRecover? && s.attempt.None?)
    ensures Apply(s, op) == Complete(DraftOf(s, op))
    ensures Apply(s, op).Commit? ==> DraftOf(s, op).Ready?
  {
    hide Seal, IngestDraft, SeedDraft, ReserveDraft, ResolveDraft, RetryDraft, ReconcileDraft, ConfirmDraft, AcknowledgeHealthDraft;
  }

  // Validation is inductive: from a valid state, with well-formed snapshots, no transaction is
  // ever refused by the check it ends with, and every commit is valid.
  lemma ValidationNeverFails(s: State, op: Op)
    requires Valid(s) && WellFormedOp(op)
    ensures Apply(s, op) != Refuse(RecoveryRequired)
    ensures Apply(s, op).Commit? ==> Valid(Apply(s, op).state)
  {
    ApplyCompletes(s, op);
    DraftSurvives(s, op);
    SurvivorCommits(DraftOf(s, op));
  }

  /* ----- what one commit does to the rows ----- */

  datatype Touch = Untouched | Reserving | Resolving(outcome: Outcome, now: int) | Retrying | Reconciling(verdict: Verdict)

  function TouchOf(s: State, op: Op, q: int): Touch
    requires q in s.work
  {
    match op
    case DoReserve(seqs, _) => if q in seqs then Reserving else Untouched
    case DoResolve(outcome, now) => if q in s.members then Resolving(outcome, now) else Untouched
    case DoRecover(now) => if s.attempt.Some? && q in s.members then Resolving(OutcomeUnknown, now) else Untouched
    case DoRetry(seqs) => if q in seqs then Retrying else Untouched
    case DoReconcile(snap) => Reconciling(Judge(q, s.work[q], snap))
    case _ => Untouched
  }

  function Touched(r: Row, touch: Touch): Row
  {
    match touch
    case Untouched => r
    case Reserving => ReserveRow(r)
    case Resolving(outcome, now) => ResolveRow(r, outcome, now)
    case Retrying => RetryRow(r)
    case Reconciling(v) => Judged(r, v)
  }

  function RowAfter(s: State, op: Op, q: int): Row
    requires q in s.work
  {
    Touched(s.work[q], TouchOf(s, op, q))
  }

  // The life of one sequence number across one commit: rows change only as RowAfter says, leave
  // only from behind the frontier and only settled or lost, arrive only fresh, and are never
  // passed by the frontier while they wait.
  predicate RowMoves(s: State, op: Op, t: State, q: int)
  {
    && (q in s.work && q in t.work ==> t.work[q] == RowAfter(s, op, q))
    && (q in s.work && q !in t.work ==> q <= t.scan && (Settled(RowAfter(s, op, q)) || q in LostBy(s, op)))
    && (q in t.work && q !in s.work ==>
          t.work[q] == Row(t.work[q].source, Pending, 0, 0, false) && (q > s.scan || !s.seeded))
    && (q in s.work && Waiting(RowAfter(s, op, q)) && s.scan < q ==> t.scan < q)
    && (q in t.work && q !in s.work && s.scan < q ==> t.scan < q)
    && (q in t.work && Settled(t.work[q]) && q <= t.scan ==> q in s.work && Settled(s.work[q]) && q <= s.scan)
  }

  ghost predicate Moves(s: State, op: Op, t: State)
  {
    && t.imported == s.imported && t.target == s.target && t.nonce == s.nonce
    && s.scan <= t.scan <= t.enumerated && s.enumerated <= t.enumerated
    && (s.seeded ==> t.seeded) && (s.activated ==> t.activated)
    && (AtFrontier(s) ==> AtFrontier(t))
    && (forall q {:trigger RowMoves(s, op, t, q)} :: RowMoves(s, op, t, q))
  }

  // The books of one commit: rows in, minus rows out, is what the work table gained.
  ghost predicate Balanced(s: State, op: Op, t: State, bumps: Counters) {
    |s.work| + |t.work.Keys - s.work.Keys| ==
    |t.work| + bumps.delivered + bumps.acknowledged + bumps.obsolete + |LostBy(s, op) - t.work.Keys|
  }

  ghost predicate Accounted(s: State, op: Op, t: State, bumps: Counters) {
    && Balanced(s, op, t, bumps)
    && bumps.attempts == (if op.DoReserve? then |op.seqs| else 0)
    && bumps.ignored == (if op.DoIngest? then |NewlyIgnored(op.scan.ignored, s.enumerated)| else 0)
    && t.counters == (if op.DoAcknowledgeHealth? then ZERO else s.counters)
  }

  // Everything an update does to the rows, the frontier and the books; counters are added by
  // the transaction itself.
  ghost predicate Good(s: State, op: Op, t: State, bumps: Counters) {
    Moves(s, op, t) && Accounted(s, op, t, bumps)
  }

  lemma Gained(before: set<int>, mid: set<int>, after: set<int>)
    requires before <= mid && after <= mid && mid - after <= before
    ensures |before| + |after - before| == |mid|
  {
    assert forall q :: q in mid <==> q in before + (after - before);
    assert mid == before + (after - before);
  }

  lemma IngestMoves(s: State, scan: Scan)
    requires s.scan <= s.enumerated && IngestDraft(s, scan).Ready?
    ensures Moves(s, DoIngest(scan), IngestDraft(s, scan).state)
  {
    var op := DoIngest(scan);
    var s' := s.(work := Admit(s.work, s.scan, scan.records, false).work);
    var t := IngestDraft(s, scan).state;
    AdvanceStops(s', Some(scan.through));
    forall q ensures RowMoves(s, op, t, q) {
      AdmitRow(s.work, s.scan, scan.records, false, q);
      AdvanceRow(s', Some(scan.through), q);
    }
  }

  lemma AdmitKeys(work: map<int, Row>, through: int, records: seq<Record>, historical: bool)
    requires Admit(work, through, records, historical).Admitted?
    ensures var after := Admit(work, through, records, historical).work;
      work.Keys <= after.Keys
  {
    forall q | q in work.Keys ensures q in Admit(work, through, records, historical).work.Keys {
      AdmitRow(work, through, records, historical, q);
    }
  }

  lemma IngestBooks(s: State, scan: Scan)
    requires s.scan <= s.enumerated && s.scan <= scan.through
    requires Admit(s.work, s.scan, scan.records, false).Admitted?
    ensures var p := Advance(s.(work := Admit(s.work, s.scan, scan.records, false).work), Some(scan.through));
      Balanced(s, DoIngest(scan), p.state, p.bumps)
  {
    var work := Admit(s.work, s.scan, scan.records, false).work;
    var s' := s.(work := work);
    var t := Advance(s', Some(scan.through)).state;
    AdvanceCounts(s', Some(scan.through));
    AdmitKeys(s.work, s.scan, scan.records, false);
    forall q | q in work.Keys - t.work.Keys ensures q in s.work.Keys {
      AdmitRow(s.work, s.scan, scan.records, false, q);
      AdvanceRow(s', Some(scan.through), q);
    }
    Gained(s.work.Keys, work.Keys, t.work.Keys);
    assert LostBy(s, DoIngest(scan)) - t.work.Keys == {};
  }

  lemma IngestGood(s: State, scan: Scan)
    requires s.scan <= s.enumerated && IngestDraft(s, scan).Ready?
    ensures var d := IngestDraft(s, scan); Good(s, DoIngest(scan), d.state, d.bumps)
  {
    IngestMoves(s, scan);
    IngestBooks(s, scan);
    AdvanceCounts(s.(work := Admit(s.work, s.scan, scan.records, false).work), Some(scan.through));
  }

  lemma SeedGood(s: State, records: seq<Record>)
    requires s.scan <= s.enumerated && SeedDraft(s, records).Ready?
    ensures var d := SeedDraft(s, records); Good(s, DoSeed(records), d.state, d.bumps)
  {
    var op := DoSeed(records);
    var t := SeedDraft(s, records).state;
    assert LostBy(s, op) - t.work.Keys == {};
    if s.seeded {
      assert forall q {:trigger RowMoves(s, op, t, q)} :: RowMoves(s, op, t, q);
      Gained(s.work.Keys, t.work.Keys, t.work.Keys);
    } else {
      forall q ensures RowMoves(s, op, t, q) {
        AdmitRow(s.work, s.scan, records, true, q);
      }
      AdmitRow(s.work, s.scan, records, true, s.scan + 1);
      AdmitKeys(s.work, s.scan, records, true);
      Gained(s.work.Keys, t.work.Keys, t.work.Keys);
    }
  }

  // A transaction that only rewrites rows in place keeps the books as they are.
  lemma InPlaceBooks(s: State, op: Op, t: State, bumps: Counters)
    requires t.work.Keys == s.work.Keys
    requires bumps.delivered == bumps.acknowledged == bumps.obsolete == 0
    ensures Balanced(s, op, t, bumps)
  {
    assert |t.work.Keys| == |s.work.Keys|;
    assert t.work.Keys - s.work.Keys == {};
    assert LostBy(s, op) - t.work.Keys == {} by {
      assert forall q :: q in LostBy(s, op) ==> q in s.work.Keys;
    }
  }

  lemma ReserveGood(s: State, seqs: seq<int>, now: int)
    requires s.scan <= s.enumerated && ReserveDraft(s, seqs, now).Ready?
    ensures var d := ReserveDraft(s, seqs, now); Good(s, DoReserve(seqs, now), d.state, d.bumps)
  {
    hide Judge, LostBy, OneKind, Reservable, Selection;
    var op := DoReserve(seqs, now);
    var t := ReserveDraft(s, seqs, now).state;
    InPlaceBooks(s, op, t, One(CAttempts, |seqs|));
    forall q ensures RowMoves(s, op, t, q) {}
  }

  // Rewriting rows in place and then advancing: what leaves is what advancing counted.
  lemma AdvanceBooks(s: State, op: Op, s': State)
    requires s'.work.Keys == s.work.Keys && LostBy(s, op) == {}
    ensures var p := Advance(s', None); Balanced(s, op, p.state, p.bumps)
  {
    AdvanceCounts(s', None);
    var p := Advance(s', None);
    assert |s'.work.Keys| == |s.work.Keys|;
    assert p.state.work.Keys - s.work.Keys == {};
    assert LostBy(s, op) - p.state.work.Keys == {};
  }

  lemma ResolveMoves(s: State, op: Op, outcome: Outcome, now: int)
    requires s.scan <= s.enumerated && ResolveDraft(s, outcome, now).Ready?
    requires op == DoResolve(outcome, now) || (op == DoRecover(now) && s.attempt.Some? && outcome == OutcomeUnknown)
    ensures Moves(s, op, ResolveDraft(s, outcome, now).state)
  {
    var s' := s.(work := ResolveWork(s.work, s.members, outcome, now), attempt := None, members := {});
    var t := ResolveDraft(s, outcome, now).state;
    AdvanceStops(s', None);
    forall q ensures RowMoves(s, op, t, q) {
      AdvanceRow(s', None, q);
    }
  }

  lemma ResolveAccounts(s: State, op: Op, outcome: Outcome, now: int)
    requires ResolveDraft(s, outcome, now).Ready?
    requires op == DoResolve(outcome, now) || (op == DoRecover(now) && s.attempt.Some? && outcome == OutcomeUnknown)
    ensures var d := ResolveDraft(s, outcome, now); Accounted(s, op, d.state, d.bumps)
  {
    hide ResolveWork, Balanced, Exhaustion;
    var s' := s.(work := ResolveWork(s.work, s.members, outcome, now), attempt := None, members := {});
    ResolvedKeys(s.work, s.members, outcome, now);
    AdvanceBooks(s, op, s');
    AdvanceCounts(s', None);
    BalancedAlike(s, op, Advance(s', None).state, Advance(s', None).bumps, ResolveDraft(s, outcome, now).bumps);
    hide Advance;
  }

  // Only the counts of rows that left matter to the balance.
  lemma BalancedAlike(s: State, op: Op, t: State, bumps: Counters, more: Counters)
    requires Balanced(s, op, t, bumps)
    requires more.delivered == bumps.delivered && more.acknowledged == bumps.acknowledged && more.obsolete == bumps.obsolete
    ensures Balanced(s, op, t, more)
  {}

  lemma ResolvedKeys(work: map<int, Row>, members: set<int>, outcome: Outcome, now: int)
    ensures ResolveWork(work, members, outcome, now).Keys == work.Keys
  {}

  lemma ResolveGood(s: State, op: Op, outcome: Outcome, now: int)
    requires s.scan <= s.enumerated && ResolveDraft(s, outcome, now).Ready?
    requires op == DoResolve(outcome, now) || (op == DoRecover(now) && s.attempt.Some? && outcome == OutcomeUnknown)
    ensures var d := ResolveDraft(s, outcome, now); Good(s, op, d.state, d.bumps)
  {
    hide Moves, Accounted, ResolveDraft;
    ResolveMoves(s, op, outcome, now);
    ResolveAccounts(s, op, outcome, now);
  }

  lemma RetryGood(s: State, seqs: seq<int>)
    requires s.scan <= s.enumerated && RetryDraft(s, seqs).Ready?
    ensures var d := RetryDraft(s, seqs); Good(s, DoRetry(seqs), d.state, d.bumps)
  {
    var op := DoRetry(seqs);
    var t := RetryDraft(s, seqs).state;
    InPlaceBooks(s, op, t, ZERO);
    forall q ensures RowMoves(s, op, t, q) {}
  }

  lemma LostStay(s: State, snap: Retained)
    requires s.scan <= s.enumerated
    ensures LostRows(s.work, snap) <= Advance(s.(work := ReconcileWork(s.work, snap)), None).state.work.Keys
  {
    var s' := s.(work := ReconcileWork(s.work, snap));
    forall q | q in LostRows(s.work, snap) ensures q in Advance(s', None).state.work {
      AdvanceRow(s', None, q);
    }
  }

  lemma LeftBehind(work: map<int, Row>, lost: set<int>, dropped: set<int>)
    requires dropped <= lost <= work.Keys
    ensures lost - (work - dropped).Keys == dropped
  {
    assert forall q :: q in lost - (work - dropped).Keys <==> q in dropped;
  }

  // Rows an old bridge cannot account for leave uncounted, and only those at or below the frontier.
  lemma DropBooks(s: State, op: Op, mid: State, dropped: set<int>, t: State, bumps: Counters)
    requires mid.work.Keys <= s.work.Keys && LostBy(s, op) <= mid.work.Keys
    requires |s.work| == |mid.work| + bumps.delivered + bumps.acknowledged + bumps.obsolete
    requires dropped <= LostBy(s, op) && t.work == mid.work - dropped
    ensures Balanced(s, op, t, bumps)
  {
    DropSize(mid.work, dropped);
    LeftBehind(mid.work, LostBy(s, op), dropped);
    assert t.work.Keys - s.work.Keys == {};
  }

  lemma ReconcileBooks(s: State, snap: Retained)
    requires s.scan <= s.enumerated && ReconcileDraft(s, snap).Ready?
    ensures var d := ReconcileDraft(s, snap); Balanced(s, DoReconcile(snap), d.state, d.bumps)
  {
    var s' := s.(work := ReconcileWork(s.work, snap));
    assert s'.work.Keys == s.work.Keys && |s'.work.Keys| == |s.work.Keys|;
    AdvanceCounts(s', None);
    LostStay(s, snap);
    var mid := Advance(s', None).state;
    var d := ReconcileDraft(s, snap);
    DropBooks(s, DoReconcile(snap), mid, DroppedRows(s.work, snap, mid.scan), d.state, d.bumps);
  }

  lemma ReconcileMoves(s: State, snap: Retained)
    requires s.scan <= s.enumerated && ReconcileDraft(s, snap).Ready?
    ensures Moves(s, DoReconcile(snap), ReconcileDraft(s, snap).state)
  {
    var op := DoReconcile(snap);
    var s' := s.(work := ReconcileWork(s.work, snap));
    var t := ReconcileDraft(s, snap).state;
    AdvanceStops(s', None);
    forall q ensures RowMoves(s, op, t, q) {
      AdvanceRow(s', None, q);
    }
  }

  lemma ReconcileGood(s: State, snap: Retained)
    requires s.scan <= s.enumerated && ReconcileDraft(s, snap).Ready?
    ensures var d := ReconcileDraft(s, snap); Good(s, DoReconcile(snap), d.state, d.bumps)
  {
    ReconcileMoves(s, snap);
    ReconcileBooks(s, snap);
    AdvanceCounts(s.(work := ReconcileWork(s.work, snap)), None);
  }

  lemma UntouchedGood(s: State, op: Op, t: State)
    requires op.DoConfirm? || op.DoAcknowledgeHealth? || (op.DoRecover? && s.attempt.None?)
    requires s.scan <= s.enumerated
    requires t == s.(counters := t.counters, activated := t.activated, historyAcknowledged := t.historyAcknowledged)
    requires s.activated ==> t.activated
    requires t.counters == (if op.DoAcknowledgeHealth? then ZERO else s.counters)
    ensures Good(s, op, t, ZERO)
  {
    InPlaceBooks(s, op, t, ZERO);
    forall q ensures RowMoves(s, op, t, q) {}
  }

  lemma DraftGood(s: State, op: Op)
    requires s.scan <= s.enumerated && DraftOf(s, op).Ready?
    ensures var d := DraftOf(s, op); Good(s, op, d.state, d.bumps)
  {
    match op
    case DoIngest(scan) => IngestGood(s, scan);
    case DoSeed(records) => SeedGood(s, records);
    case DoReserve(seqs, now) => ReserveGood(s, seqs, now);
    case DoResolve(outcome, now) => ResolveGood(s, op, outcome, now);
    case DoRecover(now) =>
      if s.attempt.Some? {
        ResolveGood(s, op, OutcomeUnknown, now);
      } else {
        UntouchedGood(s, op, s);
      }
    case DoRetry(seqs) => RetryGood(s, seqs);
    case DoReconcile(snap) => ReconcileGood(s, snap);
    case DoConfirm(evidence) => UntouchedGood(s, op, DraftOf(s, op).state);
    case DoAcknowledgeHealth => UntouchedGood(s, op, DraftOf(s, op).state);
  }
}
