/** What each transaction of the journal does, row by row and field by field: when it commits, what
    it leaves, and the error it raises otherwise. */
module JournalEffects {
  import opened Common
  import opened JournalModel
  import opened JournalProofs
  import opened JournalRuns

  // Everything but the rows, the frontier, the attempt and the counters.
  predicate SameMeta(s: State, t: State) {
    && t.target == s.target && t.nonce == s.nonce && t.imported == s.imported && t.seeded == s.seeded
    && t.activated == s.activated && t.historyLost == s.historyLost && t.historyAcknowledged == s.historyAcknowledged
  }

  lemma SoundOf(s: State)
    requires Valid(s)
    ensures Sound(s) && s.scan <= s.enumerated && Bounded(s.counters)
  {}

  // From a valid state a transaction is exactly what its body does, with what it counted added.
  lemma Commits(s: State, d: Draft)
    requires Valid(s) && Survives(d)
    ensures Complete(d).Commit? <==> d.Ready?
    ensures d.Ready? ==> Complete(d) == Commit(d.state.(counters := Accrue(d.state.counters, d.bumps)), d.bumps)
    ensures d.Raise? ==> Complete(d) == Refuse(d.error)
  {
    SurvivorCommits(d);
  }

  /* ----- reserving ----- */

  predicate Asked(seqs: seq<int>) {
    && 1 <= |seqs| <= 10
    && (forall k :: 0 <= k < |seqs| ==> seqs[k] > 0)
    && (forall j, k :: 0 <= j < k < |seqs| ==> seqs[j] != seqs[k])
  }

  predicate Free(s: State, q: int, now: int) {
    && q in s.work && s.work[q].disposition == Pending && s.work[q].retryAt <= now && s.work[q].attempts < 3
  }

  // Peer messages only, or one pointer alone.
  predicate Together(s: State, seqs: seq<int>) {
    |seqs| == 1 || forall k :: 0 <= k < |seqs| ==> seqs[k] in s.work && s.work[seqs[k]].source == Peer
  }

  lemma AskedIs(seqs: seq<int>)
    ensures Asked(seqs) <==> Selection(seqs)
  {
    assert (forall k :: 0 <= k < |seqs| ==> seqs[k] > 0) ==> forall q :: q in seqs ==> q > 0;
    assert forall k :: 0 <= k < |seqs| ==> seqs[k] in seqs;
  }

  lemma FreeIs(s: State, seqs: seq<int>, now: int)
    ensures (forall k :: 0 <= k < |seqs| ==> Free(s, seqs[k], now)) <==> !(exists q :: q in seqs && !Reservable(s, q, now))
  {
    assert forall k :: 0 <= k < |seqs| ==> seqs[k] in seqs && (Free(s, seqs[k], now) <==> Reservable(s, seqs[k], now));
  }

  lemma TogetherIs(s: State, seqs: seq<int>)
    requires Asked(seqs) && forall k :: 0 <= k < |seqs| ==> seqs[k] in s.work
    ensures Together(s, seqs) <==> OneKind(s.work, Elements(seqs))
  {
    AskedIs(seqs);
    ElementsSize(seqs);
    forall k | 0 <= k < |seqs| ensures seqs[k] in Elements(seqs) {}
    assert forall q :: q in Elements(seqs) ==> exists k :: 0 <= k < |seqs| && seqs[k] == q;
  }

  // A reservation commits exactly when it names one to ten distinct rows that are all free, of one
  // kind, and the journal is activated, seeded and idle.
  lemma ReserveDecided(s: State, seqs: seq<int>, now: int)
    requires Valid(s)
    ensures var r := Reserve(s, seqs, now); var free := forall k :: 0 <= k < |seqs| ==> Free(s, seqs[k], now);
      && (r.Commit? <==> 0 <= now <= MAX_SEQUENCE && Asked(seqs) && s.activated && s.seeded && s.attempt.None? && free && Together(s, seqs))
      && (r == Refuse(InvalidCounter) <==> !(0 <= now <= MAX_SEQUENCE))
      && (r == Refuse(NotReady) <==> 0 <= now <= MAX_SEQUENCE && Asked(seqs) && !(s.activated && s.seeded))
      && (r == Refuse(AttemptInProgress) <==>
            0 <= now <= MAX_SEQUENCE && Asked(seqs) && s.activated && s.seeded && s.attempt.Some?)
      && (r == Refuse(InvalidReservation) <==>
            0 <= now <= MAX_SEQUENCE && (!Asked(seqs) || (s.activated && s.seeded && s.attempt.None? && !(free && Together(s, seqs)))))
  {
    SoundOf(s);
    ReserveSurvives(s, seqs, now);
    Commits(s, ReserveDraft(s, seqs, now));
    hide Valid, Sound, Survives, Complete;
    AskedIs(seqs);
    FreeIs(s, seqs, now);
    if Asked(seqs) && forall k :: 0 <= k < |seqs| ==> Free(s, seqs[k], now) {
      TogetherIs(s, seqs);
    }
    hide ReserveWork, Elements, OneKind, Together;
  }

  // Its rows become reserved, each with one attempt more and no delay; the attempt starts now and
  // holds exactly them; every attempt is counted; nothing else changes.
  lemma ReserveEffect(s: State, seqs: seq<int>, now: int)
    requires Valid(s) && Reserve(s, seqs, now).Commit?
    ensures var t := Reserve(s, seqs, now).state;
      && t.attempt == Some(now) && (forall q :: q in t.members <==> q in seqs)
      && t.work.Keys == s.work.Keys
      && (forall q :: q in t.work && q !in seqs ==> t.work[q] == s.work[q])
      && (forall q :: q in seqs ==>
            && q in s.work && t.work[q].disposition == Reserved && t.work[q].attempts == s.work[q].attempts + 1
            && t.work[q].retryAt == 0 && t.work[q].source == s.work[q].source && t.work[q].uncertain == s.work[q].uncertain)
      && SameMeta(s, t) && t.scan == s.scan && t.enumerated == s.enumerated
      && t.counters.attempts == Min(MAX_SEQUENCE, s.counters.attempts + |seqs|)
      && t.counters == s.counters.(attempts := t.counters.attempts)
  {
    SoundOf(s);
    ReserveSurvives(s, seqs, now);
    Commits(s, ReserveDraft(s, seqs, now));
    hide Valid, Sound, Survives, Complete, OneKind;
  }

  /* ----- resolving ----- */

  // What an outcome makes of a row of the attempt: delivered for good; or, while attempts are left,
  // pending again after 30 seconds the first time and 60 after that; or, with none left, failed if
  // every attempt was refused outright and unknown otherwise.
  predicate Judged(r: Row, outcome: Outcome, now: int, r': Row) {
    && r'.source == r.source && r'.attempts == r.attempts
    && (r'.uncertain <==> r.uncertain || outcome == OutcomeUnknown)
    && (outcome == OutcomeDelivered ==> r'.disposition == Delivered && r'.retryAt == 0)
    && (outcome != OutcomeDelivered && r.attempts < 3 ==>
          r'.disposition == Pending
          && r'.retryAt == (if r.attempts == 1 then Min(MAX_SEQUENCE, now + 30) else Min(MAX_SEQUENCE, now + 60)))
    && (outcome != OutcomeDelivered && r.attempts >= 3 ==>
          r'.disposition == (if r'.uncertain then Unknown else Failed) && r'.retryAt == 0)
  }

  lemma ResolveDecided(s: State, outcome: Outcome, now: int)
    requires Valid(s)
    ensures var r := Resolve(s, outcome, now);
      && (r.Commit? <==> 0 <= now <= MAX_SEQUENCE && s.attempt.Some?)
      && (r == Refuse(InvalidCounter) <==> !(0 <= now <= MAX_SEQUENCE))
      && (r == Refuse(NoAttempt) <==> 0 <= now <= MAX_SEQUENCE && s.attempt.None?)
  {
    SoundOf(s);
    ResolveSurvives(s, outcome, now);
    Commits(s, ResolveDraft(s, outcome, now));
    hide Survives, Complete, Advance, ResolveWork, Exhaustion;
  }

  // Every row of the attempt gets the outcome, no other row does, and the frontier takes away
  // exactly the closed rows it passes.
  lemma ResolveEffect(s: State, outcome: Outcome, now: int, q: int)
    requires Valid(s) && Resolve(s, outcome, now).Commit?
    ensures var t := Resolve(s, outcome, now).state;
      && (q in t.work ==> q in s.work)
      && (q in t.work && q in s.members ==> Judged(s.work[q], outcome, now, t.work[q]))
      && (q in t.work && q !in s.members ==> t.work[q] == s.work[q])
      && (q in s.work ==>
            (q !in t.work <==> q <= t.scan && if q in s.members then outcome == OutcomeDelivered else Settled(s.work[q])))
  {
    ResolveState(s, outcome, now);
    SoundOf(s);
    ReservedMembers(s);
    hide Valid, Sound, Resolve, Advance, Accrue;
    var m := Unattempted(s, outcome, now);
    AdvanceRow(m, None, q);
    if q in s.work && q in s.members {
      ResolveOne(s.work[q], outcome, now);
      assert m.work[q] == ResolveRow(s.work[q], outcome, now);
      hide ResolveRow;
    }
  }

  // The attempt closes, the frontier moves as far as it may, and nothing else changes.
  lemma ResolveCloses(s: State, outcome: Outcome, now: int)
    requires Valid(s) && Resolve(s, outcome, now).Commit?
    ensures var t := Resolve(s, outcome, now).state;
      && t.attempt.None? && t.members == {}
      && SameMeta(s, t) && t.enumerated == s.enumerated && s.scan <= t.scan <= t.enumerated
      && (t.scan == t.enumerated || (t.scan + 1 in t.work && Waiting(t.work[t.scan + 1])))
  {
    hide Valid, Resolve, Advance, ResolveWork, Frontier;
    ResolveState(s, outcome, now);
    Positions(s);
    AdvanceStops(Unattempted(s, outcome, now), None);
    AdvanceMeta(Unattempted(s, outcome, now));
    AdvanceHigh(Unattempted(s, outcome, now));
  }

  lemma Positions(s: State)
    requires Valid(s)
    ensures s.scan <= s.enumerated
  {}

  lemma AdvanceHigh(s: State)
    ensures Advance(s, None).state.enumerated == s.enumerated
  {}

  lemma ResolveState(s: State, outcome: Outcome, now: int)
    requires Valid(s) && Resolve(s, outcome, now).Commit?
    ensures var t := Resolve(s, outcome, now).state; var p := Advance(Unattempted(s, outcome, now), None).state;
      t == p.(counters := t.counters)
  {
    SoundOf(s);
    ResolveSurvives(s, outcome, now);
    Commits(s, ResolveDraft(s, outcome, now));
    hide Valid, Sound, Survives, Complete, Exhaustion, Advance, ResolveWork, Accrue;
  }

  // Advancing leaves everything but positions and rows alone.
  lemma AdvanceMeta(s: State)
    ensures var p := Advance(s, None).state; p == s.(scan := p.scan, enumerated := p.enumerated, work := p.work)
  {}

  lemma ResolveOne(r: Row, outcome: Outcome, now: int)
    ensures Judged(r, outcome, now, ResolveRow(r, outcome, now))
  {}

  lemma ReservedMembers(s: State)
    requires Valid(s)
    ensures forall q :: q in s.members <==> q in s.work && s.work[q].disposition == Reserved
  {}

  // Rows that end exhausted are counted as what they end as; the frontier counts what it retires.
  lemma ResolveCounts(s: State, outcome: Outcome, now: int)
    requires Valid(s) && Resolve(s, outcome, now).Commit?
    ensures var c, d := s.counters, Resolve(s, outcome, now).state.counters;
      var spent := set q | q in s.members && q in s.work && s.work[q].attempts >= 3;
      && d.failed == Min(MAX_SEQUENCE, c.failed + |set q | q in spent && outcome == OutcomeFailed && !s.work[q].uncertain|)
      && d.unknown == Min(MAX_SEQUENCE, c.unknown + |set q | q in spent && outcome != OutcomeDelivered && (s.work[q].uncertain || outcome == OutcomeUnknown)|)
      && d.attempts == c.attempts && d.ignored == c.ignored && d.missing == c.missing
  {
    var bumps := ResolveAccrues(s, outcome, now);
    SpentRows(s.work, s.members, outcome);
    hide Valid, Resolve, Exhaustion, ExhaustedRows;
  }

  // The counters after a resolution: the frontier's own counts, and the rows that end exhausted.
  lemma ResolveAccrues(s: State, outcome: Outcome, now: int) returns (bumps: Counters)
    requires Valid(s) && Resolve(s, outcome, now).Commit?
    ensures Resolve(s, outcome, now).state.counters == Accrue(s.counters, bumps)
    ensures bumps.failed == Exhaustion(s.work, s.members, outcome, Failed) && bumps.unknown == Exhaustion(s.work, s.members, outcome, Unknown)
    ensures bumps.attempts == bumps.ignored == bumps.missing == 0
  {
    SoundOf(s);
    ResolveSurvives(s, outcome, now);
    Commits(s, ResolveDraft(s, outcome, now));
    AdvanceCounts(Unattempted(s, outcome, now), None);
    AdvanceMeta(Unattempted(s, outcome, now));
    hide Valid, Sound, Survives, Complete, Advance, ResolveWork, ExhaustedRows, Unattempted, Accrue, Exhaustion;
    bumps := ResolveDraft(s, outcome, now).bumps;
  }

  lemma SpentRows(work: map<int, Row>, members: set<int>, outcome: Outcome)
    ensures var spent := set q | q in members && q in work && work[q].attempts >= 3;
      && Exhaustion(work, members, outcome, Failed) == |set q | q in spent && outcome == OutcomeFailed && !work[q].uncertain|
      && Exhaustion(work, members, outcome, Unknown) ==
           |set q | q in spent && outcome != OutcomeDelivered && (work[q].uncertain || outcome == OutcomeUnknown)|
  {
    var spent := set q | q in members && q in work && work[q].attempts >= 3;
    var failed := set q | q in spent && outcome == OutcomeFailed && !work[q].uncertain;
    var unknown := set q | q in spent && outcome != OutcomeDelivered && (work[q].uncertain || outcome == OutcomeUnknown);
    forall q ensures q in failed <==> q in ExhaustedRows(work, members, outcome, Failed) {}
    forall q ensures q in unknown <==> q in ExhaustedRows(work, members, outcome, Unknown) {}
    assert failed == ExhaustedRows(work, members, outcome, Failed) && unknown == ExhaustedRows(work, members, outcome, Unknown);
  }

  // An attempt found open is settled as ambiguous; where none is open nothing happens.
  lemma RecoverEffect(s: State, now: int)
    ensures s.attempt.None? ==> Recover(s, now).Commit? && Recover(s, now).state == s
    ensures s.attempt.Some? ==> Recover(s, now) == Resolve(s, OutcomeUnknown, now)
  {}

  /* ----- retrying ----- */

  // An operator's retry commits exactly when it names one to ten distinct rows that ended failed or
  // unknown. They start over, but what was uncertain about them stays so; nothing else changes.
  lemma RetryEffect(s: State, seqs: seq<int>)
    requires Valid(s)
    ensures var r := Retry(s, seqs);
      && (r.Commit? <==> Asked(seqs) && forall q :: q in seqs ==> q in s.work && (s.work[q].disposition == Failed || s.work[q].disposition == Unknown))
      && (r.Refuse? ==> r.error == InvalidRetry)
      && (r.Commit? ==>
            var t := r.state;
            && t.work.Keys == s.work.Keys
            && (forall q :: q in t.work && q !in seqs ==> t.work[q] == s.work[q])
            && (forall q :: q in seqs ==>
                  && t.work[q].disposition == Pending && t.work[q].attempts == 0 && t.work[q].retryAt == 0
                  && t.work[q].source == s.work[q].source && t.work[q].uncertain == s.work[q].uncertain)
            && SameMeta(s, t) && t.scan == s.scan && t.enumerated == s.enumerated
            && t.attempt == s.attempt && t.members == s.members && t.counters == s.counters)
  {
    SoundOf(s);
    RetrySurvives(s, seqs);
    Commits(s, RetryDraft(s, seqs));
    AskedIs(seqs);
    hide Valid, Sound, Survives, Complete, Asked;
  }

  /* ----- confirming and clearing ----- */

  lemma ConfirmEffect(s: State, e: Evidence)
    requires Valid(s)
    ensures Confirm(s, e).Commit? <==> e.target == s.target && e.nonce == s.nonce
    ensures Confirm(s, e).Refuse? ==> Confirm(s, e).error == ActivationMismatch
    ensures Confirm(s, e).Commit? ==> Confirm(s, e).state == s.(activated := true)
  {
    SoundOf(s);
    DraftSurvives(s, DoConfirm(e));
    Commits(s, ConfirmDraft(s, e));
    NothingAccrued(s.counters);
    hide Valid, Sound, Complete, Survives, Accrue;
  }

  // Health is acknowledged in full: every counter starts again at zero, and a lost history counts
  // as seen.
  lemma HealthEffect(s: State)
    requires Valid(s)
    ensures AcknowledgeHealth(s).Commit?
    ensures var t := AcknowledgeHealth(s).state;
      && t.counters == Counters(0, 0, 0, 0, 0, 0, 0, 0)
      && (t.historyAcknowledged <==> s.historyAcknowledged || s.historyLost)
      && t == s.(counters := t.counters, historyAcknowledged := t.historyAcknowledged)
  {
    hide Valid, Sound, Complete, Survives, Accrue, Bounded, Natural, Saturated;
    SoundOf(s);
    DraftSurvives(s, DoAcknowledgeHealth);
    Commits(s, AcknowledgeHealthDraft(s));
    NothingCounted(AcknowledgeHealthDraft(s).state.counters);
  }

  lemma NothingCounted(c: Counters)
    requires c == ZERO
    ensures Accrue(c, ZERO) == c
  {
    ZeroBounded(c);
    NothingAccrued(c);
    hide Accrue, Bounded;
  }

  lemma ZeroBounded(c: Counters)
    requires c == ZERO
    ensures Bounded(c)
  {}

  /* ----- reconciling ----- */

  predicate Closed(r: Row) {
    r.disposition == Delivered || r.disposition == Acknowledged || r.disposition == Obsolete
  }

  predicate Covered(snap: Retained, q: int) {
    snap.ack.Some? && q <= snap.ack.value
  }

  // The snapshot knows every binding, and the pointer's own is gone, is bound anew, or has a later
  // pointer of the same instance.
  predicate Superseded(snap: Retained, q: int, source: Source)
    requires source.Pointer?
  {
    && snap.bindings.Some? && snap.pointers.Some?
    && (|| source.binding !in snap.bindings.value
        || snap.bindings.value[source.binding] != source.instance
        || (source.binding in snap.pointers.value
            && var p := snap.pointers.value[source.binding];
               p.source.Pointer? && p.source.instance == source.instance && p.sequence > q))
  }

  // A row the snapshot accounts for: closed already, acknowledged, still there and the same, or
  // missing for a reason that snapshot can give.
  predicate Explained(q: int, r: Row, snap: Retained) {
    || Closed(r)
    || Covered(snap, q)
    || (q in Index(snap.records) && Index(snap.records)[q] == r.source)
    || (q !in Index(snap.records) &&
          match r.source
          case Peer => snap.ack.None?
          case Pointer(_, _) => snap.bindings.None? || snap.pointers.None? || Superseded(snap, q, r.source))
  }

  lemma {:induction false} IndexHasLast(records: seq<Record>, q: int)
    ensures q in Index(records) <==> exists k :: 0 <= k < |records| && records[k].sequence == q
    ensures q in Index(records) ==>
      exists k :: 0 <= k < |records| && records[k] == Record(q, Index(records)[q]) && forall j :: k < j < |records| ==> records[j].sequence != q
    decreases |records|
  {
    if records != [] {
      var n := |records| - 1;
      IndexHasLast(records[..n], q);
      if records[n].sequence == q {
        assert records[n] == Record(q, Index(records)[q]);
      } else if q in Index(records) {
        var k :| 0 <= k < n && records[..n][k] == Record(q, Index(records[..n])[q]) && forall j :: k < j < n ==> records[..n][j].sequence != q;
        assert records[k] == Record(q, Index(records)[q]);
        assert forall j :: k < j < n ==> records[j] == records[..n][j];
      }
      if k :| 0 <= k < |records| && records[k].sequence == q {
        assert k < n ==> records[..n][k] == records[k];
      }
    }
  }

  // Reconciling commits exactly when no attempt is open and the snapshot accounts for every row;
  // otherwise the first row it does not account for decides the error.
  lemma ReconcileDecided(s: State, snap: Retained)
    requires Valid(s)
    ensures var r := Reconcile(s, snap); var wrong := set q | q in s.work && !Explained(q, s.work[q], snap);
      && (r.Commit? <==> s.attempt.None? && (snap.ack.Some? ==> 0 <= snap.ack.value <= MAX_SEQUENCE) && wrong == {})
      && (r == Refuse(AttemptInProgress) <==> s.attempt.Some?)
      && (r == Refuse(InvalidCounter) <==> s.attempt.None? && snap.ack.Some? && !(0 <= snap.ack.value <= MAX_SEQUENCE))
      && (r.Refuse? && r.error !in {AttemptInProgress, InvalidCounter} ==>
            wrong != {} && r.error == if Least(wrong) in Index(snap.records) then SourceChanged else SourceMissing)
  {
    SoundOf(s);
    ReconcileSurvives(s, snap);
    Commits(s, ReconcileDraft(s, snap));
    var wrong := set q | q in s.work && !Explained(q, s.work[q], snap);
    forall q | q in s.work ensures q in wrong <==> q in Objections(s.work, snap) { ExplainedIs(q, s.work[q], snap); }
    assert wrong == Objections(s.work, snap);
    if wrong != {} {
      var q := Least(wrong);
      assert q in s.work;
      ExplainedIs(q, s.work[q], snap);
    }
    hide Valid, Sound, Survives, Complete, Advance, ReconcileWork, NewlyUnknown, DroppedRows, Judge, Explained, Index;
  }

  lemma ExplainedIs(q: int, r: Row, snap: Retained)
    ensures Explained(q, r, snap) <==> !Judge(q, r, snap).Wrong?
    ensures !Explained(q, r, snap) ==> Judge(q, r, snap).error == if q in Index(snap.records) then SourceChanged else SourceMissing
  {
    hide Index;
  }

  // What a snapshot that accounts for a row makes of it.
  function Fate(q: int, r: Row, snap: Retained): Row {
    if Closed(r) then r
    else if Covered(snap, q) then Row(r.source, Acknowledged, r.attempts, 0, r.uncertain)
    else if q in Index(snap.records) then r
    else
      match r.source
      case Peer => Row(Peer, Unknown, r.attempts, 0, true)
      case Pointer(_, _) => if snap.bindings.None? || snap.pointers.None? then r else Row(r.source, Obsolete, r.attempts, 0, r.uncertain)
  }

  // Every row meets its fate. It leaves exactly when the frontier is past it and it is closed, or
  // is one a bridge without acknowledgements can no longer account for.
  lemma ReconcileEffect(s: State, snap: Retained, q: int)
    requires Valid(s) && Reconcile(s, snap).Commit?
    ensures var t := Reconcile(s, snap).state;
      && (q in t.work ==> q in s.work && t.work[q] == Fate(q, s.work[q], snap))
      && (q in s.work ==>
            (q !in t.work <==>
              && q <= t.scan
              && (Closed(Fate(q, s.work[q], snap))
                  || (!Closed(s.work[q]) && s.work[q].source.Peer? && snap.ack.None? && q !in Index(snap.records)))))
  {
    ReconcileState(s, snap);
    ReconcileDecided(s, snap);
    SoundOf(s);
    hide Valid, Sound, Reconcile, Advance, Accrue, Index, Explained, Judge;
    var m := s.(work := ReconcileWork(s.work, snap));
    AdvanceRow(m, None, q);
    if q in s.work {
      assert q !in (set x | x in s.work && !Explained(x, s.work[x], snap));
      RowReconciled(s.work, snap, q, Advance(m, None).state.scan);
    } else {
      assert q !in ReconcileWork(s.work, snap);
    }
    hide ReconcileWork, DroppedRows, Fate;
  }

  lemma RowReconciled(work: map<int, Row>, snap: Retained, q: int, through: int)
    requires q in work && Explained(q, work[q], snap)
    ensures var after := ReconcileWork(work, snap); q in after && after[q] == Fate(q, work[q], snap)
    ensures q in DroppedRows(work, snap, through) <==>
      q <= through && !Closed(work[q]) && work[q].source.Peer? && snap.ack.None? && q !in Index(snap.records)
  {
    FateIs(q, work[q], snap);
    hide Judge, Fate, Explained, Index;
  }

  lemma FateIs(q: int, r: Row, snap: Retained)
    requires Explained(q, r, snap)
    ensures JournalModel.Judged(r, Judge(q, r, snap)) == Fate(q, r, snap)
    ensures Judge(q, r, snap).Lost? <==> !Closed(r) && !Covered(snap, q) && q !in Index(snap.records) && r.source.Peer?
  {
    hide Index;
  }

  lemma ReconcileState(s: State, snap: Retained)
    requires Valid(s) && Reconcile(s, snap).Commit?
    ensures s.attempt.None?
    ensures var t := Reconcile(s, snap).state; var p := Advance(s.(work := ReconcileWork(s.work, snap)), None).state;
      t == p.(counters := t.counters, work := p.work - DroppedRows(s.work, snap, p.scan))
  {
    SoundOf(s);
    ReconcileSurvives(s, snap);
    Commits(s, ReconcileDraft(s, snap));
    hide Valid, Sound, Survives, Complete, Advance, ReconcileWork, NewlyUnknown, DroppedRows, Accrue, Objections, Judge;
  }

  lemma ReconcileCloses(s: State, snap: Retained)
    requires Valid(s) && Reconcile(s, snap).Commit?
    ensures var t := Reconcile(s, snap).state;
      && t.attempt.None? && t.members == s.members && SameMeta(s, t)
      && t.enumerated == s.enumerated && s.scan <= t.scan <= t.enumerated
  {
    ReconcileState(s, snap);
    SoundOf(s);
    var m := s.(work := ReconcileWork(s.work, snap));
    AdvanceStops(m, None);
    AdvanceMeta(m);
    AdvanceHigh(m);
    hide Valid, Sound, Reconcile, Advance, ReconcileWork;
  }

  /* ----- admitting ----- */

  // A scan is admitted unless it is malformed, contradicts a row, or finds no room.
  lemma IngestDecided(s: State, snap: Scan)
    requires Valid(s) && forall r :: r in snap.records ==> WellFormed(r.source)
    ensures Ingest(s, snap).Commit? ==>
      && s.scan <= snap.through <= MAX_SEQUENCE
      && |snap.records| + |snap.ignored| <= 128
      && (forall r :: r in snap.records ==> r.sequence <= snap.through)
      && (forall r :: r in snap.records && r.sequence > s.scan && r.sequence in s.work ==> s.work[r.sequence].source == r.source)
      && (forall q :: q in snap.ignored ==> 1 <= q <= snap.through)
  {
    SoundOf(s);
    IngestSurvives(s, snap);
    Commits(s, IngestDraft(s, snap));
    if IngestDraft(s, snap).Ready? {
      AdmitEffect(s.work, s.scan, snap.records, false);
    }
    hide Valid, Sound, Survives, Complete, Advance, Admit;
  }

  // A well-formed scan that agrees with itself and with the rows is refused only for room, and not
  // even for that while it fits into what room is left.
  lemma IngestAdmits(s: State, snap: Scan)
    requires Valid(s) && forall r :: r in snap.records ==> WellFormed(r.source) && 1 <= r.sequence <= snap.through
    requires s.scan <= snap.through <= MAX_SEQUENCE && |snap.records| + |snap.ignored| <= 128
    requires forall j, k :: 0 <= j < k < |snap.ignored| ==> snap.ignored[j] != snap.ignored[k]
    requires forall q :: q in snap.ignored ==> 1 <= q <= snap.through && forall r :: r in snap.records ==> r.sequence != q
    requires forall r :: r in snap.records && r.sequence in s.work ==> s.work[r.sequence].source == r.source
    requires forall r, r' :: r in snap.records && r' in snap.records && r.sequence == r'.sequence ==> r == r'
    ensures Ingest(s, snap).Commit? || Ingest(s, snap) == Refuse(Capacity)
    ensures |s.work| + |snap.records| <= 2048 ==> Ingest(s, snap).Commit?
  {
    SoundOf(s);
    IngestSurvives(s, snap);
    Commits(s, IngestDraft(s, snap));
    AdmitRefusal(s.work, s.scan, snap.records, false);
    if |s.work| + |snap.records| <= 2048 {
      AdmitRoom(s.work, s.scan, snap.records, false);
    }
    assert RecordsWithin(snap.records, snap.through) && IgnoredWithin(snap);
    hide Valid, Sound, Survives, Complete, Admit, Advance, RecordsWithin, IgnoredWithin;
  }

  // Each ignored frame above the enumerated position is counted once.
  lemma IngestCounts(s: State, snap: Scan)
    requires Valid(s) && (forall r :: r in snap.records ==> WellFormed(r.source)) && Ingest(s, snap).Commit?
    ensures var c, d := s.counters, Ingest(s, snap).state.counters;
      && d.ignored == Min(MAX_SEQUENCE, c.ignored + |set q | q in snap.ignored && q > s.enumerated|)
      && d.attempts == c.attempts && d.failed == c.failed && d.unknown == c.unknown && d.missing == c.missing
  {
    SoundOf(s);
    IngestSurvives(s, snap);
    Commits(s, IngestDraft(s, snap));
    hide Valid, Sound, Survives, Complete, Admit, RecordsWithin, IgnoredWithin, Frontier, Crossed, Tally;
  }

  // An admitted scan moves the enumerated position to its end; every record above the frontier that
  // was not known is a fresh pending row, and every known one stays as it was, unless the frontier
  // takes it, closed, along; frames not seen before are counted as ignored.
  lemma IngestEffect(s: State, snap: Scan, q: int)
    requires Valid(s) && (forall r :: r in snap.records ==> WellFormed(r.source)) && Ingest(s, snap).Commit?
    ensures var t := Ingest(s, snap).state;
      && t.enumerated == Max(s.enumerated, snap.through)
      && (q in s.work && q in t.work ==> t.work[q] == s.work[q])
      && (q in s.work && q !in t.work ==> q <= t.scan && Closed(s.work[q]))
      && (q in t.work && q !in s.work ==>
            && q > s.scan && Record(q, t.work[q].source) in snap.records
            && t.work[q].disposition == Pending && t.work[q].attempts == 0 && t.work[q].retryAt == 0 && !t.work[q].uncertain)
      && (q !in s.work && q > s.scan && (exists r :: r in snap.records && r.sequence == q) ==> q in t.work)
  {
    IngestState(s, snap);
    SoundOf(s);
    hide Valid, Sound, Ingest, Advance, Accrue, RecordsWithin, IgnoredWithin;
    AdmitEffect(s.work, s.scan, snap.records, false);
    var m := s.(work := Admit(s.work, s.scan, snap.records, false).work);
    AdvanceRow(m, Some(snap.through), q);
    hide Admit;
  }

  lemma IngestState(s: State, snap: Scan)
    requires Valid(s) && (forall r :: r in snap.records ==> WellFormed(r.source)) && Ingest(s, snap).Commit?
    ensures s.scan <= snap.through && Admit(s.work, s.scan, snap.records, false).Admitted?
    ensures var t := Ingest(s, snap).state;
      var p := Advance(s.(work := Admit(s.work, s.scan, snap.records, false).work), Some(snap.through)).state;
      t == p.(counters := t.counters) && t.enumerated == Max(s.enumerated, snap.through)
  {
    SoundOf(s);
    IngestSurvives(s, snap);
    Commits(s, IngestDraft(s, snap));
    hide Valid, Sound, Survives, Complete, Admit, Accrue, RecordsWithin, IgnoredWithin, Frontier, Crossed;
  }

  // Seeding happens once, and then every pointer handed in is a row, wherever the frontier stands.
  lemma SeedEffect(s: State, records: seq<Record>, q: int)
    requires Valid(s) && (forall r :: r in records ==> WellFormed(r.source)) && Seed(s, records).Commit?
    ensures var t := Seed(s, records).state;
      && t.seeded && (s.seeded ==> t == s)
      && (q in s.work ==> q in t.work && t.work[q] == s.work[q])
      && (q in t.work && q !in s.work ==>
            && Record(q, t.work[q].source) in records && t.work[q].source.Pointer?
            && t.work[q].disposition == Pending && t.work[q].attempts == 0 && t.work[q].retryAt == 0 && !t.work[q].uncertain)
      && (!s.seeded && (exists r :: r in records && r.sequence == q) ==> q in t.work && t.work[q].source.Pointer?)
      && t == s.(seeded := true, work := t.work)
  {
    SoundOf(s);
    SeedSurvives(s, records);
    Commits(s, SeedDraft(s, records));
    NothingAccrued(s.counters);
    if !s.seeded {
      AdmitEffect(s.work, s.scan, records, true);
    }
    hide Valid, Sound, Survives, Complete, Admit, Accrue;
  }

  /* ----- choosing ----- */

  lemma {:induction false} TakePeersLongest(work: map<int, Row>, ready: set<int>, now: int, room: nat)
    requires forall q :: q in ready ==> q in work
    ensures var r := TakePeers(work, ready, now, room); var rest := ready - Elements(r);
      |r| < room && rest != {} ==> work[Least(rest)].source != Peer || work[Least(rest)].retryAt > now
    decreases |ready|
  {
    hide Elements;
    if ready != {} && room != 0 {
      var first := Least(ready);
      if work[first].source == Peer && work[first].retryAt <= now {
        var rest := TakePeers(work, ready - {first}, now, room - 1);
        assert TakePeers(work, ready, now, room) == [first] + rest;
        TakePeersLongest(work, ready - {first}, now, room - 1);
        RestAfter(ready, first, rest);
      } else {
        assert TakePeers(work, ready, now, room) == [];
        NoneTaken(ready);
      }
      hide TakePeers;
    }
  }

  lemma NoneTaken(ready: set<int>)
    ensures ready - Elements([]) == ready
  {}

  lemma RestAfter(ready: set<int>, first: int, rest: seq<int>)
    ensures ready - Elements([first] + rest) == ready - {first} - Elements(rest)
  {}

  // The next call: nothing while the first eligible row backs off; a pointer goes alone; and
  // messages go together, in order, up to ten of them, as long as nothing stands in between - a
  // pointer, or a message still backing off.
  lemma DueIsLongest(s: State, now: int, memory: bool)
    ensures var due := Due(s, now, memory);
      var eligible := set q | q in s.work && s.work[q].disposition == Pending && (memory || s.work[q].source == Peer);
      var rest := eligible - (set q | q in due);
      && (due == [] <==> eligible == {} || s.work[Least(eligible)].retryAt > now)
      && (due != [] ==> due[0] == Least(eligible))
      && (due != [] && s.work[due[0]].source.Pointer? ==> due == [due[0]])
      && (due != [] && s.work[due[0]].source == Peer ==>
            && |due| <= 10 && (forall q :: q in due ==> q in eligible && s.work[q].source == Peer && s.work[q].retryAt <= now)
            && (|due| == 10 || rest == {} || s.work[Least(rest)].source.Pointer? || s.work[Least(rest)].retryAt > now))
  {
    var due := Due(s, now, memory);
    var ready := ReadySet(s.work, memory);
    assert ready == set q | q in s.work && s.work[q].disposition == Pending && (memory || s.work[q].source == Peer);
    assert Elements(due) == set q | q in due;
    if due != [] && s.work[Least(ready)].source == Peer {
      TakePeersLongest(s.work, ready, now, MAX_MEMBERS);
    }
  }
}
