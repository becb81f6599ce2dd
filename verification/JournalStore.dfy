/** The journal as its single owner keeps it: tables updated step by step inside transactions
    that validate before they commit and restore everything when they raise. Each operation is
    proved equal to its transaction in `JournalModel`. */
module JournalStore {
  import opened Common
  import opened JournalModel
  import opened JournalProofs

  /* ----- counting while looping ----- */

  lemma CountersFold(c: Counters, a: Counters, b: Counters)
    requires Natural(b)
    ensures Accrue(Accrue(c, a), b) == Accrue(c, Plus(a, b))
  {}

  lemma IgnoredFold(c: Counters, n: int, b: Counters)
    requires Natural(b) && b.ignored == 0
    ensures Accrue(Accrue(c, One(CIgnored, n)), b) == Accrue(c, b.(ignored := n))
  {
    CountersFold(c, One(CIgnored, n), b);
    assert Plus(One(CIgnored, n), b) == b.(ignored := n);
  }

  // Advancing looks at the rows and the two positions, never at the counters.
  lemma AdvanceApart(s: State, c: Counters, through: Option<int>)
    requires through.Some? ==> s.scan <= through.value
    ensures Advance(s.(counters := c), through) ==
            Progress(Advance(s, through).state.(counters := c), Advance(s, through).bumps)
  {}

  lemma TallyStep(work: map<int, Row>, part: set<int>, q: int, d: Disposition)
    requires q in work && q !in part
    ensures Tally(work, part + {q}, d) == Tally(work, part, d) + (if work[q].disposition == d then 1 else 0)
  {
    var before := set x | x in part && x in work && work[x].disposition == d;
    var after := set x | x in part + {q} && x in work && work[x].disposition == d;
    assert forall x :: x in after <==> x in before || (x == q && work[q].disposition == d);
    assert after == if work[q].disposition == d then before + {q} else before;
  }

  lemma CrossedStep(work: map<int, Row>, part: set<int>, q: int)
    requires q in work && q !in part && Settled(work[q])
    ensures CrossedBumps(work, part + {q}) == Plus(CrossedBumps(work, part), One(CounterOf(work[q].disposition), 1))
  {
    hide Tally;
    TallyStep(work, part, q, Delivered);
    TallyStep(work, part, q, Acknowledged);
    TallyStep(work, part, q, Obsolete);
  }

  // The part of the crossed rows a loop has already visited.
  function Visited(rows: map<int, Row>, frontier: int, todo: set<int>): set<int> {
    Crossed(rows, frontier) - todo
  }

  lemma VisitedStep(rows: map<int, Row>, frontier: int, todo: set<int>, q: int)
    requires q in todo && q in rows
    ensures var before, after := Visited(rows, frontier, todo), Visited(rows, frontier, todo - {q});
      if q <= frontier && Settled(rows[q]) then after == before + {q} && q !in before else after == before
  {}

  lemma RetireCounts(rows: map<int, Row>, frontier: int, todo: set<int>, q: int, c: Counters)
    requires q in todo && q in rows && q <= frontier && Settled(rows[q])
    ensures Accrue(Accrue(c, CrossedBumps(rows, Visited(rows, frontier, todo))), One(CounterOf(rows[q].disposition), 1)) ==
            Accrue(c, CrossedBumps(rows, Visited(rows, frontier, todo - {q})))
  {
    VisitedStep(rows, frontier, todo, q);
    CrossedStep(rows, Visited(rows, frontier, todo), q);
    CountersFold(c, CrossedBumps(rows, Visited(rows, frontier, todo)), One(CounterOf(rows[q].disposition), 1));
  }

  lemma RetireStep(rows: map<int, Row>, frontier: int, todo: set<int>, q: int)
    requires q in todo && q in rows && q <= frontier && Settled(rows[q])
    ensures rows - Visited(rows, frontier, todo - {q}) == (rows - Visited(rows, frontier, todo)) - {q}
  {
    VisitedStep(rows, frontier, todo, q);
  }

  lemma GrowByOne(before: set<int>, after: set<int>, q: int, added: bool)
    requires q !in before
    requires forall x :: x in after <==> x in before || (x == q && added)
    ensures |after| == |before| + (if added then 1 else 0)
  {
    var expected := if added then before + {q} else before;
    assert forall x :: x in after <==> x in expected;
    assert after == expected;
  }

  // Counters are kept under the names of the dispositions they count.
  function CounterOf(d: Disposition): Counter {
    match d
    case Delivered => CDelivered
    case Acknowledged => CAcknowledged
    case Obsolete => CObsolete
    case Failed => CFailed
    case _ => CUnknown
  }

  lemma ReserveStep(rows: map<int, Row>, part: set<int>, q: int)
    requires q in rows
    ensures ReserveWork(rows, part + {q}) == ReserveWork(rows, part)[q := ReserveRow(rows[q])]
  {}

  lemma RetryStep(rows: map<int, Row>, part: set<int>, q: int)
    requires q in rows
    ensures RetryWork(rows, part + {q}) == RetryWork(rows, part)[q := RetryRow(rows[q])]
  {}

  lemma ResolveStep(rows: map<int, Row>, part: set<int>, outcome: Outcome, now: int, q: int)
    requires q in rows
    ensures ResolveWork(rows, part + {q}, outcome, now) == ResolveWork(rows, part, outcome, now)[q := ResolveRow(rows[q], outcome, now)]
  {}

  function ExhaustBumps(rows: map<int, Row>, part: set<int>, outcome: Outcome): Counters {
    ZERO.(failed := Exhaustion(rows, part, outcome, Failed), unknown := Exhaustion(rows, part, outcome, Unknown))
  }

  lemma ExhaustionStep(rows: map<int, Row>, part: set<int>, outcome: Outcome, q: int, d: Disposition)
    requires q in rows && q !in part
    ensures Exhaustion(rows, part + {q}, outcome, d) == Exhaustion(rows, part, outcome, d)
      + (if Exhausted(rows[q], outcome) && ResolveRow(rows[q], outcome, 0).disposition == d then 1 else 0)
  {
    GrowByOne(ExhaustedRows(rows, part, outcome, d), ExhaustedRows(rows, part + {q}, outcome, d), q,
              Exhausted(rows[q], outcome) && ResolveRow(rows[q], outcome, 0).disposition == d);
  }

  lemma ExhaustStep(rows: map<int, Row>, part: set<int>, outcome: Outcome, q: int)
    requires q in rows && q !in part
    ensures ExhaustBumps(rows, part + {q}, outcome) ==
      if Exhausted(rows[q], outcome)
      then Plus(ExhaustBumps(rows, part, outcome), One(CounterOf(ResolveRow(rows[q], outcome, 0).disposition), 1))
      else ExhaustBumps(rows, part, outcome)
  {
    hide Exhaustion;
    ExhaustionStep(rows, part, outcome, q, Failed);
    ExhaustionStep(rows, part, outcome, q, Unknown);
  }

  lemma SettleStep(rows: map<int, Row>, part: set<int>, outcome: Outcome, now: int, q: int, c: Counters)
    requires q in rows && q !in part
    ensures ResolveWork(rows, part + {q}, outcome, now) == ResolveWork(rows, part, outcome, now)[q := ResolveRow(rows[q], outcome, now)]
    ensures Accrue(c, ExhaustBumps(rows, part + {q}, outcome)) ==
      if Exhausted(rows[q], outcome)
      then Accrue(Accrue(c, ExhaustBumps(rows, part, outcome)), One(CounterOf(ResolveRow(rows[q], outcome, 0).disposition), 1))
      else Accrue(c, ExhaustBumps(rows, part, outcome))
  {
    ResolveStep(rows, part, outcome, now, q);
    ExhaustStep(rows, part, outcome, q);
    CountersFold(c, ExhaustBumps(rows, part, outcome), One(CounterOf(ResolveRow(rows[q], outcome, 0).disposition), 1));
  }

  lemma ExhaustionNone(rows: map<int, Row>, part: set<int>, outcome: Outcome, d: Disposition)
    requires forall q :: q in part ==> q !in rows
    ensures Exhaustion(rows, part, outcome, d) == 0
  {
    assert forall q :: q !in ExhaustedRows(rows, part, outcome, d);
    assert ExhaustedRows(rows, part, outcome, d) == {};
  }

  lemma ExhaustNone(rows: map<int, Row>, part: set<int>, outcome: Outcome)
    requires forall q :: q in part ==> q !in rows
    ensures ExhaustBumps(rows, part, outcome) == ZERO
  {
    ExhaustionNone(rows, part, outcome, Failed);
    ExhaustionNone(rows, part, outcome, Unknown);
  }

  lemma ExhaustFold(c: Counters, e: Counters, b: Counters)
    requires Natural(b) && b.failed == b.unknown == 0
    requires e == ZERO.(failed := e.failed, unknown := e.unknown)
    ensures Accrue(Accrue(c, e), b) == Accrue(c, b.(failed := e.failed, unknown := e.unknown))
  {
    CountersFold(c, e, b);
    assert Plus(e, b) == b.(failed := e.failed, unknown := e.unknown);
  }

  // Counting skipped frames before advancing, or together with what advancing counts.
  lemma EnumerateCounts(s: State, skipped: int, through: int)
    requires s.scan <= through
    ensures var p := Advance(s, Some(through));
      var q := Advance(s.(counters := Accrue(s.counters, One(CIgnored, skipped))), Some(through));
      && q.state == p.state.(counters := q.state.counters)
      && p.state == s.(scan := p.state.scan, enumerated := p.state.enumerated, work := p.state.work)
      && Accrue(Accrue(s.counters, One(CIgnored, skipped)), q.bumps) == Accrue(s.counters, p.bumps.(ignored := skipped))
  {
    AdvanceCounts(s, Some(through));
    AdvanceApart(s, Accrue(s.counters, One(CIgnored, skipped)), Some(through));
    IgnoredFold(s.counters, skipped, Advance(s, Some(through)).bumps);
  }

  // Counting amounts under failed and unknown before advancing, or together with what advancing counts.
  lemma UnsettledCounts(s: State, e: Counters)
    requires e == ZERO.(failed := e.failed, unknown := e.unknown)
    ensures var p := Advance(s, None); var q := Advance(s.(counters := Accrue(s.counters, e)), None);
      && q.state == p.state.(counters := q.state.counters)
      && p.state == s.(scan := p.state.scan, enumerated := p.state.enumerated, work := p.state.work)
      && Accrue(Accrue(s.counters, e), q.bumps) == Accrue(s.counters, p.bumps.(failed := e.failed, unknown := e.unknown))
  {
    AdvanceCounts(s, None);
    AdvanceApart(s, Accrue(s.counters, e), None);
    ExhaustFold(s.counters, e, Advance(s, None).bumps);
  }

  lemma UnknownCounts(s: State, n: int)
    ensures var e := One(CUnknown, n);
      var p := Advance(s, None); var q := Advance(s.(counters := Accrue(s.counters, e)), None);
      && q.state == p.state.(counters := q.state.counters)
      && p.state == s.(scan := p.state.scan, enumerated := p.state.enumerated, work := p.state.work)
      && Accrue(Accrue(s.counters, e), q.bumps) == Accrue(s.counters, p.bumps.(unknown := n))
  {
    hide Accrue, Advance;
    UnsettledCounts(s, One(CUnknown, n));
    AdvanceCounts(s, None);
  }

  function ReconcilePart(rows: map<int, Row>, todo: set<int>, snap: Retained): map<int, Row> {
    map q | q in rows :: if q in todo then rows[q] else Judged(rows[q], Judge(q, rows[q], snap))
  }

  lemma ReconcileStep(rows: map<int, Row>, todo: set<int>, snap: Retained, q: int)
    requires q in todo && q in rows
    ensures ReconcilePart(rows, todo - {q}, snap) ==
            ReconcilePart(rows, todo, snap)[q := Judged(rows[q], Judge(q, rows[q], snap))]
  {}

  lemma UnknownStep(rows: map<int, Row>, todo: set<int>, snap: Retained, q: int)
    requires q in todo && q in rows
    ensures |NewlyUnknown(rows, snap) - (todo - {q})| == |NewlyUnknown(rows, snap) - todo|
      + (if Judge(q, rows[q], snap).Lost? && rows[q].disposition != Unknown then 1 else 0)
  {
    GrowByOne(NewlyUnknown(rows, snap) - todo, NewlyUnknown(rows, snap) - (todo - {q}), q,
              Judge(q, rows[q], snap).Lost? && rows[q].disposition != Unknown);
  }

  // Before any row is judged, and once every row has been.
  lemma Unjudged(rows: map<int, Row>, snap: Retained, c: Counters)
    requires Bounded(c)
    ensures ReconcilePart(rows, rows.Keys, snap) == rows && LostRows(rows, snap) - rows.Keys == {}
    ensures c == Accrue(c, One(CUnknown, |NewlyUnknown(rows, snap) - rows.Keys|))
    ensures Objections(rows, snap) <= rows.Keys
  {
    hide Judge, Accrue, Judged;
    assert forall q :: q in LostRows(rows, snap) ==> q in rows.Keys;
    assert forall q :: q in Objections(rows, snap) ==> q in rows.Keys;
    assert NewlyUnknown(rows, snap) - rows.Keys == {};
    NothingAccrued(c);
  }

  lemma Judgement(rows: map<int, Row>, snap: Retained)
    ensures ReconcilePart(rows, {}, snap) == ReconcileWork(rows, snap)
    ensures LostRows(rows, snap) - {} == LostRows(rows, snap)
    ensures NewlyUnknown(rows, snap) - {} == NewlyUnknown(rows, snap)
  {}

  lemma JudgeCounts(rows: map<int, Row>, todo: set<int>, snap: Retained, q: int, c: Counters)
    requires q in todo && q in rows
    ensures Accrue(c, One(CUnknown, |NewlyUnknown(rows, snap) - (todo - {q})|)) ==
      if Judge(q, rows[q], snap).Lost? && rows[q].disposition != Unknown
      then Accrue(Accrue(c, One(CUnknown, |NewlyUnknown(rows, snap) - todo|)), One(CUnknown, 1))
      else Accrue(c, One(CUnknown, |NewlyUnknown(rows, snap) - todo|))
  {
    hide Judge, Accrue, NewlyUnknown;
    UnknownStep(rows, todo, snap, q);
    CountersFold(c, One(CUnknown, |NewlyUnknown(rows, snap) - todo|), One(CUnknown, 1));
  }

  lemma JudgeStep(rows: map<int, Row>, todo: set<int>, snap: Retained, q: int)
    requires q in todo && q in rows
    ensures ReconcilePart(rows, todo, snap)[q] == rows[q]
    ensures var v := Judge(q, rows[q], snap);
      && (ReconcilePart(rows, todo - {q}, snap) == ReconcilePart(rows, todo, snap)[q := Judged(rows[q], v)])
      && (LostRows(rows, snap) - (todo - {q}) == if v.Lost? then LostRows(rows, snap) - todo + {q} else LostRows(rows, snap) - todo)
      && (Objections(rows, snap) <= todo && !v.Wrong? ==> Objections(rows, snap) <= todo - {q})
  {
    hide Judge;
    ReconcileStep(rows, todo, snap, q);
  }

  lemma FirstObjection(rows: map<int, Row>, todo: set<int>, snap: Retained, q: int)
    requires q in todo && q in rows && Judge(q, rows[q], snap).Wrong?
    requires Objections(rows, snap) <= todo && forall x :: x in todo ==> q <= x
    ensures Objections(rows, snap) != {} && Least(Objections(rows, snap)) == q
  {
    hide Judge;
    assert q in Objections(rows, snap);
  }

  lemma ReconcileDrafted(s: State, snap: Retained, missing: set<int>, after: State)
    requires s.attempt.None? && !(snap.ack.Some? && !Clock(snap.ack.value)) && Objections(s.work, snap) == {}
    requires missing == LostRows(s.work, snap)
    requires var p := Advance(s.(work := ReconcileWork(s.work, snap)), None);
      var t := p.state.(work := p.state.work - (set q | q in missing && q <= p.state.scan));
      after == t.(counters := Accrue(s.counters, p.bumps.(unknown := |NewlyUnknown(s.work, snap)|)))
    ensures Drafted(ReconcileDraft(s, snap), None, after)
  {
    hide Accrue, ReconcileWork, NewlyUnknown, LostRows, Plus, Objections;
    var p := Advance(s.(work := ReconcileWork(s.work, snap)), None);
    assert DroppedRows(s.work, snap, p.state.scan) == set q | q in missing && q <= p.state.scan;
  }

  // How an operation ends: committed as the transaction says, or raised with nothing changed.
  predicate Ended(before: State, txn: Txn, error: Option<JournalError>, after: State) {
    match txn
    case Commit(t, _) => error.None? && after == t
    case Refuse(e) => error == Some(e) && after == before
  }

  // How the body of a transaction ends, before it is validated.
  predicate Drafted(draft: Draft, error: Option<JournalError>, after: State) {
    match draft
    case Raise(e) => error == Some(e)
    case Ready(t, bumps) => error.None? && after == t.(counters := Accrue(t.counters, bumps))
  }

  lemma ResolveDrafted(s: State, outcome: Outcome, now: int, after: State)
    requires Clock(now) && s.members != {}
    requires var e := ExhaustBumps(s.work, s.members, outcome); var p := Advance(Unattempted(s, outcome, now), None);
      after == p.state.(counters := Accrue(s.counters, p.bumps.(failed := e.failed, unknown := e.unknown)))
    ensures Drafted(ResolveDraft(s, outcome, now), None, after)
  {
    hide Accrue, ResolveWork, Exhaustion, Plus;
  }

  lemma HealthDrafted(saved: State, after: State)
    requires after == saved.(counters := ZERO, historyAcknowledged := saved.historyAcknowledged || saved.historyLost)
    ensures Drafted(AcknowledgeHealthDraft(saved), None, after)
  {
    hide Accrue, Drafted;
    DraftedPlain(AcknowledgeHealthDraft(saved), after);
  }

  lemma DraftedPlain(d: Draft, after: State)
    requires d.Ready? && d.bumps == ZERO && Bounded(d.state.counters) && after == d.state
    ensures Drafted(d, None, after)
  {
    NothingAccrued(d.state.counters);
  }

  class Journal {
    var target: string
    var nonce: string
    var imported: int
    var scan: int
    var enumerated: int
    var seeded: bool
    var activated: bool
    var historyLost: bool
    var historyAcknowledged: bool
    var counters: Counters
    var work: map<int, Row>
    var attempt: Option<int>
    var members: set<int>

    function Contents(): State
      reads this
    {
      State(target, nonce, imported, scan, enumerated, seeded, activated, historyLost, historyAcknowledged,
            counters, work, attempt, members)
    }

    constructor (target: string, nonce: string, through: int, historyLost: bool)
      ensures Contents() == Fresh(target, nonce, through, historyLost)
    {
      this.target, this.nonce := target, nonce;
      imported, scan, enumerated := through, through, through;
      seeded, activated := false, false;
      this.historyLost, historyAcknowledged := historyLost, false;
      counters, work, attempt, members := ZERO, map[], None, {};
    }

    method Restore(saved: State)
      modifies this
      ensures Contents() == saved
    {
      target, nonce, imported, scan, enumerated := saved.target, saved.nonce, saved.imported, saved.scan, saved.enumerated;
      seeded, activated := saved.seeded, saved.activated;
      historyLost, historyAcknowledged := saved.historyLost, saved.historyAcknowledged;
      counters, work, attempt, members := saved.counters, saved.work, saved.attempt, saved.members;
    }

    // Validate and commit, or roll back.
    method Finish(saved: State, raised: Option<JournalError>, ghost draft: Draft) returns (error: Option<JournalError>)
      requires Drafted(draft, raised, Contents())
      modifies this
      ensures Ended(saved, Complete(draft), error, Contents())
    {
      error := raised;
      if error.None? && !Valid(Contents()) {
        error := Some(RecoveryRequired);
      }
      if error.Some? {
        Restore(saved);
      }
    }

    method Count(key: Counter, amount: int)
      modifies this`counters
      ensures counters == Accrue(old(counters), One(key, amount))
      ensures Bounded(old(counters)) && amount >= 0 ==> Bounded(counters)
    {
      counters := Accrue(counters, One(key, amount));
    }

    method Add(records: seq<Record>, historical: bool) returns (error: Option<JournalError>)
      modifies this`work
      ensures match Admit(old(work), scan, records, historical)
        case Rejected(e) => error == Some(e)
        case Admitted(after) => error.None? && work == after
    {
      var i := 0;
      while i < |records|
        invariant 0 <= i <= |records|
        invariant Admit(work, scan, records[i..], historical) == Admit(old(work), scan, records, historical)
      {
        var item := records[i];
        assert records[i..][0] == item && records[i..][1..] == records[i + 1..];
        i := i + 1;
        if !(1 <= item.sequence <= MAX_SEQUENCE) {
          return Some(InvalidCounter);
        }
        if item.sequence <= scan && !historical {
          continue;
        }
        if item.sequence in work {
          if work[item.sequence].source != item.source {
            return Some(SourceChanged);
          }
          continue;
        }
        if |work| >= MAX_WORK {
          return Some(Capacity);
        }
        work := work[item.sequence := Row(item.source, Pending, 0, 0, false)];
      }
      return None;
    }

    // Drop the settled rows the frontier has passed, counting each under what it ended as.
    method Retire(frontier: int)
      requires Bounded(counters)
      modifies this`work, this`counters
      ensures work == old(work) - Crossed(old(work), frontier)
      ensures counters == Accrue(old(counters), CrossedBumps(old(work), Crossed(old(work), frontier)))
    {
      var rows := work;
      var todo := rows.Keys;
      while todo != {}
        invariant todo <= rows.Keys
        invariant work == rows - Visited(rows, frontier, todo)
        invariant counters == Accrue(old(counters), CrossedBumps(rows, Visited(rows, frontier, todo)))
        decreases |todo|
      {
        var q := Least(todo);
        if q <= frontier && Settled(rows[q]) {
          RetireStep(rows, frontier, todo, q);
          RetireCounts(rows, frontier, todo, q, old(counters));
          Count(CounterOf(rows[q].disposition), 1);
          work := work - {q};
        } else {
          VisitedStep(rows, frontier, todo, q);
        }
        todo := todo - {q};
      }
      assert Visited(rows, frontier, todo) == Crossed(rows, frontier);
    }

    method Move(through: Option<int>)
      requires Bounded(counters)
      requires through.Some? ==> scan <= through.value
      requires scan <= enumerated
      modifies this`scan, this`enumerated, this`work, this`counters
      ensures var p := Advance(old(Contents()), through);
        && scan == p.state.scan && enumerated == p.state.enumerated && work == p.state.work
        && counters == Accrue(old(counters), p.bumps)
    {
      var high := enumerated;
      if through.Some? {
        high := Max(high, through.value);
        enumerated := high;
      }
      var waiting := WaitingAbove(work, scan);
      var eligible := if waiting == {} then high else Min(high, Least(waiting) - 1);
      scan := Max(scan, eligible);
      Retire(scan);
    }

    method Ingest(snap: Scan) returns (error: Option<JournalError>)
      requires Bounded(counters) && scan <= enumerated
      modifies this
      ensures Ended(old(Contents()), JournalModel.Ingest(old(Contents()), snap), error, Contents())
    {
      var saved := Contents();
      var raised := IngestBody(snap);
      error := Finish(saved, raised, IngestDraft(saved, snap));
    }

    method IngestBody(snap: Scan) returns (error: Option<JournalError>)
      requires Bounded(counters) && scan <= enumerated
      modifies this
      ensures Drafted(IngestDraft(old(Contents()), snap), error, Contents())
    {
      if !(scan <= snap.through <= MAX_SEQUENCE) {
        return Some(InvalidCounter);
      }
      if !RecordsWithin(snap.records, snap.through) || !IgnoredWithin(snap) {
        return Some(SourceChanged);
      }
      var known := enumerated;
      error := Add(snap.records, false);
      if error.None? {
        Enumerate(snap, |NewlyIgnored(snap.ignored, known)|);
      }
    }

    // Count the skipped frames and move on to the end of the scanned range.
    method Enumerate(snap: Scan, skipped: int)
      requires Bounded(counters) && scan <= enumerated && scan <= snap.through && skipped >= 0
      modifies this
      ensures var p := Advance(old(Contents()), Some(snap.through));
        Contents() == p.state.(counters := Accrue(old(counters), p.bumps.(ignored := skipped)))
    {
      hide Accrue, Advance, Plus;
      ghost var s := Contents();
      Count(CIgnored, skipped);
      Move(Some(snap.through));
      EnumerateCounts(s, skipped, snap.through);
    }

    method SeedPointers(records: seq<Record>) returns (error: Option<JournalError>, changed: bool)
      requires Bounded(counters)
      modifies this
      ensures Ended(old(Contents()), Seed(old(Contents()), records), error, Contents())
      ensures changed == (error.None? && !old(seeded))
    {
      var saved := Contents();
      var raised: Option<JournalError> := None;
      if !seeded {
        if |records| > POINTER_LIMIT || exists r :: r in records && r.source.Peer? {
          raised := Some(SourceChanged);
        } else {
          raised := Add(records, true);
          if raised.None? {
            seeded := true;
          }
        }
      }
      changed := !saved.seeded && raised.None?;
      error := Finish(saved, raised, SeedDraft(saved, records));
      changed := changed && error.None?;
    }

    method Reserve(sequences: seq<int>, now: int) returns (error: Option<JournalError>)
      requires Bounded(counters)
      modifies this
      ensures Ended(old(Contents()), JournalModel.Reserve(old(Contents()), sequences, now), error, Contents())
    {
      var saved := Contents();
      var raised := ReserveBody(sequences, now);
      error := Finish(saved, raised, ReserveDraft(saved, sequences, now));
    }

    method ReserveBody(sequences: seq<int>, now: int) returns (error: Option<JournalError>)
      modifies this
      ensures Drafted(ReserveDraft(old(Contents()), sequences, now), error, Contents())
    {
      hide OneKind, Accrue, ReserveWork;
      if !Clock(now) {
        return Some(InvalidCounter);
      }
      if !Selection(sequences) {
        return Some(InvalidReservation);
      }
      if !activated || !seeded {
        return Some(NotReady);
      }
      if attempt.Some? {
        return Some(AttemptInProgress);
      }
      if exists q :: q in sequences && !(q in work && work[q].disposition == Pending && work[q].retryAt <= now
                                         && work[q].attempts < MAX_ATTEMPTS) {
        return Some(InvalidReservation);
      }
      if !OneKind(work, Elements(sequences)) {
        return Some(InvalidReservation);
      }
      ghost var s := Contents();
      assert forall q :: q in sequences ==> Reservable(s, q, now);
      attempt := Some(now);
      members := {};
      Mark(sequences);
      Count(CAttempts, |sequences|);
      error := None;
    }

    method Mark(sequences: seq<int>)
      requires members == {} && Distinct(sequences) && forall q :: q in sequences ==> q in work
      modifies this`work, this`members
      ensures work == ReserveWork(old(work), Elements(sequences)) && members == Elements(sequences)
    {
      var rows := work;
      var i := 0;
      while i < |sequences|
        invariant 0 <= i <= |sequences|
        invariant work == ReserveWork(rows, Elements(sequences[..i])) && members == Elements(sequences[..i])
      {
        var q := sequences[i];
        assert q !in sequences[..i];
        assert Elements(sequences[..i + 1]) == Elements(sequences[..i]) + {q};
        ReserveStep(rows, Elements(sequences[..i]), q);
        work := work[q := ReserveRow(work[q])];
        members := members + {q};
        i := i + 1;
      }
      assert sequences[..i] == sequences;
    }

    method Resolve(outcome: Outcome, now: int) returns (error: Option<JournalError>)
      requires Bounded(counters) && scan <= enumerated
      modifies this
      ensures Ended(old(Contents()), JournalModel.Resolve(old(Contents()), outcome, now), error, Contents())
    {
      var saved := Contents();
      var raised := ResolveBody(outcome, now);
      error := Finish(saved, raised, ResolveDraft(saved, outcome, now));
    }

    method SettleRow(q: int, row: Row, outcome: Outcome, now: int)
      modifies this`work, this`counters
      ensures work == old(work)[q := ResolveRow(row, outcome, now)]
      ensures counters == if Exhausted(row, outcome)
        then Accrue(old(counters), One(CounterOf(ResolveRow(row, outcome, 0).disposition), 1)) else old(counters)
    {
      var uncertain := row.uncertain || outcome == OutcomeUnknown;
      if outcome == OutcomeDelivered {
        work := work[q := row.(disposition := Delivered, retryAt := 0, uncertain := uncertain)];
      } else if row.attempts >= MAX_ATTEMPTS {
        var d := if uncertain then Unknown else Failed;
        Count(CounterOf(d), 1);
        work := work[q := row.(disposition := d, retryAt := 0, uncertain := uncertain)];
      } else {
        work := work[q := row.(disposition := Pending, retryAt := Backoff(row.attempts, now), uncertain := uncertain)];
      }
    }

    // Give every member of the attempt its outcome, counting those that have no attempt left.
    method Settle(outcome: Outcome, now: int)
      requires Bounded(counters)
      modifies this`work, this`counters
      ensures work == ResolveWork(old(work), members, outcome, now)
      ensures counters == Accrue(old(counters), ExhaustBumps(old(work), members, outcome)) && Bounded(counters)
    {
      var rows := work;
      var todo := rows.Keys;
      ExhaustNone(rows, members - todo, outcome);
      while todo != {}
        invariant todo <= rows.Keys
        invariant work == ResolveWork(rows, members - todo, outcome, now)
        invariant counters == Accrue(old(counters), ExhaustBumps(rows, members - todo, outcome))
        decreases |todo|
      {
        var q := Least(todo);
        if q in members {
          assert members - (todo - {q}) == (members - todo) + {q};
          SettleStep(rows, members - todo, outcome, now, q, old(counters));
          SettleRow(q, rows[q], outcome, now);
        } else {
          assert members - (todo - {q}) == members - todo;
        }
        todo := todo - {q};
      }
      assert members - todo == members;
    }

    method ResolveBody(outcome: Outcome, now: int) returns (error: Option<JournalError>)
      requires Bounded(counters) && scan <= enumerated
      modifies this
      ensures Drafted(ResolveDraft(old(Contents()), outcome, now), error, Contents())
    {
      hide Accrue, Advance, Plus, ResolveWork, Exhaustion, ExhaustedRows;
      if !Clock(now) {
        return Some(InvalidCounter);
      }
      if members == {} {
        return Some(NoAttempt);
      }
      ghost var s := Contents();
      Settle(outcome, now);
      members := {};
      attempt := None;
      ghost var s' := Unattempted(s, outcome, now);
      ghost var e := ExhaustBumps(s.work, s.members, outcome);
      assert Contents() == s'.(counters := Accrue(s'.counters, e));
      Move(None);
      UnsettledCounts(s', e);
      ResolveDrafted(s, outcome, now, Contents());
      error := None;
    }

    method RecoverAttempt(now: int) returns (error: Option<JournalError>, recovered: bool)
      requires Bounded(counters) && scan <= enumerated
      modifies this
      ensures Ended(old(Contents()), Recover(old(Contents()), now), error, Contents())
      ensures recovered <==> old(attempt).Some? && error.None?
    {
      if attempt.None? {
        return None, false;
      }
      error := Resolve(OutcomeUnknown, now);
      recovered := error.None?;
    }

    method Retry(sequences: seq<int>) returns (error: Option<JournalError>)
      requires Bounded(counters)
      modifies this
      ensures Ended(old(Contents()), JournalModel.Retry(old(Contents()), sequences), error, Contents())
    {
      var saved := Contents();
      var raised := RetryBody(sequences);
      error := Finish(saved, raised, RetryDraft(saved, sequences));
    }

    method RetryBody(sequences: seq<int>) returns (error: Option<JournalError>)
      requires Bounded(counters)
      modifies this
      ensures Drafted(RetryDraft(old(Contents()), sequences), error, Contents())
    {
      if !Selection(sequences) {
        return Some(InvalidRetry);
      }
      if exists q :: q in sequences && !(q in work && work[q].disposition in {Failed, Unknown}) {
        return Some(InvalidRetry);
      }
      ghost var s := Contents();
      assert forall q :: q in sequences ==> Retriable(s, q);
      Revive(sequences);
      error := None;
    }

    method Revive(sequences: seq<int>)
      requires Distinct(sequences) && forall q :: q in sequences ==> q in work
      modifies this`work
      ensures work == RetryWork(old(work), Elements(sequences))
    {
      var rows := work;
      var i := 0;
      while i < |sequences|
        invariant 0 <= i <= |sequences|
        invariant work == RetryWork(rows, Elements(sequences[..i]))
      {
        var q := sequences[i];
        assert q !in sequences[..i];
        assert Elements(sequences[..i + 1]) == Elements(sequences[..i]) + {q};
        RetryStep(rows, Elements(sequences[..i]), q);
        work := work[q := RetryRow(work[q])];
        i := i + 1;
      }
      assert sequences[..i] == sequences;
    }

    method Reconcile(snap: Retained) returns (error: Option<JournalError>)
      requires Bounded(counters) && scan <= enumerated
      modifies this
      ensures Ended(old(Contents()), JournalModel.Reconcile(old(Contents()), snap), error, Contents())
    {
      var saved := Contents();
      var raised := ReconcileBody(snap);
      error := Finish(saved, raised, ReconcileDraft(saved, snap));
    }

    method ReconcileBody(snap: Retained) returns (error: Option<JournalError>)
      requires Bounded(counters) && scan <= enumerated
      modifies this
      ensures Drafted(ReconcileDraft(old(Contents()), snap), error, Contents())
    {
      hide Accrue, Advance, Plus, ReconcileWork, NewlyUnknown, LostRows, Judge;
      if attempt.Some? {
        return Some(AttemptInProgress);
      }
      if snap.ack.Some? && !Clock(snap.ack.value) {
        return Some(InvalidCounter);
      }
      ghost var s := Contents();
      var missing;
      error, missing := JudgeRows(snap);
      if error.None? {
        Leave(s, snap, missing);
      }
    }

    // Move the frontier over the judged rows and drop the unaccounted ones it has passed.
    method Leave(ghost s: State, snap: Retained, missing: set<int>)
      requires s.attempt.None? && !(snap.ack.Some? && !Clock(snap.ack.value)) && Objections(s.work, snap) == {}
      requires missing == LostRows(s.work, snap)
      requires Contents() == s.(work := ReconcileWork(s.work, snap),
                                counters := Accrue(s.counters, One(CUnknown, |NewlyUnknown(s.work, snap)|)))
      requires Bounded(counters) && scan <= enumerated
      modifies this`scan, this`enumerated, this`work, this`counters
      ensures Drafted(ReconcileDraft(s, snap), None, Contents())
    {
      hide Accrue, Advance, Plus, ReconcileWork, NewlyUnknown, LostRows, Objections, Drafted, ReconcileDraft;
      ghost var s' := s.(work := ReconcileWork(s.work, snap));
      Move(None);
      UnknownCounts(s', |NewlyUnknown(s.work, snap)|);
      work := work - (set q | q in missing && q <= scan);
      ReconcileDrafted(s, snap, missing, Contents());
    }

    // Judge every row against the snapshot, in order, until one contradicts it. Rows an old
    // bridge can no longer account for are reported back.
    method JudgeRows(snap: Retained) returns (error: Option<JournalError>, missing: set<int>)
      requires Bounded(counters)
      modifies this`work, this`counters
      ensures error.None? <==> Objections(old(work), snap) == {}
      ensures error.Some? ==> error.value == Judge(Least(Objections(old(work), snap)), old(work)[Least(Objections(old(work), snap))], snap).error
      ensures error.None? ==> work == ReconcileWork(old(work), snap) && missing == LostRows(old(work), snap)
      ensures error.None? ==> counters == Accrue(old(counters), One(CUnknown, |NewlyUnknown(old(work), snap)|)) && Bounded(counters)
    {
      var rows := work;
      var retained := Index(snap.records);
      var todo := rows.Keys;
      missing := {};
      Unjudged(rows, snap, counters);
      while todo != {}
        invariant todo <= rows.Keys && Bounded(counters)
        invariant Objections(rows, snap) <= todo
        invariant work == ReconcilePart(rows, todo, snap) && missing == LostRows(rows, snap) - todo
        invariant counters == Accrue(old(counters), One(CUnknown, |NewlyUnknown(rows, snap) - todo|))
        decreases |todo|
      {
        var q := Least(todo);
        ghost var v := Judge(q, rows[q], snap);
        var row := rows[q];
        JudgeStep(rows, todo, snap, q);
        JudgeCounts(rows, todo, snap, q, old(counters));
        error, missing := JudgeRow(q, row, retained, snap, missing);
        if error.Some? {
          FirstObjection(rows, todo, snap, q);
          return;
        }
        todo := todo - {q};
      }
      error := None;
      Judgement(rows, snap);
    }

    method JudgeRow(q: int, row: Row, retained: map<int, Source>, snap: Retained, known: set<int>)
      returns (error: Option<JournalError>, missing: set<int>)
      requires q in work && work[q] == row && retained == Index(snap.records)
      modifies this`work, this`counters
      ensures error == (if Judge(q, row, snap).Wrong? then Some(Judge(q, row, snap).error) else None)
      ensures error.None? ==> work == old(work)[q := Judged(row, Judge(q, row, snap))]
      ensures error.None? ==> missing == if Judge(q, row, snap).Lost? then known + {q} else known
      ensures counters == if Judge(q, row, snap).Lost? && row.disposition != Unknown
        then Accrue(old(counters), One(CUnknown, 1)) else old(counters)
      ensures Bounded(old(counters)) ==> Bounded(counters)
    {
      hide Accrue;
      missing, error := known, None;
      if Settled(row) {
        return;
      }
      var disposition;
      if snap.ack.Some? && q <= snap.ack.value {
        disposition := Acknowledged;
      } else if q in retained {
        if retained[q] != row.source {
          error := Some(SourceChanged);
        }
        return;
      } else if row.source.Pointer? {
        if snap.bindings.None? || snap.pointers.None? {
          return;
        }
        if !Replaced(q, row.source, snap.bindings.value, snap.pointers.value) {
          error := Some(SourceMissing);
          return;
        }
        disposition := Obsolete;
      } else if snap.ack.None? {
        disposition := Unknown;
        if row.disposition != Unknown {
          Count(CUnknown, 1);
        }
        work := work[q := work[q].(uncertain := true)];
        missing := missing + {q};
      } else {
        error := Some(SourceMissing);
        return;
      }
      work := work[q := work[q].(disposition := disposition, retryAt := 0)];
    }

    method ConfirmActivation(evidence: Evidence) returns (error: Option<JournalError>)
      requires Bounded(counters)
      modifies this
      ensures Ended(old(Contents()), Confirm(old(Contents()), evidence), error, Contents())
    {
      var saved := Contents();
      var raised: Option<JournalError> := None;
      if evidence != Evidence(target, nonce) {
        raised := Some(ActivationMismatch);
      } else {
        activated := true;
      }
      error := Finish(saved, raised, ConfirmDraft(saved, evidence));
    }

    method AcknowledgeHealth() returns (error: Option<JournalError>, cleared: Counters)
      modifies this
      ensures Ended(old(Contents()), JournalModel.AcknowledgeHealth(old(Contents())), error, Contents())
      ensures cleared == old(counters)
    {
      hide Drafted, Accrue, Ended;
      var saved := Contents();
      cleared := counters;
      counters := ZERO;
      if historyLost {
        historyAcknowledged := true;
      }
      HealthDrafted(saved, Contents());
      error := Finish(saved, None, AcknowledgeHealthDraft(saved));
    }

    method DueNow(now: int, memory: bool) returns (error: Option<JournalError>, selected: seq<int>)
      ensures error == if Clock(now) then None else Some(InvalidCounter)
      ensures selected == if Clock(now) then Due(Contents(), now, memory) else []
    {
      if !Clock(now) {
        return Some(InvalidCounter), [];
      }
      error := None;
      var ready := ReadySet(work, memory);
      if ready == {} {
        return None, [];
      }
      var first := Least(ready);
      if work[first].retryAt > now {
        return None, [];
      }
      if work[first].source.Pointer? {
        return None, [first];
      }
      selected := TakeReady(ready, now);
    }

    method TakeReady(ready: set<int>, now: int) returns (selected: seq<int>)
      requires forall q :: q in ready ==> q in work
      ensures selected == TakePeers(work, ready, now, MAX_MEMBERS)
    {
      selected := [];
      var todo := ready;
      while todo != {}
        invariant todo <= ready && |selected| <= MAX_MEMBERS
        invariant selected + TakePeers(work, todo, now, MAX_MEMBERS - |selected|) == TakePeers(work, ready, now, MAX_MEMBERS)
        decreases |todo|
      {
        var q := Least(todo);
        if work[q].source != Peer || work[q].retryAt > now || |selected| == MAX_MEMBERS {
          break;
        }
        assert selected + ([q] + TakePeers(work, todo - {q}, now, MAX_MEMBERS - |selected| - 1)) ==
               (selected + [q]) + TakePeers(work, todo - {q}, now, MAX_MEMBERS - |selected| - 1);
        selected := selected + [q];
        todo := todo - {q};
      }
    }
  }
}
