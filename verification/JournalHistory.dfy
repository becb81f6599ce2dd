/** What holds after every run of the journal: the books balance, the attempt budget is kept,
    outcomes are reported honestly, and a delivered notice is never sent again. */
module JournalHistory {
  import opened Common
  import opened JournalModel
  import opened JournalProofs
  import opened JournalRuns

  // Everything known about one sequence number: its row, and what history says of it.
  datatype Life = Life(row: Option<Row>, tries: int, known: bool, outcomes: seq<Outcome>,
                       delivered: bool, lost: bool, ignored: bool)

  function Lookup(work: map<int, Row>, q: int): Option<Row> {
    if q in work then Some(work[q]) else None
  }

  function LifeOf(s: State, h: History, q: int): Life {
    Life(Lookup(s.work, q), Tries(h, q), q in h.tries, Outcomes(h, q), q in h.delivered, q in h.lost, q in h.ignored)
  }

  predicate Honest(l: Life, q: int, scan: int, enumerated: int, seeded: bool) {
    && l.tries <= MAX_ATTEMPTS
    && (!l.known ==> l.tries == 0)
    && (l.known || l.outcomes != [] ==> seeded && (l.row.None? ==> q <= scan))
    && (l.delivered <==> OutcomeDelivered in l.outcomes)
    && (l.ignored ==> q <= enumerated)
    && (l.row.Some? ==>
          var r := l.row.value;
          && l.tries == r.attempts
          && (l.delivered <==> r.disposition == Delivered)
          && (OutcomeUnknown in l.outcomes ==> r.uncertain)
          && (r.uncertain ==> OutcomeUnknown in l.outcomes || l.lost)
          && r.attempts <= |l.outcomes| + (if r.disposition == Reserved then 1 else 0)
          && (Settled(r) ==> q > scan))
  }

  // The history of one sequence number, against what the journal still knows of it.
  predicate RowStory(s: State, h: History, q: int) {
    Honest(LifeOf(s, h, q), q, s.scan, s.enumerated, s.seeded)
  }

  predicate Books(s: State, h: History) {
    && h.admitted == |s.work| + h.total.delivered + h.total.acknowledged + h.total.obsolete + h.dropped
    && h.total.attempts == h.reserved
    && h.total.ignored == |h.ignored|
    && s.counters == Saturated(h.since)
  }

  ghost predicate AllStories(s: State, h: History) {
    forall q {:trigger RowStory(s, h, q)} :: RowStory(s, h, q)
  }

  ghost predicate Story(j: Journey) {
    && Valid(j.state)
    && AtFrontier(j.state)
    && Books(j.state, j.history)
    && AllStories(j.state, j.history)
  }

  lemma BeginsWell(target: string, nonce: string, through: int, historyLost: bool)
    requires Hex(target, 64) && Hex(nonce, 32) && 0 <= through <= MAX_SEQUENCE
    ensures Story(Journey(Fresh(target, nonce, through, historyLost), EMPTY_HISTORY))
  {
    var s := Fresh(target, nonce, through, historyLost);
    NoneReserved(s.work);
    forall q ensures RowStory(s, EMPTY_HISTORY, q) {}
  }

  // What a committed transaction was entitled to do to a row.
  predicate Entitled(r: Row, touch: Touch, seeded: bool) {
    match touch
    case Untouched => true
    case Reserving => seeded && r.disposition == Pending && r.attempts < MAX_ATTEMPTS
    case Resolving(_, _) => seeded && r.disposition == Reserved
    case Retrying => r.disposition in {Failed, Unknown}
    case Reconciling(v) =>
      && r.disposition != Reserved && (Settled(r) ==> v == Keep)
      && (v.Close? ==> v.disposition in {Acknowledged, Obsolete})
  }

  lemma DraftEntitled(s: State, op: Op, q: int)
    requires Sound(s) && DraftOf(s, op).Ready? && q in s.work
    ensures Entitled(s.work[q], TouchOf(s, op, q), s.seeded)
  {
    assert s.members == ReservedRows(s.work);
    assert s.work[q].disposition == Reserved <==> q in ReservedRows(s.work);
  }

  // A reservation or resolution names only rows of the journal.
  lemma DraftNamesRows(s: State, op: Op, q: int)
    requires Sound(s) && DraftOf(s, op).Ready? && q !in s.work
    ensures op.DoReserve? || op.DoRetry? ==> q !in op.seqs
    ensures ResolvedAs(s, op).Some? ==> q !in s.members
  {
    assert s.members == ReservedRows(s.work);
  }

  lemma IngestReaches(s: State, op: Op)
    requires DraftOf(s, op).Ready? && op.DoIngest?
    ensures DraftOf(s, op).state.enumerated >= op.scan.through
    ensures forall q :: q in op.scan.ignored ==> q <= op.scan.through
  {}

  function TriesOn(tries: int, touch: Touch): int {
    match touch
    case Reserving => tries + 1
    case Retrying => 0
    case _ => tries
  }

  function OutcomesOn(outcomes: seq<Outcome>, touch: Touch): seq<Outcome> {
    if touch.Resolving? then outcomes + [touch.outcome] else outcomes
  }

  function LiveOn(l: Life, touch: Touch, row: Option<Row>, ignored: bool): Life {
    Life(row, TriesOn(l.tries, touch), l.known || touch.Reserving?, OutcomesOn(l.outcomes, touch),
         l.delivered || (touch.Resolving? && touch.outcome == OutcomeDelivered),
         l.lost || touch == Reconciling(Lost),
         l.ignored || ignored)
  }

  function Touching(s: State, op: Op, q: int): Touch {
    if q in s.work then TouchOf(s, op, q) else Untouched
  }

  predicate NamesRow(s: State, op: Op, q: int) {
    q !in s.work ==>
      && (op.DoReserve? || op.DoRetry? ==> q !in op.seqs)
      && (ResolvedAs(s, op).Some? ==> q !in s.members)
  }

  lemma TriesRow(s: State, h: History, op: Op, q: int)
    requires NamesRow(s, op, q)
    ensures var tries := TriesAfter(h, op); var touch := Touching(s, op, q);
      && (if q in tries then tries[q] else 0) == TriesOn(Tries(h, q), touch)
      && (q in tries <==> q in h.tries || touch.Reserving?)
  {
    hide Judge;
    assert op.DoReserve? ==> (q in Elements(op.seqs) <==> q in op.seqs);
  }

  lemma ObserveTries(s: State, h: History, op: Op, t: State, bumps: Counters, q: int)
    requires NamesRow(s, op, q)
    ensures var h' := Observe(s, h, op, t, bumps); var touch := Touching(s, op, q);
      && Tries(h', q) == TriesOn(Tries(h, q), touch)
      && (q in h'.tries <==> q in h.tries || touch.Reserving?)
  {
    hide OutcomesAfter, LostBy, NewlyIgnored, Plus, ResolvedAs, TriesAfter, TouchOf, TriesOn;
    TriesRow(s, h, op, q);
  }

  lemma OutcomesRow(h: History, members: set<int>, resolved: Option<Outcome>, q: int)
    ensures var outcomes := OutcomesAfter(h, members, resolved);
      (if q in outcomes then outcomes[q] else []) ==
      (if resolved.Some? && q in members then Outcomes(h, q) + [resolved.value] else Outcomes(h, q))
  {}

  lemma ResolvedRow(s: State, op: Op, q: int)
    requires NamesRow(s, op, q)
    ensures var touch := Touching(s, op, q);
      && (touch.Resolving? <==> ResolvedAs(s, op).Some? && q in s.members)
      && (touch.Resolving? ==> ResolvedAs(s, op) == Some(touch.outcome))
  {
    hide Judge;
  }

  lemma ObserveOutcomes(s: State, h: History, op: Op, t: State, bumps: Counters, q: int)
    requires NamesRow(s, op, q)
    ensures Outcomes(Observe(s, h, op, t, bumps), q) == OutcomesOn(Outcomes(h, q), Touching(s, op, q))
  {
    hide TriesAfter, LostBy, NewlyIgnored, Plus, Touching, ResolvedAs, OutcomesAfter;
    OutcomesRow(h, s.members, ResolvedAs(s, op), q);
    ResolvedRow(s, op, q);
  }

  lemma ObserveDelivered(s: State, h: History, op: Op, t: State, bumps: Counters, q: int)
    requires NamesRow(s, op, q)
    ensures var h' := Observe(s, h, op, t, bumps); var touch := Touching(s, op, q);
      q in h'.delivered <==> q in h.delivered || (touch.Resolving? && touch.outcome == OutcomeDelivered)
  {
    hide TriesAfter, OutcomesAfter, Plus, Touching, LostBy, NewlyIgnored, ResolvedAs;
    ResolvedRow(s, op, q);
  }

  lemma LostRow(s: State, op: Op, q: int)
    ensures q in LostBy(s, op) <==> Touching(s, op, q) == Reconciling(Lost)
  {
    hide Judge;
  }

  lemma ObserveLost(s: State, h: History, op: Op, t: State, bumps: Counters, q: int)
    ensures q in Observe(s, h, op, t, bumps).lost <==> q in h.lost || Touching(s, op, q) == Reconciling(Lost)
  {
    hide TriesAfter, OutcomesAfter, Plus, Touching, LostBy, NewlyIgnored, ResolvedAs;
    LostRow(s, op, q);
  }

  lemma ObserveIgnored(s: State, h: History, op: Op, t: State, bumps: Counters, q: int)
    ensures q in Observe(s, h, op, t, bumps).ignored <==> q in h.ignored || IgnoredBy(s, op, q)
  {
    hide TriesAfter, OutcomesAfter, Plus, LostBy, ResolvedAs;
    assert op.DoIngest? ==> Observe(s, h, op, t, bumps).ignored == h.ignored + NewlyIgnored(op.scan.ignored, s.enumerated);
  }

  predicate IgnoredBy(s: State, op: Op, q: int) {
    op.DoIngest? && q in op.scan.ignored && q > s.enumerated
  }

  // The observer writes about a sequence number exactly what the transaction did to its row.
  lemma ObserveRow(s: State, h: History, op: Op, t: State, bumps: Counters, q: int)
    requires NamesRow(s, op, q)
    ensures LifeOf(t, Observe(s, h, op, t, bumps), q) ==
      LiveOn(LifeOf(s, h, q), Touching(s, op, q), Lookup(t.work, q), IgnoredBy(s, op, q))
  {
    ObserveTries(s, h, op, t, bumps, q);
    ObserveOutcomes(s, h, op, t, bumps, q);
    ObserveDelivered(s, h, op, t, bumps, q);
    ObserveLost(s, h, op, t, bumps, q);
    ObserveIgnored(s, h, op, t, bumps, q);
    hide Observe, TouchOf, ResolvedAs, Tries, Outcomes;
  }

  lemma LifeStep(l: Life, touch: Touch, row: Option<Row>, ignored: bool, q: int,
                 scan: int, enumerated: int, seeded: bool, scan': int, enumerated': int, seeded': bool)
    requires Honest(l, q, scan, enumerated, seeded)
    requires scan <= scan' && enumerated <= enumerated' && (seeded ==> seeded')
    requires l.row.Some? ==> Entitled(l.row.value, touch, seeded)
    requires l.row.None? ==> touch == Untouched
    requires l.row.Some? && row.Some? ==> row.value == Touched(l.row.value, touch)
    requires l.row.Some? && row.None? ==> q <= scan'
    requires l.row.None? && row.Some? ==> row.value == Row(row.value.source, Pending, 0, 0, false) && (q > scan || !seeded)
    requires row.Some? && Settled(row.value) && q <= scan' ==> l.row.Some? && Settled(l.row.value) && q <= scan
    requires ignored ==> q <= enumerated'
    ensures Honest(LiveOn(l, touch, row, ignored), q, scan', enumerated', seeded')
  {
    if touch.Resolving? {
      var os := l.outcomes + [touch.outcome];
      assert os[|l.outcomes|] == touch.outcome;
      assert forall o :: o in os <==> o in l.outcomes || o == touch.outcome;
    }
  }

  lemma RowStoryStep(s: State, h: History, op: Op, t: State, bumps: Counters, q: int)
    requires Sound(s) && DraftOf(s, op).Ready?
    requires RowStory(s, h, q)
    requires RowMoves(s, op, t, q)
    requires s.scan <= t.scan && s.enumerated <= t.enumerated && (s.seeded ==> t.seeded)
    requires op.DoIngest? && q in op.scan.ignored ==> q <= t.enumerated
    ensures RowStory(t, Observe(s, h, op, t, bumps), q)
  {
    if q in s.work {
      DraftEntitled(s, op, q);
    } else {
      DraftNamesRows(s, op, q);
    }
    ObserveRow(s, h, op, t, bumps, q);
    LifeStep(LifeOf(s, h, q), Touching(s, op, q), Lookup(t.work, q), IgnoredBy(s, op, q), q,
             s.scan, s.enumerated, s.seeded, t.scan, t.enumerated, t.seeded);
  }

  lemma CountersAccumulate(c: Counters, d: Counters)
    requires Natural(d)
    ensures Accrue(Saturated(c), d) == Saturated(Plus(c, d))
  {}

  lemma NothingBefore(d: Counters)
    requires Natural(d)
    ensures Accrue(ZERO, d) == Saturated(d)
  {}

  lemma IgnoredOnce(s: State, h: History, op: Op)
    requires op.DoIngest?
    requires forall q :: q in h.ignored ==> q <= s.enumerated
    ensures |h.ignored + NewlyIgnored(op.scan.ignored, s.enumerated)| ==
            |h.ignored| + |NewlyIgnored(op.scan.ignored, s.enumerated)|
  {
    assert h.ignored !! NewlyIgnored(op.scan.ignored, s.enumerated);
  }

  lemma LedgerStep(s: State, h: History, op: Op, t: State, bumps: Counters)
    requires Accounted(s, op, t, bumps)
    requires h.admitted == |s.work| + h.total.delivered + h.total.acknowledged + h.total.obsolete + h.dropped
    requires h.total.attempts == h.reserved
    ensures var h' := Observe(s, h, op, t, bumps);
      && h'.admitted == |t.work| + h'.total.delivered + h'.total.acknowledged + h'.total.obsolete + h'.dropped
      && h'.total.attempts == h'.reserved
  {}

  lemma CountersStep(s: State, h: History, op: Op, t: State, bumps: Counters)
    requires Accounted(s, op, t, bumps)
    requires Natural(bumps) && s.counters == Saturated(h.since) && h.total.ignored == |h.ignored|
    requires forall q :: q in h.ignored ==> q <= s.enumerated
    ensures var h' := Observe(s, h, op, t, bumps);
      h'.total.ignored == |h'.ignored| && Accrue(t.counters, bumps) == Saturated(h'.since)
  {
    hide LostBy, TriesAfter, OutcomesAfter, ResolvedAs, NewlyIgnored, Balanced, Accrue;
    CountersAccumulate(h.since, bumps);
    NothingBefore(bumps);
    if op.DoIngest? {
      IgnoredOnce(s, h, op);
    }
  }

  lemma RowStoriesStep(s: State, h: History, op: Op)
    requires Sound(s) && DraftOf(s, op).Ready?
    requires AllStories(s, h)
    ensures var d := DraftOf(s, op); var h' := Observe(s, h, op, d.state, d.bumps);
      AllStories(d.state, h')
  {
    var d := DraftOf(s, op);
    DraftGood(s, op);
    if op.DoIngest? {
      IngestReaches(s, op);
    }
    forall q ensures RowStory(d.state, Observe(s, h, op, d.state, d.bumps), q) {
      assert RowStory(s, h, q);
      assert RowMoves(s, op, d.state, q);
      RowStoryStep(s, h, op, d.state, d.bumps, q);
    }
  }

  lemma SameStory(s: State, h: History, t: State, h': History)
    requires t == s.(counters := t.counters) && h' == h
    requires AllStories(s, h)
    ensures AllStories(t, h')
  {
    forall q ensures RowStory(t, h', q) { assert RowStory(s, h, q); }
  }

  function Sealed(d: Draft): State
    requires d.Ready?
  {
    d.state.(counters := Accrue(d.state.counters, d.bumps))
  }

  lemma BooksStep(s: State, h: History, op: Op, d: Draft)
    requires d.Ready? && Accounted(s, op, d.state, d.bumps) && Natural(d.bumps)
    requires Books(s, h) && AllStories(s, h)
    ensures Books(Sealed(d), Observe(s, h, op, Sealed(d), d.bumps))
  {
    forall q | q in h.ignored ensures q <= s.enumerated { assert RowStory(s, h, q); }
    LedgerStep(s, h, op, d.state, d.bumps);
    CountersStep(s, h, op, d.state, d.bumps);
  }

  lemma FrontierKept(s: State, op: Op, d: Draft)
    requires d.Ready? && Moves(s, op, d.state) && AtFrontier(s)
    ensures AtFrontier(Sealed(d))
  {}

  // The observer looks at the rows of the new state only.
  lemma ObserveRows(s: State, h: History, op: Op, t: State, t': State, bumps: Counters)
    requires t.work == t'.work
    ensures Observe(s, h, op, t, bumps) == Observe(s, h, op, t', bumps)
  {
    hide Plus, LostBy, TriesAfter, OutcomesAfter, ResolvedAs, NewlyIgnored;
  }

  lemma StoriesKept(s: State, h: History, op: Op, d: Draft)
    requires d.Ready? && AllStories(d.state, Observe(s, h, op, d.state, d.bumps))
    ensures AllStories(Sealed(d), Observe(s, h, op, Sealed(d), d.bumps))
  {
    hide Observe, AllStories;
    ObserveRows(s, h, op, d.state, Sealed(d), d.bumps);
    SameStory(d.state, Observe(s, h, op, d.state, d.bumps), Sealed(d), Observe(s, h, op, Sealed(d), d.bumps));
  }

  lemma StoryStep(j: Journey, op: Op)
    requires Story(j) && WellFormedOp(op)
    ensures Story(Step(j, op))
  {
    ApplyCompletes(j.state, op);
    ValidationNeverFails(j.state, op);
    if Apply(j.state, op).Commit? {
      DraftSurvives(j.state, op);
      DraftGood(j.state, op);
      RowStoriesStep(j.state, j.history, op);
      var d := DraftOf(j.state, op);
      FrontierKept(j.state, op, d);
      StoriesKept(j.state, j.history, op, d);
      BooksStep(j.state, j.history, op, d);
    }
  }

  // What a commit does to one sequence number, seen from a journey.
  lemma CommitMoves(j: Journey, op: Op, q: int)
    requires Story(j) && WellFormedOp(op) && Apply(j.state, op).Commit?
    ensures var s, t := j.state, Step(j, op).state;
      && RowMoves(s, op, t, q)
      && t.imported == s.imported && s.scan <= t.scan <= t.enumerated && s.enumerated <= t.enumerated
      && (s.seeded ==> t.seeded) && (s.activated ==> t.activated)
  {
    hide Observe, Books, AllStories, DraftOf, Apply, RowMoves, AtFrontier;
    ApplyCompletes(j.state, op);
    DraftSurvives(j.state, op);
    SurvivorCommits(DraftOf(j.state, op));
    DraftGood(j.state, op);
    var d := DraftOf(j.state, op);
    assert RowMoves(j.state, op, d.state, q);
    SealedMoves(j.state, op, d, q);
  }

  lemma SealedMoves(s: State, op: Op, d: Draft, q: int)
    requires d.Ready? && RowMoves(s, op, d.state, q)
    ensures RowMoves(s, op, Sealed(d), q)
  {
    hide RowAfter, LostBy;
  }

  // Every run, over every sequence of transactions with well-formed snapshots, keeps the story.
  lemma {:induction false} RunKeepsStory(j: Journey, ops: seq<Op>)
    requires Story(j) && forall op :: op in ops ==> WellFormedOp(op)
    ensures Story(Run(j, ops))
    decreases |ops|
  {
    if ops != [] {
      StoryStep(j, ops[0]);
      RunKeepsStory(Step(j, ops[0]), ops[1..]);
    }
  }

  /* ----- what every run guarantees ----- */

  // The books after any run from a fresh journal: every row ever admitted is still in work, or
  // was counted as delivered, acknowledged or obsolete, or was dropped for an old bridge; and
  // the stored counters are exactly what was counted since the last health acknowledgement.
  lemma LedgerBalances(target: string, nonce: string, through: int, historyLost: bool, ops: seq<Op>)
    requires Hex(target, 64) && Hex(nonce, 32) && 0 <= through <= MAX_SEQUENCE
    requires forall op :: op in ops ==> WellFormedOp(op)
    ensures var j := Run(Journey(Fresh(target, nonce, through, historyLost), EMPTY_HISTORY), ops); var h := j.history;
      && Valid(j.state)
      && h.admitted == |j.state.work| + h.total.delivered + h.total.acknowledged + h.total.obsolete + h.dropped
      && h.total.attempts == h.reserved
      && h.total.ignored == |h.ignored|
      && j.state.counters == Saturated(h.since)
  {
    BeginsWell(target, nonce, through, historyLost);
    RunKeepsStory(Journey(Fresh(target, nonce, through, historyLost), EMPTY_HISTORY), ops);
  }

  // The frontier stays between the imported and the enumerated position, never retreats, and
  // stops short of the enumerated range only at a row that still waits.
  lemma FrontierStep(j: Journey, op: Op, q: int)
    requires Story(j) && WellFormedOp(op)
    ensures var s, t := j.state, Step(j, op).state;
      && t.imported == s.imported <= t.scan <= t.enumerated
      && s.scan <= t.scan && s.enumerated <= t.enumerated
      && (t.scan == t.enumerated || (t.scan + 1 in t.work && Waiting(t.work[t.scan + 1])))
      && (q in s.work && s.scan < q <= t.scan ==> q !in t.work || !Waiting(t.work[q]))
      && (q in t.work && Settled(t.work[q]) ==> t.scan < q)
  {
    StoryStep(j, op);
    assert RowStory(Step(j, op).state, Step(j, op).history, q);
    if Apply(j.state, op).Commit? {
      ApplyCompletes(j.state, op);
      DraftGood(j.state, op);
      ValidationNeverFails(j.state, op);
      var d := DraftOf(j.state, op);
      assert RowMoves(j.state, op, d.state, q);
    }
  }

  lemma {:induction false} FrontierMonotone(j: Journey, ops: seq<Op>)
    requires Story(j) && forall op :: op in ops ==> WellFormedOp(op)
    ensures j.state.scan <= Run(j, ops).state.scan && j.state.enumerated <= Run(j, ops).state.enumerated
    decreases |ops|
  {
    if ops != [] {
      FrontierStep(j, ops[0], 0);
      StoryStep(j, ops[0]);
      FrontierMonotone(Step(j, ops[0]), ops[1..]);
    }
  }

  lemma {:induction false} DeliveredForever(j: Journey, ops: seq<Op>, q: int)
    requires q in j.history.delivered
    ensures q in Run(j, ops).history.delivered
    decreases |ops|
  {
    if ops != [] {
      DeliveredForever(Step(j, ops[0]), ops[1..], q);
    }
  }

  // After a committed delivered outcome no later transaction ever reserves that sequence again.
  lemma NeverSentAgain(j: Journey, ops: seq<Op>, q: int, seqs: seq<int>, now: int)
    requires Story(j) && q in j.history.delivered
    requires forall op :: op in ops ==> WellFormedOp(op)
    ensures Reserve(Run(j, ops).state, seqs, now).Commit? ==> q !in seqs
  {
    RunKeepsStory(j, ops);
    DeliveredForever(j, ops, q);
    var s := Run(j, ops).state;
    assert RowStory(s, Run(j, ops).history, q);
  }

  // Between operator retries a sequence is reserved at most three times, delivered or not.
  lemma AttemptBudget(j: Journey, ops: seq<Op>, q: int)
    requires Story(j) && forall op :: op in ops ==> WellFormedOp(op)
    ensures Tries(Run(j, ops).history, q) <= MAX_ATTEMPTS
  {
    RunKeepsStory(j, ops);
    assert RowStory(Run(j, ops).state, Run(j, ops).history, q);
  }

  // A row ends failed only if it was really refused at least three times and every attempt in
  // its whole lifetime, across operator retries, was a definite failure.
  lemma FailedIsHonest(j: Journey, ops: seq<Op>, q: int)
    requires Story(j) && forall op :: op in ops ==> WellFormedOp(op)
    ensures var s, outcomes := Run(j, ops).state, Outcomes(Run(j, ops).history, q);
      q in s.work && s.work[q].disposition == Failed ==>
        |outcomes| >= MAX_ATTEMPTS && forall o :: o in outcomes ==> o == OutcomeFailed
  {
    RunKeepsStory(j, ops);
    var s := Run(j, ops).state;
    assert RowStory(s, Run(j, ops).history, q);
    if q in s.work {
      assert ValidRow(q, s.work[q]);
    }
  }

  lemma {:induction false} NothingLost(j: Journey, ops: seq<Op>)
    requires forall op :: op in ops && op.DoReconcile? ==> op.snap.ack.Some?
    ensures Run(j, ops).history.lost == j.history.lost
    decreases |ops|
  {
    if ops != [] {
      assert ops[0] in ops;
      assert LostBy(j.state, ops[0]) == {} by {
        assert forall q :: q !in LostBy(j.state, ops[0]);
      }
      NothingLost(Step(j, ops[0]), ops[1..]);
    }
  }

  // With acknowledgements available, a row is unknown only if some attempt of it was ambiguous.
  lemma UnknownIsAmbiguous(j: Journey, ops: seq<Op>, q: int)
    requires Story(j) && j.history.lost == {} && forall op :: op in ops ==> WellFormedOp(op)
    requires forall op :: op in ops && op.DoReconcile? ==> op.snap.ack.Some?
    ensures var s := Run(j, ops).state;
      q in s.work && s.work[q].disposition == Unknown ==> OutcomeUnknown in Outcomes(Run(j, ops).history, q)
  {
    RunKeepsStory(j, ops);
    NothingLost(j, ops);
    var s := Run(j, ops).state;
    assert RowStory(s, Run(j, ops).history, q);
    if q in s.work {
      assert ValidRow(q, s.work[q]);
    }
  }
}
