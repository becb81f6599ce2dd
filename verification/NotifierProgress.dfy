/** The delivery loop goes on: in every reachable world a pass that is left alone either delivers the
    next group there is or finds that nothing is owed yet. No job of it fails. */
module NotifierProgress {
  import opened Common
  import opened JournalModel
  import opened JournalRuns
  import opened JournalProofs
  import opened JournalEffects
  import opened JournalHistory
  import I = Inbox
  import opened InboxHistory
  import opened InboxSource
  import opened NotificationModel
  import opened NotificationStore
  import opened NotificationEffects
  import opened Notifier
  import opened NotifierData
  import opened NotifierSteps
  import opened NotifierLoop
  import opened NotifierSeeding
  import G = NotifierGuarantees
  import D = DeliveryLoop
  import opened DeliveryEffects

  // A transaction that went through: the journal it leaves agrees with the inbox as before.
  lemma Went(c: Chronicle, j: Journey, op: Op) returns (k: Journey)
    requires DataSound(c, j) && OpFits(c, j.state, op) && Apply(j.state, op).Commit?
    ensures DataSound(c, k) && k.state == Apply(j.state, op).state && Valid(k.state)
    ensures !op.DoConfirm? ==> k.state.activated == j.state.activated
    ensures j.state.seeded || op.DoSeed? ==> k.state.seeded
    ensures j.state.work == map[] && !op.DoIngest? && !op.DoSeed? ==> k.state.work == map[]
  {
    hide DataSound, OpFits, Apply, Valid;
    k := Step(j, op);
    DataStep(c, j, op);
    SoundStory(c, j);
    SoundStory(c, k);
    StoryValid(j);
    StoryValid(k);
    ApplyKeepsIdentity(j.state, op);
    OpSeeds(j, op);
    if j.state.work == map[] && !op.DoIngest? && !op.DoSeed? {
      StaysEmpty(j, op);
    }
  }

  lemma SoundStory(c: Chronicle, j: Journey)
    requires DataSound(c, j)
    ensures Story(j) && I.Coherent(c.inbox)
  {
    KeptCoherent(c);
    hide Kept, Story, I.Coherent;
  }

  // Reconciling an idle journal with the inbox goes through.
  lemma ReconcileGoes(c: Chronicle, j: Journey) returns (k: Journey)
    requires DataSound(c, j) && j.state.attempt.None?
    ensures var r := ReconcileFrom(j.state, c.inbox, CAPABLE);
      && r.failure.None? && DataSound(c, k) && k.state == r.state && Valid(k.state) && k.state.attempt.None?
      && k.state.activated == j.state.activated && (j.state.seeded ==> k.state.seeded)
  {
    hide DataSound, SnapHeld, RetainedOf, Apply, Valid;
    RetainedHeld(c, j);
    var snap := RetainedOf(c.inbox, CAPABLE, Keys(j.state.work)).value;
    var op := DoReconcile(snap);
    G.ReconcileAccepted(c, j, snap);
    SoundStory(c, j);
    StoryValid(j);
    ReconcileDecided(j.state, snap);
    assert Apply(j.state, op) == Reconcile(j.state, snap) by { ReconcileIs(j.state, snap); }
    k := Went(c, j, op);
    ReconcileMeta(j.state, c.inbox, CAPABLE);
  }

  lemma ReconcileIs(s: State, snap: Retained)
    ensures Apply(s, DoReconcile(snap)) == Reconcile(s, snap)
  {
    hide Reconcile;
  }

  // So does becoming ready, where pointers are seeded or nothing was admitted before them.
  lemma ReadyGoes(c: Chronicle, j: Journey, now: int) returns (k: Journey)
    requires DataSound(c, j) && Clock(now) && (j.state.seeded || j.state.work == map[])
    ensures var r := ReadyFrom(j.state, c.inbox, now, CAPABLE);
      && r.failure.None? && DataSound(c, k) && k.state == r.state && k.state.attempt.None?
      && k.state.activated == j.state.activated && k.state.seeded
  {
    hide DataSound, SeedHeld, SeedRecords, Apply, Valid;
    SoundStory(c, j);
    StoryValid(j);
    RecoverGoes(j.state, now);
    var m := Went(c, j, DoRecover(now));
    RecoverCloses(j.state, now);
    if m.state.seeded {
      k := m;
    } else {
      SeedReads(c, m);
      var pointers := SeedRecords(c.inbox, CAPABLE).value;
      G.SeedAccepted(c, m, pointers);
      SeedIs(m.state, pointers);
      k := Went(c, m, DoSeed(pointers));
      SeedKeepsIdle(m.state, pointers);
    }
  }

  lemma RecoverGoes(s: State, now: int)
    requires Valid(s) && Clock(now)
    ensures Apply(s, DoRecover(now)) == Recover(s, now) && Recover(s, now).Commit?
  {
    hide Recover, Resolve, Valid, ResolveDraft;
    RecoverEffect(s, now);
    ResolveDecided(s, OutcomeUnknown, now);
  }

  lemma SeedIs(s: State, records: seq<Record>)
    ensures Apply(s, DoSeed(records)) == Seed(s, records)
  {
    hide Seed;
  }

  lemma SeedKeepsIdle(s: State, records: seq<Record>)
    requires Seed(s, records).Commit?
    ensures Seed(s, records).state.attempt == s.attempt
  {
    hide Admit, Valid;
  }

  // Preparing goes through, whether or not there is room for what was scanned.
  lemma PrepareGoes(c: Chronicle, j: Journey, now: int) returns (k: Journey)
    requires DataSound(c, j) && Clock(now) && j.state.attempt.None?
    ensures var r := PrepareFrom(j.state, c.inbox, c.inbox, now, CAPABLE);
      && r.failure.None? && DataSound(c, k) && k.state == r.state && Valid(k.state) && k.state.attempt.None?
      && k.state.activated == j.state.activated && (j.state.seeded ==> k.state.seeded)
  {
    hide DataSound, ReconcileFrom, AdmitFrom, Due, Valid;
    var m := ReconcileGoes(c, j);
    k := AdmitGoes(c, m);
    ReportsPlain(j.state, c.inbox, CAPABLE);
  }

  lemma AdmitGoes(c: Chronicle, j: Journey) returns (k: Journey)
    requires DataSound(c, j) && Valid(j.state) && j.state.attempt.None?
    ensures var r := AdmitFrom(j.state, c.inbox, CAPABLE);
      && r.failure.None? && DataSound(c, k) && k.state == r.state && Valid(k.state) && k.state.attempt.None?
      && k.state.activated == j.state.activated && (j.state.seeded ==> k.state.seeded)
  {
    hide DataSound, ScanHeld, ScanAfter, Apply, Ingest, Valid;
    ScanReads(c, j);
    var scan := ScanAfter(c.inbox, CAPABLE, j.state.enumerated).value;
    G.IngestAccepted(c, j, scan);
    IngestIs(j.state, scan);
    if Apply(j.state, DoIngest(scan)).Commit? {
      k := Went(c, j, DoIngest(scan));
      IngestKeepsIdle(j.state, scan);
    } else {
      k := j;
    }
  }

  lemma IngestIs(s: State, scan: Scan)
    ensures Apply(s, DoIngest(scan)) == Ingest(s, scan)
  {
    hide Ingest;
  }

  lemma IngestKeepsIdle(s: State, scan: Scan)
    requires Ingest(s, scan).Commit?
    ensures Ingest(s, scan).state.attempt == s.attempt
  {
    hide Admit, Valid, Frontier, Crossed, CrossedBumps, NewlyIgnored;
  }

  // And so does reserving, once the journal is activated.
  lemma ReserveGoes(c: Chronicle, j: Journey, now: int) returns (k: Journey)
    requires DataSound(c, j) && Clock(now) && j.state.attempt.None? && j.state.activated && j.state.seeded
    ensures var r := ReserveFrom(j.state, c.inbox, now, CAPABLE);
      && r.failure.None? && DataSound(c, k) && k.state == r.state && Valid(k.state)
      && (r.rows == [] ==> k.state.attempt.None?) && (r.rows != [] ==> k.state.attempt.Some?)
  {
    hide DataSound, ReconcileFrom, Due, Apply, Reserve, Valid;
    var m := ReconcileGoes(c, j);
    ReportsPlain(j.state, c.inbox, CAPABLE);
    DueIsReservable(m.state, now, true);
    var due := Due(m.state, now, true);
    if due == [] {
      k := m;
    } else {
      ReserveIs(m.state, due, now);
      k := Went(c, m, DoReserve(due, now));
      SoundStory(c, j);
      StoryValid(j);
      ReserveTakesNext(j.state, c.inbox, now, CAPABLE);
    }
  }

  lemma ReserveIs(s: State, seqs: seq<int>, now: int)
    ensures Apply(s, DoReserve(seqs, now)) == Reserve(s, seqs, now)
  {
    hide Reserve;
  }

  // A pass on the inbox as it stands, at times in range.
  predicate Steady(p: D.Pass, i: I.Contents) {
    && p.seed == i && p.first == i && p.second == i && p.third == i
    && Clock(p.readyAt) && Clock(p.prepareAt) && Clock(p.reserveAt) && Clock(p.resolveAt)
  }

  // A pass left alone completes or finds nothing due, in any journal that agrees with its inbox.
  lemma TurnGoes(c: Chronicle, j: Journey, started: bool, unresolved: bool, p: D.Pass)
    requires DataSound(c, j) && j.state.activated && (j.state.seeded || (j.state.work == map[] && !started))
    requires D.Clean(j.state, started, unresolved) && Undisturbed(p) && Steady(p, c.inbox)
    ensures var t := D.TurnOf(j.state, started, unresolved, p, CAPABLE); t.ended.Completed? || t.ended.NothingDue?
  {
    hide DataSound, ReadyFrom, PrepareFrom, ReserveFrom, Resolve, Valid, Clock;
    var doubt := Doubtful(started, unresolved);
    var ready := j;
    if doubt {
      ready := ReadyGoes(c, j, p.readyAt);
    }
    assert ready.state == AfterReady(j.state, doubt, p, CAPABLE);
    var prepared := PrepareGoes(c, ready, p.prepareAt);
    var reserved := ReserveGoes(c, prepared, p.reserveAt);
    assert Clock(p.resolveAt) ==> 0 <= p.resolveAt <= MAX_SEQUENCE by { ClockRange(p.resolveAt); }
    ResolveDecided(reserved.state, p.answer.value, p.resolveAt);
  }

  lemma ClockRange(now: int)
    ensures Clock(now) <==> 0 <= now <= MAX_SEQUENCE
  {}

  // A pass that got somewhere: everything the inbox holds was scanned, as far as one scan goes, or
  // the journal was too full; and then the next group was called with and the answer recorded, or
  // there was no next group.
  ghost predicate Progresses(s: State, started: bool, unresolved: bool, p: D.Pass, i: I.Contents) {
    var doubt := Doubtful(started, unresolved);
    var t := D.TurnOf(s, started, unresolved, p, CAPABLE);
    var ready, prepared, standing := AfterReady(s, doubt, p, CAPABLE), AfterPrepare(s, doubt, p, CAPABLE), AfterReserve(s, doubt, p, CAPABLE);
    && (|| Reaches(ready.enumerated, ready.work.Keys, prepared, i, CAPABLE)
        || (prepared.enumerated == ready.enumerated && |prepared.work| + 128 > 2048))
    && match t.ended
       case NothingDue => t.called == [] && (NextGroup(t.state, [], p.prepareAt, true) || NextGroup(t.state, [], p.reserveAt, true))
       case Completed(outcome) =>
         && p.answer == Some(outcome) && t.called != []
         && NextGroup(standing, t.called, p.reserveAt, true) && AllUpheld(standing, i, CAPABLE)
         && ReportOf(standing, Resolve(standing, outcome, p.resolveAt)) == Report(t.state, None, []) && t.state.attempt.None?
       case _ => false
  }

  // In every reachable world whose worker is idle and whose journal is activated, a pass left alone
  // calls the provider with the next group and records its answer, or finds, with the inbox scanned
  // or the journal too full to scan it, that no group is owed yet. No job of it fails.
  lemma PassesProgress(b: G.Birth, acts: seq<Act>, p: D.Pass)
    requires G.Sane(b)
    requires var w := G.History(b, acts); Jobs(w) == [] && w.journey.state.activated && Undisturbed(p) && Steady(p, Mail(w))
    ensures var w := G.History(b, acts); Progresses(w.journey.state, w.loop.started, w.loop.unresolved, p, Mail(w))
  {
    hide G.History, DataSound, LoopSound, Valid, ReadyFrom, PrepareFrom, ReserveFrom, Resolve, Clock, I.Coherent,
         Reaches, NextGroup, AllUpheld, D.TurnOf;
    G.Reached(b, acts);
    var w := G.History(b, acts);
    var s := w.journey.state;
    SoundStory(w.chronicle, w.journey);
    StoryValid(w.journey);
    IdleClean(b, acts);
    TurnGoes(w.chronicle, w.journey, w.loop.started, w.loop.unresolved, p);
    TurnPrepares(s, w.loop.started, w.loop.unresolved, p, CAPABLE);
    TurnCalls(s, w.loop.started, w.loop.unresolved, p, CAPABLE);
    TurnEnds(s, w.loop.started, w.loop.unresolved, p, CAPABLE);
    if D.TurnOf(s, w.loop.started, w.loop.unresolved, p, CAPABLE).ended.NothingDue? {
      TurnRests(s, w.loop.started, w.loop.unresolved, p, CAPABLE);
    } else {
      var standing := AfterReserve(s, Doubtful(w.loop.started, w.loop.unresolved), p, CAPABLE);
      TurnValid(s, Doubtful(w.loop.started, w.loop.unresolved), p, CAPABLE);
      ResolveCloses(standing, p.answer.value, p.resolveAt);
    }
  }

  lemma IdleClean(b: G.Birth, acts: seq<Act>)
    requires G.Sane(b)
    ensures var w := G.History(b, acts); D.Clean(w.journey.state, w.loop.started, w.loop.unresolved)
  {
    G.CleanLoopHasNoAttempt(b, acts);
  }
}
