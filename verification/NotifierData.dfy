/** What journal and inbox know of each other in every reachable world: no row is lost between
    them, and no snapshot an honest inbox gives is ever refused. */
module NotifierData {
  import opened Common
  import opened JournalModel
  import opened JournalRuns
  import opened JournalHistory
  import I = Inbox
  import opened InboxHistory
  import opened InboxSource
  import opened SourceProofs
  import opened Notifier

  // The inbox rows the notifier owes the participant: messages and memory pointers.
  predicate Noticed(e: I.Entry) {
    e.source.Pointer? || e.user
  }

  // No longer owed: acknowledged, or a pointer that was superseded.
  predicate Released(i: I.Contents, q: int, e: I.Entry) {
    q <= i.ack || (e.source.Pointer? && q !in i.rows)
  }

  // The journal's row for a sequence is about the inbox row of that sequence, and it is closed
  // only for a reason the inbox confirms.
  predicate RowTraced(c: Chronicle, s: State, q: int) {
    q in s.work ==>
      && q in c.log && Noticed(c.log[q]) && s.work[q].source == c.log[q].source
      && (s.work[q].disposition == Acknowledged ==> q <= c.inbox.ack)
      && (s.work[q].disposition == Obsolete ==> Released(c.inbox, q, c.log[q]))
  }

  // Every row the inbox ever stored in the enumerated range is accounted for.
  predicate Covered(c: Chronicle, s: State, delivered: set<int>, q: int) {
    q in c.log && Noticed(c.log[q]) && s.imported < q <= s.enumerated ==>
      q in s.work || q in delivered || Released(c.inbox, q, c.log[q])
  }

  predicate Traced(c: Chronicle, j: Journey, q: int) {
    RowTraced(c, j.state, q) && Covered(c, j.state, j.history.delivered, q)
  }

  ghost predicate AllTraced(c: Chronicle, j: Journey) {
    forall q {:trigger Traced(c, j, q)} :: Traced(c, j, q)
  }

  /* ----- snapshots held by the running job ----- */

  // What a retained snapshot says of a row of the journal, whatever the inbox did since.
  predicate Judgeable(c: Chronicle, s: State, snap: Retained, q: int) {
    q in s.work && q in c.log ==>
      var v := Judge(q, s.work[q], snap);
      && (v.Keep? || v.Close?)
      && (v.Close? ==> v.disposition == Acknowledged || v.disposition == Obsolete)
      && (v == Close(Acknowledged) ==> q <= c.inbox.ack)
      && (v == Close(Obsolete) ==> Released(c.inbox, q, c.log[q]))
  }

  ghost predicate SnapHeld(c: Chronicle, s: State, snap: Retained) {
    && snap.ack.Some? && Clock(snap.ack.value)
    && (forall q {:trigger Judgeable(c, s, snap, q)} :: Judgeable(c, s, snap, q))
  }

  predicate RecordKnown(c: Chronicle, r: Record) {
    && r.sequence in c.log && Noticed(c.log[r.sequence]) && c.log[r.sequence].source == r.source
  }

  predicate Passed(c: Chronicle, from: int, scan: Scan, q: int) {
    q in c.log && Noticed(c.log[q]) && from < q <= scan.through ==>
      Record(q, c.log[q].source) in scan.records || Released(c.inbox, q, c.log[q])
  }

  ghost predicate ScanHeld(c: Chronicle, s: State, scan: Scan) {
    && s.enumerated <= scan.through <= Max(s.enumerated, c.inbox.head)
    && |scan.records| + |scan.ignored| <= SCAN_LIMIT
    && (forall r {:trigger RecordKnown(c, r)} :: r in scan.records ==> RecordKnown(c, r) && r.sequence <= scan.through)
    && (forall q :: q in scan.ignored ==> q in c.log && !Noticed(c.log[q]) && q <= scan.through)
    && Ascending(scan.ignored)
    && (forall q {:trigger Passed(c, s.enumerated, scan, q)} :: Passed(c, s.enumerated, scan, q))
  }

  ghost predicate SeedHeld(c: Chronicle, pointers: seq<Record>) {
    && |pointers| <= POINTER_LIMIT
    && (forall r {:trigger RecordKnown(c, r)} :: r in pointers ==> RecordKnown(c, r) && r.source.Pointer?)
  }

  ghost predicate HeldAt(c: Chronicle, s: State, stage: Stage) {
    match stage
    case Holding(snap) => SnapHeld(c, s, snap)
    case Scanned(scan) => ScanHeld(c, s, scan)
    case Seeding(pointers) => SeedHeld(c, pointers)
    case _ => true
  }

  ghost predicate Held(c: Chronicle, s: State, running: Option<Running>) {
    running.Some? ==> HeldAt(c, s, running.value.stage)
  }

  ghost predicate DataSound(c: Chronicle, j: Journey) {
    && Kept(c) && Story(j)
    && j.history.lost == {}
    && j.state.enumerated <= Max(j.state.imported, c.inbox.head)
    && AllTraced(c, j)
  }

  /* ----- the inbox moves ----- */

  // What every request to the inbox leaves in place.
  predicate Onward(c: Chronicle, d: Chronicle, q: int) {
    && c.inbox.head <= d.inbox.head && c.inbox.ack <= d.inbox.ack
    && (q in c.log ==> q in d.log && d.log[q] == c.log[q])
    && (q in d.log && q !in c.log ==> q > c.inbox.head)
    && (q in c.log && q !in c.inbox.rows ==> q !in d.inbox.rows)
  }

  lemma FollowOnward(c: Chronicle, a: I.Act, q: int)
    requires Kept(c)
    ensures Onward(c, Follow(c, a), q)
  {
    hide I.Coherent, Kept, InstanceFits;
    KeptAt(c, q);
    if Allowed(c, a) && I.Perform(c.inbox, a).Done? {
      KeptCoherent(c);
      PerformShifts(c.inbox, a, q);
      hide I.Perform, Gone;
    }
  }

  lemma KeptAt(c: Chronicle, q: int)
    requires Kept(c)
    ensures LogFits(c, q)
  {
    hide LogFits, I.Coherent;
  }

  lemma KeptCoherent(c: Chronicle)
    requires Kept(c)
    ensures I.Coherent(c.inbox)
  {
    hide I.Coherent;
  }

  lemma ReleasedOnward(c: Chronicle, d: Chronicle, q: int)
    requires Onward(c, d, q) && q in c.log && Released(c.inbox, q, c.log[q])
    ensures Released(d.inbox, q, d.log[q])
  {}

  lemma TracedOnward(c: Chronicle, d: Chronicle, j: Journey, q: int)
    requires Onward(c, d, q) && Traced(c, j, q)
    requires j.state.enumerated <= Max(j.state.imported, c.inbox.head)
    ensures Traced(d, j, q)
  {
    if q in c.log && Released(c.inbox, q, c.log[q]) {
      ReleasedOnward(c, d, q);
    }
  }

  lemma JudgeableOnward(c: Chronicle, d: Chronicle, s: State, snap: Retained, q: int)
    requires Onward(c, d, q) && Judgeable(c, s, snap, q) && RowTraced(c, s, q)
    ensures Judgeable(d, s, snap, q)
  {
    hide Judge;
  }

  lemma PassedOnward(c: Chronicle, d: Chronicle, s: State, scan: Scan, q: int)
    requires Onward(c, d, q) && Passed(c, s.enumerated, scan, q)
    requires s.enumerated <= scan.through <= Max(s.enumerated, c.inbox.head)
    ensures Passed(d, s.enumerated, scan, q)
  {}

  lemma HeldOnward(c: Chronicle, a: I.Act, j: Journey, running: Option<Running>)
    requires DataSound(c, j) && Held(c, j.state, running)
    ensures Held(Follow(c, a), j.state, running)
  {
    hide Kept, Story, Follow, Judgeable, Passed;
    var d := Follow(c, a);
    forall q ensures Onward(c, d, q) { FollowOnward(c, a, q); }
    FollowOnward(c, a, 0);
    if running.Some? {
      match running.value.stage
      case Holding(snap) =>
        forall q ensures Judgeable(d, j.state, snap, q) {
          FollowOnward(c, a, q);
          assert Traced(c, j, q);
          assert Judgeable(c, j.state, snap, q);
          JudgeableOnward(c, d, j.state, snap, q);
        }
      case Scanned(scan) =>
        forall q ensures Passed(d, j.state.enumerated, scan, q) {
          FollowOnward(c, a, q);
          assert Passed(c, j.state.enumerated, scan, q);
          PassedOnward(c, d, j.state, scan, q);
        }
        forall r | r in scan.records ensures RecordKnown(d, r) && r.sequence <= scan.through {
          assert RecordKnown(c, r);
          FollowOnward(c, a, r.sequence);
        }
        forall q | q in scan.ignored ensures q in d.log && !Noticed(d.log[q]) {
          FollowOnward(c, a, q);
        }
      case Seeding(pointers) =>
        forall r | r in pointers ensures RecordKnown(d, r) && r.source.Pointer? {
          assert RecordKnown(c, r);
          FollowOnward(c, a, r.sequence);
        }
      case _ =>
    }
  }

  lemma DataOnward(c: Chronicle, a: I.Act, j: Journey)
    requires DataSound(c, j)
    ensures DataSound(Follow(c, a), j)
  {
    hide Kept, Story, Follow, Traced;
    FollowKept(c, a);
    FollowOnward(c, a, 0);
    forall q ensures Traced(Follow(c, a), j, q) {
      FollowOnward(c, a, q);
      assert Traced(c, j, q);
      TracedOnward(c, Follow(c, a), j, q);
    }
  }

  /* ----- reading the inbox ----- */

  lemma ReplacedBy(i: I.Contents, q: int, source: Source, pointers: map<string, Record>)
    requires I.Coherent(i) && source.Pointer? && Superseded(i, q, source)
    requires forall k {:trigger Indexed(i, pointers, k)} :: Indexed(i, pointers, k)
    requires forall x :: x in PointerRows(i) ==> i.rows[x].source.binding in pointers
    ensures Replaced(q, source, Instances(i), pointers)
  {
    if source.binding in i.bindings && i.bindings[source.binding].instance == source.instance {
      var p :| p in I.PointersOf(i.rows, source.binding) && p > q;
      assert p in PointerRows(i);
      assert Indexed(i, pointers, source.binding);
      var p' := pointers[source.binding].sequence;
      assert I.OnePointer(i, p, p');
      assert I.RowFits(i, p, i.rows[p]);
    }
  }

  // Asked about its own rows, an honest source never contradicts the journal: a row it no longer
  // holds is acknowledged, or is a pointer it can show to be superseded.
  lemma JudgeHonest(c: Chronicle, s: State, snap: Retained, q: int)
    requires Kept(c) && RowTraced(c, s, q) && q in s.work
    requires snap.ack == Some(c.inbox.ack)
    requires snap.bindings == Some(Instances(c.inbox)) && snap.pointers.Some?
    requires q in Index(snap.records) ==> q in c.inbox.rows && Index(snap.records)[q] == c.inbox.rows[q].source
    requires q in c.inbox.rows ==> q in Index(snap.records)
    requires q in c.log && q !in c.inbox.rows && c.log[q].source.Pointer? && Superseded(c.inbox, q, c.log[q].source) ==>
      Replaced(q, c.log[q].source, snap.bindings.value, snap.pointers.value)
    ensures Judgeable(c, s, snap, q)
  {
    hide I.Coherent, Replaced, Superseded, Index;
    KeptAt(c, q);
    hide Kept;
  }

  lemma KeysOf(s: State)
    requires Valid(s)
    ensures Askable(Keys(s.work)) && forall q :: q in s.work ==> q in Keys(s.work)
  {
    LowestFacts(s.work.Keys, |s.work|);
    LowestWithin(s.work.Keys, |s.work|);
    assert |s.work.Keys| == |s.work|;
    var keys := Keys(s.work);
    forall q | q in keys ensures 1 <= q <= MAX_SEQUENCE {
      var a :| 0 <= a < |keys| && keys[a] == q;
      assert ValidRow(q, s.work[q]);
    }
    assert forall q :: q in s.work ==> q in s.work.Keys;
  }

  lemma RetainedHeld(c: Chronicle, j: Journey)
    requires DataSound(c, j)
    ensures RetainedOf(c.inbox, CAPABLE, Keys(j.state.work)).Ok?
    ensures SnapHeld(c, j.state, RetainedOf(c.inbox, CAPABLE, Keys(j.state.work)).value)
  {
    hide Judgeable, RetainedOf, Snapshot, Keys, Superseded, Replaced, Index, Traced;
    var i := c.inbox;
    KeptCoherent(c);
    StoryValid(j);
    hide Story, Kept;
    KeysOf(j.state);
    RetainedHonest(i, Keys(j.state.work));
    SnapshotHonest(i);
    var snap := RetainedOf(i, CAPABLE, Keys(j.state.work)).value;
    AckClock(i);
    hide I.Coherent;
    forall q ensures Judgeable(c, j.state, snap, q) {
      if q in j.state.work && q in c.log {
        assert Traced(c, j, q);
        TracedRow(c, j, q);
        if c.log[q].source.Pointer? && Superseded(i, q, c.log[q].source) {
          ReplacedBy(i, q, c.log[q].source, snap.pointers.value);
        }
        JudgeHonest(c, j.state, snap, q);
      } else {
        NothingToJudge(c, j.state, snap, q);
      }
    }
  }

  lemma NothingToJudge(c: Chronicle, s: State, snap: Retained, q: int)
    requires !(q in s.work && q in c.log)
    ensures Judgeable(c, s, snap, q)
  {}

  lemma TracedRow(c: Chronicle, j: Journey, q: int)
    requires Traced(c, j, q)
    ensures RowTraced(c, j.state, q)
  {}

  lemma StoryValid(j: Journey)
    requires Story(j)
    ensures Valid(j.state)
  {}

  lemma AckClock(i: I.Contents)
    requires I.Coherent(i)
    ensures 0 <= i.ack <= i.head && Clock(i.ack)
  {}

  lemma ScanReads(c: Chronicle, j: Journey)
    requires DataSound(c, j)
    ensures ScanAfter(c.inbox, CAPABLE, j.state.enumerated).Ok?
    ensures ScanHeld(c, j.state, ScanAfter(c.inbox, CAPABLE, j.state.enumerated).value)
  {
    hide ScanAfter, Traced, Passed, LogFits;
    KeptCoherent(c);
    StoryValid(j);
    ScanHonest(c.inbox, CAPABLE, j.state.enumerated);
    hide Story, I.Coherent;
    var scan := ScanAfter(c.inbox, CAPABLE, j.state.enumerated).value;
    forall r | r in scan.records ensures RecordKnown(c, r) && r.sequence <= scan.through {
      assert RecordFits(c.inbox, CAPABLE, j.state.enumerated, scan, r);
      LogOf(c, r.sequence);
    }
    forall q | q in scan.ignored ensures q in c.log && !Noticed(c.log[q]) && q <= scan.through {
      assert IgnoredFits(c.inbox, CAPABLE, j.state.enumerated, scan, q);
      LogOf(c, q);
    }
    forall q ensures Passed(c, j.state.enumerated, scan, q) {
      PassedBy(c, j.state.enumerated, scan, q);
    }
  }

  lemma LogOf(c: Chronicle, q: int)
    requires Kept(c)
    ensures q in c.inbox.rows ==> q in c.log && c.log[q] == c.inbox.rows[q]
    ensures q in c.log ==> WellFormed(c.log[q].source) && (q in c.inbox.rows || Released(c.inbox, q, c.log[q]))
  {
    KeptAt(c, q);
    hide Kept, Superseded;
  }

  lemma PassedBy(c: Chronicle, from: int, scan: Scan, q: int)
    requires Kept(c)
    requires q in c.inbox.rows && from < q <= scan.through ==> Handed(c.inbox, CAPABLE, scan, q)
    ensures Passed(c, from, scan, q)
  {
    LogOf(c, q);
    hide Kept;
  }

  lemma SeedReads(c: Chronicle, j: Journey)
    requires DataSound(c, j)
    ensures SeedRecords(c.inbox, CAPABLE).Ok?
    ensures SeedHeld(c, SeedRecords(c.inbox, CAPABLE).value)
  {
    hide SeedRecords, Story, AllTraced;
    KeptCoherent(c);
    SeedHonest(c.inbox);
    hide I.Coherent, LogFits;
    var pointers := SeedRecords(c.inbox, CAPABLE).value;
    forall r | r in pointers ensures RecordKnown(c, r) && r.source.Pointer? {
      LogOf(c, r.sequence);
    }
  }
}
