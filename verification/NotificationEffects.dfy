/** What the worker's jobs achieve: after preparing, the inbox has been scanned and what it holds is
    in the journal; what is reserved is the next group that is due; and nothing the inbox has
    released stays open. */
module NotificationEffects {
  import opened Common
  import opened JournalModel
  import opened JournalProofs
  import opened JournalRuns
  import opened JournalEffects
  import I = Inbox
  import opened InboxSource
  import opened SourceProofs
  import opened Notifier
  import opened NotifierData
  import opened NotificationModel

  /* ----- scanning and admitting ----- */

  // What a reader with these capabilities is told of a row: a pointer as such only if it knows
  // pointers, and otherwise user messages alone.
  predicate Notified(e: I.Entry, caps: Capabilities) {
    e.user || (caps.pointers && e.source.Pointer?)
  }

  function Told(e: I.Entry, caps: Capabilities): Source {
    if caps.pointers then e.source else Peer
  }

  // Row q of the inbox, just enumerated, is in the journal as what it is; or it was there before,
  // closed, and the frontier has passed it. A row new to the journal starts fresh.
  predicate Arrived(known: set<int>, t: State, q: int, e: I.Entry, caps: Capabilities) {
    && (q in t.work || (q in known && q <= t.scan))
    && (q in t.work ==> t.work[q].source == Told(e, caps))
    && (q !in known && q in t.work ==> t.work[q] == Row(Told(e, caps), Pending, 0, 0, false))
  }

  // From position `from`, with the rows `known`, the inbox was scanned as far as one scan goes, and
  // everything in between arrived.
  ghost predicate Reaches(from: int, known: set<int>, t: State, i: I.Contents, caps: Capabilities) {
    var above := set q | q in i.rows && q > from;
    && from <= t.enumerated <= Max(from, i.head)
    && (t.enumerated == from || t.enumerated in i.rows)
    && (above != {} ==> from < t.enumerated)
    && (|above| < 128 ==> forall q :: q in i.rows ==> q <= t.enumerated)
    && (|above| >= 128 ==> |set q | q in above && q <= t.enumerated| == 128)
    && (forall q {:trigger q in i.rows} :: q in i.rows && from < q <= t.enumerated && Notified(i.rows[q], caps) ==>
          Arrived(known, t, q, i.rows[q], caps))
  }

  lemma HandedIs(i: I.Contents, caps: Capabilities, scan: Scan, q: int)
    requires q in i.rows && Handed(i, caps, scan, q)
    ensures if Notified(i.rows[q], caps) then Record(q, Told(i.rows[q], caps)) in scan.records else q in scan.ignored
  {}

  // How many rows a scan passed.
  lemma {:induction false} PassedSize(i: I.Contents, caps: Capabilities, from: int, scan: Scan)
    requires ScanFits(i, caps, from, scan)
    requires forall q :: q in i.rows && from < q <= scan.through ==> Handed(i, caps, scan, q)
    ensures |set q | q in i.rows && from < q <= scan.through| == |scan.records| + |scan.ignored|
  {
    var a := set r | r in scan.records :: r.sequence;
    var b := set q | q in scan.ignored;
    RecordSequences(scan.records);
    AscendingSize(scan.ignored);
    var passed := set q | q in i.rows && from < q <= scan.through;
    forall q ensures (q in passed <==> q in a || q in b) && !(q in a && q in b) { PassedRow(i, caps, from, scan, q); }
    hide ScanFits, Handed;
    assert passed == a + b;
  }

  // A row a scan passed is among its records or among the frames it only noted, not among both.
  lemma PassedRow(i: I.Contents, caps: Capabilities, from: int, scan: Scan, q: int)
    requires ScanFits(i, caps, from, scan)
    requires q in i.rows && from < q <= scan.through ==> Handed(i, caps, scan, q)
    ensures var recorded := exists r :: r in scan.records && r.sequence == q;
      && (q in i.rows && from < q <= scan.through <==> recorded || q in scan.ignored)
      && !(recorded && q in scan.ignored)
  {
    if q in i.rows && from < q <= scan.through && !Skipped(caps, i.rows[q]) {
      assert Record(q, Projected(caps, i.rows[q])) in scan.records;
    }
    if r :| r in scan.records && r.sequence == q {
      assert RecordFits(i, caps, from, scan, r);
    }
    if q in scan.ignored {
      assert IgnoredFits(i, caps, from, scan, q);
    }
    hide Skipped, Projected;
  }

  lemma {:induction false} RecordSequences(records: seq<Record>)
    requires RecordsAscend(records)
    ensures |set r | r in records :: r.sequence| == |records|
    decreases |records|
  {
    var all := set r | r in records :: r.sequence;
    if records == [] {
      assert all == {};
    } else {
      var init, last := records[..|records| - 1], records[|records| - 1];
      RecordSequences(init);
      assert forall r :: r in records <==> r in init || r == last;
      assert all == (set r | r in init :: r.sequence) + {last.sequence};
    }
  }

  lemma {:induction false} AscendingSize(xs: seq<int>)
    requires Ascending(xs)
    ensures |set x | x in xs| == |xs|
    decreases |xs|
  {
    var all := set x | x in xs;
    if xs == [] {
      assert all == {};
    } else {
      var init, last := xs[..|xs| - 1], xs[|xs| - 1];
      AscendingSize(init);
      assert forall x :: x in xs <==> x in init || x == last;
      assert all == (set x | x in init) + {last};
    }
  }

  // How far a scan goes.
  lemma ScanGoes(i: I.Contents, caps: Capabilities, from: int)
    requires I.Coherent(i) && 0 <= from <= MAX_SEQUENCE
    ensures ScanAfter(i, caps, from).Ok?
    ensures var through := ScanAfter(i, caps, from).value.through; var above := set q | q in i.rows && q > from;
      && from <= through <= Max(from, i.head)
      && (through == from || through in i.rows)
      && (above != {} ==> from < through)
      && (|above| < 128 ==> forall q :: q in i.rows ==> q <= through)
      && (|above| >= 128 ==> |set q | q in above && q <= through| == 128)
  {
    ScanHonest(i, caps, from);
    var scan := ScanAfter(i, caps, from).value;
    PassedSize(i, caps, from, scan);
    var above := set q | q in i.rows && q > from;
    assert (set q | q in above && q <= scan.through) == set q | q in i.rows && from < q <= scan.through;
    NothingAbove(above, scan.through, i, from);
    hide ScanAfter, ScanFits, Handed, I.Coherent;
  }

  // A scan that is admitted reaches.
  lemma IngestReaches(s: State, i: I.Contents, caps: Capabilities)
    requires Valid(s) && I.Coherent(i)
    ensures ScanAfter(i, caps, s.enumerated).Ok?
    ensures var scan := ScanAfter(i, caps, s.enumerated).value;
      Ingest(s, scan).Commit? ==> Reaches(s.enumerated, s.work.Keys, Ingest(s, scan).state, i, caps)
  {
    MetaOf(s);
    ScanGoes(i, caps, s.enumerated);
    ScanHonest(i, caps, s.enumerated);
    hide ScanAfter, Valid, I.Coherent, Ingest, Arrived, ScanFits, Handed;
    var scan := ScanAfter(i, caps, s.enumerated).value;
    if Ingest(s, scan).Commit? {
      var t := Ingest(s, scan).state;
      ScanWellFormed(i, caps, s.enumerated, scan);
      IngestEffect(s, scan, 0);
      forall q | q in i.rows && s.enumerated < q <= t.enumerated && Notified(i.rows[q], caps)
        ensures Arrived(s.work.Keys, t, q, i.rows[q], caps)
      {
        IngestArrives(s, i, caps, scan, q);
      }
      hide Notified;
    }
  }

  lemma NothingAbove(above: set<int>, through: int, i: I.Contents, from: int)
    requires above == set q | q in i.rows && q > from
    ensures above != {} && through == from ==> (set q | q in i.rows && from < q <= through) == {}
    ensures above != {} ==> |above| > 0
  {}

  lemma MetaOf(s: State)
    requires Valid(s)
    ensures 0 <= s.scan <= s.enumerated <= MAX_SEQUENCE
  {}

  lemma ScanWellFormed(i: I.Contents, caps: Capabilities, from: int, scan: Scan)
    requires I.Coherent(i) && ScanFits(i, caps, from, scan)
    ensures forall r :: r in scan.records ==> WellFormed(r.source)
  {
    forall r | r in scan.records ensures WellFormed(r.source) {
      assert RecordFits(i, caps, from, scan, r);
      assert I.RowFits(i, r.sequence, i.rows[r.sequence]);
    }
  }

  lemma IngestArrives(s: State, i: I.Contents, caps: Capabilities, scan: Scan, q: int)
    requires Valid(s) && (forall r :: r in scan.records ==> WellFormed(r.source)) && Ingest(s, scan).Commit?
    requires ScanFits(i, caps, s.enumerated, scan)
    requires q in i.rows && Handed(i, caps, scan, q) && s.enumerated < q && Notified(i.rows[q], caps)
    ensures Arrived(s.work.Keys, Ingest(s, scan).state, q, i.rows[q], caps)
  {
    HandedIs(i, caps, scan, q);
    MetaOf(s);
    IngestDecided(s, scan);
    IngestEffect(s, scan, q);
    var r := Record(q, Told(i.rows[q], caps));
    assert r in scan.records && r.sequence == q;
    var t := Ingest(s, scan).state;
    if q in t.work && q !in s.work {
      var r' := Record(q, t.work[q].source);
      assert RecordFits(i, caps, s.enumerated, scan, r');
    }
    hide Valid, Ingest;
  }

  // Admitting reaches, unless it is refused for room, and that only when 128 more rows would not fit.
  lemma AdmitReaches(s: State, i: I.Contents, caps: Capabilities)
    requires Valid(s) && I.Coherent(i) && AdmitFrom(s, i, caps).failure.None?
    ensures var t := AdmitFrom(s, i, caps).state;
      Reaches(s.enumerated, s.work.Keys, t, i, caps) || (t == s && |s.work| + 128 > 2048)
  {
    IngestReaches(s, i, caps);
    var scan := ScanAfter(i, caps, s.enumerated).value;
    if Ingest(s, scan) == Refuse(Capacity) {
      CapacityMeansFull(s, scan);
      ScanHonest(i, caps, s.enumerated);
    }
    hide Reaches, Valid, ScanAfter, I.Coherent, Ingest;
  }

  lemma CapacityMeansFull(s: State, scan: Scan)
    requires Ingest(s, scan) == Refuse(Capacity)
    ensures |s.work| + |scan.records| > 2048
  {
    if |s.work| + |scan.records| <= MAX_WORK {
      AdmitRoom(s.work, s.scan, scan.records, false);
    }
    hide Admit, Valid, RecordsWithin, IgnoredWithin, Advance;
  }

  /* ----- reconciling ----- */

  // An open row is above the watermark the reader sees and, on a capable bridge, still in the inbox
  // and about the same thing.
  predicate Upheld(t: State, q: int, i: I.Contents, caps: Capabilities) {
    q in t.work && !Closed(t.work[q]) ==>
      && (caps.acknowledgements ==> q > i.ack)
      && (caps == CAPABLE ==> q in i.rows && i.rows[q].source == t.work[q].source)
  }

  ghost predicate AllUpheld(t: State, i: I.Contents, caps: Capabilities) {
    forall q {:trigger Upheld(t, q, i, caps)} :: Upheld(t, q, i, caps)
  }

  lemma RetainedAck(i: I.Contents, caps: Capabilities, sequences: seq<int>)
    requires RetainedOf(i, caps, sequences).Ok? && caps.acknowledgements
    ensures RetainedOf(i, caps, sequences).value.ack == Some(i.ack)
  {
    hide Collect, Askable, ReadRecords, Lowest;
  }

  lemma ReconcileUpholds(s: State, i: I.Contents, caps: Capabilities, q: int)
    requires Valid(s) && I.Coherent(i) && ReconcileFrom(s, i, caps).failure.None?
    ensures var t := ReconcileFrom(s, i, caps).state;
      && Upheld(t, q, i, caps)
      && (q in t.work ==> q in s.work && t.work[q].source == s.work[q].source)
      && (q in t.work && t.work[q].disposition == Pending ==> t.work[q] == s.work[q])
  {
    KeysOf(s);
    FateOf(s, i, caps, q);
    hide Valid, ReconcileFrom, RetainedOf, I.Coherent, Askable, Fate, Explained, Index, Closed;
    if q in s.work {
      Shows(i, caps, Keys(s.work));
      StaysOpen(q, s.work[q], RetainedOf(i, caps, Keys(s.work)).value);
    }
  }

  // A reconciled row is what the snapshot makes of it.
  lemma FateOf(s: State, i: I.Contents, caps: Capabilities, q: int)
    requires Valid(s) && ReconcileFrom(s, i, caps).failure.None?
    ensures RetainedOf(i, caps, Keys(s.work)).Ok?
    ensures var snap := RetainedOf(i, caps, Keys(s.work)).value; var t := ReconcileFrom(s, i, caps).state;
      && (q in s.work ==> Explained(q, s.work[q], snap))
      && (q in t.work ==> q in s.work && t.work[q] == Fate(q, s.work[q], snap))
  {
    hide Valid, RetainedOf, Reconcile, Fate, Explained, Index, Closed;
    var snap := RetainedOf(i, caps, Keys(s.work)).value;
    ReconcileEffect(s, snap, q);
    ReconcileDecided(s, snap);
    assert Reconcile(s, snap).Commit?;
    var wrong := set x | x in s.work && !Explained(x, s.work[x], snap);
    assert wrong == {};
    assert q in s.work && !Explained(q, s.work[q], snap) ==> q in wrong;
  }

  // What a reading shows of the watermark and, to a capable reader, of the rows.
  lemma Shows(i: I.Contents, caps: Capabilities, sequences: seq<int>)
    requires I.Coherent(i) && Askable(sequences) && RetainedOf(i, caps, sequences).Ok?
    ensures var snap := RetainedOf(i, caps, sequences).value;
      && (caps.acknowledgements ==> snap.ack == Some(i.ack))
      && (caps == CAPABLE ==>
            snap.bindings.Some? && snap.pointers.Some?
            && forall q :: q in Index(snap.records) ==> q in i.rows && Index(snap.records)[q] == i.rows[q].source)
  {
    hide RetainedOf, I.Coherent, Askable, Index;
    if caps.acknowledgements {
      RetainedAck(i, caps, sequences);
    }
    if caps == CAPABLE {
      RetainedHonest(i, sequences);
      SnapshotHonest(i);
    }
  }

  lemma ReconcileUpheld(s: State, i: I.Contents, caps: Capabilities)
    requires Valid(s)
    ensures I.Coherent(i) && ReconcileFrom(s, i, caps).failure.None? ==> AllUpheld(ReconcileFrom(s, i, caps).state, i, caps)
  {
    hide Valid, I.Coherent, ReconcileFrom, Upheld;
    if I.Coherent(i) && ReconcileFrom(s, i, caps).failure.None? {
      forall q ensures Upheld(ReconcileFrom(s, i, caps).state, q, i, caps) { ReconcileUpholds(s, i, caps, q); }
    }
  }

  // A row that stays open was not covered, and was shown, unless the snapshot could not tell.
  lemma StaysOpen(q: int, r: Row, snap: Retained)
    requires Explained(q, r, snap)
    ensures var f := Fate(q, r, snap);
      && f.source == r.source && (f.disposition == Pending ==> f == r)
      && (!Closed(f) && snap.ack.Some? ==> q > snap.ack.value)
      && (!Closed(f) && snap.ack.Some? && snap.bindings.Some? && snap.pointers.Some? ==>
            q in Index(snap.records) && Index(snap.records)[q] == r.source)
  {
    hide Index;
  }

  lemma ReconcileMeta(s: State, i: I.Contents, caps: Capabilities)
    requires Valid(s) && ReconcileFrom(s, i, caps).failure.None?
    ensures var t := ReconcileFrom(s, i, caps).state;
      && Valid(t) && t.enumerated == s.enumerated && s.scan <= t.scan && t.attempt.None? && SameMeta(s, t)
  {
    hide Valid, RetainedOf, Reconcile, ReconcileDraft;
    var snap := RetainedOf(i, caps, Keys(s.work)).value;
    ReconcileCloses(s, snap);
    ReconcileValid(s, snap);
  }

  lemma ReconcileValid(s: State, snap: Retained)
    requires Reconcile(s, snap).Commit?
    ensures Valid(Reconcile(s, snap).state)
  {
    hide ReconcileDraft, Valid;
  }

  /* ----- preparing ----- */

  // Preparing reconciles with the first reading and admits from the second: afterwards the second
  // has been scanned as far as a scan goes and what it holds has arrived, or the journal is too
  // full for another scan; and what is reported is what is due in the journal as it now is.
  lemma PrepareReaches(s: State, first: I.Contents, second: I.Contents, now: int, caps: Capabilities)
    requires Valid(s) && I.Coherent(second) && PrepareFrom(s, first, second, now, caps).failure.None?
    ensures var r := PrepareFrom(s, first, second, now, caps); var t := r.state;
      && (Reaches(s.enumerated, s.work.Keys, t, second, caps) || (t.enumerated == s.enumerated && |t.work| + 128 > 2048))
      && 0 <= now <= MAX_SEQUENCE && r.rows == Due(t, now, caps.pointers)
  {
    hide Valid, ReconcileFrom, AdmitFrom, I.Coherent, Due, Reaches;
    ReconcileMeta(s, first, caps);
    var u := ReconcileFrom(s, first, caps).state;
    AdmitReaches(u, second, caps);
    ReconcileKeys(s, first, caps);
    var t := AdmitFrom(u, second, caps).state;
    if Reaches(u.enumerated, u.work.Keys, t, second, caps) {
      ReachesMore(u.enumerated, u.work.Keys, s.work.Keys, t, second, caps);
    }
  }

  lemma ReconcileKeys(s: State, i: I.Contents, caps: Capabilities)
    requires Valid(s) && ReconcileFrom(s, i, caps).failure.None?
    ensures ReconcileFrom(s, i, caps).state.work.Keys <= s.work.Keys
  {
    hide Valid, RetainedOf, Reconcile;
    var snap := RetainedOf(i, caps, Keys(s.work)).value;
    forall q ensures q in Reconcile(s, snap).state.work ==> q in s.work { ReconcileEffect(s, snap, q); }
  }

  // Knowing more rows beforehand only weakens what has to arrive.
  lemma ReachesMore(from: int, fewer: set<int>, known: set<int>, t: State, i: I.Contents, caps: Capabilities)
    requires Reaches(from, fewer, t, i, caps) && fewer <= known
    ensures Reaches(from, known, t, i, caps)
  {
    forall q | q in i.rows && from < q <= t.enumerated && Notified(i.rows[q], caps) ensures Arrived(known, t, q, i.rows[q], caps) {
      assert Arrived(fewer, t, q, i.rows[q], caps);
    }
  }

  /* ----- reserving ----- */

  // rows are the next provider call of a journal in which they are no longer pending: the first
  // eligible row alone if it is a pointer; or else messages in order, ten at most, as long as
  // nothing stands in between; or none, while the first still backs off.
  predicate NextGroup(t: State, rows: seq<int>, now: int, memory: bool) {
    var rest := set q | q in t.work && t.work[q].disposition == Pending && (memory || t.work[q].source == Peer);
    && (rows == [] ==> rest == {} || t.work[Least(rest)].retryAt > now)
    && (rows != [] ==>
          && (forall q :: q in rows ==> q in t.work && q !in rest) && (forall q :: q in rest ==> rows[0] < q)
          && (t.work[rows[0]].source.Pointer? ==> |rows| == 1)
          && (t.work[rows[0]].source == Peer ==>
                && |rows| <= 10 && (forall q :: q in rows ==> t.work[q].source == Peer)
                && (|rows| == 10 || rest == {} || t.work[Least(rest)].source.Pointer? || t.work[Least(rest)].retryAt > now)))
  }

  lemma DueIsNext(s: State, now: int, memory: bool)
    requires Due(s, now, memory) == []
    ensures NextGroup(s, [], now, memory)
  {
    DueIsLongest(s, now, memory);
    hide Due;
  }

  lemma ReservedIsNext(s: State, now: int, memory: bool)
    requires Valid(s) && Due(s, now, memory) != [] && Reserve(s, Due(s, now, memory), now).Commit?
    ensures NextGroup(Reserve(s, Due(s, now, memory), now).state, Due(s, now, memory), now, memory)
  {
    var due := Due(s, now, memory);
    DueIsLongest(s, now, memory);
    RestAfterReserve(s, due, now, memory);
    hide Due, Reserve, Valid;
    var t := Reserve(s, due, now).state;
    var eligible := set q | q in s.work && s.work[q].disposition == Pending && (memory || s.work[q].source == Peer);
    var rest := eligible - (set q | q in due);
    assert due[0] in due;
    forall q | q in rest ensures due[0] < q {
      assert q in eligible && q != due[0];
    }
  }

  lemma RestAfterReserve(s: State, seqs: seq<int>, now: int, memory: bool)
    requires Valid(s) && Reserve(s, seqs, now).Commit?
    ensures var t := Reserve(s, seqs, now).state;
      var eligible := set q | q in s.work && s.work[q].disposition == Pending && (memory || s.work[q].source == Peer);
      var rest := set q | q in t.work && t.work[q].disposition == Pending && (memory || t.work[q].source == Peer);
      && rest == eligible - (set q | q in seqs)
      && (forall q :: q in rest ==> t.work[q] == s.work[q])
      && (forall q :: q in seqs ==> q in t.work && t.work[q].source == s.work[q].source && q !in rest)
  {
    ReserveEffect(s, seqs, now);
    hide Reserve, Valid;
    var t := Reserve(s, seqs, now).state;
    var eligible := set q | q in s.work && s.work[q].disposition == Pending && (memory || s.work[q].source == Peer);
    var rest := set q | q in t.work && t.work[q].disposition == Pending && (memory || t.work[q].source == Peer);
    forall q ensures q in rest <==> q in eligible && q !in seqs {}
    assert rest == eligible - (set q | q in seqs);
  }

  // What is reserved is the next group, and the attempt holds exactly it; nothing is held back that
  // could have gone.
  lemma ReserveTakesNext(s: State, i: I.Contents, now: int, caps: Capabilities)
    requires Valid(s) && ReserveFrom(s, i, now, caps).failure.None?
    ensures var r := ReserveFrom(s, i, now, caps); var t := r.state;
      && NextGroup(t, r.rows, now, caps.pointers)
      && (r.rows == [] ==> t.attempt.None?)
      && (r.rows != [] ==>
            && t.attempt == Some(now) && (forall q :: q in t.members <==> q in r.rows)
            && forall q :: q in r.rows ==>
                 q in s.work && t.work[q] == Row(s.work[q].source, Reserved, s.work[q].attempts + 1, 0, s.work[q].uncertain))
  {
    hide Valid, ReconcileFrom, Due, Reserve, NextGroup;
    ReconcileMeta(s, i, caps);
    var u := ReconcileFrom(s, i, caps).state;
    var due := Due(u, now, caps.pointers);
    if due == [] {
      DueIsNext(u, now, caps.pointers);
    } else {
      ReservedIsNext(u, now, caps.pointers);
      ReserveEffect(u, due, now);
      ReserveDecided(u, due, now);
      var t := Reserve(u, due, now).state;
      forall q | q in due ensures q in s.work && t.work[q] == Row(s.work[q].source, Reserved, s.work[q].attempts + 1, 0, s.work[q].uncertain) {
        PendingKept(s, i, caps, q);
        assert exists k :: 0 <= k < |due| && due[k] == q;
        assert Free(u, q, now);
      }
    }
  }

  lemma PendingKept(s: State, i: I.Contents, caps: Capabilities, q: int)
    requires Valid(s) && ReconcileFrom(s, i, caps).failure.None?
    ensures var t := ReconcileFrom(s, i, caps).state;
      q in t.work && t.work[q].disposition == Pending ==> q in s.work && t.work[q] == s.work[q]
  {
    hide Valid, RetainedOf, Reconcile, Closed, Explained, Index;
    var snap := RetainedOf(i, caps, Keys(s.work)).value;
    ReconcileEffect(s, snap, q);
  }

  // And it is the next group of a journal reconciled with the inbox as it is now.
  lemma ReserveUpheld(s: State, i: I.Contents, now: int, caps: Capabilities)
    requires Valid(s) && I.Coherent(i) && ReserveFrom(s, i, now, caps).failure.None?
    ensures AllUpheld(ReserveFrom(s, i, now, caps).state, i, caps)
  {
    hide Valid, ReconcileFrom, I.Coherent, Due, Reserve;
    ReconcileMeta(s, i, caps);
    var u := ReconcileFrom(s, i, caps).state;
    var due := Due(u, now, caps.pointers);
    forall q ensures Upheld(ReserveFrom(s, i, now, caps).state, q, i, caps) {
      ReconcileUpholds(s, i, caps, q);
      if due != [] {
        ReserveUpholds(u, due, now, i, caps, q);
      }
    }
  }

  lemma ReserveUpholds(u: State, due: seq<int>, now: int, i: I.Contents, caps: Capabilities, q: int)
    requires Valid(u) && Reserve(u, due, now).Commit? && Upheld(u, q, i, caps)
    ensures Upheld(Reserve(u, due, now).state, q, i, caps)
  {
    ReserveEffect(u, due, now);
    ReserveDecided(u, due, now);
    if q in due {
      assert exists k :: 0 <= k < |due| && due[k] == q;
      assert Free(u, q, now);
    }
    hide Reserve, Valid;
  }

  /* ----- getting ready and retrying ----- */

  // Afterwards no attempt is open and pointers are seeded: if they were not, every pointer the inbox
  // shows is in the journal, wherever the frontier stands.
  lemma ReadySeeds(s: State, i: I.Contents, now: int, caps: Capabilities)
    requires Valid(s) && I.Coherent(i) && ReadyFrom(s, i, now, caps).failure.None?
    ensures var t := ReadyFrom(s, i, now, caps).state;
      && t.attempt.None? && t.members == {} && t.seeded
      && (!s.seeded && caps == CAPABLE ==>
            forall q :: q in i.rows && i.rows[q].source.Pointer? ==> q in t.work && t.work[q].source == i.rows[q].source)
  {
    hide SeedRecords, Seed, Recover, I.Coherent;
    RecoverCloses(s, now);
    var u := Recover(s, now).state;
    hide Valid;
    if !u.seeded {
      if caps == CAPABLE {
        SeedHonest(i);
        var records := SeedRecords(i, CAPABLE).value;
        SeedWellFormed(i, records);
        SeedPlain(u, records);
        forall q | q in i.rows && i.rows[q].source.Pointer? ensures q in Seed(u, records).state.work && Seed(u, records).state.work[q].source == i.rows[q].source {
          assert q in PointerRows(i);
          SeedBrings(u, records, Record(q, i.rows[q].source));
        }
      } else if caps.pointers {
        SeedReadable(i, caps);
        SeedPlain(u, SeedRecords(i, caps).value);
      } else {
        SeedPlain(u, []);
      }
    }
  }

  // The pointer capability alone decides what seeding reads.
  lemma SeedReadable(i: I.Contents, caps: Capabilities)
    requires I.Coherent(i) && caps.pointers && SeedRecords(i, caps).Ok?
    ensures forall r :: r in SeedRecords(i, caps).value ==> WellFormed(r.source)
  {
    SeedHonest(i);
    var rows := Lowest(PointerRows(i), POINTER_LIMIT + 1);
    LowestWithin(PointerRows(i), POINTER_LIMIT + 1);
    SameReading(i, caps, rows, []);
    SeedWellFormed(i, SeedRecords(i, CAPABLE).value);
    SnapshotReads(i, caps);
    SnapshotReads(i, CAPABLE);
    hide Snapshot, ReadRecords, Lowest, I.Coherent;
  }

  lemma {:induction false} SameReading(i: I.Contents, caps: Capabilities, rows: seq<int>, records: seq<Record>)
    requires caps.pointers && Among(rows, i.rows.Keys)
    ensures ReadRecords(i, caps, rows, records) == ReadRecords(i, CAPABLE, rows, records)
    decreases |rows|
  {
    if rows != [] {
      SameReading(i, caps, rows[1..], records + [Record(rows[0], i.rows[rows[0]].source)]);
    }
  }

  lemma SeedWellFormed(i: I.Contents, records: seq<Record>)
    requires I.Coherent(i) && forall r :: r in records ==> RecordOf(i, r)
    ensures forall r :: r in records ==> WellFormed(r.source)
  {
    forall r | r in records ensures WellFormed(r.source) {
      assert I.RowFits(i, r.sequence, i.rows[r.sequence]);
    }
  }

  lemma SeedPlain(s: State, records: seq<Record>)
    requires Valid(s) && (forall r :: r in records ==> WellFormed(r.source)) && Seed(s, records).Commit?
    ensures var t := Seed(s, records).state; t.seeded && t.attempt == s.attempt && t.members == s.members
  {
    SeedEffect(s, records, 0);
    hide Seed, Valid;
  }

  lemma SeedBrings(s: State, records: seq<Record>, r: Record)
    requires Valid(s) && !s.seeded && (forall x :: x in records ==> WellFormed(x.source)) && Seed(s, records).Commit? && r in records
    ensures var t := Seed(s, records).state; r.sequence in t.work && t.work[r.sequence].source == r.source
  {
    SeedSurvives(s, records);
    Commits(s, SeedDraft(s, records));
    AdmitEffect(s.work, s.scan, records, true);
    hide Valid, Survives, Complete, Admit, Accrue;
  }

  lemma RecoverCloses(s: State, now: int)
    requires Valid(s) && Recover(s, now).Commit?
    ensures var t := Recover(s, now).state; t.attempt.None? && t.members == {} && t.seeded == s.seeded && Valid(t)
  {
    RecoverEffect(s, now);
    if s.attempt.Some? {
      ResolveCloses(s, OutcomeUnknown, now);
    }
    hide ResolveDraft;
  }

  // A retry revives what it names, and nothing the inbox has released.
  lemma RetryRevives(s: State, i: I.Contents, seqs: seq<int>, caps: Capabilities)
    requires Valid(s) && I.Coherent(i) && RetryFrom(s, i, seqs, caps).failure.None?
    ensures var t := RetryFrom(s, i, seqs, caps).state;
      && AllUpheld(t, i, caps)
      && forall q :: q in seqs ==> q in t.work && t.work[q].disposition == Pending && t.work[q].attempts == 0 && t.work[q].retryAt == 0
  {
    hide Valid, ReconcileFrom, I.Coherent, Retry;
    ReconcileMeta(s, i, caps);
    var u := ReconcileFrom(s, i, caps).state;
    RetryEffect(u, seqs);
    forall q ensures Upheld(Retry(u, seqs).state, q, i, caps) {
      ReconcileUpholds(s, i, caps, q);
      if q in u.work && q in seqs {
        assert !Closed(u.work[q]);
      }
    }
  }

  /* ----- the stages of preparing ----- */

  // Where a stage of preparing may lead, and what it may have done.
  predicate NextStage(i: I.Contents, j: Journey, now: int, stage: Stage, p: Turn) {
    match p
    case Go(k, Holding(snap)) => stage.Entry? && k == j && RetainedOf(i, CAPABLE, Keys(j.state.work)) == Ok(snap)
    case Go(k, Reconciled) => stage.Holding? && ReportOf(j.state, Reconcile(j.state, stage.snap)) == Report(k.state, None, [])
    case Go(k, Scanned(scan)) => stage.Reconciled? && k == j && ScanAfter(i, CAPABLE, j.state.enumerated) == Ok(scan)
    case Go(k, Ingested) =>
      && stage.Scanned?
      && (|| ReportOf(j.state, Ingest(j.state, stage.scan)) == Report(k.state, None, [])
          || (Ingest(j.state, stage.scan) == Refuse(Capacity) && k == j))
    case Go(_, _) => false
    case End(k, Finished(rows)) => stage.Ingested? && k == j && rows == Due(j.state, now, true)
    case End(k, Broke) => k == j
  }

  // Interleaved with anything else, a preparing job goes through all its stages: it admits only what
  // it has scanned, scans only once reconciled, and reports only after admitting, what is then due.
  lemma PrepareStages(i: I.Contents, j: Journey, now: int, stage: Stage)
    ensures NextStage(i, j, now, stage, StepPrepare(i, j, now, stage))
  {
    hide RetainedOf, ScanAfter, Reconcile, Ingest, Due, Observe;
  }

  // Once reconciled it always gets to scan an honest inbox, and no scan but a refused one ends it.
  lemma PrepareGoesOn(i: I.Contents, j: Journey, now: int, stage: Stage)
    ensures stage.Reconciled? && I.Coherent(i) && Valid(j.state) ==> StepPrepare(i, j, now, stage).Go?
    ensures stage.Scanned? && (Ingest(j.state, stage.scan).Commit? || Ingest(j.state, stage.scan) == Refuse(Capacity)) ==>
      StepPrepare(i, j, now, stage).Go?
  {
    hide RetainedOf, ScanAfter, Reconcile, Ingest, Due, Observe, Valid, I.Coherent;
    if stage.Reconciled? && I.Coherent(i) && Valid(j.state) {
      MetaOf(j.state);
      ScanHonest(i, CAPABLE, j.state.enumerated);
    }
  }
}
