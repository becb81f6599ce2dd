/** What a read of an honest inbox tells the journal: it never fails, and it accounts for every
    row it was asked about. */
module SourceProofs {
  import opened Common
  import opened JournalModel
  import opened Inbox
  import opened InboxSource

  /* ----- the snapshot ----- */

  // Distinct pointers have distinct bindings, so there are no more pointers than bindings.
  lemma {:induction false} PointersFit(i: Contents, rows: set<int>, keys: set<string>)
    requires Coherent(i) && rows <= PointerRows(i)
    requires forall q :: q in rows ==> i.rows[q].source.binding in keys
    ensures |rows| <= |keys|
    decreases |rows|
  {
    if rows != {} {
      var q := Least(rows);
      var key := i.rows[q].source.binding;
      assert q in PointerRows(i);
      forall p | p in rows - {q} ensures i.rows[p].source.binding in keys - {key} {
        assert OnePointer(i, q, p);
      }
      PointersFit(i, rows - {q}, keys - {key});
    }
  }

  lemma PointerRoom(i: Contents)
    requires Coherent(i)
    ensures |PointerRows(i)| <= POINTER_LIMIT && |Instances(i)| <= POINTER_LIMIT
  {
    assert Instances(i).Keys == i.bindings.Keys;
    forall q | q in PointerRows(i) ensures i.rows[q].source.binding in i.bindings.Keys {
      assert RowFits(i, q, i.rows[q]);
    }
    PointersFit(i, PointerRows(i), i.bindings.Keys);
  }

  predicate Indexed(i: Contents, pointers: map<string, Record>, key: string) {
    key in pointers ==>
      var q := pointers[key].sequence;
      q in PointersOf(i.rows, key) && pointers[key].source == i.rows[q].source
  }

  lemma {:induction false} CollectHonest(i: Contents, rows: seq<int>, found: map<string, Record>)
    requires Coherent(i) && Among(rows, PointerRows(i)) && Ascending(rows)
    requires forall k :: k in found ==> Indexed(i, found, k) && found[k].sequence !in rows
    ensures Collect(i, rows, found).Ok?
    ensures var pointers := Collect(i, rows, found).value;
      && (forall k {:trigger Indexed(i, pointers, k)} :: k in pointers ==> Indexed(i, pointers, k))
      && (forall k :: k in found ==> k in pointers)
      && (forall a :: 0 <= a < |rows| ==> i.rows[rows[a]].source.binding in pointers)
    decreases |rows|
  {
    if rows != [] {
      var q := rows[0];
      var source := i.rows[q].source;
      assert q in PointerRows(i) && RowFits(i, q, i.rows[q]);
      forall k | k in found ensures k != source.binding {
        assert Indexed(i, found, k);
        assert OnePointer(i, q, found[k].sequence);
        assert rows[0] in rows;
      }
      var found' := found[source.binding := Record(q, source)];
      forall k | k in found' ensures Indexed(i, found', k) && found'[k].sequence !in rows[1..] {
        assert k != source.binding ==> Indexed(i, found, k);
        assert forall x :: x in rows[1..] ==> x in rows;
      }
      CollectHonest(i, rows[1..], found');
      forall a | 0 <= a < |rows| ensures i.rows[rows[a]].source.binding in Collect(i, rows, found).value {
        if a > 0 {
          assert rows[a] == rows[1..][a - 1];
        } else {
          assert source.binding in found';
        }
      }
    }
  }

  // A coherent inbox never shows a duplicate pointer or one of another lifetime, and the
  // snapshot lists each binding's current pointer.
  lemma SnapshotHonest(i: Contents)
    requires Coherent(i)
    ensures Snapshot(i, CAPABLE).Ok?
    ensures var view := Snapshot(i, CAPABLE).value;
      && view.ack == Some(i.ack) && view.activation == i.activation && view.bindings == Some(Instances(i))
      && view.pointers.Some?
      && (forall k {:trigger Indexed(i, view.pointers.value, k)} :: Indexed(i, view.pointers.value, k))
      && (forall q :: q in PointerRows(i) ==> i.rows[q].source.binding in view.pointers.value)
  {
    PointerRoom(i);
    var rows := Lowest(PointerRows(i), POINTER_LIMIT + 1);
    LowestWithin(PointerRows(i), POINTER_LIMIT + 1);
    LowestFacts(PointerRows(i), POINTER_LIMIT + 1);
    CollectHonest(i, rows, map[]);
    forall q | q in PointerRows(i) ensures i.rows[q].source.binding in Collect(i, rows, map[]).value {
      assert q in rows;
    }
  }

  /* ----- scanning ----- */

  predicate Handed(i: Contents, caps: Capabilities, scan: Scan, q: int) {
    q in i.rows && (if Skipped(caps, i.rows[q]) then q in scan.ignored else Record(q, Projected(caps, i.rows[q])) in scan.records)
  }

  predicate RecordFits(i: Contents, caps: Capabilities, from: int, scan: Scan, r: Record) {
    && from < r.sequence <= scan.through && r.sequence in i.rows && Projected(caps, i.rows[r.sequence]) == r.source
    && !Skipped(caps, i.rows[r.sequence])
  }

  predicate IgnoredFits(i: Contents, caps: Capabilities, from: int, scan: Scan, q: int) {
    from < q <= scan.through && q in i.rows && Skipped(caps, i.rows[q])
  }

  predicate RecordsAscend(records: seq<Record>) {
    forall a, b :: 0 <= a < b < |records| ==> records[a].sequence < records[b].sequence
  }

  predicate ScanFits(i: Contents, caps: Capabilities, from: int, scan: Scan) {
    && from <= scan.through
    && (forall r {:trigger RecordFits(i, caps, from, scan, r)} :: r in scan.records ==> RecordFits(i, caps, from, scan, r))
    && (forall q {:trigger IgnoredFits(i, caps, from, scan, q)} :: q in scan.ignored ==> IgnoredFits(i, caps, from, scan, q))
    && Ascending(scan.ignored) && RecordsAscend(scan.records)
  }

  lemma NoRowError(i: Contents, caps: Capabilities, q: int)
    requires Coherent(i) && q in i.rows
    ensures RowError(q, Projected(caps, i.rows[q])).None?
  {
    assert RowFits(i, q, i.rows[q]);
  }

  lemma ReadOne(i: Contents, caps: Capabilities, from: int, scan: Scan, q: int)
    requires ScanFits(i, caps, from, scan) && q in i.rows && scan.through < q
    ensures var next := After(i, caps, scan, q); ScanFits(i, caps, from, next) && Handed(i, caps, next, q)
  {
    var e := i.rows[q];
    var next := After(i, caps, scan, q);
    assert next.records != scan.records ==> next.records[|scan.records|] == Record(q, Projected(caps, e));
    assert next.ignored != scan.ignored ==> next.ignored[|scan.ignored|] == q;
    forall r | r in next.records ensures RecordFits(i, caps, from, next, r) {
      assert r in scan.records ==> RecordFits(i, caps, from, scan, r);
    }
    forall x | x in next.ignored ensures IgnoredFits(i, caps, from, next, x) {
      assert x in scan.ignored ==> IgnoredFits(i, caps, from, scan, x);
    }
    forall a, b | 0 <= a < b < |next.records| ensures next.records[a].sequence < next.records[b].sequence {
      assert scan.records[a] in scan.records;
      assert RecordFits(i, caps, from, scan, scan.records[a]);
    }
    forall a, b | 0 <= a < b < |next.ignored| ensures next.ignored[a] < next.ignored[b] {
      assert scan.ignored[a] in scan.ignored;
      assert IgnoredFits(i, caps, from, scan, scan.ignored[a]);
    }
  }

  function After(i: Contents, caps: Capabilities, scan: Scan, q: int): Scan
    requires q in i.rows
  {
    if Skipped(caps, i.rows[q]) then Scan(q, scan.records, scan.ignored + [q])
    else Scan(q, scan.records + [Record(q, Projected(caps, i.rows[q]))], scan.ignored)
  }

  lemma ReadStep(i: Contents, caps: Capabilities, rows: seq<int>, scan: Scan)
    requires Coherent(i) && Among(rows, i.rows.Keys) && rows != []
    ensures Among(rows[1..], i.rows.Keys)
    ensures Read(i, caps, rows, scan) == Read(i, caps, rows[1..], After(i, caps, scan, rows[0]))
  {
    NoRowError(i, caps, rows[0]);
    hide Coherent;
  }

  lemma HandedOn(i: Contents, caps: Capabilities, scan: Scan, q: int)
    requires q in i.rows
    ensures forall x :: Handed(i, caps, scan, x) ==> Handed(i, caps, After(i, caps, scan, q), x)
  {}

  lemma {:induction false} ReadHonest(i: Contents, caps: Capabilities, rows: seq<int>, from: int, scan: Scan)
    requires Coherent(i) && Among(rows, i.rows.Keys) && Ascending(rows)
    requires ScanFits(i, caps, from, scan) && (rows != [] ==> scan.through < rows[0])
    ensures Read(i, caps, rows, scan).Ok?
    ensures var out := Read(i, caps, rows, scan).value;
      && ScanFits(i, caps, from, out)
      && out.through == (if rows == [] then scan.through else rows[|rows| - 1])
      && |out.records| + |out.ignored| == |scan.records| + |scan.ignored| + |rows|
      && (forall x :: Handed(i, caps, scan, x) ==> Handed(i, caps, out, x))
      && (forall a :: 0 <= a < |rows| ==> Handed(i, caps, out, rows[a]))
    decreases |rows|
  {
    hide Coherent, ScanFits, Handed;
    if rows != [] {
      var q := rows[0];
      ReadOne(i, caps, from, scan, q);
      ReadStep(i, caps, rows, scan);
      HandedOn(i, caps, scan, q);
      ReadHonest(i, caps, rows[1..], from, After(i, caps, scan, q));
      hide Read;
      forall a | 0 <= a < |rows| ensures Handed(i, caps, Read(i, caps, rows, scan).value, rows[a]) {
        assert a > 0 ==> rows[a] == rows[1..][a - 1];
      }
    }
  }

  lemma SnapshotReads(i: Contents, caps: Capabilities)
    requires Coherent(i)
    ensures Snapshot(i, caps).Ok?
  {
    if caps.pointers {
      SnapshotHonest(i);
    }
  }

  // Reading the lowest rows above a position covers every row up to the last one read.
  lemma LowestCover(i: Contents, from: int, rows: seq<int>, through: int)
    requires Coherent(i) && rows == Lowest(Above(i, from), SCAN_LIMIT)
    requires through == if rows == [] then from else rows[|rows| - 1]
    ensures Among(rows, i.rows.Keys) && Ascending(rows) && (rows != [] ==> from < rows[0])
    ensures through <= Max(from, i.head)
    ensures forall q :: q in i.rows && from < q <= through ==> q in rows
    ensures |rows| < SCAN_LIMIT ==> forall q :: q in i.rows ==> q <= through
  {
    var above := Above(i, from);
    LowestWithin(above, SCAN_LIMIT);
    LowestFacts(above, SCAN_LIMIT);
    forall k | 0 <= k < |rows| ensures rows[k] in i.rows && rows[k] > from {
      assert rows[k] in above;
    }
    if rows != [] {
      assert rows[|rows| - 1] in rows;
      assert RowFits(i, through, i.rows[through]);
    }
    forall q | q in i.rows && from < q <= through ensures q in rows {
      assert q in above;
    }
    if |rows| < SCAN_LIMIT {
      forall q | q in i.rows ensures q <= through {
        if q > from {
          assert q in above && q in rows;
          var a :| 0 <= a < |rows| && rows[a] == q;
        }
      }
    }
  }

  // A scan reaches no farther than the head, hands over every row it passed, and stops only at
  // its size limit.
  lemma ScanHonest(i: Contents, caps: Capabilities, from: int)
    requires Coherent(i) && 0 <= from <= MAX_SEQUENCE
    ensures ScanAfter(i, caps, from).Ok?
    ensures var scan := ScanAfter(i, caps, from).value;
      && ScanFits(i, caps, from, scan) && scan.through <= Max(from, i.head)
      && |scan.records| + |scan.ignored| <= SCAN_LIMIT
      && (forall q :: q in i.rows && from < q <= scan.through ==> Handed(i, caps, scan, q))
      && (|scan.records| + |scan.ignored| < SCAN_LIMIT ==> forall q :: q in i.rows ==> q <= scan.through)
      && (scan.through == from || scan.through in i.rows)
      && |scan.records| + |scan.ignored| == Min(SCAN_LIMIT, |set q | q in i.rows && q > from|)
  {
    hide Coherent, Snapshot, Handed, Ascending;
    SnapshotReads(i, caps);
    var rows := Lowest(Above(i, from), SCAN_LIMIT);
    var through := if rows == [] then from else rows[|rows| - 1];
    LowestFacts(Above(i, from), SCAN_LIMIT);
    LowestCover(i, from, rows, through);
    NothingRead(i, caps, from);
    ReadHonest(i, caps, rows, from, Scan(from, [], []));
    hide ScanFits;
    var scan := ScanAfter(i, caps, from).value;
    forall q | q in i.rows && from < q <= scan.through ensures Handed(i, caps, scan, q) {
      assert q in rows;
      var a :| 0 <= a < |rows| && rows[a] == q;
    }
  }

  lemma NothingRead(i: Contents, caps: Capabilities, from: int)
    ensures ScanFits(i, caps, from, Scan(from, [], []))
  {}

  /* ----- seeding and reconciling ----- */

  predicate RecordOf(i: Contents, r: Record) {
    r.sequence in i.rows && i.rows[r.sequence].source == r.source
  }

  lemma {:induction false} RecordsHonest(i: Contents, rows: seq<int>, records: seq<Record>)
    requires Coherent(i) && Among(rows, i.rows.Keys)
    requires forall r :: r in records ==> RecordOf(i, r)
    ensures ReadRecords(i, CAPABLE, rows, records).Ok?
    ensures var out := ReadRecords(i, CAPABLE, rows, records).value;
      && |out| == |records| + |rows|
      && (forall r :: r in out ==> RecordOf(i, r))
      && (forall r :: r in records ==> r in out)
      && (forall a :: 0 <= a < |rows| ==> Record(rows[a], i.rows[rows[a]].source) in out)
      && (forall r :: r in out ==> r in records || r.sequence in rows)
    decreases |rows|
  {
    if rows != [] {
      var q := rows[0];
      NoRowError(i, CAPABLE, q);
      var next := records + [Record(q, i.rows[q].source)];
      assert next[|records|] == Record(q, i.rows[q].source);
      assert forall r :: r in next <==> r in records || r == Record(q, i.rows[q].source);
      RecordsHonest(i, rows[1..], next);
      var out := ReadRecords(i, CAPABLE, rows, records).value;
      assert out == ReadRecords(i, CAPABLE, rows[1..], next).value;
      forall a | 0 <= a < |rows| ensures Record(rows[a], i.rows[rows[a]].source) in out {
        assert a > 0 ==> rows[a] == rows[1..][a - 1];
      }
      forall r | r in out ensures r in records || r.sequence in rows {
        assert rows[0] in rows && forall x :: x in rows[1..] ==> x in rows;
      }
    }
  }

  lemma SeedHonest(i: Contents)
    requires Coherent(i)
    ensures SeedRecords(i, CAPABLE).Ok?
    ensures var records := SeedRecords(i, CAPABLE).value;
      && |records| <= POINTER_LIMIT
      && (forall r :: r in records ==> RecordOf(i, r) && r.source.Pointer?)
      && (forall q :: q in PointerRows(i) ==> Record(q, i.rows[q].source) in records)
  {
    SnapshotHonest(i);
    PointerRoom(i);
    var rows := Lowest(PointerRows(i), POINTER_LIMIT + 1);
    LowestWithin(PointerRows(i), POINTER_LIMIT + 1);
    LowestFacts(PointerRows(i), POINTER_LIMIT + 1);
    RecordsHonest(i, rows, []);
    var records := SeedRecords(i, CAPABLE).value;
    forall r | r in records ensures r.source.Pointer? {
      assert r.sequence in rows;
      var a :| 0 <= a < |rows| && rows[a] == r.sequence;
      assert rows[a] in PointerRows(i);
    }
    forall q | q in PointerRows(i) ensures Record(q, i.rows[q].source) in records {
      assert q in rows;
      var a :| 0 <= a < |rows| && rows[a] == q;
    }
  }

  lemma {:induction false} IndexHonest(i: Contents, records: seq<Record>)
    requires forall r :: r in records ==> RecordOf(i, r)
    ensures forall q :: q in Index(records) ==> q in i.rows && Index(records)[q] == i.rows[q].source
    ensures forall r :: r in records ==> r.sequence in Index(records)
  {
    if records != [] {
      var init, last := records[..|records| - 1], records[|records| - 1];
      assert forall r :: r in records <==> r in init || r == last;
      IndexHonest(i, init);
    }
  }

  // Asked about some rows, the source names exactly those it still holds, as they are.
  lemma RetainedHonest(i: Contents, sequences: seq<int>)
    requires Coherent(i) && Askable(sequences)
    ensures RetainedOf(i, CAPABLE, sequences).Ok?
    ensures var snap := RetainedOf(i, CAPABLE, sequences).value; var view := Snapshot(i, CAPABLE).value;
      && Snapshot(i, CAPABLE).Ok?
      && snap.ack == Some(i.ack) && snap.bindings == Some(Instances(i)) && snap.pointers == view.pointers
      && (forall q :: q in Index(snap.records) ==> q in i.rows && Index(snap.records)[q] == i.rows[q].source)
      && (forall q :: q in sequences && q in i.rows ==> q in Index(snap.records))
  {
    SnapshotHonest(i);
    var asked := Asked(i, sequences);
    var rows := Lowest(asked, |sequences|);
    LowestWithin(asked, |sequences|);
    LowestFacts(asked, |sequences|);
    AskedSize(i, sequences);
    RecordsHonest(i, rows, []);
    var records := ReadRecords(i, CAPABLE, rows, []).value;
    IndexHonest(i, records);
    forall q | q in sequences && q in i.rows ensures q in Index(records) {
      assert q in asked && q in rows;
      var a :| 0 <= a < |rows| && rows[a] == q;
      assert Record(q, i.rows[q].source) in records;
    }
  }

  lemma {:induction false} AskedSize(i: Contents, sequences: seq<int>)
    ensures |Asked(i, sequences)| <= |sequences|
  {
    if sequences != [] {
      var init, last := sequences[..|sequences| - 1], sequences[|sequences| - 1];
      AskedSize(i, init);
      assert forall q :: q in sequences <==> q in init || q == last;
      SubsetSize(Asked(i, sequences), Asked(i, init) + {last});
    } else {
      assert Asked(i, sequences) == {};
    }
  }
}
