/** What the reads of any inbox accept and refuse, damaged tables included, and what the bridge's
    capabilities change about them. */
module SourceEffects {
  import opened Common
  import opened JournalModel
  import opened Inbox
  import opened InboxSource

  // A pointer row a read accepts: well formed, and of its binding's current lifetime.
  predicate Current(i: Contents, q: int) {
    && q in i.rows && i.rows[q].source.Pointer? && 1 <= q <= MAX_SEQUENCE && WellFormed(i.rows[q].source)
    && i.rows[q].source.binding in i.bindings && i.bindings[i.rows[q].source.binding].instance == i.rows[q].source.instance
  }

  predicate Alone(i: Contents, rows: seq<int>, found: map<string, Record>, a: int)
    requires Among(rows, PointerRows(i)) && 0 <= a < |rows|
  {
    && i.rows[rows[a]].source.binding !in found
    && forall b :: a < b < |rows| ==> i.rows[rows[b]].source.binding != i.rows[rows[a]].source.binding
  }

  // Two pointers of one binding.
  predicate Twins(i: Contents, p: int, q: int) {
    && p in i.rows && i.rows[p].source.Pointer? && q in i.rows && i.rows[q].source.Pointer?
    && i.rows[p].source.binding == i.rows[q].source.binding
  }

  ghost predicate AllAccepted(i: Contents, rows: seq<int>, found: map<string, Record>)
    requires Among(rows, PointerRows(i))
  {
    forall a :: 0 <= a < |rows| ==> Current(i, rows[a]) && Alone(i, rows, found, a)
  }

  lemma {:induction false} CollectExact(i: Contents, rows: seq<int>, found: map<string, Record>)
    requires Among(rows, PointerRows(i))
    ensures Collect(i, rows, found).Ok? <==> AllAccepted(i, rows, found)
    decreases |rows|
  {
    hide Current, Collect;
    if rows == [] {
      CollectNone(i, rows, found);
    } else {
      assert rows[0] in PointerRows(i);
      if Current(i, rows[0]) && i.rows[rows[0]].source.binding !in found {
        CollectOn(i, rows, found);
        CollectExact(i, rows[1..], found[i.rows[rows[0]].source.binding := Record(rows[0], i.rows[rows[0]].source)]);
        RestAccepted(i, rows, found);
      } else {
        CollectStops(i, rows, found);
        assert !(Current(i, rows[0]) && Alone(i, rows, found, 0));
      }
    }
  }

  lemma CollectNone(i: Contents, rows: seq<int>, found: map<string, Record>)
    requires Among(rows, PointerRows(i)) && rows == []
    ensures Collect(i, rows, found).Ok?
  {}

  lemma RestAccepted(i: Contents, rows: seq<int>, found: map<string, Record>)
    requires Among(rows, PointerRows(i)) && rows != [] && Current(i, rows[0]) && i.rows[rows[0]].source.binding !in found
    requires Among(rows[1..], PointerRows(i))
    ensures AllAccepted(i, rows, found) <==>
      AllAccepted(i, rows[1..], found[i.rows[rows[0]].source.binding := Record(rows[0], i.rows[rows[0]].source)])
  {
    hide Current;
    var rest, source := rows[1..], i.rows[rows[0]].source;
    var more := found[source.binding := Record(rows[0], source)];
    forall a | 0 <= a < |rest| ensures Alone(i, rest, more, a) <==> Alone(i, rows, found, a + 1) && i.rows[rows[a + 1]].source.binding != source.binding {
      assert rest[a] == rows[a + 1];
      assert forall b :: a < b < |rest| ==> rest[b] == rows[b + 1];
      assert forall b :: a + 1 < b < |rows| ==> rows[b] == rest[b - 1];
    }
    if AllAccepted(i, rest, more) {
      forall a | 0 <= a < |rows| ensures Current(i, rows[a]) && Alone(i, rows, found, a) {
        if a > 0 {
          assert rest[a - 1] == rows[a] && Alone(i, rest, more, a - 1);
        } else {
          forall b | 0 < b < |rows| ensures i.rows[rows[b]].source.binding != source.binding {
            assert Alone(i, rest, more, b - 1);
          }
        }
      }
    }
    if AllAccepted(i, rows, found) {
      assert Alone(i, rows, found, 0);
      forall a | 0 <= a < |rest| ensures Current(i, rest[a]) && Alone(i, rest, more, a) {
        assert rest[a] == rows[a + 1] && Alone(i, rows, found, a + 1);
      }
    }
  }

  lemma CollectOn(i: Contents, rows: seq<int>, found: map<string, Record>)
    requires Among(rows, PointerRows(i)) && rows != [] && Current(i, rows[0]) && i.rows[rows[0]].source.binding !in found
    ensures Among(rows[1..], PointerRows(i))
    ensures Collect(i, rows, found) == Collect(i, rows[1..], found[i.rows[rows[0]].source.binding := Record(rows[0], i.rows[rows[0]].source)])
  {
    hide WellFormed;
  }

  lemma CollectStops(i: Contents, rows: seq<int>, found: map<string, Record>)
    requires Among(rows, PointerRows(i)) && rows != [] && !(Current(i, rows[0]) && i.rows[rows[0]].source.binding !in found)
    ensures Collect(i, rows, found).Err?
  {
    assert rows[0] in PointerRows(i);
    hide WellFormed;
  }

  // A snapshot is refused for more than sixteen bindings or pointers, for a pointer that is not of
  // its binding's current lifetime, and for a second pointer of one binding; for nothing else.
  lemma SnapshotAccepts(i: Contents, caps: Capabilities)
    ensures var s := Snapshot(i, caps);
      && (s.Ok? <==> caps.pointers ==>
            && |i.bindings| <= 16 && |set q | q in i.rows && i.rows[q].source.Pointer?| <= 16
            && (forall q :: q in i.rows && i.rows[q].source.Pointer? ==> Current(i, q))
            && (forall p, q :: Twins(i, p, q) ==> p == q))
  {
    hide Current;
    if caps.pointers {
      assert |Instances(i)| == |i.bindings| by {
        assert Instances(i).Keys == i.bindings.Keys;
        assert |Instances(i)| == |Instances(i).Keys| && |i.bindings| == |i.bindings.Keys|;
      }
      var all := PointerRows(i);
      assert all == set q | q in i.rows && i.rows[q].source.Pointer?;
      var rows := Lowest(all, POINTER_LIMIT + 1);
      LowestWithin(all, POINTER_LIMIT + 1);
      LowestFacts(all, POINTER_LIMIT + 1);
      CollectExact(i, rows, map[]);
      if |all| <= POINTER_LIMIT {
        AllAlone(i, rows);
      }
      hide Lowest, Collect;
    }
  }

  lemma AllAlone(i: Contents, rows: seq<int>)
    requires Among(rows, PointerRows(i)) && Ascending(rows) && forall q :: q in PointerRows(i) ==> q in rows
    ensures AllAccepted(i, rows, map[]) <==>
      && (forall q :: q in i.rows && i.rows[q].source.Pointer? ==> Current(i, q))
      && (forall p, q :: Twins(i, p, q) ==> p == q)
  {
    hide Current;
    if AllAccepted(i, rows, map[]) {
      forall p, q | p in PointerRows(i) && q in PointerRows(i) && i.rows[p].source.binding == i.rows[q].source.binding ensures p == q {
        var a :| 0 <= a < |rows| && rows[a] == p;
        var b :| 0 <= b < |rows| && rows[b] == q;
        assert Alone(i, rows, map[], a) && Alone(i, rows, map[], b);
      }
      forall q | q in PointerRows(i) ensures Current(i, q) {
        var a :| 0 <= a < |rows| && rows[a] == q;
      }
    } else {
      var a :| 0 <= a < |rows| && !(Current(i, rows[a]) && Alone(i, rows, map[], a));
      assert rows[a] in PointerRows(i);
      if Current(i, rows[a]) {
        var b :| a < b < |rows| && i.rows[rows[b]].source.binding == i.rows[rows[a]].source.binding;
        assert rows[b] in PointerRows(i) && rows[a] != rows[b] && Twins(i, rows[a], rows[b]);
      }
    }
  }

  // What a reader is told depends on what the bridge can do: the watermark and the activation with
  // acknowledgements, bindings and pointers with pointers, and nothing in their place without.
  lemma SnapshotShows(i: Contents, caps: Capabilities)
    requires Snapshot(i, caps).Ok?
    ensures var v := Snapshot(i, caps).value;
      && v.ack == (if caps.acknowledgements then Some(i.ack) else None)
      && (caps.acknowledgements ==> v.activation == i.activation) && (!caps.acknowledgements ==> v.activation.None?)
      && (v.bindings.Some? <==> caps.pointers) && (v.pointers.Some? <==> caps.pointers)
      && (v.bindings.Some? ==>
            v.bindings.value.Keys == i.bindings.Keys && forall k :: k in i.bindings ==> v.bindings.value[k] == i.bindings[k].instance)
  {}

  // Without the pointer capability every row is read as a message, a frame that is none is only
  // noted, and there is nothing to seed.
  lemma ReadingAs(i: Contents, caps: Capabilities, e: Entry)
    ensures Projected(caps, e) == if caps.pointers then e.source else Peer
    ensures Skipped(caps, e) <==> !e.user && (caps.pointers ==> e.source == Peer)
    ensures !caps.pointers ==> SeedRecords(i, caps) == Err(VersionMismatch)
  {}

  // Rows are asked for by distinct positions in range, at most two thousand and forty-eight; an
  // inbox that cannot be read at all answers with that.
  lemma AskedRightly(i: Contents, caps: Capabilities, sequences: seq<int>)
    ensures var right := && |sequences| <= 2048 && (forall a, b :: 0 <= a < b < |sequences| ==> sequences[a] != sequences[b])
                         && (forall q :: q in sequences ==> 1 <= q <= MAX_SEQUENCE);
      && (!right ==> RetainedOf(i, caps, sequences) == Err(InvalidSequence))
      && (right && Snapshot(i, caps).Err? ==> RetainedOf(i, caps, sequences) == Err(Snapshot(i, caps).error))
  {
    hide Snapshot;
  }

  // Exactly the rows asked for, in order, each as this reader sees it.
  predicate ReadAs(i: Contents, caps: Capabilities, sequences: seq<int>, records: seq<Record>) {
    && (forall a, b :: 0 <= a < b < |records| ==> records[a].sequence < records[b].sequence)
    && (forall r :: r in records ==>
          r.sequence in sequences && r.sequence in i.rows && r.source == Projected(caps, i.rows[r.sequence]))
    && (forall q :: q in sequences && q in i.rows ==> Record(q, Projected(caps, i.rows[q])) in records)
  }

  // The rows asked for come back in order, each as this reader sees it.
  lemma RetainedReads(i: Contents, caps: Capabilities, sequences: seq<int>)
    requires Askable(sequences) && Snapshot(i, caps).Ok?
    requires forall q :: q in sequences && q in i.rows ==> RowError(q, Projected(caps, i.rows[q])).None?
    ensures RetainedOf(i, caps, sequences).Ok?
    ensures var r := RetainedOf(i, caps, sequences).value; var v := Snapshot(i, caps).value;
      && r.ack == v.ack && r.bindings == v.bindings && r.pointers == v.pointers
      && ReadAs(i, caps, sequences, r.records)
  {
    hide Snapshot, RowError, Projected, Askable, ReadRecords, Asked, ReadAs;
    AskedExact(i, caps, sequences);
  }

  lemma AskedExact(i: Contents, caps: Capabilities, sequences: seq<int>)
    requires forall q :: q in sequences && q in i.rows ==> RowError(q, Projected(caps, i.rows[q])).None?
    ensures Among(Lowest(Asked(i, sequences), |sequences|), i.rows.Keys)
    ensures var r := ReadRecords(i, caps, Lowest(Asked(i, sequences), |sequences|), []);
      r.Ok? && ReadAs(i, caps, sequences, r.value)
  {
    hide RowError, Projected, ReadRecords, ReadAs, Lowest;
    AskedRows(i, sequences);
    RowsReadAs(i, caps, sequences, Lowest(Asked(i, sequences), |sequences|));
  }

  // The rows looked up, in order.
  lemma AskedRows(i: Contents, sequences: seq<int>)
    ensures var rows := Lowest(Asked(i, sequences), |sequences|);
      && Ascending(rows) && Among(rows, i.rows.Keys) && forall q :: q in rows <==> q in sequences && q in i.rows
  {
    var asked := Asked(i, sequences);
    LowestWithin(asked, |sequences|);
    LowestFacts(asked, |sequences|);
    AskedFew(i, sequences);
    hide Lowest;
    var rows := Lowest(asked, |sequences|);
    forall q ensures q in rows <==> q in sequences && q in i.rows {
      assert q in asked <==> q in sequences && q in i.rows;
      if q in rows {
        var a :| 0 <= a < |rows| && rows[a] == q;
      }
    }
    forall a | 0 <= a < |rows| ensures rows[a] in i.rows.Keys {}
  }

  lemma RowsReadAs(i: Contents, caps: Capabilities, sequences: seq<int>, rows: seq<int>)
    requires Ascending(rows) && Among(rows, i.rows.Keys) && forall q :: q in rows <==> q in sequences && q in i.rows
    requires forall q :: q in rows ==> q in i.rows && RowError(q, Projected(caps, i.rows[q])).None?
    ensures ReadRecords(i, caps, rows, []).Ok? && ReadAs(i, caps, sequences, ReadRecords(i, caps, rows, []).value)
  {
    hide RowError, Projected, ReadRecords;
    var none: seq<Record> := [];
    assert forall a :: 0 <= a < |rows| ==> rows[a] in rows;
    RecordsExact(i, caps, rows, none);
    var records := ReadRecords(i, caps, rows, none).value;
    forall a | 0 <= a < |rows| ensures records[a] == Record(rows[a], Projected(caps, i.rows[rows[a]])) {
      assert records[|none| + a] == Record(rows[a], Projected(caps, i.rows[rows[a]]));
    }
    forall q | q in rows ensures Record(q, Projected(caps, i.rows[q])) in records {
      var a :| 0 <= a < |rows| && rows[a] == q;
      assert records[a] == Record(q, Projected(caps, i.rows[q]));
    }
  }

  lemma {:induction false} AskedFew(i: Contents, sequences: seq<int>)
    ensures |Asked(i, sequences)| <= |sequences|
    decreases |sequences|
  {
    if sequences == [] {
      assert Asked(i, sequences) == {};
    } else {
      var init, last := sequences[..|sequences| - 1], sequences[|sequences| - 1];
      AskedFew(i, init);
      assert forall q :: q in sequences <==> q in init || q == last;
      assert Asked(i, sequences) <= Asked(i, init) + {last};
      SubsetSize(Asked(i, sequences), Asked(i, init) + {last});
    }
  }

  lemma {:induction false} RecordsExact(i: Contents, caps: Capabilities, rows: seq<int>, records: seq<Record>)
    requires Among(rows, i.rows.Keys) && forall a :: 0 <= a < |rows| ==> RowError(rows[a], Projected(caps, i.rows[rows[a]])).None?
    ensures ReadRecords(i, caps, rows, records).Ok?
    ensures var out := ReadRecords(i, caps, rows, records).value;
      && |out| == |records| + |rows| && out[..|records|] == records
      && forall a :: 0 <= a < |rows| ==> out[|records| + a] == Record(rows[a], Projected(caps, i.rows[rows[a]]))
    decreases |rows|
  {
    hide RowError, Projected;
    if rows != [] {
      var more := records + [Record(rows[0], Projected(caps, i.rows[rows[0]]))];
      RecordsExact(i, caps, rows[1..], more);
      var out := ReadRecords(i, caps, rows, records).value;
      assert out[..|records|] == out[..|more|][..|records|];
      forall a | 0 <= a < |rows| ensures out[|records| + a] == Record(rows[a], Projected(caps, i.rows[rows[a]])) {
        if a == 0 {
          assert out[..|more|][|records|] == more[|records|];
        } else {
          assert rows[1..][a - 1] == rows[a] && |records| + a == |more| + (a - 1);
        }
      }
    }
  }
}
