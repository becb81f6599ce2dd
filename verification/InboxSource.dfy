/** Bounded point-in-time reads of the inbox, as the notifier takes them: the functions say what
    a read returns, and the methods compute it row by row. */
module InboxSource {
  import opened Common
  import opened JournalModel
  import opened Inbox

  const RECONCILE_LIMIT: nat := 2048

  datatype SourceError = BindingCapacity | InvalidSequence | PointerCapacity | PointerInvalid | VersionMismatch

  datatype Result<+T> = Ok(value: T) | Err(error: SourceError)

  // What the running bridge was verified to support.
  datatype Capabilities = Capabilities(acknowledgements: bool, pointers: bool)

  // A bridge that keeps an acknowledgement watermark and mints memory pointers.
  const CAPABLE := Capabilities(true, true)

  datatype View = View(ack: Option<int>, activation: Option<Evidence>,
                       bindings: Option<map<string, string>>, pointers: Option<map<string, Record>>)

  // A row as the reader sees it: without the pointer capability every row reads as a peer message.
  function Projected(caps: Capabilities, e: Entry): Source {
    if caps.pointers then e.source else Peer
  }

  function RowError(q: int, source: Source): Option<SourceError> {
    if !(1 <= q <= MAX_SEQUENCE) then Some(InvalidSequence)
    else if !WellFormed(source) then Some(PointerInvalid)
    else None
  }

  function Instances(i: Contents): map<string, string> {
    map k | k in i.bindings :: i.bindings[k].instance
  }

  function PointerRows(i: Contents): set<int> {
    set q | q in i.rows && i.rows[q].source.Pointer?
  }

  // Pointers by binding, refusing a second pointer of a binding or one of another lifetime.
  function Collect(i: Contents, rows: seq<int>, found: map<string, Record>): Result<map<string, Record>>
    requires Among(rows, PointerRows(i))
    decreases |rows|
  {
    if rows == [] then Ok(found)
    else
      var q, source := rows[0], i.rows[rows[0]].source;
      if RowError(q, source).Some? then Err(RowError(q, source).value)
      else if source.binding in found || !(source.binding in i.bindings && i.bindings[source.binding].instance == source.instance) then
        Err(PointerInvalid)
      else
        Collect(i, rows[1..], found[source.binding := Record(q, source)])
  }

  function Snapshot(i: Contents, caps: Capabilities): Result<View> {
    var ack := if caps.acknowledgements then Some(i.ack) else None;
    var activation := if caps.acknowledgements then i.activation else None;
    if !caps.pointers then Ok(View(ack, activation, None, None))
    else if |Instances(i)| > POINTER_LIMIT then Err(SourceError.BindingCapacity)
    else
      var rows := Lowest(PointerRows(i), POINTER_LIMIT + 1);
      LowestWithin(PointerRows(i), POINTER_LIMIT + 1);
      if |rows| > POINTER_LIMIT then Err(PointerCapacity)
      else
        match Collect(i, rows, map[])
        case Err(e) => Err(e)
        case Ok(pointers) => Ok(View(ack, activation, Some(Instances(i)), Some(pointers)))
  }

  // Rows handed on as records; peer frames that are not messages are only noted.
  predicate Skipped(caps: Capabilities, e: Entry) {
    Projected(caps, e) == Peer && !e.user
  }

  function Read(i: Contents, caps: Capabilities, rows: seq<int>, scan: Scan): Result<Scan>
    requires Among(rows, i.rows.Keys)
    decreases |rows|
  {
    if rows == [] then Ok(scan)
    else
      var q, e := rows[0], i.rows[rows[0]];
      if RowError(q, Projected(caps, e)).Some? then Err(RowError(q, Projected(caps, e)).value)
      else if Skipped(caps, e) then Read(i, caps, rows[1..], Scan(q, scan.records, scan.ignored + [q]))
      else Read(i, caps, rows[1..], Scan(q, scan.records + [Record(q, Projected(caps, e))], scan.ignored))
  }

  function Above(i: Contents, after: int): set<int> {
    set q | q in i.rows && q > after
  }

  function ScanAfter(i: Contents, caps: Capabilities, after: int): Result<Scan> {
    if !(0 <= after <= MAX_SEQUENCE) then Err(InvalidSequence)
    else
      match Snapshot(i, caps)
      case Err(e) => Err(e)
      case Ok(_) =>
        LowestWithin(Above(i, after), SCAN_LIMIT);
        Read(i, caps, Lowest(Above(i, after), SCAN_LIMIT), Scan(after, [], []))
  }

  function ReadRecords(i: Contents, caps: Capabilities, rows: seq<int>, records: seq<Record>): Result<seq<Record>>
    requires Among(rows, i.rows.Keys)
    decreases |rows|
  {
    if rows == [] then Ok(records)
    else
      var source := Projected(caps, i.rows[rows[0]]);
      if RowError(rows[0], source).Some? then Err(RowError(rows[0], source).value)
      else ReadRecords(i, caps, rows[1..], records + [Record(rows[0], source)])
  }

  // The retained pointers, in the order of their sequences, whatever was imported before.
  function SeedRecords(i: Contents, caps: Capabilities): Result<seq<Record>> {
    if !caps.pointers then Err(VersionMismatch)
    else
      match Snapshot(i, caps)
      case Err(e) => Err(e)
      case Ok(_) =>
        LowestWithin(PointerRows(i), POINTER_LIMIT + 1);
        ReadRecords(i, caps, Lowest(PointerRows(i), POINTER_LIMIT + 1), [])
  }

  function Asked(i: Contents, sequences: seq<int>): set<int> {
    set q | q in sequences && q in i.rows
  }

  predicate Askable(sequences: seq<int>) {
    && |sequences| <= RECONCILE_LIMIT && Distinct(sequences)
    && forall q :: q in sequences ==> 1 <= q <= MAX_SEQUENCE
  }

  // What an inbox says about the rows asked for: which it holds, and what accounts for the rest.
  function RetainedOf(i: Contents, caps: Capabilities, sequences: seq<int>): Result<Retained> {
    if !Askable(sequences) then Err(InvalidSequence)
    else
      match Snapshot(i, caps)
      case Err(e) => Err(e)
      case Ok(view) =>
        LowestWithin(Asked(i, sequences), |sequences|);
        match ReadRecords(i, caps, Lowest(Asked(i, sequences), |sequences|), [])
        case Err(e) => Err(e)
        case Ok(records) => Ok(Retained(view.ack, records, view.bindings, view.pointers))
  }

  /* ----- the reads, row by row ----- */

  method TakeSnapshot(i: Contents, caps: Capabilities) returns (r: Result<View>)
    ensures r == Snapshot(i, caps)
  {
    var ack, activation := None, None;
    if caps.acknowledgements {
      ack, activation := Some(i.ack), i.activation;
    }
    if !caps.pointers {
      return Ok(View(ack, activation, None, None));
    }
    var bindings := Instances(i);
    if |bindings| > POINTER_LIMIT {
      return Err(SourceError.BindingCapacity);
    }
    var rows := Lowest(PointerRows(i), POINTER_LIMIT + 1);
    if |rows| > POINTER_LIMIT {
      return Err(PointerCapacity);
    }
    LowestWithin(PointerRows(i), POINTER_LIMIT + 1);
    var pointers: map<string, Record> := map[];
    var k := 0;
    while k < |rows|
      invariant 0 <= k <= |rows|
      invariant Collect(i, rows[k..], pointers) == Collect(i, rows, map[])
    {
      assert rows[k..][0] == rows[k] && rows[k..][1..] == rows[k + 1..];
      var source := i.rows[rows[k]].source;
      if RowError(rows[k], source).Some? {
        return Err(RowError(rows[k], source).value);
      }
      if source.binding in pointers || !(source.binding in bindings && bindings[source.binding] == source.instance) {
        return Err(PointerInvalid);
      }
      pointers := pointers[source.binding := Record(rows[k], source)];
      k := k + 1;
    }
    r := Ok(View(ack, activation, Some(bindings), Some(pointers)));
  }

  method TakeScan(i: Contents, caps: Capabilities, after: int) returns (r: Result<Scan>)
    ensures r == ScanAfter(i, caps, after)
  {
    hide Snapshot, Read;
    if !(0 <= after <= MAX_SEQUENCE) {
      return Err(InvalidSequence);
    }
    var view := TakeSnapshot(i, caps);
    if view.Err? {
      return Err(view.error);
    }
    LowestWithin(Above(i, after), SCAN_LIMIT);
    r := ReadRows(i, caps, Lowest(Above(i, after), SCAN_LIMIT), after);
  }

  method ReadRows(i: Contents, caps: Capabilities, rows: seq<int>, after: int) returns (r: Result<Scan>)
    requires Among(rows, i.rows.Keys)
    ensures r == Read(i, caps, rows, Scan(after, [], []))
  {
    var through, records, ignored := after, [], [];
    var k := 0;
    while k < |rows|
      invariant 0 <= k <= |rows|
      invariant Read(i, caps, rows[k..], Scan(through, records, ignored)) == Read(i, caps, rows, Scan(after, [], []))
    {
      hide RowError, Projected, Skipped;
      assert rows[k..][0] == rows[k] && rows[k..][1..] == rows[k + 1..];
      var e := i.rows[rows[k]];
      if RowError(rows[k], Projected(caps, e)).Some? {
        return Err(RowError(rows[k], Projected(caps, e)).value);
      }
      through := rows[k];
      if Skipped(caps, e) {
        ignored := ignored + [rows[k]];
      } else {
        records := records + [Record(rows[k], Projected(caps, e))];
      }
      k := k + 1;
    }
    r := Ok(Scan(through, records, ignored));
  }

  method TakeSeed(i: Contents, caps: Capabilities) returns (r: Result<seq<Record>>)
    ensures r == SeedRecords(i, caps)
  {
    if !caps.pointers {
      return Err(VersionMismatch);
    }
    var view := TakeSnapshot(i, caps);
    if view.Err? {
      return Err(view.error);
    }
    LowestWithin(PointerRows(i), POINTER_LIMIT + 1);
    r := TakeRecords(i, caps, Lowest(PointerRows(i), POINTER_LIMIT + 1));
  }

  // Selected rows are looked up in batches of at most 128.
  method TakeRetained(i: Contents, caps: Capabilities, sequences: seq<int>) returns (r: Result<Retained>)
    ensures r == RetainedOf(i, caps, sequences)
  {
    if !Askable(sequences) {
      return Err(InvalidSequence);
    }
    var view := TakeSnapshot(i, caps);
    if view.Err? {
      return Err(view.error);
    }
    var found: set<int> := {};
    var offset := 0;
    while offset < |sequences|
      invariant 0 <= offset <= |sequences|
      invariant found == Asked(i, sequences[..offset])
    {
      var end := Min(offset + SCAN_LIMIT, |sequences|);
      var batch := sequences[offset..end];
      assert sequences[..end] == sequences[..offset] + batch;
      found := found + Asked(i, batch);
      offset := end;
    }
    assert sequences[..offset] == sequences;
    LowestWithin(found, |sequences|);
    var records := TakeRecords(i, caps, Lowest(found, |sequences|));
    match records
    case Err(e) => r := Err(e);
    case Ok(list) => r := Ok(Retained(view.value.ack, list, view.value.bindings, view.value.pointers));
  }

  method TakeRecords(i: Contents, caps: Capabilities, rows: seq<int>) returns (r: Result<seq<Record>>)
    requires Among(rows, i.rows.Keys)
    ensures r == ReadRecords(i, caps, rows, [])
  {
    var records := [];
    var k := 0;
    while k < |rows|
      invariant 0 <= k <= |rows|
      invariant ReadRecords(i, caps, rows[k..], records) == ReadRecords(i, caps, rows, [])
    {
      assert rows[k..][0] == rows[k] && rows[k..][1..] == rows[k + 1..];
      var source := Projected(caps, i.rows[rows[k]]);
      if RowError(rows[k], source).Some? {
        return Err(RowError(rows[k], source).value);
      }
      records := records + [Record(rows[k], source)];
      k := k + 1;
    }
    r := Ok(records);
  }
}
