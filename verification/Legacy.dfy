/** The compatibility notifier for bridges without a journal: one checkpoint, at most one group
    in flight, and no memory of attempts. Its checkpoint never passes a message that was neither
    delivered nor acknowledged. */
module Legacy {
  import opened Common
  import opened JournalModel
  import I = Inbox
  import opened InboxHistory
  import opened InboxSource
  import opened SourceProofs

  const GROUP: nat := 10
  const DELAY: int := 30

  // after: the checkpoint in memory; saved: the checkpoint on disk.
  datatype Checkpoint = Checkpoint(after: int, retryAt: int, inflight: Option<int>, saved: Option<int>)

  datatype LegacyError = LegacyCounter | LegacyInProgress | LegacyNoAttempt | LegacyRecovery | LegacySource(source: SourceError)

  datatype LegacyResult = Ran(checkpoint: Checkpoint, rows: seq<Record>) | Stopped(checkpoint: Checkpoint, error: LegacyError)

  datatype Group = Group(rows: seq<Record>, through: int)

  // The next rows, and how far the checkpoint may move once they are delivered.
  function Select(scan: Scan): Group {
    if |scan.records| <= GROUP then Group(scan.records, scan.through)
    else Group(scan.records[..GROUP], scan.records[GROUP - 1].sequence)
  }

  function Save(k: Checkpoint, through: int): Checkpoint {
    k.(after := through, saved := Some(through))
  }

  function ReadyCheckpoint(k: Checkpoint, now: int): LegacyResult {
    if !Clock(now) then Stopped(k, LegacyCounter)
    else
      var k' := if k.inflight.Some? then k.(retryAt := now + DELAY, inflight := None) else k;
      if k'.saved.None? then Ran(k', [])
      else if k'.saved.value < k'.after then Stopped(k', LegacyRecovery)
      else Ran(k'.(after := k'.saved.value), [])
  }

  // An empty group moves the checkpoint over frames nobody is owed.
  function PrepareGroup(k: Checkpoint, i: I.Contents, caps: Capabilities, now: int): LegacyResult {
    if !Clock(now) then Stopped(k, LegacyCounter)
    else if now < k.retryAt then Ran(k, [])
    else
      match ScanAfter(i, caps, k.after)
      case Err(e) => Stopped(k, LegacySource(e))
      case Ok(scan) =>
        var g := Select(scan);
        Ran(if g.rows == [] && g.through > k.after then Save(k, g.through) else k, g.rows)
  }

  function ReserveGroup(k: Checkpoint, i: I.Contents, caps: Capabilities, now: int): LegacyResult {
    if !Clock(now) then Stopped(k, LegacyCounter)
    else if k.inflight.Some? then Stopped(k, LegacyInProgress)
    else if now < k.retryAt then Ran(k, [])
    else
      match ScanAfter(i, caps, k.after)
      case Err(e) => Stopped(k, LegacySource(e))
      case Ok(scan) =>
        var g := Select(scan);
        Ran(if g.rows != [] then k.(inflight := Some(g.through)) else if g.through > k.after then Save(k, g.through) else k, g.rows)
  }

  function ResolveGroup(k: Checkpoint, outcome: Outcome, now: int): LegacyResult {
    if !Clock(now) then Stopped(k, LegacyCounter)
    else if k.inflight.None? then Stopped(k, LegacyNoAttempt)
    else if outcome == OutcomeDelivered then Ran(Save(k, k.inflight.value).(retryAt := 0, inflight := None), [])
    else Ran(k.(retryAt := now + DELAY, inflight := None), [])
  }

  predicate Does(before: Checkpoint, o: LegacyResult, error: Option<LegacyError>, rows: seq<Record>, after: Checkpoint) {
    match o
    case Ran(k, r) => error.None? && after == k && rows == r
    case Stopped(k, e) => error == Some(e) && after == k
  }

  class LegacyState {
    const caps: Capabilities
    var after: int
    var retryAt: int
    var inflight: Option<int>
    var saved: Option<int>

    function Contents(): Checkpoint
      reads this
    {
      Checkpoint(after, retryAt, inflight, saved)
    }

    constructor (after: int, saved: Option<int>, caps: Capabilities)
      ensures Contents() == Checkpoint(if saved.Some? then saved.value else after, 0, None, saved)
      ensures this.caps == caps
    {
      this.after := if saved.Some? then saved.value else after;
      this.retryAt, this.inflight, this.saved, this.caps := 0, None, saved, caps;
    }

    method SaveAt(through: int)
      modifies this`after, this`saved
      ensures Contents() == Save(old(Contents()), through)
    {
      saved := Some(through);
      after := through;
    }

    method DoReady(now: int) returns (error: Option<LegacyError>)
      modifies this
      ensures Does(old(Contents()), ReadyCheckpoint(old(Contents()), now), error, [], Contents())
    {
      if !Clock(now) {
        return Some(LegacyCounter);
      }
      if inflight.Some? {
        retryAt := now + DELAY;
        inflight := None;
      }
      if saved.Some? {
        if saved.value < after {
          return Some(LegacyRecovery);
        }
        after := saved.value;
      }
      error := None;
    }

    method DoPrepare(i: I.Contents, now: int) returns (error: Option<LegacyError>, rows: seq<Record>)
      modifies this
      ensures Does(old(Contents()), PrepareGroup(old(Contents()), i, caps, now), error, rows, Contents())
    {
      hide ScanAfter;
      rows := [];
      if !Clock(now) {
        return Some(LegacyCounter), [];
      }
      if now < retryAt {
        return None, [];
      }
      var scan := TakeScan(i, caps, after);
      if scan.Err? {
        return Some(LegacySource(scan.error)), [];
      }
      var group := Select(scan.value);
      if group.rows == [] && group.through > after {
        SaveAt(group.through);
      }
      error, rows := None, group.rows;
    }

    method DoReserveNext(i: I.Contents, now: int) returns (error: Option<LegacyError>, rows: seq<Record>)
      modifies this
      ensures Does(old(Contents()), ReserveGroup(old(Contents()), i, caps, now), error, rows, Contents())
    {
      hide ScanAfter;
      rows := [];
      if !Clock(now) {
        return Some(LegacyCounter), [];
      }
      if inflight.Some? {
        return Some(LegacyInProgress), [];
      }
      if now < retryAt {
        return None, [];
      }
      var scan := TakeScan(i, caps, after);
      if scan.Err? {
        return Some(LegacySource(scan.error)), [];
      }
      var group := Select(scan.value);
      if group.rows != [] {
        inflight := Some(group.through);
      } else if group.through > after {
        SaveAt(group.through);
      }
      error, rows := None, group.rows;
    }

    method DoResolve(outcome: Outcome, now: int) returns (error: Option<LegacyError>)
      modifies this
      ensures Does(old(Contents()), ResolveGroup(old(Contents()), outcome, now), error, [], Contents())
    {
      if !Clock(now) {
        return Some(LegacyCounter);
      }
      if inflight.None? {
        return Some(LegacyNoAttempt);
      }
      if outcome == OutcomeDelivered {
        SaveAt(inflight.value);
        retryAt := 0;
      } else {
        retryAt := now + DELAY;
      }
      inflight := None;
      error := None;
    }
  }

  /* ----- whole runs ----- */

  // The notifier beside an inbox, with the rows in flight and everything ever delivered.
  datatype World = World(chronicle: Chronicle, checkpoint: Checkpoint, group: seq<Record>, delivered: set<int>)

  datatype Act =
    | InboxAct(act: I.Act)
    | Readying(now: int)
    | Preparing(now: int)
    | Reserving(now: int)
    | Resolving(outcome: Outcome, now: int)
    | Restarting

  function Sequences(records: seq<Record>): set<int> {
    set r | r in records :: r.sequence
  }

  function Do(w: World, caps: Capabilities, a: Act): World {
    var i, k := w.chronicle.inbox, w.checkpoint;
    match a
    case InboxAct(act) => w.(chronicle := Follow(w.chronicle, act))
    case Readying(now) =>
      w.(checkpoint := ReadyCheckpoint(k, now).checkpoint)
    case Preparing(now) =>
      // The loop resolves a group, or readies again, before it prepares another.
      if k.inflight.Some? then w else
      w.(checkpoint := PrepareGroup(k, i, caps, now).checkpoint)
    case Reserving(now) =>
      (match ReserveGroup(k, i, caps, now) case Ran(k', rows) => w.(checkpoint := k', group := rows) case Stopped(_, _) => w)
    case Resolving(outcome, now) =>
      (match ResolveGroup(k, outcome, now)
       case Ran(k', _) => w.(checkpoint := k', delivered := if outcome == OutcomeDelivered then w.delivered + Sequences(w.group) else w.delivered)
       case Stopped(_, _) => w)
    case Restarting => w.(checkpoint := Checkpoint(if k.saved.Some? then k.saved.value else k.after, 0, None, k.saved))
  }

  function Play(w: World, caps: Capabilities, acts: seq<Act>): World
    decreases |acts|
  {
    if acts == [] then w else Play(Do(w, caps, acts[0]), caps, acts[1..])
  }

  // A message the checkpoint may pass: delivered, or released by the inbox.
  predicate Passable(w: World, q: int) {
    q in w.chronicle.log && w.chronicle.log[q].user && w.chronicle.log[q].source == Peer ==>
      q in w.delivered || Gone(w.chronicle.inbox, q, w.chronicle.log[q])
  }

  predicate Behind(w: World, start: int, q: int) {
    && (start < q <= w.checkpoint.after ==> Passable(w, q))
    && (w.checkpoint.inflight.Some? && w.checkpoint.after < q <= w.checkpoint.inflight.value ==>
          q in Sequences(w.group) || Passable(w, q))
  }

  ghost predicate Sound(w: World, start: int) {
    && Kept(w.chronicle)
    && start <= w.checkpoint.after <= MAX_SEQUENCE && 0 <= start
    && w.checkpoint.after <= Max(start, w.chronicle.inbox.head)
    && (w.checkpoint.saved.Some? ==> w.checkpoint.saved.value == w.checkpoint.after)
    && (w.checkpoint.saved.None? ==> w.checkpoint.after == start)
    && (w.checkpoint.inflight.Some? ==> w.checkpoint.after < w.checkpoint.inflight.value <= Max(start, w.chronicle.inbox.head))
    && (forall q {:trigger Behind(w, start, q)} :: Behind(w, start, q))
  }

  // What a selected group covers.
  predicate Owed(c: Chronicle, from: int, g: Group, q: int) {
    q in c.log && c.log[q].user && c.log[q].source == Peer && from < q <= g.through ==>
      q in Sequences(g.rows) || Gone(c.inbox, q, c.log[q])
  }

  lemma KeptParts(c: Chronicle, q: int)
    requires Kept(c)
    ensures I.Coherent(c.inbox) && LogFits(c, q)
  {
    hide I.RowFits, I.OnePointer, I.BindingFits, LogFits, InstanceFits;
  }

  lemma KeptHead(c: Chronicle)
    requires Kept(c)
    ensures 0 <= c.inbox.head <= MAX_SEQUENCE
  {
    KeptParts(c, 0);
    hide Kept, LogFits;
  }

  lemma SelectHonest(c: Chronicle, caps: Capabilities, from: int)
    requires Kept(c) && !caps.pointers && 0 <= from <= MAX_SEQUENCE
    ensures ScanAfter(c.inbox, caps, from).Ok?
    ensures var g := Select(ScanAfter(c.inbox, caps, from).value);
      && from <= g.through <= Max(from, c.inbox.head)
      && (g.rows != [] ==> from < g.through)
      && forall q {:trigger Owed(c, from, g, q)} :: Owed(c, from, g, q)
  {
    KeptParts(c, 0);
    ScanHonest(c.inbox, caps, from);
    hide ScanAfter, I.Coherent;
    var scan := ScanAfter(c.inbox, caps, from).value;
    var g := Select(scan);
    forall r | r in scan.records ensures from < r.sequence <= scan.through {
      assert RecordFits(c.inbox, caps, from, scan, r);
    }
    assert |scan.records| > GROUP ==> scan.records[GROUP - 1] in scan.records;
    assert |scan.records| > 0 ==> scan.records[0] in scan.records;
    forall q ensures Owed(c, from, g, q) {
      KeptParts(c, q);
      OwedBy(c, caps, from, scan, q);
    }
  }

  lemma OwedBy(c: Chronicle, caps: Capabilities, from: int, scan: Scan, q: int)
    requires LogFits(c, q) && !caps.pointers
    requires from < q <= scan.through && q in c.inbox.rows ==> Handed(c.inbox, caps, scan, q)
    requires RecordsAscend(scan.records) && forall r :: r in scan.records ==> r.sequence <= scan.through
    ensures Owed(c, from, Select(scan), q)
  {
    hide Gone;
    var g := Select(scan);
    if q in c.log && c.log[q].user && c.log[q].source == Peer && from < q <= g.through && q in c.inbox.rows {
      assert g.through <= scan.through by {
        assert |scan.records| > GROUP ==> scan.records[GROUP - 1] in scan.records;
      }
      assert Record(q, Peer) in scan.records;
      var k :| 0 <= k < |scan.records| && scan.records[k] == Record(q, Peer);
      if |scan.records| > GROUP {
        assert k < GROUP;
        assert g.rows[k] == scan.records[k];
      }
      assert Record(q, Peer) in g.rows;
    }
  }

  lemma GoneOnward(c: Chronicle, a: I.Act, q: int)
    requires Kept(c) && q in c.log
    ensures var d := Follow(c, a);
      && q in d.log && d.log[q] == c.log[q] && c.inbox.head <= d.inbox.head
      && (Gone(c.inbox, q, c.log[q]) ==> Gone(d.inbox, q, d.log[q]))
  {
    hide Gone, I.Coherent, InstanceFits;
    KeptParts(c, q);
    if Allowed(c, a) && I.Perform(c.inbox, a).Done? {
      PerformShifts(c.inbox, a, q);
      if Gone(c.inbox, q, c.log[q]) {
        StaysGone(c, a, q, c.log[q]);
      }
    }
    hide I.Perform, Kept;
  }

  lemma NewInLog(c: Chronicle, a: I.Act, q: int)
    requires Kept(c)
    ensures var d := Follow(c, a);
      c.inbox.head <= d.inbox.head && (q in d.log && q !in c.log ==> q > c.inbox.head)
  {
    KeptParts(c, q);
    if Allowed(c, a) && I.Perform(c.inbox, a).Done? {
      PerformShifts(c.inbox, a, q);
    }
    hide I.Perform, Kept, LogFits, I.Coherent;
  }

  lemma InboxBehind(w: World, start: int, caps: Capabilities, a: I.Act, q: int)
    requires Sound(w, start)
    ensures Behind(Do(w, caps, InboxAct(a)), start, q)
  {
    hide Follow, Gone, Kept;
    assert Behind(w, start, q);
    NewInLog(w.chronicle, a, q);
    if q in w.chronicle.log {
      GoneOnward(w.chronicle, a, q);
    }
  }

  // Moving the checkpoint over a group that is empty, or delivered.
  lemma MovedBehind(w: World, w': World, start: int, through: int, q: int)
    requires Behind(w, start, q) && w'.chronicle == w.chronicle && w'.checkpoint.after == through && w'.checkpoint.inflight.None?
    requires w.checkpoint.after < q <= through ==> Passable(w', q)
    requires forall x :: x in w.delivered ==> x in w'.delivered
    ensures Behind(w', start, q)
  {
    hide Gone;
  }

  lemma InboxSound(w: World, start: int, caps: Capabilities, a: I.Act)
    requires Sound(w, start)
    ensures Sound(Do(w, caps, InboxAct(a)), start)
  {
    hide Kept, Behind, Follow;
    FollowKept(w.chronicle, a);
    NewInLog(w.chronicle, a, 0);
    forall q ensures Behind(Do(w, caps, InboxAct(a)), start, q) { InboxBehind(w, start, caps, a, q); }
  }

  lemma PrepareSound(w: World, start: int, caps: Capabilities, now: int)
    requires Sound(w, start) && !caps.pointers
    ensures Sound(Do(w, caps, Preparing(now)), start)
  {
    KeptHead(w.chronicle);
    hide Kept, Gone, ScanAfter, Behind, Select;
    SelectHonest(w.chronicle, caps, w.checkpoint.after);
    var w' := Do(w, caps, Preparing(now));
    var g := Select(ScanAfter(w.chronicle.inbox, caps, w.checkpoint.after).value);
    forall q ensures Behind(w', start, q) {
      assert Behind(w, start, q) && Owed(w.chronicle, w.checkpoint.after, g, q);
      if w' != w {
        MovedBehind(w, w', start, g.through, q);
      }
    }
  }

  lemma ReserveSound(w: World, start: int, caps: Capabilities, now: int)
    requires Sound(w, start) && !caps.pointers
    ensures Sound(Do(w, caps, Reserving(now)), start)
  {
    KeptHead(w.chronicle);
    hide Kept, Gone, ScanAfter, Select;
    SelectHonest(w.chronicle, caps, w.checkpoint.after);
    var w' := Do(w, caps, Reserving(now));
    var g := Select(ScanAfter(w.chronicle.inbox, caps, w.checkpoint.after).value);
    forall q ensures Behind(w', start, q) {
      assert Behind(w, start, q) && Owed(w.chronicle, w.checkpoint.after, g, q);
    }
  }

  lemma ResolveSound(w: World, start: int, caps: Capabilities, outcome: Outcome, now: int)
    requires Sound(w, start)
    ensures Sound(Do(w, caps, Resolving(outcome, now)), start)
  {
    KeptHead(w.chronicle);
    hide Kept, Gone;
    var w' := Do(w, caps, Resolving(outcome, now));
    forall q ensures Behind(w', start, q) {
      assert Behind(w, start, q);
    }
  }

  lemma ReadySound(w: World, start: int, caps: Capabilities, a: Act)
    requires Sound(w, start) && (a.Readying? || a.Restarting?)
    ensures Sound(Do(w, caps, a), start)
  {
    hide Kept, Gone;
    var w' := Do(w, caps, a);
    forall q ensures Behind(w', start, q) {
      assert Behind(w, start, q);
    }
  }

  lemma LegacyStep(w: World, start: int, caps: Capabilities, a: Act)
    requires Sound(w, start) && !caps.pointers
    ensures Sound(Do(w, caps, a), start)
  {
    hide Sound, Do;
    match a
    case InboxAct(act) => InboxSound(w, start, caps, act);
    case Preparing(now) => PrepareSound(w, start, caps, now);
    case Reserving(now) => ReserveSound(w, start, caps, now);
    case Resolving(outcome, now) => ResolveSound(w, start, caps, outcome, now);
    case _ => ReadySound(w, start, caps, a);
  }

  lemma {:induction false} LegacyRuns(w: World, start: int, caps: Capabilities, acts: seq<Act>)
    requires Sound(w, start) && !caps.pointers
    ensures Sound(Play(w, caps, acts), start)
    decreases |acts|
  {
    hide Sound, Do;
    if acts != [] {
      LegacyStep(w, start, caps, acts[0]);
      LegacyRuns(Do(w, caps, acts[0]), start, caps, acts[1..]);
    }
  }

  // Whatever crashes and failures do, the legacy checkpoint never passes a message of the inbox
  // that was neither in a delivered group nor acknowledged.
  lemma CheckpointSkipsNothing(start: int, caps: Capabilities, acts: seq<Act>, q: int)
    requires 0 <= start <= MAX_SEQUENCE && !caps.pointers
    ensures var w := Play(World(DAWN, Checkpoint(start, 0, None, None), [], {}), caps, acts);
      && start <= w.checkpoint.after
      && (q in w.chronicle.log && w.chronicle.log[q] == I.Entry(Peer, true) && start < q <= w.checkpoint.after ==>
            q in w.delivered || q <= w.chronicle.inbox.ack)
  {
    hide Kept, Play;
    DawnKept();
    var w0 := World(DAWN, Checkpoint(start, 0, None, None), [], {});
    forall q ensures Behind(w0, start, q) {}
    LegacyRuns(w0, start, caps, acts);
    assert Behind(Play(w0, caps, acts), start, q);
  }
}
