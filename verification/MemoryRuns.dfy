/** The memory service over every interleaving of writers, expiry, many readers, restarts with
    and without the search engine, and crashes between any two transactions. Each act is one
    transaction, or a refusal that changes nothing; time never goes backwards. */
module MemoryRuns {
  import opened Common
  import opened MemoryModel
  import opened MemoryBudget

  // engine: whether this process found the search engine usable when it opened the store.
  datatype Process = Closed | Opening | Running(engine: bool)

  // What one reader was ever told: the head of the newest snapshot it paged to the end and
  // acknowledged, which snapshot that was, the events it received in deltas, and the highest
  // position it ever had an acknowledgement accepted for, by number or by a finished snapshot.
  datatype Told = Told(through: int, shot: Option<string>, streamed: set<int>, acked: int)

  datatype KeyedAppend = KeyedAppend(scoped: string, deadline: int, content: int, sequence: int)

  // What an observer of every reply wrote down.
  datatype Record = Record(
    notes: map<int, Note>,           // every note that was appended, by its sequence
    minted: map<string, Shot>,        // every snapshot ever frozen, as it was frozen
    pages: map<string, set<int>>,     // the positions of each snapshot handed to its owner
    told: map<string, Told>,          // by registered reader
    keyed: seq<KeyedAppend>,              // appends made under a retry key
    plain: bool)                      // no withdrawal ever drew on the reserve

  const BLANK := Record(map[], map[], map[], map[], [], true)

  datatype World = World(store: Store, process: Process, clock: int, record: Record)

  const DAWN := World(NEW, Closed, 0, BLANK)

  datatype Act =
    | Start(able: bool)
    | Reindex
    | Settle
    | Stop
    | Noting(note: Note, now: int)
    | Expiring(now: int)
    | Invalidating
    | Sweeping(now: int)
    | Registering(c: string, now: int)
    | Touching(c: string, now: int)
    | Clearing(c: string, now: int)
    | Freezing(c: string, sid: string, items: seq<Item>, pruned: set<string>, now: int)
    | Paging(c: string, token: int, claimed: Option<string>, now: int)
    | Streaming(c: string, sizes: seq<int>)
    | AckingSnapshot(c: string, sid: string, now: int)
    | AckingThrough(c: string, through: int)

  predicate Serves(w: World) {
    w.process.Running?
  }

  /* ----- frozen lists ----- */

  predicate Before(q: int, e: Entry, p: int, f: Entry) {
    Rank(e.kind) < Rank(f.kind) || (e.kind == f.kind && q > p)
  }

  // Live entries of one kind that are newer.
  function Newer(s: Store, q: int, at: int, now: int): set<int>
    requires q in s.entries
  {
    set p | p in LiveSetAt(s, at, now) && s.entries[p].kind == s.entries[q].kind && p > q
  }

  // A frozen list: every live entry except those past the tail of their kind, in order of rank
  // and then newest first.
  predicate Selected(s: Store, q: int, now: int) {
    && q in LiveSetAt(s, s.head, now)
    && (Tail(s.entries[q].kind).Some? ==> |Newer(s, q, s.head, now)| < Tail(s.entries[q].kind).value)
  }

  ghost predicate FrozenList(s: Store, items: seq<Item>, now: int) {
    && (forall k :: 0 <= k < |items| ==> Selected(s, items[k].sequence, now) && items[k].entry == s.entries[items[k].sequence])
    && (forall j, k :: 0 <= j < k < |items| ==> Before(items[j].sequence, items[j].entry, items[k].sequence, items[k].entry))
    && (forall q {:trigger Selected(s, q, now)} :: Selected(s, q, now) ==> exists k :: 0 <= k < |items| && items[k].sequence == q)
    && (forall k :: 0 <= k < |items| ==> items[k].bytes >= 0)
  }

  /* ----- one act ----- */

  predicate Timely(w: World, a: Act) {
    match a
    case Noting(_, now) => w.clock <= now
    case Expiring(now) => w.clock <= now
    case Sweeping(now) => w.clock <= now
    case Registering(_, now) => w.clock <= now
    case Touching(_, now) => w.clock <= now
    case Clearing(_, now) => w.clock <= now
    case Freezing(_, _, _, _, now) => w.clock <= now
    case Paging(_, _, _, now) => w.clock <= now
    case AckingSnapshot(_, _, now) => w.clock <= now
    case _ => true
  }

  function Later(w: World, a: Act): int {
    match a
    case Noting(_, now) => now
    case Expiring(now) => now
    case Sweeping(now) => now
    case Registering(_, now) => now
    case Touching(_, now) => now
    case Clearing(_, now) => now
    case Freezing(_, _, _, _, now) => now
    case Paging(_, _, _, now) => now
    case AckingSnapshot(_, _, now) => now
    case _ => w.clock
  }

  // Reading the store back at the start: an index known complete is kept, anything else is
  // marked stale before a rebuild is tried.
  function Opened(s: Store, able: bool): Store {
    if able && s.indexed == s.head then s else Invalidate(s)
  }

  ghost predicate Appends(w: World, n: Note, now: int) {
    && Precheck(w.store, n, now).Proceed?
    && Room(w.store, NoteCharge(n), 1, Control(n))
    && n.weight >= 0
    && Append(w.store, n, w.process.Running? && w.process.engine).Commit?
  }

  // The state after an act whose guards hold; nothing otherwise. A page refused for room, like
  // any other refusal, is an act that does nothing.
  ghost function After(w: World, a: Act): Store {
    var s := w.store;
    match a
    case Start(able) => if w.process.Closed? then Opened(s, able) else s
    case Reindex => if w.process.Opening? && s.indexed == STALE then Rebuild(s) else s
    case Settle => s
    case Stop => s
    case Noting(n, now) => if Serves(w) && Appends(w, n, now) then Append(s, n, w.process.engine).store else s
    case Expiring(now) => if Serves(w) then ExpireBatch(s, now, w.process.engine) else s
    case Invalidating => if Serves(w) then Invalidate(s) else s
    case Sweeping(now) => if Serves(w) then Sweep(s, now) else s
    case Registering(c, now) =>
      if Serves(w) && c !in s.readers && Register(s, c, now).Commit? && Room(s, RegisterCharge(c), 0, false) then Register(s, c, now).store else s
    case Touching(c, now) => if Serves(w) && c in s.readers then Touch(s, c, now) else s
    case Clearing(c, now) =>
      if Serves(w) && c in s.readers && s.readers[c].snapshot.Some? && Unusable(s, c, s.readers[c].snapshot.value, now) then Clear(s, c) else s
    case Freezing(c, sid, items, pruned, now) => if Serves(w) && Freezes(w, c, sid, items, pruned, now) then Freeze(s, c, sid, items, pruned, now) else s
    case Paging(c, token, claimed, now) =>
      if Serves(w) && c in s.readers && s.readers[c].snapshot.Some? && PageAt(s, c, s.readers[c].snapshot.value, token, claimed, now).Commit?
      then PageAt(s, c, s.readers[c].snapshot.value, token, claimed, now).store else s
    case Streaming(c, sizes) => if Serves(w) && Streams(w, c, sizes) then DeltaOf(s, c, sizes).store else s
    case AckingSnapshot(c, sid, now) => if Serves(w) && c in s.readers && AckSnapshot(s, c, sid, now).Commit? then AckSnapshot(s, c, sid, now).store else s
    case AckingThrough(c, through) => if Serves(w) && c in s.readers && AckThrough(s, c, through).Commit? then AckThrough(s, c, through).store else s
  }

  // A reader in need of a snapshot and without an open one gets a copy frozen under a new name.
  ghost predicate Freezes(w: World, c: string, sid: string, items: seq<Item>, pruned: set<string>, now: int) {
    && c in w.store.readers && w.store.readers[c].snapshot.None? && NeedsSnapshot(w.store, c)
    && sid !in w.record.minted && |HeldShots(w.store, c, now)| < MAX_SNAPSHOTS
    && FrozenList(w.store, items, now) && Prunable(w.store, c, pruned, now)
    && Room(w.store, FreezeCharge(c, sid, items), 0, false)
  }

  predicate Streams(w: World, c: string, sizes: seq<int>) {
    && c in w.store.readers && !NeedsSnapshot(w.store, c)
    && |sizes| == |RowsAbove(w.store, w.store.readers[c].cursor)|
    && DeltaOf(w.store, c, sizes).Commit?
  }

  function ProcessAfter(w: World, a: Act): Process {
    match a
    case Start(able) => if w.process.Closed? then (if able then Opening else Running(false)) else w.process
    case Settle => if w.process.Opening? then Running(true) else w.process
    case Stop => Closed
    case _ => w.process
  }

  /* ----- what the observer writes ----- */

  const UNTOLD := Told(0, None, {}, 0)

  function ToldOf(told: map<string, Told>, c: string): Told {
    if c in told then told[c] else UNTOLD
  }

  function PagesOf(pages: map<string, set<int>>, sid: string): set<int> {
    if sid in pages then pages[sid] else {}
  }

  predicate Within(p: int, first: int, n: int) {
    first <= p < first + n
  }

  function Span(first: int, n: int): set<int> {
    set p | first <= p < first + n && Within(p, first, n)
  }

  ghost function Observe(w: World, a: Act): Record {
    var s, r := w.store, w.record;
    match a
    case Noting(n, now) =>
      if Serves(w) && Appends(w, n, now) then
        r.(notes := r.notes[s.head + 1 := n], plain := r.plain && !Control(n),
           keyed := if n.scoped.Some? && n.deadline.Some? then r.keyed + [KeyedAppend(n.scoped.value, n.deadline.value, n.content, s.head + 1)] else r.keyed)
      else r
    case Registering(c, now) => if c !in s.readers && c in After(w, a).readers then r.(told := r.told[c := UNTOLD]) else r
    case Freezing(c, sid, items, pruned, now) =>
      if Serves(w) && Freezes(w, c, sid, items, pruned, now) then r.(minted := r.minted[sid := Shot(c, s.head, now, items, 0, false, 0)]) else r
    case Paging(c, token, claimed, now) =>
      if Serves(w) && c in s.readers && s.readers[c].snapshot.Some? && PageAt(s, c, s.readers[c].snapshot.value, token, claimed, now).Commit? then
        var sid := s.readers[c].snapshot.value;
        var page := PageAt(s, c, sid, token, claimed, now).reply;
        r.(pages := r.pages[sid := PagesOf(r.pages, sid) + Span(Max(token, 0), |page.items|)])
      else r
    case Streaming(c, sizes) =>
      if Serves(w) && Streams(w, c, sizes) then
        r.(told := r.told[c := ToldOf(r.told, c).(streamed := ToldOf(r.told, c).streamed + Members(DeltaOf(s, c, sizes).reply.entries))])
      else r
    case AckingSnapshot(c, sid, now) =>
      if Serves(w) && c in s.readers && AckSnapshot(s, c, sid, now).Commit? && !AckSnapshot(s, c, sid, now).reply.replayed then
        var t := ToldOf(r.told, c);
        r.(told := r.told[c := t.(through := s.shots[sid].head, shot := Some(sid), acked := Max(t.acked, s.shots[sid].head))])
      else r
    case AckingThrough(c, through) =>
      if Serves(w) && c in s.readers && AckThrough(s, c, through).Commit? then
        var t := ToldOf(r.told, c);
        r.(told := r.told[c := t.(acked := Max(t.acked, through))])
      else r
    case _ => r
  }

  ghost function Do(w: World, a: Act): World {
    if Timely(w, a) then World(After(w, a), ProcessAfter(w, a), Later(w, a), Observe(w, a)) else w
  }

  ghost function Play(w: World, acts: seq<Act>): World
    decreases |acts|
  {
    if acts == [] then w else Play(Do(w, acts[0]), acts[1..])
  }

  /* ----- which tables an act can change ----- */

  predicate Upkeep(a: Act) {
    a.Start? || a.Reindex? || a.Settle? || a.Stop? || a.Invalidating?
  }

  predicate ReaderAct(a: Act) {
    !Upkeep(a) && !a.Noting? && !a.Expiring? && !a.Sweeping?
  }

  lemma PageTables(s: Store, c: string, sid: string, token: int, claimed: Option<string>, now: int)
    requires PageAt(s, c, sid, token, claimed, now).Commit?
    ensures var t := PageAt(s, c, sid, token, claimed, now).store; t == s.(shots := t.shots)
  {
    hide Fitting, Oversize;
  }

  lemma DeltaTables(s: Store, c: string, sizes: seq<int>)
    requires c in s.readers && |sizes| == |RowsAbove(s, s.readers[c].cursor)| && DeltaOf(s, c, sizes).Commit?
    ensures var t := DeltaOf(s, c, sizes).store; t == s.(readers := t.readers)
  {
    hide Fitting, Oversize, RowsAbove;
  }

  lemma AckTables(s: Store, c: string, sid: string, now: int)
    requires c in s.readers && AckSnapshot(s, c, sid, now).Commit?
    ensures var t := AckSnapshot(s, c, sid, now).store; t == s.(readers := t.readers, shots := t.shots)
  {}

  // Serving a reader touches readers and snapshots only.
  lemma ReadersOnly(w: World, a: Act)
    requires ReaderAct(a)
    ensures var t := After(w, a); t == w.store.(readers := t.readers, shots := t.shots)
  {
    hide Freezes, Unusable, NeedsSnapshot, Room, PageAt, DeltaOf, AckSnapshot, RowsAbove;
    var s := w.store;
    match a
    case Paging(c, token, claimed, now) =>
      if c in s.readers && s.readers[c].snapshot.Some? && PageAt(s, c, s.readers[c].snapshot.value, token, claimed, now).Commit? {
        PageTables(s, c, s.readers[c].snapshot.value, token, claimed, now);
      }
    case Streaming(c, sizes) =>
      if Streams(w, c, sizes) {
        DeltaTables(s, c, sizes);
      }
    case AckingSnapshot(c, sid, now) =>
      if c in s.readers && AckSnapshot(s, c, sid, now).Commit? {
        AckTables(s, c, sid, now);
      }
    case AckingThrough(c, through) =>
    case Freezing(c, sid, items, pruned, now) =>
    case Registering(c, now) =>
    case Touching(c, now) =>
    case Clearing(c, now) =>
  }

  lemma UpkeepOnly(w: World, a: Act)
    requires Upkeep(a)
    ensures var t := After(w, a); t == w.store.(indexed := t.indexed, search := t.search)
  {}

  lemma SweepOnly(w: World, a: Act)
    requires a.Sweeping?
    ensures var t := After(w, a); t == w.store.(readers := t.readers, shots := t.shots, graves := t.graves, idem := t.idem)
  {
    hide ReaderIdle, ShotLapsed;
  }

  lemma ExpireOnly(w: World, a: Act)
    requires a.Expiring?
    ensures var t := After(w, a); t == w.store.(entries := t.entries, floor := t.floor, indexed := t.indexed, search := t.search)
  {
    hide Lowest, LapsedRows, Highest;
  }

  lemma NoteOnly(w: World, a: Act)
    requires a.Noting?
    ensures var t := After(w, a);
      t == w.store.(entries := t.entries, head := t.head, indexed := t.indexed, search := t.search, idem := t.idem)
  {
    hide Linked, NewEntry, Conflict, Room, Precheck, NoteCharge;
  }
}
