/** The shared memory log as data: its tables, and each durable transaction of the service as a
    function from the stored state to what it commits. `MemoryStore` performs these in place. */
module MemoryModel {
  import opened Common

  const MAX_BODY: nat := 8192
  const MAX_ENTRIES: nat := 5000
  const MAX_LOGICAL: nat := 32 * 1024 * 1024
  const RESERVED_ENTRIES: nat := 64
  const RESERVED_BYTES: nat := RESERVED_ENTRIES * MAX_BODY
  const ENTRY_OVERHEAD: nat := 512
  const EXPIRY_BATCH: nat := 200
  const SNAPSHOT_TTL: int := 3600
  const ACK_RETENTION: int := 86400
  const IDEM_TTL: int := 86400
  const CONSUMER_TTL: int := 30 * 86400
  const RETIRED_TTL: int := 90 * 86400
  const MAX_SNAPSHOTS: nat := 4
  const MAX_CONSUMERS: nat := 256
  const MAX_RETIRED: nat := 1024
  const MAX_IDEM_ROWS: nat := 20000
  const FRAME_BUDGET: nat := 262144 - 8192
  const ROW_WINDOW: nat := 500
  const STALE: int := -1

  datatype Kind = Directive | Decision | Gotcha | Handoff | Finding | Status

  // One event. weight: the bytes of its variable fields; the links say what replaced it.
  datatype Entry = Entry(kind: Kind, body: string, weight: int, revision: int,
                         supersedes: Option<int>, revokes: Option<int>,
                         supersededBy: Option<int>, revokedBy: Option<int>,
                         conflicts: Option<int>, expires: Option<int>)

  datatype Idem = Idem(content: int, sequence: int, deadline: int)

  datatype Reader = Reader(cursor: int, issued: int, snapshot: Option<string>, bootstrapped: bool, resnapshot: bool, updated: int)

  datatype Grave = Grave(cursor: int, at: int)

  // A frozen copy of one entry, with its encoded size.
  datatype Item = Item(sequence: int, entry: Entry, bytes: int)

  datatype Shot = Shot(consumer: string, head: int, created: int, items: seq<Item>, issued: int, acked: bool, ackedAt: int)

  // indexed: the head the search index is complete for, or STALE; search: its postings.
  datatype Store = Store(
    entries: map<int, Entry>, head: int, floor: int, indexed: int, search: map<int, string>,
    idem: map<string, Idem>, readers: map<string, Reader>, graves: map<string, Grave>, shots: map<string, Shot>)

  const NEW := Store(map[], 0, 0, 0, map[], map[], map[], map[], map[])

  datatype MemoryError =
    | ConsumerRetired | EntryTooLarge | ForeignSnapshot | IdemCapacity | IdempotencyConflict | InvalidRequest
    | MemoryCapacity | NoSuchEntry | NotBootstrapped | NotIssued | RetryDeadlineExpired | SnapshotCapacity
    | SnapshotExpired | SnapshotIncomplete | SnapshotOpen | StalePageToken | StaleSnapshot

  datatype Txn<+R> = Commit(store: Store, reply: R) | Refuse(error: MemoryError)

  /* ----- entries ----- */

  // A linked sequence counts only if it is given and not zero.
  predicate Truthy(o: Option<int>) {
    o.Some? && o.value != 0
  }

  function Either(a: Option<int>, b: Option<int>): Option<int> {
    if Truthy(a) then a else if Truthy(b) then b else None
  }

  predicate Lapsed(e: Entry, now: int) {
    e.expires.Some? && e.expires.value < now
  }

  predicate Unexpired(e: Entry, now: int) {
    e.expires.None? || e.expires.value > now
  }

  predicate LiveNow(e: Entry, now: int) {
    e.supersededBy.None? && e.revokedBy.None? && Unexpired(e, now)
  }

  // Visible at head `at`: its link, if any, points above `at`, and its lifetime has not ended.
  predicate LiveAt(q: int, e: Entry, at: int, now: int) {
    && q <= at
    && (e.supersededBy.None? || e.supersededBy.value > at)
    && (e.revokedBy.None? || e.revokedBy.value > at)
    && Unexpired(e, now)
  }

  function Live(s: Store, now: int): set<int> {
    set q | q in s.entries && LiveNow(s.entries[q], now)
  }

  function LiveSetAt(s: Store, at: int, now: int): set<int> {
    set q | q in s.entries && LiveAt(q, s.entries[q], at, now)
  }

  datatype Note = Note(kind: Kind, body: string, bodySize: int, weight: int, probe: int,
                       supersedes: Option<int>, revokes: Option<int>, expires: Option<int>,
                       scoped: Option<string>, deadline: Option<int>, content: int)

  datatype Noted = Appended(sequence: int, conflicts: Option<int>) | Duplicate(sequence: int)

  function Target(n: Note): Option<int> {
    Either(n.supersedes, n.revokes)
  }

  // Only a note that withdraws something is measured against the full limits.
  predicate Control(n: Note) {
    Target(n).Some?
  }

  predicate IndexUsable(s: Store, fts: bool) {
    fts && s.indexed == s.head
  }

  // The target of an unopposed note points to it; a note that comes second changes no link.
  function Linked(entries: map<int, Entry>, n: Note, next: int, conflict: Option<int>): map<int, Entry> {
    if conflict.Some? then entries
    else
      var a := if Truthy(n.supersedes) && n.supersedes.value in entries
               then entries[n.supersedes.value := entries[n.supersedes.value].(supersededBy := Some(next))] else entries;
      if Truthy(n.revokes) && n.revokes.value in a
      then a[n.revokes.value := a[n.revokes.value].(revokedBy := Some(next))] else a
  }

  function Conflict(s: Store, n: Note): Option<int> {
    if Target(n).Some? && Target(n).value in s.entries
    then Either(s.entries[Target(n).value].supersededBy, s.entries[Target(n).value].revokedBy) else None
  }

  function NewEntry(s: Store, n: Note): Entry {
    var revision := if Target(n).Some? && Target(n).value in s.entries then s.entries[Target(n).value].revision + 1 else 1;
    Entry(n.kind, n.body, n.weight, revision, n.supersedes, n.revokes, None, None, Conflict(s, n), n.expires)
  }

  // One event appended: a new head, the row, its link, its posting and its retry record.
  function Append(s: Store, n: Note, fts: bool): Txn<Noted> {
    if Target(n).Some? && Target(n).value !in s.entries then Refuse(NoSuchEntry)
    else if n.scoped.Some? && |s.idem| >= MAX_IDEM_ROWS then Refuse(IdemCapacity)
    else
      var next := s.head + 1;
      var conflict := Conflict(s, n);
      var entries := Linked(s.entries[next := NewEntry(s, n)], n, next, conflict);
      var indexing := fts && s.indexed >= 0;
      Commit(s.(head := next, entries := entries,
                search := if indexing then s.search[next := n.body] else s.search,
                indexed := if indexing then next else s.indexed,
                idem := if n.scoped.Some? && n.deadline.Some?
                        then s.idem[n.scoped.value := Idem(n.content, next, n.deadline.value)] else s.idem),
             Appended(next, conflict))
  }

  // White space, wherever it comes from.
  predicate Space(c: char) {
    var n := c as int;
    || 9 <= n <= 13 || 28 <= n <= 32 || n == 0x85 || n == 0xA0 || n == 0x1680 || 0x2000 <= n <= 0x200A
    || n == 0x2028 || n == 0x2029 || n == 0x202F || n == 0x205F || n == 0x3000
  }

  predicate Blank(body: string) {
    forall c :: c in body ==> Space(c)
  }

  // What is wrong with a note whatever the store holds.
  function ArgumentError(n: Note): Option<MemoryError> {
    if Blank(n.body) then Some(InvalidRequest)
    else if n.bodySize > MAX_BODY || n.probe > FRAME_BUDGET then Some(EntryTooLarge)
    else if Truthy(n.supersedes) && Truthy(n.revokes) then Some(InvalidRequest)
    else None
  }

  // What is decided before anything is written: a refusal, an earlier result, or to go ahead.
  datatype Ruling = Reject(error: MemoryError) | Repeat(sequence: int) | Proceed

  function Precheck(s: Store, n: Note, now: int): Ruling {
    if ArgumentError(n).Some? then Reject(ArgumentError(n).value)
    else if n.scoped.None? then Proceed
    else if n.deadline.None? || n.deadline.value > now + IDEM_TTL then Reject(InvalidRequest)
    else if n.deadline.value <= now then Reject(RetryDeadlineExpired)
    else if n.scoped.value in s.idem then
      var row := s.idem[n.scoped.value];
      if row.content != n.content || row.deadline != n.deadline.value then Reject(IdempotencyConflict) else Repeat(row.sequence)
    else Proceed
  }

  /* ----- expiry ----- */

  function LapsedRows(s: Store, now: int): set<int> {
    set q | q in s.entries && Lapsed(s.entries[q], now)
  }

  function Members(rows: seq<int>): set<int> {
    set q | q in rows
  }

  function Highest(s: set<int>): (m: int)
    requires s != {}
    ensures m in s && forall x :: x in s ==> x <= m
  {
    var mirrored := set x | x in s :: -x;
    assert Least(s) in s && -Least(s) in mirrored;
    assert forall x :: x in s ==> -x in mirrored;
    -Least(mirrored)
  }

  // Without these rows, and with a floor no lower than the highest of them.
  function Forget(s: Store, batch: set<int>, fts: bool): Store
    requires batch != {}
  {
    s.(entries := s.entries - batch, floor := Max(s.floor, Highest(batch)), indexed := if fts then s.indexed else STALE)
  }

  function Unindex(s: Store, batch: set<int>, fts: bool): Store {
    if IndexUsable(s, fts) then s.(search := s.search - batch) else s
  }

  // One batch of expiry, its index maintenance included.
  function ExpireBatch(s: Store, now: int, fts: bool): Store {
    var batch := Members(Lowest(LapsedRows(s, now), EXPIRY_BATCH));
    if batch == {} then s else Forget(Unindex(s, batch, fts), batch, fts)
  }

  // A stale mark: postings stay, but nothing trusts them any more.
  function Invalidate(s: Store): Store {
    s.(indexed := STALE)
  }

  function Rebuild(s: Store): Store {
    s.(search := map q | q in s.entries :: s.entries[q].body, indexed := s.head)
  }

  predicate ShotLapsed(h: Shot, now: int) {
    if h.acked then h.ackedAt < now - ACK_RETENTION else h.created < now - SNAPSHOT_TTL
  }

  predicate ReaderIdle(r: Reader, now: int) {
    r.updated < now - CONSUMER_TTL
  }

  function KeptShots(shots: map<string, Shot>, now: int): map<string, Shot> {
    map k | k in shots && !ShotLapsed(shots[k], now) :: shots[k]
  }

  // A retry record stays until its own deadline has passed, however old it is.
  function KeptIdem(idem: map<string, Idem>, now: int): map<string, Idem> {
    map k | k in idem && !(idem[k].deadline < now) :: idem[k]
  }

  function KeptGraves(graves: map<string, Grave>, now: int): map<string, Grave> {
    map k | k in graves && !(graves[k].at < now - RETIRED_TTL) :: graves[k]
  }

  function IdleReaders(readers: map<string, Reader>, now: int): set<string> {
    set k | k in readers && ReaderIdle(readers[k], now)
  }

  function Buried(readers: map<string, Reader>, idle: set<string>, now: int): map<string, Grave> {
    map c | c in idle && c in readers :: Grave(readers[c].cursor, now)
  }

  // Everything else past its lifetime goes; an idle reader leaves a grave.
  function Sweep(s: Store, now: int): Store {
    s.(shots := KeptShots(s.shots, now), idem := KeptIdem(s.idem, now),
       graves := KeptGraves(s.graves, now) + Buried(s.readers, IdleReaders(s.readers, now), now),
       readers := s.readers - IdleReaders(s.readers, now))
  }

  /* ----- readers ----- */

  function Registered(now: int): Reader {
    Reader(0, 0, None, false, false, now)
  }

  function Register(s: Store, c: string, now: int): Txn<Reader> {
    if c in s.readers then Commit(s, s.readers[c])
    else if c in s.graves then Refuse(ConsumerRetired)
    else if |s.readers| >= MAX_CONSUMERS || |s.readers| + |s.graves| >= MAX_CONSUMERS + MAX_RETIRED then Refuse(MemoryCapacity)
    else Commit(s.(readers := s.readers[c := Registered(now)]), Registered(now))
  }

  function Touch(s: Store, c: string, now: int): Store
    requires c in s.readers
  {
    s.(readers := s.readers[c := s.readers[c].(updated := now)])
  }

  // An open snapshot that can no longer be paged.
  predicate Unusable(s: Store, c: string, sid: string, now: int) {
    sid !in s.shots || s.shots[sid].consumer != c || (!s.shots[sid].acked && now - s.shots[sid].created > SNAPSHOT_TTL)
  }

  // Clearing it keeps the obligation it stood for.
  function Clear(s: Store, c: string): Store
    requires c in s.readers
  {
    s.(readers := s.readers[c := s.readers[c].(snapshot := None, resnapshot := true)])
  }

  predicate NeedsSnapshot(s: Store, c: string)
    requires c in s.readers
  {
    var r := s.readers[c];
    r.snapshot.Some? || r.resnapshot || !r.bootstrapped || r.cursor < s.floor
  }

  /* ----- frozen snapshots ----- */

  function Rank(k: Kind): int {
    match k
    case Directive => 0
    case Decision => 1
    case Gotcha => 2
    case Handoff => 3
    case Finding => 4
    case Status => 5
  }

  function Tail(k: Kind): Option<int> {
    match k
    case Finding => Some(25)
    case Handoff => Some(25)
    case Status => Some(10)
    case _ => None
  }

  // Snapshots of one consumer still within their retention.
  function HeldShots(s: Store, c: string, now: int): set<string> {
    set k | k in s.shots && s.shots[k].consumer == c && !ShotLapsed(s.shots[k], now)
  }

  // Insert the frozen copy as the consumer's open snapshot, dropping only snapshots of its own
  // that are already past their retention.
  function Freeze(s: Store, c: string, sid: string, items: seq<Item>, pruned: set<string>, now: int): Store
    requires c in s.readers
  {
    s.(shots := s.shots[sid := Shot(c, s.head, now, items, 0, false, 0)] - pruned,
       readers := s.readers[c := s.readers[c].(snapshot := Some(sid), updated := now)])
  }

  predicate Prunable(s: Store, c: string, pruned: set<string>, now: int) {
    forall k :: k in pruned ==> k in s.shots && s.shots[k].consumer == c && ShotLapsed(s.shots[k], now)
  }

  /* ----- pages ----- */

  // The longest prefix whose sizes fit the budget.
  function Fitting(sizes: seq<int>, used: int, budget: int): (n: nat)
    ensures n <= |sizes|
    decreases |sizes|
  {
    if sizes == [] || used + sizes[0] > budget then 0 else 1 + Fitting(sizes[1..], used + sizes[0], budget)
  }

  predicate Oversize(sizes: seq<int>, budget: int) {
    sizes != [] && sizes[0] > budget
  }

  // The rows a delta may carry, in order.
  function RowsAbove(s: Store, from: int): seq<int> {
    Lowest((set q | q in s.entries && q > from), ROW_WINDOW)
  }

  datatype Page = Delta(entries: seq<int>, cursor: int, next: int, head: int, more: bool)
                | Frozen(sid: string, head: int, items: seq<Item>, next: int, total: int, more: bool)

  // What was issued to a reader, once the page leaves.
  function IssueTo(s: Store, c: string, end: int): Store
    requires c in s.readers
  {
    if end > s.readers[c].issued then s.(readers := s.readers[c := s.readers[c].(issued := end)]) else s
  }

  function IssueShot(s: Store, sid: string, next: int): Store
    requires sid in s.shots
  {
    if next > s.shots[sid].issued then s.(shots := s.shots[sid := s.shots[sid].(issued := next)]) else s
  }

  function ItemSizes(items: seq<Item>): (sizes: seq<int>)
    ensures |sizes| == |items|
  {
    seq(|items|, k requires 0 <= k < |items| => items[k].bytes)
  }

  // A page of the frozen list, by a token that names the next position.
  function PageAt(s: Store, c: string, sid: string, token: int, claimed: Option<string>, now: int): Txn<Page> {
    if sid !in s.shots then Refuse(SnapshotExpired)
    else
      var h := s.shots[sid];
      if h.consumer != c then Refuse(ForeignSnapshot)
      else if !h.acked && now - h.created > SNAPSHOT_TTL then Refuse(SnapshotExpired)
      else if token != 0 && claimed.None? then Refuse(StalePageToken)
      else if claimed.Some? && claimed.value != sid then
        Refuse(if claimed.value in s.shots && s.shots[claimed.value].consumer != c then ForeignSnapshot else StalePageToken)
      else if token > h.issued then Refuse(StalePageToken)
      else
        var rest := h.items[Min(Max(token, 0), |h.items|)..];
        var sizes := ItemSizes(rest);
        if Oversize(sizes, FRAME_BUDGET) then Refuse(EntryTooLarge)
        else
          var n := Fitting(sizes, 0, FRAME_BUDGET);
          Commit(IssueShot(s, sid, token + n),
                 Frozen(sid, h.head, rest[..n], token + n, |h.items|, n < |rest| || token + n < |h.items|))
  }

  // A delta after the reader's cursor; sizes are the rows' encoded sizes as they now stand.
  function DeltaOf(s: Store, c: string, sizes: seq<int>): Txn<Page>
    requires c in s.readers && |sizes| == |RowsAbove(s, s.readers[c].cursor)|
  {
    var from := s.readers[c].cursor;
    if Oversize(sizes, FRAME_BUDGET) then Refuse(EntryTooLarge)
    else
      var n := Fitting(sizes, 0, FRAME_BUDGET);
      var page := RowsAbove(s, from)[..n];
      var end := if page == [] then from else page[|page| - 1];
      Commit(IssueTo(s, c, end), Delta(page, from, end, s.head, n < |sizes| || end < s.head))
  }

  /* ----- acknowledgements ----- */

  datatype Acked = Acked(cursor: int, replayed: bool, ignored: bool)

  function AckSnapshot(s: Store, c: string, sid: string, now: int): Txn<Acked>
    requires c in s.readers
  {
    var r := s.readers[c];
    if sid !in s.shots then Refuse(SnapshotExpired)
    else
      var h := s.shots[sid];
      if h.consumer != c then Refuse(ForeignSnapshot)
      else if h.acked then Commit(s, Acked(h.head, true, false))
      else if r.snapshot != Some(sid) then Refuse(StaleSnapshot)
      else if now - h.created > SNAPSHOT_TTL then Refuse(SnapshotExpired)
      else if h.issued < |h.items| then Refuse(SnapshotIncomplete)
      else
        Commit(s.(shots := s.shots[sid := h.(acked := true, ackedAt := now)],
                  readers := s.readers[c := r.(cursor := h.head, issued := Max(h.head, r.issued), snapshot := None,
                                               bootstrapped := true, resnapshot := false)]),
               Acked(h.head, false, false))
  }

  function AckThrough(s: Store, c: string, through: int): Txn<Acked>
    requires c in s.readers
  {
    var r := s.readers[c];
    if r.snapshot.Some? || r.resnapshot then Refuse(SnapshotOpen)
    else if !r.bootstrapped then Refuse(NotBootstrapped)
    else if through < r.cursor then Commit(s, Acked(r.cursor, false, true))
    else if through > r.issued then Refuse(NotIssued)
    else Commit(s.(readers := s.readers[c := r.(cursor := through)]), Acked(through, false, false))
  }
}
