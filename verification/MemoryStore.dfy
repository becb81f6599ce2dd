/** The memory log as its single owner keeps it: tables changed in place, transaction by
    transaction. Where the page ceiling may refuse index maintenance the choice is left open. */
module MemoryStore {
  import opened Common
  import opened MemoryModel
  import opened MemoryBudget
  import opened MemoryRuns
  import opened MemoryExpiry
  import opened MemoryFreeze

  // Expiry went through, with its index maintenance or after giving the index up.
  ghost predicate ExpiredTo(s: Store, t: Store, now: int, fts: bool) {
    var u := OneShot(s, now, fts);
    t == u || t == u.(indexed := STALE, search := t.search)
  }

  // What reclamation makes of a store: expiry in batches, each as it happened to go, then everything
  // else past its lifetime.
  ghost predicate Reclaimed(s: Store, t: Store, now: int, fts: bool) {
    exists fits {:trigger ExpireWith(s, now, fts, fits)} ::
      var u := ExpireWith(s, now, fts, fits); ExpiredTo(s, u, now, fts) && t == Sweep(u, now)
  }

  /* ----- measuring ----- */

  method SumOf<K(==)>(m: map<K, int>) returns (total: int)
    ensures total == Sum(m)
  {
    var todo := m.Keys;
    total := 0;
    assert m - todo == map[];
    while todo != {}
      invariant todo <= m.Keys && total == Sum(m - todo)
      decreases |todo|
    {
      var k :| k in todo;
      SumSplit(m - (todo - {k}), k);
      assert (m - (todo - {k})) - {k} == m - todo;
      total := total + m[k];
      todo := todo - {k};
    }
    assert m - todo == m;
  }

  // The rows of a page: as many as the byte budget takes. A first row over the budget can never
  // be delivered.
  method FitPage(sizes: seq<int>, budget: int) returns (oversize: bool, n: nat)
    ensures oversize <==> Oversize(sizes, budget)
    ensures !oversize ==> n == Fitting(sizes, 0, budget)
  {
    n := 0;
    oversize := false;
    var used := 0;
    while n < |sizes|
      invariant 0 <= n <= |sizes| && (n == 0 ==> used == 0)
      invariant n > 0 ==> !Oversize(sizes, budget)
      invariant n + Fitting(sizes[n..], used, budget) == Fitting(sizes, 0, budget)
    {
      if n == 0 && sizes[0] > budget {
        return true, 0;
      }
      if used + sizes[n] > budget {
        return;
      }
      assert sizes[n..][1..] == sizes[n + 1..];
      used := used + sizes[n];
      n := n + 1;
    }
  }

  /* ----- expiry, one batch further ----- */

  lemma BatchOn(s: Store, now: int, fts: bool)
    requires LapsedRows(s, now) != {}
    ensures var batch := Members(Lowest(LapsedRows(s, now), EXPIRY_BATCH));
      batch != {} && batch <= LapsedRows(s, now)
    ensures ExpireAll(ExpireBatch(s, now, fts), now, fts) == ExpireAll(s, now, fts)
    ensures LapsedRows(ExpireBatch(s, now, fts), now) == LapsedRows(s, now) - Members(Lowest(LapsedRows(s, now), EXPIRY_BATCH))
  {
    BatchFacts(s, now);
    LapsedAfter(s, Members(Lowest(LapsedRows(s, now), EXPIRY_BATCH)), now, fts);
    hide Lowest, LapsedRows, Forget, Unindex;
  }

  // Stores that hold the same rows and boundary, whatever became of the index.
  predicate SameRows(s: Store, t: Store) {
    t == s.(indexed := t.indexed, search := t.search)
  }

  lemma SameRowsExpire(s: Store, t: Store, now: int, fts: bool)
    requires SameRows(s, t)
    ensures LapsedRows(t, now) == LapsedRows(s, now) && SameRows(OneShot(s, now, fts), OneShot(t, now, fts))
    ensures !IndexUsable(t, fts) ==> OneShot(t, now, fts).search == t.search
    ensures t.indexed == STALE ==> OneShot(t, now, fts).indexed == STALE
  {
    hide Highest;
    assert LapsedRows(t, now) == LapsedRows(s, now);
    hide LapsedRows;
  }

  // Part of the way through expiry: what remains leads to the same rows, and to the same index
  // unless it was given up.
  predicate Onward(s: Store, t: Store, now: int, fts: bool) {
    && SameRows(OneShot(s, now, fts), OneShot(t, now, fts))
    && (OneShot(t, now, fts) == OneShot(s, now, fts) || t.indexed == STALE)
    && (s.indexed == STALE ==> t.indexed == STALE)
  }

  lemma NothingLeft(s: Store, now: int, fts: bool)
    requires LapsedRows(s, now) == {}
    ensures OneShot(s, now, fts) == s
  {}

  lemma NoBatches(s: Store, now: int, fts: bool)
    ensures ExpireWith(s, now, fts, []) == s
  {}

  function LapsedShots(s: Store, c: string, now: int): set<string> {
    set k | k in s.shots && s.shots[k].consumer == c && ShotLapsed(s.shots[k], now)
  }

  // What admission may start from: the state as it was, or after one reclamation.
  ghost predicate AdmittedFrom(s: Store, a: Store, now: int, fts: bool) {
    a == s || Reclaimed(s, a, now, fts)
  }

  // A reader known, or newly admitted.
  ghost predicate RegisteredFrom(s: Store, t: Store, c: string, now: int, fts: bool) {
    && Register(s, c, now).Commit?
    && if c in s.readers then t == s
       else exists a {:trigger AdmittedFrom(s, a, now, fts)} :: AdmittedFrom(s, a, now, fts)
              && Room(a, RegisterCharge(c), 0, false) && Enforced(t, false) && t == a.(readers := a.readers[c := Registered(now)])
  }

  // A request counts as activity, and gives up an open snapshot that can no longer be paged.
  function Attended(s: Store, c: string, now: int): (t: Store)
    requires c in s.readers
    ensures c in t.readers
  {
    var u := Touch(s, c, now);
    if u.readers[c].snapshot.Some? && Unusable(u, c, u.readers[c].snapshot.value, now) then Clear(u, c) else u
  }

  // A request moves its reader's clock, closes an open snapshot exactly when it can no longer be
  // paged, owing it again, and changes nothing else.
  lemma AttendedEffect(s: Store, c: string, now: int)
    requires c in s.readers
    ensures var t := Attended(s, c, now); var r, u := s.readers[c], t.readers[c];
      var gone := r.snapshot.Some?
        && !(r.snapshot.value in s.shots && s.shots[r.snapshot.value].consumer == c
             && (s.shots[r.snapshot.value].acked || now - s.shots[r.snapshot.value].created <= 3600));
      && u.updated == now && u.snapshot == (if gone then None else r.snapshot) && u.resnapshot == (r.resnapshot || gone)
      && u.cursor == r.cursor && u.issued == r.issued && u.bootstrapped == r.bootstrapped
      && t == s.(readers := s.readers[c := u])
  {}

  ghost predicate FreezesTo(s: Store, a: Store, t: Store, c: string, sid: string, items: seq<Item>, pruned: set<string>, now: int) {
    && c in a.readers && Room(a, FreezeCharge(c, sid, items), 0, false) && Enforced(t, false) && Prunable(a, c, pruned, now)
    && FrozenList(s, items, now) && t == Freeze(a, c, sid, items, pruned, now)
  }

  // What a page is taken from: an open snapshot stays, one that is owed is frozen first.
  ghost predicate ServedFrom(s: Store, t: Store, c: string, sid: string, now: int, fts: bool)
    requires c in s.readers
  {
    if s.readers[c].snapshot.Some? || !NeedsSnapshot(s, c) then t == s
    else
      && sid !in s.shots && |HeldShots(s, c, now)| < MAX_SNAPSHOTS
      && exists a, items, pruned {:trigger AdmittedFrom(s, a, now, fts), FreezesTo(s, a, t, c, sid, items, pruned, now)} ::
           AdmittedFrom(s, a, now, fts) && FreezesTo(s, a, t, c, sid, items, pruned, now)
  }

  ghost predicate NoRoomFor(s: Store, t: Store, c: string, sid: string, items: seq<Item>, pruned: set<string>, now: int) {
    && c in t.readers && FrozenList(s, items, now)
    && !(Room(t, FreezeCharge(c, sid, items), 0, false) && Enforced(Freeze(t, c, sid, items, pruned, now), false))
  }

  // Why an owed snapshot was not frozen: too many are held already, or the store has no room.
  ghost predicate FreezeRefused(s: Store, t: Store, c: string, sid: string, now: int, fts: bool, e: MemoryError)
    requires c in s.readers
  {
    && s.readers[c].snapshot.None? && NeedsSnapshot(s, c)
    && (|| (e == SnapshotCapacity && t == s && (sid in s.shots || |HeldShots(s, c, now)| >= MAX_SNAPSHOTS))
        || (e == MemoryCapacity && AdmittedFrom(s, t, now, fts)
            && exists items, pruned {:trigger NoRoomFor(s, t, c, sid, items, pruned, now)} :: NoRoomFor(s, t, c, sid, items, pruned, now)))
  }

  // What a request leaves when the reader could not even be registered.
  ghost predicate Unregistered(s: Store, t: Store, c: string, now: int, fts: bool, e: MemoryError) {
    match Register(s, c, now)
    case Refuse(x) => e == x && t == s
    case Commit(_, _) =>
      && c !in s.readers && e == MemoryCapacity && AdmittedFrom(s, t, now, fts)
      && !(Room(t, RegisterCharge(c), 0, false) && Enforced(t.(readers := t.readers[c := Registered(now)]), false))
  }

  // The page a reader gets from a state: of its open snapshot, or else a delta.
  ghost function PageFrom(s: Store, c: string, token: int, claimed: Option<string>, now: int, wire: (int, Entry) -> nat): Txn<Page>
    requires c in s.readers
  {
    match s.readers[c].snapshot
    case Some(open) => PageAt(s, c, open, token, claimed, now)
    case None =>
      var rows := RowsAbove(s, s.readers[c].cursor);
      RowsSized(s, s.readers[c].cursor);
      DeltaOf(s, c, Sizes(s, rows, wire))
  }

  // What a note does: refused or answered before anything is written, or admitted, appended and
  // enforced, all of it or nothing. `admitted` is the state the append starts from.
  ghost predicate NoteServed(s: Store, admitted: Store, t: Store, n: Note, now: int, fts: bool, error: Option<MemoryError>, reply: Noted) {
    match Precheck(s, n, now)
    case Reject(e) => error == Some(e) && t == s
    case Repeat(q) => error.None? && reply == Duplicate(q) && t == s
    case Proceed =>
      && AdmittedFrom(s, admitted, now, fts)
      && (!Room(admitted, NoteCharge(n), 1, Control(n)) ==> error == Some(MemoryCapacity) && t == admitted)
      && (Room(admitted, NoteCharge(n), 1, Control(n)) ==>
            match Append(admitted, n, fts)
            case Commit(u, r) =>
              if Enforced(u, Control(n)) then error.None? && t == u && reply == r
              else error == Some(MemoryCapacity) && t == admitted
            case Refuse(e) => error == Some(e) && t == admitted)
  }

  // What serving an attended reader does: `served` is the state the page is taken from.
  ghost predicate PageServed(s: Store, served: Store, t: Store, c: string, sid: string, token: int,
                             claimed: Option<string>, now: int, fts: bool, wire: (int, Entry) -> nat,
                             error: Option<MemoryError>, page: Option<Page>)
    requires c in s.readers
  {
    || (error.Some? && t == served && FreezeRefused(s, served, c, sid, now, fts, error.value))
    || (&& ServedFrom(s, served, c, sid, now, fts) && c in served.readers
        && (served.readers[c].snapshot.None? ==> !NeedsSnapshot(served, c))
        && match PageFrom(served, c, token, claimed, now, wire)
           case Commit(u, p) => error.None? && page == Some(p) && t == u
           case Refuse(e) => error == Some(e) && t == served)
  }

  // What a sync request does once its reader is registered: `known` is the state then.
  ghost predicate SyncServed(s: Store, known: Store, served: Store, t: Store, c: string, sid: string, token: int,
                             claimed: Option<string>, now: int, fts: bool, wire: (int, Entry) -> nat,
                             error: Option<MemoryError>, page: Option<Page>) {
    && RegisteredFrom(s, known, c, now, fts) && c in known.readers
    && PageServed(Attended(known, c, now), served, t, c, sid, token, claimed, now, fts, wire, error, page)
  }

  // An acknowledgement names a snapshot, or else a position.
  function AckFrom(s: Store, c: string, sid: Option<string>, through: int, now: int): Txn<Acked>
    requires c in s.readers
  {
    if sid.Some? && sid.value != "" then AckSnapshot(s, c, sid.value, now) else AckThrough(s, c, through)
  }

  // What an acknowledgement does once its reader is registered; the request counts as activity.
  ghost predicate AckServed(s: Store, known: Store, t: Store, c: string, sid: Option<string>, through: int, now: int, fts: bool,
                            error: Option<MemoryError>, reply: Acked) {
    && RegisteredFrom(s, known, c, now, fts) && c in known.readers
    && var touched := Touch(known, c, now);
       match AckFrom(touched, c, sid, through, now)
       case Commit(u, r) => error.None? && reply == r && t == u
       case Refuse(e) => error == Some(e) && t == touched
  }

  class Log {
    const engine: bool
    var entries: map<int, Entry>
    var head: int
    var floor: int
    var indexed: int
    var search: map<int, string>
    var idem: map<string, Idem>
    var readers: map<string, Reader>
    var graves: map<string, Grave>
    var shots: map<string, Shot>

    function Contents(): Store
      reads this
    {
      Store(entries, head, floor, indexed, search, idem, readers, graves, shots)
    }

    constructor (engine: bool)
      ensures Contents() == Opened(NEW, engine) && this.engine == engine
    {
      this.engine := engine;
      entries, head, floor, indexed, search := map[], 0, 0, if engine then 0 else STALE, map[];
      idem, readers, graves, shots := map[], map[], map[], map[];
    }

    method MeasureUsage() returns (logical: int)
      ensures logical == Usage(Contents())
    {
      var s := Contents();
      var a := SumOf(EntryCosts(s));
      var b := SumOf(IdemCosts(s));
      var c := SumOf(ReaderCosts(s));
      var d := SumOf(GraveCosts(s));
      var e := SumOf(ShotCosts(s));
      logical := a + b + c + d + e;
    }

    // Postings of the batch go only from an index that is complete for this head.
    method DropPostings(batch: set<int>)
      modifies this`search
      ensures Contents() == Unindex(old(Contents()), batch, engine)
    {
      if engine && indexed == head {
        var all := search;
        var todo := batch;
        assert all - (batch - todo) == all;
        while todo != {}
          invariant todo <= batch && search == all - (batch - todo)
          decreases |todo|
        {
          var q := Least(todo);
          assert batch - (todo - {q}) == (batch - todo) + {q};
          search := search - {q};
          todo := todo - {q};
        }
        assert batch - todo == batch;
      }
    }

    method ForgetRows(batch: set<int>)
      requires batch != {}
      modifies this`entries, this`floor, this`indexed
      ensures Contents() == Forget(old(Contents()), batch, engine)
    {
      entries := entries - batch;
      var highest := Highest(batch);
      if highest > floor {
        floor := highest;
      }
      if !engine {
        indexed := STALE;
      }
    }

    // At most `EXPIRY_BATCH` lapsed rows go, with their postings if `fits`, and after the mark was
    // made stale where the engine had no room for that.
    method ExpireOne(now: int, lapsed: set<int>) returns (fits: bool)
      requires lapsed != {} && lapsed == LapsedRows(Contents(), now)
      modifies this`entries, this`floor, this`indexed, this`search
      ensures Contents() == BatchWith(old(Contents()), now, engine, fits)
      ensures Onward(old(Contents()), Contents(), now, engine)
      ensures LapsedRows(Contents(), now) <= lapsed && |LapsedRows(Contents(), now)| < |lapsed|
    {
      hide OneShot, LapsedRows, Unindex, Forget;
      ghost var s := Contents();
      var batch := Members(Lowest(lapsed, EXPIRY_BATCH));
      fits := *;
      if !fits {
        indexed := STALE;
        GivenUp(s, now, engine);
      }
      OneBatch(Contents(), now, engine);
      DropPostings(batch);
      ForgetRows(batch);
      Shrinks(lapsed, batch);
    }

    // Removes what is past its lifetime, batch by batch; `fits` says how each batch went.
    method ExpireEntries(now: int) returns (ghost fits: seq<bool>)
      modifies this`entries, this`floor, this`indexed, this`search
      ensures Contents() == ExpireWith(old(Contents()), now, engine, fits) && LapsedRows(Contents(), now) == {}
      ensures ExpiredTo(old(Contents()), Contents(), now, engine)
    {
      hide OneShot, LapsedRows, BatchWith, ExpireWith;
      ghost var s := Contents();
      fits := [];
      NoBatches(s, now, engine);
      var lapsed := LapsedRows(Contents(), now);
      while lapsed != {}
        invariant lapsed == LapsedRows(Contents(), now)
        invariant Contents() == ExpireWith(s, now, engine, fits)
        invariant Onward(s, Contents(), now, engine)
        decreases |lapsed|
      {
        var fit := ExpireOne(now, lapsed);
        OneMoreBatch(s, now, engine, fits, fit);
        fits := fits + [fit];
        lapsed := LapsedRows(Contents(), now);
      }
      NothingLeft(Contents(), now, engine);
    }

    // Every idle reader becomes a grave that remembers how far it had read.
    method BuryIdle(idle: set<string>, now: int)
      requires idle <= readers.Keys
      modifies this`graves, this`readers
      ensures readers == old(readers) - idle && graves == old(graves) + Buried(old(readers), idle, now)
    {
      hide Buried;
      ghost var before := readers;
      ghost var kept := graves;
      var todo := idle;
      NoneBuried(before, graves, idle - todo, now);
      while todo != {}
        invariant todo <= idle && readers == before - (idle - todo)
        invariant graves == kept + Buried(before, idle - todo, now)
        decreases |todo|
      {
        var c :| c in todo;
        OneBuried(before, kept, idle - todo, c, now);
        assert idle - (todo - {c}) == (idle - todo) + {c};
        graves := graves[c := Grave(readers[c].cursor, now)];
        readers := readers - {c};
        todo := todo - {c};
      }
      assert idle - todo == idle;
    }

    // Everything else past its lifetime goes.
    method SweepRest(now: int)
      modifies this`shots, this`idem, this`graves, this`readers
      ensures Contents() == Sweep(old(Contents()), now)
    {
      hide Buried, IdleReaders, KeptShots, KeptIdem, KeptGraves;
      shots := KeptShots(shots, now);
      idem := KeptIdem(idem, now);
      graves := KeptGraves(graves, now);
      var idle := IdleReaders(readers, now);
      IdleAreReaders(readers, now);
      BuryIdle(idle, now);
    }

    method Reclaim(now: int)
      modifies this
      ensures Reclaimed(old(Contents()), Contents(), now, engine)
    {
      ghost var fits := ExpireEntries(now);
      ghost var u := Contents();
      assert ExpiredTo(old(Contents()), u, now, engine);
      SweepRest(now);
    }

    // Whether a mutation fits, trying one reclamation if it does not at first.
    method Admit(need: int, slots: int, control: bool, now: int) returns (admitted: bool)
      modifies this
      ensures Contents() == old(Contents()) || Reclaimed(old(Contents()), Contents(), now, engine)
      ensures admitted <==> Room(Contents(), need, slots, control)
      ensures Room(old(Contents()), need, slots, control) ==> Contents() == old(Contents())
    {
      hide Usage, Reclaimed;
      var logical := MeasureUsage();
      if |entries| + slots <= EntryCap(control) && logical + need <= ByteCap(control) {
        return true;
      }
      Reclaim(now);
      logical := MeasureUsage();
      admitted := |entries| + slots <= EntryCap(control) && logical + need <= ByteCap(control);
    }

    // Measured after the change, inside its transaction: past the cap everything is rolled back.
    method Enforce(saved: Store, control: bool) returns (error: Option<MemoryError>)
      modifies this
      ensures if Enforced(old(Contents()), control) then error.None? && Contents() == old(Contents())
              else error == Some(MemoryCapacity) && Contents() == saved
    {
      hide Usage;
      var logical := MeasureUsage();
      if logical <= ByteCap(control) {
        return None;
      }
      entries, head, floor, indexed, search := saved.entries, saved.head, saved.floor, saved.indexed, saved.search;
      idem, readers, graves, shots := saved.idem, saved.readers, saved.graves, saved.shots;
      error := Some(MemoryCapacity);
    }

    // The appending transaction: everything it does stands, or nothing.
    method AppendEvent(n: Note) returns (error: Option<MemoryError>, reply: Noted)
      modifies this`head, this`entries, this`search, this`indexed, this`idem
      ensures match Append(old(Contents()), n, engine)
        case Commit(t, r) => error.None? && Contents() == t && reply == r
        case Refuse(e) => error == Some(e) && Contents() == old(Contents())
    {
      hide Conflict, Linked;
      reply := Duplicate(0);
      var target := Target(n);
      if target.Some? && target.value !in entries {
        return Some(NoSuchEntry), reply;
      }
      if n.scoped.Some? && |idem| >= MAX_IDEM_ROWS {
        return Some(IdemCapacity), reply;
      }
      var revision, conflict := 1, None;
      if target.Some? {
        var found := entries[target.value];
        conflict := Either(found.supersededBy, found.revokedBy);
        revision := found.revision + 1;
      }
      NoConflict(Contents(), n);
      var e := Entry(n.kind, n.body, n.weight, revision, n.supersedes, n.revokes, None, None, conflict, n.expires);
      assert e == NewEntry(Contents(), n);
      hide NewEntry, Target;
      WriteEvent(n, e);
      error, reply := None, Appended(head, conflict);
    }

    method WriteEvent(n: Note, e: Entry)
      requires e == NewEntry(Contents(), n) && e.conflicts == Conflict(Contents(), n)
      modifies this`head, this`entries, this`search, this`indexed, this`idem
      ensures head == old(head) + 1 && entries == Linked(old(entries)[head := e], n, head, e.conflicts)
      ensures if engine && old(indexed) >= 0 then search == old(search)[head := n.body] && indexed == head
              else search == old(search) && indexed == old(indexed)
      ensures idem == if n.scoped.Some? && n.deadline.Some?
                      then old(idem)[n.scoped.value := Idem(n.content, head, n.deadline.value)] else old(idem)
    {
      hide NewEntry, Conflict, Linked;
      head := head + 1;
      entries := entries[head := e];
      LinkTarget(n, head, e.conflicts);
      if engine && indexed >= 0 {
        search := search[head := n.body];
        indexed := head;
      }
      if n.scoped.Some? && n.deadline.Some? {
        idem := idem[n.scoped.value := Idem(n.content, head, n.deadline.value)];
      }
    }

    // Writes the links of an unopposed note, one row at a time.
    method LinkTarget(n: Note, next: int, conflict: Option<int>)
      modifies this`entries
      ensures entries == Linked(old(entries), n, next, conflict)
    {
      if Truthy(n.supersedes) && conflict.None? && n.supersedes.value in entries {
        entries := entries[n.supersedes.value := entries[n.supersedes.value].(supersededBy := Some(next))];
      }
      if Truthy(n.revokes) && conflict.None? && n.revokes.value in entries {
        entries := entries[n.revokes.value := entries[n.revokes.value].(revokedBy := Some(next))];
      }
    }

    // Answer a repeat, or admit and append. `admitted` is the state the append starts from: as
    // before, or after one reclamation.
    method NoteEvent(n: Note, now: int) returns (error: Option<MemoryError>, reply: Noted, ghost admitted: Store)
      modifies this
      ensures NoteServed(old(Contents()), admitted, Contents(), n, now, engine, error, reply)
    {
      hide Usage, Reclaimed, Append, Room, NoteCharge, Control, Enforced, Blank;
      admitted := Contents();
      reply := Duplicate(0);
      if Blank(n.body) {
        return Some(InvalidRequest), reply, admitted;
      }
      if n.bodySize > MAX_BODY || n.probe > FRAME_BUDGET {
        return Some(EntryTooLarge), reply, admitted;
      }
      if Truthy(n.supersedes) && Truthy(n.revokes) {
        return Some(InvalidRequest), reply, admitted;
      }
      if n.scoped.Some? {
        if n.deadline.None? || n.deadline.value > now + IDEM_TTL {
          return Some(InvalidRequest), reply, admitted;
        }
        // Past the deadline a kept retry record does not help.
        if n.deadline.value <= now {
          return Some(RetryDeadlineExpired), reply, admitted;
        }
        if n.scoped.value in idem {
          var row := idem[n.scoped.value];
          if row.content != n.content || row.deadline != n.deadline.value {
            return Some(IdempotencyConflict), reply, admitted;
          }
          return None, Duplicate(row.sequence), admitted;
        }
      }
      var room := Admit(NoteCharge(n), 1, Control(n), now);
      admitted := Contents();
      if !room {
        return Some(MemoryCapacity), reply, admitted;
      }
      var saved := Contents();
      error, reply := AppendEvent(n);
      if error.None? {
        error := Enforce(saved, Control(n));
      }
    }

    method RegisterReader(c: string, now: int) returns (error: Option<MemoryError>, ghost admitted: Store)
      modifies this
      ensures match Register(old(Contents()), c, now)
        case Refuse(e) => error == Some(e) && Contents() == old(Contents())
        case Commit(t, _) =>
          if c in old(readers) then error.None? && Contents() == old(Contents())
          else
            && (admitted == old(Contents()) || Reclaimed(old(Contents()), admitted, now, engine))
            && var known := admitted.(readers := admitted.readers[c := Registered(now)]);
               && (error.None? <==> Room(admitted, RegisterCharge(c), 0, false) && Enforced(known, false))
               && (error.Some? ==> error == Some(MemoryCapacity))
               && Contents() == if error.None? then known else admitted
    {
      hide Usage, Reclaimed, Room, Enforced;
      admitted := Contents();
      if c in readers {
        return None, admitted;
      }
      if c in graves {
        return Some(ConsumerRetired), admitted;
      }
      // Bounded by live readers and by the graves they will become.
      if |readers| >= MAX_CONSUMERS || |readers| + |graves| >= MAX_CONSUMERS + MAX_RETIRED {
        return Some(MemoryCapacity), admitted;
      }
      var room := Admit(RegisterCharge(c), 0, false, now);
      admitted := Contents();
      if !room {
        return Some(MemoryCapacity), admitted;
      }
      var saved := Contents();
      readers := readers[c := Registered(now)];
      error := Enforce(saved, false);
    }

    method NewestShot(among: set<string>) returns (newest: string)
      requires among != {} && among <= shots.Keys
      ensures newest in among && forall k :: k in among ==> shots[k].created <= shots[newest].created
    {
      newest :| newest in among;
      var todo := among - {newest};
      while todo != {}
        invariant todo <= among && newest in among
        invariant forall k :: k in among - todo ==> shots[k].created <= shots[newest].created
        decreases |todo|
      {
        var k :| k in todo;
        if shots[k].created > shots[newest].created {
          newest := k;
        }
        todo := todo - {k};
      }
    }

    // All of them but the newest few.
    method Oldest(among: set<string>) returns (pruned: set<string>)
      requires among <= shots.Keys
      ensures pruned <= among && |among - pruned| == Min(|among|, MAX_SNAPSHOTS)
      ensures forall a, b :: a in pruned && b in among - pruned ==> shots[a].created <= shots[b].created
    {
      pruned := among;
      var n := 0;
      while n < MAX_SNAPSHOTS && pruned != {}
        invariant pruned <= among && |among - pruned| == n <= MAX_SNAPSHOTS
        invariant forall a, b :: a in pruned && b in among - pruned ==> shots[a].created <= shots[b].created
        decreases MAX_SNAPSHOTS - n
      {
        var k := NewestShot(pruned);
        OneLess(among, pruned, k);
        pruned := pruned - {k};
        n := n + 1;
      }
      NoneLeft(among, pruned);
    }

    // Which lapsed snapshots of one consumer go: all but the newest few. None of the others is
    // touched.
    method PastRetention(c: string, now: int) returns (pruned: set<string>)
      ensures Prunable(Contents(), c, pruned, now)
      ensures |LapsedShots(Contents(), c, now) - pruned| == Min(|LapsedShots(Contents(), c, now)|, MAX_SNAPSHOTS)
      ensures forall a, b :: a in pruned && b in LapsedShots(Contents(), c, now) - pruned ==> shots[a].created <= shots[b].created
    {
      hide ShotLapsed;
      pruned := Oldest(LapsedShots(Contents(), c, now));
    }

    // Freeze the live entries at this head for one reader. The list is chosen before admission; a
    // reclamation in between changes none of it.
    method FreezeFor(c: string, sid: string, now: int, wire: (int, Entry) -> nat)
      returns (error: Option<MemoryError>, ghost items: seq<Item>, ghost pruned: set<string>, ghost admitted: Store)
      requires c in readers && !ReaderIdle(readers[c], now) && sid !in shots
      modifies this
      ensures FrozenList(old(Contents()), items, now)
      ensures |HeldShots(old(Contents()), c, now)| >= MAX_SNAPSHOTS ==> error == Some(SnapshotCapacity) && Contents() == old(Contents())
      ensures |HeldShots(old(Contents()), c, now)| < MAX_SNAPSHOTS ==>
        && (admitted == old(Contents()) || Reclaimed(old(Contents()), admitted, now, engine))
        && c in admitted.readers
        && (error.None? <==> Room(admitted, FreezeCharge(c, sid, items), 0, false) && Enforced(Freeze(admitted, c, sid, items, pruned, now), false))
        && (error.Some? ==> error == Some(MemoryCapacity))
        && Prunable(admitted, c, pruned, now)
        && (error.None? ==> |LapsedShots(admitted, c, now) - pruned| == Min(|LapsedShots(admitted, c, now)|, MAX_SNAPSHOTS))
        && Contents() == if error.None? then Freeze(admitted, c, sid, items, pruned, now) else admitted
    {
      hide Usage, Reclaimed, Room, FrozenList, FreezeCharge, HeldShots, LapsedShots, Enforced;
      admitted := Contents();
      pruned := {};
      var chosen := SelectItems(Contents(), now, wire);
      items := chosen;
      if |HeldShots(Contents(), c, now)| >= MAX_SNAPSHOTS {
        return Some(SnapshotCapacity), items, pruned, admitted;
      }
      var room := Admit(FreezeCharge(c, sid, chosen), 0, false, now);
      admitted := Contents();
      ReclaimedReader(old(Contents()), admitted, c, now, engine);
      if !room {
        return Some(MemoryCapacity), items, pruned, admitted;
      }
      var stale := PastRetention(c, now);
      pruned := stale;
      var saved := Contents();
      shots := shots[sid := Shot(c, head, now, chosen, 0, false, 0)] - stale;
      readers := readers[c := readers[c].(snapshot := Some(sid), updated := now)];
      error := Enforce(saved, false);
    }

    // One page of a frozen snapshot, recorded as issued before it leaves.
    method SnapshotPage(c: string, sid: string, token: int, claimed: Option<string>, now: int)
      returns (error: Option<MemoryError>, page: Option<Page>)
      modifies this`shots
      ensures match PageAt(old(Contents()), c, sid, token, claimed, now)
        case Commit(t, r) => error.None? && page == Some(r) && Contents() == t
        case Refuse(e) => error == Some(e) && page.None? && Contents() == old(Contents())
    {
      hide Fitting, Oversize, ItemSizes;
      page := None;
      if sid !in shots {
        return Some(SnapshotExpired), None;
      }
      var h := shots[sid];
      if h.consumer != c {
        return Some(ForeignSnapshot), None;
      }
      if !h.acked && now - h.created > SNAPSHOT_TTL {
        return Some(SnapshotExpired), None;
      }
      if token != 0 && claimed.None? {
        return Some(StalePageToken), None;
      }
      if claimed.Some? && claimed.value != sid {
        // A snapshot of somebody else is reported as such.
        if claimed.value in shots && shots[claimed.value].consumer != c {
          return Some(ForeignSnapshot), None;
        }
        return Some(StalePageToken), None;
      }
      if token > h.issued {
        return Some(StalePageToken), None;
      }
      var rest := h.items[Min(Max(token, 0), |h.items|)..];
      var sizes := ItemSizes(rest);
      var oversize, n := FitPage(sizes, FRAME_BUDGET);
      if oversize {
        return Some(EntryTooLarge), None;
      }
      var next := token + n;
      if next > h.issued {
        shots := shots[sid := h.(issued := next)];
      }
      error := None;
      page := Some(Frozen(sid, h.head, rest[..n], next, |h.items|, n < |rest| || next < |h.items|));
    }

    // A delta after the reader's cursor. It never moves the cursor; acknowledging does.
    method DeltaPage(c: string, sizes: seq<int>) returns (error: Option<MemoryError>, page: Option<Page>)
      requires c in readers && |sizes| == |RowsAbove(Contents(), readers[c].cursor)|
      modifies this`readers
      ensures match DeltaOf(old(Contents()), c, sizes)
        case Commit(t, r) => error.None? && page == Some(r) && Contents() == t
        case Refuse(e) => error == Some(e) && page.None? && Contents() == old(Contents())
    {
      hide Fitting, RowsAbove;
      page := None;
      var from := readers[c].cursor;
      var rows := RowsAbove(Contents(), from);
      var oversize, n := FitPage(sizes, FRAME_BUDGET);
      if oversize {
        return Some(EntryTooLarge), None;
      }
      var run := rows[..n];
      var end := if run == [] then from else run[|run| - 1];
      if end > readers[c].issued {
        readers := readers[c := readers[c].(issued := end)];
      }
      error := None;
      page := Some(Delta(run, from, end, head, n < |sizes| || end < head));
    }

    // The reader was just here; an open snapshot that has become unusable is closed, and owed
    // again.
    method Attend(c: string, now: int)
      requires c in readers
      modifies this`readers
      ensures Contents() == Attended(old(Contents()), c, now)
    {
      hide Unusable;
      readers := readers[c := readers[c].(updated := now)];
      if readers[c].snapshot.Some? && Unusable(Contents(), c, readers[c].snapshot.value, now) {
        readers := readers[c := readers[c].(snapshot := None, resnapshot := true)];
      }
    }

    // A reader known, or registered now.
    method KnowReader(c: string, now: int) returns (error: Option<MemoryError>)
      modifies this
      ensures error.Some? ==> Unregistered(old(Contents()), Contents(), c, now, engine, error.value)
      ensures error.None? ==> RegisteredFrom(old(Contents()), Contents(), c, now, engine) && c in readers
    {
      hide Reclaimed, Usage, Register, Room, Enforced;
      ghost var admitted;
      error, admitted := RegisterReader(c, now);
      if error.Some? {
        assert AdmittedFrom(old(Contents()), admitted, now, engine) || Register(old(Contents()), c, now).Refuse?;
        return;
      }
      RegisteredReader(old(Contents()), c, now);
      assert c !in old(readers) ==> AdmittedFrom(old(Contents()), admitted, now, engine);
    }

    // Freezes the snapshot a reader is owed, or says why not.
    method OpenSnapshot(c: string, sid: string, now: int, wire: (int, Entry) -> nat) returns (error: Option<MemoryError>)
      requires c in readers && !ReaderIdle(readers[c], now) && readers[c].snapshot.None? && NeedsSnapshot(Contents(), c)
      modifies this
      ensures error.Some? ==> FreezeRefused(old(Contents()), Contents(), c, sid, now, engine, error.value)
      ensures error.None? ==>
        ServedFrom(old(Contents()), Contents(), c, sid, now, engine) && c in readers && readers[c].snapshot == Some(sid)
    {
      hide Reclaimed, FrozenList, Usage, Freeze, Room, Prunable, Enforced, HeldShots, FreezeCharge;
      if sid in shots {
        return Some(SnapshotCapacity);
      }
      ghost var items, pruned, admitted;
      error, items, pruned, admitted := FreezeFor(c, sid, now, wire);
      assert AdmittedFrom(old(Contents()), admitted, now, engine) || error == Some(SnapshotCapacity);
      if error.Some? {
        assert error == Some(MemoryCapacity) ==> NoRoomFor(old(Contents()), Contents(), c, sid, items, pruned, now);
        return;
      }
      FrozenOpens(admitted, c, sid, items, pruned, now);
      assert FreezesTo(old(Contents()), admitted, Contents(), c, sid, items, pruned, now);
    }

    // A page of the open snapshot, of one frozen first if it is owed, or else a delta; `served` is the
    // state the page is taken from.
    method ServeReader(c: string, sid: string, token: int, claimed: Option<string>, now: int, wire: (int, Entry) -> nat)
      returns (error: Option<MemoryError>, page: Option<Page>, ghost served: Store)
      requires c in readers && !ReaderIdle(readers[c], now)
      modifies this
      ensures page.Some? <==> error.None?
      ensures PageServed(old(Contents()), served, Contents(), c, sid, token, claimed, now, engine, wire, error, page)
    {
      hide PageAt, DeltaOf, FreezeRefused, FreezesTo, HeldShots, AdmittedFrom;
      page := None;
      served := Contents();
      if readers[c].snapshot.Some? || readers[c].resnapshot || !readers[c].bootstrapped || readers[c].cursor < floor {
        if readers[c].snapshot.None? {
          error := OpenSnapshot(c, sid, now, wire);
          served := Contents();
          if error.Some? {
            return;
          }
        }
        hide ServedFrom;
        error, page := SnapshotPage(c, readers[c].snapshot.value, token, claimed, now);
      } else {
        RowsSized(Contents(), readers[c].cursor);
        var rows := RowsAbove(Contents(), readers[c].cursor);
        error, page := DeltaPage(c, Sizes(Contents(), rows, wire));
      }
    }

    // What a polling reader gets. Every step before the page is its own transaction.
    method Sync(c: string, sid: string, token: int, claimed: Option<string>, now: int, wire: (int, Entry) -> nat)
      returns (error: Option<MemoryError>, page: Option<Page>, ghost known: Store, ghost served: Store)
      modifies this
      ensures page.Some? <==> error.None?
      ensures (error.Some? && Unregistered(old(Contents()), Contents(), c, now, engine, error.value))
        || SyncServed(old(Contents()), known, served, Contents(), c, sid, token, claimed, now, engine, wire, error, page)
    {
      hide RegisteredFrom, Unregistered, PageServed, Unusable;
      page := None;
      error := KnowReader(c, now);
      known, served := Contents(), Contents();
      if error.Some? {
        return;
      }
      Attend(c, now);
      error, page, served := ServeReader(c, sid, token, claimed, now, wire);
    }

    // An acknowledgement registers its reader like any request of it, and counts as activity.
    method Acknowledge(c: string, sid: Option<string>, through: int, now: int)
      returns (error: Option<MemoryError>, reply: Acked, ghost known: Store)
      modifies this
      ensures (error.Some? && Unregistered(old(Contents()), Contents(), c, now, engine, error.value))
        || AckServed(old(Contents()), known, Contents(), c, sid, through, now, engine, error, reply)
    {
      hide RegisteredFrom, Unregistered, AckSnapshot, AckThrough;
      reply := Acked(0, false, false);
      error := KnowReader(c, now);
      known := Contents();
      if error.Some? {
        return;
      }
      readers := readers[c := readers[c].(updated := now)];
      assert Contents() == Touch(known, c, now);
      if sid.Some? && sid.value != "" {
        error, reply := AcknowledgeSnapshot(c, sid.value, now);
      } else {
        error, reply := AcknowledgeThrough(c, through);
      }
    }

    // Moves a reader to the head of a snapshot whose every position was issued; repeating it
    // answers the same.
    method AcknowledgeSnapshot(c: string, sid: string, now: int) returns (error: Option<MemoryError>, reply: Acked)
      requires c in readers
      modifies this`shots, this`readers
      ensures match AckSnapshot(old(Contents()), c, sid, now)
        case Commit(t, r) => error.None? && reply == r && Contents() == t
        case Refuse(e) => error == Some(e) && Contents() == old(Contents())
    {
      reply := Acked(0, false, false);
      if sid !in shots {
        return Some(SnapshotExpired), reply;
      }
      var h := shots[sid];
      if h.consumer != c {
        return Some(ForeignSnapshot), reply;
      }
      if h.acked {
        return None, Acked(h.head, true, false);
      }
      if readers[c].snapshot != Some(sid) {
        return Some(StaleSnapshot), reply;
      }
      if now - h.created > SNAPSHOT_TTL {
        return Some(SnapshotExpired), reply;
      }
      if h.issued < |h.items| {
        return Some(SnapshotIncomplete), reply;
      }
      shots := shots[sid := h.(acked := true, ackedAt := now)];
      readers := readers[c := readers[c].(cursor := h.head, issued := Max(h.head, readers[c].issued), snapshot := None,
                                          bootstrapped := true, resnapshot := false)];
      error, reply := None, Acked(h.head, false, false);
    }

    method AcknowledgeThrough(c: string, through: int) returns (error: Option<MemoryError>, reply: Acked)
      requires c in readers
      modifies this`readers
      ensures match AckThrough(old(Contents()), c, through)
        case Commit(t, r) => error.None? && reply == r && Contents() == t
        case Refuse(e) => error == Some(e) && Contents() == old(Contents())
    {
      reply := Acked(0, false, false);
      var r := readers[c];
      if r.snapshot.Some? || r.resnapshot {
        return Some(SnapshotOpen), reply;
      }
      if !r.bootstrapped {
        return Some(NotBootstrapped), reply;
      }
      if through < r.cursor {
        return None, Acked(r.cursor, false, true);
      }
      if through > r.issued {
        return Some(NotIssued), reply;
      }
      readers := readers[c := r.(cursor := through)];
      error, reply := None, Acked(through, false, false);
    }
  }

  predicate Sized(s: Store, rows: seq<int>) {
    forall k :: 0 <= k < |rows| ==> rows[k] in s.entries
  }

  // The encoded sizes of rows as they now stand.
  function Sizes(s: Store, rows: seq<int>, wire: (int, Entry) -> nat): (sizes: seq<int>)
    requires Sized(s, rows)
    ensures |sizes| == |rows|
  {
    seq(|rows|, k requires 0 <= k < |rows| => wire(rows[k], s.entries[rows[k]]))
  }

  lemma NoConflict(s: Store, n: Note)
    ensures Conflict(s, n) == if Target(n).Some? && Target(n).value in s.entries
      then Either(s.entries[Target(n).value].supersededBy, s.entries[Target(n).value].revokedBy) else None
  {}

  lemma RowsSized(s: Store, from: int)
    ensures Sized(s, RowsAbove(s, from))
  {
    LowestWithin((set q | q in s.entries && q > from), ROW_WINDOW);
    hide Lowest;
  }

  lemma RegisteredReader(s: Store, c: string, now: int)
    ensures Register(s, c, now).Refuse? ==> c !in s.readers
  {}

  lemma FrozenOpens(s: Store, c: string, sid: string, items: seq<Item>, pruned: set<string>, now: int)
    requires c in s.readers
    ensures var t := Freeze(s, c, sid, items, pruned, now); c in t.readers && t.readers[c].snapshot == Some(sid)
  {}

  // Reclamation spares a reader that is not idle.
  lemma ReclaimedReader(s: Store, t: Store, c: string, now: int, fts: bool)
    requires c in s.readers && !ReaderIdle(s.readers[c], now)
    requires t == s || Reclaimed(s, t, now, fts)
    ensures c in t.readers && t.readers[c] == s.readers[c]
  {
    hide OneShot;
    if t != s {
      var fits :| ExpiredTo(s, ExpireWith(s, now, fts, fits), now, fts) && t == Sweep(ExpireWith(s, now, fts, fits), now);
      var u := ExpireWith(s, now, fts, fits);
      hide ExpireWith;
      OneShotTables(s, now, fts);
    }
  }

  lemma OneShotTables(s: Store, now: int, fts: bool)
    ensures var u := OneShot(s, now, fts);
      u.readers == s.readers && u.shots == s.shots && u.head == s.head && u.graves == s.graves && u.idem == s.idem
  {
    hide Highest, LapsedRows;
  }

  // Reclamation at the moment of choosing spares every live entry, so the list chosen before it
  // is the list of the state the snapshot is frozen in.
  lemma ReclaimedKeepsFrozen(s: Store, t: Store, items: seq<Item>, now: int, fts: bool)
    requires FrozenList(s, items, now) && Reclaimed(s, t, now, fts)
    ensures FrozenList(t, items, now)
  {
    ReclaimedLive(s, t, now, fts);
    hide Reclaimed, LiveSetAt, Before;
    forall q ensures Selected(t, q, now) == Selected(s, q, now) {
      SelectedSame(s, t, q, now);
    }
    forall k | 0 <= k < |items| ensures Selected(t, items[k].sequence, now) && items[k].entry == t.entries[items[k].sequence] {
      assert Selected(s, items[k].sequence, now);
      SelectedLive(s, items[k].sequence, now);
    }
    hide Selected;
  }

  lemma SelectedSame(s: Store, t: Store, q: int, now: int)
    requires t.head == s.head && LiveSetAt(t, t.head, now) == LiveSetAt(s, s.head, now)
    requires forall p :: p in LiveSetAt(s, s.head, now) ==> p in s.entries && p in t.entries && t.entries[p] == s.entries[p]
    ensures Selected(t, q, now) == Selected(s, q, now)
  {
    hide LiveSetAt;
    if q in LiveSetAt(s, s.head, now) {
      assert Newer(t, q, t.head, now) == Newer(s, q, s.head, now);
    }
  }

  lemma ReclaimedLive(s: Store, t: Store, now: int, fts: bool)
    requires Reclaimed(s, t, now, fts)
    ensures t.head == s.head && LiveSetAt(t, t.head, now) == LiveSetAt(s, s.head, now)
    ensures forall p :: p in LiveSetAt(s, s.head, now) ==> p in s.entries && p in t.entries && t.entries[p] == s.entries[p]
  {
    var fits :| ExpiredTo(s, ExpireWith(s, now, fts, fits), now, fts) && t == Sweep(ExpireWith(s, now, fts, fits), now);
    var u := ExpireWith(s, now, fts, fits);
    hide ExpireWith;
    OneShotTables(s, now, fts);
    forall p ensures p in t.entries <==> p in s.entries && !Lapsed(s.entries[p], now) {
      OneShotRow(s, now, fts, p);
    }
    forall p | p in t.entries ensures t.entries[p] == s.entries[p] {
      OneShotRow(s, now, fts, p);
    }
    hide OneShot, Sweep;
  }

  lemma OneShotRow(s: Store, now: int, fts: bool, p: int)
    ensures var u := OneShot(s, now, fts);
      (p in u.entries <==> p in s.entries && !Lapsed(s.entries[p], now)) && (p in u.entries ==> u.entries[p] == s.entries[p])
  {
    hide Highest;
    assert p in LapsedRows(s, now) <==> p in s.entries && Lapsed(s.entries[p], now);
  }

  lemma GivenUp(s: Store, now: int, fts: bool)
    ensures SameRows(OneShot(s, now, fts), OneShot(Invalidate(s), now, fts))
    ensures LapsedRows(Invalidate(s), now) == LapsedRows(s, now)
  {
    SameRowsExpire(s, Invalidate(s), now, fts);
  }

  lemma OneBatch(s: Store, now: int, fts: bool)
    requires LapsedRows(s, now) != {}
    ensures Members(Lowest(LapsedRows(s, now), EXPIRY_BATCH)) != {} && Members(Lowest(LapsedRows(s, now), EXPIRY_BATCH)) <= LapsedRows(s, now)
    ensures var batch := Members(Lowest(LapsedRows(s, now), EXPIRY_BATCH)); var t := Forget(Unindex(s, batch, fts), batch, fts);
      && OneShot(t, now, fts) == OneShot(s, now, fts) && LapsedRows(t, now) == LapsedRows(s, now) - batch
      && (s.indexed == STALE ==> t.indexed == STALE)
  {
    BatchOn(s, now, fts);
    BatchesAddUp(s, now, fts);
    BatchesAddUp(ExpireBatch(s, now, fts), now, fts);
    hide OneShot, ExpireAll, LapsedRows, Lowest, Highest;
  }

  lemma NoneLeft<T>(all: set<T>, left: set<T>)
    requires left <= all
    ensures |all - left| <= |all| && (left == {} ==> |all - left| == |all|)
  {
    SubsetSize(all - left, all);
    assert left == {} ==> all - left == all;
  }

  lemma OneLess<T>(all: set<T>, left: set<T>, x: T)
    requires left <= all && x in left
    ensures all - (left - {x}) == all - left + {x} && |all - (left - {x})| == |all - left| + 1
  {
    assert all - (left - {x}) == all - left + {x};
  }

  lemma NoneBuried(readers: map<string, Reader>, graves: map<string, Grave>, part: set<string>, now: int)
    requires part == {}
    ensures graves + Buried(readers, part, now) == graves && readers - part == readers
  {}

  lemma OneBuried(readers: map<string, Reader>, kept: map<string, Grave>, part: set<string>, c: string, now: int)
    requires c in readers && c !in part
    ensures kept + Buried(readers, part + {c}, now) == (kept + Buried(readers, part, now))[c := Grave(readers[c].cursor, now)]
    ensures readers - (part + {c}) == (readers - part) - {c}
    ensures c in readers - part && (readers - part)[c] == readers[c]
  {}

  lemma IdleAreReaders(readers: map<string, Reader>, now: int)
    ensures IdleReaders(readers, now) <= readers.Keys
  {}
}
