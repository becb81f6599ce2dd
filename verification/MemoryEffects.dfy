/** What each transaction of the memory service does to the tables, row by row: when it is refused,
    what it changes, and that it changes nothing else. */
module MemoryEffects {
  import opened Common
  import opened MemoryModel

  /* ----- appending ----- */

  // The first of two sequences that is given, zero counting as none.
  predicate First(a: Option<int>, b: Option<int>, q: int) {
    q != 0 && (a == Some(q) || ((a == None || a == Some(0)) && b == Some(q)))
  }

  // The note replaces the event at q.
  predicate Withdraws(n: Note, q: int) {
    First(n.supersedes, n.revokes, q)
  }

  // The event at r replaced this row.
  predicate TakenBy(e: Entry, r: int) {
    First(e.supersededBy, e.revokedBy, r)
  }

  // An append is refused for a missing target, or else for want of room for its retry record.
  lemma AppendRefused(s: Store, n: Note, fts: bool)
    ensures var r := Append(s, n, fts);
      && (r == Refuse(NoSuchEntry) <==> exists q :: Withdraws(n, q) && q !in s.entries)
      && (r == Refuse(IdemCapacity) <==> (forall q :: Withdraws(n, q) ==> q in s.entries) && n.scoped.Some? && |s.idem| >= 20000)
      && (r.Refuse? ==> r.error in {NoSuchEntry, IdemCapacity})
  {
    hide Linked, NewEntry, Conflict;
    if Target(n).Some? {
      assert Withdraws(n, Target(n).value);
    }
  }

  // The event at the new head is the note, field by field, with no links yet. Its revision is one
  // more than its target's, and it names as its conflict whatever replaced that target before it.
  lemma AppendedRow(s: Store, n: Note, fts: bool)
    requires Append(s, n, fts).Commit? && s.head + 1 !in s.entries && ArgumentError(n).None?
    ensures var t := Append(s, n, fts);
      && t.store.head == s.head + 1 && t.store.head in t.store.entries
      && var e := t.store.entries[t.store.head];
        && e.kind == n.kind && e.body == n.body && e.weight == n.weight
        && e.supersedes == n.supersedes && e.revokes == n.revokes && e.expires == n.expires
        && e.supersededBy.None? && e.revokedBy.None?
        && (forall q :: Withdraws(n, q) ==> q in s.entries && e.revision == s.entries[q].revision + 1)
        && ((forall q :: !Withdraws(n, q)) ==> e.revision == 1 && e.conflicts.None?)
        && (forall q, r :: Withdraws(n, q) ==> (e.conflicts == Some(r) <==> TakenBy(s.entries[q], r)))
        && t.reply == Appended(t.store.head, e.conflicts)
  {
    if Target(n).Some? {
      assert Withdraws(n, Target(n).value);
    }
    forall q, r | Withdraws(n, q) ensures Conflict(s, n) == Some(r) <==> TakenBy(s.entries[q], r) {
      assert Target(n) == Some(q);
    }
    assert Append(s, n, fts).store.entries[s.head + 1] == NewEntry(s, n);
    hide Linked, Conflict, First, Blank;
  }

  // Every older row stays as it was, but for the one link an unopposed note puts on its target.
  lemma AppendKeeps(s: Store, n: Note, fts: bool, q: int)
    requires Append(s, n, fts).Commit? && s.head + 1 !in s.entries && ArgumentError(n).None?
    ensures var t := Append(s, n, fts).store; var e := t.entries;
      && (q in e <==> q in s.entries || q == t.head)
      && (q in s.entries ==>
            if Withdraws(n, q) && forall r :: !TakenBy(s.entries[q], r) then
              e[q] == if n.supersedes == Some(q) then s.entries[q].(supersededBy := Some(t.head)) else s.entries[q].(revokedBy := Some(t.head))
            else e[q] == s.entries[q])
      && t.floor == s.floor && t.readers == s.readers && t.graves == s.graves && t.shots == s.shots
  {
    hide NewEntry, Blank;
    if q in s.entries && Conflict(s, n).Some? && Withdraws(n, q) {
      assert TakenBy(s.entries[q], Conflict(s, n).value);
    }
  }

  // A maintained index gains the posting and stays complete, a given-up one is left alone; a key
  // remembers the content, the event and the deadline.
  lemma AppendRecords(s: Store, n: Note, fts: bool)
    requires Append(s, n, fts).Commit?
    ensures var t := Append(s, n, fts).store;
      && (fts && s.indexed >= 0 ==> t.indexed == t.head && t.search == s.search[t.head := n.body])
      && (!(fts && s.indexed >= 0) ==> t.indexed == s.indexed && t.search == s.search)
      && (n.scoped.Some? && n.deadline.Some? ==> t.idem == s.idem[n.scoped.value := Idem(n.content, t.head, n.deadline.value)])
      && (n.scoped.None? ==> t.idem == s.idem)
  {
    hide Linked, NewEntry, Conflict;
  }

  // The rulings on a note, in the order they are made: its own faults, then its retry key.
  lemma NoteFaults(s: Store, n: Note, now: int)
    ensures var d := Precheck(s, n, now);
      && (Blank(n.body) ==> d == Reject(InvalidRequest))
      && (!Blank(n.body) && (n.bodySize > 8192 || n.probe > 253952) <==> d == Reject(EntryTooLarge))
      && (!Blank(n.body) && n.bodySize <= 8192 && n.probe <= 253952
          && (exists q, r :: q != 0 && r != 0 && n.supersedes == Some(q) && n.revokes == Some(r))
          ==> d == Reject(InvalidRequest))
      && (d.Proceed? || d.Repeat? ==>
            && !Blank(n.body) && n.bodySize <= 8192 && n.probe <= 253952
            && forall q, r :: q != 0 && r != 0 ==> !(n.supersedes == Some(q) && n.revokes == Some(r)))
  {
    hide Blank;
  }

  // Without a key a sound note goes ahead. With one it needs a deadline that lies ahead, a day at
  // the most, and a key that is new, or known for the same content and deadline.
  lemma KeyRulings(s: Store, n: Note, now: int)
    requires ArgumentError(n).None?
    ensures var d := Precheck(s, n, now);
      && (n.scoped.None? ==> d == Proceed)
      && (n.scoped.Some? ==>
            && (d == Reject(InvalidRequest) <==> n.deadline.None? || n.deadline.value > now + 86400)
            && (d == Reject(RetryDeadlineExpired) <==> n.deadline.Some? && n.deadline.value <= now)
            && (n.deadline.Some? && now < n.deadline.value <= now + 86400 ==>
                  && (n.scoped.value !in s.idem <==> d == Proceed)
                  && (n.scoped.value in s.idem ==>
                        var row := s.idem[n.scoped.value];
                        if row.content == n.content && row.deadline == n.deadline.value then d == Repeat(row.sequence)
                        else d == Reject(IdempotencyConflict))))
  {
    hide ArgumentError;
  }

  /* ----- lifetimes ----- */

  // What is live: not replaced yet, and with no lifetime or one that has not ended.
  lemma LiveEffect(s: Store, at: int, now: int, q: int)
    ensures q in Live(s, now) <==>
      && q in s.entries && s.entries[q].supersededBy.None? && s.entries[q].revokedBy.None?
      && (s.entries[q].expires.Some? ==> s.entries[q].expires.value > now)
    ensures q in LiveSetAt(s, at, now) <==>
      && q in s.entries && q <= at
      && (s.entries[q].supersededBy.Some? ==> s.entries[q].supersededBy.value > at)
      && (s.entries[q].revokedBy.Some? ==> s.entries[q].revokedBy.value > at)
      && (s.entries[q].expires.Some? ==> s.entries[q].expires.value > now)
  {}

  predicate Over(e: Entry, now: int) {
    e.expires.Some? && e.expires.value < now
  }

  // One batch of expiry: at most two hundred rows go, the earliest of those whose lifetime is
  // over; all of them if there are no more.
  lemma ExpiryEffect(s: Store, now: int, fts: bool)
    ensures var t := ExpireBatch(s, now, fts); var gone := s.entries.Keys - t.entries.Keys;
      && t.entries == s.entries - gone
      && (forall q :: q in gone ==> Over(s.entries[q], now))
      && |gone| <= 200
      && (forall q :: q in t.entries && Over(t.entries[q], now) ==> |gone| == 200 && forall p :: p in gone ==> p < q)
  {
    var batch := Members(Lowest(LapsedRows(s, now), EXPIRY_BATCH));
    BatchIs(s, now);
    BatchGoes(s, now, fts);
    hide Lowest, LapsedRows, Members, Over, ExpireBatch;
  }

  // The boundary rises to the highest row that went, a usable index loses those postings, and a
  // process without the engine marks the index stale.
  lemma ExpiryBounds(s: Store, now: int, fts: bool)
    ensures var t := ExpireBatch(s, now, fts); var gone := s.entries.Keys - t.entries.Keys;
      && (gone == {} ==> t == s)
      && (gone != {} ==>
            && (t.floor == s.floor || t.floor in gone) && s.floor <= t.floor && (forall q :: q in gone ==> q <= t.floor)
            && t.indexed == (if fts then s.indexed else -1)
            && t.search == (if fts && s.indexed == s.head then s.search - gone else s.search))
      && t.head == s.head && t.idem == s.idem && t.readers == s.readers && t.graves == s.graves && t.shots == s.shots
  {
    BatchGoes(s, now, fts);
    hide Lowest, LapsedRows, Members, Highest;
  }

  lemma BatchGoes(s: Store, now: int, fts: bool)
    ensures var t := ExpireBatch(s, now, fts); var batch := Members(Lowest(LapsedRows(s, now), EXPIRY_BATCH));
      && t.entries == s.entries - batch && s.entries.Keys - t.entries.Keys == batch && batch <= s.entries.Keys
  {
    var batch := Members(Lowest(LapsedRows(s, now), EXPIRY_BATCH));
    BatchIs(s, now);
    hide Lowest, LapsedRows, Members, Highest, IndexUsable;
    var t := ExpireBatch(s, now, fts);
    forall q | q in batch ensures q in s.entries.Keys {}
    assert t.entries == s.entries - batch;
    hide ExpireBatch;
    assert forall q :: q in t.entries.Keys <==> q in s.entries.Keys && q !in batch;
  }

  // The rows of a batch.
  lemma BatchIs(s: Store, now: int)
    ensures var batch := Members(Lowest(LapsedRows(s, now), EXPIRY_BATCH));
      && (forall q :: q in batch ==> q in s.entries && Over(s.entries[q], now))
      && |batch| <= 200
      && (forall q :: q in s.entries && q !in batch && Over(s.entries[q], now) ==> |batch| == 200 && forall p :: p in batch ==> p < q)
  {
    var lapsed := LapsedRows(s, now);
    var rows := Lowest(lapsed, EXPIRY_BATCH);
    LowestWithin(lapsed, EXPIRY_BATCH);
    LowestFacts(lapsed, EXPIRY_BATCH);
    hide Lowest;
    forall q | q in Members(rows) ensures q in lapsed {
      var k :| 0 <= k < |rows| && rows[k] == q;
    }
    BatchSize(rows);
    forall q | q in s.entries && q !in Members(rows) && Over(s.entries[q], now)
      ensures |Members(rows)| == 200 && forall p :: p in Members(rows) ==> p < q
    {
      assert q in lapsed && q !in rows;
    }
  }

  lemma {:induction false} BatchSize(rows: seq<int>)
    requires forall j, k :: 0 <= j < k < |rows| ==> rows[j] < rows[k]
    ensures |Members(rows)| == |rows|
    decreases |rows|
  {
    if rows == [] {
      assert Members(rows) == {};
    } else {
      var init, last := rows[..|rows| - 1], rows[|rows| - 1];
      BatchSize(init);
      assert Members(rows) == Members(init) + {last};
    }
  }

  // Retirement: a snapshot goes an hour after it was frozen, a day after it was acknowledged, a retry record
  // to its own deadline, a reader thirty days from its last request, and its grave ninety more.
  lemma SweepEffect(s: Store, now: int, k: string)
    ensures var t := Sweep(s, now);
      && (k in t.shots <==> k in s.shots && (if s.shots[k].acked then s.shots[k].ackedAt >= now - 86400 else s.shots[k].created >= now - 3600))
      && (k in t.shots ==> t.shots[k] == s.shots[k])
      && (k in t.idem <==> k in s.idem && s.idem[k].deadline >= now)
      && (k in t.idem ==> t.idem[k] == s.idem[k])
      && (k in t.readers <==> k in s.readers && s.readers[k].updated >= now - 2592000)
      && (k in t.readers ==> t.readers[k] == s.readers[k])
      && (k in s.readers && k !in t.readers ==> k in t.graves && t.graves[k] == Grave(s.readers[k].cursor, now))
      && (!(k in s.readers && k !in t.readers) ==>
            && (k in t.graves <==> k in s.graves && s.graves[k].at >= now - 7776000)
            && (k in t.graves ==> t.graves[k] == s.graves[k]))
      && t.entries == s.entries && t.head == s.head && t.floor == s.floor && t.indexed == s.indexed && t.search == s.search
  {}

  // Opening keeps an index known to be complete and distrusts any other; a rebuild makes it the
  // stored bodies, complete for this head.
  lemma RebuildEffect(s: Store)
    ensures var t := Rebuild(s);
      && t.indexed == s.head && t.search.Keys == s.entries.Keys && (forall q :: q in s.entries ==> t.search[q] == s.entries[q].body)
      && t.entries == s.entries && t.head == s.head && t.floor == s.floor && t.idem == s.idem
      && t.readers == s.readers && t.graves == s.graves && t.shots == s.shots
  {}

  /* ----- readers ----- */

  // Everything but one reader's row, or one snapshot, stays.
  predicate OnlyReader(s: Store, t: Store, c: string) {
    && c in s.readers && c in t.readers
    && t == s.(readers := s.readers[c := t.readers[c]])
  }

  predicate OnlyShot(s: Store, t: Store, sid: string) {
    && sid in s.shots && sid in t.shots
    && t == s.(shots := s.shots[sid := t.shots[sid]])
  }

  // A known reader is answered as it stands. A new one starts at nothing, owing its first
  // snapshot; one in its grave is refused, and so is any beyond the limits.
  lemma RegisterEffect(s: Store, c: string, now: int)
    ensures var r := Register(s, c, now);
      && (c in s.readers ==> r == Commit(s, s.readers[c]))
      && (r == Refuse(ConsumerRetired) <==> c !in s.readers && c in s.graves)
      && (r == Refuse(MemoryCapacity) <==> c !in s.readers && c !in s.graves && (|s.readers| >= 256 || |s.readers| + |s.graves| >= 1280))
      && (r.Refuse? ==> r.error in {ConsumerRetired, MemoryCapacity})
      && (r.Commit? && c !in s.readers ==>
            && r.store == s.(readers := s.readers[c := r.reply])
            && r.reply.cursor == 0 && r.reply.issued == 0 && r.reply.snapshot.None?
            && !r.reply.bootstrapped && !r.reply.resnapshot && r.reply.updated == now)
  {}

  // Activity moves the reader's clock and nothing else.
  lemma TouchEffect(s: Store, c: string, now: int)
    requires c in s.readers
    ensures var t := Touch(s, c, now); var r, u := s.readers[c], t.readers[c];
      && OnlyReader(s, t, c) && u.updated == now
      && u.cursor == r.cursor && u.issued == r.issued && u.snapshot == r.snapshot
      && u.bootstrapped == r.bootstrapped && u.resnapshot == r.resnapshot
  {}

  // An open snapshot is usable while it is there, belongs to this reader, and is acknowledged or
  // no older than an hour. Giving it up keeps the reader owing one.
  lemma ClearEffect(s: Store, c: string, sid: string, now: int)
    requires c in s.readers
    ensures !Unusable(s, c, sid, now) <==>
      sid in s.shots && s.shots[sid].consumer == c && (s.shots[sid].acked || now - s.shots[sid].created <= 3600)
    ensures var t := Clear(s, c); var r, u := s.readers[c], t.readers[c];
      && OnlyReader(s, t, c) && u.snapshot.None? && u.resnapshot
      && u.cursor == r.cursor && u.issued == r.issued && u.bootstrapped == r.bootstrapped && u.updated == r.updated
      && NeedsSnapshot(t, c)
  {}

  // A reader gets deltas only once a first snapshot is finished, none is open or owed again, and
  // nothing above its cursor was forgotten.
  lemma DeltaReaders(s: Store, c: string)
    requires c in s.readers
    ensures var r := s.readers[c];
      !NeedsSnapshot(s, c) <==> r.bootstrapped && r.snapshot.None? && !r.resnapshot && s.floor <= r.cursor
  {}

  // Freezing opens the snapshot for this reader at this head, nothing of it handed over yet; only
  // what is named is pruned, and the reader's position stays.
  lemma FreezeEffect(s: Store, c: string, sid: string, items: seq<Item>, pruned: set<string>, now: int, k: string)
    requires c in s.readers && sid !in pruned
    ensures var t := Freeze(s, c, sid, items, pruned, now); var r, u := s.readers[c], t.readers[c];
      && sid in t.shots && t.shots[sid].consumer == c && t.shots[sid].head == s.head && t.shots[sid].created == now
      && t.shots[sid].items == items && t.shots[sid].issued == 0 && !t.shots[sid].acked
      && (k != sid ==> (k in t.shots <==> k in s.shots && k !in pruned) && (k in t.shots ==> t.shots[k] == s.shots[k]))
      && u.snapshot == Some(sid) && u.updated == now
      && u.cursor == r.cursor && u.issued == r.issued && u.bootstrapped == r.bootstrapped && u.resnapshot == r.resnapshot
      && t == s.(shots := t.shots, readers := s.readers[c := u])
  {}

  // Which snapshots count against a reader's four: its own, while they can still be paged or their
  // acknowledgement still be repeated.
  lemma HeldEffect(s: Store, c: string, now: int, k: string)
    ensures k in HeldShots(s, c, now) <==>
      && k in s.shots && s.shots[k].consumer == c
      && (if s.shots[k].acked then s.shots[k].ackedAt >= now - 86400 else s.shots[k].created >= now - 3600)
    ensures MAX_SNAPSHOTS == 4
  {}

  /* ----- pages ----- */

  function Total(sizes: seq<int>): int
    decreases |sizes|
  {
    if sizes == [] then 0 else Total(sizes[..|sizes| - 1]) + sizes[|sizes| - 1]
  }

  // A page takes rows from the front while they fit, and stops only at one that does not.
  lemma {:induction false} FittingEffect(sizes: seq<int>, used: int, budget: int)
    ensures var n := Fitting(sizes, used, budget);
      && (forall k :: 1 <= k <= n ==> used + Total(sizes[..k]) <= budget)
      && (n < |sizes| ==> used + Total(sizes[..n + 1]) > budget)
    decreases |sizes|
  {
    var n := Fitting(sizes, used, budget);
    if sizes != [] {
      TotalFirst(sizes, 1);
      assert sizes[..1][1..] == [];
      if used + sizes[0] <= budget {
        FittingEffect(sizes[1..], used + sizes[0], budget);
        forall k | 1 <= k <= n ensures used + Total(sizes[..k]) <= budget {
          TotalFirst(sizes, k);
          assert sizes[..k][1..] == sizes[1..][..k - 1];
        }
        if n < |sizes| {
          TotalFirst(sizes, n + 1);
          assert sizes[..n + 1][1..] == sizes[1..][..n];
        }
      }
    }
  }

  lemma {:induction false} TotalFirst(sizes: seq<int>, k: nat)
    requires 1 <= k <= |sizes|
    ensures Total(sizes[..k]) == sizes[0] + Total(sizes[..k][1..])
    decreases k
  {
    var part := sizes[..k];
    if k > 1 {
      TotalFirst(sizes, k - 1);
      assert part[..k - 1] == sizes[..k - 1];
      assert part[1..][..k - 2] == sizes[..k - 1][1..];
    } else {
      assert part[..0] == [] && part[1..] == [];
    }
  }

  // Why a page of a snapshot is refused, in this order: the snapshot is gone or somebody else's,
  // its hour is over while it was not acknowledged, or the token does not continue it.
  lemma PageRefused(s: Store, c: string, sid: string, token: int, claimed: Option<string>, now: int)
    ensures var r := PageAt(s, c, sid, token, claimed, now);
      && (sid !in s.shots ==> r == Refuse(SnapshotExpired))
      && (sid in s.shots ==>
            var h := s.shots[sid]; var own := h.consumer == c; var open := h.acked || now - h.created <= 3600;
            && (!own ==> r == Refuse(ForeignSnapshot))
            && (own && !open ==> r == Refuse(SnapshotExpired))
            && (own && open && claimed.None? && token != 0 ==> r == Refuse(StalePageToken))
            && (own && open && claimed.Some? && claimed.value != sid ==>
                  r == Refuse(if claimed.value in s.shots && s.shots[claimed.value].consumer != c then ForeignSnapshot else StalePageToken))
            && (own && open && (if claimed.None? then token == 0 else claimed.value == sid) ==>
                  && (r == Refuse(StalePageToken) <==> token > h.issued)
                  && (token <= h.issued ==>
                        var first := if token > 0 then token else 0;
                        && (r.Refuse? <==> first < |h.items| && h.items[first].bytes > 253952)
                        && (r.Refuse? ==> r.error == EntryTooLarge))))
  {
    hide Fitting;
  }

  // The longest run of items from here that fits a page.
  predicate FullPage(items: seq<Item>, first: int, n: nat) {
    && 0 <= first && first + n <= |items|
    && (n == 0 ==> first == |items|)
    && (n > 0 ==> Total(ItemSizes(items[first..first + n])) <= 253952)
    && (first + n < |items| ==> Total(ItemSizes(items[first..first + n + 1])) > 253952)
  }

  // A page goes out with the longest run of frozen items that fits; the snapshot then counts what
  // was issued, and nothing else moves.
  lemma PageEffect(s: Store, c: string, sid: string, token: int, claimed: Option<string>, now: int)
    requires PageAt(s, c, sid, token, claimed, now).Commit? && sid in s.shots && s.shots[sid].issued <= |s.shots[sid].items|
    ensures var r := PageAt(s, c, sid, token, claimed, now); var h := s.shots[sid]; var first := if token > 0 then token else 0;
      && r.reply.Frozen? && r.reply.sid == sid && r.reply.head == h.head && r.reply.total == |h.items|
      && var n := |r.reply.items|;
        && FullPage(h.items, first, n) && r.reply.items == h.items[first..first + n] && r.reply.next == token + n
        && OnlyShot(s, r.store, sid)
        && r.store.shots[sid] == h.(issued := if token + n > h.issued then token + n else h.issued)
  {
    var h := s.shots[sid];
    var first := if token > 0 then token else 0;
    PageMeans(s, c, sid, token, claimed, now);
    hide PageAt, Fitting, ItemSizes, Oversize;
    PageRun(h.items, first);
    assert first + |PageAt(s, c, sid, token, claimed, now).reply.items| <= |h.items|;
    hide FullPage;
  }

  lemma PageMeans(s: Store, c: string, sid: string, token: int, claimed: Option<string>, now: int)
    requires PageAt(s, c, sid, token, claimed, now).Commit? && sid in s.shots && s.shots[sid].issued <= |s.shots[sid].items|
    ensures var r := PageAt(s, c, sid, token, claimed, now); var h := s.shots[sid]; var first := if token > 0 then token else 0;
      && first <= |h.items|
      && var sizes := ItemSizes(h.items[first..]); var n := Fitting(sizes, 0, FRAME_BUDGET);
        && !Oversize(sizes, FRAME_BUDGET)
        && r.reply.Frozen? && r.reply.sid == sid && r.reply.head == h.head && r.reply.total == |h.items|
        && r.reply.items == h.items[first..][..n] && r.reply.next == token + n
        && OnlyShot(s, r.store, sid)
        && r.store.shots[sid] == h.(issued := if token + n > h.issued then token + n else h.issued)
  {
    hide Fitting, Oversize, ItemSizes;
  }

  lemma PageRun(items: seq<Item>, first: nat)
    requires first <= |items| && !Oversize(ItemSizes(items[first..]), FRAME_BUDGET)
    ensures var n := Fitting(ItemSizes(items[first..]), 0, FRAME_BUDGET);
      && FullPage(items, first, n) && items[first..][..n] == items[first..first + n]
  {
    var sizes := ItemSizes(items[first..]);
    var n := Fitting(sizes, 0, FRAME_BUDGET);
    FittingEffect(sizes, 0, FRAME_BUDGET);
    assert ItemSizes(items[first..first + n]) == sizes[..n];
    if n < |sizes| {
      assert ItemSizes(items[first..first + n + 1]) == sizes[..n + 1];
    }
    hide Fitting, ItemSizes, Total;
  }

  // A delta goes out with the longest run of rows that fits; what is issued rises to its last row,
  // the cursor stays, and no other reader is touched.
  lemma DeltaEffect(s: Store, c: string, sizes: seq<int>)
    requires c in s.readers && |sizes| == |RowsAbove(s, s.readers[c].cursor)|
    ensures var r := DeltaOf(s, c, sizes); var from := s.readers[c].cursor; var rows := RowsAbove(s, from);
      && (r.Refuse? <==> sizes != [] && sizes[0] > 253952) && (r.Refuse? ==> r.error == EntryTooLarge)
      && (r.Commit? ==>
            && r.reply.Delta? && r.reply.cursor == from && r.reply.head == s.head
            && var n := |r.reply.entries|;
              && n <= |rows| && r.reply.entries == rows[..n] && (n == 0 ==> rows == [])
              && (n > 0 ==> Total(sizes[..n]) <= 253952) && (n < |rows| ==> Total(sizes[..n + 1]) > 253952)
              && r.reply.next == (if n > 0 then rows[n - 1] else from)
              && (r.reply.more <==> n < |rows| || r.reply.next < s.head)
              && OnlyReader(s, r.store, c)
              && r.store.readers[c] == s.readers[c].(issued := if r.reply.next > s.readers[c].issued then r.reply.next else s.readers[c].issued))
  {
    FittingEffect(sizes, 0, FRAME_BUDGET);
    if sizes != [] {
      assert sizes[..1] == [sizes[0]] && Total(sizes[..1]) == sizes[0];
    }
    hide RowsAbove, Total;
  }

  // The rows a delta draws on: those after the cursor, in order, five hundred at most, and none of
  // them passed over.
  lemma RowsEffect(s: Store, from: int)
    ensures var rows := RowsAbove(s, from);
      && |rows| <= 500 && (forall j, k :: 0 <= j < k < |rows| ==> rows[j] < rows[k])
      && (forall q :: q in rows ==> q in s.entries && q > from)
      && (forall q :: q in s.entries && q > from && q !in rows ==> |rows| == 500 && forall p :: p in rows ==> p < q)
  {
    var above := set q | q in s.entries && q > from;
    LowestWithin(above, ROW_WINDOW);
    LowestFacts(above, ROW_WINDOW);
    hide Lowest;
    var rows := RowsAbove(s, from);
    forall q | q in rows ensures q in above {}
    forall q | q in s.entries && q > from && q !in rows ensures |rows| == 500 && forall p :: p in rows ==> p < q {
      assert q in above;
    }
  }

  /* ----- acknowledgements ----- */

  // By number: refused while a snapshot is open or owed again, before the first was finished, and
  // beyond what was issued; ignored below the cursor.
  lemma AckThroughRefused(s: Store, c: string, through: int)
    requires c in s.readers
    ensures var a := AckThrough(s, c, through); var r := s.readers[c];
      && (a == Refuse(SnapshotOpen) <==> r.snapshot.Some? || r.resnapshot)
      && (a == Refuse(NotBootstrapped) <==> r.snapshot.None? && !r.resnapshot && !r.bootstrapped)
      && (a == Refuse(NotIssued) <==> r.snapshot.None? && !r.resnapshot && r.bootstrapped && r.cursor <= through && r.issued < through)
      && (a.Refuse? ==> a.error in {SnapshotOpen, NotBootstrapped, NotIssued})
  {}

  // Accepted at or above the cursor, an acknowledgement leaves the cursor at exactly what was
  // acknowledged: nothing is issued, and nothing else of this or any other reader changes.
  lemma AckThroughEffect(s: Store, c: string, through: int)
    requires c in s.readers && AckThrough(s, c, through).Commit?
    ensures var a := AckThrough(s, c, through); var r, u := s.readers[c], a.store.readers[c];
      && OnlyReader(s, a.store, c)
      && u.cursor == (if through >= r.cursor then through else r.cursor) && a.reply.cursor == u.cursor
      && (a.reply.ignored <==> through < r.cursor) && !a.reply.replayed
      && u.issued == r.issued && u.snapshot == r.snapshot && u.bootstrapped == r.bootstrapped
      && u.resnapshot == r.resnapshot && u.updated == r.updated
  {}

  // By snapshot: it must still be there and be this reader's, and, unless it was acknowledged
  // before, be the open one, within its hour, with every position issued.
  lemma AckSnapshotRefused(s: Store, c: string, sid: string, now: int)
    requires c in s.readers
    ensures var a := AckSnapshot(s, c, sid, now);
      && (sid !in s.shots ==> a == Refuse(SnapshotExpired))
      && (sid in s.shots ==>
            var h := s.shots[sid];
            && (a == Refuse(ForeignSnapshot) <==> h.consumer != c)
            && (h.consumer == c && h.acked ==> a == Commit(s, Acked(h.head, true, false)))
            && (h.consumer == c && !h.acked ==>
                  && (a == Refuse(StaleSnapshot) <==> s.readers[c].snapshot != Some(sid))
                  && (a == Refuse(SnapshotExpired) <==> s.readers[c].snapshot == Some(sid) && now - h.created > 3600)
                  && (a == Refuse(SnapshotIncomplete) <==>
                        s.readers[c].snapshot == Some(sid) && now - h.created <= 3600 && h.issued < |h.items|)
                  && (a.Refuse? ==> a.error in {StaleSnapshot, SnapshotExpired, SnapshotIncomplete})))
  {}

  // A first acknowledgement moves the reader to the head the snapshot was frozen at, with nothing
  // owed any more, and marks the snapshot; no other reader or snapshot is touched.
  lemma AckSnapshotEffect(s: Store, c: string, sid: string, now: int)
    requires c in s.readers && AckSnapshot(s, c, sid, now).Commit? && !AckSnapshot(s, c, sid, now).reply.replayed
    ensures var a := AckSnapshot(s, c, sid, now); var t := a.store;
      && sid in s.shots && c in t.readers && sid in t.shots
      && var r, u := s.readers[c], t.readers[c]; var h, g := s.shots[sid], t.shots[sid];
        && u.cursor == h.head && u.issued == (if h.head > r.issued then h.head else r.issued)
        && u.snapshot.None? && u.bootstrapped && !u.resnapshot && u.updated == r.updated
        && g.acked && g.ackedAt == now && g.items == h.items && g.head == h.head && g.issued == h.issued
        && g.created == h.created && g.consumer == h.consumer
        && a.reply == Acked(h.head, false, false)
        && t == s.(shots := s.shots[sid := g], readers := s.readers[c := u])
  {}
}
