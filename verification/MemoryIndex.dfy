/** The search index: whenever it is trusted it agrees with the table, over opens with and
    without the engine, rebuilds that are refused, expiry, and crashes between transactions. */
module MemoryIndex {
  import opened Common
  import opened MemoryModel
  import opened MemoryBudget
  import opened MemoryRuns
  import opened MemoryLog
  import opened MemoryExpiry

  function Bodies(s: Store): map<int, string> {
    map q | q in s.entries :: s.entries[q].body
  }

  predicate Agrees(s: Store) {
    s.indexed == s.head ==> s.search == Bodies(s)
  }

  // The mark is stale or at the head, never between; a process without the engine marks it stale.
  predicate Marked(s: Store, p: Process) {
    (s.indexed == STALE || s.indexed == s.head) && (p == Running(false) ==> s.indexed == STALE)
  }

  ghost predicate IndexSound(w: World) {
    0 <= w.store.head && Agrees(w.store) && Marked(w.store, w.process)
  }

  lemma AppendBodies(s: Store, n: Note, fts: bool)
    requires Append(s, n, fts).Commit? && s.head + 1 !in s.entries
    ensures Bodies(Append(s, n, fts).store) == Bodies(s)[s.head + 1 := n.body]
  {
    hide Conflict;
  }

  lemma AppendIndexed(s: Store, n: Note, fts: bool)
    requires Append(s, n, fts).Commit? && s.head + 1 !in s.entries
    requires 0 <= s.head && Agrees(s) && Marked(s, Running(fts))
    ensures var t := Append(s, n, fts).store; Agrees(t) && Marked(t, Running(fts)) && 0 <= t.head
  {
    AppendBodies(s, n, fts);
    hide Conflict, Linked, NewEntry, Bodies;
  }

  // Removing rows removes exactly their postings, and only postings that are there.
  lemma ExpireIndexed(s: Store, now: int, fts: bool)
    requires 0 <= s.head && Agrees(s) && Marked(s, Running(fts))
    ensures var t := ExpireBatch(s, now, fts); Agrees(t) && Marked(t, Running(fts)) && t.head == s.head
  {
    hide Lowest, LapsedRows, Highest;
    var batch := Members(Lowest(LapsedRows(s, now), EXPIRY_BATCH));
    var t := ExpireBatch(s, now, fts);
    if IndexUsable(s, fts) && batch != {} {
      assert t.search == s.search - batch && t.entries == s.entries - batch;
      assert Bodies(t) == Bodies(s) - batch;
    }
  }

  // Batch by batch, whether or not the index is given up on the way, it stays right where trusted.
  lemma {:induction false} BatchesIndexed(s: Store, now: int, fts: bool, fits: seq<bool>)
    requires 0 <= s.head && Agrees(s) && Marked(s, Running(fts))
    ensures Agrees(ExpireWith(s, now, fts, fits))
    decreases |fits|
  {
    hide Agrees, Marked, ExpireBatch;
    if fits != [] {
      GivenUpIndexed(s, fts);
      ExpireIndexed(if fits[0] then s else Invalidate(s), now, fts);
      BatchesIndexed(BatchWith(s, now, fts, fits[0]), now, fts, fits[1..]);
    }
  }

  lemma GivenUpIndexed(s: Store, fts: bool)
    requires 0 <= s.head
    ensures Agrees(Invalidate(s)) && Marked(Invalidate(s), Running(fts)) && Invalidate(s).head == s.head
  {}

  // Opening keeps an index only where the engine is usable and the mark is the head; any other is
  // distrusted, and nothing else is touched.
  lemma OpenedEffect(s: Store, able: bool)
    ensures var t := Opened(s, able);
      && t == s.(indexed := t.indexed)
      && t.indexed == (if able && s.indexed == s.head then s.head else -1)
  {}

  lemma BatchPosted(s: Store, now: int, q: int)
    requires s.search == Bodies(s) && q in Members(Lowest(LapsedRows(s, now), EXPIRY_BATCH))
    ensures q in s.search && q in s.entries && s.search[q] == s.entries[q].body
  {
    var rows := Lowest(LapsedRows(s, now), EXPIRY_BATCH);
    LowestWithin(LapsedRows(s, now), EXPIRY_BATCH);
    var k :| 0 <= k < |rows| && rows[k] == q;
    assert rows[k] in LapsedRows(s, now);
    hide Lowest;
  }

  lemma IndexUnmoved(w: World, a: Act)
    requires !a.Noting? && !a.Expiring? && !a.Start? && !a.Reindex? && !a.Invalidating?
    ensures After(w, a).indexed == w.store.indexed && After(w, a).search == w.store.search
  {
    hide After;
    if a.Sweeping? {
      SweepOnly(w, a);
    } else if ReaderAct(a) {
      ReadersOnly(w, a);
    } else {
      SettledIndex(w, a);
    }
  }

  lemma SettledIndex(w: World, a: Act)
    requires a.Settle? || a.Stop?
    ensures After(w, a) == w.store
  {}

  lemma NotingIndexed(w: World, n: Note, now: int)
    requires LogSound(w) && IndexSound(w)
    ensures IndexSound(Do(w, Noting(n, now)))
  {
    assert Fits(w.store, w.record.notes, w.clock, w.store.head + 1);
    hide LogSound, Agrees, Append, Room;
    if Serves(w) && Appends(w, n, now) {
      AppendIndexed(w.store, n, w.process.engine);
    }
  }

  lemma IndexStep(w: World, a: Act)
    requires LogSound(w) && IndexSound(w)
    ensures IndexSound(Do(w, a))
  {
    match a
    case Noting(n, now) => NotingIndexed(w, n, now);
    case Expiring(now) =>
      if Serves(w) {
        ExpireIndexed(w.store, now, w.process.engine);
      }
      hide ExpireBatch, Agrees, LogSound;
    case Start(able) => hide LogSound, Observe;
    case Reindex => hide LogSound, Observe;
    case Invalidating => hide LogSound, Observe;
    case _ =>
      IndexUnmoved(w, a);
      Unmoved(w, a);
      hide After, Observe, LogSound;
  }

  lemma {:induction false} IndexRuns(w: World, acts: seq<Act>)
    requires LogSound(w) && IndexSound(w)
    ensures IndexSound(Play(w, acts))
    decreases |acts|
  {
    hide LogSound, IndexSound, Do;
    if acts != [] {
      IndexStep(w, acts[0]);
      LogStep(w, acts[0]);
      IndexRuns(Do(w, acts[0]), acts[1..]);
    }
  }

  // In every reachable state a trusted index holds exactly the stored bodies under their
  // sequences, and the mark is either stale or the head.
  lemma TrustedIndexAgrees(acts: seq<Act>)
    ensures var w := Play(DAWN, acts); var s := w.store;
      && (s.indexed == STALE || s.indexed == s.head)
      && (w.process.Running? && IndexUsable(s, w.process.engine) ==> s.search == map q | q in s.entries :: s.entries[q].body)
      && (w.process == Running(false) ==> !IndexUsable(s, true))
  {
    hide LogSound, Play;
    DawnSound();
    IndexRuns(DAWN, acts);
  }

  // In every reachable state, at every batch of an expiry, however the batches before it went:
  // what is deleted from a usable index is a posting that is there, with the very text named.
  lemma DeletesArePresent(acts: seq<Act>, now: int, fits: seq<bool>, q: int)
    requires Play(DAWN, acts).process.Running?
    requires var w := Play(DAWN, acts); var t := ExpireWith(w.store, now, w.process.engine, fits);
      IndexUsable(t, w.process.engine) && q in Members(Lowest(LapsedRows(t, now), EXPIRY_BATCH))
    ensures var w := Play(DAWN, acts); var t := ExpireWith(w.store, now, w.process.engine, fits);
      q in t.search && q in t.entries && t.search[q] == t.entries[q].body
  {
    hide LogSound, Play, ExpireWith, Members, Lowest, LapsedRows;
    DawnSound();
    IndexRuns(DAWN, acts);
    hide Bodies;
    var w := Play(DAWN, acts);
    BatchesIndexed(w.store, now, w.process.engine, fits);
    BatchPosted(ExpireWith(w.store, now, w.process.engine, fits), now, q);
  }
}
