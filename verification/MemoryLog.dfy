/** The log itself: events are numbered without holes above the recovery boundary, and the links
    recorded on replaced rows let the live set of any earlier moment be read back later. */
module MemoryLog {
  import opened Common
  import opened MemoryModel
  import opened MemoryBudget
  import opened MemoryEffects
  import opened MemoryRuns

  /* ----- replaying notes ----- */

  // The note appended as event r withdraws event q.
  predicate Names(notes: map<int, Note>, r: int, q: int) {
    r in notes && Withdraws(notes[r], q)
  }

  // Event r takes over from q: it names q, and no event before it did.
  ghost predicate Replaces(notes: map<int, Note>, r: int, q: int) {
    Names(notes, r, q) && forall p :: p < r ==> !Names(notes, p, q)
  }

  // The live set after the first `at` notes, applied in order.
  function Replay(notes: map<int, Note>, at: nat): set<int> {
    if at == 0 then {} else set q | q in Replay(notes, at - 1) + {at} && !Names(notes, at, q)
  }

  ghost predicate Backward(notes: map<int, Note>, r: int) {
    forall q :: Names(notes, r, q) ==> 1 <= q < r
  }

  ghost predicate Untouched(notes: map<int, Note>, q: int, at: int) {
    forall r {:trigger Names(notes, r, q)} :: Names(notes, r, q) ==> r > at
  }

  lemma {:induction false} ReplayKeeps(notes: map<int, Note>, at: nat, q: int)
    requires forall r {:trigger Backward(notes, r)} :: Backward(notes, r)
    requires forall r :: r in notes ==> r >= 1
    ensures q in Replay(notes, at) <==> 1 <= q <= at && Untouched(notes, q, at)
    decreases at
  {
    hide Withdraws;
    if at > 0 {
      ReplayKeeps(notes, at - 1, q);
      assert Backward(notes, at);
      if q == at {
        forall r | Names(notes, r, q) ensures r > at { assert Backward(notes, r); }
      }
    }
  }

  // Where an event is named at all, one event names it first.
  lemma FirstNamer(notes: map<int, Note>, r: int, q: int) returns (f: int)
    requires Names(notes, r, q)
    ensures Replaces(notes, f, q) && f <= r
  {
    var namers := set p | p in notes && Names(notes, p, q);
    assert r in namers;
    f := Least(namers);
    forall p | p < f ensures !Names(notes, p, q) { assert p !in namers; }
  }

  /* ----- what the store keeps of each note ----- */

  // How many notes, each withdrawing the next, lead back from event q.
  function Revision(notes: map<int, Note>, q: int): int
    decreases if q < 0 then 0 else q
  {
    if q in notes && Target(notes[q]).Some? && 0 < Target(notes[q]).value < q then Revision(notes, Target(notes[q]).value) + 1 else 1
  }

  // A row is the note it was appended for, but for the links and what it met.
  predicate SameNote(e: Entry, n: Note) {
    && e.kind == n.kind && e.body == n.body && e.weight == n.weight
    && e.supersedes == n.supersedes && e.revokes == n.revokes && e.expires == n.expires
  }

  // The row of q is linked to the event that takes over from it, by the kind of withdrawal.
  ghost predicate LinkedBy(notes: map<int, Note>, q: int, e: Entry, r: int) {
    && (e.supersededBy == Some(r) <==> Replaces(notes, r, q) && notes[r].supersedes == Some(q))
    && (e.revokedBy == Some(r) <==> Replaces(notes, r, q) && notes[r].supersedes != Some(q))
  }

  ghost predicate AllLinked(notes: map<int, Note>, q: int, e: Entry) {
    forall r {:trigger LinkedBy(notes, q, e, r)} :: LinkedBy(notes, q, e, r)
  }

  // The conflict recorded with q is the earlier event that took over from what q withdraws.
  ghost predicate Disputes(notes: map<int, Note>, q: int, e: Entry, p: int, r: int) {
    Names(notes, q, p) ==> (e.conflicts == Some(r) <==> r < q && Replaces(notes, r, p))
  }

  ghost predicate Disputed(notes: map<int, Note>, q: int, e: Entry) {
    && (forall p, r {:trigger Disputes(notes, q, e, p, r)} :: Disputes(notes, q, e, p, r))
    && ((forall p :: !Names(notes, q, p)) ==> e.conflicts.None?)
  }

  ghost predicate Fits(s: Store, notes: map<int, Note>, clock: int, q: int) {
    && (q in notes <==> 1 <= q <= s.head)
    && (q in notes ==> Backward(notes, q))
    && (q in notes && q !in s.entries ==> q <= s.floor && notes[q].expires.Some? && notes[q].expires.value < clock)
    && (q in s.entries ==>
          && q in notes && SameNote(s.entries[q], notes[q]) && s.entries[q].revision == Revision(notes, q)
          && AllLinked(notes, q, s.entries[q]) && Disputed(notes, q, s.entries[q]))
  }

  ghost predicate AllFit(s: Store, notes: map<int, Note>, clock: int) {
    && 0 <= s.floor <= s.head
    && forall q {:trigger Fits(s, notes, clock, q)} :: Fits(s, notes, clock, q)
  }

  ghost predicate LogSound(w: World) {
    AllFit(w.store, w.record.notes, w.clock)
  }

  /* ----- appending ----- */

  // A row was replaced by r exactly if r took over from it.
  lemma TakenIsReplaced(notes: map<int, Note>, q: int, e: Entry, r: int)
    requires AllLinked(notes, q, e) && (forall p :: p in notes ==> p >= 1)
    ensures TakenBy(e, r) <==> Replaces(notes, r, q)
  {
    hide Withdraws;
    assert LinkedBy(notes, q, e, r);
    assert LinkedBy(notes, q, e, 0);
    if e.supersededBy.Some? { assert LinkedBy(notes, q, e, e.supersededBy.value); }
  }

  lemma NotesStart(s: Store, notes: map<int, Note>, clock: int)
    requires AllFit(s, notes, clock)
    ensures forall p :: p in notes ==> 1 <= p <= s.head
  {
    forall p | p in notes ensures 1 <= p <= s.head { assert Fits(s, notes, clock, p); }
  }

  lemma NamesGrow(notes: map<int, Note>, next: int, n: Note, r: int, q: int)
    requires forall p :: p in notes ==> p < next
    ensures var after := notes[next := n];
      && (Names(after, r, q) <==> Names(notes, r, q) || (r == next && Withdraws(n, q)))
      && (Replaces(after, r, q) <==> Replaces(notes, r, q) || (r == next && Withdraws(n, q) && forall p :: !Names(notes, p, q)))
  {
    hide Withdraws;
    var after := notes[next := n];
    assert forall p :: Names(after, p, q) <==> Names(notes, p, q) || (p == next && Withdraws(n, q));
  }

  lemma {:induction false} RevisionGrows(notes: map<int, Note>, next: int, n: Note, q: int)
    requires q < next
    ensures Revision(notes[next := n], q) == Revision(notes, q)
    decreases if q < 0 then 0 else q
  {
    if q in notes && Target(notes[q]).Some? && 0 < Target(notes[q]).value < q {
      RevisionGrows(notes, next, n, Target(notes[q]).value);
    }
  }

  // An older row, after a note is appended.
  lemma OlderFits(s: Store, notes: map<int, Note>, clock: int, n: Note, fts: bool, q: int)
    requires AllFit(s, notes, clock) && Append(s, n, fts).Commit? && ArgumentError(n).None? && q != s.head + 1
    ensures Fits(Append(s, n, fts).store, notes[s.head + 1 := n], clock, q)
  {
    var next := s.head + 1;
    var after := notes[next := n];
    var t := Append(s, n, fts).store;
    NotesStart(s, notes, clock);
    assert Fits(s, notes, clock, q) && Fits(s, notes, clock, next);
    AppendedRow(s, n, fts);
    AppendKeeps(s, n, fts, q);
    hide Append, ArgumentError, Withdraws, AllFit;
    forall r ensures Names(after, q, r) <==> Names(notes, q, r) { NamesGrow(notes, next, n, q, r); }
    if q in s.entries {
      RevisionGrows(notes, next, n, q);
      hide Revision;
      OlderLinked(s, notes, n, t.entries[q], q);
      forall p, r ensures Disputes(after, q, t.entries[q], p, r) {
        assert Disputes(notes, q, s.entries[q], p, r);
        NamesGrow(notes, next, n, r, p);
      }
    }
  }

  lemma OlderLinked(s: Store, notes: map<int, Note>, n: Note, e: Entry, q: int)
    requires (forall p :: p in notes ==> 1 <= p <= s.head) && q in s.entries && AllLinked(notes, q, s.entries[q])
    requires if Withdraws(n, q) && forall r :: !TakenBy(s.entries[q], r) then
        e == if n.supersedes == Some(q) then s.entries[q].(supersededBy := Some(s.head + 1)) else s.entries[q].(revokedBy := Some(s.head + 1))
      else e == s.entries[q]
    ensures AllLinked(notes[s.head + 1 := n], q, e)
  {
    var next := s.head + 1;
    var after := notes[next := n];
    hide Withdraws;
    forall r ensures TakenBy(s.entries[q], r) <==> Replaces(notes, r, q) { TakenIsReplaced(notes, q, s.entries[q], r); }
    hide TakenBy;
    if r :| Names(notes, r, q) {
      var f := FirstNamer(notes, r, q);
      assert TakenBy(s.entries[q], f);
    }
    forall r ensures LinkedBy(after, q, e, r) {
      NamesGrow(notes, next, n, r, q);
      assert LinkedBy(notes, q, s.entries[q], r);
      if s.entries[q].supersededBy.Some? { assert LinkedBy(notes, q, s.entries[q], s.entries[q].supersededBy.value); }
      if s.entries[q].revokedBy.Some? { assert LinkedBy(notes, q, s.entries[q], s.entries[q].revokedBy.value); }
    }
  }

  lemma TargetIsNamed(n: Note, q: int)
    ensures Target(n) == Some(q) <==> Withdraws(n, q)
  {}

  // The new row.
  lemma NewestFits(s: Store, notes: map<int, Note>, clock: int, n: Note, fts: bool)
    requires AllFit(s, notes, clock) && Append(s, n, fts).Commit? && ArgumentError(n).None?
    ensures Fits(Append(s, n, fts).store, notes[s.head + 1 := n], clock, s.head + 1)
  {
    var next := s.head + 1;
    var after := notes[next := n];
    var t := Append(s, n, fts).store;
    NotesStart(s, notes, clock);
    assert Fits(s, notes, clock, next);
    AppendedRow(s, n, fts);
    AppendKeeps(s, n, fts, next);
    hide Append, ArgumentError, Withdraws;
    var e := t.entries[next];
    forall q | Names(after, next, q) ensures 1 <= q < next && q in s.entries {
      assert Fits(s, notes, clock, q);
    }
    NewestRevision(s, notes, clock, n, e);
    forall r ensures !Names(notes, r, next) { assert r in notes ==> Fits(s, notes, clock, r); }
    forall r ensures LinkedBy(after, next, e, r) { NamesGrow(notes, next, n, r, next); }
    forall p, r ensures Disputes(after, next, e, p, r) {
      NamesGrow(notes, next, n, r, p);
      if Withdraws(n, p) {
        assert Fits(s, notes, clock, p);
        TakenIsReplaced(notes, p, s.entries[p], r);
      }
    }
    if forall q :: !Names(after, next, q) {
      forall q ensures !Withdraws(n, q) { assert !Names(after, next, q); }
    }
  }

  lemma NewestRevision(s: Store, notes: map<int, Note>, clock: int, n: Note, e: Entry)
    requires AllFit(s, notes, clock)
    requires forall q :: Withdraws(n, q) ==> q in s.entries && e.revision == s.entries[q].revision + 1
    requires (forall q :: !Withdraws(n, q)) ==> e.revision == 1
    ensures e.revision == Revision(notes[s.head + 1 := n], s.head + 1)
  {
    hide Target;
    forall q ensures Target(n) == Some(q) <==> Withdraws(n, q) { TargetIsNamed(n, q); }
    if Target(n).Some? {
      var q := Target(n).value;
      assert Withdraws(n, q);
      assert Fits(s, notes, clock, q);
      RevisionGrows(notes, s.head + 1, n, q);
    }
  }

  lemma AppendFits(s: Store, notes: map<int, Note>, clock: int, n: Note, fts: bool, q: int)
    requires AllFit(s, notes, clock) && Append(s, n, fts).Commit? && ArgumentError(n).None?
    ensures Fits(Append(s, n, fts).store, notes[s.head + 1 := n], clock, q)
  {
    if q == s.head + 1 {
      NewestFits(s, notes, clock, n, fts);
    } else {
      OlderFits(s, notes, clock, n, fts, q);
    }
  }

  /* ----- forgetting ----- */

  lemma ExpireRows(s: Store, now: int, fts: bool, q: int)
    requires 0 <= s.floor
    ensures var t := ExpireBatch(s, now, fts);
      && t.head == s.head && s.floor <= t.floor
      && (q in t.entries ==> q in s.entries && t.entries[q] == s.entries[q])
      && (q in s.entries && q !in t.entries ==> Lapsed(s.entries[q], now) && q <= t.floor)
      && (t.floor == s.floor || t.floor in s.entries)
  {
    var lapsed := LapsedRows(s, now);
    LowestWithin(lapsed, EXPIRY_BATCH);
    var rows := Lowest(lapsed, EXPIRY_BATCH);
    var batch := Members(rows);
    forall x | x in batch ensures x in lapsed {
      var k :| 0 <= k < |rows| && rows[k] == x;
    }
    hide Lowest, IndexUsable;
  }

  lemma ExpireFits(s: Store, notes: map<int, Note>, clock: int, now: int, fts: bool, q: int)
    requires AllFit(s, notes, clock) && clock <= now
    ensures Fits(ExpireBatch(s, now, fts), notes, now, q)
  {
    ExpireRows(s, now, fts, q);
    assert Fits(s, notes, clock, q);
    hide ExpireBatch;
  }

  lemma ExpireFloor(s: Store, notes: map<int, Note>, clock: int, now: int, fts: bool)
    requires AllFit(s, notes, clock)
    ensures var t := ExpireBatch(s, now, fts); 0 <= t.floor <= t.head
  {
    ExpireRows(s, now, fts, 0);
    assert Fits(s, notes, clock, ExpireBatch(s, now, fts).floor);
    hide ExpireBatch;
  }

  /* ----- every act ----- */

  // Only appending and expiry touch the log; every other transaction keeps these tables.
  predicate SameLog(s: Store, t: Store) {
    t.entries == s.entries && t.head == s.head && t.floor == s.floor
  }

  lemma UnmovedStore(w: World, a: Act)
    requires !a.Noting? && !a.Expiring?
    ensures SameLog(w.store, After(w, a))
  {
    hide After;
    if a.Sweeping? {
      SweepOnly(w, a);
    } else if Upkeep(a) {
      UpkeepOnly(w, a);
    } else {
      ReadersOnly(w, a);
    }
  }

  lemma UnmovedNotes(w: World, a: Act)
    requires !a.Noting? && !a.Expiring?
    ensures Observe(w, a).notes == w.record.notes
  {
    hide Freezes, Streams, PageAt, DeltaOf, After, AckSnapshot, ToldOf, PagesOf, Span, Members;
  }

  lemma Unmoved(w: World, a: Act)
    requires !a.Noting? && !a.Expiring?
    ensures SameLog(w.store, After(w, a)) && Observe(w, a).notes == w.record.notes
  {
    UnmovedStore(w, a);
    UnmovedNotes(w, a);
    hide After, Observe;
  }

  lemma LaterFits(s: Store, t: Store, notes: map<int, Note>, clock: int, now: int)
    requires AllFit(s, notes, clock) && clock <= now
    requires t.entries == s.entries && t.head == s.head && t.floor == s.floor
    ensures AllFit(t, notes, now)
  {
    forall q ensures Fits(t, notes, now, q) { assert Fits(s, notes, clock, q); }
  }

  lemma NotingSound(w: World, n: Note, now: int)
    requires LogSound(w) && w.clock <= now
    ensures LogSound(Do(w, Noting(n, now)))
  {
    hide Fits, Append, Room;
    if Serves(w) && Appends(w, n, now) {
      var engine := w.process.engine;
      var t := Append(w.store, n, engine).store;
      var notes := w.record.notes[w.store.head + 1 := n];
      AppendFloor(w.store, n, engine);
      forall q ensures Fits(t, notes, w.clock, q) { AppendFits(w.store, w.record.notes, w.clock, n, engine, q); }
      LaterFits(t, t, notes, w.clock, now);
    } else {
      LaterFits(w.store, w.store, w.record.notes, w.clock, now);
    }
  }

  lemma AppendFloor(s: Store, n: Note, fts: bool)
    requires Append(s, n, fts).Commit?
    ensures Append(s, n, fts).store.floor == s.floor && Append(s, n, fts).store.head == s.head + 1
  {
    hide Linked, NewEntry, Conflict;
  }

  lemma ExpiringSound(w: World, now: int)
    requires LogSound(w) && w.clock <= now
    ensures LogSound(Do(w, Expiring(now)))
  {
    hide Fits, ExpireBatch;
    if Serves(w) {
      ExpireFloor(w.store, w.record.notes, w.clock, now, w.process.engine);
      forall q ensures Fits(ExpireBatch(w.store, now, w.process.engine), w.record.notes, now, q) {
        ExpireFits(w.store, w.record.notes, w.clock, now, w.process.engine, q);
      }
    } else {
      LaterFits(w.store, w.store, w.record.notes, w.clock, now);
    }
  }

  lemma LogStep(w: World, a: Act)
    requires LogSound(w)
    ensures LogSound(Do(w, a))
  {
    hide AllFit, After, Observe;
    if Timely(w, a) {
      match a
      case Noting(n, now) => NotingSound(w, n, now);
      case Expiring(now) => ExpiringSound(w, now);
      case _ =>
        Unmoved(w, a);
        LaterFits(w.store, After(w, a), w.record.notes, w.clock, Later(w, a));
    }
  }

  lemma {:induction false} LogRuns(w: World, acts: seq<Act>)
    requires LogSound(w)
    ensures LogSound(Play(w, acts))
    decreases |acts|
  {
    hide LogSound, Do;
    if acts != [] {
      LogStep(w, acts[0]);
      LogRuns(Do(w, acts[0]), acts[1..]);
    }
  }

  lemma DawnSound()
    ensures LogSound(DAWN)
  {
    forall q ensures Fits(NEW, map[], 0, q) {}
  }

  /* ----- time travel ----- */

  predicate Outlasts(n: Note, now: int) {
    n.expires.None? || n.expires.value > now
  }

  lemma LiveRow(s: Store, notes: map<int, Note>, clock: int, at: nat, now: int, q: int)
    requires AllFit(s, notes, clock) && at <= s.head && clock <= now
    ensures q in LiveSetAt(s, at, now) <==> 1 <= q <= at && Untouched(notes, q, at) && q in notes && Outlasts(notes[q], now)
  {
    assert Fits(s, notes, clock, q);
    if q in s.entries {
      var e := s.entries[q];
      if e.supersededBy.Some? {
        assert LinkedBy(notes, q, e, e.supersededBy.value);
      }
      if e.revokedBy.Some? {
        assert LinkedBy(notes, q, e, e.revokedBy.value);
      }
      forall r | Names(notes, r, q) ensures exists f :: f <= r && (e.supersededBy == Some(f) || e.revokedBy == Some(f)) {
        var f := FirstNamer(notes, r, q);
        assert LinkedBy(notes, q, e, f);
      }
    }
  }

  // The recorded links are the replay: whenever it is asked for, the live set as of an earlier
  // head is what applying the notes in order up to it gives, less what has expired.
  lemma LiveIsReplay(w: World, at: nat, now: int)
    requires LogSound(w) && at <= w.store.head && w.clock <= now
    ensures forall q :: q in LiveSetAt(w.store, at, now) <==>
      q in Replay(w.record.notes, at) && q in w.record.notes && Outlasts(w.record.notes[q], now)
  {
    NotesStart(w.store, w.record.notes, w.clock);
    forall r ensures Backward(w.record.notes, r) { assert Fits(w.store, w.record.notes, w.clock, r); }
    forall q ensures q in LiveSetAt(w.store, at, now) <==>
      q in Replay(w.record.notes, at) && q in w.record.notes && Outlasts(w.record.notes[q], now)
    {
      LiveRow(w.store, w.record.notes, w.clock, at, now, q);
      ReplayKeeps(w.record.notes, at, q);
    }
  }

  lemma NotesGrow(w: World, a: Act, q: int)
    requires LogSound(w)
    ensures w.store.head <= Do(w, a).store.head && w.clock <= Do(w, a).clock
    ensures q in w.record.notes ==> q in Do(w, a).record.notes && Do(w, a).record.notes[q] == w.record.notes[q]
  {
    match a
    case Noting(n, now) => NotingGrows(w, n, now, q);
    case Expiring(now) =>
      ExpireRows(w.store, now, Serves(w) && w.process.engine, 0);
      hide ExpireBatch, Fits;
    case _ =>
      Unmoved(w, a);
      hide After, Observe, Fits;
  }

  lemma NotingGrows(w: World, n: Note, now: int, q: int)
    requires LogSound(w)
    ensures var v := Do(w, Noting(n, now));
      && w.store.head <= v.store.head && w.clock <= v.clock
      && (q in w.record.notes ==> q in v.record.notes && v.record.notes[q] == w.record.notes[q])
  {
    SoundNote(w, w.store.head + 1);
    hide Append, LogSound, Room;
    if Serves(w) && Appends(w, n, now) {
      AppendFloor(w.store, n, w.process.engine);
    }
  }

  lemma {:induction false} NotesGrowAll(w: World, acts: seq<Act>, q: int)
    requires LogSound(w)
    ensures w.store.head <= Play(w, acts).store.head && w.clock <= Play(w, acts).clock
    ensures q in w.record.notes ==> q in Play(w, acts).record.notes && Play(w, acts).record.notes[q] == w.record.notes[q]
    decreases |acts|
  {
    hide LogSound, Do;
    if acts != [] {
      NotesGrow(w, acts[0], q);
      LogStep(w, acts[0]);
      NotesGrowAll(Do(w, acts[0]), acts[1..], q);
    }
  }

  lemma {:induction false} ReplaySame(before: map<int, Note>, after: map<int, Note>, at: nat)
    requires forall q :: 1 <= q <= at ==> q in before && q in after && after[q] == before[q]
    ensures Replay(before, at) == Replay(after, at)
    decreases at
  {
    if at > 0 {
      ReplaySame(before, after, at - 1);
    }
  }

  // Time travel: asked in any later state, whatever was appended, replaced, expired and reclaimed
  // since, the live set as of an earlier head is the one that state itself would have given.
  lemma TimeTravel(acts: seq<Act>, more: seq<Act>, at: nat, now: int)
    requires var w := Play(DAWN, acts); at <= w.store.head && Play(w, more).clock <= now
    ensures var w := Play(DAWN, acts);
      LiveSetAt(Play(w, more).store, at, now) == LiveSetAt(w.store, at, now)
  {
    hide LogSound, Play, LiveSetAt;
    DawnSound();
    LogRuns(DAWN, acts);
    var w := Play(DAWN, acts);
    LogRuns(w, more);
    var v := Play(w, more);
    NotesGrowAll(w, more, 0);
    forall q | 1 <= q <= at ensures q in w.record.notes && q in v.record.notes && v.record.notes[q] == w.record.notes[q] {
      SoundNote(w, q);
      NotesGrowAll(w, more, q);
    }
    ReplaySame(w.record.notes, v.record.notes, at);
    LiveIsReplay(w, at, now);
    LiveIsReplay(v, at, now);
    forall q ensures q in LiveSetAt(v.store, at, now) <==> q in LiveSetAt(w.store, at, now) {
      ReplayRange(w.record.notes, at, q);
    }
  }

  lemma SoundNote(w: World, q: int)
    requires LogSound(w)
    ensures q in w.record.notes <==> 1 <= q <= w.store.head
  {
    assert Fits(w.store, w.record.notes, w.clock, q);
  }

  lemma {:induction false} ReplayRange(notes: map<int, Note>, at: nat, q: int)
    ensures q in Replay(notes, at) ==> 1 <= q <= at
    decreases at
  {
    if at > 0 {
      ReplayRange(notes, at - 1, q);
    }
  }

  // What is live now is what was live as of the head.
  lemma LiveNowIsLiveAtHead(w: World, now: int)
    requires LogSound(w) && w.clock <= now
    ensures Live(w.store, now) == LiveSetAt(w.store, w.store.head, now)
  {
    var s := w.store;
    forall q ensures q in Live(s, now) <==> q in LiveSetAt(s, s.head, now) {
      assert Fits(s, w.record.notes, w.clock, q);
      if q in s.entries {
        var e := s.entries[q];
        if e.supersededBy.Some? {
          assert LinkedBy(w.record.notes, q, e, e.supersededBy.value);
          assert Fits(s, w.record.notes, w.clock, e.supersededBy.value);
        }
        if e.revokedBy.Some? {
          assert LinkedBy(w.record.notes, q, e, e.revokedBy.value);
          assert Fits(s, w.record.notes, w.clock, e.revokedBy.value);
        }
      }
    }
  }

  // Once replaced, an entry never becomes live again, however its replacement fares.
  lemma NeverRevived(acts: seq<Act>, more: seq<Act>, q: int, now: int)
    requires var w := Play(DAWN, acts); Play(w, more).clock <= now && 1 <= q <= w.store.head
    requires var w := Play(DAWN, acts); q !in LiveSetAt(w.store, w.store.head, now)
    ensures q !in Live(Play(Play(DAWN, acts), more).store, now)
  {
    hide LogSound, Play;
    DawnSound();
    LogRuns(DAWN, acts);
    var w := Play(DAWN, acts);
    LogRuns(w, more);
    var v := Play(w, more);
    NotesGrowAll(w, more, 0);
    SoundHead(w);
    TimeTravel(acts, more, w.store.head, now);
    LiveNowIsLiveAtHead(v, now);
  }

  lemma SoundHead(w: World)
    requires LogSound(w)
    ensures 0 <= w.store.floor <= w.store.head
  {}

  /* ----- rows are notes ----- */

  // Whatever happened since, a stored row is the note it was appended for; its revision counts the
  // notes that lead back from it; it is linked to the first note that withdrew it, by the kind of
  // withdrawal; and its conflict is the earlier note that had withdrawn the same event first.
  lemma RowsAreNotes(acts: seq<Act>, q: int, p: int, r: int)
    requires q in Play(DAWN, acts).store.entries
    ensures var w := Play(DAWN, acts); var e := w.store.entries[q]; var notes := w.record.notes;
      && q in notes && SameNote(e, notes[q])
      && (!(exists x :: Names(notes, q, x)) ==> e.revision == 1 && e.conflicts.None?)
      && (Names(notes, q, p) ==>
            && 1 <= p < q && e.revision == Revision(notes, p) + 1
            && (p in w.store.entries ==> e.revision == w.store.entries[p].revision + 1)
            && (e.conflicts == Some(r) <==> r < q && Replaces(notes, r, p)))
      && (e.supersededBy == Some(r) <==> Replaces(notes, r, q) && notes[r].supersedes == Some(q))
      && (e.revokedBy == Some(r) <==> Replaces(notes, r, q) && notes[r].supersedes != Some(q))
  {
    hide Play;
    DawnSound();
    LogRuns(DAWN, acts);
    var w := Play(DAWN, acts);
    var notes := w.record.notes;
    var e := w.store.entries[q];
    assert Fits(w.store, notes, w.clock, q) && Fits(w.store, notes, w.clock, p);
    assert Backward(notes, q) && LinkedBy(notes, q, e, r) && Disputes(notes, q, e, p, r);
    TargetIsNamed(notes[q], p);
    if Target(notes[q]).Some? {
      TargetIsNamed(notes[q], Target(notes[q]).value);
      assert Names(notes, q, Target(notes[q]).value);
    }
    hide AllFit, Withdraws, Target;
  }

  /* ----- no holes ----- */

  // Every event above the recovery boundary is there.
  lemma NoHoles(acts: seq<Act>, q: int)
    ensures var s := Play(DAWN, acts).store;
      && 0 <= s.floor <= s.head
      && (s.floor < q <= s.head ==> q in s.entries)
      && (q in s.entries ==> 1 <= q <= s.head)
  {
    hide Play;
    DawnSound();
    LogRuns(DAWN, acts);
    var w := Play(DAWN, acts);
    assert Fits(w.store, w.record.notes, w.clock, q);
  }
}
