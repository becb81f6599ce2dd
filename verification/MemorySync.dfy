/** Readers: whatever writers, expiry, restarts and other readers do, a reader's cursor only
    covers what it was really given, and a frozen snapshot is read back exactly as it was frozen. */
module MemorySync {
  import opened Common
  import opened MemoryModel
  import opened MemoryBudget
  import opened MemoryRuns
  import opened MemoryLog

  /* ----- invariants ----- */

  // The positions below n are among those handed over.
  predicate AllSent(pages: set<int>, n: int) {
    forall p :: 0 <= p < n ==> p in pages
  }

  // A stored snapshot is the one that was frozen, but for its progress; every position below
  // `issued` was handed to its owner, and it is acknowledged only once all were.
  predicate ShotFits(w: World, sid: string) {
    sid in w.store.shots ==>
      var h := w.store.shots[sid];
      && sid in w.record.minted
      && h == w.record.minted[sid].(issued := h.issued, acked := h.acked, ackedAt := h.ackedAt)
      && h.issued <= |h.items|
      && AllSent(PagesOf(w.record.pages, sid), h.issued)
      && (h.acked ==> h.issued == |h.items|)
  }

  predicate MintFits(w: World, sid: string) {
    sid in w.record.minted ==> 0 <= w.record.minted[sid].head <= w.store.head
  }

  // An event a reader accounts for: under a snapshot it finished, or streamed to it.
  predicate Heard(t: Told, q: int) {
    q <= t.through || q in t.streamed
  }

  predicate AllHeard(t: Told, n: int) {
    forall q :: 1 <= q <= n ==> Heard(t, q)
  }

  predicate FullyRead(w: World, c: string, sid: string, head: int) {
    && sid in w.record.minted && w.record.minted[sid].consumer == c && w.record.minted[sid].head == head
    && AllSent(PagesOf(w.record.pages, sid), |w.record.minted[sid].items|)
  }

  predicate ReaderFits(w: World, c: string) {
    c in w.store.readers ==>
      var r, t := w.store.readers[c], ToldOf(w.record.told, c);
      && c in w.record.told
      && 0 <= r.cursor <= r.issued <= w.store.head && r.cursor == t.acked
      && AllHeard(t, r.issued)
      && (t.through > 0 ==> t.shot.Some? && FullyRead(w, c, t.shot.value, t.through))
      && (r.snapshot.Some? ==>
            && r.snapshot.value in w.record.minted && w.record.minted[r.snapshot.value].consumer == c
            && r.issued <= w.record.minted[r.snapshot.value].head)
  }

  ghost predicate SyncSound(w: World) {
    && (forall sid {:trigger ShotFits(w, sid)} :: ShotFits(w, sid))
    && (forall sid {:trigger MintFits(w, sid)} :: MintFits(w, sid))
    && (forall c {:trigger ReaderFits(w, c)} :: ReaderFits(w, c))
  }

  /* ----- rows above a cursor ----- */

  // Above the recovery boundary the rows after a cursor are the consecutive run that follows it.
  lemma RowsConsecutive(s: Store, notes: map<int, Note>, clock: int, from: int)
    requires AllFit(s, notes, clock) && s.floor <= from <= s.head
    ensures var rows := RowsAbove(s, from);
      && |rows| == Min(ROW_WINDOW, s.head - from)
      && forall k :: 0 <= k < |rows| ==> rows[k] == from + 1 + k
  {
    var above := set q | q in s.entries && q > from;
    var rows := RowsAbove(s, from);
    LowestWithin(above, ROW_WINDOW);
    LowestFacts(above, ROW_WINDOW);
    forall q ensures q in above <==> from < q <= s.head {
      assert Fits(s, notes, clock, q);
    }
    RangeSize(above, from, s.head);
    hide Lowest;
    ConsecutiveRows(rows, above, from, s.head);
  }

  lemma {:induction false} RangeSize(above: set<int>, from: int, top: int)
    requires from <= top && forall q :: q in above <==> from < q <= top
    ensures |above| == top - from
    decreases top - from
  {
    if from < top {
      RangeSize(above - {top}, from, top - 1);
      assert top in above;
    } else {
      assert above == {} by { assert forall q :: q !in above; }
    }
  }

  lemma {:induction false} ConsecutiveRows(rows: seq<int>, above: set<int>, from: int, top: int)
    requires Among(rows, above) && Ascending(rows) && forall q :: q in above <==> from < q <= top
    requires forall p, q :: p in rows && q in above && q <= p ==> q in rows
    ensures forall k :: 0 <= k < |rows| ==> rows[k] == from + 1 + k
    decreases |rows|
  {
    if rows != [] {
      assert rows[0] in above && rows[0] in rows;
      assert from + 1 in above;
      var m :| 0 <= m < |rows| && rows[m] == from + 1;
      var rest := rows[1..];
      forall k | 0 <= k < |rest| ensures rest[k] in above - {from + 1} {
        assert rest[k] == rows[k + 1] && rows[0] < rows[k + 1];
      }
      forall p, q | p in rest && q in above - {from + 1} && q <= p ensures q in rest {
        assert p in rows && q in rows;
      }
      ConsecutiveRows(rest, above - {from + 1}, from + 1, top);
    }
  }

  /* ----- one act ----- */

  // Acts that concern no reader and no snapshot.
  lemma Aside(w: World, a: Act)
    requires a.Start? || a.Reindex? || a.Settle? || a.Stop? || a.Noting? || a.Expiring? || a.Invalidating?
    ensures After(w, a).readers == w.store.readers && After(w, a).shots == w.store.shots
    ensures var r := Observe(w, a); r.minted == w.record.minted && r.pages == w.record.pages && r.told == w.record.told
  {
    AsideRecord(w, a);
    hide After, Observe;
    if a.Noting? {
      NoteOnly(w, a);
    } else if a.Expiring? {
      ExpireOnly(w, a);
    } else {
      UpkeepOnly(w, a);
    }
  }

  lemma AsideRecord(w: World, a: Act)
    requires a.Start? || a.Reindex? || a.Settle? || a.Stop? || a.Noting? || a.Expiring? || a.Invalidating?
    ensures var r := Observe(w, a); r.minted == w.record.minted && r.pages == w.record.pages && r.told == w.record.told
  {
    hide Appends;
  }

  lemma AsideSound(w: World, a: Act)
    requires LogSound(w) && SyncSound(w)
    requires a.Start? || a.Reindex? || a.Settle? || a.Stop? || a.Noting? || a.Expiring? || a.Invalidating?
    ensures SyncSound(Do(w, a))
  {
    NotesGrow(w, a, 0);
    Aside(w, a);
    hide LogSound, After, Observe;
    var v := Do(w, a);
    forall sid ensures ShotFits(v, sid) { assert ShotFits(w, sid); }
    forall sid ensures MintFits(v, sid) { assert MintFits(w, sid); }
    forall c ensures ReaderFits(v, c) { assert ReaderFits(w, c); }
  }

  // Acts on readers never move the head.
  lemma HeadStays(w: World, a: Act)
    requires !a.Noting? && !a.Expiring?
    ensures After(w, a).head == w.store.head
  {
    Unmoved(w, a);
    hide After, Observe;
  }

  lemma SweptReader(s: Store, now: int, c: string)
    ensures c in Sweep(s, now).readers ==> c in s.readers && Sweep(s, now).readers[c] == s.readers[c]
    ensures c in Sweep(s, now).shots ==> c in s.shots && Sweep(s, now).shots[c] == s.shots[c]
  {}

  lemma SweepingSound(w: World, now: int)
    requires SyncSound(w)
    ensures SyncSound(Do(w, Sweeping(now)))
  {
    HeadStays(w, Sweeping(now));
    var v := Do(w, Sweeping(now));
    forall sid ensures ShotFits(v, sid) {
      assert ShotFits(w, sid);
      SweptReader(w.store, now, sid);
    }
    forall sid ensures MintFits(v, sid) { assert MintFits(w, sid); }
    forall c ensures ReaderFits(v, c) {
      assert ReaderFits(w, c);
      SweptReader(w.store, now, c);
    }
  }

  // A reader's row changes to r, everything else stays.
  predicate OnlyReader(w: World, v: World, c: string, r: Reader) {
    && v.store.head == w.store.head && v.store.shots == w.store.shots
    && v.store.readers == w.store.readers[c := r]
    && v.record.minted == w.record.minted && v.record.pages == w.record.pages
  }

  lemma ReaderChanged(w: World, v: World, c: string, r: Reader)
    requires SyncSound(w) && OnlyReader(w, v, c, r) && ReaderFits(v, c)
    requires forall k :: k in w.record.told && k != c ==> k in v.record.told && v.record.told[k] == w.record.told[k]
    ensures SyncSound(v)
  {
    forall sid ensures ShotFits(v, sid) { assert ShotFits(w, sid); }
    forall sid ensures MintFits(v, sid) { assert MintFits(w, sid); }
    forall k ensures ReaderFits(v, k) {
      assert ReaderFits(w, k);
    }
  }

  lemma SameSync(w: World, v: World)
    requires SyncSound(w) && v.store.head == w.store.head && v.store.shots == w.store.shots && v.store.readers == w.store.readers
    requires v.record.minted == w.record.minted && v.record.pages == w.record.pages && v.record.told == w.record.told
    ensures SyncSound(v)
  {
    forall sid ensures ShotFits(v, sid) { assert ShotFits(w, sid); }
    forall sid ensures MintFits(v, sid) { assert MintFits(w, sid); }
    forall c ensures ReaderFits(v, c) { assert ReaderFits(w, c); }
  }

  lemma RegisteringSound(w: World, c: string, now: int)
    requires LogSound(w) && SyncSound(w)
    ensures SyncSound(Do(w, Registering(c, now)))
  {
    var a := Registering(c, now);
    HeadStays(w, a);
    SoundHead(w);
    hide LogSound, Room, SyncSound;
    var v := Do(w, a);
    if Timely(w, a) && c !in w.store.readers && After(w, a) != w.store {
      ReaderChanged(w, v, c, Registered(now));
    } else {
      SameSync(w, v);
    }
  }

  lemma TouchingSound(w: World, a: Act)
    requires SyncSound(w) && (a.Touching? || a.Clearing?)
    ensures SyncSound(Do(w, a))
  {
    HeadStays(w, a);
    var v := Do(w, a);
    assert ReaderFits(w, a.c);
    hide SyncSound, Unusable;
    if v.store != w.store {
      ReaderChanged(w, v, a.c, v.store.readers[a.c]);
    } else {
      SameSync(w, v);
    }
  }

  lemma FreezingSound(w: World, a: Act)
    requires LogSound(w) && SyncSound(w) && a.Freezing?
    ensures SyncSound(Do(w, a))
  {
    HeadStays(w, a);
    SoundHead(w);
    hide LogSound, FrozenList, Prunable, HeldShots, Room, NeedsSnapshot;
    var v := Do(w, a);
    if Timely(w, a) && Serves(w) && Freezes(w, a.c, a.sid, a.items, a.pruned, a.now) {
      assert ReaderFits(w, a.c);
      forall sid ensures ShotFits(v, sid) {
        assert ShotFits(w, sid);
        FrozenShot(w, a, sid);
      }
      forall sid ensures MintFits(v, sid) { assert MintFits(w, sid); }
      forall k ensures ReaderFits(v, k) {
        assert ReaderFits(w, k);
        FrozenReader(w, a, k);
      }
    } else {
      SameSync(w, v);
    }
  }

  lemma FrozenShot(w: World, a: Act, sid: string)
    requires a.Freezing? && Serves(w) && Freezes(w, a.c, a.sid, a.items, a.pruned, a.now)
    requires ShotFits(w, sid)
    ensures ShotFits(World(After(w, a), w.process, a.now, Observe(w, a)), sid)
  {
    hide FrozenList, Prunable, HeldShots, Room, NeedsSnapshot;
  }

  lemma FrozenReader(w: World, a: Act, k: string)
    requires a.Freezing? && Serves(w) && Freezes(w, a.c, a.sid, a.items, a.pruned, a.now)
    requires ReaderFits(w, k)
    ensures ReaderFits(World(After(w, a), w.process, a.now, Observe(w, a)), k)
  {
    hide FrozenList, Prunable, HeldShots, Room, NeedsSnapshot;
  }

  lemma {:induction false} FittingCounts(sizes: seq<int>, used: int, budget: int)
    requires used <= budget
    ensures sizes != [] && used + sizes[0] <= budget ==> Fitting(sizes, used, budget) > 0
    ensures Fitting(sizes, used, budget) <= |sizes|
  {}

  // What a page hands over: the frozen items from its token on, as far as the budget allows. From
  // a token that is not negative `more` says exactly whether items remain; from a negative one it
  // is always set.
  lemma PageHands(s: Store, c: string, sid: string, token: int, claimed: Option<string>, now: int)
    requires PageAt(s, c, sid, token, claimed, now).Commit?
    requires sid in s.shots && s.shots[sid].issued <= |s.shots[sid].items|
    ensures var p := PageAt(s, c, sid, token, claimed, now).reply; var h := s.shots[sid];
      var first := Max(token, 0);
      && s.shots[sid].consumer == c && token <= h.issued
      && p.Frozen? && p.sid == sid && p.head == h.head && p.total == |h.items|
      && first + |p.items| <= |h.items| && p.items == h.items[first..first + |p.items|]
      && p.next == token + |p.items|
      && (p.more <==> p.next < |h.items|)
      && (if token >= 0 then p.more <==> first + |p.items| < |h.items| else p.more)
  {
    hide Fitting, Oversize;
  }

  lemma PageMoves(s: Store, c: string, sid: string, token: int, claimed: Option<string>, now: int)
    requires PageAt(s, c, sid, token, claimed, now).Commit? && sid in s.shots
    ensures var t := PageAt(s, c, sid, token, claimed, now); 
      t.store == s.(shots := s.shots[sid := s.shots[sid].(issued := Max(s.shots[sid].issued, t.reply.next))])
  {
    hide Fitting, Oversize;
  }

  lemma PageObserved(w: World, a: Act)
    requires a.Paging? && Serves(w) && a.c in w.store.readers && w.store.readers[a.c].snapshot.Some?
    requires PageAt(w.store, a.c, w.store.readers[a.c].snapshot.value, a.token, a.claimed, a.now).Commit?
    ensures var sid := w.store.readers[a.c].snapshot.value; var p := PageAt(w.store, a.c, sid, a.token, a.claimed, a.now).reply;
      Observe(w, a) == w.record.(pages := w.record.pages[sid := PagesOf(w.record.pages, sid) + Span(Max(a.token, 0), |p.items|)])
  {
    hide PageAt, Span;
  }

  lemma PagingFits(w: World, a: Act, sid: string)
    requires SyncSound(w) && a.Paging? && Serves(w) && a.c in w.store.readers && w.store.readers[a.c].snapshot.Some?
    requires PageAt(w.store, a.c, w.store.readers[a.c].snapshot.value, a.token, a.claimed, a.now).Commit?
    ensures ShotFits(World(After(w, a), w.process, a.now, Observe(w, a)), sid)
  {
    var open := w.store.readers[a.c].snapshot.value;
    assert ShotFits(w, sid) && ShotFits(w, open);
    assert open in w.store.shots;
    PageHands(w.store, a.c, open, a.token, a.claimed, a.now);
    PageMoves(w.store, a.c, open, a.token, a.claimed, a.now);
    PageObserved(w, a);
    hide PageAt, Observe, SyncSound;
    var next := PageAt(w.store, a.c, open, a.token, a.claimed, a.now).reply.next;
    var v := World(After(w, a), w.process, a.now, Observe(w, a));
    if sid == open {
      forall p | 0 <= p < v.store.shots[sid].issued ensures p in PagesOf(v.record.pages, sid) {
        if p >= w.store.shots[sid].issued {
          assert Within(p, Max(a.token, 0), |PageAt(w.store, a.c, open, a.token, a.claimed, a.now).reply.items|);
        }
      }
    }
  }

  lemma PagingSound(w: World, a: Act)
    requires SyncSound(w) && a.Paging?
    ensures SyncSound(Do(w, a))
  {
    HeadStays(w, a);
    var v := Do(w, a);
    if Timely(w, a) && Serves(w) && a.c in w.store.readers && w.store.readers[a.c].snapshot.Some?
       && PageAt(w.store, a.c, w.store.readers[a.c].snapshot.value, a.token, a.claimed, a.now).Commit? {
      var open := w.store.readers[a.c].snapshot.value;
      assert ShotFits(w, open);
      assert open in w.store.shots;
      PageMoves(w.store, a.c, open, a.token, a.claimed, a.now);
      PageObserved(w, a);
      forall sid ensures ShotFits(v, sid) { PagingFits(w, a, sid); }
      hide PageAt, Observe;
      forall sid ensures MintFits(v, sid) { assert MintFits(w, sid); }
      forall k ensures ReaderFits(v, k) {
        assert ReaderFits(w, k);
        PagesGrow(w, v, open);
      }
    } else {
      hide SyncSound, PageAt;
      SameSync(w, v);
    }
  }

  lemma PagesGrow(w: World, v: World, open: string)
    requires v.record.pages == w.record.pages[open := PagesOf(v.record.pages, open)] && PagesOf(w.record.pages, open) <= PagesOf(v.record.pages, open)
    ensures forall sid, p :: p in PagesOf(w.record.pages, sid) ==> p in PagesOf(v.record.pages, sid)
  {
    forall sid, p | p in PagesOf(w.record.pages, sid) ensures p in PagesOf(v.record.pages, sid) {
      if sid == open {
        assert p in PagesOf(w.record.pages, open);
      }
    }
  }

  // A delta is the run after the cursor, and nothing else.
  lemma DeltaHands(s: Store, notes: map<int, Note>, clock: int, c: string, sizes: seq<int>)
    requires AllFit(s, notes, clock) && c in s.readers && s.floor <= s.readers[c].cursor <= s.head
    requires |sizes| == |RowsAbove(s, s.readers[c].cursor)| && DeltaOf(s, c, sizes).Commit?
    ensures var p := DeltaOf(s, c, sizes).reply; var from := s.readers[c].cursor;
      && p.Delta? && p.cursor == from && p.next == from + |p.entries| && p.next <= s.head && p.head == s.head
      && (forall k :: 0 <= k < |p.entries| ==> p.entries[k] == from + 1 + k)
      && (p.more <==> p.next < s.head)
    ensures sizes != [] ==> DeltaOf(s, c, sizes).reply.next > s.readers[c].cursor
  {
    RowsConsecutive(s, notes, clock, s.readers[c].cursor);
    hide RowsAbove, AllFit;
    FittingCounts(sizes, 0, FRAME_BUDGET);
    hide Fitting;
  }

  lemma DeltaMoves(s: Store, c: string, sizes: seq<int>)
    requires c in s.readers && |sizes| == |RowsAbove(s, s.readers[c].cursor)| && DeltaOf(s, c, sizes).Commit?
    ensures var t := DeltaOf(s, c, sizes);
      t.reply.Delta? && t.store == s.(readers := s.readers[c := s.readers[c].(issued := Max(s.readers[c].issued, t.reply.next))])
  {
    hide RowsAbove, Fitting, Oversize;
  }

  lemma StreamObserved(w: World, a: Act)
    requires a.Streaming? && Serves(w) && Streams(w, a.c, a.sizes)
    ensures Observe(w, a) == w.record.(told := w.record.told[a.c :=
      ToldOf(w.record.told, a.c).(streamed := ToldOf(w.record.told, a.c).streamed + Members(DeltaOf(w.store, a.c, a.sizes).reply.entries))])
  {
    hide DeltaOf, Members, NeedsSnapshot, RowsAbove;
  }

  lemma StreamingSound(w: World, a: Act)
    requires LogSound(w) && SyncSound(w) && a.Streaming?
    ensures SyncSound(Do(w, a))
  {
    HeadStays(w, a);
    var v := Do(w, a);
    if Serves(w) && Streams(w, a.c, a.sizes) {
      assert ReaderFits(w, a.c);
      DeltaHands(w.store, w.record.notes, w.clock, a.c, a.sizes);
      DeltaMoves(w.store, a.c, a.sizes);
      StreamObserved(w, a);
      var p := DeltaOf(w.store, a.c, a.sizes).reply;
      hide LogSound, Streams, DeltaOf, Observe;
      var t, t' := ToldOf(w.record.told, a.c), ToldOf(v.record.told, a.c);
      forall q | 1 <= q <= v.store.readers[a.c].issued ensures Heard(t', q) {
        if q > w.store.readers[a.c].issued {
          assert p.entries[q - p.cursor - 1] == q;
        } else {
          assert Heard(t, q);
        }
      }
      ReaderChanged(w, v, a.c, v.store.readers[a.c]);
    } else {
      hide SyncSound;
      SameSync(w, v);
    }
  }

  lemma AckMoves(s: Store, c: string, sid: string, now: int)
    requires c in s.readers && AckSnapshot(s, c, sid, now).Commit?
    ensures sid in s.shots && s.shots[sid].consumer == c
    ensures var t := AckSnapshot(s, c, sid, now); var h, r := s.shots[sid], s.readers[c];
      if t.reply.replayed then t.store == s && h.acked
      else
        && !h.acked && r.snapshot == Some(sid) && h.issued >= |h.items|
        && t.store == s.(shots := s.shots[sid := h.(acked := true, ackedAt := now)],
                         readers := s.readers[c := r.(cursor := h.head, issued := Max(h.head, r.issued), snapshot := None,
                                                      bootstrapped := true, resnapshot := false)])
  {}

  lemma AckingFits(w: World, a: Act, c: string)
    requires SyncSound(w) && a.AckingSnapshot? && Serves(w) && a.c in w.store.readers
    requires AckSnapshot(w.store, a.c, a.sid, a.now).Commit? && !AckSnapshot(w.store, a.c, a.sid, a.now).reply.replayed
    ensures ReaderFits(World(After(w, a), w.process, a.now, Observe(w, a)), c)
  {
    AckMoves(w.store, a.c, a.sid, a.now);
    assert ReaderFits(w, c) && ReaderFits(w, a.c) && ShotFits(w, a.sid) && MintFits(w, a.sid);
    hide AckSnapshot, SyncSound;
    var v := World(After(w, a), w.process, a.now, Observe(w, a));
    assert FullyRead(v, a.c, a.sid, w.store.shots[a.sid].head);
  }

  lemma AckingSound(w: World, a: Act)
    requires SyncSound(w) && a.AckingSnapshot?
    ensures SyncSound(Do(w, a))
  {
    HeadStays(w, a);
    var v := Do(w, a);
    if Timely(w, a) && Serves(w) && a.c in w.store.readers && AckSnapshot(w.store, a.c, a.sid, a.now).Commit?
       && !AckSnapshot(w.store, a.c, a.sid, a.now).reply.replayed {
      AckMoves(w.store, a.c, a.sid, a.now);
      forall c ensures ReaderFits(v, c) { AckingFits(w, a, c); }
      hide AckSnapshot;
      forall sid ensures ShotFits(v, sid) { assert ShotFits(w, sid); }
      forall sid ensures MintFits(v, sid) { assert MintFits(w, sid); }
    } else {
      if Serves(w) && a.c in w.store.readers && AckSnapshot(w.store, a.c, a.sid, a.now).Commit? {
        AckMoves(w.store, a.c, a.sid, a.now);
      }
      hide SyncSound, AckSnapshot;
      SameSync(w, v);
    }
  }

  lemma ThroughSound(w: World, a: Act)
    requires SyncSound(w) && a.AckingThrough?
    ensures SyncSound(Do(w, a))
  {
    HeadStays(w, a);
    var v := Do(w, a);
    assert ReaderFits(w, a.c);
    hide SyncSound;
    if v.store != w.store {
      var t, t' := ToldOf(w.record.told, a.c), ToldOf(v.record.told, a.c);
      forall q | 1 <= q <= v.store.readers[a.c].issued ensures Heard(t', q) { assert Heard(t, q); }
      ReaderChanged(w, v, a.c, v.store.readers[a.c]);
    } else {
      SameSync(w, v);
    }
  }

  lemma SyncStep(w: World, a: Act)
    requires LogSound(w) && SyncSound(w)
    ensures SyncSound(Do(w, a))
  {
    hide LogSound, SyncSound, Do;
    match a
    case Sweeping(now) => SweepingSound(w, now);
    case Registering(c, now) => RegisteringSound(w, c, now);
    case Touching(_, _) => TouchingSound(w, a);
    case Clearing(_, _) => TouchingSound(w, a);
    case Freezing(_, _, _, _, _) => FreezingSound(w, a);
    case Paging(_, _, _, _) => PagingSound(w, a);
    case Streaming(_, _) => StreamingSound(w, a);
    case AckingSnapshot(_, _, _) => AckingSound(w, a);
    case AckingThrough(_, _) => ThroughSound(w, a);
    case _ => AsideSound(w, a);
  }

  lemma {:induction false} SyncRuns(w: World, acts: seq<Act>)
    requires LogSound(w) && SyncSound(w)
    ensures LogSound(Play(w, acts)) && SyncSound(Play(w, acts))
    decreases |acts|
  {
    hide LogSound, SyncSound, Do;
    if acts != [] {
      SyncStep(w, acts[0]);
      LogStep(w, acts[0]);
      SyncRuns(Do(w, acts[0]), acts[1..]);
    }
  }

  lemma DawnSynced()
    ensures SyncSound(DAWN)
  {
    forall sid ensures ShotFits(DAWN, sid) {}
    forall sid ensures MintFits(DAWN, sid) {}
    forall c ensures ReaderFits(DAWN, c) {}
  }
}
