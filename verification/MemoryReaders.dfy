/** What every reader of the memory log can rely on, over every run of the service. */
module MemoryReaders {
  import opened Common
  import opened MemoryModel
  import opened MemoryBudget
  import opened MemoryRuns
  import opened MemoryLog
  import opened MemorySync

  lemma Reached(acts: seq<Act>)
    ensures LogSound(Play(DAWN, acts)) && SyncSound(Play(DAWN, acts))
  {
    hide LogSound, SyncSound, Play;
    DawnSound();
    DawnSynced();
    SyncRuns(DAWN, acts);
  }

  /* ----- cursor coverage ----- */

  // A registered reader's cursor never passes what was issued, nor that the head; and every event
  // at or below it lies under the head of a snapshot this reader paged to the end and then
  // acknowledged, or was streamed to it in a delta.
  lemma CursorCovered(acts: seq<Act>, c: string, q: int)
    ensures var w := Play(DAWN, acts);
      c in w.store.readers ==>
        var r, t := w.store.readers[c], ToldOf(w.record.told, c);
        && 0 <= r.cursor <= r.issued <= w.store.head
        && (1 <= q <= r.cursor ==>
              || q in t.streamed
              || (t.shot.Some? && q <= t.through && FullyRead(w, c, t.shot.value, t.through)))
  {
    hide Play, LogSound;
    Reached(acts);
    var w := Play(DAWN, acts);
    assert ReaderFits(w, c);
    if c in w.store.readers && 1 <= q <= w.store.readers[c].cursor {
      assert Heard(ToldOf(w.record.told, c), q);
    }
  }

  // A registered reader's cursor is the highest position it ever had an acknowledgement accepted
  // for, by number or by a snapshot it finished: never beyond, and never short of it.
  lemma CursorIsAcknowledged(acts: seq<Act>, c: string)
    ensures var w := Play(DAWN, acts);
      c in w.store.readers ==> c in w.record.told && w.store.readers[c].cursor == w.record.told[c].acked
  {
    hide Play, LogSound;
    Reached(acts);
    assert ReaderFits(Play(DAWN, acts), c);
  }

  lemma OtherCursor(w: World, a: Act, c: string)
    requires !a.AckingSnapshot? && !a.AckingThrough?
    ensures c in w.store.readers && c in After(w, a).readers ==> After(w, a).readers[c].cursor == w.store.readers[c].cursor
  {
    if a.Noting? {
      NoteOnly(w, a);
      hide After;
    } else if a.Expiring? {
      ExpireOnly(w, a);
      hide After;
    } else if Upkeep(a) {
      UpkeepOnly(w, a);
      hide After;
    } else {
      ServedCursor(w, a, c);
    }
  }

  lemma ServedCursor(w: World, a: Act, c: string)
    requires !a.AckingSnapshot? && !a.AckingThrough? && (ReaderAct(a) || a.Sweeping?)
    ensures c in w.store.readers && c in After(w, a).readers ==> After(w, a).readers[c].cursor == w.store.readers[c].cursor
  {
    hide Freezes, Unusable, NeedsSnapshot, Room, PageAt, DeltaOf, RowsAbove, ReaderIdle, ShotLapsed;
    match a
    case Paging(x, token, claimed, now) =>
      if x in w.store.readers && w.store.readers[x].snapshot.Some? && PageAt(w.store, x, w.store.readers[x].snapshot.value, token, claimed, now).Commit? {
        PageTables(w.store, x, w.store.readers[x].snapshot.value, token, claimed, now);
      }
    case Streaming(x, sizes) =>
      if Streams(w, x, sizes) {
        DeltaMoves(w.store, x, sizes);
      }
    case Freezing(x, sid, items, pruned, now) =>
    case Registering(x, now) =>
    case Touching(x, now) =>
    case Clearing(x, now) =>
    case Sweeping(now) =>
  }

  lemma CursorStep(w: World, a: Act, c: string)
    requires SyncSound(w)
    ensures c in w.store.readers && c in Do(w, a).store.readers ==> w.store.readers[c].cursor <= Do(w, a).store.readers[c].cursor
  {
    match a
    case AckingSnapshot(x, sid, now) =>
      assert ReaderFits(w, x) && ShotFits(w, sid);
      if x in w.store.readers && AckSnapshot(w.store, x, sid, now).Commit? {
        AckMoves(w.store, x, sid, now);
      }
      hide AckSnapshot, SyncSound;
    case AckingThrough(_, _) => hide SyncSound;
    case _ =>
      OtherCursor(w, a, c);
      hide After, Observe, SyncSound;
  }

  ghost predicate StaysRegistered(w: World, acts: seq<Act>, c: string)
    decreases |acts|
  {
    c in w.store.readers && (acts != [] ==> StaysRegistered(Do(w, acts[0]), acts[1..], c))
  }

  // As long as a reader stays registered its cursor never moves back.
  lemma {:induction false} CursorMonotone(w: World, acts: seq<Act>, c: string)
    requires LogSound(w) && SyncSound(w) && StaysRegistered(w, acts, c)
    ensures c in Play(w, acts).store.readers && w.store.readers[c].cursor <= Play(w, acts).store.readers[c].cursor
    decreases |acts|
  {
    hide LogSound, SyncSound, Do;
    if acts != [] {
      CursorStep(w, acts[0], c);
      SyncStep(w, acts[0]);
      LogStep(w, acts[0]);
      CursorMonotone(Do(w, acts[0]), acts[1..], c);
    }
  }

  /* ----- deltas ----- */

  // A reader at or above the recovery boundary that owes no snapshot receives exactly the
  // consecutive run after its cursor; `more` holds exactly when the run stops short of the head;
  // each delta makes progress while anything is left and its first row fits a page; and the
  // only refusal is a row too large for any page.
  lemma DeltasAreConsecutive(acts: seq<Act>, c: string, sizes: seq<int>)
    requires var s := Play(DAWN, acts).store;
      c in s.readers && !NeedsSnapshot(s, c) && |sizes| == |RowsAbove(s, s.readers[c].cursor)|
    ensures var s := Play(DAWN, acts).store; var from := s.readers[c].cursor; var t := DeltaOf(s, c, sizes);
      && |sizes| == Min(ROW_WINDOW, s.head - from)
      && (t.Refuse? <==> sizes != [] && sizes[0] > FRAME_BUDGET)
      && (t.Commit? ==>
            && t.reply.Delta? && t.reply.next == from + |t.reply.entries|
            && (forall k :: 0 <= k < |t.reply.entries| ==> t.reply.entries[k] == from + 1 + k)
            && (t.reply.more <==> t.reply.next < s.head)
            && (from < s.head ==> t.reply.next > from))
  {
    hide Play;
    Reached(acts);
    var w := Play(DAWN, acts);
    assert ReaderFits(w, c);
    SoundHead(w);
    hide SyncSound;
    RowsConsecutive(w.store, w.record.notes, w.clock, w.store.readers[c].cursor);
    if DeltaOf(w.store, c, sizes).Commit? {
      DeltaHands(w.store, w.record.notes, w.clock, c, sizes);
    }
    hide LogSound, RowsAbove, Fitting;
  }

  /* ----- frozen snapshots ----- */

  // A frozen list is fixed by the live set it was taken from: two lists of the same moment name
  // the same entries in the same order.
  lemma FrozenListUnique(s: Store, a: seq<Item>, b: seq<Item>, now: int)
    requires FrozenList(s, a, now) && FrozenList(s, b, now)
    ensures |a| == |b| && forall k :: 0 <= k < |a| ==> a[k].sequence == b[k].sequence && a[k].entry == b[k].entry
  {
    SameFrom(s, a, b, now, 0);
    hide Selected, Before;
  }

  lemma {:induction false} SameFrom(s: Store, a: seq<Item>, b: seq<Item>, now: int, k: nat)
    requires FrozenList(s, a, now) && FrozenList(s, b, now) && k <= |a| && k <= |b|
    requires forall m :: 0 <= m < k ==> a[m].sequence == b[m].sequence
    ensures |a| == |b| && forall m :: 0 <= m < |a| ==> a[m].sequence == b[m].sequence
    decreases |a| - k
  {
    hide FrozenList;
    Reaches(s, a, b, now, k);
    Reaches(s, b, a, now, k);
    if k < |a| {
      SameAt(s, a, b, now, k);
      SameFrom(s, a, b, now, k + 1);
    }
  }

  // Where one list goes on, so does the other.
  lemma Reaches(s: Store, a: seq<Item>, b: seq<Item>, now: int, k: nat)
    requires FrozenList(s, a, now) && FrozenList(s, b, now) && k <= |b|
    requires forall i :: 0 <= i < k && i < |a| ==> a[i].sequence == b[i].sequence
    ensures k < |a| ==> k < |b| && exists m :: k <= m < |b| && b[m].sequence == a[k].sequence
  {
    hide Selected;
    if k < |a| {
      assert Selected(s, a[k].sequence, now);
      var m :| 0 <= m < |b| && b[m].sequence == a[k].sequence;
      StrictAt(s, a, b, now, k, m);
    }
  }

  lemma SameAt(s: Store, a: seq<Item>, b: seq<Item>, now: int, k: nat)
    requires FrozenList(s, a, now) && FrozenList(s, b, now) && k < |a| && k < |b|
    requires exists m :: k <= m < |b| && b[m].sequence == a[k].sequence
    requires exists n :: k <= n < |a| && a[n].sequence == b[k].sequence
    ensures a[k].sequence == b[k].sequence
  {
    hide Selected;
    forall i | k < i < |b| ensures Before(b[k].sequence, b[k].entry, b[i].sequence, b[i].entry) {}
    forall i | k < i < |a| ensures Before(a[k].sequence, a[k].entry, a[i].sequence, a[i].entry) {}
  }

  // An entry of one list stands no earlier in the other than where they agree.
  lemma StrictAt(s: Store, a: seq<Item>, b: seq<Item>, now: int, k: nat, m: nat)
    requires FrozenList(s, a, now) && FrozenList(s, b, now) && k < |a| && m < |b|
    requires forall i :: 0 <= i < k && i < |b| ==> a[i].sequence == b[i].sequence
    requires b[m].sequence == a[k].sequence
    ensures m >= k
  {
    hide Selected;
    forall i | 0 <= i < k && i < |b| ensures b[i].sequence != a[k].sequence {
      assert Before(a[i].sequence, a[i].entry, a[k].sequence, a[k].entry);
    }
  }

  // One page read of snapshot sid in some later state of the same run.
  datatype PageRead = PageRead(acts: seq<Act>, c: string, token: int, claimed: Option<string>, now: int)

  ghost function Got(sid: string, r: PageRead): Txn<Page> {
    PageAt(Play(DAWN, r.acts).store, r.c, sid, r.token, r.claimed, r.now)
  }

  // Page reads that follow each other's tokens, each in a later state of the same service.
  ghost predicate Chained(sid: string, steps: seq<PageRead>) {
    && (forall k :: 0 <= k < |steps| ==> Got(sid, steps[k]).Commit? && Got(sid, steps[k]).reply.Frozen?)
    && (steps != [] ==> steps[0].token == 0)
    && (forall k :: 0 < k < |steps| ==> steps[k].token == Got(sid, steps[k - 1]).reply.next)
    && (forall k :: 0 < k < |steps| ==> steps[k - 1].acts <= steps[k].acts)
  }

  ghost function Together(sid: string, steps: seq<PageRead>): seq<Item>
    requires forall k :: 0 <= k < |steps| ==> Got(sid, steps[k]).Commit? && Got(sid, steps[k]).reply.Frozen?
    decreases |steps|
  {
    if steps == [] then [] else Together(sid, steps[..|steps| - 1]) + Got(sid, steps[|steps| - 1]).reply.items
  }

  lemma MintedStays(w: World, a: Act, sid: string)
    requires SyncSound(w) && sid in w.record.minted
    ensures sid in Do(w, a).record.minted && Do(w, a).record.minted[sid] == w.record.minted[sid]
  {
    hide Streams, PageAt, DeltaOf, After, AckSnapshot, ToldOf, PagesOf, Span, Members, Appends, FrozenList, Room, Prunable, HeldShots;
  }

  lemma {:induction false} MintedForever(w: World, acts: seq<Act>, sid: string)
    requires LogSound(w) && SyncSound(w) && sid in w.record.minted
    ensures sid in Play(w, acts).record.minted && Play(w, acts).record.minted[sid] == w.record.minted[sid]
    decreases |acts|
  {
    hide LogSound, SyncSound, Do;
    if acts != [] {
      MintedStays(w, acts[0], sid);
      SyncStep(w, acts[0]);
      LogStep(w, acts[0]);
      MintedForever(Do(w, acts[0]), acts[1..], sid);
    }
  }

  lemma {:induction false} PlayOn(w: World, first: seq<Act>, rest: seq<Act>)
    ensures Play(w, first + rest) == Play(Play(w, first), rest)
    decreases |first|
  {
    hide Do;
    if first == [] {
      assert first + rest == rest;
    } else {
      PlayOn(Do(w, first[0]), first[1..], rest);
      assert (first + rest)[1..] == first[1..] + rest;
    }
  }

  lemma ReadIsFrozen(sid: string, r: PageRead)
    requires Got(sid, r).Commit?
    ensures var w := Play(DAWN, r.acts); var p := Got(sid, r).reply;
      && sid in w.record.minted && p.Frozen?
      && var items := w.record.minted[sid].items; var first := Max(r.token, 0);
        && first + |p.items| <= |items| && p.items == items[first..first + |p.items|]
        && p.next == r.token + |p.items| && p.total == |items| && (p.more <==> p.next < |items|)
  {
    hide Play, LogSound;
    Reached(r.acts);
    var w := Play(DAWN, r.acts);
    assert ShotFits(w, sid);
    CommitsHeld(w.store, r.c, sid, r.token, r.claimed, r.now);
    PageHands(w.store, r.c, sid, r.token, r.claimed, r.now);
    hide PageAt, SyncSound;
  }

  lemma CommitsHeld(s: Store, c: string, sid: string, token: int, claimed: Option<string>, now: int)
    requires PageAt(s, c, sid, token, claimed, now).Commit?
    ensures sid in s.shots
  {}

  lemma SameMint(sid: string, a: PageRead, b: PageRead)
    requires Got(sid, a).Commit? && a.acts <= b.acts
    ensures var w, v := Play(DAWN, a.acts), Play(DAWN, b.acts);
      sid in w.record.minted && sid in v.record.minted && v.record.minted[sid] == w.record.minted[sid]
  {
    ReadIsFrozen(sid, a);
    hide Play, LogSound, SyncSound, Got;
    Reached(a.acts);
    var rest := b.acts[|a.acts|..];
    assert b.acts == a.acts + rest;
    PlayOn(DAWN, a.acts, rest);
    MintedForever(Play(DAWN, a.acts), rest, sid);
  }

  // Following page tokens from the start, through any interleaving of notes, withdrawals, expiry
  // and other readers, the pages put together are exactly the list that was frozen, up to the
  // last token; and when the last page says there is no more, the whole of it.
  lemma {:induction false} PagesConcatenate(sid: string, steps: seq<PageRead>)
    requires Chained(sid, steps) && steps != []
    ensures var last := steps[|steps| - 1]; var p := Got(sid, last).reply; var w := Play(DAWN, last.acts);
      && sid in w.record.minted && 0 <= p.next <= |w.record.minted[sid].items|
      && Together(sid, steps) == w.record.minted[sid].items[..p.next]
      && (!p.more ==> Together(sid, steps) == w.record.minted[sid].items)
    decreases |steps|
  {
    hide Got, Play, Chained;
    var init := steps[..|steps| - 1];
    if init != [] {
      ShorterChain(sid, steps);
      PagesConcatenate(sid, init);
    }
    LastPage(sid, steps);
    hide Together;
  }

  // One more page, after what the earlier ones put together.
  lemma LastPage(sid: string, steps: seq<PageRead>)
    requires Chained(sid, steps) && steps != []
    requires var init := steps[..|steps| - 1]; init != [] ==>
      var prior := init[|init| - 1]; var w := Play(DAWN, prior.acts); var next := Got(sid, prior).reply.next;
      sid in w.record.minted && 0 <= next <= |w.record.minted[sid].items| && Together(sid, init) == w.record.minted[sid].items[..next]
    ensures var last := steps[|steps| - 1]; var p := Got(sid, last).reply; var w := Play(DAWN, last.acts);
      && sid in w.record.minted && 0 <= p.next <= |w.record.minted[sid].items|
      && Together(sid, steps) == w.record.minted[sid].items[..p.next]
      && (!p.more ==> Together(sid, steps) == w.record.minted[sid].items)
  {
    hide Got, Play;
    var last := steps[|steps| - 1];
    var init := steps[..|steps| - 1];
    ReadIsFrozen(sid, last);
    if init != [] {
      SameMint(sid, init[|init| - 1], last);
      assert last.token == Got(sid, init[|init| - 1]).reply.next;
    }
    hide Chained;
    var items := Play(DAWN, last.acts).record.minted[sid].items;
    Joined(items, Together(sid, init), Got(sid, last).reply.items, last.token, Got(sid, last).reply.next);
    assert Together(sid, steps) == Together(sid, init) + Got(sid, last).reply.items;
  }

  lemma Joined(items: seq<Item>, first: seq<Item>, page: seq<Item>, token: int, next: int)
    requires 0 <= token <= next <= |items| && first == items[..token] && page == items[token..next]
    ensures first + page == items[..next]
    ensures next == |items| ==> first + page == items
  {}

  lemma ShorterChain(sid: string, steps: seq<PageRead>)
    requires Chained(sid, steps) && |steps| > 1
    ensures Chained(sid, steps[..|steps| - 1])
  {
    hide Got;
  }

  // A first acknowledgement succeeds only once every position was handed to this very reader,
  // and it moves the reader to the head the snapshot was frozen at.
  lemma FirstAckAfterAllPages(acts: seq<Act>, c: string, sid: string, now: int)
    requires var s := Play(DAWN, acts).store; c in s.readers && AckSnapshot(s, c, sid, now).Commit? && !AckSnapshot(s, c, sid, now).reply.replayed
    ensures var w := Play(DAWN, acts); var t := AckSnapshot(w.store, c, sid, now).store;
      && sid in w.record.minted && w.record.minted[sid].consumer == c
      && AllSent(PagesOf(w.record.pages, sid), |w.record.minted[sid].items|)
      && w.store.readers[c].cursor <= t.readers[c].cursor == w.record.minted[sid].head
  {
    hide Play, LogSound;
    Reached(acts);
    var w := Play(DAWN, acts);
    assert ShotFits(w, sid) && ReaderFits(w, c);
    AckMoves(w.store, c, sid, now);
    hide AckSnapshot, SyncSound;
  }

  // Every position below what a snapshot says was issued really went to its owner, even when
  // pages were asked for out of turn.
  lemma IssuedMeansSent(acts: seq<Act>, sid: string, p: int)
    ensures var w := Play(DAWN, acts);
      sid in w.store.shots && 0 <= p < w.store.shots[sid].issued ==>
        sid in w.record.minted && p in PagesOf(w.record.pages, sid) && p < |w.record.minted[sid].items| && w.store.shots[sid].items == w.record.minted[sid].items
  {
    hide Play, LogSound;
    Reached(acts);
    assert ShotFits(Play(DAWN, acts), sid);
  }
}
