/** The reserve over whole runs: budgets hold in every reachable state, and ordinary mutations
    alone always leave room for withdrawals. */
module MemoryReserve {
  import opened Common
  import opened MemoryModel
  import opened MemoryBudget
  import opened MemoryRuns
  import opened MemoryLog

  ghost predicate WithinBudget(s: Store, plain: bool) {
    && |s.entries| <= EntryCap(!plain) && Usage(s) <= ByteCap(!plain)
    && |s.readers| <= MAX_CONSUMERS && |s.readers| + |s.graves| <= MAX_CONSUMERS + MAX_RETIRED
    && CostsNatural(s)
  }

  ghost predicate BudgetSound(w: World) {
    WithinBudget(w.store, w.record.plain)
  }

  // Two states whose tables cost the same.
  predicate SameShape(s: Store, t: Store) {
    && t.entries == s.entries && t.idem == s.idem && t.graves == s.graves
    && t.readers.Keys == s.readers.Keys && t.shots.Keys == s.shots.Keys
    && forall k :: k in s.shots ==> t.shots[k].items == s.shots[k].items && t.shots[k].consumer == s.shots[k].consumer
  }

  lemma ReaderCostsByKeys(s: Store, t: Store)
    requires t.readers.Keys == s.readers.Keys
    ensures ReaderCosts(t) == ReaderCosts(s) && |t.readers| == |s.readers|
  {
    assert |t.readers| == |t.readers.Keys| && |s.readers| == |s.readers.Keys|;
    assert forall k :: k in t.readers <==> k in t.readers.Keys;
    assert forall k :: k in s.readers <==> k in s.readers.Keys;
  }

  lemma ShotCostsByShape(s: Store, t: Store)
    requires t.shots.Keys == s.shots.Keys
    requires forall k :: k in s.shots ==> t.shots[k].items == s.shots[k].items && t.shots[k].consumer == s.shots[k].consumer
    ensures ShotCosts(t) == ShotCosts(s)
  {
    hide ItemsCost, Width;
    assert forall k :: k in t.shots <==> k in t.shots.Keys;
    assert forall k :: k in s.shots <==> k in s.shots.Keys;
  }

  lemma ShapeWithin(s: Store, t: Store, plain: bool)
    requires WithinBudget(s, plain) && SameShape(s, t)
    ensures WithinBudget(t, plain)
  {
    ReaderCostsByKeys(s, t);
    ShotCostsByShape(s, t);
    SameCosts(s, t);
    hide ReaderCosts, ShotCosts, EntryCosts, IdemCosts, GraveCosts, Sum;
    forall k | k in t.shots ensures forall i :: i in t.shots[k].items ==> i.bytes >= 0 {
      assert k in s.shots.Keys;
    }
  }

  lemma Shapes(w: World, a: Act)
    requires Upkeep(a) || a.Paging? || a.Streaming? || a.AckingSnapshot? || a.AckingThrough? || a.Touching? || a.Clearing?
    ensures SameShape(w.store, After(w, a))
  {
    if Upkeep(a) {
      UpkeepOnly(w, a);
      hide After;
    } else {
      ReadersOnly(w, a);
      ReaderKeys(w, a);
      ShotShapes(w, a);
      hide After;
    }
  }

  lemma ReaderKeys(w: World, a: Act)
    requires a.Paging? || a.Streaming? || a.AckingSnapshot? || a.AckingThrough? || a.Touching? || a.Clearing?
    ensures After(w, a).readers.Keys == w.store.readers.Keys
  {
    hide Unusable, NeedsSnapshot, RowsAbove, Fitting, Oversize;
    match a
    case Paging(c, token, claimed, now) =>
    case Streaming(c, sizes) =>
    case AckingSnapshot(c, sid, now) =>
    case AckingThrough(c, through) =>
    case Touching(c, now) =>
    case Clearing(c, now) =>
  }

  lemma ShotShapes(w: World, a: Act)
    requires a.Paging? || a.Streaming? || a.AckingSnapshot? || a.AckingThrough? || a.Touching? || a.Clearing?
    ensures var s, t := w.store, After(w, a);
      t.shots.Keys == s.shots.Keys
      && forall k :: k in s.shots ==> t.shots[k].items == s.shots[k].items && t.shots[k].consumer == s.shots[k].consumer
  {
    hide Unusable, NeedsSnapshot, RowsAbove, Fitting, Oversize;
    match a
    case Paging(c, token, claimed, now) =>
    case Streaming(c, sizes) =>
    case AckingSnapshot(c, sid, now) =>
    case AckingThrough(c, through) =>
    case Touching(c, now) =>
    case Clearing(c, now) =>
  }

  lemma PlainKept(w: World, a: Act)
    requires !a.Noting?
    ensures Observe(w, a).plain == w.record.plain
  {
    hide Freezes, Streams, PageAt, DeltaOf, After, AckSnapshot, ToldOf, PagesOf, Span, Members;
  }

  lemma AppendNatural(s: Store, n: Note, fts: bool)
    requires CostsNatural(s) && Append(s, n, fts).Commit? && n.weight >= 0
    ensures CostsNatural(Append(s, n, fts).store)
  {
    hide Conflict;
    AppendTables(s, n, fts);
  }

  lemma AppendCount(s: Store, n: Note, fts: bool)
    requires Append(s, n, fts).Commit?
    ensures |Append(s, n, fts).store.entries| <= |s.entries| + 1
  {
    hide Linked, Conflict, NewEntry;
    var before := s.entries[s.head + 1 := NewEntry(s, n)];
    LinkedCosts(before, n, s.head + 1, Conflict(s, n));
    var t := Append(s, n, fts).store;
    hide Append;
    assert t.entries.Keys == before.Keys;
    assert before.Keys == s.entries.Keys + {s.head + 1};
    assert |t.entries| == |t.entries.Keys| && |s.entries| == |s.entries.Keys|;
  }

  // An admitted note leaves the store within the same caps it was admitted under.
  lemma AppendWithin(s: Store, n: Note, fts: bool, plain: bool)
    requires WithinBudget(s, plain) && s.head + 1 !in s.entries && Append(s, n, fts).Commit? && Unrepeated(s, n) && n.weight >= 0
    requires Room(s, NoteCharge(n), 1, Control(n))
    ensures WithinBudget(Append(s, n, fts).store, plain && !Control(n))
  {
    NoteGrowsByCharge(s, n, fts);
    AppendNatural(s, n, fts);
    AppendCount(s, n, fts);
    AppendTables(s, n, fts);
    hide Append, Usage, CostsNatural, NoteCharge, Control;
  }

  lemma ProceedsUnrepeated(s: Store, n: Note, now: int)
    requires Precheck(s, n, now).Proceed?
    ensures Unrepeated(s, n)
  {}

  lemma NotingBudget(w: World, n: Note, now: int)
    requires LogSound(w) && BudgetSound(w)
    ensures BudgetSound(Do(w, Noting(n, now)))
  {
    assert Fits(w.store, w.record.notes, w.clock, w.store.head + 1);
    hide LogSound, Append, WithinBudget, Room, Control, NoteCharge, Precheck, Unrepeated;
    if Timely(w, Noting(n, now)) && Serves(w) && Appends(w, n, now) {
      ProceedsUnrepeated(w.store, n, now);
      AppendWithin(w.store, n, w.process.engine, w.record.plain);
    }
  }

  lemma ExpireCount(s: Store, now: int, fts: bool)
    ensures |ExpireBatch(s, now, fts).entries| <= |s.entries|
  {
    ExpireTables(s, now, fts);
    var t := ExpireBatch(s, now, fts);
    hide ExpireBatch;
    forall q | q in t.entries.Keys ensures q in s.entries.Keys { assert q in t.entries; }
    SubsetSize(t.entries.Keys, s.entries.Keys);
  }

  lemma ExpireWithin(s: Store, now: int, fts: bool, plain: bool)
    requires WithinBudget(s, plain)
    ensures WithinBudget(ExpireBatch(s, now, fts), plain)
  {
    ExpireShrinks(s, now, fts);
    ExpireCount(s, now, fts);
    ExpireTables(s, now, fts);
    hide ExpireBatch, Usage;
  }

  lemma ExpiringBudget(w: World, now: int)
    requires BudgetSound(w)
    ensures BudgetSound(Do(w, Expiring(now)))
  {
    hide ExpireBatch, WithinBudget;
    if Serves(w) {
      ExpireWithin(w.store, now, w.process.engine, w.record.plain);
    }
  }

  lemma SweepNatural(s: Store, now: int)
    requires CostsNatural(s)
    ensures CostsNatural(Sweep(s, now))
  {
    hide ReaderIdle, ShotLapsed;
  }

  lemma SweepWithin(s: Store, now: int, plain: bool)
    requires WithinBudget(s, plain)
    ensures WithinBudget(Sweep(s, now), plain)
  {
    SweepShrinks(s, now);
    SweepCounts(s, now);
    SweepNatural(s, now);
    SweepEntries(s, now);
    hide Sweep, Usage, CostsNatural;
  }

  lemma SweepingBudget(w: World, now: int)
    requires BudgetSound(w)
    ensures BudgetSound(Do(w, Sweeping(now)))
  {
    hide Sweep, WithinBudget;
    SweepWithin(w.store, now, w.record.plain);
  }

  lemma SweepEntries(s: Store, now: int)
    ensures Sweep(s, now).entries == s.entries
  {}

  lemma RegisterCounts(s: Store, c: string, now: int)
    requires Register(s, c, now).Commit? && c !in s.readers
    ensures var t := Register(s, c, now).store;
      && |t.readers| == |s.readers| + 1 && t == s.(readers := t.readers)
      && |s.readers| < MAX_CONSUMERS && |s.readers| + |s.graves| < MAX_CONSUMERS + MAX_RETIRED
  {
    var t := Register(s, c, now).store;
    OneMore(s.readers, c, Registered(now));
  }

  lemma OneMore<K, V>(m: map<K, V>, k: K, v: V)
    requires k !in m
    ensures |m[k := v]| == |m| + 1
  {
    assert m[k := v].Keys == m.Keys + {k};
    assert |m[k := v]| == |m[k := v].Keys| && |m| == |m.Keys|;
  }

  lemma RegisteringBudget(w: World, c: string, now: int)
    requires BudgetSound(w)
    ensures BudgetSound(Do(w, Registering(c, now)))
  {
    var a := Registering(c, now);
    PlainKept(w, a);
    if Timely(w, a) && Serves(w) && c !in w.store.readers && Register(w.store, c, now).Commit? && Room(w.store, RegisterCharge(c), 0, false) {
      RegisterGrowth(w.store, c, now);
      RegisterCounts(w.store, c, now);
      hide Register, Usage, CostsNatural;
      NaturalByTables(w.store, Register(w.store, c, now).store);
    }
  }

  lemma NaturalByTables(s: Store, t: Store)
    requires CostsNatural(s) && t.entries == s.entries && t.shots == s.shots
    ensures CostsNatural(t)
  {}

  lemma FrozenNatural(s: Store, items: seq<Item>, now: int)
    requires FrozenList(s, items, now)
    ensures forall i :: i in items ==> i.bytes >= 0
  {
    forall i | i in items ensures i.bytes >= 0 {
      var k :| 0 <= k < |items| && items[k] == i;
    }
  }

  lemma FreezeNatural(s: Store, c: string, sid: string, items: seq<Item>, pruned: set<string>, now: int)
    requires CostsNatural(s) && c in s.readers && forall i :: i in items ==> i.bytes >= 0
    ensures CostsNatural(Freeze(s, c, sid, items, pruned, now))
    ensures |Freeze(s, c, sid, items, pruned, now).readers| == |s.readers|
  {
    var t := Freeze(s, c, sid, items, pruned, now);
    assert t.readers.Keys == s.readers.Keys;
    assert |t.readers| == |t.readers.Keys| && |s.readers| == |s.readers.Keys|;
  }

  lemma FreezingBudget(w: World, c: string, sid: string, items: seq<Item>, pruned: set<string>, now: int)
    requires BudgetSound(w) && (forall k :: k in w.store.shots ==> k in w.record.minted)
    ensures BudgetSound(Do(w, Freezing(c, sid, items, pruned, now)))
  {
    var a := Freezing(c, sid, items, pruned, now);
    PlainKept(w, a);
    if Timely(w, a) && Serves(w) && Freezes(w, c, sid, items, pruned, now) {
      FrozenNatural(w.store, items, now);
      hide FrozenList, Prunable, HeldShots, NeedsSnapshot;
      FreezeGrowth(w.store, c, sid, items, pruned, now);
      FreezeNatural(w.store, c, sid, items, pruned, now);
      FreezeTables(w.store, c, sid, items, pruned, now);
      hide Freeze, Usage, CostsNatural, FreezeCharge;
    }
  }

  lemma FreezeTables(s: Store, c: string, sid: string, items: seq<Item>, pruned: set<string>, now: int)
    requires c in s.readers
    ensures Freeze(s, c, sid, items, pruned, now).entries == s.entries && Freeze(s, c, sid, items, pruned, now).graves == s.graves
  {}

  ghost predicate Minted(w: World) {
    forall k :: k in w.store.shots ==> k in w.record.minted
  }

  lemma MintedShots(s: Store, t: Store, minted: map<string, Shot>)
    requires forall k :: k in s.shots ==> k in minted
    requires t.shots.Keys <= s.shots.Keys
    ensures forall k :: k in t.shots ==> k in minted
  {
    forall k | k in t.shots ensures k in minted { assert k in t.shots.Keys; }
  }

  lemma MintedStep(w: World, a: Act)
    requires Minted(w)
    ensures Minted(Do(w, a))
  {
    MintedGrows(w, a);
    if a.Freezing? {
      FreezingMints(w, a);
    } else {
      ShotsShrink(w, a);
      MintedShots(w.store, After(w, a), w.record.minted);
    }
    hide After, Observe;
  }

  lemma MintedGrows(w: World, a: Act)
    ensures forall k :: k in w.record.minted ==> k in Observe(w, a).minted
  {
    hide Freezes, Streams, PageAt, DeltaOf, After, AckSnapshot, ToldOf, PagesOf, Span, Members, Appends;
  }

  lemma FreezingMints(w: World, a: Act)
    requires a.Freezing? && Minted(w)
    ensures forall k :: k in After(w, a).shots ==> k in Observe(w, a).minted
  {
    hide Freezes;
  }

  lemma ShotsShrink(w: World, a: Act)
    requires !a.Freezing?
    ensures After(w, a).shots.Keys <= w.store.shots.Keys
  {
    if a.Sweeping? {
      hide ReaderIdle, ShotLapsed;
    } else if a.Noting? {
      NoteOnly(w, a);
      hide After;
    } else if a.Expiring? {
      ExpireOnly(w, a);
      hide After;
    } else if a.Registering? {
      hide Room, RegisterCharge;
    } else {
      Shapes(w, a);
      hide After;
    }
  }

  lemma BudgetStep(w: World, a: Act)
    requires LogSound(w) && BudgetSound(w) && Minted(w)
    ensures BudgetSound(Do(w, a))
  {
    match a
    case Noting(n, now) => NotingBudget(w, n, now);
    case Expiring(now) => ExpiringBudget(w, now);
    case Sweeping(now) => SweepingBudget(w, now);
    case Registering(c, now) => RegisteringBudget(w, c, now);
    case Freezing(c, sid, items, pruned, now) => FreezingBudget(w, c, sid, items, pruned, now);
    case _ =>
      Shapes(w, a);
      PlainKept(w, a);
      ShapeWithin(w.store, After(w, a), w.record.plain);
      hide After, Observe, WithinBudget;
  }

  lemma {:induction false} BudgetRuns(w: World, acts: seq<Act>)
    requires LogSound(w) && BudgetSound(w) && Minted(w)
    ensures BudgetSound(Play(w, acts)) && LogSound(Play(w, acts)) && Minted(Play(w, acts))
    decreases |acts|
  {
    hide LogSound, BudgetSound, Do, Minted;
    if acts != [] {
      BudgetStep(w, acts[0]);
      LogStep(w, acts[0]);
      MintedStep(w, acts[0]);
      BudgetRuns(Do(w, acts[0]), acts[1..]);
    }
  }

  // Every reachable state is within its budgets; and as long as no withdrawal drew on it, the
  // reserved slots and bytes are still free.
  lemma BudgetsHold(acts: seq<Act>)
    ensures var w := Play(DAWN, acts); var s := w.store;
      && |s.entries| <= MAX_ENTRIES && Usage(s) <= MAX_LOGICAL
      && |s.readers| <= MAX_CONSUMERS && |s.readers| + |s.graves| <= MAX_CONSUMERS + MAX_RETIRED
      && (w.record.plain ==> |s.entries| + RESERVED_ENTRIES <= MAX_ENTRIES && Usage(s) + RESERVED_BYTES <= MAX_LOGICAL)
  {
    hide LogSound, Play;
    DawnSound();
    EmptyUsage();
    BudgetRuns(DAWN, acts);
    hide Usage;
  }

  lemma NextIsNew(w: World)
    requires LogSound(w)
    ensures w.store.head + 1 !in w.store.entries
  {
    assert Fits(w.store, w.record.notes, w.clock, w.store.head + 1);
  }

  // In every reachable state whatever admission accepts, enforcement accepts: no note, registration
  // or snapshot is ever rolled back for the logical budget.
  lemma NeverRolledBack(acts: seq<Act>, n: Note, c: string, sid: string, items: seq<Item>, pruned: set<string>, now: int)
    ensures var w := Play(DAWN, acts); var s := w.store;
      && (Appends(w, n, now) ==> Enforced(Append(s, n, w.process.Running? && w.process.engine).store, Control(n)))
      && (Register(s, c, now).Commit? && c !in s.readers && Room(s, RegisterCharge(c), 0, false) ==> Enforced(Register(s, c, now).store, false))
      && (Freezes(w, c, sid, items, pruned, now) ==> Enforced(Freeze(s, c, sid, items, pruned, now), false))
  {
    hide LogSound, Play;
    DawnSound();
    EmptyUsage();
    BudgetRuns(DAWN, acts);
    var w := Play(DAWN, acts);
    NextIsNew(w);
    hide Usage, Append, Register, Freeze, Enforced, Control, NoteCharge, RegisterCharge, FreezeCharge, Precheck;
    if Appends(w, n, now) {
      ProceedsUnrepeated(w.store, n, now);
    }
    if Freezes(w, c, sid, items, pruned, now) {
      FrozenNatural(w.store, items, now);
    }
    hide Room, Appends, Freezes;
    AdmittedIsEnforced(w.store, n, w.process.Running? && w.process.engine, c, sid, items, pruned, now);
  }

  lemma EmptySum<K>(m: map<K, int>)
    requires m == map[]
    ensures Sum(m) == 0
  {}

  lemma CostFree(s: Store)
    requires s.entries == map[] && s.idem == map[] && s.readers == map[] && s.graves == map[] && s.shots == map[]
    ensures Usage(s) == 0
  {
    NoEntries(s);
    EmptySum(EntryCosts(s));
    EmptySum(IdemCosts(s));
    EmptySum(ReaderCosts(s));
    EmptySum(GraveCosts(s));
    EmptySum(ShotCosts(s));
    hide Sum, EntryCosts, IdemCosts, ReaderCosts, GraveCosts, ShotCosts;
  }

  lemma NoEntries(s: Store)
    requires s.entries == map[] && s.idem == map[] && s.readers == map[] && s.graves == map[] && s.shots == map[]
    ensures EntryCosts(s) == map[] && IdemCosts(s) == map[] && ReaderCosts(s) == map[] && GraveCosts(s) == map[] && ShotCosts(s) == map[]
  {
    hide Sum, EntryCost, ShotCost;
  }

  lemma EmptyWithin(s: Store)
    requires s.entries == map[] && s.idem == map[] && s.readers == map[] && s.graves == map[] && s.shots == map[]
    ensures WithinBudget(s, true)
  {
    CostFree(s);
    hide Usage;
  }

  lemma EmptyUsage()
    ensures BudgetSound(DAWN)
  {
    hide WithinBudget;
    EmptyWithin(NEW);
  }
}
