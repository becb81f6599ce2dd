/** The byte budget: what stored data costs, what a transition is charged, and the admission
    that keeps room in reserve for withdrawals. */
module MemoryBudget {
  import opened Common
  import opened MemoryModel

  /* ----- sums over tables ----- */

  ghost function Sum<K>(m: map<K, int>): int
    decreases |m|
  {
    if m == map[] then 0
    else
      SomeKey(m);
      var k :| k in m;
      SmallerMap(m, k);
      m[k] + Sum(m - {k})
  }

  lemma SomeKey<K>(m: map<K, int>)
    requires m != map[]
    ensures exists k :: k in m
  {}

  lemma SmallerMap<K>(m: map<K, int>, k: K)
    requires k in m
    ensures |m - {k}| < |m|
  {
    assert (m - {k}).Keys == m.Keys - {k};
    assert |(m - {k}).Keys| == |m.Keys| - 1;
    assert |m - {k}| == |(m - {k}).Keys| && |m| == |m.Keys|;
  }

  lemma {:induction false} SumSplit<K>(m: map<K, int>, k: K)
    requires k in m
    ensures Sum(m) == m[k] + Sum(m - {k})
    decreases |m|
  {
    SomeKey(m);
    var j :| j in m && Sum(m) == m[j] + Sum(m - {j});
    if j != k {
      SmallerMap(m, j);
      SmallerMap(m, k);
      SumSplit(m - {j}, k);
      SumSplit(m - {k}, j);
      assert (m - {j}) - {k} == (m - {k}) - {j};
    }
  }

  lemma SumInsert<K>(m: map<K, int>, k: K, v: int)
    requires k !in m
    ensures Sum(m[k := v]) == Sum(m) + v
  {
    SumSplit(m[k := v], k);
    assert m[k := v] - {k} == m;
  }

  lemma SumUpdate<K>(m: map<K, int>, k: K, v: int)
    requires k in m
    ensures Sum(m[k := v]) == Sum(m) - m[k] + v
  {
    SumSplit(m, k);
    SumSplit(m[k := v], k);
    assert m[k := v] - {k} == m - {k};
  }

  // A table with fewer rows, none of them costlier, costs no more.
  lemma {:induction false} SumShrinks<K>(m: map<K, int>, n: map<K, int>)
    requires n.Keys <= m.Keys
    requires forall k :: k in m ==> m[k] >= 0
    requires forall k :: k in n ==> n[k] <= m[k]
    ensures Sum(n) <= Sum(m)
    decreases |m|
  {
    if m == map[] {
      assert n == map[];
    } else {
      SomeKey(m);
      var k :| k in m;
      SmallerMap(m, k);
      SumSplit(m, k);
      if k in n {
        SumSplit(n, k);
        SumShrinks(m - {k}, n - {k});
      } else {
        SumShrinks(m - {k}, n);
      }
    }
  }

  /* ----- what stored data costs ----- */

  function EntryCost(e: Entry): int {
    e.weight + ENTRY_OVERHEAD
  }

  function Width(s: string): int {
    |s|
  }

  function ItemsCost(items: seq<Item>): int
    decreases |items|
  {
    if items == [] then 0 else ItemsCost(items[..|items| - 1]) + items[|items| - 1].bytes
  }

  function ShotCost(id: string, h: Shot): int {
    ItemsCost(h.items) + Width(id) + Width(h.consumer) + 96
  }

  function EntryCosts(s: Store): map<int, int> {
    map q | q in s.entries :: EntryCost(s.entries[q])
  }

  function IdemCosts(s: Store): map<string, int> {
    map k | k in s.idem :: Width(k) + 64
  }

  function ReaderCosts(s: Store): map<string, int> {
    map k | k in s.readers :: Width(k) + 64
  }

  function GraveCosts(s: Store): map<string, int> {
    map k | k in s.graves :: Width(k) + 64
  }

  function ShotCosts(s: Store): map<string, int> {
    map k | k in s.shots :: ShotCost(k, s.shots[k])
  }

  // Logical usage: measured from every table, not from bodies alone.
  ghost function Usage(s: Store): int {
    Sum(EntryCosts(s)) + Sum(IdemCosts(s)) + Sum(ReaderCosts(s)) + Sum(GraveCosts(s)) + Sum(ShotCosts(s))
  }

  /* ----- what a transition is charged ----- */

  function NoteCharge(n: Note): int {
    n.weight + ENTRY_OVERHEAD + (if n.scoped.Some? then Width(n.scoped.value) + 64 else 0)
  }

  // Charged for the reader and for the grave it may turn into.
  function RegisterCharge(c: string): int {
    Width(c) + 64 + Width(c) + 64
  }

  function FreezeCharge(c: string, sid: string, items: seq<Item>): int {
    ItemsCost(items) + Width(sid) + Width(c) + 96
  }

  function EntryCap(control: bool): int {
    if control then MAX_ENTRIES else MAX_ENTRIES - RESERVED_ENTRIES
  }

  function ByteCap(control: bool): int {
    if control then MAX_LOGICAL else MAX_LOGICAL - RESERVED_BYTES
  }

  // What admission asks of the state a mutation starts from.
  ghost predicate Room(s: Store, need: int, slots: int, control: bool) {
    |s.entries| + slots <= EntryCap(control) && Usage(s) + need <= ByteCap(control)
  }

  // What enforcement asks of the state a mutation leaves.
  ghost predicate Enforced(s: Store, control: bool) {
    Usage(s) <= ByteCap(control)
  }

  // Room, in figures: five thousand entries and thirty-two mebibytes in all, of which the last
  // sixty-four entries and half a mebibyte are kept for withdrawals.
  lemma RoomEffect(s: Store, need: int, slots: int, control: bool)
    ensures Room(s, need, slots, control) <==>
      && |s.entries| + slots <= (if control then 5000 else 4936)
      && Usage(s) + need <= (if control then 33554432 else 33030144)
    ensures Enforced(s, control) <==> Usage(s) <= (if control then 33554432 else 33030144)
  {
    hide Usage;
  }

  // What each row is measured at, and each change charged.
  lemma CostEffect(s: Store, n: Note, c: string, sid: string, items: seq<Item>)
    ensures EntryCosts(s).Keys == s.entries.Keys && forall q :: q in s.entries ==> EntryCosts(s)[q] == s.entries[q].weight + 512
    ensures IdemCosts(s).Keys == s.idem.Keys && forall k :: k in s.idem ==> IdemCosts(s)[k] == |k| + 64
    ensures ReaderCosts(s).Keys == s.readers.Keys && forall k :: k in s.readers ==> ReaderCosts(s)[k] == |k| + 64
    ensures GraveCosts(s).Keys == s.graves.Keys && forall k :: k in s.graves ==> GraveCosts(s)[k] == |k| + 64
    ensures ShotCosts(s).Keys == s.shots.Keys
      && forall k :: k in s.shots ==> ShotCosts(s)[k] == ItemsCost(s.shots[k].items) + |k| + |s.shots[k].consumer| + 96
    ensures NoteCharge(n) == n.weight + 512 + (if n.scoped.Some? then |n.scoped.value| + 64 else 0)
    ensures RegisterCharge(c) == 2 * (|c| + 64)
    ensures FreezeCharge(c, sid, items) == ItemsCost(items) + |sid| + |c| + 96
  {
    hide ItemsCost;
  }

  // Usage is what all five tables cost together: an empty store costs nothing, and one more row of
  // any table costs exactly what that row does.
  lemma UsageGrows(s: Store, q: int, e: Entry, k: string, i: Idem, r: Reader, g: Grave, h: Shot)
    ensures Usage(NEW) == 0
    ensures q !in s.entries ==> Usage(s.(entries := s.entries[q := e])) == Usage(s) + e.weight + 512
    ensures k !in s.idem ==> Usage(s.(idem := s.idem[k := i])) == Usage(s) + |k| + 64
    ensures k !in s.readers ==> Usage(s.(readers := s.readers[k := r])) == Usage(s) + |k| + 64
    ensures k !in s.graves ==> Usage(s.(graves := s.graves[k := g])) == Usage(s) + |k| + 64
    ensures k !in s.shots ==> Usage(s.(shots := s.shots[k := h])) == Usage(s) + ItemsCost(h.items) + |k| + |h.consumer| + 96
  {
    hide Usage, ItemsCost;
    NoRows();
    EntryMore(s, q, e);
    IdemMore(s, k, i);
    ReaderMore(s, k, r);
    GraveMore(s, k, g);
    ShotMore(s, k, h);
  }

  lemma NoRows()
    ensures Usage(NEW) == 0
  {
    assert EntryCosts(NEW) == map[] && IdemCosts(NEW) == map[] && ReaderCosts(NEW) == map[] && GraveCosts(NEW) == map[] && ShotCosts(NEW) == map[];
    hide ItemsCost;
  }

  lemma EntryMore(s: Store, q: int, e: Entry)
    ensures q !in s.entries ==> Usage(s.(entries := s.entries[q := e])) == Usage(s) + e.weight + 512
  {
    var t := s.(entries := s.entries[q := e]);
    SameCosts(s, t);
    if q !in s.entries {
      SumInsert(EntryCosts(s), q, e.weight + 512);
      assert EntryCosts(t) == EntryCosts(s)[q := e.weight + 512];
    }
    hide Sum, IdemCosts, ReaderCosts, GraveCosts, ShotCosts;
  }

  lemma IdemMore(s: Store, k: string, i: Idem)
    ensures k !in s.idem ==> Usage(s.(idem := s.idem[k := i])) == Usage(s) + |k| + 64
  {
    hide ItemsCost;
    var t := s.(idem := s.idem[k := i]);
    SameCosts(s, t);
    if k !in s.idem {
      SumInsert(IdemCosts(s), k, |k| + 64);
      assert IdemCosts(t) == IdemCosts(s)[k := |k| + 64];
    }
    hide Sum, EntryCosts, ReaderCosts, GraveCosts, ShotCosts;
  }

  lemma ReaderMore(s: Store, k: string, r: Reader)
    ensures k !in s.readers ==> Usage(s.(readers := s.readers[k := r])) == Usage(s) + |k| + 64
  {
    hide ItemsCost;
    var t := s.(readers := s.readers[k := r]);
    SameCosts(s, t);
    if k !in s.readers {
      SumInsert(ReaderCosts(s), k, |k| + 64);
      assert ReaderCosts(t) == ReaderCosts(s)[k := |k| + 64];
    }
    hide Sum, EntryCosts, IdemCosts, GraveCosts, ShotCosts;
  }

  lemma GraveMore(s: Store, k: string, g: Grave)
    ensures k !in s.graves ==> Usage(s.(graves := s.graves[k := g])) == Usage(s) + |k| + 64
  {
    hide ItemsCost;
    var t := s.(graves := s.graves[k := g]);
    SameCosts(s, t);
    if k !in s.graves {
      SumInsert(GraveCosts(s), k, |k| + 64);
      assert GraveCosts(t) == GraveCosts(s)[k := |k| + 64];
    }
    hide Sum, EntryCosts, IdemCosts, ReaderCosts, ShotCosts;
  }

  lemma ShotMore(s: Store, k: string, h: Shot)
    ensures k !in s.shots ==> Usage(s.(shots := s.shots[k := h])) == Usage(s) + ItemsCost(h.items) + |k| + |h.consumer| + 96
  {
    hide ItemsCost;
    var t := s.(shots := s.shots[k := h]);
    SameCosts(s, t);
    if k !in s.shots {
      SumInsert(ShotCosts(s), k, ItemsCost(h.items) + |k| + |h.consumer| + 96);
      assert ShotCosts(t) == ShotCosts(s)[k := ItemsCost(h.items) + |k| + |h.consumer| + 96];
    }
    hide Sum, EntryCosts, IdemCosts, ReaderCosts, GraveCosts;
  }

  // The bytes of a frozen list are those of its items.
  lemma ItemsAdd(items: seq<Item>, more: Item)
    ensures ItemsCost([]) == 0 && ItemsCost(items + [more]) == ItemsCost(items) + more.bytes
  {
    assert (items + [more])[..|items|] == items;
  }

  /* ----- growth never exceeds the charge ----- */

  predicate CostsNatural(s: Store) {
    && (forall q :: q in s.entries ==> s.entries[q].weight >= 0)
    && (forall k :: k in s.shots ==> forall i :: i in s.shots[k].items ==> i.bytes >= 0)
  }

  lemma {:induction false} ItemsNatural(items: seq<Item>)
    requires forall i :: i in items ==> i.bytes >= 0
    ensures ItemsCost(items) >= 0
    decreases |items|
  {
    if items != [] {
      ItemsNatural(items[..|items| - 1]);
      assert items[|items| - 1] in items;
    }
  }

  lemma ShotNatural(s: Store, k: string)
    requires CostsNatural(s) && k in s.shots
    ensures ShotCosts(s)[k] >= 0
  {
    ItemsNatural(s.shots[k].items);
  }

  // Linking rows changes no cost.
  lemma LinkedCosts(entries: map<int, Entry>, n: Note, next: int, conflict: Option<int>)
    ensures var after := Linked(entries, n, next, conflict);
      after.Keys == entries.Keys && forall q :: q in entries ==> EntryCost(after[q]) == EntryCost(entries[q])
  {}

  lemma AppendEntryCosts(s: Store, n: Note, fts: bool)
    requires Append(s, n, fts).Commit? && s.head + 1 !in s.entries
    ensures EntryCosts(Append(s, n, fts).store) == EntryCosts(s)[s.head + 1 := n.weight + ENTRY_OVERHEAD]
  {
    LinkedCosts(s.entries[s.head + 1 := NewEntry(s, n)], n, s.head + 1, Conflict(s, n));
  }

  lemma IdemInsert(idem: map<string, Idem>, k: string, row: Idem)
    requires k !in idem
    ensures Sum(map x | x in idem[k := row] :: Width(x) + 64) == Sum(map x | x in idem :: Width(x) + 64) + Width(k) + 64
  {
    var before := map x | x in idem :: Width(x) + 64;
    SumInsert(before, k, Width(k) + 64);
    assert (map x | x in idem[k := row] :: Width(x) + 64) == before[k := Width(k) + 64];
  }

  lemma AppendTables(s: Store, n: Note, fts: bool)
    requires Append(s, n, fts).Commit?
    ensures var t := Append(s, n, fts).store;
      && t.readers == s.readers && t.graves == s.graves && t.shots == s.shots
      && t.idem == if n.scoped.Some? && n.deadline.Some? then s.idem[n.scoped.value := Idem(n.content, s.head + 1, n.deadline.value)] else s.idem
  {
    hide Linked, NewEntry, Conflict;
  }

  lemma SameCosts(s: Store, t: Store)
    ensures t.idem == s.idem ==> IdemCosts(t) == IdemCosts(s)
    ensures t.readers == s.readers ==> ReaderCosts(t) == ReaderCosts(s)
    ensures t.graves == s.graves ==> GraveCosts(t) == GraveCosts(s)
    ensures t.shots == s.shots ==> ShotCosts(t) == ShotCosts(s)
    ensures t.entries == s.entries ==> EntryCosts(t) == EntryCosts(s)
  {
    hide ShotCost, EntryCost;
  }

  // A note grows the store by exactly its charge.
  lemma NoteGrowsByCharge(s: Store, n: Note, fts: bool)
    requires Append(s, n, fts).Commit? && s.head + 1 !in s.entries
    requires Unrepeated(s, n)
    ensures Usage(Append(s, n, fts).store) == Usage(s) + NoteCharge(n)
  {
    var t := Append(s, n, fts).store;
    AppendEntryCosts(s, n, fts);
    SumInsert(EntryCosts(s), s.head + 1, n.weight + ENTRY_OVERHEAD);
    AppendTables(s, n, fts);
    SameCosts(s, t);
    if n.scoped.Some? {
      IdemInsert(s.idem, n.scoped.value, Idem(n.content, s.head + 1, n.deadline.value));
    }
    hide Append, Linked, NewEntry, Conflict, EntryCosts, ReaderCosts, GraveCosts, ShotCosts, Sum;
  }

  lemma ReaderInsert(readers: map<string, Reader>, k: string, row: Reader)
    requires k !in readers
    ensures Sum(map x | x in readers[k := row] :: Width(x) + 64) == Sum(map x | x in readers :: Width(x) + 64) + Width(k) + 64
  {
    var before := map x | x in readers :: Width(x) + 64;
    SumInsert(before, k, Width(k) + 64);
    assert (map x | x in readers[k := row] :: Width(x) + 64) == before[k := Width(k) + 64];
  }

  lemma RegisterGrowth(s: Store, c: string, now: int)
    requires Register(s, c, now).Commit? && c !in s.readers
    ensures Usage(Register(s, c, now).store) == Usage(s) + Width(c) + 64
  {
    var t := Register(s, c, now).store;
    assert t == s.(readers := s.readers[c := Registered(now)]);
    hide Register, EntryCosts, GraveCosts, ShotCosts, IdemCosts, Sum;
    SameCosts(s, t);
    ReaderInsert(s.readers, c, Registered(now));
  }

  lemma FreezeGrowth(s: Store, c: string, sid: string, items: seq<Item>, pruned: set<string>, now: int)
    requires c in s.readers && sid !in s.shots && CostsNatural(s) && forall i :: i in items ==> i.bytes >= 0
    ensures Usage(Freeze(s, c, sid, items, pruned, now)) <= Usage(s) + FreezeCharge(c, sid, items)
  {
    var t := Freeze(s, c, sid, items, pruned, now);
    var cost := FreezeCharge(c, sid, items);
    ItemsNatural(items);
    SumInsert(ShotCosts(s), sid, cost);
    var roomy := ShotCosts(s)[sid := cost];
    forall k | k in roomy ensures roomy[k] >= 0 {
      if k != sid { ShotNatural(s, k); }
    }
    SumShrinks(roomy, ShotCosts(t));
    assert ReaderCosts(t) == ReaderCosts(s);
    assert EntryCosts(t) == EntryCosts(s) && IdemCosts(t) == IdemCosts(s) && GraveCosts(t) == GraveCosts(s);
  }

  // A note that goes ahead brings a new key, or none.
  predicate Unrepeated(s: Store, n: Note) {
    n.scoped.Some? ==> n.scoped.value !in s.idem && n.deadline.Some?
  }

  // Whatever admission accepts, enforcement accepts: a note, a registration or a frozen
  // snapshot is never rolled back for the logical budget.
  lemma AdmittedIsEnforced(s: Store, n: Note, fts: bool, c: string, sid: string, items: seq<Item>, pruned: set<string>, now: int)
    requires CostsNatural(s) && s.head + 1 !in s.entries
    ensures Append(s, n, fts).Commit? && Unrepeated(s, n) && Room(s, NoteCharge(n), 1, Control(n)) ==>
              Enforced(Append(s, n, fts).store, Control(n))
    ensures Register(s, c, now).Commit? && c !in s.readers && Room(s, RegisterCharge(c), 0, false) ==>
              Enforced(Register(s, c, now).store, false)
    ensures c in s.readers && sid !in s.shots && (forall i :: i in items ==> i.bytes >= 0) && Room(s, FreezeCharge(c, sid, items), 0, false) ==>
              Enforced(Freeze(s, c, sid, items, pruned, now), false)
  {
    hide Usage, Append, Register, Freeze, FreezeCharge, NoteCharge;
    if Append(s, n, fts).Commit? && Unrepeated(s, n) {
      NoteGrowsByCharge(s, n, fts);
    }
    if Register(s, c, now).Commit? && c !in s.readers {
      RegisterGrowth(s, c, now);
    }
    if c in s.readers && sid !in s.shots && forall i :: i in items ==> i.bytes >= 0 {
      FreezeGrowth(s, c, sid, items, pruned, now);
    }
  }

  /* ----- expiry and retirement never grow the store ----- */

  lemma ExpireTables(s: Store, now: int, fts: bool)
    ensures var t := ExpireBatch(s, now, fts);
      && t.idem == s.idem && t.readers == s.readers && t.graves == s.graves && t.shots == s.shots
      && forall q :: q in t.entries ==> q in s.entries && t.entries[q] == s.entries[q]
  {
    hide LapsedRows, Lowest, Highest, IndexUsable;
  }

  lemma EntryCostsShrink(s: Store, t: Store)
    requires CostsNatural(s) && forall q :: q in t.entries ==> q in s.entries && t.entries[q] == s.entries[q]
    ensures Sum(EntryCosts(t)) <= Sum(EntryCosts(s))
  {
    var before, after := EntryCosts(s), EntryCosts(t);
    forall q | q in before ensures before[q] >= 0 { assert s.entries[q].weight >= 0; }
    forall q | q in after.Keys ensures q in before.Keys && after[q] <= before[q] { assert q in t.entries; }
    SumShrinks(before, after);
  }

  lemma ExpireShrinks(s: Store, now: int, fts: bool)
    requires CostsNatural(s)
    ensures Usage(ExpireBatch(s, now, fts)) <= Usage(s)
  {
    ExpireTables(s, now, fts);
    EntryCostsShrink(s, ExpireBatch(s, now, fts));
    SameCosts(s, ExpireBatch(s, now, fts));
    hide ExpireBatch, EntryCosts, IdemCosts, ReaderCosts, GraveCosts, ShotCosts, Sum;
  }

  function Part<K, V>(m: map<K, V>, keys: set<K>): map<K, V> {
    map k | k in keys && k in m :: m[k]
  }

  // Moving rows from one table to another of the same costs, over any they replace there.
  lemma {:induction false} MovedRows<K>(from: map<K, int>, to: map<K, int>, moved: set<K>)
    requires moved <= from.Keys
    requires forall k :: k in to && k in moved ==> to[k] == from[k]
    requires forall k :: k in from ==> from[k] >= 0
    ensures Sum(from - moved) + Sum(to + Part(from, moved)) <= Sum(from) + Sum(to)
    decreases |moved|
  {
    if moved == {} {
      assert Part(from, moved) == map[];
      assert from - moved == from && to + Part(from, moved) == to;
    } else {
      var c :| c in moved;
      var rest := moved - {c};
      MovedRows(from, to, rest);
      var kept := from - rest;
      assert from - moved == kept - {c};
      SumSplit(kept, c);
      var buried := to + Part(from, rest);
      assert to + Part(from, moved) == buried[c := from[c]];
      if c in buried {
        SumUpdate(buried, c, from[c]);
      } else {
        SumInsert(buried, c, from[c]);
      }
    }
  }

  lemma SweepShots(s: Store, now: int)
    requires CostsNatural(s)
    ensures Sum(ShotCosts(Sweep(s, now))) <= Sum(ShotCosts(s)) && Sum(IdemCosts(Sweep(s, now))) <= Sum(IdemCosts(s))
  {
    var t := Sweep(s, now);
    forall k | k in ShotCosts(s) ensures ShotCosts(s)[k] >= 0 { ShotNatural(s, k); }
    SumShrinks(ShotCosts(s), ShotCosts(t));
    SumShrinks(IdemCosts(s), IdemCosts(t));
  }

  lemma SweepReaders(s: Store, now: int)
    ensures var t := Sweep(s, now);
      Sum(ReaderCosts(t)) + Sum(GraveCosts(t)) <= Sum(ReaderCosts(s)) + Sum(GraveCosts(s))
  {
    var t := Sweep(s, now);
    var idle := IdleReaders(s.readers, now);
    SweepKeys(s, now);
    hide Sweep, ReaderIdle;
    MovedRows(ReaderCosts(s), GraveCosts(s), idle);
    ReadersKept(s, t, idle);
    GravesKept(s, t, idle);
    hide ReaderCosts, GraveCosts, Part, Sum;
  }

  lemma ReadersKept(s: Store, t: Store, idle: set<string>)
    requires t.readers.Keys == s.readers.Keys - idle
    ensures ReaderCosts(t) == ReaderCosts(s) - idle
  {
    assert ReaderCosts(t).Keys == t.readers.Keys && ReaderCosts(s).Keys == s.readers.Keys;
  }

  lemma GravesKept(s: Store, t: Store, idle: set<string>)
    requires t.graves.Keys <= s.graves.Keys + idle && idle <= s.readers.Keys
    ensures Sum(GraveCosts(t)) <= Sum(GraveCosts(s) + Part(ReaderCosts(s), idle))
  {
    var all := GraveCosts(s) + Part(ReaderCosts(s), idle);
    assert GraveCosts(t).Keys == t.graves.Keys && all.Keys == s.graves.Keys + idle;
    forall k | k in all ensures all[k] == Width(k) + 64 {}
    SumShrinks(all, GraveCosts(t));
  }

  lemma SweepKeys(s: Store, now: int)
    ensures var t := Sweep(s, now); var idle := IdleReaders(s.readers, now);
      t.readers.Keys == s.readers.Keys - idle && t.graves.Keys <= s.graves.Keys + idle && idle <= s.readers.Keys
  {
    hide ReaderIdle;
  }

  lemma SweepShrinks(s: Store, now: int)
    requires CostsNatural(s)
    ensures Usage(Sweep(s, now)) <= Usage(s)
  {
    SweepShots(s, now);
    SweepReaders(s, now);
    assert EntryCosts(Sweep(s, now)) == EntryCosts(s);
  }

  // Retiring an idle reader buries it: together they never outnumber what registration allowed.
  lemma SweepCounts(s: Store, now: int)
    ensures var t := Sweep(s, now);
      |t.readers| <= |s.readers| && |t.readers| + |t.graves| <= |s.readers| + |s.graves|
  {
    SweepKeys(s, now);
    var idle := IdleReaders(s.readers, now);
    hide Sweep;
    var t := Sweep(s, now);
    BuriedCounts(s.readers.Keys, s.graves.Keys, idle, t.readers.Keys, t.graves.Keys);
    assert |t.readers| == |t.readers.Keys| && |t.graves| == |t.graves.Keys| && |s.readers| == |s.readers.Keys| && |s.graves| == |s.graves.Keys|;
  }

  lemma BuriedCounts<K>(readers: set<K>, graves: set<K>, idle: set<K>, readers': set<K>, graves': set<K>)
    requires readers' == readers - idle && graves' <= graves + idle && idle <= readers
    ensures |readers'| <= |readers| && |readers'| + |graves'| <= |readers| + |graves|
  {
    assert readers == readers' + idle;
    assert |readers| == |readers'| + |idle|;
    SubsetSize(graves', graves + idle);
    assert graves + idle == graves + (idle - graves);
    SubsetSize(idle - graves, idle);
  }
}
