/** Choosing what a snapshot carries: live entries sorted by rank and then newest first, with the
    long tails of some kinds cut off by a running count. */
module MemoryFreeze {
  import opened Common
  import opened MemoryModel
  import opened MemoryRuns

  ghost predicate InOrder(entries: map<int, Entry>, sorted: seq<int>) {
    && (forall k :: 0 <= k < |sorted| ==> sorted[k] in entries)
    && (forall j, k :: 0 <= j < k < |sorted| ==> Before(sorted[j], entries[sorted[j]], sorted[k], entries[sorted[k]]))
  }

  lemma BeforeTotal(q: int, e: Entry, p: int, f: Entry)
    requires q != p
    ensures Before(q, e, p, f) || Before(p, f, q, e)
  {}

  lemma BeforeTransitive(q: int, e: Entry, p: int, f: Entry, o: int, g: Entry)
    requires Before(q, e, p, f) && Before(p, f, o, g)
    ensures Before(q, e, o, g)
  {}

  // Put one member in its place.
  method InsertMember(entries: map<int, Entry>, sorted: seq<int>, q: int) returns (longer: seq<int>)
    requires InOrder(entries, sorted) && q in entries && q !in sorted
    ensures InOrder(entries, longer) && forall x :: x in longer <==> x == q || x in sorted
  {
    var i := 0;
    while i < |sorted| && !Before(q, entries[q], sorted[i], entries[sorted[i]])
      invariant 0 <= i <= |sorted|
      invariant forall j :: 0 <= j < i ==> Before(sorted[j], entries[sorted[j]], q, entries[q])
    {
      assert sorted[i] in sorted;
      BeforeTotal(q, entries[q], sorted[i], entries[sorted[i]]);
      i := i + 1;
    }
    longer := sorted[..i] + [q] + sorted[i..];
    Inserted(entries, sorted, q, i);
  }

  lemma Inserted(entries: map<int, Entry>, sorted: seq<int>, q: int, i: nat)
    requires InOrder(entries, sorted) && q in entries && i <= |sorted|
    requires forall j :: 0 <= j < i ==> Before(sorted[j], entries[sorted[j]], q, entries[q])
    requires i < |sorted| ==> Before(q, entries[q], sorted[i], entries[sorted[i]])
    ensures var longer := sorted[..i] + [q] + sorted[i..];
      InOrder(entries, longer) && forall x :: x in longer <==> x == q || x in sorted
  {
    var longer := sorted[..i] + [q] + sorted[i..];
    hide Before;
    forall k | i <= k < |sorted| ensures Before(q, entries[q], sorted[k], entries[sorted[k]]) {
      if k > i {
        BeforeTransitive(q, entries[q], sorted[i], entries[sorted[i]], sorted[k], entries[sorted[k]]);
      }
    }
    forall k | 0 <= k < |longer| ensures longer[k] in entries {
      assert longer[k] == if k < i then sorted[k] else if k == i then q else sorted[k - 1];
    }
    forall j, k | 0 <= j < k < |longer| ensures Before(longer[j], entries[longer[j]], longer[k], entries[longer[k]]) {
      assert longer[j] == if j < i then sorted[j] else if j == i then q else sorted[j - 1];
      assert longer[k] == if k < i then sorted[k] else if k == i then q else sorted[k - 1];
    }
    forall x ensures x in longer <==> x == q || x in sorted {
      assert sorted == sorted[..i] + sorted[i..];
    }
  }

  method SortMembers(entries: map<int, Entry>, live: set<int>) returns (sorted: seq<int>)
    requires forall q :: q in live ==> q in entries
    ensures InOrder(entries, sorted) && forall q :: q in sorted <==> q in live
  {
    sorted := [];
    var todo := live;
    while todo != {}
      invariant todo <= live && InOrder(entries, sorted)
      invariant forall q :: q in sorted <==> q in live && q !in todo
      decreases |todo|
    {
      var q := Least(todo);
      sorted := InsertMember(entries, sorted, q);
      todo := todo - {q};
    }
  }

  // The members of one kind among the first k.
  function OfKind(entries: map<int, Entry>, sorted: seq<int>, k: nat, kind: Kind): set<int>
    requires k <= |sorted|
  {
    set q | q in sorted[..k] && q in entries && entries[q].kind == kind
  }

  // In a sorted list, the members of a kind before a place are the newer ones of that kind.
  lemma NewerComeFirst(s: Store, sorted: seq<int>, k: nat, now: int)
    requires InOrder(s.entries, sorted) && k < |sorted|
    requires forall q :: q in sorted <==> q in LiveSetAt(s, s.head, now)
    ensures Newer(s, sorted[k], s.head, now) == OfKind(s.entries, sorted, k, s.entries[sorted[k]].kind)
  {
    var q := sorted[k];
    var kind := s.entries[q].kind;
    hide LiveSetAt;
    forall p ensures p in Newer(s, q, s.head, now) <==> p in OfKind(s.entries, sorted, k, kind) {
      if p in Newer(s, q, s.head, now) {
        var m :| 0 <= m < |sorted| && sorted[m] == p;
        assert m != k;
        assert m > k ==> Before(sorted[k], s.entries[sorted[k]], sorted[m], s.entries[sorted[m]]);
        assert sorted[..k][m] == p;
      }
      if p in OfKind(s.entries, sorted, k, kind) {
        var m :| 0 <= m < k && sorted[m] == p;
        assert Before(sorted[m], s.entries[sorted[m]], sorted[k], s.entries[sorted[k]]);
        assert sorted[m] in sorted;
      }
    }
  }

  lemma OneMoreOfKind(entries: map<int, Entry>, sorted: seq<int>, k: nat, kind: Kind)
    requires InOrder(entries, sorted) && k < |sorted|
    ensures |OfKind(entries, sorted, k + 1, kind)| == |OfKind(entries, sorted, k, kind)| + (if entries[sorted[k]].kind == kind then 1 else 0)
  {
    var before, after := OfKind(entries, sorted, k, kind), OfKind(entries, sorted, k + 1, kind);
    assert sorted[..k + 1] == sorted[..k] + [sorted[k]];
    forall m | 0 <= m < k ensures sorted[m] != sorted[k] {
      assert Before(sorted[m], entries[sorted[m]], sorted[k], entries[sorted[k]]);
    }
    assert sorted[k] !in sorted[..k];
    if entries[sorted[k]].kind == kind {
      assert forall x :: x in after <==> x in before || x == sorted[k];
      assert after == before + {sorted[k]};
    } else {
      assert forall x :: x in after <==> x in before;
      assert after == before;
    }
  }

  function CountOf(tails: map<Kind, int>, kind: Kind): int {
    if kind in tails then tails[kind] else 0
  }

  // What the tail loop has chosen from the first k members.
  ghost predicate Chosen(s: Store, sorted: seq<int>, k: nat, items: seq<Item>, places: seq<int>, now: int)
    requires k <= |sorted|
  {
    && |places| == |items|
    && (forall j :: 0 <= j < |items| ==> 0 <= places[j] < k && items[j].sequence == sorted[places[j]] && items[j].bytes >= 0)
    && (forall j :: 0 <= j < |items| ==> items[j].sequence in s.entries && items[j].entry == s.entries[items[j].sequence]
                                         && Selected(s, items[j].sequence, now))
    && (forall i, j :: 0 <= i < j < |places| ==> places[i] < places[j])
    && (forall m {:trigger Selected(s, sorted[m], now)} :: 0 <= m < k && Selected(s, sorted[m], now) ==> m in places)
  }

  lemma ChosenAll(s: Store, sorted: seq<int>, items: seq<Item>, places: seq<int>, now: int)
    requires InOrder(s.entries, sorted) && Chosen(s, sorted, |sorted|, items, places, now)
    requires forall q :: q in sorted <==> q in LiveSetAt(s, s.head, now)
    ensures FrozenList(s, items, now)
  {
    hide Before, LiveSetAt;
    forall q | Selected(s, q, now) ensures exists k :: 0 <= k < |items| && items[k].sequence == q {
      SelectedLive(s, q, now);
      var m :| 0 <= m < |sorted| && sorted[m] == q;
      assert Selected(s, sorted[m], now);
      var j :| 0 <= j < |places| && places[j] == m;
      assert items[j].sequence == q;
    }
    hide Selected;
  }

  lemma SelectedLive(s: Store, q: int, now: int)
    requires Selected(s, q, now)
    ensures q in LiveSetAt(s, s.head, now)
  {}

  lemma ChosenTake(s: Store, sorted: seq<int>, k: nat, items: seq<Item>, places: seq<int>, item: Item, now: int)
    requires k < |sorted| && Chosen(s, sorted, k, items, places, now)
    requires item.sequence == sorted[k] && item.bytes >= 0 && sorted[k] in s.entries && item.entry == s.entries[sorted[k]]
    requires Selected(s, sorted[k], now)
    ensures Chosen(s, sorted, k + 1, items + [item], places + [k], now)
  {
    hide Selected;
    var after := places + [k];
    forall m | 0 <= m < k + 1 && Selected(s, sorted[m], now) ensures m in after {
      assert after[|places|] == k;
    }
  }

  lemma ChosenSkip(s: Store, sorted: seq<int>, k: nat, items: seq<Item>, places: seq<int>, now: int)
    requires k < |sorted| && Chosen(s, sorted, k, items, places, now) && !Selected(s, sorted[k], now)
    ensures Chosen(s, sorted, k + 1, items, places, now)
  {
    hide Selected;
  }

  // Whether a member survives the cut, by how many of its kind went before.
  lemma SelectedByCount(s: Store, sorted: seq<int>, k: nat, now: int)
    requires InOrder(s.entries, sorted) && k < |sorted|
    requires forall q :: q in sorted <==> q in LiveSetAt(s, s.head, now)
    ensures var kind := s.entries[sorted[k]].kind;
      Selected(s, sorted[k], now) <==> Tail(kind).None? || |OfKind(s.entries, sorted, k, kind)| < Tail(kind).value
  {
    NewerComeFirst(s, sorted, k, now);
    assert sorted[k] in sorted;
    hide LiveSetAt, Newer, OfKind;
  }

  // Sort the live entries, then take each unless its kind's tail is full.
  method SelectItems(s: Store, now: int, wire: (int, Entry) -> nat) returns (items: seq<Item>)
    ensures FrozenList(s, items, now)
  {
    hide Selected, Before, OfKind, LiveSetAt, FrozenList;
    var live := LiveSetAt(s, s.head, now);
    LiveInEntries(s, now);
    var sorted := SortMembers(s.entries, live);
    items := [];
    ghost var places := [];
    var tails: map<Kind, int> := map[];
    var k := 0;
    NoneOfKind(s.entries, sorted);
    while k < |sorted|
      invariant 0 <= k <= |sorted|
      invariant Chosen(s, sorted, k, items, places, now)
      invariant forall kind {:trigger CountOf(tails, kind)} :: Tail(kind).Some? ==> CountOf(tails, kind) == |OfKind(s.entries, sorted, k, kind)|
    {
      var q := sorted[k];
      var e := s.entries[q];
      var cap := Tail(e.kind);
      var full := false;
      SelectedByCount(s, sorted, k, now);
      CountsOn(s.entries, sorted, k);
      assert cap.Some? ==> CountOf(tails, e.kind) == |OfKind(s.entries, sorted, k, e.kind)|;
      ghost var counted := tails;
      if cap.Some? {
        tails := tails[e.kind := CountOf(tails, e.kind) + 1];
        full := tails[e.kind] > cap.value;
      }
      forall kind | Tail(kind).Some? ensures CountOf(tails, kind) == |OfKind(s.entries, sorted, k + 1, kind)| {
        assert CountOf(counted, kind) == |OfKind(s.entries, sorted, k, kind)|;
      }
      if full {
        ChosenSkip(s, sorted, k, items, places, now);
      } else {
        ChosenTake(s, sorted, k, items, places, Item(q, e, wire(q, e)), now);
        items := items + [Item(q, e, wire(q, e))];
        places := places + [k];
      }
      k := k + 1;
    }
    ChosenAll(s, sorted, items, places, now);
  }

  lemma LiveInEntries(s: Store, now: int)
    ensures forall q :: q in LiveSetAt(s, s.head, now) ==> q in s.entries
  {}

  lemma NoneOfKind(entries: map<int, Entry>, sorted: seq<int>)
    ensures forall kind {:trigger OfKind(entries, sorted, 0, kind)} :: |OfKind(entries, sorted, 0, kind)| == 0
  {
    forall kind ensures OfKind(entries, sorted, 0, kind) == {} {
      assert forall q :: q !in OfKind(entries, sorted, 0, kind);
    }
  }

  lemma CountsOn(entries: map<int, Entry>, sorted: seq<int>, k: nat)
    requires InOrder(entries, sorted) && k < |sorted|
    ensures forall kind {:trigger OfKind(entries, sorted, k + 1, kind)} ::
      |OfKind(entries, sorted, k + 1, kind)| == |OfKind(entries, sorted, k, kind)| + (if entries[sorted[k]].kind == kind then 1 else 0)
  {
    forall kind ensures |OfKind(entries, sorted, k + 1, kind)| == |OfKind(entries, sorted, k, kind)| + (if entries[sorted[k]].kind == kind then 1 else 0) {
      OneMoreOfKind(entries, sorted, k, kind);
    }
  }

  /* ----- what a list shows ----- */

  const ORDER: seq<Kind> := [Directive, Decision, Gotcha, Handoff, Finding, Status]

  // A frozen list shows a live entry unless twenty-five newer live ones of its kind, ten for a
  // status, come before it; directives, decisions and gotchas are shown without limit.
  lemma ListShows(s: Store, items: seq<Item>, now: int, q: int)
    requires FrozenList(s, items, now)
    ensures (exists k :: 0 <= k < |items| && items[k].sequence == q) <==>
      && q in LiveSetAt(s, s.head, now)
      && var newer := |set p | p in LiveSetAt(s, s.head, now) && s.entries[p].kind == s.entries[q].kind && p > q|;
         match s.entries[q].kind
         case Directive => true
         case Decision => true
         case Gotcha => true
         case Handoff => newer < 25
         case Finding => newer < 25
         case Status => newer < 10
  {
    hide LiveSetAt;
    if q in LiveSetAt(s, s.head, now) {
      LiveInEntries(s, now);
      assert Newer(s, q, s.head, now) == set p | p in LiveSetAt(s, s.head, now) && s.entries[p].kind == s.entries[q].kind && p > q;
    }
    hide Newer, Before;
    if k :| 0 <= k < |items| && items[k].sequence == q {
      assert Selected(s, items[k].sequence, now);
    }
    assert (exists k :: 0 <= k < |items| && items[k].sequence == q) <==> Selected(s, q, now);
  }

  // Kinds follow one another in this order, and within a kind the newest comes first. Each item
  // carries the entry as it is stored.
  lemma ListOrder(s: Store, items: seq<Item>, now: int, j: nat, k: nat, a: nat, b: nat)
    requires FrozenList(s, items, now) && j < k < |items| && a < 6 && b < 6
    requires items[j].entry.kind == ORDER[a] && items[k].entry.kind == ORDER[b]
    ensures a <= b && (a == b ==> items[j].sequence > items[k].sequence)
    ensures items[k].sequence in s.entries && items[k].entry == s.entries[items[k].sequence]
  {
    assert Before(items[j].sequence, items[j].entry, items[k].sequence, items[k].entry);
    assert Selected(s, items[k].sequence, now);
  }
}
