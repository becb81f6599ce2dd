/** Expiry in batches: however many batches it takes, the rows that go, the recovery boundary and
    the index end as if everything lapsed had been removed at once. */
module MemoryExpiry {
  import opened Common
  import opened MemoryModel

  // Everything past its lifetime, removed at once.
  function OneShot(s: Store, now: int, fts: bool): Store {
    var lapsed := LapsedRows(s, now);
    if lapsed == {} then s else Forget(Unindex(s, lapsed, fts), lapsed, fts)
  }

  lemma BatchFacts(s: Store, now: int)
    ensures var lapsed := LapsedRows(s, now); var batch := Members(Lowest(lapsed, EXPIRY_BATCH));
      && batch <= lapsed && (lapsed != {} ==> batch != {}) && |batch| <= EXPIRY_BATCH
  {
    var lapsed := LapsedRows(s, now);
    var rows := Lowest(lapsed, EXPIRY_BATCH);
    LowestWithin(lapsed, EXPIRY_BATCH);
    LowestFacts(lapsed, EXPIRY_BATCH);
    hide Lowest;
    forall q | q in Members(rows) ensures q in lapsed {
      var k :| 0 <= k < |rows| && rows[k] == q;
    }
    if lapsed != {} {
      assert |rows| > 0;
      assert rows[0] in Members(rows);
    }
    MembersFew(rows);
  }

  lemma {:induction false} MembersFew(rows: seq<int>)
    ensures |Members(rows)| <= |rows|
    decreases |rows|
  {
    if rows != [] {
      var init := rows[..|rows| - 1];
      MembersFew(init);
      assert forall q :: q in rows <==> q in init || q == rows[|rows| - 1];
      assert Members(rows) == Members(init) + {rows[|rows| - 1]};
    } else {
      assert Members(rows) == {};
    }
  }

  lemma LapsedAfter(s: Store, batch: set<int>, now: int, fts: bool)
    requires batch != {} && batch <= LapsedRows(s, now)
    ensures LapsedRows(Forget(Unindex(s, batch, fts), batch, fts), now) == LapsedRows(s, now) - batch
  {
    hide Highest, IndexUsable;
    var t := Forget(Unindex(s, batch, fts), batch, fts);
    assert t.entries == s.entries - batch;
    assert forall q :: q in LapsedRows(t, now) <==> q in LapsedRows(s, now) - batch;
  }

  lemma HighestJoin(a: set<int>, b: set<int>)
    requires a != {} && b != {}
    ensures a + b != {} && Highest(a + b) == Max(Highest(a), Highest(b))
  {
    assert Highest(a) in a + b && Highest(b) in a + b;
  }

  // Two batches in turn are one larger batch.
  lemma ForgetTwice(s: Store, a: set<int>, b: set<int>, fts: bool)
    requires a != {} && b != {}
    ensures a + b != {}
    ensures var mid := Forget(Unindex(s, a, fts), a, fts);
      Forget(Unindex(mid, b, fts), b, fts) == Forget(Unindex(s, a + b, fts), a + b, fts)
  {
    HighestJoin(a, b);
    hide Highest;
    DropTwice(s.entries, a, b);
    DropTwice(s.search, a, b);
    var mid := Forget(Unindex(s, a, fts), a, fts);
    assert IndexUsable(mid, fts) == IndexUsable(s, fts);
    if IndexUsable(s, fts) {
      assert mid == s.(entries := s.entries - a, search := s.search - a, floor := mid.floor);
    } else {
      assert mid == s.(entries := s.entries - a, floor := mid.floor, indexed := mid.indexed);
    }
  }

  lemma DropTwice<V>(m: map<int, V>, a: set<int>, b: set<int>)
    ensures (m - a) - b == m - (a + b)
  {}

  function ExpireAll(s: Store, now: int, fts: bool): Store
    decreases |LapsedRows(s, now)|
  {
    var batch := Members(Lowest(LapsedRows(s, now), EXPIRY_BATCH));
    BatchFacts(s, now);
    if batch == {} then s
    else
      LapsedAfter(s, batch, now, fts);
      Shrinks(LapsedRows(s, now), batch);
      ExpireAll(Forget(Unindex(s, batch, fts), batch, fts), now, fts)
  }

  lemma Shrinks(a: set<int>, b: set<int>)
    requires b <= a && b != {}
    ensures |a - b| < |a|
  {
    assert a == (a - b) + b;
    assert |a| == |a - b| + |b|;
    SubsetSize({Least(b)}, b);
  }

  // Batched expiry is one-shot expiry.
  lemma {:induction false} BatchesAddUp(s: Store, now: int, fts: bool)
    ensures ExpireAll(s, now, fts) == OneShot(s, now, fts)
    decreases |LapsedRows(s, now)|
  {
    var lapsed := LapsedRows(s, now);
    var batch := Members(Lowest(lapsed, EXPIRY_BATCH));
    BatchFacts(s, now);
    hide Lowest;
    if batch != {} {
      var mid := Forget(Unindex(s, batch, fts), batch, fts);
      LapsedAfter(s, batch, now, fts);
      Shrinks(lapsed, batch);
      BatchesAddUp(mid, now, fts);
      hide LapsedRows, Forget, Unindex;
      if lapsed - batch != {} {
        ForgetTwice(s, batch, lapsed - batch, fts);
        assert batch + (lapsed - batch) == lapsed;
      } else {
        assert lapsed == batch;
      }
    }
  }

  // A batch takes its postings along where that fits, and gives the index up first where not.
  function BatchWith(s: Store, now: int, fts: bool, fits: bool): Store {
    ExpireBatch(if fits then s else Invalidate(s), now, fts)
  }

  // One batch after another, as each happened to go.
  function ExpireWith(s: Store, now: int, fts: bool, fits: seq<bool>): Store
    decreases |fits|
  {
    if fits == [] then s else ExpireWith(BatchWith(s, now, fts, fits[0]), now, fts, fits[1..])
  }

  lemma {:induction false} OneMoreBatch(s: Store, now: int, fts: bool, fits: seq<bool>, last: bool)
    ensures ExpireWith(s, now, fts, fits + [last]) == BatchWith(ExpireWith(s, now, fts, fits), now, fts, last)
    decreases |fits|
  {
    hide BatchWith;
    if fits == [] {
      assert [last][1..] == [];
    } else {
      OneMoreBatch(BatchWith(s, now, fts, fits[0]), now, fts, fits[1..], last);
      assert (fits + [last])[1..] == fits[1..] + [last];
    }
  }

  // Giving the index up part way changes neither the rows nor the boundary expiry ends with.
  lemma FallbackKeepsRows(s: Store, now: int, fts: bool)
    ensures var t, u := OneShot(Invalidate(s), now, fts), OneShot(s, now, fts);
      && t.entries == u.entries && t.floor == u.floor && t.head == u.head && t.indexed == STALE
  {
    hide Highest, IndexUsable;
    var lapsed := LapsedRows(s, now);
    assert LapsedRows(Invalidate(s), now) == lapsed;
    hide LapsedRows;
    if lapsed != {} {
      var kept, without := Unindex(s, lapsed, fts), Unindex(Invalidate(s), lapsed, fts);
      assert kept == s.(search := kept.search) && without == Invalidate(s).(search := without.search);
      hide Unindex;
    }
  }

  // Afterwards nothing lapsed is left, and nothing else was removed.
  lemma ExpiryIsExact(s: Store, now: int, fts: bool, q: int)
    ensures var t := ExpireAll(s, now, fts);
      && (q in t.entries <==> q in s.entries && !Lapsed(s.entries[q], now))
      && (q in t.entries ==> t.entries[q] == s.entries[q])
      && t.floor >= s.floor && (q in s.entries && q !in t.entries ==> q <= t.floor)
  {
    BatchesAddUp(s, now, fts);
    hide ExpireAll, Highest;
    assert q in LapsedRows(s, now) <==> q in s.entries && Lapsed(s.entries[q], now);
  }
}
