/** Small vocabulary shared by every module: optional values, the sequence ceiling,
    and the least element of a finite set of sequence numbers. */
module Common {
  datatype Option<+T> = None | Some(value: T)

  // Every persisted counter, sequence and clock value is a nonnegative 63-bit integer.
  const MAX_SEQUENCE: nat := 0x7FFF_FFFF_FFFF_FFFF

  function Min(a: int, b: int): int {
    if a <= b then a else b
  }

  function Max(a: int, b: int): int {
    if a <= b then b else a
  }

  function Saturate(n: int): int {
    if n <= MAX_SEQUENCE then n else MAX_SEQUENCE
  }

  lemma LeastExists(s: set<int>)
    requires s != {}
    ensures exists m :: m in s && forall x :: x in s ==> m <= x
  {
    assert (forall y :: y !in s) ==> s == {};
    var y :| y in s;
    if s != {y} {
      assert s - {y} != {};
      LeastExists(s - {y});
      var m :| m in s - {y} && forall x :: x in s - {y} ==> m <= x;
      var k := Min(m, y);
      assert forall x :: x in s ==> x == y || x in s - {y};
      assert k in s && forall x :: x in s ==> k <= x;
    }
  }

  /** Iterating a table `ORDER BY seq` takes the least remaining key each time. */
  function Least(s: set<int>): (m: int)
    requires s != {}
    ensures m in s && forall x :: x in s ==> m <= x
  {
    LeastExists(s);
    var m :| m in s && forall x :: x in s ==> m <= x;
    m
  }

  // The elements of a set in increasing order, at most n of them.
  function Lowest(s: set<int>, n: nat): (r: seq<int>)
    ensures |r| <= n
    decreases |s|
  {
    if s == {} || n == 0 then [] else [Least(s)] + Lowest(s - {Least(s)}, n - 1)
  }

  predicate Among(rows: seq<int>, s: set<int>) {
    forall k :: 0 <= k < |rows| ==> rows[k] in s
  }

  lemma LowestWithin(s: set<int>, n: nat)
    ensures Among(Lowest(s, n), s)
    decreases |s|
  {
    if s != {} && n != 0 {
      LowestWithin(s - {Least(s)}, n - 1);
    }
  }

  predicate Ascending(r: seq<int>) {
    forall a, b :: 0 <= a < b < |r| ==> r[a] < r[b]
  }

  // At most n elements, in order, leaving out only larger ones.
  lemma {:induction false} LowestFacts(s: set<int>, n: nat)
    ensures Ascending(Lowest(s, n))
    ensures forall p, q :: p in Lowest(s, n) && q in s && q <= p ==> q in Lowest(s, n)
    ensures |Lowest(s, n)| == (if |s| <= n then |s| else n)
    ensures |s| <= n ==> forall q :: q in s ==> q in Lowest(s, n)
    decreases |s|
  {
    if s != {} && n != 0 {
      var m := Least(s);
      var rest := Lowest(s - {m}, n - 1);
      LowestFacts(s - {m}, n - 1);
      LowestWithin(s - {m}, n - 1);
      var r := Lowest(s, n);
      assert r == [m] + rest;
      forall a, b | 0 <= a < b < |r| ensures r[a] < r[b] {
        assert r[b] == rest[b - 1];
        assert a > 0 ==> r[a] == rest[a - 1];
      }
      forall p, q | p in r && q in s && q <= p ensures q in r {
        if q == m {
          assert r[0] == q;
        } else {
          assert p in rest;
          assert q in rest;
        }
      }
      if |s| <= n {
        forall q | q in s ensures q in r {
          assert q == m || q in rest;
          assert r[0] == m;
        }
      }
    }
  }

  lemma SubsetSize<T>(a: set<T>, b: set<T>)
    requires a <= b
    ensures |a| <= |b|
  {
    assert b == a + (b - a);
  }

  /** Lowercase hexadecimal text of one exact length. */
  predicate Hex(s: string, length: nat) {
    |s| == length && forall c :: c in s ==> '0' <= c <= '9' || 'a' <= c <= 'f'
  }
}
