// How far apart the packets of a stream are: 188 bytes, or more when there is
// something between them. The distance that sync bytes have most often wins.

module UnitSize {
  import opened Bytes
  import opened SectionModel

  const SHORTEST := 188
  const LONGEST := 320

  // ----------------------------------------------------- what is counted

  predicate Hit(s: seq<byte>, d: nat, b: nat) {
    b + d < |s| && s[b] == SYNC && s[b + d] == SYNC
  }

  /** Pairs of sync bytes at distance d, of which the first is before n. */
  function PairsTo(s: seq<byte>, d: nat, n: nat): nat {
    if n == 0 then 0 else PairsTo(s, d, n - 1) + if Hit(s, d, n - 1) then 1 else 0
  }

  function Pairs(s: seq<byte>, d: nat): nat {
    PairsTo(s, d, |s|)
  }

  /** The smallest of the distances that occur most often. */
  ghost predicate MostFrequent(s: seq<byte>, u: nat) {
    && 188 <= u < 320
    && (forall d | 188 <= d < 320 :: Pairs(s, d) <= Pairs(s, u))
    && (forall d | 188 <= d < u :: Pairs(s, d) < Pairs(s, u))
  }

  /** It occurs often enough, and for most of the buffer. */
  predicate Convincing(s: seq<byte>, u: nat) {
    Pairs(s, u) >= 8 && |s| <= Pairs(s, u) * u + 3 * u
  }

  lemma {:induction false} NoMorePairs(s: seq<byte>, d: nat, n: nat, m: nat)
    requires n <= m && forall b | n <= b < m :: !Hit(s, d, b)
    ensures PairsTo(s, d, m) == PairsTo(s, d, n)
    decreases m
  {
    if n < m {
      NoMorePairs(s, d, n, m - 1);
    }
  }

  // ------------------------------------------------------------ the code

  /** First step of select_unit_size: the intervals between sync bytes. */
  method CountIntervals(pool: array<byte>, head: nat, tail: nat) returns (count: array<int>)
    requires head <= tail <= pool.Length
    ensures fresh(count) && count.Length == LONGEST - SHORTEST
    ensures forall k | 0 <= k < count.Length :: count[k] == Pairs(pool[head..tail], SHORTEST + k)
  {
    hide Pairs;
    ghost var s := pool[head..tail];
    count := new int[LONGEST - SHORTEST](_ => 0);
    var buf := head;
    while buf + SHORTEST < tail
      invariant head <= buf <= tail && fresh(count) && pool[head..tail] == s
      invariant forall k | 0 <= k < count.Length :: count[k] == PairsTo(s, SHORTEST + k, buf - head)
    {
      ghost var b := buf - head;
      if pool[buf] != SYNC {
        buf := buf + 1;
        continue;
      }
      var m := LONGEST;
      if buf + m > tail {
        m := tail - buf;
      }
      var i := SHORTEST;
      while i < m
        invariant SHORTEST <= i <= m && fresh(count) && pool[head..tail] == s
        invariant forall k | 0 <= k < count.Length ::
          count[k] == PairsTo(s, SHORTEST + k, if SHORTEST + k < i then b + 1 else b)
      {
        if pool[buf + i] == SYNC {
          count[i - SHORTEST] := count[i - SHORTEST] + 1;
        }
        i := i + 1;
      }
      buf := buf + 1;
    }
    forall k | 0 <= k < count.Length ensures count[k] == Pairs(s, SHORTEST + k) {
      AllCounted(s, SHORTEST + k, buf - head);
    }
  }

  lemma AllCounted(s: seq<byte>, d: nat, n: nat)
    requires n <= |s| && |s| <= n + d
    ensures Pairs(s, d) == PairsTo(s, d, n)
  {
    NoMorePairs(s, d, n, |s|);
  }

  /** select_unit_size on the bytes head..tail of the input buffer. */
  method SelectUnitSize(pool: array<byte>, head: nat, tail: nat) returns (unit: Option<nat>)
    requires head <= tail <= pool.Length
    ensures var s := pool[head..tail];
      && (unit.Some? ==> MostFrequent(s, unit.value) && Convincing(s, unit.value))
      && (unit.None? ==> forall u | MostFrequent(s, u) :: !Convincing(s, u))
  {
    hide Pairs;
    ghost var s := pool[head..tail];
    var count := CountIntervals(pool, head, tail);
    var m, n := 0, 0;
    var i := SHORTEST;
    while i < LONGEST
      invariant SHORTEST <= i <= LONGEST && 0 <= m
      invariant m == 0 ==> n == 0
      invariant m > 0 ==> SHORTEST <= n < i && m == Pairs(s, n)
      invariant forall d | SHORTEST <= d < i :: Pairs(s, d) <= m
      invariant forall d | SHORTEST <= d < n :: Pairs(s, d) < m
    {
      assert count[i - SHORTEST] == Pairs(s, i);
      if m < count[i - SHORTEST] {
        m := count[i - SHORTEST];
        n := i;
      }
      i := i + 1;
    }
    var w := m * n;
    forall u | MostFrequent(s, u) ensures m == Pairs(s, u) && (m > 0 ==> u == n) {
      OneMostFrequent(s, u, m, n);
    }
    if m < 8 || w + 3 * n < tail - head {
      return None;
    }
    return Some(n);
  }

  lemma OneMostFrequent(s: seq<byte>, u: nat, m: int, n: nat)
    requires MostFrequent(s, u) && m >= 0 && (m > 0 ==> SHORTEST <= n < LONGEST && m == Pairs(s, n))
    requires forall d | SHORTEST <= d < LONGEST :: Pairs(s, d) <= m
    requires forall d | SHORTEST <= d < n :: Pairs(s, d) < m
    ensures m == Pairs(s, u) && (m > 0 ==> u == n)
  {
    hide Pairs;
    assert Pairs(s, u) <= m;
    if m > 0 {
      assert Pairs(s, n) <= Pairs(s, u);
      assert u < n ==> Pairs(s, u) < m;
      assert n < u ==> Pairs(s, n) < Pairs(s, u);
    }
  }

  // ------------------------------------------------- a stream of sync bytes

  function Place(o: nat, u: nat, k: nat): nat {
    o + u * k
  }

  /** The sync bytes are exactly count bytes, u apart, from o on. */
  ghost predicate OnlySyncs(s: seq<byte>, o: nat, u: nat, count: nat) {
    && 1 <= count && Place(o, u, count - 1) < |s|
    && forall p | 0 <= p < |s| :: s[p] == SYNC <==> exists k: nat | k < count :: p == Place(o, u, k)
  }

  lemma PlacesGrow(o: nat, u: nat, j: nat, k: nat)
    requires j <= k
    ensures Place(o, u, k) == Place(o, u, j) + u * (k - j)
    ensures u > 0 && j < k ==> Place(o, u, k) >= Place(o, u, j) + u
    ensures j + 2 <= k ==> Place(o, u, k) >= Place(o, u, j) + 2 * u
  {
    if j < k {
      assert u * (k - j) == u * (k - j - 1) + u;
      if j + 2 <= k {
        assert u * (k - j - 1) == u * (k - j - 2) + u;
      }
    }
  }

  /** Two sync bytes at a distance below 320 are neighbours. */
  lemma HitsAreNeighbours(s: seq<byte>, o: nat, u: nat, count: nat, d: nat, b: nat) returns (k: nat)
    requires OnlySyncs(s, o, u, count) && SHORTEST <= u < LONGEST && SHORTEST <= d < LONGEST && Hit(s, d, b)
    ensures d == u && k + 1 < count && b == Place(o, u, k)
  {
    var j: nat :| j < count && b + d == Place(o, u, j);
    k :| k < count && b == Place(o, u, k);
    if j <= k {
      PlacesGrow(o, u, j, k);
    } else {
      PlacesGrow(o, u, k, j);
      PlacesGrow(o, u, k, k + 1);
    }
  }

  lemma NeighboursHit(s: seq<byte>, o: nat, u: nat, count: nat, k: nat)
    requires OnlySyncs(s, o, u, count) && k + 1 < count
    ensures Hit(s, u, Place(o, u, k))
  {
    PlacesGrow(o, u, k, k + 1);
    PlacesGrow(o, u, k + 1, count - 1);
  }

  lemma {:induction false} PairsUpTo(s: seq<byte>, o: nat, u: nat, count: nat, k: nat)
    requires OnlySyncs(s, o, u, count) && SHORTEST <= u < LONGEST && k < count
    ensures PairsTo(s, u, Place(o, u, k)) == k
    decreases k
  {
    hide OnlySyncs, Hit, Place;
    var n := Place(o, u, k);
    if k == 0 {
      FirstPlace(o, u);
      forall b | 0 <= b < n ensures !Hit(s, u, b) {
        if Hit(s, u, b) {
          var j := HitsAreNeighbours(s, o, u, count, u, b);
          PlacesGrow(o, u, 0, j);
        }
      }
      NoMorePairs(s, u, 0, n);
    } else {
      PairsUpTo(s, o, u, count, k - 1);
      NeighboursHit(s, o, u, count, k - 1);
      PlacesGrow(o, u, k - 1, k);
      var m := Place(o, u, k - 1);
      forall b | m + 1 <= b < n ensures !Hit(s, u, b) {
        if Hit(s, u, b) {
          var j := HitsAreNeighbours(s, o, u, count, u, b);
          Between(o, u, k - 1, j, b);
        }
      }
      NoMorePairs(s, u, m + 1, n);
    }
  }

  lemma FirstPlace(o: nat, u: nat)
    ensures Place(o, u, 0) == o
  {
  }

  /** No place lies strictly between two neighbours. */
  lemma Between(o: nat, u: nat, k: nat, j: nat, b: nat)
    requires b == Place(o, u, j)
    ensures !(Place(o, u, k) < b < Place(o, u, k + 1))
  {
    hide Place;
    if j <= k {
      PlacesGrow(o, u, j, k);
    } else {
      PlacesGrow(o, u, k + 1, j);
    }
  }

  lemma PairsOfSyncs(s: seq<byte>, o: nat, u: nat, count: nat, d: nat)
    requires OnlySyncs(s, o, u, count) && SHORTEST <= u < LONGEST && SHORTEST <= d < LONGEST
    ensures Pairs(s, d) == if d == u then count - 1 else 0
  {
    hide OnlySyncs, Hit, Place;
    if d == u {
      LastPlace(s, o, u, count);
      PairsUpTo(s, o, u, count, count - 1);
      forall b | Place(o, u, count - 1) <= b < |s| ensures !Hit(s, u, b) {
        if Hit(s, u, b) {
          var j := HitsAreNeighbours(s, o, u, count, u, b);
          PlacesGrow(o, u, j, count - 1);
        }
      }
      NoMorePairs(s, u, Place(o, u, count - 1), |s|);
    } else {
      forall b | 0 <= b < |s| ensures !Hit(s, d, b) {
        if Hit(s, d, b) {
          var j := HitsAreNeighbours(s, o, u, count, d, b);
        }
      }
      NoMorePairs(s, d, 0, |s|);
    }
  }

  lemma LastPlace(s: seq<byte>, o: nat, u: nat, count: nat)
    requires OnlySyncs(s, o, u, count)
    ensures 1 <= count && Place(o, u, count - 1) < |s|
  {
  }

  /** A buffer whose only sync bytes are those of count packets u apart: u is
      found exactly if there are nine or more of them and at most two further
      units of bytes; otherwise nothing is. */
  lemma SyncsGiveUnitSize(s: seq<byte>, o: nat, u: nat, count: nat)
    requires OnlySyncs(s, o, u, count) && 188 <= u < 320
    ensures (exists v :: MostFrequent(s, v) && Convincing(s, v)) <==> count >= 9 && |s| <= (count + 2) * u
    ensures forall v | MostFrequent(s, v) && Convincing(s, v) :: v == u
  {
    hide OnlySyncs, Pairs;
    forall d | SHORTEST <= d < LONGEST ensures Pairs(s, d) == if d == u then count - 1 else 0 {
      PairsOfSyncs(s, o, u, count, d);
    }
    assert (count - 1) * u + 3 * u == (count + 2) * u;
    if count >= 9 {
      assert MostFrequent(s, u);
    }
    forall v | MostFrequent(s, v) && Convincing(s, v) ensures v == u && count >= 9 && |s| <= (count + 2) * u {
    }
  }

  // -------------------------------------------- sync bytes between the others

  ghost predicate OnGrid(o: nat, u: nat, p: nat) {
    exists k: nat :: p == Place(o, u, k)
  }

  /** Sync bytes before n that are none of those u apart from o on. */
  ghost function Stray(s: seq<byte>, o: nat, u: nat, n: nat): nat {
    if n == 0 then 0
    else Stray(s, o, u, n - 1) + if n <= |s| && s[n - 1] == SYNC && !OnGrid(o, u, n - 1) then 1 else 0
  }

  /** There are count sync bytes u apart from o on, and perhaps others. */
  ghost predicate InStep(s: seq<byte>, o: nat, u: nat, count: nat) {
    forall k: nat | k < count :: Place(o, u, k) < |s| && s[Place(o, u, k)] == SYNC
  }

  lemma {:induction false} StrayGrows(s: seq<byte>, o: nat, u: nat, n: nat, m: nat)
    requires n <= m
    ensures Stray(s, o, u, n) <= Stray(s, o, u, m)
    ensures n >= |s| ==> Stray(s, o, u, m) == Stray(s, o, u, n)
    decreases m
  {
    if n < m {
      StrayGrows(s, o, u, n, m - 1);
    }
  }

  lemma {:induction false} FewStrays(s: seq<byte>, o: nat, u: nat, m: nat, n: nat)
    requires forall p: nat | m <= p < |s| && s[p] == SYNC :: OnGrid(o, u, p)
    ensures Stray(s, o, u, n) <= n && Stray(s, o, u, n) <= m
    decreases n
  {
    hide OnGrid;
    if n > 0 {
      FewStrays(s, o, u, m, n - 1);
    }
  }

  lemma {:induction false} PairsGrow(s: seq<byte>, d: nat, n: nat, m: nat)
    requires n <= m
    ensures PairsTo(s, d, n) <= PairsTo(s, d, m)
    decreases m
  {
    if n < m {
      PairsGrow(s, d, n, m - 1);
    }
  }

  lemma GridDistance(o: nat, u: nat, d: nat, b: nat)
    requires 0 < d < 2 * u && d != u && OnGrid(o, u, b)
    ensures !OnGrid(o, u, b + d)
  {
    hide Place;
    var j: nat :| b == Place(o, u, j);
    forall k: nat ensures b + d != Place(o, u, k) {
      if j <= k {
        PlacesGrow(o, u, j, k);
      } else {
        PlacesGrow(o, u, k, j);
      }
      if k > j {
        PlacesGrow(o, u, j, j + 1);
      }
    }
  }

  /** Each pair at another distance has a stray byte at one of its ends. */
  lemma {:induction false} OtherPairsAreStray(s: seq<byte>, o: nat, u: nat, d: nat, n: nat)
    requires 0 < d < 2 * u && d != u
    ensures PairsTo(s, d, n) <= Stray(s, o, u, n) + Stray(s, o, u, n + d)
    decreases n
  {
    hide OnGrid;
    if n > 0 {
      OtherPairsAreStray(s, o, u, d, n - 1);
      StrayGrows(s, o, u, n - 1 + d, n + d);
      if Hit(s, d, n - 1) && OnGrid(o, u, n - 1) {
        GridDistance(o, u, d, n - 1);
      }
    } else {
      StrayGrows(s, o, u, 0, d);
    }
  }

  lemma {:induction false} GridPairs(s: seq<byte>, o: nat, u: nat, count: nat, k: nat)
    requires InStep(s, o, u, count) && k < count && u > 0
    ensures PairsTo(s, u, Place(o, u, k)) >= k
    decreases k
  {
    hide Place;
    if k > 0 {
      GridPairs(s, o, u, count, k - 1);
      PlacesGrow(o, u, k - 1, k);
      assert Hit(s, u, Place(o, u, k - 1));
      PairsGrow(s, u, Place(o, u, k - 1) + 1, Place(o, u, k));
    }
  }

  /** Whatever else is in the packets: their distance is found if there are nine or
      more of them with at most two further units of bytes, and less than half as
      many stray sync bytes as distances. */
  lemma StraySyncsDoNotMatter(s: seq<byte>, o: nat, u: nat, count: nat)
    requires InStep(s, o, u, count) && 188 <= u < 320 && count >= 9 && |s| <= (count + 2) * u
    requires 2 * Stray(s, o, u, |s|) < count - 1
    ensures MostFrequent(s, u) && Convincing(s, u)
    ensures forall v | MostFrequent(s, v) :: v == u
  {
    hide Hit, Stray, Place, InStep, PairsTo;
    InStepLast(s, o, u, count);
    GridPairs(s, o, u, count, count - 1);
    PairsGrow(s, u, Place(o, u, count - 1), |s|);
    forall d | SHORTEST <= d < LONGEST && d != u ensures Pairs(s, d) < Pairs(s, u) {
      OtherPairsAreStray(s, o, u, d, |s|);
      StrayGrows(s, o, u, |s|, |s| + d);
    }
    Enough(count, Pairs(s, u), u);
  }

  lemma InStepLast(s: seq<byte>, o: nat, u: nat, count: nat)
    requires InStep(s, o, u, count) && count > 0
    ensures Place(o, u, count - 1) < |s|
  {
  }

  lemma Enough(count: nat, pairs: nat, u: nat)
    requires count >= 1 && pairs >= count - 1
    ensures (count + 2) * u <= pairs * u + 3 * u
  {
    var more: nat := pairs - (count - 1);
    assert pairs + 3 == (count + 2) + more;
    assert (pairs + 3) * u == (count + 2) * u + more * u;
  }

  /** So the method's answer is known for a buffer without stray sync bytes. */
  method DetectUnitSize(pool: array<byte>, ghost o: nat, ghost u: nat, ghost count: nat) returns (unit: Option<nat>)
    requires OnlySyncs(pool[..], o, u, count) && 188 <= u < 320
    ensures unit == if count >= 9 && pool.Length <= (count + 2) * u then Some(u) else None
  {
    hide OnlySyncs, Pairs, MostFrequent, Convincing;
    ghost var s := pool[..];
    SyncsGiveUnitSize(s, o, u, count);
    unit := SelectUnitSize(pool, 0, pool.Length);
    assert pool[0..pool.Length] == s;
  }
}
