/**
 * The arithmetic behind the output-length predictor: integer stand-ins for
 * its floating-point bucket computations, the sums its summary arrays keep,
 * and the index arithmetic of its ring of history slots.
 */
module PredictorMath {

  /** One history slot covers this many nanoseconds (ten seconds). */
  const MovingInterval: int := 10_000_000_000

  const MaxOutputLen: int := 4096

  function Pow2(k: nat): (r: nat)
    ensures r >= 1
  {
    if k == 0 then 1 else 2 * Pow2(k - 1)
  }

  lemma {:induction false} Pow2Monotone(a: nat, b: nat)
    requires a <= b
    ensures Pow2(a) <= Pow2(b)
  {
    if a < b {
      Pow2Monotone(a, b - 1);
    }
  }

  /** Number of binary digits of `n`; 0 for 0. */
  function BitLength(n: nat): nat
  {
    if n == 0 then 0 else 1 + BitLength(n / 2)
  }

  lemma {:induction false} BitLengthBounds(n: nat)
    ensures n < Pow2(BitLength(n))
    ensures n >= 1 ==> BitLength(n) >= 1 && Pow2(BitLength(n) - 1) <= n
  {
    if n >= 1 {
      BitLengthBounds(n / 2);
    }
  }

  lemma {:induction false} BitLengthMonotone(m: nat, n: nat)
    requires m <= n
    ensures BitLength(m) <= BitLength(n)
  {
    if m >= 1 {
      BitLengthMonotone(m / 2, n / 2);
    }
  }

  /**
   * `ceil(log2(maxTokens + 1))`: the fewest binary digits that can write
   * `maxTokens`, which is the number of buckets the predictor allocates.
   */
  function BucketCount(maxTokens: nat): (r: nat)
    ensures maxTokens < Pow2(r)
    ensures r == 0 || Pow2(r - 1) <= maxTokens
  {
    BitLengthBounds(maxTokens);
    BitLength(maxTokens)
  }

  /**
   * `round(log2(t))` without floating point: the k with
   * 2^(k - 1/2) <= t < 2^(k + 1/2), i.e. 2^(2k) <= 2t^2 < 2^(2k+2).
   * `log2(t)` is never exactly half-way for an integer `t`, so no tie arises.
   */
  function RoundLog2(t: int): (k: nat)
    requires t >= 1
    ensures Pow2(2 * k) <= 2 * (t * t) < Pow2(2 * k + 2)
  {
    RoundLog2Bracket(t);
    BitLength(t * t) / 2
  }

  lemma RoundLog2Bracket(t: int)
    requires t >= 1
    ensures var k := BitLength(t * t) / 2; Pow2(2 * k) <= 2 * (t * t) < Pow2(2 * k + 2)
  {
    var sq: nat := t * t;
    BitLengthBounds(sq);
    var len := BitLength(sq);
    var k := len / 2;
    if len == 2 * k {
      assert Pow2(2 * k) == 2 * Pow2(2 * k - 1);
      assert Pow2(2 * k + 2) == 4 * Pow2(2 * k);
    } else {
      assert Pow2(2 * k + 1) == 2 * Pow2(2 * k);
      assert Pow2(2 * k + 2) == 2 * Pow2(2 * k + 1);
    }
  }

  /** At most one k satisfies the rounding bracket, so `RoundLog2` is the rounding. */
  lemma RoundLog2Unique(t: int, k: nat)
    requires t >= 1
    requires Pow2(2 * k) <= 2 * (t * t) < Pow2(2 * k + 2)
    ensures RoundLog2(t) == k
  {
    var r := RoundLog2(t);
    if r < k {
      Pow2Monotone(2 * r + 2, 2 * k);
    } else if r > k {
      Pow2Monotone(2 * k + 2, 2 * r);
    }
  }

  lemma RoundLog2Monotone(s: int, t: int)
    requires 1 <= s <= t
    ensures RoundLog2(s) <= RoundLog2(t)
  {
    assert s * s <= t * t by {
      assert s * s <= s * t <= t * t;
    }
    BitLengthMonotone(s * s, t * t);
  }

  /**
   * `token2bucket`: bucket `round(log2(tokens))`, 0 for non-positive counts,
   * clamped to the last bucket `limit - 1`.
   */
  function Token2Bucket(tokens: int, limit: int): (r: int)
    ensures limit >= 1 ==> 0 <= r < limit
    ensures tokens <= 0 && limit >= 1 ==> r == 0
    ensures limit <= 0 ==> r == limit - 1
  {
    var bucket := if tokens > 0 then RoundLog2(tokens) else 0;
    if bucket >= limit then limit - 1 else bucket
  }

  /** The bucket is the rounded logarithm whenever that fits, and the last bucket otherwise. */
  lemma Token2BucketRounds(tokens: int, limit: int, k: nat)
    requires tokens >= 1
    requires Pow2(2 * k) <= 2 * (tokens * tokens) < Pow2(2 * k + 2)
    ensures Token2Bucket(tokens, limit) == if k < limit then k else limit - 1
  {
    RoundLog2Unique(tokens, k);
  }

  /** More tokens never land in an earlier bucket. */
  lemma Token2BucketMonotone(s: int, t: int, limit: int)
    requires s <= t
    ensures Token2Bucket(s, limit) <= Token2Bucket(t, limit)
  {
    if s >= 1 {
      RoundLog2Monotone(s, t);
    }
  }

  /** Cell `j` of a flat matrix with `ob` columns lies in row `b`. */
  predicate InRow(j: int, b: int, ob: int)
  {
    b * ob <= j < b * ob + ob
  }

  lemma {:induction false} MulMonotone(a: int, b: int, m: nat)
    requires a <= b
    ensures a * m <= b * m
    decreases b - a
  {
    if a < b {
      MulMonotone(a, b - 1, m);
      assert b * m == (b - 1) * m + m;
    }
  }

  /** A cell lies in at most one row. */
  lemma RowUnique(j: int, b: int, c: int, ob: nat)
    requires InRow(j, b, ob) && InRow(j, c, ob)
    ensures b == c
  {
    if b < c {
      assert (b + 1) * ob == b * ob + ob;
      MulMonotone(b + 1, c, ob);
    } else if c < b {
      assert (c + 1) * ob == c * ob + ob;
      MulMonotone(c + 1, b, ob);
    }
  }

  /** Row `b` of a matrix with `rows` rows ends inside the matrix. */
  lemma RowInside(b: int, rows: int, ob: nat)
    requires 0 <= b < rows
    ensures 0 <= b * ob && b * ob + ob <= rows * ob
  {
    MulMonotone(0, b, ob);
    MulMonotone(b + 1, rows, ob);
    assert (b + 1) * ob == b * ob + ob;
  }

  /** Row `b` of a flattened matrix with `rows` rows of `ob` cells. */
  function RowOf(v: seq<int>, b: nat, rows: nat, ob: nat): (row: seq<int>)
    requires b < rows && |v| == rows * ob
    ensures |row| == ob
  {
    RowInside(b, rows, ob);
    v[b * ob..b * ob + ob]
  }

  /** `bucket2idx`: the flat index of cell (i, o); its quotient and remainder give the cell back. */
  function BucketIndex(i: int, o: int, ob: int): (idx: int)
    ensures 0 <= i && 0 <= o < ob ==> InRow(idx, i, ob) && idx / ob == i && idx % ob == o
  {
    if 0 <= i && 0 <= o < ob then
      BucketIndexDecodes(i, o, ob);
      i * ob + o
    else
      i * ob + o
  }

  lemma BucketIndexDecodes(i: int, o: int, ob: int)
    requires 0 <= i && 0 <= o < ob
    ensures var idx := i * ob + o; InRow(idx, i, ob) && idx / ob == i && idx % ob == o
  {
    var idx := i * ob + o;
    var q, m := idx / ob, idx % ob;
    assert idx == q * ob + m;
    assert InRow(idx, i, ob);
    MulMonotone(0, q, ob);
    assert InRow(idx, q, ob);
    RowUnique(idx, i, q, ob);
  }

  /** Every cell of an `ib` by `ob` matrix has an index inside the flat array. */
  lemma BucketIndexInside(i: int, o: int, ib: int, ob: int)
    requires 0 <= i < ib && 0 <= o < ob
    ensures 0 <= BucketIndex(i, o, ob) < ib * ob
  {
    RowInside(i, ib, ob);
  }

  /**
   * Number of history slots for a window: one per started interval, plus
   * the slot the head is filling.
   */
  function SlotCount(windowNs: int): (r: int)
    requires windowNs >= 1
    ensures r >= 2
    ensures (r - 1) * MovingInterval >= windowNs
    ensures (r - 2) * MovingInterval < windowNs
  {
    var extraSlot := if windowNs % MovingInterval > 0 then 2 else 1;
    windowNs / MovingInterval + extraSlot
  }

  /**
   * The slot count exactly as `NewSimpleOutputPredictor` computes it, for
   * any window that is not negative: a zero window gets a single slot.
   */
  function SourceSlotCount(windowNs: nat): (r: nat)
    ensures r >= 1 && (r == 1 <==> windowNs == 0)
    ensures windowNs >= 1 ==> r == SlotCount(windowNs)
  {
    var extraSlot := if windowNs % MovingInterval > 0 then 2 else 1;
    windowNs / MovingInterval + extraSlot
  }

  /** A run of zeros. */
  function Zeros(n: nat): (z: seq<int>)
    ensures |z| == n && forall i :: 0 <= i < n ==> z[i] == 0
  {
    seq(n, _ => 0)
  }

  /** Sum of `v[j]` over the cells `j < n` that lie in row `b`. */
  function RowSum(v: seq<int>, n: nat, b: int, ob: int): int
    requires n <= |v|
  {
    if n == 0 then 0
    else RowSum(v, n - 1, b, ob) + (if InRow(n - 1, b, ob) then v[n - 1] else 0)
  }

  /** Adding `d` to one cell changes only the sum of the row holding it, by `d`. */
  lemma {:induction false} RowSumUpdate(v: seq<int>, n: nat, idx: nat, d: int, b: int, ob: int)
    requires n <= |v| && idx < |v|
    ensures RowSum(v[idx := v[idx] + d], n, b, ob)
         == RowSum(v, n, b, ob) + (if idx < n && InRow(idx, b, ob) then d else 0)
  {
    if n > 0 {
      RowSumUpdate(v, n - 1, idx, d, b, ob);
    }
  }

  /** Row sums are linear: subtracting cellwise subtracts the row sums. */
  lemma {:induction false} RowSumDiff(v: seq<int>, h: seq<int>, w: seq<int>, n: nat, b: int, ob: int)
    requires n <= |v| && n <= |h| && n <= |w|
    requires forall j :: 0 <= j < n ==> w[j] == v[j] - h[j]
    ensures RowSum(w, n, b, ob) == RowSum(v, n, b, ob) - RowSum(h, n, b, ob)
  {
    if n > 0 {
      RowSumDiff(v, h, w, n - 1, b, ob);
    }
  }

  /** Row sums only look at the first `n` cells. */
  lemma {:induction false} RowSumPrefix(v: seq<int>, w: seq<int>, n: nat, b: int, ob: int)
    requires n <= |v| && n <= |w|
    requires v[..n] == w[..n]
    ensures RowSum(v, n, b, ob) == RowSum(w, n, b, ob)
  {
    if n > 0 {
      assert v[n - 1] == v[..n][n - 1] == w[..n][n - 1] == w[n - 1];
      assert v[..n - 1] == v[..n][..n - 1];
      assert w[..n - 1] == w[..n][..n - 1];
      RowSumPrefix(v, w, n - 1, b, ob);
    }
  }

  /** Running total of the first `n` cells of a row. */
  function PrefixSum(row: seq<int>, n: nat): int
    requires n <= |row|
  {
    if n == 0 then 0 else PrefixSum(row, n - 1) + row[n - 1]
  }

  /** Summing row `b` cell by cell over the whole matrix equals scanning its contiguous slice. */
  lemma {:induction false} RowScan(v: seq<int>, n: nat, b: nat, ob: nat)
    requires b * ob + ob <= |v| && n <= |v|
    ensures n <= b * ob ==> RowSum(v, n, b, ob) == 0
    ensures b * ob <= n <= b * ob + ob ==> RowSum(v, n, b, ob) == PrefixSum(v[b * ob..b * ob + ob], n - b * ob)
    ensures b * ob + ob <= n ==> RowSum(v, n, b, ob) == PrefixSum(v[b * ob..b * ob + ob], ob)
  {
    if n > 0 {
      RowScan(v, n - 1, b, ob);
    }
  }

  /**
   * The output bucket a weighted draw `c` selects: the first `k` whose
   * running total exceeds `c`, searching from `i`; the last bucket when none does.
   */
  function FirstExceedingFrom(row: seq<int>, c: int, i: nat): (k: nat)
    requires i < |row|
    ensures i <= k < |row|
    ensures forall j :: i < j <= k ==> PrefixSum(row, j) <= c
    ensures c < PrefixSum(row, k + 1) || k == |row| - 1
    decreases |row| - i
  {
    if c < PrefixSum(row, i + 1) then i
    else if i == |row| - 1 then i
    else FirstExceedingFrom(row, c, i + 1)
  }

  function FirstExceeding(row: seq<int>, c: int): (k: nat)
    requires |row| >= 1
    ensures k < |row|
    ensures forall j :: 0 < j <= k ==> PrefixSum(row, j) <= c
    ensures c < PrefixSum(row, k + 1) || k == |row| - 1
  {
    FirstExceedingFrom(row, c, 0)
  }

  /** The selected bucket is the only one meeting the selection rule. */
  lemma FirstExceedingUnique(row: seq<int>, c: int, k: nat)
    requires k < |row|
    requires forall j :: 0 < j <= k ==> PrefixSum(row, j) <= c
    requires c < PrefixSum(row, k + 1) || k == |row| - 1
    ensures FirstExceeding(row, c) == k
  {
  }

  /** When the draw is below the row total, the selected bucket is exactly the first whose running total exceeds it. */
  lemma FirstExceedingIsFirst(row: seq<int>, c: int)
    requires |row| >= 1
    requires 0 <= c < PrefixSum(row, |row|)
    ensures PrefixSum(row, FirstExceeding(row, c)) <= c < PrefixSum(row, FirstExceeding(row, c) + 1)
  {
    var k := FirstExceeding(row, c);
    if k > 0 {
      assert PrefixSum(row, k) <= c;
    }
  }
}
