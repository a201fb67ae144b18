/**
 * The moving-window history of the output-length predictor as values: a
 * ring of slots, each a flattened input-by-output count matrix followed by a
 * skip cell, and the summary arrays that add the slots up. Defines the
 * invariants the predictor keeps and proves that each of its steps keeps them.
 */
module PredictorHistory {
  import opened PredictorMath

  /** Sum of column `j` over all slots. */
  function ColSum(slots: seq<seq<int>>, j: nat): int
    requires forall s :: 0 <= s < |slots| ==> j < |slots[s]|
  {
    if |slots| == 0 then 0
    else ColSum(slots[..|slots| - 1], j) + slots[|slots| - 1][j]
  }

  /** Replacing one slot changes each column sum by the change in that slot. */
  lemma {:induction false} ColSumUpdate(slots: seq<seq<int>>, s: nat, row: seq<int>, j: nat)
    requires s < |slots|
    requires forall t :: 0 <= t < |slots| ==> j < |slots[t]|
    requires j < |row|
    ensures ColSum(slots[s := row], j) == ColSum(slots, j) - slots[s][j] + row[j]
  {
    var n := |slots|;
    var updated := slots[s := row];
    if s < n - 1 {
      assert updated[..n - 1] == slots[..n - 1][s := row];
      ColSumUpdate(slots[..n - 1], s, row, j);
    } else {
      assert updated[..n - 1] == slots[..n - 1];
    }
  }

  /** Every slot has `n` cells. */
  ghost predicate Uniform(slots: seq<seq<int>>, n: nat)
  {
    forall s :: 0 <= s < |slots| ==> |slots[s]| == n
  }

  /**
   * The summary invariant: each cell of `inputs` is the sum of that cell
   * over the slots, and each row sum is the sum of that row of `inputs`.
   * The trailing skip cell of a slot is not summarised.
   */
  ghost predicate Summarised(slots: seq<seq<int>>, inputs: seq<int>, sums: seq<int>, ob: nat)
  {
    && |inputs| == |sums| * ob
    && Uniform(slots, |inputs| + 1)
    && (forall j :: 0 <= j < |inputs| ==> inputs[j] == ColSum(slots, j))
    && (forall b :: 0 <= b < |sums| ==> sums[b] == RowSum(inputs, |inputs|, b, ob))
  }

  /** Steps from slot `t` forward to slot `s` around a ring of `w` slots. */
  function Dist(t: nat, s: nat, w: nat): (d: nat)
    requires t < w && s < w
    ensures d < w
  {
    if s >= t then s - t else s + w - t
  }

  /** The slot `d` steps forward of `t`: `(t + d) % w`. */
  function At(t: nat, d: nat, w: nat): (s: nat)
    requires t < w && d < w
    ensures s < w && Dist(t, s, w) == d
  {
    if t + d < w then t + d else t + d - w
  }

  /**
   * Total of the skip cells (index `c`) of the `d` slots after `t`: the
   * number of intervals those slots cover.
   */
  function SkipTotal(slots: seq<seq<int>>, t: nat, d: nat, c: nat): int
    requires t < |slots| && d < |slots| && Uniform(slots, c + 1)
  {
    if d == 0 then 0 else SkipTotal(slots, t, d - 1, c) + slots[At(t, d, |slots|)][c]
  }

  lemma {:induction false} SkipTotalAtLeast(slots: seq<seq<int>>, t: nat, d: nat, c: nat)
    requires t < |slots| && d < |slots| && Uniform(slots, c + 1)
    requires forall k :: 1 <= k <= d ==> slots[At(t, k, |slots|)][c] >= 1
    ensures SkipTotal(slots, t, d, c) >= d
  {
    if d > 0 {
      SkipTotalAtLeast(slots, t, d - 1, c);
    }
  }

  lemma {:induction false} SkipTotalFrame(slots: seq<seq<int>>, other: seq<seq<int>>, t: nat, d: nat, c: nat)
    requires t < |slots| && d < |slots| && Uniform(slots, c + 1)
    requires |other| == |slots| && Uniform(other, c + 1)
    requires forall k :: 1 <= k <= d ==> other[At(t, k, |slots|)][c] == slots[At(t, k, |slots|)][c]
    ensures SkipTotal(other, t, d, c) == SkipTotal(slots, t, d, c)
  {
    if d > 0 {
      SkipTotalFrame(slots, other, t, d - 1, c);
    }
  }

  /** Splitting off the first slot after `t`. */
  lemma {:induction false} SkipTotalFront(slots: seq<seq<int>>, t: nat, d: nat, c: nat)
    requires t < |slots| && 1 <= d < |slots| && Uniform(slots, c + 1)
    ensures SkipTotal(slots, t, d, c)
         == slots[At(t, 1, |slots|)][c] + SkipTotal(slots, At(t, 1, |slots|), d - 1, c)
  {
    var w := |slots|;
    if d > 1 {
      SkipTotalFront(slots, t, d - 1, c);
      assert At(At(t, 1, w), d - 1, w) == At(t, d, w);
    }
  }

  /**
   * The ring invariant of the history: `head` and `tail` are at most
   * `maxDist` steps apart; `size` is the number of intervals covered by the
   * slots after the tail up to the head, each of which covers at least one;
   * every slot outside tail..head is entirely zero.
   */
  ghost predicate RingOk(slots: seq<seq<int>>, head: nat, tail: nat, size: int, c: nat, maxDist: int)
  {
    var w := |slots|;
    && Uniform(slots, c + 1)
    && head < w && tail < w && maxDist < w
    && Dist(tail, head, w) <= maxDist
    && size == SkipTotal(slots, tail, Dist(tail, head, w), c)
    && (forall k :: 1 <= k <= Dist(tail, head, w) ==> slots[At(tail, k, w)][c] >= 1)
    && (forall s :: 0 <= s < w && Dist(tail, head, w) < Dist(tail, s, w) ==> slots[s] == Zeros(c + 1))
  }

  /** The history never covers fewer intervals than it has slots in use. */
  lemma RingSizeAtLeastDist(slots: seq<seq<int>>, head: nat, tail: nat, size: int, c: nat, maxDist: int)
    requires RingOk(slots, head, tail, size, c, maxDist)
    ensures size >= Dist(tail, head, |slots|)
  {
    SkipTotalAtLeast(slots, tail, Dist(tail, head, |slots|), c);
  }

  /** Slot `s` with one cell replaced. */
  function SetCell(slots: seq<seq<int>>, s: nat, j: nat, v: int): (r: seq<seq<int>>)
    requires s < |slots| && j < |slots[s]|
    ensures |r| == |slots| && r[s] == slots[s][j := v]
    ensures forall t :: 0 <= t < |slots| && t != s ==> r[t] == slots[t]
  {
    slots[s := slots[s][j := v]]
  }

  /** Stepping the head forward by one, when the ring has a spare slot. */
  lemma ForwardKeepsRing(slots: seq<seq<int>>, head: nat, tail: nat, size: int, c: nat, f: int)
    requires RingOk(slots, head, tail, size, c, |slots| - 2)
    requires f >= 1
    ensures var h := At(head, 1, |slots|);
      && slots[h] == Zeros(c + 1)
      && RingOk(SetCell(slots, h, c, f), h, tail, size + f, c, |slots| - 1)
  {
    var w := |slots|;
    var d := Dist(tail, head, w);
    var h := At(head, 1, w);
    assert Dist(tail, h, w) == d + 1 && At(tail, d + 1, w) == h;
    var next := SetCell(slots, h, c, f);
    forall k | 1 <= k <= d
      ensures next[At(tail, k, w)][c] == slots[At(tail, k, w)][c]
    {
      assert At(tail, k, w) != h;
    }
    SkipTotalFrame(slots, next, tail, d, c);
  }

  /** Clearing the tail slot and stepping the tail forward by one. */
  lemma ResetTailKeepsRing(slots: seq<seq<int>>, head: nat, tail: nat, size: int, c: nat)
    requires RingOk(slots, head, tail, size, c, |slots| - 1)
    requires tail != head
    ensures var t := At(tail, 1, |slots|);
      && t != tail
      && Dist(t, head, |slots|) == Dist(tail, head, |slots|) - 1
      && RingOk(slots[tail := Zeros(c + 1)], head, t, size - slots[t][c], c, |slots| - 1)
  {
    var w := |slots|;
    var d := Dist(tail, head, w);
    var t := At(tail, 1, w);
    var next := slots[tail := Zeros(c + 1)];
    assert Dist(t, head, w) == d - 1;
    SkipTotalFront(slots, tail, d, c);
    forall k | 1 <= k <= d - 1
      ensures At(t, k, w) == At(tail, k + 1, w) && next[At(t, k, w)] == slots[At(tail, k + 1, w)]
    {
    }
    SkipTotalFrame(slots, next, t, d - 1, c);
    forall s | 0 <= s < w && Dist(t, head, w) < Dist(t, s, w)
      ensures next[s] == Zeros(c + 1)
    {
      if s != tail {
        assert Dist(tail, s, w) == Dist(t, s, w) + 1;
      }
    }
  }

  /** Once the covered intervals drop below the spare-slot bound, the ring has a spare slot again. */
  lemma SettledRingHasSpare(slots: seq<seq<int>>, head: nat, tail: nat, size: int, c: nat)
    requires RingOk(slots, head, tail, size, c, |slots| - 1)
    requires size < |slots| - 1
    ensures RingOk(slots, head, tail, size, c, |slots| - 2)
  {
    RingSizeAtLeastDist(slots, head, tail, size, c, |slots| - 1);
  }

  /** A ring holding intervals has a slot in use after the tail. */
  lemma NonEmptyRing(slots: seq<seq<int>>, head: nat, tail: nat, size: int, c: nat, maxDist: int)
    requires RingOk(slots, head, tail, size, c, maxDist)
    requires size != 0
    ensures tail != head
  {
  }

  /** Stepping forward from `t` shortens the way to any other slot by one. */
  lemma DistStep(t: nat, s: nat, w: nat)
    requires t < w && s < w && s != t
    ensures Dist(t, s, w) == Dist(At(t, 1, w), s, w) + 1
  {
  }

  /**
   * The loop of `rotate` on values: while the history covers at least
   * `spare` intervals, the tail slot is cleared, the tail steps forward and
   * the intervals of the slot it lands on stop counting. Yields the slots,
   * the tail and the size the loop stops at. The stop at `tail == head` only
   * makes the function total: on a ring `RingOk` describes, a history that
   * covers intervals has its tail behind its head (`NonEmptyRing`).
   */
  ghost function Retire(slots: seq<seq<int>>, head: nat, tail: nat, size: int, c: nat, spare: int)
    : (r: (seq<seq<int>>, nat, int))
    requires head < |slots| && tail < |slots| && Uniform(slots, c + 1)
    ensures |r.0| == |slots| && Uniform(r.0, c + 1) && r.1 < |slots|
    decreases Dist(tail, head, |slots|)
  {
    if size < spare || tail == head then (slots, tail, size)
    else
      var next := At(tail, 1, |slots|);
      DistStep(tail, head, |slots|);
      var cleared := slots[tail := Zeros(c + 1)];
      Retire(cleared, head, next, size - cleared[next][c], c, spare)
  }

  /** One step of the retirement loop, as `resetTail` takes it. */
  lemma RetireStep(slots: seq<seq<int>>, head: nat, tail: nat, size: int, c: nat, spare: int)
    requires head < |slots| && tail < |slots| && Uniform(slots, c + 1)
    requires size >= spare && tail != head
    ensures var next := At(tail, 1, |slots|);
      var cleared := slots[tail := Zeros(c + 1)];
      Retire(slots, head, tail, size, c, spare) == Retire(cleared, head, next, size - cleared[next][c], c, spare)
  {
  }

  /**
   * What the retirement loop does to the slots: the tail moves forward but
   * not past the head, the slots it passes over are cleared and every other
   * slot keeps its contents.
   */
  lemma {:induction false} RetireClearsPassedSlots(slots: seq<seq<int>>, head: nat, tail: nat, size: int, c: nat, spare: int)
    requires head < |slots| && tail < |slots| && Uniform(slots, c + 1)
    ensures var r := Retire(slots, head, tail, size, c, spare);
      && Dist(tail, r.1, |slots|) <= Dist(tail, head, |slots|)
      && Dist(r.1, head, |slots|) == Dist(tail, head, |slots|) - Dist(tail, r.1, |slots|)
      && forall s :: 0 <= s < |slots| ==>
           r.0[s] == if Dist(tail, s, |slots|) < Dist(tail, r.1, |slots|) then Zeros(c + 1) else slots[s]
    decreases Dist(tail, head, |slots|)
  {
    var w := |slots|;
    if !(size < spare || tail == head) {
      var next := At(tail, 1, w);
      DistStep(tail, head, w);
      var cleared := slots[tail := Zeros(c + 1)];
      RetireClearsPassedSlots(cleared, head, next, size - cleared[next][c], c, spare);
      var r := Retire(cleared, head, next, size - cleared[next][c], c, spare);
      assert r == Retire(slots, head, tail, size, c, spare);
      if r.1 != tail {
        DistStep(tail, r.1, w);
      }
      forall s | 0 <= s < w
        ensures r.0[s] == if Dist(tail, s, w) < Dist(tail, r.1, w) then Zeros(c + 1) else slots[s]
      {
        if s != tail {
          DistStep(tail, s, w);
        }
      }
    }
  }

  /**
   * On a ring that may be full, the retirement loop stops below the
   * spare-slot bound `|slots| - 1` and leaves a ring with a spare slot.
   */
  lemma {:induction false} RetireSettles(slots: seq<seq<int>>, head: nat, tail: nat, size: int, c: nat)
    requires RingOk(slots, head, tail, size, c, |slots| - 1) && |slots| >= 2
    ensures var r := Retire(slots, head, tail, size, c, |slots| - 1);
      r.2 < |slots| - 1 && RingOk(r.0, head, r.1, r.2, c, |slots| - 2)
    decreases Dist(tail, head, |slots|)
  {
    var w := |slots|;
    if size < w - 1 {
      SettledRingHasSpare(slots, head, tail, size, c);
    } else {
      NonEmptyRing(slots, head, tail, size, c, w - 1);
      ResetTailKeepsRing(slots, head, tail, size, c);
      var next := At(tail, 1, w);
      var cleared := slots[tail := Zeros(c + 1)];
      RetireSettles(cleared, head, next, size - cleared[next][c], c);
    }
  }

  /**
   * With a zero window the ring has one slot, so `rotate`'s bound
   * `|window| - 1` is 0 and its loop runs while the size is not negative.
   * A `resetTail` step there clears the only slot, leaves the tail where it
   * was (`(0 + 1) % 1 == 0`) and subtracts the skip cell of the slot it just
   * cleared, which is 0: the size and the loop condition never change.
   */
  lemma ZeroWindowRotationNeverEnds(slots: seq<seq<int>>, size: int, c: nat)
    requires |slots| == SourceSlotCount(0) && Uniform(slots, c + 1) && size >= 0
    ensures |slots| == 1
    ensures var cleared := slots[0 := Zeros(c + 1)];
      var next := (0 + 1) % |slots|;
      && next == 0
      && size - cleared[next][c] == size
      && size >= |slots| - 1
  {
  }

  /**
   * The history after `rotate` forwards it by `f` intervals: the slot after
   * the head becomes the head and records that it covers `f` intervals, then
   * tail slots retire until the history is below the spare-slot bound.
   * Yields the slots, the head, the tail and the size.
   */
  ghost function Rotated(slots: seq<seq<int>>, head: nat, tail: nat, size: int, c: nat, f: int)
    : (r: (seq<seq<int>>, nat, nat, int))
    requires 2 <= |slots| && head < |slots| && tail < |slots| && Uniform(slots, c + 1)
    ensures |r.0| == |slots| && Uniform(r.0, c + 1) && r.1 < |slots| && r.2 < |slots|
  {
    var h := At(head, 1, |slots|);
    var retired := Retire(SetCell(slots, h, c, f), h, tail, size + f, c, |slots| - 1);
    (retired.0, h, retired.1, retired.2)
  }

  /**
   * What a rotation does to the slots: the new head, the slot after the old
   * head, gets skip count `f` and keeps its other cells; the slots the tail
   * passed are cleared; every other slot keeps its contents.
   */
  lemma RotatedSlots(slots: seq<seq<int>>, head: nat, tail: nat, size: int, c: nat, f: int)
    requires 2 <= |slots| && head < |slots| && tail < |slots| && Uniform(slots, c + 1)
    ensures var r := Rotated(slots, head, tail, size, c, f);
      && r.1 == At(head, 1, |slots|)
      && r.0[r.1] == slots[r.1][c := f]
      && forall s :: 0 <= s < |slots| && s != r.1 ==>
           r.0[s] == if Dist(tail, s, |slots|) < Dist(tail, r.2, |slots|) then Zeros(c + 1) else slots[s]
  {
    var w := |slots|;
    var h := At(head, 1, w);
    var headOpen := SetCell(slots, h, c, f);
    RetireClearsPassedSlots(headOpen, h, tail, size + f, c, w - 1);
    var retired := Retire(headOpen, h, tail, size + f, c, w - 1);
    assert Rotated(slots, head, tail, size, c, f) == (retired.0, h, retired.1, retired.2);
    assert retired.0[h] == headOpen[h];
    forall s | 0 <= s < w && s != h
      ensures retired.0[s] == if Dist(tail, s, w) < Dist(tail, retired.1, w) then Zeros(c + 1) else slots[s]
    {
      assert retired.0[s] == if Dist(tail, s, w) < Dist(tail, retired.1, w) then Zeros(c + 1) else headOpen[s];
      assert headOpen[s] == slots[s];
    }
  }

  /**
   * The history after `tryRotate`, `elapsed` nanoseconds after the head slot
   * opened: unchanged while the head slot's interval lasts, and unchanged
   * when `rotate` refuses a history over the bound; otherwise rotated by the
   * number of whole intervals that passed.
   */
  ghost function AfterTryRotate(slots: seq<seq<int>>, head: nat, tail: nat, size: int, c: nat, elapsed: int)
    : (r: (seq<seq<int>>, nat, nat, int))
    requires 2 <= |slots| && head < |slots| && tail < |slots| && Uniform(slots, c + 1)
    ensures |r.0| == |slots| && Uniform(r.0, c + 1) && r.1 < |slots| && r.2 < |slots|
  {
    if elapsed < MovingInterval || size > |slots| - 1 then (slots, head, tail, size)
    else Rotated(slots, head, tail, size, c, elapsed / MovingInterval)
  }

  /**
   * A rotation by at least one interval keeps the ring invariant with its
   * spare slot, leaves the history below the bound, and opens the new head
   * holding nothing but its skip count `f`.
   */
  lemma RotatedRing(slots: seq<seq<int>>, head: nat, tail: nat, size: int, c: nat, f: int)
    requires RingOk(slots, head, tail, size, c, |slots| - 2) && |slots| >= 2 && f >= 1
    ensures var r := Rotated(slots, head, tail, size, c, f);
      && r.3 < |slots| - 1
      && RingOk(r.0, r.1, r.2, r.3, c, |slots| - 2)
      && r.0[r.1] == Zeros(c + 1)[c := f]
  {
    var h := At(head, 1, |slots|);
    var headOpen := SetCell(slots, h, c, f);
    ForwardKeepsRing(slots, head, tail, size, c, f);
    RetireSettles(headOpen, h, tail, size + f, c);
    var retired := Retire(headOpen, h, tail, size + f, c, |slots| - 1);
    assert Rotated(slots, head, tail, size, c, f) == (retired.0, h, retired.1, retired.2);
    RotatedSlots(slots, head, tail, size, c, f);
  }

  /** Writing the skip cell does not touch what the summary adds up. */
  lemma SkipWriteKeepsSummary(slots: seq<seq<int>>, inputs: seq<int>, sums: seq<int>, ob: nat, h: nat, f: int)
    requires Summarised(slots, inputs, sums, ob)
    requires h < |slots|
    ensures Summarised(SetCell(slots, h, |inputs|, f), inputs, sums, ob)
  {
    var next := SetCell(slots, h, |inputs|, f);
    forall j | 0 <= j < |inputs|
      ensures inputs[j] == ColSum(next, j)
    {
      ColSumUpdate(slots, h, next[h], j);
    }
  }

  /** Counting into the head keeps the ring: only summarised cells change, never a skip cell. */
  lemma CountKeepsRing(slots: seq<seq<int>>, head: nat, tail: nat, size: int, c: nat, maxDist: nat, idx: nat, v: int)
    requires RingOk(slots, head, tail, size, c, maxDist)
    requires idx < c
    ensures RingOk(SetCell(slots, head, idx, v), head, tail, size, c, maxDist)
  {
    var w := |slots|;
    var next := SetCell(slots, head, idx, v);
    SkipTotalFrame(slots, next, tail, Dist(tail, head, w), c);
  }

  /**
   * Adding `cnt` at cell `idx` of row `b` to the summary, to the row sum and
   * to one slot keeps the summary invariant.
   */
  lemma CountKeepsSummary(slots: seq<seq<int>>, inputs: seq<int>, sums: seq<int>, ob: nat,
                          h: nat, idx: nat, b: nat, cnt: int)
    requires Summarised(slots, inputs, sums, ob)
    requires h < |slots| && idx < |inputs| && b < |sums| && InRow(idx, b, ob)
    ensures Summarised(SetCell(slots, h, idx, slots[h][idx] + cnt),
                       inputs[idx := inputs[idx] + cnt], sums[b := sums[b] + cnt], ob)
  {
    var next := SetCell(slots, h, idx, slots[h][idx] + cnt);
    var inputs' := inputs[idx := inputs[idx] + cnt];
    forall j | 0 <= j < |inputs|
      ensures inputs'[j] == ColSum(next, j)
    {
      ColSumUpdate(slots, h, next[h], j);
    }
    forall r | 0 <= r < |sums|
      ensures sums[b := sums[b] + cnt][r] == RowSum(inputs', |inputs|, r, ob)
    {
      RowSumUpdate(inputs, |inputs|, idx, cnt, r, ob);
      if InRow(idx, r, ob) {
        RowUnique(idx, b, r, ob);
      }
    }
  }

  /**
   * Subtracting a slot from the summary and the row sums, then clearing the
   * slot, keeps the summary invariant.
   */
  lemma ClearKeepsSummary(slots: seq<seq<int>>, inputs: seq<int>, sums: seq<int>, ob: nat,
                          t: nat, inputs': seq<int>, sums': seq<int>)
    requires Summarised(slots, inputs, sums, ob)
    requires t < |slots|
    requires |inputs'| == |inputs| && |sums'| == |sums|
    requires forall j :: 0 <= j < |inputs| ==> inputs'[j] == inputs[j] - slots[t][j]
    requires forall b :: 0 <= b < |sums| ==> sums'[b] == sums[b] - RowSum(slots[t], |inputs|, b, ob)
    ensures Summarised(slots[t := Zeros(|inputs| + 1)], inputs', sums', ob)
  {
    var next := slots[t := Zeros(|inputs| + 1)];
    forall j | 0 <= j < |inputs|
      ensures inputs'[j] == ColSum(next, j)
    {
      ColSumUpdate(slots, t, next[t], j);
    }
    forall b | 0 <= b < |sums|
      ensures sums'[b] == RowSum(inputs', |inputs|, b, ob)
    {
      RowSumDiff(inputs, slots[t], inputs', |inputs|, b, ob);
    }
  }

  lemma {:induction false} ColSumOfZeros(slots: seq<seq<int>>, j: nat)
    requires forall s :: 0 <= s < |slots| ==> j < |slots[s]| && slots[s][j] == 0
    ensures ColSum(slots, j) == 0
  {
    if |slots| > 0 {
      ColSumOfZeros(slots[..|slots| - 1], j);
    }
  }

  lemma {:induction false} RowSumOfZeros(v: seq<int>, n: nat, b: int, ob: int)
    requires n <= |v|
    requires forall j :: 0 <= j < n ==> v[j] == 0
    ensures RowSum(v, n, b, ob) == 0
  {
    if n > 0 {
      RowSumOfZeros(v, n - 1, b, ob);
    }
  }

  /** A freshly allocated history: every slot and both summaries are zero, head and tail coincide. */
  lemma EmptyHistory(w: nat, ib: nat, ob: nat)
    requires w >= 2
    ensures var slots := seq(w, _ => Zeros(ib * ob + 1));
      && Summarised(slots, Zeros(ib * ob), Zeros(ib), ob)
      && RingOk(slots, 0, 0, 0, ib * ob, w - 2)
  {
    var slots := seq(w, _ => Zeros(ib * ob + 1));
    forall j | 0 <= j < ib * ob
      ensures ColSum(slots, j) == 0
    {
      ColSumOfZeros(slots, j);
    }
    forall b | 0 <= b < ib
      ensures RowSum(Zeros(ib * ob), ib * ob, b, ob) == 0
    {
      RowSumOfZeros(Zeros(ib * ob), ib * ob, b, ob);
    }
  }

  /**
   * A weighted draw below a row's total selects the first output bucket
   * whose running total exceeds it; the bucket is inside the row.
   */
  lemma DrawSelectsFirstExceeding(inputs: seq<int>, sums: seq<int>, ob: nat, b: nat, cursor: int)
    requires ob >= 1 && |inputs| == |sums| * ob && b < |sums|
    requires sums[b] == RowSum(inputs, |inputs|, b, ob)
    requires 0 <= cursor < sums[b]
    ensures var row := RowOf(inputs, b, |sums|, ob);
      var k := FirstExceeding(row, cursor);
      PrefixSum(row, k) <= cursor < PrefixSum(row, k + 1) && Pow2(k) <= Pow2(ob - 1)
  {
    RowInside(b, |sums|, ob);
    var row := RowOf(inputs, b, |sums|, ob);
    var lo := b * ob;
    RowScan(inputs, |inputs|, b, ob);
    assert PrefixSum(row, |row|) == sums[b];
    FirstExceedingIsFirst(row, cursor);
    Pow2Monotone(FirstExceeding(row, cursor), ob - 1);
  }
}
