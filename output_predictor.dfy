/**
 * The simple output-length predictor: a moving-window histogram of observed
 * output lengths per input-length bucket, kept in flat arrays and updated in
 * place, and a weighted draw over it.
 *
 * Time is an integer count of nanoseconds passed in by the caller; the
 * random draw is a `cursor` parameter. The rotation that the source starts
 * on a separate goroutine is a sequential call here.
 */
module OutputPredictor {
  import opened PredictorMath
  import opened PredictorHistory

  datatype ColdPredictionStrategy = Optimistic | Random | Input | Pessimistic

  const DefaultColdPrediction: ColdPredictionStrategy := Optimistic

  /**
   * The prediction made without history, for each strategy; `draw` stands
   * for the random value in [0, MaxOutputLen) the random strategy uses.
   */
  function ColdPredictWith(strategy: ColdPredictionStrategy, inputTokens: int, draw: int): (r: int)
    requires strategy == Random ==> 0 <= draw < MaxOutputLen
    ensures strategy == Input ==> r == inputTokens
    ensures strategy != Input ==> 1 <= r <= MaxOutputLen
    ensures strategy == Optimistic ==> r == 1
    ensures strategy == Pessimistic ==> r == MaxOutputLen
  {
    match strategy
    case Random => draw + 1
    case Input => inputTokens
    case Pessimistic => MaxOutputLen
    case Optimistic => 1
  }

  /** `coldPredict` under the default strategy: the smallest possible output. */
  function ColdPredict(inputTokens: int): (r: int)
    ensures r == 1
  {
    ColdPredictWith(DefaultColdPrediction, inputTokens, 0)
  }

  /** The skip cell, the last cell of a slot. */
  function GetSkipped(hist: array<int>): int
    requires hist.Length >= 1
    reads hist
  {
    hist[hist.Length - 1]
  }

  /** `setSkipped`: records in the skip cell how many intervals the slot covers. */
  method SetSkipped(hist: array<int>, skipped: int)
    requires hist.Length >= 1
    modifies hist
    ensures GetSkipped(hist) == skipped
    ensures hist[..hist.Length - 1] == old(hist[..hist.Length - 1])
  {
    hist[hist.Length - 1] := skipped;
  }

  /**
   * `reset`: takes an expired slot out of the summary cell by cell, and out
   * of the row sum of the input bucket each cell belongs to, then clears the
   * slot including its skip cell.
   */
  method ResetDistribution(hist: array<int>, distributions: array<int>, sums: array<int>, outputBuckets: nat)
    requires outputBuckets >= 1
    requires hist.Length == distributions.Length + 1
    requires distributions.Length == sums.Length * outputBuckets
    requires hist != distributions && hist != sums && distributions != sums
    modifies hist, distributions, sums
    ensures hist[..] == Zeros(hist.Length)
    ensures forall j :: 0 <= j < distributions.Length ==> distributions[j] == old(distributions[j]) - old(hist[j])
    ensures forall b :: 0 <= b < sums.Length ==>
      sums[b] == old(sums[b]) - RowSum(old(hist[..]), distributions.Length, b, outputBuckets)
  {
    ghost var h0, d0, s0 := hist[..], distributions[..], sums[..];
    var inputBucket := 0;
    var leftOutputBucket := outputBuckets;
    var i := 0;
    while i < hist.Length - 1
      invariant 0 <= i <= distributions.Length
      invariant 1 <= leftOutputBucket <= outputBuckets
      invariant 0 <= inputBucket && inputBucket * outputBuckets + (outputBuckets - leftOutputBucket) == i
      invariant forall j :: 0 <= j < hist.Length ==> hist[j] == if j < i then 0 else h0[j]
      invariant forall j :: 0 <= j < distributions.Length ==>
        distributions[j] == if j < i then d0[j] - h0[j] else d0[j]
      invariant forall b :: 0 <= b < sums.Length ==> sums[b] == s0[b] - RowSum(h0, i, b, outputBuckets)
    {
      assert InRow(i, inputBucket, outputBuckets);
      if inputBucket >= sums.Length {
        MulMonotone(sums.Length, inputBucket, outputBuckets);
      }
      forall b | 0 <= b < sums.Length && InRow(i, b, outputBuckets)
        ensures b == inputBucket
      {
        RowUnique(i, b, inputBucket, outputBuckets);
      }
      sums[inputBucket] := sums[inputBucket] - hist[i];
      distributions[i] := distributions[i] - hist[i];
      hist[i] := 0;
      leftOutputBucket := leftOutputBucket - 1;
      if leftOutputBucket == 0 {
        inputBucket := inputBucket + 1;
        leftOutputBucket := outputBuckets;
      }
      i := i + 1;
    }
    hist[i] := 0;
  }

  /** Allocates an array of `n` zeros. */
  method ZeroArray(n: nat) returns (a: array<int>)
    ensures fresh(a) && a.Length == n && a[..] == Zeros(n)
  {
    a := new int[n](_ => 0);
  }

  /** Allocates `count` distinct zeroed slots of `len` cells each. */
  method AllocateSlots(count: nat, len: nat) returns (slots: seq<array<int>>)
    ensures |slots| == count
    ensures forall s :: 0 <= s < count ==> fresh(slots[s]) && slots[s].Length == len && slots[s][..] == Zeros(len)
    ensures forall s, t :: 0 <= s < t < count ==> slots[s] != slots[t]
  {
    slots := [];
    while |slots| < count
      invariant |slots| <= count
      invariant forall s :: 0 <= s < |slots| ==> fresh(slots[s]) && slots[s].Length == len && slots[s][..] == Zeros(len)
      invariant forall s, t :: 0 <= s < t < |slots| ==> slots[s] != slots[t]
    {
      var slot := new int[len](_ => 0);
      slots := slots + [slot];
    }
  }

  class SimpleOutputPredictor {
    const inputBuckets: nat
    const outputBuckets: nat
    /** The ring of history slots; each holds `inputBuckets * outputBuckets` counts and a skip cell. */
    const window: seq<array<int>>
    /** Counts per (input bucket, output bucket) over the whole window. */
    const inputs: array<int>
    /** Counts per input bucket over the whole window. */
    const inputsSums: array<int>
    var head: nat
    var tail: nat
    var headTimestamp: int
    /** Intervals covered by the slots after the tail up to the head. */
    var size: int
    /** The contents of the slots. */
    ghost var slots: seq<seq<int>>

    /** Sizes of the arrays and their separation from one another. */
    ghost predicate Shape()
      reads this`slots
    {
      && inputBuckets >= 1 && outputBuckets >= 1 && |window| >= 2
      && inputs.Length == inputBuckets * outputBuckets
      && inputsSums.Length == inputBuckets
      && inputs != inputsSums
      && (forall s :: 0 <= s < |window| ==>
            window[s].Length == inputs.Length + 1 && window[s] != inputs && window[s] != inputsSums)
      && (forall s, t :: 0 <= s < t < |window| ==> window[s] != window[t])
      && |slots| == |window|
    }

    ghost predicate Mirrored()
      reads this`slots, window
    {
      Shape() && forall s :: 0 <= s < |window| ==> window[s][..] == slots[s]
    }

    /** The state between the steps of a rotation: the ring may be full. */
    ghost predicate Consistent()
      reads this`slots, this`head, this`tail, this`size, window, inputs, inputsSums
    {
      && Mirrored()
      && Summarised(slots, inputs[..], inputsSums[..], outputBuckets)
      && RingOk(slots, head, tail, size, inputs.Length, |window| - 1)
    }

    /** The state between public operations: the ring keeps a spare slot ahead of the head. */
    ghost predicate Valid()
      reads this`slots, this`head, this`tail, this`size, window, inputs, inputsSums
    {
      && Mirrored()
      && Summarised(slots, inputs[..], inputsSums[..], outputBuckets)
      && RingOk(slots, head, tail, size, inputs.Length, |window| - 2)
    }

    /** The history covers fewer intervals than the window can read. */
    predicate Settled()
      reads this`size
    {
      size < |window| - 1
    }

    /** Row `b` of the summary: the counts of each output bucket for input bucket `b`. */
    function Row(b: nat): (row: seq<int>)
      requires Shape() && b < inputBuckets
      reads this, inputs
      ensures |row| == outputBuckets
    {
      RowOf(inputs[..], b, inputBuckets, outputBuckets)
    }

    /** `NewSimpleOutputPredictor`, with the clock reading `now` passed in. */
    constructor (maxInputTokens: int, maxOutputTokens: int, windowNs: int, now: int)
      requires maxInputTokens >= 1 && maxOutputTokens >= 1 && windowNs >= 1
      ensures Valid() && Settled()
      ensures inputBuckets == BucketCount(maxInputTokens) && outputBuckets == BucketCount(maxOutputTokens)
      ensures |window| == SlotCount(windowNs)
      ensures head == 0 && tail == 0 && size == 0 && headTimestamp == now
      ensures inputs[..] == Zeros(inputs.Length) && inputsSums[..] == Zeros(inputBuckets)
      ensures forall s :: 0 <= s < |window| ==> slots[s] == Zeros(inputs.Length + 1)
      ensures fresh(inputs) && fresh(inputsSums) && forall s :: 0 <= s < |window| ==> fresh(window[s])
    {
      var ib := BucketCount(maxInputTokens);
      var ob := BucketCount(maxOutputTokens);
      var count := SlotCount(windowNs);
      var cells := ib * ob;
      var summary := ZeroArray(cells);
      var rowSums := ZeroArray(ib);
      var ws := AllocateSlots(count, cells + 1);
      inputBuckets, outputBuckets, window, inputs, inputsSums := ib, ob, ws, summary, rowSums;
      head, tail, headTimestamp, size := 0, 0, now, 0;
      slots := seq(count, _ => Zeros(cells + 1));
      new;
      EmptyHistory(count, ib, ob);
      assert Mirrored();
    }

    /**
     * `forwardLocked`: when at least one interval has passed since the head
     * slot opened, opens the next slot as the head, covering all intervals
     * that passed; otherwise changes nothing.
     */
    method ForwardLocked(ts: int) returns (forwarded: int)
      requires Valid()
      modifies this, window
      ensures Consistent()
      ensures ts - old(headTimestamp) < MovingInterval ==> forwarded == 0 && Valid() && unchanged(this)
      ensures ts - old(headTimestamp) >= MovingInterval ==>
        && forwarded >= 1 && forwarded == (ts - old(headTimestamp)) / MovingInterval
        && headTimestamp == old(headTimestamp) + forwarded * MovingInterval
        && headTimestamp <= ts < headTimestamp + MovingInterval
        && head == At(old(head), 1, |window|) && tail == old(tail)
        && old(slots)[head] == Zeros(inputs.Length + 1)
        && slots == SetCell(old(slots), head, inputs.Length, forwarded)
        && size == old(size) + forwarded
    {
      if ts - headTimestamp < MovingInterval {
        return 0;
      }
      forwarded := 0;
      var newHeadTimestamp := headTimestamp;
      while ts - newHeadTimestamp >= MovingInterval
        invariant forwarded >= 0 && newHeadTimestamp == headTimestamp + forwarded * MovingInterval
        invariant forwarded == 0 || ts - newHeadTimestamp >= 0
        decreases ts - newHeadTimestamp
      {
        forwarded := forwarded + 1;
        newHeadTimestamp := newHeadTimestamp + MovingInterval;
      }
      var next := At(head, 1, |window|);
      ghost var forwardedSlots := SetCell(slots, next, inputs.Length, forwarded);
      ForwardKeepsRing(slots, head, tail, size, inputs.Length, forwarded);
      SkipWriteKeepsSummary(slots, inputs[..], inputsSums[..], outputBuckets, next, forwarded);
      OpenHead(next, forwarded, newHeadTimestamp, forwardedSlots);
    }

    /**
     * The writes of `forwardLocked`: slot `next` records that it covers
     * `forwarded` intervals and becomes the head, given the state that leads to.
     */
    method OpenHead(next: nat, forwarded: int, timestamp: int, ghost forwardedSlots: seq<seq<int>>)
      requires Mirrored() && next < |window|
      requires forwardedSlots == SetCell(slots, next, inputs.Length, forwarded)
      requires Summarised(forwardedSlots, inputs[..], inputsSums[..], outputBuckets)
      requires RingOk(forwardedSlots, next, tail, size + forwarded, inputs.Length, |window| - 1)
      modifies this`slots, this`head, this`headTimestamp, this`size, window[next]
      ensures Consistent()
      ensures slots == forwardedSlots && head == next && headTimestamp == timestamp && size == old(size) + forwarded
    {
      var slot := window[next];
      SetSkipped(slot, forwarded);
      assert slot[..] == forwardedSlots[next];
      slots := forwardedSlots;
      head, headTimestamp, size := next, timestamp, size + forwarded;
    }

    /**
     * `resetTail`: removes the tail slot from the summaries and clears it,
     * then steps the tail forward and stops counting the intervals of the
     * slot it lands on.
     */
    method ResetTail()
      requires Consistent() && tail != head
      modifies this, window, inputs, inputsSums
      ensures Consistent()
      ensures tail == At(old(tail), 1, |window|) && head == old(head) && headTimestamp == old(headTimestamp)
      ensures slots == old(slots)[old(tail) := Zeros(inputs.Length + 1)]
      ensures size == old(size) - slots[tail][inputs.Length]
      ensures Dist(tail, head, |window|) == Dist(old(tail), head, |window|) - 1
    {
      ghost var before := slots;
      var next := At(tail, 1, |window|);
      ResetTailKeepsRing(before, head, tail, size, inputs.Length);
      ClearTail();
      assert slots[next] == before[next];
      StepTail(next);
    }

    /** The second half of `resetTail`: the tail moves to `next`, whose intervals stop counting. */
    method StepTail(next: nat)
      requires Mirrored() && Summarised(slots, inputs[..], inputsSums[..], outputBuckets) && next < |window|
      requires RingOk(slots, head, next, size - slots[next][inputs.Length], inputs.Length, |window| - 1)
      modifies this`tail, this`size
      ensures Consistent()
      ensures tail == next && size == old(size) - slots[next][inputs.Length]
    {
      assert window[next][..] == slots[next];
      var skipped := GetSkipped(window[next]);
      tail, size := next, size - skipped;
    }

    /** The first half of `resetTail`: the tail slot leaves the summaries and is cleared. */
    method ClearTail()
      requires Consistent()
      modifies this, window, inputs, inputsSums
      ensures Mirrored() && Summarised(slots, inputs[..], inputsSums[..], outputBuckets)
      ensures slots == old(slots)[old(tail) := Zeros(inputs.Length + 1)]
      ensures head == old(head) && tail == old(tail) && size == old(size) && headTimestamp == old(headTimestamp)
    {
      ghost var before, beforeSums := inputs[..], inputsSums[..];
      var cleared := window[tail];
      ResetDistribution(cleared, inputs, inputsSums, outputBuckets);
      assert forall s :: 0 <= s < |window| && window[s] != cleared ==> window[s][..] == slots[s];
      ClearKeepsSummary(slots, before, beforeSums, outputBuckets, tail, inputs[..], inputsSums[..]);
      slots := slots[tail := Zeros(inputs.Length + 1)];
    }

    /**
     * `rotate`: refuses when the history already covers more intervals than
     * the window can read; otherwise forwards the head and retires tail
     * slots until the history is below that bound again.
     */
    method Rotate(ts: int) returns (ok: bool)
      requires Valid()
      modifies this, window, inputs, inputsSums
      ensures Valid()
      ensures ok <==> old(size) <= |window| - 1
      ensures !ok || ts - old(headTimestamp) < MovingInterval ==>
        unchanged(this) && inputs[..] == old(inputs[..]) && inputsSums[..] == old(inputsSums[..])
      ensures ok && ts - old(headTimestamp) >= MovingInterval ==>
        && (slots, head, tail, size)
           == Rotated(old(slots), old(head), old(tail), old(size), inputs.Length, (ts - old(headTimestamp)) / MovingInterval)
        && headTimestamp == old(headTimestamp) + ((ts - old(headTimestamp)) / MovingInterval) * MovingInterval
        && headTimestamp <= ts < headTimestamp + MovingInterval
        && Settled()
    {
      var spare := |window| - 1;
      if size > spare {
        return false;
      }
      var forwarded := ForwardLocked(ts);
      if forwarded == 0 {
        return true;
      }
      ghost var forwardedSlots, newHead, oldTail, forwardedSize := slots, head, tail, size;
      assert Rotated(old(slots), old(head), old(tail), old(size), inputs.Length, forwarded)
          == var r := Retire(forwardedSlots, newHead, oldTail, forwardedSize, inputs.Length, spare);
             (r.0, newHead, r.1, r.2);
      RetireUntilSettled();
      return true;
    }

    /**
     * The loop of `rotate`: retires tail slots while the history covers at
     * least `|window| - 1` intervals.
     */
    method RetireUntilSettled()
      requires Consistent() && |window| >= 2
      modifies this, window, inputs, inputsSums
      ensures Valid() && Settled()
      ensures (slots, tail, size) == Retire(old(slots), old(head), old(tail), old(size), inputs.Length, |window| - 1)
      ensures head == old(head) && headTimestamp == old(headTimestamp)
    {
      var spare := |window| - 1;
      ghost var target := Retire(slots, head, tail, size, inputs.Length, spare);
      while size >= spare
        invariant Consistent()
        invariant head == old(head) && headTimestamp == old(headTimestamp)
        invariant Retire(slots, head, tail, size, inputs.Length, spare) == target
        decreases Dist(tail, head, |window|)
      {
        RetireOne();
      }
      SettledRingHasSpare(slots, head, tail, size, inputs.Length);
    }

    /** One pass of `rotate`'s loop: a `resetTail` step, which leaves the same history to retire to. */
    method RetireOne()
      requires Consistent() && size >= |window| - 1 >= 1
      modifies this, window, inputs, inputsSums
      ensures Consistent()
      ensures head == old(head) && headTimestamp == old(headTimestamp)
      ensures Retire(slots, head, tail, size, inputs.Length, |window| - 1)
           == Retire(old(slots), old(head), old(tail), old(size), inputs.Length, |window| - 1)
      ensures Dist(tail, head, |window|) < Dist(old(tail), head, |window|)
    {
      NonEmptyRing(slots, head, tail, size, inputs.Length, |window| - 1);
      RetireStep(slots, head, tail, size, inputs.Length, |window| - 1);
      ResetTail();
    }

    /**
     * `tryRotate`: rotates only once the head slot's interval has passed;
     * a rotation `rotate` refuses changes nothing.
     */
    method TryRotate(ts: int)
      requires Valid()
      modifies this, window, inputs, inputsSums
      ensures Valid()
      ensures (slots, head, tail, size)
           == AfterTryRotate(old(slots), old(head), old(tail), old(size), inputs.Length, ts - old(headTimestamp))
      ensures ts - old(headTimestamp) < MovingInterval || old(size) > |window| - 1 ==>
        unchanged(this) && inputs[..] == old(inputs[..]) && inputsSums[..] == old(inputsSums[..])
      ensures ts - old(headTimestamp) >= MovingInterval && old(size) <= |window| - 1 ==>
        && headTimestamp == old(headTimestamp) + ((ts - old(headTimestamp)) / MovingInterval) * MovingInterval
        && headTimestamp <= ts < headTimestamp + MovingInterval && Settled()
    {
      if ts - headTimestamp < MovingInterval {
        return;
      }
      var rotated := Rotate(ts);
    }

    /** The flat index of the cell a trace is counted in. */
    function TraceCell(inputTokens: int, outputTokens: int): (idx: int)
      requires inputBuckets >= 1 && outputBuckets >= 1 && inputs.Length == inputBuckets * outputBuckets
      ensures 0 <= idx < inputs.Length
      ensures InRow(idx, Token2Bucket(inputTokens, inputBuckets), outputBuckets)
    {
      var inputBucket := Token2Bucket(inputTokens, inputBuckets);
      var outputBucket := Token2Bucket(outputTokens, outputBuckets);
      BucketIndexInside(inputBucket, outputBucket, inputBuckets, outputBuckets);
      BucketIndex(inputBucket, outputBucket, outputBuckets)
    }

    /**
     * The counting part of `AddTraceWithTimestamp`: adds `cnt` to the
     * summary cell, to the row sum of the input bucket and to the head
     * slot's cell, and to nothing else.
     */
    method AddToBuckets(inputTokens: int, outputTokens: int, cnt: int)
      requires Valid()
      modifies this, window, inputs, inputsSums
      ensures Valid()
      ensures head == old(head) && tail == old(tail) && size == old(size) && headTimestamp == old(headTimestamp)
      ensures var b, idx := Token2Bucket(inputTokens, inputBuckets), TraceCell(inputTokens, outputTokens);
        && inputs[..] == old(inputs[..])[idx := old(inputs[idx]) + cnt]
        && inputsSums[..] == old(inputsSums[..])[b := old(inputsSums[b]) + cnt]
        && slots == SetCell(old(slots), old(head), idx, old(slots)[old(head)][idx] + cnt)
    {
      var inputBucket := Token2Bucket(inputTokens, inputBuckets);
      var idx := BucketIndex(inputBucket, Token2Bucket(outputTokens, outputBuckets), outputBuckets);
      assert idx == TraceCell(inputTokens, outputTokens);
      Count(idx, inputBucket, cnt);
    }

    /** Adds `cnt` to cell `idx` of row `b`: in the summary, in the row sum and in the head slot. */
    method Count(idx: nat, b: nat, cnt: int)
      requires Valid() && idx < inputs.Length && b < inputsSums.Length && InRow(idx, b, outputBuckets)
      modifies this, window, inputs, inputsSums
      ensures Valid()
      ensures head == old(head) && tail == old(tail) && size == old(size) && headTimestamp == old(headTimestamp)
      ensures inputs[..] == old(inputs[..])[idx := old(inputs[idx]) + cnt]
      ensures inputsSums[..] == old(inputsSums[..])[b := old(inputsSums[b]) + cnt]
      ensures slots == SetCell(old(slots), old(head), idx, old(slots)[old(head)][idx] + cnt)
    {
      CountKeepsRing(slots, head, tail, size, inputs.Length, |window| - 2, idx, slots[head][idx] + cnt);
      CountKeepsSummary(slots, inputs[..], inputsSums[..], outputBuckets, head, idx, b, cnt);
      WriteCount(idx, b, cnt);
    }

    /**
     * The writes of `AddToBuckets`: `cnt` added to summary cell `idx`, to row
     * sum `b` and to the head slot's cell `idx`, given that the state they
     * lead to keeps the summary and the ring invariants.
     */
    method WriteCount(idx: nat, b: nat, cnt: int)
      requires Mirrored() && head < |window| && idx < inputs.Length && b < inputsSums.Length
      requires Summarised(SetCell(slots, head, idx, slots[head][idx] + cnt),
                          inputs[..][idx := inputs[..][idx] + cnt], inputsSums[..][b := inputsSums[..][b] + cnt],
                          outputBuckets)
      requires RingOk(SetCell(slots, head, idx, slots[head][idx] + cnt), head, tail, size, inputs.Length, |window| - 2)
      modifies this`slots, window[head], inputs, inputsSums
      ensures Valid()
      ensures inputs[..] == old(inputs[..])[idx := old(inputs[idx]) + cnt]
      ensures inputsSums[..] == old(inputsSums[..])[b := old(inputsSums[b]) + cnt]
      ensures slots == SetCell(old(slots), old(head), idx, old(slots)[old(head)][idx] + cnt)
    {
      ghost var counted := SetCell(slots, head, idx, slots[head][idx] + cnt);
      inputs[idx] := inputs[idx] + cnt;
      inputsSums[b] := inputsSums[b] + cnt;
      var slot := window[head];
      slot[idx] := slot[idx] + cnt;
      slots := counted;
    }

    /**
     * `AddTraceWithTimestamp`: records `cnt` requests with the given input
     * and output lengths, first rotating the history if the head slot's
     * interval has passed.
     */
    method AddTraceWithTimestamp(inputTokens: int, outputTokens: int, cnt: int, ts: int)
      requires Valid()
      modifies this, window, inputs, inputsSums
      ensures Valid()
      ensures old(Settled()) ==> Settled()
      ensures var after := AfterTryRotate(old(slots), old(head), old(tail), old(size), inputs.Length,
                                          ts - old(headTimestamp));
        var idx := TraceCell(inputTokens, outputTokens);
        && head == after.1 && tail == after.2 && size == after.3
        && slots == SetCell(after.0, after.1, idx, after.0[after.1][idx] + cnt)
      ensures ts - old(headTimestamp) < MovingInterval || old(size) > |window| - 1 ==>
        var b, idx := Token2Bucket(inputTokens, inputBuckets), TraceCell(inputTokens, outputTokens);
        && headTimestamp == old(headTimestamp)
        && inputs[..] == old(inputs[..])[idx := old(inputs[idx]) + cnt]
        && inputsSums[..] == old(inputsSums[..])[b := old(inputsSums[b]) + cnt]
      ensures ts - old(headTimestamp) >= MovingInterval && old(size) <= |window| - 1 ==>
        && headTimestamp == old(headTimestamp) + ((ts - old(headTimestamp)) / MovingInterval) * MovingInterval
        && headTimestamp <= ts < headTimestamp + MovingInterval
    {
      ghost var after := AfterTryRotate(slots, head, tail, size, inputs.Length, ts - headTimestamp);
      TryRotate(ts);
      ghost var rotatedInputs, rotatedSums := inputs[..], inputsSums[..];
      assert (slots, head, tail, size) == after;
      AddToBuckets(inputTokens, outputTokens, cnt);
      ghost var idx := TraceCell(inputTokens, outputTokens);
      assert slots == SetCell(after.0, after.1, idx, after.0[after.1][idx] + cnt);
      if ts - old(headTimestamp) < MovingInterval || old(size) > |window| - 1 {
        ghost var b := Token2Bucket(inputTokens, inputBuckets);
        assert rotatedInputs == old(inputs[..]) && rotatedSums == old(inputsSums[..]);
        assert old(inputs[idx]) == rotatedInputs[idx] && old(inputsSums[b]) == rotatedSums[b];
      }
    }

    /**
     * `Predict`, with `cursor` standing for the uniform draw in
     * [0, row total): the cold prediction when the input bucket has no
     * history, otherwise 2^k for the output bucket k the draw selects.
     */
    method Predict(inputTokens: int, cursor: int) returns (r: int)
      requires Valid()
      requires var b := Token2Bucket(inputTokens, inputBuckets);
        inputsSums[b] != 0 ==> 0 <= cursor < inputsSums[b]
      ensures var b := Token2Bucket(inputTokens, inputBuckets);
        && (inputsSums[b] == 0 ==> r == ColdPredict(inputTokens))
        && (inputsSums[b] != 0 ==> r == Pow2(FirstExceeding(Row(b), cursor)))
    {
      var inputBucket := Token2Bucket(inputTokens, inputBuckets);
      var randRange := inputsSums[inputBucket];
      if randRange == 0 {
        return ColdPredict(inputTokens);
      }
      ghost var row := Row(inputBucket);
      RowInside(inputBucket, inputBuckets, outputBuckets);
      var accumulation := 0;
      var scanRange := (inputBucket + 1) * outputBuckets;
      var start := scanRange - outputBuckets;
      assert start == inputBucket * outputBuckets;
      var i := start;
      while i < scanRange
        invariant start <= i <= scanRange
        invariant accumulation == PrefixSum(row, i - start)
        invariant forall j :: 0 < j <= i - start ==> PrefixSum(row, j) <= cursor
      {
        assert inputs[i] == row[i - start];
        accumulation := accumulation + inputs[i];
        if cursor < accumulation {
          FirstExceedingUnique(row, cursor, i - start);
          return Pow2(i - scanRange + outputBuckets);
        }
        i := i + 1;
      }
      FirstExceedingUnique(row, cursor, outputBuckets - 1);
      return Pow2(outputBuckets - 1);
    }
  }
}
