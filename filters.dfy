/**
  The streaming FIR filter of pysdr/filters.py (class fir_filter) and the
  continuity test of its __main__ block.

  The state `previousBatch` is a fixed-size buffer of N - 1 samples (N the
  number of taps) that `Filter` overwrites in place, as the source does with
  a numpy slice assignment.
 */
module Filters {
  import opened Convolution

  class FirFilter {
    var taps: seq<int>
    var previousBatch: array<int>

    /** The state buffer always holds exactly N - 1 samples. */
    ghost predicate Valid()
      reads this
    {
      |taps| >= 1 && previousBatch.Length == |taps| - 1
    }

    /** A new filter starts from N - 1 zeros: silence before the stream. */
    constructor (taps: seq<int>)
      requires |taps| >= 1
      ensures Valid() && fresh(previousBatch)
      ensures this.taps == taps
      ensures previousBatch[..] == Zeros(|taps| - 1)
    {
      this.taps := taps;
      previousBatch := new int[|taps| - 1](_ => 0);
    }

    /** Filters one batch: the output is the valid convolution of the
        retained state followed by the batch (|x| samples), and the state
        becomes the last N - 1 samples of the batch. The taps never change. */
    method Filter(x: seq<int>) returns (out: seq<int>)
      requires Valid() && |x| >= |taps| - 1
      modifies previousBatch
      ensures Valid() && taps == old(taps) && previousBatch == old(previousBatch)
      ensures (out, previousBatch[..]) == FilterStep(taps, old(previousBatch[..]), x)
      ensures |out| == |x| && previousBatch[..] == Last(x, |taps| - 1)
    {
      out := ValidConv(previousBatch[..] + x, taps);
      var k := |taps| - 1;
      var i := 0;
      while i < k
        invariant 0 <= i <= k
        invariant forall j :: 0 <= j < i ==> previousBatch[j] == x[|x| - k + j]
      {
        previousBatch[i] := x[|x| - k + i];
        i := i + 1;
      }
      assert previousBatch[..] == Last(x, k);
    }
  }

  /** The test loop: one fresh filter, every batch fed in order, outputs
      concatenated. The result is the model's stream output, and once the
      first N - 1 transient samples are dropped it is the valid convolution
      of the whole signal, whatever the batch sizes (each at least N - 1). */
  method StreamBatches(taps: seq<int>, batches: seq<seq<int>>) returns (y2: seq<int>)
    requires |taps| >= 1 && LongEnough(batches, |taps| - 1)
    ensures y2 == StreamOutput(taps, Zeros(|taps| - 1), batches)
    ensures Drop(y2, |taps| - 1) == ValidConv(Flatten(batches), taps)
  {
    var f := new FirFilter(taps);
    y2 := [];
    var i := 0;
    while i < |batches|
      invariant 0 <= i <= |batches|
      invariant f.Valid() && f.taps == taps && fresh(f.previousBatch)
      invariant y2 + StreamOutput(taps, f.previousBatch[..], batches[i..])
             == StreamOutput(taps, Zeros(|taps| - 1), batches)
    {
      StreamOutputStep(taps, f.previousBatch[..], batches, i, y2, StreamOutput(taps, Zeros(|taps| - 1), batches));
      var out := f.Filter(batches[i]);
      y2 := y2 + out;
      i := i + 1;
    }
    Continuity(taps, batches);
  }

  /** Python 2's split of x into len(x) / size consecutive batches of
      `size` samples, x[i * size:(i + 1) * size]; a shorter remainder is
      never fed. */
  function Chunks(x: seq<int>, size: nat): (r: seq<seq<int>>)
    requires size >= 1
    ensures |r| == |x| / size
    ensures forall i :: 0 <= i < |r| ==> |r[i]| == size
    ensures Flatten(r) == x[..|x| - |x| % size]
    decreases |x|
  {
    if |x| < size then []
    else
      var rest := Chunks(x[size..], size);
      DivModStep(|x|, size);
      assert x[..size] + x[size..][..|x| - size - (|x| - size) % size] == x[..|x| - |x| % size];
      [x[..size]] + rest
  }

  /** A positive multiple of d is at least d. */
  lemma MulAtLeast(k: int, d: int)
    requires k >= 1 && d >= 1
    ensures k * d >= d
  {
  }

  /** Removing one divisor from a dividend lowers the quotient by one and
      keeps the remainder. */
  lemma DivModStep(n: int, d: int)
    requires n >= d >= 1
    ensures (n - d) / d == n / d - 1 && (n - d) % d == n % d
  {
    var q, r := n / d, n % d;
    var q', r' := (n - d) / d, (n - d) % d;
    assert n == q * d + r && 0 <= r < d;
    assert n - d == q' * d + r' && 0 <= r' < d;
    var k := q - 1 - q';
    assert k * d == r' - r;
    if k >= 1 {
      MulAtLeast(k, d);
    } else if k <= -1 {
      MulAtLeast(-k, d);
    }
  }

  /** The __main__ test: filter x once as a whole and once in batches of
      `batchSize`, drop the transient, compare. It passes exactly when the
      batches cover the whole signal, that is when batchSize divides |x|. */
  method ContinuityTest(x: seq<int>, taps: seq<int>, batchSize: nat) returns (passed: bool)
    requires |taps| >= 1 && |x| >= |taps|
    requires batchSize >= 1 && batchSize >= |taps| - 1
    ensures passed <==> |x| % batchSize == 0
  {
    var y := ValidConv(x, taps);
    var batches := Chunks(x, batchSize);
    var y2 := StreamBatches(taps, batches);
    y2 := Drop(y2, |taps| - 1);
    passed := y == y2;
    ghost var covered := x[..|x| - |x| % batchSize];
    assert y2 == ValidConv(covered, taps);
    if |x| % batchSize == 0 {
      assert covered == x;
    } else {
      assert |covered| < |x|;
      assert |y2| < |y|;
    }
  }

  /** Two filters built from the same taps and fed in lock step never see
      each other's state: each produces its own stream output, so the same
      batches give the same outputs. */
  method TwoFilters(taps: seq<int>, batchesA: seq<seq<int>>, batchesB: seq<seq<int>>)
    returns (ya: seq<int>, yb: seq<int>)
    requires |taps| >= 1 && |batchesA| == |batchesB|
    requires LongEnough(batchesA, |taps| - 1) && LongEnough(batchesB, |taps| - 1)
    ensures ya == StreamOutput(taps, Zeros(|taps| - 1), batchesA)
    ensures yb == StreamOutput(taps, Zeros(|taps| - 1), batchesB)
    ensures batchesA == batchesB ==> ya == yb
  {
    var fa := new FirFilter(taps);
    var fb := new FirFilter(taps);
    ya, yb := [], [];
    var i := 0;
    while i < |batchesA|
      invariant 0 <= i <= |batchesA|
      invariant fa.Valid() && fa.taps == taps && fb.Valid() && fb.taps == taps
      invariant fresh(fa.previousBatch) && fresh(fb.previousBatch)
      invariant fa.previousBatch != fb.previousBatch
      invariant ya + StreamOutput(taps, fa.previousBatch[..], batchesA[i..])
             == StreamOutput(taps, Zeros(|taps| - 1), batchesA)
      invariant yb + StreamOutput(taps, fb.previousBatch[..], batchesB[i..])
             == StreamOutput(taps, Zeros(|taps| - 1), batchesB)
    {
      StreamOutputStep(taps, fa.previousBatch[..], batchesA, i, ya, StreamOutput(taps, Zeros(|taps| - 1), batchesA));
      StreamOutputStep(taps, fb.previousBatch[..], batchesB, i, yb, StreamOutput(taps, Zeros(|taps| - 1), batchesB));
      var outA := fa.Filter(batchesA[i]);
      var outB := fb.Filter(batchesB[i]);
      ya, yb := ya + outA, yb + outB;
      i := i + 1;
    }
  }

  // fir_filter.filter exactly as written, including numpy's behaviour on
  // batches the streaming model excludes.

  /** numpy refuses to convolve an empty array, and refuses a slice
      assignment whose right-hand side neither has the slice's size nor a
      single element; both raise ValueError. */
  datatype FilterError = EmptyConvolution | ShapeMismatch

  datatype Result<T> = Ok(value: T) | Err(error: FilterError)

  /** Python's x[-k:] for k >= 0: as -0 == 0, k == 0 selects the whole
      batch, and so does any k longer than the batch. */
  function TailSlice(x: seq<int>, k: nat): seq<int>
  {
    if k == 0 || k > |x| then x else x[|x| - k..]
  }

  /** numpy's a[:] = v on an array of k elements: a value of the same size
      is copied, a single element is broadcast to every position, anything
      else raises. */
  function AssignAll(k: nat, v: seq<int>): Result<seq<int>>
  {
    if |v| == k then Ok(v)
    else if |v| == 1 then Ok(seq(k, _ => v[0]))
    else Err(ShapeMismatch)
  }

  /** One call of fir_filter.filter as written: the output and the new
      state, or the error numpy raises (the state is then left untouched). */
  function FilterAsWritten(taps: seq<int>, state: seq<int>, x: seq<int>): (r: Result<(seq<int>, seq<int>)>)
    requires |taps| >= 1 && |state| == |taps| - 1
    ensures r == Err(EmptyConvolution) <==> |state| + |x| == 0
    ensures r.Err? <==> |x| != 1 && (|taps| == 1 || |x| < |taps| - 1)
    ensures r.Ok? ==> r.value.0 == ValidConv(state + x, taps)
    ensures r.Ok? && |x| >= |taps| - 1 ==> r.value.1 == Last(x, |taps| - 1)
    ensures r.Ok? && |x| < |taps| - 1 ==> |x| == 1 && r.value.1 == seq(|taps| - 1, _ => x[0])
  {
    if |state| + |x| == 0 then Err(EmptyConvolution)
    else match AssignAll(|taps| - 1, TailSlice(x, |taps| - 1))
      case Ok(s) => Ok((ValidConv(state + x, taps), s))
      case Err(e) => Err(e)
  }

  /** With at least two taps and batches of at least N - 1 samples, the
      code as written is exactly the streaming model. */
  lemma AsWrittenAgrees(taps: seq<int>, state: seq<int>, x: seq<int>)
    requires |taps| >= 2 && |state| == |taps| - 1 && |x| >= |taps| - 1
    ensures FilterAsWritten(taps, state, x) == Ok(FilterStep(taps, state, x))
  {
  }

  /** With a single tap, x[-0:] is the whole batch and cannot be stored in
      the empty state: every batch of two samples or more raises, although
      the filter needs no state at all (see SingleTapIsGain). */
  lemma SingleTapAsWrittenRejects(taps: seq<int>, x: seq<int>)
    requires |taps| == 1 && |x| >= 2
    ensures FilterAsWritten(taps, [], x) == Err(ShapeMismatch)
  {
  }

  /** Batches shorter than N - 1: an empty batch raises, a single sample is
      broadcast over the whole state, and any other short batch raises. */
  lemma ShortBatchAsWritten(taps: seq<int>, state: seq<int>, x: seq<int>)
    requires |taps| >= 2 && |state| == |taps| - 1 && |x| < |taps| - 1
    ensures |x| == 1 ==>
      FilterAsWritten(taps, state, x) == Ok((ValidConv(state + x, taps), seq(|taps| - 1, _ => x[0])))
    ensures |x| != 1 ==> FilterAsWritten(taps, state, x).Err?
  {
  }

  /** The broadcast loses the previous samples: with taps [1, 1, 1], state
      [3, 4] and the batch [5], the state becomes [5, 5] where the last two
      samples fed are [4, 5]. */
  lemma OneSampleBatchCorruptsState()
    ensures FilterAsWritten([1, 1, 1], [3, 4], [5]) == Ok(([12], [5, 5]))
    ensures Last([3, 4] + [5], 2) == [4, 5]
  {
    var w := [3, 4, 5];
    assert [3, 4] + [5] == w;
    assert AssignAll(2, TailSlice([5], 2)) == Ok([5, 5]) by {
      assert seq(2, _ => [5][0]) == [5, 5];
    }
    assert Response([1, 1, 1], w) == 12 by {
      assert Response([1, 1, 1], w) == 5 + Response([1, 1], [3, 4]);
      assert Response([1, 1], [3, 4]) == 4 + Response([1], [3]);
      assert Response([1], [3]) == 3 + Response([], []);
    }
    assert w[0..3] == w;
    assert ValidConv(w, [1, 1, 1]) == [12];
  }
}
