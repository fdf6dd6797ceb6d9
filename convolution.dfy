/**
  Valid-mode convolution of an integer signal with an integer kernel (taps),
  and the streaming filter step of pysdr/filters.py stated as pure functions.

  Samples and taps are integers so that the equalities below are exact.
 */
module Convolution {

  /** A run of `n` zero samples: the implicit silence before the stream starts. */
  function Zeros(n: nat): (r: seq<int>)
    ensures |r| == n
    ensures forall i :: 0 <= i < n ==> r[i] == 0
  {
    seq(n, _ => 0)
  }

  /** Response of the kernel to one window of exactly |taps| samples:
      sum over j of taps[j] * w[|taps| - 1 - j] (the kernel is applied reversed). */
  function Response(taps: seq<int>, w: seq<int>): int
    requires |w| == |taps|
  {
    if taps == [] then 0 else taps[0] * w[|w| - 1] + Response(taps[1..], w[..|w| - 1])
  }

  /** Convolution in "valid" mode: one output per position where the kernel
      overlaps the signal completely; output k is the kernel's response to
      the window a[k..k + |taps|]. */
  function ValidConv(a: seq<int>, taps: seq<int>): (r: seq<int>)
    requires |taps| >= 1
    ensures |r| == if |a| >= |taps| then |a| - |taps| + 1 else 0
  {
    if |a| < |taps| then []
    else seq(|a| - |taps| + 1, k requires 0 <= k <= |a| - |taps| => Response(taps, a[k..k + |taps|]))
  }

  /** The last n samples of s. */
  function Last(s: seq<int>, n: nat): (r: seq<int>)
    requires n <= |s|
    ensures |r| == n
    ensures forall i :: 0 <= i < n ==> r[i] == s[|s| - n + i]
  {
    s[|s| - n..]
  }

  /** Python's s[n:] for n >= 0: empty when n is past the end. */
  function Drop(s: seq<int>, n: nat): (r: seq<int>)
    ensures |r| == if n <= |s| then |s| - n else 0
    ensures forall i :: 0 <= i < |r| ==> r[i] == s[n + i]
  {
    if n <= |s| then s[n..] else []
  }

  /** Concatenation of a list of batches, in order. */
  function Flatten(batches: seq<seq<int>>): (r: seq<int>)
  {
    if batches == [] then [] else batches[0] + Flatten(batches[1..])
  }

  /** True when every batch is at least `n` samples long. */
  predicate LongEnough(batches: seq<seq<int>>, n: nat)
  {
    forall i :: 0 <= i < |batches| ==> |batches[i]| >= n
  }

  /** One call of fir_filter.filter on the model: the output is the valid
      convolution of the retained state followed by the batch, and the new
      state is the last N - 1 samples of the batch (empty when N == 1). */
  function FilterStep(taps: seq<int>, state: seq<int>, x: seq<int>): (r: (seq<int>, seq<int>))
    requires |taps| >= 1 && |state| == |taps| - 1 && |x| >= |taps| - 1
    ensures |r.0| == |x|
    ensures r.1 == Last(state + x, |taps| - 1)
    ensures forall k :: 0 <= k < |x| ==>
      r.0[k] == Response(taps, (state + x)[k..k + |taps|])
  {
    (ValidConv(state + x, taps), Last(x, |taps| - 1))
  }

  /** Concatenated outputs of feeding `batches` one by one to a filter whose
      state is `state`. */
  function StreamOutput(taps: seq<int>, state: seq<int>, batches: seq<seq<int>>): seq<int>
    requires |taps| >= 1 && |state| == |taps| - 1 && LongEnough(batches, |taps| - 1)
    decreases |batches|
  {
    if batches == [] then []
    else
      var step := FilterStep(taps, state, batches[0]);
      step.0 + StreamOutput(taps, step.1, batches[1..])
  }

  /** Feeding batch i to a filter whose outputs so far are `y` and whose
      state is `state`: if `y` followed by the outputs still to come is the
      whole stream output, that stays so with batch i's output appended. */
  lemma StreamOutputStep(taps: seq<int>, state: seq<int>, batches: seq<seq<int>>, i: nat,
                         y: seq<int>, total: seq<int>)
    requires |taps| >= 1 && |state| == |taps| - 1 && LongEnough(batches, |taps| - 1) && i < |batches|
    requires y + StreamOutput(taps, state, batches[i..]) == total
    ensures LongEnough(batches[i + 1..], |taps| - 1)
    ensures (y + FilterStep(taps, state, batches[i]).0)
            + StreamOutput(taps, FilterStep(taps, state, batches[i]).1, batches[i + 1..]) == total
  {
  }

  /** Splitting a signal anywhere after its first N - 1 samples: the valid
      convolution of the whole is the valid convolution of the first part
      followed by that of the first part's last N - 1 samples and the rest. */
  lemma ValidConvSplit(taps: seq<int>, p: seq<int>, q: seq<int>)
    requires |taps| >= 1 && |p| >= |taps| - 1
    ensures ValidConv(p + q, taps) == ValidConv(p, taps) + ValidConv(Last(p, |taps| - 1) + q, taps)
  {
    var n := |taps|;
    var t := Last(p, n - 1);
    var whole := ValidConv(p + q, taps);
    var front := ValidConv(p, taps);
    var back := ValidConv(t + q, taps);
    assert |front| == |p| - n + 1;
    assert |whole| == |front| + |back|;
    forall k | 0 <= k < |whole| ensures whole[k] == (front + back)[k] {
      if k < |front| {
        assert (p + q)[k..k + n] == p[k..k + n];
      } else {
        var i := k - |front|;
        assert (p + q)[k..k + n] == (t + q)[i..i + n];
      }
    }
  }

  /** Batch boundaries are invisible: streaming from any state of N - 1
      samples gives the valid convolution of that state followed by the
      whole signal. */
  lemma {:induction false} StreamOutputIsValidConv(taps: seq<int>, state: seq<int>, batches: seq<seq<int>>)
    requires |taps| >= 1 && |state| == |taps| - 1 && LongEnough(batches, |taps| - 1)
    ensures StreamOutput(taps, state, batches) == ValidConv(state + Flatten(batches), taps)
    decreases |batches|
  {
    if batches != [] {
      var x, rest := batches[0], batches[1..];
      var next := Last(state + x, |taps| - 1);
      assert LongEnough(rest, |taps| - 1);
      calc {
        StreamOutput(taps, state, batches);
        ValidConv(state + x, taps) + StreamOutput(taps, next, rest);
        { StreamOutputIsValidConv(taps, next, rest); }
        ValidConv(state + x, taps) + ValidConv(next + Flatten(rest), taps);
        { ValidConvSplit(taps, state + x, Flatten(rest)); }
        ValidConv((state + x) + Flatten(rest), taps);
        { assert (state + x) + Flatten(rest) == state + Flatten(batches); }
        ValidConv(state + Flatten(batches), taps);
      }
    }
  }

  /** Whatever the N - 1 samples in front of a signal, dropping the first
      N - 1 outputs leaves exactly the valid convolution of the signal alone. */
  lemma DropTransient(taps: seq<int>, pre: seq<int>, s: seq<int>)
    requires |taps| >= 1 && |pre| == |taps| - 1
    ensures Drop(ValidConv(pre + s, taps), |taps| - 1) == ValidConv(s, taps)
  {
    var n := |taps|;
    var z := pre + s;
    var full := ValidConv(z, taps);
    var lhs := Drop(full, n - 1);
    var rhs := ValidConv(s, taps);
    assert |lhs| == |rhs|;
    forall k | 0 <= k < |rhs| ensures lhs[k] == rhs[k] {
      assert lhs[k] == full[n - 1 + k];
      assert z[n - 1 + k..n - 1 + k + n] == s[k..k + n];
    }
  }

  /** The property checked by the test block of pysdr/filters.py: start from
      silence, feed any split of the signal into batches of at least N - 1
      samples, concatenate the outputs and drop the first N - 1 of them: the
      result is the valid convolution of the unbroken signal. */
  lemma Continuity(taps: seq<int>, batches: seq<seq<int>>)
    requires |taps| >= 1 && LongEnough(batches, |taps| - 1)
    ensures Drop(StreamOutput(taps, Zeros(|taps| - 1), batches), |taps| - 1)
         == ValidConv(Flatten(batches), taps)
  {
    StreamOutputIsValidConv(taps, Zeros(|taps| - 1), batches);
    DropTransient(taps, Zeros(|taps| - 1), Flatten(batches));
  }

  /** With a single tap the filter keeps no state and simply scales every
      sample by that tap. */
  lemma SingleTapIsGain(taps: seq<int>, x: seq<int>)
    requires |taps| == 1
    ensures FilterStep(taps, [], x).1 == []
    ensures forall k :: 0 <= k < |x| ==> FilterStep(taps, [], x).0[k] == taps[0] * x[k]
  {
    forall k | 0 <= k < |x| ensures FilterStep(taps, [], x).0[k] == taps[0] * x[k] {
      var w := ([] + x)[k..k + 1];
      assert w == [x[k]];
      assert Response(taps, w) == taps[0] * x[k] + Response(taps[1..], w[..0]);
    }
  }
}
