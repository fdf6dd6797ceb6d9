# pysdr streaming filter and receive-status accounting, in Dafny

This project models two small pieces of sequential logic from pysdr that sit
next to the radio I/O.

- **The streaming FIR filter** (`fir_filter` in `pysdr/filters.py`). It turns a
  one-shot valid-mode convolution into a filter that works batch by batch. It
  keeps the last `N - 1` input samples (`N` is the number of taps) in
  `previous_batch`. Each batch is filtered by prepending that state and
  convolving in valid mode. The state is then overwritten with the tail of the
  batch. The promise, checked by the file's own test block, is that batch
  boundaries are invisible. Concatenate the per-batch outputs and drop the first
  `N - 1` transient samples: the result is the valid convolution of the whole
  signal.
- **The receive-status accounting** inside `benchmark_rx_rate`
  (`usrp_qt5_app.py`). It is a per-batch fold over UHD receive error codes
  (none, overflow, late, timeout, anything else). Its state is a pending-overflow
  flag, the timestamp of the last overflow, and six counters. At the end the
  counters are written into the `rx_statistics` dictionary.

Modules:

- `Convolution` (`convolution.dfy`) holds the pure definitions. Valid-mode
  convolution, one filter step, and the stream output of a sequence of batches.
  It also holds the continuity theorem and the lemmas behind it.
- `Filters` (`filters.dfy`) holds the class `FirFilter`. Its state buffer is an
  `array<int>` of `N - 1` samples, which `Filter` overwrites in place. The module
  also models the test block: the batching loop, the splitting into fixed-size
  batches, and the final comparison. Finally it models the exact numpy
  behaviour of `filter` on inputs the streaming model excludes: a single tap, or
  batches shorter than `N - 1`.
- `RxAccounting` (`rx_accounting.dfy`) holds the accounting as a pure step
  function and its fold over batches. Each counter also gets an independent
  reference definition, with lemmas that connect the two.
- `RxBenchmark` (`rx_benchmark.dfy`) holds the receive loop. It keeps the eight
  local variables of the source and has a loop invariant tying them to the fold.
  It also exports the counters into a dictionary object.

Samples and taps are integers, so every equality is exact. Timestamps are
integer time units. `rate` is an integer number of ticks per unit, so turning an
elapsed time into ticks is a product.

Where the code differs from what its comments promise, the model follows the
code:

- Every overflow overwrites `last_overflow` (`usrp_qt5_app.py:117`). So the drop
  estimate is measured from the latest overflow of an episode, not from the
  first, even though the comment at `usrp_qt5_app.py:65` says "on the first
  overflow". This reading takes `metadata.time_spec` as a value copied at line
  117 (see "## Left out"). `RxAccounting.LatestOverflowScenario` pins this down. Overflows at
  t = 10 and t = 12, then a clean batch at t = 15 at 1000 ticks per unit, give
  3000 dropped samples, not 5000.
- Every received batch adds its samples to `num_rx_samps`, whatever its status
  (`usrp_qt5_app.py:83`).
- Codes other than none, overflow, late and timeout only log. No counter moves
  for them (`usrp_qt5_app.py:136-138`).
- A zero rate simply makes every drop estimate 0. The code gives no warning.
- Batches shorter than `N - 1` are not rejected by the code. It either raises a
  numpy ValueError or, for a one-sample batch, silently broadcasts that sample
  over the whole state. `Filters.FilterAsWritten` and its lemmas model this.

## Model

| member | source | states |
|---|---|---|
| `Convolution.ValidConv` | pysdr/filters.py:13 | valid mode gives `len(a) - N + 1` outputs, and none when the signal is shorter than the kernel |
| `Convolution.FilterStep` | pysdr/filters.py:12-15 | one filter call returns exactly `len(x)` samples. Output `k` is the kernel's response `sum_j taps[j] * (state ++ x)[k+N-1-j]`, and the new state is the last `N - 1` samples fed |
| `Convolution.ValidConvSplit` | pysdr/filters.py:13-14 | valid convolution of `p ++ q` equals that of `p` followed by that of (last `N - 1` of `p`) `++ q`. This is why keeping `N - 1` samples is enough |
| `Convolution.StreamOutputIsValidConv` | pysdr/filters.py:9-15 | from any state of `N - 1` samples, the concatenated outputs of any batch sequence equal the valid convolution of the state followed by the whole signal |
| `Convolution.DropTransient` | pysdr/filters.py:42 | dropping the first `N - 1` outputs removes exactly the part computed against the leading state |
| `Convolution.Continuity` | pysdr/filters.py:26-43 | start from zeros, split the signal into batches of at least `N - 1` samples, concatenate the outputs and drop `N - 1`: the result is the valid convolution of the unbroken signal |
| `Convolution.SingleTapIsGain` | pysdr/filters.py:11-14 | with one tap the state stays empty and each output is the tap times its input sample |
| `Filters.FirFilter.constructor` | pysdr/filters.py:9-11 | a new filter keeps the taps and starts with a fresh state of exactly `N - 1` zeros |
| `Filters.FirFilter.Filter` | pysdr/filters.py:12-15 | for a batch of at least `N - 1` samples: the output is the filter step's output, the state array is overwritten in place with the last `N - 1` batch samples, and the taps and the state's length never change |
| `Filters.StreamBatches` | pysdr/filters.py:33-39 | the test loop's concatenated outputs are the model's stream output, and once `N - 1` samples are dropped they equal the valid convolution of the concatenated batches |
| `Filters.Chunks` | pysdr/filters.py:36-37 | `len(x) / size` batches of exactly `size` samples whose concatenation is `x` without its last `len(x) % size` samples |
| `Filters.ContinuityTest` | pysdr/filters.py:26-43 | the test's comparison passes exactly when the batch size divides the signal length, so it always passes for 2000 samples in batches of 200 |
| `Filters.TwoFilters` | pysdr/filters.py:9-15 | two filters built from the same taps and fed in lock step each produce their own stream output, so they never see each other's state, and the same batches give the same outputs |
| `Filters.FilterAsWritten` | pysdr/filters.py:12-15 | one call as written: numpy's empty-input error exactly when state and batch are both empty; otherwise it raises exactly when the batch has other than one sample and either there is one tap or the batch is shorter than `N - 1`. On success the output is the valid convolution of state and batch, and the new state is the last `N - 1` samples, or the single sample repeated `N - 1` times for a short one-sample batch |
| `Filters.AsWrittenAgrees` | pysdr/filters.py:13-14 | with at least two taps and batches of at least `N - 1` samples, the code as written (numpy slicing and slice assignment) is exactly the streaming model |
| `Filters.SingleTapAsWrittenRejects` | pysdr/filters.py:11-14 | as written, a one-tap filter raises on every batch of two samples or more |
| `Filters.ShortBatchAsWritten` | pysdr/filters.py:14 | as written, a batch shorter than `N - 1` raises, unless it has one sample, which is then broadcast over the whole state |
| `Filters.OneSampleBatchCorruptsState` | pysdr/filters.py:14 | taps `[1, 1, 1]`, state `[3, 4]` and batch `[5]` leave the state `[5, 5]` instead of `[4, 5]` |
| `RxAccounting.Step` | usrp_qt5_app.py:107-138 | each batch adds `received * num_channels` samples (line 83). An overflow sets the flag, overwrites the timestamp and bumps exactly one of seqerr or overruns. A clean batch clears the flag, and adds `(t - last_overflow) * rate` dropped samples only if an overflow was pending. Late and timeout bump only their own counter. Other codes change nothing but the sample count |
| `RxAccounting.RunCounts` | usrp_qt5_app.py:68-138 | after any batch sequence: samples are the total received times the channel count, overruns and seqerr count overflows by their out-of-sequence flag, late and timeouts count their codes, and all start at 0 |
| `RxAccounting.RunTracksOverflow` | usrp_qt5_app.py:108-117 | the flag is set exactly while some overflow is not yet followed by a clean batch, and the timestamp is that of the latest overflow (0 before any) |
| `RxAccounting.RunDrops` | usrp_qt5_app.py:108-117 | the drop estimate is the sum, over clean batches that close an open episode, of the ticks elapsed since the latest overflow before them. Each episode counts once |
| `RxAccounting.StepMonotone` | usrp_qt5_app.py:107-138 | a batch no earlier than the pending overflow lowers no counter |
| `RxAccounting.RunMonotone` | usrp_qt5_app.py:107-138 | with non-decreasing timestamps, the counters after any prefix are at most the final counters |
| `RxAccounting.LatestOverflowScenario` | usrp_qt5_app.py:115-117 | overflows at 10 and 12, resolved at 15 with rate 1000, give 2 overruns and 3000 dropped samples |
| `RxBenchmark.Export` | usrp_qt5_app.py:141-146 | the exported dictionary holds exactly the six keys, each with its counter |
| `RxBenchmark.RxStatistics.constructor` | usrp_qt5_app.py:219 | the shared statistics dictionary starts empty |
| `RxBenchmark.ReceiveLoop` | usrp_qt5_app.py:68-138 | the loop over the local variables ends in the state of the accounting fold, and it re-issues the stream command exactly after the batches reporting a late command |
| `RxBenchmark.BenchmarkRxRate` | usrp_qt5_app.py:103-146 | if recv raised, the function returns and `rx_statistics` is untouched. Otherwise the six counters of the fold are written into it under their keys, and other keys are kept |

## Findings

| source | as written | input that shows it | evidently intended | confidence | as-written member | corrected member |
|---|---|---|---|---|---|---|
| pysdr/filters.py:14 | with one tap the slice `x[-(len(taps)-1):]` is `x[-0:]`, the whole batch, assigned into a zero-length state; numpy raises ValueError | taps `[2]`, batch `[1, 2]` | a one-tap filter keeps an empty state and scales each sample by its tap | high, not executed | `Filters.SingleTapAsWrittenRejects` | `Convolution.SingleTapIsGain` |

The corrected step stores the last `N - 1` samples of the batch, which is no
samples when `N = 1`. `Convolution.FilterStep` and `Filters.FirFilter.Filter`
are written that way, and `Convolution.Continuity` holds for one tap too.

## Left out

- All UHD calls are left out: device creation, `recv`, `issue_stream_cmd`, `get_time_now`, rate and frequency setup, the stop command (line 148) and the drain loop. The batches recv returned, the channel count and the rate are parameters. A restart is reported as the batch positions in `restartAt`.
- A RuntimeError from `recv` is the boolean `recvFailed`. It ends the loop after the given batches.
- Plotting, FFT, the waterfall, the `i == 300` display counter and all Qt/pyqtgraph setup are left out. This is display code in floating point.
- Threading, `quit_event`, the unlocked sharing of `rx_statistics` and the thread join are left out. The loop's end is the end of the batch sequence.
- `check_channels` and logging are left out.
- Samples are integers, not complex64. Floating-point rounding, and so the float equality the Python test relies on, is not modelled. Nor is the state's dtype: `np.zeros(len(taps) - 1)` is float64 (`pysdr/filters.py:11`), so for complex input the assignment at line 14 drops the imaginary part of the stored tail, numpy only warns, and continuity breaks. The model's state holds the samples exactly.
- `get_real_secs` and `TimeSpec.to_ticks` are replaced by integer time units times an integer rate. Their rounding is not modelled.
- `Convolution.ValidConv`: numpy's `convolve` swaps its arguments when the signal is shorter than the kernel. The model returns no output then. Neither the filter nor the test reaches that case, except an empty batch, on which numpy raises (see the `Filters.FirFilter.Filter` line).
- `Filters.FirFilter.constructor`: it requires at least one tap. With no taps, numpy raises on `np.zeros(-1)`, and the model makes that a precondition rather than an error value.
- `Filters.FirFilter.Filter`: it requires batches of at least `N - 1` samples, the limit stated in the FIXME at line 14. What the code does with shorter batches is modelled by `Filters.FilterAsWritten`, `Filters.ShortBatchAsWritten` and `Filters.OneSampleBatchCorruptsState`, not by the class. With one tap the class (like `Convolution.FilterStep`) accepts an empty batch and returns no output, where `np.convolve` raises; `Filters.FilterAsWritten` returns that error.
- `Filters.ContinuityTest`: it requires a signal at least as long as the kernel (the test uses 2000 samples and 100 taps), because of numpy's argument swap above. Random signal generation is replaced by the signal as a parameter.
- `RxAccounting.RunDrops`: `metadata.time_spec` is modelled as a copy taken when line 117 stores it in `last_overflow`. The metadata object is reused and refilled by every `recv` (line 83); if the bindings hand out the time spec by reference, `last_overflow` would follow each new batch's time and the estimate at lines 112-114 would be 0. That aliasing is not modelled.
