/**
  The per-batch status accounting of benchmark_rx_rate (usrp_qt5_app.py),
  stated as a pure step function over an abstract receive event, its fold
  over a sequence of batches, and independent reference definitions of what
  each counter ends up holding.

  Timestamps are integer time units and `rate` is the number of sample
  ticks per unit, so converting an elapsed time to ticks is a product.
 */
module RxAccounting {

  /** The receive error codes the loop tells apart; every other code UHD
      can report falls under OtherError. */
  datatype ErrorCode = NoError | Overflow | Late | Timeout | OtherError

  /** What recv reports alongside a batch. */
  datatype Metadata = Metadata(errorCode: ErrorCode, outOfSequence: bool, timeSpec: int)

  /** One successful recv: samples received per channel, and its metadata. */
  datatype Batch = Batch(received: nat, metadata: Metadata)

  /** The six counters exported to rx_statistics. The drop estimate is an
      integer that a timestamp going backwards can lower. */
  datatype Stats = Stats(samps: nat, dropped: int, overruns: nat, seqerr: nat, timeouts: nat, late: nat)

  /** The loop's whole state: the pending-overflow flag, the time of the
      overflow it was last set by, and the counters. */
  datatype Monitor = Monitor(hadAnOverflow: bool, lastOverflow: int, stats: Stats)

  /** No overflow pending, the timestamp at TimeSpec(0), every counter 0. */
  function Initial(): Monitor
  {
    Monitor(false, 0, Stats(0, 0, 0, 0, 0, 0))
  }

  function Code(b: Batch): ErrorCode
  {
    b.metadata.errorCode
  }

  /** A late command leaves the radio idle: the loop must issue a new stream
      command. */
  predicate RestartsStream(b: Batch)
  {
    Code(b) == Late
  }

  /** Accounting for one received batch of `numChannels` channels. */
  function Step(m: Monitor, b: Batch, numChannels: nat, rate: nat): (r: Monitor)
    // every batch counts its samples, whatever its status
    ensures r.stats.samps == m.stats.samps + b.received * numChannels
    // an overflow counts exactly once, as a sequence error or as an overrun
    ensures r.stats.overruns + r.stats.seqerr
         == m.stats.overruns + m.stats.seqerr + (if Code(b) == Overflow then 1 else 0)
    ensures r.stats.seqerr == m.stats.seqerr + (if Code(b) == Overflow && b.metadata.outOfSequence then 1 else 0)
    ensures r.stats.late == m.stats.late + (if Code(b) == Late then 1 else 0)
    ensures r.stats.timeouts == m.stats.timeouts + (if Code(b) == Timeout then 1 else 0)
    // an overflow is pending from the latest overflow to the next clean batch
    ensures Code(b) == Overflow ==> r.hadAnOverflow && r.lastOverflow == b.metadata.timeSpec
    ensures Code(b) == NoError ==> !r.hadAnOverflow && r.lastOverflow == m.lastOverflow
    // the drop estimate moves only when a clean batch ends a pending overflow
    ensures r.stats.dropped != m.stats.dropped ==> Code(b) == NoError && m.hadAnOverflow
    ensures Code(b) == NoError && m.hadAnOverflow ==>
      r.stats.dropped == m.stats.dropped + (b.metadata.timeSpec - m.lastOverflow) * rate
    // late, timeout and unknown codes leave the overflow tracking alone
    ensures Code(b) != NoError && Code(b) != Overflow ==>
      r.hadAnOverflow == m.hadAnOverflow && r.lastOverflow == m.lastOverflow
  {
    var s := m.stats.(samps := m.stats.samps + b.received * numChannels);
    var t := b.metadata.timeSpec;
    match Code(b)
    case NoError =>
      if m.hadAnOverflow then
        Monitor(false, m.lastOverflow, s.(dropped := s.dropped + (t - m.lastOverflow) * rate))
      else m.(stats := s)
    case Overflow =>
      if b.metadata.outOfSequence then Monitor(true, t, s.(seqerr := s.seqerr + 1))
      else Monitor(true, t, s.(overruns := s.overruns + 1))
    case Late => m.(stats := s.(late := s.late + 1))
    case Timeout => m.(stats := s.(timeouts := s.timeouts + 1))
    case OtherError => m.(stats := s)
  }

  /** The state after accounting for every batch in order. */
  function Run(bs: seq<Batch>, numChannels: nat, rate: nat): Monitor
  {
    if bs == [] then Initial()
    else Step(Run(bs[..|bs| - 1], numChannels, rate), bs[|bs| - 1], numChannels, rate)
  }

  // Reference definitions, one per counter.

  /** Samples per channel over all batches. */
  function TotalReceived(bs: seq<Batch>): nat
  {
    if bs == [] then 0 else bs[0].received + TotalReceived(bs[1..])
  }

  /** Number of batches reporting `code`. */
  function CountCode(bs: seq<Batch>, code: ErrorCode): nat
  {
    if bs == [] then 0 else (if Code(bs[0]) == code then 1 else 0) + CountCode(bs[1..], code)
  }

  /** Number of overflows whose out-of-sequence flag is `outOfSequence`. */
  function CountOverflows(bs: seq<Batch>, outOfSequence: bool): nat
  {
    if bs == [] then 0
    else
      (if Code(bs[0]) == Overflow && bs[0].metadata.outOfSequence == outOfSequence then 1 else 0)
      + CountOverflows(bs[1..], outOfSequence)
  }

  /** An overflow episode is open: some overflow has not yet been followed
      by a clean batch. */
  ghost predicate Pending(bs: seq<Batch>)
  {
    exists j :: 0 <= j < |bs| && Code(bs[j]) == Overflow && Clean(bs, j)
  }

  /** No clean batch follows position j. */
  ghost predicate Clean(bs: seq<Batch>, j: int)
    requires 0 <= j < |bs|
  {
    forall k :: j < k < |bs| ==> Code(bs[k]) != NoError
  }

  /** Time of the latest overflow, or 0 when there was none. */
  function LatestOverflowTime(bs: seq<Batch>): int
  {
    if bs == [] then 0
    else if Code(bs[|bs| - 1]) == Overflow then bs[|bs| - 1].metadata.timeSpec
    else LatestOverflowTime(bs[..|bs| - 1])
  }

  /** The drop estimate: every clean batch that ends an open episode adds
      the ticks elapsed since the latest overflow before it. */
  ghost function Drops(bs: seq<Batch>, rate: nat): int
  {
    if bs == [] then 0
    else
      var p, b := bs[..|bs| - 1], bs[|bs| - 1];
      Drops(p, rate)
      + (if Code(b) == NoError && Pending(p) then (b.metadata.timeSpec - LatestOverflowTime(p)) * rate else 0)
  }

  /** CountCode and friends counted from the other end. */
  lemma {:induction false} CountsAtEnd(bs: seq<Batch>, b: Batch)
    ensures TotalReceived(bs + [b]) == TotalReceived(bs) + b.received
    ensures CountCode(bs + [b], Code(b)) == CountCode(bs, Code(b)) + 1
    ensures forall c :: c != Code(b) ==> CountCode(bs + [b], c) == CountCode(bs, c)
    ensures forall o :: CountOverflows(bs + [b], o)
                     == CountOverflows(bs, o) + (if Code(b) == Overflow && b.metadata.outOfSequence == o then 1 else 0)
  {
    if bs != [] {
      assert (bs + [b])[1..] == bs[1..] + [b];
      CountsAtEnd(bs[1..], b);
    }
  }

  /** Each counter holds exactly what its reference definition says:
      samples received times channels, the overflows split by sequence
      flag, the late commands and the timeouts. */
  lemma {:induction false} RunCounts(bs: seq<Batch>, numChannels: nat, rate: nat)
    ensures Run(bs, numChannels, rate).stats.samps == TotalReceived(bs) * numChannels
    ensures Run(bs, numChannels, rate).stats.overruns == CountOverflows(bs, false)
    ensures Run(bs, numChannels, rate).stats.seqerr == CountOverflows(bs, true)
    ensures Run(bs, numChannels, rate).stats.late == CountCode(bs, Late)
    ensures Run(bs, numChannels, rate).stats.timeouts == CountCode(bs, Timeout)
  {
    if bs != [] {
      var p, b := bs[..|bs| - 1], bs[|bs| - 1];
      assert p + [b] == bs;
      RunCounts(p, numChannels, rate);
      CountsAtEnd(p, b);
      MulAddDistrib(TotalReceived(p), b.received, numChannels);
    }
  }

  /** Multiplication distributes over addition. */
  lemma MulAddDistrib(a: nat, b: nat, c: nat)
    ensures (a + b) * c == a * c + b * c
  {
  }

  /** The overflow flag is set exactly while an episode is open, and the
      timestamp is that of the latest overflow. */
  lemma {:induction false} RunTracksOverflow(bs: seq<Batch>, numChannels: nat, rate: nat)
    ensures Run(bs, numChannels, rate).hadAnOverflow <==> Pending(bs)
    ensures Run(bs, numChannels, rate).lastOverflow == LatestOverflowTime(bs)
  {
    if bs != [] {
      var p, b := bs[..|bs| - 1], bs[|bs| - 1];
      RunTracksOverflow(p, numChannels, rate);
      var r := Run(bs, numChannels, rate);
      match Code(b)
      case NoError =>
      case Overflow =>
        assert Code(bs[|bs| - 1]) == Overflow && Clean(bs, |bs| - 1);
      case _ =>
        if Pending(p) {
          var j :| 0 <= j < |p| && Code(p[j]) == Overflow && Clean(p, j);
          assert Code(bs[j]) == Overflow && Clean(bs, j);
        }
        if Pending(bs) {
          var j :| 0 <= j < |bs| && Code(bs[j]) == Overflow && Clean(bs, j);
          assert j < |p| && Code(p[j]) == Overflow;
          forall k | j < k < |p| ensures Code(p[k]) != NoError {
            assert p[k] == bs[k];
          }
          assert Clean(p, j);
        }
    }
  }

  /** The drop estimate matches its reference: one contribution per closed
      episode, measured from the latest overflow in it. */
  lemma {:induction false} RunDrops(bs: seq<Batch>, numChannels: nat, rate: nat)
    ensures Run(bs, numChannels, rate).stats.dropped == Drops(bs, rate)
  {
    if bs != [] {
      var p := bs[..|bs| - 1];
      RunDrops(p, numChannels, rate);
      RunTracksOverflow(p, numChannels, rate);
    }
  }

  /** Timestamps never go backwards along the batches. */
  predicate NonDecreasingTimes(bs: seq<Batch>)
  {
    forall i, j :: 0 <= i < j < |bs| ==> bs[i].metadata.timeSpec <= bs[j].metadata.timeSpec
  }

  /** Every counter of `a` is at most the same counter of `b`. */
  predicate StatsLe(a: Stats, b: Stats)
  {
    a.samps <= b.samps && a.dropped <= b.dropped && a.overruns <= b.overruns
    && a.seqerr <= b.seqerr && a.timeouts <= b.timeouts && a.late <= b.late
  }

  /** Once there has been an overflow, the latest one is no later than any
      bound on all the timestamps. */
  lemma {:induction false} LatestOverflowBound(bs: seq<Batch>, j: nat, bound: int)
    requires j < |bs| && Code(bs[j]) == Overflow
    requires forall i :: 0 <= i < |bs| ==> bs[i].metadata.timeSpec <= bound
    ensures LatestOverflowTime(bs) <= bound
  {
    if Code(bs[|bs| - 1]) != Overflow {
      LatestOverflowBound(bs[..|bs| - 1], j, bound);
    }
  }

  /** One step never lowers a counter, provided the batch is no earlier than
      a pending overflow. */
  lemma StepMonotone(m: Monitor, b: Batch, numChannels: nat, rate: nat)
    requires m.hadAnOverflow ==> m.lastOverflow <= b.metadata.timeSpec
    ensures StatsLe(m.stats, Step(m, b, numChannels, rate).stats)
  {
  }

  /** With timestamps that never go backwards, no counter ever decreases:
      the counters after any prefix of the batches are at most the final ones. */
  lemma {:induction false} RunMonotone(bs: seq<Batch>, n: nat, numChannels: nat, rate: nat)
    requires n <= |bs| && NonDecreasingTimes(bs)
    ensures StatsLe(Run(bs[..n], numChannels, rate).stats, Run(bs, numChannels, rate).stats)
  {
    if n == |bs| {
      assert bs[..n] == bs;
    } else {
      var p, b := bs[..|bs| - 1], bs[|bs| - 1];
      assert p[..n] == bs[..n];
      assert NonDecreasingTimes(p);
      RunMonotone(p, n, numChannels, rate);
      var m := Run(p, numChannels, rate);
      if m.hadAnOverflow {
        RunTracksOverflow(p, numChannels, rate);
        var j :| 0 <= j < |p| && Code(p[j]) == Overflow && Clean(p, j);
        assert forall i :: 0 <= i < |p| ==> p[i].metadata.timeSpec <= b.metadata.timeSpec;
        LatestOverflowBound(p, j, b.metadata.timeSpec);
      }
      StepMonotone(m, b, numChannels, rate);
    }
  }

  /** Two overflows at t = 10 and t = 12 resolved by a clean batch at t = 15,
      at 1000 ticks per unit: two overruns, and 3000 dropped samples measured
      from the second overflow, not 5000 from the first. */
  lemma LatestOverflowScenario()
    ensures var bs := [Batch(1, Metadata(NoError, false, 0)), Batch(1, Metadata(Overflow, false, 10)),
                       Batch(1, Metadata(Overflow, false, 12)), Batch(1, Metadata(NoError, false, 15))];
            Run(bs, 1, 1000).stats == Stats(4, 3000, 2, 0, 0, 0)
  {
    var bs := [Batch(1, Metadata(NoError, false, 0)), Batch(1, Metadata(Overflow, false, 10)),
               Batch(1, Metadata(Overflow, false, 12)), Batch(1, Metadata(NoError, false, 15))];
    assert bs[..3][..2][..1][..0] == [];
    assert bs[..3][..2][..1] == bs[..1] && bs[..3][..2] == bs[..2];
    assert Run(bs[..1], 1, 1000) == Monitor(false, 0, Stats(1, 0, 0, 0, 0, 0));
    assert Run(bs[..2], 1, 1000) == Monitor(true, 10, Stats(2, 0, 1, 0, 0, 0));
    assert Run(bs[..3], 1, 1000) == Monitor(true, 12, Stats(3, 0, 2, 0, 0, 0));
  }
}
