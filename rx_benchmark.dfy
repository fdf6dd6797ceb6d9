/**
  The receive loop of benchmark_rx_rate (usrp_qt5_app.py) with its local
  counters, and the export of those counters into the shared statistics
  dictionary.

  The radio is abstracted away: the batches recv returned before the loop
  stopped are a parameter, and so is whether the loop stopped because the
  stop event was set or because recv raised a RuntimeError.
 */
module RxBenchmark {
  import opened RxAccounting

  /** The keys benchmark_rx_rate writes into rx_statistics. */
  const StatisticKeys: set<string> :=
    {"num_rx_samps", "num_rx_dropped", "num_rx_overruns", "num_rx_seqerr", "num_rx_timeouts", "num_rx_late"}

  /** The dictionary the receive thread shares with the main thread. */
  class RxStatistics {
    var entries: map<string, int>

    constructor ()
      ensures entries == map[]
    {
      entries := map[];
    }
  }

  /** The six counters under their keys. */
  function Export(s: Stats): (d: map<string, int>)
    ensures d.Keys == StatisticKeys
    ensures d["num_rx_samps"] == s.samps && d["num_rx_dropped"] == s.dropped
    ensures d["num_rx_overruns"] == s.overruns && d["num_rx_seqerr"] == s.seqerr
    ensures d["num_rx_timeouts"] == s.timeouts && d["num_rx_late"] == s.late
  {
    map["num_rx_samps" := s.samps, "num_rx_dropped" := s.dropped,
        "num_rx_overruns" := s.overruns, "num_rx_seqerr" := s.seqerr,
        "num_rx_timeouts" := s.timeouts, "num_rx_late" := s.late]
  }

  /** The loop over received batches. It ends in the state the accounting
      model predicts, and it re-issues the stream command exactly after the
      batches that reported a late command. */
  method ReceiveLoop(batches: seq<Batch>, numChannels: nat, rate: nat)
    returns (m: Monitor, restartAt: seq<nat>)
    ensures m == Run(batches, numChannels, rate)
    ensures forall k :: k in restartAt ==> k < |batches| && RestartsStream(batches[k])
    ensures forall k :: 0 <= k < |batches| && RestartsStream(batches[k]) ==> k in restartAt
  {
    var hadAnOverflow := false;
    var lastOverflow := 0;
    var numRxSamps: nat := 0;
    var numRxDropped := 0;
    var numRxOverruns: nat := 0;
    var numRxSeqerr: nat := 0;
    var numRxTimeouts: nat := 0;
    var numRxLate: nat := 0;
    restartAt := [];
    var i := 0;
    while i < |batches|
      invariant 0 <= i <= |batches|
      invariant Monitor(hadAnOverflow, lastOverflow,
                        Stats(numRxSamps, numRxDropped, numRxOverruns, numRxSeqerr, numRxTimeouts, numRxLate))
             == Run(batches[..i], numChannels, rate)
      invariant forall k :: k in restartAt ==> k < i && RestartsStream(batches[k])
      invariant forall k :: 0 <= k < i && RestartsStream(batches[k]) ==> k in restartAt
    {
      var b := batches[i];
      assert batches[..i + 1][..i] == batches[..i];
      numRxSamps := numRxSamps + b.received * numChannels;
      var md := b.metadata;
      if md.errorCode == NoError {
        if hadAnOverflow {
          hadAnOverflow := false;
          numRxDropped := numRxDropped + (md.timeSpec - lastOverflow) * rate;
        }
      } else if md.errorCode == Overflow {
        hadAnOverflow := true;
        lastOverflow := md.timeSpec;
        if md.outOfSequence {
          numRxSeqerr := numRxSeqerr + 1;
        } else {
          numRxOverruns := numRxOverruns + 1;
        }
      } else if md.errorCode == Late {
        numRxLate := numRxLate + 1;
        restartAt := restartAt + [i];
      } else if md.errorCode == Timeout {
        numRxTimeouts := numRxTimeouts + 1;
      }
      i := i + 1;
    }
    assert batches[..i] == batches;
    m := Monitor(hadAnOverflow, lastOverflow,
                 Stats(numRxSamps, numRxDropped, numRxOverruns, numRxSeqerr, numRxTimeouts, numRxLate));
  }

  /** benchmark_rx_rate: run the loop, then write the six counters into
      rx_statistics, keeping whatever else it held. When recv raised, the
      function returns early and rx_statistics is left as it was. */
  method BenchmarkRxRate(batches: seq<Batch>, recvFailed: bool, numChannels: nat, rate: nat,
                         rxStatistics: RxStatistics)
    returns (restartAt: seq<nat>)
    modifies rxStatistics
    ensures recvFailed ==> rxStatistics.entries == old(rxStatistics.entries)
    ensures !recvFailed ==>
      rxStatistics.entries == old(rxStatistics.entries) + Export(Run(batches, numChannels, rate).stats)
    ensures forall k :: k in restartAt <==> 0 <= k < |batches| && RestartsStream(batches[k])
  {
    var m;
    m, restartAt := ReceiveLoop(batches, numChannels, rate);
    if recvFailed {
      return;
    }
    ghost var before := rxStatistics.entries;
    rxStatistics.entries := rxStatistics.entries["num_rx_samps" := m.stats.samps];
    rxStatistics.entries := rxStatistics.entries["num_rx_dropped" := m.stats.dropped];
    rxStatistics.entries := rxStatistics.entries["num_rx_overruns" := m.stats.overruns];
    rxStatistics.entries := rxStatistics.entries["num_rx_seqerr" := m.stats.seqerr];
    rxStatistics.entries := rxStatistics.entries["num_rx_timeouts" := m.stats.timeouts];
    rxStatistics.entries := rxStatistics.entries["num_rx_late" := m.stats.late];
    ghost var exported := Export(m.stats);
    assert rxStatistics.entries.Keys == (before + exported).Keys;
    forall k | k in rxStatistics.entries ensures rxStatistics.entries[k] == (before + exported)[k] {
      if k !in StatisticKeys {
        assert k !in exported;
      }
    }
  }
}
