/**
 * The /receive handler: decode the request, partition each series' labels,
 * execute one insert per sample inside a single transaction, commit, and
 * record the outcome.
 */
module Receive {
  import opened Remote
  import opened Rows

  datatype Option<T> = None | Some(value: T)

  /** What snappy decompression followed by protobuf unmarshalling produced. */
  datatype Decoded = Decoded(req: WriteRequest) | DecodeFailed(err: string)

  const StatusOK: int := 200
  const StatusBadRequest: int := 400

  /** How the handler ends: an HTTP response, or the process halting in log.Fatal. */
  datatype Reply = Response(status: int, body: string) | Halted

  /** The label values of one transaction-duration observation. */
  datatype Observation = Observation(remote: string, result: string)

  /** The outcome label of the duration observation. */
  function CommitResult(committed: bool): (res: string)
    ensures res == "ok" <==> committed
    ensures res == "failed" <==> !committed
  {
    if committed then "ok" else "failed"
  }

  /** True when no insert of the request's rows is rejected by the driver. */
  predicate AllExecsSucceed(series: seq<TimeSeries>, execFailsAt: Option<nat>)
  {
    execFailsAt.None? || execFailsAt.value >= TotalSamples(series)
  }

  /**
   * Splits a label list into the metric name and the parallel name and value
   * arrays of the remaining labels.
   */
  method PartitionLabels(labels: seq<Label>) returns (metric: string, names: seq<string>, values: seq<string>)
    ensures metric == MetricName(labels)
    ensures names == NamesOf(OtherLabels(labels)) && values == ValuesOf(OtherLabels(labels))
  {
    metric := "";
    names, values := [], [];
    for k := 0 to |labels|
      invariant metric == MetricName(labels[..k])
      invariant names == NamesOf(OtherLabels(labels[..k]))
      invariant values == ValuesOf(OtherLabels(labels[..k]))
    {
      var l := labels[k];
      assert labels[..k + 1][..k] == labels[..k];
      if l.name == MetricNameLabel {
        metric := l.value;
      } else {
        names := names + [l.name];
        values := values + [l.value];
      }
    }
    assert labels[..|labels|] == labels;
  }

  /**
   * The adapter's state: the process-wide received_samples_total counter, the
   * observations made on the transaction-duration histogram, and the store
   * behind the ClickHouse connection (the rows of the transaction last begun
   * and the rows committed so far).
   */
  class Adapter {
    const remote: string
    var receivedSamples: nat
    var observations: seq<Observation>
    var transactions: nat
    var txRows: seq<Row>
    var stored: seq<Row>

    constructor (remote: string)
      ensures this.remote == remote
      ensures receivedSamples == 0 && observations == [] && transactions == 0
      ensures txRows == [] && stored == []
    {
      this.remote := remote;
      receivedSamples, observations, transactions := 0, [], 0;
      txRows, stored := [], [];
    }

    /** Opens a transaction (its error is discarded, so it is taken to succeed). */
    method Begin()
      modifies this`transactions, this`txRows
      ensures transactions == old(transactions) + 1 && txRows == []
    {
      transactions := transactions + 1;
      txRows := [];
    }

    /**
     * Executes the prepared insert with one row. `failsAt` is the position,
     * within the transaction, of the first row the driver rejects.
     */
    method Exec(row: Row, failsAt: Option<nat>) returns (ok: bool)
      modifies this`txRows
      ensures ok <==> failsAt != Some(|old(txRows)|)
      ensures txRows == if ok then old(txRows) + [row] else old(txRows)
    {
      ok := failsAt != Some(|txRows|);
      if ok {
        txRows := txRows + [row];
      }
    }

    /** Commits the transaction; `succeeds` is the driver's answer. */
    method Commit(succeeds: bool) returns (committed: bool)
      modifies this`stored
      ensures committed == succeeds
      ensures stored == if succeeds then old(stored) + txRows else old(stored)
    {
      committed := succeeds;
      if succeeds {
        stored := stored + txRows;
      }
    }

    /**
     * Executes the insert once per sample of `ts`, in sample order, with the
     * series' partitioned labels; stops at the first row the driver rejects.
     */
    method InsertSeries(ts: TimeSeries, metric: string, names: seq<string>, values: seq<string>,
                        execFailsAt: Option<nat>) returns (ok: bool)
      requires metric == MetricName(ts.labels)
      requires names == NamesOf(OtherLabels(ts.labels)) && values == ValuesOf(OtherLabels(ts.labels))
      requires execFailsAt.Some? ==> |txRows| <= execFailsAt.value
      modifies this`txRows
      ensures ok <==> execFailsAt.None? || execFailsAt.value >= |old(txRows)| + |ts.samples|
      ensures ok ==> txRows == old(txRows) + SeriesRows(ts)
      ensures !ok ==> txRows == old(txRows) + SeriesRows(ts)[..execFailsAt.value - |old(txRows)|]
    {
      for j := 0 to |ts.samples|
        invariant txRows == old(txRows) + SeriesRows(ts)[..j]
        invariant execFailsAt.Some? ==> |old(txRows)| + j <= execFailsAt.value
      {
        var s := ts.samples[j];
        var eventDate := GoDiv(s.timestampMs as int, 1000) as Int64;
        ok := Exec(Row(eventDate, eventDate, metric, names, values, s.value), execFailsAt);
        if !ok {
          return;
        }
        assert SeriesRows(ts)[..j + 1] == SeriesRows(ts)[..j] + [SeriesRows(ts)[j]];
      }
      assert SeriesRows(ts)[..|ts.samples|] == SeriesRows(ts);
      ok := true;
    }

    /**
     * Handles one request. A decode failure answers 400 with the error text
     * and changes nothing. Otherwise one transaction receives one row per
     * sample, series by series; the counter grows by each series' sample
     * count before that series' rows are executed; a rejected row halts the
     * process; after the commit the outcome is observed as "ok" or "failed"
     * and the sender gets an empty 200 response either way.
     */
    method Handle(decoded: Decoded, execFailsAt: Option<nat>, commitSucceeds: bool) returns (reply: Reply)
      modifies this
      ensures decoded.DecodeFailed? ==>
        reply == Response(StatusBadRequest, decoded.err + "\n") && unchanged(this)
      ensures decoded.Decoded? ==> transactions == old(transactions) + 1
      ensures decoded.Decoded? && AllExecsSucceed(decoded.req.timeseries, execFailsAt) ==>
        var series := decoded.req.timeseries;
        && reply == Response(StatusOK, "")
        && receivedSamples == old(receivedSamples) + TotalSamples(series)
        && txRows == Flatten(series)
        && stored == old(stored) + (if commitSucceeds then Flatten(series) else [])
        && observations == old(observations) + [Observation(remote, CommitResult(commitSucceeds))]
      ensures decoded.Decoded? && !AllExecsSucceed(decoded.req.timeseries, execFailsAt) ==>
        var series, n := decoded.req.timeseries, execFailsAt.value;
        && reply == Halted
        && n < |Flatten(series)| && txRows == Flatten(series)[..n]
        && stored == old(stored) && observations == old(observations)
        && exists k :: 0 <= k < |series| && TotalSamples(series[..k]) <= n < TotalSamples(series[..k + 1])
                       && receivedSamples == old(receivedSamples) + TotalSamples(series[..k + 1])
    {
      if decoded.DecodeFailed? {
        reply := Response(StatusBadRequest, decoded.err + "\n");
        return;
      }
      var series := decoded.req.timeseries;
      Begin();
      for i := 0 to |series|
        invariant txRows == Flatten(series[..i])
        invariant receivedSamples == old(receivedSamples) + TotalSamples(series[..i])
        invariant stored == old(stored) && observations == old(observations)
        invariant transactions == old(transactions) + 1
        invariant execFailsAt.Some? ==> TotalSamples(series[..i]) <= execFailsAt.value
      {
        var ts := series[i];
        var metric, names, values := PartitionLabels(ts.labels);
        FlattenStep(series, i);
        receivedSamples := receivedSamples + |ts.samples|;
        var ok := InsertSeries(ts, metric, names, values, execFailsAt);
        if !ok {
          var j := execFailsAt.value - TotalSamples(series[..i]);
          FlattenPrefix(series, i, j);
          reply := Halted;
          return;
        }
      }
      assert series[..|series|] == series;
      var committed := Commit(commitSucceeds);
      observations := observations + [Observation(remote, CommitResult(committed))];
      reply := Response(StatusOK, "");
    }
  }

  /** Re-sending an identical payload stores its rows twice: rows carry no de-duplication key. */
  method ResendStoresTwice(adapter: Adapter, req: WriteRequest)
    modifies adapter
    ensures adapter.stored == old(adapter.stored) + Flatten(req.timeseries) + Flatten(req.timeseries)
    ensures adapter.receivedSamples == old(adapter.receivedSamples) + 2 * TotalSamples(req.timeseries)
    ensures adapter.observations == old(adapter.observations) + [Observation(adapter.remote, "ok"), Observation(adapter.remote, "ok")]
    ensures adapter.transactions == old(adapter.transactions) + 2
  {
    var first := adapter.Handle(Decoded(req), None, true);
    var second := adapter.Handle(Decoded(req), None, true);
  }
}
