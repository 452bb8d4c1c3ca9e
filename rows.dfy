/**
 * What the /receive handler writes: the partition of a series' labels, the
 * row built for each sample, and the flattening of a whole request into the
 * sequence of rows handed to the insert statement.
 */
module Rows {
  import opened Remote

  /** The six bind parameters of one execution of the insert statement. */
  datatype Row = Row(
    eventDate: Int64,
    eventDateTime: Int64,
    metric: string,
    names: seq<string>,
    values: seq<string>,
    value: Float64)

  /**
   * Go's integer division by a positive divisor, which truncates toward zero
   * (unlike Dafny's `/`, whose remainder is never negative): the remainder
   * takes the sign of the dividend, and the quotient lies between 0 and the
   * dividend.
   */
  function GoDiv(a: int, b: int): (q: int)
    requires b > 0
    ensures a >= 0 ==> 0 <= a - q * b < b && 0 <= q <= a
    ensures a < 0 ==> -b < a - q * b <= 0 && a <= q <= 0
  {
    if a >= 0 then
      DivRemainder(a, b);
      a / b
    else
      var m := (-a) / b;
      DivRemainder(-a, b);
      NegMul(m, b);
      -m
  }

  lemma NegMul(m: int, b: int)
    ensures (-m) * b == -(m * b)
  {
  }

  lemma DivRemainder(n: nat, d: nat)
    requires d > 0
    ensures 0 <= n - (n / d) * d < d
    ensures 0 <= n / d <= n
  {
    var q, r := n / d, n % d;
    assert n == d * q + r;
    assert q * d >= q by { MulAtLeast(q, d); }
  }

  lemma MulAtLeast(q: nat, d: nat)
    requires d >= 1
    ensures q * d >= q
  {
  }

  /** Seconds since the epoch of a millisecond timestamp, as `s.TimestampMs / 1000` computes it. */
  function EventSeconds(ms: Int64): (s: Int64)
    ensures ms >= 0 ==> 0 <= ms as int - s as int * 1000 < 1000
    ensures ms < 0 ==> -1000 < ms as int - s as int * 1000 <= 0
  {
    GoDiv(ms as int, 1000) as Int64
  }

  /** The metric name of a label list: the value of the last `__name__` label, or "" if there is none. */
  function MetricName(labels: seq<Label>): (metric: string)
    ensures metric == "" || Label(MetricNameLabel, metric) in labels
  {
    if labels == [] then ""
    else if labels[|labels| - 1].name == MetricNameLabel then labels[|labels| - 1].value
    else MetricName(labels[..|labels| - 1])
  }

  /** The labels other than `__name__`, in the order they were met. */
  function OtherLabels(labels: seq<Label>): (others: seq<Label>)
    ensures |others| <= |labels|
  {
    if labels == [] then []
    else
      var rest := OtherLabels(labels[..|labels| - 1]);
      var last := labels[|labels| - 1];
      if last.name == MetricNameLabel then rest else rest + [last]
  }

  function NamesOf(labels: seq<Label>): seq<string>
  {
    seq(|labels|, i requires 0 <= i < |labels| => labels[i].name)
  }

  function ValuesOf(labels: seq<Label>): seq<string>
  {
    seq(|labels|, i requires 0 <= i < |labels| => labels[i].value)
  }

  /** The row the handler executes for sample `s` of series `ts`. */
  function SampleRow(ts: TimeSeries, s: Sample): (r: Row)
    ensures |r.names| == |r.values| && MetricNameLabel !in r.names
  {
    var seconds := EventSeconds(s.timestampMs);
    var others := OtherLabels(ts.labels);
    OtherLabelsMembers(ts.labels);
    assert forall i :: 0 <= i < |others| ==> others[i] in others;
    Row(seconds, seconds, MetricName(ts.labels), NamesOf(others), ValuesOf(others), s.value)
  }

  /** The rows of one series: one per sample, in sample order. */
  function SeriesRows(ts: TimeSeries): (rows: seq<Row>)
    ensures |rows| == |ts.samples|
  {
    seq(|ts.samples|, j requires 0 <= j < |ts.samples| => SampleRow(ts, ts.samples[j]))
  }

  /** The rows of a whole request: series by series, in order. */
  function Flatten(series: seq<TimeSeries>): (rows: seq<Row>)
    ensures |rows| == TotalSamples(series)
  {
    if series == [] then []
    else Flatten(series[..|series| - 1]) + SeriesRows(series[|series| - 1])
  }

  /** The number of samples in a request (what received_samples_total grows by). */
  function TotalSamples(series: seq<TimeSeries>): (n: nat)
  {
    if series == [] then 0
    else TotalSamples(series[..|series| - 1]) + |series[|series| - 1].samples|
  }

  // ---------------------------------------------------------------------------
  // Time fields

  /** Truncation toward zero differs from Dafny's division for a negative timestamp. */
  lemma GoDivTruncates()
    ensures GoDiv(-1500, 1000) == -1 && -1500 / 1000 == -2
    ensures GoDiv(1500, 1000) == 1
  {
  }

  // ---------------------------------------------------------------------------
  // Label partitioning

  /** The metric name is "" without a `__name__` label, else the value of the last one. */
  lemma {:induction false} MetricNameIsLastMarker(labels: seq<Label>)
    ensures (forall i :: 0 <= i < |labels| ==> labels[i].name != MetricNameLabel) ==> MetricName(labels) == ""
    ensures forall i :: 0 <= i < |labels| && labels[i].name == MetricNameLabel
                        && (forall j :: i < j < |labels| ==> labels[j].name != MetricNameLabel)
                        ==> MetricName(labels) == labels[i].value
  {
    if labels != [] {
      var init := labels[..|labels| - 1];
      MetricNameIsLastMarker(init);
      assert forall i :: 0 <= i < |init| ==> init[i] == labels[i];
    }
  }

  /** The other labels are exactly the labels not named `__name__`. */
  lemma {:induction false} OtherLabelsMembers(labels: seq<Label>)
    ensures forall l :: l in OtherLabels(labels) <==> l in labels && l.name != MetricNameLabel
  {
    if labels != [] {
      var init := labels[..|labels| - 1];
      OtherLabelsMembers(init);
      assert labels == init + [labels[|labels| - 1]];
    }
  }

  /** Partitioning keeps relative order: it distributes over concatenation. */
  lemma {:induction false} OtherLabelsConcat(a: seq<Label>, b: seq<Label>)
    ensures OtherLabels(a + b) == OtherLabels(a) + OtherLabels(b)
  {
    if b != [] {
      var init := b[..|b| - 1];
      OtherLabelsConcat(a, init);
      assert (a + b)[..|a + b| - 1] == a + init;
    } else {
      assert a + b == a;
    }
  }

  /** A single label is kept exactly when it is not the metric-name label. */
  lemma OtherLabelsSingle(l: Label)
    ensures OtherLabels([l]) == if l.name == MetricNameLabel then [] else [l]
  {
    assert [l][..0] == [];
  }

  // ---------------------------------------------------------------------------
  // Rows

  /**
   * Every row of series `ts` carries the series' metric name, equal-length
   * name and value arrays whose i-th entries come from one and the same
   * non-`__name__` label of the series, equal date and date-time fields
   * derived from the sample's timestamp, and the sample's value unchanged.
   */
  lemma SampleRowFields(ts: TimeSeries, s: Sample)
    ensures var r := SampleRow(ts, s);
      && r.metric == MetricName(ts.labels)
      && |r.names| == |r.values|
      && (forall i :: 0 <= i < |r.names| ==>
            Label(r.names[i], r.values[i]) in ts.labels && r.names[i] != MetricNameLabel)
      && r.eventDate == r.eventDateTime == EventSeconds(s.timestampMs)
      && r.value == s.value
  {
    var others := OtherLabels(ts.labels);
    OtherLabelsMembers(ts.labels);
    forall i | 0 <= i < |others|
      ensures Label(NamesOf(others)[i], ValuesOf(others)[i]) in ts.labels
      ensures NamesOf(others)[i] != MetricNameLabel
    {
      assert Label(NamesOf(others)[i], ValuesOf(others)[i]) == others[i];
    }
  }

  /** No row's label-name array ever holds `__name__`. */
  lemma {:induction false} FlattenNoMarker(series: seq<TimeSeries>)
    ensures forall r :: r in Flatten(series) ==> MetricNameLabel !in r.names && |r.names| == |r.values|
  {
    if series != [] {
      var ts := series[|series| - 1];
      FlattenNoMarker(series[..|series| - 1]);
      forall r | r in SeriesRows(ts)
        ensures MetricNameLabel !in r.names && |r.names| == |r.values|
      {
        var j :| 0 <= j < |ts.samples| && SeriesRows(ts)[j] == r;
        SampleRowFields(ts, ts.samples[j]);
      }
    }
  }

  // ---------------------------------------------------------------------------
  // Flattening a request

  lemma {:induction false} TotalSamplesConcat(a: seq<TimeSeries>, b: seq<TimeSeries>)
    ensures TotalSamples(a + b) == TotalSamples(a) + TotalSamples(b)
  {
    if b != [] {
      TotalSamplesConcat(a, b[..|b| - 1]);
      assert (a + b)[..|a + b| - 1] == a + b[..|b| - 1];
    } else {
      assert a + b == a;
    }
  }

  /** Series are handled in order: flattening distributes over concatenation. */
  lemma {:induction false} FlattenConcat(a: seq<TimeSeries>, b: seq<TimeSeries>)
    ensures Flatten(a + b) == Flatten(a) + Flatten(b)
  {
    if b != [] {
      FlattenConcat(a, b[..|b| - 1]);
      assert (a + b)[..|a + b| - 1] == a + b[..|b| - 1];
    } else {
      assert a + b == a;
    }
  }

  /**
   * Series `k` contributes its rows right after all rows of series 0..k-1, and
   * within them the rows follow the samples: the first `j` rows of series `k`
   * close a prefix of the request's rows.
   */
  lemma FlattenPrefix(series: seq<TimeSeries>, k: nat, j: nat)
    requires k < |series| && j <= |series[k].samples|
    ensures TotalSamples(series[..k + 1]) == TotalSamples(series[..k]) + |series[k].samples|
    ensures TotalSamples(series[..k + 1]) <= TotalSamples(series)
    ensures TotalSamples(series[..k]) + j <= |Flatten(series)|
    ensures Flatten(series)[..TotalSamples(series[..k]) + j] == Flatten(series[..k]) + SeriesRows(series[k])[..j]
  {
    var pre, rest := series[..k + 1], series[k + 1..];
    assert series == pre + rest;
    FlattenStep(series, k);
    FlattenConcat(pre, rest);
    TotalSamplesConcat(pre, rest);
    var done, rows, after := Flatten(series[..k]), SeriesRows(series[k]), Flatten(rest);
    assert Flatten(series) == done + rows + after;
    PrefixOfConcat(done, rows, after, j);
  }

  /** Extending a prefix of the request by one series adds that series' rows and samples. */
  lemma FlattenStep(series: seq<TimeSeries>, k: nat)
    requires k < |series|
    ensures Flatten(series[..k + 1]) == Flatten(series[..k]) + SeriesRows(series[k])
    ensures TotalSamples(series[..k + 1]) == TotalSamples(series[..k]) + |series[k].samples|
  {
    assert series[..k + 1][..k] == series[..k];
  }

  lemma PrefixOfConcat<T>(a: seq<T>, b: seq<T>, c: seq<T>, j: nat)
    requires j <= |b|
    ensures (a + b + c)[..|a| + j] == a + b[..j]
  {
  }

  /** The row at a request position is the row of the matching series and sample. */
  lemma FlattenRowAt(series: seq<TimeSeries>, k: nat, j: nat)
    requires k < |series| && j < |series[k].samples|
    ensures TotalSamples(series[..k]) + j < |Flatten(series)|
    ensures Flatten(series)[TotalSamples(series[..k]) + j] == SampleRow(series[k], series[k].samples[j])
  {
    FlattenPrefix(series, k, j + 1);
    var rows, done := SeriesRows(series[k]), Flatten(series[..k]);
    var n := |done| + j;
    assert Flatten(series)[..n + 1] == done + rows[..j + 1];
    assert (done + rows[..j + 1])[n] == rows[j];
    assert Flatten(series)[..n + 1][n] == Flatten(series)[n];
  }

  /** A request without series yields no rows; a series without samples adds none. */
  lemma EmptyYieldsNoRows(series: seq<TimeSeries>)
    requires forall k :: 0 <= k < |series| ==> series[k].samples == []
    ensures Flatten(series) == []
  {
    TotalSamplesZero(series);
  }

  /** A request's sample count is 0 exactly when none of its series carries a sample. */
  lemma {:induction false} TotalSamplesZero(series: seq<TimeSeries>)
    ensures TotalSamples(series) == 0 <==> forall k :: 0 <= k < |series| ==> series[k].samples == []
  {
    if series != [] {
      var init := series[..|series| - 1];
      TotalSamplesZero(init);
      assert forall k :: 0 <= k < |init| ==> init[k] == series[k];
    }
  }

  /**
   * One series labelled `__name__="cpu_usage", host="a1"` with samples at 1000 ms
   * and 2000 ms yields two rows, at seconds 1 and 2, both with metric
   * "cpu_usage" and the label arrays ["host"] and ["a1"].
   */
  lemma CpuUsageExample(v1: Float64, v2: Float64)
    ensures Flatten([TimeSeries([Label(MetricNameLabel, "cpu_usage"), Label("host", "a1")],
                                [Sample(1000, v1), Sample(2000, v2)])])
         == [Row(1, 1, "cpu_usage", ["host"], ["a1"], v1), Row(2, 2, "cpu_usage", ["host"], ["a1"], v2)]
  {
    var name, host := Label(MetricNameLabel, "cpu_usage"), Label("host", "a1");
    var ts := TimeSeries([name, host], [Sample(1000, v1), Sample(2000, v2)]);
    OtherLabelsConcat([name], [host]);
    OtherLabelsSingle(name);
    OtherLabelsSingle(host);
    assert [name, host] == [name] + [host];
    assert OtherLabels(ts.labels) == [host];
    assert MetricName(ts.labels) == "cpu_usage";
    assert EventSeconds(1000) == 1 && EventSeconds(2000) == 2;
    assert [ts][..0] == [];
    assert Flatten([ts]) == SeriesRows(ts);
    assert NamesOf([host]) == ["host"] && ValuesOf([host]) == ["a1"];
    assert SeriesRows(ts)[0] == Row(1, 1, "cpu_usage", ["host"], ["a1"], v1);
    assert SeriesRows(ts)[1] == Row(2, 2, "cpu_usage", ["host"], ["a1"], v2);
  }
}
