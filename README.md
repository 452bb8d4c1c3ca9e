# prometheus_to_clickhouse: the /receive handler, modelled in Dafny

prometheus_to_clickhouse is a bridge between Prometheus remote write and ClickHouse. Prometheus pushes a snappy-compressed protobuf `WriteRequest` to `/receive`. The handler then does four things:

1. It decodes the request.
2. It splits each time series' labels into the metric name (the `__name__` label) and two parallel arrays holding the remaining label names and values.
3. It executes one parameterized `INSERT` per sample inside a single transaction. Each insert binds `(EventDate, EventDateTime, Metric, Labels.Name, Labels.Value, Value)`.
4. It commits and records the outcome (`ok` or `failed`) on a duration histogram.

Before a series' rows are inserted, the handler adds that series' sample count to the `received_samples_total` counter.

The project has three modules:

- `remote.dfy` (module `Remote`): the decoded message. It holds `WriteRequest`, `TimeSeries`, `Label` and `Sample`, plus the reserved label name `__name__`. Timestamps are `Int64`, a newtype bounded to Go's `int64`. Sample values are `Float64`, kept as their 64-bit pattern and never computed on.
- `rows.dfy` (module `Rows`): the pure specification of what gets written.
  - `GoDiv` is Go's truncating division. Dafny's `/` is Euclidean (floor, for the positive divisor 1000), so for `-1500 ms` Go gives `-1` where Dafny's `/` gives `-2`.
  - `MetricName` is the last `__name__` value, or `""` if there is none.
  - `OtherLabels`, `NamesOf` and `ValuesOf` give the label partition.
  - `SampleRow` is the row built for one sample. `SeriesRows` gives the rows of one series, and `Flatten` the rows of a whole request.
  - `TotalSamples` is the request's sample count.
  - The lemmas about these functions state the handler's promises.
- `receive.dfy` (module `Receive`): the handler itself, as imperative code over a class `Adapter`. Its fields are:
  - the counter (`receivedSamples`);
  - the histogram observations (`observations`), which keep only their label values;
  - the number of transactions begun;
  - the rows executed in the current transaction (`txRows`);
  - the rows committed so far (`stored`).

  `Handle` takes three inputs:
  - the result of the decode step: a request, or the error text;
  - an oracle for the driver's `Exec`: the position of the first row it rejects, if any;
  - an oracle for `Commit`.

  Its postconditions tie the new state to `Flatten` and `TotalSamples`.

## Model

| member | source | states |
|---|---|---|
| Rows.GoDiv | prometheus_to_clickhouse.go:99 | Division by a positive divisor truncates toward zero. The remainder has the sign of the dividend and is smaller than the divisor. The quotient lies between 0 and the dividend, so it fits in an int64. |
| Rows.GoDivTruncates | prometheus_to_clickhouse.go:99 | For -1500 ms the event time is -1 s. Dafny's own division would give -2. |
| Rows.EventSeconds | prometheus_to_clickhouse.go:99 | The event time in seconds of a millisecond timestamp. Take the seconds times 1000 away from the timestamp: for a timestamp ≥ 0 the result is in [0, 1000); for a negative one it is in (-1000, 0]. So the seconds are the timestamp divided by 1000, truncated toward zero. |
| Rows.MetricName | prometheus_to_clickhouse.go:83-89 | The metric name of a series, the last `__name__` value. It is either "" or the value of some `__name__` label of the series. |
| Rows.OtherLabels | prometheus_to_clickhouse.go:87-93 | The labels appended to the name and value arrays, in the order they were met. There are never more of them than the series has labels. |
| Rows.SampleRow | prometheus_to_clickhouse.go:97-108 | The row executed for one sample. Its name and value arrays have equal length, and `__name__` is never among the names. |
| Rows.SeriesRows | prometheus_to_clickhouse.go:97-112 | The rows of one series, exactly one per sample. |
| Rows.Flatten | prometheus_to_clickhouse.go:82-113 | The rows of a request, series by series, each series' rows in sample order. There is exactly one row per sample of the request. |
| Rows.TotalSamples | prometheus_to_clickhouse.go:96 | The request's sample count: the sum over its series of each series' sample count. |
| Rows.MetricNameIsLastMarker | prometheus_to_clickhouse.go:83-89 | With no `__name__` label the metric is "". Otherwise it is the value of the last `__name__` label. |
| Rows.OtherLabelsMembers | prometheus_to_clickhouse.go:87-93 | A label is in the partitioned list iff it is a label of the series and its name is not `__name__`. |
| Rows.OtherLabelsConcat | prometheus_to_clickhouse.go:87-93 | Partitioning distributes over concatenation, so the original relative order of the labels is kept. |
| Rows.OtherLabelsSingle | prometheus_to_clickhouse.go:88-93 | A single label is dropped iff it is named `__name__`. With OtherLabelsConcat this determines the partition completely. |
| Rows.SampleRowFields | prometheus_to_clickhouse.go:97-108 | Every row of a series has the following fields. Its metric is the series' metric name. Its name and value arrays have equal length, and for each i the pair (names[i], values[i]) is a non-`__name__` label of the series. EventDate equals EventDateTime, and both are the timestamp divided by 1000. The value is the sample's value unchanged. |
| Rows.FlattenNoMarker | prometheus_to_clickhouse.go:85-108 | No row of a request has `__name__` among its label names, and every row has equal-length label arrays. |
| Rows.TotalSamplesConcat | prometheus_to_clickhouse.go:96 | The sample count of two concatenated series lists is the sum of their counts. |
| Rows.TotalSamplesZero | prometheus_to_clickhouse.go:96 | A request's sample count is 0 exactly when none of its series carries a sample. |
| Rows.FlattenConcat | prometheus_to_clickhouse.go:82-113 | Series are handled in order: the rows of a concatenation are the rows of each part, one after the other. |
| Rows.FlattenStep | prometheus_to_clickhouse.go:82-113 | Adding series k to a prefix of the request appends exactly that series' rows and adds its sample count. |
| Rows.FlattenPrefix | prometheus_to_clickhouse.go:82-113 | The first (samples of series 0..k-1) + j rows of a request are the rows of series 0..k-1, followed by the first j rows of series k. |
| Rows.FlattenRowAt | prometheus_to_clickhouse.go:82-113 | Row number (samples of series 0..k-1) + j of a request is the row of sample j of series k. So series order comes first, then sample order, and each series' rows share that series' metric and label arrays. |
| Rows.EmptyYieldsNoRows | prometheus_to_clickhouse.go:82-113 | A request with no series, or whose series carry no samples, yields no rows. |
| Rows.CpuUsageExample | prometheus_to_clickhouse.go:82-112 | Take a series `__name__="cpu_usage", host="a1"` with samples at 1000 ms and 2000 ms. It yields exactly two rows: (1, 1, "cpu_usage", ["host"], ["a1"], v1) and (2, 2, "cpu_usage", ["host"], ["a1"], v2). |
| Receive.CommitResult | prometheus_to_clickhouse.go:115-119 | The outcome label is "ok" iff the commit succeeded, and "failed" iff it did not. |
| Receive.PartitionLabels | prometheus_to_clickhouse.go:83-94 | The label loop returns three things: the last `__name__` value as the metric, the names of the remaining labels, and their values, matching MetricName, NamesOf and ValuesOf of OtherLabels. |
| Receive.Adapter.constructor | prometheus_to_clickhouse.go:20-37 | The adapter starts with the given ClickHouse address, a zero counter, no observations, no transactions and no rows. |
| Receive.Adapter.Begin | prometheus_to_clickhouse.go:78 | Opens one more transaction, with no rows executed in it yet. |
| Receive.Adapter.Exec | prometheus_to_clickhouse.go:102-111 | Executing a row appends it to the transaction unless the driver rejects it at this position. Nothing else changes. |
| Receive.Adapter.Commit | prometheus_to_clickhouse.go:116 | A successful commit appends the transaction's rows to the stored rows. A failed one stores nothing. |
| Receive.Adapter.InsertSeries | prometheus_to_clickhouse.go:97-112 | The per-sample loop appends exactly the series' rows, in sample order. If the driver rejects a row, only the rows before it are appended. |
| Receive.Adapter.Handle | prometheus_to_clickhouse.go:59-123 | A decode failure gives 400 with the error text, and no transaction, row or counter change. Otherwise exactly one transaction is begun. If every row is accepted: the response is an empty 200, the counter grows by TotalSamples, the transaction holds Flatten(request), the rows are stored iff the commit succeeded, and one observation (address, "ok"/"failed") is added. If row n is rejected: the process halts with the first n rows of Flatten executed, nothing stored and nothing observed, and the counter already includes every sample of the series holding row n. |
| Receive.ResendStoresTwice | prometheus_to_clickhouse.go:78-119 | Sending the same request twice, with both commits succeeding, stores its rows twice. There is no de-duplication. The counter grows by twice the sample count, two transactions are begun, and two (address, "ok") observations are added. |

Two details of the handler's responses:

- After a successful decode the handler writes no body, so the sender gets an empty 200 response.
- `http.Error` writes the error text followed by a newline, so the 400 body is `err + "\n"`.

## Left out

- Snappy decompression and protobuf unmarshalling (prometheus_to_clickhouse.go:65, :73) are foreign libraries. Both become one decoded value: a request, or the error text.
- Startup is not modelled: `sql.Open`, `Ping` and the fatal exits around them (:46-57), flag parsing (:36-37), the HTTP server and `/metrics` exposition (:125-127), and metric registration (:40-43).
- `Begin` and `Prepare` (:78-79) are taken to succeed, because their errors are discarded. A transaction that failed to open is not modelled.
- `Exec` and `Commit` are external driver calls. `Exec` is an append to the transaction's rows, whose rejection position is an input. `Commit` is a boolean input.
- `log.Fatal` on a rejected row (:110) is the reply `Halted`: nothing runs after it.
- The transaction duration (:80, :121) is wall-clock time and float arithmetic. Only the observation's label values (address, outcome) are kept.
- The counter is an unbounded natural number. The source's float64 counter and its rounding are not modelled.
- `time.Unix` and ClickHouse's Date truncation (:103-104) are not modelled. Both time fields stay integer seconds.
- Concurrent invocations of the handler by `net/http` are not modelled. One request is handled at a time.
- Logging (:67, :117, :125) is not modelled.
- Rows.GoDiv: only positive divisors are modelled, because the handler's only division is by the constant 1000.
