/**
 * The decoded Prometheus remote-write message, as the /receive handler sees it
 * after snappy decompression and protobuf unmarshalling.
 */
module Remote {

  /** Go's int64, the type of a sample's millisecond timestamp. */
  newtype Int64 = x: int | -0x8000_0000_0000_0000 <= x < 0x8000_0000_0000_0000

  /**
   * A float64 sample value, kept as its IEEE 754 bit pattern. The handler
   * only passes it through to the insert statement and never computes on it.
   */
  datatype Float64 = Float64(bits: bv64)

  /** One label pair of a time series. */
  datatype Label = Label(name: string, value: string)

  /** One sample point: a timestamp in milliseconds since the epoch and a value. */
  datatype Sample = Sample(timestampMs: Int64, value: Float64)

  /** A labelled sequence of samples. */
  datatype TimeSeries = TimeSeries(labels: seq<Label>, samples: seq<Sample>)

  /** The whole write request: its series, in the order they were sent. */
  datatype WriteRequest = WriteRequest(timeseries: seq<TimeSeries>)

  /** The reserved label name that carries the metric name (model.MetricNameLabel). */
  const MetricNameLabel: string := "__name__"
}
