/**
 * The process-wide metric registry: one value per declared instrument.
 * The three probe families (ping, download, upload) each own their
 * instruments; every value starts at zero.
 */
module Registry {
  import opened Instruments

  /** The kinds of instrument prometheus_client offers. */
  datatype InstrumentKind = CounterKind | GaugeKind | SummaryKind | HistogramKind

  /** One instrument declaration: its exposed name, its kind and its help text. */
  datatype Declaration = Declaration(name: string, kind: InstrumentKind, help: string)

  /** No two declarations share a name. */
  predicate NamesDistinct(d: seq<Declaration>) {
    forall i, j :: 0 <= i < j < |d| ==> d[i].name != d[j].name
  }

  /**
   * A snapshot of every instrument value. `packetLoss` is a counter in two of
   * the three programs and a gauge in the third; `up`, `jitter` and the two
   * sizes are gauges; the other plain numbers are counters.
   */
  datatype Metrics = Metrics(
    pingTotal: nat, pingFailures: nat, packetLoss: real, jitter: real, up: real,
    latency: Summary,
    downloadDuration: Histogram, downloadSize: real, downloadTotal: nat, downloadFailures: nat,
    uploadDuration: Histogram, uploadTotal: nat, uploadFailures: nat, uploadSize: real)

  /** Every instrument as it is right after its declaration. */
  const Initial: Metrics :=
    Metrics(0, 0, 0.0, 0.0, 0.0, EmptySummary,
            EmptyHistogram(DurationBuckets), 0.0, 0, 0,
            EmptyHistogram(DurationBuckets), 0, 0, 0.0)

  /** prometheus_client's `Counter.inc(amount)` raises ValueError unless the amount is non-negative. */
  predicate CounterAccepts(amount: real) {
    amount >= 0.0
  }

  /** The ping family's instruments agree. */
  predicate SamePing(m: Metrics, m': Metrics) {
    && m'.pingTotal == m.pingTotal && m'.pingFailures == m.pingFailures
    && m'.packetLoss == m.packetLoss && m'.jitter == m.jitter && m'.up == m.up
    && m'.latency == m.latency
  }

  /** The download family's instruments agree. */
  predicate SameDownload(m: Metrics, m': Metrics) {
    && m'.downloadDuration == m.downloadDuration && m'.downloadSize == m.downloadSize
    && m'.downloadTotal == m.downloadTotal && m'.downloadFailures == m.downloadFailures
  }

  /** The upload family's instruments agree. */
  predicate SameUpload(m: Metrics, m': Metrics) {
    && m'.uploadDuration == m.uploadDuration && m'.uploadSize == m.uploadSize
    && m'.uploadTotal == m.uploadTotal && m'.uploadFailures == m.uploadFailures
  }

  /** A duration histogram: the declared buckets, well-formed, never a negative sum. */
  predicate DurationOk(h: Histogram) {
    h.bounds == DurationBuckets && h.WellFormed() && h.sum >= 0.0
  }

  /**
   * What holds of the registry between probe calls: every ping call is
   * either a counted failure or one latency observation, every download or
   * upload call is exactly one duration observation, failures never exceed
   * requests, and the link-up gauge is 0 or 1.
   */
  predicate Consistent(m: Metrics) {
    && m.pingFailures + m.latency.count == m.pingTotal
    && (m.up == 0.0 || m.up == 1.0)
    && DurationOk(m.downloadDuration)
    && m.downloadDuration.count == m.downloadTotal
    && m.downloadFailures <= m.downloadTotal
    && DurationOk(m.uploadDuration)
    && m.uploadDuration.count == m.uploadTotal
    && m.uploadFailures <= m.uploadTotal
  }

  /** Every bucket of `h'` holds at least as much as the same bucket of `h`. */
  predicate BucketsGrow(h: Histogram, h': Histogram) {
    |h'.buckets| == |h.buckets| && forall i :: 0 <= i < |h.buckets| ==> h.buckets[i] <= h'.buckets[i]
  }

  /** Every counter, and every observation count and duration sum, is at least what it was. */
  predicate Grows(m: Metrics, m': Metrics) {
    && m.pingTotal <= m'.pingTotal && m.pingFailures <= m'.pingFailures
    && m.latency.count <= m'.latency.count
    && m.downloadTotal <= m'.downloadTotal && m.downloadFailures <= m'.downloadFailures
    && m.downloadDuration.count <= m'.downloadDuration.count
    && m.downloadDuration.sum <= m'.downloadDuration.sum
    && BucketsGrow(m.downloadDuration, m'.downloadDuration)
    && m.uploadTotal <= m'.uploadTotal && m.uploadFailures <= m'.uploadFailures
    && m.uploadDuration.count <= m'.uploadDuration.count
    && m.uploadDuration.sum <= m'.uploadDuration.sum
    && BucketsGrow(m.uploadDuration, m'.uploadDuration)
  }

  lemma InitialConsistent()
    ensures Consistent(Initial)
  {
    EmptyDurationHistogramWellFormed();
  }

  /**
   * The registry itself: the module-level instrument objects of a probe
   * program, held as one mutable value per instrument.
   */
  class MetricRegistry {
    var pingTotal: nat
    var pingFailures: nat
    var packetLoss: real
    var jitter: real
    var up: real
    var latency: Summary
    var downloadDuration: Histogram
    var downloadSize: real
    var downloadTotal: nat
    var downloadFailures: nat
    var uploadDuration: Histogram
    var uploadTotal: nat
    var uploadFailures: nat
    var uploadSize: real

    /** What a scrape of the registry would read. */
    function Values(): (v: Metrics)
      reads this
    {
      Metrics(pingTotal, pingFailures, packetLoss, jitter, up, latency,
              downloadDuration, downloadSize, downloadTotal, downloadFailures,
              uploadDuration, uploadTotal, uploadFailures, uploadSize)
    }

    ghost predicate Valid()
      reads this
    {
      Consistent(Values())
    }

    /** A fresh registry, as after the declarations: every value is zero. */
    constructor ()
      ensures Values() == Initial && Valid()
    {
      pingTotal, pingFailures, packetLoss, jitter, up := 0, 0, 0.0, 0.0, 0.0;
      latency := EmptySummary;
      downloadDuration := EmptyHistogram(DurationBuckets);
      downloadSize, downloadTotal, downloadFailures := 0.0, 0, 0;
      uploadDuration := EmptyHistogram(DurationBuckets);
      uploadTotal, uploadFailures, uploadSize := 0, 0, 0.0;
      InitialConsistent();
    }
  }
}
