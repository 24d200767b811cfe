/**
 * The top-level script main.py (run as a script): latency divided by 1000,
 * jitter stored in raw milliseconds, packet loss as a gauge holding the last
 * run's value, the same download probe, a no-op upload probe, and a
 * scheduler table with a hard-coded URL and destination.
 */
module RootMain {
  import opened Wrappers
  import opened Instruments
  import opened Outcomes
  import opened Registry
  import opened DownloadProbe
  import opened Jobs

  /** The ten instruments the script declares; the packet loss is a gauge here. */
  function Declarations(): (d: seq<Declaration>)
    ensures |d| == 10 && NamesDistinct(d)
    ensures d[2].name == "internet_monitor_ping_packet_loss" && d[2].kind == GaugeKind
  {
    [Declaration("internet_monitor_ping_total", CounterKind, "Total ping requests made to 1.1.1.1"),
     Declaration("internet_monitor_ping_failures_total", CounterKind, "Total ping requests failed made to 1.1.1.1"),
     Declaration("internet_monitor_ping_packet_loss", GaugeKind, "Number of packets lost while checking latency"),
     Declaration("internet_monitor_ping_jitter", GaugeKind, "ICMP Jitter"),
     Declaration("internet_monitor_up", GaugeKind, "Internet is up or down"),
     Declaration("internet_monitor_ping_latency_seconds", SummaryKind, "Ping latency to 1.1.1.1"),
     Declaration("internet_monitor_download_duration_seconds", HistogramKind, "Download latency"),
     Declaration("internet_monitor_download_size_bytes", GaugeKind, "Bytes downloaded"),
     Declaration("internet_monitor_download_total", CounterKind, "Number of times the download job runs"),
     Declaration("internet_monitor_download_failures", CounterKind, "Number of times the download job fails")]
  }

  /**
   * The registry after one `latency(dest)` call. A gauge accepts any value,
   * so after a reply nothing in the try block can fail: the latency is
   * observed in seconds, the packet-loss gauge takes this run's loss, the
   * jitter gauge the raw difference in milliseconds, and the link is up.
   */
  function LatencyEffect(m: Metrics, outcome: PingOutcome): (m': Metrics)
    ensures m'.pingTotal == m.pingTotal + 1
    ensures outcome.PingRaised? ==>
              && m'.pingFailures == m.pingFailures + 1 && m'.up == 0.0
              && m'.latency == m.latency && m'.packetLoss == m.packetLoss && m'.jitter == m.jitter
    ensures outcome.Replied? ==>
              && m'.pingFailures == m.pingFailures
              && m'.latency == m.latency.Observe(outcome.host.avgRtt / 1000.0)
              && m'.packetLoss == outcome.host.packetLoss
              && m'.jitter == outcome.host.maxRtt - outcome.host.minRtt
              && m'.up == 1.0
    ensures SameDownload(m, m') && SameUpload(m, m')
  {
    var counted := m.(pingTotal := m.pingTotal + 1);
    match outcome
    case PingRaised =>
      counted.(pingFailures := counted.pingFailures + 1, up := 0.0)
    case Replied(host) =>
      counted.(latency := counted.latency.Observe(host.avgRtt / 1000.0),
               packetLoss := host.packetLoss,
               jitter := host.maxRtt - host.minRtt,
               up := 1.0)
  }

  /** A ping keeps the registry consistent and lets no counter go down. */
  lemma LatencyKeepsConsistent(m: Metrics, outcome: PingOutcome)
    requires Consistent(m)
    ensures Consistent(LatencyEffect(m, outcome)) && Grows(m, LatencyEffect(m, outcome))
  {
  }

  /** `latency(dest)` on the module-level instruments. */
  method Latency(r: MetricRegistry, outcome: PingOutcome)
    modifies r
    ensures r.Values() == LatencyEffect(old(r.Values()), outcome)
    ensures old(r.Valid()) ==> r.Valid()
  {
    ghost var before := r.Values();
    r.pingTotal := r.pingTotal + 1;
    match outcome {
      case PingRaised =>
        // count_exceptions counts the failure and re-raises; the except branch marks the link down
        r.pingFailures := r.pingFailures + 1;
        r.up := 0.0;
      case Replied(host) =>
        r.latency := r.latency.Observe(host.avgRtt / 1000.0);
        r.packetLoss := host.packetLoss;
        r.jitter := host.maxRtt - host.minRtt;
        r.up := 1.0;
    }
    if Consistent(before) {
      LatencyKeepsConsistent(before, outcome);
    }
  }

  /** `upload_speed()` has an empty body: no instrument changes. */
  method UploadSpeed(r: MetricRegistry)
    ensures r.Values() == old(r.Values())
  {
  }

  const DownloadUrl: string := "http://212.183.159.230/512MB.zip"
  const LatencyDest: string := "1.1.1.1"

  /**
   * `main()`: a hard-coded download job every 600 seconds and ping job every
   * 60 seconds, neither with dates, under the default of 3 instances on a
   * pool of 20 threads; no upload job and no scratch file.
   */
  function Main(): (s: SchedulerSetup)
    ensures s.poolSize == 20 && !s.coalesce && s.defaultMaxInstances == 3
    ensures |JobsOf(s.steps)| == 2 && IdsDistinct(s.steps)
    ensures Registers(s, "download_speed", DownloadSpeedFn, ["http://212.183.159.230/512MB.zip"], 600, 3)
    ensures Registers(s, "ping", LatencyFn, ["1.1.1.1"], 60, 3)
    ensures forall j :: j in JobsOf(s.steps) ==> j.startDate.None? && j.nextRunTime.None?
    ensures FindJob(s.steps, "upload_speed").None? && !WritesScratch(s.steps)
  {
    var download := AddJob(Job("download_speed", DownloadSpeedFn, [DownloadUrl], 600, None, None, None));
    var ping := AddJob(Job("ping", LatencyFn, [LatencyDest], 60, None, None, None));
    var steps := [download, ping];
    assert steps[1..][1..] == [] && steps[1..] == [ping];
    assert JobsOf(steps[1..]) == [ping.job];
    assert JobsOf(steps) == [download.job, ping.job];
    assert |"download_speed"| == 14 && |"ping"| == 4 && |"upload_speed"| == 12;
    assert FindJob(steps[1..], "ping") == Some(ping.job);
    assert FindJob(steps[1..], "upload_speed") == None;
    SchedulerSetup(20, false, 3, steps)
  }
}
