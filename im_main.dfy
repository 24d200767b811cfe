/**
 * The stand-alone script im/main.py: ping latency and jitter multiplied by
 * 1000, packet loss as an accumulating counter, the same download probe, a
 * no-op upload probe, and a hard-coded two-job scheduler table.
 */
module ImMain {
  import opened Wrappers
  import opened Instruments
  import opened Outcomes
  import opened Registry
  import opened DownloadProbe
  import opened Jobs

  /** The ten instruments the script declares; it has no upload family, and packet loss is a counter. */
  function Declarations(): (d: seq<Declaration>)
    ensures |d| == 10 && NamesDistinct(d)
    ensures d[2].name == "internet_monitor_ping_packet_loss" && d[2].kind == CounterKind
  {
    [Declaration("internet_monitor_ping_total", CounterKind, "Total ping requests made to 1.1.1.1"),
     Declaration("internet_monitor_ping_failures_total", CounterKind, "Total ping requests failed made to 1.1.1.1"),
     Declaration("internet_monitor_ping_packet_loss", CounterKind, "Number of packets lost while checking latency"),
     Declaration("internet_monitor_ping_jitter", GaugeKind, "ICMP Jitter"),
     Declaration("internet_monitor_up", GaugeKind, "Internet is up or down"),
     Declaration("internet_monitor_ping_latency_seconds", SummaryKind, "Ping latency to 1.1.1.1"),
     Declaration("internet_monitor_download_duration_seconds", HistogramKind, "Download latency"),
     Declaration("internet_monitor_download_size_bytes", GaugeKind, "Bytes downloaded"),
     Declaration("internet_monitor_download_total", CounterKind, "Number of times the download job runs"),
     Declaration("internet_monitor_download_failures", CounterKind, "Number of times the download job fails")]
  }

  /**
   * The registry after one `latency(dest)` call: like the packaged program,
   * except that the average round-trip time and the jitter are multiplied by
   * 1000 instead of divided.
   */
  function LatencyEffect(m: Metrics, outcome: PingOutcome): (m': Metrics)
    ensures m'.pingTotal == m.pingTotal + 1
    ensures outcome.PingRaised? ==>
              && m'.pingFailures == m.pingFailures + 1 && m'.up == 0.0
              && m'.latency == m.latency && m'.packetLoss == m.packetLoss && m'.jitter == m.jitter
    ensures outcome.Replied? ==>
              && m'.pingFailures == m.pingFailures
              && m'.latency == m.latency.Observe(outcome.host.avgRtt * 1000.0)
    ensures outcome.Replied? && CounterAccepts(outcome.host.packetLoss) ==>
              && m'.packetLoss == m.packetLoss + outcome.host.packetLoss
              && m'.jitter == (outcome.host.maxRtt - outcome.host.minRtt) * 1000.0
              && m'.up == 1.0
    ensures outcome.Replied? && !CounterAccepts(outcome.host.packetLoss) ==>
              m'.packetLoss == m.packetLoss && m'.jitter == m.jitter && m'.up == 0.0
    ensures SameDownload(m, m') && SameUpload(m, m')
  {
    var counted := m.(pingTotal := m.pingTotal + 1);
    match outcome
    case PingRaised =>
      counted.(pingFailures := counted.pingFailures + 1, up := 0.0)
    case Replied(host) =>
      var observed := counted.(latency := counted.latency.Observe(host.avgRtt * 1000.0));
      if CounterAccepts(host.packetLoss) then
        observed.(packetLoss := observed.packetLoss + host.packetLoss,
                  jitter := (host.maxRtt - host.minRtt) * 1000.0,
                  up := 1.0)
      else
        observed.(up := 0.0)
  }

  /** A ping keeps the registry consistent, lets no counter go down, and never lowers the loss counter. */
  lemma LatencyKeepsConsistent(m: Metrics, outcome: PingOutcome)
    requires Consistent(m)
    ensures Consistent(LatencyEffect(m, outcome)) && Grows(m, LatencyEffect(m, outcome))
    ensures LatencyEffect(m, outcome).packetLoss >= m.packetLoss
  {
  }

  /** `latency(dest)` on the module-level instruments; the console print is left out. */
  method Latency(r: MetricRegistry, outcome: PingOutcome)
    modifies r
    ensures r.Values() == LatencyEffect(old(r.Values()), outcome)
    ensures old(r.Valid()) ==> r.Valid()
  {
    ghost var before := r.Values();
    r.pingTotal := r.pingTotal + 1;
    match outcome {
      case PingRaised =>
        // count_exceptions counts the failure and re-raises; the except branch marks the link down
        r.pingFailures := r.pingFailures + 1;
        r.up := 0.0;
      case Replied(host) =>
        r.latency := r.latency.Observe(host.avgRtt * 1000.0);
        if CounterAccepts(host.packetLoss) {
          r.packetLoss := r.packetLoss + host.packetLoss;
          r.jitter := (host.maxRtt - host.minRtt) * 1000.0;
          r.up := 1.0;
        } else {
          // Counter.inc raised; the except branch marks the link down
          r.up := 0.0;
        }
    }
    if Consistent(before) {
      LatencyKeepsConsistent(before, outcome);
    }
  }

  /** `upload_speed()` has an empty body: no instrument changes. */
  method UploadSpeed(r: MetricRegistry)
    ensures r.Values() == old(r.Values())
  {
  }

  /**
   * `main(config)`, with `now` the reading of `datetime.now()`: it reads only
   * `downloadURL` and then `icmpDestHost`, and registers a download job every
   * 600 seconds starting four minutes before `now` and a ping job every 60
   * seconds, both under the default of 3 instances on a pool of 20 threads.
   * There is no upload job and no scratch file.
   */
  function Main(config: Config, now: int): (r: Startup)
    ensures r.Started? <==> Has(config, DownloadUrlKey) && Has(config, IcmpDestHostKey)
    ensures r.Aborted? ==>
              && !Has(config, r.missing)
              && (r.missing == DownloadUrlKey || (r.missing == IcmpDestHostKey && Has(config, DownloadUrlKey)))
              && !WritesScratch(r.done)
    ensures r.Started? ==>
              && config.downloadUrl.Some? && config.icmpDestHost.Some?
              && r.setup.poolSize == 20 && !r.setup.coalesce && r.setup.defaultMaxInstances == 3
              && |JobsOf(r.setup.steps)| == 2 && IdsDistinct(r.setup.steps)
              && Registers(r.setup, "download_speed", DownloadSpeedFn, [config.downloadUrl.value], 600, 3)
              && FindJob(r.setup.steps, "download_speed").value.startDate == Some(now - 240)
              && FindJob(r.setup.steps, "download_speed").value.nextRunTime.None?
              && Registers(r.setup, "ping", LatencyFn, [config.icmpDestHost.value], 60, 3)
              && FindJob(r.setup.steps, "ping").value.startDate.None?
              && FindJob(r.setup.steps, "upload_speed").None?
              && !WritesScratch(r.setup.steps)
  {
    if config.downloadUrl.None? then
      Aborted([], DownloadUrlKey)
    else
      var download := AddJob(Job("download_speed", DownloadSpeedFn, [config.downloadUrl.value], 600,
                                 None, Some(now - 240), None));
      if config.icmpDestHost.None? then
        Aborted([download], IcmpDestHostKey)
      else
        var ping := AddJob(Job("ping", LatencyFn, [config.icmpDestHost.value], 60, None, None, None));
        var steps := [download, ping];
        assert steps[1..][1..] == [] && steps[1..] == [ping];
        assert JobsOf(steps[1..]) == [ping.job];
        assert JobsOf(steps) == [download.job, ping.job];
        assert |"download_speed"| == 14 && |"ping"| == 4 && |"upload_speed"| == 12;
        assert FindJob(steps[1..], "ping") == Some(ping.job);
        assert FindJob(steps[1..], "upload_speed") == None;
        Started(SchedulerSetup(20, false, 3, steps))
  }
}
