/**
 * The packaged probe program, im/im/monitor.py: ping latency in seconds
 * (milliseconds divided by 1000), packet loss as an accumulating counter,
 * download and upload probes, and a scheduler table read from the
 * configuration.
 */
module ImMonitor {
  import opened Wrappers
  import opened Instruments
  import opened Outcomes
  import opened Registry
  import opened DownloadProbe
  import opened Jobs

  /** The fourteen instruments the module declares. */
  function Declarations(): (d: seq<Declaration>)
    ensures |d| == 14 && NamesDistinct(d)
    ensures d[2].name == "internet_monitor_ping_packet_loss_total" && d[2].kind == CounterKind
  {
    [Declaration("internet_monitor_ping_total", CounterKind, "Total ping requests made to 1.1.1.1"),
     Declaration("internet_monitor_ping_failures_total", CounterKind, "Total ping requests failed made to 1.1.1.1"),
     Declaration("internet_monitor_ping_packet_loss_total", CounterKind, "Number of packets lost while checking latency"),
     Declaration("internet_monitor_ping_jitter_seconds", GaugeKind, "ICMP Jitter"),
     Declaration("internet_monitor_up", GaugeKind, "Internet is up or down"),
     Declaration("internet_monitor_ping_latency_seconds", SummaryKind, "Ping latency to 1.1.1.1"),
     Declaration("internet_monitor_download_duration_seconds", HistogramKind, "Download latency"),
     Declaration("internet_monitor_download_size_bytes", GaugeKind, "Bytes downloaded"),
     Declaration("internet_monitor_download_total", CounterKind, "Number of times the download job runs"),
     Declaration("internet_monitor_download_failures_total", CounterKind, "Number of times the download job fails"),
     Declaration("internet_monitor_upload_duration_seconds", HistogramKind, "Upload latency"),
     Declaration("internet_monitor_upload_total", CounterKind, "Number of times the upload job runs"),
     Declaration("internet_monitor_upload_failures_total", CounterKind, "Number of times the upload job fails"),
     Declaration("internet_monitor_upload_size_bytes", GaugeKind, "Bytes uploaded")]
  }

  /**
   * The registry after one `latency(dest)` call. The request is always
   * counted; `count_exceptions` counts a failure only when `ping` itself
   * raises. After a reply, the latency is observed first; the packet-loss
   * counter then rejects a negative amount, and that fault ends the try
   * block with the latency already recorded and no failure counted.
   */
  function LatencyEffect(m: Metrics, outcome: PingOutcome): (m': Metrics)
    ensures m'.pingTotal == m.pingTotal + 1
    ensures outcome.PingRaised? ==>
              && m'.pingFailures == m.pingFailures + 1 && m'.up == 0.0
              && m'.latency == m.latency && m'.packetLoss == m.packetLoss && m'.jitter == m.jitter
    ensures outcome.Replied? ==>
              && m'.pingFailures == m.pingFailures
              && m'.latency == m.latency.Observe(outcome.host.avgRtt / 1000.0)
    ensures outcome.Replied? && CounterAccepts(outcome.host.packetLoss) ==>
              && m'.packetLoss == m.packetLoss + outcome.host.packetLoss
              && m'.jitter == (outcome.host.maxRtt - outcome.host.minRtt) / 1000.0
              && m'.up == 1.0
    ensures outcome.Replied? && !CounterAccepts(outcome.host.packetLoss) ==>
              m'.packetLoss == m.packetLoss && m'.jitter == m.jitter && m'.up == 0.0
    ensures SameDownload(m, m') && SameUpload(m, m')
  {
    var counted := m.(pingTotal := m.pingTotal + 1);
    match outcome
    case PingRaised =>
      counted.(pingFailures := counted.pingFailures + 1, up := 0.0)
    case Replied(host) =>
      var observed := counted.(latency := counted.latency.Observe(host.avgRtt / 1000.0));
      if CounterAccepts(host.packetLoss) then
        observed.(packetLoss := observed.packetLoss + host.packetLoss,
                  jitter := (host.maxRtt - host.minRtt) / 1000.0,
                  up := 1.0)
      else
        observed.(up := 0.0)
  }

  /**
   * The registry after one `upload_speed(url)` call that took `elapsed`
   * seconds: the size gauge takes the scratch file's stat size, never
   * anything from the response.
   */
  function UploadEffect(m: Metrics, outcome: UploadOutcome, elapsed: Elapsed): (m': Metrics)
    ensures m'.uploadTotal == m.uploadTotal + 1
    ensures m'.uploadDuration == m.uploadDuration.Observe(elapsed)
    ensures outcome.Uploaded? ==>
              m'.uploadSize == outcome.statSize as real && m'.uploadFailures == m.uploadFailures
    ensures outcome.UploadRaised? ==>
              m'.uploadSize == m.uploadSize && m'.uploadFailures == m.uploadFailures + 1
    ensures SamePing(m, m') && SameDownload(m, m')
  {
    var counted := m.(uploadTotal := m.uploadTotal + 1);
    var posted := match outcome
      case Uploaded(_, size) => counted.(uploadSize := size as real)
      case UploadRaised => counted.(uploadFailures := counted.uploadFailures + 1);
    posted.(uploadDuration := posted.uploadDuration.Observe(elapsed))
  }

  /** A ping keeps the registry consistent, lets no counter go down, and never lowers the loss counter. */
  lemma LatencyKeepsConsistent(m: Metrics, outcome: PingOutcome)
    requires Consistent(m)
    ensures Consistent(LatencyEffect(m, outcome)) && Grows(m, LatencyEffect(m, outcome))
    ensures LatencyEffect(m, outcome).packetLoss >= m.packetLoss
  {
  }

  /** An upload keeps the registry consistent and lets no counter go down. */
  lemma UploadKeepsConsistent(m: Metrics, outcome: UploadOutcome, elapsed: Elapsed)
    requires Consistent(m)
    ensures Consistent(UploadEffect(m, outcome, elapsed)) && Grows(m, UploadEffect(m, outcome, elapsed))
  {
    ObserveKeepsWellFormed(m.uploadDuration, elapsed);
  }

  /** `latency(dest)` on the module-level instruments. */
  method Latency(r: MetricRegistry, outcome: PingOutcome)
    modifies r
    ensures r.Values() == LatencyEffect(old(r.Values()), outcome)
    ensures old(r.Valid()) ==> r.Valid()
  {
    ghost var before := r.Values();
    r.pingTotal := r.pingTotal + 1;
    match outcome {
      case PingRaised =>
        // count_exceptions counts the failure and re-raises; the except branch marks the link down
        r.pingFailures := r.pingFailures + 1;
        r.up := 0.0;
      case Replied(host) =>
        r.latency := r.latency.Observe(host.avgRtt / 1000.0);
        if CounterAccepts(host.packetLoss) {
          r.packetLoss := r.packetLoss + host.packetLoss;
          r.jitter := (host.maxRtt - host.minRtt) / 1000.0;
          r.up := 1.0;
        } else {
          // Counter.inc raised; the except branch marks the link down
          r.up := 0.0;
        }
    }
    if Consistent(before) {
      LatencyKeepsConsistent(before, outcome);
    }
  }

  /** `upload_speed(url)` with its `.time()` decorator. */
  method UploadSpeed(r: MetricRegistry, outcome: UploadOutcome, elapsed: Elapsed)
    modifies r
    ensures r.Values() == UploadEffect(old(r.Values()), outcome, elapsed)
    ensures old(r.Valid()) ==> r.Valid()
  {
    ghost var before := r.Values();
    r.uploadTotal := r.uploadTotal + 1;
    match outcome {
      case Uploaded(_, size) =>
        r.uploadSize := size as real;
      case UploadRaised =>
        r.uploadFailures := r.uploadFailures + 1;
    }
    // the decorator's observation, made on every exit of the body
    r.uploadDuration := r.uploadDuration.Observe(elapsed);
    if Consistent(before) {
      UploadKeepsConsistent(before, outcome, elapsed);
    }
  }

  /** The upload's scratch file and its size, 50 MiB. */
  const ScratchPath: string := "test-upload"
  const ScratchSize: nat := 1024 * 1024 * 50

  /** Where each configuration entry stands in the order `job_scheduler` reads them. */
  function LookupPosition(k: ConfigKey): (i: nat) {
    match k
    case DownloadIntervalKey => 0
    case DownloadUrlKey => 1
    case PingIntervalKey => 2
    case IcmpDestHostKey => 3
    case UploadIntervalKey => 4
    case UploadUrlKey => 5
  }

  /**
   * The four setup steps of `job_scheduler` once every configuration entry
   * is found, with `now` the reading of `utcnow()`: a pool of 5 threads,
   * default max_instances 5, the download job limited to one instance,
   * every job's first run at `now`, and the 50 MiB scratch file written
   * before the upload job is registered.
   */
  function FullSetup(downloadUrl: string, downloadInterval: int, dest: string, pingInterval: int,
                     uploadUrl: string, uploadInterval: int, now: int): (s: SchedulerSetup)
    ensures s.poolSize == 5 && !s.coalesce && s.defaultMaxInstances == 5
    ensures |JobsOf(s.steps)| == 3 && IdsDistinct(s.steps)
    ensures Registers(s, "download_speed", DownloadSpeedFn, [downloadUrl], downloadInterval, 1)
    ensures Registers(s, "ping", LatencyFn, [dest], pingInterval, 5)
    ensures Registers(s, "upload_speed", UploadSpeedFn, [uploadUrl], uploadInterval, 5)
    ensures forall j :: j in JobsOf(s.steps) ==> j.startDate == Some(now) && j.nextRunTime == Some(now)
    ensures WrittenBefore(s.steps, ScratchPath, 52428800, "upload_speed")
  {
    var download := AddJob(Job("download_speed", DownloadSpeedFn, [downloadUrl], downloadInterval,
                               Some(1), Some(now), Some(now)));
    var ping := AddJob(Job("ping", LatencyFn, [dest], pingInterval, None, Some(now), Some(now)));
    var scratch := CreateScratchFile(ScratchPath, ScratchSize);
    var upload := AddJob(Job("upload_speed", UploadSpeedFn, [uploadUrl], uploadInterval,
                             None, Some(now), Some(now)));
    var steps := [download, ping, scratch, upload];
    assert steps[2] == CreateScratchFile(ScratchPath, 52428800) && steps[3].job.id == "upload_speed";
    assert steps[3..][1..] == [] && steps[2..][1..] == steps[3..];
    assert steps[1..][1..] == steps[2..] && steps[1..] == [ping] + steps[2..];
    assert JobsOf(steps[3..]) == [upload.job];
    assert JobsOf(steps[2..]) == [upload.job];
    assert JobsOf(steps[1..]) == [ping.job, upload.job];
    assert JobsOf(steps) == [download.job, ping.job, upload.job];
    assert |"download_speed"| == 14 && |"ping"| == 4 && |"upload_speed"| == 12;
    assert FindJob(steps, "download_speed") == Some(download.job);
    assert FindJob(steps[1..], "ping") == Some(ping.job);
    assert FindJob(steps, "ping") == Some(ping.job);
    assert FindJob(steps[3..], "upload_speed") == Some(upload.job);
    assert FindJob(steps[2..], "upload_speed") == Some(upload.job);
    assert FindJob(steps[1..], "upload_speed") == Some(upload.job);
    assert FindJob(steps, "upload_speed") == Some(upload.job);
    SchedulerSetup(5, false, 5, steps)
  }

  /**
   * `job_scheduler(config)`: it reads the entries in `LookupPosition` order
   * and stops with a KeyError at the first one missing, after the steps
   * already done; the scratch file is then on disk exactly when the
   * missing entry belongs to the upload job.
   */
  function JobScheduler(config: Config, now: int): (r: Startup)
    ensures r.Started? <==> forall k :: Has(config, k)
    ensures r.Aborted? ==>
              && !Has(config, r.missing)
              && (forall k :: LookupPosition(k) < LookupPosition(r.missing) ==> Has(config, k))
              && (WritesScratch(r.done) <==> r.missing == UploadIntervalKey || r.missing == UploadUrlKey)
    ensures r.Started? ==>
              && Complete(config)
              && r.setup == FullSetup(config.downloadUrl.value, config.downloadInterval.value,
                                   config.icmpDestHost.value, config.pingInterval.value,
                                   config.uploadUrl.value, config.uploadInterval.value, now)
  {
    if config.downloadInterval.None? then
      assert !Has(config, DownloadIntervalKey); Aborted([], DownloadIntervalKey)
    else if config.downloadUrl.None? then
      assert !Has(config, DownloadUrlKey); Aborted([], DownloadUrlKey)
    else
      var download := AddJob(Job("download_speed", DownloadSpeedFn, [config.downloadUrl.value],
                                 config.downloadInterval.value, Some(1), Some(now), Some(now)));
      if config.pingInterval.None? then
        assert !Has(config, PingIntervalKey); Aborted([download], PingIntervalKey)
      else if config.icmpDestHost.None? then
        assert !Has(config, IcmpDestHostKey); Aborted([download], IcmpDestHostKey)
      else
        var ping := AddJob(Job("ping", LatencyFn, [config.icmpDestHost.value],
                               config.pingInterval.value, None, Some(now), Some(now)));
        var done := [download, ping, CreateScratchFile(ScratchPath, ScratchSize)];
        assert done[2].CreateScratchFile?;
        if config.uploadInterval.None? then
          assert !Has(config, UploadIntervalKey); Aborted(done, UploadIntervalKey)
        else if config.uploadUrl.None? then
          assert !Has(config, UploadUrlKey); Aborted(done, UploadUrlKey)
        else
          Started(FullSetup(config.downloadUrl.value, config.downloadInterval.value,
                            config.icmpDestHost.value, config.pingInterval.value,
                            config.uploadUrl.value, config.uploadInterval.value, now))
  }
}
