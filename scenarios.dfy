/**
 * The scenarios of im/tests/test_monitor.py, run against a fresh registry
 * through the probe methods of the packaged program.
 */
module Scenarios {
  import opened Outcomes
  import opened Registry
  import ImMonitor
  import DownloadProbe

  /** The ping fixture: avg 1..10, loss 0..10, max 1..5, min 5..10, so the max never exceeds the min. */
  predicate FixtureHost(h: PingHost) {
    && 1.0 <= h.avgRtt <= 10.0 && 0.0 <= h.packetLoss <= 10.0
    && 1.0 <= h.maxRtt <= 5.0 && 5.0 <= h.minRtt <= 10.0
  }

  /** test_latency: a reply sets the link up and stores a jitter that is never positive as it is. */
  method LatencySucceeds(h: PingHost) returns (m: Metrics)
    requires FixtureHost(h)
    ensures m.up == 1.0 && m.pingTotal == 1 && m.pingFailures == 0
    ensures m.packetLoss == h.packetLoss
    ensures m.jitter == (h.maxRtt - h.minRtt) / 1000.0 && m.jitter <= 0.0
    ensures m.latency.count == 1 && m.latency.sum == h.avgRtt / 1000.0
  {
    var r := new MetricRegistry();
    ImMonitor.Latency(r, Replied(h));
    m := r.Values();
  }

  /** test_latency_failure: a raising ping counts one request and one failure and marks the link down. */
  method LatencyFails() returns (m: Metrics)
    ensures m.up == 0.0 && m.pingTotal == 1 && m.pingFailures == 1
    ensures m.latency.count == 0 && m.packetLoss == 0.0 && m.jitter == 0.0
  {
    var r := new MetricRegistry();
    ImMonitor.Latency(r, PingRaised);
    m := r.Values();
  }

  /** test_download_speed: the size gauge is the body length, one run, one duration observation. */
  method DownloadSucceeds(contentLength: nat, elapsed: Elapsed) returns (m: Metrics)
    ensures m.downloadSize == contentLength as real && m.downloadTotal == 1 && m.downloadFailures == 0
    ensures m.downloadDuration.count == 1 && m.downloadDuration.sum == elapsed
  {
    var r := new MetricRegistry();
    DownloadProbe.DownloadSpeed(r, Fetched(contentLength), elapsed);
    m := r.Values();
  }

  /** test_download_speed_failures: one run, one failure, a duration still observed, the size untouched. */
  method DownloadFails(elapsed: Elapsed) returns (m: Metrics)
    ensures m.downloadTotal == 1 && m.downloadFailures == 1 && m.downloadSize == 0.0
    ensures m.downloadDuration.count == 1 && m.downloadDuration.sum >= 0.0
  {
    var r := new MetricRegistry();
    DownloadProbe.DownloadSpeed(r, GetRaised, elapsed);
    m := r.Values();
  }

  /**
   * test_upload_speed, with the scratch file as the scheduler writes it: the
   * size gauge is 52428800 whatever the response was.
   */
  method UploadSucceeds(responseLength: nat, elapsed: Elapsed) returns (m: Metrics)
    ensures m.uploadSize == 52428800.0 && m.uploadTotal == 1 && m.uploadFailures == 0
    ensures m.uploadDuration.count == 1 && m.uploadDuration.sum == elapsed
  {
    var r := new MetricRegistry();
    ImMonitor.UploadSpeed(r, Uploaded(responseLength, ImMonitor.ScratchSize), elapsed);
    m := r.Values();
  }

  /**
   * test_upload_speed as the test mocks it: the stat call reports the
   * response's length, and that is the size the gauge shows.
   */
  method UploadReportsStatSize(content: nat, elapsed: Elapsed) returns (m: Metrics)
    ensures m.uploadSize == content as real && m.uploadTotal == 1 && m.uploadFailures == 0
    ensures m.uploadDuration.count == 1 && m.uploadDuration.sum == elapsed
  {
    var r := new MetricRegistry();
    ImMonitor.UploadSpeed(r, Uploaded(content, content), elapsed);
    m := r.Values();
  }

  /** test_upload_speed_failures: one run, one failure, a duration still observed. */
  method UploadFails(elapsed: Elapsed) returns (m: Metrics)
    ensures m.uploadTotal == 1 && m.uploadFailures == 1 && m.uploadSize == 0.0
    ensures m.uploadDuration.count == 1 && m.uploadDuration.sum >= 0.0
  {
    var r := new MetricRegistry();
    ImMonitor.UploadSpeed(r, UploadRaised, elapsed);
    m := r.Values();
  }
}
