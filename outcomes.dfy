/**
 * What the probes' network and file calls can return. Each call either
 * produces a value or raises; the probes never see anything else of the
 * network, the file system or the clock.
 */
module Outcomes {

  /** Seconds measured by a `.time()` decorator: a difference of a monotonic clock. */
  type Elapsed = t: real | 0.0 <= t

  /** The host record icmplib's `ping` returns: round-trip times in milliseconds, and the loss. */
  datatype PingHost = PingHost(avgRtt: real, minRtt: real, maxRtt: real, packetLoss: real)

  /** `ping(dest, count=2, interval=0.5)` either returns a host record or raises. */
  datatype PingOutcome = Replied(host: PingHost) | PingRaised

  /** `requests.get(url)` either returns a response whose body has `contentLength` bytes, or raises. */
  datatype DownloadOutcome = Fetched(contentLength: nat) | GetRaised

  /**
   * The upload's `open`, `requests.post` and `os.stat` either all return,
   * with the response body length and the stat size of the scratch file,
   * or one of them raises.
   */
  datatype UploadOutcome = Uploaded(responseLength: nat, statSize: nat) | UploadRaised
}
