/**
 * How the three `latency` probes differ on the same reply, and the one
 * probe they share.
 */
module Comparisons {
  import opened Outcomes
  import opened Registry
  import opened DownloadProbe
  import ImMonitor
  import ImMain
  import RootMain
  import opened Traces

  /**
   * On the same reply, im/main.py's jitter is a million times the packaged
   * program's (it multiplies by 1000 where the other divides), and main.py's
   * raw jitter is a thousand times it.
   */
  lemma JitterUnits(m: Metrics, h: PingHost)
    requires CounterAccepts(h.packetLoss)
    ensures ImMain.LatencyEffect(m, Replied(h)).jitter == 1000000.0 * ImMonitor.LatencyEffect(m, Replied(h)).jitter
    ensures RootMain.LatencyEffect(m, Replied(h)).jitter == 1000.0 * ImMonitor.LatencyEffect(m, Replied(h)).jitter
  {
  }

  /**
   * On the same reply, the packaged program and main.py add the same latency
   * observation, and im/main.py adds one a million times larger.
   */
  lemma LatencyUnits(m: Metrics, h: PingHost)
    ensures RootMain.LatencyEffect(m, Replied(h)).latency == ImMonitor.LatencyEffect(m, Replied(h)).latency
    ensures ImMain.LatencyEffect(m, Replied(h)).latency.sum - m.latency.sum
            == 1000000.0 * (ImMonitor.LatencyEffect(m, Replied(h)).latency.sum - m.latency.sum)
  {
  }

  /**
   * The counter programs add the loss to what was there; main.py's gauge
   * forgets it. The two agree exactly when the instrument held zero.
   */
  lemma LossKinds(m: Metrics, h: PingHost)
    requires CounterAccepts(h.packetLoss)
    ensures ImMonitor.LatencyEffect(m, Replied(h)).packetLoss == m.packetLoss + h.packetLoss
    ensures ImMain.LatencyEffect(m, Replied(h)).packetLoss == m.packetLoss + h.packetLoss
    ensures RootMain.LatencyEffect(m, Replied(h)).packetLoss == h.packetLoss
    ensures (RootMain.LatencyEffect(m, Replied(h)).packetLoss == ImMonitor.LatencyEffect(m, Replied(h)).packetLoss)
            <==> m.packetLoss == 0.0
  {
  }

  /**
   * A negative loss is where the programs part: the counter programs mark the
   * link down without counting a failure, main.py's gauge takes the value and
   * marks the link up.
   */
  lemma NegativeLoss(m: Metrics, h: PingHost)
    requires !CounterAccepts(h.packetLoss)
    ensures ImMonitor.LatencyEffect(m, Replied(h)).up == 0.0
    ensures ImMonitor.LatencyEffect(m, Replied(h)).pingFailures == m.pingFailures
    ensures ImMonitor.LatencyEffect(m, Replied(h)).latency.count == m.latency.count + 1
    ensures ImMain.LatencyEffect(m, Replied(h)).up == 0.0
    ensures ImMain.LatencyEffect(m, Replied(h)).pingFailures == m.pingFailures
    ensures ImMain.LatencyEffect(m, Replied(h)).latency.count == m.latency.count + 1
    ensures RootMain.LatencyEffect(m, Replied(h)).up == 1.0
  {
  }

  /** A ping that raises has the same effect in all three programs. */
  lemma RaisedPingAgrees(m: Metrics)
    ensures ImMain.LatencyEffect(m, PingRaised) == ImMonitor.LatencyEffect(m, PingRaised)
    ensures RootMain.LatencyEffect(m, PingRaised) == ImMonitor.LatencyEffect(m, PingRaised)
  {
  }

  /**
   * Any run of download calls leaves the same registry in all three
   * programs: they share `download_speed`.
   */
  lemma {:induction false} DownloadsAgree(p: Program, q: Program, m: Metrics, calls: seq<Call>)
    requires forall i :: 0 <= i < |calls| ==> calls[i].DownloadCall?
    ensures Run(p, m, calls) == Run(q, m, calls)
    decreases |calls|
  {
    if calls != [] {
      DownloadsAgree(p, q, Step(p, m, calls[0]), calls[1..]);
    }
  }
}
