/**
 * Any sequence of probe calls, in any of the three programs, and what
 * holds of the registry along it: the invariant, monotone counters, exact
 * request and failure counts, and gauges that only the latest call decides.
 */
module Traces {
  import opened Instruments
  import opened Outcomes
  import opened Registry
  import opened DownloadProbe
  import ImMonitor
  import ImMain
  import RootMain

  /** im/im/monitor.py, im/main.py and main.py. */
  datatype Program = Packaged | ImScript | RootScript

  /** In the two programs other than main.py, packet loss is a counter. */
  predicate LossIsCounter(p: Program) {
    p != RootScript
  }

  /** The instruments program `p` declares. */
  function Declarations(p: Program): (d: seq<Declaration>)
    ensures |d| >= 10
  {
    match p
    case Packaged => ImMonitor.Declarations()
    case ImScript => ImMain.Declarations()
    case RootScript => RootMain.Declarations()
  }

  /**
   * The packet-loss instrument is declared a counter in exactly the programs
   * whose latency probe adds to it, and a gauge in the one that overwrites it.
   */
  lemma LossDeclaredAsUsed(p: Program)
    ensures Declarations(p)[2].kind == CounterKind <==> LossIsCounter(p)
    ensures !LossIsCounter(p) ==> Declarations(p)[2].kind == GaugeKind
  {
  }

  /** One probe run, with the outcome of its network call and, where timed, its duration. */
  datatype Call =
    | PingCall(ping: PingOutcome)
    | DownloadCall(get: DownloadOutcome, getTime: Elapsed)
    | UploadCall(post: UploadOutcome, postTime: Elapsed)

  function LatencyEffect(p: Program, m: Metrics, o: PingOutcome): (m': Metrics) {
    match p
    case Packaged => ImMonitor.LatencyEffect(m, o)
    case ImScript => ImMain.LatencyEffect(m, o)
    case RootScript => RootMain.LatencyEffect(m, o)
  }

  /** One call in program `p`; only the packaged program's upload probe does anything. */
  function Step(p: Program, m: Metrics, c: Call): (m': Metrics) {
    match c
    case PingCall(o) => LatencyEffect(p, m, o)
    case DownloadCall(o, t) => DownloadEffect(m, o, t)
    case UploadCall(o, t) => if p == Packaged then ImMonitor.UploadEffect(m, o, t) else m
  }

  /** The calls, one after another. */
  function Run(p: Program, m: Metrics, calls: seq<Call>): (m': Metrics)
    decreases |calls|
  {
    if calls == [] then m else Run(p, Step(p, m, calls[0]), calls[1..])
  }

  /** Every counter grows; so does the packet-loss instrument where it is a counter. */
  predicate CountersGrow(p: Program, m: Metrics, m': Metrics) {
    Grows(m, m') && (LossIsCounter(p) ==> m.packetLoss <= m'.packetLoss)
  }

  /** Each probe touches only its own family's instruments. */
  lemma StepTouchesOwnFamily(p: Program, m: Metrics, c: Call)
    ensures c.PingCall? ==> SameDownload(m, Step(p, m, c)) && SameUpload(m, Step(p, m, c))
    ensures c.DownloadCall? ==> SamePing(m, Step(p, m, c)) && SameUpload(m, Step(p, m, c))
    ensures c.UploadCall? ==> SamePing(m, Step(p, m, c)) && SameDownload(m, Step(p, m, c))
    ensures c.UploadCall? && p != Packaged ==> Step(p, m, c) == m
  {
  }

  lemma StepKeepsConsistent(p: Program, m: Metrics, c: Call)
    requires Consistent(m)
    ensures Consistent(Step(p, m, c)) && CountersGrow(p, m, Step(p, m, c))
  {
    match c
    case PingCall(o) =>
      match p {
        case Packaged => ImMonitor.LatencyKeepsConsistent(m, o);
        case ImScript => ImMain.LatencyKeepsConsistent(m, o);
        case RootScript => RootMain.LatencyKeepsConsistent(m, o);
      }
    case DownloadCall(o, t) => DownloadKeepsConsistent(m, o, t);
    case UploadCall(o, t) =>
      if p == Packaged {
        ImMonitor.UploadKeepsConsistent(m, o, t);
      }
  }

  /**
   * Along any sequence of calls the registry stays consistent (failures never
   * exceed requests, the link-up gauge is 0 or 1, one duration observation
   * per download or upload) and no counter ever goes down.
   */
  lemma {:induction false} RunKeepsConsistent(p: Program, m: Metrics, calls: seq<Call>)
    requires Consistent(m)
    ensures Consistent(Run(p, m, calls)) && CountersGrow(p, m, Run(p, m, calls))
    decreases |calls|
  {
    if calls != [] {
      var m1 := Step(p, m, calls[0]);
      StepKeepsConsistent(p, m, calls[0]);
      RunKeepsConsistent(p, m1, calls[1..]);
    }
  }

  /** From a fresh registry, every reachable state is consistent. */
  lemma ReachableConsistent(p: Program, calls: seq<Call>)
    ensures Consistent(Run(p, Initial, calls))
    ensures Run(p, Initial, calls).up == 0.0 || Run(p, Initial, calls).up == 1.0
  {
    InitialConsistent();
    RunKeepsConsistent(p, Initial, calls);
  }

  /** How many calls of each kind there are, and how many of them raised. */
  function Pings(calls: seq<Call>): (n: nat) {
    if calls == [] then 0 else (if calls[0].PingCall? then 1 else 0) + Pings(calls[1..])
  }

  function FailedPings(calls: seq<Call>): (n: nat) {
    if calls == [] then 0
    else (if calls[0] == PingCall(PingRaised) then 1 else 0) + FailedPings(calls[1..])
  }

  function Downloads(calls: seq<Call>): (n: nat) {
    if calls == [] then 0 else (if calls[0].DownloadCall? then 1 else 0) + Downloads(calls[1..])
  }

  function FailedDownloads(calls: seq<Call>): (n: nat) {
    if calls == [] then 0
    else (if calls[0].DownloadCall? && calls[0].get.GetRaised? then 1 else 0) + FailedDownloads(calls[1..])
  }

  function Uploads(calls: seq<Call>): (n: nat) {
    if calls == [] then 0 else (if calls[0].UploadCall? then 1 else 0) + Uploads(calls[1..])
  }

  function FailedUploads(calls: seq<Call>): (n: nat) {
    if calls == [] then 0
    else (if calls[0].UploadCall? && calls[0].post.UploadRaised? then 1 else 0) + FailedUploads(calls[1..])
  }

  /**
   * Every call adds exactly one to its own request counter, and exactly the
   * calls whose network operation raised add one to the failure counter.
   * The scripts' upload probe is a no-op, so there the upload family stays put.
   */
  lemma {:induction false} RunCounts(p: Program, m: Metrics, calls: seq<Call>)
    ensures Run(p, m, calls).pingTotal == m.pingTotal + Pings(calls)
    ensures Run(p, m, calls).pingFailures == m.pingFailures + FailedPings(calls)
    ensures Run(p, m, calls).downloadTotal == m.downloadTotal + Downloads(calls)
    ensures Run(p, m, calls).downloadFailures == m.downloadFailures + FailedDownloads(calls)
    ensures Run(p, m, calls).downloadDuration.count == m.downloadDuration.count + Downloads(calls)
    ensures p == Packaged ==>
              && Run(p, m, calls).uploadTotal == m.uploadTotal + Uploads(calls)
              && Run(p, m, calls).uploadFailures == m.uploadFailures + FailedUploads(calls)
    ensures p != Packaged ==> SameUpload(m, Run(p, m, calls))
    decreases |calls|
  {
    if calls != [] {
      RunCounts(p, Step(p, m, calls[0]), calls[1..]);
    }
  }

  /** The elapsed time of each download call, in order. */
  function DownloadTimes(calls: seq<Call>): (ts: seq<real>)
    ensures |ts| == Downloads(calls)
  {
    if calls == [] then []
    else (if calls[0].DownloadCall? then [calls[0].getTime as real] else []) + DownloadTimes(calls[1..])
  }

  /** The elapsed time of each upload call, in order. */
  function UploadTimes(calls: seq<Call>): (ts: seq<real>)
    ensures |ts| == Uploads(calls)
  {
    if calls == [] then []
    else (if calls[0].UploadCall? then [calls[0].postTime as real] else []) + UploadTimes(calls[1..])
  }

  /** The download histogram after a run has observed the run's download times, in order. */
  lemma {:induction false} RunDownloadHistogram(p: Program, m: Metrics, calls: seq<Call>)
    ensures Run(p, m, calls).downloadDuration == ObserveAll(m.downloadDuration, DownloadTimes(calls))
    decreases |calls|
  {
    if calls != [] {
      var m1 := Step(p, m, calls[0]);
      var rest := DownloadTimes(calls[1..]);
      StepTouchesOwnFamily(p, m, calls[0]);
      RunDownloadHistogram(p, m1, calls[1..]);
      if calls[0].DownloadCall? {
        var t: real := calls[0].getTime;
        assert DownloadTimes(calls) == [t] + rest;
        assert ([t] + rest)[0] == t && ([t] + rest)[1..] == rest;
        assert m1.downloadDuration == m.downloadDuration.Observe(t);
      } else {
        assert DownloadTimes(calls) == rest;
      }
    }
  }

  /** In the packaged program, the upload histogram after a run has observed the run's upload times. */
  lemma {:induction false} RunUploadHistogram(m: Metrics, calls: seq<Call>)
    ensures Run(Packaged, m, calls).uploadDuration == ObserveAll(m.uploadDuration, UploadTimes(calls))
    decreases |calls|
  {
    if calls != [] {
      var m1 := Step(Packaged, m, calls[0]);
      var rest := UploadTimes(calls[1..]);
      StepTouchesOwnFamily(Packaged, m, calls[0]);
      RunUploadHistogram(m1, calls[1..]);
      if calls[0].UploadCall? {
        var t: real := calls[0].postTime;
        assert UploadTimes(calls) == [t] + rest;
        assert ([t] + rest)[0] == t && ([t] + rest)[1..] == rest;
        assert m1.uploadDuration == m.uploadDuration.Observe(t);
      } else {
        assert UploadTimes(calls) == rest;
      }
    }
  }

  /**
   * From a fresh registry, the download histogram's sum is the total of the
   * run's download times and each bucket counts the times at most its bound.
   */
  lemma DownloadHistogramFromStart(p: Program, calls: seq<Call>)
    ensures Run(p, Initial, calls).downloadDuration.count == Downloads(calls)
    ensures Run(p, Initial, calls).downloadDuration.sum == Total(DownloadTimes(calls))
    ensures |Run(p, Initial, calls).downloadDuration.buckets| == |DurationBuckets|
    ensures forall i :: 0 <= i < |DurationBuckets| ==>
              Run(p, Initial, calls).downloadDuration.buckets[i] == CountWithin(DownloadTimes(calls), DurationBuckets[i])
  {
    RunDownloadHistogram(p, Initial, calls);
    EmptyObserveAll(DurationBuckets, DownloadTimes(calls));
  }

  /** The loss of the pings whose counter increment goes through. */
  function AcceptedLoss(calls: seq<Call>): (t: real) {
    if calls == [] then 0.0
    else (if calls[0].PingCall? && calls[0].ping.Replied? && CounterAccepts(calls[0].ping.host.packetLoss)
          then calls[0].ping.host.packetLoss else 0.0) + AcceptedLoss(calls[1..])
  }

  /** Where packet loss is a counter, it accumulates the loss of every run. */
  lemma {:induction false} CounterLossAccumulates(p: Program, m: Metrics, calls: seq<Call>)
    requires LossIsCounter(p)
    ensures Run(p, m, calls).packetLoss == m.packetLoss + AcceptedLoss(calls)
    decreases |calls|
  {
    if calls != [] {
      CounterLossAccumulates(p, Step(p, m, calls[0]), calls[1..]);
    }
  }

  predicate NoPing(calls: seq<Call>) {
    forall i :: 0 <= i < |calls| ==> !calls[i].PingCall?
  }

  lemma {:induction false} RunAppend(p: Program, m: Metrics, a: seq<Call>, b: seq<Call>)
    ensures Run(p, m, a + b) == Run(p, Run(p, m, a), b)
    decreases |a|
  {
    if a == [] {
      assert a + b == b;
    } else {
      assert (a + b)[0] == a[0] && (a + b)[1..] == a[1..] + b;
      RunAppend(p, Step(p, m, a[0]), a[1..], b);
    }
  }

  /** Download and upload calls leave the ping family alone. */
  lemma {:induction false} OtherProbesKeepPing(p: Program, m: Metrics, calls: seq<Call>)
    requires NoPing(calls)
    ensures SamePing(m, Run(p, m, calls))
    decreases |calls|
  {
    if calls != [] {
      StepTouchesOwnFamily(p, m, calls[0]);
      OtherProbesKeepPing(p, Step(p, m, calls[0]), calls[1..]);
    }
  }

  /** Whether a ping run ends with the link marked up. */
  predicate PingSucceeds(p: Program, o: PingOutcome) {
    o.Replied? && (LossIsCounter(p) ==> CounterAccepts(o.host.packetLoss))
  }

  /**
   * The ping gauges hold what the latest ping set, whatever came before:
   * the link-up gauge is 1 exactly when that ping succeeded, and main.py's
   * packet-loss gauge is that ping's loss.
   */
  lemma LatestPingDecides(p: Program, m: Metrics, before: seq<Call>, o: PingOutcome, after: seq<Call>)
    requires NoPing(after)
    ensures Run(p, m, before + [PingCall(o)] + after).up == if PingSucceeds(p, o) then 1.0 else 0.0
    ensures p == RootScript && o.Replied? ==>
              && Run(p, m, before + [PingCall(o)] + after).packetLoss == o.host.packetLoss
              && Run(p, m, before + [PingCall(o)] + after).jitter == o.host.maxRtt - o.host.minRtt
    ensures p == Packaged && PingSucceeds(p, o) ==>
              Run(p, m, before + [PingCall(o)] + after).jitter == (o.host.maxRtt - o.host.minRtt) / 1000.0
  {
    var mid := Run(p, m, before);
    RunAppend(p, m, before + [PingCall(o)], after);
    RunAppend(p, m, before, [PingCall(o)]);
    OtherProbesKeepPing(p, Step(p, mid, PingCall(o)), after);
  }
}
