/**
 * `download_speed`, which reads the same in all three programs: it counts
 * the request, fetches the URL, records the body size or counts a failure,
 * and its `.time()` decorator observes the elapsed time on every exit.
 */
module DownloadProbe {
  import opened Instruments
  import opened Outcomes
  import opened Registry

  /** The registry after one `download_speed(url)` call that took `elapsed` seconds. */
  function DownloadEffect(m: Metrics, outcome: DownloadOutcome, elapsed: Elapsed): (m': Metrics)
    ensures m'.downloadTotal == m.downloadTotal + 1
    ensures m'.downloadDuration == m.downloadDuration.Observe(elapsed)
    ensures outcome.Fetched? ==>
              m'.downloadSize == outcome.contentLength as real && m'.downloadFailures == m.downloadFailures
    ensures outcome.GetRaised? ==>
              m'.downloadSize == m.downloadSize && m'.downloadFailures == m.downloadFailures + 1
    ensures SamePing(m, m') && SameUpload(m, m')
  {
    var counted := m.(downloadTotal := m.downloadTotal + 1);
    var fetched := match outcome
      case Fetched(n) => counted.(downloadSize := n as real)
      case GetRaised => counted.(downloadFailures := counted.downloadFailures + 1);
    fetched.(downloadDuration := fetched.downloadDuration.Observe(elapsed))
  }

  /** A download keeps the registry consistent and lets no counter go down. */
  lemma DownloadKeepsConsistent(m: Metrics, outcome: DownloadOutcome, elapsed: Elapsed)
    requires Consistent(m)
    ensures Consistent(DownloadEffect(m, outcome, elapsed)) && Grows(m, DownloadEffect(m, outcome, elapsed))
  {
    ObserveKeepsWellFormed(m.downloadDuration, elapsed);
  }

  /** `download_speed(url)` with its `.time()` decorator. */
  method DownloadSpeed(r: MetricRegistry, outcome: DownloadOutcome, elapsed: Elapsed)
    modifies r
    ensures r.Values() == DownloadEffect(old(r.Values()), outcome, elapsed)
    ensures old(r.Valid()) ==> r.Valid()
  {
    ghost var before := r.Values();
    r.downloadTotal := r.downloadTotal + 1;
    match outcome {
      case Fetched(n) =>
        r.downloadSize := n as real;
      case GetRaised =>
        r.downloadFailures := r.downloadFailures + 1;
    }
    // the decorator's observation, made on every exit of the body
    r.downloadDuration := r.downloadDuration.Observe(elapsed);
    if Consistent(before) {
      DownloadKeepsConsistent(before, outcome, elapsed);
    }
  }
}
