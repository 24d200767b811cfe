# internet-monitor probes, modelled in Dafny

The internet monitor is a long-running agent that measures three network
paths (an ICMP ping, an HTTP download and an HTTP upload) on fixed intervals
and exposes the results as Prometheus metrics. This project models its
measurement-to-metric logic:

- the **metric registry**: the counters, gauges, the latency summary and the
  two duration histograms a probe program declares, every value starting at
  zero (`Registry.MetricRegistry`, abstracted by `Values()` to the datatype
  `Registry.Metrics`);
- the **probes** `latency`, `download_speed` and `upload_speed`, as methods
  that update the registry in place, each tied to a pure effect function
  whose contract states what the probe promises;
- the **job table** each program hands to its scheduler, as data.

The repository holds three near-duplicate probe programs, and the model keeps
all three over one registry shape so that their differences can be stated:

| program | module | latency and jitter | packet loss |
|---|---|---|---|
| im/im/monitor.py | `ImMonitor` | ms divided by 1000 | counter |
| im/main.py | `ImMain` | ms multiplied by 1000 | counter |
| main.py | `RootMain` | latency divided by 1000, jitter raw | gauge |

`download_speed` reads the same in all three and is modelled once, as
`DownloadProbe.DownloadEffect` and the method `DownloadProbe.DownloadSpeed`.
The two scripts' `upload_speed` has an empty body.

Network and file calls become outcome arguments (`Outcomes`): `ping` returns
`Replied(host)` or `PingRaised`; `requests.get` returns `Fetched(length)` or
`GetRaised`; the upload's `open`/`post`/`stat` return `Uploaded(responseLength,
statSize)` or `UploadRaised`. The `.time()` decorator's elapsed time is an
argument of type `Elapsed` (a non-negative `real`). The clock readings used for
job dates are one argument `now`.

Modelling choices:

- `count_exceptions` wraps only the `ping` call. The one fault the later
  statements can raise from data is prometheus_client's `Counter.inc` refusing
  a negative amount (ValueError). The counter programs model it: the latency is
  already observed, the link is marked down, and no failure is counted. In
  main.py packet loss is a gauge, which accepts any value. This refusal is
  library behaviour, not code of the repository; icmplib never reports a
  negative loss, so the branch shows the structure of the try block.
- Jitter is stored as computed, negative when the maximum round trip is below
  the minimum, as the test fixture makes it (im/tests/test_monitor.py:16-17
  draw the maximum from 1..5 and the minimum from 5..10). The packaged
  program's metric names say seconds (im/im/monitor.py:31,33) and its test
  divides the round-trip times by 1000 (im/tests/test_monitor.py:72-76);
  im/main.py multiplies by 1000 instead, and main.py stores the jitter
  unconverted. The model keeps each program's own arithmetic.
- Histogram buckets count cumulatively ("le"): an observation enters every
  bucket whose bound is at least the value, and the +Inf bucket equals the
  count. This is an assumption about prometheus_client; the bounds are the
  declared ones, 1, 2, 5, 7, 10, 15, 20, 50, 100, +Inf.
- Counters that only ever `inc()` by one are `nat`; the packet-loss counter and
  all gauges are `real`, exact.
- A missing configuration entry makes `job_scheduler` and im/main.py's `main`
  stop with a KeyError at the first entry they look up that is absent, after
  the setup steps already done (`Jobs.Startup.Aborted`).

## Model

| member | source | states |
|---|---|---|
| `Instruments.EmptyHistogram` | im/im/monitor.py:38-42 | a declared histogram starts with count 0, sum 0 and every bucket 0 |
| `Instruments.EmptyDurationHistogramWellFormed` | im/im/monitor.py:41 | the declared bounds 1..100, +Inf are strictly increasing and end in +Inf, so the empty duration histogram is well-formed |
| `Instruments.ObserveKeepsWellFormed` | im/im/monitor.py:54-58 | an observation keeps buckets cumulative and the +Inf bucket equal to the count, and adds one to the count |
| `Instruments.ObserveAllCounts` | im/im/monitor.py:38-42 | after a run of observations the count grows by their number, the sum by their total, and each bucket by how many of them are at most its bound |
| `Instruments.EmptyObserveAll` | im/im/monitor.py:54-58 | from an empty histogram, each bucket holds exactly the observations at most its bound |
| `Registry.InitialConsistent` | im/tests/test_monitor.py:48-51 | the all-zero registry satisfies the invariant: failures plus latency observations equal requests, one duration observation per download/upload, link-up is 0 or 1 |
| `Registry.MetricRegistry.constructor` | im/im/monitor.py:21-65 | a fresh registry holds zero in every instrument, as the tests read before any probe runs |
| `DownloadProbe.DownloadEffect` | im/im/monitor.py:98-111 | a download always adds 1 to its request counter and one duration observation of the elapsed time; on success the size gauge is the body length and failures are unchanged; on a raise failures rise by 1 and the size is unchanged; ping and upload instruments are untouched |
| `DownloadProbe.DownloadSpeed` | im/im/monitor.py:98-111 | the registry after the method is `DownloadEffect` of the registry before, the decorator's observation made on every path, and the invariant is kept; the same body is im/main.py:62-75 and main.py:56-71 |
| `DownloadProbe.DownloadKeepsConsistent` | im/im/monitor.py:98-111 | a download keeps the registry invariant and lowers no counter, observation count or duration sum |
| `ImMonitor.Declarations` | im/im/monitor.py:21-65 | the fourteen declared instruments have distinct names; packet loss is the counter `internet_monitor_ping_packet_loss_total` |
| `ImMonitor.LatencyEffect` | im/im/monitor.py:70-95 | every call adds 1 to the ping counter; a raising ping adds 1 to failures, sets up to 0 and leaves latency, loss and jitter alone; a reply adds a latency observation of avg/1000 and no failure; if the loss counter accepts the loss it adds it, sets jitter to (max-min)/1000 as is and up to 1; otherwise up is 0 with loss and jitter unchanged; download and upload instruments are untouched |
| `ImMonitor.UploadEffect` | im/im/monitor.py:114-126 | an upload always adds 1 to its request counter and one duration observation; on success the size gauge is the scratch file's stat size, not the response; on a raise failures rise by 1 and the size is unchanged; other families are untouched |
| `ImMonitor.LatencyKeepsConsistent` | im/im/monitor.py:80-95 | a ping keeps the invariant, lowers no counter and never lowers the packet-loss counter |
| `ImMonitor.UploadKeepsConsistent` | im/im/monitor.py:114-126 | an upload keeps the invariant and lowers no counter |
| `ImMonitor.Latency` | im/im/monitor.py:70-95 | the registry after the method is `LatencyEffect` of the registry before, and the invariant is kept |
| `ImMonitor.UploadSpeed` | im/im/monitor.py:114-126 | the registry after the method is `UploadEffect` of the registry before, and the invariant is kept |
| `ImMonitor.FullSetup` | im/im/monitor.py:136-178 | a pool of 5, coalesce off, default max_instances 5; three jobs with distinct ids; download limited to 1 instance, ping and upload at the default 5; each interval and argument is the configured one; every job starts and first runs at now; the 52428800-byte `test-upload` file is written before the upload job is added |
| `ImMonitor.JobScheduler` | im/im/monitor.py:129-178 | the scheduler is set up exactly when every entry is present, and then as `FullSetup` with the configured values; otherwise it stops at an absent entry all of whose predecessors in lookup order are present, and the scratch file has been written exactly when the absent entry is one of the upload job's |
| `ImMain.Declarations` | im/main.py:21-38 | the ten declared instruments have distinct names; packet loss is the counter `internet_monitor_ping_packet_loss` |
| `ImMain.LatencyEffect` | im/main.py:43-59 | as in the packaged program, but the latency observation is avg*1000 and the jitter (max-min)*1000; the loss counter accumulates; only a raising ping counts a failure |
| `ImMain.LatencyKeepsConsistent` | im/main.py:48-59 | a ping keeps the invariant, lowers no counter and never lowers the packet-loss counter |
| `ImMain.Latency` | im/main.py:43-59 | the registry after the method is `ImMain.LatencyEffect` of the registry before, and the invariant is kept |
| `ImMain.UploadSpeed` | im/main.py:78-81 | leaves every instrument unchanged |
| `ImMain.Main` | im/main.py:92-114 | set up exactly when `downloadURL` and `icmpDestHost` are present, else stops at the first absent one without a scratch file; a pool of 20, default max_instances 3; download every 600 s with start date now minus 240 s and no next-run time, ping every 60 s with no start date, both at 3 instances; no upload job |
| `RootMain.Declarations` | main.py:19-36 | the ten declared instruments have distinct names; packet loss is the gauge `internet_monitor_ping_packet_loss` |
| `RootMain.LatencyEffect` | main.py:38-53 | every call adds 1 to the ping counter; a raising ping adds 1 to failures and sets up to 0; a reply adds a latency observation of avg/1000, sets the loss gauge to this run's loss, the jitter to max-min unconverted, and up to 1, with no failure counted |
| `RootMain.LatencyKeepsConsistent` | main.py:43-53 | a ping keeps the invariant and lowers no counter |
| `RootMain.Latency` | main.py:38-53 | the registry after the method is `RootMain.LatencyEffect` of the registry before, and the invariant is kept |
| `RootMain.UploadSpeed` | main.py:75-78 | leaves every instrument unchanged |
| `RootMain.Main` | main.py:81-104 | a pool of 20, default max_instances 3; download of the hard-coded URL every 600 s and ping of `1.1.1.1` every 60 s, both at 3 instances and without dates; no upload job and no scratch file |
| `Traces.LossDeclaredAsUsed` | main.py:23-24 | the packet-loss instrument is declared a counter exactly in the programs whose latency probe adds to it, and a gauge in main.py, whose probe overwrites it |
| `Traces.StepTouchesOwnFamily` | im/im/monitor.py:70-126 | a ping call changes no download or upload instrument, a download call no ping or upload instrument, an upload call no ping or download instrument; the scripts' upload call changes nothing |
| `Traces.StepKeepsConsistent` | im/im/monitor.py:70-126 | any single probe call in any program keeps the invariant and lowers no counter |
| `Traces.RunKeepsConsistent` | im/im/monitor.py:70-126 | over any sequence of probe calls in any program the invariant holds and every counter is non-decreasing, the packet-loss counter included where it is a counter |
| `Traces.ReachableConsistent` | im/tests/test_monitor.py:48-51 | every registry reachable from the fresh one is consistent, with link-up 0 or 1 |
| `Traces.RunCounts` | im/im/monitor.py:80-126 | over any sequence of calls each request counter rises by the number of its calls, each failure counter by the number of those calls whose network operation raised, and the download histogram by one observation per download; the scripts' upload family never changes |
| `Traces.RunDownloadHistogram` | im/im/monitor.py:98-99 | over any sequence of calls in any program, the download histogram ends as its start having observed every download call's elapsed time, in order |
| `Traces.RunUploadHistogram` | im/im/monitor.py:114-115 | over any sequence of calls in the packaged program, the upload histogram ends as its start having observed every upload call's elapsed time, in order |
| `Traces.DownloadHistogramFromStart` | im/im/monitor.py:38-42 | from a fresh registry, after any run the download histogram's count is the number of downloads, its sum their total time, and each bucket the number of downloads that took at most its bound |
| `Traces.CounterLossAccumulates` | im/main.py:25-26 | where packet loss is a counter it ends as its start plus the loss of every reply whose increment went through |
| `Traces.OtherProbesKeepPing` | im/im/monitor.py:98-126 | download and upload calls leave the whole ping family as it was |
| `Traces.LatestPingDecides` | main.py:48-50 | after the latest ping, whatever came before and whatever non-ping calls follow, link-up is 1 exactly when that ping succeeded; in main.py the loss and jitter gauges are that ping's values, in the packaged program the jitter is its (max-min)/1000 |
| `Comparisons.JitterUnits` | im/main.py:55 | on the same reply im/main.py's jitter is 1000000 times the packaged program's and main.py's is 1000 times it |
| `Comparisons.LatencyUnits` | im/main.py:52 | main.py observes the same latency as the packaged program; im/main.py's observation is 1000000 times larger |
| `Comparisons.LossKinds` | main.py:48 | the counter programs add the loss to the old value, main.py's gauge replaces it; they agree exactly when the old value is zero |
| `Comparisons.NegativeLoss` | im/im/monitor.py:85-95 | a negative loss leaves both counter programs (im/im/monitor.py and im/main.py) with the link down, no failure counted and the latency already observed, while main.py marks the link up |
| `Comparisons.RaisedPingAgrees` | main.py:44-53 | a raising ping has the same effect in all three programs |
| `Comparisons.DownloadsAgree` | main.py:56-71 | any run of download calls leaves the same registry in all three programs |
| `Scenarios.LatencySucceeds` | im/tests/test_monitor.py:28-76 | from a fresh registry, one fixture reply gives up 1, one request, no failure, the reply's loss, a jitter of (max-min)/1000 that is never positive, and a latency sum of avg/1000 |
| `Scenarios.LatencyFails` | im/tests/test_monitor.py:79-109 | from a fresh registry, a raising ping gives up 0, one request, one failure, and no latency, loss or jitter |
| `Scenarios.DownloadSucceeds` | im/tests/test_monitor.py:119-153 | from a fresh registry, one download gives the body length as size, one request, no failure and one duration observation of the elapsed time |
| `Scenarios.DownloadFails` | im/tests/test_monitor.py:156-190 | from a fresh registry, a raising download gives one request, one failure, size 0 and one non-negative duration observation |
| `Scenarios.UploadSucceeds` | im/im/monitor.py:166-178 | from a fresh registry, an upload of the scratch file the scheduler writes gives size 52428800 whatever the response, one request, no failure and one duration observation of the elapsed time |
| `Scenarios.UploadReportsStatSize` | im/tests/test_monitor.py:193-229 | from a fresh registry, with the stat call reporting the response's length as the test mocks it, the size gauge shows that length, with one request, no failure and one duration observation of the elapsed time |
| `Scenarios.UploadFails` | im/tests/test_monitor.py:232-266 | from a fresh registry, a raising upload gives one request, one failure, size 0 and one non-negative duration observation |

## Left out

- The network and file calls themselves (`icmplib.ping` with count 2 and interval 0.5, `requests.get`, `requests.post`, `open`, `os.stat`, the scratch-file write): they are I/O and appear only as outcome arguments or as a setup step.
- The file handle im/im/monitor.py opens for the upload and never closes: a resource leak with no effect on the metrics.
- Logging and im/main.py's console print of the latency: output only.
- The apscheduler runtime: timers, the thread pool, enforcement of max_instances, coalescing, how a first run is derived when no next-run time is given, and `scheduler.start()`. It is concurrency inside a library that is not part of this model; only the descriptors handed to it are modelled, so the bound on concurrent runs of a job is not proved.
- Traces.RunKeepsConsistent, Traces.ReachableConsistent, Traces.LatestPingDecides: probe calls are modelled as atomic and strictly sequential, so `Consistent` is promised only between calls. A scrape may read the registry mid-call (e.g. after `download_speed` counted the request but before its decorator observed the duration), and max_instances lets runs of one job overlap (5 in im/im/monitor.py:139, 3 in im/main.py:104 and main.py:93), so two overlapping pings of main.py can leave one run's loss beside the other's jitter. Interleavings are not modelled.
- ImMonitor.FullSetup: `job_scheduler` reads `utcnow()` six times (next-run time, then start date, for each job); the model takes one reading `now` for all, so "each job first runs at its start date" holds only up to the time between those readings.
- The time zone of the clock readings (im/main.py subtracts four minutes from a local `datetime.now()` for a scheduler in UTC): `now` is whatever the clock call returned.
- prometheus_client internals: its locks, `start_http_server`, the exposition format and sample names (`_total`, `_sum`, `_count`), and how it assigns observations to buckets (assumed cumulative, see above).
- Floating-point rounding: the millisecond-to-second conversions and the gauges use exact `real`.
- Process plumbing: logging setup, the `main` entry points and the KeyboardInterrupt shutdown (im/im/monitor.py:185-216, im/main.py:121-145, main.py:111-132).
- main.py imported rather than run: `LOGGER` is then unbound and the except branch would itself raise; main.py is modelled as run as a script.
- Configuration loading and packaging: the YAML loader of im/main.py, the static dictionary in im/im/config.py, im/setup.py, and the types of configuration values (an interval is taken as an integer).
- alerthook/main.py is not part of this model: a web endpoint that echoes its request.
- The test harness's registry unregister-and-reload step: a fresh `MetricRegistry` plays its role.
