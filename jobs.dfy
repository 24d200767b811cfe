/**
 * The job descriptors each program hands to its scheduler, as data. A
 * program's setup is the executor pool size, the job defaults, and the
 * steps it performs before starting the scheduler, in order.
 */
module Jobs {
  import opened Wrappers

  /** The probe a job runs. */
  datatype ProbeFunction = DownloadSpeedFn | LatencyFn | UploadSpeedFn

  /**
   * One `add_job` call with the "interval" trigger. An absent `maxInstances`
   * falls back to the scheduler's default; absent dates are left for the
   * scheduler to derive.
   */
  datatype Job = Job(
    id: string, func: ProbeFunction, args: seq<string>, intervalSeconds: int,
    maxInstances: Option<nat>, startDate: Option<int>, nextRunTime: Option<int>)

  /** A setup step: registering a job, or writing the upload's scratch file of `size` bytes. */
  datatype SetupStep = AddJob(job: Job) | CreateScratchFile(path: string, size: nat)

  /** An executor pool of `poolSize` threads, the job defaults, and the setup steps. */
  datatype SchedulerSetup = SchedulerSetup(
    poolSize: nat, coalesce: bool, defaultMaxInstances: nat, steps: seq<SetupStep>)

  /** The jobs the steps register, in order. */
  function JobsOf(steps: seq<SetupStep>): (js: seq<Job>)
    ensures |js| <= |steps|
  {
    if steps == [] then []
    else (if steps[0].AddJob? then [steps[0].job] else []) + JobsOf(steps[1..])
  }

  /** The first job registered under `id`, if any. */
  function FindJob(steps: seq<SetupStep>, id: string): (r: Option<Job>)
    ensures r.Some? ==> r.value.id == id
  {
    if steps == [] then None
    else if steps[0].AddJob? && steps[0].job.id == id then Some(steps[0].job)
    else FindJob(steps[1..], id)
  }

  /** How many concurrent runs of `j` the scheduler allows. */
  function EffectiveMaxInstances(s: SchedulerSetup, j: Job): (n: nat) {
    j.maxInstances.GetOr(s.defaultMaxInstances)
  }

  /** No two registered jobs share an id. */
  predicate IdsDistinct(steps: seq<SetupStep>) {
    forall i, k :: 0 <= i < k < |steps| && steps[i].AddJob? && steps[k].AddJob? ==>
      steps[i].job.id != steps[k].job.id
  }

  /** The job registered as `id` runs `f` on `args` every `interval` seconds, at most `limit` at a time. */
  predicate Registers(s: SchedulerSetup, id: string, f: ProbeFunction, args: seq<string>,
                      interval: int, limit: nat)
  {
    && FindJob(s.steps, id).Some?
    && var j := FindJob(s.steps, id).value;
    && j.func == f && j.args == args && j.intervalSeconds == interval
    && EffectiveMaxInstances(s, j) == limit
  }

  /** The scratch file `path` of `size` bytes is written before the job `id` is registered. */
  predicate WrittenBefore(steps: seq<SetupStep>, path: string, size: nat, id: string) {
    exists i, k :: 0 <= i < k < |steps| && steps[i] == CreateScratchFile(path, size) &&
      steps[k].AddJob? && steps[k].job.id == id
  }

  /** Some step writes a scratch file. */
  predicate WritesScratch(steps: seq<SetupStep>) {
    exists i :: 0 <= i < |steps| && steps[i].CreateScratchFile?
  }

  /** The configuration entries the programs read; an absent entry is `None`. */
  datatype ConfigKey = DownloadIntervalKey | DownloadUrlKey | PingIntervalKey
                     | IcmpDestHostKey | UploadIntervalKey | UploadUrlKey

  datatype Config = Config(
    icmpDestHost: Option<string>, downloadUrl: Option<string>, uploadUrl: Option<string>,
    downloadInterval: Option<int>, pingInterval: Option<int>, uploadInterval: Option<int>)

  predicate Has(c: Config, k: ConfigKey) {
    match k
    case DownloadIntervalKey => c.downloadInterval.Some?
    case DownloadUrlKey => c.downloadUrl.Some?
    case PingIntervalKey => c.pingInterval.Some?
    case IcmpDestHostKey => c.icmpDestHost.Some?
    case UploadIntervalKey => c.uploadInterval.Some?
    case UploadUrlKey => c.uploadUrl.Some?
  }

  /** Every entry is present. */
  predicate Complete(c: Config) {
    && c.icmpDestHost.Some? && c.downloadUrl.Some? && c.uploadUrl.Some?
    && c.downloadInterval.Some? && c.pingInterval.Some? && c.uploadInterval.Some?
  }

  /**
   * A setup either reaches `scheduler.start()`, or stops at the first absent
   * entry with a KeyError, after the steps already `done`.
   */
  datatype Startup = Started(setup: SchedulerSetup) | Aborted(done: seq<SetupStep>, missing: ConfigKey)
}
