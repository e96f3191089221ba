/** The documents the exporter reads from Tdarr, as decoded values
  (internal/collector/tdarr_models.go).  Floating-point fields are `real`; the
  two score strings are the outcome of parsing them, and strings that the code
  lower-cases come with the outcome of that. */
module Models {

  datatype Option<+T> = None | Some(value: T)

  /** One entry of the library list: `_id` and `name`. */
  datatype Library = Library(id: string, name: string)

  /** One named slice of a pie, with what lower-casing makes of its name. */
  datatype Slice = Slice(name: string, lower: string, value: int)

  datatype Media = Media(codecs: seq<Slice>, containers: seq<Slice>, resolutions: seq<Slice>)

  /** The body of one get-pies answer. */
  datatype PieStat = PieStat(
    totalFiles: int,
    totalTranscodes: int,
    totalHealthChecks: int,
    sizeDiff: real,
    transcode: seq<Slice>,
    healthCheck: seq<Slice>,
    video: Media,
    audio: Media)

  /** What a worker hands over for one library: the answer, the library's id and
      name, and the two normalised status maps. */
  datatype Pie = Pie(
    stat: PieStat,
    libraryId: string,
    libraryName: string,
    transcodes: map<string, int>,
    healthChecks: map<string, int>)

  /** The ten counts the cache is keyed on. */
  datatype Totals = Totals(
    files: int, transcodes: int, healthChecks: int,
    holdQueue: int, transcodeQueue: int, transcodeSuccess: int, transcodeFailed: int,
    healthCheckQueue: int, healthCheckSuccess: int, healthCheckFailed: int)

  datatype StreamStat = StreamStat(average: int, highest: int, total: int)

  /** The general statistics document.  A score is `None` when its string does
      not parse as a number. */
  datatype GeneralStats = GeneralStats(
    totalFileCount: int, totalTranscodeCount: int, totalHealthCheckCount: int,
    sizeDiff: real, score: Option<real>, healthScore: Option<real>, avgNumStreams: real,
    duration: StreamStat, bitRate: StreamStat, numFrames: StreamStat,
    table0: int, table1: int, table2: int, table3: int, table4: int, table5: int, table6: int)

  /** The status document; `lower` is its status trimmed and in lower case. */
  datatype ServerStatus = ServerStatus(status: string, lower: string, version: string, os: string, uptime: int)

  /** Job counts per worker kind, as in workerLimits and queueLengths. */
  datatype NodeJobs = NodeJobs(healthCheckCpu: int, healthCheckGpu: int, transcodeCpu: int, transcodeGpu: int)

  datatype Worker = Worker(
    id: string, workerType: string, flowWorker: bool, connected: bool, file: string, status: string,
    pluginId: string, pluginNumber: string, idle: bool, percentage: real, fps: int,
    originalSizeGb: real, outputSizeGb: real, estSizeGb: real,
    jobStart: int, stepStart: int, statusTs: int, eta: Option<int>)

  /** A node.  The five resource strings are the outcome of parsing them. */
  datatype Node = Node(
    id: string, name: string, gpuSelect: string, pid: string, priority: string,
    allowGpuDoCpu: bool, uptime: int,
    heapUsedMb: Option<real>, heapTotalMb: Option<real>, cpuPercent: Option<real>,
    memUsedGb: Option<real>, memTotalGb: Option<real>,
    paused: bool, maxGpuWorkers: int, scheduleEnabled: bool,
    workerLimits: NodeJobs, queueLengths: NodeJobs,
    workers: map<string, Worker>)

  function TotalsFromMetric(m: GeneralStats): Totals {
    Totals(m.totalFileCount, m.totalTranscodeCount, m.totalHealthCheckCount,
           m.table0, m.table1, m.table2, m.table3, m.table4, m.table5, m.table6)
  }

  /** Two documents with the same ten counts, field by field. */
  ghost predicate SameCounts(a: GeneralStats, b: GeneralStats) {
    && a.totalFileCount == b.totalFileCount && a.totalTranscodeCount == b.totalTranscodeCount
    && a.totalHealthCheckCount == b.totalHealthCheckCount
    && a.table0 == b.table0 && a.table1 == b.table1 && a.table2 == b.table2 && a.table3 == b.table3
    && a.table4 == b.table4 && a.table5 == b.table5 && a.table6 == b.table6
  }

  /** The totals tell two documents apart exactly when one of the ten counts does. */
  lemma TotalsIff(a: GeneralStats, b: GeneralStats)
    ensures TotalsFromMetric(a) == TotalsFromMetric(b) <==> SameCounts(a, b)
  {}

  function LibraryOf(p: Pie): Library {
    Library(p.libraryId, p.libraryName)
  }

  /** An unknown status: the kind of job and the cleaned label. */
  datatype StatusKey = StatusKey(kind: string, status: string)
}
