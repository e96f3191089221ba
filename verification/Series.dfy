/** The samples a scrape emits, group by group, and the loops that emit them
  (internal/collector/tdarr.go). */
module Series {
  import opened Models
  import opened Folds
  import opened StatusEnums
  import opened NodeCounts

  datatype Metric =
    | ServerUptime | ServerInfo | ServerStatusInfo | ServerHealthy
    | Files | TranscodesCompleted | HealthChecksCompleted | SizeDiff | Score | HealthScore | AvgNumStreams
    | StreamDuration | StreamBitRate | StreamFrames
    | LibraryInfo | LibraryFiles | LibraryTranscodesTotal | LibraryHealthChecksTotal | LibrarySizeDiff
    | LibraryTranscodes | LibraryHealthChecks
    | VideoCodecs | VideoContainers | VideoResolutions | AudioCodecs | AudioContainers
    | UnknownStatusTotal
    | NodeInfo | NodeUptime | NodePaused | NodeMaxGpuWorkers | NodeScheduleEnabled
    | NodeHeapUsed | NodeHeapTotal | NodeHostCpu | NodeMemUsed | NodeMemTotal
    | NodeWorkerLimit | NodeQueueLength | NodeWorkerCount
    | WorkerInfo | WorkerStatus | WorkerPlugin | WorkerIdle | WorkerRatio | WorkerFps
    | WorkerOriginalSize | WorkerOutputSize | WorkerEstSize | WorkerJobStart | WorkerStepStart
    | WorkerStatusTs | WorkerEta
    | Up

  /** A sample: a metric, its label values in declared order, and a value. */
  datatype Sample = Sample(metric: Metric, labels: seq<string>, value: real)

  datatype Section = ServerSection | GeneralSection | LibrarySection | DriftSection | NodeSection | UpSection

  /** The group of the scrape that a metric belongs to. */
  function SectionOf(m: Metric): Section {
    match m
    case ServerUptime => ServerSection case ServerInfo => ServerSection
    case ServerStatusInfo => ServerSection case ServerHealthy => ServerSection
    case Files => GeneralSection case TranscodesCompleted => GeneralSection
    case HealthChecksCompleted => GeneralSection case SizeDiff => GeneralSection
    case Score => GeneralSection case HealthScore => GeneralSection case AvgNumStreams => GeneralSection
    case StreamDuration => GeneralSection case StreamBitRate => GeneralSection case StreamFrames => GeneralSection
    case LibraryInfo => LibrarySection case LibraryFiles => LibrarySection
    case LibraryTranscodesTotal => LibrarySection case LibraryHealthChecksTotal => LibrarySection
    case LibrarySizeDiff => LibrarySection case LibraryTranscodes => LibrarySection
    case LibraryHealthChecks => LibrarySection case VideoCodecs => LibrarySection
    case VideoContainers => LibrarySection case VideoResolutions => LibrarySection
    case AudioCodecs => LibrarySection case AudioContainers => LibrarySection
    case UnknownStatusTotal => DriftSection
    case Up => UpSection
    case _ => NodeSection
  }

  const BYTES_PER_MB := 1048576.0
  const BYTES_PER_GB := 1073741824.0
  const PERCENT_TO_RATIO := 0.01

  function FormatBool(b: bool): string {
    if b then "true" else "false"
  }

  function Flag(b: bool): real {
    if b then 1.0 else 0.0
  }

  // ---------------------------------------------------------------- server

  function ServerSeries(st: ServerStatus): seq<Sample> {
    [Sample(ServerUptime, [], st.uptime as real),
     Sample(ServerInfo, [st.version, st.os], 1.0),
     Sample(ServerStatusInfo, [st.status], 1.0),
     Sample(ServerHealthy, [], Flag(IsHealthyServerStatus(st)))]
  }

  // --------------------------------------------------------------- general

  function StreamSeries(m: Metric, s: StreamStat): seq<Sample> {
    [Sample(m, ["average"], s.average as real),
     Sample(m, ["highest"], s.highest as real),
     Sample(m, ["total"], s.total as real)]
  }

  function GeneralHead(m: GeneralStats, score: real, healthScore: real): seq<Sample> {
    [Sample(Files, [], m.totalFileCount as real),
     Sample(TranscodesCompleted, [], m.totalTranscodeCount as real),
     Sample(HealthChecksCompleted, [], m.totalHealthCheckCount as real),
     Sample(SizeDiff, [], m.sizeDiff * BYTES_PER_GB),
     Sample(Score, [], score * PERCENT_TO_RATIO),
     Sample(HealthScore, [], healthScore * PERCENT_TO_RATIO),
     Sample(AvgNumStreams, [], m.avgNumStreams)]
  }

  function GeneralSeries(m: GeneralStats, score: real, healthScore: real): seq<Sample> {
    GeneralHead(m, score, healthScore)
    + StreamSeries(StreamDuration, m.duration)
    + StreamSeries(StreamBitRate, m.bitRate)
    + StreamSeries(StreamFrames, m.numFrames)
  }

  // --------------------------------------------------------------- library

  function InfoSample(lib: Library): Sample {
    Sample(LibraryInfo, [lib.id, lib.name], 1.0)
  }

  function PieHead(p: Pie): seq<Sample> {
    [InfoSample(LibraryOf(p)),
     Sample(LibraryFiles, [p.libraryId], p.stat.totalFiles as real),
     Sample(LibraryTranscodesTotal, [p.libraryId], p.stat.totalTranscodes as real),
     Sample(LibraryHealthChecksTotal, [p.libraryId], p.stat.totalHealthChecks as real),
     Sample(LibrarySizeDiff, [p.libraryId], p.stat.sizeDiff * BYTES_PER_GB)]
  }

  function SliceSeries(m: Metric, id: string, slices: seq<Slice>): (r: seq<Sample>)
    ensures |r| == |slices|
    ensures forall i :: 0 <= i < |r| ==> r[i] == Sample(m, [id, slices[i].lower], slices[i].value as real)
  {
    seq(|slices|, i requires 0 <= i < |slices| => Sample(m, [id, slices[i].lower], slices[i].value as real))
  }

  function MediaSeries(p: Pie): seq<Sample> {
    SliceSeries(VideoCodecs, p.libraryId, p.stat.video.codecs)
    + SliceSeries(VideoContainers, p.libraryId, p.stat.video.containers)
    + SliceSeries(VideoResolutions, p.libraryId, p.stat.video.resolutions)
    + SliceSeries(AudioCodecs, p.libraryId, p.stat.audio.codecs)
    + SliceSeries(AudioContainers, p.libraryId, p.stat.audio.containers)
  }

  function StatusSample(m: Metric, id: string): (string, int) -> multiset<Sample> {
    (status, count) => multiset{Sample(m, [id, status], count as real)}
  }

  ghost function StatusSeries(m: Metric, id: string, counts: map<string, int>): multiset<Sample> {
    MapSum(counts, StatusSample(m, id))
  }

  /** All samples of one library. */
  ghost function PieSeries(p: Pie): multiset<Sample> {
    Bagged(PieHead(p))
    + StatusSeries(LibraryTranscodes, p.libraryId, p.transcodes)
    + StatusSeries(LibraryHealthChecks, p.libraryId, p.healthChecks)
    + Bagged(MediaSeries(p))
  }

  ghost function PieSamples(): Pie -> multiset<Sample> {
    p => PieSeries(p)
  }

  ghost function PiesSeries(pies: seq<Pie>): multiset<Sample> {
    SeqSum(pies, PieSamples())
  }

  // ----------------------------------------------------------------- drift

  ghost function DriftSeries(counts: multiset<StatusKey>): multiset<Sample> {
    MapSum(CountsByKey(counts), DriftSamples())
  }

  function DriftSamples(): (StatusKey, int) -> multiset<Sample> {
    (k: StatusKey, n: int) => multiset{Sample(UnknownStatusTotal, [k.kind, k.status], n as real)}
  }

  // ----------------------------------------------------------------- nodes

  function NodeHead(n: Node): seq<Sample> {
    [Sample(NodeInfo, [n.id, n.name, n.gpuSelect, n.pid, n.priority, FormatBool(n.allowGpuDoCpu)], 1.0),
     Sample(NodeUptime, [n.id, n.name], n.uptime as real)]
  }

  function NodeState(n: Node): seq<Sample> {
    [Sample(NodePaused, [n.id, n.name], Flag(n.paused)),
     Sample(NodeMaxGpuWorkers, [n.id, n.name], n.maxGpuWorkers as real),
     Sample(NodeScheduleEnabled, [n.id, n.name], Flag(n.scheduleEnabled))]
  }

  function Scaled(v: real, scale: real): real {
    v * scale
  }

  /** A resource gauge, skipped when its string did not parse. */
  function ParsedSeries(m: Metric, raw: Option<real>, scale: real, n: Node): seq<Sample> {
    if raw.Some? then [Sample(m, [n.id, n.name], Scaled(raw.value, scale))] else []
  }

  function ResourceSeries(n: Node): seq<Sample> {
    ParsedSeries(NodeHeapUsed, n.heapUsedMb, BYTES_PER_MB, n)
    + ParsedSeries(NodeHeapTotal, n.heapTotalMb, BYTES_PER_MB, n)
    + ParsedSeries(NodeHostCpu, n.cpuPercent, PERCENT_TO_RATIO, n)
    + ParsedSeries(NodeMemUsed, n.memUsedGb, BYTES_PER_GB, n)
    + ParsedSeries(NodeMemTotal, n.memTotalGb, BYTES_PER_GB, n)
  }

  function DimSample(m: Metric, n: Node, d: Dim, count: int): Sample {
    Sample(m, [n.id, n.name, d.workerType, d.computeType], count as real)
  }

  /** The job count of one of the known kinds. */
  function JobCount(jobs: NodeJobs, d: Dim): int {
    if d == TRANSCODE_CPU then jobs.transcodeCpu
    else if d == TRANSCODE_GPU then jobs.transcodeGpu
    else if d == HEALTH_CPU then jobs.healthCheckCpu
    else jobs.healthCheckGpu
  }

  /** One sample per known kind, each with that kind's count. */
  function PerTypeSeries(m: Metric, n: Node, jobs: NodeJobs): seq<Sample> {
    seq(|DIMS|, i requires 0 <= i < |DIMS| => DimSample(m, n, DIMS[i], JobCount(jobs, DIMS[i])))
  }

  function KnownCountSeries(n: Node): seq<Sample> {
    seq(|DIMS|, i requires 0 <= i < |DIMS| => DimSample(NodeWorkerCount, n, DIMS[i], |OfDim(n.workers, DIMS[i])|))
  }

  function UnknownCountSample(n: Node): (string, int) -> multiset<Sample> {
    (api, count) => multiset{Sample(NodeWorkerCount, [n.id, n.name, api, UNKNOWN], count as real)}
  }

  ghost function UnknownCountSeries(n: Node): multiset<Sample> {
    MapSum(UnknownCounts(n.workers), UnknownCountSample(n))
  }

  function WorkerHead(n: Node, w: Worker): seq<Sample> {
    var d := ParseWorkerType(w.workerType);
    [Sample(WorkerInfo, [n.id, n.name, w.id, d.workerType, d.computeType, FormatBool(w.flowWorker), w.file,
                         FormatBool(w.connected)], 1.0),
     Sample(WorkerStatus, [n.id, n.name, w.id, w.status], 1.0)]
  }

  function PluginSeries(n: Node, w: Worker): seq<Sample> {
    if w.pluginId != "" then [Sample(WorkerPlugin, [n.id, n.name, w.id, w.pluginId, w.pluginNumber], 1.0)] else []
  }

  function WorkerGauges(n: Node, w: Worker): seq<Sample> {
    [Sample(WorkerIdle, [n.id, n.name, w.id], Flag(w.idle)),
     Sample(WorkerRatio, [n.id, n.name, w.id], w.percentage * PERCENT_TO_RATIO),
     Sample(WorkerFps, [n.id, n.name, w.id], w.fps as real),
     Sample(WorkerOriginalSize, [n.id, n.name, w.id], w.originalSizeGb * BYTES_PER_GB),
     Sample(WorkerOutputSize, [n.id, n.name, w.id], w.outputSizeGb * BYTES_PER_GB),
     Sample(WorkerEstSize, [n.id, n.name, w.id], w.estSizeGb * BYTES_PER_GB),
     Sample(WorkerJobStart, [n.id, n.name, w.id], w.jobStart as real),
     Sample(WorkerStepStart, [n.id, n.name, w.id], w.stepStart as real),
     Sample(WorkerStatusTs, [n.id, n.name, w.id], w.statusTs as real)]
  }

  function EtaSeries(n: Node, w: Worker): seq<Sample> {
    match w.eta
    case None => []
    case Some(secs) => [Sample(WorkerEta, [n.id, n.name, w.id], secs as real)]
  }

  function WorkerSeries(n: Node, w: Worker): seq<Sample> {
    WorkerHead(n, w) + PluginSeries(n, w) + WorkerGauges(n, w) + EtaSeries(n, w)
  }

  function WorkerSamples(n: Node): (string, Worker) -> multiset<Sample> {
    (key, w) => Bagged(WorkerSeries(n, w))
  }

  /** What a node contributes apart from its workers' own samples. */
  function NodeFixed(n: Node): seq<Sample> {
    NodeBeforeCounts(n) + KnownCountSeries(n)
  }

  function NodeBeforeCounts(n: Node): seq<Sample> {
    NodeHead(n) + ResourceSeries(n) + NodeState(n)
    + PerTypeSeries(NodeWorkerLimit, n, n.workerLimits) + PerTypeSeries(NodeQueueLength, n, n.queueLengths)
  }

  ghost function NodeSeries(n: Node): multiset<Sample> {
    Bagged(NodeFixed(n)) + UnknownCountSeries(n) + MapSum(n.workers, WorkerSamples(n))
  }

  ghost function NodeSamples(): (string, Node) -> multiset<Sample> {
    (key, n) => NodeSeries(n)
  }

  ghost function NodesSeries(nodes: map<string, Node>): multiset<Sample> {
    MapSum(nodes, NodeSamples())
  }

  // ------------------------------------------------------------- the loops

  /** The channel Prometheus drains while a scrape runs. */
  class Channel {
    var sent: seq<Sample>

    constructor ()
      ensures sent == []
    {
      sent := [];
    }

    /** What has been sent, order aside. */
    ghost function Bag(): multiset<Sample>
      reads this
    {
      Bagged(sent)
    }

    method Send(s: Sample)
      modifies this
      ensures sent == old(sent) + [s]
    {
      sent := sent + [s];
    }
  }

  method EmitServerMetrics(ch: Channel, st: ServerStatus)
    modifies ch
    ensures ch.sent == old(ch.sent) + ServerSeries(st)
  {
    ch.Send(Sample(ServerUptime, [], st.uptime as real));
    ch.Send(Sample(ServerInfo, [st.version, st.os], 1.0));
    ch.Send(Sample(ServerStatusInfo, [st.status], 1.0));
    var healthy := 0.0;
    if IsHealthyServerStatus(st) {
      healthy := 1.0;
    }
    ch.Send(Sample(ServerHealthy, [], healthy));
  }

  method EmitStream(ch: Channel, m: Metric, s: StreamStat)
    modifies ch
    ensures ch.sent == old(ch.sent) + StreamSeries(m, s)
  {
    ch.Send(Sample(m, ["average"], s.average as real));
    ch.Send(Sample(m, ["highest"], s.highest as real));
    ch.Send(Sample(m, ["total"], s.total as real));
  }

  method EmitGeneralMetrics(ch: Channel, m: GeneralStats, score: real, healthScore: real)
    modifies ch
    ensures ch.sent == old(ch.sent) + GeneralSeries(m, score, healthScore)
  {
    ch.Send(Sample(Files, [], m.totalFileCount as real));
    ch.Send(Sample(TranscodesCompleted, [], m.totalTranscodeCount as real));
    ch.Send(Sample(HealthChecksCompleted, [], m.totalHealthCheckCount as real));
    ch.Send(Sample(SizeDiff, [], m.sizeDiff * BYTES_PER_GB));
    ch.Send(Sample(Score, [], score * PERCENT_TO_RATIO));
    ch.Send(Sample(HealthScore, [], healthScore * PERCENT_TO_RATIO));
    ch.Send(Sample(AvgNumStreams, [], m.avgNumStreams));
    assert ch.sent == old(ch.sent) + GeneralHead(m, score, healthScore);
    EmitStream(ch, StreamDuration, m.duration);
    EmitStream(ch, StreamBitRate, m.bitRate);
    EmitStream(ch, StreamFrames, m.numFrames);
  }

  method EmitPieSlices(ch: Channel, m: Metric, id: string, slices: seq<Slice>)
    modifies ch
    ensures ch.sent == old(ch.sent) + SliceSeries(m, id, slices)
  {
    var all := SliceSeries(m, id, slices);
    for i := 0 to |slices|
      invariant ch.sent == old(ch.sent) + all[..i]
    {
      ch.Send(Sample(m, [id, slices[i].lower], slices[i].value as real));
      assert all[..i + 1] == all[..i] + [all[i]];
    }
    assert all[..|slices|] == all;
  }

  /** Ranges over a status map; Go visits the keys in no fixed order. */
  method EmitStatuses(ch: Channel, m: Metric, id: string, counts: map<string, int>)
    modifies ch
    ensures old(ch.sent) <= ch.sent && ch.Bag() == old(ch.Bag()) + StatusSeries(m, id, counts)
  {
    var rest := counts.Keys;
    ghost var added := MapSum(counts - rest, StatusSample(m, id));
    assert counts - rest == map[];
    while rest != {}
      invariant rest <= counts.Keys
      invariant added == MapSum(counts - rest, StatusSample(m, id))
      invariant old(ch.sent) <= ch.sent && ch.Bag() == old(ch.Bag()) + added
      decreases rest
    {
      var status :| status in rest;
      ghost var before := ch.sent;
      ch.Send(Sample(m, [id, status], counts[status] as real));
      BaggedSnoc(before, Sample(m, [id, status], counts[status] as real));
      MapSumVisit(counts, rest, status, StatusSample(m, id));
      BagAssoc(old(ch.Bag()), added, StatusSample(m, id)(status, counts[status]));
      added := added + StatusSample(m, id)(status, counts[status]);
      rest := rest - {status};
    }
    assert counts - rest == counts;
  }

  method EmitMedia(ch: Channel, p: Pie)
    modifies ch
    ensures ch.sent == old(ch.sent) + MediaSeries(p) && ch.Bag() == old(ch.Bag()) + Bagged(MediaSeries(p))
  {
    EmitPieSlices(ch, VideoCodecs, p.libraryId, p.stat.video.codecs);
    EmitPieSlices(ch, VideoContainers, p.libraryId, p.stat.video.containers);
    EmitPieSlices(ch, VideoResolutions, p.libraryId, p.stat.video.resolutions);
    EmitPieSlices(ch, AudioCodecs, p.libraryId, p.stat.audio.codecs);
    EmitPieSlices(ch, AudioContainers, p.libraryId, p.stat.audio.containers);
    assert ch.sent == old(ch.sent) + MediaSeries(p);
    BaggedConcat(old(ch.sent), MediaSeries(p));
  }

  method EmitPieHead(ch: Channel, p: Pie)
    modifies ch
    ensures ch.sent == old(ch.sent) + PieHead(p)
  {
    ch.Send(Sample(LibraryInfo, [p.libraryId, p.libraryName], 1.0));
    ch.Send(Sample(LibraryFiles, [p.libraryId], p.stat.totalFiles as real));
    ch.Send(Sample(LibraryTranscodesTotal, [p.libraryId], p.stat.totalTranscodes as real));
    ch.Send(Sample(LibraryHealthChecksTotal, [p.libraryId], p.stat.totalHealthChecks as real));
    ch.Send(Sample(LibrarySizeDiff, [p.libraryId], p.stat.sizeDiff * BYTES_PER_GB));
  }

  method EmitPie(ch: Channel, p: Pie)
    modifies ch
    ensures old(ch.sent) <= ch.sent && ch.Bag() == old(ch.Bag()) + PieSeries(p)
  {
    EmitPieHead(ch, p);
    BaggedConcat(old(ch.sent), PieHead(p));
    EmitStatuses(ch, LibraryTranscodes, p.libraryId, p.transcodes);
    EmitStatuses(ch, LibraryHealthChecks, p.libraryId, p.healthChecks);
    EmitMedia(ch, p);
    ghost var start, head := old(ch.Bag()), Bagged(PieHead(p));
    ghost var t := StatusSeries(LibraryTranscodes, p.libraryId, p.transcodes);
    ghost var h := StatusSeries(LibraryHealthChecks, p.libraryId, p.healthChecks);
    BagAssoc(start, head, t);
    BagAssoc(start, head + t, h);
    BagAssoc(start, head + t + h, Bagged(MediaSeries(p)));
  }

  lemma OneMorePie(pies: seq<Pie>, i: nat)
    requires i < |pies|
    ensures PiesSeries(pies[..i + 1]) == PiesSeries(pies[..i]) + PieSeries(pies[i])
  {
    assert pies[..i + 1] == pies[..i] + [pies[i]];
    SeqSumSnoc(pies[..i], pies[i], PieSamples());
  }

  method EmitPieMetrics(ch: Channel, pies: seq<Pie>)
    modifies ch
    ensures old(ch.sent) <= ch.sent && ch.Bag() == old(ch.Bag()) + PiesSeries(pies)
  {
    ghost var added := PiesSeries(pies[..0]);
    for i := 0 to |pies|
      invariant added == PiesSeries(pies[..i])
      invariant old(ch.sent) <= ch.sent && ch.Bag() == old(ch.Bag()) + added
    {
      EmitPie(ch, pies[i]);
      OneMorePie(pies, i);
      BagAssoc(old(ch.Bag()), added, PieSeries(pies[i]));
      added := added + PieSeries(pies[i]);
    }
    assert pies[..|pies|] == pies;
  }

  /** The counters as they stand when the lock is taken. */
  method EmitDrift(ch: Channel, drift: DriftCounters)
    requires drift.Valid()
    modifies ch
    ensures old(ch.sent) <= ch.sent && ch.Bag() == old(ch.Bag()) + DriftSeries(drift.bumps)
  {
    var counts := drift.counts;
    var rest := counts.Keys;
    ghost var added := MapSum(counts - rest, DriftSamples());
    assert counts - rest == map[];
    while rest != {}
      invariant rest <= counts.Keys
      invariant added == MapSum(counts - rest, DriftSamples())
      invariant old(ch.sent) <= ch.sent && ch.Bag() == old(ch.Bag()) + added
      decreases rest
    {
      var key :| key in rest;
      ghost var before := ch.sent;
      ch.Send(Sample(UnknownStatusTotal, [key.kind, key.status], counts[key] as real));
      BaggedSnoc(before, Sample(UnknownStatusTotal, [key.kind, key.status], counts[key] as real));
      MapSumVisit(counts, rest, key, DriftSamples());
      BagAssoc(old(ch.Bag()), added, DriftSamples()(key, counts[key]));
      added := added + DriftSamples()(key, counts[key]);
      rest := rest - {key};
    }
    assert counts - rest == counts;
  }

  /** Known kinds first, zeros included; then whatever unknown names there are. */
  method EmitWorkerCounts(ch: Channel, n: Node)
    modifies ch
    ensures old(ch.sent) <= ch.sent && ch.Bag() == old(ch.Bag()) + Bagged(KnownCountSeries(n)) + UnknownCountSeries(n)
  {
    var known, unknown := CountWorkersByType(n.workers);
    EmitKnownCounts(ch, n, known);
    EmitUnknownCounts(ch, n, unknown);
  }

  method EmitKnownCounts(ch: Channel, n: Node, known: map<Dim, int>)
    requires known == KnownCounts(n.workers)
    modifies ch
    ensures old(ch.sent) <= ch.sent && ch.Bag() == old(ch.Bag()) + Bagged(KnownCountSeries(n))
  {
    var all := KnownCountSeries(n);
    for i := 0 to |DIMS|
      invariant ch.sent == old(ch.sent) + all[..i]
    {
      assert DIMS[i] in KNOWN_DIMS;
      ch.Send(DimSample(NodeWorkerCount, n, DIMS[i], known[DIMS[i]]));
      assert all[..i + 1] == all[..i] + [all[i]];
    }
    assert all[..|DIMS|] == all;
    BaggedConcat(old(ch.sent), all);
  }

  method EmitUnknownCounts(ch: Channel, n: Node, unknown: map<string, int>)
    requires unknown == UnknownCounts(n.workers)
    modifies ch
    ensures old(ch.sent) <= ch.sent && ch.Bag() == old(ch.Bag()) + UnknownCountSeries(n)
  {
    var rest := unknown.Keys;
    ghost var f := UnknownCountSample(n);
    ghost var added := MapSum(unknown - rest, f);
    assert unknown - rest == map[];
    while rest != {}
      invariant rest <= unknown.Keys
      invariant added == MapSum(unknown - rest, f)
      invariant old(ch.sent) <= ch.sent && ch.Bag() == old(ch.Bag()) + added
      decreases rest
    {
      var api :| api in rest;
      UnknownBucketsAreNonEmpty(n.workers, api);
      if unknown[api] != 0 {
        ghost var before := ch.sent;
        ch.Send(Sample(NodeWorkerCount, [n.id, n.name, api, UNKNOWN], unknown[api] as real));
        BaggedSnoc(before, Sample(NodeWorkerCount, [n.id, n.name, api, UNKNOWN], unknown[api] as real));
      }
      MapSumVisit(unknown, rest, api, f);
      BagAssoc(old(ch.Bag()), added, f(api, unknown[api]));
      added := added + f(api, unknown[api]);
      rest := rest - {api};
    }
    assert unknown - rest == unknown;
  }

  method EmitWorkerHead(ch: Channel, n: Node, w: Worker)
    modifies ch
    ensures ch.sent == old(ch.sent) + WorkerHead(n, w)
  {
    var d := ParseWorkerType(w.workerType);
    ch.Send(Sample(WorkerInfo, [n.id, n.name, w.id, d.workerType, d.computeType, FormatBool(w.flowWorker), w.file,
                                FormatBool(w.connected)], 1.0));
    ch.Send(Sample(WorkerStatus, [n.id, n.name, w.id, w.status], 1.0));
  }

  method EmitWorkerGauges(ch: Channel, n: Node, w: Worker)
    modifies ch
    ensures ch.sent == old(ch.sent) + WorkerGauges(n, w)
  {
    var idle := 0.0;
    if w.idle {
      idle := 1.0;
    }
    ch.Send(Sample(WorkerIdle, [n.id, n.name, w.id], idle));
    ch.Send(Sample(WorkerRatio, [n.id, n.name, w.id], w.percentage * PERCENT_TO_RATIO));
    ch.Send(Sample(WorkerFps, [n.id, n.name, w.id], w.fps as real));
    ch.Send(Sample(WorkerOriginalSize, [n.id, n.name, w.id], w.originalSizeGb * BYTES_PER_GB));
    ch.Send(Sample(WorkerOutputSize, [n.id, n.name, w.id], w.outputSizeGb * BYTES_PER_GB));
    ch.Send(Sample(WorkerEstSize, [n.id, n.name, w.id], w.estSizeGb * BYTES_PER_GB));
    ch.Send(Sample(WorkerJobStart, [n.id, n.name, w.id], w.jobStart as real));
    ch.Send(Sample(WorkerStepStart, [n.id, n.name, w.id], w.stepStart as real));
    ch.Send(Sample(WorkerStatusTs, [n.id, n.name, w.id], w.statusTs as real));
  }

  method EmitWorker(ch: Channel, n: Node, w: Worker)
    modifies ch
    ensures ch.sent == old(ch.sent) + WorkerSeries(n, w)
  {
    EmitWorkerHead(ch, n, w);
    if w.pluginId != "" {
      ch.Send(Sample(WorkerPlugin, [n.id, n.name, w.id, w.pluginId, w.pluginNumber], 1.0));
    }
    EmitWorkerGauges(ch, n, w);
    if w.eta.Some? {
      ch.Send(Sample(WorkerEta, [n.id, n.name, w.id], w.eta.value as real));
    }
  }

  method EmitWorkers(ch: Channel, n: Node)
    modifies ch
    ensures old(ch.sent) <= ch.sent && ch.Bag() == old(ch.Bag()) + MapSum(n.workers, WorkerSamples(n))
  {
    var rest := n.workers.Keys;
    ghost var f := WorkerSamples(n);
    ghost var added := MapSum(n.workers - rest, f);
    assert n.workers - rest == map[];
    while rest != {}
      invariant rest <= n.workers.Keys
      invariant added == MapSum(n.workers - rest, f)
      invariant old(ch.sent) <= ch.sent && ch.Bag() == old(ch.Bag()) + added
      decreases rest
    {
      var key :| key in rest;
      ghost var before := ch.sent;
      EmitWorker(ch, n, n.workers[key]);
      BaggedConcat(before, WorkerSeries(n, n.workers[key]));
      MapSumVisit(n.workers, rest, key, f);
      BagAssoc(old(ch.Bag()), added, f(key, n.workers[key]));
      added := added + f(key, n.workers[key]);
      rest := rest - {key};
    }
    assert n.workers - rest == n.workers;
  }

  /** A reading that did not parse is skipped. */
  method EmitParsedFloat(ch: Channel, m: Metric, raw: Option<real>, scale: real, n: Node)
    modifies ch
    ensures ch.sent == old(ch.sent) + ParsedSeries(m, raw, scale, n)
  {
    if raw.Some? {
      ch.Send(Sample(m, [n.id, n.name], Scaled(raw.value, scale)));
    }
  }

  lemma JobCounts(jobs: NodeJobs)
    ensures JobCount(jobs, DIMS[0]) == jobs.transcodeCpu && JobCount(jobs, DIMS[1]) == jobs.transcodeGpu
    ensures JobCount(jobs, DIMS[2]) == jobs.healthCheckCpu && JobCount(jobs, DIMS[3]) == jobs.healthCheckGpu
  {
    DimsAreDistinct();
    assert DIMS[0] != DIMS[1] && DIMS[0] != DIMS[2] && DIMS[0] != DIMS[3];
    assert DIMS[1] != DIMS[2] && DIMS[1] != DIMS[3] && DIMS[2] != DIMS[3];
  }

  method EmitPerType(ch: Channel, m: Metric, n: Node, jobs: NodeJobs)
    modifies ch
    ensures ch.sent == old(ch.sent) + PerTypeSeries(m, n, jobs)
  {
    JobCounts(jobs);
    ch.Send(DimSample(m, n, TRANSCODE_CPU, jobs.transcodeCpu));
    ch.Send(DimSample(m, n, TRANSCODE_GPU, jobs.transcodeGpu));
    ch.Send(DimSample(m, n, HEALTH_CPU, jobs.healthCheckCpu));
    ch.Send(DimSample(m, n, HEALTH_GPU, jobs.healthCheckGpu));
  }

  /** Identity, uptime, resource readings and state gauges of a node. */
  method EmitNodeState(ch: Channel, n: Node)
    modifies ch
    ensures ch.sent == old(ch.sent) + (NodeHead(n) + ResourceSeries(n) + NodeState(n))
  {
    EmitNodeHead(ch, n);
    EmitReadings(ch, n);
    EmitFlags(ch, n);
    SeqAssoc(old(ch.sent), NodeHead(n), ResourceSeries(n));
    SeqAssoc(old(ch.sent), NodeHead(n) + ResourceSeries(n), NodeState(n));
  }

  method EmitNodeHead(ch: Channel, n: Node)
    modifies ch
    ensures ch.sent == old(ch.sent) + NodeHead(n)
  {
    ch.Send(Sample(NodeInfo, [n.id, n.name, n.gpuSelect, n.pid, n.priority, FormatBool(n.allowGpuDoCpu)], 1.0));
    ch.Send(Sample(NodeUptime, [n.id, n.name], n.uptime as real));
  }

  method EmitFlags(ch: Channel, n: Node)
    modifies ch
    ensures ch.sent == old(ch.sent) + NodeState(n)
  {
    var paused, scheduled := 0.0, 0.0;
    if n.paused {
      paused := 1.0;
    }
    ch.Send(Sample(NodePaused, [n.id, n.name], paused));
    ch.Send(Sample(NodeMaxGpuWorkers, [n.id, n.name], n.maxGpuWorkers as real));
    if n.scheduleEnabled {
      scheduled := 1.0;
    }
    ch.Send(Sample(NodeScheduleEnabled, [n.id, n.name], scheduled));
  }

  method EmitReadings(ch: Channel, n: Node)
    modifies ch
    ensures ch.sent == old(ch.sent) + ResourceSeries(n)
  {
    EmitParsedFloat(ch, NodeHeapUsed, n.heapUsedMb, BYTES_PER_MB, n);
    EmitParsedFloat(ch, NodeHeapTotal, n.heapTotalMb, BYTES_PER_MB, n);
    EmitParsedFloat(ch, NodeHostCpu, n.cpuPercent, PERCENT_TO_RATIO, n);
    EmitParsedFloat(ch, NodeMemUsed, n.memUsedGb, BYTES_PER_GB, n);
    EmitParsedFloat(ch, NodeMemTotal, n.memTotalGb, BYTES_PER_GB, n);
    ghost var r0, r1 := ParsedSeries(NodeHeapUsed, n.heapUsedMb, BYTES_PER_MB, n), ParsedSeries(NodeHeapTotal, n.heapTotalMb, BYTES_PER_MB, n);
    ghost var r2, r3 := ParsedSeries(NodeHostCpu, n.cpuPercent, PERCENT_TO_RATIO, n), ParsedSeries(NodeMemUsed, n.memUsedGb, BYTES_PER_GB, n);
    SeqAssoc(old(ch.sent), r0, r1);
    SeqAssoc(old(ch.sent), r0 + r1, r2);
    SeqAssoc(old(ch.sent), r0 + r1 + r2, r3);
    SeqAssoc(old(ch.sent), r0 + r1 + r2 + r3, ParsedSeries(NodeMemTotal, n.memTotalGb, BYTES_PER_GB, n));
  }

  /** Everything about a node that does not depend on its workers. */
  method EmitBeforeCounts(ch: Channel, n: Node)
    modifies ch
    ensures ch.sent == old(ch.sent) + NodeBeforeCounts(n)
  {
    EmitNodeState(ch, n);
    EmitPerType(ch, NodeWorkerLimit, n, n.workerLimits);
    EmitPerType(ch, NodeQueueLength, n, n.queueLengths);
    ghost var state := NodeHead(n) + ResourceSeries(n) + NodeState(n);
    ghost var limits := PerTypeSeries(NodeWorkerLimit, n, n.workerLimits);
    SeqAssoc(old(ch.sent), state, limits);
    SeqAssoc(old(ch.sent), state + limits, PerTypeSeries(NodeQueueLength, n, n.queueLengths));
  }

  method EmitNode(ch: Channel, n: Node)
    modifies ch
    ensures old(ch.sent) <= ch.sent && ch.Bag() == old(ch.Bag()) + NodeSeries(n)
  {
    ghost var start, fixed := old(ch.Bag()), NodeBeforeCounts(n);
    EmitBeforeCounts(ch, n);
    BaggedConcat(old(ch.sent), NodeBeforeCounts(n));
    EmitWorkerCounts(ch, n);
    EmitWorkers(ch, n);
    ghost var known := Bagged(KnownCountSeries(n));
    BagAssoc(start, Bagged(fixed), known);
    BaggedConcat(fixed, KnownCountSeries(n));
    BagAssoc(start, Bagged(NodeFixed(n)), UnknownCountSeries(n));
    BagAssoc(start, Bagged(NodeFixed(n)) + UnknownCountSeries(n), MapSum(n.workers, WorkerSamples(n)));
  }

  method EmitNodeMetrics(ch: Channel, nodes: map<string, Node>)
    modifies ch
    ensures old(ch.sent) <= ch.sent && ch.Bag() == old(ch.Bag()) + NodesSeries(nodes)
  {
    var rest := nodes.Keys;
    ghost var added := MapSum(nodes - rest, NodeSamples());
    assert nodes - rest == map[];
    while rest != {}
      invariant rest <= nodes.Keys
      invariant added == MapSum(nodes - rest, NodeSamples())
      invariant old(ch.sent) <= ch.sent && ch.Bag() == old(ch.Bag()) + added
      decreases rest
    {
      var key :| key in rest;
      EmitNode(ch, nodes[key]);
      MapSumVisit(nodes, rest, key, NodeSamples());
      BagAssoc(old(ch.Bag()), added, NodeSeries(nodes[key]));
      added := added + NodeSeries(nodes[key]);
      rest := rest - {key};
    }
    assert nodes - rest == nodes;
  }
}
