/** What each document says in samples, read off its fields one by one, and that the
  series of a scrape are exactly that. */
module Readings {
  import opened Models
  import opened Folds
  import opened StatusEnums
  import opened NodeCounts
  import opened Series
  import opened Sections

  // --------------------------------------------------------- server, general

  ghost predicate ServerReading(st: ServerStatus, x: Sample) {
    || x == Sample(ServerUptime, [], st.uptime as real)
    || x == Sample(ServerInfo, [st.version, st.os], 1.0)
    || x == Sample(ServerStatusInfo, [st.status], 1.0)
    || x == Sample(ServerHealthy, [], if st.lower in {"good", "ok", "healthy"} then 1.0 else 0.0)
  }

  lemma ServerReads(st: ServerStatus, x: Sample)
    ensures x in ServerSeries(st) <==> ServerReading(st, x)
  {
    KnownLabels();
  }

  ghost predicate StreamReading(m: Metric, s: StreamStat, x: Sample) {
    || x == Sample(m, ["average"], s.average as real)
    || x == Sample(m, ["highest"], s.highest as real)
    || x == Sample(m, ["total"], s.total as real)
  }

  ghost predicate GeneralReading(m: GeneralStats, x: Sample) {
    || x == Sample(Files, [], m.totalFileCount as real)
    || x == Sample(TranscodesCompleted, [], m.totalTranscodeCount as real)
    || x == Sample(HealthChecksCompleted, [], m.totalHealthCheckCount as real)
    || x == Sample(SizeDiff, [], m.sizeDiff * 1073741824.0)
    || (m.score.Some? && x == Sample(Score, [], m.score.value * 0.01))
    || (m.healthScore.Some? && x == Sample(HealthScore, [], m.healthScore.value * 0.01))
    || x == Sample(AvgNumStreams, [], m.avgNumStreams)
    || StreamReading(StreamDuration, m.duration, x)
    || StreamReading(StreamBitRate, m.bitRate, x)
    || StreamReading(StreamFrames, m.numFrames, x)
  }

  lemma GeneralReads(m: GeneralStats, x: Sample)
    requires m.score.Some? && m.healthScore.Some?
    ensures x in GeneralSeries(m, m.score.value, m.healthScore.value) <==> GeneralReading(m, x)
  {
    var head := GeneralHead(m, m.score.value, m.healthScore.value);
    InFour(head, StreamSeries(StreamDuration, m.duration), StreamSeries(StreamBitRate, m.bitRate),
           StreamSeries(StreamFrames, m.numFrames), x);
  }

  lemma InFour(a: seq<Sample>, b: seq<Sample>, c: seq<Sample>, d: seq<Sample>, x: Sample)
    ensures x in a + b + c + d <==> x in a || x in b || x in c || x in d
  {}

  // --------------------------------------------------------------- libraries

  ghost predicate SliceReading(m: Metric, id: string, slices: seq<Slice>, x: Sample) {
    exists k :: 0 <= k < |slices| && x == Sample(m, [id, slices[k].lower], slices[k].value as real)
  }

  ghost predicate StatusReading(m: Metric, id: string, counts: map<string, int>, x: Sample) {
    exists l :: l in counts && x == Sample(m, [id, l], counts[l] as real)
  }

  ghost predicate MediaReading(p: Pie, x: Sample) {
    || SliceReading(VideoCodecs, p.libraryId, p.stat.video.codecs, x)
    || SliceReading(VideoContainers, p.libraryId, p.stat.video.containers, x)
    || SliceReading(VideoResolutions, p.libraryId, p.stat.video.resolutions, x)
    || SliceReading(AudioCodecs, p.libraryId, p.stat.audio.codecs, x)
    || SliceReading(AudioContainers, p.libraryId, p.stat.audio.containers, x)
  }

  ghost predicate PieReading(p: Pie, x: Sample) {
    || x == Sample(LibraryInfo, [p.libraryId, p.libraryName], 1.0)
    || x == Sample(LibraryFiles, [p.libraryId], p.stat.totalFiles as real)
    || x == Sample(LibraryTranscodesTotal, [p.libraryId], p.stat.totalTranscodes as real)
    || x == Sample(LibraryHealthChecksTotal, [p.libraryId], p.stat.totalHealthChecks as real)
    || x == Sample(LibrarySizeDiff, [p.libraryId], p.stat.sizeDiff * 1073741824.0)
    || StatusReading(LibraryTranscodes, p.libraryId, p.transcodes, x)
    || StatusReading(LibraryHealthChecks, p.libraryId, p.healthChecks, x)
    || MediaReading(p, x)
  }

  lemma SliceReads(m: Metric, id: string, slices: seq<Slice>, x: Sample)
    ensures x in SliceSeries(m, id, slices) <==> SliceReading(m, id, slices, x)
  {
    var s := SliceSeries(m, id, slices);
    if x in s {
      var k :| 0 <= k < |s| && s[k] == x;
      assert s[k] == Sample(m, [id, slices[k].lower], slices[k].value as real);
    }
    if k :| 0 <= k < |slices| && x == Sample(m, [id, slices[k].lower], slices[k].value as real) {
      assert s[k] == x;
    }
  }

  lemma StatusReads(m: Metric, id: string, counts: map<string, int>, x: Sample)
    ensures x in StatusSeries(m, id, counts) <==> StatusReading(m, id, counts, x)
  {
    MapSumMember(counts, StatusSample(m, id), x);
    forall l | l in counts
      ensures x in StatusSample(m, id)(l, counts[l]) <==> x == Sample(m, [id, l], counts[l] as real)
    {}
  }

  lemma InFive(a: seq<Sample>, b: seq<Sample>, c: seq<Sample>, d: seq<Sample>, e: seq<Sample>, x: Sample)
    ensures x in a + b + c + d + e <==> x in a || x in b || x in c || x in d || x in e
  {}

  lemma MediaReads(p: Pie, x: Sample)
    ensures x in MediaSeries(p) <==> MediaReading(p, x)
  {
    SliceReads(VideoCodecs, p.libraryId, p.stat.video.codecs, x);
    SliceReads(VideoContainers, p.libraryId, p.stat.video.containers, x);
    SliceReads(VideoResolutions, p.libraryId, p.stat.video.resolutions, x);
    SliceReads(AudioCodecs, p.libraryId, p.stat.audio.codecs, x);
    SliceReads(AudioContainers, p.libraryId, p.stat.audio.containers, x);
    InFive(SliceSeries(VideoCodecs, p.libraryId, p.stat.video.codecs),
           SliceSeries(VideoContainers, p.libraryId, p.stat.video.containers),
           SliceSeries(VideoResolutions, p.libraryId, p.stat.video.resolutions),
           SliceSeries(AudioCodecs, p.libraryId, p.stat.audio.codecs),
           SliceSeries(AudioContainers, p.libraryId, p.stat.audio.containers), x);
  }

  lemma PieHeadReads(p: Pie, x: Sample)
    ensures x in PieHead(p) <==>
            || x == Sample(LibraryInfo, [p.libraryId, p.libraryName], 1.0)
            || x == Sample(LibraryFiles, [p.libraryId], p.stat.totalFiles as real)
            || x == Sample(LibraryTranscodesTotal, [p.libraryId], p.stat.totalTranscodes as real)
            || x == Sample(LibraryHealthChecksTotal, [p.libraryId], p.stat.totalHealthChecks as real)
            || x == Sample(LibrarySizeDiff, [p.libraryId], p.stat.sizeDiff * 1073741824.0)
  {}

  /** One library's samples, field by field. */
  lemma PieReads(p: Pie, x: Sample)
    ensures x in PieSeries(p) <==> PieReading(p, x)
  {
    BaggedMember(PieHead(p), x);
    PieHeadReads(p, x);
    StatusReads(LibraryTranscodes, p.libraryId, p.transcodes, x);
    StatusReads(LibraryHealthChecks, p.libraryId, p.healthChecks, x);
    BaggedMember(MediaSeries(p), x);
    MediaReads(p, x);
  }

  lemma PiesRead(pies: seq<Pie>, x: Sample)
    ensures x in PiesSeries(pies) <==> exists p :: p in pies && PieReading(p, x)
  {
    SeqSumMember(pies, PieSamples(), x);
    forall p | p in pies ensures x in PieSamples()(p) <==> PieReading(p, x) {
      PieReads(p, x);
    }
  }

  // ------------------------------------------------------------------- drift

  ghost predicate DriftReading(counts: multiset<StatusKey>, x: Sample) {
    exists k :: k in counts && x == Sample(UnknownStatusTotal, [k.kind, k.status], counts[k] as real)
  }

  lemma DriftReads(counts: multiset<StatusKey>, x: Sample)
    ensures x in DriftSeries(counts) <==> DriftReading(counts, x)
  {
    MapSumMember(CountsByKey(counts), DriftSamples(), x);
    forall k | k in counts
      ensures x in DriftSamples()(k, CountsByKey(counts)[k])
              <==> x == Sample(UnknownStatusTotal, [k.kind, k.status], counts[k] as real)
    {}
  }

  // ------------------------------------------------------------------- nodes

  ghost predicate FlagReading(m: Metric, ids: seq<string>, flag: bool, x: Sample) {
    x == Sample(m, ids, if flag then 1.0 else 0.0)
  }

  ghost predicate ScaledReading(m: Metric, ids: seq<string>, v: Option<real>, scale: real, x: Sample) {
    v.Some? && x == Sample(m, ids, v.value * scale)
  }

  ghost predicate JobsReading(m: Metric, n: Node, jobs: NodeJobs, x: Sample) {
    || x == Sample(m, [n.id, n.name, "transcode", "cpu"], jobs.transcodeCpu as real)
    || x == Sample(m, [n.id, n.name, "transcode", "gpu"], jobs.transcodeGpu as real)
    || x == Sample(m, [n.id, n.name, "healthcheck", "cpu"], jobs.healthCheckCpu as real)
    || x == Sample(m, [n.id, n.name, "healthcheck", "gpu"], jobs.healthCheckGpu as real)
  }

  /** The two labels of a raw worker type: a known one is them run together, any other
      keeps its name and is unknown. */
  ghost predicate TypeLabels(raw: string, t: string, c: string) {
    || (Dim(t, c) in KNOWN_DIMS && raw == t + c)
    || (t == raw && c == "unknown" && forall d :: d in KNOWN_DIMS ==> raw != d.workerType + d.computeType)
  }

  /** A worker count: each known kind's, zeros included, and each unknown name's. */
  ghost predicate CountReading(n: Node, x: Sample) {
    || (exists d :: d in KNOWN_DIMS
          && x == Sample(NodeWorkerCount, [n.id, n.name, d.workerType, d.computeType],
                         |set k | k in n.workers && n.workers[k].workerType == d.workerType + d.computeType| as real))
    || (exists j :: j in n.workers && TypeLabels(n.workers[j].workerType, n.workers[j].workerType, "unknown")
          && x == Sample(NodeWorkerCount, [n.id, n.name, n.workers[j].workerType, "unknown"],
                         |set k | k in n.workers && n.workers[k].workerType == n.workers[j].workerType| as real))
  }

  ghost predicate StateReading(n: Node, x: Sample) {
    var ids := [n.id, n.name];
    || x == Sample(NodeInfo, [n.id, n.name, n.gpuSelect, n.pid, n.priority, if n.allowGpuDoCpu then "true" else "false"], 1.0)
    || x == Sample(NodeUptime, ids, n.uptime as real)
    || ScaledReading(NodeHeapUsed, ids, n.heapUsedMb, 1048576.0, x)
    || ScaledReading(NodeHeapTotal, ids, n.heapTotalMb, 1048576.0, x)
    || ScaledReading(NodeHostCpu, ids, n.cpuPercent, 0.01, x)
    || ScaledReading(NodeMemUsed, ids, n.memUsedGb, 1073741824.0, x)
    || ScaledReading(NodeMemTotal, ids, n.memTotalGb, 1073741824.0, x)
    || FlagReading(NodePaused, ids, n.paused, x)
    || x == Sample(NodeMaxGpuWorkers, ids, n.maxGpuWorkers as real)
    || FlagReading(NodeScheduleEnabled, ids, n.scheduleEnabled, x)
  }

  ghost predicate WorkerReading(n: Node, w: Worker, x: Sample) {
    var ids := [n.id, n.name, w.id];
    || (exists t, c :: TypeLabels(w.workerType, t, c)
          && x == Sample(WorkerInfo, [n.id, n.name, w.id, t, c, if w.flowWorker then "true" else "false", w.file,
                                      if w.connected then "true" else "false"], 1.0))
    || x == Sample(WorkerStatus, [n.id, n.name, w.id, w.status], 1.0)
    || (w.pluginId != "" && x == Sample(WorkerPlugin, [n.id, n.name, w.id, w.pluginId, w.pluginNumber], 1.0))
    || FlagReading(WorkerIdle, ids, w.idle, x)
    || x == Sample(WorkerRatio, ids, w.percentage * 0.01)
    || x == Sample(WorkerFps, ids, w.fps as real)
    || x == Sample(WorkerOriginalSize, ids, w.originalSizeGb * 1073741824.0)
    || x == Sample(WorkerOutputSize, ids, w.outputSizeGb * 1073741824.0)
    || x == Sample(WorkerEstSize, ids, w.estSizeGb * 1073741824.0)
    || x == Sample(WorkerJobStart, ids, w.jobStart as real)
    || x == Sample(WorkerStepStart, ids, w.stepStart as real)
    || x == Sample(WorkerStatusTs, ids, w.statusTs as real)
    || (w.eta.Some? && x == Sample(WorkerEta, ids, w.eta.value as real))
  }

  ghost predicate NodeReading(n: Node, x: Sample) {
    || StateReading(n, x)
    || JobsReading(NodeWorkerLimit, n, n.workerLimits, x)
    || JobsReading(NodeQueueLength, n, n.queueLengths, x)
    || CountReading(n, x)
    || exists k :: k in n.workers && WorkerReading(n, n.workers[k], x)
  }

  lemma JobsRead(m: Metric, n: Node, jobs: NodeJobs, x: Sample)
    ensures x in PerTypeSeries(m, n, jobs) <==> JobsReading(m, n, jobs, x)
  {
    JobCounts(jobs);
    var s := PerTypeSeries(m, n, jobs);
    assert s == [s[0], s[1], s[2], s[3]];
  }

  lemma ReadingsRead(n: Node, x: Sample)
    ensures x in ResourceSeries(n) <==>
            var ids := [n.id, n.name];
            || ScaledReading(NodeHeapUsed, ids, n.heapUsedMb, 1048576.0, x)
            || ScaledReading(NodeHeapTotal, ids, n.heapTotalMb, 1048576.0, x)
            || ScaledReading(NodeHostCpu, ids, n.cpuPercent, 0.01, x)
            || ScaledReading(NodeMemUsed, ids, n.memUsedGb, 1073741824.0, x)
            || ScaledReading(NodeMemTotal, ids, n.memTotalGb, 1073741824.0, x)
  {
    InFive(ParsedSeries(NodeHeapUsed, n.heapUsedMb, BYTES_PER_MB, n), ParsedSeries(NodeHeapTotal, n.heapTotalMb, BYTES_PER_MB, n),
           ParsedSeries(NodeHostCpu, n.cpuPercent, PERCENT_TO_RATIO, n), ParsedSeries(NodeMemUsed, n.memUsedGb, BYTES_PER_GB, n),
           ParsedSeries(NodeMemTotal, n.memTotalGb, BYTES_PER_GB, n), x);
  }

  lemma StateReads(n: Node, x: Sample)
    ensures x in NodeHead(n) + ResourceSeries(n) + NodeState(n) <==> StateReading(n, x)
  {
    ReadingsRead(n, x);
  }

  lemma KnownCountsRead(n: Node, x: Sample)
    ensures x in KnownCountSeries(n) <==>
            exists d :: d in KNOWN_DIMS
              && x == Sample(NodeWorkerCount, [n.id, n.name, d.workerType, d.computeType],
                             |set k | k in n.workers && n.workers[k].workerType == d.workerType + d.computeType| as real)
  {
    var s := KnownCountSeries(n);
    CountsOfRawTypes(n.workers);
    forall i | 0 <= i < |DIMS|
      ensures DIMS[i] in KNOWN_DIMS
      ensures s[i] == Sample(NodeWorkerCount, [n.id, n.name, DIMS[i].workerType, DIMS[i].computeType],
                             |set k | k in n.workers && n.workers[k].workerType == DIMS[i].workerType + DIMS[i].computeType| as real)
    {
      assert KnownCounts(n.workers)[DIMS[i]] == |OfDim(n.workers, DIMS[i])|;
    }
    forall d | d in KNOWN_DIMS ensures exists i :: 0 <= i < |DIMS| && DIMS[i] == d {
      assert DIMS[0] == TRANSCODE_CPU && DIMS[1] == TRANSCODE_GPU && DIMS[2] == HEALTH_CPU && DIMS[3] == HEALTH_GPU;
    }
  }

  lemma UnknownCountsRead(n: Node, x: Sample)
    ensures x in UnknownCountSeries(n) <==>
            exists j :: j in n.workers && TypeLabels(n.workers[j].workerType, n.workers[j].workerType, "unknown")
              && x == Sample(NodeWorkerCount, [n.id, n.name, n.workers[j].workerType, "unknown"],
                             |set k | k in n.workers && n.workers[k].workerType == n.workers[j].workerType| as real)
  {
    var m, f := UnknownCounts(n.workers), UnknownCountSample(n);
    CountsOfRawTypes(n.workers);
    MapSumMember(m, f, x);
    KnownIsNotUnknown();
    forall api | api in m
      ensures x in f(api, m[api]) <==>
              x == Sample(NodeWorkerCount, [n.id, n.name, api, "unknown"],
                          |set k | k in n.workers && n.workers[k].workerType == api| as real)
    {}
    forall j | j in n.workers
      ensures TypeLabels(n.workers[j].workerType, n.workers[j].workerType, "unknown") <==> n.workers[j].workerType in m
    {
      assert "unknown" == UNKNOWN;
    }
  }

  lemma WorkerHeadReads(n: Node, w: Worker, x: Sample)
    ensures x in WorkerHead(n, w) <==>
            || (exists t, c :: TypeLabels(w.workerType, t, c)
                  && x == Sample(WorkerInfo, [n.id, n.name, w.id, t, c, if w.flowWorker then "true" else "false", w.file,
                                              if w.connected then "true" else "false"], 1.0))
            || x == Sample(WorkerStatus, [n.id, n.name, w.id, w.status], 1.0)
  {
    var d := ParseWorkerType(w.workerType);
    ParseIsExact(w.workerType);
    assert TypeLabels(w.workerType, d.workerType, d.computeType);
    forall t, c | TypeLabels(w.workerType, t, c) ensures d == Dim(t, c) {}
  }

  lemma WorkerReads(n: Node, w: Worker, x: Sample)
    ensures x in WorkerSeries(n, w) <==> WorkerReading(n, w, x)
  {
    WorkerHeadReads(n, w, x);
    InFour(WorkerHead(n, w), PluginSeries(n, w), WorkerGauges(n, w), EtaSeries(n, w), x);
  }

  lemma WorkersRead(n: Node, x: Sample)
    ensures x in MapSum(n.workers, WorkerSamples(n)) <==> exists k :: k in n.workers && WorkerReading(n, n.workers[k], x)
  {
    MapSumMember(n.workers, WorkerSamples(n), x);
    forall k | k in n.workers ensures x in WorkerSamples(n)(k, n.workers[k]) <==> WorkerReading(n, n.workers[k], x) {
      BaggedMember(WorkerSeries(n, n.workers[k]), x);
      WorkerReads(n, n.workers[k], x);
    }
  }

  lemma NodeFixedReads(n: Node, x: Sample)
    ensures x in NodeFixed(n) <==>
            || StateReading(n, x)
            || JobsReading(NodeWorkerLimit, n, n.workerLimits, x)
            || JobsReading(NodeQueueLength, n, n.queueLengths, x)
            || x in KnownCountSeries(n)
  {
    StateReads(n, x);
    JobsRead(NodeWorkerLimit, n, n.workerLimits, x);
    JobsRead(NodeQueueLength, n, n.queueLengths, x);
    InFour(NodeHead(n) + ResourceSeries(n) + NodeState(n), PerTypeSeries(NodeWorkerLimit, n, n.workerLimits),
           PerTypeSeries(NodeQueueLength, n, n.queueLengths), KnownCountSeries(n), x);
  }

  /** One node's samples, field by field. */
  lemma NodeReads(n: Node, x: Sample)
    ensures x in NodeSeries(n) <==> NodeReading(n, x)
  {
    BaggedMember(NodeFixed(n), x);
    NodeFixedReads(n, x);
    KnownCountsRead(n, x);
    UnknownCountsRead(n, x);
    WorkersRead(n, x);
  }

  lemma NodesRead(nodes: map<string, Node>, x: Sample)
    ensures x in NodesSeries(nodes) <==> exists key :: key in nodes && NodeReading(nodes[key], x)
  {
    MapSumMember(nodes, NodeSamples(), x);
    forall key | key in nodes ensures x in NodeSamples()(key, nodes[key]) <==> NodeReading(nodes[key], x) {
      NodeReads(nodes[key], x);
    }
  }
}
