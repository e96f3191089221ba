/** Uniqueness of series for nodes, and for a whole scrape. */
module TraceUniqueness {
  import opened Models
  import opened Folds
  import opened StatusEnums
  import opened NodeCounts
  import opened Series
  import opened Sections
  import opened Uniqueness
  import opened ScrapeEngine
  import opened ScrapeInvariants
  import opened ScrapeTheorems

  // ----------------------------------------------------------------- nodes

  const WORKER_METRICS: set<Metric> :=
    {WorkerInfo, WorkerStatus, WorkerPlugin, WorkerIdle, WorkerRatio, WorkerFps, WorkerOriginalSize,
     WorkerOutputSize, WorkerEstSize, WorkerJobStart, WorkerStepStart, WorkerStatusTs, WorkerEta}
  const NODE_METRICS: set<Metric> :=
    {NodeInfo, NodeUptime, NodePaused, NodeMaxGpuWorkers, NodeScheduleEnabled, NodeHeapUsed, NodeHeapTotal,
     NodeHostCpu, NodeMemUsed, NodeMemTotal, NodeWorkerLimit, NodeQueueLength, NodeWorkerCount}

  lemma DimSamplesDiffer(m: Metric, n: Node, i: nat, j: nat, a: int, b: int)
    requires i < j < |DIMS|
    ensures KeyOf(DimSample(m, n, DIMS[i], a)) != KeyOf(DimSample(m, n, DIMS[j], b))
  {
    DimsAreDistinct();
    var x, y := DimSample(m, n, DIMS[i], a).labels, DimSample(m, n, DIMS[j], b).labels;
    assert DIMS[i] != DIMS[j];
    assert x[2] == DIMS[i].workerType && x[3] == DIMS[i].computeType;
    assert y[2] == DIMS[j].workerType && y[3] == DIMS[j].computeType;
  }

  lemma PerTypeDistinct(m: Metric, n: Node, jobs: NodeJobs)
    ensures DistinctKeys(PerTypeSeries(m, n, jobs))
  {
    var s := PerTypeSeries(m, n, jobs);
    forall i, j | 0 <= i < j < |s| ensures KeyOf(s[i]) != KeyOf(s[j]) {
      DimSamplesDiffer(m, n, i, j, JobCount(jobs, DIMS[i]), JobCount(jobs, DIMS[j]));
    }
  }

  lemma KnownCountsDistinct(n: Node)
    ensures DistinctKeys(KnownCountSeries(n))
  {
    var s := KnownCountSeries(n);
    forall i, j | 0 <= i < j < |s| ensures KeyOf(s[i]) != KeyOf(s[j]) {
      DimSamplesDiffer(NodeWorkerCount, n, i, j, |OfDim(n.workers, DIMS[i])|, |OfDim(n.workers, DIMS[j])|);
    }
  }

  lemma NodeHeadDistinct(n: Node)
    ensures DistinctKeys(NodeHead(n)) && DistinctKeys(NodeState(n)) && MetricsApart(NodeHead(n), NodeState(n))
  {}

  lemma ResourcesDistinct(n: Node)
    ensures DistinctKeys(ResourceSeries(n))
  {
    var r0, r1 := ParsedSeries(NodeHeapUsed, n.heapUsedMb, BYTES_PER_MB, n), ParsedSeries(NodeHeapTotal, n.heapTotalMb, BYTES_PER_MB, n);
    var r2, r3 := ParsedSeries(NodeHostCpu, n.cpuPercent, PERCENT_TO_RATIO, n), ParsedSeries(NodeMemUsed, n.memUsedGb, BYTES_PER_GB, n);
    var r4 := ParsedSeries(NodeMemTotal, n.memTotalGb, BYTES_PER_GB, n);
    FiveReadings(r0, r1, r2, r3, r4);
  }

  lemma FiveReadings(r0: seq<Sample>, r1: seq<Sample>, r2: seq<Sample>, r3: seq<Sample>, r4: seq<Sample>)
    requires |r0| <= 1 && |r1| <= 1 && |r2| <= 1 && |r3| <= 1 && |r4| <= 1
    requires SeqUses(r0, {NodeHeapUsed}) && SeqUses(r1, {NodeHeapTotal}) && SeqUses(r2, {NodeHostCpu})
    requires SeqUses(r3, {NodeMemUsed}) && SeqUses(r4, {NodeMemTotal})
    ensures DistinctKeys(r0 + r1 + r2 + r3 + r4)
  {
    ConcatByMetrics(r0, r1, {NodeHeapUsed}, {NodeHeapTotal});
    ConcatByMetrics(r0 + r1, r2, {NodeHeapUsed} + {NodeHeapTotal}, {NodeHostCpu});
    ConcatByMetrics(r0 + r1 + r2, r3, {NodeHeapUsed} + {NodeHeapTotal} + {NodeHostCpu}, {NodeMemUsed});
    ConcatByMetrics(r0 + r1 + r2 + r3, r4, {NodeHeapUsed} + {NodeHeapTotal} + {NodeHostCpu} + {NodeMemUsed}, {NodeMemTotal});
  }

  const RESOURCE_METRICS: set<Metric> := {NodeHeapUsed, NodeHeapTotal, NodeHostCpu, NodeMemUsed, NodeMemTotal}

  lemma FixedUse(n: Node)
    ensures SeqUses(NodeHead(n), {NodeInfo, NodeUptime}) && SeqUses(ResourceSeries(n), RESOURCE_METRICS)
    ensures SeqUses(NodeState(n), {NodePaused, NodeMaxGpuWorkers, NodeScheduleEnabled})
  {}

  lemma PerTypeUse(m: Metric, n: Node, jobs: NodeJobs)
    ensures SeqUses(PerTypeSeries(m, n, jobs), {m}) && SeqUses(KnownCountSeries(n), {NodeWorkerCount})
  {}

  lemma ConcatByMetrics(a: seq<Sample>, b: seq<Sample>, ma: set<Metric>, mb: set<Metric>)
    requires DistinctKeys(a) && DistinctKeys(b) && SeqUses(a, ma) && SeqUses(b, mb) && ma !! mb
    ensures DistinctKeys(a + b) && SeqUses(a + b, ma + mb)
  {}

  lemma NodeFixedUnique(n: Node)
    ensures DistinctKeys(NodeFixed(n)) && SeqUses(NodeFixed(n), NODE_METRICS)
  {
    var head, res, state := NodeHead(n), ResourceSeries(n), NodeState(n);
    var limits, queues := PerTypeSeries(NodeWorkerLimit, n, n.workerLimits), PerTypeSeries(NodeQueueLength, n, n.queueLengths);
    NodeHeadDistinct(n);
    ResourcesDistinct(n);
    FixedUse(n);
    PerTypeDistinct(NodeWorkerLimit, n, n.workerLimits);
    PerTypeDistinct(NodeQueueLength, n, n.queueLengths);
    KnownCountsDistinct(n);
    PerTypeUse(NodeWorkerLimit, n, n.workerLimits);
    PerTypeUse(NodeQueueLength, n, n.queueLengths);
    SixParts(head, res, state, limits, queues, KnownCountSeries(n));
  }

  lemma SixParts(head: seq<Sample>, res: seq<Sample>, state: seq<Sample>,
                 limits: seq<Sample>, queues: seq<Sample>, counts: seq<Sample>)
    requires DistinctKeys(head) && DistinctKeys(res) && DistinctKeys(state)
    requires DistinctKeys(limits) && DistinctKeys(queues) && DistinctKeys(counts)
    requires SeqUses(head, {NodeInfo, NodeUptime}) && SeqUses(res, RESOURCE_METRICS)
    requires SeqUses(state, {NodePaused, NodeMaxGpuWorkers, NodeScheduleEnabled})
    requires SeqUses(limits, {NodeWorkerLimit}) && SeqUses(queues, {NodeQueueLength}) && SeqUses(counts, {NodeWorkerCount})
    ensures DistinctKeys(head + res + state + limits + queues + counts)
    ensures SeqUses(head + res + state + limits + queues + counts, NODE_METRICS)
  {
    var m0: set<Metric> := {NodeInfo, NodeUptime};
    var m1 := m0 + RESOURCE_METRICS;
    var m2 := m1 + {NodePaused, NodeMaxGpuWorkers, NodeScheduleEnabled};
    var m3 := m2 + {NodeWorkerLimit};
    var m4 := m3 + {NodeQueueLength};
    ConcatByMetrics(head, res, m0, RESOURCE_METRICS);
    ConcatByMetrics(head + res, state, m1, {NodePaused, NodeMaxGpuWorkers, NodeScheduleEnabled});
    ConcatByMetrics(head + res + state, limits, m2, {NodeWorkerLimit});
    ConcatByMetrics(head + res + state + limits, queues, m3, {NodeQueueLength});
    ConcatByMetrics(head + res + state + limits + queues, counts, m4, {NodeWorkerCount});
    assert m4 + {NodeWorkerCount} == NODE_METRICS;
  }

  /** A known kind never carries the compute type of an unknown one. */
  lemma KnownIsNotUnknown(n: Node, x: Sample, y: Sample)
    requires x in Bagged(NodeFixed(n)) && y in UnknownCountSeries(n)
    ensures KeyOf(x) != KeyOf(y)
  {
    MapSumMember(UnknownCounts(n.workers), UnknownCountSample(n), y);
    BaggedMember(NodeFixed(n), x);
    if x.metric == NodeWorkerCount {
      CountsAreKnown(n, x);
      assert y.labels[3] == UNKNOWN;
    }
  }

  lemma CountsAreKnown(n: Node, x: Sample)
    requires x in NodeFixed(n) && x.metric == NodeWorkerCount
    ensures |x.labels| == 4 && x.labels[3] != UNKNOWN
  {
    NodeBeforeCountsUse(n);
    var k :| 0 <= k < |NodeFixed(n)| && NodeFixed(n)[k] == x;
    assert NodeFixed(n) == NodeBeforeCounts(n) + KnownCountSeries(n);
    assert k >= |NodeBeforeCounts(n)|;
    var j := k - |NodeBeforeCounts(n)|;
    assert x == KnownCountSeries(n)[j];
    ComputeTypeKnown(j);
  }

  lemma NodeBeforeCountsUse(n: Node)
    ensures forall k :: 0 <= k < |NodeBeforeCounts(n)| ==> NodeBeforeCounts(n)[k].metric != NodeWorkerCount
  {
    FixedUse(n);
    PerTypeUse(NodeWorkerLimit, n, n.workerLimits);
    PerTypeUse(NodeQueueLength, n, n.queueLengths);
  }

  lemma ComputeTypeKnown(j: nat)
    requires j < |DIMS|
    ensures DIMS[j].computeType != UNKNOWN
  {
    assert "cpu"[0] != UNKNOWN[0] && "gpu"[0] != UNKNOWN[0];
  }

  lemma UnknownCountsUnique(n: Node)
    ensures Unique(UnknownCountSeries(n)) && Uses(UnknownCountSeries(n), {NodeWorkerCount})
  {
    var f, m := UnknownCountSample(n), UnknownCounts(n.workers);
    forall j, k | j in m && k in m && j != k ensures Apart(f(j, m[j]), f(k, m[k])) {
      assert [n.id, n.name, j, UNKNOWN][2] != [n.id, n.name, k, UNKNOWN][2];
    }
    MapSumUnique(m, f);
    forall x | x in UnknownCountSeries(n) ensures x.metric == NodeWorkerCount { MapSumMember(m, f, x); }
  }

  lemma WorkerDistinct(n: Node, w: Worker)
    ensures DistinctKeys(WorkerSeries(n, w)) && SeqUses(WorkerSeries(n, w), WORKER_METRICS)
  {
    var head, plugin, gauges, eta := WorkerHead(n, w), PluginSeries(n, w), WorkerGauges(n, w), EtaSeries(n, w);
    WorkerPartsDistinct(n, w);
    var m0: set<Metric> := {WorkerInfo, WorkerStatus};
    var m2: set<Metric> := {WorkerIdle, WorkerRatio, WorkerFps, WorkerOriginalSize, WorkerOutputSize, WorkerEstSize,
                            WorkerJobStart, WorkerStepStart, WorkerStatusTs};
    ConcatByMetrics(head, plugin, m0, {WorkerPlugin});
    ConcatByMetrics(head + plugin, gauges, m0 + {WorkerPlugin}, m2);
    ConcatByMetrics(head + plugin + gauges, eta, m0 + {WorkerPlugin} + m2, {WorkerEta});
    assert m0 + {WorkerPlugin} + m2 + {WorkerEta} == WORKER_METRICS;
  }

  lemma WorkerPartsDistinct(n: Node, w: Worker)
    ensures DistinctKeys(WorkerHead(n, w)) && DistinctKeys(PluginSeries(n, w))
    ensures DistinctKeys(WorkerGauges(n, w)) && DistinctKeys(EtaSeries(n, w))
    ensures SeqUses(WorkerHead(n, w), {WorkerInfo, WorkerStatus}) && SeqUses(PluginSeries(n, w), {WorkerPlugin})
    ensures SeqUses(WorkerGauges(n, w), {WorkerIdle, WorkerRatio, WorkerFps, WorkerOriginalSize, WorkerOutputSize,
                                         WorkerEstSize, WorkerJobStart, WorkerStepStart, WorkerStatusTs})
    ensures SeqUses(EtaSeries(n, w), {WorkerEta})
  {}

  /** Every sample of a worker names it in its third label. */
  ghost predicate ByWorker(bag: multiset<Sample>, id: string) {
    forall x :: x in bag ==> |x.labels| > 2 && x.labels[2] == id
  }

  lemma WorkerLabels(n: Node, w: Worker)
    ensures ByWorker(Bagged(WorkerSeries(n, w)), w.id)
  {
    forall x | x in Bagged(WorkerSeries(n, w)) ensures |x.labels| > 2 && x.labels[2] == w.id {
      BaggedMember(WorkerSeries(n, w), x);
    }
  }

  ghost predicate DistinctWorkers(n: Node) {
    forall j, k :: j in n.workers && k in n.workers && j != k ==> n.workers[j].id != n.workers[k].id
  }

  lemma WorkersUnique(n: Node)
    requires DistinctWorkers(n)
    ensures Unique(MapSum(n.workers, WorkerSamples(n)))
    ensures Uses(MapSum(n.workers, WorkerSamples(n)), WORKER_METRICS)
  {
    var f := WorkerSamples(n);
    forall k | k in n.workers ensures Unique(f(k, n.workers[k])) && Uses(f(k, n.workers[k]), WORKER_METRICS) {
      WorkerDistinct(n, n.workers[k]);
      DistinctIsUnique(WorkerSeries(n, n.workers[k]));
      BatchUses(WorkerSeries(n, n.workers[k]), WORKER_METRICS);
    }
    forall j, k | j in n.workers && k in n.workers && j != k ensures Apart(f(j, n.workers[j]), f(k, n.workers[k])) {
      TwoWorkersApart(n, n.workers[j], n.workers[k]);
    }
    MapSumUnique(n.workers, f);
    forall x: Sample | x in MapSum(n.workers, f) ensures x.metric in WORKER_METRICS { MapSumMember(n.workers, f, x); }
  }

  lemma TwoWorkersApart(n: Node, v: Worker, w: Worker)
    requires v.id != w.id
    ensures Apart(Bagged(WorkerSeries(n, v)), Bagged(WorkerSeries(n, w)))
  {
    WorkerLabels(n, v);
    WorkerLabels(n, w);
    forall x, y | x in Bagged(WorkerSeries(n, v)) && y in Bagged(WorkerSeries(n, w)) ensures KeyOf(x) != KeyOf(y) {
      assert x.labels[2] != y.labels[2];
    }
  }

  lemma NodeUnique(n: Node)
    requires DistinctWorkers(n)
    ensures Unique(NodeSeries(n))
  {
    var fixed, unknown, workers := Bagged(NodeFixed(n)), UnknownCountSeries(n), MapSum(n.workers, WorkerSamples(n));
    NodeFixedUnique(n);
    DistinctIsUnique(NodeFixed(n));
    BatchUses(NodeFixed(n), NODE_METRICS);
    UnknownCountsUnique(n);
    WorkersUnique(n);
    CountsApart(n);
    ThreeUnique(fixed, unknown, workers);
  }

  lemma CountsApart(n: Node)
    ensures Apart(Bagged(NodeFixed(n)), UnknownCountSeries(n))
  {
    forall x, y | x in Bagged(NodeFixed(n)) && y in UnknownCountSeries(n) ensures KeyOf(x) != KeyOf(y) {
      KnownIsNotUnknown(n, x, y);
    }
  }

  lemma ThreeUnique(fixed: multiset<Sample>, unknown: multiset<Sample>, workers: multiset<Sample>)
    requires Unique(fixed) && Unique(unknown) && Unique(workers) && Apart(fixed, unknown)
    requires Uses(fixed, NODE_METRICS) && Uses(unknown, {NodeWorkerCount}) && Uses(workers, WORKER_METRICS)
    ensures Unique(fixed + unknown + workers)
  {
    UniqueUnion(fixed, unknown);
    UsesUnion(fixed, unknown, NODE_METRICS, {NodeWorkerCount});
    DifferentMetrics(fixed + unknown, workers, NODE_METRICS + {NodeWorkerCount}, WORKER_METRICS);
    UniqueUnion(fixed + unknown, workers);
  }

  lemma NodeOwned(n: Node)
    ensures Owned(NodeSeries(n), n.id)
  {
    NodeFixedOwned(n);
    forall x | x in UnknownCountSeries(n) ensures |x.labels| > 0 && x.labels[0] == n.id {
      MapSumMember(UnknownCounts(n.workers), UnknownCountSample(n), x);
    }
    WorkersOwned(n);
    OwnedUnion(Bagged(NodeFixed(n)), UnknownCountSeries(n), n.id);
    OwnedUnion(Bagged(NodeFixed(n)) + UnknownCountSeries(n), MapSum(n.workers, WorkerSamples(n)), n.id);
  }

  lemma ReadingsOwned(n: Node)
    ensures SeqOwned(ResourceSeries(n), n.id)
  {}

  lemma StateOwned(n: Node)
    ensures SeqOwned(NodeHead(n) + ResourceSeries(n) + NodeState(n), n.id)
  {
    ReadingsOwned(n);
    assert SeqOwned(NodeHead(n), n.id) && SeqOwned(NodeState(n), n.id);
  }

  lemma NodeFixedOwned(n: Node)
    ensures Owned(Bagged(NodeFixed(n)), n.id)
  {
    StateOwned(n);
    assert SeqOwned(PerTypeSeries(NodeWorkerLimit, n, n.workerLimits), n.id);
    assert SeqOwned(PerTypeSeries(NodeQueueLength, n, n.queueLengths), n.id);
    assert SeqOwned(KnownCountSeries(n), n.id);
    BatchOwned(NodeFixed(n), n.id);
  }

  lemma WorkersOwned(n: Node)
    ensures Owned(MapSum(n.workers, WorkerSamples(n)), n.id)
  {
    forall x | x in MapSum(n.workers, WorkerSamples(n)) ensures |x.labels| > 0 && x.labels[0] == n.id {
      MapSumMember(n.workers, WorkerSamples(n), x);
      var k :| k in n.workers && x in WorkerSamples(n)(k, n.workers[k]);
      WorkerOwned(n, n.workers[k]);
    }
  }

  lemma WorkerOwned(n: Node, w: Worker)
    ensures Owned(Bagged(WorkerSeries(n, w)), n.id)
  {
    BatchOwned(WorkerSeries(n, w), n.id);
  }

  ghost predicate DistinctNodes(nodes: map<string, Node>) {
    && (forall k :: k in nodes ==> DistinctWorkers(nodes[k]))
    && (forall j, k :: j in nodes && k in nodes && j != k ==> nodes[j].id != nodes[k].id)
  }

  lemma NodesUnique(nodes: map<string, Node>)
    requires DistinctNodes(nodes)
    ensures Unique(NodesSeries(nodes))
  {
    var f := NodeSamples();
    forall k | k in nodes ensures Unique(f(k, nodes[k])) { NodeUnique(nodes[k]); }
    forall j, k | j in nodes && k in nodes && j != k ensures Apart(f(j, nodes[j]), f(k, nodes[k])) {
      NodeOwned(nodes[j]);
      NodeOwned(nodes[k]);
      DifferentOwners(f(j, nodes[j]), f(k, nodes[k]), nodes[j].id, nodes[k].id);
    }
    MapSumUnique(nodes, f);
  }

  // ---------------------------------------------------------- other groups

  lemma ServerUnique(st: ServerStatus)
    ensures Unique(Bagged(ServerSeries(st)))
  {
    DistinctIsUnique(ServerSeries(st));
  }

  lemma StreamDistinct(m: Metric, s: StreamStat)
    ensures DistinctKeys(StreamSeries(m, s)) && SeqUses(StreamSeries(m, s), {m})
  {
    assert ["average"][0][0] == 'a' && ["highest"][0][0] == 'h' && ["total"][0][0] == 't';
  }

  const GENERAL_METRICS: set<Metric> :=
    {Files, TranscodesCompleted, HealthChecksCompleted, SizeDiff, Score, HealthScore, AvgNumStreams}

  lemma GeneralHeadDistinct(m: GeneralStats, score: real, healthScore: real)
    ensures DistinctKeys(GeneralHead(m, score, healthScore))
    ensures SeqUses(GeneralHead(m, score, healthScore), GENERAL_METRICS)
  {}

  lemma GeneralUnique(m: GeneralStats, score: real, healthScore: real)
    ensures Unique(Bagged(GeneralSeries(m, score, healthScore)))
  {
    var head := GeneralHead(m, score, healthScore);
    var d, b, f := StreamSeries(StreamDuration, m.duration), StreamSeries(StreamBitRate, m.bitRate), StreamSeries(StreamFrames, m.numFrames);
    GeneralHeadDistinct(m, score, healthScore);
    StreamDistinct(StreamDuration, m.duration);
    StreamDistinct(StreamBitRate, m.bitRate);
    StreamDistinct(StreamFrames, m.numFrames);
    ConcatByMetrics(head, d, GENERAL_METRICS, {StreamDuration});
    ConcatByMetrics(head + d, b, GENERAL_METRICS + {StreamDuration}, {StreamBitRate});
    ConcatByMetrics(head + d + b, f, GENERAL_METRICS + {StreamDuration} + {StreamBitRate}, {StreamFrames});
    DistinctIsUnique(GeneralSeries(m, score, healthScore));
  }

  lemma DriftUnique(counts: multiset<StatusKey>)
    ensures Unique(DriftSeries(counts))
  {
    var m, f := CountsByKey(counts), DriftSamples();
    forall j, k | j in m && k in m && j != k ensures Apart(f(j, m[j]), f(k, m[k])) {
      assert [j.kind, j.status][0] == j.kind && [j.kind, j.status][1] == j.status;
      assert [k.kind, k.status][0] == k.kind && [k.kind, k.status][1] == k.status;
    }
    MapSumUnique(m, f);
  }

  // ------------------------------------------------------------ whole scrape

  ghost predicate DistinctIds(libs: seq<Library>) {
    forall i, j :: 0 <= i < j < |libs| ==> libs[i].id != libs[j].id
  }

  lemma {:induction false} OnceEach(libs: seq<Library>, x: Library)
    requires DistinctIds(libs)
    ensures multiset(libs)[x] <= 1
  {
    if libs != [] {
      OnceEach(libs[1..], x);
      assert libs == [libs[0]] + libs[1..];
      forall k | 0 <= k < |libs[1..]| ensures libs[1..][k] != libs[0] {
        assert libs[0].id != libs[k + 1].id;
      }
    }
  }

  /** Pies of a list with distinct ids have distinct ids, dropped ones or not. */
  lemma PiesOfDistinct(libs: seq<Library>, pies: seq<Pie>, dropped: multiset<Library>)
    requires DistinctIds(libs) && multiset(libs) == multiset(Image(LibraryOf, pies)) + dropped
    ensures DistinctPies(pies)
  {
    var own := Image(LibraryOf, pies);
    forall i, j | 0 <= i < j < |pies| ensures pies[i].libraryId != pies[j].libraryId {
      var a, b := LibraryOf(pies[i]), LibraryOf(pies[j]);
      assert own[i] in multiset(own) && own[j] in multiset(own);
      assert a in multiset(libs) && b in multiset(libs);
      if a == b {
        TwiceIn(own, i, j);
        OnceEach(libs, a);
      } else {
        var k :| 0 <= k < |libs| && libs[k] == a;
        var l :| 0 <= l < |libs| && libs[l] == b;
        assert k != l;
      }
    }
  }

  lemma TwiceIn(s: seq<Library>, i: nat, j: nat)
    requires i < j < |s| && s[i] == s[j]
    ensures multiset(s)[s[i]] >= 2
  {
    BaggedIsMultiset(s);
    CountTwice(s, i, j);
  }

  ghost predicate DistinctSections(groups: seq<Group>) {
    && (forall i, j :: 0 <= i < j < |groups| ==> groups[i].section != groups[j].section)
    && (forall k :: 0 <= k < |groups| ==> SeqIn(groups[k].section, groups[k].samples))
  }

  lemma FlatMember(groups: seq<Group>, x: Sample) returns (k: nat)
    requires x in Flat(groups)
    ensures k < |groups| && x in groups[k].samples
  {
    if x in groups[0].samples {
      k := 0;
    } else {
      k := FlatMember(groups[1..], x);
      k := k + 1;
    }
  }

  lemma {:induction false} FlatUnique(groups: seq<Group>)
    requires DistinctSections(groups)
    requires forall k :: 0 <= k < |groups| ==> Unique(Bagged(groups[k].samples))
    ensures Unique(Bagged(Flat(groups)))
  {
    if groups != [] {
      FlatUnique(groups[1..]);
      BaggedConcat(groups[0].samples, Flat(groups[1..]));
      FirstApart(groups);
      UniqueUnion(Bagged(groups[0].samples), Bagged(Flat(groups[1..])));
    }
  }

  lemma FirstApart(groups: seq<Group>)
    requires groups != [] && DistinctSections(groups)
    ensures Apart(Bagged(groups[0].samples), Bagged(Flat(groups[1..])))
  {
    forall x, y | x in Bagged(groups[0].samples) && y in Bagged(Flat(groups[1..])) ensures KeyOf(x) != KeyOf(y) {
      BaggedMember(groups[0].samples, x);
      BaggedMember(Flat(groups[1..]), y);
      var k := FlatMember(groups[1..], y);
      assert groups[1..][k] == groups[k + 1];
      assert SectionOf(x.metric) == groups[0].section && SectionOf(y.metric) == groups[k + 1].section;
    }
  }

  /** What has to be distinct upstream for a scrape's series to be distinct. */
  ghost predicate DistinctInputs(s: Scrape) {
    && DistinctIds(s.libs) && DistinctNodes(s.nodes)
    && forall p :: p in PiesOf(s.stats) ==> DistinctSlices(p)
  }

  /** If library ids, node ids, worker ids per node and lower-cased slice names per
      list are distinct, no two samples of a scrape share metric and labels,
      whatever unknown statuses and worker kinds there are. */
  lemma SeriesAreUnique(e: Env, g: Global, i: nat)
    requires Reachable(e, g) && e.maxConcurrency >= 1 && i < |g.scrapes| && g.scrapes[i].phase.Done?
    requires DistinctInputs(g.scrapes[i])
    ensures g.scrapes[i].up.Some?
    ensures var sent := Trace(g.scrapes[i]);
            forall a, b :: 0 <= a < b < |sent| ==> sent[a].metric != sent[b].metric || sent[a].labels != sent[b].labels
  {
    ReachableInv(e, g);
    var s := g.scrapes[i];
    assert ScrapeInv(e, g.sweeps, s);
    forall k | 0 <= k < |s.groups| ensures Unique(Bagged(s.groups[k].samples)) { GroupUnique(e, s, k); }
    SectionsDiffer(s);
    FlatUnique(s.groups);
    UpIsLast(s);
    TraceUnique(s);
    var sent := Trace(s);
    forall a, b | 0 <= a < b < |sent| ensures sent[a].metric != sent[b].metric || sent[a].labels != sent[b].labels {
      assert KeyOf(sent[a]) != KeyOf(sent[b]);
    }
  }

  lemma GroupUnique(e: Env, s: Scrape, k: nat)
    requires Knowledge(e, s) && Emitted(s) && Contents(s) && k < |s.groups| && s.phase.Done? && DistinctInputs(s)
    ensures Unique(Bagged(s.groups[k].samples))
  {
    if k == 0 { ServerUnique(s.status.value); }
    else if k == 1 { GeneralUnique(s.metric.value, s.metric.value.score.value, s.metric.value.healthScore.value); }
    else if k == 2 {
      PiesOfDistinct(s.libs, PiesOf(s.stats), s.dropped);
      PiesUnique(PiesOf(s.stats));
    }
    else if k == 3 { DriftUnique(s.countsSent); }
    else { NodesUnique(s.nodes); }
  }

  lemma SectionsDiffer(s: Scrape)
    requires Emitted(s)
    ensures DistinctSections(s.groups)
  {
    forall i, j | 0 <= i < j < |s.groups| ensures s.groups[i].section != s.groups[j].section {
      assert SECTIONS[i] != SECTIONS[j];
    }
  }

  lemma TraceUnique(s: Scrape)
    requires s.up.Some? && Unique(Bagged(Flat(s.groups)))
    requires forall k :: 0 <= k < |Trace(s)| ==> (Trace(s)[k].metric == Up <==> k == |Trace(s)| - 1)
    ensures DistinctKeys(Trace(s))
  {
    UniqueIsDistinct(Flat(s.groups));
    var t := Trace(s);
    forall i, j | 0 <= i < j < |t| ensures KeyOf(t[i]) != KeyOf(t[j]) {
      if j == |t| - 1 { assert t[i].metric != Up; }
    }
  }
}
