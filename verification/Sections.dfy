/** Every sample of a group carries a metric of that group. */
module Sections {
  import opened Models
  import opened Folds
  import opened StatusEnums
  import opened NodeCounts
  import opened Series

  ghost predicate BagIn(section: Section, bag: multiset<Sample>) {
    forall x :: x in bag ==> SectionOf(x.metric) == section
  }

  ghost predicate SeqIn(section: Section, samples: seq<Sample>) {
    forall k :: 0 <= k < |samples| ==> SectionOf(samples[k].metric) == section
  }

  lemma {:induction false} BaggedMember<T>(s: seq<T>, x: T)
    ensures x in Bagged(s) <==> x in s
  {
    if s != [] {
      BaggedMember(s[1..], x);
      assert x in s <==> x == s[0] || x in s[1..];
    }
  }

  /** A batch whose bag lies in a section lies in it sample by sample. */
  lemma BatchIn(section: Section, samples: seq<Sample>)
    ensures BagIn(section, Bagged(samples)) <==> SeqIn(section, samples)
  {
    forall x ensures x in Bagged(samples) <==> x in samples { BaggedMember(samples, x); }
    if BagIn(section, Bagged(samples)) {
      forall k | 0 <= k < |samples| ensures SectionOf(samples[k].metric) == section {
        assert samples[k] in Bagged(samples);
      }
    }
  }

  lemma MapSumIn<K, V>(section: Section, m: map<K, V>, f: (K, V) -> multiset<Sample>)
    requires forall k :: k in m ==> BagIn(section, f(k, m[k]))
    ensures BagIn(section, MapSum(m, f))
  {
    forall x | x in MapSum(m, f) ensures SectionOf(x.metric) == section {
      MapSumMember(m, f, x);
    }
  }

  lemma ServerIn(st: ServerStatus)
    ensures SeqIn(ServerSection, ServerSeries(st))
  {}

  lemma GeneralIn(m: GeneralStats, score: real, healthScore: real)
    ensures SeqIn(GeneralSection, GeneralSeries(m, score, healthScore))
  {}

  lemma UnionIn(section: Section, a: multiset<Sample>, b: multiset<Sample>)
    requires BagIn(section, a) && BagIn(section, b)
    ensures BagIn(section, a + b)
  {}

  lemma JoinIn(section: Section, a: seq<Sample>, b: seq<Sample>)
    requires SeqIn(section, a) && SeqIn(section, b)
    ensures SeqIn(section, a + b)
  {}

  lemma PieHeadIn(p: Pie)
    ensures BagIn(LibrarySection, Bagged(PieHead(p)))
  {
    BatchIn(LibrarySection, PieHead(p));
  }

  lemma MediaIn(p: Pie)
    ensures BagIn(LibrarySection, Bagged(MediaSeries(p)))
  {
    var v, u := SliceSeries(VideoCodecs, p.libraryId, p.stat.video.codecs), SliceSeries(VideoContainers, p.libraryId, p.stat.video.containers);
    var w, x := SliceSeries(VideoResolutions, p.libraryId, p.stat.video.resolutions), SliceSeries(AudioCodecs, p.libraryId, p.stat.audio.codecs);
    JoinIn(LibrarySection, v, u);
    JoinIn(LibrarySection, v + u, w);
    JoinIn(LibrarySection, v + u + w, x);
    JoinIn(LibrarySection, v + u + w + x, SliceSeries(AudioContainers, p.libraryId, p.stat.audio.containers));
    BatchIn(LibrarySection, MediaSeries(p));
  }

  lemma StatusesIn(m: Metric, id: string, counts: map<string, int>)
    requires SectionOf(m) == LibrarySection
    ensures BagIn(LibrarySection, StatusSeries(m, id, counts))
  {
    MapSumIn(LibrarySection, counts, StatusSample(m, id));
  }

  lemma PieIn(p: Pie)
    ensures BagIn(LibrarySection, PieSeries(p))
  {
    PieHeadIn(p);
    MediaIn(p);
    var t := StatusSeries(LibraryTranscodes, p.libraryId, p.transcodes);
    var h := StatusSeries(LibraryHealthChecks, p.libraryId, p.healthChecks);
    StatusesIn(LibraryTranscodes, p.libraryId, p.transcodes);
    StatusesIn(LibraryHealthChecks, p.libraryId, p.healthChecks);
    UnionIn(LibrarySection, Bagged(PieHead(p)), t);
    UnionIn(LibrarySection, Bagged(PieHead(p)) + t, h);
    UnionIn(LibrarySection, Bagged(PieHead(p)) + t + h, Bagged(MediaSeries(p)));
  }

  lemma PiesIn(pies: seq<Pie>)
    ensures BagIn(LibrarySection, PiesSeries(pies))
  {
    forall x | x in PiesSeries(pies) ensures SectionOf(x.metric) == LibrarySection {
      SeqSumMember(pies, PieSamples(), x);
      var p :| p in pies && x in PieSamples()(p);
      PieIn(p);
    }
  }

  lemma DriftIn(counts: multiset<StatusKey>)
    ensures BagIn(DriftSection, DriftSeries(counts))
  {
    MapSumIn(DriftSection, CountsByKey(counts), DriftSamples());
  }

  lemma NodeGaugesIn(n: Node)
    ensures SeqIn(NodeSection, NodeHead(n)) && SeqIn(NodeSection, ResourceSeries(n)) && SeqIn(NodeSection, NodeState(n))
  {
    ReadingsIn(n);
  }

  lemma ReadingIn(m: Metric, raw: Option<real>, scale: real, n: Node)
    requires SectionOf(m) == NodeSection
    ensures SeqIn(NodeSection, ParsedSeries(m, raw, scale, n))
  {}

  lemma ReadingsIn(n: Node)
    ensures SeqIn(NodeSection, ResourceSeries(n))
  {
    var r0, r1 := ParsedSeries(NodeHeapUsed, n.heapUsedMb, BYTES_PER_MB, n), ParsedSeries(NodeHeapTotal, n.heapTotalMb, BYTES_PER_MB, n);
    var r2, r3 := ParsedSeries(NodeHostCpu, n.cpuPercent, PERCENT_TO_RATIO, n), ParsedSeries(NodeMemUsed, n.memUsedGb, BYTES_PER_GB, n);
    ReadingIn(NodeHeapUsed, n.heapUsedMb, BYTES_PER_MB, n);
    ReadingIn(NodeHeapTotal, n.heapTotalMb, BYTES_PER_MB, n);
    ReadingIn(NodeHostCpu, n.cpuPercent, PERCENT_TO_RATIO, n);
    ReadingIn(NodeMemUsed, n.memUsedGb, BYTES_PER_GB, n);
    ReadingIn(NodeMemTotal, n.memTotalGb, BYTES_PER_GB, n);
    JoinIn(NodeSection, r0, r1);
    JoinIn(NodeSection, r0 + r1, r2);
    JoinIn(NodeSection, r0 + r1 + r2, r3);
    JoinIn(NodeSection, r0 + r1 + r2 + r3, ParsedSeries(NodeMemTotal, n.memTotalGb, BYTES_PER_GB, n));
  }

  lemma PerTypeIn(m: Metric, n: Node, jobs: NodeJobs)
    requires SectionOf(m) == NodeSection
    ensures SeqIn(NodeSection, PerTypeSeries(m, n, jobs))
  {}

  lemma KnownCountsIn(n: Node)
    ensures SeqIn(NodeSection, KnownCountSeries(n))
  {}

  lemma NodeFixedIn(n: Node)
    ensures BagIn(NodeSection, Bagged(NodeFixed(n)))
  {
    NodeGaugesIn(n);
    JoinIn(NodeSection, NodeHead(n), ResourceSeries(n));
    JoinIn(NodeSection, NodeHead(n) + ResourceSeries(n), NodeState(n));
    var gauges := NodeHead(n) + ResourceSeries(n) + NodeState(n);
    var limits, queues := PerTypeSeries(NodeWorkerLimit, n, n.workerLimits), PerTypeSeries(NodeQueueLength, n, n.queueLengths);
    PerTypeIn(NodeWorkerLimit, n, n.workerLimits);
    PerTypeIn(NodeQueueLength, n, n.queueLengths);
    KnownCountsIn(n);
    JoinIn(NodeSection, gauges, limits);
    JoinIn(NodeSection, gauges + limits, queues);
    JoinIn(NodeSection, gauges + limits + queues, KnownCountSeries(n));
    BatchIn(NodeSection, NodeFixed(n));
  }

  lemma UnknownCountsIn(n: Node)
    ensures BagIn(NodeSection, UnknownCountSeries(n))
  {
    var counts, f := UnknownCounts(n.workers), UnknownCountSample(n);
    forall k, v ensures BagIn(NodeSection, f(k, v)) {}
    MapSumIn(NodeSection, counts, f);
  }

  lemma WorkerPartsIn(n: Node, w: Worker)
    ensures SeqIn(NodeSection, WorkerHead(n, w)) && SeqIn(NodeSection, PluginSeries(n, w))
    ensures SeqIn(NodeSection, WorkerGauges(n, w)) && SeqIn(NodeSection, EtaSeries(n, w))
  {
    WorkerGaugesIn(n, w);
  }

  lemma WorkerGaugesIn(n: Node, w: Worker)
    ensures SeqIn(NodeSection, WorkerGauges(n, w))
  {}

  lemma WorkerIn(n: Node, w: Worker)
    ensures BagIn(NodeSection, Bagged(WorkerSeries(n, w)))
  {
    WorkerPartsIn(n, w);
    JoinIn(NodeSection, WorkerHead(n, w), PluginSeries(n, w));
    JoinIn(NodeSection, WorkerHead(n, w) + PluginSeries(n, w), WorkerGauges(n, w));
    JoinIn(NodeSection, WorkerHead(n, w) + PluginSeries(n, w) + WorkerGauges(n, w), EtaSeries(n, w));
    BatchIn(NodeSection, WorkerSeries(n, w));
  }

  lemma WorkersIn(n: Node)
    ensures BagIn(NodeSection, MapSum(n.workers, WorkerSamples(n)))
  {
    forall k | k in n.workers ensures BagIn(NodeSection, WorkerSamples(n)(k, n.workers[k])) {
      WorkerIn(n, n.workers[k]);
    }
    MapSumIn(NodeSection, n.workers, WorkerSamples(n));
  }

  lemma NodeIn(n: Node)
    ensures BagIn(NodeSection, NodeSeries(n))
  {
    NodeFixedIn(n);
    UnknownCountsIn(n);
    WorkersIn(n);
    UnionIn(NodeSection, Bagged(NodeFixed(n)), UnknownCountSeries(n));
    UnionIn(NodeSection, Bagged(NodeFixed(n)) + UnknownCountSeries(n), MapSum(n.workers, WorkerSamples(n)));
  }

  lemma NodesIn(nodes: map<string, Node>)
    ensures BagIn(NodeSection, NodesSeries(nodes))
  {
    forall k | k in nodes ensures BagIn(NodeSection, NodeSamples()(k, nodes[k])) {
      NodeIn(nodes[k]);
    }
    MapSumIn(NodeSection, nodes, NodeSamples());
  }
}
