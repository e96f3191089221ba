/** What the collector promises, over every run of overlapping scrapes. */
module ScrapeTheorems {
  import opened Models
  import opened Folds
  import opened StatusEnums
  import opened Fingerprint
  import opened Series
  import opened Sections
  import WorkerPool
  import WorkerPoolTheorems
  import opened ScrapeEngine
  import opened ScrapeInvariants

  // ------------------------------------------------------------ scrape trace

  function Flat(groups: seq<Group>): seq<Sample> {
    if groups == [] then [] else groups[0].samples + Flat(groups[1..])
  }

  function UpSample(v: real): Sample {
    Sample(Up, [], v)
  }

  /** Everything a finished scrape sent, in order. */
  function Trace(s: Scrape): seq<Sample>
    requires s.up.Some?
  {
    Flat(s.groups) + [UpSample(s.up.value)]
  }

  lemma {:induction false} FlatHasNoUp(groups: seq<Group>)
    requires forall k :: 0 <= k < |groups| ==>
               groups[k].section != UpSection && SeqIn(groups[k].section, groups[k].samples)
    ensures forall x :: x in Flat(groups) ==> x.metric != Up
  {
    if groups != [] {
      FlatHasNoUp(groups[1..]);
      forall x | x in groups[0].samples ensures x.metric != Up {}
    }
  }

  /** However a scrape ends, what it sent is the first 0, 1, 4 or 5 of the groups
      server, general, library, drift and node, in that order, and then one
      `tdarr_up`, which is 1 exactly when all five are there and no library was
      dropped. */
  lemma ScrapeTrace(e: Env, g: Global, i: nat)
    requires Reachable(e, g) && e.maxConcurrency >= 1 && i < |g.scrapes| && g.scrapes[i].phase.Done?
    ensures var s := g.scrapes[i];
            && s.up.Some? && |s.groups| in {0, 1, 4, 5}
            && (forall k :: 0 <= k < |s.groups| ==>
                  s.groups[k].section == SECTIONS[k] && SeqIn(s.groups[k].section, s.groups[k].samples))
            && (forall k :: 0 <= k < |Trace(s)| ==> (Trace(s)[k].metric == Up <==> k == |Trace(s)| - 1))
            && Trace(s)[|Trace(s)| - 1] == UpSample(if |s.groups| == 5 && s.dropped == multiset{} then 1.0 else 0.0)
  {
    ScrapeFacts(e, g, i);
    FinishedTrace(e, g.scrapes[i]);
  }

  lemma FinishedTrace(e: Env, s: Scrape)
    requires Knowledge(e, s) && Emitted(s) && s.phase.Done?
    ensures s.up.Some? && |s.groups| in {0, 1, 4, 5}
    ensures forall k :: 0 <= k < |s.groups| ==>
              s.groups[k].section == SECTIONS[k] && SeqIn(s.groups[k].section, s.groups[k].samples)
    ensures forall k :: 0 <= k < |Trace(s)| ==> (Trace(s)[k].metric == Up <==> k == |Trace(s)| - 1)
    ensures Trace(s)[|Trace(s)| - 1] == UpSample(if |s.groups| == 5 && s.dropped == multiset{} then 1.0 else 0.0)
  {
    UpIsLast(s);
    UpValue(e, s);
  }

  lemma ScrapeFacts(e: Env, g: Global, i: nat)
    requires Reachable(e, g) && e.maxConcurrency >= 1 && i < |g.scrapes|
    ensures Knowledge(e, g.scrapes[i]) && Emitted(g.scrapes[i]) && Contents(g.scrapes[i])
  {
    ReachableInv(e, g);
    assert ScrapeInv(e, g.sweeps, g.scrapes[i]);
  }

  /** What each group holds, at every point of every run: the samples the answers
      of this scrape call for, each as often as they call for it. */
  lemma GroupsHold(e: Env, g: Global, i: nat)
    requires Reachable(e, g) && e.maxConcurrency >= 1 && i < |g.scrapes|
    ensures Contents(g.scrapes[i])
    ensures |g.scrapes[i].groups| >= 3 ==>
              Bagged(g.scrapes[i].groups[2].samples) == PiesSeries(PiesOf(g.scrapes[i].stats))
  {
    ScrapeFacts(e, g, i);
  }

  lemma UpValue(e: Env, s: Scrape)
    requires Knowledge(e, s) && Emitted(s) && s.phase.Done?
    ensures s.up == Some(if |s.groups| == 5 && s.dropped == multiset{} then 1.0 else 0.0)
  {}

  lemma UpIsLast(s: Scrape)
    requires Emitted(s) && s.phase.Done?
    ensures forall k :: 0 <= k < |Trace(s)| ==> (Trace(s)[k].metric == Up <==> k == |Trace(s)| - 1)
  {
    FlatHasNoUp(s.groups);
    forall k | 0 <= k < |Flat(s.groups)| ensures Trace(s)[k].metric != Up {
      assert Flat(s.groups)[k] in Flat(s.groups);
    }
  }

  // ------------------------------------------------------------ completeness

  lemma {:induction false} AbsentFrom(samples: seq<Sample>, x: Sample)
    requires forall k :: 0 <= k < |samples| ==> samples[k].metric != x.metric
    ensures Bagged(samples)[x] == 0
  {
    BaggedMember(samples, x);
  }

  lemma HeadCount(p: Pie, lib: Library)
    ensures Bagged(PieHead(p))[InfoSample(lib)] == if LibraryOf(p) == lib then 1 else 0
  {
    var head := PieHead(p);
    var x := InfoSample(lib);
    assert Bagged(head) == multiset{head[0]} + Bagged(head[1..]);
    forall k | 0 <= k < |head[1..]| ensures head[1..][k].metric != x.metric {}
    AbsentFrom(head[1..], x);
    if LibraryOf(p) != lib {
      assert head[0].labels[0] == p.libraryId && head[0].labels[1] == p.libraryName;
      assert x.labels[0] == lib.id && x.labels[1] == lib.name;
    }
  }

  lemma StatusesCount(m: Metric, id: string, counts: map<string, int>, x: Sample)
    requires m != x.metric
    ensures StatusSeries(m, id, counts)[x] == 0
  {
    MapSumMember(counts, StatusSample(m, id), x);
  }

  lemma MediaCount(p: Pie, lib: Library)
    ensures Bagged(MediaSeries(p))[InfoSample(lib)] == 0
  {
    MediaHasNoInfo(p);
    AbsentFrom(MediaSeries(p), InfoSample(lib));
  }

  lemma MediaHasNoInfo(p: Pie)
    ensures forall k :: 0 <= k < |MediaSeries(p)| ==> MediaSeries(p)[k].metric != LibraryInfo
  {}

  /** Each pie contributes one library-info sample: its own. */
  lemma PieCount(p: Pie, lib: Library)
    ensures PieSeries(p)[InfoSample(lib)] == if LibraryOf(p) == lib then 1 else 0
  {
    HeadCount(p, lib);
    MediaCount(p, lib);
    StatusesCount(LibraryTranscodes, p.libraryId, p.transcodes, InfoSample(lib));
    StatusesCount(LibraryHealthChecks, p.libraryId, p.healthChecks, InfoSample(lib));
    SumOfFour(Bagged(PieHead(p)), StatusSeries(LibraryTranscodes, p.libraryId, p.transcodes),
              StatusSeries(LibraryHealthChecks, p.libraryId, p.healthChecks), Bagged(MediaSeries(p)), InfoSample(lib));
  }

  lemma SumOfFour<T>(a: multiset<T>, b: multiset<T>, c: multiset<T>, d: multiset<T>, x: T)
    ensures (a + b + c + d)[x] == a[x] + b[x] + c[x] + d[x]
  {}

  lemma {:induction false} PiesCount(pies: seq<Pie>, lib: Library)
    ensures PiesSeries(pies)[InfoSample(lib)] == multiset(Image(LibraryOf, pies))[lib]
  {
    if pies == [] {
      assert Image(LibraryOf, pies) == [];
    } else {
      PieCount(pies[0], lib);
      PiesCount(pies[1..], lib);
      SplitImage(pies, lib);
      SplitSeries(pies, InfoSample(lib));
    }
  }

  lemma SplitImage(pies: seq<Pie>, lib: Library)
    requires pies != []
    ensures multiset(Image(LibraryOf, pies))[lib]
            == (if LibraryOf(pies[0]) == lib then 1 else 0) + multiset(Image(LibraryOf, pies[1..]))[lib]
  {
    assert Image(LibraryOf, pies) == [LibraryOf(pies[0])] + Image(LibraryOf, pies[1..]);
  }

  lemma SplitSeries(pies: seq<Pie>, x: Sample)
    requires pies != []
    ensures PiesSeries(pies)[x] == PieSeries(pies[0])[x] + PiesSeries(pies[1..])[x]
  {
    assert PiesSeries(pies) == PieSamples()(pies[0]) + PiesSeries(pies[1..]);
  }

  lemma {:induction false} FlatCount(groups: seq<Group>, x: Sample)
    requires |groups| <= |SECTIONS|
    requires forall k :: 0 <= k < |groups| ==>
               groups[k].section == SECTIONS[k + |SECTIONS| - |groups|] && SeqIn(groups[k].section, groups[k].samples)
    requires SectionOf(x.metric) == LibrarySection
    ensures Bagged(Flat(groups))[x] == if |groups| >= 3 then Bagged(groups[|groups| - 3].samples)[x] else 0
  {
    if groups != [] {
      BaggedConcat(groups[0].samples, Flat(groups[1..]));
      FlatCount(groups[1..], x);
      if |groups| != 3 {
        forall k | 0 <= k < |groups[0].samples| ensures groups[0].samples[k].metric != x.metric {}
        AbsentFrom(groups[0].samples, x);
      }
    }
  }

  /** A whole scrape sends exactly the library samples of its pies. */
  lemma TraceCount(s: Scrape, x: Sample)
    requires Emitted(s) && s.up.Some? && |s.groups| == 5 && SectionOf(x.metric) == LibrarySection
    ensures Bagged(Trace(s))[x] == PiesSeries(PiesOf(s.stats))[x]
  {
    LibrariesInFlat(s, x);
    BaggedSnoc(Flat(s.groups), UpSample(s.up.value));
    assert UpSample(s.up.value) != x;
  }

  lemma LibrariesInFlat(s: Scrape, x: Sample)
    requires Emitted(s) && |s.groups| == 5 && SectionOf(x.metric) == LibrarySection
    ensures Bagged(Flat(s.groups))[x] == PiesSeries(PiesOf(s.stats))[x]
  {
    var groups := s.groups;
    forall k | 0 <= k < |groups|
      ensures groups[k].section == SECTIONS[k + |SECTIONS| - |groups|] && SeqIn(groups[k].section, groups[k].samples)
    {
      assert k + |SECTIONS| - |groups| == k;
    }
    FlatCount(groups, x);
  }

  lemma InfoComesFromPies(pies: seq<Pie>, x: Sample)
    requires x in PiesSeries(pies) && x.metric == LibraryInfo
    ensures exists lib :: lib in Image(LibraryOf, pies) && x == InfoSample(lib)
  {
    SeqSumMember(pies, PieSamples(), x);
    var p :| p in pies && x in PieSamples()(p);
    InfoOfPie(p, x);
    var k :| 0 <= k < |pies| && pies[k] == p;
    assert Image(LibraryOf, pies)[k] == LibraryOf(p);
  }

  lemma InfoOfPie(p: Pie, x: Sample)
    requires x in PieSeries(p) && x.metric == LibraryInfo
    ensures x == InfoSample(LibraryOf(p))
  {
    StatusesCount(LibraryTranscodes, p.libraryId, p.transcodes, x);
    StatusesCount(LibraryHealthChecks, p.libraryId, p.healthChecks, x);
    MediaHasNoInfo(p);
    AbsentFrom(MediaSeries(p), x);
    SumOfFour(Bagged(PieHead(p)), StatusSeries(LibraryTranscodes, p.libraryId, p.transcodes),
              StatusSeries(LibraryHealthChecks, p.libraryId, p.healthChecks), Bagged(MediaSeries(p)), x);
    BaggedMember(PieHead(p), x);
  }

  /** `tdarr_up = 1` means nothing is missing: whether the pies came from the cache
      or from a sweep, and whatever other scrapes were doing, the scrape sent one
      library-info sample per entry of the library list it fetched, and no other,
      and every entry had an id and a name. */
  lemma UpMeansComplete(e: Env, g: Global, i: nat)
    requires Reachable(e, g) && e.maxConcurrency >= 1 && i < |g.scrapes|
    requires g.scrapes[i].up == Some(1.0)
    ensures var s := g.scrapes[i];
            && (forall lib: Library ::
                  Bagged(Trace(s))[Sample(LibraryInfo, [lib.id, lib.name], 1.0)] == multiset(s.libs)[lib])
            && (forall x :: x in Bagged(Trace(s)) && x.metric == LibraryInfo ==>
                  exists lib :: lib in s.libs && x == Sample(LibraryInfo, [lib.id, lib.name], 1.0))
            && (forall lib :: lib in s.libs ==> lib.id != "" && lib.name != "")
  {
    ScrapeFacts(e, g, i);
    var s := g.scrapes[i];
    Complete(e, s);
    forall lib: Library
      ensures Bagged(Trace(s))[Sample(LibraryInfo, [lib.id, lib.name], 1.0)] == multiset(s.libs)[lib]
    {
      assert InfoSample(lib) == Sample(LibraryInfo, [lib.id, lib.name], 1.0);
    }
  }

  lemma UpIsWhole(e: Env, s: Scrape)
    requires Knowledge(e, s) && Emitted(s) && s.up == Some(1.0)
    ensures HasPies(s) && |s.groups| == 5 && s.dropped == multiset{}
  {}

  lemma Complete(e: Env, s: Scrape)
    requires Knowledge(e, s) && Emitted(s) && s.up == Some(1.0)
    ensures forall lib :: Bagged(Trace(s))[InfoSample(lib)] == multiset(s.libs)[lib]
    ensures forall x :: x in Bagged(Trace(s)) && x.metric == LibraryInfo ==>
              exists lib :: lib in s.libs && x == InfoSample(lib)
    ensures forall lib :: lib in s.libs ==> WorkerPool.Named(lib)
  {
    UpIsWhole(e, s);
    CompletePies(e, s);
    InfoIsExact(s);
  }

  lemma InfoIsExact(s: Scrape)
    requires Emitted(s) && s.up.Some? && |s.groups| == 5
    requires multiset(s.libs) == multiset(Image(LibraryOf, PiesOf(s.stats)))
    ensures forall lib :: Bagged(Trace(s))[InfoSample(lib)] == multiset(s.libs)[lib]
    ensures forall x :: x in Bagged(Trace(s)) && x.metric == LibraryInfo ==>
              exists lib :: lib in s.libs && x == InfoSample(lib)
  {
    LibrariesOfTrace(s);
    InfoOfBag(Bagged(Trace(s)), PiesOf(s.stats), s.libs);
    OnlyTheirInfo(Bagged(Trace(s)), PiesOf(s.stats), s.libs);
  }

  /** The bag's library samples are those of the pies. */
  ghost predicate LibrariesFrom(bag: multiset<Sample>, pies: seq<Pie>) {
    forall x: Sample :: SectionOf(x.metric) == LibrarySection ==> bag[x] == PiesSeries(pies)[x]
  }

  lemma LibrariesOfTrace(s: Scrape)
    requires Emitted(s) && s.up.Some? && |s.groups| == 5
    ensures LibrariesFrom(Bagged(Trace(s)), PiesOf(s.stats))
  {
    forall x: Sample | SectionOf(x.metric) == LibrarySection
      ensures Bagged(Trace(s))[x] == PiesSeries(PiesOf(s.stats))[x]
    {
      TraceCount(s, x);
    }
  }

  lemma InfoOfBag(bag: multiset<Sample>, pies: seq<Pie>, libs: seq<Library>)
    requires LibrariesFrom(bag, pies) && multiset(libs) == multiset(Image(LibraryOf, pies))
    ensures forall lib :: bag[InfoSample(lib)] == multiset(libs)[lib]
  {
    forall lib ensures bag[InfoSample(lib)] == multiset(libs)[lib] {
      InfoCount(bag, pies, libs, lib);
    }
  }

  lemma InfoCount(bag: multiset<Sample>, pies: seq<Pie>, libs: seq<Library>, lib: Library)
    requires LibrariesFrom(bag, pies) && multiset(libs) == multiset(Image(LibraryOf, pies))
    ensures bag[InfoSample(lib)] == multiset(libs)[lib]
  {
    var x := InfoSample(lib);
    assert bag[x] == PiesSeries(pies)[x] by { assert SectionOf(x.metric) == LibrarySection; }
    PiesCount(pies, lib);
  }

  lemma OnlyTheirInfo(bag: multiset<Sample>, pies: seq<Pie>, libs: seq<Library>)
    requires LibrariesFrom(bag, pies) && multiset(libs) == multiset(Image(LibraryOf, pies))
    ensures forall x :: x in bag && x.metric == LibraryInfo ==> exists lib :: lib in libs && x == InfoSample(lib)
  {
    forall x | x in bag && x.metric == LibraryInfo ensures exists lib :: lib in libs && x == InfoSample(lib) {
      assert SectionOf(x.metric) == LibrarySection;
      InfoComesFromPies(pies, x);
      SameElements(libs, Image(LibraryOf, pies));
    }
  }

  lemma CompletePies(e: Env, s: Scrape)
    requires Knowledge(e, s) && HasPies(s) && s.dropped == multiset{}
    ensures multiset(s.libs) == multiset(Image(LibraryOf, PiesOf(s.stats)))
    ensures forall lib :: lib in s.libs ==> WorkerPool.Named(lib)
  {
    var pies := PiesOf(s.stats);
    assert multiset(s.libs) == multiset(Image(LibraryOf, pies));
    SameElements(s.libs, Image(LibraryOf, pies));
    forall lib | lib in s.libs ensures WorkerPool.Named(lib) {
      var k :| 0 <= k < |pies| && Image(LibraryOf, pies)[k] == lib;
      assert pies[k] in pies;
    }
  }

  // ------------------------------------------------------------ concurrency

  /** A sweep runs no more workers than configured, so it has no more requests under way
      at once, and exactly as many once it has started feeding them. */
  lemma ConcurrencyIsBounded(e: Env, g: Global, i: nat)
    requires Reachable(e, g) && e.maxConcurrency >= 1 && i < |g.scrapes| && g.scrapes[i].phase.Sweeping?
    ensures var pool := g.scrapes[i].phase.pool;
            && |pool.workers| <= e.maxConcurrency
            && (pool.main != WorkerPool.Spawning ==> |pool.workers| == e.maxConcurrency)
  {
    ScrapeFacts(e, g, i);
    PoolIsKnown(e, g.scrapes[i]);
  }

  lemma PoolIsKnown(e: Env, s: Scrape)
    requires Knowledge(e, s) && s.phase.Sweeping?
    ensures s.metric.Some? && WorkerPool.Channels(PoolConfig(e, s), s.phase.pool)
  {}

  // -------------------------------------------------------- cache refinement

  /** The pie of one library as a consistent upstream determines it. */
  function PieFor(answer: (Totals, Library) -> PieStat, totals: Totals): Library -> Pie {
    lib => MakePie(lib, answer(totals, lib))
  }

  /** The library samples an exporter without a cache would send. */
  ghost function UncachedSeries(answer: (Totals, Library) -> PieStat, totals: Totals, libs: seq<Library>): multiset<Sample> {
    PiesSeries(Image(PieFor(answer, totals), libs))
  }

  /** Pies that are finished under a consistent upstream are what it determines
      for their libraries. */
  lemma PiesAreDetermined(c: WorkerPool.Config, answer: (Totals, Library) -> PieStat, pies: seq<Pie>, libs: seq<Library>)
    requires c.upstream == WorkerPool.Consistent(answer)
    requires forall p :: p in pies ==> WorkerPool.IsFinished(c, p)
    requires multiset(Image(LibraryOf, pies)) == multiset(libs)
    ensures PiesSeries(pies) == UncachedSeries(answer, c.totals, libs)
  {
    var f := PieFor(answer, c.totals);
    var own := Image(LibraryOf, pies);
    forall k | 0 <= k < |pies| ensures Image(f, own)[k] == pies[k] {
      assert pies[k] in pies;
    }
    assert Image(f, own) == pies;
    ImagePermutation(f, own, libs);
    SeqSumPermutation(pies, Image(f, libs), PieSamples());
  }

  /** A complete uncached sweep sends exactly the uncached samples. */
  lemma UncachedSweep(libs: seq<Library>, workers: nat, totals: Totals, answer: (Totals, Library) -> PieStat,
                      pool: WorkerPool.State)
    requires var c := WorkerPool.CodeConfig(libs, workers, totals, WorkerPool.Consistent(answer));
             workers >= 1 && WorkerPool.Reachable(c, pool) && pool.main == WorkerPool.Returned && !pool.partial
    ensures WorkerPool.InHeap(pool)
    ensures PiesSeries(WorkerPool.Result(pool)) == UncachedSeries(answer, totals, libs)
  {
    var c := WorkerPool.CodeConfig(libs, workers, totals, WorkerPool.Consistent(answer));
    WorkerPoolTheorems.SweepTheorem(c, pool);
    PiesAreDetermined(c, answer, WorkerPool.Result(pool), libs);
  }

  /** The cache is transparent.  If each scrape sees one consistent upstream, then
      in every run of overlapping scrapes the library group of a scrape that
      dropped nothing, above all of one served from the cache, is the group an
      uncached sweep of its own library list would send. */
  lemma CacheRefinement(e: Env, answer: (Totals, Library) -> PieStat, g: Global, i: nat)
    requires Reachable(e, g) && e.maxConcurrency >= 1 && e.upstream == WorkerPool.Consistent(answer)
    requires i < |g.scrapes| && |g.scrapes[i].groups| >= 3
    ensures var s := g.scrapes[i];
            && s.metric.Some?
            && (s.source == Hit ==> s.calls == multiset{} && s.dropped == multiset{})
            && (s.dropped == multiset{} ==>
                  Bagged(s.groups[2].samples) == UncachedSeries(answer, TotalsFromMetric(s.metric.value), s.libs))
  {
    ScrapeFacts(e, g, i);
    LibraryGroup(e, g.scrapes[i]);
    if g.scrapes[i].dropped == multiset{} { Determined(e, answer, g.scrapes[i]); }
  }

  lemma LibraryGroup(e: Env, s: Scrape)
    requires Knowledge(e, s) && Emitted(s) && |s.groups| >= 3
    ensures HasPies(s) && s.metric.Some?
    ensures s.source == Hit ==> s.calls == multiset{} && s.dropped == multiset{}
    ensures Bagged(s.groups[2].samples) == PiesSeries(PiesOf(s.stats))
  {}

  lemma Determined(e: Env, answer: (Totals, Library) -> PieStat, s: Scrape)
    requires Knowledge(e, s) && HasPies(s) && s.dropped == multiset{} && e.upstream == WorkerPool.Consistent(answer)
    requires s.metric.Some?
    ensures PiesSeries(PiesOf(s.stats)) == UncachedSeries(answer, TotalsFromMetric(s.metric.value), s.libs)
  {
    CompletePies(e, s);
    var c := WorkerPool.CodeConfig([], e.maxConcurrency, TotalsFromMetric(s.metric.value), e.upstream);
    PiesAreDetermined(c, answer, PiesOf(s.stats), s.libs);
  }

  // -------------------------------------------------------------- the cache

  /** Every reachable snapshot is empty or comes whole from one complete sweep, and
      its pies, totals and fingerprint belong together. */
  lemma SnapshotsAreWhole(e: Env, g: Global)
    requires Reachable(e, g) && e.maxConcurrency >= 1
    ensures Coherent(e, g.cache)
    ensures g.cache == EMPTY
            || exists k :: 0 <= k < |g.sweeps| && !g.sweeps[k].partial && g.cache == CachedAs(g.sweeps[k])
  {
    ReachableInv(e, g);
  }

  /** A complete sweep of exactly this fingerprint, made under a document with the
      same ten counts, and with these pies. */
  ghost predicate SweptLike(w: Sweep, metric: GeneralStats, fp: seq<Library>, pies: seq<Pie>) {
    !w.partial && SameCounts(w.metric, metric) && w.fingerprint == fp && w.pies == pies
  }

  /** The decision, count by count: with what a complete sweep cached, there is no
      refetch if and only if the sweep found a library, each of the ten counts is as it
      was, and so is the fingerprint. */
  lemma RefetchIff(w: Sweep, metric: GeneralStats, fp: seq<Library>)
    ensures !ShouldRefetch(CachedAs(w), metric, fp) <==>
            w.pies != [] && SameCounts(w.metric, metric) && w.fingerprint == fp
  {
    TotalsIff(w.metric, metric);
  }

  /** Where the decision can be trusted: a hit is only possible for the very set of
      libraries that some complete sweep found, under a document with the very same ten
      counts, and it gives that sweep's pies. */
  lemma HitMeansSameInputs(e: Env, g: Global, metric: GeneralStats, libs: seq<Library>, fp: seq<Library>)
    requires Reachable(e, g) && e.maxConcurrency >= 1
    requires IsFingerprint(libs, fp) && !ShouldRefetch(g.cache, metric, fp)
    ensures exists k :: 0 <= k < |g.sweeps| && SweptLike(g.sweeps[k], metric, fp, PiesOf(g.cache.stats))
    ensures multiset(Image(LibraryOf, PiesOf(g.cache.stats))) == multiset(libs)
  {
    ReachableInv(e, g);
    SweepBehind(g.sweeps, g.cache.stats, metric, fp);
  }

  lemma SweepBehind(sweeps: seq<Sweep>, stats: Stats, metric: GeneralStats, fp: seq<Library>)
    requires FromOneSweep(Snapshot(TotalsFromMetric(metric), stats, fp), sweeps) && !stats.Nil?
    ensures exists k :: 0 <= k < |sweeps| && SweptLike(sweeps[k], metric, fp, PiesOf(stats))
  {
    var k :| 0 <= k < |sweeps| && !sweeps[k].partial
             && Snapshot(TotalsFromMetric(metric), stats, fp) == CachedAs(sweeps[k]);
    TotalsIff(sweeps[k].metric, metric);
    StatsKeepPies(sweeps[k].pies);
    assert SweptLike(sweeps[k], metric, fp, PiesOf(stats));
  }

  /** What a scrape serves from the cache is one complete sweep of its own libraries,
      made under a document that agrees with its own on each of the ten counts. */
  lemma HitServesOneSweep(e: Env, g: Global, i: nat)
    requires Reachable(e, g) && e.maxConcurrency >= 1 && i < |g.scrapes| && g.scrapes[i].source == Hit
    ensures var s := g.scrapes[i];
            && s.metric.Some?
            && exists k :: 0 <= k < |g.sweeps|
                 && SweptLike(g.sweeps[k], s.metric.value, s.fingerprint, PiesOf(s.stats))
                 && multiset(s.fingerprint) == multiset(s.libs)
  {
    ReachableInv(e, g);
    var s := g.scrapes[i];
    assert ScrapeInv(e, g.sweeps, s);
    HitHasPies(e, s);
    SweepBehind(g.sweeps, s.stats, s.metric.value, s.fingerprint);
  }

  lemma HitHasPies(e: Env, s: Scrape)
    requires Knowledge(e, s) && s.source == Hit
    ensures HasPies(s) && s.metric.Some? && !s.stats.Nil? && IsFingerprint(s.libs, s.fingerprint)
  {}

  // ------------------------------------------------------------------ drift

  /** Between sweeps the counters are exactly the unknown entries of every answer
      normalised so far, whatever the workers' schedule was. */
  lemma DriftIsExact(e: Env, g: Global)
    requires Reachable(e, g) && e.maxConcurrency >= 1
    ensures g.drift + SeqSum(g.scrapes, PendingIn) == SeqSum(g.normalised, KeysOf)
    ensures (forall i :: 0 <= i < |g.scrapes| ==> !g.scrapes[i].phase.Sweeping?) ==>
              g.drift == SeqSum(g.normalised, KeysOf)
  {
    ReachableInv(e, g);
    if forall i :: 0 <= i < |g.scrapes| ==> !g.scrapes[i].phase.Sweeping? {
      NothingPending(g.scrapes);
    }
  }

  /** No step lowers a counter, and only a sweep raises one: a cache hit leaves all
      counts as they are. */
  lemma DriftIsMonotone(e: Env, g: Global, i: nat, a: Action)
    requires Enabled(e, g, i, a)
    ensures g.drift <= Apply(e, g, i, a).drift
    ensures g.drift != Apply(e, g, i, a).drift ==> g.scrapes[i].phase.Sweeping?
  {
    if !a.PoolStep? { DriftUntouched(e, g, i, a); }
  }

  /** No known label is ever a key of its kind. */
  lemma DriftKeysAreUnknown(e: Env, g: Global, k: StatusKey)
    requires Reachable(e, g) && e.maxConcurrency >= 1 && k in g.drift
    ensures k.kind == TRANSCODE || k.kind == HEALTH_CHECK
    ensures k.kind == TRANSCODE ==> k.status !in KNOWN_TRANSCODE
    ensures k.kind == HEALTH_CHECK ==> k.status !in KNOWN_HEALTH_CHECK
  {
    DriftIsExact(e, g);
    assert k in g.drift + SeqSum(g.scrapes, PendingIn);
    SeqSumMember(g.normalised, KeysOf, k);
    var stat :| stat in g.normalised && k in KeysOf(stat);
    KeysAreUnknown(stat, k);
  }

  lemma KeysAreUnknown(stat: PieStat, k: StatusKey)
    requires k in UnknownKeys(stat)
    ensures k.kind == TRANSCODE || k.kind == HEALTH_CHECK
    ensures k.kind == TRANSCODE ==> k.status !in KNOWN_TRANSCODE
    ensures k.kind == HEALTH_CHECK ==> k.status !in KNOWN_HEALTH_CHECK
  {
    UnknownsAreUnknown(stat.transcode, KNOWN_TRANSCODE, CleanTranscodeLabel, TRANSCODE);
    UnknownsAreUnknown(stat.healthCheck, KNOWN_HEALTH_CHECK, CleanHealthCheckLabel, HEALTH_CHECK);
    KindsDiffer();
  }

  lemma KindsDiffer()
    ensures TRANSCODE != HEALTH_CHECK
  {
    assert TRANSCODE[0] != HEALTH_CHECK[0];
  }
}
