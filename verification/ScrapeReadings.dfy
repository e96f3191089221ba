/** What a scrape sends, read off the answers it got, field by field. */
module ScrapeReadings {
  import opened Models
  import opened Folds
  import opened StatusEnums
  import opened Series
  import opened Sections
  import opened Readings
  import WorkerPool
  import opened ScrapeEngine
  import opened ScrapeTheorems

  lemma {:induction false} InFlat(groups: seq<Group>, x: Sample)
    ensures x in Flat(groups) <==> exists k :: 0 <= k < |groups| && x in groups[k].samples
  {
    if groups != [] {
      InFlat(groups[1..], x);
      if k :| 0 <= k < |groups[1..]| && x in groups[1..][k].samples { assert x in groups[k + 1].samples; }
      if k :| 0 <= k < |groups| && x in groups[k].samples {
        if k > 0 { assert x in groups[1..][k - 1].samples; }
      }
    }
  }

  lemma SameMembers(samples: seq<Sample>, bag: multiset<Sample>, x: Sample)
    requires Bagged(samples) == bag
    ensures x in samples <==> x in bag
  {
    BaggedMember(samples, x);
  }

  /** What the k-th group of a scrape may hold. */
  ghost predicate GroupReading(s: Scrape, k: nat, x: Sample) {
    match k
    case 0 => s.status.Some? && ServerReading(s.status.value, x)
    case 1 => s.metric.Some? && GeneralReading(s.metric.value, x)
    case 2 => exists p :: p in PiesOf(s.stats) && PieReading(p, x)
    case 3 => DriftReading(s.countsSent, x)
    case 4 => exists key :: key in s.nodes && NodeReading(s.nodes[key], x)
    case _ => false
  }

  lemma GroupReads(s: Scrape, k: nat, x: Sample)
    requires Emitted(s) && Contents(s) && k < |s.groups|
    ensures x in s.groups[k].samples <==> GroupReading(s, k, x)
  {
    match k
    case 0 => ServerReads(s.status.value, x);
    case 1 => GeneralReads(s.metric.value, x);
    case 2 =>
      SameMembers(s.groups[2].samples, PiesSeries(PiesOf(s.stats)), x);
      PiesRead(PiesOf(s.stats), x);
    case 3 =>
      SameMembers(s.groups[3].samples, DriftSeries(s.countsSent), x);
      DriftReads(s.countsSent, x);
    case 4 =>
      SameMembers(s.groups[4].samples, NodesSeries(s.nodes), x);
      NodesRead(s.nodes, x);
    case _ =>
  }

  lemma FinishedReads(s: Scrape, x: Sample)
    requires Emitted(s) && Contents(s) && s.up.Some?
    ensures x in Trace(s) <==>
            (exists k: nat :: k < |s.groups| && GroupReading(s, k, x)) || x == Sample(Up, [], s.up.value)
  {
    InFlat(s.groups, x);
    forall k: nat | k < |s.groups| ensures x in s.groups[k].samples <==> GroupReading(s, k, x) {
      GroupReads(s, k, x);
    }
  }

  /** A finished scrape sent exactly the samples its answers say, field by field: those
      of the groups it got to, and `tdarr_up`. */
  lemma TraceReads(e: Env, g: Global, i: nat, x: Sample)
    requires Reachable(e, g) && e.maxConcurrency >= 1 && i < |g.scrapes| && g.scrapes[i].phase.Done?
    ensures var s := g.scrapes[i];
            && s.up.Some?
            && (x in Trace(s) <==>
                  || (|s.groups| >= 1 && s.status.Some? && ServerReading(s.status.value, x))
                  || (|s.groups| >= 2 && s.metric.Some? && GeneralReading(s.metric.value, x))
                  || (|s.groups| >= 3 && exists p :: p in PiesOf(s.stats) && PieReading(p, x))
                  || (|s.groups| >= 4 && DriftReading(s.countsSent, x))
                  || (|s.groups| >= 5 && exists key :: key in s.nodes && NodeReading(s.nodes[key], x))
                  || x == Sample(Up, [], s.up.value))
  {
    ScrapeFacts(e, g, i);
    var s := g.scrapes[i];
    FinishedReads(s, x);
    ByGroup(s, x);
  }

  lemma ByGroup(s: Scrape, x: Sample)
    requires |s.groups| <= 5
    ensures (exists k: nat :: k < |s.groups| && GroupReading(s, k, x)) <==>
            || (|s.groups| >= 1 && GroupReading(s, 0, x)) || (|s.groups| >= 2 && GroupReading(s, 1, x))
            || (|s.groups| >= 3 && GroupReading(s, 2, x)) || (|s.groups| >= 4 && GroupReading(s, 3, x))
            || (|s.groups| >= 5 && GroupReading(s, 4, x))
  {}

  /** The pies a scrape sends are those of libraries on its own list, each with an id and
      a name and with both status maps as the raw entries of its answer have them; under a
      consistent upstream the answer is the one for that library and the ten totals. */
  lemma PiesAreRead(e: Env, g: Global, i: nat, p: Pie)
    requires Reachable(e, g) && e.maxConcurrency >= 1 && i < |g.scrapes| && |g.scrapes[i].groups| >= 3
    requires p in PiesOf(g.scrapes[i].stats)
    ensures var s := g.scrapes[i];
            && Library(p.libraryId, p.libraryName) in s.libs && p.libraryId != "" && p.libraryName != ""
            && TranscodesOf(p.transcodes, p.stat.transcode) && HealthChecksOf(p.healthChecks, p.stat.healthCheck)
            && s.metric.Some?
            && (e.upstream.Consistent? ==>
                  p.stat == e.upstream.answer(TotalsFromMetric(s.metric.value), Library(p.libraryId, p.libraryName)))
  {
    ScrapeFacts(e, g, i);
    LibraryGroup(e, g.scrapes[i]);
    PieFacts(e, g.scrapes[i], p);
    PieOnRawEntries(LibraryOf(p), p.stat);
  }

  lemma PieFacts(e: Env, s: Scrape, p: Pie)
    requires Knowledge(e, s) && HasPies(s) && s.metric.Some? && p in PiesOf(s.stats)
    ensures WorkerPool.IsFinished(WorkerPool.CodeConfig([], e.maxConcurrency, TotalsFromMetric(s.metric.value), e.upstream), p)
    ensures LibraryOf(p) in s.libs
  {
    var own := Image(LibraryOf, PiesOf(s.stats));
    var k :| 0 <= k < |PiesOf(s.stats)| && PiesOf(s.stats)[k] == p;
    assert own[k] == LibraryOf(p);
    assert LibraryOf(p) in multiset(own);
    assert LibraryOf(p) in multiset(s.libs);
  }

  // ------------------------------------------------------------------ drift

  /** The entries of all answers that have an unknown label, counted raw. */
  function AllRawBumps(answers: seq<PieStat>, k: StatusKey): nat {
    if answers == [] then 0 else RawBumps(answers[0], k) + AllRawBumps(answers[1..], k)
  }

  lemma {:induction false} KeysOnRawEntries(answers: seq<PieStat>, k: StatusKey)
    ensures SeqSum(answers, KeysOf)[k] == AllRawBumps(answers, k)
  {
    if answers != [] {
      BumpsOnRawEntries(answers[0], k);
      KeysOnRawEntries(answers[1..], k);
      assert SeqSum(answers, KeysOf) == KeysOf(answers[0]) + SeqSum(answers[1..], KeysOf);
    }
  }

  /** With no sweep under way, each counter is the number of raw entries, over all answers
      normalised so far, that have its unknown label in the list of its kind. */
  lemma DriftOnRawEntries(e: Env, g: Global, k: StatusKey)
    requires Reachable(e, g) && e.maxConcurrency >= 1
    requires forall i :: 0 <= i < |g.scrapes| ==> !g.scrapes[i].phase.Sweeping?
    ensures g.drift[k] == AllRawBumps(g.normalised, k)
  {
    DriftIsExact(e, g);
    KeysOnRawEntries(g.normalised, k);
  }
}
