/** Every step of every scrape keeps the collector's invariant. */
module ScrapeInvariants {
  import opened Models
  import opened Folds
  import opened Fingerprint
  import opened Series
  import opened Sections
  import WorkerPool
  import WorkerPoolTheorems
  import opened ScrapeEngine

  lemma {:induction false} NothingPending(scrapes: seq<Scrape>)
    requires forall i :: 0 <= i < |scrapes| ==> !scrapes[i].phase.Sweeping?
    ensures SeqSum(scrapes, PendingIn) == multiset{}
  {
    if scrapes != [] {
      NothingPending(scrapes[1..]);
    }
  }

  lemma EmptyIsCoherent(e: Env)
    ensures Coherent(e, EMPTY) && FromOneSweep(EMPTY, [])
  {
    assert Image(LibraryOf, PiesOf(EMPTY.stats)) == [];
  }

  lemma StartInv(e: Env, n: nat)
    ensures Inv(e, Start(n))
  {
    EmptyIsCoherent(e);
    NothingPending(Start(n).scrapes);
  }

  // ------------------------------------------------------- what pools return

  /** A finished pie stays finished whatever list it was fetched for. */
  lemma FitAnyList(e: Env, libs: seq<Library>, totals: Totals, pies: seq<Pie>)
    requires forall p :: p in pies ==>
               WorkerPool.IsFinished(WorkerPool.CodeConfig(libs, e.maxConcurrency, totals, e.upstream), p)
    ensures PiesFit(e, totals, pies)
  {}

  lemma StatsKeepPies(pies: seq<Pie>)
    ensures PiesOf(StatsOf(pies)) == pies
  {}

  lemma ReturnedKnowledge(e: Env, g: Global, s: Scrape)
    requires Knowledge(e, s) && s.phase.Sweeping? && s.metric.Some? && e.maxConcurrency >= 1
    requires s.phase.pool.main == WorkerPool.Returned && WorkerPool.InHeap(s.phase.pool)
    ensures Knowledge(e, Step(e, g, s, PoolReturn))
  {
    ReturnedPies(e, s);
    assert IsFingerprint(s.libs, s.fingerprint);
    ReturnStepIs(e, g, s);
    Landed(e, s, Step(e, g, s, PoolReturn));
  }

  lemma ReturnStepIs(e: Env, g: Global, s: Scrape)
    requires s.phase.Sweeping? && s.metric.Some? && WorkerPool.InHeap(s.phase.pool)
    ensures var t, pool := Step(e, g, s, PoolReturn), s.phase.pool;
            && t.phase == (if pool.partial then SendingLibraries else Storing)
            && t.metric == s.metric && t.libs == s.libs && t.fingerprint == s.fingerprint && t.source == Swept
            && t.stats == StatsOf(WorkerPool.Result(pool)) && t.partial == pool.partial
            && t.calls == pool.calls && t.dropped == pool.failed + pool.unnamed
  {}

  /** A scrape that comes back from its pool with pies matching its list. */
  lemma Landed(e: Env, s: Scrape, t: Scrape)
    requires t.phase.Storing? || t.phase.SendingLibraries?
    requires s.metric.Some? && s.metric.value.score.Some? && s.metric.value.healthScore.Some?
    requires IsFingerprint(s.libs, s.fingerprint)
    requires t.metric == s.metric && t.libs == s.libs && t.fingerprint == s.fingerprint && t.source == Swept
    requires PiesFit(e, TotalsFromMetric(s.metric.value), PiesOf(t.stats)) && Sliced(t.stats)
    requires multiset(t.libs) == multiset(Image(LibraryOf, PiesOf(t.stats))) + t.dropped
    requires t.calls == multiset(t.libs) && (t.partial <==> t.dropped != multiset{})
    requires t.phase.Storing? ==> !t.partial
    ensures Knowledge(e, t)
  {}

  lemma ReturnedPies(e: Env, s: Scrape)
    requires Knowledge(e, s) && s.phase.Sweeping? && s.metric.Some? && e.maxConcurrency >= 1
    requires s.phase.pool.main == WorkerPool.Returned && WorkerPool.InHeap(s.phase.pool)
    ensures var pool := s.phase.pool; var pies := PiesOf(StatsOf(WorkerPool.Result(pool)));
            && PiesFit(e, TotalsFromMetric(s.metric.value), pies)
            && multiset(s.libs) == multiset(Image(LibraryOf, pies)) + (pool.failed + pool.unnamed)
            && pool.calls == multiset(s.libs)
            && (pool.partial <==> pool.failed + pool.unnamed != multiset{})
  {
    var pool := s.phase.pool;
    WorkerPoolTheorems.ReturnedSweep(PoolConfig(e, s), pool);
    StatsKeepPies(WorkerPool.Result(pool));
    FitAnyList(e, s.libs, TotalsFromMetric(s.metric.value), WorkerPool.Result(pool));
    BagAssoc(multiset(Image(LibraryOf, WorkerPool.Result(pool))), pool.failed, pool.unnamed);
  }

  // -------------------------------------------------------------- knowledge

  lemma HitKnowledge(e: Env, g: Global, s: Scrape)
    requires Knowledge(e, s) && Coherent(e, g.cache) && s.phase.Deciding? && s.metric.Some?
    requires !ShouldRefetch(g.cache, s.metric.value, s.fingerprint)
    ensures Knowledge(e, Step(e, g, s, ReadCache))
  {
    var t := Step(e, g, s, ReadCache);
    assert t.dropped == multiset{};
    assert multiset(t.libs) == multiset(Image(LibraryOf, PiesOf(t.stats)));
  }

  lemma MissKnowledge(e: Env, g: Global, s: Scrape)
    requires Knowledge(e, s) && s.phase.Deciding? && s.metric.Some?
    requires ShouldRefetch(g.cache, s.metric.value, s.fingerprint)
    ensures Knowledge(e, Step(e, g, s, ReadCache))
  {
    WorkerPool.InitInv(PoolConfig(e, s));
    PoolMovesOn(e, s, WorkerPool.INIT);
    MissStepIs(e, g, s);
  }

  lemma MissStepIs(e: Env, g: Global, s: Scrape)
    requires s.metric.Some? && ShouldRefetch(g.cache, s.metric.value, s.fingerprint)
    ensures Step(e, g, s, ReadCache) == s.(phase := Sweeping(WorkerPool.INIT))
  {}

  lemma PoolKnowledge(e: Env, g: Global, s: Scrape, step: WorkerPool.Action)
    requires Knowledge(e, s) && s.phase.Sweeping? && s.metric.Some?
    requires WorkerPool.Enabled(PoolConfig(e, s), s.phase.pool, step)
    ensures Knowledge(e, Step(e, g, s, PoolStep(step)))
  {
    var next := WorkerPool.Apply(PoolConfig(e, s), s.phase.pool, step);
    WorkerPool.InvKept(PoolConfig(e, s), s.phase.pool, step);
    PoolMovesOn(e, s, next);
    PoolStepIs(e, g, s, step);
  }

  lemma PoolStepIs(e: Env, g: Global, s: Scrape, step: WorkerPool.Action)
    requires s.phase.Sweeping? && s.metric.Some? && WorkerPool.Enabled(PoolConfig(e, s), s.phase.pool, step)
    ensures Step(e, g, s, PoolStep(step))
            == s.(phase := Sweeping(WorkerPool.Apply(PoolConfig(e, s), s.phase.pool, step)))
  {}

  /** Whether it starts its pool or goes on with it, a scrape knows what it knew. */
  lemma PoolMovesOn(e: Env, s: Scrape, next: WorkerPool.State)
    requires Knowledge(e, s) && (s.phase.Deciding? || s.phase.Sweeping?) && s.metric.Some?
    requires WorkerPool.Inv(PoolConfig(e, s), next)
    ensures Knowledge(e, s.(phase := Sweeping(next)))
  {
    var t := s.(phase := Sweeping(next));
    assert PoolConfig(e, t) == PoolConfig(e, s);
    assert AfterList(t) && !HasPies(t) && AfterList(s) && !HasPies(s);
  }

  lemma KnowledgeKept(e: Env, g: Global, i: nat, a: Action)
    requires Enabled(e, g, i, a) && Coherent(e, g.cache) && e.maxConcurrency >= 1
    requires Knowledge(e, g.scrapes[i]) && Emitted(g.scrapes[i])
    ensures Knowledge(e, Step(e, g, g.scrapes[i], a))
  {
    var s := g.scrapes[i];
    if a.ReadCache? {
      if ShouldRefetch(g.cache, s.metric.value, s.fingerprint) { MissKnowledge(e, g, s); }
      else { HitKnowledge(e, g, s); }
    } else if a.PoolStep? {
      PoolKnowledge(e, g, s, a.step);
    } else if a.PoolReturn? {
      ReturnedKnowledge(e, g, s);
    } else if a.StatusReply? || a.GeneralReply? || a.LibrariesReply? {
      EarlyKnowledge(e, g, i, a);
    } else {
      LateKnowledge(e, g, i, a);
    }
  }

  lemma EarlyKnowledge(e: Env, g: Global, i: nat, a: Action)
    requires Enabled(e, g, i, a) && Knowledge(e, g.scrapes[i]) && Emitted(g.scrapes[i])
    requires a.StatusReply? || a.GeneralReply? || a.LibrariesReply?
    ensures Knowledge(e, Step(e, g, g.scrapes[i], a))
  {}

  lemma LateKnowledge(e: Env, g: Global, i: nat, a: Action)
    requires Enabled(e, g, i, a) && Knowledge(e, g.scrapes[i]) && Emitted(g.scrapes[i])
    requires Late(a)
    ensures Knowledge(e, Step(e, g, g.scrapes[i], a))
  {
    var s, t := g.scrapes[i], Step(e, g, g.scrapes[i], a);
    LateStep(e, g, i, a);
    SameKnowledge(e, s, t);
  }

  /** Once the pies are there, steps only move the phase and emit. */
  ghost predicate SameFacts(s: Scrape, t: Scrape) {
    && t.metric == s.metric && t.libs == s.libs && t.fingerprint == s.fingerprint && t.source == s.source
    && t.stats == s.stats && t.partial == s.partial && t.calls == s.calls && t.dropped == s.dropped
    && (AfterList(t) <==> AfterList(s)) && (HasPies(t) <==> HasPies(s))
    && !(t.phase.AskLibraries? || t.phase.Sweeping? || t.phase.Storing?)
  }

  lemma LateStep(e: Env, g: Global, i: nat, a: Action)
    requires Enabled(e, g, i, a) && GroupCount(g.scrapes[i])
    requires Late(a)
    ensures SameFacts(g.scrapes[i], Step(e, g, g.scrapes[i], a))
  {
    match a
    case NodesReply(r, batch) => LastSteps(e, g, i, a);
    case Report => LastSteps(e, g, i, a);
    case SendLibraries(batch) => LibrariesStep(e, g, i, a);
    case LockDrift => LockStep(e, g, i, a);
    case SendDrift(batch) => DriftStep(e, g, i, a);
    case UnlockDrift => LockStep(e, g, i, a);
    case WriteCache =>
  }

  lemma LibrariesStep(e: Env, g: Global, i: nat, a: Action)
    requires Enabled(e, g, i, a) && a.SendLibraries?
    ensures SameFacts(g.scrapes[i], Step(e, g, g.scrapes[i], a))
  {}

  lemma LockStep(e: Env, g: Global, i: nat, a: Action)
    requires Enabled(e, g, i, a) && (a.LockDrift? || a.UnlockDrift?)
    ensures SameFacts(g.scrapes[i], Step(e, g, g.scrapes[i], a))
  {}

  lemma DriftStep(e: Env, g: Global, i: nat, a: Action)
    requires Enabled(e, g, i, a) && a.SendDrift?
    ensures SameFacts(g.scrapes[i], Step(e, g, g.scrapes[i], a))
  {}

  lemma LastSteps(e: Env, g: Global, i: nat, a: Action)
    requires Enabled(e, g, i, a) && GroupCount(g.scrapes[i]) && (a.NodesReply? || a.Report?)
    ensures SameFacts(g.scrapes[i], Step(e, g, g.scrapes[i], a))
  {}

  lemma SameKnowledge(e: Env, s: Scrape, t: Scrape)
    requires Knowledge(e, s) && SameFacts(s, t)
    ensures Knowledge(e, t)
  {}

  // --------------------------------------------------------------- emission

  lemma OneMoreGroup(groups: seq<Group>, more: Group)
    requires |groups| < |SECTIONS| && more.section == SECTIONS[|groups|] && SeqIn(more.section, more.samples)
    requires forall k :: 0 <= k < |groups| ==>
               groups[k].section == SECTIONS[k] && SeqIn(groups[k].section, groups[k].samples)
    ensures forall k :: 0 <= k < |groups + [more]| ==>
              (groups + [more])[k].section == SECTIONS[k]
              && SeqIn((groups + [more])[k].section, (groups + [more])[k].samples)
  {}

  lemma LibrariesEmitted(e: Env, g: Global, i: nat, batch: seq<Sample>)
    requires Enabled(e, g, i, SendLibraries(batch)) && Emitted(g.scrapes[i])
    ensures Emitted(Step(e, g, g.scrapes[i], SendLibraries(batch)))
  {
    var s := g.scrapes[i];
    var m := s.metric.value;
    var general := Group(GeneralSection, GeneralSeries(m, m.score.value, m.healthScore.value));
    var library := Group(LibrarySection, batch);
    GeneralIn(m, m.score.value, m.healthScore.value);
    LibraryBatchIn(PiesOf(s.stats), batch);
    LibrariesNow(s, general, library);
    LibrariesStepIs(e, g, s, batch);
  }

  lemma LibraryBatchIn(pies: seq<Pie>, batch: seq<Sample>)
    requires Bagged(batch) == PiesSeries(pies)
    ensures SeqIn(LibrarySection, batch)
  {
    PiesIn(pies);
    BatchIn(LibrarySection, batch);
  }

  lemma LibrariesStepIs(e: Env, g: Global, s: Scrape, batch: seq<Sample>)
    requires s.metric.Some? && s.metric.value.score.Some? && s.metric.value.healthScore.Some?
    ensures var m := s.metric.value;
            Step(e, g, s, SendLibraries(batch))
            == s.(phase := LockingDrift,
                  groups := s.groups + [Group(GeneralSection, GeneralSeries(m, m.score.value, m.healthScore.value)),
                                        Group(LibrarySection, batch)])
  {}

  lemma TwoMoreGroups(groups: seq<Group>, x: Group, y: Group)
    requires |groups| + 1 < |SECTIONS| && x.section == SECTIONS[|groups|] && y.section == SECTIONS[|groups| + 1]
    requires SeqIn(x.section, x.samples) && SeqIn(y.section, y.samples)
    requires forall k :: 0 <= k < |groups| ==>
               groups[k].section == SECTIONS[k] && SeqIn(groups[k].section, groups[k].samples)
    ensures forall k :: 0 <= k < |groups + [x, y]| ==>
              (groups + [x, y])[k].section == SECTIONS[k]
              && SeqIn((groups + [x, y])[k].section, (groups + [x, y])[k].samples)
  {
    OneMoreGroup(groups, x);
    OneMoreGroup(groups + [x], y);
    assert groups + [x] + [y] == groups + [x, y];
  }

  lemma LibrariesNow(s: Scrape, general: Group, library: Group)
    requires Emitted(s) && s.phase.SendingLibraries?
    requires general.section == GeneralSection && SeqIn(GeneralSection, general.samples)
    requires library.section == LibrarySection && SeqIn(LibrarySection, library.samples)
    requires Bagged(library.samples) == PiesSeries(PiesOf(s.stats))
    ensures Emitted(s.(phase := LockingDrift, groups := s.groups + [general, library]))
  {
    var groups := s.groups + [general, library];
    assert |s.groups| == 1;
    TwoMoreGroups(s.groups, general, library);
    assert |groups| == 3 && groups[2] == library;
    LibrariesDone(s, groups);
  }

  lemma LibrariesDone(s: Scrape, groups: seq<Group>)
    requires Emitted(s) && s.phase.SendingLibraries? && |groups| == 3
    requires forall k :: 0 <= k < |groups| ==>
               groups[k].section == SECTIONS[k] && SeqIn(groups[k].section, groups[k].samples)
    requires Bagged(groups[2].samples) == PiesSeries(PiesOf(s.stats))
    ensures Emitted(s.(phase := LockingDrift, groups := groups))
  {}

  lemma ServerEmitted(e: Env, g: Global, i: nat, r: Reply<ServerStatus>)
    requires Enabled(e, g, i, StatusReply(r)) && Emitted(g.scrapes[i])
    ensures Emitted(Step(e, g, g.scrapes[i], StatusReply(r)))
  {
    if r.Fine? {
      ServerIn(r.value);
      OneMoreGroup(g.scrapes[i].groups, Group(ServerSection, ServerSeries(r.value)));
    }
  }

  lemma DriftEmitted(e: Env, g: Global, i: nat, batch: seq<Sample>)
    requires Enabled(e, g, i, SendDrift(batch)) && Emitted(g.scrapes[i])
    ensures Emitted(Step(e, g, g.scrapes[i], SendDrift(batch)))
  {
    DriftIn(g.drift);
    BatchIn(DriftSection, batch);
    OneMoreGroup(g.scrapes[i].groups, Group(DriftSection, batch));
  }

  lemma NodesEmitted(e: Env, g: Global, i: nat, r: Reply<map<string, Node>>, batch: seq<Sample>)
    requires Enabled(e, g, i, NodesReply(r, batch)) && Emitted(g.scrapes[i])
    ensures Emitted(Step(e, g, g.scrapes[i], NodesReply(r, batch)))
  {
    if r.Fine? {
      NodesIn(r.value);
      BatchIn(NodeSection, batch);
      OneMoreGroup(g.scrapes[i].groups, Group(NodeSection, batch));
      NodesNow(g.scrapes[i], Step(e, g, g.scrapes[i], NodesReply(r, batch)), r.value, Group(NodeSection, batch));
    } else {
      NodesBreak(e, g, i, r, batch);
    }
  }

  lemma NodesBreak(e: Env, g: Global, i: nat, r: Reply<map<string, Node>>, batch: seq<Sample>)
    requires Enabled(e, g, i, NodesReply(r, batch)) && Emitted(g.scrapes[i]) && !r.Fine?
    ensures Emitted(Step(e, g, g.scrapes[i], NodesReply(r, batch)))
  {}

  lemma NodesNow(s: Scrape, t: Scrape, nodes: map<string, Node>, more: Group)
    requires Emitted(s) && s.phase.AskNodes?
    requires t == s.(phase := Reporting, nodes := nodes, groups := s.groups + [more])
    requires forall k :: 0 <= k < |t.groups| ==>
               t.groups[k].section == SECTIONS[k] && SeqIn(t.groups[k].section, t.groups[k].samples)
    ensures Emitted(t)
  {}

  lemma EmittedKept(e: Env, g: Global, i: nat, a: Action)
    requires Enabled(e, g, i, a) && Emitted(g.scrapes[i])
    ensures Emitted(Step(e, g, g.scrapes[i], a))
  {
    match a
    case StatusReply(r) => ServerEmitted(e, g, i, r);
    case SendLibraries(batch) => LibrariesEmitted(e, g, i, batch);
    case SendDrift(batch) => DriftEmitted(e, g, i, batch);
    case NodesReply(r, batch) => NodesEmitted(e, g, i, r, batch);
    case _ => SilentKept(e, g, i, a);
  }

  lemma SilentKept(e: Env, g: Global, i: nat, a: Action)
    requires Enabled(e, g, i, a) && Emitted(g.scrapes[i])
    requires !(a.StatusReply? || a.SendLibraries? || a.SendDrift? || a.NodesReply?)
    ensures Emitted(Step(e, g, g.scrapes[i], a))
  {}

  lemma ContentsKept(e: Env, g: Global, i: nat, a: Action)
    requires Enabled(e, g, i, a) && GroupCount(g.scrapes[i]) && Contents(g.scrapes[i])
    ensures Contents(Step(e, g, g.scrapes[i], a))
  {
    match a
    case StatusReply(r) => FirstContents(e, g, i, a);
    case SendLibraries(batch) => MiddleContents(e, g, i, a);
    case SendDrift(batch) => DriftContents(e, g, i, a);
    case NodesReply(r, batch) => LastContents(e, g, i, a);
    case _ => SilentContents(e, g, i, a);
  }

  lemma FirstContents(e: Env, g: Global, i: nat, a: Action)
    requires Enabled(e, g, i, a) && GroupCount(g.scrapes[i]) && Contents(g.scrapes[i]) && a.StatusReply?
    ensures Contents(Step(e, g, g.scrapes[i], a))
  {}

  lemma MiddleContents(e: Env, g: Global, i: nat, a: Action)
    requires Enabled(e, g, i, a) && GroupCount(g.scrapes[i]) && Contents(g.scrapes[i]) && a.SendLibraries?
    ensures Contents(Step(e, g, g.scrapes[i], a))
  {}

  lemma DriftContents(e: Env, g: Global, i: nat, a: Action)
    requires Enabled(e, g, i, a) && GroupCount(g.scrapes[i]) && Contents(g.scrapes[i]) && a.SendDrift?
    ensures Contents(Step(e, g, g.scrapes[i], a))
  {}

  lemma LastContents(e: Env, g: Global, i: nat, a: Action)
    requires Enabled(e, g, i, a) && GroupCount(g.scrapes[i]) && Contents(g.scrapes[i]) && a.NodesReply?
    ensures Contents(Step(e, g, g.scrapes[i], a))
  {}

  lemma SilentContents(e: Env, g: Global, i: nat, a: Action)
    requires Enabled(e, g, i, a) && GroupCount(g.scrapes[i]) && Contents(g.scrapes[i])
    requires !(a.StatusReply? || a.SendLibraries? || a.SendDrift? || a.NodesReply?)
    ensures Contents(Step(e, g, g.scrapes[i], a))
  {}

  // ------------------------------------------------------------------ cache

  lemma SweepsGrow(c: Snapshot, sweeps: seq<Sweep>, more: seq<Sweep>)
    requires FromOneSweep(c, sweeps)
    ensures FromOneSweep(c, sweeps + more)
  {
    if c != EMPTY {
      var k :| 0 <= k < |sweeps| && !sweeps[k].partial && c == CachedAs(sweeps[k]);
      assert (sweeps + more)[k] == sweeps[k];
    }
  }

  lemma RecordedKept(e: Env, g: Global, i: nat, a: Action)
    requires Enabled(e, g, i, a) && GroupCount(g.scrapes[i]) && FromOneSweep(g.cache, g.sweeps)
    requires Knowledge(e, g.scrapes[i]) && Recorded(g.scrapes[i], g.sweeps)
    ensures Recorded(Step(e, g, g.scrapes[i], a), Apply(e, g, i, a).sweeps)
  {
    if a.PoolReturn? {
      RecordedReturn(e, g, i);
    } else {
      SweepsUntouched(e, g, i, a);
      if a.ReadCache? {
        RecordedRead(e, g, i);
      } else if Late(a) {
        LateStep(e, g, i, a);
      } else {
        NoPiesYet(e, g, i, a);
      }
    }
  }

  lemma SweepsUntouched(e: Env, g: Global, i: nat, a: Action)
    requires Enabled(e, g, i, a) && !a.PoolReturn?
    ensures Apply(e, g, i, a).sweeps == g.sweeps
  {}

  lemma RecordedReturn(e: Env, g: Global, i: nat)
    requires Enabled(e, g, i, PoolReturn)
    ensures Recorded(Step(e, g, g.scrapes[i], PoolReturn), Apply(e, g, i, PoolReturn).sweeps)
  {
    var s, sweeps := g.scrapes[i], Apply(e, g, i, PoolReturn).sweeps;
    ReturnStepIs(e, g, s);
    assert sweeps[|g.sweeps|]
           == Sweep(s.metric.value, s.fingerprint, WorkerPool.Result(s.phase.pool), s.phase.pool.partial);
  }

  lemma RecordedRead(e: Env, g: Global, i: nat)
    requires Enabled(e, g, i, ReadCache) && FromOneSweep(g.cache, g.sweeps)
    ensures Recorded(Step(e, g, g.scrapes[i], ReadCache), g.sweeps)
  {
    var s := g.scrapes[i];
    if !ShouldRefetch(g.cache, s.metric.value, s.fingerprint) {
      assert g.cache == Snapshot(TotalsFromMetric(s.metric.value), g.cache.stats, s.fingerprint);
    }
  }

  lemma NoPiesYet(e: Env, g: Global, i: nat, a: Action)
    requires Enabled(e, g, i, a) && GroupCount(g.scrapes[i]) && Knowledge(e, g.scrapes[i])
    requires a.StatusReply? || a.GeneralReply? || a.LibrariesReply? || a.PoolStep?
    ensures Recorded(Step(e, g, g.scrapes[i], a), g.sweeps)
  {}

  lemma OthersKept(e: Env, g: Global, i: nat, a: Action, j: nat)
    requires Enabled(e, g, i, a) && j < |g.scrapes| && ScrapeInv(e, g.sweeps, g.scrapes[j])
    ensures ScrapeInv(e, Apply(e, g, i, a).sweeps, g.scrapes[j])
  {
    var s := g.scrapes[j];
    if a.PoolReturn? {
      var last := Apply(e, g, i, a).sweeps[|g.sweeps|];
      assert Apply(e, g, i, a).sweeps == g.sweeps + [last];
      RecordedGrows(s, g.sweeps, [last]);
    } else {
      SweepsUntouched(e, g, i, a);
    }
  }

  lemma RecordedGrows(s: Scrape, sweeps: seq<Sweep>, more: seq<Sweep>)
    requires Recorded(s, sweeps)
    ensures Recorded(s, sweeps + more)
  {
    if s.phase.Storing? || (HasPies(s) && s.source == Hit) {
      SweepsGrow(Snapshot(TotalsFromMetric(s.metric.value), s.stats, s.fingerprint), sweeps, more);
    }
  }

  lemma WrittenCoherent(e: Env, s: Scrape)
    requires Knowledge(e, s) && s.phase.Storing? && s.metric.Some?
    ensures Coherent(e, Snapshot(TotalsFromMetric(s.metric.value), s.stats, s.fingerprint))
  {
    assert s.dropped == multiset{};
    assert multiset(s.libs) == multiset(Image(LibraryOf, PiesOf(s.stats)));
  }

  lemma CacheKept(e: Env, g: Global, i: nat, a: Action)
    requires Enabled(e, g, i, a) && ScrapeInv(e, g.sweeps, g.scrapes[i])
    requires Coherent(e, g.cache) && FromOneSweep(g.cache, g.sweeps)
    ensures Coherent(e, Apply(e, g, i, a).cache) && FromOneSweep(Apply(e, g, i, a).cache, Apply(e, g, i, a).sweeps)
  {
    if a.WriteCache? {
      WrittenCoherent(e, g.scrapes[i]);
    } else if a.PoolReturn? {
      var last := Apply(e, g, i, a).sweeps[|g.sweeps|];
      assert Apply(e, g, i, a).sweeps == g.sweeps + [last];
      SweepsGrow(g.cache, g.sweeps, [last]);
    }
  }

  // ------------------------------------------------------------------ drift

  lemma PendingReplace(ws: seq<WorkerPool.Goroutine>, i: nat, w: WorkerPool.Goroutine,
                       bumped: multiset<StatusKey>, begun: multiset<StatusKey>)
    requires i < |ws| && WorkerPool.PendingOf(w) + bumped == WorkerPool.PendingOf(ws[i]) + begun
    ensures WorkerPool.Pending(ws[i := w]) + bumped == WorkerPool.Pending(ws) + begun
  {
    SeqSumUpdate(ws, i, w, WorkerPool.PendingOf);
    Exchange(WorkerPool.Pending(ws), WorkerPool.PendingOf(ws[i]), WorkerPool.PendingOf(w), bumped, begun);
  }

  lemma Exchange<T>(all: multiset<T>, was: multiset<T>, is_: multiset<T>, gone: multiset<T>, come: multiset<T>)
    requires was <= all && is_ + gone == was + come
    ensures all - was + is_ + gone == all + come
  {
    forall x ensures (all - was + is_ + gone)[x] == (all + come)[x] {
      assert (is_ + gone)[x] == (was + come)[x];
    }
  }

  /** A pool step turns pending bumps into bumps, or answers into pending bumps. */
  lemma PoolPending(c: WorkerPool.Config, pool: WorkerPool.State, a: WorkerPool.Action)
    requires WorkerPool.Enabled(c, pool, a)
    ensures WorkerPool.Pending(WorkerPool.Apply(c, pool, a).workers) + BumpedBy(pool, a)
            == WorkerPool.Pending(pool.workers) + SeqSum(BegunBy(pool, a), KeysOf)
  {
    WorkerPool.WorkerMoves(c, pool, a);
    var next := WorkerPool.Apply(c, pool, a);
    if WorkerPool.MovesWorker(a) {
      OwnPending(c, pool, a);
      PendingReplace(pool.workers, a.i, next.workers[a.i], BumpedBy(pool, a), SeqSum(BegunBy(pool, a), KeysOf));
    } else if a.Spawn? {
      SeqSumSnoc(pool.workers, WorkerPool.Idle, WorkerPool.PendingOf);
    }
  }

  lemma OwnPending(c: WorkerPool.Config, pool: WorkerPool.State, a: WorkerPool.Action)
    requires WorkerPool.Enabled(c, pool, a) && WorkerPool.MovesWorker(a)
    ensures |WorkerPool.Apply(c, pool, a).workers| == |pool.workers|
    ensures WorkerPool.PendingOf(WorkerPool.Apply(c, pool, a).workers[a.i]) + BumpedBy(pool, a)
            == WorkerPool.PendingOf(pool.workers[a.i]) + SeqSum(BegunBy(pool, a), KeysOf)
  {
    if a.Bump? {
      BumpPending(c, pool, a);
    } else if a.Answer? {
      AnswerPending(c, pool, a);
    } else {
      QuietPending(c, pool, a);
    }
  }

  lemma BumpPending(c: WorkerPool.Config, pool: WorkerPool.State, a: WorkerPool.Action)
    requires WorkerPool.Enabled(c, pool, a) && a.Bump?
    ensures |WorkerPool.Apply(c, pool, a).workers| == |pool.workers|
    ensures BegunBy(pool, a) == []
    ensures WorkerPool.PendingOf(WorkerPool.Apply(c, pool, a).workers[a.i]) + BumpedBy(pool, a)
            == WorkerPool.PendingOf(pool.workers[a.i])
  {
    var todo := pool.workers[a.i].todo;
    assert todo == [todo[0]] + todo[1..];
  }

  lemma AnswerPending(c: WorkerPool.Config, pool: WorkerPool.State, a: WorkerPool.Action)
    requires WorkerPool.Enabled(c, pool, a) && a.Answer?
    ensures |WorkerPool.Apply(c, pool, a).workers| == |pool.workers|
    ensures BumpedBy(pool, a) == multiset{} == WorkerPool.PendingOf(pool.workers[a.i])
    ensures WorkerPool.PendingOf(WorkerPool.Apply(c, pool, a).workers[a.i]) == SeqSum(BegunBy(pool, a), KeysOf)
  {
    if BegunBy(pool, a) != [] {
      var stat := a.outcome.stat;
      assert SeqSum([stat], KeysOf) == KeysOf(stat) + SeqSum([stat][1..], KeysOf);
      assert [stat][1..] == [];
    }
  }

  lemma QuietPending(c: WorkerPool.Config, pool: WorkerPool.State, a: WorkerPool.Action)
    requires WorkerPool.Enabled(c, pool, a) && WorkerPool.MovesWorker(a) && !a.Bump? && !a.Answer?
    ensures |WorkerPool.Apply(c, pool, a).workers| == |pool.workers|
    ensures BegunBy(pool, a) == [] && BumpedBy(pool, a) == multiset{}
    ensures WorkerPool.PendingOf(WorkerPool.Apply(c, pool, a).workers[a.i]) == WorkerPool.PendingOf(pool.workers[a.i])
  {
    match a
    case HandIn(_) =>
    case Receive(_) =>
    case Exit(_) =>
    case Publish(_) =>
    case Send(_) =>
    case HandOut(_) =>
  }

  lemma Balance<T>(drift: multiset<T>, pending: multiset<T>, all: multiset<T>,
                   bumped: multiset<T>, begun: multiset<T>, pending': multiset<T>)
    requires drift + pending == all && pending' + bumped == pending + begun
    ensures drift + bumped + pending' == all + begun
  {
    forall x ensures (drift + bumped + pending')[x] == (all + begun)[x] {
      assert (drift + pending)[x] == all[x];
      assert (pending' + bumped)[x] == (pending + begun)[x];
    }
  }

  lemma PendingKeptElsewhere(scrapes: seq<Scrape>, i: nat, t: Scrape)
    requires i < |scrapes| && PendingIn(t) == PendingIn(scrapes[i])
    ensures SeqSum(scrapes[i := t], PendingIn) == SeqSum(scrapes, PendingIn)
  {
    SeqSumUpdate(scrapes, i, t, PendingIn);
  }

  lemma ReturnedHasNothingPending(e: Env, s: Scrape)
    requires Knowledge(e, s) && s.phase.Sweeping? && s.phase.pool.main == WorkerPool.Returned
    ensures PendingIn(s) == multiset{}
  {
    WorkerPool.NobodyAlive(s.phase.pool.workers);
  }

  lemma SamePending(e: Env, g: Global, i: nat, a: Action)
    requires Enabled(e, g, i, a) && Knowledge(e, g.scrapes[i]) && !a.PoolStep?
    ensures PendingIn(Step(e, g, g.scrapes[i], a)) == PendingIn(g.scrapes[i])
  {
    if a.PoolReturn? {
      ReturnedHasNothingPending(e, g.scrapes[i]);
    } else {
      NeverInPool(e, g, i, a);
    }
  }

  /** Steps outside the pool neither leave a running pool nor make one with workers. */
  lemma NeverInPool(e: Env, g: Global, i: nat, a: Action)
    requires Enabled(e, g, i, a) && !a.PoolStep? && !a.PoolReturn?
    ensures !g.scrapes[i].phase.Sweeping?
    ensures var p := Step(e, g, g.scrapes[i], a).phase; p.Sweeping? ==> p.pool == WorkerPool.INIT
  {}

  lemma DriftKept(e: Env, g: Global, i: nat, a: Action)
    requires Enabled(e, g, i, a) && Knowledge(e, g.scrapes[i]) && DriftBalanced(g)
    ensures DriftBalanced(Apply(e, g, i, a))
  {
    var s, t := g.scrapes[i], Step(e, g, g.scrapes[i], a);
    if a.PoolStep? {
      var pool := s.phase.pool;
      var bumped, begun := BumpedBy(pool, a.step), SeqSum(BegunBy(pool, a.step), KeysOf);
      PoolPending(PoolConfig(e, s), pool, a.step);
      SeqSumUpdate(g.scrapes, i, t, PendingIn);
      Exchange(SeqSum(g.scrapes, PendingIn), PendingIn(s), PendingIn(t), bumped, begun);
      SeqSumConcat(g.normalised, BegunBy(pool, a.step), KeysOf);
      Balance(g.drift, SeqSum(g.scrapes, PendingIn), SeqSum(g.normalised, KeysOf), bumped, begun,
              SeqSum(g.scrapes[i := t], PendingIn));
    } else {
      SamePending(e, g, i, a);
      PendingKeptElsewhere(g.scrapes, i, t);
      DriftUntouched(e, g, i, a);
    }
  }

  lemma DriftUntouched(e: Env, g: Global, i: nat, a: Action)
    requires Enabled(e, g, i, a) && !a.PoolStep?
    ensures Apply(e, g, i, a).drift == g.drift && Apply(e, g, i, a).normalised == g.normalised
    ensures Apply(e, g, i, a).scrapes == g.scrapes[i := Step(e, g, g.scrapes[i], a)]
  {}

  // ------------------------------------------------------------------- lock

  lemma LockKept(e: Env, g: Global, i: nat, a: Action)
    requires Enabled(e, g, i, a) && Locked(g)
    ensures Locked(Apply(e, g, i, a))
  {
    if a.LockDrift? || a.UnlockDrift? {
      LockMoves(e, g, i, a);
    } else {
      HoldingStays(e, g, i, a);
      LockUntouched(e, g, i, a);
    }
  }

  lemma LockMoves(e: Env, g: Global, i: nat, a: Action)
    requires Enabled(e, g, i, a) && Locked(g) && (a.LockDrift? || a.UnlockDrift?)
    ensures Locked(Apply(e, g, i, a))
  {}

  lemma HoldingStays(e: Env, g: Global, i: nat, a: Action)
    requires Enabled(e, g, i, a) && !a.LockDrift? && !a.UnlockDrift?
    ensures Holds(Step(e, g, g.scrapes[i], a)) <==> Holds(g.scrapes[i])
  {
    match a
    case SendLibraries(batch) =>
    case SendDrift(batch) =>
    case NodesReply(r, batch) =>
    case StatusReply(r) =>
    case GeneralReply(r) =>
    case LibrariesReply(r, sorted) =>
    case _ =>
  }

  lemma LockUntouched(e: Env, g: Global, i: nat, a: Action)
    requires Enabled(e, g, i, a) && !a.LockDrift? && !a.UnlockDrift?
    ensures Apply(e, g, i, a).holder == g.holder
    ensures Apply(e, g, i, a).scrapes == g.scrapes[i := Step(e, g, g.scrapes[i], a)]
  {}

  // -------------------------------------------------------------- invariant

  lemma OwnKept(e: Env, g: Global, i: nat, a: Action)
    requires Enabled(e, g, i, a) && Coherent(e, g.cache) && e.maxConcurrency >= 1
    requires ScrapeInv(e, g.sweeps, g.scrapes[i]) && FromOneSweep(g.cache, g.sweeps)
    ensures ScrapeInv(e, Apply(e, g, i, a).sweeps, Step(e, g, g.scrapes[i], a))
  {
    KnowledgeKept(e, g, i, a);
    EmittedKept(e, g, i, a);
    ContentsKept(e, g, i, a);
    RecordedKept(e, g, i, a);
  }

  lemma InvKept(e: Env, g: Global, i: nat, a: Action)
    requires Inv(e, g) && Enabled(e, g, i, a) && e.maxConcurrency >= 1
    ensures Inv(e, Apply(e, g, i, a))
  {
    var h := Apply(e, g, i, a);
    assert ScrapeInv(e, g.sweeps, g.scrapes[i]);
    CacheKept(e, g, i, a);
    DriftKept(e, g, i, a);
    LockKept(e, g, i, a);
    forall j | 0 <= j < |h.scrapes| ensures ScrapeInv(e, h.sweeps, h.scrapes[j]) {
      if j == i {
        OwnKept(e, g, i, a);
      } else {
        OthersKept(e, g, i, a, j);
      }
    }
  }

  lemma MoveKeeps(e: Env, states: seq<Global>, moves: seq<Move>, k: nat)
    requires IsPath(e, states, moves) && 0 < k <= |moves| && Inv(e, states[k - 1]) && e.maxConcurrency >= 1
    ensures Inv(e, states[k])
  {
    assert StepAt(e, states, moves, k - 1);
    InvKept(e, states[k - 1], moves[k - 1].actor, moves[k - 1].action);
  }

  lemma {:induction false} Along(states: seq<Global>, p: Global -> bool, k: nat)
    requires k < |states| && p(states[0])
    requires forall j :: 0 < j < |states| && p(states[j - 1]) ==> p(states[j])
    ensures p(states[k])
  {
    if k > 0 { Along(states, p, k - 1); }
  }

  lemma InvAt(e: Env, states: seq<Global>, moves: seq<Move>, k: nat)
    requires IsPath(e, states, moves) && k <= |moves| && Inv(e, states[0]) && e.maxConcurrency >= 1
    ensures Inv(e, states[k])
  {
    forall j | 0 < j < |states| && Inv(e, states[j - 1]) ensures Inv(e, states[j]) {
      MoveKeeps(e, states, moves, j);
    }
    Along(states, g => Inv(e, g), k);
  }

  /** In every interleaving of any number of scrapes, every reachable state is
      coherent: the cache is empty or one complete sweep, each scrape's pies match
      its own library list, and no unknown label is lost or counted twice. */
  lemma ReachableInv(e: Env, g: Global)
    requires Reachable(e, g) && e.maxConcurrency >= 1
    ensures Inv(e, g)
  {
    var states: seq<Global>, moves: seq<Move> :| LeadsTo(e, states, moves, g);
    StartInv(e, |states[0].scrapes|);
    InvAt(e, states, moves, |moves|);
  }
}
