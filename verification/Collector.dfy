/** One scrape as the code runs it, step by step (Collect, collect and fetchPies in
  internal/collector/tdarr.go).

  The methods work on the collector's cache and counters and on the channel.  Beside
  them runs a ghost state of the transition system of overlapping scrapes, and every
  method says which step of a scrape it is.  So what the code sends is the trace of a
  scrape of that system, and everything proved about all its runs holds of it. */
module Collector {
  import opened Models
  import opened Folds
  import opened StatusEnums
  import opened Fingerprint
  import opened Series
  import WorkerPool
  import WorkerPoolTheorems
  import opened ScrapeEngine
  import opened ScrapeInvariants
  import opened ScrapeTheorems
  import opened RepeatScrapes
  import opened ScrapeProgress

  /** What the upstream says to one scrape, its get-pies requests apart. */
  datatype Replies = Replies(
    status: Reply<ServerStatus>, general: Reply<GeneralStats>,
    list: Reply<seq<Library>>, nodes: Reply<map<string, Node>>)

  predicate AllFine(r: Replies) {
    && r.status.Fine? && r.general.Fine? && r.general.value.score.Some? && r.general.value.healthScore.Some?
    && r.list.Fine? && r.nodes.Fine?
  }

  /** The scrape knows what it was told, and gave up only for a reason. */
  ghost predicate FedBy(s: Scrape, r: Replies) {
    && (s.status.Some? ==> r.status == Fine(s.status.value))
    && (s.metric.Some? ==> r.general == Fine(s.metric.value))
    && (AfterList(s) ==> r.list == Fine(s.libs))
    && (|s.groups| == 5 ==> r.nodes == Fine(s.nodes))
    && (s.broken ==> !AllFine(r))
  }

  lemma {:induction false} FlatSnoc(groups: seq<Group>, more: Group)
    ensures Flat(groups + [more]) == Flat(groups) + more.samples
  {
    if groups == [] {
      assert [more][1..] == [];
    } else {
      assert (groups + [more])[1..] == groups[1..] + [more];
      FlatSnoc(groups[1..], more);
    }
  }

  /** The steps, in order, are a whole run of a worker pool. */
  predicate Plays(c: WorkerPool.Config, pool: WorkerPool.State, steps: seq<WorkerPool.Action>)
    decreases |steps|
  {
    if steps == [] then pool.main == WorkerPool.Returned
    else WorkerPool.Enabled(c, pool, steps[0]) && Plays(c, WorkerPool.Apply(c, pool, steps[0]), steps[1..])
  }

  /** The step gives the scrape what the upstream said. */
  predicate Told(a: Action, r: Replies) {
    match a
    case StatusReply(status) => status == r.status
    case GeneralReply(general) => general == r.general
    case LibrariesReply(list, _) => list == r.list
    case NodesReply(nodes, _) => nodes == r.nodes
    case _ => true
  }

  lemma StaysFed(e: Env, g: Global, i: nat, a: Action, r: Replies)
    requires Enabled(e, g, i, a) && FedBy(g.scrapes[i], r) && Told(a, r)
    requires Knowledge(e, g.scrapes[i]) && GroupCount(g.scrapes[i])
    ensures FedBy(Step(e, g, g.scrapes[i], a), r)
  {
    if a.StatusReply? || a.GeneralReply? || a.LibrariesReply? {
      AskingStaysFed(e, g, i, a, r);
    } else if a.ReadCache? || a.PoolStep? || a.PoolReturn? {
      SweepingStaysFed(e, g, i, a, r);
    } else {
      SendingStaysFed(e, g, i, a, r);
    }
  }

  lemma AskingStaysFed(e: Env, g: Global, i: nat, a: Action, r: Replies)
    requires Enabled(e, g, i, a) && FedBy(g.scrapes[i], r) && Told(a, r) && GroupCount(g.scrapes[i])
    requires a.StatusReply? || a.GeneralReply? || a.LibrariesReply?
    ensures FedBy(Step(e, g, g.scrapes[i], a), r)
  {}

  lemma SweepingStaysFed(e: Env, g: Global, i: nat, a: Action, r: Replies)
    requires Enabled(e, g, i, a) && FedBy(g.scrapes[i], r)
    requires a.ReadCache? || a.PoolStep? || a.PoolReturn?
    ensures FedBy(Step(e, g, g.scrapes[i], a), r)
  {}

  lemma SendingStaysFed(e: Env, g: Global, i: nat, a: Action, r: Replies)
    requires Enabled(e, g, i, a) && FedBy(g.scrapes[i], r) && Told(a, r) && GroupCount(g.scrapes[i])
    requires Late(a)
    ensures FedBy(Step(e, g, g.scrapes[i], a), r)
  {
    LateStep(e, g, i, a);
  }

  /** One step of the scrape, on the model's side. */
  lemma Advance(e: Env, g: Global, i: nat, a: Action, r: Replies)
    requires Reachable(e, g) && e.maxConcurrency >= 1 && Enabled(e, g, i, a)
    requires FedBy(g.scrapes[i], r) && Told(a, r)
    ensures var h := Apply(e, g, i, a);
            && Reachable(e, h) && i < |h.scrapes| && h.scrapes[i] == Step(e, g, g.scrapes[i], a)
            && FedBy(h.scrapes[i], r)
  {
    KnowsOwn(e, g, i);
    StaysFed(e, g, i, a, r);
    ReachMore(e, g, i, a);
    ScrapesAfter(e, g, i, a);
  }

  /** What a step sends on the channel before the scrape's last sample. */
  function SentBy(a: Action, s: Scrape): seq<Sample>
    requires a.SendLibraries? ==> s.metric.Some? && s.metric.value.score.Some? && s.metric.value.healthScore.Some?
  {
    match a
    case StatusReply(r) => if r.Fine? then ServerSeries(r.value) else []
    case SendLibraries(batch) =>
      GeneralSeries(s.metric.value, s.metric.value.score.value, s.metric.value.healthScore.value) + batch
    case SendDrift(batch) => batch
    case NodesReply(r, batch) => if r.Fine? then batch else []
    case _ => []
  }

  lemma StepSends(e: Env, g: Global, i: nat, a: Action)
    requires Enabled(e, g, i, a)
    ensures Flat(Step(e, g, g.scrapes[i], a).groups) == Flat(g.scrapes[i].groups) + SentBy(a, g.scrapes[i])
  {
    var s := g.scrapes[i];
    match a
    case StatusReply(r) =>
      if r.Fine? { FlatSnoc(s.groups, Group(ServerSection, ServerSeries(r.value))); }
    case SendLibraries(batch) => LibrariesSend(e, g, i, batch);
    case SendDrift(batch) => FlatSnoc(s.groups, Group(DriftSection, batch));
    case NodesReply(r, batch) =>
      if r.Fine? { FlatSnoc(s.groups, Group(NodeSection, batch)); }
    case _ => SilentStep(e, g, i, a);
  }

  lemma SilentStep(e: Env, g: Global, i: nat, a: Action)
    requires Enabled(e, g, i, a) && !(a.StatusReply? || a.SendLibraries? || a.SendDrift? || a.NodesReply?)
    ensures Step(e, g, g.scrapes[i], a).groups == g.scrapes[i].groups
  {}

  lemma LibrariesSend(e: Env, g: Global, i: nat, batch: seq<Sample>)
    requires Enabled(e, g, i, SendLibraries(batch))
    ensures Flat(Step(e, g, g.scrapes[i], SendLibraries(batch)).groups)
            == Flat(g.scrapes[i].groups) + SentBy(SendLibraries(batch), g.scrapes[i])
  {
    var m := g.scrapes[i].metric.value;
    FlatTwo(g.scrapes[i].groups, Group(GeneralSection, GeneralSeries(m, m.score.value, m.healthScore.value)),
            Group(LibrarySection, batch));
  }

  lemma FlatTwo(groups: seq<Group>, x: Group, y: Group)
    ensures Flat(groups + [x, y]) == Flat(groups) + (x.samples + y.samples)
  {
    FlatSnoc(groups, x);
    FlatSnoc(groups + [x], y);
    assert groups + [x] + [y] == groups + [x, y];
  }

  /** No other scrape holds the counters' lock. */
  ghost predicate LockFor(g: Global, i: nat) {
    g.holder.Some? ==> g.holder.value == i
  }

  lemma LockStaysFor(e: Env, g: Global, i: nat, a: Action)
    requires Enabled(e, g, i, a) && LockFor(g, i)
    ensures LockFor(Apply(e, g, i, a), i)
  {
    if !a.LockDrift? && !a.UnlockDrift? { LockUntouched(e, g, i, a); }
  }

  lemma LockFree(e: Env, g: Global, i: nat)
    requires Reachable(e, g) && e.maxConcurrency >= 1 && i < |g.scrapes| && LockFor(g, i) && !Holds(g.scrapes[i])
    ensures g.holder == None
  {
    LockFacts(e, g);
  }

  /** The steps that touch neither the cache nor the counters. */
  lemma SharedUntouched(e: Env, g: Global, i: nat, a: Action)
    requires Enabled(e, g, i, a) && !a.PoolStep? && !a.WriteCache?
    ensures Apply(e, g, i, a).cache == g.cache && Apply(e, g, i, a).drift == g.drift
  {}

  /** Since the channel held `start`, exactly the scrape's groups have been sent. */
  ghost predicate Shown(ch: Channel, start: seq<Sample>, s: Scrape)
    reads ch
  {
    ch.sent == start + Flat(s.groups)
  }

  /** The scrape is in its fan-out, with its pool at `pool`. */
  ghost predicate FansOut(e: Env, c: WorkerPool.Config, pool: WorkerPool.State, s: Scrape) {
    s.phase == Sweeping(pool) && s.metric.Some? && c == PoolConfig(e, s)
  }

  lemma PoolMoves(e: Env, c: WorkerPool.Config, g: Global, i: nat, step: WorkerPool.Action, r: Replies)
    requires Reachable(e, g) && e.maxConcurrency >= 1 && i < |g.scrapes| && FedBy(g.scrapes[i], r)
    requires g.scrapes[i].phase.Sweeping? && FansOut(e, c, g.scrapes[i].phase.pool, g.scrapes[i])
    requires WorkerPool.Enabled(c, g.scrapes[i].phase.pool, step) && LockFor(g, i)
    ensures Enabled(e, g, i, PoolStep(step))
    ensures var h, pool := Apply(e, g, i, PoolStep(step)), g.scrapes[i].phase.pool;
            && Reachable(e, h) && i < |h.scrapes| && FedBy(h.scrapes[i], r)
            && h.scrapes[i] == g.scrapes[i].(phase := Sweeping(WorkerPool.Apply(c, pool, step)))
            && h.cache == g.cache && h.drift == g.drift + BumpedBy(pool, step) && LockFor(h, i)
  {
    LockFree(e, g, i);
    LockStaysFor(e, g, i, PoolStep(step));
    Advance(e, g, i, PoolStep(step), r);
  }

  function PoolFor(e: Env, metric: GeneralStats, libs: seq<Library>): WorkerPool.Config {
    WorkerPool.CodeConfig(libs, e.maxConcurrency, TotalsFromMetric(metric), e.upstream)
  }

  /** Should the scrape need its fan-out, `steps` is a schedule for all of it. */
  predicate Scheduled(e: Env, r: Replies, steps: seq<WorkerPool.Action>) {
    r.general.Fine? && r.list.Fine? ==> Plays(PoolFor(e, r.general.value, r.list.value), WorkerPool.INIT, steps)
  }

  /** The scrape's inputs are the code's local variables. */
  ghost predicate Given(metric: GeneralStats, libs: seq<Library>, fingerprint: seq<Library>, s: Scrape) {
    s.metric == Some(metric) && s.libs == libs && s.fingerprint == fingerprint
  }

  /** The scrape has the pies the code has, and has sent nothing on the way. */
  ghost predicate HasGathered(s: Scrape, t: Scrape, pies: seq<Pie>, partial: bool) {
    && t.phase == SendingLibraries && PiesOf(t.stats) == pies && t.partial == partial && !t.broken
    && t.groups == s.groups && t.metric == s.metric
  }

  lemma ReturnedInHeap(e: Env, g: Global, i: nat, pool: WorkerPool.State)
    requires Reachable(e, g) && e.maxConcurrency >= 1 && i < |g.scrapes|
    requires g.scrapes[i].phase == Sweeping(pool)
    ensures WorkerPool.InHeap(pool) && !g.scrapes[i].broken
  {
    ScrapeFacts(e, g, i);
  }

  /** A scrape that decides has not broken off and has no partial sweep behind it. */
  lemma DecidedFreely(e: Env, g: Global, i: nat)
    requires Reachable(e, g) && e.maxConcurrency >= 1 && i < |g.scrapes| && g.scrapes[i].phase.Deciding?
    ensures !g.scrapes[i].broken && !g.scrapes[i].partial
  {
    ScrapeFacts(e, g, i);
  }

  lemma WriteMoves(e: Env, g: Global, i: nat, r: Replies)
    requires Reachable(e, g) && e.maxConcurrency >= 1 && i < |g.scrapes| && FedBy(g.scrapes[i], r)
    requires g.scrapes[i].phase.Storing? && g.scrapes[i].metric.Some?
    ensures Enabled(e, g, i, WriteCache)
    ensures var h, s := Apply(e, g, i, WriteCache), g.scrapes[i];
            && Reachable(e, h) && i < |h.scrapes| && FedBy(h.scrapes[i], r)
            && h.scrapes[i] == s.(phase := SendingLibraries) && h.drift == g.drift
            && h.cache == Snapshot(TotalsFromMetric(s.metric.value), s.stats, s.fingerprint) && h.holder == g.holder
  {
    Advance(e, g, i, WriteCache, r);
  }

  lemma Cancel<T>(a: multiset<T>, x: multiset<T>, y: multiset<T>)
    requires a + x == a + y
    ensures x == y
  {
    forall t ensures x[t] == y[t] { assert (a + x)[t] == (a + y)[t]; }
  }

  /** A group's samples, in the order they were sent. */
  lemma Since(before: seq<Sample>, now: seq<Sample>, bag: multiset<Sample>) returns (batch: seq<Sample>)
    requires before <= now && Bagged(now) == Bagged(before) + bag
    ensures now == before + batch && Bagged(batch) == bag
  {
    batch := now[|before|..];
    assert now == before + batch;
    BaggedConcat(before, batch);
    Cancel(Bagged(before), Bagged(batch), bag);
  }

  lemma NodesStep(e: Env, g: Global, i: nat, a: Action)
    requires Reachable(e, g) && e.maxConcurrency >= 1 && Enabled(e, g, i, a) && a.NodesReply?
    ensures var s, t := g.scrapes[i], Step(e, g, g.scrapes[i], a);
            t.phase == Reporting && t.partial == s.partial && t.broken == !a.nodes.Fine?
  {
    ScrapeFacts(e, g, i);
  }

  /** A run from `from` to `g` in which only scrape `i` moves. */
  ghost predicate LedBy(e: Env, states: seq<Global>, moves: seq<Move>, from: Global, g: Global, i: nat) {
    IsPath(e, states, moves) && states[0] == from && states[|moves|] == g && Alone(moves, i, 0, |moves|)
  }

  ghost predicate Onward(e: Env, from: Global, g: Global, i: nat) {
    exists states: seq<Global>, moves: seq<Move> :: LedBy(e, states, moves, from, g, i)
  }

  lemma NotYet(e: Env, g: Global, i: nat)
    ensures Onward(e, g, g, i)
  {
    assert LedBy(e, [g], [], g, g, i);
  }

  lemma FurtherOn(e: Env, from: Global, g: Global, i: nat, a: Action)
    requires Onward(e, from, g, i) && Enabled(e, g, i, a)
    ensures Onward(e, from, Apply(e, g, i, a), i)
  {
    var states: seq<Global>, moves: seq<Move> :| LedBy(e, states, moves, from, g, i);
    var states', moves' := states + [Apply(e, g, i, a)], moves + [Move(i, a)];
    forall k | 0 <= k < |moves'| ensures StepAt(e, states', moves', k) {
      if k < |moves| { assert StepAt(e, states, moves, k); }
    }
    assert LedBy(e, states', moves', from, Apply(e, g, i, a), i);
  }

  /** A finished scrape broke off exactly when an upstream call, or the parsing of a
      score, failed; so `tdarr_up` is 1 exactly when all of them went well and no
      library was dropped. */
  lemma UpIff(e: Env, g: Global, i: nat, r: Replies)
    requires Reachable(e, g) && e.maxConcurrency >= 1 && i < |g.scrapes|
    requires FedBy(g.scrapes[i], r) && g.scrapes[i].phase.Done?
    ensures g.scrapes[i].broken <==> !AllFine(r)
    ensures g.scrapes[i].up == Some(if AllFine(r) && g.scrapes[i].dropped == multiset{} then 1.0 else 0.0)
  {
    ScrapeFacts(e, g, i);
  }

  /** Every pool the code can start has a whole schedule. */
  lemma {:induction false} SomeSchedule(c: WorkerPool.Config, pool: WorkerPool.State) returns (steps: seq<WorkerPool.Action>)
    requires WorkerPool.Inv(c, pool) && c.workers >= 1 && c.inCap == |c.libs|
    ensures Plays(c, pool, steps)
    decreases WorkerPoolTheorems.Work(c, pool) + 1, WorkerPoolTheorems.Bumps(pool)
  {
    if pool.main == WorkerPool.Returned {
      steps := [];
    } else {
      var step := WorkerPoolTheorems.SomeStep(c, pool);
      var next := WorkerPool.Apply(c, pool, step);
      WorkerPool.InvKept(c, pool, step);
      WorkerPoolTheorems.StepShrinks(c, pool, step);
      var rest := SomeSchedule(c, next);
      steps := [step] + rest;
      assert steps[1..] == rest;
    }
  }

  class TdarrCollector {
    const env: Env
    const cache: LibStatsCache
    const drift: DriftCounters

    constructor (env: Env)
      ensures this.env == env && fresh(cache) && fresh(drift)
      ensures cache.snap == EMPTY && drift.Valid() && drift.bumps == multiset{}
    {
      this.env := env;
      cache := new LibStatsCache();
      drift := new DriftCounters();
    }

    /** The collector's objects hold what state `g` says. */
    ghost predicate Mirrors(g: Global)
      reads cache, drift
    {
      cache.snap == g.cache && drift.Valid() && drift.bumps == g.drift
    }

    /** Scrape `i` of `g` is the one the code is running, fed by `r`; it alone has
        moved since `from`, and nobody else holds the counters' lock. */
    ghost predicate Runs(from: Global, g: Global, i: nat, r: Replies)
      reads cache, drift
    {
      Reachable(env, from) && Onward(env, from, g, i) && Reachable(env, g)
      && env.maxConcurrency >= 1 && i < |g.scrapes| && Mirrors(g) && FedBy(g.scrapes[i], r) && LockFor(g, i)
    }

    lemma Steps(from: Global, g: Global, i: nat, a: Action, r: Replies)
      requires Runs(from, g, i, r) && Enabled(env, g, i, a) && Told(a, r) && !a.PoolStep? && !a.WriteCache?
      ensures var h := Apply(env, g, i, a);
              && Runs(from, h, i, r) && h.scrapes[i] == Step(env, g, g.scrapes[i], a)
              && Flat(h.scrapes[i].groups) == Flat(g.scrapes[i].groups) + SentBy(a, g.scrapes[i])
    {
      Advance(env, g, i, a, r);
      FurtherOn(env, from, g, i, a);
      SharedUntouched(env, g, i, a);
      LockStaysFor(env, g, i, a);
      StepSends(env, g, i, a);
    }

    // ----------------------------------------------------------- the requests

    method GetStatus(r: Replies, ch: Channel, ghost start: seq<Sample>, ghost from: Global, ghost g: Global, ghost i: nat)
      returns (ok: bool, ghost h: Global)
      requires Runs(from, g, i, r) && Shown(ch, start, g.scrapes[i]) && g.scrapes[i].phase.AskStatus?
      modifies ch
      ensures Runs(from, h, i, r) && Shown(ch, start, h.scrapes[i])
      ensures ok == r.status.Fine?
      ensures if ok then h.scrapes[i].phase == AskGeneral else h.scrapes[i].phase == Reporting && h.scrapes[i].broken
    {
      ok := r.status.Fine?;
      if ok {
        EmitServerMetrics(ch, r.status.value);
      }
      ghost var a := StatusReply(r.status);
      h := Apply(env, g, i, a);
      Steps(from, g, i, a, r);
      SeqAssoc(start, Flat(g.scrapes[i].groups), SentBy(a, g.scrapes[i]));
    }

    method GetGeneral(r: Replies, ghost from: Global, ghost g: Global, ghost i: nat) returns (ok: bool, ghost h: Global)
      requires Runs(from, g, i, r) && g.scrapes[i].phase.AskGeneral?
      ensures Runs(from, h, i, r) && h.scrapes[i].groups == g.scrapes[i].groups
      ensures if ok then h.scrapes[i].phase == AskLibraries else h.scrapes[i].phase == Reporting && h.scrapes[i].broken
      ensures ok <==> r.general.Fine? && r.general.value.score.Some? && r.general.value.healthScore.Some?
      ensures ok ==> h.scrapes[i].metric == Some(r.general.value)
    {
      ok := r.general.Fine? && r.general.value.score.Some? && r.general.value.healthScore.Some?;
      h := Apply(env, g, i, GeneralReply(r.general));
      Steps(from, g, i, GeneralReply(r.general), r);
      SilentStep(env, g, i, GeneralReply(r.general));
    }

    method GetLibraries(r: Replies, ghost from: Global, ghost g: Global, ghost i: nat)
      returns (ok: bool, fingerprint: seq<Library>, ghost h: Global)
      requires Runs(from, g, i, r) && g.scrapes[i].phase.AskLibraries?
      ensures Runs(from, h, i, r) && h.scrapes[i].groups == g.scrapes[i].groups && h.scrapes[i].metric == g.scrapes[i].metric
      ensures if ok then h.scrapes[i].phase == Deciding else h.scrapes[i].phase == Reporting && h.scrapes[i].broken
      ensures ok == r.list.Fine?
      ensures ok ==> h.scrapes[i].libs == r.list.value && h.scrapes[i].fingerprint == fingerprint
    {
      ok, fingerprint := r.list.Fine?, [];
      if ok {
        var libs := r.list.value;
        var list := new Library[|libs|](k requires 0 <= k < |libs| => libs[k]);
        assert list[..] == libs;
        var sorted := LibraryFingerprint(list);
        fingerprint := sorted[..];
      }
      h := Apply(env, g, i, LibrariesReply(r.list, fingerprint));
      Steps(from, g, i, LibrariesReply(r.list, fingerprint), r);
      SilentStep(env, g, i, LibrariesReply(r.list, fingerprint));
    }

    // --------------------------------------------------------------- the pies

    /** One step of one goroutine; only a counter bump reaches beyond the pool. */
    method StepPool(c: WorkerPool.Config, pool: WorkerPool.State, step: WorkerPool.Action,
                    ghost r: Replies, ghost from: Global, ghost g: Global, ghost i: nat)
      returns (next: WorkerPool.State, ghost h: Global)
      requires Runs(from, g, i, r) && FansOut(env, c, pool, g.scrapes[i]) && WorkerPool.Enabled(c, pool, step)
      modifies drift
      ensures next == WorkerPool.Apply(c, pool, step) && h.cache == g.cache
      ensures Runs(from, h, i, r) && h.scrapes[i] == g.scrapes[i].(phase := Sweeping(next))
    {
      if step.Bump? {
        var key := pool.workers[step.i].todo[0];
        drift.Bump(key.kind, key.status);
      }
      PoolMoves(env, c, g, i, step, r);
      FurtherOn(env, from, g, i, PoolStep(step));
      h := Apply(env, g, i, PoolStep(step));
      next := WorkerPool.Apply(c, pool, step);
    }

    /** The fan-out, under whatever schedule `steps` is. */
    method FetchPies(c: WorkerPool.Config, steps: seq<WorkerPool.Action>,
                     ghost r: Replies, ghost from: Global, ghost g: Global, ghost i: nat)
      returns (pool: WorkerPool.State, ghost h: Global)
      requires Runs(from, g, i, r) && FansOut(env, c, WorkerPool.INIT, g.scrapes[i]) && Plays(c, WorkerPool.INIT, steps)
      modifies drift
      ensures Runs(from, h, i, r) && h.scrapes[i] == g.scrapes[i].(phase := Sweeping(pool))
      ensures pool.main == WorkerPool.Returned && h.cache == g.cache
    {
      pool, h := WorkerPool.INIT, g;
      for k := 0 to |steps|
        invariant Plays(c, pool, steps[k..]) && Runs(from, h, i, r) && h.cache == g.cache
        invariant h.scrapes[i] == g.scrapes[i].(phase := Sweeping(pool))
      {
        assert steps[k..][0] == steps[k] && steps[k..][1..] == steps[k + 1..];
        pool, h := StepPool(c, pool, steps[k], r, from, h, i);
      }
    }

    /** The fan-out's result; a complete one is cached. */
    method Sweep(steps: seq<WorkerPool.Action>, metric: GeneralStats, libs: seq<Library>, fingerprint: seq<Library>,
                 ghost r: Replies, ghost from: Global, ghost g: Global, ghost i: nat)
      returns (pies: seq<Pie>, partial: bool, ghost h: Global)
      requires Runs(from, g, i, r) && g.scrapes[i].phase == Sweeping(WorkerPool.INIT) && Given(metric, libs, fingerprint, g.scrapes[i])
      requires Plays(PoolFor(env, metric, libs), WorkerPool.INIT, steps)
      modifies cache, drift
      ensures Runs(from, h, i, r) && HasGathered(g.scrapes[i], h.scrapes[i], pies, partial)
    {
      var pool;
      pool, h := FetchPies(PoolFor(env, metric, libs), steps, r, from, g, i);
      ReturnedInHeap(env, h, i, pool);
      pies, partial := WorkerPool.Result(pool), pool.partial;
      Steps(from, h, i, PoolReturn, r);
      SilentStep(env, h, i, PoolReturn);
      StatsKeepPies(pies);
      h := Apply(env, h, i, PoolReturn);
      if !partial {
        cache.Write(Snapshot(TotalsFromMetric(metric), StatsOf(pies), fingerprint));
        WriteMoves(env, h, i, r);
        FurtherOn(env, from, h, i, WriteCache);
        h := Apply(env, h, i, WriteCache);
      }
    }

    /** From the cache or from a sweep. */
    method GatherPies(steps: seq<WorkerPool.Action>, metric: GeneralStats, libs: seq<Library>, fingerprint: seq<Library>,
                      ghost r: Replies, ghost from: Global, ghost g: Global, ghost i: nat)
      returns (pies: seq<Pie>, partial: bool, ghost h: Global)
      requires Runs(from, g, i, r) && g.scrapes[i].phase == Deciding && Given(metric, libs, fingerprint, g.scrapes[i])
      requires Plays(PoolFor(env, metric, libs), WorkerPool.INIT, steps)
      modifies cache, drift
      ensures Runs(from, h, i, r) && HasGathered(g.scrapes[i], h.scrapes[i], pies, partial)
    {
      var cached := cache.Read();
      h := Apply(env, g, i, ReadCache);
      Steps(from, g, i, ReadCache, r);
      SilentStep(env, g, i, ReadCache);
      DecidedFreely(env, g, i);
      if ShouldRefetch(cached, metric, fingerprint) {
        pies, partial, h := Sweep(steps, metric, libs, fingerprint, r, from, h, i);
      } else {
        pies, partial := PiesOf(cached.stats), false;
      }
    }

    // ---------------------------------------------------------- the emissions

    method SendPies(ch: Channel, metric: GeneralStats, pies: seq<Pie>,
                    ghost start: seq<Sample>, ghost r: Replies, ghost from: Global, ghost g: Global, ghost i: nat)
      returns (ghost h: Global)
      requires Runs(from, g, i, r) && Shown(ch, start, g.scrapes[i]) && g.scrapes[i].phase == SendingLibraries
      requires g.scrapes[i].metric == Some(metric) && metric.score.Some? && metric.healthScore.Some?
      requires PiesOf(g.scrapes[i].stats) == pies
      modifies ch
      ensures Runs(from, h, i, r) && Shown(ch, start, h.scrapes[i]) && h.scrapes[i].phase == LockingDrift
      ensures h.scrapes[i].partial == g.scrapes[i].partial
    {
      EmitGeneralMetrics(ch, metric, metric.score.value, metric.healthScore.value);
      ghost var middle := ch.sent;
      EmitPieMetrics(ch, pies);
      ghost var batch := Since(middle, ch.sent, PiesSeries(pies));
      ghost var a := SendLibraries(batch);
      h := Apply(env, g, i, a);
      Steps(from, g, i, a, r);
      ghost var shown, general := Flat(g.scrapes[i].groups), GeneralSeries(metric, metric.score.value, metric.healthScore.value);
      SeqAssoc(start + shown, general, batch);
      SeqAssoc(start, shown, general + batch);
    }

    method SendCounters(ch: Channel, ghost start: seq<Sample>, ghost r: Replies, ghost from: Global, ghost g: Global, ghost i: nat)
      returns (ghost h: Global)
      requires Runs(from, g, i, r) && Shown(ch, start, g.scrapes[i]) && g.scrapes[i].phase == LockingDrift
      modifies ch
      ensures Runs(from, h, i, r) && Shown(ch, start, h.scrapes[i]) && h.scrapes[i].phase == AskNodes
      ensures h.scrapes[i].partial == g.scrapes[i].partial
    {
      LockFree(env, g, i);
      h := Apply(env, g, i, LockDrift);
      Steps(from, g, i, LockDrift, r);
      ghost var locked, before := h, ch.sent;
      EmitDrift(ch, drift);
      ghost var batch := Since(before, ch.sent, DriftSeries(drift.bumps));
      ghost var a := SendDrift(batch);
      h := Apply(env, locked, i, a);
      Steps(from, locked, i, a, r);
      SeqAssoc(start, Flat(locked.scrapes[i].groups), batch);
      ghost var sent := h;
      h := Apply(env, sent, i, UnlockDrift);
      Steps(from, sent, i, UnlockDrift, r);
    }

    method SendNodes(ch: Channel, r: Replies, ghost start: seq<Sample>, ghost from: Global, ghost g: Global, ghost i: nat)
      returns (ok: bool, ghost h: Global)
      requires Runs(from, g, i, r) && Shown(ch, start, g.scrapes[i]) && g.scrapes[i].phase.AskNodes?
      modifies ch
      ensures Runs(from, h, i, r) && Shown(ch, start, h.scrapes[i]) && h.scrapes[i].phase == Reporting
      ensures h.scrapes[i].partial == g.scrapes[i].partial && h.scrapes[i].broken == !ok
    {
      ghost var before, batch := ch.sent, [];
      ok := r.nodes.Fine?;
      if ok {
        EmitNodeMetrics(ch, r.nodes.value);
        batch := Since(before, ch.sent, NodesSeries(r.nodes.value));
      }
      ghost var a := NodesReply(r.nodes, batch);
      h := Apply(env, g, i, a);
      NodesStep(env, g, i, a);
      Steps(from, g, i, a, r);
      SeqAssoc(start, Flat(g.scrapes[i].groups), SentBy(a, g.scrapes[i]));
    }

    // ------------------------------------------------------------- the scrape

    /** Status, totals, libraries: true as soon as one of them fails. */
    method GetInputs(r: Replies, ch: Channel, ghost start: seq<Sample>, ghost from: Global, ghost g: Global, ghost i: nat)
      returns (failed: bool, fingerprint: seq<Library>, ghost h: Global)
      requires Runs(from, g, i, r) && Shown(ch, start, g.scrapes[i]) && g.scrapes[i].phase.AskStatus?
      modifies ch
      ensures Runs(from, h, i, r) && Shown(ch, start, h.scrapes[i])
      ensures failed ==> h.scrapes[i].phase == Reporting && h.scrapes[i].broken
      ensures !failed ==> h.scrapes[i].phase == Deciding && r.general.Fine? && r.list.Fine?
                          && r.general.value.score.Some? && r.general.value.healthScore.Some?
                          && Given(r.general.value, r.list.value, fingerprint, h.scrapes[i])
    {
      var ok;
      ok, h := GetStatus(r, ch, start, from, g, i);
      if !ok { return true, [], h; }
      ok, h := GetGeneral(r, from, h, i);
      if !ok { return true, [], h; }
      ok, fingerprint, h := GetLibraries(r, from, h, i);
      failed := !ok;
    }

    /** collect: everything but the last sample. */
    method RunScrape(r: Replies, steps: seq<WorkerPool.Action>, ch: Channel,
                     ghost start: seq<Sample>, ghost from: Global, ghost g: Global, ghost i: nat)
      returns (partial: bool, failed: bool, ghost h: Global)
      requires Runs(from, g, i, r) && Shown(ch, start, g.scrapes[i]) && g.scrapes[i].phase.AskStatus? && Scheduled(env, r, steps)
      modifies ch, cache, drift
      ensures Runs(from, h, i, r) && Shown(ch, start, h.scrapes[i]) && h.scrapes[i].phase == Reporting
      ensures failed == h.scrapes[i].broken && (!failed ==> partial == h.scrapes[i].partial)
    {
      var fingerprint;
      failed, fingerprint, h := GetInputs(r, ch, start, from, g, i);
      if failed { return false, true, h; }
      var pies;
      pies, partial, h := GatherPies(steps, r.general.value, r.list.value, fingerprint, r, from, h, i);
      h := SendPies(ch, r.general.value, pies, start, r, from, h, i);
      h := SendCounters(ch, start, r, from, h, i);
      var ok;
      ok, h := SendNodes(ch, r, start, from, h, i);
      failed := !ok;
    }

    /** Collect, on top of whatever other scrapes have done.  What it sends is, sample
        for sample, the trace of a finished scrape of the transition system, fed by the
        same replies, after a run from `g` in which no other scrape moved and at whose
        end the model has the cache and the counters the code has left behind. */
    method Collect(r: Replies, steps: seq<WorkerPool.Action>, ch: Channel, ghost g: Global, ghost i: nat)
      returns (ghost h: Global)
      requires Reachable(env, g) && env.maxConcurrency >= 1 && Mirrors(g) && i < |g.scrapes| && g.scrapes[i] == FRESH
      requires g.holder == None
      requires Scheduled(env, r, steps)
      modifies ch, cache, drift
      ensures Runs(g, h, i, r) && h.scrapes[i].phase.Done? && h.scrapes[i].up.Some?
      ensures ch.sent == old(ch.sent) + Trace(h.scrapes[i])
    {
      ghost var start := ch.sent;
      NotYet(env, g, i);
      assert Flat(g.scrapes[i].groups) == [];
      var partial, failed;
      partial, failed, h := RunScrape(r, steps, ch, start, g, g, i);
      var v := 1.0;
      if failed || partial {
        v := 0.0;
      }
      ch.Send(UpSample(v));
      ghost var s := h.scrapes[i];
      Steps(g, h, i, Report, r);
      SilentStep(env, h, i, Report);
      h := Apply(env, h, i, Report);
      SeqAssoc(start, Flat(s.groups), [UpSample(v)]);
      assert Trace(h.scrapes[i]) == Flat(s.groups) + [UpSample(v)];
    }
  }
}
