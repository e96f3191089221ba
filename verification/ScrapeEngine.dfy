/** Overlapping scrapes over one stats cache (Collect and collect in
  internal/collector/tdarr.go), as a transition system.

  Any number of scrapes run at once.  Each asks the upstream for the server
  status, the general totals and the library list, reads the cache, either reuses
  the cached pies or runs its own worker pool, writes the cache after a complete
  sweep, and emits its samples.  They share only the cache, which is locked per
  read and per write, and the unknown-status counters.  Their lock is taken and
  released within a bump, but a scrape that emits the counters holds it over all
  its sends, and every other scrape's bumps wait meanwhile. */
module ScrapeEngine {
  import opened Models
  import opened Folds
  import opened StatusEnums
  import opened Fingerprint
  import opened Series
  import opened Sections
  import WorkerPool

  /** A slice of pies as Go has it: a sweep that appended nothing leaves nil. */
  datatype Stats = Nil | Gathered(pies: seq<Pie>)

  function StatsOf(pies: seq<Pie>): Stats {
    if pies == [] then Nil else Gathered(pies)
  }

  function PiesOf(stats: Stats): seq<Pie> {
    match stats
    case Nil => []
    case Gathered(pies) => pies
  }

  /** A non-nil slice holds something: sweeps only ever append. */
  predicate Sliced(stats: Stats) {
    stats.Gathered? ==> stats.pies != []
  }

  datatype Snapshot = Snapshot(totals: Totals, stats: Stats, fingerprint: seq<Library>)

  const EMPTY := Snapshot(Totals(0, 0, 0, 0, 0, 0, 0, 0, 0, 0), Nil, [])

  /** The cache a collector shares between scrapes. */
  class LibStatsCache {
    var snap: Snapshot

    constructor ()
      ensures snap == EMPTY
    {
      snap := EMPTY;
    }

    method Read() returns (r: Snapshot)
      ensures r == snap
    {
      r := snap;
    }

    method Write(s: Snapshot)
      modifies this
      ensures snap == s
    {
      snap := s;
    }
  }

  predicate ShouldRefetch(cached: Snapshot, metric: GeneralStats, fingerprint: seq<Library>) {
    cached.stats.Nil? || cached.totals != TotalsFromMetric(metric) || cached.fingerprint != fingerprint
  }

  // ------------------------------------------------------------------ state

  datatype Env = Env(maxConcurrency: nat, upstream: WorkerPool.Upstream)

  datatype Phase =
    | AskStatus | AskGeneral | AskLibraries | Deciding
    | Sweeping(pool: WorkerPool.State)
    | Storing | SendingLibraries | LockingDrift | SendingDrift | UnlockingDrift | AskNodes
    | Reporting | Done

  datatype Source = Undecided | Hit | Swept

  /** Samples sent together, and the part of the scrape they belong to. */
  datatype Group = Group(section: Section, samples: seq<Sample>)

  /** One scrape: its local variables, what it has emitted, and, as history, the
      get-pies calls it made, the libraries its sweep dropped and the counters it
      sent. */
  datatype Scrape = Scrape(
    phase: Phase, status: Option<ServerStatus>, metric: Option<GeneralStats>,
    libs: seq<Library>, fingerprint: seq<Library>, source: Source, stats: Stats, nodes: map<string, Node>,
    partial: bool, broken: bool, groups: seq<Group>, up: Option<real>,
    calls: multiset<Library>, dropped: multiset<Library>, countsSent: multiset<StatusKey>)

  const FRESH := Scrape(AskStatus, None, None, [], [], Undecided, Nil, map[], false, false, [], None,
                        multiset{}, multiset{}, multiset{})

  /** A finished fan-out and the document it was made under, as history. */
  datatype Sweep = Sweep(metric: GeneralStats, fingerprint: seq<Library>, pies: seq<Pie>, partial: bool)

  /** What a complete sweep is cached as. */
  function CachedAs(w: Sweep): Snapshot {
    Snapshot(TotalsFromMetric(w.metric), StatsOf(w.pies), w.fingerprint)
  }

  /** `holder` is the scrape that holds the counters' lock while it emits them.
      `sweeps` and `normalised` are history: finished fan-outs, and the answers
      whose statuses have been normalised or are being normalised. */
  datatype Global = Global(
    cache: Snapshot, drift: multiset<StatusKey>, holder: Option<nat>, scrapes: seq<Scrape>,
    sweeps: seq<Sweep>, normalised: seq<PieStat>)

  function Start(n: nat): Global {
    Global(EMPTY, multiset{}, None, seq(n, _ => FRESH), [], [])
  }

  // ---------------------------------------------------------------- actions

  /** How an upstream call ends: with a value, with an error (a cancelled context
      included), or in a panic. */
  datatype Reply<T> = Fine(value: T) | Failing | Panicking

  /** Batches are in the order sent; where the code ranges over a map, any order
      is possible. */
  datatype Action =
    | StatusReply(status: Reply<ServerStatus>)
    | GeneralReply(general: Reply<GeneralStats>)
    | LibrariesReply(list: Reply<seq<Library>>, sorted: seq<Library>)
    | ReadCache
    | PoolStep(step: WorkerPool.Action)
    | PoolReturn
    | WriteCache
    | SendLibraries(batch: seq<Sample>)
    | LockDrift
    | SendDrift(batch: seq<Sample>)
    | UnlockDrift
    | NodesReply(nodes: Reply<map<string, Node>>, batch: seq<Sample>)
    | Report

  /** The steps after the pies are there. */
  predicate Late(a: Action) {
    || a.WriteCache? || a.SendLibraries? || a.LockDrift? || a.SendDrift? || a.UnlockDrift?
    || a.NodesReply? || a.Report?
  }

  function PoolConfig(e: Env, s: Scrape): WorkerPool.Config
    requires s.metric.Some?
  {
    WorkerPool.CodeConfig(s.libs, e.maxConcurrency, TotalsFromMetric(s.metric.value), e.upstream)
  }

  ghost predicate Enabled(e: Env, g: Global, i: nat, a: Action) {
    i < |g.scrapes| && var s := g.scrapes[i];
    match a
    case StatusReply(_) => s.phase.AskStatus?
    case GeneralReply(_) => s.phase.AskGeneral?
    case LibrariesReply(r, sorted) => s.phase.AskLibraries? && (r.Fine? ==> IsFingerprint(r.value, sorted))
    case ReadCache => s.phase.Deciding? && s.metric.Some?
    case PoolStep(step) =>
      && s.phase.Sweeping? && s.metric.Some? && WorkerPool.Enabled(PoolConfig(e, s), s.phase.pool, step)
      && (step.Bump? ==> g.holder == None)
    case PoolReturn =>
      s.phase.Sweeping? && s.metric.Some? && s.phase.pool.main == WorkerPool.Returned && WorkerPool.InHeap(s.phase.pool)
    case WriteCache => s.phase.Storing? && s.metric.Some?
    case SendLibraries(batch) =>
      && s.phase.SendingLibraries? && s.metric.Some? && s.metric.value.score.Some? && s.metric.value.healthScore.Some?
      && Bagged(batch) == PiesSeries(PiesOf(s.stats))
    case LockDrift => s.phase.LockingDrift? && g.holder == None
    case UnlockDrift => s.phase.UnlockingDrift?
    case SendDrift(batch) => s.phase.SendingDrift? && Bagged(batch) == DriftSeries(g.drift)
    case NodesReply(r, batch) => s.phase.AskNodes? && (r.Fine? ==> Bagged(batch) == NodesSeries(r.value))
    case Report => s.phase.Reporting?
  }

  function Break(s: Scrape): Scrape {
    s.(phase := Reporting, broken := true)
  }

  /** The scrape's own part of a step. */
  function Step(e: Env, g: Global, s: Scrape, a: Action): Scrape
    requires a.ReadCache? || a.PoolStep? || a.PoolReturn? || a.WriteCache? || a.SendLibraries? ==> s.metric.Some?
    requires a.PoolStep? ==> s.phase.Sweeping? && WorkerPool.Enabled(PoolConfig(e, s), s.phase.pool, a.step)
    requires a.PoolReturn? ==> s.phase.Sweeping? && WorkerPool.InHeap(s.phase.pool)
    requires a.SendLibraries? ==> s.metric.value.score.Some? && s.metric.value.healthScore.Some?
  {
    match a
    case StatusReply(r) =>
      if r.Fine? then s.(phase := AskGeneral, status := Some(r.value), groups := s.groups + [Group(ServerSection, ServerSeries(r.value))])
      else Break(s)
    case GeneralReply(r) =>
      if r.Fine? && r.value.score.Some? && r.value.healthScore.Some?
      then s.(phase := AskLibraries, metric := Some(r.value))
      else Break(s)
    case LibrariesReply(r, sorted) =>
      if r.Fine? then s.(phase := Deciding, libs := r.value, fingerprint := sorted) else Break(s)
    case ReadCache =>
      if ShouldRefetch(g.cache, s.metric.value, s.fingerprint) then s.(phase := Sweeping(WorkerPool.INIT))
      else s.(phase := SendingLibraries, source := Hit, stats := g.cache.stats)
    case PoolStep(step) => s.(phase := Sweeping(WorkerPool.Apply(PoolConfig(e, s), s.phase.pool, step)))
    case PoolReturn =>
      var pool := s.phase.pool;
      s.(phase := if pool.partial then SendingLibraries else Storing,
         source := Swept, stats := StatsOf(WorkerPool.Result(pool)), partial := pool.partial,
         calls := pool.calls, dropped := pool.failed + pool.unnamed)
    case WriteCache => s.(phase := SendingLibraries)
    case SendLibraries(batch) =>
      var m := s.metric.value;
      s.(phase := LockingDrift,
         groups := s.groups + [Group(GeneralSection, GeneralSeries(m, m.score.value, m.healthScore.value)),
                               Group(LibrarySection, batch)])
    case LockDrift => s.(phase := SendingDrift)
    case SendDrift(batch) =>
      s.(phase := UnlockingDrift, countsSent := g.drift, groups := s.groups + [Group(DriftSection, batch)])
    case UnlockDrift => s.(phase := AskNodes)
    case NodesReply(r, batch) =>
      if r.Fine? then s.(phase := Reporting, nodes := r.value, groups := s.groups + [Group(NodeSection, batch)])
      else Break(s)
    case Report => s.(phase := Done, up := Some(if s.broken || s.partial then 0.0 else 1.0))
  }

  /** The key a pool step counts, if it is a bump. */
  function BumpedBy(pool: WorkerPool.State, a: WorkerPool.Action): multiset<StatusKey> {
    if a.Bump? && a.i < |pool.workers| && pool.workers[a.i].Normalizing? && pool.workers[a.i].todo != []
    then multiset{pool.workers[a.i].todo[0]} else multiset{}
  }

  /** The answer a pool step starts to normalise, if any. */
  function BegunBy(pool: WorkerPool.State, a: WorkerPool.Action): seq<PieStat> {
    if a.Answer? && a.outcome.Answered? && a.i < |pool.workers| && pool.workers[a.i].Fetching?
       && WorkerPool.Named(pool.workers[a.i].lib)
    then [a.outcome.stat] else []
  }

  ghost function Apply(e: Env, g: Global, i: nat, a: Action): Global
    requires Enabled(e, g, i, a)
  {
    var s := g.scrapes[i];
    var t := g.(scrapes := g.scrapes[i := Step(e, g, s, a)]);
    match a
    case PoolStep(step) =>
      t.(drift := g.drift + BumpedBy(s.phase.pool, step), normalised := g.normalised + BegunBy(s.phase.pool, step))
    case PoolReturn =>
      t.(sweeps := g.sweeps + [Sweep(s.metric.value, s.fingerprint, WorkerPool.Result(s.phase.pool), s.phase.pool.partial)])
    case WriteCache => t.(cache := Snapshot(TotalsFromMetric(s.metric.value), s.stats, s.fingerprint))
    case LockDrift => t.(holder := Some(i))
    case UnlockDrift => t.(holder := None)
    case _ => t
  }

  // ------------------------------------------------------------------- runs

  /** A run of overlapping scrapes: which scrape moves, and how. */
  datatype Move = Move(actor: nat, action: Action)

  ghost predicate StepAt(e: Env, states: seq<Global>, moves: seq<Move>, k: nat)
    requires |states| == |moves| + 1 && k < |moves|
  {
    && Enabled(e, states[k], moves[k].actor, moves[k].action)
    && states[k + 1] == Apply(e, states[k], moves[k].actor, moves[k].action)
  }

  ghost predicate IsPath(e: Env, states: seq<Global>, moves: seq<Move>) {
    && |states| == |moves| + 1
    && forall k :: 0 <= k < |moves| ==> StepAt(e, states, moves, k)
  }

  /** Nothing has happened yet, to however many scrapes there will be. */
  ghost predicate Started(g: Global) {
    g == Start(|g.scrapes|)
  }

  ghost predicate LeadsTo(e: Env, states: seq<Global>, moves: seq<Move>, g: Global) {
    IsPath(e, states, moves) && Started(states[0]) && states[|moves|] == g
  }

  ghost predicate Reachable(e: Env, g: Global) {
    exists states: seq<Global>, moves: seq<Move> :: LeadsTo(e, states, moves, g)
  }

  // ------------------------------------------------------------- invariants

  ghost predicate AfterList(s: Scrape) {
    !(s.phase.AskStatus? || s.phase.AskGeneral? || s.phase.AskLibraries?) && (s.phase.Reporting? || s.phase.Done? ==> |s.groups| >= 4)
  }

  /** The scrape has its pies, from the cache or from its own sweep. */
  ghost predicate HasPies(s: Scrape) {
    AfterList(s) && !(s.phase.Deciding? || s.phase.Sweeping?)
  }

  /** Every pie is finished for the totals it was fetched under. */
  ghost predicate PiesFit(e: Env, totals: Totals, pies: seq<Pie>) {
    forall p :: p in pies ==> WorkerPool.IsFinished(WorkerPool.CodeConfig([], e.maxConcurrency, totals, e.upstream), p)
  }

  /** What a snapshot must be: one complete sweep's totals, pies and fingerprint. */
  ghost predicate Coherent(e: Env, c: Snapshot) {
    && Sorted(c.fingerprint) && Sliced(c.stats)
    && multiset(Image(LibraryOf, PiesOf(c.stats))) == multiset(c.fingerprint)
    && PiesFit(e, c.totals, PiesOf(c.stats))
  }

  /** Empty, or the whole of one recorded complete sweep. */
  ghost predicate FromOneSweep(c: Snapshot, sweeps: seq<Sweep>) {
    c == EMPTY || exists k :: 0 <= k < |sweeps| && !sweeps[k].partial && c == CachedAs(sweeps[k])
  }

  /** Pies about to be cached, and pies served from the cache, are those of a recorded
      complete sweep under the scrape's own totals and fingerprint. */
  ghost predicate Recorded(s: Scrape, sweeps: seq<Sweep>) {
    s.phase.Storing? || (HasPies(s) && s.source == Hit) ==>
      s.metric.Some? && FromOneSweep(Snapshot(TotalsFromMetric(s.metric.value), s.stats, s.fingerprint), sweeps)
  }

  /** What the scrape knows about its library list and pies. */
  ghost predicate Knowledge(e: Env, s: Scrape) {
    && (AfterList(s) || s.phase.AskLibraries? ==>
          s.metric.Some? && s.metric.value.score.Some? && s.metric.value.healthScore.Some?)
    && (AfterList(s) ==> IsFingerprint(s.libs, s.fingerprint))
    && (s.phase.Sweeping? ==> WorkerPool.Inv(PoolConfig(e, s), s.phase.pool))
    && (HasPies(s) ==>
          && PiesFit(e, TotalsFromMetric(s.metric.value), PiesOf(s.stats))
          && multiset(s.libs) == multiset(Image(LibraryOf, PiesOf(s.stats))) + s.dropped
          && s.source != Undecided && Sliced(s.stats)
          && (s.source == Hit ==> s.calls == multiset{} && !s.partial && s.stats.Gathered?)
          && (s.source == Swept ==> s.calls == multiset(s.libs)))
    && (s.partial <==> s.dropped != multiset{})
    && (s.phase.Storing? ==> !s.partial && s.source == Swept)
    && (s.source == Undecided ==> s.calls == multiset{} && !s.partial)
    && (!HasPies(s) ==> s.source == Undecided)
  }

  const SECTIONS: seq<Section> := [ServerSection, GeneralSection, LibrarySection, DriftSection, NodeSection]

  /** How many groups have been emitted, by phase. */
  ghost predicate GroupCount(s: Scrape) {
    match s.phase
    case AskStatus => |s.groups| == 0
    case LockingDrift => |s.groups| == 3
    case SendingDrift => |s.groups| == 3
    case UnlockingDrift => |s.groups| == 4
    case AskNodes => |s.groups| == 4
    case Reporting => if s.broken then |s.groups| in {0, 1, 4} else |s.groups| == 5
    case Done => if s.broken then |s.groups| in {0, 1, 4} else |s.groups| == 5
    case _ => |s.groups| == 1
  }

  /** The groups come in one fixed order, each holding samples of its own section,
      and the library group holds exactly the samples of the scrape's pies. */
  ghost predicate Emitted(s: Scrape) {
    && GroupCount(s) && |s.groups| <= |SECTIONS|
    && (forall k :: 0 <= k < |s.groups| ==>
          s.groups[k].section == SECTIONS[k] && SeqIn(s.groups[k].section, s.groups[k].samples))
    && (|s.groups| >= 3 ==> Bagged(s.groups[2].samples) == PiesSeries(PiesOf(s.stats)))
    && (s.broken ==> s.phase.Reporting? || s.phase.Done?)
    && (s.phase.Done? <==> s.up.Some?)
    && (s.up.Some? ==> s.up.value == if s.broken || s.partial then 0.0 else 1.0)
  }

  /** What each group holds. */
  ghost predicate Contents(s: Scrape) {
    && (|s.groups| >= 1 ==> s.status.Some? && s.groups[0].samples == ServerSeries(s.status.value))
    && (|s.groups| >= 2 ==>
          && s.metric.Some? && s.metric.value.score.Some? && s.metric.value.healthScore.Some?
          && s.groups[1].samples
             == GeneralSeries(s.metric.value, s.metric.value.score.value, s.metric.value.healthScore.value))
    && (|s.groups| >= 4 ==> Bagged(s.groups[3].samples) == DriftSeries(s.countsSent))
    && (|s.groups| >= 5 ==> Bagged(s.groups[4].samples) == NodesSeries(s.nodes))
  }

  ghost predicate ScrapeInv(e: Env, sweeps: seq<Sweep>, s: Scrape) {
    Knowledge(e, s) && Emitted(s) && Contents(s) && Recorded(s, sweeps)
  }

  function PendingIn(s: Scrape): multiset<StatusKey> {
    if s.phase.Sweeping? then WorkerPool.Pending(s.phase.pool.workers) else multiset{}
  }

  function KeysOf(stat: PieStat): multiset<StatusKey> {
    multiset(UnknownKeys(stat))
  }

  /** Counts made plus counts still to make are the unknown entries of everything
      normalised so far. */
  ghost predicate DriftBalanced(g: Global) {
    g.drift + SeqSum(g.scrapes, PendingIn) == SeqSum(g.normalised, KeysOf)
  }

  /** The phases in which a scrape holds the counters' lock. */
  predicate Holds(s: Scrape) {
    s.phase.SendingDrift? || s.phase.UnlockingDrift?
  }

  /** The lock is held by the one scrape that is emitting the counters, if any. */
  ghost predicate Locked(g: Global) {
    && (g.holder.Some? ==> g.holder.value < |g.scrapes|)
    && forall i :: 0 <= i < |g.scrapes| ==> (Holds(g.scrapes[i]) <==> g.holder == Some(i))
  }

  ghost predicate Inv(e: Env, g: Global) {
    && Coherent(e, g.cache) && FromOneSweep(g.cache, g.sweeps)
    && (forall i :: 0 <= i < |g.scrapes| ==> ScrapeInv(e, g.sweeps, g.scrapes[i]))
    && DriftBalanced(g) && Locked(g)
  }
}
