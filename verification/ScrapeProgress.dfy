/** Scrapes wait for one another at most at the counters' lock, which its holder
  never fails to release, and no run of scrapes goes on for ever. */
module ScrapeProgress {
  import opened Models
  import opened Folds
  import opened Series
  import WorkerPool
  import WorkerPoolTheorems
  import opened ScrapeEngine
  import opened ScrapeInvariants

  /** Any bag of samples can be sent in some order. */
  lemma {:induction false} SomeBatch(bag: multiset<Sample>) returns (batch: seq<Sample>)
    ensures Bagged(batch) == bag
    decreases |bag|
  {
    if bag == multiset{} {
      batch := [];
    } else {
      var x :| x in bag;
      var rest := SomeBatch(bag - multiset{x});
      batch := [x] + rest;
      assert batch[1..] == rest;
      assert multiset{x} + (bag - multiset{x}) == bag;
    }
  }

  /** The scrape has come to the counters' lock: to emit them, or to bump one. */
  ghost predicate AtLock(e: Env, s: Scrape) {
    || s.phase.LockingDrift?
    || (s.phase.Sweeping? && s.metric.Some?
        && exists step: WorkerPool.Action :: step.Bump? && WorkerPool.Enabled(PoolConfig(e, s), s.phase.pool, step))
  }

  /** The one way for a scrape to wait for another: it has come to the counters' lock
      while the other holds it.  Otherwise an unfinished scrape can take a step of its
      own, whatever the others are doing. */
  lemma NoScrapeBlocks(e: Env, g: Global, i: nat)
    requires Reachable(e, g) && e.maxConcurrency >= 1 && i < |g.scrapes| && !g.scrapes[i].phase.Done?
    ensures (exists a :: Enabled(e, g, i, a))
            || (g.holder.Some? && g.holder.value != i && AtLock(e, g.scrapes[i]))
  {
    KnowsOwn(e, g, i);
    LockFacts(e, g);
    assert g.holder == Some(i) ==> !AtLock(e, g.scrapes[i]);
    if g.holder == None || !AtLock(e, g.scrapes[i]) {
      var a := OwnStep(e, g, i);
    }
  }

  lemma LockFacts(e: Env, g: Global)
    requires Reachable(e, g) && e.maxConcurrency >= 1
    ensures Locked(g)
  {
    ScrapeInvariants.ReachableInv(e, g);
  }

  /** Whoever holds the lock waits for nobody: it can send what it has come to send and
      then release, and nothing another scrape does takes that from it. */
  lemma HolderReleases(e: Env, g: Global)
    requires Reachable(e, g) && e.maxConcurrency >= 1 && g.holder.Some?
    ensures var i := g.holder.value;
            && i < |g.scrapes|
            && (Enabled(e, g, i, UnlockDrift) || exists batch :: Enabled(e, g, i, SendDrift(batch)))
            && (Enabled(e, g, i, UnlockDrift) ==> Apply(e, g, i, UnlockDrift).holder == None)
            && forall batch :: Enabled(e, g, i, SendDrift(batch)) ==>
                 Enabled(e, Apply(e, g, i, SendDrift(batch)), i, UnlockDrift)
  {
    LockFacts(e, g);
    var i := g.holder.value;
    assert Holds(g.scrapes[i]);
    if g.scrapes[i].phase.SendingDrift? {
      var batch := SomeBatch(DriftSeries(g.drift));
      assert Enabled(e, g, i, SendDrift(batch));
    }
    forall batch | Enabled(e, g, i, SendDrift(batch))
      ensures Enabled(e, Apply(e, g, i, SendDrift(batch)), i, UnlockDrift)
    {
      ScrapesAfter(e, g, i, SendDrift(batch));
    }
  }

  /** While the lock is held no counter moves and nobody else gets it, so the counters
      a scrape sends are those of one moment, however its sends are interleaved with
      other scrapes' steps. */
  lemma HeldCountersStay(e: Env, g: Global, j: nat, a: Action)
    requires Reachable(e, g) && e.maxConcurrency >= 1 && g.holder.Some? && Enabled(e, g, j, a)
    ensures Apply(e, g, j, a).drift == g.drift
    ensures a.UnlockDrift? <==> Apply(e, g, j, a).holder != g.holder
    ensures a.UnlockDrift? ==> j == g.holder.value
  {
    LockFacts(e, g);
    if a.PoolStep? {
      LockUntouched(e, g, j, a);
    } else {
      DriftUntouched(e, g, j, a);
      if !a.UnlockDrift? { LockUntouched(e, g, j, a); }
    }
  }

  lemma OwnStep(e: Env, g: Global, i: nat) returns (a: Action)
    requires i < |g.scrapes| && !g.scrapes[i].phase.Done? && e.maxConcurrency >= 1
    requires Knowledge(e, g.scrapes[i]) && GroupCount(g.scrapes[i]) && (g.holder == None || !AtLock(e, g.scrapes[i]))
    ensures Enabled(e, g, i, a)
  {
    var s := g.scrapes[i];
    match s.phase
    case AskStatus => a := StatusReply(Failing);
    case AskGeneral => a := GeneralReply(Failing);
    case AskLibraries => a := LibrariesReply(Failing, []);
    case Deciding => a := ReadCache;
    case Sweeping(pool) => a := PoolsStep(e, g, i);
    case Storing => a := WriteCache;
    case SendingLibraries =>
      var batch := SomeBatch(PiesSeries(PiesOf(s.stats)));
      a := SendLibraries(batch);
    case LockingDrift => a := LockDrift;
    case SendingDrift =>
      var batch := SomeBatch(DriftSeries(g.drift));
      a := SendDrift(batch);
    case UnlockingDrift => a := UnlockDrift;
    case AskNodes => a := NodesReply(Failing, []);
    case Reporting => a := Report;
  }

  lemma PoolsStep(e: Env, g: Global, i: nat) returns (a: Action)
    requires i < |g.scrapes| && e.maxConcurrency >= 1 && Knowledge(e, g.scrapes[i]) && g.scrapes[i].phase.Sweeping?
    requires g.holder == None || !AtLock(e, g.scrapes[i])
    ensures Enabled(e, g, i, a)
  {
    var s := g.scrapes[i];
    if s.phase.pool.main == WorkerPool.Returned {
      a := PoolReturn;
    } else {
      var step := WorkerPoolTheorems.SomeStep(PoolConfig(e, s), s.phase.pool);
      a := PoolStep(step);
    }
  }

  // ------------------------------------------------------------ termination

  function PhaseRank(p: Phase): nat {
    match p
    case AskStatus => 12 case AskGeneral => 11 case AskLibraries => 10 case Deciding => 9
    case Sweeping(_) => 8 case Storing => 7 case SendingLibraries => 6
    case LockingDrift => 5 case SendingDrift => 4 case UnlockingDrift => 3
    case AskNodes => 2 case Reporting => 1 case Done => 0
  }

  function RankOf(): Scrape -> nat {
    (s: Scrape) => PhaseRank(s.phase)
  }

  /** What is left to do in a scrape's own pool, counter bumps apart. */
  function WorkOf(e: Env): Scrape -> nat {
    (s: Scrape) => if s.phase.Sweeping? && s.metric.Some? && WorkerPoolTheorems.Work(PoolConfig(e, s), s.phase.pool) >= 0
         then WorkerPoolTheorems.Work(PoolConfig(e, s), s.phase.pool) else 0
  }

  function BumpsOf(): Scrape -> nat {
    (s: Scrape) => if s.phase.Sweeping? then WorkerPoolTheorems.Bumps(s.phase.pool) else 0
  }

  function SumOf(scrapes: seq<Scrape>, f: Scrape -> nat): nat {
    if scrapes == [] then 0 else f(scrapes[0]) + SumOf(scrapes[1..], f)
  }

  lemma {:induction false} SumUpdate(scrapes: seq<Scrape>, i: nat, t: Scrape, f: Scrape -> nat)
    requires i < |scrapes|
    ensures SumOf(scrapes[i := t], f) + f(scrapes[i]) == SumOf(scrapes, f) + f(t)
  {
    if i == 0 {
      assert scrapes[i := t][1..] == scrapes[1..];
    } else {
      assert scrapes[i := t][1..] == scrapes[1..][i - 1 := t];
      SumUpdate(scrapes[1..], i - 1, t, f);
    }
  }

  /** `t` has less left to do than `s`. */
  ghost predicate Closer(e: Env, s: Scrape, t: Scrape) {
    || RankOf()(t) < RankOf()(s)
    || (RankOf()(t) == RankOf()(s) && WorkOf(e)(t) < WorkOf(e)(s))
    || (RankOf()(t) == RankOf()(s) && WorkOf(e)(t) == WorkOf(e)(s) && BumpsOf()(t) < BumpsOf()(s))
  }

  lemma LessInPool(e: Env, s: Scrape, next: WorkerPool.State)
    requires s.phase.Sweeping? && s.metric.Some?
    requires var c, pool := PoolConfig(e, s), s.phase.pool;
             && WorkerPoolTheorems.Work(c, pool) >= 0 && WorkerPoolTheorems.Work(c, next) >= 0
             && (WorkerPoolTheorems.Work(c, next) < WorkerPoolTheorems.Work(c, pool)
                 || (WorkerPoolTheorems.Work(c, next) == WorkerPoolTheorems.Work(c, pool)
                     && WorkerPoolTheorems.Bumps(next) < WorkerPoolTheorems.Bumps(pool)))
    ensures Closer(e, s, s.(phase := Sweeping(next)))
  {
    assert PoolConfig(e, s.(phase := Sweeping(next))) == PoolConfig(e, s);
  }

  lemma PoolCloser(e: Env, g: Global, s: Scrape, step: WorkerPool.Action)
    requires s.phase.Sweeping? && s.metric.Some? && WorkerPool.Inv(PoolConfig(e, s), s.phase.pool)
    requires WorkerPool.Enabled(PoolConfig(e, s), s.phase.pool, step)
    ensures Closer(e, s, Step(e, g, s, PoolStep(step)))
  {
    WorkerPoolTheorems.StepShrinks(PoolConfig(e, s), s.phase.pool, step);
    PoolStepIs(e, g, s, step);
    LessInPool(e, s, WorkerPool.Apply(PoolConfig(e, s), s.phase.pool, step));
  }

  lemma OwnCloser(e: Env, g: Global, i: nat, a: Action)
    requires Enabled(e, g, i, a) && Knowledge(e, g.scrapes[i])
    ensures Closer(e, g.scrapes[i], Step(e, g, g.scrapes[i], a))
  {
    if a.PoolStep? {
      PoolCloser(e, g, g.scrapes[i], a.step);
    } else {
      PhaseMovesOn(e, g, i, a);
    }
  }

  lemma PhaseMovesOn(e: Env, g: Global, i: nat, a: Action)
    requires Enabled(e, g, i, a) && !a.PoolStep?
    ensures PhaseRank(Step(e, g, g.scrapes[i], a).phase) < PhaseRank(g.scrapes[i].phase)
  {
    match a
    case StatusReply(r) =>
    case GeneralReply(r) =>
    case LibrariesReply(r, sorted) =>
    case ReadCache =>
    case PoolReturn =>
    case _ => LatePhaseMovesOn(e, g, i, a);
  }

  lemma LatePhaseMovesOn(e: Env, g: Global, i: nat, a: Action)
    requires Enabled(e, g, i, a)
    requires Late(a)
    ensures PhaseRank(Step(e, g, g.scrapes[i], a).phase) < PhaseRank(g.scrapes[i].phase)
  {
    match a
    case SendLibraries(batch) => LibrariesMoveOn(e, g, i, batch);
    case SendDrift(batch) => SentPhase(e, g, g.scrapes[i], a);
    case _ =>
  }

  lemma LibrariesMoveOn(e: Env, g: Global, i: nat, batch: seq<Sample>)
    requires Enabled(e, g, i, SendLibraries(batch))
    ensures g.scrapes[i].phase == SendingLibraries
    ensures Step(e, g, g.scrapes[i], SendLibraries(batch)).phase == LockingDrift
  {
    SentPhase(e, g, g.scrapes[i], SendLibraries(batch));
  }

  lemma SentPhase(e: Env, g: Global, s: Scrape, a: Action)
    requires a.SendLibraries? ==> s.metric.Some? && s.metric.value.score.Some? && s.metric.value.healthScore.Some?
    requires a.SendLibraries? || a.SendDrift?
    ensures Step(e, g, s, a).phase == if a.SendLibraries? then LockingDrift else UnlockingDrift
  {}

  /** Less is left to do in all scrapes together. */
  ghost predicate AllCloser(e: Env, g: Global, h: Global) {
    || SumOf(h.scrapes, RankOf()) < SumOf(g.scrapes, RankOf())
    || (SumOf(h.scrapes, RankOf()) == SumOf(g.scrapes, RankOf())
        && SumOf(h.scrapes, WorkOf(e)) < SumOf(g.scrapes, WorkOf(e)))
    || (SumOf(h.scrapes, RankOf()) == SumOf(g.scrapes, RankOf())
        && SumOf(h.scrapes, WorkOf(e)) == SumOf(g.scrapes, WorkOf(e))
        && SumOf(h.scrapes, BumpsOf()) < SumOf(g.scrapes, BumpsOf()))
  }

  lemma SumsCloser(e: Env, g: Global, h: Global, i: nat, t: Scrape)
    requires i < |g.scrapes| && h.scrapes == g.scrapes[i := t] && Closer(e, g.scrapes[i], t)
    ensures AllCloser(e, g, h)
  {
    SumUpdate(g.scrapes, i, t, RankOf());
    SumUpdate(g.scrapes, i, t, WorkOf(e));
    SumUpdate(g.scrapes, i, t, BumpsOf());
  }

  ghost predicate MovesTo(e: Env, g: Global, h: Global) {
    exists i: nat, a: Action :: Enabled(e, g, i, a) && h == Apply(e, g, i, a)
  }

  /** Every step of every scrape leaves less to do. */
  lemma MoveShrinks(e: Env, g: Global, h: Global)
    requires Reachable(e, g) && e.maxConcurrency >= 1 && MovesTo(e, g, h)
    ensures Reachable(e, h) && AllCloser(e, g, h)
  {
    var i: nat, a: Action :| Enabled(e, g, i, a) && h == Apply(e, g, i, a);
    ReachMore(e, g, i, a);
    KnowsOwn(e, g, i);
    OwnCloser(e, g, i, a);
    ScrapesAfter(e, g, i, a);
    SumsCloser(e, g, h, i, Step(e, g, g.scrapes[i], a));
  }

  lemma KnowsOwn(e: Env, g: Global, i: nat)
    requires Reachable(e, g) && e.maxConcurrency >= 1 && i < |g.scrapes|
    ensures Knowledge(e, g.scrapes[i]) && GroupCount(g.scrapes[i])
  {
    ScrapeInvariants.ReachableInv(e, g);
    assert ScrapeInv(e, g.sweeps, g.scrapes[i]);
  }

  lemma ScrapesAfter(e: Env, g: Global, i: nat, a: Action)
    requires Enabled(e, g, i, a)
    ensures Apply(e, g, i, a).scrapes == g.scrapes[i := Step(e, g, g.scrapes[i], a)]
  {}

  lemma ReachMore(e: Env, g: Global, i: nat, a: Action)
    requires Reachable(e, g) && Enabled(e, g, i, a)
    ensures Reachable(e, Apply(e, g, i, a))
  {
    var states: seq<Global>, moves: seq<Move> :| LeadsTo(e, states, moves, g);
    var states', moves' := states + [Apply(e, g, i, a)], moves + [Move(i, a)];
    forall k | 0 <= k < |moves'| ensures StepAt(e, states', moves', k) {
      if k < |moves| { assert StepAt(e, states, moves, k); }
    }
    assert LeadsTo(e, states', moves', Apply(e, g, i, a));
  }

  /** The run goes from its k-th state to the next by a step of some scrape. */
  ghost predicate MovesAt(e: Env, run: nat -> Global, k: nat) {
    MovesTo(e, run(k), run(k + 1))
  }

  /** Whatever the upstream answers and however the scrapes and their pools are
      interleaved, no run of any number of scrapes goes on for ever. */
  lemma EveryRunEnds(e: Env, run: nat -> Global)
    requires Started(run(0)) && e.maxConcurrency >= 1
    ensures exists k: nat :: !MovesAt(e, run, k)
  {
    assert LeadsTo(e, [run(0)], [], run(0));
    var k := Descent(e, run, 0);
  }

  lemma {:induction false} Descent(e: Env, run: nat -> Global, k: nat) returns (last: nat)
    requires Reachable(e, run(k)) && e.maxConcurrency >= 1
    ensures !MovesAt(e, run, last)
    decreases SumOf(run(k).scrapes, RankOf()), SumOf(run(k).scrapes, WorkOf(e)), SumOf(run(k).scrapes, BumpsOf())
  {
    if MovesAt(e, run, k) {
      MoveShrinks(e, run(k), run(k + 1));
      last := Descent(e, run, k + 1);
    } else {
      last := k;
    }
  }

  /** A scrape that waits waits for one that can move. */
  lemma SomebodyMoves(e: Env, g: Global, i: nat) returns (j: nat, a: Action)
    requires Reachable(e, g) && e.maxConcurrency >= 1 && i < |g.scrapes| && !g.scrapes[i].phase.Done?
    ensures Enabled(e, g, j, a)
  {
    NoScrapeBlocks(e, g, i);
    if own :| Enabled(e, g, i, own) {
      j, a := i, own;
    } else {
      HolderReleases(e, g);
      j := g.holder.value;
      if Enabled(e, g, j, UnlockDrift) {
        a := UnlockDrift;
      } else {
        var batch :| Enabled(e, g, j, SendDrift(batch));
        a := SendDrift(batch);
      }
    }
  }

  /** Where a run ends, every scrape is done. */
  lemma EndMeansDone(e: Env, g: Global)
    requires Reachable(e, g) && e.maxConcurrency >= 1 && forall h :: !MovesTo(e, g, h)
    ensures forall i :: 0 <= i < |g.scrapes| ==> g.scrapes[i].phase.Done?
  {
    forall i | 0 <= i < |g.scrapes| ensures g.scrapes[i].phase.Done? {
      if !g.scrapes[i].phase.Done? {
        var j, a := SomebodyMoves(e, g, i);
        assert MovesTo(e, g, Apply(e, g, j, a));
      }
    }
  }
}
