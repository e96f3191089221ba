/** What one scrape leaves behind for the next. */
module RepeatScrapes {
  import opened Models
  import opened Folds
  import opened Fingerprint
  import opened ScrapeEngine
  import opened ScrapeInvariants

  /** From step `from` up to step `upto`, only scrape `i` moves. */
  ghost predicate Alone(moves: seq<Move>, i: nat, from: nat, upto: nat) {
    from <= upto <= |moves| && forall k :: from <= k < upto ==> moves[k].actor == i
  }

  /** How a scrape that found the cache at `c` and runs alone relates to it. */
  ghost predicate SoloFacts(c: Snapshot, cache: Snapshot, s: Scrape) {
    if !AfterList(s) || s.phase.Deciding? then cache == c
    else
      && s.metric.Some?
      && (s.phase.Sweeping? ==> cache == c && ShouldRefetch(c, s.metric.value, s.fingerprint))
      && (HasPies(s) && s.source == Hit ==> cache == c && s.stats == c.stats && !ShouldRefetch(c, s.metric.value, s.fingerprint))
      && (HasPies(s) && s.source == Swept ==>
            && ShouldRefetch(c, s.metric.value, s.fingerprint)
            && cache == if s.partial || s.phase.Storing? then c
                        else Snapshot(TotalsFromMetric(s.metric.value), s.stats, s.fingerprint))
  }

  /** The parts of a scrape's knowledge that its cache decisions rest on. */
  ghost predicate Bookkeeping(s: Scrape) {
    && (AfterList(s) ==> s.metric.Some?)
    && (s.phase.Storing? ==> !s.partial && s.source == Swept)
    && (!HasPies(s) ==> s.source == Undecided)
    && (s.phase.Sweeping? ==> s.metric.Some?)
  }

  lemma KnowsBookkeeping(e: Env, s: Scrape)
    requires Knowledge(e, s)
    ensures Bookkeeping(s)
  {}

  lemma SoloStep(e: Env, c: Snapshot, g: Global, i: nat, a: Action)
    requires Enabled(e, g, i, a) && Bookkeeping(g.scrapes[i]) && GroupCount(g.scrapes[i])
    requires SoloFacts(c, g.cache, g.scrapes[i])
    ensures SoloFacts(c, Apply(e, g, i, a).cache, Apply(e, g, i, a).scrapes[i])
  {
    if a.StatusReply? || a.GeneralReply? || a.LibrariesReply? {
      SoloAsks(e, c, g, i, a);
    } else if a.PoolStep? || a.PoolReturn? {
      SoloSweeps(e, c, g, i, a);
    } else if Late(a) && !a.WriteCache? {
      LateStep(e, g, i, a);
    }
  }

  lemma SoloAsks(e: Env, c: Snapshot, g: Global, i: nat, a: Action)
    requires Enabled(e, g, i, a) && Bookkeeping(g.scrapes[i]) && GroupCount(g.scrapes[i])
    requires SoloFacts(c, g.cache, g.scrapes[i]) && (a.StatusReply? || a.GeneralReply? || a.LibrariesReply?)
    ensures SoloFacts(c, Apply(e, g, i, a).cache, Apply(e, g, i, a).scrapes[i])
  {}

  lemma SoloSweeps(e: Env, c: Snapshot, g: Global, i: nat, a: Action)
    requires Enabled(e, g, i, a) && Bookkeeping(g.scrapes[i]) && GroupCount(g.scrapes[i])
    requires SoloFacts(c, g.cache, g.scrapes[i]) && (a.PoolStep? || a.PoolReturn?)
    ensures SoloFacts(c, Apply(e, g, i, a).cache, Apply(e, g, i, a).scrapes[i])
  {}

  lemma OthersStill(e: Env, g: Global, i: nat, a: Action, j: nat)
    requires Enabled(e, g, i, a) && j < |g.scrapes| && j != i
    ensures |Apply(e, g, i, a).scrapes| == |g.scrapes| && Apply(e, g, i, a).scrapes[j] == g.scrapes[j]
  {}

  lemma FactsAt(e: Env, states: seq<Global>, moves: seq<Move>, k: nat, i: nat)
    requires IsPath(e, states, moves) && Reachable(e, states[0]) && e.maxConcurrency >= 1
    requires k < |states| && i < |states[k].scrapes|
    ensures Bookkeeping(states[k].scrapes[i]) && GroupCount(states[k].scrapes[i]) && Knowledge(e, states[k].scrapes[i])
  {
    ScrapeInvariants.ReachableInv(e, states[0]);
    InvAt(e, states, moves, k);
    assert ScrapeInv(e, states[k].sweeps, states[k].scrapes[i]);
    KnowsBookkeeping(e, states[k].scrapes[i]);
  }

  /** From step `from` to step `k`, scrape `i` ran alone and the others stood still. */
  ghost predicate Solo(states: seq<Global>, i: nat, from: nat, k: nat)
    requires from <= k < |states|
  {
    && i < |states[from].scrapes| == |states[k].scrapes|
    && SoloFacts(states[from].cache, states[k].cache, states[k].scrapes[i])
    && forall j :: 0 <= j < |states[from].scrapes| && j != i ==> states[k].scrapes[j] == states[from].scrapes[j]
  }

  lemma {:induction false} SoloRun(e: Env, states: seq<Global>, moves: seq<Move>, i: nat, from: nat, upto: nat)
    requires IsPath(e, states, moves) && Reachable(e, states[0]) && e.maxConcurrency >= 1
    requires Alone(moves, i, from, upto) && i < |states[from].scrapes| && states[from].scrapes[i] == FRESH
    ensures Solo(states, i, from, upto)
    decreases upto
  {
    if from < upto {
      SoloRun(e, states, moves, i, from, upto - 1);
      SoloMove(e, states, moves, i, from, upto - 1);
    } else {
      SoloStart(states, i, from);
    }
  }

  lemma SoloStart(states: seq<Global>, i: nat, from: nat)
    requires from < |states| && i < |states[from].scrapes| && states[from].scrapes[i] == FRESH
    ensures Solo(states, i, from, from)
  {}

  lemma SoloMove(e: Env, states: seq<Global>, moves: seq<Move>, i: nat, from: nat, k: nat)
    requires IsPath(e, states, moves) && from <= k < |moves| && moves[k].actor == i
    requires Reachable(e, states[0]) && e.maxConcurrency >= 1 && Solo(states, i, from, k)
    ensures Solo(states, i, from, k + 1)
  {
    assert StepAt(e, states, moves, k);
    FactsAt(e, states, moves, k, i);
    SoloStep(e, states[from].cache, states[k], i, moves[k].action);
    forall j | 0 <= j < |states[k].scrapes| && j != i ensures states[k + 1].scrapes[j] == states[k].scrapes[j] {
      OthersStill(e, states[k], i, moves[k].action, j);
    }
  }

  /** Two scrapes one after the other: `i` up to step `mid`, then `j`. */
  ghost predicate InSequence(e: Env, states: seq<Global>, moves: seq<Move>, i: nat, j: nat, mid: nat) {
    && IsPath(e, states, moves) && Reachable(e, states[0]) && e.maxConcurrency >= 1
    && i != j && i < |states[0].scrapes| && j < |states[0].scrapes|
    && states[0].scrapes[i] == FRESH && states[0].scrapes[j] == FRESH
    && Alone(moves, i, 0, mid) && Alone(moves, j, mid, |moves|)
  }

  /** The second scrape sees the same totals and the same libraries, in any order,
      in a list whose ids determine its entries. */
  ghost predicate SameInputs(s: Scrape, t: Scrape) {
    && s.metric.Some? && t.metric.Some? && TotalsFromMetric(s.metric.value) == TotalsFromMetric(t.metric.value)
    && multiset(s.libs) == multiset(t.libs) && IdsDetermineEntries(s.libs)
  }

  lemma SequenceFacts(e: Env, states: seq<Global>, moves: seq<Move>, i: nat, j: nat, mid: nat)
    requires InSequence(e, states, moves, i, j, mid)
    ensures mid < |states| && |states[mid].scrapes| == |states[|moves|].scrapes| == |states[0].scrapes|
    ensures SoloFacts(states[0].cache, states[mid].cache, states[mid].scrapes[i])
    ensures SoloFacts(states[mid].cache, states[|moves|].cache, states[|moves|].scrapes[j])
    ensures Knowledge(e, states[mid].scrapes[i]) && Knowledge(e, states[|moves|].scrapes[j])
    ensures states[|moves|].scrapes[i] == states[mid].scrapes[i]
  {
    SoloRun(e, states, moves, i, 0, mid);
    SoloRun(e, states, moves, j, mid, |moves|);
    FactsAt(e, states, moves, mid, i);
    FactsAt(e, states, moves, |moves|, j);
  }

  lemma SameFingerprint(e: Env, s: Scrape, t: Scrape)
    requires Knowledge(e, s) && Knowledge(e, t) && HasPies(s) && HasPies(t) && SameInputs(s, t)
    ensures s.fingerprint == t.fingerprint
  {
    PermutationsAgree(s.libs, t.libs, s.fingerprint, t.fingerprint);
  }

  /** After a complete sweep, the next scrape with the same totals and any
      arrangement of the same libraries makes no get-pies call at all.  With no
      libraries the cached slice is nil and the scrape refetches, but there is
      nothing to fetch. */
  lemma RepeatAfterComplete(e: Env, states: seq<Global>, moves: seq<Move>, i: nat, j: nat, mid: nat)
    requires InSequence(e, states, moves, i, j, mid)
    requires mid < |states| && i < |states[mid].scrapes| && j < |states[|moves|].scrapes|
    requires var s, t := states[mid].scrapes[i], states[|moves|].scrapes[j];
             && HasPies(s) && !s.phase.Storing? && s.source == Swept && !s.partial && HasPies(t) && SameInputs(s, t)
    ensures var s, t := states[mid].scrapes[i], states[|moves|].scrapes[j];
            && t.calls == multiset{}
            && (t.source == Hit <==> s.libs != [])
            && (t.source == Hit ==> t.stats == s.stats)
  {
    SequenceFacts(e, states, moves, i, j, mid);
    var s, t := states[mid].scrapes[i], states[|moves|].scrapes[j];
    SameFingerprint(e, s, t);
    NilMeansNoLibraries(e, s);
    SameElements(s.libs, t.libs);
    AfterWrite(e, states[mid].cache, states[|moves|].cache, s, t);
  }

  lemma AfterWrite(e: Env, c: Snapshot, cache: Snapshot, s: Scrape, t: Scrape)
    requires s.metric.Some? && c == Snapshot(TotalsFromMetric(s.metric.value), s.stats, s.fingerprint)
    requires HasPies(t) && Knowledge(e, t) && SoloFacts(c, cache, t)
    requires SameInputs(s, t) && s.fingerprint == t.fingerprint
    ensures t.source == Hit <==> !s.stats.Nil?
    ensures t.source == Hit ==> t.stats == s.stats && t.calls == multiset{}
    ensures t.source == Swept ==> t.calls == multiset(t.libs)
  {}

  lemma NilMeansNoLibraries(e: Env, s: Scrape)
    requires Knowledge(e, s) && HasPies(s) && !s.partial
    ensures s.stats.Nil? <==> s.libs == []
  {
    assert multiset(s.libs) == multiset(Image(LibraryOf, PiesOf(s.stats)));
    assert |multiset(s.libs)| == |s.libs|;
    assert |multiset(Image(LibraryOf, PiesOf(s.stats)))| == |PiesOf(s.stats)|;
  }

  /** After a partial sweep, the next scrape with the same totals and libraries
      requests every library again. */
  lemma RepeatAfterPartial(e: Env, states: seq<Global>, moves: seq<Move>, i: nat, j: nat, mid: nat)
    requires InSequence(e, states, moves, i, j, mid)
    requires mid < |states| && i < |states[mid].scrapes| && j < |states[|moves|].scrapes|
    requires var s, t := states[mid].scrapes[i], states[|moves|].scrapes[j];
             HasPies(s) && s.source == Swept && s.partial && HasPies(t) && SameInputs(s, t)
    ensures var t := states[|moves|].scrapes[j]; t.source == Swept && t.calls == multiset(t.libs)
  {
    SequenceFacts(e, states, moves, i, j, mid);
    var s, t := states[mid].scrapes[i], states[|moves|].scrapes[j];
    SameFingerprint(e, s, t);
    AfterPartial(e, states[mid].cache, states[|moves|].cache, s, t);
  }

  lemma AfterPartial(e: Env, c: Snapshot, cache: Snapshot, s: Scrape, t: Scrape)
    requires s.metric.Some? && ShouldRefetch(c, s.metric.value, s.fingerprint)
    requires HasPies(t) && Knowledge(e, t) && SoloFacts(c, cache, t)
    requires SameInputs(s, t) && s.fingerprint == t.fingerprint
    ensures t.source == Swept && t.calls == multiset(t.libs)
  {}
}
