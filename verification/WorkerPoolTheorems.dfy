/** What fetchPies promises, for every schedule of its goroutines. */
module WorkerPoolTheorems {
  import opened Models
  import opened Folds
  import opened WorkerPool

  // ----------------------------------------------------------------- result

  /** When fetchPies returns, the list it returns holds one finished pie for every
      library except those whose request failed and those without an id or a
      name, and the partial flag says exactly whether there are any of those. */
  lemma ReturnedSweep(c: Config, s: State)
    requires Inv(c, s) && s.main == Returned && c.workers >= 1
    ensures multiset(c.libs) == multiset(Image(LibraryOf, Result(s))) + s.failed + s.unnamed
    ensures s.calls == multiset(c.libs)
    ensures forall p :: p in Result(s) ==> IsFinished(c, p)
    ensures s.partial <==> s.failed + s.unnamed != multiset{}
    ensures forall l :: l in s.unnamed ==> !Named(l)
  {
    NobodyAlive(s.workers);
    assert s.workers[0].Exited?;
    assert c.libs[..s.sent] == c.libs;
    assert PublishedRefs(s) == s.pieData;
    assert Published(s) == Result(s);
  }

  /** The same, for a whole run from the start. */
  lemma SweepTheorem(c: Config, s: State)
    requires Reachable(c, s) && s.main == Returned && c.workers >= 1
    ensures Inv(c, s)
    ensures multiset(c.libs) == multiset(Image(LibraryOf, Result(s))) + s.failed + s.unnamed
    ensures s.calls == multiset(c.libs) && forall l :: l in s.unnamed ==> l.id == "" || l.name == ""
    ensures forall p :: p in Result(s) ==> IsFinished(c, p) && p.libraryId != "" && p.libraryName != ""
    ensures s.partial <==> multiset(Image(LibraryOf, Result(s))) != multiset(c.libs)
  {
    ReachableInv(c, s);
    ReturnedSweep(c, s);
    if s.failed + s.unnamed == multiset{} {
      assert multiset(c.libs) == multiset(Image(LibraryOf, Result(s)));
    } else {
      var l :| l in s.failed + s.unnamed;
      assert multiset(c.libs)[l] > multiset(Image(LibraryOf, Result(s)))[l];
    }
  }

  /** No goroutine is ever about to send on a closed channel. */
  lemma NoSendOnClosedChannel(c: Config, s: State)
    requires Reachable(c, s)
    ensures s.main == Feeding ==> !s.inClosed
    ensures forall i :: 0 <= i < |s.workers| && s.workers[i].Sending? ==> !s.outClosed
  {
    ReachableInv(c, s);
    if s.outClosed { NobodyAlive(s.workers); }
  }

  // ------------------------------------------------------------ termination

  function WorkTokens(g: Goroutine): multiset<bool> {
    var none: multiset<bool> := multiset{};
    none[true := match g
                 case Idle => 1
                 case Fetching(_, _) => 5
                 case Normalizing(_, _, _) => 4
                 case Sending(_, _) => 3
                 case Exited => 0]
  }

  function MainRank(m: Main): nat {
    match m
    case Spawning => 5 case Feeding => 4 case StartingDrain => 3
    case AwaitWorkers => 2 case AwaitDrain => 1 case Returned => 0
  }

  /** Work left outside the workers. */
  function Outside(c: Config, s: State): int {
    6 * (|c.libs| - s.sent) + 5 * |s.inQ| + |s.outQ|
    + 2 * (c.workers - |s.workers|) + MainRank(s.main) + (if s.drain == Finished then 0 else 1)
  }

  /** Everything left to do apart from counter bumps. */
  function Work(c: Config, s: State): int {
    Outside(c, s) + |SeqSum(s.workers, WorkTokens)|
  }

  function Bumps(s: State): nat {
    |Pending(s.workers)|
  }

  lemma WorkReplace(ws: seq<Goroutine>, i: nat, g: Goroutine)
    requires i < |ws|
    ensures |SeqSum(ws[i := g], WorkTokens)|
            == |SeqSum(ws, WorkTokens)| - |WorkTokens(ws[i])| + |WorkTokens(g)|
  {
    SeqSumUpdate(ws, i, g, WorkTokens);
  }

  /** A bump leaves the rest of the work as it is and has one bump fewer to go. */
  lemma BumpDecreases(c: Config, s: State, i: nat)
    requires Enabled(c, s, Bump(i))
    ensures Work(c, Apply(c, s, Bump(i))) == Work(c, s)
    ensures Bumps(Apply(c, s, Bump(i))) < Bumps(s)
  {
    var w := s.workers[i];
    var g := Normalizing(w.lib, w.ref, w.todo[1..]);
    WorkReplace(s.workers, i, g);
    PendingReplace(s.workers, i, g);
    assert Apply(c, s, Bump(i)) == s.(workers := s.workers[i := g]);
  }

  lemma PendingReplace(ws: seq<Goroutine>, i: nat, g: Goroutine)
    requires i < |ws|
    ensures |Pending(ws[i := g])| == |Pending(ws)| - |PendingOf(ws[i])| + |PendingOf(g)|
  {
    SeqSumUpdate(ws, i, g, PendingOf);
  }

  /** Every other step leaves less work. */
  lemma StepDecreases(c: Config, s: State, a: Action)
    requires Channels(c, s) && Enabled(c, s, a) && !a.Bump?
    ensures 0 <= Work(c, Apply(c, s, a)) < Work(c, s)
  {
    ChannelsBound(c, s);
    WorkerMoves(c, s, a);
    var t := Apply(c, s, a);
    if a.Spawn? {
      SeqSumSnoc(s.workers, Idle, WorkTokens);
    } else if MovesWorker(a) {
      WorkReplace(s.workers, a.i, t.workers[a.i]);
      WorkerStepShrinks(c, s, a);
    } else {
      MainStepShrinks(c, s, a);
    }
  }

  lemma ChannelsBound(c: Config, s: State)
    requires Channels(c, s)
    ensures s.sent <= |c.libs| && |s.workers| <= c.workers
  {}

  lemma WorkerStepShrinks(c: Config, s: State, a: Action)
    requires Enabled(c, s, a) && MovesWorker(a) && !a.Bump? && s.sent <= |c.libs| && |s.workers| <= c.workers
    ensures |Apply(c, s, a).workers| == |s.workers|
    ensures 0 <= Outside(c, Apply(c, s, a))
    ensures Outside(c, Apply(c, s, a)) + |WorkTokens(Apply(c, s, a).workers[a.i])|
            < Outside(c, s) + |WorkTokens(s.workers[a.i])|
  {
    match a
    case HandIn(i) => HandoverShrinks(c, s, a);
    case Receive(i) => HandoverShrinks(c, s, a);
    case Exit(i) =>
    case Answer(i, o) =>
    case Publish(i) =>
    case Send(i) => HandoverShrinks(c, s, a);
    case HandOut(i) => HandoverShrinks(c, s, a);
  }

  /** The same for the steps that pass something through a channel. */
  lemma HandoverShrinks(c: Config, s: State, a: Action)
    requires Enabled(c, s, a) && (a.HandIn? || a.Receive? || a.Send? || a.HandOut?)
    requires s.sent <= |c.libs| && |s.workers| <= c.workers
    ensures |Apply(c, s, a).workers| == |s.workers|
    ensures 0 <= Outside(c, Apply(c, s, a))
    ensures Outside(c, Apply(c, s, a)) + |WorkTokens(Apply(c, s, a).workers[a.i])|
            < Outside(c, s) + |WorkTokens(s.workers[a.i])|
  {
    match a
    case HandIn(i) =>
    case Receive(i) =>
    case Send(i) =>
    case HandOut(i) =>
  }

  lemma MainStepShrinks(c: Config, s: State, a: Action)
    requires Enabled(c, s, a) && !MovesWorker(a) && !a.Spawn? && Channels(c, s)
    ensures Apply(c, s, a).workers == s.workers
    ensures 0 <= Outside(c, Apply(c, s, a)) < Outside(c, s)
  {}

  /** No run goes on for ever. */
  lemma EveryRunEnds(c: Config, run: nat -> State)
    requires run(0) == INIT
    ensures exists k: nat :: !StepsAt(c, run, k)
  {
    InitInv(c);
    var k := Descent(c, run, 0);
  }

  /** The run takes a step of the pool from its k-th state to the next. */
  ghost predicate StepsAt(c: Config, run: nat -> State, k: nat) {
    exists a: Action :: Enabled(c, run(k), a) && run(k + 1) == Apply(c, run(k), a)
  }

  lemma {:induction false} Descent(c: Config, run: nat -> State, k: nat) returns (last: nat)
    requires Inv(c, run(k))
    ensures !StepsAt(c, run, last)
    decreases Work(c, run(k)) + 1, Bumps(run(k))
  {
    if StepsAt(c, run, k) {
      var a: Action :| Enabled(c, run(k), a) && run(k + 1) == Apply(c, run(k), a);
      InvKept(c, run(k), a);
      StepShrinks(c, run(k), a);
      last := Descent(c, run, k + 1);
    } else {
      last := k;
    }
  }

  /** Every step lowers the work left, or keeps it and lowers the bumps left. */
  lemma StepShrinks(c: Config, s: State, a: Action)
    requires Inv(c, s) && Enabled(c, s, a)
    ensures var t := Apply(c, s, a);
            && Work(c, s) >= 0 && Work(c, t) >= 0
            && (Work(c, t) < Work(c, s) || (Work(c, t) == Work(c, s) && Bumps(t) < Bumps(s)))
  {
    WorkIsNat(c, s);
    if a.Bump? { BumpDecreases(c, s, a.i); } else { StepDecreases(c, s, a); }
  }

  lemma WorkIsNat(c: Config, s: State)
    requires Channels(c, s)
    ensures Work(c, s) >= 0
  {}

  // --------------------------------------------------------------- deadlock

  /** How many entries have an id and a name. */
  function NamedCount(libs: seq<Library>): nat {
    if libs == [] then 0
    else NamedCount(libs[..|libs| - 1]) + if Named(libs[|libs| - 1]) then 1 else 0
  }

  lemma {:induction false} LongerPrefix(libs: seq<Library>, i: nat, j: nat)
    requires i <= j <= |libs|
    ensures NamedCount(libs[..i]) <= NamedCount(libs[..j])
  {
    if i < j {
      LongerPrefix(libs, i, j - 1);
      assert libs[..j][..j - 1] == libs[..j - 1];
    }
  }

  lemma PartOfInit(init: seq<Library>, last: Library, part: multiset<Library>)
    requires part <= multiset(init + [last])
    ensures part - multiset{last} <= multiset(init)
    ensures |part - multiset{last}| == |part| - if last in part then 1 else 0
    ensures forall l :: l in part - multiset{last} ==> l in part
  {}

  /** A part of a list of which all, or none, are named is no larger than the list
      allows. */
  lemma {:induction false} PartFits(libs: seq<Library>, part: multiset<Library>)
    requires part <= multiset(libs)
    ensures (forall l :: l in part ==> Named(l)) ==> |part| <= NamedCount(libs)
    ensures (forall l :: l in part ==> !Named(l)) ==> |part| + NamedCount(libs) <= |libs|
  {
    if libs == [] {
      assert part == multiset{};
    } else {
      var init, last := libs[..|libs| - 1], libs[|libs| - 1];
      assert libs == init + [last];
      PartOfInit(init, last, part);
      PartFits(init, part - multiset{last});
    }
  }

  lemma {:induction false} HeldCount(ws: seq<Goroutine>)
    ensures |Held(ws)| <= |ws|
    ensures (forall i :: 0 <= i < |ws| ==> ws[i].Sending?) ==> |Held(ws)| == |ws|
    ensures (exists i :: 0 <= i < |ws| && ws[i].Idle?) ==> |Held(ws)| < |ws|
  {
    if ws != [] {
      assert Held(ws) == HeldBy(ws[0]) + Held(ws[1..]);
      HeldCount(ws[1..]);
      if i :| 0 < i < |ws| && ws[i].Idle? { assert ws[1..][i - 1].Idle?; }
    }
  }

  /** Before the drain starts, everything taken is held, dropped or waiting in the
      results channel. */
  lemma TakenCount(c: Config, s: State)
    requires Inv(c, s) && s.drain == NotStarted
    ensures Taken(s) == |s.failed| + |s.unnamed| + |Held(s.workers)| + |s.outQ|
  {
    assert |multiset(c.libs[..Taken(s)])| == Taken(s);
    assert |multiset(Image(LibraryOf, Published(s)))| == |s.outQ|;
  }

  /** Can every worker block on a full results channel while the feeder still has
      something to send?  Then so many named libraries come before the part of the
      list that the input channel can hold. */
  predicate Overfull(c: Config) {
    |c.libs| > c.inCap && NamedCount(c.libs[..|c.libs| - 1 - c.inCap]) >= c.workers + c.outCap
  }

  /** A worker that is not blocked on a send can step while the feeder waits. */
  lemma BusyMoves(c: Config, s: State, j: nat) returns (a: Action)
    requires Inv(c, s) && s.main == Feeding && s.sent < |c.libs| && j < |s.workers| && !s.workers[j].Sending?
    ensures Enabled(c, s, a)
  {
    assert WorkerContent(c, s.heap, s.workers[j]);
    match s.workers[j]
    case Idle =>
      if s.inQ == [] { a := HandIn(j); } else { a := Receive(j); }
    case Fetching(_, _) => a := Answer(j, Failed);
    case Normalizing(_, _, todo) =>
      if todo == [] { a := Publish(j); } else { a := Bump(j); }
    case Exited => assert false;
  }

  /** Once the input is closed and the drain runs, any worker still alive, or the
      drain, can step. */
  lemma WorkersFinish(c: Config, s: State) returns (a: Action)
    requires Inv(c, s) && s.main == AwaitWorkers
    ensures Enabled(c, s, a)
  {
    if s.dataWg == 0 {
      a := CloseOut;
    } else {
      var j := SomebodyAlive(s.workers);
      assert WorkerContent(c, s.heap, s.workers[j]);
      match s.workers[j]
      case Idle => if s.inQ == [] { a := Exit(j); } else { a := Receive(j); }
      case Fetching(_, _) => a := Answer(j, Failed);
      case Normalizing(_, _, todo) => if todo == [] { a := Publish(j); } else { a := Bump(j); }
      case Sending(_, _) => if s.outQ == [] { a := HandOut(j); } else { a := Collect; }
    }
  }

  /** Everybody waits: the feeder for room, the workers for the drain. */
  ghost predicate Blocked(c: Config, s: State) {
    && s.main == Feeding && s.sent < |c.libs| && |s.inQ| == c.inCap && |s.outQ| == c.outCap
    && forall j :: 0 <= j < |s.workers| ==> s.workers[j].Sending?
  }

  /** Nothing else holds the pool up. */
  lemma SomeStep(c: Config, s: State) returns (a: Action)
    requires Inv(c, s) && s.main != Returned && c.workers >= 1 && !Blocked(c, s)
    ensures Enabled(c, s, a)
  {
    match s.main
    case Spawning => if |s.workers| < c.workers { a := Spawn; } else { a := StartFeed; }
    case Feeding => a := FeederMoves(c, s);
    case StartingDrain => a := StartDrain;
    case AwaitWorkers => a := WorkersFinish(c, s);
    case AwaitDrain =>
      if s.drain == Finished { a := Join; }
      else if s.outQ != [] { a := Collect; }
      else { a := EndDrain; }
  }

  /** The step that a stalled feeder is waiting for, if there is one. */
  lemma FeederMoves(c: Config, s: State) returns (a: Action)
    requires Inv(c, s) && s.main == Feeding && c.workers >= 1 && !Blocked(c, s)
    ensures Enabled(c, s, a)
  {
    if s.sent == |c.libs| {
      a := CloseIn;
    } else if |s.inQ| < c.inCap {
      a := Feed;
    } else if j :| 0 <= j < |s.workers| && !s.workers[j].Sending? {
      a := BusyMoves(c, s, j);
    } else {
      assert s.workers[0].Sending? && |s.outQ| < c.outCap;
      a := Send(0);
    }
  }

  /** What a blocked worker holds, or has handed over, is named. */
  lemma HeldIsNamed(c: Config, s: State, l: Library)
    requires Inv(c, s) && l in Held(s.workers)
    requires forall j :: 0 <= j < |s.workers| ==> s.workers[j].Sending?
    ensures Named(l)
  {
    SeqSumMember(s.workers, HeldBy, l);
    var g :| g in s.workers && l in HeldBy(g);
    assert WorkerContent(c, s.heap, g);
  }

  lemma PublishedIsNamed(c: Config, s: State, l: Library)
    requires Content(c, s) && l in multiset(Image(LibraryOf, Published(s)))
    ensures Named(l)
  {
    var k :| 0 <= k < |Published(s)| && Image(LibraryOf, Published(s))[k] == l;
    assert IsFinished(c, Published(s)[k]);
  }

  lemma BlockedMeansOverfull(c: Config, s: State)
    requires Inv(c, s) && Blocked(c, s)
    ensures Overfull(c)
  {
    BlockedTaken(c, s);
    BlockedEarly(c, s);
    OverfullFrom(c, Taken(s));
  }

  lemma OverfullFrom(c: Config, taken: nat)
    requires taken <= |c.libs| - 1 - c.inCap && NamedCount(c.libs[..taken]) >= c.workers + c.outCap
    ensures Overfull(c)
  {
    LongerPrefix(c.libs, taken, |c.libs| - 1 - c.inCap);
  }

  lemma BlockedEarly(c: Config, s: State)
    requires Requested(c, s) && Blocked(c, s)
    ensures 0 <= Taken(s) <= |c.libs| - 1 - c.inCap
  {}

  /** Everything the blocked workers took and did not drop is named. */
  lemma BlockedTaken(c: Config, s: State)
    requires Inv(c, s) && Blocked(c, s)
    ensures NamedCount(c.libs[..Taken(s)]) >= c.workers + c.outCap
  {
    var part := Held(s.workers) + multiset(Image(LibraryOf, Published(s)));
    forall l | l in part ensures Named(l) {
      if l in Held(s.workers) { HeldIsNamed(c, s, l); } else { PublishedIsNamed(c, s, l); }
    }
    HeldCount(s.workers);
    assert |part| == c.workers + c.outCap;
    assert part <= s.calls;
    PartFits(c.libs[..Taken(s)], part);
  }

  lemma ReachInit(c: Config)
    ensures Reachable(c, INIT)
  {
    assert IsRun(c, [INIT], []);
  }

  lemma ReachStep(c: Config, s: State, a: Action)
    requires Reachable(c, s) && Enabled(c, s, a)
    ensures Reachable(c, Apply(c, s, a))
  {
    var states: seq<State>, acts: seq<Action> :| IsRun(c, states, acts) && states[|acts|] == s;
    var states', acts' := states + [Apply(c, s, a)], acts + [a];
    forall k | 0 <= k < |acts'| ensures StepAt(c, states', acts', k) {
      if k < |acts| { assert StepAt(c, states, acts, k); }
    }
    assert IsRun(c, states', acts') && states'[|acts'|] == Apply(c, s, a);
  }

  function SomeAnswer(c: Config, lib: Library): (stat: PieStat)
    ensures Allowed(c, lib, stat)
  {
    match c.upstream
    case Anything => BLANK.stat
    case Consistent(answer) => answer(c.totals, lib)
  }

  /** The same step, but with every request answered. */
  function Succeeding(c: Config, s: State, a: Action): (b: Action)
    requires Enabled(c, s, a)
    ensures Enabled(c, s, b)
  {
    if a.Answer? then Answer(a.i, Answered(SomeAnswer(c, s.workers[a.i].lib))) else a
  }

  /** When the last library was taken, some worker was free to take it. */
  predicate Roomy(c: Config, s: State)
    requires 0 <= Taken(s) <= |c.libs|
  {
    Taken(s) > 0 ==> NamedCount(c.libs[..Taken(s) - 1]) < c.workers + c.outCap
  }

  /** A feeding state of a run in which every request was answered. */
  ghost predicate Loading(c: Config, s: State) {
    && Reachable(c, s) && s.main in {Spawning, Feeding} && s.failed == multiset{}
    && 0 <= Taken(s) <= |c.libs| && Roomy(c, s)
  }

  /** The workers never get through to the end of the list. */
  lemma NeverFed(c: Config, s: State)
    requires Loading(c, s) && Overfull(c)
    ensures Inv(c, s) && s.sent < |c.libs|
  {
    ReachableInv(c, s);
    NotAtTheEnd(c, s);
  }

  lemma NotAtTheEnd(c: Config, s: State)
    requires Requested(c, s) && |s.inQ| <= c.inCap && Roomy(c, s) && Overfull(c)
    ensures s.sent < |c.libs|
  {
    if s.sent == |c.libs| {
      LongerPrefix(c.libs, |c.libs| - 1 - c.inCap, Taken(s) - 1);
    }
  }

  /** Whoever is free to take a library leaves room for one more named one. */
  lemma RoomToTake(c: Config, s: State, i: nat)
    requires Inv(c, s) && s.main in {Spawning, Feeding} && s.failed == multiset{}
    requires i < |s.workers| && s.workers[i].Idle?
    ensures NamedCount(c.libs[..Taken(s)]) < c.workers + c.outCap
  {
    TakenCount(c, s);
    HeldCount(s.workers);
    assert s.unnamed <= s.calls;
    PartFits(c.libs[..Taken(s)], s.unnamed);
  }

  lemma StillLoading(c: Config, s: State, a: Action)
    requires Loading(c, s) && Overfull(c) && Enabled(c, s, a)
    ensures Loading(c, Apply(c, s, Succeeding(c, s, a)))
  {
    var b := Succeeding(c, s, a);
    NeverFed(c, s);
    ReachStep(c, s, b);
    StillFilling(c, s, b);
  }

  lemma StillFilling(c: Config, s: State, b: Action)
    requires Inv(c, s) && s.main in {Spawning, Feeding} && s.failed == multiset{} && s.sent < |c.libs| && Roomy(c, s)
    requires Enabled(c, s, b) && (b.Answer? ==> b.outcome.Answered?)
    ensures var t := Apply(c, s, b);
            t.main in {Spawning, Feeding} && t.failed == multiset{} && 0 <= Taken(t) <= |c.libs| && Roomy(c, t)
  {
    if b.HandIn? || b.Receive? { StillRoomy(c, s, b); } else { StillTaken(c, s, b); }
  }

  lemma StillRoomy(c: Config, s: State, b: Action)
    requires Inv(c, s) && s.main in {Spawning, Feeding} && s.failed == multiset{}
    requires Enabled(c, s, b) && (b.HandIn? || b.Receive?)
    ensures var t := Apply(c, s, b);
            t.main == s.main && t.failed == s.failed && 0 <= Taken(t) <= |c.libs| && Roomy(c, t)
  {
    RoomToTake(c, s, b.i);
    RequestedTaking(c, s, b);
  }

  /** Other steps of such a run take nothing and fail nothing. */
  lemma StillTaken(c: Config, s: State, b: Action)
    requires Enabled(c, s, b) && !(b.HandIn? || b.Receive?) && (b.Answer? ==> b.outcome.Answered?)
    requires s.main in {Spawning, Feeding} && s.sent < |c.libs|
    ensures var t := Apply(c, s, b);
            t.main in {Spawning, Feeding} && Taken(t) == Taken(s) && t.failed == s.failed
  {
    StillFeeding(c, s, b);
    if !b.Feed? { QueueUntouched(c, s, b); }
    if !b.Answer? { FlagUntouched(c, s, b); }
  }

  lemma StillFeeding(c: Config, s: State, b: Action)
    requires Enabled(c, s, b) && s.main in {Spawning, Feeding} && s.sent < |c.libs|
    ensures Apply(c, s, b).main in {Spawning, Feeding}
  {}

  /** With an overfull list, a run in which every request is answered always ends
      with everybody waiting. */
  lemma {:induction false} Stall(c: Config, s: State) returns (t: State)
    requires Loading(c, s) && Overfull(c)
    ensures Reachable(c, t) && Stuck(c, t)
    decreases Work(c, s) + 1, Bumps(s)
  {
    if a: Action :| Enabled(c, s, a) {
      NeverFed(c, s);
      StillLoading(c, s, a);
      var b := Succeeding(c, s, a);
      WorkIsNat(c, s);
      if b.Bump? { BumpDecreases(c, s, b.i); } else { StepDecreases(c, s, b); }
      t := Stall(c, Apply(c, s, b));
    } else {
      t := s;
    }
  }

  /** For every library list: some schedule gets the pool stuck if and only if the
      list is longer than the input channel and, before the part of it that the
      channel and the feeder's hand can hold, has at least as many named entries as
      there are workers and slots in the results channel. */
  lemma DeadlockIff(c: Config)
    requires c.workers >= 1
    ensures (exists s :: Reachable(c, s) && Stuck(c, s)) <==> Overfull(c)
  {
    if Overfull(c) {
      ReachInit(c);
      var t := Stall(c, INIT);
    } else {
      forall s | Reachable(c, s) ensures !Stuck(c, s) { NeverStuck(c, s); }
    }
  }

  lemma NeverStuck(c: Config, s: State)
    requires Reachable(c, s) && c.workers >= 1 && !Overfull(c)
    ensures !Stuck(c, s)
  {
    ReachableInv(c, s);
    if s.main != Returned {
      if Blocked(c, s) { BlockedMeansOverfull(c, s); }
      var a := SomeStep(c, s);
    }
  }

  lemma {:induction false} AllNamed(libs: seq<Library>)
    requires forall l :: l in libs ==> Named(l)
    ensures NamedCount(libs) == |libs|
  {
    if libs != [] { AllNamed(libs[..|libs| - 1]); }
  }

  /** With an id and a name everywhere, the list is overfull exactly when it is
      longer than the workers and both channels together. */
  lemma NamedListsOverfull(c: Config)
    requires forall l :: l in c.libs ==> Named(l)
    ensures Overfull(c) <==> |c.libs| > c.workers + c.inCap + c.outCap
  {
    if |c.libs| > c.inCap { AllNamed(c.libs[..|c.libs| - 1 - c.inCap]); }
  }

  /** Any results-channel capacity will do, including none, because the input
      channel alone holds the whole list. */
  lemma AnyResultCapacity(libs: seq<Library>, workers: nat, outCap: nat, totals: Totals, upstream: Upstream, s: State)
    requires workers >= 1
    requires Reachable(Config(libs, workers, |libs|, outCap, totals, upstream), s)
    ensures !Stuck(Config(libs, workers, |libs|, outCap, totals, upstream), s)
  {
    NeverStuck(Config(libs, workers, |libs|, outCap, totals, upstream), s);
  }
}
