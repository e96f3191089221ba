/** The fan-out of one sweep over the libraries (fetchPies and getLibStats in
  internal/collector/tdarr.go), as a transition system over goroutines and
  channels.

  The goroutines are the one running fetchPies (`main`), the workers, and the
  drain that collects results.  Both channel capacities and the worker count are
  parameters; the code uses the length of the library list for both channels.
  Pies live in a heap and travel by reference, as in the code. */
module WorkerPool {
  import opened Models
  import opened Folds
  import opened StatusEnums

  /** What the upstream may answer: anything, or only what one consistent server
      would say about a library given the ten totals. */
  datatype Upstream = Anything | Consistent(answer: (Totals, Library) -> PieStat)

  datatype Config = Config(
    libs: seq<Library>, workers: nat, inCap: nat, outCap: nat,
    totals: Totals, upstream: Upstream)

  /** The configuration fetchPies runs with. */
  function CodeConfig(libs: seq<Library>, workers: nat, totals: Totals, upstream: Upstream): Config {
    Config(libs, workers, |libs|, |libs|, totals, upstream)
  }

  predicate Allowed(c: Config, lib: Library, stat: PieStat) {
    match c.upstream
    case Anything => true
    case Consistent(answer) => stat == answer(c.totals, lib)
  }

  predicate Named(lib: Library) {
    lib.id != "" && lib.name != ""
  }

  /** Index of a pie in the heap. */
  type Ref = nat

  datatype Main = Spawning | Feeding | StartingDrain | AwaitWorkers | AwaitDrain | Returned

  datatype Drain = NotStarted | Draining | Finished

  datatype Goroutine =
    | Idle
    | Fetching(lib: Library, ref: Ref)
    | Normalizing(lib: Library, ref: Ref, todo: seq<StatusKey>)
    | Sending(lib: Library, ref: Ref)
    | Exited

  /** `calls`, `failed` and `unnamed` are history: the get-pies requests made, those
      that failed, and the libraries skipped for an empty id or name. */
  datatype State = State(
    main: Main, sent: nat, inQ: seq<Library>, inClosed: bool,
    workers: seq<Goroutine>, dataWg: nat,
    outQ: seq<Ref>, outClosed: bool, drain: Drain, pieData: seq<Ref>,
    partial: bool, heap: seq<Pie>,
    calls: multiset<Library>, failed: multiset<Library>, unnamed: multiset<Library>)

  const BLANK := Pie(PieStat(0, 0, 0, 0.0, [], [], Media([], [], []), Media([], [], [])), "", "", map[], map[])

  const INIT := State(Spawning, 0, [], false, [], 0, [], false, NotStarted, [], false, [],
                      multiset{}, multiset{}, multiset{})

  datatype Outcome = Failed | Answered(stat: PieStat)

  /** One atomic step of one goroutine (two, when a send meets a receive). */
  datatype Action =
    | Spawn | StartFeed | Feed | HandIn(i: nat) | CloseIn | StartDrain | CloseOut | Join
    | Receive(i: nat) | Exit(i: nat) | Answer(i: nat, outcome: Outcome)
    | Bump(i: nat) | Publish(i: nat) | Send(i: nat) | HandOut(i: nat)
    | Collect | EndDrain

  predicate Enabled(c: Config, s: State, a: Action) {
    match a
    case Spawn => s.main == Spawning && |s.workers| < c.workers
    case StartFeed => s.main == Spawning && |s.workers| == c.workers
    case Feed => s.main == Feeding && s.sent < |c.libs| && |s.inQ| < c.inCap
    case HandIn(i) =>
      s.main == Feeding && s.sent < |c.libs| && s.inQ == [] && i < |s.workers| && s.workers[i].Idle?
    case CloseIn => s.main == Feeding && s.sent == |c.libs|
    case StartDrain => s.main == StartingDrain
    case CloseOut => s.main == AwaitWorkers && s.dataWg == 0
    case Join => s.main == AwaitDrain && s.drain == Finished
    case Receive(i) => i < |s.workers| && s.workers[i].Idle? && s.inQ != []
    case Exit(i) => i < |s.workers| && s.workers[i].Idle? && s.inQ == [] && s.inClosed && s.dataWg > 0
    case Answer(i, o) =>
      && i < |s.workers| && s.workers[i].Fetching? && s.workers[i].ref < |s.heap|
      && (o.Answered? ==> Allowed(c, s.workers[i].lib, o.stat))
    case Bump(i) => i < |s.workers| && s.workers[i].Normalizing? && s.workers[i].todo != []
    case Publish(i) =>
      i < |s.workers| && s.workers[i].Normalizing? && s.workers[i].todo == [] && s.workers[i].ref < |s.heap|
    case Send(i) => i < |s.workers| && s.workers[i].Sending? && |s.outQ| < c.outCap && !s.outClosed
    case HandOut(i) =>
      i < |s.workers| && s.workers[i].Sending? && s.outQ == [] && !s.outClosed && s.drain == Draining
    case Collect => s.drain == Draining && s.outQ != []
    case EndDrain => s.drain == Draining && s.outQ == [] && s.outClosed
  }

  function Apply(c: Config, s: State, a: Action): State
    requires Enabled(c, s, a)
  {
    match a
    case Spawn => s.(workers := s.workers + [Idle], dataWg := s.dataWg + 1)
    case StartFeed => s.(main := Feeding)
    case Feed => s.(inQ := s.inQ + [c.libs[s.sent]], sent := s.sent + 1)
    case HandIn(i) => Begin(s.(sent := s.sent + 1), i, c.libs[s.sent])
    case CloseIn => s.(main := StartingDrain, inClosed := true)
    case StartDrain => s.(main := AwaitWorkers, drain := Draining)
    case CloseOut => s.(main := AwaitDrain, outClosed := true)
    case Join => s.(main := Returned)
    case Receive(i) => Begin(s.(inQ := s.inQ[1..]), i, s.inQ[0])
    case Exit(i) => s.(workers := s.workers[i := Exited], dataWg := s.dataWg - 1)
    case Answer(i, o) => Respond(s, i, o)
    case Bump(i) =>
      var w := s.workers[i];
      s.(workers := s.workers[i := Normalizing(w.lib, w.ref, w.todo[1..])])
    case Publish(i) =>
      var w := s.workers[i];
      s.(heap := s.heap[w.ref := MakePie(LibraryOf(s.heap[w.ref]), s.heap[w.ref].stat)],
         workers := s.workers[i := Sending(w.lib, w.ref)])
    case Send(i) => s.(outQ := s.outQ + [s.workers[i].ref], workers := s.workers[i := Idle])
    case HandOut(i) => s.(pieData := s.pieData + [s.workers[i].ref], workers := s.workers[i := Idle])
    case Collect => s.(pieData := s.pieData + [s.outQ[0]], outQ := s.outQ[1..])
    case EndDrain => s.(drain := Finished)
  }

  /** Worker `i` takes `lib`, allocates a pie and issues its request. */
  function Begin(s: State, i: nat, lib: Library): State
    requires i < |s.workers|
  {
    s.(workers := s.workers[i := Fetching(lib, |s.heap|)],
       heap := s.heap + [BLANK],
       calls := s.calls + multiset{lib})
  }

  /** The request of worker `i` comes back.  The decoded body and the names go
      into the pie even when the library is then skipped. */
  function Respond(s: State, i: nat, o: Outcome): State
    requires i < |s.workers| && s.workers[i].Fetching? && s.workers[i].ref < |s.heap|
  {
    var Fetching(lib, ref) := s.workers[i];
    match o
    case Failed =>
      s.(workers := s.workers[i := Idle], partial := true, failed := s.failed + multiset{lib})
    case Answered(stat) =>
      var written := s.heap[ref := Pie(stat, lib.id, lib.name, map[], map[])];
      if Named(lib) then
        s.(heap := written, workers := s.workers[i := Normalizing(lib, ref, UnknownKeys(stat))])
      else
        s.(heap := written, workers := s.workers[i := Idle], partial := true,
           unnamed := s.unnamed + multiset{lib})
  }

  // -------------------------------------------------------------------- runs

  ghost predicate IsRun(c: Config, states: seq<State>, acts: seq<Action>) {
    && |states| == |acts| + 1 && states[0] == INIT
    && forall k :: 0 <= k < |acts| ==> StepAt(c, states, acts, k)
  }

  ghost predicate StepAt(c: Config, states: seq<State>, acts: seq<Action>, k: nat)
    requires |states| == |acts| + 1 && k < |acts|
  {
    Enabled(c, states[k], acts[k]) && states[k + 1] == Apply(c, states[k], acts[k])
  }

  ghost predicate Reachable(c: Config, s: State) {
    exists states: seq<State>, acts: seq<Action> :: IsRun(c, states, acts) && states[|acts|] == s
  }

  ghost predicate Stuck(c: Config, s: State) {
    s.main != Returned && forall a: Action :: !Enabled(c, s, a)
  }

  // --------------------------------------------------------------- meanings

  function HeldBy(g: Goroutine): multiset<Library> {
    if g.Fetching? || g.Normalizing? || g.Sending? then multiset{g.lib} else multiset{}
  }

  /** The libraries workers are busy with. */
  function Held(workers: seq<Goroutine>): multiset<Library> {
    SeqSum(workers, HeldBy)
  }

  function PendingOf(g: Goroutine): multiset<StatusKey> {
    if g.Normalizing? then multiset(g.todo) else multiset{}
  }

  /** Counter bumps begun but not yet made. */
  function Pending(workers: seq<Goroutine>): multiset<StatusKey> {
    SeqSum(workers, PendingOf)
  }

  function AliveToken(g: Goroutine): multiset<bool> {
    if g.Exited? then multiset{} else multiset{true}
  }

  function Alive(workers: seq<Goroutine>): multiset<bool> {
    SeqSum(workers, AliveToken)
  }

  predicate HasRef(g: Goroutine) {
    g.Fetching? || g.Normalizing? || g.Sending?
  }

  /** References handed over by workers, oldest first. */
  function PublishedRefs(s: State): seq<Ref> {
    s.pieData + s.outQ
  }

  function Deref(heap: seq<Pie>, refs: seq<Ref>): (r: seq<Pie>)
    requires forall k :: 0 <= k < |refs| ==> refs[k] < |heap|
    ensures |r| == |refs| && forall k :: 0 <= k < |refs| ==> r[k] == heap[refs[k]]
  {
    seq(|refs|, k requires 0 <= k < |refs| => heap[refs[k]])
  }

  /** The pies handed over so far. */
  function Published(s: State): seq<Pie>
    requires InHeap(s)
  {
    Deref(s.heap, PublishedRefs(s))
  }

  predicate InHeap(s: State) {
    forall k :: 0 <= k < |PublishedRefs(s)| ==> PublishedRefs(s)[k] < |s.heap|
  }

  /** What fetchPies returns besides the partial flag. */
  function Result(s: State): seq<Pie>
    requires InHeap(s)
  {
    assert forall k :: 0 <= k < |s.pieData| ==> PublishedRefs(s)[k] == s.pieData[k];
    Deref(s.heap, s.pieData)
  }

  // ------------------------------------------------------------- invariants

  /** How the channels and the program counters fit together. */
  ghost predicate Channels(c: Config, s: State) {
    && s.sent <= |c.libs| && |s.inQ| <= c.inCap && |s.outQ| <= c.outCap
    && |s.workers| <= c.workers && (s.main != Spawning ==> |s.workers| == c.workers)
    && (s.main == Spawning ==> s.sent == 0)
    && (s.inClosed <==> s.main in {StartingDrain, AwaitWorkers, AwaitDrain, Returned})
    && (s.inClosed ==> s.sent == |c.libs|)
    && (s.outClosed <==> s.main in {AwaitDrain, Returned})
    && (s.drain == NotStarted <==> s.main in {Spawning, Feeding, StartingDrain})
    && (s.drain == NotStarted ==> s.pieData == [])
    && (s.drain == Finished ==> s.outClosed && s.outQ == [])
    && (s.main == Returned ==> s.drain == Finished)
    && (forall i :: 0 <= i < |s.workers| && s.workers[i].Exited? ==> s.inClosed && s.inQ == [])
  }

  /** The wait group counts the workers that have not exited, and the results
      channel is closed only once it has reached zero. */
  ghost predicate WaitGroup(s: State) {
    && s.dataWg == |Alive(s.workers)|
    && (s.outClosed ==> s.dataWg == 0 && s.main != Spawning)
  }

  /** No two goroutines share an unpublished pie, and nobody who may still write
      holds a published one. */
  ghost predicate Ownership(s: State) {
    && InHeap(s)
    && (forall i :: 0 <= i < |s.workers| && HasRef(s.workers[i]) ==> s.workers[i].ref < |s.heap|)
    && (forall i, j :: 0 <= i < j < |s.workers| && HasRef(s.workers[i]) && HasRef(s.workers[j]) ==>
          s.workers[i].ref != s.workers[j].ref)
    && (forall i, k :: 0 <= i < |s.workers| && HasRef(s.workers[i]) && 0 <= k < |PublishedRefs(s)| ==>
          PublishedRefs(s)[k] != s.workers[i].ref)
  }

  /** A finished pie: named, an allowed answer, and normalised. */
  ghost predicate IsFinished(c: Config, p: Pie) {
    && Named(LibraryOf(p)) && Allowed(c, LibraryOf(p), p.stat) && p == MakePie(LibraryOf(p), p.stat)
  }

  ghost predicate WorkerContent(c: Config, heap: seq<Pie>, g: Goroutine) {
    && (HasRef(g) ==> g.ref < |heap|)
    && (g.Normalizing? || g.Sending? ==>
          Named(g.lib) && LibraryOf(heap[g.ref]) == g.lib && Allowed(c, g.lib, heap[g.ref].stat))
    && (g.Sending? ==> IsFinished(c, heap[g.ref]))
  }

  /** What the pies hold at each stage. */
  ghost predicate Content(c: Config, s: State) {
    && InHeap(s)
    && (forall i :: 0 <= i < |s.workers| ==> WorkerContent(c, s.heap, s.workers[i]))
    && (forall k :: 0 <= k < |Published(s)| ==> IsFinished(c, Published(s)[k]))
  }

  /** How many libraries workers have taken so far. */
  function Taken(s: State): int {
    s.sent - |s.inQ|
  }

  /** The queue is first in, first out: the libraries taken, and so requested, are
      the first of the list, and the next of it are queued. */
  ghost predicate Requested(c: Config, s: State) {
    && 0 <= Taken(s) <= s.sent <= |c.libs|
    && s.inQ == c.libs[Taken(s)..s.sent] && s.calls == multiset(c.libs[..Taken(s)])
  }

  /** Every library requested has failed, was skipped, is with a worker, or has
      had its pie handed over. */
  ghost predicate Accounted(s: State) {
    InHeap(s) && s.calls == s.failed + s.unnamed + Held(s.workers) + multiset(Image(LibraryOf, Published(s)))
  }

  /** The partial flag is up exactly when a library has been dropped. */
  ghost predicate Flagged(s: State) {
    && (s.partial <==> s.failed + s.unnamed != multiset{})
    && (forall l :: l in s.unnamed ==> !Named(l))
  }

  ghost predicate Inv(c: Config, s: State) {
    && Channels(c, s) && WaitGroup(s) && Ownership(s) && Content(c, s)
    && Requested(c, s) && Accounted(s) && Flagged(s)
  }

  lemma InitInv(c: Config)
    ensures Inv(c, INIT)
  {
    assert c.libs[..0] == [];
    assert Image(LibraryOf, Published(INIT)) == [];
  }

  lemma {:induction false} NobodyAlive(ws: seq<Goroutine>)
    requires |Alive(ws)| == 0
    ensures forall i :: 0 <= i < |ws| ==> ws[i].Exited?
    ensures Held(ws) == multiset{} && Pending(ws) == multiset{}
  {
    if ws != [] {
      assert Alive(ws) == AliveToken(ws[0]) + Alive(ws[1..]);
      NobodyAlive(ws[1..]);
    }
  }

  lemma {:induction false} SomebodyAlive(ws: seq<Goroutine>) returns (i: nat)
    requires |Alive(ws)| > 0
    ensures i < |ws| && !ws[i].Exited?
  {
    if ws[0].Exited? {
      assert Alive(ws) == Alive(ws[1..]);
      i := SomebodyAlive(ws[1..]);
      i := i + 1;
    } else {
      i := 0;
    }
  }

  lemma ChannelsKept(c: Config, s: State, a: Action)
    requires Channels(c, s) && WaitGroup(s) && Enabled(c, s, a)
    ensures Channels(c, Apply(c, s, a))
  {
    if a.CloseOut? || a.Join? || a.EndDrain? || a.StartDrain? || a.CloseIn? {
    } else if a.Spawn? || a.StartFeed? || a.Feed? || a.Collect? {
    } else if a.HandOut? || a.Send? {
    } else {
      ChannelsKeptByWorkers(c, s, a);
    }
  }

  lemma ChannelsKeptByWorkers(c: Config, s: State, a: Action)
    requires Channels(c, s) && Enabled(c, s, a)
    requires a.HandIn? || a.Receive? || a.Exit? || a.Answer? || a.Bump? || a.Publish?
    ensures Channels(c, Apply(c, s, a))
  {
    match a
    case HandIn(i) => ChannelsKeptByHandIn(c, s, i);
    case Receive(i) => ChannelsKeptByReceive(c, s, i);
    case Exit(i) => ChannelsKeptByExit(c, s, i);
    case Answer(i, o) => ChannelsKeptByAnswer(c, s, i, o);
    case Bump(i) =>
    case Publish(i) =>
  }

  lemma ChannelsKeptByHandIn(c: Config, s: State, i: nat)
    requires Channels(c, s) && Enabled(c, s, HandIn(i))
    ensures Channels(c, Apply(c, s, HandIn(i)))
  {}

  lemma ChannelsKeptByAnswer(c: Config, s: State, i: nat, o: Outcome)
    requires Channels(c, s) && Enabled(c, s, Answer(i, o))
    ensures Channels(c, Apply(c, s, Answer(i, o)))
  {}

  lemma ChannelsKeptByReceive(c: Config, s: State, i: nat)
    requires Channels(c, s) && Enabled(c, s, Receive(i))
    ensures Channels(c, Apply(c, s, Receive(i)))
  {}

  lemma ChannelsKeptByExit(c: Config, s: State, i: nat)
    requires Channels(c, s) && Enabled(c, s, Exit(i))
    ensures Channels(c, Apply(c, s, Exit(i)))
  {}

  /** The steps that move worker `a.i` on. */
  predicate MovesWorker(a: Action) {
    a.HandIn? || a.Receive? || a.Exit? || a.Answer? || a.Bump? || a.Publish? || a.Send? || a.HandOut?
  }

  /** The step moves worker `i` and no other. */
  ghost predicate MovesOnly(s: State, t: State, i: nat, exits: bool) {
    && i < |s.workers| == |t.workers| && t.workers == s.workers[i := t.workers[i]]
    && !s.workers[i].Exited? && (t.workers[i].Exited? <==> exits)
  }

  lemma WorkerMoves(c: Config, s: State, a: Action)
    requires Enabled(c, s, a)
    ensures var t := Apply(c, s, a);
            if MovesWorker(a) then MovesOnly(s, t, a.i, a.Exit?)
            else t.workers == if a.Spawn? then s.workers + [Idle] else s.workers
  {
    match a
    case HandIn(i) => TakerMoves(c, s, a);
    case Receive(i) => TakerMoves(c, s, a);
    case Answer(i, o) => TalkerMoves(c, s, a);
    case Publish(i) => TalkerMoves(c, s, a);
    case Send(i) => GiverMoves(c, s, a);
    case HandOut(i) => GiverMoves(c, s, a);
    case Exit(i) =>
    case Bump(i) =>
    case _ => NobodyMoves(c, s, a);
  }

  lemma TakerMoves(c: Config, s: State, a: Action)
    requires Enabled(c, s, a) && (a.HandIn? || a.Receive?)
    ensures MovesOnly(s, Apply(c, s, a), a.i, false)
  {}

  lemma TalkerMoves(c: Config, s: State, a: Action)
    requires Enabled(c, s, a) && (a.Answer? || a.Publish?)
    ensures MovesOnly(s, Apply(c, s, a), a.i, false)
  {}

  lemma GiverMoves(c: Config, s: State, a: Action)
    requires Enabled(c, s, a) && (a.Send? || a.HandOut?)
    ensures MovesOnly(s, Apply(c, s, a), a.i, false)
  {}

  lemma NobodyMoves(c: Config, s: State, a: Action)
    requires Enabled(c, s, a) && !MovesWorker(a)
    ensures Apply(c, s, a).workers == if a.Spawn? then s.workers + [Idle] else s.workers
  {}

  lemma AliveCount(ws: seq<Goroutine>, i: nat, g: Goroutine)
    requires i < |ws| && !ws[i].Exited?
    ensures |Alive(ws[i := g])| == |Alive(ws)| - if g.Exited? then 1 else 0
  {
    SeqSumUpdate(ws, i, g, AliveToken);
  }

  lemma WaitGroupKept(c: Config, s: State, a: Action)
    requires Channels(c, s) && WaitGroup(s) && Enabled(c, s, a)
    ensures WaitGroup(Apply(c, s, a))
  {
    WorkerMoves(c, s, a);
    var t := Apply(c, s, a);
    if a.Spawn? {
      SeqSumSnoc(s.workers, Idle, AliveToken);
    } else if MovesWorker(a) {
      AliveCount(s.workers, a.i, t.workers[a.i]);
    }
    WaitGroupSteps(c, s, a);
  }

  lemma WaitGroupSteps(c: Config, s: State, a: Action)
    requires Enabled(c, s, a)
    ensures var t := Apply(c, s, a);
            && t.dataWg == s.dataWg + (if a.Spawn? then 1 else if a.Exit? then -1 else 0)
            && (t.outClosed ==> s.outClosed || (a.CloseOut? && s.dataWg == 0))
            && (a.Spawn? ==> s.main == Spawning)
            && (t.main == Spawning ==> s.main == Spawning)
            && (a.CloseOut? ==> t.main == AwaitDrain)
  {}

  /** What a step adds to the published references. */
  function NewlyPublished(s: State, a: Action): seq<Ref>
    requires a.Send? || a.HandOut? ==> a.i < |s.workers| && s.workers[a.i].Sending?
  {
    if a.Send? || a.HandOut? then [s.workers[a.i].ref] else []
  }

  lemma RefsPublished(c: Config, s: State, a: Action)
    requires Enabled(c, s, a)
    ensures PublishedRefs(Apply(c, s, a)) == PublishedRefs(s) + NewlyPublished(s, a)
  {
    if a.Collect? {
      assert s.outQ == [s.outQ[0]] + s.outQ[1..];
    } else if !(a.Send? || a.HandOut?) {
      NothingPublished(c, s, a);
    }
  }

  lemma NothingPublished(c: Config, s: State, a: Action)
    requires Enabled(c, s, a) && !(a.Send? || a.HandOut? || a.Collect?)
    ensures Apply(c, s, a).pieData == s.pieData && Apply(c, s, a).outQ == s.outQ
  {}

  lemma OwnershipKept(c: Config, s: State, a: Action)
    requires Ownership(s) && Enabled(c, s, a)
    ensures Ownership(Apply(c, s, a))
  {
    RefsPublished(c, s, a);
    if a.Send? || a.HandOut? {
      OwnershipHanded(s, Apply(c, s, a), a.i);
    } else {
      OwnershipOfWorkers(c, s, a);
    }
  }

  lemma OwnershipHanded(s: State, t: State, i: nat)
    requires Ownership(s) && i < |s.workers| && HasRef(s.workers[i])
    requires PublishedRefs(t) == PublishedRefs(s) + [s.workers[i].ref]
    requires t.workers == s.workers[i := Idle] && t.heap == s.heap
    ensures Ownership(t)
  {
    forall k | 0 <= k < |PublishedRefs(t)| ensures PublishedRefs(t)[k] < |t.heap| {}
  }

  lemma OwnershipOfWorkers(c: Config, s: State, a: Action)
    requires Ownership(s) && Enabled(c, s, a) && !(a.Send? || a.HandOut?)
    requires PublishedRefs(Apply(c, s, a)) == PublishedRefs(s)
    ensures Ownership(Apply(c, s, a))
  {
    WorkerMoves(c, s, a);
    var t := Apply(c, s, a);
    if MovesWorker(a) {
      RefMoves(c, s, a);
    }
  }

  /** Worker `i` holds the pie it held, a fresh one, or none. */
  ghost predicate RefKept(s: State, t: State, i: nat, takes: bool) {
    && |s.heap| <= |t.heap| && i < |s.workers| == |t.workers|
    && (HasRef(t.workers[i]) ==>
          if takes then t.workers[i].ref == |s.heap| < |t.heap|
          else HasRef(s.workers[i]) && t.workers[i].ref == s.workers[i].ref)
  }

  lemma RefMoves(c: Config, s: State, a: Action)
    requires Enabled(c, s, a) && MovesWorker(a)
    ensures RefKept(s, Apply(c, s, a), a.i, a.HandIn? || a.Receive?)
  {
    match a
    case HandIn(i) => RefTaken(c, s, a);
    case Receive(i) => RefTaken(c, s, a);
    case Answer(i, o) => RefWritten(c, s, a);
    case Publish(i) => RefWritten(c, s, a);
    case _ =>
  }

  lemma RefTaken(c: Config, s: State, a: Action)
    requires Enabled(c, s, a) && (a.HandIn? || a.Receive?)
    ensures RefKept(s, Apply(c, s, a), a.i, true)
  {}

  lemma RefWritten(c: Config, s: State, a: Action)
    requires Enabled(c, s, a) && (a.Answer? || a.Publish?)
    ensures RefKept(s, Apply(c, s, a), a.i, false)
  {}

  /** Once a pie has been handed over, it never changes: the list of published
      pies only grows at its end. */
  lemma PublishedNeverChange(c: Config, s: State, a: Action)
    requires Ownership(s) && Enabled(c, s, a)
    ensures Ownership(Apply(c, s, a))
    ensures Published(s) <= Published(Apply(c, s, a))
    ensures Published(Apply(c, s, a)) == Published(s)
            + if a.Send? || a.HandOut? then [s.heap[s.workers[a.i].ref]] else []
  {
    OwnershipKept(c, s, a);
    RefsPublished(c, s, a);
    HeapFrame(c, s, a);
    DerefGrows(s.heap, Apply(c, s, a).heap, PublishedRefs(s), NewlyPublished(s, a));
    if a.Send? || a.HandOut? { HeapUntouched(c, s, a); }
  }

  lemma DerefGrows(heap: seq<Pie>, heap': seq<Pie>, refs: seq<Ref>, more: seq<Ref>)
    requires forall k :: 0 <= k < |refs| ==> refs[k] < |heap| && refs[k] < |heap'| && heap'[refs[k]] == heap[refs[k]]
    requires forall k :: 0 <= k < |more| ==> more[k] < |heap'|
    requires forall k :: 0 <= k < |refs + more| ==> (refs + more)[k] < |heap'|
    ensures Deref(heap', refs + more) == Deref(heap, refs) + Deref(heap', more)
  {}

  lemma HeapUntouched(c: Config, s: State, a: Action)
    requires Enabled(c, s, a) && (a.Send? || a.HandOut?)
    ensures Apply(c, s, a).heap == s.heap
  {}

  /** Steps write only to pies no one has handed over yet. */
  lemma HeapFrame(c: Config, s: State, a: Action)
    requires Ownership(s) && Enabled(c, s, a)
    ensures |s.heap| <= |Apply(c, s, a).heap|
    ensures forall k :: 0 <= k < |PublishedRefs(s)| ==>
              Apply(c, s, a).heap[PublishedRefs(s)[k]] == s.heap[PublishedRefs(s)[k]]
  {}

  lemma ContentKept(c: Config, s: State, a: Action)
    requires Ownership(s) && Content(c, s) && Enabled(c, s, a)
    ensures Content(c, Apply(c, s, a))
  {
    PublishedNeverChange(c, s, a);
    var t := Apply(c, s, a);
    forall j | 0 <= j < |t.workers| ensures WorkerContent(c, t.heap, t.workers[j]) {
      WorkerContentKept(c, s, a, j);
    }
    if a.Send? || a.HandOut? {
      assert WorkerContent(c, s.heap, s.workers[a.i]);
    }
  }

  lemma WorkerContentKept(c: Config, s: State, a: Action, j: nat)
    requires Ownership(s) && Content(c, s) && Enabled(c, s, a) && j < |Apply(c, s, a).workers|
    ensures WorkerContent(c, Apply(c, s, a).heap, Apply(c, s, a).workers[j])
  {
    WorkerMoves(c, s, a);
    if j < |s.workers| {
      assert WorkerContent(c, s.heap, s.workers[j]);
      if MovesWorker(a) && a.i == j {
        OwnContentKept(c, s, a);
      } else if HasRef(s.workers[j]) {
        OthersHeapFrame(c, s, a, j);
      }
    }
  }

  lemma OwnContentKept(c: Config, s: State, a: Action)
    requires Enabled(c, s, a) && MovesWorker(a) && WorkerContent(c, s.heap, s.workers[a.i])
    ensures |Apply(c, s, a).workers| == |s.workers|
    ensures WorkerContent(c, Apply(c, s, a).heap, Apply(c, s, a).workers[a.i])
  {
    match a
    case Answer(i, o) =>
    case Bump(i) =>
    case Publish(i) =>
    case _ =>
  }

  lemma OthersHeapFrame(c: Config, s: State, a: Action, j: nat)
    requires Ownership(s) && Enabled(c, s, a) && j < |s.workers|
    requires !(MovesWorker(a) && a.i == j) && HasRef(s.workers[j])
    ensures var t := Apply(c, s, a);
            s.workers[j].ref < |t.heap| && t.heap[s.workers[j].ref] == s.heap[s.workers[j].ref]
  {}

  lemma TakeOne(libs: seq<Library>, n: nat)
    requires n < |libs|
    ensures multiset(libs[..n + 1]) == multiset(libs[..n]) + multiset{libs[n]}
  {
    assert libs[..n + 1] == libs[..n] + [libs[n]];
  }

  lemma RequestedKept(c: Config, s: State, a: Action)
    requires Requested(c, s) && Enabled(c, s, a)
    ensures Requested(c, Apply(c, s, a))
  {
    if a.Feed? {
      RequestedFeeding(c, s);
    } else if a.HandIn? || a.Receive? {
      RequestedTaking(c, s, a);
    } else {
      QueueUntouched(c, s, a);
    }
  }

  lemma RequestedFeeding(c: Config, s: State)
    requires Requested(c, s) && Enabled(c, s, Feed)
    ensures Requested(c, Apply(c, s, Feed))
  {
    assert c.libs[Taken(s)..s.sent + 1] == c.libs[Taken(s)..s.sent] + [c.libs[s.sent]];
  }

  lemma RequestedTaking(c: Config, s: State, a: Action)
    requires Requested(c, s) && Enabled(c, s, a) && (a.HandIn? || a.Receive?)
    ensures Requested(c, Apply(c, s, a)) && Taken(Apply(c, s, a)) == Taken(s) + 1
  {
    if a.HandIn? { TakingFromFeeder(c, s, a.i); } else { TakingFromQueue(c, s, a.i); }
  }

  lemma TakingFromFeeder(c: Config, s: State, i: nat)
    requires Requested(c, s) && Enabled(c, s, HandIn(i))
    ensures Requested(c, Apply(c, s, HandIn(i))) && Taken(Apply(c, s, HandIn(i))) == Taken(s) + 1
  {
    TakeOne(c.libs, Taken(s));
  }

  lemma TakingFromQueue(c: Config, s: State, i: nat)
    requires Requested(c, s) && Enabled(c, s, Receive(i))
    ensures Requested(c, Apply(c, s, Receive(i))) && Taken(Apply(c, s, Receive(i))) == Taken(s) + 1
  {
    TakeOne(c.libs, Taken(s));
  }

  lemma QueueUntouched(c: Config, s: State, a: Action)
    requires Enabled(c, s, a) && !(a.Feed? || a.HandIn? || a.Receive?)
    ensures var t := Apply(c, s, a); t.sent == s.sent && t.inQ == s.inQ && t.calls == s.calls
  {}

  lemma AccountedKept(c: Config, s: State, a: Action)
    requires Ownership(s) && Content(c, s) && Accounted(s) && Enabled(c, s, a)
    ensures Accounted(Apply(c, s, a))
  {
    PublishedNeverChange(c, s, a);
    if a.Send? || a.HandOut? {
      AccountedHanded(c, s, a);
    } else {
      AccountedOtherwise(c, s, a);
    }
  }

  lemma AccountedHanded(c: Config, s: State, a: Action)
    requires Content(c, s) && Accounted(s) && Enabled(c, s, a) && (a.Send? || a.HandOut?)
    requires var t := Apply(c, s, a);
             InHeap(t) && s.workers[a.i].ref < |s.heap| && Published(t) == Published(s) + [s.heap[s.workers[a.i].ref]]
    ensures Accounted(Apply(c, s, a))
  {
    var t := Apply(c, s, a);
    assert WorkerContent(c, s.heap, s.workers[a.i]);
    Handed(c, s, t, a.i);
    HistoryUntouched(c, s, a);
    Regroup(s.failed + s.unnamed, Held(s.workers), multiset(Image(LibraryOf, Published(s))),
            Held(t.workers), multiset(Image(LibraryOf, Published(t))));
  }

  lemma AccountedOtherwise(c: Config, s: State, a: Action)
    requires Accounted(s) && Enabled(c, s, a) && !(a.Send? || a.HandOut?)
    requires InHeap(Apply(c, s, a)) && Published(Apply(c, s, a)) == Published(s)
    ensures Accounted(Apply(c, s, a))
  {
    var t := Apply(c, s, a);
    History(c, s, a);
    HoldingKept(c, s, a);
    Rebalance(s.calls, s.failed + s.unnamed, Held(s.workers), multiset(Image(LibraryOf, Published(s))),
              Begun(c, s, a), Ended(s, a), t.calls, t.failed + t.unnamed, Held(t.workers));
  }

  lemma Regroup<T>(out: multiset<T>, held: multiset<T>, done: multiset<T>, held': multiset<T>, done': multiset<T>)
    requires held + done == held' + done'
    ensures out + held + done == out + held' + done'
  {
    assert out + held + done == out + (held + done);
    assert out + held' + done' == out + (held' + done');
  }

  lemma Rebalance<T>(calls: multiset<T>, out: multiset<T>, held: multiset<T>, done: multiset<T>,
                     begun: multiset<T>, ended: multiset<T>,
                     calls': multiset<T>, out': multiset<T>, held': multiset<T>)
    requires calls == out + held + done
    requires calls' == calls + begun && out' == out + ended && held' + ended == held + begun
    ensures calls' == out' + held' + done
  {
    forall x ensures calls'[x] == (out' + held' + done)[x] {
      assert (held' + ended)[x] == (held + begun)[x];
    }
  }

  /** The request a step starts, if any. */
  function Begun(c: Config, s: State, a: Action): multiset<Library>
    requires Enabled(c, s, a)
  {
    if a.HandIn? then multiset{c.libs[s.sent]}
    else if a.Receive? then multiset{s.inQ[0]}
    else multiset{}
  }

  /** The library a step drops, if any. */
  function Ended(s: State, a: Action): multiset<Library> {
    if a.Answer? && a.i < |s.workers| && s.workers[a.i].Fetching?
       && (a.outcome.Failed? || !Named(s.workers[a.i].lib))
    then multiset{s.workers[a.i].lib} else multiset{}
  }

  lemma History(c: Config, s: State, a: Action)
    requires Enabled(c, s, a)
    ensures var t := Apply(c, s, a);
            && t.calls == s.calls + Begun(c, s, a)
            && t.failed + t.unnamed == s.failed + s.unnamed + Ended(s, a)
  {
    if a.Answer? {
    } else if a.HandIn? || a.Receive? {
    } else {
      HistoryUntouched(c, s, a);
    }
  }

  lemma HistoryUntouched(c: Config, s: State, a: Action)
    requires Enabled(c, s, a) && !(a.Answer? || a.HandIn? || a.Receive?)
    ensures var t := Apply(c, s, a); t.calls == s.calls && t.failed == s.failed && t.unnamed == s.unnamed
  {}

  /** A request starts a hold; a failure or a skip ends one. */
  lemma HoldingKept(c: Config, s: State, a: Action)
    requires Enabled(c, s, a) && !(a.Send? || a.HandOut?)
    ensures Held(Apply(c, s, a).workers) + Ended(s, a) == Held(s.workers) + Begun(c, s, a)
  {
    WorkerMoves(c, s, a);
    var t := Apply(c, s, a);
    if MovesWorker(a) {
      OwnHold(c, s, a);
      HeldReplace(s.workers, a.i, t.workers[a.i], Begun(c, s, a), Ended(s, a));
    } else if a.Spawn? {
      SeqSumSnoc(s.workers, Idle, HeldBy);
    }
  }

  lemma OwnHold(c: Config, s: State, a: Action)
    requires Enabled(c, s, a) && MovesWorker(a) && !(a.Send? || a.HandOut?)
    ensures |Apply(c, s, a).workers| == |s.workers|
    ensures HeldBy(Apply(c, s, a).workers[a.i]) + Ended(s, a) == HeldBy(s.workers[a.i]) + Begun(c, s, a)
  {
    if a.HandIn? || a.Receive? {
      StartedHold(c, s, a);
    } else if a.Answer? {
      AnsweredHold(c, s, a);
    } else {
      SameHold(c, s, a);
    }
  }

  lemma StartedHold(c: Config, s: State, a: Action)
    requires Enabled(c, s, a) && (a.HandIn? || a.Receive?)
    ensures |Apply(c, s, a).workers| == |s.workers|
    ensures HeldBy(s.workers[a.i]) == multiset{} == Ended(s, a)
    ensures HeldBy(Apply(c, s, a).workers[a.i]) == Begun(c, s, a)
  {}

  lemma AnsweredHold(c: Config, s: State, a: Action)
    requires Enabled(c, s, a) && a.Answer?
    ensures |Apply(c, s, a).workers| == |s.workers|
    ensures Begun(c, s, a) == multiset{}
    ensures HeldBy(Apply(c, s, a).workers[a.i]) + Ended(s, a) == HeldBy(s.workers[a.i])
  {
    var w := s.workers[a.i];
    assert Apply(c, s, a).workers[a.i]
           == if a.outcome.Answered? && Named(w.lib) then Normalizing(w.lib, w.ref, UnknownKeys(a.outcome.stat)) else Idle;
  }

  lemma SameHold(c: Config, s: State, a: Action)
    requires Enabled(c, s, a) && (a.Exit? || a.Bump? || a.Publish?)
    ensures |Apply(c, s, a).workers| == |s.workers|
    ensures HeldBy(Apply(c, s, a).workers[a.i]) == HeldBy(s.workers[a.i])
  {}

  lemma HeldReplace(ws: seq<Goroutine>, i: nat, g: Goroutine, begun: multiset<Library>, ended: multiset<Library>)
    requires i < |ws| && HeldBy(g) + ended == HeldBy(ws[i]) + begun
    ensures Held(ws[i := g]) + ended == Held(ws) + begun
  {
    SeqSumUpdate(ws, i, g, HeldBy);
    var old_, new_ := HeldBy(ws[i]), HeldBy(g);
    forall x ensures (Held(ws[i := g]) + ended)[x] == (Held(ws) + begun)[x] {
      assert (new_ + ended)[x] == (old_ + begun)[x];
      assert Held(ws)[x] >= old_[x];
    }
  }

  lemma Handed(c: Config, s: State, t: State, i: nat)
    requires InHeap(s) && InHeap(t) && i < |s.workers| && s.workers[i].Sending?
    requires WorkerContent(c, s.heap, s.workers[i]) && t.workers == s.workers[i := Idle]
    requires Published(t) == Published(s) + [s.heap[s.workers[i].ref]]
    ensures Held(s.workers) + multiset(Image(LibraryOf, Published(s)))
            == Held(t.workers) + multiset(Image(LibraryOf, Published(t)))
  {
    SeqSumUpdate(s.workers, i, Idle, HeldBy);
    ImageSnoc(Published(s), s.heap[s.workers[i].ref]);
  }

  lemma ImageSnoc(ps: seq<Pie>, p: Pie)
    ensures multiset(Image(LibraryOf, ps + [p])) == multiset(Image(LibraryOf, ps)) + multiset{LibraryOf(p)}
  {
    assert Image(LibraryOf, ps + [p]) == Image(LibraryOf, ps) + [LibraryOf(p)];
  }

  lemma FlaggedKept(c: Config, s: State, a: Action)
    requires Flagged(s) && Enabled(c, s, a)
    ensures Flagged(Apply(c, s, a))
  {
    if a.Answer? {
      assert s.workers[a.i].lib in multiset{s.workers[a.i].lib};
    } else {
      FlagUntouched(c, s, a);
    }
  }

  lemma FlagUntouched(c: Config, s: State, a: Action)
    requires Enabled(c, s, a) && !a.Answer?
    ensures var t := Apply(c, s, a);
            t.partial == s.partial && t.failed == s.failed && t.unnamed == s.unnamed
  {}

  lemma InvKept(c: Config, s: State, a: Action)
    requires Inv(c, s) && Enabled(c, s, a)
    ensures Inv(c, Apply(c, s, a))
  {
    ChannelsKept(c, s, a);
    WaitGroupKept(c, s, a);
    OwnershipKept(c, s, a);
    ContentKept(c, s, a);
    RequestedKept(c, s, a);
    AccountedKept(c, s, a);
    FlaggedKept(c, s, a);
  }

  lemma {:induction false} InvAt(c: Config, states: seq<State>, acts: seq<Action>, k: nat)
    requires IsRun(c, states, acts) && k <= |acts|
    ensures Inv(c, states[k])
  {
    if k == 0 {
      InitInv(c);
    } else {
      InvAt(c, states, acts, k - 1);
      StepKeeps(c, states, acts, k);
    }
  }

  lemma StepKeeps(c: Config, states: seq<State>, acts: seq<Action>, k: nat)
    requires IsRun(c, states, acts) && 0 < k <= |acts| && Inv(c, states[k - 1])
    ensures Inv(c, states[k])
  {
    assert StepAt(c, states, acts, k - 1);
    InvKept(c, states[k - 1], acts[k - 1]);
  }

  lemma ReachableInv(c: Config, s: State)
    requires Reachable(c, s)
    ensures Inv(c, s)
  {
    var states: seq<State>, acts: seq<Action> :| IsRun(c, states, acts) && states[|acts|] == s;
    InvAt(c, states, acts, |acts|);
  }
}
