/** The shutdown protocol (cmd/exporter/main.go and internal/server/server.go), as a
  transition system.

  Main waits for a signal or a server error, tells the server goroutine to stop
  over an unbuffered channel and waits for it on a wait group.  The server goroutine
  starts a listener goroutine, waits for the stop and shuts the HTTP server down.
  Both may report an error over one channel of capacity `errCap`.  After the first
  trigger a fourth goroutine ends the process on any further signal. */
module Shutdown {
  import opened Models

  // ------------------------------------------------------------------ state

  datatype Signal = Numbered(n: int) | Unnumbered

  const SIGHUP := Numbered(1)
  const SIGINT := Numbered(2)
  const SIGQUIT := Numbered(3)
  const SIGTERM := Numbered(15)

  /** The signals the process asks to be notified of. */
  predicate Registered(sig: Signal) {
    sig in {SIGHUP, SIGINT, SIGQUIT, SIGTERM}
  }

  /** The shell's convention for a process ended by a signal. */
  function ForcedExitCode(sig: Signal): int {
    match sig
    case Numbered(n) => 128 + n
    case Unnumbered => 1
  }

  datatype Main = Awaiting | Triggered(code: int) | Stopping(code: int) | Joining(code: int) | Exited(code: int)

  datatype Server = Starting | AwaitingStop | ShuttingDown | Reporting | Finishing | Gone

  datatype Listener = Unborn | Listening | Failing | Ended

  /** `errs` errors and at most one signal are buffered.  As history: how many signals
      were sent and whether the listener failed. */
  datatype State = State(
    main: Main, server: Server, listener: Listener, forcer: bool,
    errs: nat, quit: Option<Signal>, wg: nat, forced: Option<int>,
    signals: nat, failed: bool)

  const INIT := State(Awaiting, Starting, Unborn, false, 0, None, 1, None, 0, false)

  // ---------------------------------------------------------------- actions

  datatype Action =
    | TakeSignal | TakeError
    | SpawnForcer | SendStop | Join
    | SpawnListener | ShutdownReturns(ok: bool) | ReportShutdown | WgDone
    | ListenReturns(closed: bool) | ReportListen | HandListen
    | Force
    | Interrupt(sig: Signal)

  predicate Over(s: State) {
    s.main.Exited? || s.forced.Some?
  }

  /** The server has been told to stop. */
  predicate Stopped(s: State) {
    !(s.server.Starting? || s.server.AwaitingStop?)
  }

  predicate Enabled(errCap: nat, s: State, a: Action) {
    && !Over(s)
    && match a
       case TakeSignal => s.main.Awaiting? && s.quit.Some?
       case TakeError => s.main.Awaiting? && s.errs > 0
       case SpawnForcer => s.main.Triggered?
       case SendStop => s.main.Stopping? && s.server.AwaitingStop?
       case Join => s.main.Joining? && s.wg == 0
       case SpawnListener => s.server.Starting?
       case ShutdownReturns(_) => s.server.ShuttingDown?
       case ReportShutdown => s.server.Reporting? && s.errs < errCap
       case WgDone => s.server.Finishing? && s.wg > 0
       case ListenReturns(closed) => s.listener.Listening? && (closed ==> Stopped(s))
       case ReportListen => s.listener.Failing? && s.errs < errCap
       case HandListen => s.listener.Failing? && s.errs == 0 && s.main.Awaiting?
       case Force => s.forcer && s.quit.Some?
       case Interrupt(sig) => Registered(sig)
  }

  function Apply(s: State, a: Action): State {
    match a
    case TakeSignal => s.(main := Triggered(0), quit := None)
    case TakeError => if s.errs > 0 then s.(main := Triggered(1), errs := s.errs - 1) else s
    case SpawnForcer => if s.main.Triggered? then s.(main := Stopping(s.main.code), forcer := true) else s
    case SendStop => if s.main.Stopping? then s.(main := Joining(s.main.code), server := ShuttingDown) else s
    case Join => if s.main.Joining? then s.(main := Exited(s.main.code)) else s
    case SpawnListener => s.(server := AwaitingStop, listener := Listening)
    case ShutdownReturns(ok) => s.(server := if ok then Finishing else Reporting)
    case ReportShutdown => s.(server := Finishing, errs := s.errs + 1)
    case WgDone => if s.wg > 0 then s.(server := Gone, wg := s.wg - 1) else s
    case ListenReturns(closed) => if closed then s.(listener := Ended) else s.(listener := Failing, failed := true)
    case ReportListen => s.(listener := Ended, errs := s.errs + 1)
    case HandListen => s.(listener := Ended, main := Triggered(1))
    case Force => if s.quit.Some? then s.(forced := Some(ForcedExitCode(s.quit.value))) else s
    case Interrupt(sig) => s.(quit := if s.quit.Some? then s.quit else Some(sig), signals := s.signals + 1)
  }

  /** Steps the program is bound to take: not a signal, and not a listener that
      fails or returns by itself. */
  predicate Bound(s: State, a: Action) {
    !a.Interrupt? && (a.ListenReturns? ==> Stopped(s))
  }

  /** Shutdown has been called for: a signal came in or the listener failed. */
  predicate CalledFor(s: State) {
    s.signals > 0 || s.failed
  }

  ghost predicate Stuck(errCap: nat, s: State) {
    !Over(s) && forall a :: Bound(s, a) ==> !Enabled(errCap, s, a)
  }

  // ------------------------------------------------------------------- runs

  ghost predicate IsPath(errCap: nat, states: seq<State>, actions: seq<Action>) {
    && |states| == |actions| + 1 && states[0] == INIT
    && forall k :: 0 <= k < |actions| ==>
         Enabled(errCap, states[k], actions[k]) && states[k + 1] == Apply(states[k], actions[k])
  }

  ghost predicate Reachable(errCap: nat, s: State) {
    exists states: seq<State>, actions: seq<Action> :: IsPath(errCap, states, actions) && states[|actions|] == s
  }

  lemma Start(errCap: nat)
    ensures Reachable(errCap, INIT)
  {
    assert IsPath(errCap, [INIT], []);
  }

  lemma OneMore(errCap: nat, s: State, a: Action)
    requires Reachable(errCap, s) && Enabled(errCap, s, a)
    ensures Reachable(errCap, Apply(s, a))
  {
    var states: seq<State>, actions: seq<Action> :| IsPath(errCap, states, actions) && states[|actions|] == s;
    var states', actions' := states + [Apply(s, a)], actions + [a];
    forall k | 0 <= k < |actions'|
      ensures Enabled(errCap, states'[k], actions'[k]) && states'[k + 1] == Apply(states'[k], actions'[k])
    {
      if k < |actions| { assert states'[k] == states[k] && states'[k + 1] == states[k + 1]; }
    }
    assert IsPath(errCap, states', actions');
  }

  // -------------------------------------------------------------- invariant

  function Count(b: bool): nat {
    if b then 1 else 0
  }

  /** Main's view and the server's fit together. */
  predicate InStep(s: State) {
    && (Stopped(s) <==> s.main.Joining? || s.main.Exited?)
    && (s.server.Starting? <==> s.listener.Unborn?)
    && s.wg == Count(!s.server.Gone?)
    && (s.main.Exited? ==> s.server.Gone?)
    && (s.forcer <==> s.main.Stopping? || s.main.Joining? || s.main.Exited?)
  }

  /** Each error is reported once: the listener's, the shutdown's, minus the one main took. */
  predicate Errors(s: State) {
    && (s.listener.Failing? ==> s.failed) && (s.failed ==> s.listener.Failing? || s.listener.Ended?)
    && s.errs + Count(Code(s.main) == Some(1)) <= Count(s.failed && s.listener.Ended?) + Count(s.server.Finishing? || s.server.Gone?)
    && (!Stopped(s) ==> s.errs + Count(Code(s.main) == Some(1)) == Count(s.failed && s.listener.Ended?))
    && (Code(s.main) == Some(1) ==> s.failed)
  }

  /** Signals: one may be buffered, main may have taken one. */
  predicate Signals(s: State) {
    && (s.main.Awaiting? && s.signals > 0 ==> s.quit.Some?)
    && (Code(s.main) == Some(0) ==> s.signals > 0)
    && (s.quit.Some? ==> Registered(s.quit.value) && s.signals > Count(Code(s.main) == Some(0)))
    && (s.forced.Some? ==> s.forcer && s.quit.Some? && s.forced.value == ForcedExitCode(s.quit.value))
    && Code(s.main) in {None, Some(0), Some(1)}
  }

  function Code(m: Main): Option<int> {
    if m.Awaiting? then None else Some(m.code)
  }

  predicate Inv(s: State) {
    InStep(s) && Errors(s) && Signals(s)
  }

  lemma InvKept(errCap: nat, s: State, a: Action)
    requires Inv(s) && Enabled(errCap, s, a)
    ensures Inv(Apply(s, a))
  {
    InStepKept(errCap, s, a);
    ErrorsKept(errCap, s, a);
    SignalsKept(errCap, s, a);
  }

  lemma InStepKept(errCap: nat, s: State, a: Action)
    requires InStep(s) && Enabled(errCap, s, a)
    ensures InStep(Apply(s, a))
  {}

  lemma ErrorsKept(errCap: nat, s: State, a: Action)
    requires InStep(s) && Errors(s) && Enabled(errCap, s, a)
    ensures Errors(Apply(s, a))
  {}

  lemma SignalsKept(errCap: nat, s: State, a: Action)
    requires InStep(s) && Signals(s) && Enabled(errCap, s, a)
    ensures Signals(Apply(s, a))
  {}

  lemma {:induction false} PathInv(errCap: nat, states: seq<State>, actions: seq<Action>)
    requires IsPath(errCap, states, actions)
    ensures forall k :: 0 <= k < |states| ==> Inv(states[k])
  {
    var k := 0;
    while k < |actions|
      invariant 0 <= k <= |actions| && forall j :: 0 <= j <= k ==> Inv(states[j])
    {
      InvKept(errCap, states[k], actions[k]);
      k := k + 1;
    }
  }

  lemma ReachableInv(errCap: nat, s: State)
    requires Reachable(errCap, s)
    ensures Inv(s)
  {
    var states: seq<State>, actions: seq<Action> :| IsPath(errCap, states, actions) && states[|actions|] == s;
    PathInv(errCap, states, actions);
  }

  // ---------------------------------------------------------------- progress

  /** With two slots nobody ever blocks on reporting an error. */
  lemma NoReportBlocks(errCap: nat, s: State)
    requires Reachable(errCap, s) && errCap >= 2 && !Over(s)
    ensures s.server.Reporting? ==> Enabled(errCap, s, ReportShutdown)
    ensures s.listener.Failing? ==> Enabled(errCap, s, ReportListen)
  {
    ReachableInv(errCap, s);
  }

  /** The step that brings the process closer to its end. */
  function NextStep(s: State): Action {
    match s.main
    case Awaiting => if s.quit.Some? then TakeSignal else if s.errs > 0 then TakeError else ReportListen
    case Triggered(_) => SpawnForcer
    case Stopping(_) => if s.server.Starting? then SpawnListener else SendStop
    case Joining(_) =>
      (match s.server
       case ShuttingDown => ShutdownReturns(true)
       case Reporting => ReportShutdown
       case Finishing => WgDone
       case _ => Join)
    case Exited(_) => Join
  }

  lemma CanStep(errCap: nat, s: State)
    requires Inv(s) && CalledFor(s) && errCap >= 2 && !Over(s)
    ensures Bound(s, NextStep(s)) && Enabled(errCap, s, NextStep(s))
  {}

  /** Once shutdown is called for, two slots are enough for the process never to get
      stuck, and fewer are not: with one slot, and with none, some run does. */
  lemma StuckIff(errCap: nat)
    ensures (exists s :: Reachable(errCap, s) && CalledFor(s) && Stuck(errCap, s)) <==> errCap < 2
  {
    if errCap >= 2 {
      forall s | Reachable(errCap, s) && CalledFor(s) ensures !Stuck(errCap, s) {
        ReachableInv(errCap, s);
        if !Over(s) { CanStep(errCap, s); }
      }
    } else if errCap == 1 {
      StuckAtOne();
    } else {
      StuckAtZero();
    }
  }

  /** A signal comes, the server is told to stop. */
  lemma SignalledRun(errCap: nat) returns (s: State)
    ensures Reachable(errCap, s)
    ensures s == State(Joining(0), ShuttingDown, Listening, true, 0, None, 1, None, 1, false)
  {
    Start(errCap);
    s := INIT;
    OneMore(errCap, s, SpawnListener);
    s := Apply(s, SpawnListener);
    OneMore(errCap, s, Interrupt(SIGTERM));
    s := Apply(s, Interrupt(SIGTERM));
    OneMore(errCap, s, TakeSignal);
    s := Apply(s, TakeSignal);
    OneMore(errCap, s, SpawnForcer);
    s := Apply(s, SpawnForcer);
    OneMore(errCap, s, SendStop);
    s := Apply(s, SendStop);
  }

  /** One slot: the listener fails as main stops listening, and then the shutdown
      fails too. */
  lemma StuckAtOne()
    ensures exists s :: Reachable(1, s) && CalledFor(s) && Stuck(1, s)
  {
    var s := SignalledRun(1);
    OneMore(1, s, ListenReturns(false));
    s := Apply(s, ListenReturns(false));
    OneMore(1, s, ReportListen);
    s := Apply(s, ReportListen);
    OneMore(1, s, ShutdownReturns(false));
    s := Apply(s, ShutdownReturns(false));
    assert Stuck(1, s);
  }

  /** No slot: a failing shutdown is enough. */
  lemma StuckAtZero()
    ensures exists s :: Reachable(0, s) && CalledFor(s) && Stuck(0, s)
  {
    var s := SignalledRun(0);
    OneMore(0, s, ListenReturns(true));
    s := Apply(s, ListenReturns(true));
    OneMore(0, s, ShutdownReturns(false));
    s := Apply(s, ShutdownReturns(false));
    assert Stuck(0, s);
  }

  // --------------------------------------------------------------- fair runs

  function MainRank(m: Main): nat {
    match m
    case Awaiting => 4
    case Triggered(_) => 3
    case Stopping(_) => 2
    case Joining(_) => 1
    case Exited(_) => 0
  }

  function ServerRank(v: Server): nat {
    match v
    case Starting => 5
    case AwaitingStop => 4
    case ShuttingDown => 3
    case Reporting => 2
    case Finishing => 1
    case Gone => 0
  }

  function ListenerRank(l: Listener): nat {
    match l
    case Unborn => 3
    case Listening => 2
    case Failing => 1
    case Ended => 0
  }

  function Rank(s: State): nat {
    MainRank(s.main) + ServerRank(s.server) + ListenerRank(s.listener) + Count(s.forced.None?)
  }

  /** Every step of the program brings the end closer; a signal does not delay it. */
  lemma RankFalls(errCap: nat, s: State, a: Action)
    requires Inv(s) && Enabled(errCap, s, a)
    ensures if a.Interrupt? then Rank(Apply(s, a)) == Rank(s) else Rank(Apply(s, a)) < Rank(s)
    ensures CalledFor(s) ==> CalledFor(Apply(s, a))
  {}

  ghost predicate Goes(errCap: nat, s: State, t: State) {
    exists a: Action :: !a.Interrupt? && Enabled(errCap, s, a) && t == Apply(s, a)
  }

  ghost predicate Moves(errCap: nat, s: State, t: State) {
    s == t || exists a: Action :: Enabled(errCap, s, a) && t == Apply(s, a)
  }

  ghost predicate MovesAt(errCap: nat, run: nat -> State, k: nat) {
    Moves(errCap, run(k), run(k + 1))
  }

  ghost predicate GoesAt(errCap: nat, run: nat -> State, k: nat) {
    Goes(errCap, run(k), run(k + 1))
  }

  /** An unending run; nothing need happen between two of its states. */
  ghost predicate IsRun(errCap: nat, run: nat -> State) {
    run(0) == INIT && forall k: nat :: MovesAt(errCap, run, k)
  }

  /** The scheduler does not starve the program: whenever some goroutine is bound to
      step, sooner or later one does. */
  ghost predicate Fair(errCap: nat, run: nat -> State) {
    forall k: nat :: !Stuck(errCap, run(k)) && !Over(run(k)) ==>
      exists j: nat :: j >= k && GoesAt(errCap, run, j)
  }

  lemma MoveKeeps(errCap: nat, s: State, t: State)
    requires Inv(s) && Moves(errCap, s, t)
    ensures Inv(t) && Rank(t) <= Rank(s) && (CalledFor(s) ==> CalledFor(t))
  {
    if s != t {
      var a: Action :| Enabled(errCap, s, a) && t == Apply(s, a);
      InvKept(errCap, s, a);
      RankFalls(errCap, s, a);
    }
  }

  lemma {:induction false} Along(errCap: nat, run: nat -> State, k: nat, j: nat)
    requires IsRun(errCap, run) && k <= j && Inv(run(k))
    ensures Inv(run(j)) && Rank(run(j)) <= Rank(run(k)) && (CalledFor(run(k)) ==> CalledFor(run(j)))
    decreases j - k
  {
    if k < j {
      assert MovesAt(errCap, run, k);
      MoveKeeps(errCap, run(k), run(k + 1));
      Along(errCap, run, k + 1, j);
    }
  }

  lemma GoesDown(errCap: nat, s: State, t: State)
    requires Inv(s) && Goes(errCap, s, t)
    ensures Inv(t) && Rank(t) < Rank(s) && (CalledFor(s) ==> CalledFor(t))
  {
    var a: Action :| !a.Interrupt? && Enabled(errCap, s, a) && t == Apply(s, a);
    InvKept(errCap, s, a);
    RankFalls(errCap, s, a);
  }

  /** Sooner or later the run is closer to its end. */
  lemma NextGo(errCap: nat, run: nat -> State, k: nat) returns (n: nat)
    requires IsRun(errCap, run) && Fair(errCap, run) && errCap >= 2
    requires Inv(run(k)) && CalledFor(run(k)) && !Over(run(k))
    ensures n > k && Inv(run(n)) && CalledFor(run(n)) && Rank(run(n)) < Rank(run(k))
  {
    CanStep(errCap, run(k));
    assert !Stuck(errCap, run(k));
    var j: nat :| j >= k && GoesAt(errCap, run, j);
    Along(errCap, run, k, j);
    GoesDown(errCap, run(j), run(j + 1));
    n := j + 1;
  }

  lemma {:induction false} Ends(errCap: nat, run: nat -> State, k: nat) returns (m: nat)
    requires IsRun(errCap, run) && Fair(errCap, run) && errCap >= 2
    requires Inv(run(k)) && CalledFor(run(k))
    ensures m >= k && Over(run(m)) && Inv(run(m))
    decreases Rank(run(k))
  {
    if Over(run(k)) {
      m := k;
    } else {
      var n := NextGo(errCap, run, k);
      m := Ends(errCap, run, n);
    }
  }

  /** Every fair run in which shutdown is called for ends.  It ends with the server
      goroutine done and exit code 0 or 1, unless a signal beyond the one main took
      forces it. */
  lemma FairRunsEnd(errCap: nat, run: nat -> State, k: nat) returns (m: nat)
    requires IsRun(errCap, run) && Fair(errCap, run) && errCap >= 2 && CalledFor(run(k))
    ensures m >= k && Over(run(m))
    ensures run(m).forced.None? ==> run(m).main.Exited? && run(m).wg == 0 && run(m).server.Gone?
    ensures run(m).forced.Some? ==> run(m).signals > Count(Code(run(m).main) == Some(0))
  {
    Along(errCap, run, 0, k);
    m := Ends(errCap, run, k);
  }

  // -------------------------------------------------------------- exit codes

  /** Main took an error from the channel, from its buffer or from the listener's hand. */
  predicate TookError(a: Action) {
    a.TakeError? || a.HandListen?
  }

  /** Main ends with 1 exactly when it was an error that woke it, and that error is
      always the listener's; with 0 exactly when it was a signal. */
  lemma {:induction false} ExitCodeIff(errCap: nat, states: seq<State>, actions: seq<Action>)
    requires IsPath(errCap, states, actions)
    ensures var s := states[|actions|];
            && (Code(s.main) == Some(1) <==> exists k :: 0 <= k < |actions| && TookError(actions[k]))
            && (Code(s.main) == Some(0) <==> TakeSignal in actions)
            && (Code(s.main) == Some(1) ==> ListenReturns(false) in actions)
    decreases |actions|
  {
    PathInv(errCap, states, actions);
    if actions != [] {
      var n := |actions| - 1;
      var shorter, done := states[..n + 1], actions[..n];
      assert IsPath(errCap, shorter, done);
      ExitCodeIff(errCap, shorter, done);
      assert actions == done + [actions[n]];
      LastAction(errCap, states[n], actions[n]);
      if exists k :: 0 <= k < |done| && TookError(done[k]) {
        var k :| 0 <= k < |done| && TookError(done[k]);
        assert TookError(actions[k]);
      }
      FailedByListener(errCap, states, actions);
    }
  }

  lemma LastAction(errCap: nat, s: State, a: Action)
    requires Enabled(errCap, s, a)
    ensures var t := Apply(s, a);
            && (TookError(a) ==> s.main.Awaiting? && Code(t.main) == Some(1))
            && (a == TakeSignal ==> s.main.Awaiting? && Code(t.main) == Some(0))
            && (!TookError(a) && a != TakeSignal ==> Code(t.main) == Code(s.main))
  {}

  lemma {:induction false} FailedByListener(errCap: nat, states: seq<State>, actions: seq<Action>)
    requires IsPath(errCap, states, actions)
    ensures states[|actions|].failed ==> ListenReturns(false) in actions
    decreases |actions|
  {
    if actions != [] {
      var n := |actions| - 1;
      assert IsPath(errCap, states[..n + 1], actions[..n]);
      FailedByListener(errCap, states[..n + 1], actions[..n]);
      assert actions == actions[..n] + [actions[n]];
    }
  }

  /** A forced exit code is 128 and the number of the registered signal, so it tells
      which one it was, and is never one of the codes of an orderly exit. */
  lemma ForcedCodesTellSignals(a: Signal, b: Signal)
    requires Registered(a) && Registered(b)
    ensures a.Numbered? && a.n in {1, 2, 3, 15} && ForcedExitCode(a) - 128 == a.n
    ensures forall n :: n in {1, 2, 3, 15} ==> Registered(Numbered(n))
    ensures ForcedExitCode(a) == ForcedExitCode(b) <==> a == b
    ensures 129 <= ForcedExitCode(a) <= 143
  {}

  /** A process is only ended by force after main had woken up, by a signal main had
      not taken, and with that signal's code. */
  lemma ForcedOnlyByAnother(errCap: nat, s: State)
    requires Reachable(errCap, s) && s.forced.Some?
    ensures !s.main.Awaiting? && s.quit.Some? && s.quit.value.Numbered?
    ensures s.quit.value.n in {1, 2, 3, 15} && s.forced == Some(128 + s.quit.value.n)
    ensures s.signals >= if Code(s.main) == Some(0) then 2 else 1
  {
    ReachableInv(errCap, s);
    ForcedCodesTellSignals(s.quit.value, s.quit.value);
  }
}
