/** The response recorders and the recovery middleware
  (internal/handlers/middleware.go), over net/http's response writer.

  A handler is what it does to its writer: a list of header writes, body writes,
  flushes and panics.  A flush goes past the recorders: http.ResponseController
  unwraps them and flushes net/http's own writer.  The exporter serves every request through
  Recovery(RequestLogger(handler)), so the handler writes to a recorder that writes
  to a recorder that writes to net/http. */
module Middleware {
  import opened Models

  // ------------------------------------------------------------------ values

  /** net/http's side: whether a final header has been sent, with which status, and
      which informational ones went before it. */
  datatype Net = Net(committed: bool, status: int, informational: seq<int>)

  /** One recorder: the status it reports and whether it believes it wrote. */
  datatype Rec = Rec(status: int, wrote: bool)

  const IDLE := Net(false, 0, [])
  const UNTOUCHED := Rec(200, false)

  /** The writer and the recorders around it, outermost first. */
  datatype Chain = Chain(net: Net, recs: seq<Rec>)

  datatype Op = WriteHeader(code: int) | Write | Flush | Panic | Abort

  datatype Ending = Normal | Panicked | Aborted

  predicate ValidCode(code: int) {
    100 <= code <= 999
  }

  /** Sent at once and not final: every 1xx but 101 Switching Protocols. */
  predicate Informational(code: int) {
    100 <= code <= 199 && code != 101
  }

  /** net/http panics on a status it cannot send, but only before the header is out. */
  predicate Rejects(net: Net, code: int) {
    !net.committed && !ValidCode(code)
  }

  function NetHeader(net: Net, code: int): Net {
    if net.committed then net
    else if Informational(code) then net.(informational := net.informational + [code])
    else Net(true, code, net.informational)
  }

  function Recorded(r: Rec, code: int): Rec {
    if r.wrote then r else Rec(code, true)
  }

  function AllRecorded(recs: seq<Rec>, code: int): seq<Rec> {
    seq(|recs|, k requires 0 <= k < |recs| => Recorded(recs[k], code))
  }

  /** A header write that goes through: net/http first, then every recorder. */
  function Header(c: Chain, code: int): Chain {
    Chain(NetHeader(c.net, code), AllRecorded(c.recs, code))
  }

  /** net/http sends its header, a 200 if there is none yet; no recorder hears of it. */
  function Flushed(c: Chain): Chain {
    Chain(NetHeader(c.net, 200), c.recs)
  }

  /** One operation; a panic leaves the chain as it is. */
  function Do(c: Chain, op: Op): (Chain, Ending) {
    match op
    case WriteHeader(code) => if Rejects(c.net, code) then (c, Panicked) else (Header(c, code), Normal)
    case Write => (Header(c, 200), Normal)
    case Flush => (Flushed(c), Normal)
    case Panic => (c, Panicked)
    case Abort => (c, Aborted)
  }

  /** A handler's run, up to its first panic. */
  function Exec(c: Chain, ops: seq<Op>): (r: (Chain, Ending))
    ensures |r.0.recs| == |c.recs|
    decreases |ops|
  {
    if ops == [] then (c, Normal)
    else
      var (next, end) := Do(c, ops[0]);
      if end != Normal then (next, end) else Exec(next, ops[1..])
  }

  const BOTH := Chain(IDLE, [UNTOUCHED, UNTOUCHED])

  /** What one request comes to: net/http's state when the middleware is done, the
      status the access log reports, if it reports one, whether net/http sees a panic,
      and whether Recovery has written its error text. */
  datatype Reply = Reply(net: Net, logged: Option<int>, reraised: bool, errorText: bool)

  /** Recovery(RequestLogger(handler)). */
  function Served(ops: seq<Op>): Reply {
    var (c, end) := Exec(BOTH, ops);
    match end
    case Normal => Reply(c.net, Some(c.recs[0].status), false, false)
    case Aborted => Reply(c.net, None, true, false)
    case Panicked =>
      if c.recs[1].wrote then Reply(c.net, None, false, false)
      else Reply(NetHeader(c.net, 500), None, false, true)
  }

  /** What the client gets when the middleware returns: net/http sends 200 if nobody
      sent anything. */
  function ClientStatus(net: Net): int {
    if net.committed then net.status else 200
  }

  // --------------------------------------------------------------- agreement

  /** A recorder and net/http agree on whether a status was sent and on which. */
  predicate Agrees(r: Rec, net: Net) {
    r.wrote == net.committed && r.status == ClientStatus(net)
  }

  ghost predicate AllAgree(c: Chain) {
    forall k :: 0 <= k < |c.recs| ==> Agrees(c.recs[k], c.net)
  }

  /** A recorder that took an informational status for the final one. */
  predicate Misled(r: Rec) {
    r.wrote && Informational(r.status)
  }

  predicate StartsInformational(ops: seq<Op>) {
    ops != [] && ops[0].WriteHeader? && 100 <= ops[0].code <= 199 && ops[0].code != 101
  }

  predicate StartsWithFlush(ops: seq<Op>) {
    ops != [] && ops[0].Flush?
  }

  /** The two ways for net/http and the recorders to part company. */
  predicate StartsAstray(ops: seq<Op>) {
    StartsInformational(ops) || StartsWithFlush(ops)
  }

  lemma {:induction false} AgreementKept(c: Chain, ops: seq<Op>)
    requires AllAgree(c) && (c.net.committed || !StartsAstray(ops))
    requires c.net.committed ==> !Informational(c.net.status)
    ensures AllAgree(Exec(c, ops).0) && |Exec(c, ops).0.recs| == |c.recs|
    decreases |ops|
  {
    if ops != [] && Do(c, ops[0]).1 == Normal {
      AgreementKept(Do(c, ops[0]).0, ops[1..]);
    }
  }

  lemma {:induction false} MisledStaysMisled(c: Chain, ops: seq<Op>)
    requires forall k :: 0 <= k < |c.recs| ==> Misled(c.recs[k])
    requires c.net.committed ==> !Informational(c.net.status)
    ensures var d := Exec(c, ops).0;
            |d.recs| == |c.recs| && (d.net.committed ==> !Informational(d.net.status))
            && forall k :: 0 <= k < |d.recs| ==> Misled(d.recs[k])
    decreases |ops|
  {
    if ops != [] && Do(c, ops[0]).1 == Normal {
      MisledStaysMisled(Do(c, ops[0]).0, ops[1..]);
    }
  }

  /** Both recorders agree with net/http at every point of a handler's run if and
      only if the run begins neither with an informational status nor with a flush. */
  lemma RecordersAgreeIff(ops: seq<Op>)
    ensures (forall n :: 0 <= n <= |ops| ==> AllAgree(Exec(BOTH, ops[..n]).0)) <==> !StartsAstray(ops)
  {
    if StartsAstray(ops) {
      var first := ops[..1];
      assert first[1..] == [];
      assert Exec(BOTH, first) == Exec(Do(BOTH, ops[0]).0, []);
      assert !Agrees(Exec(BOTH, first).0.recs[0], Exec(BOTH, first).0.net);
    } else {
      forall n | 0 <= n <= |ops| ensures AllAgree(Exec(BOTH, ops[..n]).0) {
        AgreementKept(BOTH, ops[..n]);
      }
    }
  }

  /** The first status a recorder hears of in the operations carried out. */
  function FirstHeard(c: Chain, ops: seq<Op>): Option<int>
    decreases |ops|
  {
    if ops == [] || Do(c, ops[0]).1 != Normal then None
    else match ops[0]
      case WriteHeader(code) => Some(code)
      case Write => Some(200)
      case _ => FirstHeard(Do(c, ops[0]).0, ops[1..])
  }

  /** Whatever net/http does, every recorder ends up with the first status it hears
      of, or as it began. */
  lemma {:induction false} RecordersHear(c: Chain, ops: seq<Op>)
    ensures var heard := FirstHeard(c, ops);
            forall k :: 0 <= k < |c.recs| ==>
              Exec(c, ops).0.recs[k]
              == if heard.None? || c.recs[k].wrote then c.recs[k] else Rec(heard.value, true)
    decreases |ops|
  {
    if ops != [] && Do(c, ops[0]).1 == Normal {
      RecordersHear(Do(c, ops[0]).0, ops[1..]);
    }
  }

  // ---------------------------------------------------------------- recovery

  /** How many operations are carried out before the run ends. */
  function Carried(c: Chain, ops: seq<Op>): (n: nat)
    ensures n <= |ops|
    decreases |ops|
  {
    if ops == [] || Do(c, ops[0]).1 != Normal then 0 else 1 + Carried(Do(c, ops[0]).0, ops[1..])
  }

  /** The operation sends a final header if none has been sent. */
  predicate Final(op: Op) {
    op.Write? || op.Flush? || (op.WriteHeader? && (op.code == 101 || 200 <= op.code <= 999))
  }

  function CodeOf(op: Op): int
    requires Final(op)
  {
    if op.WriteHeader? then op.code else 200
  }

  /** What net/http sent is the first final operation that was carried out. */
  lemma {:induction false} CommittedIff(c: Chain, ops: seq<Op>)
    requires !c.net.committed
    ensures var net := Exec(c, ops).0.net;
            && (net.committed <==> exists k :: 0 <= k < Carried(c, ops) && Final(ops[k]))
            && forall k :: 0 <= k < Carried(c, ops) && Final(ops[k]) && (forall j :: 0 <= j < k ==> !Final(ops[j]))
                 ==> net.status == CodeOf(ops[k])
    decreases |ops|
  {
    if ops != [] && Do(c, ops[0]).1 == Normal {
      var d := Do(c, ops[0]).0;
      if Final(ops[0]) {
        CommittedStays(d, ops[1..]);
      } else {
        CommittedIff(d, ops[1..]);
        assert forall k :: 0 < k < Carried(c, ops) ==> ops[k] == ops[1..][k - 1];
        forall k | 0 <= k < Carried(c, ops) && Final(ops[k]) && (forall j :: 0 <= j < k ==> !Final(ops[j]))
          ensures Exec(c, ops).0.net.status == CodeOf(ops[k])
        {
          assert Final(ops[1..][k - 1]);
          assert forall j :: 0 <= j < k - 1 ==> !Final(ops[1..][j]) by {
            forall j | 0 <= j < k - 1 ensures !Final(ops[1..][j]) { assert !Final(ops[j + 1]); }
          }
        }
        if exists k :: 0 <= k < Carried(d, ops[1..]) && Final(ops[1..][k]) {
          var k :| 0 <= k < Carried(d, ops[1..]) && Final(ops[1..][k]);
          assert Final(ops[k + 1]);
        }
      }
    }
  }

  lemma {:induction false} CommittedStays(c: Chain, ops: seq<Op>)
    requires c.net.committed
    ensures Exec(c, ops).0.net == c.net
    decreases |ops|
  {
    if ops != [] && Do(c, ops[0]).1 == Normal {
      CommittedStays(Do(c, ops[0]).0, ops[1..]);
    }
  }

  /** Recovery turns a panic into a 500 exactly when it came before any commit,
      unless the run began with an informational status: then the recorder claims a
      write, nothing is sent, and the client gets net/http's empty 200. */
  lemma FiveHundredIff(ops: seq<Op>)
    ensures var (c, end) := Exec(BOTH, ops);
            && (!StartsInformational(ops) ==>
                  Served(ops).net == if end == Panicked && !c.net.committed then Net(true, 500, c.net.informational) else c.net)
            && (StartsInformational(ops) ==> Served(ops).net == c.net)
  {
    if StartsInformational(ops) {
      MisledStaysMisled(Do(BOTH, ops[0]).0, ops[1..]);
    } else if StartsWithFlush(ops) {
      CommittedStays(Do(BOTH, ops[0]).0, ops[1..]);
    } else {
      AgreementKept(BOTH, ops);
      assert Agrees(Exec(BOTH, ops).0.recs[1], Exec(BOTH, ops).0.net);
    }
  }

  /** Recovery writes its error text exactly when the panic came before any header or
      body write.  The text lands in a response that is not a 500 exactly when the
      header had already been flushed. */
  lemma ErrorTextIff(ops: seq<Op>)
    ensures var quiet := Exec(BOTH, ops).1 == Panicked && FirstHeard(BOTH, ops) == None;
            && (Served(ops).errorText <==> quiet)
            && (Served(ops).errorText && ClientStatus(Served(ops).net) != 500 <==> quiet && StartsWithFlush(ops))
  {
    RecordersHear(BOTH, ops);
    if StartsWithFlush(ops) { CommittedStays(Do(BOTH, ops[0]).0, ops[1..]); }
  }

  /** The connection-abort signal is always passed on, whatever was written, and is
      the only thing that is: net/http sees a panic exactly when the run ended in
      one, and the middleware adds nothing to the response. */
  lemma AbortPassesThrough(ops: seq<Op>)
    ensures var (c, end) := Exec(BOTH, ops);
            && (Served(ops).reraised <==> end == Aborted)
            && (Served(ops).reraised ==> Served(ops).net == c.net && Served(ops).logged == None && !Served(ops).errorText)
            && (end == Aborted <==> Carried(BOTH, ops) < |ops| && ops[Carried(BOTH, ops)] == Abort)
  {
    EndIsFirstPanic(BOTH, ops);
  }

  lemma {:induction false} EndIsFirstPanic(c: Chain, ops: seq<Op>)
    ensures Exec(c, ops).1 == Normal <==> Carried(c, ops) == |ops|
    ensures Exec(c, ops).1 == Aborted <==> Carried(c, ops) < |ops| && ops[Carried(c, ops)] == Abort
    decreases |ops|
  {
    if ops != [] && Do(c, ops[0]).1 == Normal {
      EndIsFirstPanic(Do(c, ops[0]).0, ops[1..]);
    }
  }

  /** A request is logged exactly when its handler returned.  The logged status is
      the one the client got, unless the run began with an informational status, or
      began with a flush and the first status after it was not 200. */
  lemma LoggedIsSent(ops: seq<Op>)
    ensures Served(ops).logged.Some? <==> Exec(BOTH, ops).1 == Normal
    ensures Served(ops).logged.Some? ==>
              (Served(ops).logged.value == ClientStatus(Served(ops).net) <==>
               !StartsInformational(ops) && (StartsWithFlush(ops) ==> FirstHeard(BOTH, ops) in {None, Some(200)}))
  {
    if StartsInformational(ops) {
      MisledStaysMisled(Do(BOTH, ops[0]).0, ops[1..]);
      assert Misled(Exec(BOTH, ops).0.recs[0]);
    } else if StartsWithFlush(ops) {
      CommittedStays(Do(BOTH, ops[0]).0, ops[1..]);
      RecordersHear(BOTH, ops);
    } else {
      AgreementKept(BOTH, ops);
      assert Agrees(Exec(BOTH, ops).0.recs[0], Exec(BOTH, ops).0.net);
    }
  }

  /** A status net/http cannot send makes it panic, but only while nothing is committed;
      the recorders then claim nothing, and the client gets a clean 500. */
  lemma InvalidStatusGives500(c: Chain, code: int)
    ensures Do(c, WriteHeader(code)).1 == Panicked <==> !c.net.committed && (code < 100 || code > 999)
    ensures code < 100 || code > 999 ==> Served([WriteHeader(code)]) == Reply(Net(true, 500, []), None, false, true)
  {
    var ops := [WriteHeader(code)];
    if code < 100 || code > 999 {
      assert Exec(BOTH, ops) == (BOTH, Panicked);
    }
  }

  /** Early hints and then a panic: no 500 reaches the client. */
  lemma HintsThenPanic()
    ensures var ops := [WriteHeader(103), Panic];
            && Exec(BOTH, ops).1 == Panicked && !Exec(BOTH, ops).0.net.committed
            && !Served(ops).net.committed && ClientStatus(Served(ops).net) == 200
  {
    TwoOps(WriteHeader(103), Panic);
  }

  /** A flush and then a 404: the client gets 200, the log says 404. */
  lemma FlushThenNotFound()
    ensures var ops := [Flush, WriteHeader(404)];
            ClientStatus(Served(ops).net) == 200 && Served(ops).logged == Some(404)
  {
    TwoOps(Flush, WriteHeader(404));
  }

  lemma TwoOps(x: Op, y: Op)
    requires Do(BOTH, x).1 == Normal
    ensures Exec(BOTH, [x, y]) == Do(Do(BOTH, x).0, y)
  {
    var c := Do(BOTH, x).0;
    assert [x, y][1..] == [y] && [y][1..] == [];
    assert Exec(c, [y]) == if Do(c, y).1 != Normal then Do(c, y) else Exec(Do(c, y).0, []);
  }

  // ----------------------------------------------------------------- objects

  /** net/http's response writer. */
  class NetWriter {
    var committed: bool
    var status: int
    var informational: seq<int>

    constructor ()
      ensures View() == IDLE
    {
      committed, status, informational := false, 0, [];
    }

    ghost function View(): Net
      reads this
    {
      Net(committed, status, informational)
    }

    method WriteHeader(code: int) returns (panicked: bool)
      modifies this
      ensures panicked == Rejects(old(View()), code)
      ensures View() == if panicked then old(View()) else NetHeader(old(View()), code)
    {
      if committed {
        return false;
      }
      if code < 100 || code > 999 {
        return true;
      }
      if 100 <= code <= 199 && code != 101 {
        informational := informational + [code];
        return false;
      }
      committed, status := true, code;
      panicked := false;
    }

    method Write()
      modifies this
      ensures View() == NetHeader(old(View()), 200)
    {
      if !committed {
        var panicked := WriteHeader(200);
      }
    }

    method Flush()
      modifies this
      ensures View() == NetHeader(old(View()), 200)
    {
      if !committed {
        var panicked := WriteHeader(200);
      }
    }
  }

  /** A recorder around net/http's writer or around another recorder. */
  class ResponseRecorder {
    const net: NetWriter
    const under: ResponseRecorder?
    ghost const depth: nat
    ghost const repr: set<object>
    var status: int
    var wrote: bool

    ghost predicate Valid()
      decreases depth
    {
      && this in repr && net in repr
      && if under == null then repr == {this, net}
         else under.depth < depth && under.net == net && this !in under.repr && repr == {this} + under.repr && under.Valid()
    }

    constructor (net: NetWriter, under: ResponseRecorder?)
      requires under != null ==> under.Valid() && under.net == net
      ensures Valid() && this.net == net && this.under == under
      ensures fresh(repr - if under == null then {net} else under.repr)
      ensures Rec(status, wrote) == UNTOUCHED
    {
      this.net, this.under := net, under;
      depth := if under == null then 0 else under.depth + 1;
      repr := {this, net} + if under == null then {} else under.repr;
      status, wrote := 200, false;
    }

    ghost function Recs(): (s: seq<Rec>)
      requires Valid()
      reads repr
      ensures |s| >= 1
      decreases depth, 1
    {
      [Rec(status, wrote)] + Below()
    }

    ghost function View(): Chain
      requires Valid()
      reads repr
    {
      Chain(net.View(), Recs())
    }

    ghost function Below(): seq<Rec>
      requires Valid()
      reads repr
      decreases depth, 0
    {
      if under == null then [] else under.Recs()
    }

    /** What this recorder wraps: a recorder, or null for net/http's own writer. */
    method Unwrap() returns (inner: ResponseRecorder?)
      ensures inner == under
    {
      inner := under;
    }

    /** Passes a header write on; `below` are the recorders underneath. */
    method Forward(code: int) returns (panicked: bool)
      requires Valid()
      modifies repr - {this}
      ensures panicked == Rejects(old(net.View()), code)
      ensures net.View() == if panicked then old(net.View()) else NetHeader(old(net.View()), code)
      ensures Below() == if panicked then old(Below()) else AllRecorded(old(Below()), code)
      decreases depth, 0
    {
      if under == null {
        panicked := net.WriteHeader(code);
      } else {
        panicked := under.WriteHeader(code);
      }
    }

    /** Forwards first, so that a panic below leaves no trace here. */
    method WriteHeader(code: int) returns (panicked: bool)
      requires Valid()
      modifies repr
      ensures panicked == Rejects(old(View()).net, code)
      ensures View() == if panicked then old(View()) else Header(old(View()), code)
      decreases depth, 1
    {
      RecordedCons(Rec(status, wrote), Below(), code);
      panicked := Forward(code);
      if !panicked && !wrote {
        Note(code);
      }
    }

    /** Sets this recorder's own fields. */
    method Note(code: int)
      requires Valid()
      modifies this
      ensures Rec(status, wrote) == Rec(code, true) && Below() == old(Below()) && net.View() == old(net.View())
    {
      status, wrote := code, true;
    }

    method ForwardBody()
      requires Valid()
      modifies repr - {this}
      ensures net.View() == NetHeader(old(net.View()), 200) && Below() == AllRecorded(old(Below()), 200)
      decreases depth, 0
    {
      if under == null {
        net.Write();
      } else {
        under.Write();
      }
    }

    method Write()
      requires Valid()
      modifies repr
      ensures View() == Header(old(View()), 200)
      decreases depth, 1
    {
      RecordedCons(Rec(status, wrote), Below(), 200);
      ForwardBody();
      if !wrote {
        Note(200);
      }
    }
  }

  /** http.ResponseController.Flush: unwraps recorder after recorder until there is
      something that can flush. */
  method FlushThrough(w: ResponseRecorder)
    requires w.Valid()
    modifies w.net
    ensures w.View() == Flushed(old(w.View()))
    decreases w.depth
  {
    var inner := w.Unwrap();
    if inner == null {
      w.net.Flush();
    } else {
      FlushThrough(inner);
    }
    assert w.Below() == old(w.Below());
  }

  lemma RecordedCons(r: Rec, rest: seq<Rec>, code: int)
    ensures AllRecorded([r] + rest, code) == [Recorded(r, code)] + AllRecorded(rest, code)
  {}

  /** Runs a handler on its writer. */
  method RunHandler(w: ResponseRecorder, ops: seq<Op>) returns (end: Ending)
    requires w.Valid()
    modifies w.repr
    ensures (w.View(), end) == Exec(old(w.View()), ops)
  {
    for i := 0 to |ops|
      invariant Exec(w.View(), ops[i..]) == Exec(old(w.View()), ops)
    {
      match ops[i] {
        case WriteHeader(code) =>
          var panicked := w.WriteHeader(code);
          if panicked { return Panicked; }
        case Write => w.Write();
        case Flush => FlushThrough(w);
        case Panic => return Panicked;
        case Abort => return Aborted;
      }
    }
    return Normal;
  }

  /** Recovery around RequestLogger around a handler. */
  method Serve(net: NetWriter, ops: seq<Op>) returns (logged: Option<int>, reraised: bool, errorText: bool)
    requires net.View() == IDLE
    modifies net
    ensures Reply(net.View(), logged, reraised, errorText) == Served(ops)
  {
    var recorder := new ResponseRecorder(net, null);
    var rec := new ResponseRecorder(net, recorder);
    assert recorder.Recs() == [UNTOUCHED] && rec.Below() == recorder.Recs();
    assert rec.View() == BOTH;
    var end := RunHandler(rec, ops);
    assert rec.Below() == recorder.Recs() && rec.Recs()[1] == Rec(recorder.status, recorder.wrote);
    ghost var before := recorder.View();
    logged, reraised, errorText := None, false, false;
    match end {
      case Normal => logged := Some(rec.status);
      case Aborted => reraised := true;
      case Panicked =>
        if !recorder.wrote {
          var panicked := recorder.WriteHeader(500);
          recorder.Write();
          errorText := true;
          assert recorder.View() == Header(Header(before, 500), 200);
        }
    }
  }
}
