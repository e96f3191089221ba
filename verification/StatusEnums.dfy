/** Status labels and their normalisation (internal/collector/tdarr_enums.go). */
module StatusEnums {
  import opened Models
  import opened Folds

  const KNOWN_TRANSCODE: set<string> :=
    {"not required", "queued", "error", "success", "ignored", "cancelled", "hold"}
  const KNOWN_HEALTH_CHECK: set<string> := {"queued", "error", "success", "cancelled"}
  const TRANSCODE := "transcode"
  const HEALTH_CHECK := "healthcheck"
  const HEALTHY_SERVER: set<string> := {"good", "ok", "healthy"}

  /** The labels a library always has series for, the two kinds of job, and the
      server's healthy states. */
  lemma KnownLabels()
    ensures KNOWN_TRANSCODE == {"not required", "queued", "error", "success", "ignored", "cancelled", "hold"}
    ensures KNOWN_HEALTH_CHECK == {"queued", "error", "success", "cancelled"}
    ensures TRANSCODE == "transcode" && HEALTH_CHECK == "healthcheck" && HEALTHY_SERVER == {"good", "ok", "healthy"}
  {}

  // ---------------------------------------------------------------- strings

  /** Lower-casing goes character by character; `l` is what it does to one. */
  function Lower(l: char -> char, s: string): string {
    Image(l, s)
  }

  /** A lower-case character has no other lower case, and the ASCII letters of the
      stripped prefix are lower case. */
  ghost predicate LowerCasing(l: char -> char) {
    (forall c :: l(l(c)) == l(c)) && Lower(l, TRANSCODE) == TRANSCODE
  }

  /** White space as unicode.IsSpace has it. */
  predicate IsSpace(c: char) {
    || '\t' <= c <= '\r' || c == ' ' || c == '\U{85}' || c == '\U{A0}'
    || c == '\U{1680}' || '\U{2000}' <= c <= '\U{200a}' || c == '\U{2028}' || c == '\U{2029}'
    || c == '\U{202f}' || c == '\U{205f}' || c == '\U{3000}'
  }

  /** How many characters of leading white space `s` has. */
  function LeadingSpace(s: string): (n: nat)
    ensures n <= |s| && (n < |s| ==> !IsSpace(s[n]))
  {
    if s != [] && IsSpace(s[0]) then 1 + LeadingSpace(s[1..]) else 0
  }

  /** The length of `s` without its trailing white space. */
  function SolidLength(s: string): (n: nat)
    ensures n <= |s| && (n > 0 ==> !IsSpace(s[n - 1]))
  {
    if s != [] && IsSpace(s[|s| - 1]) then SolidLength(s[..|s| - 1]) else |s|
  }

  function TrimSpace(s: string): string {
    var l := s[LeadingSpace(s)..];
    l[..SolidLength(l)]
  }

  function TrimPrefix(s: string, prefix: string): string {
    if prefix <= s then s[|prefix|..] else s
  }

  /** A transcode label from a name already in lower case. */
  function Cleaned(lower: string): string {
    TrimSpace(TrimPrefix(lower, TRANSCODE))
  }

  function CleanTranscodeLabel(raw: Slice): string {
    Cleaned(raw.lower)
  }

  function CleanHealthCheckLabel(raw: Slice): string {
    raw.lower
  }

  predicate IsHealthyServerStatus(st: ServerStatus) {
    st.lower in HEALTHY_SERVER
  }

  predicate Trimmed(s: string) {
    s == [] || (!IsSpace(s[0]) && !IsSpace(s[|s| - 1]))
  }

  lemma TrimmedStays(s: string)
    requires Trimmed(s)
    ensures TrimSpace(s) == s
  {}

  /** Trimming keeps one slice of the string, with no space at either end. */
  lemma TrimSpaceShape(s: string) returns (i: nat, j: nat)
    ensures i <= j <= |s| && TrimSpace(s) == s[i..j]
    ensures Trimmed(TrimSpace(s))
  {
    i := LeadingSpace(s);
    j := i + SolidLength(s[i..]);
  }

  ghost predicate AllSpace(s: string) {
    forall i :: 0 <= i < |s| ==> IsSpace(s[i])
  }

  lemma {:induction false} LeadingIsSpace(s: string)
    ensures AllSpace(s[..LeadingSpace(s)])
  {
    if s != [] && IsSpace(s[0]) {
      LeadingIsSpace(s[1..]);
      assert s[..LeadingSpace(s)] == [s[0]] + s[1..][..LeadingSpace(s[1..])];
    }
  }

  lemma {:induction false} TrailingIsSpace(s: string)
    ensures AllSpace(s[SolidLength(s)..])
  {
    if s != [] && IsSpace(s[|s| - 1]) {
      var init := s[..|s| - 1];
      TrailingIsSpace(init);
      assert s[SolidLength(s)..] == init[SolidLength(init)..] + [s[|s| - 1]];
    }
  }

  /** Trimming takes away white space at the ends, all of it, and nothing else. */
  lemma TrimSpaceMeaning(s: string) returns (a: string, b: string)
    ensures s == a + TrimSpace(s) + b && AllSpace(a) && AllSpace(b) && Trimmed(TrimSpace(s))
  {
    var n := LeadingSpace(s);
    var l := s[n..];
    a, b := s[..n], l[SolidLength(l)..];
    LeadingIsSpace(s);
    TrailingIsSpace(l);
    var _, _ := TrimSpaceShape(s);
  }

  /** A cleaned label is the lower-cased name, less one prefix if it has it, less the
      white space at both ends of the rest. */
  lemma CleanedMeaning(lower: string) returns (a: string, b: string)
    ensures (if "transcode" <= lower then lower[9..] else lower) == a + Cleaned(lower) + b
    ensures AllSpace(a) && AllSpace(b) && Trimmed(Cleaned(lower))
  {
    a, b := TrimSpaceMeaning(TrimPrefix(lower, TRANSCODE));
  }

  lemma SliceOfSlice(s: string, off: nat, i: nat, j: nat)
    requires off <= |s| && i <= j <= |s| - off
    ensures s[off..][i..j] == s[off + i..off + j]
  {}

  /** A slice of a lower-cased string is already lower case. */
  lemma LowerOfSlice(l: char -> char, raw: string, i: nat, j: nat)
    requires i <= j <= |raw| && forall c :: l(l(c)) == l(c)
    ensures Lower(l, Lower(l, raw)[i..j]) == Lower(l, raw)[i..j]
  {}

  /** A transcode label from a raw name. */
  function Clean(l: char -> char, raw: string): string {
    Cleaned(Lower(l, raw))
  }

  /** What is left of a raw name when the prefix and then the leading space are gone. */
  function Stripped(l: char -> char, raw: string): string {
    var cut := TrimPrefix(Lower(l, raw), TRANSCODE);
    cut[LeadingSpace(cut)..]
  }

  /** Cleaning keeps one slice of a lower-cased name, with no space at either end. */
  lemma CleanedSlice(low: string) returns (i: nat, j: nat)
    ensures i <= j <= |low| && Cleaned(low) == low[i..j] && Trimmed(Cleaned(low))
  {
    var cut := TrimPrefix(low, TRANSCODE);
    var off := |low| - |cut|;
    assert cut == low[off..];
    var p, q := TrimSpaceShape(cut);
    SliceOfSlice(low, off, p, q);
    i, j := off + p, off + q;
  }

  /** A cleaned transcode label carries no upper-case letter and no outer space. */
  lemma CleanedLabelShape(l: char -> char, raw: string)
    requires LowerCasing(l)
    ensures var c := Clean(l, raw); Trimmed(c) && Lower(l, c) == c
  {
    var i, j := CleanedSlice(Lower(l, raw));
    LowerOfSlice(l, raw, i, j);
  }

  /** Trailing space never reaches back over a character that is not space. */
  lemma {:induction false} SolidReaches(s: string, k: nat)
    requires 0 < k <= |s| && !IsSpace(s[k - 1])
    ensures SolidLength(s) >= k
  {
    if IsSpace(s[|s| - 1]) { SolidReaches(s[..|s| - 1], k); }
  }

  /** The cleaned label begins with the prefix iff the name did behind its space. */
  lemma PrefixSurvives(l: char -> char, raw: string)
    ensures TRANSCODE <= Clean(l, raw) <==> TRANSCODE <= Stripped(l, raw)
  {
    var t := Stripped(l, raw);
    assert Clean(l, raw) == t[..SolidLength(t)];
    if TRANSCODE <= t {
      assert t[|TRANSCODE| - 1] == TRANSCODE[|TRANSCODE| - 1] == 'e';
      SolidReaches(t, |TRANSCODE|);
    }
  }

  /** Cleaning a transcode label twice changes nothing exactly when the raw name,
      in lower case and without one prefix and the space behind that, does not
      begin with the prefix again. */
  lemma CleaningIsIdempotentIff(l: char -> char, raw: string)
    requires LowerCasing(l)
    ensures Clean(l, Clean(l, raw)) == Clean(l, raw) <==> !(TRANSCODE <= Stripped(l, raw))
  {
    var c := Clean(l, raw);
    CleanedLabelShape(l, raw);
    PrefixSurvives(l, raw);
    if TRANSCODE <= c {
      var _, _ := TrimSpaceShape(c[|TRANSCODE|..]);
      assert |Cleaned(c)| < |c|;
    } else {
      TrimmedStays(c);
    }
  }

  /** A leading space is enough to make the second cleaning differ: the first
      one only trims (as for " Transcode error"), and the prefix survives it. */
  lemma CleaningIsNotIdempotent(l: char -> char, raw: string, rest: string)
    requires LowerCasing(l) && Lower(l, raw) == " " + TRANSCODE + rest
    ensures Clean(l, Clean(l, raw)) != Clean(l, raw)
  {
    var low := Lower(l, raw);
    assert low == " " + (TRANSCODE + rest);
    assert low[0] == ' ' && low[1] == TRANSCODE[0] == 't';
    assert low[1..] == TRANSCODE + rest;
    assert LeadingSpace(low) == 1 + LeadingSpace(low[1..]);
    CleaningIsIdempotentIff(l, raw);
  }

  // ---------------------------------------------------------- normalisation

  /** The map a status list normalises to: every known label at 0, then each
      entry in turn under its cleaned label. */
  function Normalized(raw: seq<Slice>, known: set<string>, cleaner: Slice -> string): map<string, int> {
    if raw == [] then map k | k in known :: 0
    else
      var last := |raw| - 1;
      Normalized(raw[..last], known, cleaner)[cleaner(raw[last]) := raw[last].value]
  }

  /** The unknown labels in a list, once per entry, in list order. */
  function Unknowns(raw: seq<Slice>, known: set<string>, cleaner: Slice -> string, kind: string): seq<StatusKey> {
    if raw == [] then []
    else
      var last := |raw| - 1;
      var status := cleaner(raw[last]);
      Unknowns(raw[..last], known, cleaner, kind) + if status in known then [] else [StatusKey(kind, status)]
  }

  function NormalizedTranscodes(s: PieStat): map<string, int> {
    Normalized(s.transcode, KNOWN_TRANSCODE, CleanTranscodeLabel)
  }

  function NormalizedHealthChecks(s: PieStat): map<string, int> {
    Normalized(s.healthCheck, KNOWN_HEALTH_CHECK, CleanHealthCheckLabel)
  }

  /** Every counter bump one answer causes, transcode entries first. */
  function UnknownKeys(s: PieStat): seq<StatusKey> {
    Unknowns(s.transcode, KNOWN_TRANSCODE, CleanTranscodeLabel, TRANSCODE)
    + Unknowns(s.healthCheck, KNOWN_HEALTH_CHECK, CleanHealthCheckLabel, HEALTH_CHECK)
  }

  /** The finished pie for one library and one answer. */
  function MakePie(lib: Library, s: PieStat): Pie {
    Pie(s, lib.id, lib.name, NormalizedTranscodes(s), NormalizedHealthChecks(s))
  }

  /** `i` is the last entry whose cleaned label is `status`. */
  ghost predicate LastWith(raw: seq<Slice>, cleaner: Slice -> string, status: string, i: int) {
    && 0 <= i < |raw| && cleaner(raw[i]) == status
    && forall j :: i < j < |raw| ==> cleaner(raw[j]) != status
  }

  /** Whether some entry cleans to `status`. */
  ghost predicate Mentioned(raw: seq<Slice>, cleaner: Slice -> string, status: string) {
    exists i :: 0 <= i < |raw| && cleaner(raw[i]) == status
  }

  /** The keys are exactly the known labels and the cleaned ones; a label's value
      is that of the last entry naming it, or 0 when no entry does. */
  lemma {:induction false} NormalizedMeaning(raw: seq<Slice>, known: set<string>, cleaner: Slice -> string)
    ensures var m := Normalized(raw, known, cleaner);
            && (forall l :: l in m <==> l in known || Mentioned(raw, cleaner, l))
            && (forall l, i :: LastWith(raw, cleaner, l, i) ==> l in m && m[l] == raw[i].value)
            && (forall l :: l in m && !Mentioned(raw, cleaner, l) ==> m[l] == 0)
  {
    if raw != [] {
      var last := |raw| - 1;
      var init := raw[..last];
      var top := cleaner(raw[last]);
      NormalizedMeaning(init, known, cleaner);
      forall l ensures Mentioned(raw, cleaner, l) <==> l == top || Mentioned(init, cleaner, l) {
        if Mentioned(init, cleaner, l) {
          var i :| 0 <= i < |init| && cleaner(init[i]) == l;
          assert cleaner(raw[i]) == l;
        }
        if Mentioned(raw, cleaner, l) && l != top {
          var i :| 0 <= i < |raw| && cleaner(raw[i]) == l;
          assert cleaner(init[i]) == l;
        }
      }
      forall l, i | LastWith(raw, cleaner, l, i)
        ensures l in Normalized(raw, known, cleaner) && Normalized(raw, known, cleaner)[l] == raw[i].value
      {
        if i != last { assert LastWith(init, cleaner, l, i); }
      }
    }
  }

  // ------------------------------------------------- conservation of counts

  function RawTotal(raw: seq<Slice>): int {
    if raw == [] then 0 else RawTotal(raw[..|raw| - 1]) + raw[|raw| - 1].value
  }

  /** Sum of a map's values over a set of its keys. */
  ghost function TotalOver(m: map<string, int>, keys: set<string>): int
    requires keys <= m.Keys
  {
    if keys == {} then 0 else
      var k :| k in keys;
      m[k] + TotalOver(m, keys - {k})
  }

  ghost function Total(m: map<string, int>): int {
    TotalOver(m, m.Keys)
  }

  /** The values that a later entry with the same cleaned label overwrites. */
  function Overwritten(raw: seq<Slice>, known: set<string>, cleaner: Slice -> string): int {
    if raw == [] then 0
    else
      var last := |raw| - 1;
      var m := Normalized(raw[..last], known, cleaner);
      var status := cleaner(raw[last]);
      Overwritten(raw[..last], known, cleaner) + if status in m then m[status] else 0
  }

  lemma {:induction false} TotalOverRemove(m: map<string, int>, keys: set<string>, k: string)
    requires keys <= m.Keys && k in keys
    ensures TotalOver(m, keys) == m[k] + TotalOver(m, keys - {k})
    decreases |keys|
  {
    var j :| j in keys && TotalOver(m, keys) == m[j] + TotalOver(m, keys - {j});
    if j != k {
      TotalOverRemove(m, keys - {j}, k);
      TotalOverRemove(m, keys - {k}, j);
      assert keys - {j} - {k} == keys - {k} - {j};
    }
  }

  lemma {:induction false} TotalOverAgree(m: map<string, int>, n: map<string, int>, keys: set<string>)
    requires keys <= m.Keys && keys <= n.Keys
    requires forall k :: k in keys ==> m[k] == n[k]
    ensures TotalOver(m, keys) == TotalOver(n, keys)
    decreases |keys|
  {
    if keys != {} {
      var k :| k in keys;
      TotalOverRemove(m, keys, k);
      TotalOverRemove(n, keys, k);
      TotalOverAgree(m, n, keys - {k});
    }
  }

  lemma TotalUpdate(m: map<string, int>, k: string, v: int)
    ensures Total(m[k := v]) == Total(m) + v - if k in m then m[k] else 0
  {
    var n := m[k := v];
    TotalOverRemove(n, n.Keys, k);
    assert n.Keys - {k} == m.Keys - {k};
    TotalOverAgree(m, n, m.Keys - {k});
    if k in m {
      TotalOverRemove(m, m.Keys, k);
    } else {
      assert m.Keys - {k} == m.Keys;
    }
  }

  lemma {:induction false} ZerosTotal(m: map<string, int>, keys: set<string>)
    requires keys <= m.Keys && forall k :: k in keys ==> m[k] == 0
    ensures TotalOver(m, keys) == 0
    decreases |keys|
  {
    if keys != {} {
      var k :| k in keys;
      TotalOverRemove(m, keys, k);
      ZerosTotal(m, keys - {k});
    }
  }

  /** Nothing is lost but what a later equal label overwrites. */
  lemma {:induction false} NormalizedConserves(raw: seq<Slice>, known: set<string>, cleaner: Slice -> string)
    ensures Total(Normalized(raw, known, cleaner)) + Overwritten(raw, known, cleaner) == RawTotal(raw)
  {
    if raw == [] {
      var zeros := Normalized(raw, known, cleaner);
      ZerosTotal(zeros, zeros.Keys);
    } else {
      var last := |raw| - 1;
      NormalizedConserves(raw[..last], known, cleaner);
      TotalUpdate(Normalized(raw[..last], known, cleaner), cleaner(raw[last]), raw[last].value);
    }
  }

  /** With pairwise distinct cleaned labels the map sums to the raw list. */
  lemma {:induction false} DistinctLabelsConserve(raw: seq<Slice>, known: set<string>, cleaner: Slice -> string)
    requires forall i, j :: 0 <= i < j < |raw| ==> cleaner(raw[i]) != cleaner(raw[j])
    ensures Total(Normalized(raw, known, cleaner)) == RawTotal(raw)
  {
    NothingOverwritten(raw, known, cleaner);
    NormalizedConserves(raw, known, cleaner);
  }

  lemma {:induction false} NothingOverwritten(raw: seq<Slice>, known: set<string>, cleaner: Slice -> string)
    requires forall i, j :: 0 <= i < j < |raw| ==> cleaner(raw[i]) != cleaner(raw[j])
    ensures Overwritten(raw, known, cleaner) == 0
  {
    if raw != [] {
      var last := |raw| - 1;
      var init := raw[..last];
      NothingOverwritten(init, known, cleaner);
      NormalizedMeaning(init, known, cleaner);
      forall i | 0 <= i < |init| ensures cleaner(init[i]) != cleaner(raw[last]) {
        assert init[i] == raw[i];
      }
      assert !Mentioned(init, cleaner, cleaner(raw[last]));
    }
  }

  /** "Transcode error" and "Error" clean to one label; the entry listed last wins. */
  lemma CollidingLabels(x: Slice, y: Slice)
    requires x.lower == TRANSCODE + " error" && y.lower == "error"
    ensures CleanTranscodeLabel(x) == CleanTranscodeLabel(y) == "error"
    ensures var m := Normalized([x, y], KNOWN_TRANSCODE, CleanTranscodeLabel);
            "error" in m && m["error"] == y.value
  {
    BothAreErrors(x, y);
    assert LastWith([x, y], CleanTranscodeLabel, "error", 1);
    NormalizedMeaning([x, y], KNOWN_TRANSCODE, CleanTranscodeLabel);
  }

  lemma BothAreErrors(x: Slice, y: Slice)
    requires x.lower == TRANSCODE + " error" && y.lower == "error"
    ensures CleanTranscodeLabel(x) == CleanTranscodeLabel(y) == "error"
  {
    assert "error"[0] != TRANSCODE[0];
    TrimmedStays("error");
    var cut := TrimPrefix(x.lower, TRANSCODE);
    assert cut == " error" && cut[0] == ' ' && cut[1..] == "error";
    assert LeadingSpace(cut) == 1 + LeadingSpace(cut[1..]);
  }

  /** No known label is ever counted as unknown, and every unknown key carries
      the kind it was found under. */
  lemma {:induction false} UnknownsAreUnknown(raw: seq<Slice>, known: set<string>, cleaner: Slice -> string, kind: string)
    ensures forall k :: k in Unknowns(raw, known, cleaner, kind) ==> k.kind == kind && k.status !in known
  {
    if raw != [] {
      UnknownsAreUnknown(raw[..|raw| - 1], known, cleaner, kind);
    }
  }

  /** How many entries of a list have a label. */
  ghost function Entries(raw: seq<Slice>, cleaner: Slice -> string, l: string): set<int> {
    set i | 0 <= i < |raw| && cleaner(raw[i]) == l
  }

  lemma EntriesSnoc(raw: seq<Slice>, last: Slice, cleaner: Slice -> string, l: string)
    ensures |Entries(raw + [last], cleaner, l)| == |Entries(raw, cleaner, l)| + if cleaner(last) == l then 1 else 0
  {
    var here: set<int> := if cleaner(last) == l then {|raw|} else {};
    assert Entries(raw + [last], cleaner, l) == Entries(raw, cleaner, l) + here;
  }

  lemma CountConcat<T>(s: seq<T>, t: seq<T>, x: T)
    ensures multiset(s + t)[x] == multiset(s)[x] + multiset(t)[x]
  {}

  /** Every entry with an unknown label is one bump of that label. */
  lemma {:induction false} UnknownsCount(raw: seq<Slice>, known: set<string>, cleaner: Slice -> string, kind: string, k: StatusKey)
    ensures multiset(Unknowns(raw, known, cleaner, kind))[k]
            == if k.kind != kind || k.status in known then 0 else |Entries(raw, cleaner, k.status)|
  {
    if raw == [] {
      assert Entries(raw, cleaner, k.status) == {};
    } else {
      var init, last := raw[..|raw| - 1], raw[|raw| - 1];
      assert raw == init + [last];
      UnknownsCount(init, known, cleaner, kind, k);
      UnknownsSnoc(init, last, known, cleaner, kind, k);
      EntriesSnoc(init, last, cleaner, k.status);
    }
  }

  lemma UnknownsSnoc(init: seq<Slice>, last: Slice, known: set<string>, cleaner: Slice -> string, kind: string, k: StatusKey)
    ensures multiset(Unknowns(init + [last], known, cleaner, kind))[k]
            == multiset(Unknowns(init, known, cleaner, kind))[k]
               + if k.kind != kind || k.status in known || k.status != cleaner(last) then 0 else 1
  {
    assert (init + [last])[..|init|] == init;
    var status := cleaner(last);
    CountConcat(Unknowns(init, known, cleaner, kind), if status in known then [] else [StatusKey(kind, status)], k);
    OneOrNone(kind, status, known, k);
  }

  lemma OneOrNone(kind: string, status: string, known: set<string>, k: StatusKey)
    ensures multiset(if status in known then [] else [StatusKey(kind, status)])[k]
            == if k.kind != kind || k.status in known || k.status != status then 0 else 1
  {}

  /** A transcode map on the raw entries: the seven known labels and the cleaned names,
      each with the value of the last entry that has the label, or 0. */
  ghost predicate TranscodesOf(m: map<string, int>, raw: seq<Slice>) {
    && (forall l :: l in m <==>
          l in KNOWN_TRANSCODE || exists i :: 0 <= i < |raw| && Cleaned(raw[i].lower) == l)
    && (forall i :: 0 <= i < |raw| && (forall j :: i < j < |raw| ==> Cleaned(raw[j].lower) != Cleaned(raw[i].lower)) ==>
          Cleaned(raw[i].lower) in m && m[Cleaned(raw[i].lower)] == raw[i].value)
    && (forall l :: l in m && (forall i :: 0 <= i < |raw| ==> Cleaned(raw[i].lower) != l) ==> m[l] == 0)
  }

  /** A health-check map on the raw entries: the four known labels and the lower-cased
      names, each with the value of the last entry that has the label, or 0. */
  ghost predicate HealthChecksOf(m: map<string, int>, raw: seq<Slice>) {
    && (forall l :: l in m <==>
          l in KNOWN_HEALTH_CHECK || exists i :: 0 <= i < |raw| && raw[i].lower == l)
    && (forall i :: 0 <= i < |raw| && (forall j :: i < j < |raw| ==> raw[j].lower != raw[i].lower) ==>
          raw[i].lower in m && m[raw[i].lower] == raw[i].value)
    && (forall l :: l in m && (forall i :: 0 <= i < |raw| ==> raw[i].lower != l) ==> m[l] == 0)
  }

  /** The finished pie on the raw entries of an answer. */
  lemma PieOnRawEntries(lib: Library, stat: PieStat)
    ensures var r := MakePie(lib, stat);
            && r.libraryId == lib.id && r.libraryName == lib.name && r.stat == stat
            && TranscodesOf(r.transcodes, stat.transcode) && HealthChecksOf(r.healthChecks, stat.healthCheck)
  {
    TranscodesOnRawEntries(stat.transcode);
    HealthChecksOnRawEntries(stat.healthCheck);
  }

  lemma TranscodesOnRawEntries(raw: seq<Slice>)
    ensures TranscodesOf(Normalized(raw, KNOWN_TRANSCODE, CleanTranscodeLabel), raw)
  {
    var m := Normalized(raw, KNOWN_TRANSCODE, CleanTranscodeLabel);
    NormalizedMeaning(raw, KNOWN_TRANSCODE, CleanTranscodeLabel);
    forall l ensures Mentioned(raw, CleanTranscodeLabel, l) <==> exists i :: 0 <= i < |raw| && Cleaned(raw[i].lower) == l {
      if i :| 0 <= i < |raw| && Cleaned(raw[i].lower) == l { assert CleanTranscodeLabel(raw[i]) == l; }
    }
    forall i | 0 <= i < |raw| && (forall j :: i < j < |raw| ==> Cleaned(raw[j].lower) != Cleaned(raw[i].lower))
      ensures Cleaned(raw[i].lower) in m && m[Cleaned(raw[i].lower)] == raw[i].value
    {
      assert LastWith(raw, CleanTranscodeLabel, Cleaned(raw[i].lower), i);
    }
  }

  lemma HealthChecksOnRawEntries(raw: seq<Slice>)
    ensures HealthChecksOf(Normalized(raw, KNOWN_HEALTH_CHECK, CleanHealthCheckLabel), raw)
  {
    var m := Normalized(raw, KNOWN_HEALTH_CHECK, CleanHealthCheckLabel);
    NormalizedMeaning(raw, KNOWN_HEALTH_CHECK, CleanHealthCheckLabel);
    forall l ensures Mentioned(raw, CleanHealthCheckLabel, l) <==> exists i :: 0 <= i < |raw| && raw[i].lower == l {
      if i :| 0 <= i < |raw| && raw[i].lower == l { assert CleanHealthCheckLabel(raw[i]) == l; }
    }
    forall i | 0 <= i < |raw| && (forall j :: i < j < |raw| ==> raw[j].lower != raw[i].lower)
      ensures raw[i].lower in m && m[raw[i].lower] == raw[i].value
    {
      assert LastWith(raw, CleanHealthCheckLabel, raw[i].lower, i);
    }
  }

  function RawTranscodeBumps(raw: seq<Slice>, l: string): nat {
    if l in KNOWN_TRANSCODE then 0
    else |set i | 0 <= i < |raw| && Cleaned(raw[i].lower) == l|
  }

  function RawHealthCheckBumps(raw: seq<Slice>, l: string): nat {
    if l in KNOWN_HEALTH_CHECK then 0
    else |set i | 0 <= i < |raw| && raw[i].lower == l|
  }

  /** The bumps of one answer, on its raw entries. */
  function RawBumps(stat: PieStat, k: StatusKey): nat {
    if k.kind == TRANSCODE then RawTranscodeBumps(stat.transcode, k.status)
    else if k.kind == HEALTH_CHECK then RawHealthCheckBumps(stat.healthCheck, k.status)
    else 0
  }

  lemma TranscodeBumps(raw: seq<Slice>, k: StatusKey)
    ensures multiset(Unknowns(raw, KNOWN_TRANSCODE, CleanTranscodeLabel, TRANSCODE))[k]
            == if k.kind == TRANSCODE then RawTranscodeBumps(raw, k.status) else 0
  {
    UnknownsCount(raw, KNOWN_TRANSCODE, CleanTranscodeLabel, TRANSCODE, k);
    assert Entries(raw, CleanTranscodeLabel, k.status) == set i | 0 <= i < |raw| && Cleaned(raw[i].lower) == k.status;
  }

  lemma HealthCheckBumps(raw: seq<Slice>, k: StatusKey)
    ensures multiset(Unknowns(raw, KNOWN_HEALTH_CHECK, CleanHealthCheckLabel, HEALTH_CHECK))[k]
            == if k.kind == HEALTH_CHECK then RawHealthCheckBumps(raw, k.status) else 0
  {
    UnknownsCount(raw, KNOWN_HEALTH_CHECK, CleanHealthCheckLabel, HEALTH_CHECK, k);
    assert Entries(raw, CleanHealthCheckLabel, k.status) == set i | 0 <= i < |raw| && raw[i].lower == k.status;
  }

  /** An unknown label is counted once per entry that has it, under its own kind; a
      known label never. */
  lemma BumpsOnRawEntries(stat: PieStat, k: StatusKey)
    ensures multiset(UnknownKeys(stat))[k] == RawBumps(stat, k)
  {
    TranscodeBumps(stat.transcode, k);
    HealthCheckBumps(stat.healthCheck, k);
    CountConcat(Unknowns(stat.transcode, KNOWN_TRANSCODE, CleanTranscodeLabel, TRANSCODE),
                Unknowns(stat.healthCheck, KNOWN_HEALTH_CHECK, CleanHealthCheckLabel, HEALTH_CHECK), k);
    assert TRANSCODE[0] != HEALTH_CHECK[0];
  }

  // ------------------------------------------------------------- the method

  /** One counter per key that has ever been bumped. */
  function CountsByKey(bumps: multiset<StatusKey>): map<StatusKey, int> {
    map k | k in bumps :: bumps[k]
  }

  /** The collector's persistent unknown-status counters.  `bumps` is what has been
      counted so far. */
  class DriftCounters {
    var counts: map<StatusKey, int>
    ghost var bumps: multiset<StatusKey>

    ghost predicate Valid()
      reads this
    {
      counts == CountsByKey(bumps)
    }

    constructor ()
      ensures Valid() && bumps == multiset{}
    {
      counts := map[];
      bumps := multiset{};
    }

    method Bump(kind: string, status: string)
      requires Valid()
      modifies this
      ensures Valid() && bumps == old(bumps) + multiset{StatusKey(kind, status)}
    {
      var key := StatusKey(kind, status);
      var count := if key in counts then counts[key] else 0;
      counts := counts[key := count + 1];
      bumps := bumps + multiset{key};
    }
  }

  lemma OneMoreEntry(raw: seq<Slice>, i: nat, known: set<string>, cleaner: Slice -> string, kind: string)
    requires i < |raw|
    ensures var status := cleaner(raw[i]);
            && Normalized(raw[..i + 1], known, cleaner) == Normalized(raw[..i], known, cleaner)[status := raw[i].value]
            && multiset(Unknowns(raw[..i + 1], known, cleaner, kind))
               == multiset(Unknowns(raw[..i], known, cleaner, kind))
                  + if status in known then multiset{} else multiset{StatusKey(kind, status)}
  {
    assert raw[..i + 1][..i] == raw[..i];
  }

  /** Pre-populates every known status with 0. */
  method ZeroForAll(known: set<string>) returns (result: map<string, int>)
    ensures result == map k | k in known :: 0
  {
    result := map[];
    var rest := known;
    while rest != {}
      invariant rest <= known
      invariant result.Keys == known - rest && forall k :: k in result ==> result[k] == 0
      decreases rest
    {
      var k :| k in rest;
      result := result[k := 0];
      rest := rest - {k};
    }
  }

  method NormalizeStatusSlice(raw: seq<Slice>, known: set<string>, cleaner: Slice -> string, kind: string,
                              drift: DriftCounters)
    returns (result: map<string, int>)
    requires drift.Valid()
    modifies drift
    ensures result == Normalized(raw, known, cleaner)
    ensures drift.Valid() && drift.bumps == old(drift.bumps) + multiset(Unknowns(raw, known, cleaner, kind))
  {
    result := ZeroForAll(known);
    assert raw[..0] == [];
    ghost var found := multiset(Unknowns(raw[..0], known, cleaner, kind));
    for i := 0 to |raw|
      invariant result == Normalized(raw[..i], known, cleaner)
      invariant found == multiset(Unknowns(raw[..i], known, cleaner, kind))
      invariant drift.Valid() && drift.bumps == old(drift.bumps) + found
    {
      OneMoreEntry(raw, i, known, cleaner, kind);
      var status := cleaner(raw[i]);
      result := NormalizeEntry(result, status, raw[i].value, known, kind, drift);
      found := found + if status in known then multiset{} else multiset{StatusKey(kind, status)};
    }
    assert raw[..|raw|] == raw;
  }

  /** One turn of the loop: both branches keep the value, one counts the label. */
  method NormalizeEntry(result: map<string, int>, status: string, value: int, known: set<string>, kind: string,
                        drift: DriftCounters)
    returns (r: map<string, int>)
    requires drift.Valid()
    modifies drift
    ensures r == result[status := value] && drift.Valid()
    ensures drift.bumps == old(drift.bumps) + if status in known then multiset{} else multiset{StatusKey(kind, status)}
  {
    if status in known {
      r := result[status := value];
    } else {
      r := result[status := value];
      drift.Bump(kind, status);
    }
  }

  /** Both maps on the raw entries, and a bump for each entry whose label is unknown. */
  method NormalizePieStatuses(pie: Pie, drift: DriftCounters) returns (r: Pie)
    requires drift.Valid()
    modifies drift
    ensures r == MakePie(LibraryOf(pie), pie.stat)
    ensures drift.Valid() && drift.bumps == old(drift.bumps) + multiset(UnknownKeys(pie.stat))
    ensures r.stat == pie.stat && r.libraryId == pie.libraryId && r.libraryName == pie.libraryName
    ensures TranscodesOf(r.transcodes, pie.stat.transcode) && HealthChecksOf(r.healthChecks, pie.stat.healthCheck)
    ensures forall k: StatusKey :: drift.bumps[k] == old(drift.bumps)[k] + RawBumps(pie.stat, k)
  {
    var t := NormalizeStatusSlice(pie.stat.transcode, KNOWN_TRANSCODE, CleanTranscodeLabel, TRANSCODE, drift);
    var h := NormalizeStatusSlice(pie.stat.healthCheck, KNOWN_HEALTH_CHECK, CleanHealthCheckLabel, HEALTH_CHECK, drift);
    r := pie.(transcodes := t, healthChecks := h);
    PieOnRawEntries(LibraryOf(pie), pie.stat);
    BumpsAdded(old(drift.bumps), drift.bumps, pie.stat);
  }

  lemma BumpsAdded(before: multiset<StatusKey>, after: multiset<StatusKey>, stat: PieStat)
    requires after == before + multiset(UnknownKeys(stat))
    ensures forall k: StatusKey :: after[k] == before[k] + RawBumps(stat, k)
  {
    forall k: StatusKey ensures after[k] == before[k] + RawBumps(stat, k) {
      BumpsOnRawEntries(stat, k);
    }
  }
}
