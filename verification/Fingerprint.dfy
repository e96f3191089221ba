/** The library-list fingerprint that keys the stats cache
  (libraryFingerprint in internal/collector/tdarr.go). */
module Fingerprint {
  import opened Models

  // ------------------------------------------------------ order on strings

  /** Go's `<` on strings.  Byte order and code-point order agree on UTF-8. */
  predicate Less(a: string, b: string) {
    b != [] && (a == [] || a[0] < b[0] || (a[0] == b[0] && Less(a[1..], b[1..])))
  }

  /** Lexicographic: at the first difference the smaller character decides, and a
      proper prefix comes first. */
  lemma {:induction false} LessIsLexicographic(a: string, b: string)
    ensures Less(a, b) <==> exists k :: 0 <= k <= |a| && k < |b| && a[..k] == b[..k] && (k == |a| || a[k] < b[k])
  {
    if a != [] && b != [] {
      LessIsLexicographic(a[1..], b[1..]);
      if a[0] == b[0] {
        if k :| 0 <= k <= |a[1..]| && k < |b[1..]| && a[1..][..k] == b[1..][..k] && (k == |a[1..]| || a[1..][k] < b[1..][k]) {
          assert a[..k + 1] == [a[0]] + a[1..][..k] && b[..k + 1] == [b[0]] + b[1..][..k];
        }
        if k :| 0 <= k <= |a| && k < |b| && a[..k] == b[..k] && (k == |a| || a[k] < b[k]) {
          assert k > 0;
          assert a[1..][..k - 1] == a[..k][1..] && b[1..][..k - 1] == b[..k][1..];
        }
      } else {
        forall k | 0 < k <= |a| && k < |b| ensures a[..k] != b[..k] {
          assert a[..k][0] != b[..k][0];
        }
        if a[0] < b[0] { assert a[..0] == b[..0]; }
      }
    } else if b != [] {
      assert a[..0] == b[..0];
    }
  }

  lemma {:induction false} LessIsTotal(a: string, b: string)
    ensures Less(a, b) || Less(b, a) <==> a != b
    ensures !(Less(a, b) && Less(b, a))
  {
    if a != [] && b != [] {
      LessIsTotal(a[1..], b[1..]);
      assert a == [a[0]] + a[1..] && b == [b[0]] + b[1..];
    }
  }

  lemma {:induction false} LessIsTransitive(a: string, b: string, c: string)
    requires !Less(b, a) && !Less(c, b)
    ensures !Less(c, a)
  {
    if a != [] && b != [] && c != [] {
      if a[0] == b[0] == c[0] {
        LessIsTransitive(a[1..], b[1..], c[1..]);
      }
    }
  }

  // ---------------------------------------------------------- fingerprints

  /** What a sort by id leaves: no entry sorts before an earlier one. */
  predicate Ordered(a: Library, b: Library) {
    !Less(b.id, a.id)
  }

  ghost predicate Sorted(fp: seq<Library>) {
    forall i, j :: 0 <= i < j < |fp| ==> Ordered(fp[i], fp[j])
  }

  /** Any outcome of sorting a copy of `libs` by id.  sort.Slice is not stable, so
      entries with equal ids may come out in any order. */
  ghost predicate IsFingerprint(libs: seq<Library>, fp: seq<Library>) {
    multiset(fp) == multiset(libs) && Sorted(fp)
  }

  /** Entries that share an id are the same entry. */
  ghost predicate IdsDetermineEntries(libs: seq<Library>) {
    forall a, b :: a in libs && b in libs && a.id == b.id ==> a == b
  }

  lemma SameElements(a: seq<Library>, b: seq<Library>)
    requires multiset(a) == multiset(b)
    ensures forall x :: x in a <==> x in b
    ensures |a| == |b|
  {
    assert forall x :: x in a <==> x in multiset(a);
    assert forall x :: x in b <==> x in multiset(b);
    assert |a| == |multiset(a)| && |b| == |multiset(b)|;
  }

  lemma SortedHead(fp: seq<Library>, x: Library)
    requires Sorted(fp) && x in fp
    ensures Ordered(fp[0], x)
  {
    var i :| 0 <= i < |fp| && fp[i] == x;
    LessIsTotal(x.id, x.id);
  }

  lemma SameHead(p: seq<Library>, q: seq<Library>)
    requires multiset(p) == multiset(q) && Sorted(p) && Sorted(q) && p != []
    requires IdsDetermineEntries(p)
    ensures q != [] && p[0] == q[0]
  {
    SameElements(p, q);
    SortedHead(p, q[0]);
    SortedHead(q, p[0]);
    LessIsTotal(p[0].id, q[0].id);
  }

  lemma Tail(p: seq<Library>)
    requires p != []
    ensures multiset(p[1..]) == multiset(p) - multiset{p[0]}
    ensures Sorted(p) ==> Sorted(p[1..])
    ensures IdsDetermineEntries(p) ==> IdsDetermineEntries(p[1..])
  {
    assert p == [p[0]] + p[1..];
  }

  /** When ids determine entries, sorting has one possible outcome. */
  lemma {:induction false} SortIsUnique(p: seq<Library>, q: seq<Library>)
    requires multiset(p) == multiset(q) && Sorted(p) && Sorted(q)
    requires IdsDetermineEntries(p)
    ensures p == q
    decreases |p|
  {
    if p == [] {
      SameElements(p, q);
    } else {
      SameHead(p, q);
      Tail(p);
      Tail(q);
      SortIsUnique(p[1..], q[1..]);
      assert p == [p[0]] + p[1..] && q == [q[0]] + q[1..];
    }
  }

  /** Two different entries with one id can be listed either way round. */
  lemma SwapTies(fp: seq<Library>, i: nat, j: nat) returns (other: seq<Library>)
    requires Sorted(fp) && i < j < |fp| && fp[i].id == fp[j].id && fp[i] != fp[j]
    ensures multiset(other) == multiset(fp) && Sorted(other) && other != fp
  {
    other := fp[i := fp[j]][j := fp[i]];
    assert forall k :: 0 <= k < |fp| ==> other[k].id == fp[k].id;
    assert other[i] != fp[i];
  }

  /** Exactly when fingerprints of one list never disagree: when no two different
      entries of the list share an id. */
  lemma CanonicalIff(libs: seq<Library>)
    ensures (forall p, q :: IsFingerprint(libs, p) && IsFingerprint(libs, q) ==> p == q)
            <==> IdsDetermineEntries(libs)
  {
    if IdsDetermineEntries(libs) {
      forall p, q | IsFingerprint(libs, p) && IsFingerprint(libs, q) ensures p == q {
        SameElements(libs, p);
        SortIsUnique(p, q);
      }
    } else {
      var a, b :| a in libs && b in libs && a.id == b.id && a != b;
      var p := SomeFingerprint(libs);
      SameElements(libs, p);
      var i :| 0 <= i < |p| && p[i] == a;
      var j :| 0 <= j < |p| && p[j] == b;
      var q: seq<Library>;
      if i < j { q := SwapTies(p, i, j); } else { q := SwapTies(p, j, i); }
      assert IsFingerprint(libs, q);
    }
  }

  /** Equal fingerprints come from arrangements of the same libraries. */
  lemma EqualFingerprints(libs: seq<Library>, libs': seq<Library>, fp: seq<Library>)
    requires IsFingerprint(libs, fp) && IsFingerprint(libs', fp)
    ensures multiset(libs) == multiset(libs')
  {}

  /** Any arrangement of a list whose ids determine its entries has the same
      fingerprint, whichever way the sort breaks ties. */
  lemma PermutationsAgree(libs: seq<Library>, libs': seq<Library>, fp: seq<Library>, fp': seq<Library>)
    requires multiset(libs) == multiset(libs') && IdsDetermineEntries(libs)
    requires IsFingerprint(libs, fp) && IsFingerprint(libs', fp')
    ensures fp == fp'
  {
    SameElements(libs, fp);
    SortIsUnique(fp, fp');
  }

  // ---------------------------------------------------------------- sorting

  /** Where `x` goes in a sorted list. */
  function Inserted(x: Library, s: seq<Library>): (r: seq<Library>)
    ensures multiset(r) == multiset(s) + multiset{x}
  {
    if s == [] || !Less(s[0].id, x.id) then [x] + s
    else
      assert s == [s[0]] + s[1..];
      [s[0]] + Inserted(x, s[1..])
  }

  lemma {:induction false} InsertedSorted(x: Library, s: seq<Library>)
    requires Sorted(s)
    ensures Sorted(Inserted(x, s))
  {
    var r := Inserted(x, s);
    if s == [] {
    } else if !Less(s[0].id, x.id) {
      forall j | 1 <= j < |r| ensures Ordered(x, r[j]) {
        if j > 1 { LessIsTransitive(x.id, s[0].id, s[j - 1].id); }
      }
    } else {
      InsertedSorted(x, s[1..]);
      LessIsTotal(s[0].id, x.id);
      var t := Inserted(x, s[1..]);
      forall j | 0 <= j < |t| ensures Ordered(s[0], t[j]) {
        assert t[j] in multiset(t);
        assert t[j] == x || t[j] in s[1..];
      }
      forall i, j | 0 <= i < j < |r| ensures Ordered(r[i], r[j]) {
        if i > 0 { assert r[i] == t[i - 1]; }
        assert r[j] == t[j - 1];
      }
    }
  }

  /** Every list has a fingerprint. */
  lemma {:induction false} SomeFingerprint(libs: seq<Library>) returns (fp: seq<Library>)
    ensures IsFingerprint(libs, fp)
  {
    if libs == [] {
      fp := [];
    } else {
      var rest := SomeFingerprint(libs[1..]);
      fp := Inserted(libs[0], rest);
      InsertedSorted(libs[0], rest);
      assert libs == [libs[0]] + libs[1..];
    }
  }

  lemma MultisetSwap(s: seq<Library>, t: seq<Library>, i: nat, j: nat)
    requires i < j < |s| && t == s[i := s[j]][j := s[i]]
    ensures multiset(t) == multiset(s)
  {}

  /** The prefix a[..n] is in order except that the entry at `hole` may still have
      to move left. */
  ghost predicate OrderedBut(s: seq<Library>, n: nat, hole: nat) {
    n <= |s| && forall p, q :: 0 <= p < q < n && q != hole ==> Ordered(s[p], s[q])
  }

  lemma ShiftHole(s: seq<Library>, t: seq<Library>, n: nat, hole: nat)
    requires OrderedBut(s, n, hole) && 0 < hole < n && Less(s[hole].id, s[hole - 1].id)
    requires t == s[hole - 1 := s[hole]][hole := s[hole - 1]]
    ensures OrderedBut(t, n, hole - 1)
  {
    LessIsTotal(s[hole].id, s[hole - 1].id);
    forall p, q | 0 <= p < q < n && q != hole - 1 ensures Ordered(t[p], t[q]) {
      if q == hole && p < hole - 1 { assert Ordered(s[p], s[hole - 1]); }
    }
  }

  lemma FillHole(s: seq<Library>, n: nat, hole: nat)
    requires OrderedBut(s, n, hole) && hole < n
    requires hole == 0 || !Less(s[hole].id, s[hole - 1].id)
    ensures Sorted(s[..n])
  {
    forall p | 0 <= p < hole ensures Ordered(s[p], s[hole]) {
      if p < hole - 1 {
        LessIsTransitive(s[p].id, s[hole - 1].id, s[hole].id);
      }
    }
  }

  /** An in-place sort by id, promising only what sort.Slice does: a permutation
      in non-decreasing order, ties in any order. */
  method SortById(a: array<Library>)
    modifies a
    ensures multiset(a[..]) == multiset(old(a[..])) && Sorted(a[..])
  {
    var n := 0;
    while n < a.Length
      invariant 0 <= n <= a.Length
      invariant multiset(a[..]) == multiset(old(a[..])) && Sorted(a[..n])
    {
      var hole := n;
      assert OrderedBut(a[..], n + 1, hole);
      while hole > 0 && Less(a[hole].id, a[hole - 1].id)
        invariant 0 <= hole <= n < a.Length
        invariant multiset(a[..]) == multiset(old(a[..])) && OrderedBut(a[..], n + 1, hole)
      {
        ghost var before := a[..];
        a[hole - 1], a[hole] := a[hole], a[hole - 1];
        MultisetSwap(before, a[..], hole - 1, hole);
        ShiftHole(before, a[..], n + 1, hole);
        hole := hole - 1;
      }
      FillHole(a[..], n + 1, hole);
      assert a[..][..n + 1] == a[..n + 1];
      n := n + 1;
    }
    assert a[..a.Length] == a[..];
  }

  /** Sorts a private copy: the caller's list keeps its order. */
  method LibraryFingerprint(libs: array<Library>) returns (fp: array<Library>)
    ensures fresh(fp) && libs[..] == old(libs[..])
    ensures IsFingerprint(libs[..], fp[..])
  {
    fp := new Library[libs.Length](i requires 0 <= i < libs.Length reads libs => libs[i]);
    assert fp[..] == libs[..];
    SortById(fp);
  }
}
