/** Sums of multisets over sequences and over maps.

  The exporter fills metric channels and result lists from several loops whose
  order is not fixed (Go map iteration, worker scheduling).  The functions here
  give those loops an order-free meaning, and the lemmas say that the order
  chosen never matters. */
module Folds {

  lemma BagAssoc<T>(a: multiset<T>, b: multiset<T>, c: multiset<T>)
    ensures a + b + c == a + (b + c)
  {}

  lemma SeqAssoc<T>(a: seq<T>, b: seq<T>, c: seq<T>)
    ensures a + b + c == a + (b + c)
  {}

  /** The multiset sum of `f` over the elements of `s`. */
  function SeqSum<T, U>(s: seq<T>, f: T -> multiset<U>): multiset<U> {
    if s == [] then multiset{} else f(s[0]) + SeqSum(s[1..], f)
  }

  lemma {:induction false} SeqSumConcat<T, U>(a: seq<T>, b: seq<T>, f: T -> multiset<U>)
    ensures SeqSum(a + b, f) == SeqSum(a, f) + SeqSum(b, f)
  {
    if a == [] {
      assert a + b == b;
    } else {
      assert (a + b)[0] == a[0] && (a + b)[1..] == a[1..] + b;
      SeqSumConcat(a[1..], b, f);
    }
  }

  lemma SeqSumSnoc<T, U>(s: seq<T>, x: T, f: T -> multiset<U>)
    ensures SeqSum(s + [x], f) == SeqSum(s, f) + f(x)
  {
    SeqSumConcat(s, [x], f);
    assert [x][1..] == [];
  }

  lemma SeqSumSplit<T, U>(s: seq<T>, i: nat, f: T -> multiset<U>)
    requires i < |s|
    ensures SeqSum(s, f) == SeqSum(s[..i], f) + f(s[i]) + SeqSum(s[i + 1..], f)
  {
    assert s == s[..i] + s[i..];
    SeqSumConcat(s[..i], s[i..], f);
    assert s[i..][1..] == s[i + 1..];
  }

  /** The elements of `s` as a multiset, defined element by element.  It equals
      `multiset(s)` (BaggedIsMultiset); proofs about samples use this form because
      it unfolds one element at a time. */
  function Bagged<T>(s: seq<T>): multiset<T> {
    if s == [] then multiset{} else multiset{s[0]} + Bagged(s[1..])
  }

  lemma {:induction false} BaggedConcat<T>(a: seq<T>, b: seq<T>)
    ensures Bagged(a + b) == Bagged(a) + Bagged(b)
  {
    if a == [] {
      assert a + b == b;
    } else {
      assert (a + b)[0] == a[0] && (a + b)[1..] == a[1..] + b;
      BaggedConcat(a[1..], b);
    }
  }

  lemma BaggedSnoc<U>(s: seq<U>, x: U)
    ensures Bagged(s + [x]) == Bagged(s) + multiset{x}
  {
    BaggedConcat(s, [x]);
    assert [x][1..] == [];
  }

  lemma {:induction false} BaggedIsMultiset<T>(s: seq<T>)
    ensures Bagged(s) == multiset(s)
  {
    if s != [] {
      BaggedIsMultiset(s[1..]);
      assert s == [s[0]] + s[1..];
    }
  }

  /** Replacing one element replaces exactly that element's contribution. */
  lemma SeqSumUpdate<T, U>(s: seq<T>, i: nat, x: T, f: T -> multiset<U>)
    requires i < |s|
    ensures f(s[i]) <= SeqSum(s, f)
    ensures SeqSum(s[i := x], f) == SeqSum(s, f) - f(s[i]) + f(x)
  {
    SeqSumSplit(s, i, f);
    SeqSumSplit(s[i := x], i, f);
    assert s[i := x][..i] == s[..i] && s[i := x][i + 1..] == s[i + 1..];
  }

  /** Sequence `s` without its element at `i`. */
  function Without<T>(s: seq<T>, i: nat): (r: seq<T>)
    requires i < |s|
    ensures multiset(s) == multiset(r) + multiset{s[i]}
  {
    assert s == s[..i] + [s[i]] + s[i + 1..];
    s[..i] + s[i + 1..]
  }

  lemma SeqSumWithout<T, U>(s: seq<T>, i: nat, f: T -> multiset<U>)
    requires i < |s|
    ensures SeqSum(s, f) == f(s[i]) + SeqSum(Without(s, i), f)
  {
    SeqSumSplit(s, i, f);
    SeqSumConcat(s[..i], s[i + 1..], f);
  }

  /** In an arrangement of the same elements, the head of `a` sits somewhere and
      what is left is an arrangement of the tail. */
  lemma HeadOf<T>(a: seq<T>, b: seq<T>) returns (i: nat)
    requires multiset(a) == multiset(b) && a != []
    ensures i < |b| && b[i] == a[0] && multiset(a[1..]) == multiset(Without(b, i))
  {
    assert a[0] in multiset(b);
    i :| i < |b| && b[i] == a[0];
    assert Without(a, 0) == a[1..];
    assert multiset(a[1..]) == multiset(a) - multiset{a[0]};
    assert multiset(Without(b, i)) == multiset(b) - multiset{a[0]};
  }

  lemma EmptyArrangement<T>(b: seq<T>)
    requires multiset(b) == multiset{}
    ensures b == []
  {
    assert |b| == |multiset(b)|;
  }

  /** A sum depends only on the elements summed, not on their order. */
  lemma {:induction false} SeqSumPermutation<T, U>(a: seq<T>, b: seq<T>, f: T -> multiset<U>)
    requires multiset(a) == multiset(b)
    ensures SeqSum(a, f) == SeqSum(b, f)
    decreases |a|
  {
    if a == [] {
      EmptyArrangement(b);
    } else {
      var i := HeadOf(a, b);
      SeqSumPermutation(a[1..], Without(b, i), f);
      SeqSumWithout(b, i, f);
    }
  }

  lemma {:induction false} SeqSumMember<T, U>(s: seq<T>, f: T -> multiset<U>, u: U)
    ensures u in SeqSum(s, f) <==> exists x :: x in s && u in f(x)
  {
    if s != [] {
      SeqSumMember(s[1..], f, u);
      assert forall x :: x in s <==> x == s[0] || x in s[1..];
    }
  }

  /** The image of a sequence under `f`, element by element. */
  function Image<T, U>(f: T -> U, s: seq<T>): (r: seq<U>)
    ensures |r| == |s| && forall i :: 0 <= i < |s| ==> r[i] == f(s[i])
  {
    seq(|s|, i requires 0 <= i < |s| => f(s[i]))
  }

  lemma ImageWithout<T, U>(f: T -> U, s: seq<T>, i: nat)
    requires i < |s|
    ensures multiset(Image(f, s)) == multiset(Image(f, Without(s, i))) + multiset{f(s[i])}
  {
    assert Image(f, Without(s, i)) == Without(Image(f, s), i);
  }

  /** Applying a function to two arrangements of the same elements gives two
      arrangements of the same images. */
  lemma {:induction false} ImagePermutation<T, U>(f: T -> U, a: seq<T>, b: seq<T>)
    requires multiset(a) == multiset(b)
    ensures multiset(Image(f, a)) == multiset(Image(f, b))
    decreases |a|
  {
    if a == [] {
      EmptyArrangement(b);
    } else {
      var i := HeadOf(a, b);
      ImagePermutation(f, a[1..], Without(b, i));
      ImageWithout(f, b, i);
      ImageWithout(f, a, 0);
      assert Without(a, 0) == a[1..];
    }
  }

  /** The multiset sum of `f(k, m[k])` over the keys of `m`, whatever order a
      range loop visits them in. */
  ghost function MapSum<K, V, U>(m: map<K, V>, f: (K, V) -> multiset<U>): multiset<U>
    decreases |m|
  {
    if m == map[] then multiset{} else
      assert m.Keys != {};
      var k :| k in m;
      assert m.Keys == (m - {k}).Keys + {k};
      f(k, m[k]) + MapSum(m - {k}, f)
  }

  /** Any key can be visited first. */
  lemma {:induction false} MapSumRemove<K, V, U>(m: map<K, V>, k: K, f: (K, V) -> multiset<U>)
    requires k in m
    ensures MapSum(m, f) == f(k, m[k]) + MapSum(m - {k}, f)
    decreases |m|
  {
    assert m != map[];
    var j :| j in m && MapSum(m, f) == f(j, m[j]) + MapSum(m - {j}, f);
    if j != k {
      assert m.Keys == (m - {j}).Keys + {j};
      assert m.Keys == (m - {k}).Keys + {k};
      MapSumRemove(m - {j}, k, f);
      MapSumRemove(m - {k}, j, f);
      assert m - {j} - {k} == m - {k} - {j};
    }
  }

  lemma {:induction false} MapSumMember<K, V, U>(m: map<K, V>, f: (K, V) -> multiset<U>, u: U)
    ensures u in MapSum(m, f) <==> exists k :: k in m && u in f(k, m[k])
    decreases |m|
  {
    if m != map[] {
      assert m.Keys != {};
      var k :| k in m;
      assert m.Keys == (m - {k}).Keys + {k};
      MapSumRemove(m, k, f);
      MapSumMember(m - {k}, f, u);
      assert forall j :: j in m <==> j == k || j in m - {k};
    }
  }

  /** The restriction of `m` to the keys a loop has visited so far grows by one
      summand when the loop visits one more key. */
  lemma MapSumVisit<K, V, U>(m: map<K, V>, rest: set<K>, k: K, f: (K, V) -> multiset<U>)
    requires rest <= m.Keys && k in rest
    ensures MapSum(m - (rest - {k}), f) == MapSum(m - rest, f) + f(k, m[k])
  {
    var after := m - (rest - {k});
    MapSumRemove(after, k, f);
    assert after - {k} == m - rest;
  }
}
