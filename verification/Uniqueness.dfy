/** No two samples of a scrape share metric and label values. */
module Uniqueness {
  import opened Models
  import opened Folds
  import opened Series
  import opened Sections

  datatype Key = Key(metric: Metric, labels: seq<string>)

  function KeyOf(s: Sample): Key {
    Key(s.metric, s.labels)
  }

  /** No sample occurs twice and no two share a key. */
  ghost predicate Unique(bag: multiset<Sample>) {
    && (forall x :: x in bag ==> bag[x] == 1)
    && (forall x, y :: x in bag && y in bag && KeyOf(x) == KeyOf(y) ==> x == y)
  }

  ghost predicate Apart(a: multiset<Sample>, b: multiset<Sample>) {
    forall x, y :: x in a && y in b ==> KeyOf(x) != KeyOf(y)
  }

  lemma UniqueUnion(a: multiset<Sample>, b: multiset<Sample>)
    requires Unique(a) && Unique(b) && Apart(a, b)
    ensures Unique(a + b)
  {
    forall x | x in a + b ensures (a + b)[x] == 1 {
      assert !(x in a && x in b);
    }
  }

  /** A batch whose keys differ pairwise. */
  ghost predicate DistinctKeys(s: seq<Sample>) {
    forall i, j :: 0 <= i < j < |s| ==> KeyOf(s[i]) != KeyOf(s[j])
  }

  lemma {:induction false} DistinctIsUnique(s: seq<Sample>)
    requires DistinctKeys(s)
    ensures Unique(Bagged(s))
  {
    if s != [] {
      DistinctIsUnique(s[1..]);
      forall x, y | x in multiset{s[0]} && y in Bagged(s[1..]) ensures KeyOf(x) != KeyOf(y) {
        BaggedMember(s[1..], y);
        var k :| 0 <= k < |s[1..]| && s[1..][k] == y;
        assert s[k + 1] == y;
      }
      UniqueUnion(multiset{s[0]}, Bagged(s[1..]));
    }
  }

  lemma {:induction false} UniqueIsDistinct(s: seq<Sample>)
    requires Unique(Bagged(s))
    ensures DistinctKeys(s)
  {
    forall i, j | 0 <= i < j < |s| ensures KeyOf(s[i]) != KeyOf(s[j]) {
      BaggedMember(s, s[i]);
      BaggedMember(s, s[j]);
      if s[i] == s[j] {
        CountTwice(s, i, j);
      }
    }
  }

  lemma CountTwice<T>(s: seq<T>, i: nat, j: nat)
    requires i < j < |s| && s[i] == s[j]
    ensures Bagged(s)[s[i]] >= 2
  {
    assert s == s[..j] + s[j..];
    BaggedConcat(s[..j], s[j..]);
    BaggedMember(s[..j], s[i]);
    BaggedMember(s[j..], s[i]);
    assert s[..j][i] == s[i] && s[j..][0] == s[i];
  }

  /** Batches that use different metrics do not meet. */
  ghost predicate MetricsApart(a: seq<Sample>, b: seq<Sample>) {
    forall i, j :: 0 <= i < |a| && 0 <= j < |b| ==> a[i].metric != b[j].metric
  }

  lemma DistinctConcat(a: seq<Sample>, b: seq<Sample>)
    requires DistinctKeys(a) && DistinctKeys(b) && MetricsApart(a, b)
    ensures DistinctKeys(a + b)
  {}

  lemma {:induction false} MapSumUnique<K, V>(m: map<K, V>, f: (K, V) -> multiset<Sample>)
    requires forall k :: k in m ==> Unique(f(k, m[k]))
    requires forall j, k :: j in m && k in m && j != k ==> Apart(f(j, m[j]), f(k, m[k]))
    ensures Unique(MapSum(m, f))
    decreases |m|
  {
    if m != map[] {
      assert m.Keys != {};
      var k :| k in m;
      assert m.Keys == (m - {k}).Keys + {k};
      MapSumRemove(m, k, f);
      MapSumUnique(m - {k}, f);
      forall x, y | x in f(k, m[k]) && y in MapSum(m - {k}, f) ensures KeyOf(x) != KeyOf(y) {
        MapSumMember(m - {k}, f, y);
        var j :| j in m - {k} && y in f(j, m[j]);
        assert Apart(f(k, m[k]), f(j, m[j]));
      }
      UniqueUnion(f(k, m[k]), MapSum(m - {k}, f));
    }
  }

  // --------------------------------------------------------------- library

  ghost predicate DistinctNames(slices: seq<Slice>) {
    forall i, j :: 0 <= i < j < |slices| ==> slices[i].lower != slices[j].lower
  }

  ghost predicate DistinctMedia(m: Media) {
    DistinctNames(m.codecs) && DistinctNames(m.containers) && DistinctNames(m.resolutions)
  }

  ghost predicate DistinctSlices(p: Pie) {
    DistinctMedia(p.stat.video) && DistinctMedia(p.stat.audio)
  }

  lemma SlicesDistinct(m: Metric, id: string, slices: seq<Slice>)
    requires DistinctNames(slices)
    ensures DistinctKeys(SliceSeries(m, id, slices))
  {
    var all := SliceSeries(m, id, slices);
    forall i, j | 0 <= i < j < |all| ensures KeyOf(all[i]) != KeyOf(all[j]) {
      assert all[i].labels[1] != all[j].labels[1];
    }
  }

  lemma MediaUnique(p: Pie)
    requires DistinctSlices(p)
    ensures Unique(Bagged(MediaSeries(p)))
  {
    var id, v, a := p.libraryId, p.stat.video, p.stat.audio;
    var s0, s1 := SliceSeries(VideoCodecs, id, v.codecs), SliceSeries(VideoContainers, id, v.containers);
    var s2 := SliceSeries(VideoResolutions, id, v.resolutions);
    var s3, s4 := SliceSeries(AudioCodecs, id, a.codecs), SliceSeries(AudioContainers, id, a.containers);
    SlicesDistinct(VideoCodecs, id, v.codecs);
    SlicesDistinct(VideoContainers, id, v.containers);
    SlicesDistinct(VideoResolutions, id, v.resolutions);
    SlicesDistinct(AudioCodecs, id, a.codecs);
    SlicesDistinct(AudioContainers, id, a.containers);
    DistinctConcat(s0, s1);
    DistinctConcat(s0 + s1, s2);
    DistinctConcat(s0 + s1 + s2, s3);
    DistinctConcat(s0 + s1 + s2 + s3, s4);
    DistinctIsUnique(MediaSeries(p));
  }

  lemma StatusesUnique(m: Metric, id: string, counts: map<string, int>)
    ensures Unique(StatusSeries(m, id, counts))
  {
    var f := StatusSample(m, id);
    forall j, k | j in counts && k in counts && j != k ensures Apart(f(j, counts[j]), f(k, counts[k])) {
      assert [id, j][1] != [id, k][1];
    }
    MapSumUnique(counts, f);
  }

  /** Every sample of a bag uses one of the given metrics. */
  ghost predicate Uses(bag: multiset<Sample>, metrics: set<Metric>) {
    forall x :: x in bag ==> x.metric in metrics
  }

  lemma DifferentMetrics(a: multiset<Sample>, b: multiset<Sample>, ma: set<Metric>, mb: set<Metric>)
    requires Uses(a, ma) && Uses(b, mb) && ma !! mb
    ensures Apart(a, b)
  {}

  lemma UsesUnion(a: multiset<Sample>, b: multiset<Sample>, ma: set<Metric>, mb: set<Metric>)
    requires Uses(a, ma) && Uses(b, mb)
    ensures Uses(a + b, ma + mb)
  {}

  const HEAD_METRICS: set<Metric> :=
    {LibraryInfo, LibraryFiles, LibraryTranscodesTotal, LibraryHealthChecksTotal, LibrarySizeDiff}
  const MEDIA_METRICS: set<Metric> := {VideoCodecs, VideoContainers, VideoResolutions, AudioCodecs, AudioContainers}

  ghost predicate SeqUses(s: seq<Sample>, metrics: set<Metric>) {
    forall k :: 0 <= k < |s| ==> s[k].metric in metrics
  }

  lemma BatchUses(s: seq<Sample>, metrics: set<Metric>)
    requires SeqUses(s, metrics)
    ensures Uses(Bagged(s), metrics)
  {
    forall x | x in Bagged(s) ensures x.metric in metrics { BaggedMember(s, x); }
  }

  lemma PieHeadUnique(p: Pie)
    ensures Unique(Bagged(PieHead(p))) && Uses(Bagged(PieHead(p)), HEAD_METRICS)
  {
    DistinctIsUnique(PieHead(p));
    BatchUses(PieHead(p), HEAD_METRICS);
  }

  lemma MediaUses(p: Pie)
    ensures Uses(Bagged(MediaSeries(p)), MEDIA_METRICS)
  {
    BatchUses(MediaSeries(p), MEDIA_METRICS);
  }

  lemma StatusesUse(m: Metric, id: string, counts: map<string, int>)
    ensures Uses(StatusSeries(m, id, counts), {m})
  {
    forall x | x in StatusSeries(m, id, counts) ensures x.metric == m {
      MapSumMember(counts, StatusSample(m, id), x);
    }
  }

  lemma PieUnique(p: Pie)
    requires DistinctSlices(p)
    ensures Unique(PieSeries(p))
  {
    var head, media := Bagged(PieHead(p)), Bagged(MediaSeries(p));
    var t := StatusSeries(LibraryTranscodes, p.libraryId, p.transcodes);
    var h := StatusSeries(LibraryHealthChecks, p.libraryId, p.healthChecks);
    PieHeadUnique(p);
    MediaUnique(p);
    MediaUses(p);
    StatusesUnique(LibraryTranscodes, p.libraryId, p.transcodes);
    StatusesUnique(LibraryHealthChecks, p.libraryId, p.healthChecks);
    StatusesUse(LibraryTranscodes, p.libraryId, p.transcodes);
    StatusesUse(LibraryHealthChecks, p.libraryId, p.healthChecks);
    FourUnique(head, t, h, media);
  }

  lemma FourUnique(head: multiset<Sample>, t: multiset<Sample>, h: multiset<Sample>, media: multiset<Sample>)
    requires Unique(head) && Unique(t) && Unique(h) && Unique(media)
    requires Uses(head, HEAD_METRICS) && Uses(t, {LibraryTranscodes}) && Uses(h, {LibraryHealthChecks})
    requires Uses(media, MEDIA_METRICS)
    ensures Unique(head + t + h + media)
  {
    DifferentMetrics(head, t, HEAD_METRICS, {LibraryTranscodes});
    UniqueUnion(head, t);
    UsesUnion(head, t, HEAD_METRICS, {LibraryTranscodes});
    var two := HEAD_METRICS + {LibraryTranscodes};
    DifferentMetrics(head + t, h, two, {LibraryHealthChecks});
    UniqueUnion(head + t, h);
    UsesUnion(head + t, h, two, {LibraryHealthChecks});
    var three := two + {LibraryHealthChecks};
    DifferentMetrics(head + t + h, media, three, MEDIA_METRICS);
    UniqueUnion(head + t + h, media);
  }

  /** Every sample of a bag has `id` as its first label. */
  ghost predicate Owned(bag: multiset<Sample>, id: string) {
    forall x :: x in bag ==> |x.labels| > 0 && x.labels[0] == id
  }

  lemma DifferentOwners(a: multiset<Sample>, b: multiset<Sample>, i: string, j: string)
    requires Owned(a, i) && Owned(b, j) && i != j
    ensures Apart(a, b)
  {
    forall x, y | x in a && y in b ensures KeyOf(x) != KeyOf(y) {
      assert x.labels[0] != y.labels[0];
    }
  }

  ghost predicate SeqOwned(s: seq<Sample>, id: string) {
    forall k :: 0 <= k < |s| ==> |s[k].labels| > 0 && s[k].labels[0] == id
  }

  lemma BatchOwned(s: seq<Sample>, id: string)
    requires SeqOwned(s, id)
    ensures Owned(Bagged(s), id)
  {
    forall x | x in Bagged(s) ensures |x.labels| > 0 && x.labels[0] == id { BaggedMember(s, x); }
  }

  lemma PieHeadOwned(p: Pie)
    ensures Owned(Bagged(PieHead(p)), p.libraryId)
  {
    BatchOwned(PieHead(p), p.libraryId);
  }

  lemma MediaOwned(p: Pie)
    ensures Owned(Bagged(MediaSeries(p)), p.libraryId)
  {
    BatchOwned(MediaSeries(p), p.libraryId);
  }

  lemma StatusesOwned(m: Metric, id: string, counts: map<string, int>)
    ensures Owned(StatusSeries(m, id, counts), id)
  {
    forall x | x in StatusSeries(m, id, counts) ensures |x.labels| > 0 && x.labels[0] == id {
      MapSumMember(counts, StatusSample(m, id), x);
    }
  }

  lemma OwnedUnion(a: multiset<Sample>, b: multiset<Sample>, id: string)
    requires Owned(a, id) && Owned(b, id)
    ensures Owned(a + b, id)
  {}

  lemma PieOwned(p: Pie)
    ensures Owned(PieSeries(p), p.libraryId)
  {
    var head, media := Bagged(PieHead(p)), Bagged(MediaSeries(p));
    var t := StatusSeries(LibraryTranscodes, p.libraryId, p.transcodes);
    var h := StatusSeries(LibraryHealthChecks, p.libraryId, p.healthChecks);
    PieHeadOwned(p);
    MediaOwned(p);
    StatusesOwned(LibraryTranscodes, p.libraryId, p.transcodes);
    StatusesOwned(LibraryHealthChecks, p.libraryId, p.healthChecks);
    OwnedUnion(head, t, p.libraryId);
    OwnedUnion(head + t, h, p.libraryId);
    OwnedUnion(head + t + h, media, p.libraryId);
  }

  ghost predicate DistinctPies(pies: seq<Pie>) {
    forall i, j :: 0 <= i < j < |pies| ==> pies[i].libraryId != pies[j].libraryId
  }

  lemma {:induction false} PiesUnique(pies: seq<Pie>)
    requires DistinctPies(pies) && forall p :: p in pies ==> DistinctSlices(p)
    ensures Unique(PiesSeries(pies))
  {
    if pies != [] {
      PieUnique(pies[0]);
      PiesUnique(pies[1..]);
      HeadApart(pies);
      UniqueUnion(PieSeries(pies[0]), PiesSeries(pies[1..]));
      assert PiesSeries(pies) == PieSamples()(pies[0]) + PiesSeries(pies[1..]);
    }
  }

  lemma HeadApart(pies: seq<Pie>)
    requires pies != [] && DistinctPies(pies)
    ensures Apart(PieSeries(pies[0]), PiesSeries(pies[1..]))
  {
    PieOwned(pies[0]);
    forall x, y | x in PieSeries(pies[0]) && y in PiesSeries(pies[1..]) ensures KeyOf(x) != KeyOf(y) {
      SeqSumMember(pies[1..], PieSamples(), y);
      var p :| p in pies[1..] && y in PieSamples()(p);
      PieOwned(p);
      assert x.labels[0] != y.labels[0];
    }
  }
}
