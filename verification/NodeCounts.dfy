/** Worker kinds and their counts per node (internal/collector/tdarr_nodes.go). */
module NodeCounts {
  import opened Models
  import opened StatusEnums

  /** One (worker_type, compute_type) coordinate. */
  datatype Dim = Dim(workerType: string, computeType: string)

  const UNKNOWN := "unknown"
  const TRANSCODE_CPU := Dim("transcode", "cpu")
  const TRANSCODE_GPU := Dim("transcode", "gpu")
  const HEALTH_CPU := Dim("healthcheck", "cpu")
  const HEALTH_GPU := Dim("healthcheck", "gpu")
  const DIMS: seq<Dim> := [TRANSCODE_CPU, TRANSCODE_GPU, HEALTH_CPU, HEALTH_GPU]
  const KNOWN_DIMS: set<Dim> := {TRANSCODE_CPU, TRANSCODE_GPU, HEALTH_CPU, HEALTH_GPU}

  function ParseWorkerType(api: string): Dim {
    if api == "transcodecpu" then TRANSCODE_CPU
    else if api == "transcodegpu" then TRANSCODE_GPU
    else if api == "healthcheckcpu" then HEALTH_CPU
    else if api == "healthcheckgpu" then HEALTH_GPU
    else Dim(api, UNKNOWN)
  }

  predicate UnknownType(api: string) {
    ParseWorkerType(api).computeType == UNKNOWN
  }

  /** The raw string of a kind: its two labels run together. */
  function Compound(d: Dim): string {
    d.workerType + d.computeType
  }

  lemma Compounds()
    ensures Compound(TRANSCODE_CPU) == "transcodecpu" && Compound(TRANSCODE_GPU) == "transcodegpu"
    ensures Compound(HEALTH_CPU) == "healthcheckcpu" && Compound(HEALTH_GPU) == "healthcheckgpu"
  {}

  lemma CompoundsDiffer()
    ensures forall c, d :: c in KNOWN_DIMS && d in KNOWN_DIMS && c != d ==> Compound(c) != Compound(d)
  {
    Compounds();
    assert "transcodecpu"[0] == 't' == "transcodegpu"[0] && "healthcheckcpu"[0] == 'h' == "healthcheckgpu"[0];
    assert "transcodecpu"[9] == 'c' && "transcodegpu"[9] == 'g';
    assert "healthcheckcpu"[11] == 'c' && "healthcheckgpu"[11] == 'g';
  }

  /** A raw string parses to a known kind exactly when it is that kind's two labels run
      together; it is unknown exactly when it is none of the four, and then the raw name
      survives, so different unknown names stay apart. */
  lemma ParseIsExact(api: string)
    ensures forall d :: d in KNOWN_DIMS ==> (ParseWorkerType(api) == d <==> api == d.workerType + d.computeType)
    ensures UnknownType(api) <==> forall d :: d in KNOWN_DIMS ==> api != d.workerType + d.computeType
    ensures UnknownType(api) <==> ParseWorkerType(api) !in KNOWN_DIMS
    ensures UnknownType(api) ==> ParseWorkerType(api) == Dim(api, "unknown")
  {
    Compounds();
    CompoundsDiffer();
    KnownIsNotUnknown();
  }

  lemma KnownIsNotUnknown()
    ensures forall d :: d in KNOWN_DIMS ==> d.computeType != UNKNOWN
  {
    assert TRANSCODE_CPU.computeType[0] == 'c' && TRANSCODE_GPU.computeType[0] == 'g';
    assert HEALTH_CPU.computeType[0] == 'c' && HEALTH_GPU.computeType[0] == 'g';
    assert UNKNOWN[0] == 'u';
  }

  lemma DimsAreDistinct()
    ensures forall i, j :: 0 <= i < j < |DIMS| ==> DIMS[i] != DIMS[j]
    ensures |KNOWN_DIMS| == 4
  {
    assert "transcode"[0] == 't' && "healthcheck"[0] == 'h' && "cpu"[0] == 'c' && "gpu"[0] == 'g';
    assert KNOWN_DIMS == {TRANSCODE_CPU} + {TRANSCODE_GPU} + {HEALTH_CPU} + {HEALTH_GPU};
  }

  // ---------------------------------------------------------- specification

  /** The workers, by key, that parse to `d`. */
  function OfDim(workers: map<string, Worker>, d: Dim): set<string> {
    set k | k in workers && ParseWorkerType(workers[k].workerType) == d
  }

  function OfType(workers: map<string, Worker>, api: string): set<string> {
    set k | k in workers && workers[k].workerType == api
  }

  function UnknownTypes(workers: map<string, Worker>): set<string> {
    set k | k in workers && UnknownType(workers[k].workerType) :: workers[k].workerType
  }

  function KnownCounts(workers: map<string, Worker>): map<Dim, int> {
    map d | d in KNOWN_DIMS :: |OfDim(workers, d)|
  }

  /** Per raw name, how many workers carry that unknown name. */
  function UnknownCounts(workers: map<string, Worker>): map<string, int> {
    map api | api in UnknownTypes(workers) :: |OfType(workers, api)|
  }

  lemma NoWorkers(workers: map<string, Worker>)
    requires workers == map[]
    ensures KnownCounts(workers) == map d | d in KNOWN_DIMS :: 0
    ensures UnknownCounts(workers) == map[]
  {
    forall d ensures OfDim(workers, d) == {} {}
  }

  function Incremented<K>(counts: map<K, int>, k: K): map<K, int> {
    counts[k := (if k in counts then counts[k] else 0) + 1]
  }

  /** One more worker adds one to its own bucket and leaves the others alone. */
  lemma OneMoreWorker(workers: map<string, Worker>, k: string)
    requires k in workers
    ensures var rest, api := workers - {k}, workers[k].workerType;
            && KnownCounts(workers)
               == (if UnknownType(api) then KnownCounts(rest) else Incremented(KnownCounts(rest), ParseWorkerType(api)))
            && UnknownCounts(workers)
               == (if UnknownType(api) then Incremented(UnknownCounts(rest), api) else UnknownCounts(rest))
            && (UnknownType(api) || ParseWorkerType(api) in KNOWN_DIMS)
  {
    var rest, api := workers - {k}, workers[k].workerType;
    ParseIsExact(api);
    KnownBuckets(workers, k);
    if UnknownType(api) {
      OneMoreUnknown(workers, k);
      SameCounts(workers, rest);
    } else {
      OneMoreKnown(workers, rest, ParseWorkerType(api));
      SameUnknown(workers, k);
    }
  }

  lemma SameCounts(workers: map<string, Worker>, rest: map<string, Worker>)
    requires forall d :: d in KNOWN_DIMS ==> |OfDim(workers, d)| == |OfDim(rest, d)|
    ensures KnownCounts(workers) == KnownCounts(rest)
  {}

  lemma OneMoreKnown(workers: map<string, Worker>, rest: map<string, Worker>, dim: Dim)
    requires dim in KNOWN_DIMS
    requires forall d :: d in KNOWN_DIMS ==> |OfDim(workers, d)| == |OfDim(rest, d)| + if d == dim then 1 else 0
    ensures KnownCounts(workers) == Incremented(KnownCounts(rest), dim)
  {
    var m, n := KnownCounts(rest), KnownCounts(workers);
    assert forall d :: d in KNOWN_DIMS ==> m[d] == |OfDim(rest, d)| && n[d] == |OfDim(workers, d)|;
    SameBuckets(n, m, KNOWN_DIMS, dim);
  }

  lemma SameBuckets<K>(n: map<K, int>, m: map<K, int>, keys: set<K>, k: K)
    requires m.Keys == n.Keys == keys && k in keys
    requires forall j :: j in keys ==> n[j] == m[j] + if j == k then 1 else 0
    ensures n == Incremented(m, k)
  {
    assert Incremented(m, k).Keys == keys;
  }

  lemma SameUnknown(workers: map<string, Worker>, k: string)
    requires k in workers && !UnknownType(workers[k].workerType)
    ensures UnknownCounts(workers) == UnknownCounts(workers - {k})
  {
    UnknownBuckets(workers, k);
  }

  lemma OneMoreUnknown(workers: map<string, Worker>, k: string)
    requires k in workers && UnknownType(workers[k].workerType)
    ensures var rest, api := workers - {k}, workers[k].workerType;
            UnknownCounts(workers) == Incremented(UnknownCounts(rest), api)
  {
    UnknownBuckets(workers, k);
  }

  lemma KnownBuckets(workers: map<string, Worker>, k: string)
    requires k in workers
    ensures forall d :: |OfDim(workers, d)|
              == |OfDim(workers - {k}, d)| + if ParseWorkerType(workers[k].workerType) == d then 1 else 0
  {
    forall d ensures |OfDim(workers, d)|
              == |OfDim(workers - {k}, d)| + if ParseWorkerType(workers[k].workerType) == d then 1 else 0
    {
      if ParseWorkerType(workers[k].workerType) == d {
        assert OfDim(workers, d) == OfDim(workers - {k}, d) + {k};
      } else {
        assert OfDim(workers, d) == OfDim(workers - {k}, d);
      }
    }
  }

  lemma UnknownBuckets(workers: map<string, Worker>, k: string)
    requires k in workers
    ensures forall api :: |OfType(workers, api)|
              == |OfType(workers - {k}, api)| + if workers[k].workerType == api then 1 else 0
    ensures UnknownTypes(workers)
            == UnknownTypes(workers - {k}) + if UnknownType(workers[k].workerType) then {workers[k].workerType} else {}
    ensures forall api :: UnknownType(api) && api !in UnknownTypes(workers - {k}) ==> OfType(workers - {k}, api) == {}
  {
    var rest := workers - {k};
    forall api ensures |OfType(workers, api)| == |OfType(rest, api)| + if workers[k].workerType == api then 1 else 0 {
      if workers[k].workerType == api {
        assert OfType(workers, api) == OfType(rest, api) + {k};
      } else {
        assert OfType(workers, api) == OfType(rest, api);
      }
    }
    UnknownTypesGrow(workers, k);
  }

  lemma UnknownTypesGrow(workers: map<string, Worker>, k: string)
    requires k in workers
    ensures UnknownTypes(workers)
            == UnknownTypes(workers - {k}) + if UnknownType(workers[k].workerType) then {workers[k].workerType} else {}
  {
    var rest := workers - {k};
    var own: set<string> := if UnknownType(workers[k].workerType) then {workers[k].workerType} else {};
    forall api ensures api in UnknownTypes(workers) <==> api in UnknownTypes(rest) + own {
      if api in UnknownTypes(workers) {
        var j :| j in workers && UnknownType(workers[j].workerType) && workers[j].workerType == api;
        if j != k { assert j in rest && rest[j] == workers[j]; }
      }
      if api in UnknownTypes(rest) {
        var j :| j in rest && UnknownType(rest[j].workerType) && rest[j].workerType == api;
        assert j in workers && workers[j] == rest[j];
      }
    }
  }

  /** Sum of the four known buckets. */
  function KnownTotal(known: map<Dim, int>): int
    requires known.Keys == KNOWN_DIMS
  {
    known[TRANSCODE_CPU] + known[TRANSCODE_GPU] + known[HEALTH_CPU] + known[HEALTH_GPU]
  }

  lemma KnownTotalUpdate(known: map<Dim, int>, d: Dim)
    requires known.Keys == KNOWN_DIMS && d in KNOWN_DIMS
    ensures known[d := known[d] + 1].Keys == KNOWN_DIMS
    ensures KnownTotal(known[d := known[d] + 1]) == KnownTotal(known) + 1
  {
    DimsAreDistinct();
    assert DIMS[0] != DIMS[1] && DIMS[0] != DIMS[2] && DIMS[0] != DIMS[3];
    assert DIMS[1] != DIMS[2] && DIMS[1] != DIMS[3] && DIMS[2] != DIMS[3];
  }

  /** Every worker is counted once: known and unknown buckets sum to the number of
      workers. */
  lemma {:induction false} CountsConserve(workers: map<string, Worker>)
    ensures KnownTotal(KnownCounts(workers)) + Total(UnknownCounts(workers)) == |workers|
    decreases |workers|
  {
    if workers == map[] {
      NoWorkers(workers);
    } else {
      assert workers.Keys != {};
      var k :| k in workers;
      var rest, api := workers - {k}, workers[k].workerType;
      assert workers.Keys == rest.Keys + {k};
      CountsConserve(rest);
      OneMoreWorker(workers, k);
      if UnknownType(api) {
        var n := if api in UnknownCounts(rest) then UnknownCounts(rest)[api] else 0;
        TotalUpdate(UnknownCounts(rest), api, n + 1);
      } else {
        KnownTotalUpdate(KnownCounts(rest), ParseWorkerType(api));
      }
    }
  }

  /** No unknown bucket is empty, so none is skipped when emitting. */
  lemma UnknownBucketsAreNonEmpty(workers: map<string, Worker>, api: string)
    requires api in UnknownCounts(workers)
    ensures UnknownCounts(workers)[api] >= 1 && UnknownType(api)
  {
    var k :| k in workers && UnknownType(workers[k].workerType) && workers[k].workerType == api;
    assert k in OfType(workers, api);
    assert {k} <= OfType(workers, api);
    assert |OfType(workers, api)| != 0;
  }

  // ------------------------------------------------------------- the method

  method ZeroDims() returns (known: map<Dim, int>)
    ensures known == map d | d in KNOWN_DIMS :: 0
  {
    known := map[];
    for i := 0 to |DIMS|
      invariant known.Keys == set d | d in DIMS[..i]
      invariant forall d :: d in known ==> known[d] == 0
    {
      known := known[DIMS[i] := 0];
    }
    assert DIMS[..|DIMS|] == DIMS;
    assert (set d | d in DIMS) == KNOWN_DIMS;
  }

  /** The counts on the raw strings: each known kind has the number of workers whose
      string is its two labels run together; the unknown names are those that are none
      of the four, each with the number of workers that carry it. */
  lemma CountsOfRawTypes(workers: map<string, Worker>)
    ensures KnownCounts(workers).Keys == KNOWN_DIMS
    ensures forall d :: d in KNOWN_DIMS ==>
              KnownCounts(workers)[d] == |set k | k in workers && workers[k].workerType == d.workerType + d.computeType|
    ensures forall api :: api in UnknownCounts(workers) <==>
              (exists k :: k in workers && workers[k].workerType == api)
              && forall d :: d in KNOWN_DIMS ==> api != d.workerType + d.computeType
    ensures forall api :: api in UnknownCounts(workers) ==>
              UnknownCounts(workers)[api] == |set k | k in workers && workers[k].workerType == api|
  {
    forall d | d in KNOWN_DIMS
      ensures OfDim(workers, d) == set k | k in workers && workers[k].workerType == d.workerType + d.computeType
    {
      forall k | k in workers { ParseIsExact(workers[k].workerType); }
    }
    forall api
      ensures api in UnknownCounts(workers) <==>
                (exists k :: k in workers && workers[k].workerType == api)
                && forall d :: d in KNOWN_DIMS ==> api != d.workerType + d.computeType
    {
      ParseIsExact(api);
    }
  }

  /** Counts the workers in whatever order the map is ranged over. */
  method CountWorkersByType(workers: map<string, Worker>) returns (known: map<Dim, int>, unknown: map<string, int>)
    ensures known == KnownCounts(workers) && unknown == UnknownCounts(workers)
    ensures known.Keys == {Dim("transcode", "cpu"), Dim("transcode", "gpu"), Dim("healthcheck", "cpu"), Dim("healthcheck", "gpu")}
    ensures forall d :: d in known ==>
              known[d] == |set k | k in workers && workers[k].workerType == d.workerType + d.computeType|
    ensures forall api :: api in unknown <==>
              (exists k :: k in workers && workers[k].workerType == api)
              && forall d :: d in known ==> api != d.workerType + d.computeType
    ensures forall api :: api in unknown ==> unknown[api] == |set k | k in workers && workers[k].workerType == api|
  {
    known := ZeroDims();
    unknown := map[];
    var rest := workers.Keys;
    NoWorkers(workers - rest);
    while rest != {}
      invariant rest <= workers.Keys
      invariant known == KnownCounts(workers - rest) && unknown == UnknownCounts(workers - rest)
      decreases rest
    {
      var k :| k in rest;
      var api := workers[k].workerType;
      ghost var seen := workers - (rest - {k});
      assert seen - {k} == workers - rest && seen[k] == workers[k];
      OneMoreWorker(seen, k);
      var dim := ParseWorkerType(api);
      if dim.computeType == UNKNOWN {
        unknown := Incremented(unknown, api);
      } else {
        known := Incremented(known, dim);
      }
      rest := rest - {k};
    }
    assert workers - rest == workers;
    CountsOfRawTypes(workers);
  }
}
