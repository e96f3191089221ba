# A verified model of the Tdarr exporter

The exporter answers each Prometheus scrape by asking a Tdarr server for its status,
its totals, its libraries and its nodes, and turns the answers into samples. This
project models the parts of it whose correctness depends on more than one function at
a time, and proves what they promise:

- **Overlapping scrapes over one cache** (`ScrapeEngine`, `ScrapeInvariants`,
  `ScrapeTheorems`, `RepeatScrapes`, `ScrapeProgress`). Any number of scrapes run at once
  as a transition system. They share only the library-stats cache, locked per read and
  per write, and the unknown-status counters, whose lock a scrape holds over all its
  sends of them. The upstream may answer anything, fail or panic at every
  call. Main results: the cache is transparent, `tdarr_up = 1` means nothing is missing,
  every snapshot is one whole sweep, the counters are exact, scrapes wait for
  one another at most at the counters' lock, whose holder can always release it, and
  every run ends.
- **One scrape as the code runs it** (`Collector`): the collector's methods, step by step
  over its cache, its counters and the channel, proved to send the trace of a scrape of
  that transition system.
- **The worker pool of one sweep** (`WorkerPool`, `WorkerPoolTheorems`): main, workers,
  drain, two channels, a wait group, pies in a heap. Every run ends, nothing is lost or
  sent twice, and for every list the capacities at which the pool can deadlock are given
  exactly. When all libraries have an id and a name, these are the ones where the list is
  longer than workers plus both channel capacities.
- **What a scrape sends** (`Series`, `Sections`, `Readings`, `ScrapeReadings`,
  `Uniqueness`, `TraceUniqueness`): the emit loops; the reading law, by which a finished
  scrape sent exactly the samples that the fields of its answers say, one by one; and the
  uniqueness of metric and labels over a whole scrape.
- **The fingerprint, the status labels and the worker counts** (`Fingerprint`,
  `StatusEnums`, `NodeCounts`).
- **The retrying transport** (`Transport`): a class with a ledger of the responses it was
  given and the bodies it sent, refining a short recursive exchange.
- **The shutdown protocol** (`Shutdown`): main, the server goroutine, the listener and
  the goroutine that forces an exit.
- **The response recorders and the recovery middleware** (`Middleware`), and **the
  capped tee** behind the JSON decoder (`CappedTee`).

`Models` holds the decoded documents; `Folds` holds sums of multisets over sequences and
maps.

## Reading the model

Concurrent code is a transition system: a state holds the program counters and the
shared data, an action is one atomic step, `Enabled` says when it can happen and `Apply`
what it does. `Reachable` means by some finite run, so a theorem about reachable states
is about every interleaving. History fields (`calls`, `dropped`, `sweeps`, `normalised`,
`signals`) record what happened and never decide a step. Sequential code that updates
objects is a class whose methods are proved against functions of the old state.

Library functions with an outcome that only matters as such, like parsing a score or
lower-casing a name, are inputs of the model: a decoded document carries what they make
of its strings.

An upstream is either `Anything` or `Consistent(answer)`: in the second case a pie
depends only on the ten totals and on the library's id and name, which is what the cache
relies on. Where the code ranges over a Go map, the model allows every order.

## What the proofs say about the comments in the code

- Two fetches of the same library set are said to give equal fingerprints in any order
  (`internal/collector/tdarr.go:149-152`). The sort is not stable, so this holds if and
  only if no two different entries share an id (`CanonicalIff`).
- The result channel's capacity is said not to matter (`internal/collector/tdarr.go:521-525`).
  True, because the input channel holds the whole list; `DeadlockIff` gives the exact bound.
- A sweep over no libraries leaves a nil slice (`internal/collector/tdarr.go:493`), so the
  next scrape counts as a refetch, but it makes no request (`RepeatAfterComplete`).
- A panic before anything was committed is said to give a clean 500
  (`internal/handlers/middleware.go:29-32`). It does if and only if the handler did not
  begin with an informational status: after one, the recorder believes it wrote, and the
  client gets an empty 200 (`FiveHundredIff`, `HintsThenPanic`).
- Unwrapping lets a flush reach net/http (`internal/handlers/middleware.go:10-15`), which
  commits a 200 no recorder hears of. If a handler begins with a flush, the recorders
  disagree with net/http from there on until something is written, a status other than
  200 is logged though the client got 200, and after a panic Recovery appends its error
  text to the 200 (`RecordersAgreeIff`, `LoggedIsSent`, `ErrorTextIff`,
  `FlushThenNotFound`). Both findings concern the middleware as such: no handler of the
  exporter sends an informational status or flushes.
- `drainClose` is said to free every response the transport gives up on
  (`internal/client/transport.go:64-68`). It does if and only if the last failing attempt
  does not bring a response along with its error (`SettledIff`, `LeakingAttempt`). The
  contract of `http.RoundTripper` forbids an inner transport that does.
- Cleaned labels can collide, and the last entry wins (`CollidingLabels`); cleaning is
  idempotent exactly when the name, without one `transcode` and the white space behind
  it, does not begin with `transcode` again
  (`CleaningIsIdempotentIff`).

## Model

| member | source | states |
|---|---|---|
| ScrapeTheorems.CacheRefinement | internal/collector/tdarr.go:697-725 | Under a consistent upstream, in every run of overlapping scrapes, the library group of any scrape that dropped nothing is, as a multiset, what an uncached sweep of its own list under its own totals would send; a scrape served from the cache makes no get-pies call and drops nothing |
| ScrapeTheorems.UncachedSweep | internal/collector/tdarr.go:492-540 | Every complete run of the worker pool, without any cache, sends exactly those uncached samples: the reference the refinement compares with is what the pool really produces |
| ScrapeTheorems.UpMeansComplete | internal/collector/tdarr.go:557-565 | `tdarr_up = 1` means the scrape sent one library-info sample per entry of the list it fetched, with multiplicity, no other, and no entry had an empty id or name; hit or miss, whatever other scrapes do |
| ScrapeTheorems.ScrapeTrace | internal/collector/tdarr.go:542-566 | However a scrape ends (error, cancellation, panic at a call), it sent the first 0, 1, 4 or 5 of the groups server, general, library, drift, node and then exactly one `tdarr_up`, last, which is 1 iff all five are there and no library was dropped |
| ScrapeTheorems.GroupsHold | internal/collector/tdarr.go:727-747 | At every point of every run each group sent so far holds the samples the guard of its step fixed from this scrape's own answers, and later steps of any scrape leave it so; that the code's loops send just those samples is what Collect and the emit methods state |
| Collector.TdarrCollector.Collect | internal/collector/tdarr.go:542-748 | On any state other scrapes may have left, and under any replies and any schedule of its worker pool, the code sends sample for sample the trace of a finished scrape of the transition system that was told the same, after a run in which only that scrape moved and whose cache and counters are the ones the code leaves behind; so the theorems about scrapes hold of what the code sends |
| Collector.TdarrCollector.GatherPies | internal/collector/tdarr.go:677-725 | Reading the cache, deciding, sweeping and writing are steps of that scrape: the code ends up with its pies and its partial flag, and the cache with the model's |
| Collector.TdarrCollector.FetchPies | internal/collector/tdarr.go:492-540 | For every schedule, playing the pool to its end and making its counter bumps is a run of the scrape's own pool, and nothing else changes |
| Collector.UpIff | internal/collector/tdarr.go:557-565 | A finished scrape broke off iff an upstream call or the parsing of a score failed, and `tdarr_up` is 1 iff none did and no library was dropped |
| Collector.SomeSchedule | internal/collector/tdarr.go:492-540 | Every pool the code can start has a schedule that plays it to its end |
| ScrapeTheorems.SnapshotsAreWhole | internal/collector/tdarr.go:140-182 | Every reachable snapshot is empty or the totals, pies and fingerprint of one recorded complete sweep; its fingerprint is sorted and its pies are for exactly the fingerprint's libraries |
| ScrapeTheorems.HitMeansSameInputs | internal/collector/tdarr.go:620-622 | In every reachable state, no refetch means that some recorded complete sweep had this very fingerprint and was made under a document equal to the current one on each of the ten counts, that the cached pies are that sweep's, and that they are for exactly the current libraries |
| ScrapeTheorems.RefetchIff | internal/collector/tdarr.go:620-622 | With what a complete sweep cached, there is no refetch iff the sweep found a library, each of the ten counts is as it was, and the fingerprint is equal |
| Models.TotalsIff | internal/collector/tdarr.go:571-584 | The totals of two documents are equal iff totalFileCount, totalTranscodeCount, totalHealthCheckCount and table0 to table6 are, one by one |
| ScrapeTheorems.HitServesOneSweep | internal/collector/tdarr.go:697-704 | What a scrape serves from the cache is one recorded complete sweep of its own libraries, under a document equal to its own on each of the ten counts |
| ScrapeTheorems.ConcurrencyIsBounded | internal/collector/tdarr.go:498-502 | A sweep never runs more workers than configured, and exactly as many once it feeds them |
| ScrapeReadings.TraceReads | internal/collector/tdarr.go:750-954 | A finished scrape sent a sample iff it is `tdarr_up` or a field of one of its answers says it: every metric of server, totals, libraries, counters, nodes and workers, with its labels, its field and its scale, for the groups it got to |
| ScrapeReadings.PiesAreRead | internal/collector/tdarr.go:461-483 | Each pie sent is of a library on the scrape's list, with an id and a name, has both status maps as the raw entries of its answer give them, and under a consistent upstream holds the answer for that library and those totals |
| ScrapeReadings.DriftOnRawEntries | internal/collector/tdarr_enums.go:113-129 | With no sweep under way, each counter is the number of raw entries in all answers so far with its unknown label in the list of its kind |
| Readings.PieReads | internal/collector/tdarr.go:795-820 | A library's samples are exactly: info, the three totals, the scaled size difference, one per status of each map and one per slice of each of the five lists, each from its own field |
| Readings.NodeReads | internal/collector/tdarr.go:838-954 | A node's samples are exactly those its fields and its workers' fields say, worker kinds read off the raw type string |
| Readings.ServerReads | internal/collector/tdarr.go:752-761 | The server's samples are exactly its uptime, its info, its status and whether the trimmed lower-case status is good, ok or healthy |
| Readings.GeneralReads | internal/collector/tdarr.go:765-782 | The general samples are exactly the named fields, the two scores as ratios, the size difference in bytes and the nine stream statistics |
| ScrapeTheorems.DriftIsExact | internal/collector/tdarr.go:479-482 | The counters plus the bumps still under way are the unknown entries of all answers normalised so far; with no sweep under way, the counters alone are, whatever the schedule |
| ScrapeTheorems.DriftIsMonotone | internal/collector/tdarr.go:439-444 | No step lowers a counter and only a sweep raises one, so a cache hit leaves all counts unchanged |
| ScrapeTheorems.DriftKeysAreUnknown | internal/collector/tdarr_enums.go:113-129 | A counter's kind is one of the two, and its label is never a known label of that kind |
| ScrapeInvariants.ReachableInv | internal/collector/tdarr.go:624-748 | The inductive invariant behind these theorems holds in every reachable state of any number of overlapping scrapes |
| ScrapeInvariants.InvKept | internal/collector/tdarr.go:624-748 | Every step of every scrape keeps it |
| RepeatScrapes.RepeatAfterComplete | internal/collector/tdarr.go:697-725 | After a complete sweep the next scrape with equal totals and any arrangement of the same libraries makes no get-pies call; it is a hit iff there are libraries, and then reuses the very pies |
| RepeatScrapes.RepeatAfterPartial | internal/collector/tdarr.go:705-715 | After a partial sweep the next scrape with the same inputs requests every library again |
| ScrapeProgress.NoScrapeBlocks | internal/collector/tdarr.go:624-748 | An unfinished scrape can take a step of its own, whatever the others are doing, unless another scrape holds the counters' lock and this one has come to it, to emit the counters or to bump one |
| ScrapeProgress.HolderReleases | internal/collector/tdarr.go:733-738 | The scrape that holds the lock never waits: it can send the counters and then release |
| ScrapeProgress.HeldCountersStay | internal/collector/tdarr.go:733-738 | While the lock is held no step of any scrape moves a counter or passes the lock on, so the counters sent are those of one moment |
| ScrapeProgress.EveryRunEnds | internal/collector/tdarr.go:542-748 | Whatever is answered and however scrapes and their pools are interleaved, no run of any number of scrapes goes on for ever |
| ScrapeProgress.EndMeansDone | internal/collector/tdarr.go:542-566 | Where a run ends, every scrape is done |
| WorkerPoolTheorems.SweepTheorem | internal/collector/tdarr.go:492-540 | When the fan-out returns, each library of the list was requested once and is in the result as one finished pie with a non-empty id and name, or its request failed, or its id or its name is empty; the partial flag is up iff the result is not all of the list |
| WorkerPoolTheorems.DeadlockIff | internal/collector/tdarr.go:492-540 | For every list, all capacities and any worker count of at least 1: some schedule gets stuck if and only if the list is longer than the input channel and, without its last 1 + inCap entries, has at least workers + outCap entries with an id and a name |
| WorkerPoolTheorems.NamedListsOverfull | internal/collector/tdarr.go:492-540 | If all entries have an id and a name, that is the case exactly when the list is longer than workers plus both capacities |
| WorkerPoolTheorems.AnyResultCapacity | internal/collector/tdarr.go:518-535 | With the input channel as long as the list, no schedule gets stuck for any result-channel capacity, none included |
| WorkerPoolTheorems.EveryRunEnds | internal/collector/tdarr.go:492-540 | No run of the pool goes on for ever |
| WorkerPoolTheorems.StepShrinks | internal/collector/tdarr.go:447-540 | Every step lowers a measure of the work left |
| WorkerPoolTheorems.NoSendOnClosedChannel | internal/collector/tdarr.go:505-535 | Nobody is ever about to send on a closed channel: the feeder's is open while it feeds, the result channel while any worker has a pie |
| WorkerPool.PublishedNeverChange | internal/collector/tdarr.go:461-483 | Once a pie has been handed over, no step of any goroutine changes it or takes it back |
| WorkerPool.InvKept | internal/collector/tdarr.go:447-540 | Every step keeps the pool's invariant: channels, wait group, ownership of pies, their contents, and that each request is failed, skipped, held or handed over |
| WorkerPool.ReachableInv | internal/collector/tdarr.go:447-540 | It holds after every schedule |
| Fingerprint.CanonicalIff | internal/collector/tdarr.go:589-594 | Any two fingerprints of a list agree if and only if entries with equal ids are equal |
| Fingerprint.PermutationsAgree | internal/collector/tdarr.go:589-594 | Arrangements of one list with such ids have one fingerprint, however the unstable sort breaks ties |
| Fingerprint.EqualFingerprints | internal/collector/tdarr.go:620-622 | Equal fingerprints always mean the same multiset of libraries |
| Fingerprint.LibraryFingerprint | internal/collector/tdarr.go:589-594 | The result is a fresh permutation sorted by id; the caller's list is unchanged |
| Fingerprint.SortById | internal/collector/tdarr.go:592 | Sorting in place: a permutation in order, ties in any order |
| Fingerprint.LessIsLexicographic | internal/collector/tdarr.go:592 | The order of ids is lexicographic: the first difference decides, and a proper prefix comes first |
| StatusEnums.NormalizedMeaning | internal/collector/tdarr_enums.go:97-133 | The keys are exactly the known and the cleaned labels; a value is that of the last entry with the label, or 0 |
| StatusEnums.NormalizeStatusSlice | internal/collector/tdarr_enums.go:97-133 | The two loops compute that map and bump the counter of each unknown entry once |
| StatusEnums.NormalizePieStatuses | internal/collector/tdarr_enums.go:60-77 | On the raw entries: the transcode map has the seven known labels and the cleaned names, the health-check map the four known ones and the lower-cased names, each with its last entry's value or 0; a counter grows by the number of entries with its unknown label in the list of its kind, and by nothing else |
| StatusEnums.KnownLabels | internal/collector/tdarr_enums.go:12-28 | The known labels, one by one |
| StatusEnums.CleanedMeaning | internal/collector/tdarr_enums.go:39-43 | A cleaned label is the lower-cased name less one leading `transcode`, less the white space at both ends, and nothing else is taken away |
| StatusEnums.PieOnRawEntries | internal/collector/tdarr_enums.go:60-77 | The finished pie of any answer has the library's id and name, the answer, and both maps as its raw entries give them |
| StatusEnums.BumpsOnRawEntries | internal/collector/tdarr_enums.go:113-129 | An answer bumps an unknown label once per entry that has it, under its own kind, and a known label never |
| StatusEnums.NormalizedConserves | internal/collector/tdarr_enums.go:97-133 | The map's sum is the raw sum less what later equal labels overwrite |
| StatusEnums.DistinctLabelsConserve | internal/collector/tdarr_enums.go:97-133 | With distinct cleaned labels the sums are equal |
| StatusEnums.CollidingLabels | internal/collector/tdarr_enums.go:116 | "Transcode error" and "Error" clean to one label and the last one wins |
| StatusEnums.UnknownsAreUnknown | internal/collector/tdarr_enums.go:113-129 | Unknown keys carry their kind and never a known label |
| StatusEnums.CleaningIsIdempotentIff | internal/collector/tdarr_enums.go:39-43 | Cleaning a name again changes nothing iff the name in lower case, without one prefix and the white space behind it, does not begin with the prefix again |
| StatusEnums.CleaningIsNotIdempotent | internal/collector/tdarr_enums.go:39-43 | A leading space before the prefix, as in " Transcode error", makes the second cleaning differ |
| StatusEnums.CleanedLabelShape | internal/collector/tdarr_enums.go:39-43 | For any lower-casing, a cleaned label is in lower case and has no outer white space |
| StatusEnums.DriftCounters.Bump | internal/collector/tdarr.go:439-444 | Adds one to one key, creating it at 1; the map stays the count of all bumps |
| NodeCounts.CountWorkersByType | internal/collector/tdarr_nodes.go:332-349 | In any order of the map: each of the four known kinds has the number of workers whose raw type is its two labels run together, zero included, and the unknown counts are for exactly the raw types that are none of these, each with its number of workers |
| NodeCounts.CountsConserve | internal/collector/tdarr_nodes.go:332-349 | Known and unknown counts sum to the number of workers |
| NodeCounts.OneMoreWorker | internal/collector/tdarr_nodes.go:340-347 | One more worker adds one to its own bucket and leaves all others alone |
| NodeCounts.ParseIsExact | internal/collector/tdarr_nodes.go:44-56 | A raw type parses to a known kind iff it is that kind's two labels run together; it is unknown iff it is none of the four, and then keeps its raw name |
| NodeCounts.UnknownBucketsAreNonEmpty | internal/collector/tdarr.go:884-893 | No unknown bucket is 0, so the loop skips none |
| Series.EmitPieSlices | internal/collector/tdarr.go:786-791 | One sample per slice, in order, under its lower-cased name |
| Series.EmitPieMetrics | internal/collector/tdarr.go:795-820 | Sends, in any order of the status maps, exactly the samples of all pies |
| Series.EmitDrift | internal/collector/tdarr.go:733-738 | Sends one sample per counter, in any order |
| Series.EmitPerType | internal/collector/tdarr_nodes.go:311-316 | Sends one sample per known dim, in the order of the known dims, each with that dim's own job count |
| Series.EmitWorkerCounts | internal/collector/tdarr.go:880-893 | Sends the four known counts, zeros included, and the unknown ones |
| Series.EmitNodeMetrics | internal/collector/tdarr.go:838-954 | Sends, in any order of nodes and workers, exactly the samples of all nodes |
| TraceUniqueness.SeriesAreUnique | internal/collector/tdarr.go:624-748 | In a finished scrape no two samples share metric and labels, if ids of libraries, nodes and workers per node, and lower-cased slice names per list, are distinct; for any unknown statuses and worker types |
| TraceUniqueness.KnownIsNotUnknown | internal/collector/tdarr.go:880-893 | No unknown worker-count series collides with a known one |
| Transport.ReturnedIff | internal/client/transport.go:90-151 | A response is returned iff the first attempt among 1 + len(backoff) that is neither an error nor 5xx has a status below 300 and no wait before it was cut short |
| Transport.RejectedIff | internal/client/transport.go:136-150 | A client error or a redirect, with its location, is reported iff it is that first attempt |
| Transport.ExhaustedIff | internal/client/transport.go:126-133 | The exchange gives up iff every attempt failed and every wait ran out, and reports the last failure |
| Transport.AbortedIff | internal/client/transport.go:104-112 | It is aborted at wait j iff attempts 0 to j failed and wait j was the first cut short, after exactly j + 1 attempts and j + 1 timers |
| Transport.SettledIff | internal/client/transport.go:92-151 | Every response body is closed once, but for a returned one, iff the last attempt of an exchange that gave up brought no response along with its error |
| Transport.LeakingAttempt | internal/client/transport.go:126-130 | A 502 that comes along with an error and without retries left is an input for which a body is never closed |
| Transport.DisjointSettles | internal/client/transport.go:92-151 | An inner transport that never gives both leaks nothing on any path |
| Transport.ClientTransport.NothingLeaks | internal/client/transport.go:64-75 | The same about the response objects themselves |
| Transport.ClientTransport.RoundTrip | internal/client/transport.go:78-152 | For every outcome and cancellation sequence: result, attempts, timers (a prefix of backoff) and closes are those of the exchange; each attempt was given the original body |
| Transport.ClientTransport.Retry | internal/client/transport.go:94-125 | The retry loop stops at the attempt or wait at which the exchange stops, with all earlier responses discarded |
| Transport.DrainClose | internal/client/transport.go:69-75 | Reads a body to its end and closes it once; does nothing without one |
| Shutdown.StuckIff | cmd/exporter/main.go:55-58 | Once a signal or a listener error has come, some run gets stuck if and only if the error channel has fewer than two slots |
| Shutdown.StuckAtOne | internal/server/server.go:70-97 | With one slot: the listener fails as main stops listening, then the shutdown fails |
| Shutdown.StuckAtZero | internal/server/server.go:89-97 | With none: a failing shutdown is enough |
| Shutdown.NoReportBlocks | internal/server/server.go:70-97 | With two slots neither sender ever blocks |
| Shutdown.FairRunsEnd | cmd/exporter/main.go:81-95 | Every fair run in which shutdown is called for ends, with the wait group done unless a signal beyond the one main took forced it |
| Shutdown.RankFalls | cmd/exporter/main.go:54-95 | Every program step lowers a rank that signals leave alone |
| Shutdown.ExitCodeIff | cmd/exporter/main.go:135-144 | Main's code is 1 iff it took an error from the channel, which is always the listener's, and 0 iff it took a signal |
| Shutdown.ForcedOnlyByAnother | cmd/exporter/main.go:84-89 | A forced end needs a signal main did not take, after main woke up, and its code is 128 and that signal's number |
| Shutdown.ForcedCodesTellSignals | cmd/exporter/main.go:113-130 | The forced code of a registered signal is 128 and its number, which is 1, 2, 3 or 15, so codes tell the signals apart and lie in 129 to 143 |
| Shutdown.InvKept | cmd/exporter/main.go:54-95 | Every step keeps main, server, listener, channels and wait group in step |
| Middleware.RecordersAgreeIff | internal/handlers/middleware.go:33-52 | At every point of a handler's run, that is for every prefix of it, both recorders agree with net/http on whether a status was sent and which, iff the run begins neither with an informational status nor with a flush |
| Middleware.RecordersHear | internal/handlers/middleware.go:33-48 | Whatever net/http does, each recorder ends up with the first status written through it, or as it began |
| Middleware.FiveHundredIff | internal/handlers/middleware.go:73-92 | Recovery sends a 500 iff a panic other than the abort signal came before any commit, a flush included; after an informational start it sends nothing |
| Middleware.ErrorTextIff | internal/handlers/middleware.go:84-87 | Recovery writes its error text iff the panic came before any header or body write, and into a response that is not a 500 iff that began with a flush |
| Middleware.HintsThenPanic | internal/handlers/middleware.go:85-87 | The run 103 and then a panic: no 500 is sent and the client gets 200 |
| Middleware.InvalidStatusGives500 | internal/handlers/middleware.go:29-39 | A status below 100 or above 999 makes net/http panic iff nothing is committed, leaves the recorders untouched, and gives a clean 500 |
| Middleware.AbortPassesThrough | internal/handlers/middleware.go:79-83 | The abort signal is always re-raised, is the only panic that is, and nothing is added to the response |
| Middleware.LoggedIsSent | internal/handlers/middleware.go:55-68 | A request is logged iff its handler returned, and the logged status is the client's iff the run did not begin with an informational status, nor with a flush followed by a first status other than 200 |
| Middleware.FlushThenNotFound | internal/handlers/middleware.go:50-68 | The run of a flush and then a 404: the client gets 200 and the log says 404 |
| Middleware.CommittedIff | internal/handlers/middleware.go:33-52 | net/http has sent a status iff a final write or a flush was carried out, and it is the first one's |
| Middleware.ResponseRecorder.WriteHeader | internal/handlers/middleware.go:33-39 | Forwards through any number of nested recorders, then each records the first status; a panic below leaves all of them unchanged |
| Middleware.ResponseRecorder.Write | internal/handlers/middleware.go:41-48 | The same for a body write, which counts as 200 |
| Middleware.FlushThrough | internal/handlers/middleware.go:50-52 | Unwrapping recorder after recorder, a flush reaches net/http and leaves every recorder as it was |
| Middleware.Serve | internal/handlers/middleware.go:55-92 | The two nested middlewares over recorder objects do what the functional account of a request says |
| CappedTee.CappedWriter.Write | internal/client/client.go:72-81 | After any writes the buffer is the first max(limit, 0) bytes of all of them, and each write reports its full length |
| CappedTee.TeeRead | internal/client/client.go:95-105 | A read through the tee gives what the body gave |
| CappedTee.UnmarshalBody | internal/client/client.go:95-105 | Whenever the decoder is done with this body at all, it reads the same and decides the same with and without the tee, and the captured head is a prefix of what it read, 2048 bytes long or all of it if that is less |

## Left out

- JSON encoding and decoding, URL building, TLS, real HTTP and real timers: upstream calls are arbitrary outcomes, and which arm a `select` takes is arbitrary.
- Prometheus descriptors, help text and the registry: a sample is a metric, its label values and a value; the constant instance label is not shown.
- Floating point: values are `real`, and rounding and the precision of large counters are not modelled; the two score strings, resource readings and ETAs are the outcome of parsing them (`strconv.ParseFloat` and `parseEtaSeconds` are not part of this model).
- Integer widths: Go's 64-bit counts are unbounded here.
- StatusEnums.CleanedLabelShape: lower-casing is any function that goes character by character, has nothing left to do on its own results and keeps `transcode` as it is; which letters it pairs is not part of this model.
- Fingerprint.SortById: an insertion sort stands for `sort.Slice`; the theorems only use that the outcome is some permutation in order.
- The pool, the overlap of scrapes and the shutdown are transition systems and not imperative methods, because their point is the interleaving; Go's memory model below channel, mutex and wait-group operations is not modelled.
- ScrapeTheorems.ScrapeTrace: panics happen at upstream calls of the scrape goroutine, where no lock is held; a panic inside a worker goroutine or while sending samples is outside the modelled runs.
- ScrapeTheorems.GroupsHold: in the transition system each group is sent in one step, so steps of other scrapes do not fall between two samples of a group. Each scrape has a channel of its own in the code, and the counters stand still while their lock is held (`HeldCountersStay`).
- Collector.TdarrCollector.Collect: one scrape runs while the others stand still, none of them holding the counters' lock, for which the code would wait; that overlapping scrapes change nothing is what the transition system is for.
- Collector.TdarrCollector.FetchPies: the fan-out's goroutines are the steps of `WorkerPool`, played in the order a schedule gives, and not statements of the method.
- Transport.ClientTransport.RoundTrip: one exchange at a time; other exchanges on the same inner transport would interleave their own calls. An error while reading the request body is dropped, as in the code, so the body is what could be read. That an inner transport gives a response when it gives no error is assumed, as http.RoundTripper requires.
- Middleware.Serve: a handler is the list of what it does to its writer; header fields, body bytes, write errors and deadlines are left out, and so are handlers that hijack the connection, after which no status is sent at all.
- CappedTee.UnmarshalBody: the decoder is any function of what it has read; a body it is never done with is not a finished call.
- Shutdown.FairRunsEnd: that the HTTP server's shutdown returns, by its timeout at the latest, and that the listener returns after it, is part of fairness; panics while routes are set up end the process and are outside the modelled runs.
- The transport's default backoff of 1 and 3 seconds: any list of durations is allowed.
- White space is the list of `StatusEnums.IsSpace`, taken over from Go's `unicode.IsSpace`.
- Configuration parsing, path checks, logging, the index and health handlers, version output and registry assembly hold no state worth proving; only that the worker count is at least 1 is taken from the configuration.
- What Tdarr itself counts: taken as the hypothesis that answers are consistent.
