# Verification of the triage agent's deterministic core

A Dafny model of five parts of the agent whose behaviour is decided by state, set and interval
arithmetic rather than by I/O, with proofs of what they promise.

| files | part |
|---|---|
| `Archives`, `ArchiveIo`, `AcceptedArchives`, `ArchiveIndex`, `ArchiveSnapshots` | retention archives: writer, verifier, membership index, stability snapshot |
| `ArchiveLifecycle` | creating an archive and verifying it later, with an exception or a crash at any step |
| `CleanupTables`, `CleanupProtocol`, `CleanupSafety` | resumable cleanup: guarded updates, the protocol of any number of workers with crashes, lost leases and files that change, and what every run guarantees |
| `GateSafety`, `StatusSafety`, `CleanupTraces`, `SampleArchives` | what the verification gate lets through and what the archive's status is worth, with runs that show the limits |
| `CleanupService`, `CleanupBatches`, `Dependents` | the worker's own gate and loop, what its commits do to the rows, and the rows that go with a deleted record |
| `Signals`, `Clustering`, `Scoring`, `Incidents`, `Overlaps`, `Engine`, `RepeatChains` | one detection run: precedence, anchor clustering, scores, incidents, the overlap pass, the pipeline with deduplication and its counters |
| `BundleMerge`, `BundleFold`, `IncidentStore`, `StatefulMerge`, `CorrelationState`, `ResolveTwice` | correlation across jobs: the join of two incidents, what a series of joins leads to, the stored rows, repeated merges, the correlation row under concurrent calls, and a call repeated |
| `Jobs` | submission, claiming, cancellation, completion and recovery of one job |
| `IntervalRuns` | the two run splitters of the brief |
| `Ordering` | total orders, sorting, minima and bounded selection |

Times are integers (microseconds), ratios and confidences are reals, identifiers are strings under
lexicographic order by code point. Lists the program keeps sorted and duplicate-free are sets. Digests
are constructors, so equal digests mean equal contents; a compressed file is its lines, a size and
whether it decompresses. Clocks, the answers of rule functions, the context relation and what other
workers do between two steps are parameters.

Code that changes rows or lists step by step is a class or a method with a loop (`Repository`,
`Service`, `IncidentRow`, `JobRow`, the verifier's and the index's loops, clustering, the overlap pass,
deduplication, the phase loop); each is proved equal to a function or to a stated property, and the
results about whole runs are lemmas about those functions. Protocols are state machines whose actions
are single transactions, split further where a read and the write based on it can be interleaved.
Decisions that both the code and the results about it go through, such as which signal comes first or what a
call does to a row, are also stated on their own over the fields they read (the members named `...Exactly`).

## Findings

Some promises do not hold of the code as it is in every run. The code is kept as it is; each comes with a
concrete run and the condition under which the promise does hold.

- Cancellation. A recovery reads the jobs whose lease has expired and writes `queued` later, whatever their
  status is by then (`agent/workers/analysis_worker.py:267-306`). So a job that was asked to stop in between
  can complete without having failed and been resubmitted: `Jobs.RecoveryUndoesCancellation`. Other handlers
  write a status in the same way (`agent/workers/analysis_worker.py:140-146`,
  `agent/workers/analysis_worker.py:197-229`, `agent/application/analysis_service.py:1706-1723`,
  `agent/application/background_service.py:19-38`). The branch that queues a job again after a retryable
  exception is one of them, `Jobs.RequeueUndoesCancellation`; nothing in the program raises such an exception
  out of an analysis at present, so this one is what the branch would do. At the moment of cancellation it is
  decided what can still happen: `Jobs.CompletesAfterCancelExactly`.
- Archive status. When the directory has got its final name but the rest of `finalize` fails, the handler in
  `agent/application/archive.py:108-124` marks the run failed although the archive is there and may have been
  verified and gated meanwhile. Cleanup that has passed the gate does not look at the status again:
  `StatusSafety.LateFailureDeletes`. Once `finalize` has returned this cannot happen. Seen from an open gate,
  every later deletion finds the run verified if and only if `finalize` is over,
  `StatusSafety.VerifiedWhenDeleting`. The same handler makes the difference between an archive that a
  later verification repairs and one that it never can: `ArchiveLifecycle.RecoveredExactly`.
- Index. The gate verifies, builds its index from a separate read and verifies again, but never compares
  digests with what the index read (`agent/application/cleanup.py:91-121`). Stored files that are changed in
  between and changed back give an index of something else: `GateSafety.SwappedIndexDeletes`. It takes two
  such changes under one worker, `GateSafety.WrongIndexTakesTwoChanges`. The results of `CleanupSafety` about
  whole runs assume that the payloads each passing worker indexed have the digests of its snapshot
  (`CleanupProtocol.SoundIndexes`); what authorizes a deletion is proved without that assumption.

## Model

| member | source | states |
|---|---|---|
| `Signals.PrecedesIsTotal` | agent/detection/incident_correlation.py:138-158 | Precedence is a strict total order on signals with distinct identifiers, so every ordering decision is settled by the final tie-break. |
| `Signals.PrecedesExactly` | agent/detection/incident_correlation.py:40-158 | Which of two signals comes first, by the lists of types and the fields: the type that is listed earlier, unlisted types last; then the more severe, the more confident, the earlier one, then names. |
| `Signals.TopLevels` | agent/detection/incident_correlation.py:40-62 | Scans that ended in an allowed connection come before exposures, and these before probes of a service. |
| `Signals.OverlapRatio` | agent/detection/incident_correlation.py:161-173 | The ratio lies between 0 and 1 and is positive exactly when an event is shared. |
| `Signals.CorrelationIsSymmetricAndEvidenced` | agent/detection/incident_correlation.py:206-278 | Whether two signals may correlate does not depend on which is the anchor, and needs a shared event whatever the threshold. |
| `Signals.CorrelatesExactly` | agent/detection/incident_correlation.py:176-278 | When two signals with ordered windows belong together: some moments of them are within the merge window, and either they have one primary entity and share at least the configured part of one of their event sets, or they are exposure or policy signals that rest on the same events and name a common entity. |
| `Signals.ClusterSignals` | agent/detection/incident_correlation.py:296-342 | For distinct signals in any order the clusters returned are the canonical clustering of their set: anchors pairwise uncorrelated, everyone in exactly one cluster, every other member correlated directly with its own anchor and preferring it to every other anchor before it. No member is of an earlier type than its anchor, and none of the same type is more severe, or as severe and more confident. |
| `Signals.JoinsBestAnchor` | agent/detection/incident_correlation.py:281-342 | A member belongs with its anchor, which precedes it; any other anchor it could have joined shares a smaller part of its events, or as large a part and comes later; anchors never belong together. |
| `Signals.ClusterOrderIndependent` | agent/detection/incident_correlation.py:312-320 | Every permutation of the signals gives the same sequence of clusters. |
| `Clustering.CanonicalUnique` | agent/detection/incident_correlation.py:317-342 | A set of signals has at most one canonical clustering, which makes the canonical form a definition rather than a property. |
| `Clustering.BestAnchorIsPreferred` | agent/detection/incident_correlation.py:281-293 | The chosen anchor beats every other eligible one: greater overlap ratio, then higher precedence. |
| `Clustering.ClusterInOrder` | agent/detection/incident_correlation.py:317-342 | The loop over anchors and the members dictionary yields the canonical clustering of the processed items. |
| `Clustering.AbsorbedIsIrrelevant` | agent/detection/incident_correlation.py:323-342 | Removing (or, read backwards, adding) an absorbed signal takes it out of its cluster and changes no anchor and no other placement. |
| `Clustering.ClustersConserve` | agent/detection/incident_correlation.py:323-342 | The cluster sizes add up to the number of signals. |
| `Scoring.DeriveFacts` | agent/detection/scoring.py:116-160 | The derivation loop, with its dictionary of ports per destination, computes facts that depend on the set of events only. |
| `Scoring.GatherStep` | agent/detection/scoring.py:116-160 | One turn of the port loop keeps the dictionary equal to the sensitive ports of the allowed events seen so far. |
| `Scoring.SeverityPermutation` | agent/detection/scoring.py:194-252 | Severity does not depend on the order of the signals. |
| `Scoring.BroaderIsMilderExactly` | agent/detection/scoring.py:201-252 | Severity is not monotone in the number of destinations: with all other facts equal it falls if and only if allowed traffic stops being focused on at most two of them while two sensitive ports, an asset value and volume below the cap, and too little breadth to compensate hold. |
| `Scoring.BroaderAndMilder` | agent/detection/scoring.py:116-252 | Two sets of events, of which the broader one has the same facts but its breadth and is scored high where the focused one is critical. |
| `Scoring.ConfidencePermutation` | agent/detection/scoring.py:255-260 | The mean of the three best confidences does not depend on the order of the signals. |
| `Scoring.SeverityExactly` | agent/detection/scoring.py:116-252 | The severity of an event-aware incident told by its events: which of them were allowed, reached management or sensitive ports, two sensitive ports of one of at most two destinations, and how many there are; all four outcomes, each exactly. |
| `Scoring.WorstSignalDecides` | agent/detection/scoring.py:194-222 | Of any other family an incident is as severe as its worst signal, and one step more exactly when it is large. |
| `Scoring.ConfidenceExactly` | agent/detection/scoring.py:255-260 | The confidence is the mean of three signals of which no other is more confident, or of all if there are fewer. |
| `Incidents.TakeFirst` | agent/detection/incident_correlation.py:476-496 | The shared bounded selection loop returns the first acceptable items of the pool, each key once, up to the limit. |
| `Incidents.KeepFirstComplete` | agent/detection/incident_correlation.py:476-496 | Nothing acceptable is passed over except a repeated key. |
| `Incidents.SelectContext` | agent/detection/incident_correlation.py:345-381 | The chosen context is within its bound and disjoint from the incident events. |
| `Incidents.ContextExactly` | agent/detection/incident_correlation.py:360-381 | What may be context: an event that is not one of the incident, within the merge window of some moment of it, and related to one of its events. |
| `Incidents.ContextFilled` | agent/detection/incident_correlation.py:363-381 | A fitting event is left out only when the context is full, and then of events listed no later. |
| `Incidents.CollectEvidence` | agent/detection/incident_correlation.py:476-496 | The evidence is bounded, owned by the incident events and free of repeats. |
| `Incidents.EarlierMembersFirst` | agent/detection/incident_correlation.py:476-496 | Evidence of the anchor first, then of the other members in order, each by event: an item is left out only for one that is no later, or because such items fill the bound. |
| `Incidents.BuildIncident` | agent/detection/incident_correlation.py:384-473 | Identifier, type, family, title, entity and primary signal come from the anchor alone; contents, window and merge key from all members; the context is the first eligible events and the evidence the first owned items, each up to its bound; scores from the contents. |
| `Incidents.TitleNames` | agent/detection/incident_correlation.py:528-551 | Whom the title names: the smallest source address among the events of the anchor, else the smallest one it measured, else its entity. |
| `Incidents.PrimaryIs` | agent/detection/incident_correlation.py:554-569 | Whom an incident is about: for exposure and policy signals the smallest destination among the events of the anchor if there is one, otherwise the entity of the anchor. |
| `Incidents.BucketHolds` | agent/detection/incident_correlation.py:428-438 | The bucket of the merge key holds the first second of the anchor, counted towards the epoch. |
| `Incidents.BuiltIsWellFormed` | agent/detection/incident_correlation.py:384-473 | Whatever is built that way is well formed. |
| `Incidents.AbsorbedKeepsIdentities` | agent/detection/incident_correlation.py:428-438 | Without an absorbed signal every incident is built from the same anchor and so keeps its identity. |
| `Overlaps.MergeIncidentPair` | agent/detection/incident_correlation.py:578-658 | The keeper takes over contents, window and merge count of the other incident and keeps its own identity. |
| `Overlaps.MergedPairKeeps` | agent/detection/incident_correlation.py:578-658 | Merging two well-formed incidents gives a well-formed one, whatever the scores. |
| `Overlaps.PairExactly` | agent/detection/incident_correlation.py:578-658 | The pair field by field: the name of the keeper, the contents of both over the hull of their windows, severity and confidence of just those signals and events under the family of the keeper, the first of both contexts, counters of what it holds and one merge more than both had. |
| `Overlaps.KeepersEvidenceFirst` | agent/detection/incident_correlation.py:600-612 | An item of evidence is left out only when the bound is full, and one of the keeper only for others of the keeper. |
| `Overlaps.FoldIn` | agent/detection/incident_correlation.py:677-691 | One turn of the pass is the step described next. |
| `Overlaps.MergeStepExactly` | agent/detection/incident_correlation.py:572-691 | If no kept incident may merge with the candidate it is kept on its own; otherwise exactly one kept incident changes: the one that may and has more events than every other that may, or as many and an earlier start, or the smaller identifier. |
| `Overlaps.MergeableExactly` | agent/detection/incident_correlation.py:499-525 | When two incidents may merge: one type, one entity, a common moment, and no event is only in one of them or at most as many as they share are in only one. |
| `Overlaps.MergeOverlapping` | agent/detection/incident_correlation.py:661-694 | The result is the pass over the sorted incidents, sorted for display, and its length plus the number absorbed is the number of incidents. |
| `Overlaps.ShownInOrder` | agent/detection/incident_correlation.py:693-694 | The result is ordered by first sighting, then by identifier. |
| `Overlaps.OverlapOrderIndependent` | agent/detection/incident_correlation.py:661-694 | For incidents with distinct identifiers the result does not depend on the input order. |
| `Overlaps.MergeAllConserves` | agent/detection/incident_correlation.py:578-658 | No event, signal, target or technique is lost or invented. |
| `Overlaps.EveryIncidentIsKept` | agent/detection/incident_correlation.py:661-694 | Every incident ends up inside one that is kept: contents, window, same type and primary entity. |
| `Overlaps.LargerNeverAbsorbed` | agent/detection/incident_correlation.py:572-690 | When a candidate is considered, every kept incident has at least as many events, so a larger event set is never absorbed into a smaller one. |
| `Overlaps.MergeCountRises` | agent/detection/incident_correlation.py:616-627 | The merge counters rise in total by exactly the number of incidents absorbed. |
| `Overlaps.MergeAllWellFormed` | agent/detection/incident_correlation.py:661-694 | The pass preserves well-formedness. |
| `Overlaps.MergeAllNames` | agent/detection/incident_correlation.py:661-694 | The kept incidents have distinct identifiers, each that of an incident that came in. |
| `BundleMerge.ValidSortedUnique` | agent/correlation/merge.py:49-59 | The valid evidence of one side in event order, exactly one item, the earliest in that order, for every event that has a valid item. |
| `BundleMerge.MergeEvidence` | agent/correlation/merge.py:62-107 | Merged evidence is bounded, owned, strictly in event order, keeps the earliest valid item of each side that had any, and leaves a valid event out only when the bound is reached by events before it. |
| `BundleMerge.MergeIncidentBundles` | agent/correlation/merge.py:130-275 | The join of a stored and an incoming incident, whether it was promoted or rescored, and exactly which changes are reported. |
| `BundleMerge.AnchorExactly` | agent/correlation/merge.py:110-127 | No anchor exactly when a signal of either incident is missing; otherwise the one of their signals that precedes all others. |
| `BundleMerge.MergeContents` | agent/correlation/merge.py:150-163 | What the merged incident holds and counts: the contents of both over the hull of their windows, the first of both contexts, and counters of just that. |
| `BundleMerge.MergeIdentity` | agent/correlation/merge.py:165-229 | Either the identity the anchor gives with new scores, severity only when every event was found, or without an anchor the identity and scores it had. |
| `BundleMerge.ChangesExactly` | agent/correlation/merge.py:253-267 | Each reported change told by the two incidents: something new was brought, the severity is higher, the confidence moved by more than the tolerance, the window is wider. |
| `BundleMerge.PromotesExactly` | agent/correlation/merge.py:186-199 | The identity is promoted exactly when the anchor brings another type, family or entity. |
| `BundleFold.AnchorIsBest` | agent/correlation/merge.py:110-127 | With every signal at hand the anchor is the precedence-first signal of both incidents. |
| `BundleFold.FoldContents` | agent/correlation/merge.py:150-163 | Folding any sequence of bundles gives the union of their contents and the hull of their windows, whatever signals and events are found on the way. |
| `BundleFold.MergeOrderIndependent` | agent/correlation/merge.py:150-229 | Two orders of folding the same bundles agree on contents, window, primary signal, type, family, title, severity, confidence and facts when the last merge finds every signal and event. |
| `BundleFold.PrimaryAlongFold` | agent/correlation/merge.py:110-127 | Along any fold that finds the signals of both sides at each merge the primary signal never gets worse in precedence. |
| `BundleFold.MergedBundleKeeps` | agent/correlation/merge.py:150-251 | A cross-job merge of well-formed incidents is well formed. |
| `BundleFold.EverythingMadeIsWellFormed` | agent/correlation/merge.py:130-275 | Every incident reachable by building from clusters, overlap merges and cross-job merges in any nesting is well formed. |
| `Archives.MatchesDescribes` | agent/archive/io.py:379-410 | The running counters of the verifier agree with a payload entry exactly when the entry describes the file: counts, bytes, oldest and newest record. |
| `Archives.DescribedIsValid` | agent/archive/schemas.py:388-399 | An entry that describes a file passes its own validator. |
| `ArchiveIo.ReadLines` | agent/archive/io.py:341-396 | The line loop stops at the first line at fault, and at none exactly when every line is sound, repeats no key and keeps the order. |
| `ArchiveIo.VerifyPayload` | agent/archive/io.py:312-410 | A payload is accepted exactly when it is sound and shares no key with those before it; otherwise the fault reported is the first that reading runs into. |
| `ArchiveIo.Verify` | agent/archive/io.py:231-283 | The verifier accepts exactly the archives that are right as a whole, stated without any order of reading; otherwise it reports the first thing wrong, of a payload the first that reading runs into. |
| `AcceptedArchives.AcceptedExactly` | agent/archive/io.py:231-429 | What acceptance means, file by file and line by line: exactly the eight files, a canonical manifest of this archive with its digest beside it, six entries that tell digest, size, counts and times of their files, complete lines of records that belong there, candidate files in time order, no record twice in the whole archive, and the totals. |
| `ArchiveIo.LineFaultExactly` | agent/archive/io.py:341-396 | Which of the eight faults a line is reported for. |
| `ArchiveIo.WritePayload` | agent/archive/io.py:161-214 | Writing succeeds exactly when every record fits the line limit, and then the file and its entry describe the records. |
| `ArchiveIo.Export` | agent/archive/exporter.py:51-100 | Export succeeds exactly when everything fits, the plan counted as many candidates as were written, and the clock did not run backwards; the error otherwise. |
| `ArchiveIo.WrittenVerifies` | agent/archive/io.py:312-429 | What was written verifies if and only if roles are right per file, keys are globally unique and each candidate file is strictly ascending. |
| `ArchiveIo.ExportAndVerify` | agent/application/archive.py:75-102 | Creating an archive up to its verification succeeds exactly under the conjunction of those conditions. |
| `ArchiveIndex.ReadsBack` | agent/archive/io.py:452-477 | Reading sound files yields their records in manifest order and no error. |
| `ArchiveIndex.ReadsExactly` | agent/archive/io.py:452-477 | What reading any file yields: the record of each line that has one and is not too long, and which fault for which other line. |
| `ArchiveIndex.Build` | agent/archive/index.py:35-106 | The index is built exactly when no key repeats and both counts agree with the manifest; it then has one row per record in order. Otherwise the error is that of the first item that was not read or repeats a key, or the mismatch of the counts. |
| `ArchiveIndex.PageIsSlice` | agent/archive/index.py:108-152 | A page after the cursor of the first k candidates is the next slice, and no cursor a reader can hold is refused. |
| `ArchiveIndex.PagesReproduce` | agent/archive/index.py:108-152 | Asking the index for one batch after the other, each from the end of the last, with any admissible sizes, reproduces the candidate sequence of the type as far as the sizes reach. |
| `ArchiveIndex.AcceptedBuilds` | agent/archive/index.py:66-101 | Every archive the verifier accepts builds an index without duplicate, count or read error. |
| `ArchiveIndex.IndexHoldsCandidates` | agent/archive/index.py:66-101 | The index of an accepted archive lists each candidate type exactly as its file does, in strict order. |
| `ArchiveIndex.PagingAnAcceptedArchive` | agent/archive/index.py:108-152 | Read in batches through its own index, an accepted archive returns each candidate file record by record. |
| `ArchiveSnapshots.StableKeepsManifest` | agent/archive/io.py:285-310 | An archive found stable still has the very manifest and payload sizes the snapshot was taken of. |
| `ArchiveSnapshots.AcceptedIsStable` | agent/archive/io.py:285-310 | An accepted archive is stable with respect to its own snapshot. |
| `ArchiveSnapshots.GenuineIsOrderly` | agent/application/cleanup.py:36-42 | What verification hands to cleanup is ordered, free of repeated identifiers in each phase, and as large as the manifest says. |
| `ArchiveSnapshots.GenuineInTimeOrder` | agent/archive/index.py:108-152 | Within a phase the candidates come in the order of their time, those of one moment by name. |
| `ArchiveSnapshots.SnapshotDetermines` | agent/archive/io.py:60-80 | Two verifications with equal snapshots hand over the same candidates. |
| `ArchiveSnapshots.AcceptedIndexes` | agent/archive/index.py:35-106 | The index of an accepted archive can be built and lists exactly the plan of its verification. |
| `ArchiveSnapshots.IndexOfKeptPayloads` | agent/application/cleanup.py:99-107 | An index built later is that plan if the payloads still have the digests of the snapshot. |
| `CleanupTables.ClaimKeeps` | agent/application/cleanup.py:202-281 | Claiming, with creation of the run and its progress rows on the first claim, keeps the tables right. |
| `CleanupTables.BatchKeeps` | agent/persistence/cleanup_repository.py:137-197 | Committing the next slice of a phase keeps cursor, counters and the record of what was classified in step. |
| `CleanupTables.CloseKeeps` | agent/persistence/cleanup_repository.py:199-233 | Closing an exhausted phase keeps the tables right and extends the finished phases by one. |
| `CleanupTables.CompleteRunKeeps` | agent/persistence/cleanup_repository.py:235-259 | Completing a run with every phase done keeps the tables right. |
| `CleanupTables.CompletedIsComplete` | agent/application/cleanup.py:409-418 | A completed run has classified each phase in full and in order; deleted, protected and missing add up to the candidate count of the manifest. |
| `CleanupTables.PhasesInOrder` | agent/application/cleanup.py:309-324 | Nothing of a later type is classified before every earlier type is finished. |
| `CleanupTables.CursorAccepted` | agent/application/cleanup.py:328-336 | The stored cursor of a phase is always accepted by the index and yields the next slice. |
| `CleanupTables.ClassifyAddsUp` | agent/application/cleanup.py:349-374 | Each candidate of a batch is counted once, so the check on the batch counts never fails. |
| `CleanupTables.CountsAreOutcomes` | agent/application/cleanup.py:351-374 | Each counter of a batch is the number of candidates with that outcome: deleted are the rows that go, protected those that were there and stay, missing those that were not there. |
| `CleanupTables.ClaimExactly` | agent/persistence/cleanup_repository.py:98-135 | What a claim comes to: refused for another archive, or exactly while someone holds the run; left alone when completed; otherwise held by the claimant, by no one else, for just the lease, going on with the work done so far or with none. |
| `CleanupTables.BatchExactly` | agent/persistence/cleanup_repository.py:137-197 | A batch is refused exactly when the phase is over or the run is not held at the version that was read; otherwise it renews the lease, moves one cursor and adds to both sets of counters. |
| `CleanupTables.CloseExactly` | agent/persistence/cleanup_repository.py:199-233 | The same for the end of a phase, which changes no counter. |
| `CleanupTables.ReleaseExactly` | agent/persistence/cleanup_repository.py:235-286 | A completed or failed run is held by no one and keeps its work; only a failed one can be claimed again, at any time. |
| `CleanupProtocol.BeginKeepsInv` | agent/application/cleanup.py:317-336 | Reading a page keeps the invariant, and a worker allowed to read is never stopped by its cursor. |
| `CleanupProtocol.EndBatchKeepsInv` | agent/application/cleanup.py:351-387 | Committing or refusing a batch keeps the invariant whatever other workers did since the read. |
| `CleanupProtocol.StepEvolves` | agent/persistence/cleanup_repository.py:387-409 | No step takes anything back: the version rises with every change, positions move on, what is done stays done. |
| `CleanupProtocol.StepKeepsInv` | agent/application/cleanup.py:91-182 | Every step of creation, verification, drift, the four reads of the gate, claims, reads, commits, failures and crashes keeps the invariant, unless a worker takes through the gate an index of payloads other than those it verified. |
| `CleanupProtocol.RunKeepsInv` | agent/application/cleanup.py:91-182 | The invariant holds in every state reached without such an index. |
| `CleanupProtocol.ReadOutcome` | agent/application/cleanup.py:315-343 | What a read comes to: a failure unless the run is held by the worker beyond now, is running and for its archive, the files are stable and the cursor is accepted; otherwise the next page, or the end of the phase. Nothing is written. |
| `CleanupProtocol.FinishOutcome` | agent/application/cleanup.py:393-408 | Finishing needs the same and every phase done. |
| `CleanupProtocol.CommitOutcome` | agent/application/cleanup.py:345-387 | A commit takes effect with everything it did exactly when the worker still holds the run at the version of its read and the phase is not done; otherwise the worker fails and nothing else changes. |
| `CleanupProtocol.EndOutcome` | agent/application/cleanup.py:393-432 | The end of a run: completed and let go under the same condition. |
| `CleanupProtocol.FailureFrees` | agent/application/cleanup.py:434-470 | A worker that fails gives up the run it holds, with the work done so far, and leaves a run alone that another has taken over. |
| `CleanupSafety.CompletedRunIsComplete` | agent/application/cleanup.py:308-418 | Under any interleaving of claims, commits, crashes, lost leases, resumes and file changes, as long as the indexes are sound, a completed run has classified every archived candidate of each type exactly once and in order, and its counters add up to the manifest. |
| `CleanupSafety.ClassifiedIsPrefix` | agent/application/cleanup.py:308-387 | At every moment what has been classified of a type is a prefix of its candidates. |
| `CleanupSafety.TypesInOrder` | agent/application/cleanup.py:36-42 | Across all resumes no record of a later type is scanned before every earlier type is complete. |
| `CleanupSafety.CursorNeverRefused` | agent/application/cleanup.py:328-336 | In every reachable state a worker that may read gets a page. |
| `CleanupSafety.KnowledgeHolds` | agent/application/cleanup.py:91-182 | In any run, sound indexes or not: a worker past the gate saw, in this order, the archive run marked verified with a checksum, the stored archive verify with it, its index built from what was then stored, and the archive verify again with the same snapshot; and its open transaction was opened by its own read, with its lease held, the files stored at that moment stable for its snapshot, and the batch the page its index gives after the stored cursor. |
| `CleanupSafety.OnlyCommitsDelete` | agent/application/cleanup.py:357-387 | A record disappears only in the commit of a batch that still has the version it read. |
| `CleanupSafety.DeletionsAreAuthorized` | agent/application/cleanup.py:315-387 | In any run, sound indexes or not: a record is deleted only in the commit of a batch that contains it, opened by an earlier read of the same worker at which the lease was held and the stored files were stable for the snapshot; the run still has the version of that read, the lease is held, and the worker had passed the gate with an index listing the record. |
| `CleanupSafety.DeletionsAreCandidates` | agent/application/cleanup.py:325-364 | With sound indexes what is deleted is a retention candidate of an archive that verified at the gate, and the cleanup run is for exactly its snapshot. |
| `GateSafety.WrongIndexTakesTwoChanges` | agent/application/cleanup.py:91-121 | An index of other payloads passes the gate only if the stored files changed twice under one worker: after its verification and before its index, and after its index and before its second verification. |
| `GateSafety.SwappedIndexDeletes` | agent/application/cleanup.py:91-121 | Two such changes are enough: for every archive and every other contents whose index can be built in its place and begins with a record that is no candidate of the archive, a run in which cleanup deletes that record. |
| `GateSafety.MisleadingArchives` | agent/application/cleanup.py:91-121 | There are such contents, under every identifier. |
| `StatusSafety.StatusHistory` | agent/application/archive.py:108-124 | The archive run is marked failed exactly when the failure handler has run while the creating process was at work. |
| `StatusSafety.VerifiedIsFinalExactly` | agent/application/archive.py:103-124 | Whatever has happened before: an archive run marked verified stays so in every continuation if and only if `finalize` is over, by returning or with the process that created the archive. |
| `StatusSafety.VerifiedWhenDeleting` | agent/application/cleanup.py:142-182 | Seen from an open gate before cleanup has begun, with at least one candidate: every deletion to come finds the archive run verified if and only if `finalize` is over. |
| `StatusSafety.LateFailureDeletes` | agent/application/archive.py:108-124 | From any open gate while `finalize` has not returned, a run in which cleanup deletes its first candidate, of whichever type, after the archive run has been marked failed. |
| `StatusSafety.GateOpensEarly` | agent/application/archive.py:126-147 | The gate is opened within `finalize` and after it by a later verification, and at the end by the creating process. |
| `ArchiveLifecycle.Service.Prepare` | agent/application/archive.py:75-102 | Run row, workspace and verification, up to the step that raises. |
| `ArchiveLifecycle.Service.Publish` | agent/application/archive.py:103-107 | Completion, renaming and the verified mark, up to the step that raises. |
| `ArchiveLifecycle.Service.CreateArchive` | agent/application/archive.py:67-124 | The report to the caller and the exact run row and directories left for every step that may raise and for a process that does not survive it. |
| `ArchiveLifecycle.Service.VerifyArchive` | agent/application/archive.py:126-147 | A later verification succeeds exactly when the archive verifies and its run is completed or verified for the same manifest; otherwise nothing changes. |
| `ArchiveLifecycle.CreateIsProtocolRun` | agent/application/archive.py:67-124 | Whatever goes wrong, creating an archive is a run of the creating process of the protocol. |
| `ArchiveLifecycle.RecoveredExactly` | agent/application/archive.py:108-147 | Verifying later repairs exactly the creations interrupted after the renaming had returned or, by a crash, within it; an exception within it leaves an archive in place that can never be marked verified. |
| `CleanupService.Repository.GuardedRunUpdate` | agent/persistence/cleanup_repository.py:387-409 | The update takes effect exactly for the holder of an unexpired lease and the version read, and changes nothing otherwise. |
| `CleanupService.Repository.ApplyBatchInPlace` | agent/persistence/cleanup_repository.py:137-197 | Progress row, run row, classification and deletions change together or not at all. |
| `CleanupService.Repository.CompleteProgressInPlace` | agent/persistence/cleanup_repository.py:199-233 | Progress row and run row change together or not at all. |
| `CleanupService.Repository.CompleteRunInPlace` | agent/persistence/cleanup_repository.py:235-259 | The run is completed and its lease released, or nothing changes. |
| `CleanupService.Repository.FailRunInPlace` | agent/persistence/cleanup_repository.py:261-286 | Only the owner of a running run can mark it failed. |
| `CleanupService.Repository.PrepareAndClaimInPlace` | agent/application/cleanup.py:202-281 | First claim, resumed claim, completed run, foreign snapshot and active lease. |
| `CleanupService.Turn` | agent/application/cleanup.py:315-391 | One turn of the loop, with other workers committing before its read and before its commit: the tables stay right; it advances only if at its read the lease was held and the stored files were stable; left alone with a fresh lease it does not stop. A turn that is refused leaves tables and rows as it found them; one that commits a batch is a batch commit of the protocol and removes exactly the rows of its phase that are in the batch, present, eligible and deletable. |
| `CleanupService.TurnAdvances` | agent/application/cleanup.py:315-391 | A turn that advances leaves less of candidates plus unfinished phases, whatever others did. |
| `CleanupService.ExecutePhases` | agent/application/cleanup.py:299-391 | The phase loop terminates, reports success only with every phase done, and left alone with a fresh lease it does succeed; left alone, every counter rises by what happened to the rows. |
| `CleanupService.Complete` | agent/application/cleanup.py:393-418 | It reports success only if at its read the lease was held and the stored files were stable, and then the run is completed; with every phase done, left alone with a fresh lease, it succeeds. |
| `CleanupService.Gate` | agent/application/cleanup.py:91-182 | The gate opens exactly when the run is marked verified, the stored archive verifies with its checksum, the index can be built from what is stored then, and what is stored after that verifies with the same snapshot; the plan taken through is that of the index. |
| `CleanupService.Clean` | agent/application/cleanup.py:122-140 | Past the gate the operation terminates; success means every candidate was classified and the counters add up to the manifest; a run that cannot be claimed is left alone, and a failure past the claim leaves no run still running in the name of this worker. Left alone it succeeds whenever the run can be claimed, as many records are reported deleted as rows disappeared, and every ineligible row is still there. |
| `CleanupBatches.CommitIsProtocolStep` | agent/application/cleanup.py:351-387 | Committing a batch in the service is a commit of the protocol, of rows that are deletable, eligible and present. |
| `CleanupBatches.BalancedBatch` | agent/application/cleanup.py:357-374 | After a batch the rise of each counter is what happened to the rows: as many deleted as disappeared, no ineligible row among them, none of another phase. |
| `CleanupBatches.FirstCleanup` | agent/application/cleanup.py:308-418 | For a first cleanup that nothing disturbs the reported number of deleted records is the number of rows that are gone. |
| `CleanupService.Execute` | agent/application/cleanup.py:91-140 | The whole operation, gate included: success means every candidate of the archive verified at the gate was classified; with the gate closed nothing changes; left alone it succeeds exactly when the gate opens and the run can be claimed, and its counters are what happened to the rows. |
| `Dependents.DependentsWereArchived` | agent/persistence/cleanup_repository.py:332-464 | Every dependent row deleted with an incident or a job is archived as a dependency under its key; the one exception is the correlation row of an incident, which is never archived and goes exactly when its incident goes. |
| `Dependents.LimitHolds` | agent/persistence/cleanup_repository.py:466-530 | Reading one row more than the limit from each table tells exactly whether a root has more rows than the limit in all, so no such root is deleted. |
| `Dependents.SafeOnes` | agent/persistence/cleanup_repository.py:411-464 | The loop keeps exactly the eligible roots that are safe. |
| `Dependents.SafeExactly` | agent/persistence/cleanup_repository.py:411-650 | Which roots are safe, row by row: an incident or job with no more dependents than the limit in all tables together, each of which is archived and may go with it; an event or signal no row refers to; any audit event. |
| `Dependents.DeletesExactly` | agent/persistence/cleanup_repository.py:332-385 | Which rows go with the roots, and which roots go. |
| `Dependents.ReferencesSurvive` | agent/persistence/cleanup_repository.py:332-385 | No row that remains points to an incident, job, event or signal that was deleted. |
| `Dependents.PersistTriage` | agent/application/analysis_service.py:388-500 | A triage run is written with its evidence, row by row, and its report, all with the job and the incident of the run. |
| `Dependents.NothingIsRefused` | agent/persistence/cleanup_repository.py:654-703 | The foreign keys hold after every single statement of a deletion and after the roots have gone, so the database refuses none of them; the order of the statements, reports and evidence before triage runs, is needed for it. |
| `Dependents.EveryDeletionGoesThrough` | agent/persistence/cleanup_repository.py:332-385 | However triage outputs, other rows and deletions follow one another: the foreign keys hold, evidence and reports carry the columns of their run, and no deletion is refused. |
| `Dependents.ForeignRowRefuses` | agent/persistence/cleanup_repository.py:654-675 | Why the shared columns matter: evidence or a report with another incident than its run, or none, would have the deletion of the run refused. |
| `CorrelationState.MergesExactlyWithinReach` | agent/correlation/stateful.py:514-562 | A call merges exactly when the incident exists, the row is alive and of this version, and the gap between the windows is within the correlation window; it is stale exactly when it lies too far before. |
| `CorrelationState.ClassifyExactly` | agent/correlation/stateful.py:514-562 | All four answers as an exact case split on the row and the call: repair, a new generation, stale, merge. |
| `CorrelationState.Outcome` | agent/application/stateful_correlation_service.py:643-719 | What an uninterrupted call comes to in each case: which status is reported, which row and which incident are written. |
| `CorrelationState.ExpiredGivesWay` | agent/application/stateful_correlation_service.py:921-1001 | A call on an expired row whose incident is there starts a new generation with exactly the window of the call, or, for the same incident, merges into it or has nothing to add. |
| `CorrelationState.FirstOutcome` | agent/application/stateful_correlation_service.py:723-812 | The first call on a key creates generation one with its window, or is rejected for a window or lifetime no row may have. |
| `CorrelationState.StepKeepsInv` | agent/application/stateful_correlation_service.py:643-719 | Every read, write, lost race, exception and deletion keeps the row constraints, the hull and the soundness of what sessions know; the row a call has read is locked until it ends. |
| `CorrelationState.ReachedIsRight` | agent/application/stateful_correlation_service.py:892-1001 | In every reachable state there is at most one row, first seen <= last seen < expiry, and its window is exactly the hull of the windows created or merged in the current generation. |
| `CorrelationState.GenerationMoves` | agent/persistence/repositories.py:115-185 | The generation rises by exactly one in a call that reports a new generation and stays in any other; a row appears only in a call that reports its creation. |
| `CorrelationState.DecidesOnItsRow` | agent/persistence/repositories.py:117-185 | In every run a call that merges or starts a generation writes to the very row it decided on. |
| `CorrelationState.ReusedVersionMisleads` | agent/persistence/repositories.py:27-29 | What the row lock is for: could cleanup delete the row under a call that has read it, the next row would have the version that call expects, and it would start a new generation over a row that is alive and within its reach. |
| `CorrelationState.NothingLeftBehind` | agent/application/stateful_correlation_service.py:773-812 | Stale, no-op, conflict and rejected calls change nothing; the loser of a create race leaves nothing of its attempt and goes on with the row of the winner. |
| `CorrelationState.NoUpdateLost` | agent/application/stateful_correlation_service.py:824-919 | Whatever cleanup deletes meanwhile, the canonical incident holds every call that reported success in its generation, in order, and it is there unless an incident was lost without its row. |
| `IncidentStore.IncidentRow.MakeReal` | agent/application/stateful_correlation_service.py:175-195 | Every event ends up as one real row, added or promoted from context, and a change is reported exactly when the real set grew. |
| `IncidentStore.IncidentRow.ReconcileAssociations` | agent/application/stateful_correlation_service.py:161-221 | One row per event; the real ones are the old real ones plus the given events, the context rows the given context without the real ones; (false, false) exactly when nothing changed. |
| `IncidentStore.IncidentRow.ReconcileExisting` | agent/application/stateful_correlation_service.py:224-302 | The row says exactly what the refresh must leave, and a change is reported exactly when it says something else than before. |
| `IncidentStore.ReconciledExactly` | agent/application/stateful_correlation_service.py:144-221 | The refreshed row: events, signals and jobs joined, the first of the possible context. |
| `IncidentStore.RefreshedFields` | agent/application/stateful_correlation_service.py:240-302 | The other fields are those of the incident, but a confidence that moved by no more than the tolerance stays, and metrics the incident does not mention stay. |
| `IncidentStore.NoopAddsNothing` | agent/application/stateful_correlation_service.py:116-141 | The quick test recognizes an incident exactly when storing it again for the job would add nothing. |
| `IncidentStore.BoundedAgain` | agent/application/stateful_correlation_service.py:144-158 | Bounding the kept context with the same incoming candidates again gives the same context. |
| `IncidentStore.ReconcileIdempotent` | agent/application/stateful_correlation_service.py:224-302 | A second refresh from the same incident for the same job changes nothing and reports no change. |
| `IncidentStore.NoopAfterReconcile` | agent/application/stateful_correlation_service.py:116-141 | After a refresh the quick test recognizes the incident if and only if, before it, fewer other context candidates than the bound came before each of its own new ones. |
| `IncidentStore.FewCandidatesFit` | agent/application/stateful_correlation_service.py:144-158 | In particular when the candidates together do not exceed the bound, and then the refresh keeps them all. |
| `StatefulMerge.LoadAvailableSignals` | agent/application/stateful_correlation_service.py:1077-1105 | Every incoming signal once and every stored one no incoming row stands for. |
| `StatefulMerge.MergeIntoCanonical` | agent/application/stateful_correlation_service.py:447-562 | Without a material change the row, its associations and its version are untouched; otherwise it says what the merge says and its version rises by one. |
| `StatefulMerge.MergeAgainChangesNothing` | agent/correlation/merge.py:150-267 | Merging the same incident into its own result reports no change and no other context, even when the context bound discarded some of it. |
| `StatefulMerge.SecondMergeIsNoop` | agent/application/stateful_correlation_service.py:493-522 | After a material merge the same incident for the same job has no material effect on the stored row. |
| `StatefulMerge.CreateCanonical` | agent/application/stateful_correlation_service.py:348-445 | A fresh row holds exactly the incident, with its metrics stamped and version 1. |
| `StatefulMerge.RefreshCanonical` | agent/application/stateful_correlation_service.py:348-445 | A stored row met by the create path is refreshed with the incoming scores and stamped; its version rises exactly when contents or metrics changed. |
| `StatefulMerge.NewCounts` | agent/application/stateful_correlation_service.py:427-445 | A newly stored row counts what it holds and no merge, under the primary signal of the incident. |
| `StatefulMerge.MergedCounts` | agent/application/stateful_correlation_service.py:493-562 | A merged row counts what it holds and one merge more than before. |
| `StatefulMerge.MergedSays` | agent/application/stateful_correlation_service.py:524-562 | It says what the merged incident says, keeps its merge key and gains the job. |
| `StatefulMerge.RefreshedCounts` | agent/application/stateful_correlation_service.py:372-425 | A refreshed row counts the union it holds and as many merges as before. |
| `StatefulMerge.AllEventsOrNone` | agent/application/stateful_correlation_service.py:565-590 | The events for the severity facts are all those of the final set, or none when one is not stored. |
| `StatefulMerge.MergeOrLeave` | agent/application/stateful_correlation_service.py:842-890 | A call leaves the row exactly as it was if and only if the merge has no material effect or the quick test recognizes the incident; otherwise contents, metrics and version become those of the merge, and the effects are reported. |
| `ResolveTwice.RefinesProtocol` | agent/application/stateful_correlation_service.py:643-719 | A call on the state row and the stored incidents is, with the incidents forgotten but for their names, an uninterrupted call of the correlation protocol: same status, same row. |
| `ResolveTwice.GenerationIsStamped` | agent/application/stateful_correlation_service.py:723-1001 | After every successful call the metrics of the canonical incident name the key and the generation of the row that points to it. |
| `ResolveTwice.StoredBy` | agent/application/stateful_correlation_service.py:773-1001 | A call that reports a creation, a merge or a new generation leaves a row that covers its window and points to the incident it stored. |
| `ResolveTwice.CanonicalIsRecognized` | agent/application/stateful_correlation_service.py:116-141 | The quick test recognizes what the create path has just stored if and only if there was room for its context before the call; for an incident that was not stored there always is. |
| `ResolveTwice.MergedOnceIsDone` | agent/application/stateful_correlation_service.py:842-890 | Once an incident has been merged into a stored one, the merge path finds nothing left to do for it and the same job. |
| `ResolveTwice.SettledExactly` | agent/application/stateful_correlation_service.py:348-445 | After the create path has refreshed a stored incident, merging the same one has no material effect if and only if severity, confidence, primary entity and facts it brought are those over the union. |
| `ResolveTwice.SecondResolveIsNoop` | agent/application/stateful_correlation_service.py:603-719 | After a call has created the row, merged or started a generation, the same incident for the same job before expiry returns no_op and leaves the state row and the stored incident with its associations, metrics and version exactly as they are, if and only if the call merged, or there was room for its context, or the incident it met was settled with it. |
| `ResolveTwice.SecondResolveOfNewIsNoop` | agent/application/stateful_correlation_service.py:603-719 | In particular after every merge, even one whose bound discarded context, and after every creation of an incident that was not stored. |
| `Engine.SelectEligible` | agent/detection/engine.py:62-93 | Every candidate is kept or counted as skipped, once: missing identifier, repeat, no or naive timestamp, rejected parse status. |
| `Engine.SelectedExactly` | agent/detection/engine.py:62-93 | Selected are, in order, the candidates with an identifier that comes with this hash for the first time, a zoned time and a good parse; a repeat is left out even when the first one had no usable time. |
| `Engine.KeysTellApart` | agent/detection/engine.py:62-72 | The combined key tells apart identifiers without a bar and their hashes. |
| `Engine.EventsInOrder` | agent/detection/engine.py:111-112 | The selected events are worked on in the order of their time, those of one moment by identifier. |
| `Engine.Suppress` | agent/detection/engine.py:148-164 | Signals are split into active and silenced ones in order, and counted. |
| `Engine.PassingExact` | agent/detection/engine.py:148-164 | The active signals are exactly those the policy does not silence. |
| `Engine.DeduplicateSignals` | agent/detection/engine.py:195-261 | The loops over sources, over the rules of a source and over the signals of a rule in time order, each calling the next, compute the grouped sliding-window merge; the pipeline calls them. |
| `Engine.StageIsFaithful` | agent/detection/engine.py:195-261 | Any nesting of grouping loops around a merge that joins only what it may keeps all events and never adds signals. |
| `Engine.DeduplicationConserves` | agent/detection/engine.py:195-261 | Deduplication neither loses nor invents an event and never yields more signals. |
| `RepeatChains.DeduplicationChains` | agent/detection/engine.py:195-261 | Every signal is in exactly one chain of one rule and source, in time order, in which each shares an event with those before and begins within the window of the last end; chains are as long as they can be; each reported signal is the first of its chain with the events, targets and evidence of all and the latest end, under a new identifier if there were several. |
| `Engine.BuildCorrelated` | agent/detection/incident_correlation.py:697-737 | The incidents are what the overlap pass leaves of those built one by one from the canonical clusters; they hold exactly the events of the signals, and incidents plus the absorbed count are the signals. |
| `Engine.Analyze` | agent/detection/engine.py:48-193 | total = eligible + skipped; signals = suppressed + duplicates + merges + incidents; incident events are those of the unsuppressed signals; uncorrelated are exactly the other eligible ones, in time order; the signals are those deduplication leaves and the incidents come from their canonical clusters. |
| `Jobs.AuditsExact` | agent/application/cancellation.py:77-108 | In every reachable state a job whose cancellation was accepted has exactly one request event, and a cancelled one exactly one event of each kind, however often cancel and finalize ran. |
| `Jobs.FinalizingExactly` | agent/application/cancellation.py:214-266 | Over the fields of the row: a job asked to stop becomes cancelled, without a lease and with one more event if it had none of that kind; any other job stays as it is. |
| `Jobs.CancellationFinishes` | agent/application/cancellation.py:214-266 | From every reachable state with a cancellation asked for, one finalize, one recovery or the end of a stopping worker leaves the job cancelled, without a lease, with exactly one event of each kind; a job of any other status is unchanged. |
| `Jobs.CancellationAsked` | agent/application/cancellation.py:116-212 | In every reachable state cancel makes a queued job cancelled with both events, asks a processing one to stop with one event, and changes no other. |
| `Jobs.AttemptCompletes` | agent/application/analysis_service.py:577-614 | An undisturbed attempt completes a queued job with one more result. |
| `Jobs.AttemptFails` | agent/workers/analysis_worker.py:197-229 | An attempt that raises puts the job back exactly when the error may pass and fewer than three attempts were made. |
| `Jobs.CrashIsRecovered` | agent/workers/analysis_worker.py:259-306 | A crashed attempt is found by recovery and queued again, or failed after the third. |
| `Jobs.AttemptIsCancelled` | agent/workers/analysis_worker.py:140-195 | A cancellation that arrives during an attempt ends it cancelled and without results. |
| `Jobs.RecoveryFinds` | agent/workers/analysis_worker.py:259-285 | Recovery takes up only jobs that are being processed under a lease. |
| `Jobs.ResultsOnlyWithCompletion` | agent/application/analysis_service.py:577-614 | Results are committed in no step but the completion update that finds the job processing, one set each time. |
| `Jobs.ResultsAreCompletions` | agent/application/analysis_service.py:577-614 | In every run, attempts overtaking one another included, results were committed exactly as often as that update went through, and a job that reads completed has some, whoever wrote that status. |
| `Jobs.CancelWhileWritingWins` | agent/application/analysis_service.py:577-590 | A cancellation between the writes and the final update wins: nothing is committed. |
| `Jobs.CancellationUndoneOnlyByOverwriting` | agent/workers/analysis_worker.py:197-300 | A cancellation that took effect is undone by a step if and only if the step is one of the unconditional status writes: of a worker, of persistence, of a failed dispatch, of a recovery or of a submission that read the row before. |
| `Jobs.CancellationSticks` | agent/application/cancellation.py:116-208 | Without such a write the job stays cancelled and commits nothing, whatever else happens. |
| `Jobs.NoCompletionAfterCancel` | agent/application/analysis_service.py:598-614 | After an accepted cancellation a job completes only if a worker or a recovery revived it, or a call that found it failed, since or just before, submitted it again. |
| `Jobs.CompletesAfterCancelExactly` | agent/workers/analysis_worker.py:140-300 | At the moment a cancellation takes effect: the job can still complete without being submitted again if and only if a recovery has found its lease expired with attempts left, or an attempt of a worker has committed and not yet reported, or has attempts left and has not begun to write. Direct attempts never count. |
| `Jobs.RecoveryUndoesCancellation` | agent/workers/analysis_worker.py:259-306 | A concrete run in which a recovery finds a lease expired, the job is asked to stop, the recovery queues it over the request, and it completes. |
| `Jobs.RequeueUndoesCancellation` | agent/workers/analysis_worker.py:197-211 | The same by the branch of the worker for retryable exceptions, should one be raised. |
| `Jobs.JobRow.AddAuditEvent` | agent/application/cancellation.py:77-108 | At most one event of a kind is added. |
| `Jobs.JobRow.CancelJob` | agent/application/cancellation.py:116-212 | The two conditional updates in turn, and what the caller is told. |
| `Jobs.JobRow.FinalizeJob` | agent/application/cancellation.py:214-266 | The method does to the row what `Jobs.FinalizingExactly` states. |
| `Jobs.JobRow.WriteJobResults` | agent/application/analysis_service.py:501-577 | The results are written in the open transaction and not visible yet. |
| `Jobs.JobRow.CommitJobResults` | agent/application/analysis_service.py:577-590 | Results and completion together, or a rollback of both when the job is no longer processing. |
| `IntervalRuns.SpanTestExact` | agent/detection/fixed_source_port_cluster.py:71-96 | In time order the test of the loop says exactly whether the extended run fits the window. |
| `IntervalRuns.FitsExactly` | agent/detection/fixed_source_port_cluster.py:71-96 | A run fits exactly when it is one finding or no end in it is further from a start than the window. |
| `IntervalRuns.BoundedRuns` | agent/detection/fixed_source_port_cluster.py:71-96 | The runs are consecutive, cover the sorted findings, each fits the window or is a single finding, and no other such split has fewer runs. |
| `IntervalRuns.ForcedIsFewest` | agent/detection/fixed_source_port_cluster.py:71-96 | A split whose every cut is forced has the fewest runs of any split into good runs. |
| `IntervalRuns.ComponentRuns` | agent/detection/presentation.py:393-412 | The runs cover the sorted incidents, each is linked by gaps within tolerance, and no two runs are near each other. |
| `IntervalRuns.NearExactly` | agent/detection/presentation.py:177-187 | Two incidents are near exactly when some moments of them are within the tolerance. |
| `IntervalRuns.RunsAreComponents` | agent/detection/presentation.py:177-187 | Two incidents share a run if and only if a chain of near incidents connects them. |
| `IntervalRuns.RunsOrderIndependent` | agent/detection/presentation.py:393-412 | Which incidents share a run does not depend on the input order. |

## Left out

- StatefulMerge.SecondMergeIsNoop: the caller passes rows for all signals of the incoming incident, as the analysis service does.
- BundleFold.MergeOrderIndependent: not the primary entity of exposure and policy incidents, which is that of whichever incident brought the anchor and so depends on the order, and not evidence or context.
- BundleMerge.MergeIncidentBundles: the metric that counts distinct targets is not updated by a cross-job merge; the model keeps it stale as the program does.
- Overlaps.MergeOverlapping: the result need not be a fixed point of the pass, since a grown keeper may come to overlap another kept incident; the model follows the single pass.
- Signals.ClusterSignals: signals must have distinct identifiers; the program keys clusters by them and describes them as unique (`agent/detection/incident_correlation.py:313-316`), and with a repeated one the later cluster would replace the earlier.
- Engine.BuildCorrelated: the same identifiers are taken as distinct.
- Engine.Analyze: the signals that reach correlation must have distinct identifiers and ordered windows; a time-sorted context list is taken as given; the exceptions of a rule are an empty output.
- Engine.DeduplicateSignals: the program extends the earlier signal object in place; the model works on values, which leaves out aliasing between the input list and the result.
- Incidents.BuildIncident: the branch without an event lookup.
- IncidentStore.IncidentRow.ReconcileExisting: timestamps, summary text and other columns that no decision reads.
- CorrelationState.NoUpdateLost: a call is one transaction; the program makes several in the transaction of one analysis and holds the row locks until its end. On SQLite, which has no row locks, the write lock taken by the flush before the call does their work.
- CorrelationState.GenerationMoves: one correlation key; the removal of expired rows (`agent/persistence/repositories.py:187-204`), which nothing calls, is not modelled. A generation keeps the correlation version of its row, as the program's update does.
- CleanupService.Execute: what follows when the index was built from other payloads than those verified, which is the subject of `GateSafety`; audit events and the result row of cleanup; the policy and count columns compared at the gate. That it succeeds when left alone is stated for steps of which any eight take less than a lease.
- Dependents.ReferencesSurvive: the check that as many roots were deleted as were found safe, which cannot fail within one transaction.
- StatefulMerge.MergeIntoCanonical: the severity facts among the metrics of the stored row.
- StatusSafety.VerifiedWhenDeleting: a later verification is one step; files that change before it marks the run are a change after it. Two transactions that read and then write the same archive run are not interleaved.
- ArchiveLifecycle.Service.CreateArchive: what the export left in a workspace that is then removed; audit events and sanitized error codes.
- CleanupProtocol.RunKeepsInv: each of the reads of the gate sees one state of the stored files, as if files did not change while they are read; the policy and count columns compared at the gate are left out, which only lets more runs through; a worker identifier is not reused while its worker lives.
- CleanupTables.ClassifyAddsUp: in the protocol which eligible rows may go is any subset; which ones do is the subject of `Dependents`; the counter of skipped records, which is always zero, is left out.
- ArchiveIo.Verify: the bytes of gzip, JSON and SHA-256; file names other than the expected ones are a set of strays; schema checks of a record are whether its line parses.
- Jobs.NoCompletionAfterCancel: one job; the lease of an attempt may expire at any time; a handler reads and writes the row in one step, since it writes whatever it reads; staging files, heartbeats and retry times are left out.
- IntervalRuns.BoundedRuns: grouping by port and network before the split, and the assembly of clusters and groups after it.
- The derivation of a correlation profile from an incident (`agent/correlation/stateful.py:183-494`): only members that follow from one body.
- The limit on how many members a brief group lists, localisation and rendering.
- Routes, authentication, detection rules, parsers, the language-model graph, search indexing and the ORM.
