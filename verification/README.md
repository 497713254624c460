# Verified model of the PostgreSQL-to-bucket replicator

This project models, in Dafny 4.11, how the powersync-mdbx service turns a
PostgreSQL change stream into materialised buckets and serves them to clients,
and proves what the service relies on. `dafny verify dfyconfig.toml` checks it.

## Main results

- **End to end.** `Replica.EveryReadShowsTheBucket`: over every interleaving of
  source transactions, tail pruning, rebuilt stores and reads, a client that
  starts empty holds exactly the bucket's projected documents after each read,
  whichever path the read took. `Balance.EveryReadBalances` says the same of
  checksums: what each read advertises, and exactly when the client has it.
  `Replica.HoldOpenExactlyOnce`: follow-up reads add up to one read.
  `StateStore.MaterializedStore.PersistTransaction` and `ReadBucket` tie the
  bytes, loops and objects of the write and read paths to the same store model,
  and `Replica.StreamIsTheReadMove` the lines a client receives.
- **Accounting.** Accumulators equal a recomputation in every reachable state
  (`Accounting.AccumulatorsEqualRecomputation`); the loops with projection memo
  and batched deltas refine the one-step updates (`Checkpoints`); the advertised
  checkpoint grows by the served entries with the moved-out term made explicit
  (`Conservation.RunConserves`).
- **Plans.** The routes a row is written under and the routes a bucket is read
  by agree for every lowered plan (`Routing.WriteAndReadPlansAgree`).
- **Replication.** No transaction is lost or applied twice through deliveries,
  redeliveries, crashes and restarts (`Ingest.NoLostTransaction`), and the
  initial snapshot is crash safe (`Bootstrap`).
- **Formats.** Key framing, codecs, LSN text, and the WHERE-clause splitter and
  binding printer are proved inverse, injective or prefix-free.
- **Rules lifecycle.** Plan, content and versions stay coherent through every
  interleaving of steps, failed writes and restarts (`RulesLifecycle`).

## Properties that turned out conditional

Each is proved as an equivalence, and a lemma gives a concrete input.

- A put that takes a row out of a bucket is served as REMOVE but not accounted
  (`Conservation.RunConserves`, `Conservation.MovedOutRowMiscounts`), so a client
  that follows by deltas no longer has the advertised checksum until its next
  snapshot (`Balance.EveryReadBalances`, `Balance.MovedOutRowLeavesDrift`).
- Overlapping queries of one bucket, or same-type queries with different
  projections, break the accounting (`Conservation.ShapeDecidesAccounting`, whose
  proof builds the miscounted row).
- A row whose JSON-array route value matches a query is neither accounted nor
  indexed, so no read reaches it (`Replica.SnapshotShowsReachedOnly`,
  `TailLog.SelectionIsDeltaIff`, `Replica.ArrayRowIsNeverRead`).
- A required reset with last op id zero sends no CLEAR
  (`StreamLines.ResetClearsIffNumbered`, `StreamLines.ResetWithoutClear`). No
  client that only uses cursors it was given gets there, so the end-to-end
  theorems need no such condition.
- A client that resumes a cursor taken between two initial snapshot batches
  misses the rows of the later batch (`Replica.SnapshotBatchIsMissedIff`,
  `Replica.SnapshotBatchIsMissed`). The stream endpoint refuses requests until the
  storage is ready (`crates/powersync-mdbx/src/http/sync_stream.rs:57`), so only a
  stream held open across a rebuild gets there.
- An update that changes a row's id without carrying the old row leaves the old
  document behind (`Derive.DerivationMirrorsIff`, `Derive.UntoldRenameLeavesOldRow`).
- A put that wrongly claims to be new is counted twice
  (`Accounting.AssumeNewIsExactIffNotCounted`, `Accounting.FalselyNewRowCountsTwice`).
- A colon in an object type makes document keys collide
  (`Keys.DocKeysCollideIff`, `Keys.CollidingDocuments`).
- A commit batch of 2^32 changes or more does not survive its codec
  (`BatchCodec.BatchRoundTrip`: any such batch).
- The LSN parser accepts texts it would not print (`Lsn.PrintsBackIffCanonical`,
  `Lsn.AcceptedButNotPrinted`).
- Activation or failure with another version drops the pending candidate from
  memory (`RulesLifecycle.RefusalKeepsCandidateIff`,
  `RulesLifecycle.RefusedActivationDropsCandidate`).
- A version can be acknowledged for two contents: a stage whose write failed
  stays in memory, its retry is answered Ok without a write, and a restart
  forgets it (`RulesLifecycle.VersionIsReusedIff`,
  `RulesLifecycle.ForgottenVersionIsReused`).

## Reading the model

- Row-filter evaluation, JSON projection, JSON-array membership and SHA-256
  checksums are function-valued fields of `Routing.Oracle`; pgoutput parsing,
  rule compilation, the intent hash, UTF-8 validity, the row-change codec and
  row reading are function parameters. Theorems hold for all of them.
- The MDBX table is a map from byte strings to byte strings; text is a string
  with one character per byte, and byte readers refuse character codes above 255.
  A cursor scan visits the matching keys once each in some order; order by key is
  proved where it matters (`Keys.OpIdKeysOrdered`).
- A failed transaction leaves the state as it was.
- A resolved query is its own accumulator key, as the service derives that key
  from all of its fields. Sorted column lists are multisets.
- `Conservation.WellShaped`, `Conservation.ScalarRoutes` and colon-free object
  types are the conditions named above; `Routing.Covered` follows from lowering
  for every bucket that resolves.
- A history of `Replica` takes a bootstrap (clear, rows, completion marker) as one step; what a
  read between its batches does is stated by `Replica.SnapshotBatchIsMissedIff`.

## Model

| member | source | states |
|---|---|---|
| SyncPlan.MergeBucketParameters | crates/powersync-mdbx/src/sync_rules/eval.rs:798-817 | merging the parameters of a stream keeps each distinct name and binding once, in first-seen order |
| SyncPlan.MergedMentionsTheSame | crates/powersync-mdbx/src/sync_rules/eval.rs:798-817 | the merged list mentions exactly the name and binding pairs of the original |
| SyncPlan.MergedKeepsNoPairTwice | crates/powersync-mdbx/src/sync_rules/eval.rs:798-817 | no name and binding pair is kept twice |
| SyncPlan.StreamBucketGroups | crates/powersync-mdbx/src/sync_rules/eval.rs:777-796 | every data query lands in exactly one group, with the queries that share its merged parameters and request filter, in declaration order |
| Lowering.ValidateLookupFilters | crates/powersync-mdbx/src/sync_rules/lowering.rs:812-832 | the group-by-group check passes iff each query of the stream repeats, as terms of its request filter, every request predicate of the lookups its parameters refer to |
| Lowering.LowerCanonicalPlan | crates/powersync-mdbx/src/sync_rules/lowering.rs:81-235 | lowering succeeds iff the four versions are supported, stream names are distinct, tables agree and lookup predicates are mirrored; the plan then holds exactly the templates, route indexes, tables, groups and default streams the streams declare, and the lookup tables one lookup per id referred to |
| Routing.AccumulatorBucketsForRow | crates/powersync-mdbx/src/sync_rules/eval.rs:682-735 | the accumulator targets of a row are the instances of all templates whose columns the row has, each once despite duplicate streams |
| Routing.ResolvedQueriesAreCovered | crates/powersync-mdbx/src/sync_rules/eval.rs:517-581 | every query of a bucket that resolves in a lowered plan has a write-side template and, if constrained, a route index over its columns |
| Routing.RequestResolvesIff | crates/powersync-mdbx/src/sync_rules/eval.rs:517-534 | for a lowered plan a bucket request resolves iff some group of its stream has the requested index and as many parameters as there are values |
| Routing.RequestResolvesTo | crates/powersync-mdbx/src/sync_rules/eval.rs:535-581 | the bucket has one query per data query of that group, in order, with its type, filters and projection; each constraint column has the value given at the last group parameter with the name of the last query parameter over that column |
| Routing.WriteAndReadPlansAgree | crates/powersync-mdbx/src/sync_rules/eval.rs:662-754 | for a lowered plan, a resolvable bucket and any row: the row is accounted under a query, and indexed under its constraints, iff the constraints hold; the read side agrees iff no constraint holds merely through a JSON array |
| Routing.ArrayRouteMatchesOnly | crates/powersync-mdbx/src/sync_rules/eval.rs:819-828 | a concrete row whose JSON-array route value matches a query but is neither accounted nor indexed under it |
| Accounting.TouchedIff | crates/powersync-mdbx/src/replication/ingest/accumulators.rs:474-491 | a document is counted under a query iff a template of its type has the columns, filters and projection of the query, the row has exactly its constraint values, and its row filter, if any, is true of the row |
| Accounting.StepKeepsSound | crates/powersync-mdbx/src/replication/ingest/current_state.rs:68-205 | every put, remove and clear keeps every current accumulator equal to a recomputation over the documents |
| Accounting.AccumulatorsEqualRecomputation | crates/powersync-mdbx/src/replication/ingest/accumulators.rs:455-625 | in every state reachable from the empty store each accumulator holds the count and wrapping checksum of the matching documents, and no subtraction meets a zero count |
| Accounting.AssumeNewIsExactIffNotCounted | crates/powersync-mdbx/src/replication/ingest/current_state.rs:187-205 | a put that wrongly claims to be new keeps a key exact iff the document it overwrites was not counted under that key |
| Accounting.FalselyNewRowCountsTwice | crates/powersync-mdbx/src/replication/ingest/current_state.rs:187-205 | a concrete row put twice as new that its accumulator counts twice |
| Checkpoints.MatchingTargets | crates/powersync-mdbx/src/replication/ingest/accumulators.rs:474-491 | the targets of a row that also pass the residual filter, each once |
| Checkpoints.CollectPut | crates/powersync-mdbx/src/replication/ingest/accumulators.rs:527-590 | collecting with the projection memo adds, under each matching target, the checksum of that target's own projection, once |
| Checkpoints.CollectTail | crates/powersync-mdbx/src/replication/ingest/accumulators.rs:133-242 | the tail deltas of an operation are its superseded put and, for a remove, the remove itself |
| Checkpoints.BatchedTailIsOneByOne | crates/powersync-mdbx/src/replication/ingest/accumulators.rs:120-131 | adding the collected deltas of a whole transaction equals updating the tail accumulators operation by operation |
| Checkpoints.PersistTail | crates/powersync-mdbx/src/replication/ingest/tail_log.rs:77-150 | the loop that collects tail deltas per transaction and writes each key once equals the one-by-one update |
| Checkpoints.WriteCurrent | crates/powersync-mdbx/src/replication/ingest/accumulators.rs:592-625 | the write-back loop adds, subtracts, and resets to empty exactly on count underflow |
| Checkpoints.AddCurrentDocument | crates/powersync-mdbx/src/replication/ingest/accumulators.rs:394-407 | adding a document by deltas equals the one-step update |
| Checkpoints.RemoveCurrentDocument | crates/powersync-mdbx/src/replication/ingest/accumulators.rs:409-426 | removing a document by deltas equals the one-step update, underflow reset included |
| Checkpoints.AddSnapshotBatch | crates/powersync-mdbx/src/replication/ingest/store.rs:424-540 | one delta write for a whole snapshot batch equals adding its rows one by one |
| Serving.HoldsIff | crates/powersync-mdbx/src/sync_rules/eval.rs:49-80 | a bucket holds a document iff the row filter, if any, of the first query of its type whose constraints it meets is true of the row |
| Serving.ViewIs | crates/powersync-mdbx/src/sync_rules/eval.rs:82-100 | a document is among the rows of a bucket iff it passes in that sense, and it is shown as the first query over its type projects it |
| Serving.ServedIs | crates/powersync-mdbx/src/storage/wire_mdbx.rs:468-578 | what one operation sends a bucket, from the documents before it: a put of a row it holds, a remove of a row it held, or nothing, with subject, data and checksum; a remove of an unknown row goes to the buckets its route fields meet |
| Serving.ServedStepConverges | crates/powersync-mdbx/src/storage/wire_mdbx.rs:468-578 | the entries of one operation take a client from the bucket's rows before it to the rows after it, whatever it does to routes or filters |
| Serving.ClientConverges | crates/powersync-mdbx/src/storage/wire_mdbx.rs:468-578 | a client at any point that applies the served entries of every later operation ends with exactly the projected current documents |
| Conservation.RunConserves | crates/powersync-mdbx/src/replication/ingest/accumulators.rs:133-231 | over every run of derived operations, count and checksum of current plus tail grow by the served entries less one count and one remove checksum per put that takes a row out; the count agrees with the entries iff there is no such put, the checksum iff the remove checksums of such puts cancel out |
| Conservation.MovedOutRowMiscounts | crates/powersync-mdbx/src/replication/ingest/accumulators.rs:143-195 | a concrete put that moves a row out: one entry is served, the count stands still and the checksum does not follow |
| Conservation.UniqueTarget | crates/powersync-mdbx/src/sync_rules/eval.rs:61-80 | in a well-shaped bucket the query that serves a row is the only accumulator key of the bucket the row is counted under |
| Conservation.ShapeDecidesAccounting | crates/powersync-mdbx/src/sync_rules/eval.rs:690-735 | a bucket's accumulators account for every served row iff its queries over one type are equal, or exclude each other and project alike |
| TailLog.OpIndexedIff | crates/powersync-mdbx/src/replication/ingest/tail_log.rs:386-430 | an operation is filed under an index name the bucket reads iff its old or new route values are those of a query of the bucket over its type |
| TailLog.ScalarEffectIsReached | crates/powersync-mdbx/src/storage/wire_mdbx.rs:468-500 | an operation on scalar route values that affects a bucket is one its index names find |
| TailLog.SelectionIsDeltaIff | crates/powersync-mdbx/src/storage/wire_mdbx.rs:439-450 | reading only the operations the index selects serves the same entries as reading all iff each affecting operation has the route values of a query; otherwise fewer |
| TailLog.OpLog.Append | crates/powersync-mdbx/src/replication/ingest/tail_log.rs:77-140 | operations get consecutive ids, and op, references and index entries stay exact |
| TailLog.OpLog.Prune | crates/powersync-mdbx/src/replication/ingest/tail_log.rs:182-281 | pruning keeps exactly the ids above both floors, with every index entry of a dropped op gone, whatever the chunk size |
| TailLog.ScanIndex | crates/powersync-mdbx/src/replication/ingest/tail_log.rs:454-521 | the bounded scan completes iff the entries fit its budget, and then found them all |
| TailLog.BucketTailIndexKeys | crates/powersync-mdbx/src/storage/wire_mdbx.rs:439-450 | the index names of a bucket are those of its queries, once each |
| TailLog.OpLog.Collect | crates/powersync-mdbx/src/replication/ingest/store.rs:1661-1683 | the collection completes iff the scan budget covers the entries under all names of the bucket, and then finds exactly the retained operations after the cursor filed under one of them |
| StreamLines.ChunkIterator.constructor | crates/powersync-mdbx/src/protocol/messages.rs:968-1048 | a new iterator over some views has to give their checkpoint line, the pages of every view with its page size and start cursor, and one completion |
| StreamLines.ChunkIterator.Next | crates/powersync-mdbx/src/protocol/messages.rs:1050-1099 | each call gives the next line of that stream, and none once it is exhausted |
| StreamLines.ChunkIterator.Drain | crates/powersync-mdbx/src/protocol/messages.rs:1050-1099 | the iterator ends, having given every line once and in order |
| StreamLines.PagingPreservesEntries | crates/powersync-mdbx/src/protocol/messages.rs:1059-1083 | pages hold the page size of entries, the last perhaps fewer but some, concatenate to the entry list, start where the one before ended, and say has_more iff another follows |
| StreamLines.BuildViews | crates/powersync-mdbx/src/storage/wire_mdbx.rs:225-268 | one payload and final cursor per bucket; the stream ends at the largest last op id |
| StreamLines.StreamCarriesEachView | crates/powersync-mdbx/src/protocol/messages.rs:968-1099 | the stream of some views carries for each bucket exactly the paging of its entries, with start cursor and page size by kind of read, and folding the lines is receiving those entries |
| StreamLines.StreamIsFramed | crates/powersync-mdbx/src/protocol/messages.rs:758-785 | a stream starts with its only checkpoint, for its last op id and advertising each view in order, ends with its only completion of the same op id, and has only data of its buckets between |
| StreamLines.ServeBuckets | crates/powersync-mdbx/src/storage/wire_mdbx.rs:199-300 | a read of several buckets drains to the stream of their payloads and ends each bucket at its last op id |
| StreamLines.FullSnapshotIsSound | crates/powersync-mdbx/src/protocol/messages.rs:975-1012 | with a positive last op id the emitted checksums add up to the advertised one, op ids are consecutive and end at the last, the range never saturates, and CLEAR comes first iff it is always sent, a reset is required or the tail checksum is not zero |
| StreamLines.Signed32IsTwosComplement | crates/powersync-mdbx/src/protocol/messages.rs:178-180 | the advertised checksum is the 32-bit one read as a signed integer |
| StreamLines.ResetClearsIffNumbered | crates/powersync-mdbx/src/storage/wire_mdbx.rs:316-375 | a required reset reaches the client as a leading CLEAR iff the last op id is positive |
| StreamLines.ResetWithoutClear | crates/powersync-mdbx/src/storage/wire_mdbx.rs:316-375 | a concrete required reset of an empty store that sends nothing |
| Replica.AccumulatorsAreRows | crates/powersync-mdbx/src/replication/ingest/accumulators.rs:455-625 | the current accumulators of a bucket add up to the count and checksum of the entries of its rows |
| Replica.StoredCountBound | crates/powersync-mdbx/src/storage/wire_mdbx.rs:340-344 | the current counts of a bucket never exceed the number of documents, so a cursor never outruns the log |
| Replica.SnapshotBuildsViewIff | crates/powersync-mdbx/src/protocol/messages.rs:985-1012 | a full snapshot of some documents leaves the client with the bucket rows, from anything after CLEAR and from nothing without it, iff they include every document the bucket holds |
| Replica.DeltaRead | crates/powersync-mdbx/src/storage/wire_mdbx.rs:350-362 | a read from a resumable cursor serves exactly the operations after it |
| Replica.ReadConverges | crates/powersync-mdbx/src/replication/ingest/store.rs:1620-1747 | whichever path a read takes - delta, first snapshot, stale cursor, exhausted scan budget - the client ends with the bucket's rows and an in-step cursor |
| Replica.WriteKeepsSynced | crates/powersync-mdbx/src/replication/ingest/store.rs:274-370 | a source transaction keeps every resumable client on course to the new rows |
| Replica.PruneKeepsSynced | crates/powersync-mdbx/src/replication/ingest/tail_log.rs:182-281 | pruning never leaves a resumable cursor with a gap |
| Replica.RebuildKeepsSynced | crates/powersync-mdbx/src/replication/ingest/store.rs:771-817 | a cursor of an earlier generation is reset, never taken for one of the rebuilt store |
| Replica.EveryReadShowsTheBucket | crates/powersync-mdbx/src/storage/wire_mdbx.rs:199-300 | over every interleaving of transactions, pruning, rebuilds and reads, a client that starts empty holds exactly the bucket's rows after each read |
| Balance.ReadAdvertisesLedger | crates/powersync-mdbx/src/storage/wire_mdbx.rs:316-375 | whichever path a read takes, it advertises the count and wrapping checksum of current plus tail over the queries of the bucket |
| Balance.ReadBalances | crates/powersync-mdbx/src/storage/wire_mdbx.rs:316-375 | after any read the checksum of the client is that of the ledger, off by the unaccounted remove checksums served since its last snapshot |
| Balance.EveryReadBalances | crates/powersync-mdbx/src/storage/wire_mdbx.rs:199-300 | over every interleaving, the signed checksum of a client equals the advertised one after every snapshot read, and after a delta read iff the remove checksums of moved-out rows served since its last snapshot sum to 0 modulo 2^32 |
| Balance.MovedOutRowLeavesDrift | crates/powersync-mdbx/src/storage/wire_mdbx.rs:468-500 | a concrete history - read, row moved out by its filter, read - after which the client does not have the advertised checksum |
| Replica.StreamIsTheReadMove | crates/powersync-mdbx/src/protocol/messages.rs:1050-1099 | folding the lines of a stream over several buckets is, for each bucket, the read step of the histories |
| Replica.SnapshotShowsReachedOnly | crates/powersync-mdbx/src/replication/ingest/store.rs:1708-1737 | a snapshot read shows the rows of the bucket iff each has the route values of a query: a row that matches only as a JSON array is served by no read |
| Replica.ArrayRowIsNeverRead | crates/powersync-mdbx/src/replication/ingest/store.rs:1620-1747 | a concrete store with such a row: it belongs to the bucket, a first read leaves the client empty, and no index name finds its put |
| Replica.HoldOpenExactlyOnce | crates/powersync-mdbx/src/http/sync_stream.rs:583-651 | follow-up reads, each from the previous final cursor and none reset for its scan budget, together send the entries of one read from the first cursor, if that is positive and still resumable at the end: no gap, no repeat |
| Replica.HoldOpenAfterSnapshot | crates/powersync-mdbx/src/http/sync_stream.rs:583-651 | after a first read of any kind, from cursor zero or reset, follow-up reads send what it sent and then every later operation once |
| Replica.SnapshotBatchIsMissedIff | crates/powersync-mdbx/src/replication/ingest/store.rs:424-540 | a client that resumes a cursor taken between two snapshot batches is never reset and is in step iff its bucket holds no row of the later batch |
| Replica.SnapshotBatchIsMissed | crates/powersync-mdbx/src/replication/ingest/tail_log.rs:283-325 | a concrete batch of one row that such a client misses |
| HoldOpen.BodyStream.Next | crates/powersync-mdbx/src/http/sync_stream.rs:583-651 | chunks are sent once and in order; the sources taken and the cursors reached are those of polling storage tick by tick from the cursors before; the call ends without a chunk only without hold-open, at the limit or when storage fails |
| HoldOpen.PolledAreAnswers | crates/powersync-mdbx/src/http/sync_stream.rs:593-647 | each source taken is the answer of storage at its tick to the cursors asked, with its chunks and ending at its final or else latest cursors, from which the next question is asked; every answer with new cursors is taken and no other |
| HoldOpen.BodyStream.Send | crates/powersync-mdbx/src/http/sync_stream.rs:583-651 | sent to the end, the chunks are the concatenation of the first source and of the answers of storage from consecutive cursors |
| HoldOpen.BodyStream.constructor | crates/powersync-mdbx/src/http/sync_stream.rs:554-581 | a body stream starts with all chunks of its first source pending |
| HoldOpen.CartesianProduct | crates/powersync-mdbx/src/http/sync_stream.rs:1112-1130 | the nested loops build the product in order |
| HoldOpen.ProductIsAllChoices | crates/powersync-mdbx/src/http/sync_stream.rs:1112-1130 | the product holds exactly the choices of one value per parameter, as many as the option counts multiply to |
| HoldOpen.SizeCheckIsExact | crates/powersync-mdbx/src/http/sync_stream.rs:1042-1055 | the saturating size check refuses exactly the requests over the limit, unless the limit is the machine maximum |
| CurrentTable.CurrentState.PutDocument | crates/powersync-mdbx/src/replication/ingest/current_state.rs:187-261 | a put leaves exactly the new documents and their route entries in the table, no stale entry of the replaced version; a document that cannot be encoded changes nothing |
| CurrentTable.CurrentState.DeleteDocument | crates/powersync-mdbx/src/replication/ingest/current_state.rs:263-283 | a delete takes out the document and all its route entries and nothing else |
| CurrentTable.CurrentState.ClearDocuments | crates/powersync-mdbx/src/replication/ingest/current_state.rs:349-395 | a clear takes out exactly the documents of its type, or all, with their route entries, and lists them once each |
| CurrentTable.CurrentState.ReadDocument | crates/powersync-mdbx/src/replication/ingest/current_state.rs:413-431 | reading a key decodes the current document under it, or nothing |
| CurrentTable.ScanDocuments | crates/powersync-mdbx/src/replication/ingest/current_state.rs:433-452 | a document scan enumerates the documents of its type, each once |
| CurrentTable.RouteScanFinds | crates/powersync-mdbx/src/replication/ingest/current_state.rs:507-537 | a key lies under a route prefix iff it is the entry of a document indexed under those constraints |
| CurrentTable.KeyNeedsNoDecoding | crates/powersync-mdbx/src/replication/ingest/current_state.rs:657-668 | the document key derived from a route entry without decoding is the key of the decoded document |
| CurrentScans.ScanRoute | crates/powersync-mdbx/src/replication/ingest/current_state.rs:507-537 | a route scan yields exactly the documents indexed under its constraints, once each |
| Scopes.RouteIndexIsExact | crates/powersync-mdbx/src/replication/ingest/current_state.rs:317-347 | for a query the plan knows, the indexed documents are exactly those of its type with its route values |
| Scopes.InScopeIff | crates/powersync-mdbx/src/replication/ingest/store.rs:1708-1737 | the reads of a bucket reach exactly the documents whose route values are those of one of its queries over their type |
| CurrentScans.CollectType | crates/powersync-mdbx/src/replication/ingest/current_state.rs:454-484 | the bounded document scan succeeds iff the bytes of unseen documents fit the budget, and then found them all |
| CurrentScans.CollectRoute | crates/powersync-mdbx/src/replication/ingest/current_state.rs:539-593 | the bounded route scan succeeds iff the bytes of unseen documents fit the budget, and then found them all |
| CurrentScans.GatherBucket | crates/powersync-mdbx/src/replication/ingest/store.rs:1708-1737 | reading a bucket query by query succeeds iff its documents, each read once, fit the budget |
| Scopes.CollectionGathersIff | crates/powersync-mdbx/src/replication/ingest/store.rs:1708-1737 | the collected documents include every document the bucket shows iff each of these has the route values of a query |
| StateStore.MaterializedStore.ApplyOp | crates/powersync-mdbx/src/replication/ingest/current_state.rs:68-185 | completing and applying a put, remove or clear on the stored bytes and accumulators is the one-step update of the model |
| StateStore.MaterializedStore.PersistTransaction | crates/powersync-mdbx/src/replication/ingest/tail_log.rs:57-151 | the two-phase write of a transaction is the model's transaction step on documents, accumulators and log; an operation that cannot be stored changes nothing |
| StateStore.MaterializedStore.Prune | crates/powersync-mdbx/src/replication/ingest/tail_log.rs:182-281 | pruning the objects is the model's pruning step |
| StateStore.AddUp | crates/powersync-mdbx/src/replication/ingest/accumulators.rs:244-265 | the totals of a bucket are the count and wrapping checksum summed over its distinct accumulator keys |
| StateStore.MaterializedStore.ReadBucket | crates/powersync-mdbx/src/replication/ingest/store.rs:1620-1747 | the scan budget decides between delta and reset; a read is refused iff it would exceed the entry or byte budget of its path; otherwise it is a read the protocol of the histories allows |
| Derive.DeriveSyncTailOps | crates/powersync-mdbx/src/replication/ingest/derive.rs:31-124 | the loop derives the operations of every change in order, or the first error |
| Derive.ChangeDerives | crates/powersync-mdbx/src/replication/ingest/derive.rs:38-124 | a change is refused iff a row of it cannot be read or it truncates a materialised public table; a public row change of a materialised table derives the put and remove with the id, route fields and JSON of its rows; anything else derives nothing |
| Derive.DerivationFailsIff | crates/powersync-mdbx/src/replication/ingest/derive.rs:31-124 | a batch is refused iff one of its changes is |
| Derive.MirroredDocument | crates/powersync-mdbx/src/replication/ingest/derive.rs:40-59 | the document of a mirrored row has the object type of its table and the id, route fields and JSON of the row |
| Derive.NoClearIsDerived | crates/powersync-mdbx/src/replication/ingest/derive.rs:106-118 | no clear is ever derived |
| Derive.DerivationMirrorsIff | crates/powersync-mdbx/src/replication/ingest/derive.rs:60-92 | applying the derived operations keeps the documents a mirror of the source rows iff an update that changes a row's id carried the old row |
| Derive.InsertIsNew | crates/powersync-mdbx/src/replication/ingest/derive.rs:40-59 | an insert into a mirrored table is absent from the documents, so it may claim to be new |
| Derive.UntoldRenameLeavesOldRow | crates/powersync-mdbx/src/replication/ingest/derive.rs:60-92 | a concrete update of an id without its old row that leaves the old document behind |
| Derive.DerivedRunMirrorsIff | crates/powersync-mdbx/src/replication/ingest/derive.rs:31-124 | over every list of source events the documents stay a mirror of the source throughout iff the stream carried the old row of every update that changed an id |
| Derive.DerivedBatchConserves | crates/powersync-mdbx/src/replication/ingest/derive.rs:31-124 | the operations derived from such events are honest row operations, so the store mirrors the source and every well-shaped bucket is accounted for as in RunConserves |
| Decoder.BatchDecoder.PushStreamEvent | crates/powersync-mdbx/src/replication/ingest/decoder.rs:37-96 | one event moves the decoder by its step or is refused and leaves it as it was |
| Decoder.BatchDecoder.DecodeWalPayload | crates/powersync-mdbx/src/replication/ingest/decoder.rs:98-189 | one WAL payload is learned, pushed into the open transaction, ignored or refused |
| Decoder.TransactionAssembly | crates/powersync-mdbx/src/replication/ingest/decoder.rs:37-201 | a run without error emits one batch per Begin..Commit stretch with exactly its changes; every Begin, Commit and change lies in one stretch or the open one |
| Decoder.NoChangeLost | crates/powersync-mdbx/src/replication/ingest/decoder.rs:37-201 | the changes of all batches followed by the open transaction are the changes of the stream, in order |
| Decoder.EveryMessageIsOneChange | crates/powersync-mdbx/src/replication/ingest/decoder.rs:98-201 | in a run without error the changes are one for each insert, update, delete and truncate message, in order, each of its kind with the rows and position of the message and the relation last described under its id; nothing else adds a change |
| Decoder.MessageRefusedIff | crates/powersync-mdbx/src/replication/ingest/decoder.rs:98-189 | a message is refused, with which error, iff it does not parse, is unsupported, mentions a relation never described, is an update or delete under an unknown replica identity, or is a row message outside a transaction |
| Decoder.FramingRefusedIff | crates/powersync-mdbx/src/replication/ingest/decoder.rs:37-96 | other events are refused iff a Begin finds a transaction open or a Commit finds none |
| Ingest.IngestLoop.Receive | crates/powersync-mdbx/src/replication/runner.rs:568-591 | one turn decodes, persists what a commit completes and only then acknowledges it |
| Ingest.IngestLoop.Drive | crates/powersync-mdbx/src/replication/runner.rs:568-601 | the loop stops at the first refused event; the store holds the batches of the events taken, and only durable LSNs were acknowledged |
| Ingest.MoveKeepsSound | crates/powersync-mdbx/src/replication/runner.rs:482-601 | every step of source, slot, link and store keeps the protocol invariant |
| Ingest.NoLostTransaction | crates/powersync-mdbx/src/replication/runner.rs:482-601 | after every history of commits, redeliveries, persists, acknowledgements, crashes and restarts the confirmed LSN is durable and the store holds exactly the source transactions up to the durable LSN, once and in order |
| Ingest.WireIsDecodedIff | crates/powersync-mdbx/src/replication/ingest/decoder.rs:37-96 | the messages between Begin and Commit may be sent for a transaction iff the decoder makes of them exactly one batch, that transaction |
| Ingest.ValidateSlot | crates/powersync-mdbx/src/replication/runtime.rs:209-260 | the slot check accepts iff there is an inactive pgoutput slot of this database whose listed positions each read as an LSN at or below the durable one; each refusal names its reason |
| Ingest.SlotCheckGuards | crates/powersync-mdbx/src/replication/runtime.rs:248-257 | a slot that lists a confirmed position above the durable LSN is refused as ahead, so an accepted slot may continue |
| Ingest.RestartIsRefusedIff | crates/powersync-mdbx/src/replication/runtime.rs:209-260 | after every such history a restart is refused iff the slot is missing, mismatched or active, never over its positions; streaming can begin at the first transaction not stored, and no received message is refused |
| Bootstrap.BootstrapState.Reconcile | crates/powersync-mdbx/src/replication/snapshot.rs:295-376 | an unowned, active or mismatched slot is refused untouched; otherwise the slot is dropped and the store cleared with the intent recorded |
| Bootstrap.BootstrapState.ScanTable | crates/powersync-mdbx/src/replication/snapshot.rs:163-189 | the batch loop stores every row of a table once, in the least number of batches |
| Bootstrap.BootstrapState.Attempt | crates/powersync-mdbx/src/replication/snapshot.rs:39-216 | whenever the process dies, the complete marker stands only over the whole exported snapshot at its consistent point; a completed store is never touched |
| Bootstrap.BootstrapState.Restarts | crates/powersync-mdbx/src/replication/snapshot.rs:87-216 | through any sequence of crashes and restarts a start that lives long enough completes, and completion is never undone |
| Keys.IndexNameUnique | crates/powersync-mdbx/src/replication/ingest/keys.rs:95-125 | index names with what follows them determine kind, type and constraints: injective and prefix-free |
| Keys.BuildIndexName | crates/powersync-mdbx/src/replication/ingest/keys.rs:95-125 | the buffer-appending builder yields that name |
| Keys.DocKeysCollideIff | crates/powersync-mdbx/src/replication/ingest/keys.rs:40-48 | two object types have documents that share a key iff one type is the other followed by a colon and more |
| Keys.CollidingDocuments | crates/powersync-mdbx/src/replication/ingest/keys.rs:40-48 | two concrete documents under one key |
| Keys.DocScanExact | crates/powersync-mdbx/src/replication/ingest/keys.rs:32-48 | without colons in types a document prefix holds exactly its type's keys |
| Keys.RouteScanExact | crates/powersync-mdbx/src/replication/ingest/keys.rs:50-70 | a route prefix holds exactly the keys of its type and constraints |
| Keys.DocAndRouteKeysDisjoint | crates/powersync-mdbx/src/replication/ingest/keys.rs:32-70 | document and route keys never meet |
| Keys.LookupScanExact | crates/powersync-mdbx/src/replication/ingest/keys.rs:134-153 | a lookup prefix with a fixed number of values never returns another key's rows |
| Keys.LookupKeyInjective | crates/powersync-mdbx/src/replication/ingest/keys.rs:143-153 | lookup keys determine lookup, values and row, whatever the numbers of values |
| Keys.OpIdKeysOrdered | crates/powersync-mdbx/src/replication/ingest/keys.rs:72-78 | padded op-id keys sort as numbers and parse back |
| Keys.EntryScanExact | crates/powersync-mdbx/src/replication/ingest/keys.rs:155-168 | an index entry prefix holds exactly its own op ids, and the parser returns them |
| Codec.AccumulatorRoundTrip | crates/powersync-mdbx/src/replication/ingest/accumulators.rs:372-392 | encoding and decoding a 12-byte accumulator undo each other, both ways round |
| Codec.DocumentRoundTrip | crates/powersync-mdbx/src/replication/ingest/current_state.rs:698-771 | decoding an encoded document returns it |
| Codec.DecodedDocumentIsLayout | crates/powersync-mdbx/src/replication/ingest/current_state.rs:743-771 | the binary decoder accepts only complete layouts, every byte accounted for |
| BatchCodec.BatchRoundTrip | crates/powersync-mdbx/src/replication/ingest/batch_codec.rs:27-95 | decoding an encoded commit batch returns it iff it has fewer than 2^32 changes; a longer one is refused |
| BatchCodec.DecodedChangesAreWhole | crates/powersync-mdbx/src/replication/ingest/batch_codec.rs:47-95 | an accepted change list is a count and that many decoding chunks with nothing after them |
| BatchCodec.EncodeBatchBytes | crates/powersync-mdbx/src/replication/ingest/batch_codec.rs:27-45 | the buffer-appending encoder yields the layout |
| BatchCodec.DecodeChangesAt | crates/powersync-mdbx/src/replication/ingest/batch_codec.rs:47-95 | the cursor-driven change loop reads what the layout says, within bounds, or refuses |
| BatchCodec.ReadUintAt | crates/powersync-mdbx/src/replication/ingest/batch_codec.rs:137-174 | a fixed-width read at the cursor never passes the end |
| WhereText.SplitTopLevelKeyword | crates/powersync-mdbx/src/sync_rules/query.rs:835-892 | the byte loop splits at whole-word keywords outside quotes and parentheses |
| WhereText.SplitOfConjunction | crates/powersync-mdbx/src/sync_rules/query.rs:835-892 | splitting `p AND q` gives the parts of p then the parts of q whenever p ends outside quotes and parentheses |
| WhereText.SplitUndoesJoin | crates/powersync-mdbx/src/sync_rules/lowering.rs:925-956 | joining single predicates and splitting gives them back |
| Bindings.LiteralRoundTrip | crates/powersync-mdbx/src/sync_rules/query.rs:812-829 | parsing a quoted, escaped literal returns it for every text |
| Bindings.ParseUndoesPrint | crates/powersync-mdbx/src/sync_rules/lowering.rs:1095-1140 | parsing a printed auth, subscription, user-id, JWT, request-parameter or parameter-array binding returns it, for every name |
| Bindings.PrintedIsOnePart | crates/powersync-mdbx/src/sync_rules/query.rs:522-562 | a printed binding ends neutral and is never cut by the AND splitter, whatever its name holds |
| RulesLifecycle.StageAnswers | crates/powersync-mdbx/src/control_plane/mod.rs:813-924 | which requests are invalid, busy, stale, standing or adopted, each as an equivalence |
| RulesLifecycle.CallAnswers | crates/powersync-mdbx/src/control_plane/mod.rs:637-786 | marking, activation and failure succeed iff there is a candidate of the version named, and refuse with the reason otherwise |
| RulesLifecycle.ChangeHasOutcome | crates/powersync-mdbx/src/control_plane/mod.rs:637-924 | what each change leaves as current rules and candidate, with status, operation, contract and failure reason |
| RulesLifecycle.HistoryIsNewest | crates/powersync-mdbx/src/control_plane/mod.rs:1149-1155 | over every run of calls the history is the newest 64 of the entries it began with and those recorded since, in order |
| RulesLifecycle.LoadingRepairs | crates/powersync-mdbx/src/control_plane/mod.rs:1109-1147 | what loading repairs in any file and what it leaves; repairing twice is repairing once |
| RulesLifecycle.RulesState.StageCandidate | crates/powersync-mdbx/src/control_plane/mod.rs:813-924 | staging answers a standing request, refuses a busy or stale one, or adopts a candidate with the next version; the file changes only with an acknowledged change |
| RulesLifecycle.RulesState.MarkCandidateActivating | crates/powersync-mdbx/src/control_plane/mod.rs:637-679 | marking a candidate keeps it on a mismatch |
| RulesLifecycle.RulesState.ActivatePending | crates/powersync-mdbx/src/control_plane/mod.rs:681-738 | activation swaps plan and content together; a mismatched version drops the candidate from memory |
| RulesLifecycle.RulesState.MarkFailed | crates/powersync-mdbx/src/control_plane/mod.rs:740-786 | failing records the candidate; a mismatched version drops it from memory |
| RulesLifecycle.RulesState.Restart | crates/powersync-mdbx/src/control_plane/mod.rs:934-950 | a restart always loads the file and finds nothing to repair |
| RulesLifecycle.RulesState.PushHistory | crates/powersync-mdbx/src/control_plane/mod.rs:1149-1155 | history keeps its newest 64 entries |
| RulesLifecycle.LifecycleStaysCoherent | crates/powersync-mdbx/src/control_plane/mod.rs:637-786 | over every interleaving with mismatches, failed writes and restarts: active plan compiled from the current content, candidate with its own plan and a higher version, history within its limit |
| RulesLifecycle.VersionsOnlyGrow | crates/powersync-mdbx/src/control_plane/mod.rs:813-924 | through any calls and failed writes, with no restart while the revision in memory is above that of the file, a version given out lies above every version issued or acknowledged before, standing replies included |
| RulesLifecycle.VersionIsReusedIff | crates/powersync-mdbx/src/control_plane/mod.rs:934-950 | a version is given out both before and after a restart iff the restart came while the revision in memory was above that of the file and any version is given out after it |
| RulesLifecycle.VersionNamesOneContent | crates/powersync-mdbx/src/control_plane/mod.rs:813-924 | through runs without such a restart two acknowledgements of one version acknowledge the same rules |
| RulesLifecycle.ForgottenVersionIsReused | crates/powersync-mdbx/src/control_plane/mod.rs:833-838 | a concrete run - failed write, acknowledged retry, restart, other request - that acknowledges one version for two contents |
| RulesLifecycle.RefusalKeepsCandidateIff | crates/powersync-mdbx/src/control_plane/mod.rs:681-786 | a refused call keeps the candidate iff it is not an activation or failure naming another version |
| RulesLifecycle.RefusedActivationDropsCandidate | crates/powersync-mdbx/src/control_plane/mod.rs:681-700 | a concrete refused activation that takes the candidate along |
| RulesLifecycle.StaysSettledIff | crates/powersync-mdbx/src/control_plane/mod.rs:813-924 | a settled request stays settled across a call iff the call neither takes its candidate away nor activates other rules |
| RulesLifecycle.RetryIsIdempotent | crates/powersync-mdbx/src/control_plane/mod.rs:813-924 | a request on an explicit base can be repeated through any such run without changing anything |
| Lsn.PrintReadsBack | crates/powersync-mdbx/src/replication/postgres.rs:32-49 | parsing the printed form of any u64 returns it |
| Lsn.NoHalfCarries | crates/powersync-mdbx/src/replication/postgres.rs:127-133 | neither half of an accepted text carries into the other word |
| Lsn.PrintsBackIffCanonical | crates/powersync-mdbx/src/replication/postgres.rs:41-49 | an accepted text prints back as itself iff both halves are canonical: a plus sign, lower case and leading zeros are accepted too |
| Lsn.AcceptedButNotPrinted | crates/powersync-mdbx/src/replication/postgres.rs:41-49 | a concrete text that is accepted and prints back otherwise |

## Left out

- Parameter lookup state (`lookup_state.rs`): derivation and storage of lookup rows; only its key format is modelled.
- Compilation of YAML and SQL into a canonical plan: lowering starts from the canonical plan, with lookup queries and request-filter terms read by parameters of the model; `parse_parameter_query_column_binding` and the base64 form are not modelled.
- JSON and BSON line encoding, HTTP handlers, authentication and metrics: they carry the modelled lines unchanged.
- Tail CLEAR operations: never derived (`Derive.NoClearIsDerived`), so run-level theorems take puts and removes only; clears stay in the accumulator and route-index invariants and in `StateStore.MaterializedStore.ApplyOp`.
- 64-bit overflow of accumulator counts and op ids: counts are natural numbers, where the service reports an error on count overflow.
- The legacy index backfill and the legacy JSON document form, beyond being an opaque decoder.
- Wake-up of hold-open streams: which cursor changes end a wait is an answer of the environment in `HoldOpen`.
- Ingest.RestartIsRefusedIff: takes from PostgreSQL that it lists positions in their printed form and the restart position at or below the confirmed one.
- Replication event limits, logging and the readiness flag of the runner.
- Timestamps in sync-rules entries.
- Keys.OpIdKeysOrdered: orders byte strings as the model compares them; that MDBX compares keys this way is not modelled.
- CurrentTable.CurrentState.PutDocument: the table holds only document and route entries; other key families of the same MDBX table are not modelled beside them.
- StateStore.MaterializedStore.ReadBucket: reads one bucket; that the buckets of one request share a budget is not modelled, and document types without a colon are required as everywhere in the table.
- Bootstrap.BootstrapState.Attempt: publication coverage and source identity hashing are not modelled; an identity is a string and intents are a function of it.
- Ingest.NoLostTransaction: a transaction's messages decode to its changes for the receiver's known relations, as PostgreSQL promises; streaming of in-progress transactions is not enabled by the service.
- Replica.EveryReadShowsTheBucket: writes with JSON-array route values are left out of its histories; `Replica.SnapshotShowsReachedOnly` and `Replica.ArrayRowIsNeverRead` show that it fails with them.
- Replica.HoldOpenExactlyOnce: compares with one read at the end, so the first cursor must still be resumable then; a follow-up that is reset starts over, as in `Replica.HoldOpenAfterSnapshot`.
- Derive.DerivedBatchConserves: events of one materialised table row each; truncates and changes of other tables derive nothing.
