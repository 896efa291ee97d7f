# s3pgstore: a verified model

s3pgstore keeps parquet files in S3 and their catalog in PostgreSQL. Its guarantees come from the
order of steps across goroutines and across processes, so most of this project is three transition
systems with the properties that hold in every reachable state of each, whatever the interleaving,
the failures and the cancellations.

**The read pipeline** (`ReadPipeline` and the `Read*` modules). A fetcher, one download task per
file, W round-robin decode workers, an emit loop and the caller's cancellation. They share a
body-slot semaphore, pool slots, bounded queues (capacity 0 is a rendezvous), a byte budget with a
one-slot bell per worker, and a context that is cancelled with a cause. One action is one channel
operation, critical section, store, GET result or return of the consumer. The main results: the
emissions refine the sequential program; no partition is emitted partially; every run ends; exactly
when nobody can deadlock, and exactly when nothing can be lost; two complete reads of the same files
agree; the byte budget is exact, what is held in memory is bounded, the bell loses no
wake-up and no slot is given back twice.

**The poll pipeline** (`PollPipeline` and the `Poll*` modules). The same machinery at file grain over
a source of unknown length, with per-worker input channels, and a bound on its steps in the number of
files that the source gave; and, in `Poll`, the paged iterators `PollIter` and `TailIter` as loops over
a growing gap-free feed.

**The write protocol** (`Catalog` and the `Catalog*` modules). Any number of writers, sequencers and
GC passes over one catalog, one set of S3 objects and a clock. Each SQL statement sees what is
committed when it runs (READ COMMITTED); row locks last to the end of the transaction; the advisory
lock is taken in one statement and the offsets are assigned in the next, so on two different
snapshots. Writers may crash at any step, roll back after the PUT, get an error from a PUT that
lands later or from a COMMIT that took effect. Besides what never happens, `CatalogProgress` shows what
can: from every reachable state a write that the rules allow can commit, a drain can number every row,
and a stale orphan can be reclaimed.

The rest is in the form the code has it, as methods proved against specifications: in-place dedup
(`Dedup`), partition preparation (`Prepare`), the pipeline's objects and loops (`ReadPrimitives`),
filter translation (`Filter`), view maintenance (`Views`), keys and paths (`KeyCodec`) and the rebuild
command (`Rebuild`), with the exact conditions under which each of them succeeds.

Four assumptions about the environment are named fields of the configurations, not hidden
preconditions, and each is shown to be needed, for every configuration:

- `promptGet` (read and poll): a GET returns a context-class error only when the pipeline's own
  context is already cancelled. The pipelines skip `recordHardErr` for such errors, and the rate
  limiter can return one early. Without it a read can come back complete and empty
  (`ReadConditions.EarlyContextErrorLosesData`), a poll can end in silence, and both can block; the poll
  pipeline then hangs even when the caller cancels (`PollLimits.EarlyGetErrorHangs`).
- `promptSource` (poll): the same of the polls of its source.
- `timely` (write protocol), write by write: the transaction and the PUT are over within GC's `Grace`
  of the write's `pending_writes` row. What a timely write committed is safe whatever other writes do.

Where the code and its documentation disagree, the model follows the code:

- the read fetcher's comment says that a body slot leaked by a skipped submission is harmless and
  cannot deadlock; that rests on `promptGet`, and without it fails as soon as there is a second file
  (`ReadConditions.NeverStuckExactly`).
- `PollIter` is documented as covering `[since, until)`; with a first page wholly below offset 1 it
  yields nothing (the `Agrees` clause of `PollIter` has the exact condition).
- the rebuild command's summary is documented as counting inserted partitions; it counts every
  partition row it wrote, inserted or updated (`Rebuild`'s `partitionsInserted` clause).

To check the project: `dafny verify dfyconfig.toml`.

## Model

| member | source | states |
|---|---|---|
| ReadTheorems.StepKeepsInv | read.go:705-893 | every action of every actor keeps the pipeline's invariant |
| ReadTheorems.RefinesSequentialRead | read.go:705-893 | in every reachable state the emitted batches are a prefix of the sequential program's: partitions in lex order, each with all its files fetched, decoded, sorted and deduplicated, and the greatest file version |
| ReadTheorems.FinishedMeans | read.go:841-892 | at the end: an error was reported last with the recorded cause, or the consumer broke off, or every partition was emitted |
| ReadTheorems.CallShape | read.go:860-892 | emitOne is called for batches 0, 1, 2, ... in order; only the last call can be an error or be answered with false |
| ReadTheorems.FirstCauseSticks | read.go:758-775 | along any run the first recorded cause is never replaced and no call is taken back |
| ReadTheorems.NoPartialPartition | read.go:1053-1110 | a batch that is emitted holds every file of its partition, each downloaded and decoded |
| ReadFlow.DoneAndAliveIsComplete | iter_pipeline_shared.go:149-155 | a closed done channel with a live context means that every body of the partition landed, which rests on recording the cause before marking |
| ReadTheorems.BudgetIsExact | iter_pipeline_shared.go:200-251 | bufferedBytes is the sum of the units reserved and not yet released, and exceeds the cap only while exactly one non-empty unit is held |
| ReadBounds.ReadAheadIsBounded | read.go:742-775 | in every reachable state no queue exceeds its configured size, no worker is further ahead of the emit loop than that allows, bodies in memory and on their way fit the body slots, and tasks the pool |
| ReadEmit.BellsOfWorker | iter_pipeline_shared.go:211-236 | a worker's step never leaves a parked worker admitted without a token in its bell |
| ReadEmit.BellsOfEmit | iter_pipeline_shared.go:240-251 | nor does a step of the emit loop: no wake-up is lost to coalescing |
| ReadProgress.StepDecreases | read.go:705-893 | every action decreases a measure |
| ReadProgress.EveryRunEnds | read.go:705-893 | no run is longer than a bound fixed by the configuration |
| ReadLiveness.NeverStuck | read.go:748-757 | under the GET hypothesis, when every partition that the read gets to fits the body slots, every state but the last has an ordinary action enabled: no deadlock |
| ReadLiveness.EverySlotReturns | iter_pipeline_shared.go:103-106 | when every partition was handed over no body slot is held |
| ReadLiveness.ReleaseNeverWaits | iter_pipeline_shared.go:103-106 | whoever gives a slot back finds it held, and never waits in the blocking receive: none is given back twice |
| ReadLimits.OversizedIsNeverRead | read.go:742-757 | a partition with more files than body slots is never handed over, nor any after it |
| ReadConditions.FloorIsExactlyNeeded | read.go:752-757 | under the GET hypothesis, freedom from deadlock holds in all reachable states if and only if every partition larger than the cap lies behind one that does not decode; when all decode, if and only if the cap is floored |
| ReadConditions.LostFileBlocksForever | read.go:1161-1166 | without the hypothesis one lost file among two or more leaves the pipeline waiting for a partition that nobody downloads any more |
| ReadConditions.NeverStuckExactly | read.go:1167-1224 | freedom from deadlock for every configuration: with the hypothesis as above, without it exactly if there is a single file |
| ReadConditions.EarlyContextErrorLosesData | read.go:1206-1211 | without the GET hypothesis every configuration has a run that hands over every partition without any of its records, each call a success |
| ReadConditions.PromptGetIsExactlyNeeded | read.go:1196-1221 | for every configuration the emissions are faithful in all reachable states if and only if the hypothesis holds or no file holds a record |
| ReadDeterminism.ReadIsDeterministic | read.go:906-959 | two complete reads of the same files, listed in any order and run with any parallelism and caps, hand over the same batches |
| ReadDeterminism.BatchesAreReads | dedup.go:35-58 | every batch handed over in any reachable state is the read, in the configured mode, of its files' decoded records laid end to end in file order: all of them as they are with no keys configured, the sorted history, or the latest per entity; with the partition's key and greatest file version |
| ReadDeterminism.TieGoesToLaterKey | read.go:1332-1355 | a default read keeps for each entity a record of the highest version in any file, and on a tie across files the one in the file with the later S3 key |
| ReadPrimitives.BodySlots.constructor | iter_pipeline_shared.go:70-75 | a semaphore of positive capacity, empty |
| ReadPrimitives.BodySlots.TryAcquire | iter_pipeline_shared.go:83-88 | the non-blocking acquire succeeds exactly below capacity and takes one slot |
| ReadPrimitives.BodySlots.Release | iter_pipeline_shared.go:103-106 | gives back one of the slots held |
| ReadPrimitives.WorkerState.ReserveBytes | iter_pipeline_shared.go:200-236 | without a budget or for an empty unit it only reads the context; otherwise it reserves at the first wake-up at which the unit is admitted and not before, and a cancellation ends the wait with nothing reserved |
| ReadPrimitives.WorkerState.ReleaseBytes | iter_pipeline_shared.go:240-251 | gives the bytes back and leaves a token in the bell |
| ReadPrimitives.PartProgress.constructor | read.go:766-775 | a partition starts with no body, nothing completed and an open channel |
| ReadPrimitives.PartProgress.MarkComplete | read.go:1076-1089 | stores the body and closes the channel on the mark that completes the count, on no other |
| ReadPrimitives.PartProgress.DecodePartition | read.go:1332-1357 | decodes landed bodies in order, gives up body and slot whether or not it decodes, fails at the first that does not, then sorts and dedups |
| ReadPrimitives.AllLandedIsPartition | read.go:1332-1357 | with every body landed the loop's result is the sequential read's, and it fails exactly when that read would |
| ReadPrimitives.FileRefStats | read.go:1370-1376 | sums the uncompressed sizes and record counts |
| ReadPrimitives.StatsAreSums | read.go:1370-1376 | the totals of two lists of files add up, and the total of one file is its own two columns |
| ReadPrimitives.AdmittedExactly | iter_pipeline_shared.go:200-236 | in the transition system a worker at its reservation starts to decode exactly if its count is back at zero or has room for the unit, which it then counts; without a budget exactly if the context is alive |
| ReadPrimitives.BodyCap | read.go:748-757 | the cap covers every partition, and is the configured base or the size of some partition |
| Dedup.DedupLatest | dedup.go:110-133 | the in-place pass leaves one survivor per run of equal entities and never overwrites an element it has yet to read |
| Dedup.DedupReplicas | dedup.go:67-92 | the in-place pass keeps the first record of each run of equal entity and version |
| Dedup.SortAndDedupInPlace | dedup.go:35-58 | the array's prefix is the default read, or the history read, of the records it held; with no key functions configured every record stays, in place |
| Dedup.LatestIsCorrect | dedup.go:35-58 | default reads: one record per entity in entity order, of maximal version, the last in input order on ties |
| Dedup.HistoryIsCorrect | dedup.go:35-58 | history reads: one record per entity and version, in that order |
| Dedup.LatestReadUnique | dedup.go:35-58 | the specification of default reads admits one result |
| Dedup.HistoryReadUnique | dedup.go:35-58 | the specification of history reads admits one result |
| Prepare.PreparePartitions | read.go:906-959 | partitions in strictly ascending key order, exactly those that occur, each with all its rows in S3-key order and the greatest version |
| Prepare.PreparedIsOrderIndependent | read.go:906-959 | with distinct S3 keys, every order of the file refs prepares to the same partitions |
| PollFlow.WorkerKeeps | poll.go:1208-1264 | every action of a decode worker keeps the poll pipeline's invariant |
| PollFlow.EmitKeeps | poll.go:980-1009 | every action of the emit loop keeps it |
| PollSteps.FetchKeeps | poll.go:1119-1177 | every action of the fetcher and its source keeps it |
| PollSteps.TaskKeeps | poll.go:1142-1169 | every action of a download task keeps it |
| PollTheorems.RefinesSequentialPoll | poll.go:841-1009 | the emissions are a prefix of the sequential program's on the files the source gave: source order, none skipped, none repeated |
| PollTheorems.CleanEndIsComplete | poll.go:983-1001 | an end without error and without a break comes only with every file given emitted, and, under the source hypothesis, only after the source's own end |
| PollTheorems.CallShape | poll.go:980-1009 | emitOne gets at most one error, last, with the recorded cause, and is not called after it returned false |
| PollTheorems.FirstCauseSticks | poll.go:876-881 | along any run the first recorded cause is never replaced and no call is taken back |
| PollTheorems.DecodeFailureIsTrue | poll.go:957-966 | a recorded decode failure names a file that does not decode |
| PollTheorems.NeverStuck | poll.go:873-880 | with a slot cap of one or more and the GET hypothesis, an ordinary action is enabled until the end, or every file given was handed over and the pipeline waits for its source |
| PollTheorems.BudgetIsExact | poll.go:1236-1262 | the byte count of each worker is exact and exceeds the cap only for a single file |
| PollTheorems.AdmittedExactly | iter_pipeline_shared.go:200-236 | the same admission, file by file |
| PollBounds.ReadAheadIsBounded | poll.go:883-894 | no queue or input exceeds its configured size, and the source is asked for at most a fixed number of files beyond those taken, whatever it could give |
| PollTheorems.EverySlotReturns | poll.go:1236-1250 | when all files given were handed over every body slot is back |
| PollLimits.EarlyGetErrorEndsSilently | poll.go:1154-1158 | without the GET hypothesis one early context error ends the poll silently, with a file given and none handed over |
| PollLimits.PromptIsExactlyNeeded | poll.go:1123-1131 | for every configuration silent truncation is impossible if and only if both hypotheses hold |
| PollLimits.EarlyGetErrorHangs | poll.go:1236-1245 | without the GET hypothesis every configuration can come to a state in which a worker waits to give back a slot that is not held and nobody can move |
| PollLimits.HungForGood | iter_pipeline_shared.go:103-106 | no step, the caller's cancellation included, leads out of such a state |
| PollLimits.NeverStuckExactly | poll.go:873-880 | freedom from deadlock holds in all reachable states if and only if the GET hypothesis does |
| PollProgress.StepLightens | poll.go:841-1009 | every action but the arrival of a file lowers a weight |
| PollProgress.RunIsBounded | poll.go:841-1009 | a run has at most 24 steps for each file given, and W + 31 more |
| Poll.PollOnce | poll.go:144-196 | on a gap-free feed the page is the window of the feed and next is one past its last row; inverted and empty ranges, errors |
| Poll.ReadRows | poll.go:159-191 | the row loop returns the rows and the offset to resume from |
| Poll.PollIter | poll.go:231-302 | every cycle takes the whole page that its own poll saw; the inputs settle the end: the first poll that fails or is cancelled, the consumer's break, or exactly the first empty page or the page that reaches until; finished, it has yielded the whole window as its last poll saw it, and so up to the first tip exactly Poll(since, until), if and only if the first page reaches offset 1 or that window is empty |
| Poll.TailIter | poll.go:339-425 | consecutive rows across pages, empty re-polls and growth; every cycle takes the whole page that its own poll saw from where the last one stopped, also after empty pages; the inputs settle the end, and undisturbed it goes on for all the cycles and then has yielded, of every poll's feed, all that the cycles from there on can cover |
| Poll.TailCatchesUp | poll.go:339-425 | k cycles after any poll, all rows of that poll's feed up to k pages beyond the reader's place are yielded, and all of it once that covers the feed: what is appended later is yielded too |
| Poll.ResumeIsSeamless | poll.go:229-230 | resuming at Offset+1 on a later feed completes the window with no gap and no duplicate |
| Poll.WindowBelowTip | poll.go:569-601 | below OffsetLatest a window is final, and on a gap-free feed every row lies below it |
| Poll.SelectedIsWindow | internal/catalog/sql.go:175-190 | the WHERE and ORDER BY of the poll select a contiguous stretch of a gap-free feed |
| CatalogSteps.CoreStep | write.go:167-301 | every action keeps the invariant of the catalog tables, with no assumption on timing |
| CatalogStorageSteps.StorageStep | write.go:212-289 | every action keeps catalog and S3 in step for every timely write, whatever other writes do |
| CatalogTheorems.FilesNeverLost | gc/gc.go:133-160 | GC never deletes a live file: the committed row of a timely write has its object, with the size and metadata written, however late other writers are |
| CatalogStorageSteps.StaleIsDead | gc/gc.go:205-225 | a timely write's pending row older than the cutoff belongs to no live writer, no PUT in flight and no committed file |
| CatalogTheorems.SweptKeysAreDead | gc/gc.go:238-256 | a timely write's key that GC has in hand will never be written, uploaded or committed |
| CatalogTheorems.NoUntrackedOrphan | write.go:528-559 | every object of a timely write, and every such PUT that may still land, has a committed row or a pending_writes row, through crashes, rollbacks and the pre-PUT cleanup |
| CatalogProgress.OrphanCanBeReclaimed | gc/gc.go:133-160 | a pending row older than Grace that no committing transaction holds can be swept with its object, and with nothing else |
| CatalogLimits.SlowWriterLosesFile | write.go:250-289 | a write that is not timely can commit a file whose object GC has deleted, whatever Grace is |
| CatalogLimits.TimelyIsExactlyNeeded | gc/gc.go:133-160 | write by write: the file committed under a key keeps its object in all reachable states if and only if that write is timely |
| CatalogTheorems.OneFilePerToken | internal/catalog/ddl.go:159-163 | at most one committed file per partition and non-empty token |
| CatalogTheorems.SameTokenSameAnswer | write.go:171-187 | all successful writes of one partition and token returned the same FileID, S3Key and Version |
| CatalogTheorems.RelookFindsWinner | write.go:491-515 | the re-lookup after losing the UNIQUE race always finds the winner |
| CatalogTheorems.VersionsAreDense | internal/catalog/sql.go:262-319 | a partition's file versions are exactly 1..v without repeats, and v is its version, its file_count and its number of files |
| CatalogTheorems.WholePartitionReadVersion | read.go:940-945 | the version that a whole-partition read derives is the partition row's |
| CatalogTheorems.OccIsExclusive | write.go:358-392 | at most one commit per partition and expected version, and it made the next version |
| CatalogProgress.OccDecides | write.go:358-392 | in every reachable state a write at its upsert meets a conflict exactly if an expected version was given and is not the partition's current one, and can take the row exactly if none was given or it is the current one, and the row lock is free |
| CatalogProgress.WriteCanCommit | write.go:167-301 | from every reachable state a new write can run to success if its partition's lock is free, its token not taken and its expected version, if any, the current one; it then has committed exactly its row, object and tuples as the next version, and the caller has its reference |
| CatalogProgress.RetryFindsFile | write.go:171-187 | the lookup of a committed token cannot miss and is answered with that file and no other |
| CatalogTheorems.VersionsMoveByOne | internal/catalog/sql.go:262-319 | a partition's version moves only at a commit, by one, from the expected version if one was given |
| CatalogTheorems.ViewsAreExact | write.go:280-288 | the views hold every tuple of every committed file and nothing else |
| CatalogCore.NumberedIs | sequencer/sequencer.go:352-373 | the assign statement numbers the picked rows consecutively from the base and leaves all others alone |
| CatalogCore.MaxIsTip | sequencer/sequencer.go:352-373 | the base it reads is the number of offsets handed out |
| CatalogFeed.FeedIsGapFree | sequencer/sequencer.go:150-180 | the offsets are exactly 1..tip, each on one row, with any number of sequencers |
| CatalogFeed.FeedOnlyAppends | sequencer/sequencer.go:150-180 | later states only append: an assigned offset never changes file |
| CatalogFeed.SelectIsWindow | internal/catalog/sql.go:175-190 | the poll's SELECT on the table returns a stretch of that sequence |
| CatalogFeed.ReaderMissesNothing | poll.go:144-196 | a reader holding next never sees a new row below it |
| CatalogFeed.ShortBatchDrains | sequencer/sequencer.go:264-277 | after a batch shorter than BatchSize no row of its snapshot is without an offset |
| CatalogFeed.OldestFirst | sequencer/sequencer.go:352-373 | of two rows without an offset when one assignment ran, the one written earlier (or with the smaller id, when written at the same time) is numbered if the other is, and with the smaller offset |
| CatalogFeed.BatchFills | sequencer/sequencer.go:264-277 | one assignment numbers at most BatchSize rows, and fewer only if it numbers all that had no offset |
| CatalogProgress.DrainIsPossible | sequencer/sequencer.go:264-277 | whenever the advisory lock is free one pass can give every committed row an offset and free the lock again |
| CatalogFeed.OneSequencerAtATime | sequencer/sequencer.go:157-168 | past the lock statement there is at most one sequencer |
| Filter.Builder.constructor | filter.go:262-265 | an empty clause and no bound values |
| Filter.Builder.AddArg | filter.go:125-128 | appends the value and returns its number |
| Filter.Builder.Translate | filter.go:132-252 | fails exactly on untranslatable filters, and otherwise appends the filter's clause and values |
| Filter.TranslateFilters | filter.go:258-276 | no clause for no filters, one filter alone, several joined by AND, or an error |
| FilterTheorems.PrimaryParses | filter.go:132-252 | under SQL's precedence the clause parses back, whatever follows it, to the filter's own expression |
| FilterTheorems.ClauseMeansFilter | filter.go:21-35 | the parsed clause with the bound values selects exactly the rows the filter describes, with a prefix handed to LIKE as it is, and exactly those that start with it when it holds no special character |
| FilterTheorems.ClauseMeansAll | filter.go:258-276 | a list of filters selects the rows that all of them describe |
| FilterTheorems.ParamsInOrder | filter.go:125-128 | the clause uses $1, $2, ... in order, one for each bound value |
| FilterTheorems.TranslatableIffLeavesOk | filter.go:45-69 | translation fails exactly when some leaf names an unknown column or an empty Between range |
| FilterTheorems.PrefixIsPrefixIffPlain | filter.go:77-86 | Prefix selects the strings with that prefix if and only if it holds no percent sign, underscore or backslash |
| KeyCodec.PartitionKeyValues | internal/catalog/partition.go:28-62 | accepts exactly the keys that spell some list of non-empty slash-free values, and returns that list |
| KeyCodec.KeyOfInjective | internal/catalog/partition.go:28-62 | distinct values spell distinct keys |
| KeyCodec.PathRecoversPartition | cmd/s3pgstore-rebuild/rebuild.go:249-287 | for any configured prefix the object path gives back its partition key |
| KeyCodec.PathNames | cmd/s3pgstore-rebuild/rebuild.go:249-266 | a path names exactly the partition key between the data prefix and its last slash, when that is not empty |
| KeyCodec.DataKeyInjective | store.go:336-347 | paths are injective in partition and id |
| Rebuild.ListAllKeys | cmd/s3pgstore-rebuild/rebuild.go:201-233 | exactly the entries of all pages that end in .parquet, in listing order and as often as listed |
| Rebuild.GroupByPath | cmd/s3pgstore-rebuild/rebuild.go:249-281 | fails exactly when some path spells no partition, and otherwise groups all keys with their partition's values |
| Rebuild.Database.InsertFileRow | cmd/s3pgstore-rebuild/rebuild.go:309-390 | inserts the row recovered from the object's metadata or leaves an existing row alone; fails exactly on a missing object, missing metadata, a lost connection or a token held by another row |
| Rebuild.Database.UpsertPartitionRow | cmd/s3pgstore-rebuild/rebuild.go:483-518 | replaces the partition's row unless the connection is lost |
| Rebuild.Database.RebuildGroup | cmd/s3pgstore-rebuild/rebuild.go:114-160 | adds only right file rows and, when done, all of them and the partition's row with the greatest version and the key count; done exactly if all objects can be read, no two carry one token and the connection lives |
| Rebuild.Rebuild | cmd/s3pgstore-rebuild/rebuild.go:96-163 | stopped anywhere it has added only right rows; done, it has covered the bucket; an unreadable path stops it before any write; from a sound catalog it is done exactly if paths, metadata and tokens are good and the connection lives for one statement per file and partition |
| RebuildTheorems.RebuiltIsUnique | cmd/s3pgstore-rebuild/rebuild.go:96-163 | one bucket has one rebuilt catalog |
| RebuildTheorems.PartRowFitsFiles | cmd/s3pgstore-rebuild/rebuild.go:114-160 | a rebuilt partition row counts the partition's file rows and has their greatest version |
| RebuildTheorems.RestorableExactly | cmd/s3pgstore-rebuild/rebuild.go:309-390 | beyond paths and connection a run needs exactly that every listed object of a partition has its row count and uncompressed size, both positive, and shares its token with no other of the partition |
| RebuildTheorems.RowCarriesObject | cmd/s3pgstore-rebuild/rebuild.go:404-445 | each file row is of a listed object, with the partition of its path and with its size, counts, token and version as the metadata has them |
| RebuildTheorems.Recover | cmd/s3pgstore-rebuild/rebuild.go:83-91 | from any partially rebuilt state a run arrives at that catalog, exactly under that condition, and an interrupted one stays on the way |
| RebuildTheorems.Rerun | cmd/s3pgstore-rebuild/rebuild.go:83-91 | on a rebuilt catalog another run changes nothing and inserts no file row |
| RebuildCatalog.RebuildRecoversCatalog | cmd/s3pgstore-rebuild/rebuild.go:96-163 | if S3 holds exactly the committed objects, the rebuilt catalog has every file's partition, values, key, version, sizes, count and token, and every partition's version and file_count |
| RebuildCatalog.PagesAreMirror | cmd/s3pgstore-rebuild/rebuild.go:201-233 | pages that hold every committed object once, among keys that are no parquet files, give the bucket that mirrors the catalog |
| RebuildCatalog.RestoreCatalog | cmd/s3pgstore-rebuild/rebuild.go:96-163 | end to end: when the listing's pages together hold the committed objects, from any partially rebuilt state and with one statement per file and partition, the run finishes and leaves the committed catalog |
| Views.JoinInjective | materialized_view.go:214-217 | a tuple without NUL shares its dedup key with no other tuple of its length |
| Views.NulTuplesCollide | materialized_view.go:242-246 | with NUL allowed two distinct tuples share a key |
| Views.ResolveView | materialized_view.go:218-256 | fails exactly on an Of error or a tuple of the wrong length, and otherwise keeps exactly one emitted tuple per key |
| Views.NothingDeduplicatedAway | materialized_view.go:214-217 | rows that PostgreSQL accepts leave no emitted tuple out |
| Views.UnnestTransposed | internal/catalog/sql.go:396-412 | unnesting the column arrays gives the chunk back, row for row |
| Views.ViewTable.InsertRows | materialized_view.go:290-318 | all chunks together add exactly the rows; fails exactly on a NUL or a statement that the connection does not survive |
| Views.MaintainView | write.go:280-288 | after a committed write the view is its old tuples and all tuples emitted for the records; it commits exactly if every Of call gives tuples of the right length without NUL and the connection lives |

## Left out

- Parquet encoding and compression: decoding is a partial function of the body's bytes.
- S3 and SQL transport: a call may succeed, fail, or fail after taking effect; retries, the rate limiter's arithmetic, ETags and environment parsing are not part of this model.
- Metrics, logging, the stall watchdog, tickers, LISTEN/NOTIFY and backoff arithmetic: they affect latency only; waiting is a step that may come at any time.
- Host transactions (`WithTx`): writers run in pool-executor mode, where a commit is the end of `RunInTx`.
- ReadLiveness.NeverStuck: speaks of a pool used by one call; slots that other calls hold are not modelled, since they come back without help from this call.
- PollTheorems.NeverStuck: the same.
- Rebuild.Rebuild: a statement either takes effect or fails; a reply that is lost after it took effect leaves a right row, which the next run meets as an existing one.
- Panics in tasks and workers, and reentrant submission to the pool.
- A pool task's return and the cancellation of its group are one step; closing all worker inputs of the poll pipeline is one step.
- Clock skew between GC and the database: one clock serves both.
- Several materialized views are one set of tuples in the write protocol; per-view tables are in `Views`.
- Feed order against commit order or version order: `written_at` is the transaction's start, so neither is claimed.
- The multi-partition `Write` fan-out, `LockPartition`, extension columns and their text forms, `OffsetAt`, and the decimal text of S3 metadata.
- Filter.TranslateFilters: produces tokens; quoting of identifiers and the lexing of the text are not modelled, and columns are NOT NULL.
- Poll.PollIter: offsets are unbounded integers, so the overflow of cursor plus page size near the largest 64-bit value is not modelled.
- RebuildCatalog.RestoreCatalog: assumes that S3 lists each key once.
