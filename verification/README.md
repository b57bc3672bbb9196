# Memory pipeline

A model, in Dafny 4.11, of how this service carries a clone's memories from the write request to the
backup archive and back: Redis stream, Postgres buffer row, object in the bucket with its backup row,
restore and resurrection. Each stage moves data between two stores that cannot commit together, so
what it guarantees rests on the order of its steps: buffer commit before stream trim, object put
before row insert, object delete before row delete.

## How it is laid out

- Data and pure code: `Decimal`, `BackupCodec` (MessagePack bytes as packb writes them, gzip as an
  abstract inverse pair, of which `StoredIsLossless` shows one), `Streams` (ids, trim), `Subscriptions`,
  `ObjectStorage`, `Retention` (the ranking rule), `DueQuery`.
- The state machine: `Machine` has one step per atomic action on one store, over any number of clones,
  with any number of flushes and rollups of each in progress, and a record of everything each wrote.
  `Invariant` and `Reachable` say what every step keeps, `Isolation` what it leaves alone. `Conservation`,
  `AtLeastOnce`, `Pointers`, `Guarantees`, `Scheduling` and `PruneRuns` are the results about whole runs,
  `RetentionRuns` those about rollup after rollup.
- The code as it is written: `Stores` holds the stores as mutable objects; `Flush`, `Pipeline` and
  `Memories` are the functions of flush.py, pipeline.py and routers/memories.py as methods on them,
  with every place where a call can raise as a parameter. Each is proved against an outcome function,
  and what that outcome means is proved beside it.
- The link: `FlushRuns`, `RollupRuns` and `ResurrectRuns` show that what a flush, a rollup and a
  resurrection do to the stores, wherever they stop, is a legal run of the machine, so the results
  about runs hold of these methods. `Instances` and `RetentionInstances` use the link to build runs,
  from `RunBlocks`, that show where the guarantees end.

## What the environment is taken to guarantee

- XADD ids strictly increase in (ms, seq) order and fit 64 bits each. XTRIM MINID drops exactly the ids
  below its bound. A trim that raises left the stream as it was.
- A Postgres commit is atomic. A flush loads the committed buffer row under its lock; of two that find no
  row the one that inserts last raises, which is a flush that stops before its commit. An update that
  matches no row raises, so a revert does when a rollup has deleted its row; a delete of no row does not.
- Object put and delete are each atomic, and the name of a new object was never used before (eight hex
  digits of a fresh uuid).
- Rows of equal `period_end` are ranked by one fixed tie-break, whichever it is.
- Timestamps are integers; the ISO reading of `captured_at` is a function parameter.

Everything else interleaves: any number of flushes and rollups of one clone, any number of scheduled
runs, writers, restores, resurrections, tier changes and other clones. No lock or queue keeps two tasks of
a clone apart, so what needs them apart says so:

- The exactly-once results and `NothingLostOrReordered` take the clone's tasks to keep apart (`Apart`):
  its flushes run one after the other, none commits while a rollup holds the row it read, and no rollup
  reads the row while a flush is between commit and trim or another rollup holds it. Rollup reads without
  a lock (pipeline.py:93); `FlushBesideRollupLosesEntry` is a run in which an entry is lost,
  `RollupsOverlapRepeatsEntry` one in which an entry is archived twice.
- At-least-once needs less (`DropsNothing`): no flush reverts, and none commits while a rollup holds the
  row. A revert writes after the lock is gone (flush.py:43-45); `RevertBesideFlushLosesEntries` is a run
  in which it loses what another flush has written and trimmed.
- That every row without its object is stale takes the prunes of the clone to keep apart (`PrunesApart`):
  none selects rows while another is between its select and its row delete. `OverlappingPrunesDangle` is
  a run without that, `PointersKeptIff` the exact condition step by step. The newest row has its object
  in any case.
- Spacing of scheduled rollups takes no run to list a clone that another still has on its list or is
  rolling up (`ListedOneAtATime`); `TwoRunsComeTooClose` is a run without that. `SpacedSinceListing` is
  what holds with any number of runs.

## Where the code does less than it is meant to

- A flush that dies between its commit and its trim, or whose revert cannot commit, leaves its entries in
  both stores, and the next flush repeats them. `ExactlyOnceIff` and `ExactlyOnceThroughFlush` say these
  are the only ways to lose exactly-once when tasks keep apart; nothing is lost even then.
- When the last id read has sequence number 2^64 - 1 the trim bound has no 64-bit form and every flush of
  the clone raises and is reverted until a later write ends the stream (`OnlyLastSequenceRaises`). With
  ids that Redis draws itself this takes 2^64 appends to one stream within a millisecond.
- The repository's README.md:109-110 promises that a downgrade never deletes backups of a richer tier.
  Each row keeps its own tier's retain count, but rows of the new tier take up ranks: with a full premium
  history of 30 one standard rollup removes a premium row (`FullHistoryLosesOne`).
  `DowngradeSparesRicherIff` gives the exact condition for any number of rollups after any change from
  one tier to another, whichever of them stop in their prune, and `MixedDowngradeIff` for one rollup over
  any mix of tiers.
- Lines 107-108 there say that only the oldest rows go. In `MiddleRowGoesInRun` a newer row goes while an
  older one stays; `OnlyOldestGoIff` gives the exact condition, and within a tier it always holds
  (`PruneOnlySurplus`).
- A rollup whose `now` lies behind enough newer rows inserts its row, deletes the buffer and prunes the
  new row with its object at once (`OwnRowLostInRun`). `OwnRowSurvivesIff` gives the exact condition.
- A clone's due anchor moves back exactly when its first row, rolled up or resurrected, ends before the
  clone was created (`AnchorMovesBackIff`; `ResurrectionMovesAnchorBack` is a run). With a row it never does.
- The flush trigger is missed exactly when every writer that finished since the last append died before
  its length check or had its request refused (`NoMissedTrigger`).
- A resurrection that commits while a prune is at work can leave one row more than the retain counts
  allow (`ResurrectionBesidePrune`); `RetentionAfterPrune` says exactly how many are left and when.
- The interval override is any integer; spacing in a window is stated for positive intervals.

## Model

| member | source | states |
|---|---|---|
| `Conservation.ExactlyOnceIff` | services/celery/src/celery_worker/flush.py:14-48 | After any run from the empty service in which the clone's tasks keep apart, its history equals its rollup payloads, then the buffer, then the stream, if and only if no flush of it died between commit and trim |
| `Conservation.NothingLostOrReordered` | services/celery/src/celery_worker/flush.py:32-36 | Over the same runs, deaths included, the history is a subsequence of rollup payloads, buffer and stream, and these hold nothing that was never written: a redelivered flush only repeats |
| `Instances.FlushBesideRollupLosesEntry` | services/celery/src/celery_worker/pipeline.py:93-115 | Keeping apart is needed: from every start there is a run in which a flush commits between a rollup's read and its commit and the flushed entry ends up in no store |
| `Instances.RollupsOverlapRepeatsEntry` | services/celery/src/celery_worker/pipeline.py:93-116 | From every start there is a run in which two rollups of a clone read the same buffer row and its entry is archived twice |
| `Conservation.StepTimeline` | services/celery/src/celery_worker/flush.py:23-45 | One step of tasks that keep apart, unless it kills a flush between commit and trim, extends the clone's timeline by exactly what it writes |
| `Conservation.InterruptTimeline` | services/celery/src/celery_worker/flush.py:32-36 | The killing step repeats the snapshot in the timeline and loses and reorders nothing |
| `Conservation.EntryCountIsLength` | shared/src/shared/db/models.py:129-133 | In every reachable state, flushes and rollups of the clone overlapping as they may, entry_count is the length of the decoded payload |
| `FlushRuns.ExactlyOnceThroughFlush` | services/celery/src/celery_worker/flush.py:13-48 | Any run in which the clone's tasks keep apart, then a call of flush_one_stream with any arrivals and any fault: buffer and stream as the call leaves them complete the history exactly once if and only if nothing was interrupted before and it is not this call whose revert failed |
| `FlushRuns.FlushIsARun` | services/celery/src/celery_worker/flush.py:13-48 | From every state with the invariant, whatever flushes and rollups are in progress, what flush_one_stream does to the stores is what a legal run of machine steps does, for every arrival and fault; other clones and stores stay as they were |
| `AtLeastOnce.AtLeastOnceUnderOverlap` | services/celery/src/celery_worker/flush.py:14-36 | Over every run of the service in which no flush of the clone reverts and none commits while a rollup holds the row, flushes and rollups overlapping and stopping anywhere else as they may: the history is in order a subsequence of rollup payloads, buffer and stream, and these hold nothing that was never written |
| `AtLeastOnce.StepTraced` | services/celery/src/celery_worker/flush.py:23-36 | Every such step keeps this of the clone: the stream is the end of all that was appended, and rollup payloads and buffer cover in order everything trimmed so far and everything up to the end of each committed snapshot |
| `AtLeastOnce.TrimOverlapping` | services/celery/src/celery_worker/flush.py:34-36 | A trim by one of several overlapping flushes drops exactly what is left of its own snapshot |
| `Instances.RevertBesideFlushLosesEntries` | services/celery/src/celery_worker/flush.py:37-46 | From every start there is a run of two overlapping flushes in which one reverts after the other has trimmed, and both entries written are in no store |
| `Flush.FlushOneStream` | services/celery/src/celery_worker/flush.py:13-48 | The method leaves stream, row and result of FlushOutcome for every arrival before and after its commit and every place where a call raises, and touches no other clone |
| `Flush.FlushMeaning` | services/celery/src/celery_worker/flush.py:18-48 | A flush raises exactly when there is something to flush and a call fails, the list does not fit or the last id is the largest of its millisecond; one that returns moved exactly the entries it read to the end of the payload, left what arrived meanwhile and returns how many it moved; one that raises changed neither payload nor stream; only a failed revert leaves the entries in both |
| `Flush.SmallerIsCommitted` | services/celery/src/celery_worker/flush.py:29-31 | The row a flush leaves holds the smaller of the packed and the compressed form of its payload |
| `Flush.FlushAllStreams` | services/celery/src/celery_worker/flush.py:51-59 | For any key list, repeats included, and any faults, every clone ends as its own flushes at the positions listing it leave it, and the result lists exactly the flushes that returned |
| `Flush.BatchLists` | services/celery/src/celery_worker/flush.py:51-59 | The result in full: the positions whose flush returned, in order and no other, each with the clone's id and the length of the stream found there |
| `Flush.BatchAddsUp` | services/celery/src/celery_worker/flush.py:48-55 | As long as no revert of a clone fails, the counts listed for it add up to what its payload has gained |
| `Flush.ListedOnce` | services/celery/src/celery_worker/flush.py:53-58 | A clone listed once is in the result just when its flush returned, and then with the length of its stream |
| `Flush.BatchIsolation` | services/celery/src/celery_worker/flush.py:53-58 | Two batches whose visits to a clone are the same leave it the same, whatever else they list, in what order, and whatever fails there |
| `Flush.BatchConserves` | services/celery/src/celery_worker/flush.py:51-59 | However often a clone is listed and whichever of its flushes raise, as long as no revert fails its entries are kept exactly once and in order and its payload only grows at the end |
| `Flush.BatchOfQuietClone` | services/celery/src/celery_worker/flush.py:51-59 | Without new writes a clone listed any number of times ends as after one flush: everything moved if any attempt gets through, stream and payload unchanged otherwise |
| `FailedFlushes.FailedFlushesInvisible` | services/celery/src/celery_worker/flush.py:37-46 | Any series of raising flushes with writes arriving all the while, then one that returns, ends in the stream, row bytes, count and result that the last flush alone gives for the same entries, also when there was no row |
| `FailedFlushes.OnlyLastSequenceRaises` | shared/src/shared/streams.py:46-51 | With every store answering and encodable entries a flush raises if and only if the last id read has sequence number 2^64 - 1, which is when no trim bound exists |
| `Streams.TrimFromIsSuccessor` | shared/src/shared/streams.py:46-51 | For every 64-bit id the text computed from its text parses to the immediate successor, and is rejected exactly when the sequence part is the largest |
| `Streams.TrimExact` | shared/src/shared/streams.py:46-51 | Trimming from the successor of the last entry of a snapshot removes the snapshot and keeps every entry appended after it |
| `Streams.KeySpelt` | shared/src/shared/streams.py:8-27 | A stream key in full, for one id |
| `Streams.ActiveCloneIds` | shared/src/shared/streams.py:59-64 | The ids read off any list of stream keys, in order and with repeats, are the ids the keys were made from |
| `Stores.Redis.AppendMemory` | shared/src/shared/streams.py:30-37 | XADD then XLEN: the entry is last but for what arrives in between, and the length returned counts both |
| `Stores.Redis.TrimUpTo` | shared/src/shared/streams.py:46-51 | Drops exactly the entries up to the given one, or raises and drops nothing |
| `BackupCodec.RoundTrip` | shared/src/shared/backup_codec.py:10-19 | Encoding succeeds on exactly the lists the format can hold, and decoding undoes it through the packed and the compressed outcome |
| `BackupCodec.SmallerIsStored` | shared/src/shared/backup_codec.py:10-13 | The bytes stored are the packed or the compressed form, no longer than either, and begin with the gzip magic if and only if the compressed form is strictly shorter |
| `Guarantees.SmallerIsArchived` | shared/src/shared/backup_codec.py:10-13 | In every reachable state each buffer row and each object in the bucket is the smaller form of its entries |
| `BackupCodec.PackedIsNeverGzip` | shared/src/shared/backup_codec.py:7-18 | No packed list begins with the gzip magic, so the sniff never takes the wrong branch |
| `BackupCodec.UnpackPack` | shared/src/shared/backup_codec.py:11-19 | Unpacking undoes packing for arrays and strings of every size class of the format |
| `BackupCodec.PackedExample` | shared/src/shared/backup_codec.py:11-11 | The MessagePack bytes of a list of one entry with short texts, keys spelt out |
| `BackupCodec.PackedSizes` | shared/src/shared/backup_codec.py:11-11 | A string takes 1, 2, 3 or 5 bytes more than its text, the fewest the format has for its length |
| `BackupCodec.EitherKeyOrder` | shared/src/shared/backup_codec.py:16-19 | An entry is read whichever of its two keys comes first |
| `BackupCodec.TrailingBytesRaise` | shared/src/shared/backup_codec.py:16-19 | Anything after a packed list makes the whole undecodable |
| `BackupCodec.TruncatedRaises` | shared/src/shared/backup_codec.py:11-19 | A packed list cut short anywhere raises: a shorter list is never read in its place |
| `BackupCodec.NoDecodablePrefix` | shared/src/shared/backup_codec.py:16-19 | No text that decodes is the start of another that does |
| `BackupCodec.EitherFormDecodes` | shared/src/shared/backup_codec.py:16-19 | Both forms of a list decode to it, whichever of the two encoding would have stored |
| `BackupCodec.EncodeInjective` | shared/src/shared/backup_codec.py:10-13 | Different lists never share an encoding |
| `Machine.ServiceConfigValid` | shared/src/shared/backup_codec.py:10-19 | The service's own codec and trim meet what the machine asks of them, so every result about runs holds of them |
| `Machine.PayloadOfRow` | shared/src/shared/db/models.py:129-133 | A row written for a payload reads back as that payload, the empty one included |
| `Machine.MinCapturedIsEarliest` | services/celery/src/celery_worker/pipeline.py:98-100 | The period start of a rollup is the earliest capture time in the payload, and one of its entries has it |
| `Reachable.StepKeepsInv` | services/celery/src/celery_worker/pipeline.py:90-130 | Each of the 24 kinds of step, any number of flushes and rollups of a clone in progress, keeps the invariant of all clones: ordered streams, decodable rows, distinct owned names, the newest row's object in place and after no prune, reserved objects in place |
| `Reachable.ReachableInv` | services/celery/src/celery_worker/pipeline.py:56-130 | Every state of every run from the empty service has the invariant |
| `Guarantees.NoLiveDanglingPointer` | services/celery/src/celery_worker/pipeline.py:70-87 | In every reachable state, wherever tasks stopped and whatever overlaps, a clone's newest row has its object; and a row whose object is missing is stale unless a prune of the clone selected rows while another was between select and row delete |
| `Pointers.PointersKeptIff` | services/celery/src/celery_worker/pipeline.py:70-87 | From any state with the invariant in which all rows without their object are stale, the next step keeps that if and only if an object it deletes belongs to no live row, and every row without its object that a row delete leaves was stale by more than the number of deleted rows above it |
| `Pointers.DeleteKeepsPointersIff` | services/celery/src/celery_worker/pipeline.py:82-86 | The row-delete half for any list: exactly when every dangling row that stays ranks below its retain count even with the deleted rows above it gone |
| `RetentionInstances.OverlappingPrunesDangle` | services/celery/src/celery_worker/pipeline.py:70-87 | From every start there is a run of two overlapping rollups of a clone that leaves a row within its retain count without its object |
| `Guarantees.DanglingStaysStale` | services/celery/src/celery_worker/pipeline.py:70-87 | A deleted object never comes back under its name, and a row left without it is never the newest and stays stale after every later step if the clone's prunes keep apart |
| `Guarantees.RestoreFidelity` | services/api/src/api/routers/memories.py:62-88 | In every later state, whatever overlaps, a row committed by a rollup has as entry_count the length of the payload of the buffer row that rollup had read, as period the span from the earliest capture in it to the rollup's time, and the rollup's tier and name; its object, while there, decodes to exactly that payload; it is there while the row is the newest, and while the row is not stale if the clone's prunes keep apart |
| `Guarantees.ResurrectionFaithful` | services/api/src/api/routers/memories.py:101-150 | A resurrected row was once the newest row of another, then not active, clone; in every later state it has that row's period and count and the copy's tier and name, and its object, while there, decodes to that row's payload; it is there while the row is the newest, and while it is not stale if the clone's prunes keep apart |
| `Isolation.RowComesAndGoes` | services/celery/src/celery_worker/flush.py:23-45 | A clone gets a buffer row only by a flush of it that commits and loses it only by a rollup of it that does: a revert after the rollup raises and does not bring the row back |
| `Isolation.OthersCannotTouch` | shared/src/shared/object_storage.py:91-93 | No run of steps on other clones, such as a rollup or prune of a resurrection's source, changes a clone or an object of its own |
| `Guarantees.NoMissedTrigger` | services/api/src/api/routers/memories.py:33-38 | Whenever no writer is between append and length check and the stream has reached the threshold, a flush was requested after the last append if and only if some writer got through since; it was missed exactly when all that finished died or were refused |
| `ObjectStorage.NameSpelt` | shared/src/shared/object_storage.py:91-93 | An object name in full, for one id and any period and suffix |
| `ObjectStorage.OneOwner` | shared/src/shared/object_storage.py:91-93 | An object name belongs to one clone, for all ids |
| `Retention.StaleRowsExact` | services/celery/src/celery_worker/pipeline.py:57-75 | The ranking query selects a row just when at least its own tier's retain count of rows rank above it |
| `Retention.DeleteStaleIsPrune` | services/celery/src/celery_worker/pipeline.py:82-86 | Deleting the selected ids leaves exactly the rows the rule keeps |
| `Retention.RetentionBound` | services/celery/src/celery_worker/pipeline.py:48-74 | After a prune at most k rows have a retain count of k or less, for every k and any mix of tiers; so at most 30 in all |
| `Retention.PruneIdempotent` | services/celery/src/celery_worker/pipeline.py:56-87 | A second prune finds nothing |
| `Retention.NewestSurvives` | services/celery/src/celery_worker/pipeline.py:56-87 | The newest row is never pruned |
| `Retention.PruneOnlySurplus` | services/celery/src/celery_worker/pipeline.py:61-74 | A removed row has at least its own tier's retain count of other rows as new as it, and every kept row of its tier is at least as new |
| `Retention.OnlyOldestGoIff` | README.md:107-108 | The rows kept are the first of the list, so that only the oldest go, if and only if every row below a stale one is stale |
| `RetentionInstances.MiddleRowGoesInRun` | README.md:107-108 | It fails: from every start there is a run of a premium, a free and a premium rollup in which the free row goes and the older premium row stays |
| `RetentionRuns.OneTierRun` | services/celery/src/celery_worker/pipeline.py:105-118 | After n rollups at increasing times on one tier, each free to stop anywhere in its prune but the last, the rows are those of exactly the min(n, retain count) newest, newest first, and each row ranked first when taken |
| `Retention.OwnRowSurvivesIff` | services/celery/src/celery_worker/pipeline.py:105-118 | The row a rollup has just inserted survives its own prune if and only if it ranks within its tier's retain count, its rank lying between the number of newer rows and that of rows at least as new, equal ends included |
| `RetentionInstances.OwnRowLostInRun` | services/celery/src/celery_worker/pipeline.py:105-118 | The failing case is a run from every start: a free clone with a newer row loses the new backup and its object at once, and the entry is in no store |
| `RetentionRuns.DowngradeRun` | README.md:107-110 | What any number of rollups at increasing times on one tier, each free to stop anywhere in its prune, leave of its own rows and of the rows of another tier below them |
| `RetentionRuns.DowngradeSparesRicherIff` | README.md:107-110 | Once the last of them has completed, they have spared every row of the other tier if and only if those fit below the most rows of the new tier that any completed prune found above them |
| `RetentionRuns.PeakWhenAllComplete` | README.md:107-110 | When all complete, that is the larger of one more than the old rows of the new tier and the smaller of all its rows and one more than its retain count |
| `RetentionRuns.MixedDowngradeIff` | README.md:107-110 | For any mix of tiers one rollup spares all rows of tiers that keep more than its own if and only if each of them ranks within its own retain count with the new row in place |
| `RetentionInstances.FullHistoryLosesOne` | README.md:107-110 | From every start there is a run of thirty premium rollups and then a standard one that deletes the oldest premium backup and no other |
| `PruneRuns.RetentionAfterPrune` | services/celery/src/celery_worker/pipeline.py:56-87 | Wherever in a run a prune deletes its rows, whatever overlaps, the rows with a retain count of k or less are those left of the list it ranked, at most as many as the rule lets stay, and those inserted since; exactly as many as the rule lets stay if the clone's prunes keep apart, so that the bound of k then holds if and only if the inserted ones fit in what that leaves |
| `PruneRuns.InsertAddsOne` | services/api/src/api/routers/memories.py:138-148 | A row rolled up or resurrected beside a prune adds one to what its row delete will leave, for exactly the counts k its own retain count falls under |
| `RetentionInstances.ResurrectionBesidePrune` | services/api/src/api/routers/memories.py:138-148 | From every start with another, not active clone there is a run in which a free clone resurrects a row between a prune's select and its row delete and is left with two free rows |
| `DueQuery.FindDueExact` | services/celery/src/celery_worker/pipeline.py:29-45 | The group-by, outer-join and coalesce query returns each clone whose every backup (or creation, if none) is an interval of its tier ago exactly once, and no other |
| `DueQuery.FindDueInSeconds` | services/celery/src/celery_worker/pipeline.py:20-45 | In seconds: a free clone is returned after 2592000, a standard one after 604800, a premium one after 86400 from each of its backups, or its creation if none; with an override after that many |
| `DueQuery.WindowBound` | services/celery/src/celery_worker/pipeline.py:38-45 | A closed window of length L holds at most floor(L / interval) + 1 of the times that are an interval apart |
| `Scheduling.DueListingsIsQuery` | services/celery/src/celery_worker/pipeline.py:29-45 | The clones the machine's run starts with are those of the query over the tables |
| `Scheduling.AnchorNeverMovesBack` | services/celery/src/celery_worker/pipeline.py:38-45 | Once a clone has a row, no run moves its due anchor back |
| `Scheduling.AnchorMovesBackIff` | services/celery/src/celery_worker/pipeline.py:38-45 | A step moves a clone's anchor back if and only if it inserts the clone's first row, rolled up at a time or resurrected with a period end from before the clone's creation |
| `Instances.ResurrectionMovesAnchorBack` | services/api/src/api/routers/memories.py:138-148 | From every start with another, not active clone there is a run that does so by resurrecting an old period |
| `Scheduling.EmptyRollupStaysDue` | services/celery/src/celery_worker/pipeline.py:94-95 | A scheduled rollup of an empty buffer changes nothing of the clone and leaves it due |
| `Scheduling.SpacedSinceListing` | services/celery/src/celery_worker/pipeline.py:133-144 | With any number of scheduled runs at a time, a scheduled rollup is an interval of its tier or more after every one committed before its own run began; two in a row are too close only if the earlier was committed after that |
| `Scheduling.ScheduledRollupsAreSpaced` | services/celery/src/celery_worker/pipeline.py:133-144 | When no run lists a clone that another has on its list or is rolling up, each scheduled rollup of it is an interval of its tier or more after the one before |
| `Scheduling.ScheduledRollupsApart` | shared/src/shared/subscriptions.py:22-32 | In seconds: 2592000, 604800 or 86400 apart by tier, or by the override |
| `Instances.TwoRunsComeTooClose` | services/celery/src/celery_worker/pipeline.py:133-144 | From every start with a due clone, two runs that both list it less than an interval apart can each roll it up, one after the other |
| `Scheduling.ScheduledRollupsInWindow` | services/celery/src/celery_worker/pipeline.py:133-144 | Then a window of length L holds at most floor(L / s) + 1 scheduled rollups of a one-tier clone, s being 2592000, 604800 or 86400 seconds by tier, or a positive override |
| `Pipeline.PruneStaleBackups` | services/celery/src/celery_worker/pipeline.py:56-87 | Objects are deleted one by one before any row, and a stop at any of them leaves rows and objects of PruneOutcome |
| `Pipeline.PruneMeaning` | services/celery/src/celery_worker/pipeline.py:48-87 | A prune that returns deletes exactly the rows ranking beyond 1, 4 or 30 by their tier and exactly their objects, and returns how many; one that raises deletes no row and no object of any other row |
| `Pipeline.PruneKeepsPointers` | services/celery/src/celery_worker/pipeline.py:70-87 | At every stop of a prune a row without its object is stale, and after a complete one every row has its object |
| `Pipeline.PruneResumes` | services/celery/src/celery_worker/pipeline.py:70-87 | A prune that raised and is tried again ends where one that never raised ends |
| `Pipeline.RollupClone` | services/celery/src/celery_worker/pipeline.py:90-130 | The method leaves row, rows, bucket, ids and result of RollupOutcome wherever a call raises, and touches no other clone's tables |
| `Pipeline.RollupTakes` | services/celery/src/celery_worker/pipeline.py:94-130 | A rollup that commits inserts at its rank a row from the earliest capture to the time given, with the number of entries and the name and tier given, not restored, and deletes the buffer row; the status is empty, or backed up with that number; it raises exactly when a call did |
| `Pipeline.RollupMeaning` | services/celery/src/celery_worker/pipeline.py:93-118 | At every stop rows and bucket stay in good order; without the commit row and rows are as they were, with it the entries are in the object of that one new row, which encodes exactly them, unless the retention rule drops it |
| `Pipeline.RunRollup` | services/celery/src/celery_worker/pipeline.py:133-144 | Exactly the clones that are due are rolled up, each once and each wherever its calls raise; the result lists in order those whose rollup returned, and no other clone's tables change |
| `Pipeline.RunTakes` | services/celery/src/celery_worker/pipeline.py:133-144 | Each due clone's new row has the run's time, the clone's tier and the period and count of its own entries, which is also what is reported of it |
| `Pipeline.ReportedExact` | services/celery/src/celery_worker/pipeline.py:137-144 | The result in full: the rollups that returned, in order and no other, each with its clone's id and status |
| `Pipeline.ListedIffDue` | services/celery/src/celery_worker/pipeline.py:29-45 | A clone is in the query's result if and only if it exists and is due by its own rows, whatever order the tables are scanned in |
| `Pipeline.ListedAfterSeconds` | services/celery/src/celery_worker/pipeline.py:20-45 | The same in seconds, by tier or override, on the clone's own rows |
| `RollupRuns.RollupIsARun` | services/celery/src/celery_worker/pipeline.py:90-130 | From every state with the invariant, other rollups of the clone in progress or not, rollup_clone, forced or scheduled, with something to fold or nothing, and wherever it stops, leaves the stores as a legal run of machine steps does |
| `Memories.WriteMemory` | services/api/src/api/routers/memories.py:29-39 | The entry is appended, and a flush requested just when the stream has then reached the threshold; a broker that fails raises after the append |
| `Memories.WriteIsARun` | services/api/src/api/routers/memories.py:33-38 | The machine's steps of a write are enabled, extend stream and history by what arrived, and leave a flush on request just when the threshold is reached and the broker does not refuse |
| `Memories.DetailIsFaithful` | services/api/src/api/routers/memories.py:62-73 | For any row whose object is there, and so any row that is not stale, the detail response is the row with exactly the entries folded into its object, as many as entry_count says; without the object it raises |
| `Memories.DetailAfterPrune` | services/api/src/api/routers/memories.py:62-73 | After a prune that stopped before its row delete the detail raises for exactly the rows beyond their retain count, after a completed one for no row that is left |
| `Memories.RestoreOwnBackup` | services/api/src/api/routers/memories.py:81-88 | Only the caller's own row is marked, and stays marked when its object cannot be fetched; any other id is a 404 and changes nothing |
| `Memories.MarkKeepsOrder` | services/api/src/api/routers/memories.py:85-86 | Marking a row changes neither the good order of rows and bucket nor which rows are stale |
| `Memories.ResurrectFrom` | services/api/src/api/routers/memories.py:96-150 | 400 for the caller's own profile, 404 for an unknown one, 409 for one that is active, 404 for one without backups, each changing nothing; in every other case, and only then, rows, bucket, ids and response are those of ResurrectOutcome at every stop |
| `Memories.ResurrectMeaning` | services/api/src/api/routers/memories.py:132-150 | A resurrection that is not refused raises only when the put or the insert does; it returns exactly the payload, count and period of the source's newest row, and both clones stay in good order |
| `ResurrectRuns.ResurrectIsARun` | services/api/src/api/routers/memories.py:120-148 | From every state with the invariant, resurrect_from leaves the stores as a legal run of machine steps does, wherever it stops |
| `ResurrectRuns.NotRefusedIffOffered` | services/api/src/api/routers/memories.py:106-130 | A request is not refused exactly when the machine may read the source's newest row for it, which is when the source is another clone that exists, is not active and has a backup |
| `ResurrectRuns.MarkIsAStep` | services/api/src/api/routers/memories.py:85-86 | The mark of a restore is the machine's restore step |

## Left out

- RunRollup: takes the profiles to be readable after a rollup of the run has raised; `run_rollup` reads ORM objects after a rollback, and their expiry is not modelled.
- AtLeastOnceUnderOverlap: says nothing of a run in which a flush reverts, even one that no other flush has overlapped; ExactlyOnceIff covers those.
- ScheduledRollupsInWindow: is for a clone that stays on one tier and a positive interval; ScheduledRollupsAreSpaced has neither restriction.
- SQLAlchemy sessions: identity map, expiry and lazy loading, and the connection pools.
- Redis, Postgres, MinIO, Celery and boto3 calls themselves; they are the assumed atomic actions above.
- A trim that takes effect and raises all the same.
- gzip's algorithm, UTF-8 and ISO timestamps: strings are byte sequences, times integers. `period_start <= period_end` is not claimed, since `captured_at` comes from the client.
- MessagePack values other than arrays of two-key maps of strings; unpackb on foreign bytes is modelled as failing on everything else.
- Stream length: the threshold triggers a flush and does not cap the stream.
- The order of `SELECT` results beyond the ranking, and the clone listings `GET /memories/backups` and `stream/status`.
- Authentication, roles, ownership other than of a backup row, and settings validation.
- Frontend, load generation, reports, migrations and deployment files.
