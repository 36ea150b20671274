# Verified model of the mongo-sync-agent pipelines

`mongo-sync-agent` copies MongoDB collections and rotating log files into S3 and keeps its own position in
SQLite: a watermark per collection, a byte offset per log file. Its promises are at-least-once delivery across
crashes, failed uploads and log rotation, and a clean target table once the landed rows are merged downstream.
This project models that logic and proves those promises.

## How the model is laid out

* **Byte and string kernels.** `Lines`, `CarriageReturns`, `Codec` (UTF-8, UTF-16LE, ASCII and Latin-1 decoding with
  `errors="replace"`, by section 3 of RFC 3629 and sections 2.1 and 2.2 of RFC 2781), `Malformed` (what ill-formed
  bytes become), `Tailer` (the aligned
  backward newline search, `tail_file`, `drain_file`) and `SingleLines`. `Strings`, `Calendar`, `Timestamps` and
  `ObjectIds` hold the orders and formats behind the watermarks.
* **Code.** `Watermarks`, `Landing`, `S3`, `StateDb`, `Extract`, `Merge`, `Sources`, `Ship` and `Runner` follow the
  repository's files. What the source does step by step is a method or a class here, and each such method's
  `ensures` ties its result or the whole new state to a function of its inputs and the old state. `Isolation`,
  `SourceIsolation`, `Discovery`, `Identity` and `Reports` prove properties of these functions.
* **Machines.** `MongoMachine` and `LogMachine` are step machines of one collection and one log source. A crash is
  enabled in every state; uploads have three outcomes (nothing visible, visible but reported as failed,
  success); other clients write and log producers append, rename, create and remove at any moment.
  `MongoSafety`, `MongoProgress`, `ArrivalSkew`, `EndToEnd`, `LogSafety` and `LogOnce` prove what holds over all runs.
* **From code to machine.** All units share one bucket and one store. `Items` says what objects hold, `Slices` which part
  of the bucket is a unit's own. `Refinement` and `LogSteps` with `LogRefinement` show that one call of
  `extract_collection` and of `ship_source`, with others writing, appending and rotating meanwhile, is a legal run of
  its machine as far as the unit's slice goes. `CollectionHistory` and `SourceHistory` extend this to any
  sequence of whole runs of the agent: the collection ends up as the clients' writes made it (`CollAfter`), the
  files as the producers left them (`FilesAfter`), and the store and the unit's slice of the bucket where its
  machine takes them. So no loss (`NothingIsLost`, twice), exactly once (`EachLineOnce`, `NothingLandsTwice`) and the
  monotone watermark (`StoredWatermarkIsMonotone`) are stated for the shared bucket and store; `LogCatchUp` and
  `QuietRunThenMerge` show that a quiet run leaves nothing behind.

## Hypotheses

They are conditions the repository relies on and does not check.

* Runs do not overlap and each starts in a later whole second than the one before (object keys have second
  granularity): the guards of `Begin`.
* `overlap_seconds` is not negative and never reaches past the epoch; ids of append-only collections are ObjectIds
  whose low eight bytes are not all zero: `RealDoc`.
* A mutable document's field never goes back; append-only documents never change: `LegalWrite`.
* Arrival skew: what the cursor could not see is at most the overlap older than the maximum of the whole scan:
  `InTime`. Without it, `ArrivalSkew.CommitIsLosslessIff` says over all runs, whenever writes arrive and whatever
  the cursor misses, exactly when a commit loses nothing: every tracked document was read in its current
  version only, or not read and landed before, or is within the overlap of the position that gets stored. The
  weaker reading, measured against the maximum at the moment of insertion, is not enough; `ArrivalSkew` also
  exhibits whole runs, every step within the weaker guards, that lose a document.
* A cursor returns every document that matched when it was opened and that nobody wrote meanwhile: the guard of
  `EndScan`. Only `WatermarkNeverFalls` and `WatermarkIsMonotone` also need, for mutable collections, that a matching
  document updated during the scan is returned in some version: `Thorough`.
* Log content is append-only and files that can be fingerprinted differ in their first 4096 bytes: `Grown`,
  `DistinctHeads`. Between planning and draining a planned path is not bound to other content (it may grow or
  vanish, and everything else may be renamed): `PathsKept`. sha256 is taken as injective, so a fingerprint is
  the 4096 bytes themselves.
* Planning one path is atomic: the prefix read (`logs/sources.py:93`) and the size taken later
  (`logs/sources.py:164`) see the same file, or the path is skipped. A rename that puts other content under the
  path between these two calls would plan the old fingerprint for the new content; it is excluded like any
  other re-binding of a planned path.
* A file read by `drain_file` comes to rest: its content may change before every read, but not without end.

## Where code and documentation differ

* `logs/tailer.py:197` says CR is normalised; only CR LF is. `CrIsNormalisedIff` proves that the lines are those a
  full normalisation would give exactly when no CR stands right before an ordinary character, and
  `CrIsNotNormalised` gives an input where they are not.
* `logs/ship.py:15` expects deduplication on (source, file, file_offset). Every line of a chunk carries the chunk's end
  offset and `file` is the bare name. For all lines of one poll `PollIdentifiedIff` proves that the triple tells them
  apart exactly when every chunk holds a single line and no two planned files of the same name share a chunk
  offset; `PollIdentifiedByContent` says the same of files without blank lines in terms of their content and the
  limit alone, and `PollsIdentifiedIff` is the condition for two polls together. Three lemmas give inputs where it
  fails: two lines read at once, two files of one name, and a rotation between two committed polls, each of
  which is fine by itself.
* The strict bound of `mongo/watermark.py:106` excludes the all-zero id of its own second; `ReachesIff` says so.

## Model

| member | source | states |
|---|---|---|
| Lines.LinesAppend | mongo-sync-agent/src/mongo_sync_agent/logs/tailer.py:199-203 | Splitting into lines is a homomorphism: after text that ends with a newline, the lines of a + b are the lines of a followed by those of b |
| Lines.LinesRoundTrip | mongo-sync-agent/src/mongo_sync_agent/logs/tailer.py:199-203 | Plain non-empty lines written with LF or CR LF are read back unchanged, in order |
| CarriageReturns.CrIsNormalisedIff | mongo-sync-agent/src/mongo_sync_agent/logs/tailer.py:197-203 | The lines are those that normalising lone CR too would give if and only if no CR stands right before an ordinary character, for every text |
| CarriageReturns.CrIsNotNormalised | mongo-sync-agent/src/mongo_sync_agent/logs/tailer.py:197-203 | A CR B LF comes out as one line with the CR inside, and would be two lines |
| Lines.LineByLine | mongo-sync-agent/src/mongo_sync_agent/logs/tailer.py:199-203 | Any text: up to its first newline it gives one line without the carriage returns at its end, or none if nothing is left, and then the lines of the rest |
| Codec.StepStaysBeforeNewline | mongo-sync-agent/src/mongo_sync_agent/logs/tailer.py:195 | No decoding step, malformed input included, reaches across an aligned newline |
| Codec.DecodeAppend | mongo-sync-agent/src/mongo_sync_agent/logs/tailer.py:179-195 | For every byte string, malformed ones included: decoding a + b is decoding a, then b, whenever a ends at an accepted newline |
| Codec.LinesInAppend | mongo-sync-agent/src/mongo_sync_agent/logs/tailer.py:179-203 | Decoding and line splitting together commute with cutting at an accepted newline |
| Codec.DecodeInvertsEncode | mongo-sync-agent/src/mongo_sync_agent/logs/tailer.py:195 | Decoding inverts the encodings of RFC 3629 and RFC 2781 on every string of scalar values |
| Codec.WrittenLinesAreRead | mongo-sync-agent/src/mongo_sync_agent/logs/tailer.py:179-203 | What a producer writes line by line in any of the encodings is exactly what is read |
| Malformed.CharacterIsDecoded | mongo-sync-agent/src/mongo_sync_agent/logs/tailer.py:195 | In each of the four encodings, bytes that start with a character decode to it and to what follows |
| Malformed.IllFormedIsReplaced | mongo-sync-agent/src/mongo_sync_agent/logs/tailer.py:195 | Bytes that start with no character decode to one U+FFFD for the ill-formed run at their front, the longest stretch of whole code units that still begins some character, or one unit, and to what follows; told through the encoders alone |
| Malformed.RunIsUnique | mongo-sync-agent/src/mongo_sync_agent/logs/tailer.py:195 | The bytes determine that run |
| Tailer.LastNewline | mongo-sync-agent/src/mongo_sync_agent/logs/tailer.py:161-177 | The rfind loop returns the greatest aligned newline position, and -1 only if there is none, although each retry excludes matches overlapping the rejected one |
| Tailer.NoOverlap | mongo-sync-agent/src/mongo_sync_agent/logs/tailer.py:164-173 | No two-byte newline overlaps another match, so the restricted retries miss nothing |
| Tailer.TailFile | mongo-sync-agent/src/mongo_sync_agent/logs/tailer.py:94-205 | One call equals its specification on every input: any start, missing file, any limit, odd offsets; the guard of the odd resume boundary is in the body and proved dead |
| Tailer.OffsetsStayEven | mongo-sync-agent/src/mongo_sync_agent/logs/tailer.py:183-193 | Every offset returned for UTF-16LE is even, whatever the start; the guard never fires |
| Tailer.ReadsForward | mongo-sync-agent/src/mongo_sync_agent/logs/tailer.py:124-159 | An odd start of UTF-16LE reads as the next even one, a negative start as 0; the offset never moves back; past the end or without the file nothing is read; a negative limit reads everything |
| Tailer.ReadStopsAtNewline | mongo-sync-agent/src/mongo_sync_agent/logs/tailer.py:161-205 | From any aligned start a read stops behind the last newline among the next bytes up to the limit, or stays, and yields the lines of the bytes between |
| Tailer.TailIsExact | mongo-sync-agent/src/mongo_sync_agent/logs/tailer.py:94-205 | From a line boundary, a read stops at the last boundary inside its window and returns exactly the lines up to there |
| Tailer.ScheduleIndependence | mongo-sync-agent/src/mongo_sync_agent/logs/tailer.py:94-241 | However a stream is cut into appends and reads, with any limits, missing files included, the lines delivered are those of the content up to the final offset: none lost, repeated or cut |
| Tailer.LinesMeanProgress | mongo-sync-agent/src/mongo_sync_agent/logs/tailer.py:234-240 | Lines returned imply a strictly larger offset within the file, so draining ends and the no-progress break is never taken |
| Tailer.DrainFile | mongo-sync-agent/src/mongo_sync_agent/logs/tailer.py:208-241 | The drain loop terminates and returns the chunks of its specification, for every file that changes between reads and comes to rest; the break on an unmoved offset is proved dead |
| Tailer.DrainIsExact | mongo-sync-agent/src/mongo_sync_agent/logs/tailer.py:208-241 | A drain from a boundary ends at a boundary, has emitted exactly the lines between, and a further read yields nothing |
| Tailer.ProgressIffFits | mongo-sync-agent/src/mongo_sync_agent/logs/tailer.py:174-177 | A read yields lines if and only if the next non-blank line, with the blank ones before it, fits in the limit |
| Tailer.DrainIsComplete | mongo-sync-agent/src/mongo_sync_agent/logs/tailer.py:208-241 | If every complete line fits, a drain emits every complete non-blank line of the file |
| Tailer.SameForEveryFittingLimit | mongo-sync-agent/src/mongo_sync_agent/logs/tailer.py:208-241 | The result is the same for every limit that fits |
| Tailer.StallIsForever | mongo-sync-agent/src/mongo_sync_agent/logs/tailer.py:174-177 | Once a full window holds no complete non-blank line, no later growth of the file gets a drain past it |
| Tailer.StallHappens | mongo-sync-agent/src/mongo_sync_agent/logs/tailer.py:174-177 | Such a file: a line of three bytes under a limit of two is never emitted, however the file grows |
| Tailer.GrowthKeeps | mongo-sync-agent/src/mongo_sync_agent/logs/tailer.py:12-15 | Appending to a file moves no boundary and changes no line before it |
| SingleLines.SingleLineIff | mongo-sync-agent/src/mongo_sync_agent/logs/tailer.py:208-241 | In a file without blank lines, every chunk of a drain holds a single line if and only if, wherever reads get, two consecutive lines together exceed the limit |
| SingleLines.ChunkEndsIff | mongo-sync-agent/src/mongo_sync_agent/logs/tailer.py:208-241 | Then a chunk ends at an offset if and only if a line ends there that reads get to, no line before it being too long for one read |
| Calendar.FieldsOfInstant | mongo-sync-agent/src/mongo_sync_agent/mongo/watermark.py:34 | Splitting an instant into calendar fields gives valid fields that denote it, over all leap years |
| Calendar.InstantOfFields | mongo-sync-agent/src/mongo_sync_agent/mongo/watermark.py:159 | Every valid date and time denotes one instant, and splitting that instant gives it back |
| Timestamps.ParseInvertsFormat | mongo-sync-agent/src/mongo_sync_agent/mongo/watermark.py:32-35 | Parsing a formatted time gives that time floored to the millisecond |
| Timestamps.FormatInvertsParse | mongo-sync-agent/src/mongo_sync_agent/mongo/watermark.py:29-35 | A canonical string that parses is formatted back to itself |
| Timestamps.StringOrderIsChronological | mongo-sync-agent/src/mongo_sync_agent/mongo/watermark.py:27-28 | String order of stored times is chronological order at millisecond granularity |
| Timestamps.KnownTime | mongo-sync-agent/src/mongo_sync_agent/mongo/watermark.py:32-35 | 12.345 ms past 4:07:09 on 5 March 2024 is stored as 2024-03-05T04:07:09.012Z |
| ObjectIds.HexRoundTrip | mongo-sync-agent/src/mongo_sync_agent/mongo/watermark.py:132-134 | Reading the hex string of an id gives the id back |
| ObjectIds.EveryHexStringIsAnId | mongo-sync-agent/src/mongo_sync_agent/mongo/watermark.py:90 | A string is read as an id if and only if it is 24 hex digits in either case: the range checks never reject one |
| ObjectIds.HexIsLowerCase | mongo-sync-agent/src/mongo_sync_agent/mongo/watermark.py:132-134 | Ids are written in lower case, and read the same in either |
| ObjectIds.HexIsOrderIsomorphism | mongo-sync-agent/src/mongo_sync_agent/mongo/watermark.py:70-73 | Order of hex strings is the order of the ids, and equal strings are equal ids |
| Watermarks.Strategy.Observe | mongo-sync-agent/src/mongo_sync_agent/mongo/watermark.py:116-130 | One observation changes the running maxima as specified, in all three modes |
| Watermarks.ObservedIsMaximum | mongo-sync-agent/src/mongo_sync_agent/mongo/watermark.py:174-179 | After any sequence of documents the running value is attained and is the maximum |
| Watermarks.WatermarkIsGreatestHex | mongo-sync-agent/src/mongo_sync_agent/mongo/watermark.py:132-134 | The stored string is the greatest hex string of the observed ids |
| Watermarks.ArrivalOrderIsIrrelevant | mongo-sync-agent/src/mongo_sync_agent/mongo/watermark.py:168-172 | The order and repetition of documents do not change what is observed |
| Watermarks.RebuiltBound | mongo-sync-agent/src/mongo_sync_agent/mongo/watermark.py:155-165 | The bound rebuilt from the stored string is exactly the floored maximum minus the overlap, across every calendar border, never above the true one |
| Watermarks.ReachesIff | mongo-sync-agent/src/mongo_sync_agent/mongo/watermark.py:82-110 | Exactly which documents a run asks for, in every mode: without a stored position all, or those within the overlap of the configured floor; with one, those within its overlap, save the all-zero id on the strict bound; in full refresh all, whatever is stored |
| Watermarks.FilterIffUsable | mongo-sync-agent/src/mongo_sync_agent/mongo/watermark.py:82-110 | A filter can be built if and only if the stored position, or else the floor, where there is one, is readable and the overlap keeps it in range |
| Watermarks.StartIff | mongo-sync-agent/src/mongo_sync_agent/mongo/extract.py:56-65 | A run starts if and only if what is stored is of the mode's kind and its bound is usable; otherwise it is a kind mismatch or the bound's error |
| Watermarks.WatermarkIsGreatestColumn | mongo-sync-agent/src/mongo_sync_agent/mongo/watermark.py:132-185 | The stored position is the greatest `_watermark` column of the rows read, as strings; none is stored exactly when these are empty |
| Landing.LandingSettles | mongo-sync-agent/src/mongo_sync_agent/landing.py:79-98 | A later run that read only the current version of a document makes every newest row carry it, however ties are broken |
| Landing.SettledAfterLandingIff | mongo-sync-agent/src/mongo_sync_agent/landing.py:79-98 | After a later run landed, the newest rows of a document carry its current version if and only if the run read that version and no other, or read nothing of it and they did before |
| Landing.LandingKeepsOthers | mongo-sync-agent/src/mongo_sync_agent/landing.py:79-98 | Landing rows of other documents leaves a document as settled as it was |
| S3.RunPartInjective | mongo-sync-agent/src/mongo_sync_agent/s3.py:111-114 | Two runs share the run part of a key if and only if they started in the same second |
| S3.KeysSpellUnitAndTime | mongo-sync-agent/src/mongo_sync_agent/s3.py:96-153 | Keys of the three families spell prefix, unit, and the start of the run to the second in the digits of the canonical time |
| S3.PrefixIsNormal | mongo-sync-agent/src/mongo_sync_agent/s3.py:47-50 | The prefix with at most a "/" added: empty or ending in one, and unchanged if it was |
| S3.MongoKeyInjective | mongo-sync-agent/src/mongo_sync_agent/s3.py:96-114 | Export keys are equal if and only if collection and second are |
| S3.LogsKeyInjective | mongo-sync-agent/src/mongo_sync_agent/s3.py:117-134 | Log keys are equal if and only if source and second are |
| S3.KeyFamiliesDisjoint | mongo-sync-agent/src/mongo_sync_agent/s3.py:114-153 | Keys of the three families never meet, whatever the names |
| S3.HostMetricsKeyInjective | mongo-sync-agent/src/mongo_sync_agent/s3.py:137-153 | Host metrics keys are equal if and only if the second is |
| Slices.UnitKeysDiffer | mongo-sync-agent/src/mongo_sync_agent/s3.py:96-153 | Two uploads of a deployment use the same key if and only if they are by the same unit in the same second, across all three families |
| Slices.OwnRowsUploaded | mongo-sync-agent/src/mongo_sync_agent/s3.py:77-93 | An upload to the shared bucket, whatever its outcome, is the same upload to the collection's own slice |
| Slices.OwnRecordsUploaded | mongo-sync-agent/src/mongo_sync_agent/s3.py:77-93 | The same for a log source |
| Slices.ForeignUploaded | mongo-sync-agent/src/mongo_sync_agent/s3.py:77-93 | An upload by any other unit does not change a unit's slice |
| S3.PutFresh | mongo-sync-agent/src/mongo_sync_agent/s3.py:77-80 | Under a new key a PUT replaces nothing: the bucket's contents are the old ones followed by the body |
| S3.Uploader.Upload | mongo-sync-agent/src/mongo_sync_agent/s3.py:54-93 | The three outcomes: what becomes visible, and what is reported |
| StateDb.StateStore.SetWatermark | mongo-sync-agent/src/mongo_sync_agent/state.py:171-197 | All of the upsert or none of it; nothing else changes |
| StateDb.StateStore.SetOffsets | mongo-sync-agent/src/mongo_sync_agent/state.py:230-265 | The whole batch in order, or none of it |
| StateDb.OffsetsOf | mongo-sync-agent/src/mongo_sync_agent/state.py:201-228 | What `get_offsets` returns: a key is in it if and only if the table has a row for this source and key, with that row's values |
| StateDb.StateStore.DeleteOffset | mongo-sync-agent/src/mongo_sync_agent/state.py:267-280 | Removes one record and nothing else |
| StateDb.UpsertedRow | mongo-sync-agent/src/mongo_sync_agent/state.py:240-265 | After a batch every named key holds an offset named for it; every other record, of this or another source, is as before |
| StateDb.UpsertedEntry | mongo-sync-agent/src/mongo_sync_agent/state.py:246-251 | Of several upserts for one key the last one stays |
| StateDb.OwnUpserts | mongo-sync-agent/src/mongo_sync_agent/state.py:240-265 | What a batch does to a source's records depends on those records alone |
| StateDb.ForeignUpserts | mongo-sync-agent/src/mongo_sync_agent/state.py:240-265 | A batch for one source leaves the records of every other source alone |
| Extract.ParquetSink.WriteRows | mongo-sync-agent/src/mongo_sync_agent/sinks.py:95-107 | One row group per non-empty write; the file appears with the first |
| Extract.Scan | mongo-sync-agent/src/mongo_sync_agent/mongo/extract.py:80-100 | Batching refines streaming: the row groups concatenate to the mapped documents in order, all but the last have exactly the batch size, none is empty, and exactly these documents were observed |
| Extract.ExtractCollection | mongo-sync-agent/src/mongo_sync_agent/mongo/extract.py:39-144 | Watermarks, bucket and result after one call, on every path: kind mismatch, bad bound, broken cursor, empty, dry run, failed upload, failed commit, success |
| Extract.ExtractAll | mongo-sync-agent/src/mongo_sync_agent/mongo/extract.py:147-206 | One result per collection in order; failures are isolated; a failed connection touches nothing |
| Isolation.EachFaresAlone | mongo-sync-agent/src/mongo_sync_agent/mongo/extract.py:177-206 | With distinct names, each collection's result, watermark and object are what they would be had it been extracted alone |
| Isolation.OnlyCommitsMoveWatermarks | mongo-sync-agent/src/mongo_sync_agent/mongo/extract.py:113-132 | A dry run, failed upload or failed commit moves no watermark |
| Isolation.OrderIsIrrelevant | mongo-sync-agent/src/mongo_sync_agent/mongo/extract.py:177-206 | Permuting the collections gives the same watermarks and objects |
| MongoMachine.TrackedIff | mongo-sync-agent/src/mongo_sync_agent/mongo/watermark.py:82-110 | Without a floor every document is replicated, in mutable collections every one with the field; in general exactly those with the field that a first run asks for |
| MongoMachine.WriteKeeps | mongo-sync-agent/src/mongo_sync_agent/mongo/watermark.py:95-109 | Inserts and updates by other clients, also during a scan, keep the invariant |
| MongoMachine.ScanCovers | mongo-sync-agent/src/mongo_sync_agent/mongo/extract.py:83-96 | At the end of a scan every tracked document was read in its current version, or is settled already, or arrived late and will be asked for again |
| MongoMachine.UploadKeeps | mongo-sync-agent/src/mongo_sync_agent/s3.py:77-93 | All three upload outcomes keep the invariant |
| MongoMachine.CommitKeeps | mongo-sync-agent/src/mongo_sync_agent/mongo/extract.py:126-132 | Advancing the watermark after a confirmed upload keeps the invariant |
| MongoMachine.StepKeeps | mongo-sync-agent/src/mongo_sync_agent/mongo/extract.py:57-134 | Every step, a crash at any point included, keeps the invariant |
| MongoMachine.RunsKeep | mongo-sync-agent/src/mongo_sync_agent/mongo/extract.py:57-134 | So does every run of any length |
| MongoSafety.AtLeastOnce | mongo-sync-agent/src/mongo_sync_agent/mongo/extract.py:109-132 | In every reachable state a tracked document is in the bucket in its current version or passes the filter the next run will build |
| MongoSafety.CompletedRunShips | mongo-sync-agent/src/mongo_sync_agent/mongo/extract.py:57-134 | Once a run has committed, every tracked document that nobody wrote during it is in the bucket in its current version, whatever failed before and whoever else wrote |
| MongoSafety.QuietRunSettlesAll | mongo-sync-agent/src/mongo_sync_agent/mongo/extract.py:57-134 | After one completed run without concurrent writes, with something to ship or nothing, the newest rows in the bucket are the current versions of all tracked documents |
| MongoSafety.EmptyQuietScanIsSettled | mongo-sync-agent/src/mongo_sync_agent/mongo/extract.py:104-107 | A quiet scan that finds nothing means nothing was left to ship |
| ArrivalSkew.CommitIsLosslessIff | mongo-sync-agent/src/mongo_sync_agent/mongo/extract.py:109-132 | Over every run from the start, with writes arriving at any time, also between upload and commit, and a cursor that may miss anything: uploading and committing what was read keeps a tracked document landed or within reach if and only if its version at the commit was read and no other, or not read and landed before, or lies within the overlap of the position that gets stored; so nothing is lost if and only if this holds of all |
| ArrivalSkew.SkewMeasuredAtInsertionLosesADocument | mongo-sync-agent/src/mongo_sync_agent/mongo/watermark.py:95-109 | Whole runs from the start, every step within the guards that measure skew at the moment of insertion, that end with a tracked document neither landed nor within reach of the next filter |
| MongoProgress.DropsAtMostOverlap | mongo-sync-agent/src/mongo_sync_agent/mongo/watermark.py:87-110 | Whatever was deleted, one run lowers the watermark by at most the overlap, to the second for ids |
| MongoProgress.NoDeletesNoFall | mongo-sync-agent/src/mongo_sync_agent/mongo/watermark.py:82-134 | Without deletes a run does not lower it, overlap 0 and the strict bound included |
| MongoProgress.WatermarkNeverFalls | mongo-sync-agent/src/mongo_sync_agent/mongo/extract.py:126-130 | From any good state, over any steps with writes, crashes and failures anywhere, the durable watermark never moves back and some document still stands at it |
| MongoProgress.WatermarkIsMonotone | mongo-sync-agent/src/mongo_sync_agent/mongo/watermark.py:87-110 | Between any two moments of any history from the start, the durable watermark stays or moves forward |
| Merge.StageIsStaged | mongo-sync-agent/sql/05_merge_example.sql:18-25 | The staging query keeps one row per id, and it is one with the greatest extraction time |
| Merge.LoadOrderIsIrrelevant | mongo-sync-agent/sql/05_merge_example.sql:18-25 | Neither load order nor duplicated rows change what may be staged |
| Merge.StagedIsUnique | mongo-sync-agent/sql/05_merge_example.sql:24 | Without ties the query has one answer |
| Merge.Target.MergeRows | mongo-sync-agent/sql/05_merge_example.sql:36-44 | MERGE in place: matched rows updated, others inserted, the rest untouched |
| Merge.MergeIsScheduleIndependent | mongo-sync-agent/sql/05_merge_example.sql:18-44 | Merging after each load of a growing raw table gives what one merge of the final table gives; repeating it changes nothing |
| Merge.SameFinalRowsSameTable | mongo-sync-agent/sql/05_merge_example.sql:18-44 | Without ties, two schedules that end with the same rows give the same table |
| EndToEnd.MergedTableIsTheCollection | mongo-sync-agent/sql/05_merge_example.sql:18-44 | After any history of crashes and re-deliveries and one quiet run, one that finds nothing included, the merged table holds every tracked document in its current version and no document the collection does not have |
| Refinement.ExtractRunsTheMachine | mongo-sync-agent/src/mongo_sync_agent/mongo/extract.py:39-144 | One call of `extract_collection`, for every outcome, with clients writing before, between and after any of its steps and other units using the bucket: a legal run of the machine, with the same watermark and the same slice of the bucket |
| Refinement.QuietIsGranted | mongo-sync-agent/src/mongo_sync_agent/mongo/extract.py:57-100 | With a truthful cursor and nobody writing, the hypotheses of that theorem hold by themselves |

| Sources.Discover | mongo-sync-agent/src/mongo_sync_agent/logs/sources.py:134-206 | Equals its specification, for every answer the file system can give at each of the three looks; what the specification says is in the four rows that follow |
| Discovery.PathIsPlannedIff | mongo-sync-agent/src/mongo_sync_agent/logs/sources.py:151-206 | A path is skipped if and only if its prefix cannot be read, or its key has a record and the file is gone by the second look; otherwise it starts at the stored offset if the file is that long, else at 0 |
| Discovery.FileIsPlanned | mongo-sync-agent/src/mongo_sync_agent/logs/sources.py:75-96 | A file that stays put is planned under its first 4096 bytes, or its path if it is smaller, from the stored offset where there is one within it, else from 0 |
| Discovery.DiscoversExactly | mongo-sync-agent/src/mongo_sync_agent/logs/sources.py:134-206 | Exactly the matched regular files whose path is not skipped are planned, each as often as matched |
| Discovery.DiscoversOldestFirst | mongo-sync-agent/src/mongo_sync_agent/logs/sources.py:149 | Plans come in the order of their files' (mtime, path) |
| Sources.SortedIsOldestFirst | mongo-sync-agent/src/mongo_sync_agent/logs/sources.py:149 | Planning order is by (mtime, path), no later entry before an earlier one, and drops or repeats nothing |
| Sources.RenamesAreTransparent | mongo-sync-agent/src/mongo_sync_agent/logs/sources.py:151-182 | The multiset of (fingerprint, start) plans depends only on contents and stored offsets, not on names, matching order or age |
| Sources.StartsWithinFile | mongo-sync-agent/src/mongo_sync_agent/logs/sources.py:167-178 | No plan starts past the end of its file |
| Sources.GcOffsets | mongo-sync-agent/src/mongo_sync_agent/logs/sources.py:242-267 | Exactly the source's unreferenced records with a readable stamp before the cutoff go, all else stays as it was, and the count is the number of records gone |
| Ship.NdjsonSink.WriteRows | mongo-sync-agent/src/mongo_sync_agent/sinks.py:141-144 | Records appended in order, the total advanced by their number |
| Ship.Collect | mongo-sync-agent/src/mongo_sync_agent/logs/ship.py:69-98 | Records in plan, chunk and line order; the offsets reached; the keys in use |
| Ship.ShipSource | mongo-sync-agent/src/mongo_sync_agent/logs/ship.py:47-162 | Offsets, bucket and result after one call, on every path: empty, dry run, failed upload, failed commit, success with the sweep |
| Ship.ShipAll | mongo-sync-agent/src/mongo_sync_agent/logs/ship.py:165-182 | One result per source in order; a source that raises does not stop the next; disabled means nothing; what the specification means per source is EachSourceFaresAlone |
| SourceIsolation.EachSourceFaresAlone | mongo-sync-agent/src/mongo_sync_agent/logs/ship.py:165-182 | With distinct names, there is one result per source in order, and each source's result, records and object are what they would be had it been shipped alone |
| SourceIsolation.PollIsLocal | mongo-sync-agent/src/mongo_sync_agent/logs/ship.py:47-162 | One poll depends on, and shows in, nothing but its own records and its own key |
| Ship.DictIsLastWins | mongo-sync-agent/src/mongo_sync_agent/logs/ship.py:72-98 | Committing the dictionary of new offsets is committing one row per plan in planning order |
| Ship.PlannedKeysStay | mongo-sync-agent/src/mongo_sync_agent/logs/ship.py:129-148 | No planned key is swept; each stands at an offset its file was read to |
| Ship.SweptIff | mongo-sync-agent/src/mongo_sync_agent/logs/ship.py:148 | After a committed poll, a record no plan names is gone if and only if its stamp is readable and lies more than the grace period back; otherwise it is as before |
| Ship.CommittedRecord | mongo-sync-agent/src/mongo_sync_agent/logs/ship.py:129-146 | The record of a planned key then holds its last plan's path and offset, the size the file had, or the offset if it was gone, and the time of the commit |
| Ship.OnlyConfirmedPollsMoveOffsets | mongo-sync-agent/src/mongo_sync_agent/logs/ship.py:116-146 | Without a confirmed upload and commit no offset moves; other sources' records never do |
| Identity.PollIdentifiedIff | mongo-sync-agent/src/mongo_sync_agent/logs/ship.py:75-98 | (source, file, file_offset) tells all lines of one poll apart if and only if every chunk holds a single line and no two planned files of the same name share a chunk offset |
| Identity.PollIdentifiedByContent | mongo-sync-agent/src/mongo_sync_agent/logs/ship.py:75-98 | For files without blank lines that stay put, in terms of content and limit alone: the triple tells all lines of the poll apart if and only if two consecutive lines of a file never fit into one read, and no two planned files of one name have lines ending at the same offset, as far as reads get |
| Identity.PollsIdentifiedIff | mongo-sync-agent/src/mongo_sync_agent/logs/ship.py:75-98 | The same for the lines of two polls together |
| Identity.TwoLinesShareATriple | mongo-sync-agent/src/mongo_sync_agent/logs/ship.py:11-15 | A LF B LF with a limit of four: both lines carry the same triple |
| Identity.TwoFilesShareATriple | mongo-sync-agent/src/mongo_sync_agent/logs/ship.py:11-15 | Two files of one name with one line each: single lines, and still one triple |
| Identity.RotationSharesATriple | mongo-sync-agent/src/mongo_sync_agent/logs/ship.py:11-15 | A LF C LF polled with a limit of three and committed at offset 4, rotated away, and a fresh B LF under its name: the next poll starts at 0, each poll's triples are distinct, and both together share one |
| LogMachine.SafeGrows | mongo-sync-agent/src/mongo_sync_agent/logs/sources.py:75-96 | An offset safe for a fingerprint stays safe while files grow and new ones appear |
| LogMachine.PieceIsRecorded | mongo-sync-agent/src/mongo_sync_agent/logs/ship.py:83-96 | The lines drained for a plan are all among the poll's records |
| LogSafety.PlanNextKeeps | mongo-sync-agent/src/mongo_sync_agent/logs/sources.py:151-182 | Planning a file, renamed or not, keeps the invariant: it starts at a safe offset |
| LogSafety.ReadIsExact | mongo-sync-agent/src/mongo_sync_agent/logs/ship.py:79-96 | However the file grows between reads, what was drained so far is exactly the lines from the start to the current offset |
| LogSafety.UploadKeeps | mongo-sync-agent/src/mongo_sync_agent/logs/ship.py:121-127 | All three upload outcomes keep the invariant |
| LogSafety.CommitKeeps | mongo-sync-agent/src/mongo_sync_agent/logs/ship.py:129-146 | Committing all offsets after the confirmed upload keeps it |
| LogSafety.LeavingKeeps | mongo-sync-agent/src/mongo_sync_agent/logs/ship.py:148-152 | Forgetting any records and leaving a poll at any point keep it |
| LogSafety.StepKeeps | mongo-sync-agent/src/mongo_sync_agent/logs/ship.py:65-152 | Every step, rotation and crash included, keeps it |
| LogSafety.RunsKeep | mongo-sync-agent/src/mongo_sync_agent/logs/ship.py:65-152 | So does every run of any length |
| LogSafety.NoLineIsLost | mongo-sync-agent/src/mongo_sync_agent/logs/sources.py:99-206 | Over all runs, a fingerprinted file's durable offset is a line boundary within it and every non-blank line before it is in the bucket, with multiplicity |
| LogOnce.UploadOnce | mongo-sync-agent/src/mongo_sync_agent/logs/ship.py:121-127 | An upload delivers each pending stretch once |
| LogOnce.CommitOnce | mongo-sync-agent/src/mongo_sync_agent/logs/ship.py:129-146 | The commit moves each resume offset exactly past what was delivered |
| LogOnce.StepOnce | mongo-sync-agent/src/mongo_sync_agent/logs/ship.py:65-152 | Every step keeps the exactly-once invariant for keys nothing disturbed |
| LogOnce.ExactlyOnce | mongo-sync-agent/src/mongo_sync_agent/logs/ship.py:75-98 | If nothing disturbed a key, the lines shipped under it over all polls and renames equal the line split of the bytes up to the resume offset, each once and in order |
| LogSteps.PlanSteps | mongo-sync-agent/src/mongo_sync_agent/logs/sources.py:151-206 | Planning, with producers acting before every look, is a legal run of the machine that ends with the plans of the loop |
| LogSteps.DrainSteps | mongo-sync-agent/src/mongo_sync_agent/logs/ship.py:75-98 | Draining all plans, with producers acting before every read, is a legal run of the machine that ends with the lines and offsets of `drain_file` |
| LogRefinement.ShipRunsTheMachine | mongo-sync-agent/src/mongo_sync_agent/logs/ship.py:47-162 | One call of `ship_source`, for every outcome and sweep included, with producers acting before every look and every read and other units using bucket and table: a legal run of the machine, with the same records and the same slice of the bucket, each landed line under the key of the plan that read it |
| LogCatchUp.QuietPollShipsEverything | mongo-sync-agent/src/mongo_sync_agent/logs/ship.py:47-162 | From any reachable state, on a bucket and table other units use too, after one quiet poll that reports success or nothing to do, every complete non-blank line of every matched fingerprintable file whose lines fit is among the source's records, as often as the file holds it |
| LogCatchUp.PollCollectsFile | mongo-sync-agent/src/mongo_sync_agent/logs/ship.py:75-98 | Fingerprinted or not, a matched file that stays put is collected from its stored offset, or from 0 if there is none within it, to its last complete line, if that is a boundary and the lines fit |
| LogCatchUp.ShorterFileIsReadAgain | mongo-sync-agent/src/mongo_sync_agent/logs/sources.py:163-204 | A file shorter than its stored offset, truncated or replaced, has all its complete lines that fit collected by the next poll during which it stays put |
| Runner.RunCycle | mongo-sync-agent/src/mongo_sync_agent/runner.py:81-156 | One run of all modules, Mongo, then logs, then host metrics: watermarks, offsets, bucket and results as specified by composition |
| Reports.TurnStatus | mongo-sync-agent/src/mongo_sync_agent/mongo/extract.py:57-206 | "failed" if and only if the collection is refused, the filter cannot be built, the cursor breaks, or outside a dry run the upload is not confirmed or a needed commit fails; "empty" if and only if the cursor ended without a document; and the number of documents reported |
| Reports.TurnDoesWhatItReports | mongo-sync-agent/src/mongo_sync_agent/mongo/extract.py:104-144 | Outside a dry run "ok" means the run's object holds exactly the documents read, each with id, watermark and time, and the stored position is their greatest; nothing else moves a position, and nothing is uploaded where nothing became visible |
| Reports.PollDoesWhatItReports | mongo-sync-agent/src/mongo_sync_agent/logs/ship.py:100-162 | The same for a log source: its status and count from the lines collected and the answers of bucket and database, and what is then in the object |
| Reports.RecordsSayWhereFrom | mongo-sync-agent/src/mongo_sync_agent/logs/ship.py:83-96 | Every record names the host, the source, the file and the end of the read its line came from |
| Reports.MetricsDoWhatTheyReport | mongo-sync-agent/src/mongo_sync_agent/runner.py:111-156 | The same for host metrics, which touch nothing but their object |
| Reports.RunReportsEachUnit | mongo-sync-agent/src/mongo_sync_agent/runner.py:83-156 | A run reports each unit of each module once, in order; without a connection every collection has failed and no position has moved |
| Reports.RunDoesWhatItReports | mongo-sync-agent/src/mongo_sync_agent/runner.py:83-156 | When the run is over and a collection was reported "ok", the shared bucket holds exactly the documents read and the store their greatest position, whatever the other units did |
| Reports.RunShipsWhatItReports | mongo-sync-agent/src/mongo_sync_agent/runner.py:99-107 | The same for every log source |
| Reports.RunLandsMetrics | mongo-sync-agent/src/mongo_sync_agent/runner.py:109-156 | The same for host metrics |
| Reports.DryRunChangesNothing | mongo-sync-agent/src/mongo_sync_agent/runner.py:81-156 | A dry run leaves bucket, watermarks and offsets as they were |
| Reports.RunLeavesOthersAlone | mongo-sync-agent/src/mongo_sync_agent/runner.py:81-156 | A run writes no object but those of its own units and moves no position but theirs |
| CollectionHistory.HistoryIsARun | mongo-sync-agent/src/mongo_sync_agent/runner.py:81-156 | Any sequence of runs of the agent, with clients writing before, between and during them, is a legal run of each collection's machine, whose steps are the writes and the collection's turns in order: the collection ends as the writes made it, the stored watermark and the slice of the shared bucket as the machine leaves them |
| CollectionHistory.NothingIsLost | mongo-sync-agent/src/mongo_sync_agent/mongo/extract.py:109-132 | At least once for the agent as a whole: from an empty deployment, every tracked document of the collection as the history's writes made it is in its slice of the shared bucket in its current version, or passes the filter built from the stored watermark |
| CollectionHistory.StoredWatermarkIsMonotone | mongo-sync-agent/src/mongo_sync_agent/mongo/extract.py:126-130 | Between any two runs of any history of the agent, without deletes, the watermark in the store stays or moves forward |
| CollectionHistory.QuietRunThenMerge | mongo-sync-agent/sql/05_merge_example.sql:18-44 | From any reachable state, after one run of all modules that is quiet for the collection, merging its slice of the shared bucket gives exactly its documents |
| SourceHistory.HistoryIsARun | mongo-sync-agent/src/mongo_sync_agent/runner.py:99-107 | Any sequence of runs of the agent, with producers acting before, between and during them, is a legal run of each source's machine: the files end as the producers left them, the source's records and slice of the shared bucket as the machine leaves them, with each line under the key of the plan that read it, and only keys that some run disturbed count as repeated |
| SourceHistory.NothingIsLost | mongo-sync-agent/src/mongo_sync_agent/logs/sources.py:99-206 | No line is lost for the agent as a whole: from an empty deployment, every stored offset of a fingerprinted file, as the producers left it, is one of its line boundaries and every non-blank line before it is among the source's records in the shared bucket, with multiplicity |
| SourceHistory.NoLineCountsTwice | mongo-sync-agent/src/mongo_sync_agent/logs/ship.py:75-98 | No landed line serves two files: the lines before the stored offsets of any different fingerprinted files are, all together, among the source's records in the shared bucket, with multiplicity |
| SourceHistory.EachLineOnce | mongo-sync-agent/src/mongo_sync_agent/logs/ship.py:75-152 | Exactly once for the agent as a whole: with each of the source's landed lines attributed to the key of the plan that read it, every fingerprinted file whose key no run planned twice, uploaded without confirmation or commit, or swept has exactly its lines up to where the next poll resumes, each once and in order |
| SourceHistory.NothingLandsTwice | mongo-sync-agent/src/mongo_sync_agent/logs/ship.py:75-152 | If only such keys landed lines, the source's records in the shared bucket are, with multiplicity, exactly the lines of its tracked files before their stored offsets: no copy is left over |

## Left out

- boto3, pymongo, pyarrow, gzip, SQLite, glob and stat themselves: steps, maps, sequences and answers chosen by the environment stand for them.
- The PID lock: one run at a time is a hypothesis.
- Strategy classes: one class with a mode stands for the three subclasses of the abstract base, and `make_strategy`'s error for an unknown mode is left to the type of modes.
- Mixed-type or missing `_id` values, the string fallback in `observe`, and documents without the datetime field in mutable mode beyond being untracked.
- Timestamps.ParseTs: accepts only the canonical 24-character form; `strptime` also takes other digit counts, which only a hand-written `initial_watermark` could contain. Years are 1000 to 9999 and instants are whole microseconds in UTC.
- ObjectIds.FromHex: models the 24-hex string form of `ObjectId(…)`.
- Runner.RunCycle: the modules the configuration or the command line switches off are given as empty lists; `run_cycle`'s lock, spool set-up, run history and exit code are not modelled, and a killed run is one with shorter lists whose last unit fails.
- CollectionHistory.HistoryIsARun: writes a visit places during a run count for the points its turn for this collection reaches; while a run is unconnected, refuses the collection, fails on its configuration or has ended early, they are given as writes before the next visit, which is the same to the agent.
- SourceHistory.HistoryIsARun: likewise, what producers do during a run that does not poll the source is given as changes before the next visit.
- Deletes in the Mongo machine: `DropsAtMostOverlap` allows them for one run, the runs of the machine have none.
- Provisional `path:` records: the model plans, commits and sweeps them as the code does, but no-loss and exactly-once are stated for fingerprint keys only. Lines shipped while a file was small are shipped again once it is fingerprinted.
- Truncation and regrowth of a log file past its saved offset, and a planned path re-bound to other content before it is drained.
- LogSafety.NoLineIsLost: at least once counts lines per fingerprint; the landed records do not carry the fingerprint, so the machine's records do, and `LogRefinement.Alike` relates the two. On the shared bucket `NoLineCountsTwice` counts the lines of all files together against the source's records.
- LogOnce.ExactlyOnce: excludes the steps that do re-ship: a crash or failed commit after the upload, an unconfirmed upload, forgetting the record, and planning the same content twice in one poll.
- SourceHistory.EachLineOnce: excludes the keys of these steps, run by run; a run that uploads without moving the offsets counts as disturbing every key it planned.
- Encodings other than UTF-8, ASCII, Latin-1 and UTF-16LE, and the normalisation of encoding names.
- `shipped_at`, `_host`, run ids, `updated_at` of watermarks, run history, byte counts and ETags.
- What the host metrics module collects, configuration parsing, the CLI, logging, spool paths and sweeping, memory bounds, and the stage, pipe and table definitions.
