/** `logs/ship.py`: one source's poll, and all sources of a run. */
module Ship {
  import opened Wrappers
  import opened Timestamps
  import opened Codec
  import opened Tailer
  import opened S3
  import opened StateDb
  import opened Sources
  import opened Items

  // ---- Sink ----

  /** `GzipNdjsonSink`: one object per line, the file created at once. */
  class NdjsonSink<T> {
    var rows: nat
    var written: seq<T>
    var onDisk: bool

    constructor ()
      ensures rows == 0 && written == [] && onDisk
    {
      rows, written, onDisk := 0, [], true;
    }

    method WriteRows(batch: seq<T>)
      modifies this`rows, this`written
      ensures written == old(written) + batch && rows == old(rows) + |batch|
    {
      for i := 0 to |batch|
        invariant written == old(written) + batch[..i]
        invariant rows == old(rows)
      {
        written := written + [batch[i]];
      }
      rows := rows + |batch|;
    }

    method Close() returns (total: nat)
      ensures total == rows
    {
      total := rows;
    }

    /** `abort`, and every later unlink of the spool file */
    method Discard()
      modifies this`onDisk
      ensures !onDisk
    {
      onDisk := false;
    }
  }

  // ---- What configuration and environment decide ----

  datatype SourceConfig = SourceConfig(name: string, enc: Encoding, maxBytes: int)

  datatype PollContext = PollContext(runDt: Instant, dryRun: bool, host: string, prefix: string, gcAge: int)

  /** One poll as the file system, the bucket and the database answer it: the glob's matches, the answers
      during discovery, each file as the successive reads of its drain find it, the sizes at commit time, the
      upload's outcome, whether the transaction goes through, and the clock. */
  datatype PollEnv = PollEnv(matches: seq<string>, looks: string -> Look, files: string -> seq<Option<Bytes>>,
                             sizes: string -> Option<nat>, nameOf: string -> string,
                             outcome: Outcome, commits: bool, now: int)

  datatype LogWorld = LogWorld(offsets: OffsetTable, objects: Bucket<Item>)

  // ---- Specification of one poll ----

  function PlansOf(cfg: SourceConfig, env: PollEnv, table: OffsetTable): seq<TailPlan> {
    PlansFor(Sorted(EntriesOf(env.matches, env.looks)), env.looks, OffsetsOf(table, cfg.name))
  }

  function ChunksOf(cfg: SourceConfig, env: PollEnv, q: TailPlan): seq<TailChunk> {
    Drain(env.files(q.path), q.start, cfg.enc, cfg.maxBytes)
  }

  /** Every line of a chunk carries the chunk's end offset. */
  function ChunkRecords(cfg: SourceConfig, ctx: PollContext, file: string, c: TailChunk): seq<LogRecord> {
    seq(|c.lines|, i requires 0 <= i < |c.lines| => LogRecord(c.lines[i], ctx.host, cfg.name, file, c.newOffset))
  }

  function DrainRecords(cfg: SourceConfig, ctx: PollContext, file: string, chunks: seq<TailChunk>): seq<LogRecord> {
    if chunks == [] then []
    else
      DrainRecords(cfg, ctx, file, chunks[..|chunks| - 1]) + ChunkRecords(cfg, ctx, file, chunks[|chunks| - 1])
  }

  function Collected(cfg: SourceConfig, ctx: PollContext, env: PollEnv, plans: seq<TailPlan>): seq<LogRecord> {
    if plans == [] then []
    else
      var q := plans[|plans| - 1];
      Collected(cfg, ctx, env, plans[..|plans| - 1]) + DrainRecords(cfg, ctx, env.nameOf(q.path), ChunksOf(cfg, env, q))
  }

  /** Where a plan's file was read to. */
  datatype Reached = Reached(key: Key, path: string, offset: int)

  function ReachedBy(cfg: SourceConfig, env: PollEnv, q: TailPlan): Reached {
    Reached(KeyOf(q), q.path, EndOffset(ChunksOf(cfg, env, q), q.start))
  }

  function AllReached(cfg: SourceConfig, env: PollEnv, plans: seq<TailPlan>): seq<Reached> {
    seq(|plans|, i requires 0 <= i < |plans| => ReachedBy(cfg, env, plans[i]))
  }

  /** `new_offsets[key] = …`: a dictionary in insertion order; assigning to a key keeps its place. */
  function Assign(dict: seq<Reached>, r: Reached): seq<Reached> {
    if dict == [] then [r]
    else
      var init, last := dict[..|dict| - 1], dict[|dict| - 1];
      if last.key == r.key then init + [r] else Assign(init, r) + [last]
  }

  function Dict(reached: seq<Reached>): seq<Reached> {
    if reached == [] then [] else Assign(Dict(reached[..|reached| - 1]), reached[|reached| - 1])
  }

  function EntryOf(sizes: string -> Option<nat>, r: Reached): Entry {
    Entry(r.key, r.path, r.offset, SizeAtRead(sizes, r.path, r.offset))
  }

  function Rows(sizes: string -> Option<nat>, dict: seq<Reached>): seq<Entry> {
    seq(|dict|, i requires 0 <= i < |dict| => EntryOf(sizes, dict[i]))
  }

  function PlannedKeys(plans: seq<TailPlan>): set<Key> {
    set q | q in plans :: KeyOf(q)
  }

  function Swept(table: OffsetTable, source: string, current: set<Key>, cutoff: int): OffsetTable {
    Without(table, source, Stale(table, source, current, cutoff))
  }

  function Committed(cfg: SourceConfig, ctx: PollContext, env: PollEnv, table: OffsetTable,
                     plans: seq<TailPlan>): OffsetTable {
    var written := Upserted(table, cfg.name, Rows(env.sizes, Dict(AllReached(cfg, env, plans))), env.now);
    Swept(written, cfg.name, PlannedKeys(plans), env.now - ctx.gcAge)
  }

  function ShipSpec(cfg: SourceConfig, ctx: PollContext, env: PollEnv, w: LogWorld): (LogWorld, Result<UnitResult>) {
    var plans := PlansOf(cfg, env, w.offsets);
    var records := Collected(cfg, ctx, env, plans);
    if records == [] then (w, Ok(UnitResult(cfg.name, StatusEmpty, 0)))
    else if ctx.dryRun then (w, Ok(UnitResult(cfg.name, StatusOk, |records|)))
    else
      var objects := Uploaded(w.objects, LogsKey(NormalPrefix(ctx.prefix), cfg.name, ctx.runDt), LineItems(records),
                              env.outcome);
      if !env.outcome.Confirmed? then
        (LogWorld(w.offsets, objects), Ok(UnitResult(cfg.name, StatusFailed, |records|)))
      else if !env.commits then (LogWorld(w.offsets, objects), Err(CommitFailed))
      else
        (LogWorld(Committed(cfg, ctx, env, w.offsets, plans), objects), Ok(UnitResult(cfg.name, StatusOk, |records|)))
  }

  // ---- ship_source ----

  /** Drains every planned file: the records in order, the offsets reached, the keys in use. */
  method Collect(cfg: SourceConfig, ctx: PollContext, env: PollEnv, plans: seq<TailPlan>)
    returns (records: seq<LogRecord>, newOffsets: seq<Reached>, currentKeys: set<Key>)
    ensures records == Collected(cfg, ctx, env, plans)
    ensures newOffsets == Dict(AllReached(cfg, env, plans))
    ensures currentKeys == PlannedKeys(plans)
  {
    records, newOffsets, currentKeys := [], [], {};
    assert AllReached(cfg, env, plans[..0]) == [] && PlannedKeys(plans[..0]) == {};
    hide Collected, Dict, Assign, AllReached, PlannedKeys, DrainRecords, ChunksOf, KeyOf;
    for i := 0 to |plans|
      invariant records == Collected(cfg, ctx, env, plans[..i])
      invariant newOffsets == Dict(AllReached(cfg, env, plans[..i]))
      invariant currentKeys == PlannedKeys(plans[..i])
    {
      var q := plans[i];
      NextPlan(cfg, ctx, env, plans, i);
      currentKeys := currentKeys + {KeyOf(q)};
      var more, offset := CollectOne(cfg, ctx, env, q);
      records := records + more;
      newOffsets := Assign(newOffsets, Reached(KeyOf(q), q.path, offset));
    }
    assert plans[..|plans|] == plans;
  }

  lemma {:induction false} NextPlan(cfg: SourceConfig, ctx: PollContext, env: PollEnv, plans: seq<TailPlan>, i: nat)
    requires i < |plans|
    ensures var done, more, q := plans[..i], plans[..i + 1], plans[i];
      && Collected(cfg, ctx, env, more)
         == Collected(cfg, ctx, env, done) + DrainRecords(cfg, ctx, env.nameOf(q.path), ChunksOf(cfg, env, q))
      && Dict(AllReached(cfg, env, more)) == Assign(Dict(AllReached(cfg, env, done)), ReachedBy(cfg, env, q))
      && PlannedKeys(more) == PlannedKeys(done) + {KeyOf(q)}
  {
    hide KeyOf, ChunksOf, DrainRecords, Assign;
    var more := plans[..i + 1];
    assert more[..i] == plans[..i];
    assert AllReached(cfg, env, more)[..i] == AllReached(cfg, env, plans[..i]);
    assert more == plans[..i] + [plans[i]];
  }

  lemma {:induction false} NextChunk(cfg: SourceConfig, ctx: PollContext, file: string, chunks: seq<TailChunk>, i: nat)
    requires i < |chunks|
    ensures DrainRecords(cfg, ctx, file, chunks[..i + 1])
         == DrainRecords(cfg, ctx, file, chunks[..i]) + ChunkRecords(cfg, ctx, file, chunks[i])
  {
    assert chunks[..i + 1][..i] == chunks[..i];
  }

  method AppendChunk(cfg: SourceConfig, ctx: PollContext, file: string, c: TailChunk, before: seq<LogRecord>)
    returns (records: seq<LogRecord>)
    ensures records == before + ChunkRecords(cfg, ctx, file, c)
  {
    records := before;
    for j := 0 to |c.lines|
      invariant records == before + ChunkRecords(cfg, ctx, file, c)[..j]
    {
      records := records + [LogRecord(c.lines[j], ctx.host, cfg.name, file, c.newOffset)];
    }
  }

  method CollectOne(cfg: SourceConfig, ctx: PollContext, env: PollEnv, q: TailPlan)
    returns (records: seq<LogRecord>, offset: int)
    ensures records == DrainRecords(cfg, ctx, env.nameOf(q.path), ChunksOf(cfg, env, q))
    ensures offset == ReachedBy(cfg, env, q).offset
  {
    var file := env.nameOf(q.path);
    hide Drain, ChunkRecords;
    var chunks := DrainFile(env.files(q.path), q.start, cfg.enc, cfg.maxBytes);
    records, offset := [], q.start;
    for i := 0 to |chunks|
      invariant records == DrainRecords(cfg, ctx, file, chunks[..i])
      invariant offset == EndOffset(chunks[..i], q.start)
    {
      var c := chunks[i];
      NextChunk(cfg, ctx, file, chunks, i);
      records := AppendChunk(cfg, ctx, file, c, records);
      offset := c.newOffset;
    }
    assert chunks[..|chunks|] == chunks;
  }

  method RowsToCommit(sizes: string -> Option<nat>, newOffsets: seq<Reached>) returns (rows: seq<Entry>)
    ensures rows == Rows(sizes, newOffsets)
  {
    rows := [];
    for i := 0 to |newOffsets|
      invariant rows == Rows(sizes, newOffsets)[..i]
    {
      rows := rows + [EntryOf(sizes, newOffsets[i])];
    }
  }

  method ShipSource(cfg: SourceConfig, state: StateStore, uploader: Uploader<Item>, ctx: PollContext, env: PollEnv)
    returns (r: Result<UnitResult>)
    requires uploader.prefix == NormalPrefix(ctx.prefix)
    modifies state`offsets, uploader
    ensures (LogWorld(state.offsets, uploader.objects), r)
            == ShipSpec(cfg, ctx, env, old(LogWorld(state.offsets, uploader.objects)))
  {
    hide Collected, Upserted, LogsKey, Put, PlannedKeys, Rows, Stale, Sweeps, Without, Dict, AllReached, LineItems,
      Sorted, EntriesOf, PlansFor, NormalPrefix, OffsetsOf;
    var offsets := state.GetOffsets(cfg.name);
    var plans := Discover(env.matches, env.looks, offsets);
    var records, newOffsets, currentKeys := Collect(cfg, ctx, env, plans);
    if records == [] {
      return Ok(UnitResult(cfg.name, StatusEmpty, 0));
    }
    var sink := new NdjsonSink<LogRecord>();
    sink.WriteRows(records);
    assert sink.written == records;
    var total := sink.Close();
    if ctx.dryRun {
      sink.Discard();
      return Ok(UnitResult(cfg.name, StatusOk, total));
    }
    var key := LogsKey(uploader.prefix, cfg.name, ctx.runDt);
    var uploaded := uploader.Upload(key, LineItems(sink.written), env.outcome);
    if uploaded.Err? {
      sink.Discard();
      return Ok(UnitResult(cfg.name, StatusFailed, total));
    }
    var rows := RowsToCommit(env.sizes, newOffsets);
    state.SetOffsets(cfg.name, rows, env.now, env.commits);
    if !env.commits {
      return Err(CommitFailed);
    }
    var _ := GcOffsets(state, cfg.name, currentKeys, env.now - ctx.gcAge);
    sink.Discard();
    return Ok(UnitResult(cfg.name, StatusOk, total));
  }

  // ---- ship_all ----

  function ShipAllSpec(cfgs: seq<SourceConfig>, ctx: PollContext, envs: string -> PollEnv, w: LogWorld)
    : (LogWorld, seq<UnitResult>)
  {
    if cfgs == [] then (w, [])
    else
      var cfg := cfgs[|cfgs| - 1];
      var (w1, results) := ShipAllSpec(cfgs[..|cfgs| - 1], ctx, envs, w);
      var (w2, r) := ShipSpec(cfg, ctx, envs(cfg.name), w1);
      (w2, results + [if r.Ok? then r.value else UnitResult(cfg.name, StatusFailed, 0)])
  }

  /** A source that raises becomes a failed result, and the next one is shipped all the same. */
  method ShipAll(cfgs: seq<SourceConfig>, enabled: bool, state: StateStore, uploader: Uploader<Item>, ctx: PollContext,
                 envs: string -> PollEnv)
    returns (results: seq<UnitResult>)
    requires uploader.prefix == NormalPrefix(ctx.prefix)
    modifies state`offsets, uploader
    ensures (LogWorld(state.offsets, uploader.objects), results)
            == ShipAllSpec(if enabled then cfgs else [], ctx, envs, old(LogWorld(state.offsets, uploader.objects)))
  {
    results := [];
    if !enabled {
      return;
    }
    for i := 0 to |cfgs|
      invariant (LogWorld(state.offsets, uploader.objects), results)
                == ShipAllSpec(cfgs[..i], ctx, envs, old(LogWorld(state.offsets, uploader.objects)))
    {
      hide ShipSpec;
      assert cfgs[..i + 1][..i] == cfgs[..i];
      var r := ShipSource(cfgs[i], state, uploader, ctx, envs(cfgs[i].name));
      results := results + [if r.Ok? then r.value else UnitResult(cfgs[i].name, StatusFailed, 0)];
    }
    assert cfgs[..|cfgs|] == cfgs;
  }

  // ---- The dictionary of new offsets ----

  /** Writing the dictionary's rows is writing one row per plan, in planning order: for a key planned
      twice the later plan stays. */
  lemma {:induction false} DictIsLastWins(table: OffsetTable, source: string, sizes: string -> Option<nat>,
                                          reached: seq<Reached>, now: int)
    ensures Upserted(table, source, Rows(sizes, Dict(reached)), now)
         == Upserted(table, source, Rows(sizes, reached), now)
  {
    hide Upserted, Rows, Assign;
    if reached != [] {
      var init, r := reached[..|reached| - 1], reached[|reached| - 1];
      DictIsLastWins(table, source, sizes, init, now);
      AssignWrites(table, source, sizes, Dict(init), r, now);
      LastRow(table, source, sizes, init, r, now);
      assert reached == init + [r];
    }
  }

  function Stored(sizes: string -> Option<nat>, r: Reached, now: int): FileOffset {
    FileOffset(r.path, r.offset, SizeAtRead(sizes, r.path, r.offset), At(now))
  }

  lemma {:induction false} LastRow(table: OffsetTable, source: string, sizes: string -> Option<nat>, dict: seq<Reached>,
                                   r: Reached, now: int)
    ensures Upserted(table, source, Rows(sizes, dict + [r]), now)
         == Upserted(table, source, Rows(sizes, dict), now)[(source, r.key) := Stored(sizes, r, now)]
  {
    assert Rows(sizes, dict + [r])[..|dict|] == Rows(sizes, dict);
  }

  lemma {:induction false} AssignWrites(table: OffsetTable, source: string, sizes: string -> Option<nat>,
                                        dict: seq<Reached>, r: Reached, now: int)
    ensures Upserted(table, source, Rows(sizes, Assign(dict, r)), now)
         == Upserted(table, source, Rows(sizes, dict), now)[(source, r.key) := Stored(sizes, r, now)]
  {
    hide Upserted, Rows, Stored;
    if dict == [] {
      LastRow(table, source, sizes, [], r, now);
      assert [] + [r] == [r];
    } else {
      var init, last := dict[..|dict| - 1], dict[|dict| - 1];
      assert init + [last] == dict;
      LastRow(table, source, sizes, init, last, now);
      if last.key == r.key {
        LastRow(table, source, sizes, init, r, now);
      } else {
        AssignWrites(table, source, sizes, init, r, now);
        LastRow(table, source, sizes, Assign(init, r), last, now);
      }
    }
  }

  /** No key planned in a poll is swept, and after the commit each stands at an offset its file was read to. */
  lemma {:induction false} PlannedKeysStay(cfg: SourceConfig, ctx: PollContext, env: PollEnv, table: OffsetTable,
                                           plans: seq<TailPlan>, q: TailPlan)
    requires q in plans
    ensures var t := Committed(cfg, ctx, env, table, plans);
      && (cfg.name, KeyOf(q)) in t
      && exists r :: r in plans && KeyOf(r) == KeyOf(q)
                     && t[(cfg.name, KeyOf(q))].offset == ReachedBy(cfg, env, r).offset
  {
    hide Upserted, KeyOf, Dict;
    var all := AllReached(cfg, env, plans);
    var rows := Rows(env.sizes, all);
    DictIsLastWins(table, cfg.name, env.sizes, all, env.now);
    UpsertedRow(table, cfg.name, rows, env.now, cfg.name, KeyOf(q));
    var i :| 0 <= i < |plans| && plans[i] == q;
    assert rows[i].key == KeyOf(q);
    assert HasEntry(rows, KeyOf(q));
    var t := Upserted(table, cfg.name, rows, env.now);
    var o := t[(cfg.name, KeyOf(q))].offset;
    var j :| 0 <= j < |rows| && rows[j].key == KeyOf(q) && rows[j].offset == o;
    assert plans[j] in plans && ReachedBy(cfg, env, plans[j]).offset == o;
  }

  /** What a poll leaves alone: other sources' records, and everything unless the upload was confirmed. */
  lemma {:induction false} OnlyConfirmedPollsMoveOffsets(cfg: SourceConfig, ctx: PollContext, env: PollEnv, w: LogWorld,
                                                         source: string, k: Key)
    ensures var (t, r) := ShipSpec(cfg, ctx, env, w);
      && (source != cfg.name ==> ((source, k) in t.offsets <==> (source, k) in w.offsets))
      && (source != cfg.name && (source, k) in w.offsets ==> t.offsets[(source, k)] == w.offsets[(source, k)])
      && (ctx.dryRun || !env.outcome.Confirmed? || !env.commits ==> t.offsets == w.offsets)
      && (ctx.dryRun ==> t == w)
  {
    hide Upserted, Collected, LogsKey, Put, Rows;
    UpsertedRow(w.offsets, cfg.name, Rows(env.sizes, Dict(AllReached(cfg, env, PlansOf(cfg, env, w.offsets)))), env.now,
                source, k);
  }

  // ---- What a committed poll leaves of the records ----

  /** The poll collected lines, its upload was confirmed and its transaction went through. */
  ghost predicate Commits(cfg: SourceConfig, ctx: PollContext, env: PollEnv, w: LogWorld) {
    && Collected(cfg, ctx, env, PlansOf(cfg, env, w.offsets)) != []
    && !ctx.dryRun && env.outcome.Confirmed? && env.commits
  }

  /** A record that no plan names is gone after a committed poll exactly if its stamp is readable and lies more than
      the grace period back; otherwise it is as before. */
  lemma {:induction false} SweptIff(cfg: SourceConfig, ctx: PollContext, env: PollEnv, w: LogWorld, k: Key)
    requires Commits(cfg, ctx, env, w)
    requires forall q :: q in PlansOf(cfg, env, w.offsets) ==> KeyOf(q) != k
    ensures var t := ShipSpec(cfg, ctx, env, w).0.offsets;
      && ((cfg.name, k) in t <==>
            && (cfg.name, k) in w.offsets
            && match w.offsets[(cfg.name, k)].updatedAt
               case At(time) => env.now - time <= ctx.gcAge
               case Unparseable => true)
      && ((cfg.name, k) in t ==> t[(cfg.name, k)] == w.offsets[(cfg.name, k)])
  {
    hide Collected, KeyOf, Uploaded, LogsKey, LineItems, Upserted, PlansOf, Without, Stale, Drain, SizeAtRead;
    var plans := PlansOf(cfg, env, w.offsets);
    var all := AllReached(cfg, env, plans);
    var rows := Rows(env.sizes, all);
    DictIsLastWins(w.offsets, cfg.name, env.sizes, all, env.now);
    UpsertedRow(w.offsets, cfg.name, rows, env.now, cfg.name, k);
    assert forall i :: 0 <= i < |plans| ==> plans[i] in plans && rows[i].key == KeyOf(plans[i]);
    assert k !in PlannedKeys(plans);
    var written := Upserted(w.offsets, cfg.name, rows, env.now);
    StaleAreForgotten(written, cfg.name, PlannedKeys(plans), env.now - ctx.gcAge);
  }

  /** After a committed poll, the record of a planned key names the path and the offset of its last plan, the
      size the file then had, or the offset if it was gone, and the time of the commit. */
  lemma {:induction false} CommittedRecord(cfg: SourceConfig, ctx: PollContext, env: PollEnv, w: LogWorld, i: nat)
    requires Commits(cfg, ctx, env, w) && i < |PlansOf(cfg, env, w.offsets)|
    requires var plans := PlansOf(cfg, env, w.offsets);
      forall j :: i < j < |plans| ==> KeyOf(plans[j]) != KeyOf(plans[i])
    ensures var t, q := ShipSpec(cfg, ctx, env, w).0.offsets, PlansOf(cfg, env, w.offsets)[i];
      var reached := EndOffset(ChunksOf(cfg, env, q), q.start);
      && (cfg.name, KeyOf(q)) in t
      && t[(cfg.name, KeyOf(q))]
         == FileOffset(q.path, reached, if env.sizes(q.path).None? then reached else env.sizes(q.path).value,
                       At(env.now))
  {
    hide Collected, KeyOf, Uploaded, LogsKey, LineItems, Upserted, PlansOf, Without, Stale, Drain;
    var plans := PlansOf(cfg, env, w.offsets);
    var q, all := plans[i], AllReached(cfg, env, plans);
    var rows := Rows(env.sizes, all);
    DictIsLastWins(w.offsets, cfg.name, env.sizes, all, env.now);
    UpsertedEntry(w.offsets, cfg.name, rows, env.now, i);
    assert q in plans && KeyOf(q) in PlannedKeys(plans);
    StaleAreForgotten(Upserted(w.offsets, cfg.name, rows, env.now), cfg.name, PlannedKeys(plans), env.now - ctx.gcAge);
  }
}
