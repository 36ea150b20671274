/** `mongo/extract.py` and the Parquet sink: one collection's run, and all collections of a run. */
module Extract {
  import opened Wrappers
  import opened Timestamps
  import opened Watermarks
  import opened Landing
  import opened Items
  import opened S3
  import opened StateDb

  // ---- Sink ----

  /** `ParquetVariantSink`: one row group per non-empty write, the file created on the first. */
  class ParquetSink {
    var rows: nat
    var groups: seq<seq<Row>>
    var created: bool

    constructor ()
      ensures rows == 0 && groups == [] && !created
    {
      rows, groups, created := 0, [], false;
    }

    method WriteRows(batch: seq<Row>)
      modifies this
      ensures groups == (if batch == [] then old(groups) else old(groups) + [batch])
      ensures rows == old(rows) + |batch| && created == (old(created) || batch != [])
    {
      if batch == [] {
        return;
      }
      created := true;
      groups := groups + [batch];
      rows := rows + |batch|;
    }

    method Close() returns (written: nat)
      ensures written == rows
    {
      written := rows;
    }

    method Abort()
      modifies this`created
      ensures !created
    {
      created := false;
    }
  }

  // ---- What the environment decides ----

  /** The documents a cursor yields, and whether it then fails instead of ending. */
  datatype Served = Served(docs: seq<Doc>, broken: bool)

  /** The server's answers to find(), the upload's outcome, and whether the commit goes through. */
  datatype Env = Env(serve: Filter -> Served, outcome: Outcome, commits: bool)

  datatype RunContext = RunContext(runDt: Instant, dryRun: bool, db: string, prefix: string)

  datatype World = World(watermarks: map<string, Watermark>, objects: Bucket<Item>)

  function Namespace(db: string, name: string): string {
    "mongo:" + (db + ("." + name))
  }

  lemma {:induction false} NamespacesDiffer(db: string, a: string, b: string)
    ensures Namespace(db, a) == "mongo:" + db + "." + a
    ensures Namespace(db, a) == Namespace(db, b) <==> a == b
  {
    if Namespace(db, a) == Namespace(db, b) {
      SameHeads("mongo:", "mongo:", db + ("." + a), db + ("." + b));
      SameHeads(db, db, "." + a, "." + b);
      SameHeads(".", ".", a, b);
    }
  }

  function Lookup(w: World, ns: string): Option<Watermark> {
    if ns in w.watermarks then Some(w.watermarks[ns]) else None
  }

  // ---- Specification of one extraction ----

  /** What a run that reads `docs` uploads, and where it leaves the watermark. */
  function Shipped(cfg: Config, ctx: RunContext, env: Env, w: World, docs: seq<Doc>): (World, Result<UnitResult>) {
    var objects := Uploaded(w.objects, MongoKey(NormalPrefix(ctx.prefix), ctx.db, cfg.name, ctx.runDt),
                            RowItems(RowsOf(cfg.mode, ctx.runDt, docs)), env.outcome);
    var mark := NewWatermark(cfg.mode, ObservedAll(cfg.mode, NOTHING, docs));
    if !env.outcome.Confirmed? then (World(w.watermarks, objects), Ok(UnitResult(cfg.name, StatusFailed, |docs|)))
    else if mark.None? then (World(w.watermarks, objects), Ok(UnitResult(cfg.name, StatusOk, |docs|)))
    else if !env.commits then (World(w.watermarks, objects), Err(CommitFailed))
    else
      (World(w.watermarks[Namespace(ctx.db, cfg.name) := Watermark(Kind(cfg.mode), mark.value)], objects),
       Ok(UnitResult(cfg.name, StatusOk, |docs|)))
  }

  function ExtractSpec(cfg: Config, ctx: RunContext, env: Env, w: World): (World, Result<UnitResult>) {
    var filter := StartFilter(cfg, Lookup(w, Namespace(ctx.db, cfg.name)));
    if filter.Err? then (w, Err(filter.fault))
    else
      var served := env.serve(filter.value);
      if served.broken then (w, Err(CursorFailed))
      else if served.docs == [] then (w, Ok(UnitResult(cfg.name, StatusEmpty, 0)))
      else if ctx.dryRun then (w, Ok(UnitResult(cfg.name, StatusOk, |served.docs|)))
      else Shipped(cfg, ctx, env, w, served.docs)
  }

  // ---- The scan loop: batching refines streaming ----

  /** `len(rows) >= batch_size` first holds at this many rows. */
  function FlushAt(cfg: Config): nat {
    if cfg.batchSize < 1 then 1 else cfg.batchSize
  }

  /** Row groups of exactly `n` rows, save a shorter non-empty last one, making up `rows` in order. */
  ghost predicate Batched(groups: seq<seq<Row>>, rows: seq<Row>, n: nat) {
    && Flatten(groups) == rows
    && (forall i :: 0 <= i < |groups| ==> 0 < |groups[i]| <= n)
    && (forall i :: 0 <= i < |groups| - 1 ==> |groups[i]| == n)
  }

  /** Mid-scan: full groups written, fewer than `n` rows pending. */
  ghost predicate Filling(groups: seq<seq<Row>>, rows: seq<Row>, all: seq<Row>, n: nat) {
    && Flatten(groups) + rows == all && |rows| < n
    && (forall i :: 0 <= i < |groups| ==> |groups[i]| == n)
  }

  lemma {:induction false} FillOne(groups: seq<seq<Row>>, rows: seq<Row>, all: seq<Row>, n: nat, r: Row)
    requires Filling(groups, rows, all, n)
    ensures |rows + [r]| < n ==> Filling(groups, rows + [r], all + [r], n)
    ensures |rows + [r]| >= n ==> Filling(groups + [rows + [r]], [], all + [r], n)
  {
    Assoc(Flatten(groups), rows, [r]);
    FlattenSnoc(groups, rows + [r]);
  }

  lemma {:induction false} FillLast(groups: seq<seq<Row>>, rows: seq<Row>, all: seq<Row>, n: nat)
    requires Filling(groups, rows, all, n)
    ensures Batched(if rows == [] then groups else groups + [rows], all, n)
    ensures all == [] <==> groups == [] && rows == []
  {
    FlattenSnoc(groups, rows);
    if groups != [] {
      assert |groups[0]| == n && Flatten(groups) == groups[0] + Flatten(groups[1..]);
    }
  }

  lemma {:induction false} NextDoc(mode: Mode, run: Instant, docs: seq<Doc>, i: nat)
    requires i < |docs|
    ensures RowsOf(mode, run, docs[..i + 1]) == RowsOf(mode, run, docs[..i]) + [RowOf(mode, run, docs[i])]
    ensures ObservedAll(mode, NOTHING, docs[..i + 1]) == Observed(mode, ObservedAll(mode, NOTHING, docs[..i]), docs[i])
  {
    assert docs[..i + 1][..i] == docs[..i];
  }

  lemma {:induction false} NoRows(cfg: Config, run: Instant, docs: seq<Doc>)
    ensures Filling([], [], RowsOf(cfg.mode, run, docs[..0]), FlushAt(cfg))
    ensures ObservedAll(cfg.mode, NOTHING, docs[..0]) == NOTHING
  {
    assert docs[..0] == [];
  }

  lemma {:induction false} LastRows(cfg: Config, groups: seq<seq<Row>>, rows: seq<Row>, all: seq<Row>)
    requires Filling(groups, rows, all, FlushAt(cfg))
    ensures Batched(if rows == [] then groups else groups + [rows], all, if cfg.batchSize >= 1 then cfg.batchSize else 1)
    ensures all == [] <==> groups == [] && rows == []
  {
    FillLast(groups, rows, all, FlushAt(cfg));
  }

  /** One document of the loop. */
  lemma {:induction false} NextRow(cfg: Config, run: Instant, docs: seq<Doc>, i: nat, groups: seq<seq<Row>>,
                                   rows: seq<Row>)
    requires i < |docs| && Filling(groups, rows, RowsOf(cfg.mode, run, docs[..i]), FlushAt(cfg))
    ensures var more, all := rows + [RowOf(cfg.mode, run, docs[i])], RowsOf(cfg.mode, run, docs[..i + 1]);
      && (|more| < cfg.batchSize ==> Filling(groups, more, all, FlushAt(cfg)))
      && (|more| >= cfg.batchSize ==> Filling(groups + [more], [], all, FlushAt(cfg)))
    ensures ObservedAll(cfg.mode, NOTHING, docs[..i + 1])
         == Observed(cfg.mode, ObservedAll(cfg.mode, NOTHING, docs[..i]), docs[i])
  {
    hide RowsOf, RowOf, Observed, ObservedAll, Filling;
    NextDoc(cfg.mode, run, docs, i);
    FillOne(groups, rows, RowsOf(cfg.mode, run, docs[..i]), FlushAt(cfg), RowOf(cfg.mode, run, docs[i]));
  }

  /** The loop of `extract_collection`: observe, append, flush full batches, flush the rest.
      A failing cursor leaves only what was flushed before. */
  method Scan(cfg: Config, run: Instant, served: Served, strategy: Strategy, sink: ParquetSink) returns (ok: bool)
    requires strategy.cfg == cfg && strategy.Observations() == NOTHING
    requires sink.groups == [] && sink.rows == 0 && !sink.created
    modifies strategy, sink
    ensures ok == !served.broken
    ensures strategy.Observations() == ObservedAll(cfg.mode, NOTHING, served.docs)
    ensures ok ==>
      Batched(sink.groups, RowsOf(cfg.mode, run, served.docs), if cfg.batchSize >= 1 then cfg.batchSize else 1)
    ensures ok ==> sink.rows == |served.docs| && sink.created == (served.docs != [])
  {
    var docs := served.docs;
    var rows: seq<Row> := [];
    hide RowsOf, RowOf, Observed, ObservedAll, Filling, Batched, FlushAt;
    NoRows(cfg, run, docs);
    for i := 0 to |docs|
      invariant strategy.cfg == cfg && strategy.Observations() == ObservedAll(cfg.mode, NOTHING, docs[..i])
      invariant Filling(sink.groups, rows, RowsOf(cfg.mode, run, docs[..i]), FlushAt(cfg))
      invariant sink.rows + |rows| == i && sink.created == (sink.groups != [])
    {
      var doc := docs[i];
      NextRow(cfg, run, docs, i, sink.groups, rows);
      strategy.Observe(doc);
      rows := rows + [RowOf(cfg.mode, run, doc)];
      if |rows| >= cfg.batchSize {
        sink.WriteRows(rows);
        rows := [];
      }
    }
    assert docs[..|docs|] == docs;
    if served.broken {
      return false;
    }
    LastRows(cfg, sink.groups, rows, RowsOf(cfg.mode, run, docs));
    if |rows| > 0 {
      sink.WriteRows(rows);
    }
    return true;
  }

  // ---- extract_collection ----

  method ExtractCollection(cfg: Config, state: StateStore, uploader: Uploader<Item>, ctx: RunContext, env: Env)
    returns (r: Result<UnitResult>)
    requires uploader.prefix == NormalPrefix(ctx.prefix)
    modifies state`watermarks, uploader
    ensures (World(state.watermarks, uploader.objects), r)
            == ExtractSpec(cfg, ctx, env, old(World(state.watermarks, uploader.objects)))
  {
    hide StartFilter, RowsOf, RowItems, MongoKey, NewWatermark, ObservedAll, Put, Namespace, NormalPrefix;
    var ns := Namespace(ctx.db, cfg.name);
    var strategy := new Strategy(cfg);
    var prev := state.GetWatermark(ns);
    var filter := StartFilter(cfg, prev);
    if filter.Err? {
      return Err(filter.fault);
    }
    var served := env.serve(filter.value);
    var sink := new ParquetSink();
    var ok := Scan(cfg, ctx.runDt, served, strategy, sink);
    if !ok {
      sink.Abort();
      return Err(CursorFailed);
    }
    if sink.rows == 0 {
      sink.Abort();
      return Ok(UnitResult(cfg.name, StatusEmpty, 0));
    }
    var written := sink.Close();
    if ctx.dryRun {
      return Ok(UnitResult(cfg.name, StatusOk, written));
    }
    var key := MongoKey(uploader.prefix, ctx.db, cfg.name, ctx.runDt);
    var uploaded := uploader.Upload(key, RowItems(Flatten(sink.groups)), env.outcome);
    if uploaded.Err? {
      sink.Abort();
      return Ok(UnitResult(cfg.name, StatusFailed, written));
    }
    var mark := NewWatermark(cfg.mode, strategy.Observations());
    if mark.Some? {
      state.SetWatermark(ns, Kind(cfg.mode), mark.value, env.commits);
      if !env.commits {
        return Err(CommitFailed);
      }
    }
    return Ok(UnitResult(cfg.name, StatusOk, written));
  }

  // ---- extract_all ----

  predicate EndsWith(s: string, suffix: string) {
    |suffix| <= |s| && s[|s| - |suffix|..] == suffix
  }

  /** GridFS chunks are refused unless allowed. */
  predicate RefusedConfig(cfg: Config) {
    EndsWith(cfg.name, ".chunks") && !cfg.allowChunks
  }

  /** One turn of the loop: a refused or raising collection becomes a failed result. */
  function Turn(cfg: Config, ctx: RunContext, env: Env, w: World): (World, UnitResult) {
    if RefusedConfig(cfg) then (w, UnitResult(cfg.name, StatusFailed, 0))
    else
      var (w', r) := ExtractSpec(cfg, ctx, env, w);
      (w', if r.Ok? then r.value else UnitResult(cfg.name, StatusFailed, 0))
  }

  function ExtractAllSpec(cfgs: seq<Config>, ctx: RunContext, envs: string -> Env, w: World): (World, seq<UnitResult>) {
    if cfgs == [] then (w, [])
    else
      var cfg := cfgs[|cfgs| - 1];
      var (w1, results) := ExtractAllSpec(cfgs[..|cfgs| - 1], ctx, envs, w);
      var (w2, r) := Turn(cfg, ctx, envs(cfg.name), w1);
      (w2, results + [r])
  }

  function AllFailed(cfgs: seq<Config>): seq<UnitResult> {
    seq(|cfgs|, i requires 0 <= i < |cfgs| => UnitResult(cfgs[i].name, StatusFailed, 0))
  }

  /** Failures are isolated per collection; a failed connection fails all without touching anything. */
  method ExtractAll(cfgs: seq<Config>, state: StateStore, uploader: Uploader<Item>, ctx: RunContext,
                    envs: string -> Env, connected: bool)
    returns (results: seq<UnitResult>)
    requires uploader.prefix == NormalPrefix(ctx.prefix)
    modifies state`watermarks, uploader
    ensures connected ==>
      (World(state.watermarks, uploader.objects), results)
      == ExtractAllSpec(cfgs, ctx, envs, old(World(state.watermarks, uploader.objects)))
    ensures !connected ==> World(state.watermarks, uploader.objects) == old(World(state.watermarks, uploader.objects))
    ensures !connected ==> results == AllFailed(cfgs)
  {
    if !connected {
      return AllFailed(cfgs);
    }
    results := [];
    for i := 0 to |cfgs|
      invariant (World(state.watermarks, uploader.objects), results)
                == ExtractAllSpec(cfgs[..i], ctx, envs, old(World(state.watermarks, uploader.objects)))
    {
      var cfg := cfgs[i];
      assert cfgs[..i + 1][..i] == cfgs[..i];
      if RefusedConfig(cfg) {
        results := results + [UnitResult(cfg.name, StatusFailed, 0)];
      } else {
        var r := ExtractCollection(cfg, state, uploader, ctx, envs(cfg.name));
        results := results + [if r.Ok? then r.value else UnitResult(cfg.name, StatusFailed, 0)];
      }
    }
    assert cfgs[..|cfgs|] == cfgs;
  }
}
