/** What the agent reports is what it did: the status of every unit, told from its configuration and from what the
    environment answered, and tied to the objects and positions it leaves. */
module Reports {
  import opened Wrappers
  import opened Strings
  import opened Lines
  import opened ObjectIds
  import opened Timestamps
  import opened Tailer
  import opened Watermarks
  import opened Landing
  import opened Items
  import opened S3
  import opened Extract
  import opened Runner
  import Isolation
  import Ship
  import Sources
  import SourceIsolation
  import StateDb

  // ---- Collections ----

  /** A GridFS chunks collection that is not explicitly allowed. */
  ghost predicate Refused(cfg: Config) {
    !cfg.allowChunks && exists stem: string :: cfg.name == stem + ".chunks"
  }

  lemma {:induction false} RefusedIff(cfg: Config)
    ensures RefusedConfig(cfg) <==> Refused(cfg)
  {
    if RefusedConfig(cfg) {
      var stem := cfg.name[..|cfg.name| - |".chunks"|];
      assert cfg.name == stem + ".chunks";
    }
    if Refused(cfg) {
      var stem: string :| cfg.name == stem + ".chunks";
      assert cfg.name[|cfg.name| - |".chunks"|..] == ".chunks";
    }
  }

  /** Some document read has a position that the mode stores. */
  ghost predicate HasPosition(mode: Mode, docs: seq<Doc>) {
    || (mode.AppendOnly? && docs != [])
    || (mode.Mutable? && exists i :: 0 <= i < |docs| && docs[i].field.Some?)
  }

  lemma {:induction false} StoresIff(mode: Mode, docs: seq<Doc>)
    ensures NewWatermark(mode, ObservedAll(mode, NOTHING, docs)).Some? <==> HasPosition(mode, docs)
  {
    ObservedIsMaximum(mode, docs);
  }

  function StartOf(cfg: Config, ctx: RunContext, w: World): Result<Filter> {
    StartFilter(cfg, Lookup(w, Namespace(ctx.db, cfg.name)))
  }

  /** The cursor was opened and returned all its documents. */
  ghost predicate Reads(cfg: Config, ctx: RunContext, env: Env, w: World) {
    !Refused(cfg) && StartOf(cfg, ctx, w).Ok? && !env.serve(StartOf(cfg, ctx, w).value).broken
  }

  function Read(cfg: Config, ctx: RunContext, env: Env, w: World): seq<Doc> {
    if StartOf(cfg, ctx, w).Ok? then env.serve(StartOf(cfg, ctx, w).value).docs else []
  }

  /** Nothing read, a dry run, or the object confirmed and the position, where there is one, committed. */
  ghost predicate Completes(cfg: Config, ctx: RunContext, env: Env, docs: seq<Doc>) {
    docs == [] || ctx.dryRun || (env.outcome.Confirmed? && (HasPosition(cfg.mode, docs) ==> env.commits))
  }

  /** The status of a collection's turn, and the number of documents it reports. */
  lemma {:induction false} TurnStatus(cfg: Config, ctx: RunContext, env: Env, w: World)
    ensures var r, docs := Turn(cfg, ctx, env, w).1, Read(cfg, ctx, env, w);
      && r.name == cfg.name
      && (r.status == StatusFailed <==> !Reads(cfg, ctx, env, w) || !Completes(cfg, ctx, env, docs))
      && (r.status == StatusEmpty <==> Reads(cfg, ctx, env, w) && docs == [])
      && (r.status == StatusOk <==> Reads(cfg, ctx, env, w) && docs != [] && Completes(cfg, ctx, env, docs))
      && r.docs == if !Reads(cfg, ctx, env, w) || (env.outcome.Confirmed? && !Completes(cfg, ctx, env, docs)) then 0
                   else |docs|
  {
    hide StartFilter, ObservedAll, NewWatermark, MongoKey, RowsOf, RowItems, Uploaded, Namespace, Lookup, HasPosition,
      RefusedConfig, Refused;
    RefusedIff(cfg);
    StoresIff(cfg.mode, Read(cfg, ctx, env, w));
  }

  /** The row a document lands as: its id in hex, the document, its own watermark, the start of the run. */
  ghost predicate LandsAs(mode: Mode, run: Instant, d: Doc, row: Row) {
    && row.id == Hex(d.id) && row.doc == d && row.extractedAt == run
    && row.watermark == match mode
                        case AppendOnly => Hex(d.id)
                        case Mutable => if d.field.None? then "" else FormatTs(d.field.value)
                        case FullRefresh => ""
  }

  /** The object holds exactly these documents, in order. */
  ghost predicate HoldsDocs(mode: Mode, run: Instant, docs: seq<Doc>, body: Option<seq<Item>>) {
    && body.Some? && |body.value| == |docs|
    && forall i :: 0 <= i < |docs| ==> body.value[i].RowItem? && LandsAs(mode, run, docs[i], body.value[i].row)
  }

  /** The position is one of the mode, and the greatest of the rows' watermarks as strings. */
  ghost predicate Greatest(mode: Mode, docs: seq<Doc>, stored: Option<Watermark>) {
    && stored.Some? && OfMode(mode, stored.value)
    && (exists i :: 0 <= i < |docs| && WatermarkColumn(mode, docs[i]) == stored.value.value)
    && (forall i :: 0 <= i < |docs| ==> !StrLess(stored.value.value, WatermarkColumn(mode, docs[i])))
  }

  lemma {:induction false} RowsHoldDocs(mode: Mode, run: Instant, docs: seq<Doc>)
    ensures HoldsDocs(mode, run, docs, Some(RowItems(RowsOf(mode, run, docs))))
  {
    hide Hex, FormatTs;
    var rows := RowsOf(mode, run, docs);
    hide RowsOf;
    forall i | 0 <= i < |docs|
      ensures LandsAs(mode, run, docs[i], RowItems(rows)[i].row)
    {
      assert rows[i] == RowOf(mode, run, docs[i]);
    }
  }

  /** Outside a dry run, "ok" means that the run's object holds exactly the documents read and that the stored
      position is their greatest, where the mode has one; nothing else moves the position, and the bucket is as
      it was in a dry run and wherever no upload was made visible. */
  lemma {:induction false} TurnDoesWhatItReports(cfg: Config, ctx: RunContext, env: Env, w: World)
    ensures var (t, r) := Turn(cfg, ctx, env, w);
      var docs, ns, key := Read(cfg, ctx, env, w), Namespace(ctx.db, cfg.name), Isolation.KeyOf(cfg, ctx);
      && (r.status == StatusOk && !ctx.dryRun ==>
            && HoldsDocs(cfg.mode, ctx.runDt, docs, Body(t.objects, key))
            && (if HasPosition(cfg.mode, docs) then Greatest(cfg.mode, docs, Lookup(t, ns))
                else t.watermarks == w.watermarks))
      && (r.status != StatusOk || ctx.dryRun ==> t.watermarks == w.watermarks)
      && (r.status == StatusEmpty || ctx.dryRun || env.outcome.Invisible? || !Reads(cfg, ctx, env, w) ==>
            t.objects == w.objects)
  {
    hide StartFilter, ObservedAll, NewWatermark, MongoKey, RowsOf, RowItems, Put, Body, Namespace, HasPosition, OfMode,
      RefusedConfig, Refused, HoldsDocs, WatermarkColumn, StrLess;
    RefusedIff(cfg);
    var docs := Read(cfg, ctx, env, w);
    var body := RowItems(RowsOf(cfg.mode, ctx.runDt, docs));
    StoresIff(cfg.mode, docs);
    RowsHoldDocs(cfg.mode, ctx.runDt, docs);
    BodyOfPut(w.objects, Isolation.KeyOf(cfg, ctx), body, Isolation.KeyOf(cfg, ctx));
    WatermarkIsGreatestColumn(cfg.mode, docs);
    KindIsOfMode(cfg.mode);
  }

  lemma {:induction false} KindIsOfMode(mode: Mode)
    ensures forall value :: OfMode(mode, Watermark(Kind(mode), value))
  {}

  // ---- Log sources ----

  /** The lines one poll collects, plan by plan. */
  function CollectedBy(cfg: Ship.SourceConfig, ctx: Ship.PollContext, env: Ship.PollEnv, w: Ship.LogWorld)
    : seq<LogRecord>
  {
    Ship.Collected(cfg, ctx, env, Ship.PlansOf(cfg, env, w.offsets))
  }

  /** The status of a source's poll, what it counts, and what it did. */
  lemma {:induction false} PollDoesWhatItReports(cfg: Ship.SourceConfig, ctx: Ship.PollContext, env: Ship.PollEnv,
                                                 w: Ship.LogWorld)
    ensures var (t, result) := Ship.ShipSpec(cfg, ctx, env, w);
      var r, records := SourceIsolation.ResultOf(result, cfg.name), CollectedBy(cfg, ctx, env, w);
      var key := SourceIsolation.ObjectKey(cfg, ctx);
      var completes := ctx.dryRun || (env.outcome.Confirmed? && env.commits);
      && r.name == cfg.name
      && (r.status == StatusEmpty <==> records == [])
      && (r.status == StatusFailed <==> records != [] && !completes)
      && (r.status == StatusOk <==> records != [] && completes)
      && r.docs == (if env.outcome.Confirmed? && !completes then 0 else |records|)
      && (r.status == StatusOk && !ctx.dryRun ==> Body(t.objects, key) == Some(LineItems(records)))
      && (r.status != StatusOk || ctx.dryRun ==> t.offsets == w.offsets)
      && (r.status == StatusEmpty || ctx.dryRun || env.outcome.Invisible? ==> t.objects == w.objects)
  {
    hide Ship.Collected, Ship.PlansOf, Ship.Committed, LogsKey, LineItems, Put, Body;
    var key := SourceIsolation.ObjectKey(cfg, ctx);
    BodyOfPut(w.objects, key, LineItems(CollectedBy(cfg, ctx, env, w)), key);
  }

  /** A record comes from a line of a chunk of a planned file, and says so. */
  ghost predicate Recorded(cfg: Ship.SourceConfig, ctx: Ship.PollContext, env: Ship.PollEnv, q: Sources.TailPlan,
                           c: TailChunk, r: LogRecord) {
    && c in Ship.ChunksOf(cfg, env, q) && r.line in c.lines && r.fileOffset == c.newOffset
    && r.host == ctx.host && r.source == cfg.name && r.file == env.nameOf(q.path)
  }

  ghost predicate FromPlans(cfg: Ship.SourceConfig, ctx: Ship.PollContext, env: Ship.PollEnv,
                            plans: seq<Sources.TailPlan>, r: LogRecord) {
    exists q, c :: q in plans && Recorded(cfg, ctx, env, q, c, r)
  }

  lemma {:induction false} DrainRecorded(cfg: Ship.SourceConfig, ctx: Ship.PollContext, file: string,
                                         chunks: seq<TailChunk>, r: LogRecord)
    returns (c: TailChunk)
    requires r in Ship.DrainRecords(cfg, ctx, file, chunks)
    ensures c in chunks && r.line in c.lines && r.fileOffset == c.newOffset
    ensures r.host == ctx.host && r.source == cfg.name && r.file == file
  {
    c := chunks[|chunks| - 1];
    if r !in Ship.ChunkRecords(cfg, ctx, file, c) {
      c := DrainRecorded(cfg, ctx, file, chunks[..|chunks| - 1], r);
    }
  }

  /** Every record of a poll names the host, the source, the file and the end of the read its line came from. */
  lemma {:induction false} RecordsSayWhereFrom(cfg: Ship.SourceConfig, ctx: Ship.PollContext, env: Ship.PollEnv,
                                               plans: seq<Sources.TailPlan>, r: LogRecord)
    requires r in Ship.Collected(cfg, ctx, env, plans)
    ensures FromPlans(cfg, ctx, env, plans, r)
  {
    hide Ship.DrainRecords, Ship.ChunksOf, Recorded;
    var init, q := plans[..|plans| - 1], plans[|plans| - 1];
    if r in Ship.Collected(cfg, ctx, env, init) {
      RecordsSayWhereFrom(cfg, ctx, env, init, r);
      var p, c :| p in init && Recorded(cfg, ctx, env, p, c, r);
      assert p in plans;
    } else {
      var c := DrainRecorded(cfg, ctx, env.nameOf(q.path), Ship.ChunksOf(cfg, env, q), r);
      assert q in plans && Recorded(cfg, ctx, env, q, c, r) by { RecordedHere(cfg, ctx, env, q, c, r); }
    }
  }

  lemma {:induction false} RecordedHere(cfg: Ship.SourceConfig, ctx: Ship.PollContext, env: Ship.PollEnv,
                                        q: Sources.TailPlan, c: TailChunk, r: LogRecord)
    requires c in Ship.ChunksOf(cfg, env, q) && r.line in c.lines && r.fileOffset == c.newOffset
    requires r.host == ctx.host && r.source == cfg.name && r.file == env.nameOf(q.path)
    ensures Recorded(cfg, ctx, env, q, c, r)
  {}

  // ---- Host metrics ----

  /** The host metrics module reports once, if it runs, and touches nothing but its own object. */
  lemma {:induction false} MetricsDoWhatTheyReport(a: Agent, r: Run, d: Deployed)
    ensures var (t, results) := AfterMetrics(a, r, d);
      var key := HostMetricsKey(NormalPrefix(a.prefix), r.runDt);
      && t.watermarks == d.watermarks && t.offsets == d.offsets
      && |results| == (if r.metrics.None? then 0 else 1)
      && (forall k :: k != key ==> Body(t.objects, k) == Body(d.objects, k))
      && (r.metrics.Some? ==>
            var records, result := r.metrics.value, results[0];
            && result.name == "hostmetrics"
            && (result.status == StatusEmpty <==> records == [])
            && (result.status == StatusFailed <==> records != [] && !r.dryRun && !r.metricsOutcome.Confirmed?)
            && result.docs == (if result.status == StatusFailed then 0 else |records|)
            && (result.status == StatusOk && !r.dryRun ==> Body(t.objects, key) == Some(MetricItems(records))))
      && (r.metrics.None? || r.metrics.value == [] || r.dryRun || r.metricsOutcome.Invisible? ==>
            t.objects == d.objects)
  {
    hide HostMetricsKey, NormalPrefix, MetricItems, Put, Body;
    if r.metrics.Some? {
      var key := HostMetricsKey(NormalPrefix(a.prefix), r.runDt);
      forall k
        ensures Body(Put(d.objects, key, MetricItems(r.metrics.value)), k)
             == if k == key then Some(MetricItems(r.metrics.value)) else Body(d.objects, k)
      {
        BodyOfPut(d.objects, key, MetricItems(r.metrics.value), k);
      }
    }
  }

  // ---- A whole run ----

  lemma {:induction false} PollsKeepBody(cfgs: seq<Ship.SourceConfig>, ctx: Ship.PollContext,
                                         envs: string -> Ship.PollEnv, w: Ship.LogWorld, key: string)
    requires forall c :: c in cfgs ==> key != SourceIsolation.ObjectKey(c, ctx)
    ensures Body(Ship.ShipAllSpec(cfgs, ctx, envs, w).0.objects, key) == Body(w.objects, key)
    decreases |cfgs|
  {
    hide Ship.ShipSpec, Body, SourceIsolation.ObjectKey;
    if cfgs != [] {
      var init, last := cfgs[..|cfgs| - 1], cfgs[|cfgs| - 1];
      assert last in cfgs && forall c :: c in init ==> c in cfgs;
      PollsKeepBody(init, ctx, envs, w, key);
      SourceIsolation.PollKeepsOtherObjects(last, ctx, envs(last.name), Ship.ShipAllSpec(init, ctx, envs, w).0, key);
    }
  }

  /** What a run reported for collection `i`, and what it left of it. */
  ghost predicate RunKeepsWord(a: Agent, r: Run, d: Deployed, i: nat)
    requires r.connected && i < |r.collections| && i < |RunSpec(a, r, d).1|
  {
    var (t, results) := RunSpec(a, r, d);
    var cfg, ctx := r.collections[i], RunContext(r.runDt, r.dryRun, a.db, a.prefix);
    var docs := Read(cfg, ctx, r.servers(cfg.name), MongoPart(d));
    && results[i] == Turn(cfg, ctx, r.servers(cfg.name), MongoPart(d)).1
    && (results[i].status == StatusOk && !r.dryRun ==>
          && HoldsDocs(cfg.mode, r.runDt, docs, Body(t.objects, Isolation.KeyOf(cfg, ctx)))
          && (HasPosition(cfg.mode, docs) ==>
                Greatest(cfg.mode, docs, Lookup(MongoPart(t), Namespace(a.db, cfg.name)))))
  }

  lemma {:induction false} OneResultPerPoll(cfgs: seq<Ship.SourceConfig>, ctx: Ship.PollContext,
                                            envs: string -> Ship.PollEnv, w: Ship.LogWorld)
    ensures var results := Ship.ShipAllSpec(cfgs, ctx, envs, w).1;
      |results| == |cfgs| && forall i :: 0 <= i < |cfgs| ==> results[i].name == cfgs[i].name
    decreases |cfgs|
  {
    hide Ship.ShipSpec;
    if cfgs != [] {
      var init, last := cfgs[..|cfgs| - 1], cfgs[|cfgs| - 1];
      OneResultPerPoll(init, ctx, envs, w);
      SourceIsolation.NamedResult(last, ctx, envs(last.name), Ship.ShipAllSpec(init, ctx, envs, w).0);
    }
  }

  lemma {:induction false} OneResultPerTurn(cfgs: seq<Config>, ctx: RunContext, envs: string -> Env, w: World)
    ensures var results := ExtractAllSpec(cfgs, ctx, envs, w).1;
      |results| == |cfgs| && forall i :: 0 <= i < |cfgs| ==> results[i].name == cfgs[i].name
    decreases |cfgs|
  {
    hide Turn;
    if cfgs != [] {
      var init, last := cfgs[..|cfgs| - 1], cfgs[|cfgs| - 1];
      OneResultPerTurn(init, ctx, envs, w);
      Isolation.TurnName(last, ctx, envs(last.name), ExtractAllSpec(init, ctx, envs, w).0);
    }
  }

  /** The units of a run in the order of their results. */
  function UnitsOf(r: Run): seq<string> {
    seq(|r.collections|, i requires 0 <= i < |r.collections| => r.collections[i].name)
    + seq(|r.sources|, i requires 0 <= i < |r.sources| => r.sources[i].name)
    + (if r.metrics.Some? then ["hostmetrics"] else [])
  }

  /** A run reports each unit of each module once, collections first, then sources, then host metrics; if the
      database cannot be reached, every collection has failed and no position has moved. */
  lemma {:induction false} RunReportsEachUnit(a: Agent, r: Run, d: Deployed)
    ensures var (t, results) := RunSpec(a, r, d);
      && |results| == |UnitsOf(r)| && (forall i :: 0 <= i < |results| ==> results[i].name == UnitsOf(r)[i])
      && (!r.connected ==> t.watermarks == d.watermarks
                           && forall i :: 0 <= i < |r.collections| ==> results[i].status == StatusFailed)
  {
    hide ExtractAllSpec, Ship.ShipAllSpec, HostMetricsKey, MetricItems, Uploaded;
    OneResultPerTurn(r.collections, RunContextOf(a, r), r.servers, MongoPart(d));
    var d1 := AfterMongo(a, r, d).0;
    OneResultPerPoll(r.sources, PollContextOf(a, r), r.systems, LogsPart(d1));
    MetricsDoWhatTheyReport(a, r, AfterLogs(a, r, d1).0);
  }

  /** The whole agent keeps its word: with distinct names, the report of a collection is that of its turn, and
      when the run is over and it said "ok", the shared bucket holds exactly the documents read and the store
      their greatest position, whatever the other units did. */
  lemma {:induction false} RunDoesWhatItReports(a: Agent, r: Run, d: Deployed, i: nat)
    requires r.connected && Isolation.DistinctNames(r.collections) && i < |r.collections|
    ensures i < |RunSpec(a, r, d).1| && RunKeepsWord(a, r, d, i)
  {
    hide Turn, ExtractAllSpec, Ship.ShipAllSpec, Body, HoldsDocs, Greatest, HasPosition, Read, AfterMetrics, Namespace,
      HostMetricsKey, MongoKey, LogsKey;
    var cfg, ctx, pctx := r.collections[i], RunContextOf(a, r), PollContextOf(a, r);
    var (w, mongo) := ExtractAllSpec(r.collections, ctx, r.servers, MongoPart(d));
    Isolation.EachFaresAlone(r.collections, ctx, r.servers, MongoPart(d));
    TurnDoesWhatItReports(cfg, ctx, r.servers(cfg.name), MongoPart(d));
    var d1 := AfterMongo(a, r, d).0;
    var key := Isolation.KeyOf(cfg, ctx);
    forall c | c in r.sources
      ensures key != SourceIsolation.ObjectKey(c, pctx)
    {
      KeyFamiliesDisjoint(NormalPrefix(a.prefix), a.db, cfg.name, c.name, r.runDt, r.runDt, r.runDt);
    }
    PollsKeepBody(r.sources, pctx, r.systems, LogsPart(d1), key);
    KeyFamiliesDisjoint(NormalPrefix(a.prefix), a.db, cfg.name, "", r.runDt, r.runDt, r.runDt);
    MetricsDoWhatTheyReport(a, r, AfterLogs(a, r, d1).0);
  }

  /** The same for source `i`. */
  ghost predicate RunKeepsWordOnSource(a: Agent, r: Run, d: Deployed, i: nat)
    requires i < |r.sources| && |r.collections| + i < |RunSpec(a, r, d).1|
  {
    var (t, results) := RunSpec(a, r, d);
    var cfg, ctx := r.sources[i], Ship.PollContext(r.runDt, r.dryRun, a.host, a.prefix, a.gcAge);
    var poll, result := Ship.ShipSpec(cfg, ctx, r.systems(cfg.name), LogsPart(AfterMongo(a, r, d).0)).1,
                        results[|r.collections| + i];
    && result == SourceIsolation.ResultOf(poll, cfg.name)
    && (result.status == StatusOk && !r.dryRun ==>
          Body(t.objects, SourceIsolation.ObjectKey(cfg, ctx))
          == Some(LineItems(CollectedBy(cfg, ctx, r.systems(cfg.name), LogsPart(d)))))
  }

  lemma {:induction false} RunShipsWhatItReports(a: Agent, r: Run, d: Deployed, i: nat)
    requires SourceIsolation.DistinctNames(r.sources) && i < |r.sources|
    ensures |r.collections| + i < |RunSpec(a, r, d).1| && RunKeepsWordOnSource(a, r, d, i)
  {
    hide ExtractAllSpec, Ship.ShipSpec, Ship.ShipAllSpec, Body, Ship.Collected, AfterMetrics, HostMetricsKey, MongoKey,
      LogsKey, LineItems;
    var cfg, ctx := r.sources[i], PollContextOf(a, r);
    var d1 := AfterMongo(a, r, d).0;
    OneResultPerTurn(r.collections, RunContextOf(a, r), r.servers, MongoPart(d));
    SourceIsolation.EachSourceFaresAlone(r.sources, ctx, r.systems, LogsPart(d1));
    assert SourceIsolation.FaresAlone(cfg, ctx, r.systems, LogsPart(d1),
                                      Ship.ShipAllSpec(r.sources, ctx, r.systems, LogsPart(d1)).0,
                                      Ship.ShipAllSpec(r.sources, ctx, r.systems, LogsPart(d1)).1[i]);
    PollDoesWhatItReports(cfg, ctx, r.systems(cfg.name), LogsPart(d1));
    KeyFamiliesDisjoint(NormalPrefix(a.prefix), "", "", cfg.name, r.runDt, r.runDt, r.runDt);
    MetricsDoWhatTheyReport(a, r, AfterLogs(a, r, d1).0);
  }

  // ---- What a run leaves alone ----

  lemma {:induction false} DryTurns(cfgs: seq<Config>, ctx: RunContext, envs: string -> Env, w: World)
    requires ctx.dryRun
    ensures ExtractAllSpec(cfgs, ctx, envs, w).0 == w
    decreases |cfgs|
  {
    hide Turn;
    if cfgs != [] {
      var init, last := cfgs[..|cfgs| - 1], cfgs[|cfgs| - 1];
      DryTurns(init, ctx, envs, w);
      TurnDoesWhatItReports(last, ctx, envs(last.name), w);
    }
  }

  lemma {:induction false} DryPolls(cfgs: seq<Ship.SourceConfig>, ctx: Ship.PollContext, envs: string -> Ship.PollEnv,
                                    w: Ship.LogWorld)
    requires ctx.dryRun
    ensures Ship.ShipAllSpec(cfgs, ctx, envs, w).0 == w
    decreases |cfgs|
  {
    hide Ship.ShipSpec, CollectedBy, Body, LineItems;
    if cfgs != [] {
      var init, last := cfgs[..|cfgs| - 1], cfgs[|cfgs| - 1];
      DryPolls(init, ctx, envs, w);
      PollDoesWhatItReports(last, ctx, envs(last.name), w);
    }
  }

  /** A dry run changes nothing, whatever it reports. */
  lemma {:induction false} DryRunChangesNothing(a: Agent, r: Run, d: Deployed)
    requires r.dryRun
    ensures RunSpec(a, r, d).0 == d
  {
    hide ExtractAllSpec, Ship.ShipAllSpec, HostMetricsKey, MetricItems, Body;
    DryTurns(r.collections, RunContextOf(a, r), r.servers, MongoPart(d));
    DryPolls(r.sources, PollContextOf(a, r), r.systems, LogsPart(d));
    MetricsDoWhatTheyReport(a, r, d);
  }

  lemma {:induction false} TurnsKeep(cfgs: seq<Config>, ctx: RunContext, envs: string -> Env, w: World, ns: string,
                                     key: string)
    ensures var t := ExtractAllSpec(cfgs, ctx, envs, w).0;
      && ((forall c :: c in cfgs ==> ns != Namespace(ctx.db, c.name)) ==> Lookup(t, ns) == Lookup(w, ns))
      && ((forall c :: c in cfgs ==> key != Isolation.KeyOf(c, ctx)) ==> Body(t.objects, key) == Body(w.objects, key))
    decreases |cfgs|
  {
    hide Turn, Namespace, Isolation.KeyOf, Lookup, Body;
    if cfgs != [] {
      var init, last := cfgs[..|cfgs| - 1], cfgs[|cfgs| - 1];
      assert last in cfgs && forall c :: c in init ==> c in cfgs;
      TurnsKeep(init, ctx, envs, w, ns, key);
      Isolation.TurnKeepsOthers(last, ctx, envs(last.name), ExtractAllSpec(init, ctx, envs, w).0, ns, key);
    }
  }

  /** A run writes no object but those of its own units, and moves no position but theirs. */
  lemma {:induction false} RunLeavesOthersAlone(a: Agent, r: Run, d: Deployed, ns: string, source: Ship.SourceConfig,
                                                key: string)
    ensures var t := RunSpec(a, r, d).0;
      && ((forall c :: c in r.collections ==> ns != Namespace(a.db, c.name)) ==>
            Lookup(MongoPart(t), ns) == Lookup(MongoPart(d), ns))
      && ((forall c :: c in r.sources ==> c.name != source.name) ==>
            StateDb.OffsetsOf(t.offsets, source.name) == StateDb.OffsetsOf(d.offsets, source.name))
      && ((forall c :: c in r.collections ==> key != Isolation.KeyOf(c, RunContextOf(a, r)))
          && (forall c :: c in r.sources ==> key != SourceIsolation.ObjectKey(c, PollContextOf(a, r)))
          && key != HostMetricsKey(NormalPrefix(a.prefix), r.runDt) ==>
            Body(t.objects, key) == Body(d.objects, key))
  {
    hide ExtractAllSpec, Ship.ShipAllSpec, Body, AfterMetrics, HostMetricsKey, MongoKey, LogsKey, Namespace,
      StateDb.OffsetsOf;
    var ctx, pctx := RunContextOf(a, r), PollContextOf(a, r);
    TurnsKeep(r.collections, ctx, r.servers, MongoPart(d), ns, key);
    var d1 := AfterMongo(a, r, d).0;
    if forall c :: c in r.sources ==> c.name != source.name {
      assert SourceIsolation.Absent(r.sources, source);
      SourceIsolation.AbsentIsKept(r.sources, pctx, r.systems, LogsPart(d1), source);
    }
    if forall c :: c in r.sources ==> key != SourceIsolation.ObjectKey(c, pctx) {
      PollsKeepBody(r.sources, pctx, r.systems, LogsPart(d1), key);
    }
    MetricsDoWhatTheyReport(a, r, AfterLogs(a, r, d1).0);
  }

  /** What a run reports of the host metrics holds when it is over. */
  lemma {:induction false} RunLandsMetrics(a: Agent, r: Run, d: Deployed)
    requires r.metrics.Some?
    ensures var (t, results) := RunSpec(a, r, d);
      && results != []
      && (results[|results| - 1].status == StatusOk && !r.dryRun ==>
            Body(t.objects, HostMetricsKey(NormalPrefix(a.prefix), r.runDt)) == Some(MetricItems(r.metrics.value)))
  {
    hide AfterMetrics, AfterMongo, AfterLogs, Body, HostMetricsKey, MetricItems;
    var d2 := AfterLogs(a, r, AfterMongo(a, r, d).0).0;
    MetricsDoWhatTheyReport(a, r, d2);
    var own, results := AfterMetrics(a, r, d2).1, RunSpec(a, r, d).1;
    assert results[|results| - 1] == own[0];
  }
}
