/** Log sources of one run do not disturb each other. */
module SourceIsolation {
  import opened Wrappers
  import opened Items
  import opened S3
  import opened StateDb
  import opened Sources
  import opened Ship

  function ObjectKey(cfg: SourceConfig, ctx: PollContext): string {
    LogsKey(NormalPrefix(ctx.prefix), cfg.name, ctx.runDt)
  }

  /** One turn of the loop: a source that raises becomes a failed result. */
  function ResultOf(r: Result<UnitResult>, name: string): UnitResult {
    if r.Ok? then r.value else UnitResult(name, StatusFailed, 0)
  }

  /** The two worlds hold the same records and the same object for one source. */
  ghost predicate AgreeOn(cfg: SourceConfig, ctx: PollContext, v: LogWorld, w: LogWorld) {
    && OffsetsOf(v.offsets, cfg.name) == OffsetsOf(w.offsets, cfg.name)
    && Body(v.objects, ObjectKey(cfg, ctx)) == Body(w.objects, ObjectKey(cfg, ctx))
  }

  lemma {:induction false} CommittedIsLocal(cfg: SourceConfig, ctx: PollContext, env: PollEnv, v: LogWorld, w: LogWorld)
    requires OffsetsOf(v.offsets, cfg.name) == OffsetsOf(w.offsets, cfg.name)
    ensures PlansOf(cfg, env, v.offsets) == PlansOf(cfg, env, w.offsets)
    ensures OffsetsOf(Committed(cfg, ctx, env, v.offsets, PlansOf(cfg, env, v.offsets)), cfg.name)
         == OffsetsOf(Committed(cfg, ctx, env, w.offsets, PlansOf(cfg, env, w.offsets)), cfg.name)
  {
    hide OffsetsOf, Upserted, Without, Stale, Rows, Dict, AllReached, PlannedKeys;
    var plans := PlansOf(cfg, env, v.offsets);
    var rows := Rows(env.sizes, Dict(AllReached(cfg, env, plans)));
    var keys, cutoff := PlannedKeys(plans), env.now - ctx.gcAge;
    OwnUpserts(v.offsets, w.offsets, cfg.name, rows, env.now);
    var a, b := Upserted(v.offsets, cfg.name, rows, env.now), Upserted(w.offsets, cfg.name, rows, env.now);
    SameStale(a, b, cfg.name, keys, cutoff);
    OwnRemoved(a, cfg.name, Stale(a, cfg.name, keys, cutoff));
    OwnRemoved(b, cfg.name, Stale(b, cfg.name, keys, cutoff));
  }

  /** What one poll does depends on, and shows in, nothing but its own records and key. */
  lemma {:induction false} PollIsLocal(cfg: SourceConfig, ctx: PollContext, env: PollEnv, v: LogWorld, w: LogWorld)
    requires AgreeOn(cfg, ctx, v, w)
    ensures ShipSpec(cfg, ctx, env, v).1 == ShipSpec(cfg, ctx, env, w).1
    ensures AgreeOn(cfg, ctx, ShipSpec(cfg, ctx, env, v).0, ShipSpec(cfg, ctx, env, w).0)
  {
    hide OffsetsOf, LogsKey, LineItems, Collected, Committed, Body, Put, PlansOf;
    CommittedIsLocal(cfg, ctx, env, v, w);
    var body := LineItems(Collected(cfg, ctx, env, PlansOf(cfg, env, v.offsets)));
    BodyOfPut(v.objects, ObjectKey(cfg, ctx), body, ObjectKey(cfg, ctx));
    BodyOfPut(w.objects, ObjectKey(cfg, ctx), body, ObjectKey(cfg, ctx));
  }

  lemma {:induction false} PollKeepsOtherOffsets(cfg: SourceConfig, ctx: PollContext, env: PollEnv, w: LogWorld,
                                                 other: string)
    requires other != cfg.name
    ensures OffsetsOf(ShipSpec(cfg, ctx, env, w).0.offsets, other) == OffsetsOf(w.offsets, other)
  {
    hide OffsetsOf, LogsKey, LineItems, Collected, Uploaded, PlansOf, Upserted, Without, Stale, Rows, Dict, AllReached,
      PlannedKeys;
    var plans := PlansOf(cfg, env, w.offsets);
    var rows := Rows(env.sizes, Dict(AllReached(cfg, env, plans)));
    var written := Upserted(w.offsets, cfg.name, rows, env.now);
    ForeignUpserts(w.offsets, cfg.name, rows, env.now, other);
    ForeignRemoved(written, cfg.name, Stale(written, cfg.name, PlannedKeys(plans), env.now - ctx.gcAge), other);
  }

  lemma {:induction false} PollKeepsOtherObjects(cfg: SourceConfig, ctx: PollContext, env: PollEnv, w: LogWorld,
                                                 key: string)
    requires key != ObjectKey(cfg, ctx)
    ensures Body(ShipSpec(cfg, ctx, env, w).0.objects, key) == Body(w.objects, key)
  {
    hide LogsKey, LineItems, Collected, Body, Put, PlansOf, Committed;
    BodyOfPut(w.objects, ObjectKey(cfg, ctx), LineItems(Collected(cfg, ctx, env, PlansOf(cfg, env, w.offsets))), key);
  }

  lemma {:induction false} PollKeepsOthers(cfg: SourceConfig, last: SourceConfig, ctx: PollContext, env: PollEnv,
                                           w: LogWorld)
    requires cfg.name != last.name
    ensures AgreeOn(cfg, ctx, ShipSpec(last, ctx, env, w).0, w)
  {
    hide ShipSpec, OffsetsOf, Body, ObjectKey;
    KeysDiffer(cfg, last, ctx);
    PollKeepsOtherOffsets(last, ctx, env, w, cfg.name);
    PollKeepsOtherObjects(last, ctx, env, w, ObjectKey(cfg, ctx));
  }

  ghost predicate DistinctNames(cfgs: seq<SourceConfig>) {
    forall i, j :: 0 <= i < j < |cfgs| ==> cfgs[i].name != cfgs[j].name
  }

  /** A source not in the list. */
  ghost predicate Absent(cfgs: seq<SourceConfig>, cfg: SourceConfig) {
    forall i :: 0 <= i < |cfgs| ==> cfgs[i].name != cfg.name
  }

  lemma {:induction false} KeysDiffer(a: SourceConfig, b: SourceConfig, ctx: PollContext)
    ensures ObjectKey(a, ctx) == ObjectKey(b, ctx) <==> a.name == b.name
  {
    LogsKeyInjective(NormalPrefix(ctx.prefix), a.name, ctx.runDt, b.name, ctx.runDt);
  }

  /** A run leaves alone the records and the object of every source it does not ship. */
  lemma {:induction false} AbsentIsKept(cfgs: seq<SourceConfig>, ctx: PollContext, envs: string -> PollEnv, w: LogWorld,
                                        cfg: SourceConfig)
    requires Absent(cfgs, cfg)
    ensures AgreeOn(cfg, ctx, ShipAllSpec(cfgs, ctx, envs, w).0, w)
    decreases |cfgs|
  {
    hide ShipSpec, OffsetsOf, Body, ObjectKey;
    if cfgs != [] {
      var init, last := cfgs[..|cfgs| - 1], cfgs[|cfgs| - 1];
      assert Absent(init, cfg);
      AbsentIsKept(init, ctx, envs, w, cfg);
      PollKeepsOthers(cfg, last, ctx, envs(last.name), ShipAllSpec(init, ctx, envs, w).0);
    }
  }

  /** With distinct names, each source's result, records and object are what they would be had it been shipped
      alone, and there is one result for each, in order. */
  lemma {:induction false} EachSourceFaresAlone(cfgs: seq<SourceConfig>, ctx: PollContext, envs: string -> PollEnv,
                                                w: LogWorld)
    requires DistinctNames(cfgs)
    ensures var (w', results) := ShipAllSpec(cfgs, ctx, envs, w);
      && |results| == |cfgs|
      && forall i :: 0 <= i < |cfgs| ==> FaresAlone(cfgs[i], ctx, envs, w, w', results[i])
    decreases |cfgs|
  {
    hide ShipSpec, FaresAlone, AgreeOn;
    if cfgs != [] {
      var n := |cfgs| - 1;
      var init, last := cfgs[..n], cfgs[n];
      var (w1, before) := ShipAllSpec(init, ctx, envs, w);
      var (w', results) := ShipAllSpec(cfgs, ctx, envs, w);
      assert DistinctNames(init);
      EachSourceFaresAlone(init, ctx, envs, w);
      assert Absent(init, last);
      AbsentIsKept(init, ctx, envs, w, last);
      LastFaresAlone(last, ctx, envs, w, w1);
      forall i | 0 <= i < n
        ensures FaresAlone(cfgs[i], ctx, envs, w, w', results[i])
      {
        assert init[i] == cfgs[i] && results[i] == before[i];
        OthersStillDo(cfgs[i], last, ctx, envs, w, w1, before[i]);
      }
    }
  }

  ghost predicate FaresAlone(cfg: SourceConfig, ctx: PollContext, envs: string -> PollEnv, w: LogWorld, w': LogWorld,
                             result: UnitResult) {
    var (alone, r) := ShipSpec(cfg, ctx, envs(cfg.name), w);
    AgreeOn(cfg, ctx, w', alone) && result == ResultOf(r, cfg.name) && result.name == cfg.name
  }

  lemma {:induction false} NamedResult(cfg: SourceConfig, ctx: PollContext, env: PollEnv, w: LogWorld)
    ensures ResultOf(ShipSpec(cfg, ctx, env, w).1, cfg.name).name == cfg.name
  {}

  lemma {:induction false} LastFaresAlone(cfg: SourceConfig, ctx: PollContext, envs: string -> PollEnv, w: LogWorld,
                                          w1: LogWorld)
    requires AgreeOn(cfg, ctx, w1, w)
    ensures var (w', r) := ShipSpec(cfg, ctx, envs(cfg.name), w1);
      FaresAlone(cfg, ctx, envs, w, w', ResultOf(r, cfg.name))
  {
    NamedResult(cfg, ctx, envs(cfg.name), w);
    hide ShipSpec, OffsetsOf, Body, ObjectKey;
    PollIsLocal(cfg, ctx, envs(cfg.name), w1, w);
  }

  lemma {:induction false} OthersStillDo(cfg: SourceConfig, last: SourceConfig, ctx: PollContext,
                                         envs: string -> PollEnv, w: LogWorld, w1: LogWorld, result: UnitResult)
    requires FaresAlone(cfg, ctx, envs, w, w1, result) && cfg.name != last.name
    ensures FaresAlone(cfg, ctx, envs, w, ShipSpec(last, ctx, envs(last.name), w1).0, result)
  {
    hide ShipSpec, OffsetsOf, Body, ObjectKey;
    PollKeepsOthers(cfg, last, ctx, envs(last.name), w1);
  }
}
