/** Collections of one run do not disturb each other. */
module Isolation {
  import opened Wrappers
  import opened Watermarks
  import opened Landing
  import opened S3
  import opened Extract
  import opened Items

  function KeyOf(cfg: Config, ctx: RunContext): string {
    MongoKey(NormalPrefix(ctx.prefix), ctx.db, cfg.name, ctx.runDt)
  }

  lemma {:induction false} NamesDecide(a: Config, b: Config, ctx: RunContext)
    ensures Namespace(ctx.db, a.name) == Namespace(ctx.db, b.name) <==> a.name == b.name
    ensures KeyOf(a, ctx) == KeyOf(b, ctx) <==> a.name == b.name
  {
    MongoKeyInjective(NormalPrefix(ctx.prefix), ctx.db, a.name, ctx.runDt, b.name, ctx.runDt);
    NamespacesDiffer(ctx.db, a.name, b.name);
  }

  /** The two worlds hold the same position and the same object for one collection. */
  ghost predicate AgreeOn(cfg: Config, ctx: RunContext, v: World, w: World) {
    && Lookup(v, Namespace(ctx.db, cfg.name)) == Lookup(w, Namespace(ctx.db, cfg.name))
    && Body(v.objects, KeyOf(cfg, ctx)) == Body(w.objects, KeyOf(cfg, ctx))
  }

  /** What one turn does depends on, and shows in, nothing but its own namespace and key. */
  lemma {:induction false} TurnIsLocal(cfg: Config, ctx: RunContext, env: Env, v: World, w: World)
    requires AgreeOn(cfg, ctx, v, w)
    ensures Turn(cfg, ctx, env, v).1 == Turn(cfg, ctx, env, w).1
    ensures AgreeOn(cfg, ctx, Turn(cfg, ctx, env, v).0, Turn(cfg, ctx, env, w).0)
  {
    hide KeyOf, MongoKey, RowItems, RowsOf, NewWatermark, ObservedAll, Namespace, StartFilter, Body, Put;
    forall docs: seq<Doc>
      ensures AgreeOn(cfg, ctx, Shipped(cfg, ctx, env, v, docs).0, Shipped(cfg, ctx, env, w, docs).0)
    {
      ShippedIsLocal(cfg, ctx, env, v, w, docs);
    }
  }

  lemma {:induction false} ShippedIsLocal(cfg: Config, ctx: RunContext, env: Env, v: World, w: World, docs: seq<Doc>)
    requires AgreeOn(cfg, ctx, v, w)
    ensures AgreeOn(cfg, ctx, Shipped(cfg, ctx, env, v, docs).0, Shipped(cfg, ctx, env, w, docs).0)
  {
    hide MongoKey, RowItems, RowsOf, NewWatermark, ObservedAll, Namespace, Body, Put;
    var rows := RowItems(RowsOf(cfg.mode, ctx.runDt, docs));
    BodyOfPut(v.objects, KeyOf(cfg, ctx), rows, KeyOf(cfg, ctx));
    BodyOfPut(w.objects, KeyOf(cfg, ctx), rows, KeyOf(cfg, ctx));
  }

  lemma {:induction false} TurnKeepsOthers(cfg: Config, ctx: RunContext, env: Env, w: World, ns: string, key: string)
    ensures ns != Namespace(ctx.db, cfg.name) ==> Lookup(Turn(cfg, ctx, env, w).0, ns) == Lookup(w, ns)
    ensures key != KeyOf(cfg, ctx) ==> Body(Turn(cfg, ctx, env, w).0.objects, key) == Body(w.objects, key)
  {
    hide MongoKey, RowItems, RowsOf, NewWatermark, ObservedAll, Namespace, Body, Put, StartFilter;
    forall docs: seq<Doc>
      ensures key != KeyOf(cfg, ctx) ==> Body(Shipped(cfg, ctx, env, w, docs).0.objects, key) == Body(w.objects, key)
    {
      BodyOfPut(w.objects, KeyOf(cfg, ctx), RowItems(RowsOf(cfg.mode, ctx.runDt, docs)), key);
    }
  }

  /** A watermark changes only by a commit: never in a dry run, after a failed upload or a failed commit. */
  lemma {:induction false} OnlyCommitsMoveWatermarks(cfg: Config, ctx: RunContext, env: Env, w: World)
    requires Turn(cfg, ctx, env, w).0.watermarks != w.watermarks
    ensures !ctx.dryRun && env.outcome.Confirmed? && env.commits && Turn(cfg, ctx, env, w).1.status == StatusOk
    ensures HasKey(Turn(cfg, ctx, env, w).0.objects, KeyOf(cfg, ctx))
  {
    hide MongoKey, RowItems, RowsOf, NewWatermark, ObservedAll, Namespace, StartFilter, Put;
    forall docs: seq<Doc>
      ensures HasKey(Put(w.objects, KeyOf(cfg, ctx), RowItems(RowsOf(cfg.mode, ctx.runDt, docs))), KeyOf(cfg, ctx))
    {
      PutHasKey(w.objects, KeyOf(cfg, ctx), RowItems(RowsOf(cfg.mode, ctx.runDt, docs)));
    }
  }

  lemma {:induction false} PutHasKey(b: Bucket<Item>, key: string, body: seq<Item>)
    ensures HasKey(Put(b, key, body), key)
  {
    var c := Put(b, key, body);
    if b == [] || b[0].key == key {
      assert c[0].key == key;
    } else {
      PutHasKey(b[1..], key, body);
      var i :| 0 <= i < |Put(b[1..], key, body)| && Put(b[1..], key, body)[i].key == key;
      assert c[i + 1].key == key;
    }
  }

  ghost predicate DistinctNames(cfgs: seq<Config>) {
    forall i, j :: 0 <= i < j < |cfgs| ==> cfgs[i].name != cfgs[j].name
  }

  /** One result each, in the order configured, the same as from extracting that collection alone. */
  ghost predicate ResultsAlone(cfgs: seq<Config>, ctx: RunContext, envs: string -> Env, w: World,
                               results: seq<UnitResult>) {
    && |results| == |cfgs|
    && (forall i :: 0 <= i < |cfgs| ==>
          results[i].name == cfgs[i].name && results[i] == Turn(cfgs[i], ctx, envs(cfgs[i].name), w).1)
  }

  /** Each collection's watermark and object are as if it had been extracted alone. */
  ghost predicate EndsAlone(cfgs: seq<Config>, ctx: RunContext, envs: string -> Env, w: World, w': World) {
    forall i :: 0 <= i < |cfgs| ==> AgreeOn(cfgs[i], ctx, w', Turn(cfgs[i], ctx, envs(cfgs[i].name), w).0)
  }

  ghost predicate ForeignNamespace(cfgs: seq<Config>, ctx: RunContext, ns: string) {
    forall i :: 0 <= i < |cfgs| ==> ns != Namespace(ctx.db, cfgs[i].name)
  }

  ghost predicate ForeignKey(cfgs: seq<Config>, ctx: RunContext, k: string) {
    forall i :: 0 <= i < |cfgs| ==> k != KeyOf(cfgs[i], ctx)
  }

  /** Nothing outside the listed collections moves. */
  ghost predicate OthersKept(cfgs: seq<Config>, ctx: RunContext, w: World, w': World) {
    && (forall ns :: ForeignNamespace(cfgs, ctx, ns) ==> Lookup(w', ns) == Lookup(w, ns))
    && (forall k :: ForeignKey(cfgs, ctx, k) ==> Body(w'.objects, k) == Body(w.objects, k))
  }

  /** Every collection of a run fares exactly as if it had been extracted alone. */
  lemma {:induction false} EachFaresAlone(cfgs: seq<Config>, ctx: RunContext, envs: string -> Env, w: World)
    requires DistinctNames(cfgs)
    ensures var (w', results) := ExtractAllSpec(cfgs, ctx, envs, w);
      ResultsAlone(cfgs, ctx, envs, w, results) && EndsAlone(cfgs, ctx, envs, w, w') && OthersKept(cfgs, ctx, w, w')
    decreases |cfgs|
  {
    if cfgs != [] {
      hide Turn, KeyOf, Namespace, Body, Lookup, AgreeOn, ResultsAlone, EndsAlone, OthersKept;
      var n := |cfgs| - 1;
      var cfg := cfgs[n];
      assert DistinctNames(cfgs[..n]);
      EachFaresAlone(cfgs[..n], ctx, envs, w);
      var (w1, before) := ExtractAllSpec(cfgs[..n], ctx, envs, w);
      OwnIsUntouched(cfgs, ctx, w, w1);
      TurnIsLocal(cfg, ctx, envs(cfg.name), w1, w);
      LastEnds(cfgs, ctx, envs, w, w1);
      LastResult(cfgs, ctx, envs, w, w1, before);
      LastKeeps(cfgs, ctx, envs, w, w1);
    }
  }

  lemma {:induction false} OwnIsUntouched(cfgs: seq<Config>, ctx: RunContext, w: World, w1: World)
    requires cfgs != [] && DistinctNames(cfgs) && OthersKept(cfgs[..|cfgs| - 1], ctx, w, w1)
    ensures AgreeOn(cfgs[|cfgs| - 1], ctx, w1, w)
  {
    hide KeyOf, Namespace, Body, Lookup;
    var n := |cfgs| - 1;
    forall i | 0 <= i < n {
      NamesDecide(cfgs[n], cfgs[i], ctx);
    }
    assert ForeignNamespace(cfgs[..n], ctx, Namespace(ctx.db, cfgs[n].name));
    assert ForeignKey(cfgs[..n], ctx, KeyOf(cfgs[n], ctx));
  }

  lemma {:induction false} LastResult(cfgs: seq<Config>, ctx: RunContext, envs: string -> Env, w: World, w1: World,
                                      before: seq<UnitResult>)
    requires cfgs != [] && ResultsAlone(cfgs[..|cfgs| - 1], ctx, envs, w, before)
    requires var cfg := cfgs[|cfgs| - 1];
      Turn(cfg, ctx, envs(cfg.name), w1).1 == Turn(cfg, ctx, envs(cfg.name), w).1
    ensures var cfg := cfgs[|cfgs| - 1];
      ResultsAlone(cfgs, ctx, envs, w, before + [Turn(cfg, ctx, envs(cfg.name), w1).1])
  {
    var n := |cfgs| - 1;
    TurnName(cfgs[n], ctx, envs(cfgs[n].name), w);
    hide Turn, DistinctNames, EndsAlone;
    var results := before + [Turn(cfgs[n], ctx, envs(cfgs[n].name), w1).1];
    forall i | 0 <= i < |cfgs|
      ensures results[i] == Turn(cfgs[i], ctx, envs(cfgs[i].name), w).1 && results[i].name == cfgs[i].name
    {
      if i < n {
        assert results[i] == before[i] && cfgs[..n][i] == cfgs[i];
      }
    }
  }

  lemma {:induction false} LastEnds(cfgs: seq<Config>, ctx: RunContext, envs: string -> Env, w: World, w1: World)
    requires cfgs != [] && DistinctNames(cfgs) && EndsAlone(cfgs[..|cfgs| - 1], ctx, envs, w, w1)
    requires var cfg := cfgs[|cfgs| - 1];
      AgreeOn(cfg, ctx, Turn(cfg, ctx, envs(cfg.name), w1).0, Turn(cfg, ctx, envs(cfg.name), w).0)
    ensures var cfg := cfgs[|cfgs| - 1]; EndsAlone(cfgs, ctx, envs, w, Turn(cfg, ctx, envs(cfg.name), w1).0)
  {
    hide Turn, KeyOf, Namespace, Body, Lookup;
    var n := |cfgs| - 1;
    var cfg := cfgs[n];
    var w' := Turn(cfg, ctx, envs(cfg.name), w1).0;
    forall i | 0 <= i < n
      ensures AgreeOn(cfgs[i], ctx, w', Turn(cfgs[i], ctx, envs(cfgs[i].name), w).0)
    {
      assert cfgs[..n][i] == cfgs[i];
      NamesDecide(cfg, cfgs[i], ctx);
      TurnKeepsOthers(cfg, ctx, envs(cfg.name), w1, Namespace(ctx.db, cfgs[i].name), KeyOf(cfgs[i], ctx));
    }
  }

  lemma {:induction false} LastKeeps(cfgs: seq<Config>, ctx: RunContext, envs: string -> Env, w: World, w1: World)
    requires cfgs != [] && OthersKept(cfgs[..|cfgs| - 1], ctx, w, w1)
    ensures var cfg := cfgs[|cfgs| - 1]; OthersKept(cfgs, ctx, w, Turn(cfg, ctx, envs(cfg.name), w1).0)
  {
    hide Turn, KeyOf, Namespace, Body, Lookup;
    var n := |cfgs| - 1;
    var cfg := cfgs[n];
    var w' := Turn(cfg, ctx, envs(cfg.name), w1).0;
    assert forall i :: 0 <= i < n ==> cfgs[..n][i] == cfgs[i];
    forall ns | ForeignNamespace(cfgs, ctx, ns)
      ensures Lookup(w', ns) == Lookup(w, ns)
    {
      assert ns != Namespace(ctx.db, cfgs[n].name) && ForeignNamespace(cfgs[..n], ctx, ns);
      TurnKeepsOthers(cfg, ctx, envs(cfg.name), w1, ns, "");
    }
    forall k | ForeignKey(cfgs, ctx, k)
      ensures Body(w'.objects, k) == Body(w.objects, k)
    {
      assert k != KeyOf(cfgs[n], ctx) && ForeignKey(cfgs[..n], ctx, k);
      TurnKeepsOthers(cfg, ctx, envs(cfg.name), w1, "", k);
    }
  }

  lemma {:induction false} TurnName(cfg: Config, ctx: RunContext, env: Env, w: World)
    ensures Turn(cfg, ctx, env, w).1.name == cfg.name
  {}

  /** The order of the configuration does not matter to any watermark or any object. */
  lemma {:induction false} OrderIsIrrelevant(cfgs: seq<Config>, other: seq<Config>, ctx: RunContext,
                                             envs: string -> Env, w: World)
    requires DistinctNames(cfgs) && DistinctNames(other) && (forall c :: c in cfgs <==> c in other)
    ensures var v, v' := ExtractAllSpec(cfgs, ctx, envs, w).0, ExtractAllSpec(other, ctx, envs, w).0;
      && (forall ns :: Lookup(v, ns) == Lookup(v', ns))
      && (forall k :: Body(v.objects, k) == Body(v'.objects, k))
  {
    EachFaresAlone(cfgs, ctx, envs, w);
    EachFaresAlone(other, ctx, envs, w);
    hide ExtractAllSpec, Turn, KeyOf, Namespace, Body, Lookup, ResultsAlone;
    var v, v' := ExtractAllSpec(cfgs, ctx, envs, w).0, ExtractAllSpec(other, ctx, envs, w).0;
    forall ns
      ensures Lookup(v, ns) == Lookup(v', ns)
    {
      if i :| 0 <= i < |cfgs| && ns == Namespace(ctx.db, cfgs[i].name) {
        assert cfgs[i] in other;
        var j :| 0 <= j < |other| && other[j] == cfgs[i];
      } else {
        assert ForeignNamespace(cfgs, ctx, ns);
        forall j | 0 <= j < |other|
          ensures ns != Namespace(ctx.db, other[j].name)
        {
          assert other[j] in cfgs;
        }
        assert ForeignNamespace(other, ctx, ns);
      }
    }
    forall k
      ensures Body(v.objects, k) == Body(v'.objects, k)
    {
      if i :| 0 <= i < |cfgs| && k == KeyOf(cfgs[i], ctx) {
        assert cfgs[i] in other;
        var j :| 0 <= j < |other| && other[j] == cfgs[i];
      } else {
        assert ForeignKey(cfgs, ctx, k);
        forall j | 0 <= j < |other|
          ensures k != KeyOf(other[j], ctx)
        {
          assert other[j] in cfgs;
        }
        assert ForeignKey(other, ctx, k);
      }
    }
  }
}
