/** Whole histories of the agent, as one collection sees them: runs of all modules on one bucket and one store,
    with clients writing before, between and during the runs, are runs of the collection's machine. */
module CollectionHistory {
  import opened Wrappers
  import opened ObjectIds
  import opened Timestamps
  import opened Watermarks
  import opened Landing
  import opened Items
  import opened S3
  import opened Slices
  import opened MongoMachine
  import opened MongoSafety
  import opened MongoProgress
  import opened Extract
  import opened Isolation
  import opened Refinement
  import opened Runner
  import opened EndToEnd
  import opened Merge
  import Ship

  // ---- Other units do not show ----

  /** A turn of another collection. */
  lemma {:induction false} ForeignTurn(p: Pipe, s: State, cfg: Config, ctx: RunContext, env: Env, w: World)
    requires Fits(p, ctx) && Shows(p, s, w) && cfg.name != p.cfg.name
    ensures Shows(p, s, Turn(cfg, ctx, env, w).0)
  {
    hide MongoKey, NormalPrefix, RowsOf, RowItems, NewWatermark, ObservedAll, StartFilter, Slice, RowView, Uploaded,
      Namespace;
    NamespacesDiffer(p.db, cfg.name, p.cfg.name);
    forall docs: seq<Doc>
      ensures Shows(p, s, Shipped(cfg, ctx, env, w, docs).0)
    {
      ForeignUploaded(w.objects, SiteOf(p), Collection(p.cfg.name), Collection(cfg.name), ctx.runDt,
                      RowItems(RowsOf(cfg.mode, ctx.runDt, docs)), env.outcome);
    }
  }

  /** A collection's own turn in a run, as machine steps; a refused or misconfigured one takes none. */
  function TurnSteps(p: Pipe, wm: Option<Watermark>, ctx: RunContext, env: Env, o: Others): seq<Action> {
    var filter := StartFilter(p.cfg, wm);
    if RefusedConfig(p.cfg) || filter.Err? then [] else StepsOf(p.cfg, ctx, env, env.serve(filter.value), o)
  }

  /** The hypotheses on other clients and on the cursor during that turn. */
  ghost predicate TurnGranted(p: Pipe, s: State, ctx: RunContext, env: Env, o: Others) {
    var filter := StartFilter(p.cfg, s.wm);
    RefusedConfig(p.cfg) || filter.Err? ||
    (ScanOnly(o.scan) && DocsRead(s.coll, o.scan) == env.serve(filter.value).docs
     && Granted(p, s, TurnSteps(p, s.wm, ctx, env, o)))
  }

  lemma {:induction false} OwnTurn(p: Pipe, s: State, ctx: RunContext, env: Env, w: World, o: Others) returns (t: State)
    requires Fits(p, ctx) && Shows(p, s, w) && s.phase.Idle? && s.lastSecond < ctx.runDt / SECOND
    requires TurnGranted(p, s, ctx, env, o)
    ensures var steps := TurnSteps(p, s.wm, ctx, env, o); Legal(p, s, steps) && t == Exec(p, s, steps)
    ensures t.phase.Idle? && t.lastSecond <= ctx.runDt / SECOND && Shows(p, t, Turn(p.cfg, ctx, env, w).0)
  {
    hide StepsOf, Shipped, Legal, Exec, Granted, DocsRead, RowsOfUnit, Namespace, NormalPrefix;
    if RefusedConfig(p.cfg) || StartFilter(p.cfg, s.wm).Err? {
      t := s;
      NoSteps(p, s);
    } else {
      t := ExtractRunsTheMachine(p, s, ctx, env, w, o);
    }
  }

  // ---- One run of the agent ----

  /** The run's configuration names each collection once, and this one as it is. */
  ghost predicate Consistent(p: Pipe, cfgs: seq<Config>) {
    DistinctNames(cfgs) && forall c :: c in cfgs && c.name == p.cfg.name ==> c == p.cfg
  }

  lemma {:induction false} NotAmong(p: Pipe, s: State, cfgs: seq<Config>, ctx: RunContext, envs: string -> Env,
                                    w: World)
    requires Fits(p, ctx) && Shows(p, s, w) && forall c :: c in cfgs ==> c.name != p.cfg.name
    ensures Shows(p, s, ExtractAllSpec(cfgs, ctx, envs, w).0)
    decreases |cfgs|
  {
    hide Shows, Turn;
    if cfgs != [] {
      var init, last := cfgs[..|cfgs| - 1], cfgs[|cfgs| - 1];
      assert forall c :: c in init ==> c in cfgs;
      NotAmong(p, s, init, ctx, envs, w);
      assert last in cfgs;
      ForeignTurn(p, s, last, ctx, envs(last.name), ExtractAllSpec(init, ctx, envs, w).0);
    }
  }

  lemma {:induction false} Among(p: Pipe, s: State, cfgs: seq<Config>, ctx: RunContext, envs: string -> Env, w: World,
                                 o: Others)
    returns (t: State)
    requires Fits(p, ctx) && Shows(p, s, w) && s.phase.Idle? && s.lastSecond < ctx.runDt / SECOND
    requires Consistent(p, cfgs) && p.cfg in cfgs && TurnGranted(p, s, ctx, envs(p.cfg.name), o)
    ensures var steps := TurnSteps(p, s.wm, ctx, envs(p.cfg.name), o); Legal(p, s, steps) && t == Exec(p, s, steps)
    ensures t.phase.Idle? && t.lastSecond <= ctx.runDt / SECOND
    ensures Shows(p, t, ExtractAllSpec(cfgs, ctx, envs, w).0)
    decreases |cfgs|
  {
    hide Shows, Turn, TurnGranted, TurnSteps, Legal, Exec, Fits;
    var n := |cfgs| - 1;
    var init, last := cfgs[..n], cfgs[n];
    assert forall c :: c in init ==> c in cfgs;
    if last == p.cfg {
      forall c | c in init
        ensures c.name != p.cfg.name
      {
        var i :| 0 <= i < n && cfgs[i] == c;
        assert cfgs[i].name != cfgs[n].name;
      }
      NotAmong(p, s, init, ctx, envs, w);
      t := OwnTurn(p, s, ctx, envs(last.name), ExtractAllSpec(init, ctx, envs, w).0, o);
    } else {
      assert last in cfgs && last.name != p.cfg.name;
      assert DistinctNames(init);
      t := Among(p, s, init, ctx, envs, w, o);
      ForeignTurn(p, t, last, ctx, envs(last.name), ExtractAllSpec(init, ctx, envs, w).0);
    }
  }

  /** The log sources and the host metrics of a run do not show. */
  lemma {:induction false} LogsDoNotShow(p: Pipe, s: State, cfgs: seq<Ship.SourceConfig>, ctx: Ship.PollContext,
                                         envs: string -> Ship.PollEnv, marks: map<string, Watermark>, w: Ship.LogWorld)
    requires p.prefix == NormalPrefix(ctx.prefix) && Shows(p, s, World(marks, w.objects))
    ensures Shows(p, s, World(marks, Ship.ShipAllSpec(cfgs, ctx, envs, w).0.objects))
    decreases |cfgs|
  {
    hide NormalPrefix, Namespace, Slice, RowView, LogsKey, Ship.Collected, Ship.Committed, LineItems, Uploaded;
    if cfgs != [] {
      var init, cfg := cfgs[..|cfgs| - 1], cfgs[|cfgs| - 1];
      LogsDoNotShow(p, s, init, ctx, envs, marks, w);
      var w1 := Ship.ShipAllSpec(init, ctx, envs, w).0;
      var env := envs(cfg.name);
      ForeignUploaded(w1.objects, SiteOf(p), Collection(p.cfg.name), Source(cfg.name), ctx.runDt,
                      LineItems(Ship.Collected(cfg, ctx, env, Ship.PlansOf(cfg, env, w1.offsets))), env.outcome);
    }
  }

  lemma {:induction false} MetricsDoNotShow(p: Pipe, s: State, a: Agent, r: Run, d: Deployed)
    requires p.prefix == NormalPrefix(a.prefix) && Shows(p, s, MongoPart(d))
    ensures Shows(p, s, MongoPart(AfterMetrics(a, r, d).0))
  {
    hide NormalPrefix, Namespace, Slice, RowView, HostMetricsKey, MetricItems, Uploaded;
    if r.metrics.Some? {
      ForeignUploaded(d.objects, SiteOf(p), Collection(p.cfg.name), HostMetrics, r.runDt, MetricItems(r.metrics.value),
                      r.metricsOutcome);
    }
  }

  /** Does the run take this collection's turn? */
  predicate Extracts(p: Pipe, r: Run) {
    r.connected && p.cfg in r.collections
  }

  function RunSteps(p: Pipe, wm: Option<Watermark>, a: Agent, r: Run, o: Others): seq<Action> {
    if Extracts(p, r) then TurnSteps(p, wm, RunContextOf(a, r), r.servers(p.cfg.name), o) else []
  }

  ghost predicate RunGranted(p: Pipe, s: State, a: Agent, r: Run, o: Others) {
    Extracts(p, r) ==> TurnGranted(p, s, RunContextOf(a, r), r.servers(p.cfg.name), o)
  }

  ghost predicate Serves(a: Agent, p: Pipe) {
    p.prefix == NormalPrefix(a.prefix) && p.db == a.db
  }

  /** One run of the agent is one run of the collection's machine. */
  lemma {:induction false} RunIsARun(p: Pipe, s: State, a: Agent, r: Run, d: Deployed, o: Others) returns (t: State)
    requires Serves(a, p) && Shows(p, s, MongoPart(d)) && s.phase.Idle? && s.lastSecond < r.runDt / SECOND
    requires Consistent(p, r.collections) && RunGranted(p, s, a, r, o)
    ensures var steps := RunSteps(p, s.wm, a, r, o); Legal(p, s, steps) && t == Exec(p, s, steps)
    ensures t.phase.Idle? && t.lastSecond <= r.runDt / SECOND && Shows(p, t, MongoPart(RunSpec(a, r, d).0))
  {
    hide Shows, TurnGranted, TurnSteps, Legal, Exec, ExtractAllSpec, Ship.ShipAllSpec, AfterMetrics, Consistent,
      NormalPrefix;
    var ctx := RunContextOf(a, r);
    NoSteps(p, s);
    if Extracts(p, r) {
      t := Among(p, s, r.collections, ctx, r.servers, MongoPart(d), o);
    } else {
      t := s;
      if r.connected {
        NotAmongThen(p, r.collections);
        NotAmong(p, s, r.collections, ctx, r.servers, MongoPart(d));
      }
    }
    var d1 := AfterMongo(a, r, d).0;
    LogsDoNotShow(p, t, r.sources, PollContextOf(a, r), r.systems, d1.watermarks, LogsPart(d1));
    MetricsDoNotShow(p, t, a, r, AfterLogs(a, r, d1).0);
  }

  lemma {:induction false} NotAmongThen(p: Pipe, cfgs: seq<Config>)
    requires Consistent(p, cfgs) && p.cfg !in cfgs
    ensures forall c :: c in cfgs ==> c.name != p.cfg.name
  {}

  // ---- Histories ----

  /** Around and during one run: what clients write before it, and what they do meanwhile. */
  datatype Visit = Visit(before: seq<Doc>, during: Others)

  ghost predicate HistoryGranted(p: Pipe, s: State, a: Agent, runs: seq<Run>, visits: seq<Visit>)
    requires |visits| == |runs|
    decreases |runs|
  {
    runs == [] ||
    (Legal(p, s, Writes(visits[0].before))
     && var s1 := Exec(p, s, Writes(visits[0].before));
        var steps := RunSteps(p, s1.wm, a, runs[0], visits[0].during);
        RunGranted(p, s1, a, runs[0], visits[0].during)
        && (Legal(p, s1, steps) ==> HistoryGranted(p, Exec(p, s1, steps), a, runs[1..], visits[1..])))
  }

  lemma {:induction false} IdleWrites(p: Pipe, s: State, docs: seq<Doc>)
    requires Legal(p, s, Writes(docs))
    ensures SameAgent(s, Exec(p, s, Writes(docs)))
    decreases |docs|
  {
    hide LegalWrite, InTime, NewMark;
    if docs != [] {
      var steps := Writes(docs);
      assert steps[0] == Write(docs[0]) && steps[1..] == Writes(docs[1..]);
      IdleWrites(p, Apply(p, s, Write(docs[0])), docs[1..]);
    }
  }

  /** The collection after some steps: what was written, in order. */
  function CollAfter(coll: map<ObjectId, Doc>, steps: seq<Action>): map<ObjectId, Doc>
    decreases |steps|
  {
    if steps == [] then coll
    else CollAfter(if steps[0].Write? then coll[steps[0].doc.id := steps[0].doc] else coll, steps[1..])
  }

  lemma {:induction false} CollFollows(p: Pipe, s: State, steps: seq<Action>)
    requires Legal(p, s, steps)
    ensures Exec(p, s, steps).coll == CollAfter(s.coll, steps)
    decreases |steps|
  {
    hide Enabled, KeyAt, RowsOf, NewMark, Uploaded, StartFilter;
    if steps != [] {
      CollFollows(p, Apply(p, s, steps[0]), steps[1..]);
    }
  }

  function StoredIn(p: Pipe, d: Deployed): Option<Watermark> {
    Lookup(MongoPart(d), Namespace(p.db, p.cfg.name))
  }

  /** The whole history as the collection sees it: before each run the writes of its visit, then the run's turn
      for this collection with what clients do meanwhile. */
  function HistorySteps(p: Pipe, a: Agent, runs: seq<Run>, d: Deployed, visits: seq<Visit>): seq<Action>
    requires |visits| == |runs|
    decreases |runs|
  {
    if runs == [] then []
    else
      Writes(visits[0].before)
      + (RunSteps(p, StoredIn(p, d), a, runs[0], visits[0].during)
         + HistorySteps(p, a, runs[1..], RunSpec(a, runs[0], d).0, visits[1..]))
  }

  /** Any sequence of runs of the agent, on a bucket and a store all units share, is a run of the collection's
      machine: exactly the history's steps are legal there, and the watermark, the slice of the bucket and the
      collection end up where they take them. */
  lemma {:induction false} HistoryIsARun(p: Pipe, s: State, a: Agent, runs: seq<Run>, d: Deployed, visits: seq<Visit>)
    returns (t: State)
    requires Serves(a, p) && Shows(p, s, MongoPart(d)) && s.phase.Idle? && InOrder(runs, s.lastSecond)
    requires |visits| == |runs| && forall r :: r in runs ==> Consistent(p, r.collections)
    requires HistoryGranted(p, s, a, runs, visits)
    ensures var steps := HistorySteps(p, a, runs, d, visits);
      Legal(p, s, steps) && t == Exec(p, s, steps) && t.coll == CollAfter(s.coll, steps)
    ensures t.phase.Idle? && Shows(p, t, MongoPart(RunAll(a, runs, d)))
  {
    t := HistoryRuns(p, s, a, runs, d, visits);
    CollFollows(p, s, HistorySteps(p, a, runs, d, visits));
  }

  lemma {:induction false} HistoryRuns(p: Pipe, s: State, a: Agent, runs: seq<Run>, d: Deployed, visits: seq<Visit>)
    returns (t: State)
    requires Serves(a, p) && Shows(p, s, MongoPart(d)) && s.phase.Idle? && InOrder(runs, s.lastSecond)
    requires |visits| == |runs| && forall r :: r in runs ==> Consistent(p, r.collections)
    requires HistoryGranted(p, s, a, runs, visits)
    ensures var steps := HistorySteps(p, a, runs, d, visits); Legal(p, s, steps) && t == Exec(p, s, steps)
    ensures t.phase.Idle? && Shows(p, t, MongoPart(RunAll(a, runs, d)))
    decreases |runs|
  {
    hide Legal, Exec, RunSteps, RunGranted, RowsOfUnit, Namespace, Lookup, RunSpec, Consistent, Serves;
    if runs == [] {
      t := s;
      NoSteps(p, s);
    } else {
      var r, v := runs[0], visits[0];
      assert r in runs && forall x :: x in runs[1..] ==> x in runs;
      IdleWrites(p, s, v.before);
      var s1 := Exec(p, s, Writes(v.before));
      var s2 := RunIsARun(p, s1, a, r, d, v.during);
      OrderedLater(runs[1..], s2.lastSecond, r.runDt / SECOND);
      var d1 := RunSpec(a, r, d).0;
      t := HistoryRuns(p, s2, a, runs[1..], d1, visits[1..]);
      var own, more := RunSteps(p, s1.wm, a, r, v.during), HistorySteps(p, a, runs[1..], d1, visits[1..]);
      LegalAppend(p, s1, own, more);
      LegalAppend(p, s, Writes(v.before), own + more);
    }
  }

  /** The collection after a history from an empty deployment. */
  function CollectionAfter(p: Pipe, a: Agent, runs: seq<Run>, visits: seq<Visit>): map<ObjectId, Doc>
    requires |visits| == |runs|
  {
    CollAfter(map[], HistorySteps(p, a, runs, NEW, visits))
  }

  /** At least once, for the agent as a whole: after any runs of all modules from an empty bucket and store,
      with any failures of uploads and commits and any writes before, between and during the runs, every tracked
      document of the collection as it then is, is in the collection's slice of the bucket in its current version,
      or the filter its next run builds from the stored watermark lets it through. */
  lemma {:induction false} NothingIsLost(p: Pipe, a: Agent, runs: seq<Run>, visits: seq<Visit>) returns (t: State)
    requires 0 <= p.cfg.overlap && Serves(a, p) && InOrder(runs, -1)
    requires |visits| == |runs| && forall r :: r in runs ==> Consistent(p, r.collections)
    requires HistoryGranted(p, Empty(), a, runs, visits)
    ensures var d, coll := RunAll(a, runs, NEW), CollectionAfter(p, a, runs, visits);
      var stored := StoredIn(p, d);
      forall id :: id in coll && Tracked(p.cfg, coll[id]) ==>
        || Settled(Contents(RowsOfUnit(d.objects, SiteOf(p), p.cfg.name)), coll[id])
        || Reaches(p.cfg, if stored.Some? then Some(stored.value.value) else None, coll[id])
    ensures Reachable(p, t) && t.phase.Idle? && t.coll == CollectionAfter(p, a, runs, visits)
    ensures Shows(p, t, MongoPart(RunAll(a, runs, NEW)))
  {
    hide Legal, Exec, HistoryGranted, Tracked, Settled, Reaches, Contents, Inv, Consistent, Serves, InOrder,
      HistorySteps, CollAfter, Reachable;
    assert Shows(p, Empty(), MongoPart(NEW));
    hide RowsOfUnit, Namespace;
    t := HistoryIsARun(p, Empty(), a, runs, NEW, visits);
    ReachedFromEmpty(p, HistorySteps(p, a, runs, NEW, visits));
    forall id | id in t.coll && Tracked(p.cfg, t.coll[id])
      ensures Settled(Contents(t.objects), t.coll[id]) || Reaches(p.cfg, StoredMark(t), t.coll[id])
    {
      AtLeastOnce(p, t, id);
    }
  }

  lemma {:induction false} ReachedFromEmpty(p: Pipe, steps: seq<Action>)
    requires Legal(p, Empty(), steps)
    ensures Reachable(p, Exec(p, Empty(), steps))
  {
    hide Legal, Exec;
  }

  // ---- The stored watermark over histories ----

  /** For mutable collections: every cursor of the history returns each document that matched when it was opened,
      in some version. */
  ghost predicate CursorsThorough(p: Pipe, s: State, steps: seq<Action>) {
    Legal(p, s, steps) ==> AllThorough(p, s, steps)
  }

  /** The stored watermark is as it was, or further on. */
  ghost predicate MovedOn(p: Pipe, d: Deployed, d': Deployed) {
    StoredIn(p, d') == StoredIn(p, d)
    || (StoredIn(p, d).Some? ==>
          StoredIn(p, d').Some? && NotAfter(p.cfg, StoredIn(p, d).value.value, StoredIn(p, d').value.value))
  }

  lemma {:induction false} StoredWatermarkMovesOn(p: Pipe, s: State, a: Agent, runs: seq<Run>, d: Deployed,
                                                  visits: seq<Visit>)
    returns (t: State)
    requires 0 <= p.cfg.overlap && Inv(p, s) && Held(p, s)
    requires Serves(a, p) && Shows(p, s, MongoPart(d)) && s.phase.Idle? && InOrder(runs, s.lastSecond)
    requires |visits| == |runs| && forall r :: r in runs ==> Consistent(p, r.collections)
    requires HistoryGranted(p, s, a, runs, visits) && CursorsThorough(p, s, HistorySteps(p, a, runs, d, visits))
    ensures var steps := HistorySteps(p, a, runs, d, visits); Legal(p, s, steps) && t == Exec(p, s, steps)
    ensures Inv(p, t) && Held(p, t) && t.phase.Idle? && Shows(p, t, MongoPart(RunAll(a, runs, d)))
    ensures MovedOn(p, d, RunAll(a, runs, d))
  {
    hide Inv, Held, Legal, Exec, AllThorough, HistoryGranted, HistorySteps, CollAfter, Consistent, Serves, InOrder,
      RowsOfUnit, Namespace, NotAfter;
    var steps := HistorySteps(p, a, runs, d, visits);
    t := HistoryIsARun(p, s, a, runs, d, visits);
    RunsKeep(p, s, steps);
    WatermarkNeverFalls(p, s, steps);
  }

  /** Between any two runs of any history of the agent, without deletes and with the overlap it is configured
      with, 0 included, the watermark in the store stays or moves forward. */
  lemma {:induction false} StoredWatermarkIsMonotone(p: Pipe, a: Agent, before: seq<Run>, visits: seq<Visit>,
                                                     later: seq<Run>, visits': seq<Visit>)
    requires 0 <= p.cfg.overlap && Serves(a, p) && InOrder(before, -1)
    requires |visits| == |before| && forall r :: r in before ==> Consistent(p, r.collections)
    requires |visits'| == |later| && forall r :: r in later ==> Consistent(p, r.collections)
    requires HistoryGranted(p, Empty(), a, before, visits)
    requires CursorsThorough(p, Empty(), HistorySteps(p, a, before, NEW, visits))
    requires var steps := HistorySteps(p, a, before, NEW, visits);
      Legal(p, Empty(), steps) ==>
        var s, d := Exec(p, Empty(), steps), RunAll(a, before, NEW);
        && InOrder(later, s.lastSecond) && HistoryGranted(p, s, a, later, visits')
        && CursorsThorough(p, s, HistorySteps(p, a, later, d, visits'))
    ensures var d := RunAll(a, before, NEW); MovedOn(p, d, RunAll(a, later, d))
  {
    hide Inv, Held, Legal, Exec, HistoryGranted, HistorySteps, CursorsThorough, Consistent, Serves, InOrder, MovedOn;
    assert Shows(p, Empty(), MongoPart(NEW));
    hide Shows;
    EmptyIsGood(p);
    EmptyIsHeld(p);
    var s := StoredWatermarkMovesOn(p, Empty(), a, before, NEW, visits);
    var t := StoredWatermarkMovesOn(p, s, a, later, RunAll(a, before, NEW), visits');
  }

  // ---- A quiet run, then MERGE ----

  /** Nobody writes, the cursor is truthful, the upload is confirmed and the commit goes through. */
  ghost predicate Quiet(p: Pipe, s: State, ctx: RunContext, env: Env) {
    && StartFilter(p.cfg, s.wm).Ok? && !ctx.dryRun && env.outcome.Confirmed? && env.commits
    && var f := StartFilter(p.cfg, s.wm).value;
       !env.serve(f).broken && Truthful(s.coll, f, env.serve(f).docs)
  }

  /** The steps of such a call are the machine's quiet run, and the clean-up. */
  lemma {:induction false} QuietSteps(cfg: Config, ctx: RunContext, env: Env, served: Served)
    requires !ctx.dryRun && env.outcome.Confirmed? && env.commits && !served.broken
    ensures var docs := served.docs;
      StepsOf(cfg, ctx, env, served, Nobody(docs))
      == QuietRun(ctx.runDt, Ids(docs)) + (if docs == [] then [] else [CleanUp])
  {
    hide NewWatermark, ObservedAll, Fetches;
    var docs, run := served.docs, ctx.runDt;
    if docs == [] {
      assert Fetches([]) == [] by { NoFetches(); }
      assert [Begin(run)] + ([] + [EndScan]) == [Begin(run), EndScan] + [];
    } else {
      var scan := Fetches(Ids(docs));
      assert Ids(docs) != [];
      assert Ending(cfg, false, env, docs, Nobody(docs)) == [EndScan, Upload(Confirmed), Commit] + [CleanUp] by {
        assert CommitSteps(cfg, env, docs, Nobody(docs)) == [Commit, CleanUp];
        assert UploadSteps(cfg, env, docs, Nobody(docs)) == [Upload(Confirmed), Commit, CleanUp];
      }
      Assoc(scan, [EndScan, Upload(Confirmed), Commit], [CleanUp]);
      Assoc([Begin(run)], scan + [EndScan, Upload(Confirmed), Commit], [CleanUp]);
    }
  }

  lemma {:induction false} NoFetches()
    ensures Fetches([]) == []
  {}

  lemma {:induction false} CleanUpKeeps(p: Pipe, s: State)
    requires Legal(p, s, [CleanUp])
    ensures var t := Exec(p, s, [CleanUp]); t.coll == s.coll && t.objects == s.objects
  {
    assert [CleanUp][1..] == [];
  }

  lemma {:induction false} QuietCallSettles(p: Pipe, s: State, ctx: RunContext, env: Env, steps: seq<Action>)
    requires 0 <= p.cfg.overlap && Inv(p, s) && Quiet(p, s, ctx, env)
    requires var served := env.serve(StartFilter(p.cfg, s.wm).value);
      steps == StepsOf(p.cfg, ctx, env, served, Nobody(served.docs))
    requires Legal(p, s, steps)
    ensures var t := Exec(p, s, steps);
      && t.coll == s.coll
      && (forall id :: id in s.coll && Tracked(p.cfg, s.coll[id]) ==> Settled(Contents(t.objects), s.coll[id]))
  {
    hide Inv, Legal, Exec, Tracked, Settled, Contents, StepsOf, QuietRun, StartFilter, Truthful;
    var served := env.serve(StartFilter(p.cfg, s.wm).value);
    var quiet := QuietRun(ctx.runDt, Ids(served.docs));
    QuietSteps(p.cfg, ctx, env, served);
    if served.docs == [] {
      assert quiet + [] == quiet;
      QuietRunSettlesAll(p, s, ctx.runDt, Ids(served.docs));
    } else {
      ExecAppend(p, s, quiet, [CleanUp]);
      QuietRunSettlesAll(p, s, ctx.runDt, Ids(served.docs));
      CleanUpKeeps(p, Exec(p, s, quiet));
    }
  }

  /** End to end, for the agent as a whole: from any reachable state, with whatever other units put into the same
      bucket before and meanwhile, after one run of all modules in which nobody writes to the collection and its
      upload and commit succeed, merging its slice of the bucket, loaded in any order, with any repetition and
      in any number of merges, gives exactly the collection's documents: each tracked one in its current
      version, and none that the collection does not have. */
  lemma {:induction false} QuietRunThenMerge(p: Pipe, s: State, a: Agent, r: Run, d: Deployed, loads: seq<seq<Row>>,
                                             stagings: seq<Keyed>)
    requires 0 <= p.cfg.overlap && Reachable(p, s) && s.phase.Idle? && s.lastSecond < r.runDt / SECOND
    requires Serves(a, p) && Shows(p, s, MongoPart(d)) && Consistent(p, r.collections)
    requires Extracts(p, r) && !RefusedConfig(p.cfg) && Quiet(p, s, RunContextOf(a, r), r.servers(p.cfg.name))
    requires loads != [] && Schedule(loads, stagings)
    requires SameRows(Contents(RowsOfUnit(RunSpec(a, r, d).0.objects, Refinement.SiteOf(p), p.cfg.name)),
                      loads[|loads| - 1])
    ensures var table := Merged(map[], stagings);
      && (forall id :: id in s.coll && Tracked(p.cfg, s.coll[id]) ==>
            Hex(id) in table && table[Hex(id)].doc == s.coll[id])
      && (forall k :: k in table ==> exists id :: id in s.coll && k == Hex(id))
  {
    hide Inv, Legal, Exec, Tracked, Settled, Contents, StepsOf, RunSpec, RowsOfUnit, Known, Truthful, StartFilter,
      Consistent, Serves, Namespace, Lookup, Granted, Hex, Reachable;
    ReachableIsGood(p, s);
    ReachableIsKnown(p, s);
    var ctx, env := RunContextOf(a, r), r.servers(p.cfg.name);
    var docs := env.serve(StartFilter(p.cfg, s.wm).value).docs;
    QuietIsGranted(p, s, ctx, env);
    var t := RunIsARun(p, s, a, r, d, Nobody(docs));
    var steps := RunSteps(p, s.wm, a, r, Nobody(docs));
    QuietCallSettles(p, s, ctx, env, steps);
    RunsKnow(p, s, steps);
    IdsAreTheirKeys(p, s);
    TableOf(t, s.coll, p, loads, stagings);
  }

  lemma {:induction false} ReachableIsKnown(p: Pipe, s: State)
    requires 0 <= p.cfg.overlap && Reachable(p, s)
    ensures Known(s)
  {
    hide Inv, Known, Legal, Exec;
    EmptyIsGood(p);
    EmptyIsKnown();
    var steps: seq<Action> :| Legal(p, Empty(), steps) && Exec(p, Empty(), steps) == s;
    RunsKnow(p, Empty(), steps);
  }
}
