/** `runner.py`: one run of the agent, module by module, on one bucket and one store. */
module Runner {
  import opened Wrappers
  import opened Timestamps
  import opened Watermarks
  import opened S3
  import opened StateDb
  import opened Items
  import Extract
  import Ship

  /** What the configuration fixes for every run. */
  datatype Agent = Agent(db: string, prefix: string, host: string, gcAge: int)

  /** One run: the units of the modules that run, and what the environment answers. `metrics` is what the host
      metrics module collects, `None` when it does not run. A run that is killed leaves what a run with shorter
      lists leaves, whose last unit has a breaking cursor, an upload that fails, or a commit that fails. */
  datatype Run = Run(runDt: Instant, dryRun: bool,
                     collections: seq<Config>, connected: bool, servers: string -> Extract.Env,
                     sources: seq<Ship.SourceConfig>, systems: string -> Ship.PollEnv,
                     metrics: Option<seq<string>>, metricsOutcome: Outcome)

  /** Everything durable. */
  datatype Deployed = Deployed(watermarks: map<string, Watermark>, offsets: OffsetTable, objects: Bucket<Item>)

  const NEW := Deployed(map[], map[], [])

  function RunContextOf(a: Agent, r: Run): Extract.RunContext {
    Extract.RunContext(r.runDt, r.dryRun, a.db, a.prefix)
  }

  function PollContextOf(a: Agent, r: Run): Ship.PollContext {
    Ship.PollContext(r.runDt, r.dryRun, a.host, a.prefix, a.gcAge)
  }

  function MongoPart(d: Deployed): Extract.World {
    Extract.World(d.watermarks, d.objects)
  }

  function LogsPart(d: Deployed): Ship.LogWorld {
    Ship.LogWorld(d.offsets, d.objects)
  }

  // ---- Specification of one run ----

  function AfterMongo(a: Agent, r: Run, d: Deployed): (Deployed, seq<UnitResult>) {
    if r.connected then
      var (w, results) := Extract.ExtractAllSpec(r.collections, RunContextOf(a, r), r.servers, MongoPart(d));
      (Deployed(w.watermarks, d.offsets, w.objects), results)
    else
      (d, Extract.AllFailed(r.collections))
  }

  function AfterLogs(a: Agent, r: Run, d: Deployed): (Deployed, seq<UnitResult>) {
    var (w, results) := Ship.ShipAllSpec(r.sources, PollContextOf(a, r), r.systems, LogsPart(d));
    (Deployed(d.watermarks, w.offsets, w.objects), results)
  }

  function MetricItems(records: seq<string>): seq<Item> {
    seq(|records|, i requires 0 <= i < |records| => MetricItem(records[i]))
  }

  function AfterMetrics(a: Agent, r: Run, d: Deployed): (Deployed, seq<UnitResult>) {
    if r.metrics.None? then (d, [])
    else if r.metrics.value == [] then (d, [UnitResult("hostmetrics", StatusEmpty, 0)])
    else if r.dryRun then (d, [UnitResult("hostmetrics", StatusOk, |r.metrics.value|)])
    else
      (Deployed(d.watermarks, d.offsets,
                Uploaded(d.objects, HostMetricsKey(NormalPrefix(a.prefix), r.runDt), MetricItems(r.metrics.value),
                         r.metricsOutcome)),
       [if r.metricsOutcome.Confirmed? then UnitResult("hostmetrics", StatusOk, |r.metrics.value|)
        else UnitResult("hostmetrics", StatusFailed, 0)])
  }

  function RunSpec(a: Agent, r: Run, d: Deployed): (Deployed, seq<UnitResult>) {
    var (d1, mongo) := AfterMongo(a, r, d);
    var (d2, logs) := AfterLogs(a, r, d1);
    var (d3, metrics) := AfterMetrics(a, r, d2);
    (d3, mongo + logs + metrics)
  }

  // ---- run_cycle ----

  method CollectMetrics(a: Agent, r: Run, uploader: Uploader<Item>) returns (results: seq<UnitResult>)
    requires uploader.prefix == NormalPrefix(a.prefix)
    modifies uploader
    ensures forall d: Deployed :: d.objects == old(uploader.objects) ==>
      AfterMetrics(a, r, d) == (d.(objects := uploader.objects), results)
  {
    if r.metrics.None? {
      return [];
    }
    var records := r.metrics.value;
    if records == [] {
      return [UnitResult("hostmetrics", StatusEmpty, 0)];
    }
    var sink := new Ship.NdjsonSink<string>();
    sink.WriteRows(records);
    var total := sink.Close();
    assert sink.written == records;
    if r.dryRun {
      sink.Discard();
      return [UnitResult("hostmetrics", StatusOk, total)];
    }
    var key := HostMetricsKey(uploader.prefix, r.runDt);
    var uploaded := uploader.Upload(key, MetricItems(sink.written), r.metricsOutcome);
    sink.Discard();
    return [if uploaded.Ok? then UnitResult("hostmetrics", StatusOk, total)
            else UnitResult("hostmetrics", StatusFailed, 0)];
  }

  /** Mongo, then logs, then host metrics, on the same bucket and store. */
  method RunCycle(a: Agent, r: Run, state: StateStore, uploader: Uploader<Item>) returns (results: seq<UnitResult>)
    requires uploader.prefix == NormalPrefix(a.prefix)
    modifies state, uploader
    ensures (Deployed(state.watermarks, state.offsets, uploader.objects), results)
            == RunSpec(a, r, old(Deployed(state.watermarks, state.offsets, uploader.objects)))
  {
    hide AfterMetrics, Extract.ExtractAllSpec, Ship.ShipAllSpec;
    ghost var d0 := Deployed(state.watermarks, state.offsets, uploader.objects);
    var mongo := Extract.ExtractAll(r.collections, state, uploader, RunContextOf(a, r), r.servers, r.connected);
    ghost var d1 := Deployed(state.watermarks, state.offsets, uploader.objects);
    assert AfterMongo(a, r, d0) == (d1, mongo);
    var logs := Ship.ShipAll(r.sources, true, state, uploader, PollContextOf(a, r), r.systems);
    ghost var d2 := Deployed(state.watermarks, state.offsets, uploader.objects);
    assert AfterLogs(a, r, d1) == (d2, logs);
    var metrics := CollectMetrics(a, r, uploader);
    assert AfterMetrics(a, r, d2) == (d2.(objects := uploader.objects), metrics);
    results := mongo + logs + metrics;
  }

  /** A sequence of runs. */
  function RunAll(a: Agent, runs: seq<Run>, d: Deployed): Deployed
    decreases |runs|
  {
    if runs == [] then d else RunAll(a, runs[1..], RunSpec(a, runs[0], d).0)
  }

  /** Runs do not overlap and start in later and later seconds, the first after `second`. */
  predicate InOrder(runs: seq<Run>, second: int)
    decreases |runs|
  {
    runs == [] || (second < runs[0].runDt / SECOND && InOrder(runs[1..], runs[0].runDt / SECOND))
  }

  lemma {:induction false} OrderedLater(runs: seq<Run>, earlier: int, second: int)
    requires InOrder(runs, second) && earlier <= second
    ensures InOrder(runs, earlier)
  {}
}
