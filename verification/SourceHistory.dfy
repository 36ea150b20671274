/** Whole histories of the agent, as one log source sees them: runs of all modules on one bucket and one store,
    with producers acting before, between and during the runs, are runs of the source's machine. */
module SourceHistory {
  import opened Lines
  import opened Codec
  import opened Timestamps
  import opened Tailer
  import opened Items
  import opened S3
  import opened StateDb
  import opened Sources
  import opened Slices
  import opened LogMachine
  import opened LogSafety
  import opened LogOnce
  import opened LogSteps
  import opened LogRefinement
  import opened LogCatchUp
  import opened Runner
  import Extract
  import Landing
  import Watermarks
  import Ship
  import SourceIsolation

  function SiteOf(a: Agent): Site {
    Site(NormalPrefix(a.prefix), a.db)
  }

  // ---- Other units do not show ----

  lemma {:induction false} ForeignPollObjects(p: LogPipe, site: Site, cfg: Ship.SourceConfig, ctx: Ship.PollContext,
                                              env: Ship.PollEnv, w: Ship.LogWorld)
    requires site.prefix == NormalPrefix(ctx.prefix) && cfg.name != p.source
    ensures RecordsOfUnit(Ship.ShipSpec(cfg, ctx, env, w).0.objects, site, p.source)
         == RecordsOfUnit(w.objects, site, p.source)
  {
    hide NormalPrefix, Slice, RecordView, LogsKey, Ship.Collected, LineItems, Uploaded, Ship.PlansOf, Ship.Committed;
    ForeignUploaded(w.objects, site, Source(p.source), Source(cfg.name), ctx.runDt,
                    LineItems(Ship.Collected(cfg, ctx, env, Ship.PlansOf(cfg, env, w.offsets))), env.outcome);
  }

  /** A poll of another source. */
  lemma {:induction false} ForeignPoll(p: LogPipe, site: Site, s: State, cfg: Ship.SourceConfig, ctx: Ship.PollContext,
                                       env: Ship.PollEnv, w: Ship.LogWorld)
    requires p.prefix == NormalPrefix(ctx.prefix) && Shows(p, site, s, w) && cfg.name != p.source
    ensures Shows(p, site, s, Ship.ShipSpec(cfg, ctx, env, w).0)
  {
    hide NormalPrefix, RecordsOfUnit, Alike, OffsetsOf, Ship.ShipSpec;
    ForeignPollObjects(p, site, cfg, ctx, env, w);
    SourceIsolation.PollKeepsOtherOffsets(cfg, ctx, env, w, p.source);
  }

  lemma {:induction false} CollectionsDoNotShow(p: LogPipe, site: Site, s: State, cfgs: seq<Watermarks.Config>,
                                                ctx: Extract.RunContext, envs: string -> Extract.Env, w: Extract.World,
                                                offsets: OffsetTable)
    requires site == Site(NormalPrefix(ctx.prefix), ctx.db) && Shows(p, site, s, Ship.LogWorld(offsets, w.objects))
    ensures Shows(p, site, s, Ship.LogWorld(offsets, Extract.ExtractAllSpec(cfgs, ctx, envs, w).0.objects))
    decreases |cfgs|
  {
    hide Slice, RecordView, Uploaded, Alike, OffsetsOf, NormalPrefix, MongoKey;
    if cfgs != [] {
      var init, cfg := cfgs[..|cfgs| - 1], cfgs[|cfgs| - 1];
      CollectionsDoNotShow(p, site, s, init, ctx, envs, w, offsets);
      var w1 := Extract.ExtractAllSpec(init, ctx, envs, w).0;
      TurnDoesNotShow(p, site, s, cfg, ctx, envs(cfg.name), w1, offsets);
    }
  }

  lemma {:induction false} TurnDoesNotShow(p: LogPipe, site: Site, s: State, cfg: Watermarks.Config,
                                           ctx: Extract.RunContext, env: Extract.Env, w: Extract.World,
                                           offsets: OffsetTable)
    requires site == Site(NormalPrefix(ctx.prefix), ctx.db) && Shows(p, site, s, Ship.LogWorld(offsets, w.objects))
    ensures Shows(p, site, s, Ship.LogWorld(offsets, Extract.Turn(cfg, ctx, env, w).0.objects))
  {
    hide Slice, RecordView, Uploaded, Alike, OffsetsOf, NormalPrefix, MongoKey, RowItems, Landing.RowsOf,
      Watermarks.StartFilter, Watermarks.ObservedAll, Watermarks.NewWatermark;
    forall docs: seq<Watermarks.Doc>
      ensures RecordsOfUnit(Extract.Shipped(cfg, ctx, env, w, docs).0.objects, site, p.source)
           == RecordsOfUnit(w.objects, site, p.source)
    {
      ForeignUploaded(w.objects, site, Source(p.source), Collection(cfg.name), ctx.runDt,
                      RowItems(Landing.RowsOf(cfg.mode, ctx.runDt, docs)), env.outcome);
    }
  }

  lemma {:induction false} MetricsDoNotShow(p: LogPipe, s: State, a: Agent, r: Run, d: Deployed)
    requires Shows(p, SiteOf(a), s, LogsPart(d))
    ensures Shows(p, SiteOf(a), s, LogsPart(AfterMetrics(a, r, d).0))
  {
    hide NormalPrefix, Slice, RecordView, HostMetricsKey, MetricItems, Uploaded, Alike, OffsetsOf;
    if r.metrics.Some? {
      ForeignUploaded(d.objects, SiteOf(a), Source(p.source), HostMetrics, r.runDt, MetricItems(r.metrics.value),
                      r.metricsOutcome);
    }
  }

  // ---- One run of the agent ----

  /** The run names each source once, and this one as the machine has it. */
  ghost predicate Consistent(p: LogPipe, cfgs: seq<Ship.SourceConfig>) {
    && (forall i, j :: 0 <= i < j < |cfgs| ==> cfgs[i].name != cfgs[j].name)
    && (forall c :: c in cfgs && c.name == p.source ==> c == Ship.SourceConfig(p.source, p.enc, p.max))
  }

  function OwnConfig(p: LogPipe): Ship.SourceConfig {
    Ship.SourceConfig(p.source, p.enc, p.max)
  }

  lemma {:induction false} NotAmong(p: LogPipe, site: Site, s: State, cfgs: seq<Ship.SourceConfig>,
                                    ctx: Ship.PollContext, envs: string -> Ship.PollEnv, w: Ship.LogWorld)
    requires p.prefix == NormalPrefix(ctx.prefix) && Shows(p, site, s, w)
    requires forall c :: c in cfgs ==> c.name != p.source
    ensures Shows(p, site, s, Ship.ShipAllSpec(cfgs, ctx, envs, w).0)
    decreases |cfgs|
  {
    hide Shows, Ship.ShipSpec, NormalPrefix;
    if cfgs != [] {
      var init, last := cfgs[..|cfgs| - 1], cfgs[|cfgs| - 1];
      assert forall c :: c in init ==> c in cfgs;
      NotAmong(p, site, s, init, ctx, envs, w);
      assert last in cfgs;
      ForeignPoll(p, site, s, last, ctx, envs(last.name), Ship.ShipAllSpec(init, ctx, envs, w).0);
    }
  }

  /** Which keys a poll disturbs depends on the source's own records alone. */
  lemma {:induction false} DisturbedIsLocal(cfg: Ship.SourceConfig, ctx: Ship.PollContext, env: Ship.PollEnv,
                                            v: Ship.LogWorld, w: Ship.LogWorld)
    requires OffsetsOf(v.offsets, cfg.name) == OffsetsOf(w.offsets, cfg.name)
    ensures Disturbed(cfg, ctx, env, v) == Disturbed(cfg, ctx, env, w)
  {
    hide OffsetsOf, Ship.PlansOf, Ship.Committed, Ship.Collected, PlannedTwice, Unsettled, Uploaded, LineItems;
    SourceIsolation.CommittedIsLocal(cfg, ctx, env, v, w);
  }

  lemma {:induction false} Among(p: LogPipe, site: Site, s: State, cfgs: seq<Ship.SourceConfig>, ctx: Ship.PollContext,
                                 envs: string -> Ship.PollEnv, w: Ship.LogWorld, gaps: Gaps)
    returns (steps: seq<Action>)
    requires p.prefix == NormalPrefix(ctx.prefix) && Shows(p, site, s, w)
    requires s.phase.Idle? && s.lastSecond < ctx.runDt / SECOND
    requires Consistent(p, cfgs) && OwnConfig(p) in cfgs
    requires PollHolds(p, envs(p.source), OffsetsOf(w.offsets, p.source), gaps, FilesOf(s))
    ensures Legal(p, s, steps)
    ensures var t := Exec(p, s, steps);
      && t.phase.Idle? && t.lastSecond == ctx.runDt / SECOND
      && FilesOf(t) == AfterPoll(p, envs(p.source), OffsetsOf(w.offsets, p.source), gaps, FilesOf(s))
      && Shows(p, site, t, Ship.ShipAllSpec(cfgs, ctx, envs, w).0)
      && t.repeats <= s.repeats + Disturbed(OwnConfig(p), ctx, envs(p.source), w)
      && t.objects == Landed(p, ctx, envs(p.source), Ship.PlansOf(OwnConfig(p), envs(p.source), w.offsets), s.objects)
    decreases |cfgs|
  {
    hide Alike, RecordsOfUnit, OffsetsOf, Ship.ShipSpec, NormalPrefix, PollHolds, AfterPoll, Legal, Exec, Disturbed,
      Landed, Ship.PlansOf;
    var n := |cfgs| - 1;
    var init, last := cfgs[..n], cfgs[n];
    assert forall c :: c in init ==> c in cfgs;
    if last == OwnConfig(p) {
      forall c | c in init
        ensures c.name != p.source
      {
        var i :| 0 <= i < n && cfgs[i] == c;
        assert cfgs[i].name != cfgs[n].name;
      }
      NotAmong(p, site, s, init, ctx, envs, w);
      var w1 := Ship.ShipAllSpec(init, ctx, envs, w).0;
      DisturbedIsLocal(last, ctx, envs(last.name), w, w1);
      SourceIsolation.CommittedIsLocal(last, ctx, envs(last.name), w, w1);
      steps := ShipRunsTheMachine(p, site, s, last, ctx, envs(last.name), w1, gaps);
    } else {
      assert last in cfgs && last.name != p.source;
      assert Consistent(p, init);
      steps := Among(p, site, s, init, ctx, envs, w, gaps);
      ForeignPoll(p, site, Exec(p, s, steps), last, ctx, envs(last.name), Ship.ShipAllSpec(init, ctx, envs, w).0);
    }
  }

  predicate Ships(p: LogPipe, r: Run) {
    OwnConfig(p) in r.sources
  }

  /** The hypotheses on producers and file system during one run. */
  ghost predicate RunHolds(p: LogPipe, r: Run, offsets: OffsetTable, gaps: Gaps, fs: FileSystem) {
    Ships(p, r) ==> PollHolds(p, r.systems(p.source), OffsetsOf(offsets, p.source), gaps, fs)
  }

  function AfterRun(p: LogPipe, r: Run, offsets: OffsetTable, gaps: Gaps, fs: FileSystem): FileSystem {
    if Ships(p, r) then AfterPoll(p, r.systems(p.source), OffsetsOf(offsets, p.source), gaps, fs) else fs
  }

  /** The keys one run disturbs. */
  function RunDisturbs(p: LogPipe, a: Agent, r: Run, d: Deployed): set<Key> {
    if Ships(p, r) then Disturbed(OwnConfig(p), PollContextOf(a, r), r.systems(p.source), LogsPart(d)) else {}
  }

  /** This source's objects after one run, each line with the key of the plan that read it. */
  function RunLands(p: LogPipe, a: Agent, r: Run, d: Deployed, b: Bucket<Shipped>): Bucket<Shipped> {
    var env := r.systems(p.source);
    if Ships(p, r) then Landed(p, PollContextOf(a, r), env, Ship.PlansOf(OwnConfig(p), env, d.offsets), b) else b
  }

  /** One run of the agent is one run of the source's machine. */
  lemma {:induction false} RunIsARun(p: LogPipe, s: State, a: Agent, r: Run, d: Deployed, gaps: Gaps)
    returns (steps: seq<Action>)
    requires Shows(p, SiteOf(a), s, LogsPart(d)) && s.phase.Idle? && s.lastSecond < r.runDt / SECOND
    requires Consistent(p, r.sources) && RunHolds(p, r, d.offsets, gaps, FilesOf(s))
    ensures Legal(p, s, steps)
    ensures var t := Exec(p, s, steps);
      && t.phase.Idle? && t.lastSecond <= r.runDt / SECOND && FilesOf(t) == AfterRun(p, r, d.offsets, gaps, FilesOf(s))
      && Shows(p, SiteOf(a), t, LogsPart(RunSpec(a, r, d).0))
      && t.repeats <= s.repeats + RunDisturbs(p, a, r, d) && t.objects == RunLands(p, a, r, d, s.objects)
  {
    hide Alike, RecordsOfUnit, OffsetsOf, Ship.ShipAllSpec, NormalPrefix, PollHolds, AfterPoll, Legal, Exec, Consistent,
      Extract.ExtractAllSpec, AfterMetrics, Disturbed, Landed, Ship.PlansOf;
    var site, ctx := SiteOf(a), PollContextOf(a, r);
    var d1 := AfterMongo(a, r, d).0;
    if r.connected {
      CollectionsDoNotShow(p, site, s, r.collections, RunContextOf(a, r), r.servers, MongoPart(d), d.offsets);
    }
    if Ships(p, r) {
      DisturbedIsLocal(OwnConfig(p), ctx, r.systems(p.source), LogsPart(d), LogsPart(d1));
      steps := Among(p, site, s, r.sources, ctx, r.systems, LogsPart(d1), gaps);
    } else {
      steps := [];
      NoSteps(p, s);
      NotAmongThen(p, r.sources);
      NotAmong(p, site, s, r.sources, ctx, r.systems, LogsPart(d1));
    }
    MetricsDoNotShow(p, Exec(p, s, steps), a, r, AfterLogs(a, r, d1).0);
  }

  lemma {:induction false} NotAmongThen(p: LogPipe, cfgs: seq<Ship.SourceConfig>)
    requires Consistent(p, cfgs) && OwnConfig(p) !in cfgs
    ensures forall c :: c in cfgs ==> c.name != p.source
  {}

  // ---- Histories ----

  /** Around and during one run: what producers do before it, and before each look and read. */
  datatype Visit = Visit(before: seq<FileSystem>, gaps: Gaps)

  ghost predicate HistoryHolds(p: LogPipe, a: Agent, fs: FileSystem, runs: seq<Run>, d: Deployed, visits: seq<Visit>)
    requires |visits| == |runs|
    decreases |runs|
  {
    runs == [] ||
    (ChangesHold([], fs, visits[0].before)
     && var now := Last(fs, visits[0].before);
        RunHolds(p, runs[0], d.offsets, visits[0].gaps, now)
        && HistoryHolds(p, a, AfterRun(p, runs[0], d.offsets, visits[0].gaps, now), runs[1..], RunSpec(a, runs[0], d).0,
                        visits[1..]))
  }

  /** The file system after a history: what the producers left. */
  function FilesAfter(p: LogPipe, a: Agent, fs: FileSystem, runs: seq<Run>, d: Deployed, visits: seq<Visit>): FileSystem
    requires |visits| == |runs|
    decreases |runs|
  {
    if runs == [] then fs
    else
      FilesAfter(p, a, AfterRun(p, runs[0], d.offsets, visits[0].gaps, Last(fs, visits[0].before)), runs[1..],
                 RunSpec(a, runs[0], d).0, visits[1..])
  }

  /** The keys a history disturbs. */
  function HistoryDisturbs(p: LogPipe, a: Agent, runs: seq<Run>, d: Deployed): set<Key>
    decreases |runs|
  {
    if runs == [] then {}
    else RunDisturbs(p, a, runs[0], d) + HistoryDisturbs(p, a, runs[1..], RunSpec(a, runs[0], d).0)
  }

  /** This source's objects after a history, each line with the key of the plan that read it. */
  function HistoryLands(p: LogPipe, a: Agent, runs: seq<Run>, d: Deployed, b: Bucket<Shipped>): Bucket<Shipped>
    decreases |runs|
  {
    if runs == [] then b
    else HistoryLands(p, a, runs[1..], RunSpec(a, runs[0], d).0, RunLands(p, a, runs[0], d, b))
  }

  /** Any sequence of runs of the agent, on a bucket and a store all units share, is a run of the source's
      machine: its files end up as the producers left them, its records and its slice of the bucket where the
      runs took them, line by line under the keys of the plans that read them, and only keys that some run
      disturbed count as repeated. */
  lemma {:induction false} HistoryIsARun(p: LogPipe, s: State, a: Agent, runs: seq<Run>, d: Deployed,
                                         visits: seq<Visit>)
    returns (steps: seq<Action>)
    requires Shows(p, SiteOf(a), s, LogsPart(d)) && s.phase.Idle? && InOrder(runs, s.lastSecond)
    requires |visits| == |runs| && forall r :: r in runs ==> Consistent(p, r.sources)
    requires HistoryHolds(p, a, FilesOf(s), runs, d, visits)
    ensures Legal(p, s, steps)
    ensures var t := Exec(p, s, steps);
      && t.phase.Idle? && FilesOf(t) == FilesAfter(p, a, FilesOf(s), runs, d, visits)
      && Shows(p, SiteOf(a), t, LogsPart(RunAll(a, runs, d)))
      && t.repeats <= s.repeats + HistoryDisturbs(p, a, runs, d)
      && t.objects == HistoryLands(p, a, runs, d, s.objects)
    decreases |runs|
  {
    hide Legal, Exec, RunHolds, AfterRun, RecordsOfUnit, RunSpec, Consistent, Alike, OffsetsOf, ChangesHold,
      NormalPrefix, RunDisturbs, RunLands;
    if runs == [] {
      steps := [];
      NoSteps(p, s);
    } else {
      var r, v := runs[0], visits[0];
      assert r in runs && forall x :: x in runs[1..] ==> x in runs;
      ChangesRun(p, s, v.before);
      var s1 := Exec(p, s, Changes(v.before));
      var own := RunIsARun(p, s1, a, r, d, v.gaps);
      var t := Exec(p, s1, own);
      OrderedLater(runs[1..], t.lastSecond, r.runDt / SECOND);
      var more := HistoryIsARun(p, t, a, runs[1..], RunSpec(a, r, d).0, visits[1..]);
      Join(p, s1, own, more);
      Join(p, s, Changes(v.before), own + more);
      steps := Changes(v.before) + (own + more);
    }
  }

  // ---- From an empty deployment ----

  const NO_FILES := FileSystem(map[], map[])

  /** The history starts on an empty bucket, store and file system. */
  ghost predicate Starts(p: LogPipe, a: Agent, runs: seq<Run>, visits: seq<Visit>) {
    && p.prefix == NormalPrefix(a.prefix) && InOrder(runs, -1)
    && |visits| == |runs| && (forall r :: r in runs ==> Consistent(p, r.sources))
    && HistoryHolds(p, a, NO_FILES, runs, NEW, visits)
  }

  function HeadKey(content: Bytes): Key
    requires |content| >= FP_PREFIX
  {
    Fingerprint(content[..FP_PREFIX])
  }

  /** A fingerprinted file with a stored offset. */
  ghost predicate Tracks(files: map<nat, Bytes>, offsets: Offsets, f: nat) {
    f in files && |files[f]| >= FP_PREFIX && HeadKey(files[f]) in offsets
  }

  /** The lines of this source in the shared bucket. */
  ghost function LoggedLines(p: LogPipe, a: Agent, d: Deployed): seq<Text> {
    Logged(Contents(RecordsOfUnit(d.objects, SiteOf(a), p.source)))
  }

  /** The machine's state after such a history. */
  lemma {:induction false} StateReached(p: LogPipe, a: Agent, runs: seq<Run>, visits: seq<Visit>) returns (t: State)
    requires Starts(p, a, runs, visits)
    ensures OnceInv(p, t) && t.phase.Idle? && FilesOf(t) == FilesAfter(p, a, NO_FILES, runs, NEW, visits)
    ensures Shows(p, SiteOf(a), t, LogsPart(RunAll(a, runs, NEW))) && t.repeats <= HistoryDisturbs(p, a, runs, NEW)
    ensures t.objects == HistoryLands(p, a, runs, NEW, [])
  {
    hide Legal, Exec, HistoryHolds, OnceInv, Consistent, InOrder, NormalPrefix, HistoryDisturbs, HistoryLands;
    assert Shows(p, SiteOf(a), Empty(), LogsPart(NEW));
    hide RecordsOfUnit, Alike;
    var steps := HistoryIsARun(p, Empty(), a, runs, NEW, visits);
    EmptyIsOnce(p);
    RunsOnce(p, Empty(), steps);
    t := Exec(p, Empty(), steps);
  }

  /** No line is lost, for the agent as a whole: after any runs of all modules from an empty bucket and store,
      with any rotation and any failed uploads and commits, every stored offset of a fingerprinted file, as the
      producers left it, is one of its line boundaries, and every non-blank line before it is among the
      source's records in the shared bucket, with multiplicity. */
  lemma {:induction false} NothingIsLost(p: LogPipe, a: Agent, runs: seq<Run>, visits: seq<Visit>) returns (t: State)
    requires Starts(p, a, runs, visits)
    ensures var d, files := RunAll(a, runs, NEW), FilesAfter(p, a, NO_FILES, runs, NEW, visits).files;
      var offsets := OffsetsOf(d.offsets, p.source);
      forall f :: Tracks(files, offsets, f) ==>
        Delivered(p.enc, files[f], offsets[HeadKey(files[f])].offset, LoggedLines(p, a, d))
    ensures Inv(p, t) && t.phase.Idle? && FilesOf(t) == FilesAfter(p, a, NO_FILES, runs, NEW, visits)
    ensures Shows(p, SiteOf(a), t, LogsPart(RunAll(a, runs, NEW)))
  {
    hide Starts, Inv, AllOnce, StoredOnce, PlansResume, PiecesResume, Delivered, Shows, FilesAfter, LoggedLines;
    t := StateReached(p, a, runs, visits);
    var d := RunAll(a, runs, NEW);
    var offsets := OffsetsOf(d.offsets, p.source);
    forall f | Tracks(t.files, offsets, f)
      ensures Delivered(p.enc, t.files[f], offsets[HeadKey(t.files[f])].offset, LoggedLines(p, a, d))
    {
      TrackedIsLogged(p, a, t, d, f);
    }
  }

  lemma {:induction false} TrackedIsLogged(p: LogPipe, a: Agent, t: State, d: Deployed, f: nat)
    requires Inv(p, t) && Shows(p, SiteOf(a), t, LogsPart(d)) && Tracks(t.files, OffsetsOf(d.offsets, p.source), f)
    ensures Delivered(p.enc, t.files[f], OffsetsOf(d.offsets, p.source)[HeadKey(t.files[f])].offset,
                      LoggedLines(p, a, d))
  {
    hide Inv, Span, LinesFor, Contents, Logged, Boundary, RecordsOfUnit, Alike;
    StoredIsDelivered(p, t, f);
    DeliveredIsLogged(p, SiteOf(a), t, LogsPart(d), HeadKey(t.files[f]));
  }

  // ---- Several files at once ----

  /** A tracked file's stored offset lies within it. */
  ghost predicate Within(files: map<nat, Bytes>, offsets: Offsets, f: nat) {
    Tracks(files, offsets, f) && 0 <= offsets[HeadKey(files[f])].offset <= |files[f]|
  }

  ghost function LinesBefore(p: LogPipe, files: map<nat, Bytes>, offsets: Offsets, f: nat): seq<Text>
    requires Within(files, offsets, f)
  {
    Span(p.enc, files[f], 0, offsets[HeadKey(files[f])].offset)
  }

  /** All lines of these files before their stored offsets. */
  ghost function AllBefore(p: LogPipe, files: map<nat, Bytes>, offsets: Offsets, fs: seq<nat>): seq<Text>
    requires forall f :: f in fs ==> Within(files, offsets, f)
  {
    if fs == [] then []
    else
      assert fs[|fs| - 1] in fs;
      AllBefore(p, files, offsets, fs[..|fs| - 1]) + LinesBefore(p, files, offsets, fs[|fs| - 1])
  }

  function HeadKeys(files: map<nat, Bytes>, fs: seq<nat>): seq<Key>
    requires forall f :: f in fs ==> f in files && |files[f]| >= FP_PREFIX
  {
    seq(|fs|, i requires 0 <= i < |fs| => HeadKey(files[fs[i]]))
  }

  /** The tracked files of the list, each named once. */
  ghost predicate Listed(files: map<nat, Bytes>, offsets: Offsets, fs: seq<nat>) {
    && (forall f :: f in fs ==> Tracks(files, offsets, f))
    && (forall i, j :: 0 <= i < j < |fs| ==> fs[i] != fs[j])
  }

  lemma {:induction false} HeadKeysDiffer(files: map<nat, Bytes>, fs: seq<nat>)
    requires DistinctHeads(files) && (forall f :: f in fs ==> f in files && |files[f]| >= FP_PREFIX)
    requires forall i, j :: 0 <= i < j < |fs| ==> fs[i] != fs[j]
    ensures var keys := HeadKeys(files, fs); forall i, j :: 0 <= i < j < |keys| ==> keys[i] != keys[j]
  {
    var keys := HeadKeys(files, fs);
    forall i, j | 0 <= i < j < |keys|
      ensures keys[i] != keys[j]
    {
      assert fs[i] in fs && fs[j] in fs && fs[i] != fs[j];
      assert !HasHead(files[fs[j]], files[fs[i]][..FP_PREFIX]);
    }
  }

  lemma {:induction false} TrackedIsDelivered(p: LogPipe, t: State, f: nat)
    requires Inv(p, t) && Tracks(t.files, OffsetsOf(t.table, p.source), f)
    ensures Within(t.files, OffsetsOf(t.table, p.source), f)
    ensures multiset(LinesBefore(p, t.files, OffsetsOf(t.table, p.source), f))
         <= multiset(LinesFor(Contents(t.objects), HeadKey(t.files[f])))
  {
    hide Inv, LinesFor, Contents, Span, Boundary;
    StoredIsDelivered(p, t, f);
  }

  lemma {:induction false} LinesForLast(records: seq<Shipped>, files: map<nat, Bytes>, fs: seq<nat>)
    requires fs != [] && forall f :: f in fs ==> f in files && |files[f]| >= FP_PREFIX
    ensures var init, f := fs[..|fs| - 1], fs[|fs| - 1];
      && f in fs && (forall g :: g in init ==> g in fs)
      && LinesForAll(records, HeadKeys(files, fs))
         == LinesForAll(records, HeadKeys(files, init)) + LinesFor(records, HeadKey(files[f]))
  {
    hide LinesFor, HeadKey;
    var init := fs[..|fs| - 1];
    assert forall g :: g in init ==> g in fs;
    assert fs[|fs| - 1] in fs;
    assert HeadKeys(files, fs)[..|init|] == HeadKeys(files, init);
  }

  lemma {:induction false} ListedIsDelivered(p: LogPipe, t: State, fs: seq<nat>)
    requires Inv(p, t) && forall f :: f in fs ==> Tracks(t.files, OffsetsOf(t.table, p.source), f)
    ensures forall f :: f in fs ==> Within(t.files, OffsetsOf(t.table, p.source), f)
    ensures multiset(AllBefore(p, t.files, OffsetsOf(t.table, p.source), fs))
         <= multiset(LinesForAll(Contents(t.objects), HeadKeys(t.files, fs)))
  {
    hide Inv, LinesFor, Contents, LinesBefore, HeadKeys, LinesForAll, Within, OffsetsOf;
    if fs != [] {
      LinesForLast(Contents(t.objects), t.files, fs);
      var init, f := fs[..|fs| - 1], fs[|fs| - 1];
      ListedIsDelivered(p, t, init);
      TrackedIsDelivered(p, t, f);
      assert fs == init + [f];
      SumOfTwo(AllBefore(p, t.files, OffsetsOf(t.table, p.source), init),
               LinesBefore(p, t.files, OffsetsOf(t.table, p.source), f),
               LinesForAll(Contents(t.objects), HeadKeys(t.files, init)),
               LinesFor(Contents(t.objects), HeadKey(t.files[f])));
    }
  }

  lemma {:induction false} SumOfTwo(a: seq<Text>, b: seq<Text>, c: seq<Text>, d: seq<Text>)
    requires multiset(a) <= multiset(c) && multiset(b) <= multiset(d)
    ensures multiset(a + b) <= multiset(c + d)
  {
    assert multiset(a + b) == multiset(a) + multiset(b);
    assert multiset(c + d) == multiset(c) + multiset(d);
  }

  /** No landed line serves two files: the lines before the stored offsets of any different files are, all
      together, among the source's records in the shared bucket, with multiplicity. */
  lemma {:induction false} NoLineCountsTwice(p: LogPipe, a: Agent, runs: seq<Run>, visits: seq<Visit>, fs: seq<nat>)
    requires Starts(p, a, runs, visits)
    requires Listed(FilesAfter(p, a, NO_FILES, runs, NEW, visits).files,
                    OffsetsOf(RunAll(a, runs, NEW).offsets, p.source), fs)
    ensures var d, files := RunAll(a, runs, NEW), FilesAfter(p, a, NO_FILES, runs, NEW, visits).files;
      var offsets := OffsetsOf(d.offsets, p.source);
      && (forall f :: f in fs ==> Within(files, offsets, f))
      && multiset(AllBefore(p, files, offsets, fs)) <= multiset(LoggedLines(p, a, d))
  {
    hide Starts, Inv, Delivered, FilesAfter, LinesForAll, AllBefore, Within, Contents, RecordsOfUnit, Alike, Logged,
      OffsetsOf;
    var t := NothingIsLost(p, a, runs, visits);
    InvHeads(p, t);
    HeadKeysDiffer(t.files, fs);
    ListedIsDelivered(p, t, fs);
    AllDeliveredIsLogged(p, SiteOf(a), t, LogsPart(RunAll(a, runs, NEW)), HeadKeys(t.files, fs));
  }

  // ---- Exactly once ----

  /** All lines of this source's uploads, each with the key of the plan that read it. */
  ghost function LandedLines(p: LogPipe, a: Agent, runs: seq<Run>): seq<Shipped> {
    Contents(HistoryLands(p, a, runs, NEW, []))
  }

  /** Exactly once, for the agent as a whole: of the source's landed lines, which are line by line those of its
      objects in the shared bucket, the ones read by plans of a fingerprinted file whose key no run disturbed are
      exactly that file's lines up to where the next poll resumes, each once and in order. */
  lemma {:induction false} EachLineOnce(p: LogPipe, a: Agent, runs: seq<Run>, visits: seq<Visit>) returns (t: State)
    requires Starts(p, a, runs, visits)
    ensures var d, files := RunAll(a, runs, NEW), FilesAfter(p, a, NO_FILES, runs, NEW, visits).files;
      forall f :: f in files && |files[f]| >= FP_PREFIX && HeadKey(files[f]) !in HistoryDisturbs(p, a, runs, NEW) ==>
        Stretch(p.enc, files[f], 0, ResumeIn(OffsetsOf(d.offsets, p.source), HeadKey(files[f])),
                LinesFor(LandedLines(p, a, runs), HeadKey(files[f])))
    ensures Said(LandedLines(p, a, runs)) == LoggedLines(p, a, RunAll(a, runs, NEW))
    ensures t.objects == HistoryLands(p, a, runs, NEW, []) && Shows(p, SiteOf(a), t, LogsPart(RunAll(a, runs, NEW)))
  {
    hide Starts, OnceInv, FilesAfter, Stretch, HistoryDisturbs, OffsetsOf, Alike, RecordsOfUnit, LinesFor, ResumeIn,
      HistoryLands, Contents, Said, Logged;
    t := StateReached(p, a, runs, visits);
    ContentsAlike(t.objects, RecordsOfUnit(RunAll(a, runs, NEW).objects, SiteOf(a), p.source));
    forall f | f in t.files && |t.files[f]| >= FP_PREFIX && HeadKey(t.files[f]) !in HistoryDisturbs(p, a, runs, NEW)
      ensures Stretch(p.enc, t.files[f], 0, ResumeAt(p, t, HeadKey(t.files[f])), DeliveredFor(t, HeadKey(t.files[f])))
    {
      UnrepeatedOnce(p, t, f);
    }
  }

  /** A landed line of an undisturbed fingerprint belongs to a tracked file. */
  lemma {:induction false} LandedIsTracked(p: LogPipe, t: State, k: Key) returns (f: nat)
    requires OnceInv(p, t) && t.phase.Idle? && k.Fingerprint? && k !in t.repeats && DeliveredFor(t, k) != []
    ensures Tracks(t.files, OffsetsOf(t.table, p.source), f) && HeadKey(t.files[f]) == k
  {
    assert OnceAt(p, t, k, ResumeAt(p, t, k));
    hide Inv, LinesFor, Contents, Span, Boundary;
    f :| f in t.files && HasHead(t.files[f], k.prefix);
    assert Stretch(p.enc, t.files[f], 0, ResumeAt(p, t, k), DeliveredFor(t, k));
    SpanEmpty(p.enc, t.files[f], 0);
  }

  /** What a tracked file counts for is what landed under its key, if nothing disturbed the landed keys. */
  lemma {:induction false} TrackedIsExact(p: LogPipe, t: State, f: nat)
    requires OnceInv(p, t) && t.phase.Idle? && Tracks(t.files, OffsetsOf(t.table, p.source), f)
    requires DeliveredFor(t, HeadKey(t.files[f])) == [] || HeadKey(t.files[f]) !in t.repeats
    ensures Within(t.files, OffsetsOf(t.table, p.source), f)
    ensures multiset(LinesBefore(p, t.files, OffsetsOf(t.table, p.source), f))
         == multiset(DeliveredFor(t, HeadKey(t.files[f])))
  {
    hide Inv, AllOnce, LinesFor, Contents, Span, Boundary;
    TrackedIsDelivered(p, t, f);
    if HeadKey(t.files[f]) !in t.repeats {
      UnrepeatedOnce(p, t, f);
    }
  }

  lemma {:induction false} LineHasKey(records: seq<Shipped>, r: Shipped)
    requires r in records
    ensures LinesFor(records, r.key) != []
  {
    var init := records[..|records| - 1];
    if records[|records| - 1] != r {
      assert r in init;
      LineHasKey(init, r);
    }
  }

  /** The lines under all keys that occur are all lines. */
  lemma {:induction false} AllKeysSayAll(records: seq<Shipped>, keys: seq<Key>)
    requires forall i, j :: 0 <= i < j < |keys| ==> keys[i] != keys[j]
    requires forall r :: r in records ==> r.key in keys
    ensures multiset(LinesForAll(records, keys)) == multiset(Said(records))
  {
    hide LinesForAll;
    if records == [] {
      NothingForAll(keys);
    } else {
      var init, r := records[..|records| - 1], records[|records| - 1];
      assert r in records && forall x :: x in init ==> x in records;
      AllKeysSayAll(init, keys);
      OneMoreForAll(records, keys);
      assert Said(records) == Said(init) + [r.line];
    }
  }

  /** Nothing disturbed the keys of these files under which lines landed. */
  ghost predicate Calmly(t: State, fs: seq<nat>) {
    forall f :: f in fs && f in t.files && |t.files[f]| >= FP_PREFIX ==>
      DeliveredFor(t, HeadKey(t.files[f])) == [] || HeadKey(t.files[f]) !in t.repeats
  }

  lemma {:induction false} ListedIsExact(p: LogPipe, t: State, fs: seq<nat>)
    requires OnceInv(p, t) && t.phase.Idle? && Calmly(t, fs)
    requires forall f :: f in fs ==> Tracks(t.files, OffsetsOf(t.table, p.source), f)
    ensures forall f :: f in fs ==> Within(t.files, OffsetsOf(t.table, p.source), f)
    ensures multiset(AllBefore(p, t.files, OffsetsOf(t.table, p.source), fs))
         == multiset(LinesForAll(Contents(t.objects), HeadKeys(t.files, fs)))
  {
    hide OnceInv, LinesFor, Contents, LinesBefore, HeadKeys, LinesForAll, Within, OffsetsOf, HeadKey;
    if fs == [] {
      NoneListed(Contents(t.objects), t.files);
    } else {
      LinesForLast(Contents(t.objects), t.files, fs);
      var init, f := fs[..|fs| - 1], fs[|fs| - 1];
      ListedIsExact(p, t, init);
      TrackedIsExact(p, t, f);
      assert fs == init + [f];
      EqualSums(AllBefore(p, t.files, OffsetsOf(t.table, p.source), init),
                LinesBefore(p, t.files, OffsetsOf(t.table, p.source), f),
                LinesForAll(Contents(t.objects), HeadKeys(t.files, init)), DeliveredFor(t, HeadKey(t.files[f])));
    }
  }

  lemma {:induction false} NoneListed(records: seq<Shipped>, files: map<nat, Bytes>)
    ensures LinesForAll(records, HeadKeys(files, [])) == []
  {}

  lemma {:induction false} EqualSums(a: seq<Text>, b: seq<Text>, c: seq<Text>, d: seq<Text>)
    requires multiset(a) == multiset(c) && multiset(b) == multiset(d)
    ensures multiset(a + b) == multiset(c + d)
  {
    assert multiset(a + b) == multiset(a) + multiset(b);
    assert multiset(c + d) == multiset(c) + multiset(d);
  }

  /** Every landed line is under the key of a listed file, and no such key was disturbed. */
  lemma {:induction false} LandedIsListed(p: LogPipe, t: State, fs: seq<nat>)
    requires forall f :: f in fs ==> f in t.files && |t.files[f]| >= FP_PREFIX
    requires OnceInv(p, t) && t.phase.Idle?
    requires forall f :: f in fs <==> Tracks(t.files, OffsetsOf(t.table, p.source), f)
    requires forall r :: r in Contents(t.objects) ==> r.key.Fingerprint? && r.key !in t.repeats
    ensures Calmly(t, fs) && forall r :: r in Contents(t.objects) ==> r.key in HeadKeys(t.files, fs)
  {
    hide OnceInv, Contents, OffsetsOf, LinesFor;
    forall r | r in Contents(t.objects)
      ensures r.key in HeadKeys(t.files, fs)
    {
      LineHasKey(Contents(t.objects), r);
      var f := LandedIsTracked(p, t, r.key);
      var i :| 0 <= i < |fs| && fs[i] == f;
      assert HeadKeys(t.files, fs)[i] == r.key;
    }
    forall f | f in fs && DeliveredFor(t, HeadKey(t.files[f])) != []
      ensures HeadKey(t.files[f]) !in t.repeats
    {
      var r := KeyHasLine(Contents(t.objects), HeadKey(t.files[f]));
    }
  }

  lemma {:induction false} KeyHasLine(records: seq<Shipped>, k: Key) returns (r: Shipped)
    requires LinesFor(records, k) != []
    ensures r in records && r.key == k
  {
    r := records[|records| - 1];
    if r.key != k {
      r := KeyHasLine(records[..|records| - 1], k);
    }
  }

  /** No line lands twice: if every landed line was read by a plan of a fingerprinted file whose key no run
      disturbed, the source's records in the shared bucket are, with multiplicity, exactly the lines of its
      tracked files before their stored offsets, and nothing else. */
  lemma {:induction false} NothingLandsTwice(p: LogPipe, a: Agent, runs: seq<Run>, visits: seq<Visit>, fs: seq<nat>)
    requires Starts(p, a, runs, visits)
    requires var files := FilesAfter(p, a, NO_FILES, runs, NEW, visits).files;
      var offsets := OffsetsOf(RunAll(a, runs, NEW).offsets, p.source);
      Listed(files, offsets, fs) && forall f :: Tracks(files, offsets, f) ==> f in fs
    requires forall r :: r in LandedLines(p, a, runs) ==>
      r.key.Fingerprint? && r.key !in HistoryDisturbs(p, a, runs, NEW)
    ensures var d, files := RunAll(a, runs, NEW), FilesAfter(p, a, NO_FILES, runs, NEW, visits).files;
      var offsets := OffsetsOf(d.offsets, p.source);
      && (forall f :: f in fs ==> Within(files, offsets, f))
      && multiset(AllBefore(p, files, offsets, fs)) == multiset(LoggedLines(p, a, d))
  {
    hide Starts, OnceInv, FilesAfter, LinesForAll, AllBefore, Within, Tracks, Contents, RecordsOfUnit, Alike, Said,
      Logged, OffsetsOf, HistoryDisturbs, HistoryLands, HeadKeys, Calmly;
    var t := StateReached(p, a, runs, visits);
    OnceHeads(p, t);
    TrackedFit(t.files, OffsetsOf(t.table, p.source), fs);
    LandedIsListed(p, t, fs);
    ListedIsExact(p, t, fs);
    HeadKeysDiffer(t.files, fs);
    AllKeysSayAll(Contents(t.objects), HeadKeys(t.files, fs));
    ContentsAlike(t.objects, RecordsOfUnit(RunAll(a, runs, NEW).objects, SiteOf(a), p.source));
  }

  lemma {:induction false} OnceHeads(p: LogPipe, s: State)
    requires OnceInv(p, s)
    ensures DistinctHeads(s.files)
  {
    hide Inv;
    InvHeads(p, s);
  }

  lemma {:induction false} TrackedFit(files: map<nat, Bytes>, offsets: Offsets, fs: seq<nat>)
    requires forall f :: f in fs ==> Tracks(files, offsets, f)
    ensures forall f :: f in fs ==> f in files && |files[f]| >= FP_PREFIX
  {}

  lemma {:induction false} StoredIsDelivered(p: LogPipe, s: State, f: nat)
    requires Inv(p, s) && f in s.files && |s.files[f]| >= FP_PREFIX
    requires Fingerprint(s.files[f][..FP_PREFIX]) in OffsetsOf(s.table, p.source)
    ensures var k := Fingerprint(s.files[f][..FP_PREFIX]);
      Delivered(p.enc, s.files[f], OffsetsOf(s.table, p.source)[k].offset, DeliveredFor(s, k))
  {
    hide LinesFor, Contents, Span, LogKeysUpTo, Boundary;
    var x := s.files[f][..FP_PREFIX];
    assert HasHead(s.files[f], x);
    assert SafeAt(p, s, x, s.table[(p.source, Fingerprint(x))].offset);
  }
}
