/** The shipping code runs the log machine: one call of `ship_source`, on a bucket and a store shared with other
    units, while producers act between any two looks or reads, is one legal sequence of machine steps, so
    every theorem about the machine applies to it. */
module LogRefinement {
  import opened Wrappers
  import opened Timestamps
  import opened Lines
  import opened Tailer
  import opened S3
  import opened StateDb
  import opened Sources
  import opened Items
  import opened Slices
  import opened LogMachine
  import opened LogSteps
  import Ship

  // ---- Records and objects ----

  function Said(records: seq<Shipped>): seq<Text> {
    seq(|records|, i requires 0 <= i < |records| => records[i].line)
  }

  function Logged(records: seq<LogRecord>): seq<Text> {
    seq(|records|, i requires 0 <= i < |records| => records[i].line)
  }

  /** The machine's objects and the real ones hold the same lines under the same keys; the machine also
      remembers under which state key a line was read, the real ones where it came from. */
  ghost predicate Alike(b: Bucket<Shipped>, c: Bucket<LogRecord>) {
    |b| == |c| && forall i :: 0 <= i < |b| ==> b[i].key == c[i].key && Said(b[i].body) == Logged(c[i].body)
  }

  lemma {:induction false} PutAlike(b: Bucket<Shipped>, c: Bucket<LogRecord>, key: string, body: seq<Shipped>,
                                    records: seq<LogRecord>)
    requires Alike(b, c) && Said(body) == Logged(records)
    ensures Alike(Put(b, key, body), Put(c, key, records))
  {
    hide Said, Logged;
    if b != [] && b[0].key != key {
      TailAlike(b, c);
      PutAlike(b[1..], c[1..], key, body, records);
      HeadAlike(b[0], c[0], Put(b[1..], key, body), Put(c[1..], key, records));
    } else if b != [] {
      TailAlike(b, c);
      HeadAlike(Object(key, body), Object(key, records), b[1..], c[1..]);
    }
  }

  lemma {:induction false} TailAlike(b: Bucket<Shipped>, c: Bucket<LogRecord>)
    requires Alike(b, c) && b != []
    ensures Alike(b[1..], c[1..])
  {
    hide Said, Logged;
    forall i | 0 <= i < |b| - 1
      ensures b[1..][i].key == c[1..][i].key && Said(b[1..][i].body) == Logged(c[1..][i].body)
    {
      assert b[1..][i] == b[i + 1] && c[1..][i] == c[i + 1];
    }
  }

  lemma {:induction false} HeadAlike(x: Object<Shipped>, y: Object<LogRecord>, b: Bucket<Shipped>, c: Bucket<LogRecord>)
    requires x.key == y.key && Said(x.body) == Logged(y.body) && Alike(b, c)
    ensures Alike([x] + b, [y] + c)
  {
    hide Said, Logged;
  }

  lemma {:induction false} ChunkLinesSnoc(chunks: seq<TailChunk>, c: TailChunk)
    ensures ChunkLines(chunks + [c]) == ChunkLines(chunks) + c.lines
  {
    if chunks == [] {
      assert [c][1..] == [] && chunks + [c] == [c];
    } else {
      ChunkLinesSnoc(chunks[1..], c);
      assert (chunks + [c])[1..] == chunks[1..] + [c];
      Assoc(chunks[0].lines, ChunkLines(chunks[1..]), c.lines);
    }
  }

  lemma {:induction false} DrainSays(cfg: Ship.SourceConfig, ctx: Ship.PollContext, file: string,
                                     chunks: seq<TailChunk>)
    ensures Logged(Ship.DrainRecords(cfg, ctx, file, chunks)) == ChunkLines(chunks)
  {
    if chunks != [] {
      var init, c := chunks[..|chunks| - 1], chunks[|chunks| - 1];
      DrainSays(cfg, ctx, file, init);
      ChunkLinesSnoc(init, c);
      assert init + [c] == chunks;
      LoggedAppend(Ship.DrainRecords(cfg, ctx, file, init), Ship.ChunkRecords(cfg, ctx, file, c));
      assert Logged(Ship.ChunkRecords(cfg, ctx, file, c)) == c.lines;
    }
  }

  lemma {:induction false} LoggedAppend(a: seq<LogRecord>, b: seq<LogRecord>)
    ensures Logged(a + b) == Logged(a) + Logged(b)
  {}

  lemma {:induction false} SaidAppend(a: seq<Shipped>, b: seq<Shipped>)
    ensures Said(a + b) == Said(a) + Said(b)
  {}

  lemma {:induction false} TagSays(key: Key, lines: seq<Text>)
    ensures Said(Tag(key, lines)) == lines
  {}

  ghost predicate Configured(p: LogPipe, cfg: Ship.SourceConfig, ctx: Ship.PollContext) {
    p.source == cfg.name && p.enc == cfg.enc && p.max == cfg.maxBytes && p.prefix == NormalPrefix(ctx.prefix)
  }

  lemma {:induction false} SameLines(p: LogPipe, cfg: Ship.SourceConfig, ctx: Ship.PollContext, env: Ship.PollEnv,
                                     plans: seq<TailPlan>)
    requires Configured(p, cfg, ctx)
    ensures Said(RecordsOf(PiecesOf(p, env, plans))) == Logged(Ship.Collected(cfg, ctx, env, plans))
  {
    hide KeyOf, Ship.DrainRecords, Drain;
    if plans != [] {
      var init, q := plans[..|plans| - 1], plans[|plans| - 1];
      SameLines(p, cfg, ctx, env, init);
      assert PiecesOf(p, env, plans)[..|init|] == PiecesOf(p, env, init);
      var piece := PieceOf(p, env, q);
      DrainSays(cfg, ctx, env.nameOf(q.path), Ship.ChunksOf(cfg, env, q));
      TagSays(piece.key, piece.lines);
      SaidAppend(RecordsOf(PiecesOf(p, env, init)), Tag(piece.key, piece.lines));
      LoggedAppend(Ship.Collected(cfg, ctx, env, init),
                   Ship.DrainRecords(cfg, ctx, env.nameOf(q.path), Ship.ChunksOf(cfg, env, q)));
    }
  }

  lemma {:induction false} SameEmptiness(a: seq<Shipped>, b: seq<LogRecord>)
    requires Said(a) == Logged(b)
    ensures a == [] <==> b == []
  {
    assert |Said(a)| == |a| && |Logged(b)| == |b|;
  }

  // ---- Commit and sweep ----

  lemma {:induction false} SameRows(p: LogPipe, cfg: Ship.SourceConfig, ctx: Ship.PollContext, env: Ship.PollEnv,
                                    table: OffsetTable, plans: seq<TailPlan>)
    requires Configured(p, cfg, ctx)
    ensures Upserted(table, p.source, EntriesFor(PiecesOf(p, env, plans), env.sizes), env.now)
         == Upserted(table, cfg.name, Ship.Rows(env.sizes, Ship.Dict(Ship.AllReached(cfg, env, plans))), env.now)
    ensures KeysOf(PiecesOf(p, env, plans)) == Ship.PlannedKeys(plans)
  {
    hide Upserted, KeyOf, Drain, SizeAtRead;
    var pieces, all := PiecesOf(p, env, plans), Ship.AllReached(cfg, env, plans);
    Ship.DictIsLastWins(table, cfg.name, env.sizes, all, env.now);
    assert EntriesFor(pieces, env.sizes) == Ship.Rows(env.sizes, all);
    SameKeys(p, env, plans);
  }

  lemma {:induction false} SameKeys(p: LogPipe, env: Ship.PollEnv, plans: seq<TailPlan>)
    ensures KeysOf(PiecesOf(p, env, plans)) == Ship.PlannedKeys(plans)
  {
    hide KeyOf, Drain;
    var pieces := PiecesOf(p, env, plans);
    forall k | k in Ship.PlannedKeys(plans)
      ensures k in KeysOf(pieces)
    {
      var i :| 0 <= i < |plans| && KeyOf(plans[i]) == k;
      assert pieces[i] in pieces && pieces[i].key == k;
    }
  }

  lemma {:induction false} ForgetAll(p: LogPipe, s: State, keys: set<Key>) returns (steps: seq<Action>)
    requires s.phase.Sweeping? && keys !! s.phase.current
    ensures Legal(p, s, steps)
    ensures MovesTo(s.(table := Without(s.table, p.source, keys)), Exec(p, s, steps), FilesOf(s), s.phase)
    ensures Exec(p, s, steps).repeats == s.repeats + keys
    decreases keys
  {
    if keys == {} {
      steps := [];
      assert Without(s.table, p.source, keys) == s.table;
    } else {
      var k :| k in keys;
      var t := Apply(p, s, Forget(k));
      var rest := ForgetAll(p, t, keys - {k});
      One(p, s, Forget(k));
      Join(p, s, [Forget(k)], rest);
      steps := [Forget(k)] + rest;
      assert Without(s.table - {(p.source, k)}, p.source, keys - {k}) == Without(s.table, p.source, keys);
    }
  }

  /** The keys whose records are gone. */
  function Dropped(before: OffsetTable, after: OffsetTable, source: string): set<Key> {
    OffsetsOf(before, source).Keys - OffsetsOf(after, source).Keys
  }

  /** What the sweep leaves of the source's records, whatever else the table holds. */
  lemma {:induction false} SweptAlike(p: LogPipe, cfg: Ship.SourceConfig, ctx: Ship.PollContext, env: Ship.PollEnv,
                                      mine: OffsetTable, shared: OffsetTable, plans: seq<TailPlan>)
    requires Configured(p, cfg, ctx) && OffsetsOf(mine, p.source) == OffsetsOf(shared, p.source)
    ensures var written := Upserted(mine, p.source, EntriesFor(PiecesOf(p, env, plans), env.sizes), env.now);
      var stale := Stale(written, p.source, Ship.PlannedKeys(plans), env.now - ctx.gcAge);
      && stale !! Ship.PlannedKeys(plans) && stale <= Dropped(mine, Without(written, p.source, stale), p.source)
      && OffsetsOf(Without(written, p.source, stale), p.source)
         == OffsetsOf(Ship.Committed(cfg, ctx, env, shared, plans), p.source)
  {
    hide Upserted, EntriesFor, PiecesOf, Ship.Rows, Ship.Dict, Ship.AllReached, Ship.PlannedKeys, OffsetsOf, Without;
    SameRows(p, cfg, ctx, env, mine, plans);
    var rows := Ship.Rows(env.sizes, Ship.Dict(Ship.AllReached(cfg, env, plans)));
    OwnUpserts(mine, shared, p.source, rows, env.now);
    var a, b := Upserted(mine, p.source, rows, env.now), Upserted(shared, p.source, rows, env.now);
    SameStale(a, b, p.source, Ship.PlannedKeys(plans), env.now - ctx.gcAge);
    var stale := Stale(a, p.source, Ship.PlannedKeys(plans), env.now - ctx.gcAge);
    OwnRemoved(a, p.source, stale);
    OwnRemoved(b, p.source, stale);
    StaleIsOld(p, env, mine, plans, stale);
  }

  /** What is swept had a record before the poll: the records the poll wrote are of planned keys. */
  lemma {:induction false} StaleIsOld(p: LogPipe, env: Ship.PollEnv, table: OffsetTable, plans: seq<TailPlan>,
                                      stale: set<Key>)
    requires var written := Upserted(table, p.source, EntriesFor(PiecesOf(p, env, plans), env.sizes), env.now);
      stale <= OffsetsOf(written, p.source).Keys
    requires stale !! Ship.PlannedKeys(plans)
    ensures stale <= OffsetsOf(table, p.source).Keys
  {
    hide EntriesFor, PiecesOf, HasEntry, Ship.PlannedKeys, Upserted;
    var entries := EntriesFor(PiecesOf(p, env, plans), env.sizes);
    EntriesArePlanned(p, env, plans);
    forall k | k in stale
      ensures (p.source, k) in table
    {
      UpsertedRow(table, p.source, entries, env.now, p.source, k);
    }
  }

  lemma {:induction false} EntriesArePlanned(p: LogPipe, env: Ship.PollEnv, plans: seq<TailPlan>)
    ensures forall k :: HasEntry(EntriesFor(PiecesOf(p, env, plans), env.sizes), k) ==> k in Ship.PlannedKeys(plans)
  {
    hide KeyOf, Drain, SizeAtRead;
    forall k | HasEntry(EntriesFor(PiecesOf(p, env, plans), env.sizes), k)
      ensures k in Ship.PlannedKeys(plans)
    {
      var i :| 0 <= i < |plans| && EntriesFor(PiecesOf(p, env, plans), env.sizes)[i].key == k;
      assert plans[i] in plans && KeyOf(plans[i]) == k;
    }
  }

  /** Commit, sweep, clean up. */
  lemma {:induction false} CommitSteps(p: LogPipe, s: State, cfg: Ship.SourceConfig, ctx: Ship.PollContext,
                                       env: Ship.PollEnv, shared: OffsetTable, plans: seq<TailPlan>)
    returns (steps: seq<Action>)
    requires Configured(p, cfg, ctx) && s.phase.Stored? && s.phase.done == PiecesOf(p, env, plans)
    requires OffsetsOf(s.table, p.source) == OffsetsOf(shared, p.source)
    ensures Legal(p, s, steps)
    ensures var t := Exec(p, s, steps);
      && MovesTo(s.(table := t.table), t, FilesOf(s), Idle)
      && OffsetsOf(t.table, p.source) == OffsetsOf(Ship.Committed(cfg, ctx, env, shared, plans), p.source)
      && t.repeats <= s.repeats + Dropped(s.table, t.table, p.source)
  {
    hide Upserted, EntriesFor, PiecesOf, KeysOf, Ship.PlannedKeys, OffsetsOf, Stale, Without, Ship.Committed, Dropped;
    SameRows(p, cfg, ctx, env, s.table, plans);
    SweptAlike(p, cfg, ctx, env, s.table, shared, plans);
    var t := Apply(p, s, Commit(env.now, env.sizes));
    var stale := Stale(t.table, p.source, t.phase.current, env.now - ctx.gcAge);
    One(p, s, Commit(env.now, env.sizes));
    var forgets := ForgetAll(p, t, stale);
    Join(p, s, [Commit(env.now, env.sizes)], forgets);
    steps := [Commit(env.now, env.sizes)] + forgets;
    Then(p, s, steps, CleanUp);
    steps := steps + [CleanUp];
  }

  // ---- A whole poll ----

  function MatchesOf(env: Ship.PollEnv): seq<string> {
    PathsOf(Sorted(EntriesOf(env.matches, env.looks)))
  }

  /** The hypotheses on producers and file system during one poll that starts on `fs`. */
  ghost predicate PollHolds(p: LogPipe, env: Ship.PollEnv, snapshot: Offsets, gaps: Gaps, fs: FileSystem) {
    var todo := MatchesOf(env);
    var plans := PlansFrom(env, snapshot, todo);
    && LooksHold(env, snapshot, gaps, 0, fs, todo, [])
    && ReadsHold(p, env, gaps, |todo|, AfterGaps(gaps, 0, |todo|, fs), plans, FrontViews(env, plans),
                 StartOfFront(plans))
  }

  /** The file system when the poll has done its reading. */
  function AfterPoll(p: LogPipe, env: Ship.PollEnv, snapshot: Offsets, gaps: Gaps, fs: FileSystem): FileSystem {
    var todo := MatchesOf(env);
    var plans := PlansFrom(env, snapshot, todo);
    AfterReads(p, env, gaps, |todo|, AfterGaps(gaps, 0, |todo|, fs), plans, FrontViews(env, plans), StartOfFront(plans))
  }

  /** Begin, plan and drain. */
  lemma {:induction false} GatherSteps(p: LogPipe, s: State, env: Ship.PollEnv, run: Instant, gaps: Gaps)
    returns (steps: seq<Action>)
    requires s.phase.Idle? && s.lastSecond < run / SECOND
    requires PollHolds(p, env, OffsetsOf(s.table, p.source), gaps, FilesOf(s))
    ensures Legal(p, s, steps)
    ensures var snapshot := OffsetsOf(s.table, p.source);
      MovesTo(s.(lastSecond := run / SECOND), Exec(p, s, steps), AfterPoll(p, env, snapshot, gaps, FilesOf(s)),
              Draining(run, [], 0, [], PiecesOf(p, env, PlansFrom(env, snapshot, MatchesOf(env)))))
    ensures Exec(p, s, steps).repeats
         <= s.repeats + PlannedTwice(PlansFrom(env, OffsetsOf(s.table, p.source), MatchesOf(env)))
  {
    hide OffsetsOf, Legal, Exec, LooksHold, ReadsHold, AfterGaps, AfterReads, PlansFrom, RestOf, PiecesOf, MatchesOf,
      PlannedTwice;
    var snapshot, todo := OffsetsOf(s.table, p.source), MatchesOf(env);
    var begin := Begin(run, todo);
    One(p, s, begin);
    var s1 := Apply(p, s, begin);
    var plan := PlanSteps(p, s1, env, gaps, 0);
    Join(p, s, [begin], plan);
    steps := [begin] + plan;
    var plans := PlansFrom(env, snapshot, todo);
    assert [] + plans == plans;
    Then(p, s, steps, StartDrain);
    steps := steps + [StartDrain];
    var s2 := Exec(p, s, steps);
    var drain := DrainSteps(p, s2, env, gaps, |todo|, FrontViews(env, plans));
    RestIsPieces(p, env, plans);
    Join(p, s, steps, drain);
    steps := steps + drain;
    assert [] + PiecesOf(p, env, plans) == PiecesOf(p, env, plans);
  }

  /** The machine's table and objects are this source's part of the deployed state. */
  ghost predicate Shows(p: LogPipe, site: Site, s: State, w: Ship.LogWorld) {
    && site.prefix == p.prefix
    && OffsetsOf(s.table, p.source) == OffsetsOf(w.offsets, p.source)
    && Alike(s.objects, RecordsOfUnit(w.objects, site, p.source))
  }

  /** The objects after a poll with these plans, each line with the key of the plan that read it. */
  function Landed(p: LogPipe, ctx: Ship.PollContext, env: Ship.PollEnv, plans: seq<TailPlan>,
                  b: Bucket<Shipped>): Bucket<Shipped> {
    var records := RecordsOf(PiecesOf(p, env, plans));
    if records == [] || ctx.dryRun then b else Uploaded(b, LogKeyAt(p, ctx.runDt), records, env.outcome)
  }

  // ---- What a poll may ship again ----

  /** The keys planned by a poll that may have uploaded lines without moving past them. */
  function Unsettled(cfg: Ship.SourceConfig, ctx: Ship.PollContext, env: Ship.PollEnv, plans: seq<TailPlan>): set<Key> {
    if Ship.Collected(cfg, ctx, env, plans) == [] || ctx.dryRun || env.outcome.Invisible? then {}
    else if env.outcome.Confirmed? && env.commits then {}
    else Ship.PlannedKeys(plans)
  }

  /** The keys one poll disturbs: planned twice in it, uploaded without confirmation or commit, or swept. */
  function Disturbed(cfg: Ship.SourceConfig, ctx: Ship.PollContext, env: Ship.PollEnv, w: Ship.LogWorld): set<Key> {
    var plans := Ship.PlansOf(cfg, env, w.offsets);
    PlannedTwice(plans) + Unsettled(cfg, ctx, env, plans)
    + Dropped(w.offsets, Ship.ShipSpec(cfg, ctx, env, w).0.offsets, cfg.name)
  }

  lemma {:induction false} UploadAlike(p: LogPipe, site: Site, s: State, w: Ship.LogWorld, run: Instant,
                                       body: seq<Shipped>, records: seq<LogRecord>, o: Outcome)
    requires Shows(p, site, s, w) && Said(body) == Logged(records)
    ensures Alike(Uploaded(s.objects, LogKeyAt(p, run), body, o),
                  RecordsOfUnit(Uploaded(w.objects, LogsKey(p.prefix, p.source, run), LineItems(records), o), site,
                                p.source))
  {
    hide Put, Alike, LogsKey, RecordsOfUnit, LineItems, OffsetsOf;
    OwnRecordsUploaded(w.objects, site, p.source, run, records, o);
    PutAlike(s.objects, RecordsOfUnit(w.objects, site, p.source), LogKeyAt(p, run), body, records);
  }

  /** One call of `ship_source` with any upload outcome, a commit that may fail, a dry run or not, while producers
      append, rotate, create and remove files between any two looks or reads and other units use the same
      bucket and the same table: as long as the hypotheses on producers and file system hold, the call is a
      legal run of the machine, this source's records and objects end up where that run takes them, and the
      machine has each landed line under the key of the plan that read it. */
  lemma {:induction false} ShipRunsTheMachine(p: LogPipe, site: Site, s: State, cfg: Ship.SourceConfig,
                                              ctx: Ship.PollContext, env: Ship.PollEnv, w: Ship.LogWorld, gaps: Gaps)
    returns (steps: seq<Action>)
    requires Configured(p, cfg, ctx) && Shows(p, site, s, w) && s.phase.Idle? && s.lastSecond < ctx.runDt / SECOND
    requires PollHolds(p, env, OffsetsOf(w.offsets, p.source), gaps, FilesOf(s))
    ensures Legal(p, s, steps)
    ensures var t := Exec(p, s, steps);
      && t.phase.Idle? && t.lastSecond == ctx.runDt / SECOND
      && FilesOf(t) == AfterPoll(p, env, OffsetsOf(w.offsets, p.source), gaps, FilesOf(s))
      && Shows(p, site, t, Ship.ShipSpec(cfg, ctx, env, w).0)
      && t.repeats <= s.repeats + Disturbed(cfg, ctx, env, w)
      && t.objects == Landed(p, ctx, env, Ship.PlansOf(cfg, env, w.offsets), s.objects)
  {
    hide PlannedTwice, Unsettled, Dropped, Ship.ShipSpec, Landed;
    var snapshot := OffsetsOf(w.offsets, p.source);
    var plans := Ship.PlansOf(cfg, env, w.offsets);
    SamePlans(env, snapshot, Sorted(EntriesOf(env.matches, env.looks)));
    assert PlansFrom(env, snapshot, MatchesOf(env)) == plans;
    steps := GatherSteps(p, s, env, ctx.runDt, gaps);
    var more := FinishSteps(p, site, Exec(p, s, steps), cfg, ctx, env, w, plans);
    Join(p, s, steps, more);
    steps := steps + more;
  }

  /** From the last read on. */
  lemma {:induction false} FinishSteps(p: LogPipe, site: Site, s: State, cfg: Ship.SourceConfig, ctx: Ship.PollContext,
                                       env: Ship.PollEnv, w: Ship.LogWorld, plans: seq<TailPlan>)
    returns (steps: seq<Action>)
    requires Configured(p, cfg, ctx) && Shows(p, site, s, w) && plans == Ship.PlansOf(cfg, env, w.offsets)
    requires s.phase == Draining(ctx.runDt, [], 0, [], PiecesOf(p, env, plans))
    ensures Legal(p, s, steps)
    ensures var t := Exec(p, s, steps);
      && t.phase.Idle? && t.lastSecond == s.lastSecond && FilesOf(t) == FilesOf(s)
      && Shows(p, site, t, Ship.ShipSpec(cfg, ctx, env, w).0)
      && t.repeats <= s.repeats + Unsettled(cfg, ctx, env, plans)
                      + Dropped(w.offsets, Ship.ShipSpec(cfg, ctx, env, w).0.offsets, p.source)
      && t.objects == Landed(p, ctx, env, plans, s.objects)
  {
    hide Ship.PlansOf, Ship.Collected, PiecesOf, RecordsOf, LogsKey, Put, Alike, Ship.Committed, Said, Logged,
      LineItems, Upserted, EntriesFor, KeysOf, Legal, Exec, RecordsOfUnit, OffsetsOf, Uploaded;
    var records, pieces, o := Ship.Collected(cfg, ctx, env, plans), PiecesOf(p, env, plans), env.outcome;
    SameKeys(p, env, plans);
    SameLines(p, cfg, ctx, env, plans);
    SameEmptiness(RecordsOf(pieces), records);
    UploadAlike(p, site, s, w, ctx.runDt, RecordsOf(pieces), records, o);
    One(p, s, Finish);
    steps := [Finish];
    if records != [] {
      if ctx.dryRun {
        Then(p, s, steps, Abandon);
        steps := steps + [Abandon];
      } else {
        Then(p, s, steps, Upload(o));
        steps := steps + [Upload(o)];
        if o.Confirmed? && !env.commits {
          Then(p, s, steps, Abandon);
          steps := steps + [Abandon];
        } else if o.Confirmed? {
          var last := CommitSteps(p, Exec(p, s, steps), cfg, ctx, env, w.offsets, plans);
          Join(p, s, steps, last);
          steps := steps + last;
        }
      }
    }
  }
}
