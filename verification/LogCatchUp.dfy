/** A quiet poll catches up: afterwards every complete line of every matched file is in the bucket. */
module LogCatchUp {
  import opened Wrappers
  import opened Lines
  import opened Timestamps
  import opened Codec
  import opened Tailer
  import opened S3
  import opened StateDb
  import opened Sources
  import opened Discovery
  import opened LogMachine
  import opened LogSafety
  import opened LogSteps
  import opened LogRefinement
  import opened Items
  import opened Slices
  import Ship

  // ---- Where a drain ends ----

  lemma {:induction false} LastEndIsLast(enc: Encoding, content: Bytes)
    ensures var all := LastEnd(enc, content, |content|);
      && all <= |content| && Boundary(enc, content, all)
      && forall b: nat :: b <= |content| && Boundary(enc, content, b) ==> b <= all
  {
    hide LastEnd;
  }

  lemma {:induction false} ZeroIsBoundary(enc: Encoding, content: Bytes)
    ensures Boundary(enc, content, 0)
  {}

  /** After a drain that every line fits, nothing but blank lines is left before the last newline. */
  lemma {:induction false} DrainReachesEnd(content: Bytes, start: nat, enc: Encoding, max: nat)
    requires start <= |content| && Boundary(enc, content, start) && AllLinesFit(enc, content, 0, max)
    ensures var chunks, all := Drain([Some(content)], start, enc, max), LastEnd(enc, content, |content|);
      var end := EndOffset(chunks, start);
      && 0 <= end <= |content| && Span(enc, content, 0, end) == Span(enc, content, 0, all)
      && (ChunkLines(chunks) == [] ==> Span(enc, content, 0, start) == Span(enc, content, 0, all))
  {
    assert AllLinesFit(enc, content, start, max);
    hide AllLinesFit, Drain, Span, Tail, Boundary, LastEnd, EndOffset, ChunkLines;
    var all := LastEnd(enc, content, |content|);
    LastEndIsLast(enc, content);
    var end := EndOffset(Drain([Some(content)], start, enc, max), start);
    DrainIsExact(content, start, enc, max);
    DrainIsComplete(content, start, enc, max);
    ZeroIsBoundary(enc, content);
    SpanAppend(enc, content, start, end, all);
    SpanAppend(enc, content, 0, end, all);
    SpanAppend(enc, content, 0, start, all);
  }

  // ---- One poll of one file, of any size ----

  lemma {:induction false} PlanIsCollected(cfg: Ship.SourceConfig, ctx: Ship.PollContext, env: Ship.PollEnv,
                                           plans: seq<TailPlan>, q: TailPlan)
    requires q in plans
    ensures multiset(ChunkLines(Ship.ChunksOf(cfg, env, q))) <= multiset(Logged(Ship.Collected(cfg, ctx, env, plans)))
  {
    hide Ship.DrainRecords, Ship.ChunksOf, ChunkLines, Logged;
    var init, last := plans[..|plans| - 1], plans[|plans| - 1];
    var before, own := Ship.Collected(cfg, ctx, env, init),
                       Ship.DrainRecords(cfg, ctx, env.nameOf(last.path), Ship.ChunksOf(cfg, env, last));
    LoggedAppend(before, own);
    assert multiset(Logged(before) + Logged(own)) == multiset(Logged(before)) + multiset(Logged(own));
    if q == last {
      DrainSays(cfg, ctx, env.nameOf(q.path), Ship.ChunksOf(cfg, env, q));
    } else {
      assert q in init;
      PlanIsCollected(cfg, ctx, env, init, q);
    }
  }

  /** A matched regular file with this content, which stays put during the poll. */
  ghost predicate Holds(env: Ship.PollEnv, path: string, content: Bytes) {
    && path in env.matches && IsRegular(env.looks(path))
    && env.looks(path).head == HeadOf(content) && env.looks(path).size == Some(|content|)
    && env.files(path) == [Some(content)]
  }

  /** Fingerprinted or not, a file is read from its stored offset, or from 0 if there is none within it: if that is
      a line boundary and the lines from there on fit, the poll collects every complete one. */
  lemma {:induction false} PollCollectsFile(cfg: Ship.SourceConfig, ctx: Ship.PollContext, env: Ship.PollEnv,
                                            table: OffsetTable, path: string, content: Bytes)
    requires cfg.maxBytes >= 0 && Holds(env, path, content)
    requires var start := StartOfFile(path, content, OffsetsOf(table, cfg.name));
      0 <= start && Boundary(cfg.enc, content, start) && AllLinesFit(cfg.enc, content, start, cfg.maxBytes)
    ensures var start := StartOfFile(path, content, OffsetsOf(table, cfg.name));
      var all := LastEnd(cfg.enc, content, |content|);
      && start <= all
      && multiset(Span(cfg.enc, content, start, all))
         <= multiset(Logged(Ship.Collected(cfg, ctx, env, Ship.PlansOf(cfg, env, table))))
  {
    hide AllLinesFit, Span, LastEnd, Boundary, Drain, Ship.Collected, Logged, ChunkLines, OffsetsOf, HeadOf, PlanFor;
    var offsets := OffsetsOf(table, cfg.name);
    SameLook(path, env.looks(path), content, offsets);
    var q := PlanFor(path, env.looks(path), offsets).value;
    MatchIsPlanned(env.matches, env.looks, offsets, path);
    DrainIsComplete(content, q.start, cfg.enc, cfg.maxBytes);
    PlanIsCollected(cfg, ctx, env, Ship.PlansOf(cfg, env, table), q);
  }

  lemma {:induction false} SameLook(path: string, look: Look, content: Bytes, offsets: Offsets)
    requires look.head == HeadOf(content) && look.size == Some(|content|)
    ensures var plan := PlanFor(path, look, offsets);
      plan.Some? && plan.value.path == path && plan.value.start == StartOfFile(path, content, offsets)
  {
    PathIsPlannedIff(path, look, offsets);
  }

  /** A file that has become shorter than its stored offset, truncated or replaced, is read again from its
      beginning: the next poll during which it stays put collects all its complete lines, if they fit. */
  lemma {:induction false} ShorterFileIsReadAgain(cfg: Ship.SourceConfig, ctx: Ship.PollContext, env: Ship.PollEnv,
                                                  table: OffsetTable, path: string, content: Bytes)
    requires cfg.maxBytes >= 0 && Holds(env, path, content) && AllLinesFit(cfg.enc, content, 0, cfg.maxBytes)
    requires (cfg.name, KeyOfFile(path, content)) in table
    requires |content| < table[(cfg.name, KeyOfFile(path, content))].offset
    ensures var all := LastEnd(cfg.enc, content, |content|);
      multiset(Span(cfg.enc, content, 0, all))
      <= multiset(Logged(Ship.Collected(cfg, ctx, env, Ship.PlansOf(cfg, env, table))))
  {
    hide AllLinesFit, Span, LastEnd, Boundary, Ship.Collected, Logged, Ship.PlansOf, HeadOf, KeyOfFile;
    ZeroIsBoundary(cfg.enc, content);
    PollCollectsFile(cfg, ctx, env, table, path, content);
  }

  // ---- The file system stands still ----

  /** The file system answers truthfully and stays put during the poll. */
  ghost predicate Still(s: State, env: Ship.PollEnv) {
    forall path: string ::
      && env.files(path) == [ContentAt(FilesOf(s), path)]
      && match ContentAt(FilesOf(s), path)
         case None => env.looks(path) == Look(None, Gone, None)
         case Some(content) =>
           && env.looks(path).stat.Some? && env.looks(path).stat.value.regular
           && env.looks(path).head == HeadOf(content) && env.looks(path).size == Some(|content|)
  }

  function NoGaps(): Gaps {
    k => []
  }

  lemma {:induction false} StillAt(s: State, env: Ship.PollEnv, path: string)
    requires Still(s, env)
    ensures env.files(path) == [ContentAt(FilesOf(s), path)] && Truthful(FilesOf(s), env, path)
  {
    assert env.files(path) == [ContentAt(FilesOf(s), path)];
  }

  lemma {:induction false} StillLooks(s: State, env: Ship.PollEnv, snapshot: Offsets, k: nat, todo: seq<string>,
                                      plans: seq<TailPlan>)
    requires Still(s, env)
    ensures LooksHold(env, snapshot, NoGaps(), k, FilesOf(s), todo, plans)
    ensures AfterGaps(NoGaps(), k, |todo|, FilesOf(s)) == FilesOf(s)
    decreases |todo|
  {
    hide Still, Truthful, PlanOf, FilesOf;
    if todo != [] {
      StillAt(s, env, todo[0]);
      StillLooks(s, env, snapshot, k + 1, todo[1..], plans + PlanOf(env, snapshot, todo[0]));
    }
  }

  lemma {:induction false} StillReads(p: LogPipe, s: State, env: Ship.PollEnv, k: nat, plans: seq<TailPlan>,
                                      views: seq<Option<Bytes>>, offset: int)
    requires Still(s, env) && (plans != [] ==> views == env.files(plans[0].path))
    ensures ReadsHold(p, env, NoGaps(), k, FilesOf(s), plans, views, offset)
    ensures AfterReads(p, env, NoGaps(), k, FilesOf(s), plans, views, offset) == FilesOf(s)
    decreases |plans|, |views|, Remaining(Now(views), offset)
  {
    hide Still, Tail, ContentAt, FilesOf;
    if plans != [] {
      StillAt(s, env, plans[0].path);
      if Tail(Now(views), offset, p.enc, p.max).lines == [] {
        StillReads(p, s, env, k + 1, plans[1..], FrontViews(env, plans[1..]), StartOfFront(plans[1..]));
      } else {
        LinesMeanProgress(Now(views), offset, p.enc, p.max);
        StillReads(p, s, env, k + 1, plans, Later(views), Tail(Now(views), offset, p.enc, p.max).newOffset);
      }
    }
  }

  /** A poll nobody interferes with satisfies every hypothesis. */
  lemma {:induction false} StillHolds(p: LogPipe, s: State, env: Ship.PollEnv, snapshot: Offsets)
    requires Still(s, env)
    ensures PollHolds(p, env, snapshot, NoGaps(), FilesOf(s))
    ensures AfterPoll(p, env, snapshot, NoGaps(), FilesOf(s)) == FilesOf(s)
  {
    hide Still, LooksHold, ReadsHold, AfterGaps, AfterReads, MatchesOf, PlansFrom;
    var todo := MatchesOf(env);
    var plans := PlansFrom(env, snapshot, todo);
    StillLooks(s, env, snapshot, 0, todo, []);
    StillReads(p, s, env, |todo|, plans, FrontViews(env, plans), StartOfFront(plans));
  }

  // ---- One file ----

  /** The plan of a matched, fingerprintable file. */
  ghost predicate PlannedAt(s: State, offsets: Offsets, q: TailPlan, path: string) {
    var file := ContentAt(FilesOf(s), path);
    && file.Some? && |file.value| >= FP_PREFIX
    && q == TailPlan(path, Some(file.value[..FP_PREFIX]), StartFor(file.value, offsets))
  }

  lemma {:induction false} PlannedFile(s: State, cfg: Ship.SourceConfig, env: Ship.PollEnv, table: OffsetTable,
                                       path: string)
    returns (q: TailPlan)
    requires Still(s, env) && path in env.matches
    requires ContentAt(FilesOf(s), path).Some? && |ContentAt(FilesOf(s), path).value| >= FP_PREFIX
    ensures q in Ship.PlansOf(cfg, env, table) && PlannedAt(s, OffsetsOf(table, cfg.name), q, path)
  {
    var offsets := OffsetsOf(table, cfg.name);
    assert env.files(path) == [ContentAt(FilesOf(s), path)];
    q := PlanFor(path, env.looks(path), offsets).value;
    MatchIsPlanned(env.matches, env.looks, offsets, path);
  }

  /** Plans with the key of a file are plans of that content. */
  lemma {:induction false} SameKeySamePlan(s: State, cfg: Ship.SourceConfig, env: Ship.PollEnv, table: OffsetTable,
                                           path: string, q: TailPlan, r: TailPlan)
    requires Still(s, env) && DistinctHeads(s.files)
    requires PlannedAt(s, OffsetsOf(table, cfg.name), q, path)
    requires r in Ship.PlansOf(cfg, env, table) && KeyOf(r) == KeyOf(q)
    ensures r.start == q.start && ContentAt(FilesOf(s), r.path) == ContentAt(FilesOf(s), path)
  {
    PlansAreOfPaths(Sorted(EntriesOf(env.matches, env.looks)), env.looks, OffsetsOf(table, cfg.name), r);
    assert env.files(r.path) == [ContentAt(FilesOf(s), r.path)];
    var x := q.fingerprint.value;
    assert HasHead(ContentAt(FilesOf(s), path).value, x) && HasHead(ContentAt(FilesOf(s), r.path).value, x);
    HeadIsUnique(s.files, s.dir[path], s.dir[r.path], x);
  }

  /** Lines before the resume offset of a fingerprintable file count as delivered. */
  lemma {:induction false} ResumeIsSafe(p: LogPipe, s: State, path: string, k: Key)
    requires Inv(p, s) && ContentAt(FilesOf(s), path).Some? && |ContentAt(FilesOf(s), path).value| >= FP_PREFIX
    requires k == Fingerprint(ContentAt(FilesOf(s), path).value[..FP_PREFIX])
    ensures Delivered(p.enc, ContentAt(FilesOf(s), path).value, ResumeIn(OffsetsOf(s.table, p.source), k),
                      DeliveredFor(s, k))
  {
    hide LinesFor, Contents, Span, LogKeysUpTo, Boundary;
    var content := ContentAt(FilesOf(s), path).value;
    var x := content[..FP_PREFIX];
    assert HasHead(content, x);
    assert Anchored(s.files, x);
    if (p.source, k) in s.table {
      assert SafeAt(p, s, x, s.table[(p.source, k)].offset);
    } else {
      ZeroIsSafe(p.enc, s.files, x, DeliveredFor(s, k));
    }
    assert Safe(p.enc, s.files, x, ResumeAt(p, s, k), DeliveredFor(s, k));
  }

  /** The plan starts there: stored offsets never exceed the file. */
  lemma {:induction false} StartIsSafe(p: LogPipe, s: State, q: TailPlan, path: string)
    requires Inv(p, s) && PlannedAt(s, OffsetsOf(s.table, p.source), q, path)
    ensures q.start == ResumeIn(OffsetsOf(s.table, p.source), KeyOf(q))
    ensures Delivered(p.enc, ContentAt(FilesOf(s), path).value, q.start, DeliveredFor(s, KeyOf(q)))
  {
    hide Inv, LinesFor, Contents, Span;
    ResumeIsSafe(p, s, path, KeyOf(q));
  }

  lemma {:induction false} CaughtUpOffsets(cfg: Ship.SourceConfig, ctx: Ship.PollContext, env: Ship.PollEnv,
                                           w: Ship.LogWorld)
    requires CaughtUp(ctx, Ship.ShipSpec(cfg, ctx, env, w).1)
    ensures var plans := Ship.PlansOf(cfg, env, w.offsets);
      Ship.ShipSpec(cfg, ctx, env, w).0.offsets
      == if Ship.Collected(cfg, ctx, env, plans) == [] then w.offsets
         else Ship.Committed(cfg, ctx, env, w.offsets, plans)
  {
    hide Ship.Collected, Ship.Committed, Ship.PlansOf, LogsKey, Uploaded, LineItems;
  }

  /** What a poll that read everything and committed, or found nothing, leaves as the resume offset. */
  lemma {:induction false} PollReachesEnd(p: LogPipe, s: State, cfg: Ship.SourceConfig, ctx: Ship.PollContext,
                                          env: Ship.PollEnv, w: Ship.LogWorld, path: string, q: TailPlan)
    requires Configured(p, cfg, ctx) && Still(s, env) && Inv(p, s)
    requires OffsetsOf(s.table, p.source) == OffsetsOf(w.offsets, p.source)
    requires PlannedAt(s, OffsetsOf(w.offsets, p.source), q, path) && q in Ship.PlansOf(cfg, env, w.offsets)
    requires p.max >= 0 && AllLinesFit(p.enc, ContentAt(FilesOf(s), path).value, 0, p.max)
    requires CaughtUp(ctx, Ship.ShipSpec(cfg, ctx, env, w).1)
    ensures var content, table := ContentAt(FilesOf(s), path).value, Ship.ShipSpec(cfg, ctx, env, w).0.offsets;
      var o := ResumeIn(OffsetsOf(table, p.source), KeyOf(q));
      0 <= o <= |content| && Span(p.enc, content, 0, o) == Span(p.enc, content, 0, LastEnd(p.enc, content, |content|))
  {
    hide AllLinesFit, Drain, Span, LastEnd, Ship.Collected, Ship.Committed, Ship.PlansOf, LogsKey, Put, LinesFor,
      Contents, Boundary, Still, LineItems;
    var content := ContentAt(FilesOf(s), path).value;
    var plans := Ship.PlansOf(cfg, env, w.offsets);
    StartIsSafe(p, s, q, path);
    DrainReachesEnd(content, q.start, p.enc, p.max);
    StillAt(s, env, path);
    CaughtUpOffsets(cfg, ctx, env, w);
    if Ship.Collected(cfg, ctx, env, plans) == [] {
      NothingCollected(cfg, ctx, env, plans, q);
    } else {
      Ship.PlannedKeysStay(cfg, ctx, env, w.offsets, plans, q);
      var r :| r in plans && KeyOf(r) == KeyOf(q)
               && Ship.Committed(cfg, ctx, env, w.offsets, plans)[(cfg.name, KeyOf(q))].offset
                  == Ship.ReachedBy(cfg, env, r).offset;
      SameKeySamePlan(s, cfg, env, w.offsets, path, q, r);
      StillAt(s, env, r.path);
    }
  }

  lemma {:induction false} NothingCollected(cfg: Ship.SourceConfig, ctx: Ship.PollContext, env: Ship.PollEnv,
                                            plans: seq<TailPlan>, q: TailPlan)
    requires Ship.Collected(cfg, ctx, env, plans) == [] && q in plans
    ensures ChunkLines(Ship.ChunksOf(cfg, env, q)) == []
  {
    hide Drain, Ship.DrainRecords;
    var init, last := plans[..|plans| - 1], plans[|plans| - 1];
    if q == last {
      DrainSays(cfg, ctx, env.nameOf(q.path), Ship.ChunksOf(cfg, env, q));
    } else {
      assert q in init;
      NothingCollected(cfg, ctx, env, init, q);
    }
  }

  // ---- Main result ----

  /** The call returned "ok" outside a dry run, or "empty". */
  predicate CaughtUp(ctx: Ship.PollContext, r: Result<UnitResult>) {
    r.Ok? && (r.value.status.StatusEmpty? || (r.value.status.StatusOk? && !ctx.dryRun))
  }

  /** Lines delivered under one key are in the bucket. */
  lemma {:induction false} LinesForSaid(records: seq<Shipped>, k: Key)
    ensures multiset(LinesFor(records, k)) <= multiset(Said(records))
  {
    if records != [] {
      var init, r := records[..|records| - 1], records[|records| - 1];
      LinesForSaid(init, k);
      assert Said(records) == Said(init) + [r.line];
    }
  }

  /** The lines under several keys, one key after the other. */
  function LinesForAll(records: seq<Shipped>, keys: seq<Key>): seq<Text> {
    if keys == [] then []
    else LinesForAll(records, keys[..|keys| - 1]) + LinesFor(records, keys[|keys| - 1])
  }

  /** One more record is under at most one of the keys. */
  lemma {:induction false} OneMoreForAll(records: seq<Shipped>, keys: seq<Key>)
    requires records != [] && forall i, j :: 0 <= i < j < |keys| ==> keys[i] != keys[j]
    ensures var init, r := records[..|records| - 1], records[|records| - 1];
      multiset(LinesForAll(records, keys))
      == multiset(LinesForAll(init, keys)) + (if r.key in keys then multiset{r.line} else multiset{})
  {
    hide LinesFor;
    if keys != [] {
      var init, before, k := records[..|records| - 1], keys[..|keys| - 1], keys[|keys| - 1];
      assert forall i :: 0 <= i < |before| ==> before[i] == keys[i];
      assert keys == before + [k] && k !in before;
      OneMoreForAll(records, before);
      OneMoreFor(records, k);
      OneMoreKey(records, keys);
      OneMoreKey(init, keys);
      hide LinesForAll;
    }
  }

  lemma {:induction false} OneMoreKey(records: seq<Shipped>, keys: seq<Key>)
    requires keys != []
    ensures multiset(LinesForAll(records, keys))
         == multiset(LinesForAll(records, keys[..|keys| - 1])) + multiset(LinesFor(records, keys[|keys| - 1]))
  {
    hide LinesFor;
  }

  lemma {:induction false} OneMoreFor(records: seq<Shipped>, k: Key)
    requires records != []
    ensures var init, r := records[..|records| - 1], records[|records| - 1];
      multiset(LinesFor(records, k))
      == multiset(LinesFor(init, k)) + (if r.key == k then multiset{r.line} else multiset{})
  {}

  /** Lines under different keys are different records. */
  lemma {:induction false} LinesForAllSaid(records: seq<Shipped>, keys: seq<Key>)
    requires forall i, j :: 0 <= i < j < |keys| ==> keys[i] != keys[j]
    ensures multiset(LinesForAll(records, keys)) <= multiset(Said(records))
  {
    hide LinesForAll;
    if records == [] {
      NothingForAll(keys);
    } else {
      var init, r := records[..|records| - 1], records[|records| - 1];
      LinesForAllSaid(init, keys);
      OneMoreForAll(records, keys);
      assert Said(records) == Said(init) + [r.line];
    }
  }

  lemma {:induction false} NothingForAll(keys: seq<Key>)
    ensures LinesForAll([], keys) == []
  {
    if keys != [] {
      NothingForAll(keys[..|keys| - 1]);
    }
  }

  lemma {:induction false} ContentsAlike(b: Bucket<Shipped>, c: Bucket<LogRecord>)
    requires Alike(b, c)
    ensures Said(Contents(b)) == Logged(Contents(c))
  {
    hide Said, Logged;
    if b == [] {
      SaidNothing();
    } else {
      var n := |b| - 1;
      assert Alike(b[..n], c[..n]);
      ContentsAlike(b[..n], c[..n]);
      SaidAppend(Contents(b[..n]), b[n].body);
      LoggedAppend(Contents(c[..n]), c[n].body);
    }
  }

  lemma {:induction false} SaidNothing()
    ensures Said([]) == [] && Logged([]) == []
  {}

  /** What the machine delivered under a key is among the source's records in the shared bucket. */
  lemma {:induction false} DeliveredIsLogged(p: LogPipe, site: Site, s: State, w: Ship.LogWorld, k: Key)
    requires Shows(p, site, s, w)
    ensures multiset(DeliveredFor(s, k)) <= multiset(Logged(Contents(RecordsOfUnit(w.objects, site, p.source))))
  {
    hide LinesFor, Contents, Said, Logged, Alike, RecordsOfUnit;
    LinesForSaid(Contents(s.objects), k);
    ContentsAlike(s.objects, RecordsOfUnit(w.objects, site, p.source));
  }

  /** So is, all at once, what it delivered under several keys. */
  lemma {:induction false} AllDeliveredIsLogged(p: LogPipe, site: Site, s: State, w: Ship.LogWorld, keys: seq<Key>)
    requires Shows(p, site, s, w) && forall i, j :: 0 <= i < j < |keys| ==> keys[i] != keys[j]
    ensures multiset(LinesForAll(Contents(s.objects), keys))
         <= multiset(Logged(Contents(RecordsOfUnit(w.objects, site, p.source))))
  {
    hide LinesForAll, Contents, Said, Logged, Alike, RecordsOfUnit;
    LinesForAllSaid(Contents(s.objects), keys);
    ContentsAlike(s.objects, RecordsOfUnit(w.objects, site, p.source));
  }

  /** From any reachable state, whatever failed before, on a bucket and a table other units use too: one poll
      during which the files stay put, and whose call reports success or nothing to do, leaves every complete
      non-blank line of every matched, fingerprintable file among the source's records, as often as the file
      holds it. */
  lemma {:induction false} QuietPollShipsEverything(p: LogPipe, site: Site, s: State, cfg: Ship.SourceConfig,
                                                    ctx: Ship.PollContext, env: Ship.PollEnv, w: Ship.LogWorld,
                                                    path: string)
    requires Configured(p, cfg, ctx) && Shows(p, site, s, w) && Inv(p, s) && Still(s, env)
    requires s.phase.Idle? && s.lastSecond < ctx.runDt / SECOND
    requires path in env.matches
    requires ContentAt(FilesOf(s), path).Some? && |ContentAt(FilesOf(s), path).value| >= FP_PREFIX
    requires p.max >= 0 && AllLinesFit(p.enc, ContentAt(FilesOf(s), path).value, 0, p.max)
    requires CaughtUp(ctx, Ship.ShipSpec(cfg, ctx, env, w).1)
    ensures var content := ContentAt(FilesOf(s), path).value;
      multiset(Span(p.enc, content, 0, LastEnd(p.enc, content, |content|)))
      <= multiset(Logged(Contents(RecordsOfUnit(Ship.ShipSpec(cfg, ctx, env, w).0.objects, site, p.source))))
  {
    hide AllLinesFit, Span, LastEnd, LinesFor, Contents, Still, Ship.ShipSpec, Alike, Said, Logged, Ship.PlansOf, Legal,
      Exec, LogKeysUpTo, PollHolds, AfterPoll, RecordsOfUnit;
    var q := PlannedFile(s, cfg, env, w.offsets, path);
    PollReachesEnd(p, s, cfg, ctx, env, w, path, q);
    StillHolds(p, s, env, OffsetsOf(w.offsets, p.source));
    var steps := ShipRunsTheMachine(p, site, s, cfg, ctx, env, w, NoGaps());
    RunsKeep(p, s, steps);
    var t := Exec(p, s, steps);
    SameFile(s, t, path);
    ResumeIsSafe(p, t, path, KeyOf(q));
    DeliveredIsLogged(p, site, t, Ship.ShipSpec(cfg, ctx, env, w).0, KeyOf(q));
  }

  lemma {:induction false} SameFile(s: State, t: State, path: string)
    requires FilesOf(t) == FilesOf(s)
    ensures ContentAt(FilesOf(t), path) == ContentAt(FilesOf(s), path)
  {}
}
