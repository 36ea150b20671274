/** The extraction code runs the step machine: one call of `extract_collection`, on a bucket shared with other
    units and with other clients writing all the while, is one legal sequence of machine steps, so every theorem
    about the machine applies to it. */
module Refinement {
  import opened Wrappers
  import opened ObjectIds
  import opened Timestamps
  import opened Watermarks
  import opened Landing
  import opened Items
  import opened S3
  import opened Slices
  import opened MongoMachine
  import opened MongoSafety
  import opened Extract

  // ---- Runs of steps ----

  lemma {:induction false} LegalAppend(p: Pipe, s: State, a: seq<Action>, b: seq<Action>)
    requires Legal(p, s, a) && Legal(p, Exec(p, s, a), b)
    ensures Legal(p, s, a + b) && Exec(p, s, a + b) == Exec(p, Exec(p, s, a), b)
    decreases |a|
  {
    hide Enabled, Apply;
    if a == [] {
      assert a + b == b;
    } else {
      assert (a + b)[1..] == a[1..] + b;
      LegalAppend(p, Apply(p, s, a[0]), a[1..], b);
    }
  }

  lemma {:induction false} OneStep(p: Pipe, s: State, a: Action)
    requires Enabled(p, s, a)
    ensures Legal(p, s, [a]) && Exec(p, s, [a]) == Apply(p, s, a)
  {
    hide Enabled, Apply;
    assert [a][1..] == [];
  }

  /** What other clients and the cursor do; the agent's own steps are not their choice. */
  predicate Theirs(a: Action) {
    a.Write? || a.Fetch? || a.EndScan?
  }

  /** Wherever others act in these steps, the hypotheses on them hold. Nothing is asked of the agent's steps. */
  ghost predicate Granted(p: Pipe, s: State, steps: seq<Action>)
    decreases |steps|
  {
    steps == [] ||
    ((Theirs(steps[0]) ==> Enabled(p, s, steps[0]))
     && (Enabled(p, s, steps[0]) ==> Granted(p, Apply(p, s, steps[0]), steps[1..])))
  }

  lemma {:induction false} GrantedStep(p: Pipe, s: State, a: Action, rest: seq<Action>)
    requires Granted(p, s, [a] + rest) && (Theirs(a) || Enabled(p, s, a))
    ensures Enabled(p, s, a) && Granted(p, Apply(p, s, a), rest)
  {
    assert ([a] + rest)[1..] == rest;
  }

  // ---- What others may do meanwhile ----

  /** Writes and cursor returns while the scan runs, and writes after it, after the upload, after the commit. */
  datatype Others = Others(scan: seq<Action>, afterScan: seq<Doc>, afterUpload: seq<Doc>, afterCommit: seq<Doc>)

  predicate ScanOnly(steps: seq<Action>) {
    forall i :: 0 <= i < |steps| ==> steps[i].Write? || steps[i].Fetch?
  }

  /** The versions the cursor returns, in order. */
  function DocsRead(coll: map<ObjectId, Doc>, steps: seq<Action>): seq<Doc>
    decreases |steps|
  {
    if steps == [] then []
    else match steps[0]
      case Write(d) => DocsRead(coll[d.id := d], steps[1..])
      case Fetch(id) => (if id in coll then [coll[id]] else []) + DocsRead(coll, steps[1..])
      case _ => DocsRead(coll, steps[1..])
  }

  /** Same run, same documents read; other clients may have written. */
  ghost predicate SamePhase(a: Phase, b: Phase) {
    match a
    case Idle => b.Idle?
    case Scanning(run, f, found, _, docs) =>
      b.Scanning? && b.run == run && b.filter == f && b.found == found && b.docs == docs
    case Spooled(run, _, docs) => b.Spooled? && b.run == run && b.docs == docs
    case Stored(run, _, docs) => b.Stored? && b.run == run && b.docs == docs
    case Committed(run, _) => b.Committed? && b.run == run
  }

  /** Everything the agent owns is as it was. */
  ghost predicate SameAgent(s: State, t: State) {
    t.wm == s.wm && t.objects == s.objects && t.lastSecond == s.lastSecond && SamePhase(s.phase, t.phase)
  }

  lemma {:induction false} WritesRun(p: Pipe, s: State, docs: seq<Doc>, rest: seq<Action>) returns (t: State)
    requires Granted(p, s, Writes(docs) + rest)
    ensures Legal(p, s, Writes(docs)) && t == Exec(p, s, Writes(docs))
    ensures SameAgent(s, t) && Granted(p, t, rest)
    decreases |docs|
  {
    hide LegalWrite, InTime, NewMark;
    if docs == [] {
      assert Writes(docs) + rest == rest;
      t := s;
    } else {
      var more := Writes(docs[1..]) + rest;
      assert Writes(docs) + rest == [Write(docs[0])] + more;
      GrantedStep(p, s, Write(docs[0]), more);
      var s1 := Apply(p, s, Write(docs[0]));
      t := WritesRun(p, s1, docs[1..], rest);
      OneStep(p, s, Write(docs[0]));
      LegalAppend(p, s, [Write(docs[0])], Writes(docs[1..]));
    }
  }

  /** A scan among writers: the cursor's documents are observed and appended, nothing else moves. */
  lemma {:induction false} ScanRuns(p: Pipe, s: State, scan: seq<Action>, rest: seq<Action>) returns (t: State)
    requires s.phase.Scanning? && ScanOnly(scan) && Granted(p, s, scan + rest)
    ensures Legal(p, s, scan) && t == Exec(p, s, scan) && Granted(p, t, rest)
    ensures t.wm == s.wm && t.objects == s.objects && t.lastSecond == s.lastSecond
    ensures t.phase.Scanning? && t.phase.run == s.phase.run && t.phase.docs == s.phase.docs + DocsRead(s.coll, scan)
    decreases |scan|
  {
    hide LegalWrite, InTime, NewMark, Matches, Legal, Exec, Granted;
    NoSteps(p, s);
    if scan == [] {
      assert scan + rest == rest;
      t := s;
    } else {
      var a, more := scan[0], scan[1..];
      assert scan + rest == [a] + (more + rest);
      assert forall i :: 0 <= i < |more| ==> more[i] == scan[i + 1];
      GrantedStep(p, s, a, more + rest);
      var s1 := Apply(p, s, a);
      t := ScanRuns(p, s1, more, rest);
      OneStep(p, s, a);
      LegalAppend(p, s, [a], more);
      assert [a] + more == scan;
      if a.Fetch? {
        Assoc(s.phase.docs, [s.coll[a.id]], DocsRead(s.coll, more));
      }
    }
  }

  // ---- The steps of one call ----

  function CommitSteps(cfg: Config, env: Env, docs: seq<Doc>, o: Others): seq<Action> {
    if NewWatermark(cfg.mode, ObservedAll(cfg.mode, NOTHING, docs)).Some? && !env.commits then [Abandon]
    else [Commit] + (Writes(o.afterCommit) + [CleanUp])
  }

  function UploadSteps(cfg: Config, env: Env, docs: seq<Doc>, o: Others): seq<Action> {
    var rest := if env.outcome.Confirmed? then CommitSteps(cfg, env, docs, o) else [];
    [Upload(env.outcome)] + (Writes(o.afterUpload) + rest)
  }

  /** From the end of the scan on. */
  function Ending(cfg: Config, dryRun: bool, env: Env, docs: seq<Doc>, o: Others): seq<Action> {
    if docs == [] then [EndScan]
    else [EndScan] + (Writes(o.afterScan) + (if dryRun then [Abandon] else UploadSteps(cfg, env, docs, o)))
  }

  function StepsOf(cfg: Config, ctx: RunContext, env: Env, served: Served, o: Others): seq<Action> {
    [Begin(ctx.runDt)] + (o.scan + (if served.broken then [Abandon] else Ending(cfg, ctx.dryRun, env, served.docs, o)))
  }

  function SiteOf(p: Pipe): Site {
    Site(p.prefix, p.db)
  }

  ghost predicate Fits(p: Pipe, ctx: RunContext) {
    p.prefix == NormalPrefix(ctx.prefix) && p.db == ctx.db
  }

  /** The machine's watermark and objects are this collection's part of the deployed state. */
  ghost predicate Shows(p: Pipe, s: State, w: World) {
    && Lookup(w, Namespace(p.db, p.cfg.name)) == s.wm
    && RowsOfUnit(w.objects, SiteOf(p), p.cfg.name) == s.objects
  }

  // ---- Effects ----

  lemma {:induction false} UploadShows(p: Pipe, s: State, ctx: RunContext, w: World, rows: seq<Row>, o: Outcome)
    requires Fits(p, ctx) && Shows(p, s, w)
    ensures var objects := Uploaded(w.objects, MongoKey(NormalPrefix(ctx.prefix), ctx.db, p.cfg.name, ctx.runDt),
                                    RowItems(rows), o);
      RowsOfUnit(objects, SiteOf(p), p.cfg.name) == Uploaded(s.objects, KeyAt(p, ctx.runDt), rows, o)
  {
    hide MongoKey, RowsOfUnit, Uploaded, RowItems, Namespace;
    OwnRowsUploaded(w.objects, SiteOf(p), p.cfg.name, ctx.runDt, rows, o);
  }

  /** What one call of a run that reads `docs` leaves, as the machine sees it. */
  ghost function Left(p: Pipe, s: State, ctx: RunContext, env: Env, docs: seq<Doc>): (Option<Watermark>, Bucket<Row>) {
    if docs == [] || ctx.dryRun then (s.wm, s.objects)
    else
      var objects := Uploaded(s.objects, KeyAt(p, ctx.runDt), RowsOf(p.cfg.mode, ctx.runDt, docs), env.outcome);
      var mark := NewMark(p, docs);
      (if env.outcome.Confirmed? && mark.Some? && env.commits then Some(Watermark(Kind(p.cfg.mode), mark.value))
       else s.wm,
       objects)
  }

  /** The two effects of a shipping call, one by one. */
  lemma {:induction false} ShippedParts(cfg: Config, ctx: RunContext, env: Env, w: World, docs: seq<Doc>)
    ensures var w' := Shipped(cfg, ctx, env, w, docs).0;
      var mark := NewWatermark(cfg.mode, ObservedAll(cfg.mode, NOTHING, docs));
      && w'.objects == Uploaded(w.objects, MongoKey(NormalPrefix(ctx.prefix), ctx.db, cfg.name, ctx.runDt),
                                RowItems(RowsOf(cfg.mode, ctx.runDt, docs)), env.outcome)
      && Lookup(w', Namespace(ctx.db, cfg.name))
         == if env.outcome.Confirmed? && mark.Some? && env.commits then Some(Watermark(Kind(cfg.mode), mark.value))
            else Lookup(w, Namespace(ctx.db, cfg.name))
  {
    hide MongoKey, NormalPrefix, Uploaded, RowItems, RowsOf, ObservedAll, NewWatermark, Namespace;
  }

  lemma {:induction false} ShippedIsLeft(p: Pipe, s: State, ctx: RunContext, env: Env, w: World, docs: seq<Doc>)
    requires Fits(p, ctx) && Shows(p, s, w)
    ensures var w' := if docs == [] || ctx.dryRun then w else Shipped(p.cfg, ctx, env, w, docs).0;
      var (wm, objects) := Left(p, s, ctx, env, docs);
      Lookup(w', Namespace(p.db, p.cfg.name)) == wm && RowsOfUnit(w'.objects, SiteOf(p), p.cfg.name) == objects
  {
    hide Shipped, MongoKey, RowsOfUnit, Uploaded, RowItems, Namespace, RowsOf, KeyAt, ObservedAll, NewWatermark, SiteOf,
      Lookup, NormalPrefix;
    UploadShows(p, s, ctx, w, RowsOf(p.cfg.mode, ctx.runDt, docs), env.outcome);
    ShippedParts(p.cfg, ctx, env, w, docs);
  }

  lemma {:induction false} CommitRuns(p: Pipe, s: State, ctx: RunContext, env: Env, docs: seq<Doc>, o: Others)
    returns (t: State)
    requires s.phase.Stored? && s.phase.run == ctx.runDt && s.phase.docs == docs && env.outcome.Confirmed?
    requires Granted(p, s, CommitSteps(p.cfg, env, docs, o))
    ensures Legal(p, s, CommitSteps(p.cfg, env, docs, o)) && t == Exec(p, s, CommitSteps(p.cfg, env, docs, o))
    ensures t.phase.Idle? && t.lastSecond == s.lastSecond && t.objects == s.objects
    ensures t.wm == if NewMark(p, docs).Some? && env.commits
                    then Some(Watermark(Kind(p.cfg.mode), NewMark(p, docs).value))
                    else s.wm
  {
    hide NewWatermark, ObservedAll, Legal, Exec, Granted;
    if NewMark(p, docs).Some? && !env.commits {
      OneStep(p, s, Abandon);
      t := Apply(p, s, Abandon);
    } else {
      var more := Writes(o.afterCommit) + [CleanUp];
      GrantedStep(p, s, Commit, more);
      var s1 := Apply(p, s, Commit);
      var s2 := WritesRun(p, s1, o.afterCommit, [CleanUp]);
      OneStep(p, s2, CleanUp);
      LegalAppend(p, s1, Writes(o.afterCommit), [CleanUp]);
      OneStep(p, s, Commit);
      LegalAppend(p, s, [Commit], more);
      t := Apply(p, s2, CleanUp);
    }
  }

  lemma {:induction false} UploadRuns(p: Pipe, s: State, ctx: RunContext, env: Env, docs: seq<Doc>, o: Others)
    returns (t: State)
    requires s.phase.Spooled? && s.phase.run == ctx.runDt && s.phase.docs == docs
    requires Granted(p, s, UploadSteps(p.cfg, env, docs, o))
    ensures Legal(p, s, UploadSteps(p.cfg, env, docs, o)) && t == Exec(p, s, UploadSteps(p.cfg, env, docs, o))
    ensures t.phase.Idle? && t.lastSecond == s.lastSecond
    ensures t.objects == Uploaded(s.objects, KeyAt(p, ctx.runDt), RowsOf(p.cfg.mode, ctx.runDt, docs), env.outcome)
    ensures t.wm == if env.outcome.Confirmed? && NewMark(p, docs).Some? && env.commits
                    then Some(Watermark(Kind(p.cfg.mode), NewMark(p, docs).value)) else s.wm
  {
    hide NewMark, Legal, Exec, Granted, KeyAt, RowsOf, Uploaded, CommitSteps;
    var up := Upload(env.outcome);
    var rest := if env.outcome.Confirmed? then CommitSteps(p.cfg, env, docs, o) else [];
    GrantedStep(p, s, up, Writes(o.afterUpload) + rest);
    OneStep(p, s, up);
    var s1 := Apply(p, s, up);
    var s2 := WritesRun(p, s1, o.afterUpload, rest);
    if env.outcome.Confirmed? {
      t := CommitRuns(p, s2, ctx, env, docs, o);
    } else {
      t := s2;
      NoSteps(p, s2);
    }
    LegalAppend(p, s1, Writes(o.afterUpload), rest);
    LegalAppend(p, s, [up], Writes(o.afterUpload) + rest);
  }

  lemma {:induction false} NoSteps(p: Pipe, s: State)
    ensures Legal(p, s, []) && Exec(p, s, []) == s
  {}

  lemma {:induction false} EndingRuns(p: Pipe, s: State, ctx: RunContext, env: Env, o: Others) returns (t: State)
    requires s.phase.Scanning? && s.phase.run == ctx.runDt
    requires Granted(p, s, Ending(p.cfg, ctx.dryRun, env, s.phase.docs, o))
    ensures var steps := Ending(p.cfg, ctx.dryRun, env, s.phase.docs, o); Legal(p, s, steps) && t == Exec(p, s, steps)
    ensures t.phase.Idle? && t.lastSecond == s.lastSecond && (t.wm, t.objects) == Left(p, s, ctx, env, s.phase.docs)
  {
    hide Legal, Exec, Granted, KeyAt, RowsOf, Uploaded, UploadSteps, Mentions, InTime;
    var docs := s.phase.docs;
    var upload := if ctx.dryRun then [Abandon] else UploadSteps(p.cfg, env, docs, o);
    var rest := if docs == [] then [] else Writes(o.afterScan) + upload;
    assert Ending(p.cfg, ctx.dryRun, env, docs, o) == [EndScan] + rest;
    GrantedStep(p, s, EndScan, rest);
    OneStep(p, s, EndScan);
    var s1 := Apply(p, s, EndScan);
    if docs == [] {
      t := s1;
      NoSteps(p, s1);
    } else {
      var s2 := WritesRun(p, s1, o.afterScan, upload);
      if ctx.dryRun {
        OneStep(p, s2, Abandon);
        t := Apply(p, s2, Abandon);
      } else {
        t := UploadRuns(p, s2, ctx, env, docs, o);
      }
      LegalAppend(p, s1, Writes(o.afterScan), upload);
    }
    LegalAppend(p, s, [EndScan], rest);
  }

  /** One call of `extract_collection` with any upload outcome, a commit that may fail, a dry run or not, while other
      clients write at any moment and other units use the same bucket: as long as the hypotheses on those
      clients and on the cursor hold, the call is a legal run of the machine, and this collection's watermark
      and objects end up where that run takes them. */
  lemma {:induction false} ExtractRunsTheMachine(p: Pipe, s: State, ctx: RunContext, env: Env, w: World, o: Others)
    returns (t: State)
    requires Fits(p, ctx) && Shows(p, s, w) && s.phase.Idle? && s.lastSecond < ctx.runDt / SECOND
    requires StartFilter(p.cfg, s.wm).Ok?
    requires var served := env.serve(StartFilter(p.cfg, s.wm).value);
      && ScanOnly(o.scan) && DocsRead(s.coll, o.scan) == served.docs
      && Granted(p, s, StepsOf(p.cfg, ctx, env, served, o))
    ensures var steps := StepsOf(p.cfg, ctx, env, env.serve(StartFilter(p.cfg, s.wm).value), o);
      Legal(p, s, steps) && t == Exec(p, s, steps)
    ensures t.phase.Idle? && t.lastSecond == ctx.runDt / SECOND
    ensures Shows(p, t, ExtractSpec(p.cfg, ctx, env, w).0)
  {
    hide Legal, Exec, Granted, KeyAt, RowsOf, Uploaded, Ending, StartFilter, Shipped, Namespace, RowsOfUnit,
      NormalPrefix, Matches, MongoKey;
    var served := env.serve(StartFilter(p.cfg, s.wm).value);
    var last := if served.broken then [Abandon] else Ending(p.cfg, ctx.dryRun, env, served.docs, o);
    GrantedStep(p, s, Begin(ctx.runDt), o.scan + last);
    OneStep(p, s, Begin(ctx.runDt));
    var s1 := Apply(p, s, Begin(ctx.runDt));
    var s2 := ScanRuns(p, s1, o.scan, last);
    assert [] + served.docs == served.docs;
    if served.broken {
      OneStep(p, s2, Abandon);
      t := Apply(p, s2, Abandon);
    } else {
      t := EndingRuns(p, s2, ctx, env, o);
      ShippedIsLeft(p, s, ctx, env, w, served.docs);
      LeftIgnoresPhase(p, s, s2, ctx, env, served.docs);
    }
    LegalAppend(p, s1, o.scan, last);
    LegalAppend(p, s, [Begin(ctx.runDt)], o.scan + last);
  }

  lemma {:induction false} LeftIgnoresPhase(p: Pipe, s: State, t: State, ctx: RunContext, env: Env, docs: seq<Doc>)
    requires t.wm == s.wm && t.objects == s.objects
    ensures Left(p, t, ctx, env, docs) == Left(p, s, ctx, env, docs)
  {}

  // ---- Nobody interferes ----

  function Ids(docs: seq<Doc>): seq<ObjectId> {
    if docs == [] then [] else [docs[0].id] + Ids(docs[1..])
  }

  /** A cursor that yields exactly the collection's matching documents, each at least once. */
  ghost predicate Truthful(coll: map<ObjectId, Doc>, f: Filter, docs: seq<Doc>) {
    && (forall d :: d in docs ==> d.id in coll && coll[d.id] == d && Matches(f, d))
    && (forall id :: id in coll && Matches(f, coll[id]) ==> Mentions(docs, id))
  }

  function Nobody(docs: seq<Doc>): Others {
    Others(Fetches(Ids(docs)), [], [], [])
  }

  lemma {:induction false} QuietScanReads(coll: map<ObjectId, Doc>, docs: seq<Doc>)
    requires forall d :: d in docs ==> d.id in coll && coll[d.id] == d
    ensures ScanOnly(Fetches(Ids(docs))) && DocsRead(coll, Fetches(Ids(docs))) == docs
  {
    if docs != [] {
      var steps, rest := Fetches(Ids(docs)), Fetches(Ids(docs[1..]));
      assert Ids(docs)[1..] == Ids(docs[1..]);
      assert steps == [Fetch(docs[0].id)] + rest && steps[1..] == rest;
      assert docs[0] in docs;
      QuietScanReads(coll, docs[1..]);
      assert [docs[0]] + docs[1..] == docs;
    }
  }

  /** Steps none of which is anybody else's are granted for free. */
  lemma {:induction false} OwnStepsGranted(p: Pipe, s: State, steps: seq<Action>)
    requires forall i :: 0 <= i < |steps| ==> !Theirs(steps[i])
    ensures Granted(p, s, steps)
    decreases |steps|
  {
    hide Enabled, Apply;
    if steps != [] && Enabled(p, s, steps[0]) {
      assert forall i :: 0 <= i < |steps[1..]| ==> steps[1..][i] == steps[i + 1];
      OwnStepsGranted(p, Apply(p, s, steps[0]), steps[1..]);
    }
  }

  /** The same scan, having read `docs`. */
  function HavingRead(s: State, docs: seq<Doc>): State
    requires s.phase.Scanning?
  {
    s.(phase := Scanning(s.phase.run, s.phase.filter, s.phase.found, s.phase.written, docs))
  }

  lemma {:induction false} ReadOn(s: State, some: seq<Doc>, all: seq<Doc>)
    requires s.phase.Scanning?
    ensures var t := HavingRead(s, some);
      && t.phase.Scanning? && t.phase.docs == some && t.phase.filter == s.phase.filter && t.coll == s.coll
      && HavingRead(t, all) == HavingRead(s, all)
  {}

  lemma {:induction false} FetchReads(p: Pipe, s: State, d: Doc)
    requires s.phase.Scanning? && d.id in s.coll && s.coll[d.id] == d && Matches(s.phase.filter, d)
    ensures Enabled(p, s, Fetch(d.id)) && Apply(p, s, Fetch(d.id)) == HavingRead(s, s.phase.docs + [d])
  {}

  /** Documents as the collection has them, all matching. */
  ghost predicate Current(coll: map<ObjectId, Doc>, f: Filter, docs: seq<Doc>) {
    forall d :: d in docs ==> d.id in coll && coll[d.id] == d && Matches(f, d)
  }

  lemma {:induction false} CurrentTail(coll: map<ObjectId, Doc>, f: Filter, docs: seq<Doc>)
    requires Current(coll, f, docs) && docs != []
    ensures docs[0].id in coll && coll[docs[0].id] == docs[0] && Matches(f, docs[0]) && Current(coll, f, docs[1..])
  {
    hide Matches;
    assert docs[0] in docs && forall e :: e in docs[1..] ==> e in docs;
  }

  lemma {:induction false} FetchesFirst(docs: seq<Doc>)
    requires docs != []
    ensures Fetches(Ids(docs)) == [Fetch(docs[0].id)] + Fetches(Ids(docs[1..]))
  {
    assert Ids(docs)[1..] == Ids(docs[1..]);
  }

  lemma {:induction false} FetchesCons(docs: seq<Doc>, rest: seq<Action>)
    ensures docs == [] ==> Fetches(Ids(docs)) + rest == rest
    ensures docs != [] ==> Fetches(Ids(docs)) + rest == [Fetch(docs[0].id)] + (Fetches(Ids(docs[1..])) + rest)
  {
    if docs == [] {
      assert Fetches(Ids(docs)) == [] && [] + rest == rest;
    } else {
      FetchesFirst(docs);
      hide Fetches, Ids;
      Assoc([Fetch(docs[0].id)], Fetches(Ids(docs[1..])), rest);
    }
  }

  lemma {:induction false} QuietScanGranted(p: Pipe, s: State, before: seq<Doc>, docs: seq<Doc>, rest: seq<Action>)
    requires s.phase.Scanning? && s.phase.docs == before && Current(s.coll, s.phase.filter, docs)
    requires Granted(p, HavingRead(s, before + docs), rest)
    ensures Granted(p, s, Fetches(Ids(docs)) + rest)
    decreases |docs|
  {
    hide Matches, Granted, Enabled, Apply, Current, Fetches, Ids;
    FetchesCons(docs, rest);
    if docs == [] {
      assert before + docs == before;
    } else {
      var d, later := docs[0], docs[1..];
      CurrentTail(s.coll, s.phase.filter, docs);
      assert (before + [d]) + later == before + docs;
      FetchReads(p, s, d);
      ReadOn(s, before + [d], before + docs);
      hide HavingRead;
      QuietScanGranted(p, HavingRead(s, before + [d]), before + [d], later, rest);
      GrantedFirst(p, s, Fetch(d.id), Fetches(Ids(later)) + rest);
    }
  }

  /** With a truthful cursor and nobody writing, nothing has to be granted: the call always runs the machine. */
  lemma {:induction false} QuietIsGranted(p: Pipe, s: State, ctx: RunContext, env: Env)
    requires s.phase.Idle? && s.lastSecond < ctx.runDt / SECOND && StartFilter(p.cfg, s.wm).Ok?
    requires var f := StartFilter(p.cfg, s.wm).value; !env.serve(f).broken && Truthful(s.coll, f, env.serve(f).docs)
    ensures var served := env.serve(StartFilter(p.cfg, s.wm).value);
      && ScanOnly(Nobody(served.docs).scan) && DocsRead(s.coll, Nobody(served.docs).scan) == served.docs
      && Granted(p, s, StepsOf(p.cfg, ctx, env, served, Nobody(served.docs)))
  {
    hide StartFilter, Matches, NewWatermark, ObservedAll, Granted;
    var f := StartFilter(p.cfg, s.wm).value;
    var docs := env.serve(f).docs;
    QuietScanReads(s.coll, docs);
    var s1 := Apply(p, s, Begin(ctx.runDt));
    var s2 := HavingRead(s1, docs);
    var ending := Ending(p.cfg, ctx.dryRun, env, docs, Nobody(docs));
    QuietEndingGranted(p, s2, ctx, env);
    assert [] + docs == docs;
    QuietScanGranted(p, s1, [], docs, ending);
    GrantedFirst(p, s, Begin(ctx.runDt), Fetches(Ids(docs)) + ending);
  }

  lemma {:induction false} GrantedFirst(p: Pipe, s: State, a: Action, rest: seq<Action>)
    requires Enabled(p, s, a) && Granted(p, Apply(p, s, a), rest)
    ensures Granted(p, s, [a] + rest)
  {
    assert ([a] + rest)[1..] == rest;
  }

  lemma {:induction false} QuietEndingGranted(p: Pipe, s: State, ctx: RunContext, env: Env)
    requires s.phase.Scanning? && s.phase.written == {}
    requires s.phase.found == (set id | id in s.coll && Matches(s.phase.filter, s.coll[id]))
    requires Truthful(s.coll, s.phase.filter, s.phase.docs)
    ensures Granted(p, s, Ending(p.cfg, ctx.dryRun, env, s.phase.docs, Nobody(s.phase.docs)))
  {
    hide Matches, InTime, Faithful, Granted, NewWatermark, ObservedAll;
    var docs := s.phase.docs;
    var steps := Ending(p.cfg, ctx.dryRun, env, docs, Nobody(docs));
    var rest := steps[1..];
    assert steps == [EndScan] + rest;
    assert forall i :: 0 <= i < |rest| ==> !Theirs(rest[i]);
    OwnStepsGranted(p, Apply(p, s, EndScan), rest);
    GrantedFirst(p, s, EndScan, rest);
  }
}
