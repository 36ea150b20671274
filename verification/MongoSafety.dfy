/** What the step machine guarantees over whole runs. */
module MongoSafety {
  import opened ObjectIds
  import opened Timestamps
  import opened Watermarks
  import opened Landing
  import opened S3
  import opened MongoMachine

  ghost predicate Reachable(p: Pipe, s: State) {
    exists steps: seq<Action> :: Legal(p, Empty(), steps) && Exec(p, Empty(), steps) == s
  }

  lemma {:induction false} ReachableIsGood(p: Pipe, s: State)
    requires 0 <= p.cfg.overlap && Reachable(p, s)
    ensures Inv(p, s)
  {
    hide Inv;
    EmptyIsGood(p);
    var steps: seq<Action> :| Legal(p, Empty(), steps) && Exec(p, Empty(), steps) == s;
    RunsKeep(p, Empty(), steps);
  }

  /** At least once: under every interleaving of writes, upload outcomes and crashes, a tracked document
      is in the bucket in its current version or is still asked for by the next run. */
  lemma {:induction false} AtLeastOnce(p: Pipe, s: State, id: ObjectId)
    requires 0 <= p.cfg.overlap && Reachable(p, s)
    requires id in s.coll && Tracked(p.cfg, s.coll[id])
    ensures Settled(Contents(s.objects), s.coll[id]) || Reaches(p.cfg, StoredMark(s), s.coll[id])
  {
    ReachableIsGood(p, s);
  }

  lemma {:induction false} ExecAppend(p: Pipe, s: State, a: seq<Action>, b: seq<Action>)
    requires Legal(p, s, a + b)
    ensures Legal(p, s, a) && Legal(p, Exec(p, s, a), b)
    ensures Exec(p, s, a + b) == Exec(p, Exec(p, s, a), b)
    decreases |a|
  {
    hide Enabled, Apply;
    if a == [] {
      assert a + b == b;
    } else {
      assert (a + b)[1..] == a[1..] + b;
      ExecAppend(p, Apply(p, s, a[0]), a[1..], b);
    }
  }

  function Fetches(ids: seq<ObjectId>): seq<Action> {
    if ids == [] then [] else [Fetch(ids[0])] + Fetches(ids[1..])
  }

  /** While only the cursor moves, the collection, the bucket and the watermark stand still. */
  lemma {:induction false} FetchesOnlyRead(p: Pipe, s: State, ids: seq<ObjectId>)
    requires Legal(p, s, Fetches(ids)) && s.phase.Scanning?
    ensures var t := Exec(p, s, Fetches(ids));
      && t.phase.Scanning? && t.phase.written == s.phase.written && t.phase.run == s.phase.run
      && t.coll == s.coll && t.objects == s.objects && t.wm == s.wm
    decreases |ids|
  {
    if ids != [] {
      var f := Fetches(ids);
      assert f[0] == Fetch(ids[0]) && f[1..] == Fetches(ids[1..]);
      FetchesOnlyRead(p, Apply(p, s, f[0]), ids[1..]);
    }
  }

  /** The steps of one completed run during which nobody else writes: with documents to ship, or with none. */
  function QuietRun(run: Instant, ids: seq<ObjectId>): seq<Action> {
    if ids == [] then [Begin(run), EndScan]
    else [Begin(run)] + (Fetches(ids) + [EndScan, Upload(Confirmed), Commit])
  }

  /** Whatever crashes, failed uploads and re-deliveries came before: once a run completes without
      concurrent writes, be it that it found nothing, the newest rows in the bucket are the current versions
      of all tracked documents. */
  lemma {:induction false} QuietRunSettlesAll(p: Pipe, s: State, run: Instant, ids: seq<ObjectId>)
    requires 0 <= p.cfg.overlap && Inv(p, s) && Legal(p, s, QuietRun(run, ids))
    ensures var t := Exec(p, s, QuietRun(run, ids));
      && t.coll == s.coll
      && (forall id :: id in s.coll && Tracked(p.cfg, s.coll[id]) ==> Settled(Contents(t.objects), s.coll[id]))
  {
    if ids == [] {
      EmptyRunSettlesAll(p, s, run);
    } else {
      ShippingRunSettlesAll(p, s, run, ids);
    }
  }

  lemma {:induction false} EmptyRunSettlesAll(p: Pipe, s: State, run: Instant)
    requires 0 <= p.cfg.overlap && Inv(p, s) && Legal(p, s, [Begin(run), EndScan])
    ensures var t := Exec(p, s, [Begin(run), EndScan]);
      && t.coll == s.coll && t.objects == s.objects
      && (forall id :: id in s.coll && Tracked(p.cfg, s.coll[id]) ==> Settled(Contents(t.objects), s.coll[id]))
  {
    hide Inv, Tracked, Settled, Contents, StartFilter, Matches, NewMark, KeyAt, RowsOf, Faithful, Mentions, InTime;
    var steps := [Begin(run), EndScan];
    assert steps[1..] == [EndScan] && steps[1..][1..] == [];
    var s1 := Apply(p, s, Begin(run));
    StepKeeps(p, s, Begin(run));
    EmptyQuietScanIsSettled(p, s1);
    assert Exec(p, s, steps) == Exec(p, s1, [EndScan]);
    assert Exec(p, s1, [EndScan]) == Apply(p, s1, EndScan);
  }

  lemma {:induction false} ShippingRunSettlesAll(p: Pipe, s: State, run: Instant, ids: seq<ObjectId>)
    requires 0 <= p.cfg.overlap && Inv(p, s) && ids != [] && Legal(p, s, QuietRun(run, ids))
    ensures var t := Exec(p, s, QuietRun(run, ids));
      && t.coll == s.coll && t.phase.Committed?
      && (forall id :: id in s.coll && Tracked(p.cfg, s.coll[id]) ==> Settled(Contents(t.objects), s.coll[id]))
  {
    hide Inv, Tracked, Settled, Contents, StartFilter, Matches, NewMark, KeyAt, RowsOf;
    var quiet := QuietRun(run, ids);
    var last := [EndScan, Upload(Confirmed), Commit];
    RunsKeep(p, s, quiet);
    assert quiet[0] == Begin(run) && quiet[1..] == Fetches(ids) + last;
    var s1 := Apply(p, s, Begin(run));
    ExecAppend(p, s1, Fetches(ids), last);
    FetchesOnlyRead(p, s1, ids);
    var s2 := Exec(p, s1, Fetches(ids));
    LastSteps(p, s2);
    CommittedSettles(p, Exec(p, s, quiet));
  }

  lemma {:induction false} LastSteps(p: Pipe, s: State)
    requires s.phase.Scanning? && Legal(p, s, [EndScan, Upload(Confirmed), Commit])
    ensures var t := Exec(p, s, [EndScan, Upload(Confirmed), Commit]);
      t.coll == s.coll && t.phase.Committed? && t.phase.written == s.phase.written
  {
    hide Settled, Contents, StartFilter, Matches, NewMark, KeyAt, RowsOf, Faithful, Mentions, InTime;
    var last := [EndScan, Upload(Confirmed), Commit];
    assert last[1..] == [Upload(Confirmed), Commit] && last[1..][1..] == [Commit] && last[1..][1..][1..] == [];
    var s1 := Apply(p, s, EndScan);
    assert Enabled(p, s1, Upload(Confirmed));
    var s2 := Apply(p, s1, Upload(Confirmed));
    var s3 := Apply(p, s2, Commit);
    assert Exec(p, s, last) == Exec(p, s1, [Upload(Confirmed), Commit]);
    assert Exec(p, s1, [Upload(Confirmed), Commit]) == Exec(p, s2, [Commit]);
    assert Exec(p, s2, [Commit]) == s3;
  }

  lemma {:induction false} CommittedSettles(p: Pipe, t: State)
    requires Inv(p, t) && t.phase.Committed?
    ensures forall id :: id in t.coll && id !in t.phase.written && Tracked(p.cfg, t.coll[id]) ==>
      Settled(Contents(t.objects), t.coll[id])
  {
    hide Tracked, Settled, Contents;
  }

  /** The next completed run ships it: whatever came before and whoever writes meanwhile, when a run has
      committed, every tracked document that nobody wrote during that run is in the bucket in its current version. */
  lemma {:induction false} CompletedRunShips(p: Pipe, s: State, id: ObjectId)
    requires 0 <= p.cfg.overlap && Reachable(p, s) && s.phase.Committed?
    requires id in s.coll && id !in s.phase.written && Tracked(p.cfg, s.coll[id])
    ensures Settled(Contents(s.objects), s.coll[id])
  {
    hide Tracked, Settled, Contents;
    ReachableIsGood(p, s);
    CommittedSettles(p, s);
  }

  /** A quiet scan that finds nothing means there was nothing left to ship. */
  lemma {:induction false} EmptyQuietScanIsSettled(p: Pipe, s: State)
    requires 0 <= p.cfg.overlap && Inv(p, s) && Enabled(p, s, EndScan)
    requires s.phase.docs == [] && s.phase.written == {}
    ensures forall id :: id in s.coll && Tracked(p.cfg, s.coll[id]) ==> Settled(Contents(s.objects), s.coll[id])
  {
    forall id | id in s.coll && Tracked(p.cfg, s.coll[id])
      ensures Settled(Contents(s.objects), s.coll[id])
    {
      ScanCovers(p, s, id);
    }
  }
}
