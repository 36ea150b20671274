/** From the collection through crashes and re-deliveries to the merged table. */
module EndToEnd {
  import opened ObjectIds
  import opened Timestamps
  import opened Watermarks
  import opened Landing
  import opened S3
  import opened MongoMachine
  import opened MongoSafety
  import opened Merge

  /** Only documents of the collection are ever read or landed, under their own id. */
  ghost predicate Known(s: State) {
    && (forall r :: r in Contents(s.objects) ==> r.doc.id in s.coll && r.id == Hex(r.doc.id))
    && (forall d :: (s.phase.Scanning? || s.phase.Spooled? || s.phase.Stored?) && d in s.phase.docs ==> d.id in s.coll)
  }

  lemma {:induction false} StepKnows(p: Pipe, s: State, a: Action)
    requires Inv(p, s) && Known(s) && Enabled(p, s, a)
    ensures Known(Apply(p, s, a))
  {
    hide NewMark, Reaches, Settled, Tracked, Recent, Faithful, Mentions, KeyAt, Contents, Put, StartFilter, RealDoc,
      LegalWrite, InTime, Matches, NoLoss, GoodMark, GoodSpool, GoodStore, GoodCommit, Ordered;
    if a.Upload? && !a.outcome.Invisible? {
      var rows := RowsOf(p.cfg.mode, s.phase.run, s.phase.docs);
      UploadIsNew(p, s, rows);
      forall r | r in Contents(s.objects) + rows
        ensures r.doc.id in s.coll && r.id == Hex(r.doc.id)
      {
        if r in rows {
          var i :| 0 <= i < |rows| && rows[i] == r;
          assert s.phase.docs[i] in s.phase.docs;
        } else {
          assert r in Contents(s.objects);
        }
      }
    }
  }

  lemma {:induction false} RunsKnow(p: Pipe, s: State, steps: seq<Action>)
    requires 0 <= p.cfg.overlap && Inv(p, s) && Known(s) && Legal(p, s, steps)
    ensures Known(Exec(p, s, steps))
    decreases |steps|
  {
    hide Inv, Known, Enabled, Apply;
    if steps != [] {
      StepKeeps(p, s, steps[0]);
      StepKnows(p, s, steps[0]);
      RunsKnow(p, Apply(p, s, steps[0]), steps[1..]);
    }
  }

  /** End to end: take any history of writes, crashes, failed or unconfirmed uploads and commits, then
      one run without concurrent writes, whether it ships something or finds nothing; load the bucket in any
      order and with any repetition, and merge however often before and after. The table then holds exactly the
      collection's documents: each tracked one in its current version, and none that the collection does not
      have. */
  lemma {:induction false} MergedTableIsTheCollection(p: Pipe, steps: seq<Action>, s: State, run: Instant,
                                                      ids: seq<ObjectId>, loads: seq<seq<Row>>, stagings: seq<Keyed>)
    requires 0 <= p.cfg.overlap && Legal(p, Empty(), steps) && s == Exec(p, Empty(), steps)
    requires Legal(p, s, QuietRun(run, ids))
    requires loads != [] && Schedule(loads, stagings)
    requires SameRows(Contents(Exec(p, s, QuietRun(run, ids)).objects), loads[|loads| - 1])
    ensures var table := Merged(map[], stagings);
      && (forall id :: id in s.coll && Tracked(p.cfg, s.coll[id]) ==>
            Hex(id) in table && table[Hex(id)].doc == s.coll[id])
      && (forall k :: k in table ==> exists id :: id in s.coll && k == Hex(id))
  {
    hide Inv, Known, Enabled, Apply, Tracked, Settled, Contents, QuietRun;
    EmptyIsGood(p);
    EmptyIsKnown();
    RunsKeep(p, Empty(), steps);
    RunsKnow(p, Empty(), steps);
    QuietRunSettlesAll(p, s, run, ids);
    RunsKnow(p, s, QuietRun(run, ids));
    var t := Exec(p, s, QuietRun(run, ids));
    IdsAreTheirKeys(p, s);
    TableOf(t, s.coll, p, loads, stagings);
  }

  lemma {:induction false} EmptyIsKnown()
    ensures Known(Empty())
  {}

  lemma {:induction false} IdsAreTheirKeys(p: Pipe, s: State)
    requires Inv(p, s)
    ensures forall id :: id in s.coll ==> s.coll[id].id == id
  {}

  lemma {:induction false} TableOf(t: State, coll: map<ObjectId, Doc>, p: Pipe, loads: seq<seq<Row>>,
                                   stagings: seq<Keyed>)
    requires t.coll == coll && Known(t) && (forall id :: id in coll ==> coll[id].id == id)
    requires forall id :: id in coll && Tracked(p.cfg, coll[id]) ==> Settled(Contents(t.objects), coll[id])
    requires loads != [] && Schedule(loads, stagings) && SameRows(Contents(t.objects), loads[|loads| - 1])
    ensures var table := Merged(map[], stagings);
      && (forall id :: id in coll && Tracked(p.cfg, coll[id]) ==>
            Hex(id) in table && table[Hex(id)].doc == coll[id])
      && (forall k :: k in table ==> exists id :: id in coll && k == Hex(id))
  {
    hide Tracked, Settled, Contents, Newest;
    var raw, staged := loads[|loads| - 1], stagings[|stagings| - 1];
    var table := Merged(map[], stagings);
    MergeIsScheduleIndependent(map[], loads, stagings);
    assert table == map[] + staged == staged;
    forall id | id in coll && Tracked(p.cfg, coll[id])
      ensures Hex(id) in table && table[Hex(id)].doc == coll[id]
    {
      SettledIsStaged(raw, Contents(t.objects), staged, coll[id]);
    }
    forall k | k in table
      ensures exists id :: id in coll && k == Hex(id)
    {
      assert RankedFirst(raw, k, staged[k]);
      var i :| 0 <= i < |raw| && raw[i].id == k && raw[i] == staged[k] && Newest(raw, i);
      assert raw[i] in raw;
      assert raw[i] in Contents(t.objects);
      assert raw[i].doc.id in coll && k == Hex(raw[i].doc.id);
    }
  }
}
