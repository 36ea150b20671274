/** Exactly when a commit loses nothing, with nothing assumed about when writes arrive. And the arrival
    hypothesis cannot be weakened to the moment of insertion: a run of the machine in which every write is within
    the window when it is made, and a document is lost all the same. */
module ArrivalSkew {
  import opened Wrappers
  import opened ObjectIds
  import opened Timestamps
  import opened Watermarks
  import opened Landing
  import opened S3
  import opened MongoMachine

  // ---- Runs in which writes arrive at any time ----

  /** The guards with nothing asked of arrivals or of the cursor. */
  ghost predicate FreelyEnabled(p: Pipe, s: State, a: Action) {
    Possible(p, s, a)
    && match a
       case Write(d) => LegalWrite(p.cfg, s.coll, d)
       case EndScan => true
       case _ => Enabled(p, s, a)
  }

  ghost predicate FreelyLegal(p: Pipe, s: State, steps: seq<Action>)
    decreases |steps|
  {
    steps == [] || (FreelyEnabled(p, s, steps[0]) && FreelyLegal(p, Effect(p, s, steps[0]), steps[1..]))
  }

  ghost function FreelyExec(p: Pipe, s: State, steps: seq<Action>): State
    requires FreelyLegal(p, s, steps)
    decreases |steps|
  {
    if steps == [] then s else FreelyExec(p, Effect(p, s, steps[0]), steps[1..])
  }

  /** The part of the invariant that needs no hypothesis on arrivals. */
  ghost predicate Orderly(p: Pipe, s: State) {
    && GoodColl(p.cfg, s.coll) && Ordered(p, s) && GoodMark(p, s)
    && (s.phase.Scanning? || s.phase.Spooled? || s.phase.Stored? ==>
          forall d :: d in s.phase.docs ==> RealDoc(p.cfg, d))
  }

  lemma {:induction false} FreeUploadKeeps(p: Pipe, s: State, o: Outcome)
    requires Orderly(p, s) && s.phase.Spooled?
    ensures Orderly(p, Effect(p, s, Upload(o)))
  {
    hide KeyAt, RealDoc, BuildFilter, Contents, KeysUpTo, Put, RowsOf, ExtractedBefore;
    var rows := RowsOf(p.cfg.mode, s.phase.run, s.phase.docs);
    KeysStayOld(p, s.objects, s.lastSecond - 1, s.lastSecond);
    LaterBound(Contents(s.objects), s.lastSecond, s.lastSecond + 1);
    UploadOrders(p, s, rows);
  }

  lemma {:induction false} FreeStepKeeps(p: Pipe, s: State, a: Action)
    requires 0 <= p.cfg.overlap && Orderly(p, s) && FreelyEnabled(p, s, a)
    ensures Orderly(p, Effect(p, s, a))
  {
    hide KeyAt, RealDoc, BuildFilter, Contents, KeysUpTo, RowsOf, ExtractedBefore, Uploaded, NewMark, Matches, Tracked;
    match a {
      case Begin(run) =>
        KeysStayOld(p, s.objects, s.lastSecond, run / SECOND - 1);
        LaterBound(Contents(s.objects), s.lastSecond + 1, run / SECOND);
      case Fetch(id) =>
      case Upload(o) => FreeUploadKeeps(p, s, o);
      case Commit => NewMarkIsUsable(p, s.phase.docs);
      case _ => if s.phase.Scanning? || s.phase.Spooled? {
        KeysStayOld(p, s.objects, s.lastSecond - 1, s.lastSecond);
        LaterBound(Contents(s.objects), s.lastSecond, s.lastSecond + 1);
      }
    }
  }

  lemma {:induction false} FreeRunsKeep(p: Pipe, s: State, steps: seq<Action>)
    requires 0 <= p.cfg.overlap && Orderly(p, s) && FreelyLegal(p, s, steps)
    ensures Orderly(p, FreelyExec(p, s, steps))
    decreases |steps|
  {
    hide Orderly, Effect, LegalWrite;
    if steps != [] {
      FreeStepKeeps(p, s, steps[0]);
      FreeRunsKeep(p, Effect(p, s, steps[0]), steps[1..]);
    }
  }

  // ---- Exactly when a commit loses nothing ----

  ghost function AfterUpload(p: Pipe, s: State): State
    requires s.phase.Spooled?
  {
    Effect(p, s, Upload(Confirmed))
  }

  /** Other clients write `later` after the upload and before the commit. */
  ghost predicate Followed(p: Pipe, s: State, later: seq<Doc>) {
    s.phase.Spooled? && FreelyLegal(p, AfterUpload(p, s), Writes(later))
  }

  lemma {:induction false} FreeWritesOnlyWrite(p: Pipe, s: State, later: seq<Doc>)
    requires s.phase.Stored? && FreelyLegal(p, s, Writes(later))
    ensures var t := FreelyExec(p, s, Writes(later));
      && t.phase.Stored? && t.phase.docs == s.phase.docs && t.objects == s.objects && t.wm == s.wm
    decreases |later|
  {
    hide LegalWrite;
    if later != [] {
      var steps := Writes(later);
      assert steps[0] == Write(later[0]) && steps[1..] == Writes(later[1..]);
      FreeWritesOnlyWrite(p, Effect(p, s, Write(later[0])), later[1..]);
    }
  }

  /** The state at the commit. */
  ghost function Stocked(p: Pipe, s: State, later: seq<Doc>): (t: State)
    requires Followed(p, s, later)
    ensures t.phase.Stored? && t.phase.docs == s.phase.docs && t.objects == AfterUpload(p, s).objects && t.wm == s.wm
  {
    FreeWritesOnlyWrite(p, AfterUpload(p, s), later);
    FreelyExec(p, AfterUpload(p, s), Writes(later))
  }

  /** The spooled documents are uploaded, others write, and the position is committed. */
  ghost function Shipped(p: Pipe, s: State, later: seq<Doc>): State
    requires Followed(p, s, later)
  {
    Effect(p, Stocked(p, s, later), Commit)
  }

  /** The document is in the bucket in its current version, or the next run will ask for it. */
  ghost predicate Kept(p: Pipe, s: State, d: Doc) {
    Settled(Contents(s.objects), d) || Reaches(p.cfg, StoredMark(s), d)
  }

  /** What the commit needs of a document: the scan read its current version and no other, or did not read it
      and it had landed before, or it is at most the overlap older than the position that gets stored. */
  ghost predicate Covered(p: Pipe, s: State, d: Doc)
    requires s.phase.Spooled?
  {
    || Faithful(s.phase.docs, d) || Unread(s, s.phase.docs, d)
    || InTime(p.cfg, if NewMark(p, s.phase.docs).Some? then NewMark(p, s.phase.docs) else StoredMark(s), d)
  }

  lemma {:induction false} InTimeIffReaches(p: Pipe, w: Option<string>, d: Doc)
    requires w.Some? ==> BuildFilter(p.cfg, w).Ok?
    requires RealDoc(p.cfg, d) && Tracked(p.cfg, d)
    ensures InTime(p.cfg, w, d) <==> Reaches(p.cfg, w, d)
  {
    if w.Some? {
      ReachesIffRecent(p.cfg, w.value, d);
    }
  }

  lemma {:induction false} KeptIffCovered(p: Pipe, s: State, later: seq<Doc>, d: Doc)
    requires 0 <= p.cfg.overlap && Orderly(p, s) && Followed(p, s, later) && RealDoc(p.cfg, d) && Tracked(p.cfg, d)
    ensures Kept(p, Shipped(p, s, later), d) <==> Covered(p, s, d)
  {
    hide Settled, Contents, Faithful, Mentions, RowsOf, KeyAt, KeysUpTo, Put, NewMark, BuildFilter, Recent, RealDoc,
      Tracked, ExtractedBefore, GoodColl, FreelyLegal, Stocked;
    var docs, t := s.phase.docs, Shipped(p, s, later);
    UploadIsNew(p, s, RowsOf(p.cfg.mode, s.phase.run, docs));
    SettledAfterLandingIff(Contents(s.objects), p.cfg.mode, s.phase.run, docs, d);
    NewMarkIsUsable(p, docs);
    InTimeIffReaches(p, StoredMark(t), d);
  }

  lemma {:induction false} StockedIsOrderly(p: Pipe, s: State, later: seq<Doc>)
    requires 0 <= p.cfg.overlap && Orderly(p, s) && Followed(p, s, later)
    ensures Orderly(p, Stocked(p, s, later)) && Shipped(p, s, later).coll == Stocked(p, s, later).coll
  {
    hide Orderly, NewMark, Uploaded, RowsOf, KeyAt, FreelyLegal, FreelyExec;
    FreeUploadKeeps(p, s, Confirmed);
    FreeRunsKeep(p, AfterUpload(p, s), Writes(later));
  }

  lemma {:induction false} AllKeptIffAllCovered(p: Pipe, s: State, later: seq<Doc>)
    requires 0 <= p.cfg.overlap && Orderly(p, s) && Followed(p, s, later)
    ensures var t := Shipped(p, s, later);
      forall id :: id in t.coll && Tracked(p.cfg, t.coll[id]) ==>
        (Kept(p, t, t.coll[id]) <==> Covered(p, s, t.coll[id]))
  {
    StockedIsOrderly(p, s, later);
    hide Ordered, GoodMark, Covered, Kept, RealDoc, Tracked, Shipped, Stocked, Followed;
    var t := Shipped(p, s, later);
    forall id | id in t.coll && Tracked(p.cfg, t.coll[id])
      ensures Kept(p, t, t.coll[id]) <==> Covered(p, s, t.coll[id])
    {
      KeptIffCovered(p, s, later, t.coll[id]);
    }
  }

  /** Over every run, whenever writes arrive, also between upload and commit, and whatever the cursor misses: the
      commit of what was read keeps a tracked document exactly if its version at the commit is covered, so
      it loses nothing if and only if all of them are. */
  lemma {:induction false} CommitIsLosslessIff(p: Pipe, steps: seq<Action>, later: seq<Doc>)
    requires 0 <= p.cfg.overlap && FreelyLegal(p, Empty(), steps)
    requires Followed(p, FreelyExec(p, Empty(), steps), later)
    ensures var s := FreelyExec(p, Empty(), steps);
      var t := Shipped(p, s, later);
      && (forall id :: id in t.coll && Tracked(p.cfg, t.coll[id]) ==>
            (Kept(p, t, t.coll[id]) <==> Covered(p, s, t.coll[id])))
      && (NoLoss(p, t) <==> forall id :: id in t.coll && Tracked(p.cfg, t.coll[id]) ==> Covered(p, s, t.coll[id]))
  {
    assert Orderly(p, Empty());
    hide FreelyLegal, FreelyExec, Covered, Settled, Contents, Reaches, Tracked, Orderly, Shipped;
    FreeRunsKeep(p, Empty(), steps);
    AllKeptIffAllCovered(p, FreelyExec(p, Empty(), steps), later);
  }

  // ---- The weaker reading is not enough ----

  /** The guards with the skew measured against the maximum observed when the write is made, and nothing
      asked of late arrivals when the scan ends. */
  ghost predicate WeaklyEnabled(p: Pipe, s: State, a: Action) {
    match a
    case Write(d) =>
      && LegalWrite(p.cfg, s.coll, d)
      && InTime(p.cfg, StoredMark(s), d)
      && (s.phase.Scanning? || s.phase.Spooled? || s.phase.Stored? ==> InTime(p.cfg, NewMark(p, s.phase.docs), d))
    case EndScan =>
      s.phase.Scanning? && forall id :: id in s.phase.found && id !in s.phase.written ==> Mentions(s.phase.docs, id)
    case _ => Enabled(p, s, a)
  }

  ghost predicate WeaklyLegal(p: Pipe, s: State, steps: seq<Action>)
    decreases |steps|
  {
    steps == [] || (WeaklyEnabled(p, s, steps[0]) && WeaklyLegal(p, Effect(p, s, steps[0]), steps[1..]))
  }

  ghost function WeaklyExec(p: Pipe, s: State, steps: seq<Action>): State
    requires WeaklyLegal(p, s, steps)
    decreases |steps|
  {
    if steps == [] then s else WeaklyExec(p, Effect(p, s, steps[0]), steps[1..])
  }

  /** These runs are among those of `CommitIsLosslessIff`. */
  lemma {:induction false} WeakRunsAreFree(p: Pipe, s: State, steps: seq<Action>)
    requires WeaklyLegal(p, s, steps)
    ensures FreelyLegal(p, s, steps) && FreelyExec(p, s, steps) == WeaklyExec(p, s, steps)
    decreases |steps|
  {
    hide Effect, LegalWrite, InTime, NewMark, Mentions, Matches, StartFilter;
    if steps != [] {
      WeakRunsAreFree(p, Effect(p, s, steps[0]), steps[1..]);
    }
  }

  lemma {:induction false} WeakStep(p: Pipe, s: State, a: Action, t: State, rest: seq<Action>)
    requires WeaklyEnabled(p, s, a) && t == Effect(p, s, a) && WeaklyLegal(p, t, rest)
    ensures WeaklyLegal(p, s, [a] + rest) && WeaklyExec(p, s, [a] + rest) == WeaklyExec(p, t, rest)
  {
    assert ([a] + rest)[1..] == rest;
  }

  // ---- The history ----

  /** An id inserted behind the cursor, and a much younger one inserted ahead of it. */
  ghost predicate Skewed(p: Pipe, first: Doc, late: Doc, young: Doc) {
    && p.cfg.mode.AppendOnly? && p.cfg.initial.None? && 0 <= p.cfg.overlap
    && RealDoc(p.cfg, first) && RealDoc(p.cfg, late) && RealDoc(p.cfg, young)
    && late.id.second == first.id.second && IdLess(late.id, first.id)
    && first.id.second + p.cfg.overlap < young.id.second
  }

  function Steps(first: Doc, late: Doc, young: Doc, run: Instant): seq<Action> {
    [Write(first)] + ([Begin(run)] + ([Fetch(first.id)] + ([Write(late)] + ([Write(young)] + ([Fetch(young.id)] +
    ([EndScan] + ([Upload(Confirmed)] + ([Commit] + []))))))))
  }

  function Two(first: Doc, late: Doc): map<ObjectId, Doc> {
    map[first.id := first][late.id := late]
  }

  function Three(first: Doc, late: Doc, young: Doc): map<ObjectId, Doc> {
    Two(first, late)[young.id := young]
  }

  function ReadingOne(first: Doc, run: Instant, coll: map<ObjectId, Doc>, written: set<ObjectId>): State {
    State(coll, None, [], run / SECOND, Scanning(run, Everything, {first.id}, written, [first]))
  }

  function Both(first: Doc, late: Doc, young: Doc, run: Instant): State {
    State(Three(first, late, young), None, [], run / SECOND,
          Scanning(run, Everything, {first.id}, {late.id, young.id}, [first, young]))
  }

  /** After the commit. */
  ghost function Lost(p: Pipe, first: Doc, late: Doc, young: Doc, run: Instant): State {
    State(Three(first, late, young), Some(Watermark("objectid", Hex(young.id))),
          [Object(KeyAt(p, run), RowsOf(AppendOnly, run, [first, young]))], run / SECOND,
          Committed(run, {late.id, young.id}))
  }

  lemma {:induction false} Marks(p: Pipe, first: Doc, late: Doc, young: Doc)
    requires Skewed(p, first, late, young)
    ensures NewMark(p, [first]) == Some(Hex(first.id)) && NewMark(p, [first, young]) == Some(Hex(young.id))
  {
    var one, two := [first], [first, young];
    assert one[..0] == [] && two[..1] == one;
    assert ObservedAll(AppendOnly, NOTHING, one).maxId == Some(first.id);
    assert ObservedAll(AppendOnly, NOTHING, two).maxId == Some(young.id);
  }

  /** From the scan's end on. */
  lemma {:induction false} Ending(p: Pipe, first: Doc, late: Doc, young: Doc, run: Instant)
    requires Skewed(p, first, late, young)
    ensures var rest := [EndScan] + ([Upload(Confirmed)] + ([Commit] + []));
      WeaklyLegal(p, Both(first, late, young, run), rest)
      && WeaklyExec(p, Both(first, late, young, run), rest) == Lost(p, first, late, young, run)
  {
    hide KeyAt, NewMark, RowsOf, Hex, InTime, Tracked, Contents, LegalWrite;
    Marks(p, first, late, young);
    var s := Both(first, late, young, run);
    var s1 := s.(phase := Spooled(run, {late.id, young.id}, [first, young]));
    var objects := [Object(KeyAt(p, run), RowsOf(AppendOnly, run, [first, young]))];
    var s2 := s.(objects := objects, phase := Stored(run, {late.id, young.id}, [first, young]));
    assert [first, young][0] == first;
    assert first in [first, young];
    WeakStep(p, s2, Commit, Lost(p, first, late, young, run), []);
    WeakStep(p, s1, Upload(Confirmed), s2, [Commit] + []);
    WeakStep(p, s, EndScan, s1, [Upload(Confirmed)] + ([Commit] + []));
  }

  /** The writes during the scan. */
  lemma {:induction false} Writing(p: Pipe, first: Doc, late: Doc, young: Doc, run: Instant, rest: seq<Action>)
    requires Skewed(p, first, late, young) && WeaklyLegal(p, Both(first, late, young, run), rest)
    ensures var s, steps := ReadingOne(first, run, map[first.id := first], {}),
                            [Write(late)] + ([Write(young)] + ([Fetch(young.id)] + rest));
      WeaklyLegal(p, s, steps) && WeaklyExec(p, s, steps) == WeaklyExec(p, Both(first, late, young, run), rest)
  {
    hide KeyAt, NewMark, RowsOf, Hex, FromHex, Contents, WeaklyLegal, WeaklyExec;
    Marks(p, first, late, young);
    HexRoundTrip(first.id);
    var s := ReadingOne(first, run, map[first.id := first], {});
    var s1 := ReadingOne(first, run, Two(first, late), {late.id});
    var s2 := ReadingOne(first, run, Three(first, late, young), {late.id, young.id});
    var s3 := Both(first, late, young, run);
    assert {} + {late.id} == {late.id} && {late.id} + {young.id} == {late.id, young.id};
    assert [first] + [young] == [first, young];
    WeakStep(p, s2, Fetch(young.id), s3, rest);
    WeakStep(p, s1, Write(young), s2, [Fetch(young.id)] + rest);
    WeakStep(p, s, Write(late), s1, [Write(young)] + ([Fetch(young.id)] + rest));
  }

  /** Up to the first document. */
  lemma {:induction false} Starting(p: Pipe, first: Doc, late: Doc, young: Doc, run: Instant, rest: seq<Action>)
    requires Skewed(p, first, late, young) && WeaklyLegal(p, ReadingOne(first, run, map[first.id := first], {}), rest)
    ensures var steps := [Write(first)] + ([Begin(run)] + ([Fetch(first.id)] + rest));
      WeaklyLegal(p, Empty(), steps)
      && WeaklyExec(p, Empty(), steps) == WeaklyExec(p, ReadingOne(first, run, map[first.id := first], {}), rest)
  {
    hide KeyAt, NewMark, RowsOf, Hex, FromHex, Contents, WeaklyLegal, WeaklyExec;
    var s1 := Empty().(coll := map[first.id := first]);
    var s2 := State(map[first.id := first], None, [], run / SECOND, Scanning(run, Everything, {first.id}, {}, []));
    assert map[][first.id := first] == map[first.id := first];
    assert (set id | id in s1.coll && Matches(Everything, s1.coll[id])) == {first.id};
    assert [] + [first] == [first];
    WeakStep(p, s2, Fetch(first.id), ReadingOne(first, run, map[first.id := first], {}), rest);
    WeakStep(p, s1, Begin(run), s2, [Fetch(first.id)] + rest);
    WeakStep(p, Empty(), Write(first), s1, [Begin(run)] + ([Fetch(first.id)] + rest));
  }

  lemma {:induction false} NotReached(p: Pipe, first: Doc, late: Doc, young: Doc)
    requires Skewed(p, first, late, young)
    ensures Tracked(p.cfg, late) && !Reaches(p.cfg, Some(Hex(young.id)), late)
  {
    hide Hex, FromHex;
    HexRoundTrip(young.id);
  }

  lemma {:induction false} NotLanded(first: Doc, late: Doc, young: Doc, run: Instant)
    requires late.id != first.id && late.id != young.id
    ensures !Settled(RowsOf(AppendOnly, run, [first, young]), late)
  {
    hide Hex, IdBytes, IdLess, Newest;
    HexIsOrderIsomorphism(first.id, late.id);
    HexIsOrderIsomorphism(young.id, late.id);
    var docs := [first, young];
    var rows := RowsOf(AppendOnly, run, docs);
    hide RowsOf;
    forall i | 0 <= i < |rows|
      ensures rows[i].id != Hex(late.id)
    {
      assert rows[i] == RowOf(AppendOnly, run, docs[i]);
      assert docs[i] == first || docs[i] == young;
    }
  }

  lemma {:induction false} OneObject<T>(key: string, body: seq<T>)
    ensures Contents([Object(key, body)]) == body
  {
    assert [Object(key, body)][..0] == [];
    assert [] + body == body;
  }

  /** The late document did not land, and the next run will not ask for it. */
  lemma {:induction false} LateIsLost(p: Pipe, first: Doc, late: Doc, young: Doc, run: Instant)
    requires Skewed(p, first, late, young)
    ensures var t := Lost(p, first, late, young, run);
      && late.id in t.coll && t.coll[late.id] == late && Tracked(p.cfg, late)
      && !Settled(Contents(t.objects), late) && !Reaches(p.cfg, StoredMark(t), late)
  {
    hide Hex, RowsOf, Contents, Settled, Tracked, Reaches, KeyAt;
    NotReached(p, first, late, young);
    NotLanded(first, late, young, run);
    OneObject(KeyAt(p, run), RowsOf(AppendOnly, run, [first, young]));
  }

  /** A whole run from the start, every step within the weaker guards, that ends with a document of the
      collection neither landed nor within reach of the next filter. */
  lemma {:induction false} SkewMeasuredAtInsertionLosesADocument(p: Pipe, first: Doc, late: Doc, young: Doc,
                                                                 run: Instant)
    requires Skewed(p, first, late, young)
    ensures WeaklyLegal(p, Empty(), Steps(first, late, young, run))
    ensures var t := WeaklyExec(p, Empty(), Steps(first, late, young, run));
      && t.phase.Committed? && late.id in t.coll && t.coll[late.id] == late && Tracked(p.cfg, late)
      && !Settled(Contents(t.objects), late) && !Reaches(p.cfg, StoredMark(t), late)
  {
    hide WeaklyLegal, WeaklyExec, Tracked, Settled, Contents, Reaches, Skewed;
    var ending := [EndScan] + ([Upload(Confirmed)] + ([Commit] + []));
    Ending(p, first, late, young, run);
    Writing(p, first, late, young, run, ending);
    Starting(p, first, late, young, run, [Write(late)] + ([Write(young)] + ([Fetch(young.id)] + ending)));
    LateIsLost(p, first, late, young, run);
  }
}
