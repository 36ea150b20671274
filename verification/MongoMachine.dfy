/** The Mongo pipeline of one collection as a crash-prone step machine.
    The collection, the bucket and the durable watermark survive; everything in a phase is lost when
    the process stops. Other clients write at any moment, also during a scan. */
module MongoMachine {
  import opened Wrappers
  import opened ObjectIds
  import opened Timestamps
  import opened Watermarks
  import opened Landing
  import opened S3

  /** The configured pipeline: collection config, key prefix and database. */
  datatype Pipe = Pipe(cfg: Config, prefix: string, db: string)

  function KeyAt(p: Pipe, run: Instant): string {
    MongoKey(p.prefix, p.db, p.cfg.name, run)
  }

  /** Where a run is. `found` is what matched when the cursor was opened, `written` what other clients
      have written since, `docs` what the cursor has returned so far. */
  datatype Phase =
    | Idle
    | Scanning(run: Instant, filter: Filter, found: set<ObjectId>, written: set<ObjectId>, docs: seq<Doc>)
    | Spooled(run: Instant, written: set<ObjectId>, docs: seq<Doc>)
    | Stored(run: Instant, written: set<ObjectId>, docs: seq<Doc>)
    | Committed(run: Instant, written: set<ObjectId>)

  datatype State = State(coll: map<ObjectId, Doc>, wm: Option<Watermark>, objects: Bucket<Row>,
                         lastSecond: int, phase: Phase)

  datatype Action =
    | Write(doc: Doc)         // another client inserts or updates a document
    | Begin(start: Instant)   // read the watermark, build the filter, open the cursor
    | Fetch(id: ObjectId)     // the cursor returns one document; it is observed and appended
    | EndScan                 // the cursor is exhausted; the sink is closed
    | Upload(outcome: Outcome)
    | Commit                  // set_watermark
    | CleanUp                 // unlink the spool file
    | Abandon                 // crash, or any exit that neither uploads nor commits further

  function Empty(): State {
    State(map[], None, [], -1, Idle)
  }

  function StoredMark(s: State): Option<string> {
    if s.wm.Some? then Some(s.wm.value.value) else None
  }

  function NewMark(p: Pipe, docs: seq<Doc>): Option<string> {
    NewWatermark(p.cfg.mode, ObservedAll(p.cfg.mode, NOTHING, docs))
  }

  // ---- Hypotheses on documents and on their arrival ----

  /** Ids come from real clients (their low bytes are not all zero) and neither ids nor field values lie
      so close to the epoch that the overlap window reaches past it. */
  ghost predicate RealDoc(cfg: Config, d: Doc) {
    match cfg.mode
    case AppendOnly => d.id.suffix != 0 && cfg.overlap <= d.id.second
    case Mutable => d.field.Some? ==> cfg.overlap * SECOND <= FloorMs(d.field.value)
    case FullRefresh => true
  }

  /** Documents the agent is asked to replicate: above the configured floor, and with the watermark
      field where the mode needs one. */
  ghost predicate Tracked(cfg: Config, d: Doc) {
    (cfg.mode.Mutable? ==> d.field.Some?) && AboveFloor(cfg, d)
  }

  /** They are what a first run asks for; so in append-only and full-refresh collections without a floor all
      are, and in mutable ones all that have the field. */
  lemma {:induction false} TrackedIff(cfg: Config, d: Doc)
    ensures Tracked(cfg, d) <==> (cfg.mode.Mutable? ==> d.field.Some?) && Reaches(cfg, None, d)
    ensures cfg.initial.None? || cfg.mode.FullRefresh? ==> (Tracked(cfg, d) <==> (cfg.mode.Mutable? ==> d.field.Some?))
  {
    hide FromHex, ParseTs, BuildFilter;
    ReachesIff(cfg, None, d);
  }

  /** Documents of an append-only collection are never changed; in a mutable one the field never goes back. */
  ghost predicate LegalWrite(cfg: Config, coll: map<ObjectId, Doc>, d: Doc) {
    && RealDoc(cfg, d)
    && (cfg.mode.AppendOnly? ==> d.id !in coll)
    && (cfg.mode.Mutable? && d.id in coll && coll[d.id].field.Some?
        ==> d.field.Some? && coll[d.id].field.value <= d.field.value)
  }

  /** Arrival skew: what becomes visible is at most `overlap` older than position `w`. */
  ghost predicate InTime(cfg: Config, w: Option<string>, d: Doc) {
    Tracked(cfg, d) && w.Some? ==> Recent(cfg, w.value, d)
  }

  // ---- Steps ----

  ghost predicate Enabled(p: Pipe, s: State, a: Action) {
    match a
    case Write(d) =>
      && LegalWrite(p.cfg, s.coll, d)
      && InTime(p.cfg, StoredMark(s), d)
      && (s.phase.Spooled? || s.phase.Stored? ==> InTime(p.cfg, NewMark(p, s.phase.docs), d))
    case Begin(run) => s.phase.Idle? && s.lastSecond < run / SECOND && StartFilter(p.cfg, s.wm).Ok?
    case Fetch(id) => s.phase.Scanning? && id in s.coll && Matches(s.phase.filter, s.coll[id])
    case EndScan =>
      && s.phase.Scanning?
      // a cursor returns every document that matched from the start and was left alone
      && (forall id :: id in s.phase.found && id !in s.phase.written ==> Mentions(s.phase.docs, id))
      // a version that arrived too late for the cursor is no older than the overlap window allows
      && (forall id :: id in s.phase.written && id in s.coll ==>
            Faithful(s.phase.docs, s.coll[id]) || InTime(p.cfg, NewMark(p, s.phase.docs), s.coll[id]))
    case Upload(_) => s.phase.Spooled?
    case Commit => s.phase.Stored?
    case CleanUp => s.phase.Committed?
    case Abandon => true
  }

  function Touch(ph: Phase, id: ObjectId): Phase {
    if ph.Idle? then ph else ph.(written := ph.written + {id})
  }

  /** What a step needs to make sense at all, hypotheses aside. */
  ghost predicate Possible(p: Pipe, s: State, a: Action) {
    match a
    case Begin(_) => StartFilter(p.cfg, s.wm).Ok?
    case Fetch(id) => s.phase.Scanning? && id in s.coll
    case EndScan => s.phase.Scanning?
    case Upload(_) => s.phase.Spooled?
    case Commit => s.phase.Stored?
    case _ => true
  }

  ghost function Apply(p: Pipe, s: State, a: Action): State
    requires Enabled(p, s, a)
  {
    Effect(p, s, a)
  }

  ghost function Effect(p: Pipe, s: State, a: Action): State
    requires Possible(p, s, a)
  {
    match a
    case Write(d) => s.(coll := s.coll[d.id := d], phase := Touch(s.phase, d.id))
    case Begin(run) =>
      var f := StartFilter(p.cfg, s.wm).value;
      s.(lastSecond := run / SECOND,
         phase := Scanning(run, f, set id | id in s.coll && Matches(f, s.coll[id]), {}, []))
    case Fetch(id) =>
      var Scanning(run, f, found, written, docs) := s.phase;
      s.(phase := Scanning(run, f, found, written, docs + [s.coll[id]]))
    case EndScan =>
      s.(phase := if s.phase.docs == [] then Idle else Spooled(s.phase.run, s.phase.written, s.phase.docs))
    case Upload(o) =>
      var rows := RowsOf(p.cfg.mode, s.phase.run, s.phase.docs);
      s.(objects := Uploaded(s.objects, KeyAt(p, s.phase.run), rows, o),
         phase := if o.Confirmed? then Stored(s.phase.run, s.phase.written, s.phase.docs) else Idle)
    case Commit =>
      var w := NewMark(p, s.phase.docs);
      s.(wm := if w.Some? then Some(Watermark(Kind(p.cfg.mode), w.value)) else s.wm,
         phase := Committed(s.phase.run, s.phase.written))
    case CleanUp => s.(phase := Idle)
    case Abandon => s.(phase := Idle)
  }

  /** A run of the machine: every step enabled where it is taken. */
  ghost predicate Legal(p: Pipe, s: State, steps: seq<Action>)
    decreases |steps|
  {
    steps == [] || (Enabled(p, s, steps[0]) && Legal(p, Apply(p, s, steps[0]), steps[1..]))
  }

  ghost function Exec(p: Pipe, s: State, steps: seq<Action>): State
    requires Legal(p, s, steps)
    decreases |steps|
  {
    if steps == [] then s else Exec(p, Apply(p, s, steps[0]), steps[1..])
  }

  function Writes(docs: seq<Doc>): seq<Action> {
    if docs == [] then [] else [Write(docs[0])] + Writes(docs[1..])
  }

  // ---- Invariant ----

  /** The key of a run started in or before `second`. */
  ghost predicate KeyUpTo(p: Pipe, key: string, second: int) {
    exists t: Instant :: t / SECOND <= second && key == KeyAt(p, t)
  }

  ghost predicate KeysUpTo(p: Pipe, b: Bucket<Row>, second: int) {
    forall i :: 0 <= i < |b| ==> KeyUpTo(p, b[i].key, second)
  }

  ghost predicate Ordered(p: Pipe, s: State) {
    var before := s.phase.Scanning? || s.phase.Spooled?;
    && (!s.phase.Idle? ==> s.phase.run / SECOND == s.lastSecond)
    && KeysUpTo(p, s.objects, if before then s.lastSecond - 1 else s.lastSecond)
    && ExtractedBefore(Contents(s.objects), if before then s.lastSecond else s.lastSecond + 1)
  }

  ghost predicate GoodColl(cfg: Config, coll: map<ObjectId, Doc>) {
    forall id :: id in coll ==> coll[id].id == id && RealDoc(cfg, coll[id])
  }

  ghost predicate GoodMark(p: Pipe, s: State) {
    s.wm.Some? ==> s.wm.value.kind == Kind(p.cfg.mode) && BuildFilter(p.cfg, Some(s.wm.value.value)).Ok?
  }

  /** No loss: a tracked document is in the bucket in its current version, or the next run will ask for it. */
  ghost predicate NoLoss(p: Pipe, s: State) {
    forall id :: id in s.coll && Tracked(p.cfg, s.coll[id])
      ==> Settled(Contents(s.objects), s.coll[id]) || Reaches(p.cfg, StoredMark(s), s.coll[id])
  }

  /** What the cursor returned agrees with the collection, except where it was written meanwhile. */
  ghost predicate GoodScan(p: Pipe, s: State) {
    s.phase.Scanning? ==>
      && StartFilter(p.cfg, s.wm) == Ok(s.phase.filter)
      && (forall d :: d in s.phase.docs ==> RealDoc(p.cfg, d) && d.id in s.coll)
      && (forall d :: d in s.phase.docs && d.id !in s.phase.written ==>
            s.coll[d.id] == d && Matches(s.phase.filter, d))
      && (forall id :: id in s.coll && id !in s.phase.written && Matches(s.phase.filter, s.coll[id]) ==>
            id in s.phase.found)
      && (forall id :: id in s.phase.written && id in s.coll && Tracked(p.cfg, s.coll[id]) ==>
            Reaches(p.cfg, StoredMark(s), s.coll[id]))
  }

  /** The version is safe whether or not the pending watermark gets committed. */
  ghost predicate SafeEitherWay(p: Pipe, s: State, docs: seq<Doc>, d: Doc) {
    Reaches(p.cfg, StoredMark(s), d) && (NewMark(p, docs).Some? ==> Reaches(p.cfg, NewMark(p, docs), d))
  }

  ghost predicate Unread(s: State, docs: seq<Doc>, d: Doc) {
    !Mentions(docs, d.id) && Settled(Contents(s.objects), d)
  }

  ghost predicate GoodSpool(p: Pipe, s: State) {
    s.phase.Spooled? ==>
      && (forall d :: d in s.phase.docs ==> RealDoc(p.cfg, d))
      && (forall id :: id in s.coll && Tracked(p.cfg, s.coll[id]) ==>
          || Faithful(s.phase.docs, s.coll[id]) || Unread(s, s.phase.docs, s.coll[id])
          || (id in s.phase.written && SafeEitherWay(p, s, s.phase.docs, s.coll[id])))
  }

  ghost predicate GoodStore(p: Pipe, s: State) {
    s.phase.Stored? ==>
      && (forall d :: d in s.phase.docs ==> RealDoc(p.cfg, d))
      && (forall id :: id in s.coll && Tracked(p.cfg, s.coll[id]) ==>
          || Settled(Contents(s.objects), s.coll[id])
          || (id in s.phase.written && SafeEitherWay(p, s, s.phase.docs, s.coll[id])))
  }

  /** After a commit only what was written since the run began can be unsettled. */
  ghost predicate GoodCommit(p: Pipe, s: State) {
    s.phase.Committed? ==>
      forall id :: id in s.coll && Tracked(p.cfg, s.coll[id]) ==>
        Settled(Contents(s.objects), s.coll[id]) || id in s.phase.written
  }

  ghost predicate Inv(p: Pipe, s: State) {
    && GoodColl(p.cfg, s.coll) && Ordered(p, s) && GoodMark(p, s) && NoLoss(p, s)
    && GoodScan(p, s) && GoodSpool(p, s) && GoodStore(p, s) && GoodCommit(p, s)
  }

  // ---- Lemmas about one document ----

  lemma {:induction false} RecentReaches(cfg: Config, w: string, d: Doc)
    requires BuildFilter(cfg, Some(w)).Ok? && RealDoc(cfg, d) && Tracked(cfg, d) && Recent(cfg, w, d)
    ensures Reaches(cfg, Some(w), d)
  {
    ReachesIffRecent(cfg, w, d);
  }

  /** The position a run is about to commit can be turned into a filter again. */
  lemma {:induction false} NewMarkIsUsable(p: Pipe, docs: seq<Doc>)
    requires 0 <= p.cfg.overlap && forall d :: d in docs ==> RealDoc(p.cfg, d)
    ensures NewMark(p, docs).Some? ==> BuildFilter(p.cfg, NewMark(p, docs)).Ok?
  {
    var mode, s := p.cfg.mode, ObservedAll(p.cfg.mode, NOTHING, docs);
    ObservedIsMaximum(mode, docs);
    if mode.AppendOnly? && s.maxId.Some? {
      var i :| 0 <= i < |docs| && docs[i].id == s.maxId.value;
      assert docs[i] in docs;
      RebuiltBound(p.cfg, s);
    } else if mode.Mutable? && s.maxVal.Some? {
      var i :| 0 <= i < |docs| && docs[i].field == s.maxVal;
      assert docs[i] in docs;
      RebuiltBound(p.cfg, s);
    }
  }

  lemma {:induction false} InTimeReaches(p: Pipe, w: Option<string>, d: Doc)
    requires w.Some? ==> BuildFilter(p.cfg, w).Ok?
    requires RealDoc(p.cfg, d) && Tracked(p.cfg, d) && InTime(p.cfg, w, d)
    ensures Reaches(p.cfg, w, d)
  {
    if w.Some? {
      RecentReaches(p.cfg, w.value, d);
    }
  }

  // ---- Each step keeps the invariant ----

  /** A version written in time is safe: the next run will ask for it, whatever gets committed. */
  lemma {:induction false} WrittenIsSafe(p: Pipe, s: State, d: Doc)
    requires 0 <= p.cfg.overlap && Inv(p, s) && Enabled(p, s, Write(d)) && Tracked(p.cfg, d)
    ensures Reaches(p.cfg, StoredMark(s), d)
    ensures s.phase.Spooled? || s.phase.Stored? ==> SafeEitherWay(p, s, s.phase.docs, d)
  {
    hide Tracked, Recent, Reaches, NewMark, RealDoc, StartFilter;
    InTimeReaches(p, StoredMark(s), d);
    if s.phase.Spooled? || s.phase.Stored? {
      NewMarkIsUsable(p, s.phase.docs);
      InTimeReaches(p, NewMark(p, s.phase.docs), d);
    }
  }

  /** `t` is `s` after a write of `d`. */
  ghost predicate Wrote(p: Pipe, s: State, d: Doc, t: State) {
    && t == s.(coll := s.coll[d.id := d], phase := Touch(s.phase, d.id))
    && RealDoc(p.cfg, d)
    && (Tracked(p.cfg, d) ==> Reaches(p.cfg, StoredMark(s), d))
    && (Tracked(p.cfg, d) && (s.phase.Spooled? || s.phase.Stored?) ==> SafeEitherWay(p, s, s.phase.docs, d))
  }

  lemma {:induction false} WriteKeepsBasics(p: Pipe, s: State, d: Doc, t: State)
    requires Wrote(p, s, d, t) && GoodColl(p.cfg, s.coll) && Ordered(p, s) && GoodMark(p, s) && NoLoss(p, s)
    ensures GoodColl(p.cfg, t.coll) && Ordered(p, t) && GoodMark(p, t) && NoLoss(p, t)
  {
    hide Tracked, Reaches, Settled, KeyUpTo, RealDoc, Contents, BuildFilter;
  }

  lemma {:induction false} WriteKeepsScan(p: Pipe, s: State, d: Doc, t: State)
    requires Wrote(p, s, d, t) && GoodScan(p, s)
    ensures GoodScan(p, t)
  {
    hide Tracked, Reaches, Settled, RealDoc, Matches, StartFilter, SafeEitherWay;
  }

  lemma {:induction false} WriteKeepsSpool(p: Pipe, s: State, d: Doc, t: State)
    requires Wrote(p, s, d, t) && GoodSpool(p, s)
    ensures GoodSpool(p, t)
  {
    hide Tracked, Reaches, Settled, RealDoc, Faithful, Mentions, NewMark, Contents;
    if t.phase.Spooled? {
      forall id | id in t.coll && Tracked(p.cfg, t.coll[id])
        ensures Faithful(t.phase.docs, t.coll[id]) || Unread(t, t.phase.docs, t.coll[id])
                || (id in t.phase.written && SafeEitherWay(p, t, t.phase.docs, t.coll[id]))
      {
        assert id != d.id ==> id in s.coll && t.coll[id] == s.coll[id];
      }
    }
  }

  lemma {:induction false} WriteKeepsStore(p: Pipe, s: State, d: Doc, t: State)
    requires Wrote(p, s, d, t) && GoodStore(p, s) && GoodCommit(p, s)
    ensures GoodStore(p, t) && GoodCommit(p, t)
  {
    hide Tracked, Reaches, Settled, RealDoc, NewMark, Contents;
    assert forall id :: id in t.coll && id != d.id ==> id in s.coll && t.coll[id] == s.coll[id];
  }

  lemma {:induction false} WriteKeeps(p: Pipe, s: State, d: Doc)
    requires 0 <= p.cfg.overlap && Inv(p, s) && Enabled(p, s, Write(d))
    ensures Inv(p, Apply(p, s, Write(d)))
  {
    var t := Apply(p, s, Write(d));
    if Tracked(p.cfg, d) {
      WrittenIsSafe(p, s, d);
    }
    hide Tracked, Recent, Reaches, SafeEitherWay, NewMark, RealDoc, NoLoss, GoodColl, Ordered, GoodMark, GoodScan,
      GoodSpool, GoodStore, GoodCommit;
    assert Wrote(p, s, d, t);
    WriteKeepsBasics(p, s, d, t);
    WriteKeepsScan(p, s, d, t);
    WriteKeepsSpool(p, s, d, t);
    WriteKeepsStore(p, s, d, t);
  }

  lemma {:induction false} KeysStayOld(p: Pipe, b: Bucket<Row>, second: int, later: int)
    requires KeysUpTo(p, b, second) && second <= later
    ensures KeysUpTo(p, b, later)
  {
    forall i | 0 <= i < |b|
      ensures KeyUpTo(p, b[i].key, later)
    {
      assert KeyUpTo(p, b[i].key, second);
    }
  }

  lemma {:induction false} BeginKeeps(p: Pipe, s: State, run: Instant)
    requires Inv(p, s) && Enabled(p, s, Begin(run))
    ensures Inv(p, Apply(p, s, Begin(run)))
  {
    hide Tracked, Reaches, Settled, KeyAt, RealDoc, StartFilter, Contents, Matches, KeysUpTo;
    var t := Apply(p, s, Begin(run));
    KeysStayOld(p, s.objects, s.lastSecond, t.lastSecond - 1);
    assert Ordered(p, t);
    assert GoodScan(p, t);
  }

  lemma {:induction false} FetchKeeps(p: Pipe, s: State, id: ObjectId)
    requires Inv(p, s) && Enabled(p, s, Fetch(id))
    ensures Inv(p, Apply(p, s, Fetch(id)))
  {
    hide Tracked, Reaches, Settled, KeyAt, RealDoc, StartFilter, Contents, Matches, KeysUpTo;
    var t := Apply(p, s, Fetch(id));
    assert forall d :: d in t.phase.docs ==> d in s.phase.docs || d == s.coll[id];
    assert GoodScan(p, t);
  }

  /** What a finished scan has left open for one document. */
  lemma {:induction false} ScanCovers(p: Pipe, s: State, id: ObjectId)
    requires 0 <= p.cfg.overlap && Inv(p, s) && Enabled(p, s, EndScan)
    requires id in s.coll && Tracked(p.cfg, s.coll[id])
    ensures var d, docs := s.coll[id], s.phase.docs;
      Faithful(docs, d) || Unread(s, docs, d) || (id in s.phase.written && SafeEitherWay(p, s, docs, d))
  {
    var d, docs := s.coll[id], s.phase.docs;
    if id in s.phase.written {
      if !Faithful(docs, d) {
        NewMarkIsUsable(p, docs);
        InTimeReaches(p, NewMark(p, docs), d);
      }
    } else if Matches(s.phase.filter, d) {
      assert id in s.phase.found;
      var e :| e in docs && e.id == id;
      assert e == d;
    } else {
      assert !Reaches(p.cfg, StoredMark(s), d);
    }
  }

  lemma {:induction false} EndScanKeeps(p: Pipe, s: State)
    requires 0 <= p.cfg.overlap && Inv(p, s) && Enabled(p, s, EndScan)
    ensures Inv(p, Apply(p, s, EndScan))
  {
    hide Tracked, Reaches, Settled, Faithful, KeyAt, RealDoc, StartFilter, Contents, Matches, KeysUpTo, NewMark;
    var t := Apply(p, s, EndScan);
    if t.phase.Spooled? {
      forall id | id in s.coll && Tracked(p.cfg, s.coll[id])
        ensures var d, docs := s.coll[id], s.phase.docs;
          Faithful(docs, d) || Unread(s, docs, d) || (id in s.phase.written && SafeEitherWay(p, s, docs, d))
      {
        ScanCovers(p, s, id);
      }
      assert GoodSpool(p, t);
    } else {
      KeysStayOld(p, s.objects, s.lastSecond - 1, s.lastSecond);
    }
  }

  /** A run's key is new, so its upload replaces nothing. */
  lemma {:induction false} UploadIsNew(p: Pipe, s: State, rows: seq<Row>)
    requires Ordered(p, s) && s.phase.Spooled?
    ensures var b := Put(s.objects, KeyAt(p, s.phase.run), rows);
      && b == s.objects + [Object(KeyAt(p, s.phase.run), rows)]
      && Contents(b) == Contents(s.objects) + rows
  {
    hide Contents, Put, MongoKey;
    var key := KeyAt(p, s.phase.run);
    forall i | 0 <= i < |s.objects|
      ensures s.objects[i].key != key
    {
      assert KeyUpTo(p, s.objects[i].key, s.lastSecond - 1);
      var t: Instant :| t / SECOND <= s.lastSecond - 1 && s.objects[i].key == KeyAt(p, t);
      MongoKeyInjective(p.prefix, p.db, p.cfg.name, t, p.cfg.name, s.phase.run);
    }
    PutFresh(s.objects, key, rows);
  }

  /** The upload settles what was read and unsettles nothing. */
  lemma {:induction false} UploadSettles(p: Pipe, s: State, d: Doc)
    requires Ordered(p, s) && s.phase.Spooled?
    requires Faithful(s.phase.docs, d) || Unread(s, s.phase.docs, d)
    ensures Settled(Contents(s.objects) + RowsOf(p.cfg.mode, s.phase.run, s.phase.docs), d)
  {
    hide Settled, RowsOf, KeysUpTo;
    if Faithful(s.phase.docs, d) {
      LandingSettles(Contents(s.objects), p.cfg.mode, s.phase.run, s.phase.docs, d);
    } else {
      LandingKeepsOthers(Contents(s.objects), p.cfg.mode, s.phase.run, s.phase.docs, d);
    }
  }

  lemma {:induction false} UploadOrders(p: Pipe, s: State, rows: seq<Row>)
    requires Ordered(p, s) && s.phase.Spooled?
    requires forall i :: 0 <= i < |rows| ==> rows[i].extractedAt == s.phase.run
    ensures var b := Put(s.objects, KeyAt(p, s.phase.run), rows);
      KeysUpTo(p, b, s.lastSecond) && ExtractedBefore(Contents(b), s.lastSecond + 1)
  {
    hide Contents, Put, MongoKey;
    UploadIsNew(p, s, rows);
    var b := Put(s.objects, KeyAt(p, s.phase.run), rows);
    KeysStayOld(p, s.objects, s.lastSecond - 1, s.lastSecond);
    forall i | 0 <= i < |b|
      ensures KeyUpTo(p, b[i].key, s.lastSecond)
    {
      if i < |s.objects| {
        assert b[i] == s.objects[i];
      } else {
        assert b[i].key == KeyAt(p, s.phase.run);
      }
    }
  }

  lemma {:induction false} UploadKeeps(p: Pipe, s: State, o: Outcome)
    requires Inv(p, s) && Enabled(p, s, Upload(o))
    ensures Inv(p, Apply(p, s, Upload(o)))
  {
    hide Tracked, Reaches, Settled, Faithful, KeyAt, RealDoc, StartFilter, Contents, Matches, KeysUpTo, NewMark, Put,
      RowsOf, ExtractedBefore;
    var t := Apply(p, s, Upload(o));
    if o.Invisible? {
      KeysStayOld(p, s.objects, s.lastSecond - 1, s.lastSecond);
      LaterBound(Contents(s.objects), s.lastSecond, s.lastSecond + 1);
    } else {
      var rows := RowsOf(p.cfg.mode, s.phase.run, s.phase.docs);
      UploadIsNew(p, s, rows);
      UploadOrders(p, s, rows);
      forall id | id in s.coll && Tracked(p.cfg, s.coll[id])
        ensures || Settled(Contents(t.objects), s.coll[id])
                || (id in s.phase.written && SafeEitherWay(p, s, s.phase.docs, s.coll[id]))
      {
        if Faithful(s.phase.docs, s.coll[id]) || Unread(s, s.phase.docs, s.coll[id]) {
          UploadSettles(p, s, s.coll[id]);
        }
      }
      assert NoLoss(p, t);
      assert GoodStore(p, t);
    }
  }

  lemma {:induction false} LaterBound(rows: seq<Row>, second: int, later: int)
    requires ExtractedBefore(rows, second) && second <= later
    ensures ExtractedBefore(rows, later)
  {}

  lemma {:induction false} CommitKeeps(p: Pipe, s: State)
    requires 0 <= p.cfg.overlap && Inv(p, s) && Enabled(p, s, Commit)
    ensures Inv(p, Apply(p, s, Commit))
  {
    hide Tracked, Settled, Faithful, KeyAt, RealDoc, StartFilter, Contents, Matches, KeysUpTo, NewMark, ExtractedBefore,
      BuildFilter;
    NewMarkIsUsable(p, s.phase.docs);
    var t := Apply(p, s, Commit);
    assert GoodMark(p, t);
    assert NoLoss(p, t);
  }

  lemma {:induction false} IdleKeeps(p: Pipe, s: State)
    requires Inv(p, s)
    ensures Inv(p, s.(phase := Idle))
  {
    hide Tracked, Reaches, Settled, KeyAt, Contents, KeysUpTo, ExtractedBefore, RealDoc;
    if s.phase.Scanning? || s.phase.Spooled? {
      KeysStayOld(p, s.objects, s.lastSecond - 1, s.lastSecond);
      LaterBound(Contents(s.objects), s.lastSecond, s.lastSecond + 1);
    }
  }

  lemma {:induction false} StepKeeps(p: Pipe, s: State, a: Action)
    requires 0 <= p.cfg.overlap && Inv(p, s) && Enabled(p, s, a)
    ensures Inv(p, Apply(p, s, a))
  {
    hide Inv;
    match a {
      case Write(d) => WriteKeeps(p, s, d);
      case Begin(run) => BeginKeeps(p, s, run);
      case Fetch(id) => FetchKeeps(p, s, id);
      case EndScan => EndScanKeeps(p, s);
      case Upload(o) => UploadKeeps(p, s, o);
      case Commit => CommitKeeps(p, s);
      case CleanUp => IdleKeeps(p, s);
      case Abandon => IdleKeeps(p, s);
    }
  }

  lemma {:induction false} RunsKeep(p: Pipe, s: State, steps: seq<Action>)
    requires 0 <= p.cfg.overlap && Inv(p, s) && Legal(p, s, steps)
    ensures Inv(p, Exec(p, s, steps))
    decreases |steps|
  {
    hide Inv, Enabled, Apply;
    if steps != [] {
      StepKeeps(p, s, steps[0]);
      RunsKeep(p, Apply(p, s, steps[0]), steps[1..]);
    }
  }

  lemma {:induction false} EmptyIsGood(p: Pipe)
    ensures Inv(p, Empty())
  {}
}
