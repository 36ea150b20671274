/** The durable watermark over runs: it never falls without deletes, and never by more than the overlap. */
module MongoProgress {
  import opened Wrappers
  import opened Strings
  import opened Calendar
  import opened ObjectIds
  import opened Timestamps
  import opened Watermarks
  import opened Landing
  import opened S3
  import opened MongoMachine

  /** The position stored as `w` is not after that stored as `v`. */
  ghost predicate NotAfter(cfg: Config, w: string, v: string) {
    match cfg.mode
    case AppendOnly => FromHex(w).Some? && FromHex(v).Some? && !IdLess(FromHex(v).value, FromHex(w).value)
    case Mutable => ParseTs(w).Some? && ParseTs(v).Some? && ParseTs(w).value <= ParseTs(v).value
    case FullRefresh => false
  }

  /** The document is at position `w` or beyond. */
  ghost predicate Reached(cfg: Config, w: string, d: Doc) {
    match cfg.mode
    case AppendOnly => FromHex(w).Some? && !IdLess(d.id, FromHex(w).value)
    case Mutable => ParseTs(w).Some? && d.field.Some? && ParseTs(w).value <= d.field.value
    case FullRefresh => false
  }

  lemma {:induction false} ParsedIsWholeMs(w: string)
    requires ParseTs(w).Some?
    ensures FloorMs(ParseTs(w).value) == ParseTs(w).value
  {
    hide Number;
    var f := ReadFields(w);
    CutIsFloor(f);
    DivOfSum(Number(w[20..23]), 0, MS);
    assert Timestamps.Cut(f) == f;
  }

  lemma {:induction false} FloorMsMonotone(t: int, u: int)
    requires t <= u
    ensures FloorMs(t) <= FloorMs(u)
  {}

  /** A run that observed a document at `w` or beyond moves the watermark to `w` or beyond. */
  lemma {:induction false} ObservingReaches(cfg: Config, w: string, docs: seq<Doc>, d: Doc)
    requires d in docs && Reached(cfg, w, d)
    ensures var v := NewWatermark(cfg.mode, ObservedAll(cfg.mode, NOTHING, docs)); v.Some? && NotAfter(cfg, w, v.value)
  {
    hide Hex, FromHex, FormatTs, ParseTs, FloorMs;
    var s := ObservedAll(cfg.mode, NOTHING, docs);
    ObservedIsMaximum(cfg.mode, docs);
    var i :| 0 <= i < |docs| && docs[i] == d;
    if cfg.mode.AppendOnly? {
      HexRoundTrip(s.maxId.value);
      assert !IdLess(s.maxId.value, docs[i].id);
    } else {
      assert s.maxVal.Some? && docs[i].field.value <= s.maxVal.value;
      ParseInvertsFormat(s.maxVal.value);
      ParsedIsWholeMs(w);
      FloorMsMonotone(ParseTs(w).value, s.maxVal.value);
    }
  }

  // ---- One run, whatever was deleted ----

  /** Everything a filter lets through is within the overlap, so a run's new watermark lies at most the
      overlap below the old one, to the second for ids. */
  lemma {:induction false} DropsAtMostOverlap(cfg: Config, w: string, docs: seq<Doc>)
    requires !cfg.mode.FullRefresh? && docs != []
    requires var f := BuildFilter(cfg, Some(w)); f.Ok? && forall d :: d in docs ==> Matches(f.value, d)
    ensures var v := NewWatermark(cfg.mode, ObservedAll(cfg.mode, NOTHING, docs));
      && v.Some?
      && (cfg.mode.AppendOnly? ==>
            FromHex(v.value).Some? && FromHex(w).value.second - cfg.overlap <= FromHex(v.value).value.second)
      && (cfg.mode.Mutable? ==>
            ParseTs(v.value).Some? && ParseTs(w).value - cfg.overlap * SECOND <= ParseTs(v.value).value)
  {
    hide Hex, FromHex, FormatTs, ParseTs, FloorMs;
    var s := ObservedAll(cfg.mode, NOTHING, docs);
    ObservedIsMaximum(cfg.mode, docs);
    assert docs[0] in docs;
    if cfg.mode.AppendOnly? {
      HexRoundTrip(s.maxId.value);
      assert !IdLess(s.maxId.value, docs[0].id);
    } else {
      assert s.maxVal.Some? && docs[0].field.value <= s.maxVal.value;
      ParseInvertsFormat(s.maxVal.value);
      ParsedIsWholeMs(w);
      WholeMsBelow(ParseTs(w).value, cfg.overlap, s.maxVal.value);
    }
  }

  lemma {:induction false} WholeMsBelow(w: int, overlap: int, t: int)
    requires FloorMs(w) == w && w - overlap * SECOND <= t
    ensures w - overlap * SECOND <= FloorMs(t)
  {
    var lb := w - overlap * SECOND;
    assert lb == (w / MS - overlap * 1000) * MS;
    DivOfSum(w / MS - overlap * 1000, 0, MS);
    FloorMsMonotone(lb, t);
  }

  /** Without deletes the position holder is still there; it is read again, or it sits exactly on the
      strict bound (overlap 0, all-zero suffix) and everything read lies beyond it. */
  lemma {:induction false} NoDeletesNoFall(cfg: Config, w: string, coll: set<Doc>, docs: seq<Doc>)
    requires !cfg.mode.FullRefresh? && 0 <= cfg.overlap && docs != []
    requires BuildFilter(cfg, Some(w)).Ok?
    requires forall d :: d in docs ==> Matches(BuildFilter(cfg, Some(w)).value, d)
    requires forall d :: d in coll && Matches(BuildFilter(cfg, Some(w)).value, d) ==> d in docs
    requires exists d :: d in coll && Reached(cfg, w, d)
    ensures var v := NewWatermark(cfg.mode, ObservedAll(cfg.mode, NOTHING, docs)); v.Some? && NotAfter(cfg, w, v.value)
  {
    hide Hex, FromHex, FormatTs, ParseTs;
    var d :| d in coll && Reached(cfg, w, d);
    if Matches(BuildFilter(cfg, Some(w)).value, d) {
      ObservingReaches(cfg, w, docs, d);
    } else {
      assert docs[0] in docs && Reached(cfg, w, docs[0]);
      ObservingReaches(cfg, w, docs, docs[0]);
    }
  }

  // ---- All runs of the machine ----

  /** The cursor returned every document that matched when it was opened, in some version; for
      append-only collections every finished scan has this property. */
  ghost predicate Thorough(p: Pipe, s: State, a: Action) {
    s.phase.Scanning? && a.EndScan? && p.cfg.mode.Mutable? ==>
      forall id :: id in s.phase.found ==> Mentions(s.phase.docs, id)
  }

  ghost predicate NotYounger(cfg: Config, e: Doc, d: Doc) {
    cfg.mode.Mutable? && e.field.Some? ==> d.field.Some? && e.field.value <= d.field.value
  }

  /** Some document still stands at the durable position; during a scan it is one the cursor has to
      return and has not returned in an older version. */
  ghost predicate Held(p: Pipe, s: State) {
    && (s.wm.Some? ==> exists h :: h in s.coll && Reached(p.cfg, s.wm.value.value, s.coll[h]))
    && (s.phase.Scanning? && s.wm.Some? ==> exists h :: HolderInScan(p, s, h))
    && (s.phase.Scanning? ==> s.phase.found <= s.coll.Keys)
    && (s.phase.Scanning? && p.cfg.mode.AppendOnly? ==> s.phase.found !! s.phase.written)
    && (forall e :: (s.phase.Scanning? || s.phase.Spooled? || s.phase.Stored?) && e in s.phase.docs ==>
          e.id in s.coll && NotYounger(p.cfg, e, s.coll[e.id]))
    && ((s.phase.Spooled? || s.phase.Stored?) && s.wm.Some? ==>
          NewMark(p, s.phase.docs).Some?
          && NotAfter(p.cfg, s.wm.value.value, NewMark(p, s.phase.docs).value))
  }

  ghost predicate HolderInScan(p: Pipe, s: State, h: ObjectId)
    requires s.phase.Scanning? && s.wm.Some?
  {
    && h in s.phase.found && h in s.coll && Reached(p.cfg, s.wm.value.value, s.coll[h])
    && (forall e :: e in s.phase.docs && e.id == h ==> Reached(p.cfg, s.wm.value.value, e))
  }

  ghost predicate Advanced(p: Pipe, s: State, t: State) {
    s.wm.Some? ==> t.wm.Some? && NotAfter(p.cfg, s.wm.value.value, t.wm.value.value)
  }

  lemma {:induction false} ReachedLater(cfg: Config, w: string, e: Doc, d: Doc)
    requires Reached(cfg, w, e) && e.id == d.id && NotYounger(cfg, e, d)
    ensures Reached(cfg, w, d)
  {}

  lemma {:induction false} WriteHolds(p: Pipe, s: State, d: Doc)
    requires Inv(p, s) && Held(p, s) && Enabled(p, s, Write(d))
    ensures Held(p, Apply(p, s, Write(d)))
  {
    hide Tracked, Recent, Reaches, Settled, Faithful, Mentions, NewMark, KeyAt, StartFilter, Contents, Matches, Reached,
      NotAfter, InTime, RealDoc, Ordered, NoLoss, GoodSpool, GoodStore, GoodCommit;
    var t := Apply(p, s, Write(d));
    if d.id in s.coll {
      assert NotYounger(p.cfg, s.coll[d.id], d);
    }
    assert forall id :: id in s.coll ==> t.coll[id].id == id && NotYounger(p.cfg, s.coll[id], t.coll[id]);
    forall e | (s.phase.Scanning? || s.phase.Spooled? || s.phase.Stored?) && e in s.phase.docs
      ensures e.id in t.coll && NotYounger(p.cfg, e, t.coll[e.id])
    {
      assert NotYounger(p.cfg, e, s.coll[e.id]) && NotYounger(p.cfg, s.coll[e.id], t.coll[e.id]);
    }
    if s.wm.Some? {
      var h :| h in s.coll && Reached(p.cfg, s.wm.value.value, s.coll[h]);
      ReachedLater(p.cfg, s.wm.value.value, s.coll[h], t.coll[h]);
      if s.phase.Scanning? {
        var k :| HolderInScan(p, s, k);
        ReachedLater(p.cfg, s.wm.value.value, s.coll[k], t.coll[k]);
        assert HolderInScan(p, t, k);
      }
    }
  }

  /** The holder of the position matches the filter built from it. */
  lemma {:induction false} HolderMatches(cfg: Config, w: string, d: Doc)
    requires 0 <= cfg.overlap && BuildFilter(cfg, Some(w)).Ok? && RealDoc(cfg, d) && Reached(cfg, w, d)
    ensures Matches(BuildFilter(cfg, Some(w)).value, d)
  {
    hide FromHex, ParseTs;
  }

  lemma {:induction false} BeginHolds(p: Pipe, s: State, run: Instant)
    requires 0 <= p.cfg.overlap && Inv(p, s) && Held(p, s) && Enabled(p, s, Begin(run))
    ensures Held(p, Apply(p, s, Begin(run)))
  {
    hide Tracked, Recent, Reaches, Settled, Contents, Matches, Reached, BuildFilter, KeyAt, RealDoc;
    var t := Apply(p, s, Begin(run));
    if s.wm.Some? {
      var h :| h in s.coll && Reached(p.cfg, s.wm.value.value, s.coll[h]);
      HolderMatches(p.cfg, s.wm.value.value, s.coll[h]);
      assert HolderInScan(p, t, h);
    }
  }

  lemma {:induction false} FetchHolds(p: Pipe, s: State, id: ObjectId)
    requires Inv(p, s) && Held(p, s) && Enabled(p, s, Fetch(id))
    ensures Held(p, Apply(p, s, Fetch(id)))
  {
    hide Tracked, Recent, Reaches, Settled, Contents, Matches, Reached, KeyAt, RealDoc, StartFilter, NewMark;
    var t := Apply(p, s, Fetch(id));
    if s.wm.Some? {
      var h :| HolderInScan(p, s, h);
      assert HolderInScan(p, t, h);
    }
  }

  lemma {:induction false} EndScanHolds(p: Pipe, s: State)
    requires Inv(p, s) && Held(p, s) && Enabled(p, s, EndScan) && Thorough(p, s, EndScan)
    ensures Held(p, Apply(p, s, EndScan))
  {
    hide Tracked, Recent, Reaches, Settled, Contents, Matches, Reached, KeyAt, RealDoc, StartFilter, ObservedAll,
      NewWatermark, NotAfter, Faithful, InTime;
    if s.wm.Some? {
      var h :| HolderInScan(p, s, h);
      ModeNotFull(p, s, h);
      assert Mentions(s.phase.docs, h);
      var e :| e in s.phase.docs && e.id == h;
      ObservingReaches(p.cfg, s.wm.value.value, s.phase.docs, e);
    }
  }

  lemma {:induction false} ModeNotFull(p: Pipe, s: State, h: ObjectId)
    requires s.phase.Scanning? && s.wm.Some? && HolderInScan(p, s, h)
    ensures !p.cfg.mode.FullRefresh?
  {}

  /** What a commit stores becomes the position some document stands at. */
  lemma {:induction false} CommitHolds(p: Pipe, s: State)
    requires Inv(p, s) && Held(p, s) && Enabled(p, s, Commit)
    ensures Held(p, Apply(p, s, Commit)) && Advanced(p, s, Apply(p, s, Commit))
  {
    hide Tracked, Recent, Reaches, Settled, Contents, Matches, KeyAt, RealDoc, StartFilter, Hex, FromHex, FormatTs,
      ParseTs, FloorMs;
    var docs := s.phase.docs;
    var seen := ObservedAll(p.cfg.mode, NOTHING, docs);
    var t := Apply(p, s, Commit);
    if NewMark(p, docs).Some? {
      ObservedIsMaximum(p.cfg.mode, docs);
      if p.cfg.mode.AppendOnly? {
        var i :| 0 <= i < |docs| && docs[i].id == seen.maxId.value;
        HexRoundTrip(seen.maxId.value);
        assert docs[i] in docs && Reached(p.cfg, t.wm.value.value, s.coll[docs[i].id]);
      } else {
        var i :| 0 <= i < |docs| && docs[i].field == seen.maxVal;
        ParseInvertsFormat(seen.maxVal.value);
        FloorIsBelow(seen.maxVal.value);
        assert docs[i] in docs && Reached(p.cfg, t.wm.value.value, s.coll[docs[i].id]);
      }
    }
  }

  lemma {:induction false} FloorIsBelow(t: int)
    ensures FloorMs(t) <= t
  {}

  lemma {:induction false} StepAdvances(p: Pipe, s: State, a: Action)
    requires 0 <= p.cfg.overlap && Inv(p, s) && Held(p, s) && Enabled(p, s, a) && Thorough(p, s, a)
    ensures var t := Apply(p, s, a); Held(p, t) && (a.Commit? || t.wm == s.wm) && (a.Commit? ==> Advanced(p, s, t))
  {
    hide Inv, Tracked, Settled, Contents, KeyAt, StartFilter, NewMark, Mentions, Faithful, InTime, LegalWrite, RowsOf,
      Reached, NotAfter;
    match a {
      case Write(d) => WriteHolds(p, s, d);
      case Begin(run) => BeginHolds(p, s, run);
      case Fetch(id) => FetchHolds(p, s, id);
      case EndScan => EndScanHolds(p, s);
      case Commit => CommitHolds(p, s);
      case _ =>
    }
  }

  ghost predicate AllThorough(p: Pipe, s: State, steps: seq<Action>)
    requires Legal(p, s, steps)
    decreases |steps|
  {
    steps == [] || (Thorough(p, s, steps[0]) && AllThorough(p, Apply(p, s, steps[0]), steps[1..]))
  }

  lemma {:induction false} NotAfterTransitive(cfg: Config, u: string, v: string, w: string)
    requires NotAfter(cfg, u, v) && NotAfter(cfg, v, w)
    ensures NotAfter(cfg, u, w)
  {}

  /** Over any run of the machine, with concurrent writes, crashes and failed uploads anywhere, the
      durable watermark never moves back. */
  lemma {:induction false} WatermarkNeverFalls(p: Pipe, s: State, steps: seq<Action>)
    requires 0 <= p.cfg.overlap && Inv(p, s) && Held(p, s) && Legal(p, s, steps) && AllThorough(p, s, steps)
    ensures Held(p, Exec(p, s, steps))
    ensures Exec(p, s, steps).wm == s.wm || Advanced(p, s, Exec(p, s, steps))
    decreases |steps|
  {
    hide Inv, Held, Enabled, Apply, Thorough, NotAfter;
    if steps != [] {
      var t := Apply(p, s, steps[0]);
      StepKeeps(p, s, steps[0]);
      StepAdvances(p, s, steps[0]);
      WatermarkNeverFalls(p, t, steps[1..]);
      var u := Exec(p, t, steps[1..]);
      if s.wm.Some? && t.wm.Some? && u.wm.Some? && t.wm != s.wm && u.wm != t.wm {
        NotAfterTransitive(p.cfg, s.wm.value.value, t.wm.value.value, u.wm.value.value);
      }
    }
  }

  lemma {:induction false} EmptyIsHeld(p: Pipe)
    ensures Held(p, Empty())
  {}

  /** Between any two moments of any history, the durable watermark stays or moves forward. */
  lemma {:induction false} WatermarkIsMonotone(p: Pipe, before: seq<Action>, between: seq<Action>)
    requires 0 <= p.cfg.overlap && Legal(p, Empty(), before) && AllThorough(p, Empty(), before)
    requires var s := Exec(p, Empty(), before); Legal(p, s, between) && AllThorough(p, s, between)
    ensures var s := Exec(p, Empty(), before);
      Exec(p, s, between).wm == s.wm || Advanced(p, s, Exec(p, s, between))
  {
    hide Inv, Held, Legal, Exec, AllThorough, Advanced;
    EmptyIsGood(p);
    EmptyIsHeld(p);
    RunsKeep(p, Empty(), before);
    WatermarkNeverFalls(p, Empty(), before);
    WatermarkNeverFalls(p, Exec(p, Empty(), before), between);
  }
}
