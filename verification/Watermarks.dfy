/** `mongo/watermark.py`: how a collection's replication position is filtered on, observed and advanced. */
module Watermarks {
  import opened Wrappers
  import Calendar
  import opened Strings
  import opened ObjectIds
  import opened Timestamps

  datatype Mode = AppendOnly | Mutable | FullRefresh

  datatype Config = Config(name: string, mode: Mode, overlap: int, batchSize: int,
                           initial: Option<string>, allowChunks: bool)

  /** A document: its `_id`, the configured watermark field if it holds a datetime, and the rest. */
  datatype Doc = Doc(id: ObjectId, field: Option<Instant>, payload: string)

  /** A stored watermark, as `StateStore` returns it. */
  datatype Watermark = Watermark(kind: string, value: string)

  /** The find() filters the strategies build: `{}`, `{"_id": {"$gt": …}}` and `{field: {"$gte": …}}`. */
  datatype Filter = Everything | IdAfter(id: ObjectId) | FieldFrom(instant: int)

  predicate Matches(f: Filter, d: Doc) {
    match f
    case Everything => true
    case IdAfter(b) => IdLess(b, d.id)
    case FieldFrom(b) => d.field.Some? && b <= d.field.value
  }

  function Kind(mode: Mode): string {
    match mode
    case AppendOnly => "objectid"
    case Mutable => "timestamp"
    case FullRefresh => "full_refresh"
  }

  /** `build_filter`. A bound that cannot be parsed, or that the overlap pushes out of range, raises. */
  function BuildFilter(cfg: Config, previous: Option<string>): Result<Filter> {
    if cfg.mode.FullRefresh? || (previous.None? && cfg.initial.None?) then Ok(Everything)
    else
      var bound := if previous.Some? then previous.value else cfg.initial.value;
      if cfg.mode.AppendOnly? then
        var oid := FromHex(bound);
        if oid.None? then Err(BadWatermark)
        else
          var lb := oid.value.second - cfg.overlap;
          if 0 <= lb < SECONDS then Ok(IdAfter(RawId(lb, 0))) else Err(OutOfRange)
      else
        var ts := ParseTs(bound);
        if ts.None? then Err(BadWatermark)
        else
          var lb := ts.value - cfg.overlap * SECOND;
          if 0 <= lb < 3_652_059 * Calendar.DAY then Ok(FieldFrom(lb)) else Err(OutOfRange)
  }

  /** The running maxima `_max_id` and `_max_val`. */
  datatype Seen = Seen(maxId: Option<ObjectId>, maxVal: Option<Instant>)

  const NOTHING := Seen(None, None)

  /** `observe` on one document. */
  function Observed(mode: Mode, s: Seen, d: Doc): Seen {
    match mode
    case AppendOnly =>
      if s.maxId.None? || IdLess(s.maxId.value, d.id) then s.(maxId := Some(d.id)) else s
    case Mutable =>
      if d.field.Some? && (s.maxVal.None? || s.maxVal.value < d.field.value) then s.(maxVal := d.field) else s
    case FullRefresh => s
  }

  function ObservedAll(mode: Mode, s: Seen, docs: seq<Doc>): Seen {
    if docs == [] then s else Observed(mode, ObservedAll(mode, s, docs[..|docs| - 1]), docs[|docs| - 1])
  }

  /** `new_watermark` */
  function NewWatermark(mode: Mode, s: Seen): Option<string> {
    match mode
    case AppendOnly => if s.maxId.Some? then Some(Hex(s.maxId.value)) else None
    case Mutable => if s.maxVal.Some? then Some(FormatTs(s.maxVal.value)) else None
    case FullRefresh => None
  }

  /** `watermark_column_value` */
  function WatermarkColumn(mode: Mode, d: Doc): string {
    match mode
    case AppendOnly => Hex(d.id)
    case Mutable => if d.field.Some? then FormatTs(d.field.value) else ""
    case FullRefresh => ""
  }

  /** The three strategy classes share an abstract base; here the mode selects among them. */
  class Strategy {
    const cfg: Config
    var maxId: Option<ObjectId>
    var maxVal: Option<Instant>

    constructor (cfg: Config)
      ensures this.cfg == cfg && Observations() == NOTHING
    {
      this.cfg := cfg;
      maxId, maxVal := None, None;
    }

    function Observations(): Seen
      reads this
    {
      Seen(maxId, maxVal)
    }

    method Observe(doc: Doc)
      modifies this
      ensures Observations() == Observed(cfg.mode, old(Observations()), doc)
    {
      match cfg.mode {
        case AppendOnly =>
          if maxId.None? {
            maxId := Some(doc.id);
          } else if IdLess(maxId.value, doc.id) {
            maxId := Some(doc.id);
          }
        case Mutable =>
          if doc.field.Some? && (maxVal.None? || maxVal.value < doc.field.value) {
            maxVal := doc.field;
          }
        case FullRefresh =>
      }
    }
  }

  // ---- What is observed is the maximum, in any arrival order ----

  ghost predicate IsMaxId(docs: seq<Doc>, m: Option<ObjectId>) {
    match m
    case None => docs == []
    case Some(id) => (exists i :: 0 <= i < |docs| && docs[i].id == id)
                     && (forall i :: 0 <= i < |docs| ==> !IdLess(id, docs[i].id))
  }

  ghost predicate IsMaxField(docs: seq<Doc>, m: Option<Instant>) {
    match m
    case None => forall i :: 0 <= i < |docs| ==> docs[i].field.None?
    case Some(t) => (exists i :: 0 <= i < |docs| && docs[i].field == Some(t))
                    && (forall i :: 0 <= i < |docs| && docs[i].field.Some? ==> docs[i].field.value <= t)
  }

  lemma {:induction false} ObservedIsMaximum(mode: Mode, docs: seq<Doc>)
    ensures var s := ObservedAll(mode, NOTHING, docs);
      && (mode.AppendOnly? ==> IsMaxId(docs, s.maxId))
      && (mode.Mutable? ==> IsMaxField(docs, s.maxVal))
      && (mode.FullRefresh? ==> s == NOTHING)
  {
    if docs != [] {
      var init, last := docs[..|docs| - 1], docs[|docs| - 1];
      ObservedIsMaximum(mode, init);
      var before, after := ObservedAll(mode, NOTHING, init), ObservedAll(mode, NOTHING, docs);
      assert docs[|docs| - 1] == last;
      if mode.AppendOnly? && before.maxId.Some? {
        var i :| 0 <= i < |init| && init[i].id == before.maxId.value;
        assert docs[i].id == before.maxId.value;
      }
      if mode.Mutable? && before.maxVal.Some? {
        var i :| 0 <= i < |init| && init[i].field == before.maxVal;
        assert docs[i].field == before.maxVal;
      }
    }
  }

  /** The stored string is the greatest of the documents' hex strings. */
  lemma {:induction false} WatermarkIsGreatestHex(docs: seq<Doc>)
    requires docs != []
    ensures var w := NewWatermark(AppendOnly, ObservedAll(AppendOnly, NOTHING, docs));
      && w.Some?
      && (exists i :: 0 <= i < |docs| && Hex(docs[i].id) == w.value)
      && (forall i :: 0 <= i < |docs| ==> !StrLess(w.value, Hex(docs[i].id)))
  {
    ObservedIsMaximum(AppendOnly, docs);
    var m := ObservedAll(AppendOnly, NOTHING, docs).maxId.value;
    forall i | 0 <= i < |docs|
      ensures !StrLess(Hex(m), Hex(docs[i].id))
    {
      HexIsOrderIsomorphism(m, docs[i].id);
    }
  }

  /** The order in which documents arrive does not matter. */
  lemma {:induction false} ArrivalOrderIsIrrelevant(mode: Mode, docs: seq<Doc>, shuffled: seq<Doc>)
    requires forall d :: d in docs <==> d in shuffled
    ensures ObservedAll(mode, NOTHING, docs) == ObservedAll(mode, NOTHING, shuffled)
  {
    ObservedIsMaximum(mode, docs);
    ObservedIsMaximum(mode, shuffled);
    OnlyOwnMaximum(mode, docs);
    OnlyOwnMaximum(mode, shuffled);
    var a, b := ObservedAll(mode, NOTHING, docs), ObservedAll(mode, NOTHING, shuffled);
    match mode {
      case AppendOnly => SameMaxId(docs, shuffled, a.maxId, b.maxId);
      case Mutable => SameMaxField(docs, shuffled, a.maxVal, b.maxVal);
      case FullRefresh =>
    }
  }

  lemma {:induction false} OnlyOwnMaximum(mode: Mode, docs: seq<Doc>)
    ensures var s := ObservedAll(mode, NOTHING, docs);
      (!mode.AppendOnly? ==> s.maxId.None?) && (!mode.Mutable? ==> s.maxVal.None?)
  {
    if docs != [] {
      OnlyOwnMaximum(mode, docs[..|docs| - 1]);
    }
  }

  lemma {:induction false} SameMaxId(docs: seq<Doc>, other: seq<Doc>, m: Option<ObjectId>, n: Option<ObjectId>)
    requires forall d :: d in docs <==> d in other
    requires IsMaxId(docs, m) && IsMaxId(other, n)
    ensures m == n
  {
    if m.Some? {
      var i :| 0 <= i < |docs| && docs[i].id == m.value;
      assert docs[i] in other;
      var i' :| 0 <= i' < |other| && other[i'] == docs[i];
      assert n.Some? && !IdLess(n.value, m.value);
    }
    if n.Some? {
      var j :| 0 <= j < |other| && other[j].id == n.value;
      assert other[j] in docs;
      var j' :| 0 <= j' < |docs| && docs[j'] == other[j];
      assert m.Some? && !IdLess(m.value, n.value);
    }
  }

  lemma {:induction false} SameMaxField(docs: seq<Doc>, other: seq<Doc>, m: Option<Instant>, n: Option<Instant>)
    requires forall d :: d in docs <==> d in other
    requires IsMaxField(docs, m) && IsMaxField(other, n)
    ensures m == n
  {
    if m.Some? {
      var i :| 0 <= i < |docs| && docs[i].field == m;
      assert docs[i] in other;
      var i' :| 0 <= i' < |other| && other[i'] == docs[i];
      assert n.Some? && m.value <= n.value;
    }
    if n.Some? {
      var j :| 0 <= j < |other| && other[j].field == n;
      assert other[j] in docs;
      var j' :| 0 <= j' < |docs| && docs[j'] == other[j];
      assert m.Some? && n.value <= m.value;
    }
  }

  // ---- What the next run will ask for ----

  /** The filter the next run builds from watermark `w` is defined and lets `d` through. */
  ghost predicate Reaches(cfg: Config, w: Option<string>, d: Doc) {
    var f := BuildFilter(cfg, w);
    f.Ok? && Matches(f.value, d)
  }

  /** The bound rebuilt from a stored maximum: exactly `overlap` below it, to the second for ids and to
      the millisecond for times, across every calendar border. */
  lemma {:induction false} RebuiltBound(cfg: Config, s: Seen)
    requires cfg.mode.AppendOnly? && s.maxId.Some?
      ==> 0 <= s.maxId.value.second - cfg.overlap < SECONDS
    requires cfg.mode.Mutable? && s.maxVal.Some?
      ==> 0 <= FloorMs(s.maxVal.value) - cfg.overlap * SECOND < 3_652_059 * Calendar.DAY
    ensures var f := BuildFilter(cfg, NewWatermark(cfg.mode, s));
      && (cfg.mode.AppendOnly? && s.maxId.Some?
          ==> f == Ok(IdAfter(RawId(s.maxId.value.second - cfg.overlap, 0))))
      && (cfg.mode.Mutable? && s.maxVal.Some?
          ==> f == Ok(FieldFrom(FloorMs(s.maxVal.value) - cfg.overlap * SECOND))
              && f.value.instant <= s.maxVal.value - cfg.overlap * SECOND)
  {
    hide Hex, FromHex, FormatTs, ParseTs;
    if cfg.mode.AppendOnly? && s.maxId.Some? {
      HexRoundTrip(s.maxId.value);
    }
    if cfg.mode.Mutable? && s.maxVal.Some? {
      ParseInvertsFormat(s.maxVal.value);
    }
  }

  /** `d` is no older than `overlap` before the position stored as `w`. */
  ghost predicate Recent(cfg: Config, w: string, d: Doc) {
    match cfg.mode
    case AppendOnly => FromHex(w).Some? && FromHex(w).value.second - cfg.overlap <= d.id.second
    case Mutable => ParseTs(w).Some? && d.field.Some? && ParseTs(w).value - cfg.overlap * SECOND <= d.field.value
    case FullRefresh => true
  }

  /** The bound can be read, and the overlap does not push it out of the representable range. */
  ghost predicate Usable(cfg: Config, w: string) {
    match cfg.mode
    case AppendOnly => FromHex(w).Some? && 0 <= FromHex(w).value.second - cfg.overlap < SECONDS
    case Mutable => ParseTs(w).Some? && 0 <= ParseTs(w).value - cfg.overlap * SECOND < 3_652_059 * Calendar.DAY
    case FullRefresh => true
  }

  /** The all-zero id that the strict bound excludes. */
  ghost predicate OnTheBound(cfg: Config, w: string, d: Doc) {
    cfg.mode.AppendOnly? && FromHex(w).Some? && d.id.second == FromHex(w).value.second - cfg.overlap && d.id.suffix == 0
  }

  /** `d` is within the overlap of the usable position `w`. */
  ghost predicate Within(cfg: Config, w: string, d: Doc) {
    Usable(cfg, w) && Recent(cfg, w, d) && !OnTheBound(cfg, w, d)
  }

  /** What a collection is asked for before anything is stored: everything, or what is within the overlap of the
      configured floor; full refresh has no floor. */
  ghost predicate AboveFloor(cfg: Config, d: Doc) {
    cfg.mode.FullRefresh? || cfg.initial.None? || Within(cfg, cfg.initial.value, d)
  }

  /** Which documents a run asks for: without a stored position those above the floor, otherwise those within
      the overlap of the position; in full refresh all, whatever is stored. */
  lemma {:induction false} ReachesIff(cfg: Config, w: Option<string>, d: Doc)
    ensures Reaches(cfg, w, d)
      <==> if w.None? then AboveFloor(cfg, d) else cfg.mode.FullRefresh? || Within(cfg, w.value, d)
  {
    hide FromHex, ParseTs;
  }

  /** A filter can be built exactly if the bound it starts from, where there is one, is usable. */
  lemma {:induction false} FilterIffUsable(cfg: Config, w: Option<string>)
    ensures BuildFilter(cfg, w).Ok?
      <==> (w.Some? ==> Usable(cfg, w.value)) && (w.None? && cfg.initial.Some? ==> Usable(cfg, cfg.initial.value))
  {
    hide FromHex, ParseTs;
  }

  /** Exactly which documents the overlap window brings back: the recent ones, except that the strict
      bound excludes the all-zero id of its own second. */
  lemma {:induction false} ReachesIffRecent(cfg: Config, w: string, d: Doc)
    requires BuildFilter(cfg, Some(w)).Ok?
    ensures Reaches(cfg, Some(w), d) <==>
      Recent(cfg, w, d)
      && !(cfg.mode.AppendOnly? && d.id == RawId(FromHex(w).value.second - cfg.overlap, 0))
  {}

  /** `validate_watermark_kind`, then `build_filter`. */
  function StartFilter(cfg: Config, stored: Option<Watermark>): Result<Filter> {
    if stored.Some? && stored.value.kind != Kind(cfg.mode) then Err(KindMismatch)
    else BuildFilter(cfg, if stored.Some? then Some(stored.value.value) else None)
  }

  /** A run starts exactly if what is stored was stored by a strategy of its kind, and the bound is usable. */
  lemma {:induction false} StartIff(cfg: Config, stored: Option<Watermark>)
    ensures var w := if stored.Some? then Some(stored.value.value) else None;
      && (StartFilter(cfg, stored).Ok? <==>
            (stored.Some? ==> OfMode(cfg.mode, stored.value)) && BuildFilter(cfg, w).Ok?)
      && (StartFilter(cfg, stored) == Err(KindMismatch) <==> stored.Some? && !OfMode(cfg.mode, stored.value))
      && (StartFilter(cfg, stored).Ok? ==> StartFilter(cfg, stored) == BuildFilter(cfg, w))
  {
    hide FromHex, ParseTs;
  }

  /** The kinds as they are stored. */
  ghost predicate OfMode(mode: Mode, w: Watermark) {
    && (w.kind == "objectid" <==> mode.AppendOnly?)
    && (w.kind == "timestamp" <==> mode.Mutable?)
    && (w.kind == "full_refresh" <==> mode.FullRefresh?)
  }

  // ---- The watermark column of the landed rows ----

  /** The stored position is the greatest `_watermark` of the rows read, as strings; none is stored exactly when
      these are all empty. */
  lemma {:induction false} WatermarkIsGreatestColumn(mode: Mode, docs: seq<Doc>)
    ensures var w := NewWatermark(mode, ObservedAll(mode, NOTHING, docs));
      && (w.None? ==> forall i :: 0 <= i < |docs| ==> WatermarkColumn(mode, docs[i]) == "")
      && (w.Some? ==> w.value != ""
                      && (exists i :: 0 <= i < |docs| && WatermarkColumn(mode, docs[i]) == w.value)
                      && (forall i :: 0 <= i < |docs| ==> !StrLess(w.value, WatermarkColumn(mode, docs[i]))))
  {
    hide Hex, FormatTs;
    ObservedIsMaximum(mode, docs);
    var s := ObservedAll(mode, NOTHING, docs);
    if mode.AppendOnly? && docs != [] {
      WatermarkIsGreatestHex(docs);
      var i :| 0 <= i < |docs| && docs[i].id == s.maxId.value;
      assert WatermarkColumn(mode, docs[i]) == Hex(s.maxId.value);
    }
    if mode.Mutable? && s.maxVal.Some? {
      var i :| 0 <= i < |docs| && docs[i].field == s.maxVal;
      assert WatermarkColumn(mode, docs[i]) == FormatTs(s.maxVal.value);
      forall j | 0 <= j < |docs|
        ensures !StrLess(FormatTs(s.maxVal.value), WatermarkColumn(mode, docs[j]))
      {
        if docs[j].field.Some? {
          StringOrderIsChronological(s.maxVal.value, docs[j].field.value);
          assert FloorMs(docs[j].field.value) <= FloorMs(s.maxVal.value);
        }
      }
    }
  }
}
