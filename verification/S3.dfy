/** `s3.py`: object keys, and the bucket as the list of its objects in upload order. */
module S3 {
  import opened Wrappers
  import opened Strings
  import opened Calendar
  import opened Timestamps

  // ---- Keys ----

  /** `strftime("%Y-%m-%d")` and `strftime("%Y%m%dT%H%M%SZ")` */
  function DayPart(f: DateTime): (s: string)
    requires Valid(f) && f.year <= 9999
    ensures |s| == 10
  {
    FieldsFit(f);
    Decimal(f.year, 4) + ("-" + (Decimal(f.month, 2) + ("-" + Decimal(f.day, 2))))
  }

  function StampPart(f: DateTime): (s: string)
    requires Valid(f) && f.year <= 9999
    ensures |s| == 16
  {
    FieldsFit(f);
    Decimal(f.year, 4) + (Decimal(f.month, 2) + (Decimal(f.day, 2) + ("T" +
    (Decimal(f.hour, 2) + (Decimal(f.minute, 2) + (Decimal(f.second, 2) + "Z"))))))
  }

  /** "/dt={day}/part-{stamp}" */
  function RunPart(t: Instant): (s: string)
    ensures |s| == 36
  {
    FourDigitYear(t);
    FieldsOfInstant(t);
    var f := FieldsOf(t);
    FieldsFit(f);
    "/dt=" + (DayPart(f) + ("/part-" + StampPart(f)))
  }

  /** "" or ending in "/" */
  function NormalPrefix(prefix: string): string {
    if prefix != "" && prefix[|prefix| - 1] != '/' then prefix + "/" else prefix
  }

  function MongoKey(prefix: string, db: string, coll: string, run: Instant): string {
    NormalPrefix(prefix) + ("mongo/" + (db + ("/" + (coll + (RunPart(run) + ".parquet")))))
  }

  function LogsKey(prefix: string, source: string, run: Instant): string {
    NormalPrefix(prefix) + ("logs/" + (source + (RunPart(run) + ".jsonl.gz")))
  }

  function HostMetricsKey(prefix: string, run: Instant): string {
    NormalPrefix(prefix) + ("hostmetrics" + (RunPart(run) + ".jsonl.gz"))
  }

  lemma {:induction false} SameHeads(a: string, b: string, c: string, d: string)
    requires a + c == b + d && |a| == |b|
    ensures a == b && c == d
  {
    assert (a + c)[..|a|] == a && (b + d)[..|b|] == b;
    assert (a + c)[|a|..] == c && (b + d)[|b|..] == d;
  }

  lemma {:induction false} SameTails(a: string, b: string, c: string, d: string)
    requires a + c == b + d && |c| == |d|
    ensures a == b && c == d
  {
    assert |a + c| == |b + d|;
    SameHeads(a, b, c, d);
  }

  lemma {:induction false} StampInjective(f: DateTime, g: DateTime)
    requires Valid(f) && Valid(g) && f.year <= 9999 && g.year <= 9999 && StampPart(f) == StampPart(g)
    ensures f.(micro := 0) == g.(micro := 0)
  {
    hide Decimal, Fits;
    FieldsFit(f);
    FieldsFit(g);
    var f6, g6 := Decimal(f.second, 2) + "Z", Decimal(g.second, 2) + "Z";
    var f5, g5 := Decimal(f.minute, 2) + f6, Decimal(g.minute, 2) + g6;
    var f4, g4 := Decimal(f.hour, 2) + f5, Decimal(g.hour, 2) + g5;
    var f3, g3 := Decimal(f.day, 2) + ("T" + f4), Decimal(g.day, 2) + ("T" + g4);
    var f2, g2 := Decimal(f.month, 2) + f3, Decimal(g.month, 2) + g3;
    SameHeads(Decimal(f.year, 4), Decimal(g.year, 4), f2, g2);
    SameHeads(Decimal(f.month, 2), Decimal(g.month, 2), f3, g3);
    SameHeads(Decimal(f.day, 2), Decimal(g.day, 2), "T" + f4, "T" + g4);
    SameHeads("T", "T", f4, g4);
    SameHeads(Decimal(f.hour, 2), Decimal(g.hour, 2), f5, g5);
    SameHeads(Decimal(f.minute, 2), Decimal(g.minute, 2), f6, g6);
    SameHeads(Decimal(f.second, 2), Decimal(g.second, 2), "Z", "Z");
    DecimalOrder(f.year, g.year, 4);
    DecimalOrder(f.month, g.month, 2);
    DecimalOrder(f.day, g.day, 2);
    DecimalOrder(f.hour, g.hour, 2);
    DecimalOrder(f.minute, g.minute, 2);
    DecimalOrder(f.second, g.second, 2);
  }

  lemma {:induction false} DatePart(s: string)
    requires Separators(s)
    ensures s[0..10] == s[0..4] + ("-" + (s[5..7] + ("-" + s[8..10])))
  {}

  lemma {:induction false} Regroup(y: string, mo: string, d: string, h: string, mi: string, sec: string)
    ensures y + (mo + (d + ("T" + (h + (mi + (sec + "Z")))))) == (y + (mo + d)) + "T" + (h + (mi + sec)) + "Z"
  {
    var time := h + (mi + sec);
    assert h + (mi + (sec + "Z")) == time + "Z";
    assert y + (mo + (d + ("T" + (time + "Z")))) == (y + (mo + d)) + ("T" + (time + "Z"));
  }

  /** The run part spells the run's start: its date, and its date and time to the second, in the digits of the
      canonical time. */
  lemma {:induction false} RunPartSpellsTime(t: Instant)
    ensures var s := FormatTs(t);
      var date, time := s[0..4] + (s[5..7] + s[8..10]), s[11..13] + (s[14..16] + s[17..19]);
      RunPart(t) == "/dt=" + s[0..10] + "/part-" + date + "T" + time + "Z"
  {
    FourDigitYear(t);
    FieldsOfInstant(t);
    var f, s := FieldsOf(t), FormatTs(t);
    FieldsFit(f);
    LayoutParts(Decimal(f.year, 4), Decimal(f.month, 2), Decimal(f.day, 2),
                Decimal(f.hour, 2), Decimal(f.minute, 2), Decimal(f.second, 2), Decimal(f.micro / MS, 3));
    hide Decimal, Fits, Layout;
    DatePart(s);
    Regroup(s[0..4], s[5..7], s[8..10], s[11..13], s[14..16], s[17..19]);
    hide Separators;
    Assoc3("/dt=", s[0..10], "/part-", StampPart(f));
    Assoc5("/dt=" + s[0..10] + "/part-", s[0..4] + (s[5..7] + s[8..10]), "T", s[11..13] + (s[14..16] + s[17..19]), "Z");
  }

  lemma {:induction false} Assoc3(a: string, b: string, c: string, d: string)
    ensures a + (b + (c + d)) == a + b + c + d
  {}

  lemma {:induction false} Assoc5(a: string, b: string, c: string, d: string, e: string)
    ensures a + (b + c + d + e) == a + b + c + d + e
  {}

  /** Two runs share the run part of a key exactly when they started in the same whole second. */
  lemma {:induction false} RunPartInjective(t: Instant, u: Instant)
    ensures RunPart(t) == RunPart(u) <==> t / SECOND == u / SECOND
  {
    FourDigitYear(t);
    FourDigitYear(u);
    FieldsOfInstant(t);
    FieldsOfInstant(u);
    var f, g := FieldsOf(t), FieldsOf(u);
    WholeSecond(t);
    WholeSecond(u);
    if RunPart(t) == RunPart(u) {
      SameHeads("/dt=", "/dt=", DayPart(f) + ("/part-" + StampPart(f)), DayPart(g) + ("/part-" + StampPart(g)));
      SameTails(DayPart(f) + "/part-", DayPart(g) + "/part-", StampPart(f), StampPart(g)) by {
        Assoc(DayPart(f), "/part-", StampPart(f));
        Assoc(DayPart(g), "/part-", StampPart(g));
      }
      StampInjective(f, g);
    } else if t / SECOND == u / SECOND {
      assert Micros(f.(micro := 0)) == Micros(g.(micro := 0));
      InstantOfFields(f.(micro := 0));
      InstantOfFields(g.(micro := 0));
    }
  }

  lemma {:induction false} WholeSecond(t: int)
    requires 0 <= t
    ensures Valid(FieldsOf(t)) && Micros(FieldsOf(t).(micro := 0)) == t / SECOND * SECOND
  {
    FieldsOfInstant(t);
  }

  /** The prefix with at most a "/" added, so that it is empty or ends in one. */
  lemma {:induction false} PrefixIsNormal(prefix: string)
    ensures var p := NormalPrefix(prefix);
      && prefix <= p && |p| <= |prefix| + 1 && (p == "" || p[|p| - 1] == '/')
      && (prefix == "" || prefix[|prefix| - 1] == '/' ==> p == prefix)
  {}

  /** What the three families of keys spell: the unit, and the start of the run to the second, in the digits of the
      canonical time. */
  lemma {:induction false} KeysSpellUnitAndTime(prefix: string, db: string, name: string, t: Instant)
    ensures var p, s := NormalPrefix(prefix), FormatTs(t);
      var run := "/dt=" + s[0..10] + "/part-" + (s[0..4] + (s[5..7] + s[8..10])) + "T"
                 + (s[11..13] + (s[14..16] + s[17..19])) + "Z";
      && MongoKey(prefix, db, name, t) == p + "mongo/" + db + "/" + name + run + ".parquet"
      && LogsKey(prefix, name, t) == p + "logs/" + name + run + ".jsonl.gz"
      && HostMetricsKey(prefix, t) == p + "hostmetrics" + run + ".jsonl.gz"
  {
    RunPartSpellsTime(t);
    hide RunPart, FormatTs, NormalPrefix;
  }

  /** Keys of one deployment name collection and second; no two exports share one. */
  lemma {:induction false} MongoKeyInjective(prefix: string, db: string, coll: string, t: Instant, coll': string,
                                             u: Instant)
    ensures MongoKey(prefix, db, coll, t) == MongoKey(prefix, db, coll', u)
      <==> coll == coll' && t / SECOND == u / SECOND
  {
    RunPartInjective(t, u);
    if MongoKey(prefix, db, coll, t) == MongoKey(prefix, db, coll', u) {
      var x, y := coll + (RunPart(t) + ".parquet"), coll' + (RunPart(u) + ".parquet");
      SameHeads(NormalPrefix(prefix), NormalPrefix(prefix), "mongo/" + (db + ("/" + x)), "mongo/" + (db + ("/" + y)));
      SameHeads("mongo/", "mongo/", db + ("/" + x), db + ("/" + y));
      SameHeads(db, db, "/" + x, "/" + y);
      SameHeads("/", "/", x, y);
      SameTails(coll, coll', RunPart(t) + ".parquet", RunPart(u) + ".parquet");
      SameHeads(RunPart(t), RunPart(u), ".parquet", ".parquet");
    }
  }

  lemma {:induction false} LogsKeyInjective(prefix: string, source: string, t: Instant, source': string, u: Instant)
    ensures LogsKey(prefix, source, t) == LogsKey(prefix, source', u)
      <==> source == source' && t / SECOND == u / SECOND
  {
    RunPartInjective(t, u);
    if LogsKey(prefix, source, t) == LogsKey(prefix, source', u) {
      var x, y := source + (RunPart(t) + ".jsonl.gz"), source' + (RunPart(u) + ".jsonl.gz");
      SameHeads(NormalPrefix(prefix), NormalPrefix(prefix), "logs/" + x, "logs/" + y);
      SameHeads("logs/", "logs/", x, y);
      SameTails(source, source', RunPart(t) + ".jsonl.gz", RunPart(u) + ".jsonl.gz");
      SameHeads(RunPart(t), RunPart(u), ".jsonl.gz", ".jsonl.gz");
    }
  }

  lemma {:induction false} HostMetricsKeyInjective(prefix: string, t: Instant, u: Instant)
    ensures HostMetricsKey(prefix, t) == HostMetricsKey(prefix, u) <==> t / SECOND == u / SECOND
  {
    RunPartInjective(t, u);
    if HostMetricsKey(prefix, t) == HostMetricsKey(prefix, u) {
      var x, y := RunPart(t) + ".jsonl.gz", RunPart(u) + ".jsonl.gz";
      SameHeads(NormalPrefix(prefix), NormalPrefix(prefix), "hostmetrics" + x, "hostmetrics" + y);
      SameHeads("hostmetrics", "hostmetrics", x, y);
      SameHeads(RunPart(t), RunPart(u), ".jsonl.gz", ".jsonl.gz");
    }
  }

  /** The three families of keys never meet. */
  lemma {:induction false} KeyFamiliesDisjoint(prefix: string, db: string, coll: string, source: string, t: Instant,
                                               u: Instant, v: Instant)
    ensures MongoKey(prefix, db, coll, t) != LogsKey(prefix, source, u)
    ensures MongoKey(prefix, db, coll, t) != HostMetricsKey(prefix, v)
    ensures LogsKey(prefix, source, u) != HostMetricsKey(prefix, v)
  {
    var n := |NormalPrefix(prefix)|;
    assert MongoKey(prefix, db, coll, t)[n] == 'm';
    assert LogsKey(prefix, source, u)[n] == 'l';
    assert HostMetricsKey(prefix, v)[n] == 'h';
  }

  // ---- Bucket ----

  datatype Object<T> = Object(key: string, body: seq<T>)

  type Bucket<T> = seq<Object<T>>

  ghost predicate HasKey<T>(b: Bucket<T>, key: string) {
    exists i :: 0 <= i < |b| && b[i].key == key
  }

  /** A PUT replaces the object of that key, or adds one. */
  function Put<T>(b: Bucket<T>, key: string, body: seq<T>): Bucket<T> {
    if b == [] then [Object(key, body)]
    else if b[0].key == key then [Object(key, body)] + b[1..]
    else [b[0]] + Put(b[1..], key, body)
  }

  /** Everything in the bucket, in upload order. */
  function Contents<T>(b: Bucket<T>): seq<T> {
    if b == [] then [] else Contents(b[..|b| - 1]) + b[|b| - 1].body
  }

  /** Under a key not used before, nothing that was uploaded is replaced. */
  lemma {:induction false} PutFresh<T>(b: Bucket<T>, key: string, body: seq<T>)
    requires !HasKey(b, key)
    ensures Put(b, key, body) == b + [Object(key, body)]
    ensures Contents(Put(b, key, body)) == Contents(b) + body
  {
    if b != [] {
      assert b[0].key != key;
      assert !HasKey(b[1..], key) by {
        forall i | 0 <= i < |b[1..]| ensures b[1..][i].key != key { assert b[i + 1].key != key; }
      }
      PutFresh(b[1..], key, body);
      assert [b[0]] + (b[1..] + [Object(key, body)]) == b + [Object(key, body)];
    }
    assert (b + [Object(key, body)])[..|b|] == b;
  }

  function Body<T>(b: Bucket<T>, key: string): Option<seq<T>> {
    if b == [] then None else if b[0].key == key then Some(b[0].body) else Body(b[1..], key)
  }

  lemma {:induction false} BodyOfPut<T>(b: Bucket<T>, key: string, body: seq<T>, k: string)
    ensures Body(Put(b, key, body), k) == if k == key then Some(body) else Body(b, k)
  {
    if b != [] && b[0].key != key {
      BodyOfPut(b[1..], key, body, k);
    }
    assert [Object(key, body)][1..] == [];
  }

  /** What `upload` can do: nothing visible and an error; the object visible but the confirming
      head_object failing, so still an error; or success. */
  datatype Outcome = Invisible | Unconfirmed | Confirmed

  function Uploaded<T>(b: Bucket<T>, key: string, body: seq<T>, outcome: Outcome): Bucket<T> {
    if outcome.Invisible? then b else Put(b, key, body)
  }

  class Uploader<T> {
    const prefix: string
    var objects: Bucket<T>

    constructor (prefix: string)
      ensures this.prefix == NormalPrefix(prefix) && objects == []
    {
      this.prefix := NormalPrefix(prefix);
      objects := [];
    }

    method Upload(key: string, body: seq<T>, outcome: Outcome) returns (r: Result<nat>)
      modifies this
      ensures objects == Uploaded(old(objects), key, body, outcome)
      ensures r == if outcome.Confirmed? then Ok(|body|) else Err(UploadFailed)
    {
      if outcome.Invisible? {
        return Err(UploadFailed);
      }
      objects := Put(objects, key, body);
      if outcome.Unconfirmed? {
        return Err(UploadFailed);
      }
      return Ok(|body|);
    }
  }
}
