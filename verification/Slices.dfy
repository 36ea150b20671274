/** One bucket serves every collection, every log source and the host metrics: the part that belongs to one
    unit, and what a PUT under its own or another unit's key does to that part. */
module Slices {
  import opened Timestamps
  import opened Landing
  import opened S3
  import opened Items

  /** Where one deployment writes. */
  datatype Site = Site(prefix: string, db: string)

  datatype Unit = Collection(name: string) | Source(name: string) | HostMetrics

  function UnitKey(site: Site, u: Unit, run: Instant): string {
    match u
    case Collection(name) => MongoKey(site.prefix, site.db, name, run)
    case Source(name) => LogsKey(site.prefix, name, run)
    case HostMetrics => HostMetricsKey(site.prefix, run)
  }

  ghost predicate Owns(site: Site, u: Unit, key: string) {
    exists t: Instant :: key == UnitKey(site, u, t)
  }

  /** Two uploads of a deployment use the same key exactly if they are by the same unit in the same second. */
  lemma {:induction false} UnitKeysDiffer(site: Site, u: Unit, v: Unit, t: Instant, t': Instant)
    ensures UnitKey(site, u, t) == UnitKey(site, v, t') <==> u == v && t / SECOND == t' / SECOND
  {
    hide MongoKey, LogsKey, HostMetricsKey;
    match u {
      case Collection(a) =>
        match v {
          case Collection(b) => MongoKeyInjective(site.prefix, site.db, a, t, b, t');
          case Source(b) => KeyFamiliesDisjoint(site.prefix, site.db, a, b, t, t', t');
          case HostMetrics => KeyFamiliesDisjoint(site.prefix, site.db, a, a, t, t', t');
        }
      case Source(a) =>
        match v {
          case Collection(b) => KeyFamiliesDisjoint(site.prefix, site.db, b, a, t', t, t);
          case Source(b) => LogsKeyInjective(site.prefix, a, t, b, t');
          case HostMetrics => KeyFamiliesDisjoint(site.prefix, site.db, a, a, t, t, t');
        }
      case HostMetrics =>
        match v {
          case Collection(b) => KeyFamiliesDisjoint(site.prefix, site.db, b, b, t', t, t);
          case Source(b) => KeyFamiliesDisjoint(site.prefix, site.db, b, b, t, t', t);
          case HostMetrics => HostMetricsKeyInjective(site.prefix, t, t');
        }
    }
  }

  /** A key belongs to at most one unit. */
  lemma {:induction false} OneOwner(site: Site, u: Unit, v: Unit, run: Instant)
    ensures Owns(site, u, UnitKey(site, v, run)) <==> u == v
  {
    hide UnitKey;
    if t: Instant :| UnitKey(site, v, run) == UnitKey(site, u, t) {
      UnitKeysDiffer(site, v, u, run, t);
    }
  }

  /** The unit's objects, in upload order. */
  ghost function Slice<T>(b: Bucket<T>, site: Site, u: Unit): Bucket<T> {
    if b == [] then []
    else (if Owns(site, u, b[0].key) then [b[0]] else []) + Slice(b[1..], site, u)
  }

  lemma {:induction false} ForeignPut<T>(b: Bucket<T>, site: Site, u: Unit, key: string, body: seq<T>)
    requires !Owns(site, u, key)
    ensures Slice(Put(b, key, body), site, u) == Slice(b, site, u)
  {
    hide Owns;
    var after := Put(b, key, body);
    if b == [] {
      assert after[1..] == [];
    } else if b[0].key == key {
      assert after[1..] == b[1..];
    } else {
      assert after[1..] == Put(b[1..], key, body);
      ForeignPut(b[1..], site, u, key, body);
    }
  }

  lemma {:induction false} SliceHead<T>(x: Object<T>, rest: Bucket<T>, site: Site, u: Unit)
    ensures Slice([x] + rest, site, u)
         == if Owns(site, u, x.key) then [x] + Slice(rest, site, u) else Slice(rest, site, u)
  {
    assert ([x] + rest)[1..] == rest;
  }

  lemma {:induction false} PutHead<T>(x: Object<T>, rest: Bucket<T>, key: string, body: seq<T>)
    ensures Put([x] + rest, key, body)
         == if x.key == key then [Object(key, body)] + rest else [x] + Put(rest, key, body)
  {
    assert ([x] + rest)[1..] == rest;
  }

  lemma {:induction false} OwnPut<T>(b: Bucket<T>, site: Site, u: Unit, key: string, body: seq<T>)
    requires Owns(site, u, key)
    ensures Slice(Put(b, key, body), site, u) == Put(Slice(b, site, u), key, body)
  {
    hide Owns;
    if b == [] {
      SliceHead(Object(key, body), [], site, u);
      assert [Object(key, body)] + [] == [Object(key, body)];
    } else {
      var x, rest := b[0], b[1..];
      assert b == [x] + rest;
      OwnPut(rest, site, u, key, body);
      PutHead(x, rest, key, body);
      SliceHead(x, rest, site, u);
      SliceHead(Object(key, body), rest, site, u);
      SliceHead(x, Put(rest, key, body), site, u);
      PutHead(x, Slice(rest, site, u), key, body);
    }
  }

  // ---- Typed views of a slice ----

  function RowView(b: Bucket<Item>): Bucket<Row> {
    if b == [] then [] else [Object(b[0].key, RowsIn(b[0].body))] + RowView(b[1..])
  }

  function RecordView(b: Bucket<Item>): Bucket<LogRecord> {
    if b == [] then [] else [Object(b[0].key, RecordsIn(b[0].body))] + RecordView(b[1..])
  }

  lemma {:induction false} RowViewPut(b: Bucket<Item>, key: string, rows: seq<Row>)
    ensures RowView(Put(b, key, RowItems(rows))) == Put(RowView(b), key, rows)
  {
    RowsAreRead(rows);
    hide RowsIn, RowItems;
    var after := Put(b, key, RowItems(rows));
    if b == [] {
      assert after[1..] == [];
    } else if b[0].key == key {
      assert after[1..] == b[1..] && RowView(b)[1..] == RowView(b[1..]);
    } else {
      assert after[1..] == Put(b[1..], key, RowItems(rows)) && RowView(b)[1..] == RowView(b[1..]);
      RowViewPut(b[1..], key, rows);
    }
  }

  lemma {:induction false} RecordViewPut(b: Bucket<Item>, key: string, records: seq<LogRecord>)
    ensures RecordView(Put(b, key, LineItems(records))) == Put(RecordView(b), key, records)
  {
    RecordsAreRead(records);
    hide RecordsIn, LineItems;
    var after := Put(b, key, LineItems(records));
    if b == [] {
      assert after[1..] == [];
    } else if b[0].key == key {
      assert after[1..] == b[1..] && RecordView(b)[1..] == RecordView(b[1..]);
    } else {
      assert after[1..] == Put(b[1..], key, LineItems(records)) && RecordView(b)[1..] == RecordView(b[1..]);
      RecordViewPut(b[1..], key, records);
    }
  }

  /** A collection's rows, and a source's records, in the shared bucket. */
  ghost function RowsOfUnit(b: Bucket<Item>, site: Site, name: string): Bucket<Row> {
    RowView(Slice(b, site, Collection(name)))
  }

  ghost function RecordsOfUnit(b: Bucket<Item>, site: Site, name: string): Bucket<LogRecord> {
    RecordView(Slice(b, site, Source(name)))
  }

  /** An upload, whatever its outcome, shows in the uploading collection's slice as the same upload there. */
  lemma {:induction false} OwnRowsUploaded(b: Bucket<Item>, site: Site, name: string, run: Instant, rows: seq<Row>,
                                           o: Outcome)
    ensures RowsOfUnit(Uploaded(b, UnitKey(site, Collection(name), run), RowItems(rows), o), site, name)
         == Uploaded(RowsOfUnit(b, site, name), UnitKey(site, Collection(name), run), rows, o)
  {
    hide Put, UnitKey, Slice;
    var key := UnitKey(site, Collection(name), run);
    OneOwner(site, Collection(name), Collection(name), run);
    OwnPut(b, site, Collection(name), key, RowItems(rows));
    RowViewPut(Slice(b, site, Collection(name)), key, rows);
  }

  lemma {:induction false} OwnRecordsUploaded(b: Bucket<Item>, site: Site, name: string, run: Instant,
                                              records: seq<LogRecord>, o: Outcome)
    ensures RecordsOfUnit(Uploaded(b, UnitKey(site, Source(name), run), LineItems(records), o), site, name)
         == Uploaded(RecordsOfUnit(b, site, name), UnitKey(site, Source(name), run), records, o)
  {
    hide Put, UnitKey, Slice;
    var key := UnitKey(site, Source(name), run);
    OneOwner(site, Source(name), Source(name), run);
    OwnPut(b, site, Source(name), key, LineItems(records));
    RecordViewPut(Slice(b, site, Source(name)), key, records);
  }

  /** An upload by another unit does not show at all. */
  lemma {:induction false} ForeignUploaded<T>(b: Bucket<T>, site: Site, u: Unit, v: Unit, run: Instant, body: seq<T>,
                                              o: Outcome)
    requires u != v
    ensures Slice(Uploaded(b, UnitKey(site, v, run), body, o), site, u) == Slice(b, site, u)
  {
    hide Put, UnitKey, Slice;
    OneOwner(site, u, v, run);
    ForeignPut(b, site, u, UnitKey(site, v, run), body);
  }
}
