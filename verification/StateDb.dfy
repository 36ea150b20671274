/** `state.py`: durable tables changed only inside transactions. */
module StateDb {
  import opened Wrappers
  import opened Codec
  import opened Watermarks

  /** State keys of a log file: its content prefix, or its path while it is too small.
      The stored strings are the prefix's sha256 in hex and "path:" + path; sha256 is taken as injective. */
  datatype Key = Fingerprint(prefix: Bytes) | Provisional(path: string)

  /** `updated_at`, as `datetime.fromisoformat` reads it back. */
  datatype Stamp = At(time: int) | Unparseable

  datatype FileOffset = FileOffset(lastPath: string, offset: int, sizeAtRead: int, updatedAt: Stamp)

  type Offsets = map<Key, FileOffset>

  /** Rows of `file_offsets`, keyed by their primary key (source, fingerprint). */
  type OffsetTable = map<(string, Key), FileOffset>

  /** One row to write; its stamp is set by the store. */
  datatype Entry = Entry(key: Key, lastPath: string, offset: int, sizeAtRead: int)

  /** `SELECT … WHERE source = ?` */
  function OffsetsOf(table: OffsetTable, source: string): (r: Offsets)
    ensures forall k :: k in r <==> (source, k) in table
    ensures forall k :: k in r ==> r[k] == table[(source, k)]
  {
    map p | p in table && p.0 == source :: p.1 := table[p]
  }

  /** `INSERT … ON CONFLICT DO UPDATE` for each entry in turn. */
  function Upserted(table: OffsetTable, source: string, entries: seq<Entry>, now: int): OffsetTable {
    if entries == [] then table
    else
      var e := entries[|entries| - 1];
      Upserted(table, source, entries[..|entries| - 1], now)
        [(source, e.key) := FileOffset(e.lastPath, e.offset, e.sizeAtRead, At(now))]
  }

  class StateStore {
    var watermarks: map<string, Watermark>
    var offsets: OffsetTable

    constructor ()
      ensures watermarks == map[] && offsets == map[]
    {
      watermarks, offsets := map[], map[];
    }

    method GetWatermark(ns: string) returns (w: Option<Watermark>)
      ensures w == if ns in watermarks then Some(watermarks[ns]) else None
    {
      w := if ns in watermarks then Some(watermarks[ns]) else None;
    }

    /** The transaction either commits as a whole or rolls back and raises. */
    method SetWatermark(ns: string, kind: string, value: string, commits: bool)
      modifies this`watermarks
      ensures watermarks == if commits then old(watermarks)[ns := Watermark(kind, value)] else old(watermarks)
    {
      if commits {
        watermarks := watermarks[ns := Watermark(kind, value)];
      }
    }

    method GetOffsets(source: string) returns (r: Offsets)
      ensures r == OffsetsOf(offsets, source)
    {
      r := OffsetsOf(offsets, source);
    }

    method SetOffsets(source: string, entries: seq<Entry>, now: int, commits: bool)
      modifies this`offsets
      ensures offsets == if commits then Upserted(old(offsets), source, entries, now) else old(offsets)
    {
      var table := offsets;
      for i := 0 to |entries|
        invariant table == Upserted(offsets, source, entries[..i], now)
        invariant offsets == old(offsets)
      {
        var e := entries[i];
        assert entries[..i + 1][..i] == entries[..i];
        table := table[(source, e.key) := FileOffset(e.lastPath, e.offset, e.sizeAtRead, At(now))];
      }
      assert entries[..|entries|] == entries;
      if commits {
        offsets := table;
      }
    }

    method DeleteOffset(source: string, key: Key)
      modifies this`offsets
      ensures offsets == old(offsets) - {(source, key)}
    {
      offsets := offsets - {(source, key)};
    }
  }

  ghost predicate HasEntry(entries: seq<Entry>, k: Key) {
    exists i :: 0 <= i < |entries| && entries[i].key == k
  }

  ghost predicate OffsetFrom(entries: seq<Entry>, k: Key, offset: int) {
    exists i :: 0 <= i < |entries| && entries[i].key == k && entries[i].offset == offset
  }

  /** A batch of upserts gives every key it names one of the offsets it names for that key, and leaves
      every other row of the table as it was. */
  lemma {:induction false} UpsertedRow(table: OffsetTable, source: string, entries: seq<Entry>, now: int, s: string,
                                       k: Key)
    ensures var t := Upserted(table, source, entries, now);
      if s == source && HasEntry(entries, k) then (s, k) in t && OffsetFrom(entries, k, t[(s, k)].offset)
      else ((s, k) in t <==> (s, k) in table) && ((s, k) in table ==> t[(s, k)] == table[(s, k)])
  {
    if entries != [] {
      var init, last := entries[..|entries| - 1], |entries| - 1;
      UpsertedRow(table, source, init, now, s, k);
      if entries[last].key == k {
        assert OffsetFrom(entries, k, entries[last].offset);
      } else {
        EarlierEntries(entries, k);
      }
    }
  }

  lemma {:induction false} EarlierEntries(entries: seq<Entry>, k: Key)
    requires entries != [] && entries[|entries| - 1].key != k
    ensures HasEntry(entries, k) <==> HasEntry(entries[..|entries| - 1], k)
    ensures forall o :: OffsetFrom(entries[..|entries| - 1], k, o) ==> OffsetFrom(entries, k, o)
  {
    var init := entries[..|entries| - 1];
    if i :| 0 <= i < |entries| && entries[i].key == k {
      assert init[i].key == k;
    }
    forall o | OffsetFrom(init, k, o)
      ensures OffsetFrom(entries, k, o)
    {
      var i :| 0 <= i < |init| && init[i].key == k && init[i].offset == o;
      assert entries[i] == init[i];
    }
  }

  /** Of several upserts for one key the last one stays. */
  lemma {:induction false} UpsertedEntry(table: OffsetTable, source: string, entries: seq<Entry>, now: int, i: nat)
    requires i < |entries| && forall j :: i < j < |entries| ==> entries[j].key != entries[i].key
    ensures var t, e := Upserted(table, source, entries, now), entries[i];
      (source, e.key) in t && t[(source, e.key)] == FileOffset(e.lastPath, e.offset, e.sizeAtRead, At(now))
  {
    if i < |entries| - 1 {
      var init := entries[..|entries| - 1];
      assert forall j :: 0 <= j < |init| ==> init[j] == entries[j];
      UpsertedEntry(table, source, init, now, i);
    }
  }

  // ---- One source's records in the shared table ----

  lemma {:induction false} OffsetsUpdated(table: OffsetTable, source: string, k: Key, fo: FileOffset)
    ensures OffsetsOf(table[(source, k) := fo], source) == OffsetsOf(table, source)[k := fo]
  {}

  /** What a batch does to a source's records depends on those records alone. */
  lemma {:induction false} OwnUpserts(table: OffsetTable, other: OffsetTable, source: string, entries: seq<Entry>,
                                      now: int)
    requires OffsetsOf(table, source) == OffsetsOf(other, source)
    ensures OffsetsOf(Upserted(table, source, entries, now), source)
         == OffsetsOf(Upserted(other, source, entries, now), source)
  {
    hide OffsetsOf;
    if entries != [] {
      var init, e := entries[..|entries| - 1], entries[|entries| - 1];
      OwnUpserts(table, other, source, init, now);
      var fo := FileOffset(e.lastPath, e.offset, e.sizeAtRead, At(now));
      OffsetsUpdated(Upserted(table, source, init, now), source, e.key, fo);
      OffsetsUpdated(Upserted(other, source, init, now), source, e.key, fo);
    }
  }

  /** A batch for one source leaves every other source's records alone. */
  lemma {:induction false} ForeignUpserts(table: OffsetTable, source: string, entries: seq<Entry>, now: int,
                                          other: string)
    requires other != source
    ensures OffsetsOf(Upserted(table, source, entries, now), other) == OffsetsOf(table, other)
  {
    if entries != [] {
      ForeignUpserts(table, source, entries[..|entries| - 1], now, other);
    }
  }

  function Without(table: OffsetTable, source: string, keys: set<Key>): OffsetTable {
    table - (set k | k in keys :: (source, k))
  }

  lemma {:induction false} WithoutNone(table: OffsetTable, source: string)
    ensures Without(table, source, {}) == table
  {
    assert Without(table, source, {}) == table;
  }

  lemma {:induction false} WithoutOneMore(table: OffsetTable, source: string, keys: set<Key>, k: Key)
    ensures Without(table, source, keys) - {(source, k)} == Without(table, source, keys + {k})
  {
    assert Without(table, source, keys) - {(source, k)} == Without(table, source, keys + {k});
  }

  lemma {:induction false} OwnRemoved(table: OffsetTable, source: string, keys: set<Key>)
    ensures OffsetsOf(Without(table, source, keys), source) == OffsetsOf(table, source) - keys
  {}

  lemma {:induction false} ForeignRemoved(table: OffsetTable, source: string, keys: set<Key>, other: string)
    requires other != source
    ensures OffsetsOf(Without(table, source, keys), other) == OffsetsOf(table, other)
  {}
}
