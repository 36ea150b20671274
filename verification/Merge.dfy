/** `sql/05_merge_example.sql`: deduplicating the landed rows and merging them into a keyed table. */
module Merge {
  import opened ObjectIds
  import opened Watermarks
  import opened Landing

  type Keyed = map<string, Row>

  /** `ROW_NUMBER() OVER (PARTITION BY _id ORDER BY _extracted_at DESC) = 1`: one row per `_id` with the
      greatest `_extracted_at`; SQL leaves open which one when several share it. */
  ghost predicate Staged(raw: seq<Row>, staged: Keyed) {
    && (forall i :: 0 <= i < |raw| ==> raw[i].id in staged)
    && (forall k :: k in staged ==> RankedFirst(raw, k, staged[k]))
  }

  /** Row `r` of document `k` may be numbered 1. */
  ghost predicate RankedFirst(raw: seq<Row>, k: string, r: Row) {
    exists i :: 0 <= i < |raw| && raw[i].id == k && raw[i] == r && Newest(raw, i)
  }

  /** One way to evaluate the query: a single pass that keeps the newest row seen so far. */
  function Stage(raw: seq<Row>): Keyed {
    if raw == [] then map[]
    else
      var staged, r := Stage(raw[..|raw| - 1]), raw[|raw| - 1];
      if r.id in staged && r.extractedAt <= staged[r.id].extractedAt then staged else staged[r.id := r]
  }

  lemma {:induction false} StageIsStaged(raw: seq<Row>)
    ensures Staged(raw, Stage(raw))
  {
    if raw != [] {
      var init, r := raw[..|raw| - 1], raw[|raw| - 1];
      StageIsStaged(init);
      var before, after := Stage(init), Stage(raw);
      forall k | k in after
        ensures RankedFirst(raw, k, after[k])
      {
        StageStep(raw, before, k);
      }
      assert forall i :: 0 <= i < |init| ==> raw[i] == init[i];
    }
  }

  lemma {:induction false} StageStep(raw: seq<Row>, before: Keyed, k: string)
    requires raw != [] && before == Stage(raw[..|raw| - 1]) && Staged(raw[..|raw| - 1], before) && k in Stage(raw)
    ensures RankedFirst(raw, k, Stage(raw)[k])
  {
    var init, last := raw[..|raw| - 1], |raw| - 1;
    var r := raw[last];
    assert forall j :: 0 <= j < last ==> raw[j] == init[j];
    if k in before {
      assert RankedFirst(init, k, before[k]);
      hide Staged;
      var i :| 0 <= i < |init| && init[i].id == k && init[i] == before[k] && Newest(init, i);
      if r.id != k || r.extractedAt <= before[k].extractedAt {
        NewestStays(raw, i);
        assert raw[i] == init[i];
      } else {
        LaterIsNewest(raw, i);
      }
    } else {
      assert r.id == k && Newest(raw, last) by {
        assert forall j :: 0 <= j < last ==> raw[j] == init[j] && init[j].id in before;
      }
    }
  }

  lemma {:induction false} NewestStays(raw: seq<Row>, i: nat)
    requires i < |raw| - 1 && Newest(raw[..|raw| - 1], i)
    requires raw[|raw| - 1].id != raw[i].id || raw[|raw| - 1].extractedAt <= raw[i].extractedAt
    ensures Newest(raw, i)
  {
    var init := raw[..|raw| - 1];
    assert forall j :: 0 <= j < |init| ==> raw[j] == init[j];
  }

  lemma {:induction false} LaterIsNewest(raw: seq<Row>, i: nat)
    requires i < |raw| - 1 && Newest(raw[..|raw| - 1], i)
    requires raw[|raw| - 1].id == raw[i].id && raw[i].extractedAt <= raw[|raw| - 1].extractedAt
    ensures Newest(raw, |raw| - 1)
  {
    var init := raw[..|raw| - 1];
    assert forall j :: 0 <= j < |init| ==> raw[j] == init[j];
  }

  /** No two different rows of a document share their extraction time. */
  ghost predicate NoTies(raw: seq<Row>) {
    forall i, j | 0 <= i < |raw| && 0 <= j < |raw| && raw[i].id == raw[j].id ::
      SameTime(raw[i], raw[j]) ==> raw[i] == raw[j]
  }

  predicate SameTime(r: Row, q: Row) {
    r.extractedAt == q.extractedAt
  }

  ghost predicate SameRows(a: seq<Row>, b: seq<Row>) {
    forall r :: r in a <==> r in b
  }

  ghost predicate Contained(a: seq<Row>, b: seq<Row>) {
    forall r :: r in a ==> r in b
  }

  lemma {:induction false} NewestCarries(a: seq<Row>, b: seq<Row>, i: nat, k: string)
    requires SameRows(a, b) && i < |a| && a[i].id == k && Newest(a, i)
    ensures RankedFirst(b, k, a[i])
  {
    assert a[i] in b;
    var j :| 0 <= j < |b| && b[j] == a[i];
    forall m | 0 <= m < |b| && b[m].id == b[j].id
      ensures b[m].extractedAt <= b[j].extractedAt
    {
      assert b[m] in a;
      var n :| 0 <= n < |a| && a[n] == b[m];
    }
    assert Newest(b, j);
  }

  /** Neither the order of loading nor loading a row twice changes what may be staged. */
  lemma {:induction false} LoadOrderIsIrrelevant(a: seq<Row>, b: seq<Row>, staged: Keyed)
    requires SameRows(a, b) && Staged(a, staged)
    ensures Staged(b, staged)
  {
    forall i | 0 <= i < |b|
      ensures b[i].id in staged
    {
      assert b[i] in a;
    }
    forall k | k in staged
      ensures RankedFirst(b, k, staged[k])
    {
      assert RankedFirst(a, k, staged[k]);
      var i :| 0 <= i < |a| && a[i].id == k && a[i] == staged[k] && Newest(a, i);
      NewestCarries(a, b, i, k);
    }
  }

  lemma {:induction false} RankedIsUnique(raw: seq<Row>, k: string, r: Row, q: Row)
    requires NoTies(raw) && RankedFirst(raw, k, r) && RankedFirst(raw, k, q)
    ensures r == q
  {
    var i :| 0 <= i < |raw| && raw[i].id == k && raw[i] == r && Newest(raw, i);
    var j :| 0 <= j < |raw| && raw[j].id == k && raw[j] == q && Newest(raw, j);
    assert raw[j].extractedAt <= raw[i].extractedAt && raw[i].extractedAt <= raw[j].extractedAt;
  }

  lemma {:induction false} RankedIsStaged(raw: seq<Row>, staged: Keyed, k: string, r: Row)
    requires Staged(raw, staged) && RankedFirst(raw, k, r)
    ensures k in staged
  {}

  /** Without ties the query has one answer. */
  lemma {:induction false} StagedIsUnique(raw: seq<Row>, x: Keyed, y: Keyed)
    requires NoTies(raw) && Staged(raw, x) && Staged(raw, y)
    ensures x == y
  {
    forall k | k in x
      ensures k in y && x[k] == y[k]
    {
      RankedIsStaged(raw, y, k, x[k]);
      RankedIsUnique(raw, k, x[k], y[k]);
    }
    forall k | k in y
      ensures k in x
    {
      RankedIsStaged(raw, x, k, y[k]);
    }
  }

  lemma {:induction false} StagedKeysGrow(a: seq<Row>, b: seq<Row>, x: Keyed, y: Keyed)
    requires Contained(a, b) && Staged(a, x) && Staged(b, y)
    ensures x.Keys <= y.Keys
  {
    forall k | k in x
      ensures k in y
    {
      assert RankedFirst(a, k, x[k]);
      var i :| 0 <= i < |a| && a[i].id == k && a[i] == x[k] && Newest(a, i);
      assert a[i] in b;
      var j :| 0 <= j < |b| && b[j] == a[i];
      assert b[j].id in y;
    }
  }

  // ---- MERGE ----

  /** The target table; MERGE updates matched rows and inserts the others, in place. */
  class Target {
    var rows: Keyed

    constructor ()
      ensures rows == map[]
    {
      rows := map[];
    }

    method MergeRows(staged: Keyed)
      modifies this
      ensures rows == old(rows) + staged
    {
      var todo := staged.Keys;
      ghost var before := rows;
      while todo != {}
        invariant todo <= staged.Keys
        invariant rows.Keys == before.Keys + (staged.Keys - todo)
        invariant forall k :: k in rows ==> rows[k] == if k in staged && k !in todo then staged[k] else before[k]
        decreases |todo|
      {
        var k :| k in todo;
        if k in rows {
          rows := rows[k := staged[k]];
        } else {
          rows := rows + map[k := staged[k]];
        }
        todo := todo - {k};
      }
    }
  }

  /** The target after merging a series of stagings. */
  function Merged(target: Keyed, stagings: seq<Keyed>): Keyed
    decreases |stagings|
  {
    if stagings == [] then target else Merged(target + stagings[0], stagings[1..])
  }

  /** A raw table that only grows, staged after each load. */
  ghost predicate Schedule(loads: seq<seq<Row>>, stagings: seq<Keyed>) {
    && |loads| == |stagings|
    && (forall i :: 0 <= i < |loads| ==> Staged(loads[i], stagings[i]))
    && (forall i :: 0 <= i < |loads| - 1 ==> Contained(loads[i], loads[i + 1]))
  }

  /** However often the MERGE ran while files kept arriving, the target is what one merge of the final
      raw table gives, and running it again changes nothing. */
  lemma {:induction false} MergeIsScheduleIndependent(target: Keyed, loads: seq<seq<Row>>, stagings: seq<Keyed>)
    requires loads != [] && Schedule(loads, stagings)
    ensures var last := stagings[|stagings| - 1];
      Merged(target, stagings) == target + last && Merged(target, stagings + [last]) == target + last
    decreases |stagings|
  {
    var last := stagings[|stagings| - 1];
    if |stagings| == 1 {
      assert stagings == [last];
      OneMerge(target, last);
    } else {
      LaterSchedule(loads, stagings);
      var first, rest := stagings[0], stagings[1..];
      MergeIsScheduleIndependent(target + first, loads[1..], rest);
      AllContained(loads, 0);
      StagedKeysGrow(loads[0], loads[|loads| - 1], first, last);
      hide Staged, Contained, Schedule;
      Overridden(target, first, last);
      FirstMerge(target, first, rest);
      FirstMerge(target, first, rest + [last]);
      assert stagings == [first] + rest && stagings + [last] == [first] + (rest + [last]);
    }
  }

  lemma {:induction false} OneMerge(target: Keyed, last: Keyed)
    ensures Merged(target, [last]) == target + last && Merged(target, [last] + [last]) == target + last
  {
    assert [last][1..] == [] && ([last] + [last])[1..] == [last];
    assert (target + last) + last == target + last;
  }

  lemma {:induction false} FirstMerge(target: Keyed, first: Keyed, rest: seq<Keyed>)
    ensures Merged(target, [first] + rest) == Merged(target + first, rest)
  {
    assert ([first] + rest)[1..] == rest;
  }

  /** A staging whose keys the last one has too leaves no trace. */
  lemma {:induction false} Overridden(target: Keyed, first: Keyed, last: Keyed)
    requires first.Keys <= last.Keys
    ensures (target + first) + last == target + last
  {}

  lemma {:induction false} LaterSchedule(loads: seq<seq<Row>>, stagings: seq<Keyed>)
    requires Schedule(loads, stagings) && |loads| > 1
    ensures Schedule(loads[1..], stagings[1..])
  {
    hide Contained, Staged;
    forall i | 0 <= i < |loads[1..]| - 1
      ensures Contained(loads[1..][i], loads[1..][i + 1])
    {
      assert Contained(loads[i + 1], loads[i + 2]);
    }
  }

  lemma {:induction false} AllContained(loads: seq<seq<Row>>, i: nat)
    requires i < |loads| && forall j :: 0 <= j < |loads| - 1 ==> Contained(loads[j], loads[j + 1])
    ensures Contained(loads[i], loads[|loads| - 1])
    decreases |loads| - i
  {
    if i < |loads| - 1 {
      AllContained(loads, i + 1);
      assert Contained(loads[i], loads[i + 1]);
    }
  }

  /** With no ties, two schedules that end with the same rows give the same table. */
  lemma {:induction false} SameFinalRowsSameTable(target: Keyed, loads: seq<seq<Row>>, stagings: seq<Keyed>,
                                                  loads': seq<seq<Row>>, stagings': seq<Keyed>)
    requires loads != [] && loads' != [] && Schedule(loads, stagings) && Schedule(loads', stagings')
    requires SameRows(loads[|loads| - 1], loads'[|loads'| - 1]) && NoTies(loads[|loads| - 1])
    ensures Merged(target, stagings) == Merged(target, stagings')
  {
    var raw, raw' := loads[|loads| - 1], loads'[|loads'| - 1];
    var x, y := stagings[|stagings| - 1], stagings'[|stagings'| - 1];
    MergeIsScheduleIndependent(target, loads, stagings);
    MergeIsScheduleIndependent(target, loads', stagings');
    LoadOrderIsIrrelevant(raw', raw, y);
    StagedIsUnique(raw, x, y);
  }

  /** A settled document is staged in its current version, however ties are broken. */
  lemma {:induction false} SettledIsStaged(raw: seq<Row>, landed: seq<Row>, staged: Keyed, d: Doc)
    requires Settled(landed, d) && SameRows(landed, raw) && Staged(raw, staged)
    ensures Hex(d.id) in staged && staged[Hex(d.id)].doc == d
  {
    LoadOrderIsIrrelevant(raw, landed, staged);
    var k := Hex(d.id);
    var n :| 0 <= n < |landed| && landed[n].id == k;
    assert landed[n].id in staged;
    assert RankedFirst(landed, k, staged[k]);
    var i :| 0 <= i < |landed| && landed[i].id == k && landed[i] == staged[k] && Newest(landed, i);
  }
}
