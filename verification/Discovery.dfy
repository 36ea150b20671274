/** What `discover` answers, told from the answers it gets and from the files themselves. */
module Discovery {
  import opened Wrappers
  import opened Strings
  import opened Codec
  import opened StateDb
  import opened Sources

  // ---- One path ----

  /** The state key of what was looked at: the content's head, or the path while the file is too small. */
  function KeyLooked(path: string, look: Look): Key
    requires !look.head.Gone?
  {
    match look.head
    case Full(prefix) => Fingerprint(prefix)
    case Short => Provisional(path)
  }

  /** A path is skipped exactly if its prefix cannot be read, or its key has a record and the file is gone
      by the second look; otherwise it is read from the stored offset if the file is at least that long,
      and from 0 in every other case. */
  lemma {:induction false} PathIsPlannedIff(path: string, look: Look, offsets: Offsets)
    ensures var plan := PlanFor(path, look, offsets);
      && (plan.None? <==> look.head.Gone? || (KeyLooked(path, look) in offsets && look.size.None?))
      && (plan.Some? ==>
            var q, k := plan.value, KeyLooked(path, look);
            && q.path == path && KeyOf(q) == k && (q.fingerprint.Some? <==> look.head.Full?)
            && (k in offsets && offsets[k].offset <= look.size.value ==> q.start == offsets[k].offset)
            && (k in offsets && look.size.value < offsets[k].offset ==> q.start == 0)
            && (k !in offsets ==> q.start == 0))
  {}

  /** A file of 4096 bytes or more is known by these, a smaller one by its path. */
  function KeyOfFile(path: string, content: Bytes): Key {
    if |content| >= 4096 then Fingerprint(content[..4096]) else Provisional(path)
  }

  /** Where a file that stays put is read from: the stored offset where there is one within the file, else 0. */
  function StartOfFile(path: string, content: Bytes, offsets: Offsets): int {
    var k := KeyOfFile(path, content);
    if k in offsets && offsets[k].offset <= |content| then offsets[k].offset else 0
  }

  lemma {:induction false} FileIsPlanned(path: string, content: Bytes, mtime: int, offsets: Offsets)
    ensures PlanFor(path, LookAt(content, mtime), offsets).Some?
    ensures var q := PlanFor(path, LookAt(content, mtime), offsets).value;
      q.path == path && KeyOf(q) == KeyOfFile(path, content) && q.start == StartOfFile(path, content, offsets)
  {
    PathIsPlannedIff(path, LookAt(content, mtime), offsets);
  }

  // ---- All paths ----

  lemma {:induction false} MatchIsPlanned(matches: seq<string>, looks: string -> Look, offsets: Offsets, path: string)
    requires path in matches && looks(path).stat.Some? && looks(path).stat.value.regular
    requires PlanFor(path, looks(path), offsets).Some?
    ensures PlanFor(path, looks(path), offsets).value in PlansFor(Sorted(EntriesOf(matches, looks)), looks, offsets)
  {
    hide PlanFor;
    var entries := EntriesOf(matches, looks);
    SortedIsOldestFirst(entries);
    var e := MatchIsFound(matches, looks, path);
    assert e in multiset(Sorted(entries));
    FoundIsPlanned(Sorted(entries), looks, offsets, e);
  }

  lemma {:induction false} MatchIsFound(matches: seq<string>, looks: string -> Look, path: string) returns (e: Found)
    requires path in matches && looks(path).stat.Some? && looks(path).stat.value.regular
    ensures e in EntriesOf(matches, looks) && e.path == path
  {
    e := Found(looks(path).stat.value.mtime, path);
    if matches[|matches| - 1] != path {
      assert path in matches[..|matches| - 1];
      e := MatchIsFound(matches[..|matches| - 1], looks, path);
    }
  }

  lemma {:induction false} FoundIsPlanned(entries: seq<Found>, looks: string -> Look, offsets: Offsets, e: Found)
    requires e in entries && PlanFor(e.path, looks(e.path), offsets).Some?
    ensures PlanFor(e.path, looks(e.path), offsets).value in PlansFor(entries, looks, offsets)
  {
    hide PlanFor;
    if entries[|entries| - 1] != e {
      assert e in entries[..|entries| - 1];
      FoundIsPlanned(entries[..|entries| - 1], looks, offsets, e);
    }
  }

  lemma {:induction false} PlansAreOfPaths(entries: seq<Found>, looks: string -> Look, offsets: Offsets, q: TailPlan)
    requires q in PlansFor(entries, looks, offsets)
    ensures PlanFor(q.path, looks(q.path), offsets) == Some(q)
  {
    var init, e := entries[..|entries| - 1], entries[|entries| - 1];
    PlanHasPath(e.path, looks(e.path), offsets);
    hide PlanFor;
    if PlanFor(e.path, looks(e.path), offsets) != Some(q) {
      PlansAreOfPaths(init, looks, offsets, q);
    }
  }

  lemma {:induction false} PlanHasPath(path: string, look: Look, offsets: Offsets)
    ensures PlanFor(path, look, offsets).Some? ==> PlanFor(path, look, offsets).value.path == path
  {}

  // ---- All paths, with multiplicity and order ----

  /** A regular file at the first look. */
  predicate IsRegular(look: Look) {
    look.stat.Some? && look.stat.value.regular
  }

  lemma {:induction false} EntriesAreMatches(matches: seq<string>, looks: string -> Look)
    ensures forall e :: e in EntriesOf(matches, looks) ==>
      IsRegular(looks(e.path)) && e.mtime == looks(e.path).stat.value.mtime
    ensures forall path :: IsRegular(looks(path)) ==>
      multiset(EntriesOf(matches, looks))[Found(looks(path).stat.value.mtime, path)] == multiset(matches)[path]
  {
    if matches != [] {
      var init, last := matches[..|matches| - 1], matches[|matches| - 1];
      EntriesAreMatches(init, looks);
      assert matches == init + [last];
    }
  }

  lemma {:induction false} PlansAreCounted(entries: seq<Found>, looks: string -> Look, offsets: Offsets, q: TailPlan)
    requires forall e :: e in entries ==> IsRegular(looks(e.path)) && e.mtime == looks(e.path).stat.value.mtime
    requires PlanFor(q.path, looks(q.path), offsets) == Some(q) && IsRegular(looks(q.path))
    ensures multiset(PlansFor(entries, looks, offsets))[q]
         == multiset(entries)[Found(looks(q.path).stat.value.mtime, q.path)]
  {
    hide PlanFor;
    if entries != [] {
      var init, e := entries[..|entries| - 1], entries[|entries| - 1];
      assert entries == init + [e] && e in entries && forall x :: x in init ==> x in entries;
      PlansAreCounted(init, looks, offsets, q);
      PlanHasPath(e.path, looks(e.path), offsets);
    }
  }

  /** Exactly the matched regular files whose path is not skipped are planned, each as often as it is matched. */
  lemma {:induction false} DiscoversExactly(matches: seq<string>, looks: string -> Look, offsets: Offsets, q: TailPlan)
    ensures multiset(PlansFor(Sorted(EntriesOf(matches, looks)), looks, offsets))[q]
         == if PlanFor(q.path, looks(q.path), offsets) == Some(q) && IsRegular(looks(q.path))
            then multiset(matches)[q.path] else 0
  {
    hide PlanFor;
    var entries := EntriesOf(matches, looks);
    EntriesAreMatches(matches, looks);
    SortedIsOldestFirst(entries);
    forall e | e in Sorted(entries)
      ensures e in entries
    {
      assert e in multiset(Sorted(entries));
    }
    if PlanFor(q.path, looks(q.path), offsets) == Some(q) && IsRegular(looks(q.path)) {
      PlansAreCounted(Sorted(entries), looks, offsets, q);
    } else if q in PlansFor(Sorted(entries), looks, offsets) {
      PlansAreOfPaths(Sorted(entries), looks, offsets, q);
      PlansAreOfEntries(Sorted(entries), looks, offsets, q);
    }
  }

  lemma {:induction false} PlansAreOfEntries(entries: seq<Found>, looks: string -> Look, offsets: Offsets, q: TailPlan)
    requires q in PlansFor(entries, looks, offsets)
    ensures exists e :: e in entries && e.path == q.path
  {
    hide PlanFor;
    var init, e := entries[..|entries| - 1], entries[|entries| - 1];
    PlanHasPath(e.path, looks(e.path), offsets);
    if PlanFor(e.path, looks(e.path), offsets) != Some(q) {
      PlansAreOfEntries(init, looks, offsets, q);
      var x :| x in init && x.path == q.path;
      assert x in entries;
    } else {
      assert e in entries && e.path == q.path;
    }
  }

  /** Plans come in the order of their files' (mtime, path). */
  ghost predicate PlannedOldestFirst(plans: seq<TailPlan>, looks: string -> Look) {
    forall i, j :: 0 <= i < j < |plans| && IsRegular(looks(plans[i].path)) && IsRegular(looks(plans[j].path)) ==>
      NotLater(Found(looks(plans[i].path).stat.value.mtime, plans[i].path),
               Found(looks(plans[j].path).stat.value.mtime, plans[j].path))
  }

  lemma {:induction false} PlansKeepOrder(entries: seq<Found>, looks: string -> Look, offsets: Offsets)
    requires OldestFirst(entries)
    requires forall e :: e in entries ==> IsRegular(looks(e.path)) && e.mtime == looks(e.path).stat.value.mtime
    ensures PlannedOldestFirst(PlansFor(entries, looks, offsets), looks)
  {
    hide PlanFor, NotLater;
    if entries != [] {
      var init, e := entries[..|entries| - 1], entries[|entries| - 1];
      assert forall x :: x in init ==> x in entries;
      assert e in entries;
      PlansKeepOrder(init, looks, offsets);
      PlanHasPath(e.path, looks(e.path), offsets);
      var before, all := PlansFor(init, looks, offsets), PlansFor(entries, looks, offsets);
      forall i, j | 0 <= i < j < |all| && IsRegular(looks(all[i].path)) && IsRegular(looks(all[j].path))
        ensures NotLater(Found(looks(all[i].path).stat.value.mtime, all[i].path),
                         Found(looks(all[j].path).stat.value.mtime, all[j].path))
      {
        if j == |before| {
          assert all[i] == before[i] && before[i] in before;
          PlansAreOfEntries(init, looks, offsets, before[i]);
          var x :| x in init && x.path == before[i].path;
          var k :| 0 <= k < |init| && init[k] == x;
          assert entries[k] == x && x in entries;
        } else {
          assert all[i] == before[i] && all[j] == before[j];
        }
      }
    }
  }

  lemma {:induction false} DiscoversOldestFirst(matches: seq<string>, looks: string -> Look, offsets: Offsets)
    ensures PlannedOldestFirst(PlansFor(Sorted(EntriesOf(matches, looks)), looks, offsets), looks)
  {
    hide PlannedOldestFirst, OldestFirst, PlanFor;
    var entries := EntriesOf(matches, looks);
    EntriesAreMatches(matches, looks);
    SortedIsOldestFirst(entries);
    forall e | e in Sorted(entries)
      ensures e in entries
    {
      assert e in multiset(Sorted(entries));
    }
    PlansKeepOrder(Sorted(entries), looks, offsets);
  }
}
