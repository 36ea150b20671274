/** `logs/sources.py`: where the next poll starts in each file, and which records are forgotten. */
module Sources {
  import opened Wrappers
  import opened Strings
  import opened Codec
  import opened StateDb

  const FP_PREFIX: nat := 4096

  // ---- What the file system answers ----

  datatype Stat = Stat(mtime: int, regular: bool)

  /** `fingerprint(path)`: an OSError, a file too small, or its first bytes. */
  datatype Head = Gone | Short | Full(prefix: Bytes)

  /** The answers one path gets during a poll: at the first stat, at the prefix read, at the later stat.
      Any of them may come after the file has vanished. */
  datatype Look = Look(stat: Option<Stat>, head: Head, size: Option<nat>)

  function HeadOf(content: Bytes): Head {
    if |content| < FP_PREFIX then Short else Full(content[..FP_PREFIX])
  }

  /** The answers about a file that stays put. */
  function LookAt(content: Bytes, mtime: int): Look {
    Look(Some(Stat(mtime, true)), HeadOf(content), Some(|content|))
  }

  /** The size stored with an offset; a file that has vanished counts as read to the end. */
  function SizeAtRead(sizes: string -> Option<nat>, path: string, offset: int): int {
    if sizes(path).Some? then sizes(path).value else offset
  }

  // ---- discover ----

  datatype TailPlan = TailPlan(path: string, fingerprint: Option<Bytes>, start: int)

  function KeyOf(plan: TailPlan): Key {
    if plan.fingerprint.Some? then Fingerprint(plan.fingerprint.value) else Provisional(plan.path)
  }

  /** Where a poll resumes under a key. */
  function ResumeIn(offsets: Offsets, k: Key): int {
    if k in offsets then offsets[k].offset else 0
  }

  /** Resume from a stored offset unless the file is now smaller. */
  function Resume(stored: int, size: nat): int {
    if size < stored then 0 else stored
  }

  /** The body of the planning loop for one path; `None` is `continue`. */
  function PlanFor(path: string, look: Look, offsets: Offsets): Option<TailPlan> {
    match look.head
    case Gone => None
    case Full(fp) =>
      if Fingerprint(fp) !in offsets then Some(TailPlan(path, Some(fp), 0))
      else if look.size.None? then None
      else Some(TailPlan(path, Some(fp), Resume(offsets[Fingerprint(fp)].offset, look.size.value)))
    case Short =>
      if Provisional(path) !in offsets then Some(TailPlan(path, None, 0))
      else if look.size.None? then None
      else Some(TailPlan(path, None, Resume(offsets[Provisional(path)].offset, look.size.value)))
  }

  datatype Found = Found(mtime: int, path: string)

  predicate Before(a: Found, b: Found) {
    a.mtime < b.mtime || (a.mtime == b.mtime && StrLess(a.path, b.path))
  }

  function Insert(e: Found, sorted: seq<Found>): seq<Found> {
    if sorted == [] || Before(e, sorted[0]) then [e] + sorted else [sorted[0]] + Insert(e, sorted[1..])
  }

  /** `entries.sort(key=(mtime, path))` */
  function Sorted(entries: seq<Found>): seq<Found> {
    if entries == [] then [] else Insert(entries[|entries| - 1], Sorted(entries[..|entries| - 1]))
  }

  /** Regular files that still exist when they are first looked at. */
  function EntriesOf(matches: seq<string>, looks: string -> Look): seq<Found> {
    if matches == [] then []
    else
      var path, rest := matches[|matches| - 1], EntriesOf(matches[..|matches| - 1], looks);
      var st := looks(path).stat;
      if st.Some? && st.value.regular then rest + [Found(st.value.mtime, path)] else rest
  }

  function PlansFor(entries: seq<Found>, looks: string -> Look, offsets: Offsets): seq<TailPlan> {
    if entries == [] then []
    else
      var e, rest := entries[|entries| - 1], PlansFor(entries[..|entries| - 1], looks, offsets);
      var plan := PlanFor(e.path, looks(e.path), offsets);
      if plan.Some? then rest + [plan.value] else rest
  }

  method Discover(matches: seq<string>, looks: string -> Look, offsets: Offsets) returns (plans: seq<TailPlan>)
    ensures plans == PlansFor(Sorted(EntriesOf(matches, looks)), looks, offsets)
  {
    var entries: seq<Found> := [];
    for i := 0 to |matches|
      invariant entries == EntriesOf(matches[..i], looks)
    {
      assert matches[..i + 1][..i] == matches[..i];
      var st := looks(matches[i]).stat;
      if st.Some? && st.value.regular {
        entries := entries + [Found(st.value.mtime, matches[i])];
      }
    }
    assert matches[..|matches|] == matches;
    entries := Sorted(entries);
    plans := [];
    for i := 0 to |entries|
      invariant plans == PlansFor(entries[..i], looks, offsets)
    {
      assert entries[..i + 1][..i] == entries[..i];
      var plan := PlanFor(entries[i].path, looks(entries[i].path), offsets);
      if plan.Some? {
        plans := plans + [plan.value];
      }
    }
    assert entries[..|entries|] == entries;
  }

  // ---- Order: oldest first, then by name ----

  /** `a` is older than `b`, or as old and not after it by name. */
  ghost predicate NotLater(a: Found, b: Found) {
    a.mtime < b.mtime || (a.mtime == b.mtime && !StrLess(b.path, a.path))
  }

  /** By (mtime, path). */
  ghost predicate OldestFirst(s: seq<Found>) {
    forall i, j :: 0 <= i < j < |s| ==> NotLater(s[i], s[j])
  }

  lemma {:induction false} NotLaterIff(a: Found, b: Found)
    ensures NotLater(a, b) <==> !Before(b, a)
  {
    hide StrLess;
  }

  lemma {:induction false} BeforeIsStrict(a: Found, b: Found, c: Found)
    ensures !Before(a, a)
    ensures Before(a, b) && Before(b, c) ==> Before(a, c)
  {
    StrLessIsStrict(a.path, b.path, c.path);
    hide StrLess;
  }

  ghost predicate NoInversion(s: seq<Found>) {
    forall i, j :: 0 <= i < j < |s| ==> !Before(s[j], s[i])
  }

  lemma {:induction false} InsertAdds(e: Found, s: seq<Found>)
    ensures multiset(Insert(e, s)) == multiset(s) + multiset{e}
  {
    hide Before;
    if s != [] && Insert(e, s) != [e] + s {
      InsertAdds(e, s[1..]);
      assert s == [s[0]] + s[1..];
      assert multiset([s[0]] + Insert(e, s[1..])) == multiset{s[0]} + multiset(Insert(e, s[1..]));
    }
  }

  ghost predicate NoneBefore(m: Found, s: seq<Found>) {
    forall i :: 0 <= i < |s| ==> !Before(s[i], m)
  }

  lemma {:induction false} InsertNoneBefore(e: Found, s: seq<Found>, m: Found)
    requires NoneBefore(m, s) && !Before(e, m)
    ensures NoneBefore(m, Insert(e, s))
  {
    hide Before;
    if s != [] && Insert(e, s) != [e] + s {
      InsertNoneBefore(e, s[1..], m);
    }
  }

  lemma {:induction false} InsertKeepsOrder(e: Found, s: seq<Found>)
    requires NoInversion(s)
    ensures NoInversion(Insert(e, s))
  {
    hide Before;
    if s != [] && !Before(e, s[0]) {
      InsertKeepsOrder(e, s[1..]);
      assert NoneBefore(s[0], s[1..]);
      InsertNoneBefore(e, s[1..], s[0]);
      PrependOldest(s[0], Insert(e, s[1..]));
    } else if s != [] {
      forall i | 0 <= i < |s|
        ensures !Before(s[i], e)
      {
        BeforeIsStrict(s[i], e, s[0]);
        BeforeIsStrict(s[0], e, s[0]);
      }
      PrependOldest(e, s);
    }
  }

  lemma {:induction false} PrependOldest(e: Found, s: seq<Found>)
    requires NoInversion(s) && NoneBefore(e, s)
    ensures NoInversion([e] + s)
  {
    hide Before;
  }

  lemma {:induction false} SortedHasNoInversion(s: seq<Found>)
    ensures NoInversion(Sorted(s)) && multiset(Sorted(s)) == multiset(s)
  {
    hide Before;
    if s != [] {
      var init, e := s[..|s| - 1], s[|s| - 1];
      SortedHasNoInversion(init);
      InsertAdds(e, Sorted(init));
      InsertKeepsOrder(e, Sorted(init));
      assert s == init + [e];
    }
  }

  /** Archives are planned before the live file: the planning order is by age and then by name, and sorting
      loses nothing. */
  lemma {:induction false} SortedIsOldestFirst(s: seq<Found>)
    ensures OldestFirst(Sorted(s)) && multiset(Sorted(s)) == multiset(s)
  {
    hide Before, NotLater;
    SortedHasNoInversion(s);
    var sorted := Sorted(s);
    forall i, j | 0 <= i < j < |sorted|
      ensures NotLater(sorted[i], sorted[j])
    {
      NotLaterIff(sorted[i], sorted[j]);
    }
  }

  // ---- Renaming changes nothing for fingerprinted files ----

  /** What a plan says about content: which, and from where. */
  datatype Position = Position(prefix: Bytes, start: int)

  function StartFor(content: Bytes, offsets: Offsets): int
    requires |content| >= FP_PREFIX
  {
    var k := Fingerprint(content[..FP_PREFIX]);
    if k in offsets then Resume(offsets[k].offset, |content|) else 0
  }

  /** The positions of the fingerprinted plans. */
  function Positions(plans: seq<TailPlan>): multiset<Position> {
    if plans == [] then multiset{}
    else
      var p, rest := plans[|plans| - 1], Positions(plans[..|plans| - 1]);
      if p.fingerprint.Some? then rest + multiset{Position(p.fingerprint.value, p.start)} else rest
  }

  /** The positions the contents of files call for, wherever they are and whatever they are called. */
  function PositionsOf(contents: seq<Bytes>, offsets: Offsets): multiset<Position> {
    if contents == [] then multiset{}
    else
      var c, rest := contents[|contents| - 1], PositionsOf(contents[..|contents| - 1], offsets);
      if |c| < FP_PREFIX then rest else rest + multiset{Position(c[..FP_PREFIX], StartFor(c, offsets))}
  }

  /** A directory whose matched paths all hold files that stay put during the poll. */
  ghost predicate Settles(looks: string -> Look, matches: seq<string>, contentAt: string -> Bytes) {
    forall p :: p in matches ==>
      && looks(p).stat.Some? && looks(p).stat.value.regular
      && looks(p).head == HeadOf(contentAt(p)) && looks(p).size == Some(|contentAt(p)|)
  }

  function EntryPositions(entries: seq<Found>, contentAt: string -> Bytes, offsets: Offsets): multiset<Position> {
    if entries == [] then multiset{}
    else
      var c := contentAt(entries[|entries| - 1].path);
      var rest := EntryPositions(entries[..|entries| - 1], contentAt, offsets);
      if |c| < FP_PREFIX then rest else rest + multiset{Position(c[..FP_PREFIX], StartFor(c, offsets))}
  }

  lemma {:induction false} PlansHavePositions(entries: seq<Found>, looks: string -> Look, offsets: Offsets,
                                              contentAt: string -> Bytes)
    requires forall e :: e in entries ==>
      looks(e.path).head == HeadOf(contentAt(e.path)) && looks(e.path).size == Some(|contentAt(e.path)|)
    ensures Positions(PlansFor(entries, looks, offsets)) == EntryPositions(entries, contentAt, offsets)
  {
    if entries != [] {
      var init, e := entries[..|entries| - 1], entries[|entries| - 1];
      assert forall x :: x in init ==> x in entries;
      PlansHavePositions(init, looks, offsets, contentAt);
      assert e in entries;
      var c := contentAt(e.path);
      OnePosition(e.path, looks(e.path), c, offsets);
      hide PlanFor, StartFor, HeadOf;
      var rest, plan := PlansFor(init, looks, offsets), PlanFor(e.path, looks(e.path), offsets);
      assert (rest + [plan.value])[..|rest|] == rest;
    }
  }

  lemma {:induction false} OnePosition(path: string, look: Look, c: Bytes, offsets: Offsets)
    requires look.head == HeadOf(c) && look.size == Some(|c|)
    ensures var plan := PlanFor(path, look, offsets);
      && plan.Some?
      && (|c| < FP_PREFIX ==> plan.value.fingerprint.None?)
      && (|c| >= FP_PREFIX ==>
            plan.value.fingerprint == Some(c[..FP_PREFIX]) && plan.value.start == StartFor(c, offsets))
  {}

  lemma {:induction false} PositionsOfInsert(e: Found, s: seq<Found>, contentAt: string -> Bytes, offsets: Offsets)
    ensures EntryPositions(Insert(e, s), contentAt, offsets) == EntryPositions(s + [e], contentAt, offsets)
  {
    hide Before, EntryPositions;
    if s == [] {
      assert [e] + s == s + [e];
    } else if Before(e, s[0]) {
      EntryPositionsAppend([e], s, contentAt, offsets);
      EntryPositionsAppend(s, [e], contentAt, offsets);
    } else {
      PositionsOfInsert(e, s[1..], contentAt, offsets);
      EntryPositionsAppend([s[0]], Insert(e, s[1..]), contentAt, offsets);
      EntryPositionsAppend([s[0]], s[1..] + [e], contentAt, offsets);
      assert [s[0]] + (s[1..] + [e]) == s + [e];
    }
  }

  lemma {:induction false} EntryPositionsAppend(a: seq<Found>, b: seq<Found>, contentAt: string -> Bytes,
                                                offsets: Offsets)
    ensures EntryPositions(a + b, contentAt, offsets)
         == EntryPositions(a, contentAt, offsets) + EntryPositions(b, contentAt, offsets)
    decreases |b|
  {
    if b == [] {
      assert a + b == a;
    } else {
      var c := a + b;
      assert c[..|c| - 1] == a + b[..|b| - 1];
      EntryPositionsAppend(a, b[..|b| - 1], contentAt, offsets);
    }
  }

  lemma {:induction false} SortKeepsPositions(s: seq<Found>, contentAt: string -> Bytes, offsets: Offsets)
    ensures EntryPositions(Sorted(s), contentAt, offsets) == EntryPositions(s, contentAt, offsets)
  {
    if s != [] {
      var init, e := s[..|s| - 1], s[|s| - 1];
      SortKeepsPositions(init, contentAt, offsets);
      PositionsOfInsert(e, Sorted(init), contentAt, offsets);
      EntryPositionsAppend(Sorted(init), [e], contentAt, offsets);
      EntryPositionsAppend(init, [e], contentAt, offsets);
      assert s == init + [e];
    }
  }

  function ContentsAt(matches: seq<string>, contentAt: string -> Bytes): seq<Bytes> {
    seq(|matches|, i requires 0 <= i < |matches| => contentAt(matches[i]))
  }

  lemma {:induction false} EntriesHavePositions(matches: seq<string>, looks: string -> Look, contentAt: string -> Bytes,
                                                offsets: Offsets)
    requires Settles(looks, matches, contentAt)
    ensures EntryPositions(EntriesOf(matches, looks), contentAt, offsets)
         == PositionsOf(ContentsAt(matches, contentAt), offsets)
    ensures forall e :: e in EntriesOf(matches, looks) ==> e.path in matches
  {
    if matches != [] {
      var init, last := matches[..|matches| - 1], matches[|matches| - 1];
      assert forall p :: p in init ==> p in matches;
      assert last in matches;
      EntriesHavePositions(init, looks, contentAt, offsets);
      assert ContentsAt(matches, contentAt)[..|init|] == ContentsAt(init, contentAt);
      var rest := EntriesOf(init, looks);
      var all := EntriesOf(matches, looks);
      assert all[..|rest|] == rest;
    }
  }

  lemma {:induction false} PositionsIgnoreOrder(a: seq<Bytes>, b: seq<Bytes>, offsets: Offsets)
    requires multiset(a) == multiset(b)
    ensures PositionsOf(a, offsets) == PositionsOf(b, offsets)
    decreases |a|
  {
    if a == [] {
      assert |multiset(a)| == |a| && |multiset(b)| == |b|;
    } else {
      var init, c := a[..|a| - 1], a[|a| - 1];
      var left, right := WithoutOne(a, b);
      PositionsIgnoreOrder(init, left + right, offsets);
      PositionsOfAppend(left, right, offsets);
      PositionsOfAppend(left, [c] + right, offsets);
      PositionsOfAppend([c], right, offsets);
      PositionsOfAppend(init, [c], offsets);
      assert a == init + [c];
    }
  }

  /** Taking the last element of `a` out of a rearrangement of `a`. */
  lemma {:induction false} WithoutOne<T>(a: seq<T>, b: seq<T>) returns (left: seq<T>, right: seq<T>)
    requires a != [] && multiset(a) == multiset(b)
    ensures b == left + ([a[|a| - 1]] + right) && multiset(a[..|a| - 1]) == multiset(left + right)
  {
    var init, c := a[..|a| - 1], a[|a| - 1];
    assert a == init + [c];
    assert c in multiset(b);
    var k :| 0 <= k < |b| && b[k] == c;
    left, right := b[..k], b[k + 1..];
    assert b == left + ([c] + right);
    assert multiset(b) == multiset(left) + multiset{c} + multiset(right);
    assert multiset(left + right) == multiset(left) + multiset(right);
    Cancel(multiset(init), multiset(left + right), c);
  }

  lemma {:induction false} Cancel<T>(x: multiset<T>, y: multiset<T>, c: T)
    requires x + multiset{c} == y + multiset{c}
    ensures x == y
  {
    forall e
      ensures x[e] == y[e]
    {
      assert (x + multiset{c})[e] == (y + multiset{c})[e];
    }
  }

  lemma {:induction false} PositionsOfAppend(a: seq<Bytes>, b: seq<Bytes>, offsets: Offsets)
    ensures PositionsOf(a + b, offsets) == PositionsOf(a, offsets) + PositionsOf(b, offsets)
    decreases |b|
  {
    if b == [] {
      assert a + b == a;
    } else {
      var c := a + b;
      assert c[..|c| - 1] == a + b[..|b| - 1];
      PositionsOfAppend(a, b[..|b| - 1], offsets);
    }
  }

  /** Rotation is invisible to discovery: the positions planned for fingerprinted files are a function of
      the files' contents and the stored offsets; names, matching order and age play no part. */
  lemma {:induction false} RenamesAreTransparent(
    matches: seq<string>, looks: string -> Look, contentAt: string -> Bytes,
    matches': seq<string>, looks': string -> Look, contentAt': string -> Bytes, offsets: Offsets)
    requires Settles(looks, matches, contentAt) && Settles(looks', matches', contentAt')
    requires multiset(ContentsAt(matches, contentAt)) == multiset(ContentsAt(matches', contentAt'))
    ensures Positions(PlansFor(Sorted(EntriesOf(matches, looks)), looks, offsets))
         == Positions(PlansFor(Sorted(EntriesOf(matches', looks')), looks', offsets))
         == PositionsOf(ContentsAt(matches, contentAt), offsets)
  {
    DiscoveredPositions(matches, looks, contentAt, offsets);
    DiscoveredPositions(matches', looks', contentAt', offsets);
    PositionsIgnoreOrder(ContentsAt(matches, contentAt), ContentsAt(matches', contentAt'), offsets);
  }

  lemma {:induction false} DiscoveredPositions(matches: seq<string>, looks: string -> Look, contentAt: string -> Bytes,
                                               offsets: Offsets)
    requires Settles(looks, matches, contentAt)
    ensures Positions(PlansFor(Sorted(EntriesOf(matches, looks)), looks, offsets))
         == PositionsOf(ContentsAt(matches, contentAt), offsets)
  {
    var entries := EntriesOf(matches, looks);
    EntriesHavePositions(matches, looks, contentAt, offsets);
    SortedIsOldestFirst(entries);
    forall e | e in Sorted(entries)
      ensures e.path in matches
    {
      assert e in multiset(Sorted(entries));
      assert e in entries;
    }
    PlansHavePositions(Sorted(entries), looks, offsets, contentAt);
    SortKeepsPositions(entries, contentAt, offsets);
  }

  /** No plan starts past the end of its file. */
  lemma {:induction false} StartsWithinFile(path: string, content: Bytes, mtime: int, offsets: Offsets)
    requires forall k :: k in offsets ==> 0 <= offsets[k].offset
    ensures var plan := PlanFor(path, LookAt(content, mtime), offsets);
      plan.Some? && plan.value.path == path && 0 <= plan.value.start <= |content|
  {}

  // ---- gc_offsets ----

  /** Exactly the records of the source that no current file uses, with a readable stamp before the cutoff. */
  function Stale(table: OffsetTable, source: string, current: set<Key>, cutoff: int): set<Key> {
    set k | k in OffsetsOf(table, source) && k !in current
            && OffsetsOf(table, source)[k].updatedAt.At? && OffsetsOf(table, source)[k].updatedAt.time < cutoff
  }

  /** An unreferenced record with a readable stamp from before the cutoff. */
  ghost predicate Forgotten(k: Key, fo: FileOffset, current: set<Key>, cutoff: int) {
    k !in current && match fo.updatedAt case At(time) => time < cutoff case Unparseable => false
  }

  /** Exactly the forgotten records of the source are gone; everything else is as before. */
  ghost predicate Sweeps(before: OffsetTable, after: OffsetTable, source: string, current: set<Key>, cutoff: int) {
    && (forall s, k :: (s, k) in after ==> (s, k) in before && after[(s, k)] == before[(s, k)])
    && (forall s, k :: (s, k) in before ==>
          ((s, k) !in after <==> s == source && Forgotten(k, before[(s, k)], current, cutoff)))
  }

  lemma {:induction false} StaleAreForgotten(table: OffsetTable, source: string, current: set<Key>, cutoff: int)
    ensures Sweeps(table, Without(table, source, Stale(table, source, current, cutoff)), source, current, cutoff)
  {}

  lemma {:induction false} WithoutCounts(table: OffsetTable, source: string, keys: set<Key>)
    requires forall k :: k in keys ==> (source, k) in table
    ensures |keys| == |table| - |Without(table, source, keys)|
  {
    var t, gone := Without(table, source, keys), set k | k in keys :: (source, k);
    Tagged(source, keys);
    assert table.Keys == t.Keys + gone && t.Keys !! gone;
    assert |table| == |table.Keys| && |t| == |t.Keys|;
  }

  lemma {:induction false} Tagged(source: string, keys: set<Key>)
    ensures |set k | k in keys :: (source, k)| == |keys|
    decreases keys
  {
    var tagged := set k | k in keys :: (source, k);
    if keys == {} {
      assert tagged == {};
    } else {
      var k :| k in keys;
      Tagged(source, keys - {k});
      assert tagged == (set x | x in keys - {k} :: (source, x)) + {(source, k)};
    }
  }

  /** Taking one key off the list. */
  lemma {:induction false} OneLess(stale: set<Key>, todo: set<Key>, key: Key)
    requires key in todo
    ensures key in stale ==>
      stale - (todo - {key}) == (stale - todo) + {key} && |stale - (todo - {key})| == |stale - todo| + 1
    ensures key !in stale ==> stale - (todo - {key}) == stale - todo
  {
    if key in stale {
      assert stale - (todo - {key}) == (stale - todo) + {key};
    } else {
      assert stale - (todo - {key}) == stale - todo;
    }
  }

  method GcOffsets(state: StateStore, source: string, current: set<Key>, cutoff: int) returns (deleted: nat)
    modifies state`offsets
    ensures state.offsets == Without(old(state.offsets), source, Stale(old(state.offsets), source, current, cutoff))
    ensures deleted == |Stale(old(state.offsets), source, current, cutoff)|
    ensures Sweeps(old(state.offsets), state.offsets, source, current, cutoff)
    ensures deleted == |old(state.offsets)| - |state.offsets|
  {
    hide Without, Sweeps;
    var rows := state.GetOffsets(source);
    ghost var before := state.offsets;
    ghost var stale := Stale(before, source, current, cutoff);
    var todo := rows.Keys;
    deleted := 0;
    assert stale - todo == {};
    WithoutNone(before, source);
    while todo != {}
      invariant todo <= rows.Keys && state.offsets == Without(before, source, stale - todo)
      invariant deleted == |stale - todo|
      decreases |todo|
    {
      var key :| key in todo;
      OneLess(stale, todo, key);
      WithoutOneMore(before, source, stale - todo, key);
      todo := todo - {key};
      var stamp := rows[key].updatedAt;
      if key !in current && stamp.At? && stamp.time < cutoff {
        state.DeleteOffset(source, key);
        deleted := deleted + 1;
      }
    }
    assert stale - todo == stale;
    StaleAreForgotten(before, source, current, cutoff);
    WithoutCounts(before, source, stale);
  }

  /** What is stale depends on the source's own records. */
  lemma {:induction false} SameStale(table: OffsetTable, other: OffsetTable, source: string, current: set<Key>,
                                     cutoff: int)
    requires OffsetsOf(table, source) == OffsetsOf(other, source)
    ensures Stale(table, source, current, cutoff) == Stale(other, source, current, cutoff)
  {}
}
