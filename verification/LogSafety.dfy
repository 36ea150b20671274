/** No log line is lost across rotation, failures and crashes. */
module LogSafety {
  import opened Wrappers
  import opened Lines
  import opened Codec
  import opened Tailer
  import opened StateDb
  import opened Sources
  import opened S3
  import opened Timestamps
  import opened LogMachine

  /** All lines ever shipped under a key, in upload order. */
  function DeliveredFor(s: State, k: Key): seq<Text> {
    LinesFor(Contents(s.objects), k)
  }

  // ---- Invariant ----

  ghost predicate LogKeyUpTo(p: LogPipe, key: string, second: int) {
    exists t: Instant :: t / SECOND <= second && key == LogKeyAt(p, t)
  }

  ghost predicate LogKeysUpTo(p: LogPipe, b: Bucket<Shipped>, second: int) {
    forall i :: 0 <= i < |b| ==> LogKeyUpTo(p, b[i].key, second)
  }

  ghost predicate Ordered(p: LogPipe, s: State) {
    && (!s.phase.Idle? ==> s.phase.run / SECOND == s.lastSecond)
    && LogKeysUpTo(p, s.objects,
                   if s.phase.Discovering? || s.phase.Draining? || s.phase.Spooled? then s.lastSecond - 1
                   else s.lastSecond)
  }

  ghost predicate SafeAt(p: LogPipe, s: State, prefix: Bytes, o: int) {
    Safe(p.enc, s.files, prefix, o, DeliveredFor(s, Fingerprint(prefix)))
  }

  /** Every durable fingerprint-keyed offset is a line boundary of its content, at most its size, and
      every non-blank line before it has been shipped. */
  ghost predicate TableSafe(p: LogPipe, s: State) {
    forall x: Bytes :: (p.source, Fingerprint(x)) in s.table ==>
      SafeAt(p, s, x, s.table[(p.source, Fingerprint(x))].offset)
  }

  ghost predicate PlansSafe(p: LogPipe, s: State) {
    forall q :: q in Pending(s.phase) && q.fingerprint.Some? ==> SafeAt(p, s, q.fingerprint.value, q.start)
  }

  ghost predicate FrontExact(p: LogPipe, s: State) {
    s.phase.Draining? && s.phase.plans != [] && s.phase.plans[0].fingerprint.Some? ==>
      Exact(p.enc, s.files, s.phase.plans[0].fingerprint.value, s.phase.plans[0].start, s.phase.offset, s.phase.lines)
  }

  ghost predicate PieceReady(p: LogPipe, s: State, c: Piece) {
    c.key.Fingerprint? ==>
      Exact(p.enc, s.files, c.key.prefix, c.start, c.end, c.lines) && SafeAt(p, s, c.key.prefix, c.start)
  }

  ghost predicate DoneReady(p: LogPipe, s: State) {
    s.phase.Draining? || s.phase.Spooled? ==> forall c :: c in s.phase.done ==> PieceReady(p, s, c)
  }

  ghost predicate StoredSafe(p: LogPipe, s: State) {
    s.phase.Stored? ==> forall c :: c in s.phase.done && c.key.Fingerprint? ==> SafeAt(p, s, c.key.prefix, c.end)
  }

  ghost predicate Inv(p: LogPipe, s: State) {
    && DistinctHeads(s.files) && Ordered(p, s) && TableSafe(p, s)
    && PlansSafe(p, s) && PathsKept(Pending(s.phase), s.files, s.dir)
    && (s.phase.Discovering? ==> s.phase.snapshot == OffsetsOf(s.table, p.source))
    && FrontExact(p, s) && DoneReady(p, s) && StoredSafe(p, s)
  }

  // ---- Steps ----

  lemma {:induction false} ChangeKeeps(p: LogPipe, s: State, files: map<nat, Bytes>, dir: map<string, nat>)
    requires Inv(p, s) && Enabled(p, s, Change(files, dir))
    ensures Inv(p, Apply(p, s, Change(files, dir)))
  {
    hide Safe, Exact, HasHead, LinesFor, Contents, LogKeysUpTo, Anchored;
    var t := Apply(p, s, Change(files, dir));
    forall x: Bytes, o: int | SafeAt(p, s, x, o)
      ensures SafeAt(p, t, x, o)
    {
      SafeGrows(p.enc, s.files, files, x, o, DeliveredFor(s, Fingerprint(x)));
    }
    forall x: Bytes, start: int, end: int, lines: seq<Text> | Exact(p.enc, s.files, x, start, end, lines)
      ensures Exact(p.enc, files, x, start, end, lines)
    {
      ExactGrows(p.enc, s.files, files, x, start, end, lines);
    }
    assert DoneReady(p, t) by {
      forall c | (t.phase.Draining? || t.phase.Spooled?) && c in t.phase.done
        ensures PieceReady(p, t, c)
      {
        assert PieceReady(p, s, c);
      }
    }
  }

  lemma {:induction false} KeysStayOld(p: LogPipe, b: Bucket<Shipped>, second: int, later: int)
    requires LogKeysUpTo(p, b, second) && second <= later
    ensures LogKeysUpTo(p, b, later)
  {
    forall i | 0 <= i < |b|
      ensures LogKeyUpTo(p, b[i].key, later)
    {
      assert LogKeyUpTo(p, b[i].key, second);
    }
  }

  lemma {:induction false} BeginKeeps(p: LogPipe, s: State, run: Instant, matches: seq<string>)
    requires Inv(p, s) && Enabled(p, s, Begin(run, matches))
    ensures Inv(p, Apply(p, s, Begin(run, matches)))
  {
    hide Safe, Exact, HasHead, LinesFor, Contents, LogKeysUpTo, OffsetsOf, DistinctHeads;
    KeysStayOld(p, s.objects, s.lastSecond, run / SECOND - 1);
  }

  /** A plan for a file that is really there starts at a safe offset. */
  lemma {:induction false} LookIsSafe(p: LogPipe, s: State, path: string, readable: bool)
    requires Inv(p, s) && s.phase.Discovering?
    requires var plan := Looked(s, path, readable); plan.Some? && plan.value.fingerprint.Some?
    ensures var plan := Looked(s, path, readable).value;
      && SafeAt(p, s, plan.fingerprint.value, plan.start)
      && plan.path == path && path in s.dir && s.dir[path] in s.files
      && HasHead(s.files[s.dir[path]], plan.fingerprint.value)
  {
    hide LinesFor, Contents, Span, LogKeysUpTo;
    var f := s.dir[path];
    var content := s.files[f];
    var x := content[..FP_PREFIX];
    assert HasHead(content, x);
    assert Anchored(s.files, x);
    if (p.source, Fingerprint(x)) in s.table {
      var o := s.table[(p.source, Fingerprint(x))].offset;
      assert SafeAt(p, s, x, o);
      assert Delivered(p.enc, content, o, DeliveredFor(s, Fingerprint(x)));
    } else {
      ZeroIsSafe(p.enc, s.files, x, DeliveredFor(s, Fingerprint(x)));
    }
  }

  lemma {:induction false} PlanNextKeeps(p: LogPipe, s: State, readable: bool)
    requires Inv(p, s) && Enabled(p, s, PlanNext(readable))
    ensures Inv(p, Apply(p, s, PlanNext(readable)))
  {
    hide Safe, Exact, HasHead, LinesFor, Contents, LogKeysUpTo, OffsetsOf, DistinctHeads, Looked, KeyOf;
    var t := Apply(p, s, PlanNext(readable));
    var plan := Looked(s, s.phase.todo[0], readable);
    if plan.Some? && plan.value.fingerprint.Some? {
      LookIsSafe(p, s, s.phase.todo[0], readable);
    }
    assert forall q :: q in t.phase.plans ==> q in s.phase.plans || (plan.Some? && q == plan.value);
    assert PlansSafe(p, t);
    assert PathsKept(Pending(t.phase), t.files, t.dir);
  }

  lemma {:induction false} FrontStarts(p: LogPipe, s: State, plans: seq<TailPlan>)
    requires plans != [] && plans[0].fingerprint.Some? ==> SafeAt(p, s, plans[0].fingerprint.value, plans[0].start)
    ensures plans != [] && plans[0].fingerprint.Some? ==>
      Exact(p.enc, s.files, plans[0].fingerprint.value, plans[0].start, StartOfFront(plans), [])
  {
    hide Safe, Exact, LinesFor, Contents;
    if plans != [] && plans[0].fingerprint.Some? {
      var x := plans[0].fingerprint.value;
      NothingIsExact(p.enc, s.files, x, plans[0].start, DeliveredFor(s, Fingerprint(x)));
    }
  }

  lemma {:induction false} StartDrainKeeps(p: LogPipe, s: State)
    requires Inv(p, s) && Enabled(p, s, StartDrain)
    ensures Inv(p, Apply(p, s, StartDrain))
  {
    hide Safe, Exact, HasHead, LinesFor, Contents, LogKeysUpTo, OffsetsOf, DistinctHeads;
    var plans := s.phase.plans;
    assert plans != [] ==> plans[0] in plans;
    FrontStarts(p, s, plans);
  }

  /** One more read of the front file extends the exact stretch. */
  lemma {:induction false} ReadIsExact(p: LogPipe, s: State, readable: bool)
    requires Inv(p, s) && s.phase.Draining? && s.phase.plans != [] && s.phase.plans[0].fingerprint.Some?
    requires FrontRead(p, s, readable).lines != []
    ensures var q := s.phase.plans[0];
      var c := FrontRead(p, s, readable);
      Exact(p.enc, s.files, q.fingerprint.value, q.start, c.newOffset, s.phase.lines + c.lines)
  {
    hide LinesFor, Contents, Span, LogKeysUpTo, Tail, Safe;
    var q := s.phase.plans[0];
    var x := q.fingerprint.value;
    NoFileNoLines(s.phase.offset, p.enc, p.max);
    var f := s.dir[q.path];
    var content := s.files[f];
    assert q in Pending(s.phase) && HasHead(content, x);
    assert Stretch(p.enc, content, q.start, s.phase.offset, s.phase.lines);
    var end := TailIsExact(content, s.phase.offset, p.enc, p.max);
    SpanAppend(p.enc, content, q.start, s.phase.offset, end);
    forall g | g in s.files && HasHead(s.files[g], x)
      ensures Stretch(p.enc, s.files[g], q.start, end, Span(p.enc, content, q.start, end))
    {
      HeadIsUnique(s.files, f, g, x);
    }
  }

  lemma {:induction false} NoFileNoLines(offset: int, enc: Encoding, max: int)
    ensures Tail(None, offset, enc, max).lines == []
  {}

  lemma {:induction false} HeadIsUnique(files: map<nat, Bytes>, f: nat, g: nat, x: Bytes)
    requires DistinctHeads(files) && f in files && g in files && HasHead(files[f], x) && HasHead(files[g], x)
    ensures f == g
  {
    assert files[f][..FP_PREFIX] == x;
  }

  /** A read that returned lines. */
  lemma {:induction false} ReadMoreKeeps(p: LogPipe, s: State, readable: bool)
    requires Inv(p, s) && Enabled(p, s, ReadNext(readable))
    requires FrontRead(p, s, readable).lines != []
    ensures Inv(p, Apply(p, s, ReadNext(readable)))
  {
    hide Safe, Exact, HasHead, LinesFor, Contents, LogKeysUpTo, OffsetsOf, DistinctHeads, FrontRead, KeyOf, Tail,
      PathsKept, LogKeyAt, Put, Upserted, RecordsOf, Grown;
    if s.phase.plans[0].fingerprint.Some? {
      ReadIsExact(p, s, readable);
    }
  }

  /** A read that returned nothing closes the piece. */
  lemma {:induction false} ReadLastKeeps(p: LogPipe, s: State, readable: bool)
    requires Inv(p, s) && Enabled(p, s, ReadNext(readable))
    requires FrontRead(p, s, readable).lines == []
    ensures Inv(p, Apply(p, s, ReadNext(readable)))
  {
    hide Safe, Exact, HasHead, LinesFor, Contents, LogKeysUpTo, OffsetsOf, DistinctHeads, FrontRead;
    var q := s.phase.plans[0];
    var rest := s.phase.plans[1..];
    var t := Apply(p, s, ReadNext(readable));
    assert q in s.phase.plans && forall r :: r in rest ==> r in s.phase.plans;
    assert rest != [] ==> rest[0] in rest;
    FrontStarts(p, s, rest);
    var piece := Piece(KeyOf(q), q.path, q.start, s.phase.offset, s.phase.lines);
    assert PieceReady(p, t, piece);
    assert forall d :: d in t.phase.done ==> d in s.phase.done || d == piece;
    assert DoneReady(p, t) by {
      forall d | d in t.phase.done
        ensures PieceReady(p, t, d)
      {
        assert d in s.phase.done ==> PieceReady(p, s, d);
      }
    }
  }

  lemma {:induction false} FinishKeeps(p: LogPipe, s: State)
    requires Inv(p, s) && Enabled(p, s, Finish)
    ensures Inv(p, Apply(p, s, Finish))
  {
    hide Safe, Exact, HasHead, LinesFor, Contents, LogKeysUpTo, OffsetsOf, DistinctHeads, LinesFor;
    var t := Apply(p, s, Finish);
    KeysStayOld(p, s.objects, s.lastSecond - 1, s.lastSecond);
    assert forall c :: c in s.phase.done ==> PieceReady(p, s, c) ==> PieceReady(p, t, c);
  }

  lemma {:induction false} UploadIsNew(p: LogPipe, s: State, body: seq<Shipped>)
    requires Ordered(p, s) && s.phase.Spooled?
    ensures var b := Put(s.objects, LogKeyAt(p, s.phase.run), body);
      && LogKeysUpTo(p, b, s.lastSecond)
      && Contents(b) == Contents(s.objects) + body
  {
    hide Contents, LogsKey, Put;
    var key := LogKeyAt(p, s.phase.run);
    forall i | 0 <= i < |s.objects|
      ensures s.objects[i].key != key
    {
      assert LogKeyUpTo(p, s.objects[i].key, s.lastSecond - 1);
      var t: Instant :| t / SECOND <= s.lastSecond - 1 && s.objects[i].key == LogKeyAt(p, t);
      LogsKeyInjective(p.prefix, p.source, t, p.source, s.phase.run);
    }
    PutFresh(s.objects, key, body);
    var b := Put(s.objects, key, body);
    KeysStayOld(p, s.objects, s.lastSecond - 1, s.lastSecond);
    forall i | 0 <= i < |b|
      ensures LogKeyUpTo(p, b[i].key, s.lastSecond)
    {
      if i < |s.objects| {
        assert b[i] == s.objects[i];
      } else {
        assert b[i].key == LogKeyAt(p, s.phase.run);
      }
    }
  }

  /** What an upload adds, key by key. */
  lemma {:induction false} UploadDelivers(p: LogPipe, s: State, t: State, k: Key)
    requires Ordered(p, s) && s.phase.Spooled?
    requires t.objects == Put(s.objects, LogKeyAt(p, s.phase.run), RecordsOf(s.phase.done))
    ensures DeliveredFor(t, k) == DeliveredFor(s, k) + LinesFor(RecordsOf(s.phase.done), k)
  {
    hide LogKeyAt, Put, Contents, LogKeysUpTo, RecordsOf, LinesFor;
    UploadIsNew(p, s, RecordsOf(s.phase.done));
    LinesForAppend(Contents(s.objects), RecordsOf(s.phase.done), k);
  }

  lemma {:induction false} UploadKeeps(p: LogPipe, s: State, o: Outcome)
    requires Inv(p, s) && Enabled(p, s, Upload(o))
    ensures Inv(p, Apply(p, s, Upload(o)))
  {
    hide Safe, Exact, HasHead, LinesFor, Contents, LogKeysUpTo, OffsetsOf, DistinctHeads, RecordsOf, Put, LogKeyAt,
      DeliveredFor;
    var t := Apply(p, s, Upload(o));
    if o.Invisible? {
      KeysStayOld(p, s.objects, s.lastSecond - 1, s.lastSecond);
      NothingNew(p, s, t);
    } else {
      UploadIsNew(p, s, RecordsOf(s.phase.done));
      forall x: Bytes | (p.source, Fingerprint(x)) in t.table
        ensures SafeAt(p, t, x, t.table[(p.source, Fingerprint(x))].offset)
      {
        UploadDelivers(p, s, t, Fingerprint(x));
        SafeWithMore(p.enc, s.files, x, t.table[(p.source, Fingerprint(x))].offset, DeliveredFor(s, Fingerprint(x)),
                     LinesFor(RecordsOf(s.phase.done), Fingerprint(x)));
      }
      forall c | c in s.phase.done && c.key.Fingerprint?
        ensures SafeAt(p, t, c.key.prefix, c.end)
      {
        PieceDelivered(p, s, t, c);
      }
    }
  }

  lemma {:induction false} NothingNew(p: LogPipe, s: State, t: State)
    requires TableSafe(p, s) && t.table == s.table && t.files == s.files && t.objects == s.objects
    ensures TableSafe(p, t)
  {
    hide Safe, LinesFor, Contents;
    assert forall x: Bytes, o: int :: SafeAt(p, s, x, o) ==> SafeAt(p, t, x, o);
  }

  lemma {:induction false} PieceDelivered(p: LogPipe, s: State, t: State, c: Piece)
    requires Ordered(p, s) && s.phase.Spooled? && DoneReady(p, s) && c in s.phase.done && c.key.Fingerprint?
    requires t.objects == Put(s.objects, LogKeyAt(p, s.phase.run), RecordsOf(s.phase.done)) && t.files == s.files
    ensures SafeAt(p, t, c.key.prefix, c.end)
  {
    hide Safe, Exact, LinesFor, Contents, RecordsOf, Put, LogKeyAt, LogKeysUpTo;
    assert PieceReady(p, s, c);
    var i :| 0 <= i < |s.phase.done| && s.phase.done[i] == c;
    PieceIsRecorded(s.phase.done, i);
    UploadDelivers(p, s, t, c.key);
    SafeExtends(p.enc, s.files, c.key.prefix, c.start, c.end, c.lines, DeliveredFor(s, c.key),
                LinesFor(RecordsOf(s.phase.done), c.key));
  }

  lemma {:induction false} CommitKeeps(p: LogPipe, s: State, now: int, sizes: string -> Option<nat>)
    requires Inv(p, s) && Enabled(p, s, Commit(now, sizes))
    ensures Inv(p, Apply(p, s, Commit(now, sizes)))
  {
    hide Safe, Exact, HasHead, LinesFor, Contents, LogKeysUpTo, OffsetsOf, DistinctHeads, Upserted;
    var t := Apply(p, s, Commit(now, sizes));
    var done, entries := s.phase.done, EntriesFor(s.phase.done, sizes);
    forall x: Bytes | (p.source, Fingerprint(x)) in t.table
      ensures SafeAt(p, t, x, t.table[(p.source, Fingerprint(x))].offset)
    {
      UpsertedRow(s.table, p.source, entries, now, p.source, Fingerprint(x));
      var o := t.table[(p.source, Fingerprint(x))].offset;
      if HasEntry(entries, Fingerprint(x)) {
        var i :| 0 <= i < |entries| && entries[i].key == Fingerprint(x) && entries[i].offset == o;
        assert done[i] in done && done[i].key.Fingerprint?;
        assert SafeAt(p, s, x, o);
      } else {
        assert SafeAt(p, s, x, o);
      }
      assert SafeAt(p, t, x, o) by { assert DeliveredFor(t, Fingerprint(x)) == DeliveredFor(s, Fingerprint(x)); }
    }
  }

  /** Forgetting records, and leaving a poll at any point, cannot break what is promised about the rest. */
  lemma {:induction false} LeavingKeeps(p: LogPipe, s: State, t: State)
    requires Inv(p, s) && t.files == s.files && t.dir == s.dir && t.objects == s.objects && t.lastSecond == s.lastSecond
    requires forall e :: e in t.table ==> e in s.table && t.table[e] == s.table[e]
    requires t.phase.Idle? || (t.phase == s.phase && s.phase.Sweeping?)
    ensures Inv(p, t)
  {
    hide Safe, Exact, HasHead, LinesFor, Contents, LogKeysUpTo, OffsetsOf, DistinctHeads;
    if s.phase.Discovering? || s.phase.Draining? || s.phase.Spooled? {
      KeysStayOld(p, s.objects, s.lastSecond - 1, s.lastSecond);
    }
    assert forall x: Bytes, o: int :: SafeAt(p, s, x, o) ==> SafeAt(p, t, x, o);
  }

  lemma {:induction false} StepKeeps(p: LogPipe, s: State, a: Action)
    requires Inv(p, s) && Enabled(p, s, a)
    ensures Inv(p, Apply(p, s, a))
  {
    hide Inv, PathsKept, DistinctHeads, Grown, AfterLook, AfterRead, Upserted, RecordsOf, LogKeyAt, Put;
    match a {
      case Change(files, dir) => ChangeKeeps(p, s, files, dir);
      case Begin(run, matches) => BeginKeeps(p, s, run, matches);
      case PlanNext(readable) => PlanNextKeeps(p, s, readable);
      case StartDrain => StartDrainKeeps(p, s);
      case ReadNext(readable) =>
        if FrontRead(p, s, readable).lines == [] {
          ReadLastKeeps(p, s, readable);
        } else {
          ReadMoreKeeps(p, s, readable);
        }
      case Finish => FinishKeeps(p, s);
      case Upload(o) => UploadKeeps(p, s, o);
      case Commit(now, sizes) => CommitKeeps(p, s, now, sizes);
      case _ => LeavingKeeps(p, s, Apply(p, s, a));
    }
  }

  lemma {:induction false} RunsKeep(p: LogPipe, s: State, steps: seq<Action>)
    requires Inv(p, s) && Legal(p, s, steps)
    ensures Inv(p, Exec(p, s, steps))
    decreases |steps|
  {
    hide Inv, Apply;
    if steps != [] {
      StepKeeps(p, s, steps[0]);
      RunsKeep(p, Apply(p, s, steps[0]), steps[1..]);
    }
  }

  lemma {:induction false} EmptyIsGood(p: LogPipe)
    ensures Inv(p, Empty())
  {}

  /** No loss across rotation: after any sequence of appends, renames, new files, polls, upload failures,
      garbage collections and crashes, a file whose fingerprint has a durable offset has every non-blank
      line before that offset in the bucket, and the offset is one of its line boundaries. */
  lemma {:induction false} NoLineIsLost(p: LogPipe, steps: seq<Action>, f: nat)
    requires Legal(p, Empty(), steps)
    requires var s := Exec(p, Empty(), steps);
      f in s.files && |s.files[f]| >= FP_PREFIX && (p.source, Fingerprint(s.files[f][..FP_PREFIX])) in s.table
    ensures var s := Exec(p, Empty(), steps);
      var k := Fingerprint(s.files[f][..FP_PREFIX]);
      Delivered(p.enc, s.files[f], s.table[(p.source, k)].offset, DeliveredFor(s, k))
  {
    hide Exec, Legal;
    EmptyIsGood(p);
    RunsKeep(p, Empty(), steps);
    var s := Exec(p, Empty(), steps);
    var x := s.files[f][..FP_PREFIX];
    assert HasHead(s.files[f], x);
    assert SafeAt(p, s, x, s.table[(p.source, Fingerprint(x))].offset);
  }
}
