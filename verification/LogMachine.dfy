/** The log pipeline of one source as a crash-prone step machine.
    Files are identities with append-only bytes; a directory maps paths to them. Producers append, rotate,
    create and remove at any moment, also between the reads of one poll. */
module LogMachine {
  import opened Wrappers
  import opened Lines
  import opened Codec
  import opened Tailer
  import opened StateDb
  import opened Sources
  import opened S3
  import opened Timestamps

  datatype LogPipe = LogPipe(source: string, prefix: string, enc: Encoding, max: int)

  function LogKeyAt(p: LogPipe, run: Instant): string {
    LogsKey(p.prefix, p.source, run)
  }

  /** A shipped line, with the state key it was tracked under (the key itself is not landed). */
  datatype Shipped = Shipped(key: Key, line: Text)

  /** What one plan yielded: the lines between two offsets. */
  datatype Piece = Piece(key: Key, path: string, start: int, end: int, lines: seq<Text>)

  datatype Phase =
    | Idle
    | Discovering(run: Instant, snapshot: Offsets, todo: seq<string>, plans: seq<TailPlan>)
    | Draining(run: Instant, plans: seq<TailPlan>, offset: int, lines: seq<Text>, done: seq<Piece>)
    | Spooled(run: Instant, done: seq<Piece>)
    | Stored(run: Instant, done: seq<Piece>)
    | Sweeping(run: Instant, current: set<Key>)

  /** `repeats` is a history variable: keys under which lines may have been shipped more than once. */
  datatype State = State(files: map<nat, Bytes>, dir: map<string, nat>, table: OffsetTable,
                         objects: Bucket<Shipped>, lastSecond: int, repeats: set<Key>, phase: Phase)

  datatype Action =
    | Change(files: map<nat, Bytes>, dir: map<string, nat>)   // producers: append, rotate, create, remove
    | Begin(start: Instant, matches: seq<string>)             // get_offsets and glob
    | PlanNext(readable: bool)                                 // fingerprint and plan the next match
    | StartDrain
    | ReadNext(readable: bool)                                 // one tail_file call for the plan in front
    | Finish                                                   // nothing collected, or the spool is written
    | Upload(outcome: Outcome)
    | Commit(now: int, sizes: string -> Option<nat>)                   // set_offsets for every plan
    | Forget(key: Key)                                         // gc deletes one record
    | CleanUp
    | Abandon                                                  // crash, or any exit that commits nothing further

  function Empty(): State {
    State(map[], map[], map[], [], -1, {}, Idle)
  }

  // ---- Records ----

  function Tag(key: Key, lines: seq<Text>): seq<Shipped> {
    seq(|lines|, i requires 0 <= i < |lines| => Shipped(key, lines[i]))
  }

  function RecordsOf(pieces: seq<Piece>): seq<Shipped> {
    if pieces == [] then []
    else RecordsOf(pieces[..|pieces| - 1]) + Tag(pieces[|pieces| - 1].key, pieces[|pieces| - 1].lines)
  }

  /** The lines shipped under a key, in upload order. */
  function LinesFor(records: seq<Shipped>, key: Key): seq<Text> {
    if records == [] then []
    else
      var r := records[|records| - 1];
      LinesFor(records[..|records| - 1], key) + (if r.key == key then [r.line] else [])
  }

  function EntriesFor(pieces: seq<Piece>, sizes: string -> Option<nat>): seq<Entry> {
    seq(|pieces|, i requires 0 <= i < |pieces| =>
      Entry(pieces[i].key, pieces[i].path, pieces[i].end, SizeAtRead(sizes, pieces[i].path, pieces[i].end)))
  }

  // ---- Hypotheses on the producers ----

  ghost predicate HasHead(content: Bytes, prefix: Bytes) {
    |content| >= FP_PREFIX && content[..FP_PREFIX] == prefix
  }

  /** Different files that can be fingerprinted differ in their first bytes. */
  ghost predicate DistinctHeads(files: map<nat, Bytes>) {
    forall f, g :: f in files && g in files && f != g && |files[f]| >= FP_PREFIX ==>
      !HasHead(files[g], files[f][..FP_PREFIX])
  }

  /** Content is append-only; new files may appear. */
  ghost predicate Grown(files: map<nat, Bytes>, later: map<nat, Bytes>) {
    forall f :: f in files ==> f in later && files[f] <= later[f]
  }

  function Pending(ph: Phase): seq<TailPlan> {
    if ph.Discovering? || ph.Draining? then ph.plans else []
  }

  /** Between planning and draining, a planned path is not bound to other content; it may vanish, and
      everything else may be renamed freely. */
  ghost predicate PathsKept(plans: seq<TailPlan>, files: map<nat, Bytes>, dir: map<string, nat>) {
    forall q :: q in plans && q.fingerprint.Some? && q.path in dir ==>
      dir[q.path] in files && HasHead(files[dir[q.path]], q.fingerprint.value)
  }

  datatype FileSystem = FileSystem(files: map<nat, Bytes>, dir: map<string, nat>)

  function ContentAt(fs: FileSystem, path: string): Option<Bytes> {
    if path in fs.dir && fs.dir[path] in fs.files then Some(fs.files[fs.dir[path]]) else None
  }

  function FilesOf(s: State): FileSystem {
    FileSystem(s.files, s.dir)
  }

  /** Where the next poll resumes under a key. */
  function ResumeAt(p: LogPipe, s: State, k: Key): int {
    ResumeIn(OffsetsOf(s.table, p.source), k)
  }

  // ---- Steps ----

  ghost predicate Enabled(p: LogPipe, s: State, a: Action) {
    match a
    case Change(files, dir) => Grown(s.files, files) && DistinctHeads(files) && PathsKept(Pending(s.phase), files, dir)
    case Begin(run, _) => s.phase.Idle? && s.lastSecond < run / SECOND
    case PlanNext(_) => s.phase.Discovering? && s.phase.todo != []
    case StartDrain => s.phase.Discovering? && s.phase.todo == []
    case ReadNext(_) => s.phase.Draining? && s.phase.plans != []
    case Finish => s.phase.Draining? && s.phase.plans == []
    case Upload(_) => s.phase.Spooled?
    case Commit(_, _) => s.phase.Stored?
    case Forget(k) => s.phase.Sweeping? && k !in s.phase.current
    case CleanUp => s.phase.Sweeping?
    case Abandon => true
  }

  function StartOfFront(plans: seq<TailPlan>): int {
    if plans == [] then 0 else plans[0].start
  }

  function KeysOf(pieces: seq<Piece>): set<Key> {
    set c | c in pieces :: c.key
  }

  /** One look at a match; it may be gone, or vanish while it is looked at. */
  function Looked(s: State, path: string, readable: bool): Option<TailPlan>
    requires s.phase.Discovering?
  {
    var file := ContentAt(FilesOf(s), path);
    if file.None? || !readable then None else PlanFor(path, LookAt(file.value, 0), s.phase.snapshot)
  }

  function AfterLook(s: State, readable: bool): State
    requires s.phase.Discovering? && s.phase.todo != []
  {
    var Discovering(run, snapshot, todo, plans) := s.phase;
    var plan := Looked(s, todo[0], readable);
    if plan.None? then s.(phase := Discovering(run, snapshot, todo[1..], plans))
    else
      s.(phase := Discovering(run, snapshot, todo[1..], plans + [plan.value]),
         repeats := if exists q :: q in plans && KeyOf(q) == KeyOf(plan.value) then s.repeats + {KeyOf(plan.value)}
                    else s.repeats)
  }

  /** One read of the planned file in front; it may be gone or unreadable. */
  function FrontRead(p: LogPipe, s: State, readable: bool): TailChunk
    requires s.phase.Draining? && s.phase.plans != []
  {
    Tail(if readable then ContentAt(FilesOf(s), s.phase.plans[0].path) else None, s.phase.offset, p.enc, p.max)
  }

  function AfterRead(p: LogPipe, s: State, readable: bool): State
    requires s.phase.Draining? && s.phase.plans != []
  {
    var Draining(run, plans, offset, lines, done) := s.phase;
    var q := plans[0];
    var c := FrontRead(p, s, readable);
    if c.lines == [] then
      s.(phase := Draining(run, plans[1..], StartOfFront(plans[1..]), [],
                           done + [Piece(KeyOf(q), q.path, q.start, offset, lines)]))
    else s.(phase := Draining(run, plans, c.newOffset, lines + c.lines, done))
  }

  function Apply(p: LogPipe, s: State, a: Action): State
    requires a.PlanNext? ==> s.phase.Discovering? && s.phase.todo != []
    requires a.ReadNext? ==> s.phase.Draining? && s.phase.plans != []
    requires a.StartDrain? ==> s.phase.Discovering?
    requires a.Finish? ==> s.phase.Draining?
    requires a.Upload? ==> s.phase.Spooled?
    requires a.Commit? ==> s.phase.Stored?
    requires a.CleanUp? || a.Forget? ==> s.phase.Sweeping?
  {
    match a
    case Change(files, dir) => s.(files := files, dir := dir)
    case Begin(run, matches) =>
      s.(lastSecond := run / SECOND, phase := Discovering(run, OffsetsOf(s.table, p.source), matches, []))
    case PlanNext(readable) => AfterLook(s, readable)
    case StartDrain => s.(phase := Draining(s.phase.run, s.phase.plans, StartOfFront(s.phase.plans), [], []))
    case ReadNext(readable) => AfterRead(p, s, readable)
    case Finish => s.(phase := if RecordsOf(s.phase.done) == [] then Idle else Spooled(s.phase.run, s.phase.done))
    case Upload(o) =>
      s.(objects := Uploaded(s.objects, LogKeyAt(p, s.phase.run), RecordsOf(s.phase.done), o),
         repeats := if o.Unconfirmed? then s.repeats + KeysOf(s.phase.done) else s.repeats,
         phase := if o.Confirmed? then Stored(s.phase.run, s.phase.done) else Idle)
    case Commit(now, sizes) =>
      s.(table := Upserted(s.table, p.source, EntriesFor(s.phase.done, sizes), now),
         phase := Sweeping(s.phase.run, KeysOf(s.phase.done)))
    case Forget(k) => s.(table := s.table - {(p.source, k)}, repeats := s.repeats + {k})
    case CleanUp => s.(phase := Idle)
    case Abandon =>
      s.(repeats := if s.phase.Stored? then s.repeats + KeysOf(s.phase.done) else s.repeats, phase := Idle)
  }

  ghost predicate Legal(p: LogPipe, s: State, steps: seq<Action>)
    decreases |steps|
  {
    steps == [] || (Enabled(p, s, steps[0]) && Legal(p, Apply(p, s, steps[0]), steps[1..]))
  }

  ghost function Exec(p: LogPipe, s: State, steps: seq<Action>): State
    requires Legal(p, s, steps)
    decreases |steps|
  {
    if steps == [] then s else Exec(p, Apply(p, s, steps[0]), steps[1..])
  }

  // ---- What is known about a fingerprint ----

  ghost predicate Anchored(files: map<nat, Bytes>, prefix: Bytes) {
    exists f :: f in files && HasHead(files[f], prefix)
  }

  /** `o` is a line boundary of the content, within it, and every non-blank line before it, counted with
      multiplicity, is among the delivered ones. */
  ghost predicate Delivered(enc: Encoding, content: Bytes, o: int, delivered: seq<Text>) {
    0 <= o <= |content| && Boundary(enc, content, o) && multiset(Span(enc, content, 0, o)) <= multiset(delivered)
  }

  ghost predicate Safe(enc: Encoding, files: map<nat, Bytes>, prefix: Bytes, o: int, delivered: seq<Text>) {
    Anchored(files, prefix)
    && forall f :: f in files && HasHead(files[f], prefix) ==> Delivered(enc, files[f], o, delivered)
  }

  /** The lines are exactly those between two boundaries. */
  ghost predicate Stretch(enc: Encoding, content: Bytes, start: int, end: int, lines: seq<Text>) {
    0 <= start <= end <= |content| && Boundary(enc, content, start) && Boundary(enc, content, end)
    && lines == Span(enc, content, start, end)
  }

  ghost predicate Exact(enc: Encoding, files: map<nat, Bytes>, prefix: Bytes, start: int, end: int, lines: seq<Text>) {
    Anchored(files, prefix)
    && forall f :: f in files && HasHead(files[f], prefix) ==> Stretch(enc, files[f], start, end, lines)
  }

  /** Heads stay with their files while files grow. */
  lemma {:induction false} HeadOwner(files: map<nat, Bytes>, later: map<nat, Bytes>, prefix: Bytes, f: nat)
    requires Grown(files, later) && DistinctHeads(later) && Anchored(files, prefix)
    requires f in later && HasHead(later[f], prefix)
    ensures f in files && HasHead(files[f], prefix)
  {
    var g :| g in files && HasHead(files[g], prefix);
    assert later[g][..FP_PREFIX] == files[g][..FP_PREFIX];
    assert HasHead(later[g], prefix);
  }

  lemma {:induction false} AnchorStays(files: map<nat, Bytes>, later: map<nat, Bytes>, prefix: Bytes)
    requires Grown(files, later) && Anchored(files, prefix)
    ensures Anchored(later, prefix)
  {
    var g :| g in files && HasHead(files[g], prefix);
    assert later[g][..FP_PREFIX] == files[g][..FP_PREFIX];
    assert HasHead(later[g], prefix);
  }

  lemma {:induction false} SafeGrows(enc: Encoding, files: map<nat, Bytes>, later: map<nat, Bytes>, prefix: Bytes,
                                     o: int, delivered: seq<Text>)
    requires Grown(files, later) && DistinctHeads(later) && Safe(enc, files, prefix, o, delivered)
    ensures Safe(enc, later, prefix, o, delivered)
  {
    AnchorStays(files, later, prefix);
    forall f | f in later && HasHead(later[f], prefix)
      ensures Delivered(enc, later[f], o, delivered)
    {
      HeadOwner(files, later, prefix, f);
      GrowthKeeps(enc, files[f], later[f], o);
    }
  }

  lemma {:induction false} ExactGrows(enc: Encoding, files: map<nat, Bytes>, later: map<nat, Bytes>, prefix: Bytes,
                                      start: int, end: int, lines: seq<Text>)
    requires Grown(files, later) && DistinctHeads(later) && Exact(enc, files, prefix, start, end, lines)
    ensures Exact(enc, later, prefix, start, end, lines)
  {
    AnchorStays(files, later, prefix);
    forall f | f in later && HasHead(later[f], prefix)
      ensures Stretch(enc, later[f], start, end, lines)
    {
      HeadOwner(files, later, prefix, f);
      GrowthKeeps(enc, files[f], later[f], start);
      GrowthKeeps(enc, files[f], later[f], end);
    }
  }

  /** Delivering the next stretch moves the safe offset to its end. */
  lemma {:induction false} SafeExtends(enc: Encoding, files: map<nat, Bytes>, prefix: Bytes, start: int, end: int,
                                       lines: seq<Text>, delivered: seq<Text>, more: seq<Text>)
    requires Safe(enc, files, prefix, start, delivered) && Exact(enc, files, prefix, start, end, lines)
    requires multiset(lines) <= multiset(more)
    ensures Safe(enc, files, prefix, end, delivered + more)
  {
    hide Span;
    forall f | f in files && HasHead(files[f], prefix)
      ensures Delivered(enc, files[f], end, delivered + more)
    {
      assert Stretch(enc, files[f], start, end, lines) && Delivered(enc, files[f], start, delivered);
      SpanAppend(enc, files[f], 0, start, end);
      assert multiset(Span(enc, files[f], 0, start) + lines)
          == multiset(Span(enc, files[f], 0, start)) + multiset(lines);
      assert multiset(delivered + more) == multiset(delivered) + multiset(more);
    }
  }

  lemma {:induction false} SafeWithMore(enc: Encoding, files: map<nat, Bytes>, prefix: Bytes, o: int,
                                        delivered: seq<Text>, more: seq<Text>)
    requires Safe(enc, files, prefix, o, delivered)
    ensures Safe(enc, files, prefix, o, delivered + more)
  {
    hide Span;
    assert multiset(delivered + more) == multiset(delivered) + multiset(more);
    forall f | f in files && HasHead(files[f], prefix)
      ensures Delivered(enc, files[f], o, delivered + more)
    {
      assert Delivered(enc, files[f], o, delivered);
    }
  }

  /** A file never read before is safe at 0. */
  lemma {:induction false} ZeroIsSafe(enc: Encoding, files: map<nat, Bytes>, prefix: Bytes, delivered: seq<Text>)
    requires Anchored(files, prefix)
    ensures Safe(enc, files, prefix, 0, delivered)
  {
    forall f | f in files && HasHead(files[f], prefix)
      ensures Delivered(enc, files[f], 0, delivered)
    {
      SpanEmpty(enc, files[f], 0);
    }
  }

  lemma {:induction false} NothingIsExact(enc: Encoding, files: map<nat, Bytes>, prefix: Bytes, o: int,
                                          delivered: seq<Text>)
    requires Safe(enc, files, prefix, o, delivered)
    ensures Exact(enc, files, prefix, o, o, [])
  {
    forall f | f in files && HasHead(files[f], prefix)
      ensures Stretch(enc, files[f], o, o, [])
    {
      assert Delivered(enc, files[f], o, delivered);
      SpanEmpty(enc, files[f], o);
    }
  }

  // ---- Records by key ----

  lemma {:induction false} LinesForAppend(a: seq<Shipped>, b: seq<Shipped>, k: Key)
    ensures LinesFor(a + b, k) == LinesFor(a, k) + LinesFor(b, k)
    decreases |b|
  {
    if b == [] {
      assert a + b == a;
    } else {
      var c := a + b;
      assert c[..|c| - 1] == a + b[..|b| - 1];
      LinesForAppend(a, b[..|b| - 1], k);
      Assoc(LinesFor(a, k), LinesFor(b[..|b| - 1], k), if b[|b| - 1].key == k then [b[|b| - 1].line] else []);
    }
  }

  lemma {:induction false} LinesForTag(key: Key, lines: seq<Text>, k: Key)
    ensures LinesFor(Tag(key, lines), k) == if k == key then lines else []
  {
    if lines != [] {
      var init := lines[..|lines| - 1];
      assert Tag(key, lines)[..|init|] == Tag(key, init);
      LinesForTag(key, init, k);
      assert lines == init + [lines[|lines| - 1]];
    }
  }

  /** A piece's lines are among those its records carry under its key. */
  lemma {:induction false} PieceIsRecorded(pieces: seq<Piece>, i: nat)
    requires i < |pieces|
    ensures multiset(pieces[i].lines) <= multiset(LinesFor(RecordsOf(pieces), pieces[i].key))
  {
    hide LinesFor, Tag;
    var init, last := pieces[..|pieces| - 1], pieces[|pieces| - 1];
    var k := pieces[i].key;
    LinesForAppend(RecordsOf(init), Tag(last.key, last.lines), k);
    LinesForTag(last.key, last.lines, k);
    var a, b := LinesFor(RecordsOf(init), k), LinesFor(Tag(last.key, last.lines), k);
    assert multiset(a + b) == multiset(a) + multiset(b);
    if i < |init| {
      assert init[i] == pieces[i];
      PieceIsRecorded(init, i);
    }
  }
}
