/** Without faults every line is shipped exactly once. */
module LogOnce {
  import opened Wrappers
  import opened Lines
  import opened Codec
  import opened Tailer
  import opened StateDb
  import opened Sources
  import opened S3
  import opened LogMachine
  import opened LogSafety

  /** Exactly the lines before the offset were delivered, each once and in order; or the key is untouched. */
  ghost predicate Once(enc: Encoding, files: map<nat, Bytes>, prefix: Bytes, o: int, delivered: seq<Text>) {
    (o == 0 && delivered == []) || Exact(enc, files, prefix, 0, o, delivered)
  }

  ghost predicate OnceAt(p: LogPipe, s: State, k: Key, o: int) {
    k.Fingerprint? && Once(p.enc, s.files, k.prefix, o, DeliveredFor(s, k))
  }

  /** The keys of a poll in planning order. */
  function PollKeys(ph: Phase): seq<Key> {
    if ph.Discovering? then PlanKeys(ph.plans)
    else if ph.Draining? then PieceKeys(ph.done) + PlanKeys(ph.plans)
    else if ph.Spooled? then PieceKeys(ph.done)
    else []
  }

  function PlanKeys(plans: seq<TailPlan>): seq<Key> {
    seq(|plans|, i requires 0 <= i < |plans| => KeyOf(plans[i]))
  }

  function PieceKeys(pieces: seq<Piece>): seq<Key> {
    seq(|pieces|, i requires 0 <= i < |pieces| => pieces[i].key)
  }

  /** Only repeated keys occur twice. */
  ghost predicate Distinct(keys: seq<Key>, repeats: set<Key>) {
    forall i, j :: 0 <= i < j < |keys| && keys[i] == keys[j] ==> keys[i] in repeats
  }

  ghost predicate PlansResume(p: LogPipe, s: State) {
    forall q :: q in Pending(s.phase) && q.fingerprint.Some? && KeyOf(q) !in s.repeats ==>
      q.start == ResumeAt(p, s, KeyOf(q))
  }

  ghost predicate PiecesResume(p: LogPipe, s: State) {
    s.phase.Draining? || s.phase.Spooled? ==>
      forall c :: c in s.phase.done && c.key.Fingerprint? && c.key !in s.repeats ==> c.start == ResumeAt(p, s, c.key)
  }

  ghost predicate AllOnce(p: LogPipe, s: State) {
    forall k: Key :: k.Fingerprint? && k !in s.repeats && !(s.phase.Stored? && k in KeysOf(s.phase.done)) ==>
      OnceAt(p, s, k, ResumeAt(p, s, k))
  }

  /** Uploaded but not committed: the pieces count already. */
  ghost predicate StoredOnce(p: LogPipe, s: State) {
    s.phase.Stored? ==>
      forall c :: c in s.phase.done && c.key.Fingerprint? && c.key !in s.repeats ==> OnceAt(p, s, c.key, c.end)
  }

  ghost predicate OnceInv(p: LogPipe, s: State) {
    && Inv(p, s) && AllOnce(p, s) && StoredOnce(p, s)
    && PlansResume(p, s) && PiecesResume(p, s) && Distinct(PollKeys(s.phase), s.repeats)
  }

  // ---- Steps ----

  lemma {:induction false} ExactJoin(enc: Encoding, files: map<nat, Bytes>, prefix: Bytes, start: int, end: int,
                                     delivered: seq<Text>, lines: seq<Text>)
    requires Once(enc, files, prefix, start, delivered) && Exact(enc, files, prefix, start, end, lines)
    ensures Once(enc, files, prefix, end, delivered + lines)
  {
    hide Span;
    if start == 0 && delivered == [] {
      assert delivered + lines == lines;
    } else {
      forall f | f in files && HasHead(files[f], prefix)
        ensures Stretch(enc, files[f], 0, end, delivered + lines)
      {
        assert Stretch(enc, files[f], 0, start, delivered) && Stretch(enc, files[f], start, end, lines);
        SpanAppend(enc, files[f], 0, start, end);
      }
    }
  }

  lemma {:induction false} OnceGrows(p: LogPipe, s: State, t: State, k: Key, o: int)
    requires Grown(s.files, t.files) && DistinctHeads(t.files) && t.objects == s.objects && OnceAt(p, s, k, o)
    ensures OnceAt(p, t, k, o)
  {
    hide Exact, LinesFor, Contents, Grown, DistinctHeads;
    if !(o == 0 && DeliveredFor(s, k) == []) {
      ExactGrows(p.enc, s.files, t.files, k.prefix, 0, o, DeliveredFor(s, k));
    }
  }

  /** Files may grow; nothing else that matters here changes, except that more keys may be repeated. */
  lemma {:induction false} QuietKeeps(p: LogPipe, s: State, t: State)
    requires OnceInv(p, s) && Inv(p, t) && Grown(s.files, t.files)
    requires t.objects == s.objects && t.table == s.table && s.repeats <= t.repeats
    requires s.phase.Stored? ==> t.phase == s.phase || KeysOf(s.phase.done) <= t.repeats
    requires t.phase.Stored? ==> t.phase == s.phase
    ensures AllOnce(p, t) && StoredOnce(p, t)
  {
    hide Inv, Once, LinesFor, Contents, Grown, DeliveredFor, PlansResume, PiecesResume, PollKeys, KeysOf;
    assert DistinctHeads(t.files) by { assert Inv(p, t); InvHeads(p, t); }
    forall k: Key | k.Fingerprint? && k !in t.repeats && !(t.phase.Stored? && k in KeysOf(t.phase.done))
      ensures OnceAt(p, t, k, ResumeAt(p, t, k))
    {
      OnceGrows(p, s, t, k, ResumeAt(p, s, k));
    }
    if t.phase.Stored? {
      forall c | c in t.phase.done && c.key.Fingerprint? && c.key !in t.repeats
        ensures OnceAt(p, t, c.key, c.end)
      {
        OnceGrows(p, s, t, c.key, c.end);
      }
    }
  }

  lemma {:induction false} InvHeads(p: LogPipe, s: State)
    requires Inv(p, s)
    ensures DistinctHeads(s.files)
  {}

  lemma {:induction false} GrownSame(files: map<nat, Bytes>)
    ensures Grown(files, files)
  {}

  /** A plan resumes at the stored offset: offsets never exceed the file. */
  lemma {:induction false} LookResumes(p: LogPipe, s: State, path: string, readable: bool)
    requires Inv(p, s) && s.phase.Discovering?
    requires var plan := Looked(s, path, readable); plan.Some? && plan.value.fingerprint.Some?
    ensures var plan := Looked(s, path, readable).value; plan.start == ResumeAt(p, s, KeyOf(plan))
  {
    hide LinesFor, Contents, Span, LogKeysUpTo, Boundary;
    var content := s.files[s.dir[path]];
    var x := content[..FP_PREFIX];
    assert HasHead(content, x);
    if (p.source, Fingerprint(x)) in s.table {
      var o := s.table[(p.source, Fingerprint(x))].offset;
      assert SafeAt(p, s, x, o);
      assert Delivered(p.enc, content, o, DeliveredFor(s, Fingerprint(x)));
    }
  }

  lemma {:induction false} PlanNextOnce(p: LogPipe, s: State, readable: bool)
    requires OnceInv(p, s) && Enabled(p, s, PlanNext(readable))
    ensures OnceInv(p, Apply(p, s, PlanNext(readable)))
  {
    hide Inv, Looked, AllOnce, StoredOnce, KeyOf, Grown, PathsKept, ResumeAt, Distinct, PlanKeys, PlansResume, Upserted,
      RecordsOf, LogKeyAt, Put, KeysOf, FrontRead;
    var t := Apply(p, s, PlanNext(readable));
    PlanNextKeeps(p, s, readable);
    GrownSame(s.files);
    QuietKeeps(p, s, t);
    var plan := Looked(s, s.phase.todo[0], readable);
    if plan.Some? {
      DistinctSnoc(s.phase.plans, plan.value, s.repeats, t.repeats);
    }
    PlanNextResumes(p, s, t, readable);
  }

  lemma {:induction false} PlanNextResumes(p: LogPipe, s: State, t: State, readable: bool)
    requires OnceInv(p, s) && Enabled(p, s, PlanNext(readable)) && t == AfterLook(s, readable)
    ensures PlansResume(p, t)
  {
    hide Inv, Looked, AllOnce, StoredOnce, KeyOf, Distinct, PathsKept;
    var plan := Looked(s, s.phase.todo[0], readable);
    if plan.Some? && plan.value.fingerprint.Some? {
      LookResumes(p, s, s.phase.todo[0], readable);
    }
    forall q | q in t.phase.plans && q.fingerprint.Some? && KeyOf(q) !in t.repeats
      ensures q.start == ResumeAt(p, t, KeyOf(q))
    {
      assert q in s.phase.plans || (plan.Some? && q == plan.value);
    }
  }

  lemma {:induction false} DistinctSnoc(plans: seq<TailPlan>, q: TailPlan, repeats: set<Key>, later: set<Key>)
    requires Distinct(PlanKeys(plans), repeats) && repeats <= later
    requires (exists r :: r in plans && KeyOf(r) == KeyOf(q)) ==> KeyOf(q) in later
    ensures Distinct(PlanKeys(plans + [q]), later)
  {
    hide KeyOf;
    var keys, more := PlanKeys(plans), PlanKeys(plans + [q]);
    assert forall i :: 0 <= i < |keys| ==> more[i] == keys[i];
    forall i, j | 0 <= i < j < |more| && more[i] == more[j]
      ensures more[i] in later
    {
      if j == |keys| {
        assert plans[i] in plans && KeyOf(plans[i]) == KeyOf(q);
      } else {
        assert keys[i] == keys[j];
      }
    }
  }

  lemma {:induction false} ReadOnce(p: LogPipe, s: State, readable: bool)
    requires OnceInv(p, s) && Enabled(p, s, ReadNext(readable))
    ensures OnceInv(p, Apply(p, s, ReadNext(readable)))
  {
    hide Inv, AllOnce, StoredOnce, FrontRead, KeyOf, Grown, PathsKept, ResumeAt, Distinct, PollKeys, PlansResume,
      PiecesResume, Upserted, RecordsOf, LogKeyAt, Put, KeysOf, Looked;
    var t := Apply(p, s, ReadNext(readable));
    StepKeeps(p, s, ReadNext(readable));
    GrownSame(s.files);
    QuietKeeps(p, s, t);
    if FrontRead(p, s, readable).lines == [] {
      ReadLastResumes(p, s, t);
    } else {
      SameResumes(p, s, t);
    }
  }

  lemma {:induction false} SameResumes(p: LogPipe, s: State, t: State)
    requires PlansResume(p, s) && PiecesResume(p, s) && s.phase.Draining? && t.phase.Draining?
    requires t.repeats == s.repeats && t.table == s.table
    requires t.phase.plans == s.phase.plans && t.phase.done == s.phase.done
    ensures PlansResume(p, t) && PiecesResume(p, t) && PollKeys(t.phase) == PollKeys(s.phase)
  {}

  /** The front plan becomes the last piece. */
  lemma {:induction false} ReadLastResumes(p: LogPipe, s: State, t: State)
    requires PlansResume(p, s) && PiecesResume(p, s) && s.phase.Draining? && t.phase.Draining? && s.phase.plans != []
    requires t.repeats == s.repeats && t.table == s.table && t.phase.plans == s.phase.plans[1..]
    requires var q := s.phase.plans[0];
      t.phase.done == s.phase.done + [Piece(KeyOf(q), q.path, q.start, s.phase.offset, s.phase.lines)]
    ensures PlansResume(p, t) && PiecesResume(p, t) && PollKeys(t.phase) == PollKeys(s.phase)
  {
    var q := s.phase.plans[0];
    FingerprintKeys(q);
    hide KeyOf, ResumeAt;
    assert q in s.phase.plans && forall r :: r in t.phase.plans ==> r in s.phase.plans;
    assert forall d :: d in t.phase.done ==> d in s.phase.done || d == t.phase.done[|s.phase.done|];
  }

  lemma {:induction false} FingerprintKeys(q: TailPlan)
    ensures KeyOf(q).Fingerprint? <==> q.fingerprint.Some?
  {}

  // ---- Upload and commit ----

  /** A key with one piece contributes just that piece's lines to the records; a key with none, nothing. */
  lemma {:induction false} NoRecords(pieces: seq<Piece>, k: Key)
    requires k !in PieceKeys(pieces)
    ensures LinesFor(RecordsOf(pieces), k) == []
  {
    hide LinesFor, Tag;
    if pieces == [] {
      assert LinesFor([], k) == [] by { NoLinesForNothing(k); }
    } else {
      var init, last := pieces[..|pieces| - 1], pieces[|pieces| - 1];
      assert PieceKeys(pieces)[|pieces| - 1] == last.key;
      assert forall i :: 0 <= i < |init| ==> PieceKeys(init)[i] == PieceKeys(pieces)[i];
      NoRecords(init, k);
      LinesForAppend(RecordsOf(init), Tag(last.key, last.lines), k);
      LinesForTag(last.key, last.lines, k);
    }
  }

  lemma {:induction false} NoLinesForNothing(k: Key)
    ensures LinesFor([], k) == []
  {}

  lemma {:induction false} OneRecord(pieces: seq<Piece>, i: nat, repeats: set<Key>)
    requires i < |pieces| && Distinct(PieceKeys(pieces), repeats) && pieces[i].key !in repeats
    ensures LinesFor(RecordsOf(pieces), pieces[i].key) == pieces[i].lines
  {
    hide LinesFor, Tag;
    var init, last := pieces[..|pieces| - 1], pieces[|pieces| - 1];
    var k := pieces[i].key;
    var keys := PieceKeys(pieces);
    assert forall j :: 0 <= j < |init| ==> PieceKeys(init)[j] == keys[j];
    LinesForAppend(RecordsOf(init), Tag(last.key, last.lines), k);
    LinesForTag(last.key, last.lines, k);
    if i == |init| {
      assert forall j :: 0 <= j < |init| ==> keys[j] == keys[|init|] ==> keys[j] in repeats;
      NoRecords(init, k);
    } else {
      assert init[i] == pieces[i];
      assert keys[i] == k && keys[|init|] == last.key;
      OneRecord(init, i, repeats);
    }
  }

  lemma {:induction false} KeysOfPieces(pieces: seq<Piece>, k: Key)
    ensures k in PieceKeys(pieces) <==> k in KeysOf(pieces)
  {
    var keys := PieceKeys(pieces);
    if k in keys {
      var i :| 0 <= i < |keys| && keys[i] == k;
      assert pieces[i] in pieces;
    }
    if c :| c in pieces && c.key == k {
      var i :| 0 <= i < |pieces| && pieces[i] == c;
      assert keys[i] == k;
    }
  }

  /** A key without a piece gets nothing from the upload. */
  lemma {:induction false} UntouchedOnce(p: LogPipe, s: State, t: State, k: Key)
    requires OnceInv(p, s) && s.phase.Spooled? && k.Fingerprint? && k !in s.repeats && k !in KeysOf(s.phase.done)
    requires t.files == s.files && t.table == s.table
    requires t.objects == s.objects || t.objects == Put(s.objects, LogKeyAt(p, s.phase.run), RecordsOf(s.phase.done))
    ensures OnceAt(p, t, k, ResumeAt(p, t, k))
  {
    assert OnceAt(p, s, k, ResumeAt(p, s, k));
    hide Once, LinesFor, Contents, RecordsOf, Put, LogKeyAt, TableSafe, PlansSafe, DoneReady, AllOnce, KeysOf, Distinct;
    if t.objects != s.objects {
      UploadDelivers(p, s, t, k);
      KeysOfPieces(s.phase.done, k);
      NoRecords(s.phase.done, k);
      assert DeliveredFor(s, k) + [] == DeliveredFor(s, k);
    }
  }

  lemma {:induction false} PieceOnce(p: LogPipe, s: State, t: State, c: Piece)
    requires OnceInv(p, s) && s.phase.Spooled? && c in s.phase.done && c.key.Fingerprint? && c.key !in s.repeats
    requires t.files == s.files && t.objects == Put(s.objects, LogKeyAt(p, s.phase.run), RecordsOf(s.phase.done))
    ensures OnceAt(p, t, c.key, c.end)
  {
    assert PieceReady(p, s, c) && OnceAt(p, s, c.key, c.start);
    hide Once, LinesFor, Contents, RecordsOf, Put, LogKeyAt, TableSafe, PlansSafe, DoneReady, AllOnce, KeysOf, Distinct;
    var i :| 0 <= i < |s.phase.done| && s.phase.done[i] == c;
    OneRecord(s.phase.done, i, s.repeats);
    UploadDelivers(p, s, t, c.key);
    ExactJoin(p.enc, s.files, c.key.prefix, c.start, c.end, DeliveredFor(s, c.key), c.lines);
  }

  lemma {:induction false} UploadOnce(p: LogPipe, s: State, o: Outcome)
    requires OnceInv(p, s) && Enabled(p, s, Upload(o))
    ensures OnceInv(p, Apply(p, s, Upload(o)))
  {
    hide Inv, OnceAt, RecordsOf, Put, LogKeyAt, KeysOf, Upserted, FrontRead, Looked, Grown, PathsKept;
    var t := Apply(p, s, Upload(o));
    UploadKeeps(p, s, o);
    NothingDistinct(t.repeats);
    forall k: Key | k.Fingerprint? && k !in t.repeats && !(t.phase.Stored? && k in KeysOf(t.phase.done))
      ensures OnceAt(p, t, k, ResumeAt(p, t, k))
    {
      if k in KeysOf(s.phase.done) {
        assert o.Invisible?;
        assert OnceAt(p, s, k, ResumeAt(p, s, k));
        SameOnce(p, s, t, k, ResumeAt(p, s, k));
      } else {
        UntouchedOnce(p, s, t, k);
      }
    }
    if o.Confirmed? {
      forall c | c in t.phase.done && c.key.Fingerprint? && c.key !in t.repeats
        ensures OnceAt(p, t, c.key, c.end)
      {
        PieceOnce(p, s, t, c);
      }
    }
  }

  lemma {:induction false} SameOnce(p: LogPipe, s: State, t: State, k: Key, o: int)
    requires t.files == s.files && t.objects == s.objects && OnceAt(p, s, k, o)
    ensures OnceAt(p, t, k, o)
  {}

  lemma {:induction false} CommitOnce(p: LogPipe, s: State, now: int, sizes: string -> Option<nat>)
    requires OnceInv(p, s) && Enabled(p, s, Commit(now, sizes))
    ensures OnceInv(p, Apply(p, s, Commit(now, sizes)))
  {
    hide Inv, OnceAt, Upserted, Grown, PathsKept, RecordsOf, LogKeyAt, Put, FrontRead, Looked, DeliveredFor, ResumeAt,
      KeysOf, EntriesFor;
    var t := Apply(p, s, Commit(now, sizes));
    CommitKeeps(p, s, now, sizes);
    forall k: Key | k.Fingerprint? && k !in t.repeats
      ensures OnceAt(p, t, k, ResumeAt(p, t, k))
    {
      CommittedOnce(p, s, t, now, sizes, k);
    }
    NothingDistinct(t.repeats);
  }

  lemma {:induction false} CommittedOnce(p: LogPipe, s: State, t: State, now: int, sizes: string -> Option<nat>, k: Key)
    requires AllOnce(p, s) && StoredOnce(p, s) && s.phase.Stored? && k.Fingerprint? && k !in s.repeats
    requires t.files == s.files && t.objects == s.objects
    requires t.table == Upserted(s.table, p.source, EntriesFor(s.phase.done, sizes), now)
    ensures OnceAt(p, t, k, ResumeAt(p, t, k))
  {
    var done, entries := s.phase.done, EntriesFor(s.phase.done, sizes);
    UpsertedRow(s.table, p.source, entries, now, p.source, k);
    hide OnceAt, Upserted;
    if HasEntry(entries, k) {
      var o := ResumeAt(p, t, k);
      var i :| 0 <= i < |entries| && entries[i].key == k && entries[i].offset == o;
      assert done[i] in done;
      SameOnce(p, s, t, k, o);
    } else {
      assert k !in KeysOf(done) by {
        if c :| c in done && c.key == k {
          var i :| 0 <= i < |done| && done[i] == c;
          assert entries[i].key == k;
        }
      }
      SameOnce(p, s, t, k, ResumeAt(p, s, k));
    }
  }

  lemma {:induction false} ForgetOnce(p: LogPipe, s: State, k: Key)
    requires OnceInv(p, s) && Enabled(p, s, Forget(k))
    ensures OnceInv(p, Apply(p, s, Forget(k)))
  {
    hide Inv, OnceAt, DeliveredFor, Upserted, FrontRead, RecordsOf, Looked, KeysOf, PathsKept, Grown, LogKeyAt, Put;
    var t := Apply(p, s, Forget(k));
    StepKeeps(p, s, Forget(k));
    NothingDistinct(t.repeats);
    forall j: Key | j.Fingerprint? && j !in t.repeats
      ensures OnceAt(p, t, j, ResumeAt(p, t, j))
    {
      SameOnce(p, s, t, j, ResumeAt(p, s, j));
    }
  }

  /** Steps that touch neither table nor bucket, and plan nothing new. */
  predicate Calm(a: Action) {
    a.Change? || a.Begin? || a.StartDrain? || a.Finish? || a.CleanUp? || a.Abandon?
  }

  lemma {:induction false} CalmOnce(p: LogPipe, s: State, a: Action)
    requires OnceInv(p, s) && Enabled(p, s, a) && Calm(a)
    ensures OnceInv(p, Apply(p, s, a))
  {
    hide Inv, Grown, RecordsOf, AllOnce, StoredOnce, PathsKept, Upserted, LogKeyAt, Put, FrontRead, Looked, PieceKeys,
      PlanKeys, Distinct, KeysOf;
    var t := Apply(p, s, a);
    StepKeeps(p, s, a);
    GrownSame(s.files);
    QuietKeeps(p, s, t);
    NoKeys();
    assert forall keys: seq<Key> :: [] + keys == keys && keys + [] == keys;
    assert PollKeys(t.phase) == PollKeys(s.phase) || PollKeys(t.phase) == [];
    NothingDistinct(s.repeats);
    NothingDistinct(t.repeats);
  }

  lemma {:induction false} NoKeys()
    ensures PlanKeys([]) == [] && PieceKeys([]) == []
  {}

  lemma {:induction false} NothingDistinct(repeats: set<Key>)
    ensures Distinct([], repeats)
  {}

  lemma {:induction false} StepOnce(p: LogPipe, s: State, a: Action)
    requires OnceInv(p, s) && Enabled(p, s, a)
    ensures OnceInv(p, Apply(p, s, a))
  {
    hide OnceInv, PathsKept, DistinctHeads, Grown, AfterLook, AfterRead, Upserted, RecordsOf, LogKeyAt, Put;
    match a {
      case PlanNext(readable) => PlanNextOnce(p, s, readable);
      case ReadNext(readable) => ReadOnce(p, s, readable);
      case Upload(o) => UploadOnce(p, s, o);
      case Commit(now, sizes) => CommitOnce(p, s, now, sizes);
      case Forget(k) => ForgetOnce(p, s, k);
      case _ => CalmOnce(p, s, a);
    }
  }

  // ---- Whole runs ----

  /** What can make lines under a key be shipped again: a crash or failed commit between upload and commit,
      an upload whose confirmation fails, forgetting the record, or planning the same content twice in one poll
      (renamed while the poll is planning, or matched under two names). */
  ghost predicate Disturbs(s: State, a: Action, k: Key) {
    || (a == Upload(Unconfirmed) && s.phase.Spooled? && k in KeysOf(s.phase.done))
    || (a == Abandon && s.phase.Stored? && k in KeysOf(s.phase.done))
    || a == Forget(k)
    || (a.PlanNext? && s.phase.Discovering? && s.phase.todo != []
        && var plan := Looked(s, s.phase.todo[0], a.readable);
           plan.Some? && KeyOf(plan.value) == k && exists q :: q in s.phase.plans && KeyOf(q) == k)
  }

  ghost predicate Undisturbed(p: LogPipe, s: State, steps: seq<Action>, k: Key)
    requires Legal(p, s, steps)
    decreases |steps|
  {
    steps == [] || (!Disturbs(s, steps[0], k) && Undisturbed(p, Apply(p, s, steps[0]), steps[1..], k))
  }

  lemma {:induction false} StaysUnrepeated(p: LogPipe, s: State, a: Action, k: Key)
    requires Enabled(p, s, a) && k !in s.repeats && !Disturbs(s, a, k)
    ensures k !in Apply(p, s, a).repeats
  {
    hide FrontRead, Upserted, RecordsOf, LogKeyAt, Put, KeysOf, KeyOf, Looked;
  }

  lemma {:induction false} RunsOnce(p: LogPipe, s: State, steps: seq<Action>)
    requires OnceInv(p, s) && Legal(p, s, steps)
    ensures OnceInv(p, Exec(p, s, steps))
    decreases |steps|
  {
    hide OnceInv, Apply;
    if steps != [] {
      StepOnce(p, s, steps[0]);
      RunsOnce(p, Apply(p, s, steps[0]), steps[1..]);
    }
  }

  lemma {:induction false} RunsLeaveUnrepeated(p: LogPipe, s: State, steps: seq<Action>, k: Key)
    requires Legal(p, s, steps) && k !in s.repeats && Undisturbed(p, s, steps, k)
    ensures k !in Exec(p, s, steps).repeats
    decreases |steps|
  {
    hide Apply, Disturbs;
    if steps != [] {
      StaysUnrepeated(p, s, steps[0], k);
      RunsLeaveUnrepeated(p, Apply(p, s, steps[0]), steps[1..], k);
    }
  }

  lemma {:induction false} EmptyIsOnce(p: LogPipe)
    ensures OnceInv(p, Empty())
  {
    EmptyIsGood(p);
  }

  /** What the invariant says of a file whose key nothing disturbed. */
  lemma {:induction false} UnrepeatedOnce(p: LogPipe, s: State, f: nat)
    requires OnceInv(p, s) && f in s.files && |s.files[f]| >= FP_PREFIX && !s.phase.Stored?
    requires Fingerprint(s.files[f][..FP_PREFIX]) !in s.repeats
    ensures var k := Fingerprint(s.files[f][..FP_PREFIX]);
      Stretch(p.enc, s.files[f], 0, ResumeAt(p, s, k), DeliveredFor(s, k))
  {
    hide Inv, Span;
    var x := s.files[f][..FP_PREFIX];
    assert HasHead(s.files[f], x);
    assert OnceAt(p, s, Fingerprint(x), ResumeAt(p, s, Fingerprint(x)));
    SpanEmpty(p.enc, s.files[f], 0);
  }

  /** Exactly once: if nothing disturbed a file's key, the lines shipped for it, over all polls and renames
      and whatever failed in between, are the lines of its bytes up to the offset where the next poll resumes,
      each once and in order. */
  lemma {:induction false} ExactlyOnce(p: LogPipe, steps: seq<Action>, f: nat)
    requires Legal(p, Empty(), steps)
    requires var s := Exec(p, Empty(), steps);
      && f in s.files && |s.files[f]| >= FP_PREFIX && !s.phase.Stored?
      && Undisturbed(p, Empty(), steps, Fingerprint(s.files[f][..FP_PREFIX]))
    ensures var s := Exec(p, Empty(), steps);
      var k := Fingerprint(s.files[f][..FP_PREFIX]);
      Stretch(p.enc, s.files[f], 0, ResumeAt(p, s, k), DeliveredFor(s, k))
  {
    hide Exec, Legal, Undisturbed, OnceInv, Stretch, ResumeAt;
    var s := Exec(p, Empty(), steps);
    EmptyIsOnce(p);
    RunsOnce(p, Empty(), steps);
    RunsLeaveUnrepeated(p, Empty(), steps, Fingerprint(s.files[f][..FP_PREFIX]));
    UnrepeatedOnce(p, s, f);
  }
}
