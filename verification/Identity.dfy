/** Is (source, file, file_offset) an identity of a shipped line, as the documentation of `ship.py` expects of
    downstream deduplication? Exactly when, and inputs where it is not. */
module Identity {
  import opened Wrappers
  import opened Lines
  import opened Codec
  import opened Tailer
  import opened SingleLines
  import opened StateDb
  import opened Sources
  import opened Items
  import opened Ship

  /** The columns meant for deduplication. */
  function IdentityOf(r: LogRecord): (string, string, int) {
    (r.source, r.file, r.fileOffset)
  }

  ghost predicate Identified(records: seq<LogRecord>) {
    forall i, j :: 0 <= i < j < |records| ==> IdentityOf(records[i]) != IdentityOf(records[j])
  }

  /** No identity occurs on both sides. */
  ghost predicate Apart(a: seq<LogRecord>, b: seq<LogRecord>) {
    forall r, q :: r in a && q in b ==> IdentityOf(r) != IdentityOf(q)
  }

  lemma {:induction false} IdentifiedAppend(a: seq<LogRecord>, b: seq<LogRecord>)
    ensures Identified(a + b) <==> Identified(a) && Identified(b) && Apart(a, b)
  {
    hide IdentityOf;
    var all := a + b;
    assert forall i :: 0 <= i < |a| ==> all[i] == a[i];
    assert forall i :: 0 <= i < |b| ==> all[|a| + i] == b[i];
    if Identified(all) {
      forall r, q | r in a && q in b
        ensures IdentityOf(r) != IdentityOf(q)
      {
        var i :| 0 <= i < |a| && a[i] == r;
        var j :| 0 <= j < |b| && b[j] == q;
        assert IdentityOf(all[i]) != IdentityOf(all[|a| + j]);
      }
      forall i, j | 0 <= i < j < |b|
        ensures IdentityOf(b[i]) != IdentityOf(b[j])
      {
        assert IdentityOf(all[|a| + i]) != IdentityOf(all[|a| + j]);
      }
    }
    if Identified(a) && Identified(b) && Apart(a, b) {
      forall i, j | 0 <= i < j < |all|
        ensures IdentityOf(all[i]) != IdentityOf(all[j])
      {
        if i < |a| && |a| <= j {
          assert all[i] in a && all[j] in b;
        } else if |a| <= i {
          assert IdentityOf(b[i - |a|]) != IdentityOf(b[j - |a|]);
        }
      }
    }
  }

  // ---- What the drains of a poll contribute ----

  /** One plan's drain, and the file name its records carry. */
  datatype Drained = Drained(file: string, chunks: seq<TailChunk>)

  function RecordsOfDrains(cfg: SourceConfig, ctx: PollContext, drains: seq<Drained>): seq<LogRecord> {
    if drains == [] then []
    else
      var d := drains[|drains| - 1];
      RecordsOfDrains(cfg, ctx, drains[..|drains| - 1]) + DrainRecords(cfg, ctx, d.file, d.chunks)
  }

  function DrainedBy(cfg: SourceConfig, env: PollEnv, q: TailPlan): Drained {
    Drained(env.nameOf(q.path), ChunksOf(cfg, env, q))
  }

  function DrainsOf(cfg: SourceConfig, env: PollEnv, plans: seq<TailPlan>): seq<Drained> {
    seq(|plans|, i requires 0 <= i < |plans| => DrainedBy(cfg, env, plans[i]))
  }

  lemma {:induction false} CollectedIsDrained(cfg: SourceConfig, ctx: PollContext, env: PollEnv, plans: seq<TailPlan>)
    ensures Collected(cfg, ctx, env, plans) == RecordsOfDrains(cfg, ctx, DrainsOf(cfg, env, plans))
  {
    hide DrainRecords, ChunksOf;
    if plans != [] {
      var init := plans[..|plans| - 1];
      CollectedIsDrained(cfg, ctx, env, init);
      assert DrainsOf(cfg, env, plans)[..|init|] == DrainsOf(cfg, env, init);
    }
  }

  lemma {:induction false} DrainsAppend(cfg: SourceConfig, ctx: PollContext, a: seq<Drained>, b: seq<Drained>)
    ensures RecordsOfDrains(cfg, ctx, a + b) == RecordsOfDrains(cfg, ctx, a) + RecordsOfDrains(cfg, ctx, b)
    decreases |b|
  {
    hide DrainRecords;
    if b == [] {
      assert a + b == a;
    } else {
      var init, last := b[..|b| - 1], b[|b| - 1];
      assert (a + b)[..|a + b| - 1] == a + init;
      DrainsAppend(cfg, ctx, a, init);
      Assoc(RecordsOfDrains(cfg, ctx, a), RecordsOfDrains(cfg, ctx, init),
            DrainRecords(cfg, ctx, last.file, last.chunks));
    }
  }

  // ---- Inside one drain ----

  /** Non-empty chunks with strictly increasing offsets, as a drain yields them. */
  ghost predicate Advancing(chunks: seq<TailChunk>) {
    && (forall i :: 0 <= i < |chunks| ==> chunks[i].lines != [])
    && (forall i, j :: 0 <= i < j < |chunks| ==> chunks[i].newOffset < chunks[j].newOffset)
  }

  lemma {:induction false} DrainAdvances(views: seq<Option<Bytes>>, start: int, enc: Encoding, max: int)
    ensures Advancing(Drain(views, start, enc, max))
    ensures forall c :: c in Drain(views, start, enc, max) ==> start < c.newOffset
    decreases |views|, Remaining(Now(views), start)
  {
    hide Tail;
    var c := Tail(Now(views), start, enc, max);
    if c.lines != [] {
      LinesMeanProgress(Now(views), start, enc, max);
      DrainAdvances(Later(views), c.newOffset, enc, max);
      var rest := Drain(Later(views), c.newOffset, enc, max);
      assert forall i :: 0 <= i < |rest| ==> rest[i] in rest;
    }
  }

  /** The identities of a drain's records are its file and its chunk offsets, all of them. */
  lemma {:induction false} DrainIdentities(cfg: SourceConfig, ctx: PollContext, file: string, chunks: seq<TailChunk>)
    requires Advancing(chunks)
    ensures var records := DrainRecords(cfg, ctx, file, chunks);
      && (forall r :: r in records ==> r.source == cfg.name && r.file == file && HasOffset(chunks, r.fileOffset))
      && (forall o :: HasOffset(chunks, o) ==> exists r :: r in records && r.fileOffset == o)
  {
    if chunks != [] {
      var init, c := chunks[..|chunks| - 1], chunks[|chunks| - 1];
      var before, last := DrainRecords(cfg, ctx, file, init), ChunkRecords(cfg, ctx, file, c);
      DrainIdentities(cfg, ctx, file, init);
      forall o | HasOffset(init, o)
        ensures HasOffset(chunks, o)
      {
        var i :| 0 <= i < |init| && init[i].newOffset == o;
        assert chunks[i] == init[i];
      }
      assert HasOffset(chunks, c.newOffset);
      assert last[0] in last && last[0].fileOffset == c.newOffset;
      forall o | HasOffset(chunks, o)
        ensures exists r :: r in before + last && r.fileOffset == o
      {
        var i :| 0 <= i < |chunks| && chunks[i].newOffset == o;
        if i < |init| {
          assert init[i] == chunks[i] && HasOffset(init, o);
          var r :| r in before && r.fileOffset == o;
          assert r in before + last;
        } else {
          assert last[0] in before + last;
        }
      }
    }
  }

  /** One drain's records are told apart exactly when each chunk holds a single line. */
  lemma {:induction false} OneDrainIdentified(cfg: SourceConfig, ctx: PollContext, file: string, chunks: seq<TailChunk>)
    requires Advancing(chunks)
    ensures Identified(DrainRecords(cfg, ctx, file, chunks)) <==> SingleLine(chunks)
  {
    if chunks != [] {
      var init, c := chunks[..|chunks| - 1], chunks[|chunks| - 1];
      var before, last := DrainRecords(cfg, ctx, file, init), ChunkRecords(cfg, ctx, file, c);
      OneDrainIdentified(cfg, ctx, file, init);
      IdentifiedAppend(before, last);
      DrainIdentities(cfg, ctx, file, init);
      OneChunkIdentified(cfg, ctx, file, c);
      forall r, q | r in before && q in last
        ensures IdentityOf(r) != IdentityOf(q)
      {
        var i :| 0 <= i < |init| && init[i].newOffset == r.fileOffset;
        assert chunks[i].newOffset < c.newOffset;
      }
      hide Identified, DrainRecords, ChunkRecords;
      assert SingleLine(chunks) <==> SingleLine(init) && |c.lines| == 1;
    }
  }

  lemma {:induction false} OneChunkIdentified(cfg: SourceConfig, ctx: PollContext, file: string, c: TailChunk)
    requires c.lines != []
    ensures Identified(ChunkRecords(cfg, ctx, file, c)) <==> |c.lines| == 1
  {
    var records := ChunkRecords(cfg, ctx, file, c);
    if |records| > 1 {
      assert IdentityOf(records[0]) == IdentityOf(records[1]);
    }
  }

  // ---- Between drains ----

  /** Two drains of files with the same name share a chunk offset. */
  ghost predicate Clash(d: Drained, e: Drained) {
    d.file == e.file && exists o :: HasOffset(d.chunks, o) && HasOffset(e.chunks, o)
  }

  lemma {:induction false} ApartIffNoClash(cfg: SourceConfig, ctx: PollContext, d: Drained, e: Drained)
    requires Advancing(d.chunks) && Advancing(e.chunks)
    ensures Apart(DrainRecords(cfg, ctx, d.file, d.chunks), DrainRecords(cfg, ctx, e.file, e.chunks)) <==> !Clash(d, e)
  {
    DrainIdentities(cfg, ctx, d.file, d.chunks);
    DrainIdentities(cfg, ctx, e.file, e.chunks);
    var a, b := DrainRecords(cfg, ctx, d.file, d.chunks), DrainRecords(cfg, ctx, e.file, e.chunks);
    hide DrainRecords, HasOffset;
    if Clash(d, e) {
      var o :| HasOffset(d.chunks, o) && HasOffset(e.chunks, o);
      var r :| r in a && r.fileOffset == o;
      var q :| q in b && q.fileOffset == o;
      assert IdentityOf(r) == IdentityOf(q);
    }
  }

  ghost predicate AllAdvancing(drains: seq<Drained>) {
    forall i :: 0 <= i < |drains| ==> Advancing(drains[i].chunks)
  }

  lemma {:induction false} ApartAppend(a: seq<LogRecord>, b: seq<LogRecord>, c: seq<LogRecord>)
    ensures Apart(a + b, c) <==> Apart(a, c) && Apart(b, c)
  {
    hide IdentityOf;
    if Apart(a + b, c) {
      assert forall r :: r in a || r in b ==> r in a + b;
    }
  }

  lemma {:induction false} ApartFromAll(cfg: SourceConfig, ctx: PollContext, drains: seq<Drained>, e: Drained)
    requires AllAdvancing(drains) && Advancing(e.chunks)
    ensures Apart(RecordsOfDrains(cfg, ctx, drains), DrainRecords(cfg, ctx, e.file, e.chunks))
      <==> forall i :: 0 <= i < |drains| ==> !Clash(drains[i], e)
  {
    hide Apart, Clash, DrainRecords, Advancing;
    if drains == [] {
      NothingApart(DrainRecords(cfg, ctx, e.file, e.chunks));
    } else {
      var init, d := drains[..|drains| - 1], drains[|drains| - 1];
      assert forall i :: 0 <= i < |init| ==> init[i] == drains[i];
      ApartFromAll(cfg, ctx, init, e);
      ApartAppend(RecordsOfDrains(cfg, ctx, init), DrainRecords(cfg, ctx, d.file, d.chunks),
                  DrainRecords(cfg, ctx, e.file, e.chunks));
      ApartIffNoClash(cfg, ctx, d, e);
    }
  }

  lemma {:induction false} NothingApart(b: seq<LogRecord>)
    ensures Apart([], b) && Identified([])
  {}

  ghost predicate AllSingle(drains: seq<Drained>) {
    forall i :: 0 <= i < |drains| ==> SingleLine(drains[i].chunks)
  }

  ghost predicate NoClashes(drains: seq<Drained>) {
    forall i, j :: 0 <= i < j < |drains| ==> !Clash(drains[i], drains[j])
  }

  lemma {:induction false} IdentifiedIff(cfg: SourceConfig, ctx: PollContext, drains: seq<Drained>)
    requires AllAdvancing(drains)
    ensures Identified(RecordsOfDrains(cfg, ctx, drains)) <==> AllSingle(drains) && NoClashes(drains)
  {
    hide Apart, Clash, DrainRecords, Advancing, Identified, SingleLine;
    if drains == [] {
      NothingApart([]);
    } else {
      var init, e := drains[..|drains| - 1], drains[|drains| - 1];
      assert forall i :: 0 <= i < |init| ==> init[i] == drains[i];
      IdentifiedIff(cfg, ctx, init);
      IdentifiedAppend(RecordsOfDrains(cfg, ctx, init), DrainRecords(cfg, ctx, e.file, e.chunks));
      OneDrainIdentified(cfg, ctx, e.file, e.chunks);
      ApartFromAll(cfg, ctx, init, e);
      LastDrain(drains);
    }
  }

  lemma {:induction false} LastDrain(drains: seq<Drained>)
    requires drains != []
    ensures var init, e := drains[..|drains| - 1], drains[|drains| - 1];
      && (AllSingle(drains) <==> AllSingle(init) && SingleLine(e.chunks))
      && (NoClashes(drains) <==> NoClashes(init) && forall i :: 0 <= i < |init| ==> !Clash(init[i], e))
  {
    hide Clash, SingleLine;
    var n := |drains| - 1;
    var init := drains[..n];
    assert forall i :: 0 <= i < n ==> init[i] == drains[i];
    if NoClashes(init) && forall i :: 0 <= i < n ==> !Clash(init[i], drains[n]) {
      forall i, j | 0 <= i < j < |drains|
        ensures !Clash(drains[i], drains[j])
      {
        if j < n {
          assert !Clash(init[i], init[j]);
        } else {
          assert !Clash(init[i], drains[n]);
        }
      }
    }
    if NoClashes(drains) {
      assert forall i, j :: 0 <= i < j < n ==> !Clash(drains[i], drains[j]) ==> !Clash(init[i], init[j]);
    }
  }

  // ---- One poll, and several ----

  lemma {:induction false} DrainsAdvance(cfg: SourceConfig, env: PollEnv, plans: seq<TailPlan>)
    ensures AllAdvancing(DrainsOf(cfg, env, plans))
  {
    hide Advancing, Drain;
    forall i | 0 <= i < |plans|
      ensures Advancing(DrainsOf(cfg, env, plans)[i].chunks)
    {
      DrainAdvances(env.files(plans[i].path), plans[i].start, cfg.enc, cfg.maxBytes);
    }
  }

  /** Exactly when the identity tells all lines of one poll apart: every chunk holds a single line, and no two
      planned files of the same name share a chunk offset. */
  lemma {:induction false} PollIdentifiedIff(cfg: SourceConfig, ctx: PollContext, env: PollEnv, plans: seq<TailPlan>)
    ensures var drains := DrainsOf(cfg, env, plans);
      Identified(Collected(cfg, ctx, env, plans)) <==> AllSingle(drains) && NoClashes(drains)
  {
    hide Collected, DrainsOf, RecordsOfDrains, AllAdvancing, AllSingle, NoClashes;
    CollectedIsDrained(cfg, ctx, env, plans);
    DrainsAdvance(cfg, env, plans);
    IdentifiedIff(cfg, ctx, DrainsOf(cfg, env, plans));
  }

  /** A plan's file has no blank lines, stays put and is read from a boundary. */
  ghost predicate Regular(cfg: SourceConfig, env: PollEnv, q: TailPlan, content: Bytes) {
    && env.files(q.path) == [Some(content)] && 0 <= q.start <= |content|
    && Boundary(cfg.enc, content, q.start) && NoBlankLines(cfg.enc, content, q.start)
  }

  /** Two consecutive lines of the planned file, wherever reads get, are too long for one read. */
  ghost predicate LinesExceed(cfg: SourceConfig, contentAt: string -> Bytes, q: TailPlan) {
    cfg.maxBytes >= 0 && q.start >= 0 && PairsExceed(cfg.enc, contentAt(q.path), q.start, cfg.maxBytes)
  }

  ghost predicate ReadsTo(cfg: SourceConfig, contentAt: string -> Bytes, q: TailPlan, o: int) {
    cfg.maxBytes >= 0 && q.start >= 0 && LineEndsAt(cfg.enc, contentAt(q.path), q.start, o, cfg.maxBytes)
  }

  /** Two planned files have the same name, and reads get in each to a line that ends at the same offset. */
  ghost predicate Meet(cfg: SourceConfig, env: PollEnv, contentAt: string -> Bytes, q: TailPlan, r: TailPlan) {
    && env.nameOf(q.path) == env.nameOf(r.path)
    && exists o :: ReadsTo(cfg, contentAt, q, o) && ReadsTo(cfg, contentAt, r, o)
  }

  lemma {:induction false} ClashIffMeet(cfg: SourceConfig, env: PollEnv, contentAt: string -> Bytes, q: TailPlan,
                                        r: TailPlan)
    requires cfg.maxBytes >= 0
    requires Regular(cfg, env, q, contentAt(q.path)) && Regular(cfg, env, r, contentAt(r.path))
    requires LinesExceed(cfg, contentAt, q) && LinesExceed(cfg, contentAt, r)
    ensures Clash(DrainedBy(cfg, env, q), DrainedBy(cfg, env, r)) <==> Meet(cfg, env, contentAt, q, r)
  {
    hide PairsExceed, NoBlankLines, Boundary, Drain, HasOffset, LineEndsAt;
    forall o
      ensures HasOffset(ChunksOf(cfg, env, q), o) <==> ReadsTo(cfg, contentAt, q, o)
      ensures HasOffset(ChunksOf(cfg, env, r), o) <==> ReadsTo(cfg, contentAt, r, o)
    {
      ChunkEndsIff(contentAt(q.path), q.start, cfg.enc, cfg.maxBytes, o);
      ChunkEndsIff(contentAt(r.path), r.start, cfg.enc, cfg.maxBytes, o);
    }
  }

  /** The same poll told from content and limit alone, for files without blank lines that stay put, read from a
      boundary: two consecutive lines of a file never fit into one read, and no two files of the same name have
      lines that end at the same offset. */
  lemma {:induction false} PollIdentifiedByContent(cfg: SourceConfig, ctx: PollContext, env: PollEnv,
                                                   plans: seq<TailPlan>, contentAt: string -> Bytes)
    requires cfg.maxBytes >= 0
    requires forall i :: 0 <= i < |plans| ==> Regular(cfg, env, plans[i], contentAt(plans[i].path))
    ensures Identified(Collected(cfg, ctx, env, plans)) <==>
      && (forall i :: 0 <= i < |plans| ==> LinesExceed(cfg, contentAt, plans[i]))
      && (forall i, j :: 0 <= i < j < |plans| ==> !Meet(cfg, env, contentAt, plans[i], plans[j]))
  {
    hide Collected, PairsExceed, NoBlankLines, Boundary, Meet, SingleLine, Drain, Identified, Clash;
    PollIdentifiedIff(cfg, ctx, env, plans);
    var drains := DrainsOf(cfg, env, plans);
    forall i | 0 <= i < |plans|
      ensures SingleLine(drains[i].chunks) <==> LinesExceed(cfg, contentAt, plans[i])
    {
      assert Regular(cfg, env, plans[i], contentAt(plans[i].path));
      SingleLineIff(contentAt(plans[i].path), plans[i].start, cfg.enc, cfg.maxBytes);
    }
    if AllSingle(drains) {
      forall i, j | 0 <= i < j < |plans|
        ensures Clash(drains[i], drains[j]) <==> Meet(cfg, env, contentAt, plans[i], plans[j])
      {
        assert Regular(cfg, env, plans[i], contentAt(plans[i].path));
        assert Regular(cfg, env, plans[j], contentAt(plans[j].path));
        ClashIffMeet(cfg, env, contentAt, plans[i], plans[j]);
      }
    }
  }

  lemma {:induction false} SameHost(cfg: SourceConfig, ctx: PollContext, ctx': PollContext, file: string,
                                    chunks: seq<TailChunk>)
    requires ctx.host == ctx'.host
    ensures DrainRecords(cfg, ctx, file, chunks) == DrainRecords(cfg, ctx', file, chunks)
  {
    if chunks != [] {
      SameHost(cfg, ctx, ctx', file, chunks[..|chunks| - 1]);
      var c := chunks[|chunks| - 1];
      assert ChunkRecords(cfg, ctx, file, c) == ChunkRecords(cfg, ctx', file, c);
    }
  }

  lemma {:induction false} SameHostAll(cfg: SourceConfig, ctx: PollContext, ctx': PollContext, drains: seq<Drained>)
    requires ctx.host == ctx'.host
    ensures RecordsOfDrains(cfg, ctx, drains) == RecordsOfDrains(cfg, ctx', drains)
  {
    hide DrainRecords;
    if drains != [] {
      SameHostAll(cfg, ctx, ctx', drains[..|drains| - 1]);
      SameHost(cfg, ctx, ctx', drains[|drains| - 1].file, drains[|drains| - 1].chunks);
    }
  }

  /** Across two polls the drains of both count: a fresh file that reaches an offset an older one of the same
      name was read to takes its identities. */
  lemma {:induction false} PollsIdentifiedIff(cfg: SourceConfig, ctx: PollContext, env: PollEnv, plans: seq<TailPlan>,
                                              ctx': PollContext, env': PollEnv, plans': seq<TailPlan>)
    requires ctx.host == ctx'.host
    ensures var drains := DrainsOf(cfg, env, plans) + DrainsOf(cfg, env', plans');
      Identified(Collected(cfg, ctx, env, plans) + Collected(cfg, ctx', env', plans'))
      <==> AllSingle(drains) && NoClashes(drains)
  {
    hide Collected, DrainsOf, RecordsOfDrains, AllSingle, NoClashes, Identified, Advancing;
    var a, b := DrainsOf(cfg, env, plans), DrainsOf(cfg, env', plans');
    CollectedIsDrained(cfg, ctx, env, plans);
    CollectedIsDrained(cfg, ctx', env', plans');
    SameHostAll(cfg, ctx, ctx', b);
    DrainsAppend(cfg, ctx, a, b);
    DrainsAdvance(cfg, env, plans);
    DrainsAdvance(cfg, env', plans');
    assert AllAdvancing(a + b);
    IdentifiedIff(cfg, ctx, a + b);
  }

  // ---- Inputs where it is not an identity ----

  /** A small ASCII file is drained by one read. */
  lemma {:induction false} WholeFile(content: Bytes, lines: seq<Text>, max: int)
    requires content == Terminated(lines, false) && lines != [] && (forall l :: l in lines ==> PlainLine(l))
    requires (forall c :: c in content ==> c < 0x80) && |content| <= max
    ensures Drain([Some(content)], 0, Utf8, max) == [TailChunk(lines, |content|)]
  {
    var n := |content|;
    EndsWithNewline(lines);
    ReadsAll(content, lines, max);
    ReadsNothing(content, max);
    hide Tail;
    assert Drain([Some(content)], n, Utf8, max) == [];
  }

  lemma {:induction false} ReadsAll(content: Bytes, lines: seq<Text>, max: int)
    requires content == Terminated(lines, false) && content != [] && content[|content| - 1] == LF
    requires (forall l :: l in lines ==> PlainLine(l)) && (forall c :: c in content ==> c < 0x80) && |content| <= max
    ensures Tail(Some(content), 0, Utf8, max) == TailChunk(lines, |content|)
  {
    var n := |content|;
    EncodeAscii(content);
    WrittenLinesAreRead(Utf8, lines, false);
    assert Window(content, 0, max) == content;
    assert NewlineAt(Utf8, content, n - 1);
    assert LastEnd(Utf8, content, n) == n;
    hide LinesIn, LastEnd, Window;
    assert content[..n] == content;
  }

  lemma {:induction false} ReadsNothing(content: Bytes, max: int)
    ensures Tail(Some(content), |content|, Utf8, max) == TailChunk([], |content|)
  {
    assert Window(content, |content|, max) == [];
    CutNothing(Utf8, |content|);
    hide Tailer.Cut;
  }

  lemma {:induction false} EndsWithNewline(lines: seq<Text>)
    requires lines != []
    ensures var t := Terminated(lines, false); t != [] && t[|t| - 1] == LF
  {
    if |lines| > 1 {
      EndsWithNewline(lines[1..]);
    }
  }

  /** Lines A and B of one file, completed by one read of four bytes, carry the same triple. */
  lemma {:induction false} TwoLinesShareATriple(cfg: SourceConfig, ctx: PollContext, env: PollEnv, q: TailPlan)
    requires cfg.enc == Utf8 && cfg.maxBytes == 4 && q.start == 0 && env.files(q.path) == [Some([65, 10, 66, 10])]
    ensures var file := env.nameOf(q.path);
      Collected(cfg, ctx, env, [q])
      == [LogRecord([65], ctx.host, cfg.name, file, 4), LogRecord([66], ctx.host, cfg.name, file, 4)]
    ensures !Identified(Collected(cfg, ctx, env, [q]))
  {
    var lines, file := [[65], [66]], env.nameOf(q.path);
    assert Terminated(lines, false) == [65, 10, 66, 10] by {
      assert lines[1..] == [[66]] && [[66]][1..] == [];
    }
    WholeFile([65, 10, 66, 10], lines, 4);
    hide Drain, Terminated, Collected;
    var c := TailChunk(lines, 4);
    OneChunk(cfg, ctx, env, q, c);
    var records := ChunkRecords(cfg, ctx, file, c);
    assert |records| == 2 && records[0] == LogRecord([65], ctx.host, cfg.name, file, 4)
           && records[1] == LogRecord([66], ctx.host, cfg.name, file, 4);
    assert records == [records[0], records[1]];
    assert IdentityOf(records[0]) == IdentityOf(records[1]);
  }

  lemma {:induction false} OneChunk(cfg: SourceConfig, ctx: PollContext, env: PollEnv, q: TailPlan, c: TailChunk)
    requires ChunksOf(cfg, env, q) == [c]
    ensures Collected(cfg, ctx, env, [q]) == ChunkRecords(cfg, ctx, env.nameOf(q.path), c)
  {
    hide ChunksOf, ChunkRecords;
    var file := env.nameOf(q.path);
    var records := ChunkRecords(cfg, ctx, file, c);
    assert [] + records == records;
    assert DrainRecords(cfg, ctx, file, [c]) == records by {
      assert [c][..0] == [];
      assert DrainRecords(cfg, ctx, file, []) == [];
    }
    assert [q][..0] == [];
    assert Collected(cfg, ctx, env, []) == [];
  }

  lemma {:induction false} OneLineFile(c: Byte)
    requires 32 <= c < 0x80
    ensures Drain([Some([c, 10])], 0, Utf8, 100) == [TailChunk([[c]], 2)]
  {
    var line: Text := [c];
    assert Terminated([line], false) == [c, 10] by {
      assert [line][1..] == [];
    }
    WholeFile([c, 10], [line], 100);
  }

  lemma {:induction false} SharedOffset(d: Drained, e: Drained, i: nat, j: nat)
    requires d.file == e.file && i < |d.chunks| && j < |e.chunks| && d.chunks[i].newOffset == e.chunks[j].newOffset
    ensures Clash(d, e) && !NoClashes([d, e])
  {
    var o := d.chunks[i].newOffset;
    assert HasOffset(d.chunks, o) && HasOffset(e.chunks, o);
    assert [d, e][0] == d && [d, e][1] == e;
  }

  lemma {:induction false} SingleLineEach(d: Drained, e: Drained, c: TailChunk, c': TailChunk)
    requires d.chunks == [c] && e.chunks == [c'] && |c.lines| == 1 && |c'.lines| == 1
    ensures AllSingle([d, e])
  {}

  /** Two files of one name in different directories, one line each: single lines, and still one triple. */
  lemma {:induction false} TwoFilesShareATriple(cfg: SourceConfig, ctx: PollContext, env: PollEnv, q: TailPlan,
                                                r: TailPlan)
    requires cfg.enc == Utf8 && cfg.maxBytes == 100 && q.start == 0 && r.start == 0 && q.path != r.path
    requires env.files(q.path) == [Some([65, 10])] && env.files(r.path) == [Some([66, 10])]
    requires env.nameOf(q.path) == env.nameOf(r.path)
    ensures AllSingle(DrainsOf(cfg, env, [q, r])) && !NoClashes(DrainsOf(cfg, env, [q, r]))
    ensures !Identified(Collected(cfg, ctx, env, [q, r]))
  {
    OneLineFile(65);
    OneLineFile(66);
    hide Drain, Collected, Identified, Clash, AllSingle, NoClashes;
    var d, e := DrainedBy(cfg, env, q), DrainedBy(cfg, env, r);
    assert DrainsOf(cfg, env, [q, r]) == [d, e];
    SharedOffset(d, e, 0, 0);
    SingleLineEach(d, e, TailChunk([[65]], 2), TailChunk([[66]], 2));
    PollIdentifiedIff(cfg, ctx, env, [q, r]);
  }

  // ---- A rotation ----

  /** The poll finds one small file, which stays put. */
  ghost predicate FindsOnly(env: PollEnv, path: string, content: Bytes, mtime: int) {
    env.matches == [path] && env.looks(path) == LookAt(content, mtime) && env.files(path) == [Some(content)]
  }

  lemma {:induction false} AsciiLine(c: Byte)
    requires 32 <= c < 0x80
    ensures LinesIn(Utf8, [c, 10]) == [[c]]
  {
    var line: Text := [c];
    assert Terminated([line], false) == [c, 10] by {
      assert [line][1..] == [];
    }
    EncodeAscii([c, 10]);
    WrittenLinesAreRead(Utf8, [line], false);
  }

  /** A window that holds one short line and no other newline. */
  lemma {:induction false} OneLineWindow(content: Bytes, start: nat, c: Byte, max: int)
    requires 32 <= c < 0x80
    requires var w := Window(content, start, max);
      |w| >= 2 && w[..2] == [c, 10] && forall i :: 2 <= i < |w| ==> w[i] != 10
    ensures Tail(Some(content), start, Utf8, max) == TailChunk([[c]], start + 2)
  {
    hide LinesIn, LastEnd, Window;
    var w := Window(content, start, max);
    assert w[1] == w[..2][1] == 10;
    LastEndUnique(Utf8, w, 2);
    AsciiLine(c);
  }

  lemma {:induction false} FirstFileDrained()
    ensures Drain([Some([65, 10, 67, 10])], 0, Utf8, 3) == [TailChunk([[65]], 2), TailChunk([[67]], 4)]
  {
    var content: Bytes := [65, 10, 67, 10];
    assert Window(content, 0, 3) == [65, 10, 67];
    OneLineWindow(content, 0, 65, 3);
    assert Window(content, 2, 3) == [67, 10];
    OneLineWindow(content, 2, 67, 3);
    ReadsNothing(content, 3);
    hide Tail;
    assert Drain([Some(content)], 4, Utf8, 3) == [];
    assert Drain([Some(content)], 2, Utf8, 3) == [TailChunk([[67]], 4)];
  }

  lemma {:induction false} FreshFileDrained()
    ensures Drain([Some([66, 10])], 0, Utf8, 3) == [TailChunk([[66]], 2)]
  {
    var content: Bytes := [66, 10];
    assert Window(content, 0, 3) == content;
    OneLineWindow(content, 0, 66, 3);
    ReadsNothing(content, 3);
    hide Tail;
    assert Drain([Some(content)], 2, Utf8, 3) == [];
  }

  lemma {:induction false} OneEntry(path: string, looks: string -> Look, mtime: int)
    requires looks(path).stat == Some(Stat(mtime, true))
    ensures Sorted(EntriesOf([path], looks)) == [Found(mtime, path)]
  {
    hide Before;
    var one := [path];
    assert one[..0] == [] && EntriesOf([], looks) == [];
    assert EntriesOf(one, looks) == [Found(mtime, path)];
    var found := [Found(mtime, path)];
    assert found[..0] == [] && Sorted([]) == [];
  }

  lemma {:induction false} OnePlan(e: Found, looks: string -> Look, offsets: Offsets)
    ensures PlanFor(e.path, looks(e.path), offsets).Some? ==>
      PlansFor([e], looks, offsets) == [PlanFor(e.path, looks(e.path), offsets).value]
  {
    hide PlanFor;
    var one := [e];
    assert one[..0] == [] && PlansFor([], looks, offsets) == [];
  }

  lemma {:induction false} OneFilePlanned(cfg: SourceConfig, env: PollEnv, table: OffsetTable, path: string,
                                          content: Bytes, mtime: int)
    requires FindsOnly(env, path, content, mtime) && |content| < FP_PREFIX
    ensures var offsets, k := OffsetsOf(table, cfg.name), Provisional(path);
      PlansOf(cfg, env, table)
      == [TailPlan(path, None, if k in offsets then Resume(offsets[k].offset, |content|) else 0)]
  {
    hide OffsetsOf, PlanFor, Resume, HeadOf, Sorted, EntriesOf, PlansFor;
    OneEntry(path, env.looks, mtime);
    ShortPlan(path, content, mtime, OffsetsOf(table, cfg.name));
    OnePlan(Found(mtime, path), env.looks, OffsetsOf(table, cfg.name));
  }

  lemma {:induction false} ShortPlan(path: string, content: Bytes, mtime: int, offsets: Offsets)
    requires |content| < FP_PREFIX
    ensures var k := Provisional(path);
      PlanFor(path, LookAt(content, mtime), offsets)
      == Some(TailPlan(path, None, if k in offsets then Resume(offsets[k].offset, |content|) else 0))
  {}

  lemma {:induction false} OneDrain(cfg: SourceConfig, ctx: PollContext, env: PollEnv, q: TailPlan)
    ensures Collected(cfg, ctx, env, [q]) == DrainRecords(cfg, ctx, env.nameOf(q.path), ChunksOf(cfg, env, q))
  {
    hide DrainRecords, ChunksOf;
    assert [q][..0] == [] && Collected(cfg, ctx, env, []) == [];
  }

  /** The committed first poll leaves the offset it read to. */
  lemma {:induction false} FirstPollCommits(cfg: SourceConfig, ctx: PollContext, env: PollEnv, w: LogWorld, q: TailPlan)
    requires PlansOf(cfg, env, w.offsets) == [q] && ChunksOf(cfg, env, q) != []
    requires !ctx.dryRun && env.outcome.Confirmed? && env.commits
    ensures var offsets := OffsetsOf(ShipSpec(cfg, ctx, env, w).0.offsets, cfg.name);
      KeyOf(q) in offsets && offsets[KeyOf(q)].offset == ReachedBy(cfg, env, q).offset
  {
    hide KeyOf, PlansOf, Committed, LineItems, DrainRecords, ReachedBy;
    OneDrain(cfg, ctx, env, q);
    DrainAdvances(env.files(q.path), q.start, cfg.enc, cfg.maxBytes);
    hide Drain;
    var chunks := ChunksOf(cfg, env, q);
    DrainIdentities(cfg, ctx, env.nameOf(q.path), chunks);
    assert HasOffset(chunks, chunks[0].newOffset);
    PlannedKeysStay(cfg, ctx, env, w.offsets, [q], q);
  }

  lemma {:induction false} OneDrainOnly(d: Drained)
    ensures NoClashes([d]) && (AllSingle([d]) <==> SingleLine(d.chunks))
  {
    hide Clash, SingleLine;
    assert [d][0] == d;
  }

  /** The fresh file is smaller than the stored offset: the second poll starts at 0. */
  lemma {:induction false} SecondPollRestarts(cfg: SourceConfig, path: string, mtime: int, mtime': int,
                                              ctx: PollContext, env: PollEnv, w: LogWorld, env': PollEnv)
    requires cfg.enc == Utf8 && cfg.maxBytes == 3
    requires FindsOnly(env, path, [65, 10, 67, 10], mtime) && FindsOnly(env', path, [66, 10], mtime')
    requires Provisional(path) !in OffsetsOf(w.offsets, cfg.name)
    requires !ctx.dryRun && env.outcome.Confirmed? && env.commits
    ensures var w' := ShipSpec(cfg, ctx, env, w).0;
      && PlansOf(cfg, env, w.offsets) == PlansOf(cfg, env', w'.offsets) == [TailPlan(path, None, 0)]
      && Provisional(path) in OffsetsOf(w'.offsets, cfg.name)
      && OffsetsOf(w'.offsets, cfg.name)[Provisional(path)].offset == 4
  {
    var q := TailPlan(path, None, 0);
    OneFilePlanned(cfg, env, w.offsets, path, [65, 10, 67, 10], mtime);
    FirstFileDrained();
    hide OffsetsOf, Drain, PlansOf, ShipSpec;
    var chunks := ChunksOf(cfg, env, q);
    assert chunks == [TailChunk([[65]], 2), TailChunk([[67]], 4)];
    FirstPollCommits(cfg, ctx, env, w, q);
    OneFilePlanned(cfg, env', ShipSpec(cfg, ctx, env, w).0.offsets, path, [66, 10], mtime');
  }

  lemma {:induction false} RotatedDrains(cfg: SourceConfig, path: string, ctx: PollContext, env: PollEnv,
                                         ctx': PollContext, env': PollEnv, q: TailPlan)
    requires cfg.enc == Utf8 && cfg.maxBytes == 3 && ctx.host == ctx'.host && env.nameOf(path) == env'.nameOf(path)
    requires q == TailPlan(path, None, 0)
    requires env.files(path) == [Some([65, 10, 67, 10])] && env'.files(path) == [Some([66, 10])]
    ensures var first, second := Collected(cfg, ctx, env, [q]), Collected(cfg, ctx', env', [q]);
      Identified(first) && Identified(second) && !Identified(first + second)
  {
    FirstFileDrained();
    FreshFileDrained();
    hide Drain, Collected, Identified, Clash, AllSingle, NoClashes;
    var d, e := DrainedBy(cfg, env, q), DrainedBy(cfg, env', q);
    assert DrainsOf(cfg, env, [q]) == [d] && DrainsOf(cfg, env', [q]) == [e];
    OneDrainOnly(d);
    OneDrainOnly(e);
    PollIdentifiedIff(cfg, ctx, env, [q]);
    PollIdentifiedIff(cfg, ctx', env', [q]);
    SharedOffset(d, e, 0, 0);
    assert [d] + [e] == [d, e];
    PollsIdentifiedIff(cfg, ctx, env, [q], ctx', env', [q]);
  }

  /** A file of two lines rotated away after a committed poll, and a fresh one of one line under its name: the
      fresh file is smaller than the stored offset, so the next poll starts at 0 and its line ends where the
      old file's first line did. In each poll the triple tells all lines apart; in both together it does not. */
  lemma {:induction false} RotationSharesATriple(cfg: SourceConfig, path: string, mtime: int, mtime': int,
                                                 ctx: PollContext, env: PollEnv, w: LogWorld, ctx': PollContext,
                                                 env': PollEnv)
    requires cfg.enc == Utf8 && cfg.maxBytes == 3 && ctx.host == ctx'.host && env.nameOf(path) == env'.nameOf(path)
    requires FindsOnly(env, path, [65, 10, 67, 10], mtime) && FindsOnly(env', path, [66, 10], mtime')
    requires Provisional(path) !in OffsetsOf(w.offsets, cfg.name)
    requires !ctx.dryRun && env.outcome.Confirmed? && env.commits
    ensures var w' := ShipSpec(cfg, ctx, env, w).0;
      var plans, plans' := PlansOf(cfg, env, w.offsets), PlansOf(cfg, env', w'.offsets);
      var first, second := Collected(cfg, ctx, env, plans), Collected(cfg, ctx', env', plans');
      && Provisional(path) in OffsetsOf(w'.offsets, cfg.name)
      && OffsetsOf(w'.offsets, cfg.name)[Provisional(path)].offset == 4
      && Identified(first) && Identified(second) && !Identified(first + second)
  {
    SecondPollRestarts(cfg, path, mtime, mtime', ctx, env, w, env');
    hide OffsetsOf, Collected, Identified, PlansOf, ShipSpec;
    RotatedDrains(cfg, path, ctx, env, ctx', env', TailPlan(path, None, 0));
  }
}
