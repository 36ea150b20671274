/** `logs/tailer.py`: one bounded read (`tail_file`), its repetition (`drain_file`), and what any
    schedule of reads over a growing file delivers. */
module Tailer {
  import opened Wrappers
  import opened Lines
  import opened Codec

  // ---- Newlines at aligned positions ----

  /** The bytes `pat` stand at position `p` of `raw`. */
  predicate PatternAt(raw: Bytes, pat: Bytes, p: int) {
    0 <= p && p + |pat| <= |raw| && raw[p..p + |pat|] == pat
  }

  lemma {:induction false} NewlineIsPattern(enc: Encoding, raw: Bytes, p: int)
    ensures NewlineAt(enc, raw, p) <==> Aligned(enc, p) && PatternAt(raw, Newline(enc), p)
  {
    var w := Width(enc);
    if 0 <= p && p + w <= |raw| {
      assert raw[p..p + w][0] == raw[p];
      assert enc.Utf16Le? ==> raw[p..p + w][1] == raw[p + 1];
      assert NewlineAt(enc, raw, p) ==> raw[p..p + w] == Newline(enc);
    }
  }

  /** `raw.rfind(pat, 0, end)` */
  function RFind(raw: Bytes, pat: Bytes, end: nat): (p: int)
    requires end <= |raw|
    ensures p == -1 || (PatternAt(raw, pat, p) && p + |pat| <= end)
    ensures forall q :: p < q && q + |pat| <= end ==> !PatternAt(raw, pat, q)
    decreases end
  {
    if end < |pat| then -1
    else if PatternAt(raw, pat, end - |pat|) then end - |pat|
    else if end == 0 then -1
    else RFind(raw, pat, end - 1)
  }

  /** Two matches of `0A 00` never overlap. */
  lemma {:induction false} NoOverlap(raw: Bytes, p: int)
    requires PatternAt(raw, Newline(Utf16Le), p + 1)
    ensures !PatternAt(raw, Newline(Utf16Le), p)
  {
    assert raw[p + 1..p + 3][0] == raw[p + 1] == 0x0A;
    assert 0 <= p ==> raw[p..p + 2][1] == raw[p + 1];
  }

  /** The backward search: the greatest aligned newline, or -1 only if there is none.
      Each retry looks strictly before the rejected match, so would also skip a match
      overlapping it. */
  method LastNewline(enc: Encoding, raw: Bytes) returns (last: int)
    ensures last == -1 || NewlineAt(enc, raw, last)
    ensures forall p :: last < p ==> !NewlineAt(enc, raw, p)
  {
    var nl := Newline(enc);
    last := RFind(raw, nl, |raw|);
    forall p { NewlineIsPattern(enc, raw, p); }
    if enc.Utf16Le? {
      while last != -1 && last % 2 != 0
        invariant last == -1 || PatternAt(raw, nl, last)
        invariant forall p :: last < p ==> !NewlineAt(enc, raw, p)
        decreases last
      {
        var rejected := last;
        last := RFind(raw, nl, rejected);
        forall p | last < p
          ensures !NewlineAt(enc, raw, p)
        {
          if p == rejected - 1 {
            NoOverlap(raw, p);
          }
        }
      }
    }
  }

  /** Specification: the end of the last aligned newline in the first `n` bytes, 0 if there is none. */
  function LastEnd(enc: Encoding, raw: Bytes, n: nat): (e: nat)
    requires n <= |raw|
    ensures e <= n && (e == 0 || NewlineAt(enc, raw, e - Width(enc)))
    ensures forall p :: e < p + Width(enc) <= n ==> !NewlineAt(enc, raw, p)
  {
    if n < Width(enc) then 0
    else if NewlineAt(enc, raw, n - Width(enc)) then n
    else LastEnd(enc, raw, n - 1)
  }

  // ---- tail_file ----

  datatype TailChunk = TailChunk(lines: seq<Text>, newOffset: int)

  /** Forward alignment of an odd start, then the clamp at 0. */
  function Align(enc: Encoding, start: int): nat {
    var s := if enc.Utf16Le? && start % 2 != 0 then start + 1 else start;
    if s < 0 then 0 else s
  }

  /** `f.seek(start); f.read(max_bytes)`: nothing past the end, everything if `max` is negative. */
  function Window(content: Bytes, start: nat, max: int): Bytes {
    if start >= |content| then []
    else if max < 0 || start + max > |content| then content[start..]
    else content[start..start + max]
  }

  /** What a window read at `s` yields: the complete lines in it. */
  function Cut(enc: Encoding, raw: Bytes, s: nat): TailChunk {
    var e := LastEnd(enc, raw, |raw|);
    if e == 0 then TailChunk([], s) else TailChunk(LinesIn(enc, raw[..e]), s + e)
  }

  /** Specification of `tail_file`; `None` is a file that is missing or cannot be read. */
  function Tail(file: Option<Bytes>, start: int, enc: Encoding, max: int): TailChunk {
    var s := Align(enc, start);
    if file.None? then TailChunk([], s) else Cut(enc, Window(file.value, s, max), s)
  }

  /** The search's result decides the cut. */
  lemma {:induction false} CutFound(enc: Encoding, raw: Bytes, s: nat, last: int)
    requires last == -1 || NewlineAt(enc, raw, last)
    requires forall p :: last < p ==> !NewlineAt(enc, raw, p)
    ensures last == -1 ==> Cut(enc, raw, s) == TailChunk([], s)
    ensures last != -1 ==>
      0 < last + Width(enc) <= |raw|
      && Cut(enc, raw, s) == TailChunk(LinesIn(enc, raw[..last + Width(enc)]), s + (last + Width(enc)))
  {
    hide LinesIn, LastEnd;
    LastEndUnique(enc, raw, if last == -1 then 0 else last + Width(enc));
  }

  lemma {:induction false} CutNothing(enc: Encoding, s: nat)
    ensures Cut(enc, [], s) == TailChunk([], s)
  {}

  method TailFile(file: Option<Bytes>, start: int, enc: Encoding, max: int) returns (c: TailChunk)
    ensures c == Tail(file, start, enc, max)
  {
    hide Cut, Window, LinesIn, NewlineAt;
    var offset := start;
    if enc.Utf16Le? && offset % 2 != 0 {
      offset := offset + 1;
    }
    if offset < 0 {
      offset := 0;
    }
    if file.None? {
      return TailChunk([], offset);
    }
    var raw := Window(file.value, offset, max);
    if raw == [] {
      CutNothing(enc, offset);
      return TailChunk([], offset);
    }
    var last := LastNewline(enc, raw);
    CutFound(enc, raw, offset, last);
    if last == -1 {
      return TailChunk([], offset);
    }
    var consumed := last + Width(enc);
    var newOffset := offset + consumed;
    EvenAfterNewline(enc, raw, last, offset);
    if enc.Utf16Le? && newOffset % 2 != 0 {
      assert false; // the guard against an odd resume boundary never fires
    }
    c := TailChunk(LinesIn(enc, raw[..consumed]), newOffset);
  }

  lemma {:induction false} EvenAfterNewline(enc: Encoding, raw: Bytes, last: int, offset: nat)
    requires NewlineAt(enc, raw, last) && Aligned(enc, offset)
    ensures 0 < last + Width(enc) <= |raw| && Aligned(enc, offset + (last + Width(enc)))
  {}

  /** The guard against an odd resume offset never fires. */
  lemma {:induction false} OffsetsStayEven(file: Option<Bytes>, start: int, max: int)
    ensures Tail(file, start, Utf16Le, max).newOffset % 2 == 0
  {
    hide LinesIn, Window;
    if file.Some? {
      CutIsEven(Window(file.value, Align(Utf16Le, start), max), Align(Utf16Le, start));
    }
  }

  lemma {:induction false} CutIsEven(raw: Bytes, s: nat)
    requires s % 2 == 0
    ensures Cut(Utf16Le, raw, s).newOffset % 2 == 0
  {
    hide LinesIn, LastEnd;
    assert LastEnd(Utf16Le, raw, |raw|) % 2 == 0;
  }

  lemma {:induction false} LastEndUnique(enc: Encoding, raw: Bytes, e: nat)
    requires e == 0 || NewlineAt(enc, raw, e - Width(enc))
    requires forall p :: e - Width(enc) < p && 0 <= p ==> !NewlineAt(enc, raw, p)
    ensures LastEnd(enc, raw, |raw|) == e
  {
    var l := LastEnd(enc, raw, |raw|);
    assert l != 0 ==> !(e - Width(enc) < l - Width(enc));
    assert e != 0 ==> !(l < e - Width(enc) + Width(enc) <= |raw|);
  }

  // ---- Line boundaries of a file ----

  /** Position 0, or the end of an aligned newline: where a read may resume. */
  ghost predicate Boundary(enc: Encoding, content: Bytes, p: int) {
    p == 0 || NewlineAt(enc, content, p - Width(enc))
  }

  /** The lines between two positions of a file. */
  ghost function Span(enc: Encoding, content: Bytes, from: nat, to: nat): seq<Text>
    requires from <= to <= |content|
  {
    LinesIn(enc, content[from..to])
  }

  lemma {:induction false} BoundaryEndsNewline(enc: Encoding, content: Bytes, from: nat, to: nat)
    requires from <= to <= |content|
    requires Boundary(enc, content, from) && Boundary(enc, content, to)
    ensures content[from..to] == [] || EndsNewline(enc, content[from..to])
  {
    assert Aligned(enc, from) && Aligned(enc, to);
  }

  lemma {:induction false} SpanAppend(enc: Encoding, content: Bytes, a: nat, b: nat, c: nat)
    requires a <= b <= c <= |content|
    requires Boundary(enc, content, a) && Boundary(enc, content, b)
    ensures Span(enc, content, a, c) == Span(enc, content, a, b) + Span(enc, content, b, c)
  {
    hide LinesIn;
    BoundaryEndsNewline(enc, content, a, b);
    JoinSlices(content, a, b, c);
    LinesInAppend(enc, content[a..b], content[b..c]);
  }

  lemma {:induction false} JoinSlices(content: Bytes, a: nat, b: nat, c: nat)
    requires a <= b <= c <= |content|
    ensures content[a..c] == content[a..b] + content[b..c]
  {}

  lemma {:induction false} SpanEmpty(enc: Encoding, content: Bytes, a: nat)
    requires a <= |content|
    ensures Span(enc, content, a, a) == []
  {
    assert content[a..a] == [];
    LinesInNothing(enc);
  }

  /** Appending to a file moves no boundary and changes no earlier line. */
  lemma {:induction false} GrowthKeeps(enc: Encoding, was: Bytes, content: Bytes, p: nat)
    requires was <= content && p <= |was| && Boundary(enc, was, p)
    ensures Boundary(enc, content, p)
    ensures forall from: nat :: from <= p ==> Span(enc, content, from, p) == Span(enc, was, from, p)
  {
    forall from: nat | from <= p
      ensures Span(enc, content, from, p) == Span(enc, was, from, p)
    {
      assert content[from..p] == was[from..p];
    }
  }

  lemma {:induction false} NewlineInWindow(enc: Encoding, content: Bytes, start: nat, max: int, p: int)
    requires Aligned(enc, start)
    ensures var raw := Window(content, start, max);
      NewlineAt(enc, raw, p) <==> (0 <= p && p + Width(enc) <= |raw| && NewlineAt(enc, content, start + p))
  {
    var raw := Window(content, start, max);
    assert forall i :: 0 <= i < |raw| ==> raw[i] == content[start + i];
  }

  /** The cut is at the last boundary inside the window. */
  lemma {:induction false} CutAtLastBoundary(content: Bytes, start: nat, enc: Encoding, max: int)
    requires start <= |content| && Boundary(enc, content, start)
    ensures var raw := Window(content, start, max);
      var end := start + LastEnd(enc, raw, |raw|);
      && start + |raw| <= |content| && Boundary(enc, content, end)
      && (forall b :: end < b <= start + |raw| ==> !Boundary(enc, content, b))
  {
    hide LastEnd;
    var w, raw := Width(enc), Window(content, start, max);
    var e := LastEnd(enc, raw, |raw|);
    if e != 0 {
      NewlineInWindow(enc, content, start, max, e - w);
    }
    forall b | start + e < b <= start + |raw|
      ensures !Boundary(enc, content, b)
    {
      NewlineInWindow(enc, content, start, max, b - start - w);
    }
  }

  /** Where a read starts and what it never does: an odd start of a two-byte encoding is moved forward, a
      negative one to 0; the offset never moves back; past the end or without the file nothing is read; a
      negative limit reads all there is. */
  lemma {:induction false} ReadsForward(file: Option<Bytes>, start: int, enc: Encoding, max: int)
    ensures enc.Utf16Le? && start % 2 != 0 ==> Tail(file, start, enc, max) == Tail(file, start + 1, enc, max)
    ensures start < 0 ==> Tail(file, start, enc, max) == Tail(file, 0, enc, max)
    ensures start <= Tail(file, start, enc, max).newOffset && 0 <= Tail(file, start, enc, max).newOffset
    ensures 0 <= start && Aligned(enc, start) && (file.None? || |file.value| <= start) ==>
      Tail(file, start, enc, max) == TailChunk([], start)
    ensures max < 0 && file.Some? ==> Tail(file, start, enc, max) == Tail(file, start, enc, |file.value|)
  {
    hide LinesIn, LastEnd;
    if file.Some? {
      assert file.value[0..|file.value|] == file.value[0..];
    }
  }

  /** A read from any code-unit boundary, not only from a line's start: it stops behind the last newline among
      the next `max` bytes, or stays where it is, and delivers the lines of the bytes between. */
  lemma {:induction false} ReadStopsAtNewline(content: Bytes, start: nat, enc: Encoding, max: nat)
    requires start <= |content| && Aligned(enc, start)
    ensures var c := Tail(Some(content), start, enc, max);
      && start <= c.newOffset <= |content| && c.newOffset <= start + max
      && (c.newOffset == start || NewlineAt(enc, content, c.newOffset - Width(enc)))
      && (forall p :: c.newOffset < p + Width(enc) <= |content| && start <= p && p + Width(enc) <= start + max ==>
            !NewlineAt(enc, content, p))
      && c.lines == LinesIn(enc, content[start..c.newOffset])
  {
    hide LinesIn, LastEnd;
    var w, raw := Width(enc), Window(content, start, max);
    var e := LastEnd(enc, raw, |raw|);
    if e == 0 {
      LinesInNothing(enc);
    } else {
      NewlineInWindow(enc, content, start, max, e - w);
    }
    assert raw[..e] == content[start..start + e];
    forall p | start + e < p + w <= |content| && start <= p && p + w <= start + max
      ensures !NewlineAt(enc, content, p)
    {
      NewlineInWindow(enc, content, start, max, p - start);
    }
  }

  /** One read from a boundary: it stops at the last boundary inside the window and delivers exactly
      the lines up to there; the rest of the window is left for a later read. */
  lemma {:induction false} TailIsExact(content: Bytes, start: nat, enc: Encoding, max: int) returns (end: nat)
    requires start <= |content| && Boundary(enc, content, start)
    ensures start <= end <= start + |Window(content, start, max)| <= |content|
    ensures Boundary(enc, content, end)
    ensures forall b :: end < b <= start + |Window(content, start, max)| ==> !Boundary(enc, content, b)
    ensures Tail(Some(content), start, enc, max) == TailChunk(Span(enc, content, start, end), end)
  {
    hide Tail, LinesIn, LastEnd, Window;
    var raw := Window(content, start, max);
    end := start + LastEnd(enc, raw, |raw|);
    CutAtLastBoundary(content, start, enc, max);
    TailLines(content, start, enc, max);
  }

  lemma {:induction false} CutLines(enc: Encoding, raw: Bytes, s: nat)
    ensures var e := LastEnd(enc, raw, |raw|); Cut(enc, raw, s) == TailChunk(LinesIn(enc, raw[..e]), s + e)
  {
    hide LastEnd, LinesIn;
    LinesInNothing(enc);
    assert raw[..0] == [];
  }

  lemma {:induction false} TailLines(content: Bytes, start: nat, enc: Encoding, max: int)
    requires start <= |content| && Aligned(enc, start)
    ensures var raw := Window(content, start, max);
      var end := start + LastEnd(enc, raw, |raw|);
      end <= |content| && Tail(Some(content), start, enc, max) == TailChunk(Span(enc, content, start, end), end)
  {
    hide Boundary, LinesIn, Window, LastEnd, Cut;
    var raw := Window(content, start, max);
    WindowPrefix(content, start, max, LastEnd(enc, raw, |raw|));
    CutLines(enc, raw, start);
  }

  lemma {:induction false} WindowPrefix(content: Bytes, start: nat, max: int, e: nat)
    requires start <= |content| && e <= |Window(content, start, max)|
    ensures start + e <= |content| && Window(content, start, max)[..e] == content[start..start + e]
  {}

  // ---- Any schedule of reads over a growing file ----

  /** One call of `tail_file` within a schedule: the file as it is then, and the byte limit. */
  datatype Read = Read(file: Option<Bytes>, max: int)

  /** What a schedule delivers: a read that yields no line is not recorded and moves nothing. */
  function Deliver(enc: Encoding, schedule: seq<Read>, offset: int): (seq<Text>, int) {
    if schedule == [] then ([], offset)
    else
      var c := Tail(schedule[0].file, offset, enc, schedule[0].max);
      if c.lines == [] then Deliver(enc, schedule[1..], offset)
      else
        var (lines, end) := Deliver(enc, schedule[1..], c.newOffset);
        (c.lines + lines, end)
  }

  /** Every read sees a missing file or a prefix of `content` reaching at least to `from`, growing. */
  ghost predicate Growing(schedule: seq<Read>, from: nat, content: Bytes) {
    schedule == [] ||
    match schedule[0].file
    case None => Growing(schedule[1..], from, content)
    case Some(now) => from <= |now| && now <= content && Growing(schedule[1..], |now|, content)
  }

  lemma {:induction false} GrowingFromEarlier(schedule: seq<Read>, from: nat, earlier: nat, content: Bytes)
    requires Growing(schedule, from, content) && earlier <= from
    ensures Growing(schedule, earlier, content)
  {
    if schedule != [] && schedule[0].file.None? {
      GrowingFromEarlier(schedule[1..], from, earlier, content);
    }
  }

  /** However the stream is cut into appends and reads, and whatever the byte limits, the lines
      delivered are those of the content up to the final offset: none lost, repeated or cut. */
  lemma {:induction false} ScheduleIndependence(enc: Encoding, schedule: seq<Read>, offset: nat, content: Bytes)
    requires offset <= |content| && Boundary(enc, content, offset) && Growing(schedule, offset, content)
    ensures var (lines, end) := Deliver(enc, schedule, offset);
      && offset <= end <= |content| && Boundary(enc, content, end)
      && lines == Span(enc, content, offset, end)
  {
    if schedule == [] {
      SpanEmpty(enc, content, offset);
    } else if schedule[0].file.None? {
      assert Tail(None, offset, enc, schedule[0].max).lines == [];
      ScheduleIndependence(enc, schedule[1..], offset, content);
    } else {
      var now := schedule[0].file.value;
      BoundaryInPrefix(enc, now, content, offset);
      var _ := TailIsExact(now, offset, enc, schedule[0].max);
      var c := Tail(schedule[0].file, offset, enc, schedule[0].max);
      GrowingFromEarlier(schedule[1..], |now|, if c.lines == [] then offset else c.newOffset, content);
      GrowthKeeps(enc, now, content, c.newOffset);
      if c.lines == [] {
        ScheduleIndependence(enc, schedule[1..], offset, content);
      } else {
        ScheduleIndependence(enc, schedule[1..], c.newOffset, content);
        SpanAppend(enc, content, offset, c.newOffset, Deliver(enc, schedule[1..], c.newOffset).1);
      }
    }
  }

  lemma {:induction false} BoundaryInPrefix(enc: Encoding, now: Bytes, content: Bytes, p: nat)
    requires now <= content && p <= |now| && Boundary(enc, content, p)
    ensures Boundary(enc, now, p)
  {}

  // ---- drain_file ----

  function Remaining(file: Option<Bytes>, offset: int): nat {
    if file.None? || offset > |file.value| then 0 else |file.value| - offset
  }

  /** Lines returned imply strict progress inside the file, which bounds the number of reads. */
  lemma {:induction false} LinesMeanProgress(file: Option<Bytes>, offset: int, enc: Encoding, max: int)
    requires Tail(file, offset, enc, max).lines != []
    ensures file.Some? && offset < Tail(file, offset, enc, max).newOffset <= |file.value|
  {}

  /** What a path holds at successive reads; at the last one it has come to rest. */
  function Now(views: seq<Option<Bytes>>): Option<Bytes> {
    if views == [] then None else views[0]
  }

  function Later(views: seq<Option<Bytes>>): seq<Option<Bytes>> {
    if |views| <= 1 then views else views[1..]
  }

  /** Specification of `drain_file`: each read sees the file as it is then. */
  function Drain(views: seq<Option<Bytes>>, offset: int, enc: Encoding, max: int): seq<TailChunk>
    decreases |views|, Remaining(Now(views), offset)
  {
    var c := Tail(Now(views), offset, enc, max);
    if c.lines == [] then []
    else
      LinesMeanProgress(Now(views), offset, enc, max);
      [c] + Drain(Later(views), c.newOffset, enc, max)
  }

  method DrainFile(views: seq<Option<Bytes>>, start: int, enc: Encoding, max: int) returns (chunks: seq<TailChunk>)
    ensures chunks == Drain(views, start, enc, max)
  {
    chunks := [];
    var offset, rest := start, views;
    while true
      invariant chunks + Drain(rest, offset, enc, max) == Drain(views, start, enc, max)
      decreases |rest|, Remaining(Now(rest), offset)
    {
      var chunk := TailFile(Now(rest), offset, enc, max);
      if chunk.lines == [] {
        break;
      }
      LinesMeanProgress(Now(rest), offset, enc, max);
      Assoc(chunks, [chunk], Drain(Later(rest), chunk.newOffset, enc, max));
      chunks := chunks + [chunk];
      if chunk.newOffset == offset {
        assert false; // the break on an unmoved offset is never taken
      }
      offset, rest := chunk.newOffset, Later(rest);
    }
  }

  function ChunkLines(chunks: seq<TailChunk>): seq<Text> {
    if chunks == [] then [] else chunks[0].lines + ChunkLines(chunks[1..])
  }

  function EndOffset(chunks: seq<TailChunk>, start: int): int {
    if chunks == [] then start else chunks[|chunks| - 1].newOffset
  }

  lemma {:induction false} DrainIsExact(content: Bytes, start: nat, enc: Encoding, max: int)
    requires start <= |content| && Boundary(enc, content, start)
    ensures var chunks := Drain([Some(content)], start, enc, max);
      var end := EndOffset(chunks, start);
      && start <= end <= |content| && Boundary(enc, content, end)
      && ChunkLines(chunks) == Span(enc, content, start, end)
      && Tail(Some(content), end, enc, max).lines == []
    decreases |content| - start
  {
    hide Tail, LinesIn, LastEnd, Boundary;
    var c := Tail(Some(content), start, enc, max);
    var _ := TailIsExact(content, start, enc, max);
    SpanEmpty(enc, content, start);
    if c.lines != [] {
      LinesMeanProgress(Some(content), start, enc, max);
      DrainIsExact(content, c.newOffset, enc, max);
      var rest := Drain([Some(content)], c.newOffset, enc, max);
      assert Drain([Some(content)], start, enc, max) == [c] + rest;
      assert EndOffset([c] + rest, start) == EndOffset(rest, c.newOffset);
      SpanAppend(enc, content, start, c.newOffset, EndOffset(rest, c.newOffset));
    }
  }

  /** `b` is the end of a line such that something non-blank was completed since `from`. */
  ghost predicate Completes(enc: Encoding, content: Bytes, from: nat, b: nat) {
    from < b <= |content| && Boundary(enc, content, b) && Span(enc, content, from, b) != []
  }

  /** The next non-blank line, together with the blank ones before it, fits in one read. */
  ghost predicate NextLineFits(enc: Encoding, content: Bytes, from: nat, max: nat) {
    exists b: nat :: Completes(enc, content, from, b) && b <= from + max
  }

  /** A read makes progress exactly when the next non-blank line fits in it. */
  lemma {:induction false} ProgressIffFits(content: Bytes, start: nat, enc: Encoding, max: nat)
    requires start <= |content| && Boundary(enc, content, start)
    ensures Tail(Some(content), start, enc, max).lines != [] <==> NextLineFits(enc, content, start, max)
  {
    hide Tail, LinesIn, Boundary;
    var _ := TailIsExact(content, start, enc, max);
    var c := Tail(Some(content), start, enc, max);
    if c.lines != [] {
      SpanEmpty(enc, content, start);
      assert Completes(enc, content, start, c.newOffset);
    }
    if b: nat :| Completes(enc, content, start, b) && b <= start + max {
      assert b <= c.newOffset;
      SpanAppend(enc, content, start, b, c.newOffset);
    }
  }

  /** Every non-blank line that is complete at `from` or later can be reached by reads of `max` bytes. */
  ghost predicate AllLinesFit(enc: Encoding, content: Bytes, from: nat, max: nat) {
    forall a: nat, b: nat :: from <= a && Boundary(enc, content, a) && Completes(enc, content, a, b)
      ==> NextLineFits(enc, content, a, max)
  }

  /** A drain delivers every complete non-blank line of the file if they all fit, so the result is the
      same for every such limit. */
  lemma {:induction false} DrainIsComplete(content: Bytes, start: nat, enc: Encoding, max: nat)
    requires start <= |content| && Boundary(enc, content, start)
    requires AllLinesFit(enc, content, start, max)
    ensures var all := LastEnd(enc, content, |content|);
      start <= all && ChunkLines(Drain([Some(content)], start, enc, max)) == Span(enc, content, start, all)
  {
    hide Tail, Drain, LinesIn;
    var all := LastEnd(enc, content, |content|);
    DrainIsExact(content, start, enc, max);
    var end := EndOffset(Drain([Some(content)], start, enc, max), start);
    assert end <= all && Boundary(enc, content, all);
    hide LastEnd, Boundary;
    SpanAppend(enc, content, start, end, all);
    if Span(enc, content, end, all) != [] {
      SpanEmpty(enc, content, end);
      assert Completes(enc, content, end, all);
      ProgressIffFits(content, end, enc, max);
      assert false;
    }
  }

  lemma {:induction false} SameForEveryFittingLimit(content: Bytes, start: nat, enc: Encoding, max1: nat, max2: nat)
    requires start <= |content| && Boundary(enc, content, start)
    requires AllLinesFit(enc, content, start, max1) && AllLinesFit(enc, content, start, max2)
    ensures ChunkLines(Drain([Some(content)], start, enc, max1)) == ChunkLines(Drain([Some(content)], start, enc, max2))
  {
    DrainIsComplete(content, start, enc, max1);
    DrainIsComplete(content, start, enc, max2);
  }

  lemma {:induction false} SameWindow(content: Bytes, later: Bytes, start: nat, max: nat)
    requires start + max <= |content| && content <= later
    ensures Window(later, start, max) == Window(content, start, max)
  {
    assert later[start..start + max] == content[start..start + max];
  }

  /** The limit of the guarantee: once a full window holds no complete non-blank line, no later
      growth of the file ever gets the drain past it. */
  lemma {:induction false} StallIsForever(content: Bytes, later: Bytes, start: nat, enc: Encoding, max: nat)
    requires start + max <= |content| && Boundary(enc, content, start) && content <= later
    requires !NextLineFits(enc, content, start, max)
    ensures Drain([Some(later)], start, enc, max) == []
  {
    hide LinesIn, LastEnd, Window, NextLineFits;
    ProgressIffFits(content, start, enc, max);
    SameWindow(content, later, start, max);
    assert Tail(Some(later), start, enc, max) == Tail(Some(content), start, enc, max);
  }

  lemma {:induction false} EncodeAscii(t: Text)
    requires forall c :: c in t ==> 0 <= c < 0x80
    ensures forall c :: c in t ==> Encodable(Utf8, c)
    ensures Encode(Utf8, t) == t
  {
    if t != [] {
      assert forall c :: c in t[1..] ==> c in t;
      EncodeAscii(t[1..]);
      assert t[0] in t;
      assert EncodeOne(Utf8, t[0]) == [t[0]];
      assert [t[0]] + t[1..] == t;
    }
  }

  /** It does happen: two bytes are read of a three-byte line, then and ever after. */
  lemma {:induction false} StallHappens(later: Bytes)
    requires [97, 98, 10] <= later
    ensures Drain([Some(later)], 0, Utf8, 2) == []
    ensures Span(Utf8, [97, 98, 10], 0, 3) == [[97, 98]]
  {
    var content: Bytes := [97, 98, 10];
    assert Window(later, 0, 2) == [97, 98];
    assert LastEnd(Utf8, [97, 98], 2) == 0;
    assert Terminated([[97, 98]], false) == [97, 98, 10] by {
      assert [[97, 98]][1..] == [];
    }
    EncodeAscii([97, 98, 10]);
    WrittenLinesAreRead(Utf8, [[97, 98]], false);
    assert content[0..3] == content;
  }
}
