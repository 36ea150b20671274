/** When every read of a drain completes just one line, in terms of the file's content and the byte limit. */
module SingleLines {
  import opened Wrappers
  import opened Lines
  import opened Codec
  import opened Tailer

  ghost predicate SingleLine(chunks: seq<TailChunk>) {
    forall i :: 0 <= i < |chunks| ==> |chunks[i].lines| == 1
  }

  // ---- A stretch with one newline is at most one line ----

  lemma {:induction false} AtMostOneLine(t: Text)
    requires LF !in t
    ensures |LinesOf(t + [LF])| <= 1
  {
    var u := ReplaceLast(t);
    SplitOneLine(u);
    KeepAppend([u], [[]]);
    assert [u] + [[]] == [u, []];
    KeepOne(u);
    KeepOne([]);
  }

  lemma {:induction false} LfIsNewline(enc: Encoding, b: Bytes)
    requires b != [] && Step(enc, b).cp == LF
    ensures NewlineAt(enc, b, 0) && Step(enc, b).used == Width(enc)
  {}

  lemma {:induction false} OnlyLastNewline(enc: Encoding, raw: Bytes) returns (t: Text)
    requires EndsNewline(enc, raw) && forall p :: p < |raw| - Width(enc) ==> !NewlineAt(enc, raw, p)
    ensures Decode(enc, raw) == t + [LF] && LF !in t
    decreases |raw|
  {
    StepStaysBeforeNewline(enc, raw, []);
    assert raw + [] == raw;
    var d := Step(enc, raw);
    var rest := raw[d.used..];
    if rest == [] {
      LastStepIsNewline(enc, raw);
      assert raw == Newline(enc);
      t := [];
      assert Decode(enc, raw) == [d.cp] + Decode(enc, rest);
    } else {
      if d.cp == LF {
        LfIsNewline(enc, raw);
        assert false;
      }
      RestNewlines(enc, raw, d.used);
      var more := OnlyLastNewline(enc, rest);
      t := [d.cp] + more;
    }
  }

  lemma {:induction false} RestNewlines(enc: Encoding, raw: Bytes, used: nat)
    requires used < |raw| && EndsNewline(enc, raw) && EndsNewline(enc, raw[used..])
    requires forall p :: p < |raw| - Width(enc) ==> !NewlineAt(enc, raw, p)
    ensures forall p :: p < |raw[used..]| - Width(enc) ==> !NewlineAt(enc, raw[used..], p)
  {
    var rest := raw[used..];
    forall p | p < |rest| - Width(enc)
      ensures !NewlineAt(enc, rest, p)
    {
      assert 0 <= p ==> rest[p] == raw[used + p] && !NewlineAt(enc, raw, used + p);
    }
  }

  /** Two positions with no boundary between them. */
  ghost predicate Consecutive(enc: Encoding, content: Bytes, a: nat, e: nat) {
    && a < e <= |content| && Boundary(enc, content, a) && Boundary(enc, content, e)
    && forall b :: a < b < e ==> !Boundary(enc, content, b)
  }

  lemma {:induction false} ConsecutiveIsOneLine(enc: Encoding, content: Bytes, a: nat, e: nat)
    requires Consecutive(enc, content, a, e)
    ensures |Span(enc, content, a, e)| <= 1
  {
    var raw := content[a..e];
    BoundaryEndsNewline(enc, content, a, e);
    forall p | p < |raw| - Width(enc)
      ensures !NewlineAt(enc, raw, p)
    {
      if 0 <= p {
        assert raw[p] == content[a + p];
        assert !Boundary(enc, content, a + p + Width(enc));
      }
    }
    var t := OnlyLastNewline(enc, raw);
    AtMostOneLine(t);
  }

  // ---- The condition on content and limit ----

  /** Every stretch between two boundaries holds a line. */
  ghost predicate NoBlankLines(enc: Encoding, content: Bytes, start: nat) {
    forall a: nat, b: nat :: start <= a < b <= |content| && Boundary(enc, content, a) && Boundary(enc, content, b) ==>
      Span(enc, content, a, b) != []
  }

  /** Some boundary is within `max` bytes after `x`. */
  ghost predicate Fits(enc: Encoding, content: Bytes, x: nat, max: nat) {
    exists y: nat :: x < y <= x + max && Boundary(enc, content, y)
  }

  /** Reads from `start` get as far as `a`: no line on the way is too long for one read. */
  ghost predicate Passed(enc: Encoding, content: Bytes, start: nat, a: nat, max: nat) {
    forall x: nat :: start <= x < a && Boundary(enc, content, x) ==> Fits(enc, content, x, max)
  }

  /** Wherever reads get, two lines together exceed the limit. */
  ghost predicate PairsExceed(enc: Encoding, content: Bytes, start: nat, max: nat) {
    forall a: nat, b: nat, c: nat ::
      (start <= a < b < c && Boundary(enc, content, a) && Boundary(enc, content, b) && Boundary(enc, content, c)
       && Passed(enc, content, start, a, max)) ==> c - a > max
  }

  /** The first read stops at a boundary; beyond it the next boundary is out of reach. */
  lemma {:induction false} FirstRead(content: Bytes, start: nat, enc: Encoding, max: nat) returns (end: nat)
    requires start <= |content| && Boundary(enc, content, start)
    ensures start <= end <= |content| && Boundary(enc, content, end) && end - start <= max
    ensures forall b: nat :: end < b && Boundary(enc, content, b) ==> b - start > max
    ensures Tail(Some(content), start, enc, max) == TailChunk(Span(enc, content, start, end), end)
  {
    hide Tail, Span, LastEnd;
    end := TailIsExact(content, start, enc, max);
    forall b: nat | end < b && Boundary(enc, content, b)
      ensures b - start > max
    {
      assert b <= |content|;
    }
  }

  lemma {:induction false} StuckHere(enc: Encoding, content: Bytes, start: nat, a: nat, max: nat)
    requires Boundary(enc, content, start) && !Fits(enc, content, start, max)
    ensures Passed(enc, content, start, a, max) ==> a <= start
  {}

  lemma {:induction false} NothingRead(content: Bytes, start: nat, enc: Encoding, max: nat)
    requires start <= |content| && Boundary(enc, content, start) && NoBlankLines(enc, content, start)
    requires Tail(Some(content), start, enc, max).lines == []
    ensures !Fits(enc, content, start, max) && PairsExceed(enc, content, start, max)
  {
    hide Tail, Span, Boundary;
    var end := FirstRead(content, start, enc, max);
    assert end == start && !Fits(enc, content, start, max);
    forall a: nat, b: nat, c: nat | start <= a < b < c && Boundary(enc, content, a) && Boundary(enc, content, b)
                                    && Boundary(enc, content, c) && Passed(enc, content, start, a, max)
      ensures c - a > max
    {
      StuckHere(enc, content, start, a, max);
    }
  }

  lemma {:induction false} PassedFromEnd(enc: Encoding, content: Bytes, start: nat, end: nat, a: nat, max: nat)
    requires Consecutive(enc, content, start, end) && end - start <= max && end <= a
    ensures Passed(enc, content, end, a, max) <==> Passed(enc, content, start, a, max)
  {
    hide Boundary;
    assert Fits(enc, content, start, max);
  }

  /** With one line read, the condition from here is the condition from its end. */
  lemma {:induction false} OneLineRead(content: Bytes, start: nat, end: nat, enc: Encoding, max: nat)
    requires Consecutive(enc, content, start, end) && end - start <= max
    requires forall b: nat :: end < b && Boundary(enc, content, b) ==> b - start > max
    ensures PairsExceed(enc, content, start, max) <==> PairsExceed(enc, content, end, max)
  {
    hide Boundary, Passed;
    if PairsExceed(enc, content, end, max) {
      forall a: nat, b: nat, c: nat | start <= a < b < c && Boundary(enc, content, a) && Boundary(enc, content, b)
                                      && Boundary(enc, content, c) && Passed(enc, content, start, a, max)
        ensures c - a > max
      {
        if a > start {
          assert a >= end;
          PassedFromEnd(enc, content, start, end, a, max);
        }
      }
    }
    if PairsExceed(enc, content, start, max) {
      forall a: nat, b: nat, c: nat | end <= a < b < c && Boundary(enc, content, a) && Boundary(enc, content, b)
                                      && Boundary(enc, content, c) && Passed(enc, content, end, a, max)
        ensures c - a > max
      {
        PassedFromEnd(enc, content, start, end, a, max);
      }
    }
  }

  /** With two lines read, the condition fails right here. */
  lemma {:induction false} TwoLinesRead(content: Bytes, start: nat, end: nat, enc: Encoding, max: nat)
    requires start < end <= |content| && end - start <= max
    requires Boundary(enc, content, start) && Boundary(enc, content, end)
    requires |Span(enc, content, start, end)| > 1
    ensures !PairsExceed(enc, content, start, max)
  {
    if Consecutive(enc, content, start, end) {
      ConsecutiveIsOneLine(enc, content, start, end);
    }
    hide Boundary, Span;
    var b: int :| start < b < end && Boundary(enc, content, b);
    assert Passed(enc, content, start, start, max);
    assert !(end - start > max);
  }

  lemma {:induction false} TwoStretches(content: Bytes, start: nat, b: nat, end: nat, enc: Encoding)
    requires start < b < end <= |content| && NoBlankLines(enc, content, start)
    requires Boundary(enc, content, start) && Boundary(enc, content, b) && Boundary(enc, content, end)
    ensures |Span(enc, content, start, end)| >= 2
  {
    hide Boundary, Span;
    SpanAppend(enc, content, start, b, end);
    assert Span(enc, content, start, b) != [] && Span(enc, content, b, end) != [];
  }

  /** With no blank line in between, a stretch of one line has no boundary inside. */
  lemma {:induction false} OneLineIsConsecutive(content: Bytes, start: nat, end: nat, enc: Encoding)
    requires start < end <= |content| && Boundary(enc, content, start) && Boundary(enc, content, end)
    requires NoBlankLines(enc, content, start) && |Span(enc, content, start, end)| == 1
    ensures Consecutive(enc, content, start, end)
  {
    hide Boundary, Span;
    forall b | start < b < end
      ensures !Boundary(enc, content, b)
    {
      if Boundary(enc, content, b) {
        TwoStretches(content, start, b, end, enc);
      }
    }
  }

  /** In a file without blank lines, every chunk of a drain holds a single line exactly if, wherever reads get,
      two lines together exceed the limit. */
  lemma {:induction false} SingleLineIff(content: Bytes, start: nat, enc: Encoding, max: nat)
    requires start <= |content| && Boundary(enc, content, start) && NoBlankLines(enc, content, start)
    ensures SingleLine(Drain([Some(content)], start, enc, max)) <==> PairsExceed(enc, content, start, max)
    decreases |content| - start
  {
    hide Tail, Span, Boundary, PairsExceed, NoBlankLines, Consecutive;
    var c := Tail(Some(content), start, enc, max);
    if c.lines == [] {
      NothingRead(content, start, enc, max);
    } else {
      LinesMeanProgress(Some(content), start, enc, max);
      var end := FirstRead(content, start, enc, max);
      var rest := Drain([Some(content)], end, enc, max);
      SingleLineCons(c, rest);
      if |c.lines| > 1 {
        TwoLinesRead(content, start, end, enc, max);
      } else {
        OneLineIsConsecutive(content, start, end, enc);
        OneLineRead(content, start, end, enc, max);
        LaterNoBlank(enc, content, start, end);
        SingleLineIff(content, end, enc, max);
      }
    }
  }

  lemma {:induction false} SingleLineCons(c: TailChunk, rest: seq<TailChunk>)
    ensures SingleLine([c] + rest) <==> |c.lines| == 1 && SingleLine(rest)
  {
    var all := [c] + rest;
    assert all[0] == c && forall i :: 0 <= i < |rest| ==> rest[i] == all[i + 1];
  }

  lemma {:induction false} LaterNoBlank(enc: Encoding, content: Bytes, start: nat, end: nat)
    requires NoBlankLines(enc, content, start) && start <= end
    ensures NoBlankLines(enc, content, end)
  {
    hide Boundary, Span;
  }

  // ---- Where chunks end ----

  ghost predicate HasOffset(chunks: seq<TailChunk>, o: int) {
    exists i :: 0 <= i < |chunks| && chunks[i].newOffset == o
  }

  /** Some line past `start` that reads get to ends at `o`. */
  ghost predicate LineEndsAt(enc: Encoding, content: Bytes, start: nat, o: int, max: nat) {
    start < o && Boundary(enc, content, o) && Passed(enc, content, start, o, max)
  }

  lemma {:induction false} HasOffsetCons(c: TailChunk, rest: seq<TailChunk>, o: int)
    ensures HasOffset([c] + rest, o) <==> c.newOffset == o || HasOffset(rest, o)
  {
    var all := [c] + rest;
    assert all[0] == c && forall i :: 0 <= i < |rest| ==> rest[i] == all[i + 1];
    if c.newOffset != o && HasOffset(all, o) {
      var i :| 0 <= i < |all| && all[i].newOffset == o;
      assert rest[i - 1].newOffset == o;
    }
  }

  /** With one line read, the line ends from here are its end and those after it. */
  lemma {:induction false} EndsFromEnd(enc: Encoding, content: Bytes, start: nat, end: nat, o: int, max: nat)
    requires Consecutive(enc, content, start, end) && end - start <= max
    ensures LineEndsAt(enc, content, start, o, max) <==> o == end || LineEndsAt(enc, content, end, o, max)
  {
    hide Boundary, Passed;
    if end <= o {
      PassedFromEnd(enc, content, start, end, o, max);
      PassedHere(enc, content, end, max);
    }
  }

  lemma {:induction false} PassedHere(enc: Encoding, content: Bytes, start: nat, max: nat)
    ensures Passed(enc, content, start, start, max)
  {}

  /** Where two lines together exceed the limit, in a file without blank lines, chunks end exactly where the
      lines end that reads get to. */
  lemma {:induction false} ChunkEndsIff(content: Bytes, start: nat, enc: Encoding, max: nat, o: int)
    requires start <= |content| && Boundary(enc, content, start) && NoBlankLines(enc, content, start)
    requires PairsExceed(enc, content, start, max)
    ensures HasOffset(Drain([Some(content)], start, enc, max), o) <==> LineEndsAt(enc, content, start, o, max)
    decreases |content| - start
  {
    hide Tail, Span, Boundary, PairsExceed, NoBlankLines, Consecutive, Passed, HasOffset, Fits;
    var c := Tail(Some(content), start, enc, max);
    if c.lines == [] {
      NothingRead(content, start, enc, max);
      NoOffsets(o);
      if start < o {
        StuckHere(enc, content, start, o, max);
      }
    } else {
      LinesMeanProgress(Some(content), start, enc, max);
      var end := FirstRead(content, start, enc, max);
      if |c.lines| > 1 {
        TwoLinesRead(content, start, end, enc, max);
      }
      OneLineIsConsecutive(content, start, end, enc);
      OneLineRead(content, start, end, enc, max);
      LaterNoBlank(enc, content, start, end);
      ChunkEndsIff(content, end, enc, max, o);
      HasOffsetCons(c, Drain([Some(content)], end, enc, max), o);
      EndsFromEnd(enc, content, start, end, o, max);
    }
  }

  lemma {:induction false} NoOffsets(o: int)
    ensures !HasOffset([], o)
  {}
}
