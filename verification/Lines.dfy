/** Decoded text and the line-splitting comprehension at the end of `tail_file`. */
module Lines {
  type CodePoint = int
  type Text = seq<CodePoint>

  const LF: CodePoint := 10
  const CR: CodePoint := 13

  /** `text.replace("\r\n", "\n")`: left to right, without overlap. */
  function ReplaceCrLf(t: Text): Text {
    if |t| < 2 then t
    else if t[0] == CR && t[1] == LF then [LF] + ReplaceCrLf(t[2..])
    else [t[0]] + ReplaceCrLf(t[1..])
  }

  /** `text.split("\n")`: never empty, one part more than there are newlines. */
  function Split(t: Text): (parts: seq<Text>)
    ensures parts != []
  {
    if t == [] then [[]] else Prepend(t[0], Split(t[1..]))
  }

  function Prepend(c: CodePoint, parts: seq<Text>): (r: seq<Text>)
    requires parts != []
    ensures r != []
  {
    if c == LF then [[]] + parts else [[c] + parts[0]] + parts[1..]
  }

  /** `line.rstrip("\r")` */
  function RStripCr(line: Text): Text {
    if line != [] && line[|line| - 1] == CR then RStripCr(line[..|line| - 1]) else line
  }

  /** The comprehension: strip every part, keep the non-blank ones. */
  function KeepNonBlank(parts: seq<Text>): seq<Text> {
    if parts == [] then []
    else
      var line := RStripCr(parts[0]);
      (if line == [] then [] else [line]) + KeepNonBlank(parts[1..])
  }

  function LinesOf(t: Text): seq<Text> {
    KeepNonBlank(Split(ReplaceCrLf(t)))
  }

  ghost predicate EndsLine(t: Text) {
    t != [] && t[|t| - 1] == LF
  }

  /** The two equations of the replacement. */
  lemma {:induction false} ReplaceStep(t: Text)
    requires t != []
    ensures StartsCrLf(t) ==> ReplaceCrLf(t) == [LF] + ReplaceCrLf(t[2..])
    ensures !StartsCrLf(t) ==> ReplaceCrLf(t) == [t[0]] + ReplaceCrLf(t[1..])
  {
    if |t| == 1 {
      assert t == [t[0]] && t[1..] == [];
    }
  }

  /** Does the replacement start by taking two characters? */
  predicate StartsCrLf(t: Text) {
    |t| >= 2 && t[0] == CR && t[1] == LF
  }

  /** Dropping a head shorter than `t` leaves `u` in place. */
  lemma {:induction false} DropHead(t: Text, u: Text, w: nat)
    requires w <= |t|
    ensures (t + u)[w..] == t[w..] + u
  {}

  lemma {:induction false} HeadOfAppend(t: Text, u: Text)
    requires EndsLine(t)
    ensures (t + u)[0] == t[0] && (StartsCrLf(t + u) <==> StartsCrLf(t))
  {}

  lemma {:induction false} LaterEndsLine(t: Text, w: nat)
    requires EndsLine(t) && w < |t|
    ensures EndsLine(t[w..])
  {}

  /** The replacement of the rest, with what was replaced at the head. */
  lemma {:induction false} ReplaceRest(t: Text, u: Text, c: CodePoint, w: nat)
    requires EndsLine(t) && w <= |t| && (w == |t| ==> c == LF)
    requires ReplaceCrLf(t) == [c] + ReplaceCrLf(t[w..]) && ReplaceCrLf(t + u) == [c] + ReplaceCrLf(t[w..] + u)
    requires w < |t| ==>
      ReplaceCrLf(t[w..] + u) == ReplaceCrLf(t[w..]) + ReplaceCrLf(u) && EndsLine(ReplaceCrLf(t[w..]))
    ensures ReplaceCrLf(t + u) == ReplaceCrLf(t) + ReplaceCrLf(u) && EndsLine(ReplaceCrLf(t))
  {
    ReplaceNothing();
    hide ReplaceCrLf;
    if w == |t| {
      assert t[w..] == [] && [] + u == u;
    }
  }

  lemma {:induction false} ReplaceAppend(t: Text, u: Text)
    requires EndsLine(t)
    ensures ReplaceCrLf(t + u) == ReplaceCrLf(t) + ReplaceCrLf(u)
    ensures EndsLine(ReplaceCrLf(t))
  {
    ReplaceStep(t);
    ReplaceStep(t + u);
    HeadOfAppend(t, u);
    hide ReplaceCrLf;
    var w, c := if StartsCrLf(t) then 2 else 1, if StartsCrLf(t) then LF else t[0];
    hide StartsCrLf;
    DropHead(t, u, w);
    if w < |t| {
      LaterEndsLine(t, w);
      ReplaceAppend(t[w..], u);
    }
    ReplaceRest(t, u, c, w);
  }

  lemma {:induction false} ReplaceNothing()
    ensures ReplaceCrLf([]) == []
  {}

  lemma {:induction false} PrependAppend(c: CodePoint, a: seq<Text>, b: seq<Text>)
    requires a != []
    ensures Prepend(c, a + b) == Prepend(c, a) + b
  {
    assert (a + b)[1..] == a[1..] + b;
  }

  /** The parts of a text that ends with a newline, without the empty last one. */
  function SplitBody(t: Text): seq<Text> {
    var p := Split(t);
    p[..|p| - 1]
  }

  lemma {:induction false} SplitOfEndsLine(t: Text)
    requires EndsLine(t)
    ensures SplitBody(t) != [] && Split(t) == SplitBody(t) + [[]]
    ensures |t| > 1 ==> SplitBody(t) == Prepend(t[0], SplitBody(t[1..]))
  {
    if |t| > 1 {
      SplitOfEndsLine(t[1..]);
      PrependAppend(t[0], SplitBody(t[1..]), [[]]);
    }
  }

  lemma {:induction false} SplitAppend(t: Text, u: Text)
    requires EndsLine(t)
    ensures Split(t + u) == SplitBody(t) + Split(u)
  {
    SplitOfEndsLine(t);
    assert (t + u)[1..] == t[1..] + u;
    assert Split(t + u) == Prepend(t[0], Split(t[1..] + u));
    if |t| == 1 {
      assert t == [LF] && t[1..] + u == u;
      assert Split(t) == [[], []];
    } else {
      SplitOfEndsLine(t[1..]);
      SplitAppend(t[1..], u);
      PrependAppend(t[0], SplitBody(t[1..]), Split(u));
    }
  }

  lemma {:induction false} KeepAppend(a: seq<Text>, b: seq<Text>)
    ensures KeepNonBlank(a + b) == KeepNonBlank(a) + KeepNonBlank(b)
  {
    if a == [] {
      assert a + b == b;
    } else {
      assert (a + b)[1..] == a[1..] + b;
      KeepAppend(a[1..], b);
    }
  }

  lemma {:induction false} KeepSplitAppend(t: Text, u: Text)
    requires EndsLine(t)
    ensures KeepNonBlank(Split(t + u)) == KeepNonBlank(Split(t)) + KeepNonBlank(Split(u))
  {
    hide Split, KeepNonBlank;
    SplitAppend(t, u);
    SplitOfEndsLine(t);
    KeepAppend(SplitBody(t), Split(u));
    KeepAppend(SplitBody(t), [[]]);
    KeepOne([]);
  }

  lemma {:induction false} KeepOne(line: Text)
    ensures KeepNonBlank([line]) == if RStripCr(line) == [] then [] else [RStripCr(line)]
  {}

  /** Cutting right after a newline commutes with the whole splitting pipeline. */
  lemma {:induction false} LinesAppend(t: Text, u: Text)
    requires EndsLine(t)
    ensures LinesOf(t + u) == LinesOf(t) + LinesOf(u)
  {
    ReplaceAppend(t, u);
    KeepSplitAppend(ReplaceCrLf(t), ReplaceCrLf(u));
  }

  // ---- Round trip: what was written as lines is what is read back ----

  /** A line a logger can write: non-blank, no newline inside, not ending in a carriage return. */
  ghost predicate PlainLine(line: Text) {
    line != [] && LF !in line && line[|line| - 1] != CR
  }

  /** The text of lines, each ended by LF or CRLF. */
  function Terminated(lines: seq<Text>, crlf: bool): Text {
    if lines == [] then []
    else lines[0] + (if crlf then [CR, LF] else [LF]) + Terminated(lines[1..], crlf)
  }

  lemma {:induction false} SplitOneLine(line: Text)
    requires LF !in line
    ensures Split(line + [LF]) == [line, []]
  {
    if line == [] {
      assert line + [LF] == [LF];
      assert [LF][1..] == [];
    } else {
      SplitOneLine(line[1..]);
      assert (line + [LF])[1..] == line[1..] + [LF];
      assert [line[0]] + line[1..] == line;
    }
  }

  lemma {:induction false} NotCrLf(line: Text, end: Text)
    requires line != [] && LF !in line && line[|line| - 1] != CR
    ensures !StartsCrLf(line + end)
  {
    assert |line| > 1 ==> (line + end)[1] == line[1];
  }

  lemma {:induction false} ReplaceOneLine(line: Text, crlf: bool)
    requires LF !in line && (line == [] || line[|line| - 1] != CR)
    ensures ReplaceCrLf(line + (if crlf then [CR, LF] else [LF])) == line + [LF]
  {
    var end := if crlf then [CR, LF] else [LF];
    if line == [] {
      assert line + end == end;
      assert crlf ==> end[2..] == [];
    } else {
      ReplaceOneLine(line[1..], crlf);
      assert (line + end)[1..] == line[1..] + end;
      NotCrLf(line, end);
      ReplaceStep(line + end);
      hide ReplaceCrLf, StartsCrLf;
      assert [line[0]] + (line[1..] + [LF]) == line + [LF];
    }
  }

  lemma {:induction false} LinesOfOneLine(line: Text, crlf: bool)
    requires PlainLine(line)
    ensures LinesOf(line + (if crlf then [CR, LF] else [LF])) == [line]
  {
    ReplaceOneLine(line, crlf);
    SplitOneLine(line);
    KeepAppend([line], [[]]);
    assert [line] + [[]] == [line, []];
    KeepOne(line);
    KeepOne([]);
  }

  lemma {:induction false} LinesRoundTrip(lines: seq<Text>, crlf: bool)
    requires forall l :: l in lines ==> PlainLine(l)
    ensures LinesOf(Terminated(lines, crlf)) == lines
  {
    if lines == [] {
      KeepOne([]);
    } else {
      var first := lines[0] + (if crlf then [CR, LF] else [LF]);
      LinesRoundTrip(lines[1..], crlf);
      LinesAppend(first, Terminated(lines[1..], crlf));
      LinesOfOneLine(lines[0], crlf);
    }
  }

  // ---- Any text, line by line ----

  lemma {:induction false} RStripPrepend(c: CodePoint, line: Text)
    ensures RStripCr([c] + line) == if RStripCr(line) == [] then RStripCr([c]) else [c] + RStripCr(line)
  {
    var all := [c] + line;
    if line != [] && line[|line| - 1] == CR {
      assert all[..|all| - 1] == [c] + line[..|line| - 1];
      RStripPrepend(c, line[..|line| - 1]);
    } else if line == [] {
      assert all == [c];
    }
  }

  /** Before a newline the replacement takes at most a return that is stripped anyway. */
  lemma {:induction false} ReplaceLast(t: Text) returns (u: Text)
    requires LF !in t
    ensures ReplaceCrLf(t + [LF]) == u + [LF] && LF !in u && RStripCr(u) == RStripCr(t)
  {
    var all := t + [LF];
    ReplaceStep(all);
    ReplaceNothing();
    if t == [] {
      u := [];
      assert all == [LF] && all[1..] == [];
    } else if StartsCrLf(all) {
      u := [];
      assert forall i :: 0 <= i < |t| ==> all[i] == t[i];
      assert t == [CR] && t[..0] == [];
      assert all[2..] == [];
    } else {
      assert all[1..] == t[1..] + [LF];
      var rest := ReplaceLast(t[1..]);
      u := [t[0]] + rest;
      RStripPrepend(t[0], rest);
      RStripPrepend(t[0], t[1..]);
      assert [t[0]] + t[1..] == t;
    }
  }

  /** `line` is `body` without the carriage returns at its end. */
  ghost predicate Stripped(body: Text, line: Text) {
    && line <= body && (line == [] || line[|line| - 1] != CR)
    && forall i :: |line| <= i < |body| ==> body[i] == CR
  }

  lemma {:induction false} StrippedIs(body: Text, line: Text)
    requires Stripped(body, line)
    ensures RStripCr(body) == line
  {
    if |line| < |body| {
      StrippedIs(body[..|body| - 1], line);
    }
  }

  /** Whatever the text: up to its first newline it gives one line, without the carriage returns at its end, or
      none if nothing is left; then the lines of the rest. */
  lemma {:induction false} LineByLine(body: Text, line: Text, rest: Text)
    requires LF !in body && Stripped(body, line)
    ensures LinesOf(body + [LF] + rest) == (if line == [] then [] else [line]) + LinesOf(rest)
  {
    var u := ReplaceLast(body);
    StrippedIs(body, line);
    LinesAppend(body + [LF], rest);
    SplitOneLine(u);
    KeepAppend([u], [[]]);
    assert [u] + [[]] == [u, []];
    KeepOne(u);
    KeepOne([]);
  }
}
