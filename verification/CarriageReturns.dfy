/** When a lone carriage return matters: the comment in `tail_file` promises that CR is normalised,
    the code normalises CR LF only. */
module CarriageReturns {
  import opened Lines

  /** Replacing every carriage return by a newline, as normalising CR would. */
  function ReplaceCr(t: Text): Text {
    if t == [] then [] else [if t[0] == CR then LF else t[0]] + ReplaceCr(t[1..])
  }

  /** The lines if CR LF and lone CR were both normalised. */
  function UniversalLines(t: Text): seq<Text> {
    KeepNonBlank(Split(ReplaceCr(ReplaceCrLf(t))))
  }

  /** A carriage return right before an ordinary character. */
  predicate LoneCr(t: Text) {
    |t| >= 2 && ((t[0] == CR && t[1] != CR && t[1] != LF) || LoneCr(t[1..]))
  }

  // ---- Replacing CR LF first does not create or remove one ----

  lemma {:induction false} LoneSurvives(t: Text)
    ensures LoneCr(ReplaceCrLf(t)) <==> LoneCr(t)
  {
    if t != [] {
      ReplaceStep(t);
      var w := if StartsCrLf(t) then 2 else 1;
      LoneSurvives(t[w..]);
      var rest := ReplaceCrLf(t[w..]);
      assert ReplaceCrLf(t)[1..] == rest;
      if w == 2 {
        assert t[1..][1..] == t[2..];
      } else if |t| > 1 {
        ReplaceStep(t[1..]);
      }
    }
  }

  // ---- Cutting both readings at newlines ----

  lemma {:induction false} ReplaceCrAppend(t: Text, u: Text)
    ensures ReplaceCr(t + u) == ReplaceCr(t) + ReplaceCr(u)
  {
    if t == [] {
      assert t + u == u;
    } else {
      assert (t + u)[1..] == t[1..] + u;
      ReplaceCrAppend(t[1..], u);
    }
  }

  lemma {:induction false} LoneAppend(line: Text, rest: Text)
    ensures LoneCr(line + ([LF] + rest)) <==> LoneCr(line) || LoneCr(rest)
  {
    var t := line + ([LF] + rest);
    if line == [] {
      assert t == [LF] + rest && ([LF] + rest)[1..] == rest;
    } else {
      assert t[1..] == line[1..] + ([LF] + rest);
      LoneAppend(line[1..], rest);
    }
  }

  /** The lines of a text, with the last one closed. */
  function Kept(t: Text): seq<Text> {
    KeepNonBlank(Split(t + [LF]))
  }

  lemma {:induction false} ClosingAddsNothing(t: Text)
    ensures Kept(t) == KeepNonBlank(Split(t))
  {
    SplitSnoc(t);
    KeepAppend(Split(t), [[]]);
    KeepOne([]);
  }

  lemma {:induction false} SplitSnoc(t: Text)
    ensures Split(t + [LF]) == Split(t) + [[]]
  {
    if t == [] {
      SplitOneLine([]);
      assert [] + [LF] == [LF];
    } else {
      assert (t + [LF])[1..] == t[1..] + [LF];
      SplitSnoc(t[1..]);
      PrependAppend(t[0], Split(t[1..]), [[]]);
    }
  }

  lemma {:induction false} KeptAppend(line: Text, rest: Text)
    ensures Kept(line + ([LF] + rest)) == Kept(line) + Kept(rest)
  {
    assert (line + ([LF] + rest)) + [LF] == (line + [LF]) + (rest + [LF]);
    KeepSplitAppend(line + [LF], rest + [LF]);
  }

  lemma {:induction false} KeptOne(line: Text)
    requires LF !in line
    ensures Kept(line) == if RStripCr(line) == [] then [] else [RStripCr(line)]
  {
    SplitOneLine(line);
    assert [line] + [[]] == [line, []];
    KeepAppend([line], [[]]);
    KeepOne(line);
    KeepOne([]);
  }

  /** A text is one line, or a line, a newline and the rest. */
  lemma {:induction false} FirstLine(t: Text) returns (line: Text, rest: Text)
    requires LF in t
    ensures t == line + ([LF] + rest) && LF !in line
  {
    if t[0] == LF {
      line, rest := [], t[1..];
    } else {
      line, rest := FirstLine(t[1..]);
      line := [t[0]] + line;
    }
  }

  // ---- One line ----

  lemma {:induction false} NoCrInside(line: Text)
    requires LF !in line && !LoneCr(line) && (line == [] || line[|line| - 1] != CR)
    ensures CR !in line && ReplaceCr(line) == line
  {
    if line != [] {
      if |line| > 1 {
        assert line[1..][|line| - 2] == line[|line| - 1];
      }
      NoCrInside(line[1..]);
      assert forall i :: 1 <= i < |line| ==> line[i] in line[1..];
      assert [line[0]] + line[1..] == line;
    }
  }

  lemma {:induction false} LonePrefix(line: Text, c: CodePoint)
    requires LoneCr(line)
    ensures LoneCr(line + [c])
  {
    assert (line + [c])[1..] == line[1..] + [c];
    if LoneCr(line[1..]) {
      LonePrefix(line[1..], c);
    }
  }

  /** Without a lone return, a line reads the same either way. */
  lemma {:induction false} SameLine(line: Text)
    requires LF !in line && !LoneCr(line)
    ensures Kept(ReplaceCr(line)) == Kept(line)
  {
    if line == [] || line[|line| - 1] != CR {
      NoCrInside(line);
    } else {
      var init := line[..|line| - 1];
      assert line == init + [CR];
      if LoneCr(init) {
        LonePrefix(init, CR);
      }
      SameLine(init);
      ReplaceCrAppend(init, [CR]);
      assert ReplaceCr([CR]) == [LF] by { assert [CR][1..] == []; }
      assert [LF] + [] == [LF];
      KeptAppend(ReplaceCr(init), []);
      KeptOne([]);
      KeptOne(init);
      KeptOne(line);
    }
  }

  lemma {:induction false} StripKeeps(line: Text, i: nat)
    requires i < |line| && line[i] != CR
    ensures RStripCr(line) <= line && i < |RStripCr(line)|
  {
    if line[|line| - 1] == CR {
      StripKeeps(line[..|line| - 1], i);
    }
  }

  lemma {:induction false} LoneAt(line: Text) returns (i: nat)
    requires LoneCr(line)
    ensures i + 1 < |line| && line[i] == CR && line[i + 1] != CR
  {
    if line[0] == CR && line[1] != CR {
      i := 0;
    } else {
      i := LoneAt(line[1..]);
      i := i + 1;
    }
  }

  /** A lone return stays inside its line. */
  lemma {:induction false} LoneStays(line: Text)
    requires LF !in line && LoneCr(line)
    ensures exists l :: l in Kept(line) && CR in l
  {
    var i := LoneAt(line);
    StripKeeps(line, i + 1);
    KeptOne(line);
    var l := RStripCr(line);
    assert l[i] == line[i];
    assert l in Kept(line) && CR in l;
  }

  // ---- Whole texts ----

  lemma {:induction false} SameLines(t: Text)
    requires !LoneCr(t)
    ensures Kept(ReplaceCr(t)) == Kept(t)
    decreases |t|
  {
    if LF in t {
      var line, rest := FirstLine(t);
      LoneAppend(line, rest);
      SameLine(line);
      SameLines(rest);
      KeptAppend(line, rest);
      ReplaceCrAppend(line, [LF] + rest);
      ReplaceCrAppend([LF], rest);
      assert ReplaceCr([LF]) == [LF] by { assert [LF][1..] == []; }
      KeptAppend(ReplaceCr(line), ReplaceCr(rest));
    } else {
      SameLine(t);
    }
  }

  lemma {:induction false} LoneIsKept(t: Text)
    requires LoneCr(t)
    ensures exists l :: l in Kept(t) && CR in l
    decreases |t|
  {
    if LF in t {
      var line, rest := FirstLine(t);
      LoneAppend(line, rest);
      KeptAppend(line, rest);
      if LoneCr(line) {
        LoneStays(line);
        var l :| l in Kept(line) && CR in l;
        assert l in Kept(t);
      } else {
        LoneIsKept(rest);
        var l :| l in Kept(rest) && CR in l;
        assert l in Kept(t);
      }
    } else {
      LoneStays(t);
    }
  }

  lemma {:induction false} NoneLeft(t: Text)
    ensures CR !in ReplaceCr(t)
  {
    if t != [] {
      NoneLeft(t[1..]);
    }
  }

  lemma {:induction false} StripShortens(line: Text)
    ensures RStripCr(line) <= line
  {
    if line != [] && line[|line| - 1] == CR {
      StripShortens(line[..|line| - 1]);
    }
  }

  lemma {:induction false} NoCrInLines(t: Text)
    requires CR !in t
    ensures forall l :: l in Kept(t) ==> CR !in l
    decreases |t|
  {
    if LF in t {
      var line, rest := FirstLine(t);
      KeptAppend(line, rest);
      assert forall c :: c in line || c in rest ==> c in t;
      NoCrInLines(line);
      NoCrInLines(rest);
    } else {
      KeptOne(t);
      StripShortens(t);
    }
  }

  /** Exactly when normalising CR LF alone gives the lines that normalising lone CR too would give:
      when no carriage return stands right before an ordinary character. */
  lemma {:induction false} CrIsNormalisedIff(t: Text)
    ensures LinesOf(t) == UniversalLines(t) <==> !LoneCr(t)
  {
    var x := ReplaceCrLf(t);
    LoneSurvives(t);
    ClosingAddsNothing(x);
    ClosingAddsNothing(ReplaceCr(x));
    hide Kept;
    if LoneCr(x) {
      LoneIsKept(x);
      NoneLeft(x);
      NoCrInLines(ReplaceCr(x));
      assert Kept(x) != Kept(ReplaceCr(x));
    } else {
      SameLines(x);
    }
  }

  lemma {:induction false} SingleCr(c: CodePoint)
    ensures ReplaceCr([c]) == [if c == CR then LF else c]
  {
    assert [c][1..] == [];
  }

  /** The text A CR B LF comes out as one line, and would be two. */
  lemma {:induction false} CrIsNotNormalised()
    ensures LinesOf([65, CR, 66, LF]) == [[65, CR, 66]]
    ensures UniversalLines([65, CR, 66, LF]) == [[65], [66]]
  {
    var t := [65, CR, 66, LF];
    LinesOfOneLine([65, CR, 66], false);
    assert [65, CR, 66] + [LF] == t;
    LinesOfOneLine([65], false);
    LinesOfOneLine([66], false);
    LinesAppend([65] + [LF], [66] + [LF]);
    assert ([65] + [LF]) + ([66] + [LF]) == [65, LF, 66, LF];
    ReplaceOneLine([65, CR, 66], false);
    ReplaceOneLine([65], false);
    ReplaceOneLine([66], false);
    ReplaceAppend([65] + [LF], [66] + [LF]);
    ReplaceCrAppend([65], [CR, 66, LF]);
    ReplaceCrAppend([CR], [66, LF]);
    ReplaceCrAppend([66], [LF]);
    assert [65] + [CR, 66, LF] == t && [CR] + [66, LF] == [CR, 66, LF] && [66] + [LF] == [66, LF];
    assert ReplaceCr(t) == [65] + ([LF] + ([66] + [LF])) by {
      SingleCr(65);
      SingleCr(CR);
      SingleCr(66);
      SingleCr(LF);
    }
  }
}
