/** Python `str` comparison and fixed-width decimal fields. */
module Strings {
  import opened Wrappers

  function Codes(s: string): seq<int> {
    seq(|s|, i requires 0 <= i < |s| => s[i] as int)
  }

  /** `a < b` on strings. */
  predicate StrLess(a: string, b: string) {
    LexLess(Codes(a), Codes(b))
  }

  lemma {:induction false} CodesInjective(a: string, b: string)
    requires Codes(a) == Codes(b)
    ensures a == b
  {
    assert |a| == |Codes(a)| && |b| == |Codes(b)|;
    forall i | 0 <= i < |a|
      ensures a[i] == b[i]
    {
      assert Codes(a)[i] == Codes(b)[i];
    }
  }

  lemma {:induction false} StrLessAppend(a: string, b: string, c: string, d: string)
    requires |a| == |b|
    ensures StrLess(a + c, b + d) <==> (StrLess(a, b) || (a == b && StrLess(c, d)))
  {
    LexLessAppend(Codes(a), Codes(b), Codes(c), Codes(d));
    assert Codes(a + c) == Codes(a) + Codes(c) && Codes(b + d) == Codes(b) + Codes(d);
    if Codes(a) == Codes(b) {
      CodesInjective(a, b);
    }
  }

  lemma {:induction false} NotLessSelf(a: seq<int>)
    ensures !LexLess(a, a)
  {
    if a != [] {
      NotLessSelf(a[1..]);
    }
  }

  lemma {:induction false} LexLessTransitive(a: seq<int>, b: seq<int>, c: seq<int>)
    ensures LexLess(a, b) && LexLess(b, c) ==> LexLess(a, c)
  {
    if a != [] && b != [] && c != [] {
      LexLessTransitive(a[1..], b[1..], c[1..]);
    }
  }

  /** String comparison is a strict order. */
  lemma {:induction false} StrLessIsStrict(a: string, b: string, c: string)
    ensures !StrLess(a, a)
    ensures StrLess(a, b) && StrLess(b, c) ==> StrLess(a, c)
  {
    NotLessSelf(Codes(a));
    LexLessTransitive(Codes(a), Codes(b), Codes(c));
  }

  /** Equal heads drop out of a comparison. */
  lemma {:induction false} StrLessSameHead(h: string, c: string, d: string)
    ensures StrLess(h + c, h + d) <==> StrLess(c, d)
  {
    StrLessAppend(h, h, c, d);
    NotLessSelf(Codes(h));
  }

  // ---- Decimal fields ----

  predicate Fits(n: int, width: nat) {
    if width == 0 then n == 0 else 0 <= n && Fits(n / 10, width - 1)
  }

  function DigitChar(d: int): char
    requires 0 <= d < 10
  {
    "0123456789"[d]
  }

  /** `n` in exactly `width` digits, zero-padded. */
  function Decimal(n: int, width: nat): (s: string)
    requires Fits(n, width)
    ensures |s| == width
  {
    if width == 0 then "" else Decimal(n / 10, width - 1) + [DigitChar(n % 10)]
  }

  predicate IsDigit(c: char) {
    '0' <= c <= '9'
  }

  predicate AllDigits(s: string) {
    forall i :: 0 <= i < |s| ==> IsDigit(s[i])
  }

  function Number(s: string): nat
    requires AllDigits(s)
  {
    if s == "" then 0 else Number(s[..|s| - 1]) * 10 + (s[|s| - 1] as int - '0' as int)
  }

  lemma {:induction false} DecimalStep(n: int, width: nat)
    requires Fits(n, width) && width > 0
    ensures Decimal(n, width) == Decimal(n / 10, width - 1) + [DigitChar(n % 10)]
  {}

  lemma {:induction false} DigitOfChar(d: int)
    requires 0 <= d < 10
    ensures IsDigit(DigitChar(d)) && DigitChar(d) as int - '0' as int == d
  {}

  lemma {:induction false} NumberSnoc(s: string, c: char)
    requires AllDigits(s) && IsDigit(c)
    ensures AllDigits(s + [c]) && Number(s + [c]) == Number(s) * 10 + (c as int - '0' as int)
  {
    assert (s + [c])[..|s|] == s;
  }

  lemma {:induction false} NumberOfDecimal(n: int, width: nat)
    requires Fits(n, width)
    ensures AllDigits(Decimal(n, width)) && Number(Decimal(n, width)) == n
  {
    if width != 0 {
      NumberOfDecimal(n / 10, width - 1);
      var init := Decimal(n / 10, width - 1);
      DigitOfChar(n % 10);
      NumberSnoc(init, DigitChar(n % 10));
      hide Decimal, Number, AllDigits, DigitChar;
      assert Decimal(n, width) == init + [DigitChar(n % 10)] by { DecimalStep(n, width); }
    }
  }

  lemma {:induction false} DecimalOfNumber(s: string)
    requires AllDigits(s)
    ensures Fits(Number(s), |s|) && Decimal(Number(s), |s|) == s
  {
    if s != "" {
      var init, last := s[..|s| - 1], s[|s| - 1];
      assert IsDigit(last);
      assert AllDigits(init) by {
        forall i | 0 <= i < |init| ensures IsDigit(init[i]) { assert init[i] == s[i]; }
      }
      DecimalOfNumber(init);
      assert Number(s) / 10 == Number(init);
      assert DigitChar(Number(s) % 10) == last;
      assert s == init + [last];
    }
  }

  /** Fixed-width decimals compare as numbers. */
  lemma {:induction false} DecimalOrder(n: int, m: int, width: nat)
    requires Fits(n, width) && Fits(m, width)
    ensures StrLess(Decimal(n, width), Decimal(m, width)) <==> n < m
    ensures Decimal(n, width) == Decimal(m, width) <==> n == m
  {
    if width == 0 {
    } else {
      var a, b := Decimal(n / 10, width - 1), Decimal(m / 10, width - 1);
      DecimalOrder(n / 10, m / 10, width - 1);
      var x, y := DigitChar(n % 10), DigitChar(m % 10);
      StrLessAppend(a, b, [x], [y]);
      OneChar(x, y);
      DigitOfChar(n % 10);
      DigitOfChar(m % 10);
      DecimalStep(n, width);
      DecimalStep(m, width);
      SnocEqual(a, b, x, y);
      hide Decimal, StrLess, DigitChar;
    }
  }

  lemma {:induction false} SnocEqual(a: string, b: string, x: char, y: char)
    requires |a| == |b|
    ensures a + [x] == b + [y] <==> a == b && x == y
  {
    assert (a + [x])[..|a|] == a && (b + [y])[..|b|] == b;
    assert (a + [x])[|a|] == x && (b + [y])[|b|] == y;
  }

  lemma {:induction false} OneChar(x: char, y: char)
    ensures StrLess([x], [y]) <==> x < y
  {
    var a, b := Codes([x]), Codes([y]);
    assert a == [x as int] && b == [y as int];
    assert a[1..] == [] && b[1..] == [];
    assert a[0] == x as int && b[0] == y as int;
    assert !LexLess(a[1..], b[1..]);
  }

  /** A decimal field decides a comparison unless it is equal on both sides. */
  lemma {:induction false} FieldLess(n: int, m: int, width: nat, a: string, b: string)
    requires Fits(n, width) && Fits(m, width)
    ensures StrLess(Decimal(n, width) + a, Decimal(m, width) + b) <==> (n < m || (n == m && StrLess(a, b)))
  {
    DecimalOrder(n, m, width);
    StrLessAppend(Decimal(n, width), Decimal(m, width), a, b);
  }
}
