/** What malformed bytes decode to, told through the encoders of the standards alone: one U+FFFD for each maximal
    ill-formed run, as section 3.9 of the Unicode Standard recommends and `errors="replace"` does. */
module Malformed {
  import opened Lines
  import opened Codec

  /** `b` starts with the encoding of `c`. */
  ghost predicate StartsWith(enc: Encoding, b: Bytes, c: CodePoint) {
    Encodable(enc, c) && EncodeOne(enc, c) <= b
  }

  /** Some character's encoding begins with `p`. */
  ghost predicate Begins(enc: Encoding, p: Bytes) {
    exists c :: Encodable(enc, c) && p <= EncodeOne(enc, c)
  }

  /** The first `n` bytes are whole code units, or all there are. */
  predicate Whole(enc: Encoding, b: Bytes, n: nat) {
    n == |b| || Aligned(enc, n)
  }

  /** The ill-formed run at the front of `b`: as much, in whole code units but at least one, as still begins a
      character. */
  ghost predicate IllFormedRun(enc: Encoding, b: Bytes, n: nat) {
    && 0 < n <= |b| && Whole(enc, b, n)
    && (n <= Width(enc) || Begins(enc, b[..n]))
    && forall m :: n < m <= |b| && Whole(enc, b, m) ==> !Begins(enc, b[..m])
  }

  // ---- UTF-8 ----

  /** The front of `b` passes every test of the decoder. */
  predicate Passes8(b: Bytes) {
    b != [] && var n := Utf8Length(b[0]);
    && 1 <= n <= |b| && (n >= 2 ==> Utf8Second(b[0], b[1]))
    && (n >= 3 ==> Continuation(b[2])) && (n >= 4 ==> Continuation(b[3]))
  }

  lemma {:induction false} Digits(q: int, r: int)
    requires 0 <= r < 64
    ensures (q * 64 + r) / 64 == q && (q * 64 + r) % 64 == r
  {}

  lemma {:induction false} TwoBytes(b: Bytes)
    requires Passes8(b) && Utf8Length(b[0]) == 2
    ensures var d := Utf8Step(b); d.used == 2 && Scalar(d.cp) && Utf8Encode(d.cp) == b[..2]
  {
    Digits(b[0] - 0xC0, b[1] - 0x80);
  }

  lemma {:induction false} ThreeBytes(b: Bytes)
    requires Passes8(b) && Utf8Length(b[0]) == 3
    ensures var d := Utf8Step(b); d.used == 3 && Scalar(d.cp) && Utf8Encode(d.cp) == b[..3]
  {
    var x: int, y: int, z: int := b[0] - 0xE0, b[1] - 0x80, b[2] - 0x80;
    var c := Utf8Step(b).cp;
    Digits(x, y);
    Digits(x * 64 + y, z);
    assert c == (x * 64 + y) * 64 + z;
    assert c / 64 == x * 64 + y && c / 4096 == c / 64 / 64;
  }

  lemma {:induction false} FourBytes(b: Bytes)
    requires Passes8(b) && Utf8Length(b[0]) == 4
    ensures var d := Utf8Step(b); d.used == 4 && Scalar(d.cp) && Utf8Encode(d.cp) == b[..4]
  {
    var x: int, y: int, z: int, u: int := b[0] - 0xF0, b[1] - 0x80, b[2] - 0x80, b[3] - 0x80;
    var c := Utf8Step(b).cp;
    Digits(x, y);
    Digits(x * 64 + y, z);
    Digits((x * 64 + y) * 64 + z, u);
    assert c == ((x * 64 + y) * 64 + z) * 64 + u;
    assert c / 64 == (x * 64 + y) * 64 + z && c / 4096 == c / 64 / 64 && c / 262144 == c / 64 / 64 / 64;
  }

  /** What passes is the encoding of a character. */
  lemma {:induction false} PassingIsEncoded(b: Bytes)
    requires Passes8(b)
    ensures var d := Utf8Step(b);
      d.used == Utf8Length(b[0]) && Scalar(d.cp) && Utf8Encode(d.cp) == b[..d.used] && StartsWith(Utf8, b, d.cp)
  {
    var n := Utf8Length(b[0]);
    if n == 2 {
      TwoBytes(b);
    } else if n == 3 {
      ThreeBytes(b);
    } else if n == 4 {
      FourBytes(b);
    }
  }

  /** Every encoding passes. */
  lemma {:induction false} EncodedPasses(c: CodePoint)
    requires Scalar(c)
    ensures Passes8(Utf8Encode(c)) && Utf8Length(Utf8Encode(c)[0]) == |Utf8Encode(c)|
  {
    SixBitGroups(c);
  }

  /** A longer front that fails the tests begins no character. */
  lemma {:induction false} NothingBegins8(b: Bytes, m: nat)
    requires b != [] && !Passes8(b) && Utf8Step(b).used < m <= |b|
    ensures !Begins(Utf8, b[..m])
  {
    forall c | Scalar(c)
      ensures !(b[..m] <= Utf8Encode(c))
    {
      EncodedPasses(c);
      var e := Utf8Encode(c);
      hide Utf8Encode;
      if b[..m] <= e {
        assert forall i :: 0 <= i < m ==> e[i] == b[..m][i] == b[i];
        assert false;
      }
    }
  }

  /** A failing front of more than one byte still begins a character. */
  lemma {:induction false} FrontBegins8(b: Bytes)
    requires b != [] && !Passes8(b)
    ensures var d := Utf8Step(b); d.cp == REPLACEMENT && (d.used == 1 || Begins(Utf8, b[..d.used]))
  {
    var n, used := Utf8Length(b[0]), Utf8Step(b).used;
    if used > 1 {
      var filler: Bytes := if n - used == 1 then [0x80] else [0x80, 0x80];
      var x := b[..used] + filler;
      assert forall i :: 0 <= i < used ==> x[i] == b[i];
      assert Passes8(x);
      PassingIsEncoded(x);
      assert b[..used] <= x[..n] == Utf8Encode(Utf8Step(x).cp) == EncodeOne(Utf8, Utf8Step(x).cp);
    }
  }

  lemma {:induction false} IllFormed8(b: Bytes)
    requires b != [] && forall c :: !StartsWith(Utf8, b, c)
    ensures Utf8Step(b).cp == REPLACEMENT && IllFormedRun(Utf8, b, Utf8Step(b).used)
  {
    hide StartsWith, Begins, Utf8Step;
    if Passes8(b) {
      PassingIsEncoded(b);
      assert false;
    }
    FrontBegins8(b);
    forall m | Utf8Step(b).used < m <= |b|
      ensures !Begins(Utf8, b[..m])
    {
      NothingBegins8(b, m);
    }
  }

  // ---- UTF-16LE ----

  lemma {:induction false} UnitOf(e: Bytes, i: nat, u: int)
    requires i + 2 <= |e| && 0 <= u < 0x1_0000 && e[i] == u % 256 && e[i + 1] == u / 256
    ensures Unit16(e, i) == u
  {}

  lemma {:induction false} UnitBytes(b: Bytes, i: nat)
    requires i + 2 <= |b|
    ensures 0 <= Unit16(b, i) < 0x1_0000 && Little16(Unit16(b, i)) == b[i..i + 2]
  {}

  /** The units of an encoding: one that is no surrogate, or a high and a low one. */
  lemma {:induction false} EncodedUnits(c: CodePoint)
    requires Scalar(c)
    ensures var e := Utf16LeEncode(c);
      && (|e| == 2 || |e| == 4)
      && (|e| == 2 ==> !(0xD800 <= Unit16(e, 0) <= 0xDFFF))
      && (|e| == 4 ==> 0xD800 <= Unit16(e, 0) < 0xDC00 <= Unit16(e, 2) <= 0xDFFF)
  {
    var e := Utf16LeEncode(c);
    if c < 0x1_0000 {
      UnitOf(e, 0, c);
    } else {
      UnitOf(e, 0, 0xD800 + (c - 0x1_0000) / 0x400);
      UnitOf(e, 2, 0xDC00 + (c - 0x1_0000) % 0x400);
    }
  }

  /** A high and a low surrogate encode a character. */
  lemma {:induction false} PairIsEncoded(hi: int, lo: int) returns (c: CodePoint)
    requires 0xD800 <= hi < 0xDC00 <= lo <= 0xDFFF
    ensures Scalar(c) && Utf16LeEncode(c) == Little16(hi) + Little16(lo)
  {
    c := 0x1_0000 + (hi - 0xD800) * 0x400 + (lo - 0xDC00);
    assert (c - 0x1_0000) / 0x400 == hi - 0xD800 && (c - 0x1_0000) % 0x400 == lo - 0xDC00;
  }

  lemma {:induction false} SameUnits(b: Bytes, e: Bytes, m: nat)
    requires 2 < m <= |b| && (|e| == 2 || |e| == 4)
    ensures b[..m] <= e ==> |e| == 4 && Unit16(e, 0) == Unit16(b, 0) && (m == 4 ==> Unit16(e, 2) == Unit16(b, 2))
  {
    if b[..m] <= e {
      assert forall i :: 0 <= i < m ==> e[i] == b[..m][i] == b[i];
    }
  }

  lemma {:induction false} NothingBegins16(b: Bytes, m: nat)
    requires 2 < m <= |b| && Whole(Utf16Le, b, m)
    requires 0xDC00 <= Unit16(b, 0) <= 0xDFFF
             || (0xD800 <= Unit16(b, 0) < 0xDC00 && |b| >= 4 && !(0xDC00 <= Unit16(b, 2) <= 0xDFFF))
    ensures !Begins(Utf16Le, b[..m])
  {
    forall c | Scalar(c)
      ensures !(b[..m] <= Utf16LeEncode(c))
    {
      EncodedUnits(c);
      hide Utf16LeEncode;
      SameUnits(b, Utf16LeEncode(c), m);
    }
  }

  /** A high surrogate and the first byte of another unit still begin a character. */
  lemma {:induction false} CutPairBegins(b: Bytes)
    requires |b| == 3 && 0xD800 <= Unit16(b, 0) < 0xDC00
    ensures Begins(Utf16Le, b)
  {
    var hi := Unit16(b, 0);
    UnitBytes(b, 0);
    var low: int := b[2];
    var c := PairIsEncoded(hi, 0xDC00 + low);
    var e := EncodeOne(Utf16Le, c);
    assert e == [b[0], b[1]] + [b[2], 0xDC];
    assert b <= e;
  }

  lemma {:induction false} IllFormed16(b: Bytes)
    requires b != [] && forall c :: !StartsWith(Utf16Le, b, c)
    ensures Utf16Step(b).cp == REPLACEMENT && IllFormedRun(Utf16Le, b, Utf16Step(b).used)
  {
    if |b| >= 2 {
      var hi := Unit16(b, 0);
      UnitBytes(b, 0);
      assert b[0..2] == b[..2];
      if !(0xD800 <= hi <= 0xDFFF) {
        assert StartsWith(Utf16Le, b, hi);
        assert false;
      } else if hi < 0xDC00 && |b| < 4 {
        if |b| == 3 {
          CutPairBegins(b);
          assert b[..3] == b;
        }
      } else {
        if hi < 0xDC00 && 0xDC00 <= Unit16(b, 2) <= 0xDFFF {
          UnitBytes(b, 2);
          var c := PairIsEncoded(hi, Unit16(b, 2));
          assert b[..2] + b[2..4] == b[..4];
          assert StartsWith(Utf16Le, b, c);
          assert false;
        }
        forall m | 2 < m <= |b| && Whole(Utf16Le, b, m)
          ensures !Begins(Utf16Le, b[..m])
        {
          NothingBegins16(b, m);
        }
      }
    }
  }

  // ---- All four encodings ----

  /** Bytes that start with a character decode to it and to what follows. */
  lemma {:induction false} CharacterIsDecoded(enc: Encoding, b: Bytes, c: CodePoint)
    requires StartsWith(enc, b, c)
    ensures EncodeOne(enc, c) != [] && Decode(enc, b) == [c] + Decode(enc, b[|EncodeOne(enc, c)|..])
  {
    var e := EncodeOne(enc, c);
    var rest := b[|e|..];
    assert b == e + rest;
    match enc {
      case Utf8 => Utf8StepInverts(c, rest);
      case Utf16Le => Utf16StepInverts(c, rest);
      case _ =>
    }
  }

  /** Bytes that start with no character decode to one U+FFFD for the ill-formed run at their front, and to what
      follows: together with `CharacterIsDecoded` this says what every byte string decodes to. */
  lemma {:induction false} IllFormedIsReplaced(enc: Encoding, b: Bytes) returns (n: nat)
    requires b != [] && forall c :: !StartsWith(enc, b, c)
    ensures IllFormedRun(enc, b, n) && Decode(enc, b) == [0xFFFD] + Decode(enc, b[n..])
  {
    n := Step(enc, b).used;
    match enc {
      case Utf8 => IllFormed8(b);
      case Utf16Le => IllFormed16(b);
      case Ascii => OneByteRun(b);
      case Latin1 =>
        EveryByteIsLatin1(b);
        assert false;
    }
  }

  lemma {:induction false} EveryByteIsLatin1(b: Bytes)
    requires b != []
    ensures StartsWith(Latin1, b, b[0])
  {}

  lemma {:induction false} OneByteRun(b: Bytes)
    requires b != [] && forall c :: !StartsWith(Ascii, b, c)
    ensures b[0] >= 0x80 && IllFormedRun(Ascii, b, 1)
  {
    assert !StartsWith(Ascii, b, b[0]);
  }

  /** The run is determined by the bytes. */
  lemma {:induction false} RunIsUnique(enc: Encoding, b: Bytes, n: nat, m: nat)
    requires IllFormedRun(enc, b, n) && IllFormedRun(enc, b, m)
    ensures n == m
  {}
}
