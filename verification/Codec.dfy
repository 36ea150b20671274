/** Decoding of the four known log encodings with `errors="replace"`.
    Malformed input becomes U+FFFD, one for each maximal ill-formed run, as CPython does. */
module Codec {
  import opened Lines

  type Byte = b: int | 0 <= b < 256
  type Bytes = seq<Byte>

  datatype Encoding = Utf8 | Ascii | Latin1 | Utf16Le

  const REPLACEMENT: CodePoint := 0xFFFD

  /** Bytes in a code unit: newlines and resume offsets are aligned to it. */
  function Width(enc: Encoding): nat {
    if enc.Utf16Le? then 2 else 1
  }

  /** A code-unit boundary. */
  predicate Aligned(enc: Encoding, p: int) {
    enc.Utf16Le? ==> p % 2 == 0
  }

  /** `_newline_pattern` on the known encodings. */
  function Newline(enc: Encoding): (nl: Bytes)
    ensures |nl| == Width(enc)
  {
    if enc.Utf16Le? then [0x0A, 0x00] else [0x0A]
  }

  /** A newline at position `p` of `b`, on a code-unit boundary. */
  predicate NewlineAt(enc: Encoding, b: Bytes, p: int) {
    && 0 <= p && p + Width(enc) <= |b| && Aligned(enc, p)
    && b[p] == 0x0A && (enc.Utf16Le? ==> b[p + 1] == 0x00)
  }

  /** One decoded character and the number of bytes it used. */
  datatype Decoded = Decoded(cp: CodePoint, used: nat)

  predicate Continuation(b: Byte) {
    0x80 <= b <= 0xBF
  }

  /** Sequence length announced by a lead byte, 0 for a byte that leads nothing. */
  function Utf8Length(lead: Byte): nat {
    if lead < 0x80 then 1
    else if 0xC2 <= lead <= 0xDF then 2
    else if 0xE0 <= lead <= 0xEF then 3
    else if 0xF0 <= lead <= 0xF4 then 4
    else 0
  }

  /** The second byte's range excludes overlong forms, surrogates and values past U+10FFFF. */
  predicate Utf8Second(lead: Byte, b: Byte) {
    (if lead == 0xE0 then 0xA0 else if lead == 0xF0 then 0x90 else 0x80) <= b
    && b <= (if lead == 0xED then 0x9F else if lead == 0xF4 then 0x8F else 0xBF)
  }

  /** The payload bits of a byte below its fixed marker bits. */
  function Bits(b: Byte, marker: int): int {
    b - marker
  }

  function Utf8Step(b: Bytes): (d: Decoded)
    requires b != []
    ensures 1 <= d.used <= |b|
  {
    var n := Utf8Length(b[0]);
    if n == 1 then Decoded(b[0], 1)
    else if n == 0 || |b| < 2 || !Utf8Second(b[0], b[1]) then Decoded(REPLACEMENT, 1)
    else if n == 2 then Decoded(Bits(b[0], 0xC0) * 64 + Bits(b[1], 0x80), 2)
    else if |b| < 3 || !Continuation(b[2]) then Decoded(REPLACEMENT, 2)
    else if n == 3 then Decoded(Bits(b[0], 0xE0) * 4096 + Bits(b[1], 0x80) * 64 + Bits(b[2], 0x80), 3)
    else if |b| < 4 || !Continuation(b[3]) then Decoded(REPLACEMENT, 3)
    else
      Decoded(Bits(b[0], 0xF0) * 262144 + Bits(b[1], 0x80) * 4096 + Bits(b[2], 0x80) * 64 + Bits(b[3], 0x80), 4)
  }

  function Unit16(b: Bytes, i: nat): int
    requires i + 2 <= |b|
  {
    Bits(b[i], 0) + 256 * Bits(b[i + 1], 0)
  }

  function Utf16Step(b: Bytes): (d: Decoded)
    requires b != []
    ensures 1 <= d.used <= |b|
  {
    if |b| < 2 then Decoded(REPLACEMENT, 1)
    else
      var hi := Unit16(b, 0);
      if !(0xD800 <= hi <= 0xDFFF) then Decoded(hi, 2)
      else if 0xDC00 <= hi then Decoded(REPLACEMENT, 2)
      else if |b| < 4 then Decoded(REPLACEMENT, |b|)
      else
        var lo := Unit16(b, 2);
        if 0xDC00 <= lo <= 0xDFFF then Decoded(0x10000 + (hi - 0xD800) * 0x400 + (lo - 0xDC00), 4)
        else Decoded(REPLACEMENT, 2)
  }

  function Step(enc: Encoding, b: Bytes): (d: Decoded)
    requires b != []
    ensures 1 <= d.used <= |b|
  {
    match enc
    case Utf8 => Utf8Step(b)
    case Ascii => Decoded(if b[0] < 0x80 then b[0] else REPLACEMENT, 1)
    case Latin1 => Decoded(b[0], 1)
    case Utf16Le => Utf16Step(b)
  }

  /** `consumed.decode(encoding, errors="replace")` */
  function Decode(enc: Encoding, b: Bytes): Text {
    if b == [] then [] else
      var d := Step(enc, b);
      [d.cp] + Decode(enc, b[d.used..])
  }

  // ---- Decoding commutes with cutting after an aligned newline ----

  /** Whole code units, the last of which is a newline. */
  ghost predicate EndsNewline(enc: Encoding, b: Bytes) {
    NewlineAt(enc, b, |b| - Width(enc))
  }

  /** No character reaches across an aligned newline, so what follows it is never looked at. */
  lemma {:induction false} StepStaysBeforeNewline(enc: Encoding, a: Bytes, b: Bytes)
    requires EndsNewline(enc, a)
    ensures Step(enc, a + b) == Step(enc, a)
    ensures var rest := a[Step(enc, a).used..]; rest == [] || EndsNewline(enc, rest)
  {
    assert forall i :: 0 <= i < |a| ==> (a + b)[i] == a[i];
    var d := Step(enc, a);
    assert Aligned(enc, d.used);
  }

  /** The first character of `a`, split off from both decodings. */
  lemma {:induction false} Peel(enc: Encoding, a: Bytes, b: Bytes) returns (cp: CodePoint, rest: Bytes)
    requires EndsNewline(enc, a)
    ensures |rest| < |a| && (rest == [] || EndsNewline(enc, rest))
    ensures Decode(enc, a) == [cp] + Decode(enc, rest)
    ensures Decode(enc, a + b) == [cp] + Decode(enc, rest + b)
  {
    StepStaysBeforeNewline(enc, a, b);
    var d := Step(enc, a);
    cp, rest := d.cp, a[d.used..];
    assert (a + b)[d.used..] == rest + b;
  }

  lemma {:induction false} DecodeAppend(enc: Encoding, a: Bytes, b: Bytes)
    requires EndsNewline(enc, a)
    ensures Decode(enc, a + b) == Decode(enc, a) + Decode(enc, b)
    decreases |a|
  {
    hide Step;
    var cp, rest := Peel(enc, a, b);
    if rest == [] {
      assert rest + b == b;
    } else {
      DecodeAppend(enc, rest, b);
    }
  }

  lemma {:induction false} DecodeEndsLine(enc: Encoding, a: Bytes)
    requires EndsNewline(enc, a)
    ensures EndsLine(Decode(enc, a))
    decreases |a|
  {
    StepStaysBeforeNewline(enc, a, []);
    var d := Step(enc, a);
    if a[d.used..] == [] {
      assert |a| == Width(enc) by { LastStepIsNewline(enc, a); }
      assert a == Newline(enc);
    } else {
      DecodeEndsLine(enc, a[d.used..]);
    }
  }

  lemma {:induction false} LastStepIsNewline(enc: Encoding, a: Bytes)
    requires EndsNewline(enc, a) && Step(enc, a).used == |a|
    ensures |a| == Width(enc)
  {}

  /** The lines of a stretch of bytes. */
  function LinesIn(enc: Encoding, b: Bytes): seq<Text> {
    LinesOf(Decode(enc, b))
  }

  lemma {:induction false} LinesInNothing(enc: Encoding)
    ensures LinesIn(enc, []) == []
  {
    KeepOne([]);
  }

  /** Decoding and splitting together are a homomorphism over cuts at aligned newlines. */
  lemma {:induction false} LinesInAppend(enc: Encoding, a: Bytes, b: Bytes)
    requires a == [] || EndsNewline(enc, a)
    ensures LinesIn(enc, a + b) == LinesIn(enc, a) + LinesIn(enc, b)
  {
    if a == [] {
      assert a + b == b;
      LinesInNothing(enc);
    } else {
      DecodeAppend(enc, a, b);
      DecodeEndsLine(enc, a);
      LinesAppend(Decode(enc, a), Decode(enc, b));
    }
  }

  // ---- The decoder is the inverse of the standards' encoders ----

  predicate Scalar(c: CodePoint) {
    0 <= c < 0xD800 || 0xE000 <= c < 0x11_0000
  }

  /** Section 3 of RFC 3629. */
  function Utf8Encode(c: CodePoint): Bytes
    requires Scalar(c)
  {
    if c < 0x80 then [c]
    else if c < 0x800 then [0xC0 + c / 64, 0x80 + c % 64]
    else if c < 0x1_0000 then [0xE0 + c / 4096, 0x80 + c / 64 % 64, 0x80 + c % 64]
    else [0xF0 + c / 262144, 0x80 + c / 4096 % 64, 0x80 + c / 64 % 64, 0x80 + c % 64]
  }

  function Little16(u: int): Bytes
    requires 0 <= u < 0x1_0000
  {
    [u % 256, u / 256]
  }

  /** Section 2.1 of RFC 2781, serialised in little-endian order. */
  function Utf16LeEncode(c: CodePoint): Bytes
    requires Scalar(c)
  {
    if c < 0x1_0000 then Little16(c)
    else Little16(0xD800 + (c - 0x1_0000) / 0x400) + Little16(0xDC00 + (c - 0x1_0000) % 0x400)
  }

  predicate Encodable(enc: Encoding, c: CodePoint) {
    match enc
    case Ascii => 0 <= c < 0x80
    case Latin1 => 0 <= c < 0x100
    case _ => Scalar(c)
  }

  function EncodeOne(enc: Encoding, c: CodePoint): Bytes
    requires Encodable(enc, c)
  {
    match enc
    case Utf8 => Utf8Encode(c)
    case Utf16Le => Utf16LeEncode(c)
    case _ => [c]
  }

  function Encode(enc: Encoding, t: Text): Bytes
    requires forall c :: c in t ==> Encodable(enc, c)
  {
    if t == [] then [] else EncodeOne(enc, t[0]) + Encode(enc, t[1..])
  }

  /** Base-64 digits of a code point. */
  lemma {:induction false} SixBitGroups(c: int)
    requires 0 <= c
    ensures c == c / 4096 * 4096 + c / 64 % 64 * 64 + c % 64
    ensures c == c / 262144 * 262144 + c / 4096 % 64 * 4096 + c / 64 % 64 * 64 + c % 64
  {
    var q1, q2 := c / 64, c / 64 / 64;
    assert c / 4096 == q2;
    assert c / 262144 == q2 / 64;
  }

  lemma {:induction false} Utf8StepInverts(c: CodePoint, rest: Bytes)
    requires Scalar(c)
    ensures Utf8Step(Utf8Encode(c) + rest) == Decoded(c, |Utf8Encode(c)|)
  {
    var e := Utf8Encode(c);
    var b := e + rest;
    SixBitGroups(c);
    assert b[0] == e[0];
    if 0x80 <= c {
      assert b[1] == e[1];
      if 0x800 <= c {
        assert b[2] == e[2];
        if 0x1_0000 <= c {
          assert b[3] == e[3];
          Utf8FourBytes(c, b);
        } else {
          Utf8ThreeBytes(c, b);
        }
      }
    }
  }

  lemma {:induction false} Utf8ThreeBytes(c: CodePoint, b: Bytes)
    requires Scalar(c) && 0x800 <= c < 0x1_0000 && |b| >= 3
    requires b[0] == 0xE0 + c / 4096 && b[1] == 0x80 + c / 64 % 64 && b[2] == 0x80 + c % 64
    ensures Utf8Step(b) == Decoded(c, 3)
  {
    SixBitGroups(c);
    assert Utf8Length(b[0]) == 3;
    assert Utf8Second(b[0], b[1]);
    assert Continuation(b[2]);
  }

  lemma {:induction false} Utf8FourBytes(c: CodePoint, b: Bytes)
    requires Scalar(c) && 0x1_0000 <= c && |b| >= 4
    requires b[0] == 0xF0 + c / 262144 && b[1] == 0x80 + c / 4096 % 64
    requires b[2] == 0x80 + c / 64 % 64 && b[3] == 0x80 + c % 64
    ensures Utf8Step(b) == Decoded(c, 4)
  {
    SixBitGroups(c);
    assert Utf8Length(b[0]) == 4;
    assert Utf8Second(b[0], b[1]);
    assert Continuation(b[2]) && Continuation(b[3]);
  }

  lemma {:induction false} Utf16StepInverts(c: CodePoint, rest: Bytes)
    requires Scalar(c)
    ensures Utf16Step(Utf16LeEncode(c) + rest) == Decoded(c, |Utf16LeEncode(c)|)
  {
    var e := Utf16LeEncode(c);
    var b := e + rest;
    assert forall i :: 0 <= i < |e| ==> b[i] == e[i];
  }

  lemma {:induction false} DecodeInvertsEncode(enc: Encoding, t: Text)
    requires forall c :: c in t ==> Encodable(enc, c)
    ensures Decode(enc, Encode(enc, t)) == t
  {
    if t != [] {
      var e, rest := EncodeOne(enc, t[0]), Encode(enc, t[1..]);
      match enc {
        case Utf8 => Utf8StepInverts(t[0], rest);
        case Utf16Le => Utf16StepInverts(t[0], rest);
        case _ =>
      }
      assert (e + rest)[|e|..] == rest;
      DecodeInvertsEncode(enc, t[1..]);
    }
  }

  /** What a logger writes as terminated lines is exactly what is shipped. */
  lemma {:induction false} WrittenLinesAreRead(enc: Encoding, lines: seq<Text>, crlf: bool)
    requires forall l :: l in lines ==> PlainLine(l)
    requires forall c :: c in Terminated(lines, crlf) ==> Encodable(enc, c)
    ensures LinesIn(enc, Encode(enc, Terminated(lines, crlf))) == lines
  {
    DecodeInvertsEncode(enc, Terminated(lines, crlf));
    LinesRoundTrip(lines, crlf);
  }
}
