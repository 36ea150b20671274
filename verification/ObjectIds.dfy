/** BSON ObjectIds: four bytes of generation second, then eight random and counter bytes. */
module ObjectIds {
  import opened Wrappers
  import opened Strings

  const SECONDS: int := 0x1_0000_0000
  const SUFFIXES: int := 0x1_0000_0000_0000_0000

  datatype RawId = RawId(second: int, suffix: int)

  type ObjectId = i: RawId | 0 <= i.second < SECONDS && 0 <= i.suffix < SUFFIXES
    witness RawId(0, 0)

  /** Native order: second first, then the other bytes as one number. */
  predicate IdLess(a: ObjectId, b: ObjectId) {
    a.second < b.second || (a.second == b.second && a.suffix < b.suffix)
  }

  // ---- Bytes ----

  predicate AllBytes(b: seq<int>) {
    forall i :: 0 <= i < |b| ==> 0 <= b[i] < 256
  }

  predicate FitsBytes(n: int, width: nat) {
    if width == 0 then n == 0 else 0 <= n && FitsBytes(n / 256, width - 1)
  }

  /** `struct.pack(">…")`: most significant byte first. */
  function BigEndian(n: int, width: nat): (b: seq<int>)
    requires FitsBytes(n, width)
    ensures |b| == width && AllBytes(b)
  {
    if width == 0 then [] else BigEndian(n / 256, width - 1) + [n % 256]
  }

  function Value(b: seq<int>): int {
    if b == [] then 0 else Value(b[..|b| - 1]) * 256 + b[|b| - 1]
  }

  lemma {:induction false} ValueOfBigEndian(n: int, width: nat)
    requires FitsBytes(n, width)
    ensures Value(BigEndian(n, width)) == n
  {
    if width != 0 {
      ValueOfBigEndian(n / 256, width - 1);
      var b := BigEndian(n, width);
      assert b[..|b| - 1] == BigEndian(n / 256, width - 1);
    }
  }

  lemma {:induction false} BigEndianOrder(n: int, m: int, width: nat)
    requires FitsBytes(n, width) && FitsBytes(m, width)
    ensures LexLess(BigEndian(n, width), BigEndian(m, width)) <==> n < m
    ensures BigEndian(n, width) == BigEndian(m, width) <==> n == m
  {
    if width != 0 {
      var a, b := BigEndian(n / 256, width - 1), BigEndian(m / 256, width - 1);
      var x, y := n % 256, m % 256;
      BigEndianOrder(n / 256, m / 256, width - 1);
      LexLessAppend(a, b, [x], [y]);
      assert [x][1..] == [] && [y][1..] == [];
      assert !LexLess([x][1..], [y][1..]);
      assert (a + [x])[..width - 1] == a && (b + [y])[..width - 1] == b;
      assert (a + [x])[width - 1] == x && (b + [y])[width - 1] == y;
    }
  }

  lemma {:induction false} IdFits(id: ObjectId)
    ensures FitsBytes(id.second, 4) && FitsBytes(id.suffix, 8)
  {
    FitsFour(id.second);
    FitsEight(id.suffix);
  }

  lemma {:induction false} FitsFour(n: int)
    requires 0 <= n < SECONDS
    ensures FitsBytes(n, 4)
  {
    var a := n / 256;
    var b := a / 256;
    var c := b / 256;
    assert FitsBytes(c / 256, 0) && FitsBytes(c, 1) && FitsBytes(b, 2) && FitsBytes(a, 3);
  }

  lemma {:induction false} FitsEight(n: int)
    requires 0 <= n < SUFFIXES
    ensures FitsBytes(n, 8)
  {
    var a := n / 256;
    var b := a / 256;
    var c := b / 256;
    var d := c / 256;
    FitsFour(d);
    assert FitsBytes(c, 5) && FitsBytes(b, 6) && FitsBytes(a, 7);
  }

  /** The twelve bytes of an id. */
  function IdBytes(id: ObjectId): (b: seq<int>)
    ensures |b| == 12 && AllBytes(b)
  {
    IdFits(id);
    BigEndian(id.second, 4) + BigEndian(id.suffix, 8)
  }

  // ---- Hex ----

  function HexChar(d: int): char
    requires 0 <= d < 16
  {
    "0123456789abcdef"[d]
  }

  /** `bytes.hex()` */
  function HexOf(b: seq<int>): (s: string)
    requires AllBytes(b)
    ensures |s| == 2 * |b|
  {
    if b == [] then ""
    else
      [HexChar(b[0] / 16), HexChar(b[0] % 16)] + HexOf(b[1..])
  }

  function HexDigit(c: char): Option<int> {
    if '0' <= c <= '9' then Some(c as int - '0' as int)
    else if 'a' <= c <= 'f' then Some(c as int - 'a' as int + 10)
    else if 'A' <= c <= 'F' then Some(c as int - 'A' as int + 10)
    else None
  }

  /** `bytes.fromhex` */
  function BytesOfHex(s: string): (r: Option<seq<int>>)
    ensures r.Some? ==> |s| == 2 * |r.value| && AllBytes(r.value)
  {
    if s == "" then Some([])
    else if |s| == 1 then None
    else
      var hi, lo, rest := HexDigit(s[0]), HexDigit(s[1]), BytesOfHex(s[2..]);
      if hi.None? || lo.None? || rest.None? then None
      else Some([hi.value * 16 + lo.value] + rest.value)
  }

  lemma {:induction false} BytesOfHexStep(hi: char, lo: char, rest: string)
    requires HexDigit(hi).Some? && HexDigit(lo).Some? && BytesOfHex(rest).Some?
    ensures BytesOfHex([hi, lo] + rest)
         == Some([HexDigit(hi).value * 16 + HexDigit(lo).value] + BytesOfHex(rest).value)
  {
    hide HexDigit;
    assert ([hi, lo] + rest)[2..] == rest;
  }

  lemma {:induction false} BytesOfHexOf(b: seq<int>)
    requires AllBytes(b)
    ensures BytesOfHex(HexOf(b)) == Some(b)
  {
    hide HexDigit, HexChar;
    if b != [] {
      BytesOfHexOf(b[1..]);
      HexDigitInverts(b[0] / 16);
      HexDigitInverts(b[0] % 16);
      BytesOfHexStep(HexChar(b[0] / 16), HexChar(b[0] % 16), HexOf(b[1..]));
      hide BytesOfHex;
      assert [b[0]] + b[1..] == b;
    }
  }

  lemma {:induction false} HexDigitInverts(d: int)
    requires 0 <= d < 16
    ensures HexDigit(HexChar(d)) == Some(d)
  {}

  lemma {:induction false} HexCharOrder(d: int, e: int)
    requires 0 <= d < 16 && 0 <= e < 16
    ensures HexChar(d) < HexChar(e) <==> d < e
    ensures HexChar(d) == HexChar(e) <==> d == e
  {}

  /** Hex strings compare as the bytes they spell. */
  lemma {:induction false} HexOrder(a: seq<int>, b: seq<int>)
    requires |a| == |b| && AllBytes(a) && AllBytes(b)
    ensures StrLess(HexOf(a), HexOf(b)) <==> LexLess(a, b)
  {
    if a == [] {
    } else {
      HexOrder(a[1..], b[1..]);
      var h, k := [HexChar(a[0] / 16), HexChar(a[0] % 16)], [HexChar(b[0] / 16), HexChar(b[0] % 16)];
      StrLessAppend(h, k, HexOf(a[1..]), HexOf(b[1..]));
      HexByteOrder(a[0], b[0]);
    }
  }

  lemma {:induction false} HexByteOrder(x: int, y: int)
    requires 0 <= x < 256 && 0 <= y < 256
    ensures var h, k := [HexChar(x / 16), HexChar(x % 16)], [HexChar(y / 16), HexChar(y % 16)];
      (StrLess(h, k) <==> x < y) && (h == k <==> x == y)
  {
    HexCharOrder(x / 16, y / 16);
    HexCharOrder(x % 16, y % 16);
    var h, k := [HexChar(x / 16)], [HexChar(y / 16)];
    var i, j := [HexChar(x % 16)], [HexChar(y % 16)];
    OneChar(h[0], k[0]);
    OneChar(i[0], j[0]);
    StrLessAppend(h, k, i, j);
    assert h + i == [HexChar(x / 16), HexChar(x % 16)] && k + j == [HexChar(y / 16), HexChar(y % 16)];
    assert (h + i)[0] == h[0] && (h + i)[1] == i[0] && (k + j)[0] == k[0] && (k + j)[1] == j[0];
  }

  /** `str(oid)` */
  function Hex(id: ObjectId): (s: string)
    ensures |s| == 24
  {
    HexOf(IdBytes(id))
  }

  /** `ObjectId(s)`; `None` is `InvalidId`. */
  function FromHex(s: string): Option<ObjectId> {
    var b := BytesOfHex(s);
    if |s| != 24 || b.None? then None
    else
      var second, suffix := Value(b.value[..4]), Value(b.value[4..]);
      if 0 <= second < SECONDS && 0 <= suffix < SUFFIXES then Some(RawId(second, suffix)) else None
  }

  /** The range test in `FromHex` never rejects anything. */
  lemma {:induction false} ValueRange(b: seq<int>)
    requires |b| <= 8 && AllBytes(b)
    ensures 0 <= Value(b) && FitsBytes(Value(b), |b|)
  {
    if b != [] {
      var init := b[..|b| - 1];
      ValueRange(init);
      assert Value(b) / 256 == Value(init);
    }
  }

  lemma {:induction false} FitsBytesBound(n: int)
    ensures FitsBytes(n, 4) ==> n < SECONDS
    ensures FitsBytes(n, 8) ==> n < SUFFIXES
  {
    var a := n / 256;
    var b := a / 256;
    var c := b / 256;
    var d := c / 256;
    var e := d / 256;
    var f := e / 256;
    var g := f / 256;
    if FitsBytes(n, 4) {
      assert FitsBytes(a, 3) && FitsBytes(b, 2) && FitsBytes(c, 1) && FitsBytes(d, 0);
    }
    if FitsBytes(n, 8) {
      assert FitsBytes(a, 7) && FitsBytes(b, 6) && FitsBytes(c, 5) && FitsBytes(d, 4);
      assert FitsBytes(e, 3) && FitsBytes(f, 2) && FitsBytes(g, 1) && FitsBytes(g / 256, 0);
    }
  }

  /** Hex digits in either case. */
  predicate IsHex(s: string) {
    forall i :: 0 <= i < |s| ==> '0' <= s[i] <= '9' || 'a' <= s[i] <= 'f' || 'A' <= s[i] <= 'F'
  }

  lemma {:induction false} BytesIffHex(s: string)
    ensures BytesOfHex(s).Some? <==> |s| % 2 == 0 && IsHex(s)
    decreases |s|
  {
    if |s| > 1 {
      BytesIffHex(s[2..]);
      assert forall i :: 2 <= i < |s| ==> s[i] == s[2..][i - 2];
    }
  }

  /** A string is read as an id exactly if it is 24 hex digits. */
  lemma {:induction false} EveryHexStringIsAnId(s: string)
    ensures FromHex(s).Some? <==> |s| == 24 && IsHex(s)
  {
    BytesIffHex(s);
    var b := BytesOfHex(s);
    if |s| == 24 && b.Some? {
      ValueRange(b.value[..4]);
      ValueRange(b.value[4..]);
      FitsBytesBound(Value(b.value[..4]));
      FitsBytesBound(Value(b.value[4..]));
    }
  }

  function LowerHex(c: char): char {
    if 'A' <= c <= 'F' then "abcdef"[c as int - 'A' as int] else c
  }

  function Lower(s: string): string {
    seq(|s|, i requires 0 <= i < |s| => LowerHex(s[i]))
  }

  lemma {:induction false} SameBytes(s: string)
    ensures BytesOfHex(Lower(s)) == BytesOfHex(s)
    decreases |s|
  {
    if |s| > 1 {
      SameBytes(s[2..]);
      assert Lower(s)[2..] == Lower(s[2..]);
      SameDigit(s[0]);
      SameDigit(s[1]);
    }
  }

  lemma {:induction false} SameDigit(c: char)
    ensures HexDigit(LowerHex(c)) == HexDigit(c)
  {}

  lemma {:induction false} LowerHexOf(b: seq<int>)
    requires AllBytes(b)
    ensures Lower(HexOf(b)) == HexOf(b)
  {
    if b != [] {
      LowerHexOf(b[1..]);
      var h, k := HexChar(b[0] / 16), HexChar(b[0] % 16);
      assert LowerHex(h) == h && LowerHex(k) == k;
      assert Lower([h, k] + HexOf(b[1..])) == [h, k] + Lower(HexOf(b[1..]));
    }
  }

  /** Ids are read in either case and written in lower case. */
  lemma {:induction false} HexIsLowerCase(s: string, id: ObjectId)
    ensures FromHex(Lower(s)) == FromHex(s) && Lower(Hex(id)) == Hex(id)
  {
    SameBytes(s);
    LowerHexOf(IdBytes(id));
  }

  /** Parsing the stored string gives back the id it was made from. */
  lemma {:induction false} HexRoundTrip(id: ObjectId)
    ensures FromHex(Hex(id)) == Some(id)
  {
    IdFits(id);
    BytesOfHexOf(IdBytes(id));
    assert IdBytes(id)[..4] == BigEndian(id.second, 4) && IdBytes(id)[4..] == BigEndian(id.suffix, 8);
    ValueOfBigEndian(id.second, 4);
    ValueOfBigEndian(id.suffix, 8);
  }

  /** String order, byte order and native order of ids are one and the same. */
  lemma {:induction false} HexIsOrderIsomorphism(a: ObjectId, b: ObjectId)
    ensures StrLess(Hex(a), Hex(b)) <==> IdLess(a, b)
    ensures LexLess(IdBytes(a), IdBytes(b)) <==> IdLess(a, b)
    ensures Hex(a) == Hex(b) <==> a == b
  {
    IdFits(a);
    IdFits(b);
    BigEndianOrder(a.second, b.second, 4);
    BigEndianOrder(a.suffix, b.suffix, 8);
    LexLessAppend(BigEndian(a.second, 4), BigEndian(b.second, 4), BigEndian(a.suffix, 8), BigEndian(b.suffix, 8));
    HexOrder(IdBytes(a), IdBytes(b));
    HexRoundTrip(a);
    HexRoundTrip(b);
  }
}
