/** Canonical watermark strings "YYYY-MM-DDTHH:MM:SS.mmmZ" of `mongo/watermark.py`. */
module Timestamps {
  import opened Wrappers
  import opened Strings
  import opened Calendar

  const MS: int := 1000
  const SECOND: int := 1_000_000

  /** Drop what lies below a millisecond. */
  function FloorMs(t: int): int {
    t / MS * MS
  }

  /** Instants whose year is printed with four digits: years 1000 to 9999. */
  type Instant = t: int | 364_877 * DAY <= t < 3_652_059 * DAY
    witness 364_877 * DAY

  lemma {:induction false} FourDigitYear(t: Instant)
    ensures 1000 <= FieldsOf(t).year <= 9999
  {
    var n := t / DAY;
    var y := YearOf(n, 1);
    assert DaysBeforeYear(1000) == 364_877 && DaysBeforeYear(10_000) == 3_652_059;
    if y < 1000 {
      YearMonotone(y + 1, 1000);
    } else if 9999 < y {
      YearMonotone(10_000, y);
    }
  }

  lemma {:induction false} FieldsFit(f: DateTime)
    requires Valid(f) && f.year <= 9999
    ensures Fits(f.year, 4) && Fits(f.month, 2) && Fits(f.day, 2) && Fits(f.hour, 2)
    ensures Fits(f.minute, 2) && Fits(f.second, 2) && Fits(f.micro / MS, 3)
  {
    FitsBelow(f.year, f.month, f.micro / MS);
    FitsBelow(f.year, f.day, f.micro / MS);
    FitsBelow(f.year, f.hour, f.micro / MS);
    FitsBelow(f.year, f.minute, f.micro / MS);
    FitsBelow(f.year, f.second, f.micro / MS);
  }

  lemma {:induction false} FitsBelow(y: int, m: int, ms: int)
    requires 0 <= y < 10_000 && 0 <= m < 100 && 0 <= ms < 1000
    ensures Fits(y, 4) && Fits(m, 2) && Fits(ms, 3)
  {
    assert Fits(m / 10 / 10, 0) && Fits(m / 10, 1);
    assert Fits(ms / 10 / 10 / 10, 0) && Fits(ms / 10 / 10, 1) && Fits(ms / 10, 2);
    assert Fits(y / 10 / 10 / 10 / 10, 0) && Fits(y / 10 / 10 / 10, 1) && Fits(y / 10 / 10, 2) && Fits(y / 10, 3);
  }

  /** The fixed layout around seven digit groups. */
  function Layout(y: string, mo: string, d: string, h: string, mi: string, sec: string, ms: string): (s: string)
    requires |y| == 4 && |mo| == |d| == |h| == |mi| == |sec| == 2 && |ms| == 3
    ensures |s| == 24
  {
    y + ("-" + (mo + ("-" + (d + ("T" + (h + (":" + (mi + (":" + (sec + ("." + (ms + "Z"))))))))))))
  }

  predicate Separators(s: string) {
    && |s| == 24 && s[4] == '-' && s[7] == '-' && s[10] == 'T'
    && s[13] == ':' && s[16] == ':' && s[19] == '.' && s[23] == 'Z'
  }

  lemma {:induction false} PeelGroup(s: string, k: nat, group: string, sep: string, rest: string)
    requires k <= |s| && |sep| == 1 && s[k..] == group + (sep + rest)
    ensures k + |group| + 1 <= |s| && s[k..k + |group|] == group && s[k + |group|] == sep[0]
    ensures s[k + |group| + 1..] == rest
  {
    var t := s[k..];
    assert |t| == |group| + 1 + |rest|;
    assert t[..|group|] == group && t[|group|] == sep[0] && t[|group| + 1..] == rest;
  }

  lemma {:induction false} LayoutParts(y: string, mo: string, d: string, h: string, mi: string, sec: string, ms: string)
    requires |y| == 4 && |mo| == |d| == |h| == |mi| == |sec| == 2 && |ms| == 3
    ensures var s := Layout(y, mo, d, h, mi, sec, ms);
      && Separators(s)
      && s[0..4] == y && s[5..7] == mo && s[8..10] == d && s[11..13] == h && s[14..16] == mi && s[17..19] == sec
      && s[20..23] == ms
  {
    var s := Layout(y, mo, d, h, mi, sec, ms);
    assert s[0..] == s;
    PeelGroup(s, 0, y, "-", mo + ("-" + (d + ("T" + (h + (":" + (mi + (":" + (sec + ("." + (ms + "Z")))))))))));
    PeelGroup(s, 5, mo, "-", d + ("T" + (h + (":" + (mi + (":" + (sec + ("." + (ms + "Z")))))))));
    PeelGroup(s, 8, d, "T", h + (":" + (mi + (":" + (sec + ("." + (ms + "Z")))))));
    PeelGroup(s, 11, h, ":", mi + (":" + (sec + ("." + (ms + "Z")))));
    PeelGroup(s, 14, mi, ":", sec + ("." + (ms + "Z")));
    PeelGroup(s, 17, sec, ".", ms + "Z");
    assert ms + "Z" == ms + ("Z" + "");
    PeelGroup(s, 20, ms, "Z", "");
  }

  lemma {:induction false} LayoutOfParts(s: string)
    requires Separators(s)
    ensures Layout(s[0..4], s[5..7], s[8..10], s[11..13], s[14..16], s[17..19], s[20..23]) == s
  {
    assert s[20..] == s[20..23] + "Z";
    assert s[17..] == s[17..19] + ("." + s[20..]);
    assert s[14..] == s[14..16] + (":" + s[17..]);
    assert s[11..] == s[11..13] + (":" + s[14..]);
    assert s[8..] == s[8..10] + ("T" + s[11..]);
    assert s[5..] == s[5..7] + ("-" + s[8..]);
    assert s == s[0..4] + ("-" + s[5..]);
  }

  function FormatFields(f: DateTime): (s: string)
    requires Valid(f) && f.year <= 9999
    ensures |s| == 24
  {
    FieldsFit(f);
    Layout(Decimal(f.year, 4), Decimal(f.month, 2), Decimal(f.day, 2),
           Decimal(f.hour, 2), Decimal(f.minute, 2), Decimal(f.second, 2), Decimal(f.micro / MS, 3))
  }

  /** `_format_ts` */
  function FormatTs(t: Instant): (s: string)
    ensures |s| == 24
  {
    FourDigitYear(t);
    FieldsOfInstant(t);
    FormatFields(FieldsOf(t))
  }

  predicate Shaped(s: string) {
    && Separators(s)
    && AllDigits(s[0..4]) && AllDigits(s[5..7]) && AllDigits(s[8..10])
    && AllDigits(s[11..13]) && AllDigits(s[14..16]) && AllDigits(s[17..19]) && AllDigits(s[20..23])
  }

  function ReadFields(s: string): DateTime
    requires Shaped(s)
  {
    DateTime(Number(s[0..4]), Number(s[5..7]), Number(s[8..10]),
             Number(s[11..13]), Number(s[14..16]), Number(s[17..19]), Number(s[20..23]) * MS)
  }

  /** `datetime.strptime(s, _TS_FORMAT)` on strings of the canonical width. */
  function ParseTs(s: string): Option<int> {
    if Shaped(s) && Valid(ReadFields(s)) then Some(Micros(ReadFields(s))) else None
  }

  function Cut(f: DateTime): DateTime {
    f.(micro := f.micro / MS * MS)
  }

  lemma {:induction false} CutIsFloor(f: DateTime)
    requires Valid(f)
    ensures Valid(Cut(f)) && Micros(Cut(f)) == FloorMs(Micros(f))
  {
    var k := DayNumber(f.year, f.month, f.day) * 86_400_000
             + ((f.hour * 60 + f.minute) * 60 + f.second) * 1000 + f.micro / MS;
    assert Micros(f) == k * MS + f.micro % MS;
    DivOfSum(k, f.micro % MS, MS);
  }

  lemma {:induction false} ReadFormatted(f: DateTime)
    requires Valid(f) && f.year <= 9999
    ensures Shaped(FormatFields(f)) && ReadFields(FormatFields(f)) == Cut(f)
  {
    hide Layout, Separators, Decimal, Number, Fits;
    FieldsFit(f);
    LayoutParts(Decimal(f.year, 4), Decimal(f.month, 2), Decimal(f.day, 2),
                Decimal(f.hour, 2), Decimal(f.minute, 2), Decimal(f.second, 2), Decimal(f.micro / MS, 3));
    NumberOfDecimal(f.year, 4);
    NumberOfDecimal(f.month, 2);
    NumberOfDecimal(f.day, 2);
    NumberOfDecimal(f.hour, 2);
    NumberOfDecimal(f.minute, 2);
    NumberOfDecimal(f.second, 2);
    NumberOfDecimal(f.micro / MS, 3);
  }

  /** Parsing a formatted instant gives it floored to the millisecond. */
  lemma {:induction false} ParseInvertsFormat(t: Instant)
    ensures ParseTs(FormatTs(t)) == Some(FloorMs(t))
  {
    FourDigitYear(t);
    FieldsOfInstant(t);
    ReadFormatted(FieldsOf(t));
    CutIsFloor(FieldsOf(t));
  }

  lemma {:induction false} FormatInvertsRead(s: string)
    requires Shaped(s) && Valid(ReadFields(s)) && ReadFields(s).year <= 9999
    ensures FormatFields(ReadFields(s)) == s
  {
    hide Layout, Decimal, Number, Fits;
    var f := ReadFields(s);
    FieldsFit(f);
    DecimalOfNumber(s[0..4]);
    DecimalOfNumber(s[5..7]);
    DecimalOfNumber(s[8..10]);
    DecimalOfNumber(s[11..13]);
    DecimalOfNumber(s[14..16]);
    DecimalOfNumber(s[17..19]);
    DecimalOfNumber(s[20..23]);
    LayoutOfParts(s);
  }

  /** A canonical string formats back to itself. */
  lemma {:induction false} FormatInvertsParse(s: string, t: Instant)
    requires ParseTs(s) == Some(t)
    ensures FormatTs(t) == s
  {
    FourDigitYear(t);
    InstantOfFields(ReadFields(s));
    FormatInvertsRead(s);
  }

  // ---- Order ----

  /** Field-wise order of two times, down to the millisecond. */
  ghost predicate Before(f: DateTime, g: DateTime) {
    || DateBefore(f.year, f.month, f.day, g.year, g.month, g.day)
    || (f.year == g.year && f.month == g.month && f.day == g.day
        && (f.hour < g.hour || (f.hour == g.hour
        && (f.minute < g.minute || (f.minute == g.minute
        && (f.second < g.second || (f.second == g.second && f.micro / MS < g.micro / MS)))))))
  }

  lemma {:induction false} BeforeIsChronological(f: DateTime, g: DateTime)
    requires Valid(f) && Valid(g)
    ensures Before(f, g) <==> FloorMs(Micros(f)) < FloorMs(Micros(g))
  {
    CutIsFloor(f);
    CutIsFloor(g);
    DateOrder(f.year, f.month, f.day, g.year, g.month, g.day);
    DateOrder(g.year, g.month, g.day, f.year, f.month, f.day);
    var a, b := DayNumber(f.year, f.month, f.day), DayNumber(g.year, g.month, g.day);
    assert Micros(Cut(f)) == a * DAY + ((f.hour * 60 + f.minute) * 60 + f.second) * SECOND + f.micro / MS * MS;
    assert Micros(Cut(g)) == b * DAY + ((g.hour * 60 + g.minute) * 60 + g.second) * SECOND + g.micro / MS * MS;
  }

  lemma {:induction false} StringOrderIsBefore(f: DateTime, g: DateTime)
    requires Valid(f) && Valid(g) && f.year <= 9999 && g.year <= 9999
    ensures StrLess(FormatFields(f), FormatFields(g)) <==> Before(f, g)
  {
    FieldsFit(f);
    FieldsFit(g);
    var f7, g7 := Decimal(f.micro / MS, 3) + "Z", Decimal(g.micro / MS, 3) + "Z";
    FieldLess(f.micro / MS, g.micro / MS, 3, "Z", "Z");
    NotLessSelf(Codes("Z"));
    var f6, g6 := Decimal(f.second, 2) + ("." + f7), Decimal(g.second, 2) + ("." + g7);
    FieldLess(f.second, g.second, 2, "." + f7, "." + g7);
    StrLessSameHead(".", f7, g7);
    var f5, g5 := Decimal(f.minute, 2) + (":" + f6), Decimal(g.minute, 2) + (":" + g6);
    FieldLess(f.minute, g.minute, 2, ":" + f6, ":" + g6);
    StrLessSameHead(":", f6, g6);
    var f4, g4 := Decimal(f.hour, 2) + (":" + f5), Decimal(g.hour, 2) + (":" + g5);
    FieldLess(f.hour, g.hour, 2, ":" + f5, ":" + g5);
    StrLessSameHead(":", f5, g5);
    var f3, g3 := Decimal(f.day, 2) + ("T" + f4), Decimal(g.day, 2) + ("T" + g4);
    FieldLess(f.day, g.day, 2, "T" + f4, "T" + g4);
    StrLessSameHead("T", f4, g4);
    var f2, g2 := Decimal(f.month, 2) + ("-" + f3), Decimal(g.month, 2) + ("-" + g3);
    FieldLess(f.month, g.month, 2, "-" + f3, "-" + g3);
    StrLessSameHead("-", f3, g3);
    FieldLess(f.year, g.year, 4, "-" + f2, "-" + g2);
    StrLessSameHead("-", f2, g2);
  }

  /** String order of canonical watermarks is chronological order. */
  lemma {:induction false} StringOrderIsChronological(t: Instant, u: Instant)
    ensures StrLess(FormatTs(t), FormatTs(u)) <==> FloorMs(t) < FloorMs(u)
  {
    FourDigitYear(t);
    FourDigitYear(u);
    FieldsOfInstant(t);
    FieldsOfInstant(u);
    StringOrderIsBefore(FieldsOf(t), FieldsOf(u));
    BeforeIsChronological(FieldsOf(t), FieldsOf(u));
  }

  // ---- One time as it is stored ----

  lemma {:induction false} Digits2(a: char, b: char)
    requires IsDigit(a) && IsDigit(b)
    ensures AllDigits([a, b]) && Number([a, b]) == (a as int - '0' as int) * 10 + (b as int - '0' as int)
  {
    NumberSnoc([], a);
    NumberSnoc([a], b);
    assert [] + [a] == [a] && [a] + [b] == [a, b];
    assert Number([]) == 0;
  }

  lemma {:induction false} Digits3(a: char, b: char, c: char)
    requires IsDigit(a) && IsDigit(b) && IsDigit(c)
    ensures AllDigits([a, b, c]) && Number([a, b, c]) == Number([a, b]) * 10 + (c as int - '0' as int)
    ensures Number([a, b]) == (a as int - '0' as int) * 10 + (b as int - '0' as int)
  {
    Digits2(a, b);
    NumberSnoc([a, b], c);
    assert [a, b] + [c] == [a, b, c];
  }

  lemma {:induction false} Digits4(a: char, b: char, c: char, d: char)
    requires IsDigit(a) && IsDigit(b) && IsDigit(c) && IsDigit(d)
    ensures AllDigits([a, b, c, d]) && Number([a, b, c, d]) == Number([a, b, c]) * 10 + (d as int - '0' as int)
    ensures Number([a, b, c]) == Number([a, b]) * 10 + (c as int - '0' as int)
    ensures Number([a, b]) == (a as int - '0' as int) * 10 + (b as int - '0' as int)
  {
    Digits3(a, b, c);
    NumberSnoc([a, b, c], d);
    assert [a, b, c] + [d] == [a, b, c, d];
  }

  /** Times in the same millisecond are stored alike. */
  lemma {:induction false} SameMillisecond(t: Instant, u: Instant)
    requires FloorMs(t) == FloorMs(u)
    ensures FormatTs(t) == FormatTs(u)
  {
    hide FormatTs, ParseTs;
    ParseInvertsFormat(t);
    ParseInvertsFormat(u);
    FormatInvertsParse(FormatTs(t), FloorMs(t));
    FormatInvertsParse(FormatTs(u), FloorMs(u));
  }

  const KNOWN := "2024-03-05T04:07:09.012Z"

  lemma {:induction false} KnownParts()
    ensures Separators(KNOWN) && KNOWN[0..4] == "2024" && KNOWN[5..7] == "03" && KNOWN[8..10] == "05"
    ensures KNOWN[11..13] == "04" && KNOWN[14..16] == "07" && KNOWN[17..19] == "09" && KNOWN[20..23] == "012"
  {}

  lemma {:induction false} KnownNumbers()
    ensures AllDigits("2024") && Number("2024") == 2024 && AllDigits("012") && Number("012") == 12
    ensures AllDigits("03") && Number("03") == 3 && AllDigits("05") && Number("05") == 5
    ensures AllDigits("04") && Number("04") == 4 && AllDigits("07") && Number("07") == 7
    ensures AllDigits("09") && Number("09") == 9
  {
    hide Number, AllDigits;
    Digits4('2', '0', '2', '4');
    Digits3('0', '1', '2');
    Digits2('0', '3');
    Digits2('0', '5');
    Digits2('0', '4');
    Digits2('0', '7');
    Digits2('0', '9');
  }

  lemma {:induction false} KnownFields()
    ensures Shaped(KNOWN) && ReadFields(KNOWN) == DateTime(2024, 3, 5, 4, 7, 9, 12_000)
  {
    hide Number, AllDigits, Separators;
    KnownParts();
    KnownNumbers();
  }

  lemma {:induction false} KnownMillisecond(t: Instant)
    requires t == Micros(DateTime(2024, 3, 5, 4, 7, 9, 12_000))
    ensures FormatTs(t) == KNOWN
  {
    KnownFields();
    hide Shaped, ReadFields, Micros;
    assert Valid(DateTime(2024, 3, 5, 4, 7, 9, 12_000));
    assert ParseTs(KNOWN) == Some(t);
    FormatInvertsParse(KNOWN, t);
  }

  /** How a time is stored, in full: 12.345 milliseconds past 4:07:09 on 5 March 2024. */
  lemma {:induction false} KnownTime(t: Instant, u: Instant)
    requires t == Micros(DateTime(2024, 3, 5, 4, 7, 9, 12_345)) && u == Micros(DateTime(2024, 3, 5, 4, 7, 9, 12_000))
    ensures FormatTs(t) == FormatTs(u) == KNOWN
  {
    hide FormatTs;
    KnownMillisecond(u);
    CutIsFloor(DateTime(2024, 3, 5, 4, 7, 9, 12_345));
    SameMillisecond(t, u);
  }
}
