/** Proleptic Gregorian calendar as `datetime` has it. An instant is the number of microseconds
    since 0001-01-01T00:00:00 UTC. */
module Calendar {
  const DAY: int := 86_400_000_000

  /** `datetime` fields, in UTC. */
  datatype DateTime = DateTime(year: int, month: int, day: int, hour: int, minute: int, second: int, micro: int)

  predicate Leap(y: int) {
    y % 4 == 0 && (y % 100 != 0 || y % 400 == 0)
  }

  function DaysInMonth(y: int, m: int): int {
    if m == 2 then (if Leap(y) then 29 else 28)
    else if m == 4 || m == 6 || m == 9 || m == 11 then 30
    else 31
  }

  function DaysBeforeYear(y: int): int {
    (y - 1) * 365 + (y - 1) / 4 - (y - 1) / 100 + (y - 1) / 400
  }

  /** Cumulative month lengths; month 13 stands for the end of the year. */
  function DaysBeforeMonth(y: int, m: int): int
    requires 1 <= m <= 13
  {
    [0, 31, 59, 90, 120, 151, 181, 212, 243, 273, 304, 334, 365][m - 1] + (if m > 2 && Leap(y) then 1 else 0)
  }

  predicate ValidDate(y: int, m: int, d: int) {
    1 <= y && 1 <= m <= 12 && 1 <= d <= DaysInMonth(y, m)
  }

  predicate Valid(t: DateTime) {
    && ValidDate(t.year, t.month, t.day)
    && 0 <= t.hour < 24 && 0 <= t.minute < 60 && 0 <= t.second < 60 && 0 <= t.micro < 1_000_000
  }

  function DayNumber(y: int, m: int, d: int): int
    requires 1 <= m <= 12
  {
    DaysBeforeYear(y) + DaysBeforeMonth(y, m) + d - 1
  }

  function Micros(t: DateTime): int
    requires Valid(t)
  {
    DayNumber(t.year, t.month, t.day) * DAY
    + ((t.hour * 60 + t.minute) * 60 + t.second) * 1_000_000 + t.micro
  }

  // ---- From an instant to its fields ----

  lemma {:induction false} MulMonotone(p: int, q: int, b: int)
    requires p <= q && 0 < b
    ensures p * b <= q * b
  {}

  lemma {:induction false} DivOfSum(q: int, r: int, b: int)
    requires 0 <= r < b
    ensures (q * b + r) / b == q && (q * b + r) % b == r
  {
    var x := q * b + r;
    assert x == x / b * b + x % b;
    if x / b < q {
      MulMonotone(x / b, q - 1, b);
    } else if q < x / b {
      MulMonotone(q + 1, x / b, b);
    }
  }

  lemma {:induction false} DivStep(y: int, b: int)
    requires 0 < b
    ensures y / b == (y - 1) / b + (if y % b == 0 then 1 else 0)
  {
    var q, r := y / b, y % b;
    assert y == q * b + r;
    if r == 0 {
      assert y - 1 == (q - 1) * b + (b - 1);
      DivOfSum(q - 1, b - 1, b);
    } else {
      DivOfSum(q, r - 1, b);
    }
  }

  lemma {:induction false} YearStep(y: int)
    ensures DaysBeforeYear(y + 1) == DaysBeforeYear(y) + (if Leap(y) then 366 else 365)
  {
    DivStep(y, 4);
    DivStep(y, 100);
    DivStep(y, 400);
    assert y % 100 == 0 ==> y % 4 == 0;
    assert y % 400 == 0 ==> y % 100 == 0;
  }

  lemma {:induction false} YearMonotone(y: int, z: int)
    requires y <= z
    ensures DaysBeforeYear(y) + 365 * (z - y) <= DaysBeforeYear(z)
    decreases z - y
  {
    if y < z {
      YearMonotone(y, z - 1);
      YearStep(z - 1);
    }
  }

  lemma {:induction false} MonthMonotone(y: int, m: int, n: int)
    requires 1 <= m < n <= 13
    ensures DaysBeforeMonth(y, m) + DaysInMonth(y, m) <= DaysBeforeMonth(y, n)
    decreases n
  {
    if m < n - 1 {
      MonthMonotone(y, m, n - 1);
    }
  }

  /** The year whose days contain day number `n`, looked for from `y` upwards. */
  function YearOf(n: int, y: int): (r: int)
    requires 1 <= y && DaysBeforeYear(y) <= n
    ensures y <= r && DaysBeforeYear(r) <= n < DaysBeforeYear(r + 1)
    decreases n - DaysBeforeYear(y)
  {
    YearStep(y);
    if n < DaysBeforeYear(y + 1) then y else YearOf(n, y + 1)
  }

  /** The month of year `y` whose days contain the day `n` of the year, looked for from `m` upwards. */
  function MonthOf(y: int, n: int, m: int): (r: int)
    requires 1 <= m <= 12 && DaysBeforeMonth(y, m) <= n < DaysBeforeMonth(y, 13)
    ensures m <= r <= 12 && DaysBeforeMonth(y, r) <= n < DaysBeforeMonth(y, r) + DaysInMonth(y, r)
    decreases 12 - m
  {
    if n < DaysBeforeMonth(y, m) + DaysInMonth(y, m) then m else MonthOf(y, n, m + 1)
  }

  function DateOf(n: int): (d: (int, int, int))
    requires 0 <= n
    ensures ValidDate(d.0, d.1, d.2) && DayNumber(d.0, d.1, d.2) == n
  {
    var y := YearOf(n, 1);
    YearStep(y);
    var k := n - DaysBeforeYear(y);
    var m := MonthOf(y, k, 1);
    (y, m, k - DaysBeforeMonth(y, m) + 1)
  }

  function FieldsOf(t: int): (f: DateTime)
    requires 0 <= t
  {
    var (y, m, d) := DateOf(t / DAY);
    var s := t % DAY / 1_000_000;
    DateTime(y, m, d, s / 3600, s / 60 % 60, s % 60, t % 1_000_000)
  }

  /** Splitting a count of seconds into fields and putting them together again. */
  lemma {:induction false} TimeOfDay(s: int)
    requires 0 <= s < 86_400
    ensures 0 <= s / 3600 < 24 && 0 <= s / 60 % 60 < 60 && 0 <= s % 60 < 60
    ensures (s / 3600 * 60 + s / 60 % 60) * 60 + s % 60 == s
  {
    assert s / 3600 == s / 60 / 60;
  }

  lemma {:induction false} SplitInstant(t: int)
    requires 0 <= t
    ensures 0 <= t % DAY / 1_000_000 < 86_400
    ensures t == t / DAY * DAY + t % DAY / 1_000_000 * 1_000_000 + t % 1_000_000
  {
    var n, r := t / DAY, t % DAY;
    DivOfSum(n * 86_400 + r / 1_000_000, r % 1_000_000, 1_000_000);
  }

  lemma {:induction false} FieldsOfInstant(t: int)
    requires 0 <= t
    ensures Valid(FieldsOf(t)) && Micros(FieldsOf(t)) == t
  {
    SplitInstant(t);
    TimeOfDay(t % DAY / 1_000_000);
  }

  // ---- Order ----

  /** Field by field, most significant first. */
  predicate DateBefore(y: int, m: int, d: int, y': int, m': int, d': int) {
    y < y' || (y == y' && (m < m' || (m == m' && d < d')))
  }

  lemma {:induction false} DateOrderOneWay(y: int, m: int, d: int, y': int, m': int, d': int)
    requires ValidDate(y, m, d) && ValidDate(y', m', d') && DateBefore(y, m, d, y', m', d')
    ensures DayNumber(y, m, d) < DayNumber(y', m', d')
  {
    if y < y' {
      MonthMonotone(y, m, 13);
      YearStep(y);
      YearMonotone(y + 1, y');
    } else if m < m' {
      MonthMonotone(y, m, m');
    }
  }

  /** Chronological order of dates is the order of their fields, across months, leap days and years. */
  lemma {:induction false} DateOrder(y: int, m: int, d: int, y': int, m': int, d': int)
    requires ValidDate(y, m, d) && ValidDate(y', m', d')
    ensures DayNumber(y, m, d) < DayNumber(y', m', d') <==> DateBefore(y, m, d, y', m', d')
    ensures DayNumber(y, m, d) == DayNumber(y', m', d') <==> (y == y' && m == m' && d == d')
  {
    if DateBefore(y, m, d, y', m', d') {
      DateOrderOneWay(y, m, d, y', m', d');
    } else if DateBefore(y', m', d', y, m, d) {
      DateOrderOneWay(y', m', d', y, m, d);
    }
  }

  lemma {:induction false} ClockOfFields(h: int, mi: int, sec: int)
    requires 0 <= h < 24 && 0 <= mi < 60 && 0 <= sec < 60
    ensures var s := (h * 60 + mi) * 60 + sec;
      0 <= s < 86_400 && s / 3600 == h && s / 60 % 60 == mi && s % 60 == sec
  {
    DivOfSum(h * 60 + mi, sec, 60);
    DivOfSum(h, mi, 60);
    DivOfSum(h, mi * 60 + sec, 3600);
  }

  lemma {:induction false} PartsOfInstant(n: int, s: int, us: int)
    requires 0 <= s < 86_400 && 0 <= us < 1_000_000
    ensures var t := n * DAY + s * 1_000_000 + us;
      t / DAY == n && t % DAY / 1_000_000 == s && t % 1_000_000 == us
  {
    DivOfSum(n, s * 1_000_000 + us, DAY);
    DivOfSum(s, us, 1_000_000);
    DivOfSum(n * 86_400 + s, us, 1_000_000);
  }

  /** The fields of a valid `DateTime` are recovered from its instant. */
  lemma {:induction false} InstantOfFields(f: DateTime)
    requires Valid(f)
    ensures 0 <= Micros(f) && FieldsOf(Micros(f)) == f
  {
    hide DateOf, DayNumber;
    var n := DayNumber(f.year, f.month, f.day);
    ClockOfFields(f.hour, f.minute, f.second);
    PartsOfInstant(n, (f.hour * 60 + f.minute) * 60 + f.second, f.micro);
    DateOfDayNumber(f.year, f.month, f.day);
  }

  lemma {:induction false} DateOfDayNumber(y: int, m: int, d: int)
    requires ValidDate(y, m, d)
    ensures 0 <= DayNumber(y, m, d) && DateOf(DayNumber(y, m, d)) == (y, m, d)
  {
    YearMonotone(1, y);
    var (y', m', d') := DateOf(DayNumber(y, m, d));
    DateOrder(y', m', d', y, m, d);
  }
}
