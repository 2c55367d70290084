/** Instants as text: the profile of section 5.6 of RFC 3339 that the reference engine accepts, the text the
    engine prints, and the spellings the scenario generator writes. Instants are exact integer microseconds
    since 1970-01-01T00:00:00Z on the proleptic Gregorian calendar. */
module Timestamps {
  import opened Ordering

  // ------------------------------------------------------------------ decimal digits

  predicate IsDigit(c: char) { '0' <= c <= '9' }

  predicate AllDigits(s: string) { forall i | 0 <= i < |s| :: IsDigit(s[i]) }

  function DigitValue(c: char): nat {
    if IsDigit(c) then c as int - '0' as int else 0
  }

  function DigitChar(n: nat): (c: char)
    requires n < 10
    ensures IsDigit(c) && DigitValue(c) == n
  {
    '0' + n as char
  }

  /** `int(...)` of the `n` digits of `s` that start at `i`. */
  function NumberAt(s: string, i: nat, n: nat): nat
    requires i + n <= |s|
  {
    if n == 0 then 0 else 10 * NumberAt(s, i, n - 1) + DigitValue(s[i + n - 1])
  }

  /** `f"{n:0{width}d}"`: at least `width` digits. */
  function ZeroPad(n: nat, width: nat): string
    decreases n, width
  {
    if n < 10 && width <= 1 then [DigitChar(n)]
    else ZeroPad(n / 10, if width > 0 then width - 1 else 0) + [DigitChar(n % 10)]
  }

  lemma {:induction false} NumberInside(a: string, d: string, z: string, n: nat)
    requires n <= |d|
    ensures NumberAt(a + d + z, |a|, n) == NumberAt(d, 0, n)
  {
    if n > 0 { NumberInside(a, d, z, n - 1); }
  }

  lemma {:induction false} NumberSnoc(s: string, d: nat)
    requires d < 10
    ensures NumberAt(s + [DigitChar(d)], 0, |s| + 1) == 10 * NumberAt(s, 0, |s|) + d
  {
    NumberInside([], s, [DigitChar(d)], |s|);
    assert [] + s + [DigitChar(d)] == s + [DigitChar(d)];
  }

  /** Zero padding loses nothing, so distinct numbers have distinct texts. */
  lemma {:induction false} NumberOfZeroPad(n: nat, width: nat)
    ensures NumberAt(ZeroPad(n, width), 0, |ZeroPad(n, width)|) == n
    ensures AllDigits(ZeroPad(n, width))
    decreases n, width
  {
    if n < 10 && width <= 1 {
      assert NumberAt([DigitChar(n)], 0, 0) == 0;
    } else {
      var w := if width > 0 then width - 1 else 0;
      NumberOfZeroPad(n / 10, w);
      NumberSnoc(ZeroPad(n / 10, w), n % 10);
    }
  }

  function Pow10(k: nat): nat { if k == 0 then 1 else 10 * Pow10(k - 1) }

  lemma {:induction false} LengthOfZeroPad(n: nat, width: nat)
    requires 1 <= width && n < Pow10(width)
    ensures |ZeroPad(n, width)| == width
  {
    if width > 1 { LengthOfZeroPad(n / 10, width - 1); }
  }

  // ------------------------------------------------------------------ the calendar

  datatype Civil = Civil(year: int, month: int, day: int, hour: int, minute: int, second: int)

  predicate IsLeap(y: int) { y % 4 == 0 && (y % 100 != 0 || y % 400 == 0) }

  function DaysInMonth(y: int, m: int): int {
    if m == 2 then (if IsLeap(y) then 29 else 28)
    else if m in {4, 6, 9, 11} then 30
    else 31
  }

  function YearLength(y: int): int { if IsLeap(y) then 366 else 365 }

  /** Days from 0001-01-01 to January 1st of year `y`. */
  function DaysBeforeYear(y: int): int
    requires y >= 1
    decreases y
  {
    if y == 1 then 0 else DaysBeforeYear(y - 1) + YearLength(y - 1)
  }

  /** The Gregorian leap rule in closed form, as `datetime.toordinal` computes it. */
  lemma {:induction false} DaysBeforeYearClosed(y: int)
    requires y >= 1
    ensures DaysBeforeYear(y) == 365 * (y - 1) + (y - 1) / 4 - (y - 1) / 100 + (y - 1) / 400
    decreases y
  {
    if y > 1 {
      DaysBeforeYearClosed(y - 1);
      LeapStep(y - 1);
    }
  }

  lemma {:induction false} LeapStep(y: int)
    ensures y / 4 - y / 100 + y / 400 == (y - 1) / 4 - (y - 1) / 100 + (y - 1) / 400 + (if IsLeap(y) then 1 else 0)
  {
    var p := y - 1;
    assert y / 4 == p / 4 + (if y % 4 == 0 then 1 else 0);
    assert y / 100 == p / 100 + (if y % 100 == 0 then 1 else 0);
    assert y / 400 == p / 400 + (if y % 400 == 0 then 1 else 0);
    assert y % 400 == 0 ==> y % 100 == 0;
    assert y % 100 == 0 ==> y % 4 == 0;
  }

  /** Days from January 1st of year `y` to the first of month `m`. */
  function DaysBeforeMonth(y: int, m: int): int
    requires 1 <= m <= 13
    decreases m
  {
    if m == 1 then 0 else DaysBeforeMonth(y, m - 1) + DaysInMonth(y, m - 1)
  }

  lemma {:induction false} MonthsFillYear(y: int)
    ensures DaysBeforeMonth(y, 13) == YearLength(y)
  {
    assert DaysBeforeMonth(y, 4) == DaysInMonth(y, 1) + DaysInMonth(y, 2) + DaysInMonth(y, 3);
    assert DaysBeforeMonth(y, 7) == DaysBeforeMonth(y, 4) + DaysInMonth(y, 4) + DaysInMonth(y, 5) + DaysInMonth(y, 6);
    assert DaysBeforeMonth(y, 10) == DaysBeforeMonth(y, 7) + DaysInMonth(y, 7) + DaysInMonth(y, 8) + DaysInMonth(y, 9);
    assert DaysBeforeMonth(y, 13) == DaysBeforeMonth(y, 10) + DaysInMonth(y, 10) + DaysInMonth(y, 11) + DaysInMonth(y, 12);
  }

  /** What `datetime(...)` accepts: years 1..9999 and no leap seconds. */
  predicate ValidCivil(c: Civil) {
    && 1 <= c.year <= 9999 && 1 <= c.month <= 12 && 1 <= c.day <= DaysInMonth(c.year, c.month)
    && 0 <= c.hour <= 23 && 0 <= c.minute <= 59 && 0 <= c.second <= 59
  }

  const EPOCH_DAY: int := 719162

  /** Seconds since the epoch of a civil time read as UTC. */
  function SecondsOf(c: Civil): int
    requires ValidCivil(c)
  {
    (DaysBeforeYear(c.year) + DaysBeforeMonth(c.year, c.month) + c.day - 1 - EPOCH_DAY) * 86400
    + c.hour * 3600 + c.minute * 60 + c.second
  }

  function MonthOf(y: int, dayOfYear: int, m: int): (r: int)
    requires 1 <= m <= 12 && DaysBeforeMonth(y, m) <= dayOfYear < DaysBeforeMonth(y, 13)
    ensures 1 <= r <= 12 && DaysBeforeMonth(y, r) <= dayOfYear < DaysBeforeMonth(y, r + 1)
    decreases 12 - m
  {
    if dayOfYear < DaysBeforeMonth(y, m + 1) then m else MonthOf(y, dayOfYear, m + 1)
  }

  const DAYS_BEFORE_1000: int := 364877
  const DAYS_BEFORE_10000: int := 3652059

  /** First second of year 1000 and last second of year 9999. */
  const MIN_SECONDS: int := -30610224000
  const MAX_SECONDS: int := 253402300799

  predicate FourDigitYear(secs: int) { MIN_SECONDS <= secs <= MAX_SECONDS }

  lemma {:induction false} YearsOrdered(a: int, b: int)
    requires 1 <= a <= b
    ensures DaysBeforeYear(a) <= DaysBeforeYear(b)
    decreases b - a
  {
    if a < b { YearsOrdered(a, b - 1); }
  }

  /** Day `d` is the first of year `k`, so days before it lie in earlier years and the others do not. */
  lemma {:induction false} YearBound(day: int, y: int, k: int, d: int)
    requires 1 <= y && DaysBeforeYear(y) <= day < DaysBeforeYear(y + 1)
    requires 1 <= k && d == 365 * (k - 1) + (k - 1) / 4 - (k - 1) / 100 + (k - 1) / 400
    ensures d <= day <==> y >= k
  {
    DaysBeforeYearClosed(k);
    if y < k { YearsOrdered(y + 1, k); } else { YearsOrdered(k, y); }
  }

  lemma {:induction false} YearAtMost(y: int)
    requires 1 <= y
    ensures DaysBeforeYear(y) <= 366 * (y - 1)
    decreases y
  {
    if y > 1 { YearAtMost(y - 1); }
  }

  /** Hour, minute and second of the day. */
  function Clock(rest: int): (c: (int, int, int))
    requires 0 <= rest < 86400
    ensures 0 <= c.0 < 24 && 0 <= c.1 < 60 && 0 <= c.2 < 60 && 3600 * c.0 + 60 * c.1 + c.2 == rest
  {
    (rest / 3600, rest % 3600 / 60, rest % 60)
  }

  function CivilInYear(y: int, dayOfYear: int, rest: int): (c: Civil)
    requires 1 <= y <= 9999 && 0 <= dayOfYear < YearLength(y) && 0 <= rest < 86400
    ensures ValidCivil(c) && c.year == y
    ensures SecondsOf(c) == (DaysBeforeYear(y) + dayOfYear - EPOCH_DAY) * 86400 + rest
  {
    MonthsFillYear(y);
    var m := MonthOf(y, dayOfYear, 1);
    var (hour, minute, second) := Clock(rest);
    Civil(y, m, dayOfYear - DaysBeforeMonth(y, m) + 1, hour, minute, second)
  }

  /** The civil time `rest` seconds into day `day`, found by walking forward from year `y`. */
  function CivilFrom(day: int, rest: int, y: int): (c: Civil)
    requires 1 <= y && DaysBeforeYear(y) <= day < DAYS_BEFORE_10000 && 0 <= rest < 86400
    ensures ValidCivil(c) && SecondsOf(c) == (day - EPOCH_DAY) * 86400 + rest
    ensures DAYS_BEFORE_1000 <= day ==> c.year >= 1000
    decreases day - DaysBeforeYear(y)
  {
    if day < DaysBeforeYear(y + 1) then
      YearBound(day, y, 1000, DAYS_BEFORE_1000);
      YearBound(day, y, 10000, DAYS_BEFORE_10000);
      CivilInYear(y, day - DaysBeforeYear(y), rest)
    else CivilFrom(day, rest, y + 1)
  }

  /** `_EPOCH + timedelta(seconds=secs)`, in the range whose years have four digits. */
  function CivilOf(secs: int): (c: Civil)
    requires FourDigitYear(secs)
    ensures ValidCivil(c) && c.year >= 1000
    ensures SecondsOf(c) == secs
  {
    var day := secs / 86400 + EPOCH_DAY;
    YearAtMost(day / 366 + 1);
    CivilFrom(day, secs % 86400, day / 366 + 1)
  }

  // ------------------------------------------------------------------ parse_micros

  predicate TwoDigits(s: string, i: nat)
    requires i + 2 <= |s|
  {
    IsDigit(s[i]) && IsDigit(s[i + 1])
  }

  /** The text opens with `dddd-dd-ddTdd:dd:dd`. */
  predicate DateTimeShape(s: string) {
    && |s| >= 19
    && TwoDigits(s, 0) && TwoDigits(s, 2) && s[4] == '-' && TwoDigits(s, 5) && s[7] == '-' && TwoDigits(s, 8) && s[10] == 'T'
    && TwoDigits(s, 11) && s[13] == ':' && TwoDigits(s, 14) && s[16] == ':' && TwoDigits(s, 17)
  }

  function TwoAt(s: string, i: nat): nat
    requires i + 2 <= |s| && TwoDigits(s, i)
  {
    10 * DigitValue(s[i]) + DigitValue(s[i + 1])
  }

  function CivilFromText(s: string): Civil
    requires DateTimeShape(s)
  {
    Civil(100 * TwoAt(s, 0) + TwoAt(s, 2), TwoAt(s, 5), TwoAt(s, 8), TwoAt(s, 11), TwoAt(s, 14), TwoAt(s, 17))
  }

  /** Length of the longest run of digits that starts at `i`. */
  function DigitRun(s: string, i: nat): (n: nat)
    requires i <= |s|
    ensures i + n <= |s|
    decreases |s| - i
  {
    if i == |s| || !IsDigit(s[i]) then 0 else 1 + DigitRun(s, i + 1)
  }

  /** `n` followed by `k` zeros. */
  function Shift(n: nat, k: nat): nat
    decreases k
  {
    if k == 0 then n else Shift(10 * n, k - 1)
  }

  /** The zone that ends the text, in seconds east of UTC: `Z`, or a signed `hh:mm` of less than 24 hours. */
  function ZoneAt(s: string, i: nat): Option<int> {
    if |s| == i + 1 && s[i] == 'Z' then Some(0)
    else if |s| == i + 6 && (s[i] == '+' || s[i] == '-') && TwoDigits(s, i + 1) && s[i + 3] == ':' && TwoDigits(s, i + 4) then
      var minutes := TwoAt(s, i + 1) * 60 + TwoAt(s, i + 4);
      if minutes >= 1440 then None
      else Some((if s[i] == '+' then minutes else -minutes) * 60)
    else None
  }

  /** The optional fraction, as `int(frac.ljust(6, "0"))`, and the zone. */
  function TailAt(s: string, i: nat): Option<(nat, int)>
    requires i <= |s|
  {
    var n := if i < |s| && s[i] == '.' then DigitRun(s, i + 1) else 0;
    if i < |s| && s[i] == '.' && !(1 <= n <= 6) then None
    else
      var z := if n == 0 then i else i + 1 + n;
      match ZoneAt(s, z)
      case None => None
      case Some(offset) => Some((if n == 0 then 0 else Shift(NumberAt(s, i + 1, n), 6 - n), offset))
  }

  /** Exact microseconds since the epoch, or None when the text is not an accepted instant. */
  function Parse(s: string): Option<int> {
    if !DateTimeShape(s) then None
    else match TailAt(s, 19)
      case None => None
      case Some((micros, offset)) =>
        var c := CivilFromText(s);
        if ValidCivil(c) then Some((SecondsOf(c) - offset) * 1_000_000 + micros) else None
  }

  // ------------------------------------------------------------------ printing

  function Tens(n: int): char
    requires 0 <= n < 100
  {
    DigitChar(n / 10)
  }

  function Units(n: int): char
    requires 0 <= n < 100
  {
    DigitChar(n % 10)
  }

  /** `strftime("%Y-%m-%dT%H:%M:%S")`. */
  function DateTimeText(c: Civil): (s: string)
    requires ValidCivil(c)
    ensures |s| == 19 && DateTimeShape(s) && CivilFromText(s) == c
  {
    seq(19, i requires 0 <= i < 19 => Glyph(c, i))
  }

  /** Character `i` of `YYYY-MM-DDThh:mm:ss`. */
  function Glyph(c: Civil, i: nat): char
    requires ValidCivil(c) && i < 19
  {
    if i < 4 then (if i == 0 then Tens(c.year / 100) else if i == 1 then Units(c.year / 100) else if i == 2 then Tens(c.year % 100) else Units(c.year % 100))
    else if i == 4 || i == 7 then '-'
    else if i == 10 then 'T'
    else if i == 13 || i == 16 then ':'
    else
      var n := if i < 7 then c.month else if i < 10 then c.day else if i < 13 then c.hour else if i < 16 then c.minute else c.second;
      if i % 3 == 2 then Tens(n) else Units(n)
  }

  datatype Zone = Utc | East(minutes: int)

  /** An instant as it is written down: a civil time, a decimal fraction of `width` digits (none when 0) and a zone. */
  datatype Spelling = Spelling(date: Civil, width: nat, fraction: nat, zone: Zone)

  predicate ValidSpelling(p: Spelling) {
    && ValidCivil(p.date)
    && p.width <= 6
    && (if p.width == 0 then p.fraction == 0 else p.fraction < Pow10(p.width))
    && (p.zone.East? ==> -1440 < p.zone.minutes < 1440)
  }

  function ZoneText(z: Zone): string
    requires z.East? ==> -1440 < z.minutes < 1440
  {
    match z
    case Utc => "Z"
    case East(m) =>
      var size := if m >= 0 then m else -m;
      [if m >= 0 then '+' else '-', Tens(size / 60), Units(size / 60), ':', Tens(size % 60), Units(size % 60)]
  }

  function FractionText(fraction: nat, width: nat): string {
    if width == 0 then "" else "." + ZeroPad(fraction, width)
  }

  /** Every spelling - any fraction of up to six digits, any zone - parses to the instant it denotes. */
  function Text(p: Spelling): (s: string)
    requires ValidSpelling(p)
    ensures Parse(s).Some? && Parse(s).value == Instant(p)
  {
    SpellingParses(p);
    DateTimeText(p.date) + FractionText(p.fraction, p.width) + ZoneText(p.zone)
  }

  lemma {:induction false} SpellingParses(p: Spelling)
    requires ValidSpelling(p)
    ensures var s := DateTimeText(p.date) + FractionText(p.fraction, p.width) + ZoneText(p.zone);
            Parse(s).Some? && Parse(s).value == Instant(p)
  {
    var date, fraction, zone := DateTimeText(p.date), FractionText(p.fraction, p.width), ZoneText(p.zone);
    TailParses(date, p.fraction, p.width, p.zone);
    DateTimeParses(p.date, fraction + zone);
    assert date + (fraction + zone) == date + fraction + zone;
  }

  function ZoneOffset(z: Zone): int { if z.East? then z.minutes * 60 else 0 }

  /** The instant a spelling denotes. */
  function Instant(p: Spelling): int
    requires ValidSpelling(p)
  {
    (SecondsOf(p.date) - ZoneOffset(p.zone)) * 1_000_000 + Shift(p.fraction, 6 - p.width)
  }

  /** `render_micros`: UTC with milliseconds. Reading the text back loses exactly the digits below the millisecond,
      before and after 1970. */
  function Render(micros: int): (s: string)
    requires FourDigitYear(micros / 1_000_000)
    ensures Parse(s).Some? && Parse(s).value == micros - micros % 1000
  {
    CutToMillis(micros);
    Text(MillisOf(micros / 1_000_000, micros % 1_000_000))
  }

  function MillisOf(secs: int, us: nat): (p: Spelling)
    requires FourDigitYear(secs) && us < 1_000_000
    ensures ValidSpelling(p) && Instant(p) == secs * 1_000_000 + us / 1000 * 1000
  {
    Powers();
    Shifts(us / 1000);
    Spelling(CivilOf(secs), 3, us / 1000, Utc)
  }

  /** The random choice in `fmt_ts`. */
  datatype Style = Ms | Us | Sec | Frac1 | Offset(hours: int)

  /** The style can be printed at second `secs`: both the UTC and the local year have four digits. */
  predicate Printable(secs: int, style: Style) {
    FourDigitYear(secs) && (style.Offset? ==> -23 <= style.hours <= 23 && FourDigitYear(secs + style.hours * 3600))
  }

  /** The spelling `fmt_ts` prints once its random style is chosen. */
  function SpellingOf(secs: int, us: nat, style: Style): (p: Spelling)
    requires Printable(secs, style) && us < 1_000_000
    ensures ValidSpelling(p)
    ensures Instant(p) == secs * 1_000_000 + us
  {
    Powers();
    Shifts(us); Shifts(us / 1000); Shifts(us / 100_000);
    if style.Offset? then
      Spelling(CivilOf(secs + style.hours * 3600), if us == 0 then 0 else 6, us, East(style.hours * 60))
    else
      var date := CivilOf(secs);
      if style.Sec? && us == 0 then Spelling(date, 0, 0, Utc)
      else if style.Sec? || style.Us? then Spelling(date, 6, us, Utc)
      else if style.Frac1? && us % 100_000 == 0 then Spelling(date, 1, us / 100_000, Utc)
      else if us % 1000 == 0 then Spelling(date, 3, us / 1000, Utc)
      else Spelling(date, 6, us, Utc)
  }

  /** Every spelling the scenario generator writes, in any style and zone, parses to the instant it spells. */
  function FmtTs(micros: int, style: Style): (s: string)
    requires Printable(micros / 1_000_000, style)
    ensures Parse(s).Some? && Parse(s).value == micros
  {
    DivMod(micros);
    FmtAt(micros / 1_000_000, micros % 1_000_000, style)
  }

  function FmtAt(secs: int, us: nat, style: Style): (s: string)
    requires Printable(secs, style) && us < 1_000_000
    ensures Parse(s).Some? && Parse(s).value == secs * 1_000_000 + us
  {
    Text(SpellingOf(secs, us, style))
  }

  lemma {:induction false} DivMod(micros: int)
    ensures micros / 1_000_000 * 1_000_000 + micros % 1_000_000 == micros
  {}

  lemma {:induction false} Powers()
    ensures Pow10(1) == 10 && Pow10(3) == 1000 && Pow10(6) == 1000000
  {
    assert Pow10(4) == 10 * Pow10(3);
    assert Pow10(6) == 10 * Pow10(5);
  }

  lemma {:induction false} Shifts(n: nat)
    ensures Shift(n, 0) == n && Shift(n, 3) == 1000 * n && Shift(n, 5) == 100_000 * n
  {
    assert Shift(n, 3) == Shift(100 * n, 1);
    assert Shift(n, 5) == Shift(100 * n, 3) == Shift(10000 * n, 1);
  }

  // ------------------------------------------------------------------ round trips

  lemma {:induction false} DigitRunStops(a: string, d: string, z: string, k: nat)
    requires AllDigits(d) && k <= |d|
    requires |z| > 0 && !IsDigit(z[0])
    ensures DigitRun(a + d + z, |a| + k) == |d| - k
    decreases |d| - k
  {
    if k < |d| { DigitRunStops(a, d, z, k + 1); }
  }

  lemma {:induction false} ZoneParses(a: string, z: Zone)
    requires z.East? ==> -1440 < z.minutes < 1440
    ensures |ZoneText(z)| > 0 && !IsDigit(ZoneText(z)[0]) && ZoneText(z)[0] != '.'
    ensures ZoneAt(a + ZoneText(z), |a|).Some? && ZoneAt(a + ZoneText(z), |a|).value == ZoneOffset(z)
  {
    if z.East? {
      var size := if z.minutes >= 0 then z.minutes else -z.minutes;
      var t := a + ZoneText(z);
      assert TwoAt(t, |a| + 1) == size / 60 && TwoAt(t, |a| + 4) == size % 60;
    }
  }

  lemma {:induction false} FractionParses(p: string, d: string, zone: string, offset: int)
    requires |p| > 0 && p[|p| - 1] == '.'
    requires AllDigits(d) && 1 <= |d| <= 6
    requires |zone| > 0 && !IsDigit(zone[0])
    requires ZoneAt(p + d + zone, |p + d|).Some? && ZoneAt(p + d + zone, |p + d|).value == offset
    ensures var t := TailAt(p + d + zone, |p| - 1);
            t.Some? && t.value.0 == Shift(NumberAt(d, 0, |d|), 6 - |d|) && t.value.1 == offset
  {
    DigitRunStops(p, d, zone, 0);
    NumberInside(p, d, zone, |d|);
  }

  lemma {:induction false} PaddedParses(p: string, fraction: nat, width: nat, zone: string, offset: int)
    requires |p| > 0 && p[|p| - 1] == '.'
    requires 1 <= width <= 6 && fraction < Pow10(width)
    requires |zone| > 0 && !IsDigit(zone[0])
    requires var t := p + ZeroPad(fraction, width);
             ZoneAt(t + zone, |t|).Some? && ZoneAt(t + zone, |t|).value == offset
    ensures var t := TailAt(p + ZeroPad(fraction, width) + zone, |p| - 1);
            t.Some? && t.value.0 == Shift(fraction, 6 - width) && t.value.1 == offset
  {
    var d := ZeroPad(fraction, width);
    LengthOfZeroPad(fraction, width);
    NumberOfZeroPad(fraction, width);
    FractionParses(p, d, zone, offset);
  }

  lemma {:induction false} TailParses(a: string, fraction: nat, width: nat, z: Zone)
    requires z.East? ==> -1440 < z.minutes < 1440
    requires width <= 6 && (if width == 0 then fraction == 0 else fraction < Pow10(width))
    ensures var t := TailAt(a + FractionText(fraction, width) + ZoneText(z), |a|);
            t.Some? && t.value.0 == Shift(fraction, 6 - width) && t.value.1 == ZoneOffset(z)
  {
    var s := a + FractionText(fraction, width);
    ZoneParses(s, z);
    if width == 0 {
      assert s == a;
      ShiftZero(6);
    } else {
      assert s == a + "." + ZeroPad(fraction, width);
      PaddedParses(a + ".", fraction, width, ZoneText(z), ZoneOffset(z));
    }
  }

  lemma {:induction false} ShiftZero(k: nat)
    ensures Shift(0, k) == 0
  {
    if k > 0 { ShiftZero(k - 1); }
  }

  lemma {:induction false} DateTimeParses(c: Civil, tail: string)
    requires ValidCivil(c)
    ensures DateTimeShape(DateTimeText(c) + tail) && CivilFromText(DateTimeText(c) + tail) == c
  {
    var s := DateTimeText(c);
    assert CivilFromText(s + tail) == CivilFromText(s);
  }

  lemma {:induction false} CutToMillis(micros: int)
    ensures micros / 1_000_000 * 1_000_000 + micros % 1_000_000 / 1000 * 1000 == micros - micros % 1000
  {
    var r := micros % 1_000_000;
    assert micros == micros / 1_000_000 * 1_000_000 + r;
    var k := 1000 * (micros / 1_000_000) + r / 1000;
    assert micros == 1000 * k + r % 1000;
  }

  lemma {:induction false} YearsNonNegative(y: int)
    requires y >= 1
    ensures DaysBeforeYear(y) >= 0
    decreases y
  {
    if y > 1 { YearsNonNegative(y - 1); }
  }

  lemma {:induction false} MonthsNonNegative(y: int, m: int)
    requires 1 <= m <= 13
    ensures DaysBeforeMonth(y, m) >= 0
    decreases m
  {
    if m > 1 { MonthsNonNegative(y, m - 1); }
  }

  /** Every accepted instant fits a signed 64-bit count of microseconds from below. */
  lemma {:induction false} ParseBounds(s: string)
    requires Parse(s).Some?
    ensures Parse(s).value >= -0x8000_0000_0000_0000
  {
    var c := CivilFromText(s);
    YearsNonNegative(c.year);
    MonthsNonNegative(c.year, c.month);
    assert SecondsOf(c) >= -EPOCH_DAY * 86400;
    ZoneBounds(s, if s[19] == '.' then 20 + DigitRun(s, 20) else 19);
  }

  lemma {:induction false} ZoneBounds(s: string, i: nat)
    requires ZoneAt(s, i).Some?
    ensures -86400 < ZoneAt(s, i).value < 86400
  {}
}
