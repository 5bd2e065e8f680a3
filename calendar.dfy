/**
 * UTC calendar instants and the formattings the server derives from them:
 * ISO-8601 strings (Date.prototype.toISOString), the HTTP date
 * (Date.prototype.toUTCString), milliseconds since the epoch (getTime) and the
 * moment formats 'YYYY', 'YYYY-MM', 'YYYY-MM-DD' and 'YYYY-MM-DDTHH' that name
 * aggregate buckets, plus the "+1 unit" steps of moment's `add` in UTC mode.
 */
module Calendar {

  /** A UTC instant to the millisecond, field by field. */
  datatype Instant = Instant(year: int, month: int, day: int, hour: int, minute: int, second: int, milli: int)

  predicate IsLeapYear(y: int) {
    y % 4 == 0 && (y % 100 != 0 || y % 400 == 0)
  }

  function DaysInMonth(y: int, m: int): (n: int)
    requires 1 <= m <= 12
    ensures 28 <= n <= 31
    ensures n == 29 <==> m == 2 && IsLeapYear(y)
  {
    if m == 2 then (if IsLeapYear(y) then 29 else 28)
    else if m == 4 || m == 6 || m == 9 || m == 11 then 30
    else 31
  }

  /** The fields name a real date and time of day. */
  predicate IsDate(t: Instant) {
    && 1 <= t.month <= 12
    && 1 <= t.day <= DaysInMonth(t.year, t.month)
    && 0 <= t.hour < 24 && 0 <= t.minute < 60 && 0 <= t.second < 60 && 0 <= t.milli < 1000
  }

  /**
   * The timestamps this model admits for observations and queries: real dates
   * whose year has four digits, so that moment's 'YYYY' and the plain year
   * number print the same.
   */
  predicate Valid(t: Instant) {
    IsDate(t) && 1000 <= t.year <= 9999
  }

  // ---------------------------------------------------------------- digits

  predicate IsDigits(s: string) {
    forall i :: 0 <= i < |s| ==> '0' <= s[i] <= '9'
  }

  function DigitChar(d: nat): (c: char)
    requires d < 10
    ensures '0' <= c <= '9'
  {
    ('0' as int + d) as char
  }

  /** The decimal numeral of `n`, as JavaScript's number-to-string gives it. */
  function NatToString(n: nat): (s: string)
    ensures 1 <= |s| && IsDigits(s)
  {
    if n < 10 then [DigitChar(n)] else NatToString(n / 10) + [DigitChar(n % 10)]
  }

  /** The numeral of `n` with leading zeros up to `width` characters. */
  function Pad(n: nat, width: nat): (s: string)
    ensures width <= |s| && IsDigits(s)
  {
    var digits := NatToString(n);
    if |digits| >= width then digits else seq(width - |digits|, _ => '0') + digits
  }

  /** The last `width` decimal digits of `n`, leading zeros kept. */
  function Fixed(n: nat, width: nat): (s: string)
    ensures |s| == width && IsDigits(s)
  {
    if width == 0 then [] else Fixed(n / 10, width - 1) + [DigitChar(n % 10)]
  }

  function Pow10(k: nat): (p: nat)
    ensures p >= 1
  {
    if k == 0 then 1 else 10 * Pow10(k - 1)
  }

  /** A number of exactly `w` digits prints as its `w`-digit field: no padding is needed. */
  lemma {:induction false} NumeralIsFixed(n: nat, w: nat)
    requires 1 <= w && Pow10(w - 1) <= n < Pow10(w)
    ensures NatToString(n) == Fixed(n, w)
  {
    if w == 1 {
      assert Fixed(n / 10, 0) == [];
    } else {
      NumeralIsFixed(n / 10, w - 1);
    }
  }

  /** A four-digit year prints the same with or without padding. */
  lemma NumeralOfYear(y: nat)
    requires 1000 <= y <= 9999
    ensures NatToString(y) == Digits4(y)
  {
    assert Pow10(3) == 1000 && Pow10(4) == 10000;
    NumeralIsFixed(y, 4);
  }

  /** Digits hold no '_'. */
  lemma DigitsHaveNoUnderscore(s: string)
    requires IsDigits(s)
    ensures '_' !in s
  {
  }

  /** Two-, three- and four-digit fields with leading zeros. */
  function Digits2(n: nat): (s: string)
    requires n < 100
  {
    Fixed(n, 2)
  }

  function Digits3(n: nat): (s: string)
    requires n < 1000
  {
    Fixed(n, 3)
  }

  function Digits4(n: nat): (s: string)
    requires n < 10000
  {
    Fixed(n, 4)
  }

  // ------------------------------------------------------------ ISO-8601

  /** The year part of toISOString: four digits, or a signed six-digit form. */
  function IsoYear(y: int): (s: string)
  {
    if 0 <= y <= 9999 then Digits4(y)
    else if y > 9999 then "+" + Pad(y, 6)
    else "-" + Pad(-y, 6)
  }

  /** Date.prototype.toISOString: `YYYY-MM-DDTHH:mm:ss.sssZ`. */
  function Iso(t: Instant): (s: string)
    requires IsDate(t)
  {
    IsoYear(t.year) + "-" + Digits2(t.month) + "-" + Digits2(t.day) + "T" + Digits2(t.hour)
    + ":" + Digits2(t.minute) + ":" + Digits2(t.second) + "." + Digits3(t.milli) + "Z"
  }

  /** Digits and signs only: no lower-case 't' and no '_'. */
  predicate NumeralChar(c: char) {
    '0' <= c <= '9' || c == '+' || c == '-'
  }

  lemma IsoYearChars(y: int)
    ensures forall i :: 0 <= i < |IsoYear(y)| ==> NumeralChar(IsoYear(y)[i])
  {
  }

  /** An ISO-8601 text holds neither a lower-case 't' nor a '_'. */
  lemma IsoChars(t: Instant)
    requires IsDate(t)
    ensures 't' !in Iso(t) && '_' !in Iso(t)
  {
    IsoYearChars(t.year);
    var s := Iso(t);
    forall i | 0 <= i < |s|
      ensures s[i] != 't' && s[i] != '_'
    {
    }
  }

  // ------------------------------------------------------ bucket names

  /** moment format 'YYYY'. */
  function YearKey(t: Instant): (s: string)
    requires Valid(t)
    ensures IsDigits(s)
  {
    Digits4(t.year)
  }

  /** moment format 'YYYY-MM'. */
  function MonthKey(t: Instant): string
    requires Valid(t)
  {
    YearKey(t) + "-" + Digits2(t.month)
  }

  /** moment format 'YYYY-MM-DD'. */
  function DayKey(t: Instant): string
    requires Valid(t)
  {
    MonthKey(t) + "-" + Digits2(t.day)
  }

  /** moment format 'YYYY-MM-DDTHH'. */
  function HourKey(t: Instant): string
    requires Valid(t)
  {
    DayKey(t) + "T" + Digits2(t.hour)
  }

  // ------------------------------------------------ bucket boundaries

  function StartOfHour(t: Instant): Instant {
    t.(minute := 0, second := 0, milli := 0)
  }

  function StartOfDay(t: Instant): Instant {
    t.(hour := 0, minute := 0, second := 0, milli := 0)
  }

  function StartOfMonth(t: Instant): Instant {
    t.(day := 1, hour := 0, minute := 0, second := 0, milli := 0)
  }

  function StartOfYear(t: Instant): Instant {
    t.(month := 1, day := 1, hour := 0, minute := 0, second := 0, milli := 0)
  }

  function Min(a: int, b: int): int {
    if a <= b then a else b
  }

  /** moment `add(1, 'd')`: the same time on the next calendar day. */
  function AddOneDay(t: Instant): (r: Instant)
    requires IsDate(t)
    ensures IsDate(r)
    ensures r.hour == t.hour && r.minute == t.minute && r.second == t.second && r.milli == t.milli
  {
    if t.day < DaysInMonth(t.year, t.month) then t.(day := t.day + 1)
    else if t.month < 12 then t.(month := t.month + 1, day := 1)
    else t.(year := t.year + 1, month := 1, day := 1)
  }

  /** moment `add(1, 'h')` in UTC mode. */
  function AddOneHour(t: Instant): (r: Instant)
    requires IsDate(t)
    ensures IsDate(r)
    ensures r.hour == (t.hour + 1) % 24 && r.minute == t.minute
  {
    if t.hour < 23 then t.(hour := t.hour + 1) else AddOneDay(t).(hour := 0)
  }

  /** moment `add(1, 'M')`: next month, the day clamped to that month's length. */
  function AddOneMonth(t: Instant): (r: Instant)
    requires IsDate(t)
    ensures IsDate(r)
    ensures r.month == t.month % 12 + 1
  {
    var y := if t.month == 12 then t.year + 1 else t.year;
    var m := if t.month == 12 then 1 else t.month + 1;
    t.(year := y, month := m, day := Min(t.day, DaysInMonth(y, m)))
  }

  /** moment `add(1, 'y')`: next year, 29 February clamped to the 28th. */
  function AddOneYear(t: Instant): (r: Instant)
    requires IsDate(t)
    ensures IsDate(r)
    ensures r.year == t.year + 1 && r.month == t.month
  {
    t.(year := t.year + 1, day := Min(t.day, DaysInMonth(t.year + 1, t.month)))
  }

  // ------------------------------------------------ epoch and HTTP date

  /** Days from 1970-01-01 to the given proleptic Gregorian date. */
  function DaysFromCivil(y: int, m: int, d: int): int
    requires 1 <= m <= 12
  {
    var y' := if m <= 2 then y - 1 else y;
    var era := y' / 400;
    var yoe := y' - era * 400;
    var mp := if m > 2 then m - 3 else m + 9;
    var doy := (153 * mp + 2) / 5 + d - 1;
    var doe := yoe * 365 + yoe / 4 - yoe / 100 + doy;
    era * 146097 + doe - 719468
  }

  /** Date.prototype.getTime: milliseconds since the epoch. */
  function EpochMillis(t: Instant): int
    requires IsDate(t)
  {
    (((DaysFromCivil(t.year, t.month, t.day) * 24 + t.hour) * 60 + t.minute) * 60 + t.second) * 1000 + t.milli
  }

  function WeekdayName(t: Instant): string
    requires IsDate(t)
  {
    // 1970-01-01 was a Thursday; index 0 is Sunday
    ["Sun", "Mon", "Tue", "Wed", "Thu", "Fri", "Sat"][(DaysFromCivil(t.year, t.month, t.day) + 4) % 7]
  }

  function MonthName(m: int): string
    requires 1 <= m <= 12
  {
    ["Jan", "Feb", "Mar", "Apr", "May", "Jun", "Jul", "Aug", "Sep", "Oct", "Nov", "Dec"][m - 1]
  }

  /** Date.prototype.toUTCString: `Www, DD Mon YYYY HH:mm:ss GMT`. */
  function UtcString(t: Instant): string
    requires Valid(t)
  {
    WeekdayName(t) + ", " + Digits2(t.day) + " " + MonthName(t.month) + " " + Digits4(t.year) + " "
    + Digits2(t.hour) + ":" + Digits2(t.minute) + ":" + Digits2(t.second) + " GMT"
  }
}
