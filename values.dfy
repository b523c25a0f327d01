/**
 * Scalar values of the system: UUIDs, calendar dates and timestamps (with
 * their ISO-8601 text forms), and the JSON-like `Value` that audit
 * snapshots, error details and response dumps are made of.
 */
module Values {
  import opened Wrappers

  /** A UUID, identified with its canonical text form (`str(uuid)`). */
  datatype Uuid = Uuid(canonical: string)

  /** Year, month and day, not yet known to name a real day. */
  datatype CalendarDate = CalendarDate(year: int, month: int, day: int)

  /** A `datetime.date`: only real days of the years 1 to 9999 exist. */
  type Date = d: CalendarDate | ValidDate(d) witness CalendarDate(1, 1, 1)

  /** A date with a time of day, not yet known to be in range. */
  datatype Timestamp = Timestamp(date: Date, hour: int, minute: int, second: int, microsecond: int)

  /** A naive `datetime.datetime`. */
  type DateTime = t: Timestamp | ValidDateTime(t) witness Timestamp(CalendarDate(1, 1, 1), 0, 0, 0, 0)

  predicate IsLeapYear(y: int)
  {
    y % 4 == 0 && (y % 100 != 0 || y % 400 == 0)
  }

  function DaysInMonth(y: int, m: int): (r: int)
    requires 1 <= m <= 12
    ensures 28 <= r <= 31
    ensures m == 2 ==> (r == 29 <==> IsLeapYear(y))
  {
    if m == 2 then (if IsLeapYear(y) then 29 else 28)
    else if m == 4 || m == 6 || m == 9 || m == 11 then 30
    else 31
  }

  /** A date Python can represent: years 1 to 9999. */
  predicate ValidDate(d: CalendarDate)
  {
    1 <= d.year <= 9999 && 1 <= d.month <= 12 && 1 <= d.day <= DaysInMonth(d.year, d.month)
  }

  predicate ValidDateTime(t: Timestamp)
  {
    && 0 <= t.hour < 24 && 0 <= t.minute < 60 && 0 <= t.second < 60
    && 0 <= t.microsecond < 1000000
  }

  /** Calendar order: `a < b` on dates. */
  predicate DateBefore(a: Date, b: Date)
  {
    a.year < b.year
    || (a.year == b.year && (a.month < b.month || (a.month == b.month && a.day < b.day)))
  }

  /** Time order: `a < b` on datetimes. */
  predicate DateTimeBefore(a: DateTime, b: DateTime)
  {
    DateBefore(a.date, b.date)
    || (a.date == b.date
        && (a.hour < b.hour
            || (a.hour == b.hour
                && (a.minute < b.minute
                    || (a.minute == b.minute
                        && (a.second < b.second
                            || (a.second == b.second && a.microsecond < b.microsecond)))))))
  }

  /** `<` on datetimes is a strict total order. */
  lemma DateTimeBeforeStrictTotal(a: DateTime, b: DateTime, c: DateTime)
    ensures !DateTimeBefore(a, a)
    ensures DateTimeBefore(a, b) ==> !DateTimeBefore(b, a)
    ensures a != b ==> DateTimeBefore(a, b) || DateTimeBefore(b, a)
    ensures DateTimeBefore(a, b) && DateTimeBefore(b, c) ==> DateTimeBefore(a, c)
  {
  }

  /** `a >= b` on datetimes: the order of `ORDER BY ... DESC`. */
  predicate NotBefore(a: DateTime, b: DateTime)
  {
    !DateTimeBefore(a, b)
  }

  /** Any two datetimes are ordered by `>=`, and `>=` chains. */
  lemma NotBeforeTotalOrder(a: DateTime, b: DateTime, c: DateTime)
    ensures NotBefore(a, b) || NotBefore(b, a)
    ensures NotBefore(a, b) && NotBefore(b, c) ==> NotBefore(a, c)
  {
    DateTimeBeforeStrictTotal(a, b, c);
    DateTimeBeforeStrictTotal(a, c, b);
    DateTimeBeforeStrictTotal(b, a, c);
    DateTimeBeforeStrictTotal(b, c, a);
    DateTimeBeforeStrictTotal(c, a, b);
  }

  /**
   * The order of `ORDER BY d DESC` on a nullable date column in PostgreSQL,
   * where NULL sorts first: `a` may come before `b`.
   */
  predicate DateDescNullsFirst(a: Option<Date>, b: Option<Date>)
  {
    a.None? || (b.Some? && !DateBefore(a.value, b.value))
  }

  /** The descending, nulls-first order is total and transitive. */
  lemma DateDescNullsFirstTotalOrder(a: Option<Date>, b: Option<Date>, c: Option<Date>)
    ensures DateDescNullsFirst(a, b) || DateDescNullsFirst(b, a)
    ensures DateDescNullsFirst(a, b) && DateDescNullsFirst(b, c) ==> DateDescNullsFirst(a, c)
  {
  }

  /** `datetime.combine(d, time.min)`. */
  function Midnight(d: Date): (r: DateTime)
    ensures r.date == d
    ensures forall t: DateTime :: t.date == d ==> !DateTimeBefore(t, r)
  {
    Timestamp(d, 0, 0, 0, 0)
  }

  /** The first day of the month of `d` (`today.replace(day=1)`). */
  function FirstOfMonth(d: Date): (r: Date)
    ensures r.year == d.year && r.month == d.month && r.day == 1
    ensures !DateBefore(d, r)
  {
    CalendarDate(d.year, d.month, 1)
  }

  /**
   * `d + timedelta(days=n)`: the day after, `n` times over. Past the year
   * 9999 Python raises OverflowError, which is reported here as None.
   */
  function AddDays(d: Date, n: nat): (r: Option<Date>)
    ensures n == 0 ==> r == Some(d)
    ensures r.Some? && n > 0 ==> DateBefore(d, r.value)
    decreases n
  {
    var left := DaysInMonth(d.year, d.month) - d.day;
    if n <= left then var next: Date := CalendarDate(d.year, d.month, d.day + n); Some(next)
    else if d.month == 12 && d.year == 9999 then None
    else
      var first: Date := if d.month == 12 then CalendarDate(d.year + 1, 1, 1) else CalendarDate(d.year, d.month + 1, 1);
      AddDays(first, n - left - 1)
  }

  /** `t + timedelta(days=n)`: same time of day, `n` days later. */
  function AddDaysToDateTime(t: DateTime, n: nat): (r: Option<DateTime>)
    ensures r.Some? && n > 0 ==> DateTimeBefore(t, r.value)
    ensures r.Some? ==> r.value.hour == t.hour && r.value.minute == t.minute
                        && r.value.second == t.second && r.value.microsecond == t.microsecond
  {
    match AddDays(t.date, n)
    case None => None
    case Some(d) => var later: DateTime := t.(date := d); Some(later)
  }

  function DigitChar(n: nat): (c: char)
    requires n < 10
    ensures '0' <= c <= '9'
  {
    ['0', '1', '2', '3', '4', '5', '6', '7', '8', '9'][n]
  }

  predicate AllDigits(s: string)
  {
    forall i :: 0 <= i < |s| ==> '0' <= s[i] <= '9'
  }

  /** The decimal numeral of `n`, without leading zeros (`str(n)`). */
  function Decimal(n: nat): (r: string)
    ensures 1 <= |r| && AllDigits(r)
    decreases n
  {
    if n < 10 then [DigitChar(n)] else Decimal(n / 10) + [DigitChar(n % 10)]
  }

  /** `str(n)` for any integer. */
  function IntText(n: int): (r: string)
    ensures n >= 0 ==> r == Decimal(n)
    ensures n < 0 ==> r == "-" + Decimal(-n)
  {
    if n < 0 then "-" + Decimal(-n) else Decimal(n)
  }

  function Power10(w: nat): (r: nat)
    ensures r >= 1
  {
    if w == 0 then 1 else 10 * Power10(w - 1)
  }

  /** A numeral with fewer than `w + 1` digits for numbers below 10^w. */
  lemma {:induction false} DecimalLength(n: nat, w: nat)
    requires 1 <= w && n < Power10(w)
    ensures |Decimal(n)| <= w
  {
    assert Power10(1) == 10;
    if n >= 10 {
      DecimalLength(n / 10, w - 1);
    }
  }

  lemma DecimalLengthIf(n: nat, w: nat)
    ensures 1 <= w && n < Power10(w) ==> |Decimal(n)| <= w
  {
    if 1 <= w && n < Power10(w) {
      DecimalLength(n, w);
    }
  }

  function Zeros(k: nat): (r: string)
    ensures |r| == k && forall i :: 0 <= i < k ==> r[i] == '0'
  {
    seq(k, i => '0')
  }

  /** `'%0{w}d' % n`: the numeral, left-padded with zeros to width `w`. */
  function ZeroPad(n: nat, w: nat): (r: string)
    ensures AllDigits(r) && |r| >= w
    ensures 1 <= w && n < Power10(w) ==> |r| == w
  {
    var s := Decimal(n);
    DecimalLengthIf(n, w);
    if |s| >= w then s else Zeros(w - |s|) + s
  }

  /** The number a string of decimal digits denotes (`int(s)`). */
  function DigitsValue(s: string): nat
    requires AllDigits(s)
  {
    if s == [] then 0
    else DigitsValue(s[..|s| - 1]) * 10 + ((s[|s| - 1] as int) - ('0' as int))
  }

  lemma {:induction false} DecimalValue(n: nat)
    ensures DigitsValue(Decimal(n)) == n
  {
    if n >= 10 {
      var s := Decimal(n);
      assert s[..|s| - 1] == Decimal(n / 10);
      DecimalValue(n / 10);
    }
  }

  lemma {:induction false} LeadingZerosValue(k: nat, s: string)
    requires AllDigits(s)
    ensures DigitsValue(Zeros(k) + s) == DigitsValue(s)
    decreases |s|, k
  {
    var z := Zeros(k) + s;
    if s == [] {
      assert z == Zeros(k);
      if k > 0 {
        assert z[..|z| - 1] == Zeros(k - 1) + [];
        LeadingZerosValue(k - 1, []);
      }
    } else {
      assert z[..|z| - 1] == Zeros(k) + s[..|s| - 1];
      LeadingZerosValue(k, s[..|s| - 1]);
    }
  }

  /** Zero padding never changes the number written. */
  lemma ZeroPadValue(n: nat, w: nat)
    ensures DigitsValue(ZeroPad(n, w)) == n
  {
    DecimalValue(n);
    var s := Decimal(n);
    if |s| < w {
      assert ZeroPad(n, w) == Zeros(w - |s|) + s;
      LeadingZerosValue(w - |s|, s);
    } else {
      assert ZeroPad(n, w) == s;
    }
  }

  /** `date.isoformat()`: `YYYY-MM-DD`. */
  function IsoDate(d: Date): (r: string)
    ensures |r| == 10 && r[4] == '-' && r[7] == '-'
  {
    assert Power10(4) == 10000 && Power10(2) == 100;
    ZeroPad(d.year, 4) + "-" + ZeroPad(d.month, 2) + "-" + ZeroPad(d.day, 2)
  }

  /** `date.fromisoformat(s)` for the `YYYY-MM-DD` form; None where Python raises. */
  function ParseIsoDate(s: string): (r: Option<Date>)
  {
    if |s| == 10 && s[4] == '-' && s[7] == '-'
       && AllDigits(s[..4]) && AllDigits(s[5..7]) && AllDigits(s[8..])
    then
      var d := CalendarDate(DigitsValue(s[..4]), DigitsValue(s[5..7]), DigitsValue(s[8..]));
      if ValidDate(d) then var day: Date := d; Some(day) else None
    else None
  }

  /** An ISO date written into an audit snapshot reads back as the same date. */
  lemma IsoDateRoundTrip(d: Date)
    ensures ParseIsoDate(IsoDate(d)) == Some(d)
  {
    var s := IsoDate(d);
    assert Power10(4) == 10000 && Power10(2) == 100;
    assert s[..4] == ZeroPad(d.year, 4);
    assert s[5..7] == ZeroPad(d.month, 2);
    assert s[8..] == ZeroPad(d.day, 2);
    ZeroPadValue(d.year, 4);
    ZeroPadValue(d.month, 2);
    ZeroPadValue(d.day, 2);
  }

  /**
   * `datetime.isoformat()`: `YYYY-MM-DDTHH:MM:SS`, followed by `.ffffff`
   * only when the microsecond is not zero.
   */
  function IsoDateTime(t: DateTime): (r: string)
    ensures |r| == if t.microsecond == 0 then 19 else 26
    ensures r[..10] == IsoDate(t.date) && r[10] == 'T'
  {
    assert Power10(2) == 100 && Power10(6) == 1000000;
    var clock := ZeroPad(t.hour, 2) + ":" + ZeroPad(t.minute, 2) + ":" + ZeroPad(t.second, 2);
    var frac := if t.microsecond == 0 then "" else "." + ZeroPad(t.microsecond, 6);
    IsoDate(t.date) + "T" + clock + frac
  }

  /**
   * `strftime('%Y%m%d_%H%M%S')`: digits, one underscore, six digits of time
   * of day. The year is written without padding, as glibc writes it.
   */
  function CompactStamp(t: DateTime): (r: string)
    ensures |r| >= 12 && r[|r| - 7] == '_'
    ensures AllDigits(r[..|r| - 7]) && AllDigits(r[|r| - 6..])
    ensures r[|r| - 6..] == ZeroPad(t.hour, 2) + ZeroPad(t.minute, 2) + ZeroPad(t.second, 2)
  {
    assert Power10(2) == 100;
    var day := Decimal(t.date.year) + ZeroPad(t.date.month, 2) + ZeroPad(t.date.day, 2);
    var clock := ZeroPad(t.hour, 2) + ZeroPad(t.minute, 2) + ZeroPad(t.second, 2);
    var r := day + "_" + clock;
    assert r[..|r| - 7] == day && r[|r| - 6..] == clock;
    r
  }

  /**
   * A JSON-like value: what `model_dump()` produces and what JSONB columns
   * store. Dates, datetimes and UUIDs are Python objects until serialized.
   */
  datatype Value =
    | VNull
    | VBool(b: bool)
    | VInt(i: int)
    | VStr(s: string)
    | VDate(d: Date)
    | VDateTime(t: DateTime)
    | VUuid(u: Uuid)
    | VList(items: seq<Value>)
    | VDict(entries: map<string, Value>)

  /** A value JSON can hold as it is: no date, datetime or UUID anywhere inside. */
  predicate JsonSafe(v: Value)
  {
    match v
    case VDate(_) => false
    case VDateTime(_) => false
    case VUuid(_) => false
    case VList(items) => forall i :: 0 <= i < |items| ==> JsonSafe(items[i])
    case VDict(entries) => forall k :: k in entries ==> JsonSafe(entries[k])
    case _ => true
  }

  function OptStr(o: Option<string>): Value
  {
    match o
    case None => VNull
    case Some(s) => VStr(s)
  }

  function OptDate(o: Option<Date>): Value
  {
    match o
    case None => VNull
    case Some(d) => VDate(d)
  }

  function OptDateTime(o: Option<DateTime>): Value
  {
    match o
    case None => VNull
    case Some(t) => VDateTime(t)
  }

  function OptUuid(o: Option<Uuid>): Value
  {
    match o
    case None => VNull
    case Some(u) => VUuid(u)
  }

  function OptBool(o: Option<bool>): Value
  {
    match o
    case None => VNull
    case Some(b) => VBool(b)
  }

  function OptInt(o: Option<int>): Value
  {
    match o
    case None => VNull
    case Some(i) => VInt(i)
  }

  function StrList(s: seq<string>): (r: Value)
    ensures r.VList? && |r.items| == |s|
  {
    VList(seq(|s|, i requires 0 <= i < |s| => VStr(s[i])))
  }
}
