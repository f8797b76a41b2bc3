/** The values that flow through the gateway: handler parameters, handler
    results and response bodies.

    Besides the JSON kinds (null, booleans, integers, strings, lists and
    string-keyed dicts) a handler may return two kinds that JSON does not
    have: dates and datetimes, and objects that expose their attributes
    through `__dict__`. The serializer removes both.
 */
module Json {
  import opened Dicts

  /** A `datetime.date` or a naive `datetime.datetime`. */
  datatype TimeValue =
    | Date(year: nat, month: nat, day: nat)
    | DateTime(year: nat, month: nat, day: nat, hour: nat, minute: nat, second: nat, microsecond: nat)

  datatype Value =
    | Null
    | Bool(b: bool)
    | Int(i: int)
    | Str(s: string)
    | List(items: seq<Value>)
    | Dict(entries: Items<Value>)
    | Time(t: TimeValue)
    /** An object whose `vars()` are these attribute items. */
    | Object(entries: Items<Value>)
  {
    /** None, a bool, an int or a str: the values the serializer passes through. */
    predicate IsPrimitive() {
      Null? || Bool? || Int? || Str?
    }
  }

  /** A value built from JSON kinds only, at every depth: no date and no
      attribute object anywhere inside it. */
  predicate Plain(v: Value)
    decreases v
  {
    match v
    case Time(_) => false
    case Object(_) => false
    case List(xs) => forall i :: 0 <= i < |xs| ==> Plain(xs[i])
    case Dict(es) => forall i :: 0 <= i < |es| ==> Plain(es[i].1)
    case _ => true
  }

  /** Python's truth value of a value, as `if v:` tests it: exactly None,
      False, 0, the empty string, the empty list and the empty dict are
      false. */
  predicate Truthy(v: Value)
    ensures !Truthy(v) <==> v in {Null, Bool(false), Int(0), Str(""), List([]), Dict([])}
  {
    match v
    case Null => false
    case Bool(b) => b
    case Int(i) => i != 0
    case Str(s) => s != ""
    case List(xs) => xs != []
    case Dict(es) => es != []
    case Time(_) => true
    case Object(_) => true
  }

  // ---------------------------------------------------------------------
  // Decimal digits, as `'%0Nd' % n` writes them
  // ---------------------------------------------------------------------

  predicate IsDigits(s: string) {
    forall i :: 0 <= i < |s| ==> '0' <= s[i] <= '9'
  }

  function DigitChar(d: nat): (c: char)
    requires d < 10
    ensures '0' <= c <= '9' && (c as int) - ('0' as int) == d
  {
    (('0' as int) + d) as char
  }

  /** The number a string of decimal digits denotes. */
  function DigitsValue(s: string): nat {
    if s == [] then 0
    else DigitsValue(s[..|s| - 1]) * 10 + (if '0' <= s[|s| - 1] <= '9' then (s[|s| - 1] as int) - ('0' as int) else 0)
  }

  function Pow10(w: nat): (p: nat)
    ensures p >= 1
  {
    if w == 0 then 1 else 10 * Pow10(w - 1)
  }

  /** `str(n)` for a non-negative integer. */
  function Decimal(n: nat): (s: string)
    ensures 1 <= |s| && IsDigits(s)
    ensures DigitsValue(s) == n
    decreases n
  {
    if n < 10 then [DigitChar(n)]
    else
      var s := Decimal(n / 10) + [DigitChar(n % 10)];
      assert s[..|s| - 1] == Decimal(n / 10);
      s
  }

  lemma {:induction false} DecimalFits(n: nat, w: nat)
    requires 1 <= w && n < Pow10(w)
    ensures |Decimal(n)| <= w
    decreases n
  {
    if n >= 10 {
      assert w >= 2;
      assert n / 10 < Pow10(w - 1);
      DecimalFits(n / 10, w - 1);
    }
  }

  function Zeros(k: nat): (z: string)
    ensures |z| == k && IsDigits(z)
  {
    seq(k, i => '0')
  }

  lemma {:induction false} ZerosAreZero(k: nat)
    ensures DigitsValue(Zeros(k)) == 0
  {
    if k > 0 {
      assert Zeros(k)[..k - 1] == Zeros(k - 1);
      ZerosAreZero(k - 1);
    }
  }

  lemma {:induction false} LeadingZerosAddNothing(k: nat, s: string)
    ensures DigitsValue(Zeros(k) + s) == DigitsValue(s)
    decreases |s|
  {
    if s == [] {
      assert Zeros(k) + s == Zeros(k);
      ZerosAreZero(k);
    } else {
      var z := Zeros(k) + s;
      assert z[..|z| - 1] == Zeros(k) + s[..|s| - 1];
      LeadingZerosAddNothing(k, s[..|s| - 1]);
    }
  }

  /** `'%0{width}d' % n`: the digits of `n`, left-padded with zeros to at
      least `width` characters. */
  function ZeroPad(n: nat, width: nat): (s: string)
    ensures IsDigits(s) && DigitsValue(s) == n
    ensures 1 <= width && n < Pow10(width) ==> |s| == width
  {
    var d := Decimal(n);
    if |d| >= width then
      assert 1 <= width && n < Pow10(width) ==> |d| == width by {
        if 1 <= width && n < Pow10(width) { DecimalFits(n, width); }
      }
      d
    else
      LeadingZerosAddNothing(width - |d|, d);
      Zeros(width - |d|) + d
  }

  // ---------------------------------------------------------------------
  // isoformat()
  // ---------------------------------------------------------------------

  predicate IsLeapYear(y: nat) {
    (y % 4 == 0 && y % 100 != 0) || y % 400 == 0
  }

  function DaysInMonth(y: nat, m: nat): nat
    requires 1 <= m <= 12
  {
    if m == 2 then (if IsLeapYear(y) then 29 else 28)
    else if m == 4 || m == 6 || m == 9 || m == 11 then 30
    else 31
  }

  /** The ranges Python's `date` and `datetime` constructors enforce. */
  predicate ValidTime(t: TimeValue) {
    && 1 <= t.year <= 9999
    && 1 <= t.month <= 12
    && 1 <= t.day <= DaysInMonth(t.year, t.month)
    && (t.DateTime? ==> t.hour < 24 && t.minute < 60 && t.second < 60 && t.microsecond < 1000000)
  }

  /** `date.isoformat()`: `YYYY-MM-DD`. */
  function DateIso(y: nat, m: nat, d: nat): string {
    ZeroPad(y, 4) + "-" + ZeroPad(m, 2) + "-" + ZeroPad(d, 2)
  }

  /** `time.isoformat()`: `HH:MM:SS`, then `.ffffff` when the microseconds
      are not zero. */
  function TimeIso(hh: nat, mm: nat, ss: nat, us: nat): string {
    ZeroPad(hh, 2) + ":" + ZeroPad(mm, 2) + ":" + ZeroPad(ss, 2) + Fraction(us)
  }

  /** The `.ffffff` part, left out when the microseconds are zero. */
  function Fraction(us: nat): string {
    if us == 0 then "" else "." + ZeroPad(us, 6)
  }

  /** `t.isoformat()`: the date's isoformat, and for a datetime a `T` and
      the isoformat of its time of day. */
  function IsoFormat(t: TimeValue): (s: string)
    ensures var date := DateIso(t.year, t.month, t.day);
      && |date| <= |s| && s[..|date|] == date
      && (t.Date? ==> s == date)
      && (t.DateTime? ==> s[|date|..] == "T" + TimeIso(t.hour, t.minute, t.second, t.microsecond))
  {
    match t
    case Date(y, m, d) => DateIso(y, m, d)
    case DateTime(y, m, d, hh, mm, ss, us) =>
      JoinSlices(DateIso(y, m, d), TimeIso(hh, mm, ss, us));
      DateIso(y, m, d) + "T" + TimeIso(hh, mm, ss, us)
  }

  lemma JoinSlices(date: string, time: string)
    ensures var s := date + "T" + time; |date| <= |s| && s[..|date|] == date && s[|date|..] == "T" + time
  {
  }

  lemma DateSlices(ys: string, ms: string, ds: string)
    requires |ys| == 4 && |ms| == 2 && |ds| == 2
    ensures var s := ys + "-" + ms + "-" + ds;
      |s| == 10 && s[..4] == ys && s[5..7] == ms && s[8..10] == ds && s[4] == '-' && s[7] == '-'
  {
  }

  lemma ClockSlices(hs: string, ms: string, ss: string, tail: string)
    requires |hs| == 2 && |ms| == 2 && |ss| == 2
    ensures var s := hs + ":" + ms + ":" + ss + tail;
      && |s| == 8 + |tail| && s[2] == ':' && s[5] == ':'
      && s[..2] == hs && s[3..5] == ms && s[6..8] == ss && s[8..] == tail
      && (|tail| == 7 ==> s[8] == tail[0] && s[9..15] == tail[1..])
  {
  }

  lemma FractionLayout(us: nat)
    ensures var f := Fraction(us);
      && (us == 0 ==> f == "")
      && (us != 0 ==> |f| == 1 + |ZeroPad(us, 6)| && f[0] == '.' && f[1..] == ZeroPad(us, 6))
  {
    if us != 0 {
      var fs := ZeroPad(us, 6);
      assert ("." + fs)[1..] == fs;
    }
  }

  /** Where a datetime's time fields land once the date and the `T` are
      put in front of them. */
  lemma DateTimeSlices(date: string, time: string)
    requires |date| == 10 && (|time| == 8 || |time| == 15)
    ensures var s := date + "T" + time;
      && |s| == 11 + |time| && s[..10] == date && s[10] == 'T'
      && s[..4] == date[..4] && s[5..7] == date[5..7] && s[8..10] == date[8..10]
      && s[4] == date[4] && s[7] == date[7]
      && s[11..13] == time[..2] && s[14..16] == time[3..5] && s[17..19] == time[6..8]
      && s[13] == time[2] && s[16] == time[5]
      && (|time| == 15 ==> s[19] == time[8] && s[20..26] == time[9..15])
  {
  }

  lemma DateIsoLayout(y: nat, m: nat, d: nat)
    requires 1 <= y <= 9999 && 1 <= m <= 12 && 1 <= d <= 31
    ensures var s := DateIso(y, m, d);
      && |s| == 10 && s[4] == '-' && s[7] == '-'
      && s[..4] == ZeroPad(y, 4) && s[5..7] == ZeroPad(m, 2) && s[8..10] == ZeroPad(d, 2)
  {
    assert Pow10(2) == 100 && Pow10(4) == 10000;
    DateSlices(ZeroPad(y, 4), ZeroPad(m, 2), ZeroPad(d, 2));
  }

  lemma TimeIsoLayout(hh: nat, mm: nat, ss: nat, us: nat)
    requires hh < 24 && mm < 60 && ss < 60 && us < 1000000
    ensures var s := TimeIso(hh, mm, ss, us);
      && |s| == (if us == 0 then 8 else 15)
      && s[2] == ':' && s[5] == ':'
      && s[..2] == ZeroPad(hh, 2) && s[3..5] == ZeroPad(mm, 2) && s[6..8] == ZeroPad(ss, 2)
      && (us != 0 ==> s[8] == '.' && s[9..15] == ZeroPad(us, 6))
  {
    assert Pow10(2) == 100 && Pow10(6) == 1000000;
    var hs, ms, secs, tail := ZeroPad(hh, 2), ZeroPad(mm, 2), ZeroPad(ss, 2), Fraction(us);
    assert |hs| == 2 && |ms| == 2 && |secs| == 2;
    FractionLayout(us);
    assert us != 0 ==> |tail| == 7;
    ClockSlices(hs, ms, secs, tail);
    assert TimeIso(hh, mm, ss, us) == hs + ":" + ms + ":" + secs + tail;
  }

  /** Where each field of a valid date or datetime sits in its isoformat
      string, and that it can be read back from there. */
  lemma IsoFormatLayout(t: TimeValue)
    requires ValidTime(t)
    ensures var s := IsoFormat(t);
      && |s| == (if t.Date? then 10 else if t.microsecond == 0 then 19 else 26)
      && s[4] == '-' && s[7] == '-'
      && DigitsValue(s[..4]) == t.year && DigitsValue(s[5..7]) == t.month && DigitsValue(s[8..10]) == t.day
      && (t.DateTime? ==>
            && s[10] == 'T' && s[13] == ':' && s[16] == ':'
            && DigitsValue(s[11..13]) == t.hour
            && DigitsValue(s[14..16]) == t.minute
            && DigitsValue(s[17..19]) == t.second
            && (t.microsecond != 0 ==> s[19] == '.' && DigitsValue(s[20..26]) == t.microsecond))
  {
    var date := DateIso(t.year, t.month, t.day);
    assert DaysInMonth(t.year, t.month) <= 31;
    DateIsoLayout(t.year, t.month, t.day);
    if t.DateTime? {
      var time := TimeIso(t.hour, t.minute, t.second, t.microsecond);
      TimeIsoLayout(t.hour, t.minute, t.second, t.microsecond);
      DateTimeSlices(date, time);
      var s := IsoFormat(t);
      assert s[11..13] == ZeroPad(t.hour, 2) && s[14..16] == ZeroPad(t.minute, 2) && s[17..19] == ZeroPad(t.second, 2);
      assert t.microsecond != 0 ==> s[20..26] == ZeroPad(t.microsecond, 6);
    }
  }

  /** Two valid dates or datetimes with the same isoformat string are the
      same value. */
  lemma IsoFormatInjective(a: TimeValue, b: TimeValue)
    requires ValidTime(a) && ValidTime(b)
    requires IsoFormat(a) == IsoFormat(b)
    ensures a == b
  {
    IsoFormatLayout(a);
    IsoFormatLayout(b);
  }
}
