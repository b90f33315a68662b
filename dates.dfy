/**
 * Event dates. An operator types "DD.MM.YYYY HH:MM"; it is read with
 * datetime.strptime (botcaffe.py:362), re-emitted as "YYYY-MM-DD HH:MM:SS"
 * for storage (363), and read back and shown as "DD.MM.YYYY в HH:MM" when
 * events are listed (256).
 *
 * The grammar follows the field patterns strptime uses: day, month, hour and
 * minute are one or two ASCII digits, the year exactly four, separators are
 * the literal characters of the format; the values must then form a real
 * date (the constructor of datetime checks year 1..9999 and the days of the
 * month, Gregorian leap years included).
 */
module EventDates {
  import opened Wrappers
  import opened Collation

  datatype DateTime = DateTime(year: nat, month: nat, day: nat, hour: nat, minute: nat, second: nat)

  predicate IsLeapYear(year: nat)
  {
    year % 4 == 0 && (year % 100 != 0 || year % 400 == 0)
  }

  function DaysInMonth(year: nat, month: nat): (n: nat)
    requires 1 <= month <= 12
    ensures 28 <= n <= 31
  {
    if month == 2 then (if IsLeapYear(year) then 29 else 28)
    else if month == 4 || month == 6 || month == 9 || month == 11 then 30
    else 31
  }

  /** The values datetime accepts. */
  predicate ValidDateTime(dt: DateTime)
  {
    && 1 <= dt.year <= 9999
    && 1 <= dt.month <= 12
    && 1 <= dt.day <= DaysInMonth(dt.year, dt.month)
    && dt.hour <= 23
    && dt.minute <= 59
    && dt.second <= 59
  }

  // ---- Reading ----

  predicate IsDigit(c: char)
  {
    '0' <= c <= '9'
  }

  function DigitValue(c: char): (n: nat)
    requires IsDigit(c)
    ensures n < 10
  {
    c as int - '0' as int
  }

  /** One or two digits ended by sep: the field's value and what follows sep. */
  function Field(s: string, sep: char): (r: Option<(nat, string)>)
    ensures r.Some? ==> r.value.0 < 100 && |r.value.1| < |s|
  {
    if |s| >= 2 && IsDigit(s[0]) && s[1] == sep then
      Some((DigitValue(s[0]), s[2..]))
    else if |s| >= 3 && IsDigit(s[0]) && IsDigit(s[1]) && s[2] == sep then
      Some((10 * DigitValue(s[0]) + DigitValue(s[1]), s[3..]))
    else
      None
  }

  /** One or two digits that end the text. */
  function LastField(s: string): (r: Option<nat>)
    ensures r.Some? ==> r.value < 100
  {
    if |s| == 1 && IsDigit(s[0]) then Some(DigitValue(s[0]))
    else if |s| == 2 && IsDigit(s[0]) && IsDigit(s[1]) then Some(10 * DigitValue(s[0]) + DigitValue(s[1]))
    else None
  }

  /** Exactly four digits ended by sep. */
  function YearField(s: string, sep: char): (r: Option<(nat, string)>)
    ensures r.Some? ==> r.value.0 < 10000
  {
    if |s| >= 5 && IsDigit(s[0]) && IsDigit(s[1]) && IsDigit(s[2]) && IsDigit(s[3]) && s[4] == sep then
      Some((100 * (10 * DigitValue(s[0]) + DigitValue(s[1])) + (10 * DigitValue(s[2]) + DigitValue(s[3])), s[5..]))
    else
      None
  }

  /** The operator's "DD.MM.YYYY HH:MM"; seconds are 0 (botcaffe.py:362). */
  function ParseInput(s: string): (r: Option<DateTime>)
    ensures r.Some? ==> ValidDateTime(r.value) && r.value.second == 0
  {
    match Field(s, '.')
    case None => None
    case Some((day, s1)) =>
      match Field(s1, '.')
      case None => None
      case Some((month, s2)) =>
        match YearField(s2, ' ')
        case None => None
        case Some((year, s3)) =>
          match Field(s3, ':')
          case None => None
          case Some((hour, s4)) =>
            match LastField(s4)
            case None => None
            case Some(minute) =>
              var dt := DateTime(year, month, day, hour, minute, 0);
              if ValidDateTime(dt) then Some(dt) else None
  }

  /** The stored "YYYY-MM-DD HH:MM:SS" (botcaffe.py:256). */
  function ParseStored(s: string): (r: Option<DateTime>)
    ensures r.Some? ==> ValidDateTime(r.value)
  {
    match YearField(s, '-')
    case None => None
    case Some((year, s1)) =>
      match Field(s1, '-')
      case None => None
      case Some((month, s2)) =>
        match Field(s2, ' ')
        case None => None
        case Some((day, s3)) =>
          match Field(s3, ':')
          case None => None
          case Some((hour, s4)) =>
            match Field(s4, ':')
            case None => None
            case Some((minute, s5)) =>
              match LastField(s5)
              case None => None
              case Some(second) =>
                var dt := DateTime(year, month, day, hour, minute, second);
                if ValidDateTime(dt) then Some(dt) else None
  }

  // ---- Writing ----

  function DigitChar(n: nat): (c: char)
    requires n < 10
    ensures IsDigit(c) && DigitValue(c) == n
  {
    ('0' as int + n) as char
  }

  /** Two digits, zero padded. */
  function Pad2(n: nat): (s: string)
    requires n < 100
    ensures |s| == 2
  {
    [DigitChar(n / 10), DigitChar(n % 10)]
  }

  /** Four digits, zero padded. */
  function Pad4(n: nat): (s: string)
    requires n < 10000
    ensures |s| == 4
  {
    Pad2(n / 100) + Pad2(n % 100)
  }

  /** The operator's format "DD.MM.YYYY HH:MM", fully padded. */
  function InputText(dt: DateTime): string
    requires ValidDateTime(dt)
  {
    Pad2(dt.day) + ['.'] + (Pad2(dt.month) + ['.'] + (Pad4(dt.year) + [' '] +
      (Pad2(dt.hour) + [':'] + Pad2(dt.minute))))
  }

  /** The decimal value of a run of digits, most significant first. */
  function DigitsValue(s: string): nat
    requires forall i :: 0 <= i < |s| ==> IsDigit(s[i])
  {
    if s == [] then 0 else 10 * DigitsValue(s[..|s| - 1]) + DigitValue(s[|s| - 1])
  }

  /** One more digit on the right multiplies the value by ten and adds the digit. */
  lemma DigitsValueSnoc(s: string, c: char)
    requires forall i :: 0 <= i < |s| ==> IsDigit(s[i])
    requires IsDigit(c)
    ensures DigitsValue(s + [c]) == 10 * DigitsValue(s) + DigitValue(c)
  {
    assert (s + [c])[..|s|] == s;
  }

  /** Two padded digits read back as their number. */
  lemma Pad2Value(n: nat)
    requires n < 100
    ensures DigitsValue(Pad2(n)) == n
  {
    DigitsValueSnoc([], DigitChar(n / 10));
    assert [] + [DigitChar(n / 10)] == [DigitChar(n / 10)];
    DigitsValueSnoc([DigitChar(n / 10)], DigitChar(n % 10));
    assert Pad2(n) == [DigitChar(n / 10)] + [DigitChar(n % 10)];
  }

  /** Three digits with no padding of the first read back as their number. */
  lemma ThreeDigitsValue(n: nat)
    requires n < 1000
    ensures DigitsValue([DigitChar(n / 100)] + Pad2(n % 100)) == n
  {
    var k := n / 10;
    Pad2Value(k);
    assert k / 10 == n / 100 && k % 10 == n % 100 / 10;
    DigitsValueSnoc(Pad2(k), DigitChar(n % 10));
    assert [DigitChar(n / 100)] + Pad2(n % 100) == Pad2(k) + [DigitChar(n % 10)];
  }

  /** Four padded digits read back as their number. */
  lemma Pad4Value(n: nat)
    requires n < 10000
    ensures DigitsValue(Pad4(n)) == n
  {
    var k := n / 10;
    ThreeDigitsValue(k);
    assert k / 100 == n / 100 / 10 && k % 100 / 10 == n / 100 % 10 && k % 100 % 10 == n % 100 / 10;
    DigitsValueSnoc([DigitChar(k / 100)] + Pad2(k % 100), DigitChar(n % 10));
    assert Pad4(n) == [DigitChar(k / 100)] + Pad2(k % 100) + [DigitChar(n % 10)];
  }

  /**
   * A year as strftime's %Y writes it through the C library (glibc): in
   * decimal with no leading zeros, so only years from 1000 on have four digits.
   */
  function YearText(n: nat): (s: string)
    requires n < 10000
    ensures 1 <= |s| <= 4 && forall i :: 0 <= i < |s| ==> IsDigit(s[i])
    ensures DigitsValue(s) == n
    ensures |s| > 1 ==> s[0] != '0'
    ensures n < 1000 ==> |s| <= 3
    ensures n >= 1000 ==> s == Pad4(n)
  {
    if n < 10 then DigitsValueSnoc([], DigitChar(n)); assert [] + [DigitChar(n)] == [DigitChar(n)]; [DigitChar(n)]
    else if n < 100 then Pad2Value(n); Pad2(n)
    else if n < 1000 then ThreeDigitsValue(n); [DigitChar(n / 100)] + Pad2(n % 100)
    else Pad4Value(n); Pad4(n)
  }

  /**
   * What the date step stores: strftime("%Y-%m-%d %H:%M:%S") (botcaffe.py:363).
   * For a four-digit year it is the padded storage format; below year 1000
   * the year comes out short.
   */
  function StoredText(dt: DateTime): (s: string)
    requires ValidDateTime(dt)
    ensures dt.year >= 1000 ==> s == PaddedStoredText(dt)
    ensures dt.year < 1000 ==> |s| < |PaddedStoredText(dt)|
  {
    YearText(dt.year) + ['-'] + (Pad2(dt.month) + ['-'] + (Pad2(dt.day) + [' '] +
      (Pad2(dt.hour) + [':'] + (Pad2(dt.minute) + [':'] + Pad2(dt.second)))))
  }

  /** The storage format "YYYY-MM-DD HH:MM:SS" with the year padded to four digits. */
  function PaddedStoredText(dt: DateTime): (s: string)
    requires ValidDateTime(dt)
    ensures |s| == 19
  {
    Pad4(dt.year) + ['-'] + (Pad2(dt.month) + ['-'] + (Pad2(dt.day) + [' '] +
      (Pad2(dt.hour) + [':'] + (Pad2(dt.minute) + [':'] + Pad2(dt.second)))))
  }

  /**
   * The listing format "%d.%m.%Y в %H:%M" (botcaffe.py:256): the date as the
   * operator types it, with the year as %Y writes it and " в " in place of
   * the space. For a four-digit year that is exactly the typed form.
   */
  function DisplayText(dt: DateTime): (s: string)
    requires ValidDateTime(dt)
    ensures s == InputText(dt)[..6] + YearText(dt.year) + " в " + InputText(dt)[11..]
    ensures dt.year >= 1000 ==> s == InputText(dt)[..10] + " в " + InputText(dt)[11..]
  {
    Pad2(dt.day) + "." + Pad2(dt.month) + "." + YearText(dt.year) + " в " + Pad2(dt.hour) + ":" + Pad2(dt.minute)
  }

  /** The date step: operator text to the stored form, None where strptime raises. */
  function NormalizeEventDate(text: string): (r: Option<string>)
    ensures r.Some? <==> ParseInput(text).Some?
    ensures r.Some? ==> IsWrittenDate(r.value)
  {
    match ParseInput(text)
    case None => None
    case Some(dt) => Some(StoredText(dt))
  }

  /** A text exactly as the date step writes it, for some valid instant. */
  ghost predicate IsWrittenDate(s: string)
  {
    exists dt :: ValidDateTime(dt) && StoredText(dt) == s
  }

  /**
   * A text as the date step writes it for an instant with a four-digit year:
   * one in the padded storage format.
   */
  ghost predicate IsStoredText(s: string)
  {
    exists dt :: ValidDateTime(dt) && dt.year >= 1000 && StoredText(dt) == s
  }

  /** The listing step: stored form to the shown form, None where strptime raises. */
  function DisplayEventDate(stored: string): (r: Option<string>)
    ensures r.Some? <==> ParseStored(stored).Some?
  {
    match ParseStored(stored)
    case None => None
    case Some(dt) => Some(DisplayText(dt))
  }

  // ---- Round trips ----

  lemma FieldOfPad2(n: nat, sep: char, rest: string)
    requires n < 100 && !IsDigit(sep)
    ensures Field(Pad2(n) + [sep] + rest, sep) == Some((n, rest))
    ensures LastField(Pad2(n)) == Some(n)
  {
    var s := Pad2(n) + [sep] + rest;
    assert s[0] == DigitChar(n / 10) && s[1] == DigitChar(n % 10) && s[2] == sep;
    assert s[3..] == rest;
  }

  lemma YearFieldOfPad4(n: nat, sep: char, rest: string)
    requires n < 10000 && !IsDigit(sep)
    ensures YearField(Pad4(n) + [sep] + rest, sep) == Some((n, rest))
  {
    var s := Pad4(n) + [sep] + rest;
    assert s[0] == DigitChar(n / 100 / 10) && s[1] == DigitChar(n / 100 % 10);
    assert s[2] == DigitChar(n % 100 / 10) && s[3] == DigitChar(n % 100 % 10);
    assert s[4] == sep && s[5..] == rest;
  }

  /** Reading the padded operator format gives back the date. */
  lemma InputRoundTrip(dt: DateTime)
    requires ValidDateTime(dt) && dt.second == 0
    ensures ParseInput(InputText(dt)) == Some(dt)
  {
    var tail4 := Pad2(dt.hour) + [':'] + Pad2(dt.minute);
    var tail3 := Pad4(dt.year) + [' '] + tail4;
    var tail2 := Pad2(dt.month) + ['.'] + tail3;
    FieldOfPad2(dt.day, '.', tail2);
    FieldOfPad2(dt.month, '.', tail3);
    YearFieldOfPad4(dt.year, ' ', tail4);
    FieldOfPad2(dt.hour, ':', Pad2(dt.minute));
    FieldOfPad2(dt.minute, ':', []);
  }

  /** Reading the padded storage format gives back the date, whatever the year. */
  lemma PaddedRoundTrip(dt: DateTime)
    requires ValidDateTime(dt)
    ensures ParseStored(PaddedStoredText(dt)) == Some(dt)
  {
    var tail5 := Pad2(dt.minute) + [':'] + Pad2(dt.second);
    var tail4 := Pad2(dt.hour) + [':'] + tail5;
    var tail3 := Pad2(dt.day) + [' '] + tail4;
    var tail2 := Pad2(dt.month) + ['-'] + tail3;
    YearFieldOfPad4(dt.year, '-', tail2);
    FieldOfPad2(dt.month, '-', tail3);
    FieldOfPad2(dt.day, ' ', tail4);
    FieldOfPad2(dt.hour, ':', tail5);
    FieldOfPad2(dt.minute, ':', Pad2(dt.second));
    FieldOfPad2(dt.second, ':', []);
  }

  /**
   * What the date step stores for a four-digit year reads back as the date,
   * so the listing can show it.
   */
  lemma StoredRoundTrip(dt: DateTime)
    requires ValidDateTime(dt) && dt.year >= 1000
    ensures ParseStored(StoredText(dt)) == Some(dt)
    ensures IsStoredText(StoredText(dt))
  {
    PaddedRoundTrip(dt);
  }

  /**
   * What the date step stores for a year below 1000 cannot be read back:
   * strptime's %Y wants four digits, so the listing raises on it.
   */
  lemma ShortYearUnreadable(dt: DateTime)
    requires ValidDateTime(dt) && dt.year < 1000
    ensures ParseStored(StoredText(dt)) == None
    ensures DisplayEventDate(StoredText(dt)) == None
  {
    var s := StoredText(dt);
    var y := YearText(dt.year);
    assert s[|y|] == '-';
    assert YearField(s, '-') == None;
  }

  /** The instant a text in the storage format was written from. */
  ghost function StoredInstant(s: string): (dt: DateTime)
    requires IsStoredText(s)
    ensures ValidDateTime(dt) && dt.year >= 1000 && StoredText(dt) == s
  {
    var dt :| ValidDateTime(dt) && dt.year >= 1000 && StoredText(dt) == s; dt
  }

  /** A text in the storage format reads back as the instant it was written from, and can be shown. */
  lemma StoredTextReads(s: string)
    requires IsStoredText(s)
    ensures ParseStored(s) == Some(StoredInstant(s))
    ensures DisplayEventDate(s) == Some(DisplayText(StoredInstant(s)))
  {
    StoredRoundTrip(StoredInstant(s));
  }

  /**
   * A date accepted at the date step is stored at second 0. With a four-digit
   * year it is shown again with the same day, month, year, hour and minute;
   * with a shorter year the listing cannot read it.
   */
  lemma NormalizedDateDisplays(text: string)
    requires ParseInput(text).Some?
    ensures NormalizeEventDate(text) == Some(StoredText(ParseInput(text).value))
    ensures ParseInput(text).value.year >= 1000 ==>
      DisplayEventDate(NormalizeEventDate(text).value) == Some(DisplayText(ParseInput(text).value))
    ensures ParseInput(text).value.year < 1000 ==> DisplayEventDate(NormalizeEventDate(text).value) == None
  {
    var dt := ParseInput(text).value;
    if dt.year >= 1000 {
      StoredRoundTrip(dt);
    } else {
      ShortYearUnreadable(dt);
    }
  }

  /** The date step accepts exactly the texts that read as a date. */
  lemma NormalizeAcceptsValidDates(dt: DateTime)
    requires ValidDateTime(dt) && dt.second == 0
    ensures NormalizeEventDate(InputText(dt)) == Some(StoredText(dt))
  {
    InputRoundTrip(dt);
  }

  // ---- Chronological order of stored dates ----

  /** Earlier or same instant. */
  predicate ChronoLe(a: DateTime, b: DateTime)
  {
    a.year < b.year || (a.year == b.year &&
    (a.month < b.month || (a.month == b.month &&
    (a.day < b.day || (a.day == b.day &&
    (a.hour < b.hour || (a.hour == b.hour &&
    (a.minute < b.minute || (a.minute == b.minute && a.second <= b.second)))))))))
  }

  lemma Pad2Order(m: nat, n: nat, sep: char)
    requires m < 100 && n < 100
    ensures TextLt(Pad2(m) + [sep], Pad2(n) + [sep]) <==> m < n
    ensures Pad2(m) + [sep] == Pad2(n) + [sep] <==> m == n
  {
    var a, b := Pad2(m) + [sep], Pad2(n) + [sep];
    assert a[0] < b[0] <==> m / 10 < n / 10;
    assert a[0] == b[0] <==> m / 10 == n / 10;
    assert a[1] < b[1] <==> m % 10 < n % 10;
    assert a[1] == b[1] <==> m % 10 == n % 10;
    assert m < n <==> m / 10 < n / 10 || (m / 10 == n / 10 && m % 10 < n % 10);
    assert a[1..][0] == a[1] && b[1..][0] == b[1];
    assert a[1..][1..] == [sep] && b[1..][1..] == [sep];
    TextLeReflexive([sep]);
    assert TextLe(a[1..], b[1..]) <==> a[1] < b[1] || a[1] == b[1];
    assert TextLe(a, b) <==> a[0] < b[0] || (a[0] == b[0] && TextLe(a[1..], b[1..]));
    assert a == b <==> a[0] == b[0] && a[1] == b[1];
  }

  lemma Pad4Order(m: nat, n: nat, sep: char)
    requires m < 10000 && n < 10000
    ensures TextLt(Pad4(m) + [sep], Pad4(n) + [sep]) <==> m < n
    ensures Pad4(m) + [sep] == Pad4(n) + [sep] <==> m == n
  {
    var a, b := Pad4(m) + [sep], Pad4(n) + [sep];
    assert a == Pad2(m / 100) + (Pad2(m % 100) + [sep]);
    assert b == Pad2(n / 100) + (Pad2(n % 100) + [sep]);
    TextLeOnSameWidthPrefix(Pad2(m / 100), Pad2(m % 100) + [sep], Pad2(n / 100), Pad2(n % 100) + [sep]);
    Pad2Order(m / 100, n / 100, sep);
    Pad2Order(m % 100, n % 100, sep);
    TextLeReflexive(Pad2(m / 100));
    assert Pad2(m / 100) + [sep] == Pad2(n / 100) + [sep] <==> Pad2(m / 100) == Pad2(n / 100);
    if a == b {
      assert Pad2(m / 100) == a[..2] == b[..2] == Pad2(n / 100);
      assert Pad2(m % 100) + [sep] == a[2..] == b[2..] == Pad2(n % 100) + [sep];
    }
  }

  /** One "field + separator" step of the comparison of two stored dates. */
  lemma StepOrder(p: string, q: string, x: nat, y: nat, r1: string, r2: string)
    requires |p| == |q|
    requires TextLt(p, q) <==> x < y
    requires p == q <==> x == y
    ensures TextLe(p + r1, q + r2) <==> x < y || (x == y && TextLe(r1, r2))
  {
    TextLeOnSameWidthPrefix(p, r1, q, r2);
  }

  /** On the padded storage format, text order and time order agree for every year. */
  lemma PaddedOrderIsChronological(a: DateTime, b: DateTime)
    requires ValidDateTime(a) && ValidDateTime(b)
    ensures TextLe(PaddedStoredText(a), PaddedStoredText(b)) <==> ChronoLe(a, b)
  {
    var a5, b5 := Pad2(a.minute) + [':'], Pad2(b.minute) + [':'];
    var a4, b4 := Pad2(a.hour) + [':'], Pad2(b.hour) + [':'];
    var a3, b3 := Pad2(a.day) + [' '], Pad2(b.day) + [' '];
    var a2, b2 := Pad2(a.month) + ['-'], Pad2(b.month) + ['-'];
    var a1, b1 := Pad4(a.year) + ['-'], Pad4(b.year) + ['-'];
    Pad4Order(a.year, b.year, '-');
    Pad2Order(a.month, b.month, '-');
    Pad2Order(a.day, b.day, ' ');
    Pad2Order(a.hour, b.hour, ':');
    Pad2Order(a.minute, b.minute, ':');
    var s6, t6 := Pad2(a.second), Pad2(b.second);
    Pad2Order(a.second, b.second, ':');
    TextLeOnSameWidthPrefix(s6, [], t6, []);
    assert s6 + [] == s6 && t6 + [] == t6;
    TextLeReflexive([]);
    assert s6 == t6 <==> a.second == b.second by {
      assert s6 + [':'] == t6 + [':'] <==> s6 == t6;
    }
    assert TextLt(s6, t6) <==> a.second < b.second by {
      TextLeOnSameWidthPrefix(s6, [':'], t6, [':']);
      TextLeReflexive([':']);
    }
    StepOrder(a5, b5, a.minute, b.minute, s6, t6);
    StepOrder(a4, b4, a.hour, b.hour, a5 + s6, b5 + t6);
    StepOrder(a3, b3, a.day, b.day, a4 + (a5 + s6), b4 + (b5 + t6));
    StepOrder(a2, b2, a.month, b.month, a3 + (a4 + (a5 + s6)), b3 + (b4 + (b5 + t6)));
    StepOrder(a1, b1, a.year, b.year, a2 + (a3 + (a4 + (a5 + s6))), b2 + (b3 + (b4 + (b5 + t6))));
  }

  /**
   * ORDER BY on the stored text puts events with four-digit years in
   * chronological order: text order and time order agree.
   */
  lemma StoredOrderIsChronological(a: DateTime, b: DateTime)
    requires ValidDateTime(a) && ValidDateTime(b) && a.year >= 1000 && b.year >= 1000
    ensures TextLe(StoredText(a), StoredText(b)) <==> ChronoLe(a, b)
  {
    PaddedOrderIsChronological(a, b);
  }

  /** Two texts in the storage format compare as text the way their dates compare in time. */
  lemma StoredTextsCompare(x: string, y: string)
    requires IsStoredText(x) && IsStoredText(y)
    ensures TextLe(x, y) <==> ChronoLe(StoredInstant(x), StoredInstant(y))
  {
    StoredOrderIsChronological(StoredInstant(x), StoredInstant(y));
  }

  // ---- Worked examples ----

  /** Day 32 and month 13 are refused. */
  lemma ExampleOutOfRange()
    ensures NormalizeEventDate("32.13.2024 10:00") == None
  {
    assert ParseInput("32.13.2024 10:00") == None by {
      assert Field("32.13.2024 10:00", '.') == Some((32, "13.2024 10:00"));
      assert Field("13.2024 10:00", '.') == Some((13, "2024 10:00"));
    }
  }

  /** 29 February 2023 does not exist. */
  lemma ExampleNoLeapDay()
    ensures NormalizeEventDate("29.02.2023 12:00") == None
  {
    assert ParseInput("29.02.2023 12:00") == None by {
      assert Field("29.02.2023 12:00", '.') == Some((29, "02.2023 12:00"));
      assert Field("02.2023 12:00", '.') == Some((2, "2023 12:00"));
      assert YearField("2023 12:00", ' ') == Some((2023, "12:00"));
      assert Field("12:00", ':') == Some((12, "00"));
      assert !IsLeapYear(2023);
    }
  }

  /** "01.06.2024 18:30" is read as 1 June 2024, 18:30, and stored with second 0. */
  lemma ExampleAccepted()
    ensures NormalizeEventDate("01.06.2024 18:30") == Some(StoredText(DateTime(2024, 6, 1, 18, 30, 0)))
  {
    assert ParseInput("01.06.2024 18:30") == Some(DateTime(2024, 6, 1, 18, 30, 0)) by {
      assert Field("01.06.2024 18:30", '.') == Some((1, "06.2024 18:30"));
      assert Field("06.2024 18:30", '.') == Some((6, "2024 18:30"));
      assert YearField("2024 18:30", ' ') == Some((2024, "18:30"));
      assert Field("18:30", ':') == Some((18, "30"));
    }
  }

  /** One-digit fields are read as strptime reads them. */
  lemma ExampleOneDigitFields()
    ensures NormalizeEventDate("1.6.2024 9:05") == Some(StoredText(DateTime(2024, 6, 1, 9, 5, 0)))
  {
    assert ParseInput("1.6.2024 9:05") == Some(DateTime(2024, 6, 1, 9, 5, 0)) by {
      assert Field("1.6.2024 9:05", '.') == Some((1, "6.2024 9:05"));
      assert Field("6.2024 9:05", '.') == Some((6, "2024 9:05"));
      assert YearField("2024 9:05", ' ') == Some((2024, "9:05"));
      assert Field("9:05", ':') == Some((9, "05"));
    }
  }

  /** "01.01.0999 10:00" is accepted: strptime reads "0999" as the year 999. */
  lemma ExampleShortYearAccepted()
    ensures NormalizeEventDate("01.01.0999 10:00") == Some(StoredText(DateTime(999, 1, 1, 10, 0, 0)))
  {
    ExampleYear999Typed();
    NormalizeAcceptsValidDates(DateTime(999, 1, 1, 10, 0, 0));
  }

  /** The year 999 is stored as "999-01-01 10:00:00", which the listing cannot read. */
  lemma ExampleYear999()
    ensures StoredText(DateTime(999, 1, 1, 10, 0, 0)) == "999-01-01 10:00:00"
    ensures DisplayEventDate(StoredText(DateTime(999, 1, 1, 10, 0, 0))) == None
  {
    ShortYearUnreadable(DateTime(999, 1, 1, 10, 0, 0));
  }

  /** %Y writes the year 999 with three digits. */
  lemma ExampleYear999Digits()
    ensures YearText(999) == "999"
  {
    assert Pad2(99) == "99";
  }

  /** The year 999 as the operator types it has four digits. */
  lemma ExampleYear999Typed()
    ensures InputText(DateTime(999, 1, 1, 10, 0, 0)) == "01.01.0999 10:00"
  {
    assert Pad2(1) == "01" && Pad2(10) == "10" && Pad2(0) == "00" && Pad4(999) == "0999";
  }

  /** The listing writes the year 999 as %Y writes it, with three digits, unlike the typed form. */
  lemma ExampleShortYearShown()
    ensures DisplayText(DateTime(999, 1, 1, 10, 0, 0)) == "01.01.999 в 10:00"
  {
    ExampleYear999Typed();
    ExampleYear999Digits();
    var typed := "01.01.0999 10:00";
    assert typed[..6] == "01.01." && typed[11..] == "10:00";
  }

  /**
   * A stored "0999-…", the padded storage format that the date step never
   * writes, reads as the year 999.
   */
  lemma ExampleShortYearRead()
    ensures ParseStored("0999-01-01 10:00:00") == Some(DateTime(999, 1, 1, 10, 0, 0))
  {
    var dt := DateTime(999, 1, 1, 10, 0, 0);
    assert PaddedStoredText(dt) == "0999-01-01 10:00:00" by {
      assert Pad4(999) == "0999" && Pad2(1) == "01" && Pad2(10) == "10" && Pad2(0) == "00";
    }
    PaddedRoundTrip(dt);
  }

  /** The listing shows that stored "0999-…" with a three-digit year. */
  lemma ExampleShortYearDisplayed()
    ensures DisplayEventDate("0999-01-01 10:00:00") == Some("01.01.999 в 10:00")
  {
    ExampleShortYearRead();
    ExampleShortYearShown();
  }

  /** What the date step stores for the year 999 sorts after a date in 2024. */
  lemma ExampleYear999SortsLate()
    ensures TextLt(StoredText(DateTime(2024, 6, 1, 18, 30, 0)), StoredText(DateTime(999, 1, 1, 10, 0, 0)))
    ensures !ChronoLe(DateTime(2024, 6, 1, 18, 30, 0), DateTime(999, 1, 1, 10, 0, 0))
  {
    var early, late := DateTime(999, 1, 1, 10, 0, 0), DateTime(2024, 6, 1, 18, 30, 0);
    assert StoredText(late)[0] == '2' && StoredText(early)[0] == '9';
  }
}
