/** The day number behind gate expiry (gate.rs), against the proleptic Gregorian calendar. */
module CivilDate {
  import opened Prelude
  import opened Numbers
  import opened Text

  // --------------------------------------------------------------- the program

  /** Integer division as the machine does it: toward zero. */
  function TruncDiv(a: int, b: int): int
    requires b > 0
  {
    if a >= 0 then a / b else -(-a / b)
  }

  function DaysFromCivil(civilYear: int, month: int, day: int): int {
    var year := if month <= 2 then civilYear - 1 else civilYear;
    var era := TruncDiv(if year >= 0 then year else year - 399, 400);
    var yearOfEra := year - era * 400;
    var adjustedMonth := month + if month > 2 then -3 else 9;
    var dayOfYear := TruncDiv(153 * adjustedMonth + 2, 5) + day - 1;
    var dayOfEra := yearOfEra * 365 + TruncDiv(yearOfEra, 4) - TruncDiv(yearOfEra, 100) + dayOfYear;
    era * 146097 + dayOfEra - 719468
  }

  function Utf8Width(c: char): nat {
    if c as int < 0x80 then 1 else if c as int < 0x800 then 2 else if c as int < 0x10000 then 3 else 4
  }

  /** `get(..n)`: the first `n` bytes, if there are that many and they end a character. */
  function BytePrefix(s: string, n: nat): Option<string> {
    if n == 0 then Some("")
    else if s == "" || Utf8Width(s[0]) > n then None
    else
      match BytePrefix(s[1..], n - Utf8Width(s[0]))
      case None => None
      case Some(rest) => Some([s[0]] + rest)
  }

  const I64_MAX := 0x7FFF_FFFF_FFFF_FFFF

  /** `parse::<i64>`. */
  function ParseI64(s: string): Option<int> {
    var signed := s != "" && (s[0] == '+' || s[0] == '-');
    var digits := if signed then s[1..] else s;
    if digits == "" || !Digits(digits) then None
    else
      var n: int := if signed && s[0] == '-' then 0 - NumberOf(digits) else NumberOf(digits);
      if -I64_MAX - 1 <= n <= I64_MAX then Some(n) else None
  }

  function ParseExpiryDate(value: string): Option<int> {
    match BytePrefix(value, 10)
    case None => None
    case Some(date) =>
      var parts := Split(date, '-');
      if |parts| != 3 then None
      else
        match (ParseI64(parts[0]), ParseI64(parts[1]), ParseI64(parts[2]))
        case (Some(year), Some(month), Some(day)) =>
          if 1 <= month <= 12 && 1 <= day <= 31 then Some(DaysFromCivil(year, month, day)) else None
        case _ => None
  }

  // --------------------------------------------------------------- the calendar

  datatype Date = Date(year: int, month: int, day: int)

  predicate Leap(y: int) {
    y % 4 == 0 && (y % 100 != 0 || y % 400 == 0)
  }

  function DaysInYear(y: int): int {
    if Leap(y) then 366 else 365
  }

  function DaysInMonth(y: int, m: int): int {
    if m == 2 then (if Leap(y) then 29 else 28)
    else if m == 4 || m == 6 || m == 9 || m == 11 then 30
    else 31
  }

  predicate ValidDate(t: Date) {
    1 <= t.month <= 12 && 1 <= t.day <= DaysInMonth(t.year, t.month)
  }

  function NextDay(t: Date): Date {
    if t.day < DaysInMonth(t.year, t.month) then t.(day := t.day + 1)
    else if t.month < 12 then Date(t.year, t.month + 1, 1)
    else Date(t.year + 1, 1, 1)
  }

  predicate Earlier(a: Date, b: Date) {
    a.year < b.year || (a.year == b.year && (a.month < b.month || (a.month == b.month && a.day < b.day)))
  }

  /** Days from 1970-01-01 to the first of January, year by year. */
  function DaysToYear(y: int): int
    decreases if y >= 1970 then y - 1970 else 1970 - y
  {
    if y == 1970 then 0
    else if y > 1970 then DaysToYear(y - 1) + DaysInYear(y - 1)
    else DaysToYear(y + 1) - DaysInYear(y)
  }

  /** Days from the first of January to the first of month `m`, month by month. */
  function DaysToMonth(y: int, m: int): int
    requires 1 <= m
    decreases m
  {
    if m == 1 then 0 else DaysToMonth(y, m - 1) + DaysInMonth(y, m - 1)
  }

  /** The day number counted through the calendar. */
  function DayNumber(t: Date): int
    requires 1 <= t.month
  {
    DaysToYear(t.year) + DaysToMonth(t.year, t.month) + t.day - 1
  }

  // --------------------------------------------------------------- the closed form

  /** Days of the years that begin in March, up to year `y`. */
  function MarchDays(y: int): int {
    365 * y + y / 4 - y / 100 + y / 400
  }

  lemma EraIsFloor(year: int)
    ensures TruncDiv(if year >= 0 then year else year - 399, 400) == year / 400
  {
  }

  lemma EraForm(year: int)
    ensures var era := year / 400; var yoe := year - era * 400;
            0 <= yoe < 400 && era * 146097 + yoe * 365 + yoe / 4 - yoe / 100 == MarchDays(year)
  {
    var era := year / 400;
    var yoe := year - era * 400;
    assert year / 4 == 100 * era + yoe / 4;
    assert year / 100 == 4 * era + yoe / 100;
  }

  lemma ClosedForm(y: int, m: int, d: int)
    requires 1 <= m <= 12
    ensures m <= 2 ==> DaysFromCivil(y, m, d) == MarchDays(y - 1) + (153 * (m + 9) + 2) / 5 + d - 1 - 719468
    ensures m > 2 ==> DaysFromCivil(y, m, d) == MarchDays(y) + (153 * (m - 3) + 2) / 5 + d - 1 - 719468
  {
    var year := if m <= 2 then y - 1 else y;
    EraIsFloor(year);
    EraForm(year);
    hide MarchDays;
  }

  lemma MarchYear(y: int)
    ensures MarchDays(y) == MarchDays(y - 1) + DaysInYear(y)
  {
    assert y / 4 == (y - 1) / 4 + if y % 4 == 0 then 1 else 0;
    assert y / 100 == (y - 1) / 100 + if y % 100 == 0 then 1 else 0;
    assert y / 400 == (y - 1) / 400 + if y % 400 == 0 then 1 else 0;
  }

  lemma {:induction false} YearStart(y: int)
    ensures DaysToYear(y) == MarchDays(y - 1) + 306 - 719468
    decreases if y >= 1970 then y - 1970 else 1970 - y
  {
    hide DaysInYear, MarchDays;
    if y > 1970 {
      YearStart(y - 1);
      MarchYear(y - 1);
    } else if y < 1970 {
      YearStart(y + 1);
      MarchYear(y);
    } else {
      assert MarchDays(1969) == 719162 by { MarchAnchor(); }
    }
  }

  lemma MarchAnchor()
    ensures MarchDays(1969) == 719162
  {
  }

  lemma MonthStarts(y: int)
    ensures DaysToMonth(y, 2) == 31
    ensures DaysToMonth(y, 13) == DaysInYear(y)
    ensures forall m | 3 <= m <= 12 :: DaysToMonth(y, m) == DaysInYear(y) - 306 + (153 * (m - 3) + 2) / 5
  {
    assert DaysToMonth(y, 3) == DaysToMonth(y, 2) + DaysInMonth(y, 2);
    assert DaysToMonth(y, 4) == DaysToMonth(y, 3) + 31;
    assert DaysToMonth(y, 5) == DaysToMonth(y, 4) + 30;
    assert DaysToMonth(y, 6) == DaysToMonth(y, 5) + 31;
    assert DaysToMonth(y, 7) == DaysToMonth(y, 6) + 30;
    assert DaysToMonth(y, 8) == DaysToMonth(y, 7) + 31;
    assert DaysToMonth(y, 9) == DaysToMonth(y, 8) + 31;
    assert DaysToMonth(y, 10) == DaysToMonth(y, 9) + 30;
    assert DaysToMonth(y, 11) == DaysToMonth(y, 10) + 31;
    assert DaysToMonth(y, 12) == DaysToMonth(y, 11) + 30;
    assert DaysToMonth(y, 13) == DaysToMonth(y, 12) + 31;
  }

  /** The closed formula counts the days of the calendar, for every year, negative ones included. */
  lemma FormulaIsDayNumber(y: int, m: int, d: int)
    requires 1 <= m <= 12
    ensures DaysFromCivil(y, m, d) == DayNumber(Date(y, m, d))
  {
    ClosedForm(y, m, d);
    YearStart(y);
    MarchYear(y);
    MonthStarts(y);
    hide DaysFromCivil, DaysToYear, MarchDays, DaysInYear;
  }

  // --------------------------------------------------------------- calendar order

  lemma EpochIsZero()
    ensures DaysFromCivil(1970, 1, 1) == 0
  {
  }

  /** Each next calendar day adds one, across month ends, leap days and eras. */
  lemma NextDayAddsOne(t: Date)
    requires ValidDate(t)
    ensures ValidDate(NextDay(t))
    ensures DaysFromCivil(NextDay(t).year, NextDay(t).month, NextDay(t).day)
            == DaysFromCivil(t.year, t.month, t.day) + 1
  {
    hide DaysFromCivil, Leap, DaysToYear, DaysToMonth, DaysInYear;
    var n := NextDay(t);
    FormulaIsDayNumber(t.year, t.month, t.day);
    FormulaIsDayNumber(n.year, n.month, n.day);
    MonthLength(t.year, t.month);
    JanuaryFirst(t.year);
    JanuaryFirst(t.year + 1);
    YearLength(t.year);
  }

  lemma MonthLength(y: int, m: int)
    requires 1 <= m
    ensures DaysToMonth(y, m + 1) == DaysToMonth(y, m) + DaysInMonth(y, m)
  {
  }

  lemma JanuaryFirst(y: int)
    ensures DaysToMonth(y, 1) == 0 && DaysToMonth(y, 13) == DaysInYear(y)
  {
    MonthStarts(y);
  }

  lemma YearLength(y: int)
    ensures DaysToYear(y + 1) == DaysToYear(y) + DaysInYear(y)
  {
  }

  lemma {:induction false} MonthsAscend(y: int, m: int, n: int)
    requires 1 <= m < n
    ensures DaysToMonth(y, m) + DaysInMonth(y, m) <= DaysToMonth(y, n)
    decreases n
  {
    if n > m + 1 {
      MonthsAscend(y, m, n - 1);
    }
  }

  lemma {:induction false} YearsAscend(y: int, z: int)
    requires y < z
    ensures DaysToYear(y) + DaysInYear(y) <= DaysToYear(z)
    decreases z - y
  {
    hide DaysToYear;
    YearLength(z - 1);
    if z > y + 1 {
      YearsAscend(y, z - 1);
    } else {
      YearLength(y);
    }
  }

  /** The comparison of day numbers is calendar order. */
  lemma OrderIsCalendarOrder(a: Date, b: Date)
    requires ValidDate(a) && ValidDate(b)
    ensures DaysFromCivil(a.year, a.month, a.day) < DaysFromCivil(b.year, b.month, b.day) <==> Earlier(a, b)
    ensures DaysFromCivil(a.year, a.month, a.day) == DaysFromCivil(b.year, b.month, b.day) <==> a == b
  {
    hide DaysFromCivil, DaysToYear, DaysToMonth, DaysInMonth;
    FormulaIsDayNumber(a.year, a.month, a.day);
    FormulaIsDayNumber(b.year, b.month, b.day);
    if Earlier(a, b) {
      EarlierIsSmaller(a, b);
    } else if Earlier(b, a) {
      EarlierIsSmaller(b, a);
    }
  }

  lemma EarlierIsSmaller(a: Date, b: Date)
    requires ValidDate(a) && ValidDate(b) && Earlier(a, b)
    ensures DayNumber(a) < DayNumber(b)
  {
    hide DaysToYear, DaysToMonth, DaysInMonth, DaysInYear;
    if a.year < b.year {
      YearsAscend(a.year, b.year);
      WithinYear(a);
      NotNegative(b.year, b.month);
    } else if a.month < b.month {
      MonthsAscend(a.year, a.month, b.month);
    }
  }

  lemma WithinYear(t: Date)
    requires ValidDate(t)
    ensures DaysToMonth(t.year, t.month) + t.day <= DaysInYear(t.year)
  {
    hide DaysToMonth;
    MonthsAscend(t.year, t.month, 13);
    MonthStarts(t.year);
  }

  lemma {:induction false} NotNegative(y: int, m: int)
    requires 1 <= m
    ensures DaysToMonth(y, m) >= 0
    decreases m
  {
    if m > 1 {
      NotNegative(y, m - 1);
    }
  }

  function PreviousDay(t: Date): Date {
    if t.day > 1 then t.(day := t.day - 1)
    else if t.month > 1 then Date(t.year, t.month - 1, DaysInMonth(t.year, t.month - 1))
    else Date(t.year - 1, 12, 31)
  }

  lemma PreviousThenNext(t: Date)
    requires ValidDate(t)
    ensures ValidDate(PreviousDay(t)) && NextDay(PreviousDay(t)) == t
  {
    hide Leap;
  }

  /** Every number is the number of a day, so days and numbers correspond one to one. */
  lemma {:induction false} EveryNumberIsADay(n: int) returns (t: Date)
    ensures ValidDate(t) && DaysFromCivil(t.year, t.month, t.day) == n
    decreases if n >= 0 then n else -n
  {
    hide DaysFromCivil, NextDay, PreviousDay;
    if n == 0 {
      EpochIsZero();
      t := Date(1970, 1, 1);
    } else if n > 0 {
      var p := EveryNumberIsADay(n - 1);
      NextDayAddsOne(p);
      t := NextDay(p);
    } else {
      var p := EveryNumberIsADay(n + 1);
      PreviousThenNext(p);
      NextDayAddsOne(PreviousDay(p));
      t := PreviousDay(p);
    }
  }

  /** A day past the end of its month, which the parser lets through, counts on into the next month. */
  lemma ExcessDaysRunOn(y: int, m: int, d: int)
    requires 1 <= m <= 12 && d > DaysInMonth(y, m)
    ensures DaysFromCivil(y, m, d) ==
              if m < 12 then DaysFromCivil(y, m + 1, d - DaysInMonth(y, m)) else DaysFromCivil(y + 1, 1, d - 31)
  {
    hide DaysFromCivil, Leap, DaysToYear, DaysToMonth, DaysInYear;
    FormulaIsDayNumber(y, m, d);
    MonthLength(y, m);
    if m < 12 {
      FormulaIsDayNumber(y, m + 1, d - DaysInMonth(y, m));
    } else {
      FormulaIsDayNumber(y + 1, 1, d - 31);
      JanuaryFirst(y);
      JanuaryFirst(y + 1);
      YearLength(y);
    }
  }

  // --------------------------------------------------------------- reading a date

  function Pow10(w: nat): nat {
    if w == 0 then 1 else 10 * Pow10(w - 1)
  }

  /** The last `w` decimal digits. */
  function Padded(n: nat, w: nat): string {
    if w == 0 then "" else Padded(n / 10, w - 1) + [DigitChar(n % 10)]
  }

  lemma {:induction false} PaddedReads(n: nat, w: nat)
    requires n < Pow10(w)
    ensures |Padded(n, w)| == w && Digits(Padded(n, w)) && NumberOf(Padded(n, w)) == n
    decreases w
  {
    if w > 0 {
      PaddedReads(n / 10, w - 1);
      var s := Padded(n, w);
      assert s[..|s| - 1] == Padded(n / 10, w - 1);
    }
  }

  lemma PaddedParses(n: nat, w: nat)
    requires n < Pow10(w) && 0 < w && n <= I64_MAX
    ensures ParseI64(Padded(n, w)) == Some(n) && '-' !in Padded(n, w)
  {
    PaddedReads(n, w);
    assert '0' <= Padded(n, w)[0];
  }

  ghost predicate Ascii(s: string) {
    forall i | 0 <= i < |s| :: s[i] as int < 0x80
  }

  lemma {:induction false} AsciiPrefix(s: string, rest: string)
    requires Ascii(s)
    ensures BytePrefix(s + rest, |s|) == Some(s)
  {
    if s != "" {
      AsciiPrefix(s[1..], rest);
      assert (s + rest)[1..] == s[1..] + rest;
      assert s == [s[0]] + s[1..];
    }
  }

  function IsoDate(t: Date): string
    requires t.year >= 0 && t.month >= 0 && t.day >= 0
  {
    Padded(t.year, 4) + "-" + (Padded(t.month, 2) + "-" + Padded(t.day, 2))
  }

  /** Every month and day up to 31 of the years 0 to 9999, followed by anything, reads as its day number. */
  lemma IsoDateReads(t: Date, suffix: string)
    requires 0 <= t.year <= 9999 && 1 <= t.month <= 12 && 1 <= t.day <= 31
    ensures ParseExpiryDate(IsoDate(t) + suffix) == Some(DayNumber(t))
  {
    hide DaysFromCivil, DayNumber, ParseI64, Split, BytePrefix, Padded;
    PowersOfTen();
    PaddedParses(t.year, 4);
    PaddedParses(t.month, 2);
    PaddedParses(t.day, 2);
    PaddedReads(t.year, 4);
    PaddedReads(t.month, 2);
    PaddedReads(t.day, 2);
    var y, m, d := Padded(t.year, 4), Padded(t.month, 2), Padded(t.day, 2);
    var date := IsoDate(t);
    assert Ascii(date);
    AsciiPrefix(date, suffix);
    SplitInThree(y, m, d);
    FormulaIsDayNumber(t.year, t.month, t.day);
  }

  lemma SplitInThree(a: string, b: string, c: string)
    requires '-' !in a && '-' !in b && '-' !in c
    ensures Split(a + "-" + (b + "-" + c), '-') == [a, b, c]
  {
    hide Split;
    SplitHead(a, '-', b + "-" + c);
    SplitHead(b, '-', c);
    SplitWhole(c, '-');
  }

  lemma PowersOfTen()
    ensures Pow10(2) == 100 && Pow10(4) == 10000
  {
    assert Pow10(1) == 10 && Pow10(3) == 1000;
  }

  /** The first ten bytes of the text are the three dash-free numbers of `t`, with dashes between them. */
  ghost predicate Spells(value: string, t: Date) {
    exists a: string, b: string, c: string :: SpelledBy(value, a, b, c, t)
  }

  ghost predicate SpelledBy(value: string, a: string, b: string, c: string, t: Date) {
    && BytePrefix(value, 10) == Some(a + "-" + (b + "-" + c))
    && '-' !in a && '-' !in b && '-' !in c
    && ParseI64(a) == Some(t.year) && ParseI64(b) == Some(t.month) && ParseI64(c) == Some(t.day)
  }

  lemma SplitOnce(s: string)
    requires |Split(s, '-')| > 1
    ensures var p := Split(s, '-');
            var k := FindChar(s, '-');
            k < |s| && p[1..] == Split(s[k + 1..], '-') && s == p[0] + "-" + s[k + 1..]
  {
    var k := FindChar(s, '-');
    assert s == s[..k] + [s[k]] + s[k + 1..];
  }

  /** A text of three parts is its parts with dashes between them. */
  lemma JoinThree(date: string)
    requires |Split(date, '-')| == 3
    ensures var p := Split(date, '-');
            date == p[0] + "-" + (p[1] + "-" + p[2]) && '-' !in p[0] && '-' !in p[1] && '-' !in p[2]
  {
    hide Split, FindChar;
    var p := Split(date, '-');
    SplitPartsFree(date, '-');
    SplitOnce(date);
    var rest := date[FindChar(date, '-') + 1..];
    var q := Split(rest, '-');
    assert q == p[1..] && q[0] == p[1] && q[1] == p[2];
    SplitOnce(rest);
    var last := rest[FindChar(rest, '-') + 1..];
    assert |Split(last, '-')| == 1 && Split(last, '-')[0] == q[1..][0] == p[2];
    SplitOne(last);
  }

  lemma SplitOne(s: string)
    requires |Split(s, '-')| == 1
    ensures Split(s, '-') == [s]
  {
  }

  /** The numbers a text spells are determined by it. */
  lemma SpellingIsUnique(value: string, t: Date, u: Date)
    requires Spells(value, t) && Spells(value, u)
    ensures t == u
  {
    hide ParseI64, Split, BytePrefix;
    var a, b, c :| SpelledBy(value, a, b, c, t);
    var x, y, z :| SpelledBy(value, x, y, z, u);
    SplitInThree(a, b, c);
    SplitInThree(x, y, z);
    assert [a, b, c] == [x, y, z];
    assert [a, b, c][0] == a && [a, b, c][1] == b && [a, b, c][2] == c;
  }

  lemma SpellingReads(value: string, t: Date)
    requires Spells(value, t)
    ensures ParseExpiryDate(value) ==
              if 1 <= t.month <= 12 && 1 <= t.day <= 31 then Some(DaysFromCivil(t.year, t.month, t.day)) else None
  {
    hide DaysFromCivil, ParseI64, Split, BytePrefix;
    var a, b, c :| SpelledBy(value, a, b, c, t);
    SplitInThree(a, b, c);
  }

  lemma AcceptedIsSpelled(value: string) returns (t: Date)
    requires ParseExpiryDate(value).Some?
    ensures Spells(value, t) && 1 <= t.month <= 12 && 1 <= t.day <= 31
  {
    hide DaysFromCivil, ParseI64, Split, BytePrefix;
    var date := BytePrefix(value, 10).value;
    var p := Split(date, '-');
    JoinThree(date);
    t := Date(ParseI64(p[0]).value, ParseI64(p[1]).value, ParseI64(p[2]).value);
    assert SpelledBy(value, p[0], p[1], p[2], t);
  }

  /** Exactly what is accepted, and as what: three numbers, of which the month is one to 12 and the day one to 31. */
  lemma AcceptedDates(value: string, n: int)
    ensures ParseExpiryDate(value) == Some(n) <==>
              exists t: Date :: Spells(value, t) && 1 <= t.month <= 12 && 1 <= t.day <= 31 && n == DayNumber(t)
  {
    hide DaysFromCivil, DayNumber, ParseExpiryDate, Spells;
    if ParseExpiryDate(value) == Some(n) {
      var t := AcceptedIsSpelled(value);
      SpellingReads(value, t);
      FormulaIsDayNumber(t.year, t.month, t.day);
      assert Spells(value, t) && n == DayNumber(t);
    }
    if t: Date :| Spells(value, t) && 1 <= t.month <= 12 && 1 <= t.day <= 31 && n == DayNumber(t) {
      SpellingReads(value, t);
      FormulaIsDayNumber(t.year, t.month, t.day);
    }
  }

  /**
   * The day an accepted text expires on is the day it spells if and only if that day is within its month, which a
   * caller can look up. Otherwise it is a day of the next month.
   */
  lemma ExpiresOnTheDaySpelled(value: string, t: Date, u: Date)
    requires Spells(value, t) && ParseExpiryDate(value).Some?
    requires ValidDate(u) && DayNumber(u) == ParseExpiryDate(value).value
    ensures u == t <==> t.day <= DaysInMonth(t.year, t.month)
    ensures u != t ==>
              u == (if t.month < 12 then Date(t.year, t.month + 1, t.day - DaysInMonth(t.year, t.month))
                    else Date(t.year + 1, 1, t.day - 31))
  {
    hide DaysFromCivil, DayNumber, ParseExpiryDate, Spells, Leap;
    SpellingReads(value, t);
    FormulaIsDayNumber(t.year, t.month, t.day);
    FormulaIsDayNumber(u.year, u.month, u.day);
    var length := DaysInMonth(t.year, t.month);
    var v := if t.day <= length then t
             else if t.month < 12 then Date(t.year, t.month + 1, t.day - length) else Date(t.year + 1, 1, t.day - 31);
    if t.day > length {
      ExcessDaysRunOn(t.year, t.month, t.day);
    }
    OrderIsCalendarOrder(u, v);
  }

  /** The thirtieth of February 2023 is accepted, and is the second of March. */
  lemma NoSuchDayIsAccepted()
    ensures ParseExpiryDate("2023-02-30") == Some(DayNumber(Date(2023, 3, 2))) && !ValidDate(Date(2023, 2, 30))
  {
    hide DaysFromCivil, DayNumber, ParseExpiryDate;
    var t := Date(2023, 2, 30);
    TextOfThatDay();
    IsoDateReads(t, "");
    assert IsoDate(t) + "" == IsoDate(t);
    ExcessDaysRunOn(2023, 2, 30);
    FormulaIsDayNumber(2023, 2, 30);
    FormulaIsDayNumber(2023, 3, 2);
  }

  lemma PaddedStep(n: nat, w: nat)
    requires w > 0
    ensures Padded(n, w) == Padded(n / 10, w - 1) + [DigitChar(n % 10)]
  {
  }

  lemma TwoDigits(n: nat)
    requires n < 100
    ensures Padded(n, 2) == [DigitChar(n / 10), DigitChar(n % 10)]
  {
    hide Padded, DigitChar;
    PaddedStep(n, 2);
    PaddedStep(n / 10, 1);
    assert Padded(n / 10 / 10, 0) == "" by { NoDigits(n / 10 / 10); }
  }

  lemma NoDigits(n: nat)
    ensures Padded(n, 0) == ""
  {
  }

  lemma TextOfThatDay()
    ensures IsoDate(Date(2023, 2, 30)) == "2023-02-30"
  {
    hide Padded;
    TwoDigits(2);
    TwoDigits(30);
    TwoDigits(20);
    PaddedStep(2023, 4);
    PaddedStep(202, 3);
    assert Padded(20, 2) == "20";
    assert Padded(202, 3) == "20" + "2";
    assert Padded(2023, 4) == "2023";
    assert Padded(2, 2) == "02" && Padded(30, 2) == "30";
  }
}
