/**
 * The slice of java.time the planner relies on: a year-month, a local date,
 * the length of a month in the proleptic Gregorian calendar, and the ISO-8601
 * text of a date (`LocalDate.toString`), which the app uses inside its
 * logged-set keys and as the first CSV column.
 */
module Calendar {
  import opened Text

  type MonthOfYear = m: int | 1 <= m <= 12 witness 1

  datatype YearMonth = YearMonth(year: int, month: MonthOfYear)

  datatype Date = Date(year: int, month: MonthOfYear, day: nat)

  predicate IsLeapYear(year: int) {
    year % 4 == 0 && (year % 100 != 0 || year % 400 == 0)
  }

  /** `YearMonth.lengthOfMonth()`. */
  function LengthOfMonth(ym: YearMonth): (n: nat)
    ensures 28 <= n <= 31
    ensures n == 29 <==> ym.month == 2 && IsLeapYear(ym.year)
    ensures n < 30 <==> ym.month == 2
    ensures n == 31 <==> ym.month in {1, 3, 5, 7, 8, 10, 12}
  {
    match ym.month
    case 2 => if IsLeapYear(ym.year) then 29 else 28
    case 4 | 6 | 9 | 11 => 30
    case _ => 31
  }

  function MonthsUpTo(year: int, m: nat): nat
    requires m <= 12
  {
    if m == 0 then 0 else MonthsUpTo(year, m - 1) + LengthOfMonth(YearMonth(year, m))
  }

  /** The twelve month lengths add up to the length of the year. */
  lemma YearLength(year: int)
    ensures MonthsUpTo(year, 12) == if IsLeapYear(year) then 366 else 365
  {
    var feb := if IsLeapYear(year) then 29 else 28;
    assert MonthsUpTo(year, 1) == 31;
    assert MonthsUpTo(year, 2) == 31 + feb;
    assert MonthsUpTo(year, 3) == 62 + feb;
    assert MonthsUpTo(year, 4) == 92 + feb;
    assert MonthsUpTo(year, 5) == 123 + feb;
    assert MonthsUpTo(year, 6) == 153 + feb;
    assert MonthsUpTo(year, 7) == 184 + feb;
    assert MonthsUpTo(year, 8) == 215 + feb;
    assert MonthsUpTo(year, 9) == 245 + feb;
    assert MonthsUpTo(year, 10) == 276 + feb;
    assert MonthsUpTo(year, 11) == 306 + feb;
  }

  /** Chronological order of dates. */
  predicate Before(a: Date, b: Date) {
    a.year < b.year
    || (a.year == b.year && a.month < b.month)
    || (a.year == b.year && a.month == b.month && a.day < b.day)
  }

  function Pad2(n: nat): (s: string)
    ensures AllDigits(s) && |s| >= 2
    ensures n < 100 ==> |s| == 2
  {
    PadLeftDigits(NatText(n), 2);
    PadLeft(NatText(n), 2)
  }

  lemma Pad2Injective(a: nat, b: nat)
    requires Pad2(a) == Pad2(b)
    ensures a == b
  {
    ParsePadLeft(NatText(a), 2);
    ParsePadLeft(NatText(b), 2);
    ParseNatText(a);
    ParseNatText(b);
  }

  predicate IsDateChar(c: char) {
    IsDigit(c) || c == '-' || c == '+'
  }

  predicate DateChars(s: string) {
    forall c :: c in s ==> IsDateChar(c)
  }

  lemma DigitsAreDateChars(s: string)
    requires AllDigits(s)
    ensures DateChars(s)
  {
  }

  lemma DateCharsConcat(a: string, b: string)
    requires DateChars(a) && DateChars(b)
    ensures DateChars(a + b)
  {
  }

  /** The year part of `LocalDate.toString`: four digits at least, '+' past 9999. */
  function YearText(year: int): (s: string)
    ensures DateChars(s)
  {
    var digits := NatText(if year < 0 then -year else year);
    PadLeftDigits(digits, 4);
    DigitsAreDateChars(digits);
    DigitsAreDateChars(PadLeft(digits, 4));
    DateCharsConcat("-", PadLeft(digits, 4));
    DateCharsConcat("+", digits);
    if year < 0 then "-" + PadLeft(NatText(-year), 4)
    else if year > 9999 then "+" + NatText(year)
    else PadLeft(NatText(year), 4)
  }

  /** `LocalDate.toString`: yyyy-MM-dd. */
  function DateText(d: Date): (s: string)
    ensures DateChars(s)
  {
    var year, month, day := YearText(d.year), Pad2(d.month), Pad2(d.day);
    DigitsAreDateChars(month);
    DigitsAreDateChars(day);
    DateCharsConcat(year, "-");
    DateCharsConcat(year + "-", month);
    DateCharsConcat(year + "-" + month, "-");
    DateCharsConcat(year + "-" + month + "-", day);
    year + "-" + month + "-" + day
  }

  /** Within one month the text of a date determines its day. */
  lemma DateTextInjectiveInMonth(year: int, month: MonthOfYear, d1: nat, d2: nat)
    requires DateText(Date(year, month, d1)) == DateText(Date(year, month, d2))
    ensures d1 == d2
  {
    var prefix := YearText(year) + "-" + Pad2(month) + "-";
    assert DateText(Date(year, month, d1)) == prefix + Pad2(d1);
    assert DateText(Date(year, month, d2)) == prefix + Pad2(d2);
    assert Pad2(d1) == (prefix + Pad2(d1))[|prefix|..];
    Pad2Injective(d1, d2);
  }
}
