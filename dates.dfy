/**
 * The nested parse_cancel_date of process_csv_file (app.py): a trimmed
 * cancel-date cell of 7 characters (M DD YYYY, month zero-filled) or 8
 * characters (MM DD YYYY) becomes a calendar date through
 * pd.to_datetime(..., format="%m/%d/%Y"); anything else, or any failure, is
 * NaT. NaT is None.
 */
module Dates {
  import opened Wrappers
  import opened Text

  datatype Date = Date(year: int, month: int, day: int)

  predicate IsLeap(y: int) {
    y % 4 == 0 && (y % 100 != 0 || y % 400 == 0)
  }

  function DaysInMonth(y: int, m: int): int
    requires 1 <= m <= 12
  {
    if m == 2 then (if IsLeap(y) then 29 else 28)
    else if m == 4 || m == 6 || m == 9 || m == 11 then 30
    else 31
  }

  /** A day of the proleptic Gregorian calendar, as datetime accepts it. */
  predicate ValidDate(d: Date) {
    1 <= d.year && 1 <= d.month <= 12 && 1 <= d.day <= DaysInMonth(d.year, d.month)
  }

  /** The date as the number yyyymmdd; for valid dates its order is the calendar order. */
  function Code(d: Date): int {
    d.year * 10000 + d.month * 100 + d.day
  }

  /** NaT sorts after every date (na_position="last"). */
  const NaTCode: int := 100000000

  /** A pandas Timestamp at midnight lies between 1677-09-22 and 2262-04-11. */
  predicate InRange(d: Date) {
    16770922 <= Code(d) <= 22620411
  }

  /** The sort code of a parse result. */
  function DateCode(t: Option<Date>): int {
    match t
    case None => NaTCode
    case Some(d) => Code(d)
  }

  /** The pattern of %m on two characters: 1[0-2] or 0[1-9]. */
  function MonthField(f: string): Option<int>
    requires |f| == 2
  {
    if f[0] == '1' && '0' <= f[1] <= '2' then Some(10 + DigitValue(f[1]))
    else if f[0] == '0' && '1' <= f[1] <= '9' then Some(DigitValue(f[1]))
    else None
  }

  /** The pattern of %d on two characters: 3[01], [12] and a digit, 0[1-9], or a space and [1-9]. */
  function DayField(f: string): Option<int>
    requires |f| == 2
  {
    if f[0] == '3' && (f[1] == '0' || f[1] == '1') then Some(30 + DigitValue(f[1]))
    else if (f[0] == '1' || f[0] == '2') && IsDigit(f[1]) then Some(10 * DigitValue(f[0]) + DigitValue(f[1]))
    else if (f[0] == '0' || f[0] == ' ') && '1' <= f[1] <= '9' then Some(DigitValue(f[1]))
    else None
  }

  /** The pattern of %Y: four digits. */
  function YearField(f: string): Option<int>
    requires |f| == 4
  {
    if AllDigits(f) then Some(DigitsValue(f)) else None
  }

  /**
   * pd.to_datetime(m + "/" + d + "/" + y, format="%m/%d/%Y") with a two-character
   * month and day and a four-character year. The string has ten characters,
   * so the pattern can only match each field in full.
   */
  function ToDatetime(m: string, d: string, y: string): (r: Option<Date>)
    requires |m| == 2 && |d| == 2 && |y| == 4
    ensures r.Some? ==> ValidDate(r.value) && InRange(r.value)
  {
    match (MonthField(m), DayField(d), YearField(y))
    case (Some(mm), Some(dd), Some(yy)) =>
      var t := Date(yy, mm, dd);
      if ValidDate(t) && InRange(t) then Some(t) else None
    case _ => None
  }

  /** str.zfill(2) on one character: a sign stays in front of the added zero. */
  function ZFill2(c: char): (r: string)
    ensures |r| == 2
  {
    if c == '+' || c == '-' then [c, '0'] else ['0', c]
  }

  /** parse_cancel_date on a cell; "" stands for a missing cell, whose str() is "nan". */
  function ParseCancelDate(s: string): (r: Option<Date>)
    ensures r.Some? ==> ValidDate(r.value) && InRange(r.value)
    ensures |Strip(s)| != 7 && |Strip(s)| != 8 ==> r == None
  {
    var t := Strip(s);
    if |t| == 7 then ToDatetime(ZFill2(t[0]), t[1..3], t[3..])
    else if |t| == 8 then ToDatetime(t[0..2], t[2..4], t[4..])
    else None
  }

  // ---------------------------------------------------------------------------
  // Properties
  // ---------------------------------------------------------------------------

  /** The first example of the docstring: 3152025 is March 15, 2025. */
  lemma ExampleMarch()
    ensures ParseCancelDate("3152025") == Some(Date(2025, 3, 15))
  {
    var d := Date(2025, 3, 15);
    assert Format7(d) == "3152025";
    ParseFormat7(d);
  }

  /** The second example of the docstring: 2202025 is February 20, 2025. */
  lemma ExampleFebruary()
    ensures ParseCancelDate("2202025") == Some(Date(2025, 2, 20))
  {
    var d := Date(2025, 2, 20);
    assert Format7(d) == "2202025";
    ParseFormat7(d);
  }

  /** February 29 exists in 2024 and not in 2023. */
  lemma ExampleLeapDay()
    ensures ParseCancelDate("02292024") == Some(Date(2024, 2, 29))
    ensures ParseCancelDate("02292023") == None
  {
    var d := Date(2024, 2, 29);
    assert Format8(d) == "02292024";
    ParseFormat8(d);
    StripNoSpace("02292023");
    assert "02292023"[4..] == "2023";
    YearOfPad4(2023);
    assert Pad4(2023) == "2023";
  }

  /** There is no thirteenth month. */
  lemma ExampleBadMonth()
    ensures ParseCancelDate("13012025") == None
  {
    StripNoSpace("13012025");
    assert "13012025"[0..2] == "13";
  }

  /** Two decimal digits. */
  function Pad2(n: nat): (r: string)
    requires n < 100
    ensures |r| == 2
  {
    [DigitChar(n / 10), DigitChar(n % 10)]
  }

  /** Four decimal digits. */
  function Pad4(n: nat): (r: string)
    requires n < 10000
    ensures |r| == 4
  {
    [DigitChar(n / 1000), DigitChar(n / 100 % 10), DigitChar(n / 10 % 10), DigitChar(n % 10)]
  }

  /** The MMDDYYYY form of a date. */
  function Format8(d: Date): (r: string)
    requires ValidDate(d) && InRange(d)
    ensures |r| == 8
  {
    Pad2(d.month) + Pad2(d.day) + Pad4(d.year)
  }

  /** The MDDYYYY form of a date in January to September. */
  function Format7(d: Date): (r: string)
    requires ValidDate(d) && InRange(d) && d.month < 10
    ensures |r| == 7
  {
    [DigitChar(d.month)] + Pad2(d.day) + Pad4(d.year)
  }

  lemma YearOfPad4(n: nat)
    requires n < 10000
    ensures YearField(Pad4(n)) == Some(n)
  {
    var p := Pad4(n);
    var a := p[..1];
    var b := p[..2];
    var c := p[..3];
    assert a[..0] == [];
    assert DigitsValue(a) == n / 1000;
    assert b[..1] == a;
    assert DigitsValue(b) == n / 100;
    assert c[..2] == b;
    assert DigitsValue(c) == n / 10;
    assert p[..3] == c;
  }

  lemma DayOfPad2(n: nat)
    requires 1 <= n <= 31
    ensures DayField(Pad2(n)) == Some(n)
  {
  }

  lemma MonthOfPad2(n: nat)
    requires 1 <= n <= 12
    ensures MonthField(Pad2(n)) == Some(n)
  {
  }

  lemma InRangeYear(d: Date)
    requires InRange(d) && ValidDate(d)
    ensures 1677 <= d.year <= 2262
  {
  }

  /** Every date a Timestamp can hold reads back from its eight-digit form. */
  lemma ParseFormat8(d: Date)
    requires ValidDate(d) && InRange(d)
    ensures ParseCancelDate(Format8(d)) == Some(d)
  {
    var s := Format8(d);
    InRangeYear(d);
    StripNoSpace(s);
    assert s[0..2] == Pad2(d.month) && s[2..4] == Pad2(d.day) && s[4..] == Pad4(d.year);
    MonthOfPad2(d.month);
    DayOfPad2(d.day);
    YearOfPad4(d.year);
  }

  /** A date in January to September also reads back from its seven-digit form. */
  lemma ParseFormat7(d: Date)
    requires ValidDate(d) && InRange(d) && d.month < 10
    ensures ParseCancelDate(Format7(d)) == Some(d)
  {
    var s := Format7(d);
    InRangeYear(d);
    StripNoSpace(s);
    assert ZFill2(s[0]) == Pad2(d.month) && s[1..3] == Pad2(d.day) && s[3..] == Pad4(d.year);
    MonthOfPad2(d.month);
    DayOfPad2(d.day);
    YearOfPad4(d.year);
  }

  /** A digit character is the character of its value. */
  lemma CharOfDigit(c: char)
    requires IsDigit(c)
    ensures DigitChar(DigitValue(c)) == c
  {
  }

  /** The two characters %d accepts for day n: two digits, or a space and one digit below ten. */
  predicate IsDayText(f: string, n: nat)
    requires 1 <= n <= 31
  {
    f == Pad2(n) || (n < 10 && f == [' ', DigitChar(n)])
  }

  /** A month field that parses is the two-digit form of its month. */
  lemma MonthFieldMeaning(f: string)
    requires |f| == 2
    ensures MonthField(f).Some? ==> 1 <= MonthField(f).value <= 12 && f == Pad2(MonthField(f).value)
  {
    if MonthField(f).Some? {
      CharOfDigit(f[1]);
    }
  }

  /** A day field parses to n exactly when it is one of the day texts of n. */
  lemma DayFieldMeaning(f: string)
    requires |f| == 2
    ensures DayField(f).Some? ==> 1 <= DayField(f).value <= 31 && IsDayText(f, DayField(f).value)
  {
    if DayField(f).Some? {
      if IsDigit(f[0]) {
        CharOfDigit(f[0]);
      }
      CharOfDigit(f[1]);
    }
  }

  lemma DayOfSpaced(n: nat)
    requires 1 <= n <= 9
    ensures DayField([' ', DigitChar(n)]) == Some(n)
  {
  }

  /** The value of four digits. */
  lemma DigitsValue4(f: string)
    requires |f| == 4 && AllDigits(f)
    ensures DigitsValue(f) == 1000 * DigitValue(f[0]) + 100 * DigitValue(f[1]) + 10 * DigitValue(f[2]) + DigitValue(f[3])
  {
    assert f[..4] == f;
    assert f[..3][..2] == f[..2] && f[..2][..1] == f[..1] && f[..1][..0] == [];
    assert DigitsValue(f[..1]) == DigitValue(f[0]);
    assert DigitsValue(f[..2]) == 10 * DigitValue(f[0]) + DigitValue(f[1]);
    assert DigitsValue(f[..3]) == 100 * DigitValue(f[0]) + 10 * DigitValue(f[1]) + DigitValue(f[2]);
  }

  /** Pad4 writes back the four digits of a number built from them. */
  lemma Pad4Digits(a: nat, b: nat, c: nat, e: nat)
    requires a < 10 && b < 10 && c < 10 && e < 10
    ensures Pad4(1000 * a + 100 * b + 10 * c + e) == [DigitChar(a), DigitChar(b), DigitChar(c), DigitChar(e)]
  {
    var v := 1000 * a + 100 * b + 10 * c + e;
    assert v / 10 == 100 * a + 10 * b + c && v % 10 == e;
    assert v / 100 == 10 * a + b && v / 100 % 10 == b;
    assert v / 1000 == a;
    assert v / 10 % 10 == c;
  }

  /** A year field that parses is the four-digit form of its year. */
  lemma YearFieldMeaning(f: string)
    requires |f| == 4
    ensures YearField(f).Some? ==> YearField(f).value < 10000 && f == Pad4(YearField(f).value)
  {
    if YearField(f).Some? {
      DigitsValue4(f);
      Pad4Digits(DigitValue(f[0]), DigitValue(f[1]), DigitValue(f[2]), DigitValue(f[3]));
      CharOfDigit(f[0]);
      CharOfDigit(f[1]);
      CharOfDigit(f[2]);
      CharOfDigit(f[3]);
    }
  }

  /**
   * The trimmed cell t spells date d: MMDDYYYY, or MDDYYYY for months 1 to 9,
   * where the day may also be a space and one digit.
   */
  predicate Spells(t: string, d: Date)
    requires ValidDate(d) && InRange(d)
  {
    InRangeYear(d);
    || (|t| == 8 && t[0..2] == Pad2(d.month) && IsDayText(t[2..4], d.day) && t[4..] == Pad4(d.year))
    || (|t| == 7 && d.month < 10 && t[0] == DigitChar(d.month) && IsDayText(t[1..3], d.day) && t[3..] == Pad4(d.year))
  }

  lemma ZFillMonth(c: char)
    ensures MonthField(ZFill2(c)).Some? ==> IsDigit(c) && 1 <= DigitValue(c) <= 9 && MonthField(ZFill2(c)).value == DigitValue(c)
  {
  }

  /** A cell parses to d exactly when d is a valid in-range date that the trimmed cell spells. */
  lemma ParseCancelDateMeaning(s: string, d: Date)
    ensures ParseCancelDate(s) == Some(d) <==> ValidDate(d) && InRange(d) && Spells(Strip(s), d)
  {
    var t := Strip(s);
    if ParseCancelDate(s) == Some(d) {
      InRangeYear(d);
      if |t| == 8 {
        MonthFieldMeaning(t[0..2]);
        DayFieldMeaning(t[2..4]);
        YearFieldMeaning(t[4..]);
      } else {
        ZFillMonth(t[0]);
        CharOfDigit(t[0]);
        DayFieldMeaning(t[1..3]);
        YearFieldMeaning(t[3..]);
      }
    }
    if ValidDate(d) && InRange(d) && Spells(t, d) {
      InRangeYear(d);
      MonthOfPad2(d.month);
      DayOfPad2(d.day);
      if d.day < 10 {
        DayOfSpaced(d.day);
      }
      YearOfPad4(d.year);
      if |t| == 7 {
        assert ZFill2(t[0]) == Pad2(d.month);
      }
    }
  }

  /** A cell is NaT exactly when its trimmed text spells no valid in-range date. */
  lemma ParseCancelDateNaT(s: string)
    ensures ParseCancelDate(s) == None <==>
      forall d: Date :: ValidDate(d) && InRange(d) ==> !Spells(Strip(s), d)
  {
    if ParseCancelDate(s) == None {
      forall d: Date | ValidDate(d) && InRange(d) ensures !Spells(Strip(s), d) {
        ParseCancelDateMeaning(s, d);
      }
    } else {
      ParseCancelDateMeaning(s, ParseCancelDate(s).value);
    }
  }

  /** Days past the end of their month are NaT: 30 February and 31 April. */
  lemma ExampleMissingDays()
    ensures ParseCancelDate("02302025") == None
    ensures ParseCancelDate("04312025") == None
  {
    StripNoSpace("02302025");
    StripNoSpace("04312025");
    assert "02302025"[0..2] == "02" && "02302025"[2..4] == "30";
    assert "04312025"[0..2] == "04" && "04312025"[2..4] == "31";
  }

  /** A space-padded day is read as %d reads it. */
  lemma ExampleSpacedDay()
    ensures ParseCancelDate("03 52025") == Some(Date(2025, 3, 5))
  {
    var d := Date(2025, 3, 5);
    InRangeYear(d);
    assert Pad4(2025) == "2025" && Pad2(3) == "03" && DigitChar(5) == '5';
    assert Spells(Strip("03 52025"), d) by {
      StripNoEdges("03 52025");
    }
    ParseCancelDateMeaning("03 52025", d);
  }

  /** Calendar order: by year, then month, then day. */
  predicate Earlier(a: Date, b: Date) {
    a.year < b.year || (a.year == b.year && (a.month < b.month || (a.month == b.month && a.day < b.day)))
  }

  /** On valid dates the sort code is ordered as the calendar, and NaT comes after every date. */
  lemma CodeOrder(a: Date, b: Date)
    requires ValidDate(a) && ValidDate(b) && InRange(a) && InRange(b)
    ensures Code(a) < Code(b) <==> Earlier(a, b)
    ensures Code(a) == Code(b) <==> a == b
    ensures Code(a) < NaTCode
  {
    assert a.month * 100 + a.day < 10000 && b.month * 100 + b.day < 10000;
    if a.year < b.year {
      assert a.year * 10000 + 10000 <= b.year * 10000;
    } else if a.year > b.year {
      assert b.year * 10000 + 10000 <= a.year * 10000;
    }
  }
}
