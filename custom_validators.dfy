/**
 * The field formats of models/custom_validators.go: five anchored patterns,
 * each written here twice, as a character-level predicate (the validator)
 * and as the transcribed pattern (`...Format`), with a lemma that the two
 * accept the same strings.
 */
module CustomValidators {
  import opened Chars
  import opened Regex

  // ----- the patterns, transcribed -----

  /** `^[\w\s\-]+$` */
  const ShortDescriptionFormat: Re := Plus(Class(Union(Word, Union(Space, Lit('-')))))

  /** `^\d+\.\d{2}$` */
  const CashValueFormat: Re := Cat(Plus(Class(Digit)), Cat(Class(Lit('.')), Repeat(Class(Digit), 2)))

  /** `^[\w\s\-&]+$` */
  const RetailerNameFormat: Re := Plus(Class(Union(Word, Union(Space, Union(Lit('-'), Lit('&'))))))

  /** `1[0-2]|0[1-9]` */
  const MonthFormat: Re :=
    Alt(Cat(Class(Lit('1')), Class(Span('0', '2'))), Cat(Class(Lit('0')), Class(Span('1', '9'))))

  /** `3[01]|[1-2]\d|0[1-9]` */
  const DayFormat: Re :=
    Alt(Cat(Class(Lit('3')), Class(Union(Lit('0'), Lit('1')))),
        Alt(Cat(Class(Span('1', '2')), Class(Digit)), Cat(Class(Lit('0')), Class(Span('1', '9')))))

  /** `^(\d{4})-(1[0-2]|0[1-9])-(3[01]|[1-2]\d|0[1-9])$` */
  const DateFormat: Re :=
    Cat(Repeat(Class(Digit), 4), Cat(Class(Lit('-')), Cat(MonthFormat, Cat(Class(Lit('-')), DayFormat))))

  /** `[01][0-9]|[2][0-3]` */
  const HourFormat: Re :=
    Alt(Cat(Class(Span('0', '1')), Class(Span('0', '9'))), Cat(Class(Lit('2')), Class(Span('0', '3'))))

  /** `(^24:00$)|(^([01][0-9]|[2][0-3])):[0-5][0-9]$` */
  const TimeFormat: Re :=
    Alt(Literal("24:00"),
        Cat(HourFormat, Cat(Class(Lit(':')), Cat(Class(Span('0', '5')), Class(Span('0', '9'))))))

  // ----- the validators -----

  predicate IsShortDescriptionChar(c: char) {
    IsWordChar(c) || IsSpaceChar(c) || c == '-'
  }

  predicate IsRetailerNameChar(c: char) {
    IsShortDescriptionChar(c) || c == '&'
  }

  /** A non-empty run of word characters, RE2 white space and hyphens. */
  predicate CorrectShortDescription(s: string) {
    |s| >= 1 && forall i :: 0 <= i < |s| ==> IsShortDescriptionChar(s[i])
  }

  /** One or more digits, a dot, then exactly two digits. */
  predicate CorrectCashValue(s: string) {
    |s| >= 4 && AllDigits(s[..|s| - 3]) && s[|s| - 3] == '.' && IsDigit(s[|s| - 2]) && IsDigit(s[|s| - 1])
  }

  /** A non-empty run of word characters, RE2 white space, hyphens and ampersands. */
  predicate CorrectRetailerName(s: string) {
    |s| >= 1 && forall i :: 0 <= i < |s| ==> IsRetailerNameChar(s[i])
  }

  /** `YYYY-MM-DD` with month 1 to 12 and day 1 to 31, without any days-in-month check. */
  predicate CorrectDate(s: string) {
    |s| == 10 && AllDigits(s[..4]) && s[4] == '-' && s[7] == '-'
    && IsDigit(s[5]) && IsDigit(s[6]) && IsDigit(s[8]) && IsDigit(s[9])
    && 1 <= TwoDigitValue(s[5], s[6]) <= 12
    && 1 <= TwoDigitValue(s[8], s[9]) <= 31
  }

  /** `HH:MM` with hour 0 to 23 and minute 0 to 59, or exactly `24:00`. */
  predicate CorrectTime(s: string) {
    |s| == 5 && s[2] == ':' && IsDigit(s[0]) && IsDigit(s[1]) && IsDigit(s[3]) && IsDigit(s[4])
    && var hour, minute := TwoDigitValue(s[0], s[1]), TwoDigitValue(s[3], s[4]);
       (hour <= 23 && minute <= 59) || (hour == 24 && minute == 0)
  }

  // ----- each validator accepts exactly what its pattern matches -----

  lemma ShortDescriptionMatchesFormat(s: string)
    ensures CorrectShortDescription(s) <==> Matches(ShortDescriptionFormat, s)
  {
    var k := Union(Word, Union(Space, Lit('-')));
    PlusOfClass(k, s);
    forall i | 0 <= i < |s| ensures InClass(k, s[i]) <==> IsShortDescriptionChar(s[i]) {
      assert InClass(Union(Space, Lit('-')), s[i]) <==> IsSpaceChar(s[i]) || s[i] == '-';
    }
  }

  lemma RetailerNameMatchesFormat(s: string)
    ensures CorrectRetailerName(s) <==> Matches(RetailerNameFormat, s)
  {
    var k := Union(Word, Union(Space, Union(Lit('-'), Lit('&'))));
    PlusOfClass(k, s);
    forall i | 0 <= i < |s| ensures InClass(k, s[i]) <==> IsRetailerNameChar(s[i]) {
      assert InClass(Union(Lit('-'), Lit('&')), s[i]) <==> s[i] == '-' || s[i] == '&';
      assert InClass(Union(Space, Union(Lit('-'), Lit('&'))), s[i]) <==>
        IsSpaceChar(s[i]) || s[i] == '-' || s[i] == '&';
    }
  }

  lemma CashValueMatchesFormat(s: string)
    ensures CorrectCashValue(s) <==> Matches(CashValueFormat, s)
  {
    var tail := Cat(Class(Lit('.')), Repeat(Class(Digit), 2));
    RepeatWidth(Class(Digit), 2);
    CatRightFixed(Plus(Class(Digit)), tail, s);
    if |s| >= 3 {
      var t := s[|s| - 3..];
      PlusOfClass(Digit, s[..|s| - 3]);
      CatLeftFixed(Class(Lit('.')), Repeat(Class(Digit), 2), t);
      RepeatOfClass(Digit, 2, t[1..]);
      assert t[0] == s[|s| - 3] && t[1..][0] == s[|s| - 2] && t[1..][1] == s[|s| - 1];
    }
  }

  lemma MonthMatchesFormat(m: string)
    ensures Matches(MonthFormat, m) <==>
      |m| == 2 && IsDigit(m[0]) && IsDigit(m[1]) && 1 <= TwoDigitValue(m[0], m[1]) <= 12
  {
    ClassPair(Lit('1'), Span('0', '2'), m);
    ClassPair(Lit('0'), Span('1', '9'), m);
  }

  lemma DayMatchesFormat(d: string)
    ensures Matches(DayFormat, d) <==>
      |d| == 2 && IsDigit(d[0]) && IsDigit(d[1]) && 1 <= TwoDigitValue(d[0], d[1]) <= 31
  {
    ClassPair(Lit('3'), Union(Lit('0'), Lit('1')), d);
    ClassPair(Span('1', '2'), Digit, d);
    ClassPair(Lit('0'), Span('1', '9'), d);
  }

  lemma DateMatchesFormat(s: string)
    ensures CorrectDate(s) <==> Matches(DateFormat, s)
  {
    var dash := Class(Lit('-'));
    var afterMonth := Cat(dash, DayFormat);
    var afterYear := Cat(MonthFormat, afterMonth);
    RepeatWidth(Class(Digit), 4);
    CatLeftFixed(Repeat(Class(Digit), 4), Cat(dash, afterYear), s);
    if |s| >= 4 {
      RepeatOfClass(Digit, 4, s[..4]);
      CatLeftFixed(dash, afterYear, s[4..]);
      if |s| >= 5 {
        assert s[4..][..1][0] == s[4];
        assert s[4..][1..] == s[5..];
        CatLeftFixed(MonthFormat, afterMonth, s[5..]);
        if |s| >= 7 {
          assert s[5..][..2] == s[5..7];
          assert s[5..][2..] == s[7..];
          MonthMatchesFormat(s[5..7]);
          CatLeftFixed(dash, DayFormat, s[7..]);
          if |s| >= 8 {
            assert s[7..][..1][0] == s[7];
            assert s[7..][1..] == s[8..];
            DayMatchesFormat(s[8..]);
          }
        }
      }
    }
  }

  lemma HourMatchesFormat(h: string)
    ensures Matches(HourFormat, h) <==>
      |h| == 2 && IsDigit(h[0]) && IsDigit(h[1]) && TwoDigitValue(h[0], h[1]) <= 23
  {
    ClassPair(Span('0', '1'), Span('0', '9'), h);
    ClassPair(Lit('2'), Span('0', '3'), h);
  }

  lemma TimeMatchesFormat(s: string)
    ensures CorrectTime(s) <==> Matches(TimeFormat, s)
  {
    LiteralMatches("24:00", s);
    var minute := Cat(Class(Span('0', '5')), Class(Span('0', '9')));
    var afterHour := Cat(Class(Lit(':')), minute);
    CatLeftFixed(HourFormat, afterHour, s);
    if |s| >= 2 {
      HourMatchesFormat(s[..2]);
      CatLeftFixed(Class(Lit(':')), minute, s[2..]);
      if |s| >= 3 {
        assert s[2..][..1][0] == s[2];
        assert s[2..][1..] == s[3..];
        ClassPair(Span('0', '5'), Span('0', '9'), s[3..]);
      }
    }
  }

  // ----- consequences the receipt's tags rely on -----

  /** Every short description is also a valid retailer name (the retailer alphabet only adds `&`). */
  lemma ShortDescriptionIsRetailerName(s: string)
    ensures Matches(ShortDescriptionFormat, s) ==> Matches(RetailerNameFormat, s)
  {
    ShortDescriptionMatchesFormat(s);
    RetailerNameMatchesFormat(s);
  }

  /**
   * A cash amount has at least four characters and ends in two digits, so a
   * `min=4` tag beside the format is implied and the last two characters are
   * always digits.
   */
  lemma CashValueShape(s: string)
    requires Matches(CashValueFormat, s)
    ensures |s| >= 4 && IsDigit(s[|s| - 2]) && IsDigit(s[|s| - 1])
  {
    CashValueMatchesFormat(s);
  }

  /** Every matching date has exactly ten characters, so a `len=10` tag beside the format is implied. */
  lemma DateLength(s: string)
    requires Matches(DateFormat, s)
    ensures |s| == 10
  {
    DateMatchesFormat(s);
  }

  /** Every matching time has exactly five characters, so a `len=5` tag beside the format is implied. */
  lemma TimeLength(s: string)
    requires Matches(TimeFormat, s)
    ensures |s| == 5
  {
    TimeMatchesFormat(s);
  }

  /** A retailer name is never empty, so a `min=1` tag beside the format is implied. */
  lemma RetailerNameNonEmpty(s: string)
    requires Matches(RetailerNameFormat, s)
    ensures |s| >= 1
  {
    RetailerNameMatchesFormat(s);
  }

  // ----- the inputs of the validator tests -----

  lemma ShortDescriptionExamples()
    ensures CorrectShortDescription("Valid") && CorrectShortDescription("Valid Description")
    ensures CorrectShortDescription("This-is-a-valid-description")
    ensures CorrectShortDescription("Valid Description 123") && CorrectShortDescription("Apple")
    ensures CorrectShortDescription("This is a valid description")
    ensures !CorrectShortDescription("Hello@world") && !CorrectShortDescription("")
  {
    assert !IsShortDescriptionChar("Hello@world"[5]);
  }

  lemma CashValueExamples()
    ensures CorrectCashValue("00.00") && CorrectCashValue("99.99") && CorrectCashValue("999999.99")
    ensures CorrectCashValue("1234.56") && CorrectCashValue("12345.67")
    ensures !CorrectCashValue("12345.6755") && !CorrectCashValue("abc")
    ensures !CorrectCashValue("%.^?") && !CorrectCashValue(" ")
  {
  }

  lemma RetailerNameExamples()
    ensures CorrectRetailerName("Valid Retailer Name") && CorrectRetailerName("M&M Corner Market")
    ensures !CorrectRetailerName("Valid Retailer Name & Co.") && !CorrectRetailerName("")
  {
    assert !IsRetailerNameChar("Valid Retailer Name & Co."[24]);
  }

  lemma DateExamples()
    ensures CorrectDate("2022-01-01") && CorrectDate("9999-12-01") && CorrectDate("2022-12-31")
    ensures CorrectDate("2022-12-01") && CorrectDate("2024-01-01") && CorrectDate("2023-02-30")
    ensures !CorrectDate("9999-00-01") && !CorrectDate("9999-13-01")
    ensures !CorrectDate("9999-12-00") && !CorrectDate("9999-12-32")
    ensures !CorrectDate("20224-01-01") && !CorrectDate("2024-011-01") && !CorrectDate("2024-01-011")
  {
  }

  lemma TimeExamples()
    ensures CorrectTime("00:00") && CorrectTime("24:00") && CorrectTime("23:59")
    ensures !CorrectTime("25:00") && !CorrectTime("23:60") && !CorrectTime("30:00")
    ensures !CorrectTime("24:01") && !CorrectTime("001:00") && !CorrectTime("00:001")
  {
  }
}
