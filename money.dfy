/**
 * Money as exact integer cents. The source parses amounts with
 * `strconv.ParseFloat` and prints them with `fmt.Sprintf("%.2f", ...)`; on
 * the strings the cash format admits, both are modelled exactly here.
 */
module Money {
  import opened Optional
  import opened Chars
  import opened CustomValidators

  /** The value of a string of decimal digits (leading zeros allowed). */
  function DigitsValue(t: string): nat
    requires AllDigits(t)
  {
    if t == [] then 0 else 10 * DigitsValue(t[..|t| - 1]) + DigitValue(t[|t| - 1])
  }

  /** An amount in cents, for exactly the strings of the cash format `\d+\.\d{2}`. */
  function ParseCents(s: string): (r: Option<nat>)
    ensures r.Some? <==> CorrectCashValue(s)
    ensures r.Some? ==> r.value / 100 == DigitsValue(s[..|s| - 3])
    ensures r.Some? ==> r.value % 100 == TwoDigitValue(s[|s| - 2], s[|s| - 1])
  {
    if CorrectCashValue(s) then
      Some(100 * DigitsValue(s[..|s| - 3]) + TwoDigitValue(s[|s| - 2], s[|s| - 1]))
    else
      None
  }

  /** The decimal digits of `n` without leading zeros (`"0"` for zero). */
  function NatDigits(n: nat): (t: string)
    ensures |t| >= 1 && AllDigits(t) && DigitsValue(t) == n
    ensures t[0] == '0' ==> n == 0
  {
    if n < 10 then
      [DigitChar(n)]
    else
      var t := NatDigits(n / 10) + [DigitChar(n % 10)];
      assert t[..|t| - 1] == NatDigits(n / 10);
      t
  }

  /**
   * `fmt.Sprintf("%.2f", x)` for an exact amount of `c` cents: the dollars
   * without leading zeros, a dot, and two digits of cents. Reading it back
   * gives the same amount.
   */
  function FormatCents(c: nat): (s: string)
    ensures CorrectCashValue(s)
    ensures ParseCents(s) == Some(c)
  {
    var s := NatDigits(c / 100) + ['.', DigitChar(c / 10 % 10), DigitChar(c % 10)];
    assert s[..|s| - 3] == NatDigits(c / 100);
    s
  }

  /** Two amounts print the same at two decimals exactly when they are equal. */
  lemma FormatCentsInjective(a: nat, b: nat)
    ensures FormatCents(a) == FormatCents(b) <==> a == b
  {
    if FormatCents(a) == FormatCents(b) {
      assert ParseCents(FormatCents(a)) == ParseCents(FormatCents(b));
    }
  }

  /** A digit string has a positive value exactly when one of its digits is not zero. */
  lemma {:induction false} DigitsValuePositive(t: string)
    requires AllDigits(t)
    ensures DigitsValue(t) > 0 <==> exists i :: 0 <= i < |t| && t[i] != '0'
  {
    if t != [] {
      var init := t[..|t| - 1];
      DigitsValuePositive(init);
      if exists i :: 0 <= i < |init| && init[i] != '0' {
        var i :| 0 <= i < |init| && init[i] != '0';
        assert t[i] != '0';
      }
      if exists i :: 0 <= i < |t| && t[i] != '0' {
        var i :| 0 <= i < |t| && t[i] != '0';
        if i < |t| - 1 { assert init[i] != '0'; }
      }
    }
  }

  /** A cash amount is positive exactly when some digit of it is not zero. */
  lemma CentsPositive(s: string)
    requires CorrectCashValue(s)
    ensures ParseCents(s).value > 0 <==> exists i :: 0 <= i < |s| && IsDigit(s[i]) && s[i] != '0'
  {
    var dollars := s[..|s| - 3];
    DigitsValuePositive(dollars);
    var c := ParseCents(s).value;
    assert c == 100 * DigitsValue(dollars) + TwoDigitValue(s[|s| - 2], s[|s| - 1]);
    if exists i :: 0 <= i < |dollars| && dollars[i] != '0' {
      var i :| 0 <= i < |dollars| && dollars[i] != '0';
      assert s[i] == dollars[i] && IsDigit(s[i]);
    }
    if exists i :: 0 <= i < |s| && IsDigit(s[i]) && s[i] != '0' {
      var i :| 0 <= i < |s| && IsDigit(s[i]) && s[i] != '0';
      if i < |s| - 3 { assert dollars[i] != '0'; }
    }
  }

  /**
   * `strconv.Atoi`: an optional sign followed by one or more decimal digits.
   * Its 64-bit range error is not modelled.
   */
  function Atoi(s: string): Option<int> {
    if |s| >= 1 && AllDigits(s) then
      Some(DigitsValue(s))
    else if |s| >= 2 && (s[0] == '+' || s[0] == '-') && AllDigits(s[1..]) then
      var v: int := DigitsValue(s[1..]);
      Some(if s[0] == '-' then -v else v)
    else
      None
  }

  /** On a one-character string, `Atoi` succeeds exactly on a digit, with that digit's value. */
  lemma AtoiOneChar(c: char)
    ensures Atoi([c]) == if IsDigit(c) then Some(DigitValue(c)) else None
  {
    if IsDigit(c) {
      assert AllDigits([c]);
      assert [c][..0] == [] && DigitsValue([]) == 0;
      assert DigitsValue([c]) == DigitValue(c);
    }
  }
}
