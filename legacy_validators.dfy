/**
 * The earlier revision of the validators, models/customValidators.go. It
 * matches the same three patterns as models/custom_validators.go (written
 * inline there), and adds a positivity test to the cash value and a
 * non-empty test to the retailer name.
 */
module LegacyValidators {
  import opened Chars
  import opened Regex
  import opened Money
  import CV = CustomValidators

  ghost predicate CorrectShortDescription(s: string) {
    Matches(CV.ShortDescriptionFormat, s)
  }

  /**
   * The pattern matches and the parsed amount is positive. `ParseFloat`'s
   * error is discarded in the source and its value is then 0; that case only
   * arises when the pattern already failed.
   */
  ghost predicate CorrectCashValue(s: string) {
    Matches(CV.CashValueFormat, s) && ParseCents(s).GetOr(0) > 0
  }

  ghost predicate CorrectRetailerName(s: string) {
    Matches(CV.RetailerNameFormat, s) && |s| > 0
  }

  /** The short-description check did not change between the revisions. */
  lemma ShortDescriptionUnchanged(s: string)
    ensures CorrectShortDescription(s) <==> CV.CorrectShortDescription(s)
  {
    CV.ShortDescriptionMatchesFormat(s);
  }

  /** The `len(value) > 0` test is redundant: `+` already forbids the empty string. */
  lemma RetailerNameUnchanged(s: string)
    ensures CorrectRetailerName(s) <==> CV.CorrectRetailerName(s)
  {
    CV.RetailerNameMatchesFormat(s);
  }

  /** The earlier cash check is the later one plus "some digit is not zero". */
  lemma CashValueIsPositiveCash(s: string)
    ensures CorrectCashValue(s) <==>
      CV.CorrectCashValue(s) && exists i :: 0 <= i < |s| && IsDigit(s[i]) && s[i] != '0'
  {
    CV.CashValueMatchesFormat(s);
    if CV.CorrectCashValue(s) {
      CentsPositive(s);
    }
  }

  /** The earlier cash check is strictly stronger: it rejects `00.00`, which the later one accepts. */
  lemma CashValueStricter(s: string)
    ensures CorrectCashValue(s) ==> CV.CorrectCashValue(s)
    ensures CV.CorrectCashValue("00.00") && !CorrectCashValue("00.00")
  {
    CV.CashValueMatchesFormat(s);
    CentsPositive("00.00");
  }

  /** A cash amount whose first digit is not zero passes the earlier check. */
  lemma NonZeroLeadIsPositive(s: string)
    requires CV.CorrectCashValue(s) && s[0] != '0'
    ensures CorrectCashValue(s)
  {
    CashValueIsPositiveCash(s);
    assert IsDigit(s[0]);
  }

  lemma TenDollarsAccepted()
    ensures CorrectCashValue("10.00")
  {
    NonZeroLeadIsPositive("10.00");
  }

  /** An amount under one dollar is still positive, and accepted. */
  lemma UnderOneDollarAccepted()
    ensures CorrectCashValue("0.99")
  {
    CashValueIsPositiveCash("0.99");
    assert "0.99"[3] != '0';
  }

  lemma SixCharacterAmountAccepted()
    ensures CorrectCashValue("123.45")
  {
    NonZeroLeadIsPositive("123.45");
  }

  lemma LargeAmountAccepted()
    ensures CorrectCashValue("9999.00")
  {
    NonZeroLeadIsPositive("9999.00");
  }

  lemma FiftyCentsAccepted()
    ensures CorrectCashValue("50.50")
  {
    NonZeroLeadIsPositive("50.50");
  }

  /** The amounts the earlier tests accept. */
  lemma CashValueExamples()
    ensures CorrectCashValue("10.00") && CorrectCashValue("0.99") && CorrectCashValue("123.45")
    ensures CorrectCashValue("9999.00") && CorrectCashValue("50.50")
  {
    TenDollarsAccepted();
    UnderOneDollarAccepted();
    SixCharacterAmountAccepted();
    LargeAmountAccepted();
    FiftyCentsAccepted();
  }

  /** The earlier retailer check rejects the empty name its tests submit. */
  lemma RetailerNameExamples()
    ensures !CorrectRetailerName("")
    ensures CorrectRetailerName("Valid Retailer Name")
  {
    RetailerNameUnchanged("Valid Retailer Name");
  }
}
