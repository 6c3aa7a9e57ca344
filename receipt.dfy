/**
 * A receipt and what the service does with it, models/receipt.go: the
 * binding tags that decide whether it is well formed, `Validate` (the items
 * add up to the total) and `Points` (the score).
 */
module Receipts {
  import opened Optional
  import opened Chars
  import opened Regex
  import opened CustomValidators
  import opened Money
  import opened Items
  import opened Sums
  import Legacy = LegacyValidators

  /**
   * `items` is `None` for Go's nil slice (the key was absent from the JSON),
   * which `required` rejects; everywhere else a nil slice behaves as an
   * empty one.
   */
  datatype Receipt = Receipt(
    retailer: string,
    purchaseDate: string,
    purchaseTime: string,
    items: Option<seq<Item>>,
    total: string)
  {
    function ItemList(): seq<Item> {
      items.GetOr([])
    }
  }

  // ===== Well-formedness: the binding tags =====

  /**
   * Every tag on every field: `required` (a non-empty string, a non-nil
   * slice), the length tags and the formats; `dive` applies the item tags to
   * each element.
   */
  predicate WellFormed(r: Receipt) {
    && r.retailer != "" && |r.retailer| >= 1 && CorrectRetailerName(r.retailer)
    && r.purchaseDate != "" && |r.purchaseDate| == 10 && CorrectDate(r.purchaseDate)
    && r.purchaseTime != "" && |r.purchaseTime| == 5 && CorrectTime(r.purchaseTime)
    && r.items.Some? && (forall it :: it in r.items.value ==> ItemWellFormed(it))
    && r.total != "" && |r.total| >= 4 && CorrectCashValue(r.total)
  }

  /**
   * The length and `required` tags on the string fields are all implied by
   * the patterns: a receipt is well formed exactly when its items are present
   * and every string field matches its pattern.
   */
  lemma WellFormedByFormats(r: Receipt)
    ensures WellFormed(r) <==>
      && Matches(RetailerNameFormat, r.retailer)
      && Matches(DateFormat, r.purchaseDate)
      && Matches(TimeFormat, r.purchaseTime)
      && r.items.Some?
      && (forall it :: it in r.items.value ==>
            Matches(ShortDescriptionFormat, it.shortDescription) && Matches(CashValueFormat, it.price))
      && Matches(CashValueFormat, r.total)
  {
    RetailerNameMatchesFormat(r.retailer);
    DateMatchesFormat(r.purchaseDate);
    TimeMatchesFormat(r.purchaseTime);
    CashValueMatchesFormat(r.total);
    if r.items.Some? {
      forall it | it in r.items.value
        ensures ItemWellFormed(it) <==>
          Matches(ShortDescriptionFormat, it.shortDescription) && Matches(CashValueFormat, it.price)
      {
        ItemWellFormedByFormats(it);
      }
    }
  }

  /** The same tags with the earlier revision of the validators (models/customValidators.go). */
  ghost predicate WellFormedLegacy(r: Receipt) {
    && r.retailer != "" && |r.retailer| >= 1 && Legacy.CorrectRetailerName(r.retailer)
    && r.purchaseDate != "" && |r.purchaseDate| == 10 && CorrectDate(r.purchaseDate)
    && r.purchaseTime != "" && |r.purchaseTime| == 5 && CorrectTime(r.purchaseTime)
    && r.items.Some?
    && (forall it :: it in r.items.value ==>
          it.shortDescription != "" && Legacy.CorrectShortDescription(it.shortDescription)
          && it.price != "" && Legacy.CorrectCashValue(it.price))
    && r.total != "" && |r.total| >= 4 && Legacy.CorrectCashValue(r.total)
  }

  /** Under the earlier validators a receipt must also have a positive total and positive prices. */
  lemma WellFormedLegacyIsPositive(r: Receipt)
    ensures WellFormedLegacy(r) <==>
      && WellFormed(r)
      && ParseCents(r.total).value > 0
      && (forall it :: it in r.items.value ==> ParseCents(it.price).value > 0)
  {
    Legacy.RetailerNameUnchanged(r.retailer);
    Legacy.CashValueIsPositiveCash(r.total);
    if CorrectCashValue(r.total) { CentsPositive(r.total); }
    if r.items.Some? {
      forall it | it in r.items.value
        ensures (it.shortDescription != "" && Legacy.CorrectShortDescription(it.shortDescription)
                 && it.price != "" && Legacy.CorrectCashValue(it.price))
            <==> ItemWellFormed(it) && ParseCents(it.price).value > 0
      {
        Legacy.ShortDescriptionUnchanged(it.shortDescription);
        Legacy.CashValueIsPositiveCash(it.price);
        if CorrectCashValue(it.price) { CentsPositive(it.price); }
      }
    }
  }

  // ===== Validate: the items add up to the total =====

  datatype ValidationError =
    | InvalidTotal
    | InvalidItemPrice
    | SumMismatch(itemsTotal: nat, total: nat)

  predicate AllPricesParse(items: seq<Item>) {
    forall it :: it in items ==> ParseCents(it.price).Some?
  }

  /** The price of an item in cents (0 when it does not parse; only used where it does). */
  function PriceCents(it: Item): nat {
    ParseCents(it.price).GetOr(0)
  }

  /** The outcome `Validate` returns: parse the total, then every price, then compare at two decimals. */
  function ValidateOf(r: Receipt): Outcome<ValidationError> {
    match ParseCents(r.total)
    case None => Fail(InvalidTotal)
    case Some(total) =>
      if !AllPricesParse(r.ItemList()) then
        Fail(InvalidItemPrice)
      else
        var itemsTotal := Total(r.ItemList(), PriceCents);
        if FormatCents(itemsTotal) != FormatCents(total) then Fail(SumMismatch(itemsTotal, total)) else Pass
  }

  method Validate(r: Receipt) returns (res: Outcome<ValidationError>)
    ensures res == ValidateOf(r)
  {
    var parsedTotal := ParseCents(r.total);
    if parsedTotal.None? {
      return Fail(InvalidTotal);
    }
    var total := parsedTotal.value;
    var items := r.ItemList();
    var itemsTotal := 0;
    var i := 0;
    while i < |items|
      invariant 0 <= i <= |items|
      invariant AllPricesParse(items[..i])
      invariant itemsTotal == Total(items[..i], PriceCents)
    {
      var itemPrice := ParseCents(items[i].price);
      if itemPrice.None? {
        assert items[i] in items;
        return Fail(InvalidItemPrice);
      }
      TotalSnoc(items, i, PriceCents);
      assert items[..i + 1] == items[..i] + [items[i]];
      itemsTotal := itemsTotal + itemPrice.value;
      i := i + 1;
    }
    assert items[..i] == items;
    if FormatCents(itemsTotal) != FormatCents(total) {
      return Fail(SumMismatch(itemsTotal, total));
    }
    return Pass;
  }

  /** `Validate` accepts exactly the receipts whose prices add up, in cents, to the total. */
  lemma ValidateAccepts(r: Receipt)
    ensures ValidateOf(r) == Pass <==>
      && CorrectCashValue(r.total)
      && AllPricesParse(r.ItemList())
      && Total(r.ItemList(), PriceCents) == ParseCents(r.total).value
  {
    if CorrectCashValue(r.total) && AllPricesParse(r.ItemList()) {
      FormatCentsInjective(Total(r.ItemList(), PriceCents), ParseCents(r.total).value);
    }
  }

  /** When every price parses but the sums differ, `Validate` reports both sums. */
  lemma ValidateReportsMismatch(r: Receipt)
    requires CorrectCashValue(r.total) && AllPricesParse(r.ItemList())
    requires Total(r.ItemList(), PriceCents) != ParseCents(r.total).value
    ensures ValidateOf(r) == Fail(SumMismatch(Total(r.ItemList(), PriceCents), ParseCents(r.total).value))
  {
    FormatCentsInjective(Total(r.ItemList(), PriceCents), ParseCents(r.total).value);
  }

  /** After the binding tags have passed, the only way `Validate` can fail is a sum mismatch. */
  lemma ValidateWellFormed(r: Receipt)
    requires WellFormed(r)
    ensures ValidateOf(r) == Pass || ValidateOf(r).error.SumMismatch?
  {
  }

  /** Reordering the items does not change what `Validate` returns. */
  lemma ValidateReorder(r: Receipt, items: seq<Item>)
    requires multiset(r.ItemList()) == multiset(items)
    ensures ValidateOf(r.(items := Some(items))) == ValidateOf(r)
  {
    var r' := r.(items := Some(items));
    forall it ensures it in items <==> it in r.ItemList() {
      assert it in items <==> it in multiset(items);
      assert it in r.ItemList() <==> it in multiset(r.ItemList());
    }
    TotalPermutation(r.ItemList(), items, PriceCents);
  }

  // ===== Points: the score =====

  datatype PointsError =
    | MalformedPrice  // a qualifying item's price does not parse
    | MalformedDay    // the last character of the date is not a number

  // ----- retailer name -----

  /** Letters and digits, ASCII only (all that a well-formed retailer name can hold). */
  predicate IsAlphanumeric(c: char) {
    IsAsciiLetter(c) || IsDigit(c)
  }

  function AlnumWeight(c: char): nat {
    if IsAlphanumeric(c) then 1 else 0
  }

  /** The number of letters and digits in `s`. */
  function AlnumCount(s: string): nat {
    Total(s, AlnumWeight)
  }

  method GetNumAlphanumerical(s: string) returns (count: int)
    ensures count == AlnumCount(s)
  {
    count := 0;
    var i := 0;
    while i < |s|
      invariant 0 <= i <= |s|
      invariant count == AlnumCount(s[..i])
    {
      TotalSnoc(s, i, AlnumWeight);
      if IsAlphanumeric(s[i]) {
        count := count + 1;
      }
      i := i + 1;
    }
    assert s[..i] == s;
  }

  /**
   * The count is at most the length; it is zero exactly when there is no
   * letter or digit, and the full length exactly when every character is one.
   */
  lemma {:induction false} AlnumCountBounds(s: string)
    ensures AlnumCount(s) <= |s|
    ensures AlnumCount(s) == 0 <==> forall i :: 0 <= i < |s| ==> !IsAlphanumeric(s[i])
    ensures AlnumCount(s) == |s| <==> forall i :: 0 <= i < |s| ==> IsAlphanumeric(s[i])
  {
    if s != [] {
      AlnumCountBounds(s[1..]);
      assert forall i :: 1 <= i < |s| ==> s[i] == s[1..][i - 1];
    }
  }

  // ----- total -----

  function GetPointsRoundAmount(cents: string): nat {
    if cents == "00" then 50 else 0
  }

  function GetPointsMultipleOf25(cents: string): nat {
    if cents == "00" || cents == "25" || cents == "50" || cents == "75" then 25 else 0
  }

  /** The last two characters of a cash amount are its cents. */
  lemma CentsOfTotal(total: string)
    requires CorrectCashValue(total)
    ensures var cents := total[|total| - 2..];
      |cents| == 2 && cents[0] == total[|total| - 2] && cents[1] == total[|total| - 1]
      && ParseCents(total).value % 100 == TwoDigitValue(cents[0], cents[1])
  {
  }

  /** On a cash amount, the 50-point term fires exactly for a whole number of dollars. */
  lemma RoundAmountMeaning(total: string)
    requires CorrectCashValue(total)
    ensures GetPointsRoundAmount(total[|total| - 2..]) == if ParseCents(total).value % 100 == 0 then 50 else 0
  {
    var cents := total[|total| - 2..];
    CentsOfTotal(total);
    assert cents == "00" <==> cents[0] == '0' && cents[1] == '0';
  }

  /** A two-digit cents value is a multiple of 25 only for 00, 25, 50 and 75. */
  lemma QuarterCents(c: nat, tens: nat, units: nat)
    requires tens < 10 && units < 10 && c % 100 == 10 * tens + units
    ensures c % 25 == 0 <==>
      (tens == 0 && units == 0) || (tens == 2 && units == 5) || (tens == 5 && units == 0) || (tens == 7 && units == 5)
  {
    var r := 10 * tens + units;
    assert c == 100 * (c / 100) + r;
    assert c % 25 == r % 25 by {
      assert c == 25 * (4 * (c / 100)) + r;
    }
    var k := r / 25;
    assert r == 25 * k + r % 25;
    assert k < 4;
  }

  /** On a cash amount, the 25-point term fires exactly for a multiple of a quarter dollar. */
  lemma MultipleOf25Meaning(total: string)
    requires CorrectCashValue(total)
    ensures GetPointsMultipleOf25(total[|total| - 2..]) == if ParseCents(total).value % 25 == 0 then 25 else 0
  {
    var cents := total[|total| - 2..];
    CentsOfTotal(total);
    var tens, units := DigitValue(cents[0]), DigitValue(cents[1]);
    QuarterCents(ParseCents(total).value, tens, units);
    assert cents == "00" <==> tens == 0 && units == 0;
    assert cents == "25" <==> tens == 2 && units == 5;
    assert cents == "50" <==> tens == 5 && units == 0;
    assert cents == "75" <==> tens == 7 && units == 5;
  }

  // ----- item descriptions -----

  predicate AllSpaces(s: string) {
    forall i :: 0 <= i < |s| ==> s[i] == ' '
  }

  /** The number of space characters (only ' ', not tabs) that `s` starts with. */
  function LeadingSpaces(s: string): (n: nat)
    ensures n <= |s|
  {
    if s != [] && s[0] == ' ' then 1 + LeadingSpaces(s[1..]) else 0
  }

  /** The number of space characters that `s` ends with. */
  function TrailingSpaces(s: string): (n: nat)
    ensures n <= |s|
  {
    if s != [] && s[|s| - 1] == ' ' then 1 + TrailingSpaces(s[..|s| - 1]) else 0
  }

  /** `LeadingSpaces` counts the longest run of spaces at the front. */
  lemma {:induction false} LeadingSpacesSpec(s: string)
    ensures var n := LeadingSpaces(s);
      AllSpaces(s[..n]) && (n == |s| || s[n] != ' ')
  {
    if s != [] && s[0] == ' ' {
      LeadingSpacesSpec(s[1..]);
      var n := LeadingSpaces(s);
      assert forall i :: 1 <= i < n ==> s[..n][i] == s[1..][..n - 1][i - 1];
    }
  }

  /** `TrailingSpaces` counts the longest run of spaces at the back. */
  lemma {:induction false} TrailingSpacesSpec(s: string)
    ensures var n := TrailingSpaces(s);
      AllSpaces(s[|s| - n..]) && (n == |s| || s[|s| - n - 1] != ' ')
  {
    if s != [] && s[|s| - 1] == ' ' {
      var init := s[..|s| - 1];
      TrailingSpacesSpec(init);
      var n := TrailingSpaces(s);
      var tail, initTail := s[|s| - n..], init[|init| - (n - 1)..];
      forall i | 0 <= i < n
        ensures tail[i] == ' '
      {
        assert tail[i] == s[|s| - n + i];
        if i < n - 1 {
          assert initTail[i] == init[|init| - (n - 1) + i] == s[|s| - n + i];
        }
      }
    }
  }

  /** `strings.TrimLeft(s, " ")`. */
  function TrimLeftSpaces(s: string): string {
    s[LeadingSpaces(s)..]
  }

  /** `strings.TrimRight(s, " ")`. */
  function TrimRightSpaces(s: string): string {
    s[..|s| - TrailingSpaces(s)]
  }

  /** `strings.Trim(s, " ")`. */
  function TrimSpaces(s: string): string {
    TrimRightSpaces(TrimLeftSpaces(s))
  }

  /**
   * The trimmed string is the part of `s` between its leading and its
   * trailing run of spaces, and it neither starts nor ends with a space.
   */
  lemma TrimSpacesSpec(s: string)
    ensures var t := TrimSpaces(s);
      && |t| <= |s|
      && (t == [] || (t[0] != ' ' && t[|t| - 1] != ' '))
      && exists i :: 0 <= i && i + |t| <= |s| && t == s[i..i + |t|] && AllSpaces(s[..i]) && AllSpaces(s[i + |t|..])
  {
    var l := TrimLeftSpaces(s);
    var t := TrimRightSpaces(l);
    var i := LeadingSpaces(s);
    LeadingSpacesSpec(s);
    TrailingSpacesSpec(l);
    assert t == s[i..i + |t|];
    assert forall k :: 0 <= k < |s| - (i + |t|) ==> s[i + |t|..][k] == l[|t|..][k];
  }

  /** A run of spaces in front of a string that does not start with one is exactly what `LeadingSpaces` counts. */
  lemma {:induction false} LeadingSpacesOfPadded(pad: string, s: string)
    requires AllSpaces(pad) && (s == [] || s[0] != ' ')
    ensures LeadingSpaces(pad + s) == |pad|
  {
    if pad != [] {
      assert (pad + s)[1..] == pad[1..] + s;
      LeadingSpacesOfPadded(pad[1..], s);
    }
  }

  /** A run of spaces after a string that does not end with one is exactly what `TrailingSpaces` counts. */
  lemma {:induction false} TrailingSpacesOfPadded(s: string, pad: string)
    requires AllSpaces(pad) && (s == [] || s[|s| - 1] != ' ')
    ensures TrailingSpaces(s + pad) == |pad|
  {
    if pad != [] {
      var init := pad[..|pad| - 1];
      assert (s + pad)[..|s + pad| - 1] == s + init;
      TrailingSpacesOfPadded(s, init);
    }
  }

  /**
   * When `s[i..j]` neither starts nor ends with a space and only spaces
   * stand before and after it, trimming gives exactly `s[i..j]`.
   */
  lemma TrimBetween(s: string, i: nat, j: nat)
    requires i < j <= |s|
    requires AllSpaces(s[..i]) && AllSpaces(s[j..])
    requires s[i] != ' ' && s[j - 1] != ' '
    ensures TrimSpaces(s) == s[i..j]
  {
    var core := s[i..j];
    assert s == s[..i] + (core + s[j..]);
    LeadingSpacesOfPadded(s[..i], core + s[j..]);
    assert TrimLeftSpaces(s) == core + s[j..];
    TrailingSpacesOfPadded(core, s[j..]);
  }

  /** A string of spaces only trims to nothing. */
  lemma TrimAllSpaces(s: string)
    requires AllSpaces(s)
    ensures TrimSpaces(s) == []
  {
    LeadingSpacesSpec(s);
  }

  /** `ceil(price * 0.2)` for a price of `cents` cents, that is the least `p` with `500 * p >= cents`. */
  function DescriptionBonus(cents: nat): (p: nat)
    ensures 500 * p >= cents && 500 * (p - 1) < cents
  {
    (cents + 499) / 500
  }

  /** The trimmed description's length is a multiple of 3 (zero included). */
  predicate Qualifies(it: Item) {
    |TrimSpaces(it.shortDescription)| % 3 == 0
  }

  /** Only qualifying items have their price parsed. */
  predicate QualifyingPricesParse(items: seq<Item>) {
    forall it :: it in items && Qualifies(it) ==> ParseCents(it.price).Some?
  }

  function ItemBonus(it: Item): nat {
    if Qualifies(it) then DescriptionBonus(PriceCents(it)) else 0
  }

  /**
   * A description made of spaces only passes its format and trims to the
   * empty string, whose length 0 is a multiple of 3: such an item earns its
   * price bonus.
   */
  lemma BlankDescriptionQualifies(it: Item)
    requires |it.shortDescription| >= 1 && AllSpaces(it.shortDescription)
    ensures CorrectShortDescription(it.shortDescription)
    ensures TrimSpaces(it.shortDescription) == [] && Qualifies(it)
    ensures ItemBonus(it) == DescriptionBonus(PriceCents(it))
  {
    TrimAllSpaces(it.shortDescription);
  }

  method GetPointsForItems(items: seq<Item>) returns (points: int, err: Option<PointsError>)
    ensures err.None? <==> QualifyingPricesParse(items)
    ensures err.None? ==> points == Total(items, ItemBonus)
    ensures err.Some? ==> points == -1 && err == Some(MalformedPrice)
  {
    points := 0;
    var i := 0;
    while i < |items|
      invariant 0 <= i <= |items|
      invariant QualifyingPricesParse(items[..i])
      invariant points == Total(items[..i], ItemBonus)
    {
      TotalSnoc(items, i, ItemBonus);
      assert items[..i + 1] == items[..i] + [items[i]];
      if Qualifies(items[i]) {
        var price := ParseCents(items[i].price);
        if price.None? {
          assert items[i] in items;
          return -1, Some(MalformedPrice);
        }
        points := points + DescriptionBonus(price.value);
      }
      i := i + 1;
    }
    assert items[..i] == items;
    return points, None;
  }

  // ----- date and time -----

  /** Go's `%` truncates toward zero. */
  function TruncatedRem(a: int, b: nat): int
    requires b > 0
  {
    if a >= 0 then a % b else -((-a) % b)
  }

  /** 6 points for an odd number; Go's remainder makes every negative number score 0. */
  function GetPointsForOddDate(day: int): (p: nat)
    ensures p == (if day >= 0 && day % 2 == 1 then 6 else 0)
  {
    if TruncatedRem(day, 2) == 1 then 6 else 0
  }

  function GetPointsForTimeOfPurchase(receiptHour: string): nat {
    if receiptHour == "14" || receiptHour == "15" then 10 else 0
  }

  /** On a well-formed date the last character is a digit, and the term fires exactly for an odd day of the month. */
  lemma OddDayMeaning(date: string)
    requires CorrectDate(date)
    ensures Atoi(date[|date| - 1..]) == Some(DigitValue(date[9]))
    ensures GetPointsForOddDate(DigitValue(date[9])) == if TwoDigitValue(date[8], date[9]) % 2 == 1 then 6 else 0
  {
    assert date[|date| - 1..] == [date[9]];
    AtoiOneChar(date[9]);
  }

  /** On a well-formed time the term fires exactly from 14:00 to 15:59. */
  lemma AfternoonMeaning(time: string)
    requires CorrectTime(time)
    ensures GetPointsForTimeOfPurchase(time[..2]) == if 14 <= TwoDigitValue(time[0], time[1]) <= 15 then 10 else 0
  {
    var hour := time[..2];
    assert hour == "14" <==> time[0] == '1' && time[1] == '4';
    assert hour == "15" <==> time[0] == '1' && time[1] == '5';
  }

  // ----- the whole score -----

  /**
   * `Points` slices the total first, the date only once the items have
   * scored, and the time only once the day has been read; Go panics when a
   * string it reaches is too short for its slice.
   */
  predicate ScoringDefined(r: Receipt) {
    && |r.total| >= 2
    && (QualifyingPricesParse(r.ItemList()) ==> |r.purchaseDate| >= 1)
    && (QualifyingPricesParse(r.ItemList()) && |r.purchaseDate| >= 1 ==>
          Atoi(r.purchaseDate[|r.purchaseDate| - 1..]).Some? ==> |r.purchaseTime| >= 2)
  }

  /** The sum of the seven rule terms, or the first error `Points` meets. */
  function PointsOf(r: Receipt): Result<nat, PointsError>
    requires ScoringDefined(r)
  {
    var items := r.ItemList();
    var cents := r.total[|r.total| - 2..];
    if !QualifyingPricesParse(items) then
      Err(MalformedPrice)
    else
      match Atoi(r.purchaseDate[|r.purchaseDate| - 1..])
      case None => Err(MalformedDay)
      case Some(day) =>
        Ok(AlnumCount(r.retailer)
           + GetPointsRoundAmount(cents) + GetPointsMultipleOf25(cents)
           + (|items| / 2) * 5
           + Total(items, ItemBonus)
           + GetPointsForOddDate(day)
           + GetPointsForTimeOfPurchase(r.purchaseTime[..2]))
  }

  method Points(r: Receipt) returns (points: int, err: Option<PointsError>)
    requires ScoringDefined(r)
    ensures err.None? <==> PointsOf(r).Ok?
    ensures err.None? ==> points == PointsOf(r).value && points >= 0
    ensures err.Some? ==> points == -1 && err.value == PointsOf(r).error
  {
    points := 0;
    var alnum := GetNumAlphanumerical(r.retailer);
    points := points + alnum;

    var cents := r.total[|r.total| - 2..];
    points := points + GetPointsRoundAmount(cents);
    points := points + GetPointsMultipleOf25(cents);

    var items := r.ItemList();
    points := points + (|items| / 2) * 5;

    var itemPoints, itemsErr := GetPointsForItems(items);
    if itemsErr.Some? {
      return -1, itemsErr;
    }
    points := points + itemPoints;

    var day := Atoi(r.purchaseDate[|r.purchaseDate| - 1..]);
    if day.None? {
      return -1, Some(MalformedDay);
    }
    points := points + GetPointsForOddDate(day.value);

    points := points + GetPointsForTimeOfPurchase(r.purchaseTime[..2]);
    return points, None;
  }

  /** A well-formed receipt can be sliced as `Points` does, and it scores without error. */
  lemma PointsWellFormed(r: Receipt)
    requires WellFormed(r)
    ensures ScoringDefined(r) && PointsOf(r).Ok?
  {
    OddDayMeaning(r.purchaseDate);
  }

  /** Reordering the items does not change the score or the error. */
  lemma PointsReorder(r: Receipt, items: seq<Item>)
    requires ScoringDefined(r)
    requires multiset(r.ItemList()) == multiset(items)
    ensures ScoringDefined(r.(items := Some(items))) && PointsOf(r.(items := Some(items))) == PointsOf(r)
  {
    forall it ensures it in items <==> it in r.ItemList() {
      assert it in items <==> it in multiset(items);
      assert it in r.ItemList() <==> it in multiset(r.ItemList());
    }
    assert |items| == |multiset(items)| == |multiset(r.ItemList())| == |r.ItemList()|;
    TotalPermutation(r.ItemList(), items, ItemBonus);
  }

  /** The price of an item whose description does not qualify is never read: changing it changes nothing. */
  lemma NonQualifyingPriceIgnored(r: Receipt, i: nat, price: string)
    requires ScoringDefined(r)
    requires i < |r.ItemList()| && !Qualifies(r.ItemList()[i])
    ensures var items := r.ItemList(); var r' := r.(items := Some(items[i := items[i].(price := price)]));
      ScoringDefined(r') && PointsOf(r') == PointsOf(r)
  {
    var items := r.ItemList();
    var items' := items[i := items[i].(price := price)];
    assert !Qualifies(items'[i]);
    forall it | it in items' && Qualifies(it) ensures it in items {
      var j :| 0 <= j < |items'| && items'[j] == it;
      assert j != i && items[j] == it;
    }
    forall it | it in items && Qualifies(it) ensures it in items' {
      var j :| 0 <= j < |items| && items[j] == it;
      assert j != i && items'[j] == it;
    }
    TotalPointwise(items', items, ItemBonus);
  }
}
