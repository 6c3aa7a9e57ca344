/**
 * Worked examples: the letter-and-digit count and the trimming on sample
 * strings, the item points of sample items, and whole receipts scored and
 * validated with the model. Each example takes its strings as parameters
 * fixed by its precondition.
 */
module ReceiptExamples {
  import opened Optional
  import opened Money
  import opened Items
  import opened Sums
  import opened Receipts

  // ----- counting letters and digits -----

  /** A string without letters or digits counts nothing. */
  lemma AlnumCountSymbols(s: string)
    requires s == "!@#$%^&*"
    ensures AlnumCount(s) == 0
  {
    AlnumCountBounds(s);
  }

  /** A string made only of letters and digits counts every character. */
  lemma AlnumCountAllAlphanumeric(s: string)
    requires s == "hello123world"
    ensures AlnumCount(s) == 13
  {
    AlnumCountBounds(s);
  }

  /** Each character adds its own weight to the count of the characters before it. */
  lemma AlnumCountByPrefixes(s: string)
    ensures forall j {:trigger AlnumCount(s[..j])} :: 1 <= j <= |s| ==>
      AlnumCount(s[..j]) == AlnumCount(s[..j - 1]) + AlnumWeight(s[j - 1])
  {
    forall j | 1 <= j <= |s|
      ensures AlnumCount(s[..j]) == AlnumCount(s[..j - 1]) + AlnumWeight(s[j - 1])
    {
      TotalSnoc(s, j - 1, AlnumWeight);
    }
  }

  /** Spaces between and around words are skipped. */
  lemma AlnumCountSpaced(s: string)
    requires s == " hello world "
    ensures AlnumCount(s) == 10
  {
    assert s[..0] == [];
    TotalSnoc(s, 0, AlnumWeight);
    TotalSnoc(s, 1, AlnumWeight);
    TotalSnoc(s, 2, AlnumWeight);
    TotalSnoc(s, 3, AlnumWeight);
    TotalSnoc(s, 4, AlnumWeight);
    TotalSnoc(s, 5, AlnumWeight);
    TotalSnoc(s, 6, AlnumWeight);
    TotalSnoc(s, 7, AlnumWeight);
    TotalSnoc(s, 8, AlnumWeight);
    TotalSnoc(s, 9, AlnumWeight);
    TotalSnoc(s, 10, AlnumWeight);
    TotalSnoc(s, 11, AlnumWeight);
    TotalSnoc(s, 12, AlnumWeight);
    assert s[..13] == s;
  }

  /** Punctuation is skipped. */
  lemma AlnumCountPunctuated(s: string)
    requires s == "h3110,w0r1d!"
    ensures AlnumCount(s) == 10
  {
    AlnumCountByPrefixes(s);
    assert s[..0] == [] && s[..12] == s;
  }

  // ----- trimming -----

  /** Only the space character is trimmed: tabs stay. */
  lemma TrimKeepsTabs(s: string)
    requires s == "\tTab\t"
    ensures TrimSpaces(s) == s
  {
    TrimBetween(s, 0, |s|);
  }

  /** A string of spaces trims to nothing. */
  lemma TrimOnlySpaces(s: string)
    requires s == "   "
    ensures TrimSpaces(s) == ""
  {
    TrimAllSpaces(s);
  }

  /** Three leading and two trailing spaces are removed. */
  lemma TrimPaddedDescription(s: string)
    requires s == "   Klarbrunn 12-PK 12 FL OZ  "
    ensures TrimSpaces(s) == s[3..27] && |TrimSpaces(s)| == 24
  {
    TrimBetween(s, 3, 27);
  }

  // ----- item points -----

  function Dew(): Item { Item("Mountain Dew 12PK", "6.49") }
  function Pizza(): Item { Item("Emils Cheese Pizza", "12.25") }
  function Knorr(): Item { Item("Knorr Creamy Chicken", "1.26") }
  function Doritos(): Item { Item("Doritos Nacho Cheese", "3.35") }
  function Klarbrunn(): Item { Item("   Klarbrunn 12-PK 12 FL OZ  ", "12.00") }
  function Gatorade(): Item { Item("Gatorade", "2.25") }
  function Pepsi(): Item { Item("Pepsi - 12-oz", "1.25") }
  function Dasani(): Item { Item("Dasani", "1.40") }

  /** The five groceries of the first example receipt. */
  function Groceries(): seq<Item> {
    [Dew(), Pizza(), Knorr(), Doritos(), Klarbrunn()]
  }

  /** The total of a sequence of five, spelled out. */
  lemma TotalOfFive<T>(s: seq<T>, f: T -> nat)
    requires |s| == 5
    ensures Total(s, f) == f(s[0]) + f(s[1]) + f(s[2]) + f(s[3]) + f(s[4])
  {
    assert s[..0] == [];
    TotalSnoc(s, 0, f);
    TotalSnoc(s, 1, f);
    TotalSnoc(s, 2, f);
    TotalSnoc(s, 3, f);
    TotalSnoc(s, 4, f);
    assert s[..5] == s;
  }

  /** The total of a sequence of two, spelled out. */
  lemma TotalOfTwo<T>(s: seq<T>, f: T -> nat)
    requires |s| == 2
    ensures Total(s, f) == f(s[0]) + f(s[1])
  {
    assert s[..0] == [];
    TotalSnoc(s, 0, f);
    TotalSnoc(s, 1, f);
    assert s[..2] == s;
  }

  /** A description of 17 characters does not qualify. */
  lemma DewNotQualifying(it: Item)
    requires it.shortDescription == "Mountain Dew 12PK"
    ensures !Qualifies(it) && ItemBonus(it) == 0
  {
    TrimBetween(it.shortDescription, 0, |it.shortDescription|);
  }

  /** Descriptions of 20 characters do not qualify. */
  lemma KnorrNotQualifying(it: Item)
    requires it.shortDescription == "Knorr Creamy Chicken"
    ensures !Qualifies(it) && ItemBonus(it) == 0
  {
    TrimBetween(it.shortDescription, 0, |it.shortDescription|);
  }

  lemma DoritosNotQualifying(it: Item)
    requires it.shortDescription == "Doritos Nacho Cheese"
    ensures !Qualifies(it) && ItemBonus(it) == 0
  {
    TrimBetween(it.shortDescription, 0, |it.shortDescription|);
  }

  /** An 8-character description does not qualify. */
  lemma GatoradeNotQualifying(it: Item)
    requires it.shortDescription == "Gatorade"
    ensures !Qualifies(it) && ItemBonus(it) == 0
  {
    TrimBetween(it.shortDescription, 0, |it.shortDescription|);
  }

  /** A description of 13 characters does not qualify. */
  lemma PepsiNotQualifying(it: Item)
    requires it.shortDescription == "Pepsi - 12-oz"
    ensures !Qualifies(it) && ItemBonus(it) == 0
  {
    TrimBetween(it.shortDescription, 0, |it.shortDescription|);
  }

  /** 18 characters qualify. */
  lemma PizzaQualifies(it: Item)
    requires it.shortDescription == "Emils Cheese Pizza"
    ensures Qualifies(it)
  {
    TrimBetween(it.shortDescription, 0, |it.shortDescription|);
  }

  /** The padded description trims to 24 characters, which qualify. */
  lemma KlarbrunnQualifies(it: Item)
    requires it.shortDescription == "   Klarbrunn 12-PK 12 FL OZ  "
    ensures Qualifies(it)
  {
    TrimPaddedDescription(it.shortDescription);
  }

  /** 6 characters qualify. */
  lemma DasaniQualifies(it: Item)
    requires it.shortDescription == "Dasani"
    ensures Qualifies(it)
  {
    TrimBetween(it.shortDescription, 0, |it.shortDescription|);
  }

  // Each price is read through `FormatCents`, whose value on a literal is computed.

  lemma DewPrice(it: Item)
    requires it.price == "6.49"
    ensures ParseCents(it.price) == Some(649)
  {
    assert FormatCents(649) == "6.49";
  }

  lemma PizzaPrice(it: Item)
    requires it.price == "12.25"
    ensures ParseCents(it.price) == Some(1225)
  {
    assert FormatCents(1225) == "12.25";
  }

  lemma KnorrPrice(it: Item)
    requires it.price == "1.26"
    ensures ParseCents(it.price) == Some(126)
  {
    assert FormatCents(126) == "1.26";
  }

  lemma DoritosPrice(it: Item)
    requires it.price == "3.35"
    ensures ParseCents(it.price) == Some(335)
  {
    assert FormatCents(335) == "3.35";
  }

  lemma KlarbrunnPrice(it: Item)
    requires it.price == "12.00"
    ensures ParseCents(it.price) == Some(1200)
  {
    assert FormatCents(1200) == "12.00";
  }

  lemma DasaniPrice(it: Item)
    requires it.price == "1.40"
    ensures ParseCents(it.price) == Some(140)
  {
    assert FormatCents(140) == "1.40";
  }

  /** A qualifying item earns a fifth of its price, rounded up to a whole point. */
  lemma QualifyingBonus(it: Item, cents: nat)
    requires Qualifies(it) && ParseCents(it.price) == Some(cents)
    ensures ItemBonus(it) == (cents + 499) / 500
  {
  }

  /** ceil(12.25 * 0.2) = 3. */
  lemma PizzaBonus(it: Item)
    requires it == Pizza()
    ensures Qualifies(it) && ItemBonus(it) == 3
  {
    PizzaQualifies(it);
    PizzaPrice(it);
    QualifyingBonus(it, 1225);
  }

  /** ceil(12.00 * 0.2) = 3. */
  lemma KlarbrunnBonus(it: Item)
    requires it == Klarbrunn()
    ensures Qualifies(it) && ItemBonus(it) == 3
  {
    KlarbrunnQualifies(it);
    KlarbrunnPrice(it);
    QualifyingBonus(it, 1200);
  }

  /** ceil(1.40 * 0.2) = 1. */
  lemma DasaniBonus(it: Item)
    requires it == Dasani()
    ensures Qualifies(it) && ItemBonus(it) == 1
  {
    DasaniQualifies(it);
    DasaniPrice(it);
    QualifyingBonus(it, 140);
  }

  /** The item points of each of the five groceries. */
  lemma GroceryBonuses(items: seq<Item>)
    requires items == Groceries()
    ensures ItemBonus(items[0]) == 0 && ItemBonus(items[1]) == 3 && ItemBonus(items[2]) == 0
    ensures ItemBonus(items[3]) == 0 && ItemBonus(items[4]) == 3
  {
    DewNotQualifying(items[0]);
    PizzaBonus(items[1]);
    KnorrNotQualifying(items[2]);
    DoritosNotQualifying(items[3]);
    KlarbrunnBonus(items[4]);
  }

  /** The item points of the five groceries add up to 6, and every qualifying price parses. */
  lemma GroceriesBonus(items: seq<Item>)
    requires items == Groceries()
    ensures QualifyingPricesParse(items) && Total(items, ItemBonus) == 6
  {
    GroceryPrices(items);
    GroceryBonuses(items);
    TotalOfFive(items, ItemBonus);
  }

  // ----- validating -----

  /** The prices of the five groceries, in cents. */
  lemma GroceryPrices(items: seq<Item>)
    requires items == Groceries()
    ensures AllPricesParse(items)
    ensures PriceCents(items[0]) == 649 && PriceCents(items[1]) == 1225 && PriceCents(items[2]) == 126
    ensures PriceCents(items[3]) == 335 && PriceCents(items[4]) == 1200
  {
    DewPrice(items[0]);
    PizzaPrice(items[1]);
    KnorrPrice(items[2]);
    DoritosPrice(items[3]);
    KlarbrunnPrice(items[4]);
  }

  /** The prices of the five groceries add up to 3535 cents. */
  lemma GroceryPriceTotal(items: seq<Item>)
    requires items == Groceries()
    ensures AllPricesParse(items) && Total(items, PriceCents) == 3535
  {
    GroceryPrices(items);
    TotalOfFive(items, PriceCents);
  }

  lemma GroceryTotalCents(r: Receipt)
    requires r.total == "35.35"
    ensures ParseCents(r.total) == Some(3535)
  {
    assert FormatCents(3535) == "35.35";
  }

  /** The first example receipt balances: its prices add up to 35.35. */
  lemma GroceryReceiptBalances(r: Receipt)
    requires r.total == "35.35" && r.items == Some(Groceries())
    ensures ValidateOf(r) == Pass
  {
    GroceryPriceTotal(r.ItemList());
    GroceryTotalCents(r);
    ValidateAccepts(r);
  }

  /** 6.49 + 12.25 is 18.74, not 20.74: `Validate` reports both sums in cents. */
  lemma SumMismatchExample(r: Receipt)
    requires r.total == "20.74" && r.items == Some([Dew(), Pizza()])
    ensures ValidateOf(r) == Fail(SumMismatch(1874, 2074))
  {
    GroceryPrices(Groceries());
    TotalOfTwo(r.ItemList(), PriceCents);
    assert FormatCents(2074) == "20.74";
    ValidateReportsMismatch(r);
  }

  /** A three-character description qualifies, so its price is read. */
  lemma ShortNameQualifies(it: Item)
    requires it.shortDescription == "abc"
    ensures Qualifies(it)
  {
    TrimBetween(it.shortDescription, 0, |it.shortDescription|);
  }

  /**
   * A qualifying price that does not parse stops the score before the date
   * and the time are sliced, so an empty date and time do no harm.
   */
  lemma ItemErrorBeforeDate(r: Receipt)
    requires r.total == "1.00" && r.purchaseDate == "" && r.purchaseTime == ""
    requires r.items == Some([Item("abc", "x")])
    ensures ScoringDefined(r) && PointsOf(r) == Err(MalformedPrice)
  {
    ShortNameQualifies(r.ItemList()[0]);
    assert r.ItemList()[0] in r.ItemList();
  }

  // ----- scoring whole receipts -----
  //
  // Each receipt is scored in two steps: the terms that come from its
  // retailer, date, time and total, whatever its items; then its items.

  /** Target, Saturday 2022-01-01 at 13:01, total 35.35: 6 (name) + 6 (odd day), plus the item terms. */
  lemma TargetNewYearScore(r: Receipt)
    requires r.retailer == "Target" && r.purchaseDate == "2022-01-01" && r.purchaseTime == "13:01" && r.total == "35.35"
    requires QualifyingPricesParse(r.ItemList())
    ensures PointsOf(r) == Ok(12 + (|r.ItemList()| / 2) * 5 + Total(r.ItemList(), ItemBonus))
  {
    AlnumCountBounds(r.retailer);
    assert r.total[|r.total| - 2..] == "35";
    assert r.purchaseDate[|r.purchaseDate| - 1..] == ['1'];
    AtoiOneChar('1');
    assert r.purchaseTime[..2] == "13";
  }

  /** The first example receipt: 6 (name) + 10 (two pairs) + 6 (items) + 6 (odd day) = 28. */
  lemma GroceryReceiptScore(r: Receipt)
    requires r.retailer == "Target" && r.purchaseDate == "2022-01-01" && r.purchaseTime == "13:01" && r.total == "35.35"
    requires r.items == Some(Groceries())
    ensures PointsOf(r) == Ok(28)
  {
    GroceriesBonus(r.ItemList());
    TargetNewYearScore(r);
  }

  /** The ampersand and the spaces do not count. */
  lemma CornerMarketLetters(s: string)
    requires s == "M&M Corner Market"
    ensures AlnumCount(s) == 14
  {
    assert s[..0] == [];
    TotalSnoc(s, 0, AlnumWeight);
    TotalSnoc(s, 1, AlnumWeight);
    TotalSnoc(s, 2, AlnumWeight);
    TotalSnoc(s, 3, AlnumWeight);
    TotalSnoc(s, 4, AlnumWeight);
    TotalSnoc(s, 5, AlnumWeight);
    TotalSnoc(s, 6, AlnumWeight);
    TotalSnoc(s, 7, AlnumWeight);
    TotalSnoc(s, 8, AlnumWeight);
    TotalSnoc(s, 9, AlnumWeight);
    TotalSnoc(s, 10, AlnumWeight);
    TotalSnoc(s, 11, AlnumWeight);
    TotalSnoc(s, 12, AlnumWeight);
    TotalSnoc(s, 13, AlnumWeight);
    TotalSnoc(s, 14, AlnumWeight);
    TotalSnoc(s, 15, AlnumWeight);
    TotalSnoc(s, 16, AlnumWeight);
    assert s[..17] == s;
  }

  /** M&M Corner Market, 2022-03-20 at 14:33, total 9.00: 14 (name) + 50 (round) + 25 (quarter) + 10 (afternoon). */
  lemma CornerMarketScore(r: Receipt)
    requires r.retailer == "M&M Corner Market" && r.purchaseDate == "2022-03-20" && r.purchaseTime == "14:33" && r.total == "9.00"
    requires QualifyingPricesParse(r.ItemList())
    ensures PointsOf(r) == Ok(99 + (|r.ItemList()| / 2) * 5 + Total(r.ItemList(), ItemBonus))
  {
    CornerMarketLetters(r.retailer);
    assert r.total[|r.total| - 2..] == "00";
    assert r.purchaseDate[|r.purchaseDate| - 1..] == ['0'];
    AtoiOneChar('0');
    assert r.purchaseTime[..2] == "14";
  }

  /** Four Gatorades: 99 + 10 (two pairs) = 109. */
  lemma GatoradeReceiptScore(r: Receipt)
    requires r.retailer == "M&M Corner Market" && r.purchaseDate == "2022-03-20" && r.purchaseTime == "14:33" && r.total == "9.00"
    requires r.items == Some([Gatorade(), Gatorade(), Gatorade(), Gatorade()])
    ensures PointsOf(r) == Ok(109)
  {
    GatoradeNotQualifying(Gatorade());
    CornerMarketScore(r);
  }

  /** Walgreens, 2022-01-02 at 08:13, total 2.65: 9 (name), plus the item terms. */
  lemma WalgreensScore(r: Receipt)
    requires r.retailer == "Walgreens" && r.purchaseDate == "2022-01-02" && r.purchaseTime == "08:13" && r.total == "2.65"
    requires QualifyingPricesParse(r.ItemList())
    ensures PointsOf(r) == Ok(9 + (|r.ItemList()| / 2) * 5 + Total(r.ItemList(), ItemBonus))
  {
    AlnumCountBounds(r.retailer);
    assert r.total[|r.total| - 2..] == "65";
    assert r.purchaseDate[|r.purchaseDate| - 1..] == ['2'];
    AtoiOneChar('2');
    assert r.purchaseTime[..2] == "08";
  }

  /** A Pepsi and a Dasani: 9 (name) + 5 (one pair) + 1 (items) = 15. */
  lemma DrinksReceiptScore(r: Receipt)
    requires r.retailer == "Walgreens" && r.purchaseDate == "2022-01-02" && r.purchaseTime == "08:13" && r.total == "2.65"
    requires r.items == Some([Pepsi(), Dasani()])
    ensures PointsOf(r) == Ok(15)
  {
    PepsiNotQualifying(r.ItemList()[0]);
    DasaniBonus(r.ItemList()[1]);
    TotalOfTwo(r.ItemList(), ItemBonus);
    WalgreensScore(r);
  }

  /** Target, 2022-01-02 at 13:13, total 1.25: 6 (name) + 25 (quarter), plus the item terms. */
  lemma TargetQuarterScore(r: Receipt)
    requires r.retailer == "Target" && r.purchaseDate == "2022-01-02" && r.purchaseTime == "13:13" && r.total == "1.25"
    requires QualifyingPricesParse(r.ItemList())
    ensures PointsOf(r) == Ok(31 + (|r.ItemList()| / 2) * 5 + Total(r.ItemList(), ItemBonus))
  {
    AlnumCountBounds(r.retailer);
    assert r.total[|r.total| - 2..] == "25";
    assert r.purchaseDate[|r.purchaseDate| - 1..] == ['2'];
    AtoiOneChar('2');
    assert r.purchaseTime[..2] == "13";
  }

  /** A single Pepsi: 6 (name) + 25 (quarter) = 31. */
  lemma PepsiReceiptScore(r: Receipt)
    requires r.retailer == "Target" && r.purchaseDate == "2022-01-02" && r.purchaseTime == "13:13" && r.total == "1.25"
    requires r.items == Some([Pepsi()])
    ensures PointsOf(r) == Ok(31)
  {
    PepsiNotQualifying(Pepsi());
    TargetQuarterScore(r);
  }
}
