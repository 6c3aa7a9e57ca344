/** A receipt line, models/item.go: a value with two validated string fields. */
module Items {
  import opened Regex
  import opened Money
  import opened CustomValidators

  datatype Item = Item(shortDescription: string, price: string)

  /**
   * The binding tags of both fields: `required` (a non-empty string) and
   * the field's format.
   */
  predicate ItemWellFormed(it: Item) {
    it.shortDescription != "" && CorrectShortDescription(it.shortDescription)
    && it.price != "" && CorrectCashValue(it.price)
  }

  /**
   * `required` is implied by both formats, so an item is well formed
   * exactly when its two fields match their patterns.
   */
  lemma ItemWellFormedByFormats(it: Item)
    ensures ItemWellFormed(it) <==>
      Matches(ShortDescriptionFormat, it.shortDescription) && Matches(CashValueFormat, it.price)
  {
    ShortDescriptionMatchesFormat(it.shortDescription);
    CashValueMatchesFormat(it.price);
  }

  /**
   * A price carries no `min=4` tag, unlike a receipt total, yet its format
   * forces the same lower bound; and it always parses.
   */
  lemma PriceLikeTotal(it: Item)
    requires Matches(CashValueFormat, it.price)
    ensures |it.price| >= 4 && ParseCents(it.price).Some?
  {
    CashValueMatchesFormat(it.price);
  }

  /** Descriptions have no length cap: a run of letters of any length is accepted. */
  lemma DescriptionHasNoLengthCap(n: nat, price: string)
    requires n >= 1 && CorrectCashValue(price)
    ensures ItemWellFormed(Item(seq(n, _ => 'a'), price))
  {
    var d := seq(n, _ => 'a');
    assert forall i :: 0 <= i < |d| ==> d[i] == 'a';
  }
}
