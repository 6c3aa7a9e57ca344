# Receipt processor: validation and scoring, in Dafny

This project models the core of a small Go web service that accepts
shopping receipts, checks them and scores them. The core covers:

- The receipt and item records, with the binding tags the service
  checks them against (`models/receipt.go`, `models/item.go`).
- The five custom validators behind those tags
  (`models/custom_validators.go`), each a regular expression.
- The earlier revision of three of those validators
  (`models/customValidators.go`), which adds a positivity test to cash
  values and a non-empty test to retailer names.
- `Receipt.Validate`: the item prices must add up to the total.
- `Receipt.Points`: the score. It is the sum of seven rules:
  - the letters and digits of the retailer name;
  - a round-dollar total;
  - a total that is a multiple of 0.25;
  - five points per pair of items;
  - a fifth of the price of each item whose trimmed description has a
    length divisible by three;
  - an odd purchase day;
  - a purchase between 14:00 and 15:59.

Modules, one per file:

| module | file | role |
|---|---|---|
| `Optional` | `optional.dfy` | the `Option`, `Outcome` and `Result` carriers that model Go's `(value, error)` returns |
| `Chars` | `chars.dfy` | the RE2 character classes `\d`, `\w` and `\s`, which are ASCII only; digit values |
| `Regex` | `regex.dfy` | a reference semantics (`Matches`) for the fragment of RE2 the five patterns use, plus the lemmas that take patterns apart |
| `CustomValidators` | `custom_validators.dfy` | the five patterns, transcribed as `Re` values; an executable character-level predicate for each, proved to accept exactly what its pattern matches |
| `Money` | `money.dfy` | exact cents; `ParseCents` reads the cash format and `FormatCents` plays the role of `Sprintf("%.2f")` (a round trip); `Atoi` |
| `LegacyValidators` | `legacy_validators.dfy` | the earlier validators, related to the current ones |
| `Sums` | `sums.dfy` | `Total`, the sum a loop accumulates, and why the order of the elements does not change it |
| `Items` | `item.dfy` | the item record and its tags |
| `Receipts` | `receipt.dfy` | the receipt record and its tags; `Validate`, `GetNumAlphanumerical` and `GetPointsForItems` as methods with loops, and `Points` as a method that adds up the rules step by step; each is proved against a specification function (`ValidateOf`, `AlnumCount`, `Total(items, ItemBonus)`, `PointsOf`) |
| `ReceiptExamples` | `scenarios.dfy` | the receipts and expected scores from the repository's tests, proved on the model |

Three details of the scoring follow the code rather than the usual wording
of the rules:

- Descriptions are trimmed of the space character only (`strings.Trim(s, " ")`),
  not of all white space. A tab survives trimming (`TrimKeepsTabs`).
- A trimmed length of 0 counts as a multiple of 3. A description made of
  spaces only passes its format and earns the price bonus
  (`BlankDescriptionQualifies`).
- The odd-day rule reads only the last character of the date. On a
  well-formed date this agrees with the parity of the day
  (`OddDayMeaning`).

Several expectations in `models/receipt_test.go` do not match the code.
The model follows the code:

| test | lines | expected | code gives | reason |
|---|---|---|---|---|
| round-amount and multiple-of-25 tests | 28-44 | `.00` scores | 0 | they pass `.00` to functions that compare against `00` |
| the four-item receipt | 80-95 | 100 | 133 | |
| the `25.00` receipt | 97-107 | 81 | 103 | |
| the odd-date receipt | 127-137 | 56 | 93 | |

None of these tests is modelled.

## Model

| member | source | states |
|---|---|---|
| Regex.MatchLength | models/custom_validators.go:10-13 | a pattern of fixed width matches only strings of exactly that width |
| Regex.CatLeftFixed | models/custom_validators.go:12 | a concatenation whose left part has fixed width matches exactly when the prefix of that width matches the left part and the rest matches the right part |
| Regex.CatRightFixed | models/custom_validators.go:10 | the same for a right part of fixed width, which splits off the suffix |
| Regex.ClassPair | models/custom_validators.go:12-13 | two classes in a row match exactly the two-character strings whose characters are in the two classes |
| Regex.PlusOfClass | models/custom_validators.go:9-11 | `[class]+` matches exactly the non-empty strings made only of characters in the class |
| Regex.RepeatWidth | models/custom_validators.go:10 | `r{n}` has n times the width of `r` |
| Regex.RepeatOfClass | models/custom_validators.go:10 | `[class]{n}` matches exactly the strings of length n made only of characters in the class |
| Regex.LiteralWidth | models/custom_validators.go:13 | a literal's width is its length |
| Regex.LiteralMatches | models/custom_validators.go:13 | a literal such as `24:00` matches itself and nothing else |
| CustomValidators.CorrectShortDescription | models/custom_validators.go:15-22 | the current description check, read character by character: a non-empty run of word characters, RE2 white space and hyphens (its agreement with the pattern is stated by `ShortDescriptionMatchesFormat`) |
| CustomValidators.CorrectCashValue | models/custom_validators.go:24-31 | the current cash check: one or more digits, a dot and exactly two digits (stated against the pattern by `CashValueMatchesFormat`) |
| CustomValidators.CorrectRetailerName | models/custom_validators.go:33-40 | the current retailer check: the description characters plus `&`, at least one (stated against the pattern by `RetailerNameMatchesFormat`) |
| CustomValidators.CorrectDate | models/custom_validators.go:42-49 | the current date check: `YYYY-MM-DD` with month 01 to 12 and day 01 to 31, no days-in-month check (stated against the pattern by `DateMatchesFormat`) |
| CustomValidators.CorrectTime | models/custom_validators.go:51-58 | the current time check: `HH:MM` from 00:00 to 23:59, or exactly 24:00 (stated against the pattern by `TimeMatchesFormat`) |
| CustomValidators.ShortDescriptionMatchesFormat | models/custom_validators.go:15-22 | `CorrectShortDescription` holds exactly when `^[\w\s\-]+$` matches: one or more word characters, RE2 spaces or hyphens |
| CustomValidators.CashValueMatchesFormat | models/custom_validators.go:24-31 | `CorrectCashValue` holds exactly when `^\d+\.\d{2}$` matches: at least one digit, a dot, exactly two digits |
| CustomValidators.RetailerNameMatchesFormat | models/custom_validators.go:33-40 | `CorrectRetailerName` holds exactly when `^[\w\s\-&]+$` matches |
| CustomValidators.MonthMatchesFormat | models/custom_validators.go:12 | the month alternative of the date pattern matches exactly the two-digit months 01 to 12 |
| CustomValidators.DayMatchesFormat | models/custom_validators.go:12 | the day alternative of the date pattern matches exactly the two-digit days 01 to 31 |
| CustomValidators.DateMatchesFormat | models/custom_validators.go:42-49 | `CorrectDate` holds exactly when the date pattern matches: four digits, a valid month, a valid day, with no days-in-month check |
| CustomValidators.HourMatchesFormat | models/custom_validators.go:13 | the hour alternative of the time pattern matches exactly the two-digit hours 00 to 23 |
| CustomValidators.TimeMatchesFormat | models/custom_validators.go:51-58 | `CorrectTime` holds exactly when the time pattern matches: `HH:MM` with hour at most 23 and minute at most 59, or exactly `24:00` |
| CustomValidators.ShortDescriptionIsRetailerName | models/custom_validators.go:9-11 | every accepted description is also an accepted retailer name |
| CustomValidators.CashValueShape | models/receipt.go:47 | a matching cash value has at least 4 characters and ends in two digits, so the slice at line 47 is the cents |
| CustomValidators.DateLength | models/receipt.go:14 | a matching date has exactly 10 characters: the `len=10` tag adds nothing |
| CustomValidators.TimeLength | models/receipt.go:15 | a matching time has exactly 5 characters: the `len=5` tag adds nothing |
| CustomValidators.RetailerNameNonEmpty | models/receipt.go:13 | a matching retailer name is non-empty: the `min=1` tag adds nothing |
| CustomValidators.ShortDescriptionExamples | models/custom_validators_test.go:21-39 | the descriptions the tests accept are accepted (`Valid`, `Valid Description`, `This is a valid description` and `This-is-a-valid-description`); `Hello@world` and the empty string are rejected |
| CustomValidators.CashValueExamples | models/custom_validators_test.go:67-82 | `00.00`, `99.99`, `999999.99`, `1234.56` and `12345.67` are accepted; `12345.6755`, `abc`, `%.^?` and a blank are rejected |
| CustomValidators.RetailerNameExamples | models/custom_validators_test.go:131-136 | `Valid Retailer Name` and `M&M Corner Market` are accepted; a name containing `.` is rejected, and so is the empty name |
| CustomValidators.DateExamples | models/custom_validators_test.go:184-200 | `2022-01-01`, `9999-12-01`, `2022-12-01`, `2022-12-31` and `2024-01-01` are accepted; month 00 or 13 and day 00 or 32 are rejected; `20224-01-01`, `2024-011-01` and `2024-01-011` are rejected for a section of the wrong length; `2023-02-30` is accepted |
| CustomValidators.TimeExamples | models/custom_validators_test.go:235-247 | `00:00`, `24:00` and `23:59` are accepted; `25:00`, `23:60`, `30:00`, `24:01` and three-digit parts are rejected |
| Money.ParseCents | models/receipt.go:21-24 | an amount is read exactly when it has the cash format; its dollars are the digits before the dot and its cents the two digits after |
| Money.NatDigits | models/receipt.go:35 | the decimal digits of n are non-empty, have no leading zero unless n is 0, and read back as n |
| Money.FormatCents | models/receipt.go:35 | the two-decimal rendering of an amount has the cash format and parses back to the same amount |
| Money.FormatCentsInjective | models/receipt.go:35 | two amounts print alike at two decimals exactly when they are equal, so comparing the formatted strings compares the amounts |
| Money.DigitsValuePositive | models/customValidators.go:25-26 | a run of digits has a positive value exactly when one of its digits is not 0 |
| Money.CentsPositive | models/customValidators.go:25-26 | a cash amount is positive exactly when one of its digits is not 0 |
| Money.Atoi | models/receipt.go:68 | `strconv.Atoi`: an optional sign and one or more decimal digits, otherwise an error (its use on one character is stated by `AtoiOneChar`) |
| Money.AtoiOneChar | models/receipt.go:68 | `Atoi` of one character is its digit value when it is a digit, and an error otherwise |
| LegacyValidators.CorrectShortDescription | models/customValidators.go:10-19 | the earlier description check: the pattern matches (related to the current check by `ShortDescriptionUnchanged`) |
| LegacyValidators.CorrectCashValue | models/customValidators.go:21-31 | the earlier cash check: the pattern matches and the amount is above zero, a failed parse counting as zero (related by `CashValueIsPositiveCash` and `CashValueStricter`) |
| LegacyValidators.CorrectRetailerName | models/customValidators.go:33-42 | the earlier retailer check: the pattern matches and the name is non-empty (related by `RetailerNameUnchanged`) |
| LegacyValidators.ShortDescriptionUnchanged | models/customValidators.go:10-19 | the earlier description check accepts exactly what the current one accepts |
| LegacyValidators.RetailerNameUnchanged | models/customValidators.go:33-42 | the earlier retailer check accepts exactly what the current one accepts: its `len(value) > 0` test is redundant |
| LegacyValidators.CashValueIsPositiveCash | models/customValidators.go:21-31 | the earlier cash check is the current one plus "some digit is not 0" |
| LegacyValidators.CashValueStricter | models/customValidators.go:21-31 | the earlier cash check implies the current one, and `00.00` separates them |
| LegacyValidators.CashValueExamples | models/customValidators_test.go:67-137 | the earlier check accepts `10.00`, `0.99`, `123.45`, `9999.00` and `50.50` |
| LegacyValidators.RetailerNameExamples | models/customValidators_test.go:141-185 | the earlier check accepts `Valid Retailer Name` and rejects the empty name |
| Sums.TotalAppend | models/receipt.go:27-33 | the sum over a concatenation is the sum of the sums |
| Sums.TotalSnoc | models/receipt.go:27-33 | one more loop iteration adds one more term |
| Sums.TotalRemove | models/receipt.go:27-33 | removing an element from anywhere removes its term |
| Sums.TotalPermutation | models/receipt.go:27-33 | the sum a loop accumulates does not depend on the order of the elements |
| Sums.TotalPointwise | models/receipt.go:120-134 | sequences whose elements contribute alike have equal sums |
| Items.ItemWellFormed | models/item.go:3-6 | the binding tags of an item: `required` and the format on both fields (simplified by `ItemWellFormedByFormats`) |
| Items.ItemWellFormedByFormats | models/item.go:3-6 | an item passes its tags exactly when its description and its price match their patterns; `required` adds nothing |
| Items.PriceLikeTotal | models/item.go:5 | a price that matches its pattern has at least 4 characters, like a total with `min=4`, and always parses |
| Items.DescriptionHasNoLengthCap | models/item.go:4 | a description of any length n >= 1 made of the letter `a` is accepted: the check has no length cap |
| Receipts.WellFormed | models/receipt.go:12-18 | the binding tags of a receipt: `required`, `min`, `len`, the formats, and `dive` over the items (simplified by `WellFormedByFormats`) |
| Receipts.WellFormedByFormats | models/receipt.go:12-18 | a receipt passes its tags exactly when its items list is present (it may be empty) and every string field, including each item's fields, matches its pattern; the `required`, `len` and `min` tags add nothing |
| Receipts.WellFormedLegacyIsPositive | models/receipt.go:12-18 | with the earlier validators, a receipt passes its tags exactly when it passes the current ones and its total and every price are positive |
| Receipts.ValidateOf | models/receipt.go:20-40 | the outcome of `Validate`: a bad total, then a bad price, then a mismatch of the sums at two decimals (the loop is proved against it by `Validate`; its meaning is stated by `ValidateAccepts` and `ValidateReportsMismatch`) |
| Receipts.Validate | models/receipt.go:20-40 | the loop returns the first error met (the total, then the prices in order), or compares the sum of the prices with the total at two decimals; it returns exactly `ValidateOf` |
| Receipts.ValidateAccepts | models/receipt.go:20-40 | a receipt passes exactly when its total and every price parse and the prices add up, in cents, to the total |
| Receipts.ValidateReportsMismatch | models/receipt.go:35-37 | when everything parses but the sums differ, the error carries both sums |
| Receipts.ValidateWellFormed | models/receipt.go:20-40 | on a receipt that passed its tags, the only possible failure is a sum mismatch |
| Receipts.ValidateReorder | models/receipt.go:27-33 | reordering the items does not change the outcome |
| Receipts.GetNumAlphanumerical | models/receipt.go:82-90 | the loop counts exactly the letters and digits of the name |
| Receipts.AlnumCountBounds | models/receipt.go:82-90 | the count is at most the length; it is 0 exactly when no character is a letter or digit, and the full length exactly when every character is one |
| Receipts.CentsOfTotal | models/receipt.go:47 | on a cash amount, the last two characters are the digits of its cents |
| Receipts.GetPointsRoundAmount | models/receipt.go:92-97 | 50 points when the cents are `00` (its meaning on a total is stated by `RoundAmountMeaning`) |
| Receipts.RoundAmountMeaning | models/receipt.go:92-97 | on a cash total, the 50-point rule fires exactly when the amount is a whole number of dollars |
| Receipts.GetPointsMultipleOf25 | models/receipt.go:99-104 | 25 points when the cents are 00, 25, 50 or 75 (its meaning is stated by `MultipleOf25Meaning`) |
| Receipts.QuarterCents | models/receipt.go:99-104 | an amount is a multiple of 25 cents exactly when its cents digits are 00, 25, 50 or 75 |
| Receipts.MultipleOf25Meaning | models/receipt.go:99-104 | on a cash total, the 25-point rule fires exactly when the amount is a multiple of 0.25 |
| Receipts.TrimSpaces | models/receipt.go:123 | `strings.Trim(s, " ")`: leading and trailing space characters removed (stated by `TrimSpacesSpec`) |
| Receipts.LeadingSpacesSpec | models/receipt.go:123 | the leading count covers a run of spaces, and the next character is not a space |
| Receipts.TrailingSpacesSpec | models/receipt.go:123 | the trailing count covers a run of spaces, and the character before it is not a space |
| Receipts.TrimSpacesSpec | models/receipt.go:123 | the trimmed string is a substring with only spaces around it, and neither starts nor ends with a space |
| Receipts.LeadingSpacesOfPadded | models/receipt.go:123 | spaces put in front of a string that does not start with one are exactly what is trimmed on the left |
| Receipts.TrailingSpacesOfPadded | models/receipt.go:123 | spaces put after a string that does not end with one are exactly what is trimmed on the right |
| Receipts.TrimBetween | models/receipt.go:123 | trimming a string gives exactly its core when only spaces surround that core and the core neither starts nor ends with a space |
| Receipts.TrimAllSpaces | models/receipt.go:123 | a string of spaces trims to the empty string |
| Receipts.DescriptionBonus | models/receipt.go:130 | `ceil(price * 0.2)` for a price in cents: the least p with 500·p >= cents |
| Receipts.Qualifies | models/receipt.go:123 | an item qualifies when its trimmed description has a length divisible by 3, zero included |
| Receipts.ItemBonus | models/receipt.go:123-130 | the bonus of one item: `DescriptionBonus` of its price when it qualifies, else 0 (summed by `GetPointsForItems`) |
| Receipts.BlankDescriptionQualifies | models/receipt.go:123-130 | a description of spaces only passes its format, trims to nothing and earns the price bonus |
| Receipts.GetPointsForItems | models/receipt.go:120-134 | the loop either sums the bonuses of the qualifying items, or returns -1 and an error exactly when some qualifying item's price does not parse |
| Receipts.GetPointsForOddDate | models/receipt.go:106-111 | 6 exactly for a non-negative odd number; with Go's truncating `%`, every negative number scores 0 |
| Receipts.OddDayMeaning | models/receipt.go:67-74 | on a well-formed date, `Atoi` of the last character succeeds, and the rule fires exactly when the day of the month is odd |
| Receipts.GetPointsForTimeOfPurchase | models/receipt.go:113-118 | 10 points when the hour is `14` or `15` (its meaning is stated by `AfternoonMeaning`) |
| Receipts.AfternoonMeaning | models/receipt.go:113-118 | on a well-formed time, the 10-point rule fires exactly for hours 14 and 15 |
| Receipts.ScoringDefined | models/receipt.go:47-77 | the condition under which Go's slices in `Points` do not panic: the total always needs 2 characters; the date needs 1 only once the items have scored, and the time needs 2 only once the day has been read |
| Receipts.PointsOf | models/receipt.go:42-80 | the sum of the seven rules, or the first error `Points` meets (the method is proved against it by `Points`; its properties are `PointsWellFormed`, `PointsReorder` and `NonQualifyingPriceIgnored`) |
| Receipts.Points | models/receipt.go:42-80 | on any receipt whose slices Go can take (`ScoringDefined`), the method returns the sum of the seven rules, or -1 with the first error met (a qualifying price, then the day); it agrees with `PointsOf` in both cases and a score is never negative |
| Receipts.PointsWellFormed | models/receipt.go:42-80 | a receipt that passed its tags can be scored, and scores without error |
| Receipts.PointsReorder | models/receipt.go:54-58 | the reordered receipt can be scored whenever the original can, and reordering the items does not change the score or the error |
| Receipts.NonQualifyingPriceIgnored | models/receipt.go:120-134 | the price of an item that does not qualify is never read: the changed receipt can be scored whenever the original can, and the score is unchanged |
| ReceiptExamples.AlnumCountSymbols | models/receipt_test.go:18-19 | `!@#$%^&*` has no letters or digits |
| ReceiptExamples.AlnumCountAllAlphanumeric | models/receipt_test.go:14-15 | `hello123world` counts 13 |
| ReceiptExamples.AlnumCountByPrefixes | models/receipt.go:84-87 | each character adds its own weight to the count of the prefix before it |
| ReceiptExamples.AlnumCountSpaced | models/receipt_test.go:20-21 | ` hello world ` counts 10 |
| ReceiptExamples.AlnumCountPunctuated | models/receipt_test.go:22-23 | `h3110,w0r1d!` counts 10 |
| ReceiptExamples.TrimKeepsTabs | models/receipt.go:123 | a string with a tab at each end trims to itself |
| ReceiptExamples.TrimOnlySpaces | models/receipt.go:123 | three spaces trim to the empty string |
| ReceiptExamples.TrimPaddedDescription | models/receipt_test.go:71 | the padded Klarbrunn description loses three leading and two trailing spaces and keeps 24 characters |
| ReceiptExamples.DewNotQualifying | models/receipt_test.go:67 | a 17-character description earns nothing |
| ReceiptExamples.KnorrNotQualifying | models/receipt_test.go:69 | a 20-character description earns nothing |
| ReceiptExamples.DoritosNotQualifying | models/receipt_test.go:70 | a 20-character description earns nothing |
| ReceiptExamples.GatoradeNotQualifying | handlers/handlers_test.go:327 | an 8-character description earns nothing |
| ReceiptExamples.PepsiNotQualifying | handlers/handlers_test.go:355 | a 13-character description earns nothing |
| ReceiptExamples.PizzaQualifies | models/receipt_test.go:68 | an 18-character description qualifies |
| ReceiptExamples.KlarbrunnQualifies | models/receipt_test.go:71 | the padded description qualifies on its trimmed length of 24 |
| ReceiptExamples.DasaniQualifies | handlers/handlers_test.go:356 | a 6-character description qualifies |
| ReceiptExamples.ShortNameQualifies | models/receipt.go:123 | the three-letter description `abc` qualifies |
| ReceiptExamples.DewPrice | models/receipt_test.go:67 | `6.49` reads as 649 cents |
| ReceiptExamples.PizzaPrice | models/receipt_test.go:68 | `12.25` reads as 1225 cents |
| ReceiptExamples.KnorrPrice | models/receipt_test.go:69 | `1.26` reads as 126 cents |
| ReceiptExamples.DoritosPrice | models/receipt_test.go:70 | `3.35` reads as 335 cents |
| ReceiptExamples.KlarbrunnPrice | models/receipt_test.go:71 | `12.00` reads as 1200 cents |
| ReceiptExamples.DasaniPrice | handlers/handlers_test.go:356 | `1.40` reads as 140 cents |
| ReceiptExamples.QualifyingBonus | models/receipt.go:123-130 | a qualifying item with a price of c cents earns ceil(c / 500) |
| ReceiptExamples.PizzaBonus | models/receipt_test.go:68 | ceil(12.25 · 0.2) = 3 |
| ReceiptExamples.KlarbrunnBonus | models/receipt_test.go:71 | ceil(12.00 · 0.2) = 3 |
| ReceiptExamples.DasaniBonus | handlers/handlers_test.go:356 | ceil(1.40 · 0.2) = 1 |
| ReceiptExamples.GroceryBonuses | models/receipt_test.go:66-72 | the five groceries earn 0, 3, 0, 0 and 3 |
| ReceiptExamples.GroceriesBonus | models/receipt_test.go:65-78 | the items of the five groceries score 6 without error |
| ReceiptExamples.GroceryPrices | handlers/handlers_test.go:297-301 | every grocery price parses, to 649, 1225, 126, 335 and 1200 cents |
| ReceiptExamples.GroceryPriceTotal | handlers/handlers_test.go:297-301 | the grocery prices add up to 3535 cents |
| ReceiptExamples.GroceryTotalCents | handlers/handlers_test.go:303 | `35.35` reads as 3535 cents |
| ReceiptExamples.GroceryReceiptBalances | handlers/handlers_test.go:291-318 | the first example receipt passes `Validate` |
| ReceiptExamples.SumMismatchExample | handlers/handlers_test.go:193-211 | 6.49 + 12.25 against a total of 20.74 fails with the sums 1874 and 2074 |
| ReceiptExamples.ItemErrorBeforeDate | models/receipt.go:58-68 | a qualifying price that does not parse ends the score with an error before the date and time are sliced, so an empty date and time are allowed |
| ReceiptExamples.TargetNewYearScore | models/receipt_test.go:110-122 | Target, 2022-01-01 at 13:01, total 35.35 scores 12, plus 5 per pair of items, plus the item bonuses |
| ReceiptExamples.GroceryReceiptScore | models/receipt_test.go:109-125 | the first example receipt scores 28 |
| ReceiptExamples.CornerMarketLetters | handlers/handlers_test.go:323 | `M&M Corner Market` counts 14 |
| ReceiptExamples.CornerMarketScore | handlers/handlers_test.go:321-333 | M&M Corner Market, 2022-03-20 at 14:33, total 9.00 scores 99, plus 5 per pair of items, plus the item bonuses |
| ReceiptExamples.GatoradeReceiptScore | handlers/handlers_test.go:321-346 | four Gatorades score 109 |
| ReceiptExamples.WalgreensScore | handlers/handlers_test.go:350-359 | Walgreens, 2022-01-02 at 08:13, total 2.65 scores 9, plus 5 per pair of items, plus the item bonuses |
| ReceiptExamples.DrinksReceiptScore | handlers/handlers_test.go:348-372 | a Pepsi and a Dasani score 15 |
| ReceiptExamples.TargetQuarterScore | handlers/handlers_test.go:376-384 | Target, 2022-01-02 at 13:13, total 1.25 scores 31, plus 5 per pair of items, plus the item bonuses |
| ReceiptExamples.PepsiReceiptScore | handlers/handlers_test.go:374-396 | a single Pepsi scores 31 |

## Left out

- The HTTP layer is not modelled: the router, the handlers, the in-memory
  store of receipts, the rate limiter, logging and concurrency. Only the
  model files named above are covered.
- Go's struct binding is not modelled as a mechanism. The tags on each
  field are modelled as the predicates `WellFormed` and `ItemWellFormed`.
  The reflection branch of each validator is left out: it rejects a
  field that is not a string, and every tagged field is a string.
- Floating point: prices and totals are exact numbers of cents. The rules
  reach the source's float values only through `Sprintf("%.2f")` and
  `math.Ceil(price * 0.2)`; exact cents give `ceil` of the exact product.
  For large amounts, float64 sums and products can differ from the exact
  cents the model uses.
- Money.ParseCents: does not model `strconv.ParseFloat`'s wider grammar
  (`1.5`, `1e3`, `+1.00`, `Inf`). Such strings are treated as parse
  errors. Every string the binding tags let through has the cash format.
  On that format the two agree, except for the range: `ParseFloat`
  returns a range error for an amount of about 309 or more digits, and Go
  then fails in `Validate` (models/receipt.go:22-23, 29-30) and in
  `getPointsForItems` (models/receipt.go:125-127). `ParseCents` accepts
  any length, so `ValidateWellFormed` and `PointsWellFormed` describe the
  source only for amounts below that range.
- Money.Atoi: does not model the range error for numbers beyond 64 bits.
  `Points` only ever applies it to a single character.
- Receipts.Points: does not model 64-bit overflow of the score. The item
  bonus is `int64(math.Ceil(price * 0.2))`; for a qualifying price above
  about 4.6e19 dollars (one item priced `50000000000000000000.00` is
  enough) the float exceeds 2^63-1, and Go's conversion of such a value
  is implementation-dependent. The score also overflows when the terms
  together pass 2^63-1. The model adds exact integers, so `points >= 0`
  and `PointsWellFormed` describe the source only below that bound.
- Receipts.Points: requires `ScoringDefined`, the condition under which
  Go's slicing does not panic. The total must always have at least 2
  characters; the date needs 1 character only once the items have scored,
  and the time needs 2 only once the day has been read
  (`ItemErrorBeforeDate`). A well-formed receipt always meets it
  (`PointsWellFormed`).
- Receipts.IsAlphanumeric: counts ASCII letters and digits only. Go's
  `unicode.IsLetter` and `unicode.IsNumber` also accept other Unicode
  letters and numbers. A retailer name that passes its pattern holds only
  ASCII.
- Byte length versus character count: strings are sequences of
  characters. Go's `len` counts bytes, which differs only outside ASCII.
  Every string the patterns accept is ASCII.
- Error values carry no message text. `Validate` reports which check
  failed, plus the two sums on a mismatch. `Points` reports which parse
  failed; its `log.Printf` of each error (models/receipt.go:61, 70) is
  not modelled.
- The test expectations that disagree with the code (listed above) are
  not modelled.
- CustomValidators.ShortDescriptionExamples: does not state the test's
  52-character sentence (models/custom_validators_test.go:35). Every one
  of its characters is a letter, a digit or a space, so the description
  check accepts it, but a proof about that literal is sensitive to the
  solver's random seed.
- Items.DescriptionHasNoLengthCap: states the test's point, that a long
  description is accepted, for runs of the letter `a` of every length. It does not use
  the test's particular 52-character sentence.
