# Inventory quantity reconciliation, modelled in Dafny

This project models the JavaScript snippets in `code.js` that reconcile stock quantities kept in two tiers. The tiers are a whole-unit `quantity` and a sub-unit `subquantity`, linked by a per-product conversion factor `relatedByValue` (1000 g per kg in the sample data). Each snippet becomes its own Dafny member with explicit inputs:

- **Aggregators.** `combineProducts` merges stock lines that share `(productId, purchasePrice)` into one record with raw sums. `processResults` does the same grouping with a linear `find`. It hands the arithmetic to the helper `additionTotalQuantityOfProduct`, whose body is not part of this model, so the helper is a function parameter.
- **Enrichers.** Two `results.map` passes attach the `relatedByValue` of the first front-end product with the same key. The first leaves an `undefined` hole when no product matches; the second sets the factor to `null`. A third `map` builds purchase records from positional tuples and defaults missing original totals to 0.
- **Validator.** `validateProductQuantities` checks products in order and stops at the first failure. It looks up stock lines by `productId` and compares `quantity * relatedByValue + subQuantity` on both sides. Both sides use the product's factor, and only when the product has a sub-unit and a non-zero factor.
- **Filter.** This pass removes the purchase-return lines whose `productId` appears in the stock results.
- **Marker.** `updateResultsWithQuantityCalculation` sets `isQuantityCalculated`, in place, on the lots at a product's current purchase price, when its current and previous purchase prices differ and both have a lot.

Files, one module each: `wrappers.dfy` (Option), `records.dfy` (the records, their keys, and `find` as `FindFirst`), `aggregation.dfy`, `enrichment.dfy`, `validation.dfy`, `stock_filter.dfy`, `quantity_marker.dfy`.

How JavaScript values are represented:

- `null` and `undefined` are `None`.
- The conversion factor is `Option<int>`. A factor counts as present when it is non-zero, and a sub-unit when it is a non-empty string. This is JavaScript truthiness for those two fields.
- Prices and ids are unbounded integers. The one exception is the tuple transform, whose product ids are strings, as in its sample data.
- Records are immutable values. The aggregators' shallow copies (`{ ...item }`) therefore never change the caller's lines.
- The marker is the one in-place operation. It works on an `array` of stock lines, and its contract says what the whole array holds afterwards.

Behaviour worth noting:

- The validator looks stock lines up by `productId` only and applies the product's factor to both sides.
- Any non-zero factor is applied, including a negative one.
- `processResults` passes `relatedByValue || 1` to its helper.
- The pass at code.js:95-110 leaves `undefined` holes for unmatched results.

## Model

| member | source | states |
|---|---|---|
| `Records.FindFirst` | code.js:236-238 | `find` by key: a result is the first position whose key matches; None exactly when no element matches |
| `Records.KeyOf` | code.js:45 | a stock line's key is the pair `(productId, purchasePrice)`; the string key `${productId}-${purchasePrice}` and the two-field match at code.js:121 both identify lines by exactly this pair |
| `Aggregation.CombineProducts` | code.js:41-56 | the dictionary-and-forEach loop returns exactly `Combined(results)`, the per-key merged records in first-seen key order |
| `Aggregation.TracksSnoc` | code.js:44-52 | one iteration keeps the dictionary equal to the merged record of every key seen so far, and appends a key to the value order only when it is new |
| `Aggregation.GroupKeysMembers` | code.js:44-48 | the output keys are exactly the keys that occur in the input |
| `Aggregation.GroupKeysFirstSeen` | code.js:44-55 | output keys come in strictly increasing order of the position where each is first seen |
| `Aggregation.GroupKeysDistinct` | code.js:45-48 | no key is output twice |
| `Aggregation.CombinedRecords` | code.js:44-55 | one record per distinct key, in first-seen key order; its quantity and subquantity are the raw sums (no carry) over all lines with that key; every other field is the first such line's |
| `Aggregation.KeySumPermutation` | code.js:50-51 | per-key sums are the same for any reordering (same multiset) of the input lines |
| `Aggregation.CombinedTotalsIgnoreOrder` | code.js:50-51 | reordering the input changes no combined quantity or subquantity |
| `Aggregation.CombinedKeepsPricesApart` | code.js:45 | two lines of one product at different purchase prices come out as two distinct records |
| `Aggregation.CombinedDistinctUnchanged` | code.js:47-48 | input whose keys are already distinct comes back unchanged |
| `Aggregation.CombinedIdempotent` | code.js:41-56 | combining the combined output changes nothing |
| `Aggregation.CombinedSample` | code.js:33-39 | the sample combines to 29/20 with 10, 30/30 with 15, and 25/10 with 5 and 500 |
| `Aggregation.Factor` | code.js:130 | `relatedByValue \|\| 1` is never 0; it is the line's factor when that is truthy and 1 otherwise |
| `Aggregation.Step` | code.js:125-134 | the kept record's quantity and subquantity become the helper's result on (its quantities, the later line's quantities, the later line's `relatedByValue \|\| 1`); every other field stays |
| `Aggregation.ProcessResults` | code.js:116-141 | the push-or-update loop returns exactly `Processed(results, add)`: per key in first-seen order, the first line stepped through the helper by each later duplicate |
| `Aggregation.ProcessedSnoc` | code.js:119-137 | one more line either replaces the found record's quantity and subquantity with the helper's result (called with the later line's factor `\|\| 1`) or is appended as a copy |
| `Aggregation.ProcessedRecords` | code.js:119-140 | one record per distinct key, no key twice, and each record equals its key's first line except for quantity and subquantity |
| `Aggregation.ProcessedWithRawSumIsCombined` | code.js:125-134 | if the helper only adds componentwise, processResults returns what combineProducts returns |
| `Aggregation.ProcessedDistinctUnchanged` | code.js:135-137 | with distinct keys the helper is never used and the input comes back unchanged, whatever the helper does |
| `Aggregation.ProcessedSample` | code.js:143-151 | on the sample, the helper is applied to lot 29/20 with factor 1000 and to lot 30/30 with factor 1; lot 25/10 is copied |
| `Enrichment.WithFactor` | code.js:105-108 | the result with `relatedByValue` replaced by the product's and every other field kept |
| `Enrichment.EnrichOrUndefined` | code.js:95-110 | same length; a hole exactly where no product has the result's `(productId, purchasePrice)`; otherwise the result with `relatedByValue` taken from the first matching product |
| `Enrichment.EnrichOrNull` | code.js:185-198 | same length; only `relatedByValue` changes; it becomes the first matching product's factor, or null without a match |
| `Enrichment.EnrichPassesAgree` | code.js:95-110 | the two passes give the same record wherever a product matches; where none does, the first leaves a hole |
| `Enrichment.EnrichOrNullConcat` | code.js:185-198 | enriching a concatenation enriches each part, so positions and order are kept |
| `Enrichment.EnrichSample` | code.js:154-183 | on the sample, lines 29/20 get 1000, line 25/10 gets 5, and lines 30/30 get null (or holes) |
| `Enrichment.TransformOne` | code.js:374-391 | one tuple's fields from positions 0, 1, 2, 4, 5; both totals from the first entry with its productId, or 0 when there is none |
| `Enrichment.TransformPurchaseProductData` | code.js:373-392 | same length and order; fields from tuple positions 0, 1, 2, 4, 5; both original totals from the first entry with the same productId, or 0 when there is none |
| `Enrichment.TransformSample` | code.js:361-424 | the sample tuples transform to the array listed after the snippet |
| `Validation.Conversion` | code.js:246 | a factor is applied exactly when the product's sub-unit is a non-empty string and its relatedByValue is non-zero, and it is the product's relatedByValue |
| `Validation.Normalize` | code.js:246-253 | without a conversion factor the total is the quantity alone (the subquantity is ignored); with one it is `quantity * factor + subquantity` |
| `Validation.ProductTotal` | code.js:245-248 | `totalQuantityProductData`: the product's quantity, or `quantity * relatedByValue + subQuantity` when `Conversion(product)` is present |
| `Validation.StockTotal` | code.js:250-253 | `totalQuantityStock`: the stock line's quantity, or `quantity * relatedByValue + subquantity` with the PRODUCT's factor when `Conversion(product)` is present; the stock line's own factor is never used |
| `Validation.CheckProduct` | code.js:236-258 | NotFound exactly when no stock line has the productId; otherwise the first such line decides: Valid on equal totals, else Mismatch carrying both totals |
| `Validation.ValidationOf` | code.js:235-261 | Valid exactly when every product passes; otherwise the failure of a product all of whose predecessors pass (fail-fast) |
| `Validation.ValidateProductQuantities` | code.js:234-262 | the for loop with early returns yields exactly `ValidationOf(productData, stock)` |
| `Validation.ValidationIgnoresUnmatchedStock` | code.js:235-238 | adding stock lines whose productId no product carries, before or after the others, never changes the outcome |
| `Validation.LinesOf` | code.js:236-238 | holds exactly the stock lines with the given productId |
| `Validation.LinesOfConcat` | code.js:236-238 | selecting one productId's lines commutes with concatenation |
| `Validation.CheckUsesOwnLines` | code.js:236-258 | a product's check gives the same outcome on the stock list as on just the lines with its productId |
| `Validation.ValidationUsesOwnLines` | code.js:235-261 | two stock lists that agree on every product's own lines give the same outcome |
| `Validation.ValidationIgnoresInsertedStock` | code.js:235-238 | stock lines whose productId no product carries, inserted at any position, never change the outcome |
| `Validation.CheckIgnoresUnmatchedStock` | code.js:236-242 | a product's check ignores stock lines of other productIds placed before or after the stock list |
| `Validation.CarrySplitCompares` | code.js:244-258 | 1 kg 1500 g checks as equal to 2 kg 500 g at 1000 g per kg, so totals are compared, not field pairs |
| `Validation.ValidationSample` | code.js:264-305 | on the sample, product 45 matches and product 46 fails with Mismatch(46, 2499, 2500) |
| `Validation.ValidationNotFoundSample` | code.js:240-242 | a product missing from the stock data yields NotFound with its productId |
| `StockFilter.ProductIdsToRemove` | code.js:349 | the set holds exactly the productIds of the stock results |
| `StockFilter.FilterSelectProductData` | code.js:352 | never longer than the input; every line whose productId is not in the set occurs as often as in the input, every other line not at all |
| `StockFilter.FilteredSelectProductData` | code.js:348-352 | keeps exactly the lines whose productId no stock result has; never longer than the input |
| `StockFilter.FilterIsSubsequence` | code.js:352 | the output is an order-preserving subsequence of the input |
| `StockFilter.FilterConcat` | code.js:352 | filtering a concatenation filters each part |
| `StockFilter.FilterKeepsAll` | code.js:352 | when no productId is to be removed, the data comes back unchanged |
| `StockFilter.FilterIdempotent` | code.js:352 | filtering twice is filtering once |
| `StockFilter.FilterSample` | code.js:309-354 | on the sample, only the line of product 46 remains |
| `QuantityMarker.HasLot` | code.js:7-13 | some result has exactly the given productId and purchase price |
| `QuantityMarker.PriceChanged` | code.js:16 | a lot at the product's purchase price, a previous price that is present and has a lot, and the two prices different |
| `QuantityMarker.UpdateResultsWithQuantityCalculation` | code.js:2-26 | returns the same array, whose contents become `Marked(old contents, frontendProductData)` |
| `QuantityMarker.MarkedSnoc` | code.js:3-22 | visiting one more front-end product sets the flag on the lots with its key when its condition holds, and changes nothing otherwise |
| `QuantityMarker.SameKeysSameLots` | code.js:7-13 | the `some` checks depend only on the lots' keys, so the marks made earlier cannot change later checks |
| `QuantityMarker.MarkedSameKeys` | code.js:17-21 | marking keeps the length and every lot's key |
| `QuantityMarker.MarkedExactly` | code.js:3-25 | same length; only `isQuantityCalculated` changes; it is set exactly on lots that already had it, or match the key of a product that has lots at both its purchase and previous prices, with the two prices different |
| `QuantityMarker.MarkedIdempotent` | code.js:2-26 | running the pass twice is running it once |
| `QuantityMarker.MarkedPriceChangeExample` | code.js:15-21 | with lots at 20 and 15 and a price change 15 -> 20, only the lot at 20 is flagged |
| `QuantityMarker.MarkedSampleUnchanged` | code.js:64-93 | on the sample nothing is flagged: product 29 has no lot at 15, and product 25's prices are equal |

## Left out

- The SQL duplicate-lot query (code.js:204-230) belongs to the ledger store, not to the in-memory engine.
- `additionTotalQuantityOfProduct` is not defined in any file of the model. It is the uninterpreted parameter `add`, so no carry semantics are assumed for `processResults`.
- `console.log` output is not modelled. The sample constants appear only as concrete inputs of the sample lemmas.
- The file's run-order defects are not modelled: the call at code.js:29 comes before the declarations, and `results`, `updatedResults` and `frontendProductData` are each declared with `const` more than once. Every snippet is an independent member.
- The error message texts (code.js:241, 257) are left out. The errors are `NotFound(productId)` and `Mismatch(productId, productTotal, stockTotal)`.
- The display-only fields are left out: `productName`, `productNameAndCode`, `salePrice`, `mainUnit`, `id`, and the unused `relationalPurchasePrice`.
- Floating-point prices are not modelled. Prices are integers, which is all the sample data uses.
- JavaScript number limits are not modelled: integers are unbounded and `NaN` does not occur. A missing `quantity` or `subQuantity` field cannot occur either, so the `undefined`/`NaN` arithmetic it would cause is not modelled.
- Object identity is not modelled. Records are values, so one object listed twice in `results` cannot be aliased. In the marker this changes nothing, because a lot is flagged by its key alone.
- The tuple transform takes fixed six-field tuples. A shorter array, whose positions 4 and 5 would be `undefined`, is not modelled.
- A carrying normalizer (`combine`), its round trip, a strict enrichment policy that drops unmatched records, and a collect-all validator are not modelled. None of them exists in this code; the only normalization is the validator's `quantity * relatedByValue + subQuantity`.
- `Aggregation.Factor`: `||` also maps `NaN`, `""` and `false` to 1. With `Option<int>` the only such cases are `None` and `Some(0)`.
