/**
 * The `map` passes that join records against metadata: the two that attach
 * `relatedByValue` to stock lines, and the one that builds purchase records
 * from positional tuples.
 */
module Enrichment {
  import opened Wrappers
  import opened Records

  /** The stock line with `relatedByValue` taken from the product (`{ ...result, relatedByValue }`). */
  function WithFactor(result: StockLine, product: FrontendProduct): (r: StockLine)
    ensures r.relatedByValue == product.relatedByValue
    ensures r.(relatedByValue := result.relatedByValue) == result
  {
    result.(relatedByValue := product.relatedByValue)
  }

  /**
   * The pass that returns only when a product matches: an unmatched result
   * leaves an `undefined` hole (None) at its position.
   */
  function EnrichOrUndefined(results: seq<StockLine>, products: seq<FrontendProduct>): (r: seq<Option<StockLine>>)
    ensures |r| == |results|
    ensures forall i :: 0 <= i < |results| ==> (r[i].None? <==> Absent(products, ProductKey, KeyOf(results[i])))
    ensures forall i, j :: 0 <= i < |results| && FirstAt(products, ProductKey, KeyOf(results[i]), j) ==>
      r[i] == Some(results[i].(relatedByValue := products[j].relatedByValue))
  {
    seq(|results|, i requires 0 <= i < |results| =>
      match FindFirst(products, ProductKey, KeyOf(results[i]))
      case Some(j) => Some(WithFactor(results[i], products[j]))
      case None => None)
  }

  /** The pass that substitutes `null` (None) for the factor of an unmatched result. */
  function EnrichOrNull(results: seq<StockLine>, products: seq<FrontendProduct>): (r: seq<StockLine>)
    ensures |r| == |results|
    ensures forall i :: 0 <= i < |results| ==> r[i].(relatedByValue := results[i].relatedByValue) == results[i]
    ensures forall i :: 0 <= i < |results| && Absent(products, ProductKey, KeyOf(results[i])) ==> r[i].relatedByValue.None?
    ensures forall i, j :: 0 <= i < |results| && FirstAt(products, ProductKey, KeyOf(results[i]), j) ==>
      r[i].relatedByValue == products[j].relatedByValue
  {
    seq(|results|, i requires 0 <= i < |results| =>
      var matching := FindFirst(products, ProductKey, KeyOf(results[i]));
      results[i].(relatedByValue := if matching.Some? then products[matching.value].relatedByValue else None))
  }

  /** The two passes agree wherever a product matches; where none does, one leaves a hole and the other a null factor. */
  lemma EnrichPassesAgree(results: seq<StockLine>, products: seq<FrontendProduct>, i: int)
    requires 0 <= i < |results|
    ensures |EnrichOrUndefined(results, products)| == |EnrichOrNull(results, products)|
    ensures EnrichOrUndefined(results, products)[i] ==
      if Absent(products, ProductKey, KeyOf(results[i])) then None else Some(EnrichOrNull(results, products)[i])
  {
    var m := FindFirst(products, ProductKey, KeyOf(results[i]));
    if m.Some? {
      assert FirstAt(products, ProductKey, KeyOf(results[i]), m.value);
    }
  }

  /** Enriching commutes with concatenation, so order and positions are kept. */
  lemma EnrichOrNullConcat(a: seq<StockLine>, b: seq<StockLine>, products: seq<FrontendProduct>)
    ensures EnrichOrNull(a + b, products) == EnrichOrNull(a, products) + EnrichOrNull(b, products)
  {
    var l, r := EnrichOrNull(a + b, products), EnrichOrNull(a, products) + EnrichOrNull(b, products);
    forall i | 0 <= i < |l| ensures l[i] == r[i] {
      if i < |a| {
        assert (a + b)[i] == a[i];
      } else {
        assert (a + b)[i] == b[i - |a|];
      }
    }
  }

  // ---------------------------------------------------------------------------
  // The tuple -> record transform
  // ---------------------------------------------------------------------------

  /** `[purchaseId, purchaseReturnId, productId, productName, quantity, subQuantity]`. */
  type PurchaseRelationValue = (int, int, string, string, int, int)

  /** An entry of `ProductData`: the originally purchased totals of a product. */
  datatype OriginalTotals = OriginalTotals(
    productId: string,
    totalOriginalPurchasedQuantity: int,
    totalOriginalPurchasedSubQuantity: int)

  datatype TransformedPurchase = TransformedPurchase(
    purchaseId: int,
    purchaseReturnId: int,
    productId: string,
    quantity: int,
    subQuantity: int,
    totalOriginalPurchasedQuantity: int,
    totalOriginalPurchasedSubQuantity: int)

  function TotalsProductId(t: OriginalTotals): string { t.productId }

  /**
   * The `map` callback: the tuple's fields at positions 0, 1, 2, 4 and 5, and
   * the totals of the first entry with the tuple's productId, or 0 and 0.
   */
  function TransformOne(item: PurchaseRelationValue, productData: seq<OriginalTotals>): (r: TransformedPurchase)
    ensures r.purchaseId == item.0 && r.purchaseReturnId == item.1 && r.productId == item.2
    ensures r.quantity == item.4 && r.subQuantity == item.5
    ensures Absent(productData, TotalsProductId, item.2) ==>
      r.totalOriginalPurchasedQuantity == 0 && r.totalOriginalPurchasedSubQuantity == 0
    ensures forall j :: FirstAt(productData, TotalsProductId, item.2, j) ==>
      && r.totalOriginalPurchasedQuantity == productData[j].totalOriginalPurchasedQuantity
      && r.totalOriginalPurchasedSubQuantity == productData[j].totalOriginalPurchasedSubQuantity
  {
    var found := FindFirst(productData, TotalsProductId, item.2);
    var totalQuantity := if found.Some? then productData[found.value].totalOriginalPurchasedQuantity else 0;
    var totalSubQuantity := if found.Some? then productData[found.value].totalOriginalPurchasedSubQuantity else 0;
    TransformedPurchase(item.0, item.1, item.2, item.4, item.5, totalQuantity, totalSubQuantity)
  }

  /**
   * transformedPurchaseProductData: positions 0, 1, 2, 4 and 5 of each tuple
   * become purchaseId, purchaseReturnId, productId, quantity and subQuantity;
   * the two totals come from the first entry with the same productId, or are 0.
   */
  function TransformPurchaseProductData(items: seq<PurchaseRelationValue>, productData: seq<OriginalTotals>)
    : (r: seq<TransformedPurchase>)
    ensures |r| == |items|
    ensures forall i :: 0 <= i < |items| ==>
      && r[i].purchaseId == items[i].0
      && r[i].purchaseReturnId == items[i].1
      && r[i].productId == items[i].2
      && r[i].quantity == items[i].4
      && r[i].subQuantity == items[i].5
    ensures forall i :: 0 <= i < |items| && Absent(productData, TotalsProductId, items[i].2) ==>
      r[i].totalOriginalPurchasedQuantity == 0 && r[i].totalOriginalPurchasedSubQuantity == 0
    ensures forall i, j :: 0 <= i < |items| && FirstAt(productData, TotalsProductId, items[i].2, j) ==>
      && r[i].totalOriginalPurchasedQuantity == productData[j].totalOriginalPurchasedQuantity
      && r[i].totalOriginalPurchasedSubQuantity == productData[j].totalOriginalPurchasedSubQuantity
  {
    seq(|items|, i requires 0 <= i < |items| => TransformOne(items[i], productData))
  }

  /** The sample at code.js:361-370 transforms to the array listed at code.js:396-424. */
  lemma TransformSample()
    ensures TransformPurchaseProductData(
      [(101, 201, "P001", "Product 1", 10, 2),
       (102, 202, "P002", "Product 2", 5, 1),
       (103, 203, "P003", "Product 3", 8, 3)],
      [OriginalTotals("P001", 20, 4), OriginalTotals("P003", 15, 5)])
      == [TransformedPurchase(101, 201, "P001", 10, 2, 20, 4),
          TransformedPurchase(102, 202, "P002", 5, 1, 0, 0),
          TransformedPurchase(103, 203, "P003", 8, 3, 15, 5)]
  {
    var data := [OriginalTotals("P001", 20, 4), OriginalTotals("P003", 15, 5)];
    assert FirstAt(data, TotalsProductId, "P001", 0);
    assert FirstAt(data, TotalsProductId, "P003", 1) by { assert "P001" != "P003"; }
    assert Absent(data, TotalsProductId, "P002") by { assert "P001" != "P002" && "P003" != "P002"; }
  }

  /** The sample at code.js:154-183: lines 29/20 get 1000, lines 30/30 none, line 25/10 gets 5. */
  lemma EnrichSample()
    ensures
      var results := [StockLine(29, 5, 0, 20, None, false), StockLine(29, 5, 0, 20, None, false),
                      StockLine(30, 10, 0, 30, None, false), StockLine(30, 5, 0, 30, None, false),
                      StockLine(25, 5, 500, 10, None, false)];
      var products := [FrontendProduct(29, 20, Some(15), Some(1000)), FrontendProduct(25, 10, Some(10), Some(5))];
      && EnrichOrNull(results, products) ==
        [StockLine(29, 5, 0, 20, Some(1000), false), StockLine(29, 5, 0, 20, Some(1000), false),
         StockLine(30, 10, 0, 30, None, false), StockLine(30, 5, 0, 30, None, false),
         StockLine(25, 5, 500, 10, Some(5), false)]
      && EnrichOrUndefined(results, products) ==
        [Some(StockLine(29, 5, 0, 20, Some(1000), false)), Some(StockLine(29, 5, 0, 20, Some(1000), false)),
         None, None, Some(StockLine(25, 5, 500, 10, Some(5), false))]
  {
    var products := [FrontendProduct(29, 20, Some(15), Some(1000)), FrontendProduct(25, 10, Some(10), Some(5))];
    assert FirstAt(products, ProductKey, (29, 20), 0);
    assert FirstAt(products, ProductKey, (25, 10), 1);
    assert Absent(products, ProductKey, (30, 30));
  }
}
