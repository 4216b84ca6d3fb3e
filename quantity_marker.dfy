/**
 * updateResultsWithQuantityCalculation: flags, in place, the stock lots at a
 * product's current purchase price, when its current and previous purchase
 * prices differ and both have a lot in the results.
 */
module QuantityMarker {
  import opened Wrappers
  import opened Records

  /** `results.some(r => r.productId === productId && r.purchasePrice === price)`. */
  predicate HasLot(results: seq<StockLine>, productId: int, price: int)
  {
    exists i :: 0 <= i < |results| && KeyOf(results[i]) == (productId, price)
  }

  /**
   * The condition checked for one front-end product: a lot at its purchase
   * price, a lot at its previous purchase price, and the two prices differ. A
   * missing previous price (`undefined`) matches no lot.
   */
  predicate PriceChanged(results: seq<StockLine>, product: FrontendProduct)
  {
    && HasLot(results, product.productId, product.purchasePrice)
    && product.previousPurchasePrice.Some?
    && HasLot(results, product.productId, product.previousPurchasePrice.value)
    && product.purchasePrice != product.previousPurchasePrice.value
  }

  /** Some front-end product with the lot's key has a changed price. */
  predicate ShouldMark(results: seq<StockLine>, frontendProductData: seq<FrontendProduct>, lot: StockLine)
  {
    exists m :: 0 <= m < |frontendProductData| && ProductKey(frontendProductData[m]) == KeyOf(lot) &&
      PriceChanged(results, frontendProductData[m])
  }

  /** The results after the pass: the flag set on every lot that should be marked, nothing else touched. */
  function Marked(results: seq<StockLine>, frontendProductData: seq<FrontendProduct>): seq<StockLine>
  {
    seq(|results|, i requires 0 <= i < |results| =>
      if ShouldMark(results, frontendProductData, results[i]) then results[i].(isQuantityCalculated := true)
      else results[i])
  }

  /**
   * updateResultsWithQuantityCalculation: for each front-end product, checks
   * the condition on the current results and, when it holds, sets
   * `isQuantityCalculated` on every result with the product's key. Returns the
   * same array.
   */
  method UpdateResultsWithQuantityCalculation(results: array<StockLine>, frontendProductData: seq<FrontendProduct>)
    returns (updated: array<StockLine>)
    modifies results
    ensures updated == results
    ensures results[..] == Marked(old(results[..]), frontendProductData)
  {
    ghost var original := results[..];
    assert frontendProductData[..0] == [];
    var f := 0;
    while f < |frontendProductData|
      invariant 0 <= f <= |frontendProductData|
      invariant results[..] == Marked(original, frontendProductData[..f])
    {
      var product := frontendProductData[f];
      MarkedSameKeys(original, frontendProductData[..f]);
      SameKeysSameLots(results[..], original);
      MarkedSnoc(original, frontendProductData[..f], product);
      assert frontendProductData[..f + 1] == frontendProductData[..f] + [product];
      var purchasePriceExists := HasLot(results[..], product.productId, product.purchasePrice);
      var previousPurchasePriceExists := product.previousPurchasePrice.Some? &&
        HasLot(results[..], product.productId, product.previousPurchasePrice.value);
      if purchasePriceExists && previousPurchasePriceExists && product.purchasePrice != product.previousPurchasePrice.value {
        var k := 0;
        while k < results.Length
          invariant 0 <= k <= results.Length
          invariant forall i :: 0 <= i < k ==> results[i] == Marked(original, frontendProductData[..f + 1])[i]
          invariant forall i :: k <= i < results.Length ==> results[i] == Marked(original, frontendProductData[..f])[i]
        {
          if results[k].productId == product.productId && results[k].purchasePrice == product.purchasePrice {
            results[k] := results[k].(isQuantityCalculated := true);
          }
          k := k + 1;
        }
      }
      f := f + 1;
    }
    assert frontendProductData[..f] == frontendProductData;
    updated := results;
  }

  /** Two result lists with the same keys, position by position, have the same lots. */
  lemma SameKeysSameLots(a: seq<StockLine>, b: seq<StockLine>)
    requires |a| == |b| && forall i :: 0 <= i < |a| ==> KeyOf(a[i]) == KeyOf(b[i])
    ensures forall id, price :: HasLot(a, id, price) <==> HasLot(b, id, price)
  {
    forall id, price | HasLot(a, id, price) ensures HasLot(b, id, price) {
      var i :| 0 <= i < |a| && KeyOf(a[i]) == (id, price);
      assert KeyOf(b[i]) == (id, price);
    }
    forall id, price | HasLot(b, id, price) ensures HasLot(a, id, price) {
      var i :| 0 <= i < |b| && KeyOf(b[i]) == (id, price);
      assert KeyOf(a[i]) == (id, price);
    }
  }

  /** The pass keeps every key, so later checks see the same lots as the first one. */
  lemma MarkedSameKeys(results: seq<StockLine>, frontendProductData: seq<FrontendProduct>)
    ensures |Marked(results, frontendProductData)| == |results|
    ensures forall i :: 0 <= i < |results| ==> KeyOf(Marked(results, frontendProductData)[i]) == KeyOf(results[i])
  {
  }

  /** Visiting one more front-end product marks the lots with its key when its condition holds. */
  lemma MarkedSnoc(results: seq<StockLine>, fs: seq<FrontendProduct>, product: FrontendProduct)
    ensures forall i :: 0 <= i < |results| ==> (Marked(results, fs + [product])[i] ==
      if PriceChanged(results, product) && KeyOf(results[i]) == ProductKey(product)
      then Marked(results, fs)[i].(isQuantityCalculated := true)
      else Marked(results, fs)[i])
  {
    var fs' := fs + [product];
    forall i | 0 <= i < |results| ensures ShouldMark(results, fs', results[i]) <==>
      ShouldMark(results, fs, results[i]) || (PriceChanged(results, product) && KeyOf(results[i]) == ProductKey(product))
    {
      if ShouldMark(results, fs', results[i]) {
        var m :| 0 <= m < |fs'| && ProductKey(fs'[m]) == KeyOf(results[i]) && PriceChanged(results, fs'[m]);
        if m < |fs| {
          assert fs'[m] == fs[m];
        }
      }
      if ShouldMark(results, fs, results[i]) {
        var m :| 0 <= m < |fs| && ProductKey(fs[m]) == KeyOf(results[i]) && PriceChanged(results, fs[m]);
        assert fs'[m] == fs[m];
      }
      if PriceChanged(results, product) && KeyOf(results[i]) == ProductKey(product) {
        assert fs'[|fs|] == product;
      }
    }
  }

  /** Only the flag changes, the length is kept, and a lot is flagged exactly when it already was or should be marked. */
  lemma MarkedExactly(results: seq<StockLine>, frontendProductData: seq<FrontendProduct>)
    ensures |Marked(results, frontendProductData)| == |results|
    ensures forall i :: 0 <= i < |results| ==>
      Marked(results, frontendProductData)[i].(isQuantityCalculated := results[i].isQuantityCalculated) == results[i]
    ensures forall i :: 0 <= i < |results| ==>
      (Marked(results, frontendProductData)[i].isQuantityCalculated <==>
        results[i].isQuantityCalculated ||
        exists m :: 0 <= m < |frontendProductData| && ProductKey(frontendProductData[m]) == KeyOf(results[i]) &&
          HasLot(results, frontendProductData[m].productId, frontendProductData[m].purchasePrice) &&
          frontendProductData[m].previousPurchasePrice.Some? &&
          HasLot(results, frontendProductData[m].productId, frontendProductData[m].previousPurchasePrice.value) &&
          frontendProductData[m].purchasePrice != frontendProductData[m].previousPurchasePrice.value)
  {
  }

  /** Running the pass a second time changes nothing. */
  lemma MarkedIdempotent(results: seq<StockLine>, frontendProductData: seq<FrontendProduct>)
    ensures Marked(Marked(results, frontendProductData), frontendProductData) == Marked(results, frontendProductData)
  {
    var once := Marked(results, frontendProductData);
    MarkedSameKeys(results, frontendProductData);
    SameKeysSameLots(once, results);
    forall i | 0 <= i < |once| ensures ShouldMark(once, frontendProductData, once[i]) ==
      ShouldMark(results, frontendProductData, results[i])
    {
      if ShouldMark(once, frontendProductData, once[i]) {
        var m :| 0 <= m < |frontendProductData| && ProductKey(frontendProductData[m]) == KeyOf(once[i]) &&
          PriceChanged(once, frontendProductData[m]);
        assert PriceChanged(results, frontendProductData[m]);
      }
      if ShouldMark(results, frontendProductData, results[i]) {
        var m :| 0 <= m < |frontendProductData| && ProductKey(frontendProductData[m]) == KeyOf(results[i]) &&
          PriceChanged(results, frontendProductData[m]);
        assert PriceChanged(once, frontendProductData[m]);
      }
    }
  }

  /** A price change 15 -> 20 with lots at both prices flags only the lot at the new price. */
  lemma MarkedPriceChangeExample()
    ensures Marked([StockLine(29, 5, 0, 20, None, false), StockLine(29, 3, 0, 15, None, false)],
                   [FrontendProduct(29, 20, Some(15), Some(1000))])
      == [StockLine(29, 5, 0, 20, None, true), StockLine(29, 3, 0, 15, None, false)]
  {
    var results := [StockLine(29, 5, 0, 20, None, false), StockLine(29, 3, 0, 15, None, false)];
    var fs := [FrontendProduct(29, 20, Some(15), Some(1000))];
    assert KeyOf(results[0]) == (29, 20) && KeyOf(results[1]) == (29, 15);
    assert PriceChanged(results, fs[0]);
    assert ShouldMark(results, fs, results[0]);
  }

  /**
   * On the sample at code.js:64-93 nothing is flagged: product 29 has no lot at
   * its previous price 15, and product 25's two prices are equal.
   */
  lemma MarkedSampleUnchanged()
    ensures
      var results := [StockLine(29, 5, 0, 20, None, false), StockLine(29, 5, 0, 20, None, false),
                      StockLine(30, 10, 0, 30, None, false), StockLine(30, 5, 0, 30, None, false),
                      StockLine(25, 5, 500, 10, None, false)];
      Marked(results, [FrontendProduct(29, 20, Some(15), Some(1000)), FrontendProduct(25, 10, Some(10), Some(5))])
        == results
  {
    var results := [StockLine(29, 5, 0, 20, None, false), StockLine(29, 5, 0, 20, None, false),
                    StockLine(30, 10, 0, 30, None, false), StockLine(30, 5, 0, 30, None, false),
                    StockLine(25, 5, 500, 10, None, false)];
    assert !HasLot(results, 29, 15);
  }
}
