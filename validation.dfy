/**
 * validateProductQuantities: a fail-fast comparison of purchase-side
 * quantities with the stock ledger, one product at a time, on totals
 * expressed in sub-units when the product has a sub-unit and a factor.
 */
module Validation {
  import opened Wrappers
  import opened Records

  /** `true`, or the error object the source returns: which product failed, and how. */
  datatype ValidationResult =
    | Valid
    | NotFound(productId: int)
    | Mismatch(productId: int, productTotal: int, stockTotal: int)

  /** JavaScript truthiness of `product.subUnit && product.relatedByValue`: a non-empty unit and a non-zero factor. */
  function Conversion(product: ProductLine): (c: Option<int>)
    ensures c.Some? <==> product.subUnit.Some? && product.subUnit.value != "" &&
                         product.relatedByValue.Some? && product.relatedByValue.value != 0
    ensures c.Some? ==> c == product.relatedByValue
  {
    if product.subUnit.Some? && product.subUnit.value != "" && product.relatedByValue.Some? && product.relatedByValue.value != 0
    then product.relatedByValue
    else None
  }

  /** `quantity * factor + subquantity` with a conversion factor, `quantity` alone without one. */
  function Normalize(quantity: int, subquantity: int, conversion: Option<int>): (t: int)
    ensures conversion.None? ==> t == quantity
    ensures conversion.Some? ==> t == quantity * conversion.value + subquantity
  {
    match conversion
    case Some(factor) => quantity * factor + subquantity
    case None => quantity
  }

  /** The purchase-side total, `totalQuantityProductData`. */
  function ProductTotal(product: ProductLine): (t: int)
    ensures Conversion(product).None? ==> t == product.quantity
    ensures Conversion(product).Some? ==>
      t == product.quantity * product.relatedByValue.value + product.subQuantity
  {
    Normalize(product.quantity, product.subQuantity, Conversion(product))
  }

  /** The stock-side total, `totalQuantityStock`: the stock line's quantities with the PRODUCT's factor. */
  function StockTotal(product: ProductLine, stock: StockLine): (t: int)
    ensures Conversion(product).None? ==> t == stock.quantity
    ensures Conversion(product).Some? ==>
      t == stock.quantity * product.relatedByValue.value + stock.subquantity
  {
    Normalize(stock.quantity, stock.subquantity, Conversion(product))
  }

  /** The outcome of comparing one product with the first stock line of the same productId. */
  function CheckProduct(product: ProductLine, stock: seq<StockLine>): (r: ValidationResult)
    ensures r.NotFound? <==> Absent(stock, StockProductId, product.productId)
    ensures r.NotFound? ==> r.productId == product.productId
    ensures forall j :: FirstAt(stock, StockProductId, product.productId, j) ==>
      if ProductTotal(product) == StockTotal(product, stock[j]) then r == Valid
      else r == Mismatch(product.productId, ProductTotal(product), StockTotal(product, stock[j]))
  {
    match FindFirst(stock, StockProductId, product.productId)
    case None => NotFound(product.productId)
    case Some(j) =>
      if ProductTotal(product) == StockTotal(product, stock[j]) then Valid
      else Mismatch(product.productId, ProductTotal(product), StockTotal(product, stock[j]))
  }

  /**
   * The result of scanning productData in order: Valid when every product
   * passes, otherwise the failure of the first product that does not.
   */
  function ValidationOf(productData: seq<ProductLine>, stock: seq<StockLine>): (r: ValidationResult)
    ensures r.Valid? <==> forall i :: 0 <= i < |productData| ==> CheckProduct(productData[i], stock).Valid?
    ensures !r.Valid? ==> exists i :: (0 <= i < |productData| && r == CheckProduct(productData[i], stock) &&
      forall j :: 0 <= j < i ==> CheckProduct(productData[j], stock).Valid?)
  {
    if productData == [] then Valid
    else if !CheckProduct(productData[0], stock).Valid? then CheckProduct(productData[0], stock)
    else
      var rest := ValidationOf(productData[1..], stock);
      assert forall i :: 1 <= i < |productData| ==> productData[i] == productData[1..][i - 1];
      assert !rest.Valid? ==> exists i :: (0 <= i < |productData| && rest == CheckProduct(productData[i], stock) &&
        forall j :: 0 <= j < i ==> CheckProduct(productData[j], stock).Valid?) by {
        if !rest.Valid? {
          var i :| 0 <= i < |productData[1..]| && rest == CheckProduct(productData[1..][i], stock) &&
            forall j :: 0 <= j < i ==> CheckProduct(productData[1..][j], stock).Valid?;
          assert rest == CheckProduct(productData[i + 1], stock);
        }
      }
      rest
  }

  /**
   * validateProductQuantities: for each product, `find`s the stock line with
   * its productId, returns NotFound when there is none, computes both totals
   * and returns Mismatch when they differ; returns Valid after the loop.
   */
  method ValidateProductQuantities(productData: seq<ProductLine>, stockProductRelationResults: seq<StockLine>)
    returns (r: ValidationResult)
    ensures r == ValidationOf(productData, stockProductRelationResults)
  {
    var n := 0;
    while n < |productData|
      invariant 0 <= n <= |productData|
      invariant ValidationOf(productData, stockProductRelationResults) == ValidationOf(productData[n..], stockProductRelationResults)
    {
      var product := productData[n];
      assert productData[n..][0] == product && productData[n..][1..] == productData[n + 1..];
      var stockProduct := FindFirst(stockProductRelationResults, StockProductId, product.productId);
      if stockProduct.None? {
        return NotFound(product.productId);
      }
      var stockLine := stockProductRelationResults[stockProduct.value];
      var totalQuantityProductData := product.quantity;
      if product.subUnit.Some? && product.subUnit.value != "" && product.relatedByValue.Some? && product.relatedByValue.value != 0 {
        totalQuantityProductData := product.quantity * product.relatedByValue.value + product.subQuantity;
      }
      var totalQuantityStock := stockLine.quantity;
      if product.subUnit.Some? && product.subUnit.value != "" && product.relatedByValue.Some? && product.relatedByValue.value != 0 {
        totalQuantityStock := stockLine.quantity * product.relatedByValue.value + stockLine.subquantity;
      }
      assert totalQuantityProductData == ProductTotal(product) && totalQuantityStock == StockTotal(product, stockLine);
      if totalQuantityProductData != totalQuantityStock {
        return Mismatch(product.productId, totalQuantityProductData, totalQuantityStock);
      }
      n := n + 1;
    }
    return Valid;
  }

  /** Stock lines whose productId no product carries never change the outcome, wherever they are added. */
  lemma {:induction false} ValidationIgnoresUnmatchedStock(productData: seq<ProductLine>, stock: seq<StockLine>,
                                                          extra: seq<StockLine>)
    requires forall i, j :: 0 <= i < |productData| && 0 <= j < |extra| ==> extra[j].productId != productData[i].productId
    ensures ValidationOf(productData, stock + extra) == ValidationOf(productData, stock)
    ensures ValidationOf(productData, extra + stock) == ValidationOf(productData, stock)
    decreases |productData|
  {
    if productData != [] {
      var p := productData[0];
      CheckIgnoresUnmatchedStock(p, stock, extra);
      ValidationIgnoresUnmatchedStock(productData[1..], stock, extra);
    }
  }

  lemma CheckIgnoresUnmatchedStock(product: ProductLine, stock: seq<StockLine>, extra: seq<StockLine>)
    requires Absent(extra, StockProductId, product.productId)
    ensures CheckProduct(product, stock + extra) == CheckProduct(product, stock)
    ensures CheckProduct(product, extra + stock) == CheckProduct(product, stock)
  {
    var id := product.productId;
    match FindFirst(stock, StockProductId, id)
    case None =>
      assert Absent(stock + extra, StockProductId, id);
      assert Absent(extra + stock, StockProductId, id);
    case Some(j) =>
      assert (stock + extra)[j] == stock[j];
      FindFirstAt(stock + extra, StockProductId, id, j);
      assert (extra + stock)[|extra| + j] == stock[j];
      FindFirstAt(extra + stock, StockProductId, id, |extra| + j);
  }

  /** The stock lines with the given productId, in order: the only lines the `find` at code.js:236-238 can return. */
  function LinesOf(stock: seq<StockLine>, productId: int): (r: seq<StockLine>)
    ensures forall l :: l in r <==> l in stock && l.productId == productId
  {
    if stock == [] then []
    else if stock[0].productId == productId then [stock[0]] + LinesOf(stock[1..], productId)
    else LinesOf(stock[1..], productId)
  }

  /** Selecting one productId's lines commutes with concatenation. */
  lemma {:induction false} LinesOfConcat(a: seq<StockLine>, b: seq<StockLine>, productId: int)
    ensures LinesOf(a + b, productId) == LinesOf(a, productId) + LinesOf(b, productId)
    decreases |a|
  {
    if a == [] {
      assert a + b == b;
    } else {
      assert (a + b)[0] == a[0] && (a + b)[1..] == a[1..] + b;
      LinesOfConcat(a[1..], b, productId);
    }
  }

  /** A product's check depends only on the stock lines with its productId, in their order. */
  lemma {:induction false} CheckUsesOwnLines(product: ProductLine, stock: seq<StockLine>)
    ensures CheckProduct(product, stock) == CheckProduct(product, LinesOf(stock, product.productId))
    decreases |stock|
  {
    var id := product.productId;
    if stock != [] {
      var own := LinesOf(stock, id);
      if stock[0].productId == id {
        FindFirstAt(stock, StockProductId, id, 0);
        FindFirstAt(own, StockProductId, id, 0);
      } else {
        CheckUsesOwnLines(product, stock[1..]);
        match FindFirst(stock[1..], StockProductId, id)
        case None =>
          assert Absent(stock, StockProductId, id);
        case Some(j) =>
          assert stock[j + 1] == stock[1..][j];
          FindFirstAt(stock, StockProductId, id, j + 1);
      }
    }
  }

  /** Two stock lists that agree on every product's own lines validate alike. */
  lemma {:induction false} ValidationUsesOwnLines(productData: seq<ProductLine>, a: seq<StockLine>, b: seq<StockLine>)
    requires forall i :: 0 <= i < |productData| ==>
      LinesOf(a, productData[i].productId) == LinesOf(b, productData[i].productId)
    ensures ValidationOf(productData, a) == ValidationOf(productData, b)
    decreases |productData|
  {
    if productData != [] {
      CheckUsesOwnLines(productData[0], a);
      CheckUsesOwnLines(productData[0], b);
      assert forall i :: 0 <= i < |productData[1..]| ==> productData[1..][i] == productData[i + 1];
      ValidationUsesOwnLines(productData[1..], a, b);
    }
  }

  /** Stock lines whose productId no product carries, inserted anywhere, never change the outcome. */
  lemma ValidationIgnoresInsertedStock(productData: seq<ProductLine>, before: seq<StockLine>,
                                       extra: seq<StockLine>, after: seq<StockLine>)
    requires forall i, j :: 0 <= i < |productData| && 0 <= j < |extra| ==> extra[j].productId != productData[i].productId
    ensures ValidationOf(productData, before + extra + after) == ValidationOf(productData, before + after)
  {
    forall i | 0 <= i < |productData|
      ensures LinesOf(before + extra + after, productData[i].productId) == LinesOf(before + after, productData[i].productId)
    {
      var id := productData[i].productId;
      LinesOfConcat(before + extra, after, id);
      LinesOfConcat(before, extra, id);
      LinesOfConcat(before, after, id);
      assert LinesOf(before, id) + [] == LinesOf(before, id);
    }
    ValidationUsesOwnLines(productData, before + extra + after, before + after);
  }

  /** Two splits of the same amount compare equal: 1 kg 1500 g against 2 kg 500 g at 1000 g per kg. */
  lemma CarrySplitCompares()
    ensures CheckProduct(ProductLine(1, None, 46, 10, 1, 1500, 0, 0, Some("gm"), Some(1000)),
                         [StockLine(46, 2, 500, 10, None, false)]) == Valid
  {
    assert FirstAt([StockLine(46, 2, 500, 10, None, false)], StockProductId, 46, 0);
  }

  /** The sample at code.js:265-303: product 45 matches, product 46 has 2499 g against 2500 g. */
  lemma ValidationSample()
    ensures ValidationOf(
      [ProductLine(1029, None, 45, 10, 10, 0, 0, 0, None, None),
       ProductLine(1029, None, 46, 10, 2, 499, 0, 0, Some("gm"), Some(1000))],
      [StockLine(45, 10, 0, 10, None, false), StockLine(46, 2, 500, 10, None, false)])
      == Mismatch(46, 2499, 2500)
  {
    var stock := [StockLine(45, 10, 0, 10, None, false), StockLine(46, 2, 500, 10, None, false)];
    assert FirstAt(stock, StockProductId, 45, 0);
    assert FirstAt(stock, StockProductId, 46, 1);
    var pd := [ProductLine(1029, None, 45, 10, 10, 0, 0, 0, None, None),
               ProductLine(1029, None, 46, 10, 2, 499, 0, 0, Some("gm"), Some(1000))];
    assert pd[1..] == [pd[1]];
    assert pd[1..][1..] == [];
  }

  /** A product missing from the stock data is reported by its productId. */
  lemma ValidationNotFoundSample()
    ensures ValidationOf([ProductLine(1, None, 99, 10, 3, 0, 0, 0, None, None)],
                         [StockLine(45, 10, 0, 10, None, false)]) == NotFound(99)
  {
    assert Absent([StockLine(45, 10, 0, 10, None, false)], StockProductId, 99);
  }
}
