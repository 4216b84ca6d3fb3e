/**
 * The in-memory records the reconciliation snippets work on, the keys they are
 * matched by, and `Array.prototype.find` as a first-match search.
 */
module Records {
  import opened Wrappers

  /** `(productId, purchasePrice)`: the key that tells two stock lots apart. */
  type Key = (int, int)

  /**
   * One row of the purchase-price-wise stock ledger (the `results` arrays).
   * `relatedByValue` is the conversion factor some variants carry (None for
   * `null` or a missing field); `isQuantityCalculated` is false while the flag
   * has not been set.
   */
  datatype StockLine = StockLine(
    productId: int,
    quantity: int,
    subquantity: int,
    purchasePrice: int,
    relatedByValue: Option<int>,
    isQuantityCalculated: bool)

  /** A product as entered on the front end (`frontendProductData`). */
  datatype FrontendProduct = FrontendProduct(
    productId: int,
    purchasePrice: int,
    previousPurchasePrice: Option<int>,
    relatedByValue: Option<int>)

  /** A purchase (or purchase-return) line item (`productData`, `selectProductData`). */
  datatype ProductLine = ProductLine(
    purchaseId: int,
    purchaseReturnId: Option<int>,
    productId: int,
    purchasePrice: int,
    quantity: int,
    subQuantity: int,
    returnedQuantity: int,
    returnedSubQuantity: int,
    subUnit: Option<string>,
    relatedByValue: Option<int>)

  function KeyOf(l: StockLine): Key { (l.productId, l.purchasePrice) }

  function ProductKey(p: FrontendProduct): Key { (p.productId, p.purchasePrice) }

  function StockProductId(l: StockLine): int { l.productId }

  /** Index j holds the first element of s whose key is k. */
  predicate FirstAt<T, K(==)>(s: seq<T>, key: T -> K, k: K, j: int)
  {
    0 <= j < |s| && key(s[j]) == k && forall i :: 0 <= i < j ==> key(s[i]) != k
  }

  /** No element of s has key k. */
  predicate Absent<T, K(==)>(s: seq<T>, key: T -> K, k: K)
  {
    forall i :: 0 <= i < |s| ==> key(s[i]) != k
  }

  /**
   * `s.find(x => key(x) === k)`, returning the position of the element found
   * rather than the element itself.
   */
  function FindFirst<T, K(==)>(s: seq<T>, key: T -> K, k: K): (r: Option<nat>)
    ensures r.Some? ==> FirstAt(s, key, k, r.value)
    ensures r.None? <==> Absent(s, key, k)
  {
    if s == [] then None
    else if key(s[0]) == k then Some(0)
    else match FindFirst(s[1..], key, k)
      case None => None
      case Some(j) => Some(j + 1)
  }

  /** The first match is unique, so any index that is one is what FindFirst returns. */
  lemma FindFirstAt<T, K>(s: seq<T>, key: T -> K, k: K, j: int)
    requires FirstAt(s, key, k, j)
    ensures FindFirst(s, key, k) == Some(j)
  {
    assert key(s[j]) == k;
  }

  /** Appending an element never changes a match already found. */
  lemma FindFirstSnoc<T, K>(s: seq<T>, x: T, key: T -> K, k: K)
    ensures FindFirst(s + [x], key, k) ==
      if FindFirst(s, key, k).Some? then FindFirst(s, key, k)
      else if key(x) == k then Some(|s|)
      else None
  {
    var r := FindFirst(s, key, k);
    var s' := s + [x];
    assert forall i :: 0 <= i < |s| ==> s'[i] == s[i];
    if r.Some? {
      FindFirstAt(s', key, k, r.value);
    } else if key(x) == k {
      FindFirstAt(s', key, k, |s|);
    } else {
      assert Absent(s', key, k);
    }
  }
}
