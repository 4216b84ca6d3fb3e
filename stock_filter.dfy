/**
 * Removal of purchase-return lines already present in the stock results:
 * a Set of the stock results' productIds, then a `filter` that keeps the
 * lines whose productId is not in it.
 */
module StockFilter {
  import opened Wrappers
  import opened Records

  /** `new Set(stockResults.map(item => item.productId))`. */
  function ProductIdsToRemove(stockResults: seq<StockLine>): (ids: set<int>)
    ensures forall id :: id in ids <==> exists i :: 0 <= i < |stockResults| && stockResults[i].productId == id
  {
    set i | 0 <= i < |stockResults| :: stockResults[i].productId
  }

  /** `items.filter(item => !ids.has(item.productId))`. */
  function FilterSelectProductData(items: seq<ProductLine>, ids: set<int>): (r: seq<ProductLine>)
    ensures |r| <= |items|
    ensures forall x :: x in r <==> x in items && x.productId !in ids
    ensures forall x :: multiset(r)[x] == if x.productId in ids then 0 else multiset(items)[x]
  {
    assert items != [] ==> items == [items[0]] + items[1..];
    if items == [] then []
    else if items[0].productId in ids then FilterSelectProductData(items[1..], ids)
    else [items[0]] + FilterSelectProductData(items[1..], ids)
  }

  /** The whole pass: the lines of selectProductData whose productId no stock result has. */
  function FilteredSelectProductData(selectProductData: seq<ProductLine>, stockResults: seq<StockLine>)
    : (r: seq<ProductLine>)
    ensures |r| <= |selectProductData|
    ensures forall x :: x in r <==> (x in selectProductData &&
      forall j :: 0 <= j < |stockResults| ==> stockResults[j].productId != x.productId)
  {
    FilterSelectProductData(selectProductData, ProductIdsToRemove(stockResults))
  }

  /** r is obtained from s by deleting elements, keeping the order of the rest. */
  predicate IsSubsequence<T(==)>(r: seq<T>, s: seq<T>)
    decreases |s|
  {
    if s == [] then r == []
    else (r != [] && r[0] == s[0] && IsSubsequence(r[1..], s[1..])) || IsSubsequence(r, s[1..])
  }

  /** The filter keeps the order of the lines it keeps. */
  lemma {:induction false} FilterIsSubsequence(items: seq<ProductLine>, ids: set<int>)
    ensures IsSubsequence(FilterSelectProductData(items, ids), items)
    decreases |items|
  {
    if items != [] {
      FilterIsSubsequence(items[1..], ids);
      var rest := FilterSelectProductData(items[1..], ids);
      if items[0].productId !in ids {
        assert ([items[0]] + rest)[1..] == rest;
      }
    }
  }

  /** Filtering a concatenation filters each part. */
  lemma {:induction false} FilterConcat(a: seq<ProductLine>, b: seq<ProductLine>, ids: set<int>)
    ensures FilterSelectProductData(a + b, ids) == FilterSelectProductData(a, ids) + FilterSelectProductData(b, ids)
    decreases |a|
  {
    if a == [] {
      assert a + b == b;
    } else {
      assert (a + b)[0] == a[0] && (a + b)[1..] == a[1..] + b;
      FilterConcat(a[1..], b, ids);
    }
  }

  /** When no line's productId is to be removed, the data comes back unchanged. */
  lemma {:induction false} FilterKeepsAll(items: seq<ProductLine>, ids: set<int>)
    requires forall i :: 0 <= i < |items| ==> items[i].productId !in ids
    ensures FilterSelectProductData(items, ids) == items
    decreases |items|
  {
    if items != [] {
      FilterKeepsAll(items[1..], ids);
    }
  }

  /** Filtering twice with the same ids is filtering once. */
  lemma {:induction false} FilterIdempotent(items: seq<ProductLine>, ids: set<int>)
    ensures FilterSelectProductData(FilterSelectProductData(items, ids), ids) == FilterSelectProductData(items, ids)
  {
    var r := FilterSelectProductData(items, ids);
    forall i | 0 <= i < |r| ensures r[i].productId !in ids {
      assert r[i] in r;
    }
    FilterKeepsAll(r, ids);
  }

  /** The sample at code.js:309-346: product 45 is in the stock results, so only the line of product 46 remains. */
  lemma FilterSample()
    ensures
      var rice := ProductLine(1057, Some(333), 46, 10, 0, 0, 5, 500, Some("gm"), Some(1000));
      FilteredSelectProductData(
        [ProductLine(1057, Some(333), 45, 10, 4, 0, 1, 0, None, None), rice],
        [StockLine(45, 4, 0, 10, None, false)]) == [rice]
  {
    var stock := [StockLine(45, 4, 0, 10, None, false)];
    assert stock[0].productId == 45;
    forall id | id in ProductIdsToRemove(stock) ensures id == 45 {
      var i :| 0 <= i < |stock| && stock[i].productId == id;
    }
    assert ProductIdsToRemove(stock) == {45};
  }
}
