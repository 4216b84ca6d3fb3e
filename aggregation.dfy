/**
 * The two aggregators: `combineProducts` (raw sums in a dictionary) and
 * `processResults` (a linear `find` over the output, with the arithmetic left to
 * the helper `additionTotalQuantityOfProduct`). Both group stock lines by
 * `(productId, purchasePrice)`, in first-seen order of the keys.
 */
module Aggregation {
  import opened Wrappers
  import opened Records

  function Quantity(l: StockLine): int { l.quantity }

  function Subquantity(l: StockLine): int { l.subquantity }

  /** Some line of s has key k. */
  predicate Occurs(s: seq<StockLine>, k: Key)
  {
    FindFirst(s, KeyOf, k).Some?
  }

  /** Position of the first line of s with key k. */
  function FirstIndex(s: seq<StockLine>, k: Key): (i: nat)
    requires Occurs(s, k)
    ensures FirstAt(s, KeyOf, k, i)
  {
    FindFirst(s, KeyOf, k).value
  }

  /** The distinct keys of s, each where it is first seen. */
  function GroupKeys(s: seq<StockLine>): seq<Key>
    decreases |s|
  {
    if s == [] then []
    else
      var ks := GroupKeys(s[..|s| - 1]);
      if KeyOf(s[|s| - 1]) in ks then ks else ks + [KeyOf(s[|s| - 1])]
  }

  /** The sum of `field` over the lines of s whose key is k. */
  function KeySum(s: seq<StockLine>, k: Key, field: StockLine -> int): int
    decreases |s|
  {
    if s == [] then 0
    else KeySum(s[..|s| - 1], k, field) + (if KeyOf(s[|s| - 1]) == k then field(s[|s| - 1]) else 0)
  }

  // ---------------------------------------------------------------------------
  // combineProducts
  // ---------------------------------------------------------------------------

  /** The record combineProducts holds for key k: a copy of the first line with that key, with raw sums. */
  function Merged(s: seq<StockLine>, k: Key): StockLine
    requires Occurs(s, k)
  {
    s[FirstIndex(s, k)].(quantity := KeySum(s, k, Quantity), subquantity := KeySum(s, k, Subquantity))
  }

  /** What combineProducts returns for `results == s`: one merged record per key, in first-seen order. */
  function Combined(s: seq<StockLine>): seq<StockLine>
  {
    GroupKeysMembers(s);
    var ks := GroupKeys(s);
    seq(|ks|, i requires 0 <= i < |ks| => Merged(s, ks[i]))
  }

  /**
   * combineProducts: fills `productMap` keyed by `${productId}-${purchasePrice}`,
   * adding `quantity` and `subquantity` onto the first copy, and returns
   * `Object.values(productMap)`. Those keys are never array-index-like, so
   * their order is insertion order; `order` records it.
   */
  method CombineProducts(results: seq<StockLine>) returns (combined: seq<StockLine>)
    ensures combined == Combined(results)
  {
    var productMap: map<Key, StockLine> := map[];
    var order: seq<Key> := [];
    var i := 0;
    while i < |results|
      invariant 0 <= i <= |results|
      invariant order == GroupKeys(results[..i])
      invariant Tracks(results[..i], productMap)
    {
      var item := results[i];
      var key := KeyOf(item);
      assert results[..i + 1] == results[..i] + [item];
      TracksSnoc(results[..i], item, productMap);
      if key !in productMap {
        productMap := productMap[key := item];
        order := order + [key];
      } else {
        var existing := productMap[key];
        productMap := productMap[key := existing.(quantity := existing.quantity + item.quantity,
                                                   subquantity := existing.subquantity + item.subquantity)];
      }
      i := i + 1;
    }
    assert results[..i] == results;
    GroupKeysMembers(results);
    combined := seq(|order|, j requires 0 <= j < |order| => productMap[order[j]]);
  }

  /** productMap holds, for every key seen in s, the merged record of that key. */
  ghost predicate Tracks(s: seq<StockLine>, m: map<Key, StockLine>)
  {
    && (forall k :: k in m <==> Occurs(s, k))
    && (forall k :: k in m ==> Occurs(s, k) && m[k] == Merged(s, k))
  }

  /** One iteration of combineProducts keeps the dictionary and the key order up to date. */
  lemma TracksSnoc(s: seq<StockLine>, x: StockLine, m: map<Key, StockLine>)
    requires Tracks(s, m)
    ensures KeyOf(x) !in m ==> Tracks(s + [x], m[KeyOf(x) := x]) && GroupKeys(s + [x]) == GroupKeys(s) + [KeyOf(x)]
    ensures KeyOf(x) in m ==>
      && Tracks(s + [x], m[KeyOf(x) := m[KeyOf(x)].(quantity := m[KeyOf(x)].quantity + x.quantity,
                                                      subquantity := m[KeyOf(x)].subquantity + x.subquantity)])
      && GroupKeys(s + [x]) == GroupKeys(s)
  {
    var s' := s + [x];
    assert s'[..|s'| - 1] == s;
    GroupKeysMembers(s);
    forall k ensures Occurs(s', k) <==> Occurs(s, k) || k == KeyOf(x) {
      FindFirstSnoc(s, x, KeyOf, k);
    }
    forall k | Occurs(s', k) ensures Merged(s', k) == MergedStep(s, x, k) {
      MergedSnoc(s, x, k);
    }
  }

  /** Merged after one more line x, stated in terms of Merged before it. */
  function MergedStep(s: seq<StockLine>, x: StockLine, k: Key): StockLine
    requires Occurs(s + [x], k)
  {
    if !Occurs(s, k) then x
    else if KeyOf(x) == k then
      Merged(s, k).(quantity := Merged(s, k).quantity + x.quantity,
                    subquantity := Merged(s, k).subquantity + x.subquantity)
    else Merged(s, k)
  }

  lemma MergedSnoc(s: seq<StockLine>, x: StockLine, k: Key)
    requires Occurs(s + [x], k)
    ensures Merged(s + [x], k) == MergedStep(s, x, k)
  {
    var s' := s + [x];
    assert s'[..|s'| - 1] == s;
    FindFirstSnoc(s, x, KeyOf, k);
    if !Occurs(s, k) {
      KeySumAbsent(s, k, Quantity);
      KeySumAbsent(s, k, Subquantity);
    }
  }

  // ---------------------------------------------------------------------------
  // Properties of the grouping
  // ---------------------------------------------------------------------------

  /** A key no line carries sums to 0. */
  lemma {:induction false} KeySumAbsent(s: seq<StockLine>, k: Key, field: StockLine -> int)
    requires !Occurs(s, k)
    ensures KeySum(s, k, field) == 0
    decreases |s|
  {
    if s != [] {
      var p := s[..|s| - 1];
      assert s == p + [s[|s| - 1]];
      FindFirstSnoc(p, s[|s| - 1], KeyOf, k);
      KeySumAbsent(p, k, field);
    }
  }

  /** The output keys are exactly the keys that occur in the input. */
  lemma {:induction false} GroupKeysMembers(s: seq<StockLine>)
    ensures forall k :: k in GroupKeys(s) <==> Occurs(s, k)
    decreases |s|
  {
    if s != [] {
      var p := s[..|s| - 1];
      assert s == p + [s[|s| - 1]];
      GroupKeysMembers(p);
      forall k ensures Occurs(s, k) <==> Occurs(p, k) || k == KeyOf(s[|s| - 1]) {
        FindFirstSnoc(p, s[|s| - 1], KeyOf, k);
      }
    }
  }

  /** Every key comes out once, and keys come out in the order their first lines appear. */
  lemma {:induction false} GroupKeysFirstSeen(s: seq<StockLine>)
    ensures forall k :: k in GroupKeys(s) ==> Occurs(s, k)
    ensures forall a, b :: 0 <= a < b < |GroupKeys(s)| ==>
      FirstIndex(s, GroupKeys(s)[a]) < FirstIndex(s, GroupKeys(s)[b])
    decreases |s|
  {
    GroupKeysMembers(s);
    if s != [] {
      var p := s[..|s| - 1];
      var x := s[|s| - 1];
      assert s == p + [x];
      GroupKeysMembers(p);
      GroupKeysFirstSeen(p);
      var ks := GroupKeys(p);
      forall k | k in ks ensures FirstIndex(s, k) == FirstIndex(p, k) {
        FindFirstSnoc(p, x, KeyOf, k);
      }
      if KeyOf(x) !in ks {
        FindFirstSnoc(p, x, KeyOf, KeyOf(x));
        assert FirstIndex(s, KeyOf(x)) == |p|;
      }
    }
  }

  /** No key comes out twice. */
  lemma GroupKeysDistinct(s: seq<StockLine>)
    ensures forall a, b :: 0 <= a < b < |GroupKeys(s)| ==> GroupKeys(s)[a] != GroupKeys(s)[b]
  {
    GroupKeysFirstSeen(s);
  }

  /** Sums over a concatenation add up. */
  lemma {:induction false} KeySumConcat(a: seq<StockLine>, b: seq<StockLine>, k: Key, field: StockLine -> int)
    ensures KeySum(a + b, k, field) == KeySum(a, k, field) + KeySum(b, k, field)
    decreases |b|
  {
    if b == [] {
      assert a + b == a;
    } else {
      var b' := b[..|b| - 1];
      assert (a + b)[..|a + b| - 1] == a + b';
      KeySumConcat(a, b', k, field);
    }
  }

  /** The totals per key do not depend on the order of the input lines. */
  lemma {:induction false} KeySumPermutation(s: seq<StockLine>, t: seq<StockLine>, k: Key, field: StockLine -> int)
    requires multiset(s) == multiset(t)
    ensures KeySum(s, k, field) == KeySum(t, k, field)
    decreases |s|
  {
    if s == [] {
      assert |t| == |multiset(t)| == 0;
    } else {
      var x := s[|s| - 1];
      var s' := s[..|s| - 1];
      assert s == s' + [x];
      assert x in multiset(t) by { assert x in multiset(s); }
      var i :| 0 <= i < |t| && t[i] == x;
      var t' := t[..i] + t[i + 1..];
      assert t == t[..i] + [x] + t[i + 1..];
      assert multiset(t') == multiset(t) - multiset{x};
      assert multiset(s') == multiset(s) - multiset{x};
      KeySumPermutation(s', t', k, field);
      KeySumConcat(s', [x], k, field);
      KeySumConcat(t[..i] + [x], t[i + 1..], k, field);
      KeySumConcat(t[..i], [x], k, field);
      KeySumConcat(t[..i], t[i + 1..], k, field);
      assert [x][..0] == [];
    }
  }

  /** Shuffling the input lines does not change any combined total. */
  lemma CombinedTotalsIgnoreOrder(s: seq<StockLine>, t: seq<StockLine>, k: Key)
    requires multiset(s) == multiset(t)
    requires Occurs(s, k) && Occurs(t, k)
    ensures Merged(s, k).quantity == Merged(t, k).quantity
    ensures Merged(s, k).subquantity == Merged(t, k).subquantity
  {
    KeySumPermutation(s, t, k, Quantity);
    KeySumPermutation(s, t, k, Subquantity);
  }

  /**
   * combineProducts returns one record per distinct key, in first-seen order;
   * each is the first line with that key, with quantity and subquantity
   * replaced by the raw sums over all lines carrying the key.
   */
  lemma CombinedRecords(s: seq<StockLine>)
    ensures |Combined(s)| == |GroupKeys(s)|
    ensures forall i :: 0 <= i < |Combined(s)| ==> KeyOf(Combined(s)[i]) == GroupKeys(s)[i]
    ensures forall k :: (exists i :: 0 <= i < |Combined(s)| && KeyOf(Combined(s)[i]) == k) <==> Occurs(s, k)
    ensures forall a, b :: 0 <= a < b < |Combined(s)| ==> KeyOf(Combined(s)[a]) != KeyOf(Combined(s)[b])
    ensures forall i :: 0 <= i < |Combined(s)| ==>
      var k := KeyOf(Combined(s)[i]);
      && Occurs(s, k)
      && Combined(s)[i].quantity == KeySum(s, k, Quantity)
      && Combined(s)[i].subquantity == KeySum(s, k, Subquantity)
      && Combined(s)[i].(quantity := s[FirstIndex(s, k)].quantity,
                         subquantity := s[FirstIndex(s, k)].subquantity) == s[FirstIndex(s, k)]
  {
    GroupKeysMembers(s);
    GroupKeysDistinct(s);
    var c, ks := Combined(s), GroupKeys(s);
    assert forall i :: 0 <= i < |c| ==> KeyOf(c[i]) == ks[i];
    forall k | Occurs(s, k) ensures exists i :: 0 <= i < |c| && KeyOf(c[i]) == k {
      var i :| 0 <= i < |ks| && ks[i] == k;
      assert KeyOf(c[i]) == k;
    }
  }

  /** Lines of one product at two purchase prices come out as two records. */
  lemma CombinedKeepsPricesApart(s: seq<StockLine>, i: int, j: int)
    requires 0 <= i < |s| && 0 <= j < |s|
    requires s[i].productId == s[j].productId && s[i].purchasePrice != s[j].purchasePrice
    ensures exists a, b :: (0 <= a < |Combined(s)| && 0 <= b < |Combined(s)| && a != b &&
      Combined(s)[a].purchasePrice == s[i].purchasePrice && Combined(s)[b].purchasePrice == s[j].purchasePrice &&
      Combined(s)[a].productId == Combined(s)[b].productId == s[i].productId)
  {
    CombinedRecords(s);
    assert !Absent(s, KeyOf, KeyOf(s[i])) && !Absent(s, KeyOf, KeyOf(s[j]));
    assert Occurs(s, KeyOf(s[i])) && Occurs(s, KeyOf(s[j]));
    var a :| 0 <= a < |Combined(s)| && KeyOf(Combined(s)[a]) == KeyOf(s[i]);
    var b :| 0 <= b < |Combined(s)| && KeyOf(Combined(s)[b]) == KeyOf(s[j]);
  }

  // ---------------------------------------------------------------------------
  // processResults
  // ---------------------------------------------------------------------------

  /**
   * The contract of `additionTotalQuantityOfProduct(q1, s1, q2, s2, factor)`,
   * which returns `{updatedTotalQuantity, updatedTotalSubQuantity}`. Its body is
   * not part of this model, so it is an uninterpreted parameter.
   */
  type Addition = (int, int, int, int, int) -> (int, int)

  /** `item.relatedByValue || 1`: the line's factor when truthy, else 1. */
  function Factor(relatedByValue: Option<int>): (f: int)
    ensures f != 0
    ensures relatedByValue.Some? && relatedByValue.value != 0 ==> f == relatedByValue.value
    ensures relatedByValue.None? || relatedByValue.value == 0 ==> f == 1
  {
    if relatedByValue.Some? && relatedByValue.value != 0 then relatedByValue.value else 1
  }

  /** processResults' update of the kept record e on meeting a later duplicate x. */
  function Step(e: StockLine, x: StockLine, add: Addition): (r: StockLine)
    ensures (r.quantity, r.subquantity) ==
      add(e.quantity, e.subquantity, x.quantity, x.subquantity, Factor(x.relatedByValue))
    ensures r.(quantity := e.quantity, subquantity := e.subquantity) == e
  {
    var updated := add(e.quantity, e.subquantity, x.quantity, x.subquantity, Factor(x.relatedByValue));
    e.(quantity := updated.0, subquantity := updated.1)
  }

  /** The record processResults keeps for key k: the first line with key k, stepped by every later one. */
  function Accumulated(s: seq<StockLine>, k: Key, add: Addition): StockLine
    requires Occurs(s, k)
    decreases |s|
  {
    var p, x := s[..|s| - 1], s[|s| - 1];
    assert s == p + [x];
    FindFirstSnoc(p, x, KeyOf, k);
    if !Occurs(p, k) then x
    else if KeyOf(x) == k then Step(Accumulated(p, k, add), x, add)
    else Accumulated(p, k, add)
  }

  /** What processResults returns: one accumulated record per key, in first-seen order. */
  function Processed(s: seq<StockLine>, add: Addition): seq<StockLine>
  {
    GroupKeysMembers(s);
    var ks := GroupKeys(s);
    seq(|ks|, i requires 0 <= i < |ks| => Accumulated(s, ks[i], add))
  }

  /**
   * processResults: for each item, `find`s the record with its key among those
   * pushed so far; updates that record's quantities through the helper, or
   * pushes a shallow copy of the item.
   */
  method ProcessResults(results: seq<StockLine>, add: Addition) returns (combinedResults: seq<StockLine>)
    ensures combinedResults == Processed(results, add)
  {
    combinedResults := [];
    var i := 0;
    while i < |results|
      invariant 0 <= i <= |results|
      invariant combinedResults == Processed(results[..i], add)
    {
      var item := results[i];
      ProcessedSnoc(results[..i], item, add);
      var existing := FindFirst(combinedResults, KeyOf, KeyOf(item));
      if existing.Some? {
        var j := existing.value;
        var existingItem := combinedResults[j];
        var updated := add(existingItem.quantity, existingItem.subquantity,
                           item.quantity, item.subquantity, Factor(item.relatedByValue));
        assert existingItem.(quantity := updated.0, subquantity := updated.1) == Step(existingItem, item, add);
        combinedResults := combinedResults[j := existingItem.(quantity := updated.0, subquantity := updated.1)];
      } else {
        combinedResults := combinedResults + [item];
      }
      assert results[..i + 1] == results[..i] + [item];
      i := i + 1;
    }
    assert results[..i] == results;
  }

  /** The key of the record kept for k is k. */
  lemma {:induction false} AccumulatedKey(s: seq<StockLine>, k: Key, add: Addition)
    requires Occurs(s, k)
    ensures KeyOf(Accumulated(s, k, add)) == k
    decreases |s|
  {
    var p, x := s[..|s| - 1], s[|s| - 1];
    assert s == p + [x];
    FindFirstSnoc(p, x, KeyOf, k);
    if Occurs(p, k) {
      AccumulatedKey(p, k, add);
    }
  }

  /** The records of processResults carry the grouped keys, position by position. */
  lemma ProcessedKeys(s: seq<StockLine>, add: Addition)
    ensures |Processed(s, add)| == |GroupKeys(s)|
    ensures forall i :: 0 <= i < |GroupKeys(s)| ==> KeyOf(Processed(s, add)[i]) == GroupKeys(s)[i]
  {
    GroupKeysMembers(s);
    forall i | 0 <= i < |GroupKeys(s)| ensures KeyOf(Processed(s, add)[i]) == GroupKeys(s)[i] {
      AccumulatedKey(s, GroupKeys(s)[i], add);
    }
  }

  /** One more input line either steps the record with its key or is appended as a new record. */
  lemma ProcessedSnoc(s: seq<StockLine>, x: StockLine, add: Addition)
    ensures Processed(s + [x], add) ==
      match FindFirst(Processed(s, add), KeyOf, KeyOf(x))
      case None => Processed(s, add) + [x]
      case Some(j) => Processed(s, add)[j := Step(Processed(s, add)[j], x, add)]
  {
    var s' := s + [x];
    assert s'[..|s'| - 1] == s;
    GroupKeysMembers(s);
    GroupKeysMembers(s');
    GroupKeysDistinct(s);
    ProcessedKeys(s, add);
    var p, ks := Processed(s, add), GroupKeys(s);
    forall k | Occurs(s, k) ensures Accumulated(s', k, add) ==
      if KeyOf(x) == k then Step(Accumulated(s, k, add), x, add) else Accumulated(s, k, add)
    {
      FindFirstSnoc(s, x, KeyOf, k);
    }
    match FindFirst(p, KeyOf, KeyOf(x))
    case None =>
      assert KeyOf(x) !in ks;
      assert GroupKeys(s') == ks + [KeyOf(x)];
      FindFirstSnoc(s, x, KeyOf, KeyOf(x));
    case Some(j) =>
      assert ks[j] == KeyOf(x);
      assert GroupKeys(s') == ks;
  }

  /** Apart from quantity and subquantity, every record is a copy of the first line with its key. */
  lemma {:induction false} AccumulatedKeepsFirst(s: seq<StockLine>, k: Key, add: Addition)
    requires Occurs(s, k)
    ensures Accumulated(s, k, add).(quantity := s[FirstIndex(s, k)].quantity,
                                     subquantity := s[FirstIndex(s, k)].subquantity) == s[FirstIndex(s, k)]
    decreases |s|
  {
    var p, x := s[..|s| - 1], s[|s| - 1];
    assert s == p + [x];
    FindFirstSnoc(p, x, KeyOf, k);
    if Occurs(p, k) {
      AccumulatedKeepsFirst(p, k, add);
    }
  }

  /**
   * processResults returns one record per distinct key in first-seen order,
   * each a copy of the first line with that key except for the quantities the
   * helper computed.
   */
  lemma ProcessedRecords(s: seq<StockLine>, add: Addition)
    ensures |Processed(s, add)| == |GroupKeys(s)|
    ensures forall k :: (exists i :: 0 <= i < |Processed(s, add)| && KeyOf(Processed(s, add)[i]) == k) <==> Occurs(s, k)
    ensures forall a, b :: 0 <= a < b < |Processed(s, add)| ==> KeyOf(Processed(s, add)[a]) != KeyOf(Processed(s, add)[b])
    ensures forall i :: 0 <= i < |Processed(s, add)| ==>
      var k := KeyOf(Processed(s, add)[i]);
      && Occurs(s, k)
      && Processed(s, add)[i].(quantity := s[FirstIndex(s, k)].quantity,
                               subquantity := s[FirstIndex(s, k)].subquantity) == s[FirstIndex(s, k)]
  {
    GroupKeysMembers(s);
    GroupKeysDistinct(s);
    ProcessedKeys(s, add);
    var c, ks := Processed(s, add), GroupKeys(s);
    forall k | Occurs(s, k) ensures exists i :: 0 <= i < |c| && KeyOf(c[i]) == k {
      var i :| 0 <= i < |ks| && ks[i] == k;
      assert KeyOf(c[i]) == k;
    }
    forall i | 0 <= i < |c| ensures
      c[i].(quantity := s[FirstIndex(s, ks[i])].quantity, subquantity := s[FirstIndex(s, ks[i])].subquantity)
        == s[FirstIndex(s, ks[i])]
    {
      AccumulatedKeepsFirst(s, ks[i], add);
    }
  }

  /** The helper as plain addition with no carry. */
  function RawSum(q1: int, s1: int, q2: int, s2: int, factor: int): (int, int)
  {
    (q1 + q2, s1 + s2)
  }

  /** With a helper that only adds, processResults computes exactly what combineProducts does. */
  lemma ProcessedWithRawSumIsCombined(s: seq<StockLine>, add: Addition)
    requires forall q1, s1, q2, s2, f :: add(q1, s1, q2, s2, f) == (q1 + q2, s1 + s2)
    ensures Processed(s, add) == Combined(s)
  {
    GroupKeysMembers(s);
    forall k | Occurs(s, k) ensures Accumulated(s, k, add) == Merged(s, k) {
      AccumulatedIsMerged(s, k, add);
    }
  }

  lemma {:induction false} AccumulatedIsMerged(s: seq<StockLine>, k: Key, add: Addition)
    requires forall q1, s1, q2, s2, f :: add(q1, s1, q2, s2, f) == (q1 + q2, s1 + s2)
    requires Occurs(s, k)
    ensures Accumulated(s, k, add) == Merged(s, k)
    decreases |s|
  {
    var p, x := s[..|s| - 1], s[|s| - 1];
    assert s == p + [x];
    FindFirstSnoc(p, x, KeyOf, k);
    MergedSnoc(p, x, k);
    if Occurs(p, k) {
      AccumulatedIsMerged(p, k, add);
    }
  }

  /** Input whose keys are already distinct comes back unchanged, whatever the helper does. */
  lemma {:induction false} ProcessedDistinctUnchanged(s: seq<StockLine>, add: Addition)
    requires forall a, b :: 0 <= a < b < |s| ==> KeyOf(s[a]) != KeyOf(s[b])
    ensures Processed(s, add) == s
    decreases |s|
  {
    if s != [] {
      var p, x := s[..|s| - 1], s[|s| - 1];
      assert s == p + [x];
      ProcessedDistinctUnchanged(p, add);
      ProcessedSnoc(p, x, add);
      assert Absent(Processed(p, add), KeyOf, KeyOf(x));
    }
  }

  /** combineProducts on input with distinct keys is the identity (aggregation is idempotent). */
  lemma CombinedDistinctUnchanged(s: seq<StockLine>)
    requires forall a, b :: 0 <= a < b < |s| ==> KeyOf(s[a]) != KeyOf(s[b])
    ensures Combined(s) == s
  {
    ProcessedWithRawSumIsCombined(s, RawSum);
    ProcessedDistinctUnchanged(s, RawSum);
  }

  /** Combining twice is combining once. */
  lemma CombinedIdempotent(s: seq<StockLine>)
    ensures Combined(Combined(s)) == Combined(s)
  {
    CombinedRecords(s);
    CombinedDistinctUnchanged(Combined(s));
  }

  /** The sample at code.js:33-39: lots 29/20 and 30/30 are summed, lot 25/10 is kept as is. */
  lemma CombinedSample()
    ensures Combined([StockLine(29, 5, 0, 20, None, false), StockLine(29, 5, 0, 20, None, false),
                      StockLine(30, 10, 0, 30, None, false), StockLine(30, 5, 0, 30, None, false),
                      StockLine(25, 5, 500, 10, None, false)])
      == [StockLine(29, 10, 0, 20, None, false), StockLine(30, 15, 0, 30, None, false),
          StockLine(25, 5, 500, 10, None, false)]
  {
    var s := [StockLine(29, 5, 0, 20, None, false), StockLine(29, 5, 0, 20, None, false),
              StockLine(30, 10, 0, 30, None, false), StockLine(30, 5, 0, 30, None, false),
              StockLine(25, 5, 500, 10, None, false)];
    ProcessedWithRawSumIsCombined(s, RawSum);
    TwoPairsAndOne(s[0], s[1], s[2], s[3], s[4], RawSum);
  }

  /**
   * The sample at code.js:143-151: the helper is called once for lot 29/20 with
   * factor 1000 and once for lot 30/30 with factor 1 (its relatedByValue is null).
   */
  lemma ProcessedSample(add: Addition)
    ensures Processed([StockLine(29, 5, 0, 20, Some(1000), false), StockLine(29, 5, 0, 20, Some(1000), false),
                       StockLine(30, 10, 0, 30, None, false), StockLine(30, 5, 0, 30, None, false),
                       StockLine(25, 5, 500, 10, None, false)], add)
      == [StockLine(29, add(5, 0, 5, 0, 1000).0, add(5, 0, 5, 0, 1000).1, 20, Some(1000), false),
          StockLine(30, add(10, 0, 5, 0, 1).0, add(10, 0, 5, 0, 1).1, 30, None, false),
          StockLine(25, 5, 500, 10, None, false)]
  {
    TwoPairsAndOne(StockLine(29, 5, 0, 20, Some(1000), false), StockLine(29, 5, 0, 20, Some(1000), false),
                   StockLine(30, 10, 0, 30, None, false), StockLine(30, 5, 0, 30, None, false),
                   StockLine(25, 5, 500, 10, None, false), add);
  }

  /** Both samples have the shape: two lines of one key, two of another, one of a third. */
  lemma TwoPairsAndOne(l0: StockLine, l1: StockLine, l2: StockLine, l3: StockLine, l4: StockLine, add: Addition)
    requires KeyOf(l0) == KeyOf(l1) && KeyOf(l2) == KeyOf(l3)
    requires KeyOf(l0) != KeyOf(l2) && KeyOf(l0) != KeyOf(l4) && KeyOf(l2) != KeyOf(l4)
    ensures Processed([l0, l1, l2, l3, l4], add) == [Step(l0, l1, add), Step(l2, l3, add), l4]
  {
    var a, b := Step(l0, l1, add), Step(l2, l3, add);
    PairThenOther(l0, l1, l2, add);
    ProcessedSnoc([l0, l1, l2], l3, add);
    assert [l0, l1, l2] + [l3] == [l0, l1, l2, l3];
    FindFirstAt([a, l2], KeyOf, KeyOf(l3), 1);
    assert Processed([l0, l1, l2, l3], add) == [a, b];
    ProcessedSnoc([l0, l1, l2, l3], l4, add);
    assert [l0, l1, l2, l3] + [l4] == [l0, l1, l2, l3, l4];
    assert Absent([a, b], KeyOf, KeyOf(l4));
  }

  /** The first three lines of that shape: a pair of one key, then a line of another. */
  lemma PairThenOther(l0: StockLine, l1: StockLine, l2: StockLine, add: Addition)
    requires KeyOf(l0) == KeyOf(l1) && KeyOf(l0) != KeyOf(l2)
    ensures Processed([l0, l1, l2], add) == [Step(l0, l1, add), l2]
  {
    var a := Step(l0, l1, add);
    ProcessedSnoc([], l0, add);
    assert [] + [l0] == [l0];
    assert Processed([l0], add) == [l0];
    ProcessedSnoc([l0], l1, add);
    assert [l0] + [l1] == [l0, l1];
    FindFirstAt([l0], KeyOf, KeyOf(l1), 0);
    assert Processed([l0, l1], add) == [a];
    ProcessedSnoc([l0, l1], l2, add);
    assert [l0, l1] + [l2] == [l0, l1, l2];
    assert Absent([a], KeyOf, KeyOf(l2));
  }
}
