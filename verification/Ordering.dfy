/** The order in which an ordered map or set is walked: each key once, least first. */
module Ordering {
  ghost predicate TotalOrder<T(!new)>(less: (T, T) -> bool) {
    && (forall a, b :: less(a, b) ==> !less(b, a))
    && (forall a, b :: a != b ==> less(a, b) || less(b, a))
    && (forall a, b, c :: less(a, b) && less(b, c) ==> less(a, c))
  }

  predicate Least<T(==)>(keys: set<T>, less: (T, T) -> bool, k: T) {
    k in keys && forall other :: other in keys && other != k ==> less(k, other)
  }

  lemma {:induction false} LeastExists<T(!new)>(keys: set<T>, less: (T, T) -> bool)
    requires TotalOrder(less) && keys != {}
    ensures exists k :: Least(keys, less, k)
    decreases |keys|
  {
    var k :| k in keys;
    var rest := keys - {k};
    if rest == {} {
      assert keys == {k};
      assert Least(keys, less, k);
    } else {
      LeastExists(rest, less);
      var best :| Least(rest, less, best);
      var least := if less(k, best) then k else best;
      forall other | other in keys && other != least ensures less(least, other) {
        assert other == k || other in rest;
      }
      assert Least(keys, less, least);
    }
  }

  /** Walking order. */
  function Ordered<T(!new)>(keys: set<T>, less: (T, T) -> bool): (walk: seq<T>)
    requires TotalOrder(less)
    ensures |walk| == |keys|
    ensures forall k :: k in walk <==> k in keys
    ensures forall i, j :: 0 <= i < j < |walk| ==> less(walk[i], walk[j])
    decreases |keys|
  {
    if keys == {} then []
    else
      LeastExists(keys, less);
      var k :| Least(keys, less, k);
      var rest := Ordered(keys - {k}, less);
      assert forall j :: 0 <= j < |rest| ==> rest[j] in rest;
      [k] + rest
  }
}
