/**
 * Ordering keys by an integer attribute, as `sorted(..., key=...)` does for
 * the cache cleanups: ascending, ties in any order.
 */
module Ordering {

  /** A non-empty set of keys has one whose attribute is no larger than any other's. */
  lemma {:induction false} Least<K>(s: set<K>, attr: map<K, int>)
    requires s != {} && s <= attr.Keys
    ensures exists k :: k in s && forall k' :: k' in s ==> attr[k] <= attr[k']
    decreases |s|
  {
    var x :| x in s;
    if s != {x} {
      Least(s - {x}, attr);
      var y :| y in s - {x} && forall k' :: k' in s - {x} ==> attr[y] <= attr[k'];
      if attr[x] <= attr[y] {
        assert forall k' :: k' in s ==> attr[x] <= attr[k'];
      } else {
        assert forall k' :: k' in s ==> attr[y] <= attr[k'];
      }
    }
  }

  /** The keys of `attr`, each once, in ascending order of their attribute. */
  method AscendingOrder<K>(attr: map<K, int>) returns (order: seq<K>)
    ensures |order| == |attr|
    ensures forall i, j :: 0 <= i < j < |order| ==> order[i] != order[j]
    ensures forall k :: k in order <==> k in attr
    ensures forall i, j :: 0 <= i < j < |order| ==> attr[order[i]] <= attr[order[j]]
  {
    var rest := attr.Keys;
    order := [];
    while rest != {}
      invariant rest <= attr.Keys
      invariant |order| + |rest| == |attr.Keys|
      invariant forall k :: k in attr <==> k in rest || k in order
      invariant forall k :: k in rest ==> k !in order
      invariant forall i, j :: 0 <= i < j < |order| ==> order[i] != order[j]
      invariant forall i :: 0 <= i < |order| ==> order[i] in attr
      invariant forall i, j :: 0 <= i < j < |order| ==> attr[order[i]] <= attr[order[j]]
      invariant forall i, k :: 0 <= i < |order| && k in rest ==> attr[order[i]] <= attr[k]
      decreases |rest|
    {
      Least(rest, attr);
      var k :| k in rest && forall k' :: k' in rest ==> attr[k] <= attr[k'];
      ghost var prev := order;
      order := order + [k];
      rest := rest - {k};
      assert forall i :: 0 <= i < |prev| ==> order[i] == prev[i];
      assert order[|prev|] == k;
      assert |rest| == |rest + {k}| - 1;
    }
  }
}
