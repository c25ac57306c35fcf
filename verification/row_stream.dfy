/**
 * The row streams both transports forward to a query's cursor: of the values
 * that arrive after the response envelope, those that decode as a row are passed
 * on, in arrival order, and the others are dropped.
 */
module RowStream {
  import opened Wire

  /** The rows `keep` accepts from `items`, in order. */
  function Filter(items: seq<Value>, keep: Value -> Option<Row>): (rows: seq<Row>)
    ensures |rows| <= |items|
  {
    if items == [] then []
    else
      var last := items[|items| - 1];
      Filter(items[..|items| - 1], keep) + (if keep(last).Some? then [keep(last).value] else [])
  }

  /** The positions of the items `keep` accepts, in increasing order. */
  function Kept(items: seq<Value>, keep: Value -> Option<Row>): (idx: seq<nat>)
    ensures forall j :: 0 <= j < |idx| ==> idx[j] < |items|
  {
    if items == [] then []
    else
      var n := |items| - 1;
      Kept(items[..n], keep) + (if keep(items[n]).Some? then [n] else [])
  }

  lemma {:induction false} KeptMatchesFilter(items: seq<Value>, keep: Value -> Option<Row>)
    ensures |Filter(items, keep)| == |Kept(items, keep)|
    ensures forall j :: 0 <= j < |Kept(items, keep)| ==>
      keep(items[Kept(items, keep)[j]]) == Some(Filter(items, keep)[j])
  {
    if items != [] {
      var n := |items| - 1;
      var front := items[..n];
      KeptMatchesFilter(front, keep);
      var f, k := Filter(items, keep), Kept(items, keep);
      var f0, k0 := Filter(front, keep), Kept(front, keep);
      assert f == f0 + (if keep(items[n]).Some? then [keep(items[n]).value] else []);
      assert k == k0 + (if keep(items[n]).Some? then [n] else []);
      forall j | 0 <= j < |k|
        ensures keep(items[k[j]]) == Some(f[j])
      {
        if j < |k0| {
          assert k[j] == k0[j] && f[j] == f0[j] && items[k0[j]] == front[k0[j]];
        }
      }
    }
  }

  lemma {:induction false} KeptIncreasing(items: seq<Value>, keep: Value -> Option<Row>)
    ensures forall j, l :: 0 <= j < l < |Kept(items, keep)| ==> Kept(items, keep)[j] < Kept(items, keep)[l]
  {
    if items != [] {
      var n := |items| - 1;
      KeptIncreasing(items[..n], keep);
    }
  }

  lemma {:induction false} KeptExactlyAccepted(items: seq<Value>, keep: Value -> Option<Row>)
    ensures forall i :: 0 <= i < |items| ==> (keep(items[i]).Some? <==> i in Kept(items, keep))
  {
    if items != [] {
      var n := |items| - 1;
      var front := items[..n];
      KeptExactlyAccepted(front, keep);
      var k0 := Kept(front, keep);
      assert Kept(items, keep) == k0 + (if keep(items[n]).Some? then [n] else []);
      assert n !in k0;
      assert forall i :: 0 <= i < n ==> front[i] == items[i];
    }
  }

  /**
   * The forwarded stream is exactly the accepted items in their original order:
   * the j-th row comes from the j-th accepted position, positions increase, and an
   * item is at one of those positions exactly when `keep` accepts it.
   */
  lemma FilterIsOrderedSubsequence(items: seq<Value>, keep: Value -> Option<Row>)
    ensures |Filter(items, keep)| == |Kept(items, keep)|
    ensures forall j :: 0 <= j < |Kept(items, keep)| ==>
      keep(items[Kept(items, keep)[j]]) == Some(Filter(items, keep)[j])
    ensures forall j, l :: 0 <= j < l < |Kept(items, keep)| ==> Kept(items, keep)[j] < Kept(items, keep)[l]
    ensures forall i :: 0 <= i < |items| ==> (keep(items[i]).Some? <==> i in Kept(items, keep))
  {
    KeptMatchesFilter(items, keep);
    KeptIncreasing(items, keep);
    KeptExactlyAccepted(items, keep);
  }

  /** Appending one arrival extends the forwarded stream by at most that row. */
  lemma FilterSnoc(items: seq<Value>, v: Value, keep: Value -> Option<Row>)
    ensures Filter(items + [v], keep) ==
      Filter(items, keep) + (if keep(v).Some? then [keep(v).value] else [])
  {
    assert (items + [v])[..|items|] == items;
  }
}
