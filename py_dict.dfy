/**
 * Python's `dict` with string keys, as the backend's in-memory stores use it: the entries, plus
 * the order in which their keys were first inserted, which is the order `values()` lists them in.
 */
module PyDict {

  /** The key order lists each key of the map exactly once. */
  ghost predicate Ordered<V>(entries: map<string, V>, order: seq<string>)
  {
    && (forall i, j :: 0 <= i < j < |order| ==> order[i] != order[j])
    && (forall k :: k in order <==> k in entries)
  }

  /** `d[k] = v`: a new key goes to the end of the order; an existing key keeps its place. */
  function InsertKey(order: seq<string>, k: string): (r: seq<string>)
    ensures k in order ==> r == order
    ensures k !in order ==> r == order + [k]
  {
    if k in order then order else order + [k]
  }

  lemma InsertKeepsOrdered<V>(entries: map<string, V>, order: seq<string>, k: string, v: V)
    requires Ordered(entries, order)
    ensures Ordered(entries[k := v], InsertKey(order, k))
  {
  }

  /** The position of `k` in the order. */
  function IndexOf(order: seq<string>, k: string): (i: nat)
    requires k in order
    ensures i < |order| && order[i] == k && k !in order[..i]
  {
    if order[0] == k then 0 else 1 + IndexOf(order[1..], k)
  }

  /** `del d[k]`: the key leaves the order and every other key keeps its relative place. */
  function DeleteKey(order: seq<string>, k: string): (r: seq<string>)
    requires k in order
  {
    var i := IndexOf(order, k);
    order[..i] + order[i + 1..]
  }

  /** Deleting a key keeps the map and its order in step, and removes that key only. */
  lemma DeleteKeepsOrdered<V>(entries: map<string, V>, order: seq<string>, k: string)
    requires Ordered(entries, order) && k in entries
    ensures Ordered(entries - {k}, DeleteKey(order, k))
    ensures |DeleteKey(order, k)| == |order| - 1
    ensures forall x :: x in DeleteKey(order, k) <==> x in order && x != k
  {
    var i := IndexOf(order, k);
    var r := DeleteKey(order, k);
    assert forall j :: 0 <= j < i ==> r[j] == order[j];
    assert forall j :: i <= j < |r| ==> r[j] == order[j + 1];
    forall x
      ensures x in r <==> x in order && x != k
    {
      if x in r {
        var j :| 0 <= j < |r| && r[j] == x;
        if j < i {
          assert order[j] == x;
        } else {
          assert order[j + 1] == x;
        }
      }
      if x in order && x != k {
        var j :| 0 <= j < |order| && order[j] == x;
        if j < i {
          assert r[j] == x;
        } else {
          assert j != i;
          assert r[j - 1] == x;
        }
      }
    }
  }

  /** `list(d.values())`: the values, in key order. */
  function Values<V>(entries: map<string, V>, order: seq<string>): (r: seq<V>)
    requires forall k :: k in order ==> k in entries
    ensures |r| == |order|
    ensures forall i :: 0 <= i < |order| ==> r[i] == entries[order[i]]
  {
    if order == [] then [] else [entries[order[0]]] + Values(entries, order[1..])
  }
}
