/**
 Call and return entries (src/porcupine/checker.go): the flat form of a history that the
 search works on.  A history is an alternation of calls and returns in time order; the
 position of an entry plays the part of its time.
 */
module Entries {
  import opened Histories

  datatype Entry<+V> = Entry(isReturn: bool, value: V, id: nat, time: int)

  /** The number of operations of a history. */
  function Count<V>(h: seq<Entry<V>>): nat {
    |h| / 2
  }

  /** Positions `i` and, later, `j` belong to the same operation. */
  ghost predicate Twins<V>(h: seq<Entry<V>>, i: int, j: int) {
    0 <= i < j < |h| && h[i].id == h[j].id
  }

  ghost predicate Paired<V>(h: seq<Entry<V>>, id: nat) {
    exists i, j :: Twins(h, i, j) && h[i].id == id
  }

  /** Every id below |h|/2 has one call and, later, one return; there is nothing else. */
  ghost predicate WellFormed<V>(h: seq<Entry<V>>) {
    && |h| == 2 * Count(h)
    && (forall i :: 0 <= i < |h| ==> h[i].id < Count(h))
    && (forall i, j :: Twins(h, i, j) ==> !h[i].isReturn && h[j].isReturn)
    && (forall id: nat :: id < Count(h) ==> Paired(h, id))
  }

  ghost function CallOf<V>(h: seq<Entry<V>>, id: nat): (c: nat)
    requires WellFormed(h) && id < Count(h)
    ensures c < |h| && h[c].id == id && !h[c].isReturn
    ensures forall i :: 0 <= i < |h| && h[i].id == id && !h[i].isReturn ==> i == c
  {
    assert Paired(h, id);
    var i, j :| Twins(h, i, j) && h[i].id == id;
    assert forall k :: 0 <= k < |h| && h[k].id == id ==> k == i || Twins(h, i, k) || Twins(h, k, i);
    i
  }

  ghost function ReturnOf<V>(h: seq<Entry<V>>, id: nat): (r: nat)
    requires WellFormed(h) && id < Count(h)
    ensures r < |h| && h[r].id == id && h[r].isReturn
    ensures CallOf(h, id) < r
    ensures forall i :: 0 <= i < |h| && h[i].id == id && h[i].isReturn ==> i == r
  {
    assert Paired(h, id);
    var i, j :| Twins(h, i, j) && h[i].id == id;
    assert forall k :: 0 <= k < |h| && h[k].id == id ==> k == j || Twins(h, j, k) || Twins(h, k, j);
    j
  }

  /** The operations of a history, positions serving as times. */
  ghost function OpsOf<V>(h: seq<Entry<V>>): (ops: seq<Operation<V>>)
    requires WellFormed(h)
    ensures |ops| == Count(h)
    ensures Timely(ops)
    ensures forall id: nat :: id < Count(h) ==>
      ops[id] == Operation(h[CallOf(h, id)].value, CallOf(h, id), h[ReturnOf(h, id)].value, ReturnOf(h, id))
  {
    seq(Count(h), id requires 0 <= id < Count(h) =>
      Operation(h[CallOf(h, id)].value, CallOf(h, id), h[ReturnOf(h, id)].value, ReturnOf(h, id)))
  }
}
