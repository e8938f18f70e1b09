/**
 The doubly linked list of call and return nodes (src/porcupine/checker.go).  Lifting an
 operation unlinks its two nodes and leaves their own pointers alone, so that unlifting can
 put them back; the contracts say which entries are in the list before and after.
 */
module LinkedEntries {
  import opened Sealing
  import opened Histories
  import opened Entries
  import opened Search

  class Node<V> {
    const value: Option<V>
    const matching: Node?<V>   // a call's return node; null for a return and for the head
    const id: int
    ghost const number: nat  // the number of the entry it carries; 0 for the head
    var next: Node?<V>
    var prev: Node?<V>

    constructor (value: Option<V>, matching: Node?<V>, id: int, ghost number: nat)
      ensures this.number == number
      ensures this.value == value && this.matching == matching && this.id == id
      ensures next == null && prev == null
    {
      this.value, this.matching, this.id := value, matching, id;
      this.number := number;
      next, prev := null, null;
    }
  }

  /** The last number before `i` in `live`, or -1 if there is none. */
  ghost function PrevLive(live: set<nat>, i: nat): (r: int)
    ensures -1 <= r < i
    ensures 0 <= r ==> r in live
    ensures forall j :: r < j < i ==> j !in live
    decreases i
  {
    if i == 0 then -1 else if i - 1 in live then i - 1 else PrevLive(live, i - 1)
  }

  /** The nodes carry consecutive numbers, so they are distinct. */
  ghost predicate Numbered<V>(nodes: seq<Node<V>>, first: nat) {
    forall i: nat :: i < |nodes| ==> nodes[i].number == first + i
  }

  /** The node with number `i`, null when there is none. */
  ghost function NodeAt<V>(nodes: seq<Node<V>>, i: int): Node?<V> {
    if 0 <= i < |nodes| then nodes[i] else null
  }

  /** The pointers of all nodes, as values. */
  ghost function Nexts<V>(nodes: seq<Node<V>>): (r: seq<Node?<V>>)
    reads nodes
    ensures |r| == |nodes|
    ensures forall i {:trigger r[i]} :: 0 <= i < |nodes| ==> r[i] == nodes[i].next
  {
    seq(|nodes|, i requires 0 <= i < |nodes| reads nodes => nodes[i].next)
  }

  ghost function Prevs<V>(nodes: seq<Node<V>>): (r: seq<Node?<V>>)
    reads nodes
    ensures |r| == |nodes|
    ensures forall i {:trigger r[i]} :: 0 <= i < |nodes| ==> r[i] == nodes[i].prev
  {
    seq(|nodes|, i requires 0 <= i < |nodes| reads nodes => nodes[i].prev)
  }

  /** Pointers `next` and `prev` are those of entry `i` among the entries of `live`. */
  ghost predicate PlacedAt<V>(nodes: seq<Node<V>>, live: set<nat>, i: nat, next: Node?<V>, prev: Node?<V>)
    requires i < |nodes|
  {
    next == NodeAt(nodes, NextLive(live, i, |nodes|)) && prev == NodeAt(nodes, PrevLive(live, i))
  }

  ghost predicate Linkage<V>(nodes: seq<Node<V>>, live: set<nat>, nexts: seq<Node?<V>>, prevs: seq<Node?<V>>) {
    && Numbered(nodes, 0)
    && |nexts| == |prevs| == |nodes|
    && (forall i :: i in live ==> 0 <= i < |nodes|)
    && forall i: nat {:trigger nexts[i]} {:trigger prevs[i]} :: i in live ==>
       PlacedAt(nodes, live, i, nexts[i], prevs[i])
  }

  /** The nodes numbered by `live` form the list, in the order of their numbers. */
  ghost predicate Linked<V>(nodes: seq<Node<V>>, live: set<nat>)
    reads nodes
  {
    Linkage(nodes, live, Nexts(nodes), Prevs(nodes))
  }

  /** Node `i` points to the entries around it in `live`. */
  ghost predicate Placed<V>(nodes: seq<Node<V>>, live: set<nat>, i: nat)
    requires i < |nodes|
    reads nodes
  {
    PlacedAt(nodes, live, i, Nexts(nodes)[i], Prevs(nodes)[i])
  }

  lemma NextIs(live: set<nat>, i: nat, nil: nat, r: nat)
    requires i < r <= nil && (r < nil ==> r in live)
    requires forall j :: i < j < r ==> j !in live
    ensures NextLive(live, i, nil) == r
  {
    var q := NextLive(live, i, nil);
    assert !(q < r) && !(r < q);
  }

  lemma PrevIs(live: set<nat>, i: nat, r: int)
    requires -1 <= r < i && (0 <= r ==> r in live)
    requires forall j :: r < j < i ==> j !in live
    ensures PrevLive(live, i) == r
  {
    var q := PrevLive(live, i);
    assert !(q < r) && !(r < q);
  }

  /** Removing `x` changes the successor of its predecessor, and of no other entry. */
  lemma NextWithout(live: set<nat>, i: nat, nil: nat, x: nat)
    requires i < nil && x < nil && i in live && x in live
    ensures NextLive(live - {x}, i, nil) ==
      if i == PrevLive(live, x) then NextLive(live, x, nil) else NextLive(live, i, nil)
  {
    if i == PrevLive(live, x) {
      NextIs(live, i, nil, x);
      NextIs(live - {x}, i, nil, NextLive(live, x, nil));
    } else {
      if NextLive(live, i, nil) == x {
        PrevIs(live, x, i);
      }
      NextIs(live - {x}, i, nil, NextLive(live, i, nil));
    }
  }

  lemma PrevWithout(live: set<nat>, i: nat, nil: nat, x: nat)
    requires i < nil && x < nil && i in live && x in live
    ensures PrevLive(live - {x}, i) ==
      if i == NextLive(live, x, nil) then PrevLive(live, x) else PrevLive(live, i)
  {
    if i == NextLive(live, x, nil) {
      PrevIs(live, i, x);
      PrevIs(live - {x}, i, PrevLive(live, x));
    } else {
      if PrevLive(live, i) == x {
        NextIs(live, x, nil, i);
      }
      PrevIs(live - {x}, i, PrevLive(live, i));
    }
  }

  /** Making the neighbours of entry `i` point past it takes it out of the list. */
  lemma UnlinkValues<V>(nodes: seq<Node<V>>, live: set<nat>, nexts: seq<Node?<V>>, prevs: seq<Node?<V>>, i: nat)
    requires Linkage(nodes, live, nexts, prevs)
    requires i in live && 0 in live && i > 0
    ensures var p, n := PrevLive(live, i), NextLive(live, i, |nodes|);
      Linkage(nodes, live - {i}, nexts[p := nexts[i]], if n < |nodes| then prevs[n := prevs[i]] else prevs)
  {
    var p, n := PrevLive(live, i), NextLive(live, i, |nodes|);
    var nexts' := nexts[p := nexts[i]];
    var prevs' := if n < |nodes| then prevs[n := prevs[i]] else prevs;
    forall j: nat | j in live - {i}
      ensures PlacedAt(nodes, live - {i}, j, nexts'[j], prevs'[j])
    {
      NextWithout(live, j, |nodes|, i);
      PrevWithout(live, j, |nodes|, i);
      assert PlacedAt(nodes, live, j, nexts[j], prevs[j]);
      assert PlacedAt(nodes, live, i, nexts[i], prevs[i]);
    }
  }

  /** Making the neighbours of entry `i` point to it puts it back. */
  lemma RelinkValues<V>(nodes: seq<Node<V>>, live: set<nat>, nexts: seq<Node?<V>>, prevs: seq<Node?<V>>, i: nat)
    requires Linkage(nodes, live - {i}, nexts, prevs)
    requires 0 < i < |nodes| && i in live && 0 in live
    requires PlacedAt(nodes, live, i, nexts[i], prevs[i])
    ensures var p, n := PrevLive(live, i), NextLive(live, i, |nodes|);
      Linkage(nodes, live, nexts[p := nodes[i]], if n < |nodes| then prevs[n := nodes[i]] else prevs)
  {
    var p, n := PrevLive(live, i), NextLive(live, i, |nodes|);
    var nexts' := nexts[p := nodes[i]];
    var prevs' := if n < |nodes| then prevs[n := nodes[i]] else prevs;
    forall j: nat | j in live
      ensures j < |nodes| && PlacedAt(nodes, live, j, nexts'[j], prevs'[j])
    {
      if j != i {
        assert j in live - {i};
        NextWithout(live, j, |nodes|, i);
        PrevWithout(live, j, |nodes|, i);
        if j == p {
          NextIs(live, j, |nodes|, i);
        }
        if j == n {
          PrevIs(live, j, i);
        }
        assert PlacedAt(nodes, live - {i}, j, nexts[j], prevs[j]);
      }
    }
  }

  /** Redirects the next pointer of node `p` and the prev pointer of node `n`, which must both be there. */
  method RedirectBoth<V>(p: Node<V>, next: Node?<V>, n: Node<V>, prev: Node?<V>, ghost nodes: seq<Node<V>>,
        ghost i: nat, ghost j: nat)
    requires Numbered(nodes, 0)
    requires i < |nodes| && nodes[i] == p
    requires j < |nodes| && nodes[j] == n
    modifies p, n
    ensures Nexts(nodes) == old(Nexts(nodes))[i := next]
    ensures Prevs(nodes) == old(Prevs(nodes))[j := prev]
  {
    p.next := next;
    n.prev := prev;
  }

  /** Redirects the next pointer of node `p`, and the prev pointer of node `n` if there is such a node. */
  method Redirect<V>(p: Node<V>, next: Node?<V>, n: Node?<V>, prev: Node?<V>, ghost nodes: seq<Node<V>>, ghost i: nat,
        ghost j: nat)
    requires Numbered(nodes, 0)
    requires i < |nodes| && nodes[i] == p
    requires n == NodeAt(nodes, j)
    modifies p, n
    ensures Nexts(nodes) == old(Nexts(nodes))[i := next]
    ensures Prevs(nodes) == if n == null then old(Prevs(nodes)) else old(Prevs(nodes))[j := prev]
  {
    p.next := next;
    if n != null {
      n.prev := prev;
    }
  }

  /** What is followed by something has a next node. */
  lemma HasNext<V>(nodes: seq<Node<V>>, live: set<nat>, i: nat, j: nat, next: Node?<V>, prev: Node?<V>)
    requires i < j < |nodes| && j in live && PlacedAt(nodes, live, i, next, prev)
    ensures NextLive(live, i, |nodes|) < |nodes| && next == nodes[NextLive(live, i, |nodes|)]
  {
  }

  /**
   Takes an entry out that is not the head and not the last one, `j` coming after it.  Its next
   node is written to without asking whether there is one.
   */
  method UnlinkCall<V>(x: Node<V>, ghost nodes: seq<Node<V>>, ghost live: set<nat>, ghost i: nat, ghost j: nat)
    requires Linked(nodes, live)
    requires i in live && nodes[i] == x
    requires 0 in live && 0 < i < j && j in live
    modifies nodes
    ensures Linked(nodes, live - {i})
    ensures KeepsOthers(nodes, live - {i}, old(Nexts(nodes)), old(Prevs(nodes)))
  {
    ghost var p, n := PrevLive(live, i), NextLive(live, i, |nodes|);
    ghost var nexts, prevs := Nexts(nodes), Prevs(nodes);
    assert PlacedAt(nodes, live, i, nexts[i], prevs[i]);
    HasNext(nodes, live, i, j, nexts[i], prevs[i]);
    ghost var nexts', prevs' := nexts[p := x.next], prevs[n := x.prev];
    assert Linkage(nodes, live - {i}, nexts', prevs') by {
      UnlinkValues(nodes, live, nexts, prevs, i);
    }
    RedirectBoth(x.prev, x.next, x.next, x.prev, nodes, p, n);
    assert Nexts(nodes) == nexts' && Prevs(nodes) == prevs';
  }

  /** Takes one entry other than the head out of the list; its own pointers stay. */
  method Unlink<V>(x: Node<V>, ghost nodes: seq<Node<V>>, ghost live: set<nat>, ghost i: nat)
    requires Linked(nodes, live)
    requires i in live && nodes[i] == x
    requires 0 in live && i > 0
    modifies nodes
    ensures Linked(nodes, live - {i})
    ensures KeepsOthers(nodes, live - {i}, old(Nexts(nodes)), old(Prevs(nodes)))
  {
    ghost var p, n := PrevLive(live, i), NextLive(live, i, |nodes|);
    ghost var nexts, prevs := Nexts(nodes), Prevs(nodes);
    assert PlacedAt(nodes, live, i, nexts[i], prevs[i]);
    ghost var nexts', prevs' := nexts[p := x.next], if n < |nodes| then prevs[n := x.prev] else prevs;
    assert Linkage(nodes, live - {i}, nexts', prevs') by {
      UnlinkValues(nodes, live, nexts, prevs, i);
    }
    Redirect(x.prev, x.next, x.next, x.prev, nodes, p, n);
    assert Nexts(nodes) == nexts' && Prevs(nodes) == prevs';
  }

  /** The pointers of the entries outside of `live` are what they were. */
  ghost predicate KeepsOthers<V>(nodes: seq<Node<V>>, live: set<nat>, nexts: seq<Node?<V>>, prevs: seq<Node?<V>>)
    requires |nexts| == |prevs| == |nodes|
    reads nodes
  {
    && (forall j: nat :: j < |nodes| && j !in live ==> Nexts(nodes)[j] == nexts[j])
    && (forall j: nat :: j < |nodes| && j !in live ==> Prevs(nodes)[j] == prevs[j])
  }

  /** Puts an entry back that had `j` after it, writing to its next node without asking. */
  method RelinkCall<V>(x: Node<V>, ghost nodes: seq<Node<V>>, ghost live: set<nat>, ghost i: nat, ghost j: nat)
    requires 0 < i < j < |nodes| && nodes[i] == x
    requires 0 in live && i in live && j in live
    requires Linked(nodes, live - {i}) && Placed(nodes, live, i)
    modifies nodes
    ensures Linked(nodes, live)
    ensures KeepsOthers(nodes, live, old(Nexts(nodes)), old(Prevs(nodes)))
  {
    ghost var p, n := PrevLive(live, i), NextLive(live, i, |nodes|);
    ghost var nexts, prevs := Nexts(nodes), Prevs(nodes);
    assert x.prev == prevs[i] == nodes[p] && x.next == nexts[i] == NodeAt(nodes, n);
    HasNext(nodes, live, i, j, nexts[i], prevs[i]);
    ghost var nexts', prevs' := nexts[p := x], prevs[n := x];
    assert Linkage(nodes, live, nexts', prevs') by {
      RelinkValues(nodes, live, nexts, prevs, i);
    }
    RedirectBoth(x.prev, x, x.next, x, nodes, p, n);
    assert Nexts(nodes) == nexts' && Prevs(nodes) == prevs';
  }

  /** Puts an entry back whose own pointers were left as they were. */
  method Relink<V>(x: Node<V>, ghost nodes: seq<Node<V>>, ghost live: set<nat>, ghost i: nat)
    requires 0 < i < |nodes| && nodes[i] == x
    requires 0 in live && i in live
    requires Linked(nodes, live - {i}) && Placed(nodes, live, i)
    modifies nodes
    ensures Linked(nodes, live)
    ensures KeepsOthers(nodes, live, old(Nexts(nodes)), old(Prevs(nodes)))
  {
    ghost var p, n := PrevLive(live, i), NextLive(live, i, |nodes|);
    ghost var nexts, prevs := Nexts(nodes), Prevs(nodes);
    assert x.prev == prevs[i] == nodes[p] && x.next == nexts[i] == NodeAt(nodes, n);
    ghost var nexts', prevs' := nexts[p := x], if n < |nodes| then prevs[n := x] else prevs;
    assert Linkage(nodes, live, nexts', prevs') by {
      RelinkValues(nodes, live, nexts, prevs, i);
    }
    Redirect(x.prev, x, x.next, x, nodes, p, n);
    assert Nexts(nodes) == nexts' && Prevs(nodes) == prevs';
  }

  /** Entries outside of `live` keep their pointers between two states of the list. */
  ghost predicate Same<V>(live: set<nat>, nexts: seq<Node?<V>>, prevs: seq<Node?<V>>, nexts': seq<Node?<V>>,
        prevs': seq<Node?<V>>) {
    && |nexts| == |prevs| == |nexts'| == |prevs'|
    && (forall j: nat :: j < |nexts| && j !in live ==> nexts'[j] == nexts[j] && prevs'[j] == prevs[j])
  }

  /** Takes two entries out, first `i` and then `j` behind it; both keep pointing to where they were. */
  method UnlinkBoth<V>(x: Node<V>, y: Node<V>, ghost nodes: seq<Node<V>>, ghost live: set<nat>, ghost i: nat,
        ghost j: nat)
    requires Linked(nodes, live)
    requires 0 in live && i in live && j in live && 0 < i < j
    requires nodes[i] == x && nodes[j] == y
    modifies nodes
    ensures Linked(nodes, live - {i} - {j})
    ensures Placed(nodes, live, i) && Placed(nodes, live - {i}, j)
    ensures Same(live, old(Nexts(nodes)), old(Prevs(nodes)), Nexts(nodes), Prevs(nodes))
  {
    ghost var n0, p0 := Nexts(nodes), Prevs(nodes);
    assert PlacedAt(nodes, live, i, n0[i], p0[i]);
    UnlinkCall(x, nodes, live, i, j);
    ghost var n1, p1 := Nexts(nodes), Prevs(nodes);
    assert PlacedAt(nodes, live - {i}, j, n1[j], p1[j]);
    assert n1[i] == n0[i] && p1[i] == p0[i];
    Unlink(y, nodes, live - {i}, j);
    ghost var n2, p2 := Nexts(nodes), Prevs(nodes);
    assert n2[i] == n1[i] && p2[i] == p1[i] && n2[j] == n1[j] && p2[j] == p1[j];
  }

  /** Puts them back, in the opposite order. */
  method RelinkBoth<V>(x: Node<V>, y: Node<V>, ghost nodes: seq<Node<V>>, ghost live: set<nat>, ghost i: nat,
        ghost j: nat)
    requires 0 < i < j < |nodes| && nodes[i] == x && nodes[j] == y
    requires 0 in live && i in live && j in live
    requires Linked(nodes, live - {i} - {j})
    requires Placed(nodes, live, i) && Placed(nodes, live - {i}, j)
    modifies nodes
    ensures Linked(nodes, live)
    ensures Same(live, old(Nexts(nodes)), old(Prevs(nodes)), Nexts(nodes), Prevs(nodes))
  {
    ghost var n0, p0 := Nexts(nodes), Prevs(nodes);
    Relink(y, nodes, live - {i}, j);
    ghost var n1, p1 := Nexts(nodes), Prevs(nodes);
    assert n1[i] == n0[i] && p1[i] == p0[i];
    RelinkCall(x, nodes, live, i, j);
  }

  // ----- The list during the search -----

  /** What never changes: node `i` carries entry `i`, and calls know their returns. */
  ghost predicate Shape<V>(nodes: seq<Node<V>>, h: seq<Entry<V>>) {
    && WellFormed(h)
    && |nodes| == |h| + 1
    && Numbered(nodes, 0)
    && nodes[0].matching == null
    && forall i: nat {:trigger nodes[i].value} {:trigger nodes[i].id} {:trigger nodes[i].matching} :: 1 <= i <= |h| ==>
         && nodes[i].value == Some(Nth(h, i).value)
         && nodes[i].id == Nth(h, i).id
         && nodes[i].matching == if Nth(h, i).isReturn then null else nodes[ReturnOf(h, Nth(h, i).id) + 1]
  }

  /** The nodes of operation `x`, lifted out of `live`, still point to where they were. */
  ghost predicate Parked<V>(nodes: seq<Node<V>>, h: seq<Entry<V>>, live: set<nat>, x: nat, nexts: seq<Node?<V>>,
        prevs: seq<Node?<V>>)
    requires WellFormed(h) && |nodes| == |nexts| == |prevs| == |h| + 1 && x < Count(h)
  {
    var c, r := CallOf(h, x) + 1, ReturnOf(h, x) + 1;
    PlacedAt(nodes, live, c, nexts[c], prevs[c]) && PlacedAt(nodes, live - {c}, r, nexts[r], prevs[r])
  }

  /** Every lifted operation is parked where the ones lifted before it left room. */
  ghost predicate AllParked<V>(nodes: seq<Node<V>>, h: seq<Entry<V>>, p: seq<nat>, nexts: seq<Node?<V>>,
        prevs: seq<Node?<V>>)
    requires WellFormed(h) && |nodes| == |nexts| == |prevs| == |h| + 1 && Ids(p, Count(h))
  {
    p == [] ||
    (var q := p[..|p|-1];
     AllParked(nodes, h, q, nexts, prevs) && Parked(nodes, h, Live(h, q), p[|p|-1], nexts, prevs))
  }

  /** The list holds exactly the entries of the operations not in `p`, and can be restored. */
  ghost predicate ListOk<V>(nodes: seq<Node<V>>, h: seq<Entry<V>>, p: seq<nat>, nexts: seq<Node?<V>>,
        prevs: seq<Node?<V>>) {
    forall k: nat :: Open(k, p) ==> ListIs(nodes, h, p, nexts, prevs)
  }

  ghost predicate ListIs<V>(nodes: seq<Node<V>>, h: seq<Entry<V>>, p: seq<nat>, nexts: seq<Node?<V>>,
        prevs: seq<Node?<V>>) {
    && Shape(nodes, h)
    && Ids(p, Count(h))
    && Linkage(nodes, Live(h, p), nexts, prevs)
    && AllParked(nodes, h, p, nexts, prevs)
  }

  lemma ListLinked<V>(nodes: seq<Node<V>>, h: seq<Entry<V>>, p: seq<nat>, nexts: seq<Node?<V>>, prevs: seq<Node?<V>>)
    requires ListOk(nodes, h, p, nexts, prevs)
    ensures Shape(nodes, h) && Ids(p, Count(h)) && Linkage(nodes, Live(h, p), nexts, prevs)
  {
    assert Open(0, p);
  }

  lemma LiveWithout<V>(h: seq<Entry<V>>, p: seq<nat>, x: nat)
    requires WellFormed(h) && x < Count(h) && x !in p
    ensures Live(h, p + [x]) == Live(h, p) - {CallOf(h, x) + 1} - {ReturnOf(h, x) + 1}
    ensures CallOf(h, x) + 1 in Live(h, p) && ReturnOf(h, x) + 1 in Live(h, p)
  {
    var c, r := CallOf(h, x) + 1, ReturnOf(h, x) + 1;
    assert Nth(h, c).id == x && Nth(h, r).id == x;
    forall i | 1 <= i <= |h|
      ensures i in Live(h, p + [x]) <==> i in Live(h, p) && i != c && i != r
    {
      if Nth(h, i).id == x {
        assert i == c || i == r;
      }
    }
  }

  /** The call node of an operation knows the return node. */
  lemma MatchOf<V>(nodes: seq<Node<V>>, h: seq<Entry<V>>, x: nat)
    requires Shape(nodes, h) && x < Count(h)
    ensures nodes[CallOf(h, x) + 1].matching == nodes[ReturnOf(h, x) + 1]
    ensures nodes[CallOf(h, x) + 1].id == x
  {
    var c := CallOf(h, x) + 1;
    assert Nth(h, c).id == x && !Nth(h, c).isReturn;
  }

  /** The nodes of an operation in `p` are not in the list. */
  lemma LiftedNotLive<V>(h: seq<Entry<V>>, p: seq<nat>, x: nat)
    requires WellFormed(h) && x in p && x < Count(h)
    ensures CallOf(h, x) + 1 !in Live(h, p) && ReturnOf(h, x) + 1 !in Live(h, p)
  {
    var c, r := CallOf(h, x) + 1, ReturnOf(h, x) + 1;
    assert Nth(h, c).id == x && Nth(h, r).id == x;
  }

  lemma {:induction false} AllParkedSame<V>(nodes: seq<Node<V>>, h: seq<Entry<V>>, p: seq<nat>, live: set<nat>,
        n0: seq<Node?<V>>, p0: seq<Node?<V>>, n1: seq<Node?<V>>, p1: seq<Node?<V>>)
    requires WellFormed(h) && |nodes| == |n0| == |p0| == |h| + 1 && Ids(p, Count(h))
    requires live <= Live(h, p)
    requires Same(live, n0, p0, n1, p1)
    requires AllParked(nodes, h, p, n0, p0)
    ensures AllParked(nodes, h, p, n1, p1)
    decreases p
  {
    if p != [] {
      var q, x := p[..|p|-1], p[|p|-1];
      assert Live(h, p) <= Live(h, q);
      AllParkedSame(nodes, h, q, live, n0, p0, n1, p1);
      LiftedNotLive(h, p, x);
    }
  }

  lemma IdsSnoc(p: seq<nat>, x: nat, n: nat)
    ensures Ids(p + [x], n) <==> Ids(p, n) && x < n
  {
    var p' := p + [x];
    assert p'[|p|] == x;
    assert forall k :: 0 <= k < |p| ==> p[k] == p'[k];
  }

  lemma LiftedOk<V>(nodes: seq<Node<V>>, h: seq<Entry<V>>, p: seq<nat>, x: nat, n0: seq<Node?<V>>, p0: seq<Node?<V>>,
        n2: seq<Node?<V>>, p2: seq<Node?<V>>)
    requires Shape(nodes, h) && ListOk(nodes, h, p, n0, p0) && x < Count(h) && x !in p
    requires Same(Live(h, p), n0, p0, n2, p2) && |n2| == |nodes|
    requires var c, r := CallOf(h, x) + 1, ReturnOf(h, x) + 1;
      && Linkage(nodes, Live(h, p) - {c} - {r}, n2, p2)
      && PlacedAt(nodes, Live(h, p), c, n2[c], p2[c])
      && PlacedAt(nodes, Live(h, p) - {c}, r, n2[r], p2[r])
    ensures ListOk(nodes, h, p + [x], n2, p2)
  {
    assert Open(0, p);
    LiveWithout(h, p, x);
    AllParkedSame(nodes, h, p, Live(h, p), n0, p0, n2, p2);
    ParkedSnoc(nodes, h, p, x, n2, p2);
  }

  lemma ParkedSnoc<V>(nodes: seq<Node<V>>, h: seq<Entry<V>>, p: seq<nat>, x: nat, nexts: seq<Node?<V>>,
        prevs: seq<Node?<V>>)
    requires WellFormed(h) && |nodes| == |nexts| == |prevs| == |h| + 1 && Ids(p, Count(h)) && x < Count(h)
    requires AllParked(nodes, h, p, nexts, prevs) && Parked(nodes, h, Live(h, p), x, nexts, prevs)
    ensures Ids(p + [x], Count(h)) && AllParked(nodes, h, p + [x], nexts, prevs)
  {
    IdsSnoc(p, x, Count(h));
    assert (p + [x])[..|p|] == p;
  }

  lemma ParkedLast<V>(nodes: seq<Node<V>>, h: seq<Entry<V>>, p: seq<nat>, x: nat, nexts: seq<Node?<V>>,
        prevs: seq<Node?<V>>)
    requires WellFormed(h) && |nodes| == |nexts| == |prevs| == |h| + 1 && Ids(p + [x], Count(h))
    requires AllParked(nodes, h, p + [x], nexts, prevs)
    ensures Ids(p, Count(h)) && x < Count(h)
    ensures AllParked(nodes, h, p, nexts, prevs) && Parked(nodes, h, Live(h, p), x, nexts, prevs)
  {
    IdsSnoc(p, x, Count(h));
    assert (p + [x])[..|p|] == p;
  }

  lemma UnliftedOk<V>(nodes: seq<Node<V>>, h: seq<Entry<V>>, q: seq<nat>, n0: seq<Node?<V>>, p0: seq<Node?<V>>,
        n2: seq<Node?<V>>, p2: seq<Node?<V>>)
    requires Shape(nodes, h) && Ids(q, Count(h)) && |n0| == |p0| == |nodes|
    requires AllParked(nodes, h, q, n0, p0) && Same(Live(h, q), n0, p0, n2, p2) && Linkage(nodes, Live(h, q), n2, p2)
    ensures ListOk(nodes, h, q, n2, p2)
  {
    AllParkedSame(nodes, h, q, Live(h, q), n0, p0, n2, p2);
  }

  /** Takes the operation whose call node is `entry` out of the list. */
  method Lift<V>(entry: Node<V>, ghost nodes: seq<Node<V>>, ghost h: seq<Entry<V>>, ghost p: seq<nat>, ghost x: nat)
    requires Shape(nodes, h) && ListOk(nodes, h, p, Nexts(nodes), Prevs(nodes))
    requires x < Count(h) && x !in p && entry == nodes[CallOf(h, x) + 1]
    modifies nodes
    ensures ListOk(nodes, h, p + [x], Nexts(nodes), Prevs(nodes))
  {
    ghost var c, r := CallOf(h, x) + 1, ReturnOf(h, x) + 1;
    ghost var n0, p0 := Nexts(nodes), Prevs(nodes);
    ListLinked(nodes, h, p, n0, p0);
    LiveWithout(h, p, x);
    MatchOf(nodes, h, x);
    UnlinkBoth(entry, entry.matching, nodes, Live(h, p), c, r);
    LiftedOk(nodes, h, p, x, n0, p0, Nexts(nodes), Prevs(nodes));
  }

  /** What the nodes of the last lifted operation need to be put back. */
  lemma RestorePlan<V>(nodes: seq<Node<V>>, h: seq<Entry<V>>, q: seq<nat>, x: nat, nexts: seq<Node?<V>>,
        prevs: seq<Node?<V>>)
    requires Shape(nodes, h) && Ids(q, Count(h)) && x < Count(h) && x !in q
    requires |nexts| == |prevs| == |nodes| && ListOk(nodes, h, q + [x], nexts, prevs)
    ensures var live, c, r := Live(h, q), CallOf(h, x) + 1, ReturnOf(h, x) + 1;
      && c in live && r in live
      && Linkage(nodes, live - {c} - {r}, nexts, prevs)
      && PlacedAt(nodes, live - {c}, r, nexts[r], prevs[r])
      && PlacedAt(nodes, live, c, nexts[c], prevs[c])
      && nodes[c].matching == nodes[r]
      && AllParked(nodes, h, q, nexts, prevs)
  {
    assert ListIs(nodes, h, q + [x], nexts, prevs) by { assert Open(0, q + [x]); }
    assert AllParked(nodes, h, q, nexts, prevs) && Parked(nodes, h, Live(h, q), x, nexts, prevs) by {
      ParkedLast(nodes, h, q, x, nexts, prevs);
    }
    LiveWithout(h, q, x);
    MatchOf(nodes, h, x);
  }

  method Restore<V>(entry: Node<V>, ghost nodes: seq<Node<V>>, ghost h: seq<Entry<V>>, ghost q: seq<nat>, ghost x: nat)
    requires Shape(nodes, h) && Ids(q, Count(h)) && x < Count(h) && AllParked(nodes, h, q, Nexts(nodes), Prevs(nodes))
    requires entry == nodes[CallOf(h, x) + 1] && entry.matching == nodes[ReturnOf(h, x) + 1]
    requires var live, c, r := Live(h, q), CallOf(h, x) + 1, ReturnOf(h, x) + 1;
      && c in live && r in live && Linked(nodes, live - {c} - {r})
      && Placed(nodes, live - {c}, r) && Placed(nodes, live, c)
    modifies nodes
    ensures ListOk(nodes, h, q, Nexts(nodes), Prevs(nodes))
  {
    ghost var n0, p0 := Nexts(nodes), Prevs(nodes);
    RelinkBoth(entry, entry.matching, nodes, Live(h, q), CallOf(h, x) + 1, ReturnOf(h, x) + 1);
    UnliftedOk(nodes, h, q, n0, p0, Nexts(nodes), Prevs(nodes));
  }

  /** Puts the operation lifted last, whose call node is `entry`, back where it was. */
  method Unlift<V>(entry: Node<V>, ghost nodes: seq<Node<V>>, ghost h: seq<Entry<V>>, ghost q: seq<nat>, ghost x: nat)
    requires Shape(nodes, h) && Ids(q, Count(h)) && x < Count(h) && x !in q
    requires ListOk(nodes, h, q + [x], Nexts(nodes), Prevs(nodes)) && entry == nodes[CallOf(h, x) + 1]
    modifies nodes
    ensures ListOk(nodes, h, q, Nexts(nodes), Prevs(nodes))
  {
    RestorePlan(nodes, h, q, x, Nexts(nodes), Prevs(nodes));
    Restore(entry, nodes, h, q, x);
  }

  // ----- Building the list -----

  method InsertBefore<V>(n: Node<V>, mark: Node?<V>)
    requires n.next == null && n.prev == null && n != mark
    requires mark != null ==> mark.prev != n && mark.prev != mark
    modifies n, mark, if mark == null then null else mark.prev
    ensures mark == null ==> n.next == null && n.prev == null
    ensures mark != null ==>
      && n.next == mark && n.prev == old(mark.prev)
      && mark.prev == n && mark.next == old(mark.next)
      && (old(mark.prev) != null ==> old(mark.prev).next == n && old(mark.prev).prev == old(mark.prev.prev))
  {
    if mark != null {
      var beforeMark := mark.prev;
      mark.prev := n;
      n.next := mark;
      if beforeMark != null {
        n.prev := beforeMark;
        beforeMark.next := n;
      }
    }
  }

  /** A list of exactly these nodes, in this order. */
  ghost predicate Chain<V>(ns: seq<Node<V>>, first: nat)
    reads ns
  {
    && Numbered(ns, first)
    && (forall i: nat {:trigger ns[i].next} :: i < |ns| ==> ns[i].next == NodeAt(ns, i + 1))
    && (forall i: nat {:trigger ns[i].prev} :: i < |ns| ==> ns[i].prev == NodeAt(ns, i - 1))
  }

  /** Nodes `ns` carry the entries of `h` from `lo` on. */
  ghost predicate Carries<V>(ns: seq<Node<V>>, h: seq<Entry<V>>, lo: nat)
    requires WellFormed(h)
  {
    && lo + |ns| == |h|
    && forall i: nat {:trigger ns[i].value} {:trigger ns[i].id} {:trigger ns[i].matching} :: i < |ns| ==>
         && ns[i].value == Some(h[lo + i].value)
         && ns[i].id == h[lo + i].id
         && ns[i].matching == if h[lo + i].isReturn then null else NodeAt(ns, ReturnOf(h, h[lo + i].id) - lo)
  }

  lemma CarriesCons<V>(n: Node<V>, ns: seq<Node<V>>, h: seq<Entry<V>>, lo: nat)
    requires WellFormed(h) && lo > 0 && Carries(ns, h, lo)
    requires n.value == Some(h[lo - 1].value) && n.id == h[lo - 1].id
    requires n.matching == if h[lo - 1].isReturn then null else NodeAt(ns, ReturnOf(h, h[lo - 1].id) - lo)
    ensures Carries([n] + ns, h, lo - 1)
  {
    var ns' := [n] + ns;
    forall i: nat | i < |ns'|
      ensures ns'[i].value == Some(h[lo - 1 + i].value) && ns'[i].id == h[lo - 1 + i].id
      ensures ns'[i].matching ==
        if h[lo - 1 + i].isReturn then null else NodeAt(ns', ReturnOf(h, h[lo - 1 + i].id) - (lo - 1))
    {
      var e := h[lo - 1 + i];
      if !e.isReturn {
        assert CallOf(h, e.id) == lo - 1 + i;
        assert NodeAt(ns', ReturnOf(h, e.id) - (lo - 1)) == NodeAt(ns, ReturnOf(h, e.id) - lo);
      }
      if i > 0 {
        assert ns'[i] == ns[i-1];
      }
    }
  }

  /** Inserting a new node before the first one of a list. */
  method Prepend<V>(n: Node<V>, root: Node?<V>, ghost ns: seq<Node<V>>)
    requires n.next == null && n.prev == null
    requires Chain(ns, n.number + 1) && root == NodeAt(ns, 0)
    modifies n, root
    ensures Chain([n] + ns, n.number)
  {
    InsertBefore(n, root);
    ghost var ns' := [n] + ns;
    forall i: nat | i < |ns'|
      ensures ns'[i].next == NodeAt(ns', i + 1) && ns'[i].prev == NodeAt(ns', i - 1)
    {
      if i > 0 {
        assert ns'[i] == ns[i-1];
        assert old(ns[i-1].next) == NodeAt(ns, i) && old(ns[i-1].prev) == NodeAt(ns, i - 2);
      }
    }
  }

  /** The return nodes made so far, by id. */
  ghost predicate MatchesOk<V>(matches: map<nat, Node<V>>, h: seq<Entry<V>>, ns: seq<Node<V>>, lo: nat)
    requires WellFormed(h)
  {
    forall id: nat :: id < Count(h) && ReturnOf(h, id) >= lo ==>
      id in matches && matches[id] == NodeAt(ns, ReturnOf(h, id) - lo)
  }

  lemma MatchesCons<V>(matches: map<nat, Node<V>>, h: seq<Entry<V>>, n: Node<V>, ns: seq<Node<V>>, lo: nat)
    requires WellFormed(h) && 0 < lo <= |h| && MatchesOk(matches, h, ns, lo)
    ensures MatchesOk(if h[lo-1].isReturn then matches[h[lo-1].id := n] else matches, h, [n] + ns, lo - 1)
  {
    var matches' := if h[lo-1].isReturn then matches[h[lo-1].id := n] else matches;
    forall id: nat | id < Count(h) && ReturnOf(h, id) >= lo - 1
      ensures id in matches' && matches'[id] == NodeAt([n] + ns, ReturnOf(h, id) - (lo - 1))
    {
      if ReturnOf(h, id) == lo - 1 {
        assert h[lo-1].id == id;
      } else {
        assert NodeAt([n] + ns, ReturnOf(h, id) - (lo - 1)) == NodeAt(ns, ReturnOf(h, id) - lo);
      }
    }
  }

  /** The nodes made so far and the map of their returns; not looked into by default. */
  ghost predicate Built<V>(h: seq<Entry<V>>, matches: map<nat, Node<V>>, ns: seq<Node<V>>, lo: nat) {
    forall k: nat :: Open(k, ns) ==> WellFormed(h) && Carries(ns, h, lo) && MatchesOk(matches, h, ns, lo)
  }

  /** The node of entry `i`, for a list that holds the entries after it. */
  method NewNode<V>(h: seq<Entry<V>>, i: nat, matches: map<nat, Node<V>>, ghost ns: seq<Node<V>>)
    returns (entry: Node<V>, matches': map<nat, Node<V>>)
    requires WellFormed(h) && i < |h| && Built(h, matches, ns, i + 1)
    ensures fresh(entry) && entry.next == null && entry.prev == null && entry.number == i + 1
    ensures Built(h, matches', [entry] + ns, i)
  {
    assert Open(0, ns);
    var elem := h[i];
    if elem.isReturn {
      entry := new Node(Some(elem.value), null, elem.id, i + 1);
      matches' := matches[elem.id := entry];
    } else {
      assert CallOf(h, elem.id) == i;
      entry := new Node(Some(elem.value), matches[elem.id], elem.id, i + 1);
      matches' := matches;
    }
    CarriesCons(entry, ns, h, i + 1);
    MatchesCons(matches, h, entry, ns, i + 1);
  }

  method MakeLinkedEntries<V>(h: seq<Entry<V>>) returns (root: Node?<V>, ghost ns: seq<Node<V>>)
    requires WellFormed(h)
    ensures forall k :: 0 <= k < |ns| ==> fresh(ns[k])
    ensures Chain(ns, 1) && Carries(ns, h, 0)
    ensures root == NodeAt(ns, 0)
  {
    root, ns := null, [];
    var matches: map<nat, Node<V>> := map[];
    for i := |h| downto 0
      invariant forall k :: 0 <= k < |ns| ==> fresh(ns[k])
      invariant Chain(ns, i + 1) && Built(h, matches, ns, i)
      invariant root == NodeAt(ns, 0)
    {
      var entry;
      entry, matches := NewNode(h, i, matches, ns);
      Prepend(entry, root, ns);
      root := entry;
      ns := [entry] + ns;
    }
    assert Open(0, ns);
  }

  method Length<V>(n: Node?<V>, ghost ns: seq<Node<V>>) returns (l: nat)
    requires Chain(ns, 1) && n == NodeAt(ns, 0)
    ensures l == |ns|
  {
    l := 0;
    var m := n;
    while m != null
      invariant l <= |ns| && m == NodeAt(ns, l)
      decreases |ns| - l
    {
      m := m.next;
      l := l + 1;
    }
  }

  lemma AllLive<V>(h: seq<Entry<V>>, i: nat)
    requires i <= |h|
    ensures NextLive(Live(h, []), i, |h| + 1) == i + 1
    ensures PrevLive(Live(h, []), i) == i - 1
  {
    if i < |h| {
      assert Nth(h, i + 1).id !in [];
      assert i + 1 in Live(h, []);
    }
    NextIs(Live(h, []), i, |h| + 1, i + 1);
    if i > 1 {
      assert Nth(h, i - 1).id !in [];
      assert i - 1 in Live(h, []);
    }
    PrevIs(Live(h, []), i, i - 1);
  }

  lemma InitialShape<V>(nodes: seq<Node<V>>, h: seq<Entry<V>>)
    requires WellFormed(h) && nodes != [] && nodes[0].matching == null
    requires Numbered(nodes, 0) && Carries(nodes[1..], h, 0)
    ensures Shape(nodes, h)
  {
    var ns := nodes[1..];
    forall i: nat | 1 <= i <= |h|
      ensures nodes[i].value == Some(Nth(h, i).value) && nodes[i].id == Nth(h, i).id
      ensures nodes[i].matching == if Nth(h, i).isReturn then null else nodes[ReturnOf(h, Nth(h, i).id) + 1]
    {
      assert nodes[i] == ns[i-1] && Nth(h, i) == h[0 + (i - 1)];
    }
  }

  /** A chain is a list of all its nodes. */
  lemma InitialLinkage<V>(nodes: seq<Node<V>>, h: seq<Entry<V>>, nexts: seq<Node?<V>>, prevs: seq<Node?<V>>)
    requires |nodes| == |nexts| == |prevs| == |h| + 1 && Numbered(nodes, 0)
    requires forall i: nat :: i < |nodes| ==> nexts[i] == NodeAt(nodes, i + 1) && prevs[i] == NodeAt(nodes, i - 1)
    ensures Linkage(nodes, Live(h, []), nexts, prevs)
  {
    forall i: nat | i in Live(h, [])
      ensures PlacedAt(nodes, Live(h, []), i, nexts[i], prevs[i])
    {
      AllLive(h, i);
    }
  }

  lemma InitialListOk<V>(nodes: seq<Node<V>>, h: seq<Entry<V>>)
    requires WellFormed(h) && nodes != [] && nodes[0].matching == null
    requires Chain(nodes, 0) && Carries(nodes[1..], h, 0)
    ensures ListOk(nodes, h, [], Nexts(nodes), Prevs(nodes))
  {
    InitialShape(nodes, h);
    InitialLinkage(nodes, h, Nexts(nodes), Prevs(nodes));
  }
}
