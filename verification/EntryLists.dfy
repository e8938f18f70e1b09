/**
 From operations with call and return times to the time-ordered entries that the search
 works on (makeEntries, src/porcupine/checker.go), and from events to entries (renumber and
 convertEntries).  Sorting by time, calls before returns on a tie, loses and adds nothing:
 the entries are linearizable exactly when the operations are.
 */
module EntryLists {
  import opened Sealing
  import opened Histories
  import opened Entries

  // ----- Operations -----

  predicate Less<V>(a: Entry<V>, b: Entry<V>) {
    if a.time != b.time then a.time < b.time else !a.isReturn && b.isReturn
  }

  ghost predicate Sorted<V>(e: seq<Entry<V>>) {
    forall i, j :: 0 <= i < j < |e| ==> !Less(e[j], e[i])
  }

  /** The entries of the operations, in the order of the operations. */
  function RawEntry<V>(ops: seq<Operation<V>>, k: nat): Entry<V>
    requires k < 2 * |ops|
  {
    var op := ops[k / 2];
    if k % 2 == 0 then Entry(false, op.input, k / 2, op.call) else Entry(true, op.output, k / 2, op.ret)
  }

  /** `e` lists the entries of `ops`, entry `perm[k]` in place `k`. */
  ghost predicate Arranges<V>(ops: seq<Operation<V>>, e: seq<Entry<V>>, perm: seq<nat>) {
    && |perm| == |e| == 2 * |ops|
    && Ids(perm, 2 * |ops|) && Distinct(perm)
    && forall k: nat :: k < |e| ==> e[k] == RawEntry(ops, perm[k])
  }

  /** Where raw entry `r` ended up. */
  ghost function Place<V>(ops: seq<Operation<V>>, e: seq<Entry<V>>, perm: seq<nat>, r: nat): (k: nat)
    requires Arranges(ops, e, perm) && r < 2 * |ops|
    ensures k < |e| && perm[k] == r && e[k] == RawEntry(ops, r)
  {
    DistinctBounded(perm, 2 * |ops|);
    assert r in perm;
    var k :| 0 <= k < |perm| && perm[k] == r;
    k
  }

  /** Sorted entries alternate properly: every operation is called, and later returns. */
  lemma SortedIsWellFormed<V>(ops: seq<Operation<V>>, e: seq<Entry<V>>, perm: seq<nat>)
    requires Timely(ops) && Arranges(ops, e, perm) && Sorted(e)
    ensures WellFormed(e) && Count(e) == |ops|
  {
    forall i, j | Twins(e, i, j)
      ensures !e[i].isReturn && e[j].isReturn
    {
      assert e[i] == RawEntry(ops, perm[i]) && e[j] == RawEntry(ops, perm[j]);
      assert perm[i] != perm[j] && perm[i] / 2 == perm[j] / 2;
      assert !Less(e[j], e[i]);
    }
    forall i | 0 <= i < |e|
      ensures e[i].id < Count(e)
    {
      assert e[i] == RawEntry(ops, perm[i]);
    }
    forall id: nat | id < Count(e)
      ensures Paired(e, id)
    {
      var i, j := Place(ops, e, perm, 2 * id), Place(ops, e, perm, 2 * id + 1);
      assert i < j ==> Twins(e, i, j);
      assert j < i ==> Twins(e, j, i);
    }
  }

  /** Calls and returns keep their values, and the order of a return and a call is that of their times. */
  lemma SortedKeepsOrder<V>(ops: seq<Operation<V>>, e: seq<Entry<V>>, perm: seq<nat>, a: nat, b: nat)
    requires Timely(ops) && Arranges(ops, e, perm) && Sorted(e)
    requires a < |ops| && b < |ops|
    ensures WellFormed(e) && Count(e) == |ops|
    ensures OpsOf(e)[a].input == ops[a].input && OpsOf(e)[a].output == ops[a].output
    ensures Precedes(OpsOf(e), a, b) <==> Precedes(ops, a, b)
  {
    SortedIsWellFormed(ops, e, perm);
    var i, r, c := Place(ops, e, perm, 2 * a), Place(ops, e, perm, 2 * a + 1), Place(ops, e, perm, 2 * b);
    assert i == CallOf(e, a) && r == ReturnOf(e, a) && c == CallOf(e, b);
    assert r < c ==> !Less(e[c], e[r]);
    assert c < r ==> !Less(e[r], e[c]);
  }

  lemma {:induction false} SortedRuns<S, V>(m: Model<S, V>, ops: seq<Operation<V>>, e: seq<Entry<V>>, perm: seq<nat>,
        s: S, p: seq<nat>)
    requires Timely(ops) && Arranges(ops, e, perm) && Sorted(e)
    requires Ids(p, |ops|)
    ensures WellFormed(e) && Count(e) == |ops|
    ensures Run(m, OpsOf(e), s, p) == Run(m, ops, s, p)
    decreases p
  {
    SortedIsWellFormed(ops, e, perm);
    if p != [] {
      SortedKeepsOrder(ops, e, perm, p[0], p[0]);
      var r := m.step(s, ops[p[0]].input, ops[p[0]].output);
      SortedRuns(m, ops, e, perm, r.1, p[1..]);
    }
  }

  /** The entries have the same linearizations, full and partial, as the operations. */
  lemma SortedIsFaithful<S(!new), V(!new)>(m: Model<S, V>, ops: seq<Operation<V>>, e: seq<Entry<V>>, perm: seq<nat>)
    requires Timely(ops) && Arranges(ops, e, perm) && Sorted(e)
    ensures WellFormed(e) && Count(e) == |ops|
    ensures forall p :: IsPartialLinearization(m, OpsOf(e), p) <==> IsPartialLinearization(m, ops, p)
    ensures Linearizable(m, OpsOf(e)) <==> Linearizable(m, ops)
  {
    SortedIsWellFormed(ops, e, perm);
    forall p
      ensures IsPartialLinearization(m, OpsOf(e), p) <==> IsPartialLinearization(m, ops, p)
      ensures IsLinearization(m, OpsOf(e), p) <==> IsLinearization(m, ops, p)
    {
      if Ids(p, |ops|) {
        SortedRuns(m, ops, e, perm, m.init, p);
        forall a: nat, b: nat | a < |ops| && b < |ops|
          ensures Precedes(OpsOf(e), a, b) <==> Precedes(ops, a, b)
        {
          SortedKeepsOrder(ops, e, perm, a, b);
        }
      }
      FullIffPartial(m, OpsOf(e), p);
      FullIffPartial(m, ops, p);
    }
  }

  /** Puts one more entry into its place, after the entries that are not greater. */
  method Insert<V>(e: seq<Entry<V>>, x: Entry<V>, ghost perm: seq<nat>, ghost r: nat)
    returns (e': seq<Entry<V>>, ghost perm': seq<nat>)
    requires Sorted(e) && |perm| == |e| && r !in perm && Distinct(perm)
    ensures Sorted(e')
    ensures exists p: nat :: p <= |e| && e' == e[..p] + [x] + e[p..] && perm' == perm[..p] + [r] + perm[p..]
    ensures |perm'| == |e'| == |e| + 1 && Distinct(perm')
  {
    var p := |e|;
    while p > 0 && Less(x, e[p-1])
      invariant 0 <= p <= |e| && forall j :: p <= j < |e| ==> Less(x, e[j])
    {
      p := p - 1;
    }
    e' := e[..p] + [x] + e[p..];
    perm' := perm[..p] + [r] + perm[p..];
    assert forall i :: 0 <= i < p ==> !Less(x, e[i]) by {
      assert forall i :: 0 <= i < p - 1 ==> !Less(e[p-1], e[i]);
    }
    assert forall j :: p <= j < |e| ==> !Less(e[j], x);
  }

  /** The entries of the operations in time order.  Nothing but that is said about ties of the same kind. */
  method MakeEntries<V>(ops: seq<Operation<V>>) returns (e: seq<Entry<V>>, ghost perm: seq<nat>)
    ensures Arranges(ops, e, perm) && Sorted(e)
  {
    var raw := ListEntries(ops);
    e, perm := SortEntries(raw);
    assert forall k: nat :: k < |e| ==> e[k] == RawEntry(ops, perm[k]);
  }

  /** A call and a return for every operation. */
  method ListEntries<V>(ops: seq<Operation<V>>) returns (raw: seq<Entry<V>>)
    ensures |raw| == 2 * |ops| && forall k: nat :: k < |raw| ==> raw[k] == RawEntry(ops, k)
  {
    raw := [];
    for id := 0 to |ops|
      invariant |raw| == 2 * id && forall k: nat :: k < |raw| ==> raw[k] == RawEntry(ops, k)
    {
      raw := raw + [Entry(false, ops[id].input, id, ops[id].call)];
      raw := raw + [Entry(true, ops[id].output, id, ops[id].ret)];
    }
  }

  ghost predicate Permutes<V>(raw: seq<Entry<V>>, e: seq<Entry<V>>, perm: seq<nat>) {
    |e| == |perm| && Ids(perm, |raw|) && Distinct(perm) && forall i: nat :: i < |e| ==> e[i] == raw[perm[i]]
  }

  lemma PermutesInsert<V>(raw: seq<Entry<V>>, e: seq<Entry<V>>, perm: seq<nat>, k: nat, p: nat)
    requires Permutes(raw, e, perm) && k < |raw| && k !in perm && p <= |e|
    ensures Permutes(raw, e[..p] + [raw[k]] + e[p..], perm[..p] + [k] + perm[p..])
    ensures forall x :: x in perm[..p] + [k] + perm[p..] ==> x in perm || x == k
  {
    assert perm == perm[..p] + perm[p..];
  }

  method SortEntries<V>(raw: seq<Entry<V>>) returns (e: seq<Entry<V>>, ghost perm: seq<nat>)
    ensures Sorted(e) && Permutes(raw, e, perm) && |e| == |raw|
  {
    e, perm := [], [];
    for k := 0 to |raw|
      invariant Sorted(e) && |e| == k && Permutes(raw, e, perm) && forall x :: x in perm ==> x < k
    {
      ghost var e0, perm0 := e, perm;
      e, perm := Insert(e, raw[k], perm, k);
      ghost var p: nat :| p <= |e0| && e == e0[..p] + [raw[k]] + e0[p..] && perm == perm0[..p] + [k] + perm0[p..];
      PermutesInsert(raw, e0, perm0, k, p);
    }
  }

  // ----- Events -----

  /** A call or return as it was observed, under an id of the caller's choosing. */
  datatype Event<+V> = Event(isReturn: bool, value: V, id: int)

  ghost predicate EventTwins<V>(events: seq<Event<V>>, i: int, j: int) {
    0 <= i < j < |events| && events[i].id == events[j].id
  }

  ghost predicate HasTwin<V>(events: seq<Event<V>>, i: int) {
    exists j :: EventTwins(events, i, j) || EventTwins(events, j, i)
  }

  /** Every event is a call with a later return, or a return with an earlier call, of its own. */
  ghost predicate EventsPaired<V>(events: seq<Event<V>>) {
    && (forall i, j :: EventTwins(events, i, j) ==> !events[i].isReturn && events[j].isReturn)
    && (forall i :: 0 <= i < |events| ==> HasTwin(events, i))
  }

  ghost predicate Used<V>(out: seq<Event<V>>, k: int) {
    exists i :: 0 <= i < |out| && out[i].id == k
  }

  /** `out` is `events` with other ids: equal where they were equal, and all of 0, 1, ... , d - 1. */
  ghost predicate Renumbers<V>(events: seq<Event<V>>, out: seq<Event<V>>, d: nat) {
    && |out| == |events|
    && (forall i :: 0 <= i < |out| ==>
         out[i].isReturn == events[i].isReturn && out[i].value == events[i].value && 0 <= out[i].id < d)
    && (forall i, j :: EventTwins(out, i, j) <==> EventTwins(events, i, j))
    && (forall k :: 0 <= k < d ==> Used(out, k))
  }

  /** One more event takes the id of its twins, or the next free one if it has none. */
  lemma RenumbersSnoc<V>(events: seq<Event<V>>, out: seq<Event<V>>, d: nat, v: Event<V>, id: nat)
    requires Renumbers(events, out, d)
    requires id <= d && forall i :: 0 <= i < |events| ==> (out[i].id == id <==> events[i].id == v.id)
    ensures Renumbers(events + [v], out + [v.(id := id)], if id == d then d + 1 else d)
  {
    var events', out' := events + [v], out + [v.(id := id)];
    var d' := if id == d then d + 1 else d;
    forall i, j
      ensures EventTwins(out', i, j) <==> EventTwins(events', i, j)
    {
      if 0 <= i < j < |events| {
        assert EventTwins(out, i, j) <==> EventTwins(events, i, j);
      }
    }
    forall k | 0 <= k < d'
      ensures Used(out', k)
    {
      if k < d {
        assert Used(out, k);
        var i :| 0 <= i < |out| && out[i].id == k;
        assert out'[i].id == k;
      } else {
        assert out'[|out|].id == k;
      }
    }
  }

  /** The number has been used before, or is larger than all that have. */
  ghost predicate IsNextId<V>(e: seq<Event<V>>, id: int) {
    Used(e, id) || forall j :: 0 <= j < |e| ==> e[j].id < id
  }

  /** Numbers are given out in the order in which they are first needed. */
  ghost predicate InTurn<V>(e: seq<Event<V>>) {
    forall k: nat :: Open(k, e) ==> forall i :: 0 <= i < |e| ==> IsNextId(e[..i], e[i].id)
  }

  lemma InTurnSnoc<V>(events: seq<Event<V>>, e: seq<Event<V>>, d: nat, v: Event<V>)
    requires Renumbers(events, e, d) && InTurn(e) && 0 <= v.id <= d
    ensures InTurn(e + [v])
  {
    assert Open(0, e) && IsNextId(e, v.id);
    var e' := e + [v];
    forall i | 0 <= i < |e'|
      ensures IsNextId(e'[..i], e'[i].id)
    {
      if i < |e| {
        assert e'[..i] == e[..i] && IsNextId(e[..i], e[i].id);
      } else {
        assert e'[..i] == e;
      }
    }
  }

  method Renumber<V>(events: seq<Event<V>>) returns (e: seq<Event<V>>, ghost d: nat)
    ensures Renumbers(events, e, d) && InTurn(e)
    ensures |e| == |events| && forall i, j :: EventTwins(e, i, j) <==> EventTwins(events, i, j)
  {
    e := [];
    var m: map<int, nat> := map[];
    var id: nat := 0;
    for i := 0 to |events|
      invariant |e| == i && Renumbers(events[..i], e, id)
      invariant forall k :: k in m ==> m[k] < id
      invariant InTurn(e)
      invariant forall k, l :: k in m && l in m && m[k] == m[l] ==> k == l
      invariant forall j :: 0 <= j < i ==> events[j].id in m && m[events[j].id] == e[j].id
    {
      var v := events[i];
      var r := if v.id in m then m[v.id] else id;
      RenumbersSnoc(events[..i], e, id, v, r);
      InTurnSnoc(events[..i], e, id, v.(id := r));
      assert events[..i+1] == events[..i] + [v];
      e := e + [v.(id := r)];
      if v.id !in m {
        m := m[v.id := id];
        id := id + 1;
      }
    }
    d := id;
    assert events[..|events|] == events;
  }

  /** The position of an event plays the part of its time. */
  ghost predicate IsConverted<V>(events: seq<Event<V>>, e: seq<Entry<V>>) {
    && |e| == |events| && (forall i :: 0 <= i < |e| ==> events[i].id >= 0)
    && forall i :: 0 <= i < |e| ==> e[i] == Entry(events[i].isReturn, events[i].value, events[i].id, i)
  }

  method ConvertEntries<V>(events: seq<Event<V>>) returns (e: seq<Entry<V>>)
    requires forall i :: 0 <= i < |events| ==> events[i].id >= 0
    ensures IsConverted(events, e)
  {
    e := [];
    for i := 0 to |events|
      invariant |e| == i
      invariant forall j :: 0 <= j < i ==> e[j] == Entry(events[j].isReturn, events[j].value, events[j].id, j)
    {
      e := e + [Entry(events[i].isReturn, events[i].value, events[i].id, i)];
    }
  }

  /** Paired events make a well-formed history: numbering leaves exactly two entries for each id. */
  lemma EventsAreWellFormed<V>(events: seq<Event<V>>, out: seq<Event<V>>, d: nat, e: seq<Entry<V>>)
    requires EventsPaired(events) && Renumbers(events, out, d)
    requires IsConverted(out, e)
    ensures WellFormed(e) && Count(e) == d
  {
    forall i, j | Twins(e, i, j)
      ensures !e[i].isReturn && e[j].isReturn
    {
      assert EventTwins(out, i, j);
      assert EventTwins(events, i, j);
    }
    forall k: nat | k < d
      ensures Paired(e, k)
    {
      assert Used(out, k);
      var i :| 0 <= i < |out| && out[i].id == k;
      assert HasTwin(events, i);
      var j :| EventTwins(events, i, j) || EventTwins(events, j, i);
      if i < j {
        assert EventTwins(out, i, j);
        assert Twins(e, i, j) && e[i].id == k;
      } else {
        assert EventTwins(out, j, i);
        assert Twins(e, j, i) && e[j].id == k;
      }
    }
    CountPairs(e, d);
  }

  lemma CountPairs<V>(e: seq<Entry<V>>, d: nat)
    requires forall i :: 0 <= i < |e| ==> e[i].id < d
    requires forall i, j :: Twins(e, i, j) ==> !e[i].isReturn && e[j].isReturn
    requires forall k: nat :: k < d ==> Paired(e, k)
    ensures |e| == 2 * d
  {
    var q := seq(|e|, i requires 0 <= i < |e| => Slot(e[i]));
    SlotsDistinct(e, q);
    forall r: nat | r < 2 * d
      ensures r in q
    {
      assert Paired(e, r / 2);
      SlotTaken(e, q, d, r);
    }
    assert forall i :: 0 <= i < |q| ==> q[i] < 2 * d;
    Counted(q, 2 * d);
  }

  lemma Counted(q: seq<nat>, n: nat)
    requires Distinct(q) && (forall i :: 0 <= i < |q| ==> q[i] < n) && (forall r: nat :: r < n ==> r in q)
    ensures |q| == n
  {
    ElemsSize(q);
    assert Elems(q) == Below(n);
  }

  lemma SlotsDistinct<V>(e: seq<Entry<V>>, q: seq<nat>)
    requires |q| == |e| && forall i :: 0 <= i < |e| ==> q[i] == Slot(e[i])
    requires forall i, j :: Twins(e, i, j) ==> !e[i].isReturn && e[j].isReturn
    ensures Distinct(q)
  {
    forall i, j | 0 <= i < j < |q|
      ensures q[i] != q[j]
    {
      assert e[i].id == e[j].id ==> Twins(e, i, j);
    }
  }

  /** One number for each call and each return. */
  function Slot<V>(e: Entry<V>): nat {
    2 * e.id + if e.isReturn then 1 else 0
  }

  lemma SlotTaken<V>(e: seq<Entry<V>>, q: seq<nat>, d: nat, r: nat)
    requires |q| == |e| && forall i :: 0 <= i < |e| ==> q[i] == Slot(e[i])
    requires forall i, j :: Twins(e, i, j) ==> !e[i].isReturn && e[j].isReturn
    requires r < 2 * d && Paired(e, r / 2)
    ensures r in q
  {
    var i, j :| Twins(e, i, j) && e[i].id == r / 2;
    assert q[i] == 2 * (r / 2) && q[j] == 2 * (r / 2) + 1;
  }
}
