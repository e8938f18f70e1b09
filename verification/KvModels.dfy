/**
 The key/value model that the tests check recorded histories against (src/models/kv.go).  The
 model speaks of one key only; splitting a history by key is justified by a locality theorem:
 a history is linearizable against a whole map of strings exactly when, for every key, the
 operations on that key are linearizable against a single string.
 */
module KvModels {
  import opened Histories
  import opened Parallel

  /** `op` is 0 for get, 1 for put, anything else for append. */
  datatype Kv = KvInput(op: nat, key: string, value: string) | KvOutput(value: string)

  function KvStep(state: string, input: Kv, output: Kv): (bool, string) {
    if !input.KvInput? then (false, state)
    else if input.op == 0 then (output.value == state, state)
    else if input.op == 1 then (true, input.value)
    else (true, state + input.value)
  }

  function KvModel(): (m: Model<string, Kv>)
    ensures Lawful(m)
  {
    Model("", KvStep, (s: string, t: string) => s == t)
  }

  type Store = map<string, string>

  function Read(s: Store, key: string): string {
    if key in s then s[key] else ""
  }

  /** The service as its clients see it. */
  function MapStep(s: Store, input: Kv, output: Kv): (bool, Store) {
    if !input.KvInput? then (false, s)
    else if input.op == 0 then (output.value == Read(s, input.key), s)
    else if input.op == 1 then (true, s[input.key := input.value])
    else (true, s[input.key := Read(s, input.key) + input.value])
  }

  function MapModel(): (m: Model<Store, Kv>)
    ensures Lawful(m)
  {
    Model(map[], MapStep, (s: Store, t: Store) => s == t)
  }

  /** A step of the map is a step of the key it is about, and leaves the others alone. */
  lemma StepIsLocal(s: Store, i: Kv, o: Kv, key: string)
    requires i.KvInput?
    ensures MapStep(s, i, o).0 == KvStep(Read(s, i.key), i, o).0
    ensures Read(MapStep(s, i, o).1, i.key) == KvStep(Read(s, i.key), i, o).1
    ensures key != i.key ==> Read(MapStep(s, i, o).1, key) == Read(s, key)
  {
  }

  ghost predicate Typed(ops: seq<Operation<Kv>>) {
    forall i :: 0 <= i < |ops| ==> ops[i].input.KvInput?
  }

  function KeyOf(ops: seq<Operation<Kv>>, x: nat): string
    requires Typed(ops) && x < |ops|
  {
    ops[x].input.key
  }

  /** The model that is being checked does not matter to the order in time. */
  ghost predicate IsKeyOrder(ops: seq<Operation<Kv>>, key: string, s: string, q: seq<nat>)
    requires Typed(ops)
  {
    && Ids(q, |ops|) && Distinct(q)
    && (forall x :: x in q ==> KeyOf(ops, x) == key)
    && RespectsTime(ops, q)
    && Run(KvModel(), ops, s, q).Some?
  }

  lemma First<V>(ops: seq<Operation<V>>, x: nat, rest: seq<nat>)
    requires x < |ops| && Ids(rest, |ops|) && Distinct(rest) && RespectsTime(ops, rest)
    requires forall y :: y in rest ==> y != x && !Precedes(ops, y, x)
    ensures Ids([x] + rest, |ops|) && Distinct([x] + rest) && RespectsTime(ops, [x] + rest)
  {
    var p := [x] + rest;
    assert forall j :: 0 < j < |p| ==> p[j] in rest;
  }

  // ----- From the whole history to one key -----

  function OnKey(ops: seq<Operation<Kv>>, p: seq<nat>, key: string): (q: seq<nat>)
    requires Typed(ops) && Ids(p, |ops|)
    ensures Ids(q, |ops|)
    ensures forall x :: x in q <==> x in p && x < |ops| && KeyOf(ops, x) == key
  {
    if p == [] then []
    else
      var rest := OnKey(ops, p[1..], key);
      if KeyOf(ops, p[0]) == key then [p[0]] + rest else rest
  }

  lemma {:induction false} OnKeyIsKeyOrder(ops: seq<Operation<Kv>>, p: seq<nat>, key: string, s: Store)
    requires Typed(ops) && Ids(p, |ops|) && Distinct(p) && RespectsTime(ops, p)
    requires Run(MapModel(), ops, s, p).Some?
    ensures IsKeyOrder(ops, key, Read(s, key), OnKey(ops, p, key))
    decreases p
  {
    if p != [] {
      var o := ops[p[0]];
      StepIsLocal(s, o.input, o.output, key);
      OnKeyIsKeyOrder(ops, p[1..], key, MapStep(s, o.input, o.output).1);
      var rest := OnKey(ops, p[1..], key);
      if KeyOf(ops, p[0]) == key {
        forall x: nat | x in rest
          ensures x != p[0] && !Precedes(ops, x, p[0])
        {
          assert x in p[1..];
          var j :| 0 <= j < |p[1..]| && p[1..][j] == x;
          assert p[j+1] == x;
        }
        First(ops, p[0], rest);
        assert ([p[0]] + rest)[1..] == rest;
      }
    }
  }

  // ----- From the keys to the whole history -----

  /** What is left to do: for every key, an order of the operations in `left` on that key. */
  ghost predicate Orders(ops: seq<Operation<Kv>>, s: Store, left: set<nat>, orders: map<string, seq<nat>>)
    requires Typed(ops)
  {
    && (forall k :: k in orders ==> IsKeyOrder(ops, k, Read(s, k), orders[k]))
    && (forall x :: x in left ==> x < |ops| && KeyOf(ops, x) in orders && x in orders[KeyOf(ops, x)])
    && (forall k, x :: k in orders && x in orders[k] ==> x in left)
  }

  lemma {:induction false} EarliestReturn(ops: seq<Operation<Kv>>, left: set<nat>) returns (z: nat)
    requires left != {} && forall x :: x in left ==> x < |ops|
    ensures z in left && forall x :: x in left ==> ops[z].ret <= ops[x].ret
    decreases left
  {
    z :| z in left;
    if left != {z} {
      var y := EarliestReturn(ops, left - {z});
      if ops[y].ret < ops[z].ret {
        z := y;
      }
    }
  }

  /**
   The first operation, in its key's order, of the key that owns the earliest return: nothing
   that is left had to precede it.
   */
  lemma HeadIsFree(ops: seq<Operation<Kv>>, s: Store, left: set<nat>, orders: map<string, seq<nat>>)
    returns (key: string)
    requires Typed(ops) && Timely(ops) && Orders(ops, s, left, orders) && left != {}
    ensures key in orders && orders[key] != [] && orders[key][0] in left
    ensures forall y :: y in left ==> !Precedes(ops, y, orders[key][0])
  {
    var z := EarliestReturn(ops, left);
    key := KeyOf(ops, z);
    var q := orders[key];
    var i :| 0 <= i < |q| && q[i] == z;
    assert i > 0 ==> !Precedes(ops, q[i], q[0]);
  }

  lemma HeadDone(ops: seq<Operation<Kv>>, s: Store, left: set<nat>, orders: map<string, seq<nat>>, key: string)
    requires Typed(ops) && Orders(ops, s, left, orders)
    requires key in orders && orders[key] != []
    ensures orders[key][0] < |ops|
    ensures var x := orders[key][0];
      var r := MapStep(s, ops[x].input, ops[x].output);
      r.0 && Orders(ops, r.1, left - {x}, orders[key := orders[key][1..]])
  {
    var q := orders[key];
    var x := q[0];
    assert x in q;
    var o := ops[x];
    var r := MapStep(s, o.input, o.output);
    var orders' := orders[key := q[1..]];
    StepIsLocal(s, o.input, o.output, key);
    forall k | k in orders'
      ensures IsKeyOrder(ops, k, Read(r.1, k), orders'[k])
    {
      StepIsLocal(s, o.input, o.output, k);
      assert IsKeyOrder(ops, k, Read(s, k), orders[k]);
    }
    HeadGone(q);
    assert forall k, y :: k in orders && y in orders[k] ==> y in left && y < |ops| && KeyOf(ops, y) == k by {
      assert forall k :: k in orders ==> IsKeyOrder(ops, k, Read(s, k), orders[k]);
    }
  }

  lemma FirstOfMerge(ops: seq<Operation<Kv>>, s: Store, left: set<nat>, x: nat, rest: seq<nat>)
    requires x in left && x < |ops| && forall y :: y in left ==> y < |ops| && !Precedes(ops, y, x)
    requires Ids(rest, |ops|) && Distinct(rest) && Elems(rest) == left - {x} && RespectsTime(ops, rest)
    requires var r := MapStep(s, ops[x].input, ops[x].output); r.0 && Run(MapModel(), ops, r.1, rest).Some?
    ensures Ids([x] + rest, |ops|) && Distinct([x] + rest) && Elems([x] + rest) == left && RespectsTime(ops, [x] + rest)
    ensures Run(MapModel(), ops, s, [x] + rest).Some?
  {
    assert ([x] + rest)[1..] == rest;
    assert forall y: nat :: y in rest ==> y in Elems(rest);
    First(ops, x, rest);
    assert Elems([x] + rest) == {x} + Elems(rest);
  }

  lemma {:induction false} Merge(ops: seq<Operation<Kv>>, s: Store, left: set<nat>, orders: map<string, seq<nat>>)
    returns (p: seq<nat>)
    requires Typed(ops) && Timely(ops) && Orders(ops, s, left, orders)
    ensures Ids(p, |ops|) && Distinct(p) && Elems(p) == left && RespectsTime(ops, p)
    ensures Run(MapModel(), ops, s, p).Some?
    decreases left
  {
    if left == {} {
      p := [];
    } else {
      var key := HeadIsFree(ops, s, left, orders);
      HeadDone(ops, s, left, orders, key);
      var x := orders[key][0];
      var rest := Merge(ops, MapStep(s, ops[x].input, ops[x].output).1, left - {x}, orders[key := orders[key][1..]]);
      FirstOfMerge(ops, s, left, x, rest);
      p := [x] + rest;
    }
  }

  // ----- Histories cut out of histories -----

  ghost predicate CutOut<V>(ops: seq<Operation<V>>, idx: seq<nat>, sub: seq<Operation<V>>) {
    && Ids(idx, |ops|) && Distinct(idx) && |sub| == |idx|
    && forall j :: 0 <= j < |idx| ==> sub[j] == ops[idx[j]]
  }

  function Renamed(idx: seq<nat>, p: seq<nat>): (q: seq<nat>)
    requires Ids(p, |idx|)
    ensures |q| == |p| && forall j :: 0 <= j < |p| ==> q[j] == idx[p[j]]
  {
    seq(|p|, j requires 0 <= j < |p| => idx[p[j]])
  }

  lemma {:induction false} RunRenamed<S, V>(m: Model<S, V>, ops: seq<Operation<V>>, idx: seq<nat>,
        sub: seq<Operation<V>>, s: S, p: seq<nat>)
    requires CutOut(ops, idx, sub) && Ids(p, |idx|)
    ensures Run(m, ops, s, Renamed(idx, p)) == Run(m, sub, s, p)
    decreases p
  {
    if p != [] {
      assert Renamed(idx, p)[1..] == Renamed(idx, p[1..]);
      RunRenamed(m, ops, idx, sub, m.step(s, sub[p[0]].input, sub[p[0]].output).1, p[1..]);
    }
  }

  ghost predicate Increasing(idx: seq<nat>) {
    forall i, j :: 0 <= i < j < |idx| ==> idx[i] < idx[j]
  }

  /** Among the first `n` operations, `idx` lists those on `key`. */
  ghost predicate Selects(ops: seq<Operation<Kv>>, n: nat, idx: seq<nat>, key: string)
    requires Typed(ops) && n <= |ops|
  {
    && Ids(idx, n)
    && forall x: nat :: x < n ==> (x in idx <==> KeyOf(ops, x) == key)
  }

  lemma RenamedOrder<V>(ops: seq<Operation<V>>, idx: seq<nat>, sub: seq<Operation<V>>, p: seq<nat>)
    requires CutOut(ops, idx, sub) && Ids(p, |idx|)
    ensures Ids(Renamed(idx, p), |ops|)
    ensures Distinct(p) <==> Distinct(Renamed(idx, p))
    ensures RespectsTime(sub, p) <==> RespectsTime(ops, Renamed(idx, p))
  {
    var q := Renamed(idx, p);
    forall i, j | 0 <= i < j < |p|
      ensures p[i] == p[j] <==> q[i] == q[j]
      ensures Precedes(sub, p[j], p[i]) <==> Precedes(ops, q[j], q[i])
    {
    }
  }

  lemma RenamedAll(idx: seq<nat>, p: seq<nat>)
    requires Ids(p, |idx|) && Distinct(p) && |p| == |idx|
    ensures forall x :: x in idx <==> x in Renamed(idx, p)
  {
    var q := Renamed(idx, p);
    DistinctBounded(p, |idx|);
    forall x | x in idx
      ensures x in q
    {
      var i: nat :| i < |idx| && idx[i] == x;
      assert i in p;
      var j :| 0 <= j < |p| && p[j] == i;
      assert q[j] == x;
    }
    assert forall j :: 0 <= j < |q| ==> q[j] in idx;
  }

  lemma KeyOrderFromPart(ops: seq<Operation<Kv>>, idx: seq<nat>, sub: seq<Operation<Kv>>, key: string)
    returns (q: seq<nat>)
    requires Typed(ops) && CutOut(ops, idx, sub) && Selects(ops, |ops|, idx, key)
    requires Linearizable(KvModel(), sub)
    ensures IsKeyOrder(ops, key, "", q) && forall x :: x in idx ==> x in q
  {
    var p :| IsLinearization(KvModel(), sub, p);
    q := Renamed(idx, p);
    RunRenamed(KvModel(), ops, idx, sub, "", p);
    RenamedOrder(ops, idx, sub, p);
    RenamedAll(idx, p);
  }

  lemma {:induction false} UnRename(idx: seq<nat>, q: seq<nat>) returns (p: seq<nat>)
    requires forall x :: x in q ==> x in idx
    ensures Ids(p, |idx|) && Renamed(idx, p) == q
  {
    if q == [] {
      p := [];
    } else {
      var rest := UnRename(idx, q[1..]);
      assert q[0] in idx;
      var i: nat :| i < |idx| && idx[i] == q[0];
      p := [i] + rest;
    }
  }

  lemma PartFromKeyOrder(ops: seq<Operation<Kv>>, idx: seq<nat>, sub: seq<Operation<Kv>>, key: string, q: seq<nat>)
    requires Typed(ops) && CutOut(ops, idx, sub) && Selects(ops, |ops|, idx, key)
    requires IsKeyOrder(ops, key, "", q) && forall x :: x in idx ==> x in q
    ensures Linearizable(KvModel(), sub)
  {
    var p := UnRename(idx, q);
    RunRenamed(KvModel(), ops, idx, sub, "", p);
    RenamedOrder(ops, idx, sub, p);
    assert Elems(q) == Elems(idx);
    ElemsSize(q);
    ElemsSize(idx);
    assert IsLinearization(KvModel(), sub, p);
  }

  // ----- Locality -----

  /** `parts[i]` holds the operations on `keys[i]`, in the order of the history. */
  ghost predicate IsPartition(ops: seq<Operation<Kv>>, keys: seq<string>, idx: seq<seq<nat>>,
        parts: seq<seq<Operation<Kv>>>)
    requires Typed(ops)
  {
    && |keys| == |idx| == |parts| && Distinct(keys)
    && (forall x: nat :: x < |ops| ==> KeyOf(ops, x) in keys)
    && (forall i :: 0 <= i < |keys| ==>
         Increasing(idx[i]) && CutOut(ops, idx[i], parts[i]) && Selects(ops, |ops|, idx[i], keys[i]))
  }

  lemma WholeThenParts(ops: seq<Operation<Kv>>, keys: seq<string>, idx: seq<seq<nat>>, parts: seq<seq<Operation<Kv>>>,
        i: nat)
    requires Typed(ops) && IsPartition(ops, keys, idx, parts) && i < |parts|
    requires Linearizable(MapModel(), ops)
    ensures Linearizable(KvModel(), parts[i])
  {
    var p :| IsLinearization(MapModel(), ops, p);
    DistinctBounded(p, |ops|);
    OnKeyIsKeyOrder(ops, p, keys[i], map[]);
    PartFromKeyOrder(ops, idx[i], parts[i], keys[i], OnKey(ops, p, keys[i]));
  }

  lemma {:induction false} AllOrders(ops: seq<Operation<Kv>>, keys: seq<string>, idx: seq<seq<nat>>,
        parts: seq<seq<Operation<Kv>>>, n: nat)
      returns (orders: map<string, seq<nat>>)
    requires Typed(ops) && IsPartition(ops, keys, idx, parts) && n <= |keys|
    requires forall i :: 0 <= i < |parts| ==> Linearizable(KvModel(), parts[i])
    ensures forall k :: k in orders <==> k in keys[..n]
    ensures forall k :: k in orders ==> IsKeyOrder(ops, k, "", orders[k])
    ensures forall x: nat :: x < |ops| && KeyOf(ops, x) in orders ==> x in orders[KeyOf(ops, x)]
    decreases n
  {
    if n == 0 {
      orders := map[];
    } else {
      orders := AllOrders(ops, keys, idx, parts, n - 1);
      var q := KeyOrderFromPart(ops, idx[n-1], parts[n-1], keys[n-1]);
      orders := orders[keys[n-1] := q];
      assert keys[..n] == keys[..n-1] + [keys[n-1]];
    }
  }

  lemma PartsThenWhole(ops: seq<Operation<Kv>>, keys: seq<string>, idx: seq<seq<nat>>, parts: seq<seq<Operation<Kv>>>)
    requires Typed(ops) && Timely(ops) && IsPartition(ops, keys, idx, parts)
    requires forall i :: 0 <= i < |parts| ==> Linearizable(KvModel(), parts[i])
    ensures Linearizable(MapModel(), ops)
  {
    var orders := AllOrders(ops, keys, idx, parts, |keys|);
    assert keys[..|keys|] == keys;
    var p := Merge(ops, map[], Below(|ops|), orders);
    ElemsSize(p);
    assert IsLinearization(MapModel(), ops, p);
  }

  /** A history is linearizable if and only if each of its parts is. */
  lemma Locality(ops: seq<Operation<Kv>>, keys: seq<string>, idx: seq<seq<nat>>, parts: seq<seq<Operation<Kv>>>)
    requires Typed(ops) && Timely(ops) && IsPartition(ops, keys, idx, parts)
    ensures Linearizable(MapModel(), ops) <==> forall i :: 0 <= i < |parts| ==> Linearizable(KvModel(), parts[i])
  {
    if Linearizable(MapModel(), ops) {
      forall i: nat | i < |parts|
        ensures Linearizable(KvModel(), parts[i])
      {
        WholeThenParts(ops, keys, idx, parts, i);
      }
    } else if forall i :: 0 <= i < |parts| ==> Linearizable(KvModel(), parts[i]) {
      PartsThenWhole(ops, keys, idx, parts);
    }
  }

  // ----- Partition -----

  /** The order of sort.Strings. */
  predicate Before(a: string, b: string) {
    b != [] && (a == [] || a[0] < b[0] || (a[0] == b[0] && Before(a[1..], b[1..])))
  }

  lemma BeforeOneWay(a: string, b: string)
    requires Before(a, b)
    ensures !Before(b, a)
  {
  }

  ghost predicate InOrder(keys: seq<string>) {
    forall i :: 0 < i < |keys| ==> !Before(keys[i], keys[i-1])
  }

  method SortedKeys(keys: set<string>) returns (r: seq<string>)
    ensures Distinct(r) && Elems(r) == keys && InOrder(r)
  {
    r := [];
    var todo := keys;
    while todo != {}
      invariant Distinct(r) && InOrder(r) && Elems(r) !! todo && Elems(r) + todo == keys
      decreases |todo|
    {
      var k :| k in todo;
      todo := todo - {k};
      assert k !in r by {
        assert k !in Elems(r);
      }
      ghost var r0 := r;
      r := InsertKey(r, k);
      assert Elems(r) == Elems(r0) + {k};
    }
  }

  method InsertKey(keys: seq<string>, k: string) returns (r: seq<string>)
    requires InOrder(keys) && Distinct(keys) && k !in keys
    ensures InOrder(r) && Distinct(r) && forall x :: x in r <==> x in keys || x == k
  {
    var p := |keys|;
    while p > 0 && Before(k, keys[p-1])
      invariant 0 <= p <= |keys| && (p < |keys| ==> Before(k, keys[p]))
    {
      p := p - 1;
    }
    if p < |keys| {
      BeforeOneWay(k, keys[p]);
    }
    r := keys[..p] + [k] + keys[p..];
    Inserted(keys, k, p);
  }

  lemma Inserted<T>(s: seq<T>, x: T, p: nat)
    requires p <= |s| && Distinct(s) && x !in s
    ensures Distinct(s[..p] + [x] + s[p..])
    ensures forall y :: y in s[..p] + [x] + s[p..] <==> y in s || y == x
  {
    assert s == s[..p] + s[p..];
  }

  ghost function KeySet(ops: seq<Operation<Kv>>): set<string>
    requires Typed(ops)
  {
    set x: nat | x < |ops| :: KeyOf(ops, x)
  }

  ghost predicate BucketOk(ops: seq<Operation<Kv>>, n: nat, key: string, bucket: seq<Operation<Kv>>, idx: seq<nat>)
    requires Typed(ops) && n <= |ops|
  {
    Increasing(idx) && CutOut(ops, idx, bucket) && Selects(ops, n, idx, key)
  }

  /** The buckets after the first `n` operations, and where their contents came from. */
  ghost predicate Buckets(ops: seq<Operation<Kv>>, n: nat, m: map<string, seq<Operation<Kv>>>,
        idx: map<string, seq<nat>>)
    requires Typed(ops) && n <= |ops|
  {
    && m.Keys == idx.Keys
    && (forall x: nat :: x < n ==> KeyOf(ops, x) in idx)
    && (forall k :: k in idx ==> idx[k] != [] && BucketOk(ops, n, k, m[k], idx[k]))
  }

  lemma BucketsStep(ops: seq<Operation<Kv>>, n: nat, m: map<string, seq<Operation<Kv>>>, idx: map<string, seq<nat>>)
    requires Typed(ops) && n < |ops| && Buckets(ops, n, m, idx)
    ensures var key := KeyOf(ops, n);
      var m1, idx1 := if key in m then m[key] else [], if key in idx then idx[key] else [];
      Buckets(ops, n + 1, m[key := m1 + [ops[n]]], idx[key := idx1 + [n]])
  {
    var key := KeyOf(ops, n);
    var m1, idx1 := if key in m then m[key] else [], if key in idx then idx[key] else [];
    assert BucketOk(ops, n, key, m1, idx1);
    BucketNext(ops, n, key, m1, idx1);
    BucketsUpdate(ops, n, m, idx, m1 + [ops[n]], idx1 + [n]);
  }

  lemma BucketsUpdate(ops: seq<Operation<Kv>>, n: nat, m: map<string, seq<Operation<Kv>>>, idx: map<string, seq<nat>>,
        bucket: seq<Operation<Kv>>, list: seq<nat>)
    requires Typed(ops) && n < |ops| && Buckets(ops, n, m, idx) && list != [] &&
      BucketOk(ops, n + 1, KeyOf(ops, n), bucket, list)
    ensures Buckets(ops, n + 1, m[KeyOf(ops, n) := bucket], idx[KeyOf(ops, n) := list])
  {
    forall k | k in idx && k != KeyOf(ops, n)
      ensures BucketOk(ops, n + 1, k, m[k], idx[k])
    {
      BucketSkip(ops, n, k, m[k], idx[k]);
    }
  }

  /** One more operation on the key. */
  lemma BucketNext(ops: seq<Operation<Kv>>, n: nat, key: string, bucket: seq<Operation<Kv>>, idx: seq<nat>)
    requires Typed(ops) && n < |ops| && BucketOk(ops, n, key, bucket, idx) && KeyOf(ops, n) == key
    ensures BucketOk(ops, n + 1, key, bucket + [ops[n]], idx + [n])
  {
    assert forall x: nat :: x in idx + [n] <==> x in idx || x == n;
  }

  /** An operation on another key. */
  lemma BucketSkip(ops: seq<Operation<Kv>>, n: nat, key: string, bucket: seq<Operation<Kv>>, idx: seq<nat>)
    requires Typed(ops) && n < |ops| && BucketOk(ops, n, key, bucket, idx) && KeyOf(ops, n) != key
    ensures BucketOk(ops, n + 1, key, bucket, idx)
  {
  }

  /** The parts are those of some list of all the keys, in order. */
  ghost predicate IsSplit(ops: seq<Operation<Kv>>, parts: seq<seq<Operation<Kv>>>)
    requires Typed(ops)
  {
    exists keys, idx :: IsPartition(ops, keys, idx, parts) && InOrder(keys) && Elems(keys) == KeySet(ops)
  }

  /** One bucket per key, filled in the order of the history. */
  method FillBuckets(history: seq<Operation<Kv>>)
    returns (m: map<string, seq<Operation<Kv>>>, ghost from: map<string, seq<nat>>)
    requires Typed(history)
    ensures Buckets(history, |history|, m, from)
  {
    m, from := map[], map[];
    for n := 0 to |history|
      invariant Buckets(history, n, m, from)
    {
      BucketsStep(history, n, m, from);
      var v := history[n];
      var key := v.input.key;
      m := m[key := (if key in m then m[key] else []) + [v]];
      from := from[key := (if key in from then from[key] else []) + [n]];
    }
  }

  /** The buckets in the order of the keys. */
  method ListBuckets(history: seq<Operation<Kv>>, m: map<string, seq<Operation<Kv>>>,
        ghost from: map<string, seq<nat>>, keys: seq<string>)
    returns (parts: seq<seq<Operation<Kv>>>, ghost idx: seq<seq<nat>>)
    requires Typed(history) && Buckets(history, |history|, m, from) && Distinct(keys) && Elems(keys) == m.Keys
    ensures IsPartition(history, keys, idx, parts)
  {
    parts, idx := [], [];
    assert forall i :: 0 <= i < |keys| ==> keys[i] in Elems(keys);
    assert forall k :: k in Elems(keys) ==> k in keys;
    for i := 0 to |keys|
      invariant |parts| == |idx| == i
      invariant forall j :: 0 <= j < i ==>
        Increasing(idx[j]) && CutOut(history, idx[j], parts[j]) && Selects(history, |history|, idx[j], keys[j])
    {
      assert BucketOk(history, |history|, keys[i], m[keys[i]], from[keys[i]]);
      parts := parts + [m[keys[i]]];
      idx := idx + [from[keys[i]]];
    }
  }

  /** Splits a history by key. */
  method Partition(history: seq<Operation<Kv>>)
    returns (parts: seq<seq<Operation<Kv>>>, ghost keys: seq<string>, ghost idx: seq<seq<nat>>)
    requires Typed(history)
    ensures IsPartition(history, keys, idx, parts) && InOrder(keys) && Elems(keys) == KeySet(history)
    ensures IsSplit(history, parts)
  {
    var m;
    ghost var from;
    m, from := FillBuckets(history);
    BucketKeys(history, m, from);
    var sorted := SortedKeys(m.Keys);
    keys := sorted;
    parts, idx := ListBuckets(history, m, from, sorted);
  }

  lemma BucketKeys(ops: seq<Operation<Kv>>, m: map<string, seq<Operation<Kv>>>, idx: map<string, seq<nat>>)
    requires Typed(ops) && Buckets(ops, |ops|, m, idx)
    ensures m.Keys == KeySet(ops)
  {
    forall k | k in idx
      ensures k in KeySet(ops)
    {
      assert BucketOk(ops, |ops|, k, m[k], idx[k]);
      var x := idx[k][0];
      assert x in idx[k];
      assert KeyOf(ops, x) == k;
    }
  }

  /**
   The check that the tests run: the verdict is about the service as a whole, and says what is wrong as soon
   as one of the keys done before the timeout shows it.
   */
  method CheckKv(history: seq<Operation<Kv>>, verbose: bool, sched: Schedule, late: (nat, nat) -> bool)
    returns (result: CheckResult, parts: seq<seq<Operation<Kv>>>)
    requires Typed(history) && Timely(history) && Possible(sched, |KeySet(history)|)
    ensures IsSplit(history, parts) && Ids(Arrived(sched), |parts|) && |parts| == |KeySet(history)|
    ensures result == Illegal <==>
      exists j :: 0 <= j < |Arrived(sched)| && !Linearizable(KvModel(), parts[Arrived(sched)[j]])
    ensures result == Illegal ==> !Linearizable(MapModel(), history)
    ensures result == Ok <==> 0 < |parts| == |Arrived(sched)| && Linearizable(MapModel(), history)
    ensures result == Unknown ==> sched.timeout.Some?
  {
    ghost var keys, idx;
    parts, keys, idx := Partition(history);
    ElemsSize(keys);
    forall i | 0 <= i < |parts|
      ensures Timely(parts[i])
    {
      assert CutOut(history, idx[i], parts[i]);
    }
    Locality(history, keys, idx, parts);
    var info;
    result, info := CheckOperations(KvModel(), parts, verbose, sched, late);
  }
}
