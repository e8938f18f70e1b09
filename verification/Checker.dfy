/**
 The linearizability checker (src/porcupine/checker.go): the search loop of checkSingle over
 linked nodes, bitsets and a hash-bucketed cache, proved to take the steps of the abstract
 search and hence to decide linearizability.
 */
module Checker {
  import opened Sealing
  import opened Histories
  import opened Entries
  import opened Search
  import opened Bitsets
  import opened LinkedEntries

  // ----- The cache -----

  /** A cached bitset is never written again, so its words are kept as a value. */
  datatype CacheEntry<+S> = CacheEntry(linearized: seq<Word>, state: S)

  /** A map from hashes to lists of entries. */
  type Cache<+S> = map<Word, seq<CacheEntry<S>>>

  ghost function PairOf<S>(e: CacheEntry<S>): (set<nat>, S) {
    (Bits(e.linearized), e.state)
  }

  ghost predicate Stored<S(!new)>(cache: Cache<S>, e: CacheEntry<S>) {
    HashOf(e.linearized) in cache && e in cache[HashOf(e.linearized)]
  }

  /** The cache holds bitsets of `width` words, and stands for the pairs `visited`. */
  ghost predicate CacheOk<S(!new)>(cache: Cache<S>, width: nat, visited: seq<(set<nat>, S)>) {
    && (forall hash, k {:trigger cache[hash][k]} :: hash in cache && 0 <= k < |cache[hash]| ==>
          |cache[hash][k].linearized| == width && PairOf(cache[hash][k]) in visited)
    && (forall v :: v in visited ==> exists e: CacheEntry<S> ::
         |e.linearized| == width && Stored(cache, e) && PairOf(e) == v)
  }

  function Bucket<S>(cache: Cache<S>, hash: Word): seq<CacheEntry<S>> {
    if hash in cache then cache[hash] else []
  }

  ghost predicate Matches<S(!new), V>(m: Model<S, V>, entry: CacheEntry<S>, e: CacheEntry<S>) {
    Bits(e.linearized) == Bits(entry.linearized) && m.equal(entry.state, e.state)
  }

  /** Looking in the one bucket that the hash selects is enough. */
  lemma BucketDecides<S(!new), V>(m: Model<S, V>, cache: Cache<S>, entry: CacheEntry<S>, visited: seq<(set<nat>, S)>)
    requires CacheOk(cache, |entry.linearized|, visited)
    ensures Seen(m, visited, Bits(entry.linearized), entry.state) <==>
      exists e :: e in Bucket(cache, HashOf(entry.linearized)) && Matches(m, entry, e)
  {
    var hash := HashOf(entry.linearized);
    if Seen(m, visited, Bits(entry.linearized), entry.state) {
      var v :| v in visited && v.0 == Bits(entry.linearized) && m.equal(entry.state, v.1);
      var e: CacheEntry<S> :| |e.linearized| == |entry.linearized| && Stored(cache, e) && PairOf(e) == v;
      BitsInjective(entry.linearized, e.linearized);
      assert e in Bucket(cache, hash) && Matches(m, entry, e);
    }
    if e :| e in Bucket(cache, hash) && Matches(m, entry, e) {
      var k :| 0 <= k < |cache[hash]| && cache[hash][k] == e;
      assert PairOf(e) in visited;
    }
  }

  /** Whether a pair with the same set and an `equal` state is in the cache. */
  method CacheContains<S(!new), V>(m: Model<S, V>, cache: Cache<S>, entry: CacheEntry<S>,
        ghost visited: seq<(set<nat>, S)>)
    returns (found: bool)
    requires CacheOk(cache, |entry.linearized|, visited)
    ensures found <==> Seen(m, visited, Bits(entry.linearized), entry.state)
  {
    BucketDecides(m, cache, entry, visited);
    var hash := Hash(entry.linearized);
    var list := Bucket(cache, hash);
    assert forall k :: 0 <= k < |list| ==> |list[k].linearized| == |entry.linearized| by {
      assert forall k :: 0 <= k < |list| ==> list[k] == cache[hash][k];
    }
    for k := 0 to |list|
      invariant forall j :: 0 <= j < k ==> !Matches(m, entry, list[j])
    {
      var same := Equals(entry.linearized, list[k].linearized);
      if same && m.equal(entry.state, list[k].state) {
        assert Matches(m, entry, list[k]);
        return true;
      }
    }
    return false;
  }

  /** Appending an entry to its bucket adds one pair. */
  lemma CacheAdd<S(!new)>(cache: Cache<S>, width: nat, visited: seq<(set<nat>, S)>, entry: CacheEntry<S>)
    requires CacheOk(cache, width, visited) && |entry.linearized| == width
    ensures var hash := HashOf(entry.linearized);
      CacheOk(cache[hash := Bucket(cache, hash) + [entry]], width, visited + [PairOf(entry)])
  {
    var hash := HashOf(entry.linearized);
    var cache' := cache[hash := Bucket(cache, hash) + [entry]];
    forall v | v in visited + [PairOf(entry)]
      ensures exists e: CacheEntry<S> :: |e.linearized| == width && Stored(cache', e) && PairOf(e) == v
    {
      if v in visited {
        var e: CacheEntry<S> :| |e.linearized| == width && Stored(cache, e) && PairOf(e) == v;
        assert Stored(cache', e);
      } else {
        assert cache'[hash][|Bucket(cache, hash)|] == entry;
        assert Stored(cache', entry);
      }
    }
    forall hsh, k | hsh in cache' && 0 <= k < |cache'[hsh]|
      ensures |cache'[hsh][k].linearized| == width && PairOf(cache'[hsh][k]) in visited + [PairOf(entry)]
    {
      if hsh != hash || k < |Bucket(cache, hash)| {
        assert cache'[hsh][k] == cache[hsh][k];
      }
    }
  }

  // ----- The search -----

  datatype CallsEntry<V, +S> = CallsEntry(entry: Node<V>, state: S)

  /** The stack records the call nodes of `path` and the model states before them. */
  ghost predicate CallsOk<S(!new), V>(m: Model<S, V>, h: seq<Entry<V>>, nodes: seq<Node<V>>,
        calls: seq<CallsEntry<V, S>>, path: seq<nat>)
    requires WellFormed(h) && Ids(path, Count(h)) && |nodes| == |h| + 1
  {
    && |calls| == |path|
    && (path == [] ||
        var q := path[..|path|-1];
        && CallsOk(m, h, nodes, calls[..|path|-1], q)
        && calls[|path|-1].entry == nodes[CallOf(h, path[|path|-1]) + 1]
        && Run(m, OpsOf(h), m.init, q) == Some(calls[|path|-1].state))
  }

  /** The node at the current position and what the model says about it. */
  lemma NodeFacts<S(!new), V>(m: Model<S, V>, h: seq<Entry<V>>, nodes: seq<Node<V>>, s: State<S>)
    requires Shape(nodes, h) && PathOk(m, h, s.path)
    requires 1 <= s.pos <= |h|
    ensures nodes[s.pos].matching != null <==> !Nth(h, s.pos).isReturn
    ensures nodes[s.pos].matching != null ==>
      && var x := Nth(h, s.pos).id;
      && nodes[s.pos].id == x && x < Count(h) && s.pos == CallOf(h, x) + 1
      && nodes[s.pos].value.Some? && nodes[s.pos].matching.value.Some?
      && m.step(StateAt(m, h, s.path), nodes[s.pos].value.value, nodes[s.pos].matching.value.value)
         == StepAt(m, h, s.path, x)
  {
    assert nodes[s.pos].value == Some(Nth(h, s.pos).value);
    if nodes[s.pos].matching != null {
      var x := Nth(h, s.pos).id;
      assert CallOf(h, x) + 1 == s.pos;
      var r := ReturnOf(h, x) + 1;
      assert Nth(h, r).isReturn;
      assert nodes[s.pos].matching == nodes[r] && nodes[r].value == Some(Nth(h, r).value);
      assert OpsOf(h)[x].input == Nth(h, s.pos).value && OpsOf(h)[x].output == Nth(h, r).value;
    }
  }

  lemma NextFacts<V>(h: seq<Entry<V>>, nodes: seq<Node<V>>, path: seq<nat>, i: nat)
    requires ListOk(nodes, h, path, Nexts(nodes), Prevs(nodes))
    requires i in Live(h, path)
    ensures i < |nodes| && nodes[i].next == NodeAt(nodes, NextLive(Live(h, path), i, |h| + 1))
  {
    ListLinked(nodes, h, path, Nexts(nodes), Prevs(nodes));
    assert Nexts(nodes)[i] == nodes[i].next;
  }

  /** The list is empty exactly when everything is linearized. */
  lemma HeadFacts<S(!new), V>(m: Model<S, V>, h: seq<Entry<V>>, nodes: seq<Node<V>>, path: seq<nat>)
    requires Shape(nodes, h) && ListOk(nodes, h, path, Nexts(nodes), Prevs(nodes)) && PathOk(m, h, path)
    ensures nodes[0].next == null <==> |path| == Count(h)
  {
    NextFacts(h, nodes, path, 0);
    PathFacts(m, h, path);
    DistinctBounded(path, Count(h));
    var i := NextLive(Live(h, path), 0, |h| + 1);
    if i <= |h| {
      assert Nth(h, i).id !in path && Nth(h, i).id < Count(h);
    }
    if |path| < Count(h) {
      var x: nat :| x < Count(h) && x !in path;
      assert Nth(h, CallOf(h, x) + 1).id == x;
      assert CallOf(h, x) + 1 in Live(h, path);
    }
  }

  lemma CallsSnoc<S(!new), V>(m: Model<S, V>, h: seq<Entry<V>>, nodes: seq<Node<V>>, calls: seq<CallsEntry<V, S>>,
        path: seq<nat>, c: CallsEntry<V, S>, x: nat)
    requires WellFormed(h) && Ids(path, Count(h)) && |nodes| == |h| + 1 && x < Count(h)
    requires CallsOk(m, h, nodes, calls, path)
    requires c.entry == nodes[CallOf(h, x) + 1] && Run(m, OpsOf(h), m.init, path) == Some(c.state)
    ensures Ids(path + [x], Count(h)) && CallsOk(m, h, nodes, calls + [c], path + [x])
  {
    IdsSnoc(path, x, Count(h));
    assert (path + [x])[..|path|] == path && (calls + [c])[..|calls|] == calls;
  }

  lemma {:induction false} CallIds<S(!new), V>(m: Model<S, V>, h: seq<Entry<V>>, nodes: seq<Node<V>>,
        calls: seq<CallsEntry<V, S>>, path: seq<nat>)
    requires Shape(nodes, h) && Ids(path, Count(h)) && CallsOk(m, h, nodes, calls, path)
    ensures forall k: nat :: k < |path| ==> calls[k].entry.id == path[k]
    decreases path
  {
    if path != [] {
      var n := |path| - 1;
      var calls', path' := calls[..n], path[..n];
      CallIds(m, h, nodes, calls', path');
      assert calls[n].entry.id == path[n] by {
        MatchOf(nodes, h, path[n]);
      }
      assert forall k: nat :: k < n ==> calls'[k] == calls[k] && path'[k] == path[k];
    }
  }

  /** The ids on the stack. */
  method StackIds<S(!new), V>(calls: seq<CallsEntry<V, S>>, ghost path: seq<nat>) returns (ids: seq<nat>)
    requires |calls| == |path| && forall k: nat :: k < |path| ==> calls[k].entry.id == path[k]
    ensures ids == path
  {
    ids := [];
    for i := 0 to |calls|
      invariant ids == path[..i]
    {
      ids := ids + [calls[i].entry.id];
    }
  }

  /** Remember the current stack for every operation on it that had a shorter record. */
  method UpdateLongest<S(!new), V>(longest: seq<Option<seq<nat>>>, calls: seq<CallsEntry<V, S>>, ghost path: seq<nat>)
    returns (r: seq<Option<seq<nat>>>)
    requires |calls| == |path| && Ids(path, |longest|)
    requires forall k: nat :: k < |path| ==> calls[k].entry.id == path[k]
    ensures r == Record(longest, path)
  {
    r := longest;
    var ids: Option<seq<nat>> := None;
    for k := 0 to |calls|
      invariant |r| == |longest|
      invariant ids.Some? ==> ids.value == path
      invariant forall id: nat :: id < |r| ==>
        r[id] ==
          if id in path[..k] && (longest[id].None? || |path| > |longest[id].value|) then Some(path) else longest[id]
    {
      assert path[..k+1] == path[..k] + [path[k]];
      var id := calls[k].entry.id;
      if r[id].None? || |calls| > |r[id].value| {
        if ids.None? {
          var all := StackIds(calls, path);
          ids := Some(all);
        }
        r := r[id := ids];
      }
    }
    assert path[..|path|] == path;
  }

  /** Linearizing the call at the current position extends the path. */
  lemma PathSnocFacts<S(!new), V(!new)>(m: Model<S, V>, h: seq<Entry<V>>, s: State<S>)
    requires WellFormed(h) && CanPush(m, h, s) && Nth(h, s.pos).id !in s.path && PosOk(h, s)
    ensures var x := Nth(h, s.pos).id;
      && Elems(s.path + [x]) == Elems(s.path) + {x}
      && PathOk(m, h, s.path + [x])
      && StateAt(m, h, s.path + [x]) == StepAt(m, h, s.path, x).1
      && Ids(s.path, Count(h)) && Run(m, OpsOf(h), m.init, s.path) == Some(StateAt(m, h, s.path))
  {
    CallIsReady(h, s);
    PathSnoc(m, h, s.path, Nth(h, s.pos).id);
    ContinuesIds(m, OpsOf(h), {}, m.init, s.path);
  }

  /** The top of the stack is the call node of the operation to undo. */
  lemma TopFacts<S(!new), V(!new)>(m: Model<S, V>, h: seq<Entry<V>>, nodes: seq<Node<V>>,
        calls: seq<CallsEntry<V, S>>, path: seq<nat>)
    requires Shape(nodes, h) && path != [] && Ids(path, Count(h)) && Distinct(path)
    requires CallsOk(m, h, nodes, calls, path)
    ensures var q, x := path[..|path|-1], path[|path|-1];
      var entry := calls[|calls|-1].entry;
      && x !in q && entry == nodes[CallOf(h, x) + 1] && entry.id == x && CallOf(h, x) + 1 in Live(h, q)
  {
    var q, x := path[..|path|-1], path[|path|-1];
    MatchOf(nodes, h, x);
    assert Nth(h, CallOf(h, x) + 1).id == x;
  }

  /** What is left once it is undone. */
  lemma PopFacts<S(!new), V(!new)>(m: Model<S, V>, h: seq<Entry<V>>, nodes: seq<Node<V>>,
        calls: seq<CallsEntry<V, S>>, path: seq<nat>)
    requires WellFormed(h) && |nodes| == |h| + 1 && PathOk(m, h, path) && path != [] && Ids(path, Count(h)) &&
      Distinct(path)
    requires CallsOk(m, h, nodes, calls, path)
    ensures var q, x := path[..|path|-1], path[|path|-1];
      && Elems(path) - {x} == Elems(q) && Ids(q, Count(h))
      && PathOk(m, h, q) && calls[|calls|-1].state == StateAt(m, h, q)
      && CallsOk(m, h, nodes, calls[..|calls|-1], q)
  {
    var q := path[..|path|-1];
    assert path == q + [path[|path|-1]];
    ContinuesPrefix(m, OpsOf(h), {}, m.init, path, |q|);
  }

  // ----- The changes a round makes to the list and the bitset -----

  method PushNodes<V>(entry: Node<V>, head: Node<V>, linearized: array<Word>, ghost nodes: seq<Node<V>>,
        ghost h: seq<Entry<V>>, ghost path: seq<nat>, ghost x: nat)
    returns (next: Node?<V>)
    requires Shape(nodes, h) && ListOk(nodes, h, path, Nexts(nodes), Prevs(nodes))
    requires x < Count(h) && x !in path && entry == nodes[CallOf(h, x) + 1] && entry.id == x && head == nodes[0]
    requires Count(h) <= 64 * linearized.Length
    modifies nodes, linearized
    ensures ListOk(nodes, h, path + [x], Nexts(nodes), Prevs(nodes))
    ensures Bits(linearized[..]) == old(Bits(linearized[..])) + {x}
    ensures next == NodeAt(nodes, NextLive(Live(h, path + [x]), 0, |h| + 1))
  {
    Set(linearized, entry.id);
    assert Nexts(nodes) == old(Nexts(nodes)) && Prevs(nodes) == old(Prevs(nodes));
    Lift(entry, nodes, h, path, x);
    NextFacts(h, nodes, path + [x], 0);
    next := head.next;
  }

  method PopNodes<V>(entry: Node<V>, linearized: array<Word>, ghost nodes: seq<Node<V>>, ghost h: seq<Entry<V>>,
        ghost q: seq<nat>, ghost x: nat, ghost pos: nat)
    returns (next: Node?<V>)
    requires Shape(nodes, h) && Ids(q, Count(h)) && x < Count(h) && x !in q
    requires ListOk(nodes, h, q + [x], Nexts(nodes), Prevs(nodes))
    requires entry == nodes[CallOf(h, x) + 1] && entry.id == x
    requires Count(h) <= 64 * linearized.Length && CallOf(h, x) + 1 in Live(h, q)
    requires pos == NextLive(Live(h, q), CallOf(h, x) + 1, |h| + 1)
    modifies nodes, linearized
    ensures ListOk(nodes, h, q, Nexts(nodes), Prevs(nodes))
    ensures Bits(linearized[..]) == old(Bits(linearized[..])) - {x}
    ensures next == NodeAt(nodes, pos)
  {
    Clear(linearized, entry.id);
    assert Nexts(nodes) == old(Nexts(nodes)) && Prevs(nodes) == old(Prevs(nodes));
    Unlift(entry, nodes, h, q, x);
    NextFacts(h, nodes, q, CallOf(h, x) + 1);
    next := entry.next;
  }

  // ----- The variables of the loop -----

  /** What the variables of the loop hold when the search is in state `s`; not looked into by default. */
  ghost predicate Tracks<S(!new), V>(m: Model<S, V>, h: seq<Entry<V>>, nodes: seq<Node<V>>, s: State<S>,
        words: seq<Word>, cache: Cache<S>, state: S, calls: seq<CallsEntry<V, S>>)
  {
    |calls| == |s.path| && Count(h) <= 64 * |words| &&
    forall k: nat :: Open(k, s) ==> Holds(m, h, nodes, s, words, cache, state, calls)
  }

  ghost predicate Holds<S(!new), V>(m: Model<S, V>, h: seq<Entry<V>>, nodes: seq<Node<V>>, s: State<S>,
        words: seq<Word>, cache: Cache<S>, state: S, calls: seq<CallsEntry<V, S>>)
  {
    && WellFormed(h) && |nodes| == |h| + 1
    && PathOk(m, h, s.path) && Ids(s.path, Count(h))
    && Bits(words) == Elems(s.path)
    && CacheOk(cache, |words|, s.visited)
    && state == StateAt(m, h, s.path)
    && CallsOk(m, h, nodes, calls, s.path)
  }

  lemma TracksPush<S(!new), V(!new)>(m: Model<S, V>, h: seq<Entry<V>>, nodes: seq<Node<V>>, s: State<S>,
        words: seq<Word>, cache: Cache<S>, entry: Node<V>, state: S, calls: seq<CallsEntry<V, S>>, words': seq<Word>,
        e: CacheEntry<S>)
    requires Shape(nodes, h) && Tracks(m, h, nodes, s, words, cache, state, calls)
    requires PosOk(h, s) && CanPush(m, h, s) && entry == nodes[s.pos]
    requires var x := Nth(h, s.pos).id;
      && |e.linearized| == |words| && PairOf(e) == (Elems(s.path + [x]), StepAt(m, h, s.path, x).1)
      && |words'| == |words| && Bits(words') == Bits(words) + {x}
    ensures var x := Nth(h, s.pos).id;
      var hash := HashOf(e.linearized);
      Tracks(m, h, nodes, Push(h, s, x, e.state), words', cache[hash := Bucket(cache, hash) + [e]], e.state,
        calls + [CallsEntry(entry, state)])
  {
    assert Open(0, s);
    var x := Nth(h, s.pos).id;
    CallIsReady(h, s);
    PathSnocFacts(m, h, s);
    CacheAdd(cache, |words|, s.visited, e);
    CallsSnoc(m, h, nodes, calls, s.path, CallsEntry(entry, state), x);
  }

  lemma TracksAdvance<S(!new), V(!new)>(m: Model<S, V>, h: seq<Entry<V>>, nodes: seq<Node<V>>, s: State<S>,
        words: seq<Word>, cache: Cache<S>, state: S, calls: seq<CallsEntry<V, S>>)
    requires Tracks(m, h, nodes, s, words, cache, state, calls) && s.pos <= |h|
    ensures Tracks(m, h, nodes, Advance(h, s), words, cache, state, calls)
  {
    assert Open(0, s);
  }

  lemma TracksTop<S(!new), V(!new)>(m: Model<S, V>, h: seq<Entry<V>>, nodes: seq<Node<V>>, s: State<S>,
        words: seq<Word>, cache: Cache<S>, state: S, calls: seq<CallsEntry<V, S>>)
    requires Shape(nodes, h) && Tracks(m, h, nodes, s, words, cache, state, calls)
    requires CanPop(h, s) && Distinct(s.path)
    ensures var q, x := s.path[..|s.path|-1], s.path[|s.path|-1];
      var entry := calls[|calls|-1].entry;
      && x !in q && entry == nodes[CallOf(h, x) + 1] && entry.id == x && CallOf(h, x) + 1 in Live(h, q)
  {
    assert Ids(s.path, Count(h)) && CallsOk(m, h, nodes, calls, s.path) by { assert Open(0, s); }
    TopFacts(m, h, nodes, calls, s.path);
  }

  lemma TracksPop<S(!new), V(!new)>(m: Model<S, V>, h: seq<Entry<V>>, nodes: seq<Node<V>>, s: State<S>, partial: bool,
        words: seq<Word>, cache: Cache<S>, state: S, calls: seq<CallsEntry<V, S>>, words': seq<Word>)
    requires Shape(nodes, h) && Tracks(m, h, nodes, s, words, cache, state, calls)
    requires CanPop(h, s) && Distinct(s.path)
    requires |words'| == |words| && Bits(words') == Bits(words) - {s.path[|s.path|-1]}
    ensures Tracks(m, h, nodes, Pop(h, s, partial), words', cache, calls[|calls|-1].state, calls[..|calls|-1])
  {
    assert Open(0, s);
    PopFacts(m, h, nodes, calls, s.path);
  }

  lemma TracksIds<S(!new), V(!new)>(m: Model<S, V>, h: seq<Entry<V>>, nodes: seq<Node<V>>, s: State<S>,
        words: seq<Word>, cache: Cache<S>, state: S, calls: seq<CallsEntry<V, S>>)
    requires Shape(nodes, h) && Tracks(m, h, nodes, s, words, cache, state, calls)
    ensures forall k: nat :: k < |s.path| ==> calls[k].entry.id == s.path[k]
  {
    assert Open(0, s);
    CallIds(m, h, nodes, calls, s.path);
  }

  // ----- The rounds -----

  /** At a call: whether to linearize it, and the cache entry of the pair this would reach. */
  method Examine<S(!new), V(!new)>(m: Model<S, V>, h: seq<Entry<V>>, linearized: array<Word>, cache: Cache<S>,
        entry: Node<V>, state: S, ghost nodes: seq<Node<V>>, ghost s: State<S>, ghost calls: seq<CallsEntry<V, S>>)
    returns (isNew: bool, newEntry: CacheEntry<S>)
    requires Shape(nodes, h) && Tracks(m, h, nodes, s, linearized[..], cache, state, calls)
    requires |s.path| < Count(h) && 1 <= s.pos <= |h| && entry == nodes[s.pos] && entry.matching != null
    ensures !Nth(h, s.pos).isReturn && entry.id == Nth(h, s.pos).id
    ensures if isNew then CanPush(m, h, s) else CanAdvance(m, h, s)
    ensures isNew ==>
      && var x := Nth(h, s.pos).id;
      && |newEntry.linearized| == linearized.Length &&
         PairOf(newEntry) == (Elems(s.path + [x]), StepAt(m, h, s.path, x).1)
  {
    assert Open(0, s);
    NodeFacts(m, h, nodes, s);
    ghost var x := Nth(h, s.pos).id;
    var r := m.step(state, entry.value.value, entry.matching.value.value);
    newEntry := CacheEntry([], state);
    if !r.0 {
      return false, newEntry;
    }
    assert Elems(s.path) + {x} == Elems(s.path + [x]);
    var newLinearized := Clone(linearized);
    Set(newLinearized, entry.id);
    newEntry := CacheEntry(newLinearized[..], r.1);
    var seen := CacheContains(m, cache, newEntry, s.visited);
    isNew := !seen;
  }

  /** Linearizes the operation called at `entry`. */
  method Linearize<S(!new), V(!new)>(m: Model<S, V>, h: seq<Entry<V>>, head: Node<V>, linearized: array<Word>,
        cache: Cache<S>, entry: Node<V>, state: S, calls: seq<CallsEntry<V, S>>, newEntry: CacheEntry<S>,
        ghost nodes: seq<Node<V>>, ghost s: State<S>)
    returns (cache': Cache<S>, entry': Node?<V>, state': S, calls': seq<CallsEntry<V, S>>, ghost s': State<S>)
    requires Shape(nodes, h) && ListOk(nodes, h, s.path, Nexts(nodes), Prevs(nodes)) && head == nodes[0]
    requires Tracks(m, h, nodes, s, linearized[..], cache, state, calls)
    requires PosOk(h, s) && CanPush(m, h, s) && entry == nodes[s.pos] && entry.id == Nth(h, s.pos).id
    requires var x := Nth(h, s.pos).id;
      |newEntry.linearized| == linearized.Length && PairOf(newEntry) == (Elems(s.path + [x]), StepAt(m, h, s.path, x).1)
    modifies nodes, linearized
    ensures s' == Push(h, s, Nth(h, s.pos).id, newEntry.state)
    ensures ListOk(nodes, h, s'.path, Nexts(nodes), Prevs(nodes))
    ensures entry' == NodeAt(nodes, s'.pos)
    ensures Tracks(m, h, nodes, s', linearized[..], cache', state', calls')
  {
    ghost var x, words := Nth(h, s.pos).id, linearized[..];
    CallIsReady(h, s);
    s' := Push(h, s, x, newEntry.state);
    entry' := PushNodes(entry, head, linearized, nodes, h, s.path, x);
    TracksPush(m, h, nodes, s, words, cache, entry, state, calls, linearized[..], newEntry);
    var hash := Hash(newEntry.linearized);
    cache' := cache[hash := Bucket(cache, hash) + [newEntry]];
    calls' := calls + [CallsEntry(entry, state)];
    state' := newEntry.state;
  }

  /** A round at a call. */
  method CallRound<S(!new), V(!new)>(m: Model<S, V>, h: seq<Entry<V>>, ghost computePartial: bool, head: Node<V>,
        linearized: array<Word>, cache: Cache<S>, entry: Node<V>, state: S, calls: seq<CallsEntry<V, S>>,
        ghost nodes: seq<Node<V>>, ghost s: State<S>)
    returns (cache': Cache<S>, entry': Node?<V>, state': S, calls': seq<CallsEntry<V, S>>, ghost s': State<S>)
    requires Shape(nodes, h) && ListOk(nodes, h, s.path, Nexts(nodes), Prevs(nodes)) && head == nodes[0]
    requires Tracks(m, h, nodes, s, linearized[..], cache, state, calls)
    requires PosOk(h, s) && |s.path| < Count(h) && entry == nodes[s.pos] && entry.matching != null
    modifies nodes, linearized
    ensures Next(m, h, computePartial, s, s') && s'.longest == s.longest
    ensures ListOk(nodes, h, s'.path, Nexts(nodes), Prevs(nodes))
    ensures entry' == NodeAt(nodes, s'.pos)
    ensures Tracks(m, h, nodes, s', linearized[..], cache', state', calls')
  {
    var isNew, newEntry := Examine(m, h, linearized, cache, entry, state, nodes, s, calls);
    if isNew {
      cache', entry', state', calls', s' :=
        Linearize(m, h, head, linearized, cache, entry, state, calls, newEntry, nodes, s);
    } else {
      s' := Advance(h, s);
      TracksAdvance(m, h, nodes, s, linearized[..], cache, state, calls);
      NextFacts(h, nodes, s.path, s.pos);
      cache', entry', state', calls' := cache, entry.next, state, calls;
    }
  }

  /** At a return: bring the records up to date. */
  method RecordStack<S(!new), V(!new)>(m: Model<S, V>, h: seq<Entry<V>>, computePartial: bool,
        longest: seq<Option<seq<nat>>>, calls: seq<CallsEntry<V, S>>, ghost nodes: seq<Node<V>>, ghost s: State<S>,
        ghost words: seq<Word>, ghost cache: Cache<S>, ghost state: S)
    returns (longest': seq<Option<seq<nat>>>)
    requires Shape(nodes, h) && Tracks(m, h, nodes, s, words, cache, state, calls)
    requires CanPop(h, s) && longest == s.longest
    ensures longest' == Pop(h, s, computePartial).longest
  {
    longest' := longest;
    if computePartial {
      TracksIds(m, h, nodes, s, words, cache, state, calls);
      longest' := UpdateLongest(longest, calls, s.path);
    }
  }

  /** A round at a return: undo the top of the stack. */
  method ReturnRound<S(!new), V(!new)>(m: Model<S, V>, h: seq<Entry<V>>, ghost computePartial: bool,
        linearized: array<Word>, ghost cache: Cache<S>, ghost state: S, calls: seq<CallsEntry<V, S>>,
        ghost nodes: seq<Node<V>>, ghost s: State<S>)
    returns (entry': Node?<V>, state': S, calls': seq<CallsEntry<V, S>>, ghost s': State<S>)
    requires Shape(nodes, h) && ListOk(nodes, h, s.path, Nexts(nodes), Prevs(nodes))
    requires Tracks(m, h, nodes, s, linearized[..], cache, state, calls)
    requires CanPop(h, s) && Distinct(s.path)
    modifies nodes, linearized
    ensures s' == Pop(h, s, computePartial)
    ensures ListOk(nodes, h, s'.path, Nexts(nodes), Prevs(nodes))
    ensures entry' == NodeAt(nodes, s'.pos)
    ensures Tracks(m, h, nodes, s', linearized[..], cache, state', calls')
  {
    ghost var words := linearized[..];
    s' := Pop(h, s, computePartial);
    TracksTop(m, h, nodes, s, words, cache, state, calls);
    var callsTop := calls[|calls|-1];
    ghost var q, x := s'.path, s.path[|s.path|-1];
    assert s.path == q + [x];
    entry' := PopNodes(callsTop.entry, linearized, nodes, h, q, x, s'.pos);
    TracksPop(m, h, nodes, s, computePartial, words, cache, state, calls, linearized[..]);
    state', calls' := callsTop.state, calls[..|calls|-1];
  }

  /** One round; it stops the search at a return that leaves nothing to undo. */
  method Round<S(!new), V(!new)>(m: Model<S, V>, h: seq<Entry<V>>, computePartial: bool, head: Node<V>,
        linearized: array<Word>, cache: Cache<S>, longest: seq<Option<seq<nat>>>, entry: Node?<V>, state: S,
        calls: seq<CallsEntry<V, S>>, ghost nodes: seq<Node<V>>, ghost run: seq<State<S>>, ghost left: nat)
    returns (stop: bool, cache': Cache<S>, entry': Node?<V>, state': S, calls': seq<CallsEntry<V, S>>,
             longest': seq<Option<seq<nat>>>, ghost run': seq<State<S>>, ghost left': nat)
    requires Lawful(m) && Shape(nodes, h) && head == nodes[0] && head.next != null
    requires Runs(m, h, computePartial, run, left)
    requires ListOk(nodes, h, run[|run|-1].path, Nexts(nodes), Prevs(nodes))
    requires Tracks(m, h, nodes, run[|run|-1], linearized[..], cache, state, calls)
    requires entry == NodeAt(nodes, run[|run|-1].pos) && longest == run[|run|-1].longest
    modifies nodes, linearized
    ensures stop ==>
      && run' == run && left' == left && longest' == longest && calls == []
      && |run[|run|-1].path| < Count(h) && 1 <= run[|run|-1].pos <= |h| && Nth(h, run[|run|-1].pos).isReturn
    ensures !stop ==>
      && Runs(m, h, computePartial, run', left') && Smaller(h, left', run'[|run'|-1], left, run[|run|-1])
      && ListOk(nodes, h, run'[|run'|-1].path, Nexts(nodes), Prevs(nodes))
      && Tracks(m, h, nodes, run'[|run'|-1], linearized[..], cache', state', calls')
      && entry' == NodeAt(nodes, run'[|run'|-1].pos) && longest' == run'[|run'|-1].longest
  {
    ghost var s := run[|run|-1];
    RoundFacts(m, h, computePartial, nodes, run, left);
    stop, cache', entry', state', calls', longest' := false, cache, entry, state, calls, longest;
    run', left' := run, left;
    if entry.matching != null {
      cache', entry', state', calls', s :=
        CallRound(m, h, computePartial, head, linearized, cache, entry, state, calls, nodes, s);
    } else if |calls| == 0 {
      stop := true;
      return;
    } else {
      longest' := RecordStack(m, h, computePartial, longest, calls, nodes, s, linearized[..], cache, state);
      entry', state', calls', s := ReturnRound(m, h, computePartial, linearized, cache, state, calls, nodes, s);
    }
    left' := RunStep(m, h, computePartial, run, left, s);
    run' := run + [s];
  }

  /** The rounds of the search, until the list is empty or nothing is left to undo. */
  method Rounds<S(!new), V(!new)>(m: Model<S, V>, h: seq<Entry<V>>, computePartial: bool, kill: nat -> bool,
        head: Node<V>, first: Node?<V>, linearized: array<Word>, ghost nodes: seq<Node<V>>)
    returns (ok: bool, longest: seq<Option<seq<nat>>>, ghost killed: bool, ghost run: seq<State<S>>, ghost left: nat)
    requires Lawful(m)
    requires Shape(nodes, h) && ListOk(nodes, h, [], Nexts(nodes), Prevs(nodes)) && head == nodes[0]
    requires first == NodeAt(nodes, NextLive(Live(h, []), 0, |h| + 1))
    requires Count(h) <= 64 * linearized.Length && Bits(linearized[..]) == {}
    modifies nodes, linearized
    ensures Runs(m, h, computePartial, run, left)
    ensures killed ==> !ok && exists i :: kill(i)
    ensures var s := run[|run|-1];
      && (ok ==> |s.path| == Count(h) && longest == seq(Count(h), _ => Some(s.path)))
      && (!ok ==> longest == s.longest)
      && (!ok && !killed ==> |s.path| < Count(h) && 1 <= s.pos <= |h| && Nth(h, s.pos).isReturn && s.path == [])
  {
    var entry, state := first, m.init;
    var cache: Cache<S> := map[];
    var calls: seq<CallsEntry<V, S>> := [];
    longest := seq(|h| / 2, _ => None);
    ghost var s: State<S> := Start(h);
    run := [s];
    left := RunStart(m, h, computePartial);
    TracksStart(m, h, nodes, linearized[..]);
    var round := 0;
    while head.next != null
      invariant Runs(m, h, computePartial, run, left) && s == run[|run|-1]
      invariant ListOk(nodes, h, s.path, Nexts(nodes), Prevs(nodes))
      invariant entry == NodeAt(nodes, s.pos)
      invariant Tracks(m, h, nodes, s, linearized[..], cache, state, calls)
      invariant longest == s.longest
      decreases left, |s.path|, |h| + 1 - s.pos
    {
      if kill(round) {
        return false, longest, true, run, left;
      }
      round := round + 1;
      var stop;
      stop, cache, entry, state, calls, longest, run, left :=
        Round(m, h, computePartial, head, linearized, cache, longest, entry, state, calls, nodes, run, left);
      if stop {
        return false, longest, false, run, left;
      }
      s := run[|run|-1];
    }
    longest := Finish(m, h, computePartial, nodes, run, left, linearized[..], cache, state, calls);
    ok, killed := true, false;
  }

  lemma TracksStart<S(!new), V(!new)>(m: Model<S, V>, h: seq<Entry<V>>, nodes: seq<Node<V>>, words: seq<Word>)
    requires Shape(nodes, h) && Count(h) <= 64 * |words| && Bits(words) == {}
    ensures Tracks(m, h, nodes, Start(h), words, map[], m.init, [])
  {
  }

  /** What a round finds when operations remain. */
  lemma RoundFacts<S(!new), V(!new)>(m: Model<S, V>, h: seq<Entry<V>>, partial: bool, nodes: seq<Node<V>>,
        run: seq<State<S>>, left: nat)
    requires Lawful(m) && Shape(nodes, h) && Runs(m, h, partial, run, left)
    requires ListOk(nodes, h, run[|run|-1].path, Nexts(nodes), Prevs(nodes)) && nodes[0].next != null
    ensures var s := run[|run|-1];
      && |s.path| < Count(h) && PosOk(h, s)
      && (nodes[s.pos].matching == null ==> Nth(h, s.pos).isReturn)
      && Ids(s.path, Count(h)) && Distinct(s.path) && |s.longest| == Count(h)
  {
    RunFacts(m, h, partial, run, left);
    HeadFacts(m, h, nodes, run[|run|-1].path);
    NodeFacts(m, h, nodes, run[|run|-1]);
  }

  /** The list is empty: the whole stack is the record of every operation. */
  method Finish<S(!new), V(!new)>(m: Model<S, V>, h: seq<Entry<V>>, ghost partial: bool, ghost nodes: seq<Node<V>>,
        ghost run: seq<State<S>>, ghost left: nat, ghost words: seq<Word>, ghost cache: Cache<S>, ghost state: S,
        calls: seq<CallsEntry<V, S>>)
    returns (longest: seq<Option<seq<nat>>>)
    requires Lawful(m) && Shape(nodes, h) && Runs(m, h, partial, run, left)
    requires ListOk(nodes, h, run[|run|-1].path, Nexts(nodes), Prevs(nodes)) && nodes[0].next == null
    requires Tracks(m, h, nodes, run[|run|-1], words, cache, state, calls)
    ensures |run[|run|-1].path| == Count(h)
    ensures longest == seq(Count(h), _ => Some(run[|run|-1].path))
  {
    ghost var s := run[|run|-1];
    RunFacts(m, h, partial, run, left);
    HeadFacts(m, h, nodes, s.path);
    TracksIds(m, h, nodes, s, words, cache, state, calls);
    var ids := StackIds(calls, s.path);
    longest := seq(|h| / 2, _ => Some(ids));
  }

  // ----- The checker -----

  /** Builds the list with its head sentinel. */
  method BuildList<V>(h: seq<Entry<V>>) returns (head: Node<V>, first: Node?<V>, n: nat, ghost nodes: seq<Node<V>>)
    requires WellFormed(h)
    ensures forall k :: 0 <= k < |nodes| ==> fresh(nodes[k])
    ensures Shape(nodes, h) && ListOk(nodes, h, [], Nexts(nodes), Prevs(nodes)) && head == nodes[0]
    ensures first == NodeAt(nodes, NextLive(Live(h, []), 0, |h| + 1)) && n == Count(h)
  {
    var entry, ns := MakeLinkedEntries(h);
    var length := Length(entry, ns);
    n := length / 2;
    head := new Node(None, null, -1, 0);
    Prepend(head, entry, ns);
    nodes := [head] + ns;
    assert nodes[1..] == ns;
    InitialListOk(nodes, h);
    AllLive(h, 0);
    first := entry;
  }

  /** Every recorded sequence is a partial linearization that contains the operation. */
  ghost predicate RecordsOk<S(!new), V(!new)>(m: Model<S, V>, ops: seq<Operation<V>>, longest: seq<Option<seq<nat>>>) {
    && |longest| == |ops|
    && forall id: nat :: id < |longest| && longest[id].Some? ==>
         id in longest[id].value && IsPartialLinearization(m, ops, longest[id].value)
  }

  /** No partial linearization is longer than what is recorded for the operations in it. */
  ghost predicate RecordsLongest<S(!new), V(!new)>(m: Model<S, V>, ops: seq<Operation<V>>,
        longest: seq<Option<seq<nat>>>)
    requires |longest| == |ops|
  {
    forall p, id: nat :: IsPartialLinearization(m, ops, p) && id in p ==>
      id < |longest| && longest[id].Some? && |longest[id].value| >= |p|
  }

  lemma LongestRecordsOk<S(!new), V(!new)>(m: Model<S, V>, h: seq<Entry<V>>, longest: seq<Option<seq<nat>>>)
    requires WellFormed(h) && LongestOk(m, h, longest)
    ensures RecordsOk(m, OpsOf(h), longest)
  {
    forall id: nat | id < |longest| && longest[id].Some?
      ensures IsPartialLinearization(m, OpsOf(h), longest[id].value)
    {
      PartialIffContinues(m, OpsOf(h), longest[id].value);
    }
  }

  /** A full linearization is the longest record for everything. */
  lemma FullRecords<S(!new), V(!new)>(m: Model<S, V>, ops: seq<Operation<V>>, p: seq<nat>,
        longest: seq<Option<seq<nat>>>)
    requires IsLinearization(m, ops, p) && longest == seq(|ops|, _ => Some(p))
    ensures RecordsOk(m, ops, longest) && RecordsLongest(m, ops, longest)
  {
    FullIffPartial(m, ops, p);
    DistinctBounded(p, |ops|);
    forall q, id: nat | IsPartialLinearization(m, ops, q) && id in q
      ensures id < |longest| && longest[id].Some? && |longest[id].value| >= |q|
    {
      DistinctBounded(q, |ops|);
    }
  }

  /** What the end of a run that was not killed says about the history. */
  lemma Verdict<S(!new), V(!new)>(m: Model<S, V>, h: seq<Entry<V>>, partial: bool, run: seq<State<S>>, left: nat,
        ok: bool, killed: bool, longest: seq<Option<seq<nat>>>)
    requires Lawful(m) && WellFormed(h) && Runs(m, h, partial, run, left)
    requires killed ==> !ok
    requires var s := run[|run|-1];
      && (ok ==> |s.path| == Count(h) && longest == seq(Count(h), _ => Some(s.path)))
      && (!ok ==> longest == s.longest)
      && (!ok && !killed ==> |s.path| < Count(h) && 1 <= s.pos <= |h| && Nth(h, s.pos).isReturn && s.path == [])
    ensures !killed ==> (ok <==> Linearizable(m, OpsOf(h)))
    ensures RecordsOk(m, OpsOf(h), longest)
    ensures !killed && (ok || partial) ==> RecordsLongest(m, OpsOf(h), longest)
  {
    var s := run[|run|-1];
    assert Open(0, run);
    RunKeepsInv(m, h, partial, run);
    if ok {
      StoppedOnEmptyList(m, h, partial, s);
      FullRecords(m, OpsOf(h), s.path, longest);
    } else {
      LongestRecordsOk(m, h, longest);
      if !killed {
        StoppedOnReturn(m, h, partial, s);
        if partial {
          forall p, id: nat | IsPartialLinearization(m, OpsOf(h), p) && id in p
            ensures id < |longest| && longest[id].Some? && |longest[id].value| >= |p|
          {
          }
        }
      }
    }
  }

  /**
   Decides whether a history is linearizable.  `kill(i)` is what the i-th round reads from the
   shared flag that lets another goroutine stop the search.
   */
  method CheckSingle<S(!new), V(!new)>(m: Model<S, V>, h: seq<Entry<V>>, computePartial: bool, kill: nat -> bool)
    returns (ok: bool, longest: seq<Option<seq<nat>>>, ghost killed: bool)
    requires Lawful(m) && WellFormed(h)
    ensures killed ==> !ok && exists i :: kill(i)
    ensures !killed ==> (ok <==> Linearizable(m, OpsOf(h)))
    ensures RecordsOk(m, OpsOf(h), longest)
    ensures !killed && (ok || computePartial) ==> RecordsLongest(m, OpsOf(h), longest)
  {
    var head, first, n, nodes := BuildList(h);
    var linearized := NewBitset(n);
    ghost var run, left;
    ok, longest, killed, run, left := Rounds(m, h, computePartial, kill, head, first, linearized, nodes);
    Verdict(m, h, computePartial, run, left, ok, killed, longest);
  }
}
