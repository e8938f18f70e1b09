/**
 The search of checkSingle (src/porcupine/checker.go) as an abstract state machine, and
 why it is right.  The state is the stack of linearized operations, the position reached in
 the list of remaining entries, the (linearized set, model state) pairs seen so far,
 and the longest partial linearization recorded for each operation.

 Entries are numbered from 1; number 0 is the head sentinel of the list and |h| + 1 is nil.
 */
module Search {
  import opened Sealing
  import opened Histories
  import opened Entries

  datatype State<+S> = State(
    path: seq<nat>,
    pos: nat,
    visited: seq<(set<nat>, S)>,
    longest: seq<Option<seq<nat>>>)

  // ----- The list of entries that remain -----

  /** Entry number `i`. */
  function Nth<V>(h: seq<Entry<V>>, i: nat): Entry<V>
    requires 1 <= i <= |h|
  {
    h[i-1]
  }

  /** Entry numbers still in the list once the operations of `path` are lifted out. */
  ghost function Live<V>(h: seq<Entry<V>>, path: seq<nat>): (r: set<nat>)
    ensures 0 in r
    ensures forall i :: i in r ==> 0 <= i <= |h|
    ensures forall i :: 1 <= i <= |h| ==> (i in r <==> Nth(h, i).id !in path)
  {
    {0} + (set i | 1 <= i <= |h| && Nth(h, i).id !in path)
  }

  /** The first number after `i` in `live`, or `nil` if there is none below it. */
  ghost function NextLive(live: set<nat>, i: nat, nil: nat): (r: nat)
    requires i < nil
    ensures i < r <= nil
    ensures r < nil ==> r in live
    ensures forall j :: i < j < r ==> j !in live
    decreases nil - i
  {
    if i + 1 == nil || i + 1 in live then i + 1 else NextLive(live, i + 1, nil)
  }

  // ----- The transitions -----

  ghost function StateAt<S, V>(m: Model<S, V>, h: seq<Entry<V>>, p: seq<nat>): S
    requires WellFormed(h) && PathOk(m, h, p)
  {
    ContinuesIds(m, OpsOf(h), {}, m.init, p);
    Run(m, OpsOf(h), m.init, p).value
  }

  /** What the model says about linearizing `x` after `p`. */
  ghost function StepAt<S, V>(m: Model<S, V>, h: seq<Entry<V>>, p: seq<nat>, x: nat): (bool, S)
    requires WellFormed(h) && PathOk(m, h, p) && x < Count(h)
  {
    m.step(StateAt(m, h, p), OpsOf(h)[x].input, OpsOf(h)[x].output)
  }

  /** `entry = entry.next` */
  ghost function Advance<S, V>(h: seq<Entry<V>>, s: State<S>): State<S>
    requires s.pos <= |h|
  {
    s.(pos := NextLive(Live(h, s.path), s.pos, |h| + 1))
  }

  /** Linearize `x`, remember the pair reached, and restart from the head of the list. */
  ghost function Push<S, V>(h: seq<Entry<V>>, s: State<S>, x: nat, t: S): State<S> {
    s.(path := s.path + [x],
       pos := NextLive(Live(h, s.path + [x]), 0, |h| + 1),
       visited := s.visited + [(Elems(s.path + [x]), t)])
  }

  /** Undo the last linearized operation and go on after its call. */
  ghost function Pop<S, V>(h: seq<Entry<V>>, s: State<S>, partial: bool): State<S>
    requires WellFormed(h) && s.path != [] && Ids(s.path, Count(h)) && |s.longest| == Count(h)
  {
    var p := s.path[..|s.path|-1];
    s.(path := p,
       pos := NextLive(Live(h, p), CallOf(h, s.path[|s.path|-1]) + 1, |h| + 1),
       longest := if partial then Record(s.longest, s.path) else s.longest)
  }

  /** `p` replaces every shorter record of an operation that it contains. */
  ghost function Record(longest: seq<Option<seq<nat>>>, p: seq<nat>): (r: seq<Option<seq<nat>>>)
    ensures |r| == |longest|
  {
    seq(|longest|, id requires 0 <= id < |longest| =>
      if id in p && (longest[id].None? || |p| > |longest[id].value|) then Some(p) else longest[id])
  }

  // ----- The invariant -----

  ghost predicate PathOk<S, V>(m: Model<S, V>, h: seq<Entry<V>>, p: seq<nat>)
    requires WellFormed(h)
  {
    Continues(m, OpsOf(h), {}, m.init, p)
  }

  /** While operations remain, the position is a listed entry that only calls come before. */
  ghost predicate PosOk<S, V>(h: seq<Entry<V>>, s: State<S>) {
    |s.path| < Count(h) ==>
      && 1 <= s.pos <= |h|
      && Nth(h, s.pos).id !in s.path
      && forall i :: 1 <= i < s.pos && Nth(h, i).id !in s.path ==> !Nth(h, i).isReturn
  }

  /** No continuation `q` of (done, t) is complete or missing from the records. */
  ghost predicate Covered<V>(h: seq<Entry<V>>, partial: bool, longest: seq<Option<seq<nat>>>, done: set<nat>,
        q: seq<nat>) {
    && |done| + |q| < Count(h)
    && (partial ==> forall id: nat :: id < |longest| && (id in done || id in q) ==>
          longest[id].Some? && |longest[id].value| >= |done| + |q|)
  }

  /** Everything reachable from the pair (done, t) has been tried and recorded, in vain. */
  ghost predicate Explored<S, V>(m: Model<S, V>, h: seq<Entry<V>>, partial: bool, longest: seq<Option<seq<nat>>>,
        done: set<nat>, t: S)
    requires WellFormed(h)
  {
    forall q {:trigger Covered(h, partial, longest, done, q)} ::
      Continues(m, OpsOf(h), done, t, q) ==> Covered(h, partial, longest, done, q)
  }

  /** Linearizing `x` after `p` is refused by the model or leads nowhere new. */
  ghost predicate ChildExplored<S, V>(m: Model<S, V>, h: seq<Entry<V>>, partial: bool, longest: seq<Option<seq<nat>>>,
        p: seq<nat>, x: nat)
    requires WellFormed(h) && PathOk(m, h, p) && x < Count(h)
  {
    StepAt(m, h, p, x).0 ==> Explored(m, h, partial, longest, Elems(p) + {x}, StepAt(m, h, p, x).1)
  }

  /**
   The scan of the operations that may follow `p` has dealt with every call before entry `f`;
   not looked into by default.
   */
  ghost predicate LevelOk<S, V>(m: Model<S, V>, h: seq<Entry<V>>, partial: bool, longest: seq<Option<seq<nat>>>,
        p: seq<nat>, f: nat)
    requires WellFormed(h)
  {
    PathOk(m, h, p) && forall k: nat :: Open(k, p) ==> ScannedTo(m, h, partial, longest, p, f)
  }

  ghost predicate ScannedTo<S, V>(m: Model<S, V>, h: seq<Entry<V>>, partial: bool, longest: seq<Option<seq<nat>>>,
        p: seq<nat>, f: nat)
    requires WellFormed(h) && PathOk(m, h, p)
  {
    forall x {:trigger ChildExplored(m, h, partial, longest, p, x)} ::
      Ready(OpsOf(h), Elems(p), x) && CallOf(h, x) + 1 < f ==> ChildExplored(m, h, partial, longest, p, x)
  }

  /** Where the scan of level `k` of the stack stands. */
  ghost function Frontier<V>(h: seq<Entry<V>>, path: seq<nat>, pos: nat, k: nat): nat
    requires WellFormed(h) && k <= |path| && Ids(path, Count(h))
  {
    if k < |path| then CallOf(h, path[k]) + 1 else pos
  }

  ghost predicate LevelsOk<S, V>(m: Model<S, V>, h: seq<Entry<V>>, partial: bool, longest: seq<Option<seq<nat>>>,
        path: seq<nat>, pos: nat)
    requires WellFormed(h) && Ids(path, Count(h))
  {
    forall k: nat {:trigger Frontier(h, path, pos, k)} :: k <= |path| ==>
      LevelOk(m, h, partial, longest, path[..k], Frontier(h, path, pos, k))
  }

  ghost predicate OnStack<S, V>(m: Model<S, V>, h: seq<Entry<V>>, p: seq<nat>, k: nat, e: (set<nat>, S))
    requires WellFormed(h) && PathOk(m, h, p)
  {
    && 1 <= k <= |p|
    && PathOk(m, h, p[..k])
    && e == (Elems(p[..k]), StateAt(m, h, p[..k]))
  }

  /** A pair seen before is either an ancestor of the current one or of no further use. */
  ghost predicate VisitedOk<S, V>(m: Model<S, V>, h: seq<Entry<V>>, partial: bool, longest: seq<Option<seq<nat>>>,
        path: seq<nat>, visited: seq<(set<nat>, S)>)
    requires WellFormed(h) && PathOk(m, h, path)
  {
    forall e :: e in visited ==>
      (exists k :: OnStack(m, h, path, k, e)) || Explored(m, h, partial, longest, e.0, e.1)
  }

  ghost predicate LongestOk<S, V>(m: Model<S, V>, h: seq<Entry<V>>, longest: seq<Option<seq<nat>>>)
    requires WellFormed(h)
  {
    && |longest| == Count(h)
    && forall id: nat :: id < |longest| && longest[id].Some? ==>
         id in longest[id].value && PathOk(m, h, longest[id].value)
  }

  ghost predicate Inv<S(!new), V>(m: Model<S, V>, h: seq<Entry<V>>, partial: bool, s: State<S>) {
    && WellFormed(h)
    && PathOk(m, h, s.path)
    && Ids(s.path, Count(h))
    && PosOk(h, s)
    && LongestOk(m, h, s.longest)
    && VisitedOk(m, h, partial, s.longest, s.path, s.visited)
    && LevelsOk(m, h, partial, s.longest, s.path, s.pos)
  }

  /** The cache test: a pair with the same set and an `equal` state has been seen. */
  ghost predicate Seen<S(!new), V>(m: Model<S, V>, visited: seq<(set<nat>, S)>, done: set<nat>, t: S) {
    exists e :: e in visited && e.0 == done && m.equal(t, e.1)
  }

  // ----- Preservation -----

  lemma PathFacts<S, V>(m: Model<S, V>, h: seq<Entry<V>>, p: seq<nat>)
    requires WellFormed(h) && PathOk(m, h, p)
    ensures Ids(p, Count(h)) && Distinct(p) && |Elems(p)| == |p| <= Count(h)
    ensures |p| < Count(h) ==> exists x: nat :: x < Count(h) && x !in p
  {
    ContinuesIds(m, OpsOf(h), {}, m.init, p);
    DistinctBounded(p, Count(h));
    if forall x: nat :: x < Count(h) ==> x in p {
      assert Below(Count(h)) <= Elems(p);
      SubsetSize(Below(Count(h)), Elems(p));
    }
  }

  /** Readiness in terms of the positions of calls and returns. */
  lemma ReadyInEntries<V>(h: seq<Entry<V>>, done: set<nat>, x: nat)
    requires WellFormed(h)
    ensures Ready(OpsOf(h), done, x) <==>
      x < Count(h) && x !in done && forall y: nat :: y < Count(h) && y !in done ==> CallOf(h, x) < ReturnOf(h, y)
  {
    if x < Count(h) {
      forall y: nat | y < Count(h)
        ensures Precedes(OpsOf(h), y, x) <==> !(CallOf(h, x) < ReturnOf(h, y))
      {
        assert !h[CallOf(h, x)].isReturn && h[ReturnOf(h, y)].isReturn;
      }
    }
  }

  /** No listed return comes before the call of a ready operation. */
  lemma ReturnNotBefore<V>(h: seq<Entry<V>>, done: set<nat>, x: nat, i: nat)
    requires WellFormed(h) && Ready(OpsOf(h), done, x)
    requires 1 <= i <= |h| && Nth(h, i).isReturn && Nth(h, i).id !in done
    ensures CallOf(h, x) + 1 < i
  {
    ReadyInEntries(h, done, x);
    assert ReturnOf(h, Nth(h, i).id) + 1 == i;
  }

  /** The call at the current position may be linearized next. */
  lemma CallIsReady<S(!new), V>(h: seq<Entry<V>>, s: State<S>)
    requires WellFormed(h)
    requires PosOk(h, s) && |s.path| < Count(h)
    requires !Nth(h, s.pos).isReturn
    ensures Ready(OpsOf(h), Elems(s.path), Nth(h, s.pos).id)
    ensures CallOf(h, Nth(h, s.pos).id) + 1 == s.pos
  {
    var x := Nth(h, s.pos).id;
    forall y: nat | y < Count(h) && y !in Elems(s.path)
      ensures CallOf(h, x) < ReturnOf(h, y)
    {
      var i := ReturnOf(h, y) + 1;
      assert Nth(h, i).isReturn;
    }
    ReadyInEntries(h, Elems(s.path), x);
  }

  ghost predicate Grown(l: seq<Option<seq<nat>>>, l': seq<Option<seq<nat>>>) {
    && |l| == |l'|
    && forall id :: 0 <= id < |l| && l[id].Some? ==> l'[id].Some? && |l'[id].value| >= |l[id].value|
  }

  /** Growing the records keeps explored pairs explored. */
  lemma ExploredMono<S(!new), V>(m: Model<S, V>, h: seq<Entry<V>>, partial: bool, l: seq<Option<seq<nat>>>,
        l': seq<Option<seq<nat>>>, done: set<nat>, t: S)
    requires WellFormed(h) && Grown(l, l')
    requires Explored(m, h, partial, l, done, t)
    ensures Explored(m, h, partial, l', done, t)
  {
    forall q | Continues(m, OpsOf(h), done, t, q)
      ensures Covered(h, partial, l', done, q)
    {
      assert Covered(h, partial, l, done, q);
    }
  }

  /** A pair that has been seen, and is not on the stack, makes its `equal` twin explored. */
  lemma SeenIsExplored<S(!new), V(!new)>(m: Model<S, V>, h: seq<Entry<V>>, partial: bool, s: State<S>, done: set<nat>,
        t: S)
    requires Lawful(m) && WellFormed(h) && PathOk(m, h, s.path) &&
      VisitedOk(m, h, partial, s.longest, s.path, s.visited)
    requires Seen(m, s.visited, done, t)
    requires |done| > |s.path|
    ensures Explored(m, h, partial, s.longest, done, t)
  {
    var e :| e in s.visited && e.0 == done && m.equal(t, e.1);
    if k: nat :| OnStack(m, h, s.path, k, e) {
      PathFacts(m, h, s.path[..k]);
      assert false;
    }
    forall q | Continues(m, OpsOf(h), done, t, q)
      ensures Covered(h, partial, s.longest, done, q)
    {
      ContinuesCongruent(m, OpsOf(h), done, t, e.1, q);
    }
  }

  /** The scan of a level may move past the call at its frontier once that call is explored. */
  lemma AdvanceKeepsLevel<S(!new), V(!new)>(m: Model<S, V>, h: seq<Entry<V>>, partial: bool,
        longest: seq<Option<seq<nat>>>, p: seq<nat>, f: nat)
    requires WellFormed(h) && 1 <= f <= |h| && !Nth(h, f).isReturn
    requires LevelOk(m, h, partial, longest, p, f)
    requires ChildExplored(m, h, partial, longest, p, Nth(h, f).id)
    ensures LevelOk(m, h, partial, longest, p, NextLive(Live(h, p), f, |h| + 1))
  {
    assert ScannedTo(m, h, partial, longest, p, f) by { assert Open(0, p); }
    forall y | Ready(OpsOf(h), Elems(p), y) && CallOf(h, y) + 1 < NextLive(Live(h, p), f, |h| + 1)
      ensures ChildExplored(m, h, partial, longest, p, y)
    {
      NotBetween(h, p, y, f);
    }
  }

  /** Between an entry and the next one in the list there is no call that could be linearized. */
  lemma NotBetween<V>(h: seq<Entry<V>>, p: seq<nat>, y: nat, f: nat)
    requires WellFormed(h) && 1 <= f <= |h| && Ready(OpsOf(h), Elems(p), y) &&
      CallOf(h, y) + 1 < NextLive(Live(h, p), f, |h| + 1)
    ensures CallOf(h, y) + 1 < f || y == Nth(h, f).id
  {
    var i := CallOf(h, y) + 1;
    assert Nth(h, i).id == y;
    assert i in Live(h, p);
  }

  /** Moving on from a call that is refused, or leads to a pair already seen, loses nothing. */
  lemma AdvanceKeepsInv<S(!new), V(!new)>(m: Model<S, V>, h: seq<Entry<V>>, partial: bool, s: State<S>)
    requires Lawful(m) && Inv(m, h, partial, s) && |s.path| < Count(h)
    requires !Nth(h, s.pos).isReturn
    requires var x := Nth(h, s.pos).id;
      StepAt(m, h, s.path, x).0 ==> Seen(m, s.visited, Elems(s.path + [x]), StepAt(m, h, s.path, x).1)
    ensures Inv(m, h, partial, Advance(h, s))
    ensures Advance(h, s).pos <= |h|
  {
    var x := Nth(h, s.pos).id;
    var s' := Advance(h, s);
    assert ChildExplored(m, h, partial, s.longest, s.path, x) by {
      if StepAt(m, h, s.path, x).0 {
        PathFacts(m, h, s.path);
        assert Elems(s.path + [x]) == Elems(s.path) + {x};
        SeenIsExplored(m, h, partial, s, Elems(s.path) + {x}, StepAt(m, h, s.path, x).1);
      }
    }
    AdvanceKeepsPos(h, s);
    forall k: nat | k <= |s.path|
      ensures LevelOk(m, h, partial, s.longest, s.path[..k], Frontier(h, s.path, s'.pos, k))
    {
      assert LevelOk(m, h, partial, s.longest, s.path[..k], Frontier(h, s.path, s.pos, k));
      if k == |s.path| {
        assert s.path[..k] == s.path;
        AdvanceKeepsLevel(m, h, partial, s.longest, s.path, s.pos);
      }
    }
  }

  lemma AdvanceKeepsPos<S, V>(h: seq<Entry<V>>, s: State<S>)
    requires WellFormed(h) && PosOk(h, s) && |s.path| < Count(h)
    requires !Nth(h, s.pos).isReturn
    ensures PosOk(h, Advance(h, s)) && Advance(h, s).pos <= |h|
  {
    var i := ReturnOf(h, Nth(h, s.pos).id) + 1;
    assert Nth(h, i).id == Nth(h, s.pos).id;
    assert i in Live(h, s.path);
  }

  lemma PushKeepsPos<S, V>(m: Model<S, V>, h: seq<Entry<V>>, s: State<S>, x: nat, t: S)
    requires WellFormed(h) && PathOk(m, h, s.path + [x])
    ensures PosOk(h, Push(h, s, x, t))
  {
    var p := s.path + [x];
    PathFacts(m, h, p);
    if |p| < Count(h) {
      var y: nat :| y < Count(h) && y !in p;
      var i := CallOf(h, y) + 1;
      assert Nth(h, i).id == y;
      assert i in Live(h, p);
    }
  }

  /** A new level starts at the head of the list, so nothing lies before its frontier. */
  lemma FreshLevel<S(!new), V(!new)>(m: Model<S, V>, h: seq<Entry<V>>, partial: bool, longest: seq<Option<seq<nat>>>,
        p: seq<nat>)
    requires WellFormed(h) && PathOk(m, h, p)
    ensures LevelOk(m, h, partial, longest, p, NextLive(Live(h, p), 0, |h| + 1))
  {
    forall y | Ready(OpsOf(h), Elems(p), y)
      ensures !(CallOf(h, y) + 1 < NextLive(Live(h, p), 0, |h| + 1))
    {
      var i := CallOf(h, y) + 1;
      assert Nth(h, i).id == y;
      assert i in Live(h, p);
    }
  }

  lemma PushKeepsVisited<S(!new), V(!new)>(m: Model<S, V>, h: seq<Entry<V>>, partial: bool, s: State<S>, x: nat, t: S)
    requires WellFormed(h) && PathOk(m, h, s.path) && PathOk(m, h, s.path + [x]) && StateAt(m, h, s.path + [x]) == t
    requires VisitedOk(m, h, partial, s.longest, s.path, s.visited)
    ensures VisitedOk(m, h, partial, s.longest, s.path + [x], s.visited + [(Elems(s.path + [x]), t)])
  {
    var p' := s.path + [x];
    forall e | e in s.visited + [(Elems(p'), t)]
      ensures (exists k :: OnStack(m, h, p', k, e)) || Explored(m, h, partial, s.longest, e.0, e.1)
    {
      if e in s.visited {
        if k: nat :| OnStack(m, h, s.path, k, e) {
          assert p'[..k] == s.path[..k];
          assert OnStack(m, h, p', k, e);
        }
      } else {
        assert p'[..|p'|] == p';
        assert OnStack(m, h, p', |p'|, e);
      }
    }
  }

  /** A ready operation that the model accepts extends the path. */
  lemma PathSnoc<S(!new), V>(m: Model<S, V>, h: seq<Entry<V>>, p: seq<nat>, x: nat)
    requires WellFormed(h) && PathOk(m, h, p)
    requires Ready(OpsOf(h), Elems(p), x) && StepAt(m, h, p, x).0
    ensures PathOk(m, h, p + [x]) && StateAt(m, h, p + [x]) == StepAt(m, h, p, x).1
  {
    assert {} + Elems(p) == Elems(p);
    ContinuesIds(m, OpsOf(h), {}, m.init, p);
    ContinuesSnoc(m, OpsOf(h), {}, m.init, p, x);
  }

  /** Linearizing a call that the model accepts keeps the invariant. */
  lemma PushKeepsInv<S(!new), V(!new)>(m: Model<S, V>, h: seq<Entry<V>>, partial: bool, s: State<S>)
    requires Inv(m, h, partial, s) && |s.path| < Count(h)
    requires !Nth(h, s.pos).isReturn
    requires StepAt(m, h, s.path, Nth(h, s.pos).id).0
    ensures var x := Nth(h, s.pos).id;
      var t := StepAt(m, h, s.path, x).1;
      && PathOk(m, h, s.path + [x])
      && StateAt(m, h, s.path + [x]) == t
      && Inv(m, h, partial, Push(h, s, x, t))
  {
    var x := Nth(h, s.pos).id;
    var t := StepAt(m, h, s.path, x).1;
    var s' := Push(h, s, x, t);
    CallIsReady(h, s);
    PathSnoc(m, h, s.path, x);
    PathFacts(m, h, s'.path);
    PushKeepsPos(m, h, s, x, t);
    PushKeepsVisited(m, h, partial, s, x, t);
    forall k: nat | k <= |s'.path|
      ensures LevelOk(m, h, partial, s.longest, s'.path[..k], Frontier(h, s'.path, s'.pos, k))
    {
      if k <= |s.path| {
        assert s'.path[..k] == s.path[..k];
        assert Frontier(h, s'.path, s'.pos, k) == Frontier(h, s.path, s.pos, k);
      } else {
        assert s'.path[..k] == s'.path;
        FreshLevel(m, h, partial, s.longest, s'.path);
      }
    }
  }

  /** An explored child covers every continuation that starts with it. */
  lemma ChildCovers<S(!new), V(!new)>(m: Model<S, V>, h: seq<Entry<V>>, partial: bool, longest: seq<Option<seq<nat>>>,
        p: seq<nat>, q: seq<nat>)
    requires WellFormed(h) && PathOk(m, h, p) && q != [] && q[0] < Count(h)
    requires Continues(m, OpsOf(h), Elems(p), StateAt(m, h, p), q)
    requires ChildExplored(m, h, partial, longest, p, q[0])
    ensures Covered(h, partial, longest, Elems(p), q)
  {
    assert Covered(h, partial, longest, Elems(p) + {q[0]}, q[1..]);
    assert forall id :: id in q <==> id == q[0] || id in q[1..];
  }

  /** A listed return has been reached: every operation that could come next has been tried. */
  lemma ReturnReached<S(!new), V(!new)>(m: Model<S, V>, h: seq<Entry<V>>, partial: bool, s: State<S>)
    requires WellFormed(h) && PathOk(m, h, s.path) && Ids(s.path, Count(h)) && PosOk(h, s) && |s.path| < Count(h)
    requires LevelOk(m, h, partial, s.longest, s.path, s.pos)
    requires Nth(h, s.pos).isReturn
    ensures forall q :: q != [] && Continues(m, OpsOf(h), Elems(s.path), StateAt(m, h, s.path), q) ==>
      Covered(h, partial, s.longest, Elems(s.path), q)
  {
    assert Open(0, s.path);
    forall q | q != [] && Continues(m, OpsOf(h), Elems(s.path), StateAt(m, h, s.path), q)
      ensures Covered(h, partial, s.longest, Elems(s.path), q)
    {
      assert CallOf(h, q[0]) + 1 < s.pos by {
        ReturnNotBefore(h, Elems(s.path), q[0], s.pos);
      }
      ChildCovers(m, h, partial, s.longest, s.path, q);
    }
  }

  /** Once its path is recorded, the pair being left behind is explored. */
  lemma PopExplores<S(!new), V(!new)>(m: Model<S, V>, h: seq<Entry<V>>, partial: bool, s: State<S>)
    requires WellFormed(h) && PathOk(m, h, s.path) && Ids(s.path, Count(h)) && PosOk(h, s) && |s.path| < Count(h)
    requires LevelOk(m, h, partial, s.longest, s.path, s.pos)
    requires |s.longest| == Count(h)
    requires Nth(h, s.pos).isReturn && s.path != []
    ensures Explored(m, h, partial, Pop(h, s, partial).longest, Elems(s.path), StateAt(m, h, s.path))
  {
    var l := Pop(h, s, partial).longest;
    RecordGrows(s.longest, s.path);
    ReturnReached(m, h, partial, s);
    PathFacts(m, h, s.path);
    forall q | Continues(m, OpsOf(h), Elems(s.path), StateAt(m, h, s.path), q)
      ensures Covered(h, partial, l, Elems(s.path), q)
    {
      if q != [] {
        assert Covered(h, partial, s.longest, Elems(s.path), q);
      }
    }
  }

  lemma RecordGrows(longest: seq<Option<seq<nat>>>, p: seq<nat>)
    ensures Grown(longest, Record(longest, p))
    ensures forall id: nat :: id < |longest| && id in p ==>
      Record(longest, p)[id].Some? && |Record(longest, p)[id].value| >= |p|
  {
  }

  /** Where the scan resumes after a pop is again preceded by calls only. */
  lemma PopKeepsPos<S(!new), V(!new)>(m: Model<S, V>, h: seq<Entry<V>>, partial: bool, s: State<S>)
    requires WellFormed(h) && PathOk(m, h, s.path) && Ids(s.path, Count(h)) && |s.longest| == Count(h) && s.path != []
    ensures PosOk(h, Pop(h, s, partial)) && Pop(h, s, partial).pos <= |h|
  {
    var p := s.path[..|s.path|-1];
    var s' := Pop(h, s, partial);
    var x := s.path[|s.path|-1];
    assert s.path == p + [x];
    LastReady(m, h, p, x);
    NextIsInList(h, p, x);
    forall i | 1 <= i < s'.pos && Nth(h, i).id !in p
      ensures !Nth(h, i).isReturn
    {
      NoReturnBefore(h, p, x, i);
    }
  }

  /** Behind a call that is in the list there is its return. */
  lemma NextIsInList<V>(h: seq<Entry<V>>, p: seq<nat>, x: nat)
    requires WellFormed(h) && x < Count(h) && x !in p
    ensures NextLive(Live(h, p), CallOf(h, x) + 1, |h| + 1) <= ReturnOf(h, x) + 1 <= |h|
  {
    var r := ReturnOf(h, x) + 1;
    assert Nth(h, r).id == x;
    assert r in Live(h, p);
  }

  /** Up to a call that is ready, and the next entry behind it, there is no return. */
  lemma NoReturnBefore<V>(h: seq<Entry<V>>, p: seq<nat>, x: nat, i: nat)
    requires WellFormed(h) && Ready(OpsOf(h), Elems(p), x) && 1 <= i <= |h| && Nth(h, i).id !in p
    requires i < NextLive(Live(h, p), CallOf(h, x) + 1, |h| + 1)
    ensures !Nth(h, i).isReturn
  {
    assert i in Live(h, p);
    if Nth(h, i).isReturn {
      ReturnNotBefore(h, Elems(p), x, i);
    }
  }

  /** Backtracking from a listed return keeps the invariant. */
  lemma PopKeepsInv<S(!new), V(!new)>(m: Model<S, V>, h: seq<Entry<V>>, partial: bool, s: State<S>)
    requires Inv(m, h, partial, s) && |s.path| < Count(h)
    requires Nth(h, s.pos).isReturn && s.path != []
    ensures Inv(m, h, partial, Pop(h, s, partial))
    ensures Pop(h, s, partial).pos <= |h|
  {
    var s' := Pop(h, s, partial);
    assert s.path[..|s.path|] == s.path;
    assert Frontier(h, s.path, s.pos, |s.path|) == s.pos;
    PopExplores(m, h, partial, s);
    PopKeepsPos(m, h, partial, s);
    PopKeepsLongest(m, h, s.longest, s.path);
    RecordGrows(s.longest, s.path);
    PopKeepsLevels(m, h, partial, s.longest, s'.longest, s.path, s'.path, s.pos, s'.pos);
    PopKeepsVisited(m, h, partial, s);
  }

  lemma PopKeepsLongest<S(!new), V(!new)>(m: Model<S, V>, h: seq<Entry<V>>, longest: seq<Option<seq<nat>>>, p: seq<nat>)
    requires WellFormed(h) && PathOk(m, h, p) && LongestOk(m, h, longest)
    ensures LongestOk(m, h, Record(longest, p))
  {
  }

  lemma PopKeepsLevel<S(!new), V(!new)>(m: Model<S, V>, h: seq<Entry<V>>, partial: bool, l: seq<Option<seq<nat>>>,
        l': seq<Option<seq<nat>>>, path: seq<nat>, q: seq<nat>, pos: nat, pos': nat, k: nat)
    requires WellFormed(h) && PathOk(m, h, path) && Ids(path, Count(h)) && path != [] && Grown(l, l')
    requires q == path[..|path|-1] && Ids(q, Count(h)) && k <= |q|
    requires pos' == NextLive(Live(h, q), CallOf(h, path[|path|-1]) + 1, |h| + 1)
    requires LevelOk(m, h, partial, l, path[..k], Frontier(h, path, pos, k))
    requires Explored(m, h, partial, l', Elems(path), StateAt(m, h, path))
    ensures LevelOk(m, h, partial, l', q[..k], Frontier(h, q, pos', k))
  {
    assert q[..k] == path[..k];
    LevelAfterPop(m, h, partial, l, l', path, k);
  }

  lemma PopKeepsLevels<S(!new), V(!new)>(m: Model<S, V>, h: seq<Entry<V>>, partial: bool, l: seq<Option<seq<nat>>>,
        l': seq<Option<seq<nat>>>, path: seq<nat>, q: seq<nat>, pos: nat, pos': nat)
    requires WellFormed(h) && PathOk(m, h, path) && Ids(path, Count(h)) && path != [] && Grown(l, l')
    requires q == path[..|path|-1] && Ids(q, Count(h))
    requires pos' == NextLive(Live(h, q), CallOf(h, path[|path|-1]) + 1, |h| + 1)
    requires LevelsOk(m, h, partial, l, path, pos)
    requires Explored(m, h, partial, l', Elems(path), StateAt(m, h, path))
    ensures LevelsOk(m, h, partial, l', q, pos')
  {
    forall k: nat | k <= |q|
      ensures LevelOk(m, h, partial, l', q[..k], Frontier(h, q, pos', k))
    {
      assert LevelOk(m, h, partial, l, path[..k], Frontier(h, path, pos, k));
      PopKeepsLevel(m, h, partial, l, l', path, q, pos, pos', k);
    }
  }

  lemma PopKeepsVisited<S(!new), V(!new)>(m: Model<S, V>, h: seq<Entry<V>>, partial: bool, s: State<S>)
    requires WellFormed(h) && PathOk(m, h, s.path) && Ids(s.path, Count(h)) && |s.longest| == Count(h) && s.path != []
    requires VisitedOk(m, h, partial, s.longest, s.path, s.visited)
    requires Explored(m, h, partial, Pop(h, s, partial).longest, Elems(s.path), StateAt(m, h, s.path))
    ensures PathOk(m, h, s.path[..|s.path|-1])
    ensures VisitedOk(m, h, partial, Pop(h, s, partial).longest, s.path[..|s.path|-1], s.visited)
  {
    var s' := Pop(h, s, partial);
    ContinuesPrefix(m, OpsOf(h), {}, m.init, s.path, |s'.path|);
    RecordGrows(s.longest, s.path);
    forall e | e in s.visited
      ensures (exists k :: OnStack(m, h, s'.path, k, e)) || Explored(m, h, partial, s'.longest, e.0, e.1)
    {
      PopKeepsPair(m, h, partial, s.longest, s'.longest, s.path, s'.path, e);
    }
  }

  /** A pair that was on the stack or explored still is; the top of the stack is explored now. */
  lemma PopKeepsPair<S(!new), V(!new)>(m: Model<S, V>, h: seq<Entry<V>>, partial: bool, l: seq<Option<seq<nat>>>,
        l': seq<Option<seq<nat>>>, path: seq<nat>, q: seq<nat>, e: (set<nat>, S))
    requires WellFormed(h) && PathOk(m, h, path) && path != [] && q == path[..|path|-1] && PathOk(m, h, q) &&
      Grown(l, l')
    requires (exists k :: OnStack(m, h, path, k, e)) || Explored(m, h, partial, l, e.0, e.1)
    requires Explored(m, h, partial, l', Elems(path), StateAt(m, h, path))
    ensures (exists k :: OnStack(m, h, q, k, e)) || Explored(m, h, partial, l', e.0, e.1)
  {
    if k: nat :| OnStack(m, h, path, k, e) {
      PopKeepsOnStack(m, h, path, k, e);
    } else {
      ExploredMono(m, h, partial, l, l', e.0, e.1);
    }
  }

  /** What is on the stack, and not on top of it, is still there after the top has been taken off. */
  lemma PopKeepsOnStack<S(!new), V(!new)>(m: Model<S, V>, h: seq<Entry<V>>, path: seq<nat>, k: nat, e: (set<nat>, S))
    requires WellFormed(h) && PathOk(m, h, path) && path != [] && PathOk(m, h, path[..|path|-1]) &&
      OnStack(m, h, path, k, e)
    ensures k == |path| ==> e == (Elems(path), StateAt(m, h, path))
    ensures k != |path| ==> OnStack(m, h, path[..|path|-1], k, e)
  {
    var q := path[..|path|-1];
    if k == |path| {
      assert path[..k] == path;
    } else {
      assert q[..k] == path[..k];
    }
  }

  lemma ChildExploredMono<S(!new), V(!new)>(m: Model<S, V>, h: seq<Entry<V>>, partial: bool, l: seq<Option<seq<nat>>>,
        l': seq<Option<seq<nat>>>, p: seq<nat>, x: nat)
    requires WellFormed(h) && PathOk(m, h, p) && x < Count(h) && Grown(l, l')
    requires ChildExplored(m, h, partial, l, p, x)
    ensures ChildExplored(m, h, partial, l', p, x)
  {
    if StepAt(m, h, p, x).0 {
      ExploredMono(m, h, partial, l, l', Elems(p) + {x}, StepAt(m, h, p, x).1);
    }
  }

  /** A path explored to the end makes its last step an explored child. */
  lemma LastStepExplored<S(!new), V(!new)>(m: Model<S, V>, h: seq<Entry<V>>, partial: bool,
        longest: seq<Option<seq<nat>>>, p: seq<nat>, x: nat)
    requires WellFormed(h) && PathOk(m, h, p) && PathOk(m, h, p + [x])
    requires Ready(OpsOf(h), Elems(p), x)
    requires Explored(m, h, partial, longest, Elems(p + [x]), StateAt(m, h, p + [x]))
    ensures ChildExplored(m, h, partial, longest, p, x)
  {
    assert Elems(p) + {x} == Elems(p + [x]);
    if StepAt(m, h, p, x).0 {
      PathSnoc(m, h, p, x);
    }
  }

  lemma LevelMono<S(!new), V(!new)>(m: Model<S, V>, h: seq<Entry<V>>, partial: bool, l: seq<Option<seq<nat>>>,
        l': seq<Option<seq<nat>>>, p: seq<nat>, f: nat)
    requires WellFormed(h) && Grown(l, l') && LevelOk(m, h, partial, l, p, f)
    ensures LevelOk(m, h, partial, l', p, f)
  {
    assert Open(0, p);
    forall x | Ready(OpsOf(h), Elems(p), x) && CallOf(h, x) + 1 < f
      ensures ChildExplored(m, h, partial, l', p, x)
    {
      ChildExploredMono(m, h, partial, l, l', p, x);
    }
  }

  /** A level moves past the operation that was explored last. */
  lemma PopAdvances<S(!new), V(!new)>(m: Model<S, V>, h: seq<Entry<V>>, partial: bool, longest: seq<Option<seq<nat>>>,
        path: seq<nat>)
    requires WellFormed(h) && PathOk(m, h, path) && Ids(path, Count(h)) && path != []
    requires LevelOk(m, h, partial, longest, path[..|path|-1], CallOf(h, path[|path|-1]) + 1)
    requires Explored(m, h, partial, longest, Elems(path), StateAt(m, h, path))
    ensures var c := CallOf(h, path[|path|-1]) + 1;
      LevelOk(m, h, partial, longest, path[..|path|-1], NextLive(Live(h, path[..|path|-1]), c, |h| + 1))
  {
    var p, x := path[..|path|-1], path[|path|-1];
    assert path == p + [x];
    LastAdvances(m, h, partial, longest, p, x);
  }

  lemma LastAdvances<S(!new), V(!new)>(m: Model<S, V>, h: seq<Entry<V>>, partial: bool, longest: seq<Option<seq<nat>>>,
        p: seq<nat>, x: nat)
    requires WellFormed(h) && x < Count(h) && PathOk(m, h, p + [x])
    requires LevelOk(m, h, partial, longest, p, CallOf(h, x) + 1)
    requires Explored(m, h, partial, longest, Elems(p + [x]), StateAt(m, h, p + [x]))
    ensures LevelOk(m, h, partial, longest, p, NextLive(Live(h, p), CallOf(h, x) + 1, |h| + 1))
  {
    LastReady(m, h, p, x);
    LastStepExplored(m, h, partial, longest, p, x);
    AdvanceKeepsLevel(m, h, partial, longest, p, CallOf(h, x) + 1);
  }

  /** The last operation of a path was ready when it was taken. */
  lemma LastReady<S(!new), V(!new)>(m: Model<S, V>, h: seq<Entry<V>>, p: seq<nat>, x: nat)
    requires WellFormed(h) && PathOk(m, h, p + [x])
    ensures PathOk(m, h, p) && Ready(OpsOf(h), Elems(p), x)
  {
    var path := p + [x];
    ContinuesPrefix(m, OpsOf(h), {}, m.init, path, |p|);
    assert path[..|p|] == p && {} + Elems(p) == Elems(p);
  }

  /** The popped operation was the last one tried at its level, and it is explored now. */
  lemma LevelAfterPop<S(!new), V(!new)>(m: Model<S, V>, h: seq<Entry<V>>, partial: bool, l: seq<Option<seq<nat>>>,
        l': seq<Option<seq<nat>>>, path: seq<nat>, k: nat)
    requires WellFormed(h) && PathOk(m, h, path) && Ids(path, Count(h)) && k < |path| && Grown(l, l')
    requires LevelOk(m, h, partial, l, path[..k], CallOf(h, path[k]) + 1)
    requires Explored(m, h, partial, l', Elems(path), StateAt(m, h, path))
    ensures LevelOk(m, h, partial, l', path[..k],
      if k < |path| - 1 then CallOf(h, path[k]) + 1 else NextLive(Live(h, path[..k]), CallOf(h, path[k]) + 1, |h| + 1))
  {
    LevelMono(m, h, partial, l, l', path[..k], CallOf(h, path[k]) + 1);
    if k == |path| - 1 {
      PopAdvances(m, h, partial, l', path);
    }
  }

  // ----- What the search has found out when it stops -----

  /** The list is empty: the stack is a linearization. */
  lemma StoppedOnEmptyList<S(!new), V(!new)>(m: Model<S, V>, h: seq<Entry<V>>, partial: bool, s: State<S>)
    requires Inv(m, h, partial, s) && |s.path| == Count(h)
    ensures IsLinearization(m, OpsOf(h), s.path)
  {
    PartialIffContinues(m, OpsOf(h), s.path);
    FullIffPartial(m, OpsOf(h), s.path);
  }

  /** A return is reached with an empty stack: no linearization exists, and the records are the best there is. */
  lemma StoppedOnReturn<S(!new), V(!new)>(m: Model<S, V>, h: seq<Entry<V>>, partial: bool, s: State<S>)
    requires Inv(m, h, partial, s) && |s.path| < Count(h)
    requires Nth(h, s.pos).isReturn && s.path == []
    ensures !Linearizable(m, OpsOf(h))
    ensures partial ==> forall p, id :: IsPartialLinearization(m, OpsOf(h), p) && id in p ==>
      s.longest[id].Some? && |s.longest[id].value| >= |p|
  {
    assert s.path[..|s.path|] == s.path;
    assert Frontier(h, s.path, s.pos, |s.path|) == s.pos;
    ReturnReached(m, h, partial, s);
    assert Elems(s.path) == {};
    var n := Count(h);
    forall p | IsPartialLinearization(m, OpsOf(h), p)
      ensures |p| < Count(h)
      ensures partial ==> forall id :: id in p ==> s.longest[id].Some? && |s.longest[id].value| >= |p|
    {
      PartialIffContinues(m, OpsOf(h), p);
      assert Covered(h, partial, s.longest, {}, p);
    }
    if p :| IsLinearization(m, OpsOf(h), p) {
      FullIffPartial(m, OpsOf(h), p);
      assert false;
    }
  }

  // ----- Termination -----

  /** All sequences of at most `k` ids below `n`. */
  ghost function Sequences(n: nat, k: nat): set<seq<nat>> {
    if k == 0 then {[]}
    else Sequences(n, k - 1) + (set p, x | p in Sequences(n, k - 1) && x in Below(n) :: p + [x])
  }

  lemma {:induction false} InSequences(p: seq<nat>, n: nat, k: nat)
    requires Ids(p, n) && |p| <= k
    ensures p in Sequences(n, k)
    decreases k
  {
    if p != [] {
      InSequences(p[..|p|-1], n, k - 1);
      assert p == p[..|p|-1] + [p[|p|-1]];
    } else if k > 0 {
      InSequences(p, n, k - 1);
    }
  }

  /** Every pair the search can ever reach; there are finitely many. */
  ghost function Universe<S(!new), V>(m: Model<S, V>, h: seq<Entry<V>>): set<(set<nat>, S)>
    requires WellFormed(h)
  {
    set p | p in Sequences(Count(h), Count(h)) && PathOk(m, h, p) :: (Elems(p), StateAt(m, h, p))
  }

  lemma InUniverse<S(!new), V>(m: Model<S, V>, h: seq<Entry<V>>, p: seq<nat>)
    requires WellFormed(h) && PathOk(m, h, p)
    ensures (Elems(p), StateAt(m, h, p)) in Universe(m, h)
  {
    PathFacts(m, h, p);
    InSequences(p, Count(h), Count(h));
  }

  /** Pushing a pair that has not been seen uses up one of the finitely many pairs. */
  lemma PushShrinks<S(!new), V(!new)>(m: Model<S, V>, h: seq<Entry<V>>, partial: bool, s: State<S>)
    requires Lawful(m) && Inv(m, h, partial, s) && |s.path| < Count(h)
    requires !Nth(h, s.pos).isReturn
    requires StepAt(m, h, s.path, Nth(h, s.pos).id).0
    requires !Seen(m, s.visited, Elems(s.path + [Nth(h, s.pos).id]), StepAt(m, h, s.path, Nth(h, s.pos).id).1)
    ensures var x := Nth(h, s.pos).id;
      var s' := Push(h, s, x, StepAt(m, h, s.path, x).1);
      |Universe(m, h) - Elems(s'.visited)| < |Universe(m, h) - Elems(s.visited)|
  {
    var x := Nth(h, s.pos).id;
    var t := StepAt(m, h, s.path, x).1;
    var e := (Elems(s.path + [x]), t);
    assert e in Universe(m, h) by {
      CallIsReady(h, s);
      PathSnoc(m, h, s.path, x);
      InUniverse(m, h, s.path + [x]);
    }
    assert e !in Elems(s.visited) by {
      assert m.equal(t, t);
    }
    ElemsSnoc(s.visited, e);
    OneFewer(Universe(m, h), Elems(s.visited), e);
  }

  // ----- Whole runs -----

  /** The call at the current position is refused, or leads to a pair already seen. */
  ghost predicate CanAdvance<S(!new), V>(m: Model<S, V>, h: seq<Entry<V>>, s: State<S>)
    requires WellFormed(h)
  {
    && PathOk(m, h, s.path) && |s.path| < Count(h)
    && 1 <= s.pos <= |h| && !Nth(h, s.pos).isReturn
    && var x := Nth(h, s.pos).id;
       StepAt(m, h, s.path, x).0 ==> Seen(m, s.visited, Elems(s.path + [x]), StepAt(m, h, s.path, x).1)
  }

  /** The call at the current position is accepted and leads to a new pair. */
  ghost predicate CanPush<S(!new), V>(m: Model<S, V>, h: seq<Entry<V>>, s: State<S>)
    requires WellFormed(h)
  {
    && PathOk(m, h, s.path) && |s.path| < Count(h)
    && 1 <= s.pos <= |h| && !Nth(h, s.pos).isReturn
    && var x := Nth(h, s.pos).id;
       StepAt(m, h, s.path, x).0 && !Seen(m, s.visited, Elems(s.path + [x]), StepAt(m, h, s.path, x).1)
  }

  /** The current position is a return and there is something to undo. */
  ghost predicate CanPop<S, V>(h: seq<Entry<V>>, s: State<S>)
    requires WellFormed(h)
  {
    && |s.path| < Count(h) && s.path != [] && Ids(s.path, Count(h)) && |s.longest| == Count(h)
    && 1 <= s.pos <= |h| && Nth(h, s.pos).isReturn
  }

  /** One round of the search. */
  ghost predicate Next<S(!new), V>(m: Model<S, V>, h: seq<Entry<V>>, partial: bool, s: State<S>, s': State<S>)
    requires WellFormed(h)
  {
    || (CanAdvance(m, h, s) && s' == Advance(h, s))
    || (CanPush(m, h, s) && var x := Nth(h, s.pos).id; s' == Push(h, s, x, StepAt(m, h, s.path, x).1))
    || (CanPop(h, s) && s' == Pop(h, s, partial))
  }

  ghost function Start<S, V>(h: seq<Entry<V>>): State<S> {
    State([], NextLive(Live(h, []), 0, |h| + 1), [], seq(Count(h), _ => None))
  }

  /** `run` is a run of the search from its start. */
  ghost predicate IsRun<S(!new), V>(m: Model<S, V>, h: seq<Entry<V>>, partial: bool, run: seq<State<S>>)
    requires WellFormed(h)
  {
    && run != []
    && if |run| == 1 then run[0] == Start(h)
       else IsRun(m, h, partial, run[..|run|-1]) && Next(m, h, partial, run[|run|-2], run[|run|-1])
  }

  lemma StartInv<S(!new), V(!new)>(m: Model<S, V>, h: seq<Entry<V>>, partial: bool)
    requires WellFormed(h)
    ensures Inv(m, h, partial, Start(h))
  {
    var s: State<S> := Start(h);
    if Count(h) > 0 {
      var i := CallOf(h, 0) + 1;
      assert Nth(h, i).id == 0;
      assert i in Live(h, []);
    }
    FreshLevel(m, h, partial, s.longest, []);
    assert forall k: nat :: k <= 0 ==> s.path[..k] == [];
  }

  lemma NextKeepsInv<S(!new), V(!new)>(m: Model<S, V>, h: seq<Entry<V>>, partial: bool, s: State<S>, s': State<S>)
    requires Lawful(m) && Inv(m, h, partial, s) && Next(m, h, partial, s, s')
    ensures Inv(m, h, partial, s')
  {
    if CanAdvance(m, h, s) && s' == Advance(h, s) {
      AdvanceKeepsInv(m, h, partial, s);
    } else if CanPush(m, h, s) && s' == Push(h, s, Nth(h, s.pos).id, StepAt(m, h, s.path, Nth(h, s.pos).id).1) {
      PushKeepsInv(m, h, partial, s);
    } else {
      PopKeepsInv(m, h, partial, s);
    }
  }

  /** Every state of every run satisfies the invariant. */
  lemma {:induction false} RunKeepsInv<S(!new), V(!new)>(m: Model<S, V>, h: seq<Entry<V>>, partial: bool,
        run: seq<State<S>>)
    requires Lawful(m) && WellFormed(h) && IsRun(m, h, partial, run)
    ensures Inv(m, h, partial, run[|run|-1])
    decreases run
  {
    if |run| == 1 {
      StartInv(m, h, partial);
    } else {
      var before, s := run[..|run|-1], run[|run|-2];
      assert before[|before|-1] == s;
      assert Inv(m, h, partial, s) by { RunKeepsInv(m, h, partial, before); }
      NextKeepsInv(m, h, partial, s, run[|run|-1]);
    }
  }

  /** The same, with `left` pairs still unseen at its end; not looked into by default. */
  ghost predicate Runs<S(!new), V>(m: Model<S, V>, h: seq<Entry<V>>, partial: bool, run: seq<State<S>>, left: nat)
    requires WellFormed(h)
  {
    run != [] && forall k: nat :: Open(k, run) ==> IsRun(m, h, partial, run) && left == Unseen(m, h, run[|run|-1])
  }

  /** How many pairs the search has not seen yet. */
  ghost function Unseen<S(!new), V>(m: Model<S, V>, h: seq<Entry<V>>, s: State<S>): nat
    requires WellFormed(h)
  {
    |Universe(m, h) - Elems(s.visited)|
  }

  lemma RunStart<S(!new), V(!new)>(m: Model<S, V>, h: seq<Entry<V>>, partial: bool) returns (left: nat)
    requires WellFormed(h)
    ensures Runs(m, h, partial, [Start<S, V>(h)], left)
  {
    left := Unseen(m, h, Start<S, V>(h));
  }

  /** What the code relies on while it runs. */
  lemma RunFacts<S(!new), V(!new)>(m: Model<S, V>, h: seq<Entry<V>>, partial: bool, run: seq<State<S>>, left: nat)
    requires Lawful(m) && WellFormed(h) && Runs(m, h, partial, run, left)
    ensures var s := run[|run|-1];
      && PathOk(m, h, s.path) && Ids(s.path, Count(h)) && Distinct(s.path)
      && |s.path| <= Count(h) && |s.longest| == Count(h)
      && PosOk(h, s)
  {
    assert Open(0, run);
    RunKeepsInv(m, h, partial, run);
    PathFacts(m, h, run[|run|-1].path);
  }

  /** The measure that every round lowers: unseen pairs, then the stack, then the way to the end of the list. */
  ghost predicate Smaller<S, V>(h: seq<Entry<V>>, left': nat, s': State<S>, left: nat, s: State<S>) {
    left' < left || (left' == left && (|s'.path| < |s.path| || (|s'.path| == |s.path| && s.pos < s'.pos <= |h| + 1)))
  }

  lemma NextShrinks<S(!new), V(!new)>(m: Model<S, V>, h: seq<Entry<V>>, partial: bool, s: State<S>, s': State<S>)
    requires Lawful(m) && WellFormed(h) && Inv(m, h, partial, s)
    requires Next(m, h, partial, s, s')
    ensures Smaller(h, Unseen(m, h, s'), s', Unseen(m, h, s), s)
  {
    if CanPush(m, h, s) && s' == Push(h, s, Nth(h, s.pos).id, StepAt(m, h, s.path, Nth(h, s.pos).id).1) {
      PushShrinks(m, h, partial, s);
    }
  }

  /** A round extends the run and lowers the measure. */
  lemma RunStep<S(!new), V(!new)>(m: Model<S, V>, h: seq<Entry<V>>, partial: bool, run: seq<State<S>>, left: nat,
        s': State<S>)
    returns (left': nat)
    requires Lawful(m) && WellFormed(h) && Runs(m, h, partial, run, left)
    requires Next(m, h, partial, run[|run|-1], s')
    ensures Runs(m, h, partial, run + [s'], left')
    ensures Smaller(h, left', s', left, run[|run|-1])
  {
    assert Open(0, run);
    RunKeepsInv(m, h, partial, run);
    NextShrinks(m, h, partial, run[|run|-1], s');
    left' := Unseen(m, h, s');
    assert (run + [s'])[..|run|] == run;
  }
}
