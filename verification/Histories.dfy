/**
 Concurrent histories, sequential models and what it means for a history to be
 linearizable (src/porcupine/model.go).  Every other module of the checker is proved
 against the definitions given here.
 */
module Histories {

  datatype Option<+T> = None | Some(value: T)

  /** One finished operation: it was invoked at time `call` and answered at time `ret`. */
  datatype Operation<+V> = Operation(input: V, call: int, output: V, ret: int)

  /**
   A sequential specification.  `step(s, input, output)` says whether the object in state `s`
   may answer `input` with `output`, and gives the next state.
   */
  datatype Model<!S, !V> = Model(init: S, step: (S, V, V) -> (bool, S), equal: (S, S) -> bool)

  /** `equal` may be coarser than equality, but `step` must not see the difference. */
  ghost predicate Lawful<S(!new), V(!new)>(m: Model<S, V>) {
    && (forall s :: m.equal(s, s))
    && (forall s, t, i, o {:trigger m.equal(s, t), m.step(s, i, o)} :: m.equal(s, t) ==>
          && m.step(s, i, o).0 == m.step(t, i, o).0
          && (m.step(s, i, o).0 ==> m.equal(m.step(s, i, o).1, m.step(t, i, o).1)))
  }

  /** No operation is answered before it is invoked. */
  predicate Timely<V>(ops: seq<Operation<V>>) {
    forall a :: 0 <= a < |ops| ==> ops[a].call <= ops[a].ret
  }

  /** Real-time order: `a` was answered before `b` was invoked. */
  predicate Precedes<V>(ops: seq<Operation<V>>, a: nat, b: nat)
    requires a < |ops| && b < |ops|
  {
    ops[a].ret < ops[b].call
  }

  ghost predicate Distinct<T>(p: seq<T>) {
    forall i, j :: 0 <= i < j < |p| ==> p[i] != p[j]
  }

  ghost predicate Ids(p: seq<nat>, n: nat) {
    forall i :: 0 <= i < |p| ==> p[i] < n
  }

  function Elems<T>(p: seq<T>): set<T> {
    set x | x in p
  }

  /** A later element of `p` never precedes an earlier one in real time. */
  ghost predicate RespectsTime<V>(ops: seq<Operation<V>>, p: seq<nat>)
    requires Ids(p, |ops|)
  {
    forall i, j :: 0 <= i < j < |p| ==> !Precedes(ops, p[j], p[i])
  }

  /** Runs the model over the operations named by `p`; None when some step is refused. */
  function Run<S, V>(m: Model<S, V>, ops: seq<Operation<V>>, s: S, p: seq<nat>): Option<S>
    requires Ids(p, |ops|)
  {
    if p == [] then Some(s)
    else
      var r := m.step(s, ops[p[0]].input, ops[p[0]].output);
      if r.0 then Run(m, ops, r.1, p[1..]) else None
  }

  /** One step more. */
  lemma {:induction false} RunSnoc<S, V>(m: Model<S, V>, ops: seq<Operation<V>>, s: S, p: seq<nat>, x: nat)
    requires Ids(p, |ops|) && x < |ops|
    ensures Ids(p + [x], |ops|)
    ensures Run(m, ops, s, p).Some? ==>
      var r := m.step(Run(m, ops, s, p).value, ops[x].input, ops[x].output);
      Run(m, ops, s, p + [x]) == if r.0 then Some(r.1) else None
    decreases p
  {
    if p == [] {
      assert ([] + [x])[1..] == [];
    } else {
      assert (p + [x])[1..] == p[1..] + [x];
      RunSnoc(m, ops, m.step(s, ops[p[0]].input, ops[p[0]].output).1, p[1..], x);
    }
  }

  /** `p` is a linearization of the whole history. */
  ghost predicate IsLinearization<S, V>(m: Model<S, V>, ops: seq<Operation<V>>, p: seq<nat>) {
    && Ids(p, |ops|)
    && Distinct(p)
    && |p| == |ops|
    && RespectsTime(ops, p)
    && Run(m, ops, m.init, p).Some?
  }

  ghost predicate Linearizable<S, V>(m: Model<S, V>, ops: seq<Operation<V>>) {
    exists p :: IsLinearization(m, ops, p)
  }

  /**
   `p` linearizes a part of the history that nothing outside of it had to precede.
   */
  ghost predicate IsPartialLinearization<S, V>(m: Model<S, V>, ops: seq<Operation<V>>, p: seq<nat>) {
    && Ids(p, |ops|)
    && Distinct(p)
    && RespectsTime(ops, p)
    && (forall a: nat, b :: a < |ops| && a !in p && b in p ==> !Precedes(ops, a, b))
    && Run(m, ops, m.init, p).Some?
  }

  /** `x` may be linearized next, once exactly the operations in `done` have been. */
  ghost predicate Ready<V>(ops: seq<Operation<V>>, done: set<nat>, x: nat) {
    && x < |ops|
    && x !in done
    && forall y: nat :: y < |ops| && y !in done ==> !Precedes(ops, y, x)
  }

  /**
   The same notion, one operation at a time: `p` continues a partial linearization that has
   covered `done` and reached state `s`.
   */
  ghost predicate Continues<S, V>(m: Model<S, V>, ops: seq<Operation<V>>, done: set<nat>, s: S, p: seq<nat>)
    decreases p
  {
    p == [] ||
    (&& Ready(ops, done, p[0])
     && var r := m.step(s, ops[p[0]].input, ops[p[0]].output);
        r.0 && Continues(m, ops, done + {p[0]}, r.1, p[1..]))
  }

  lemma {:induction false} ContinuesIds<S, V>(m: Model<S, V>, ops: seq<Operation<V>>, done: set<nat>, s: S, p: seq<nat>)
    requires Continues(m, ops, done, s, p)
    ensures Ids(p, |ops|)
    ensures Distinct(p)
    ensures Elems(p) !! done
    ensures Run(m, ops, s, p).Some?
    decreases p
  {
    if p != [] {
      var r := m.step(s, ops[p[0]].input, ops[p[0]].output);
      ContinuesIds(m, ops, done + {p[0]}, r.1, p[1..]);
      assert forall i :: 1 <= i < |p| ==> p[i] == p[1..][i-1] && p[i] in Elems(p[1..]);
    }
  }

  /** Extending a continuation by one operation. */
  lemma {:induction false} ContinuesSnoc<S, V>(m: Model<S, V>, ops: seq<Operation<V>>, done: set<nat>, s: S,
        p: seq<nat>, x: nat)
    requires Continues(m, ops, done, s, p)
    requires Ids(p, |ops|) && Run(m, ops, s, p).Some?
    requires Ready(ops, done + Elems(p), x)
    requires m.step(Run(m, ops, s, p).value, ops[x].input, ops[x].output).0
    ensures Continues(m, ops, done, s, p + [x])
    ensures Ids(p + [x], |ops|)
    ensures Run(m, ops, s, p + [x]) == Some(m.step(Run(m, ops, s, p).value, ops[x].input, ops[x].output).1)
    decreases p
  {
    if p == [] {
      assert done + Elems(p) == done;
      assert p + [x] == [x];
      assert Run(m, ops, s, [x]) == Some(m.step(s, ops[x].input, ops[x].output).1) by {
        assert [x][1..] == [];
      }
    } else {
      var r := m.step(s, ops[p[0]].input, ops[p[0]].output);
      assert done + Elems(p) == done + {p[0]} + Elems(p[1..]);
      ContinuesSnoc(m, ops, done + {p[0]}, r.1, p[1..], x);
      assert (p + [x])[1..] == p[1..] + [x];
    }
  }

  /** Every prefix of a continuation is one, and the element after it was ready. */
  lemma {:induction false} ContinuesPrefix<S, V>(m: Model<S, V>, ops: seq<Operation<V>>, done: set<nat>, s: S,
        p: seq<nat>, k: nat)
    requires k <= |p|
    requires Continues(m, ops, done, s, p)
    ensures Continues(m, ops, done, s, p[..k])
    ensures Ids(p[..k], |ops|) && Run(m, ops, s, p[..k]).Some?
    ensures k < |p| ==> Ready(ops, done + Elems(p[..k]), p[k])
    ensures k < |p| ==> m.step(Run(m, ops, s, p[..k]).value, ops[p[k]].input, ops[p[k]].output).0
    decreases p
  {
    if k == 0 {
      assert done + Elems(p[..0]) == done;
    } else {
      var r := m.step(s, ops[p[0]].input, ops[p[0]].output);
      ContinuesPrefix(m, ops, done + {p[0]}, r.1, p[1..], k - 1);
      assert p[..k][1..] == p[1..][..k-1];
      assert done + Elems(p[..k]) == done + {p[0]} + Elems(p[1..][..k-1]) by {
        assert Elems(p[..k]) == {p[0]} + Elems(p[..k][1..]);
      }
    }
  }

  /** A model's `equal` states have the same continuations. */
  lemma {:induction false} ContinuesCongruent<S(!new), V(!new)>(m: Model<S, V>, ops: seq<Operation<V>>,
        done: set<nat>, s: S, t: S, p: seq<nat>)
    requires Lawful(m)
    requires m.equal(s, t)
    ensures Continues(m, ops, done, s, p) <==> Continues(m, ops, done, t, p)
    decreases p
  {
    if p != [] && p[0] < |ops| {
      var r := m.step(s, ops[p[0]].input, ops[p[0]].output);
      var r' := m.step(t, ops[p[0]].input, ops[p[0]].output);
      if r.0 {
        ContinuesCongruent(m, ops, done + {p[0]}, r.1, r'.1, p[1..]);
      }
    }
  }

  /** Proof step for `PartialIffContinues`: order, closure and acceptance give readiness at every step. */
  lemma {:induction false} StepwiseFromOrder<S, V>(m: Model<S, V>, ops: seq<Operation<V>>, done: set<nat>, s: S,
        p: seq<nat>)
    requires Timely(ops)
    requires Ids(p, |ops|) && Distinct(p) && RespectsTime(ops, p)
    requires Elems(p) !! done
    requires forall a: nat, b :: a < |ops| && a !in p && a !in done && b in p ==> !Precedes(ops, a, b)
    requires Run(m, ops, s, p).Some?
    ensures Continues(m, ops, done, s, p)
    decreases p
  {
    if p != [] {
      var r := m.step(s, ops[p[0]].input, ops[p[0]].output);
      forall y: nat | y < |ops| && y !in done
        ensures !Precedes(ops, y, p[0])
      {
        if y in p {
          var j :| 0 <= j < |p| && p[j] == y;
        }
      }
      assert forall i :: 0 <= i < |p[1..]| ==> p[1..][i] == p[i+1];
      StepwiseFromOrder(m, ops, done + {p[0]}, r.1, p[1..]);
    }
  }

  lemma {:induction false} OrderFromStepwise<S, V>(m: Model<S, V>, ops: seq<Operation<V>>, done: set<nat>, s: S,
        p: seq<nat>)
    requires Continues(m, ops, done, s, p)
    ensures Ids(p, |ops|) && RespectsTime(ops, p)
    ensures forall a: nat, b :: a < |ops| && a !in p && a !in done && b in p ==> !Precedes(ops, a, b)
    decreases p
  {
    ContinuesIds(m, ops, done, s, p);
    if p != [] {
      var r := m.step(s, ops[p[0]].input, ops[p[0]].output);
      OrderFromStepwise(m, ops, done + {p[0]}, r.1, p[1..]);
      assert forall i :: 0 <= i < |p[1..]| ==> p[1..][i] == p[i+1];
      forall i, j | 0 <= i < j < |p|
        ensures !Precedes(ops, p[j], p[i])
      {
        if i == 0 {
          assert p[j] in Elems(p);
        } else {
          assert !Precedes(ops, p[1..][j-1], p[1..][i-1]);
        }
      }
    }
  }

  /** The stepwise and the declarative notion of a partial linearization agree. */
  lemma PartialIffContinues<S, V>(m: Model<S, V>, ops: seq<Operation<V>>, p: seq<nat>)
    requires Timely(ops)
    ensures IsPartialLinearization(m, ops, p) <==> Continues(m, ops, {}, m.init, p)
  {
    if IsPartialLinearization(m, ops, p) {
      StepwiseFromOrder(m, ops, {}, m.init, p);
    }
    if Continues(m, ops, {}, m.init, p) {
      ContinuesIds(m, ops, {}, m.init, p);
      OrderFromStepwise(m, ops, {}, m.init, p);
    }
  }

  /** Distinct ids below `n` number at most `n`, and number `n` only when they are all there. */
  lemma {:induction false} DistinctBounded(p: seq<nat>, n: nat)
    requires Ids(p, n) && Distinct(p)
    ensures |Elems(p)| == |p| <= n
    ensures |p| == n ==> forall x :: 0 <= x < n ==> x in p
  {
    ElemsSize(p);
    assert Elems(p) <= Below(n);
    SubsetSize(Elems(p), Below(n));
    if |p| == n {
      assert Elems(p) == Below(n);
      forall x | 0 <= x < n
        ensures x in p
      {
        assert x in Elems(p);
      }
    }
  }

  lemma ElemsSnoc<T>(p: seq<T>, x: T)
    ensures Elems(p + [x]) == Elems(p) + {x}
  {
  }

  /** Taking one more element of `u` away makes what is left smaller. */
  lemma OneFewer<T>(u: set<T>, v: set<T>, x: T)
    requires x in u && x !in v
    ensures |u - (v + {x})| < |u - v|
  {
    assert u - (v + {x}) == (u - v) - {x};
  }

  lemma {:induction false} ElemsSize<T>(p: seq<T>)
    requires Distinct(p)
    ensures |Elems(p)| == |p|
  {
    if p != [] {
      var q, x := p[..|p|-1], p[|p|-1];
      ElemsSize(q);
      assert p == q + [x];
      ElemsSnoc(q, x);
      assert x !in q;
    }
  }

  /** The ids of a history of `n` operations. */
  function Below(n: nat): (r: set<nat>)
    ensures |r| == n
    ensures forall x :: x in r <==> 0 <= x < n
  {
    if n == 0 then {} else Below(n - 1) + {n - 1}
  }

  lemma {:induction false} SubsetSize<T>(a: set<T>, b: set<T>)
    requires a <= b
    ensures |a| <= |b|
    ensures |a| == |b| ==> a == b
  {
    if a != {} {
      var x :| x in a;
      SubsetSize(a - {x}, b - {x});
    }
  }

  /** A linearization is a partial linearization that covers every operation. */
  lemma FullIffPartial<S, V>(m: Model<S, V>, ops: seq<Operation<V>>, p: seq<nat>)
    ensures IsLinearization(m, ops, p) <==> IsPartialLinearization(m, ops, p) && |p| == |ops|
  {
    if Ids(p, |ops|) && Distinct(p) {
      DistinctBounded(p, |ops|);
    }
  }

  lemma HeadGone(q: seq<nat>)
    requires q != [] && Distinct(q)
    ensures forall y :: y in q[1..] <==> y in q && y != q[0]
  {
    forall y | y in q && y != q[0]
      ensures y in q[1..]
    {
      var i :| 0 <= i < |q| && q[i] == y;
      assert q[1..][i-1] == y;
    }
  }
}
