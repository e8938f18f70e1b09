/**
 What the visualizer makes of the checker's report (computeVisualizationData,
 src/porcupine/visualization.go): it replays every partial linearization on the model and would
 panic at a step that the model refuses.  It never does.
 */
module Visualization {
  import opened Sealing
  import opened Histories
  import opened Entries
  import opened Parallel

  /** The inputs and outputs by operation. */
  method CollectValues<V>(h: seq<Entry<V>>) returns (callValue: map<nat, V>, returnValue: map<nat, V>)
    requires WellFormed(h)
    ensures forall id: nat :: id < Count(h) ==> id in callValue && callValue[id] == OpsOf(h)[id].input
    ensures forall id: nat :: id < Count(h) ==> id in returnValue && returnValue[id] == OpsOf(h)[id].output
  {
    callValue, returnValue := map[], map[];
    for k := 0 to |h|
      invariant forall id: nat :: id < Count(h) && CallOf(h, id) < k ==>
        id in callValue && callValue[id] == h[CallOf(h, id)].value
      invariant forall id: nat :: id < Count(h) && ReturnOf(h, id) < k ==>
        id in returnValue && returnValue[id] == h[ReturnOf(h, id)].value
    {
      if h[k].isReturn {
        returnValue := returnValue[h[k].id := h[k].value];
      } else {
        callValue := callValue[h[k].id := h[k].value];
      }
    }
  }

  /** One partial linearization, step by step; the states are what will be described. */
  method ReplayPartial<S, V>(m: Model<S, V>, ghost ops: seq<Operation<V>>, callValue: map<nat, V>,
        returnValue: map<nat, V>, partial: seq<nat>)
    returns (panicked: bool, states: seq<S>)
    requires Ids(partial, |ops|)
    requires forall id: nat :: id < |ops| ==> id in callValue && callValue[id] == ops[id].input
    requires forall id: nat :: id < |ops| ==> id in returnValue && returnValue[id] == ops[id].output
    ensures panicked <==> Run(m, ops, m.init, partial).None?
    ensures !panicked ==> |states| == |partial|
    ensures !panicked ==> forall j :: 0 <= j < |partial| ==> Run(m, ops, m.init, partial[..j+1]) == Some(states[j])
  {
    var state := m.init;
    states := [];
    for j := 0 to |partial|
      invariant |states| == j && Run(m, ops, m.init, partial) == Run(m, ops, state, partial[j..])
      invariant Run(m, ops, m.init, partial[..j]) == Some(state)
      invariant forall i :: 0 <= i < j ==> Run(m, ops, m.init, partial[..i+1]) == Some(states[i])
    {
      var histId := partial[j];
      assert partial[j..][1..] == partial[j+1..];
      assert partial[..j] + [histId] == partial[..j+1];
      RunSnoc(m, ops, m.init, partial[..j], histId);
      var r := m.step(state, callValue[histId], returnValue[histId]);
      state := r.1;
      if !r.0 {
        return true, states;
      }
      states := states + [state];
    }
    assert partial[..|partial|] == partial;
    panicked := false;
  }

  /** `largest` names, for every operation in some partial linearization, one of the longest that contain it. */
  ghost predicate NamesLongest(partials: seq<seq<nat>>, largest: map<nat, nat>) {
    && (forall id :: id in largest ==> largest[id] < |partials| && id in partials[largest[id]])
    && (forall j, id :: 0 <= j < |partials| && id in partials[j] ==>
         id in largest && |partials[j]| <= |partials[largest[id]]|)
  }

  /** The sizes that go with the indexes. */
  ghost predicate SizesOk(partials: seq<seq<nat>>, largest: map<nat, nat>, size: map<nat, nat>) {
    && size.Keys == largest.Keys
    && forall id :: id in largest ==> largest[id] < |partials| && size[id] == |partials[largest[id]]|
  }

  /** The operation keeps its entries in the two maps, unless it is `due` for new ones and these are larger. */
  ghost predicate Marked(largest: map<nat, nat>, size: map<nat, nat>, due: bool, n: nat, i: nat, id: nat,
        largest': map<nat, nat>, size': map<nat, nat>)
    requires size.Keys == largest.Keys && size'.Keys == largest'.Keys
  {
    if due && (id !in largest || size[id] < n) then id in largest' && largest'[id] == i && size'[id] == n
    else if id in largest then id in largest' && largest'[id] == largest[id] && size'[id] == size[id]
    else id !in largest'
  }

  lemma MarkedIsLongest(partials: seq<seq<nat>>, partial: seq<nat>, largest: map<nat, nat>, size: map<nat, nat>,
        largest': map<nat, nat>, size': map<nat, nat>)
    requires NamesLongest(partials, largest) && SizesOk(partials, largest, size) && size'.Keys == largest'.Keys
    requires forall id :: Marked(largest, size, id in partial, |partial|, |partials|, id, largest', size')
    ensures NamesLongest(partials + [partial], largest') && SizesOk(partials + [partial], largest', size')
  {
    var partials' := partials + [partial];
    forall id | id in largest'
      ensures largest'[id] < |partials'| && id in partials'[largest'[id]] && size'[id] == |partials'[largest'[id]]|
    {
      assert Marked(largest, size, id in partial, |partial|, |partials|, id, largest', size');
    }
    forall j, id | 0 <= j < |partials'| && id in partials'[j]
      ensures id in largest' && |partials'[j]| <= |partials'[largest'[id]]|
    {
      assert Marked(largest, size, id in partial, |partial|, |partials|, id, largest', size');
      assert j < |partials| ==> partials'[j] == partials[j];
    }
  }

  /** The next partial linearization takes over the operations that had nothing as long. */
  method MarkLargest(ghost partials: seq<seq<nat>>, partial: seq<nat>, i: nat, largest: map<nat, nat>,
        size: map<nat, nat>)
    returns (largest': map<nat, nat>, size': map<nat, nat>)
    requires i == |partials| && NamesLongest(partials, largest) && SizesOk(partials, largest, size)
    ensures NamesLongest(partials + [partial], largest') && SizesOk(partials + [partial], largest', size')
  {
    largest', size' := largest, size;
    for j := 0 to |partial|
      invariant size'.Keys == largest'.Keys
      invariant forall id :: Marked(largest, size, id in partial[..j], |partial|, i, id, largest', size')
    {
      var histId := partial[j];
      ghost var l, s := largest', size';
      if (if histId in size' then size'[histId] else 0) < |partial| {
        size' := size'[histId := |partial|];
        largest' := largest'[histId := i];
      }
      ghost var done := partial[..j+1];
      assert done == partial[..j] + [histId];
      forall id
        ensures Marked(largest, size, id in done, |partial|, i, id, largest', size')
      {
        assert Marked(largest, size, id in partial[..j], |partial|, i, id, l, s);
      }
    }
    assert partial[..|partial|] == partial;
    MarkedIsLongest(partials, partial, largest, size, largest', size');
  }

  /** Everything that is reported can be replayed. */
  ghost predicate Replayable<S(!new), V(!new)>(m: Model<S, V>, ops: seq<Operation<V>>, partials: seq<seq<nat>>) {
    forall k :: 0 <= k < |partials| ==> Ids(partials[k], |ops|) && Run(m, ops, m.init, partials[k]).Some?
  }

  lemma PartialsReplay<S(!new), V(!new)>(m: Model<S, V>, ops: seq<Operation<V>>, partials: seq<seq<nat>>)
    requires AllPartial(m, ops, partials)
    ensures Replayable(m, ops, partials)
  {
    assert forall k :: 0 <= k < |partials| ==> partials[k] in partials;
  }

  method ReplayPart<S(!new), V(!new)>(m: Model<S, V>, h: seq<Entry<V>>, partials: seq<seq<nat>>)
    returns (panicked: bool, largest: map<nat, nat>)
    requires WellFormed(h) && forall k :: 0 <= k < |partials| ==> Ids(partials[k], Count(h))
    ensures panicked <==> !Replayable(m, OpsOf(h), partials)
    ensures !panicked ==> NamesLongest(partials, largest)
  {
    var callValue, returnValue := CollectValues(h);
    panicked := false;
    var size: map<nat, nat> := map[];
    largest := map[];
    for k := 0 to |partials|
      invariant !panicked && Replayable(m, OpsOf(h), partials[..k])
      invariant NamesLongest(partials[..k], largest) && SizesOk(partials[..k], largest, size)
    {
      var states;
      panicked, states := ReplayPartial(m, OpsOf(h), callValue, returnValue, partials[k]);
      if panicked {
        return;
      }
      assert partials[..k+1] == partials[..k] + [partials[k]];
      largest, size := MarkLargest(partials[..k], partials[k], k, largest, size);
    }
    assert partials[..|partials|] == partials;
  }

  /** If the report is complete, what is named is a longest partial linearization of all there are. */
  ghost predicate NamesBest<S(!new), V(!new)>(m: Model<S, V>, ops: seq<Operation<V>>, partials: seq<seq<nat>>,
        largest: map<nat, nat>) {
    forall q, id: nat :: IsPartialLinearization(m, ops, q) && id in q ==>
      id in largest && largest[id] < |partials| && id in partials[largest[id]] && |q| <= |partials[largest[id]]|
  }

  lemma LongestIsBest<S(!new), V(!new)>(m: Model<S, V>, ops: seq<Operation<V>>, partials: seq<seq<nat>>,
        largest: map<nat, nat>)
    requires AllLongest(m, ops, partials) && NamesLongest(partials, largest)
    ensures NamesBest(m, ops, partials, largest)
  {
    forall q, id: nat | IsPartialLinearization(m, ops, q) && id in q
      ensures id in largest && |q| <= |partials[largest[id]]|
    {
      var p :| p in partials && id in p && |p| >= |q|;
      var j :| 0 <= j < |partials| && partials[j] == p;
      assert id in partials[j];
    }
  }

  /** What is shown of a part of which `partials` has been reported. */
  ghost predicate Drawn<S(!new), V(!new)>(m: Model<S, V>, h: seq<Entry<V>>, partials: seq<seq<nat>>, complete: bool,
        largest: map<nat, nat>)
    requires WellFormed(h)
  {
    forall k: nat :: Open(k, largest) ==>
      NamesLongest(partials, largest) && (complete ==> NamesBest(m, OpsOf(h), partials, largest))
  }

  method DrawPart<S(!new), V(!new)>(m: Model<S, V>, h: seq<Entry<V>>, partials: seq<seq<nat>>, ghost complete: bool)
    returns (panicked: bool, largest: map<nat, nat>)
    requires WellFormed(h) && Report(m, OpsOf(h), partials, complete)
    ensures !panicked && Drawn(m, h, partials, complete, largest)
  {
    PartialsReplay(m, OpsOf(h), partials);
    panicked, largest := ReplayPart(m, h, partials);
    if complete {
      LongestIsBest(m, OpsOf(h), partials, largest);
    }
  }

  /** All parts, in turn; if `complete[i]`, all there is to report of part i has been reported. */
  method Draw<S(!new), V(!new)>(m: Model<S, V>, parts: seq<seq<Entry<V>>>, info: seq<seq<seq<nat>>>,
        ghost complete: seq<bool>)
    returns (panicked: bool, shown: seq<map<nat, nat>>)
    requires |info| == |complete| == |parts| && forall i :: 0 <= i < |parts| ==> WellFormed(parts[i])
    requires forall i :: 0 <= i < |parts| ==> Report(m, OpsOf(parts[i]), info[i], complete[i])
    ensures !panicked && |shown| == |parts|
    ensures forall i :: 0 <= i < |parts| ==> Drawn(m, parts[i], info[i], complete[i], shown[i])
  {
    panicked, shown := false, [];
    for i := 0 to |parts|
      invariant !panicked && |shown| == i
      invariant forall j :: 0 <= j < i ==> Drawn(m, parts[j], info[j], complete[j], shown[j])
    {
      var largest;
      panicked, largest := DrawPart(m, parts[i], info[i], complete[i]);
      shown := shown + [largest];
    }
  }

  /**
   For any order of results and any timeout, what the checker reports is drawn without a panic; and every
   operation of a part that was done before the timeout is shown with a longest partial linearization that
   contains it.
   */
  method CheckAndVisualize<S(!new), V(!new)>(m: Model<S, V>, parts: seq<seq<Entry<V>>>, sched: Schedule,
        late: (nat, nat) -> bool)
    returns (result: CheckResult, panicked: bool, info: seq<seq<seq<nat>>>, shown: seq<map<nat, nat>>)
    requires Checkable(m, parts) && Possible(sched, |parts|)
    ensures !panicked && |info| == |shown| == |parts|
    ensures forall i :: 0 <= i < |parts| ==> Drawn(m, parts[i], info[i], i in Arrived(sched), shown[i])
  {
    result, info := CheckParallel(m, parts, true, sched, late);
    ghost var complete := seq(|parts|, i => i in Arrived(sched));
    panicked, shown := Draw(m, parts, info, complete);
  }
}
