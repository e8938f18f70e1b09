/**
 Checking the parts of a history in parallel (checkParallel and checkOperations,
 src/porcupine/checker.go): one goroutine per part, results received in any order, and
 possibly a timeout.
 */
module Parallel {
  import opened Sealing
  import opened Histories
  import opened Entries
  import opened EntryLists
  import opened Checker

  datatype CheckResult = Unknown | Ok | Illegal

  /**
   What the collecting loop gets to see: the workers in the order in which their results
   arrive, and after how many of those the timeout fires, if it does.
   */
  datatype Schedule = Schedule(workers: seq<nat>, timeout: Option<nat>)

  /** Without a timeout every one of the `n` workers is heard, and there must be one to hear. */
  ghost predicate Possible(sched: Schedule, n: nat) {
    && Ids(sched.workers, n) && Distinct(sched.workers)
    && match sched.timeout
       case None => |sched.workers| == n > 0
       case Some(t) => t <= |sched.workers|
  }

  /** The workers whose results arrive before the timeout. */
  ghost function Arrived(sched: Schedule): (workers: seq<nat>)
    requires sched.timeout.Some? ==> sched.timeout.value <= |sched.workers|
  {
    match sched.timeout
    case None => sched.workers
    case Some(t) => sched.workers[..t]
  }

  ghost predicate Checkable<S(!new), V(!new)>(m: Model<S, V>, parts: seq<seq<Entry<V>>>) {
    && Lawful(m)
    && forall i :: 0 <= i < |parts| ==> WellFormed(parts[i])
  }

  ghost predicate PartOk<S(!new), V(!new)>(m: Model<S, V>, parts: seq<seq<Entry<V>>>, i: nat)
    requires Checkable(m, parts) && i < |parts|
  {
    Linearizable(m, OpsOf(parts[i]))
  }

  ghost predicate AllOk<S(!new), V(!new)>(m: Model<S, V>, parts: seq<seq<Entry<V>>>, workers: seq<nat>)
    requires Checkable(m, parts) && Ids(workers, |parts|)
  {
    forall j :: 0 <= j < |workers| ==> PartOk(m, parts, workers[j])
  }

  /** Everything listed is a partial linearization of the operations. */
  ghost predicate AllPartial<S(!new), V(!new)>(m: Model<S, V>, ops: seq<Operation<V>>, partials: seq<seq<nat>>) {
    forall p :: p in partials ==> IsPartialLinearization(m, ops, p)
  }

  /** For everything in a partial linearization there is a listed one that is at least as long. */
  ghost predicate AllLongest<S(!new), V(!new)>(m: Model<S, V>, ops: seq<Operation<V>>, partials: seq<seq<nat>>) {
    forall q, id: nat :: IsPartialLinearization(m, ops, q) && id in q ==> exists p ::
      p in partials && id in p && |p| >= |q|
  }

  /** What is reported about one part, the longest of each kind if nothing was cut short. */
  ghost predicate Report<S(!new), V(!new)>(m: Model<S, V>, ops: seq<Operation<V>>, partials: seq<seq<nat>>,
        complete: bool) {
    AllPartial(m, ops, partials) && (complete ==> AllLongest(m, ops, partials))
  }

  /** The results of the workers heard so far. */
  ghost predicate Heard<S(!new), V(!new)>(m: Model<S, V>, parts: seq<seq<Entry<V>>>, computeInfo: bool,
        workers: seq<nat>, ok: bool, longest: map<nat, seq<Option<seq<nat>>>>)
    requires Checkable(m, parts) && Ids(workers, |parts|)
  {
    forall k: nat :: Open(k, workers) ==>
      && (ok <==> AllOk(m, parts, workers))
      && (forall w: nat :: w in longest <==> w in workers)
      && (computeInfo ==> AllRecords(m, parts, longest))
  }

  ghost predicate AllRecords<S(!new), V(!new)>(m: Model<S, V>, parts: seq<seq<Entry<V>>>,
        longest: map<nat, seq<Option<seq<nat>>>>)
    requires Checkable(m, parts)
  {
    forall w: nat :: w in longest && w < |parts| ==>
      RecordsOk(m, OpsOf(parts[w]), longest[w]) && RecordsLongest(m, OpsOf(parts[w]), longest[w])
  }

  /** The distinct records of one part, in no particular order. */
  method UniquePartials(longest: seq<Option<seq<nat>>>) returns (partials: seq<seq<nat>>)
    ensures Distinct(partials)
    ensures forall p :: p in partials <==> Some(p) in longest
  {
    var records: set<seq<nat>> := {};
    for i := 0 to |longest|
      invariant forall p :: p in records <==> Some(p) in longest[..i]
    {
      if longest[i].Some? {
        records := records + {longest[i].value};
      }
    }
    assert longest[..|longest|] == longest;
    ghost var all := records;
    partials := [];
    while records != {}
      invariant records <= all && Distinct(partials)
      invariant forall p :: p in all <==> p in partials || p in records
      invariant forall p :: p in partials ==> p !in records
      decreases |records|
    {
      var k :| k in records;
      records := records - {k};
      partials := partials + [k];
    }
  }

  lemma UniqueIsEnough<S(!new), V(!new)>(m: Model<S, V>, ops: seq<Operation<V>>, longest: seq<Option<seq<nat>>>,
        partials: seq<seq<nat>>)
    requires RecordsOk(m, ops, longest)
    requires forall p :: p in partials <==> Some(p) in longest
    ensures AllPartial(m, ops, partials)
    ensures RecordsLongest(m, ops, longest) ==> AllLongest(m, ops, partials)
  {
    if RecordsLongest(m, ops, longest) {
      forall q, id: nat | IsPartialLinearization(m, ops, q) && id in q
        ensures exists p :: p in partials && id in p && |p| >= |q|
      {
        assert longest[id].Some? && longest[id] in longest;
        assert longest[id].value in partials;
      }
    }
  }

  /** One more worker is heard.  The kill flag is set by nobody as long as results are received. */
  method Hear<S(!new), V(!new)>(m: Model<S, V>, parts: seq<seq<Entry<V>>>, computeInfo: bool, workers: seq<nat>,
        k: nat, ok: bool, longest: map<nat, seq<Option<seq<nat>>>>)
    returns (ok': bool, longest': map<nat, seq<Option<seq<nat>>>>)
    requires Checkable(m, parts) && Ids(workers, |parts|) && k < |workers|
    requires Heard(m, parts, computeInfo, workers[..k], ok, longest)
    ensures Heard(m, parts, computeInfo, workers[..k+1], ok', longest')
  {
    var w := workers[k];
    var result, l, killed := CheckSingle(m, parts[w], computeInfo, _ => false);
    HeardOneMore(m, parts, computeInfo, workers, k, ok, longest, result, l);
    ok', longest' := ok && result, longest[w := l];
  }

  /** The loop that receives results until there is nothing left to learn. */
  method Collect<S(!new), V(!new)>(m: Model<S, V>, parts: seq<seq<Entry<V>>>, computeInfo: bool, sched: Schedule)
    returns (ok: bool, timedOut: bool, longest: map<nat, seq<Option<seq<nat>>>>, ghost count: nat)
    requires Checkable(m, parts) && Possible(sched, |parts|)
    ensures count <= |Arrived(sched)| && Heard(m, parts, computeInfo, Arrived(sched)[..count], ok, longest)
    ensures ok || computeInfo ==> count == |Arrived(sched)|
    ensures ok ==> (timedOut <==> sched.timeout.Some? && (|Arrived(sched)| < |parts| || parts == []))
  {
    DistinctBounded(sched.workers, |parts|);
    ghost var arrived := Arrived(sched);
    ok, timedOut, longest, count := true, false, map[], 0;
    var received := 0;
    while true
      invariant received == count <= |arrived| && !timedOut && (ok || computeInfo)
      invariant Heard(m, parts, computeInfo, sched.workers[..count], ok, longest)
      invariant count < |parts| || (parts == [] && sched.timeout.Some?)
      decreases |sched.workers| - count
    {
      if sched.timeout == Some(received) {
        timedOut := true;
        break;
      }
      ok, longest := Hear(m, parts, computeInfo, sched.workers, received, ok, longest);
      received, count := received + 1, count + 1;
      if !ok && !computeInfo {
        break;
      }
      if received >= |parts| {
        break;
      }
    }
    assert arrived[..count] == sched.workers[..count];
  }

  lemma HeardOneMore<S(!new), V(!new)>(m: Model<S, V>, parts: seq<seq<Entry<V>>>, computeInfo: bool,
        workers: seq<nat>, k: nat, ok: bool, longest: map<nat, seq<Option<seq<nat>>>>, result: bool,
        l: seq<Option<seq<nat>>>)
    requires Checkable(m, parts) && Ids(workers, |parts|) && k < |workers|
    requires Heard(m, parts, computeInfo, workers[..k], ok, longest)
    requires result <==> PartOk(m, parts, workers[k])
    requires computeInfo ==> RecordsOk(m, OpsOf(parts[workers[k]]), l) && RecordsLongest(m, OpsOf(parts[workers[k]]), l)
    ensures Heard(m, parts, computeInfo, workers[..k+1], ok && result, longest[workers[k] := l])
  {
    var heard, heard' := workers[..k], workers[..k+1];
    assert heard' == heard + [workers[k]];
    assert Open(0, heard);
    OkOneMore(m, parts, heard, workers[k]);
    if computeInfo {
      RecordsOneMore(m, parts, longest, workers[k], l);
    }
  }

  lemma OkOneMore<S(!new), V(!new)>(m: Model<S, V>, parts: seq<seq<Entry<V>>>, heard: seq<nat>, w: nat)
    requires Checkable(m, parts) && Ids(heard, |parts|) && w < |parts|
    ensures Ids(heard + [w], |parts|)
    ensures AllOk(m, parts, heard + [w]) <==> AllOk(m, parts, heard) && PartOk(m, parts, w)
  {
    var heard' := heard + [w];
    assert heard'[|heard|] == w;
    assert forall j :: 0 <= j < |heard| ==> heard'[j] == heard[j];
  }

  lemma RecordsOneMore<S(!new), V(!new)>(m: Model<S, V>, parts: seq<seq<Entry<V>>>,
        longest: map<nat, seq<Option<seq<nat>>>>, w: nat, l: seq<Option<seq<nat>>>)
    requires Checkable(m, parts) && AllRecords(m, parts, longest) && w < |parts|
    requires RecordsOk(m, OpsOf(parts[w]), l) && RecordsLongest(m, OpsOf(parts[w]), l)
    ensures AllRecords(m, parts, longest[w := l])
  {
  }

  /** The partial linearizations of one part; a worker not heard before is waited for. */
  method Gather<S(!new), V(!new)>(m: Model<S, V>, part: seq<Entry<V>>, heard: Option<seq<Option<seq<nat>>>>,
        kill: nat -> bool)
    returns (partials: seq<seq<nat>>)
    requires Lawful(m) && WellFormed(part)
    requires heard.Some? ==> RecordsOk(m, OpsOf(part), heard.value) && RecordsLongest(m, OpsOf(part), heard.value)
    ensures Report(m, OpsOf(part), partials, heard.Some?)
  {
    var l;
    if heard.Some? {
      l := heard.value;
    } else {
      var r;
      ghost var killed;
      r, l, killed := CheckSingle(m, part, true, kill);
    }
    partials := UniquePartials(l);
    UniqueIsEnough(m, OpsOf(part), l, partials);
  }

  method GatherAll<S(!new), V(!new)>(m: Model<S, V>, parts: seq<seq<Entry<V>>>,
        longest: map<nat, seq<Option<seq<nat>>>>, late: (nat, nat) -> bool)
    returns (info: seq<seq<seq<nat>>>)
    requires Checkable(m, parts) && AllRecords(m, parts, longest)
    ensures |info| == |parts| && forall i :: 0 <= i < |parts| ==> Report(m, OpsOf(parts[i]), info[i], i in longest)
  {
    info := [];
    for w := 0 to |parts|
      invariant |info| == w
      invariant forall i :: 0 <= i < w ==> Report(m, OpsOf(parts[i]), info[i], i in longest)
    {
      var heard := if w in longest then Some(longest[w]) else None;
      var partials := Gather(m, parts[w], heard, (i: nat) => late(w, i));
      assert Report(m, OpsOf(parts[w]), partials, w in longest);
      info := info + [partials];
    }
  }

  /** When every worker has been heard, every part has. */
  lemma AllHeard<S(!new), V(!new)>(m: Model<S, V>, parts: seq<seq<Entry<V>>>, computeInfo: bool, workers: seq<nat>,
        count: nat, ok: bool, longest: map<nat, seq<Option<seq<nat>>>>)
    requires Checkable(m, parts) && Ids(workers, |parts|) && Distinct(workers) && count <= |workers|
    requires Heard(m, parts, computeInfo, workers[..count], ok, longest) && (ok || computeInfo ==> count == |workers|)
    ensures !ok <==> exists j :: 0 <= j < |workers| && !PartOk(m, parts, workers[j])
    ensures ok && |workers| == |parts| ==> forall i :: 0 <= i < |parts| ==> PartOk(m, parts, i)
    ensures computeInfo ==> AllRecords(m, parts, longest) && forall i: nat :: i in longest <==> i in workers
  {
    var heard := workers[..count];
    assert Open(0, heard);
    assert count == |workers| ==> heard == workers;
    if !ok {
      var j :| 0 <= j < |heard| && !PartOk(m, parts, heard[j]);
      assert heard[j] == workers[j];
    } else if |workers| == |parts| {
      forall i: nat | i < |parts|
        ensures PartOk(m, parts, i)
      {
        DistinctBounded(workers, |parts|);
        assert i in workers;
        var j :| 0 <= j < |workers| && workers[j] == i;
      }
    }
  }

  lemma ArrivedOk(sched: Schedule, n: nat)
    requires Possible(sched, n)
    ensures Ids(Arrived(sched), n) && Distinct(Arrived(sched)) && |Arrived(sched)| <= n
    ensures |Arrived(sched)| == n ==> forall i: nat :: i < n ==> i in Arrived(sched)
  {
    assert forall j :: 0 <= j < |Arrived(sched)| ==> Arrived(sched)[j] == sched.workers[j];
    DistinctBounded(Arrived(sched), n);
  }

  /**
   `late(w, i)` is what the i-th round of worker `w` reads from the kill flag when that worker
   finishes only after the timeout.
   */
  method CheckParallel<S(!new), V(!new)>(m: Model<S, V>, parts: seq<seq<Entry<V>>>, computeInfo: bool,
        sched: Schedule, late: (nat, nat) -> bool)
    returns (result: CheckResult, info: seq<seq<seq<nat>>>)
    requires Checkable(m, parts) && Possible(sched, |parts|)
    ensures Ids(Arrived(sched), |parts|)
    ensures result == Illegal <==> exists j :: 0 <= j < |Arrived(sched)| && !PartOk(m, parts, Arrived(sched)[j])
    ensures result == Ok <==>
      0 < |parts| == |Arrived(sched)| && forall i :: 0 <= i < |parts| ==> PartOk(m, parts, i)
    ensures result == Unknown ==> sched.timeout.Some?
    ensures computeInfo ==> |info| == |parts| && forall i :: 0 <= i < |parts| ==>
      Report(m, OpsOf(parts[i]), info[i], i in Arrived(sched))
  {
    var ok, timedOut, longest;
    ghost var count;
    ok, timedOut, longest, count := Collect(m, parts, computeInfo, sched);
    ArrivedOk(sched, |parts|);
    AllHeard(m, parts, computeInfo, Arrived(sched), count, ok, longest);
    result := if !ok then Illegal else if timedOut then Unknown else Ok;
    info := [];
    if computeInfo {
      info := GatherAll(m, parts, longest, late);
    }
  }

  ghost predicate AllTimely<V>(parts: seq<seq<Operation<V>>>) {
    forall i :: 0 <= i < |parts| ==> Timely(parts[i])
  }

  /** `parts` is what the model's Partition function made of the history. */
  method CheckOperations<S(!new), V(!new)>(m: Model<S, V>, parts: seq<seq<Operation<V>>>, verbose: bool,
        sched: Schedule, late: (nat, nat) -> bool)
    returns (result: CheckResult, info: seq<seq<seq<nat>>>)
    requires Lawful(m) && AllTimely(parts) && Possible(sched, |parts|)
    ensures Ids(Arrived(sched), |parts|)
    ensures result == Illegal <==>
      exists j :: 0 <= j < |Arrived(sched)| && !Linearizable(m, parts[Arrived(sched)[j]])
    ensures result == Ok <==>
      0 < |parts| == |Arrived(sched)| && forall i :: 0 <= i < |parts| ==> Linearizable(m, parts[i])
    ensures result == Unknown ==> sched.timeout.Some?
    ensures verbose ==> |info| == |parts| && forall i :: 0 <= i < |parts| ==>
      Report(m, parts[i], info[i], i in Arrived(sched))
  {
    var l: seq<seq<Entry<V>>> := [];
    for i := 0 to |parts|
      invariant |l| == i && forall j :: 0 <= j < i ==> Faithful(m, parts[j], l[j])
    {
      var e;
      ghost var perm;
      e, perm := MakeEntries(parts[i]);
      SortedIsFaithful(m, parts[i], e, perm);
      l := l + [e];
    }
    result, info := CheckParallel(m, l, verbose, sched, late);
    assert forall i :: 0 <= i < |parts| ==> (PartOk(m, l, i) <==> Linearizable(m, parts[i]));
    if verbose {
      forall i | 0 <= i < |parts|
        ensures Report(m, parts[i], info[i], i in Arrived(sched))
      {
        assert Faithful(m, parts[i], l[i]);
      }
    }
  }

  /** The entries that the events become: renumbered, with positions as times. */
  ghost predicate Recorded<V(!new)>(events: seq<Event<V>>, e: seq<Entry<V>>) {
    exists out: seq<Event<V>>, d: nat :: Renumbers(events, out, d) && IsConverted(out, e) && Count(e) == d
  }

  ghost predicate AllPaired<V>(parts: seq<seq<Event<V>>>) {
    forall i :: 0 <= i < |parts| ==> EventsPaired(parts[i])
  }

  /** `parts` is what the model's PartitionEvent function made of the events, `histories` what becomes of them. */
  method CheckEvents<S(!new), V(!new)>(m: Model<S, V>, parts: seq<seq<Event<V>>>, verbose: bool, sched: Schedule,
        late: (nat, nat) -> bool)
    returns (result: CheckResult, info: seq<seq<seq<nat>>>, histories: seq<seq<Entry<V>>>)
    requires Lawful(m) && AllPaired(parts) && Possible(sched, |parts|)
    ensures |histories| == |parts| && Checkable(m, histories)
    ensures forall i :: 0 <= i < |parts| ==> Recorded(parts[i], histories[i])
    ensures Ids(Arrived(sched), |parts|)
    ensures result == Illegal <==> exists j :: 0 <= j < |Arrived(sched)| && !PartOk(m, histories, Arrived(sched)[j])
    ensures result == Ok <==>
      0 < |parts| == |Arrived(sched)| && forall i :: 0 <= i < |parts| ==> PartOk(m, histories, i)
    ensures result == Unknown ==> sched.timeout.Some?
    ensures verbose ==> |info| == |parts| && forall i :: 0 <= i < |parts| ==>
      Report(m, OpsOf(histories[i]), info[i], i in Arrived(sched))
  {
    histories := [];
    for i := 0 to |parts|
      invariant |histories| == i
      invariant forall j :: 0 <= j < i ==> Recorded(parts[j], histories[j]) && WellFormed(histories[j])
    {
      var out;
      ghost var d;
      out, d := Renumber(parts[i]);
      var e := ConvertEntries(out);
      EventsAreWellFormed(parts[i], out, d, e);
      assert Recorded(parts[i], e);
      histories := histories + [e];
    }
    result, info := CheckParallel(m, histories, verbose, sched, late);
  }

  /** The entries have the linearizations of the operations. */
  ghost predicate Faithful<S(!new), V(!new)>(m: Model<S, V>, ops: seq<Operation<V>>, e: seq<Entry<V>>) {
    && WellFormed(e)
    && (Linearizable(m, OpsOf(e)) <==> Linearizable(m, ops))
    && forall p :: IsPartialLinearization(m, OpsOf(e), p) <==> IsPartialLinearization(m, ops, p)
  }
}
