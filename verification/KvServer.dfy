/**
 One key/value server (src/kvraft/server.go): what applying a committed entry does to the map
 and to the table of the last requests, and what a snapshot of the two is good for.
 */
module KvServer {
  import opened M = KvModels

  datatype Kind = Get | Put | Append

  /** A request is known by its clerk and the number that the clerk gave it. */
  datatype Id = Id(uid: nat, request: nat)

  datatype Op = Op(kind: Kind, key: string, value: string, id: Id)

  datatype Err = OK | ErrNoKey

  datatype Answer = Answer(err: Err, value: string)

  datatype State = State(m: Store, last: map<nat, nat>)

  const EMPTY := State(map[], map[])

  function LastRequest(s: State, uid: nat): nat {
    if uid in s.last then s.last[uid] else 0
  }

  /** Writes that the server has seen before, or that are older than one it has seen, are skipped. */
  predicate IsDuplicate(s: State, op: Op) {
    op.id.request <= LastRequest(s, op.id.uid) && op.kind != Get
  }

  function Updated(m: Store, op: Op): Store {
    match op.kind
    case Get => m
    case Put => m[op.key := op.value]
    case Append => m[op.key := Read(m, op.key) + op.value]
  }

  function Noted(last: map<nat, nat>, id: Id): map<nat, nat> {
    if (if id.uid in last then last[id.uid] else 0) < id.request then last[id.uid := id.request] else last
  }

  function Apply(s: State, op: Op): (State, Answer) {
    var answer :=
      if op.kind == Get && op.key !in s.m then Answer(ErrNoKey, "")
      else Answer(OK, if op.kind == Get then s.m[op.key] else "");
    (State(if IsDuplicate(s, op) then s.m else Updated(s.m, op), Noted(s.last, op.id)), answer)
  }

  function ApplyAll(s: State, log: seq<Op>): State
    decreases log
  {
    if log == [] then s else ApplyAll(Apply(s, log[0]).0, log[1..])
  }

  function Replay(log: seq<Op>): State {
    ApplyAll(EMPTY, log)
  }

  /** What a request is told: a write that all is well, a Get what the map holds, or that it holds nothing. */
  ghost predicate IsAnswer(m: Store, op: Op, answer: Answer) {
    if op.kind != Get then answer == Answer(OK, "")
    else if op.key in m then answer == Answer(OK, m[op.key])
    else answer == Answer(ErrNoKey, "")
  }

  lemma AnswerIs(s: State, op: Op)
    ensures IsAnswer(s.m, op, Apply(s, op).1)
  {
  }

  /** The request is a write that the table does not cover. */
  predicate IsNew(s: State, op: Op) {
    op.kind != Get && op.id.request > 0 && (op.id.uid in s.last ==> s.last[op.id.uid] < op.id.request)
  }

  /** A new write gives its key the value, or appends it to what is there; nothing else changes the map. */
  lemma UpdateIs(s: State, op: Op)
    ensures !IsNew(s, op) ==> Apply(s, op).0.m == s.m
    ensures IsNew(s, op) ==>
      var m := Apply(s, op).0.m;
      && (forall k :: k in m <==> k in s.m || k == op.key) && (forall k :: k in s.m && k != op.key ==> m[k] == s.m[k])
      && m[op.key] == (if op.kind == Append && op.key in s.m then s.m[op.key] else "") + op.value
  {
    assert op.value == "" + op.value;
  }

  // ----- Laws of replaying -----

  lemma {:induction false} ApplyAllConcat(s: State, x: seq<Op>, y: seq<Op>)
    ensures ApplyAll(s, x + y) == ApplyAll(ApplyAll(s, x), y)
    decreases x
  {
    if x == [] {
      assert x + y == y;
    } else {
      assert (x + y)[1..] == x[1..] + y;
      ApplyAllConcat(Apply(s, x[0]).0, x[1..], y);
    }
  }

  lemma ReplaySnoc(log: seq<Op>, n: nat)
    requires n < |log|
    ensures Replay(log[..n+1]) == Apply(Replay(log[..n]), log[n]).0
  {
    assert log[..n+1] == log[..n] + [log[n]];
    ApplyAllConcat(EMPTY, log[..n], [log[n]]);
    assert ApplyAll(Replay(log[..n]), [log[n]]) == ApplyAll(Apply(Replay(log[..n]), log[n]).0, [log[n]][1..]);
  }

  /** The table holds, for every clerk, the largest number that has been applied. */
  lemma {:induction false} LastIsLargest(log: seq<Op>, n: nat, uid: nat)
    requires n <= |log|
    ensures forall q :: 0 <= q < n && log[q].id.uid == uid ==> log[q].id.request <= LastRequest(Replay(log[..n]), uid)
    ensures LastRequest(Replay(log[..n]), uid) == 0 ||
      exists q :: 0 <= q < n && log[q].id == Id(uid, LastRequest(Replay(log[..n]), uid))
    decreases n
  {
    if n > 0 {
      LastIsLargest(log, n - 1, uid);
      ReplaySnoc(log, n - 1);
      var was, now := LastRequest(Replay(log[..n-1]), uid), LastRequest(Replay(log[..n]), uid);
      if now != was {
        assert log[n-1].id == Id(uid, now);
      }
    } else {
      assert log[..0] == [];
    }
  }

  /** An entry that is covered by the table changes nothing. */
  lemma {:induction false} CoveredChangesNothing(s: State, late: seq<Op>)
    requires forall q :: 0 <= q < |late| ==> late[q].id.request <= LastRequest(s, late[q].id.uid)
    ensures ApplyAll(s, late) == s
    decreases late
  {
    if late != [] {
      assert Apply(s, late[0]).0 == s;
      CoveredChangesNothing(s, late[1..]);
    }
  }

  /** Entries that arrive after a snapshot that contains them leave the map and the table as they are. */
  lemma LateEntries(log: seq<Op>, i: nat, j: nat)
    requires i <= j <= |log|
    ensures ApplyAll(Replay(log[..j]), log[i..j]) == Replay(log[..j])
  {
    var late := log[i..j];
    forall q | 0 <= q < |late|
      ensures late[q].id.request <= LastRequest(Replay(log[..j]), late[q].id.uid)
    {
      LastIsLargest(log, j, late[q].id.uid);
      assert late[q] == log[i + q];
    }
    CoveredChangesNothing(Replay(log[..j]), late);
  }

  /** A snapshot and everything from any earlier point on amount to the whole log. */
  lemma SnapshotAndSuffix(log: seq<Op>, i: nat, j: nat)
    requires i <= j <= |log|
    ensures ApplyAll(Replay(log[..j]), log[i..]) == Replay(log)
  {
    LateEntries(log, i, j);
    assert log[i..] == log[i..j] + log[j..];
    ApplyAllConcat(Replay(log[..j]), log[i..j], log[j..]);
    assert log == log[..j] + log[j..];
    ApplyAllConcat(EMPTY, log[..j], log[j..]);
  }

  // ----- The server -----

  /** What a snapshot holds; bytes that do not decode hold nothing. */
  datatype Snapshot = Undecodable | Snapshot(state: State)

  /** What a server starts from. */
  function Restored(data: Snapshot): State {
    if data.Snapshot? then data.state else EMPTY
  }

  /** Some request of the clerk with at least that number is in the log. */
  ghost predicate Covers(log: seq<Op>, id: Id) {
    exists q :: 0 <= q < |log| && log[q].id.uid == id.uid && log[q].id.request >= id.request
  }

  lemma TableCovers(log: seq<Op>, id: Id)
    requires id.request > 0
    ensures id.request <= LastRequest(Replay(log), id.uid) <==> Covers(log, id)
  {
    assert log[..|log|] == log;
    LastIsLargest(log, |log|, id.uid);
  }

  class KVServer {
    var m: map<string, string>
    var lastRequestId: map<nat, nat>
    /** The answers on their way to waiting requests, by request and log index. */
    var waitChan: map<(Id, nat), Answer>

    ghost function Value(): State
      reads this
    {
      State(m, lastRequestId)
    }

    constructor (snapshot: Snapshot)
      ensures Value() == Restored(snapshot) && waitChan == map[]
    {
      m, lastRequestId, waitChan := map[], map[], map[];
      new;
      ReadSnapshot(snapshot);
    }

    /**
     A server that starts from the snapshot is this server; and if this one has applied the first `j`
     entries of a log, then starting from the snapshot and applying everything from any earlier
     entry on gives what the whole log gives.
     */
    method CreateSnapshot() returns (data: Snapshot)
      ensures Restored(data) == Value()
      ensures forall log: seq<Op>, i: nat, j: nat :: i <= j <= |log| && Value() == Replay(log[..j]) ==>
        ApplyAll(Restored(data), log[i..]) == Replay(log)
    {
      data := Snapshot(State(m, lastRequestId));
      forall log: seq<Op>, i: nat, j: nat | i <= j <= |log| && Value() == Replay(log[..j])
        ensures ApplyAll(Restored(data), log[i..]) == Replay(log)
      {
        SnapshotAndSuffix(log, i, j);
      }
    }

    method ReadSnapshot(data: Snapshot)
      modifies `m, `lastRequestId
      ensures Value() == if data.Snapshot? then data.state else old(Value())
    {
      if data.Snapshot? {
        m, lastRequestId := data.state.m, data.state.last;
      }
    }

    /** The early answer of PutAppend: OK exactly if what has been applied covers the request. */
    method IsApplied(id: Id) returns (ok: bool)
      ensures ok <==> id.request <= LastRequest(Value(), id.uid)
      ensures forall log :: Value() == Replay(log) && id.request > 0 ==> (ok <==> Covers(log, id))
    {
      ok := id.request <= if id.uid in lastRequestId then lastRequestId[id.uid] else 0;
      forall log | Value() == Replay(log) && id.request > 0
        ensures ok <==> Covers(log, id)
      {
        TableCovers(log, id);
      }
    }

    method SendAnswer(id: Id, index: nat, answer: Answer)
      modifies `waitChan
      ensures waitChan == old(waitChan)[(id, index) := answer]
    {
      waitChan := waitChan[(id, index) := answer];
    }

    method FetchApply(op: Op, index: nat, isLeader: bool)
      modifies this
      ensures Value() == Apply(old(Value()), op).0
      ensures waitChan == if isLeader then old(waitChan)[(op.id, index) := Apply(old(Value()), op).1] else old(waitChan)
      ensures isLeader ==> IsAnswer(old(m), op, waitChan[(op.id, index)])
    {
      var answer := Answer(OK, "");
      var last := if op.id.uid in lastRequestId then lastRequestId[op.id.uid] else 0;
      if !(op.id.request <= last && op.kind != Get) {
        if op.kind != Get {
          if op.kind == Put {
            m := m[op.key := op.value];
          } else {
            m := m[op.key := (if op.key in m then m[op.key] else "") + op.value];
          }
        } else if op.key in m {
          answer := answer.(value := m[op.key]);
        } else {
          answer := answer.(err := ErrNoKey);
        }
      }
      if last < op.id.request {
        lastRequestId := lastRequestId[op.id.uid := op.id.request];
      }
      if isLeader {
        SendAnswer(op.id, index, answer);
      }
    }
  }
}
