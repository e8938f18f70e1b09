/**
 The replicated key/value service (src/kvraft): clerks that retry without bound, replicas that
 lag behind, crash and install snapshots, and Raft as a committed log that only grows.  Every
 reachable history is linearizable: each Put and Append takes effect exactly once, at its
 first place in the log, and each Get returns what the map holds at the place it was answered.
 */
module KvService {
  import opened Sealing
  import opened Histories
  import M = KvModels
  import opened KvServer

  /** What the clerk returned, when, and how long the log was; `place` is where it took effect. */
  datatype Result = Result(output: string, at: nat, length: nat, place: nat)

  /** One call of a clerk: when it was made, and how long the log was then. */
  datatype Call = Call(op: Op, at: nat, length: nat, result: Option<Result>)

  datatype Clerk = Clerk(requestId: nat, busy: bool)

  datatype Replica = Replica(applied: nat, state: State, waitChan: map<(Id, nat), Answer>)

  datatype Image = Image(index: nat, state: State)

  /** An answer on its way to a clerk; `place` is history. */
  datatype Reply = Reply(id: Id, output: string, place: nat)

  datatype Service = Service(
    log: seq<Op>, replicas: seq<Replica>, clerks: seq<Clerk>, snapshots: set<Image>, replies: set<Reply>,
    calls: map<Id, Call>, clock: nat)

  datatype Action =
    | Invoke(uid: nat, kind: Kind, key: string, value: string)
    | Commit(id: Id)
    | ApplyNext(r: nat, isLeader: bool)
    | TakeSnapshot(r: nat)
    | Install(r: nat, image: Image)
    | Restart(r: nat)
    | AnswerApplied(id: Id, r: nat, index: nat)
    | AnswerEarly(id: Id, r: nat)
    | Return(uid: nat, reply: Reply)

  ghost predicate Init(sv: Service) {
    && sv.log == [] && sv.snapshots == {} && sv.replies == {} && sv.calls == map[] && sv.clock == 0
    && (forall r :: 0 <= r < |sv.replicas| ==> sv.replicas[r] == Replica(0, EMPTY, map[]))
    && (forall u :: 0 <= u < |sv.clerks| ==> sv.clerks[u] == Clerk(0, false))
  }

  ghost function CurrentId(sv: Service, uid: nat): Id
    requires uid < |sv.clerks|
  {
    Id(uid, sv.clerks[uid].requestId)
  }

  /**
   A clerk makes one call at a time.  A request may be committed at any time after it was made, any number of
   times, and may be answered by any server, crashed since then or not, before the clerk hears of it.
   */
  ghost predicate Enabled(sv: Service, a: Action) {
    match a
    case Invoke(uid, _, _, _) => uid < |sv.clerks| && !sv.clerks[uid].busy
    case Commit(id) => id in sv.calls
    case ApplyNext(r, _) => r < |sv.replicas| && sv.replicas[r].applied < |sv.log|
    case TakeSnapshot(r) => r < |sv.replicas|
    case Install(r, image) => r < |sv.replicas| && image in sv.snapshots
    case Restart(r) => r < |sv.replicas|
    case AnswerApplied(id, r, index) =>
      && r < |sv.replicas| && id in sv.calls && (id, index) in sv.replicas[r].waitChan
      && (sv.calls[id].op.kind != Get ==> sv.replicas[r].waitChan[(id, index)].err == OK)
    case AnswerEarly(id, r) =>
      && r < |sv.replicas| && id in sv.calls && sv.calls[id].op.kind != Get
      && id.request <= LastRequest(sv.replicas[r].state, id.uid)
    case Return(uid, reply) =>
      && uid < |sv.clerks| && sv.clerks[uid].busy && CurrentId(sv, uid) in sv.calls
      && reply in sv.replies && reply.id == CurrentId(sv, uid)
  }

  /** The first place of a request in the log, or its length. */
  function FirstPlace(log: seq<Op>, id: Id): (p: nat)
    ensures p <= |log| && (p < |log| ==> log[p].id == id)
    ensures forall q :: 0 <= q < p ==> log[q].id != id
    decreases |log|
  {
    if log == [] then 0
    else
      var p := FirstPlace(log[..|log|-1], id);
      if p < |log| - 1 || log[|log|-1].id == id then p else |log|
  }

  ghost function Returned(sv: Service, uid: nat, output: string, place: nat): Service
    requires uid < |sv.clerks| && CurrentId(sv, uid) in sv.calls
  {
    var id := CurrentId(sv, uid);
    var call := sv.calls[id];
    sv.(clerks := sv.clerks[uid := sv.clerks[uid].(busy := false)],
        calls := sv.calls[id := call.(result := Some(Result(output, sv.clock, |sv.log|, place)))],
        clock := sv.clock + 1)
  }

  ghost function Next(sv: Service, a: Action): Service
    requires Enabled(sv, a)
  {
    match a
    case Invoke(uid, kind, key, value) =>
      var clerk := Clerk(sv.clerks[uid].requestId + 1, true);
      var id := Id(uid, clerk.requestId);
      sv.(clerks := sv.clerks[uid := clerk],
          calls := sv.calls[id := Call(Op(kind, key, value, id), sv.clock, |sv.log|, None)],
          clock := sv.clock + 1)
    case Commit(id) => sv.(log := sv.log + [sv.calls[id].op])
    case ApplyNext(r, isLeader) =>
      var rep := sv.replicas[r];
      var op := sv.log[rep.applied];
      var res := Apply(rep.state, op);
      sv.(replicas := sv.replicas[r := Replica(rep.applied + 1, res.0,
        if isLeader then rep.waitChan[(op.id, rep.applied) := res.1] else rep.waitChan)])
    case TakeSnapshot(r) => sv.(snapshots := sv.snapshots + {Image(sv.replicas[r].applied, sv.replicas[r].state)})
    case Install(r, image) =>
      sv.(replicas := sv.replicas[r := sv.replicas[r].(applied := image.index, state := image.state)])
    case Restart(r) => sv.(replicas := sv.replicas[r := Replica(0, EMPTY, map[])])
    case AnswerApplied(id, r, index) =>
      var answer := sv.replicas[r].waitChan[(id, index)];
      var reply :=
        if sv.calls[id].op.kind == Get then Reply(id, if answer.err == ErrNoKey then "" else answer.value, index)
        else Reply(id, "", FirstPlace(sv.log, id));
      sv.(replies := sv.replies + {reply})
    case AnswerEarly(id, r) => sv.(replies := sv.replies + {Reply(id, "", FirstPlace(sv.log, id))})
    case Return(uid, reply) => Returned(sv, uid, reply.output, reply.place)
  }

  ghost predicate IsRun(run: seq<Service>, actions: seq<Action>) {
    && |run| == |actions| + 1 && Init(run[0])
    && forall k: nat :: k < |actions| ==> Enabled(run[k], actions[k]) && run[k+1] == Next(run[k], actions[k])
  }

  // ----- The invariant -----

  /** A finished call took effect while it was going on. */
  ghost predicate ResultOk(log: seq<Op>, id: Id, call: Call, r: Result) {
    && call.at < r.at && r.place < r.length <= |log| && log[r.place].id == id
    && (if call.op.kind == Get then r.output == M.Read(Replay(log[..r.place]).m, call.op.key)
         else r.place == FirstPlace(log, id))
  }

  ghost predicate CallOk(log: seq<Op>, clerks: seq<Clerk>, clock: nat, id: Id, call: Call) {
    && id.uid < |clerks| && 1 <= id.request <= clerks[id.uid].requestId
    && call.op.id == id && call.at < clock && call.length <= |log|
    && (call.result.Some? <==> id.request < clerks[id.uid].requestId || !clerks[id.uid].busy)
    && (call.result.Some? ==> call.result.value.at < clock && ResultOk(log, id, call, call.result.value))
  }

  /** An earlier call of the same clerk was over before a later one began. */
  ghost predicate InTurn(a: Call, b: Call) {
    a.op.id.uid == b.op.id.uid && a.op.id.request < b.op.id.request ==>
      a.result.Some? && a.result.value.length <= b.length
  }

  /** The clock and the log agree on what came first. */
  ghost predicate InTime(a: Call, b: Call) {
    a.result.Some? && a.result.value.at < b.at ==> a.result.value.length <= b.length
  }

  /** An entry is a call that was made before. */
  ghost predicate EntryOk(log: seq<Op>, calls: map<Id, Call>, p: nat)
    requires p < |log|
  {
    log[p].id in calls && calls[log[p].id].op == log[p] && calls[log[p].id].length <= p
  }

  ghost predicate ImageOk(log: seq<Op>, index: nat, state: State) {
    index <= |log| && state == Replay(log[..index])
  }

  ghost predicate AnswerOk(log: seq<Op>, id: Id, index: nat, answer: Answer) {
    index < |log| && log[index].id == id && answer == Apply(Replay(log[..index]), log[index]).1
  }

  ghost predicate ReplicaOk(log: seq<Op>, rep: Replica) {
    && ImageOk(log, rep.applied, rep.state)
    && forall k :: k in rep.waitChan ==> AnswerOk(log, k.0, k.1, rep.waitChan[k])
  }

  /** An answer on its way says what is so at its place in the log. */
  ghost predicate ReplyOk(log: seq<Op>, reply: Reply) {
    && reply.place < |log| && log[reply.place].id == reply.id
    && var op := log[reply.place];
       if op.kind == Get then reply.output == M.Read(Replay(log[..reply.place]).m, op.key)
       else reply.place == FirstPlace(log, reply.id)
  }

  ghost predicate Calls(sv: Service) {
    forall x: nat :: Open(x, sv.calls) ==>
      && (forall id :: id in sv.calls ==> CallOk(sv.log, sv.clerks, sv.clock, id, sv.calls[id]))
      && (forall u, k :: 0 <= u < |sv.clerks| && 1 <= k <= sv.clerks[u].requestId ==> Id(u, k) in sv.calls)
      && (forall a, b :: a in sv.calls && b in sv.calls ==>
           InTurn(sv.calls[a], sv.calls[b]) && InTime(sv.calls[a], sv.calls[b]))
      && (forall p: nat :: p < |sv.log| ==> EntryOk(sv.log, sv.calls, p))
  }

  ghost predicate Replicas(sv: Service) {
    && (forall r :: 0 <= r < |sv.replicas| ==> ReplicaOk(sv.log, sv.replicas[r]))
    && (forall i :: i in sv.snapshots ==> ImageOk(sv.log, i.index, i.state))
    && (forall x :: x in sv.replies ==> ReplyOk(sv.log, x))
  }

  ghost predicate Inv(sv: Service) {
    Calls(sv) && Replicas(sv)
  }

  // ----- Replicas -----

  lemma FirstPlaceStays(log: seq<Op>, op: Op, id: Id)
    requires FirstPlace(log, id) < |log|
    ensures FirstPlace(log + [op], id) == FirstPlace(log, id)
  {
    assert (log + [op])[..|log|] == log;
  }

  lemma ReplicaStays(log: seq<Op>, op: Op, rep: Replica)
    requires ReplicaOk(log, rep)
    ensures ReplicaOk(log + [op], rep)
  {
    assert (log + [op])[..rep.applied] == log[..rep.applied];
    forall k | k in rep.waitChan
      ensures AnswerOk(log + [op], k.0, k.1, rep.waitChan[k])
    {
      assert AnswerOk(log, k.0, k.1, rep.waitChan[k]);
      assert (log + [op])[..k.1] == log[..k.1];
    }
  }

  lemma ApplyNextOk(log: seq<Op>, rep: Replica, isLeader: bool)
    requires ReplicaOk(log, rep) && rep.applied < |log|
    ensures var op := log[rep.applied]; var res := Apply(rep.state, op);
      ReplicaOk(log, Replica(rep.applied + 1, res.0,
        if isLeader then rep.waitChan[(op.id, rep.applied) := res.1] else rep.waitChan))
  {
    ReplaySnoc(log, rep.applied);
  }

  lemma ReplyStays(log: seq<Op>, op: Op, reply: Reply)
    requires ReplyOk(log, reply)
    ensures ReplyOk(log + [op], reply)
  {
    assert (log + [op])[..reply.place] == log[..reply.place];
    if log[reply.place].kind != Get {
      FirstPlaceStays(log, op, reply.id);
    }
  }

  lemma ReplicasGrow(sv: Service, op: Op)
    requires Replicas(sv)
    ensures Replicas(sv.(log := sv.log + [op]))
  {
    forall r | 0 <= r < |sv.replicas|
      ensures ReplicaOk(sv.log + [op], sv.replicas[r])
    {
      ReplicaStays(sv.log, op, sv.replicas[r]);
    }
    forall i | i in sv.snapshots
      ensures ImageOk(sv.log + [op], i.index, i.state)
    {
      assert (sv.log + [op])[..i.index] == sv.log[..i.index];
    }
    forall x | x in sv.replies
      ensures ReplyOk(sv.log + [op], x)
    {
      ReplyStays(sv.log, op, x);
    }
  }

  lemma ReplicasKept(sv: Service, a: Action)
    requires Inv(sv) && Enabled(sv, a)
    ensures Replicas(Next(sv, a))
  {
    match a
    case Commit(id) => ReplicasGrow(sv, sv.calls[id].op);
    case AnswerApplied(_, _, _) => AnswerAppliedOk(sv, a);
    case AnswerEarly(id, r) => SeenIsLogged(sv, id, r);
    case ApplyNext(r, isLeader) => ApplyNextOk(sv.log, sv.replicas[r], isLeader);
    case TakeSnapshot(r) => assert ReplicaOk(sv.log, sv.replicas[r]);
    case Install(r, image) => assert ReplicaOk(sv.log, sv.replicas[r]);
    case Restart(r) => assert sv.log[..0] == [];
    case _ =>
  }

  // ----- Calls -----

  lemma InvokeCallOk(log: seq<Op>, clerks: seq<Clerk>, clock: nat, uid: nat, id: Id, call: Call)
    requires CallOk(log, clerks, clock, id, call) && uid < |clerks| && !clerks[uid].busy
    ensures CallOk(log, clerks[uid := Clerk(clerks[uid].requestId + 1, true)], clock + 1, id, call)
  {
  }

  ghost function Invoked(sv: Service, uid: nat, call: Call): Service
    requires uid < |sv.clerks|
  {
    sv.(clerks := sv.clerks[uid := Clerk(sv.clerks[uid].requestId + 1, true)],
        calls := sv.calls[call.op.id := call],
        clock := sv.clock + 1)
  }

  lemma InvokeKept(sv: Service, uid: nat, call: Call)
    requires Inv(sv) && uid < |sv.clerks| && !sv.clerks[uid].busy
    requires call.op.id == Id(uid, sv.clerks[uid].requestId + 1) && call.at == sv.clock && call.length == |sv.log| &&
      call.result.None?
    ensures Calls(Invoked(sv, uid, call))
  {
    assert Open(0, sv.calls);
    var sv', id := Invoked(sv, uid, call), call.op.id;
    assert id !in sv.calls by {
      assert id in sv.calls ==> CallOk(sv.log, sv.clerks, sv.clock, id, sv.calls[id]);
    }
    forall b | b in sv.calls
      ensures CallOk(sv'.log, sv'.clerks, sv'.clock, b, sv.calls[b])
      ensures InTurn(sv.calls[b], call) && InTime(sv.calls[b], call) && InTurn(call, sv.calls[b]) &&
        InTime(call, sv.calls[b])
    {
      assert CallOk(sv.log, sv.clerks, sv.clock, b, sv.calls[b]);
      InvokeCallOk(sv.log, sv.clerks, sv.clock, uid, b, sv.calls[b]);
    }
    forall p: nat | p < |sv'.log|
      ensures EntryOk(sv'.log, sv'.calls, p)
    {
      assert EntryOk(sv.log, sv.calls, p);
    }
  }

  lemma CommitKept(sv: Service, a: Action)
    requires Inv(sv) && Enabled(sv, a) && a.Commit?
    ensures Calls(Next(sv, a))
  {
    assert Open(0, sv.calls);
    var op := sv.calls[a.id].op;
    var log' := sv.log + [op];
    forall id | id in sv.calls
      ensures CallOk(log', sv.clerks, sv.clock, id, sv.calls[id])
    {
      var call := sv.calls[id];
      assert CallOk(sv.log, sv.clerks, sv.clock, id, call);
      if call.result.Some? {
        var place := call.result.value.place;
        assert log'[..place] == sv.log[..place];
        FirstPlaceStays(sv.log, op, id);
      }
    }
    forall p: nat | p < |log'|
      ensures EntryOk(log', sv.calls, p)
    {
      if p < |sv.log| {
        assert EntryOk(sv.log, sv.calls, p);
      } else {
        assert CallOk(sv.log, sv.clerks, sv.clock, a.id, sv.calls[a.id]);
      }
    }
  }

  /** A call as it was, or returned just now. */
  ghost predicate MayReturn(clock: nat, length: nat, a: Call, a': Call) {
    a' == a || (a.result.None? && exists output, place ::
      a' == a.(result := Some(Result(output, clock, length, place))))
  }

  lemma ReturnInTurn(clock: nat, length: nat, a: Call, a': Call, b: Call, b': Call)
    requires InTurn(a, b) && InTime(a, b) && MayReturn(clock, length, a, a') && MayReturn(clock, length, b, b') &&
      b.at < clock
    ensures InTurn(a', b') && InTime(a', b')
  {
  }

  lemma ReturnCallOk(log: seq<Op>, clerks: seq<Clerk>, clock: nat, uid: nat, id: Id, call: Call, r: Result)
    requires CallOk(log, clerks, clock, id, call) && uid < |clerks| && clerks[uid].busy
    requires id == Id(uid, clerks[uid].requestId) ==> r.at == clock && ResultOk(log, id, call, r)
    ensures CallOk(log, clerks[uid := clerks[uid].(busy := false)], clock + 1, id,
      if id == Id(uid, clerks[uid].requestId) then call.(result := Some(r)) else call)
  {
  }

  /** Returning, once it is clear that the call has taken effect. */
  lemma ReturnKept(sv: Service, uid: nat, output: string, place: nat)
    requires Calls(sv) && uid < |sv.clerks| && sv.clerks[uid].busy && CurrentId(sv, uid) in sv.calls
    requires place < |sv.log| && sv.log[place].id == CurrentId(sv, uid)
    requires var op := sv.calls[CurrentId(sv, uid)].op;
      if op.kind == Get then output == M.Read(Replay(sv.log[..place]).m, op.key)
      else place == FirstPlace(sv.log, CurrentId(sv, uid))
    ensures Calls(Returned(sv, uid, output, place))
  {
    assert Open(0, sv.calls);
    var sv' := Returned(sv, uid, output, place);
    forall b | b in sv'.calls
      ensures CallOk(sv'.log, sv'.clerks, sv'.clock, b, sv'.calls[b])
    {
      assert CallOk(sv.log, sv.clerks, sv.clock, b, sv.calls[b]);
      ReturnCallOk(sv.log, sv.clerks, sv.clock, uid, b, sv.calls[b], Result(output, sv.clock, |sv.log|, place));
    }
    forall b, c | b in sv'.calls && c in sv'.calls
      ensures InTurn(sv'.calls[b], sv'.calls[c]) && InTime(sv'.calls[b], sv'.calls[c])
    {
      assert CallOk(sv.log, sv.clerks, sv.clock, b, sv.calls[b]) && CallOk(sv.log, sv.clerks, sv.clock, c, sv.calls[c]);
      assert InTurn(sv.calls[b], sv.calls[c]) && InTime(sv.calls[b], sv.calls[c]);
      ReturnInTurn(sv.clock, |sv.log|, sv.calls[b], sv'.calls[b], sv.calls[c], sv'.calls[c]);
    }
    forall p: nat | p < |sv'.log|
      ensures EntryOk(sv'.log, sv'.calls, p)
    {
      assert EntryOk(sv.log, sv.calls, p);
    }
  }

  /** The answer of a server that has applied the request. */
  lemma AnswerAppliedOk(sv: Service, a: Action)
    requires Inv(sv) && Enabled(sv, a) && a.AnswerApplied?
    ensures forall x :: x in Next(sv, a).replies ==> ReplyOk(sv.log, x)
  {
    var answer := sv.replicas[a.r].waitChan[(a.id, a.index)];
    assert ReplicaOk(sv.log, sv.replicas[a.r]);
    assert AnswerOk(sv.log, a.id, a.index, answer);
    assert EntryOk(sv.log, sv.calls, a.index) by { assert Open(0, sv.calls); }
    FirstIsSame(sv, a.index);
  }

  /** The first place of a request holds the same request. */
  lemma FirstIsSame(sv: Service, p: nat)
    requires Inv(sv) && p < |sv.log|
    ensures var first := FirstPlace(sv.log, sv.log[p].id); first < |sv.log| && sv.log[first] == sv.log[p]
  {
    var first := FirstPlace(sv.log, sv.log[p].id);
    assert EntryOk(sv.log, sv.calls, p) && EntryOk(sv.log, sv.calls, first) by { assert Open(0, sv.calls); }
  }

  /** If some server has seen a request, or a later one of that clerk, then the request is in the log. */
  lemma SeenIsLogged(sv: Service, id: Id, r: nat)
    requires Inv(sv) && r < |sv.replicas| && id in sv.calls && id.request <= LastRequest(sv.replicas[r].state, id.uid)
    ensures FirstPlace(sv.log, id) < |sv.log| && sv.log[FirstPlace(sv.log, id)] == sv.calls[id].op
  {
    assert Open(0, sv.calls);
    assert CallOk(sv.log, sv.clerks, sv.clock, id, sv.calls[id]);
    assert ReplicaOk(sv.log, sv.replicas[r]);
    var last := LastRequest(sv.replicas[r].state, id.uid);
    LastIsLargest(sv.log, sv.replicas[r].applied, id.uid);
    var q: nat :| q < sv.replicas[r].applied && sv.log[q].id == Id(id.uid, last);
    assert EntryOk(sv.log, sv.calls, q);
    var later := sv.log[q].id;
    assert InTurn(sv.calls[id], sv.calls[later]);
    assert id.request < last ==> sv.calls[id].result.Some?;
    var first := FirstPlace(sv.log, id);
    assert first < |sv.log|;
    assert EntryOk(sv.log, sv.calls, first);
  }

  lemma ReturnIsKept(sv: Service, a: Action)
    requires Inv(sv) && Enabled(sv, a) && a.Return?
    ensures Calls(Next(sv, a))
  {
    assert ReplyOk(sv.log, a.reply);
    assert EntryOk(sv.log, sv.calls, a.reply.place) by { assert Open(0, sv.calls); }
    ReturnKept(sv, a.uid, a.reply.output, a.reply.place);
  }

  lemma NextKeeps(sv: Service, a: Action)
    requires Inv(sv) && Enabled(sv, a)
    ensures Inv(Next(sv, a))
  {
    ReplicasKept(sv, a);
    match a
    case Invoke(uid, kind, key, value) =>
      var id := Id(uid, sv.clerks[uid].requestId + 1);
      InvokeKept(sv, uid, Call(Op(kind, key, value, id), sv.clock, |sv.log|, None));
    case Commit(_) => CommitKept(sv, a);
    case Return(_, _) => ReturnIsKept(sv, a);
    case _ => OthersKept(sv, Next(sv, a));
  }

  lemma OthersKept(sv: Service, sv': Service)
    requires Calls(sv) && sv'.log == sv.log && sv'.calls == sv.calls && sv'.clerks == sv.clerks && sv'.clock == sv.clock
    ensures Calls(sv')
  {
    assert Open(0, sv.calls);
  }

  lemma {:induction false} RunInv(run: seq<Service>, actions: seq<Action>, k: nat)
    requires IsRun(run, actions) && k < |run|
    ensures Inv(run[k])
    decreases k
  {
    if k == 0 {
      assert run[0].log[..0] == [];
    } else {
      RunInv(run, actions, k - 1);
      NextKeeps(run[k-1], actions[k-1]);
    }
  }

  // ----- Exactly once -----

  /** The first time a write comes up in the log it is applied, and never again. */
  lemma ExactlyOnce(sv: Service, p: nat)
    requires Inv(sv) && p < |sv.log| && sv.log[p].kind != Get
    ensures IsDuplicate(Replay(sv.log[..p]), sv.log[p]) <==> FirstPlace(sv.log, sv.log[p].id) != p
  {
    var id := sv.log[p].id;
    LastIsLargest(sv.log, p, id.uid);
    var first := FirstPlace(sv.log, id);
    if first == p {
      assert id.request >= 1 by {
        assert Open(0, sv.calls);
        assert EntryOk(sv.log, sv.calls, p) && CallOk(sv.log, sv.clerks, sv.clock, id, sv.calls[id]);
      }
      var last := LastRequest(Replay(sv.log[..p]), id.uid);
      if last != 0 {
        var q: nat :| q < p && sv.log[q].id == Id(id.uid, last);
        NotOvertaken(sv, q, p);
      }
    } else {
      assert first < p && sv.log[first].id == id;
    }
  }

  /** Nothing of the same clerk with a larger number comes before the first place of a request. */
  lemma NotOvertaken(sv: Service, q: nat, p: nat)
    requires Inv(sv) && q < p < |sv.log| && sv.log[q].id.uid == sv.log[p].id.uid &&
      FirstPlace(sv.log, sv.log[p].id) == p
    ensures sv.log[q].id.request < sv.log[p].id.request
  {
    assert Open(0, sv.calls);
    var a, b := sv.log[p].id, sv.log[q].id;
    assert EntryOk(sv.log, sv.calls, p) && EntryOk(sv.log, sv.calls, q);
    assert CallOk(sv.log, sv.clerks, sv.clock, a, sv.calls[a]);
    assert InTurn(sv.calls[a], sv.calls[b]);
  }

  // ----- The linearization -----

  /** The entry is the one at which its call takes effect. */
  ghost predicate Effective(sv: Service, p: nat)
    requires p < |sv.log|
  {
    var op := sv.log[p];
    if op.kind == Get then op.id in sv.calls && sv.calls[op.id].result.Some? && sv.calls[op.id].result.value.place == p
    else FirstPlace(sv.log, op.id) == p
  }

  /** The entries at which calls take effect, among the first `n`. */
  ghost function Order(sv: Service, n: nat): (order: seq<nat>)
    requires n <= |sv.log|
    ensures forall i :: 0 <= i < |order| ==> order[i] < n
  {
    if n == 0 then [] else if Effective(sv, n - 1) then Order(sv, n - 1) + [n - 1] else Order(sv, n - 1)
  }

  ghost predicate OrderOk(sv: Service, n: nat, order: seq<nat>)
    requires n <= |sv.log|
  {
    forall k: nat :: Open(k, order) ==>
      && (forall i :: 0 <= i < |order| ==> order[i] < n && Effective(sv, order[i]))
      && (forall i, j :: 0 <= i < j < |order| ==> order[i] < order[j])
      && (forall p: nat :: p < n && Effective(sv, p) ==> p in order)
  }

  lemma OrderSnoc(sv: Service, n: nat, order: seq<nat>)
    requires n < |sv.log| && OrderOk(sv, n, order)
    ensures OrderOk(sv, n + 1, if Effective(sv, n) then order + [n] else order)
  {
    assert Open(0, order);
    if Effective(sv, n) {
      var order' := order + [n];
      forall p: nat | p < n + 1 && Effective(sv, p)
        ensures p in order'
      {
        if p == n {
          assert order'[|order|] == n;
        } else {
          var i :| 0 <= i < |order| && order[i] == p;
          assert order'[i] == p;
        }
      }
    }
  }

  lemma {:induction false} OrderFacts(sv: Service, n: nat)
    requires n <= |sv.log|
    ensures OrderOk(sv, n, Order(sv, n))
    decreases n
  {
    if n > 0 {
      OrderFacts(sv, n - 1);
      OrderSnoc(sv, n - 1, Order(sv, n - 1));
    }
  }

  function InputOf(op: Op): M.Kv {
    M.KvInput(match op.kind case Get => 0 case Put => 1 case Append => 2, op.key, op.value)
  }

  /** The call as an operation; one that is still going on ends now. */
  ghost function Finished(sv: Service, id: Id): Operation<M.Kv>
    requires id in sv.calls
  {
    var call := sv.calls[id];
    match call.result
    case Some(r) => Operation(InputOf(call.op), call.at, M.KvOutput(r.output), r.at)
    case None => Operation(InputOf(call.op), call.at, M.KvOutput(""), sv.clock)
  }

  /** A history of the finished calls, and of calls still going on that have taken effect already. */
  ghost predicate IsHistory(sv: Service, ids: seq<Id>, ops: seq<Operation<M.Kv>>) {
    && |ops| == |ids| && Distinct(ids)
    && (forall i :: 0 <= i < |ids| ==> ids[i] in sv.calls && ops[i] == Finished(sv, ids[i]))
    && (forall id :: id in sv.calls && sv.calls[id].result.Some? ==> id in ids)
  }

  /** The calls of the entries in `order`. */
  ghost predicate Lists(sv: Service, order: seq<nat>, ids: seq<Id>, ops: seq<Operation<M.Kv>>) {
    && |ids| == |ops| == |order|
    && forall i :: 0 <= i < |order| ==>
         order[i] < |sv.log| && ids[i] == sv.log[order[i]].id && ids[i] in sv.calls && ops[i] == Finished(sv, ids[i])
  }

  lemma {:induction false} ListOrder(sv: Service, order: seq<nat>) returns (ids: seq<Id>, ops: seq<Operation<M.Kv>>)
    requires Inv(sv) && forall i :: 0 <= i < |order| ==> order[i] < |sv.log|
    ensures Lists(sv, order, ids, ops)
  {
    if order == [] {
      ids, ops := [], [];
    } else {
      var n := |order| - 1;
      ids, ops := ListOrder(sv, order[..n]);
      assert EntryOk(sv.log, sv.calls, order[n]) by { assert Open(0, sv.calls); }
      var id := sv.log[order[n]].id;
      ids, ops := ids + [id], ops + [Finished(sv, id)];
      assert forall i :: 0 <= i < n ==> order[..n][i] == order[i];
    }
  }

  /** Two entries at which calls take effect belong to two calls. */
  lemma OnePlaceEach(sv: Service, p: nat, q: nat)
    requires Inv(sv) && p < |sv.log| && q < |sv.log| && Effective(sv, p) && Effective(sv, q) &&
      sv.log[p].id == sv.log[q].id
    ensures p == q
  {
    assert EntryOk(sv.log, sv.calls, p) && EntryOk(sv.log, sv.calls, q) by { assert Open(0, sv.calls); }
  }

  lemma OrderIsHistory(sv: Service, ids: seq<Id>, ops: seq<Operation<M.Kv>>)
    requires Inv(sv) && Lists(sv, Order(sv, |sv.log|), ids, ops)
    ensures IsHistory(sv, ids, ops)
  {
    var order := Order(sv, |sv.log|);
    OrderFacts(sv, |sv.log|);
    assert Open(0, order);
    forall i, j | 0 <= i < j < |ids|
      ensures ids[i] != ids[j]
    {
      if ids[i] == ids[j] {
        OnePlaceEach(sv, order[i], order[j]);
      }
    }
    forall id | id in sv.calls && sv.calls[id].result.Some?
      ensures id in ids
    {
      var place := FinishedIsEffective(sv, id);
      var i :| 0 <= i < |order| && order[i] == place;
      assert ids[i] == id;
    }
  }

  lemma FinishedIsEffective(sv: Service, id: Id) returns (place: nat)
    requires Inv(sv) && id in sv.calls && sv.calls[id].result.Some?
    ensures place < |sv.log| && sv.log[place].id == id && Effective(sv, place)
  {
    assert CallOk(sv.log, sv.clerks, sv.clock, id, sv.calls[id]) by { assert Open(0, sv.calls); }
    place := sv.calls[id].result.value.place;
    assert EntryOk(sv.log, sv.calls, place) by { assert Open(0, sv.calls); }
  }

  /** A call that takes effect later in the log did not end before one that takes effect earlier began. */
  lemma LogRespectsTime(sv: Service, p: nat, q: nat)
    requires Inv(sv) && p < q < |sv.log| && Effective(sv, p) && Effective(sv, q)
    ensures sv.log[p].id in sv.calls && sv.log[q].id in sv.calls
    ensures !(Finished(sv, sv.log[q].id).ret < Finished(sv, sv.log[p].id).call)
  {
    assert Open(0, sv.calls);
    var a, b := sv.log[q].id, sv.log[p].id;
    assert EntryOk(sv.log, sv.calls, p) && EntryOk(sv.log, sv.calls, q);
    assert CallOk(sv.log, sv.clerks, sv.clock, a, sv.calls[a]) && CallOk(sv.log, sv.clerks, sv.clock, b, sv.calls[b]);
    assert InTime(sv.calls[a], sv.calls[b]);
  }

  /** One entry of the log, seen by the map. */
  lemma EntryIsStep(sv: Service, p: nat)
    requires Inv(sv) && p < |sv.log|
    ensures sv.log[p].id in sv.calls
    ensures var s, t := Replay(sv.log[..p]).m, Replay(sv.log[..p+1]).m;
      var o := Finished(sv, sv.log[p].id);
      if Effective(sv, p) then M.MapStep(s, o.input, o.output) == (true, t) else t == s
  {
    var op := sv.log[p];
    ReplaySnoc(sv.log, p);
    assert EntryOk(sv.log, sv.calls, p) by { assert Open(0, sv.calls); }
    if op.kind == Get {
      assert CallOk(sv.log, sv.clerks, sv.clock, op.id, sv.calls[op.id]) by { assert Open(0, sv.calls); }
    } else {
      ExactlyOnce(sv, p);
    }
  }

  function Iota(n: nat): (p: seq<nat>)
    ensures |p| == n && forall i :: 0 <= i < n ==> p[i] == i
  {
    seq(n, i => i)
  }

  lemma RunOneMore(ops: seq<Operation<M.Kv>>, k: nat, s: M.Store, t: M.Store)
    requires k < |ops| && Run(M.MapModel(), ops, map[], Iota(k)) == Some(s) &&
      M.MapStep(s, ops[k].input, ops[k].output) == (true, t)
    ensures Run(M.MapModel(), ops, map[], Iota(k + 1)) == Some(t)
  {
    RunSnoc(M.MapModel(), ops, map[], Iota(k), k);
    assert Iota(k + 1) == Iota(k) + [k];
  }

  lemma {:induction false} OrderPrefix(sv: Service, n: nat, m: nat)
    requires n <= m <= |sv.log|
    ensures Order(sv, n) <= Order(sv, m)
    decreases m
  {
    if n < m {
      OrderPrefix(sv, n, m - 1);
    }
  }

  /** After the calls that take effect in the first `n` entries, the map is what a server has after those. */
  lemma {:induction false} OrderRuns(sv: Service, ids: seq<Id>, ops: seq<Operation<M.Kv>>, n: nat)
    requires Inv(sv) && n <= |sv.log| && Lists(sv, Order(sv, |sv.log|), ids, ops)
    ensures |Order(sv, n)| <= |ops|
    ensures Run(M.MapModel(), ops, map[], Iota(|Order(sv, n)|)) == Some(Replay(sv.log[..n]).m)
    decreases n
  {
    OrderPrefix(sv, n, |sv.log|);
    if n == 0 {
      assert sv.log[..0] == [];
    } else {
      var k := |Order(sv, n - 1)|;
      OrderRuns(sv, ids, ops, n - 1);
      EntryIsStep(sv, n - 1);
      if Effective(sv, n - 1) {
        assert Order(sv, |sv.log|)[k] == n - 1;
        RunOneMore(ops, k, Replay(sv.log[..n-1]).m, Replay(sv.log[..n]).m);
      }
    }
  }

  lemma OrderLinearizes(sv: Service, ids: seq<Id>, ops: seq<Operation<M.Kv>>)
    requires Inv(sv) && Lists(sv, Order(sv, |sv.log|), ids, ops)
    ensures IsLinearization(M.MapModel(), ops, Iota(|ops|))
  {
    var order := Order(sv, |sv.log|);
    OrderRuns(sv, ids, ops, |sv.log|);
    OrderFacts(sv, |sv.log|);
    assert Open(0, order);
    forall i, j | 0 <= i < j < |order|
      ensures !Precedes(ops, j, i)
    {
      LogRespectsTime(sv, order[i], order[j]);
    }
  }

  /**
   The service is linearizable: in every reachable state the finished calls, together with some
   that have taken effect but are still waiting for their answer, can be put in an order that respects
   real time and that a single map of strings would have answered in the same way.
   */
  lemma ServiceIsLinearizable(run: seq<Service>, actions: seq<Action>, k: nat)
    requires IsRun(run, actions) && k < |run|
    ensures exists ids, ops :: IsHistory(run[k], ids, ops) && Linearizable(M.MapModel(), ops)
  {
    var sv := run[k];
    RunInv(run, actions, k);
    var ids, ops := ListOrder(sv, Order(sv, |sv.log|));
    OrderIsHistory(sv, ids, ops);
    OrderLinearizes(sv, ids, ops);
    assert IsHistory(sv, ids, ops) && Linearizable(M.MapModel(), ops);
  }

  /** All servers that have applied the same entries hold the same, snapshots and restarts or not. */
  lemma ReplicasAgree(run: seq<Service>, actions: seq<Action>, k: nat, r: nat)
    requires IsRun(run, actions) && k < |run| && r < |run[k].replicas|
    ensures run[k].replicas[r].applied <= |run[k].log|
    ensures run[k].replicas[r].state == Replay(run[k].log[..run[k].replicas[r].applied])
  {
    RunInv(run, actions, k);
    assert ReplicaOk(run[k].log, run[k].replicas[r]);
  }

  // ----- Every call can be finished -----

  /** In every run, whoever waits for an answer gets the right one: a write is never told anything but OK. */
  lemma WaitingAnswersAreRight(run: seq<Service>, actions: seq<Action>, k: nat, r: nat, id: Id, index: nat)
    requires IsRun(run, actions) && k < |run| && r < |run[k].replicas| && (id, index) in run[k].replicas[r].waitChan
    ensures var log := run[k].log;
      && index < |log| && log[index].id == id
      && IsAnswer(Replay(log[..index]).m, log[index], run[k].replicas[r].waitChan[(id, index)])
  {
    RunInv(run, actions, k);
    assert ReplicaOk(run[k].log, run[k].replicas[r]);
    assert AnswerOk(run[k].log, id, index, run[k].replicas[r].waitChan[(id, index)]);
    AnswerIs(Replay(run[k].log[..index]), run[k].log[index]);
  }

  /** `run'` is a run that begins with `run`. */
  ghost predicate Continues(run: seq<Service>, actions: seq<Action>, run': seq<Service>, actions': seq<Action>) {
    IsRun(run, actions) && IsRun(run', actions') && run <= run' && actions <= actions'
  }

  ghost function Last(run: seq<Service>): Service
    requires run != []
  {
    run[|run|-1]
  }

  lemma OneStep(run: seq<Service>, actions: seq<Action>, a: Action)
    requires IsRun(run, actions) && Enabled(Last(run), a)
    ensures Continues(run, actions, run + [Next(Last(run), a)], actions + [a])
  {
    var run', actions' := run + [Next(Last(run), a)], actions + [a];
    forall k: nat | k < |actions'|
      ensures Enabled(run'[k], actions'[k]) && run'[k+1] == Next(run'[k], actions'[k])
    {
      if k < |actions| {
        assert run'[k] == run[k] && run'[k+1] == run[k+1] && actions'[k] == actions[k];
      }
    }
  }

  /** A replica that has to can apply everything there is, and then the last entry has its answer. */
  lemma CatchUp(run: seq<Service>, actions: seq<Action>, r: nat)
    returns (run': seq<Service>, actions': seq<Action>)
    requires IsRun(run, actions) && r < |Last(run).replicas| && Last(run).replicas[r].applied < |Last(run).log|
    ensures Continues(run, actions, run', actions')
    ensures var sv, sv' := Last(run), Last(run');
      && sv'.log == sv.log && sv'.calls == sv.calls && sv'.clerks == sv.clerks && |sv'.replicas| == |sv.replicas|
      && (sv.log[|sv.log|-1].id, |sv.log| - 1) in sv'.replicas[r].waitChan
    decreases |Last(run).log| - Last(run).replicas[r].applied
  {
    var sv, a := Last(run), ApplyNext(r, true);
    OneStep(run, actions, a);
    run', actions' := run + [Next(sv, a)], actions + [a];
    if sv.replicas[r].applied + 1 < |sv.log| {
      run', actions' := CatchUp(run', actions', r);
    }
  }

  /**
   Whatever has happened so far, a call that is going on can still be finished, by any replica: it is committed
   (again), the replica applies what it has not applied, and the answer finds its way to the clerk.
   */
  lemma CallsCanFinish(run: seq<Service>, actions: seq<Action>, uid: nat, r: nat)
    returns (run': seq<Service>, actions': seq<Action>)
    requires IsRun(run, actions) && uid < |Last(run).clerks| && Last(run).clerks[uid].busy && r < |Last(run).replicas|
    ensures Continues(run, actions, run', actions')
    ensures var id := CurrentId(Last(run), uid); id in Last(run').calls && Last(run').calls[id].result.Some?
  {
    var id := CurrentId(Last(run), uid);
    RunInv(run, actions, |run| - 1);
    BusyHasAsked(run, actions, |run| - 1, uid);
    assert id in Last(run).calls && Last(run).calls[id].op.id == id by {
      assert Open(0, Last(run).calls);
      assert CallOk(Last(run).log, Last(run).clerks, Last(run).clock, id, Last(run).calls[id]);
    }
    var a := Commit(id);
    OneStep(run, actions, a);
    run', actions' := run + [Next(Last(run), a)], actions + [a];
    RunInv(run', actions', |run'| - 1);
    assert ReplicaOk(Last(run).log, Last(run).replicas[r]);
    run', actions' := CatchUp(run', actions', r);
    run', actions' := Deliver(run', actions', uid, r, |Last(run).log|);
  }

  /** A waiting answer reaches its clerk. */
  lemma Deliver(run: seq<Service>, actions: seq<Action>, uid: nat, r: nat, index: nat)
    returns (run': seq<Service>, actions': seq<Action>)
    requires IsRun(run, actions) && uid < |Last(run).clerks| && Last(run).clerks[uid].busy && r < |Last(run).replicas|
    requires var id := CurrentId(Last(run), uid); id in Last(run).calls && (id, index) in Last(run).replicas[r].waitChan
    ensures Continues(run, actions, run', actions')
    ensures var id := CurrentId(Last(run), uid); id in Last(run').calls && Last(run').calls[id].result.Some?
  {
    var id, sv := CurrentId(Last(run), uid), Last(run);
    var a := AnswerApplied(id, r, index);
    assert Enabled(sv, a) by { AnswerIsEnabled(run, actions, id, r, index); }
    OneStep(run, actions, a);
    var mid, sofar := run + [Next(sv, a)], actions + [a];
    var reply :| reply in Last(mid).replies && reply.id == id;
    var b := Return(uid, reply);
    OneStep(mid, sofar, b);
    run', actions' := mid + [Next(Last(mid), b)], sofar + [b];
  }

  lemma AnswerIsEnabled(run: seq<Service>, actions: seq<Action>, id: Id, r: nat, index: nat)
    requires IsRun(run, actions) && r < |Last(run).replicas|
    requires id in Last(run).calls && (id, index) in Last(run).replicas[r].waitChan
    ensures Enabled(Last(run), AnswerApplied(id, r, index))
  {
    var sv := Last(run);
    WaitingAnswersAreRight(run, actions, |run| - 1, r, id, index);
    RunInv(run, actions, |run| - 1);
    assert sv.log[index] == sv.calls[id].op by {
      assert Open(0, sv.calls);
      assert EntryOk(sv.log, sv.calls, index);
    }
  }

  /** A clerk numbers its calls from 1 on. */
  lemma {:induction false} BusyHasAsked(run: seq<Service>, actions: seq<Action>, k: nat, uid: nat)
    requires IsRun(run, actions) && k < |run| && uid < |run[k].clerks| && run[k].clerks[uid].busy
    ensures run[k].clerks[uid].requestId >= 1
    decreases k
  {
    if k > 0 {
      var sv, a := run[k-1], actions[k-1];
      assert run[k] == Next(sv, a);
      if run[k].clerks[uid] == sv.clerks[uid] {
        BusyHasAsked(run, actions, k - 1, uid);
      }
    }
  }
}
