/**
 Why the requests of one elect() call have to carry one term.  The code reads currentTerm anew for every
 peer (raft.go:419-425) while its counter lives as long as the call, so a vote of an earlier term can
 be counted towards a later one; here is a run of five servers with two leaders of term 2.
 */
module RaftMixedTerms {
  import opened Sealing
  import opened RaftServer

  /** One elect() call: whose it is, whom it has asked, and its counter. */
  datatype Call = Call(server: nat, asked: set<nat>, cnt: nat)

  datatype Packet =
    | Request(call: nat, to: nat, args: VoteArgs)
    | Reply(call: nat, from: nat, sendTerm: nat, reply: VoteReply)

  datatype Voting = Voting(servers: seq<Server>, calls: seq<Call>, net: set<Packet>)

  datatype Action = Stand(i: nat) | Ask(call: nat, peer: nat) | Vote(p: Packet) | Count(p: Packet)

  ghost predicate Sound(v: Voting) {
    && (forall i :: 0 <= i < |v.servers| ==>
         WellFormed(v.servers[i]) && v.servers[i].me == i && v.servers[i].peers == |v.servers|)
    && (forall k :: 0 <= k < |v.calls| ==> v.calls[k].server < |v.servers|)
  }

  ghost predicate Enabled(v: Voting, a: Action)
    requires Sound(v)
  {
    match a
    case Stand(i) => i < |v.servers| && v.servers[i].role != Leader
    case Ask(call, peer) =>
      call < |v.calls| && peer < |v.servers| && peer != v.calls[call].server && peer !in v.calls[call].asked
    case Vote(p) => p in v.net && p.Request? && p.to < |v.servers|
    case Count(p) => p in v.net && p.Reply? && p.call < |v.calls|
  }

  /** The reply handler of one call: counted if it is for the term the candidate is in now. */
  ghost function Counted(v: Voting, p: Packet): Voting
    requires Sound(v) && p.Reply? && p.call < |v.calls|
  {
    var call := v.calls[p.call];
    var s := v.servers[call.server];
    if s.term < p.reply.term then v.(servers := v.servers[call.server := ToFollower(s, p.reply.term, -1)])
    else if s.role != Candidate || p.sendTerm != s.term || !p.reply.granted then v
    else
      var cnt := call.cnt + 1;
      v.(calls := v.calls[p.call := call.(cnt := cnt)],
         servers := if cnt >= s.peers / 2 + 1 then v.servers[call.server := ToLeader(s)] else v.servers)
  }

  ghost function Next(v: Voting, a: Action): Voting
    requires Sound(v) && Enabled(v, a)
  {
    match a
    case Stand(i) => v.(servers := v.servers[i := ToCandidate(v.servers[i])], calls := v.calls + [Call(i, {}, 1)])
    case Ask(k, peer) =>
      var call := v.calls[k];
      v.(calls := v.calls[k := call.(asked := call.asked + {peer})],
         net := v.net + {Request(k, peer, VoteRequest(v.servers[call.server]))})
    case Vote(p) =>
      var r := RequestVote(v.servers[p.to], p.args);
      v.(servers := v.servers[p.to := r.0], net := v.net + {Reply(p.call, p.to, p.args.term, r.1)})
    case Count(p) => Counted(v, p)
  }

  ghost predicate IsRun(run: seq<Voting>, actions: seq<Action>, n: nat) {
    && |run| == |actions| + 1 && run[0] == Begin(n)
    && forall k: nat :: k < |actions| ==>
       Sound(run[k]) && Enabled(run[k], actions[k]) && Follows(run[k], actions[k], run[k+1])
  }

  ghost function Begin(n: nat): Voting {
    Voting(seq(n, i requires 0 <= i < n => Fresh(i, n)), [], {})
  }

  ghost predicate Follows(v: Voting, a: Action, w: Voting)
    requires Sound(v) && Enabled(v, a)
  {
    forall k: nat :: Open(k, w) ==> w == Next(v, a)
  }

  // ----- Steps of a run of five -----

  ghost predicate Reachable(v: Voting) {
    forall k: nat :: Open(k, v) ==>
      exists run: seq<Voting>, actions: seq<Action> :: IsRun(run, actions, 5) && run[|actions|] == v
  }

  lemma Add(v: Voting, a: Action)
    requires Reachable(v) && Sound(v) && Enabled(v, a)
    ensures Reachable(Next(v, a))
  {
    assert Open(0, v);
    var run: seq<Voting>, actions: seq<Action> :| IsRun(run, actions, 5) && run[|actions|] == v;
    var w := Next(v, a);
    Longer(run, actions, a, w);
    assert (run + [w])[|actions + [a]|] == w;
  }

  lemma Longer(run: seq<Voting>, actions: seq<Action>, a: Action, w: Voting)
    requires IsRun(run, actions, 5)
    requires var v := run[|actions|]; Sound(v) && Enabled(v, a) && Follows(v, a, w)
    ensures IsRun(run + [w], actions + [a], 5)
  {
    var run', actions' := run + [w], actions + [a];
    forall k: nat | k < |actions'|
      ensures Sound(run'[k]) && Enabled(run'[k], actions'[k]) && Follows(run'[k], actions'[k], run'[k+1])
    {
      assert run'[k] == run[k];
      if k < |actions| {
        assert actions'[k] == actions[k] && run'[k+1] == run[k+1];
      }
    }
  }

  lemma DoStand(v: Voting, i: nat) returns (w: Voting)
    requires Reachable(v) && Sound(v) && i < |v.servers| && v.servers[i].role != Leader
    ensures Reachable(w) && Sound(w) && w.servers == v.servers[i := ToCandidate(v.servers[i])] &&
      w.calls == v.calls + [Call(i, {}, 1)]
  {
    Add(v, Stand(i));
    w := Next(v, Stand(i));
  }

  lemma DoAsk(v: Voting, k: nat, peer: nat) returns (w: Voting)
    requires Reachable(v) && Sound(v) && Enabled(v, Ask(k, peer))
    ensures Reachable(w) && Sound(w) && w.servers == v.servers
    ensures w.calls == v.calls[k := v.calls[k].(asked := v.calls[k].asked + {peer})]
    ensures Request(k, peer, VoteRequest(v.servers[v.calls[k].server])) in w.net
  {
    Add(v, Ask(k, peer));
    w := Next(v, Ask(k, peer));
  }

  lemma DoVote(v: Voting, p: Packet) returns (w: Voting)
    requires Reachable(v) && Sound(v) && p in v.net && p.Request? && p.to < |v.servers|
    ensures Reachable(w) && Sound(w) && w.calls == v.calls
    ensures var r := RequestVote(v.servers[p.to], p.args);
      w.servers == v.servers[p.to := r.0] && Reply(p.call, p.to, p.args.term, r.1) in w.net
  {
    Add(v, Vote(p));
    w := Next(v, Vote(p));
  }

  lemma DoCount(v: Voting, p: Packet) returns (w: Voting)
    requires Reachable(v) && Sound(v) && p in v.net && p.Reply? && p.call < |v.calls|
    ensures Reachable(w) && Sound(w) && w.servers == Counted(v, p).servers && w.calls == Counted(v, p).calls
  {
    Add(v, Count(p));
    w := Next(v, Count(p));
  }

  /** Call `k` asks `peer`, gets its vote and counts it. */
  lemma Poll(v: Voting, k: nat, peer: nat) returns (w: Voting)
    requires Reachable(v) && Sound(v) && Enabled(v, Ask(k, peer)) && |v.servers| == 5
    requires var s, r := v.servers[v.calls[k].server], v.servers[peer];
      s.role == Candidate && r.term < s.term && r.log == s.log == [DUMMY] && r.base == s.base == 0
    ensures Reachable(w) && Sound(w)
    ensures var i := v.calls[k].server; var s, r := v.servers[i], v.servers[peer];
      && w.calls == v.calls[k := v.calls[k].(asked := v.calls[k].asked + {peer}, cnt := v.calls[k].cnt + 1)]
      && w.servers == v.servers[peer := ToFollower(r, s.term, i)][i := if v.calls[k].cnt + 1 >= 3
         then ToLeader(s) else s]
  {
    var i := v.calls[k].server;
    var s, r := v.servers[i], v.servers[peer];
    var v1 := DoAsk(v, k, peer);
    var v2 := DoVote(v1, Request(k, peer, VoteRequest(s)));
    assert v2.servers == v.servers[peer := ToFollower(r, s.term, i)];
    w := DoCount(v2, Reply(k, peer, s.term, VoteReply(s.term, true)));
  }

  ghost predicate TwoLeaders(v: Voting, t: nat) {
    exists i, j :: 0 <= i < j < |v.servers| && v.servers[i].role == Leader && v.servers[j].role == Leader &&
      v.servers[i].term == v.servers[j].term == t
  }

  /** Server 0 wins term 2 with its own vote and one more, the third having been given in term 1. */
  lemma WinWithOldVote() returns (v: Voting)
    ensures Reachable(v) && Sound(v) && |v.servers| == 5 && |v.calls| == 2
    ensures v.servers[0].role == Leader && v.servers[0].term == 2
    ensures v.servers[1] == ToFollower(Fresh(1, 5), 1, 0) && v.servers[3] == Fresh(3, 5) && v.servers[4] == Fresh(4, 5)
  {
    var v2 := OneVoteEach();
    var v3 := DoStand(v2, 0);
    v := Poll(v3, 0, 2);
  }

  lemma StartsReachable()
    ensures Reachable(Begin(5)) && Sound(Begin(5))
  {
    var b := Begin(5);
    var run, actions: seq<Action> := [b], [];
    assert IsRun(run, actions, 5) && run[|actions|] == b;
  }

  /** In term 1 server 0 has its own vote and that of server 1. */
  lemma OneVoteEach() returns (v: Voting)
    ensures Reachable(v) && Sound(v) && v.calls == [Call(0, {1}, 2)]
    ensures v.servers == Begin(5).servers[0 := ToCandidate(Fresh(0, 5))][1 := ToFollower(Fresh(1, 5), 1, 0)]
  {
    StartsReachable();
    var v1 := DoStand(Begin(5), 0);
    assert v1.servers[0] == ToCandidate(Fresh(0, 5)) && v1.servers[1] == Fresh(1, 5) && v1.calls == [Call(0, {}, 1)];
    v := Poll(v1, 0, 1);
    assert {} + {1} == {1};
  }

  /** Election Safety is lost when one call may ask in two terms. */
  lemma MixedTermsAreNotSafe()
    ensures exists run: seq<Voting>, actions: seq<Action> :: IsRun(run, actions, 5) && TwoLeaders(run[|actions|], 2)
  {
    var v := WinWithOldVote();
    var v1 := DoStand(v, 3);
    var v2 := DoStand(v1, 3);
    var v3 := Poll(v2, 3, 1);
    var v4 := Poll(v3, 3, 4);
    assert v4.servers[0].role == Leader && v4.servers[3].role == Leader;
    assert TwoLeaders(v4, 2);
    assert Open(0, v4);
  }
}
