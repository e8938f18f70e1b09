/**
 Why the rule about own terms cannot be dropped.  The code's guard compares the term of the
 reply, not of the entry (raft.go:682), so a leader may commit an entry of an earlier term; here is
 a run of three servers in which that makes two servers deliver different commands at index 1.
 */
module RaftOldTerms {
  import opened Sealing
  import opened RaftServer
  import opened RaftCluster
  import F = RaftSafety

  ghost predicate Reachable(c: Cluster) {
    forall k: nat :: Open(k, c) ==>
      exists run: seq<Cluster>, actions: seq<Action> :: IsRun(run, actions) && run[0] == Three() && run[|actions|] == c
  }

  ghost function Three(): Cluster {
    Cluster([Fresh(0, 3), Fresh(1, 3), Fresh(2, 3)], {}, map[], map[0 := [DUMMY]], {}, {}, {})
  }

  lemma StartsReachable()
    ensures Reachable(Three()) && Sound(Three())
  {
    var c := Three();
    InitSound(c);
    var run, actions: seq<Action> := [c], [];
    assert IsRun(run, actions) && run[|actions|] == c;
  }

  lemma Add(c: Cluster, a: Action)
    requires Reachable(c) && Sound(c) && Enabled(c, a)
    ensures Reachable(Next(c, a)) && Sound(Next(c, a))
  {
    assert Open(0, c);
    var run: seq<Cluster>, actions: seq<Action> :| IsRun(run, actions) && run[0] == Three() && run[|actions|] == c;
    NextSound(c, a);
    var d := Next(c, a);
    Longer(run, actions, a, d);
    assert (run + [d])[|actions + [a]|] == d;
  }

  lemma Longer(run: seq<Cluster>, actions: seq<Action>, a: Action, d: Cluster)
    requires IsRun(run, actions)
    requires var c := run[|actions|]; Sound(c) && Enabled(c, a) && Follows(c, a, d)
    ensures IsRun(run + [d], actions + [a])
  {
    var run', actions' := run + [d], actions + [a];
    forall k: nat | k < |actions'|
      ensures Sound(run'[k]) && Enabled(run'[k], actions'[k]) && Follows(run'[k], actions'[k], run'[k+1])
    {
      assert run'[k] == run[k];
      if k < |actions| {
        assert actions'[k] == actions[k] && run'[k+1] == run[k+1];
      }
    }
  }

  // ----- Small stretches of a run -----

  lemma DoTimeout(c: Cluster, i: nat) returns (d: Cluster)
    requires Reachable(c) && Sound(c) && i < |c.servers| && c.servers[i].role != Leader
    ensures Reachable(d) && Sound(d) && d.servers == c.servers[i := ToCandidate(c.servers[i])] &&
      d.deliveries == c.deliveries
  {
    var a := Timeout(i);
    Add(c, a);
    d := Next(c, a);
  }

  lemma DoAskVote(c: Cluster, i: nat, v: nat) returns (d: Cluster)
    requires Reachable(c) && Sound(c) && i < |c.servers| && v < |c.servers| && v != i &&
      c.servers[i].asking == c.servers[i].term
    ensures Reachable(d) && Sound(d) && d.servers == c.servers && d.deliveries == c.deliveries
    ensures VoteReq(v, VoteRequest(c.servers[i])) in d.net
  {
    var a := AskVote(i, v);
    Add(c, a);
    d := Next(c, a);
  }

  lemma DoAnswerVote(c: Cluster, p: Packet) returns (d: Cluster)
    requires Reachable(c) && Sound(c) && p in c.net && p.VoteReq? && p.to < |c.servers|
    ensures Reachable(d) && Sound(d) && d.deliveries == c.deliveries
    ensures var r := RequestVote(c.servers[p.to], p.vote);
      d.servers == c.servers[p.to := r.0] && VoteAns(p.to, p.vote, r.1, c.servers[p.to].log) in d.net
  {
    var a := AnswerVote(p);
    Add(c, a);
    d := Next(c, a);
  }

  lemma DoTakeVote(c: Cluster, p: Packet) returns (d: Cluster)
    requires Reachable(c) && Sound(c) && p in c.net && p.VoteAns? && p.vote.candidate < |c.servers|
    ensures Reachable(d) && Sound(d) && d.deliveries == c.deliveries
    ensures var i := p.vote.candidate; d.servers == c.servers[i := CountVote(c.servers[i], p.from, p.vote.term,
      p.voteReply)]
  {
    var a := TakeVote(p);
    Add(c, a);
    d := Next(c, a);
  }

  lemma DoAppend(c: Cluster, i: nat, v: nat) returns (d: Cluster)
    requires Reachable(c) && Sound(c) && i < |c.servers| && v < |c.servers| && CanAppendTo(c.servers[i], v)
    ensures Reachable(d) && Sound(d) && d.deliveries == c.deliveries
    ensures var q := AppendRequest(c.servers[i], v);
      var r := AppendEntries(c.servers[v], q);
      d.servers == c.servers[v := r.0] && AppendAns(v, q, r.1) in d.net
  {
    var a := SendAppend(i, v);
    Add(c, a);
    var c1 := Next(c, a);
    assert c1.servers == c.servers;
    var a1 := AnswerAppend(AppendReq(v, AppendRequest(c.servers[i], v)));
    Add(c1, a1);
    d := Next(c1, a1);
  }

  lemma DoTakeAnswer(c: Cluster, p: Packet) returns (d: Cluster)
    requires Reachable(c) && Sound(c) && p in c.net && p.AppendAns? && p.append.leader < |c.servers| &&
      p.from < |c.servers|
    ensures Reachable(d) && Sound(d) && d.deliveries == c.deliveries
    ensures var i := p.append.leader; d.servers == c.servers[i := HandleAppendReply(c.servers[i], p.from, p.append,
      p.appendReply)]
  {
    var a := TakeAnswer(p);
    Add(c, a);
    d := Next(c, a);
  }

  lemma DoSubmit(c: Cluster, i: nat, command: Command) returns (d: Cluster)
    requires Reachable(c) && Sound(c) && i < |c.servers|
    ensures Reachable(d) && Sound(d) && d.servers == c.servers[i := Start(c.servers[i], command)] &&
      d.deliveries == c.deliveries
  {
    var a := Submit(i, command);
    Add(c, a);
    d := Next(c, a);
  }

  lemma DoRestart(c: Cluster, i: nat) returns (d: Cluster)
    requires Reachable(c) && Sound(c) && i < |c.servers|
    ensures Reachable(d) && Sound(d) && d.deliveries == c.deliveries
    ensures d.servers == c.servers[i := Recovered(i, |c.servers|, Persistent(c.servers[i]))]
  {
    var a := Restart(i);
    Add(c, a);
    d := Next(c, a);
  }

  lemma DoApply(c: Cluster, i: nat) returns (d: Cluster)
    requires Reachable(c) && Sound(c) && i < |c.servers| && c.servers[i].applied == 0 &&
      c.servers[i].commit == 1 < |c.servers[i].log|
    ensures Reachable(d) && Sound(d) && d.servers == c.servers[i := Applied(c.servers[i])]
    ensures d.deliveries == c.deliveries + {Delivery(i, 1, c.servers[i].log[1].command)}
  {
    var a := Apply(i);
    Add(c, a);
    d := Next(c, a);
    var s := c.servers[i];
    var batch := Deliverable(s);
    assert batch == [s.log[1].command];
    assert Delivery(i, s.applied + 1 + 0, batch[0]) in Delivered(c, a);
    assert Delivered(c, a) == {Delivery(i, 1, s.log[1].command)};
  }

  // ----- Winning, and committing -----

  /** Of three servers, `i` stands and is elected by `v`. */
  lemma Elect(c: Cluster, i: nat, v: nat) returns (d: Cluster)
    requires Reachable(c) && Sound(c) && |c.servers| == 3 && i < 3 && v < 3 && i != v
    requires c.servers[i].role != Leader && c.servers[v].term <= c.servers[i].term
    requires !FreshThan(c.servers[v].log, 0, |c.servers[i].log| - 1, LastTerm(c.servers[i].log))
    ensures Reachable(d) && Sound(d) && d.deliveries == c.deliveries
    ensures d.servers ==
      c.servers[i := ToLeader(ToCandidate(c.servers[i]).(votes := {v}))]
               [v := ToFollower(c.servers[v], c.servers[i].term + 1, i)]
  {
    var s, r := ToCandidate(c.servers[i]), c.servers[v];
    var c1 := DoTimeout(c, i);
    var c2 := DoAskVote(c1, i, v);
    var c3 := DoAnswerVote(c2, VoteReq(v, VoteRequest(s)));
    d := DoTakeVote(c3, VoteAns(v, VoteRequest(s), VoteReply(s.term, true), r.log));
    assert {} + {v} == {v};
  }

  /** A follower that has nothing, or something else, at index 1. */
  ghost predicate Differs(r: Server, entry: LogEntry) {
    |r.log| == 1 || (|r.log| == 2 && r.log[1].term != entry.term)
  }

  /** A new leader with one entry finds out that `v` does not have it. */
  lemma Probe(c: Cluster, i: nat, v: nat) returns (d: Cluster)
    requires Reachable(c) && Sound(c) && |c.servers| == 3 && i < 3 && v < 3 && i != v
    requires c.servers[i].role == Leader && c.servers[v].role == Follower && c.servers[v].term == c.servers[i].term
    requires |c.servers[i].log| == 2 && c.servers[i].nextIndex[v] == 2 && Differs(c.servers[v], c.servers[i].log[1])
    ensures Reachable(d) && Sound(d) && d.deliveries == c.deliveries
    ensures d.servers == c.servers[i := c.servers[i].(nextIndex := c.servers[i].nextIndex[v := 1])]
  {
    var s, r := c.servers[i], c.servers[v];
    var q := AppendRequest(s, v);
    var reply := AppendReply(s.term, false, if |r.log| == 1 then -1 else r.log[1].term, 1);
    assert AppendEntries(r, q) == (r, reply) by { ProbeAnswer(r, q); }
    var c1 := DoAppend(c, i, v);
    assert c1.servers == c.servers;
    d := DoTakeAnswer(c1, AppendAns(v, q, reply));
    ProbeTaken(s, v, q, reply);
  }

  lemma ProbeAnswer(r: Server, q: AppendArgs)
    requires r.log != [] && r.base == 0 && r.role == Follower && q.term == r.term && q.prevIndex == 1
    requires |r.log| == 1 || (|r.log| == 2 && r.log[1].term != q.prevTerm)
    ensures AppendEntries(r, q) == (r, AppendReply(r.term, false, if |r.log| == 1 then -1 else r.log[1].term, 1))
  {
    if |r.log| == 2 {
      assert RunStart(r.log, 1, r.log[1].term) == RunStart(r.log, 0, r.log[1].term);
    }
  }

  lemma ProbeTaken(s: Server, v: nat, q: AppendArgs, reply: AppendReply)
    requires WellFormed(s) && s.base == 0 && s.role == Leader && v < s.peers && |s.log| == 2 &&
      q.term == s.term == reply.term
    requires !reply.success && reply.conflictIndex == 1 && reply.conflictTerm != s.log[1].term
    ensures HandleAppendReply(s, v, q, reply) == s.(nextIndex := s.nextIndex[v := 1])
  {
    assert LastOfTerm(s.log, 1, reply.conflictTerm) == LastOfTerm(s.log, 0, reply.conflictTerm);
  }

  /** Then it sends the entry, counts the answer, commits and delivers. */
  lemma Settle(c: Cluster, i: nat, v: nat) returns (d: Cluster)
    requires Reachable(c) && Sound(c) && |c.servers| == 3 && i < 3 && v < 3 && i != v
    requires c.servers[i].role == Leader && c.servers[v].role == Follower && c.servers[v].term == c.servers[i].term
    requires |c.servers[i].log| == 2 && c.servers[i].nextIndex[v] == 1 && Differs(c.servers[v], c.servers[i].log[1])
    requires c.servers[i].commit == 0 && c.servers[i].applied == 0 && c.servers[i].matchIndex == [0, 0, 0]
    requires c.servers[v].commit == 0 && c.servers[i].log[0] == c.servers[v].log[0]
    ensures Reachable(d) && Sound(d) && d.deliveries == c.deliveries + {Delivery(i, 1, c.servers[i].log[1].command)}
    ensures |d.servers| == 3 && d.servers[v] == c.servers[v].(log := c.servers[i].log) &&
      d.servers[3 - i - v] == c.servers[3 - i - v]
  {
    var s, r := c.servers[i], c.servers[v];
    var q := AppendRequest(s, v);
    var reply := AppendReply(s.term, true, 0, 0);
    assert q.entries == [s.log[1]];
    SettleAnswer(r, q, s.log);
    var c1 := DoAppend(c, i, v);
    SettleTaken(s, v, q, reply);
    var c2 := DoTakeAnswer(c1, AppendAns(v, q, reply));
    d := DoApply(c2, i);
  }

  lemma SettleAnswer(r: Server, q: AppendArgs, log: Log)
    requires r.log != [] && r.base == 0 && r.role == Follower && q.term == r.term && q.prevIndex == 0 &&
      r.commit == q.commit == 0
    requires |log| == 2 && q.prevTerm == log[0].term && q.entries == [log[1]] && r.log[0] == log[0] &&
      Differs(r, log[1])
    ensures AppendEntries(r, q) == (r.(log := log), AppendReply(r.term, true, 0, 0))
  {
    assert |r.log| == 2 ==> r.log[1 + 0].term != q.entries[0].term;
    assert r.log[..1] + q.entries == log;
  }

  lemma SettleTaken(s: Server, v: nat, q: AppendArgs, reply: AppendReply)
    requires WellFormed(s) && s.base == 0 && s.role == Leader && v < s.peers == 3 && v != s.me && |s.log| == 2 &&
      q.term == s.term == reply.term
    requires reply.success && q.prevIndex == 0 && |q.entries| == 1 && s.commit == 0 && s.matchIndex == [0, 0, 0]
    ensures var s' := HandleAppendReply(s, v, q, reply); s'.commit == 1 && s'.log == s.log && s'.applied == s.applied
  {
    assert Holders(s.matchIndex[v := 1], s.me, 1) == {v};
  }

  /** The leader of term 1 has an entry that nobody else has; so has the leader of term 2. */
  lemma TwoLeaders(x: Command, y: Command) returns (c: Cluster)
    ensures Reachable(c) && Sound(c) && |c.servers| == 3 && c.deliveries == {}
    ensures c.servers[0].term == 1 && c.servers[0].log == [DUMMY, LogEntry(x, 1)]
    ensures c.servers[1].term == 2 && c.servers[1].log == [DUMMY, LogEntry(y, 2)]
    ensures c.servers[2].term == 2 && c.servers[2].log == [DUMMY] && c.servers[2].role == Follower &&
      c.servers[2].commit == 0
  {
    StartsReachable();
    var c1 := Elect(Three(), 0, 2);
    var c2 := DoSubmit(c1, 0, x);
    var c3 := DoTimeout(c2, 1);
    var c4 := Elect(c3, 1, 2);
    c := DoSubmit(c4, 1, y);
  }

  /** A server comes back, stands twice and is elected by server 2, gets its entry to it and delivers. */
  lemma ComeBack(c: Cluster, i: nat, t: nat, entry: LogEntry) returns (d: Cluster)
    requires Reachable(c) && Sound(c) && |c.servers| == 3 && i < 2
    requires c.servers[i].term == t && c.servers[i].log == [DUMMY, entry]
    requires var r := c.servers[2];
      && r.term == t + 1 && r.role == Follower && r.commit == 0 && r.log[0] == DUMMY
      && Differs(r, entry) && LastTerm(r.log) < entry.term
    ensures Reachable(d) && Sound(d) && |d.servers| == 3 &&
      d.deliveries == c.deliveries + {Delivery(i, 1, entry.command)}
    ensures d.servers[1 - i] == c.servers[1 - i]
    ensures var r := d.servers[2]; r.term == t + 2 && r.role == Follower && r.commit == 0 && r.log == [DUMMY, entry]
  {
    var c1 := DoRestart(c, i);
    var c2 := DoTimeout(c1, i);
    var c3 := Elect(c2, i, 2);
    assert c3.servers[i].matchIndex == [0, 0, 0];
    var c4 := Probe(c3, i, 2);
    d := Settle(c4, i, 2);
  }

  /**
   A run of three servers with a commit that breaks the rule, after which two servers have delivered
   `x` and `y` at index 1.
   */
  ghost predicate IsUnsafe(run: seq<Cluster>, actions: seq<Action>, k: nat, x: Command, y: Command) {
    && IsRun(run, actions) && |run[0].servers| == 3
    && k < |actions| && Commits(run[k], actions[k]) && !F.OwnTerm(run[k], actions[k])
    && Delivery(0, 1, x) in run[|actions|].deliveries && Delivery(1, 1, y) in run[|actions|].deliveries
  }

  /** Without the rule, State Machine Safety is lost. */
  lemma OldTermsAreNotSafe(x: Command, y: Command)
    requires x != y
    ensures exists run: seq<Cluster>, actions: seq<Action>, k: nat :: IsUnsafe(run, actions, k, x, y)
  {
    var run, actions := DisagreeingRun(x, y);
    if k: nat :| k < |actions| && !F.OwnTerm(run[k], actions[k]) {
      assert IsUnsafe(run, actions, k, x, y);
    } else {
      F.StateMachineSafety(run, actions, |actions|, Delivery(0, 1, x), Delivery(1, 1, y));
    }
  }

  lemma DisagreeingRun(x: Command, y: Command) returns (run: seq<Cluster>, actions: seq<Action>)
    ensures IsRun(run, actions) && |run[0].servers| == 3
    ensures Delivery(0, 1, x) in run[|actions|].deliveries && Delivery(1, 1, y) in run[|actions|].deliveries
  {
    var c := TwoLeaders(x, y);
    var c1 := ComeBack(c, 0, 1, LogEntry(x, 1));
    var c2 := ComeBack(c1, 1, 2, LogEntry(y, 2));
    assert Open(0, c2);
    run, actions :| IsRun(run, actions) && run[0] == Three() && run[|actions|] == c2;
  }
}
