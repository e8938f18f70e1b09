/**
 Election Safety: in every run, with crashes and restarts, a term has at most one leader.
 AppendEntries gives a candidate of the same term its vote back, so servers may vote twice in a
 term; but no member of the quorum that elected the term's leader ever does.
 */
module RaftElections {
  import opened Sealing
  import opened RaftServer
  import opened RaftCluster

  predicate Grants(p: Packet) {
    p.VoteAns? && p.voteReply.granted
  }

  ghost predicate HasGrant(net: set<Packet>, v: nat, t: nat, candidate: nat) {
    exists p :: p in net && Grants(p) && p.from == v && p.vote.term == t && p.vote.candidate == candidate
  }

  /** Until a term has a leader, a vote given in it stays given. */
  ghost predicate GrantOk(servers: seq<Server>, elections: map<nat, Election>, p: Packet) {
    Grants(p) ==>
      && p.from < |servers| && p.vote.candidate < |servers| && p.from != p.vote.candidate
      && servers[p.from].term >= p.vote.term
      && (p.vote.term !in elections && servers[p.from].term == p.vote.term ==>
           servers[p.from].votedFor == p.vote.candidate)
  }

  ghost predicate RequestOk(n: nat, p: Packet) {
    p.VoteReq? ==> p.to < n && p.vote.candidate < n && p.to != p.vote.candidate
  }

  ghost predicate AppendOk(n: nat, elections: map<nat, Election>, p: Packet) {
    p.AppendReq? ==>
      && p.to < n && p.append.term in elections
      && p.append.leader == elections[p.append.term].leader != p.to
  }

  ghost predicate PacketOk(servers: seq<Server>, elections: map<nat, Election>, p: Packet) {
    GrantOk(servers, elections, p) && RequestOk(|servers|, p) && AppendOk(|servers|, elections, p)
  }

  /** Until a term has a leader, nobody has voted for two candidates in it. */
  ghost predicate OneVote(elections: map<nat, Election>, p: Packet, q: Packet) {
    Grants(p) && Grants(q) && p.from == q.from && p.vote.term == q.vote.term && p.vote.term !in elections ==>
      p.vote.candidate == q.vote.candidate
  }

  ghost predicate RoleOk(net: set<Packet>, elections: map<nat, Election>, s: Server, i: nat) {
    && (s.role == Leader ==> s.term in elections && elections[s.term].leader == i)
    && (s.role == Candidate ==> s.term > 0 && s.votedFor == i && forall v :: v in s.votes ==>
         v != i && HasGrant(net, v, s.term, i))
  }

  ghost predicate QuorumOk(n: nat, e: Election) {
    e.leader in e.quorum && (forall v :: v in e.quorum ==> v < n) && 2 * |e.quorum| > n
  }

  /** A member of the quorum keeps its vote for as long as it stays in the term. */
  ghost predicate MemberOk(t: nat, e: Election, s: Server) {
    s.term >= t && (s.term == t ==> s.votedFor == e.leader && s.role != Candidate)
  }

  ghost predicate Loyal(t: nat, e: Election, p: Packet) {
    Grants(p) && p.vote.term == t && p.from in e.quorum ==> p.vote.candidate == e.leader
  }

  ghost predicate ElectionOk(servers: seq<Server>, net: set<Packet>, t: nat, e: Election) {
    && t > 0 && QuorumOk(|servers|, e)
    && (forall v :: v in e.quorum ==> MemberOk(t, e, servers[v]))
    && (forall p :: p in net ==> Loyal(t, e, p))
  }

  ghost predicate Votes(servers: seq<Server>, net: set<Packet>, elections: map<nat, Election>) {
    forall k: nat :: Open(k, servers) ==>
      && (forall p :: p in net ==> PacketOk(servers, elections, p))
      && (forall p, q :: p in net && q in net ==> OneVote(elections, p, q))
      && (forall i :: 0 <= i < |servers| ==> RoleOk(net, elections, servers[i], i))
      && (forall t :: t in elections ==> ElectionOk(servers, net, t, elections[t]))
  }

  ghost predicate Inv(c: Cluster) {
    Sound(c) && Votes(c.servers, c.net, c.elections)
  }

  // ----- Moves of one server -----

  /** What the state of one server may do without upsetting any vote. */
  ghost predicate SafeMove(elections: map<nat, Election>, s: Server, s': Server, i: nat) {
    && s'.term >= s.term
    && (s'.term == s.term ==>
          && (s.votedFor != -1 && (s.term !in elections || s.role != Candidate) ==> s'.votedFor == s.votedFor)
          && (s'.role == Candidate ==> s.role == Candidate && s'.votedFor == s.votedFor && s'.votes == s.votes)
          && (s'.role == Leader ==> s.role == Leader))
    && (s'.term > s.term ==> s'.role != Leader && (s'.role == Candidate ==> s'.votedFor == i && s'.votes == {}))
  }

  lemma VoteIsSafe(elections: map<nat, Election>, s: Server, a: VoteArgs, i: nat)
    requires s.log != [] && a.candidate != i && (s.role == Candidate ==> s.votedFor == i)
    ensures SafeMove(elections, s, RequestVote(s, a).0, i)
  {
  }

  /** Only a candidate of a term that has a leader gets its vote back. */
  lemma AppendIsSafe(elections: map<nat, Election>, s: Server, a: AppendArgs, i: nat)
    requires s.log != [] && a.term in elections
    ensures SafeMove(elections, s, AppendEntries(s, a).0, i)
  {
  }

  lemma AnswerIsSafe(elections: map<nat, Election>, s: Server, from: nat, a: AppendArgs, reply: AppendReply, i: nat)
    requires WellFormed(s) && from < s.peers
    ensures SafeMove(elections, s, HandleAppendReply(s, from, a, reply), i)
  {
  }

  /** All steps but the counting of a vote. */
  lemma MoveIsSafe(c: Cluster, a: Action)
    requires Inv(c) && Enabled(c, a) && !a.TakeVote?
    ensures SafeMove(c.elections, c.servers[Who(a)], Moved(c, a), Who(a))
  {
    assert Open(0, c.servers);
    var s := c.servers[Who(a)];
    assert RoleOk(c.net, c.elections, s, Who(a));
    match a
    case AnswerVote(p) =>
      assert PacketOk(c.servers, c.elections, p);
      VoteIsSafe(c.elections, s, p.vote, Who(a));
    case AnswerAppend(p) =>
      assert PacketOk(c.servers, c.elections, p);
      AppendIsSafe(c.elections, s, p.append, Who(a));
    case TakeAnswer(p) => AnswerIsSafe(c.elections, s, p.from, p.append, p.appendReply, Who(a));
    case _ =>
  }

  lemma SafeMoveKeeps(c: Cluster, i: nat, s': Server)
    requires Inv(c) && i < |c.servers| && SoundServer(s', i, |c.servers|)
    requires SafeMove(c.elections, c.servers[i], s', i)
    ensures Inv(c.(servers := c.servers[i := s']))
  {
    assert Open(0, c.servers);
    var servers' := c.servers[i := s'];
    forall p | p in c.net
      ensures PacketOk(servers', c.elections, p)
    {
      assert PacketOk(c.servers, c.elections, p);
    }
    assert RoleOk(c.net, c.elections, s', i) by {
      assert RoleOk(c.net, c.elections, c.servers[i], i);
    }
    forall t | t in c.elections
      ensures ElectionOk(servers', c.net, t, c.elections[t])
    {
      assert ElectionOk(c.servers, c.net, t, c.elections[t]);
      ElectionAfterMove(c.servers, c.net, c.elections, i, s', t);
    }
  }

  lemma ElectionAfterMove(servers: seq<Server>, net: set<Packet>, elections: map<nat, Election>, i: nat, s': Server,
        t: nat)
    requires t in elections && ElectionOk(servers, net, t, elections[t]) && i < |servers| &&
      SafeMove(elections, servers[i], s', i)
    ensures ElectionOk(servers[i := s'], net, t, elections[t])
  {
  }

  // ----- New messages -----

  lemma SendKeeps(c: Cluster, p: Packet)
    requires Inv(c) && PacketOk(c.servers, c.elections, p)
    requires forall q :: q in c.net ==> OneVote(c.elections, p, q)
    requires forall t :: t in c.elections ==> Loyal(t, c.elections[t], p)
    ensures Inv(c.(net := c.net + {p}))
  {
    assert Open(0, c.servers);
    var net' := c.net + {p};
    forall i | 0 <= i < |c.servers|
      ensures RoleOk(net', c.elections, c.servers[i], i)
    {
      var s := c.servers[i];
      assert RoleOk(c.net, c.elections, s, i);
      forall v | s.role == Candidate && v in s.votes
        ensures HasGrant(net', v, s.term, i)
      {
        assert HasGrant(c.net, v, s.term, i);
      }
    }
    forall t | t in c.elections
      ensures ElectionOk(c.servers, net', t, c.elections[t])
    {
      assert ElectionOk(c.servers, c.net, t, c.elections[t]);
    }
  }

  /** A server that has its vote free, or has given it to this candidate, may give it. */
  lemma GrantKeeps(c: Cluster, i: nat, p: Packet, s': Server)
    requires Inv(c) && i < |c.servers|
    requires var s := c.servers[i];
      p.VoteReq? && p in c.net && p.to == i && s.term == p.vote.term && MayVote(s, p.vote) &&
        s' == s.(votedFor := p.vote.candidate)
    ensures Inv(c.(servers := c.servers[i := s'],
      net := c.net + {VoteAns(i, p.vote, VoteReply(s'.term, true), s'.log)}))
  {
    assert Open(0, c.servers);
    var s := c.servers[i];
    var n := |c.servers|;
    assert RequestOk(n, p) by { assert PacketOk(c.servers, c.elections, p); }
    assert RoleOk(c.net, c.elections, s, i);
    SafeMoveKeeps(c, i, s');
    var c1 := c.(servers := c.servers[i := s']);
    var ans := VoteAns(i, p.vote, VoteReply(s'.term, true), s'.log);
    forall q | q in c.net
      ensures OneVote(c.elections, ans, q)
    {
      assert PacketOk(c.servers, c.elections, q);
    }
    forall t | t in c.elections
      ensures Loyal(t, c.elections[t], ans)
    {
      assert ElectionOk(c.servers, c.net, t, c.elections[t]);
      assert i in c.elections[t].quorum ==> MemberOk(t, c.elections[t], s);
    }
    SendKeeps(c1, ans);
  }

  // ----- Winning -----

  lemma {:induction false} QuorumsMeet(n: nat, a: set<nat>, b: set<nat>) returns (v: nat)
    requires forall x :: x in a || x in b ==> x < n
    requires 2 * |a| > n && 2 * |b| > n
    ensures v in a && v in b
  {
    if a * b == {} {
      assert |a + b| == |a| + |b|;
      Bounded(n, a + b);
    }
    v :| v in a * b;
  }

  lemma {:induction false} Bounded(n: nat, a: set<nat>)
    requires forall x :: x in a ==> x < n
    ensures |a| <= n
  {
    if n == 0 {
      assert a == {};
    } else {
      Bounded(n - 1, a - {n - 1});
    }
  }

  lemma VotersBounded(c: Cluster, i: nat, v: nat)
    requires Inv(c) && i < |c.servers| && HasGrant(c.net, v, c.servers[i].term, i)
    ensures v < |c.servers| && v != i
  {
    assert Open(0, c.servers);
    var p :| p in c.net && Grants(p) && p.from == v && p.vote.term == c.servers[i].term && p.vote.candidate == i;
    assert PacketOk(c.servers, c.elections, p);
  }

  /** A candidate of a term that has a leader has no vote of that leader's quorum. */
  lemma LateCandidate(c: Cluster, i: nat, v: nat)
    requires Inv(c) && i < |c.servers| && c.servers[i].role == Candidate
    requires c.servers[i].term in c.elections && v in c.elections[c.servers[i].term].quorum
    ensures v != i && !HasGrant(c.net, v, c.servers[i].term, i)
  {
    assert Open(0, c.servers);
    var t := c.servers[i].term;
    var e := c.elections[t];
    assert ElectionOk(c.servers, c.net, t, e);
    assert i in e.quorum ==> MemberOk(t, e, c.servers[i]);
    assert forall p :: p in c.net ==> Loyal(t, e, p);
  }

  /** A candidate with a majority behind it is the first in its term. */
  lemma FirstToWin(c: Cluster, i: nat, votes: set<nat>)
    requires Inv(c) && i < |c.servers| && c.servers[i].role == Candidate
    requires forall v :: v in votes ==> HasGrant(c.net, v, c.servers[i].term, i)
    requires 1 + |votes| >= |c.servers| / 2 + 1
    ensures i !in votes && QuorumOk(|c.servers|, Election(i, votes + {i}, c.servers[i].log))
    ensures c.servers[i].term !in c.elections
  {
    assert Open(0, c.servers);
    var n, s := |c.servers|, c.servers[i];
    forall v | v in votes
      ensures v < n && v != i
    {
      VotersBounded(c, i, v);
    }
    assert |votes + {i}| == |votes| + 1;
    if s.term in c.elections {
      var e := c.elections[s.term];
      assert ElectionOk(c.servers, c.net, s.term, e);
      var v := QuorumsMeet(n, votes + {i}, e.quorum);
      LateCandidate(c, i, v);
    }
  }

  lemma VoterIsMember(c: Cluster, i: nat, e: Election, v: nat)
    requires Inv(c) && i < |c.servers| && c.servers[i].term !in c.elections
    requires HasGrant(c.net, v, c.servers[i].term, i) && e.leader == i
    ensures v < |c.servers| && MemberOk(c.servers[i].term, e, c.servers[v])
    ensures forall q :: q in c.net && Grants(q) && q.from == v && q.vote.term == c.servers[i].term ==>
      q.vote.candidate == i
  {
    assert Open(0, c.servers);
    var p :| p in c.net && Grants(p) && p.from == v && p.vote.term == c.servers[i].term && p.vote.candidate == i;
    assert PacketOk(c.servers, c.elections, p);
    assert RoleOk(c.net, c.elections, c.servers[v], v);
    assert forall q :: q in c.net ==> OneVote(c.elections, p, q);
  }

  lemma WinKeeps(c: Cluster, i: nat, s': Server, e: Election)
    requires Inv(c) && i < |c.servers| && c.servers[i].role == Candidate
    requires forall v :: v in e.quorum && v != i ==> HasGrant(c.net, v, c.servers[i].term, i)
    requires e.leader == i && QuorumOk(|c.servers|, e) && c.servers[i].term !in c.elections
    requires SoundServer(s', i, |c.servers|) && s'.term == c.servers[i].term &&
      s'.votedFor == c.servers[i].votedFor && s'.role == Leader
    ensures Inv(c.(servers := c.servers[i := s'], elections := c.elections[s'.term := e]))
  {
    assert WinnerSound(c, i, s') by { assert Open(0, c.servers); }
    WinnerOk(c, i, s', e);
    VotesAfterWin(c, i, s', e);
  }

  /** The winner is as it was but for its role and what a leader keeps. */
  ghost predicate WinnerSound(c: Cluster, i: nat, s': Server)
    requires i < |c.servers|
  {
    && c.servers[i].term !in c.elections && s'.term == c.servers[i].term && s'.votedFor == c.servers[i].votedFor
    && s'.role == Leader
  }

  lemma VotesAfterWin(c: Cluster, i: nat, s': Server, e: Election)
    requires Inv(c) && i < |c.servers| && WinnerSound(c, i, s') && e.leader == i
    requires ElectionOk(c.servers[i := s'], c.net, s'.term, e)
    ensures Votes(c.servers[i := s'], c.net, c.elections[s'.term := e])
  {
    assert Open(0, c.servers);
    var servers', elections' := c.servers[i := s'], c.elections[s'.term := e];
    forall p | p in c.net
      ensures PacketOk(servers', elections', p)
    {
      assert PacketOk(c.servers, c.elections, p);
      PacketAfterWin(c.servers, c.elections, i, s', e, p);
    }
    forall u | u in c.elections
      ensures ElectionOk(servers', c.net, u, c.elections[u])
    {
      assert ElectionOk(c.servers, c.net, u, c.elections[u]);
      ElectionAfterWin(c.servers, c.net, i, s', u, c.elections[u]);
    }
    forall j | 0 <= j < |c.servers|
      ensures RoleOk(c.net, elections', servers'[j], j)
    {
      assert RoleOk(c.net, c.elections, c.servers[j], j);
    }
  }

  lemma PacketAfterWin(servers: seq<Server>, elections: map<nat, Election>, i: nat, s': Server, e: Election, p: Packet)
    requires PacketOk(servers, elections, p) && i < |servers| && s'.term == servers[i].term && s'.term !in elections
    requires s'.votedFor == servers[i].votedFor
    ensures PacketOk(servers[i := s'], elections[s'.term := e], p)
  {
  }

  lemma ElectionAfterWin(servers: seq<Server>, net: set<Packet>, i: nat, s': Server, u: nat, e: Election)
    requires ElectionOk(servers, net, u, e) && i < |servers| && s'.term == servers[i].term &&
      s'.votedFor == servers[i].votedFor
    requires s'.role == Leader
    ensures ElectionOk(servers[i := s'], net, u, e)
  {
  }

  lemma WinnerOk(c: Cluster, i: nat, s': Server, e: Election)
    requires Inv(c) && i < |c.servers| && c.servers[i].role == Candidate
    requires forall v :: v in e.quorum && v != i ==> HasGrant(c.net, v, c.servers[i].term, i)
    requires e.leader == i && QuorumOk(|c.servers|, e) && c.servers[i].term !in c.elections
    requires s'.term == c.servers[i].term && s'.votedFor == c.servers[i].votedFor && s'.role == Leader
    ensures ElectionOk(c.servers[i := s'], c.net, s'.term, e)
  {
    assert Open(0, c.servers);
    var t := s'.term;
    assert RoleOk(c.net, c.elections, c.servers[i], i);
    forall v | v in e.quorum
      ensures MemberOk(t, e, c.servers[i := s'][v])
      ensures forall p :: p in c.net && p.VoteAns? && p.from == v ==> Loyal(t, e, p)
    {
      if v != i {
        VoterIsMember(c, i, e, v);
      } else {
        forall p | p in c.net && p.VoteAns? && p.from == v
          ensures Loyal(t, e, p)
        {
          assert PacketOk(c.servers, c.elections, p);
        }
      }
    }
  }

  lemma TallyPacketOk(servers: seq<Server>, elections: map<nat, Election>, i: nat, from: nat, p: Packet)
    requires i < |servers| && PacketOk(servers, elections, p)
    ensures PacketOk(servers[i := Tallied(servers[i], from)], elections, p)
  {
  }

  lemma TallyElectionOk(servers: seq<Server>, net: set<Packet>, i: nat, from: nat, t: nat, e: Election)
    requires i < |servers| && ElectionOk(servers, net, t, e)
    ensures ElectionOk(servers[i := Tallied(servers[i], from)], net, t, e)
  {
  }

  lemma TallySound(c: Cluster, i: nat, from: nat)
    requires Inv(c) && i < |c.servers| && HasGrant(c.net, from, c.servers[i].term, i)
    ensures from != i && Sound(c.(servers := c.servers[i := Tallied(c.servers[i], from)]))
  {
    VotersBounded(c, i, from);
  }

  lemma TallyKeeps(c: Cluster, i: nat, from: nat)
    requires Inv(c) && i < |c.servers| && c.servers[i].role == Candidate
    requires HasGrant(c.net, from, c.servers[i].term, i)
    ensures Inv(c.(servers := c.servers[i := Tallied(c.servers[i], from)]))
  {
    TallySound(c, i, from);
    assert Open(0, c.servers);
    var servers' := c.servers[i := Tallied(c.servers[i], from)];
    assert RoleOk(c.net, c.elections, c.servers[i], i);
    forall p | p in c.net
      ensures PacketOk(servers', c.elections, p)
    {
      TallyPacketOk(c.servers, c.elections, i, from, p);
    }
    forall t | t in c.elections
      ensures ElectionOk(servers', c.net, t, c.elections[t])
    {
      TallyElectionOk(c.servers, c.net, i, from, t, c.elections[t]);
    }
  }

  lemma MajorityKeeps(c: Cluster, i: nat)
    requires Inv(c) && i < |c.servers| && c.servers[i].role == Candidate
    requires 1 + |c.servers[i].votes| >= |c.servers| / 2 + 1
    ensures c.servers[i].term !in c.elections
    ensures var s := c.servers[i];
      Inv(c.(servers := c.servers[i := ToLeader(s)],
        elections := c.elections[s.term := Election(i, s.votes + {i}, s.log)]))
  {
    var s := c.servers[i];
    assert RoleOk(c.net, c.elections, s, i) by { assert Open(0, c.servers); }
    FirstToWin(c, i, s.votes);
    WinKeeps(c, i, ToLeader(s), Election(i, s.votes + {i}, s.log));
  }

  // ----- Every step, every run -----

  lemma TakeVoteKeeps(c: Cluster, a: Action)
    requires Inv(c) && Enabled(c, a) && a.TakeVote?
    ensures Inv(Next(c, a))
    ensures Wins(c, a) ==> c.servers[Who(a)].term !in c.elections
  {
    if Counts(c.servers[Who(a)], a.p) {
      CountedVoteKeeps(c, a);
    } else {
      IgnoredVoteKeeps(c, a);
    }
  }

  /** The vote is one for the term the candidate is in. */
  ghost predicate Counts(s: Server, p: Packet) {
    p.VoteAns? && p.voteReply.term <= s.term && s.role == Candidate && p.vote.term == s.term && p.voteReply.granted
  }

  lemma IgnoredVoteKeeps(c: Cluster, a: Action)
    requires Inv(c) && Enabled(c, a) && a.TakeVote? && !Counts(c.servers[Who(a)], a.p)
    ensures Inv(Next(c, a)) && !Wins(c, a)
  {
    MovedSound(c, a);
    IgnoredVoteIsSafe(c.elections, c.servers[Who(a)], a.p, Who(a));
    SafeMoveKeeps(c, Who(a), Moved(c, a));
    assert c.net + {} == c.net;
  }

  lemma IgnoredVoteIsSafe(elections: map<nat, Election>, s: Server, p: Packet, i: nat)
    requires p.VoteAns? && !Counts(s, p)
    ensures var s' := CountVote(s, p.from, p.vote.term, p.voteReply);
      SafeMove(elections, s, s', i) && !(s.role == Candidate && s'.role == Leader)
  {
  }

  /** The candidate with one vote more. */
  ghost function Tallied(s: Server, from: nat): Server {
    s.(votes := s.votes + {from})
  }

  /** All that counting a vote changes of what elections depend on. */
  lemma CountedNext(c: Cluster, a: Action)
    requires Sound(c) && Enabled(c, a) && a.TakeVote? && Counts(c.servers[Who(a)], a.p)
    ensures var i, d := Who(a), Next(c, a);
      var s := Tallied(c.servers[i], a.p.from);
      && (Wins(c, a) ==> 1 + |s.votes| >= |c.servers| / 2 + 1)
      && d.servers == c.servers[i := if Wins(c, a) then ToLeader(s) else s]
      && d.elections == (if Wins(c, a) then c.elections[s.term := Election(i, s.votes + {i}, s.log)] else c.elections)
      && d.net == c.net
  {
    assert c.net + {} == c.net;
  }

  lemma CountedVoteKeeps(c: Cluster, a: Action)
    requires Inv(c) && Enabled(c, a) && a.TakeVote? && Counts(c.servers[Who(a)], a.p)
    ensures Inv(Next(c, a))
    ensures Wins(c, a) ==> c.servers[Who(a)].term !in c.elections
  {
    var i, p, d := Who(a), a.p, Next(c, a);
    var c1 := c.(servers := c.servers[i := Tallied(c.servers[i], p.from)]);
    assert Inv(c1) by {
      assert HasGrant(c.net, p.from, c.servers[i].term, i);
      TallyKeeps(c, i, p.from);
    }
    CountedNext(c, a);
    if Wins(c, a) {
      MajorityKeeps(c1, i);
      assert c1.servers[i := d.servers[i]] == d.servers;
    }
  }

  /** Whoever wins is the first in the term. */
  lemma WinIsFirst(c: Cluster, a: Action)
    requires Inv(c) && Enabled(c, a) && Wins(c, a)
    ensures c.servers[Who(a)].term !in c.elections && Moved(c, a).term == c.servers[Who(a)].term
  {
    var i, p := Who(a), a.p;
    var s := c.servers[i];
    assert RoleOk(c.net, c.elections, s, i) by { assert Open(0, c.servers); }
    assert HasGrant(c.net, p.from, s.term, i);
    FirstToWin(c, i, s.votes + {p.from});
  }

  lemma AnswerVoteKeeps(c: Cluster, a: Action)
    requires Inv(c) && Enabled(c, a) && a.AnswerVote?
    ensures Inv(Next(c, a))
  {
    var i, p := Who(a), a.p;
    var s, s' := c.servers[i], Moved(c, a);
    var s1 := StepDown(s, p.vote.term);
    SafeMoveKeeps(c, i, s1);
    var c1 := c.(servers := c.servers[i := s1]);
    assert c1.servers[i := s'] == c.servers[i := s'];
    if MayVote(s1, p.vote) {
      GrantKeeps(c1, i, p, s');
    } else {
      SendKeeps(c1, VoteAns(i, p.vote, VoteReply(s1.term, false), s.log));
    }
  }

  lemma EmittedOk(c: Cluster, a: Action)
    requires Inv(c) && Enabled(c, a) && !a.AnswerVote?
    ensures forall p :: p in Emitted(c, a) ==> PacketOk(c.servers, c.elections, p) && !Grants(p)
  {
    assert Open(0, c.servers);
    assert RoleOk(c.net, c.elections, c.servers[Who(a)], Who(a));
  }

  lemma NextKeeps(c: Cluster, a: Action)
    requires Inv(c) && Enabled(c, a)
    ensures Inv(Next(c, a))
    ensures Wins(c, a) ==> c.servers[Who(a)].term !in c.elections
  {
    if a.TakeVote? {
      TakeVoteKeeps(c, a);
    } else if a.AnswerVote? {
      AnswerVoteKeeps(c, a);
    } else {
      var i := Who(a);
      MovedSound(c, a);
      MoveIsSafe(c, a);
      EmittedOk(c, a);
      if p :| p in Emitted(c, a) {
        SendKeeps(c, p);
        assert Emitted(c, a) == {p};
        SafeMoveKeeps(c.(net := c.net + {p}), i, Moved(c, a));
      } else {
        assert c.net + Emitted(c, a) == c.net;
        SafeMoveKeeps(c, i, Moved(c, a));
      }
    }
  }

  lemma InitInv(c: Cluster)
    requires Init(c)
    ensures Inv(c)
  {
  }

  lemma StepInv(c: Cluster, a: Action, d: Cluster)
    requires Inv(c) && Enabled(c, a) && Follows(c, a, d)
    ensures Inv(d)
  {
    assert Open(0, d);
    NextKeeps(c, a);
  }

  lemma StepDecides(c: Cluster, a: Action, d: Cluster, t: nat)
    requires Inv(c) && Enabled(c, a) && Follows(c, a, d) && t in c.elections
    ensures t in d.elections && d.elections[t] == c.elections[t]
  {
    assert Open(0, d);
    if Wins(c, a) {
      WinIsFirst(c, a);
    }
  }

  lemma {:induction false} RunInv(run: seq<Cluster>, actions: seq<Action>, k: nat)
    requires IsRun(run, actions) && k < |run|
    ensures Inv(run[k])
    decreases k
  {
    if k == 0 {
      InitInv(run[0]);
    } else {
      RunInv(run, actions, k - 1);
      StepInv(run[k-1], actions[k-1], run[k]);
    }
  }

  /** What has been decided about a term stays decided. */
  lemma {:induction false} ElectionsStay(run: seq<Cluster>, actions: seq<Action>, j: nat, k: nat, t: nat)
    requires IsRun(run, actions) && j <= k < |run| && t in run[j].elections
    ensures t in run[k].elections && run[k].elections[t] == run[j].elections[t]
    decreases k
  {
    if j < k {
      ElectionsStay(run, actions, j, k - 1, t);
      RunInv(run, actions, k - 1);
      StepDecides(run[k-1], actions[k-1], run[k], t);
    }
  }

  /** Whenever two servers lead in the same term, at the same or at different times, they are one. */
  lemma ElectionSafety(run: seq<Cluster>, actions: seq<Action>, j: nat, k: nat, x: nat, y: nat)
    requires IsRun(run, actions) && j < |run| && k < |run| && x < |run[j].servers| && y < |run[k].servers|
    requires run[j].servers[x].role == Leader && run[k].servers[y].role == Leader
    requires run[j].servers[x].term == run[k].servers[y].term
    ensures x == y
  {
    RunInv(run, actions, j);
    RunInv(run, actions, k);
    assert RoleOk(run[j].net, run[j].elections, run[j].servers[x], x) by { assert Open(0, run[j].servers); }
    assert RoleOk(run[k].net, run[k].elections, run[k].servers[y], y) by { assert Open(0, run[k].servers); }
    var t := run[j].servers[x].term;
    if j <= k {
      ElectionsStay(run, actions, j, k, t);
    } else {
      ElectionsStay(run, actions, k, j, t);
    }
  }
}
