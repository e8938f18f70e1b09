/**
 The protocol is never stuck.  Whatever has been lost, delayed or crashed so far, any majority of two or more
 servers that can reach each other can elect one of them, and get a new command committed and delivered: here
 are the steps, for every state that a run which keeps the rule can get into.
 */
module RaftProgress {
  import opened Sealing
  import opened RaftServer
  import opened RaftCluster
  import H = RaftHandlers
  import D = RaftLeaders
  import F = RaftSafety

  // ----- Going on from a state -----

  ghost predicate IsStep(c: Cluster, a: Action, d: Cluster) {
    Sound(c) && Enabled(c, a) && F.OwnTerm(c, a) && Follows(c, a, d)
  }

  ghost predicate AllSteps(path: seq<Cluster>, actions: seq<Action>) {
    |path| == |actions| + 1 && forall k: nat :: k < |actions| ==> IsStep(path[k], actions[k], path[k+1])
  }

  ghost predicate IsPath(path: seq<Cluster>, actions: seq<Action>, c: Cluster, d: Cluster) {
    AllSteps(path, actions) && path[0] == c && path[|actions|] == d
  }

  lemma StepsJoin(path: seq<Cluster>, actions: seq<Action>, path': seq<Cluster>, actions': seq<Action>)
    requires AllSteps(path, actions) && AllSteps(path', actions') && path'[0] == path[|actions|]
    ensures AllSteps(path + path'[1..], actions + actions')
  {
    var n, all, acts := |actions|, path + path'[1..], actions + actions';
    forall k: nat | k < |acts|
      ensures IsStep(all[k], acts[k], all[k+1])
    {
      if k < n {
        assert IsStep(path[k], actions[k], path[k+1]);
      } else {
        var j: nat := k - n;
        assert IsStep(path'[j], actions'[j], path'[j+1]);
      }
    }
  }

  /** From `c` one can get to `d`, by steps that keep the rule. */
  ghost predicate Leads(c: Cluster, d: Cluster) {
    forall k: nat :: Open(k, d) ==> exists path: seq<Cluster>, actions: seq<Action> :: IsPath(path, actions, c, d)
  }

  lemma LeadsHere(c: Cluster)
    ensures Leads(c, c)
  {
    var path, actions: seq<Action> := [c], [];
    assert IsPath(path, actions, c, c);
  }

  lemma LeadsOn(c: Cluster, d: Cluster, a: Action, e: Cluster)
    requires Leads(c, d) && IsStep(d, a, e)
    ensures Leads(c, e)
  {
    assert Open(0, d);
    var path: seq<Cluster>, actions: seq<Action> :| IsPath(path, actions, c, d);
    var path', actions' := path + [e], actions + [a];
    StepsJoin(path, actions, [d, e], [a]);
    assert [d, e][1..] == [e];
    assert IsPath(path', actions', c, e);
  }

  /** A state that one can get to from `c0`, with everything that is known of reachable states. */
  ghost predicate At(c0: Cluster, c: Cluster) {
    Sound(c) && forall k: nat :: Open(k, c) ==> Leads(c0, c) && F.Inv(c)
  }

  lemma Step(c0: Cluster, c: Cluster, a: Action) returns (d: Cluster)
    requires At(c0, c) && Enabled(c, a) && F.OwnTerm(c, a)
    ensures At(c0, d) && d.servers == c.servers[Who(a) := Moved(c, a)] && d.net == c.net + Emitted(c, a)
    ensures c.deliveries <= d.deliveries
  {
    assert Open(0, c);
    d := Next(c, a);
    assert Follows(c, a, d);
    F.NextKeeps(c, a);
    LeadsOn(c0, c, a, d);
  }

  // ----- Votes -----

  /** The one log ends in a later term than the other, or in the same term and is no shorter. */
  predicate AtLeast(log: Log, other: Log)
    requires log != [] && other != []
  {
    LastTerm(log) > LastTerm(other) || (LastTerm(log) == LastTerm(other) && |log| >= |other|)
  }

  /** What becomes of a voter. */
  ghost function Voter(s: Server, term: nat, candidate: nat): Server {
    s.(term := term, role := Follower, votedFor := candidate)
  }

  lemma VoteIsGiven(s: Server, w: Server)
    requires s.log != [] && w.log != [] && s.base == w.base == 0 && w.term < s.term && AtLeast(s.log, w.log)
    ensures RequestVote(w, VoteRequest(s)) == (Voter(w, s.term, s.me), VoteReply(s.term, true))
  {
    H.VoteGrantedIff(w, VoteRequest(s));
    H.VoteChanges(w, VoteRequest(s));
  }

  /** A candidate asks a server that is behind, gets its vote and counts it. */
  lemma GainVote(c0: Cluster, c: Cluster, i: nat, v: nat) returns (d: Cluster)
    requires At(c0, c) && i < |c.servers| && v < |c.servers| && i != v
    requires c.servers[i].asking == c.servers[i].term > c.servers[v].term
    requires AtLeast(c.servers[i].log, c.servers[v].log)
    ensures At(c0, d) && c.deliveries <= d.deliveries
    ensures var s := c.servers[i];
      d.servers == c.servers[v := Voter(c.servers[v], s.term, i)][i := CountVote(s, v, s.term, VoteReply(s.term, true))]
  {
    var s, w := c.servers[i], c.servers[v];
    VoteIsGiven(s, w);
    var a1 := AskVote(i, v);
    var c1 := Step(c0, c, a1);
    assert c1.servers == c.servers;
    var a2 := AnswerVote(VoteReq(v, VoteRequest(s)));
    var c2 := Step(c0, c1, a2);
    assert c2.servers == c.servers[v := Voter(w, s.term, i)];
    var a3 := TakeVote(VoteAns(v, VoteRequest(s), VoteReply(s.term, true), w.log));
    d := Step(c0, c2, a3);
  }

  /** The same but for what belongs to the role. */
  ghost predicate SameStore(s: Server, t: Server) {
    t.me == s.me && t.term == s.term && t.log == s.log && t.commit == s.commit && t.applied == s.applied
  }

  /** `d` is `c` after the servers in `q` have voted for `i`, and perhaps `i` has become a leader. */
  ghost predicate Voted(c: Cluster, d: Cluster, i: nat, q: set<nat>) {
    && |d.servers| == |c.servers| && i < |c.servers| && SameStore(c.servers[i], d.servers[i])
    && c.deliveries <= d.deliveries
    && forall j :: 0 <= j < |c.servers| && j != i ==>
         d.servers[j] == if j in q then Voter(c.servers[j], c.servers[i].term, i) else c.servers[j]
  }

  /** The candidate has the votes of `done` and is not there yet, or it has been elected. */
  ghost predicate Runs(c: Cluster, i: nat, done: set<nat>) {
    && i < |c.servers| && i !in done
    && var s := c.servers[i];
       s.asking == s.term &&
       (s.role == Leader || (s.role == Candidate && s.votes == done && !H.IsMajority(1 + |done|, |c.servers|)))
  }

  /** Servers that can still be won over. */
  ghost predicate Behind(c: Cluster, i: nat, q: set<nat>)
    requires Sound(c)
  {
    i < |c.servers| && i !in q && forall v :: v in q ==>
      v < |c.servers| && c.servers[v].term < c.servers[i].term && AtLeast(c.servers[i].log, c.servers[v].log)
  }

  lemma CountOne(s: Server, v: nat, done: set<nat>, n: nat)
    requires s.peers == n && v !in done
    requires s.role == Leader || (s.role == Candidate && s.votes == done)
    ensures var t := CountVote(s, v, s.term, VoteReply(s.term, true));
      && SameStore(s, t) && t.asking == s.asking
      && (t.role == Leader || (t.role == Candidate && t.votes == done + {v} && !H.IsMajority(1 + |done + {v}|, n)))
  {
    H.VoteCountedIs(s, v, s.term, VoteReply(s.term, true));
  }

  /** One voter more. */
  lemma CampaignOnce(c0: Cluster, c: Cluster, i: nat, v: nat, q: set<nat>, done: set<nat>) returns (d: Cluster)
    requires At(c0, c) && Runs(c, i, done) && Behind(c, i, q) && q !! done && v in q
    ensures At(c0, d) && Voted(c, d, i, {v}) && Runs(d, i, done + {v}) && Behind(d, i, q - {v})
  {
    d := GainVote(c0, c, i, v);
    CountOne(c.servers[i], v, done, |c.servers|);
  }

  lemma VotedOn(c: Cluster, d: Cluster, e: Cluster, i: nat, v: nat, q: set<nat>)
    requires Voted(c, d, i, {v}) && Voted(d, e, i, q - {v}) && v in q && v != i
    ensures Voted(c, e, i, q)
  {
  }

  /** One after the other the voters make a leader. */
  lemma Campaign(c0: Cluster, c: Cluster, i: nat, q: set<nat>, done: set<nat>) returns (d: Cluster)
    requires At(c0, c) && Runs(c, i, done) && Behind(c, i, q) && q !! done
    requires H.IsMajority(1 + |done| + |q|, |c.servers|)
    ensures At(c0, d) && Voted(c, d, i, q) && d.servers[i].role == Leader
    decreases q
  {
    if q == {} {
      d := c;
    } else {
      var v :| v in q;
      var c1 := CampaignOnce(c0, c, i, v, q, done);
      assert 1 + |done + {v}| + |q - {v}| == 1 + |done| + |q|;
      d := Campaign(c0, c1, i, q - {v}, done + {v});
      VotedOn(c, c1, d, i, v, q);
    }
  }

  // ----- Replication -----

  /** The leader's last entry is one of its own. */
  ghost predicate LeadsWithNews(s: Server) {
    WellFormed(s) && s.role == Leader && s.base == 0 && s.commit < |s.log| && LastTerm(s.log) == s.term
  }

  /** What a leader of the term makes of the answer of a peer that is not ahead, and what becomes of the peer. */
  ghost predicate IsExchange(s: Server, w: Server, v: nat, t: Server, w': Server) {
    && CanAppendTo(s, v) && v < s.peers && w.log != []
    && var a := AppendRequest(s, v);
       w' == AppendEntries(w, a).0 && t == HandleAppendReply(s, v, a, AppendEntries(w, a).1)
  }

  ghost predicate Takes(s: Server, w: Server, v: nat)
    requires CanAppendTo(s, v) && w.log != []
  {
    AppendEntries(w, AppendRequest(s, v)).1.success
  }

  /** The request is refused: nothing but the next index changes, and the peer comes into the term. */
  lemma Refused(s: Server, w: Server, v: nat, t: Server, w': Server)
    requires LeadsWithNews(s) && IsExchange(s, w, v, t, w') && w.term <= s.term && !Takes(s, w, v)
    ensures v < |t.nextIndex| && t == s.(nextIndex := s.nextIndex[v := t.nextIndex[v]]) && w'.term == s.term
  {
    var a := AppendRequest(s, v);
    H.AppendChanges(w, a);
    H.RefusalTaken(s, v, a, AppendEntries(w, a).1);
  }

  /** The peer is known to hold all that the leader has; perhaps that makes a majority. */
  ghost predicate IsMatched(s: Server, v: nat, t: Server)
    requires WellFormed(s) && v < s.peers
  {
    var last := |s.log| - 1;
    && |t.nextIndex| == s.peers && t.nextIndex[v] == |s.log|
    && t == s.(nextIndex := t.nextIndex, matchIndex := s.matchIndex[v := H.Larger(s.matchIndex[v], last)],
               commit := t.commit)
    && t.commit == (if last > s.matchIndex[v] && last > s.commit && H.IsMajority(|H.KnownToHold(t, last)|, s.peers)
         then last else s.commit)
  }

  /** The peer takes over the leader's term, and at least its commitIndex. */
  lemma TakerFollows(s: Server, w: Server, v: nat)
    requires LeadsWithNews(s) && CanAppendTo(s, v) && w.log != [] && w.term <= s.term && Takes(s, w, v)
    ensures var r := AppendEntries(w, AppendRequest(s, v)); r.0.term == r.1.term == s.term && r.0.commit >= s.commit
  {
    var a := AppendRequest(s, v);
    H.AppendChanges(w, a);
    H.AppendAcceptedIff(w, a);
    H.AppendTakes(w, a);
  }

  lemma LeaderMatches(s: Server, v: nat, reply: AppendReply)
    requires LeadsWithNews(s) && CanAppendTo(s, v) && reply.success && reply.term == s.term
    ensures IsMatched(s, v, HandleAppendReply(s, v, AppendRequest(s, v), reply))
  {
    H.SuccessTaken(s, v, AppendRequest(s, v), reply);
  }

  lemma Accepted(s: Server, w: Server, v: nat, t: Server, w': Server)
    requires LeadsWithNews(s) && IsExchange(s, w, v, t, w') && w.term <= s.term && Takes(s, w, v)
    ensures IsMatched(s, v, t) && w'.term == s.term && w'.commit >= s.commit
  {
    TakerFollows(s, w, v);
    LeaderMatches(s, v, AppendEntries(w, AppendRequest(s, v)).1);
  }

  /** The leader sends, the peer answers. */
  lemma SendAndAnswer(c0: Cluster, c: Cluster, i: nat, v: nat) returns (d: Cluster)
    requires At(c0, c) && i < |c.servers| && v < |c.servers| && i != v && c.servers[i].role == Leader
    ensures At(c0, d) && c.deliveries <= d.deliveries && CanAppendTo(c.servers[i], v)
    ensures var a, w := AppendRequest(c.servers[i], v), c.servers[v];
      d.servers == c.servers[v := AppendEntries(w, a).0] && AppendAns(v, a, AppendEntries(w, a).1) in d.net
  {
    assert CanAppendTo(c.servers[i], v) by {
      assert Open(0, c);
      D.InRange(c, i, v);
    }
    var a1 := SendAppend(i, v);
    var c1 := Step(c0, c, a1);
    assert c1.servers == c.servers;
    var a2 := AnswerAppend(AppendReq(v, AppendRequest(c.servers[i], v)));
    d := Step(c0, c1, a2);
  }

  /** The leader takes the answer. */
  lemma TakeIt(c0: Cluster, c: Cluster, i: nat, v: nat, a: AppendArgs, reply: AppendReply) returns (d: Cluster)
    requires At(c0, c) && i < |c.servers| && v < |c.servers| && AppendAns(v, a, reply) in c.net && a.leader == i
    requires LeadsWithNews(c.servers[i])
    requires var s, t := c.servers[i], HandleAppendReply(c.servers[i], v, a, reply);
      t.log == s.log && t.term == s.term && (t.commit == s.commit || t.commit == |s.log| - 1)
    ensures At(c0, d) && c.deliveries <= d.deliveries
    ensures d.servers == c.servers[i := HandleAppendReply(c.servers[i], v, a, reply)]
  {
    d := Step(c0, c, TakeAnswer(AppendAns(v, a, reply)));
  }

  lemma BacksUp(c: Cluster, i: nat, v: nat, a: AppendArgs, reply: AppendReply)
    requires F.Inv(c) && i < |c.servers| && v < |c.servers| && AppendAns(v, a, reply) in c.net && a.leader == i
    requires H.IsHeeded(c.servers[i], a, reply) && !reply.success
    ensures var t := HandleAppendReply(c.servers[i], v, a, reply);
      v < |t.nextIndex| && t.nextIndex[v] <= a.prevIndex
  {
    D.RejectionBacksUp(c, TakeAnswer(AppendAns(v, a, reply)));
  }

  lemma Exchange(c0: Cluster, c: Cluster, i: nat, v: nat) returns (d: Cluster)
    requires At(c0, c) && i < |c.servers| && v < |c.servers| && i != v
    requires LeadsWithNews(c.servers[i]) && c.servers[v].term <= c.servers[i].term
    ensures At(c0, d) && c.deliveries <= d.deliveries && |d.servers| == |c.servers|
    ensures d.servers == c.servers[v := d.servers[v]][i := d.servers[i]]
    ensures IsExchange(c.servers[i], c.servers[v], v, d.servers[i], d.servers[v])
    ensures !Takes(c.servers[i], c.servers[v], v) ==>
      v < |d.servers[i].nextIndex| && d.servers[i].nextIndex[v] < c.servers[i].nextIndex[v]
  {
    var s, w := c.servers[i], c.servers[v];
    var c1 := SendAndAnswer(c0, c, i, v);
    var a := AppendRequest(s, v);
    var w', reply := AppendEntries(w, a).0, AppendEntries(w, a).1;
    var t := HandleAppendReply(s, v, a, reply);
    assert IsExchange(s, w, v, t, w');
    if Takes(s, w, v) {
      Accepted(s, w, v, t, w');
    } else {
      Refused(s, w, v, t, w');
      assert Open(0, c1);
      H.AppendChanges(w, a);
      BacksUp(c1, i, v, a, reply);
    }
    d := TakeIt(c0, c1, i, v, a, reply);
  }

  lemma MatchedLater(s: Server, s1: Server, v: nat, t: Server)
    requires WellFormed(s) && v < s.peers && s1 == s.(nextIndex := s1.nextIndex) && |s1.nextIndex| == s.peers
    requires IsMatched(s1, v, t)
    ensures IsMatched(s, v, t)
  {
  }

  /** However far a peer has strayed, the leader backs up until it finds where they agree, and brings it up to date. */
  lemma Replicate(c0: Cluster, c: Cluster, i: nat, v: nat) returns (d: Cluster)
    requires At(c0, c) && i < |c.servers| && v < |c.servers| && i != v
    requires LeadsWithNews(c.servers[i]) && c.servers[v].term <= c.servers[i].term
    ensures At(c0, d) && c.deliveries <= d.deliveries && |d.servers| == |c.servers|
    ensures d.servers == c.servers[v := d.servers[v]][i := d.servers[i]]
    ensures IsMatched(c.servers[i], v, d.servers[i])
    ensures d.servers[v].term == c.servers[i].term && d.servers[v].commit >= c.servers[i].commit
    decreases c.servers[i].nextIndex[v]
  {
    var s, w := c.servers[i], c.servers[v];
    var c1 := Exchange(c0, c, i, v);
    var s1 := c1.servers[i];
    if Takes(s, w, v) {
      Accepted(s, w, v, s1, c1.servers[v]);
      d := c1;
    } else {
      Refused(s, w, v, s1, c1.servers[v]);
      d := Replicate(c0, c1, i, v);
      MatchedLater(s, s1, v, d.servers[i]);
    }
  }

  /** The peers in `done`, and no others, are known to have the leader's last entry; a majority commits it. */
  ghost predicate SpreadTo(servers: seq<Server>, i: nat, done: set<nat>) {
    && i < |servers| && i !in done && LeadsWithNews(servers[i]) && servers[i].me == i && servers[i].peers == |servers|
    && (forall p :: p in done ==> p < |servers| && servers[p].term == servers[i].term)
    && Known(servers[i], done)
    && (H.IsMajority(1 + |done|, |servers|) ==> servers[i].commit == |servers[i].log| - 1)
  }

  ghost predicate Known(s: Server, done: set<nat>) {
    && |s.matchIndex| == s.peers
    && forall p: nat :: p < s.peers && p != s.me ==>
         s.matchIndex[p] < |s.log| && (p in done <==> s.matchIndex[p] == |s.log| - 1)
  }

  lemma KnownSize(s: Server, done: set<nat>)
    requires WellFormed(s) && s.me !in done && (forall p :: p in done ==> p < s.peers) && Known(s, done)
    ensures |H.KnownToHold(s, |s.log| - 1)| == 1 + |done|
  {
    assert H.KnownToHold(s, |s.log| - 1) == done + {s.me};
  }

  lemma SpreadMore(servers: seq<Server>, servers': seq<Server>, i: nat, v: nat, done: set<nat>)
    requires SpreadTo(servers, i, done) && v < |servers| && v != i && v !in done
    requires |servers'| == |servers| && servers' == servers[v := servers'[v]][i := servers'[i]]
    requires IsMatched(servers[i], v, servers'[i]) && servers'[v].term == servers[i].term
    ensures SpreadTo(servers', i, done + {v})
  {
    var s, t, now := servers[i], servers'[i], done + {v};
    assert Known(t, now);
    KnownSize(t, now);
  }

  /** Nobody in `q` is ahead of the leader. */
  ghost predicate NotAhead(servers: seq<Server>, i: nat, q: set<nat>) {
    i < |servers| && i !in q && forall v :: v in q ==> v < |servers| && servers[v].term <= servers[i].term
  }

  /** The same leader with the same log. */
  ghost predicate SameLeader(servers: seq<Server>, servers': seq<Server>, i: nat) {
    && |servers'| == |servers| && i < |servers|
    && servers'[i].log == servers[i].log && servers'[i].term == servers[i].term
  }

  ghost predicate Spreading(servers: seq<Server>, i: nat, done: set<nat>) {
    forall k: nat :: Open(k, servers) ==> SpreadTo(servers, i, done)
  }

  lemma SpreadOnce(c0: Cluster, c: Cluster, i: nat, v: nat, q: set<nat>, done: set<nat>) returns (d: Cluster)
    requires At(c0, c) && Spreading(c.servers, i, done) && NotAhead(c.servers, i, q) && q !! done && v in q
    ensures At(c0, d) && c.deliveries <= d.deliveries && SameLeader(c.servers, d.servers, i)
    ensures Spreading(d.servers, i, done + {v}) && NotAhead(d.servers, i, q - {v})
  {
    assert Open(0, c.servers);
    d := Replicate(c0, c, i, v);
    SpreadMore(c.servers, d.servers, i, v, done);
  }

  /** The last entry reaches all in `q`. */
  lemma Spread(c0: Cluster, c: Cluster, i: nat, q: set<nat>, done: set<nat>) returns (d: Cluster)
    requires At(c0, c) && Spreading(c.servers, i, done) && NotAhead(c.servers, i, q) && q !! done
    ensures At(c0, d) && c.deliveries <= d.deliveries && SameLeader(c.servers, d.servers, i)
    ensures Spreading(d.servers, i, done + q)
    decreases q
  {
    if q == {} {
      d := c;
      assert done + q == done;
    } else {
      var v :| v in q;
      var c1 := SpreadOnce(c0, c, i, v, q, done);
      d := Spread(c0, c1, i, q - {v}, done + {v});
      assert done + {v} + (q - {v}) == done + q;
    }
  }

  // ----- Delivery -----

  lemma DoApply(c0: Cluster, c: Cluster, v: nat) returns (d: Cluster)
    requires At(c0, c) && v < |c.servers|
    ensures At(c0, d) && c.deliveries <= d.deliveries && d.servers == c.servers[v := Applied(c.servers[v])]
    ensures c.servers[v].commit < |c.servers[v].log|
    ensures forall j: nat :: 1 <= j <= c.servers[v].commit ==>
      Delivery(v, j, c.servers[v].log[j].command) in d.deliveries
  {
    assert Open(0, c);
    F.InsideLog(c, v);
    d := Step(c0, c, Apply(v));
    assert Open(0, d);
    assert F.ServerOk(d.logs, d.commits, d.deliveries, d.servers[v]) by { assert Open(0, d.commits); }
  }

  /** Everything that the leader has is committed. */
  ghost predicate AllCommitted(servers: seq<Server>, i: nat) {
    i < |servers| && LeadsWithNews(servers[i]) && servers[i].commit == |servers[i].log| - 1 >= 1
  }

  /** The peer hears of the commit, and has what was committed. */
  lemma Tell(c0: Cluster, c: Cluster, i: nat, v: nat) returns (d: Cluster)
    requires At(c0, c) && AllCommitted(c.servers, i) && v < |c.servers| && v != i
    requires c.servers[v].term <= c.servers[i].term
    ensures At(c0, d) && c.deliveries <= d.deliveries && SameLeader(c.servers, d.servers, i)
    ensures AllCommitted(d.servers, i) && d.servers == c.servers[v := d.servers[v]][i := d.servers[i]]
    ensures var s, w, last := c.servers[i], d.servers[v], |c.servers[i].log| - 1;
      w.term == s.term && w.commit >= last && last < |w.log| && w.log[last] == s.log[last]
  {
    d := Replicate(c0, c, i, v);
    var s, w, last := c.servers[i], d.servers[v], |c.servers[i].log| - 1;
    assert Open(0, d);
    D.MatchInLog(d, i, v);
    D.MatchTruthful(d, i, v);
    assert w.log[..last+1][last] == s.log[..last+1][last];
  }

  ghost predicate HasDelivered(c: Cluster, q: set<nat>, index: nat, command: Command) {
    forall v :: v in q ==> Delivery(v, index, command) in c.deliveries
  }

  lemma DeliverOnce(c0: Cluster, c: Cluster, i: nat, v: nat, q: set<nat>) returns (d: Cluster)
    requires At(c0, c) && AllCommitted(c.servers, i) && NotAhead(c.servers, i, q) && v in q
    ensures At(c0, d) && c.deliveries <= d.deliveries && SameLeader(c.servers, d.servers, i)
    ensures AllCommitted(d.servers, i) && NotAhead(d.servers, i, q - {v})
    ensures var last := |c.servers[i].log| - 1; Delivery(v, last, c.servers[i].log[last].command) in d.deliveries
  {
    var c1 := Tell(c0, c, i, v);
    d := DoApply(c0, c1, v);
  }

  lemma DeliverAll(c0: Cluster, c: Cluster, i: nat, q: set<nat>) returns (d: Cluster)
    requires At(c0, c) && AllCommitted(c.servers, i) && NotAhead(c.servers, i, q)
    ensures At(c0, d) && c.deliveries <= d.deliveries && SameLeader(c.servers, d.servers, i)
    ensures AllCommitted(d.servers, i)
    ensures var last := |c.servers[i].log| - 1; HasDelivered(d, q, last, c.servers[i].log[last].command)
    decreases q
  {
    if q == {} {
      d := c;
    } else {
      var v :| v in q;
      var c1 := DeliverOnce(c0, c, i, v, q);
      d := DeliverAll(c0, c1, i, q - {v});
    }
  }

  // ----- From anywhere -----

  /** A majority of the servers, of which no log is more recent than that of `i`. */
  ghost predicate MayLead(c: Cluster, i: nat, q: set<nat>)
    requires Sound(c)
  {
    && i in q && (forall v :: v in q ==> v < |c.servers|) && H.IsMajority(|q|, |c.servers|)
    && forall v :: v in q ==> AtLeast(c.servers[i].log, c.servers[v].log)
  }

  lemma {:induction false} Freshest(c: Cluster, q: set<nat>) returns (i: nat)
    requires Sound(c) && q != {} && forall v :: v in q ==> v < |c.servers|
    ensures i in q && forall v :: v in q ==> AtLeast(c.servers[i].log, c.servers[v].log)
    decreases q
  {
    var v :| v in q;
    i := v;
    if q != {v} {
      assert q - {v} != {};
      var j := Freshest(c, q - {v});
      i := if AtLeast(c.servers[v].log, c.servers[j].log) then v else j;
    }
  }

  /** The same servers, but `i` is a follower in a term that is at least `t`. */
  lemma {:induction false} RaiseTerm(c0: Cluster, c: Cluster, i: nat, t: nat) returns (d: Cluster)
    requires At(c0, c) && i < |c.servers| && c.servers[i].role != Leader
    ensures At(c0, d) && c.deliveries <= d.deliveries
    ensures |d.servers| == |c.servers| && d.servers == c.servers[i := d.servers[i]]
    ensures d.servers[i].log == c.servers[i].log && d.servers[i].role != Leader && d.servers[i].term >= t
    decreases t - c.servers[i].term
  {
    if c.servers[i].term >= t {
      d := c;
    } else {
      var c1 := Step(c0, c, Timeout(i));
      d := RaiseTerm(c0, c1, i, t);
    }
  }

  lemma {:induction false} LatestTerm(c: Cluster, q: set<nat>) returns (t: nat)
    requires forall v :: v in q ==> v < |c.servers|
    ensures forall v :: v in q ==> c.servers[v].term <= t
    decreases q
  {
    t := 0;
    if q != {} {
      var v :| v in q;
      t := LatestTerm(c, q - {v});
      t := H.Larger(t, c.servers[v].term);
    }
  }

  /** `i` comes back as a follower with the log it had. */
  lemma ComeBack(c0: Cluster, c: Cluster, i: nat) returns (d: Cluster)
    requires At(c0, c) && i < |c.servers|
    ensures At(c0, d) && c.deliveries <= d.deliveries
    ensures |d.servers| == |c.servers| && d.servers == c.servers[i := d.servers[i]]
    ensures d.servers[i].log == c.servers[i].log && d.servers[i].role == Follower
  {
    var s := c.servers[i];
    assert s.log[0 := s.log[0].(term := s.baseTerm)] == s.log;
    d := Step(c0, c, Restart(i));
  }

  /** `i` stands, in a term that is later than that of anybody in `q`. */
  lemma Stand(c0: Cluster, c: Cluster, i: nat, q: set<nat>) returns (d: Cluster)
    requires At(c0, c) && MayLead(c, i, q) && |c.servers| >= 2
    ensures At(c0, d) && c.deliveries <= d.deliveries && |d.servers| == |c.servers|
    ensures d.servers[i].log == c.servers[i].log && Runs(d, i, {}) && Behind(d, i, q - {i})
  {
    var t := LatestTerm(c, q);
    var c1 := ComeBack(c0, c, i);
    var c2 := RaiseTerm(c0, c1, i, t);
    d := Step(c0, c2, Timeout(i));
  }

  lemma GetElected(c0: Cluster, c: Cluster, i: nat, q: set<nat>) returns (d: Cluster)
    requires At(c0, c) && MayLead(c, i, q) && |c.servers| >= 2
    ensures At(c0, d) && c.deliveries <= d.deliveries && |d.servers| == |c.servers|
    ensures d.servers[i].role == Leader && d.servers[i].log == c.servers[i].log && NotAhead(d.servers, i, q - {i})
  {
    var c1 := Stand(c0, c, i, q);
    assert |q - {i}| == |q| - 1;
    d := Campaign(c0, c1, i, q - {i}, {});
  }

  /** The leader takes a command of a client. */
  lemma TakeCommand(c0: Cluster, c: Cluster, i: nat, command: Command) returns (d: Cluster)
    requires At(c0, c) && i < |c.servers| && c.servers[i].role == Leader && |c.servers| >= 2
    ensures At(c0, d) && c.deliveries <= d.deliveries && |d.servers| == |c.servers|
    ensures d.servers == c.servers[i := d.servers[i]] && Spreading(d.servers, i, {})
    ensures d.servers[i].log == c.servers[i].log + [LogEntry(command, c.servers[i].term)]
    ensures d.servers[i].term == c.servers[i].term
  {
    assert c.servers[i].commit < |c.servers[i].log| by {
      assert Open(0, c);
      F.InsideLog(c, i);
    }
    forall p: nat | p < |c.servers| && p != i
      ensures c.servers[i].matchIndex[p] < |c.servers[i].log|
    {
      assert Open(0, c);
      D.MatchInLog(c, i, p);
    }
    d := Step(c0, c, Submit(i, command));
    assert Known(d.servers[i], {});
    assert SpreadTo(d.servers, i, {});
  }

  lemma AllIsCommitted(servers: seq<Server>, i: nat, q: set<nat>)
    requires Spreading(servers, i, q) && H.IsMajority(1 + |q|, |servers|) && i < |servers| && |servers[i].log| >= 2
    ensures AllCommitted(servers, i) && NotAhead(servers, i, q)
  {
    assert Open(0, servers);
  }

  /** The command is committed. */
  lemma CommitCommand(c0: Cluster, c: Cluster, i: nat, others: set<nat>, command: Command) returns (d: Cluster)
    requires At(c0, c) && i < |c.servers| && c.servers[i].role == Leader && |c.servers| >= 2
    requires NotAhead(c.servers, i, others) && H.IsMajority(1 + |others|, |c.servers|)
    ensures At(c0, d) && AllCommitted(d.servers, i) && NotAhead(d.servers, i, others)
    ensures |d.servers| == |c.servers| && |d.servers[i].log| == |c.servers[i].log| + 1
    ensures d.servers[i].log[|c.servers[i].log|].command == command
  {
    var c1 := TakeCommand(c0, c, i, command);
    d := Spread(c0, c1, i, others, {});
    assert {} + others == others;
    AllIsCommitted(d.servers, i, others);
  }

  /** And everybody in `q` hears of it. */
  lemma CommitAndDeliver(c0: Cluster, c: Cluster, i: nat, q: set<nat>, command: Command) returns (d: Cluster)
    requires At(c0, c) && i in q && i < |c.servers| && c.servers[i].role == Leader && |c.servers| >= 2
    requires NotAhead(c.servers, i, q - {i}) && H.IsMajority(|q|, |c.servers|)
    ensures At(c0, d) && HasDelivered(d, q, |c.servers[i].log|, command)
  {
    var others := q - {i};
    assert 1 + |others| == |q|;
    var c1 := CommitCommand(c0, c, i, others, command);
    var c2 := DeliverAll(c0, c1, i, others);
    d := DoApply(c0, c2, i);
  }

  lemma RunSteps(run: seq<Cluster>, actions: seq<Action>)
    ensures F.IsOwnTermRun(run, actions) <==> AllSteps(run, actions) && Init(run[0])
  {
    if AllSteps(run, actions) && Init(run[0]) {
      forall k: nat | k < |actions|
        ensures Sound(run[k]) && Enabled(run[k], actions[k]) && Follows(run[k], actions[k], run[k+1])
        ensures F.OwnTerm(run[k], actions[k])
      {
        assert IsStep(run[k], actions[k], run[k+1]);
      }
    }
  }

  /** A run goes on. */
  lemma GoOn(run: seq<Cluster>, actions: seq<Action>, d: Cluster)
    returns (run': seq<Cluster>, actions': seq<Action>)
    requires F.IsOwnTermRun(run, actions) && Leads(run[|actions|], d)
    ensures F.IsOwnTermRun(run', actions') && run <= run' && actions <= actions' && run'[|actions'|] == d
  {
    assert Open(0, d);
    var path: seq<Cluster>, more: seq<Action> :| IsPath(path, more, run[|actions|], d);
    run', actions' := run + path[1..], actions + more;
    RunSteps(run, actions);
    StepsJoin(run, actions, path, more);
    RunSteps(run', actions');
  }

  /**
   Every run that keeps the rule can be continued, still keeping it, so that a majority of two or more servers all
   deliver the given command, at one and the same index.  Nothing is asked of the servers outside of the
   majority, nor of what is still on its way.
   */
  lemma CommandsGetThrough(run: seq<Cluster>, actions: seq<Action>, q: set<nat>, command: Command)
    returns (run': seq<Cluster>, actions': seq<Action>, index: nat)
    requires F.IsOwnTermRun(run, actions) && |run[|actions|].servers| >= 2
    requires (forall v :: v in q ==> v < |run[|actions|].servers|) && H.IsMajority(|q|, |run[|actions|].servers|)
    ensures F.IsOwnTermRun(run', actions') && run <= run' && actions <= actions'
    ensures HasDelivered(run'[|actions'|], q, index, command)
  {
    var c := run[|actions|];
    F.RunInv(run, actions, |actions|);
    LeadsHere(c);
    var i := Freshest(c, q);
    var c1 := GetElected(c, c, i, q);
    var d := CommitAndDeliver(c, c1, i, q, command);
    assert Open(0, d);
    run', actions' := GoOn(run, actions, d);
    index := |c1.servers[i].log|;
  }

  // ----- One server alone -----

  /** With nobody to ask there is nobody to vote. */
  ghost predicate Alone(c: Cluster) {
    && |c.servers| == 1 && Sound(c) && c.servers[0].role != Leader
    && forall p :: p in c.net ==> !p.VoteAns? && !p.VoteReq?
  }

  lemma AloneStays(c: Cluster, a: Action, d: Cluster)
    requires Alone(c) && Enabled(c, a) && Follows(c, a, d)
    ensures Alone(d)
  {
    assert Open(0, d);
    NextSound(c, a);
    H.AppendChanges(c.servers[0], if a.AnswerAppend? then a.p.append else AppendArgs(0, 0, 0, 0, [], 0));
  }

  /** A cluster of one server never has a leader: the two servers above cannot be done without. */
  lemma {:induction false} AloneNeverLeads(run: seq<Cluster>, actions: seq<Action>, k: nat)
    requires IsRun(run, actions) && k < |run| && |run[0].servers| == 1
    ensures Alone(run[k]) && run[k].servers[0].role != Leader
    decreases k
  {
    if k == 0 {
      InitSound(run[0]);
    } else {
      AloneNeverLeads(run, actions, k - 1);
      AloneStays(run[k-1], actions[k-1], run[k]);
    }
  }
}
