/**
 The Raft protocol of src/raft/raft.go as a state machine: servers that crash and restart, a
 network that loses, delays, reorders and repeats messages, and one lock-held section of
 one server per step.  The service never calls Snapshot, so every log starts at index 0.

 `elections`, `logs`, `acks`, `commits` and `deliveries` are history: no server reads them.
 */
module RaftCluster {
  import opened Sealing
  import opened RaftServer

  /** `voterLog` is history: the voter's log when it answered. */
  datatype Packet =
    | VoteReq(to: nat, vote: VoteArgs)
    | VoteAns(from: nat, vote: VoteArgs, voteReply: VoteReply, voterLog: Log)
    | AppendReq(to: nat, append: AppendArgs)
    | AppendAns(from: nat, append: AppendArgs, appendReply: AppendReply)

  /** Who won a term, with whose votes, and with which log. */
  datatype Election = Election(leader: nat, quorum: set<nat>, start: Log)

  /** During `term`, `server` held the first `index` entries of that term's leader. */
  datatype Ack = Ack(term: nat, server: nat, index: nat)

  /** The leader of `term` took everything up to `index` for committed. */
  datatype Commit = Commit(term: nat, index: nat)

  datatype Delivery = Delivery(server: nat, index: nat, command: Command)

  /** `logs[t]` is the log of the leader of term `t` as it last was in that term. */
  datatype Cluster = Cluster(
    servers: seq<Server>, net: set<Packet>,
    elections: map<nat, Election>, logs: map<nat, Log>, acks: set<Ack>, commits: set<Commit>, deliveries: set<Delivery>)

  datatype Action =
    | Timeout(i: nat)
    | AskVote(i: nat, peer: nat)
    | AnswerVote(p: Packet)
    | TakeVote(p: Packet)
    | SendAppend(i: nat, peer: nat)
    | AnswerAppend(p: Packet)
    | TakeAnswer(p: Packet)
    | Submit(i: nat, command: Command)
    | Apply(i: nat)
    | Restart(i: nat)

  ghost predicate Init(c: Cluster) {
    && (forall i :: 0 <= i < |c.servers| ==> c.servers[i] == Fresh(i, |c.servers|))
    && c.net == {} && c.elections == map[] && c.logs == map[0 := [DUMMY]]
    && c.acks == {} && c.commits == {} && c.deliveries == {}
  }

  /** A server knows who it is and how many there are, and its log has not been cut. */
  ghost predicate SoundServer(s: Server, i: nat, n: nat) {
    WellFormed(s) && s.me == i && s.peers == n && s.base == 0 && s.baseTerm == 0 && s.log[0].term == 0
  }

  ghost predicate Sound(c: Cluster) {
    forall i :: 0 <= i < |c.servers| ==> SoundServer(c.servers[i], i, |c.servers|)
  }

  ghost predicate Enabled(c: Cluster, a: Action)
    requires Sound(c)
  {
    var n := |c.servers|;
    match a
    case Timeout(i) => i < n && c.servers[i].role != Leader
    case AskVote(i, peer) => i < n && peer < n && peer != i && c.servers[i].asking == c.servers[i].term
    case AnswerVote(p) => p in c.net && p.VoteReq? && p.to < n
    case TakeVote(p) => p in c.net && p.VoteAns? && p.vote.candidate < n
    case SendAppend(i, peer) => i < n && peer < n && CanAppendTo(c.servers[i], peer)
    case AnswerAppend(p) => p in c.net && p.AppendReq? && p.to < n
    case TakeAnswer(p) => p in c.net && p.AppendAns? && p.append.leader < n && p.from < n
    case Submit(i, command) => i < n
    case Apply(i) => i < n && CanDeliver(c.servers[i])
    case Restart(i) => i < n
  }

  /** The server that takes the step, and what becomes of it. */
  ghost function Who(a: Action): nat {
    match a
    case AnswerVote(p) => if p.VoteReq? then p.to else 0
    case TakeVote(p) => if p.VoteAns? then p.vote.candidate else 0
    case AnswerAppend(p) => if p.AppendReq? then p.to else 0
    case TakeAnswer(p) => if p.AppendAns? then p.append.leader else 0
    case _ => a.i
  }

  ghost function Moved(c: Cluster, a: Action): Server
    requires Sound(c) && Enabled(c, a)
  {
    var s := c.servers[Who(a)];
    match a
    case Timeout(i) => ToCandidate(s)
    case AnswerVote(p) => RequestVote(s, p.vote).0
    case TakeVote(p) => CountVote(s, p.from, p.vote.term, p.voteReply)
    case AnswerAppend(p) => AppendEntries(s, p.append).0
    case TakeAnswer(p) => HandleAppendReply(s, p.from, p.append, p.appendReply)
    case Submit(i, command) => Start(s, command)
    case Apply(i) => Applied(s)
    case Restart(i) => Recovered(i, |c.servers|, Persistent(s))
    case _ => s
  }

  ghost function Emitted(c: Cluster, a: Action): set<Packet>
    requires Sound(c) && Enabled(c, a)
  {
    var s := c.servers[Who(a)];
    match a
    case AskVote(i, peer) => {VoteReq(peer, VoteRequest(s))}
    case AnswerVote(p) => {VoteAns(p.to, p.vote, RequestVote(s, p.vote).1, s.log)}
    case SendAppend(i, peer) => {AppendReq(peer, AppendRequest(s, peer))}
    case AnswerAppend(p) => {AppendAns(p.to, p.append, AppendEntries(s, p.append).1)}
    case _ => {}
  }

  ghost predicate Wins(c: Cluster, a: Action)
    requires Sound(c) && Enabled(c, a)
  {
    a.TakeVote? && c.servers[Who(a)].role == Candidate && Moved(c, a).role == Leader
  }

  ghost predicate Submits(c: Cluster, a: Action)
    requires Sound(c) && Enabled(c, a)
  {
    a.Submit? && c.servers[Who(a)].role == Leader
  }

  ghost predicate Accepts(c: Cluster, a: Action)
    requires Sound(c) && Enabled(c, a)
  {
    a.AnswerAppend? && AppendEntries(c.servers[Who(a)], a.p.append).1.success
  }

  ghost predicate Commits(c: Cluster, a: Action)
    requires Sound(c) && Enabled(c, a)
  {
    a.TakeAnswer? && c.servers[Who(a)].commit != Moved(c, a).commit
  }

  ghost function Delivered(c: Cluster, a: Action): set<Delivery>
    requires Sound(c) && Enabled(c, a)
  {
    if a.Apply? then Batch(a.i, c.servers[a.i]) else {}
  }

  /** What a server hands over when it catches up with its commitIndex. */
  ghost function Batch(i: nat, s: Server): set<Delivery>
    requires CanDeliver(s)
  {
    var batch := Deliverable(s);
    set k: nat | k < |batch| :: Delivery(i, s.applied + 1 + k, batch[k])
  }

  ghost function Acknowledged(c: Cluster, a: Action): set<Ack>
    requires Sound(c) && Enabled(c, a)
  {
    var s := Moved(c, a);
    if Accepts(c, a) then {Ack(a.p.append.term, Who(a), a.p.append.prevIndex + |a.p.append.entries|)}
    else if (Wins(c, a) || Submits(c, a)) && s.log != [] then {Ack(s.term, Who(a), |s.log| - 1)}
    else {}
  }

  ghost function Next(c: Cluster, a: Action): Cluster
    requires Sound(c) && Enabled(c, a)
  {
    var i, s := Who(a), Moved(c, a);
    Cluster(
      c.servers[i := s],
      c.net + Emitted(c, a),
      if Wins(c, a) then c.elections[s.term := Election(i, s.votes + {i}, s.log)] else c.elections,
      if Wins(c, a) || Submits(c, a) then c.logs[s.term := s.log] else c.logs,
      c.acks + Acknowledged(c, a),
      if Commits(c, a) then c.commits + {Commit(s.term, s.commit)} else c.commits,
      c.deliveries + Delivered(c, a))
  }

  /** `d` is what the action makes of `c`. */
  ghost predicate Follows(c: Cluster, a: Action, d: Cluster)
    requires Sound(c) && Enabled(c, a)
  {
    forall k: nat :: Open(k, d) ==> d == Next(c, a)
  }

  /** Every state of a run is Sound: that the definition says so excludes nothing. */
  ghost predicate IsRun(run: seq<Cluster>, actions: seq<Action>) {
    && |run| == |actions| + 1 && Init(run[0])
    && forall k: nat :: k < |actions| ==>
         Sound(run[k]) && Enabled(run[k], actions[k]) && Follows(run[k], actions[k], run[k+1])
  }

  /** Servers neither come nor go, and what is recorded stays recorded. */
  lemma StepGrows(c: Cluster, a: Action, d: Cluster)
    requires Sound(c) && Enabled(c, a) && Follows(c, a, d)
    ensures |d.servers| == |c.servers| && c.acks <= d.acks && c.deliveries <= d.deliveries
  {
    assert Open(0, d);
  }

  /** What a step does to one server. */
  lemma StepServer(c: Cluster, a: Action, d: Cluster, i: nat)
    requires Sound(c) && Enabled(c, a) && Follows(c, a, d) && i < |c.servers|
    ensures |d.servers| == |c.servers| && d.servers[i] == if i == Who(a) then Moved(c, a) else c.servers[i]
  {
    assert Open(0, d);
  }

  lemma InitSound(c: Cluster)
    requires Init(c)
    ensures Sound(c)
  {
  }

  lemma AppendSound(s: Server, a: AppendArgs, i: nat, n: nat)
    requires SoundServer(s, i, n)
    ensures SoundServer(AppendEntries(s, a).0, i, n)
  {
  }

  lemma AnswerSound(s: Server, from: nat, a: AppendArgs, reply: AppendReply, i: nat, n: nat)
    requires SoundServer(s, i, n) && from < n
    ensures SoundServer(HandleAppendReply(s, from, a, reply), i, n)
  {
  }

  lemma MovedSound(c: Cluster, a: Action)
    requires Sound(c) && Enabled(c, a)
    ensures SoundServer(Moved(c, a), Who(a), |c.servers|)
  {
    var n := |c.servers|;
    match a
    case AnswerAppend(p) => AppendSound(c.servers[p.to], p.append, p.to, n);
    case TakeAnswer(p) => AnswerSound(c.servers[p.append.leader], p.from, p.append, p.appendReply, p.append.leader, n);
    case _ =>
  }

  lemma NextSound(c: Cluster, a: Action)
    requires Sound(c) && Enabled(c, a)
    ensures Sound(Next(c, a)) && |Next(c, a).servers| == |c.servers|
  {
    MovedSound(c, a);
  }
}
