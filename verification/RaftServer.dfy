/**
 One Raft server (src/raft/raft.go) as a value: a function for each lock-held section says what
 becomes of the state and what is answered.
 */
module RaftServer {
  datatype Command = Nil | Command(payload: string)

  datatype LogEntry = LogEntry(command: Command, term: nat)

  type Log = seq<LogEntry>

  /** What a fresh log holds at index 0. */
  const DUMMY := LogEntry(Nil, 0)

  datatype Role = Follower | Candidate | Leader

  /**
   `base` and `baseTerm` are lastIncludedIndex and lastIncludedTerm.  `asking` is the term of
   the running elect() and `votes` are the peers that it has counted, so that its cnt is
   1 + |votes|: every call asks every peer once, and all its requests carry one term.
   */
  datatype Server = Server(
    me: nat, peers: nat, term: nat, votedFor: int, log: Log, base: nat, baseTerm: nat, applied: nat,
    commit: nat, nextIndex: seq<nat>, matchIndex: seq<nat>, role: Role, asking: nat, votes: set<nat>)

  datatype VoteArgs = VoteArgs(term: nat, candidate: nat, lastIndex: nat, lastTerm: nat)
  datatype VoteReply = VoteReply(term: nat, granted: bool)
  datatype AppendArgs = AppendArgs(term: nat, leader: nat, prevIndex: nat, prevTerm: nat, entries: Log, commit: nat)
  datatype AppendReply = AppendReply(term: nat, success: bool, conflictTerm: int, conflictIndex: nat)

  predicate WellFormed(s: Server) {
    && s.log != []
    && s.me < s.peers && |s.nextIndex| == |s.matchIndex| == s.peers
  }

  function LastIndex(s: Server): nat
    requires s.log != []
  {
    s.base + |s.log| - 1
  }

  function LastTerm(log: Log): nat
    requires log != []
  {
    log[|log| - 1].term
  }

  function Min(x: nat, y: nat): nat {
    if x > y then y else x
  }

  function ToFollower(s: Server, term: nat, votedFor: int): Server {
    s.(role := Follower, term := term, votedFor := votedFor)
  }

  function ToCandidate(s: Server): Server {
    s.(role := Candidate, term := s.term + 1, votedFor := s.me, asking := s.term + 1, votes := {})
  }

  function ToLeader(s: Server): Server {
    s.(role := Leader,
       nextIndex := seq(s.peers, _ => s.base + |s.log|),
       matchIndex := seq(s.peers, _ => 0))
  }

  /** Whether this log is more recent than one that ends with the given index and term. */
  predicate FreshThan(log: Log, base: nat, lastIndex: nat, lastTerm: nat)
    requires log != []
  {
    !(lastTerm > LastTerm(log) || (lastTerm == LastTerm(log) && lastIndex >= base + |log| - 1))
  }

  // ----- Elections -----

  function VoteRequest(s: Server): VoteArgs
    requires s.log != []
  {
    VoteArgs(s.term, s.me, LastIndex(s), LastTerm(s.log))
  }

  /** A server that hears of a later term follows it. */
  function StepDown(s: Server, term: nat): Server {
    if s.term < term then ToFollower(s, term, -1) else s
  }

  predicate MayVote(s: Server, a: VoteArgs)
    requires s.log != []
  {
    && !(s.term > a.term || (s.term == a.term && s.votedFor != -1 && s.votedFor != a.candidate))
    && !FreshThan(s.log, s.base, a.lastIndex, a.lastTerm)
  }

  function RequestVote(s: Server, a: VoteArgs): (Server, VoteReply)
    requires s.log != []
  {
    var s := StepDown(s, a.term);
    if MayVote(s, a) then (s.(votedFor := a.candidate), VoteReply(s.term, true))
    else (s, VoteReply(s.term, false))
  }

  function CountVote(s: Server, from: nat, sendTerm: nat, reply: VoteReply): Server {
    if s.term < reply.term then ToFollower(s, reply.term, -1)
    else if s.role != Candidate || sendTerm != s.term || !reply.granted then s
    else
      var s := s.(votes := s.votes + {from});
      if 1 + |s.votes| >= s.peers / 2 + 1 then ToLeader(s) else s
  }

  // ----- Replication -----

  predicate CanAppendTo(s: Server, peer: nat) {
    && WellFormed(s) && s.role == Leader
    && peer < s.peers && peer != s.me
    && s.base + 1 <= s.nextIndex[peer] <= s.base + |s.log|
  }

  function AppendRequest(s: Server, peer: nat): AppendArgs
    requires CanAppendTo(s, peer)
  {
    var prevIndex := s.nextIndex[peer] - 1;
    var index := prevIndex - s.base;
    AppendArgs(s.term, s.me, prevIndex, s.log[index].term, s.log[index + 1..], s.commit)
  }

  /** The entries agree with the log where both have one. */
  predicate Agrees(log: Log, at: nat, entries: Log) {
    forall k :: 0 <= k < |entries| && at + k < |log| ==> log[at + k].term == entries[k].term
  }

  /** The log after entries that belong from index `at` on have been received. */
  function Merged(log: Log, at: nat, entries: Log): Log
    requires at <= |log|
  {
    if !Agrees(log, at, entries) || |log| <= at + |entries| then log[..at] + entries else log
  }

  /** The last index at or before `i` that is 0 or has another term than `t`. */
  function RunStart(log: Log, i: nat, t: nat): (r: nat)
    requires i < |log|
    ensures r <= i && (r == 0 || log[r].term != t)
    ensures forall j :: r < j <= i ==> log[j].term == t
  {
    if i == 0 || log[i].term != t then i else RunStart(log, i - 1, t)
  }

  function FollowSender(s: Server, a: AppendArgs): Server {
    if s.term < a.term || (s.role == Candidate && s.term == a.term) then ToFollower(s, a.term, -1) else s
  }

  function AppendEntries(s: Server, a: AppendArgs): (Server, AppendReply)
    requires s.log != []
  {
    AppendHere(FollowSender(s, a), a)
  }

  /** What is done with entries once term and role are settled. */
  function AppendHere(s: Server, a: AppendArgs): (Server, AppendReply)
    requires s.log != []
  {
    if s.term > a.term then (s, AppendReply(s.term, false, 0, 0))
    else if a.prevIndex > LastIndex(s) || a.prevIndex < s.base then
      (s, AppendReply(s.term, false, -1, LastIndex(s) + 1))
    else
      var at := a.prevIndex - s.base;
      var t := s.log[at].term;
      if t != a.prevTerm then (s, AppendReply(s.term, false, t, s.base + RunStart(s.log, at, t) + 1))
      else
        var commit := if a.commit > s.commit then Min(a.commit, a.prevIndex + |a.entries|) else s.commit;
        (s.(log := Merged(s.log, at + 1, a.entries), commit := commit), AppendReply(s.term, true, 0, 0))
  }

  /** The last index at or before `i` with the given term, or 0. */
  function LastOfTerm(log: Log, i: nat, t: int): (r: nat)
    requires i < |log|
    ensures r <= i && (r == 0 || log[r].term == t)
    ensures forall j :: r < j <= i ==> log[j].term != t
  {
    if i == 0 || log[i].term == t then i else LastOfTerm(log, i - 1, t)
  }

  function BackUp(s: Server, from: nat, reply: AppendReply): Server
    requires WellFormed(s) && from < s.peers
  {
    var i := if reply.conflictTerm == -1 then 0 else LastOfTerm(s.log, |s.log| - 1, reply.conflictTerm);
    s.(nextIndex := s.nextIndex[from := if i == 0 then reply.conflictIndex else s.base + i + 1])
  }

  /** The peers known to hold everything up to `n`. */
  function Holders(matchIndex: seq<nat>, me: nat, n: nat): set<nat> {
    set p: nat | p < |matchIndex| && p != me && matchIndex[p] >= n
  }

  function Advance(s: Server, from: nat, a: AppendArgs, reply: AppendReply): Server
    requires WellFormed(s) && from < s.peers
  {
    var n := a.prevIndex + |a.entries|;
    var s1 := s.(nextIndex := s.nextIndex[from := s.base + |s.log|]);
    if n <= s.matchIndex[from] then s1
    else
      var s2 := s1.(matchIndex := s.matchIndex[from := n]);
      if s.commit < n && s.term == reply.term && 1 + |Holders(s2.matchIndex, s.me, n)| >= s.peers / 2 + 1
      then s2.(commit := n) else s2
  }

  function HandleAppendReply(s: Server, from: nat, a: AppendArgs, reply: AppendReply): Server
    requires WellFormed(s) && from < s.peers
  {
    var s := StepDown(s, reply.term);
    if s.role != Leader || a.term != s.term then s
    else if !reply.success then BackUp(s, from, reply)
    else Advance(s, from, a, reply)
  }

  // ----- Clients -----

  function Start(s: Server, command: Command): Server {
    if s.role == Leader then s.(log := s.log + [LogEntry(command, s.term)]) else s
  }

  /** One round of updateApplied stays inside the log; otherwise the process would end with a run-time error. */
  predicate CanDeliver(s: Server) {
    s.applied >= s.commit || (s.base <= s.applied + 1 && s.commit < s.base + |s.log|)
  }

  /** The commands handed over by one round of updateApplied, in order. */
  function Deliverable(s: Server): seq<Command>
    requires CanDeliver(s)
  {
    if s.applied < s.commit then
      seq(s.commit - s.applied, k requires 0 <= k < s.commit - s.applied => s.log[s.applied + 1 + k - s.base].command)
    else []
  }

  function Applied(s: Server): Server {
    s.(applied := s.commit)
  }

  // ----- Storage -----

  datatype Saved = Saved(term: nat, votedFor: int, base: nat, baseTerm: nat, log: Log)

  function Persistent(s: Server): Saved {
    Saved(s.term, s.votedFor, s.base, s.baseTerm, s.log)
  }

  function Fresh(me: nat, peers: nat): Server {
    Server(me, peers, 0, -1, [DUMMY], 0, 0, 0, 0, seq(peers, _ => 1), seq(peers, _ => 0), Follower, 0, {})
  }

  /** What a server is after a restart. */
  function Recovered(me: nat, peers: nat, d: Saved): Server
    requires d.log != []
  {
    Fresh(me, peers).(term := d.term, votedFor := d.votedFor, base := d.base, baseTerm := d.baseTerm, applied := d.base,
      log := d.log[0 := d.log[0].(term := d.baseTerm)])
  }

  /** The service has everything up to `index` in a snapshot. */
  function Snapshot(s: Server, index: nat): Server
    requires index < s.base + |s.log|
  {
    if index <= s.base then s
    else
      var log := s.log[index - s.base..];
      s.(log := log[0 := log[0].(command := Nil)], base := index, baseTerm := log[0].term,
         applied := if index > s.applied then index else s.applied)
  }
}
