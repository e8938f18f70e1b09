/**
 What the handlers of src/raft/raft.go promise whoever sends to them, said without the functions that
 RaftServer is made of: when a vote is given, when entries are taken and what a refusal tells, what a
 leader makes of an answer, and that everybody follows the latest term heard of.
 */
module RaftHandlers {
  import opened RaftServer
  import opened RaftCluster

  function Larger(x: nat, y: nat): nat {
    if x < y then y else x
  }

  /** More than half of `n`. */
  predicate IsMajority(k: nat, n: nat) {
    2 * k > n
  }

  // ----- Votes -----

  /** A candidate asks with its term and the place and term of its last entry. */
  lemma VoteRequestIs(s: Server)
    requires s.log != []
    ensures var a := VoteRequest(s);
      && a.term == s.term && a.candidate == s.me && HasTermAt(s, a.lastIndex, a.lastTerm)
      && forall i: nat :: i > a.lastIndex ==> !HasTermAt(s, i, a.lastTerm)
  {
  }

  /**
   A vote is given exactly if the request is of a later term, or of this one and nobody else has the vote; and
   the candidate's log ends in a later term, or in the same term and is no shorter.
   */
  lemma VoteGrantedIff(s: Server, a: VoteArgs)
    requires s.log != []
    ensures var last := s.log[|s.log| - 1].term;
      RequestVote(s, a).1.granted <==>
      && (a.term > s.term || (a.term == s.term && (s.votedFor == -1 || s.votedFor == a.candidate)))
      && (a.lastTerm > last || (a.lastTerm == last && a.lastIndex >= s.base + |s.log| - 1))
  {
  }

  /** Only term, vote and role change: to those of the later term, and to the vote that is given. */
  lemma VoteChanges(s: Server, a: VoteArgs)
    requires s.log != []
    ensures var t, reply := RequestVote(s, a).0, RequestVote(s, a).1;
      && reply.term == Larger(s.term, a.term)
      && t == s.(
        term := Larger(s.term, a.term),
        role := if a.term > s.term then Follower else s.role,
        votedFor := if reply.granted then a.candidate else if a.term > s.term then -1 else s.votedFor)
  {
  }

  /** The vote is for the election that the candidate is in. */
  ghost predicate IsCounted(s: Server, sendTerm: nat, reply: VoteReply) {
    s.role == Candidate && sendTerm == s.term && reply.granted && reply.term <= s.term
  }

  /** A candidate becomes a leader exactly when a counted vote makes a majority of it and its voters. */
  lemma VoteCountedIs(s: Server, from: nat, sendTerm: nat, reply: VoteReply)
    ensures var t := CountVote(s, from, sendTerm, reply);
      && (reply.term > s.term ==> t == s.(term := reply.term, role := Follower, votedFor := -1))
      && (reply.term <= s.term && !IsCounted(s, sendTerm, reply) ==> t == s)
      && (IsCounted(s, sendTerm, reply) ==>
           && t.votes == s.votes + {from} && t.term == s.term && t.votedFor == s.votedFor && t.log == s.log
           && t.commit == s.commit && t.applied == s.applied && t.role in {Candidate, Leader}
           && (t.role == Leader <==> IsMajority(1 + |t.votes|, s.peers))
           && (t.role == Leader ==> |t.nextIndex| == |t.matchIndex| == s.peers && forall p :: 0 <= p < s.peers ==>
                t.nextIndex[p] == s.base + |s.log| && t.matchIndex[p] == 0))
  {
  }

  // ----- Entries -----

  /** The log has an entry at the index, and it is of the term. */
  ghost predicate HasTermAt(s: Server, index: nat, term: nat) {
    s.base <= index < s.base + |s.log| && s.log[index - s.base].term == term
  }

  /** A leader sends all it has from the next index of the peer on, and says what comes before. */
  lemma AppendRequestIs(s: Server, peer: nat)
    requires CanAppendTo(s, peer)
    ensures var a := AppendRequest(s, peer);
      && a.term == s.term && a.leader == s.me && a.commit == s.commit
      && a.prevIndex + 1 == s.nextIndex[peer] && HasTermAt(s, a.prevIndex, a.prevTerm)
      && s.log == s.log[..s.nextIndex[peer] - s.base] + a.entries
  {
  }

  /** Entries are taken exactly if they are of no earlier term and what precedes them is there. */
  lemma AppendAcceptedIff(s: Server, a: AppendArgs)
    requires s.log != []
    ensures AppendEntries(s, a).1.success <==> a.term >= s.term && HasTermAt(s, a.prevIndex, a.prevTerm)
  {
  }

  /** Term, role and vote after any AppendEntries; nothing else changes when it is refused. */
  lemma AppendChanges(s: Server, a: AppendArgs)
    requires s.log != []
    ensures var t, reply := AppendEntries(s, a).0, AppendEntries(s, a).1;
      var follows := a.term > s.term || (a.term == s.term && s.role == Candidate);
      && reply.term == Larger(s.term, a.term)
      && t == s.(
        term := Larger(s.term, a.term),
        role := if follows then Follower else s.role,
        votedFor := if follows then -1 else s.votedFor,
        log := t.log, commit := t.commit)
      && (!reply.success ==> t.log == s.log && t.commit == s.commit)
  {
  }

  /** The entries are all in the log from index `at` on, and the log goes on behind them. */
  ghost predicate IsKnown(log: Log, at: nat, entries: Log) {
    at + |entries| < |log| && forall k :: 0 <= k < |entries| ==> log[at + k].term == entries[k].term
  }

  lemma MergedKnown(log: Log, at: nat, entries: Log)
    requires at <= |log|
    ensures Merged(log, at, entries) == if IsKnown(log, at, entries) then log else log[..at] + entries
  {
    if at + |entries| < |log| && !Agrees(log, at, entries) {
      var k :| 0 <= k < |entries| && at + k < |log| && log[at + k].term != entries[k].term;
    }
  }

  /** What is written when entries are taken. */
  lemma AppendWrites(s: Server, a: AppendArgs)
    requires s.log != [] && a.term >= s.term && HasTermAt(s, a.prevIndex, a.prevTerm)
    ensures var t := AppendEntries(s, a).0;
      && t.log == Merged(s.log, a.prevIndex - s.base + 1, a.entries)
      && t.commit == if a.commit > s.commit then Min(a.commit, a.prevIndex + |a.entries|) else s.commit
  {
  }

  /**
   When entries are taken: the log stays as it is if they are all in it and it goes on behind them; otherwise it
   is what it was up to the preceding index, and then the entries.  The leader's commitIndex is taken over as
   far as the entries go, if it is ahead.
   */
  lemma AppendTakes(s: Server, a: AppendArgs)
    requires s.log != [] && a.term >= s.term && HasTermAt(s, a.prevIndex, a.prevTerm)
    ensures var t, at := AppendEntries(s, a).0, a.prevIndex - s.base + 1;
      && t.log == (if IsKnown(s.log, at, a.entries) then s.log else s.log[..at] + a.entries)
      && (a.commit <= s.commit ==> t.commit == s.commit)
      && (s.commit < a.commit <= a.prevIndex + |a.entries| ==> t.commit == a.commit)
      && (s.commit < a.commit && a.prevIndex + |a.entries| < a.commit ==> t.commit == a.prevIndex + |a.entries|)
  {
    AppendWrites(s, a);
    MergedKnown(s.log, a.prevIndex - s.base + 1, a.entries);
  }

  /**
   On its own the handler may take commitIndex back: exactly if the leader has committed more than this server, and
   what it sends ends before what this server has for committed.
   */
  lemma CommitFallsIff(s: Server, a: AppendArgs)
    requires s.log != []
    ensures AppendEntries(s, a).0.commit < s.commit <==>
      && a.term >= s.term && HasTermAt(s, a.prevIndex, a.prevTerm)
      && a.prevIndex + |a.entries| < s.commit < a.commit
  {
    AppendAcceptedIff(s, a);
    AppendChanges(s, a);
    if a.term >= s.term && HasTermAt(s, a.prevIndex, a.prevTerm) {
      AppendTakes(s, a);
    }
  }

  /**
   What a refusal tells: nothing if the sender is out of date; one past the end if there is no entry at the
   preceding index; otherwise the term found there, and the first index of the run of that term.
   */
  lemma RefusalTells(s: Server, a: AppendArgs)
    requires s.log != [] && !AppendEntries(s, a).1.success
    ensures var reply := AppendEntries(s, a).1;
      && (a.term < s.term ==> reply.conflictTerm == 0 && reply.conflictIndex == 0)
      && (a.term >= s.term && !(s.base <= a.prevIndex < s.base + |s.log|) ==>
           reply.conflictTerm == -1 && reply.conflictIndex == s.base + |s.log|)
      && (a.term >= s.term && s.base <= a.prevIndex < s.base + |s.log| ==>
           && HasTermAt(s, a.prevIndex, reply.conflictTerm) && reply.conflictTerm != a.prevTerm
           && s.base < reply.conflictIndex <= a.prevIndex + 1
           && (forall j: nat :: reply.conflictIndex <= j <= a.prevIndex ==> HasTermAt(s, j, reply.conflictTerm))
           && (reply.conflictIndex > s.base + 1 ==> !HasTermAt(s, reply.conflictIndex - 1, reply.conflictTerm)))
  {
  }

  // ----- Answers -----

  /** The leader takes notice: it still leads the term in which it asked, and no later term is heard of. */
  ghost predicate IsHeeded(s: Server, a: AppendArgs, reply: AppendReply) {
    s.role == Leader && a.term == s.term && reply.term <= s.term
  }

  /** The servers that are known to have everything up to `n`, the leader among them. */
  ghost function KnownToHold(s: Server, n: nat): set<nat> {
    set p: nat | p < s.peers && (p == s.me || (p < |s.matchIndex| && s.matchIndex[p] >= n))
  }

  lemma KnownSize(s: Server, n: nat)
    requires WellFormed(s)
    ensures |KnownToHold(s, n)| == 1 + |Holders(s.matchIndex, s.me, n)|
  {
    assert KnownToHold(s, n) == Holders(s.matchIndex, s.me, n) + {s.me};
  }

  /** A later term makes a follower; an answer of the past changes nothing. */
  lemma AnswerIgnored(s: Server, from: nat, a: AppendArgs, reply: AppendReply)
    requires WellFormed(s) && from < s.peers && !IsHeeded(s, a, reply)
    ensures HandleAppendReply(s, from, a, reply) ==
      if reply.term > s.term then s.(term := reply.term, role := Follower, votedFor := -1) else s
  {
  }

  /**
   After a refusal only the next index of that peer changes: to one past the last entry of the term that the
   refusal names, if the leader has one, and otherwise to the index that it names.
   */
  lemma RefusalTaken(s: Server, from: nat, a: AppendArgs, reply: AppendReply)
    requires WellFormed(s) && from < s.peers && IsHeeded(s, a, reply) && !reply.success
    ensures var t := HandleAppendReply(s, from, a, reply);
      var next := t.nextIndex[from];
      && t == s.(nextIndex := s.nextIndex[from := next])
      && (reply.conflictTerm == -1 ==> next == reply.conflictIndex)
      && (reply.conflictTerm != -1 && (forall j :: 1 <= j < |s.log| ==> s.log[j].term != reply.conflictTerm) ==>
           next == reply.conflictIndex)
      && (reply.conflictTerm != -1 && (exists j :: 1 <= j < |s.log| && s.log[j].term == reply.conflictTerm) ==>
           && s.base + 1 < next <= s.base + |s.log| && s.log[next - s.base - 1].term == reply.conflictTerm
           && forall j :: next - s.base <= j < |s.log| ==> s.log[j].term != reply.conflictTerm)
  {
  }

  /**
   After a success the peer is known to hold what was sent to it, and nothing less than before.  The leader
   commits up to there exactly if this is news, is ahead of its commitIndex and a majority is known to hold it.
   */
  lemma SuccessTaken(s: Server, from: nat, a: AppendArgs, reply: AppendReply)
    requires WellFormed(s) && from < s.peers && IsHeeded(s, a, reply) && reply.success
    ensures var t, n := HandleAppendReply(s, from, a, reply), a.prevIndex + |a.entries|;
      && t == s.(
        nextIndex := s.nextIndex[from := s.base + |s.log|],
        matchIndex := s.matchIndex[from := Larger(s.matchIndex[from], n)],
        commit := t.commit)
      && t.commit == (if n > s.matchIndex[from] && n > s.commit && reply.term == s.term &&
           IsMajority(|KnownToHold(t, n)|, s.peers) then n else s.commit)
  {
    var t, n := HandleAppendReply(s, from, a, reply), a.prevIndex + |a.entries|;
    KnownSize(t, n);
    if n <= s.matchIndex[from] {
      assert s.matchIndex[from := s.matchIndex[from]] == s.matchIndex;
    }
  }

  // ----- Snapshots -----

  /** What is left begins at the index; the service is not sent back. */
  lemma SnapshotIs(s: Server, index: nat)
    requires index < s.base + |s.log|
    ensures index <= s.base ==> Snapshot(s, index) == s
    ensures index > s.base ==>
      var t := Snapshot(s, index);
      && t == s.(log := t.log, base := index, baseTerm := t.log[0].term, applied := Larger(s.applied, index))
      && t.base + |t.log| == s.base + |s.log|
      && t.log[0] == LogEntry(Nil, s.log[index - s.base].term)
      && t.log[1..] == s.log[index - s.base + 1..]
  {
  }

  // ----- Terms -----

  ghost predicate Handles(a: Action) {
    a.AnswerVote? || a.TakeVote? || a.AnswerAppend? || a.TakeAnswer?
  }

  /** The term that the message handled in the step carries. */
  ghost function TermHeard(c: Cluster, a: Action): nat
    requires Sound(c) && Enabled(c, a) && Handles(a)
  {
    match a
    case AnswerVote(p) => p.vote.term
    case TakeVote(p) => p.voteReply.term
    case AnswerAppend(p) => p.append.term
    case TakeAnswer(p) => p.appendReply.term
  }

  /**
   Whoever handles a message is then in the later of its own term and the message's.  If that is a new term, it
   follows in it, with its vote to give or just given to the sender.  If it is not, a leader stays a
   leader, and a follower a follower.
   */
  lemma TermsAreFollowed(c: Cluster, a: Action)
    requires Sound(c) && Enabled(c, a) && Handles(a)
    ensures var s, t, heard := c.servers[Who(a)], Moved(c, a), TermHeard(c, a);
      && t.term == Larger(s.term, heard)
      && (heard > s.term ==>
           t.role == Follower && (t.votedFor == -1 || (a.AnswerVote? && t.votedFor == a.p.vote.candidate)))
      && (heard <= s.term && s.role != Candidate ==> t.role == s.role)
  {
  }

  /** An answer carries the term that its sender is then in. */
  lemma AnswersCarryTheTerm(c: Cluster, a: Action, p: Packet)
    requires Sound(c) && Enabled(c, a) && p in Emitted(c, a)
    ensures p.VoteAns? ==> p.voteReply.term == Moved(c, a).term
    ensures p.AppendAns? ==> p.appendReply.term == Moved(c, a).term
  {
  }

  lemma StepTerm(c: Cluster, a: Action, d: Cluster, i: nat)
    requires Sound(c) && Enabled(c, a) && Follows(c, a, d) && i < |c.servers|
    ensures |d.servers| == |c.servers| && d.servers[i].term >= c.servers[i].term
    ensures d.servers[i].term > c.servers[i].term ==> d.servers[i].role != Leader
  {
    StepServer(c, a, d, i);
    if Handles(a) {
      TermsAreFollowed(c, a);
    }
  }

  /** In every run no server ever goes back to an earlier term, restarts included. */
  lemma {:induction false} TermsNeverFall(run: seq<Cluster>, actions: seq<Action>, i: nat, j: nat, k: nat)
    requires IsRun(run, actions) && j <= k < |run| && i < |run[j].servers|
    ensures i < |run[k].servers| && run[j].servers[i].term <= run[k].servers[i].term
    decreases k
  {
    if j < k {
      TermsNeverFall(run, actions, i, j, k - 1);
      StepTerm(run[k-1], actions[k-1], run[k], i);
    }
  }
}
