/**
 The server of src/raft/raft.go as an object that is updated in place.  Every method is one
 lock-held section; it is proved to do what the functions of RaftServer say, and to leave on
 disk what a restart needs.
 */
module RaftNode {
  import H = Histories
  import S = RaftServer
  import opened RaftServer

  class Raft {
    const me: nat
    const peers: nat
    var currentTerm: nat
    var votedFor: int
    var log: seq<LogEntry>
    var lastIncludedIndex: nat
    var lastIncludedTerm: nat
    var lastApplied: nat
    var commitIndex: nat
    var state: Role
    var asking: nat
    var votes: set<nat>
    const nextIndex: array<nat>
    const matchIndex: array<nat>
    var saved: Saved

    ghost function State(): Server
      reads this, nextIndex, matchIndex
    {
      Server(me, peers, currentTerm, votedFor, log, lastIncludedIndex, lastIncludedTerm, lastApplied,
             commitIndex, nextIndex[..], matchIndex[..], state, asking, votes)
    }

    /** The disk is up to date whenever the lock is free. */
    ghost predicate Valid()
      reads this, nextIndex, matchIndex
    {
      && nextIndex != matchIndex
      && S.WellFormed(State())
      && saved == Persistent(State())
    }

    constructor (me: nat, peers: nat)
      requires me < peers
      ensures Valid() && State() == Fresh(me, peers)
      ensures fresh(nextIndex) && fresh(matchIndex)
    {
      this.me, this.peers := me, peers;
      currentTerm, votedFor, log := 0, -1, [DUMMY];
      lastIncludedIndex, lastIncludedTerm, lastApplied, commitIndex := 0, 0, 0, 0;
      state, asking, votes := Follower, 0, {};
      nextIndex := new nat[peers](_ => 1);
      matchIndex := new nat[peers](_ => 0);
      saved := Saved(0, -1, 0, 0, [DUMMY]);
    }

    /** A server that comes back with what `d` remembers. */
    constructor Recover(me: nat, peers: nat, d: Saved)
      requires me < peers && d.log != []
      ensures State() == Recovered(me, peers, d) && saved == d
      ensures d.log[0].term == d.baseTerm ==> Valid()
      ensures currentTerm == d.term && votedFor == d.votedFor && log[0].term == d.baseTerm && log[1..] == d.log[1..]
      ensures state == Follower && commitIndex == 0 && lastApplied == lastIncludedIndex == d.base
      ensures fresh(nextIndex) && fresh(matchIndex)
    {
      this.me, this.peers := me, peers;
      currentTerm, votedFor := d.term, d.votedFor;
      log := d.log[0 := d.log[0].(term := d.baseTerm)];
      lastIncludedIndex, lastIncludedTerm, lastApplied, commitIndex := d.base, d.baseTerm, d.base, 0;
      state, asking, votes := Follower, 0, {};
      nextIndex := new nat[peers](_ => 1);
      matchIndex := new nat[peers](_ => 0);
      saved := d;
    }

    method Persist()
      modifies `saved
      ensures saved == Persistent(State())
    {
      saved := Saved(currentTerm, votedFor, lastIncludedIndex, lastIncludedTerm, log);
    }

    method ToFollower(term: nat, votedFor: int)
      requires Valid()
      modifies `state, `currentTerm, `votedFor, `saved
      ensures Valid() && State() == S.ToFollower(old(State()), term, votedFor)
      ensures state == Follower && currentTerm == saved.term == term && this.votedFor == saved.votedFor == votedFor
    {
      state, currentTerm, this.votedFor := Follower, term, votedFor;
      Persist();
    }

    method ToCandidate()
      requires Valid()
      modifies `state, `currentTerm, `votedFor, `saved, `asking, `votes
      ensures Valid() && State() == S.ToCandidate(old(State()))
      ensures state == Candidate && currentTerm == saved.term == asking == old(currentTerm) + 1
      ensures votedFor == saved.votedFor == me && votes == {}
    {
      state, currentTerm, votedFor := Candidate, currentTerm + 1, me;
      Persist();
      asking, votes := currentTerm, {};
    }

    method ToLeader()
      requires Valid()
      modifies `state, nextIndex, matchIndex
      ensures Valid() && State() == S.ToLeader(old(State()))
      ensures state == Leader
      ensures forall p :: 0 <= p < peers ==> nextIndex[p] == lastIncludedIndex + |log| && matchIndex[p] == 0
    {
      state := Leader;
      for i := 0 to peers
        invariant state == Leader
        invariant forall j :: 0 <= j < i ==> nextIndex[j] == lastIncludedIndex + |log| && matchIndex[j] == 0
      {
        nextIndex[i] := lastIncludedIndex + |log|;
        matchIndex[i] := 0;
      }
      ghost var target := S.ToLeader(old(State()));
      assert nextIndex[..] == target.nextIndex && matchIndex[..] == target.matchIndex;
    }

    /** What elect() asks a peer with. */
    method MakeVoteRequest() returns (a: VoteArgs)
      requires Valid()
      ensures a == VoteRequest(State())
    {
      a := VoteArgs(currentTerm, me, lastIncludedIndex + |log| - 1, log[|log| - 1].term);
    }

    method RequestVote(a: VoteArgs) returns (reply: VoteReply)
      requires Valid()
      modifies `state, `currentTerm, `votedFor, `saved
      ensures Valid() && (State(), reply) == S.RequestVote(old(State()), a)
    {
      if currentTerm < a.term {
        ToFollower(a.term, -1);
      }
      reply := VoteReply(currentTerm, false);
      if currentTerm > a.term || (currentTerm == a.term && votedFor != -1 && votedFor != a.candidate) {
        return;
      }
      if FreshThan(log, lastIncludedIndex, a.lastIndex, a.lastTerm) {
        return;
      }
      votedFor := a.candidate;
      reply := reply.(granted := true);
      Persist();
    }

    method CountVote(from: nat, sendTerm: nat, reply: VoteReply)
      requires Valid()
      modifies this, nextIndex, matchIndex
      ensures Valid() && State() == S.CountVote(old(State()), from, sendTerm, reply)
    {
      if currentTerm < reply.term {
        ToFollower(reply.term, -1);
        return;
      }
      if state != Candidate || sendTerm != currentTerm || !reply.granted {
        return;
      }
      votes := votes + {from};
      if 1 + |votes| >= peers / 2 + 1 {
        ToLeader();
      }
    }

    /** The first index of the run of entries with the term of entry `at`, less one. */
    method FindConflict(at: nat) returns (i: nat)
      requires at < |log|
      ensures i == RunStart(log, at, log[at].term)
    {
      var conflictTerm := log[at].term;
      i := at;
      while i > 0
        invariant i <= at && RunStart(log, at, conflictTerm) == RunStart(log, i, conflictTerm)
      {
        if log[i].term != conflictTerm {
          break;
        }
        i := i - 1;
      }
    }

    /** Whether entries from `at` on make a difference to the log. */
    method IsNews(at: nat, entries: seq<LogEntry>) returns (newLog: bool)
      requires at <= |log|
      ensures newLog <==> !Agrees(log, at, entries) || |log| <= at + |entries|
    {
      var index := at;
      newLog := false;
      while index < |log| && index < at + |entries|
        invariant at <= index <= |log| && index <= at + |entries| && !newLog
        invariant forall k :: 0 <= k < index - at ==> log[at + k].term == entries[k].term
      {
        if log[index].term != entries[index - at].term {
          newLog := true;
          assert log[at + (index - at)].term != entries[index - at].term;
          return;
        }
        index := index + 1;
      }
      if index == |log| {
        newLog := true;
      }
    }

    /** The log and commitIndex after entries that fit. */
    method Accept(at: nat, a: AppendArgs)
      requires Valid() && at < |log|
      modifies `log, `saved, `commitIndex
      ensures Valid() && log == Merged(old(log), at + 1, a.entries)
      ensures commitIndex == if a.commit > old(commitIndex) then Min(a.commit, a.prevIndex + |a.entries|)
        else old(commitIndex)
    {
      var newLog := IsNews(at + 1, a.entries);
      if newLog {
        log := log[..at + 1] + a.entries;
        Persist();
      }
      if a.commit > commitIndex {
        commitIndex := Min(a.commit, a.prevIndex + |a.entries|);
      }
    }

    method AppendHere(a: AppendArgs) returns (reply: AppendReply)
      requires Valid()
      modifies `log, `saved, `commitIndex
      ensures Valid() && (State(), reply) == S.AppendHere(old(State()), a)
    {
      reply := AppendReply(currentTerm, false, 0, 0);
      if currentTerm > a.term {
        return;
      }
      var at := a.prevIndex - lastIncludedIndex;
      if a.prevIndex > lastIncludedIndex + |log| - 1 || at < 0 {
        reply := reply.(conflictIndex := lastIncludedIndex + |log|, conflictTerm := -1);
        return;
      }
      if log[at].term != a.prevTerm {
        var i := FindConflict(at);
        reply := reply.(conflictTerm := log[at].term, conflictIndex := lastIncludedIndex + i + 1);
        return;
      }
      reply := reply.(success := true);
      Accept(at, a);
    }

    /**
     What onRound() sends to a peer.  Nothing comes back from a server that does not lead, if the peer needs a
     snapshot instead, or where the round would leave the log.
     */
    method MakeAppendRequest(server: nat) returns (a: H.Option<AppendArgs>)
      requires Valid() && server < peers && server != me
      ensures a.Some? <==> CanAppendTo(State(), server)
      ensures a.Some? ==> a.value == AppendRequest(State(), server)
    {
      if state != Leader {
        return H.None;
      }
      var next: int := nextIndex[server];
      var prevLogIndex := next - 1;
      if prevLogIndex < lastIncludedIndex || prevLogIndex >= lastIncludedIndex + |log| {
        return H.None;
      }
      var index := prevLogIndex - lastIncludedIndex;
      var entries: seq<LogEntry> := [];
      if lastIncludedIndex + |log| - 1 > prevLogIndex {
        entries := log[index + 1..];
      }
      a := H.Some(AppendArgs(currentTerm, me, prevLogIndex, log[index].term, entries, commitIndex));
    }

    method AppendEntries(a: AppendArgs) returns (reply: AppendReply)
      requires Valid()
      modifies this
      ensures Valid() && (State(), reply) == S.AppendEntries(old(State()), a)
    {
      if currentTerm < a.term || (state == Candidate && currentTerm == a.term) {
        ToFollower(a.term, -1);
      }
      reply := AppendHere(a);
    }

    /** The last index with the given term, or 0. */
    method FindTerm(t: int) returns (i: nat)
      requires log != []
      ensures i == LastOfTerm(log, |log| - 1, t)
    {
      i := |log| - 1;
      while i > 0
        invariant i < |log| && LastOfTerm(log, |log| - 1, t) == LastOfTerm(log, i, t)
      {
        if log[i].term == t {
          break;
        }
        i := i - 1;
      }
    }

    /** How many servers have everything up to `n`, this one included. */
    method CountHolders(n: nat) returns (cnt: nat)
      requires Valid()
      ensures cnt == 1 + |Holders(matchIndex[..], me, n)|
    {
      cnt := 1;
      ghost var seen: set<nat> := {};
      for p := 0 to peers
        invariant seen == set q: nat | q < p && q != me && matchIndex[q] >= n
        invariant cnt == 1 + |seen|
      {
        if p != me && matchIndex[p] >= n {
          cnt := cnt + 1;
          seen := seen + {p};
        }
      }
      assert seen == Holders(matchIndex[..], me, n);
    }

    method HandleAppendEntriesReply(from: nat, a: AppendArgs, reply: AppendReply)
      requires Valid() && from < peers
      modifies this, nextIndex, matchIndex
      ensures Valid() && State() == S.HandleAppendReply(old(State()), from, a, reply)
    {
      if currentTerm < reply.term {
        ToFollower(reply.term, -1);
      }
      if state != Leader || a.term != currentTerm {
        return;
      }
      if !reply.success {
        if reply.conflictTerm == -1 {
          nextIndex[from] := reply.conflictIndex;
        } else {
          var i := FindTerm(reply.conflictTerm);
          nextIndex[from] := if i == 0 then reply.conflictIndex else lastIncludedIndex + i + 1;
        }
      } else {
        nextIndex[from] := lastIncludedIndex + |log|;
        var oldMatchIndex := matchIndex[from];
        if matchIndex[from] < a.prevIndex + |a.entries| {
          matchIndex[from] := a.prevIndex + |a.entries|;
        }
        if oldMatchIndex == matchIndex[from] {
          assert matchIndex[..] == old(matchIndex[..]);
          return;
        }
        var newCommit := matchIndex[from];
        if commitIndex < newCommit && currentTerm == reply.term {
          var cnt := CountHolders(newCommit);
          if cnt >= peers / 2 + 1 {
            commitIndex := newCommit;
          }
        }
      }
    }

    method Start(command: Command) returns (index: int, term: int, isLeader: bool)
      requires Valid()
      modifies `log, `saved
      ensures Valid() && State() == S.Start(old(State()), command)
      ensures term == currentTerm && isLeader == (state == Leader)
      ensures isLeader ==>
        log == old(log) + [LogEntry(command, currentTerm)] == saved.log && index == lastIncludedIndex + |log| - 1
      ensures !isLeader ==> log == old(log) && index == -1
    {
      index, term, isLeader := -1, currentTerm, false;
      if state == Leader {
        isLeader := true;
        log := log + [LogEntry(command, currentTerm)];
        Persist();
        index := lastIncludedIndex + |log| - 1;
      }
    }

    /** What goes to the service in one round; nothing comes back from a round that leaves the log. */
    method UpdateApplied() returns (messages: H.Option<seq<Command>>)
      requires Valid()
      modifies `lastApplied
      ensures Valid() && (messages.Some? <==> CanDeliver(old(State())))
      ensures messages.Some? ==> State() == Applied(old(State())) && messages.value == Deliverable(old(State()))
      ensures messages.None? ==> State() == old(State())
    {
      var batch: seq<Command> := [];
      if lastApplied < commitIndex {
        for i := lastApplied to commitIndex
          invariant |batch| == i - lastApplied && unchanged(this)
          invariant i > lastApplied ==> lastIncludedIndex <= lastApplied + 1 && i < lastIncludedIndex + |log|
          invariant forall k :: 0 <= k < |batch| ==> batch[k] == log[lastApplied + 1 + k - lastIncludedIndex].command
        {
          var at := i + 1 - lastIncludedIndex;
          if !(0 <= at < |log|) {
            return H.None;
          }
          batch := batch + [log[at].command];
        }
      }
      lastApplied := commitIndex;
      messages := H.Some(batch);
    }

    method Snapshot(index: nat)
      requires Valid() && index < lastIncludedIndex + |log|
      modifies `log, `lastIncludedIndex, `lastIncludedTerm, `lastApplied, `saved
      ensures Valid() && State() == S.Snapshot(old(State()), index)
    {
      if index <= lastIncludedIndex {
        return;
      }
      log := log[index - lastIncludedIndex..];
      lastIncludedIndex := index;
      lastIncludedTerm := log[0].term;
      if lastIncludedIndex > lastApplied {
        lastApplied := lastIncludedIndex;
      }
      log := log[0 := log[0].(command := Nil)];
      Persist();
    }
  }
}
