/**
 Compaction is invisible: a server that has cut its log at a snapshot answers, for as long as
 requests do not reach back behind the cut, as if it still had everything.
 */
module RaftCompaction {
  import opened RaftServer

  /** `t` is `f` without the entries before index `t.base`; what has been delivered is not compared. */
  ghost predicate Trimmed(f: Server, t: Server) {
    && f.base <= t.base < f.base + |f.log|
    && f.log[0].term == f.baseTerm && t.baseTerm == f.log[t.base - f.base].term
    && t.log == f.log[t.base - f.base..][0 := LogEntry(Nil, t.baseTerm)]
    && t == f.(log := t.log, base := t.base, baseTerm := t.baseTerm, applied := t.applied)
  }

  lemma SnapshotTrims(f: Server, index: nat)
    requires f.base < index < f.base + |f.log| && f.log[0].term == f.baseTerm
    ensures Trimmed(f, Snapshot(f, index))
  {
  }

  /** What a server may be asked to do, and what it answers. */
  datatype Event = Ask(vote: VoteArgs) | Deliver(append: AppendArgs) | Stand | Submit(command: Command) | Reboot

  datatype Answer = Vote(reply: VoteReply) | Append(result: AppendReply) | Nothing

  function Handle(s: Server, e: Event): (r: (Server, Answer))
    requires s.log != []
    ensures r.0.log != []
  {
    match e
    case Ask(a) =>
      var r := RequestVote(s, a);
      (r.0, Vote(r.1))
    case Deliver(a) =>
      var r := AppendEntries(s, a);
      (r.0, Append(r.1))
    case Stand => (ToCandidate(s), Nothing)
    case Submit(command) => (Start(s, command), Nothing)
    case Reboot => (Recovered(s.me, s.peers, Persistent(s)), Nothing)
  }

  lemma SameEnd(f: Server, t: Server)
    requires Trimmed(f, t)
    ensures t.log != [] && LastIndex(t) == LastIndex(f) && LastTerm(t.log) == LastTerm(f.log)
  {
  }

  lemma VoteInvisible(f: Server, t: Server, a: VoteArgs)
    requires Trimmed(f, t)
    ensures t.log != [] && RequestVote(t, a).1 == RequestVote(f, a).1
    ensures Trimmed(RequestVote(f, a).0, RequestVote(t, a).0)
  {
    SameEnd(f, t);
  }

  /** It asks for votes, and sends entries from the cut on, as if its log were whole. */
  lemma RequestsInvisible(f: Server, t: Server, peer: nat)
    requires Trimmed(f, t)
    ensures t.log != [] && VoteRequest(t) == VoteRequest(f)
    ensures CanAppendTo(t, peer) <==> CanAppendTo(f, peer) && f.nextIndex[peer] > t.base
    ensures CanAppendTo(t, peer) ==> AppendRequest(t, peer) == AppendRequest(f, peer)
  {
    SameEnd(f, t);
    if CanAppendTo(t, peer) {
      var at := t.nextIndex[peer] - 1;
      assert t.log[at - t.base + 1..] == f.log[at - f.base + 1..];
    }
  }

  /** Merging behind the cut is merging. */
  lemma MergedTrims(log: Log, cut: nat, term: nat, at: nat, entries: Log)
    requires cut < at <= |log| && term == log[cut].term
    ensures var t := log[cut..][0 := LogEntry(Nil, term)];
      && Merged(t, at - cut, entries) == Merged(log, at, entries)[cut..][0 := LogEntry(Nil, term)]
      && cut < |Merged(log, at, entries)| && Merged(log, at, entries)[cut].term == term
      && Merged(log, at, entries)[0].term == log[0].term
  {
    var t := log[cut..][0 := LogEntry(Nil, term)];
    assert Agrees(t, at - cut, entries) <==> Agrees(log, at, entries) by {
      assert forall k :: 0 <= k < |entries| && at + k < |log| ==>
        (log[at + k].term == entries[k].term <==> t[at - cut + k].term == entries[k].term);
    }
    var m := log[..at] + entries;
    assert t[..at - cut] + entries == m[cut..][0 := LogEntry(Nil, term)];
  }

  /**
   The reply of a server whose log is cut at `cut`: the same, but a conflict is never said to begin
   before the first entry that is left.
   */
  ghost predicate SameReply(x: AppendReply, y: AppendReply, cut: nat) {
    y == if !x.success && x.conflictTerm != -1 && 0 < x.conflictIndex <= cut then x.(conflictIndex := cut + 1) else x
  }

  /** Looking back for the start of a run of equal terms stops at the cut. */
  lemma {:induction false} RunStartTrims(log: Log, cut: nat, term: nat, i: nat, t: nat)
    requires cut <= i < |log| && term == log[cut].term
    ensures var trimmed := log[cut..][0 := LogEntry(Nil, term)];
      RunStart(trimmed, i - cut, t) == if RunStart(log, i, t) >= cut then RunStart(log, i, t) - cut else 0
    decreases i
  {
    var trimmed := log[cut..][0 := LogEntry(Nil, term)];
    assert trimmed[i - cut].term == log[i].term;
    if i > cut && log[i].term == t {
      RunStartTrims(log, cut, term, i - 1, t);
    }
  }

  ghost predicate Fits(s: Server, a: AppendArgs) {
    && s.term <= a.term && s.base <= a.prevIndex < s.base + |s.log|
    && s.log[a.prevIndex - s.base].term == a.prevTerm
  }

  function CommitAfter(commit: nat, a: AppendArgs): nat {
    if a.commit > commit then Min(a.commit, a.prevIndex + |a.entries|) else commit
  }

  lemma FittingIs(s: Server, a: AppendArgs)
    requires Fits(s, a)
    ensures AppendHere(s, a) ==
      (s.(log := Merged(s.log, a.prevIndex - s.base + 1, a.entries), commit := CommitAfter(s.commit, a)),
       AppendReply(s.term, true, 0, 0))
  {
  }

  /** Entries that fit. */
  lemma AcceptInvisible(f: Server, t: Server, a: AppendArgs)
    requires Trimmed(f, t) && t.base <= a.prevIndex && Fits(f, a)
    ensures t.log != [] && Trimmed(AppendHere(f, a).0, AppendHere(t, a).0)
    ensures AppendHere(t, a).1 == AppendHere(f, a).1
  {
    var cut, at := t.base - f.base, a.prevIndex - f.base + 1;
    assert Fits(t, a);
    FittingIs(f, a);
    FittingIs(t, a);
    var x, y := Merged(f.log, at, a.entries), Merged(t.log, a.prevIndex - t.base + 1, a.entries);
    assert y == x[cut..][0 := LogEntry(Nil, t.baseTerm)] && cut < |x| && x[cut].term == t.baseTerm &&
      x[0].term == f.baseTerm by {
      assert at - cut == a.prevIndex - t.base + 1;
      MergedTrims(f.log, cut, t.baseTerm, at, a.entries);
    }
    AcceptedTrims(f, t, x, y, CommitAfter(f.commit, a), AppendHere(f, a).0, AppendHere(t, a).0);
  }

  lemma AcceptedTrims(f: Server, t: Server, x: Log, y: Log, commit: nat, f': Server, t': Server)
    requires Trimmed(f, t) && t.base - f.base < |x| && x[0].term == f.baseTerm && x[t.base - f.base].term == t.baseTerm
    requires y == x[t.base - f.base..][0 := LogEntry(Nil, t.baseTerm)]
    requires f' == f.(log := x, commit := commit) && t' == t.(log := y, commit := commit)
    ensures Trimmed(f', t')
  {
  }

  /** Entries that do not fit. */
  lemma ConflictInvisible(f: Server, t: Server, a: AppendArgs)
    requires Trimmed(f, t) && f.term <= a.term && t.base <= a.prevIndex <= f.base + |f.log| - 1
    requires f.log[a.prevIndex - f.base].term != a.prevTerm
    ensures t.log != [] && AppendHere(f, a).0 == f && AppendHere(t, a).0 == t
    ensures SameReply(AppendHere(f, a).1, AppendHere(t, a).1, t.base)
  {
    var at := a.prevIndex - f.base;
    assert t.log[a.prevIndex - t.base].term == f.log[at].term;
    RunStartTrims(f.log, t.base - f.base, t.baseTerm, at, f.log[at].term);
  }

  lemma AppendedInvisible(f: Server, t: Server, a: AppendArgs)
    requires Trimmed(f, t) && a.prevIndex >= t.base
    ensures t.log != [] && Trimmed(AppendHere(f, a).0, AppendHere(t, a).0)
    ensures SameReply(AppendHere(f, a).1, AppendHere(t, a).1, t.base)
  {
    SameEnd(f, t);
    if Fits(f, a) {
      AcceptInvisible(f, t, a);
    } else if f.term <= a.term && a.prevIndex <= LastIndex(f) {
      ConflictInvisible(f, t, a);
    }
  }

  lemma AppendInvisible(f: Server, t: Server, a: AppendArgs)
    requires Trimmed(f, t) && a.prevIndex >= t.base
    ensures t.log != [] && Trimmed(AppendEntries(f, a).0, AppendEntries(t, a).0)
    ensures SameReply(AppendEntries(f, a).1, AppendEntries(t, a).1, t.base)
  {
    AppendedInvisible(FollowSender(f, a), FollowSender(t, a), a);
  }

  ghost predicate SameAnswer(x: Answer, y: Answer, cut: nat) {
    if x.Append? && y.Append? then SameReply(x.result, y.result, cut) else y == x
  }

  lemma SubmitInvisible(f: Server, t: Server, command: Command)
    requires Trimmed(f, t)
    ensures Trimmed(Start(f, command), Start(t, command)) && Start(t, command).base == t.base
  {
  }

  lemma RebootInvisible(f: Server, t: Server)
    requires Trimmed(f, t)
    ensures t.log != []
    ensures var g, u := Recovered(f.me, f.peers, Persistent(f)), Recovered(t.me, t.peers, Persistent(t));
      Trimmed(g, u) && u.base == t.base
  {
  }

  lemma HandleInvisible(f: Server, t: Server, e: Event)
    requires Trimmed(f, t) && (e.Deliver? ==> e.append.prevIndex >= t.base)
    ensures t.log != [] && SameAnswer(Handle(f, e).1, Handle(t, e).1, t.base)
    ensures Trimmed(Handle(f, e).0, Handle(t, e).0) && Handle(t, e).0.base == t.base
  {
    match e
    case Ask(a) => VoteInvisible(f, t, a);
    case Deliver(a) => AppendInvisible(f, t, a);
    case Stand =>
    case Submit(command) => SubmitInvisible(f, t, command);
    case Reboot => RebootInvisible(f, t);
  }

  /** The answers to a sequence of events, and the state after them. */
  function Answers(s: Server, events: seq<Event>): (Server, seq<Answer>)
    requires s.log != []
    decreases events
  {
    if events == [] then (s, [])
    else
      var r := Handle(s, events[0]);
      var rest := Answers(r.0, events[1..]);
      (rest.0, [r.1] + rest.1)
  }

  ghost predicate SameAnswers(x: seq<Answer>, y: seq<Answer>, cut: nat) {
    |x| == |y| && forall i :: 0 <= i < |x| ==> SameAnswer(x[i], y[i], cut)
  }

  /**
   Whatever it is asked: the same votes, the same verdicts on entries, conflicts from the cut on at the
   same place, and the same log from the cut on.
   */
  lemma {:induction false} CompactionInvisible(f: Server, t: Server, events: seq<Event>)
    requires Trimmed(f, t)
    requires forall i :: 0 <= i < |events| && events[i].Deliver? ==> events[i].append.prevIndex >= t.base
    ensures t.log != [] && SameAnswers(Answers(f, events).1, Answers(t, events).1, t.base)
    ensures Trimmed(Answers(f, events).0, Answers(t, events).0)
    decreases events
  {
    if events != [] {
      HandleInvisible(f, t, events[0]);
      CompactionInvisible(Handle(f, events[0]).0, Handle(t, events[0]).0, events[1..]);
    }
  }
}
