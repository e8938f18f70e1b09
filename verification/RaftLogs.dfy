/**
 Log Matching: in every reachable state, logs that have the same term at an index are the same
 up to it, and terms never decrease along a log.  The log that the leader of a term has in that
 term is the yardstick: whatever ends with an entry of that term is the beginning of it.
 */
module RaftLogs {
  import opened Sealing
  import opened RaftServer
  import opened RaftCluster
  import E = RaftElections

  /** Up to `i`, the log is what the leader of the term of its entry `i` had. */
  ghost predicate MatchedAt(logs: map<nat, Log>, log: Log, i: nat, t: nat)
    requires i < |log|
  {
    log[i].term <= t && log[i].term in logs && log[..i+1] <= logs[log[i].term]
  }

  ghost predicate Matched(logs: map<nat, Log>, log: Log, t: nat) {
    && log != [] && log[0] == DUMMY
    && forall i: nat {:trigger MatchedAt(logs, log, i, t)} :: i < |log| ==> MatchedAt(logs, log, i, t)
  }

  ghost predicate Grow(logs: map<nat, Log>, logs': map<nat, Log>) {
    forall t :: t in logs ==> t in logs' && logs[t] <= logs'[t]
  }

  lemma MatchedGrows(logs: map<nat, Log>, logs': map<nat, Log>, log: Log, t: nat, t': nat)
    requires Matched(logs, log, t) && Grow(logs, logs') && t <= t'
    ensures Matched(logs', log, t')
  {
    forall i: nat | i < |log|
      ensures MatchedAt(logs', log, i, t')
    {
      assert MatchedAt(logs, log, i, t);
    }
  }

  lemma MatchedPrefix(logs: map<nat, Log>, log: Log, t: nat, n: nat)
    requires Matched(logs, log, t) && 0 < n <= |log|
    ensures Matched(logs, log[..n], t)
  {
    forall i: nat | i < n
      ensures MatchedAt(logs, log[..n], i, t)
    {
      assert MatchedAt(logs, log, i, t);
      assert log[..n][..i+1] == log[..i+1];
    }
  }

  lemma SameTermSamePrefix(logs: map<nat, Log>, x: Log, y: Log, i: nat, t: nat, u: nat)
    requires Matched(logs, x, t) && Matched(logs, y, u) && i < |x| && i < |y| && x[i].term == y[i].term
    ensures x[..i+1] == y[..i+1]
  {
    assert MatchedAt(logs, x, i, t) && MatchedAt(logs, y, i, u);
  }

  lemma TermsAscend(logs: map<nat, Log>, log: Log, t: nat, i: nat, j: nat)
    requires (forall u :: u in logs ==> Matched(logs, logs[u], u)) && Matched(logs, log, t)
    requires i <= j < |log|
    ensures log[i].term <= log[j].term
  {
    assert MatchedAt(logs, log, j, t);
    var u := log[j].term;
    assert log[i] == log[..j+1][i] == logs[u][i];
    assert MatchedAt(logs, logs[u], i, u);
  }

  /**
   What AppendEntries does to a log, when the entries are a piece of the sender's: the receiver
   ends up agreeing with the sender through the end of the piece, and it gives up nothing unless
   it disagreed.
   */
  lemma MergedIs(logs: map<nat, Log>, log: Log, t: nat, sender: Log, u: nat, at: nat, entries: Log)
    requires Matched(logs, log, t) && Matched(logs, sender, u)
    requires 0 < at <= |log| && at + |entries| <= |sender| && entries == sender[at..at+|entries|]
    requires log[at-1].term == sender[at-1].term
    ensures var m, end := Merged(log, at, entries), at + |entries|;
      && (m == log || m == sender[..end])
      && |m| >= end && m[..end] == sender[..end]
      && (sender[..end] <= log ==> m == log)
  {
    var m, end := Merged(log, at, entries), at + |entries|;
    SameTermSamePrefix(logs, log, sender, at - 1, t, u);
    assert sender[..end] == log[..at] + entries;
    if Agrees(log, at, entries) && |log| > end {
      if entries != [] {
        var k := |entries| - 1;
        assert log[at + k].term == entries[k].term;
        SameTermSamePrefix(logs, log, sender, end - 1, t, u);
      }
    } else if sender[..end] <= log {
      assert forall k :: 0 <= k < |entries| ==> log[at + k] == sender[..end][at + k] == entries[k];
    }
  }

  // ----- The invariant -----

  /** A leader adds only entries of its own term to the log it started with. */
  ghost predicate StartOk(logs: map<nat, Log>, t: nat, start: Log)
    requires t in logs
  {
    && t > 0 && start <= logs[t] && Matched(logs, start, t - 1)
    && forall i :: |start| <= i < |logs[t]| ==> logs[t][i].term == t
  }

  ghost predicate HistoryOk(elections: map<nat, Election>, logs: map<nat, Log>) {
    && logs.Keys == elections.Keys + {0} && logs[0] == [DUMMY]
    && (forall t :: t in logs ==> Matched(logs, logs[t], t))
    && (forall t :: t in elections ==> StartOk(logs, t, elections[t].start))
  }

  ghost predicate LogOk(elections: map<nat, Election>, logs: map<nat, Log>, s: Server, i: nat) {
    && Matched(logs, s.log, s.term)
    && (s.role == Candidate ==> s.term > 0 && Matched(logs, s.log, s.term - 1))
    && (s.term in elections && elections[s.term].leader == i ==> s.term in logs && s.log == logs[s.term])
  }

  /** The entries sent are a piece of the sender's log. */
  ghost predicate PieceOk(logs: map<nat, Log>, a: AppendArgs) {
    && a.term in logs && a.prevIndex + |a.entries| < |logs[a.term]|
    && a.prevTerm == logs[a.term][a.prevIndex].term
    && a.entries == logs[a.term][a.prevIndex + 1..a.prevIndex + 1 + |a.entries|]
  }

  /** For as long as the sender is a candidate, its request describes its log. */
  ghost predicate AskOk(servers: seq<Server>, v: VoteArgs) {
    && v.candidate < |servers|
    && var s := servers[v.candidate];
       && s.term >= v.term
       && (s.term == v.term && s.role == Candidate ==>
            s.log != [] && v.lastIndex == |s.log| - 1 && v.lastTerm == LastTerm(s.log))
  }

  ghost predicate CargoOk(servers: seq<Server>, logs: map<nat, Log>, p: Packet) {
    match p
    case VoteReq(_, v) => AskOk(servers, v)
    case VoteAns(_, v, r, log) =>
      AskOk(servers, v) && (r.granted ==> Matched(logs, log, v.term) && !FreshThan(log, 0, v.lastIndex, v.lastTerm))
    case AppendReq(_, a) => PieceOk(logs, a)
    case AppendAns(_, a, _) => PieceOk(logs, a)
  }

  ghost predicate Logs(servers: seq<Server>, net: set<Packet>, elections: map<nat, Election>, logs: map<nat, Log>) {
    forall k: nat :: Open(k, logs) ==>
      && HistoryOk(elections, logs)
      && (forall i :: 0 <= i < |servers| ==> LogOk(elections, logs, servers[i], i))
      && (forall p :: p in net ==> CargoOk(servers, logs, p))
  }

  ghost predicate Inv(c: Cluster) {
    E.Inv(c) && Logs(c.servers, c.net, c.elections, c.logs)
  }

  // ----- History -----

  lemma WinHistory(elections: map<nat, Election>, logs: map<nat, Log>, t: nat, e: Election)
    requires HistoryOk(elections, logs) && t !in elections && t > 0 && Matched(logs, e.start, t - 1)
    ensures HistoryOk(elections[t := e], logs[t := e.start]) && Grow(logs, logs[t := e.start])
  {
    var elections', logs' := elections[t := e], logs[t := e.start];
    forall u | u in logs
      ensures Matched(logs', logs[u], u)
    {
      MatchedGrows(logs, logs', logs[u], u, u);
    }
    MatchedGrows(logs, logs', e.start, t - 1, t);
    MatchedGrows(logs, logs', e.start, t - 1, t - 1);
    forall u | u in elections
      ensures StartOk(logs', u, elections[u].start)
    {
      assert StartOk(logs, u, elections[u].start);
      StartGrows(logs, logs', u, elections[u].start);
    }
  }

  lemma StartGrows(logs: map<nat, Log>, logs': map<nat, Log>, u: nat, start: Log)
    requires u in logs && u in logs' && StartOk(logs, u, start) && Grow(logs, logs')
    requires forall i :: |logs[u]| <= i < |logs'[u]| ==> logs'[u][i].term == u
    ensures StartOk(logs', u, start)
  {
    MatchedGrows(logs, logs', start, u - 1, u - 1);
  }

  lemma MatchedSnoc(logs: map<nat, Log>, log: Log, t: nat, entry: LogEntry)
    requires Matched(logs, log, t) && entry.term == t && t in logs && logs[t] == log + [entry]
    ensures Matched(logs, log + [entry], t)
  {
    var log' := log + [entry];
    forall i: nat | i < |log'|
      ensures MatchedAt(logs, log', i, t)
    {
      if i < |log| {
        assert MatchedAt(logs, log, i, t);
        assert log'[..i+1] == log[..i+1];
      } else {
        assert log'[..i+1] == log';
      }
    }
  }

  lemma SubmitHistory(elections: map<nat, Election>, logs: map<nat, Log>, t: nat, entry: LogEntry)
    requires HistoryOk(elections, logs) && t in elections && entry.term == t
    ensures HistoryOk(elections, logs[t := logs[t] + [entry]]) && Grow(logs, logs[t := logs[t] + [entry]])
  {
    var log' := logs[t] + [entry];
    var logs' := logs[t := log'];
    assert StartOk(logs, t, elections[t].start);
    assert Grow(logs, logs');
    forall u | u in logs
      ensures Matched(logs', logs'[u], u)
    {
      MatchedGrows(logs, logs', logs[u], u, u);
      if u == t {
        MatchedSnoc(logs', logs[t], t, entry);
      }
    }
    forall u | u in elections
      ensures StartOk(logs', u, elections[u].start)
    {
      assert StartOk(logs, u, elections[u].start);
      StartGrows(logs, logs', u, elections[u].start);
    }
  }

  // ----- Servers -----

  lemma AppendFacts(s: Server, a: AppendArgs)
    requires s.log != [] && s.base == 0
    ensures var s' := AppendEntries(s, a).0;
      && s'.term >= s.term
      && (s'.role == Candidate ==> s'.log == s.log && s'.term == s.term && s.role == Candidate)
      && (s'.role == Leader ==> s.role == Leader && s'.term == s.term)
      && (if AppendEntries(s, a).1.success
          then
            && s'.term == a.term && a.prevIndex < |s.log| && s.log[a.prevIndex].term == a.prevTerm
            && s'.log == Merged(s.log, a.prevIndex + 1, a.entries)
          else s'.log == s.log && s'.commit == s.commit)
  {
  }

  /** What a received piece leaves in the log. */
  lemma Received(elections: map<nat, Election>, logs: map<nat, Log>, s: Server, a: AppendArgs)
    requires s.log != [] && s.base == 0 && HistoryOk(elections, logs)
    requires Matched(logs, s.log, s.term) && PieceOk(logs, a) && AppendEntries(s, a).1.success
    ensures var log', end := AppendEntries(s, a).0.log, a.prevIndex + 1 + |a.entries|;
      && (log' == s.log || log' == logs[a.term][..end])
      && |log'| >= end && log'[..end] == logs[a.term][..end]
      && (logs[a.term][..end] <= s.log ==> log' == s.log)
      && Matched(logs, log', a.term)
  {
    AppendFacts(s, a);
    ReceivedLog(elections, logs, s.log, s.term, a);
  }

  lemma ReceivedLog(elections: map<nat, Election>, logs: map<nat, Log>, log: Log, t: nat, a: AppendArgs)
    requires HistoryOk(elections, logs) && Matched(logs, log, t) && PieceOk(logs, a) && t <= a.term
    requires a.prevIndex < |log| && log[a.prevIndex].term == a.prevTerm
    ensures var log', end := Merged(log, a.prevIndex + 1, a.entries), a.prevIndex + 1 + |a.entries|;
      && (log' == log || log' == logs[a.term][..end])
      && |log'| >= end && log'[..end] == logs[a.term][..end]
      && (logs[a.term][..end] <= log ==> log' == log)
      && Matched(logs, log', a.term)
  {
    MergedIs(logs, log, t, logs[a.term], a.term, a.prevIndex + 1, a.entries);
    MatchedPrefix(logs, logs[a.term], a.term, a.prevIndex + 1 + |a.entries|);
    MatchedGrows(logs, logs, log, t, a.term);
  }

  /** A candidate of a term keeps its log. */
  ghost predicate LogMove(s: Server, s': Server) {
    s'.term >= s.term && (s'.role == Candidate && s'.term == s.term ==> s.role == Candidate && s'.log == s.log)
  }

  lemma LaterTermOtherLeader(c: Cluster, i: nat, t: nat)
    requires E.Inv(c) && i < |c.servers| && t > c.servers[i].term && t in c.elections
    ensures c.elections[t].leader != i
  {
    assert Open(0, c.servers);
    assert E.ElectionOk(c.servers, c.net, t, c.elections[t]);
    assert E.MemberOk(t, c.elections[t], c.servers[c.elections[t].leader]);
  }

  lemma SameLogOk(c: Cluster, i: nat, s': Server)
    requires Inv(c) && i < |c.servers|
    requires s'.log == c.servers[i].log && s'.term >= c.servers[i].term
    requires s'.role == Candidate ==> s'.term > c.servers[i].term || c.servers[i].role == Candidate
    ensures LogOk(c.elections, c.logs, s', i)
  {
    var s := c.servers[i];
    assert Open(0, c.logs);
    assert LogOk(c.elections, c.logs, s, i);
    MatchedGrows(c.logs, c.logs, s.log, s.term, s'.term);
    if s'.term > s.term {
      MatchedGrows(c.logs, c.logs, s.log, s.term, s'.term - 1);
      if s'.term in c.elections {
        LaterTermOtherLeader(c, i, s'.term);
      }
    }
  }

  lemma AppendedLogOk(c: Cluster, a: Action)
    requires Inv(c) && Enabled(c, a) && a.AnswerAppend?
    ensures LogOk(c.elections, c.logs, Moved(c, a), Who(a)) && LogMove(c.servers[Who(a)], Moved(c, a))
  {
    var i, p := Who(a), a.p;
    var s := c.servers[i];
    AppendFacts(s, p.append);
    if Accepts(c, a) {
      assert Open(0, c.logs);
      assert CargoOk(c.servers, c.logs, p);
      assert LogOk(c.elections, c.logs, s, i);
      Received(c.elections, c.logs, s, p.append);
      assert E.AppendOk(|c.servers|, c.elections, p) by {
        assert Open(0, c.servers);
        assert E.PacketOk(c.servers, c.elections, p);
      }
    } else {
      SameLogOk(c, i, Moved(c, a));
    }
  }

  lemma AnswerLog(s: Server, from: nat, a: AppendArgs, reply: AppendReply)
    requires WellFormed(s) && from < s.peers
    ensures var s' := HandleAppendReply(s, from, a, reply);
      s'.log == s.log && s'.term >= s.term && (s'.role == Candidate ==> s.role == Candidate)
  {
  }

  lemma MovedLogOk(c: Cluster, a: Action)
    requires Inv(c) && Enabled(c, a) && !Wins(c, a) && !Submits(c, a)
    ensures LogOk(c.elections, c.logs, Moved(c, a), Who(a)) && LogMove(c.servers[Who(a)], Moved(c, a))
  {
    if a.AnswerAppend? {
      AppendedLogOk(c, a);
    } else {
      if a.TakeAnswer? {
        AnswerLog(c.servers[Who(a)], a.p.from, a.p.append, a.p.appendReply);
      }
      SameLogOk(c, Who(a), Moved(c, a));
    }
  }

  // ----- Messages -----

  lemma CargoStays(c: Cluster, i: nat, s': Server, logs': map<nat, Log>, p: Packet)
    requires Inv(c) && i < |c.servers| && LogMove(c.servers[i], s') && Grow(c.logs, logs') && p in c.net
    ensures CargoOk(c.servers[i := s'], logs', p)
  {
    assert Open(0, c.logs);
    assert CargoOk(c.servers, c.logs, p);
    if p.VoteAns? && p.voteReply.granted {
      MatchedGrows(c.logs, logs', p.voterLog, p.vote.term, p.vote.term);
    }
  }

  lemma EmittedCargoOk(c: Cluster, a: Action)
    requires Inv(c) && Enabled(c, a)
    ensures forall p :: p in Emitted(c, a) ==> CargoOk(c.servers[Who(a) := Moved(c, a)], c.logs, p)
  {
    var i := Who(a);
    var s := c.servers[i];
    match a
    case AskVote(_, peer) => assert AskOk(c.servers[i := s], VoteRequest(s));
    case AnswerVote(_) => VoteCargoOk(c, a);
    case SendAppend(_, _) => SendCargoOk(c, a);
    case AnswerAppend(p) => assert CargoOk(c.servers, c.logs, p) by { assert Open(0, c.logs); }
    case _ =>
  }

  lemma SendCargoOk(c: Cluster, a: Action)
    requires Inv(c) && Enabled(c, a) && a.SendAppend?
    ensures PieceOk(c.logs, AppendRequest(c.servers[a.i], a.peer))
  {
    var s := c.servers[a.i];
    assert E.RoleOk(c.net, c.elections, s, a.i) by { assert Open(0, c.servers); }
    assert LogOk(c.elections, c.logs, s, a.i) by { assert Open(0, c.logs); }
  }

  lemma VoteCargoOk(c: Cluster, a: Action)
    requires Inv(c) && Enabled(c, a) && a.AnswerVote?
    ensures forall p :: p in Emitted(c, a) ==> CargoOk(c.servers[Who(a) := Moved(c, a)], c.logs, p)
  {
    var i := Who(a);
    var s, v := c.servers[i], a.p.vote;
    assert Open(0, c.logs);
    assert LogOk(c.elections, c.logs, s, i) && CargoOk(c.servers, c.logs, a.p);
    var r := RequestVote(s, v);
    if r.1.granted {
      MatchedGrows(c.logs, c.logs, s.log, s.term, v.term);
    }
  }

  // ----- Every step, every run -----

  /** The parts of a step that concern logs. */
  lemma LogsStep(c: Cluster, i: nat, s': Server, elections': map<nat, Election>, logs': map<nat, Log>,
        sent: set<Packet>)
    requires Inv(c) && i < |c.servers| && LogMove(c.servers[i], s')
    requires HistoryOk(elections', logs') && Grow(c.logs, logs') && LogOk(elections', logs', s', i)
    requires forall t :: t in elections' && elections'[t].leader != i ==>
      t in c.elections && elections'[t] == c.elections[t] && t in c.logs && logs'[t] == c.logs[t]
    requires forall p :: p in sent ==> CargoOk(c.servers[i := s'], logs', p)
    ensures Logs(c.servers[i := s'], c.net + sent, elections', logs')
  {
    var servers' := c.servers[i := s'];
    forall j | 0 <= j < |servers'|
      ensures LogOk(elections', logs', servers'[j], j)
    {
      if j != i {
        var s := c.servers[j];
        assert LogOk(c.elections, c.logs, s, j) by { assert Open(0, c.logs); }
        MatchedGrows(c.logs, logs', s.log, s.term, s.term);
        if s.role == Candidate {
          MatchedGrows(c.logs, logs', s.log, s.term - 1, s.term - 1);
        }
      }
    }
    forall p | p in c.net + sent
      ensures CargoOk(servers', logs', p)
    {
      if p in c.net {
        CargoStays(c, i, s', logs', p);
      }
    }
  }

  lemma WinLogs(c: Cluster, a: Action)
    requires Inv(c) && Enabled(c, a) && Wins(c, a)
    ensures Logs(Next(c, a).servers, Next(c, a).net, Next(c, a).elections, Next(c, a).logs) &&
      Grow(c.logs, Next(c, a).logs)
  {
    var i := Who(a);
    var s, s' := c.servers[i], Moved(c, a);
    var e := Election(i, s'.votes + {i}, s'.log);
    assert s.term !in c.elections by { E.NextKeeps(c, a); }
    assert HistoryOk(c.elections, c.logs) && LogOk(c.elections, c.logs, s, i) by { assert Open(0, c.logs); }
    WinHistory(c.elections, c.logs, s.term, e);
    MatchedGrows(c.logs, c.logs[s.term := s.log], s.log, s.term, s.term);
    LogsStep(c, i, s', c.elections[s.term := e], c.logs[s.term := s.log], {});
  }

  lemma SubmitLogs(c: Cluster, a: Action)
    requires Inv(c) && Enabled(c, a) && Submits(c, a)
    ensures Logs(Next(c, a).servers, Next(c, a).net, Next(c, a).elections, Next(c, a).logs) &&
      Grow(c.logs, Next(c, a).logs)
  {
    var i := Who(a);
    var s, s' := c.servers[i], Moved(c, a);
    var entry := LogEntry(a.command, s.term);
    assert E.RoleOk(c.net, c.elections, s, i) by { assert Open(0, c.servers); }
    assert HistoryOk(c.elections, c.logs) && LogOk(c.elections, c.logs, s, i) by { assert Open(0, c.logs); }
    SubmitHistory(c.elections, c.logs, s.term, entry);
    LogsStep(c, i, s', c.elections, c.logs[s.term := s'.log], {});
  }

  lemma NextKeeps(c: Cluster, a: Action)
    requires Inv(c) && Enabled(c, a)
    ensures Inv(Next(c, a)) && Grow(c.logs, Next(c, a).logs)
  {
    E.NextKeeps(c, a);
    if Wins(c, a) {
      WinLogs(c, a);
    } else if Submits(c, a) {
      SubmitLogs(c, a);
    } else {
      assert HistoryOk(c.elections, c.logs) by { assert Open(0, c.logs); }
      MovedLogOk(c, a);
      EmittedCargoOk(c, a);
      LogsStep(c, Who(a), Moved(c, a), c.elections, c.logs, Emitted(c, a));
    }
  }

  lemma InitInv(c: Cluster)
    requires Init(c)
    ensures Inv(c)
  {
    E.InitInv(c);
    assert MatchedAt(c.logs, [DUMMY], 0, 0);
  }

  lemma StepInv(c: Cluster, a: Action, d: Cluster)
    requires Inv(c) && Enabled(c, a) && Follows(c, a, d)
    ensures Inv(d) && Grow(c.logs, d.logs)
  {
    assert Open(0, d);
    NextKeeps(c, a);
  }

  lemma {:induction false} RunInv(run: seq<Cluster>, actions: seq<Action>, k: nat)
    requires IsRun(run, actions) && k < |run|
    ensures Inv(run[k])
    decreases k
  {
    if k == 0 {
      InitInv(run[0]);
    } else {
      RunInv(run, actions, k - 1);
      StepInv(run[k-1], actions[k-1], run[k]);
    }
  }

  lemma {:induction false} LogsStay(run: seq<Cluster>, actions: seq<Action>, j: nat, k: nat, t: nat)
    requires IsRun(run, actions) && j <= k < |run| && t in run[j].logs
    ensures t in run[k].logs && run[j].logs[t] <= run[k].logs[t]
    decreases k
  {
    if j < k {
      LogsStay(run, actions, j, k - 1, t);
      RunInv(run, actions, k - 1);
      StepInv(run[k-1], actions[k-1], run[k]);
    }
  }

  /**
   If two servers, at the same or at different times, have the same term at an index, then
   their logs are the same up to that index; and terms ascend.
   */
  lemma LogMatching(run: seq<Cluster>, actions: seq<Action>, j: nat, k: nat, x: nat, y: nat, i: nat)
    requires IsRun(run, actions) && j <= k < |run| && x < |run[j].servers| && y < |run[k].servers|
    requires i < |run[j].servers[x].log| && i < |run[k].servers[y].log|
    requires run[j].servers[x].log[i].term == run[k].servers[y].log[i].term
    ensures run[j].servers[x].log[..i+1] == run[k].servers[y].log[..i+1]
    ensures forall h :: 0 <= h <= i ==> run[k].servers[y].log[h].term <= run[k].servers[y].log[i].term
  {
    RunInv(run, actions, j);
    RunInv(run, actions, k);
    assert Open(0, run[j].logs) && Open(0, run[k].logs);
    var s, r := run[j].servers[x], run[k].servers[y];
    assert LogOk(run[j].elections, run[j].logs, s, x);
    assert LogOk(run[k].elections, run[k].logs, r, y);
    assert MatchedAt(run[j].logs, s.log, i, s.term);
    assert MatchedAt(run[k].logs, r.log, i, r.term);
    LogsStay(run, actions, j, k, s.log[i].term);
    forall h: nat | h <= i
      ensures r.log[h].term <= r.log[i].term
    {
      TermsAscend(run[k].logs, r.log, r.term, h, i);
    }
  }
}
