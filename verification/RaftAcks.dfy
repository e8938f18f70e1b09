/**
 What becomes of acknowledged entries.  A server that has acknowledged entries of a leader keeps
 them until some later leader is elected without them; and every vote records which of them the
 voter still had.
 */
module RaftAcks {
  import opened Sealing
  import opened RaftServer
  import opened RaftCluster
  import E = RaftElections
  import L = RaftLogs

  /** The log has the entries of the leader of `t` up to index `n`. */
  ghost predicate Holds(logs: map<nat, Log>, log: Log, t: nat, n: nat) {
    t in logs && n < |logs[t]| && n < |log| && log[..n+1] == logs[t][..n+1]
  }

  /** After `t`, and no later than `hi`, somebody was elected without those entries. */
  ghost predicate Dropped(elections: map<nat, Election>, logs: map<nat, Log>, t: nat, n: nat, hi: nat) {
    exists u :: u in elections && t < u <= hi && !Holds(logs, elections[u].start, t, n)
  }

  ghost predicate Kept(elections: map<nat, Election>, logs: map<nat, Log>, log: Log, t: nat, n: nat, hi: nat) {
    Holds(logs, log, t, n) || Dropped(elections, logs, t, n, hi)
  }

  ghost predicate AllKept(elections: map<nat, Election>, logs: map<nat, Log>, log: Log, k: Ack, hi: nat) {
    forall n: nat :: n <= k.index ==> Kept(elections, logs, log, k.term, n, hi)
  }

  ghost predicate AckOk(servers: seq<Server>, elections: map<nat, Election>, logs: map<nat, Log>, k: Ack) {
    && k.server < |servers| && k.term in elections && k.term in logs && k.index < |logs[k.term]|
    && servers[k.server].term >= k.term
    && AllKept(elections, logs, servers[k.server].log, k, servers[k.server].term)
  }

  ghost predicate BallotOk(elections: map<nat, Election>, logs: map<nat, Log>, acks: set<Ack>, v: nat, t: nat,
        log: Log, hi: nat) {
    forall k :: k in acks && k.server == v && k.term < t ==> AllKept(elections, logs, log, k, hi)
  }

  ghost predicate VoteOk(elections: map<nat, Election>, logs: map<nat, Log>, acks: set<Ack>, p: Packet) {
    E.Grants(p) ==> BallotOk(elections, logs, acks, p.from, p.vote.term, p.voterLog, p.vote.term)
  }

  /** `log` is what `v` had when it voted for the leader of `t`. */
  ghost predicate VoterHad(elections: map<nat, Election>, logs: map<nat, Log>, acks: set<Ack>, t: nat, start: Log,
        v: nat, log: Log) {
    && t > 0 && start != []
    && L.Matched(logs, log, t) && !FreshThan(log, 0, |start| - 1, LastTerm(start))
    && BallotOk(elections, logs, acks, v, t, log, t - 1)
  }

  ghost predicate Voted(elections: map<nat, Election>, logs: map<nat, Log>, acks: set<Ack>, t: nat, start: Log,
        v: nat) {
    exists log :: VoterHad(elections, logs, acks, t, start, v, log)
  }

  ghost predicate Acks(servers: seq<Server>, net: set<Packet>, elections: map<nat, Election>, logs: map<nat, Log>,
        acks: set<Ack>) {
    forall x: nat :: Open(x, acks) ==>
      && (forall k :: k in acks ==> AckOk(servers, elections, logs, k))
      && (forall p :: p in net ==> VoteOk(elections, logs, acks, p))
      && (forall t, v :: t in elections && v in elections[t].quorum ==>
           Voted(elections, logs, acks, t, elections[t].start, v))
  }

  ghost predicate Inv(c: Cluster) {
    L.Inv(c) && Acks(c.servers, c.net, c.elections, c.logs, c.acks)
  }

  // ----- History only adds -----

  ghost predicate Extends(elections: map<nat, Election>, logs: map<nat, Log>, elections': map<nat, Election>,
        logs': map<nat, Log>) {
    && L.Grow(logs, logs')
    && forall t :: t in elections ==> t in elections' && elections'[t] == elections[t]
  }

  lemma KeptStays(elections: map<nat, Election>, logs: map<nat, Log>, elections': map<nat, Election>,
        logs': map<nat, Log>, log: Log, t: nat, n: nat, hi: nat, hi': nat)
    requires Extends(elections, logs, elections', logs') && t in logs && n < |logs[t]| && hi <= hi'
    requires Kept(elections, logs, log, t, n, hi)
    ensures Kept(elections', logs', log, t, n, hi')
  {
    assert logs[t][..n+1] == logs'[t][..n+1];
    if !Holds(logs, log, t, n) {
      var u :| u in elections && t < u <= hi && !Holds(logs, elections[u].start, t, n);
      assert !Holds(logs', elections'[u].start, t, n);
    }
  }

  lemma AllKeptStays(elections: map<nat, Election>, logs: map<nat, Log>, elections': map<nat, Election>,
        logs': map<nat, Log>, log: Log, k: Ack, hi: nat, hi': nat)
    requires Extends(elections, logs, elections', logs') && k.term in logs && k.index < |logs[k.term]| && hi <= hi'
    requires AllKept(elections, logs, log, k, hi)
    ensures AllKept(elections', logs', log, k, hi')
  {
    forall n: nat | n <= k.index
      ensures Kept(elections', logs', log, k.term, n, hi')
    {
      KeptStays(elections, logs, elections', logs', log, k.term, n, hi, hi');
    }
  }

  /** A ballot is not touched by acknowledgements of later terms. */
  lemma BallotStays(c: Cluster, elections': map<nat, Election>, logs': map<nat, Log>, more: set<Ack>, v: nat, t: nat,
        log: Log, hi: nat)
    requires Inv(c) && Extends(c.elections, c.logs, elections', logs')
    requires BallotOk(c.elections, c.logs, c.acks, v, t, log, hi)
    requires forall k :: k in more && k.server == v ==> k.term >= t
    ensures BallotOk(elections', logs', c.acks + more, v, t, log, hi)
  {
    forall k | k in c.acks + more && k.server == v && k.term < t
      ensures AllKept(elections', logs', log, k, hi)
    {
      assert AckOk(c.servers, c.elections, c.logs, k) by { assert Open(0, c.acks); }
      AllKeptStays(c.elections, c.logs, elections', logs', log, k, hi, hi);
    }
  }

  lemma VotedStays(c: Cluster, elections': map<nat, Election>, logs': map<nat, Log>, more: set<Ack>, t: nat,
        start: Log, v: nat)
    requires Inv(c) && Extends(c.elections, c.logs, elections', logs')
    requires Voted(c.elections, c.logs, c.acks, t, start, v)
    requires forall k :: k in more && k.server == v ==> k.term >= t
    ensures Voted(elections', logs', c.acks + more, t, start, v)
  {
    var log :| VoterHad(c.elections, c.logs, c.acks, t, start, v, log);
    BallotStays(c, elections', logs', more, v, t, log, t - 1);
    L.MatchedGrows(c.logs, logs', log, t, t);
    assert VoterHad(elections', logs', c.acks + more, t, start, v, log);
  }

  lemma HoldsLess(logs: map<nat, Log>, log: Log, t: nat, n: nat, m: nat)
    requires Holds(logs, log, t, n) && m <= n
    ensures Holds(logs, log, t, m)
  {
    assert log[..m+1] == log[..n+1][..m+1] == logs[t][..n+1][..m+1] == logs[t][..m+1];
  }

  lemma HoldsGrows(logs: map<nat, Log>, logs': map<nat, Log>, log: Log, t: nat, n: nat)
    requires Holds(logs, log, t, n) && L.Grow(logs, logs')
    ensures Holds(logs', log, t, n)
  {
    assert logs[t][..n+1] == logs'[t][..n+1];
  }

  // ----- One server -----

  /** What was acknowledged and is there stays, or else some leader did not have it. */
  ghost predicate KeepsAcks(elections: map<nat, Election>, logs: map<nat, Log>, s: Server, s': Server) {
    && s'.term >= s.term
    && forall t: nat, n: nat {:trigger Holds(logs, s'.log, t, n)} :: t <= s.term && Holds(logs, s.log, t, n) ==>
         Holds(logs, s'.log, t, n) || Dropped(elections, logs, t, n, s'.term)
  }

  /** The log after a piece of the log of the leader of `u` has been received. */
  ghost predicate Takes(elections: map<nat, Election>, logs: map<nat, Log>, log: Log, log': Log, u: nat, end: nat) {
    && u in elections && u in logs && elections[u].start <= logs[u]
    && 0 < end <= |logs[u]| && |log'| >= end && log'[..end] == logs[u][..end]
    && (logs[u][..end] <= log ==> log' == log)
  }

  lemma AcceptTakes(c: Cluster, a: Action)
    requires Inv(c) && Enabled(c, a) && Accepts(c, a)
    ensures Moved(c, a).term == a.p.append.term >= c.servers[Who(a)].term
    ensures Takes(c.elections, c.logs, c.servers[Who(a)].log, Moved(c, a).log, a.p.append.term,
      a.p.append.prevIndex + 1 + |a.p.append.entries|)
  {
    var i, p := Who(a), a.p;
    var s := c.servers[i];
    L.AppendFacts(s, p.append);
    assert E.AppendOk(|c.servers|, c.elections, p) by {
      assert Open(0, c.servers);
      assert E.PacketOk(c.servers, c.elections, p);
    }
    assert L.HistoryOk(c.elections, c.logs) && L.PieceOk(c.logs, p.append) && L.Matched(c.logs, s.log, s.term) by {
      assert Open(0, c.logs);
      assert L.CargoOk(c.servers, c.logs, p) && L.LogOk(c.elections, c.logs, s, i);
    }
    assert L.StartOk(c.logs, p.append.term, c.elections[p.append.term].start);
    L.Received(c.elections, c.logs, s, p.append);
  }

  /** A piece of a log that the receiver agrees with takes nothing away. */
  lemma TakesKeeps(elections: map<nat, Election>, logs: map<nat, Log>, log: Log, log': Log, u: nat, end: nat, t: nat,
        n: nat)
    requires Takes(elections, logs, log, log', u, end) && t <= u && Holds(logs, log, t, n)
    ensures Kept(elections, logs, log', t, n, u)
  {
    if t < u && !Holds(logs, elections[u].start, t, n) {
      assert Dropped(elections, logs, t, n, u);
    } else {
      var lead := logs[u];
      assert n < |lead| && lead[..n+1] == log[..n+1];
      if n < end {
        assert log'[..n+1] == log'[..end][..n+1];
      } else {
        assert lead[..end] == log[..n+1][..end];
      }
    }
  }

  lemma AcceptKeeps(c: Cluster, a: Action)
    requires Inv(c) && Enabled(c, a) && Accepts(c, a)
    ensures KeepsAcks(c.elections, c.logs, c.servers[Who(a)], Moved(c, a))
  {
    var s, s' := c.servers[Who(a)], Moved(c, a);
    AcceptTakes(c, a);
    forall t: nat, n: nat | t <= s.term && Holds(c.logs, s.log, t, n)
      ensures Kept(c.elections, c.logs, s'.log, t, n, s'.term)
    {
      TakesKeeps(c.elections, c.logs, s.log, s'.log, s'.term, a.p.append.prevIndex + 1 + |a.p.append.entries|, t, n);
    }
  }

  lemma MovedKeepsAcks(c: Cluster, a: Action)
    requires Inv(c) && Enabled(c, a)
    ensures KeepsAcks(c.elections, c.logs, c.servers[Who(a)], Moved(c, a))
  {
    var s := c.servers[Who(a)];
    if Accepts(c, a) {
      AcceptKeeps(c, a);
    } else if a.AnswerAppend? {
      L.AppendFacts(s, a.p.append);
    } else if a.TakeAnswer? {
      L.AnswerLog(s, a.p.from, a.p.append, a.p.appendReply);
    }
  }

  // ----- Every step -----

  lemma AckStays(c: Cluster, i: nat, s': Server, elections': map<nat, Election>, logs': map<nat, Log>, k: Ack)
    requires Inv(c) && i < |c.servers| && Extends(c.elections, c.logs, elections', logs') && k in c.acks
    requires KeepsAcks(c.elections, c.logs, c.servers[i], s')
    ensures AckOk(c.servers[i := s'], elections', logs', k)
  {
    assert AckOk(c.servers, c.elections, c.logs, k) by { assert Open(0, c.acks); }
    var s := c.servers[k.server];
    if k.server == i {
      forall n: nat | n <= k.index
        ensures Kept(c.elections, c.logs, s'.log, k.term, n, s'.term)
      {
        assert Kept(c.elections, c.logs, s.log, k.term, n, s.term);
      }
      AllKeptStays(c.elections, c.logs, elections', logs', s'.log, k, s'.term, s'.term);
    } else {
      AllKeptStays(c.elections, c.logs, elections', logs', s.log, k, s.term, s.term);
    }
  }

  /** An acknowledgement of what the server has. */
  lemma NewAck(servers: seq<Server>, elections: map<nat, Election>, logs: map<nat, Log>, k: Ack)
    requires k.server < |servers| && k.term in elections && servers[k.server].term >= k.term
    requires Holds(logs, servers[k.server].log, k.term, k.index)
    ensures AckOk(servers, elections, logs, k)
  {
    forall n: nat | n <= k.index
      ensures Kept(elections, logs, servers[k.server].log, k.term, n, servers[k.server].term)
    {
      var log := servers[k.server].log;
      assert log[..n+1] == log[..k.index+1][..n+1] == logs[k.term][..k.index+1][..n+1] == logs[k.term][..n+1];
    }
  }

  /** New acknowledgements are of the server's current term, so earlier ballots do not see them. */
  lemma AcksStep(c: Cluster, i: nat, s': Server, elections': map<nat, Election>, logs': map<nat, Log>,
        sent: set<Packet>, more: set<Ack>)
    requires Inv(c) && i < |c.servers| && Extends(c.elections, c.logs, elections', logs')
    requires KeepsAcks(c.elections, c.logs, c.servers[i], s')
    requires forall k :: k in more ==>
      k.server == i && k.term >= c.servers[i].term && AckOk(c.servers[i := s'], elections', logs', k)
    requires forall p :: p in sent ==> VoteOk(elections', logs', c.acks + more, p)
    requires forall t, v :: t in elections' && t !in c.elections && v in elections'[t].quorum ==>
      Voted(elections', logs', c.acks + more, t, elections'[t].start, v)
    ensures Acks(c.servers[i := s'], c.net + sent, elections', logs', c.acks + more)
  {
    forall k | k in c.acks + more
      ensures AckOk(c.servers[i := s'], elections', logs', k)
    {
      if k in c.acks {
        AckStays(c, i, s', elections', logs', k);
      }
    }
    forall p | p in c.net + sent
      ensures VoteOk(elections', logs', c.acks + more, p)
    {
      if p in c.net && E.Grants(p) {
        assert VoteOk(c.elections, c.logs, c.acks, p) by { assert Open(0, c.acks); }
        assert E.PacketOk(c.servers, c.elections, p) by { assert Open(0, c.servers); }
        BallotStays(c, elections', logs', more, p.from, p.vote.term, p.voterLog, p.vote.term);
      }
    }
    forall t, v | t in elections' && v in elections'[t].quorum
      ensures Voted(elections', logs', c.acks + more, t, elections'[t].start, v)
    {
      if t in c.elections {
        assert Voted(c.elections, c.logs, c.acks, t, c.elections[t].start, v) by { assert Open(0, c.acks); }
        assert E.MemberOk(t, c.elections[t], c.servers[v]) by {
          assert Open(0, c.servers);
          assert E.ElectionOk(c.servers, c.net, t, c.elections[t]);
        }
        VotedStays(c, elections', logs', more, t, c.elections[t].start, v);
      }
    }
  }

  /** A vote given now: the voter's log is as good as its acknowledgements say. */
  lemma NewBallot(c: Cluster, v: nat, t: nat, hi: nat)
    requires Inv(c) && v < |c.servers| && c.servers[v].term <= t
    requires forall u :: u in c.elections && u <= c.servers[v].term ==> u <= hi
    ensures BallotOk(c.elections, c.logs, c.acks, v, t, c.servers[v].log, hi)
  {
    var s := c.servers[v];
    forall k, n: nat | k in c.acks && k.server == v && n <= k.index
      ensures Kept(c.elections, c.logs, s.log, k.term, n, hi)
    {
      assert AckOk(c.servers, c.elections, c.logs, k) by { assert Open(0, c.acks); }
      assert Kept(c.elections, c.logs, s.log, k.term, n, s.term);
      LowerBound(c.elections, c.logs, s.log, k.term, n, s.term, hi);
    }
  }

  lemma LowerBound(elections: map<nat, Election>, logs: map<nat, Log>, log: Log, t: nat, n: nat, hi: nat, hi': nat)
    requires Kept(elections, logs, log, t, n, hi)
    requires forall u :: u in elections && u <= hi ==> u <= hi'
    ensures Kept(elections, logs, log, t, n, hi')
  {
    if !Holds(logs, log, t, n) {
      var u :| u in elections && t < u <= hi && !Holds(logs, elections[u].start, t, n);
      assert u <= hi';
    }
  }

  /** A term without a leader: the ballots cast in it speak of earlier leaders only. */
  lemma EarlierBallot(elections: map<nat, Election>, logs: map<nat, Log>, acks: set<Ack>, v: nat, t: nat, log: Log)
    requires t > 0 && t !in elections && BallotOk(elections, logs, acks, v, t, log, t)
    ensures BallotOk(elections, logs, acks, v, t, log, t - 1)
  {
    var hi := t - 1;
    forall k | k in acks && k.server == v && k.term < t
      ensures AllKept(elections, logs, log, k, hi)
    {
      assert AllKept(elections, logs, log, k, t);
      forall n: nat | n <= k.index
        ensures Kept(elections, logs, log, k.term, n, hi)
      {
        LowerBound(elections, logs, log, k.term, n, t, hi);
      }
    }
  }

  lemma VoterVoted(c: Cluster, i: nat, v: nat)
    requires Inv(c) && i < |c.servers| && c.servers[i].role == Candidate && c.servers[i].term !in c.elections
    requires E.HasGrant(c.net, v, c.servers[i].term, i)
    ensures Voted(c.elections, c.logs, c.acks, c.servers[i].term, c.servers[i].log, v)
  {
    var s := c.servers[i];
    var p :| p in c.net && E.Grants(p) && p.from == v && p.vote.term == s.term && p.vote.candidate == i;
    assert VoteOk(c.elections, c.logs, c.acks, p) by { assert Open(0, c.acks); }
    assert L.LogOk(c.elections, c.logs, s, i) && L.CargoOk(c.servers, c.logs, p) by { assert Open(0, c.logs); }
    EarlierBallot(c.elections, c.logs, c.acks, v, s.term, p.voterLog);
    assert VoterHad(c.elections, c.logs, c.acks, s.term, s.log, v, p.voterLog);
  }

  lemma CandidateVoted(c: Cluster, i: nat)
    requires Inv(c) && i < |c.servers| && c.servers[i].role == Candidate && c.servers[i].term !in c.elections
    ensures Voted(c.elections, c.logs, c.acks, c.servers[i].term, c.servers[i].log, i)
  {
    var s := c.servers[i];
    assert L.LogOk(c.elections, c.logs, s, i) by { assert Open(0, c.logs); }
    NewBallot(c, i, s.term, s.term - 1);
    assert VoterHad(c.elections, c.logs, c.acks, s.term, s.log, i, s.log);
  }

  lemma QuorumVoted(c: Cluster, a: Action, v: nat)
    requires Inv(c) && Enabled(c, a) && Wins(c, a) && v in Moved(c, a).votes + {Who(a)}
    ensures Voted(c.elections, c.logs, c.acks, c.servers[Who(a)].term, c.servers[Who(a)].log, v)
  {
    var i := Who(a);
    var s := c.servers[i];
    assert s.term !in c.elections by { E.NextKeeps(c, a); }
    if v == i {
      CandidateVoted(c, i);
    } else {
      assert E.RoleOk(c.net, c.elections, s, i) by { assert Open(0, c.servers); }
      assert E.HasGrant(c.net, v, s.term, i);
      VoterVoted(c, i, v);
    }
  }

  /** A winner has not changed but for its role, and what it adds to the history is new. */
  lemma WinExtends(c: Cluster, a: Action)
    requires Inv(c) && Enabled(c, a) && Wins(c, a)
    ensures var s, s' := c.servers[Who(a)], Moved(c, a);
      && s.term !in c.elections && s'.term == s.term && s'.log == s.log && s'.log != []
      && Extends(c.elections, c.logs, c.elections[s'.term := Election(Who(a), s'.votes + {Who(a)}, s'.log)],
         c.logs[s'.term := s'.log])
  {
    var s := c.servers[Who(a)];
    E.WinIsFirst(c, a);
    assert s.term !in c.logs by {
      assert L.HistoryOk(c.elections, c.logs) && L.LogOk(c.elections, c.logs, s, Who(a)) by { assert Open(0, c.logs); }
    }
  }

  lemma WinNext(c: Cluster, a: Action)
    requires Inv(c) && Enabled(c, a) && Wins(c, a) && Moved(c, a).log != []
    ensures var i, s', c' := Who(a), Moved(c, a), Next(c, a);
      && c'.servers == c.servers[i := s'] && c'.net == c.net + {} && c'.acks == c.acks + {Ack(s'.term, i, |s'.log| - 1)}
      && c'.elections == c.elections[s'.term := Election(i, s'.votes + {i}, s'.log)] &&
         c'.logs == c.logs[s'.term := s'.log]
  {
  }

  lemma WinAcks(c: Cluster, a: Action)
    requires Inv(c) && Enabled(c, a) && Wins(c, a)
    ensures Acks(Next(c, a).servers, Next(c, a).net, Next(c, a).elections, Next(c, a).logs, Next(c, a).acks)
  {
    WinExtends(c, a);
    WinAcksOk(c, a);
    WinNext(c, a);
  }

  lemma WinAcksOk(c: Cluster, a: Action)
    requires Inv(c) && Enabled(c, a) && Wins(c, a) && Moved(c, a).log != []
    ensures var i, s' := Who(a), Moved(c, a);
      Acks(c.servers[i := s'], c.net + {}, c.elections[s'.term := Election(i, s'.votes + {i}, s'.log)],
           c.logs[s'.term := s'.log], c.acks + {Ack(s'.term, i, |s'.log| - 1)})
  {
    var i := Who(a);
    var s' := Moved(c, a);
    WinExtends(c, a);
    MovedKeepsAcks(c, a);
    forall v | v in s'.votes + {i}
      ensures Voted(c.elections, c.logs, c.acks, s'.term, s'.log, v)
    {
      QuorumVoted(c, a, v);
    }
    WonAcks(c, i, s', Election(i, s'.votes + {i}, s'.log));
  }

  /** A new leader, with what its voters had. */
  lemma WonAcks(c: Cluster, i: nat, s': Server, e: Election)
    requires Inv(c) && i < |c.servers| && s'.log != [] && e.start == s'.log && s'.term == c.servers[i].term
    requires Extends(c.elections, c.logs, c.elections[s'.term := e], c.logs[s'.term := s'.log])
    requires KeepsAcks(c.elections, c.logs, c.servers[i], s')
    requires forall v :: v in e.quorum ==> Voted(c.elections, c.logs, c.acks, s'.term, s'.log, v)
    ensures Acks(c.servers[i := s'], c.net + {}, c.elections[s'.term := e], c.logs[s'.term := s'.log],
      c.acks + {Ack(s'.term, i, |s'.log| - 1)})
  {
    var elections', logs' := c.elections[s'.term := e], c.logs[s'.term := s'.log];
    var k := Ack(s'.term, i, |s'.log| - 1);
    NewAck(c.servers[i := s'], elections', logs', k);
    forall v | v in e.quorum
      ensures Voted(elections', logs', c.acks + {k}, s'.term, s'.log, v)
    {
      VotedStays(c, elections', logs', {k}, s'.term, s'.log, v);
    }
    AcksStep(c, i, s', elections', logs', {}, {k});
  }

  lemma SubmitAcks(c: Cluster, a: Action)
    requires Inv(c) && Enabled(c, a) && Submits(c, a)
    ensures Acks(Next(c, a).servers, Next(c, a).net, Next(c, a).elections, Next(c, a).logs, Next(c, a).acks)
  {
    var i := Who(a);
    var s, s', c' := c.servers[i], Moved(c, a), Next(c, a);
    assert E.RoleOk(c.net, c.elections, s, i) by { assert Open(0, c.servers); }
    assert L.Grow(c.logs, c'.logs) by { L.NextKeeps(c, a); }
    MovedKeepsAcks(c, a);
    var k := Ack(s.term, i, |s'.log| - 1);
    NewAck(c'.servers, c'.elections, c'.logs, k);
    assert c'.net == c.net + {} && c'.acks == c.acks + {k} && c'.servers == c.servers[i := s'];
    AcksStep(c, i, s', c'.elections, c'.logs, {}, {k});
  }

  lemma AcceptAcks(c: Cluster, a: Action)
    requires Inv(c) && Enabled(c, a) && Accepts(c, a)
    ensures Acks(Next(c, a).servers, Next(c, a).net, Next(c, a).elections, Next(c, a).logs, Next(c, a).acks)
  {
    var i, p := Who(a), a.p.append;
    var s' := Moved(c, a);
    MovedKeepsAcks(c, a);
    AcceptTakes(c, a);
    var k := Ack(p.term, i, p.prevIndex + |p.entries|);
    NewAck(c.servers[i := s'], c.elections, c.logs, k);
    AcksStep(c, i, s', c.elections, c.logs, Emitted(c, a), {k});
  }

  lemma OtherAcks(c: Cluster, a: Action)
    requires Inv(c) && Enabled(c, a) && !Wins(c, a) && !Submits(c, a) && !Accepts(c, a)
    ensures Acks(Next(c, a).servers, Next(c, a).net, Next(c, a).elections, Next(c, a).logs, Next(c, a).acks)
  {
    var i := Who(a);
    MovedKeepsAcks(c, a);
    if a.AnswerVote? && RequestVote(c.servers[i], a.p.vote).1.granted {
      NewBallot(c, i, a.p.vote.term, a.p.vote.term);
    }
    assert c.acks + {} == c.acks;
    AcksStep(c, i, Moved(c, a), c.elections, c.logs, Emitted(c, a), {});
  }

  lemma NextKeeps(c: Cluster, a: Action)
    requires Inv(c) && Enabled(c, a)
    ensures Inv(Next(c, a))
  {
    L.NextKeeps(c, a);
    if Wins(c, a) {
      WinAcks(c, a);
    } else if Submits(c, a) {
      SubmitAcks(c, a);
    } else if Accepts(c, a) {
      AcceptAcks(c, a);
    } else {
      OtherAcks(c, a);
    }
  }

  lemma StepInv(c: Cluster, a: Action, d: Cluster)
    requires Inv(c) && Enabled(c, a) && Follows(c, a, d)
    ensures Inv(d)
  {
    assert Open(0, d);
    NextKeeps(c, a);
  }

  lemma {:induction false} RunInv(run: seq<Cluster>, actions: seq<Action>, k: nat)
    requires IsRun(run, actions) && k < |run|
    ensures Inv(run[k])
    decreases k
  {
    if k == 0 {
      L.InitInv(run[0]);
    } else {
      RunInv(run, actions, k - 1);
      StepInv(run[k-1], actions[k-1], run[k]);
    }
  }
}
