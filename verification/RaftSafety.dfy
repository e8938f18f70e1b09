/**
 Leader Completeness and State Machine Safety (figure 3 of the Raft paper by Ongaro and
 Ousterhout).  A commit that lands on an entry of the leader's own term is never lost; and in
 runs where every commit does, servers never deliver different commands at one index.
 */
module RaftSafety {
  import opened Sealing
  import opened RaftServer
  import opened RaftCluster
  import E = RaftElections
  import L = RaftLogs
  import A = RaftAcks
  import D = RaftLeaders
  import H = RaftHandlers

  // ----- Leader Completeness -----

  lemma HoldsMore(logs: map<nat, Log>, log: Log, log': Log, t: nat, n: nat)
    requires A.Holds(logs, log, t, n) && log <= log'
    ensures A.Holds(logs, log', t, n)
  {
    assert log'[..n+1] == log[..n+1];
  }

  /** A voter that was not ahead of the candidate, and has the entry, passes it on. */
  lemma PassedOn(elections: map<nat, Election>, logs: map<nat, Log>, start: Log, log: Log, u: nat, t: nat, n: nat)
    requires L.HistoryOk(elections, logs) && t < u && t in logs && n < |logs[t]| && logs[t][n].term == t
    requires L.Matched(logs, start, u - 1) && L.Matched(logs, log, u) &&
      !FreshThan(log, 0, |start| - 1, LastTerm(start))
    requires A.Holds(logs, log, t, n)
    requires forall v :: v in elections && t < v < u ==> A.Holds(logs, elections[v].start, t, n)
    ensures A.Holds(logs, start, t, n)
  {
    var m, ct, vt := |start| - 1, LastTerm(start), LastTerm(log);
    assert L.MatchedAt(logs, start, m, u - 1) && start[..m+1] == start;
    assert L.MatchedAt(logs, log, |log| - 1, u) && log[..|log|] == log;
    assert log[n] == log[..n+1][n] == logs[t][..n+1][n];
    L.TermsAscend(logs, log, u, n, |log| - 1);
    if ct == vt {
      assert log <= start;
      HoldsMore(logs, log, start, t, n);
    } else {
      assert L.StartOk(logs, ct, elections[ct].start);
      HoldsMore(logs, elections[ct].start, logs[ct], t, n);
      assert logs[ct][n] == logs[ct][..n+1][n] == logs[t][..n+1][n];
      assert n < m by {
        if m <= n {
          L.TermsAscend(logs, logs[ct], ct, m, n);
        }
      }
      assert start[..n+1] == logs[ct][..n+1];
    }
  }

  /** Some voter for the leader of `u` had acknowledged the entry to the leader of `t`. */
  lemma CommonVoter(c: Cluster, t: nat, n: nat, u: nat) returns (v: nat, k: Ack)
    requires D.Inv(c) && u in c.elections && D.Chosen(|c.servers|, c.acks, t, n)
    ensures v in c.elections[u].quorum && k in c.acks && k.term == t && k.server == v && n <= k.index
  {
    var q :| D.Backs(|c.servers|, c.acks, q, t, n);
    assert E.ElectionOk(c.servers, c.net, u, c.elections[u]) by { assert Open(0, c.servers); }
    v := E.QuorumsMeet(|c.servers|, q, c.elections[u].quorum);
    assert D.HasAck(c.acks, t, v, n);
    k :| k in c.acks && k.term == t && k.server == v && k.index >= n;
  }

  /**
   If a majority acknowledged an entry of the leader's own term, then every later leader was
   elected with it.
   */
  lemma {:induction false} Completeness(c: Cluster, t: nat, n: nat, u: nat)
    requires D.Inv(c) && t in c.logs && n < |c.logs[t]| && c.logs[t][n].term == t
    requires D.Chosen(|c.servers|, c.acks, t, n) && u in c.elections && t < u
    ensures A.Holds(c.logs, c.elections[u].start, t, n)
    decreases u
  {
    forall w | w in c.elections && t < w < u
      ensures A.Holds(c.logs, c.elections[w].start, t, n)
    {
      Completeness(c, t, n, w);
    }
    var v, k := CommonVoter(c, t, n, u);
    assert A.Voted(c.elections, c.logs, c.acks, u, c.elections[u].start, v) by { assert Open(0, c.acks); }
    var log :| A.VoterHad(c.elections, c.logs, c.acks, u, c.elections[u].start, v, log);
    assert A.AllKept(c.elections, c.logs, log, k, u - 1);
    assert A.Kept(c.elections, c.logs, log, t, n, u - 1);
    assert L.HistoryOk(c.elections, c.logs) && L.StartOk(c.logs, u, c.elections[u].start) by { assert Open(0, c.logs); }
    PassedOn(c.elections, c.logs, c.elections[u].start, log, u, t, n);
  }

  // ----- Commits -----

  ghost predicate CommitOk(n: nat, logs: map<nat, Log>, acks: set<Ack>, k: Commit) {
    && k.term in logs && k.index < |logs[k.term]| && logs[k.term][k.index].term == k.term
    && D.Chosen(n, acks, k.term, k.index)
  }

  /** Up to `index`, the log is part of something that was committed no later than in term `hi`. */
  ghost predicate Covered(logs: map<nat, Log>, commits: set<Commit>, log: Log, index: nat, hi: nat) {
    index == 0 || exists k :: k in commits && k.term <= hi && index <= k.index && A.Holds(logs, log, k.term, index)
  }

  ghost predicate ServerOk(logs: map<nat, Log>, commits: set<Commit>, deliveries: set<Delivery>, s: Server) {
    && s.applied <= s.commit < |s.log| && Covered(logs, commits, s.log, s.commit, s.term)
    && forall j: nat :: 1 <= j <= s.applied ==> Delivery(s.me, j, s.log[j].command) in deliveries
  }

  ghost predicate NewsOk(logs: map<nat, Log>, commits: set<Commit>, p: Packet) {
    p.AppendReq? ==>
      var a := p.append;
      a.commit <= a.prevIndex + |a.entries| && a.term in logs && Covered(logs, commits, logs[a.term], a.commit, a.term)
  }

  ghost predicate DeliveryOk(logs: map<nat, Log>, commits: set<Commit>, d: Delivery) {
    exists k :: k in commits && k.term in logs && d.index <= k.index < |logs[k.term]| &&
      d.command == logs[k.term][d.index].command
  }

  ghost predicate Committed(c: Cluster) {
    forall x: nat :: Open(x, c.commits) ==>
      && (forall k :: k in c.commits ==> CommitOk(|c.servers|, c.logs, c.acks, k))
      && (forall i :: 0 <= i < |c.servers| ==> ServerOk(c.logs, c.commits, c.deliveries, c.servers[i]))
      && (forall p :: p in c.net ==> NewsOk(c.logs, c.commits, p))
      && (forall d :: d in c.deliveries ==> DeliveryOk(c.logs, c.commits, d))
  }

  ghost predicate Inv(c: Cluster) {
    D.Inv(c) && Committed(c)
  }

  /** The rule of the design: a leader commits entries of its own term only. */
  ghost predicate OwnTerm(c: Cluster, a: Action)
    requires Sound(c) && Enabled(c, a)
  {
    Commits(c, a) ==> var s := Moved(c, a); s.commit < |s.log| ==> s.log[s.commit].term == s.term
  }

  lemma CoveredStays(logs: map<nat, Log>, logs': map<nat, Log>, commits: set<Commit>, more: set<Commit>, log: Log,
        log': Log, index: nat, hi: nat)
    requires Covered(logs, commits, log, index, hi) && L.Grow(logs, logs') && log <= log'
    ensures Covered(logs', commits + more, log', index, hi)
  {
    if index != 0 {
      var k :| k in commits && k.term <= hi && index <= k.index && A.Holds(logs, log, k.term, index);
      HoldsMore(logs, log, log', k.term, index);
      A.HoldsGrows(logs, logs', log', k.term, index);
      assert k in commits + more;
    }
  }

  /** What is committed does not go away, whatever the step. */
  lemma CommittedKept(c: Cluster, s: Server, s': Server)
    requires Inv(c) && A.KeepsAcks(c.elections, c.logs, s, s') && Covered(c.logs, c.commits, s.log, s.commit, s.term)
    requires s.commit < |s.log| && s'.log != [] && s.log != [] && s.log[0] == s'.log[0]
    ensures Covered(c.logs, c.commits, s'.log, s.commit, s'.term)
    ensures s.commit < |s'.log| && s'.log[..s.commit+1] == s.log[..s.commit+1]
  {
    if s.commit != 0 {
      var k :| k in c.commits && k.term <= s.term && s.commit <= k.index && A.Holds(c.logs, s.log, k.term, s.commit);
      assert CommitOk(|c.servers|, c.logs, c.acks, k) by { assert Open(0, c.commits); }
      forall u | u in c.elections && k.term < u
        ensures A.Holds(c.logs, c.elections[u].start, k.term, s.commit)
      {
        Completeness(c, k.term, k.index, u);
        A.HoldsLess(c.logs, c.elections[u].start, k.term, k.index, s.commit);
      }
      assert A.Holds(c.logs, s'.log, k.term, s.commit);
    }
  }

  lemma ChosenStays(n: nat, acks: set<Ack>, more: set<Ack>, t: nat, index: nat)
    requires D.Chosen(n, acks, t, index)
    ensures D.Chosen(n, acks + more, t, index)
  {
    var q :| D.Backs(n, acks, q, t, index);
    forall v | v in q
      ensures D.HasAck(acks + more, t, v, index)
    {
      D.HasAckStays(acks, more, t, v, index);
    }
    assert D.Backs(n, acks + more, q, t, index);
  }

  lemma CommitStays(n: nat, logs: map<nat, Log>, logs': map<nat, Log>, acks: set<Ack>, more: set<Ack>, k: Commit)
    requires CommitOk(n, logs, acks, k) && L.Grow(logs, logs')
    ensures CommitOk(n, logs', acks + more, k)
  {
    ChosenStays(n, acks, more, k.term, k.index);
  }

  // ----- One server -----

  /** The mover as far as commits are concerned, before the step's own commit is looked at. */
  lemma MoverKept(c: Cluster, a: Action)
    requires Inv(c) && Enabled(c, a)
    ensures var s, s' := c.servers[Who(a)], Moved(c, a);
      && ServerOk(c.logs, c.commits, c.deliveries, s) && s'.term >= s.term && s'.me == s.me == Who(a)
      && Covered(c.logs, c.commits, s'.log, s.commit, s'.term)
      && s.commit < |s'.log| && s'.log[..s.commit+1] == s.log[..s.commit+1]
  {
    var i := Who(a);
    var s, s' := c.servers[i], Moved(c, a);
    assert ServerOk(c.logs, c.commits, c.deliveries, s) by { assert Open(0, c.commits); }
    A.MovedKeepsAcks(c, a);
    MovedSound(c, a);
    FirstEntry(c, a);
    CommittedKept(c, s, s');
  }

  lemma FirstEntry(c: Cluster, a: Action)
    requires D.Inv(c) && Enabled(c, a)
    ensures Moved(c, a).log != [] && Moved(c, a).log[0] == c.servers[Who(a)].log[0]
  {
    var i, c' := Who(a), Next(c, a);
    L.NextKeeps(c, a);
    assert L.LogOk(c.elections, c.logs, c.servers[i], i) by { assert Open(0, c.logs); }
    assert L.LogOk(c'.elections, c'.logs, c'.servers[i], i) by { assert Open(0, c'.logs); }
  }

  /** Steps that leave commitIndex and lastApplied alone. */
  lemma QuietOk(c: Cluster, a: Action)
    requires Inv(c) && Enabled(c, a)
    requires Moved(c, a).commit == c.servers[Who(a)].commit && Moved(c, a).applied == c.servers[Who(a)].applied
    ensures ServerOk(c.logs, c.commits, c.deliveries, Moved(c, a))
  {
    var s, s' := c.servers[Who(a)], Moved(c, a);
    MoverKept(c, a);
    forall j: nat | 1 <= j <= s'.applied
      ensures s'.log[j] == s.log[j]
    {
      assert s'.log[j] == s'.log[..s.commit+1][j];
    }
  }

  lemma AppendCommit(s: Server, a: AppendArgs)
    requires s.log != []
    ensures var s' := AppendEntries(s, a).0;
      && s'.applied == s.applied && s'.me == s.me
      && (s'.commit != s.commit ==>
            AppendEntries(s, a).1.success && a.commit > s.commit &&
              s'.commit == Min(a.commit, a.prevIndex + |a.entries|))
  {
  }

  /** What the leader has of committed entries, the follower has now. */
  lemma NewsCovered(elections: map<nat, Election>, logs: map<nat, Log>, commits: set<Commit>, log: Log, log': Log,
        u: nat, end: nat, index: nat)
    requires A.Takes(elections, logs, log, log', u, end) && index < end && Covered(logs, commits, logs[u], index, u)
    ensures Covered(logs, commits, log', index, u)
  {
    if index != 0 {
      var k :| k in commits && k.term <= u && index <= k.index && A.Holds(logs, logs[u], k.term, index);
      assert log'[..index+1] == log'[..end][..index+1] == logs[u][..index+1];
      assert A.Holds(logs, log', k.term, index);
    }
  }

  lemma AcceptOk(c: Cluster, a: Action)
    requires Inv(c) && Enabled(c, a) && a.AnswerAppend?
    ensures ServerOk(c.logs, c.commits, c.deliveries, Moved(c, a))
  {
    var p := a.p;
    var s, s' := c.servers[Who(a)], Moved(c, a);
    AppendCommit(s, p.append);
    if s'.commit == s.commit {
      QuietOk(c, a);
    } else {
      assert NewsOk(c.logs, c.commits, p) by { assert Open(0, c.commits); }
      A.AcceptTakes(c, a);
      NewsCovered(c.elections, c.logs, c.commits, s.log, s'.log, p.append.term,
        p.append.prevIndex + 1 + |p.append.entries|, p.append.commit);
      MoverKept(c, a);
      forall j: nat | 1 <= j <= s'.applied
        ensures s'.log[j] == s.log[j]
      {
        assert s'.log[j] == s'.log[..s.commit+1][j];
      }
    }
  }

  lemma LeaderCommitOk(c: Cluster, a: Action)
    requires Inv(c) && Enabled(c, a) && Commits(c, a) && OwnTerm(c, a)
    ensures var s' := Moved(c, a); var k := Commit(s'.term, s'.commit);
      CommitOk(|c.servers|, c.logs, c.acks, k) && ServerOk(c.logs, c.commits + {k}, c.deliveries, s')
  {
    var s, s' := c.servers[Who(a)], Moved(c, a);
    D.CommitIsChosen(c, a);
    D.CommitMeans(s, a.p.from, a.p.append, a.p.appendReply);
    var k := Commit(s'.term, s'.commit);
    assert k in c.commits + {k} && A.Holds(c.logs, s'.log, k.term, s'.commit);
    assert ServerOk(c.logs, c.commits, c.deliveries, s) by { assert Open(0, c.commits); }
    assert s'.applied == s.applied && s'.me == s.me;
  }

  lemma ApplyOk(c: Cluster, a: Action)
    requires Inv(c) && Enabled(c, a) && a.Apply?
    ensures ServerOk(c.logs, c.commits, c.deliveries + Delivered(c, a), Moved(c, a))
    ensures forall d :: d in Delivered(c, a) ==> DeliveryOk(c.logs, c.commits, d)
  {
    var s := c.servers[a.i];
    assert ServerOk(c.logs, c.commits, c.deliveries, s) && s.me == a.i by { assert Open(0, c.commits); }
    var more := Delivered(c, a);
    assert Hands(s, more) by { BatchHands(s); }
    forall d | d in more
      ensures DeliveryOk(c.logs, c.commits, d)
    {
      assert s.commit > 0;
      var k :| k in c.commits && k.term <= s.term && s.commit <= k.index && A.Holds(c.logs, s.log, k.term, s.commit);
      assert CommitOk(|c.servers|, c.logs, c.acks, k) by { assert Open(0, c.commits); }
      HeldIsOk(c.logs, c.commits, s, k, d);
    }
  }

  /** `more` holds all that the server has yet to hand over, and only commands of its log up to commitIndex. */
  ghost predicate Hands(s: Server, more: set<Delivery>)
    requires s.commit < |s.log|
  {
    && (forall j: nat :: s.applied < j <= s.commit ==> Delivery(s.me, j, s.log[j].command) in more)
    && forall d :: d in more ==> 1 <= d.index <= s.commit && d.command == s.log[d.index].command
  }

  lemma BatchHands(s: Server)
    requires s.base == 0 && s.applied <= s.commit < |s.log|
    ensures Hands(s, Batch(s.me, s))
  {
    forall j: nat | s.applied < j <= s.commit
      ensures Delivery(s.me, j, s.log[j].command) in Batch(s.me, s)
    {
      BatchHolds(s, j);
    }
    forall d | d in Batch(s.me, s)
      ensures 1 <= d.index <= s.commit && d.command == s.log[d.index].command
    {
      BatchHeld(s, d);
    }
  }

  lemma BatchHolds(s: Server, j: nat)
    requires s.base == 0 && s.applied < j <= s.commit < |s.log|
    ensures Delivery(s.me, j, s.log[j].command) in Batch(s.me, s)
  {
    var batch, k: nat := Deliverable(s), j - s.applied - 1;
    assert batch[k] == s.log[j].command;
    assert Delivery(s.me, s.applied + 1 + k, batch[k]) in Batch(s.me, s);
  }

  lemma BatchHeld(s: Server, d: Delivery)
    requires s.base == 0 && s.applied <= s.commit < |s.log| && d in Batch(s.me, s)
    ensures 1 <= d.index <= s.commit && d.command == s.log[d.index].command
  {
    var batch := Deliverable(s);
    var k: nat :| k < |batch| && d == Delivery(s.me, s.applied + 1 + k, batch[k]);
  }

  lemma HeldIsOk(logs: map<nat, Log>, commits: set<Commit>, s: Server, k: Commit, d: Delivery)
    requires s.commit < |s.log| && 1 <= d.index <= s.commit <= k.index && d.command == s.log[d.index].command
    requires k in commits && k.term in logs && k.index < |logs[k.term]| && A.Holds(logs, s.log, k.term, s.commit)
    ensures DeliveryOk(logs, commits, d)
  {
    assert s.log[d.index] == s.log[..s.commit+1][d.index] == logs[k.term][..s.commit+1][d.index];
  }

  lemma RestartOk(c: Cluster, a: Action)
    requires Inv(c) && Enabled(c, a) && a.Restart?
    ensures ServerOk(c.logs, c.commits, c.deliveries, Moved(c, a))
  {
  }

  lemma MovedOk(c: Cluster, a: Action)
    requires Inv(c) && Enabled(c, a) && OwnTerm(c, a)
    ensures ServerOk(c.logs, Next(c, a).commits, c.deliveries + Delivered(c, a), Moved(c, a))
    ensures forall d :: d in Delivered(c, a) ==> DeliveryOk(c.logs, c.commits, d)
    ensures forall k :: k in Next(c, a).commits && k !in c.commits ==> CommitOk(|c.servers|, c.logs, c.acks, k)
  {
    assert !a.Apply? ==> c.deliveries + Delivered(c, a) == c.deliveries;
    if Commits(c, a) {
      LeaderCommitOk(c, a);
    } else if a.AnswerAppend? {
      AcceptOk(c, a);
    } else if a.Apply? {
      ApplyOk(c, a);
    } else if a.Restart? {
      RestartOk(c, a);
    } else {
      if a.TakeAnswer? {
        AnswerApplied(c.servers[Who(a)], a.p.from, a.p.append, a.p.appendReply);
      }
      QuietOk(c, a);
    }
  }

  lemma AnswerApplied(s: Server, from: nat, a: AppendArgs, r: AppendReply)
    requires WellFormed(s) && from < s.peers
    ensures HandleAppendReply(s, from, a, r).applied == s.applied
  {
  }

  // ----- Every step, every run -----

  lemma ServerStays(c: Cluster, logs': map<nat, Log>, more: set<Commit>, told: set<Delivery>, s: Server)
    requires ServerOk(c.logs, c.commits, c.deliveries, s) && L.Grow(c.logs, logs')
    ensures ServerOk(logs', c.commits + more, c.deliveries + told, s)
  {
    CoveredStays(c.logs, logs', c.commits, more, s.log, s.log, s.commit, s.term);
  }

  lemma NewsStays(logs: map<nat, Log>, logs': map<nat, Log>, commits: set<Commit>, more: set<Commit>, p: Packet)
    requires NewsOk(logs, commits, p) && L.Grow(logs, logs')
    ensures NewsOk(logs', commits + more, p)
  {
    if p.AppendReq? {
      var t := p.append.term;
      CoveredStays(logs, logs', commits, more, logs[t], logs'[t], p.append.commit, t);
    }
  }

  lemma EmittedNews(c: Cluster, a: Action)
    requires Inv(c) && Enabled(c, a)
    ensures forall p :: p in Emitted(c, a) ==> NewsOk(c.logs, c.commits, p)
  {
    if a.SendAppend? {
      var s := c.servers[a.i];
      assert ServerOk(c.logs, c.commits, c.deliveries, s) by { assert Open(0, c.commits); }
      assert E.RoleOk(c.net, c.elections, s, a.i) by { assert Open(0, c.servers); }
      assert L.LogOk(c.elections, c.logs, s, a.i) by { assert Open(0, c.logs); }
    }
  }

  lemma DeliveryStays(logs: map<nat, Log>, logs': map<nat, Log>, commits: set<Commit>, more: set<Commit>, d: Delivery)
    requires DeliveryOk(logs, commits, d) && L.Grow(logs, logs')
    ensures DeliveryOk(logs', commits + more, d)
  {
    var k :| k in commits && k.term in logs && d.index <= k.index < |logs[k.term]| &&
      d.command == logs[k.term][d.index].command;
    assert k in commits + more;
  }

  lemma NextKeeps(c: Cluster, a: Action)
    requires Inv(c) && Enabled(c, a) && OwnTerm(c, a)
    ensures Inv(Next(c, a))
  {
    var c' := Next(c, a);
    D.NextKeeps(c, a);
    assert L.Grow(c.logs, c'.logs) by { L.NextKeeps(c, a); }
    MovedOk(c, a);
    EmittedNews(c, a);
    var more := c'.commits - c.commits;
    assert c'.commits == c.commits + more;
    NextCommitted(c, c', Who(a), Moved(c, a), more, Emitted(c, a), Acknowledged(c, a), Delivered(c, a));
  }

  lemma NextCommitted(c: Cluster, c': Cluster, i: nat, s': Server, more: set<Commit>, sent: set<Packet>,
        acked: set<Ack>, told: set<Delivery>)
    requires Inv(c) && L.Grow(c.logs, c'.logs) && i < |c.servers|
    requires c'.servers == c.servers[i := s'] && c'.net == c.net + sent && c'.acks == c.acks + acked
    requires c'.commits == c.commits + more && c'.deliveries == c.deliveries + told
    requires ServerOk(c.logs, c'.commits, c'.deliveries, s')
    requires forall p :: p in sent ==> NewsOk(c.logs, c.commits, p)
    requires forall d :: d in told ==> DeliveryOk(c.logs, c.commits, d)
    requires forall k :: k in more ==> CommitOk(|c.servers|, c.logs, c.acks, k)
    ensures Committed(c')
  {
    assert Open(0, c.commits);
    forall k | k in c'.commits
      ensures CommitOk(|c'.servers|, c'.logs, c'.acks, k)
    {
      CommitStays(|c.servers|, c.logs, c'.logs, c.acks, acked, k);
    }
    forall j | 0 <= j < |c'.servers|
      ensures ServerOk(c'.logs, c'.commits, c'.deliveries, c'.servers[j])
    {
      if j == i {
        CoveredStays(c.logs, c'.logs, c'.commits, {}, s'.log, s'.log, s'.commit, s'.term);
        assert c'.commits + {} == c'.commits;
      } else {
        ServerStays(c, c'.logs, more, told, c.servers[j]);
      }
    }
    forall p | p in c'.net
      ensures NewsOk(c'.logs, c'.commits, p)
    {
      NewsStays(c.logs, c'.logs, c.commits, more, p);
    }
    forall d | d in c'.deliveries
      ensures DeliveryOk(c'.logs, c'.commits, d)
    {
      DeliveryStays(c.logs, c'.logs, c.commits, more, d);
    }
  }

  /** A run in which the rule of the design is kept. */
  ghost predicate IsOwnTermRun(run: seq<Cluster>, actions: seq<Action>) {
    IsRun(run, actions) && forall k: nat :: k < |actions| ==> OwnTerm(run[k], actions[k])
  }

  lemma StepInv(c: Cluster, a: Action, d: Cluster)
    requires Inv(c) && Enabled(c, a) && OwnTerm(c, a) && Follows(c, a, d)
    ensures Inv(d)
  {
    assert Open(0, d);
    NextKeeps(c, a);
  }

  lemma {:induction false} RunInv(run: seq<Cluster>, actions: seq<Action>, k: nat)
    requires IsOwnTermRun(run, actions) && k < |run|
    ensures Inv(run[k])
    decreases k
  {
    if k == 0 {
      L.InitInv(run[0]);
    } else {
      RunInv(run, actions, k - 1);
      StepInv(run[k-1], actions[k-1], run[k]);
    }
  }

  // ----- Results -----

  /**
   A commit of an entry of the leader's own term, made in any run whatever the other commits
   were: whoever leads in a later term, now, before or afterwards, has that entry and
   everything before it.
   */
  lemma LeaderCompleteness(run: seq<Cluster>, actions: seq<Action>, j: nat, k: nat, y: nat)
    requires IsRun(run, actions) && j < |actions| && k < |run| && Commits(run[j], actions[j]) &&
      OwnTerm(run[j], actions[j])
    requires y < |run[k].servers| && run[k].servers[y].role == Leader &&
      run[k].servers[y].term > Moved(run[j], actions[j]).term
    ensures var s, r := Moved(run[j], actions[j]), run[k].servers[y];
      s.commit < |s.log| && s.commit < |r.log| && r.log[..s.commit+1] == s.log[..s.commit+1]
  {
    var s, r := Moved(run[j], actions[j]), run[k].servers[y];
    var t, n, u := s.term, s.commit, r.term;
    D.RunInv(run, actions, j);
    D.CommitIsChosen(run[j], actions[j]);
    D.RunInv(run, actions, k);
    assert E.RoleOk(run[k].net, run[k].elections, r, y) by { assert Open(0, run[k].servers); }
    assert L.LogOk(run[k].elections, run[k].logs, r, y) by { assert Open(0, run[k].logs); }
    assert L.StartOk(run[k].logs, u, run[k].elections[u].start) by { assert Open(0, run[k].logs); }
    var m := if j <= k then k else j;
    D.RunInv(run, actions, m);
    E.ElectionsStay(run, actions, k, m, u);
    L.LogsStay(run, actions, j, m, t);
    ChosenAlong(run, actions, j, m, t, n);
    Completeness(run[m], t, n, u);
    assert run[m].logs[t][..n+1] == run[j].logs[t][..n+1];
    assert r.log[..n+1] == run[k].elections[u].start[..n+1];
  }

  lemma {:induction false} ChosenAlong(run: seq<Cluster>, actions: seq<Action>, j: nat, k: nat, t: nat, n: nat)
    requires IsRun(run, actions) && j <= k < |run| && D.Chosen(|run[j].servers|, run[j].acks, t, n)
    ensures D.Chosen(|run[k].servers|, run[k].acks, t, n)
    decreases k
  {
    if j < k {
      ChosenAlong(run, actions, j, k - 1, t, n);
      StepGrows(run[k-1], actions[k-1], run[k]);
      ChosenStays(|run[k-1].servers|, run[k-1].acks, run[k].acks, t, n);
      assert run[k-1].acks + run[k].acks == run[k].acks;
    }
  }

  /** No two servers ever deliver different commands at one index, restarts or not. */
  lemma StateMachineSafety(run: seq<Cluster>, actions: seq<Action>, k: nat, d: Delivery, e: Delivery)
    requires IsOwnTermRun(run, actions) && k < |run| && d in run[k].deliveries && e in run[k].deliveries
    requires d.index == e.index
    ensures d.command == e.command
  {
    var c := run[k];
    RunInv(run, actions, k);
    assert Open(0, c.commits);
    var a :| a in c.commits && a.term in c.logs && d.index <= a.index < |c.logs[a.term]| &&
      d.command == c.logs[a.term][d.index].command;
    var b :| b in c.commits && b.term in c.logs && e.index <= b.index < |c.logs[b.term]| &&
      e.command == c.logs[b.term][e.index].command;
    if a.term < b.term {
      CommitsAgree(c, a, b, d.index);
    } else if b.term < a.term {
      CommitsAgree(c, b, a, d.index);
    }
  }

  lemma CommitsAgree(c: Cluster, a: Commit, b: Commit, i: nat)
    requires Inv(c) && a in c.commits && b in c.commits && a.term < b.term && i <= a.index
    requires a.term in c.logs && b.term in c.logs && a.index < |c.logs[a.term]|
    ensures i < |c.logs[b.term]| && c.logs[a.term][i] == c.logs[b.term][i]
  {
    assert CommitOk(|c.servers|, c.logs, c.acks, a) by { assert Open(0, c.commits); }
    assert L.HistoryOk(c.elections, c.logs) by { assert Open(0, c.logs); }
    assert L.StartOk(c.logs, b.term, c.elections[b.term].start);
    Completeness(c, a.term, a.index, b.term);
    assert c.logs[a.term][..a.index+1][i] == c.elections[b.term].start[..a.index+1][i];
  }

  // ----- What a server hands over -----

  /** What server `i` has handed to its service since it was last started, after `k` steps. */
  ghost function HandedOver(run: seq<Cluster>, actions: seq<Action>, i: nat, k: nat): seq<Command>
    requires IsRun(run, actions) && k < |run|
  {
    if k == 0 then []
    else
      var before, a := HandedOver(run, actions, i, k - 1), actions[k-1];
      if a == Restart(i) then []
      else if a == Apply(i) then before + Deliverable(run[k-1].servers[i])
      else before
  }

  ghost function Commands(log: Log, n: nat): seq<Command>
    requires n < |log|
  {
    seq(n, j requires 0 <= j < n => log[j+1].command)
  }

  lemma CommandsSame(log: Log, log': Log, n: nat, m: nat)
    requires n <= m < |log| && m < |log'| && log'[..m+1] == log[..m+1]
    ensures Commands(log', n) == Commands(log, n)
  {
    assert forall j :: 0 <= j <= m ==> log[..m+1][j] == log[j] && log'[..m+1][j] == log'[j];
  }

  lemma CommandsMore(s: Server)
    requires s.base == 0 && s.applied <= s.commit < |s.log|
    ensures Commands(s.log, s.applied) + Deliverable(s) == Commands(s.log, s.commit)
  {
  }

  /** The mover's lastApplied changes in two ways only. */
  lemma MovedApplied(c: Cluster, a: Action)
    requires Sound(c) && Enabled(c, a) && !a.Apply? && !a.Restart?
    ensures Moved(c, a).applied == c.servers[Who(a)].applied
  {
    if a.AnswerAppend? {
      AppendCommit(c.servers[Who(a)], a.p.append);
    } else if a.TakeAnswer? {
      AnswerApplied(c.servers[Who(a)], a.p.from, a.p.append, a.p.appendReply);
    }
  }

  lemma HandedOverStep(c: Cluster, a: Action, d: Cluster, i: nat)
    requires Inv(c) && Enabled(c, a) && Follows(c, a, d) && i < |c.servers| && i < |d.servers|
    requires c.servers[i].applied <= c.servers[i].commit < |c.servers[i].log|
    requires d.servers[i].applied <= d.servers[i].commit < |d.servers[i].log|
    ensures var s, s' := c.servers[i], d.servers[i];
      Commands(s'.log, s'.applied) ==
        if a == Restart(i) then [] else if a == Apply(i) then Commands(s.log, s.applied) + Deliverable(s)
          else Commands(s.log, s.applied)
  {
    StepServer(c, a, d, i);
    if Who(a) == i {
      if a.Apply? {
        CommandsMore(c.servers[i]);
      } else if !a.Restart? {
        CommandsKept(c, a);
      }
    }
  }

  /** Nothing that has been handed over changes in the log. */
  lemma CommandsKept(c: Cluster, a: Action)
    requires Inv(c) && Enabled(c, a) && !a.Apply? && !a.Restart?
    requires c.servers[Who(a)].applied <= c.servers[Who(a)].commit < |c.servers[Who(a)].log|
    ensures var s, s' := c.servers[Who(a)], Moved(c, a);
      s'.applied == s.applied < |s'.log| && Commands(s'.log, s.applied) == Commands(s.log, s.applied)
  {
    var s, s' := c.servers[Who(a)], Moved(c, a);
    MoverKept(c, a);
    MovedApplied(c, a);
    CommandsSame(s.log, s'.log, s.applied, s.commit);
  }

  lemma InsideLog(c: Cluster, i: nat)
    requires Inv(c) && i < |c.servers|
    ensures c.servers[i].applied <= c.servers[i].commit < |c.servers[i].log| && CanDeliver(c.servers[i])
  {
    assert ServerOk(c.logs, c.commits, c.deliveries, c.servers[i]) by { assert Open(0, c.commits); }
  }

  /**
   In every state of every run that keeps the rule: what a server has handed over since it was last
   started is exactly the commands 1, 2, ..., lastApplied of its log, in this order, and the next
   round will not leave the log.
   */
  lemma {:induction false} GapFree(run: seq<Cluster>, actions: seq<Action>, i: nat, k: nat)
    requires IsOwnTermRun(run, actions) && k < |run| && i < |run[k].servers|
    ensures var s := run[k].servers[i];
      && s.applied <= s.commit < |s.log| && CanDeliver(s)
      && HandedOver(run, actions, i, k) == Commands(s.log, s.applied)
    decreases k
  {
    RunInv(run, actions, k);
    InsideLog(run[k], i);
    if k > 0 {
      var c, a := run[k-1], actions[k-1];
      StepGrows(c, a, run[k]);
      GapFree(run, actions, i, k - 1);
      RunInv(run, actions, k - 1);
      HandedOverStep(c, a, run[k], i);
    }
  }

  /** What is handed over has been recorded as delivered, under the index it is handed over at. */
  lemma HandedOverIsDelivered(run: seq<Cluster>, actions: seq<Action>, i: nat, k: nat, j: nat)
    requires IsOwnTermRun(run, actions) && k < |run| && i < |run[k].servers| && j < |HandedOver(run, actions, i, k)|
    ensures Delivery(i, j + 1, HandedOver(run, actions, i, k)[j]) in run[k].deliveries
  {
    RunInv(run, actions, k);
    GapFree(run, actions, i, k);
    AppliedIsDelivered(run[k], i, j);
  }

  lemma AppliedIsDelivered(c: Cluster, i: nat, j: nat)
    requires Inv(c) && i < |c.servers| && c.servers[i].applied < |c.servers[i].log| && j < c.servers[i].applied
    ensures Delivery(i, j + 1, Commands(c.servers[i].log, c.servers[i].applied)[j]) in c.deliveries
  {
    assert ServerOk(c.logs, c.commits, c.deliveries, c.servers[i]) by { assert Open(0, c.commits); }
  }

  lemma {:induction false} DeliveriesStay(run: seq<Cluster>, actions: seq<Action>, j: nat, k: nat)
    requires IsRun(run, actions) && j <= k < |run|
    ensures run[j].deliveries <= run[k].deliveries
    decreases k
  {
    if j < k {
      DeliveriesStay(run, actions, j, k - 1);
      StepGrows(run[k-1], actions[k-1], run[k]);
    }
  }

  /** At any two times, any two servers have handed over the same command wherever both have handed one over. */
  lemma ServicesAgree(run: seq<Cluster>, actions: seq<Action>, i: nat, k: nat, i': nat, k': nat, j: nat)
    requires IsOwnTermRun(run, actions) && k <= k' < |run| && i < |run[k].servers| && i' < |run[k'].servers|
    requires j < |HandedOver(run, actions, i, k)| && j < |HandedOver(run, actions, i', k')|
    ensures HandedOver(run, actions, i, k)[j] == HandedOver(run, actions, i', k')[j]
  {
    HandedOverIsDelivered(run, actions, i, k, j);
    HandedOverIsDelivered(run, actions, i', k', j);
    DeliveriesStay(run, actions, k, k');
    var d, e := Delivery(i, j + 1, HandedOver(run, actions, i, k)[j]),
      Delivery(i', j + 1, HandedOver(run, actions, i', k')[j]);
    StateMachineSafety(run, actions, k', d, e);
  }

  lemma StepCommit(c: Cluster, a: Action, d: Cluster, i: nat)
    requires Inv(c) && Enabled(c, a) && Follows(c, a, d) && i < |c.servers| && a != Restart(i)
    ensures i < |d.servers|
    ensures c.servers[i].commit <= d.servers[i].commit && c.servers[i].applied <= d.servers[i].applied
  {
    StepServer(c, a, d, i);
    if i == Who(a) {
      if a.AnswerAppend? {
        assert NewsOk(c.logs, c.commits, a.p) by { assert Open(0, c.commits); }
        H.CommitFallsIff(c.servers[i], a.p.append);
        H.AppendChanges(c.servers[i], a.p.append);
      } else if a.TakeAnswer? {
        AnswerGrows(c.servers[i], a.p.from, a.p.append, a.p.appendReply);
      } else if a.Apply? {
        InsideLog(c, i);
      }
    }
  }

  lemma AnswerGrows(s: Server, from: nat, a: AppendArgs, reply: AppendReply)
    requires WellFormed(s) && from < s.peers
    ensures var t := HandleAppendReply(s, from, a, reply); s.commit <= t.commit && s.applied <= t.applied
  {
  }

  /** In every run that keeps the rule, as long as a server is up it never takes back what it took for committed. */
  lemma {:induction false} CommitNeverFalls(run: seq<Cluster>, actions: seq<Action>, i: nat, j: nat, k: nat)
    requires IsOwnTermRun(run, actions) && j <= k < |run| && i < |run[j].servers| && i < |run[k].servers|
    requires forall m :: j <= m < k ==> actions[m] != Restart(i)
    ensures run[j].servers[i].commit <= run[k].servers[i].commit
    ensures run[j].servers[i].applied <= run[k].servers[i].applied
    decreases k
  {
    if j < k {
      RunInv(run, actions, k - 1);
      StepGrows(run[k-1], actions[k-1], run[k]);
      CommitNeverFalls(run, actions, i, j, k - 1);
      StepCommit(run[k-1], actions[k-1], run[k], i);
    }
  }
}
