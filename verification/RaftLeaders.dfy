/**
 What a leader knows of its followers.  `matchIndex` is truthful, `nextIndex` always points into
 the log, and a rejected AppendEntries moves it strictly back.
 */
module RaftLeaders {
  import opened Sealing
  import opened RaftServer
  import opened RaftCluster
  import E = RaftElections
  import L = RaftLogs
  import A = RaftAcks

  ghost predicate HasAck(acks: set<Ack>, t: nat, v: nat, n: nat) {
    exists k :: k in acks && k.term == t && k.server == v && k.index >= n
  }

  /**
   A rejection names a place before the one that was tried; and if it names a term, then the
   leader of that term had an entry of its own where the sender has another one.
   */
  ghost predicate RejectOk(logs: map<nat, Log>, a: AppendArgs, r: AppendReply) {
    && 1 <= r.conflictIndex <= a.prevIndex
    && (r.conflictTerm == -1 ||
         (r.conflictTerm >= 0 && r.conflictTerm != a.prevTerm && var t: nat := r.conflictTerm;
          t in logs && a.prevIndex < |logs[t]| && logs[t][a.prevIndex].term == t))
  }

  ghost predicate AnswerOk(logs: map<nat, Log>, acks: set<Ack>, p: Packet) {
    p.AppendAns? ==>
      var a, r := p.append, p.appendReply;
      && (r.success ==> r.term == a.term && HasAck(acks, a.term, p.from, a.prevIndex + |a.entries|))
      && (!r.success && r.term <= a.term ==> RejectOk(logs, a, r))
  }

  ghost predicate LeaderOk(acks: set<Ack>, s: Server) {
    s.role == Leader ==>
      && (forall p: nat :: p < |s.nextIndex| ==> 1 <= s.nextIndex[p] <= |s.log|)
      && (forall p: nat :: p < |s.matchIndex| && p != s.me && s.matchIndex[p] != 0 ==>
           HasAck(acks, s.term, p, s.matchIndex[p]))
  }

  /** A leader counts itself for everything in its log. */
  ghost predicate OwnAck(elections: map<nat, Election>, logs: map<nat, Log>, acks: set<Ack>, t: nat)
    requires t in elections
  {
    t in logs && logs[t] != [] && HasAck(acks, t, elections[t].leader, |logs[t]| - 1)
  }

  ghost predicate Leaders(servers: seq<Server>, net: set<Packet>, elections: map<nat, Election>, logs: map<nat, Log>,
        acks: set<Ack>) {
    forall x: nat :: Open(x, net) ==>
      && (forall t :: t in elections ==> OwnAck(elections, logs, acks, t))
      && (forall p :: p in net ==> AnswerOk(logs, acks, p))
      && (forall i :: 0 <= i < |servers| ==> LeaderOk(acks, servers[i]))
  }

  ghost predicate Inv(c: Cluster) {
    A.Inv(c) && Leaders(c.servers, c.net, c.elections, c.logs, c.acks)
  }

  // ----- Rejections -----

  lemma RejectedOk(elections: map<nat, Election>, logs: map<nat, Log>, s: Server, a: AppendArgs)
    requires s.log != [] && s.base == 0 && s.log[0].term == 0 && L.HistoryOk(elections, logs)
    requires L.Matched(logs, s.log, s.term) && L.PieceOk(logs, a)
    requires !AppendEntries(s, a).1.success && AppendEntries(s, a).1.term <= a.term
    ensures RejectOk(logs, a, AppendEntries(s, a).1)
  {
    if a.prevIndex < |s.log| {
      assert L.MatchedAt(logs, s.log, a.prevIndex, s.term);
      assert L.MatchedAt(logs, logs[a.term], 0, a.term);
    }
  }

  /**
   Fast back-up makes progress: after a rejection the next attempt starts strictly earlier, and
   not before the beginning.
   */
  lemma BackUpProgress(elections: map<nat, Election>, logs: map<nat, Log>, s: Server, from: nat, a: AppendArgs,
        r: AppendReply)
    requires WellFormed(s) && s.base == 0 && from < s.peers && L.HistoryOk(elections, logs)
    requires s.term in logs && s.log == logs[s.term] && a.term == s.term
    requires L.PieceOk(logs, a) && RejectOk(logs, a, r)
    ensures 1 <= BackUp(s, from, r).nextIndex[from] <= a.prevIndex
  {
    if r.conflictTerm != -1 {
      var i := LastOfTerm(s.log, |s.log| - 1, r.conflictTerm);
      assert L.MatchedAt(logs, logs[s.term], i, s.term);
    }
  }

  // ----- One server -----

  lemma HasAckStays(acks: set<Ack>, more: set<Ack>, t: nat, v: nat, n: nat)
    requires HasAck(acks, t, v, n)
    ensures HasAck(acks + more, t, v, n)
  {
  }

  lemma AdvanceOk(acks: set<Ack>, s: Server, from: nat, a: AppendArgs, r: AppendReply)
    requires WellFormed(s) && s.base == 0 && s.role == Leader && from < s.peers && LeaderOk(acks, s)
    requires HasAck(acks, s.term, from, a.prevIndex + |a.entries|)
    ensures LeaderOk(acks, Advance(s, from, a, r))
  {
  }

  lemma TakeAnswerOk(c: Cluster, a: Action)
    requires Inv(c) && Enabled(c, a) && a.TakeAnswer?
    ensures LeaderOk(c.acks, Moved(c, a))
  {
    var i, p := Who(a), a.p;
    var s := c.servers[i];
    assert LeaderOk(c.acks, s) && AnswerOk(c.logs, c.acks, p) by { assert Open(0, c.net); }
    if Rejects(c, a) {
      RejectionBacksUp(c, a);
    } else if s.role == Leader && p.append.term == s.term && p.appendReply.term <= s.term {
      AdvanceOk(c.acks, s, p.from, p.append, p.appendReply);
    }
  }

  lemma MovedOk(c: Cluster, a: Action)
    requires Inv(c) && Enabled(c, a)
    ensures LeaderOk(c.acks, Moved(c, a))
  {
    assert LeaderOk(c.acks, c.servers[Who(a)]) by { assert Open(0, c.net); }
    if a.TakeAnswer? {
      TakeAnswerOk(c, a);
    } else if a.AnswerAppend? {
      AppendedOk(c, a);
    }
  }

  /** A leader does not take entries from anybody in its own term. */
  lemma AppendedOk(c: Cluster, a: Action)
    requires Inv(c) && Enabled(c, a) && a.AnswerAppend?
    ensures LeaderOk(c.acks, Moved(c, a))
  {
    var i, p := Who(a), a.p;
    var s := c.servers[i];
    assert LeaderOk(c.acks, s) by { assert Open(0, c.net); }
    L.AppendFacts(s, p.append);
    assert E.RoleOk(c.net, c.elections, s, i) && E.AppendOk(|c.servers|, c.elections, p) by {
      assert Open(0, c.servers);
      assert E.PacketOk(c.servers, c.elections, p);
    }
  }

  // ----- Every step, every run -----

  lemma EmittedOk(c: Cluster, a: Action)
    requires Inv(c) && Enabled(c, a) && a.AnswerAppend?
    ensures forall p :: p in Emitted(c, a) ==> AnswerOk(c.logs, c.acks + Acknowledged(c, a), p)
  {
    var i, p := Who(a), a.p;
    var s := c.servers[i];
    assert L.HistoryOk(c.elections, c.logs) && L.LogOk(c.elections, c.logs, s, i) && L.PieceOk(c.logs, p.append) by {
      assert Open(0, c.logs);
      assert L.CargoOk(c.servers, c.logs, p);
    }
    if Accepts(c, a) {
      L.AppendFacts(s, p.append);
      assert Ack(p.append.term, i, p.append.prevIndex + |p.append.entries|) in Acknowledged(c, a);
    } else if AppendEntries(s, p.append).1.term <= p.append.term {
      RejectedOk(c.elections, c.logs, s, p.append);
    }
  }

  lemma OwnAckStays(c: Cluster, a: Action, t: nat)
    requires Inv(c) && Enabled(c, a) && t in Next(c, a).elections
    ensures OwnAck(Next(c, a).elections, Next(c, a).logs, Next(c, a).acks, t)
  {
    var i, s, c' := Who(a), Moved(c, a), Next(c, a);
    if (Wins(c, a) || Submits(c, a)) && t == s.term {
      assert E.RoleOk(c.net, c.elections, c.servers[i], i) by { assert Open(0, c.servers); }
      assert Ack(t, i, |s.log| - 1) in c'.acks;
    } else {
      assert OwnAck(c.elections, c.logs, c.acks, t) by { assert Open(0, c.net); }
      assert c'.elections[t] == c.elections[t] && t in c'.logs && c'.logs[t] == c.logs[t];
      HasAckMore(c.acks, c'.acks, t, c.elections[t].leader, |c.logs[t]| - 1);
    }
  }

  lemma HasAckMore(acks: set<Ack>, acks': set<Ack>, t: nat, v: nat, n: nat)
    requires HasAck(acks, t, v, n) && acks <= acks'
    ensures HasAck(acks', t, v, n)
  {
  }

  lemma NextKeeps(c: Cluster, a: Action)
    requires Inv(c) && Enabled(c, a)
    ensures Inv(Next(c, a))
  {
    var c' := Next(c, a);
    A.NextKeeps(c, a);
    assert L.Grow(c.logs, c'.logs) by { L.NextKeeps(c, a); }
    MovedOk(c, a);
    if a.AnswerAppend? {
      EmittedOk(c, a);
    }
    assert forall p :: p in Emitted(c, a) ==> AnswerOk(c.logs, c.acks + Acknowledged(c, a), p);
    forall t | t in c'.elections
      ensures OwnAck(c'.elections, c'.logs, c'.acks, t)
    {
      OwnAckStays(c, a, t);
    }
    NextLeaders(c, Who(a), Moved(c, a), Emitted(c, a), c'.elections, c'.logs, Acknowledged(c, a));
  }

  /** The parts of a step that concern what leaders know. */
  lemma NextLeaders(c: Cluster, i: nat, s': Server, sent: set<Packet>, elections': map<nat, Election>,
        logs': map<nat, Log>, more: set<Ack>)
    requires Inv(c) && i < |c.servers| && L.Grow(c.logs, logs') && LeaderOk(c.acks, s')
    requires forall t :: t in elections' ==> OwnAck(elections', logs', c.acks + more, t)
    requires forall p :: p in sent ==> AnswerOk(c.logs, c.acks + more, p)
    ensures Leaders(c.servers[i := s'], c.net + sent, elections', logs', c.acks + more)
  {
    assert Open(0, c.net);
    forall p | p in c.net + sent
      ensures AnswerOk(logs', c.acks + more, p)
    {
      if p in c.net {
        assert AnswerOk(c.logs, c.acks, p);
      }
      AnswerStays(c.logs, logs', c.acks, more, p);
    }
    var servers' := c.servers[i := s'];
    forall j | 0 <= j < |servers'|
      ensures LeaderOk(c.acks + more, servers'[j])
    {
      LeaderStays(c.acks, more, servers'[j]);
    }
  }

  lemma AnswerStays(logs: map<nat, Log>, logs': map<nat, Log>, acks: set<Ack>, more: set<Ack>, p: Packet)
    requires L.Grow(logs, logs') && (AnswerOk(logs, acks, p) || AnswerOk(logs, acks + more, p))
    ensures AnswerOk(logs', acks + more, p)
  {
  }

  lemma LeaderStays(acks: set<Ack>, more: set<Ack>, s: Server)
    requires LeaderOk(acks, s)
    ensures LeaderOk(acks + more, s)
  {
  }

  lemma StepInv(c: Cluster, a: Action, d: Cluster)
    requires Inv(c) && Enabled(c, a) && Follows(c, a, d)
    ensures Inv(d)
  {
    assert Open(0, d);
    NextKeeps(c, a);
  }

  lemma {:induction false} RunInv(run: seq<Cluster>, actions: seq<Action>, k: nat)
    requires IsRun(run, actions) && k < |run|
    ensures Inv(run[k])
    decreases k
  {
    if k == 0 {
      L.InitInv(run[0]);
    } else {
      RunInv(run, actions, k - 1);
      StepInv(run[k-1], actions[k-1], run[k]);
    }
  }

  // ----- Results -----

  /** In every reachable state a leader can build a request for every peer. */
  lemma NeverOutOfRange(run: seq<Cluster>, actions: seq<Action>, k: nat, i: nat, peer: nat)
    requires IsRun(run, actions) && k < |run| && i < |run[k].servers| && run[k].servers[i].role == Leader
    requires peer < |run[k].servers| && peer != i
    ensures CanAppendTo(run[k].servers[i], peer)
  {
    RunInv(run, actions, k);
    InRange(run[k], i, peer);
  }

  lemma InRange(c: Cluster, i: nat, peer: nat)
    requires Inv(c) && i < |c.servers| && c.servers[i].role == Leader && peer < |c.servers| && peer != i
    ensures CanAppendTo(c.servers[i], peer)
  {
    assert LeaderOk(c.acks, c.servers[i]) by { assert Open(0, c.net); }
  }

  /** A rejection that the leader takes notice of. */
  ghost predicate Rejects(c: Cluster, a: Action)
    requires Sound(c) && Enabled(c, a)
  {
    a.TakeAnswer? && !a.p.appendReply.success &&
    var s := c.servers[Who(a)];
    s.role == Leader && a.p.append.term == s.term && a.p.appendReply.term <= s.term
  }

  lemma RejectionBacksUp(c: Cluster, a: Action)
    requires Inv(c) && Enabled(c, a) && Rejects(c, a)
    ensures a.p.from < |Moved(c, a).nextIndex|
    ensures 1 <= Moved(c, a).nextIndex[a.p.from] <= a.p.append.prevIndex < |c.servers[Who(a)].log|
  {
    var i, p := Who(a), a.p;
    var s := c.servers[i];
    assert AnswerOk(c.logs, c.acks, p) by { assert Open(0, c.net); }
    assert E.RoleOk(c.net, c.elections, s, i) by { assert Open(0, c.servers); }
    assert L.HistoryOk(c.elections, c.logs) && L.LogOk(c.elections, c.logs, s, i) && L.PieceOk(c.logs, p.append) by {
      assert Open(0, c.logs);
      assert L.CargoOk(c.servers, c.logs, p);
    }
    BackUpProgress(c.elections, c.logs, s, p.from, p.append, p.appendReply);
  }

  /** In every run, a rejection moves the leader strictly back, and not past the beginning. */
  lemma RejectionProgress(run: seq<Cluster>, actions: seq<Action>, k: nat)
    requires IsRun(run, actions) && k < |actions| && Rejects(run[k], actions[k])
    ensures var i, p := Who(actions[k]), actions[k].p;
      && i < |run[k+1].servers| && p.from < |run[k+1].servers[i].nextIndex|
      && 1 <= run[k+1].servers[i].nextIndex[p.from] <= p.append.prevIndex
  {
    RunInv(run, actions, k);
    RejectionBacksUp(run[k], actions[k]);
    StepServer(run[k], actions[k], run[k+1], Who(actions[k]));
  }

  /** What a leader believes a peer to hold is in its own log. */
  lemma MatchInLog(c: Cluster, i: nat, peer: nat)
    requires Inv(c) && i < |c.servers| && peer < |c.servers| && peer != i && c.servers[i].role == Leader
    ensures peer < |c.servers[i].matchIndex| && c.servers[i].matchIndex[peer] < |c.servers[i].log|
  {
    var s := c.servers[i];
    var n := s.matchIndex[peer];
    assert L.LogOk(c.elections, c.logs, s, i) by { assert Open(0, c.logs); }
    assert LeaderOk(c.acks, s) by { assert Open(0, c.net); }
    assert E.RoleOk(c.net, c.elections, s, i) by { assert Open(0, c.servers); }
    if n > 0 {
      assert HasAck(c.acks, s.term, peer, n);
      var k :| k in c.acks && k.term == s.term && k.server == peer && k.index >= n;
      assert A.AckOk(c.servers, c.elections, c.logs, k) by { assert Open(0, c.acks); }
    }
  }

  lemma MatchTruthful(c: Cluster, i: nat, peer: nat)
    requires Inv(c) && i < |c.servers| && peer < |c.servers| && peer != i
    requires c.servers[i].role == Leader && c.servers[peer].term == c.servers[i].term
    ensures var s, r := c.servers[i], c.servers[peer];
      peer < |s.matchIndex| && var n := s.matchIndex[peer];
      n < |s.log| && n < |r.log| && r.log[..n+1] == s.log[..n+1]
  {
    var s, r := c.servers[i], c.servers[peer];
    var n := s.matchIndex[peer];
    assert L.LogOk(c.elections, c.logs, s, i) && L.LogOk(c.elections, c.logs, r, peer) by { assert Open(0, c.logs); }
    if n > 0 {
      assert LeaderOk(c.acks, s) by { assert Open(0, c.net); }
      assert E.RoleOk(c.net, c.elections, s, i) by { assert Open(0, c.servers); }
      assert HasAck(c.acks, s.term, peer, n);
      var k :| k in c.acks && k.term == s.term && k.server == peer && k.index >= n;
      assert A.AckOk(c.servers, c.elections, c.logs, k) by { assert Open(0, c.acks); }
      assert A.Kept(c.elections, c.logs, r.log, k.term, n, r.term);
    }
  }

  /** While a peer stays in the leader's term, it agrees with the leader through matchIndex. */
  lemma MatchIndexTruthful(run: seq<Cluster>, actions: seq<Action>, k: nat, i: nat, peer: nat)
    requires IsRun(run, actions) && k < |run| && i < |run[k].servers| && peer < |run[k].servers| && peer != i
    requires run[k].servers[i].role == Leader && run[k].servers[peer].term == run[k].servers[i].term
    ensures var s, r := run[k].servers[i], run[k].servers[peer];
      peer < |s.matchIndex| && var n := s.matchIndex[peer];
      n < |s.log| && n < |r.log| && r.log[..n+1] == s.log[..n+1]
  {
    RunInv(run, actions, k);
    MatchTruthful(run[k], i, peer);
  }

  /** `q` is a majority whose members held everything up to `n` of the leader of `t` in that term. */
  ghost predicate Backs(n: nat, acks: set<Ack>, q: set<nat>, t: nat, index: nat) {
    2 * |q| > n && forall v :: v in q ==> v < n && HasAck(acks, t, v, index)
  }

  ghost predicate Chosen(n: nat, acks: set<Ack>, t: nat, index: nat) {
    exists q :: Backs(n, acks, q, t, index)
  }

  /** A leader that moves its commitIndex has a majority behind it. */
  lemma CommitIsChosen(c: Cluster, a: Action)
    requires Inv(c) && Enabled(c, a) && Commits(c, a)
    ensures var s := Moved(c, a);
      && s.term == c.servers[Who(a)].term && s.role == Leader && s.term in c.logs && s.log == c.logs[s.term]
      && 0 < s.commit < |s.log| && c.servers[Who(a)].commit < s.commit
      && Chosen(|c.servers|, c.acks, s.term, s.commit)
  {
    var i, p := Who(a), a.p;
    var s, s' := c.servers[i], Moved(c, a);
    CommitMeans(s, p.from, p.append, p.appendReply);
    assert E.RoleOk(c.net, c.elections, s, i) by { assert Open(0, c.servers); }
    assert L.LogOk(c.elections, c.logs, s, i) && L.PieceOk(c.logs, p.append) by {
      assert Open(0, c.logs);
      assert L.CargoOk(c.servers, c.logs, p);
    }
    TakeAnswerOk(c, a);
    var holders := Holders(s'.matchIndex, i, s'.commit);
    assert OwnAck(c.elections, c.logs, c.acks, s.term) by { assert Open(0, c.net); }
    forall v | v in holders
      ensures HasAck(c.acks, s'.term, v, s'.commit)
    {
      assert HasAck(c.acks, s'.term, v, s'.matchIndex[v]);
    }
    assert |holders + {i}| == |holders| + 1;
    assert Backs(|c.servers|, c.acks, holders + {i}, s'.term, s'.commit);
  }

  lemma CommitMeans(s: Server, from: nat, a: AppendArgs, r: AppendReply)
    requires WellFormed(s) && from < s.peers && HandleAppendReply(s, from, a, r).commit != s.commit
    ensures var s' := HandleAppendReply(s, from, a, r);
      && s.role == Leader && s'.role == Leader && s'.term == s.term == a.term && s'.log == s.log && r.success
      && s'.commit == a.prevIndex + |a.entries| > s.commit
      && 1 + |Holders(s'.matchIndex, s.me, s'.commit)| >= s.peers / 2 + 1
  {
  }

  // ----- Acknowledged means held -----

  /** The server is in the term, and its log is the given one up to index `n`. */
  ghost predicate HadThen(c: Cluster, v: nat, t: nat, log: Log, n: nat) {
    v < |c.servers| && c.servers[v].term == t && n < |log| && n < |c.servers[v].log| &&
      c.servers[v].log[..n+1] == log[..n+1]
  }

  ghost predicate HadSometime(run: seq<Cluster>, k: nat, v: nat, t: nat, log: Log, n: nat) {
    exists m: nat :: m <= k && m < |run| && HadThen(run[m], v, t, log, n)
  }

  /** Whoever acknowledges something has it at that moment. */
  lemma NewAckHeld(c: Cluster, a: Action, d: Cluster, k: Ack)
    requires Inv(c) && Enabled(c, a) && Follows(c, a, d) && k in d.acks && k !in c.acks
    ensures k.term in d.logs && HadThen(d, k.server, k.term, d.logs[k.term], k.index)
  {
    assert Open(0, d);
    if Accepts(c, a) {
      A.AcceptTakes(c, a);
    } else {
      assert E.RoleOk(c.net, c.elections, c.servers[Who(a)], Who(a)) by { assert Open(0, c.servers); }
      assert d.logs[k.term] == Moved(c, a).log;
    }
  }

  lemma HadLonger(c: Cluster, v: nat, t: nat, log: Log, log': Log, n: nat)
    requires HadThen(c, v, t, log, n) && log <= log'
    ensures HadThen(c, v, t, log', n)
  {
    assert log'[..n+1] == log[..n+1];
  }

  lemma HadLess(c: Cluster, v: nat, t: nat, log: Log, n: nat, n': nat)
    requires HadThen(c, v, t, log, n) && n' <= n
    ensures HadThen(c, v, t, log, n')
  {
    var mine := c.servers[v].log;
    assert mine[..n'+1] == mine[..n+1][..n'+1] == log[..n+1][..n'+1] == log[..n'+1];
  }

  lemma {:induction false} AckHeld(run: seq<Cluster>, actions: seq<Action>, k: nat, ack: Ack)
    requires IsRun(run, actions) && k < |run| && ack in run[k].acks
    ensures ack.term in run[k].logs && HadSometime(run, k, ack.server, ack.term, run[k].logs[ack.term], ack.index)
    decreases k
  {
    if k > 0 {
      var c, a := run[k-1], actions[k-1];
      if ack in c.acks {
        AckHeld(run, actions, k - 1, ack);
        var m: nat :| m <= k - 1 && HadThen(run[m], ack.server, ack.term, c.logs[ack.term], ack.index);
        L.LogsStay(run, actions, k - 1, k, ack.term);
        HadLonger(run[m], ack.server, ack.term, c.logs[ack.term], run[k].logs[ack.term], ack.index);
      } else {
        RunInv(run, actions, k - 1);
        NewAckHeld(c, a, run[k], ack);
        assert HadThen(run[k], ack.server, ack.term, run[k].logs[ack.term], ack.index);
      }
    }
  }

  /** `q` is a majority whose members were all once in the term with that log up to `n`. */
  ghost predicate MatchedBy(run: seq<Cluster>, k: nat, q: set<nat>, t: nat, log: Log, n: nat)
    requires k < |run|
  {
    2 * |q| > |run[k].servers| && forall v :: v in q ==> HadSometime(run, k, v, t, log, n)
  }

  /**
   Whenever a leader advances its commitIndex to n, in any run, there is a majority of servers each
   of which, at some time up to then and in the leader's term, had the leader's log up to n.
   */
  lemma CommitWasMatched(run: seq<Cluster>, actions: seq<Action>, k: nat)
    requires IsRun(run, actions) && k < |actions| && Commits(run[k], actions[k])
    ensures var s := Moved(run[k], actions[k]); exists q :: MatchedBy(run, k, q, s.term, s.log, s.commit)
  {
    var c, s := run[k], Moved(run[k], actions[k]);
    RunInv(run, actions, k);
    CommitIsChosen(c, actions[k]);
    var q :| Backs(|c.servers|, c.acks, q, s.term, s.commit);
    forall v | v in q
      ensures HadSometime(run, k, v, s.term, s.log, s.commit)
    {
      assert HasAck(c.acks, s.term, v, s.commit);
      var ack :| ack in c.acks && ack.term == s.term && ack.server == v && ack.index >= s.commit;
      AckHeld(run, actions, k, ack);
      var m: nat :| m <= k && HadThen(run[m], v, s.term, s.log, ack.index);
      HadLess(run[m], v, s.term, s.log, ack.index, s.commit);
    }
    assert MatchedBy(run, k, q, s.term, s.log, s.commit);
  }
}
