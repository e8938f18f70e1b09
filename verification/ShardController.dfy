/**
 The shard controller (src/shardctrler/server.go) as a replicated state machine: a growing list of
 numbered configurations, changed by the committed requests one after the other.
 */
module ShardController {
  import opened Histories
  import opened ShardBalance
  import opened ShardMoves

  type Servers = map<Gid, seq<string>>

  datatype Config = Config(num: nat, shards: seq<Gid>, groups: Servers)

  datatype Request = Join(servers: Servers) | Leave(gids: seq<Gid>) | Move(shard: nat, gid: Gid) | Query(num: int)

  datatype Op = Op(request: Request, uid: nat, id: nat)

  /** `last` is lastRequestContext, less the answers that it keeps. */
  datatype State = State(configs: seq<Config>, last: map<nat, nat>)

  function Initial(shards: nat): State {
    State([Config(0, seq(shards, _ => 0), map[])], map[])
  }

  ghost function Joined(c: Config, servers: Servers): Config {
    Config(c.num + 1, After(c.shards, servers.Keys), c.groups + servers)
  }

  ghost function Without(c: Config, gids: seq<Gid>): Config {
    var groups := c.groups - Elems(gids);
    Config(c.num + 1, After(Vacated(c.shards, Elems(gids)), groups.Keys), groups)
  }

  function MovedTo(c: Config, shard: nat, gid: Gid): Config
    requires shard < |c.shards|
  {
    Config(c.num + 1, c.shards[shard := gid], c.groups)
  }

  function Latest(s: State): Config
    requires s.configs != []
  {
    s.configs[|s.configs| - 1]
  }

  /** Whether the request has been carried out before; queries are always answered afresh. */
  predicate IsDuplicate(s: State, op: Op) {
    op.uid in s.last && !op.request.Query? && s.last[op.uid] >= op.id
  }

  /** Requests that do not make the server run over the end of an array. */
  predicate InRange(s: State, op: Op)
    requires s.configs != []
  {
    match op.request
    case Move(shard, _) => shard < |Latest(s).shards|
    case Query(num) => num >= -1
    case _ => true
  }

  ghost function Changed(c: Config, r: Request): Config
    requires r.Move? ==> r.shard < |c.shards|
    requires !r.Query?
  {
    match r
    case Join(servers) => Joined(c, servers)
    case Leave(gids) => Without(c, gids)
    case Move(shard, gid) => MovedTo(c, shard, gid)
  }

  ghost function Applied(s: State, op: Op): (t: State)
    requires s.configs != [] && InRange(s, op)
    ensures s.configs <= t.configs
  {
    State(
      if IsDuplicate(s, op) || op.request.Query? then s.configs else s.configs + [Changed(Latest(s), op.request)],
      if (if op.uid in s.last then s.last[op.uid] else 0) < op.id then s.last[op.uid := op.id] else s.last)
  }

  function Answered(s: State, num: int): Config
    requires s.configs != [] && num >= -1
  {
    if num == -1 || num >= |s.configs| then Latest(s) else s.configs[num]
  }

  /** Configuration number i is the i-th. */
  ghost predicate Numbered(configs: seq<Config>) {
    forall i :: 0 <= i < |configs| ==> configs[i].num == i
  }

  // ----- The server -----

  class ShardCtrler {
    var configs: seq<Config>
    var lastRequest: map<nat, nat>

    ghost function Value(): State
      reads this
    {
      State(configs, lastRequest)
    }

    constructor (shards: nat)
      ensures Value() == Initial(shards)
    {
      configs := [Config(0, seq(shards, _ => 0), map[])];
      lastRequest := map[];
    }

    method CopyShards(c: Config) returns (shards: array<Gid>)
      ensures fresh(shards) && shards[..] == c.shards
    {
      shards := new Gid[|c.shards|](i requires 0 <= i < |c.shards| => c.shards[i]);
    }

    method AddServers(old': Servers, servers: Servers) returns (groups: Servers)
      ensures groups == old' + servers
    {
      groups := old';
      var rest := servers.Keys;
      while rest != {}
        invariant rest <= servers.Keys
        invariant groups.Keys == old'.Keys + (servers.Keys - rest)
        invariant forall g :: g in groups ==> groups[g] == if g in servers.Keys - rest then servers[g] else old'[g]
        decreases |rest|
      {
        var gid :| gid in rest;
        rest := rest - {gid};
        groups := groups[gid := servers[gid]];
      }
    }

    method DealJoin(servers: Servers)
      requires configs != []
      modifies `configs
      ensures configs == old(configs) + [Joined(old(Latest(Value())), servers)]
      ensures var c, d := old(Latest(Value())), Latest(Value());
        && d.num == c.num + 1
        && (forall g :: g in d.groups <==> g in c.groups || g in servers)
        && (forall g :: g in d.groups ==> d.groups[g] == if g in servers then servers[g] else c.groups[g])
    {
      var last := configs[|configs| - 1];
      var shards := CopyShards(last);
      Balance(shards, servers);
      var groups := AddServers(last.groups, servers);
      configs := configs + [Config(last.num + 1, shards[..], groups)];
    }

    method DropGroups(old': Servers, gids: seq<Gid>) returns (groups: Servers, gone: set<Gid>)
      ensures gone == Elems(gids) && groups == old' - gone
    {
      gone, groups := {}, old';
      for k := 0 to |gids|
        invariant gone == Elems(gids[..k]) && groups == old' - gone
      {
        assert gids[..k+1] == gids[..k] + [gids[k]];
        gone := gone + {gids[k]};
        groups := groups - {gids[k]};
      }
      assert gids[..|gids|] == gids;
    }

    method Vacate(shards: array<Gid>, gone: set<Gid>)
      modifies shards
      ensures shards[..] == Vacated(old(shards[..]), gone)
    {
      for shard := 0 to shards.Length
        invariant forall i :: 0 <= i < shard ==> shards[i] == if old(shards[i]) in gone then 0 else old(shards[i])
        invariant forall i :: shard <= i < shards.Length ==> shards[i] == old(shards[i])
      {
        if shards[shard] in gone {
          shards[shard] := 0;
        }
      }
    }

    method Redistribute(c: Config, gone: set<Gid>, groups: Servers) returns (r: seq<Gid>)
      ensures r == After(Vacated(c.shards, gone), groups.Keys)
    {
      var shards := CopyShards(c);
      Vacate(shards, gone);
      Balance(shards, groups);
      r := shards[..];
    }

    method DealLeave(gids: seq<Gid>)
      requires configs != []
      modifies `configs
      ensures configs == old(configs) + [Without(old(Latest(Value())), gids)]
      ensures var c, d := old(Latest(Value())), Latest(Value());
        && d.num == c.num + 1
        && (forall g :: g in d.groups <==> g in c.groups && g !in gids)
        && (forall g :: g in d.groups ==> d.groups[g] == c.groups[g])
    {
      var last := configs[|configs| - 1];
      var groups, gone := DropGroups(last.groups, gids);
      var shards := Redistribute(last, gone, groups);
      configs := configs + [Config(last.num + 1, shards, groups)];
    }

    method DealMove(shard: nat, gid: Gid)
      requires configs != [] && shard < |configs[|configs| - 1].shards|
      modifies `configs
      ensures configs == old(configs) + [MovedTo(old(Latest(Value())), shard, gid)]
      ensures var c, d := old(Latest(Value())), Latest(Value());
        && d.num == c.num + 1 && d.groups == c.groups && |d.shards| == |c.shards|
        && d.shards[shard] == gid && forall i :: 0 <= i < |c.shards| && i != shard ==> d.shards[i] == c.shards[i]
    {
      var last := configs[|configs| - 1];
      var shards := CopyShards(last);
      shards[shard] := gid;
      configs := configs + [Config(last.num + 1, shards[..], last.groups)];
    }

    /** The configuration that bears the number asked for, or the one with the largest number. */
    method DealQuery(num: int) returns (c: Config)
      requires configs != [] && num >= -1
      ensures c == Answered(Value(), num) && c in configs
      ensures Numbered(configs) && 0 <= num < |configs| ==> c.num == num
      ensures Numbered(configs) && !(0 <= num < |configs|) ==> forall d :: d in configs ==> d.num <= c.num
    {
      if num == -1 || num >= |configs| {
        return configs[|configs| - 1];
      }
      c := configs[num];
    }

    method FetchApply(op: Op) returns (answer: Option<Config>)
      requires configs != [] && InRange(Value(), op)
      modifies this
      ensures Value() == Applied(old(Value()), op)
      ensures answer == if op.request.Query? then Some(old(Answered(Value(), op.request.num))) else None
    {
      answer := None;
      if !(op.uid in lastRequest && !op.request.Query? && lastRequest[op.uid] >= op.id) {
        match op.request
        case Join(servers) => DealJoin(servers);
        case Leave(gids) => DealLeave(gids);
        case Move(shard, gid) => DealMove(shard, gid);
        case Query(num) =>
          var c := DealQuery(num);
          answer := Some(c);
      }
      if (if op.uid in lastRequest then lastRequest[op.uid] else 0) < op.id {
        lastRequest := lastRequest[op.uid := op.id];
      }
    }
  }

  // ----- Every configuration -----

  /** The shards have groups among these, or there are none. */
  ghost predicate Settled(shards: seq<Gid>, groups: set<Gid>) {
    && shards != [] && 0 !in groups
    && if groups == {} then forall i :: 0 <= i < |shards| ==> shards[i] == 0 else forall i :: 0 <= i < |shards| ==>
       shards[i] in groups
  }

  ghost predicate SettledLevel(shards: seq<Gid>, groups: set<Gid>) {
    Settled(shards, groups) && (groups != {} ==> Balanced(shards, groups))
  }

  /** Every shard belongs to a group of the configuration, or to nobody if there are no groups. */
  ghost predicate ConfigOk(c: Config) {
    Settled(c.shards, c.groups.Keys)
  }

  ghost predicate ConfigBalanced(c: Config) {
    SettledLevel(c.shards, c.groups.Keys)
  }

  /** Nobody to give anything to. */
  lemma NoGroups(shards: seq<Gid>)
    requires forall i :: 0 <= i < |shards| ==> shards[i] == 0
    ensures After(shards, {}) == shards
  {
    AfterIs(shards, {});
    var p := Begin(shards, {});
    forall g: Gid
      ensures g in p.lists ==> g == 0
    {
      BeginLength(shards, {}, g);
    }
    assert p.lists.Keys <= {0};
    SubsetSize(p.lists.Keys, {0});
  }

  lemma JoinSettles(shards: seq<Gid>, groups: set<Gid>, joined: set<Gid>)
    requires Settled(shards, groups) && 0 !in joined
    ensures |After(shards, joined)| == |shards| && Settled(After(shards, joined), groups + joined)
    ensures SettledLevel(shards, groups) ==> SettledLevel(After(shards, joined), groups + joined)
  {
    assert shards[0] in shards;
    if groups != {} {
      var active := set g | g in groups + joined && (g in shards || g in joined);
      assert forall g :: g in shards ==> g in groups;
      assert shards[0] in active;
      AfterBalanced(shards, joined, active);
      if Balanced(shards, groups) {
        JoinBalances(shards, groups, joined);
      }
    } else if joined != {} {
      assert groups + joined == joined;
      AfterBalanced(shards, joined, joined);
    } else {
      NoGroups(shards);
    }
  }

  lemma LeaveSettles(shards: seq<Gid>, groups: set<Gid>, gone: set<Gid>)
    requires Settled(shards, groups)
    ensures var after := After(Vacated(shards, gone), groups - gone);
      |after| == |shards| && SettledLevel(after, groups - gone)
  {
    var vacated := Vacated(shards, gone);
    if groups - gone == {} {
      assert forall g :: g in groups ==> g in gone by {
        assert forall g :: g in groups && g !in gone ==> g in groups - gone;
      }
      NoGroups(vacated);
    } else {
      AfterBalanced(vacated, groups - gone, groups - gone);
    }
  }

  lemma JoinOk(c: Config, servers: Servers)
    requires ConfigOk(c) && 0 !in servers
    ensures ConfigOk(Joined(c, servers)) && |Joined(c, servers).shards| == |c.shards|
    ensures ConfigBalanced(c) ==> ConfigBalanced(Joined(c, servers))
  {
    assert (c.groups + servers).Keys == c.groups.Keys + servers.Keys;
    JoinSettles(c.shards, c.groups.Keys, servers.Keys);
  }

  /** A Leave makes everything level, whatever Moves there were before. */
  lemma LeaveOk(c: Config, gids: seq<Gid>)
    requires ConfigOk(c)
    ensures ConfigBalanced(Without(c, gids)) && |Without(c, gids).shards| == |c.shards|
  {
    assert (c.groups - Elems(gids)).Keys == c.groups.Keys - Elems(gids);
    LeaveSettles(c.shards, c.groups.Keys, Elems(gids));
  }

  lemma MoveOk(c: Config, shard: nat, gid: Gid)
    requires ConfigOk(c) && shard < |c.shards| && gid in c.groups
    ensures ConfigOk(MovedTo(c, shard, gid))
  {
  }

  // ----- Every run -----

  /** A Move goes to a group there is, and nobody joins as group 0. */
  ghost predicate Legal(s: State, op: Op)
    requires s.configs != []
  {
    && InRange(s, op)
    && (IsDuplicate(s, op) || match op.request
        case Join(servers) => 0 !in servers
        case Move(_, gid) => gid in Latest(s).groups
        case _ => true)
  }

  ghost predicate LegalRun(s: State, log: seq<Op>)
    requires s.configs != []
    decreases log
  {
    log == [] || (Legal(s, log[0]) && LegalRun(Applied(s, log[0]), log[1..]))
  }

  ghost function Replay(s: State, log: seq<Op>): (t: State)
    requires s.configs != [] && LegalRun(s, log)
    ensures s.configs <= t.configs
    decreases log
  {
    if log == [] then s else Replay(Applied(s, log[0]), log[1..])
  }

  ghost predicate StateOk(s: State, shards: nat) {
    && s.configs != [] && Numbered(s.configs)
    && forall i :: 0 <= i < |s.configs| ==> |s.configs[i].shards| == shards && ConfigOk(s.configs[i])
  }

  ghost predicate AllBalanced(s: State) {
    forall i :: 0 <= i < |s.configs| ==> ConfigBalanced(s.configs[i])
  }

  lemma AppliedOk(s: State, op: Op, shards: nat)
    requires StateOk(s, shards) && Legal(s, op)
    ensures StateOk(Applied(s, op), shards)
    ensures AllBalanced(s) && !op.request.Move? ==> AllBalanced(Applied(s, op))
  {
    if !IsDuplicate(s, op) {
      var c := Latest(s);
      match op.request
      case Join(servers) => JoinOk(c, servers);
      case Leave(gids) => LeaveOk(c, gids);
      case Move(shard, gid) => MoveOk(c, shard, gid);
      case Query(_) =>
    }
  }

  /**
   In every run, configuration number i is the i-th, every shard has a group that is a member, and
   configurations once made stay as they are.
   */
  lemma {:induction false} RunOk(s: State, log: seq<Op>, shards: nat)
    requires StateOk(s, shards) && LegalRun(s, log)
    ensures StateOk(Replay(s, log), shards) && s.configs <= Replay(s, log).configs
    decreases log
  {
    if log != [] {
      AppliedOk(s, log[0], shards);
      RunOk(Applied(s, log[0]), log[1..], shards);
    }
  }

  lemma InitialOk(shards: nat)
    requires shards > 0
    ensures StateOk(Initial(shards), shards) && AllBalanced(Initial(shards))
  {
  }

  /** In every run of Joins, Leaves and Queries, every configuration is level over all its groups. */
  lemma {:induction false} RunBalanced(s: State, log: seq<Op>, shards: nat)
    requires StateOk(s, shards) && AllBalanced(s) && LegalRun(s, log)
    requires forall i :: 0 <= i < |log| ==> !log[i].request.Move?
    ensures AllBalanced(Replay(s, log))
    decreases log
  {
    if log != [] {
      AppliedOk(s, log[0], shards);
      RunBalanced(Applied(s, log[0]), log[1..], shards);
    }
  }

  // ----- What takes effect -----

  /** An earlier entry of the same clerk had that number or a larger one; clerks number from 1 on. */
  ghost predicate Repeats(log: seq<Op>, k: nat)
    requires k < |log|
  {
    exists q :: 0 <= q < k && log[q].uid == log[k].uid && log[q].id > 0 && log[q].id >= log[k].id
  }

  ghost predicate TakesEffect(log: seq<Op>, k: nat)
    requires k < |log|
  {
    !log[k].request.Query? && !Repeats(log, k)
  }

  /** The entries among the first `n` that take effect, in order. */
  ghost function Effects(log: seq<Op>, n: nat): (r: seq<nat>)
    requires n <= |log|
    ensures forall j :: 0 <= j < |r| ==> r[j] < n && TakesEffect(log, r[j])
    ensures forall i, j :: 0 <= i < j < |r| ==> r[i] < r[j]
    ensures forall k: nat :: k < n && TakesEffect(log, k) ==> k in r
  {
    if n == 0 then []
    else if TakesEffect(log, n - 1) then Effects(log, n - 1) + [n - 1]
    else Effects(log, n - 1)
  }

  /** What a controller holds after the first `n` entries. */
  ghost function StateAt(shards: nat, log: seq<Op>, n: nat): State
    requires LegalRun(Initial(shards), log) && n <= |log|
  {
    LegalPrefix(Initial(shards), log, n);
    Replay(Initial(shards), log[..n])
  }

  lemma {:induction false} LegalPrefix(s: State, log: seq<Op>, n: nat)
    requires s.configs != [] && LegalRun(s, log) && n <= |log|
    ensures LegalRun(s, log[..n])
    decreases n
  {
    if n > 0 {
      assert log[..n][0] == log[0] && log[..n][1..] == log[1..][..n-1];
      LegalPrefix(Applied(s, log[0]), log[1..], n - 1);
    }
  }

  lemma {:induction false} ReplaySnoc(s: State, log: seq<Op>, n: nat)
    requires s.configs != [] && LegalRun(s, log) && n < |log|
    ensures LegalRun(s, log[..n]) && LegalRun(s, log[..n+1]) && Legal(Replay(s, log[..n]), log[n])
    ensures Replay(s, log[..n+1]) == Applied(Replay(s, log[..n]), log[n])
    decreases n
  {
    LegalPrefix(s, log, n);
    LegalPrefix(s, log, n + 1);
    var x, y := log[..n], log[..n+1];
    assert y[0] == log[0] && y[1..] == log[1..][..n];
    if n == 0 {
      assert y[1..] == [] && x == [];
    } else {
      assert x[0] == log[0] && x[1..] == log[1..][..n-1];
      ReplaySnoc(Applied(s, log[0]), log[1..], n - 1);
    }
  }

  lemma StateStep(shards: nat, log: seq<Op>, n: nat)
    requires LegalRun(Initial(shards), log) && n < |log|
    ensures Legal(StateAt(shards, log, n), log[n])
    ensures StateAt(shards, log, n + 1) == Applied(StateAt(shards, log, n), log[n])
  {
    ReplaySnoc(Initial(shards), log, n);
  }

  /** The table holds the largest number of every clerk that has made a request. */
  lemma {:induction false} TableIsLargest(shards: nat, log: seq<Op>, n: nat, uid: nat)
    requires LegalRun(Initial(shards), log) && n <= |log|
    ensures var last := StateAt(shards, log, n).last;
      && (forall q :: 0 <= q < n && log[q].uid == uid && log[q].id > 0 ==> uid in last && log[q].id <= last[uid])
      && (uid in last ==> exists q :: 0 <= q < n && log[q].uid == uid && log[q].id == last[uid] > 0)
    decreases n
  {
    if n == 0 {
      assert log[..0] == [];
    } else {
      TableIsLargest(shards, log, n - 1, uid);
      StateStep(shards, log, n - 1);
      var last := StateAt(shards, log, n).last;
      if uid in last && last != StateAt(shards, log, n - 1).last && log[n-1].uid == uid {
        assert log[n-1].id == last[uid];
      }
    }
  }

  /** The server takes for a duplicate exactly what the log shows to be one. */
  lemma DuplicateIff(shards: nat, log: seq<Op>, n: nat)
    requires LegalRun(Initial(shards), log) && n < |log|
    ensures IsDuplicate(StateAt(shards, log, n), log[n]) <==> !log[n].request.Query? && Repeats(log, n)
  {
    TableIsLargest(shards, log, n, log[n].uid);
  }

  /** `configs` is what the requests with the given places make of the initial configuration, one after the other. */
  ghost predicate MadeBy(configs: seq<Config>, log: seq<Op>, places: seq<nat>)
    requires forall j :: 0 <= j < |places| ==> places[j] < |log| && !log[places[j]].request.Query?
  {
    && |configs| == |places| + 1
    && forall j :: 0 <= j < |places| ==> IsChange(configs[j], log[places[j]].request, configs[j+1])
  }

  ghost predicate IsChange(c: Config, r: Request, d: Config)
    requires !r.Query?
  {
    (r.Move? ==> r.shard < |c.shards|) && d == Changed(c, r)
  }

  /**
   In every run, the configurations are those made by the requests that take effect: every change that no
   earlier request of its clerk overtakes or repeats, in the order of the log, once each.
   */
  lemma {:induction false} ChangesTakeEffectOnce(shards: nat, log: seq<Op>, n: nat)
    requires LegalRun(Initial(shards), log) && n <= |log|
    ensures MadeBy(StateAt(shards, log, n).configs, log, Effects(log, n))
    decreases n
  {
    if n == 0 {
      assert log[..0] == [];
    } else {
      var s, places := StateAt(shards, log, n - 1), Effects(log, n - 1);
      ChangesTakeEffectOnce(shards, log, n - 1);
      StateStep(shards, log, n - 1);
      DuplicateIff(shards, log, n - 1);
      if TakesEffect(log, n - 1) {
        MadeByMore(s.configs, log, places, n - 1);
      }
    }
  }

  lemma MadeByMore(configs: seq<Config>, log: seq<Op>, places: seq<nat>, k: nat)
    requires forall j :: 0 <= j < |places| ==> places[j] < |log| && !log[places[j]].request.Query?
    requires MadeBy(configs, log, places) && k < |log| && !log[k].request.Query?
    requires var r := log[k].request; r.Move? ==> r.shard < |configs[|configs|-1].shards|
    ensures MadeBy(configs + [Changed(configs[|configs|-1], log[k].request)], log, places + [k])
  {
    var c, places' := configs[|configs|-1], places + [k];
    var d := Changed(c, log[k].request);
    var configs' := configs + [d];
    forall j | 0 <= j < |places'|
      ensures IsChange(configs'[j], log[places'[j]].request, configs'[j+1])
    {
      if j < |places| {
        assert IsChange(configs[j], log[places[j]].request, configs[j+1]);
      } else {
        assert IsChange(c, log[k].request, d);
      }
    }
  }

  /** No request takes effect twice. */
  lemma EffectsDiffer(log: seq<Op>, n: nat, i: nat, j: nat)
    requires n <= |log| && i < j < |Effects(log, n)| && log[Effects(log, n)[i]].id > 0
    ensures var p, q := Effects(log, n)[i], Effects(log, n)[j];
      log[p].uid == log[q].uid ==> log[p].id < log[q].id
  {
    var q := Effects(log, n)[j];
    assert !Repeats(log, q);
  }

  /** After a Move that takes effect, that shard belongs to that group, and the others to whom they did. */
  lemma MoveTakesEffect(shards: nat, log: seq<Op>, n: nat)
    requires shards > 0 && LegalRun(Initial(shards), log) && n < |log| && log[n].request.Move? && TakesEffect(log, n)
    ensures var c, d := Latest(StateAt(shards, log, n)), Latest(StateAt(shards, log, n + 1));
      var r := log[n].request;
      && |c.shards| == |d.shards| == shards && r.shard < shards && d.shards[r.shard] == r.gid
      && (forall i :: 0 <= i < shards && i != r.shard ==> d.shards[i] == c.shards[i])
      && d.num == c.num + 1 && d.groups == c.groups
  {
    StateStep(shards, log, n);
    DuplicateIff(shards, log, n);
    assert StateOk(StateAt(shards, log, n), shards) by {
      InitialOk(shards);
      LegalPrefix(Initial(shards), log, n);
      RunOk(Initial(shards), log[..n], shards);
    }
  }
}
