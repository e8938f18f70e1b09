/**
 What the rebalancer achieves: counts within one, moves from old groups to new ones only when
 groups join, as few of them as possible, and on a Leave nobody but the leaving groups and the
 smallest remaining one gives anything away.
 */
module ShardMoves {
  import opened Histories
  import opened ShardBalance

  ghost function Owned(shards: seq<Gid>, g: Gid): set<nat> {
    set i: nat | i < |shards| && shards[i] == g
  }

  ghost function Count(shards: seq<Gid>, g: Gid): nat {
    |Owned(shards, g)|
  }

  /** Every shard has one of the groups, and no group has two more than another. */
  ghost predicate Balanced(shards: seq<Gid>, groups: set<Gid>) {
    && (forall i :: 0 <= i < |shards| ==> shards[i] in groups)
    && (forall g, h :: g in groups && h in groups ==> Count(shards, g) <= Count(shards, h) + 1)
  }

  lemma CountIsLength(p: Plan, g: Gid)
    requires Tidy(p) && g in p.lists
    ensures Count(p.shards, g) == |p.lists[g]|
  {
    assert Owns(p.shards, g, p.lists[g]);
    assert Owned(p.shards, g) == Elems(p.lists[g]);
    ElemsSize(p.lists[g]);
  }

  // ----- The result is level -----

  ghost predicate Even(m: Lists) {
    forall g, h :: g in m && h in m && g != 0 && h != 0 ==> |m[g]| <= |m[h]| + 1
  }

  lemma StopsEven(m: Lists)
    requires Groups(m) && !Uneven(m)
    ensures Even(m)
  {
    UnevenBy(m);
    var lo, hi := Emptiest(m), Fullest(m);
    forall g, h | g in m && h in m && g != 0 && h != 0
      ensures |m[g]| <= |m[h]| + 1
    {
      assert Fuller(m, hi, g) && Emptier(m, lo, h);
    }
  }

  lemma {:induction false} LevelledOk(p: Plan)
    requires Tidy(p) && Groups(p.lists)
    ensures Tidy(Levelled(p)) && Even(Levelled(p).lists) && |Levelled(p).shards| == |p.shards|
    ensures 0 in p.lists ==> Levelled(p).lists[0] == p.lists[0]
    decreases Squares(p.lists.Keys, p.lists)
  {
    if Uneven(p.lists) {
      ShiftedTidy(p);
      ShiftShrinks(p);
      LevelledOk(Shifted(p));
    } else {
      StopsEven(p.lists);
    }
  }

  lemma EvenIsBalanced(p: Plan)
    requires Tidy(p) && Even(p.lists) && (0 in p.lists ==> p.lists[0] == [])
    ensures Balanced(p.shards, p.lists.Keys - {0})
  {
    forall g, h | g in p.lists.Keys - {0} && h in p.lists.Keys - {0}
      ensures Count(p.shards, g) <= Count(p.shards, h) + 1
    {
      CountIsLength(p, g);
      CountIsLength(p, h);
    }
  }

  /** If there is any group to be had, every shard gets one, and the groups are level. */
  lemma OutcomeBalanced(shards: seq<Gid>, groups: set<Gid>)
    requires exists g :: g != 0 && (g in shards || g in groups)
    ensures |Outcome(shards, groups).shards| == |shards|
    ensures Balanced(Outcome(shards, groups).shards, Outcome(shards, groups).lists.Keys - {0})
    ensures forall g :: g in Outcome(shards, groups).lists <==> g in shards || g in groups
  {
    var p := Plan(shards, WithGroups(ListsUpTo(shards, |shards|), groups));
    StartTidy(shards, groups);
    forall g: Gid
      ensures g in p.lists <==> g in shards || g in groups
    {
      StartKeys(shards, groups, g);
    }
    if |p.lists| <= 1 {
      var g :| g != 0 && (g in shards || g in groups);
      OneKey(p.lists, g);
      EvenIsBalanced(p);
    } else {
      ManyKeys(p.lists);
      PlacedTidy(p);
      LevelledOk(Placed(p));
      EvenIsBalanced(Levelled(Placed(p)));
    }
  }

  lemma AfterBalanced(shards: seq<Gid>, groups: set<Gid>, all: set<Gid>)
    requires all != {} && forall g :: g in all <==> g != 0 && (g in shards || g in groups)
    ensures |After(shards, groups)| == |shards| && Balanced(After(shards, groups), all)
  {
    var g :| g in all;
    AfterIs(shards, groups);
    OutcomeBalanced(shards, groups);
    assert Outcome(shards, groups).lists.Keys - {0} == all;
  }

  lemma OneKey(m: Lists, g: Gid)
    requires g in m && |m| <= 1
    ensures m.Keys == {g}
  {
    assert |m.Keys - {g}| == |m.Keys| - 1;
  }

  // ----- Join -----

  /** Old groups are level, so are new ones, and no new one has more than an old one. */
  ghost predicate JoinEven(m: Lists, joined: set<Gid>) {
    forall g, h :: g in m && h in m && (h in joined ==> g in joined) ==>
      |m[g]| <= |m[h]| + if g in joined && h !in joined then 0 else 1
  }

  ghost predicate OnlyToNew(shards: seq<Gid>, before: seq<Gid>, joined: set<Gid>) {
    && |shards| == |before|
    && forall i :: 0 <= i < |before| ==> before[i] !in joined && (shards[i] == before[i] || shards[i] in joined)
  }

  ghost predicate Joining(p: Plan, before: seq<Gid>, joined: set<Gid>) {
    && Tidy(p) && Groups(p.lists) && 0 !in p.lists
    && OnlyToNew(p.shards, before, joined) && JoinEven(p.lists, joined)
  }

  /** When there is something to level, it is an old group that gives and a new one that takes. */
  lemma OldGivesNewTakes(m: Lists, joined: set<Gid>)
    requires Groups(m) && Uneven(m) && JoinEven(m, joined)
    ensures Emptiest(m) in joined && Fullest(m) !in joined
    ensures forall g :: g in m && g in joined ==> |m[g]| <= |m[Emptiest(m)]| + 1
    ensures forall g :: g in m && g !in joined ==> |m[g]| + 1 >= |m[Fullest(m)]|
  {
    UnevenBy(m);
  }

  lemma ShiftJoinEven(m: Lists, m': Lists, joined: set<Gid>, lo: Gid, hi: Gid)
    requires JoinEven(m, joined) && lo in m && hi in m && lo in joined && hi !in joined && |m[lo]| + 2 <= |m[hi]|
    requires forall g :: g in m && g in joined ==> |m[lo]| <= |m[g]| <= |m[lo]| + 1
    requires forall g :: g in m && g !in joined ==> |m[hi]| - 1 <= |m[g]| <= |m[hi]|
    requires m'.Keys == m.Keys && |m'[lo]| == |m[lo]| + 1 && |m'[hi]| == |m[hi]| - 1
    requires forall g :: g in m && g != lo && g != hi ==> m'[g] == m[g]
    ensures JoinEven(m', joined)
  {
  }

  lemma JoinShift(p: Plan, before: seq<Gid>, joined: set<Gid>)
    requires Joining(p, before, joined) && Uneven(p.lists)
    ensures Joining(Shifted(p), before, joined)
  {
    UnevenBy(p.lists);
    ShiftedTidy(p);
    OldGivesNewTakes(p.lists, joined);
    var lo, hi := Emptiest(p.lists), Fullest(p.lists);
    assert forall g :: g in p.lists ==> Fuller(p.lists, hi, g) && Emptier(p.lists, lo, g);
    ShiftJoinEven(p.lists, Shifted(p).lists, joined, lo, hi);
  }

  lemma {:induction false} JoinLevels(p: Plan, before: seq<Gid>, joined: set<Gid>)
    requires Joining(p, before, joined)
    ensures Joining(Levelled(p), before, joined)
    decreases Squares(p.lists.Keys, p.lists)
  {
    if Uneven(p.lists) {
      JoinShift(p, before, joined);
      ShiftShrinks(p);
      JoinLevels(Shifted(p), before, joined);
    }
  }

  // ----- Leave -----

  /** While levelling after a Leave: everybody but `next` is level, and `next` is not behind. */
  ghost predicate Leaving(p: Plan, before: seq<Gid>, gone: set<Gid>, next: Gid) {
    && Tidy(p) && Groups(p.lists) && next in p.lists && next != 0 && |p.shards| == |before|
    && (forall i :: 0 <= i < |before| ==> p.shards[i] == before[i] || before[i] in gone || before[i] == next)
    && (forall g, h :: g in p.lists && h in p.lists && g != 0 && h != 0 && g != next ==>
         |p.lists[g]| <= |p.lists[h]| + 1)
  }

  lemma LeaveShift(p: Plan, before: seq<Gid>, gone: set<Gid>, next: Gid)
    requires Leaving(p, before, gone, next) && Uneven(p.lists)
    ensures Leaving(Shifted(p), before, gone, next) && Fullest(p.lists) == next
  {
    UnevenBy(p.lists);
    ShiftedTidy(p);
    var lo, hi := Emptiest(p.lists), Fullest(p.lists);
    assert hi == next;
    assert forall g :: g in p.lists && g != 0 ==> Emptier(p.lists, lo, g);
    var x := p.lists[hi][0];
    assert Owns(p.shards, hi, p.lists[hi]) && x in p.lists[hi];
  }

  lemma {:induction false} LeaveLevels(p: Plan, before: seq<Gid>, gone: set<Gid>, next: Gid)
    requires Leaving(p, before, gone, next)
    ensures Leaving(Levelled(p), before, gone, next)
    decreases Squares(p.lists.Keys, p.lists)
  {
    if Uneven(p.lists) {
      LeaveShift(p, before, gone, next);
      ShiftShrinks(p);
      LeaveLevels(Shifted(p), before, gone, next);
    }
  }

  // ----- Results -----

  /** The plan that balance works on. */
  ghost function Begin(shards: seq<Gid>, groups: set<Gid>): Plan {
    Plan(shards, WithGroups(ListsUpTo(shards, |shards|), groups))
  }

  lemma BeginLength(shards: seq<Gid>, groups: set<Gid>, g: Gid)
    ensures Tidy(Begin(shards, groups)) && (g in Begin(shards, groups).lists <==> g in shards || g in groups)
    ensures g in Begin(shards, groups).lists ==> |Begin(shards, groups).lists[g]| == Count(shards, g)
    ensures g !in shards ==> Count(shards, g) == 0
  {
    StartTidy(shards, groups);
    StartKeys(shards, groups, g);
    if g in Begin(shards, groups).lists {
      CountIsLength(Begin(shards, groups), g);
    }
    if g !in shards {
      assert Owned(shards, g) == {};
    }
  }

  /** A configuration to which new groups are added. */
  ghost predicate CanJoin(before: seq<Gid>, groups: set<Gid>, joined: set<Gid>) {
    before != [] && Balanced(before, groups) && 0 !in groups && 0 !in joined && groups !! joined
  }

  lemma JoinBegins(before: seq<Gid>, groups: set<Gid>, joined: set<Gid>)
    requires CanJoin(before, groups, joined)
    ensures Joining(Begin(before, joined), before, joined)
  {
    var p := Begin(before, joined);
    StartTidy(before, joined);
    assert before[0] in groups && before[0] in before;
    forall g: Gid
      ensures g in p.lists <==> g in before || g in joined
      ensures g in p.lists ==> |p.lists[g]| == Count(before, g)
      ensures g in joined ==> g !in before && Count(before, g) == 0
    {
      BeginLength(before, joined, g);
    }
    assert forall g :: g in before ==> g in groups;
    forall g, h | g in p.lists && h in p.lists && (h in joined ==> g in joined)
      ensures |p.lists[g]| <= |p.lists[h]| + if g in joined && h !in joined then 0 else 1
    {
      assert g !in joined ==> Count(before, g) <= Count(before, h) + 1;
    }
  }

  lemma JoinEnds(before: seq<Gid>, groups: set<Gid>, joined: set<Gid>)
    requires CanJoin(before, groups, joined)
    ensures Joining(Outcome(before, joined), before, joined)
  {
    JoinBegins(before, groups, joined);
    var p := Begin(before, joined);
    if |p.lists| > 1 {
      JoinLevels(p, before, joined);
    }
  }

  /** With a group that has nothing, nobody has more than one shard, and nothing is moved. */
  lemma IdleGroup(before: seq<Gid>, groups: set<Gid>, joined: set<Gid>, idle: Gid)
    requires before != [] && Balanced(before, groups) && 0 !in groups && idle in groups && idle !in before
    ensures After(before, joined) == before && Balanced(before, groups + joined)
    ensures forall g :: g in joined && g !in groups ==> Count(before, g) == 0
  {
    var p := Begin(before, joined);
    AfterIs(before, joined);
    BeginLength(before, joined, idle);
    forall g: Gid
      ensures g in groups + joined ==> Count(before, g) <= 1
      ensures g in joined && g !in groups ==> Count(before, g) == 0
      ensures g in p.lists ==> |p.lists[g]| <= 1
      ensures 0 !in before
    {
      BeginLength(before, joined, g);
      assert g in groups ==> Count(before, g) <= Count(before, idle) + 1;
      assert g in before ==> g in groups;
    }
    assert before[0] in before && before[0] != 0;
    BeginLength(before, joined, before[0]);
    BeginLength(before, joined, 0);
    if |p.lists| > 1 {
      PlacedStops(p);
    }
  }

  lemma OwnsNothing(shards: seq<Gid>, g: Gid, list: seq<nat>)
    requires Owns(shards, g, list)
    ensures list != [] ==> g in shards
  {
    if list != [] {
      assert list[0] in list && shards[list[0]] == g;
    }
  }

  lemma PlacedStops(p: Plan)
    requires Tidy(p) && Groups(p.lists) && 0 !in p.shards && forall g :: g in p.lists ==> |p.lists[g]| <= 1
    ensures Levelled(Placed(p)).shards == p.shards
  {
    var q := Placed(p);
    if 0 in p.lists {
      assert Owns(p.shards, 0, p.lists[0]);
      OwnsNothing(p.shards, 0, p.lists[0]);
    }
    assert q.shards == p.shards;
    UnevenBy(q.lists);
  }

  /** When every old group has something, none is forgotten. */
  lemma AllActive(before: seq<Gid>, groups: set<Gid>, joined: set<Gid>)
    requires before != [] && Balanced(before, groups) && 0 !in groups && 0 !in joined && forall g :: g in groups ==>
      g in before
    ensures |After(before, joined)| == |before| && Balanced(After(before, joined), groups + joined)
    ensures forall g :: g in groups + joined ==> g in Outcome(before, joined).lists
  {
    assert before[0] in groups;
    assert forall g :: g in before ==> g in groups;
    AfterBalanced(before, joined, groups + joined);
    OutcomeBalanced(before, joined);
  }

  /**
   Join: shards go from old groups to new ones only, all groups are level afterwards, and no
   new group has more than an old one.
   */
  lemma JoinResult(before: seq<Gid>, groups: set<Gid>, joined: set<Gid>)
    requires CanJoin(before, groups, joined)
    ensures var after := After(before, joined);
      && OnlyToNew(after, before, joined) && Balanced(after, groups + joined)
      && forall g, h :: g in joined && h in groups ==> Count(after, g) <= Count(after, h)
  {
    var q := Outcome(before, joined);
    AfterIs(before, joined);
    JoinEnds(before, groups, joined);
    if idle :| idle in groups && idle !in before {
      IdleGroup(before, groups, joined, idle);
    } else {
      AllActive(before, groups, joined);
      forall g, h | g in joined && h in groups
        ensures Count(q.shards, g) <= Count(q.shards, h)
      {
        CountIsLength(q, g);
        CountIsLength(q, h);
      }
    }
  }

  ghost predicate Ascending(list: seq<nat>) {
    forall i, j :: 0 <= i < j < |list| ==> list[i] < list[j]
  }

  lemma {:induction false} ListsAscend(shards: seq<Gid>, n: nat, g: Gid)
    requires n <= |shards| && g in ListsUpTo(shards, n)
    ensures Ascending(ListsUpTo(shards, n)[g]) && forall i :: i in ListsUpTo(shards, n)[g] ==> i < n
    decreases n
  {
    if n > 0 && g in ListsUpTo(shards, n - 1) {
      ListsAscend(shards, n - 1, g);
      var list := ListsUpTo(shards, n - 1)[g];
      assert forall k :: 0 <= k < |list| ==> list[k] in list;
    }
  }

  /** Nobody has given a shard and kept one with a smaller number, and lists begin with the smallest. */
  ghost predicate FirstGoFirst(p: Plan, before: seq<Gid>, joined: set<Gid>) {
    && |p.shards| == |before|
    && (forall g :: g in p.lists && g !in joined ==> Ascending(p.lists[g]))
    && (forall i, j :: 0 <= i < j < |before| && before[i] == before[j] && p.shards[j] != before[j] ==>
         p.shards[i] != before[i])
  }

  /** Of old groups with equally many shards the smaller gives first, of new ones the smaller takes first. */
  ghost predicate SmallFirst(m: Lists, m0: Lists, joined: set<Gid>) {
    && m.Keys == m0.Keys
    && (forall g, h :: g in m && h in m && g < h && g !in joined && h !in joined && |m0[g]| <= |m0[h]| ==>
         |m[g]| <= |m[h]|)
    && (forall g, h :: g in m && h in m && g < h && g in joined && h in joined ==> |m[g]| >= |m[h]|)
  }

  lemma ShiftFirst(p: Plan, before: seq<Gid>, joined: set<Gid>)
    requires Joining(p, before, joined) && Uneven(p.lists) && FirstGoFirst(p, before, joined)
    ensures FirstGoFirst(Shifted(p), before, joined)
  {
    UnevenBy(p.lists);
    OldGivesNewTakes(p.lists, joined);
    var lo, hi, q := Emptiest(p.lists), Fullest(p.lists), Shifted(p);
    var list := p.lists[hi];
    var x := list[0];
    assert Owns(p.shards, hi, list) && x in list;
    assert forall k :: 0 <= k < |list| ==> x <= list[k];
    assert forall i: nat :: i < x && i < |before| && before[i] == hi ==> p.shards[i] != hi;
  }

  lemma ShiftSmall(p: Plan, before: seq<Gid>, m0: Lists, joined: set<Gid>)
    requires Joining(p, before, joined) && Uneven(p.lists) && SmallFirst(p.lists, m0, joined)
    ensures SmallFirst(Shifted(p).lists, m0, joined)
  {
    UnevenBy(p.lists);
    OldGivesNewTakes(p.lists, joined);
    var lo, hi, m := Emptiest(p.lists), Fullest(p.lists), Shifted(p).lists;
    assert forall g :: g in p.lists ==> Fuller(p.lists, hi, g) && Emptier(p.lists, lo, g);
    SmallStays(p.lists, m, m0, joined, lo, hi);
  }

  lemma SmallStays(m: Lists, m': Lists, m0: Lists, joined: set<Gid>, lo: Gid, hi: Gid)
    requires SmallFirst(m, m0, joined) && lo in m && hi in m && lo in joined && hi !in joined
    requires forall g :: g in m ==> Fuller(m, hi, g) && Emptier(m, lo, g)
    requires m'.Keys == m.Keys && |m'[lo]| == |m[lo]| + 1 && |m'[hi]| == |m[hi]| - 1
    requires forall g :: g in m && g != lo && g != hi ==> m'[g] == m[g]
    ensures SmallFirst(m', m0, joined)
  {
  }

  lemma {:induction false} JoinInOrder(p: Plan, before: seq<Gid>, m0: Lists, joined: set<Gid>)
    requires Joining(p, before, joined) && FirstGoFirst(p, before, joined) && SmallFirst(p.lists, m0, joined)
    ensures FirstGoFirst(Levelled(p), before, joined) && SmallFirst(Levelled(p).lists, m0, joined)
    decreases Squares(p.lists.Keys, p.lists)
  {
    if Uneven(p.lists) {
      ShiftFirst(p, before, joined);
      ShiftSmall(p, before, m0, joined);
      JoinShift(p, before, joined);
      ShiftShrinks(p);
      JoinInOrder(Shifted(p), before, m0, joined);
    }
  }

  lemma BeginsInOrder(before: seq<Gid>, groups: set<Gid>, joined: set<Gid>)
    requires CanJoin(before, groups, joined)
    ensures FirstGoFirst(Begin(before, joined), before, joined)
    ensures SmallFirst(Begin(before, joined).lists, Begin(before, joined).lists, joined)
  {
    var p := Begin(before, joined);
    forall g | g in p.lists
      ensures Ascending(p.lists[g]) && (g in joined ==> |p.lists[g]| == 0)
    {
      if g in ListsUpTo(before, |before|) {
        ListsAscend(before, |before|, g);
      }
      BeginLength(before, joined, g);
      assert g in before ==> g in groups;
    }
  }

  /**
   Which shards move in a Join: of every old group those with the smallest numbers.  Which groups are left with
   fewer: of old groups that had equally many, or fewer, the smaller ones; and of new groups the larger ones.
   */
  lemma JoinOrder(before: seq<Gid>, groups: set<Gid>, joined: set<Gid>)
    requires CanJoin(before, groups, joined)
    ensures var after := After(before, joined);
      && |after| == |before|
      && (forall i, j :: 0 <= i < j < |before| && before[i] == before[j] && after[j] != before[j] ==>
           after[i] != before[i])
      && (forall g, h :: g in before && h in before && g < h && Count(before, g) <= Count(before, h) ==>
           Count(after, g) <= Count(after, h))
      && (forall g, h :: g in joined && h in joined && g < h ==> Count(after, g) >= Count(after, h))
  {
    var p, q := Begin(before, joined), Outcome(before, joined);
    AfterIs(before, joined);
    EndsInOrder(before, groups, joined);
    assert forall g :: g in before ==> g in groups;
    forall g: Gid
      ensures g in before || g in joined ==> g in p.lists && g in q.lists
      ensures g in p.lists && g in q.lists ==> |p.lists[g]| == Count(before, g) && |q.lists[g]| == Count(q.shards, g)
    {
      EndLength(before, groups, joined, g);
    }
  }

  lemma EndLength(before: seq<Gid>, groups: set<Gid>, joined: set<Gid>, g: Gid)
    requires CanJoin(before, groups, joined)
    ensures var p, q := Begin(before, joined).lists, Outcome(before, joined);
      && p.Keys == q.lists.Keys && (g in p <==> g in before || g in joined)
      && (g in p ==> |p[g]| == Count(before, g) && |q.lists[g]| == Count(q.shards, g))
  {
    BeginLength(before, joined, g);
    JoinEnds(before, groups, joined);
    if g in Begin(before, joined).lists {
      CountIsLength(Outcome(before, joined), g);
    }
  }

  lemma EndsInOrder(before: seq<Gid>, groups: set<Gid>, joined: set<Gid>)
    requires CanJoin(before, groups, joined)
    ensures FirstGoFirst(Outcome(before, joined), before, joined)
    ensures SmallFirst(Outcome(before, joined).lists, Begin(before, joined).lists, joined)
  {
    var p := Begin(before, joined);
    JoinBegins(before, groups, joined);
    BeginsInOrder(before, groups, joined);
    if |p.lists| > 1 {
      JoinInOrder(p, before, p.lists, joined);
    }
  }

  /** Join keeps all groups level, also when some of the groups were there before. */
  lemma JoinBalances(before: seq<Gid>, groups: set<Gid>, joined: set<Gid>)
    requires before != [] && Balanced(before, groups) && 0 !in groups && 0 !in joined
    ensures |After(before, joined)| == |before| && Balanced(After(before, joined), groups + joined)
  {
    if idle :| idle in groups && idle !in before {
      IdleGroup(before, groups, joined, idle);
    } else {
      AllActive(before, groups, joined);
    }
  }

  ghost function Moved(before: seq<Gid>, after: seq<Gid>): set<nat> {
    set i: nat | i < |before| && i < |after| && before[i] != after[i]
  }

  ghost function InTo(shards: seq<Gid>, groups: set<Gid>): set<nat> {
    set i: nat | i < |shards| && shards[i] in groups
  }

  /** What more is owned group by group is more altogether. */
  lemma {:induction false} MoreEach(a: seq<Gid>, b: seq<Gid>, groups: set<Gid>)
    requires forall g :: g in groups ==> Count(a, g) <= Count(b, g)
    ensures |InTo(a, groups)| <= |InTo(b, groups)|
    decreases groups
  {
    if groups == {} {
      assert InTo(a, groups) == {};
    } else {
      var g :| g in groups;
      MoreEach(a, b, groups - {g});
      InToSplit(a, groups, g);
      InToSplit(b, groups, g);
    }
  }

  lemma InToSplit(a: seq<Gid>, groups: set<Gid>, g: Gid)
    requires g in groups
    ensures |InTo(a, groups)| == |InTo(a, groups - {g})| + Count(a, g)
  {
    assert InTo(a, groups) == InTo(a, groups - {g}) + Owned(a, g) && InTo(a, groups - {g}) !! Owned(a, g);
  }

  lemma AllAccounted(shards: seq<Gid>, x: set<Gid>, y: set<Gid>)
    requires x !! y && forall i :: 0 <= i < |shards| ==> shards[i] in x + y
    ensures |InTo(shards, x)| + |InTo(shards, y)| == |shards|
  {
    assert InTo(shards, x) + InTo(shards, y) == Below(|shards|) && InTo(shards, x) !! InTo(shards, y);
  }

  /** Any other way to make all groups level moves at least as many shards. */
  lemma JoinIsMinimal(before: seq<Gid>, groups: set<Gid>, joined: set<Gid>, other: seq<Gid>)
    requires CanJoin(before, groups, joined) && |other| == |before| && Balanced(other, groups + joined)
    ensures |Moved(before, After(before, joined))| <= |Moved(before, other)|
  {
    JoinResult(before, groups, joined);
    var after := After(before, joined);
    NewGetLess(after, other, groups, joined);
    assert Moved(before, after) == InTo(after, joined);
    assert InTo(other, joined) <= Moved(before, other);
    SubsetSize(InTo(other, joined), Moved(before, other));
  }

  lemma NewGetLess(a: seq<Gid>, b: seq<Gid>, groups: set<Gid>, joined: set<Gid>)
    requires |a| == |b| && groups !! joined && Balanced(a, groups + joined) && Balanced(b, groups + joined)
    requires forall g, h :: g in joined && h in groups ==> Count(a, g) <= Count(a, h)
    ensures |InTo(a, joined)| <= |InTo(b, joined)|
  {
    if g :| g in joined && Count(a, g) > Count(b, g) {
      forall h | h in groups
        ensures Count(b, h) <= Count(a, h)
      {
        assert Count(b, h) <= Count(b, g) + 1 <= Count(a, g) <= Count(a, h);
      }
      MoreEach(b, a, groups);
      AllAccounted(a, groups, joined);
      AllAccounted(b, groups, joined);
    } else {
      MoreEach(a, b, joined);
    }
  }

  function Vacated(before: seq<Gid>, gone: set<Gid>): seq<Gid> {
    seq(|before|, i requires 0 <= i < |before| => if before[i] in gone then 0 else before[i])
  }

  lemma LeaveBegins(before: seq<Gid>, groups: set<Gid>, gone: set<Gid>, next: Gid)
    requires Balanced(before, groups) && 0 !in groups && next in groups - gone && forall g :: g in groups - gone ==>
      next <= g
    ensures var p := Begin(Vacated(before, gone), groups - gone);
      && Tidy(p) && Groups(p.lists) && Next(p.lists) == next && p.lists.Keys - {0} == groups - gone
      && forall g :: g in groups - gone ==> |p.lists[g]| == Count(before, g)
  {
    var vacated := Vacated(before, gone);
    var p := Begin(vacated, groups - gone);
    forall g: Gid
      ensures Tidy(p) && (g in p.lists && g != 0 <==> g in groups - gone)
      ensures g in groups - gone ==> |p.lists[g]| == Count(before, g)
    {
      LeaveBeginsFor(before, groups, gone, g);
    }
    assert next in p.lists && next != 0;
    assert IsNext(p.lists, next);
  }

  lemma LeaveBeginsFor(before: seq<Gid>, groups: set<Gid>, gone: set<Gid>, g: Gid)
    requires Balanced(before, groups) && 0 !in groups
    ensures var p := Begin(Vacated(before, gone), groups - gone);
      && Tidy(p) && (g in p.lists && g != 0 <==> g in groups - gone)
      && (g in groups - gone ==> |p.lists[g]| == Count(before, g))
  {
    var vacated := Vacated(before, gone);
    BeginLength(vacated, groups - gone, g);
    assert g in vacated ==> g == 0 || g in groups - gone;
    if g in groups - gone {
      assert Owned(vacated, g) == Owned(before, g);
    }
  }

  lemma LeavePlaced(before: seq<Gid>, groups: set<Gid>, gone: set<Gid>, next: Gid)
    requires Balanced(before, groups) && 0 !in groups && next in groups - gone && forall g :: g in groups - gone ==>
      next <= g
    requires Groups(Begin(Vacated(before, gone), groups - gone).lists)
    ensures Leaving(Placed(Begin(Vacated(before, gone), groups - gone)), before, gone, next)
  {
    var p := Begin(Vacated(before, gone), groups - gone);
    LeaveBegins(before, groups, gone, next);
    PlacedTidy(p);
    var q := Placed(p);
    assert forall g :: g in q.lists && g != 0 ==> g in p.lists.Keys - {0};
    forall g, h | g in q.lists && h in q.lists && g != 0 && h != 0 && g != next
      ensures |q.lists[g]| <= |q.lists[h]| + 1
    {
      assert |q.lists[g]| == Count(before, g) <= Count(before, h) + 1;
    }
  }

  /**
   Leave: the remaining groups are level afterwards, and a shard that has moved belonged to a
   leaving group or to the smallest remaining one.
   */
  lemma LeaveResult(before: seq<Gid>, groups: set<Gid>, gone: set<Gid>, next: Gid)
    requires Balanced(before, groups) && 0 !in groups && next in groups - gone && forall g :: g in groups - gone ==>
      next <= g
    ensures var after := After(Vacated(before, gone), groups - gone);
      && |after| == |before| && Balanced(after, groups - gone)
      && forall i :: 0 <= i < |before| && after[i] != before[i] ==> before[i] in gone || before[i] == next
  {
    var vacated := Vacated(before, gone);
    var p := Begin(vacated, groups - gone);
    LeaveBegins(before, groups, gone, next);
    AfterIs(vacated, groups - gone);
    AfterBalanced(vacated, groups - gone, groups - gone);
    if |p.lists| > 1 {
      LeavePlaced(before, groups, gone, next);
      LeaveLevels(Placed(p), before, gone, next);
    }
  }
}
