/**
 What the rebalancer does not always achieve, and exactly when it does.  A Join hands only the new
 groups to balance, so after Moves it may overlook groups that own nothing; and a Leave may
 move more shards than it has to, because the smallest group gives away its own shards first.
 */
module ShardLimits {
  import opened Histories
  import opened ShardBalance
  import opened ShardMoves

  // ----- Join after Moves -----

  lemma {:induction false} AtMostOneEach(shards: seq<Gid>, groups: set<Gid>)
    requires forall g :: g in groups ==> Count(shards, g) <= 1
    ensures |InTo(shards, groups)| <= |groups|
    decreases groups
  {
    if groups == {} {
      assert InTo(shards, groups) == {};
    } else {
      var g :| g in groups;
      AtMostOneEach(shards, groups - {g});
      InToSplit(shards, groups, g);
    }
  }

  lemma {:induction false} AtLeastOneEach(shards: seq<Gid>, groups: set<Gid>)
    requires forall g :: g in groups ==> Count(shards, g) >= 1
    ensures |InTo(shards, groups)| >= |groups|
    decreases groups
  {
    if groups != {} {
      var g :| g in groups;
      AtLeastOneEach(shards, groups - {g});
      InToSplit(shards, groups, g);
    }
  }

  lemma AllIn(shards: seq<Gid>, groups: set<Gid>)
    requires forall i :: 0 <= i < |shards| ==> shards[i] in groups
    ensures |InTo(shards, groups)| == |shards|
  {
    assert InTo(shards, groups) == Below(|shards|);
  }

  /** Level with at most one shard each: exactly if there are not more shards than groups. */
  lemma OneEach(shards: seq<Gid>, groups: set<Gid>)
    requires Balanced(shards, groups)
    ensures (forall g :: g in groups ==> Count(shards, g) <= 1) <==> |shards| <= |groups|
  {
    AllIn(shards, groups);
    if g :| g in groups && Count(shards, g) >= 2 {
      forall h | h in groups - {g}
        ensures Count(shards, h) >= 1
      {
        assert Count(shards, g) <= Count(shards, h) + 1;
      }
      AtLeastOneEach(shards, groups - {g});
      InToSplit(shards, groups, g);
    } else {
      AtMostOneEach(shards, groups);
    }
  }

  /** The groups that balance gets to see on a Join. */
  ghost function Active(shards: seq<Gid>, groups: set<Gid>, joined: set<Gid>): set<Gid> {
    set g | g in groups + joined && (g in shards || g in joined)
  }

  /**
   A Join makes all groups level exactly if no old group is without shards, or there are no more
   shards than groups that are seen.
   */
  lemma JoinLevelsIff(shards: seq<Gid>, groups: set<Gid>, joined: set<Gid>)
    requires shards != [] && 0 !in groups && 0 !in joined && forall i :: 0 <= i < |shards| ==> shards[i] in groups
    ensures Balanced(After(shards, joined), groups + joined) <==>
      (forall g :: g in groups ==> g in shards || g in joined) || |shards| <= |Active(shards, groups, joined)|
  {
    var active, after := Active(shards, groups, joined), After(shards, joined);
    assert forall g :: g in shards ==> g in groups;
    assert shards[0] in shards && shards[0] in active;
    AfterBalanced(shards, joined, active);
    OneEach(after, active);
    if idle :| idle in groups && idle !in shards && idle !in joined {
      assert Owned(after, idle) == {};
      if |shards| <= |active| {
        IdleCounts(after, active, groups + joined);
      } else {
        var g :| g in active && Count(after, g) >= 2;
        assert Count(after, g) > Count(after, idle) + 1;
      }
    } else {
      assert active == groups + joined;
    }
  }

  lemma IdleCounts(after: seq<Gid>, active: set<Gid>, all: set<Gid>)
    requires active <= all && Balanced(after, active) && forall g :: g in active ==> Count(after, g) <= 1
    ensures Balanced(after, all)
  {
    forall g | g in all
      ensures Count(after, g) <= 1
    {
      if g !in active {
        assert Owned(after, g) == {};
      }
    }
  }

  /** Three shards moved to group 1 of two groups: when group 3 joins, group 2 still gets nothing. */
  lemma JoinMissesIdleGroup()
    ensures Balanced([1, 1, 2], {1, 2}) && !Balanced(After([1, 1, 1], {3}), {1, 2} + {3})
  {
    var shards: seq<Gid> := [1, 1, 2];
    assert Owned(shards, 1) == {0, 1} && Owned(shards, 2) == {2};
    var moved: seq<Gid> := [1, 1, 1];
    var groups: set<Gid> := {1, 2};
    JoinLevelsIff(moved, groups, {3});
    assert Active(moved, groups, {3}) == {1, 3};
    assert 2 in groups && 2 !in moved;
  }

  // ----- Leave -----

  ghost predicate Minimal(before: seq<Gid>, after: seq<Gid>, groups: set<Gid>) {
    forall b :: |b| == |before| && Balanced(b, groups) ==> |Moved(before, after)| <= |Moved(before, b)|
  }

  lemma {:induction false} LeastCount(shards: seq<Gid>, groups: set<Gid>) returns (g: Gid)
    requires groups != {}
    ensures g in groups && forall h :: h in groups ==> Count(shards, g) <= Count(shards, h)
    decreases groups
  {
    g :| g in groups;
    if groups != {g} {
      var h := LeastCount(shards, groups - {g});
      if Count(shards, h) < Count(shards, g) {
        g := h;
      }
    }
  }

  lemma CountOthers(shards: seq<Gid>, i: nat, g: Gid, h: Gid)
    requires i < |shards| && shards[i] != h && g != h
    ensures Count(shards[i := g], h) == Count(shards, h)
  {
    assert Owned(shards[i := g], h) == Owned(shards, h);
  }

  lemma CountGains(shards: seq<Gid>, i: nat, g: Gid)
    requires i < |shards| && shards[i] != g
    ensures Count(shards[i := g], g) == Count(shards, g) + 1
  {
    assert Owned(shards[i := g], g) == Owned(shards, g) + {i};
  }

  lemma CountLoses(shards: seq<Gid>, i: nat, g: Gid)
    requires i < |shards| && shards[i] != g
    ensures Count(shards[i := g], shards[i]) == Count(shards, shards[i]) - 1
  {
    assert Owned(shards[i := g], shards[i]) == Owned(shards, shards[i]) - {i} && i in Owned(shards, shards[i]);
  }

  /** Shards without a group can be dealt out so that nothing else moves and the groups stay level. */
  lemma {:induction false} DealOut(shards: seq<Gid>, groups: set<Gid>) returns (b: seq<Gid>)
    requires groups != {} && 0 !in groups && forall i :: 0 <= i < |shards| ==> shards[i] == 0 || shards[i] in groups
    requires forall g, h :: g in groups && h in groups ==> Count(shards, g) <= Count(shards, h) + 1
    ensures |b| == |shards| && Balanced(b, groups) && forall i :: 0 <= i < |shards| && shards[i] != 0 ==>
      b[i] == shards[i]
    decreases Count(shards, 0)
  {
    if i: nat :| i < |shards| && shards[i] == 0 {
      var g := LeastCount(shards, groups);
      CountGains(shards, i, g);
      CountLoses(shards, i, g);
      forall h | h in groups && h != g
        ensures Count(shards[i := g], h) == Count(shards, h)
      {
        CountOthers(shards, i, g, h);
      }
      b := DealOut(shards[i := g], groups);
    } else {
      b := shards;
    }
  }

  /** A group that has lost a shard on a Leave does not get it back. */
  lemma {:induction false} NeverBack(p: Plan, before: seq<Gid>, gone: set<Gid>, next: Gid, x: nat)
    requires Leaving(p, before, gone, next) && x < |p.shards| && p.shards[x] != next
    ensures x < |Levelled(p).shards| && Levelled(p).shards[x] != next
    decreases Squares(p.lists.Keys, p.lists)
  {
    if Uneven(p.lists) {
      LeaveShift(p, before, gone, next);
      ShiftShrinks(p);
      NeverBack(Shifted(p), before, gone, next, x);
    }
  }

  ghost predicate CanLeave(before: seq<Gid>, groups: set<Gid>, gone: set<Gid>, next: Gid) {
    Balanced(before, groups) && 0 !in groups && next in groups - gone && forall g :: g in groups - gone ==> next <= g
  }

  /** What the smallest group has, with everything that was left behind, is not too much for it. */
  ghost predicate NextCanKeep(before: seq<Gid>, groups: set<Gid>, gone: set<Gid>, next: Gid) {
    forall g :: g in groups - gone && g != next ==> Count(before, next) + |InTo(before, gone)| <= Count(before, g) + 1
  }

  lemma OrphansMove(before: seq<Gid>, b: seq<Gid>, groups: set<Gid>, gone: set<Gid>)
    requires |b| == |before| && Balanced(b, groups - gone)
    ensures InTo(before, gone) <= Moved(before, b)
  {
  }

  /** How much the smallest group has before it starts to give. */
  lemma NextHas(before: seq<Gid>, groups: set<Gid>, gone: set<Gid>, next: Gid)
    requires CanLeave(before, groups, gone, next)
    ensures var p := Begin(Vacated(before, gone), groups - gone);
      && Tidy(p) && Groups(p.lists) && Next(p.lists) == next && next in p.lists && p.lists.Keys - {0} == groups - gone
      && |Placed(p).lists[next]| == Count(before, next) + |InTo(before, gone)|
      && forall g :: g in groups - gone && g != next ==> |Placed(p).lists[g]| == Count(before, g)
  {
    var vacated := Vacated(before, gone);
    var p := Begin(vacated, groups - gone);
    LeaveBegins(before, groups, gone, next);
    BeginLength(vacated, groups - gone, 0);
    assert Owned(vacated, 0) == InTo(before, gone);
  }

  /** When all but one group are level, levelling starts exactly if that one has too much. */
  lemma UnevenIff(m: Lists, next: Gid)
    requires Groups(m) && next in m && next != 0
    requires forall g, h :: g in m && h in m && g != 0 && h != 0 && g != next ==> |m[g]| <= |m[h]| + 1
    ensures !Uneven(m) <==> forall g :: g in m && g != 0 && g != next ==> |m[next]| <= |m[g]| + 1
  {
    UnevenBy(m);
    var lo, hi := Emptiest(m), Fullest(m);
    assert Fuller(m, hi, next) && Emptier(m, lo, next);
    if g :| g in m && g != 0 && g != next && |m[next]| > |m[g]| + 1 {
      assert Emptier(m, lo, g);
    }
  }

  lemma KeepsAll(before: seq<Gid>, groups: set<Gid>, gone: set<Gid>, next: Gid)
    requires CanLeave(before, groups, gone, next)
    ensures var p := Begin(Vacated(before, gone), groups - gone);
      Groups(p.lists) && (NextCanKeep(before, groups, gone, next) <==> !Uneven(Placed(p).lists))
  {
    var p := Begin(Vacated(before, gone), groups - gone);
    NextHas(before, groups, gone, next);
    LeavePlaced(before, groups, gone, next);
    var m := Placed(p).lists;
    UnevenIff(m, next);
    assert forall g :: g in m && g != 0 <==> g in groups - gone by {
      assert forall g :: g in m && g != 0 <==> g in p.lists.Keys - {0};
    }
  }

  /** Nothing but what was left behind moves. */
  lemma LeaveMovesOrphans(before: seq<Gid>, groups: set<Gid>, gone: set<Gid>, next: Gid)
    requires CanLeave(before, groups, gone, next)
    requires Count(before, next) == 0 || NextCanKeep(before, groups, gone, next)
    ensures Moved(before, After(Vacated(before, gone), groups - gone)) == InTo(before, gone)
  {
    var vacated := Vacated(before, gone);
    var after := After(vacated, groups - gone);
    LeaveResult(before, groups, gone, next);
    OrphansMove(before, after, groups, gone);
    if Count(before, next) == 0 {
      assert forall i: nat :: i < |before| && before[i] == next ==> i in Owned(before, next);
    } else {
      AfterIs(vacated, groups - gone);
      KeepsAll(before, groups, gone, next);
    }
  }

  /** The smallest group gives away a shard of its own. */
  lemma LeaveMovesMore(before: seq<Gid>, groups: set<Gid>, gone: set<Gid>, next: Gid)
    requires CanLeave(before, groups, gone, next)
    requires Count(before, next) > 0 && !NextCanKeep(before, groups, gone, next)
    ensures |Moved(before, After(Vacated(before, gone), groups - gone))| > |InTo(before, gone)|
  {
    var vacated := Vacated(before, gone);
    var after := After(vacated, groups - gone);
    LeaveResult(before, groups, gone, next);
    OrphansMove(before, after, groups, gone);
    var x := FirstGift(before, groups, gone, next);
    assert x !in InTo(before, gone) && InTo(before, gone) + {x} <= Moved(before, after);
    SubsetSize(InTo(before, gone) + {x}, Moved(before, after));
  }

  /** The first shard that the smallest group gives away is gone for good. */
  lemma GivenAway(q: Plan, before: seq<Gid>, gone: set<Gid>, next: Gid)
    requires Leaving(q, before, gone, next) && Uneven(q.lists) && q.lists[next] != []
    ensures var x := q.lists[next][0]; x < |Levelled(q).shards| && Levelled(q).shards[x] != next
  {
    var x := q.lists[next][0];
    UnevenBy(q.lists);
    LeaveShift(q, before, gone, next);
    assert Owns(q.shards, next, q.lists[next]) && x in q.lists[next];
    ShiftShrinks(q);
    NeverBack(Shifted(q), before, gone, next, x);
  }

  lemma OutcomeLevels(shards: seq<Gid>, groups: set<Gid>)
    requires Groups(Begin(shards, groups).lists) && Uneven(Placed(Begin(shards, groups)).lists)
    ensures After(shards, groups) == Levelled(Placed(Begin(shards, groups))).shards
  {
    var p := Begin(shards, groups);
    var q := Placed(p);
    AfterIs(shards, groups);
    OneListIsLevel(q.lists);
    assert |q.lists.Keys| == |p.lists.Keys|;
  }

  lemma FirstGift(before: seq<Gid>, groups: set<Gid>, gone: set<Gid>, next: Gid) returns (x: nat)
    requires CanLeave(before, groups, gone, next)
    requires Count(before, next) > 0 && !NextCanKeep(before, groups, gone, next)
    ensures x < |before| && before[x] == next
    ensures x < |After(Vacated(before, gone), groups - gone)| && After(Vacated(before, gone), groups - gone)[x] != next
  {
    var vacated := Vacated(before, gone);
    var p := Begin(vacated, groups - gone);
    KeepsAll(before, groups, gone, next);
    OutcomeLevels(vacated, groups - gone);
    LeavePlaced(before, groups, gone, next);
    x := OwnFirst(before, groups, gone, next);
    GivenAway(Placed(p), before, gone, next);
  }

  /** The smallest group's own shards come first in its list. */
  lemma OwnFirst(before: seq<Gid>, groups: set<Gid>, gone: set<Gid>, next: Gid) returns (x: nat)
    requires CanLeave(before, groups, gone, next) && Count(before, next) > 0
    requires Groups(Begin(Vacated(before, gone), groups - gone).lists)
    ensures x < |before| && before[x] == next
    ensures
      var m := Placed(Begin(Vacated(before, gone), groups - gone)).lists;
      next in m && m[next] != [] && m[next][0] == x
  {
    var vacated := Vacated(before, gone);
    var p := Begin(vacated, groups - gone);
    LeaveBegins(before, groups, gone, next);
    assert next in p.lists.Keys - {0};
    assert Owns(vacated, next, p.lists[next]);
    x := p.lists[next][0];
    assert x in p.lists[next];
  }

  /** With one list there is nothing to level. */
  lemma OneListIsLevel(m: Lists)
    requires Groups(m)
    ensures |m| <= 1 ==> !Uneven(m)
  {
    if |m| <= 1 {
      OneKey(m, Emptiest(m));
    }
  }

  /**
   A Leave from a level configuration moves as few shards as possible exactly if the smallest
   remaining group has nothing of its own, or can keep everything that falls to it.
   */
  lemma LeaveMinimalIff(before: seq<Gid>, groups: set<Gid>, gone: set<Gid>, next: Gid)
    requires CanLeave(before, groups, gone, next)
    ensures Minimal(before, After(Vacated(before, gone), groups - gone), groups - gone) <==>
      Count(before, next) == 0 || NextCanKeep(before, groups, gone, next)
  {
    var after := After(Vacated(before, gone), groups - gone);
    if Count(before, next) == 0 || NextCanKeep(before, groups, gone, next) {
      LeaveMovesOrphans(before, groups, gone, next);
      forall b | |b| == |before| && Balanced(b, groups - gone)
        ensures |Moved(before, after)| <= |Moved(before, b)|
      {
        OrphansMove(before, b, groups, gone);
        SubsetSize(InTo(before, gone), Moved(before, b));
      }
    } else {
      LeaveMovesMore(before, groups, gone, next);
      var b := BestLeave(before, groups, gone, next);
    }
  }

  lemma BestLeave(before: seq<Gid>, groups: set<Gid>, gone: set<Gid>, next: Gid) returns (b: seq<Gid>)
    requires CanLeave(before, groups, gone, next)
    ensures |b| == |before| && Balanced(b, groups - gone) && Moved(before, b) == InTo(before, gone)
  {
    var vacated := Vacated(before, gone);
    forall g | g in groups - gone
      ensures Count(vacated, g) == Count(before, g)
    {
      assert Owned(vacated, g) == Owned(before, g);
    }
    b := DealOut(vacated, groups - gone);
    OrphansMove(before, b, groups, gone);
  }

  /** When group 3 leaves its two shards behind, group 1 takes both and gives its own one to group 2. */
  lemma LeaveNotMinimal()
    ensures var before: seq<Gid> := [1, 2, 3, 3];
      Balanced(before, {1, 2, 3}) && !Minimal(before, After(Vacated(before, {3}), {1, 2, 3} - {3}), {1, 2, 3} - {3})
  {
    var before: seq<Gid> := [1, 2, 3, 3];
    var groups: set<Gid> := {1, 2, 3};
    assert Owned(before, 1) == {0} && Owned(before, 2) == {1} && Owned(before, 3) == {2, 3};
    assert InTo(before, {3}) == {2, 3};
    assert Balanced(before, groups);
    assert !NextCanKeep(before, groups, {3}, 1) by {
      assert 2 in groups - {3};
    }
    LeaveMinimalIff(before, groups, {3}, 1);
  }
}
