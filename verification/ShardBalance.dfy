/**
 The rebalancer of the shard controller (src/shardctrler/server.go).  It walks over Go maps, whose
 order is arbitrary; it is proved to end, with a result that does not depend on that order.
 */
module ShardBalance {
  import opened Sealing
  import opened Histories

  /** Group ids are positive; 0 stands for shards without a group. */
  type Gid = nat

  /** The shards of every group, in the order in which they would be given away. */
  type Lists = map<Gid, seq<nat>>

  datatype Plan = Plan(shards: seq<Gid>, lists: Lists)

  // ----- The three selections -----

  ghost predicate Groups(m: Lists) {
    exists g :: g in m && g != 0
  }

  ghost predicate IsNext(m: Lists, g: Gid) {
    g in m && g != 0 && forall h :: h in m && h != 0 ==> g <= h
  }

  predicate Fuller(m: Lists, g: Gid, h: Gid)
    requires g in m && h in m
  {
    |m[g]| > |m[h]| || (|m[g]| == |m[h]| && g <= h)
  }

  predicate Emptier(m: Lists, g: Gid, h: Gid)
    requires g in m && h in m
  {
    |m[g]| < |m[h]| || (|m[g]| == |m[h]| && g <= h)
  }

  ghost predicate IsFullest(m: Lists, g: Gid) {
    g in m && g != 0 && forall h :: h in m && h != 0 ==> Fuller(m, g, h)
  }

  ghost predicate IsEmptiest(m: Lists, g: Gid) {
    g in m && g != 0 && forall h :: h in m && h != 0 ==> Emptier(m, g, h)
  }

  method GetNext(m: Lists) returns (ans: Gid)
    requires Groups(m)
    ensures IsNext(m, ans)
  {
    var best := -1;
    var rest: set<Gid> := m.Keys;
    while rest != {}
      invariant rest <= m.Keys
      invariant best == -1 ==> forall h :: h in m && h != 0 ==> h in rest
      invariant best != -1 ==> 0 < best && best in m && forall h :: h in m && h != 0 && h !in rest ==> best <= h
      decreases |rest|
    {
      var gid :| gid in rest;
      rest := rest - {gid};
      if gid == 0 {
        continue;
      }
      if best == -1 {
        best := gid;
      } else if gid < best {
        best := gid;
      }
    }
    ans := best;
  }

  method GetGidWithMaxShards(m: Lists) returns (ans: Gid)
    requires Groups(m)
    ensures IsFullest(m, ans)
  {
    var ma := -1;
    ans := 0;
    var rest: set<Gid> := m.Keys;
    while rest != {}
      invariant rest <= m.Keys
      invariant ma == -1 ==> forall h :: h in m && h != 0 ==> h in rest
      invariant ma != -1 ==> ans in m && ans != 0 && ma == |m[ans]| && forall h :: h in m && h != 0 && h !in rest ==>
        Fuller(m, ans, h)
      decreases |rest|
    {
      var gid :| gid in rest;
      rest := rest - {gid};
      if gid == 0 {
        continue;
      }
      if |m[gid]| > ma {
        ma := |m[gid]|;
        ans := gid;
      } else if |m[gid]| == ma && gid < ans {
        ans := gid;
      }
    }
  }

  method GetGidWithMinShards(m: Lists) returns (ans: Gid)
    requires Groups(m)
    ensures IsEmptiest(m, ans)
  {
    var mi := -1;
    ans := 0;
    var rest: set<Gid> := m.Keys;
    while rest != {}
      invariant rest <= m.Keys
      invariant mi == -1 ==> forall h :: h in m && h != 0 ==> h in rest
      invariant mi != -1 ==> ans in m && ans != 0 && mi == |m[ans]| && forall h :: h in m && h != 0 && h !in rest ==>
        Emptier(m, ans, h)
      decreases |rest|
    {
      var gid :| gid in rest;
      rest := rest - {gid};
      if gid == 0 {
        continue;
      }
      if mi == -1 {
        mi := |m[gid]|;
        ans := gid;
      } else if |m[gid]| < mi {
        mi := |m[gid]|;
        ans := gid;
      } else if |m[gid]| == mi && gid < ans {
        ans := gid;
      }
    }
  }

  // Each of the three is fully determined, whatever the order of the walk was.

  lemma {:induction false} SomeNext(m: Lists, keys: set<Gid>) returns (g: Gid)
    requires keys <= m.Keys && exists h :: h in keys && h != 0
    ensures g in keys && g != 0 && forall h :: h in keys && h != 0 ==> g <= h
    decreases keys
  {
    g :| g in keys && g != 0;
    assert forall h :: h in keys && h != g ==> h in keys - {g};
    if exists h :: h in keys - {g} && h != 0 {
      var h := SomeNext(m, keys - {g});
      g := if h < g then h else g;
    }
  }

  lemma {:induction false} SomeFullest(m: Lists, keys: set<Gid>) returns (g: Gid)
    requires keys <= m.Keys && exists h :: h in keys && h != 0
    ensures g in keys && g != 0 && forall h :: h in keys && h != 0 ==> Fuller(m, g, h)
    decreases keys
  {
    g :| g in keys && g != 0;
    assert forall h :: h in keys && h != g ==> h in keys - {g};
    if exists h :: h in keys - {g} && h != 0 {
      var h := SomeFullest(m, keys - {g});
      g := if Fuller(m, h, g) then h else g;
    }
  }

  lemma {:induction false} SomeEmptiest(m: Lists, keys: set<Gid>) returns (g: Gid)
    requires keys <= m.Keys && exists h :: h in keys && h != 0
    ensures g in keys && g != 0 && forall h :: h in keys && h != 0 ==> Emptier(m, g, h)
    decreases keys
  {
    g :| g in keys && g != 0;
    assert forall h :: h in keys && h != g ==> h in keys - {g};
    if exists h :: h in keys - {g} && h != 0 {
      var h := SomeEmptiest(m, keys - {g});
      g := if Emptier(m, h, g) then h else g;
    }
  }

  ghost function Next(m: Lists): (g: Gid)
    requires Groups(m)
    ensures IsNext(m, g) && forall h :: IsNext(m, h) ==> h == g
  {
    assert exists g :: IsNext(m, g) by { var g := SomeNext(m, m.Keys); assert IsNext(m, g); }
    var g :| IsNext(m, g);
    g
  }

  ghost function Fullest(m: Lists): (g: Gid)
    requires Groups(m)
    ensures IsFullest(m, g) && forall h :: IsFullest(m, h) ==> h == g
  {
    assert exists g :: IsFullest(m, g) by { var g := SomeFullest(m, m.Keys); assert IsFullest(m, g); }
    var g :| IsFullest(m, g);
    g
  }

  ghost function Emptiest(m: Lists): (g: Gid)
    requires Groups(m)
    ensures IsEmptiest(m, g) && forall h :: IsEmptiest(m, h) ==> h == g
  {
    assert exists g :: IsEmptiest(m, g) by { var g := SomeEmptiest(m, m.Keys); assert IsEmptiest(m, g); }
    var g :| IsEmptiest(m, g);
    g
  }

  // ----- Levelling -----

  ghost predicate Owns(shards: seq<Gid>, g: Gid, list: seq<nat>) {
    Distinct(list) && forall i {:trigger i in list} :: i in list ==> i < |shards| && shards[i] == g
  }

  /** The lists say who owns what. */
  ghost predicate Tidy(p: Plan) {
    && (forall i: nat :: i < |p.shards| ==> p.shards[i] in p.lists && i in p.lists[p.shards[i]])
    && (forall g :: g in p.lists ==> Owns(p.shards, g, p.lists[g]))
  }

  /** Not level yet. */
  ghost predicate Uneven(m: Lists)
    requires Groups(m)
  {
    var lo, hi := Emptiest(m), Fullest(m);
    !(|m[lo]| == |m[hi]| - 1 || |m[hi]| <= 1 || lo == hi)
  }

  lemma UnevenBy(m: Lists)
    requires Groups(m)
    ensures Uneven(m) <==> |m[Emptiest(m)]| + 2 <= |m[Fullest(m)]|
  {
    var lo, hi := Emptiest(m), Fullest(m);
    assert Fuller(m, hi, lo) && Emptier(m, lo, hi);
    if |m[lo]| == |m[hi]| {
      assert IsEmptiest(m, hi);
    }
  }

  /** The fullest group gives its first shard to the emptiest. */
  ghost function Shifted(p: Plan): (q: Plan)
    requires Groups(p.lists) && Uneven(p.lists)
    ensures q.lists.Keys == p.lists.Keys && Groups(q.lists)
  {
    var lo, hi := Emptiest(p.lists), Fullest(p.lists);
    var x := p.lists[hi][0];
    var m := p.lists[lo := p.lists[lo] + [x]];
    assert hi in m && hi != 0;
    Plan(if x < |p.shards| then p.shards[x := lo] else p.shards, m[hi := p.lists[hi][1..]])
  }

  lemma ShiftedTidy(p: Plan)
    requires Tidy(p) && Groups(p.lists) && Uneven(p.lists)
    ensures Tidy(Shifted(p)) && |Shifted(p).shards| == |p.shards|
  {
    var lo, hi, q := Emptiest(p.lists), Fullest(p.lists), Shifted(p);
    var list := p.lists[hi];
    var x := list[0];
    HeadGone(list);
    assert Owns(p.shards, hi, list) && Owns(p.shards, lo, p.lists[lo]) && x in list;
    forall g | g in q.lists
      ensures Owns(q.shards, g, q.lists[g])
    {
      assert Owns(p.shards, g, p.lists[g]);
      if g == lo {
        assert x !in p.lists[lo];
        assert q.lists[g] == p.lists[lo] + [x];
      } else if g == hi {
        assert q.lists[g] == list[1..];
        assert forall i, j :: 0 <= i < j < |list[1..]| ==> list[1..][i] == list[i+1] && list[1..][j] == list[j+1];
      }
    }
    forall i: nat | i < |q.shards|
      ensures i in q.lists[q.shards[i]]
    {
      assert i in p.lists[p.shards[i]];
    }
  }

  // ----- The sum of squares -----

  ghost function Squares(keys: set<Gid>, m: Lists): nat
    requires keys <= m.Keys
  {
    if keys == {} then 0 else
      var g :| g in keys;
      |m[g]| * |m[g]| + Squares(keys - {g}, m)
  }

  lemma {:induction false} SquaresSplit(keys: set<Gid>, m: Lists, g: Gid)
    requires keys <= m.Keys && g in keys
    ensures Squares(keys, m) == |m[g]| * |m[g]| + Squares(keys - {g}, m)
    decreases keys
  {
    var h :| h in keys && Squares(keys, m) == |m[h]| * |m[h]| + Squares(keys - {h}, m);
    if h != g {
      SquaresSplit(keys - {h}, m, g);
      SquaresSplit(keys - {g}, m, h);
      assert keys - {h} - {g} == keys - {g} - {h};
    }
  }

  lemma {:induction false} SquaresSame(keys: set<Gid>, m: Lists, m': Lists)
    requires keys <= m.Keys && keys <= m'.Keys && forall g :: g in keys ==> |m[g]| == |m'[g]|
    ensures Squares(keys, m) == Squares(keys, m')
    decreases keys
  {
    if keys != {} {
      var g :| g in keys;
      SquaresSplit(keys, m, g);
      SquaresSplit(keys, m', g);
      SquaresSame(keys - {g}, m, m');
    }
  }

  /** Every shift makes the sum of the squared list lengths smaller. */
  lemma ShiftShrinks(p: Plan)
    requires Groups(p.lists) && Uneven(p.lists)
    ensures Squares(p.lists.Keys, Shifted(p).lists) < Squares(p.lists.Keys, p.lists)
  {
    var m, m', keys := p.lists, Shifted(p).lists, p.lists.Keys;
    var lo, hi := Emptiest(m), Fullest(m);
    UnevenBy(m);
    SquaresSplit(keys, m, lo);
    SquaresSplit(keys, m', lo);
    SquaresSplit(keys - {lo}, m, hi);
    SquaresSplit(keys - {lo}, m', hi);
    SquaresSame(keys - {lo} - {hi}, m, m');
    Parabola(|m[lo]|, |m[hi]|);
  }

  lemma Parabola(a: nat, b: nat)
    requires a + 2 <= b
    ensures (a + 1) * (a + 1) + (b - 1) * (b - 1) < a * a + b * b
  {
  }

  ghost function Levelled(p: Plan): (q: Plan)
    requires Groups(p.lists)
    ensures q.lists.Keys == p.lists.Keys && Groups(q.lists)
    decreases Squares(p.lists.Keys, p.lists)
  {
    if Uneven(p.lists) then
      ShiftShrinks(p);
      Levelled(Shifted(p))
    else p
  }

  // ----- balance -----

  /** The lists of the first `n` shards. */
  function ListsUpTo(shards: seq<Gid>, n: nat): Lists
    requires n <= |shards|
  {
    if n == 0 then map[] else
      var m := ListsUpTo(shards, n - 1);
      var gid := shards[n-1];
      m[gid := (if gid in m then m[gid] else []) + [n - 1]]
  }

  method GetShardsMap(shards: seq<Gid>) returns (m: Lists)
    ensures m == ListsUpTo(shards, |shards|)
  {
    m := map[];
    for shard := 0 to |shards|
      invariant m == ListsUpTo(shards, shard)
    {
      var gid := shards[shard];
      if gid !in m {
        m := m[gid := []];
      }
      var list := m[gid];
      list := list + [shard];
      m := m[gid := list];
    }
  }

  function WithGroups(m: Lists, groups: set<Gid>): Lists {
    map g | g in m.Keys + groups :: if g in m then m[g] else []
  }

  /** Everything without a group goes to the smallest one. */
  ghost function Placed(p: Plan): (q: Plan)
    requires Groups(p.lists)
    ensures q.lists.Keys == p.lists.Keys && Groups(q.lists) && |q.shards| == |p.shards|
  {
    if 0 in p.lists then
      var next := Next(p.lists);
      var m := p.lists[next := p.lists[next] + p.lists[0]];
      assert next in m && next != 0;
      Plan(seq(|p.shards|, i requires 0 <= i < |p.shards| => if p.shards[i] == 0 then next
        else p.shards[i]), m[0 := []])
    else p
  }

  lemma ManyKeys(m: Lists)
    requires |m| > 1
    ensures Groups(m)
  {
    var g :| g in m.Keys;
    if g == 0 {
      assert |m.Keys - {0}| == |m.Keys| - 1;
      var h :| h in m.Keys - {0};
    }
  }

  ghost function Outcome(shards: seq<Gid>, groups: set<Gid>): Plan {
    var p := Plan(shards, WithGroups(ListsUpTo(shards, |shards|), groups));
    if |p.lists| <= 1 then p
    else
      ManyKeys(p.lists);
      Levelled(Placed(p))
  }

  ghost predicate IsAfter(shards: seq<Gid>, groups: set<Gid>, r: seq<Gid>) {
    forall k: nat :: Open(k, r) ==> r == Outcome(shards, groups).shards
  }

  /** The shards of the outcome, folded up. */
  ghost function After(shards: seq<Gid>, groups: set<Gid>): seq<Gid> {
    assert IsAfter(shards, groups, Outcome(shards, groups).shards);
    var r :| IsAfter(shards, groups, r);
    r
  }

  lemma AfterIs(shards: seq<Gid>, groups: set<Gid>)
    ensures After(shards, groups) == Outcome(shards, groups).shards
  {
    assert Open(0, After(shards, groups));
  }

  /** Shards without a group, moved one after the other. */
  method PlaceAll(shards: array<Gid>, list: seq<nat>, next: Gid)
    requires Owns(shards[..], 0, list) && forall i: nat :: i < shards.Length && shards[i] == 0 ==> i in list
    modifies shards
    ensures forall i :: 0 <= i < shards.Length ==> shards[i] == if old(shards[i]) == 0 then next else old(shards[i])
  {
    for k := 0 to |list|
      invariant forall i: nat :: i < shards.Length ==> shards[i] == if i in list[..k] then next else old(shards[i])
    {
      assert list[k] in list;
      shards[list[k]] := next;
      assert list[..k+1] == list[..k] + [list[k]];
    }
    assert list[..|list|] == list;
  }

  method Level(shards: array<Gid>, m0: Lists)
    requires Tidy(Plan(shards[..], m0)) && Groups(m0)
    modifies shards
    ensures shards[..] == Levelled(Plan(old(shards[..]), m0)).shards
  {
    var m := m0;
    while true
      invariant Tidy(Plan(shards[..], m)) && Groups(m) && m.Keys == m0.Keys
      invariant Levelled(Plan(shards[..], m)) == Levelled(Plan(old(shards[..]), m0))
      decreases Squares(m.Keys, m)
    {
      var lo := GetGidWithMinShards(m);
      var hi := GetGidWithMaxShards(m);
      if |m[lo]| == |m[hi]| - 1 || |m[hi]| <= 1 || lo == hi {
        break;
      }
      ghost var p := Plan(shards[..], m);
      ShiftedTidy(p);
      ShiftShrinks(p);
      var shard := m[hi][0];
      assert Owns(p.shards, hi, m[hi]) && shard in m[hi];
      m := m[lo := m[lo] + [m[hi][0]]];
      m := m[hi := m[hi][1..]];
      shards[shard] := lo;
      assert Plan(shards[..], m) == Shifted(p);
    }
  }

  lemma {:induction false} ListsTidy(shards: seq<Gid>, n: nat)
    requires n <= |shards|
    ensures Tidy(Plan(shards[..n], ListsUpTo(shards, n)))
    ensures forall g :: g in ListsUpTo(shards, n) ==> ListsUpTo(shards, n)[g] != []
    decreases n
  {
    if n > 0 {
      ListsTidy(shards, n - 1);
      var m, m', g := ListsUpTo(shards, n - 1), ListsUpTo(shards, n), shards[n-1];
      forall h | h in m'
        ensures Owns(shards[..n], h, m'[h])
      {
        if h in m {
          assert Owns(shards[..n-1], h, m[h]);
          assert n - 1 !in m[h];
        }
      }
      forall i: nat | i < n
        ensures i in m'[shards[i]]
      {
        if i < n - 1 {
          assert shards[..n-1][i] == shards[i];
        }
      }
    }
  }

  lemma WithGroupsTidy(shards: seq<Gid>, m: Lists, groups: set<Gid>)
    requires Tidy(Plan(shards, m))
    ensures Tidy(Plan(shards, WithGroups(m, groups)))
  {
    var m' := WithGroups(m, groups);
    forall g | g in m'
      ensures Owns(shards, g, m'[g])
    {
      if g in m {
        assert Owns(shards, g, m[g]);
      }
    }
  }

  /** The lists that balance starts from. */
  lemma StartTidy(shards: seq<Gid>, groups: set<Gid>)
    ensures Tidy(Plan(shards, WithGroups(ListsUpTo(shards, |shards|), groups)))
  {
    ListsTidy(shards, |shards|);
    assert shards[..|shards|] == shards;
    WithGroupsTidy(shards, ListsUpTo(shards, |shards|), groups);
  }

  /** A group has a list from the start exactly if it owns something or is among the groups given. */
  lemma StartKeys(shards: seq<Gid>, groups: set<Gid>, g: Gid)
    ensures g in WithGroups(ListsUpTo(shards, |shards|), groups) <==> g in shards || g in groups
  {
    ListsTidy(shards, |shards|);
    assert shards[..|shards|] == shards;
    var m := ListsUpTo(shards, |shards|);
    if g in m {
      assert Owns(shards, g, m[g]) && m[g][0] in m[g];
      assert shards[m[g][0]] == g;
    }
  }

  lemma DistinctConcat(a: seq<nat>, b: seq<nat>)
    requires Distinct(a) && Distinct(b) && forall x :: x in a ==> x !in b
    ensures Distinct(a + b)
  {
    assert forall i, j :: 0 <= i < |a| && 0 <= j < |b| ==> a[i] in a && b[j] in b && a[i] != b[j];
  }

  lemma PlacedTidy(p: Plan)
    requires Tidy(p) && Groups(p.lists)
    ensures Tidy(Placed(p)) && (0 in p.lists ==> Placed(p).lists[0] == [])
  {
    if 0 in p.lists {
      var next, q := Next(p.lists), Placed(p);
      forall g | g in q.lists
        ensures Owns(q.shards, g, q.lists[g])
      {
        assert Owns(p.shards, g, p.lists[g]) && Owns(p.shards, 0, p.lists[0]);
        if g == next {
          DistinctConcat(p.lists[next], p.lists[0]);
        }
      }
    }
  }

  /** Groups that own nothing get an empty list. */
  method AddGroups(first: Lists, newGroups: map<Gid, seq<string>>) returns (m: Lists)
    ensures m == WithGroups(first, newGroups.Keys)
  {
    m := first;
    var rest := newGroups.Keys;
    while rest != {}
      invariant rest <= newGroups.Keys && m == WithGroups(first, newGroups.Keys - rest)
      decreases |rest|
    {
      var gid :| gid in rest;
      rest := rest - {gid};
      if gid !in m {
        m := m[gid := []];
      }
    }
    assert newGroups.Keys - {} == newGroups.Keys;
  }

  /** Shards without a group go to the smallest one; then the groups are made level. */
  method PlaceAndLevel(shards: array<Gid>, m0: Lists)
    requires Tidy(Plan(shards[..], m0)) && Groups(m0)
    modifies shards
    ensures shards[..] == Levelled(Placed(Plan(old(shards[..]), m0))).shards
  {
    var m := m0;
    ghost var p := Plan(shards[..], m);
    PlacedTidy(p);
    var next := GetNext(m);
    if 0 in m {
      assert Owns(p.shards, 0, m[0]);
      PlaceAll(shards, m[0], next);
      m := m[next := m[next] + m[0]];
      m := m[0 := []];
    }
    assert Plan(shards[..], m) == Placed(p);
    Level(shards, m);
  }

  method Balance(shards: array<Gid>, newGroups: map<Gid, seq<string>>)
    modifies shards
    ensures shards[..] == After(old(shards[..]), newGroups.Keys)
  {
    AfterIs(shards[..], newGroups.Keys);
    StartTidy(shards[..], newGroups.Keys);
    var m := GetShardsMap(shards[..]);
    m := AddGroups(m, newGroups);
    if |m| <= 1 {
      return;
    }
    ManyKeys(m);
    PlaceAndLevel(shards, m);
  }
}
