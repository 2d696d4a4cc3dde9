/**
 The arithmetic of shard rebalancing: what Rebalance computes, as functions of the shard table and
 the ascending sequence of group ids, and why it ends, balances and moves little.
 */
module ShardBalance {

  /** The number of shards a group has. */
  function Load(shards: seq<int>, g: int): nat {
    multiset(shards)[g]
  }

  ghost predicate Ascending(gids: seq<int>) {
    forall i, j | 0 <= i < j < |gids| :: gids[i] < gids[j]
  }

  /** The group with the fewest shards; among equals the smallest id. */
  function Least(shards: seq<int>, gids: seq<int>): int
    requires gids != []
  {
    var n := |gids| - 1;
    if n == 0 then gids[0]
    else
      var g := Least(shards, gids[..n]);
      if Load(shards, gids[n]) < Load(shards, g) then gids[n] else g
  }

  /** The group with the most shards; among equals the smallest id. */
  function Most(shards: seq<int>, gids: seq<int>): int
    requires gids != []
  {
    var n := |gids| - 1;
    if n == 0 then gids[0]
    else
      var g := Most(shards, gids[..n]);
      if Load(shards, gids[n]) > Load(shards, g) then gids[n] else g
  }

  lemma {:induction false} LeastMeaning(shards: seq<int>, gids: seq<int>)
    requires gids != [] && Ascending(gids)
    ensures var l := Least(shards, gids);
      l in gids && forall g | g in gids :: Load(shards, l) < Load(shards, g) || (Load(shards, l) == Load(shards, g) && l <= g)
  {
    var n := |gids| - 1;
    if n > 0 {
      LeastMeaning(shards, gids[..n]);
      assert forall g | g in gids :: g in gids[..n] || g == gids[n];
    }
  }

  lemma {:induction false} MostMeaning(shards: seq<int>, gids: seq<int>)
    requires gids != [] && Ascending(gids)
    ensures var m := Most(shards, gids);
      m in gids && forall g | g in gids :: Load(shards, m) > Load(shards, g) || (Load(shards, m) == Load(shards, g) && m <= g)
  {
    var n := |gids| - 1;
    if n > 0 {
      MostMeaning(shards, gids[..n]);
      assert forall g | g in gids :: g in gids[..n] || g == gids[n];
    }
  }

  /** Shards from `i` on that have no member group go, one by one, to the least loaded group. */
  function Assigned(shards: seq<int>, gids: seq<int>, i: nat): (r: seq<int>)
    requires gids != [] && i <= |shards|
    ensures |r| == |shards|
    decreases |shards| - i
  {
    if i == |shards| then shards
    else if shards[i] in gids then Assigned(shards, gids, i + 1)
    else Assigned(shards[i := Least(shards, gids)], gids, i + 1)
  }

  function FirstOf(shards: seq<int>, g: int, i: nat): (r: nat)
    requires i <= |shards| && g in shards[i..]
    ensures i <= r < |shards| && shards[r] == g && forall k | i <= k < r :: shards[k] != g
    decreases |shards| - i
  {
    if shards[i] == g then i else FirstOf(shards, g, i + 1)
  }

  function First(shards: seq<int>, g: int): (r: nat)
    requires g in shards
    ensures r < |shards| && shards[r] == g
  {
    assert shards[0..] == shards;
    FirstOf(shards, g, 0)
  }

  predicate Uneven(shards: seq<int>, gids: seq<int>)
    requires gids != []
  {
    Load(shards, Most(shards, gids)) >= Load(shards, Least(shards, gids)) + 2
  }

  /** One shard moves from the most to the least loaded group. */
  function Moved(shards: seq<int>, gids: seq<int>): (r: seq<int>)
    requires gids != [] && Uneven(shards, gids)
    ensures |r| == |shards|
  {
    var m := Most(shards, gids);
    assert m in shards;
    shards[First(shards, m) := Least(shards, gids)]
  }

  function Square(n: nat): nat {
    n * n
  }

  /** The measure that falls with every move. */
  function SumSquares(shards: seq<int>, gids: seq<int>): nat {
    if gids == [] then 0
    else SumSquares(shards, gids[..|gids| - 1]) + Square(Load(shards, gids[|gids| - 1]))
  }

  /** Changing one shard's group changes two loads. */
  lemma LoadAfter(shards: seq<int>, i: nat, b: int, g: int)
    requires i < |shards| && shards[i] != b
    ensures Load(shards[i := b], g) == Load(shards, g) + (if g == b then 1 else 0) - (if g == shards[i] then 1 else 0)
  {
  }

  lemma SquareNext(n: nat)
    ensures Square(n + 1) == Square(n) + 2 * n + 1
  {
  }

  lemma {:induction false} SquaresAfter(shards: seq<int>, gids: seq<int>, i: nat, b: int)
    requires i < |shards| && Ascending(gids) && shards[i] != b
    ensures SumSquares(shards[i := b], gids)
         == SumSquares(shards, gids)
          + (if shards[i] in gids then 1 - 2 * Load(shards, shards[i]) else 0)
          + (if b in gids then 1 + 2 * Load(shards, b) else 0)
  {
    if gids != [] {
      var n := |gids| - 1;
      var a, g := shards[i], gids[n];
      SquaresAfter(shards, gids[..n], i, b);
      LoadAfter(shards, i, b, g);
      SquareNext(Load(shards, g));
      if g == a {
        assert a in multiset(shards);
        SquareNext(Load(shards, g) - 1);
      }
      assert (a in gids <==> a in gids[..n] || a == g) && (b in gids <==> b in gids[..n] || b == g);
      assert g !in gids[..n];
    }
  }

  /** Every move strictly lowers the sum of the squared loads. */
  lemma MoveShrinks(shards: seq<int>, gids: seq<int>)
    requires gids != [] && Ascending(gids) && Uneven(shards, gids)
    ensures SumSquares(Moved(shards, gids), gids) < SumSquares(shards, gids)
  {
    LeastMeaning(shards, gids);
    MostMeaning(shards, gids);
    var m := Most(shards, gids);
    assert m in shards;
    SquaresAfter(shards, gids, First(shards, m), Least(shards, gids));
  }

  /** Moves until no two groups differ by two shards or more. */
  ghost function Leveled(shards: seq<int>, gids: seq<int>): (r: seq<int>)
    requires gids != [] && Ascending(gids)
    ensures |r| == |shards|
    decreases SumSquares(shards, gids)
  {
    if Uneven(shards, gids) then
      MoveShrinks(shards, gids);
      Leveled(Moved(shards, gids), gids)
    else shards
  }

  /** What Rebalance leaves in the table. */
  ghost function Rebalanced(shards: seq<int>, gids: seq<int>): (r: seq<int>)
    requires Ascending(gids)
    ensures |r| == |shards|
  {
    if gids == [] then seq(|shards|, _ => 0) else Leveled(Assigned(shards, gids, 0), gids)
  }

  // ---------------------------------------------------------------- balance

  ghost predicate OnMembers(shards: seq<int>, gids: seq<int>) {
    forall s | 0 <= s < |shards| :: shards[s] in gids
  }

  ghost predicate Even(shards: seq<int>, gids: seq<int>) {
    forall g, h | g in gids && h in gids :: Load(shards, g) <= Load(shards, h) + 1
  }

  /** All shards on member groups with loads that differ by one at most; all unassigned without groups. */
  ghost predicate Balanced(shards: seq<int>, gids: seq<int>) {
    if gids == [] then forall s | 0 <= s < |shards| :: shards[s] == 0
    else OnMembers(shards, gids) && Even(shards, gids)
  }

  lemma UnevenMeaning(shards: seq<int>, gids: seq<int>)
    requires gids != [] && Ascending(gids)
    ensures !Uneven(shards, gids) <==> Even(shards, gids)
  {
    LeastMeaning(shards, gids);
    MostMeaning(shards, gids);
  }

  lemma {:induction false} AssignedOnMembers(shards: seq<int>, gids: seq<int>, i: nat)
    requires gids != [] && Ascending(gids) && i <= |shards|
    requires forall s | 0 <= s < i :: shards[s] in gids
    ensures OnMembers(Assigned(shards, gids, i), gids)
    decreases |shards| - i
  {
    if i < |shards| {
      LeastMeaning(shards, gids);
      AssignedOnMembers(if shards[i] in gids then shards else shards[i := Least(shards, gids)], gids, i + 1);
    }
  }

  lemma {:induction false} LeveledBalances(shards: seq<int>, gids: seq<int>)
    requires gids != [] && Ascending(gids) && OnMembers(shards, gids)
    ensures Balanced(Leveled(shards, gids), gids)
    decreases SumSquares(shards, gids)
  {
    UnevenMeaning(shards, gids);
    if Uneven(shards, gids) {
      LeastMeaning(shards, gids);
      MoveShrinks(shards, gids);
      LeveledBalances(Moved(shards, gids), gids);
    }
  }

  /** Whatever the table held before, it is balanced afterwards. */
  lemma RebalancedIsBalanced(shards: seq<int>, gids: seq<int>)
    requires Ascending(gids)
    ensures Balanced(Rebalanced(shards, gids), gids)
  {
    if gids != [] {
      AssignedOnMembers(shards, gids, 0);
      LeveledBalances(Assigned(shards, gids, 0), gids);
    }
  }

  // ---------------------------------------------------------------- joining moves little

  /** The state of the leveling loop after new groups joined a balanced table. */
  ghost predicate Filling(shards: seq<int>, gids: seq<int>, before: seq<int>) {
    && OnMembers(shards, gids)
    && (forall g, h | g in before && h in before :: Load(shards, g) <= Load(shards, h) + 1)
    && (forall x, y | x in gids && x !in before && y in gids && y !in before :: Load(shards, x) <= Load(shards, y) + 1)
    && (forall x, g | x in gids && x !in before && g in before :: Load(shards, x) <= Load(shards, g))
  }

  ghost predicate OnlyOnto(from: seq<int>, to: seq<int>, before: seq<int>) {
    && |to| == |from|
    && forall s | 0 <= s < |from| :: to[s] == from[s] || to[s] !in before
  }

  function LoadMoved(shards: seq<int>, l: int, m: int, g: int): int {
    Load(shards, g) + (if g == l then 1 else 0) - (if g == m then 1 else 0)
  }

  lemma FillingStep(shards: seq<int>, moved: seq<int>, gids: seq<int>, before: seq<int>, l: int, m: int)
    requires Filling(shards, gids, before) && OnMembers(moved, gids)
    requires l in gids && l !in before && m in before
    requires forall g | g in before :: g in gids
    requires forall g | g in gids :: Load(shards, l) <= Load(shards, g) <= Load(shards, m)
    requires Load(shards, m) >= Load(shards, l) + 2
    requires forall g :: Load(moved, g) == LoadMoved(shards, l, m, g)
    ensures Filling(moved, gids, before)
  {
  }

  /** A move while filling takes a shard from an old group to a new one. */
  lemma FillingMove(shards: seq<int>, gids: seq<int>, before: seq<int>)
    requires gids != [] && Ascending(gids) && Uneven(shards, gids) && Filling(shards, gids, before)
    requires forall g | g in before :: g in gids
    ensures Filling(Moved(shards, gids), gids, before)
    ensures Least(shards, gids) !in before
  {
    LeastMeaning(shards, gids);
    MostMeaning(shards, gids);
    var l, m := Least(shards, gids), Most(shards, gids);
    assert l !in before && m in before;
    FillingStep(shards, Moved(shards, gids), gids, before, l, m) by {
      assert m in shards;
      forall g ensures Load(Moved(shards, gids), g) == LoadMoved(shards, l, m, g) {
        LoadAfter(shards, First(shards, m), l, g);
      }
    }
  }

  lemma {:induction false} LeveledOnlyOnto(shards: seq<int>, gids: seq<int>, before: seq<int>)
    requires gids != [] && Ascending(gids) && Filling(shards, gids, before)
    requires forall g | g in before :: g in gids
    ensures OnlyOnto(shards, Leveled(shards, gids), before)
    ensures Filling(Leveled(shards, gids), gids, before)
    decreases SumSquares(shards, gids)
  {
    if Uneven(shards, gids) {
      FillingMove(shards, gids, before);
      MoveShrinks(shards, gids);
      LeveledOnlyOnto(Moved(shards, gids), gids, before);
    }
  }

  lemma {:induction false} AssignedIdle(shards: seq<int>, gids: seq<int>, i: nat)
    requires gids != [] && i <= |shards| && OnMembers(shards, gids)
    ensures Assigned(shards, gids, i) == shards
    decreases |shards| - i
  {
    if i < |shards| {
      AssignedIdle(shards, gids, i + 1);
    }
  }

  lemma NewGroupsAreEmpty(shards: seq<int>, before: seq<int>, x: int)
    requires OnMembers(shards, before) && x !in before
    ensures Load(shards, x) == 0
  {
    assert x !in shards;
  }

  /** Groups joining a balanced table: shards move only onto the new groups. */
  lemma JoinMovesOntoNewGroups(shards: seq<int>, before: seq<int>, gids: seq<int>)
    requires before != [] && Balanced(shards, before) && Ascending(gids)
    requires forall g | g in before :: g in gids
    ensures OnlyOnto(shards, Rebalanced(shards, gids), before)
    ensures gids != [] && Filling(Rebalanced(shards, gids), gids, before)
  {
    var b0 := before[0];
    assert b0 in before;
    assert b0 in gids;
    forall s | 0 <= s < |shards| ensures shards[s] in gids {
      var g := shards[s];
      assert g in before;
    }
    AssignedIdle(shards, gids, 0);
    forall x | x in gids && x !in before ensures Load(shards, x) == 0 {
      NewGroupsAreEmpty(shards, before, x);
    }
    LeveledOnlyOnto(shards, gids, before);
  }

  // ---------------------------------------------------------------- how many

  function TotalLoad(m: multiset<int>, gids: seq<int>): nat {
    if gids == [] then 0 else TotalLoad(m, gids[..|gids| - 1]) + m[gids[|gids| - 1]]
  }

  lemma {:induction false} TotalWithout(m: multiset<int>, gids: seq<int>, g: int)
    requires g !in gids
    ensures TotalLoad(m[g := 0], gids) == TotalLoad(m, gids)
  {
    if gids != [] {
      TotalWithout(m, gids[..|gids| - 1], g);
    }
  }

  /** The loads of the member groups add up to the number of shards. */
  lemma {:induction false} LoadsAddUp(m: multiset<int>, gids: seq<int>)
    requires Ascending(gids) && forall g | g in m :: g in gids
    ensures TotalLoad(m, gids) == |m|
  {
    if gids == [] {
      assert forall g :: m[g] == 0;
      assert m == multiset{};
    } else {
      var n := |gids| - 1;
      var g := gids[n];
      assert forall h | h in gids :: h in gids[..n] || h == g;
      LoadsAddUp(m[g := 0], gids[..n]);
      TotalWithout(m, gids[..n], g);
    }
  }

  lemma {:induction false} TotalBetween(m: multiset<int>, gids: seq<int>, low: nat)
    requires forall g | g in gids :: low <= m[g] <= low + 1
    ensures |gids| * low <= TotalLoad(m, gids) <= |gids| * low + |gids|
  {
    if gids != [] {
      var n := |gids| - 1;
      TotalBetween(m, gids[..n], low);
      var g := gids[n];
      assert g in gids && low <= m[g] <= low + 1;
      assert |gids| * low == n * low + low;
    } else {
      assert |gids| * low == 0;
    }
  }

  /** The same, counting one group that has the low load apart. */
  lemma {:induction false} TotalBelow(m: multiset<int>, gids: seq<int>, low: nat, x: int)
    requires x in gids && m[x] == low && forall g | g in gids :: low <= m[g] <= low + 1
    ensures TotalLoad(m, gids) < |gids| * low + |gids|
  {
    var n := |gids| - 1;
    assert |gids| * low == n * low + low;
    if gids[n] == x {
      TotalBetween(m, gids[..n], low);
    } else {
      TotalBelow(m, gids[..n], low, x);
    }
  }

  lemma {:induction false} TimesGrows(n: nat, a: nat, b: nat)
    requires a <= b
    ensures n * a <= n * b
  {
    if a < b {
      TimesGrows(n, a, b - 1);
      assert n * b == n * (b - 1) + n;
    }
  }

  lemma AtMost(n: nat, a: nat, b: nat)
    requires n * a < n * b + n
    ensures a <= b
  {
    assert n * (b + 1) == n * b + n;
    if a > b {
      TimesGrows(n, b + 1, a);
      assert false;
    }
  }

  lemma Quotient(total: nat, n: nat, low: nat)
    requires n > 0 && n * low <= total < n * low + n
    ensures total / n == low
  {
    var q := total / n;
    assert n * q <= total < n * q + n;
    AtMost(n, q, low);
    AtMost(n, low, q);
  }

  /** In a balanced table a group that has no more than any other has the whole part of an equal share. */
  lemma LowestHasQuotient(shards: seq<int>, gids: seq<int>, x: int)
    requires Ascending(gids) && x in gids && Balanced(shards, gids)
    requires forall g | g in gids :: Load(shards, x) <= Load(shards, g)
    ensures Load(shards, x) == |shards| / |gids|
  {
    var m, low := multiset(shards), Load(shards, x);
    forall g | g in m ensures g in gids {
      var s :| 0 <= s < |shards| && shards[s] == g;
    }
    LoadsAddUp(m, gids);
    TotalBetween(m, gids, low);
    TotalBelow(m, gids, low, x);
    Quotient(|shards|, |gids|, low);
  }

  /** A single new group ends with exactly the whole part of its fair share. */
  lemma JoinGivesFairShare(shards: seq<int>, before: seq<int>, gids: seq<int>, x: int)
    requires before != [] && Balanced(shards, before) && Ascending(gids)
    requires x !in before && (forall g :: g in gids <==> g in before || g == x)
    ensures Load(Rebalanced(shards, gids), x) == |shards| / |gids|
  {
    JoinMovesOntoNewGroups(shards, before, gids);
    RebalancedIsBalanced(shards, gids);
    LowestHasQuotient(Rebalanced(shards, gids), gids, x);
  }

  // ---------------------------------------------------------------- leaving moves little

  ghost predicate Stays(from: seq<int>, to: seq<int>, gids: seq<int>) {
    && |to| == |from|
    && forall s | 0 <= s < |from| && from[s] in gids :: to[s] == from[s]
  }

  lemma EvenAfterOne(shards: seq<int>, gids: seq<int>, i: nat)
    requires gids != [] && Ascending(gids) && i < |shards| && shards[i] !in gids && Even(shards, gids)
    ensures Even(shards[i := Least(shards, gids)], gids)
  {
    var l := Least(shards, gids);
    LeastMeaning(shards, gids);
    forall g | g in gids ensures Load(shards[i := l], g) == Load(shards, g) + (if g == l then 1 else 0) {
      LoadAfter(shards, i, l, g);
    }
  }

  /** Handing orphaned shards to the least loaded group keeps the loads even. */
  lemma {:induction false} AssignedStays(shards: seq<int>, gids: seq<int>, i: nat)
    requires gids != [] && Ascending(gids) && i <= |shards| && Even(shards, gids)
    ensures Stays(shards, Assigned(shards, gids, i), gids)
    ensures Even(Assigned(shards, gids, i), gids)
    decreases |shards| - i
  {
    if i < |shards| {
      if shards[i] in gids {
        AssignedStays(shards, gids, i + 1);
      } else {
        EvenAfterOne(shards, gids, i);
        AssignedStays(shards[i := Least(shards, gids)], gids, i + 1);
      }
    }
  }

  /** Groups leaving a balanced table, others remaining: every other shard stays where it was. */
  lemma LeaveKeepsOtherShards(shards: seq<int>, before: seq<int>, gids: seq<int>)
    requires Balanced(shards, before) && Ascending(gids) && gids != []
    requires forall g | g in gids :: g in before
    ensures Stays(shards, Rebalanced(shards, gids), gids)
  {
    assert gids[0] in gids && gids[0] in before;
    AssignedStays(shards, gids, 0);
    UnevenMeaning(Assigned(shards, gids, 0), gids);
  }
}
