/**
 The configuration object of src/shardkv1/shardcfg/shardcfg.go: groups join and leave, and
 Rebalance levels the shard table in place.
 */
module ShardConfig {
  import opened Sets
  import opened ShardBalance

  const NSHARDS: nat := 12

  /** Fatal: the source ends the process with log.Fatalf. */
  datatype Outcome = Done | Refused | Fatal

  lemma {:induction false} HasMinimum(s: set<int>)
    requires s != {}
    ensures exists m :: m in s && forall x | x in s :: m <= x
    decreases |s|
  {
    var a := SomeElement(s);
    var rest := s - {a};
    var least := a;
    if rest != {} {
      HasMinimum(rest);
      var m :| m in rest && forall x | x in rest :: m <= x;
      least := if a <= m then a else m;
    }
    forall x | x in s ensures least <= x {
      if x != a {
        assert x in rest;
      }
    }
  }

  /** The group ids in ascending order. */
  ghost function Gids(s: set<int>): (r: seq<int>)
    ensures Ascending(r) && forall g :: g in r <==> g in s
    ensures s == {} <==> r == []
    decreases |s|
  {
    if s == {} then []
    else
      HasMinimum(s);
      var m :| m in s && forall x | x in s :: m <= x;
      var rest := Gids(s - {m});
      assert forall i | 0 <= i < |rest| :: rest[i] in rest;
      [m] + rest
  }

  /** Only one ascending sequence has given elements. */
  lemma {:induction false} AscendingUnique(a: seq<int>, b: seq<int>)
    requires Ascending(a) && Ascending(b) && forall g :: g in a <==> g in b
    ensures a == b
  {
    if a != [] {
      var x := a[0];
      assert x in a;
      assert b != [];
    }
    if b != [] {
      var y := b[0];
      assert y in b;
      assert a != [];
    }
    if a != [] {
      var x, y := a[0], b[0];
      assert x in a && y in b;
      assert x == y;
      var a', b' := a[1..], b[1..];
      forall g ensures g in a' <==> g in b' {
        assert g in a <==> g == x || g in a';
        assert g in b <==> g == y || g in b';
        assert x !in a' && y !in b';
      }
      AscendingUnique(a', b');
    }
  }

  /** The sorted list of a map's keys. */
  method SortedGids(s: set<int>) returns (gids: seq<int>)
    ensures gids == Gids(s)
  {
    gids := [];
    var rest := s;
    while rest != {}
      invariant rest <= s && Ascending(gids)
      invariant forall g :: g in gids <==> g in s - rest
      decreases |rest|
    {
      var g := Pick(rest);
      gids := Insert(gids, g);
      rest := rest - {g};
    }
    AscendingUnique(gids, Gids(s));
  }

  method Insert(gids: seq<int>, g: int) returns (r: seq<int>)
    requires Ascending(gids) && g !in gids
    ensures Ascending(r) && forall x :: x in r <==> x in gids || x == g
  {
    var k := 0;
    while k < |gids| && gids[k] < g
      invariant k <= |gids| && forall i | 0 <= i < k :: gids[i] < g
    {
      k := k + 1;
    }
    r := gids[..k] + [g] + gids[k..];
    forall x ensures x in r <==> x in gids || x == g {
      assert gids == gids[..k] + gids[k..];
    }
  }

  // ---------------------------------------------------------------- joining and leaving, as values

  ghost predicate Shares(a: seq<string>, b: seq<string>) {
    exists x :: x in a && x in b
  }

  /** New, non-empty set of groups, and no server in two groups. */
  ghost predicate JoinAllowed(groups: map<int, seq<string>>, servers: map<int, seq<string>>) {
    && servers != map[]
    && servers.Keys !! groups.Keys
    && (forall g, h | g in servers && h in groups :: !Shares(groups[h], servers[g]))
    && (forall g, h | g in servers && h in servers && g != h :: !Shares(servers[h], servers[g]))
  }

  ghost predicate LeaveAllowed(groups: map<int, seq<string>>, gids: seq<int>) {
    && gids != []
    && (forall i | 0 <= i < |gids| :: gids[i] in groups)
    && (forall i, j | 0 <= i < j < |gids| :: gids[i] != gids[j])
  }

  lemma LeavingSet(groups: map<int, seq<string>>, gids: seq<int>)
    requires LeaveAllowed(groups, gids)
    ensures var gone := set g | g in gids; gone != {} && gone <= groups.Keys && (groups - gone).Keys == groups.Keys - gone
  {
    var gone := set g | g in gids;
    var first := gids[0];
    assert first in gids && first in gone;
  }

  function CountIn(counts: map<int, nat>, g: int): nat {
    if g in counts then counts[g] else 0
  }

  lemma LoadOneMore(s: seq<int>, x: int, g: int)
    ensures Load(s + [x], g) == Load(s, g) + (if g == x then 1 else 0)
  {
  }

  /** One more group looked at. */
  lemma MostNext(table: seq<int>, gids: seq<int>, i: nat)
    requires 0 < i < |gids|
    ensures Most(table, gids[..i + 1]) ==
      var g := Most(table, gids[..i]);
      if Load(table, gids[i]) > Load(table, g) then gids[i] else g
    ensures Least(table, gids[..i + 1]) ==
      var g := Least(table, gids[..i]);
      if Load(table, gids[i]) < Load(table, g) then gids[i] else g
  {
    assert gids[..i + 1][..i] == gids[..i];
  }

  /** The groups taken so far clash with nothing. */
  ghost predicate Fits(groups: map<int, seq<string>>, servers: map<int, seq<string>>, done: set<int>)
    requires done <= servers.Keys
  {
    && done !! groups.Keys
    && (forall g, h | g in done && h in groups :: !Shares(groups[h], servers[g]))
    && (forall g, h | g in done && h in done && g != h :: !Shares(servers[h], servers[g]))
  }

  ghost predicate JoinedSo(groups: map<int, seq<string>>, servers: map<int, seq<string>>, done: set<int>, now: map<int,
                           seq<string>>)
    requires done <= servers.Keys
  {
    && now.Keys == groups.Keys + done
    && (forall g | g in groups :: now[g] == groups[g])
    && (forall g | g in done :: now[g] == servers[g])
  }

  /** The next group fits exactly when its id is new and it clashes with no group present. */
  lemma FitsNext(groups: map<int, seq<string>>, servers: map<int, seq<string>>, done: set<int>, now: map<int,
                 seq<string>>, gid: int)
    requires done <= servers.Keys && gid in servers && gid !in done
    requires Fits(groups, servers, done) && JoinedSo(groups, servers, done, now)
    ensures Fits(groups, servers, done + {gid}) <==> gid !in now && !exists h ::
        h in now && Shares(now[h], servers[gid])
  {
    forall a: seq<string>, b: seq<string> ensures Shares(a, b) == Shares(b, a) {
    }
    if Fits(groups, servers, done + {gid}) {
      forall h | h in now ensures !Shares(now[h], servers[gid]) {
      }
    }
  }

  /** The old groups, all kept, and some of the new ones. */
  ghost predicate PartlyJoined(groups: map<int, seq<string>>, servers: map<int, seq<string>>, now: map<int,
                               seq<string>>) {
    exists done :: done <= servers.Keys && done !! groups.Keys && JoinedSo(groups, servers, done, now)
  }

  /** A group that does not fit makes the whole Join impossible. */
  lemma JoinStops(groups: map<int, seq<string>>, servers: map<int, seq<string>>, done: set<int>, now: map<int,
                  seq<string>>, gid: int)
    requires done <= servers.Keys && gid in servers
    requires Fits(groups, servers, done) && JoinedSo(groups, servers, done, now)
    ensures PartlyJoined(groups, servers, now)
    ensures JoinAllowed(groups, servers) ==> Fits(groups, servers, done + {gid})
  {
  }

  lemma JoinGoesOn(groups: map<int, seq<string>>, servers: map<int, seq<string>>, done: set<int>, now: map<int,
                   seq<string>>, gid: int)
    requires done <= servers.Keys && gid in servers && gid !in now && JoinedSo(groups, servers, done, now)
    ensures JoinedSo(groups, servers, done + {gid}, now[gid := servers[gid]])
  {
  }

  lemma OneLess(all: set<int>, rest: set<int>, g: int)
    requires rest <= all && g in rest
    ensures all - (rest - {g}) == (all - rest) + {g} && |rest - {g}| < |rest|
  {
  }

  lemma JoinEnds(groups: map<int, seq<string>>, servers: map<int, seq<string>>, now: map<int, seq<string>>)
    requires Fits(groups, servers, servers.Keys) && JoinedSo(groups, servers, servers.Keys, now)
    ensures now == groups + servers && PartlyJoined(groups, servers, now)
    ensures JoinAllowed(groups, servers) <==> servers != map[]
  {
    assert now.Keys == (groups + servers).Keys;
    assert forall g | g in now :: now[g] == (groups + servers)[g];
  }

  // ---------------------------------------------------------------- histories of configurations

  datatype Config = Config(shards: seq<int>, groups: set<int>)

  ghost predicate Joined(c: Config, c': Config, added: set<int>) {
    && added != {} && added !! c.groups && c'.groups == c.groups + added
    && c'.shards == Rebalanced(c.shards, Gids(c'.groups))
  }

  ghost predicate Departed(c: Config, c': Config, gone: set<int>) {
    && gone != {} && gone <= c.groups && c'.groups == c.groups - gone
    && c'.shards == Rebalanced(c.shards, Gids(c'.groups))
  }

  /** The first configuration and what successful JoinBalance and LeaveBalance calls make of it. */
  ghost predicate IsHistory(cs: seq<Config>) {
    && cs != []
    && cs[0] == Config(seq(NSHARDS, _ => 0), {})
    && forall i | 0 <= i < |cs| - 1 :: Changed(cs[i], cs[i + 1])
  }

  ghost predicate Changed(c: Config, c': Config) {
    exists gids: set<int> :: Joined(c, c', gids) || Departed(c, c', gids)
  }

  /** Every configuration reached is balanced. */
  lemma {:induction false} HistoryBalanced(cs: seq<Config>, n: nat)
    requires IsHistory(cs) && n < |cs|
    ensures |cs[n].shards| == NSHARDS && Balanced(cs[n].shards, Gids(cs[n].groups))
  {
    if n > 0 {
      HistoryBalanced(cs, n - 1);
      assert Changed(cs[n - 1], cs[n - 1 + 1]);
      RebalancedIsBalanced(cs[n - 1].shards, Gids(cs[n].groups));
    }
  }

  /** In every history a join moves shards only onto the new groups, unless there were no groups. */
  lemma HistoryJoin(cs: seq<Config>, n: nat, added: set<int>)
    requires IsHistory(cs) && n + 1 < |cs| && Joined(cs[n], cs[n + 1], added) && cs[n].groups != {}
    ensures |cs[n].shards| == |cs[n + 1].shards| == NSHARDS && |cs[n + 1].groups| > 0
    ensures forall s | 0 <= s < NSHARDS :: cs[n + 1].shards[s] == cs[n].shards[s] || cs[n + 1].shards[s] in added
    ensures forall x | added == {x} :: Load(cs[n + 1].shards, x) == NSHARDS / |cs[n + 1].groups|
  {
    HistoryBalanced(cs, n);
    HistoryBalanced(cs, n + 1);
    var before, gids := Gids(cs[n].groups), Gids(cs[n + 1].groups);
    JoinMovesOntoNewGroups(cs[n].shards, before, gids);
    forall s | 0 <= s < NSHARDS ensures cs[n + 1].shards[s] == cs[n].shards[s] || cs[n + 1].shards[s] in added {
      var g := cs[n + 1].shards[s];
      assert g in gids;
    }
    forall x | added == {x} ensures Load(cs[n + 1].shards, x) == NSHARDS / |cs[n + 1].groups| {
      JoinGivesFairShare(cs[n].shards, before, gids, x);
      GidsLength(cs[n + 1].groups);
    }
  }

  /** In every history a leave keeps each shard of a remaining group where it is. */
  lemma HistoryLeave(cs: seq<Config>, n: nat, gone: set<int>)
    requires IsHistory(cs) && n + 1 < |cs| && Departed(cs[n], cs[n + 1], gone) && cs[n + 1].groups != {}
    ensures |cs[n].shards| == |cs[n + 1].shards| == NSHARDS
    ensures forall s | 0 <= s < NSHARDS && cs[n].shards[s] !in gone :: cs[n + 1].shards[s] == cs[n].shards[s]
  {
    HistoryBalanced(cs, n);
    HistoryBalanced(cs, n + 1);
    var before, gids := Gids(cs[n].groups), Gids(cs[n + 1].groups);
    LeaveKeepsOtherShards(cs[n].shards, before, gids);
    forall s | 0 <= s < NSHARDS && cs[n].shards[s] !in gone ensures cs[n + 1].shards[s] == cs[n].shards[s] {
      var g := cs[n].shards[s];
      assert g in before;
    }
  }

  lemma {:induction false} GidsLength(s: set<int>)
    ensures |Gids(s)| == |s|
    decreases |s|
  {
    var r := Gids(s);
    if s != {} {
      var m := r[0];
      assert m in r;
      forall g ensures g in r[1..] <==> g in s - {m} {
        assert r == [m] + r[1..];
        assert m !in r[1..];
      }
      AscendingUnique(r[1..], Gids(s - {m}));
      GidsLength(s - {m});
    }
  }

  class ShardConfig {
    var num: nat
    const shards: array<int>
    var groups: map<int, seq<string>>

    ghost predicate Valid() {
      shards.Length == NSHARDS
    }

    /** The sorted ids of the member groups. */
    ghost function Members(): seq<int>
      reads this
    {
      Gids(groups.Keys)
    }

    ghost function Contents(): Config
      reads this, shards
    {
      Config(shards[..], groups.Keys)
    }

    constructor ()
      ensures Valid() && fresh(shards) && num == 0 && groups == map[]
      ensures IsHistory([Contents()])
    {
      num, groups := 0, map[];
      shards := new int[NSHARDS](_ => 0);
    }

    method CountShards() returns (counts: map<int, nat>)
      ensures forall g :: CountIn(counts, g) == Load(shards[..], g)
    {
      counts := map[];
      var i := 0;
      while i < shards.Length
        invariant i <= shards.Length
        invariant forall g :: CountIn(counts, g) == Load(shards[..i], g)
      {
        var g := shards[i];
        ghost var counted := shards[..i];
        assert shards[..i + 1] == counted + [g];
        forall h ensures Load(shards[..i + 1], h) == Load(counted, h) + (if h == g then 1 else 0) {
          LoadOneMore(counted, g, h);
        }
        ghost var before := counts;
        counts := counts[g := CountIn(counts, g) + 1];
        forall h ensures CountIn(counts, h) == Load(shards[..i + 1], h) {
          assert CountIn(before, h) == Load(counted, h);
        }
        i := i + 1;
      }
      assert shards[..] == shards[..shards.Length];
    }

    method Analyze() returns (mg: int, mn: int, lg: int, ln: int)
      requires Valid()
      ensures groups == map[] ==> (mg, mn, lg, ln) == (-1, -1, -1, 257)
      ensures groups != map[] ==>
        && mg == Most(shards[..], Members()) && mn == Load(shards[..], mg)
        && lg == Least(shards[..], Members()) && ln == Load(shards[..], lg)
    {
      var counts := CountShards();
      mg, mn, lg, ln := -1, -1, -1, 257;
      var gids := SortedGids(groups.Keys);
      assert groups == map[] <==> gids == [];
      ghost var table := shards[..];
      var i := 0;
      while i < |gids|
        invariant i <= |gids|
        invariant i == 0 ==> (mg, mn, lg, ln) == (-1, -1, -1, 257)
        invariant i > 0 ==> mg == Most(table, gids[..i]) && mn == Load(table, mg)
        invariant i > 0 ==> lg == Least(table, gids[..i]) && ln == Load(table, lg)
      {
        var g := gids[i];
        if i > 0 {
          MostNext(table, gids, i);
        }
        assert CountIn(counts, g) == Load(table, g) <= |table|;
        if CountIn(counts, g) < ln {
          ln, lg := CountIn(counts, g), g;
        }
        if CountIn(counts, g) > mn {
          mn, mg := CountIn(counts, g), g;
        }
        i := i + 1;
      }
      assert gids[..|gids|] == gids;
    }

    method LeastLoaded() returns (lg: int)
      requires Valid()
      ensures groups != map[] ==> lg == Least(shards[..], Members())
    {
      var _, _, l, _ := Analyze();
      lg := l;
    }

    method Unassign()
      modifies shards
      ensures shards[..] == seq(shards.Length, _ => 0)
    {
      var s := 0;
      while s < shards.Length
        invariant s <= shards.Length && forall k | 0 <= k < s :: shards[k] == 0
      {
        shards[s] := 0;
        s := s + 1;
      }
    }

    method AssignOrphans()
      requires Valid() && groups != map[]
      modifies shards
      ensures shards[..] == Assigned(old(shards[..]), Members(), 0)
    {
      ghost var gids := Members();
      var s := 0;
      while s < shards.Length
        invariant s <= shards.Length
        invariant Assigned(shards[..], gids, s) == Assigned(old(shards[..]), gids, 0)
      {
        ghost var before := shards[..];
        var g := shards[s];
        assert g in gids <==> g in groups;
        if g !in groups {
          var lg := LeastLoaded();
          shards[s] := lg;
          assert shards[..] == before[s := lg];
        }
        s := s + 1;
      }
    }

    method MoveOne(mg: int, lg: int)
      requires Valid() && mg in shards[..]
      modifies shards
      ensures shards[..] == old(shards[..])[First(old(shards[..]), mg) := lg]
    {
      var s := 0;
      ghost var table := shards[..];
      assert table[0..] == table;
      while shards[s] != mg
        invariant s < shards.Length && mg in table[s..]
        invariant FirstOf(table, mg, s) == FirstOf(table, mg, 0)
        decreases shards.Length - s
      {
        assert table[s..][1..] == table[s + 1..];
        s := s + 1;
      }
      shards[s] := lg;
    }

    method Rebalance()
      requires Valid()
      modifies shards
      ensures shards[..] == Rebalanced(old(shards[..]), Members())
      ensures Balanced(shards[..], Members())
    {
      RebalancedIsBalanced(shards[..], Members());
      if |groups| < 1 {
        Unassign();
        return;
      }
      AssignOrphans();
      ghost var gids := Members();
      while true
        invariant Leveled(shards[..], gids) == Rebalanced(old(shards[..]), gids)
        decreases SumSquares(shards[..], gids)
      {
        var mg, mn, lg, ln := Analyze();
        if mn < ln + 2 {
          break;
        }
        assert Uneven(shards[..], gids);
        MoveShrinks(shards[..], gids);
        MoveOne(mg, lg);
      }
    }

    /** Whether some server is already in a group of the configuration. */
    method Clashes(servers: seq<string>) returns (b: bool)
      ensures b <==> exists h :: h in groups && Shares(groups[h], servers)
    {
      var rest := groups.Keys;
      while rest != {}
        invariant rest <= groups.Keys
        invariant forall h | h in groups && h !in rest :: !Shares(groups[h], servers)
        decreases |rest|
      {
        var h := Pick(rest);
        var i := 0;
        while i < |groups[h]|
          invariant i <= |groups[h]| && forall k | 0 <= k < i :: groups[h][k] !in servers
        {
          var j := 0;
          while j < |servers|
            invariant j <= |servers| && groups[h][i] !in servers[..j]
          {
            if groups[h][i] == servers[j] {
              var x := servers[j];
              assert x in groups[h] && x in servers;
              return true;
            }
            j := j + 1;
          }
          assert servers[..|servers|] == servers;
          i := i + 1;
        }
        rest := rest - {h};
      }
      return false;
    }

    method Join(servers: map<int, seq<string>>) returns (r: Outcome)
      requires Valid()
      modifies this
      ensures r == Done <==> JoinAllowed(old(groups), servers)
      ensures r == Done ==> groups == old(groups) + servers && num == old(num) + 1
      ensures r != Done ==> num == old(num) && PartlyJoined(old(groups), servers, groups)
    {
      var rest := servers.Keys;
      while rest != {}
        invariant rest <= servers.Keys
        invariant num == old(num)
        invariant Fits(old(groups), servers, servers.Keys - rest)
        invariant JoinedSo(old(groups), servers, servers.Keys - rest, groups)
        decreases |rest|
      {
        var gid := Pick(rest);
        ghost var done := servers.Keys - rest;
        OneLess(servers.Keys, rest, gid);
        FitsNext(old(groups), servers, done, groups, gid);
        JoinStops(old(groups), servers, done, groups, gid);
        if gid in groups {
          return Refused;
        }
        var clash := Clashes(servers[gid]);
        if clash {
          return Fatal;
        }
        JoinGoesOn(old(groups), servers, done, groups, gid);
        groups := groups[gid := servers[gid]];
        rest := rest - {gid};
      }
      assert servers.Keys - {} == servers.Keys;
      JoinEnds(old(groups), servers, groups);
      if servers == map[] {
        return Fatal;
      }
      num := num + 1;
      r := Done;
    }

    method Leave(gids: seq<int>) returns (r: Outcome)
      requires Valid()
      modifies this
      ensures r == Done <==> LeaveAllowed(old(groups), gids)
      ensures r == Done ==> groups == old(groups) - (set g | g in gids) && num == old(num) + 1
      ensures r != Done ==>
          num == old(num) && exists k :: 0 <= k <= |gids| && groups == old(groups) - (set g | g in gids[..k])
    {
      var i := 0;
      while i < |gids|
        invariant i <= |gids| && num == old(num)
        invariant groups == old(groups) - (set g | g in gids[..i])
        invariant i > 0 ==> LeaveAllowed(old(groups), gids[..i])
      {
        var gid := gids[i];
        assert gids[..i + 1] == gids[..i] + [gid];
        if gid !in groups {
          return Refused;
        }
        groups := groups - {gid};
        i := i + 1;
      }
      assert gids[..|gids|] == gids;
      if |gids| == 0 {
        return Fatal;
      }
      num := num + 1;
      r := Done;
    }

    method JoinBalance(servers: map<int, seq<string>>) returns (r: Outcome)
      requires Valid()
      modifies this, shards
      ensures r == Done <==> JoinAllowed(old(groups), servers)
      ensures r == Done ==> groups == old(groups) + servers && num == old(num) + 1
      ensures r == Done ==> Joined(old(Contents()), Contents(), servers.Keys) && Balanced(shards[..], Members())
      ensures r != Done ==> num == old(num) && shards[..] == old(shards[..])
    {
      r := Join(servers);
      if r == Done {
        Rebalance();
      }
    }

    method LeaveBalance(gids: seq<int>) returns (r: Outcome)
      requires Valid()
      modifies this, shards
      ensures r == Done <==> LeaveAllowed(old(groups), gids)
      ensures r == Done ==> groups == old(groups) - (set g | g in gids) && num == old(num) + 1
      ensures r == Done ==> Departed(old(Contents()), Contents(), set g | g in gids) && Balanced(shards[..], Members())
      ensures r != Done ==> num == old(num) && shards[..] == old(shards[..])
    {
      r := Leave(gids);
      if r == Done {
        LeavingSet(old(groups), gids);
        Rebalance();
      }
    }
  }
}
