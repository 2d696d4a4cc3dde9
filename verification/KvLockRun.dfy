/**
 Acquire and Release, as their loops run among other lock clients, are runs of LockProtocol.  The schedule
 says what the others do before each attempt of the clerk reaches the server; from it come both the
 schedule of Puts that the loop is run under and the steps of the protocol.
 */
module KvLockRun {
  import opened Options
  import opened KvServer
  import H = KvHistory
  import opened KvClerk
  import opened KvLock
  import opened LockProtocol

  /** One attempt: the steps of others before it, and what becomes of it. */
  datatype Among = Among(others: seq<Step>, fate: H.Fate)

  datatype AmongTurn = AmongTurn(forGet: seq<Among>, forPut: seq<Among>)

  // ---------------------------------------------------------------- sequences of steps

  ghost predicate Leads(s: Sys, steps: seq<Step>, s': Sys)
    decreases |steps|
  {
    if steps == [] then s' == s
    else Enabled(s, steps[0]) && Leads(After(s, steps[0]), steps[1..], s')
  }

  lemma {:induction false} LeadsOn(s: Sys, steps: seq<Step>, s1: Sys, more: seq<Step>, s': Sys)
    requires Leads(s, steps, s1) && Leads(s1, more, s')
    ensures Leads(s, steps + more, s')
    decreases |steps|
  {
    if steps == [] {
      assert steps + more == more;
    } else {
      assert (steps + more)[1..] == steps[1..] + more;
      LeadsOn(After(s, steps[0]), steps[1..], s1, more, s');
    }
  }

  lemma LeadsOne(s: Sys, steps: seq<Step>, s1: Sys, step: Step) returns (steps': seq<Step>)
    requires Leads(s, steps, s1) && Enabled(s1, step)
    ensures Leads(s, steps', After(s1, step))
  {
    assert [step][1..] == [];
    LeadsOn(s, steps, s1, [step], After(s1, step));
    steps' := steps + [step];
  }

  // ---------------------------------------------------------------- what the others do

  predicate ByOthers(step: Step, i: nat) {
    step.Elsewhere? || step.c != i
  }

  ghost predicate Feasible(s: Sys, i: nat, steps: seq<Step>)
    decreases |steps|
  {
    steps == [] || (ByOthers(steps[0], i) && Enabled(s, steps[0]) && Feasible(After(s, steps[0]), i, steps[1..]))
  }

  ghost function Moved(s: Sys, i: nat, steps: seq<Step>): Sys
    requires Feasible(s, i, steps)
    decreases |steps|
  {
    if steps == [] then s else Moved(After(s, steps[0]), i, steps[1..])
  }

  /** The Puts that the steps bring to the server. */
  ghost function PutsIn(s: Sys, i: nat, steps: seq<Step>): seq<PutArgs>
    requires Feasible(s, i, steps)
    decreases |steps|
  {
    if steps == [] then []
    else
      var here :=
        match steps[0]
        case PutTry(c, fate) => if fate == H.RequestLost then [] else [PutOf(s.key, s.clients[c])]
        case Elsewhere(a) => [a]
        case _ => [];
      here + PutsIn(After(s, steps[0]), i, steps[1..])
  }

  lemma {:induction false} OthersMove(s: Sys, i: nat, steps: seq<Step>)
    requires Feasible(s, i, steps) && i in s.clients
    ensures
      var s' := Moved(s, i, steps);
      && Leads(s, steps, s') && s'.key == s.key && i in s'.clients && s'.clients[i] == s.clients[i]
      && s'.store == OthersPut(s.store, PutsIn(s, i, steps))
    decreases |steps|
  {
    if steps != [] {
      var s1 := After(s, steps[0]);
      OthersMove(s1, i, steps[1..]);
      var puts, rest := PutsIn(s, i, steps), PutsIn(s1, i, steps[1..]);
      if s1.store != s.store {
        assert puts[1..] == rest;
      } else if |puts| > |rest| {
        assert puts[1..] == rest;
        assert AfterPut(s.store, puts[0]) == s.store;
      } else {
        assert puts == rest;
      }
    }
  }

  // ---------------------------------------------------------------- a Get among others

  datatype Trace = Trace(net: seq<Try>, end: Sys)

  ghost predicate GetFeasible(s: Sys, i: nat, among: seq<Among>)
    decreases |among|
  {
    among == [] ||
    (&& Feasible(s, i, among[0].others)
     && var s1 := Moved(s, i, among[0].others);
       Enabled(s1, GetTry(i, among[0].fate)) && (among[0].fate != H.Delivered ==> GetFeasible(s1, i, among[1..])))
  }

  /** The clerk's schedule, and the state in which the Get ends. */
  ghost function GetTrace(s: Sys, i: nat, among: seq<Among>): Trace
    requires GetFeasible(s, i, among)
    decreases |among|
  {
    if among == [] then Trace([], s)
    else
      var s1 := Moved(s, i, among[0].others);
      var here := Try(PutsIn(s, i, among[0].others), among[0].fate);
      if among[0].fate == H.Delivered then Trace([here], After(s1, GetTry(i, H.Delivered)))
      else
        var rest := GetTrace(s1, i, among[1..]);
        Trace([here] + rest.net, rest.end)
  }

  lemma {:induction false} GetAmongOthers(s: Sys, i: nat, among: seq<Among>) returns (steps: seq<Step>)
    requires GetFeasible(s, i, among) && i in s.clients && s.clients[i].stage.Asking?
    ensures
      var t := GetTrace(s, i, among);
      var r := GetRun(s.store, s.key, t.net);
      && Leads(s, steps, t.end) && t.end.key == s.key && t.end.store == r.store && i in t.end.clients
      && t.end.clients[i] == if r.answer.Some? then s.clients[i].(stage := Told(r.answer.value)) else s.clients[i]
    decreases |among|
  {
    steps := [];
    if among != [] {
      OthersMove(s, i, among[0].others);
      var s1 := Moved(s, i, among[0].others);
      steps := among[0].others;
      if among[0].fate == H.Delivered {
        steps := LeadsOne(s, steps, s1, GetTry(i, H.Delivered));
      } else {
        var more := GetAmongOthers(s1, i, among[1..]);
        var rest := GetTrace(s1, i, among[1..]);
        LeadsOn(s, steps, s1, more, rest.end);
        steps := steps + more;
        assert GetTrace(s, i, among).net[1..] == rest.net;
      }
    }
  }

  // ---------------------------------------------------------------- a Put among others

  ghost predicate PutFeasible(s: Sys, i: nat, among: seq<Among>)
    decreases |among|
  {
    among == [] ||
    (&& Feasible(s, i, among[0].others)
     && var s1 := Moved(s, i, among[0].others);
       Enabled(s1, PutTry(i, among[0].fate)) && (among[0].fate != H.Delivered ==>
         PutFeasible(After(s1, PutTry(i, among[0].fate)), i, among[1..])))
  }

  ghost function PutTrace(s: Sys, i: nat, among: seq<Among>): Trace
    requires PutFeasible(s, i, among)
    decreases |among|
  {
    if among == [] then Trace([], s)
    else
      var s2 := After(Moved(s, i, among[0].others), PutTry(i, among[0].fate));
      var here := Try(PutsIn(s, i, among[0].others), among[0].fate);
      if among[0].fate == H.Delivered then Trace([here], s2)
      else
        var rest := PutTrace(s2, i, among[1..]);
        Trace([here] + rest.net, rest.end)
  }

  /** The clerk's run from one attempt on. */
  lemma PutRunOn(store: Store, a: PutArgs, net: seq<Try>, first: bool, store2: Store)
    requires net != [] && net[0].fate != H.Delivered
    requires
      var store1 := OthersPut(store, net[0].others);
      store2 == if net[0].fate == H.RequestLost then store1 else AfterPut(store1, a)
    ensures
      var hit := if net[0].fate == H.ReplyLost && PutErr(OthersPut(store, net[0].others), a) == OK then 1 else 0;
      var rest := PutRun(store2, a, net[1..], false);
      PutRun(store, a, net, first) == rest.(effects := rest.effects + hit)
  {
  }

  /** What an attempt that is not answered does to the client. */
  lemma Unanswered(s: Sys, i: nat, fate: H.Fate)
    requires i in s.clients && Putting(s.clients[i]) && s.clients[i].answer.None? && fate != H.Delivered
    ensures
      var c, a := s.clients[i], PutOf(s.key, s.clients[i]);
      var hit := if fate == H.ReplyLost && PutErr(s.store, a) == OK then 1 else 0;
      var s' := AfterPutTry(s, i, fate);
      && s'.key == s.key && i in s'.clients && s'.clients[i] == c.(first := false, effects := c.effects + hit)
      && s'.store == if fate == H.RequestLost then s.store else AfterPut(s.store, a)
  {
  }

  lemma {:induction false} PutAmongOthers(s: Sys, i: nat, among: seq<Among>) returns (steps: seq<Step>)
    requires PutFeasible(s, i, among) && i in s.clients && Putting(s.clients[i]) && s.clients[i].answer.None?
    ensures
      var t := PutTrace(s, i, among);
      var c := s.clients[i];
      var r := PutRun(s.store, PutOf(s.key, c), t.net, c.first);
      && Leads(s, steps, t.end) && t.end.key == s.key && t.end.store == r.store && i in t.end.clients
      && t.end.clients[i] == c.(first := t.end.clients[i].first, effects := c.effects + r.effects, answer := r.answer)
    decreases |among|
  {
    steps := [];
    if among != [] {
      OthersMove(s, i, among[0].others);
      var fate := among[0].fate;
      var s1 := Moved(s, i, among[0].others);
      var s2 := After(s1, PutTry(i, fate));
      steps := LeadsOne(s, among[0].others, s1, PutTry(i, fate));
      if fate != H.Delivered {
        Unanswered(s1, i, fate);
        var more := PutAmongOthers(s2, i, among[1..]);
        var t, rest := PutTrace(s, i, among), PutTrace(s2, i, among[1..]);
        LeadsOn(s, steps, s2, more, rest.end);
        steps := steps + more;
        assert t.net[1..] == rest.net;
        PutRunOn(s.store, PutOf(s.key, s.clients[i]), t.net, s.clients[i].first, s2.store);
      }
    }
  }

  // ---------------------------------------------------------------- Acquire

  ghost predicate AcquireFeasible(s: Sys, i: nat, turns: seq<AmongTurn>)
    decreases |turns|
  {
    turns == [] ||
    (&& GetFeasible(s, i, turns[0].forGet)
     && var s1 := GetTrace(s, i, turns[0].forGet).end;
       (Enabled(s1, Decide(i)) ==>
          var s2 := After(s1, Decide(i));
          && (s2.clients[i].stage.Asking? ==> AcquireFeasible(s2, i, turns[1..]))
          && (s2.clients[i].stage.Taking? ==>
                && PutFeasible(s2, i, turns[0].forPut)
                && var s3 := PutTrace(s2, i, turns[0].forPut).end;
                  (Enabled(s3, PutReturns(i)) ==>
                     var s4 := After(s3, PutReturns(i));
                     s4.clients[i].stage.Asking? ==> AcquireFeasible(s4, i, turns[1..])))))
  }

  datatype TurnTrace = TurnTrace(net: seq<Turn>, end: Sys)

  /** The loop's schedule, and the state in which Acquire ends, or the schedule does. */
  ghost function AcquireTrace(s: Sys, i: nat, turns: seq<AmongTurn>): TurnTrace
    requires AcquireFeasible(s, i, turns)
    decreases |turns|
  {
    if turns == [] then TurnTrace([], s)
    else
      var g := GetTrace(s, i, turns[0].forGet);
      if !Enabled(g.end, Decide(i)) then TurnTrace([Turn(g.net, [])], g.end)
      else
        var s2 := After(g.end, Decide(i));
        if s2.clients[i].stage.Asking? then
          var rest := AcquireTrace(s2, i, turns[1..]);
          TurnTrace([Turn(g.net, [])] + rest.net, rest.end)
        else if s2.clients[i].stage.Taking? then
          var p := PutTrace(s2, i, turns[0].forPut);
          if !Enabled(p.end, PutReturns(i)) then TurnTrace([Turn(g.net, p.net)], p.end)
          else
            var s4 := After(p.end, PutReturns(i));
            if s4.clients[i].stage.Asking? then
              var rest := AcquireTrace(s4, i, turns[1..]);
              TurnTrace([Turn(g.net, p.net)] + rest.net, rest.end)
            else TurnTrace([Turn(g.net, p.net)], s4)
        else TurnTrace([Turn(g.net, [])], s2)
  }

  ghost predicate Matches(r: AcquireOutcome, s: Sys, i: nat) {
    && s.store == r.store && i in s.clients
    && (r.version.Some? ==> s.clients[i].stage == Holding(r.version.value) && s.clients[i].inside)
    && (r.version.None? ==> !s.clients[i].stage.Holding?)
  }

  /** Acquire's loop among other clients is a run of the protocol, and returns when that enters the lock. */
  lemma {:induction false} AcquireIsARun(s: Sys, i: nat, turns: seq<AmongTurn>) returns (steps: seq<Step>)
    requires AcquireFeasible(s, i, turns) && i in s.clients && s.clients[i].stage.Asking?
    ensures
      var t := AcquireTrace(s, i, turns);
      && Leads(s, steps, t.end) && t.end.key == s.key
      && Matches(AcquireRun(s.store, s.key, s.clients[i].id, t.net), t.end, i)
    decreases |turns|
  {
    steps := [];
    if turns != [] {
      var t, g := AcquireTrace(s, i, turns), GetTrace(s, i, turns[0].forGet);
      steps := GetAmongOthers(s, i, turns[0].forGet);
      if Enabled(g.end, Decide(i)) {
        var s2 := After(g.end, Decide(i));
        steps := LeadsOne(s, steps, g.end, Decide(i));
        if s2.clients[i].stage.Asking? {
          var more := AcquireIsARun(s2, i, turns[1..]);
          LeadsOn(s, steps, s2, more, t.end);
          steps := steps + more;
          assert t.net[1..] == AcquireTrace(s2, i, turns[1..]).net;
        } else if s2.clients[i].stage.Taking? {
          TakeTrace(s, i, turns, s2);
          var more := TakeIsARun(s2, i, turns[0].forPut, turns[1..], t, s.store, s.clients[i].id, g.net);
          LeadsOn(s, steps, s2, more, t.end);
          steps := steps + more;
        }
      }
    }
  }

  /** The Put that tries to take the lock, and the loop's next position. */
  lemma TryToTake(s: Sys, i: nat, among: seq<Among>) returns (steps: seq<Step>, s': Sys)
    requires PutFeasible(s, i, among) && i in s.clients && s.clients[i].stage.Taking?
    requires s.clients[i].first && s.clients[i].answer.None?
    ensures
      var p, c := PutTrace(s, i, among), s.clients[i];
      var put := PutRun(s.store, PutArgs(s.key, c.id, c.stage.version), p.net, true);
      && Leads(s, steps, s') && s'.key == s.key && s'.store == put.store && i in s'.clients && s'.clients[i].id == c.id
      && Enabled(p.end, PutReturns(i)) == put.answer.Some?
      && s' == (if put.answer.None? then p.end else After(p.end, PutReturns(i)))
      && (put.answer.None? ==> s'.clients[i].stage.Taking?)
      && (put.answer == Some(OK) ==> s'.clients[i].stage == Holding(c.stage.version + 1) && s'.clients[i].inside)
      && (put.answer.Some? && put.answer != Some(OK) ==> s'.clients[i].stage.Asking?)
  {
    steps := PutAmongOthers(s, i, among);
    s' := PutTrace(s, i, among).end;
    if s'.clients[i].answer.Some? {
      steps := LeadsOne(s, steps, s', PutReturns(i));
      s' := After(s', PutReturns(i));
    }
  }

  /** How a trace goes on after a Put that tries to take the lock. */
  ghost predicate Continues(t: TurnTrace, s2: Sys, i: nat, among: seq<Among>, turns: seq<AmongTurn>, forGet: seq<Try>)
    requires PutFeasible(s2, i, among)
  {
    var p := PutTrace(s2, i, among);
    && t.net != [] && t.net[0] == Turn(forGet, p.net)
    && if !Enabled(p.end, PutReturns(i)) then t.end == p.end
       else
         var s4 := After(p.end, PutReturns(i));
         if s4.clients[i].stage.Asking? then
           && AcquireFeasible(s4, i, turns)
           && t.net[1..] == AcquireTrace(s4, i, turns).net && t.end == AcquireTrace(s4, i, turns).end
         else t.end == s4
  }

  lemma {:induction false} TakeTrace(s: Sys, i: nat, turns: seq<AmongTurn>, s2: Sys)
    requires AcquireFeasible(s, i, turns) && turns != []
    requires
      var g := GetTrace(s, i, turns[0].forGet);
      Enabled(g.end, Decide(i)) && s2 == After(g.end, Decide(i)) && s2.clients[i].stage.Taking?
    ensures PutFeasible(s2, i, turns[0].forPut)
    ensures Continues(AcquireTrace(s, i, turns), s2, i, turns[0].forPut, turns[1..], GetTrace(s, i, turns[0].forGet).net)
  {
  }

  /** The rest of the loop, from a Put that tries to take the lock. */
  lemma {:induction false} TakeIsARun(s2: Sys, i: nat, among: seq<Among>, turns: seq<AmongTurn>, t: TurnTrace,
                                      store: Store, id: string, forGet: seq<Try>)
    returns (steps: seq<Step>)
    requires PutFeasible(s2, i, among) && Continues(t, s2, i, among, turns, forGet)
    requires i in s2.clients && s2.clients[i].stage.Taking? && s2.clients[i].first && s2.clients[i].answer.None?
    requires s2.clients[i].id == id
    requires
      var g := GetRun(store, s2.key, forGet);
      g.answer.Some? && Next(id, g.answer.value) == Take(s2.clients[i].stage.version) && s2.store == g.store
    ensures Leads(s2, steps, t.end) && t.end.key == s2.key && Matches(AcquireRun(store, s2.key, id, t.net), t.end, i)
    decreases |turns| + 1, 0
  {
    var s4;
    steps, s4 := TryToTake(s2, i, among);
    if s4.clients[i].stage.Asking? {
      var rest := AcquireIsARun(s4, i, turns);
      LeadsOn(s2, steps, s4, rest, t.end);
      steps := steps + rest;
    }
    TakeMatches(store, s2.key, id, t.net, s2.clients[i].stage.version, s4, i, t.end);
  }

  /** The end of the loop, given the end of this turn. */
  lemma TakeMatches(store: Store, key: string, id: string, net: seq<Turn>, v: nat, s4: Sys, i: nat, end: Sys)
    requires net != [] && i in s4.clients
    requires
      var g := GetRun(store, key, net[0].forGet);
      && g.answer.Some? && Next(id, g.answer.value) == Take(v)
      && var put := PutRun(g.store, PutArgs(key, id, v), net[0].forPut, true);
        && s4.store == put.store
        && (put.answer.None? ==> s4.clients[i].stage.Taking?)
        && (put.answer == Some(OK) ==> s4.clients[i].stage == Holding(v + 1) && s4.clients[i].inside)
        && (put.answer.Some? && put.answer != Some(OK) ==> s4.clients[i].stage.Asking?)
    requires !s4.clients[i].stage.Asking? ==> end == s4
    requires s4.clients[i].stage.Asking? ==> Matches(AcquireRun(s4.store, key, id, net[1..]), end, i)
    ensures Matches(AcquireRun(store, key, id, net), end, i)
  {
    TakingTurn(store, key, id, net, v);
  }

  /** The loop's turn that finds the lock free. */
  lemma TakingTurn(store: Store, key: string, id: string, net: seq<Turn>, v: nat)
    requires net != []
    requires
      var g := GetRun(store, key, net[0].forGet);
      g.answer.Some? && Next(id, g.answer.value) == Take(v)
    ensures
      var g := GetRun(store, key, net[0].forGet);
      var p := PutRun(g.store, PutArgs(key, id, v), net[0].forPut, true);
      AcquireRun(store, key, id, net) ==
        if p.answer.None? then AcquireOutcome(p.store, None)
        else if p.answer.value == OK then AcquireOutcome(p.store, Some(v + 1))
        else AcquireRun(p.store, key, id, net[1..])
  {
  }

  // ---------------------------------------------------------------- what follows for the lock object

  lemma {:induction false} LeadsKeeps(s: Sys, steps: seq<Step>, s': Sys)
    requires Inv(s) && Leads(s, steps, s')
    ensures Inv(s')
    decreases |steps|
  {
    if steps != [] {
      StepKeeps(s, steps[0]);
      LeadsKeeps(After(s, steps[0]), steps[1..], s');
    }
  }

  /**
   When Acquire returns, among any clients of the lock in any reachable state, the server holds this
   client's identity at the version the lock object remembers, and no other client is inside.
   */
  lemma AcquireGivesLock(run: seq<Sys>, steps: seq<Step>, i: nat, turns: seq<AmongTurn>)
    requires IsRun(run, steps) && Enabled(run[|steps|], Acquire(i))
    requires AcquireFeasible(After(run[|steps|], Acquire(i)), i, turns)
    ensures
      var s := run[|steps|];
      var t := AcquireTrace(After(s, Acquire(i)), i, turns);
      var r := AcquireRun(s.store, s.key, s.clients[i].id, t.net);
      && t.end.store == r.store && i in t.end.clients
      && (r.version.Some? ==>
            && t.end.clients[i].inside && t.end.clients[i].version == r.version.value
            && View(r.store, s.key) == KvState(s.clients[i].id, r.version.value)
            && forall d | d in t.end.clients && d != i :: !t.end.clients[d].inside)
  {
    RunKeeps(run, steps, |steps|);
    var s0 := run[|steps|];
    var s := After(s0, Acquire(i));
    StepKeeps(s0, Acquire(i));
    var more := AcquireIsARun(s, i, turns);
    var t := AcquireTrace(s, i, turns);
    LeadsKeeps(s, more, t.end);
    IdentityKept(s, more, t.end, i);
    assert ClientOk(t.end.clients[i], View(t.end.store, t.end.key), t.end.hist);
    forall d | d in t.end.clients && d != i && t.end.clients[i].inside ensures !t.end.clients[d].inside {
      assert ClientOk(t.end.clients[d], View(t.end.store, t.end.key), t.end.hist);
    }
  }

  lemma {:induction false} IdentityKept(s: Sys, steps: seq<Step>, s': Sys, i: nat)
    requires Leads(s, steps, s') && i in s.clients
    ensures s'.key == s.key && i in s'.clients && s'.clients[i].id == s.clients[i].id
    decreases |steps|
  {
    if steps != [] {
      IdentityKept(After(s, steps[0]), steps[1..], s', i);
    }
  }

  /**
   Release, called in any reachable state among any clients of the lock, is a run of the protocol; when a
   holder's Release returns, its Put has taken effect exactly once.
   */
  lemma ReleaseIsARun(run: seq<Sys>, steps: seq<Step>, i: nat, among: seq<Among>) returns (more: seq<Step>)
    requires IsRun(run, steps) && Enabled(run[|steps|], Release(i))
    requires PutFeasible(After(run[|steps|], Release(i)), i, among)
    ensures
      var s := run[|steps|];
      var c := s.clients[i];
      var t := PutTrace(After(s, Release(i)), i, among);
      var r := PutRun(s.store, PutArgs(s.key, "", c.version), t.net, true);
      && Leads(After(s, Release(i)), more, t.end) && t.end.store == r.store
      && (c.stage.Holding? && r.answer.Some? ==> r.effects == 1 && View(r.store, s.key).version > c.version)
  {
    RunKeeps(run, steps, |steps|);
    var s0 := run[|steps|];
    var s := After(s0, Release(i));
    StepKeeps(s0, Release(i));
    more := PutAmongOthers(s, i, among);
    var t := PutTrace(s, i, among);
    LeadsKeeps(s, more, t.end);
    assert ClientOk(t.end.clients[i], View(t.end.store, t.end.key), t.end.hist);
  }
}
