/**
 One clerk's retry loops.  The network is given as a finite schedule: what other clerks put before
 each attempt reaches the server, and what becomes of the attempt.
 */
module KvClerk {
  import opened Options
  import opened KvServer
  import opened KvHistory
  import opened Sets

  datatype Try = Try(others: seq<PutArgs>, fate: Fate)

  function OthersPut(s: Store, puts: seq<PutArgs>): Store
    decreases |puts|
  {
    if puts == [] then s else OthersPut(AfterPut(s, puts[0]), puts[1..])
  }

  datatype GetOutcome = GetOutcome(store: Store, answer: Option<GetReply>)

  /** A Get under the schedule; no answer when the schedule ends before a reply arrives. */
  function GetRun(s: Store, key: string, net: seq<Try>): GetOutcome
    decreases |net|
  {
    if net == [] then GetOutcome(s, None)
    else
      var s1 := OthersPut(s, net[0].others);
      if net[0].fate == Delivered then GetOutcome(s1, Some(Lookup(s1, key))) else GetRun(s1, key, net[1..])
  }

  datatype PutOutcome = PutOutcome(store: Store, answer: Option<Err>, effects: nat)

  function PutRun(s: Store, a: PutArgs, net: seq<Try>, first: bool): PutOutcome
    decreases |net|
  {
    if net == [] then PutOutcome(s, None, 0)
    else
      var s1 := OthersPut(s, net[0].others);
      if net[0].fate == RequestLost then PutRun(s1, a, net[1..], false)
      else
        var err := PutErr(s1, a);
        var hit := if err == OK then 1 else 0;
        if net[0].fate == Delivered then PutOutcome(AfterPut(s1, a), Some(PutResult(first, err)), hit)
        else
          var rest := PutRun(AfterPut(s1, a), a, net[1..], false);
          rest.(effects := rest.effects + hit)
  }

  class Clerk {
    const server: KVServer

    constructor (server: KVServer)
      ensures this.server == server
    {
      this.server := server;
    }

    /** The other clerks' Puts reach the server. */
    method Interfere(puts: seq<PutArgs>)
      requires server.Valid()
      modifies server
      ensures server.Valid() && server.Contents() == OthersPut(old(server.Contents()), puts)
    {
      var i := 0;
      while i < |puts|
        invariant i <= |puts| && server.Valid()
        invariant OthersPut(server.Contents(), puts[i..]) == OthersPut(old(server.Contents()), puts)
      {
        assert puts[i..][1..] == puts[i + 1..];
        var _ := server.Put(puts[i]);
        i := i + 1;
      }
    }

    method Get(key: string, net: seq<Try>) returns (answer: Option<GetReply>)
      requires server.Valid()
      modifies server
      ensures server.Valid()
      ensures GetOutcome(server.Contents(), answer) == GetRun(old(server.Contents()), key, net)
    {
      answer := None;
      var i := 0;
      while i < |net|
        invariant i <= |net| && server.Valid()
        invariant GetRun(server.Contents(), key, net[i..]) == GetRun(old(server.Contents()), key, net)
      {
        assert net[i..][1..] == net[i + 1..];
        Interfere(net[i].others);
        if net[i].fate != RequestLost {
          var reply := server.Get(key);
          if net[i].fate == Delivered {
            return Some(reply);
          }
        }
        i := i + 1;
      }
    }

    method Put(args: PutArgs, net: seq<Try>) returns (answer: Option<Err>, ghost effects: nat)
      requires server.Valid()
      modifies server
      ensures server.Valid()
      ensures PutOutcome(server.Contents(), answer, effects) == PutRun(old(server.Contents()), args, net, true)
    {
      answer, effects := None, 0;
      var firstAttempt := true;
      var i := 0;
      while i < |net|
        invariant i <= |net| && server.Valid()
        invariant var rest := PutRun(server.Contents(), args, net[i..], firstAttempt);
          rest.(effects := effects + rest.effects) == PutRun(old(server.Contents()), args, net, true)
      {
        assert net[i..][1..] == net[i + 1..];
        Interfere(net[i].others);
        if net[i].fate != RequestLost {
          var err := server.Put(args);
          effects := effects + if err == OK then 1 else 0;
          if net[i].fate == Delivered {
            if err == ErrVersion {
              answer := if firstAttempt then Some(ErrVersion) else Some(ErrMaybe);
            } else {
              answer := Some(err);
            }
            return;
          }
        }
        firstAttempt := false;
        i := i + 1;
      }
    }
  }

  // ---------------------------------------------------------------- what the answers mean

  lemma {:induction false} OthersKeep(s: Store, puts: seq<PutArgs>, key: string)
    requires StoreOk(s)
    ensures StoreOk(OthersPut(s, puts)) && VersionOf(OthersPut(s, puts), key) >= VersionOf(s, key)
    decreases |puts|
  {
    if puts != [] {
      PutRefinesModel(s, puts[0], key);
      OthersKeep(AfterPut(s, puts[0]), puts[1..], key);
    }
  }

  lemma {:induction false} GetMeaning(s: Store, key: string, net: seq<Try>)
    requires StoreOk(s)
    ensures var r := GetRun(s, key, net);
      && StoreOk(r.store) && VersionOf(r.store, key) >= VersionOf(s, key)
      && (r.answer.Some? ==> r.answer.value == Lookup(r.store, key))
    decreases |net|
  {
    if net != [] {
      OthersKeep(s, net[0].others, key);
      if net[0].fate != Delivered {
        GetMeaning(OthersPut(s, net[0].others), key, net[1..]);
      }
    }
  }

  /**
   Whatever the network and the other clerks do: OK means the Put happened exactly once and is the
   key's current state; ErrVersion and ErrNoKey that it never happened; ErrMaybe at most once.
   */
  lemma {:induction false} PutMeaning(s: Store, a: PutArgs, net: seq<Try>, first: bool)
    requires StoreOk(s)
    ensures var r := PutRun(s, a, net, first);
      && StoreOk(r.store) && VersionOf(r.store, a.key) >= VersionOf(s, a.key)
      && r.effects <= 1
      && (VersionOf(s, a.key) > a.version ==> r.effects == 0)
      && (r.answer == Some(OK) ==> r.effects == 1 && View(r.store, a.key) == KvState(a.value, a.version + 1))
      && (r.answer == Some(ErrVersion) ==> first && r.effects == 0)
      && (r.answer == Some(ErrNoKey) ==> r.effects == 0 && a.key !in r.store.data)
      && (r.answer == Some(ErrMaybe) ==> !first || |net| > 1)
      && (r.answer.Some? && VersionOf(s, a.key) >= a.version && r.answer != Some(ErrNoKey) ==>
            VersionOf(r.store, a.key) > a.version)
    decreases |net|
  {
    if net != [] {
      OthersKeep(s, net[0].others, a.key);
      var s1 := OthersPut(s, net[0].others);
      PutRefinesModel(s1, a, a.key);
      if net[0].fate == RequestLost {
        PutMeaning(s1, a, net[1..], false);
      } else if net[0].fate == ReplyLost {
        PutMeaning(AfterPut(s1, a), a, net[1..], false);
      }
    }
  }

  ghost predicate Spared(puts: seq<PutArgs>, key: string) {
    forall k | 0 <= k < |puts| :: puts[k].key != key
  }

  ghost predicate SparedBy(net: seq<Try>, key: string) {
    forall k | 0 <= k < |net| :: Spared(net[k].others, key)
  }

  lemma {:induction false} OthersSpare(s: Store, puts: seq<PutArgs>, key: string)
    requires StoreOk(s) && Spared(puts, key)
    ensures StoreOk(OthersPut(s, puts)) && View(OthersPut(s, puts), key) == View(s, key)
    decreases |puts|
  {
    if puts != [] {
      PutRefinesModel(s, puts[0], key);
      OthersSpare(AfterPut(s, puts[0]), puts[1..], key);
    }
  }

  /** With nobody else at the key, an answered Put at the current version has happened exactly once. */
  lemma {:induction false} PutAlone(s: Store, a: PutArgs, net: seq<Try>, first: bool)
    requires StoreOk(s) && SparedBy(net, a.key)
    ensures var r := PutRun(s, a, net, first);
      && (View(s, a.key).version == a.version && r.answer.Some? ==>
            r.effects == 1 && View(r.store, a.key) == KvState(a.value, a.version + 1))
      && (View(s, a.key) == KvState(a.value, a.version + 1) ==> r.effects == 0 && View(r.store, a.key) == View(s, a.key))
    decreases |net|
  {
    if net != [] {
      var s1 := OthersPut(s, net[0].others);
      OthersSpare(s, net[0].others, a.key);
      PutRefinesModel(s1, a, a.key);
      if net[0].fate == RequestLost {
        PutAlone(s1, a, net[1..], false);
      } else if net[0].fate == ReplyLost {
        PutAlone(AfterPut(s1, a), a, net[1..], false);
      }
    }
  }

  // ---------------------------------------------------------------- the loop is a run of the system

  /** The steps, taken in order, lead from the one state to the other. */
  ghost predicate Leads(s: Sys, steps: seq<Step>, s': Sys)
    decreases |steps|
  {
    if steps == [] then s' == s
    else Enabled(s, steps[0]) && Leads(After(s, steps[0]), steps[1..], s')
  }

  lemma {:induction false} LeadsOn(s: Sys, steps: seq<Step>, s1: Sys, more: seq<Step>, s': Sys)
    requires Leads(s, steps, s1) && Leads(s1, more, s')
    ensures Leads(s, steps + more, s')
    decreases |steps|
  {
    if steps == [] {
      assert steps + more == more;
    } else {
      assert (steps + more)[1..] == steps[1..] + more;
      LeadsOn(After(s, steps[0]), steps[1..], s1, more, s');
    }
  }

  lemma LeadsOne(s: Sys, step: Step)
    requires Enabled(s, step)
    ensures Leads(s, [step], After(s, step))
  {
    assert [step][1..] == [];
  }

  lemma {:induction false} UnusedId(ids: set<nat>) returns (n: nat)
    ensures forall i | i in ids :: i < n
    decreases |ids|
  {
    n := 0;
    if ids != {} {
      var i := SomeElement(ids);
      var m := UnusedId(ids - {i});
      n := if i < m then m else i + 1;
      forall j | j in ids ensures j < n {
        if j != i {
          assert j in ids - {i};
        }
      }
    }
  }

  /** Another clerk's Put, from call to answer. */
  lemma OtherAsCall(s: Sys, a: PutArgs) returns (steps: seq<Step>, s': Sys)
    ensures Leads(s, steps, s') && s'.store == AfterPut(s.store, a)
    ensures forall id | id in s.calls :: id in s'.calls && s'.calls[id] == s.calls[id]
  {
    var n := UnusedId(s.calls.Keys);
    var s1 := After(s, Invoke(n, PutOp(a)));
    s' := After(s1, Attempt(n, Delivered));
    LeadsOne(s, Invoke(n, PutOp(a)));
    LeadsOne(s1, Attempt(n, Delivered));
    LeadsOn(s, [Invoke(n, PutOp(a))], s1, [Attempt(n, Delivered)], s');
    steps := [Invoke(n, PutOp(a))] + [Attempt(n, Delivered)];
  }

  lemma {:induction false} OthersAsCalls(s: Sys, puts: seq<PutArgs>) returns (steps: seq<Step>, s': Sys)
    ensures Leads(s, steps, s') && s'.store == OthersPut(s.store, puts)
    ensures forall id | id in s.calls :: id in s'.calls && s'.calls[id] == s.calls[id]
    decreases |puts|
  {
    if puts == [] {
      steps, s' := [], s;
    } else {
      var first, s1 := OtherAsCall(s, puts[0]);
      var rest;
      rest, s' := OthersAsCalls(s1, puts[1..]);
      LeadsOn(s, first, s1, rest, s');
      steps := first + rest;
    }
  }

  /**
   Whatever the schedule, Put's loop is a run of the concurrent system: the same store, the same
   answer, the same number of effects.  So all that holds of its runs holds of the loop.
   */
  lemma {:induction false} PutIsARun(s: Sys, id: nat, a: PutArgs, net: seq<Try>) returns (steps: seq<Step>, s': Sys)
    requires id in s.calls && s.calls[id].input == PutOp(a) && s.calls[id].phase.Calling?
    ensures Leads(s, steps, s') && id in s'.calls
    ensures var r := PutRun(s.store, a, net, s.calls[id].phase.first);
      && s'.store == r.store
      && s'.calls[id].effects == s.calls[id].effects + r.effects
      && (r.answer.Some? ==> s'.calls[id].phase == Decided(KvOutput("", 0, r.answer.value)))
      && (r.answer.None? ==> s'.calls[id].phase.Calling?)
    decreases |net|
  {
    if net == [] {
      steps, s' := [], s;
    } else {
      var before, s1 := OthersAsCalls(s, net[0].others);
      var s2 := After(s1, Attempt(id, net[0].fate));
      LeadsOne(s1, Attempt(id, net[0].fate));
      LeadsOn(s, before, s1, [Attempt(id, net[0].fate)], s2);
      steps, s' := before + [Attempt(id, net[0].fate)], s2;
      if net[0].fate != Delivered {
        var rest;
        rest, s' := PutIsARun(s2, id, a, net[1..]);
        LeadsOn(s, steps, s2, rest, s');
        steps := steps + rest;
      }
    }
  }

  /** The same for Get. */
  lemma {:induction false} GetIsARun(s: Sys, id: nat, key: string, net: seq<Try>) returns (steps: seq<Step>, s': Sys)
    requires id in s.calls && s.calls[id].input == GetOp(key) && s.calls[id].phase.Calling?
    ensures Leads(s, steps, s') && id in s'.calls
    ensures var r := GetRun(s.store, key, net);
      && s'.store == r.store
      && (r.answer.Some? ==>
            var a := r.answer.value; s'.calls[id].phase == Decided(KvOutput(a.value, a.version, a.err)))
      && (r.answer.None? ==> s'.calls[id].phase.Calling?)
    decreases |net|
  {
    if net == [] {
      steps, s' := [], s;
    } else {
      var before, s1 := OthersAsCalls(s, net[0].others);
      var s2 := After(s1, Attempt(id, net[0].fate));
      LeadsOne(s1, Attempt(id, net[0].fate));
      LeadsOn(s, before, s1, [Attempt(id, net[0].fate)], s2);
      steps, s' := before + [Attempt(id, net[0].fate)], s2;
      if net[0].fate != Delivered {
        var rest;
        rest, s' := GetIsARun(s2, id, key, net[1..]);
        LeadsOn(s, steps, s2, rest, s');
        steps := steps + rest;
      }
    }
  }
}
