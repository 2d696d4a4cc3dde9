/**
 Any number of clerks working on one server through a network that drops requests and replies:
 every history of Get and Put results is linearizable against the sequential specification.
 */
module KvHistory {
  import opened Options
  import opened KvServer

  /** How far a clerk's call has come.  `Calling` covers every attempt of the retry loop. */
  datatype Phase =
    | Calling(first: bool)
    | Decided(out: KvOutput)
    | Returned(out: KvOutput, end: nat)

  /** A clerk call; `at` is its place in the linearization, once it has one. */
  datatype Call = Call(input: KvInput, start: nat, phase: Phase, effects: nat, at: Option<nat>)

  /** One entry of the linearization. */
  datatype Event = Event(id: nat, input: KvInput, output: KvOutput)

  datatype Sys = Sys(store: Store, calls: map<nat, Call>, lin: seq<Event>)

  datatype Fate = RequestLost | ReplyLost | Delivered

  datatype Step =
    | Invoke(id: nat, input: KvInput)
    | Attempt(id: nat, fate: Fate)
    | Return(id: nat)

  // ---------------------------------------------------------------- the steps

  /** What the retry loop answers for the reply of the server. */
  function PutResult(first: bool, err: Err): Err {
    if err == ErrVersion && !first then ErrMaybe else err
  }

  function Enabled(s: Sys, step: Step): bool {
    match step
    case Invoke(id, _) => id !in s.calls
    case Attempt(id, _) => id in s.calls && s.calls[id].phase.Calling?
    case Return(id) => id in s.calls && s.calls[id].phase.Decided?
  }

  function GetOutput(s: Store, key: string): KvOutput {
    var r := Lookup(s, key);
    KvOutput(r.value, r.version, r.err)
  }

  /** The server handles a Get and its reply arrives. */
  function GetDone(s: Sys, id: nat, key: string): Sys
    requires id in s.calls
  {
    var out := GetOutput(s.store, key);
    var c := s.calls[id].(phase := Decided(out), at := Some(|s.lin|));
    s.(calls := s.calls[id := c], lin := s.lin + [Event(id, GetOp(key), out)])
  }

  /** The server handles a Put and the reply is lost: it takes its place only if it had an effect. */
  function PutUnanswered(s: Sys, id: nat, a: PutArgs): Sys
    requires id in s.calls
  {
    var c := s.calls[id];
    if PutErr(s.store, a) == OK then
      Sys(AfterPut(s.store, a),
          s.calls[id := c.(phase := Calling(false), effects := c.effects + 1, at := Some(|s.lin|))],
          s.lin + [Event(id, PutOp(a), KvOutput("", 0, ErrMaybe))])
    else
      Sys(AfterPut(s.store, a), s.calls[id := c.(phase := Calling(false))], s.lin)
  }

  /** The server handles a Put and the reply arrives: the call's answer is settled. */
  function PutDone(s: Sys, id: nat, a: PutArgs): Sys
    requires id in s.calls && s.calls[id].phase.Calling?
  {
    var c := s.calls[id];
    var err := PutErr(s.store, a);
    var out := KvOutput("", 0, PutResult(c.phase.first, err));
    var c' := c.(phase := Decided(out), effects := if err == OK then c.effects + 1 else c.effects);
    if c.at.Some? || err == ErrNoKey then
      Sys(AfterPut(s.store, a), s.calls[id := c'], s.lin)
    else
      Sys(AfterPut(s.store, a), s.calls[id := c'.(at := Some(|s.lin|))], s.lin + [Event(id, PutOp(a), out)])
  }

  function After(s: Sys, step: Step): Sys
    requires Enabled(s, step)
  {
    match step
    case Invoke(id, input) => s.(calls := s.calls[id := Call(input, |s.lin|, Calling(true), 0, None)])
    case Attempt(id, fate) =>
      var c := s.calls[id];
      (match c.input
       case GetOp(key) =>
         if fate == Delivered then GetDone(s, id, key)
         else s.(calls := s.calls[id := c.(phase := Calling(false))])
       case PutOp(a) =>
         match fate
         case RequestLost => s.(calls := s.calls[id := c.(phase := Calling(false))])
         case ReplyLost => PutUnanswered(s, id, a)
         case Delivered => PutDone(s, id, a))
    case Return(id) =>
      var c := s.calls[id];
      s.(calls := s.calls[id := c.(phase := Returned(c.phase.out, |s.lin|))])
  }

  ghost predicate Init(s: Sys) {
    s == Sys(Empty, map[], [])
  }

  ghost predicate IsRun(run: seq<Sys>, steps: seq<Step>) {
    && |run| == |steps| + 1
    && Init(run[0])
    && forall i | 0 <= i < |steps| :: IsStep(run[i], steps[i], run[i + 1])
  }

  ghost predicate IsStep(s: Sys, step: Step, s': Sys) {
    Enabled(s, step) && s' == After(s, step)
  }

  // ---------------------------------------------------------------- linearizability

  /** The state of one key after the events of the sequence, if the specification admits them all. */
  function Replay(lin: seq<Event>, key: string): Option<KvState> {
    if lin == [] then Some(Fresh)
    else
      var before, e := Replay(lin[..|lin| - 1], key), lin[|lin| - 1];
      if before.None? || KeyOf(e.input) != key then before
      else
        var (ok, st) := ModelStep(before.value, e.input, e.output);
        if ok then Some(st) else None
  }

  predicate NoKeyPut(c: Call) {
    c.input.PutOp? && !c.phase.Calling? && c.phase.out.err == ErrNoKey
  }

  /** The call has its one place in `lin`, with the answer the clerk got, inside its own interval. */
  ghost predicate Placed(c: Call, id: nat, lin: seq<Event>) {
    && c.at.Some?
    && c.start <= c.at.value < |lin|
    && lin[c.at.value].id == id
    && lin[c.at.value].input == c.input
    && (!c.phase.Calling? ==> lin[c.at.value].output == c.phase.out)
    && (c.phase.Returned? ==> c.at.value < c.phase.end <= |lin|)
  }

  /** Call a returned, in the first n steps, before call b was made. */
  ghost predicate Precedes(steps: seq<Step>, n: nat, a: nat, b: nat) {
    exists i, j :: Before(steps, n, i, j, a, b)
  }

  ghost predicate Before(steps: seq<Step>, n: nat, i: int, j: int, a: nat, b: nat) {
    0 <= i < j < n <= |steps| && steps[i] == Return(a) && steps[j].Invoke? && steps[j].id == b
  }

  /**
   An order of calls that explains them after n steps: each event is a different call, with its answer if
   it has one; calls that followed one another in real time are in that order; and the events of each key
   are a run of the specification.
   */
  ghost predicate Orders(calls: map<nat, Call>, steps: seq<Step>, n: nat, lin: seq<Event>) {
    && (forall x, y | 0 <= x < y < |lin| :: lin[x].id != lin[y].id)
    && (forall x | 0 <= x < |lin| :: IsCall(calls, lin[x]))
    && (forall x, y | 0 <= x < |lin| && 0 <= y < |lin| && Precedes(steps, n, lin[x].id, lin[y].id) :: x < y)
    && (forall key :: Replay(lin, key).Some?)
  }

  ghost predicate IsCall(calls: map<nat, Call>, e: Event) {
    && e.id in calls && e.input == calls[e.id].input
    && (!calls[e.id].phase.Calling? ==> e.output == calls[e.id].phase.out)
  }

  ghost predicate Covers(lin: seq<Event>, id: nat) {
    exists x :: 0 <= x < |lin| && lin[x].id == id
  }

  /** What a call in progress, or done, knows about its own effect on the store. */
  ghost predicate EffectOk(c: Call, store: Store) {
    match c.phase
    case Calling(first) =>
      && c.effects <= 1
      && (c.effects == 1 <==> c.at.Some?)
      && (c.at.Some? ==> c.input.PutOp? && !first && Passed(c.input.args, store))
    case Decided(out) => AnswerOk(c.input, out, c.effects)
    case Returned(out, _) => AnswerOk(c.input, out, c.effects)
  }

  ghost predicate Passed(a: PutArgs, store: Store) {
    a.key in store.versions && store.versions[a.key] > a.version
  }

  /** OK: exactly one effect.  ErrVersion, ErrNoKey, or a Get: none.  ErrMaybe: at most one. */
  ghost predicate AnswerOk(input: KvInput, out: KvOutput, effects: nat) {
    && (input.GetOp? ==> effects == 0)
    && (input.PutOp? && out.err == OK ==> effects == 1)
    && (input.PutOp? && (out.err == ErrVersion || out.err == ErrNoKey) ==> effects == 0)
    && effects <= 1
  }

  ghost predicate CallOk(c: Call, id: nat, store: Store, lin: seq<Event>) {
    && EffectOk(c, store)
    && c.start <= |lin|
    && (c.at.Some? ==> Placed(c, id, lin))
    && (c.at.None? ==> c.phase.Calling? || NoKeyPut(c))
    && (c.phase.Calling? && c.at.Some? ==> lin[c.at.value].output == KvOutput("", 0, ErrMaybe))
    && (NoKeyPut(c) ==> c.at.None?)
  }

  ghost predicate Replays(lin: seq<Event>, store: Store) {
    forall key :: Replay(lin, key) == Some(View(store, key))
  }

  ghost predicate EventsOwned(calls: map<nat, Call>, lin: seq<Event>) {
    forall i | 0 <= i < |lin| :: lin[i].id in calls && calls[lin[i].id].at == Some(i)
  }

  ghost predicate Inv(s: Sys) {
    && StoreOk(s.store)
    && Replays(s.lin, s.store)
    && (forall id | id in s.calls :: CallOk(s.calls[id], id, s.store, s.lin))
    && EventsOwned(s.calls, s.lin)
  }

  // ---------------------------------------------------------------- every step keeps the invariant

  lemma ReplayOne(lin: seq<Event>, e: Event, key: string)
    ensures Replay(lin + [e], key) ==
      var before := Replay(lin, key);
      if before.None? || KeyOf(e.input) != key then before
      else if ModelStep(before.value, e.input, e.output).0 then Some(ModelStep(before.value, e.input, e.output).1)
      else None
  {
    assert (lin + [e])[..|lin|] == lin;
  }

  /** Other calls keep what they know when the store moves on and the linearization grows. */
  lemma CallKept(c: Call, id: nat, store: Store, lin: seq<Event>, store': Store, lin': seq<Event>)
    requires CallOk(c, id, store, lin)
    requires lin <= lin'
    requires forall k | k in store.versions :: k in store'.versions && store'.versions[k] >= store.versions[k]
    ensures CallOk(c, id, store', lin')
  {
  }

  /** Appending an event for the step the server takes keeps the replay equal to the store. */
  lemma ReplaysPut(lin: seq<Event>, store: Store, id: nat, a: PutArgs, out: KvOutput)
    requires StoreOk(store) && Replays(lin, store)
    requires PutErr(store, a) != ErrNoKey
    requires out.err == PutErr(store, a) || out.err == ErrMaybe
    ensures Replays(lin + [Event(id, PutOp(a), out)], AfterPut(store, a))
  {
    forall key ensures Replay(lin + [Event(id, PutOp(a), out)], key) == Some(View(AfterPut(store, a), key)) {
      ReplayOne(lin, Event(id, PutOp(a), out), key);
      PutRefinesModel(store, a, key);
    }
  }

  lemma ReplaysGet(lin: seq<Event>, store: Store, id: nat, key: string)
    requires StoreOk(store) && Replays(lin, store)
    ensures Replays(lin + [Event(id, GetOp(key), GetOutput(store, key))], store)
  {
    forall k ensures Replay(lin + [Event(id, GetOp(key), GetOutput(store, key))], k) == Some(View(store, k)) {
      ReplayOne(lin, Event(id, GetOp(key), GetOutput(store, key)), k);
    }
  }

  /** Either no new event and the same place, or one new event that is the call's first. */
  ghost predicate Extended(s: Sys, id: nat, c': Call, lin': seq<Event>) {
    || (lin' == s.lin && c'.at == (if id in s.calls then s.calls[id].at else None))
    || (&& |lin'| == |s.lin| + 1 && s.lin <= lin' && lin'[|s.lin|].id == id
        && c'.at == Some(|s.lin|) && id in s.calls && s.calls[id].at.None?)
  }

  /** One call changes, with or without a new event of its own; the rest of the state follows. */
  lemma Changed(s: Sys, id: nat, c': Call, store': Store, lin': seq<Event>) returns (s': Sys)
    requires Inv(s)
    requires StoreOk(store') && Replays(lin', store')
    requires forall k | k in s.store.versions :: k in store'.versions && store'.versions[k] >= s.store.versions[k]
    requires CallOk(c', id, store', lin')
    requires Extended(s, id, c', lin')
    ensures s' == Sys(store', s.calls[id := c'], lin') && Inv(s')
  {
    s' := Sys(store', s.calls[id := c'], lin');
    forall j | j in s'.calls ensures CallOk(s'.calls[j], j, store', lin') {
      if j != id {
        CallKept(s.calls[j], j, s.store, s.lin, store', lin');
      }
    }
  }

  lemma PutDoneKeeps(s: Sys, id: nat, a: PutArgs)
    requires Inv(s) && id in s.calls && s.calls[id].phase.Calling? && s.calls[id].input == PutOp(a)
    ensures Inv(PutDone(s, id, a))
  {
    PutRefinesModel(s.store, a, a.key);
    var t := PutDone(s, id, a);
    if !s.calls[id].at.Some? && PutErr(s.store, a) != ErrNoKey {
      ReplaysPut(s.lin, s.store, id, a, t.calls[id].phase.out);
    }
    var t' := Changed(s, id, t.calls[id], t.store, t.lin);
  }

  lemma PutUnansweredKeeps(s: Sys, id: nat, a: PutArgs)
    requires Inv(s) && id in s.calls && s.calls[id].phase.Calling? && s.calls[id].input == PutOp(a)
    ensures Inv(PutUnanswered(s, id, a))
  {
    PutRefinesModel(s.store, a, a.key);
    var t := PutUnanswered(s, id, a);
    if PutErr(s.store, a) == OK {
      ReplaysPut(s.lin, s.store, id, a, KvOutput("", 0, ErrMaybe));
    }
    var t' := Changed(s, id, t.calls[id], t.store, t.lin);
  }

  lemma GetDoneKeeps(s: Sys, id: nat, key: string)
    requires Inv(s) && id in s.calls && s.calls[id].phase.Calling? && s.calls[id].input == GetOp(key)
    ensures Inv(GetDone(s, id, key))
  {
    ReplaysGet(s.lin, s.store, id, key);
    var t := GetDone(s, id, key);
    var t' := Changed(s, id, t.calls[id], t.store, t.lin);
  }

  lemma StepKeeps(s: Sys, step: Step)
    requires Inv(s) && Enabled(s, step)
    ensures Inv(After(s, step))
  {
    match step {
      case Invoke(id, input) =>
        var t := Changed(s, id, Call(input, |s.lin|, Calling(true), 0, None), s.store, s.lin);
      case Attempt(id, fate) =>
        var c := s.calls[id];
        if fate == Delivered && c.input.GetOp? {
          GetDoneKeeps(s, id, c.input.key);
        } else if fate == Delivered {
          PutDoneKeeps(s, id, c.input.args);
        } else if fate == ReplyLost && c.input.PutOp? {
          PutUnansweredKeeps(s, id, c.input.args);
        } else {
          var t := Changed(s, id, c.(phase := Calling(false)), s.store, s.lin);
        }
      case Return(id) =>
        var c := s.calls[id];
        var t := Changed(s, id, c.(phase := Returned(c.phase.out, |s.lin|)), s.store, s.lin);
    }
  }

  lemma {:induction false} RunKeeps(run: seq<Sys>, steps: seq<Step>, n: nat)
    requires IsRun(run, steps) && n < |run|
    ensures Inv(run[n])
  {
    if n > 0 {
      RunKeeps(run, steps, n - 1);
      assert IsStep(run[n - 1], steps[n - 1], run[n - 1 + 1]);
      StepKeeps(run[n - 1], steps[n - 1]);
    }
  }

  // ---------------------------------------------------------------- the theorems

  /** A call keeps its beginning, and once it has returned all of it; the linearization only grows. */
  lemma StepOnward(s: Sys, step: Step, id: nat)
    requires Enabled(s, step)
    ensures |s.lin| <= |After(s, step).lin|
    ensures id in s.calls ==>
      && id in After(s, step).calls && After(s, step).calls[id].start == s.calls[id].start
      && (s.calls[id].phase.Returned? ==> After(s, step).calls[id].phase == s.calls[id].phase)
  {
  }

  lemma {:induction false} RunOnward(run: seq<Sys>, steps: seq<Step>, m: nat, n: nat, id: nat)
    requires IsRun(run, steps) && m <= n < |run|
    ensures |run[m].lin| <= |run[n].lin|
    ensures id in run[m].calls ==>
      && id in run[n].calls && run[n].calls[id].start == run[m].calls[id].start
      && (run[m].calls[id].phase.Returned? ==> run[n].calls[id].phase == run[m].calls[id].phase)
    decreases n - m
  {
    if m < n {
      RunOnward(run, steps, m, n - 1, id);
      assert IsStep(run[n - 1], steps[n - 1], run[n - 1 + 1]);
      StepOnward(run[n - 1], steps[n - 1], id);
    }
  }

  /** The linearization respects real time: a call that returned before another was made comes first. */
  lemma RealTimeOrder(run: seq<Sys>, steps: seq<Step>, n: nat, a: nat, b: nat)
    requires IsRun(run, steps) && n < |run| && Precedes(steps, n, a, b)
    ensures a in run[n].calls && b in run[n].calls
    ensures run[n].calls[a].at.Some? && run[n].calls[b].at.Some? ==> run[n].calls[a].at.value < run[n].calls[b].at.value
  {
    var i, j :| Before(steps, n, i, j, a, b);
    assert IsStep(run[i], steps[i], run[i + 1]) && IsStep(run[j], steps[j], run[j + 1]);
    RunOnward(run, steps, i + 1, n, a);
    RunOnward(run, steps, i, j, a);
    RunOnward(run, steps, j + 1, n, b);
    RunKeeps(run, steps, n);
    assert CallOk(run[n].calls[a], a, run[n].store, run[n].lin) && CallOk(run[n].calls[b], b, run[n].store, run[n].lin);
  }

  /**
   Every history is linearizable: the order of effects at the server explains all answered calls but the
   Puts answered ErrNoKey, and leads to the server's own contents.
   */
  lemma Linearizability(run: seq<Sys>, steps: seq<Step>, n: nat)
    requires IsRun(run, steps) && n < |run|
    ensures Orders(run[n].calls, steps, n, run[n].lin)
    ensures forall id | id in run[n].calls && !run[n].calls[id].phase.Calling? && !NoKeyPut(run[n].calls[id]) ::
        Covers(run[n].lin, id)
    ensures forall key :: Replay(run[n].lin, key) == Some(View(run[n].store, key))
  {
    RunKeeps(run, steps, n);
    var s := run[n];
    forall x | 0 <= x < |s.lin| ensures IsCall(s.calls, s.lin[x]) && s.calls[s.lin[x].id].at == Some(x) {
      assert CallOk(s.calls[s.lin[x].id], s.lin[x].id, s.store, s.lin);
    }
    forall x, y | 0 <= x < |s.lin| && 0 <= y < |s.lin| && Precedes(steps, n, s.lin[x].id, s.lin[y].id) ensures x < y {
      RealTimeOrder(run, steps, n, s.lin[x].id, s.lin[y].id);
    }
    forall id | id in s.calls && !s.calls[id].phase.Calling? && !NoKeyPut(s.calls[id]) ensures Covers(s.lin, id) {
      assert CallOk(s.calls[id], id, s.store, s.lin);
      assert s.lin[s.calls[id].at.value].id == id;
    }
  }

  /** What an answer tells the caller about the number of times its Put changed the server. */
  lemma AtMostOnce(run: seq<Sys>, steps: seq<Step>, n: nat, id: nat)
    requires IsRun(run, steps) && n < |run| && id in run[n].calls
    ensures run[n].calls[id].effects <= 1
    ensures var c := run[n].calls[id]; !c.phase.Calling? ==> AnswerOk(c.input, c.phase.out, c.effects)
  {
    RunKeeps(run, steps, n);
  }

  // ---------------------------------------------------------------- counting answers

  predicate PutAnswer(e: Event, key: string, err: Err) {
    e.input.PutOp? && e.input.args.key == key && e.output.err == err
  }

  function Count(lin: seq<Event>, key: string, err: Err): nat {
    if lin == [] then 0
    else Count(lin[..|lin| - 1], key, err) + (if PutAnswer(lin[|lin| - 1], key, err) then 1 else 0)
  }

  /** A key's version counts the Puts the specification let through. */
  lemma {:induction false} ReplayCounts(lin: seq<Event>, key: string)
    requires Replay(lin, key).Some?
    ensures Count(lin, key, OK) <= Replay(lin, key).value.version <= Count(lin, key, OK) + Count(lin, key, ErrMaybe)
  {
    if lin != [] {
      ReplayCounts(lin[..|lin| - 1], key);
    }
  }

  /** The calls behind the events counted. */
  function EventIds(lin: seq<Event>, key: string, err: Err): set<nat> {
    if lin == [] then {}
    else
      var e := lin[|lin| - 1];
      EventIds(lin[..|lin| - 1], key, err) + if PutAnswer(e, key, err) then {e.id} else {}
  }

  lemma {:induction false} InEventIds(lin: seq<Event>, key: string, err: Err, id: nat)
    ensures id in EventIds(lin, key, err) <==>
        exists i :: 0 <= i < |lin| && PutAnswer(lin[i], key, err) && lin[i].id == id
  {
    if lin != [] {
      var init := lin[..|lin| - 1];
      InEventIds(init, key, err, id);
      assert forall i | 0 <= i < |init| :: init[i] == lin[i];
    }
  }

  lemma {:induction false} CountIsCardinality(lin: seq<Event>, key: string, err: Err)
    requires forall i, j | 0 <= i < j < |lin| :: lin[i].id != lin[j].id
    ensures |EventIds(lin, key, err)| == Count(lin, key, err)
  {
    if lin != [] {
      CountIsCardinality(lin[..|lin| - 1], key, err);
      InEventIds(lin[..|lin| - 1], key, err, lin[|lin| - 1].id);
    }
  }

  /** The calls that put to the key and were answered so. */
  ghost function Answered(calls: map<nat, Call>, key: string, err: Err): set<nat> {
    set id | id in calls && calls[id].input.PutOp? && calls[id].input.args.key == key
             && !calls[id].phase.Calling? && calls[id].phase.out.err == err
  }

  ghost function Unanswered(calls: map<nat, Call>, key: string): set<nat> {
    set id | id in calls && calls[id].input.PutOp? && calls[id].input.args.key == key && calls[id].phase.Calling?
  }

  lemma SubsetCardinality(a: set<nat>, b: set<nat>)
    requires a <= b
    ensures |a| <= |b|
  {
    assert b == a + (b - a);
  }

  /**
   The version of a key is at least the number of Puts answered OK, and at most that number plus
   the Puts answered ErrMaybe or not answered yet.
   */
  lemma VersionCounts(run: seq<Sys>, steps: seq<Step>, n: nat, key: string)
    requires IsRun(run, steps) && n < |run|
    ensures var s := run[n];
      |Answered(s.calls, key, OK)| <= VersionOf(s.store, key)
        <= |Answered(s.calls, key, OK)| + |Answered(s.calls, key, ErrMaybe) + Unanswered(s.calls, key)|
  {
    RunKeeps(run, steps, n);
    var s := run[n];
    ReplayCounts(s.lin, key);
    CountIsCardinality(s.lin, key, OK);
    CountIsCardinality(s.lin, key, ErrMaybe);
    forall id ensures id in EventIds(s.lin, key, OK) <==> id in Answered(s.calls, key, OK) {
      InEventIds(s.lin, key, OK, id);
      if id in Answered(s.calls, key, OK) {
        assert Placed(s.calls[id], id, s.lin);
        assert PutAnswer(s.lin[s.calls[id].at.value], key, OK);
      }
    }
    assert EventIds(s.lin, key, OK) == Answered(s.calls, key, OK);
    forall id | id in EventIds(s.lin, key, ErrMaybe)
      ensures id in Answered(s.calls, key, ErrMaybe) + Unanswered(s.calls, key)
    {
      InEventIds(s.lin, key, ErrMaybe, id);
    }
    SubsetCardinality(EventIds(s.lin, key, ErrMaybe), Answered(s.calls, key, ErrMaybe) + Unanswered(s.calls, key));
  }

  // ---------------------------------------------------------------- the answer the specification lacks

  /** The order explains every answered call. */
  ghost predicate Explains(calls: map<nat, Call>, steps: seq<Step>, n: nat, lin: seq<Event>) {
    && Orders(calls, steps, n, lin)
    && forall id | id in calls && !calls[id].phase.Calling? :: Covers(lin, id)
  }

  /** The attempt of a Put with a non-zero version is executed, and answered, while its key is absent. */
  predicate PutsNowhere(s: Sys, step: Step) {
    && step.Attempt? && step.fate == Delivered && step.id in s.calls
    && s.calls[step.id].input.PutOp? && s.calls[step.id].input.args.version != 0
    && s.calls[step.id].input.args.key !in s.store.versions
  }

  lemma NoKeyStep(s: Sys, step: Step, id: nat)
    requires Enabled(s, step)
    ensures id in After(s, step).calls && NoKeyPut(After(s, step).calls[id])
        <==> (id in s.calls && NoKeyPut(s.calls[id])) || (PutsNowhere(s, step) && step.id == id)
  {
  }

  /** A call is answered ErrNoKey exactly when one of its attempts put nowhere. */
  lemma {:induction false} NoKeyExactlyWhen(run: seq<Sys>, steps: seq<Step>, n: nat, id: nat)
    requires IsRun(run, steps) && n < |run|
    ensures id in run[n].calls && NoKeyPut(run[n].calls[id])
        <==> exists i :: 0 <= i < n && PutsNowhere(run[i], steps[i]) && steps[i].id == id
  {
    if n > 0 {
      NoKeyExactlyWhen(run, steps, n - 1, id);
      assert IsStep(run[n - 1], steps[n - 1], run[n - 1 + 1]);
      NoKeyStep(run[n - 1], steps[n - 1], id);
    }
  }

  lemma {:induction false} AdmittedEvents(lin: seq<Event>, e: Event)
    requires e in lin && e.input.PutOp? && Replay(lin, e.input.args.key).Some?
    ensures e.output.err != ErrNoKey
  {
    var n := |lin| - 1;
    if e != lin[n] {
      AdmittedEvents(lin[..n], e);
    }
  }

  lemma ExplainedMeans(calls: map<nat, Call>, steps: seq<Step>, n: nat, lin: seq<Event>, id: nat)
    requires Explains(calls, steps, n, lin) && id in calls
    ensures !NoKeyPut(calls[id])
  {
    if NoKeyPut(calls[id]) {
      var x :| 0 <= x < |lin| && lin[x].id == id;
      assert IsCall(calls, lin[x]);
      AdmittedEvents(lin, lin[x]);
      assert false;
    }
  }

  /**
   The answers of a run have an explanation in the specification exactly when no Put with a non-zero
   version was executed, and answered, while its key was absent.
   */
  lemma ExplainedIffNeverPutNowhere(run: seq<Sys>, steps: seq<Step>, n: nat)
    requires IsRun(run, steps) && n < |run|
    ensures (exists lin :: Explains(run[n].calls, steps, n, lin))
       <==> (forall i | 0 <= i < n :: !PutsNowhere(run[i], steps[i]))
  {
    var s := run[n];
    if forall i | 0 <= i < n :: !PutsNowhere(run[i], steps[i]) {
      forall id | id in s.calls ensures !NoKeyPut(s.calls[id]) {
        NoKeyExactlyWhen(run, steps, n, id);
      }
      Linearizability(run, steps, n);
      assert Explains(s.calls, steps, n, s.lin);
    }
    forall lin, i | Explains(s.calls, steps, n, lin) && 0 <= i < n ensures !PutsNowhere(run[i], steps[i]) {
      if PutsNowhere(run[i], steps[i]) {
        NoKeyExactlyWhen(run, steps, n, steps[i].id);
        ExplainedMeans(s.calls, steps, n, lin, steps[i].id);
        assert false;
      }
    }
  }

  /** Such an answer does occur: a Put with a non-zero version to a key nobody created. */
  lemma NoKeyOccurs() returns (run: seq<Sys>, steps: seq<Step>)
    ensures IsRun(run, steps) && exists id :: id in run[|steps|].calls && NoKeyPut(run[|steps|].calls[id])
  {
    var s0 := Sys(Empty, map[], []);
    steps := [Invoke(0, PutOp(PutArgs("x", "1", 7))), Attempt(0, Delivered)];
    var s1 := After(s0, steps[0]);
    var s2 := After(s1, steps[1]);
    run := [s0, s1, s2];
    assert IsStep(run[0], steps[0], run[1]) && IsStep(run[1], steps[1], run[2]);
    assert NoKeyPut(s2.calls[0]);
  }
}
