/**
 The lock of src/kvsrv1/lock/lock.go, used by any number of clients at once over the unreliable
 network: mutual exclusion, and releases that take effect exactly once.
 */
module LockProtocol {
  import opened Options
  import opened KvServer
  import KvHistory

  /** What Acquire does with the reply to its Get. */
  datatype Move = Take(version: nat) | Own(version: nat) | Retry

  function Next(id: string, reply: GetReply): Move {
    match reply.err
    case ErrNoKey => Take(0)
    case OK =>
      if reply.value == "" then Take(reply.version)
      else if reply.value == id then Own(reply.version)
      else Retry
    case _ => Retry
  }

  /** Where a client is: a Put is in progress while Making, Taking and Freeing. */
  datatype Stage =
    | Making
    | Idle
    | Asking
    | Told(reply: GetReply)
    | Taking(version: nat)
    | Holding(version: nat)
    | Freeing(version: nat, held: bool)

  /** `version`: what the lock object remembers; `inside`: between Acquire's return and Release's call. */
  datatype Client = Client(
    id: string, version: nat, stage: Stage, inside: bool, first: bool, effects: nat, answer: Option<Err>)

  /** `hist[v]` is the value the lock's key had at version `v`. */
  datatype Sys = Sys(key: string, store: Store, hist: seq<string>, clients: map<nat, Client>)

  datatype Step =
    | Make(c: nat, id: string)
    | PutTry(c: nat, fate: KvHistory.Fate)
    | PutReturns(c: nat)
    | GetTry(c: nat, fate: KvHistory.Fate)
    | Decide(c: nat)
    | Acquire(c: nat)
    | Release(c: nat)
    | Elsewhere(a: PutArgs)

  predicate Putting(c: Client) {
    c.stage.Making? || c.stage.Taking? || c.stage.Freeing?
  }

  function PutOf(key: string, c: Client): PutArgs
    requires Putting(c)
  {
    match c.stage
    case Making => PutArgs(key, "", 0)
    case Taking(v) => PutArgs(key, c.id, v)
    case Freeing(v, _) => PutArgs(key, "", v)
  }

  ghost predicate Enabled(s: Sys, step: Step) {
    match step
    case Make(c, id) => c !in s.clients && id != "" && forall d | d in s.clients :: s.clients[d].id != id
    case PutTry(c, _) => c in s.clients && Putting(s.clients[c]) && s.clients[c].answer.None?
    case PutReturns(c) => c in s.clients && Putting(s.clients[c]) && s.clients[c].answer.Some?
    case GetTry(c, _) => c in s.clients && s.clients[c].stage.Asking?
    case Decide(c) => c in s.clients && s.clients[c].stage.Told?
    case Acquire(c) => c in s.clients && (s.clients[c].stage.Idle? || s.clients[c].stage.Holding?)
    case Release(c) => c in s.clients && (s.clients[c].stage.Idle? || s.clients[c].stage.Holding?)
    case Elsewhere(a) => a.key != s.key
  }

  /** The client with a new Put under way. */
  function Begins(c: Client, stage: Stage): Client {
    c.(stage := stage, first := true, effects := 0, answer := None)
  }

  function AfterPutTry(s: Sys, i: nat, fate: KvHistory.Fate): Sys
    requires i in s.clients && Putting(s.clients[i])
  {
    var c, a := s.clients[i], PutOf(s.key, s.clients[i]);
    if fate == KvHistory.RequestLost then s.(clients := s.clients[i := c.(first := false)])
    else
      var err := PutErr(s.store, a);
      var answer := if fate == KvHistory.Delivered then Some(KvHistory.PutResult(c.first, err)) else None;
      var effects := c.effects + if err == OK then 1 else 0;
      Sys(s.key,
          AfterPut(s.store, a),
          if err == OK then s.hist + [a.value] else s.hist,
          s.clients[i := c.(first := false, effects := effects, answer := answer)])
  }

  /** Acquire returns. */
  function Enters(c: Client, version: nat): Client {
    c.(stage := Holding(version), version := version, inside := true)
  }

  function AfterPutReturns(c: Client): Client
    requires Putting(c) && c.answer.Some?
  {
    match c.stage
    case Taking(v) => if c.answer == Some(OK) then Enters(c, v + 1) else c.(stage := Asking)
    case _ => c.(stage := Idle)
  }

  function AfterDecide(c: Client): Client
    requires c.stage.Told?
  {
    match Next(c.id, c.stage.reply)
    case Take(v) => Begins(c, Taking(v))
    case Own(v) => Enters(c, v)
    case Retry => c.(stage := Asking)
  }

  /** Release is called, by a holder or not. */
  function AfterRelease(c: Client): Client {
    Begins(c, Freeing(c.version, c.stage.Holding?)).(inside := false)
  }

  ghost function After(s: Sys, step: Step): Sys
    requires Enabled(s, step)
  {
    match step
    case Make(c, id) => s.(clients := s.clients[c := Client(id, 0, Making, false, true, 0, None)])
    case PutTry(c, fate) => AfterPutTry(s, c, fate)
    case PutReturns(c) => s.(clients := s.clients[c := AfterPutReturns(s.clients[c])])
    case GetTry(c, fate) =>
      if fate != KvHistory.Delivered then s
      else s.(clients := s.clients[c := s.clients[c].(stage := Told(Lookup(s.store, s.key)))])
    case Decide(c) => s.(clients := s.clients[c := AfterDecide(s.clients[c])])
    case Acquire(c) => s.(clients := s.clients[c := s.clients[c].(stage := Asking)])
    case Release(c) => s.(clients := s.clients[c := AfterRelease(s.clients[c])])
    case Elsewhere(a) => s.(store := AfterPut(s.store, a))
  }

  ghost predicate Init(s: Sys) {
    s.store == Empty && s.hist == [""] && s.clients == map[]
  }

  ghost predicate IsStep(s: Sys, step: Step, s': Sys) {
    Enabled(s, step) && s' == After(s, step)
  }

  ghost predicate IsRun(run: seq<Sys>, steps: seq<Step>) {
    && |run| == |steps| + 1
    && Init(run[0])
    && forall i | 0 <= i < |steps| :: IsStep(run[i], steps[i], run[i + 1])
  }

  // ---------------------------------------------------------------- the invariant

  ghost predicate HistOk(st: KvState, hist: seq<string>) {
    && |hist| == st.version + 1
    && hist[0] == ""
    && hist[st.version] == st.value
    && forall v | 0 <= v < |hist| - 1 :: hist[v] == "" || hist[v + 1] == ""
  }

  ghost predicate Was(hist: seq<string>, v: nat, value: string) {
    v < |hist| && hist[v] == value
  }

  ghost predicate StageOk(c: Client, st: KvState, hist: seq<string>) {
    match c.stage
    case Making => c.version == 0
    case Idle => Stale(c, st, hist)
    case Asking => true
    case Told(r) => r.err == OK ==> Was(hist, r.version, r.value) && (r.value == c.id ==> st == KvState(c.id, r.version))
    case Taking(v) =>
      && Was(hist, v, "")
      && (c.effects > 0 ==> st == KvState(c.id, v + 1))
      && (c.answer == Some(OK) ==> c.effects > 0)
    case Holding(v) => c.version == v && st == KvState(c.id, v)
    case Freeing(v, held) =>
      && c.version == v
      && if held then
           && Was(hist, v, c.id)
           && (c.effects == 0 ==> st == KvState(c.id, v))
           && (c.effects > 0 ==> st.version > v && c.effects == 1)
           && (c.answer.Some? ==> c.effects > 0)
         else Stale(c, st, hist)
  }

  /** The remembered version is not one under which the client holds the lock. */
  ghost predicate Stale(c: Client, st: KvState, hist: seq<string>) {
    c.version == 0 || (Was(hist, c.version, c.id) && st.version > c.version)
  }

  ghost predicate InsideOk(c: Client, st: KvState) {
    c.inside ==>
      && st.value == c.id
      && (c.stage.Holding? || c.stage.Asking? || (c.stage.Told? && c.stage.reply == GetReply(st.value, st.version, OK)))
  }

  ghost predicate ClientOk(c: Client, st: KvState, hist: seq<string>) {
    c.id != "" && StageOk(c, st, hist) && InsideOk(c, st)
  }

  ghost predicate Distinct(clients: map<nat, Client>) {
    forall c, d | c in clients && d in clients && c != d :: clients[c].id != clients[d].id
  }

  ghost predicate ClientsOk(clients: map<nat, Client>, st: KvState, hist: seq<string>) {
    forall c | c in clients :: ClientOk(clients[c], st, hist)
  }

  ghost predicate Inv(s: Sys) {
    && StoreOk(s.store)
    && HistOk(View(s.store, s.key), s.hist)
    && Distinct(s.clients)
    && ClientsOk(s.clients, View(s.store, s.key), s.hist)
  }

  // ---------------------------------------------------------------- every step keeps it

  /** A lock Put takes effect only on a lock that is free or the client's own. */
  lemma EffectiveOn(c: Client, st: KvState, hist: seq<string>, key: string)
    requires HistOk(st, hist) && ClientOk(c, st, hist) && Putting(c)
    requires PutOf(key, c).version == st.version
    ensures st.value == "" || st.value == c.id
    ensures st.value == "" || PutOf(key, c).value == ""
    ensures c.stage.Freeing? && c.stage.held ==> c.effects == 0
    ensures !c.inside
  {
  }

  /** Another client's claims survive the effective Put. */
  lemma OtherKept(d: Client, st: KvState, hist: seq<string>, owner: string, value: string)
    requires HistOk(st, hist) && ClientOk(d, st, hist)
    requires (st.value == "" || st.value == owner) && d.id != owner
    ensures ClientOk(d, KvState(value, st.version + 1), hist + [value])
  {
  }

  lemma HistGrows(st: KvState, hist: seq<string>, value: string)
    requires HistOk(st, hist) && (st.value == "" || value == "")
    ensures HistOk(KvState(value, st.version + 1), hist + [value])
  {
  }

  /** One client changes while the lock's key stays as it is. */
  lemma ClientChanges(s: Sys, i: nat, c': Client) returns (s': Sys)
    requires Inv(s)
    requires i in s.clients ==> c'.id == s.clients[i].id
    requires i !in s.clients ==> forall d | d in s.clients :: s.clients[d].id != c'.id
    requires ClientOk(c', View(s.store, s.key), s.hist)
    ensures s' == s.(clients := s.clients[i := c']) && Inv(s')
  {
    s' := s.(clients := s.clients[i := c']);
  }

  /** The client's own claims after its Put took effect. */
  lemma OwnPut(c: Client, c': Client, st: KvState, hist: seq<string>, value: string)
    requires HistOk(st, hist) && ClientOk(c, st, hist) && Putting(c) && !c.inside
    requires PutOf("", c).version == st.version && value == PutOf("", c).value
    requires c' == c.(first := c'.first, effects := c.effects + 1, answer := c'.answer)
    requires c.stage.Freeing? && c.stage.held ==> c.effects == 0
    ensures ClientOk(c', KvState(value, st.version + 1), hist + [value])
  {
  }

  /** The client's own claims after its Put was refused. */
  lemma OwnRefused(c: Client, c': Client, st: KvState, hist: seq<string>)
    requires HistOk(st, hist) && ClientOk(c, st, hist) && Putting(c)
    requires PutOf("", c).version != st.version
    requires c' == c.(first := c'.first, answer := c'.answer) && c'.answer != Some(OK)
    ensures ClientOk(c', st, hist)
  {
  }

  /** All clients after an effective Put by one of them. */
  lemma EffectivePut(clients: map<nat, Client>, i: nat, c': Client, st: KvState, hist: seq<string>, value: string)
    requires HistOk(st, hist) && Distinct(clients) && ClientsOk(clients, st, hist)
    requires i in clients && Putting(clients[i])
    requires PutOf("", clients[i]).version == st.version && PutOf("", clients[i]).value == value
    requires c' == clients[i].(first := c'.first, effects := clients[i].effects + 1, answer := c'.answer)
    ensures HistOk(KvState(value, st.version + 1), hist + [value])
    ensures ClientsOk(clients[i := c'], KvState(value, st.version + 1), hist + [value])
  {
    var c := clients[i];
    EffectiveOn(c, st, hist, "");
    HistGrows(st, hist, value);
    OwnPut(c, c', st, hist, value);
    forall d | d in clients && d != i ensures ClientOk(clients[d], KvState(value, st.version + 1), hist + [value]) {
      OtherKept(clients[d], st, hist, c.id, value);
    }
  }

  /** A Put that reached the server and was refused. */
  lemma RefusedPut(s: Sys, i: nat, c': Client) returns (s': Sys)
    requires Inv(s) && i in s.clients && Putting(s.clients[i])
    requires PutOf("", s.clients[i]).version != View(s.store, s.key).version
    requires c' == s.clients[i].(first := c'.first, answer := c'.answer) && c'.answer != Some(OK)
    ensures s' == s.(clients := s.clients[i := c']) && Inv(s')
  {
    OwnRefused(s.clients[i], c', View(s.store, s.key), s.hist);
    s' := ClientChanges(s, i, c');
  }

  /** A Put that took effect. */
  lemma EffectiveState(s: Sys, i: nat, c': Client, a: PutArgs) returns (s': Sys)
    requires Inv(s) && i in s.clients && Putting(s.clients[i]) && a == PutOf(s.key, s.clients[i])
    requires PutErr(s.store, a) == OK
    requires c' == s.clients[i].(first := c'.first, effects := s.clients[i].effects + 1, answer := c'.answer)
    ensures s' == Sys(s.key, AfterPut(s.store, a), s.hist + [a.value], s.clients[i := c']) && Inv(s')
  {
    s' := Sys(s.key, AfterPut(s.store, a), s.hist + [a.value], s.clients[i := c']);
    PutRefinesModel(s.store, a, s.key);
    EffectivePut(s.clients, i, c', View(s.store, s.key), s.hist, a.value);
  }

  lemma PutTryKeeps(s: Sys, i: nat, fate: KvHistory.Fate)
    requires Inv(s) && i in s.clients && Putting(s.clients[i]) && s.clients[i].answer.None?
    ensures Inv(AfterPutTry(s, i, fate))
  {
    var a := PutOf(s.key, s.clients[i]);
    var c' := AfterPutTry(s, i, fate).clients[i];
    var s';
    if fate == KvHistory.RequestLost {
      s' := ClientChanges(s, i, c');
    } else if PutErr(s.store, a) == OK {
      s' := EffectiveState(s, i, c', a);
    } else {
      PutRefinesModel(s.store, a, s.key);
      s' := RefusedPut(s, i, c');
    }
  }

  lemma DecideKeeps(c: Client, st: KvState, hist: seq<string>)
    requires HistOk(st, hist) && ClientOk(c, st, hist) && c.stage.Told?
    ensures ClientOk(AfterDecide(c), st, hist)
  {
  }

  lemma ReturnsKeeps(c: Client, st: KvState, hist: seq<string>)
    requires HistOk(st, hist) && ClientOk(c, st, hist) && Putting(c) && c.answer.Some?
    ensures ClientOk(AfterPutReturns(c), st, hist)
  {
  }

  lemma ToldKeeps(c: Client, store: Store, key: string, hist: seq<string>)
    requires StoreOk(store) && HistOk(View(store, key), hist) && ClientOk(c, View(store, key), hist) && c.stage.Asking?
    ensures ClientOk(c.(stage := Told(Lookup(store, key))), View(store, key), hist)
  {
  }

  lemma CallKeeps(c: Client, st: KvState, hist: seq<string>)
    requires HistOk(st, hist) && ClientOk(c, st, hist) && (c.stage.Idle? || c.stage.Holding?)
    ensures ClientOk(AfterRelease(c), st, hist) && ClientOk(c.(stage := Asking), st, hist)
  {
  }

  lemma StepKeeps(s: Sys, step: Step)
    requires Inv(s) && Enabled(s, step)
    ensures Inv(After(s, step))
  {
    var st := View(s.store, s.key);
    var s';
    match step {
      case Make(c, id) => s' := ClientChanges(s, c, Client(id, 0, Making, false, true, 0, None));
      case PutTry(c, fate) => PutTryKeeps(s, c, fate);
      case PutReturns(c) =>
        ReturnsKeeps(s.clients[c], st, s.hist);
        s' := ClientChanges(s, c, AfterPutReturns(s.clients[c]));
      case GetTry(c, fate) =>
        if fate == KvHistory.Delivered {
          ToldKeeps(s.clients[c], s.store, s.key, s.hist);
          s' := ClientChanges(s, c, s.clients[c].(stage := Told(Lookup(s.store, s.key))));
        }
      case Decide(c) =>
        DecideKeeps(s.clients[c], st, s.hist);
        s' := ClientChanges(s, c, AfterDecide(s.clients[c]));
      case Acquire(c) =>
        CallKeeps(s.clients[c], st, s.hist);
        s' := ClientChanges(s, c, s.clients[c].(stage := Asking));
      case Release(c) =>
        CallKeeps(s.clients[c], st, s.hist);
        s' := ClientChanges(s, c, AfterRelease(s.clients[c]));
      case Elsewhere(a) => PutRefinesModel(s.store, a, s.key);
    }
  }

  lemma {:induction false} RunKeeps(run: seq<Sys>, steps: seq<Step>, n: nat)
    requires IsRun(run, steps) && n < |run|
    ensures Inv(run[n])
  {
    if n > 0 {
      RunKeeps(run, steps, n - 1);
      assert IsStep(run[n - 1], steps[n - 1], run[n - 1 + 1]);
      StepKeeps(run[n - 1], steps[n - 1]);
    }
  }

  // ---------------------------------------------------------------- the theorems

  /** At most one client is between Acquire's return and Release's call. */
  lemma MutualExclusion(run: seq<Sys>, steps: seq<Step>, n: nat, c: nat, d: nat)
    requires IsRun(run, steps) && n < |run|
    requires c in run[n].clients && d in run[n].clients
    requires run[n].clients[c].inside && run[n].clients[d].inside
    ensures c == d
  {
    RunKeeps(run, steps, n);
    assert InsideOk(run[n].clients[c], View(run[n].store, run[n].key));
    assert InsideOk(run[n].clients[d], View(run[n].store, run[n].key));
  }

  /** A holder's identity and remembered version are the server's, so its Release will match. */
  lemma HolderIsCurrent(run: seq<Sys>, steps: seq<Step>, n: nat, c: nat)
    requires IsRun(run, steps) && n < |run|
    requires c in run[n].clients && run[n].clients[c].stage.Holding?
    ensures View(run[n].store, run[n].key) == KvState(run[n].clients[c].id, run[n].clients[c].stage.version)
  {
    RunKeeps(run, steps, n);
    assert StageOk(run[n].clients[c], View(run[n].store, run[n].key), run[n].hist);
  }

  /** When a holder's Release returns, its Put has freed the lock, once, whatever answer the clerk reports. */
  lemma ReleaseTakesEffectOnce(run: seq<Sys>, steps: seq<Step>, n: nat, c: nat)
    requires IsRun(run, steps) && n < |run|
    requires c in run[n].clients && run[n].clients[c].stage.Freeing? && run[n].clients[c].stage.held
    requires run[n].clients[c].answer.Some?
    ensures run[n].clients[c].effects == 1
    ensures View(run[n].store, run[n].key).version > run[n].clients[c].stage.version
  {
    RunKeeps(run, steps, n);
    assert StageOk(run[n].clients[c], View(run[n].store, run[n].key), run[n].hist);
  }

  /** A Release by a client that does not hold the lock changes nothing once anyone has taken it. */
  lemma StaleReleaseHarmless(run: seq<Sys>, steps: seq<Step>, n: nat, c: nat)
    requires IsRun(run, steps) && n < |run|
    requires c in run[n].clients && run[n].clients[c].stage.Freeing? && !run[n].clients[c].stage.held
    requires View(run[n].store, run[n].key).value != ""
    ensures PutErr(run[n].store, PutOf(run[n].key, run[n].clients[c])) != OK
  {
    RunKeeps(run, steps, n);
    var s := run[n];
    assert StageOk(s.clients[c], View(s.store, s.key), s.hist);
    PutRefinesModel(s.store, PutOf(s.key, s.clients[c]), s.key);
  }

  /** The lock passes from one owner to another only by being free in between. */
  lemma FreeBetweenOwners(run: seq<Sys>, steps: seq<Step>, n: nat, v: nat)
    requires IsRun(run, steps) && n < |run|
    requires v + 1 < |run[n].hist|
    ensures run[n].hist[v] == "" || run[n].hist[v + 1] == ""
  {
    RunKeeps(run, steps, n);
  }
}
