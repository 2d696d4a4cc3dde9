/**
 What the applier is granted by the rest of the system is met in every run of the cluster: as long as
 clients submit real commands, each step at a peer is one of the handlers that RaftApplier allows.
 */
module RaftDelivery {
  import opened Options
  import opened RaftTypes
  import opened RaftLog
  import opened RaftNode
  import opened RaftSystem
  import opened RaftSimulation
  import opened RaftCompaction
  import opened RaftSteps
  import opened RaftSafety
  import opened RaftApplier

  ghost predicate Real(s: Sys) {
    && (forall i | 0 <= i < |s.nodes| :: RealLog(s.nodes[i].log))
    && (forall c | c in s.appendCalls :: RealEntries(c.args.entries))
  }

  /** Clients submit commands, never nil. */
  ghost predicate RealSubmissions(steps: seq<Step>) {
    forall k | 0 <= k < |steps| && steps[k].Submit? :: steps[k].command.Some?
  }

  lemma AppendReal(s: Node, a: AppendArgs)
    requires RealLog(s.log) && RealEntries(a.entries)
    ensures RealLog(AfterAppend(s, a).node.log)
  {
  }

  /** The peers after a step hold real logs. */
  lemma NodesReal(s: Sys, step: Step, i: int)
    requires Real(s) && Enabled(s, step) && 0 <= i < |s.nodes| && (step.Submit? ==> step.command.Some?)
    ensures RealLog(After(s, step).nodes[i].log)
  {
    if step.HandleAppend? && step.acall.to == i {
      AppendReal(s.nodes[i], step.acall.args);
    }
  }

  lemma StepReal(s: Sys, step: Step)
    requires Real(s) && Enabled(s, step) && (step.Submit? ==> step.command.Some?)
    ensures Real(After(s, step))
  {
    var s' := After(s, step);
    forall i | 0 <= i < |s'.nodes| ensures RealLog(s'.nodes[i].log) {
      NodesReal(s, step, i);
    }
    if step.Send? {
      assert RealLog(s.nodes[step.i].log);
    }
  }

  lemma {:induction false} RunReal(states: seq<Sys>, steps: seq<Step>, k: int)
    requires IsRun(states, steps) && RealSubmissions(steps) && 0 <= k <= |steps|
    ensures Real(states[k])
  {
    if k > 0 {
      RunReal(states, steps, k - 1);
      assert StepAt(states, steps, k - 1);
      StepReal(states[k - 1], steps[k - 1]);
    }
  }

  /** In every reachable state the commit index lies in the log, with a command at every index past the snapshot. */
  lemma ReachableSane(states: seq<Sys>, steps: seq<Step>, k: int, i: int)
    requires IsRun(states, steps) && OneRoundPerTerm(states[|steps|]) && RealSubmissions(steps)
    requires 0 <= k <= |steps| && 0 <= i < |states[k].nodes|
    ensures Sane(states[k].nodes[i])
    ensures states[k].nodes[i].lastIncludedIndex <= states[k].nodes[i].lastApplied <= states[k].nodes[i].commitIndex
  {
    var a, b, qa, qb := TwoMoments(states, steps, k, k);
    PeerFacts(states[k], b, qb, i);
    RunReal(states, steps, k);
    assert RealLog(states[k].nodes[i].log);
  }

  /** The step neither restarts the peer nor is its applier's own. */
  ghost predicate ByHandler(s: Sys, step: Step, i: int)
    requires 0 <= i < |s.nodes|
  {
    && step != Restart(i)
    && step != Apply(i)
    && !(step.HandleAppend? && step.acall.to == i && AfterAppend(s.nodes[i], step.acall.args).Crashed?)
  }

  lemma HandlerAdvances(s: Sys, step: Step, i: int)
    requires Enabled(s, step) && 0 <= i < |s.nodes| && ByHandler(s, step, i)
    requires s.nodes[i].log != [] && s.nodes[i].lastIncludedIndex >= 0
    requires step.HandleAppend? ==>
        step.acall.args.leaderCommit <= step.acall.args.prevLogIndex + |step.acall.args.entries|
    ensures
      var x, y := s.nodes[i], After(s, step).nodes[i];
      y.lastApplied == x.lastApplied && x.lastIncludedIndex <= y.lastIncludedIndex && x.commitIndex <= y.commitIndex
  {
    if step.HandleAppend? && step.acall.to == i && AfterAppend(s.nodes[i], step.acall.args).reply.success {
      AcceptRaises(s.nodes[i], step.acall.args);
    }
  }

  /** The handler that a step runs at peer i. */
  function HandlerOf(step: Step, i: int): Option<Handler> {
    match step
    case Timeout(j) => if j == i then Some(TimeoutFired) else None
    case RunElection(j) => if j == i then Some(RoundStarted) else None
    case HandleVote(c) => if c.to == i then Some(VoteAsked(c.args)) else None
    case HandleVoteResponse(r) => if r.call.args.candidate == i then Some(VoteAnswered(r.call.args, r.reply)) else None
    case Submit(j, command) => if j == i then Some(CommandSubmitted(command)) else None
    case HandleAppend(c) => if c.to == i then Some(EntriesReceived(c.args)) else None
    case HandleAppendResponse(r) =>
      if r.call.args.leader == i then Some(EntriesAnswered(r.call.to, r.call.args, r.reply)) else None
    case TakeSnapshot(j, index) => if j == i then Some(SnapshotMade(index)) else None
    case _ => None
  }

  ghost predicate IsHandled(x: Node, h: Option<Handler>, y: Node) {
    if h.Some? then Proper(x, h.value) && y == Handled(x, h.value) else y == x
  }

  lemma StepHandled(s: Sys, step: Step, i: int)
    requires Enabled(s, step) && Real(s) && 0 <= i < |s.nodes| && ByHandler(s, step, i)
    requires (step.Submit? ==> step.command.Some?)
    requires step.HandleAppend? && step.acall.to == i ==> s.nodes[i].commitIndex <= LastIndex(After(s, step).nodes[i])
    ensures IsHandled(s.nodes[i], HandlerOf(step, i), After(s, step).nodes[i])
  {
  }

  /** Every step of every run is, at a peer it neither restarts nor applies for, a handler its applier allows. */
  lemma StepsAreHandlers(states: seq<Sys>, steps: seq<Step>, k: int, i: int)
    requires IsRun(states, steps) && OneRoundPerTerm(states[|steps|]) && RealSubmissions(steps)
    requires 0 <= k < |steps| && 0 <= i < |states[k].nodes| && ByHandler(states[k], steps[k], i)
    ensures |states[k + 1].nodes| == |states[k].nodes|
    ensures IsHandled(states[k].nodes[i], HandlerOf(steps[k], i), states[k + 1].nodes[i])
    ensures states[k + 1].nodes[i].lastIncludedIndex <= states[k + 1].nodes[i].lastApplied
  {
    assert StepAt(states, steps, k);
    WellFormedLog(states, steps, k, i);
    if steps[k].HandleAppend? {
      CommitClamp(states, steps, k, steps[k].acall);
    }
    HandlerAdvances(states[k], steps[k], i);
    ReachableSane(states, steps, k + 1, i);
    RunReal(states, steps, k);
    StepHandled(states[k], steps[k], i);
  }
}
