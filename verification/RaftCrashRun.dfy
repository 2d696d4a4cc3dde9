/**
 A run that reaches the panic of AppendEntries: two heartbeats carry the same first entries to a follower;
 the first arrives, is committed, applied and compacted into a snapshot; then the second arrives.
 */
module RaftCrashRun {
  import opened Options
  import opened RaftTypes
  import opened RaftLog
  import opened RaftNode
  import opened RaftCompaction
  import opened RaftSystem
  import opened RaftTwoRounds

  const First: Entry := Entry(Some("a"), 1)
  const Second: Entry := Entry(Some("b"), 1)

  /** Peer 0 of two as leader of term 1. */
  function Leading(log: Log, next: int, match': int, commit: int): Node {
    Recovered(0, 2, Blank).(
      role := Leader, currentTerm := 1, votedFor := 0, votesReceived := 2, log := log,
      nextIndex := [1, next], matchIndex := [0, match'], commitIndex := commit)
  }

  /** Peer 1 as its follower. */
  function Following(log: Log, commit: int, applied: int): Node {
    Voter(2, 1, 1, 0).(log := log, commitIndex := commit, lastApplied := applied)
  }

  function Both(): AppendCall {
    AppendCall(AppendArgs(1, 0, 0, 0, [First, Second], 0), 1)
  }

  function Empty(): AppendCall {
    AppendCall(AppendArgs(1, 0, 2, 1, [], 2), 1)
  }

  lemma ElectLeader() returns (states: seq<Sys>, steps: seq<Step>)
    ensures IsRun(states, steps) && |states[|steps|].pending| == 2
    ensures states[|steps|].nodes == [Leading([Dummy], 1, 0, 0), Following([Dummy], 0, 0)]
  {
    states, steps := [Start(2)], [];
    assert IsRun(states, steps);
    states, steps := Extended(states, steps, Timeout(0));
    CallSent(states[|steps|], 0, 1, 1);
    states, steps := Extended(states, steps, RunElection(0));
    var call := VoteCall(0, EagerArgs(0, 1), 1);
    VoteGranted(states[|steps|], 0, 1, 1, 0, 1);
    states, steps := Extended(states, steps, HandleVote(call));
    states, steps := Extended(states, steps, HandleVoteResponse(Answer(0, 1, 1, 0, 0)));
    var node := states[|steps|].nodes[0];
    assert node.nextIndex == [1, 1] && node.matchIndex == [0, 0];
  }

  /** Two commands, and two heartbeats with them. */
  lemma SendBoth() returns (states: seq<Sys>, steps: seq<Step>)
    ensures IsRun(states, steps) && |states[|steps|].pending| == 2
    ensures states[|steps|].nodes == [Leading([Dummy, First, Second], 1, 0, 0), Following([Dummy], 0, 0)]
    ensures Both() in states[|steps|].appendCalls
    ensures |steps| >= 2 && steps[|steps| - 2] == steps[|steps| - 1] == Send(0, 1)
  {
    states, steps := ElectLeader();
    states, steps := Extended(states, steps, Submit(0, Some("a")));
    states, steps := Extended(states, steps, Submit(0, Some("b")));
    var node := states[|steps|].nodes[0];
    assert node == Leading([Dummy, First, Second], 1, 0, 0);
    assert AppendFor(node, 1) == Both().args;
    states, steps := Extended(states, steps, Send(0, 1));
    states, steps := Extended(states, steps, Send(0, 1));
  }

  lemma FirstArrives() returns (states: seq<Sys>, steps: seq<Step>)
    ensures IsRun(states, steps) && |states[|steps|].pending| == 2
    ensures states[|steps|].nodes == [Leading([Dummy, First, Second], 1, 0, 0), Following([Dummy, First, Second], 0, 0)]
    ensures Both() in states[|steps|].appendCalls
    ensures AppendResponse(Both(), AppendReply(1, true, 0, 0)) in states[|steps|].appendResponses
  {
    states, steps := SendBoth();
    var s := states[|steps|].nodes[1];
    assert Matching(s, Both().args, 0) == 0;
    assert LogMerged(s, Both().args) == [Dummy, First, Second];
    states, steps := Extended(states, steps, HandleAppend(Both()));
  }

  lemma Committed() returns (states: seq<Sys>, steps: seq<Step>)
    ensures IsRun(states, steps) && |states[|steps|].pending| == 2
    ensures states[|steps|].nodes == [Leading([Dummy, First, Second], 3, 2, 2), Following([Dummy, First, Second], 0, 0)]
    ensures Both() in states[|steps|].appendCalls
  {
    states, steps := FirstArrives();
    var s := states[|steps|].nodes[0];
    var s' := s.(nextIndex := s.nextIndex[1 := 3], matchIndex := s.matchIndex[1 := 2]);
    assert s'.nextIndex == [1, 3] && s'.matchIndex == [0, 2];
    assert Holders(s', 2, 2) == 1 && Holders(s', 2, 1) == 2 && Holders(s', 2, 0) == 2;
    assert CommitTarget(s', 2) == 2;
    states, steps := Extended(states, steps, HandleAppendResponse(AppendResponse(Both(), AppendReply(1, true, 0, 0))));
  }

  lemma Followed() returns (states: seq<Sys>, steps: seq<Step>)
    ensures IsRun(states, steps) && |states[|steps|].pending| == 2 && |states[|steps|].nodes| == 2
    ensures states[|steps|].nodes[1] == Following([Dummy, First, Second], 2, 0)
    ensures Both() in states[|steps|].appendCalls
  {
    states, steps := Committed();
    assert AppendFor(states[|steps|].nodes[0], 3) == Empty().args;
    states, steps := Extended(states, steps, Send(0, 1));
    states, steps := Extended(states, steps, HandleAppend(Empty()));
  }

  /** The follower has compacted what the second heartbeat brings again, and handling it panics. */
  lemma CrashReached() returns (states: seq<Sys>, steps: seq<Step>, c: AppendCall)
    ensures IsRun(states, steps) && Enabled(states[|steps|], HandleAppend(c))
    ensures AfterAppend(states[|steps|].nodes[c.to], c.args).Crashed?
  {
    states, steps := Followed();
    c := Both();
    states, steps := Extended(states, steps, Apply(1));
    states, steps := Extended(states, steps, TakeSnapshot(1, 2));
    var s := states[|steps|].nodes[1];
    assert s.lastIncludedIndex == 2 && s.log == [Entry(None, 1)];
    LeaderRequestCrashes(s, c.args);
  }
}
