/**
 Why the safety theorems ask for one vote round per candidate and term. checkElectionTimeout spawns
 startElection as a goroutine that reads currentTerm afresh. If it fires several times before the first
 goroutine runs, all of them open a round in the same term, a peer answers each with its one vote, and
 the bare counter counts that vote again and again: any cluster of four or more can then have two
 leaders in one term.
 */
module RaftTwoRounds {
  import opened Options
  import opened RaftTypes
  import opened RaftLedger
  import opened RaftNode
  import opened RaftSystem

  lemma Extended(states: seq<Sys>, steps: seq<Step>, step: Step) returns (states': seq<Sys>, steps': seq<Step>)
    requires IsRun(states, steps) && Enabled(states[|steps|], step)
    ensures states' == states + [After(states[|steps|], step)] && steps' == steps + [step]
    ensures IsRun(states', steps') && states'[|steps'|] == After(states[|steps|], step)
  {
    states', steps' := states + [After(states[|steps|], step)], steps + [step];
    forall k | 0 <= k < |steps'|
      ensures StepAt(states', steps', k)
    {
      if k < |steps| {
        assert StepAt(states, steps, k);
      }
    }
  }

  /** The same cluster, in which peers other than c and v are as they were. */
  ghost predicate Apart(s: Sys, s': Sys, c: int, v: int) {
    && |s'.nodes| == |s.nodes| == |s.pending| == |s'.pending|
    && forall i | 0 <= i < |s.nodes| && i != c && i != v :: s'.nodes[i] == s.nodes[i] && s'.pending[i] == s.pending[i]
  }

  ghost predicate Untouched(s: Sys, i: int) {
    IsPeer(s, i) && s.nodes[i] == Recovered(i, |s.nodes|, Blank) && s.pending[i] == 0
  }

  /** Peer i of n as a candidate of term t with so many votes counted. */
  function Eager(n: nat, i: int, t: int, votes: int): Node {
    Recovered(i, n, Blank).(role := Candidate, currentTerm := t, votedFor := i, votesReceived := votes)
  }

  function EagerArgs(i: int, t: int): VoteArgs {
    VoteArgs(t, i, 0, 0)
  }

  /** A peer that has voted for c in term t. */
  function Voter(n: nat, i: int, t: int, c: int): Node {
    Recovered(i, n, Blank).(currentTerm := t, votedFor := c)
  }

  /** Timeouts, one after another, before any goroutine runs. */
  lemma {:induction false} ManyTimeouts(states: seq<Sys>, steps: seq<Step>, c: int, v: int, m: nat)
    returns (states': seq<Sys>, steps': seq<Step>)
    requires IsRun(states, steps) && m >= 1 && c != v && |states[|steps|].nodes| == |states[|steps|].pending|
    requires Untouched(states[|steps|], c) && Untouched(states[|steps|], v)
    ensures IsRun(states', steps') && Apart(states[|steps|], states'[|steps'|], c, v)
    ensures
      var s := states'[|steps'|];
      && s.nodes[c] == Eager(|s.nodes|, c, m, 0) && s.pending[c] == m && Untouched(s, v)
    decreases m
  {
    if m == 1 {
      states', steps' := Extended(states, steps, Timeout(c));
    } else {
      states', steps' := ManyTimeouts(states, steps, c, v, m - 1);
      states', steps' := Extended(states', steps', Timeout(c));
    }
  }

  lemma CallSent(s: Sys, c: int, v: int, t: int)
    requires IsPeer(s, c) && IsPeer(s, v) && c != v && s.nodes[c].log == [Dummy] && s.nodes[c].lastIncludedIndex == 0
    requires s.nodes[c].currentTerm == t && s.nodes[c].me == c
    ensures VoteCall(s.serial, EagerArgs(c, t), v) in Calls(s, c)
  {
    assert RoundArgs(s.nodes[c]) == EagerArgs(c, t);
  }

  /** The calls of m rounds of c to v, with serials from k on. */
  ghost predicate Calling(s: Sys, c: int, v: int, t: int, k: nat, m: nat) {
    forall x: nat | k <= x < k + m :: VoteCall(x, EagerArgs(c, t), v) in s.voteCalls
  }

  /** The goroutines: m rounds in one term. */
  lemma {:induction false} ManyRounds(states: seq<Sys>, steps: seq<Step>, c: int, v: int, t: int, m: nat)
    returns (states': seq<Sys>, steps': seq<Step>)
    requires IsRun(states, steps) && m >= 1 && c != v && |states[|steps|].nodes| == |states[|steps|].pending|
    requires IsPeer(states[|steps|], c) && Untouched(states[|steps|], v)
    requires states[|steps|].nodes[c] == Eager(|states[|steps|].nodes|, c, t, 0) && states[|steps|].pending[c] >= m
    ensures IsRun(states', steps') && Apart(states[|steps|], states'[|steps'|], c, v)
    ensures
      var s, s' := states[|steps|], states'[|steps'|];
      && s'.nodes[c] == Eager(|s.nodes|, c, t, 1) && Untouched(s', v) && s'.serial == s.serial + m
      && s'.pending[c] == s.pending[c] - m && Calling(s', c, v, t, s.serial, m)
    decreases m
  {
    states', steps' := states, steps;
    if m > 1 {
      states', steps' := ManyRounds(states, steps, c, v, t, m - 1);
    }
    CallSent(states'[|steps'|], c, v, t);
    states', steps' := Extended(states', steps', RunElection(c));
  }

  /** The answer of v to the call numbered x, the first of which is k. */
  function Answer(c: int, v: int, t: int, k: nat, x: nat): VoteResponse {
    VoteResponse(VoteCall(x, EagerArgs(c, t), v), VoteReply(if x == k then 0 else t, true))
  }

  ghost predicate Answering(s: Sys, c: int, v: int, t: int, k: nat, from: nat, to: nat) {
    forall x: nat | from <= x < to :: Answer(c, v, t, k, x) in s.voteResponses
  }

  /** Peer v grants all m requests of c with its single vote. */
  lemma {:induction false} ManyVotes(states: seq<Sys>, steps: seq<Step>, c: int, v: int, t: int, k: nat, m: nat)
    returns (states': seq<Sys>, steps': seq<Step>)
    requires IsRun(states, steps) && m >= 1 && c != v && c != -1 && t >= 1
    requires |states[|steps|].nodes| == |states[|steps|].pending|
    requires IsPeer(states[|steps|], c) && Untouched(states[|steps|], v) && Calling(states[|steps|], c, v, t, k, m)
    ensures IsRun(states', steps') && Apart(states[|steps|], states'[|steps'|], c, v)
    ensures
      var s, s' := states[|steps|], states'[|steps'|];
      && s'.nodes[c] == s.nodes[c] && s'.nodes[v] == Voter(|s.nodes|, v, t, c) && Answering(s', c, v, t, k, k, k + m)
      && s'.voteCalls == s.voteCalls - (set x: nat | k <= x < k + m :: VoteCall(x, EagerArgs(c, t), v))
    decreases m
  {
    states', steps' := states, steps;
    if m > 1 {
      states', steps' := ManyVotes(states, steps, c, v, t, k, m - 1);
    }
    var call := VoteCall(k + m - 1, EagerArgs(c, t), v);
    assert call in states'[|steps'|].voteCalls;
    VoteGranted(states'[|steps'|], c, v, t, k, m);
    states', steps' := Extended(states', steps', HandleVote(call));
  }

  lemma VoteGranted(s: Sys, c: int, v: int, t: int, k: nat, m: nat)
    requires m >= 1 && c != -1 && t >= 1 && IsPeer(s, v)
    requires s.nodes[v] == if m == 1 then Recovered(v, |s.nodes|, Blank) else Voter(|s.nodes|, v, t, c)
    ensures AfterVoteRequest(s.nodes[v], EagerArgs(c, t)) == Voter(|s.nodes|, v, t, c)
    ensures
      var args := EagerArgs(c, t);
      VoteResponse(VoteCall(k + m - 1, args, v), VoteAnswer(s.nodes[v], args)) == Answer(c, v, t, k, k + m - 1)
  {
  }

  /** The candidate counts the same voter m times, short of a majority by one at the end. */
  lemma {:induction false} ManyCounts(states: seq<Sys>, steps: seq<Step>, c: int, v: int, t: int, k: nat, m: nat,
                                      all: nat)
    returns (states': seq<Sys>, steps': seq<Step>)
    requires IsRun(states, steps) && m <= all && m <= |states[|steps|].nodes| / 2 - 1 && c != v && t >= 1
    requires |states[|steps|].nodes| == |states[|steps|].pending| && IsPeer(states[|steps|], c)
    requires states[|steps|].nodes[c] == Eager(|states[|steps|].nodes|, c, t, 1)
    requires Answering(states[|steps|], c, v, t, k, k, k + all)
    ensures IsRun(states', steps') && Apart(states[|steps|], states'[|steps'|], c, v)
    ensures
      var s' := states'[|steps'|];
      s'.nodes[c] == Eager(|s'.nodes|, c, t, 1 + m) && Answering(s', c, v, t, k, k + m, k + all)
    decreases m
  {
    states', steps' := states, steps;
    if m > 0 {
      states', steps' := ManyCounts(states, steps, c, v, t, k, m - 1, all);
      assert Answer(c, v, t, k, k + m - 1) in states'[|steps'|].voteResponses;
      states', steps' := Extended(states', steps', HandleVoteResponse(Answer(c, v, t, k, k + m - 1)));
    }
  }

  /** One voter is enough to make a candidate leader, of term n / 2. */
  lemma UsurpTerm(states: seq<Sys>, steps: seq<Step>, c: int, v: int) returns (states': seq<Sys>, steps': seq<Step>)
    requires IsRun(states, steps) && c != v && |states[|steps|].nodes| == |states[|steps|].pending| >= 4
    requires Untouched(states[|steps|], c) && Untouched(states[|steps|], v)
    ensures IsRun(states', steps') && Apart(states[|steps|], states'[|steps'|], c, v)
    ensures
      var s' := states'[|steps'|];
      s'.nodes[c].role == Leader && s'.nodes[c].currentTerm == |s'.nodes| / 2
  {
    var m := |states[|steps|].nodes| / 2;
    states', steps' := ManyTimeouts(states, steps, c, v, m);
    var k := states'[|steps'|].serial;
    states', steps' := ManyRounds(states', steps', c, v, m, m);
    states', steps' := ManyVotes(states', steps', c, v, m, k, m);
    states', steps' := ManyCounts(states', steps', c, v, m, k, m - 1, m);
    assert Answer(c, v, m, k, k + m - 1) in states'[|steps'|].voteResponses;
    states', steps' := Extended(states', steps', HandleVoteResponse(Answer(c, v, m, k, k + m - 1)));
  }

  function Start(n: nat): Sys {
    Sys(seq(n, i => Recovered(i, n, Blank)), seq(n, _ => 0), multiset{}, 0, {}, {}, {}, {}, {})
  }

  /** In every cluster of four or more peers Election Safety can fail: peers 0 and 2 both lead term n / 2. */
  lemma ElectionSafetyNeedsOneRound(n: nat) returns (states: seq<Sys>, steps: seq<Step>)
    requires n >= 4
    ensures IsRun(states, steps)
    ensures
      var s := states[|steps|];
      && |s.nodes| == n
      && s.nodes[0].role == Leader && s.nodes[2].role == Leader
      && s.nodes[0].currentTerm == s.nodes[2].currentTerm
  {
    states, steps := [Start(n)], [];
    assert IsRun(states, steps);
    states, steps := UsurpTerm(states, steps, 0, 1);
    states, steps := UsurpTerm(states, steps, 2, 3);
  }
}
