/**
 Election Safety by cluster size. Up to three peers one granted answer already makes a majority of
 distinct voters, so counting a voter twice does no harm and at most one peer leads a term in every run,
 whatever rounds are opened. From four peers on it can fail.
 */
module RaftClusterSize {
  import opened Options
  import opened RaftTypes
  import opened RaftLedger
  import opened RaftNode
  import opened RaftSystem
  import opened RaftSafety
  import opened RaftTwoRounds

  // ---------------------------------------------------------------- votes over a run

  predicate VotedAt(s: Sys, v: int, t: int, c: int) {
    0 <= v < |s.nodes| && s.nodes[v].currentTerm == t && s.nodes[v].votedFor == c
  }

  /** At some moment up to k, peer v was in term t and had voted for c. */
  ghost predicate Voted(states: seq<Sys>, k: int, v: int, t: int, c: int) {
    exists j :: 0 <= j <= k && j < |states| && VotedAt(states[j], v, t, c)
  }

  /** A candidate never asks itself. */
  ghost predicate CallsOk(s: Sys) {
    && (forall c | c in s.voteCalls :: c.to != c.args.candidate)
    && (forall r | r in s.voteResponses :: r.call.to != r.call.args.candidate)
  }

  ghost predicate NodesOk(s: Sys) {
    && |s.pending| == |s.nodes|
    && forall i | 0 <= i < |s.nodes| :: s.nodes[i].me == i && (s.nodes[i].role == Candidate ==> s.nodes[i].votedFor == i)
  }

  /** Every granted answer under way stands for a vote. */
  ghost predicate AnswersOk(states: seq<Sys>, k: int, responses: set<VoteResponse>) {
    forall r | r in responses && r.reply.granted :: Voted(states, k, r.call.to, r.call.args.term, r.call.args.candidate)
  }

  /** A leader has its own vote and that of another peer. */
  ghost predicate Supported(states: seq<Sys>, k: int, i: int, t: int) {
    Voted(states, k, i, t, i) && exists v :: v != i && Voted(states, k, v, t, i)
  }

  ghost predicate LeadersOk(states: seq<Sys>, k: int)
    requires 0 <= k < |states|
  {
    forall i | 0 <= i < |states[k].nodes| && states[k].nodes[i].role == Leader ::
      Supported(states, k, i, states[k].nodes[i].currentTerm)
  }

  ghost predicate VotingOk(states: seq<Sys>, k: int)
    requires 0 <= k < |states|
  {
    CallsOk(states[k]) && NodesOk(states[k]) && AnswersOk(states, k, states[k].voteResponses) && LeadersOk(states, k)
  }

  // ---------------------------------------------------------------- one step

  lemma StepCalls(s: Sys, step: Step)
    requires CallsOk(s) && NodesOk(s) && Enabled(s, step)
    ensures CallsOk(After(s, step))
  {
  }

  lemma StepNode(s: Sys, step: Step, i: int)
    requires CallsOk(s) && NodesOk(s) && Enabled(s, step) && 0 <= i < |s.nodes|
    ensures
      var y := After(s, step).nodes[i];
      y.me == i && (y.role == Candidate ==> y.votedFor == i)
  {
  }

  lemma StepNodes(s: Sys, step: Step)
    requires CallsOk(s) && NodesOk(s) && Enabled(s, step)
    ensures NodesOk(After(s, step))
  {
    forall i | 0 <= i < |s.nodes|
      ensures After(s, step).nodes[i].me == i
      ensures After(s, step).nodes[i].role == Candidate ==> After(s, step).nodes[i].votedFor == i
    {
      StepNode(s, step, i);
    }
  }

  /** The winning answer: the candidate is in the term of the call and the answer is a vote. */
  ghost predicate WinsBy(s: Sys, step: Step, i: int) {
    && step.HandleVoteResponse? && step.response in s.voteResponses && step.response.reply.granted
    && step.response.call.args.candidate == i && 0 <= i < |s.nodes|
    && s.nodes[i].role == Candidate && s.nodes[i].currentTerm == step.response.call.args.term
  }

  lemma StepLeader(s: Sys, step: Step, i: int)
    requires Enabled(s, step) && 0 <= i < |s.nodes| && After(s, step).nodes[i].role == Leader
    ensures s.nodes[i].currentTerm == After(s, step).nodes[i].currentTerm
    ensures s.nodes[i].role == Leader || WinsBy(s, step, i)
  {
  }

  /** An answer is new only when a call has just been handled, and then a granted one shows in the voter. */
  lemma StepAnswers(s: Sys, step: Step, r: VoteResponse)
    requires Enabled(s, step) && r in After(s, step).voteResponses && r.reply.granted
    ensures r in s.voteResponses || VotedAt(After(s, step), r.call.to, r.call.args.term, r.call.args.candidate)
  {
  }

  lemma VotedOn(states: seq<Sys>, k: int, v: int, t: int, c: int)
    requires Voted(states, k, v, t, c)
    ensures Voted(states, k + 1, v, t, c)
  {
  }

  lemma NextAnswers(states: seq<Sys>, steps: seq<Step>, k: int)
    requires 0 <= k < |steps| && |states| == |steps| + 1 && StepAt(states, steps, k)
    requires AnswersOk(states, k, states[k].voteResponses)
    ensures AnswersOk(states, k + 1, states[k + 1].voteResponses)
  {
    forall r | r in states[k + 1].voteResponses && r.reply.granted
      ensures Voted(states, k + 1, r.call.to, r.call.args.term, r.call.args.candidate)
    {
      StepAnswers(states[k], steps[k], r);
      if r in states[k].voteResponses {
        VotedOn(states, k, r.call.to, r.call.args.term, r.call.args.candidate);
      }
    }
  }

  lemma NextLeader(states: seq<Sys>, steps: seq<Step>, k: int, i: int)
    requires 0 <= k < |steps| && |states| == |steps| + 1 && StepAt(states, steps, k) && VotingOk(states, k)
    requires 0 <= i < |states[k].nodes| == |states[k + 1].nodes| && states[k + 1].nodes[i].role == Leader
    ensures Supported(states, k + 1, i, states[k + 1].nodes[i].currentTerm)
  {
    StepLeader(states[k], steps[k], i);
    var t := states[k].nodes[i].currentTerm;
    if states[k].nodes[i].role == Leader {
      var v :| v != i && Voted(states, k, v, t, i);
      VotedOn(states, k, i, t, i);
      VotedOn(states, k, v, t, i);
    } else {
      var r := steps[k].response;
      assert VotedAt(states[k], i, t, i);
      assert Voted(states, k + 1, i, t, i);
      VotedOn(states, k, r.call.to, t, i);
      assert r.call.to != i;
    }
  }

  lemma NextVoting(states: seq<Sys>, steps: seq<Step>, k: int)
    requires 0 <= k < |steps| && |states| == |steps| + 1 && StepAt(states, steps, k) && VotingOk(states, k)
    ensures VotingOk(states, k + 1)
  {
    StepCalls(states[k], steps[k]);
    StepNodes(states[k], steps[k]);
    NextAnswers(states, steps, k);
    var nodes := states[k + 1].nodes;
    forall i | 0 <= i < |nodes| && nodes[i].role == Leader
      ensures Supported(states, k + 1, i, nodes[i].currentTerm)
    {
      NextLeader(states, steps, k, i);
    }
  }

  lemma {:induction false} RunVoting(states: seq<Sys>, steps: seq<Step>, k: int)
    requires IsRun(states, steps) && 0 <= k <= |steps|
    ensures VotingOk(states, k)
    decreases k
  {
    if k > 0 {
      RunVoting(states, steps, k - 1);
      assert StepAt(states, steps, k - 1);
      NextVoting(states, steps, k - 1);
    }
  }

  // ---------------------------------------------------------------- the theorems

  /** A peer has one vote in a term. */
  lemma VotesOnce(states: seq<Sys>, steps: seq<Step>, k: int, v: int, t: int, c: int, d: int)
    requires IsRun(states, steps) && k <= |steps| && c >= 0 && d >= 0
    requires Voted(states, k, v, t, c) && Voted(states, k, v, t, d)
    ensures c == d
  {
    var i :| 0 <= i <= k && i < |states| && VotedAt(states[i], v, t, c);
    var j :| 0 <= j <= k && j < |states| && VotedAt(states[j], v, t, d);
    if i <= j {
      TermAndVoteKept(states, steps, i, j, v);
    } else {
      TermAndVoteKept(states, steps, j, i, v);
    }
  }

  lemma {:induction false} SupportedOn(states: seq<Sys>, j: int, k: int, i: int, t: int)
    requires j <= k && Supported(states, j, i, t)
    ensures Supported(states, k, i, t)
  {
    var v :| v != i && Voted(states, j, v, t, i);
    assert Voted(states, k, v, t, i);
  }

  /** With at most three peers, at most one is ever leader of a given term, however many rounds are opened. */
  lemma SmallClusterElectionSafety(states: seq<Sys>, steps: seq<Step>, j: int, k: int, p: int, r: int)
    requires IsRun(states, steps) && |states[0].nodes| <= 3 && 0 <= j <= k <= |steps|
    requires 0 <= p < |states[j].nodes| && 0 <= r < |states[k].nodes|
    requires states[j].nodes[p].role == Leader && states[k].nodes[r].role == Leader
    requires states[j].nodes[p].currentTerm == states[k].nodes[r].currentTerm
    ensures p == r
  {
    var t := states[k].nodes[r].currentTerm;
    RunVoting(states, steps, j);
    RunVoting(states, steps, k);
    SupportedOn(states, j, k, p, t);
    var v :| v != p && Voted(states, k, v, t, p);
    var w :| w != r && Voted(states, k, w, t, r);
    InCluster(states, steps, k, v, t, p);
    InCluster(states, steps, k, w, t, r);
    SameSize(states, steps, j);
    SameSize(states, steps, k);
    if p != r {
      if v == r {
        VotesOnce(states, steps, k, r, t, p, r);
      } else if w == p {
        VotesOnce(states, steps, k, p, t, p, r);
      } else {
        assert v == w;
        VotesOnce(states, steps, k, v, t, p, r);
      }
    }
  }

  lemma InCluster(states: seq<Sys>, steps: seq<Step>, k: int, v: int, t: int, c: int)
    requires IsRun(states, steps) && k <= |steps| && Voted(states, k, v, t, c)
    ensures 0 <= v < |states[0].nodes|
  {
    var j :| 0 <= j <= k && j < |states| && VotedAt(states[j], v, t, c);
    SameSize(states, steps, j);
  }

  ghost predicate LeadTogether(states: seq<Sys>, j: int, k: int, p: int, r: int) {
    && 0 <= j <= k < |states| && 0 <= p < |states[j].nodes| && 0 <= r < |states[k].nodes| && p != r
    && states[j].nodes[p].role == Leader && states[k].nodes[r].role == Leader
    && states[j].nodes[p].currentTerm == states[k].nodes[r].currentTerm
  }

  /** No two peers ever lead one term. */
  ghost predicate SafeElections(states: seq<Sys>) {
    forall j, k, p, r :: !LeadTogether(states, j, k, p, r)
  }

  /** Election Safety holds of all runs of n peers exactly when n is at most three. */
  lemma ElectionSafetyBySize(n: nat)
    ensures (forall states: seq<Sys>, steps | IsRun(states, steps) && |states[0].nodes| == n :: SafeElections(states))
        <==> n <= 3
  {
    if n <= 3 {
      forall states: seq<Sys>, steps | IsRun(states, steps) && |states[0].nodes| == n ensures SafeElections(states) {
        forall j, k, p, r ensures !LeadTogether(states, j, k, p, r) {
          if LeadTogether(states, j, k, p, r) {
            SmallClusterElectionSafety(states, steps, j, k, p, r);
          }
        }
      }
    } else {
      var states, steps := ElectionSafetyNeedsOneRound(n);
      SameSize(states, steps, |steps|);
      assert LeadTogether(states, |steps|, |steps|, 0, 2);
      assert !SafeElections(states);
    }
  }
}
