/**
 A cluster of Raft peers over an unreliable network. One step is one lock-held section of
 src/raft1/raft.go at one peer, a restart, a snapshot taken by the service, or a batch handed to it.

 The network may lose, delay and reorder anything. A RequestVote call is delivered at most once
 and answered at most once, as labrpc guarantees; AppendEntries calls and answers may even be
 delivered again and again. InstallSnapshot is not sent in these runs.
 */
module RaftSystem {
  import opened Options
  import opened RaftTypes
  import opened RaftLedger
  import opened RaftNode

  /** One call of sendRequestVote; `serial` tells the calls apart. */
  datatype VoteCall = VoteCall(serial: nat, args: VoteArgs, to: int)

  datatype VoteResponse = VoteResponse(call: VoteCall, reply: VoteReply)

  datatype AppendCall = AppendCall(args: AppendArgs, to: int)

  datatype AppendResponse = AppendResponse(call: AppendCall, reply: AppendReply)

  /** A command handed to the service of a peer. */
  datatype Delivery = Delivery(peer: int, index: int, command: string)

  datatype Sys = Sys(
    nodes: seq<Node>,
    pending: seq<nat>,            // startElection goroutines spawned and not yet run, per peer
    rounds: multiset<Ballot>,     // vote rounds opened so far, by candidate and term
    serial: nat,
    voteCalls: set<VoteCall>,
    voteResponses: set<VoteResponse>,
    appendCalls: set<AppendCall>,
    appendResponses: set<AppendResponse>,
    delivered: set<Delivery>)

  datatype Step =
    | Timeout(i: int)                           // checkElectionTimeout fires
    | RunElection(i: int)                       // a startElection goroutine gets the lock
    | HandleVote(call: VoteCall)
    | HandleVoteResponse(response: VoteResponse)
    | Submit(i: int, command: Command)
    | Send(i: int, to: int)                     // sendToFollower builds a request
    | HandleAppend(acall: AppendCall)
    | HandleAppendResponse(aresponse: AppendResponse)
    | Restart(i: int)
    | TakeSnapshot(i: int, index: int)
    | Apply(i: int)

  predicate IsPeer(s: Sys, i: int) {
    0 <= i < |s.nodes| && i < |s.pending|
  }

  ghost predicate Enabled(s: Sys, step: Step) {
    match step
    case Timeout(i) => IsPeer(s, i)
    case RunElection(i) => IsPeer(s, i) && s.pending[i] > 0
    case HandleVote(c) => c in s.voteCalls && IsPeer(s, c.to)
    case HandleVoteResponse(r) =>
      && r in s.voteResponses
      && IsPeer(s, r.call.args.candidate) && s.nodes[r.call.args.candidate].size >= 0
    case Submit(i, _) => IsPeer(s, i)
    case Send(i, to) =>
      && IsPeer(s, i) && IsPeer(s, to) && to != i
      && s.nodes[i].role == Leader
      && to < |s.nodes[i].nextIndex|
      && s.nodes[i].nextIndex[to] > s.nodes[i].lastIncludedIndex
    case HandleAppend(c) => c in s.appendCalls && IsPeer(s, c.to)
    case HandleAppendResponse(r) =>
      && r in s.appendResponses
      && IsPeer(s, r.call.args.leader)
      && var l := s.nodes[r.call.args.leader];
        (l.role == Leader ==> 0 <= r.call.to < |l.nextIndex| && r.call.to < |l.matchIndex|)
    case Restart(i) => IsPeer(s, i)
    // the service snapshots only what it has been handed
    case TakeSnapshot(i, index) => IsPeer(s, i) && index <= s.nodes[i].lastApplied
    case Apply(i) => IsPeer(s, i)
  }

  /** The commands of the batch that a pass of the applier hands over. */
  ghost function Batch(s: Node): set<Delivery> {
    set m | m in PassBatch(s) && m.CommandMsg? :: Delivery(s.me, m.index, m.command)
  }

  ghost function Calls(s: Sys, i: int): set<VoteCall>
    requires IsPeer(s, i)
  {
    set to | 0 <= to < |s.nodes| && to != i :: VoteCall(s.serial, RoundArgs(s.nodes[i]), to)
  }

  ghost function After(s: Sys, step: Step): Sys
    requires Enabled(s, step)
  {
    match step
    case Timeout(i) =>
      s.(nodes := s.nodes[i := TimedOut(s.nodes[i])], pending := s.pending[i := s.pending[i] + 1])
    case RunElection(i) =>
      s.(nodes := s.nodes[i := RoundOpened(s.nodes[i])],
         pending := s.pending[i := s.pending[i] - 1],
         rounds := s.rounds + multiset{Ballot(i, s.nodes[i].currentTerm)},
         serial := s.serial + 1,
         voteCalls := s.voteCalls + Calls(s, i))
    case HandleVote(c) =>
      s.(nodes := s.nodes[c.to := AfterVoteRequest(s.nodes[c.to], c.args)],
         voteCalls := s.voteCalls - {c},
         voteResponses := s.voteResponses + {VoteResponse(c, VoteAnswer(s.nodes[c.to], c.args))})
    case HandleVoteResponse(r) =>
      var i := r.call.args.candidate;
      s.(nodes := s.nodes[i := AfterVoteReply(s.nodes[i], r.call.args, r.reply)],
         voteResponses := s.voteResponses - {r})
    case Submit(i, command) =>
      s.(nodes := s.nodes[i := Started(s.nodes[i], command)])
    case Send(i, to) =>
      s.(appendCalls := s.appendCalls + {AppendCall(AppendFor(s.nodes[i], s.nodes[i].nextIndex[to]), to)})
    case HandleAppend(c) =>
      (match AfterAppend(s.nodes[c.to], c.args)
       case Answered(node, reply) =>
         s.(nodes := s.nodes[c.to := node], appendResponses := s.appendResponses + {AppendResponse(c, reply)})
       case Crashed(node) =>
         s.(nodes := s.nodes[c.to := Restarted(node)], pending := s.pending[c.to := 0]))
    case HandleAppendResponse(r) =>
      var i := r.call.args.leader;
      s.(nodes := s.nodes[i := AfterAppendReply(s.nodes[i], r.call.to, r.call.args, r.reply)])
    case Restart(i) =>
      s.(nodes := s.nodes[i := Restarted(s.nodes[i])], pending := s.pending[i := 0])
    case TakeSnapshot(i, index) =>
      s.(nodes := s.nodes[i := Compacted(s.nodes[i], index)])
    case Apply(i) =>
      s.(nodes := s.nodes[i := Passed(s.nodes[i])], delivered := s.delivered + Batch(s.nodes[i]))
  }

  ghost predicate Init(s: Sys) {
    && |s.pending| == |s.nodes|
    && (forall i | 0 <= i < |s.nodes| :: s.nodes[i] == Recovered(i, |s.nodes|, Blank) && s.pending[i] == 0)
    && s == Sys(s.nodes, s.pending, multiset{}, 0, {}, {}, {}, {}, {})
  }

  /** states[k + 1] comes from states[k] by steps[k]. */
  ghost predicate IsRun(states: seq<Sys>, steps: seq<Step>) {
    && |states| == |steps| + 1
    && Init(states[0])
    && forall k | 0 <= k < |steps| :: StepAt(states, steps, k)
  }

  ghost predicate StepAt(states: seq<Sys>, steps: seq<Step>, k: int)
    requires 0 <= k < |steps| && |states| == |steps| + 1
  {
    Enabled(states[k], steps[k]) && states[k + 1] == After(states[k], steps[k])
  }

  /** No peer has opened two vote rounds in one term. */
  ghost predicate OneRoundPerTerm(s: Sys) {
    forall b :: s.rounds[b] <= 1
  }
}
