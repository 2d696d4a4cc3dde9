/**
 The election steps of the cluster. The source counts votes in a bare integer; here each increment is
 traced to a voter not counted before, which is where labrpc's at-most-once delivery and the absence
 of a second vote round in one term are needed.
 */
module RaftVoteSteps {
  import opened Options
  import opened RaftTypes
  import opened RaftLog
  import opened RaftLedger
  import P = RaftProtocol
  import opened RaftElection
  import opened RaftNode
  import opened RaftCompaction
  import opened RaftSystem
  import opened RaftSimulation
  import opened RaftSteps

  /** A step that changes one peer, its ballots and the vote messages; w is that peer or -1. */
  lemma Ballotwise(s: Sys, a: P.State, q: seq<set<int>>, i: int, node: Node, peer: P.Peer, s': Sys, a': P.State,
                   qi: set<int>, w: int)
    requires Rel(s, a, q) && P.Inv(a') && 0 <= i < |s.nodes| == |a.peers| && Later(a.h, a'.h) && (w == i || w == -1)
    requires s'.nodes == s.nodes[i := node] && |s'.pending| == |s.pending| && a'.peers == a.peers[i := peer]
    requires s'.appendCalls == s.appendCalls && s'.appendResponses == s.appendResponses && s'.delivered == s.delivered
    requires NodeRel(|s.nodes|, i, node, peer) && LeaderRel(|s.nodes|, node, a'.h)
    requires BallotsGrow(a.b, a'.b, w) && NoneSent(w, s.voteCalls, s.voteResponses, s'.voteCalls, s'.voteResponses)
    requires RoundsRel(s'.rounds, a'.b.rounds) && VotesRel(|s.nodes|, a'.b, s'.voteCalls, s'.voteResponses)
    requires CountRel(|s.nodes|, i, node, qi, a'.b, s'.voteCalls, s'.voteResponses)
    ensures |q| == |s.nodes| && Rel(s', a', q[i := qi])
  {
    NodesMove(s.nodes, a.peers, a.h, a'.h, i, node, peer);
    MessagesLater(|s.nodes|, a.h, a'.h, s.appendCalls, s.appendResponses, s.delivered);
    CountsMove(s.nodes, q, a.b, a'.b, s.voteCalls, s.voteResponses, s'.voteCalls, s'.voteResponses, w, i, node, qi);
  }

  // ---------------------------------------------------------------- timeout

  lemma StepTimeout(s: Sys, a: P.State, q: seq<set<int>>, i: int) returns (a': P.State, q': seq<set<int>>)
    requires Rel(s, a, q) && Enabled(s, Timeout(i))
    ensures Rel(After(s, Timeout(i)), a', q') && a'.h == a.h
  {
    PeerFacts(s, a, q, i);
    a' := Stand(a, i);
    LaterRefl(a.h);
    VotesGrow(|s.nodes|, a.b, a'.b, -1, s.voteCalls, s.voteResponses);
    q' := q[i := {}];
    Ballotwise(s, a, q, i, TimedOut(s.nodes[i]), a'.peers[i], After(s, Timeout(i)), a', {}, -1);
  }

  // ---------------------------------------------------------------- a vote round

  lemma RoundCallOk(n: nat, i: int, s: Node, p: P.Peer, bs: P.Ballots, c: VoteCall)
    requires NodeRel(n, i, s, p) && 0 <= i < n && 0 <= c.to < n && c.to != i && c.args == RoundArgs(s)
    requires Ballot(i, s.currentTerm) in bs.rounds && bs.rounds[Ballot(i, s.currentTerm)] == p.log
    ensures VoteCallOk(n, bs, c)
  {
    SameIndexes(s, p.log);
  }

  /** The calls of a first round find every slot free. */
  lemma RoundDistinct(n: nat, bs: P.Ballots, calls: set<VoteCall>, responses: set<VoteResponse>, i: int, t: int,
                      sent: set<VoteCall>)
    requires VotesRel(n, bs, calls, responses) && Ballot(i, t) !in bs.rounds
    requires forall c | c in sent :: c.args.candidate == i && c.args.term == t
    requires forall c, d | c in sent && d in sent && c.to == d.to :: c == d
    ensures Distinct(calls + sent, responses)
  {
    forall c | c in calls
      ensures !(c.args.candidate == i && c.args.term == t)
    {
      assert VoteCallOk(n, bs, c);
    }
    forall r | r in responses
      ensures !(r.call.args.candidate == i && r.call.args.term == t)
    {
      assert VoteResponseOk(n, bs, r);
    }
  }

  lemma RoundVotesRel(s: Sys, a: P.State, q: seq<set<int>>, i: int, bs: P.Ballots)
    requires Rel(s, a, q) && IsPeer(s, i) && |a.peers| == |s.nodes|
    requires Ballot(i, s.nodes[i].currentTerm) !in a.b.rounds && bs == Opened(a.b, i, a.peers[i])
    ensures VotesRel(|s.nodes|, bs, s.voteCalls + Calls(s, i), s.voteResponses)
  {
    PeerFacts(s, a, q, i);
    VotesGrow(|s.nodes|, a.b, bs, i, s.voteCalls, s.voteResponses);
    RoundDistinct(|s.nodes|, a.b, s.voteCalls, s.voteResponses, i, s.nodes[i].currentTerm, Calls(s, i));
    forall c | c in Calls(s, i)
      ensures VoteCallOk(|s.nodes|, bs, c)
    {
      RoundCallOk(|s.nodes|, i, s.nodes[i], a.peers[i], bs, c);
    }
  }

  /** A candidate that has just opened its round counts itself. */
  lemma SelfCounted(n: nat, i: int, s: Node, p: P.Peer, bs: P.Ballots, calls: set<VoteCall>,
                    responses: set<VoteResponse>)
    requires NodeRel(n, i, s, p) && P.VoterOk(i, p, bs) && 0 <= i < n && s.votesReceived == 1
    requires VotesRel(n, bs, calls, responses)
    ensures CountRel(n, i, s, {i}, bs, calls, responses)
  {
    if s.role == Candidate {
      forall c | c in calls
        ensures c.to != c.args.candidate
      {
        assert VoteCallOk(n, bs, c);
      }
      forall r | r in responses
        ensures r.call.to != r.call.args.candidate
      {
        assert VoteResponseOk(n, bs, r);
      }
      assert Settled(i, s.currentTerm, i, calls, responses);
      assert Counted(n, i, s.currentTerm, i, bs, calls, responses);
    }
  }

  lemma StepRunElection(s: Sys, a: P.State, q: seq<set<int>>, i: int) returns (a': P.State, q': seq<set<int>>)
    requires Rel(s, a, q) && Enabled(s, RunElection(i))
    requires Ballot(i, s.nodes[i].currentTerm) !in s.rounds
    ensures Rel(After(s, RunElection(i)), a', q') && a'.h == a.h
  {
    PeerFacts(s, a, q, i);
    var s' := After(s, RunElection(i));
    a' := OpenRound(a, i);
    LaterRefl(a.h);
    RoundVotesRel(s, a, q, i, a'.b);
    assert P.VoterOk(i, a'.peers[i], a'.b);
    SelfCounted(|s.nodes|, i, s'.nodes[i], a'.peers[i], a'.b, s'.voteCalls, s'.voteResponses);
    q' := q[i := {i}];
    assert a.peers[i := a.peers[i]] == a.peers;
    Ballotwise(s, a, q, i, s'.nodes[i], a'.peers[i], s', a', {i}, i);
  }

  // ---------------------------------------------------------------- handling a vote request

  predicate HasVoted(bs: P.Ballots, v: int, t: int, c: int) {
    Ballot(v, t) in bs.votes && bs.votes[Ballot(v, t)].candidate == c
  }

  /** The protocol's vote: adopt the term if it is new, then vote if the request is granted. */
  lemma VoteAction(n: nat, s: Node, a: P.State, i: int, c: VoteCall) returns (a': P.State, p': P.Peer)
    requires P.Inv(a) && |a.peers| == n && 0 <= i < n && NodeRel(n, i, s, a.peers[i]) && VoteCallOk(n, a.b, c)
    requires c.to == i
    ensures P.Inv(a') && a'.h == a.h && a'.peers == a.peers[i := p'] && BallotsGrow(a.b, a'.b, -1)
    ensures NodeRel(n, i, AfterVoteRequest(s, c.args), p')
    ensures Grants(s, c.args) ==> HasVoted(a'.b, i, c.args.term, c.args.candidate)
    ensures a'.b.rounds == a.b.rounds
  {
    var a1, p1 := SeenAction(n, s, a, i, c.args.term);
    a', p' := a1, p1;
    if Grants(s, c.args) {
      GrantFits(s, a.peers[i].log, c.args);
      a' := CastVote(a1, i, c.args.candidate);
      p' := p1.(votedFor := c.args.candidate);
      Overwrite(a.peers, i, p1, p');
    }
  }

  /** The code's comparison of last entries is the protocol's comparison of whole logs. */
  lemma GrantFits(s: Node, full: Log, args: VoteArgs)
    requires Compacts(s, full) && Grants(s, args)
    ensures args.lastLogTerm > LastTerm(full) || (args.lastLogTerm == LastTerm(full) && args.lastLogIndex >= |full| - 1)
  {
    SameIndexes(s, full);
  }

  lemma SeenAction(n: nat, s: Node, a: P.State, i: int, t: int) returns (a': P.State, p': P.Peer)
    requires P.Inv(a) && |a.peers| == n && 0 <= i < n && NodeRel(n, i, s, a.peers[i])
    ensures P.Inv(a') && a'.h == a.h && a'.b == a.b && a'.peers == a.peers[i := p']
    ensures NodeRel(n, i, TermSeen(s, t), p') && p'.log == a.peers[i].log
  {
    a', p' := a, a.peers[i];
    if t > s.currentTerm {
      a' := P.AdoptTerm(a, i, t);
      p' := P.Adopted(p', t);
    }
    assert a.peers[i := a.peers[i]] == a.peers;
  }

  lemma AnsweredDistinct(calls: set<VoteCall>, responses: set<VoteResponse>, c: VoteCall, r: VoteResponse)
    requires Distinct(calls, responses) && c in calls && r.call == c
    ensures Distinct(calls - {c}, responses + {r})
  {
  }

  /** The call becomes its answer. */
  lemma VotesAnswered(n: nat, bs: P.Ballots, calls: set<VoteCall>, responses: set<VoteResponse>, r: VoteResponse)
    requires VotesRel(n, bs, calls, responses) && r.call in calls
    requires r.reply.granted ==> HasVoted(bs, r.call.to, r.call.args.term, r.call.args.candidate)
    ensures VotesRel(n, bs, calls - {r.call}, responses + {r})
    ensures NoneSent(-1, calls, responses, calls - {r.call}, responses + {r})
  {
    AnsweredDistinct(calls, responses, r.call, r);
    assert VoteResponseOk(n, bs, r);
  }

  lemma StepVote(s: Sys, a: P.State, q: seq<set<int>>, c: VoteCall) returns (a': P.State, q': seq<set<int>>)
    requires Rel(s, a, q) && Enabled(s, HandleVote(c))
    ensures Rel(After(s, HandleVote(c)), a', q') && a'.h == a.h
  {
    var i, n := c.to, |s.nodes|;
    var node := AfterVoteRequest(s.nodes[i], c.args);
    var r := VoteResponse(c, VoteAnswer(s.nodes[i], c.args));
    PeerFacts(s, a, q, i);
    var p';
    a', p' := VoteAction(n, s.nodes[i], a, i, c) by { assert VoteCallOk(n, a.b, c); }
    LaterRefl(a.h);
    VoteMessages(n, i, s.nodes[i], node, q[i], a.b, a'.b, s.voteCalls, s.voteResponses, r);
    q' := q[i := q[i]];
    Ballotwise(s, a, q, i, node, p', After(s, HandleVote(c)), a', q[i], -1);
  }

  /** What the answered call leaves under way, and the voter's own count. */
  lemma VoteMessages(n: nat, i: int, s: Node, s': Node, q: set<int>, bs: P.Ballots, bs': P.Ballots,
                     calls: set<VoteCall>, responses: set<VoteResponse>, r: VoteResponse)
    requires VotesRel(n, bs, calls, responses) && BallotsGrow(bs, bs', -1) && bs'.rounds == bs.rounds && r.call in calls
    requires r.reply.granted ==> HasVoted(bs', r.call.to, r.call.args.term, r.call.args.candidate)
    requires CountRel(n, i, s, q, bs, calls, responses) && i >= 0 && SameCandidacy(s, s')
    ensures VotesRel(n, bs', calls - {r.call}, responses + {r})
    ensures NoneSent(-1, calls, responses, calls - {r.call}, responses + {r})
    ensures CountRel(n, i, s', q, bs', calls - {r.call}, responses + {r})
  {
    VotesGrow(n, bs, bs', -1, calls, responses);
    VotesAnswered(n, bs', calls, responses, r);
    VoterCount(n, i, s, s', q, bs, bs', calls, responses, calls - {r.call}, responses + {r});
  }

  /** A voter's own count, if it is a candidate, is unaffected. */
  lemma VoterCount(n: nat, i: int, s: Node, s': Node, q: set<int>, bs: P.Ballots, bs': P.Ballots,
                   calls: set<VoteCall>, responses: set<VoteResponse>, calls': set<VoteCall>, responses': set<VoteResponse>)
    requires CountRel(n, i, s, q, bs, calls, responses) && i >= 0
    requires s'.role == Candidate ==>
        s.role == Candidate && s'.currentTerm == s.currentTerm && s'.votesReceived == s.votesReceived
    requires BallotsGrow(bs, bs', -1) && NoneSent(-1, calls, responses, calls', responses')
    requires forall c | c in calls' :: c in calls
    requires bs'.rounds == bs.rounds
    ensures CountRel(n, i, s', q, bs', calls', responses')
  {
    assert CountRel(n, i, s', q, bs, calls, responses);
    CountFrame(n, i, s', q, bs, bs', -1, calls, responses, calls', responses');
  }

  // ---------------------------------------------------------------- handling a vote response

  /** An answer under way comes from a voter not counted yet; taking it off the network settles that voter. */
  lemma NewVoter(n: nat, i: int, s: Node, q: set<int>, bs: P.Ballots, calls: set<VoteCall>,
                 responses: set<VoteResponse>, r: VoteResponse)
    requires CountRel(n, i, s, q, bs, calls, responses) && VotesRel(n, bs, calls, responses)
    requires r in responses && r.reply.granted && s.role == Candidate
    requires r.call.args.candidate == i && r.call.args.term == s.currentTerm
    ensures r.call.to !in q && s.votesReceived <= |q|
    ensures forall v | v in q + {r.call.to} :: Counted(n, i, s.currentTerm, v, bs, calls, responses - {r})
  {
    assert VoteResponseOk(n, bs, r);
    forall v | v in q
      ensures v != r.call.to && Counted(n, i, s.currentTerm, v, bs, calls, responses - {r})
    {
      assert Counted(n, i, s.currentTerm, v, bs, calls, responses);
    }
    assert Settled(i, s.currentTerm, r.call.to, calls, responses - {r}) by {
      forall c | c in calls
        ensures !SameSlot(c, r.call)
      {
      }
      forall x | x in responses - {r}
        ensures !SameSlot(x.call, r.call)
      {
      }
    }
  }

  /** Taking an answer off the network leaves the other votes and messages in order. */
  lemma Consumed(n: nat, bs: P.Ballots, calls: set<VoteCall>, responses: set<VoteResponse>, r: VoteResponse)
    requires VotesRel(n, bs, calls, responses)
    ensures VotesRel(n, bs, calls, responses - {r})
    ensures NoneSent(-1, calls, responses, calls, responses - {r})
  {
  }

  /** A response that is not counted: stale, from a higher term, or a refusal. */
  lemma StepUncounted(s: Sys, a: P.State, q: seq<set<int>>, r: VoteResponse) returns (a': P.State, q': seq<set<int>>)
    requires Rel(s, a, q) && Enabled(s, HandleVoteResponse(r))
    requires
      var node := s.nodes[r.call.args.candidate];
      node.role != Candidate || node.currentTerm != r.call.args.term || r.reply.term > node.currentTerm || !r.reply.granted
    ensures Rel(After(s, HandleVoteResponse(r)), a', q') && a'.h == a.h
  {
    var i, n := r.call.args.candidate, |s.nodes|;
    PeerFacts(s, a, q, i);
    LaterRefl(a.h);
    var node, p';
    a', node, p' := UncountedAction(n, s.nodes[i], a, i, r.call.args, r.reply);
    Consumed(n, a.b, s.voteCalls, s.voteResponses, r);
    VoterCount(n, i, s.nodes[i], node, q[i], a.b, a.b,
               s.voteCalls, s.voteResponses, s.voteCalls, s.voteResponses - {r});
    q' := q[i := q[i]];
    Ballotwise(s, a, q, i, node, p', After(s, HandleVoteResponse(r)), a', q[i], -1);
  }

  lemma UncountedAction(n: nat, s: Node, a: P.State, i: int, args: VoteArgs, reply: VoteReply)
    returns (a': P.State, node: Node, p': P.Peer)
    requires P.Inv(a) && |a.peers| == n && 0 <= i < n && NodeRel(n, i, s, a.peers[i]) && LeaderRel(n, s, a.h)
    requires s.role != Candidate || s.currentTerm != args.term || reply.term > s.currentTerm || !reply.granted
    ensures node == AfterVoteReply(s, args, reply) && SameCandidacy(s, node)
    ensures P.Inv(a') && a'.h == a.h && a'.b == a.b && a'.peers == a.peers[i := p']
    ensures NodeRel(n, i, node, p') && LeaderRel(n, node, a.h)
  {
    node := AfterVoteReply(s, args, reply);
    a', p' := a, a.peers[i];
    if s.role == Candidate && s.currentTerm == args.term && reply.term > s.currentTerm {
      a' := P.AdoptTerm(a, i, reply.term);
      p' := P.Adopted(p', reply.term);
    } else {
      assert a.peers[i := a.peers[i]] == a.peers;
    }
  }

  /** A counted vote: one more voter, and leadership if they are a majority. */
  lemma StepCounted(s: Sys, a: P.State, q: seq<set<int>>, r: VoteResponse) returns (a': P.State, q': seq<set<int>>)
    requires Rel(s, a, q) && Enabled(s, HandleVoteResponse(r))
    requires
      var node := s.nodes[r.call.args.candidate];
      node.role == Candidate && node.currentTerm == r.call.args.term && r.reply.term <= node.currentTerm && r.reply.granted
    ensures Rel(After(s, HandleVoteResponse(r)), a', q') && Later(a.h, a'.h)
    ensures AcksOnly(a.h, a'.h, r.call.args.candidate, r.call.args.term)
  {
    var i, n := r.call.args.candidate, |s.nodes|;
    PeerFacts(s, a, q, i);
    NewVoter(n, i, s.nodes[i], q[i], a.b, s.voteCalls, s.voteResponses, r);
    var qi := q[i] + {r.call.to};
    var node, p';
    a', node, p' := CountAction(n, s.nodes[i], a, i, qi, r.call.args, r.reply, s.voteCalls, s.voteResponses - {r});
    Consumed(n, a.b, s.voteCalls, s.voteResponses, r);
    q' := q[i := qi];
    Ballotwise(s, a, q, i, node, p', After(s, HandleVoteResponse(r)), a', qi, -1);
  }

  /** One more vote counted, at the candidate. */
  lemma CountAction(n: nat, s: Node, a: P.State, i: int, q: set<int>, args: VoteArgs, reply: VoteReply,
                    calls: set<VoteCall>, responses: set<VoteResponse>)
    returns (a': P.State, node: Node, p': P.Peer)
    requires P.Inv(a) && |a.peers| == n && 0 <= i < n && NodeRel(n, i, s, a.peers[i]) && s.role == Candidate
    requires s.currentTerm == args.term && reply.term <= s.currentTerm && reply.granted && s.votesReceived + 1 <= |q|
    requires forall v | v in q :: Counted(n, i, s.currentTerm, v, a.b, calls, responses)
    ensures node == AfterVoteReply(s, args, reply)
    ensures P.Inv(a') && Later(a.h, a'.h) && a'.b == a.b && a'.peers == a.peers[i := p']
    ensures AcksOnly(a.h, a'.h, i, args.term)
    ensures NodeRel(n, i, node, p') && LeaderRel(n, node, a'.h) && CountRel(n, i, node, q, a.b, calls, responses)
  {
    node := AfterVoteReply(s, args, reply);
    LaterRefl(a.h);
    a', p' := a, a.peers[i];
    if node.role == Leader {
      a' := WinAction(n, s, a, i, q, calls, responses);
      p' := a.peers[i].(role := Leader);
      assert P.PeerOk(n, i, a.peers[i], a.h);
    } else {
      assert a.peers[i := a.peers[i]] == a.peers;
    }
  }

  lemma WinAction(n: nat, s: Node, a: P.State, i: int, q: set<int>, calls: set<VoteCall>, responses: set<VoteResponse>)
    returns (a': P.State)
    requires P.Inv(a) && |a.peers| == n && 0 <= i < n && NodeRel(n, i, s, a.peers[i]) && s.role == Candidate
    requires s.votesReceived + 1 <= |q| && s.votesReceived + 1 > s.size / 2
    requires forall v | v in q :: Counted(n, i, s.currentTerm, v, a.b, calls, responses)
    ensures P.Inv(a') && Later(a.h, a'.h) && a'.b == a.b
    ensures a'.peers == a.peers[i := a.peers[i].(role := Leader)] && AcksOnly(a.h, a'.h, i, s.currentTerm)
  {
    a' := Win(a, i, q);
  }
}
