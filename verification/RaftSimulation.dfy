/**
 The cluster of RaftSystem, with its snapshots, counters and messages, behaves as the protocol of
 RaftProtocol: every step of the one is a short sequence of actions of the other. `Rel` ties the two
 together: each peer to its whole log, each message to the history that justifies it, and the bare
 vote counter of a candidate to a set of distinct voters.
 */
module RaftSimulation {
  import opened Options
  import opened RaftTypes
  import opened RaftLog
  import opened RaftLedger
  import P = RaftProtocol
  import opened RaftElection
  import opened RaftReplication
  import opened RaftNode
  import opened RaftCompaction
  import opened RaftSystem

  // ---------------------------------------------------------------- peers

  ghost predicate NodeRel(n: nat, i: int, s: Node, p: P.Peer) {
    && s.me == i && s.size == n
    && s.currentTerm == p.term && s.votedFor == p.votedFor && s.role == p.role
    && s.commitIndex == p.commit
    && Compacts(s, p.log)
    && s.lastIncludedIndex <= s.lastApplied <= s.commitIndex
  }

  /** matchIndex soundness: a positive entry is an index that peer has accepted from this leader. */
  ghost predicate LeaderRel(n: nat, s: Node, h: Ledger) {
    s.role == Leader ==>
      && |s.nextIndex| == n == |s.matchIndex|
      && (forall j | 0 <= j < n :: s.nextIndex[j] >= 1)
      && (forall j | 0 <= j < n && j != s.me && s.matchIndex[j] > 0 :: Acked(h, j, s.currentTerm, s.matchIndex[j]))
  }

  ghost predicate NodesRel(nodes: seq<Node>, peers: seq<P.Peer>, h: Ledger) {
    && |nodes| == |peers|
    && (forall i | 0 <= i < |nodes| :: NodeRel(|nodes|, i, nodes[i], peers[i]))
    && (forall i | 0 <= i < |nodes| :: LeaderRel(|nodes|, nodes[i], h))
  }

  // ---------------------------------------------------------------- append messages and deliveries

  /** Every request is a stretch of its leader's log, or one that no peer accepts. */
  ghost predicate AppendCallOk(n: nat, h: Ledger, c: AppendCall) {
    && 0 <= c.to < n
    && 0 <= c.args.leader < n
    && 0 <= c.args.leaderCommit <= c.args.prevLogIndex + |c.args.entries|
    && (GoodAppend(n, h, c.args) || (c.args.prevLogTerm == -1 && c.args.prevLogIndex > 0))
  }

  ghost predicate AppendResponseOk(n: nat, h: Ledger, r: AppendResponse) {
    && AppendCallOk(n, h, r.call)
    && (r.reply.success ==>
          && GoodAppend(n, h, r.call.args)
          && Acked(h, r.call.to, r.call.args.term, r.call.args.prevLogIndex + |r.call.args.entries|))
  }

  ghost predicate DeliveredBy(n: nat, h: Ledger, d: Delivery, t: int, k: int) {
    Committed(n, h, t, k) && 1 <= d.index <= k && h.leaderLogs[t][d.index].command == Some(d.command)
  }

  ghost predicate DeliveryOk(n: nat, h: Ledger, d: Delivery) {
    exists t, k :: DeliveredBy(n, h, d, t, k)
  }

  ghost predicate MessagesRel(n: nat, h: Ledger, calls: set<AppendCall>, responses: set<AppendResponse>,
                              delivered: set<Delivery>) {
    && (forall c | c in calls :: AppendCallOk(n, h, c))
    && (forall r | r in responses :: AppendResponseOk(n, h, r))
    && (forall d | d in delivered :: DeliveryOk(n, h, d))
  }

  // ---------------------------------------------------------------- votes

  ghost predicate VoteCallOk(n: nat, bs: P.Ballots, c: VoteCall) {
    var b := Ballot(c.args.candidate, c.args.term);
    && 0 <= c.to < n && 0 <= c.args.candidate < n && c.to != c.args.candidate
    && b in bs.rounds && bs.rounds[b] != []
    && c.args.lastLogIndex == |bs.rounds[b]| - 1
    && c.args.lastLogTerm == LastTerm(bs.rounds[b])
  }

  ghost predicate VoteResponseOk(n: nat, bs: P.Ballots, r: VoteResponse) {
    && VoteCallOk(n, bs, r.call)
    && (r.reply.granted ==>
          var b := Ballot(r.call.to, r.call.args.term);
          b in bs.votes && bs.votes[b].candidate == r.call.args.candidate)
  }

  /** Two calls of one round to one peer. */
  predicate SameSlot(c: VoteCall, d: VoteCall) {
    c.args.candidate == d.args.candidate && c.args.term == d.args.term && c.to == d.to
  }

  /** No slot has two calls or answers under way. */
  ghost predicate Distinct(calls: set<VoteCall>, responses: set<VoteResponse>) {
    && (forall c, d | c in calls && d in calls && SameSlot(c, d) :: c == d)
    && (forall c, r | c in calls && r in responses :: !SameSlot(c, r.call))
    && (forall q, r | q in responses && r in responses && SameSlot(q.call, r.call) :: q == r)
  }

  ghost predicate VotesRel(n: nat, bs: P.Ballots, calls: set<VoteCall>, responses: set<VoteResponse>) {
    && (forall c | c in calls :: VoteCallOk(n, bs, c))
    && (forall r | r in responses :: VoteResponseOk(n, bs, r))
    && Distinct(calls, responses)
  }

  ghost predicate RoundsRel(rounds: multiset<Ballot>, known: map<Ballot, Log>) {
    forall b :: b in rounds <==> b in known
  }

  /** Nothing addressed from candidate i to v in term t is under way any more. */
  ghost predicate Settled(i: int, t: int, v: int, calls: set<VoteCall>, responses: set<VoteResponse>) {
    && (forall c | c in calls :: !(c.args.candidate == i && c.args.term == t && c.to == v))
    && (forall r | r in responses :: !(r.call.args.candidate == i && r.call.args.term == t && r.call.to == v))
  }

  ghost predicate Counted(n: nat, i: int, t: int, v: int, bs: P.Ballots, calls: set<VoteCall>,
                          responses: set<VoteResponse>) {
    && 0 <= v < n
    && Ballot(v, t) in bs.votes && bs.votes[Ballot(v, t)].candidate == i
    && Settled(i, t, v, calls, responses)
  }

  /** The counter of a candidate whose round is open is at most the number of distinct voters in q. */
  ghost predicate CountRel(n: nat, i: int, s: Node, q: set<int>, bs: P.Ballots, calls: set<VoteCall>,
                           responses: set<VoteResponse>) {
    s.role == Candidate && Ballot(i, s.currentTerm) in bs.rounds ==>
      && s.votesReceived <= |q|
      && forall v | v in q :: Counted(n, i, s.currentTerm, v, bs, calls, responses)
  }

  ghost predicate CountsRel(nodes: seq<Node>, q: seq<set<int>>, bs: P.Ballots, calls: set<VoteCall>,
                            responses: set<VoteResponse>) {
    && |q| == |nodes|
    && forall i | 0 <= i < |nodes| :: CountRel(|nodes|, i, nodes[i], q[i], bs, calls, responses)
  }

  ghost predicate Rel(s: Sys, a: P.State, q: seq<set<int>>) {
    && P.Inv(a)
    && |s.pending| == |s.nodes|
    && NodesRel(s.nodes, a.peers, a.h)
    && MessagesRel(|s.nodes|, a.h, s.appendCalls, s.appendResponses, s.delivered)
    && RoundsRel(s.rounds, a.b.rounds)
    && VotesRel(|s.nodes|, a.b, s.voteCalls, s.voteResponses)
    && CountsRel(s.nodes, q, a.b, s.voteCalls, s.voteResponses)
  }

  lemma InitRel(s: Sys) returns (a: P.State, q: seq<set<int>>)
    requires Init(s)
    ensures Rel(s, a, q) && P.Init(a)
  {
    var peers := seq(|s.nodes|, _ => P.Peer(0, -1, Follower, [Dummy], 0));
    a := P.State(peers, Ledger(map[], map[], map[]), P.Ballots(map[], map[]));
    q := seq(|s.nodes|, _ => {});
    P.InitInv(a);
  }

  // ---------------------------------------------------------------- framing

  lemma LeaderLater(n: nat, s: Node, h: Ledger, h': Ledger)
    requires LeaderRel(n, s, h) && Later(h, h')
    ensures LeaderRel(n, s, h')
  {
  }

  lemma NodesMove(nodes: seq<Node>, peers: seq<P.Peer>, h: Ledger, h': Ledger, i: int, s: Node, p: P.Peer)
    requires NodesRel(nodes, peers, h) && Later(h, h') && 0 <= i < |nodes|
    requires NodeRel(|nodes|, i, s, p) && LeaderRel(|nodes|, s, h')
    ensures NodesRel(nodes[i := s], peers[i := p], h')
  {
    var nodes' := nodes[i := s];
    forall j | 0 <= j < |nodes|
      ensures LeaderRel(|nodes|, nodes'[j], h')
    {
      if j != i {
        LeaderLater(|nodes|, nodes[j], h, h');
      }
    }
  }

  lemma MessagesLater(n: nat, h: Ledger, h': Ledger, calls: set<AppendCall>, responses: set<AppendResponse>,
                      delivered: set<Delivery>)
    requires MessagesRel(n, h, calls, responses, delivered) && Later(h, h')
    ensures MessagesRel(n, h', calls, responses, delivered)
  {
    forall c | c in calls
      ensures AppendCallOk(n, h', c)
    {
      AppendCallLater(n, h, h', c);
    }
    forall r | r in responses
      ensures AppendResponseOk(n, h', r)
    {
      AppendCallLater(n, h, h', r.call);
      if r.reply.success {
        GoodAppendLater(n, h, h', r.call.args);
      }
    }
    forall d | d in delivered
      ensures DeliveryOk(n, h', d)
    {
      var t, k :| DeliveredBy(n, h, d, t, k);
      CommittedLater(n, h, h', t, k);
      assert Prefix(h.leaderLogs[t], h'.leaderLogs[t]);
      assert DeliveredBy(n, h', d, t, k);
    }
  }

  lemma AppendCallLater(n: nat, h: Ledger, h': Ledger, c: AppendCall)
    requires AppendCallOk(n, h, c) && Later(h, h')
    ensures AppendCallOk(n, h', c)
  {
    if GoodAppend(n, h, c.args) {
      GoodAppendLater(n, h, h', c.args);
    }
  }

  /** Votes and rounds only accumulate, and rounds are added by peer i alone. */
  ghost predicate BallotsGrow(bs: P.Ballots, bs': P.Ballots, i: int) {
    && (forall b | b in bs.rounds :: b in bs'.rounds && bs'.rounds[b] == bs.rounds[b])
    && (forall b | b in bs.votes :: b in bs'.votes && bs'.votes[b] == bs.votes[b])
    && (forall b | b in bs'.rounds && b.peer != i :: b in bs.rounds)
  }

  lemma VotesGrow(n: nat, bs: P.Ballots, bs': P.Ballots, i: int, calls: set<VoteCall>, responses: set<VoteResponse>)
    requires VotesRel(n, bs, calls, responses) && BallotsGrow(bs, bs', i)
    ensures VotesRel(n, bs', calls, responses)
  {
    forall c | c in calls
      ensures VoteCallOk(n, bs', c)
    {
      assert VoteCallOk(n, bs, c);
    }
    forall r | r in responses
      ensures VoteResponseOk(n, bs', r)
    {
      assert VoteResponseOk(n, bs, r);
    }
  }

  /** Messages under way are, for candidates other than i, no more than before. */
  ghost predicate NoneSent(i: int, calls: set<VoteCall>, responses: set<VoteResponse>, calls': set<VoteCall>,
                           responses': set<VoteResponse>) {
    && (forall c | c in calls' && c.args.candidate != i :: c in calls)
    && (forall r | r in responses' && r.call.args.candidate != i :: r in responses || r.call in calls)
  }

  lemma CountsMove(nodes: seq<Node>, q: seq<set<int>>, bs: P.Ballots, bs': P.Ballots,
                   calls: set<VoteCall>, responses: set<VoteResponse>, calls': set<VoteCall>, responses': set<VoteResponse>,
                   w: int, i: int, s: Node, qi: set<int>)
    requires CountsRel(nodes, q, bs, calls, responses) && 0 <= i < |nodes| && (w == i || w == -1)
    requires BallotsGrow(bs, bs', w) && NoneSent(w, calls, responses, calls', responses')
    requires CountRel(|nodes|, i, s, qi, bs', calls', responses')
    ensures CountsRel(nodes[i := s], q[i := qi], bs', calls', responses')
  {
    forall j | 0 <= j < |nodes| && j != i
      ensures CountRel(|nodes|, j, nodes[j], q[j], bs', calls', responses')
    {
      assert CountRel(|nodes|, j, nodes[j], q[j], bs, calls, responses);
      CountFrame(|nodes|, j, nodes[j], q[j], bs, bs', w, calls, responses, calls', responses');
    }
  }

  lemma CountFrame(n: nat, j: int, s: Node, q: set<int>, bs: P.Ballots, bs': P.Ballots, i: int,
                   calls: set<VoteCall>, responses: set<VoteResponse>, calls': set<VoteCall>, responses': set<VoteResponse>)
    requires CountRel(n, j, s, q, bs, calls, responses) && j != i
    requires BallotsGrow(bs, bs', i) && NoneSent(i, calls, responses, calls', responses')
    ensures CountRel(n, j, s, q, bs', calls', responses')
  {
    if s.role == Candidate && Ballot(j, s.currentTerm) in bs'.rounds {
      forall v | v in q
        ensures Counted(n, j, s.currentTerm, v, bs', calls', responses')
      {
        assert Counted(n, j, s.currentTerm, v, bs, calls, responses);
      }
    }
  }
}
