/**
 One lemma per step of the cluster: the step is matched by protocol actions and keeps `Rel`.
 */
module RaftSteps {
  import opened Options
  import opened RaftTypes
  import opened RaftLog
  import opened RaftLedger
  import P = RaftProtocol
  import opened RaftElection
  import opened RaftReplication
  import opened RaftNode
  import opened RaftCompaction
  import opened RaftSystem
  import opened RaftSimulation

  lemma LaterRefl(h: Ledger)
    ensures Later(h, h)
  {
  }

  /** The facts about one peer that its steps start from. */
  lemma PeerFacts(s: Sys, a: P.State, q: seq<set<int>>, i: int)
    requires Rel(s, a, q) && 0 <= i < |s.nodes|
    ensures |a.peers| == |s.nodes| == |s.pending| == |q|
    ensures NodeRel(|s.nodes|, i, s.nodes[i], a.peers[i]) && LeaderRel(|s.nodes|, s.nodes[i], a.h)
    ensures P.PeerOk(|s.nodes|, i, a.peers[i], a.h) && P.VoterOk(i, a.peers[i], a.b)
    ensures CountRel(|s.nodes|, i, s.nodes[i], q[i], a.b, s.voteCalls, s.voteResponses)
  {
  }

  /** A candidacy in progress keeps its term and its count. */
  predicate SameCandidacy(s: Node, s': Node) {
    s'.role == Candidate ==>
      s.role == Candidate && s'.currentTerm == s.currentTerm && s'.votesReceived == s.votesReceived
  }

  lemma CountKept(n: nat, i: int, s: Node, s': Node, q: set<int>, bs: P.Ballots, calls: set<VoteCall>,
                  responses: set<VoteResponse>)
    requires CountRel(n, i, s, q, bs, calls, responses) && SameCandidacy(s, s')
    ensures CountRel(n, i, s', q, bs, calls, responses)
  {
  }

  lemma CountsKept(nodes: seq<Node>, q: seq<set<int>>, bs: P.Ballots, calls: set<VoteCall>,
                   responses: set<VoteResponse>, i: int, s: Node)
    requires CountsRel(nodes, q, bs, calls, responses) && 0 <= i < |nodes| && SameCandidacy(nodes[i], s)
    ensures CountsRel(nodes[i := s], q, bs, calls, responses)
  {
    CountKept(|nodes|, i, nodes[i], s, q[i], bs, calls, responses);
  }

  /** A step that changes one peer, no vote and no vote message. */
  lemma Local(s: Sys, a: P.State, q: seq<set<int>>, i: int, node: Node, peer: P.Peer, s': Sys, a': P.State)
    requires Rel(s, a, q) && P.Inv(a') && 0 <= i < |s.nodes| == |a.peers| && Later(a.h, a'.h)
    requires s'.nodes == s.nodes[i := node] && |s'.pending| == |s.pending|
    requires a'.peers == a.peers[i := peer] && a'.b == a.b
    requires s'.rounds == s.rounds && s'.voteCalls == s.voteCalls && s'.voteResponses == s.voteResponses
    requires NodeRel(|s.nodes|, i, node, peer) && LeaderRel(|s.nodes|, node, a'.h)
    requires SameCandidacy(s.nodes[i], node)
    requires MessagesRel(|s.nodes|, a'.h, s'.appendCalls, s'.appendResponses, s'.delivered)
    ensures Rel(s', a', q)
  {
    NodesMove(s.nodes, a.peers, a.h, a'.h, i, node, peer);
    CountsKept(s.nodes, q, a.b, s.voteCalls, s.voteResponses, i, node);
  }

  // ---------------------------------------------------------------- snapshots, batches, restarts

  lemma StepSnapshot(s: Sys, a: P.State, q: seq<set<int>>, i: int, index: int)
    requires Rel(s, a, q) && Enabled(s, TakeSnapshot(i, index))
    ensures Rel(After(s, TakeSnapshot(i, index)), a, q)
  {
    var s' := After(s, TakeSnapshot(i, index));
    PeerFacts(s, a, q, i);
    SnapshotCompacts(s.nodes[i], a.peers[i].log, index);
    LaterRefl(a.h);
    assert a.peers[i := a.peers[i]] == a.peers;
    Local(s, a, q, i, s'.nodes[i], a.peers[i], s', a);
  }

  /** Every message of a batch is the command of its index in the log. */
  lemma {:induction false} MessageEntry(s: Node, index: int, end: int, m: ApplyMsg)
    requires m in Messages(s, index, end)
    ensures m.CommandMsg? && index <= m.index <= end && 0 < m.index - s.lastIncludedIndex < |s.log|
    ensures s.log[m.index - s.lastIncludedIndex].command == Some(m.command)
    decreases end - index
  {
    var pos := index - s.lastIncludedIndex;
    if !(0 < pos < |s.log| && s.log[pos].command.Some? && m == CommandMsg(index, s.log[pos].command.value)) {
      MessageEntry(s, index + 1, end, m);
    }
  }

  lemma BatchEntry(s: Node, d: Delivery)
    requires d in Batch(s) && s.lastIncludedIndex <= s.lastApplied
    ensures s.lastApplied < d.index <= s.commitIndex && 0 < d.index - s.lastIncludedIndex < |s.log|
    ensures s.log[d.index - s.lastIncludedIndex].command == Some(d.command)
  {
    var m :| m in PassBatch(s) && m.CommandMsg? && d == Delivery(s.me, m.index, m.command);
    PassMessage(s, m);
  }

  lemma PassMessage(s: Node, m: ApplyMsg)
    requires m in PassBatch(s) && s.lastIncludedIndex <= s.lastApplied
    ensures m.CommandMsg? && s.lastApplied < m.index <= s.commitIndex && 0 < m.index - s.lastIncludedIndex < |s.log|
    ensures s.log[m.index - s.lastIncludedIndex].command == Some(m.command)
  {
    assert SnapshotApplied(s) == s;
    MessageEntry(s, s.lastApplied + 1, s.commitIndex, m);
  }

  lemma BatchOk(n: nat, h: Ledger, s: Node, p: P.Peer, d: Delivery)
    requires Suffix(s.log, s.lastIncludedIndex, s.lastIncludedTerm, p.log) && Backed(n, h, p.log, p.commit, p.term)
    requires 0 <= s.lastIncludedIndex <= s.lastApplied && s.commitIndex == p.commit && d in Batch(s)
    ensures DeliveryOk(n, h, d)
  {
    BatchEntry(s, d);
    CommandOk(n, h, s.log, s.lastIncludedIndex, s.lastIncludedTerm, p, d);
  }

  lemma CommandOk(n: nat, h: Ledger, log: Log, li: int, lit: int, p: P.Peer, d: Delivery)
    requires Suffix(log, li, lit, p.log) && Backed(n, h, p.log, p.commit, p.term)
    requires 0 < d.index <= p.commit && 0 < d.index - li < |log| && log[d.index - li].command == Some(d.command)
    ensures DeliveryOk(n, h, d)
  {
    var t, k :| BackedBy(n, h, p.log, p.commit, p.term, t, k);
    assert p.log[d.index] == h.leaderLogs[t][d.index];
    var pos := d.index - li;
    assert log[pos] == p.log[li + pos];
    assert DeliveredBy(n, h, d, t, k);
  }

  lemma StepApply(s: Sys, a: P.State, q: seq<set<int>>, i: int)
    requires Rel(s, a, q) && Enabled(s, Apply(i))
    ensures Rel(After(s, Apply(i)), a, q)
  {
    var s' := After(s, Apply(i));
    PeerFacts(s, a, q, i);
    forall d | d in Batch(s.nodes[i])
      ensures DeliveryOk(|s.nodes|, a.h, d)
    {
      BatchOk(|s.nodes|, a.h, s.nodes[i], a.peers[i], d);
    }
    LaterRefl(a.h);
    assert a.peers[i := a.peers[i]] == a.peers;
    Local(s, a, q, i, s'.nodes[i], a.peers[i], s', a);
  }

  /** A peer that restarts from what it persisted becomes a follower and forgets commitment past its snapshot. */
  lemma Reborn(s: Sys, a: P.State, q: seq<set<int>>, i: int, s': Sys) returns (a': P.State)
    requires Rel(s, a, q) && IsPeer(s, i)
    requires s' == s.(nodes := s.nodes[i := Restarted(s.nodes[i])], pending := s.pending[i := 0])
    ensures Rel(s', a', q) && a'.h == a.h
  {
    PeerFacts(s, a, q, i);
    var p';
    a', p' := RebornAction(|s.nodes|, s.nodes[i], a, i);
    LaterRefl(a.h);
    Local(s, a, q, i, Restarted(s.nodes[i]), p', s', a');
  }

  lemma RebornAction(n: nat, s: Node, a: P.State, i: int) returns (a': P.State, p': P.Peer)
    requires P.Inv(a) && |a.peers| == n && 0 <= i < n && NodeRel(n, i, s, a.peers[i])
    ensures P.Inv(a') && a'.h == a.h && a'.b == a.b && a'.peers == a.peers[i := p']
    ensures NodeRel(n, i, Restarted(s), p') && LeaderRel(n, Restarted(s), a.h) && SameCandidacy(s, Restarted(s))
  {
    var p1 := a.peers[i].(role := Follower);
    var a1 := P.StepDown(a, i);
    p' := p1.(commit := s.lastIncludedIndex);
    a' := P.LowerCommit(a1, i, s.lastIncludedIndex);
    Overwrite(a.peers, i, p1, p');
  }

  lemma StepRestart(s: Sys, a: P.State, q: seq<set<int>>, i: int) returns (a': P.State)
    requires Rel(s, a, q) && Enabled(s, Restart(i))
    ensures Rel(After(s, Restart(i)), a', q) && a'.h == a.h
  {
    a' := Reborn(s, a, q, i, After(s, Restart(i)));
  }

  // ---------------------------------------------------------------- leader side

  lemma StepSubmit(s: Sys, a: P.State, q: seq<set<int>>, i: int, command: Command) returns (a': P.State)
    requires Rel(s, a, q) && Enabled(s, Submit(i, command))
    ensures Rel(After(s, Submit(i, command)), a', q) && Later(a.h, a'.h)
    ensures AcksOnly(a.h, a'.h, i, s.nodes[i].currentTerm)
  {
    var s' := After(s, Submit(i, command));
    PeerFacts(s, a, q, i);
    a' := a;
    if s.nodes[i].role == Leader {
      a' := Append(a, i, command);
      var n := s.nodes[i];
      AppendSuffix(n.log, n.lastIncludedIndex, n.lastIncludedTerm, a.peers[i].log, Entry(command, n.currentTerm));
      LeaderLater(|s.nodes|, n, a.h, a'.h);
    } else {
      LaterRefl(a.h);
      assert a.peers[i := a.peers[i]] == a.peers;
    }
    MessagesLater(|s.nodes|, a.h, a'.h, s.appendCalls, s.appendResponses, s.delivered);
    Local(s, a, q, i, s'.nodes[i], a'.peers[i], s', a');
  }

  lemma SentEntries(log: Log, li: int, lit: int, full: Log, next: int)
    requires Suffix(log, li, lit, full) && li < next <= |full|
    ensures (if next - li < |log| then log[next - li..] else []) == full[next..]
  {
    var pos := next - li;
    forall k | pos <= k < |log|
      ensures log[k] == full[li + k]
    {
    }
    if pos < |log| {
      assert |log[pos..]| == |full[next..]|;
      assert forall k | 0 <= k < |log| - pos :: log[pos..][k] == full[next..][k];
    }
  }

  lemma SentStretch(s: Node, full: Log, next: int)
    requires Compacts(s, full) && full[0] == Dummy && s.lastIncludedIndex < next <= |full|
    ensures
      var args := AppendFor(s, next);
      && args.prevLogIndex == next - 1
      && args.prevLogTerm == full[next - 1].term
      && args.entries == full[next..]
  {
    SentEntries(s.log, s.lastIncludedIndex, s.lastIncludedTerm, full, next);
    SentTerm(s, full, next);
  }

  lemma SentTerm(s: Node, full: Log, next: int)
    requires Compacts(s, full) && full[0] == Dummy && s.lastIncludedIndex < next <= |full|
    ensures AppendFor(s, next).prevLogTerm == full[next - 1].term
  {
    EntryThere(s, full, next - 1);
  }

  /** Commit clamp, sender's half: a request reaches at least as far as the commitment it announces. */
  lemma SentOk(n: nat, h: Ledger, s: Node, p: P.Peer, to: int, next: int)
    requires NodeRel(n, s.me, s, p) && P.PeerOk(n, s.me, p, h) && s.role == Leader
    requires 0 <= s.me < n && 0 <= to < n && next > s.lastIncludedIndex
    ensures AppendCallOk(n, h, AppendCall(AppendFor(s, next), to))
  {
    var args := AppendFor(s, next);
    if next <= |p.log| {
      SentStretch(s, p.log, next);
      assert p.log[next..] == p.log[next - 1 + 1..next - 1 + 1 + |args.entries|];
      assert GoodAppend(n, h, args);
    } else {
      SameIndexes(s, p.log);
      assert args.prevLogTerm == -1;
    }
  }

  lemma StepSend(s: Sys, a: P.State, q: seq<set<int>>, i: int, to: int)
    requires Rel(s, a, q) && Enabled(s, Send(i, to))
    ensures Rel(After(s, Send(i, to)), a, q)
  {
    PeerFacts(s, a, q, i);
    var c := AppendCall(AppendFor(s.nodes[i], s.nodes[i].nextIndex[to]), to);
    SentOk(|s.nodes|, a.h, s.nodes[i], a.peers[i], to, s.nodes[i].nextIndex[to]);
    MessagesSent(|s.nodes|, a.h, s.appendCalls, s.appendResponses, s.delivered, c);
  }

  lemma MessagesSent(n: nat, h: Ledger, calls: set<AppendCall>, responses: set<AppendResponse>,
                     delivered: set<Delivery>, c: AppendCall)
    requires MessagesRel(n, h, calls, responses, delivered) && AppendCallOk(n, h, c)
    ensures MessagesRel(n, h, calls + {c}, responses, delivered)
  {
  }

  /** The peers behind a leader's count, itself included: as many as were counted, each with the log through n. */
  lemma {:induction false} HoldersSet(s: Node, n: int, k: int) returns (q: set<int>)
    requires 0 <= k <= |s.matchIndex| && 0 <= s.me < |s.matchIndex|
    ensures |q| == Holders(s, n, k) && s.me in q
    ensures forall j | j in q && j != s.me :: k <= j < |s.matchIndex| && s.matchIndex[j] >= n
    decreases |s.matchIndex| - k
  {
    if k == |s.matchIndex| {
      q := {s.me};
    } else {
      q := HoldersSet(s, n, k + 1);
      if k != s.me && s.matchIndex[k] >= n {
        q := q + {k};
      }
    }
  }

  /** A committable index is held by a majority: tryCommit's count is a genuine replication quorum. */
  lemma CommittableQuorum(n: nat, h: Ledger, s: Node, p: P.Peer, c: int) returns (q: set<int>)
    requires NodeRel(n, s.me, s, p) && LeaderRel(n, s, h) && P.PeerOk(n, s.me, p, h)
    requires s.role == Leader && 0 <= s.me < n && Committable(s, c) && s.commitIndex < c <= LastIndex(s)
    ensures Quorum(n, q) && AckedByAll(h, q, p.term, c)
    ensures 0 < c < |p.log| && p.log[c].term == p.term
  {
    SameIndexes(s, p.log);
    q := HoldersSet(s, c, 0);
    forall j | j in q
      ensures Acked(h, j, p.term, c)
    {
      if j != s.me {
        assert Acked(h, j, s.currentTerm, s.matchIndex[j]);
      }
    }
  }

  lemma StepAppendResponse(s: Sys, a: P.State, q: seq<set<int>>, r: AppendResponse) returns (a': P.State)
    requires Rel(s, a, q) && Enabled(s, HandleAppendResponse(r))
    ensures Rel(After(s, HandleAppendResponse(r)), a', q) && a'.h == a.h
  {
    var i := r.call.args.leader;
    PeerFacts(s, a, q, i);
    LaterRefl(a.h);
    var node, p';
    a', node, p' := ResponseAction(|s.nodes|, s.nodes[i], a, i, r) by { assert AppendResponseOk(|s.nodes|, a.h, r); }
    Local(s, a, q, i, node, p', After(s, HandleAppendResponse(r)), a');
  }

  /** The match indexes stay sound. */
  lemma RepliedLeader(n: nat, s: Node, h: Ledger, r: AppendResponse) returns (node: Node)
    requires LeaderRel(n, s, h) && AppendResponseOk(n, h, r)
    requires s.role == Leader ==> 0 <= r.call.to < |s.nextIndex| && r.call.to < |s.matchIndex|
    ensures node == AfterAppendReply(s, r.call.to, r.call.args, r.reply)
    ensures LeaderRel(n, node, h) && SameCandidacy(s, node)
  {
    node := AfterAppendReply(s, r.call.to, r.call.args, r.reply);
  }

  lemma ResponseAction(n: nat, s: Node, a: P.State, i: int, r: AppendResponse)
    returns (a': P.State, node: Node, p': P.Peer)
    requires P.Inv(a) && |a.peers| == n && 0 <= i < n && NodeRel(n, i, s, a.peers[i]) && LeaderRel(n, s, a.h)
    requires AppendResponseOk(n, a.h, r)
    requires s.role == Leader ==> 0 <= r.call.to < |s.nextIndex| && r.call.to < |s.matchIndex|
    ensures node == AfterAppendReply(s, r.call.to, r.call.args, r.reply) && SameCandidacy(s, node)
    ensures P.Inv(a') && a'.h == a.h && a'.b == a.b && a'.peers == a.peers[i := p']
    ensures NodeRel(n, i, node, p') && LeaderRel(n, node, a.h)
  {
    node := RepliedLeader(n, s, a.h, r);
    a', p' := a, a.peers[i];
    if s.role == Leader && s.currentTerm == r.call.args.term {
      if r.reply.term > s.currentTerm {
        a' := P.AdoptTerm(a, i, r.reply.term);
        p' := P.Adopted(a.peers[i], r.reply.term);
      } else if r.reply.success {
        a', p' := CommitAction(n, s, a, i, node);
      }
    }
    assert a.peers[i := a.peers[i]] == a.peers;
  }

  /** A leader whose match indexes are sound may move its commit index to any committable index. */
  lemma CommitAction(n: nat, s: Node, a: P.State, i: int, node: Node) returns (a': P.State, p': P.Peer)
    requires P.Inv(a) && |a.peers| == n && 0 <= i < n && NodeRel(n, i, s, a.peers[i]) && s.role == Leader
    requires node == s.(nextIndex := node.nextIndex, matchIndex := node.matchIndex, commitIndex := node.commitIndex)
    requires LeaderRel(n, node, a.h)
    requires
      var base := node.(commitIndex := s.commitIndex);
      || node.commitIndex == base.commitIndex
      || (base.commitIndex < node.commitIndex <= LastIndex(base) && Committable(base, node.commitIndex))
    ensures P.Inv(a') && a'.h == a.h && a'.b == a.b
    ensures a'.peers == a.peers[i := p'] && NodeRel(n, i, node, p')
  {
    a', p' := a, a.peers[i].(commit := node.commitIndex);
    var base := node.(commitIndex := s.commitIndex);
    if node.commitIndex != base.commitIndex {
      assert P.PeerOk(n, i, a.peers[i], a.h);
      var quorum := CommittableQuorum(n, a.h, base, a.peers[i], node.commitIndex);
      a' := P.Commit(a, i, node.commitIndex, quorum);
    } else {
      assert p' == a.peers[i];
      assert a.peers[i := p'] == a.peers;
    }
  }

  // ---------------------------------------------------------------- follower side

  function HeardPeer(p: P.Peer, t: int): P.Peer {
    (if t > p.term then P.Adopted(p, t) else p).(role := Follower)
  }

  /** A request of a term no older than the peer's makes it a follower of that term. */
  lemma FollowTerm(a: P.State, i: int, t: int) returns (a': P.State)
    requires P.Inv(a) && 0 <= i < |a.peers| && t >= a.peers[i].term
    ensures P.Inv(a') && a'.h == a.h && a'.b == a.b
    ensures a'.peers == a.peers[i := HeardPeer(a.peers[i], t)]
  {
    a' := a;
    if t > a.peers[i].term {
      a' := P.AdoptTerm(a, i, t);
    }
    a' := P.StepDown(a', i);
  }

  /** A request that the peer accepts is a stretch of its leader's log that fits the peer's own. */
  lemma AcceptedFits(n: nat, h: Ledger, s: Node, p: P.Peer, c: AppendCall)
    requires NodeRel(n, s.me, s, p) && P.LogOk(p, h.leaderLogs) && LeaderLogsOk(h.leaderLogs) && AppendCallOk(n, h, c)
    requires AfterAppend(s, c.args).Answered? && AfterAppend(s, c.args).reply.success
    ensures GoodAppend(n, h, c.args) && Fits(p.log, c.args)
    ensures s.currentTerm <= c.args.term && Placeable(s, c.args)
    ensures AfterAppend(s, c.args).node == LogAccepted(s, c.args)
    ensures c.args.prevLogIndex == 0 || c.args.prevLogIndex >= s.lastIncludedIndex
    ensures InStore(s, c.args)
  {
    SameIndexes(s, p.log);
    var x := c.args.prevLogIndex;
    if x > 0 {
      TermsAscend(p.log, h.leaderLogs, x, x);
    } else {
      assert WellMatched(h.leaderLogs[c.args.term], h.leaderLogs);
      RealTerms(h.leaderLogs, c.args);
      LeaderRequestCrashes(s, c.args);
    }
  }

  /** The offered entries start in the stored part of the log, or there are none. */
  predicate InStore(s: Node, a: AppendArgs) {
    |a.entries| == 0 || 0 <= a.prevLogIndex + 1 - s.lastIncludedIndex <= |s.log|
  }

  lemma RealTerms(leaderLogs: map<int, Log>, a: AppendArgs)
    requires LeaderLogsOk(leaderLogs) && Stretch(leaderLogs, a)
    ensures forall k | 0 <= k < |a.entries| :: a.entries[k].term > 0
  {
    var l := leaderLogs[a.term];
    assert WellMatched(l, leaderLogs);
    forall k | 0 <= k < |a.entries| ensures a.entries[k].term > 0 {
      assert Sourced(l, a.prevLogIndex + 1 + k, leaderLogs);
    }
  }

  /** The entry at a snapshot position is committed, so no leader disputes it. */
  lemma PlaceholderMatches(n: nat, h: Ledger, i: int, p: P.Peer, a: AppendArgs, li: int)
    requires LedgerOk(n, h) && P.PeerOk(n, i, p, h) && GoodAppend(n, h, a) && a.term == p.term
    requires |a.entries| > 0 && a.prevLogIndex + 1 == li <= p.commit
    ensures MatchLength(p.log, a.prevLogIndex + 1, a.entries) >= 1
  {
    CommitAgrees(n, h, i, p);
    assert p.log[li] == h.leaderLogs[a.term][li];
    assert a.entries[0] == h.leaderLogs[a.term][a.prevLogIndex + 1];
  }

  /** A snapshot position that the offered entries start at is not disputed. */
  predicate Undisputed(full: Log, a: AppendArgs, li: int)
    requires 0 <= a.prevLogIndex < |full|
  {
    a.prevLogIndex + 1 == li && |a.entries| > 0 ==> MatchLength(full, a.prevLogIndex + 1, a.entries) >= 1
  }

  /** The code's merge of a compacted log is the protocol's merge of the whole one. */
  lemma MergedWhole(s: Node, full: Log, a: AppendArgs) returns (log': Log, full': Log)
    requires Compacts(s, full) && Fits(full, a) && InStore(s, a) && Undisputed(full, a, s.lastIncludedIndex)
    ensures Placeable(s, a) && log' == LogMerged(s, a) && full' == Merge(full, a.prevLogIndex + 1, a.entries)
    ensures Suffix(log', s.lastIncludedIndex, s.lastIncludedTerm, full')
  {
    if |a.entries| == 0 {
      MergeNothing(full, a.prevLogIndex + 1, a.entries);
      log', full' := s.log, full;
    } else {
      log', full' := MergedLogs(s.log, s.lastIncludedIndex, s.lastIncludedTerm, full, a);
      MergedIs(s, a, a.prevLogIndex + 1 - s.lastIncludedIndex, log');
    }
  }

  lemma MergedLogs(log: Log, li: int, lit: int, full: Log, a: AppendArgs) returns (log': Log, full': Log)
    requires Suffix(log, li, lit, full) && Fits(full, a) && |a.entries| > 0 && Undisputed(full, a, li)
    requires 0 <= a.prevLogIndex + 1 - li <= |log|
    ensures Merges(log, a.prevLogIndex + 1 - li, a.entries, log') && full' == Merge(full, a.prevLogIndex + 1, a.entries)
    ensures Suffix(log', li, lit, full')
  {
    log', full' := MergeSuffix(log, li, lit, full, a.prevLogIndex, a.entries);
  }

  /** Commit clamp, receiver's half: after merging, the announced commitment is within the log, so the
      code's log and commit index are the protocol's. */
  lemma ClampIdle(n: nat, s: Node, p: P.Peer, a: AppendArgs)
    requires NodeRel(n, s.me, s, p) && Fits(p.log, a) && InStore(s, a)
    requires s.currentTerm <= a.term && a.leaderCommit <= a.prevLogIndex + |a.entries|
    requires Undisputed(p.log, a, s.lastIncludedIndex)
    ensures Placeable(s, a) && NodeRel(n, s.me, LogAccepted(s, a), AfterAccept(HeardPeer(p, a.term), a))
  {
    var log', full' := MergedWhole(s, p.log, a);
    assert LogAccepted(s, a).log == log';
    assert AfterAccept(HeardPeer(p, a.term), a).log == full';
  }

  /** Accepting, at one peer: what the code leaves there is what the protocol's peer becomes. */
  lemma AcceptedNode(n: nat, h: Ledger, s: Node, p: P.Peer, c: AppendCall)
    requires LedgerOk(n, h) && NodeRel(n, s.me, s, p) && P.PeerOk(n, s.me, p, h)
    requires P.PeerOk(n, s.me, HeardPeer(p, c.args.term), h)
    requires AppendCallOk(n, h, c)
    requires AfterAppend(s, c.args).Answered? && AfterAppend(s, c.args).reply.success
    ensures GoodAppend(n, h, c.args) && Fits(p.log, c.args) && Placeable(s, c.args)
    ensures c.args.term >= p.term && AfterAppend(s, c.args).node == LogAccepted(s, c.args)
    ensures NodeRel(n, s.me, LogAccepted(s, c.args), AfterAccept(HeardPeer(p, c.args.term), c.args))
  {
    AcceptedFits(n, h, s, p, c);
    if c.args.prevLogIndex + 1 == s.lastIncludedIndex && |c.args.entries| > 0 {
      PlaceholderMatches(n, h, s.me, HeardPeer(p, c.args.term), c.args, s.lastIncludedIndex);
    }
    ClampIdle(n, s, p, c.args);
  }

  lemma AcceptAction(n: nat, s: Node, a: P.State, i: int, c: AppendCall) returns (a': P.State, p': P.Peer)
    requires P.Inv(a) && |a.peers| == n && 0 <= i < n && NodeRel(n, i, s, a.peers[i]) && AppendCallOk(n, a.h, c)
    requires AfterAppend(s, c.args).Answered? && AfterAppend(s, c.args).reply.success
    ensures P.Inv(a') && a'.b == a.b && Later(a.h, a'.h)
    ensures a'.peers == a.peers[i := p']
    ensures Placeable(s, c.args) && AfterAppend(s, c.args).node == LogAccepted(s, c.args)
    ensures NodeRel(n, i, LogAccepted(s, c.args), p')
    ensures GoodAppend(n, a.h, c.args)
    ensures Acked(a'.h, i, c.args.term, c.args.prevLogIndex + |c.args.entries|) && AcksOnly(a.h, a'.h, i, c.args.term)
  {
    var p := a.peers[i];
    var t := c.args.term;
    assert P.PeerOk(n, i, p, a.h);
    AcceptedFits(n, a.h, s, p, c);
    var a1 := FollowTerm(a, i, t);
    assert P.PeerOk(n, i, a1.peers[i], a.h);
    AcceptedNode(n, a.h, s, p, c);
    p' := AfterAccept(HeardPeer(p, t), c.args);
    a' := Accept(a1, i, c.args);
    Overwrite(a.peers, i, HeardPeer(p, t), p');
  }

  lemma Overwrite<T>(xs: seq<T>, i: int, x: T, y: T)
    requires 0 <= i < |xs|
    ensures xs[i := x][i := y] == xs[i := y]
  {
  }

  lemma StepAccept(s: Sys, a: P.State, q: seq<set<int>>, c: AppendCall) returns (a': P.State)
    requires Rel(s, a, q) && Enabled(s, HandleAppend(c))
    requires AfterAppend(s.nodes[c.to], c.args).Answered? && AfterAppend(s.nodes[c.to], c.args).reply.success
    ensures Rel(After(s, HandleAppend(c)), a', q) && Later(a.h, a'.h) && AcksOnly(a.h, a'.h, c.to, c.args.term)
  {
    var i, n := c.to, |s.nodes|;
    var node := LogAccepted(s.nodes[i], c.args);
    PeerFacts(s, a, q, i);
    var p';
    a', p' := AcceptAction(n, s.nodes[i], a, i, c) by { assert AppendCallOk(n, a.h, c); }
    var reply := AfterAppend(s.nodes[i], c.args).reply;
    MessagesAnswered(n, a.h, a'.h, s.appendCalls, s.appendResponses, s.delivered, c, reply);
    Local(s, a, q, i, node, p', After(s, HandleAppend(c)), a');
  }

  lemma MessagesAnswered(n: nat, h: Ledger, h': Ledger, calls: set<AppendCall>, responses: set<AppendResponse>,
                         delivered: set<Delivery>,
                         c: AppendCall, reply: AppendReply)
    requires MessagesRel(n, h, calls, responses, delivered) && Later(h, h') && c in calls
    requires reply.success ==>
        GoodAppend(n, h, c.args) && Acked(h', c.to, c.args.term, c.args.prevLogIndex + |c.args.entries|)
    ensures MessagesRel(n, h', calls, responses + {AppendResponse(c, reply)}, delivered)
  {
    MessagesLater(n, h, h', calls, responses, delivered);
    AnswerOk(n, h, h', c, reply);
  }

  lemma AnswerOk(n: nat, h: Ledger, h': Ledger, c: AppendCall, reply: AppendReply)
    requires AppendCallOk(n, h, c) && Later(h, h')
    requires reply.success ==>
        GoodAppend(n, h, c.args) && Acked(h', c.to, c.args.term, c.args.prevLogIndex + |c.args.entries|)
    ensures AppendResponseOk(n, h', AppendResponse(c, reply))
  {
    AppendCallLater(n, h, h', c);
    if reply.success {
      GoodAppendLater(n, h, h', c.args);
    }
  }

  /** What a rejected request changes. */
  lemma RejectedNode(s: Node, a: AppendArgs)
    requires AfterAppend(s, a).Answered? ==> !AfterAppend(s, a).reply.success
    ensures AfterAppend(s, a).node == if a.term < s.currentTerm then s else Heard(s, a.term)
  {
  }

  lemma RejectAction(n: nat, s: Node, a: P.State, i: int, args: AppendArgs) returns (a': P.State, p': P.Peer)
    requires P.Inv(a) && |a.peers| == n && 0 <= i < n && NodeRel(n, i, s, a.peers[i]) && LeaderRel(n, s, a.h)
    requires AfterAppend(s, args).Answered? && !AfterAppend(s, args).reply.success
    ensures P.Inv(a') && a'.h == a.h && a'.b == a.b && a'.peers == a.peers[i := p']
    ensures
      var node := AfterAppend(s, args).node;
      NodeRel(n, i, node, p') && LeaderRel(n, node, a.h) && SameCandidacy(s, node)
  {
    RejectedNode(s, args);
    a', p' := a, a.peers[i];
    if args.term >= s.currentTerm {
      a' := FollowTerm(a, i, args.term);
      p' := HeardPeer(a.peers[i], args.term);
    } else {
      assert a.peers[i := a.peers[i]] == a.peers;
    }
  }

  lemma StepReject(s: Sys, a: P.State, q: seq<set<int>>, c: AppendCall) returns (a': P.State)
    requires Rel(s, a, q) && Enabled(s, HandleAppend(c))
    requires AfterAppend(s.nodes[c.to], c.args).Answered? && !AfterAppend(s.nodes[c.to], c.args).reply.success
    ensures Rel(After(s, HandleAppend(c)), a', q) && a'.h == a.h
  {
    var i := c.to;
    var node, reply := AfterAppend(s.nodes[i], c.args).node, AfterAppend(s.nodes[i], c.args).reply;
    PeerFacts(s, a, q, i);
    LaterRefl(a.h);
    var p';
    a', p' := RejectAction(|s.nodes|, s.nodes[i], a, i, c.args);
    MessagesAnswered(|s.nodes|, a.h, a.h, s.appendCalls, s.appendResponses, s.delivered, c, reply);
    Local(s, a, q, i, node, p', After(s, HandleAppend(c)), a');
  }

  lemma HearOnly(s: Sys, a: P.State, q: seq<set<int>>, i: int, t: int, s': Sys) returns (a': P.State)
    requires Rel(s, a, q) && IsPeer(s, i) && t >= s.nodes[i].currentTerm
    requires s' == s.(nodes := s.nodes[i := Heard(s.nodes[i], t)])
    ensures Rel(s', a', q) && a'.h == a.h
  {
    PeerFacts(s, a, q, i);
    LaterRefl(a.h);
    a' := FollowTerm(a, i, t);
    Local(s, a, q, i, Heard(s.nodes[i], t), HeardPeer(a.peers[i], t), s', a');
  }

  lemma StepCrash(s: Sys, a: P.State, q: seq<set<int>>, c: AppendCall) returns (a': P.State)
    requires Rel(s, a, q) && Enabled(s, HandleAppend(c)) && AfterAppend(s.nodes[c.to], c.args).Crashed?
    ensures Rel(After(s, HandleAppend(c)), a', q) && a'.h == a.h
  {
    var i := c.to;
    PeerFacts(s, a, q, i);
    RejectedNode(s.nodes[i], c.args);
    var node := Heard(s.nodes[i], c.args.term);
    var s1 := s.(nodes := s.nodes[i := node]);
    var a1 := HearOnly(s, a, q, i, c.args.term, s1);
    Overwrite(s.nodes, i, node, Restarted(node));
    a' := Reborn(s1, a1, q, i, After(s, HandleAppend(c)));
  }
}
