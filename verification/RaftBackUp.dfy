/**
 The fast back-up of nextIndex makes progress: in every reachable state, a rejection by the
 consistency check strictly lowers the leader's nextIndex for that follower, or sets it right after
 the follower's snapshot, where the next request is accepted. The case in which the leader holds entries
 of the conflicting term needs Log Matching; the case of a follower's snapshot, Leader Completeness.
 */
module RaftBackUp {
  import opened Options
  import opened RaftTypes
  import opened RaftLog
  import opened RaftLedger
  import P = RaftProtocol
  import opened RaftNode
  import opened RaftCompaction
  import opened RaftSystem
  import opened RaftSimulation
  import opened RaftSteps
  import opened RaftSafety

  /** A leader and a follower, with the whole logs behind them, both drawn from the same leaders' logs. */
  ghost predicate Facing(leader: Node, follower: Node, l: Log, f: Log, leaderLogs: map<int, Log>, r: int) {
    && leader.role == Leader
    && 0 <= r < |leader.nextIndex| && r < |leader.matchIndex|
    && leader.nextIndex[r] >= 1
    && follower.currentTerm <= leader.currentTerm
    && Compacts(leader, l) && Compacts(follower, f)
    && LeaderLogsOk(leaderLogs) && WellMatched(l, leaderLogs) && WellMatched(f, leaderLogs)
    && follower.lastIncludedIndex < |l| && l[follower.lastIncludedIndex].term == follower.lastIncludedTerm
  }

  /** The leader would send entries now, not a snapshot. */
  predicate Askable(leader: Node, r: int)
    requires 0 <= r < |leader.nextIndex|
  {
    leader.lastIncludedIndex < leader.nextIndex[r]
  }

  /** The request reaches below the follower's snapshot. */
  predicate TooLow(leader: Node, follower: Node, r: int)
    requires 0 <= r < |leader.nextIndex|
  {
    leader.nextIndex[r] - 1 < follower.lastIncludedIndex
  }

  function Request(leader: Node, r: int): AppendArgs
    requires 0 <= r < |leader.nextIndex| && leader.lastIncludedIndex < leader.nextIndex[r]
  {
    AppendFor(leader, leader.nextIndex[r])
  }

  /** Entries of the follower's conflicting term in the leader's log all lie before the point of conflict. */
  lemma ConflictLiesBefore(l: Log, f: Log, leaderLogs: map<int, Log>, prev: int, x: int)
    requires WellMatched(l, leaderLogs) && WellMatched(f, leaderLogs)
    requires 1 <= prev < |f| && 1 <= x < |l| && l[x].term == f[prev].term
    requires prev < |l| ==> l[prev].term != f[prev].term
    ensures x < prev
  {
    assert Sourced(l, x, leaderLogs) && Sourced(f, prev, leaderLogs);
  }

  lemma RejectionAnswer(leader: Node, follower: Node, l: Log, f: Log, leaderLogs: map<int, Log>, r: int)
    requires Facing(leader, follower, l, f, leaderLogs, r) && Askable(leader, r)
    requires !Consistent(follower, Request(leader, r))
    ensures
      var a := Request(leader, r);
      var o := AfterAppend(follower, a);
      var hint := Conflict(follower, a);
      && o == Answered(Heard(follower, a.term), AppendReply(follower.currentTerm, false, hint.0, hint.1))
      && (if TooLow(leader, follower, r) then BackUp(leader, o.reply) == follower.lastIncludedIndex + 1
          else 1 <= BackUp(leader, o.reply) < leader.nextIndex[r])
  {
    var a := Request(leader, r);
    var prev := a.prevLogIndex;
    var hint := Conflict(follower, a);
    SameIndexes(follower, f);
    if follower.lastIncludedIndex <= prev < |f| {
      var p := LastPosition(leader.log, hint.0, |leader.log| - 1);
      TermsAscend(f, leaderLogs, prev, prev);
      if p >= 1 {
        var x := leader.lastIncludedIndex + p;
        assert leader.log[p] == l[x];
        RequestTerm(leader, l, r);
        ConflictLiesBefore(l, f, leaderLogs, prev, x);
      }
    }
  }

  /** A request that starts right after the follower's snapshot is not rejected. */
  lemma AfterSnapshotFits(leader: Node, follower: Node, l: Log, f: Log, leaderLogs: map<int, Log>, r: int)
    requires Facing(leader, follower, l, f, leaderLogs, r) && Askable(leader, r)
    requires leader.nextIndex[r] == follower.lastIncludedIndex + 1
    ensures Consistent(follower, Request(leader, r))
  {
    RequestTerm(leader, l, r);
    SameIndexes(follower, f);
  }

  lemma RequestTerm(leader: Node, l: Log, r: int)
    requires Compacts(leader, l) && l[0].term == 0 && 0 <= r < |leader.nextIndex|
    requires 0 <= leader.lastIncludedIndex < leader.nextIndex[r]
    ensures
      var a := Request(leader, r);
      a.prevLogIndex == leader.nextIndex[r] - 1 && (a.prevLogIndex < |l| ==> a.prevLogTerm == l[a.prevLogIndex].term)
  {
    var k := leader.nextIndex[r] - 1 - leader.lastIncludedIndex;
    if 1 <= k < |leader.log| {
      assert leader.log[k] == l[leader.lastIncludedIndex + k];
    }
  }

  function LeaderNext(leader: Node, follower: Node, r: int): Node
    requires 0 <= r < |leader.nextIndex| && r < |leader.matchIndex| && leader.lastIncludedIndex < leader.nextIndex[r]
    requires AfterAppend(follower, Request(leader, r)).Answered?
  {
    AfterAppendReply(leader, r, Request(leader, r), AfterAppend(follower, Request(leader, r)).reply)
  }

  /** The pair after a rejection: the leader backed up, the follower only in the leader's term. */
  lemma StillFacing(leader: Node, follower: Node, l: Log, f: Log, leaderLogs: map<int, Log>, r: int)
    requires Facing(leader, follower, l, f, leaderLogs, r) && Askable(leader, r)
    requires !Consistent(follower, Request(leader, r))
    ensures AfterAppend(follower, Request(leader, r)).Answered?
    ensures Facing(LeaderNext(leader, follower, r), AfterAppend(follower, Request(leader, r)).node, l, f, leaderLogs, r)
    ensures
      var next := LeaderNext(leader, follower, r);
      next.nextIndex[r] == BackUp(leader, AfterAppend(follower, Request(leader, r)).reply)
  {
    RejectionAnswer(leader, follower, l, f, leaderLogs, r);
  }

  /** How long the exchange can still go on. */
  ghost function Left(leader: Node, follower: Node, r: int): nat
    requires 0 <= r < |leader.nextIndex| && leader.nextIndex[r] >= 1
  {
    if !Askable(leader, r) || Consistent(follower, Request(leader, r)) then 0
    else if TooLow(leader, follower, r) then 1
    else leader.nextIndex[r] + 1
  }

  /** How many requests in a row are rejected before one is accepted or a snapshot is called for. */
  ghost function Rejections(leader: Node, follower: Node, l: Log, f: Log, leaderLogs: map<int, Log>, r: int): (k: nat)
    requires Facing(leader, follower, l, f, leaderLogs, r)
    ensures k < leader.nextIndex[r]
    ensures Askable(leader, r) && TooLow(leader, follower, r) ==> k <= 1
    decreases Left(leader, follower, r)
  {
    if !Askable(leader, r) || Consistent(follower, Request(leader, r)) then 0
    else
      RejectionAnswer(leader, follower, l, f, leaderLogs, r);
      StillFacing(leader, follower, l, f, leaderLogs, r);
      var next, heard := LeaderNext(leader, follower, r), AfterAppend(follower, Request(leader, r)).node;
      assert TooLow(leader, follower, r) && Askable(next, r) ==> Consistent(heard, Request(next, r)) by {
        if TooLow(leader, follower, r) && Askable(next, r) {
          AfterSnapshotFits(next, heard, l, f, leaderLogs, r);
        }
      }
      1 + Rejections(next, heard, l, f, leaderLogs, r)
  }

  /** In every reachable state, any leader and follower face each other in this way. */
  lemma ReachableFacing(states: seq<Sys>, steps: seq<Step>, k: int, p: int, r: int)
    returns (l: Log, f: Log, leaderLogs: map<int, Log>)
    requires IsRun(states, steps) && OneRoundPerTerm(states[|steps|]) && 0 <= k <= |steps|
    requires 0 <= p < |states[k].nodes| && 0 <= r < |states[k].nodes| && p != r
    requires states[k].nodes[p].role == Leader && states[k].nodes[r].currentTerm <= states[k].nodes[p].currentTerm
    ensures Facing(states[k].nodes[p], states[k].nodes[r], l, f, leaderLogs, r)
  {
    var a, b, qa, qb := TwoMoments(states, steps, k, k);
    PeerFacts(states[k], b, qb, p);
    PeerFacts(states[k], b, qb, r);
    l, f, leaderLogs := b.peers[p].log, b.peers[r].log, b.h.leaderLogs;
    Confront(|states[k].nodes|, p, r, states[k].nodes[p], states[k].nodes[r], b.peers[p], b.peers[r], b.h);
  }

  lemma Confront(n: nat, p: int, r: int, leader: Node, follower: Node, x: P.Peer, y: P.Peer, h: Ledger)
    requires NodeRel(n, p, leader, x) && NodeRel(n, r, follower, y) && LeaderRel(n, leader, h) && LedgerOk(n, h)
    requires P.PeerOk(n, p, x, h) && P.PeerOk(n, r, y, h)
    requires 0 <= r < n && leader.role == Leader && follower.currentTerm <= leader.currentTerm
    ensures Facing(leader, follower, x.log, y.log, h.leaderLogs, r)
  {
    CommittedByLeader(n, p, r, x, y, h, follower.lastIncludedIndex);
  }

  /** What the follower knows committed, the leader has. */
  lemma CommittedByLeader(n: nat, p: int, r: int, x: P.Peer, y: P.Peer, h: Ledger, c: int)
    requires LedgerOk(n, h) && P.PeerOk(n, p, x, h) && P.PeerOk(n, r, y, h)
    requires x.role == Leader && y.term <= x.term && 0 <= c <= y.commit
    ensures c < |x.log| && x.log[c] == y.log[c]
  {
    if c > 0 {
      var t, k :| BackedBy(n, h, y.log, y.commit, y.term, t, k);
      CommittedIn(n, h, t, k, x.term);
    }
  }

  /**
   Back-up progress: in every reachable state a rejected request built from the present nextIndex either
   strictly lowers it, keeping it positive, or, if it reached below the follower's snapshot, sets it right
   after that snapshot, from where the next request is accepted.  In all fewer rejections than nextIndex
   can follow one another.
   */
  lemma BackUpProgress(states: seq<Sys>, steps: seq<Step>, k: int, p: int, r: int)
    returns (l: Log, f: Log, leaderLogs: map<int, Log>)
    requires IsRun(states, steps) && OneRoundPerTerm(states[|steps|]) && 0 <= k <= |steps|
    requires 0 <= p < |states[k].nodes| && 0 <= r < |states[k].nodes| && p != r
    requires states[k].nodes[p].role == Leader && states[k].nodes[r].currentTerm <= states[k].nodes[p].currentTerm
    ensures
      var leader, follower := states[k].nodes[p], states[k].nodes[r];
      && Facing(leader, follower, l, f, leaderLogs, r)
      && Rejections(leader, follower, l, f, leaderLogs, r) < leader.nextIndex[r]
      && (Askable(leader, r) && !Consistent(follower, Request(leader, r)) ==>
            && Request(leader, r).prevLogIndex > 0
            && AfterAppend(follower, Request(leader, r)).Answered?
            && !AfterAppend(follower, Request(leader, r)).reply.success
            && |LeaderNext(leader, follower, r).nextIndex| == |leader.nextIndex|
            && BacksUp(leader, follower, r, LeaderNext(leader, follower, r).nextIndex[r]))
  {
    l, f, leaderLogs := ReachableFacing(states, steps, k, p, r);
    Progress(states[k].nodes[p], states[k].nodes[r], l, f, leaderLogs, r);
  }

  predicate BacksUp(leader: Node, follower: Node, r: int, next: int)
    requires 0 <= r < |leader.nextIndex|
  {
    if TooLow(leader, follower, r) then next == follower.lastIncludedIndex + 1 else 1 <= next < leader.nextIndex[r]
  }

  lemma Progress(leader: Node, follower: Node, l: Log, f: Log, leaderLogs: map<int, Log>, r: int)
    requires Facing(leader, follower, l, f, leaderLogs, r)
    ensures Askable(leader, r) && !Consistent(follower, Request(leader, r)) ==>
      && Request(leader, r).prevLogIndex > 0
      && AfterAppend(follower, Request(leader, r)).Answered?
      && !AfterAppend(follower, Request(leader, r)).reply.success
      && |LeaderNext(leader, follower, r).nextIndex| == |leader.nextIndex|
      && BacksUp(leader, follower, r, LeaderNext(leader, follower, r).nextIndex[r])
  {
    if Askable(leader, r) && !Consistent(follower, Request(leader, r)) {
      RejectionAnswer(leader, follower, l, f, leaderLogs, r);
      StillFacing(leader, follower, l, f, leaderLogs, r);
    }
  }
}
