/**
 What a leader's bookkeeping means in terms of the run: a matchIndex records a moment at which that
 peer, in the leader's term, held the leader's log through the index; and when a leader's commit index
 rises, a majority of the peers has had such a moment.
 */
module RaftQuorum {
  import opened Options
  import opened RaftTypes
  import opened RaftLog
  import opened RaftLedger
  import P = RaftProtocol
  import opened RaftNode
  import opened RaftCompaction
  import opened RaftSystem
  import opened RaftSimulation
  import opened RaftSteps
  import opened RaftSafety

  // ---------------------------------------------------------------- acceptances have a moment

  /** The protocol state behind a moment has the acceptance of b through m, and h is its ledger or a later one. */
  ghost predicate Recorded(s: Sys, a: P.State, q: seq<set<int>>, b: Ballot, m: int, h: Ledger) {
    Rel(s, a, q) && Later(a.h, h) && Acked(a.h, b.peer, b.term, m)
  }

  ghost predicate AckMoment(states: seq<Sys>, j: int, b: Ballot, m: int, h: Ledger) {
    && 0 <= j < |states| && 0 <= b.peer < |states[j].nodes|
    && states[j].nodes[b.peer].currentTerm == b.term
    && exists a, q :: Recorded(states[j], a, q, b, m, h)
  }

  /** Every acceptance in the ledger was made at some moment up to k, by a peer then in that term. */
  ghost predicate Witnessed(states: seq<Sys>, k: int, h: Ledger) {
    forall b | b in h.acks :: exists j :: j <= k && AckMoment(states, j, b, h.acks[b], h)
  }

  lemma MomentLater(states: seq<Sys>, j: int, b: Ballot, m: int, h: Ledger, h': Ledger)
    requires AckMoment(states, j, b, m, h) && Later(h, h')
    ensures AckMoment(states, j, b, m, h')
  {
    var a, q :| Recorded(states[j], a, q, b, m, h);
    LaterTransitive(a.h, h, h');
    assert Recorded(states[j], a, q, b, m, h');
  }

  lemma WitnessedNext(states: seq<Sys>, k: int, h: Ledger, a: P.State, q: seq<set<int>>)
    requires 0 <= k < |states| - 1 && Witnessed(states, k, h)
    requires Rel(states[k + 1], a, q) && Later(h, a.h) && AcksNow(h, a.h, states[k + 1])
    ensures Witnessed(states, k + 1, a.h)
  {
    forall b | b in a.h.acks
      ensures exists j :: j <= k + 1 && AckMoment(states, j, b, a.h.acks[b], a.h)
    {
      if b in h.acks && a.h.acks[b] == h.acks[b] {
        var j :| j <= k && AckMoment(states, j, b, h.acks[b], h);
        MomentLater(states, j, b, h.acks[b], h, a.h);
      } else {
        LaterRefl(a.h);
        assert Recorded(states[k + 1], a, q, b, a.h.acks[b], a.h);
        assert AckMoment(states, k + 1, b, a.h.acks[b], a.h);
      }
    }
  }

  lemma {:induction false} WitnessedRun(states: seq<Sys>, steps: seq<Step>, k: int)
    returns (a: P.State, q: seq<set<int>>)
    requires IsRun(states, steps) && OneRoundPerTerm(states[|steps|]) && 0 <= k <= |steps|
    ensures Rel(states[k], a, q) && Witnessed(states, k, a.h)
    decreases k
  {
    if k == 0 {
      a, q := InitRel(states[0]);
    } else {
      var a0, q0 := WitnessedRun(states, steps, k - 1);
      a, q := SimulateNext(states, steps, k - 1, a0, q0);
      WitnessedNext(states, k - 1, a0.h, a, q);
    }
  }

  // ---------------------------------------------------------------- in terms of the peers

  /** In term t the peer holds the leader's log through m. */
  ghost predicate HeldThrough(peer: Node, leader: Node, t: int, m: int) {
    && peer.currentTerm == t
    && m <= LastIndex(peer) && m <= LastIndex(leader)
    && forall x | 0 < x <= m && Reaches(peer, x) && Reaches(leader, x) :: SameAt(peer, leader, x)
  }

  /** At some moment up to k peer r held the leader's log through m, in term t. */
  ghost predicate HasHeld(states: seq<Sys>, k: int, r: int, leader: Node, t: int, m: int) {
    exists j :: 0 <= j <= k && j < |states| && 0 <= r < |states[j].nodes| && HeldThrough(states[j].nodes[r], leader, t, m)
  }

  lemma AgreeHeld(peer: Node, leader: Node, f: Log, l: Log, t: int, m: int)
    requires Compacts(peer, f) && Compacts(leader, l) && Agree(f, l, m) && peer.currentTerm == t
    ensures HeldThrough(peer, leader, t, m)
  {
    forall x | 0 < x <= m && Reaches(peer, x) && Reaches(leader, x)
      ensures SameAt(peer, leader, x)
    {
      WholeEntry(peer, f, x);
      WholeEntry(leader, l, x);
    }
  }

  /** At the moment of an acceptance the accepting peer agrees with the leader of that term. */
  lemma MomentAgrees(n: nat, r: int, p: P.Peer, h: Ledger, m: int)
    requires P.PeerOk(n, r, p, h) && AcksOk(h) && Acked(h, r, p.term, m) && 0 <= m
    ensures p.term in h.leaderLogs && Agree(p.log, h.leaderLogs[p.term], m)
  {
    assert Inherited(h, p.term, m, p.term + 1);
  }

  lemma MomentHeld(states: seq<Sys>, j: int, k: int, r: int, leader: Node, l: Log, m: int, h: Ledger)
    requires 0 <= j <= k && m >= 0 && AckMoment(states, j, Ballot(r, leader.currentTerm), m, h)
    requires leader.currentTerm in h.leaderLogs && Compacts(leader, l) && l == h.leaderLogs[leader.currentTerm]
    ensures HasHeld(states, k, r, leader, leader.currentTerm, m)
  {
    var t := leader.currentTerm;
    var a, q :| Recorded(states[j], a, q, Ballot(r, t), m, h);
    PeerFacts(states[j], a, q, r);
    MomentAgrees(|states[j].nodes|, r, a.peers[r], a.h, m);
    assert Prefix(a.h.leaderLogs[t], h.leaderLogs[t]);
    AgreeHeld(states[j].nodes[r], leader, a.peers[r].log, l, t, m);
  }

  /** A leader's acceptances, as the ledger has them, were moments of the run. */
  lemma AckedHasHeld(states: seq<Sys>, k: int, p: int, r: int, node: Node, a: P.State, q: seq<set<int>>, m: int)
    requires 0 <= k < |states| && Witnessed(states, k, a.h) && Rel(states[k], a, q) && 0 <= p < |states[k].nodes|
    requires states[k].nodes[p].role == Leader && m > 0 && Acked(a.h, r, states[k].nodes[p].currentTerm, m)
    requires node.currentTerm == states[k].nodes[p].currentTerm && |a.peers| == |states[k].nodes|
    requires Compacts(node, a.peers[p].log)
    ensures HasHeld(states, k, r, node, node.currentTerm, m)
  {
    PeerFacts(states[k], a, q, p);
    var b := Ballot(r, node.currentTerm);
    var j :| j <= k && AckMoment(states, j, b, a.h.acks[b], a.h);
    LowerMoment(states, j, b, a.h.acks[b], m, a.h);
    MomentHeld(states, j, k, r, node, a.peers[p].log, m, a.h);
  }

  lemma LowerMoment(states: seq<Sys>, j: int, b: Ballot, m: int, m': int, h: Ledger)
    requires AckMoment(states, j, b, m, h) && m' <= m
    ensures AckMoment(states, j, b, m', h)
  {
    var a, q :| Recorded(states[j], a, q, b, m, h);
    assert Recorded(states[j], a, q, b, m', h);
  }

  // ---------------------------------------------------------------- the theorems

  /** A positive matchIndex of a leader: that peer did hold the leader's log through it, in the leader's term. */
  lemma MatchIndexHeld(states: seq<Sys>, steps: seq<Step>, k: int, p: int, r: int)
    requires IsRun(states, steps) && OneRoundPerTerm(states[|steps|]) && 0 <= k <= |steps|
    requires 0 <= p < |states[k].nodes| && 0 <= r < |states[k].nodes| && p != r && states[k].nodes[p].role == Leader
    ensures
      var s := states[k].nodes[p];
      r < |s.matchIndex| && (s.matchIndex[r] > 0 ==> HasHeld(states, k, r, s, s.currentTerm, s.matchIndex[r]))
  {
    var a, q := WitnessedRun(states, steps, k);
    var s := states[k].nodes[p];
    PeerFacts(states[k], a, q, p);
    if s.matchIndex[r] > 0 {
      AckedHasHeld(states, k, p, r, s, a, q, s.matchIndex[r]);
    }
  }

  /** Only an answer to one of its requests moves the commit index of a peer that is leader afterwards. */
  lemma LeaderCommits(s: Sys, step: Step, p: int)
    requires Enabled(s, step) && 0 <= p < |s.nodes|
    requires var y := After(s, step).nodes[p]; y.role == Leader && y.commitIndex > s.nodes[p].commitIndex
    ensures step.HandleAppendResponse? && step.aresponse.call.args.leader == p && s.nodes[p].role == Leader
    ensures s.nodes[p].currentTerm == step.aresponse.call.args.term
    ensures step.aresponse.reply.term <= s.nodes[p].currentTerm
    ensures step.aresponse.reply.success
    ensures 0 <= step.aresponse.call.to < |s.nodes[p].nextIndex| && step.aresponse.call.to < |s.nodes[p].matchIndex|
    ensures
      var r := step.aresponse;
      After(s, step).nodes[p] == AfterAppendReply(s.nodes[p], r.call.to, r.call.args, r.reply)
    ensures step.aresponse in s.appendResponses
  {
  }

  /** The count behind a risen commit index, as acceptances. */
  lemma RisenQuorum(n: nat, s: Node, x: P.Peer, h: Ledger, r: AppendResponse) returns (q: set<int>)
    requires NodeRel(n, s.me, s, x) && LeaderRel(n, s, h) && P.PeerOk(n, s.me, x, h) && AppendResponseOk(n, h, r)
    requires s.role == Leader && 0 <= s.me < n && 0 <= r.call.to < |s.nextIndex| && r.call.to < |s.matchIndex|
    requires s.currentTerm == r.call.args.term && r.reply.term <= s.currentTerm && r.reply.success
    requires AfterAppendReply(s, r.call.to, r.call.args, r.reply).commitIndex > s.commitIndex
    ensures var c := AfterAppendReply(s, r.call.to, r.call.args, r.reply).commitIndex;
      Quorum(n, q) && AckedByAll(h, q, s.currentTerm, c) && c > 0
  {
    var node := RepliedLeader(n, s, h, r);
    var base := node.(commitIndex := s.commitIndex);
    q := CommittableQuorum(n, h, base, x, node.commitIndex);
  }

  ghost predicate HeldByAll(states: seq<Sys>, k: int, q: set<int>, leader: Node, c: int) {
    forall r | r in q :: HasHeld(states, k, r, leader, leader.currentTerm, c)
  }

  /** When a leader's commit index rises, a majority of the peers, in its term, has held its log through it. */
  lemma CommitHasQuorum(states: seq<Sys>, steps: seq<Step>, k: int, p: int) returns (q: set<int>)
    requires IsRun(states, steps) && OneRoundPerTerm(states[|steps|]) && 0 <= k < |steps| && 0 <= p < |states[k].nodes|
    requires |states[k + 1].nodes| == |states[k].nodes|
    requires states[k + 1].nodes[p].role == Leader
    requires states[k + 1].nodes[p].commitIndex > states[k].nodes[p].commitIndex
    ensures Quorum(|states[k].nodes|, q)
    ensures HeldByAll(states, k, q, states[k + 1].nodes[p], states[k + 1].nodes[p].commitIndex)
  {
    assert StepAt(states, steps, k);
    LeaderCommits(states[k], steps[k], p);
    var a, qa := WitnessedRun(states, steps, k);
    q := AnsweredQuorum(states, k, p, steps[k].aresponse, states[k + 1].nodes[p], a, qa);
  }

  lemma AnsweredQuorum(states: seq<Sys>, k: int, p: int, r: AppendResponse, y: Node, a: P.State, qa: seq<set<int>>)
    returns (q: set<int>)
    requires 0 <= k < |states| && Witnessed(states, k, a.h) && Rel(states[k], a, qa) && 0 <= p < |states[k].nodes|
    requires states[k].nodes[p].role == Leader && r in states[k].appendResponses
    requires 0 <= r.call.to < |states[k].nodes[p].nextIndex| && r.call.to < |states[k].nodes[p].matchIndex|
    requires y == AfterAppendReply(states[k].nodes[p], r.call.to, r.call.args, r.reply)
    requires y.commitIndex > states[k].nodes[p].commitIndex
    requires states[k].nodes[p].currentTerm == r.call.args.term && r.reply.term <= states[k].nodes[p].currentTerm
    requires r.reply.success
    ensures Quorum(|states[k].nodes|, q) && HeldByAll(states, k, q, y, y.commitIndex)
  {
    PeerFacts(states[k], a, qa, p);
    var s, n := states[k].nodes[p], |states[k].nodes|;
    q := RisenQuorum(n, s, a.peers[p], a.h, r) by { assert AppendResponseOk(n, a.h, r); }
    forall v | v in q ensures HasHeld(states, k, v, y, y.currentTerm, y.commitIndex) {
      AckedHasHeld(states, k, p, v, y, a, qa, y.commitIndex);
    }
  }
}
