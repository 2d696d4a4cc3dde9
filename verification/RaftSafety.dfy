/**
 What every run of the cluster guarantees, stated on the peers' own fields and over whole runs:
 any two moments, any two peers. The only condition is that no peer opens two vote rounds in one term.
 */
module RaftSafety {
  import opened Options
  import opened RaftTypes
  import opened RaftLog
  import opened RaftLedger
  import P = RaftProtocol
  import opened RaftElection
  import opened RaftReplication
  import opened RaftNode
  import opened RaftCompaction
  import opened RaftSystem
  import opened RaftSimulation
  import opened RaftSteps
  import opened RaftVoteSteps

  // ---------------------------------------------------------------- simulating a run

  /** An acceptance recorded in the step is one of the term its peer is then in. */
  ghost predicate AcksNow(h: Ledger, h': Ledger, s': Sys) {
    forall b | b in h'.acks ::
      || (b in h.acks && h'.acks[b] == h.acks[b])
      || (0 <= b.peer < |s'.nodes| && s'.nodes[b.peer].currentTerm == b.term)
  }

  lemma AcksOfOne(h: Ledger, h': Ledger, i: int, t: int, s': Sys)
    requires AcksOnly(h, h', i, t) && 0 <= i < |s'.nodes| && s'.nodes[i].currentTerm == t
    ensures AcksNow(h, h', s')
  {
  }

  lemma AcceptorTerm(s: Sys, c: AppendCall)
    requires Enabled(s, HandleAppend(c))
    requires AfterAppend(s.nodes[c.to], c.args).Answered? && AfterAppend(s.nodes[c.to], c.args).reply.success
    ensures var s' := After(s, HandleAppend(c)); |s'.nodes| == |s.nodes| && s'.nodes[c.to].currentTerm == c.args.term
  {
  }

  lemma CounterTerm(s: Sys, r: VoteResponse)
    requires Enabled(s, HandleVoteResponse(r))
    requires
      var node := s.nodes[r.call.args.candidate];
      node.role == Candidate && node.currentTerm == r.call.args.term && r.reply.term <= node.currentTerm && r.reply.granted
    ensures
      var s' := After(s, HandleVoteResponse(r));
      |s'.nodes| == |s.nodes| && s'.nodes[r.call.args.candidate].currentTerm == r.call.args.term
  {
  }

  lemma SimulateAppend(s: Sys, a: P.State, q: seq<set<int>>, c: AppendCall, s': Sys) returns (a': P.State)
    requires Rel(s, a, q) && Enabled(s, HandleAppend(c)) && s' == After(s, HandleAppend(c))
    ensures Rel(s', a', q) && Later(a.h, a'.h) && AcksNow(a.h, a'.h, s')
  {
    LaterRefl(a.h);
    if AfterAppend(s.nodes[c.to], c.args).Crashed? {
      a' := StepCrash(s, a, q, c);
    } else if AfterAppend(s.nodes[c.to], c.args).reply.success {
      a' := StepAccept(s, a, q, c);
      AcceptorTerm(s, c);
      AcksOfOne(a.h, a'.h, c.to, c.args.term, s');
    } else {
      a' := StepReject(s, a, q, c);
    }
  }

  lemma SimulateVoteResponse(s: Sys, a: P.State, q: seq<set<int>>, r: VoteResponse, s': Sys)
    returns (a': P.State, q': seq<set<int>>)
    requires Rel(s, a, q) && Enabled(s, HandleVoteResponse(r)) && s' == After(s, HandleVoteResponse(r))
    ensures Rel(s', a', q') && Later(a.h, a'.h) && AcksNow(a.h, a'.h, s')
  {
    LaterRefl(a.h);
    var node := s.nodes[r.call.args.candidate];
    if node.role == Candidate && node.currentTerm == r.call.args.term && r.reply.term <= node.currentTerm && r.reply.granted {
      a', q' := StepCounted(s, a, q, r);
      CounterTerm(s, r);
      AcksOfOne(a.h, a'.h, r.call.args.candidate, r.call.args.term, s');
    } else {
      a', q' := StepUncounted(s, a, q, r);
    }
  }

  lemma Simulate(s: Sys, a: P.State, q: seq<set<int>>, step: Step, s': Sys) returns (a': P.State, q': seq<set<int>>)
    requires Rel(s, a, q) && Enabled(s, step) && s' == After(s, step) && OneRoundPerTerm(s')
    ensures Rel(s', a', q') && Later(a.h, a'.h) && AcksNow(a.h, a'.h, s')
  {
    LaterRefl(a.h);
    a', q' := a, q;
    match step {
      case Timeout(i) => a', q' := StepTimeout(s, a, q, i);
      case RunElection(i) =>
        assert s'.rounds[Ballot(i, s.nodes[i].currentTerm)] <= 1;
        a', q' := StepRunElection(s, a, q, i);
      case HandleVote(c) => a', q' := StepVote(s, a, q, c);
      case HandleVoteResponse(r) => a', q' := SimulateVoteResponse(s, a, q, r, s');
      case Submit(i, command) =>
        a' := StepSubmit(s, a, q, i, command);
        AcksOfOne(a.h, a'.h, i, s.nodes[i].currentTerm, s');
      case Send(i, to) => StepSend(s, a, q, i, to);
      case HandleAppend(c) => a' := SimulateAppend(s, a, q, c, s');
      case HandleAppendResponse(r) => a' := StepAppendResponse(s, a, q, r);
      case Restart(i) => a' := StepRestart(s, a, q, i);
      case TakeSnapshot(i, index) => StepSnapshot(s, a, q, i, index);
      case Apply(i) => StepApply(s, a, q, i);
    }
  }

  /** Rounds are never forgotten. */
  lemma {:induction false} RoundsGrow(states: seq<Sys>, steps: seq<Step>, j: int, k: int)
    requires IsRun(states, steps) && 0 <= j <= k <= |steps|
    ensures states[j].rounds <= states[k].rounds
    decreases k - j
  {
    if j < k {
      assert StepAt(states, steps, k - 1);
      RoundsGrow(states, steps, j, k - 1);
    }
  }

  lemma SimulateNext(states: seq<Sys>, steps: seq<Step>, k: int, a: P.State, q: seq<set<int>>)
    returns (a': P.State, q': seq<set<int>>)
    requires IsRun(states, steps) && 0 <= k < |steps| && OneRoundPerTerm(states[|steps|])
    requires Rel(states[k], a, q)
    ensures Rel(states[k + 1], a', q') && Later(a.h, a'.h) && AcksNow(a.h, a'.h, states[k + 1])
  {
    assert StepAt(states, steps, k);
    assert OneRoundPerTerm(states[k + 1]) by {
      RoundsGrow(states, steps, k + 1, |steps|);
    }
    a', q' := Simulate(states[k], a, q, steps[k], states[k + 1]);
  }

  /** From a matched moment of a run to any later one, with a ledger that only grows. */
  lemma {:induction false} SimulateFrom(states: seq<Sys>, steps: seq<Step>, j: int, k: int, a: P.State,
                                        q: seq<set<int>>)
    returns (b: P.State, qb: seq<set<int>>)
    requires IsRun(states, steps) && 0 <= j <= k <= |steps| && OneRoundPerTerm(states[|steps|])
    requires Rel(states[j], a, q)
    ensures Rel(states[k], b, qb) && Later(a.h, b.h)
    decreases k - j
  {
    LaterRefl(a.h);
    b, qb := a, q;
    if j < k {
      var a1, q1 := SimulateNext(states, steps, j, a, q);
      b, qb := SimulateFrom(states, steps, j + 1, k, a1, q1);
      LaterTransitive(a.h, a1.h, b.h);
    }
  }

  /** The protocol states behind two moments of a run. */
  lemma TwoMoments(states: seq<Sys>, steps: seq<Step>, j: int, k: int)
    returns (a: P.State, b: P.State, qa: seq<set<int>>, qb: seq<set<int>>)
    requires IsRun(states, steps) && OneRoundPerTerm(states[|steps|]) && 0 <= j <= k <= |steps|
    ensures Rel(states[j], a, qa) && Rel(states[k], b, qb) && Later(a.h, b.h)
    ensures |states[j].nodes| == |states[k].nodes|
  {
    var a0, q0 := InitRel(states[0]);
    a, qa := SimulateFrom(states, steps, 0, j, a0, q0);
    b, qb := SimulateFrom(states, steps, j, k, a, qa);
    SameSize(states, steps, j);
    SameSize(states, steps, k);
  }

  lemma {:induction false} SameSize(states: seq<Sys>, steps: seq<Step>, k: int)
    requires IsRun(states, steps) && 0 <= k <= |steps|
    ensures |states[k].nodes| == |states[0].nodes|
    decreases k
  {
    if k > 0 {
      assert StepAt(states, steps, k - 1);
      SameSize(states, steps, k - 1);
    }
  }

  // ---------------------------------------------------------------- Election Safety

  /** At most one peer is ever leader of a given term. */
  lemma ElectionSafety(states: seq<Sys>, steps: seq<Step>, j: int, k: int, p: int, r: int)
    requires IsRun(states, steps) && OneRoundPerTerm(states[|steps|]) && 0 <= j <= k <= |steps|
    requires 0 <= p < |states[j].nodes| && 0 <= r < |states[k].nodes|
    requires states[j].nodes[p].role == Leader && states[k].nodes[r].role == Leader
    requires states[j].nodes[p].currentTerm == states[k].nodes[r].currentTerm
    ensures p == r
  {
    var a, b, qa, qb := TwoMoments(states, steps, j, k);
    PeerFacts(states[j], a, qa, p);
    PeerFacts(states[k], b, qb, r);
  }

  // ---------------------------------------------------------------- Log Matching

  /** The peer still holds index x as an entry, not only inside its snapshot. */
  predicate Holds(s: Node, x: int) {
    s.lastIncludedIndex < x <= LastIndex(s)
  }

  function EntryAt(s: Node, x: int): Entry
    requires Holds(s, x)
  {
    s.log[x - s.lastIncludedIndex]
  }

  /** Same entry where both hold the index, same term where one of them holds it as its snapshot position. */
  predicate SameAt(s: Node, t: Node, x: int) {
    && TermAt(s, x) == TermAt(t, x)
    && (Holds(s, x) && Holds(t, x) ==> EntryAt(s, x) == EntryAt(t, x))
  }

  predicate Reaches(s: Node, x: int) {
    s.lastIncludedIndex <= x <= LastIndex(s)
  }

  lemma WholeEntry(s: Node, full: Log, x: int)
    requires Compacts(s, full) && Reaches(s, x)
    ensures 0 <= x < |full| && TermAt(s, x) == full[x].term
    ensures Holds(s, x) ==> EntryAt(s, x) == full[x]
  {
    EntryThere(s, full, x);
  }

  /**
   Logs that have one term, at indexes x and y, at any two moments, agree at every index up to the
   lower of the two. So a term's entries are in the same places in all logs that have them.
   */
  lemma LogMatching(states: seq<Sys>, steps: seq<Step>, j: int, k: int, p: int, r: int, x: int, y: int, z: int)
    requires IsRun(states, steps) && OneRoundPerTerm(states[|steps|]) && 0 <= j <= k <= |steps|
    requires 0 <= p < |states[j].nodes| && 0 <= r < |states[k].nodes|
    requires Reaches(states[j].nodes[p], x) && Reaches(states[k].nodes[r], y) && (x == y || (x >= 1 && y >= 1))
    requires TermAt(states[j].nodes[p], x) == TermAt(states[k].nodes[r], y)
    requires z <= x && z <= y && Reaches(states[j].nodes[p], z) && Reaches(states[k].nodes[r], z)
    ensures SameAt(states[j].nodes[p], states[k].nodes[r], z)
  {
    var a, b, qa, qb := TwoMoments(states, steps, j, k);
    PeerFacts(states[j], a, qa, p);
    PeerFacts(states[k], b, qb, r);
    WellMatchedLater(a.peers[p].log, a.h, b.h);
    WholeEntry(states[j].nodes[p], a.peers[p].log, x);
    WholeEntry(states[k].nodes[r], b.peers[r].log, y);
    OneBlock(a.peers[p].log, b.peers[r].log, b.h.leaderLogs, x, y);
    WholeEntry(states[j].nodes[p], a.peers[p].log, z);
    WholeEntry(states[k].nodes[r], b.peers[r].log, z);
  }

  /** Every entry of a term, in any log at any moment, is in the log of a leader of that term from then on. */
  lemma LeaderHasBlock(states: seq<Sys>, steps: seq<Step>, j: int, k: int, p: int, r: int, x: int)
    requires IsRun(states, steps) && OneRoundPerTerm(states[|steps|]) && 0 <= j <= k <= |steps|
    requires 0 <= p < |states[j].nodes| && 0 <= r < |states[k].nodes| && states[k].nodes[r].role == Leader
    requires x >= 1 && Reaches(states[j].nodes[p], x) && TermAt(states[j].nodes[p], x) == states[k].nodes[r].currentTerm
    ensures x <= LastIndex(states[k].nodes[r])
    ensures Reaches(states[k].nodes[r], x) ==> SameAt(states[j].nodes[p], states[k].nodes[r], x)
  {
    var a, b, qa, qb := TwoMoments(states, steps, j, k);
    var s, t := states[j].nodes[p], states[k].nodes[r];
    PeerFacts(states[j], a, qa, p);
    PeerFacts(states[k], b, qb, r);
    WellMatchedLater(a.peers[p].log, a.h, b.h);
    WholeEntry(s, a.peers[p].log, x);
    assert Sourced(a.peers[p].log, x, b.h.leaderLogs);
    SameIndexes(t, b.peers[r].log);
    if Reaches(t, x) {
      WholeEntry(t, b.peers[r].log, x);
    }
  }

  // ---------------------------------------------------------------- Leader Completeness

  /** What a peer knows committed at one moment, every leader of its term or a later one holds at any later moment. */
  lemma LeaderHasCommitted(states: seq<Sys>, steps: seq<Step>, j: int, k: int, p: int, r: int, x: int)
    requires IsRun(states, steps) && OneRoundPerTerm(states[|steps|]) && 0 <= j <= k <= |steps|
    requires 0 <= p < |states[j].nodes| && 0 <= r < |states[k].nodes|
    requires states[k].nodes[r].role == Leader && states[k].nodes[r].currentTerm >= states[j].nodes[p].currentTerm
    requires 0 < x <= states[j].nodes[p].commitIndex
    ensures x <= LastIndex(states[k].nodes[r])
    ensures Reaches(states[j].nodes[p], x) && Reaches(states[k].nodes[r], x) ==>
        SameAt(states[j].nodes[p], states[k].nodes[r], x)
  {
    var a, b, qa, qb := TwoMoments(states, steps, j, k);
    var n := |states[k].nodes|;
    var s, t := states[j].nodes[p], states[k].nodes[r];
    PeerFacts(states[j], a, qa, p);
    PeerFacts(states[k], b, qb, r);
    BackedLater(n, a.h, b.h, a.peers[p].log, s.commitIndex, s.currentTerm, t.currentTerm);
    var u, c :| BackedBy(n, b.h, a.peers[p].log, s.commitIndex, t.currentTerm, u, c);
    CommittedIn(n, b.h, u, c, t.currentTerm);
    assert a.peers[p].log[x] == b.peers[r].log[x];
    SameIndexes(t, b.peers[r].log);
    if Reaches(s, x) && Reaches(t, x) {
      WholeEntry(s, a.peers[p].log, x);
      WholeEntry(t, b.peers[r].log, x);
    }
  }

  /** A leader of a strictly later term held it even before that peer learnt of the commitment. */
  lemma LaterLeaderHadCommitted(states: seq<Sys>, steps: seq<Step>, k: int, j: int, r: int, p: int, x: int)
    requires IsRun(states, steps) && OneRoundPerTerm(states[|steps|]) && 0 <= k <= j <= |steps|
    requires 0 <= p < |states[j].nodes| && 0 <= r < |states[k].nodes|
    requires states[k].nodes[r].role == Leader && states[k].nodes[r].currentTerm > states[j].nodes[p].currentTerm
    requires 0 < x <= states[j].nodes[p].commitIndex
    ensures x <= LastIndex(states[k].nodes[r])
    ensures Reaches(states[j].nodes[p], x) && Reaches(states[k].nodes[r], x) ==>
        SameAt(states[j].nodes[p], states[k].nodes[r], x)
  {
    var a, b, qa, qb := TwoMoments(states, steps, k, j);
    var n := |states[k].nodes|;
    var s, t := states[j].nodes[p], states[k].nodes[r];
    var v := t.currentTerm;
    PeerFacts(states[k], a, qa, r);
    PeerFacts(states[j], b, qb, p);
    var u, c :| BackedBy(n, b.h, b.peers[p].log, s.commitIndex, s.currentTerm, u, c);
    LeaderCompleteness(n, b.h, u, c, v);
    assert ElectionOk(n, v, a.h.elections[v], a.h.leaderLogs[v], a.h.leaderLogs);
    assert b.peers[p].log[x] == a.peers[r].log[x];
    SameIndexes(t, a.peers[r].log);
    if Reaches(s, x) && Reaches(t, x) {
      WholeEntry(s, b.peers[p].log, x);
      WholeEntry(t, a.peers[r].log, x);
    }
  }

  // ---------------------------------------------------------------- State Machine Safety

  /** No two peers, at any two moments, know different entries committed at one index. */
  lemma StateMachineSafety(states: seq<Sys>, steps: seq<Step>, j: int, k: int, p: int, r: int, x: int)
    requires IsRun(states, steps) && OneRoundPerTerm(states[|steps|]) && 0 <= j <= k <= |steps|
    requires 0 <= p < |states[j].nodes| && 0 <= r < |states[k].nodes|
    requires 0 < x <= states[j].nodes[p].commitIndex && x <= states[k].nodes[r].commitIndex
    ensures x <= LastIndex(states[j].nodes[p]) && x <= LastIndex(states[k].nodes[r])
    ensures Reaches(states[j].nodes[p], x) && Reaches(states[k].nodes[r], x) ==>
        SameAt(states[j].nodes[p], states[k].nodes[r], x)
  {
    var a, b, qa, qb := TwoMoments(states, steps, j, k);
    var n := |states[k].nodes|;
    var s, t := states[j].nodes[p], states[k].nodes[r];
    PeerFacts(states[j], a, qa, p);
    PeerFacts(states[k], b, qb, r);
    BackedLater(n, a.h, b.h, a.peers[p].log, s.commitIndex, s.currentTerm, s.currentTerm);
    BackedAgree(n, b.h, a.peers[p].log, s.commitIndex, s.currentTerm, b.peers[r].log, t.commitIndex, t.currentTerm, x);
    SameIndexes(s, a.peers[p].log);
    SameIndexes(t, b.peers[r].log);
    if Reaches(s, x) && Reaches(t, x) {
      WholeEntry(s, a.peers[p].log, x);
      WholeEntry(t, b.peers[r].log, x);
    }
  }

  /** The services of all peers, over all restarts, are handed the same command at each index. */
  lemma ServicesAgree(states: seq<Sys>, steps: seq<Step>, d: Delivery, e: Delivery)
    requires IsRun(states, steps) && OneRoundPerTerm(states[|steps|])
    requires d in states[|steps|].delivered && e in states[|steps|].delivered && d.index == e.index
    ensures d.command == e.command
  {
    var a, b, qa, qb := TwoMoments(states, steps, |steps|, |steps|);
    DeliveriesAgree(|states[|steps|].nodes|, b.h, d, e);
  }

  lemma DeliveriesAgree(n: nat, h: Ledger, d: Delivery, e: Delivery)
    requires LedgerOk(n, h) && DeliveryOk(n, h, d) && DeliveryOk(n, h, e) && d.index == e.index
    ensures d.command == e.command
  {
    var t, k :| DeliveredBy(n, h, d, t, k);
    var u, l :| DeliveredBy(n, h, e, u, l);
    if t <= u {
      CommittedIn(n, h, t, k, u);
    } else {
      CommittedIn(n, h, u, l, t);
    }
  }

  // ---------------------------------------------------------------- replication bookkeeping

  /** Every request ever sent reaches as far as the commitment it announces. */
  lemma CommitClamp(states: seq<Sys>, steps: seq<Step>, k: int, c: AppendCall)
    requires IsRun(states, steps) && OneRoundPerTerm(states[|steps|]) && 0 <= k <= |steps| && c in states[k].appendCalls
    ensures 0 <= c.args.leaderCommit <= c.args.prevLogIndex + |c.args.entries|
  {
    var a, b, qa, qb := TwoMoments(states, steps, k, k);
    assert AppendCallOk(|states[k].nodes|, b.h, c);
  }

  /** A leader's matchIndex for a peer still in the leader's term is an index through which their logs agree. */
  lemma MatchIndexSound(states: seq<Sys>, steps: seq<Step>, k: int, p: int, r: int, x: int)
    requires IsRun(states, steps) && OneRoundPerTerm(states[|steps|]) && 0 <= k <= |steps|
    requires 0 <= p < |states[k].nodes| && 0 <= r < |states[k].nodes| && p != r
    requires states[k].nodes[p].role == Leader && states[k].nodes[r].currentTerm == states[k].nodes[p].currentTerm
    requires |states[k].nodes[p].matchIndex| == |states[k].nodes| ==> 0 < x <= states[k].nodes[p].matchIndex[r]
    ensures |states[k].nodes[p].matchIndex| == |states[k].nodes|
    ensures x <= LastIndex(states[k].nodes[p]) && x <= LastIndex(states[k].nodes[r])
    ensures Reaches(states[k].nodes[p], x) && Reaches(states[k].nodes[r], x) ==>
        SameAt(states[k].nodes[p], states[k].nodes[r], x)
  {
    var a, b, qa, qb := TwoMoments(states, steps, k, k);
    var s, t := states[k].nodes[p], states[k].nodes[r];
    PeerFacts(states[k], b, qb, p);
    PeerFacts(states[k], b, qb, r);
    var m := s.matchIndex[r];
    assert Acked(b.h, r, s.currentTerm, m);
    assert Inherited(b.h, s.currentTerm, m, s.currentTerm + 1);
    assert Agree(b.peers[r].log, b.h.leaderLogs[s.currentTerm], m);
    SameIndexes(s, b.peers[p].log);
    SameIndexes(t, b.peers[r].log);
    if Reaches(s, x) && Reaches(t, x) {
      WholeEntry(s, b.peers[p].log, x);
      WholeEntry(t, b.peers[r].log, x);
    }
  }

  // ---------------------------------------------------------------- what one peer never loses

  /** A step keeps or raises a peer's commit index, or leaves its log alone. */
  lemma CommitOrLog(s: Sys, step: Step, i: int)
    requires Enabled(s, step) && 0 <= i < |s.nodes| && s.nodes[i].log != [] && s.nodes[i].lastIncludedIndex >= 0
    requires step.HandleAppend? ==>
        step.acall.args.leaderCommit <= step.acall.args.prevLogIndex + |step.acall.args.entries|
    ensures
      var x, y := s.nodes[i], After(s, step).nodes[i];
      x.commitIndex <= y.commitIndex || (y.log == x.log && y.lastIncludedIndex == x.lastIncludedIndex)
  {
    if step.HandleAppend? && step.acall.to == i && AfterAppend(s.nodes[i], step.acall.args).Answered?
       && AfterAppend(s.nodes[i], step.acall.args).reply.success {
      AcceptRaises(s.nodes[i], step.acall.args);
    }
  }

  lemma AcceptRaises(s: Node, a: AppendArgs)
    requires s.log != [] && s.lastIncludedIndex >= 0 && a.leaderCommit <= a.prevLogIndex + |a.entries|
    requires AfterAppend(s, a).Answered? && AfterAppend(s, a).reply.success
    ensures s.commitIndex <= AfterAppend(s, a).node.commitIndex
  {
    if |a.entries| > 0 {
      assert |LogMerged(s, a)| >= a.prevLogIndex + 1 - s.lastIncludedIndex + |a.entries|;
    }
  }

  /** No step cuts a peer's log at or below its commit index, or changes an entry there. */
  lemma NeverCutsCommitted(states: seq<Sys>, steps: seq<Step>, k: int, i: int, x: int)
    requires IsRun(states, steps) && OneRoundPerTerm(states[|steps|]) && 0 <= k < |steps|
    requires 0 <= i < |states[k].nodes| && 0 < x <= states[k].nodes[i].commitIndex
    ensures |states[k + 1].nodes| == |states[k].nodes|
    ensures x <= LastIndex(states[k + 1].nodes[i])
    ensures Reaches(states[k].nodes[i], x) && Reaches(states[k + 1].nodes[i], x) ==>
        SameAt(states[k].nodes[i], states[k + 1].nodes[i], x)
  {
    StepEffect(states, steps, k, i);
    if x <= states[k + 1].nodes[i].commitIndex {
      StateMachineSafety(states, steps, k, k + 1, i, i, x);
    } else {
      StateMachineSafety(states, steps, k, k, i, i, x);
    }
  }

  lemma StepEffect(states: seq<Sys>, steps: seq<Step>, k: int, i: int)
    requires IsRun(states, steps) && OneRoundPerTerm(states[|steps|]) && 0 <= k < |steps| && 0 <= i < |states[k].nodes|
    ensures |states[k + 1].nodes| == |states[k].nodes|
    ensures
      var x, y := states[k].nodes[i], states[k + 1].nodes[i];
      x.commitIndex <= y.commitIndex || (y.log == x.log && y.lastIncludedIndex == x.lastIncludedIndex)
  {
    assert StepAt(states, steps, k);
    WellFormedLog(states, steps, k, i);
    if steps[k].HandleAppend? {
      CommitClamp(states, steps, k, steps[k].acall);
    }
    CommitOrLog(states[k], steps[k], i);
  }

  lemma WellFormedLog(states: seq<Sys>, steps: seq<Step>, k: int, i: int)
    requires IsRun(states, steps) && OneRoundPerTerm(states[|steps|]) && 0 <= k <= |steps| && 0 <= i < |states[k].nodes|
    ensures states[k].nodes[i].log != [] && states[k].nodes[i].lastIncludedIndex >= 0
  {
    var a, b, qa, qb := TwoMoments(states, steps, k, k);
    PeerFacts(states[k], b, qb, i);
  }

  lemma StepTerm(s: Sys, step: Step, i: int)
    requires Enabled(s, step) && 0 <= i < |s.nodes|
    ensures
      var x, y := s.nodes[i], After(s, step).nodes[i];
      x.currentTerm <= y.currentTerm && (x.currentTerm == y.currentTerm && x.votedFor != -1 ==> y.votedFor == x.votedFor)
  {
  }

  /** Through restarts and all, a peer's term never falls and it never votes for two candidates in one term. */
  lemma {:induction false} TermAndVoteKept(states: seq<Sys>, steps: seq<Step>, j: int, k: int, i: int)
    requires IsRun(states, steps) && 0 <= j <= k <= |steps| && 0 <= i < |states[j].nodes|
    ensures i < |states[k].nodes| && states[j].nodes[i].currentTerm <= states[k].nodes[i].currentTerm
    ensures states[j].nodes[i].currentTerm == states[k].nodes[i].currentTerm && states[j].nodes[i].votedFor != -1 ==>
        states[k].nodes[i].votedFor == states[j].nodes[i].votedFor
    decreases k - j
  {
    if j < k {
      TermAndVoteKept(states, steps, j, k - 1, i);
      assert StepAt(states, steps, k - 1);
      StepTerm(states[k - 1], steps[k - 1], i);
    }
  }
}
