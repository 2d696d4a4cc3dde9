/**
 The Raft protocol on whole logs, as a state machine whose actions are the smallest
 changes a peer makes: adopt a term, step down, stand for election, open a vote round,
 vote, win, append, accept entries, commit, forget commitment. Every lock-held section
 of the implementation is a sequence of these (see RaftSimulation). `Inv` is inductive.
 */
module RaftProtocol {
  import opened Options
  import opened RaftTypes
  import opened RaftLog
  import opened RaftLedger

  datatype Peer = Peer(term: int, votedFor: int, role: Role, log: Log, commit: int)

  /** A vote, with the voter's log at the moment of voting. */
  datatype Vote = Vote(candidate: int, log: Log)

  datatype Ballots = Ballots(
    rounds: map<Ballot, Log>,      // per candidate and term, the log advertised in its vote round
    votes: map<Ballot, Vote>)      // per voter and term

  datatype State = State(peers: seq<Peer>, h: Ledger, b: Ballots)

  // ---------------------------------------------------------------- the invariant

  ghost predicate VoteOk(n: nat, b: Ballot, vote: Vote, h: Ledger, rounds: map<Ballot, Log>) {
    && 0 <= b.peer < n
    && vote.candidate != -1
    && WellMatched(vote.log, h.leaderLogs)
    && Kept(h, b.peer, vote.log, b.term, b.term + 1)
    && (vote.candidate != b.peer ==>
          && Ballot(vote.candidate, b.term) in rounds
          && rounds[Ballot(vote.candidate, b.term)] != []
          && UpToDate(rounds[Ballot(vote.candidate, b.term)], vote.log))
  }

  ghost predicate VotesOk(n: nat, h: Ledger, bs: Ballots) {
    forall b | b in bs.votes :: VoteOk(n, b, bs.votes[b], h, bs.rounds)
  }

  /** Every voter of a won election did vote for the winner. */
  ghost predicate WonByVotes(elections: map<int, Election>, votes: map<Ballot, Vote>) {
    forall t, v | t in elections && v in elections[t].voters ::
      Ballot(v, t) in votes && votes[Ballot(v, t)].candidate == elections[t].winner
  }

  ghost predicate LogOk(p: Peer, leaderLogs: map<int, Log>) {
    && p.term >= 0
    && WellMatched(p.log, leaderLogs)
    && 0 <= p.commit < |p.log|
    && forall k | 0 <= k < |p.log| :: p.log[k].term <= p.term
  }

  /** The votes and rounds of peer i belong to terms it has reached. */
  ghost predicate VoterOk(i: int, p: Peer, bs: Ballots) {
    && (forall t | Ballot(i, t) in bs.votes ::
          t <= p.term && (t == p.term ==> p.votedFor == bs.votes[Ballot(i, t)].candidate))
    && (forall t | Ballot(i, t) in bs.rounds ::
          t <= p.term && (t == p.term && p.role == Candidate ==> bs.rounds[Ballot(i, t)] == p.log))
    && (p.role == Candidate ==>
          p.term >= 1 && Ballot(i, p.term) in bs.votes && bs.votes[Ballot(i, p.term)] == Vote(i, p.log))
  }

  /** So do its acceptances and the elections it won; a leader's log is the log of its term. */
  ghost predicate ReplicaOk(i: int, p: Peer, h: Ledger) {
    && (forall t | Ballot(i, t) in h.acks :: t <= p.term)
    && (forall t | t in h.elections && h.elections[t].winner == i ::
          t <= p.term && (t == p.term ==> p.role != Candidate))
    && (p.role == Leader ==>
          && p.term in h.elections
          && h.elections[p.term].winner == i
          && p.term in h.leaderLogs
          && h.leaderLogs[p.term] == p.log
          && Acked(h, i, p.term, |p.log| - 1))
  }

  ghost predicate PeerOk(n: nat, i: int, p: Peer, h: Ledger) {
    && LogOk(p, h.leaderLogs)
    && ReplicaOk(i, p, h)
    && Kept(h, i, p.log, p.term + 1, p.term + 1)
    && Backed(n, h, p.log, p.commit, p.term)
  }

  ghost predicate Inv(s: State) {
    && LedgerOk(|s.peers|, s.h)
    && VotesOk(|s.peers|, s.h, s.b)
    && WonByVotes(s.h.elections, s.b.votes)
    && (forall i | 0 <= i < |s.peers| :: PeerOk(|s.peers|, i, s.peers[i], s.h))
    && (forall i | 0 <= i < |s.peers| :: VoterOk(i, s.peers[i], s.b))
  }

  ghost predicate Init(s: State) {
    && (forall i | 0 <= i < |s.peers| :: s.peers[i] == Peer(0, -1, Follower, [Dummy], 0))
    && s.h == Ledger(map[], map[], map[])
    && s.b == Ballots(map[], map[])
  }

  lemma InitInv(s: State)
    requires Init(s)
    ensures Inv(s)
  {
  }

  // ---------------------------------------------------------------- framing

  /** Between h and h', nothing was recorded about peer j. */
  ghost predicate Quiet(h: Ledger, h': Ledger, j: int) {
    && (forall t | Ballot(j, t) in h'.acks :: Ballot(j, t) in h.acks && h'.acks[Ballot(j, t)] == h.acks[Ballot(j, t)])
    && (forall t | t in h'.elections && h'.elections[t].winner == j ::
          t in h.elections && t in h.leaderLogs && t in h'.leaderLogs && h'.leaderLogs[t] == h.leaderLogs[t])
  }

  lemma PeerFrame(n: nat, j: int, p: Peer, h: Ledger, h': Ledger)
    requires PeerOk(n, j, p, h) && Later(h, h') && Quiet(h, h', j) && AcksOk(h)
    ensures PeerOk(n, j, p, h')
  {
    WellMatchedLater(p.log, h, h');
    KeptLater(h, h', j, p.log, p.term + 1, p.term + 1, p.term + 1, p.term + 1);
    BackedLater(n, h, h', p.log, p.commit, p.term, p.term);
  }

  lemma LaterSelf(h: Ledger)
    requires h.elections.Keys == h.leaderLogs.Keys
    ensures Later(h, h)
    ensures forall j :: Quiet(h, h, j)
  {
  }

  /** One peer moved, with no new vote or round, and the ledger grew. */
  lemma Replicated(s: State, i: int, p: Peer, h': Ledger) returns (s': State)
    requires Inv(s) && 0 <= i < |s.peers|
    requires Later(s.h, h') && LedgerOk(|s.peers|, h') && VotesOk(|s.peers|, h', s.b)
    requires WonByVotes(h'.elections, s.b.votes)
    requires forall j | 0 <= j < |s.peers| && j != i :: Quiet(s.h, h', j)
    requires PeerOk(|s.peers|, i, p, h') && VoterOk(i, p, s.b)
    ensures Inv(s') && s'.peers == s.peers[i := p] && s'.h == h' && s'.b == s.b
  {
    s' := State(s.peers[i := p], h', s.b);
    forall j | 0 <= j < |s.peers|
      ensures PeerOk(|s.peers|, j, s'.peers[j], h')
    {
      if j != i {
        PeerFrame(|s.peers|, j, s.peers[j], s.h, h');
      }
    }
  }

  /** One peer moved and nothing was recorded in the ledger. */
  lemma Polled(s: State, i: int, p: Peer, b': Ballots) returns (s': State)
    requires Inv(s) && 0 <= i < |s.peers|
    requires PeerOk(|s.peers|, i, p, s.h) && VoterOk(i, p, b')
    requires VotesOk(|s.peers|, s.h, b') && WonByVotes(s.h.elections, b'.votes)
    requires forall j | 0 <= j < |s.peers| && j != i :: VoterOk(j, s.peers[j], b')
    ensures Inv(s') && s'.peers == s.peers[i := p] && s'.h == s.h && s'.b == b'
  {
    s' := State(s.peers[i := p], s.h, b');
  }

  // ---------------------------------------------------------------- actions that record nothing

  function Adopted(p: Peer, t: int): Peer {
    p.(term := t, votedFor := -1, role := Follower)
  }

  lemma AdoptTerm(s: State, i: int, t: int) returns (s': State)
    requires Inv(s) && 0 <= i < |s.peers| && t > s.peers[i].term
    ensures Inv(s') && s'.peers == s.peers[i := Adopted(s.peers[i], t)] && s'.h == s.h && s'.b == s.b
  {
    assert PeerOk(|s.peers|, i, s.peers[i], s.h);
    AdoptedOk(|s.peers|, i, s.peers[i], s.h, t);
    s' := Polled(s, i, Adopted(s.peers[i], t), s.b);
  }

  lemma AdoptedOk(n: nat, i: int, p: Peer, h: Ledger, t: int)
    requires PeerOk(n, i, p, h) && AcksOk(h) && h.elections.Keys == h.leaderLogs.Keys && t > p.term
    ensures PeerOk(n, i, Adopted(p, t), h)
  {
    LaterSelf(h);
    KeptLater(h, h, i, p.log, p.term + 1, t + 1, p.term + 1, t + 1);
    BackedLater(n, h, h, p.log, p.commit, p.term, t);
  }

  lemma StepDown(s: State, i: int) returns (s': State)
    requires Inv(s) && 0 <= i < |s.peers|
    ensures Inv(s') && s'.peers == s.peers[i := s.peers[i].(role := Follower)] && s'.h == s.h && s'.b == s.b
  {
    assert PeerOk(|s.peers|, i, s.peers[i], s.h);
    s' := Polled(s, i, s.peers[i].(role := Follower), s.b);
  }

  /** The commit index is the only thing that moves, to an index that is justified. */
  lemma RecommitOk(n: nat, i: int, p: Peer, h: Ledger, b: Ballots, c: int)
    requires PeerOk(n, i, p, h) && VoterOk(i, p, b) && 0 <= c < |p.log| && Backed(n, h, p.log, c, p.term)
    ensures PeerOk(n, i, p.(commit := c), h) && VoterOk(i, p.(commit := c), b)
  {
  }

  lemma Recommit(s: State, i: int, c: int) returns (s': State)
    requires Inv(s) && 0 <= i < |s.peers| && 0 <= c < |s.peers[i].log|
    requires Backed(|s.peers|, s.h, s.peers[i].log, c, s.peers[i].term)
    ensures Inv(s') && s'.peers == s.peers[i := s.peers[i].(commit := c)] && s'.h == s.h && s'.b == s.b
  {
    RecommitOk(|s.peers|, i, s.peers[i], s.h, s.b, c);
    s' := Polled(s, i, s.peers[i].(commit := c), s.b);
  }

  /** A restart forgets how much is committed. */
  lemma LowerCommit(s: State, i: int, c: int) returns (s': State)
    requires Inv(s) && 0 <= i < |s.peers| && 0 <= c <= s.peers[i].commit
    ensures Inv(s') && s'.peers == s.peers[i := s.peers[i].(commit := c)] && s'.h == s.h && s'.b == s.b
  {
    var p := s.peers[i];
    assert 0 <= c < |p.log| && Backed(|s.peers|, s.h, p.log, c, p.term) by {
      assert PeerOk(|s.peers|, i, p, s.h);
      BackedLower(|s.peers|, s.h, p.log, p.commit, c, p.term);
    }
    s' := Recommit(s, i, c);
  }

  /** A leader commits an entry of its own term once a majority has accepted its log through it. */
  lemma Commit(s: State, i: int, k: int, q: set<int>) returns (s': State)
    requires Inv(s) && 0 <= i < |s.peers| && s.peers[i].role == Leader
    requires 0 < k < |s.peers[i].log| && s.peers[i].log[k].term == s.peers[i].term
    requires Quorum(|s.peers|, q) && AckedByAll(s.h, q, s.peers[i].term, k)
    ensures Inv(s') && s'.peers == s.peers[i := s.peers[i].(commit := k)] && s'.h == s.h && s'.b == s.b
  {
    CommitBacked(|s.peers|, i, s.peers[i], s.h, k, q) by {
      assert PeerOk(|s.peers|, i, s.peers[i], s.h);
    }
    s' := Recommit(s, i, k);
  }

  lemma CommitBacked(n: nat, i: int, p: Peer, h: Ledger, k: int, q: set<int>)
    requires ReplicaOk(i, p, h) && p.role == Leader && 0 < k < |p.log| && p.log[k].term == p.term
    requires Quorum(n, q) && AckedByAll(h, q, p.term, k)
    ensures Backed(n, h, p.log, k, p.term)
  {
    assert Committed(n, h, p.term, k);
    assert BackedBy(n, h, p.log, k, p.term, p.term, k);
  }
}
