/**
 The election actions of the protocol: standing for election, opening a vote round,
 voting and winning. Winning is where Election Safety is decided: two majorities of
 one term share a voter, and a voter votes once per term.
 */
module RaftElection {
  import opened Options
  import opened RaftTypes
  import opened RaftLog
  import opened RaftLedger
  import opened RaftProtocol

  function Recorded(bs: Ballots, b: Ballot, v: Vote): (r: Ballots)
    ensures forall c | c in bs.votes :: c in r.votes && r.votes[c] == bs.votes[c]
  {
    bs.(votes := if b in bs.votes then bs.votes else bs.votes[b := v])
  }

  /** What a new vote must satisfy for the votes to stay in order. */
  lemma RecordedOk(n: nat, h: Ledger, bs: Ballots, b: Ballot, v: Vote)
    requires VotesOk(n, h, bs) && WonByVotes(h.elections, bs.votes)
    requires b !in bs.votes ==> VoteOk(n, b, v, h, bs.rounds)
    ensures VotesOk(n, h, Recorded(bs, b, v)) && WonByVotes(h.elections, Recorded(bs, b, v).votes)
  {
    var bs' := Recorded(bs, b, v);
    forall c | c in bs'.votes
      ensures VoteOk(n, c, bs'.votes[c], h, bs'.rounds)
    {
      assert c in bs.votes || c == b;
    }
  }

  lemma OthersUnmoved(s: State, i: int, b': Ballots)
    requires Inv(s)
    requires forall b | b in b'.votes && b.peer != i :: b in s.b.votes && b'.votes[b] == s.b.votes[b]
    requires forall b | b in s.b.votes :: b in b'.votes && b'.votes[b] == s.b.votes[b]
    requires forall b | b in b'.rounds && b.peer != i :: b in s.b.rounds && b'.rounds[b] == s.b.rounds[b]
    ensures forall j | 0 <= j < |s.peers| && j != i :: VoterOk(j, s.peers[j], b')
  {
    forall j | 0 <= j < |s.peers| && j != i
      ensures VoterOk(j, s.peers[j], b')
    {
      assert VoterOk(j, s.peers[j], s.b);
    }
  }

  // ---------------------------------------------------------------- standing for election

  function Standing(i: int, p: Peer): Peer {
    p.(term := p.term + 1, votedFor := i, role := Candidate)
  }

  lemma StandingOk(n: nat, i: int, p: Peer, h: Ledger)
    requires PeerOk(n, i, p, h) && LedgerOk(n, h)
    ensures PeerOk(n, i, Standing(i, p), h)
    ensures Kept(h, i, p.log, p.term + 1, p.term + 2)
  {
    LaterSelf(h);
    KeptLater(h, h, i, p.log, p.term + 1, p.term + 2, p.term + 1, p.term + 2);
    KeptLater(h, h, i, p.log, p.term + 1, p.term + 1, p.term + 1, p.term + 2);
    BackedLater(n, h, h, p.log, p.commit, p.term, p.term + 1);
  }

  lemma Stand(s: State, i: int) returns (s': State)
    requires Inv(s) && 0 <= i < |s.peers|
    ensures Inv(s') && s'.peers == s.peers[i := Standing(i, s.peers[i])] && s'.h == s.h
    ensures s'.b == Recorded(s.b, Ballot(i, s.peers[i].term + 1), Vote(i, s.peers[i].log))
  {
    var p := s.peers[i];
    var b := Ballot(i, p.term + 1);
    assert PeerOk(|s.peers|, i, p, s.h) && VoterOk(i, p, s.b);
    StandingOk(|s.peers|, i, p, s.h);
    assert b !in s.b.votes;
    RecordedOk(|s.peers|, s.h, s.b, b, Vote(i, p.log));
    OthersUnmoved(s, i, Recorded(s.b, b, Vote(i, p.log)));
    s' := Polled(s, i, Standing(i, p), Recorded(s.b, b, Vote(i, p.log)));
  }

  // ---------------------------------------------------------------- opening a vote round

  function Opened(bs: Ballots, i: int, p: Peer): Ballots {
    bs.(rounds := bs.rounds[Ballot(i, p.term) := p.log])
  }

  lemma OpenRound(s: State, i: int) returns (s': State)
    requires Inv(s) && 0 <= i < |s.peers|
    requires Ballot(i, s.peers[i].term) !in s.b.rounds
    ensures Inv(s') && s'.peers == s.peers && s'.h == s.h && s'.b == Opened(s.b, i, s.peers[i])
  {
    var p := s.peers[i];
    var b' := Opened(s.b, i, p);
    assert PeerOk(|s.peers|, i, p, s.h) && VoterOk(i, p, s.b);
    forall c | c in b'.votes
      ensures VoteOk(|s.peers|, c, b'.votes[c], s.h, b'.rounds)
    {
      assert VoteOk(|s.peers|, c, s.b.votes[c], s.h, s.b.rounds);
    }
    OthersUnmoved(s, i, b');
    s' := Polled(s, i, p, b');
  }

  // ---------------------------------------------------------------- voting

  lemma CastVote(s: State, i: int, c: int) returns (s': State)
    requires Inv(s) && 0 <= i < |s.peers| && c != i && c != -1
    requires s.peers[i].votedFor == -1 || s.peers[i].votedFor == c
    requires Ballot(c, s.peers[i].term) in s.b.rounds && s.b.rounds[Ballot(c, s.peers[i].term)] != []
    requires s.peers[i].log != [] && UpToDate(s.b.rounds[Ballot(c, s.peers[i].term)], s.peers[i].log)
    ensures Inv(s') && s'.peers == s.peers[i := s.peers[i].(votedFor := c)] && s'.h == s.h
    ensures s'.b == Recorded(s.b, Ballot(i, s.peers[i].term), Vote(c, s.peers[i].log))
    ensures Ballot(i, s.peers[i].term) in s'.b.votes && s'.b.votes[Ballot(i, s.peers[i].term)].candidate == c
  {
    var p := s.peers[i];
    var b := Ballot(i, p.term);
    var b' := Recorded(s.b, b, Vote(c, p.log));
    assert b in s.b.votes ==> VoteOk(|s.peers|, b, s.b.votes[b], s.h, s.b.rounds);
    VoterKeeps(|s.peers|, i, p, s.h, s.b, c);
    RecordedOk(|s.peers|, s.h, s.b, b, Vote(c, p.log));
    OthersUnmoved(s, i, b');
    s' := Polled(s, i, p.(votedFor := c), b');
  }

  /** The voter, and its vote, before they are put among the others. */
  lemma VoterKeeps(n: nat, i: int, p: Peer, h: Ledger, bs: Ballots, c: int)
    requires AcksOk(h) && h.elections.Keys == h.leaderLogs.Keys && PeerOk(n, i, p, h) && VoterOk(i, p, bs)
    requires 0 <= i < n && c != i && c != -1 && (p.votedFor == -1 || p.votedFor == c)
    requires Ballot(c, p.term) in bs.rounds && bs.rounds[Ballot(c, p.term)] != []
    requires p.log != [] && UpToDate(bs.rounds[Ballot(c, p.term)], p.log)
    requires Ballot(i, p.term) in bs.votes ==> bs.votes[Ballot(i, p.term)].candidate != -1
    ensures PeerOk(n, i, p.(votedFor := c), h)
    ensures VoterOk(i, p.(votedFor := c), Recorded(bs, Ballot(i, p.term), Vote(c, p.log)))
    ensures VoteOk(n, Ballot(i, p.term), Vote(c, p.log), h, bs.rounds)
    ensures Ballot(i, p.term) in bs.votes ==> bs.votes[Ballot(i, p.term)].candidate == c
  {
    LaterSelf(h);
    KeptLater(h, h, i, p.log, p.term + 1, p.term, p.term + 1, p.term + 1);
  }

  // ---------------------------------------------------------------- winning

  ghost predicate Elects(votes: map<Ballot, Vote>, n: nat, i: int, t: int, q: set<int>) {
    && Quorum(n, q)
    && forall v | v in q :: Ballot(v, t) in votes && votes[Ballot(v, t)].candidate == i
  }

  /** Election Safety: a candidate with a majority of votes is the first to win its term. */
  lemma FirstToWin(s: State, i: int, q: set<int>)
    requires Inv(s) && 0 <= i < |s.peers|
    requires Elects(s.b.votes, |s.peers|, i, s.peers[i].term, q) && s.peers[i].role == Candidate
    ensures s.peers[i].term !in s.h.elections
  {
    var t := s.peers[i].term;
    assert PeerOk(|s.peers|, i, s.peers[i], s.h);
    if t in s.h.elections {
      assert ElectionOk(|s.peers|, t, s.h.elections[t], s.h.leaderLogs[t], s.h.leaderLogs);
      var v := QuorumsMeet(|s.peers|, q, s.h.elections[t].voters.Keys);
      assert false;
    }
  }

  function Won(h: Ledger, votes: map<Ballot, Vote>, i: int, p: Peer, q: set<int>): Ledger
    requires forall v | v in q :: Ballot(v, p.term) in votes
  {
    Ledger(
      h.elections[p.term := Election(i, p.log, map v | v in q :: votes[Ballot(v, p.term)].log)],
      h.leaderLogs[p.term := p.log],
      h.acks[Ballot(i, p.term) := |p.log| - 1])
  }

  /** A candidate about to win, and what the invariant says of it. */
  ghost predicate Winning(n: nat, h: Ledger, bs: Ballots, i: int, p: Peer, q: set<int>) {
    && LedgerOk(n, h) && VotesOk(n, h, bs) && PeerOk(n, i, p, h) && VoterOk(i, p, bs)
    && p.role == Candidate
    && p.term !in h.elections
    && Elects(bs.votes, n, i, p.term, q)
  }

  lemma WonLater(n: nat, h: Ledger, bs: Ballots, i: int, p: Peer, q: set<int>)
    requires Winning(n, h, bs, i, p, q)
    ensures Later(h, Won(h, bs.votes, i, p, q))
    ensures Ballot(i, p.term) !in h.acks
    ensures forall j | j != i :: Quiet(h, Won(h, bs.votes, i, p, q), j)
  {
    NotAckedYet(n, h, i, p);
    WonGrows(h, bs.votes, i, p, q);
  }

  lemma NotAckedYet(n: nat, h: Ledger, i: int, p: Peer)
    requires AcksOk(h) && h.elections.Keys == h.leaderLogs.Keys && p.term !in h.elections
    ensures Ballot(i, p.term) !in h.acks
  {
  }

  lemma WonGrows(h: Ledger, votes: map<Ballot, Vote>, i: int, p: Peer, q: set<int>)
    requires h.elections.Keys == h.leaderLogs.Keys && p.term !in h.elections && Ballot(i, p.term) !in h.acks
    requires forall v | v in q :: Ballot(v, p.term) in votes
    ensures Later(h, Won(h, votes, i, p, q))
    ensures forall j | j != i :: Quiet(h, Won(h, votes, i, p, q), j)
  {
  }

  lemma WonTerms(n: nat, h: Ledger, bs: Ballots, i: int, p: Peer, q: set<int>)
    requires Winning(n, h, bs, i, p, q)
    ensures p.term >= 1
    ensures forall k | 0 <= k < |p.log| :: p.log[k].term < p.term
  {
    forall k | 0 <= k < |p.log|
      ensures p.log[k].term < p.term
    {
      if k >= 1 {
        assert Sourced(p.log, k, h.leaderLogs);
      }
    }
  }

  lemma WonLogs(n: nat, h: Ledger, bs: Ballots, i: int, p: Peer, q: set<int>)
    requires Winning(n, h, bs, i, p, q)
    ensures LeaderLogsOk(Won(h, bs.votes, i, p, q).leaderLogs) && AcksOk(Won(h, bs.votes, i, p, q))
  {
    WonLater(n, h, bs, i, p, q);
    WonTerms(n, h, bs, i, p, q);
    var h' := Won(h, bs.votes, i, p, q);
    forall t | t in h'.leaderLogs
      ensures WellMatched(h'.leaderLogs[t], h'.leaderLogs)
    {
      WellMatchedLater(h'.leaderLogs[t], h, h');
    }
  }

  lemma WonElection(n: nat, h: Ledger, bs: Ballots, i: int, p: Peer, q: set<int>)
    requires Winning(n, h, bs, i, p, q)
    ensures
      var h' := Won(h, bs.votes, i, p, q);
      ElectionOk(n, p.term, h'.elections[p.term], p.log, h'.leaderLogs)
  {
    WonLater(n, h, bs, i, p, q);
    WonTerms(n, h, bs, i, p, q);
    var h' := Won(h, bs.votes, i, p, q);
    var e := h'.elections[p.term];
    assert e.voters.Keys == q;
    forall v | v in e.voters
      ensures WellMatched(e.voters[v], h'.leaderLogs) && UpToDate(e.base, e.voters[v])
    {
      assert VoteOk(n, Ballot(v, p.term), bs.votes[Ballot(v, p.term)], h, bs.rounds);
      WellMatchedLater(e.voters[v], h, h');
    }
  }

  /** Other terms' elections are unaffected when the ledger grows around them. */
  lemma ElectionLater(n: nat, h: Ledger, h': Ledger, t: int)
    requires t in h.elections && t in h.leaderLogs && t in h'.leaderLogs && h'.leaderLogs[t] == h.leaderLogs[t]
    requires ElectionOk(n, t, h.elections[t], h.leaderLogs[t], h.leaderLogs) && Later(h, h')
    ensures ElectionOk(n, t, h.elections[t], h'.leaderLogs[t], h'.leaderLogs)
  {
    var e := h.elections[t];
    forall v | v in e.voters
      ensures WellMatched(e.voters[v], h'.leaderLogs)
    {
      WellMatchedLater(e.voters[v], h, h');
    }
  }

  lemma WonElections(n: nat, h: Ledger, bs: Ballots, i: int, p: Peer, q: set<int>)
    requires Winning(n, h, bs, i, p, q)
    ensures ElectionsOk(n, Won(h, bs.votes, i, p, q))
  {
    WonLater(n, h, bs, i, p, q);
    WonElection(n, h, bs, i, p, q);
    var h' := Won(h, bs.votes, i, p, q);
    forall t | t in h'.elections
      ensures ElectionOk(n, t, h'.elections[t], h'.leaderLogs[t], h'.leaderLogs)
    {
      if t != p.term {
        ElectionLater(n, h, h', t);
      }
    }
  }

  /** Before term t is won, looking one term further changes nothing. */
  lemma KeptBelow(h: Ledger, v: int, log: Log, x: int, t: int)
    requires t !in h.elections && Kept(h, v, log, x, t + 1)
    ensures Kept(h, v, log, x, t)
  {
    assert forall u, n | Inherited(h, u, n, t) :: Inherited(h, u, n, t + 1);
  }

  lemma WonKeptByVoters(n: nat, h: Ledger, bs: Ballots, i: int, p: Peer, q: set<int>)
    requires Winning(n, h, bs, i, p, q) && WonByVotes(h.elections, bs.votes)
    ensures KeptByVoters(Won(h, bs.votes, i, p, q))
  {
    WonLater(n, h, bs, i, p, q);
    var h' := Won(h, bs.votes, i, p, q);
    forall t, v | t in h'.elections && v in h'.elections[t].voters
      ensures Kept(h', v, h'.elections[t].voters[v], t, t)
    {
      if t == p.term {
        assert VoteOk(n, Ballot(v, t), bs.votes[Ballot(v, t)], h, bs.rounds);
        KeptBelow(h, v, bs.votes[Ballot(v, t)].log, t, t);
      }
      KeptLater(h, h', v, h'.elections[t].voters[v], t, t, t, t);
    }
  }

  lemma WonVotes(n: nat, h: Ledger, bs: Ballots, i: int, p: Peer, q: set<int>)
    requires Winning(n, h, bs, i, p, q) && WonByVotes(h.elections, bs.votes)
    ensures VotesOk(n, Won(h, bs.votes, i, p, q), bs) && WonByVotes(Won(h, bs.votes, i, p, q).elections, bs.votes)
  {
    WonLater(n, h, bs, i, p, q);
    var h' := Won(h, bs.votes, i, p, q);
    forall b | b in bs.votes
      ensures VoteOk(n, b, bs.votes[b], h', bs.rounds)
    {
      assert VoteOk(n, b, bs.votes[b], h, bs.rounds);
      WellMatchedLater(bs.votes[b].log, h, h');
      KeptLater(h, h', b.peer, bs.votes[b].log, b.term, b.term, b.term + 1, b.term + 1);
    }
  }

  lemma WinnerOk(n: nat, h: Ledger, bs: Ballots, i: int, p: Peer, q: set<int>)
    requires Winning(n, h, bs, i, p, q)
    ensures PeerOk(n, i, p.(role := Leader), Won(h, bs.votes, i, p, q))
  {
    WonLater(n, h, bs, i, p, q);
    var h' := Won(h, bs.votes, i, p, q);
    WellMatchedLater(p.log, h, h');
    BackedLater(n, h, h', p.log, p.commit, p.term, p.term);
    KeptLater(h, h', i, p.log, p.term + 1, p.term, p.term + 1, p.term + 1);
    OwnTermKept(h', i, p.log, p.term);
  }

  /** Once a log agrees with what was accepted in the present term, that term needs no further care. */
  lemma OwnTermKept(h: Ledger, i: int, log: Log, t: int)
    requires Kept(h, i, log, t, t + 1)
    requires Ballot(i, t) in h.acks ==> t in h.leaderLogs && Agree(log, h.leaderLogs[t], h.acks[Ballot(i, t)])
    ensures Kept(h, i, log, t + 1, t + 1)
  {
  }

  lemma Win(s: State, i: int, q: set<int>) returns (s': State)
    requires Inv(s) && 0 <= i < |s.peers|
    requires Elects(s.b.votes, |s.peers|, i, s.peers[i].term, q) && s.peers[i].role == Candidate
    ensures Inv(s') && Later(s.h, s'.h) && s'.b == s.b
    ensures s'.peers == s.peers[i := s.peers[i].(role := Leader)]
    ensures s'.h == Won(s.h, s.b.votes, i, s.peers[i], q)
  {
    FirstToWin(s, i, q);
    var p := s.peers[i];
    var n := |s.peers|;
    assert Winning(n, s.h, s.b, i, p, q);
    WonLater(n, s.h, s.b, i, p, q);
    WonLogs(n, s.h, s.b, i, p, q);
    WonElections(n, s.h, s.b, i, p, q);
    WonKeptByVoters(n, s.h, s.b, i, p, q);
    WonVotes(n, s.h, s.b, i, p, q);
    WinnerOk(n, s.h, s.b, i, p, q);
    s' := Replicated(s, i, p.(role := Leader), Won(s.h, s.b.votes, i, p, q));
  }
}
