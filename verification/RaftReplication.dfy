/**
 The replication actions of the protocol: a leader appends a command, and a peer
 accepts the entries of an AppendEntries request. Accepting may cut a log, but never
 below an index that the peer knows to be committed.
 */
module RaftReplication {
  import opened Options
  import opened RaftTypes
  import opened RaftLog
  import opened RaftLedger
  import opened RaftProtocol
  import opened RaftElection

  /** Peer i has now accepted the log of term t, which is `log`, through index m. */
  function Accepted(h: Ledger, i: int, t: int, log: Log, m: int): Ledger {
    var b := Ballot(i, t);
    Ledger(h.elections, h.leaderLogs[t := log], h.acks[b := if b in h.acks && h.acks[b] > m then h.acks[b] else m])
  }

  /** The log of term t extended by its leader, of which i has accepted a part. */
  ghost predicate Extends(n: nat, h: Ledger, i: int, p: Peer, log: Log, m: int) {
    && LedgerOk(n, h) && PeerOk(n, i, p, h)
    && p.term in h.leaderLogs
    && Prefix(h.leaderLogs[p.term], log)
    && 0 <= m < |log|
    && forall k | |h.leaderLogs[p.term]| <= k < |log| :: log[k].term == p.term
  }

  lemma AcceptedGrows(h: Ledger, i: int, t: int, log: Log, m: int)
    requires AcksOk(h) && t in h.leaderLogs && Prefix(h.leaderLogs[t], log) && 0 <= m < |log|
    ensures Later(h, Accepted(h, i, t, log, m)) && AcksOk(Accepted(h, i, t, log, m))
    ensures h.elections.Keys == h.leaderLogs.Keys && log == h.leaderLogs[t] ==>
        forall j | j != i :: Quiet(h, Accepted(h, i, t, log, m), j)
  {
    var h' := Accepted(h, i, t, log, m);
    forall b | b in h'.acks
      ensures b.term in h'.leaderLogs && 0 <= h'.acks[b] < |h'.leaderLogs[b.term]|
    {
      if b in h.acks {
        assert 0 <= h.acks[b] < |h.leaderLogs[b.term]|;
      }
    }
  }

  lemma AcceptedLater(n: nat, h: Ledger, i: int, p: Peer, log: Log, m: int)
    requires Extends(n, h, i, p, log, m)
    ensures Later(h, Accepted(h, i, p.term, log, m)) && AcksOk(Accepted(h, i, p.term, log, m))
    ensures forall j | j != i && (log == h.leaderLogs[p.term] || (p.term in h.elections && h.elections[p.term].winner == i)) ::
        Quiet(h, Accepted(h, i, p.term, log, m), j)
  {
    AcceptedGrows(h, i, p.term, log, m);
  }

  lemma AcceptedLeaderLogs(n: nat, h: Ledger, i: int, p: Peer, log: Log, m: int)
    requires Extends(n, h, i, p, log, m)
    ensures LeaderLogsOk(Accepted(h, i, p.term, log, m).leaderLogs)
  {
    var h' := Accepted(h, i, p.term, log, m);
    AcceptedLater(n, h, i, p, log, m);
    forall t | t in h'.leaderLogs
      ensures WellMatched(h'.leaderLogs[t], h'.leaderLogs)
    {
      WellMatchedLater(h.leaderLogs[t], h, h');
      if t == p.term {
        forall k | 1 <= k < |log|
          ensures Sourced(log, k, h'.leaderLogs)
        {
          if k < |h.leaderLogs[t]| {
            assert Sourced(h.leaderLogs[t], k, h'.leaderLogs);
          }
        }
      }
    }
  }

  lemma AcceptedElections(n: nat, h: Ledger, i: int, p: Peer, log: Log, m: int)
    requires Extends(n, h, i, p, log, m)
    ensures ElectionsOk(n, Accepted(h, i, p.term, log, m))
  {
    var h' := Accepted(h, i, p.term, log, m);
    AcceptedLater(n, h, i, p, log, m);
    assert h'.leaderLogs.Keys == h.leaderLogs.Keys;
    forall t | t in h'.elections
      ensures ElectionOk(n, t, h'.elections[t], h'.leaderLogs[t], h'.leaderLogs)
    {
      var e := h.elections[t];
      assert ElectionOk(n, t, e, h.leaderLogs[t], h.leaderLogs);
      if t != p.term {
        ElectionLater(n, h, h', t);
      } else {
        forall v | v in e.voters
          ensures WellMatched(e.voters[v], h'.leaderLogs)
        {
          WellMatchedLater(e.voters[v], h, h');
        }
      }
    }
  }

  /** Voters of an election had left earlier terms, so what they had accepted there stays as it was. */
  lemma AcceptedKept(n: nat, h: Ledger, bs: Ballots, i: int, p: Peer, log: Log, m: int)
    requires Extends(n, h, i, p, log, m)
    requires VotesOk(n, h, bs) && WonByVotes(h.elections, bs.votes) && VoterOk(i, p, bs)
    ensures KeptByVoters(Accepted(h, i, p.term, log, m)) && VotesOk(n, Accepted(h, i, p.term, log, m), bs)
  {
    var h' := Accepted(h, i, p.term, log, m);
    AcceptedLater(n, h, i, p, log, m);
    forall t, v | t in h'.elections && v in h'.elections[t].voters
      ensures Kept(h', v, h'.elections[t].voters[v], t, t)
    {
      KeptLater(h, h', v, h'.elections[t].voters[v], t, t, t, t);
    }
    forall b | b in bs.votes
      ensures VoteOk(n, b, bs.votes[b], h', bs.rounds)
    {
      assert VoteOk(n, b, bs.votes[b], h, bs.rounds);
      WellMatchedLater(bs.votes[b].log, h, h');
      KeptLater(h, h', b.peer, bs.votes[b].log, b.term, b.term, b.term + 1, b.term + 1);
    }
  }

  lemma AcceptedLedger(n: nat, h: Ledger, bs: Ballots, i: int, p: Peer, log: Log, m: int)
    requires Extends(n, h, i, p, log, m)
    requires VotesOk(n, h, bs) && WonByVotes(h.elections, bs.votes) && VoterOk(i, p, bs)
    ensures LedgerOk(n, Accepted(h, i, p.term, log, m)) && VotesOk(n, Accepted(h, i, p.term, log, m), bs)
  {
    AcceptedLater(n, h, i, p, log, m);
    AcceptedLeaderLogs(n, h, i, p, log, m);
    AcceptedElections(n, h, i, p, log, m);
    AcceptedKept(n, h, bs, i, p, log, m);
  }

  // ---------------------------------------------------------------- a leader appends

  function Appended(p: Peer, command: Command): Peer {
    p.(log := p.log + [Entry(command, p.term)])
  }

  lemma AppenderExtends(n: nat, h: Ledger, i: int, p: Peer, command: Command)
    requires LedgerOk(n, h) && PeerOk(n, i, p, h) && p.role == Leader
    ensures Extends(n, h, i, p, Appended(p, command).log, |p.log|)
  {
  }

  lemma AppenderKept(n: nat, h: Ledger, i: int, p: Peer, command: Command)
    requires LedgerOk(n, h) && PeerOk(n, i, p, h) && p.role == Leader
    ensures
      var p' := Appended(p, command);
      Kept(Accepted(h, i, p.term, p'.log, |p.log|), i, p'.log, p.term + 1, p.term + 1)
  {
    var p' := Appended(p, command);
    var h' := Accepted(h, i, p.term, p'.log, |p.log|);
    AppenderExtends(n, h, i, p, command);
    AcceptedLater(n, h, i, p, p'.log, |p.log|);
    KeptExtend(h, i, p.log, p'.log, p.term + 1, p.term + 1);
    KeptLater(h, h', i, p'.log, p.term + 1, p.term, p.term + 1, p.term + 1);
    OwnTermKept(h', i, p'.log, p.term);
  }

  lemma AppenderOk(n: nat, h: Ledger, i: int, p: Peer, command: Command)
    requires LedgerOk(n, h) && PeerOk(n, i, p, h) && p.role == Leader
    ensures PeerOk(n, i, Appended(p, command), Accepted(h, i, p.term, Appended(p, command).log, |p.log|))
  {
    var p' := Appended(p, command);
    var h' := Accepted(h, i, p.term, p'.log, |p.log|);
    AppenderExtends(n, h, i, p, command);
    AppenderKept(n, h, i, p, command);
    assert Backed(n, h', p'.log, p.commit, p.term) by {
      AcceptedLater(n, h, i, p, p'.log, |p.log|);
      BackedExtend(n, h, p.log, p'.log, p.commit, p.term);
      BackedLater(n, h, h', p'.log, p.commit, p.term, p.term);
    }
    assert LogOk(p', h'.leaderLogs) by {
      AcceptedLeaderLogs(n, h, i, p, p'.log, |p.log|);
      assert h'.leaderLogs[p.term] == p'.log;
    }
  }

  lemma KeptExtend(h: Ledger, i: int, log: Log, log': Log, x: int, y: int)
    requires Kept(h, i, log, x, y) && Prefix(log, log')
    ensures Kept(h, i, log', x, y)
  {
    forall t, n | Ballot(i, t) in h.acks && t < x && 0 <= n <= h.acks[Ballot(i, t)] && Inherited(h, t, n, y)
      ensures Agree(log', h.leaderLogs[t], n)
    {
      assert Agree(log, h.leaderLogs[t], n);
    }
  }

  lemma BackedExtend(n: nat, h: Ledger, log: Log, log': Log, c: int, bound: int)
    requires Backed(n, h, log, c, bound) && Prefix(log, log')
    ensures Backed(n, h, log', c, bound)
  {
    if c != 0 {
      var t, k :| BackedBy(n, h, log, c, bound, t, k);
      assert BackedBy(n, h, log', c, bound, t, k);
    }
  }

  lemma Append(s: State, i: int, command: Command) returns (s': State)
    requires Inv(s) && 0 <= i < |s.peers| && s.peers[i].role == Leader
    ensures Inv(s') && Later(s.h, s'.h) && s'.b == s.b
    ensures s'.peers == s.peers[i := Appended(s.peers[i], command)]
    ensures AcksOnly(s.h, s'.h, i, s.peers[i].term)
  {
    var p := s.peers[i];
    var p' := Appended(p, command);
    var n := |s.peers|;
    assert PeerOk(n, i, p, s.h) && VoterOk(i, p, s.b);
    AppenderExtends(n, s.h, i, p, command);
    AppenderOk(n, s.h, i, p, command);
    AcceptedLater(n, s.h, i, p, p'.log, |p.log|);
    AcceptedLedger(n, s.h, s.b, i, p, p'.log, |p.log|);
    s' := Replicated(s, i, p', Accepted(s.h, i, p.term, p'.log, |p.log|));
  }

  // ---------------------------------------------------------------- a peer accepts entries

  /** The entries, and the one before them, are those of the leader's log. */
  ghost predicate Stretch(leaderLogs: map<int, Log>, a: AppendArgs) {
    && a.term in leaderLogs
    && a.prevLogIndex >= 0
    && a.prevLogIndex + |a.entries| < |leaderLogs[a.term]|
    && a.prevLogTerm == leaderLogs[a.term][a.prevLogIndex].term
    && a.entries == leaderLogs[a.term][a.prevLogIndex + 1..a.prevLogIndex + 1 + |a.entries|]
  }

  /** What every AppendEntries request ever sent satisfies: it is a stretch of its leader's log, reaching
      at least as far as the commitment it announces. */
  ghost predicate GoodAppend(n: nat, h: Ledger, a: AppendArgs) {
    && Stretch(h.leaderLogs, a)
    && 0 <= a.leaderCommit <= a.prevLogIndex + |a.entries|
    && Backed(n, h, h.leaderLogs[a.term], a.leaderCommit, a.term)
  }

  lemma GoodAppendLater(n: nat, h: Ledger, h': Ledger, a: AppendArgs)
    requires GoodAppend(n, h, a) && Later(h, h')
    ensures GoodAppend(n, h', a)
  {
    assert Prefix(h.leaderLogs[a.term], h'.leaderLogs[a.term]);
    BackedLater(n, h, h', h.leaderLogs[a.term], a.leaderCommit, a.term, a.term);
    BackedExtend(n, h', h.leaderLogs[a.term], h'.leaderLogs[a.term], a.leaderCommit, a.term);
  }

  /** The peer holds the entry the request builds on. */
  predicate Fits(log: Log, a: AppendArgs) {
    0 <= a.prevLogIndex < |log| && log[a.prevLogIndex].term == a.prevLogTerm
  }

  /** Through k entries that match by term, a log agrees with the leader's in full. */
  lemma MatchedAgree(log: Log, prev: int, entries: seq<Entry>, leaderLog: Log, leaderLogs: map<int, Log>, k: int)
    requires WellMatched(log, leaderLogs) && WellMatched(leaderLog, leaderLogs)
    requires 0 <= prev < |log| && prev + |entries| < |leaderLog| && log[prev].term == leaderLog[prev].term
    requires entries == leaderLog[prev + 1..prev + 1 + |entries|]
    requires 0 <= k <= |entries| && prev + 1 + k <= |log|
    requires forall j | 0 <= j < k :: log[prev + 1 + j].term == entries[j].term
    ensures Agree(log, leaderLog, prev + k)
  {
    if k > 0 {
      assert entries[k - 1] == leaderLog[prev + 1 + (k - 1)];
      assert log[prev + 1 + (k - 1)].term == entries[k - 1].term;
    }
    EqualTermsAgree(log, leaderLog, leaderLogs, prev + k);
  }

  /** A merge that cuts or extends leaves exactly the leader's log through the stretch. */
  lemma MergeCuts(log: Log, prev: int, entries: seq<Entry>, leaderLog: Log)
    requires 0 <= prev < |log| && prev + |entries| < |leaderLog|
    requires entries == leaderLog[prev + 1..prev + 1 + |entries|]
    requires Agree(log, leaderLog, prev + MatchLength(log, prev + 1, entries))
    requires MatchLength(log, prev + 1, entries) < |entries|
    ensures Merge(log, prev + 1, entries) == leaderLog[..prev + |entries| + 1]
  {
    var k := MatchLength(log, prev + 1, entries);
    assert log[..prev + 1 + k] == leaderLog[..prev + 1 + k];
    assert entries[k..] == leaderLog[prev + 1 + k..prev + |entries| + 1];
  }

  /** Agreement with the leader ends where the terms first differ. */
  lemma AgreeStops(log: Log, prev: int, entries: seq<Entry>, leaderLog: Log, n: int)
    requires 0 <= prev < |log| && prev + |entries| < |leaderLog|
    requires entries == leaderLog[prev + 1..prev + 1 + |entries|]
    requires MatchLength(log, prev + 1, entries) < |entries|
    requires Agree(log, leaderLog, n)
    ensures n <= prev + MatchLength(log, prev + 1, entries)
  {
    var k := MatchLength(log, prev + 1, entries);
    MatchMeaning(log, prev + 1, entries, 0);
    assert entries[k] == leaderLog[prev + 1 + k];
  }

  /** Merging a stretch of a leader's log: the result is the old log or a prefix of the leader's, it agrees
      with the leader through the stretch, and no earlier agreement is lost. */
  lemma MergeMeaning(log: Log, prev: int, entries: seq<Entry>, leaderLog: Log, leaderLogs: map<int, Log>)
    requires WellMatched(log, leaderLogs) && WellMatched(leaderLog, leaderLogs)
    requires 0 <= prev < |log| && prev + |entries| < |leaderLog| && log[prev].term == leaderLog[prev].term
    requires entries == leaderLog[prev + 1..prev + 1 + |entries|]
    ensures
      var r := Merge(log, prev + 1, entries);
      var m := prev + |entries|;
      && (r == log || r == leaderLog[..m + 1])
      && Agree(r, leaderLog, m)
      && forall n | Agree(log, leaderLog, n) :: Agree(r, leaderLog, n)
  {
    MatchMeaning(log, prev + 1, entries, 0);
    MatchedAgree(log, prev, entries, leaderLog, leaderLogs, MatchLength(log, prev + 1, entries));
    if MatchLength(log, prev + 1, entries) < |entries| {
      MergeCuts(log, prev, entries, leaderLog);
      forall n | Agree(log, leaderLog, n)
        ensures n <= prev + |entries|
      {
        AgreeStops(log, prev, entries, leaderLog, n);
      }
    }
  }

  function AfterAccept(p: Peer, a: AppendArgs): Peer
    requires Fits(p.log, a)
  {
    p.(log := Merge(p.log, a.prevLogIndex + 1, a.entries),
       role := Follower,
       commit := if a.leaderCommit > p.commit then a.leaderCommit else p.commit)
  }

  ghost predicate Accepting(n: nat, h: Ledger, i: int, p: Peer, a: AppendArgs) {
    && LedgerOk(n, h) && PeerOk(n, i, p, h)
    && GoodAppend(n, h, a)
    && p.term == a.term
    && Fits(p.log, a)
  }

  lemma AcceptorLog(p: Peer, a: AppendArgs, leaderLogs: map<int, Log>) returns (r: Log)
    requires LeaderLogsOk(leaderLogs) && LogOk(p, leaderLogs) && Stretch(leaderLogs, a) && Fits(p.log, a)
    requires p.term == a.term
    ensures r == AfterAccept(p, a).log
    ensures
      var l := leaderLogs[a.term];
      && Agree(r, l, a.prevLogIndex + |a.entries|)
      && WellMatched(r, leaderLogs)
      && (forall k | 0 <= k < |r| :: r[k].term <= p.term)
      && (forall n | Agree(p.log, l, n) :: Agree(r, l, n))
  {
    var l := leaderLogs[a.term];
    assert WellMatched(l, leaderLogs);
    r := MergedLog(p.log, a.prevLogIndex, a.entries, l, leaderLogs, p.term);
  }

  /** The log alone. */
  lemma MergedLog(log: Log, prev: int, entries: seq<Entry>, l: Log, leaderLogs: map<int, Log>, t: int) returns (r: Log)
    requires WellMatched(log, leaderLogs) && WellMatched(l, leaderLogs)
    requires 0 <= prev < |log| && prev + |entries| < |l| && log[prev].term == l[prev].term
    requires entries == l[prev + 1..prev + 1 + |entries|]
    requires (forall k | 0 <= k < |log| :: log[k].term <= t) && (forall k | 0 <= k < |l| :: l[k].term <= t)
    ensures r == Merge(log, prev + 1, entries)
    ensures Agree(r, l, prev + |entries|) && WellMatched(r, leaderLogs)
    ensures (forall k | 0 <= k < |r| :: r[k].term <= t) && (forall n | Agree(log, l, n) :: Agree(r, l, n))
  {
    r := Merge(log, prev + 1, entries);
    MergeMeaning(log, prev, entries, l, leaderLogs);
    PrefixMatched(l, prev + |entries| + 1, leaderLogs);
  }

  lemma PrefixMatched(l: Log, n: int, leaderLogs: map<int, Log>)
    requires WellMatched(l, leaderLogs) && 0 < n <= |l|
    ensures WellMatched(l[..n], leaderLogs)
  {
    var r := l[..n];
    forall k | 1 <= k < |r|
      ensures Sourced(r, k, leaderLogs)
    {
      assert Sourced(l, k, leaderLogs);
    }
  }

  /** A peer that hears from the leader of its term agrees with that leader through its own commit index. */
  lemma CommitAgrees(n: nat, h: Ledger, i: int, p: Peer)
    requires LedgerOk(n, h) && PeerOk(n, i, p, h) && p.term in h.leaderLogs
    ensures Agree(p.log, h.leaderLogs[p.term], p.commit)
  {
    if p.commit > 0 {
      var t, k :| BackedBy(n, h, p.log, p.commit, p.term, t, k);
      CommittedIn(n, h, t, k, p.term);
    } else {
      assert WellMatched(h.leaderLogs[p.term], h.leaderLogs);
    }
  }

  /** No step cuts a log at or below its commit index, and the new commit index is justified. */
  lemma AcceptorCommit(n: nat, h: Ledger, i: int, p: Peer, a: AppendArgs)
    requires Accepting(n, h, i, p, a)
    ensures
      var p' := AfterAccept(p, a);
      && Backed(n, h, p'.log, p'.commit, p.term)
      && p.commit <= p'.commit < |p'.log|
      && Agree(p.log, p'.log, p.commit)
  {
    var l := h.leaderLogs[a.term];
    var p' := AfterAccept(p, a);
    var merged := AcceptorLog(p, a, h.leaderLogs);
    CommitAgrees(n, h, i, p);
    assert Agree(p'.log, l, p.commit);
    if p.commit > 0 {
      var t, k :| BackedBy(n, h, p.log, p.commit, p.term, t, k);
      assert BackedBy(n, h, p'.log, p.commit, p.term, t, k);
    }
    if a.leaderCommit > p.commit {
      var t, k :| BackedBy(n, h, l, a.leaderCommit, a.term, t, k);
      assert Agree(p'.log, l, a.leaderCommit);
      assert BackedBy(n, h, p'.log, a.leaderCommit, p.term, t, k);
    }
  }

  /** Acceptances recorded earlier survive the merge. */
  lemma AcceptorKeeps(n: nat, h: Ledger, i: int, p: Peer, a: AppendArgs)
    requires Accepting(n, h, i, p, a)
    ensures Kept(h, i, AfterAccept(p, a).log, p.term + 1, p.term + 1)
  {
    var l := h.leaderLogs[a.term];
    var r := AfterAccept(p, a).log;
    var merged := AcceptorLog(p, a, h.leaderLogs);
    assert ElectionOk(n, p.term, h.elections[p.term], l, h.leaderLogs);
    forall t, k | Ballot(i, t) in h.acks && t < p.term + 1 && 0 <= k <= h.acks[Ballot(i, t)] && Inherited(h, t, k, p.term + 1)
      ensures Agree(r, h.leaderLogs[t], k)
    {
      assert Agree(p.log, h.leaderLogs[t], k);
      if t < p.term {
        assert Agree(h.elections[p.term].base, h.leaderLogs[t], k);
      }
      assert Agree(p.log, l, k);
      assert Agree(r, l, k);
    }
  }

  /** A peer whose log agrees with the leader's through m may record having accepted it. */
  lemma AcceptorOk(n: nat, h: Ledger, i: int, p: Peer, m: int)
    requires AcksOk(h) && p.term in h.leaderLogs && 0 <= m < |h.leaderLogs[p.term]|
    requires PeerOk(n, i, p, h) && p.role == Follower
    requires Agree(p.log, h.leaderLogs[p.term], m)
    ensures PeerOk(n, i, p, Accepted(h, i, p.term, h.leaderLogs[p.term], m))
  {
    var t := p.term;
    var h' := Accepted(h, i, t, h.leaderLogs[t], m);
    AcceptedGrows(h, i, t, h.leaderLogs[t], m);
    KeptLater(h, h', i, p.log, t + 1, t, t + 1, t + 1);
    if Ballot(i, t) in h.acks {
      assert Inherited(h, t, h.acks[Ballot(i, t)], t + 1);
    }
    OwnTermKept(h', i, p.log, t);
    BackedLater(n, h, h', p.log, p.commit, t, t);
    WellMatchedLater(p.log, h, h');
  }

  lemma MergedOk(n: nat, h: Ledger, i: int, p: Peer, a: AppendArgs)
    requires Accepting(n, h, i, p, a)
    ensures PeerOk(n, i, AfterAccept(p, a), h)
  {
    var p' := AfterAccept(p, a);
    assert LogOk(p', h.leaderLogs) && Backed(n, h, p'.log, p'.commit, p'.term) by {
      var merged := AcceptorLog(p, a, h.leaderLogs);
      AcceptorCommit(n, h, i, p, a);
    }
    assert ReplicaOk(i, p', h);
    AcceptorKeeps(n, h, i, p, a);
  }

  lemma Accept(s: State, i: int, a: AppendArgs) returns (s': State)
    requires Inv(s) && 0 <= i < |s.peers|
    requires GoodAppend(|s.peers|, s.h, a) && s.peers[i].term == a.term && Fits(s.peers[i].log, a)
    ensures Inv(s') && Later(s.h, s'.h) && s'.b == s.b
    ensures s'.peers == s.peers[i := AfterAccept(s.peers[i], a)]
    ensures Acked(s'.h, i, a.term, a.prevLogIndex + |a.entries|) && AcksOnly(s.h, s'.h, i, a.term)
  {
    AcceptorReady(s, i, a);
    s' := FinishAccept(s, i, AfterAccept(s.peers[i], a), a.term, a.prevLogIndex + |a.entries|);
  }

  lemma AcceptorReady(s: State, i: int, a: AppendArgs)
    requires Inv(s) && 0 <= i < |s.peers|
    requires GoodAppend(|s.peers|, s.h, a) && s.peers[i].term == a.term && Fits(s.peers[i].log, a)
    ensures
      var p' := AfterAccept(s.peers[i], a);
      && p'.term == a.term && p'.role == Follower
      && PeerOk(|s.peers|, i, p', s.h)
      && VoterOk(i, p', s.b)
      && Agree(p'.log, s.h.leaderLogs[a.term], a.prevLogIndex + |a.entries|)
  {
    var p := s.peers[i];
    assert Accepting(|s.peers|, s.h, i, p, a) && VoterOk(i, p, s.b);
    var merged := AcceptorLog(p, a, s.h.leaderLogs);
    MergedOk(|s.peers|, s.h, i, p, a);
    AcceptorVoter(i, p, s.b, a);
  }

  lemma AcceptLedger(s: State, i: int, m: int)
    requires Inv(s) && 0 <= i < |s.peers|
    requires s.peers[i].term in s.h.leaderLogs && 0 <= m < |s.h.leaderLogs[s.peers[i].term]|
    ensures
      var t := s.peers[i].term;
      var h' := Accepted(s.h, i, t, s.h.leaderLogs[t], m);
      LedgerOk(|s.peers|, h') && VotesOk(|s.peers|, h', s.b) && Later(s.h, h')
  {
    var p := s.peers[i];
    assert PeerOk(|s.peers|, i, p, s.h) && VoterOk(i, p, s.b);
    assert Extends(|s.peers|, s.h, i, p, s.h.leaderLogs[p.term], m);
    AcceptedLater(|s.peers|, s.h, i, p, s.h.leaderLogs[p.term], m);
    AcceptedLedger(|s.peers|, s.h, s.b, i, p, s.h.leaderLogs[p.term], m);
  }

  lemma FinishAccept(s: State, i: int, p: Peer, t: int, m: int) returns (s': State)
    requires Inv(s) && 0 <= i < |s.peers| && t in s.h.leaderLogs && 0 <= m < |s.h.leaderLogs[t]|
    requires PeerOk(|s.peers|, i, p, s.h) && VoterOk(i, p, s.b) && p.role == Follower && t == p.term == s.peers[i].term
    requires Agree(p.log, s.h.leaderLogs[t], m)
    ensures Inv(s') && Later(s.h, s'.h) && s'.b == s.b
    ensures s'.peers == s.peers[i := p]
    ensures Acked(s'.h, i, t, m) && AcksOnly(s.h, s'.h, i, t)
  {
    var h' := Accepted(s.h, i, t, s.h.leaderLogs[t], m);
    AcceptLedger(s, i, m);
    AcceptedGrows(s.h, i, t, s.h.leaderLogs[t], m);
    AcceptorOk(|s.peers|, s.h, i, p, m);
    s' := Replicated(s, i, p, h');
  }

  lemma AcceptorVoter(i: int, p: Peer, bs: Ballots, a: AppendArgs)
    requires VoterOk(i, p, bs) && Fits(p.log, a)
    ensures VoterOk(i, AfterAccept(p, a), bs)
  {
  }
}
