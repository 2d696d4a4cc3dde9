/**
 The ledger of a Raft run, and what it says about commitment.

 The ledger records every election and, per peer and term, how far the peer has
 accepted the log of that term's leader. It only grows. From four facts about it
 (each kept by every step of the protocol) Leader Completeness follows by
 induction on terms.
 */
module RaftLedger {
  import opened Options
  import opened RaftTypes
  import opened RaftLog

  datatype Ballot = Ballot(peer: int, term: int)

  /** A won election: the winner's log when it won, and the log each of its voters had when voting. */
  datatype Election = Election(winner: int, base: Log, voters: map<int, Log>)

  datatype Ledger = Ledger(
    elections: map<int, Election>,
    leaderLogs: map<int, Log>,     // per term, the leader's log, as far as that leader has grown it
    acks: map<Ballot, int>)        // per peer and term, the last index accepted from that term's leader

  // ---------------------------------------------------------------- quorums

  ghost predicate Quorum(n: nat, q: set<int>) {
    (forall p | p in q :: 0 <= p < n) && 2 * |q| > n
  }

  lemma {:induction false} PeersBounded(n: nat, q: set<int>)
    requires forall p | p in q :: 0 <= p < n
    ensures |q| <= n
  {
    if n == 0 {
      assert forall p :: p !in q;
    } else {
      PeersBounded(n - 1, q - {n - 1});
    }
  }

  lemma QuorumsMeet(n: nat, a: set<int>, b: set<int>) returns (p: int)
    requires Quorum(n, a) && Quorum(n, b)
    ensures p in a && p in b
  {
    PeersBounded(n, a + b);
    assert |a + b| + |a * b| == |a| + |b|;
    assert a * b != {};
    p :| p in a * b;
  }

  // ---------------------------------------------------------------- facts about logs

  /** The entry at k, with all before it, comes from the leader of the entry's term. */
  ghost predicate Sourced(log: Log, k: int, leaderLogs: map<int, Log>) {
    0 <= k < |log| && log[k].term in leaderLogs && Agree(log, leaderLogs[log[k].term], k)
  }

  ghost predicate WellMatched(log: Log, leaderLogs: map<int, Log>) {
    && log != []
    && log[0] == Dummy
    && forall k | 1 <= k < |log| :: Sourced(log, k, leaderLogs)
  }

  ghost predicate LeaderLogsOk(leaderLogs: map<int, Log>) {
    forall t | t in leaderLogs ::
      && t >= 1
      && WellMatched(leaderLogs[t], leaderLogs)
      && forall k | 0 <= k < |leaderLogs[t]| :: leaderLogs[t][k].term <= t
  }

  lemma TermsAscend(log: Log, leaderLogs: map<int, Log>, j: int, k: int)
    requires LeaderLogsOk(leaderLogs) && WellMatched(log, leaderLogs)
    requires 0 <= j <= k < |log|
    ensures 0 <= log[j].term <= log[k].term
  {
    if k >= 1 {
      assert Sourced(log, k, leaderLogs);
      assert log[j] == leaderLogs[log[k].term][j];
      if j >= 1 {
        assert Sourced(log, j, leaderLogs);
      }
    }
  }

  /** Log Matching: equal terms at one index make two logs agree through it. */
  lemma EqualTermsAgree(a: Log, b: Log, leaderLogs: map<int, Log>, k: int)
    requires WellMatched(a, leaderLogs) && WellMatched(b, leaderLogs)
    requires 0 <= k < |a| && k < |b| && a[k].term == b[k].term
    ensures Agree(a, b, k)
  {
    if k >= 1 {
      assert Sourced(a, k, leaderLogs) && Sourced(b, k, leaderLogs);
    }
  }

  /** The same with the term at two indexes: both logs hold the one block of that term, in one place. */
  lemma OneBlock(a: Log, b: Log, leaderLogs: map<int, Log>, x: int, y: int)
    requires WellMatched(a, leaderLogs) && WellMatched(b, leaderLogs)
    requires 0 <= x < |a| && 0 <= y < |b| && (x == y || (x >= 1 && y >= 1)) && a[x].term == b[y].term
    ensures Agree(a, b, if x <= y then x else y)
  {
    if x == y {
      EqualTermsAgree(a, b, leaderLogs, x);
    } else {
      assert Sourced(a, x, leaderLogs) && Sourced(b, y, leaderLogs);
    }
  }

  // ---------------------------------------------------------------- facts about elections and acceptances

  ghost predicate ElectionOk(n: nat, t: int, e: Election, leaderLog: Log, leaderLogs: map<int, Log>) {
    && e.base != []
    && Agree(e.base, leaderLog, |e.base| - 1)
    && (forall k | 0 <= k < |e.base| :: e.base[k].term < t)
    && (forall k | |e.base| <= k < |leaderLog| :: leaderLog[k].term == t)
    && Quorum(n, e.voters.Keys)
    && forall v | v in e.voters ::
         && WellMatched(e.voters[v], leaderLogs)
         && UpToDate(e.base, e.voters[v])
  }

  ghost predicate ElectionsOk(n: nat, h: Ledger) {
    && h.elections.Keys == h.leaderLogs.Keys
    && forall t | t in h.elections :: ElectionOk(n, t, h.elections[t], h.leaderLogs[t], h.leaderLogs)
  }

  ghost predicate AcksOk(h: Ledger) {
    forall b | b in h.acks :: b.term in h.leaderLogs && 0 <= h.acks[b] < |h.leaderLogs[b.term]|
  }

  /** Every leader elected after term t and before the bound started out with t's log through n. */
  ghost predicate Inherited(h: Ledger, t: int, n: int, bound: int) {
    && t in h.leaderLogs
    && forall u | u in h.elections && t < u < bound :: Agree(h.elections[u].base, h.leaderLogs[t], n)
  }

  /** The log holds what peer v accepted in terms below ackBound, wherever later leaders did not overwrite it. */
  ghost predicate Kept(h: Ledger, v: int, log: Log, ackBound: int, bound: int) {
    forall t, n | Ballot(v, t) in h.acks && t < ackBound && 0 <= n <= h.acks[Ballot(v, t)] && Inherited(h, t, n, bound) ::
      Agree(log, h.leaderLogs[t], n)
  }

  ghost predicate KeptByVoters(h: Ledger) {
    forall t, v | t in h.elections && v in h.elections[t].voters :: Kept(h, v, h.elections[t].voters[v], t, t)
  }

  ghost predicate LedgerOk(n: nat, h: Ledger) {
    && LeaderLogsOk(h.leaderLogs)
    && ElectionsOk(n, h)
    && AcksOk(h)
    && KeptByVoters(h)
  }

  // ---------------------------------------------------------------- commitment

  ghost predicate Acked(h: Ledger, p: int, t: int, n: int) {
    Ballot(p, t) in h.acks && n <= h.acks[Ballot(p, t)]
  }

  ghost predicate AckedByAll(h: Ledger, q: set<int>, t: int, n: int) {
    forall p | p in q :: Acked(h, p, t, n)
  }

  /** A majority accepted term t's log through n, whose entry at n is of term t itself. */
  ghost predicate Committed(n: nat, h: Ledger, t: int, k: int) {
    && t in h.leaderLogs
    && 0 < k < |h.leaderLogs[t]|
    && h.leaderLogs[t][k].term == t
    && exists q :: Quorum(n, q) && AckedByAll(h, q, t, k)
  }

  /** The log through c is what some term no later than `bound` committed. */
  ghost predicate BackedBy(n: nat, h: Ledger, log: Log, c: int, bound: int, t: int, k: int) {
    t <= bound && Committed(n, h, t, k) && c <= k && Agree(log, h.leaderLogs[t], c)
  }

  ghost predicate Backed(n: nat, h: Ledger, log: Log, c: int, bound: int) {
    c == 0 || exists t, k :: BackedBy(n, h, log, c, bound, t, k)
  }

  /** A log at least as up to date as one holding t's commitment at k holds that commitment too. */
  lemma UpToDateKeeps(h: Ledger, t: int, k: int, base: Log, wl: Log, bound: int)
    requires LeaderLogsOk(h.leaderLogs) && h.elections.Keys == h.leaderLogs.Keys
    requires forall u | u in h.elections ::
        h.elections[u].base != [] && Agree(h.elections[u].base, h.leaderLogs[u], |h.elections[u].base| - 1)
    requires t in h.leaderLogs && 0 < k < |h.leaderLogs[t]| && h.leaderLogs[t][k].term == t
    requires WellMatched(base, h.leaderLogs) && WellMatched(wl, h.leaderLogs)
    requires LastTerm(base) < bound
    requires UpToDate(base, wl) && Agree(wl, h.leaderLogs[t], k)
    requires Inherited(h, t, k, bound)
    ensures Agree(base, h.leaderLogs[t], k)
  {
    var u := LastTerm(base);
    var m := |base| - 1;
    TermsAscend(wl, h.leaderLogs, k, |wl| - 1);
    assert wl[k].term == t;
    assert t <= LastTerm(wl) <= u;
    assert m >= 1;
    assert Sourced(base, m, h.leaderLogs);
    if u == t {
      assert m >= k;
    } else {
      var b := h.elections[u].base;
      assert Agree(b, h.leaderLogs[t], k);
      assert Agree(b, h.leaderLogs[u], |b| - 1);
      assert h.leaderLogs[u][k].term == t;
      if m < k {
        TermsAscend(h.leaderLogs[u], h.leaderLogs, m, k);
        assert false;
      }
    }
  }

  /** Leader Completeness, section 5.4.3 of the Raft paper: later leaders start with what was committed. */
  lemma {:induction false} LeaderCompleteness(n: nat, h: Ledger, t: int, k: int, u: int)
    requires LedgerOk(n, h) && Committed(n, h, t, k)
    requires u in h.elections && t < u
    ensures Agree(h.elections[u].base, h.leaderLogs[t], k)
    decreases u - t
  {
    forall w | w in h.elections && t < w < u
      ensures Agree(h.elections[w].base, h.leaderLogs[t], k)
    {
      LeaderCompleteness(n, h, t, k, w);
    }
    var e := h.elections[u];
    var q :| Quorum(n, q) && AckedByAll(h, q, t, k);
    assert ElectionOk(n, u, e, h.leaderLogs[u], h.leaderLogs);
    var v := QuorumsMeet(n, q, e.voters.Keys);
    assert Acked(h, v, t, k);
    assert Kept(h, v, e.voters[v], u, u);
    assert Agree(e.voters[v], h.leaderLogs[t], k);
    BaseWellMatched(n, h, u);
    UpToDateKeeps(h, t, k, e.base, e.voters[v], u);
  }

  lemma BaseWellMatched(n: nat, h: Ledger, u: int)
    requires LeaderLogsOk(h.leaderLogs) && ElectionsOk(n, h) && u in h.elections
    ensures WellMatched(h.elections[u].base, h.leaderLogs)
  {
    var b := h.elections[u].base;
    assert ElectionOk(n, u, h.elections[u], h.leaderLogs[u], h.leaderLogs);
    var l := h.leaderLogs[u];
    assert WellMatched(l, h.leaderLogs);
    forall k | 1 <= k < |b|
      ensures Sourced(b, k, h.leaderLogs)
    {
      assert Sourced(l, k, h.leaderLogs);
    }
  }

  /** The same for the leader's whole log, and for the term's own leader. */
  lemma CommittedIn(n: nat, h: Ledger, t: int, k: int, u: int)
    requires LedgerOk(n, h) && Committed(n, h, t, k)
    requires u in h.leaderLogs && t <= u
    ensures Agree(h.leaderLogs[u], h.leaderLogs[t], k)
  {
    if t < u {
      LeaderCompleteness(n, h, t, k, u);
      assert ElectionOk(n, u, h.elections[u], h.leaderLogs[u], h.leaderLogs);
    }
  }

  /** Whatever two terms committed never disagrees. */
  lemma BackedAgree(n: nat, h: Ledger, a: Log, ca: int, ba: int, b: Log, cb: int, bb: int, i: int)
    requires LedgerOk(n, h)
    requires Backed(n, h, a, ca, ba) && Backed(n, h, b, cb, bb)
    requires 0 < i <= ca && i <= cb
    ensures i < |a| && i < |b| && a[i] == b[i]
  {
    var t, k :| BackedBy(n, h, a, ca, ba, t, k);
    var u, l :| BackedBy(n, h, b, cb, bb, u, l);
    if t <= u {
      CommittedIn(n, h, t, k, u);
    } else {
      CommittedIn(n, h, u, l, t);
    }
  }

  // ---------------------------------------------------------------- growth

  ghost predicate Prefix(a: Log, b: Log) {
    |a| <= |b| && forall k | 0 <= k < |a| :: a[k] == b[k]
  }

  /** h' extends h: nothing recorded is lost or changed. */
  ghost predicate Later(h: Ledger, h': Ledger) {
    && (forall t | t in h.elections :: t in h'.elections && h'.elections[t] == h.elections[t])
    && (forall t | t in h.leaderLogs :: t in h'.leaderLogs && Prefix(h.leaderLogs[t], h'.leaderLogs[t]))
    && (forall b | b in h.acks :: b in h'.acks && h.acks[b] <= h'.acks[b])
  }

  /** Between h and h', no acceptance was recorded but those of peer i in term t. */
  ghost predicate AcksOnly(h: Ledger, h': Ledger, i: int, t: int) {
    forall b | b in h'.acks && b != Ballot(i, t) :: b in h.acks && h'.acks[b] == h.acks[b]
  }

  lemma LaterTransitive(a: Ledger, b: Ledger, c: Ledger)
    requires Later(a, b) && Later(b, c)
    ensures Later(a, c)
  {
    forall t | t in a.leaderLogs
      ensures t in c.leaderLogs && Prefix(a.leaderLogs[t], c.leaderLogs[t])
    {
      assert Prefix(a.leaderLogs[t], b.leaderLogs[t]);
      assert Prefix(b.leaderLogs[t], c.leaderLogs[t]);
    }
  }

  lemma CommittedLater(n: nat, h: Ledger, h': Ledger, t: int, k: int)
    requires Committed(n, h, t, k) && Later(h, h')
    ensures Committed(n, h', t, k)
  {
    var q :| Quorum(n, q) && AckedByAll(h, q, t, k);
    forall p | p in q
      ensures Acked(h', p, t, k)
    {
      assert Acked(h, p, t, k);
    }
    assert AckedByAll(h', q, t, k);
    assert Prefix(h.leaderLogs[t], h'.leaderLogs[t]);
  }

  /** What justifies an index justifies every lower one. */
  lemma BackedLower(n: nat, h: Ledger, log: Log, c: int, c': int, bound: int)
    requires Backed(n, h, log, c, bound) && 0 <= c' <= c
    ensures Backed(n, h, log, c', bound)
  {
    if c' > 0 {
      var t, k :| BackedBy(n, h, log, c, bound, t, k);
      assert BackedBy(n, h, log, c', bound, t, k);
    }
  }

  lemma BackedLater(n: nat, h: Ledger, h': Ledger, log: Log, c: int, bound: int, bound': int)
    requires Backed(n, h, log, c, bound) && Later(h, h') && bound <= bound'
    ensures Backed(n, h', log, c, bound')
  {
    if c != 0 {
      var t, k :| BackedBy(n, h, log, c, bound, t, k);
      CommittedLater(n, h, h', t, k);
      assert Prefix(h.leaderLogs[t], h'.leaderLogs[t]);
      assert BackedBy(n, h', log, c, bound', t, k);
    }
  }

  lemma WellMatchedLater(log: Log, h: Ledger, h': Ledger)
    requires WellMatched(log, h.leaderLogs) && Later(h, h')
    ensures WellMatched(log, h'.leaderLogs)
  {
    forall k | 1 <= k < |log|
      ensures Sourced(log, k, h'.leaderLogs)
    {
      var t := log[k].term;
      assert Sourced(log, k, h.leaderLogs);
      assert Prefix(h.leaderLogs[t], h'.leaderLogs[t]);
    }
  }

  /** Growth keeps Kept, as long as the peer accepted nothing more in the terms concerned. */
  lemma KeptLater(h: Ledger, h': Ledger, v: int, log: Log, ackBound: int, ackBound': int, bound: int, bound': int)
    requires Kept(h, v, log, ackBound, bound) && Later(h, h') && AcksOk(h)
    requires bound <= bound'
    requires forall t | t < ackBound' && Ballot(v, t) in h'.acks ::
        t < ackBound && Ballot(v, t) in h.acks && h'.acks[Ballot(v, t)] == h.acks[Ballot(v, t)]
    ensures Kept(h', v, log, ackBound', bound')
  {
    forall t, n | Ballot(v, t) in h'.acks && t < ackBound' && 0 <= n <= h'.acks[Ballot(v, t)] && Inherited(h', t, n, bound')
      ensures Agree(log, h'.leaderLogs[t], n)
    {
      assert Ballot(v, t) in h.acks;
      assert Prefix(h.leaderLogs[t], h'.leaderLogs[t]);
      forall u | u in h.elections && t < u < bound
        ensures Agree(h.elections[u].base, h.leaderLogs[t], n)
      {
        assert Agree(h'.elections[u].base, h'.leaderLogs[t], n);
      }
      assert Inherited(h, t, n, bound);
    }
  }
}
