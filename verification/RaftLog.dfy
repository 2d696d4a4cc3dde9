/**
 Logs as sequences indexed from the placeholder at 0: agreement of two logs
 through an index, the up-to-date comparison of an election, and the effect of
 one accepted AppendEntries request on a log.
 */
module RaftLog {
  import opened Options
  import opened RaftTypes

  /** Both logs reach index n and hold the same entries at 0..n. */
  predicate Agree(a: Log, b: Log, n: int) {
    && 0 <= n < |a|
    && n < |b|
    && forall k | 0 <= k <= n :: a[k] == b[k]
  }

  function LastTerm(log: Log): int
    requires log != []
  {
    log[|log| - 1].term
  }

  /** Section 5.4.1 of the Raft paper: log a is at least as up to date as log b. */
  predicate UpToDate(a: Log, b: Log)
    requires a != [] && b != []
  {
    LastTerm(a) > LastTerm(b) || (LastTerm(a) == LastTerm(b) && |a| >= |b|)
  }

  /** From k entries known to match, how many match in all, by term, at position pos of the log onwards. */
  function MatchFrom(log: Log, pos: int, entries: seq<Entry>, k: nat): (m: nat)
    requires 0 <= pos && k <= |entries| && pos + k <= |log|
    ensures k <= m <= |entries| && pos + m <= |log|
    decreases |entries| - k
  {
    if k < |entries| && pos + k < |log| && log[pos + k].term == entries[k].term then MatchFrom(log, pos, entries, k + 1)
    else k
  }

  lemma {:induction false} MatchMeaning(log: Log, pos: int, entries: seq<Entry>, k: nat)
    requires 0 <= pos && k <= |entries| && pos + k <= |log|
    ensures var m := MatchFrom(log, pos, entries, k);
      && (forall j | k <= j < m :: log[pos + j].term == entries[j].term)
      && (m < |entries| && pos + m < |log| ==> log[pos + m].term != entries[m].term)
    decreases |entries| - k
  {
    if k < |entries| && pos + k < |log| && log[pos + k].term == entries[k].term {
      MatchMeaning(log, pos, entries, k + 1);
    }
  }

  function MatchLength(log: Log, pos: int, entries: seq<Entry>): nat
    requires 0 <= pos <= |log|
  {
    MatchFrom(log, pos, entries, 0)
  }

  /** The log after an accepted request: cut at the first conflict only, then extended. */
  function Merge(log: Log, pos: int, entries: seq<Entry>): (r: Log)
    requires 0 <= pos <= |log|
    ensures |r| >= pos + |entries|
  {
    var k := MatchLength(log, pos, entries);
    if k == |entries| then log else log[..pos + k] + entries[k..]
  }
}
