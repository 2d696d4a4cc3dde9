/**
 Log compaction is invisible: a peer that has replaced a prefix of its log by a snapshot position
 answers as it would with the whole log. `Compacts` relates a peer to the log it would hold had it
 never compacted; appending, accepting entries and taking snapshots keep the relation.
 */
module RaftCompaction {
  import opened Options
  import opened RaftTypes
  import opened RaftLog
  import opened RaftNode

  /** The log that starts with a placeholder of term lit for index li is the whole log from there on. */
  predicate Suffix(log: Log, li: int, lit: int, full: Log) {
    && log != []
    && 0 <= li
    && |full| == li + |log|
    && log[0].term == lit == full[li].term
    && forall k | 1 <= k < |log| :: log[k] == full[li + k]
  }

  predicate Compacts(s: Node, full: Log) {
    Suffix(s.log, s.lastIncludedIndex, s.lastIncludedTerm, full)
  }

  /** One index of the stored part. */
  lemma EntryThere(s: Node, full: Log, x: int)
    requires Compacts(s, full) && s.lastIncludedIndex <= x < |full|
    ensures TermAt(s, x) == full[x].term
    ensures s.lastIncludedIndex < x ==> s.log[x - s.lastIncludedIndex] == full[x]
  {
    var k := x - s.lastIncludedIndex;
    if k >= 1 {
      assert s.log[k] == full[s.lastIncludedIndex + k];
    }
  }

  lemma SameIndexes(s: Node, full: Log)
    requires Compacts(s, full)
    ensures LastIndex(s) == |full| - 1
    ensures LastLogTerm(s) == LastTerm(full)
    ensures forall x | s.lastIncludedIndex <= x < |full| :: TermAt(s, x) == full[x].term
    ensures forall x | x >= |full| :: TermAt(s, x) == -1
  {
    forall x | s.lastIncludedIndex <= x < |full|
      ensures TermAt(s, x) == full[x].term
    {
      EntryThere(s, full, x);
    }
    assert TermAt(s, |full| - 1) == LastLogTerm(s);
  }

  /** Equal terms from a position on give equal match lengths. */
  lemma {:induction false} SameMatch(a: Log, p: int, b: Log, d: int, entries: seq<Entry>, k: nat)
    requires 0 <= p && 0 <= d && |b| == |a| + d && k <= |entries| && p + k <= |a|
    requires forall x | p <= x < |a| :: a[x].term == b[x + d].term
    ensures MatchFrom(a, p, entries, k) == MatchFrom(b, p + d, entries, k)
    decreases |entries| - k
  {
    if k < |entries| && p + k < |a| && a[p + k].term == entries[k].term {
      SameMatch(a, p, b, d, entries, k + 1);
    }
  }

  lemma SameLength(log: Log, li: int, lit: int, full: Log, pos: int, from: int, entries: seq<Entry>) returns (m: nat)
    requires Suffix(log, li, lit, full) && 0 <= pos <= |log| && from == pos + li
    ensures m == MatchLength(log, pos, entries) == MatchLength(full, from, entries)
    ensures m <= |entries| && pos + m <= |log|
  {
    forall k | pos <= k < |log| ensures log[k].term == full[k + li].term {
      if k >= 1 {
        assert log[k] == full[li + k];
      }
    }
    SameMatch(log, pos, full, li, entries, 0);
    m := MatchLength(log, pos, entries);
  }

  /** Accepting entries beyond the snapshot position commutes with compaction. */
  lemma MergeSuffix(log: Log, li: int, lit: int, full: Log, prev: int, entries: seq<Entry>)
    returns (log': Log, full': Log)
    requires Suffix(log, li, lit, full) && 0 <= prev < |full| && prev + 1 >= li
    requires prev + 1 == li ==> MatchLength(full, prev + 1, entries) >= 1
    ensures log' == Merge(log, prev + 1 - li, entries) && full' == Merge(full, prev + 1, entries)
    ensures Suffix(log', li, lit, full')
  {
    var pos := prev + 1 - li;
    var m := SameLength(log, li, lit, full, pos, prev + 1, entries);
    log', full' := Merge(log, pos, entries), Merge(full, prev + 1, entries);
    if m < |entries| {
      CutSuffix(log, li, lit, full, pos + m, prev + 1 + m, entries[m..]);
    }
  }

  lemma CutSuffix(log: Log, li: int, lit: int, full: Log, c: int, d: int, more: seq<Entry>)
    requires Suffix(log, li, lit, full) && 1 <= c <= |log| && d == li + c
    ensures Suffix(log[..c] + more, li, lit, full[..d] + more)
  {
    var a := log[..c] + more;
    var b := full[..d] + more;
    forall k | 1 <= k < |a|
      ensures a[k] == b[li + k]
    {
      if k < c {
        assert log[k] == full[li + k];
      }
    }
  }

  lemma AppendSuffix(log: Log, li: int, lit: int, full: Log, e: Entry)
    requires Suffix(log, li, lit, full)
    ensures Suffix(log + [e], li, lit, full + [e])
  {
  }

  /** A snapshot changes the representation only. */
  lemma SnapshotCompacts(s: Node, full: Log, index: int)
    requires Compacts(s, full)
    ensures Compacts(Compacted(s, index), full)
  {
    var s' := Compacted(s, index);
    if s' != s {
      var pos := index - s.lastIncludedIndex;
      assert s.log[pos] == full[s.lastIncludedIndex + pos];
      forall k | 1 <= k < |s'.log|
        ensures s'.log[k] == full[s'.lastIncludedIndex + k]
      {
        assert s'.log[k] == s.log[pos + k] == full[s.lastIncludedIndex + (pos + k)];
      }
    }
  }

  // ---------------------------------------------------------------- runs of one peer, compacting or not

  /** What can happen to one peer's log: a snapshot by the service, a command, a request. */
  datatype Event = SnapshotTaken(index: int) | CommandGiven(command: Command) | RequestReceived(args: AppendArgs)

  /** The event's effect, and whether the peer answered with success. A crash leaves the peer as it was. */
  function Occur(s: Node, e: Event): (Node, bool) {
    match e
    case SnapshotTaken(index) => (Compacted(s, index), true)
    case CommandGiven(command) => (Started(s, command), s.role == Leader)
    case RequestReceived(a) =>
      match AfterAppend(s, a)
      case Answered(s', r) => (s', r.success)
      case Crashed(_) => (s, false)
  }

  function Answers(s: Node, es: seq<Event>): (Node, seq<bool>)
    decreases |es|
  {
    if es == [] then (s, [])
    else
      var (s1, ok) := Occur(s, es[0]);
      var (s2, oks) := Answers(s1, es[1..]);
      (s2, [ok] + oks)
  }

  /** The same peer in a world without snapshots. */
  function Uncompacted(s: Node, full: Log): Node {
    s.(log := full, lastIncludedIndex := 0, lastIncludedTerm := 0)
  }

  /** Requests reach back no further than the snapshot position at the time. */
  ghost predicate Above(s: Node, es: seq<Event>)
    decreases |es|
  {
    es == [] ||
    (&& (es[0].RequestReceived? ==> es[0].args.prevLogIndex >= s.lastIncludedIndex)
     && Above(Occur(s, es[0]).0, es[1..]))
  }

  function WithoutSnapshots(es: seq<Event>): seq<Event> {
    if es == [] then []
    else if es[0].SnapshotTaken? then WithoutSnapshots(es[1..])
    else [es[0]] + WithoutSnapshots(es[1..])
  }

  function Outcomes(es: seq<Event>, oks: seq<bool>): seq<bool>
    requires |es| == |oks|
  {
    if es == [] then []
    else if es[0].SnapshotTaken? then Outcomes(es[1..], oks[1..])
    else [oks[0]] + Outcomes(es[1..], oks[1..])
  }

  lemma {:induction false} AnswersLength(s: Node, es: seq<Event>)
    ensures |Answers(s, es).1| == |es|
    decreases |es|
  {
    if es != [] {
      AnswersLength(Occur(s, es[0]).0, es[1..]);
    }
  }

  predicate Merges(log: Log, pos: int, entries: seq<Entry>, log': Log)
    requires 0 <= pos <= |log|
  {
    log' == if |entries| == 0 then log else Merge(log, pos, entries)
  }

  /** In the stored part the handler's loop is the merge's own comparison. */
  lemma {:induction false} MatchingStored(s: Node, a: AppendArgs, pos: int, k: nat)
    requires pos == a.prevLogIndex + 1 - s.lastIncludedIndex && 0 <= pos && k <= |a.entries| && pos + k <= |s.log|
    ensures Matching(s, a, k) == MatchFrom(s.log, pos, a.entries, k)
    decreases |a.entries| - k
  {
    if k < |a.entries| && pos + k < |s.log| && s.log[pos + k].term == a.entries[k].term {
      MatchingStored(s, a, pos, k + 1);
    }
  }

  lemma MergedIs(s: Node, a: AppendArgs, pos: int, log': Log)
    requires pos == a.prevLogIndex + 1 - s.lastIncludedIndex && 0 <= pos <= |s.log|
    requires Merges(s.log, pos, a.entries, log')
    ensures Placeable(s, a) && log' == LogMerged(s, a)
  {
    MatchingStored(s, a, pos, 0);
  }

  /** The same, where the entries start above the placeholder or there are none. */
  lemma MergedSuffix(log: Log, li: int, lit: int, full: Log, prev: int, entries: seq<Entry>)
    returns (log': Log, full': Log)
    requires Suffix(log, li, lit, full) && li <= prev < |full|
    ensures Merges(log, prev + 1 - li, entries, log') && Merges(full, prev + 1, entries, full')
    ensures Suffix(log', li, lit, full') && full'[0] == full[0]
  {
    log', full' := log, full;
    if |entries| != 0 {
      MergeKeepsHead(full, prev + 1, entries);
      log', full' := MergeSuffix(log, li, lit, full, prev, entries);
    }
  }

  lemma MergeKeepsHead(log: Log, pos: int, entries: seq<Entry>)
    requires 1 <= pos <= |log|
    ensures Merge(log, pos, entries)[0] == log[0]
  {
  }

  lemma MergeNothing(log: Log, pos: int, entries: seq<Entry>)
    requires 0 <= pos <= |log| && |entries| == 0
    ensures Merge(log, pos, entries) == log
  {
  }

  lemma AcceptSame(s: Node, full: Log, a: AppendArgs) returns (full': Log)
    requires Compacts(s, full) && full[0] == Dummy
    requires s.lastIncludedIndex <= a.prevLogIndex < |full|
    ensures Compacts(LogAccepted(s, a), full') && full'[0] == Dummy
    ensures LogAccepted(Uncompacted(s, full), a) == Uncompacted(LogAccepted(s, a), full')
  {
    var log';
    log', full' := MergedSuffix(s.log, s.lastIncludedIndex, s.lastIncludedTerm, full, a.prevLogIndex, a.entries);
    MergedIs(s, a, a.prevLogIndex + 1 - s.lastIncludedIndex, log');
    MergedIs(Uncompacted(s, full), a, a.prevLogIndex + 1, full');
    AcceptedSame(s, full, a, log', full');
  }

  lemma AcceptedSame(s: Node, full: Log, a: AppendArgs, log': Log, full': Log)
    requires Placeable(s, a) && log' == LogMerged(s, a)
    requires Placeable(Uncompacted(s, full), a) && full' == LogMerged(Uncompacted(s, full), a)
    requires |full'| == s.lastIncludedIndex + |log'|
    ensures LogAccepted(s, a).log == log' && LogAccepted(s, a).lastIncludedIndex == s.lastIncludedIndex
    ensures LogAccepted(s, a).lastIncludedTerm == s.lastIncludedTerm
    ensures LogAccepted(Uncompacted(s, full), a) == Uncompacted(LogAccepted(s, a), full')
  {
  }

  /** The whole log holds the entry that a request builds on. */
  predicate Connects(full: Log, a: AppendArgs) {
    a.prevLogIndex <= 0 || (a.prevLogIndex < |full| && full[a.prevLogIndex].term == a.prevLogTerm)
  }

  /** For a request not reaching below the snapshot, the whole log decides whether it is accepted. */
  lemma Verdict(s: Node, full: Log, a: AppendArgs)
    requires Compacts(s, full) && s.lastIncludedIndex <= a.prevLogIndex && s.currentTerm <= a.term
    ensures Connects(full, a) ==>
        Placeable(s, a) && AfterAppend(s, a) == Answered(LogAccepted(s, a), AppendReply(s.currentTerm, true, 0, 0))
    ensures !Connects(full, a) ==>
        && AfterAppend(s, a).Answered?
        && AfterAppend(s, a).node == Heard(s, a.term)
        && !AfterAppend(s, a).reply.success
  {
    SameIndexes(s, full);
  }

  /** An offered entry for an index below the snapshot, of a term other than the -1 that is read there. */
  predicate ConflictsBelow(s: Node, a: AppendArgs, k: int) {
    0 <= k < |a.entries| && a.prevLogIndex + 1 + k < s.lastIncludedIndex && a.entries[k].term != -1
  }

  lemma {:induction false} MatchingBelow(s: Node, a: AppendArgs, k: nat)
    requires s.log != [] && k <= |a.entries| && forall j | 0 <= j < k :: !ConflictsBelow(s, a, j)
    requires k > 0 ==> a.prevLogIndex + k < s.lastIncludedIndex
    ensures
      var m := Matching(s, a, k);
      m < |a.entries| && a.prevLogIndex + 1 + m < s.lastIncludedIndex <==> exists j :: ConflictsBelow(s, a, j)
    decreases |a.entries| - k
  {
    if k < |a.entries| && a.prevLogIndex + 1 + k < s.lastIncludedIndex {
      if a.entries[k].term == -1 {
        MatchingBelow(s, a, k + 1);
      } else {
        assert ConflictsBelow(s, a, k);
      }
    }
  }

  /** Below the snapshot compaction does show: the handler slices at a negative index exactly when a
      request of a current term starts from the very beginning and conflicts below the snapshot. */
  lemma CrashesExactlyWhen(s: Node, a: AppendArgs)
    requires s.log != [] && s.lastIncludedIndex >= 0
    ensures AfterAppend(s, a).Crashed? <==>
        s.currentTerm <= a.term && a.prevLogIndex <= 0 && exists k :: ConflictsBelow(s, a, k)
  {
    MatchingBelow(s, a, 0);
  }

  /** For a request that a leader sends, whose terms are positive: from index 0, with entries, when the
      snapshot covers index 2 or more. */
  lemma LeaderRequestCrashes(s: Node, a: AppendArgs)
    requires s.log != [] && s.lastIncludedIndex >= 0 && a.prevLogIndex >= 0
    requires forall k | 0 <= k < |a.entries| :: a.entries[k].term > 0
    ensures AfterAppend(s, a).Crashed? <==>
        s.currentTerm <= a.term && a.prevLogIndex == 0 && |a.entries| > 0 && s.lastIncludedIndex >= 2
  {
    CrashesExactlyWhen(s, a);
    if |a.entries| > 0 && a.prevLogIndex + 1 < s.lastIncludedIndex {
      assert ConflictsBelow(s, a, 0);
    }
  }

  lemma ReceiveSame(s: Node, full: Log, a: AppendArgs) returns (full': Log)
    requires Compacts(s, full) && full[0] == Dummy
    requires s.lastIncludedIndex <= a.prevLogIndex
    ensures Compacts(Occur(s, RequestReceived(a)).0, full') && full'[0] == Dummy
    ensures Occur(Uncompacted(s, full), RequestReceived(a)).0 == Uncompacted(Occur(s, RequestReceived(a)).0, full')
    ensures Occur(Uncompacted(s, full), RequestReceived(a)).1 == Occur(s, RequestReceived(a)).1
  {
    full' := full;
    if s.currentTerm <= a.term {
      Verdict(s, full, a);
      Verdict(Uncompacted(s, full), full, a);
      if Connects(full, a) {
        full' := AcceptSame(s, full, a);
      }
    }
  }

  lemma OccurSame(s: Node, full: Log, e: Event) returns (full': Log)
    requires Compacts(s, full) && full[0] == Dummy && !e.SnapshotTaken?
    requires e.RequestReceived? ==> e.args.prevLogIndex >= s.lastIncludedIndex
    ensures Compacts(Occur(s, e).0, full') && full'[0] == Dummy
    ensures Occur(Uncompacted(s, full), e).0 == Uncompacted(Occur(s, e).0, full')
    ensures Occur(Uncompacted(s, full), e).1 == Occur(s, e).1
  {
    match e {
      case CommandGiven(command) =>
        full' := if s.role == Leader then full + [Entry(command, s.currentTerm)] else full;
        AppendSuffix(s.log, s.lastIncludedIndex, s.lastIncludedTerm, full, Entry(command, s.currentTerm));
      case RequestReceived(a) =>
        full' := ReceiveSame(s, full, a);
    }
  }

  /** Compaction refinement: with snapshots or without, the same requests and commands get the same
      answers, and the two logs have the same last index, last term and term at every index kept. */
  lemma {:induction false} CompactionRefines(s: Node, full: Log, es: seq<Event>) returns (full': Log)
    requires Compacts(s, full) && full[0] == Dummy && Above(s, es)
    ensures |Answers(s, es).1| == |es|
    ensures Answers(Uncompacted(s, full), WithoutSnapshots(es)).0 == Uncompacted(Answers(s, es).0, full')
    ensures Answers(Uncompacted(s, full), WithoutSnapshots(es)).1 == Outcomes(es, Answers(s, es).1)
    ensures Compacts(Answers(s, es).0, full')
    decreases |es|
  {
    AnswersLength(s, es);
    full' := full;
    if es != [] {
      var s1 := Occur(s, es[0]).0;
      if es[0].SnapshotTaken? {
        SnapshotCompacts(s, full, es[0].index);
        assert Uncompacted(s1, full) == Uncompacted(s, full);
        full' := CompactionRefines(s1, full, es[1..]);
      } else {
        var full1 := OccurSame(s, full, es[0]);
        full' := CompactionRefines(s1, full1, es[1..]);
        assert WithoutSnapshots(es)[1..] == WithoutSnapshots(es[1..]);
      }
    }
  }
}
