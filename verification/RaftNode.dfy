/**
 One Raft peer as a value, and what each lock-held section of src/raft1/raft.go makes of it.
 Log positions follow the source: `log[0]` is a placeholder standing for index `lastIncludedIndex`,
 and the entry of index x sits at position x - lastIncludedIndex.
 */
module RaftNode {
  import opened Options
  import opened RaftTypes
  import opened RaftLog

  datatype Node = Node(
    me: int,
    size: int,                 // number of peers, this one included
    currentTerm: int,
    votedFor: int,             // -1: nobody
    log: Log,
    commitIndex: int,
    lastApplied: int,
    nextIndex: seq<int>,
    matchIndex: seq<int>,
    role: Role,
    votesReceived: int,
    lastIncludedIndex: int,
    lastIncludedTerm: int)

  /** What persist() writes and readPersist() reads back. */
  datatype Durable = Durable(currentTerm: int, votedFor: int, log: Log, lastIncludedIndex: int, lastIncludedTerm: int)

  function DurableOf(s: Node): Durable {
    Durable(s.currentTerm, s.votedFor, s.log, s.lastIncludedIndex, s.lastIncludedTerm)
  }

  const Blank: Durable := Durable(0, -1, [Dummy], 0, 0)

  // ---------------------------------------------------------------- index helpers

  function LastIndex(s: Node): int {
    |s.log| - 1 + s.lastIncludedIndex
  }

  function LastLogTerm(s: Node): int {
    if s.log == [] then s.lastIncludedTerm else LastTerm(s.log)
  }

  function TermAt(s: Node, index: int): int {
    var pos := index - s.lastIncludedIndex;
    if pos < 0 || pos >= |s.log| then -1 else s.log[pos].term
  }

  // ---------------------------------------------------------------- restart

  /** A peer as Make() leaves it, from what was persisted. */
  function Recovered(me: int, size: int, d: Durable): Node {
    var start := if d.lastIncludedIndex > 0 then d.lastIncludedIndex else 0;
    Node(me, size, d.currentTerm, d.votedFor, d.log, start, start, [], [], Follower, 0, d.lastIncludedIndex, d.lastIncludedTerm)
  }

  function Restarted(s: Node): Node {
    Recovered(s.me, s.size, DurableOf(s))
  }

  // ---------------------------------------------------------------- elections

  function StepDownTo(s: Node, term: int): Node {
    s.(currentTerm := term, votedFor := -1, role := Follower)
  }

  function TimedOut(s: Node): Node {
    s.(role := Candidate, currentTerm := s.currentTerm + 1, votedFor := s.me)
  }

  function RoundOpened(s: Node): Node {
    s.(votesReceived := 1)
  }

  function RoundArgs(s: Node): VoteArgs {
    VoteArgs(s.currentTerm, s.me, LastIndex(s), LastLogTerm(s))
  }

  predicate CandidateUpToDate(s: Node, a: VoteArgs) {
    a.lastLogTerm > LastLogTerm(s) || (a.lastLogTerm == LastLogTerm(s) && a.lastLogIndex >= LastIndex(s))
  }

  /** The peer after the term check of a request: a higher term is adopted. */
  function TermSeen(s: Node, term: int): Node {
    if term > s.currentTerm then StepDownTo(s, term) else s
  }

  predicate Grants(s: Node, a: VoteArgs) {
    && a.term >= s.currentTerm
    && (TermSeen(s, a.term).votedFor == -1 || TermSeen(s, a.term).votedFor == a.candidate)
    && CandidateUpToDate(s, a)
  }

  function AfterVoteRequest(s: Node, a: VoteArgs): Node {
    if Grants(s, a) then TermSeen(s, a.term).(votedFor := a.candidate) else TermSeen(s, a.term)
  }

  /** The term in the reply is the one read before any adoption. */
  function VoteAnswer(s: Node, a: VoteArgs): VoteReply {
    VoteReply(s.currentTerm, Grants(s, a))
  }

  function Fill(n: nat, x: int): (r: seq<int>)
    ensures |r| == n && forall k | 0 <= k < n :: r[k] == x
  {
    seq(n, _ => x)
  }

  function LeaderInit(s: Node): Node
    requires s.size >= 0
  {
    s.(role := Leader, nextIndex := Fill(s.size, LastIndex(s) + 1), matchIndex := Fill(s.size, 0))
  }

  function AfterVoteReply(s: Node, a: VoteArgs, r: VoteReply): Node
    requires s.size >= 0
  {
    if s.role != Candidate || s.currentTerm != a.term then s
    else if r.term > s.currentTerm then StepDownTo(s, r.term)
    else if !r.granted then s
    else
      var s' := s.(votesReceived := s.votesReceived + 1);
      if s'.votesReceived > s.size / 2 then LeaderInit(s') else s'
  }

  // ---------------------------------------------------------------- replication, leader side

  function Started(s: Node, command: Command): Node {
    if s.role != Leader then s else s.(log := s.log + [Entry(command, s.currentTerm)])
  }

  /** The request built for a follower whose next index is past the snapshot. */
  function AppendFor(s: Node, next: int): AppendArgs
    requires next > s.lastIncludedIndex
  {
    var prev := next - 1;
    var pos := next - s.lastIncludedIndex;
    AppendArgs(
      s.currentTerm, s.me, prev,
      if prev <= 0 then 0 else if prev == s.lastIncludedIndex then s.lastIncludedTerm else TermAt(s, prev),
      if pos < |s.log| then s.log[pos..] else [],
      s.commitIndex)
  }

  /** How many peers, this one included, are known to hold the log through index n; peers from k on are counted. */
  function Holders(s: Node, n: int, k: int): int
    requires 0 <= k <= |s.matchIndex|
    decreases |s.matchIndex| - k
  {
    if k == |s.matchIndex| then 1
    else (if k != s.me && s.matchIndex[k] >= n then 1 else 0) + Holders(s, n, k + 1)
  }

  predicate Committable(s: Node, n: int) {
    TermAt(s, n) == s.currentTerm && Holders(s, n, 0) > s.size / 2
  }

  /** The greatest committable index in (commitIndex, n], or commitIndex when there is none. */
  function CommitTarget(s: Node, n: int): (c: int)
    ensures c == s.commitIndex || (s.commitIndex < c <= n && Committable(s, c))
    ensures forall k | s.commitIndex < k <= n && c < k :: !Committable(s, k)
    decreases n - s.commitIndex
  {
    if n <= s.commitIndex then s.commitIndex
    else if Committable(s, n) then n
    else CommitTarget(s, n - 1)
  }

  /** The last position from 1 to n whose entry has the term, or -1. */
  function LastPosition(log: Log, term: int, n: int): (p: int)
    requires n < |log|
    ensures p == -1 || (1 <= p <= n && log[p].term == term)
    ensures forall k | 1 <= k <= n && p < k :: log[k].term != term
    decreases n
  {
    if n < 1 then -1 else if log[n].term == term then n else LastPosition(log, term, n - 1)
  }

  function BackUp(s: Node, r: AppendReply): int {
    var next :=
      if r.conflictTerm == -1 then r.conflictIndex
      else
        var p := LastPosition(s.log, r.conflictTerm, |s.log| - 1);
        if p >= 0 then p + 1 else r.conflictIndex;
    if next < 1 then 1 else next
  }

  function AfterAppendReply(s: Node, server: int, a: AppendArgs, r: AppendReply): Node
    requires s.role == Leader ==> 0 <= server < |s.nextIndex| && server < |s.matchIndex|
  {
    if s.role != Leader || s.currentTerm != a.term then s
    else if r.term > s.currentTerm then StepDownTo(s, r.term)
    else if r.success then
      var m := a.prevLogIndex + |a.entries|;
      var s' := s.(nextIndex := s.nextIndex[server := m + 1], matchIndex := s.matchIndex[server := m]);
      s'.(commitIndex := CommitTarget(s', LastIndex(s')))
    else s.(nextIndex := s.nextIndex[server := BackUp(s, r)])
  }

  // ---------------------------------------------------------------- replication, follower side

  /** The first index of the run of equal terms that ends at `index`; the run is not followed below the snapshot. */
  function RunStart(s: Node, index: int): (c: int)
    requires s.lastIncludedIndex <= index <= LastIndex(s)
    ensures s.lastIncludedIndex <= c <= index
    ensures forall k | c <= k <= index :: TermAt(s, k) == TermAt(s, index)
    ensures c > s.lastIncludedIndex ==> TermAt(s, c - 1) != TermAt(s, index)
    decreases index - s.lastIncludedIndex
  {
    if index > s.lastIncludedIndex && TermAt(s, index - 1) == TermAt(s, index) then RunStart(s, index - 1) else index
  }

  /** An AppendEntries handler either answers or crashes the process on a negative slice bound. */
  datatype Outcome = Answered(node: Node, reply: AppendReply) | Crashed(node: Node)

  /** The consistency check: the log holds the entry before the offered ones. A request from the very start passes. */
  predicate Consistent(s: Node, a: AppendArgs) {
    a.prevLogIndex <= 0 ||
    (s.lastIncludedIndex <= a.prevLogIndex <= LastIndex(s) && TermAt(s, a.prevLogIndex) == a.prevLogTerm)
  }

  /** The hint given with a rejection: conflicting term, or -1 when there is no entry to name, and an index. */
  function Conflict(s: Node, a: AppendArgs): (int, int)
    requires !Consistent(s, a)
  {
    if a.prevLogIndex < s.lastIncludedIndex then (-1, s.lastIncludedIndex + 1)
    else if a.prevLogIndex > LastIndex(s) then (-1, LastIndex(s) + 1)
    else (TermAt(s, a.prevLogIndex), RunStart(s, a.prevLogIndex))
  }

  function Heard(s: Node, term: int): Node {
    TermSeen(s, term).(role := Follower)
  }

  /** How many offered entries, from the k-th on, the log already has by term. */
  function Matching(s: Node, a: AppendArgs, k: nat): (m: nat)
    requires k <= |a.entries|
    ensures k <= m <= |a.entries|
    ensures a.prevLogIndex + k <= LastIndex(s) ==> a.prevLogIndex + m <= LastIndex(s)
    decreases |a.entries| - k
  {
    if k < |a.entries| && a.prevLogIndex + 1 + k <= LastIndex(s) && TermAt(s, a.prevLogIndex + 1 + k) == a.entries[k].term
    then Matching(s, a, k + 1)
    else k
  }

  /** Nothing is missing, or the first missing entry goes to a position of the stored log. */
  predicate Placeable(s: Node, a: AppendArgs) {
    var m := Matching(s, a, 0);
    m == |a.entries| || 0 <= a.prevLogIndex + 1 + m - s.lastIncludedIndex <= |s.log|
  }

  function LogMerged(s: Node, a: AppendArgs): Log
    requires Placeable(s, a)
  {
    var m := Matching(s, a, 0);
    if m == |a.entries| then s.log else s.log[..a.prevLogIndex + 1 + m - s.lastIncludedIndex] + a.entries[m..]
  }

  function LogAccepted(s: Node, a: AppendArgs): Node
    requires Placeable(s, a)
  {
    var s1 := Heard(s, a.term).(log := LogMerged(s, a));
    var last := LastIndex(s1);
    if a.leaderCommit <= s.commitIndex then s1
    else s1.(commitIndex := if a.leaderCommit > last then last else a.leaderCommit)
  }

  function AfterAppend(s: Node, a: AppendArgs): Outcome {
    if a.term < s.currentTerm then Answered(s, AppendReply(s.currentTerm, false, 0, 0))
    else if !Consistent(s, a) then
      Answered(Heard(s, a.term), AppendReply(s.currentTerm, false, Conflict(s, a).0, Conflict(s, a).1))
    else if Placeable(s, a) then Answered(LogAccepted(s, a), AppendReply(s.currentTerm, true, 0, 0))
    else Crashed(Heard(s, a.term))
  }

  // ---------------------------------------------------------------- snapshots

  function Compacted(s: Node, index: int): Node {
    var pos := index - s.lastIncludedIndex;
    if index <= s.lastIncludedIndex || pos >= |s.log| then s
    else s.(
      log := [Entry(None, s.log[pos].term)] + s.log[pos + 1..],
      lastIncludedIndex := index,
      lastIncludedTerm := s.log[pos].term)
  }

  /** The log after a snapshot from the leader: a placeholder, and whatever the peer held beyond it. */
  function LogInstalled(s: Node, index: int, term: int): Log
    requires index > s.lastIncludedIndex
  {
    [Entry(None, term)] + (if index < LastIndex(s) then s.log[index + 1 - s.lastIncludedIndex..] else [])
  }

  function AfterInstall(s: Node, a: SnapshotArgs): Node {
    if a.term < s.currentTerm then s
    else if a.lastIncludedIndex <= s.lastIncludedIndex then TermSeen(s, a.term)
    else TermSeen(s, a.term).(
      log := LogInstalled(s, a.lastIncludedIndex, a.lastIncludedTerm),
      lastIncludedIndex := a.lastIncludedIndex,
      lastIncludedTerm := a.lastIncludedTerm,
      commitIndex := if a.lastIncludedIndex > s.commitIndex then a.lastIncludedIndex else s.commitIndex)
  }

  // ---------------------------------------------------------------- the applier

  /** First half of a pass: a snapshot the service has not seen goes first. */
  predicate SnapshotDue(s: Node) {
    s.lastApplied < s.commitIndex && s.lastApplied < s.lastIncludedIndex
  }

  function SnapshotApplied(s: Node): Node {
    if SnapshotDue(s) then s.(lastApplied := s.lastIncludedIndex) else s
  }

  /** The messages for the indexes from `index` to `end` that are not inside the snapshot and hold a command. */
  function Messages(s: Node, index: int, end: int): seq<ApplyMsg>
    decreases end - index
  {
    if index > end then []
    else
      var pos := index - s.lastIncludedIndex;
      (if 0 < pos < |s.log| && s.log[pos].command.Some? then [CommandMsg(index, s.log[pos].command.value)] else [])
      + Messages(s, index + 1, end)
  }

  /** Second half of a pass. */
  function BatchMessages(s: Node): seq<ApplyMsg> {
    Messages(s, s.lastApplied + 1, s.commitIndex)
  }

  function BatchApplied(s: Node): Node {
    s.(lastApplied := s.commitIndex)
  }

  /** A whole pass of the applier: the peer afterwards, and the batch it hands over. */
  function Passed(s: Node): Node {
    if s.commitIndex > s.lastApplied then BatchApplied(SnapshotApplied(s)) else s
  }

  function PassBatch(s: Node): seq<ApplyMsg> {
    if s.commitIndex > s.lastApplied then BatchMessages(SnapshotApplied(s)) else []
  }
}
