/**
 The Raft object of src/raft1/raft.go and its stable store, with the source's in-place updates and
 loops. Each method is proved to do to the object's fields what the matching function of RaftNode
 does to a value, and `Valid` says that after every method the store decodes to the fields in memory.

 The codec of the store is taken to be exact: what is stored is the record that was encoded.
 Timers are left out; a method that the source guards by an elapsed time is called when it fires.
 */
module RaftServer {
  import opened Options
  import opened RaftTypes
  import opened RaftLog
  import opened RaftNode

  class Persister {
    var raftstate: Option<Durable>
    var snapshot: seq<char>

    constructor ()
      ensures raftstate == None && snapshot == []
    {
      raftstate, snapshot := None, [];
    }

    method Save(state: Durable, data: seq<char>)
      modifies this
      ensures raftstate == Some(state) && snapshot == data
    {
      raftstate, snapshot := Some(state), data;
    }
  }

  /** What readPersist() finds: nothing stored means a fresh peer. */
  function Decoded(stored: Option<Durable>): Durable {
    match stored
    case None => Blank
    case Some(d) => d
  }

  /** A store that can be started from: empty, or written by some peer. */
  predicate Loadable(stored: Option<Durable>) {
    Decoded(stored).log != [] && Decoded(stored).lastIncludedIndex >= 0
  }

  class Raft {
    const me: int
    const size: int
    const persister: Persister

    var currentTerm: int
    var votedFor: int
    var log: Log
    var commitIndex: int
    var lastApplied: int
    var nextIndex: seq<int>
    var matchIndex: seq<int>
    var role: Role
    var votesReceived: int
    var lastIncludedIndex: int
    var lastIncludedTerm: int

    function State(): Node
      reads this
    {
      Node(me, size, currentTerm, votedFor, log, commitIndex, lastApplied, nextIndex, matchIndex,
           role, votesReceived, lastIncludedIndex, lastIncludedTerm)
    }

    /** Well-formed fields, and write-through persistence. */
    ghost predicate Valid()
      reads this, persister
    {
      && 0 <= me < size
      && log != []
      && lastIncludedIndex >= 0
      && (role == Leader ==> |nextIndex| == size == |matchIndex|)
      && Decoded(persister.raftstate) == DurableOf(State())
    }

    /** Make(): a peer restarts from its store. */
    constructor (me: int, size: int, persister: Persister)
      requires 0 <= me < size && Loadable(persister.raftstate)
      ensures Valid() && this.persister == persister && this.me == me && this.size == size
      ensures State() == Recovered(me, size, Decoded(persister.raftstate))
    {
      this.me, this.size, this.persister := me, size, persister;
      currentTerm, votedFor, log := 0, -1, [Dummy];
      commitIndex, lastApplied := 0, 0;
      nextIndex, matchIndex := [], [];
      role, votesReceived := Follower, 0;
      lastIncludedIndex, lastIncludedTerm := 0, 0;
      new;
      ReadPersist(persister.raftstate);
    }

    method ReadPersist(data: Option<Durable>)
      modifies this
      ensures
        var o := old(State());
        State() == match data
          case None => o
          case Some(d) => o.(
            currentTerm := d.currentTerm, votedFor := d.votedFor, log := d.log,
            lastIncludedIndex := d.lastIncludedIndex, lastIncludedTerm := d.lastIncludedTerm,
            lastApplied := if o.lastApplied < d.lastIncludedIndex then d.lastIncludedIndex else o.lastApplied,
            commitIndex := if o.commitIndex < d.lastIncludedIndex then d.lastIncludedIndex else o.commitIndex)
    {
      match data {
        case None =>
        case Some(d) =>
          currentTerm, votedFor, log := d.currentTerm, d.votedFor, d.log;
          lastIncludedIndex, lastIncludedTerm := d.lastIncludedIndex, d.lastIncludedTerm;
          if lastApplied < lastIncludedIndex {
            lastApplied := lastIncludedIndex;
          }
          if commitIndex < lastIncludedIndex {
            commitIndex := lastIncludedIndex;
          }
      }
    }

    method Persist()
      modifies persister
      ensures persister.raftstate == Some(DurableOf(State())) && persister.snapshot == old(persister.snapshot)
    {
      persister.Save(DurableOf(State()), persister.snapshot);
    }

    // ---------------------------------------------------------------- index helpers

    method GetLastLogIndex() returns (r: int)
      ensures r == LastIndex(State())
    {
      r := |log| - 1 + lastIncludedIndex;
    }

    method GetLastLogTerm() returns (r: int)
      ensures r == LastLogTerm(State())
    {
      if |log| == 0 {
        return lastIncludedTerm;
      }
      r := log[|log| - 1].term;
    }

    method GetLogTerm(index: int) returns (r: int)
      ensures r == TermAt(State(), index)
    {
      var pos := index - lastIncludedIndex;
      if pos < 0 || pos >= |log| {
        return -1;
      }
      r := log[pos].term;
    }

    // ---------------------------------------------------------------- elections

    /** checkElectionTimeout, once the timeout has elapsed. */
    method ElectionTimeout()
      requires Valid()
      modifies this, persister
      ensures Valid() && State() == TimedOut(old(State()))
    {
      role := Candidate;
      currentTerm := currentTerm + 1;
      votedFor := me;
      Persist();
    }

    /** startElection up to the unlock: the arguments go to every other peer. */
    method StartElection() returns (args: VoteArgs)
      requires Valid()
      modifies this
      ensures Valid() && State() == RoundOpened(old(State())) && args == RoundArgs(old(State()))
    {
      votesReceived := 1;
      var lastLogIndex := GetLastLogIndex();
      var lastLogTerm := GetLastLogTerm();
      args := VoteArgs(currentTerm, me, lastLogIndex, lastLogTerm);
    }

    method RequestVote(args: VoteArgs) returns (reply: VoteReply)
      requires Valid()
      modifies this, persister
      ensures Valid() && State() == AfterVoteRequest(old(State()), args) && reply == VoteAnswer(old(State()), args)
    {
      reply := VoteReply(currentTerm, false);
      if args.term < currentTerm {
        return;
      }
      if args.term > currentTerm {
        currentTerm, votedFor, role := args.term, -1, Follower;
        Persist();
      }
      if votedFor == -1 || votedFor == args.candidate {
        var lastLogIndex := GetLastLogIndex();
        var lastLogTerm := GetLastLogTerm();
        var upToDate := false;
        if args.lastLogTerm > lastLogTerm {
          upToDate := true;
        } else if args.lastLogTerm == lastLogTerm {
          if args.lastLogIndex >= lastLogIndex {
            upToDate := true;
          }
        }
        if upToDate {
          votedFor := args.candidate;
          Persist();
          reply := reply.(granted := true);
        }
      }
    }

    /** The reply half of a vote round. */
    method HandleVoteReply(args: VoteArgs, reply: VoteReply)
      requires Valid()
      modifies this, persister
      ensures Valid() && State() == AfterVoteReply(old(State()), args, reply)
    {
      if role != Candidate || currentTerm != args.term {
        return;
      }
      if reply.term > currentTerm {
        currentTerm, role, votedFor := reply.term, Follower, -1;
        Persist();
        return;
      }
      if reply.granted {
        votesReceived := votesReceived + 1;
        if votesReceived > size / 2 {
          role := Leader;
          InitializeLeaderState();
        }
      }
    }

    method InitializeLeaderState()
      requires size >= 0
      modifies this`nextIndex, this`matchIndex
      ensures nextIndex == Fill(size, LastIndex(old(State())) + 1) && matchIndex == Fill(size, 0)
    {
      var last := GetLastLogIndex();
      var next: seq<int>, matched: seq<int> := [], [];
      var i := 0;
      while i < size
        invariant 0 <= i <= size && |next| == i == |matched|
        invariant forall k | 0 <= k < i :: next[k] == last + 1 && matched[k] == 0
      {
        next, matched := next + [last + 1], matched + [0];
        i := i + 1;
      }
      assert next == Fill(size, last + 1) && matched == Fill(size, 0);
      nextIndex, matchIndex := next, matched;
    }

    // ---------------------------------------------------------------- replication, leader side

    method Start(command: Command) returns (index: int, term: int, isLeader: bool)
      requires Valid()
      modifies this, persister
      ensures Valid() && State() == Started(old(State()), command)
      ensures isLeader == (old(role) == Leader)
      ensures if isLeader then index == LastIndex(State()) && term == currentTerm && log[|log| - 1] == Entry(command, term)
              else index == term == -1
    {
      if role != Leader {
        return -1, -1, false;
      }
      log := log + [Entry(command, currentTerm)];
      Persist();
      index := GetLastLogIndex();
      return index, currentTerm, true;
    }

    /** sendToFollower up to the unlock, for a follower whose next index is past the snapshot. */
    method BuildAppend(server: int) returns (args: AppendArgs)
      requires Valid() && role == Leader && 0 <= server < size && nextIndex[server] > lastIncludedIndex
      ensures args == AppendFor(State(), nextIndex[server])
    {
      var next := nextIndex[server];
      var prevLogIndex := next - 1;
      var prevLogTerm := 0;
      if prevLogIndex > 0 {
        if prevLogIndex == lastIncludedIndex {
          prevLogTerm := lastIncludedTerm;
        } else {
          prevLogTerm := GetLogTerm(prevLogIndex);
        }
      }
      var entries: seq<Entry> := [];
      var pos := next - lastIncludedIndex;
      if pos < |log| {
        entries := log[pos..];
      }
      args := AppendArgs(currentTerm, me, prevLogIndex, prevLogTerm, entries, commitIndex);
    }

    method HandleAppendReply(server: int, args: AppendArgs, reply: AppendReply)
      requires Valid() && 0 <= server < size
      modifies this, persister
      ensures Valid() && State() == AfterAppendReply(old(State()), server, args, reply)
    {
      if role != Leader || currentTerm != args.term {
        return;
      }
      if reply.term > currentTerm {
        currentTerm, role, votedFor := reply.term, Follower, -1;
        Persist();
        return;
      }
      if reply.success {
        nextIndex := nextIndex[server := args.prevLogIndex + |args.entries| + 1];
        matchIndex := matchIndex[server := args.prevLogIndex + |args.entries|];
        TryCommit();
      } else {
        var next := BackUpIndex(reply);
        nextIndex := nextIndex[server := next];
      }
    }

    /** The conflict search of handleAppendEntriesReply. */
    method BackUpIndex(reply: AppendReply) returns (next: int)
      ensures next == BackUp(State(), reply)
    {
      if reply.conflictTerm == -1 {
        next := reply.conflictIndex;
      } else {
        var found := -1;
        var i := |log| - 1;
        while i >= 1
          invariant -1 <= i < |log| && (|log| > 0 ==> 0 <= i)
          invariant found == -1
          invariant LastPosition(log, reply.conflictTerm, i) == LastPosition(log, reply.conflictTerm, |log| - 1)
        {
          if log[i].term == reply.conflictTerm {
            found := i;
            break;
          }
          i := i - 1;
        }
        next := if found >= 0 then found + 1 else reply.conflictIndex;
      }
      if next < 1 {
        next := 1;
      }
    }

    method TryCommit()
      requires Valid() && role == Leader
      modifies this`commitIndex
      ensures Valid() && commitIndex == CommitTarget(old(State()), LastIndex(old(State())))
    {
      ghost var s := State();
      var last := GetLastLogIndex();
      var n := commitIndex + 1;
      while n <= last
        invariant s.commitIndex + 1 <= n && (n <= last + 1 || n == s.commitIndex + 1)
        invariant commitIndex == CommitTarget(s, n - 1)
        invariant State() == s.(commitIndex := commitIndex)
      {
        var term := GetLogTerm(n);
        if term == currentTerm {
          var count := CountHolders(n);
          SameHolders(s, State(), n, 0);
          if count > size / 2 {
            commitIndex := n;
          }
        }
        n := n + 1;
      }
      if last < s.commitIndex {
        assert CommitTarget(s, last) == s.commitIndex;
      }
    }

    method CountHolders(n: int) returns (count: int)
      requires Valid() && role == Leader
      ensures count == Holders(State(), n, 0)
    {
      count := 1;
      var i := 0;
      while i < size
        invariant 0 <= i <= size
        invariant count + Holders(State(), n, i) == 1 + Holders(State(), n, 0)
      {
        if i != me && matchIndex[i] >= n {
          count := count + 1;
        }
        i := i + 1;
      }
    }

    static lemma {:induction false} SameHolders(s: Node, t: Node, n: int, k: int)
      requires s.matchIndex == t.matchIndex && s.me == t.me && 0 <= k <= |s.matchIndex|
      ensures Holders(s, n, k) == Holders(t, n, k)
      decreases |s.matchIndex| - k
    {
      if k < |s.matchIndex| {
        SameHolders(s, t, n, k + 1);
      }
    }

    // ---------------------------------------------------------------- replication, follower side

    /** The first index of the conflicting term, searched backwards from prevLogIndex. */
    method ConflictStart(index: int) returns (c: int)
      requires Valid() && lastIncludedIndex <= index <= LastIndex(State())
      ensures c == RunStart(State(), index)
    {
      var term := GetLogTerm(index);
      c := index;
      var before := GetLogTerm(c - 1);
      while c > lastIncludedIndex && before == term
        invariant lastIncludedIndex <= c <= index
        invariant TermAt(State(), c) == term && before == TermAt(State(), c - 1)
        invariant RunStart(State(), c) == RunStart(State(), index)
      {
        c := c - 1;
        before := GetLogTerm(c - 1);
      }
    }

    /** How many offered entries are already in the log, compared by term. */
    method CountMatching(args: AppendArgs) returns (k: nat)
      ensures k == Matching(State(), args, 0)
    {
      var insertIndex := args.prevLogIndex + 1;
      k := 0;
      var last := GetLastLogIndex();
      while insertIndex <= last && k < |args.entries|
        invariant k <= |args.entries| && insertIndex == args.prevLogIndex + 1 + k
        invariant Matching(State(), args, k) == Matching(State(), args, 0)
      {
        var term := GetLogTerm(insertIndex);
        if term != args.entries[k].term {
          break;
        }
        insertIndex := insertIndex + 1;
        k := k + 1;
      }
    }

    /** Steps 3 and 4 of AppendEntries: cut at the first conflict, append what is missing. The slice
        panics when the conflict is below the stored part of the log. */
    method MergeEntries(args: AppendArgs) returns (crashed: bool)
      requires Valid() && args.prevLogIndex <= LastIndex(State())
      modifies this`log, persister
      ensures Valid() && persister.snapshot == old(persister.snapshot)
      ensures crashed <==> !Placeable(old(State()), args)
      ensures if crashed then log == old(log) else log == LogMerged(old(State()), args)
    {
      crashed := false;
      var k := CountMatching(args);
      if k < |args.entries| {
        var last := GetLastLogIndex();
        var insertIndex := args.prevLogIndex + 1 + k;
        if insertIndex <= last {
          var at := insertIndex - lastIncludedIndex;
          if at < 0 {
            return true;
          }
          log := log[..at];
        } else {
          assert log == log[..|log|];
        }
        log := log + args.entries[k..];
        assert log == LogMerged(old(State()), args);
        Persist();
      }
    }

    /** Step 2 of AppendEntries. */
    method CheckConsistency(args: AppendArgs) returns (ok: bool, conflictTerm: int, conflictIndex: int)
      requires Valid()
      ensures ok == Consistent(State(), args)
      ensures !ok ==> (conflictTerm, conflictIndex) == Conflict(State(), args)
    {
      ok, conflictTerm, conflictIndex := true, 0, 0;
      if args.prevLogIndex > 0 {
        if args.prevLogIndex < lastIncludedIndex {
          return false, -1, lastIncludedIndex + 1;
        }
        var last := GetLastLogIndex();
        if args.prevLogIndex > last {
          return false, -1, last + 1;
        }
        var term := GetLogTerm(args.prevLogIndex);
        if term != args.prevLogTerm {
          conflictIndex := ConflictStart(args.prevLogIndex);
          return false, term, conflictIndex;
        }
      }
    }

    /** AppendEntries; `crashed` is the run-time panic on a negative slice bound. */
    method AppendEntries(args: AppendArgs) returns (reply: AppendReply, crashed: bool)
      requires Valid()
      modifies this, persister
      ensures Valid()
      ensures crashed ==> AfterAppend(old(State()), args) == Crashed(State())
      ensures !crashed ==> AfterAppend(old(State()), args) == Answered(State(), reply)
    {
      reply, crashed := AppendReply(currentTerm, false, 0, 0), false;
      if args.term < currentTerm {
        return;
      }
      Hear(args.term);
      SameChecks(old(State()), State(), args);
      var ok, term, index := CheckConsistency(args);
      if !ok {
        reply := reply.(conflictTerm := term, conflictIndex := index);
        return;
      }
      if |args.entries| > 0 {
        crashed := MergeEntries(args);
        if crashed {
          return;
        }
      }
      assert State() == Heard(old(State()), args.term).(log := LogMerged(old(State()), args));
      if args.leaderCommit > commitIndex {
        var last := GetLastLogIndex();
        commitIndex := if args.leaderCommit > last then last else args.leaderCommit;
      }
      reply := reply.(success := true);
    }

    /** The term check that opens every request of a leader. */
    method Hear(term: int)
      requires Valid() && term >= currentTerm
      modifies this, persister
      ensures Valid() && State() == Heard(old(State()), term) && persister.snapshot == old(persister.snapshot)
    {
      SeeTerm(term);
      role := Follower;
    }

    /** A newer term makes the peer a follower that has not voted. */
    method SeeTerm(term: int)
      requires Valid()
      modifies this, persister
      ensures Valid() && State() == TermSeen(old(State()), term) && persister.snapshot == old(persister.snapshot)
    {
      if term > currentTerm {
        currentTerm, votedFor, role := term, -1, Follower;
        Persist();
      }
    }

    /** The checks look at the log alone. */
    static lemma SameChecks(s: Node, t: Node, a: AppendArgs)
      requires s.log == t.log && s.lastIncludedIndex == t.lastIncludedIndex
      ensures Consistent(s, a) == Consistent(t, a) && Placeable(s, a) == Placeable(t, a)
      ensures !Consistent(s, a) ==> Conflict(s, a) == Conflict(t, a)
      ensures Placeable(s, a) ==> LogMerged(s, a) == LogMerged(t, a)
    {
      SameMatching(s, t, a, 0);
      if s.lastIncludedIndex <= a.prevLogIndex <= LastIndex(s) {
        SameRun(s, t, a.prevLogIndex);
      }
    }

    static lemma {:induction false} SameMatching(s: Node, t: Node, a: AppendArgs, k: nat)
      requires s.log == t.log && s.lastIncludedIndex == t.lastIncludedIndex && k <= |a.entries|
      ensures Matching(s, a, k) == Matching(t, a, k)
      decreases |a.entries| - k
    {
      if k < |a.entries| {
        SameMatching(s, t, a, k + 1);
      }
    }

    static lemma {:induction false} SameRun(s: Node, t: Node, index: int)
      requires s.log == t.log && s.lastIncludedIndex == t.lastIncludedIndex
      requires s.lastIncludedIndex <= index <= LastIndex(s)
      ensures RunStart(s, index) == RunStart(t, index)
      decreases index - s.lastIncludedIndex
    {
      if index > s.lastIncludedIndex && TermAt(s, index - 1) == TermAt(s, index) {
        SameRun(s, t, index - 1);
      }
    }

    // ---------------------------------------------------------------- snapshots

    /** Snapshot(): the service has captured everything through `index`. */
    method Snapshot(index: int, data: seq<char>)
      requires Valid()
      modifies this, persister
      ensures Valid() && State() == Compacted(old(State()), index)
      ensures persister.snapshot == if lastIncludedIndex == old(lastIncludedIndex) then old(persister.snapshot) else data
    {
      if index <= lastIncludedIndex {
        return;
      }
      var pos := index - lastIncludedIndex;
      if pos >= |log| {
        return;
      }
      lastIncludedTerm := log[pos].term;
      var newLog := [Entry(None, lastIncludedTerm)];
      if pos + 1 < |log| {
        newLog := newLog + log[pos + 1..];
      }
      log := newLog;
      lastIncludedIndex := index;
      persister.Save(DurableOf(State()), data);
    }

    method InstallSnapshot(args: SnapshotArgs) returns (replyTerm: int)
      requires Valid()
      modifies this, persister
      ensures Valid() && State() == AfterInstall(old(State()), args) && replyTerm == old(currentTerm)
      ensures persister.snapshot == if lastIncludedIndex == old(lastIncludedIndex) then old(persister.snapshot) else args.data
    {
      replyTerm := currentTerm;
      if args.term < currentTerm {
        return;
      }
      SeeTerm(args.term);
      if args.lastIncludedIndex <= lastIncludedIndex {
        return;
      }
      log := InstalledLog(args.lastIncludedIndex, args.lastIncludedTerm);
      lastIncludedIndex := args.lastIncludedIndex;
      lastIncludedTerm := args.lastIncludedTerm;
      if args.lastIncludedIndex > commitIndex {
        commitIndex := args.lastIncludedIndex;
      }
      persister.Save(DurableOf(State()), args.data);
    }

    method InstalledLog(index: int, term: int) returns (newLog: Log)
      requires Valid() && index > lastIncludedIndex
      ensures newLog == LogInstalled(State(), index, term)
    {
      newLog := [Entry(None, term)];
      var last := GetLastLogIndex();
      if index < last {
        var start := index + 1 - lastIncludedIndex;
        if start > 0 && start < |log| {
          newLog := newLog + log[start..];
        }
      }
    }

    // ---------------------------------------------------------------- the applier

    /** The first lock-held section of a pass of applier(). */
    method ApplySnapshot() returns (sent: Option<ApplyMsg>, data: seq<char>)
      requires Valid()
      modifies this`lastApplied
      ensures Valid() && State() == SnapshotApplied(old(State()))
      ensures sent == if SnapshotDue(old(State())) then Some(SnapshotMsg(lastIncludedIndex, lastIncludedTerm)) else None
      ensures sent.Some? ==> data == persister.snapshot
    {
      sent, data := None, [];
      if commitIndex > lastApplied {
        if lastApplied < lastIncludedIndex {
          sent, data := Some(SnapshotMsg(lastIncludedIndex, lastIncludedTerm)), persister.snapshot;
          lastApplied := lastIncludedIndex;
        }
      }
    }

    /** The second: collect the batch, then mark it applied. */
    method ApplyBatch() returns (messages: seq<ApplyMsg>)
      requires Valid()
      modifies this`lastApplied
      ensures Valid() && State() == BatchApplied(old(State())) && messages == BatchMessages(old(State()))
    {
      messages := CollectBatch();
      lastApplied := commitIndex;
    }

    method CollectBatch() returns (messages: seq<ApplyMsg>)
      requires Valid()
      ensures messages == BatchMessages(State())
    {
      messages := [];
      var i := lastApplied + 1;
      while i <= commitIndex
        invariant lastApplied + 1 <= i && (i <= commitIndex + 1 || i == lastApplied + 1)
        invariant messages + Messages(State(), i, commitIndex) == BatchMessages(State())
      {
        if i > lastIncludedIndex {
          var pos := i - lastIncludedIndex;
          if 0 <= pos < |log| && log[pos].command.Some? {
            messages := messages + [CommandMsg(i, log[pos].command.value)];
          }
        }
        i := i + 1;
      }
    }
  }

  /** A peer is killed at any point between two methods and made anew from its store. */
  method Reboot(rf: Raft) returns (again: Raft)
    requires rf.Valid()
    ensures again.Valid() && again.persister == rf.persister && again.State() == Restarted(rf.State())
    ensures again.currentTerm == rf.currentTerm && again.votedFor == rf.votedFor && again.log == rf.log
    ensures again.lastIncludedIndex == rf.lastIncludedIndex && again.lastIncludedTerm == rf.lastIncludedTerm
  {
    again := new Raft(rf.me, rf.size, rf.persister);
  }
}
