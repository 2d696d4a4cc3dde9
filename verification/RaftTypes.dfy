/**
 Values shared by every part of the Raft model: log entries, roles and the
 arguments and replies of the two RPCs that the replication protocol uses.
 */
module RaftTypes {
  import opened Options

  /** A state-machine command; `None` is Go's nil, kept only by placeholder entries. */
  type Command = Option<string>

  datatype Entry = Entry(command: Command, term: int)

  type Log = seq<Entry>

  /** The placeholder that every fresh log holds at index 0. */
  const Dummy: Entry := Entry(None, 0)

  datatype Role = Follower | Candidate | Leader

  datatype VoteArgs = VoteArgs(term: int, candidate: int, lastLogIndex: int, lastLogTerm: int)

  datatype VoteReply = VoteReply(term: int, granted: bool)

  datatype AppendArgs = AppendArgs(
    term: int, leader: int, prevLogIndex: int, prevLogTerm: int, entries: seq<Entry>, leaderCommit: int)

  datatype AppendReply = AppendReply(term: int, success: bool, conflictTerm: int, conflictIndex: int)

  datatype SnapshotArgs = SnapshotArgs(term: int, leader: int, lastIncludedIndex: int, lastIncludedTerm: int,
                                       data: seq<char>)

  /** What a peer hands to its service: the command of one index, or a snapshot of everything through an index. */
  datatype ApplyMsg = CommandMsg(index: int, command: string) | SnapshotMsg(index: int, term: int)
}
