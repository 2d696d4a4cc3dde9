/**
 What a peer hands to its service. A pass of the applier is one lock-held section, except when a snapshot
 is due: then it lets go of the lock to hand the snapshot over, and collects its batch in a second
 section. Messages stay in order, without gap or repeat, as long as no newer snapshot is installed
 between those two sections.
 Also here: what installing a leader's snapshot does to the log, compared with Figure 13 of the Raft paper.
 */
module RaftApplier {
  import opened Options
  import opened RaftTypes
  import opened RaftLog
  import opened RaftNode

  // ---------------------------------------------------------------- installing a snapshot

  /** Figure 13, steps 6 and 7: the tail is kept only if the log holds the snapshot's last entry. */
  function Figure13Log(s: Node, index: int, term: int): Log
    requires index > s.lastIncludedIndex
  {
    [Entry(None, term)]
    + (if index < LastIndex(s) && TermAt(s, index) == term then s.log[index + 1 - s.lastIncludedIndex..] else [])
  }

  /** The code follows Figure 13 exactly when the tail is empty or the term at the snapshot index agrees. */
  lemma InstallFollowsFigure13(s: Node, index: int, term: int)
    requires s.lastIncludedIndex < index
    ensures LogInstalled(s, index, term) == Figure13Log(s, index, term)
        <==> index >= LastIndex(s) || TermAt(s, index) == term
  {
    if index < LastIndex(s) && TermAt(s, index) != term {
      assert |LogInstalled(s, index, term)| > |Figure13Log(s, index, term)|;
    }
  }

  /** When it does not, terms may fall along the log, which no log of the protocol ever shows. */
  lemma InstallCanUnsortTerms(me: int, size: int)
    ensures
      var s := Recovered(me, size, Durable(2, -1, [Dummy, Entry(Some("a"), 1), Entry(Some("b"), 1)], 0, 0));
      var s' := AfterInstall(s, SnapshotArgs(2, 0, 1, 2, ""));
      s'.lastIncludedIndex == 1 && LastIndex(s') == 2 && TermAt(s', 1) == 2 && TermAt(s', 2) == 1
  {
  }

  /** The last index never shrinks, the placeholder carries the snapshot's term, later entries stay. */
  lemma InstallKeepsReach(s: Node, a: SnapshotArgs, x: int)
    requires s.log != [] && a.term >= s.currentTerm && a.lastIncludedIndex > s.lastIncludedIndex
    ensures
      var s' := AfterInstall(s, a);
      && LastIndex(s') == (if a.lastIncludedIndex > LastIndex(s) then a.lastIncludedIndex else LastIndex(s))
      && TermAt(s', a.lastIncludedIndex) == a.lastIncludedTerm
      && (a.lastIncludedIndex < x <= LastIndex(s) ==> TermAt(s', x) == TermAt(s, x))
      && s'.lastIncludedIndex <= s'.commitIndex && s.commitIndex <= s'.commitIndex && s'.lastApplied == s.lastApplied
  {
    var s' := AfterInstall(s, a);
    if a.lastIncludedIndex < x <= LastIndex(s) {
      assert s'.log[x - a.lastIncludedIndex] == s.log[x - s.lastIncludedIndex];
    }
  }

  // ---------------------------------------------------------------- one batch

  /** Every index in (lo, hi] is an entry of the log and holds a command. */
  predicate AllCommands(log: Log, li: int, lo: int, hi: int) {
    forall x | lo < x <= hi :: HasCommand(log, li, x)
  }

  predicate HasCommand(log: Log, li: int, x: int) {
    0 < x - li < |log| && log[x - li].command.Some?
  }

  function CommandAt(log: Log, li: int, x: int): ApplyMsg
    requires HasCommand(log, li, x)
  {
    CommandMsg(x, log[x - li].command.value)
  }

  /** One message per index of (lo, hi], in order, with the command at that index. */
  ghost predicate Consecutive(log: Log, li: int, messages: seq<ApplyMsg>, lo: int, hi: int) {
    && |messages| == (if hi > lo then hi - lo else 0)
    && forall x | lo < x <= hi :: HasCommand(log, li, x) && messages[x - lo - 1] == CommandAt(log, li, x)
  }

  lemma {:induction false} FullBatch(s: Node, lo: int, hi: int)
    requires AllCommands(s.log, s.lastIncludedIndex, lo, hi)
    ensures Consecutive(s.log, s.lastIncludedIndex, Messages(s, lo + 1, hi), lo, hi)
    decreases hi - lo
  {
    if lo < hi {
      assert HasCommand(s.log, s.lastIncludedIndex, lo + 1);
      FullBatch(s, lo + 1, hi);
      assert Messages(s, lo + 1, hi) == [CommandAt(s.log, s.lastIncludedIndex, lo + 1)] + Messages(s, lo + 1 + 1, hi);
      Prepend(s.log, s.lastIncludedIndex, Messages(s, lo + 1, hi), Messages(s, lo + 1 + 1, hi), lo, hi);
    }
  }

  lemma Prepend(log: Log, li: int, messages: seq<ApplyMsg>, rest: seq<ApplyMsg>, lo: int, hi: int)
    requires lo < hi && HasCommand(log, li, lo + 1) && messages == [CommandAt(log, li, lo + 1)] + rest
    requires Consecutive(log, li, rest, lo + 1, hi)
    ensures Consecutive(log, li, messages, lo, hi)
  {
    forall x | lo < x <= hi
      ensures HasCommand(log, li, x) && messages[x - lo - 1] == CommandAt(log, li, x)
    {
      if x > lo + 1 {
        assert messages[x - lo - 1] == rest[x - (lo + 1) - 1] && HasCommand(log, li, x);
      }
    }
  }

  lemma {:induction false} BatchSize(s: Node, lo: int, hi: int)
    requires lo <= hi
    ensures |Messages(s, lo + 1, hi)| <= hi - lo
    ensures |Messages(s, lo + 1, hi)| == hi - lo ==> AllCommands(s.log, s.lastIncludedIndex, lo, hi)
    decreases hi - lo
  {
    if lo < hi {
      BatchSize(s, lo + 1, hi);
    }
  }

  /** What is committed is inside the snapshot, or in the log with a command. */
  ghost predicate Ready(s: Node) {
    && s.lastIncludedIndex <= s.commitIndex
    && AllCommands(s.log, s.lastIncludedIndex, s.lastIncludedIndex, s.commitIndex)
  }

  /** A batch leaves no gap exactly when the snapshot is not ahead of the applied position. */
  lemma BatchHasNoGap(s: Node)
    requires Ready(s)
    ensures Consecutive(s.log, s.lastIncludedIndex, BatchMessages(s), s.lastApplied, s.commitIndex)
        <==> s.lastIncludedIndex <= s.lastApplied
  {
    if s.lastIncludedIndex <= s.lastApplied {
      FullBatch(s, s.lastApplied, s.commitIndex);
    } else {
      BatchSize(s, s.lastApplied, s.commitIndex);
      assert !HasCommand(s.log, s.lastIncludedIndex, s.lastApplied + 1);
    }
  }

  // ---------------------------------------------------------------- the other handlers

  /** The lock-held sections of a peer other than the applier's. */
  datatype Handler =
    | TimeoutFired
    | RoundStarted
    | VoteAsked(vargs: VoteArgs)
    | VoteAnswered(vargs: VoteArgs, vreply: VoteReply)
    | CommandSubmitted(command: Command)
    | EntriesReceived(args: AppendArgs)
    | EntriesAnswered(server: int, args: AppendArgs, reply: AppendReply)
    | SnapshotMade(index: int)
    | SnapshotReceived(sargs: SnapshotArgs)

  /** Every entry but the placeholder holds a command. */
  predicate RealLog(log: Log) {
    forall k | 1 <= k < |log| :: log[k].command.Some?
  }

  predicate RealEntries(entries: seq<Entry>) {
    forall k | 0 <= k < |entries| :: entries[k].command.Some?
  }

  /**
   What the rest of the system grants a handler: commands are not nil, an accepted request leaves what is
   committed in the log, and the service makes snapshots only of what it was handed.  A received snapshot
   may be anything.
   */
  predicate Proper(s: Node, h: Handler) {
    match h
    case VoteAnswered(_, _) => s.size >= 0
    case CommandSubmitted(command) => command.Some?
    case EntriesReceived(a) =>
      && RealEntries(a.entries) && AfterAppend(s, a).Answered?
      && s.commitIndex <= LastIndex(AfterAppend(s, a).node)
    case EntriesAnswered(server, _, _) => s.role == Leader ==> 0 <= server < |s.nextIndex| && server < |s.matchIndex|
    case SnapshotMade(index) => index <= s.lastApplied
    case _ => true
  }

  function Handled(s: Node, h: Handler): Node
    requires Proper(s, h)
  {
    match h
    case TimeoutFired => TimedOut(s)
    case RoundStarted => RoundOpened(s)
    case VoteAsked(args) => AfterVoteRequest(s, args)
    case VoteAnswered(args, reply) => AfterVoteReply(s, args, reply)
    case CommandSubmitted(command) => Started(s, command)
    case EntriesReceived(args) => AfterAppend(s, args).node
    case EntriesAnswered(server, args, reply) => AfterAppendReply(s, server, args, reply)
    case SnapshotMade(index) => Compacted(s, index)
    case SnapshotReceived(args) => AfterInstall(s, args)
  }

  /** The commit index lies in the log, which holds a command at every index past the snapshot. */
  predicate Sane(s: Node) {
    && s.log != [] && s.lastIncludedIndex >= 0 && RealLog(s.log)
    && s.lastIncludedIndex <= s.commitIndex <= LastIndex(s)
  }

  lemma SaneReady(s: Node)
    requires Sane(s)
    ensures Ready(s)
  {
    forall x | s.lastIncludedIndex < x <= s.commitIndex ensures HasCommand(s.log, s.lastIncludedIndex, x) {
      assert s.log[x - s.lastIncludedIndex].command.Some?;
    }
  }

  /** Nothing moves the applied position, and commitment and snapshot only advance. */
  predicate Advances(s: Node, s': Node) {
    s'.lastApplied == s.lastApplied && s.lastIncludedIndex <= s'.lastIncludedIndex && s.commitIndex <= s'.commitIndex
  }

  lemma ReceivedKeeps(s: Node, a: AppendArgs)
    requires Sane(s) && Proper(s, EntriesReceived(a))
    ensures Sane(AfterAppend(s, a).node) && Advances(s, AfterAppend(s, a).node)
  {
  }

  lemma AnsweredKeeps(s: Node, server: int, a: AppendArgs, r: AppendReply)
    requires Sane(s) && Proper(s, EntriesAnswered(server, a, r))
    ensures Sane(AfterAppendReply(s, server, a, r)) && Advances(s, AfterAppendReply(s, server, a, r))
  {
  }

  lemma InstallKeeps(s: Node, a: SnapshotArgs)
    requires Sane(s)
    ensures Sane(AfterInstall(s, a)) && Advances(s, AfterInstall(s, a))
  {
  }

  lemma CompactKeeps(s: Node, index: int)
    requires Sane(s) && s.lastApplied <= s.commitIndex && index <= s.lastApplied
    ensures Sane(Compacted(s, index)) && Advances(s, Compacted(s, index))
  {
  }

  /** Every handler, InstallSnapshot included, keeps the peer sane and only advances it. */
  lemma HandlerKeeps(s: Node, h: Handler)
    requires Sane(s) && s.lastApplied <= s.commitIndex && Proper(s, h)
    ensures Sane(Handled(s, h)) && Advances(s, Handled(s, h))
  {
    match h {
      case EntriesReceived(a) => ReceivedKeeps(s, a);
      case EntriesAnswered(server, a, r) => AnsweredKeeps(s, server, a, r);
      case SnapshotMade(index) => CompactKeeps(s, index);
      case SnapshotReceived(a) => InstallKeeps(s, a);
      case _ =>
    }
  }

  // ---------------------------------------------------------------- runs of the applier

  /** A peer between sections of its applier; `midway`: it has let go of the lock to hand over a snapshot. */
  datatype Applier = Applier(node: Node, midway: bool, delivered: seq<ApplyMsg>)

  datatype ApplierStep =
    | Handle(handler: Handler)
    | HandOver           // a snapshot is due: the first section of a pass
    | Batch              // the second section, or a whole pass when no snapshot is due

  ghost predicate CanStep(a: Applier, step: ApplierStep) {
    match step
    case Handle(h) =>
      Proper(a.node, h) && (a.midway ==> Handled(a.node, h).lastIncludedIndex <= a.node.lastApplied)
    case HandOver => !a.midway && SnapshotDue(a.node)
    case Batch => a.midway || (a.node.lastApplied < a.node.commitIndex && !SnapshotDue(a.node))
  }

  function Stepped(a: Applier, step: ApplierStep): Applier
    requires step.Handle? ==> Proper(a.node, step.handler)
  {
    match step
    case Handle(h) => a.(node := Handled(a.node, h))
    case HandOver =>
      Applier(SnapshotApplied(a.node), true,
              a.delivered + [SnapshotMsg(a.node.lastIncludedIndex, a.node.lastIncludedTerm)])
    case Batch =>
      Applier(BatchApplied(a.node), false, a.delivered + BatchMessages(a.node))
  }

  ghost predicate Runs(a: Applier, steps: seq<ApplierStep>)
    decreases |steps|
  {
    steps == [] || (CanStep(a, steps[0]) && Runs(Stepped(a, steps[0]), steps[1..]))
  }

  ghost function Final(a: Applier, steps: seq<ApplierStep>): Applier
    requires Runs(a, steps)
    decreases |steps|
  {
    if steps == [] then a else Final(Stepped(a, steps[0]), steps[1..])
  }

  /** From position `from`: each command is the next index, each snapshot jumps forward. */
  predicate InOrder(from: int, messages: seq<ApplyMsg>)
    decreases |messages|
  {
    messages == [] ||
    (match messages[0]
     case CommandMsg(index, _) => index == from + 1 && InOrder(index, messages[1..])
     case SnapshotMsg(index, _) => index > from && InOrder(index, messages[1..]))
  }

  function Position(from: int, messages: seq<ApplyMsg>): int {
    if messages == [] then from else messages[|messages| - 1].index
  }

  lemma {:induction false} InOrderAppend(from: int, a: seq<ApplyMsg>, b: seq<ApplyMsg>)
    requires InOrder(from, a) && InOrder(Position(from, a), b)
    ensures InOrder(from, a + b)
    decreases |a|
  {
    if a == [] {
      assert a + b == b;
    } else {
      assert (a + b)[1..] == a[1..] + b;
      InOrderAppend(a[0].index, a[1..], b);
    }
  }

  lemma {:induction false} ConsecutiveInOrder(log: Log, li: int, messages: seq<ApplyMsg>, lo: int, hi: int)
    requires Consecutive(log, li, messages, lo, hi) && lo <= hi
    ensures InOrder(lo, messages) && Position(lo, messages) == hi
    decreases |messages|
  {
    if messages != [] {
      var rest, next := messages[1..], lo + 1;
      assert HasCommand(log, li, next) && messages[0] == messages[next - lo - 1];
      forall x | next < x <= hi
        ensures HasCommand(log, li, x) && rest[x - next - 1] == CommandAt(log, li, x)
      {
        assert rest[x - next - 1] == messages[x - lo - 1] && HasCommand(log, li, x);
      }
      ConsecutiveInOrder(log, li, rest, next, hi);
    }
  }

  /** Delivered so far in order, up to the applied position; midway the snapshot is not ahead of it. */
  ghost predicate Sound(start: int, a: Applier) {
    && Sane(a.node)
    && InOrder(start, a.delivered)
    && a.node.lastApplied == Position(start, a.delivered)
    && a.node.lastApplied <= a.node.commitIndex
    && (a.midway ==> a.node.lastIncludedIndex <= a.node.lastApplied)
  }

  lemma BatchSound(start: int, a: Applier)
    requires Sound(start, a) && a.node.lastIncludedIndex <= a.node.lastApplied
    ensures Sound(start, Stepped(a, Batch))
  {
    var s := a.node;
    SaneReady(s);
    BatchHasNoGap(s);
    ConsecutiveInOrder(s.log, s.lastIncludedIndex, BatchMessages(s), s.lastApplied, s.commitIndex);
    InOrderAppend(start, a.delivered, BatchMessages(s));
  }

  lemma SoundStep(start: int, a: Applier, step: ApplierStep)
    requires Sound(start, a) && CanStep(a, step)
    ensures Sound(start, Stepped(a, step))
  {
    match step {
      case Handle(h) => HandlerKeeps(a.node, h);
      case HandOver =>
        var m := SnapshotMsg(a.node.lastIncludedIndex, a.node.lastIncludedTerm);
        assert [m][1..] == [];
        InOrderAppend(start, a.delivered, [m]);
      case Batch => BatchSound(start, a);
    }
  }

  /**
   In-order delivery over a whole run of the applier among all other handlers of its peer, received
   snapshots included, as long as none that is newer arrives while a snapshot is being handed over.
   */
  lemma {:induction false} DeliversInOrder(start: int, a: Applier, steps: seq<ApplierStep>)
    requires Sound(start, a) && Runs(a, steps)
    ensures InOrder(start, Final(a, steps).delivered)
    ensures Final(a, steps).node.lastApplied == Position(start, Final(a, steps).delivered)
    decreases |steps|
  {
    if steps != [] {
      SoundStep(start, a, steps[0]);
      DeliversInOrder(start, Stepped(a, steps[0]), steps[1..]);
    }
  }

  /** A fresh peer that has received a snapshot through index 2. */
  function Behind(me: int, size: int): Applier {
    Applier(AfterInstall(Recovered(me, size, Durable(1, -1, [Dummy], 0, 0)), SnapshotArgs(1, 0, 2, 1, "")), false, [])
  }

  /** It hands that over; meanwhile one through index 4 arrives; then comes the second section. */
  function Overtaken(me: int, size: int): Applier {
    Stepped(Stepped(Stepped(Behind(me, size), HandOver), Handle(SnapshotReceived(SnapshotArgs(1, 0, 4, 1, "")))), Batch)
  }

  const Fifth: AppendArgs := AppendArgs(1, 0, 4, 1, [Entry(Some("x"), 1)], 5)

  lemma OvertakenState(me: int, size: int)
    ensures
      var c := Overtaken(me, size);
      && c.delivered == [SnapshotMsg(2, 1)] && !c.midway
      && c.node.lastApplied == 4 && c.node.lastIncludedIndex == 4 && c.node.lastIncludedTerm == 1
      && c.node.commitIndex == 4 && c.node.currentTerm == 1 && c.node.log == [Entry(None, 1)]
  {
    var d := Stepped(Stepped(Behind(me, size), HandOver), Handle(SnapshotReceived(SnapshotArgs(1, 0, 4, 1, ""))));
    assert d.node.lastApplied == 2 && d.node.lastIncludedIndex == 4 && d.node.commitIndex == 4;
    assert d.node.log == [Entry(None, 1)];
    assert Messages(d.node, 5, 4) == [] && Messages(d.node, 4, 4) == [] && Messages(d.node, 3, 4) == [];
  }

  lemma FifthArrives(s: Node)
    requires s.lastIncludedIndex == 4 && s.commitIndex == 4 && s.lastApplied == 4 && s.currentTerm == 1
    requires s.log == [Entry(None, 1)]
    ensures Proper(s, EntriesReceived(Fifth))
    ensures
      var t := Handled(s, EntriesReceived(Fifth));
      t.commitIndex == 5 && t.lastApplied == 4 && t.lastIncludedIndex == 4 && BatchMessages(t) == [CommandMsg(5, "x")]
  {
    assert Matching(s, Fifth, 0) == 0 && LogMerged(s, Fifth) == [Entry(None, 1), Entry(Some("x"), 1)];
    var t := AfterAppend(s, Fifth).node;
    assert t.log == [Entry(None, 1), Entry(Some("x"), 1)];
    assert Messages(t, 6, 5) == [] && Messages(t, 5, 5) == [CommandMsg(5, "x")];
  }

  /**
   A newer snapshot received while one is handed over breaks it: after the snapshot through index 2 the
   service is handed the command of index 5.
   */
  lemma GapNeedsQuiet(me: int, size: int)
    ensures
      var c, fifth := Overtaken(me, size), Handle(EntriesReceived(Fifth));
      && CanStep(Behind(me, size), HandOver)
      && c.delivered == [SnapshotMsg(2, 1)] && c.node.lastApplied == 4
      && CanStep(c, fifth) && CanStep(Stepped(c, fifth), Batch)
      && Stepped(Stepped(c, fifth), Batch).delivered == [SnapshotMsg(2, 1), CommandMsg(5, "x")]
      && !InOrder(0, [SnapshotMsg(2, 1), CommandMsg(5, "x")])
  {
    OvertakenState(me, size);
    FifthArrives(Overtaken(me, size).node);
    assert [SnapshotMsg(2, 1), CommandMsg(5, "x")][1..] == [CommandMsg(5, "x")];
  }
}
