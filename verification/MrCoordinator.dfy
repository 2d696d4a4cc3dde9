/**
 The coordinator of src/mr/coordinator.go: handing out tasks, taking reports, resetting tasks that
 took too long, and the barrier between the map and the reduce phase.
 */
module MrCoordinator {

  datatype TaskState = Waiting | InProgress | Completed

  datatype TaskInfo = TaskInfo(state: TaskState, startTime: int)

  datatype Kind = MapTask | ReduceTask

  /** A task as sent to a worker. */
  datatype Task = Run(kind: Kind, id: nat) | WaitTask | ExitTask

  const TIMEOUT: int := 10

  /** The coordinator's fields. */
  datatype Coord = Coord(
    mapTasks: seq<TaskInfo>, mapDone: int,
    reduceTasks: seq<TaskInfo>, reduceDone: int,
    phase: Kind, allDone: bool)

  function Completions(tasks: seq<TaskInfo>): nat {
    if tasks == [] then 0
    else Completions(tasks[..|tasks| - 1]) + if tasks[|tasks| - 1].state == Completed then 1 else 0
  }

  predicate AllCompleted(tasks: seq<TaskInfo>) {
    forall i | 0 <= i < |tasks| :: tasks[i].state == Completed
  }

  // ---------------------------------------------------------------- the steps as functions

  function FirstIdle(tasks: seq<TaskInfo>, i: nat): (r: nat)
    requires i <= |tasks|
    ensures i <= r <= |tasks| && (r < |tasks| ==> tasks[r].state == Waiting)
    ensures forall k | i <= k < r :: tasks[k].state != Waiting
    decreases |tasks| - i
  {
    if i == |tasks| || tasks[i].state == Waiting then i else FirstIdle(tasks, i + 1)
  }

  function Issued(tasks: seq<TaskInfo>, i: nat, now: int): seq<TaskInfo>
    requires i < |tasks|
  {
    tasks[i := TaskInfo(InProgress, now)]
  }

  function TasksOf(c: Coord, kind: Kind): seq<TaskInfo> {
    if kind == MapTask then c.mapTasks else c.reduceTasks
  }

  function NextTask(c: Coord): Task {
    var i := FirstIdle(TasksOf(c, c.phase), 0);
    if c.allDone then ExitTask
    else if i < |TasksOf(c, c.phase)| then Run(c.phase, i)
    else WaitTask
  }

  function AfterGetTask(c: Coord, now: int): Coord {
    match NextTask(c)
    case Run(MapTask, i) => if i < |c.mapTasks| then c.(mapTasks := Issued(c.mapTasks, i, now)) else c
    case Run(ReduceTask, i) => if i < |c.reduceTasks| then c.(reduceTasks := Issued(c.reduceTasks, i, now)) else c
    case _ => c
  }

  function Ended(tasks: seq<TaskInfo>, id: nat, state: TaskState): seq<TaskInfo>
    requires id < |tasks|
  {
    tasks[id := tasks[id].(state := state)]
  }

  predicate Ignored(tasks: seq<TaskInfo>, id: int) {
    id < 0 || id >= |tasks| || tasks[id].state == Completed
  }

  function AfterMapReport(c: Coord, id: int, success: bool): Coord {
    if Ignored(c.mapTasks, id) then c
    else if success then
      c.(mapTasks := Ended(c.mapTasks, id, Completed), mapDone := c.mapDone + 1,
         phase := if c.mapDone + 1 == |c.mapTasks| then ReduceTask else c.phase)
    else c.(mapTasks := Ended(c.mapTasks, id, Waiting))
  }

  function AfterReduceReport(c: Coord, id: int, success: bool): Coord {
    if Ignored(c.reduceTasks, id) then c
    else if success then
      c.(reduceTasks := Ended(c.reduceTasks, id, Completed), reduceDone := c.reduceDone + 1,
         allDone := c.allDone || c.reduceDone + 1 == |c.reduceTasks|)
    else c.(reduceTasks := Ended(c.reduceTasks, id, Waiting))
  }

  function AfterReport(c: Coord, kind: Kind, id: int, success: bool): Coord {
    if kind == MapTask then AfterMapReport(c, id, success) else AfterReduceReport(c, id, success)
  }

  function Expired(t: TaskInfo, now: int): bool {
    t.state == InProgress && now - t.startTime > TIMEOUT
  }

  function ResetExpired(tasks: seq<TaskInfo>, now: int): seq<TaskInfo> {
    seq(|tasks|, i requires 0 <= i < |tasks| =>
      if Expired(tasks[i], now) then tasks[i].(state := Waiting) else tasks[i])
  }

  function AfterTimeouts(c: Coord, now: int): Coord {
    c.(mapTasks := ResetExpired(c.mapTasks, now), reduceTasks := ResetExpired(c.reduceTasks, now))
  }

  // ---------------------------------------------------------------- the object

  class Coordinator {
    const files: seq<string>
    const nReduce: nat
    const nMap: nat
    var mapTasks: seq<TaskInfo>
    var mapDone: int
    var reduceTasks: seq<TaskInfo>
    var reduceDone: int
    var phase: Kind
    var allDone: bool

    function State(): Coord
      reads this
    {
      Coord(mapTasks, mapDone, reduceTasks, reduceDone, phase, allDone)
    }

    ghost predicate Valid()
      reads this
    {
      |files| == nMap && |mapTasks| == nMap && |reduceTasks| == nReduce && CountersOk(State())
    }

    constructor (files: seq<string>, nReduce: nat)
      ensures Valid() && this.files == files && this.nReduce == nReduce && nMap == |files|
      ensures State() == Fresh(|files|, nReduce)
    {
      this.files, this.nReduce, nMap := files, nReduce, |files|;
      mapTasks := seq(|files|, _ => TaskInfo(Waiting, 0));
      reduceTasks := seq(nReduce, _ => TaskInfo(Waiting, 0));
      mapDone, reduceDone, phase, allDone := 0, 0, MapTask, false;
      new;
      FreshOk(nMap, nReduce);
    }

    method GetTask(now: int) returns (task: Task, inputFile: string)
      requires Valid()
      modifies this
      ensures Valid() && State() == AfterGetTask(old(State()), now) && task == NextTask(old(State()))
      ensures task.Run? && task.kind == MapTask ==> task.id < nMap && inputFile == files[task.id]
    {
      GetTaskKeeps(State(), now);
      inputFile := "";
      if allDone {
        return ExitTask, inputFile;
      }
      if phase == MapTask {
        var i := 0;
        while i < nMap
          invariant i <= nMap && State() == old(State()) && FirstIdle(mapTasks, 0) == FirstIdle(mapTasks, i)
        {
          if mapTasks[i].state == Waiting {
            mapTasks := mapTasks[i := TaskInfo(InProgress, now)];
            return Run(MapTask, i), files[i];
          }
          i := i + 1;
        }
        task := WaitTask;
      } else {
        var i := 0;
        while i < nReduce
          invariant i <= nReduce && State() == old(State()) && FirstIdle(reduceTasks, 0) == FirstIdle(reduceTasks, i)
        {
          if reduceTasks[i].state == Waiting {
            reduceTasks := reduceTasks[i := TaskInfo(InProgress, now)];
            return Run(ReduceTask, i), inputFile;
          }
          i := i + 1;
        }
        task := WaitTask;
      }
    }

    method ReportTask(kind: Kind, id: int, success: bool)
      requires Valid()
      modifies this
      ensures Valid() && State() == AfterReport(old(State()), kind, id, success)
    {
      ReportKeeps(State(), kind, id, success);
      if kind == MapTask {
        if id < 0 || id >= nMap {
          return;
        }
        if mapTasks[id].state == Completed {
          return;
        }
        if success {
          mapTasks := mapTasks[id := mapTasks[id].(state := Completed)];
          mapDone := mapDone + 1;
          if mapDone == nMap {
            phase := ReduceTask;
          }
        } else {
          mapTasks := mapTasks[id := mapTasks[id].(state := Waiting)];
        }
      } else {
        if id < 0 || id >= nReduce {
          return;
        }
        if reduceTasks[id].state == Completed {
          return;
        }
        if success {
          reduceTasks := reduceTasks[id := reduceTasks[id].(state := Completed)];
          reduceDone := reduceDone + 1;
          if reduceDone == nReduce {
            allDone := true;
          }
        } else {
          reduceTasks := reduceTasks[id := reduceTasks[id].(state := Waiting)];
        }
      }
    }

    method CheckTimeouts(now: int)
      requires Valid()
      modifies this
      ensures Valid() && State() == AfterTimeouts(old(State()), now)
    {
      TimeoutsKeep(State(), now);
      mapTasks := ResetAll(mapTasks, now);
      reduceTasks := ResetAll(reduceTasks, now);
    }

    static method ResetAll(tasks: seq<TaskInfo>, now: int) returns (r: seq<TaskInfo>)
      ensures r == ResetExpired(tasks, now)
    {
      r := tasks;
      var i := 0;
      while i < |r|
        invariant i <= |r| == |tasks|
        invariant forall k | 0 <= k < i :: r[k] == ResetExpired(tasks, now)[k]
        invariant forall k | i <= k < |r| :: r[k] == tasks[k]
      {
        if r[i].state == InProgress && now - r[i].startTime > TIMEOUT {
          r := r[i := r[i].(state := Waiting)];
        }
        i := i + 1;
      }
    }

    method Done() returns (done: bool)
      requires Valid()
      ensures done <==> nReduce > 0 && AllCompleted(reduceTasks)
    {
      done := allDone;
    }
  }

  // ---------------------------------------------------------------- counters

  /** The counters are the numbers of completed tasks, and the phase and the end follow from them. */
  ghost predicate CountersOk(c: Coord) {
    && c.mapDone == Completions(c.mapTasks)
    && c.reduceDone == Completions(c.reduceTasks)
    && (c.phase == ReduceTask <==> |c.mapTasks| > 0 && AllCompleted(c.mapTasks))
    && (c.allDone <==> |c.reduceTasks| > 0 && AllCompleted(c.reduceTasks))
  }

  function Fresh(nMap: nat, nReduce: nat): Coord {
    Coord(seq(nMap, _ => TaskInfo(Waiting, 0)), 0, seq(nReduce, _ => TaskInfo(Waiting, 0)), 0, MapTask, false)
  }

  lemma {:induction false} CompletionsZero(tasks: seq<TaskInfo>)
    requires forall i | 0 <= i < |tasks| :: tasks[i].state != Completed
    ensures Completions(tasks) == 0
  {
    if tasks != [] {
      CompletionsZero(tasks[..|tasks| - 1]);
    }
  }

  lemma {:induction false} CompletionsFull(tasks: seq<TaskInfo>)
    ensures Completions(tasks) <= |tasks|
    ensures Completions(tasks) == |tasks| <==> AllCompleted(tasks)
  {
    if tasks != [] {
      var init := tasks[..|tasks| - 1];
      CompletionsFull(init);
      assert forall i | 0 <= i < |init| :: init[i] == tasks[i];
    }
  }

  lemma {:induction false} CompletionsUpdate(tasks: seq<TaskInfo>, id: nat, t: TaskInfo)
    requires id < |tasks|
    ensures Completions(tasks[id := t]) ==
      Completions(tasks) - (if tasks[id].state == Completed then 1 else 0) + (if t.state == Completed then 1 else 0)
  {
    var n := |tasks| - 1;
    if id < n {
      assert tasks[id := t][..n] == tasks[..n][id := t];
      CompletionsUpdate(tasks[..n], id, t);
    } else {
      assert tasks[id := t][..n] == tasks[..n];
    }
  }

  lemma {:induction false} CompletionsSame(a: seq<TaskInfo>, b: seq<TaskInfo>)
    requires |a| == |b| && forall i | 0 <= i < |a| :: a[i].state == Completed <==> b[i].state == Completed
    ensures Completions(a) == Completions(b)
  {
    if a != [] {
      CompletionsSame(a[..|a| - 1], b[..|b| - 1]);
    }
  }

  lemma FreshOk(nMap: nat, nReduce: nat)
    ensures CountersOk(Fresh(nMap, nReduce))
  {
    var c := Fresh(nMap, nReduce);
    CompletionsZero(c.mapTasks);
    CompletionsZero(c.reduceTasks);
    assert |c.mapTasks| > 0 ==> c.mapTasks[0].state != Completed;
    assert |c.reduceTasks| > 0 ==> c.reduceTasks[0].state != Completed;
  }

  lemma GetTaskKeeps(c: Coord, now: int)
    requires CountersOk(c)
    ensures CountersOk(AfterGetTask(c, now))
  {
    var c' := AfterGetTask(c, now);
    CompletionsFull(c.mapTasks);
    CompletionsFull(c.reduceTasks);
    CompletionsSame(c.mapTasks, c'.mapTasks);
    CompletionsSame(c.reduceTasks, c'.reduceTasks);
    CompletionsFull(c'.mapTasks);
    CompletionsFull(c'.reduceTasks);
  }

  lemma ReportKeeps(c: Coord, kind: Kind, id: int, success: bool)
    requires CountersOk(c)
    ensures CountersOk(AfterReport(c, kind, id, success))
  {
    var c' := AfterReport(c, kind, id, success);
    CompletionsFull(c.mapTasks);
    CompletionsFull(c.reduceTasks);
    CompletionsFull(c'.mapTasks);
    CompletionsFull(c'.reduceTasks);
    if !Ignored(TasksOf(c, kind), id) {
      CompletionsUpdate(TasksOf(c, kind), id, TasksOf(c', kind)[id]);
    }
  }

  lemma TimeoutsKeep(c: Coord, now: int)
    requires CountersOk(c)
    ensures CountersOk(AfterTimeouts(c, now))
  {
    var c' := AfterTimeouts(c, now);
    CompletionsSame(c.mapTasks, c'.mapTasks);
    CompletionsSame(c.reduceTasks, c'.reduceTasks);
    CompletionsFull(c.mapTasks);
    CompletionsFull(c.reduceTasks);
    CompletionsFull(c'.mapTasks);
    CompletionsFull(c'.reduceTasks);
  }
}
