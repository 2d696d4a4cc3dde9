/**
 A whole MapReduce job: the coordinator, workers that may be slow, fail or repeat a task, and the
 files they share.  When the coordinator says it is done, the output files hold what the sequential
 program would have written.
 */
module MrSystem {
  import opened MapReduce
  import opened MrCoordinator

  datatype Job = Job(inputs: seq<Input>, mapf: MapFn, reducef: ReduceFn, hash: HashFn, nReduce: nat)

  /** `issued`: every task ever handed out, which some worker may still be working on. */
  datatype Sys = Sys(
    coord: Coord,
    issued: set<Task>,
    files: map<(nat, nat), seq<KeyValue>>,
    outs: map<nat, seq<Line>>)

  datatype Step =
    | GetTask(now: int)
    | WriteFile(m: nat, r: nat)
    | WriteOutput(r: nat, out: seq<Line>)
    | Report(kind: Kind, id: nat, success: bool)
    | CheckTimeouts(now: int)

  /** What map task `m` writes for reduce task `r`. */
  function FileContents(job: Job, m: nat, r: nat): seq<KeyValue>
    requires m < |job.inputs| && job.nReduce > 0
  {
    Bucket(job.mapf(job.inputs[m].name, job.inputs[m].content), job.hash, job.nReduce, r)
  }

  /** What reduce task `r` finds; a missing file is skipped. */
  function ReadFiles(job: Job, files: map<(nat, nat), seq<KeyValue>>, r: nat): seq<seq<KeyValue>> {
    seq(|job.inputs|, m requires 0 <= m < |job.inputs| => if (m, r) in files then files[(m, r)] else [])
  }

  ghost predicate AllWritten(job: Job, files: map<(nat, nat), seq<KeyValue>>, m: nat) {
    forall r: nat | r < job.nReduce :: (m, r) in files
  }

  ghost predicate Enabled(job: Job, s: Sys, step: Step) {
    match step
    case GetTask(_) => true
    case WriteFile(m, r) => Run(MapTask, m) in s.issued && m < |job.inputs| && r < job.nReduce
    case WriteOutput(r, out) =>
      Run(ReduceTask, r) in s.issued && Produces(Gather(ReadFiles(job, s.files, r)), job.reducef, out)
    case Report(kind, id, success) =>
      && Run(kind, id) in s.issued
      && (success && kind == MapTask ==> AllWritten(job, s.files, id))
      && (success && kind == ReduceTask ==> id in s.outs)
    case CheckTimeouts(_) => true
  }

  ghost function After(job: Job, s: Sys, step: Step): Sys
    requires Enabled(job, s, step)
  {
    match step
    case GetTask(now) =>
      var task := NextTask(s.coord);
      s.(coord := AfterGetTask(s.coord, now), issued := if task.Run? then s.issued + {task} else s.issued)
    case WriteFile(m, r) => s.(files := s.files[(m, r) := FileContents(job, m, r)])
    case WriteOutput(r, out) => s.(outs := s.outs[r := out])
    case Report(kind, id, success) => s.(coord := AfterReport(s.coord, kind, id, success))
    case CheckTimeouts(now) => s.(coord := AfterTimeouts(s.coord, now))
  }

  ghost predicate Init(job: Job, s: Sys) {
    s == Sys(Fresh(|job.inputs|, job.nReduce), {}, map[], map[])
  }

  ghost predicate IsStep(job: Job, s: Sys, step: Step, s': Sys) {
    Enabled(job, s, step) && s' == After(job, s, step)
  }

  ghost predicate IsRun(job: Job, run: seq<Sys>, steps: seq<Step>) {
    && |run| == |steps| + 1
    && Init(job, run[0])
    && forall i | 0 <= i < |steps| :: IsStep(job, run[i], steps[i], run[i + 1])
  }

  // ---------------------------------------------------------------- the invariant

  ghost predicate SizesOk(job: Job, c: Coord) {
    |c.mapTasks| == |job.inputs| && |c.reduceTasks| == job.nReduce
  }

  /** A reduce task is handed out only when every map task is complete. */
  ghost predicate IssuedOk(job: Job, c: Coord, issued: set<Task>) {
    forall t | t in issued ::
      && t.Run?
      && (t.kind == MapTask ==> t.id < |job.inputs|)
      && (t.kind == ReduceTask ==> t.id < job.nReduce && c.phase == ReduceTask)
  }

  ghost predicate FilesOk(job: Job, files: map<(nat, nat), seq<KeyValue>>) {
    forall m: nat, r: nat | (m, r) in files ::
      m < |job.inputs| && r < job.nReduce && files[(m, r)] == FileContents(job, m, r)
  }

  ghost predicate MapsWritten(job: Job, c: Coord, files: map<(nat, nat), seq<KeyValue>>) {
    forall m | 0 <= m < |c.mapTasks| && c.mapTasks[m].state == Completed :: AllWritten(job, files, m)
  }

  ghost predicate OutsOk(job: Job, c: Coord, outs: map<nat, seq<Line>>) {
    forall r: nat | r in outs ::
      && c.phase == ReduceTask && r < job.nReduce
      && Produces(Gather(FilesFor(job.inputs, job.mapf, job.hash, job.nReduce, r)), job.reducef, outs[r])
  }

  ghost predicate ReducesWritten(c: Coord, outs: map<nat, seq<Line>>) {
    forall r | 0 <= r < |c.reduceTasks| && c.reduceTasks[r].state == Completed :: r in outs
  }

  ghost predicate Inv(job: Job, s: Sys) {
    && CountersOk(s.coord)
    && SizesOk(job, s.coord)
    && IssuedOk(job, s.coord, s.issued)
    && FilesOk(job, s.files)
    && MapsWritten(job, s.coord, s.files)
    && OutsOk(job, s.coord, s.outs)
    && ReducesWritten(s.coord, s.outs)
  }

  // ---------------------------------------------------------------- every step keeps it

  /** The same tasks, with all that were completed still completed. */
  ghost predicate TasksOnward(tasks: seq<TaskInfo>, tasks': seq<TaskInfo>) {
    |tasks'| == |tasks| && forall i | 0 <= i < |tasks| && tasks[i].state == Completed :: tasks'[i].state == Completed
  }

  /** Completed tasks stay completed, and so does the reduce phase. */
  ghost predicate Onward(c: Coord, c': Coord) {
    && TasksOnward(c.mapTasks, c'.mapTasks) && TasksOnward(c.reduceTasks, c'.reduceTasks)
    && (c.phase == ReduceTask ==> c'.phase == ReduceTask)
    && (c.allDone ==> c'.allDone)
  }

  lemma GetOnward(c: Coord, now: int)
    requires CountersOk(c)
    ensures CountersOk(AfterGetTask(c, now)) && Onward(c, AfterGetTask(c, now))
  {
    GetTaskKeeps(c, now);
  }

  lemma ReportOnward(c: Coord, kind: Kind, id: nat, success: bool)
    requires CountersOk(c)
    ensures CountersOk(AfterReport(c, kind, id, success)) && Onward(c, AfterReport(c, kind, id, success))
  {
    ReportKeeps(c, kind, id, success);
  }

  lemma TimeoutsOnward(c: Coord, now: int)
    requires CountersOk(c)
    ensures CountersOk(AfterTimeouts(c, now)) && Onward(c, AfterTimeouts(c, now))
  {
    TimeoutsKeep(c, now);
  }

  lemma StepOnward(job: Job, s: Sys, step: Step)
    requires CountersOk(s.coord) && Enabled(job, s, step)
    ensures CountersOk(After(job, s, step).coord) && Onward(s.coord, After(job, s, step).coord)
  {
    match step {
      case GetTask(now) => GetOnward(s.coord, now);
      case WriteFile(m, r) =>
      case WriteOutput(r, out) =>
      case Report(kind, id, success) => ReportOnward(s.coord, kind, id, success);
      case CheckTimeouts(now) => TimeoutsOnward(s.coord, now);
    }
  }

  /** After the barrier a reduce task reads every file, with its final contents. */
  lemma ReadsAll(job: Job, s: Sys, r: nat)
    requires Inv(job, s) && s.coord.phase == ReduceTask && r < job.nReduce
    ensures ReadFiles(job, s.files, r) == FilesFor(job.inputs, job.mapf, job.hash, job.nReduce, r)
  {
    forall m: nat | m < |job.inputs| ensures (m, r) in s.files && s.files[(m, r)] == FileContents(job, m, r) {
      assert s.coord.mapTasks[m].state == Completed;
      assert AllWritten(job, s.files, m);
    }
  }

  lemma ReportInv(job: Job, s: Sys, kind: Kind, id: nat, success: bool)
    requires Inv(job, s) && Enabled(job, s, Report(kind, id, success))
    ensures Inv(job, After(job, s, Report(kind, id, success)))
  {
    StepOnward(job, s, Report(kind, id, success));
    var c, c' := s.coord, AfterReport(s.coord, kind, id, success);
    forall m | 0 <= m < |c'.mapTasks| && c'.mapTasks[m].state == Completed ensures AllWritten(job, s.files, m) {
      assert c.mapTasks[m].state == Completed || (kind == MapTask && m == id && success);
    }
  }

  lemma WriteOutputInv(job: Job, s: Sys, r: nat, out: seq<Line>)
    requires Inv(job, s) && Enabled(job, s, WriteOutput(r, out))
    ensures Inv(job, After(job, s, WriteOutput(r, out)))
  {
    assert IssuedOk(job, s.coord, s.issued);
    var t := Run(ReduceTask, r);
    assert t in s.issued;
    ReadsAll(job, s, r);
  }

  lemma GetTaskInv(job: Job, s: Sys, now: int)
    requires Inv(job, s)
    ensures Inv(job, After(job, s, GetTask(now)))
  {
    StepOnward(job, s, GetTask(now));
  }

  lemma StepInv(job: Job, s: Sys, step: Step)
    requires Inv(job, s) && Enabled(job, s, step)
    ensures Inv(job, After(job, s, step))
  {
    match step {
      case GetTask(now) => GetTaskInv(job, s, now);
      case WriteFile(m, r) =>
        var files := s.files[(m, r) := FileContents(job, m, r)];
        forall k | 0 <= k < |s.coord.mapTasks| && s.coord.mapTasks[k].state == Completed ensures AllWritten(job, files, k) {
          assert AllWritten(job, s.files, k);
        }
      case WriteOutput(r, out) => WriteOutputInv(job, s, r, out);
      case Report(kind, id, success) => ReportInv(job, s, kind, id, success);
      case CheckTimeouts(now) => StepOnward(job, s, step);
    }
  }

  lemma InitInv(job: Job, s: Sys)
    requires Init(job, s)
    ensures Inv(job, s)
  {
    FreshOk(|job.inputs|, job.nReduce);
  }

  lemma {:induction false} RunInv(job: Job, run: seq<Sys>, steps: seq<Step>, n: nat)
    requires IsRun(job, run, steps) && n < |run|
    ensures Inv(job, run[n])
  {
    if n == 0 {
      InitInv(job, run[0]);
    } else {
      RunInv(job, run, steps, n - 1);
      assert IsStep(job, run[n - 1], steps[n - 1], run[n - 1 + 1]);
      StepInv(job, run[n - 1], steps[n - 1]);
    }
  }

  // ---------------------------------------------------------------- the theorems

  /** No reduce task is ever handed out before every map task has completed. */
  lemma Barrier(job: Job, run: seq<Sys>, steps: seq<Step>, n: nat, r: nat)
    requires IsRun(job, run, steps) && n < |run| && Run(ReduceTask, r) in run[n].issued
    ensures AllCompleted(run[n].coord.mapTasks)
    ensures run[n].coord.mapDone == |run[n].coord.mapTasks| == |job.inputs|
  {
    RunInv(job, run, steps, n);
    CompletionsFull(run[n].coord.mapTasks);
    var t := Run(ReduceTask, r);
    assert t in run[n].issued;
  }

  lemma OnwardChain(a: Coord, b: Coord, c: Coord)
    requires Onward(a, b) && Onward(b, c)
    ensures Onward(a, c)
  {
  }

  lemma RunOnward(job: Job, run: seq<Sys>, steps: seq<Step>, k: nat)
    requires IsRun(job, run, steps) && k < |steps|
    ensures Onward(run[k].coord, run[k + 1].coord)
  {
    RunInv(job, run, steps, k);
    assert IsStep(job, run[k], steps[k], run[k + 1]);
    StepOnward(job, run[k], steps[k]);
  }

  lemma {:induction false} ChainOnward(cs: seq<Coord>, n: nat, k: nat)
    requires n <= k < |cs| && forall i: nat | i < |cs| - 1 :: Onward(cs[i], cs[i + 1])
    ensures Onward(cs[n], cs[k])
    decreases k - n
  {
    if n < k {
      ChainOnward(cs, n, k - 1);
      assert Onward(cs[k - 1], cs[k - 1 + 1]);
      OnwardChain(cs[n], cs[k - 1], cs[k]);
    }
  }

  /** Whatever is complete stays complete, through timeouts and late or repeated reports. */
  lemma CompletionPermanent(job: Job, run: seq<Sys>, steps: seq<Step>, n: nat, k: nat)
    requires IsRun(job, run, steps) && n <= k < |run|
    ensures Onward(run[n].coord, run[k].coord)
  {
    var cs := seq(|run|, i requires 0 <= i < |run| => run[i].coord);
    forall i: nat | i < |cs| - 1 ensures Onward(cs[i], cs[i + 1]) {
      RunOnward(job, run, steps, i);
    }
    ChainOnward(cs, n, k);
  }

  /** The counters always tell the number of completed tasks. */
  lemma CountersExact(job: Job, run: seq<Sys>, steps: seq<Step>, n: nat)
    requires IsRun(job, run, steps) && n < |run|
    ensures run[n].coord.mapDone == Completions(run[n].coord.mapTasks)
    ensures run[n].coord.reduceDone == Completions(run[n].coord.reduceTasks)
  {
    RunInv(job, run, steps, n);
  }

  /** The end is announced only when every map task and every reduce task is complete. */
  lemma DoneMeansComplete(job: Job, run: seq<Sys>, steps: seq<Step>, n: nat)
    requires IsRun(job, run, steps) && n < |run| && run[n].coord.allDone
    ensures AllCompleted(run[n].coord.mapTasks) && AllCompleted(run[n].coord.reduceTasks)
    ensures job.inputs != [] && job.nReduce > 0
  {
    RunInv(job, run, steps, n);
    var c := run[n].coord;
    assert c.reduceTasks[0].state == Completed;
    var r: nat := 0;
    assert r in run[n].outs;
  }

  /** The contents of the output files, in the order of the reduce tasks. */
  function Outputs(job: Job, outs: map<nat, seq<Line>>): seq<seq<Line>>
    requires forall r: nat | r < job.nReduce :: r in outs
  {
    seq(job.nReduce, r requires 0 <= r < job.nReduce => outs[r])
  }

  /**
   End to end, if the reduction ignores order: when the coordinator is done, every output file exists and
   is exactly the lines of its partition in the sequential program's file, in the same order; together they
   hold the same lines, each as often.
   */
  lemma DoneMeansSequential(job: Job, run: seq<Sys>, steps: seq<Step>, n: nat, sequential: seq<Line>)
    requires IsRun(job, run, steps) && n < |run| && run[n].coord.allDone
    requires OrderFree(job.reducef) && Produces(Intermediate(job.inputs, job.mapf), job.reducef, sequential)
    ensures forall r: nat | r < job.nReduce :: r in run[n].outs
    ensures multiset(Texts(AllLines(Outputs(job, run[n].outs)))) == multiset(Texts(sequential))
    ensures forall r: nat | r < job.nReduce :: run[n].outs[r] == PartOf(sequential, job.hash, job.nReduce, r)
  {
    RunInv(job, run, steps, n);
    DoneMeansComplete(job, run, steps, n);
    var s := run[n];
    forall r: nat | r < job.nReduce ensures r in s.outs {
      assert s.coord.reduceTasks[r].state == Completed;
    }
    ProducesOutput(Intermediate(job.inputs, job.mapf), job.reducef, sequential);
    forall r | 0 <= r < job.nReduce
      ensures IsFile(s.outs[r], Gather(FilesFor(job.inputs, job.mapf, job.hash, job.nReduce, r)), job.reducef)
      ensures s.outs[r] == PartOf(sequential, job.hash, job.nReduce, r)
    {
      ProducesOutput(Gather(FilesFor(job.inputs, job.mapf, job.hash, job.nReduce, r)), job.reducef, s.outs[r]);
      FileIsPart(s.outs[r], sequential, job.inputs, job.mapf, job.reducef, job.hash, job.nReduce, r);
    }
    SameText(Outputs(job, s.outs), sequential, job.inputs, job.mapf, job.reducef, job.hash, job.nReduce);
  }
}
