/**
 The data path of MapReduce: bucketing in map tasks, gathering, sorting and grouping in reduce
 tasks, and the sequential program that says what the job means.
 */
module MapReduce {

  datatype KeyValue = KeyValue(key: string, value: string)

  /** One line of output before formatting. */
  datatype Line = Line(key: string, output: string)

  datatype Input = Input(name: string, content: string)

  type MapFn = (string, string) -> seq<KeyValue>
  type ReduceFn = (string, seq<string>) -> string
  type HashFn = string -> nat

  // ---------------------------------------------------------------- strings in dictionary order

  predicate Below(a: string, b: string) {
    if b == [] then false
    else if a == [] then true
    else a[0] < b[0] || (a[0] == b[0] && Below(a[1..], b[1..]))
  }

  lemma {:induction false} BelowTotal(a: string, b: string)
    ensures Below(a, b) || Below(b, a) || a == b
    ensures !(Below(a, b) && Below(b, a)) && !(Below(a, b) && a == b)
  {
    if a != [] && b != [] {
      BelowTotal(a[1..], b[1..]);
      assert a == [a[0]] + a[1..] && b == [b[0]] + b[1..];
    }
  }

  lemma {:induction false} BelowTransitive(a: string, b: string, c: string)
    requires Below(a, b) && Below(b, c)
    ensures Below(a, c)
  {
    if a != [] && a[0] == b[0] == c[0] {
      BelowTransitive(a[1..], b[1..], c[1..]);
    }
  }

  // ---------------------------------------------------------------- what a job means

  /** The values of a key, in the order they occur. */
  function Values(kva: seq<KeyValue>, key: string): seq<string> {
    if kva == [] then []
    else
      var kv := kva[|kva| - 1];
      Values(kva[..|kva| - 1], key) + if kv.key == key then [kv.value] else []
  }

  ghost predicate HasKey(kva: seq<KeyValue>, key: string) {
    exists i :: 0 <= i < |kva| && kva[i].key == key
  }

  /** The answer depends on which values there are and how often, not on their order. */
  ghost predicate OrderFree(reducef: ReduceFn) {
    forall key, a, b | multiset(a) == multiset(b) :: reducef(key, a) == reducef(key, b)
  }

  ghost predicate OneLineEach(out: seq<Line>) {
    forall i, j | 0 <= i < j < |out| :: out[i].key != out[j].key
  }

  /** One line for each key that occurs, holding the reduction of its values, and no other line. */
  ghost predicate IsOutput(out: seq<Line>, kva: seq<KeyValue>, reducef: ReduceFn) {
    && OneLineEach(out)
    && forall l: Line :: l in out <==> HasKey(kva, l.key) && l.output == reducef(l.key, Values(kva, l.key))
  }

  ghost predicate SortedLines(out: seq<Line>) {
    forall i, j | 0 <= i < j < |out| :: Below(out[i].key, out[j].key)
  }

  /** An output written in ascending order of the keys. */
  ghost predicate IsFile(out: seq<Line>, kva: seq<KeyValue>, reducef: ReduceFn) {
    IsOutput(out, kva, reducef) && SortedLines(out)
  }

  /** The output file of the pairs in some arrangement: all that is known after an unstable sort. */
  ghost predicate Produces(kva: seq<KeyValue>, reducef: ReduceFn, out: seq<Line>) {
    exists arranged :: Arranged(arranged, kva) && IsFile(out, arranged, reducef)
  }

  ghost predicate Arranged(a: seq<KeyValue>, b: seq<KeyValue>) {
    multiset(a) == multiset(b)
  }

  // ---------------------------------------------------------------- rearranging pairs

  lemma {:induction false} ValuesCount(kva: seq<KeyValue>, key: string, value: string)
    ensures multiset(Values(kva, key))[value] == multiset(kva)[KeyValue(key, value)]
  {
    if kva != [] {
      var n := |kva| - 1;
      ValuesCount(kva[..n], key, value);
      assert kva == kva[..n] + [kva[n]];
    }
  }

  lemma ValuesPermuted(a: seq<KeyValue>, b: seq<KeyValue>, key: string)
    requires multiset(a) == multiset(b)
    ensures multiset(Values(a, key)) == multiset(Values(b, key))
  {
    forall v: string ensures multiset(Values(a, key))[v] == multiset(Values(b, key))[v] {
      ValuesCount(a, key, v);
      ValuesCount(b, key, v);
    }
  }

  lemma HasKeyPermuted(a: seq<KeyValue>, b: seq<KeyValue>, key: string)
    requires multiset(a) == multiset(b) && HasKey(a, key)
    ensures HasKey(b, key)
  {
    var i :| 0 <= i < |a| && a[i].key == key;
    var kv := a[i];
    assert kv in multiset(a);
    assert kv in b;
  }

  /** Sorting first, stably or not, makes no difference to the output. */
  lemma OutputPermuted(out: seq<Line>, a: seq<KeyValue>, b: seq<KeyValue>, reducef: ReduceFn)
    requires multiset(a) == multiset(b) && OrderFree(reducef) && IsOutput(out, a, reducef)
    ensures IsOutput(out, b, reducef)
  {
    forall l: Line
      ensures HasKey(a, l.key) == HasKey(b, l.key)
      ensures reducef(l.key, Values(a, l.key)) == reducef(l.key, Values(b, l.key))
    {
      ValuesPermuted(a, b, l.key);
      if HasKey(a, l.key) {
        HasKeyPermuted(a, b, l.key);
      }
      if HasKey(b, l.key) {
        HasKeyPermuted(b, a, l.key);
      }
    }
  }

  /** When the reduction ignores order, every arrangement has the output of the pairs as they came. */
  lemma ProducesOutput(kva: seq<KeyValue>, reducef: ReduceFn, out: seq<Line>)
    requires OrderFree(reducef) && Produces(kva, reducef, out)
    ensures IsFile(out, kva, reducef)
  {
    var arranged :| Arranged(arranged, kva) && IsFile(out, arranged, reducef);
    OutputPermuted(out, arranged, kva, reducef);
  }

  // ---------------------------------------------------------------- sorting and grouping

  ghost predicate SortedByKey(kva: seq<KeyValue>) {
    forall i, j | 0 <= i < j < |kva| :: !Below(kva[j].key, kva[i].key)
  }

  /** The library sort: some sorted arrangement, not necessarily a stable one. */
  method SortByKey(kva: seq<KeyValue>) returns (r: seq<KeyValue>)
    ensures SortedByKey(r) && multiset(r) == multiset(kva)
  {
    r := [];
    var i := 0;
    while i < |kva|
      invariant i <= |kva| && SortedByKey(r) && multiset(r) == multiset(kva[..i])
    {
      assert kva[..i + 1] == kva[..i] + [kva[i]];
      r := InsertByKey(r, kva[i]);
      i := i + 1;
    }
    assert kva[..|kva|] == kva;
  }

  method InsertByKey(a: seq<KeyValue>, kv: KeyValue) returns (r: seq<KeyValue>)
    requires SortedByKey(a)
    ensures SortedByKey(r) && multiset(r) == multiset(a) + multiset{kv}
  {
    var k := 0;
    while k < |a| && Below(a[k].key, kv.key)
      invariant k <= |a| && forall i | 0 <= i < k :: Below(a[i].key, kv.key)
    {
      k := k + 1;
    }
    InsertSorted(a, kv, k);
    r := a[..k] + [kv] + a[k..];
    assert a == a[..k] + a[k..];
  }

  lemma InsertSorted(a: seq<KeyValue>, kv: KeyValue, k: nat)
    requires SortedByKey(a) && k <= |a|
    requires forall i | 0 <= i < k :: Below(a[i].key, kv.key)
    requires k < |a| ==> !Below(a[k].key, kv.key)
    ensures SortedByKey(a[..k] + [kv] + a[k..])
  {
    forall i | 0 <= i < k ensures !Below(kv.key, a[i].key) {
      BelowTotal(kv.key, a[i].key);
    }
    forall j | k <= j < |a| ensures !Below(a[j].key, kv.key) {
      if Below(a[j].key, kv.key) && k < j {
        BelowTotal(a[k].key, a[j].key);
        if Below(a[k].key, a[j].key) {
          BelowTransitive(a[k].key, a[j].key, kv.key);
        }
      }
    }
  }

  /** In a sorted sequence no key comes back after a different one. */
  lemma Contiguous(kva: seq<KeyValue>, i: nat, j: nat, k: nat)
    requires SortedByKey(kva) && i <= j <= k < |kva| && kva[i].key == kva[k].key
    ensures kva[j].key == kva[i].key
  {
    BelowTotal(kva[i].key, kva[j].key);
  }

  lemma {:induction false} RunValues(kva: seq<KeyValue>, i: nat, j: nat, key: string)
    requires i < j <= |kva| && forall k | i <= k < j :: kva[k].key == kva[i].key
    ensures Values(kva[..j], key) == Values(kva[..i], key) +
      if key == kva[i].key then seq(j - i, k requires 0 <= k < j - i => kva[i + k].value) else []
  {
    assert kva[..j][..j - 1] == kva[..j - 1];
    if j - 1 > i {
      RunValues(kva, i, j - 1, key);
    }
  }

  lemma {:induction false} ValuesOfAbsent(kva: seq<KeyValue>, key: string)
    requires !HasKey(kva, key)
    ensures Values(kva, key) == []
  {
    if kva != [] {
      var init := kva[..|kva| - 1];
      assert forall i | 0 <= i < |init| :: init[i] == kva[i];
      ValuesOfAbsent(init, key);
    }
  }

  /** The loop collecting the values of one run of equal keys. */
  method CollectValues(kva: seq<KeyValue>, i: nat, j: nat) returns (values: seq<string>)
    requires i <= j <= |kva|
    ensures |values| == j - i && forall k | 0 <= k < j - i :: values[k] == kva[i + k].value
  {
    values := [];
    var k := i;
    while k < j
      invariant i <= k <= j && |values| == k - i
      invariant forall x | 0 <= x < k - i :: values[x] == kva[i + x].value
    {
      values := values + [kva[k].value];
      k := k + 1;
    }
  }

  method RunEnd(kva: seq<KeyValue>, i: nat) returns (j: nat)
    requires i < |kva|
    ensures i < j <= |kva| && (forall k | i <= k < j :: kva[k].key == kva[i].key)
    ensures j < |kva| ==> kva[j].key != kva[i].key
  {
    j := i + 1;
    while j < |kva| && kva[j].key == kva[i].key
      invariant i < j <= |kva| && forall k | i <= k < j :: kva[k].key == kva[i].key
    {
      j := j + 1;
    }
  }

  /** One more run: its line completes the output of the longer prefix. */
  lemma OutputGrows(out: seq<Line>, kva: seq<KeyValue>, reducef: ReduceFn, i: nat, j: nat, values: seq<string>)
    requires SortedByKey(kva) && i < j <= |kva| && IsFile(out, kva[..i], reducef)
    requires forall k | i <= k < j :: kva[k].key == kva[i].key
    requires !HasKey(kva[..i], kva[i].key)
    requires |values| == j - i && forall k | 0 <= k < j - i :: values[k] == kva[i + k].value
    ensures IsFile(out + [Line(kva[i].key, reducef(kva[i].key, values))], kva[..j], reducef)
  {
    var line := Line(kva[i].key, reducef(kva[i].key, values));
    LinesBelow(out, kva, reducef, i);
    forall l: Line
      ensures HasKey(kva[..j], l.key) <==> HasKey(kva[..i], l.key) || l.key == kva[i].key
      ensures Values(kva[..j], l.key) == if l.key == kva[i].key then values else Values(kva[..i], l.key)
    {
      RunValues(kva, i, j, l.key);
      ValuesOfAbsent(kva[..i], kva[i].key);
      KeysOfRun(kva, i, j, l.key);
    }
    forall x | 0 <= x < |out| ensures out[x].key != line.key {
      var l := out[x];
      assert l in out;
    }
  }

  /** The lines written so far come before the next key. */
  lemma LinesBelow(out: seq<Line>, kva: seq<KeyValue>, reducef: ReduceFn, i: nat)
    requires SortedByKey(kva) && i < |kva| && IsOutput(out, kva[..i], reducef) && !HasKey(kva[..i], kva[i].key)
    ensures forall x | 0 <= x < |out| :: Below(out[x].key, kva[i].key)
  {
    forall x | 0 <= x < |out| ensures Below(out[x].key, kva[i].key) {
      var l := out[x];
      assert l in out;
      var y :| 0 <= y < i && kva[..i][y].key == l.key;
      BelowTotal(l.key, kva[i].key);
    }
  }

  lemma KeysOfRun(kva: seq<KeyValue>, i: nat, j: nat, key: string)
    requires i < j <= |kva| && forall k | i <= k < j :: kva[k].key == kva[i].key
    ensures HasKey(kva[..j], key) <==> HasKey(kva[..i], key) || key == kva[i].key
  {
    var a, b := kva[..i], kva[..j];
    assert forall k | 0 <= k < i :: a[k] == b[k];
    assert b[i] == kva[i];
    assert forall k | i <= k < j :: b[k] == kva[k];
  }

  /** The i/j/k loop of a reduce task and of the sequential program. */
  method GroupAndReduce(kva: seq<KeyValue>, reducef: ReduceFn) returns (out: seq<Line>)
    requires SortedByKey(kva)
    ensures IsFile(out, kva, reducef)
  {
    out := [];
    var i := 0;
    while i < |kva|
      invariant i <= |kva| && IsFile(out, kva[..i], reducef)
      invariant i < |kva| ==> !HasKey(kva[..i], kva[i].key)
    {
      var j := RunEnd(kva, i);
      var values := CollectValues(kva, i, j);
      OutputGrows(out, kva, reducef, i, j, values);
      out := out + [Line(kva[i].key, reducef(kva[i].key, values))];
      if j < |kva| {
        NewKeyNext(kva, i, j);
      }
      i := j;
    }
    assert kva[..|kva|] == kva;
  }

  lemma NewKeyNext(kva: seq<KeyValue>, i: nat, j: nat)
    requires SortedByKey(kva) && i < j < |kva| && kva[j].key != kva[i].key
    requires forall k | i <= k < j :: kva[k].key == kva[i].key
    ensures !HasKey(kva[..j], kva[j].key)
  {
    forall x | 0 <= x < j ensures kva[..j][x].key != kva[j].key {
      if kva[x].key == kva[j].key {
        Contiguous(kva, x, j - 1, j);
      }
    }
  }

  // ---------------------------------------------------------------- the two programs

  /** The pairs of all inputs in order. */
  function Intermediate(inputs: seq<Input>, mapf: MapFn): seq<KeyValue> {
    if inputs == [] then []
    else
      var f := inputs[|inputs| - 1];
      Intermediate(inputs[..|inputs| - 1], mapf) + mapf(f.name, f.content)
  }

  method Sequential(inputs: seq<Input>, mapf: MapFn, reducef: ReduceFn) returns (out: seq<Line>)
    ensures Produces(Intermediate(inputs, mapf), reducef, out)
  {
    var intermediate := [];
    var i := 0;
    while i < |inputs|
      invariant i <= |inputs| && intermediate == Intermediate(inputs[..i], mapf)
    {
      assert inputs[..i + 1][..i] == inputs[..i];
      intermediate := intermediate + mapf(inputs[i].name, inputs[i].content);
      i := i + 1;
    }
    assert inputs[..|inputs|] == inputs;
    var sorted := SortByKey(intermediate);
    out := GroupAndReduce(sorted, reducef);
    assert Arranged(sorted, intermediate);
  }

  function BucketOf(hash: HashFn, n: nat, key: string): nat
    requires n > 0
  {
    hash(key) % n
  }

  /** The pairs a map task writes for reduce task `r`. */
  function Bucket(kva: seq<KeyValue>, hash: HashFn, n: nat, r: nat): seq<KeyValue>
    requires n > 0
  {
    if kva == [] then []
    else
      var kv := kva[|kva| - 1];
      Bucket(kva[..|kva| - 1], hash, n, r) + if BucketOf(hash, n, kv.key) == r then [kv] else []
  }

  /** The bucketing loop of a map task. */
  method Partition(kva: seq<KeyValue>, hash: HashFn, nReduce: nat) returns (buckets: seq<seq<KeyValue>>)
    requires nReduce > 0
    ensures |buckets| == nReduce && forall r | 0 <= r < nReduce :: buckets[r] == Bucket(kva, hash, nReduce, r)
  {
    buckets := seq(nReduce, _ => []);
    var i := 0;
    while i < |kva|
      invariant i <= |kva| && |buckets| == nReduce
      invariant forall r | 0 <= r < nReduce :: buckets[r] == Bucket(kva[..i], hash, nReduce, r)
    {
      assert kva[..i + 1][..i] == kva[..i];
      var b := hash(kva[i].key) % nReduce;
      buckets := buckets[b := buckets[b] + [kva[i]]];
      i := i + 1;
    }
    assert kva[..|kva|] == kva;
  }

  /** The contents of the intermediate files, in the order of the map tasks. */
  function Gather(files: seq<seq<KeyValue>>): seq<KeyValue> {
    if files == [] then [] else Gather(files[..|files| - 1]) + files[|files| - 1]
  }

  /** A reduce task over its intermediate files; a missing file counts as empty. */
  method ReduceTask(files: seq<seq<KeyValue>>, reducef: ReduceFn) returns (out: seq<Line>)
    ensures Produces(Gather(files), reducef, out)
  {
    var kva := [];
    var m := 0;
    while m < |files|
      invariant m <= |files| && kva == Gather(files[..m])
    {
      assert files[..m + 1][..m] == files[..m];
      kva := kva + files[m];
      m := m + 1;
    }
    assert files[..|files|] == files;
    var sorted := SortByKey(kva);
    out := GroupAndReduce(sorted, reducef);
    assert Arranged(sorted, kva);
  }

  // ---------------------------------------------------------------- they mean the same

  lemma {:induction false} ValuesConcat(a: seq<KeyValue>, b: seq<KeyValue>, key: string)
    ensures Values(a + b, key) == Values(a, key) + Values(b, key)
  {
    if b == [] {
      assert a + b == a;
    } else {
      var n := |b| - 1;
      assert (a + b)[..|a + b| - 1] == a + b[..n];
      ValuesConcat(a, b[..n], key);
    }
  }

  /** A bucket has all the values of its own keys, in order, and none of other keys. */
  lemma {:induction false} ValuesInBucket(kva: seq<KeyValue>, hash: HashFn, n: nat, r: nat, key: string)
    requires n > 0
    ensures Values(Bucket(kva, hash, n, r), key) == if BucketOf(hash, n, key) == r then Values(kva, key) else []
  {
    if kva != [] {
      var init, kv := kva[..|kva| - 1], kva[|kva| - 1];
      ValuesInBucket(init, hash, n, r, key);
      var last := if BucketOf(hash, n, kv.key) == r then [kv] else [];
      ValuesConcat(Bucket(init, hash, n, r), last, key);
    }
  }

  /** The files reduce task `r` reads once every map task has written its own. */
  function FilesFor(inputs: seq<Input>, mapf: MapFn, hash: HashFn, n: nat, r: nat): seq<seq<KeyValue>>
    requires n > 0
  {
    seq(|inputs|, m requires 0 <= m < |inputs| => Bucket(mapf(inputs[m].name, inputs[m].content), hash, n, r))
  }

  lemma {:induction false} ValuesGathered(inputs: seq<Input>, mapf: MapFn, hash: HashFn, n: nat, r: nat, key: string)
    requires n > 0
    ensures Values(Gather(FilesFor(inputs, mapf, hash, n, r)), key)
         == if BucketOf(hash, n, key) == r then Values(Intermediate(inputs, mapf), key) else []
  {
    var files := FilesFor(inputs, mapf, hash, n, r);
    if inputs != [] {
      var k := |inputs| - 1;
      var kva := mapf(inputs[k].name, inputs[k].content);
      ValuesGathered(inputs[..k], mapf, hash, n, r, key);
      assert files[..k] == FilesFor(inputs[..k], mapf, hash, n, r);
      ValuesInBucket(kva, hash, n, r, key);
      ValuesConcat(Gather(files[..k]), files[k], key);
      ValuesConcat(Intermediate(inputs[..k], mapf), kva, key);
    }
  }

  lemma {:induction false} HasKeyMeansValues(kva: seq<KeyValue>, key: string)
    ensures HasKey(kva, key) <==> Values(kva, key) != []
  {
    if kva != [] {
      var init := kva[..|kva| - 1];
      HasKeyMeansValues(init, key);
      assert forall i | 0 <= i < |init| :: init[i] == kva[i];
    }
  }

  /** All lines of the reduce tasks' outputs. */
  function AllLines(outs: seq<seq<Line>>): seq<Line> {
    if outs == [] then [] else AllLines(outs[..|outs| - 1]) + outs[|outs| - 1]
  }

  lemma {:induction false} InAllLines(outs: seq<seq<Line>>, l: Line)
    ensures l in AllLines(outs) <==> exists r :: 0 <= r < |outs| && l in outs[r]
  {
    if outs != [] {
      var init := outs[..|outs| - 1];
      InAllLines(init, l);
      assert forall r | 0 <= r < |init| :: init[r] == outs[r];
    }
  }

  lemma {:induction false} AllLinesOneEach(outs: seq<seq<Line>>, hash: HashFn, n: nat)
    requires n > 0 && forall r | 0 <= r < |outs| :: OneLineEach(outs[r]) && InPartition(outs[r], hash, n, r)
    ensures OneLineEach(AllLines(outs))
  {
    if outs != [] {
      var k := |outs| - 1;
      var init := outs[..k];
      assert forall r | 0 <= r < |init| :: init[r] == outs[r];
      AllLinesOneEach(init, hash, n);
      forall i, j | 0 <= i < |AllLines(init)| && 0 <= j < |outs[k]|
        ensures AllLines(init)[i].key != outs[k][j].key
      {
        var l := AllLines(init)[i];
        assert l in AllLines(init);
        InAllLines(init, l);
        var r :| 0 <= r < |init| && l in init[r];
        assert InPartition(init[r], hash, n, r) && InPartition(outs[k], hash, n, k);
      }
    }
  }

  ghost predicate InPartition(out: seq<Line>, hash: HashFn, n: nat, r: nat)
    requires n > 0
  {
    forall i | 0 <= i < |out| :: BucketOf(hash, n, out[i].key) == r
  }

  lemma OutputInPartition(out: seq<Line>, inputs: seq<Input>, mapf: MapFn, reducef: ReduceFn, hash: HashFn, n: nat,
                          r: nat)
    requires n > 0 && IsOutput(out, Gather(FilesFor(inputs, mapf, hash, n, r)), reducef)
    ensures InPartition(out, hash, n, r)
  {
    forall i | 0 <= i < |out| ensures BucketOf(hash, n, out[i].key) == r {
      var l := out[i];
      assert l in out;
      ValuesGathered(inputs, mapf, hash, n, r, l.key);
      HasKeyMeansValues(Gather(FilesFor(inputs, mapf, hash, n, r)), l.key);
    }
  }

  /** The reduce tasks' outputs of a whole job. */
  ghost predicate JobOutput(outs: seq<seq<Line>>, inputs: seq<Input>, mapf: MapFn, reducef: ReduceFn, hash: HashFn,
                            n: nat)
    requires n > 0
  {
    |outs| == n && forall r | 0 <= r < n :: IsFile(outs[r], Gather(FilesFor(inputs, mapf, hash, n, r)), reducef)
  }

  /** The outputs together are an output of the sequential program; each key is in its own partition. */
  lemma DistributedMeansSequential(outs: seq<seq<Line>>, inputs: seq<Input>, mapf: MapFn, reducef: ReduceFn,
                                   hash: HashFn, n: nat)
    requires n > 0 && JobOutput(outs, inputs, mapf, reducef, hash, n)
    ensures IsOutput(AllLines(outs), Intermediate(inputs, mapf), reducef)
    ensures forall r | 0 <= r < n :: InPartition(outs[r], hash, n, r)
  {
    forall r | 0 <= r < n ensures InPartition(outs[r], hash, n, r) {
      OutputInPartition(outs[r], inputs, mapf, reducef, hash, n, r);
    }
    AllLinesOneEach(outs, hash, n);
    var kva := Intermediate(inputs, mapf);
    forall l: Line
      ensures l in AllLines(outs) <==> HasKey(kva, l.key) && l.output == reducef(l.key, Values(kva, l.key))
    {
      var b := BucketOf(hash, n, l.key);
      InAllLines(outs, l);
      var part := Gather(FilesFor(inputs, mapf, hash, n, b));
      ValuesGathered(inputs, mapf, hash, n, b, l.key);
      HasKeyMeansValues(part, l.key);
      HasKeyMeansValues(kva, l.key);
      assert IsOutput(outs[b], part, reducef);
      assert l in outs[b] <==> HasKey(part, l.key) && l.output == reducef(l.key, Values(part, l.key));
      forall r | 0 <= r < n && l in outs[r] ensures r == b {
      }
    }
  }

  lemma {:induction false} DistinctLines(out: seq<Line>, l: Line)
    requires OneLineEach(out)
    ensures multiset(out)[l] == if l in out then 1 else 0
  {
    if out != [] {
      var n := |out| - 1;
      assert out == out[..n] + [out[n]];
      DistinctLines(out[..n], l);
    }
  }

  /** Two outputs of the same pairs are the same lines, each as often. */
  lemma OutputUnique(a: seq<Line>, b: seq<Line>, kva: seq<KeyValue>, reducef: ReduceFn)
    requires IsOutput(a, kva, reducef) && IsOutput(b, kva, reducef)
    ensures multiset(a) == multiset(b)
  {
    forall l: Line ensures multiset(a)[l] == multiset(b)[l] {
      DistinctLines(a, l);
      DistinctLines(b, l);
    }
  }

  function Text(l: Line): string {
    l.key + " " + l.output + "\n"
  }

  function Texts(ls: seq<Line>): seq<string> {
    if ls == [] then [] else Texts(ls[..|ls| - 1]) + [Text(ls[|ls| - 1])]
  }

  lemma {:induction false} TextsSplit(a: seq<Line>, b: seq<Line>)
    ensures Texts(a + b) == Texts(a) + Texts(b)
  {
    if b == [] {
      assert a + b == a;
    } else {
      assert (a + b)[..|a + b| - 1] == a + b[..|b| - 1];
      TextsSplit(a, b[..|b| - 1]);
    }
  }

  lemma TakeOut(ls: seq<Line>, l: Line) returns (front: seq<Line>, back: seq<Line>)
    requires l in ls
    ensures ls == front + [l] + back && multiset(front + back) == multiset(ls) - multiset{l}
  {
    var k :| 0 <= k < |ls| && ls[k] == l;
    front, back := ls[..k], ls[k + 1..];
    assert ls == front + [l] + back;
  }

  lemma TextsWith(front: seq<Line>, l: Line, back: seq<Line>)
    ensures multiset(Texts(front + [l] + back)) == multiset(Texts(front + back)) + multiset{Text(l)}
  {
    TextsSplit(front + [l], back);
    TextsSplit(front, [l]);
    TextsSplit(front, back);
    assert [l][..0] == [];
    assert Texts([l]) == [Text(l)];
  }

  lemma {:induction false} TextsPermuted(a: seq<Line>, b: seq<Line>)
    requires multiset(a) == multiset(b)
    ensures multiset(Texts(a)) == multiset(Texts(b))
    decreases |a|
  {
    if a == [] {
      assert |multiset(b)| == 0;
    } else {
      var l := a[0];
      assert l in multiset(b);
      var aFront, aBack := TakeOut(a, l);
      var bFront, bBack := TakeOut(b, l);
      TextsWith(aFront, l, aBack);
      TextsWith(bFront, l, bBack);
      TextsPermuted(aFront + aBack, bFront + bBack);
    }
  }

  /** The output files hold, line for line and as often, what the sequential program writes. */
  lemma SameText(outs: seq<seq<Line>>, sequential: seq<Line>, inputs: seq<Input>, mapf: MapFn, reducef: ReduceFn,
                 hash: HashFn, n: nat)
    requires n > 0 && JobOutput(outs, inputs, mapf, reducef, hash, n)
    requires IsOutput(sequential, Intermediate(inputs, mapf), reducef)
    ensures multiset(Texts(AllLines(outs))) == multiset(Texts(sequential))
  {
    DistributedMeansSequential(outs, inputs, mapf, reducef, hash, n);
    OutputUnique(AllLines(outs), sequential, Intermediate(inputs, mapf), reducef);
    TextsPermuted(AllLines(outs), sequential);
  }

  // ---------------------------------------------------------------- file by file

  /** Only one ascending sequence has given lines. */
  lemma {:induction false} SortedUnique(a: seq<Line>, b: seq<Line>)
    requires SortedLines(a) && SortedLines(b) && forall l: Line :: l in a <==> l in b
    ensures a == b
    decreases |a|
  {
    if a != [] {
      var x := a[0];
      assert x in a;
      assert b != [];
    }
    if b != [] {
      var y := b[0];
      assert y in b;
      assert a != [];
    }
    if a != [] {
      var x, y := a[0], b[0];
      FirstAgrees(a, b);
      forall l: Line ensures l in a[1..] <==> l in b[1..] {
        NotInTail(a);
        NotInTail(b);
        assert l in a <==> l == x || l in a[1..];
        assert l in b <==> l == y || l in b[1..];
      }
      SortedUnique(a[1..], b[1..]);
    }
  }

  lemma NotInTail(a: seq<Line>)
    requires SortedLines(a) && a != []
    ensures a[0] !in a[1..]
  {
    if a[0] in a[1..] {
      var k :| 0 <= k < |a[1..]| && a[1..][k] == a[0];
      BelowTotal(a[0].key, a[k + 1].key);
      assert false;
    }
  }

  lemma FirstAgrees(a: seq<Line>, b: seq<Line>)
    requires SortedLines(a) && SortedLines(b) && a != [] && b != [] && forall l: Line :: l in a <==> l in b
    ensures a[0] == b[0]
  {
    var x, y := a[0], b[0];
    assert x in a && y in b;
    var i :| 0 <= i < |a| && a[i] == y;
    var j :| 0 <= j < |b| && b[j] == x;
    if i > 0 && j > 0 {
      BelowTotal(x.key, y.key);
      assert false;
    }
  }

  /** Each output file is determined, line by line. */
  lemma FileUnique(a: seq<Line>, b: seq<Line>, kva: seq<KeyValue>, reducef: ReduceFn)
    requires IsFile(a, kva, reducef) && IsFile(b, kva, reducef)
    ensures a == b
  {
    SortedUnique(a, b);
  }

  /** The lines whose keys belong to partition r, in order. */
  function PartOf(out: seq<Line>, hash: HashFn, n: nat, r: nat): seq<Line>
    requires n > 0
  {
    if out == [] then []
    else
      var l := out[|out| - 1];
      PartOf(out[..|out| - 1], hash, n, r) + if BucketOf(hash, n, l.key) == r then [l] else []
  }

  lemma {:induction false} InPart(out: seq<Line>, hash: HashFn, n: nat, r: nat, l: Line)
    requires n > 0
    ensures l in PartOf(out, hash, n, r) <==> l in out && BucketOf(hash, n, l.key) == r
  {
    if out != [] {
      var k := |out| - 1;
      InPart(out[..k], hash, n, r, l);
      assert out == out[..k] + [out[k]];
    }
  }

  lemma {:induction false} PartSorted(out: seq<Line>, hash: HashFn, n: nat, r: nat)
    requires n > 0 && SortedLines(out)
    ensures SortedLines(PartOf(out, hash, n, r))
  {
    if out != [] {
      var k := |out| - 1;
      PartSorted(out[..k], hash, n, r);
      var part := PartOf(out[..k], hash, n, r);
      forall x | 0 <= x < |part| ensures Below(part[x].key, out[k].key) {
        var l := part[x];
        assert l in part;
        InPart(out[..k], hash, n, r, l);
      }
    }
  }

  /** What a reduce task writes is exactly the lines of its partition in the sequential program's file. */
  lemma FileIsPart(out: seq<Line>, sequential: seq<Line>, inputs: seq<Input>, mapf: MapFn, reducef: ReduceFn,
                   hash: HashFn, n: nat, r: nat)
    requires n > 0 && IsFile(out, Gather(FilesFor(inputs, mapf, hash, n, r)), reducef)
    requires IsFile(sequential, Intermediate(inputs, mapf), reducef)
    ensures out == PartOf(sequential, hash, n, r)
  {
    var kva, part := Intermediate(inputs, mapf), Gather(FilesFor(inputs, mapf, hash, n, r));
    PartSorted(sequential, hash, n, r);
    forall l: Line ensures l in out <==> l in PartOf(sequential, hash, n, r) {
      InPart(sequential, hash, n, r, l);
      ValuesGathered(inputs, mapf, hash, n, r, l.key);
      HasKeyMeansValues(part, l.key);
      HasKeyMeansValues(kva, l.key);
    }
    SortedUnique(out, PartOf(sequential, hash, n, r));
  }
}
