/** Pipeline task definitions, the default duration function, and the step validation
    that `calc_makespan` performs before anything is scheduled. */
module Tasks {

  /** One pipeline stage. `step` is the stage index the caller claims; `cpus` is the
      number of CPUs every job of this task reserves. The display name is not modelled. */
  datatype PipelineTask = PipelineTask(step: int, timeFactor: nat, spaceFactor: nat, cpus: nat)

  /** Every task can be costed: the default duration divides by `cpus`. */
  predicate CpusPositive(tasks: seq<PipelineTask>)
  {
    forall i :: 0 <= i < |tasks| ==> tasks[i].cpus > 0
  }

  /** The default `parallel_func`: `size * time // cpus` (floor division; all operands are
      non-negative here, so Python's floor division and Dafny's agree). The result is the
      largest whole number of time units that, spread over `cpus`, stays within the
      single-CPU work `size * time`. */
  function DefaultParallel(size: nat, time: nat, cpus: nat): (d: nat)
    requires cpus > 0
    ensures d * cpus <= size * time < (d + 1) * cpus
  {
    var work := size * time;
    var q := work / cpus;
    assert work == q * cpus + work % cpus;
    q
  }

  /** A zero-length job arises exactly when the single-CPU work is smaller than `cpus`. */
  lemma DefaultParallelZero(size: nat, time: nat, cpus: nat)
    requires cpus > 0
    ensures DefaultParallel(size, time, cpus) == 0 <==> size * time < cpus
  {
    var d := DefaultParallel(size, time, cpus);
    if d > 0 {
      assert d * cpus >= cpus;
    }
  }

  /** The step values of `tasks`, in order. */
  function Steps(tasks: seq<PipelineTask>): (r: seq<int>)
    ensures |r| == |tasks|
    ensures forall i :: 0 <= i < |tasks| ==> r[i] == tasks[i].step
  {
    seq(|tasks|, i requires 0 <= i < |tasks| => tasks[i].step)
  }

  /** Steps never decrease along the list. */
  predicate SortedByStep(tasks: seq<PipelineTask>)
  {
    forall i, j :: 0 <= i < j < |tasks| ==> tasks[i].step <= tasks[j].step
  }

  /** The position at which a stable insertion puts `x`: after every task whose step is at
      most `x.step`, before every task whose step is larger. */
  function InsertionPoint(x: PipelineTask, sorted: seq<PipelineTask>): (i: nat)
    requires SortedByStep(sorted)
    ensures i <= |sorted|
    ensures forall j :: 0 <= j < i ==> sorted[j].step <= x.step
    ensures forall j :: i <= j < |sorted| ==> x.step < sorted[j].step
  {
    if sorted == [] || x.step < sorted[0].step then 0
    else 1 + InsertionPoint(x, sorted[1..])
  }

  /** Putting `x` at its insertion point keeps the sequence sorted. */
  lemma InsertSorted(x: PipelineTask, sorted: seq<PipelineTask>, i: nat)
    requires SortedByStep(sorted) && i <= |sorted|
    requires forall j :: 0 <= j < i ==> sorted[j].step <= x.step
    requires forall j :: i <= j < |sorted| ==> x.step < sorted[j].step
    ensures SortedByStep(sorted[..i] + [x] + sorted[i..])
  {
    var r := sorted[..i] + [x] + sorted[i..];
    assert forall j :: 0 <= j < i ==> r[j] == sorted[j];
    assert r[i] == x;
    assert forall j :: i < j < |r| ==> r[j] == sorted[j - 1];
  }

  /** Putting `x` anywhere adds exactly `x` to those tasks and `x.step` to their steps. */
  lemma InsertCounts(x: PipelineTask, sorted: seq<PipelineTask>, i: nat)
    requires i <= |sorted|
    ensures multiset(sorted[..i] + [x] + sorted[i..]) == multiset(sorted) + multiset{x}
  {
    assert sorted == sorted[..i] + sorted[i..];
  }

  /** The same for their steps. */
  lemma InsertStepCounts(x: PipelineTask, sorted: seq<PipelineTask>, i: nat)
    requires i <= |sorted|
    ensures multiset(Steps(sorted[..i] + [x] + sorted[i..])) == multiset(Steps(sorted)) + multiset{x.step}
  {
    var steps := Steps(sorted);
    assert Steps(sorted[..i] + [x] + sorted[i..]) == steps[..i] + [x.step] + steps[i..];
    assert steps == steps[..i] + steps[i..];
    assert multiset(steps) == multiset(steps[..i]) + multiset(steps[i..]);
  }

  /** Inserts `x` into a sorted sequence; tasks with equal steps keep their relative order
      (Python's sort is stable). */
  function InsertByStep(x: PipelineTask, sorted: seq<PipelineTask>): (r: seq<PipelineTask>)
    requires SortedByStep(sorted)
    ensures SortedByStep(r)
    ensures multiset(r) == multiset(sorted) + multiset{x}
    ensures multiset(Steps(r)) == multiset(Steps(sorted)) + multiset{x.step}
  {
    var i := InsertionPoint(x, sorted);
    InsertSorted(x, sorted, i);
    InsertCounts(x, sorted, i);
    InsertStepCounts(x, sorted, i);
    sorted[..i] + [x] + sorted[i..]
  }

  /** `tasks.sort(key=lambda task: task.step)`, as a value: a stable insertion sort. */
  function SortByStep(tasks: seq<PipelineTask>): (r: seq<PipelineTask>)
    ensures SortedByStep(r)
    ensures multiset(r) == multiset(tasks)
    ensures multiset(Steps(r)) == multiset(Steps(tasks))
    ensures |r| == |tasks|
  {
    if tasks == [] then []
    else
      var n := |tasks| - 1;
      SplitLast(tasks);
      var r := InsertByStep(tasks[n], SortByStep(tasks[..n]));
      assert |r| == |multiset(r)|;
      r
  }

  /** A list of tasks, and its steps, are those before the last one plus the last one. */
  lemma SplitLast(tasks: seq<PipelineTask>)
    requires |tasks| > 0
    ensures multiset(tasks) == multiset(tasks[..|tasks| - 1]) + multiset{tasks[|tasks| - 1]}
    ensures multiset(Steps(tasks)) == multiset(Steps(tasks[..|tasks| - 1])) + multiset{tasks[|tasks| - 1].step}
  {
    var n := |tasks| - 1;
    assert tasks == tasks[..n] + [tasks[n]];
    assert Steps(tasks) == Steps(tasks[..n]) + [tasks[n].step];
  }

  /** After sorting, the steps must read exactly `0, 1, ..., N-1`. */
  predicate StepsValid(sorted: seq<PipelineTask>)
  {
    forall i :: 0 <= i < |sorted| ==> sorted[i].step == i
  }

  /** The validation loop of `calc_makespan`: stops at the first position whose step is not
      its index. */
  method CheckSteps(sorted: seq<PipelineTask>) returns (ok: bool)
    ensures ok <==> StepsValid(sorted)
  {
    for i := 0 to |sorted|
      invariant forall j :: 0 <= j < i ==> sorted[j].step == j
    {
      if sorted[i].step != i {
        return false;
      }
    }
    return true;
  }

  /** `0, 1, ..., n-1`. */
  function Range(n: nat): (r: seq<int>)
    ensures |r| == n
    ensures forall i :: 0 <= i < n ==> r[i] == i
  {
    seq(n, i => i)
  }

  /** A non-decreasing sequence holding exactly the values `0..n-1` is `0, 1, ..., n-1`. */
  lemma {:induction false} SortedPermutationOfRange(q: seq<int>)
    requires forall i, j :: 0 <= i < j < |q| ==> q[i] <= q[j]
    requires multiset(q) == multiset(Range(|q|))
    ensures q == Range(|q|)
  {
    var n := |q|;
    if n > 0 {
      assert Range(n) == Range(n - 1) + [n - 1];
      assert (n - 1) in multiset(Range(n));
      assert (n - 1) in q;
      assert q[n - 1] in multiset(Range(n));
      assert q[n - 1] in Range(n);
      assert q[n - 1] == n - 1;
      assert q == q[..n - 1] + [q[n - 1]];
      assert multiset(q) == multiset(q[..n - 1]) + multiset{n - 1};
      assert multiset(Range(n)) == multiset(Range(n - 1)) + multiset{n - 1};
      var front, low := multiset(q[..n - 1]), multiset(Range(n - 1));
      forall v ensures front[v] == low[v] {
        assert multiset(q)[v] == front[v] + multiset{n - 1}[v];
        assert multiset(Range(n))[v] == low[v] + multiset{n - 1}[v];
      }
      assert multiset(q[..n - 1]) == multiset(Range(n - 1));
      SortedPermutationOfRange(q[..n - 1]);
    }
  }

  /** The steps of `tasks` are `0..N-1`, each exactly once, in some order. */
  predicate StepsArePermutation(tasks: seq<PipelineTask>)
  {
    multiset(Steps(tasks)) == multiset(Range(|tasks|))
  }

  /** The step check depends only on the step values supplied, not on the order of the
      tasks: it passes exactly when the steps are `0..N-1`, each exactly once. */
  lemma ValidIffStepsArePermutation(tasks: seq<PipelineTask>)
    ensures StepsValid(SortByStep(tasks)) <==> StepsArePermutation(tasks)
  {
    var r := SortByStep(tasks);
    if StepsValid(r) {
      ValidStepsAreRange(r);
    }
    if multiset(Steps(tasks)) == multiset(Range(|tasks|)) {
      SortedPermutationOfRange(Steps(r));
      RangeStepsAreValid(r);
    }
  }

  lemma ValidStepsAreRange(r: seq<PipelineTask>)
    requires StepsValid(r)
    ensures Steps(r) == Range(|r|)
  {
  }

  lemma RangeStepsAreValid(r: seq<PipelineTask>)
    requires Steps(r) == Range(|r|)
    ensures StepsValid(r)
  {
    forall i | 0 <= i < |r| ensures r[i].step == i {
      assert Steps(r)[i] == r[i].step;
    }
  }
}
