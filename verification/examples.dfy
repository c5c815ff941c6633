/** Two small runs of `calc_makespan`, followed pass by pass. Both use one task of step 0
    that takes 2 time units per size unit on one CPU and 1 memory unit per size unit. */
module Examples {
  import opened Wrappers
  import opened Tasks
  import opened Jobs
  import opened EventLoop
  import opened Invariants
  import opened StepProofs
  import opened Makespan

  const Align: PipelineTask := PipelineTask(0, 2, 1, 1)

  /** Sorting a single task leaves it alone. */
  lemma SortOne(x: PipelineTask)
    ensures SortByStep([x]) == [x]
  {
    assert [x][..0] == [];
    assert InsertionPoint(x, []) == 0;
  }

  /** Sorting two tasks already in ascending step order leaves them alone. */
  lemma SortTwoInOrder(x: PipelineTask, y: PipelineTask)
    requires x.step < y.step
    ensures SortByStep([x, y]) == [x, y]
  {
    SortOne(x);
    assert [x, y][..1] == [x];
    assert InsertionPoint(y, [x]) == 1;
    assert [x][..1] + [y] + [x][1..] == [x, y];
  }

  /** For tasks already in step order, the job matrix is built from them as given. */
  lemma AllJobsOfSorted(fileSizes: seq<nat>, tasks: seq<PipelineTask>)
    requires |fileSizes| > 0 ==> CpusPositive(tasks)
    requires SortByStep(tasks) == tasks
    ensures AllJobs(fileSizes, tasks) == BuildJobs(NewSamples(fileSizes), tasks)
  {
  }

  /** A single task is already sorted and its step is valid. */
  lemma OneTaskSorted()
    ensures SortByStep([Align]) == [Align] && StepsValid([Align])
  {
    SortOne(Align);
  }

  /** Each file of size `n` gives a job of duration `2n` and memory `n` on one CPU. */
  lemma OneTaskJobs(fileSizes: seq<nat>)
    ensures |AllJobs(fileSizes, [Align])| == 1
    ensures forall s :: 0 <= s < |fileSizes| ==>
      AllJobs(fileSizes, [Align])[0][s] == Job(s, 0, 2 * fileSizes[s], fileSizes[s], 1)
  {
    OneTaskSorted();
    var jobs := AllJobs(fileSizes, [Align]);
    forall s | 0 <= s < |fileSizes| ensures jobs[0][s] == Job(s, 0, 2 * fileSizes[s], fileSizes[s], 1) {
      assert DefaultParallel(fileSizes[s], 2, 1) == 2 * fileSizes[s];
    }
  }

  /** `rest` lists the states the loop passes through after `e`, one pass apart, and the
      last of them (or `e` itself, when `rest` is empty) has no job left. */
  predicate Leads(jobs: seq<seq<Job>>, e: State, rest: seq<State>)
    decreases |rest|
  {
    && Shaped(jobs, e)
    && if rest == [] then e.remaining <= 0
       else e.remaining > 0 && Step(jobs, e) == rest[0] && Leads(jobs, rest[0], rest[1..])
  }

  /** While jobs remain, running the loop is one pass followed by the rest. */
  lemma RunUnroll(jobs: seq<seq<Job>>, maxCpus: int, maxMemory: int, e: State)
    requires HeadInv(jobs, maxCpus, maxMemory, e) && e.remaining > 0
    ensures HeadInv(jobs, maxCpus, maxMemory, Step(jobs, e))
    ensures Run(jobs, maxCpus, maxMemory, e) == Run(jobs, maxCpus, maxMemory, Step(jobs, e))
  {
    StepKeeps(jobs, maxCpus, maxMemory, e);
  }

  /** The loop run from `e` stops at the last state `e` leads to. */
  lemma {:induction false} RunLeads(jobs: seq<seq<Job>>, maxCpus: int, maxMemory: int, e: State, rest: seq<State>)
    requires HeadInv(jobs, maxCpus, maxMemory, e) && Leads(jobs, e, rest)
    ensures Run(jobs, maxCpus, maxMemory, e) == if rest == [] then e else rest[|rest| - 1]
    decreases |rest|
  {
    if rest != [] {
      RunUnroll(jobs, maxCpus, maxMemory, e);
      RunLeads(jobs, maxCpus, maxMemory, Step(jobs, e), rest[1..]);
      if rest[1..] != [] {
        assert rest[1..][|rest[1..]| - 1] == rest[|rest| - 1];
      }
    }
  }

  /** For an input that passes both checks, the loop starts from a state that meets its
      invariant, and the result is the makespan of the state it stops in. */
  lemma FromInit(fileSizes: seq<nat>, maxMemory: int, maxCpus: int, tasks: seq<PipelineTask>)
    requires |fileSizes| > 0 ==> CpusPositive(tasks)
    requires StepsValid(SortByStep(tasks)) && AllFit(AllJobs(fileSizes, tasks), maxMemory, maxCpus)
    ensures var jobs := AllJobs(fileSizes, tasks);
      && HeadInv(jobs, maxCpus, maxMemory, Init(jobs, NewSamples(fileSizes), maxCpus, maxMemory))
      && Simulate(fileSizes, maxMemory, maxCpus, tasks) ==
           Run(jobs, maxCpus, maxMemory, Init(jobs, NewSamples(fileSizes), maxCpus, maxMemory)).makespan
  {
    SimulateIsFinal(fileSizes, maxMemory, maxCpus, tasks);
    SortKeepsCpus(tasks);
    BuiltJobsArePlan(fileSizes, SortByStep(tasks), maxMemory, maxCpus);
    InitKeeps(AllJobs(fileSizes, tasks), NewSamples(fileSizes), maxCpus, maxMemory);
  }

  /** For an input that passes both checks, the states the loop passes through from the
      initial state end in the one whose makespan is the result. */
  lemma SimulateTrace(fileSizes: seq<nat>, maxMemory: int, maxCpus: int, tasks: seq<PipelineTask>,
                      jobs: seq<seq<Job>>, trace: seq<State>)
    requires |fileSizes| > 0 ==> CpusPositive(tasks)
    requires StepsValid(SortByStep(tasks)) && AllFit(AllJobs(fileSizes, tasks), maxMemory, maxCpus)
    requires jobs == AllJobs(fileSizes, tasks) && |trace| > 0
    requires Leads(jobs, Init(jobs, NewSamples(fileSizes), maxCpus, maxMemory), trace)
    ensures Simulate(fileSizes, maxMemory, maxCpus, tasks) == trace[|trace| - 1].makespan
  {
    FromInit(fileSizes, maxMemory, maxCpus, tasks);
    RunLeads(jobs, maxCpus, maxMemory, Init(jobs, NewSamples(fileSizes), maxCpus, maxMemory), trace);
  }

  /** For an input that passes both checks, the loop stops in the last state of any trace
      from the initial state. */
  lemma FinalTrace(fileSizes: seq<nat>, maxMemory: int, maxCpus: int, tasks: seq<PipelineTask>,
                   jobs: seq<seq<Job>>, trace: seq<State>)
    requires |fileSizes| > 0 ==> CpusPositive(tasks)
    requires StepsValid(SortByStep(tasks)) && AllFit(AllJobs(fileSizes, tasks), maxMemory, maxCpus)
    requires jobs == AllJobs(fileSizes, tasks) && |trace| > 0
    requires Leads(jobs, Init(jobs, NewSamples(fileSizes), maxCpus, maxMemory), trace)
    ensures FinalState(fileSizes, maxMemory, maxCpus, tasks) == trace[|trace| - 1]
  {
    FromInit(fileSizes, maxMemory, maxCpus, tasks);
    RunLeads(jobs, maxCpus, maxMemory, Init(jobs, NewSamples(fileSizes), maxCpus, maxMemory), trace);
  }

  // ---------------------------------------------------------------- one file

  /** The first example's job matrix, which fits a machine with 4 CPUs and 100 memory. */
  lemma OneFileJobs()
    ensures AllJobs([10], [Align]) == [[Job(0, 0, 20, 10, 1)]]
    ensures StepsValid(SortByStep([Align])) && AllFit(AllJobs([10], [Align]), 100, 4)
  {
    OneTaskSorted();
    OneTaskJobs([10]);
    var jobs := AllJobs([10], [Align]);
    assert jobs[0] == [Job(0, 0, 20, 10, 1)];
  }

  /** Updating the only record of a one-job matrix. */
  lemma SetOnlyRun(r: RunState, r': RunState)
    ensures SetRun([[r]], JobId(0, 0), r') == [[r']]
  {
    var run := SetRun([[r]], JobId(0, 0), r');
    assert run[0] == [r'];
  }

  /** First pass: nothing to retire; the job starts at 0 and the clock moves to its end. */
  lemma OneFilePass1()
    ensures Step([[Job(0, 0, 20, 10, 1)]], State([Sample(0, 10, 0)], [[Unscheduled]], [], 4, 100, 1, 0, 0, None)) ==
      State([Sample(0, 10, 0)], [[RunState(true, Some(0), Some(20))]], [JobId(0, 0)], 3, 90, 1, 20, 20, Some(20))
  {
    var jobs := [[Job(0, 0, 20, 10, 1)]];
    var e0 := State([Sample(0, 10, 0)], [[Unscheduled]], [], 4, 100, 1, 0, 0, None);
    var a := State([Sample(0, 10, 0)], [[RunState(true, Some(0), Some(20))]], [JobId(0, 0)], 3, 90, 1, 20, 0, Some(20));
    assert RetireFrom(jobs, e0, 0) == e0;
    SetOnlyRun(Unscheduled, RunState(true, Some(0), Some(20)));
    assert AdmitAt(jobs, e0, 0, 0) == a;
    assert AdmitFrom(jobs, a, 1, 0) == a;
    assert AdmitFrom(jobs, a, 0, 1) == a;
    assert Phases(jobs, e0) == a;
  }

  /** Second pass: the job retires, nothing is left to admit, and no event follows. */
  lemma OneFilePass2()
    ensures Step([[Job(0, 0, 20, 10, 1)]],
                 State([Sample(0, 10, 0)], [[RunState(true, Some(0), Some(20))]], [JobId(0, 0)], 3, 90, 1, 20, 20, Some(20))) ==
      State([Sample(0, 10, 1)], [[RunState(false, Some(0), Some(20))]], [JobId(0, 0)], 4, 100, 0, 20, 20, None)
  {
    var jobs := [[Job(0, 0, 20, 10, 1)]];
    var e := State([Sample(0, 10, 0)], [[RunState(true, Some(0), Some(20))]], [JobId(0, 0)], 3, 90, 1, 20, 20, None);
    var r := State([Sample(0, 10, 1)], [[RunState(false, Some(0), Some(20))]], [JobId(0, 0)], 4, 100, 0, 20, 20, None);
    SetOnlyRun(RunState(true, Some(0), Some(20)), RunState(false, Some(0), Some(20)));
    assert e.samples[0 := Sample(0, 10, 1)] == [Sample(0, 10, 1)];
    assert RetireAt(jobs, e, 0) == r;
    assert RetireFrom(jobs, r, 1) == r;
    assert AdmitAt(jobs, r, 0, 0) == r;
    assert AdmitFrom(jobs, r, 1, 0) == r;
    assert AdmitFrom(jobs, r, 0, 1) == r;
    assert Phases(jobs, e) == r;
  }

  /** From the state after the first pass the loop passes through one more and stops. */
  lemma OneFileTail()
    ensures Leads([[Job(0, 0, 20, 10, 1)]],
      State([Sample(0, 10, 0)], [[RunState(true, Some(0), Some(20))]], [JobId(0, 0)], 3, 90, 1, 20, 20, Some(20)),
      [State([Sample(0, 10, 1)], [[RunState(false, Some(0), Some(20))]], [JobId(0, 0)], 4, 100, 0, 20, 20, None)])
  {
    var jobs := [[Job(0, 0, 20, 10, 1)]];
    var e2 := State([Sample(0, 10, 1)], [[RunState(false, Some(0), Some(20))]], [JobId(0, 0)], 4, 100, 0, 20, 20, None);
    OneFilePass2();
    assert [e2][1..] == [];
    assert Leads(jobs, e2, []);
  }

  /** From the initial state the loop passes through two states and stops. */
  lemma OneFileLeads()
    ensures Leads([[Job(0, 0, 20, 10, 1)]], Init([[Job(0, 0, 20, 10, 1)]], NewSamples([10]), 4, 100),
      [State([Sample(0, 10, 0)], [[RunState(true, Some(0), Some(20))]], [JobId(0, 0)], 3, 90, 1, 20, 20, Some(20)),
       State([Sample(0, 10, 1)], [[RunState(false, Some(0), Some(20))]], [JobId(0, 0)], 4, 100, 0, 20, 20, None)])
  {
    var jobs := [[Job(0, 0, 20, 10, 1)]];
    var e0 := State([Sample(0, 10, 0)], [[Unscheduled]], [], 4, 100, 1, 0, 0, None);
    var e1 := State([Sample(0, 10, 0)], [[RunState(true, Some(0), Some(20))]], [JobId(0, 0)], 3, 90, 1, 20, 20, Some(20));
    var e2 := State([Sample(0, 10, 1)], [[RunState(false, Some(0), Some(20))]], [JobId(0, 0)], 4, 100, 0, 20, 20, None);
    assert NewSamples([10]) == [Sample(0, 10, 0)];
    assert Init(jobs, [Sample(0, 10, 0)], 4, 100).run[0] == [Unscheduled];
    assert Init(jobs, [Sample(0, 10, 0)], 4, 100) == e0;
    OneFilePass1();
    OneFileTail();
    assert [e1, e2][1..] == [e2];
  }

  /** One file of size 10: its only job starts at 0 and ends at 20, so the makespan is 20. */
  lemma OneFileOneTask()
    ensures Simulate([10], 100, 4, [Align]) == 20
  {
    OneFileJobs();
    OneFileLeads();
    var e1 := State([Sample(0, 10, 0)], [[RunState(true, Some(0), Some(20))]], [JobId(0, 0)], 3, 90, 1, 20, 20, Some(20));
    var e2 := State([Sample(0, 10, 1)], [[RunState(false, Some(0), Some(20))]], [JobId(0, 0)], 4, 100, 0, 20, 20, None);
    SimulateTrace([10], 100, 4, [Align], [[Job(0, 0, 20, 10, 1)]], [e1, e2]);
  }

  // ---------------------------------------------------------------- two files, one CPU

  /** Updating one record of a one-row matrix of two jobs. */
  lemma SetRowRun(a: RunState, b: RunState, r: RunState)
    ensures SetRun([[a, b]], JobId(0, 0), r) == [[r, b]]
    ensures SetRun([[a, b]], JobId(0, 1), r) == [[a, r]]
  {
    var run0 := SetRun([[a, b]], JobId(0, 0), r);
    assert run0[0] == [r, b];
    var run1 := SetRun([[a, b]], JobId(0, 1), r);
    assert run1[0] == [a, r];
  }

  /** The second example's job matrix, which fits a machine with 1 CPU and 100 memory. */
  lemma TwoFilesJobs()
    ensures AllJobs([10, 5], [Align]) == [[Job(0, 0, 20, 10, 1), Job(1, 0, 10, 5, 1)]]
    ensures StepsValid(SortByStep([Align])) && AllFit(AllJobs([10, 5], [Align]), 100, 1)
  {
    OneTaskSorted();
    OneTaskJobs([10, 5]);
    var jobs := AllJobs([10, 5], [Align]);
    assert jobs[0] == [Job(0, 0, 20, 10, 1), Job(1, 0, 10, 5, 1)];
  }

  /** First pass at 0: the first file's job takes the only CPU; the second must wait. */
  lemma TwoFilesPass1()
    ensures Step([[Job(0, 0, 20, 10, 1), Job(1, 0, 10, 5, 1)]],
                 State([Sample(0, 10, 0), Sample(1, 5, 0)], [[Unscheduled, Unscheduled]], [], 1, 100, 2, 0, 0, None)) ==
      State([Sample(0, 10, 0), Sample(1, 5, 0)], [[RunState(true, Some(0), Some(20)), Unscheduled]], [JobId(0, 0)],
            0, 90, 2, 20, 20, Some(20))
  {
    var jobs := [[Job(0, 0, 20, 10, 1), Job(1, 0, 10, 5, 1)]];
    var e := State([Sample(0, 10, 0), Sample(1, 5, 0)], [[Unscheduled, Unscheduled]], [], 1, 100, 2, 0, 0, None);
    var a := State([Sample(0, 10, 0), Sample(1, 5, 0)], [[RunState(true, Some(0), Some(20)), Unscheduled]], [JobId(0, 0)],
                   0, 90, 2, 20, 0, Some(20));
    assert RetireFrom(jobs, e, 0) == e;
    SetRowRun(Unscheduled, Unscheduled, RunState(true, Some(0), Some(20)));
    assert AdmitAt(jobs, e, 0, 0) == a;
    assert AdmitAt(jobs, a, 0, 1) == a;
    assert AdmitFrom(jobs, a, 1, 0) == a;
    assert AdmitFrom(jobs, a, 0, 2) == a;
    assert AdmitFrom(jobs, a, 0, 1) == a;
    assert Phases(jobs, e) == a;
  }

  /** Second pass at 20: the first job retires and the second file's job starts on the freed
      CPU, to end at 30. */
  lemma TwoFilesPass2()
    ensures Step([[Job(0, 0, 20, 10, 1), Job(1, 0, 10, 5, 1)]],
                 State([Sample(0, 10, 0), Sample(1, 5, 0)], [[RunState(true, Some(0), Some(20)), Unscheduled]], [JobId(0, 0)],
                       0, 90, 2, 20, 20, Some(20))) ==
      State([Sample(0, 10, 1), Sample(1, 5, 0)], [[RunState(false, Some(0), Some(20)), RunState(true, Some(20), Some(30))]],
            [JobId(0, 0), JobId(0, 1)], 0, 95, 1, 30, 30, Some(30))
  {
    var jobs := [[Job(0, 0, 20, 10, 1), Job(1, 0, 10, 5, 1)]];
    var e := State([Sample(0, 10, 0), Sample(1, 5, 0)], [[RunState(true, Some(0), Some(20)), Unscheduled]], [JobId(0, 0)],
                   0, 90, 2, 20, 20, None);
    var r := State([Sample(0, 10, 1), Sample(1, 5, 0)], [[RunState(false, Some(0), Some(20)), Unscheduled]], [JobId(0, 0)],
                   1, 100, 1, 20, 20, None);
    var a := State([Sample(0, 10, 1), Sample(1, 5, 0)], [[RunState(false, Some(0), Some(20)), RunState(true, Some(20), Some(30))]],
                   [JobId(0, 0), JobId(0, 1)], 0, 95, 1, 30, 20, Some(30));
    SetRowRun(RunState(true, Some(0), Some(20)), Unscheduled, RunState(false, Some(0), Some(20)));
    assert e.samples[0 := Sample(0, 10, 1)] == r.samples;
    assert RetireAt(jobs, e, 0) == r;
    assert RetireFrom(jobs, r, 1) == r;
    assert AdmitAt(jobs, r, 0, 0) == r;
    SetRowRun(RunState(false, Some(0), Some(20)), Unscheduled, RunState(true, Some(20), Some(30)));
    assert AdmitAt(jobs, r, 0, 1) == a;
    assert AdmitFrom(jobs, a, 1, 0) == a;
    assert AdmitFrom(jobs, a, 0, 2) == a;
    assert AdmitFrom(jobs, r, 0, 0) == a;
    assert Phases(jobs, e) == a;
  }

  /** Third pass at 30: the second job retires and nothing is left. */
  lemma TwoFilesPass3()
    ensures Step([[Job(0, 0, 20, 10, 1), Job(1, 0, 10, 5, 1)]],
                 State([Sample(0, 10, 1), Sample(1, 5, 0)], [[RunState(false, Some(0), Some(20)), RunState(true, Some(20), Some(30))]],
                       [JobId(0, 0), JobId(0, 1)], 0, 95, 1, 30, 30, Some(30))) ==
      State([Sample(0, 10, 1), Sample(1, 5, 1)], [[RunState(false, Some(0), Some(20)), RunState(false, Some(20), Some(30))]],
            [JobId(0, 0), JobId(0, 1)], 1, 100, 0, 30, 30, None)
  {
    var jobs := [[Job(0, 0, 20, 10, 1), Job(1, 0, 10, 5, 1)]];
    var e := State([Sample(0, 10, 1), Sample(1, 5, 0)], [[RunState(false, Some(0), Some(20)), RunState(true, Some(20), Some(30))]],
                   [JobId(0, 0), JobId(0, 1)], 0, 95, 1, 30, 30, None);
    var r := State([Sample(0, 10, 1), Sample(1, 5, 1)], [[RunState(false, Some(0), Some(20)), RunState(false, Some(20), Some(30))]],
                   [JobId(0, 0), JobId(0, 1)], 1, 100, 0, 30, 30, None);
    assert RetireAt(jobs, e, 0) == e;
    SetRowRun(RunState(false, Some(0), Some(20)), RunState(true, Some(20), Some(30)), RunState(false, Some(20), Some(30)));
    assert e.samples[1 := Sample(1, 5, 1)] == r.samples;
    assert RetireAt(jobs, e, 1) == r;
    assert RetireFrom(jobs, r, 2) == r;
    assert RetireFrom(jobs, e, 0) == r;
    assert AdmitAt(jobs, r, 0, 0) == r;
    assert AdmitAt(jobs, r, 0, 1) == r;
    assert AdmitFrom(jobs, r, 1, 0) == r;
    assert AdmitFrom(jobs, r, 0, 2) == r;
    assert AdmitFrom(jobs, r, 0, 0) == r;
    assert Phases(jobs, e) == r;
  }

  /** From the state after the first pass the loop passes through two more and stops. */
  lemma TwoFilesTail()
    ensures Leads([[Job(0, 0, 20, 10, 1), Job(1, 0, 10, 5, 1)]],
      State([Sample(0, 10, 0), Sample(1, 5, 0)], [[RunState(true, Some(0), Some(20)), Unscheduled]], [JobId(0, 0)],
             0, 90, 2, 20, 20, Some(20)),
      [State([Sample(0, 10, 1), Sample(1, 5, 0)], [[RunState(false, Some(0), Some(20)), RunState(true, Some(20), Some(30))]],
             [JobId(0, 0), JobId(0, 1)], 0, 95, 1, 30, 30, Some(30)),
       State([Sample(0, 10, 1), Sample(1, 5, 1)], [[RunState(false, Some(0), Some(20)), RunState(false, Some(20), Some(30))]],
             [JobId(0, 0), JobId(0, 1)], 1, 100, 0, 30, 30, None)])
  {
    var jobs := [[Job(0, 0, 20, 10, 1), Job(1, 0, 10, 5, 1)]];
    var e2 := State([Sample(0, 10, 1), Sample(1, 5, 0)], [[RunState(false, Some(0), Some(20)), RunState(true, Some(20), Some(30))]],
             [JobId(0, 0), JobId(0, 1)], 0, 95, 1, 30, 30, Some(30));
    var e3 := State([Sample(0, 10, 1), Sample(1, 5, 1)], [[RunState(false, Some(0), Some(20)), RunState(false, Some(20), Some(30))]],
             [JobId(0, 0), JobId(0, 1)], 1, 100, 0, 30, 30, None);
    TwoFilesPass2();
    TwoFilesPass3();
    assert [e2, e3][1..] == [e3];
    assert Leads(jobs, e3, []);
    assert Leads(jobs, e2, [e3]);
  }

  /** From the initial state the loop passes through three states and stops. */
  lemma TwoFilesLeads()
    ensures Leads([[Job(0, 0, 20, 10, 1), Job(1, 0, 10, 5, 1)]],
      Init([[Job(0, 0, 20, 10, 1), Job(1, 0, 10, 5, 1)]], NewSamples([10, 5]), 1, 100),
      [State([Sample(0, 10, 0), Sample(1, 5, 0)], [[RunState(true, Some(0), Some(20)), Unscheduled]], [JobId(0, 0)],
             0, 90, 2, 20, 20, Some(20)),
       State([Sample(0, 10, 1), Sample(1, 5, 0)], [[RunState(false, Some(0), Some(20)), RunState(true, Some(20), Some(30))]],
             [JobId(0, 0), JobId(0, 1)], 0, 95, 1, 30, 30, Some(30)),
       State([Sample(0, 10, 1), Sample(1, 5, 1)], [[RunState(false, Some(0), Some(20)), RunState(false, Some(20), Some(30))]],
             [JobId(0, 0), JobId(0, 1)], 1, 100, 0, 30, 30, None)])
  {
    var jobs := [[Job(0, 0, 20, 10, 1), Job(1, 0, 10, 5, 1)]];
    var e0 := State([Sample(0, 10, 0), Sample(1, 5, 0)], [[Unscheduled, Unscheduled]], [], 1, 100, 2, 0, 0, None);
    var e1 := State([Sample(0, 10, 0), Sample(1, 5, 0)], [[RunState(true, Some(0), Some(20)), Unscheduled]], [JobId(0, 0)],
             0, 90, 2, 20, 20, Some(20));
    var e2 := State([Sample(0, 10, 1), Sample(1, 5, 0)], [[RunState(false, Some(0), Some(20)), RunState(true, Some(20), Some(30))]],
             [JobId(0, 0), JobId(0, 1)], 0, 95, 1, 30, 30, Some(30));
    var e3 := State([Sample(0, 10, 1), Sample(1, 5, 1)], [[RunState(false, Some(0), Some(20)), RunState(false, Some(20), Some(30))]],
             [JobId(0, 0), JobId(0, 1)], 1, 100, 0, 30, 30, None);
    assert NewSamples([10, 5]) == [Sample(0, 10, 0), Sample(1, 5, 0)];
    assert Init(jobs, [Sample(0, 10, 0), Sample(1, 5, 0)], 1, 100).run[0] == [Unscheduled, Unscheduled];
    assert Init(jobs, [Sample(0, 10, 0), Sample(1, 5, 0)], 1, 100) == e0;
    TwoFilesPass1();
    TwoFilesTail();
    assert [e1, e2, e3][1..] == [e2, e3];
  }

  /** The loop on the second example stops with both jobs finished, the second from 20 to
      30, and every resource back. */
  lemma TwoFilesFinal()
    ensures StepsValid(SortByStep([Align])) && AllFit(AllJobs([10, 5], [Align]), 100, 1)
    ensures FinalState([10, 5], 100, 1, [Align]) ==
      State([Sample(0, 10, 1), Sample(1, 5, 1)], [[RunState(false, Some(0), Some(20)), RunState(false, Some(20), Some(30))]],
            [JobId(0, 0), JobId(0, 1)], 1, 100, 0, 30, 30, None)
  {
    TwoFilesJobs();
    TwoFilesLeads();
    var e1 := State([Sample(0, 10, 0), Sample(1, 5, 0)], [[RunState(true, Some(0), Some(20)), Unscheduled]], [JobId(0, 0)],
                    0, 90, 2, 20, 20, Some(20));
    var e2 := State([Sample(0, 10, 1), Sample(1, 5, 0)], [[RunState(false, Some(0), Some(20)), RunState(true, Some(20), Some(30))]],
                    [JobId(0, 0), JobId(0, 1)], 0, 95, 1, 30, 30, Some(30));
    var e3 := State([Sample(0, 10, 1), Sample(1, 5, 1)], [[RunState(false, Some(0), Some(20)), RunState(false, Some(20), Some(30))]],
                    [JobId(0, 0), JobId(0, 1)], 1, 100, 0, 30, 30, None);
    FinalTrace([10, 5], 100, 1, [Align], [[Job(0, 0, 20, 10, 1), Job(1, 0, 10, 5, 1)]], [e1, e2, e3]);
  }

  /** Two files of sizes 10 and 5 on a single CPU: their jobs cannot overlap, so the second
      starts when the first ends at 20 and the makespan is 20 + 10 = 30. */
  lemma TwoFilesOneCpu()
    ensures Simulate([10, 5], 100, 1, [Align]) == 30
  {
    TwoFilesFinal();
    SimulateIsFinal([10, 5], 100, 1, [Align]);
  }
}
