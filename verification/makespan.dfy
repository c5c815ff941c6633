/** `calc_makespan`: sort tasks by step, validate their steps, build and check the jobs, then run
    the event loop and return the latest end time, or -1 when the input is rejected. */
module Makespan {
  import opened Wrappers
  import opened Tasks
  import opened Jobs
  import opened EventLoop
  import opened Accounting
  import opened Invariants
  import opened StepProofs

  /** Sorting keeps every task, so it keeps every task's CPUs positive. */
  lemma SortKeepsCpus(tasks: seq<PipelineTask>)
    ensures CpusPositive(tasks) ==> CpusPositive(SortByStep(tasks))
  {
    var sorted := SortByStep(tasks);
    if CpusPositive(tasks) {
      forall i | 0 <= i < |sorted| ensures sorted[i].cpus > 0 {
        assert sorted[i] in multiset(sorted);
        assert sorted[i] in multiset(tasks);
        var j :| 0 <= j < |tasks| && tasks[j] == sorted[i];
      }
    }
  }

  /** The job matrix `calc_makespan` builds after sorting. */
  function AllJobs(fileSizes: seq<nat>, tasks: seq<PipelineTask>): (jobs: seq<seq<Job>>)
    requires |fileSizes| > 0 ==> CpusPositive(tasks)
    ensures |jobs| == |tasks|
    ensures forall k :: 0 <= k < |jobs| ==> |jobs[k]| == |fileSizes|
  {
    SortKeepsCpus(tasks);
    BuildJobs(NewSamples(fileSizes), SortByStep(tasks))
  }

  /** The state in which `while num_remaining_jobs > 0` ends, for an input that passes both
      checks. */
  function FinalState(fileSizes: seq<nat>, maxMemory: int, maxCpus: int, tasks: seq<PipelineTask>): (e: State)
    requires |fileSizes| > 0 ==> CpusPositive(tasks)
    requires StepsValid(SortByStep(tasks)) && AllFit(AllJobs(fileSizes, tasks), maxMemory, maxCpus)
    ensures HeadInv(AllJobs(fileSizes, tasks), maxCpus, maxMemory, e) && e.remaining <= 0
    ensures |e.samples| == |fileSizes|
  {
    var jobs := AllJobs(fileSizes, tasks);
    var samples := NewSamples(fileSizes);
    SortKeepsCpus(tasks);
    BuiltJobsArePlan(fileSizes, SortByStep(tasks), maxMemory, maxCpus);
    InitKeeps(jobs, samples, maxCpus, maxMemory);
    Run(jobs, maxCpus, maxMemory, Init(jobs, samples, maxCpus, maxMemory))
  }

  /** What `calc_makespan` returns. It costs jobs (dividing by CPUs) only after the steps have
      been validated, and only when there is a sample. The result is -1 exactly when the
      steps are invalid or some job does not fit the machine, and a makespan `>= 0`
      otherwise. */
  function Simulate(fileSizes: seq<nat>, maxMemory: int, maxCpus: int, tasks: seq<PipelineTask>): (makespan: int)
    requires StepsValid(SortByStep(tasks)) && |fileSizes| > 0 ==> CpusPositive(tasks)
    ensures !StepsValid(SortByStep(tasks)) ==> makespan == -1
    ensures StepsValid(SortByStep(tasks)) ==>
      (makespan == -1 <==> !AllFit(AllJobs(fileSizes, tasks), maxMemory, maxCpus))
    ensures makespan >= -1
  {
    if !StepsValid(SortByStep(tasks)) then -1
    else if !AllFit(AllJobs(fileSizes, tasks), maxMemory, maxCpus) then -1
    else
      var e := FinalState(fileSizes, maxMemory, maxCpus, tasks);
      MakespanBounds(AllJobs(fileSizes, tasks), maxCpus, maxMemory, e);
      e.makespan
  }

  /** `calc_makespan(file_sizes, max_memory, max_cpus, tasks)`: the validation loop, the
      feasibility loop, and the event loop, whose passes each retire the jobs due now, admit
      every job that can start, and move the clock to the next end time. */
  method CalcMakespan(fileSizes: seq<nat>, maxMemory: int, maxCpus: int, tasks: seq<PipelineTask>)
    returns (makespan: int)
    requires StepsValid(SortByStep(tasks)) && |fileSizes| > 0 ==> CpusPositive(tasks)
    ensures makespan == Simulate(fileSizes, maxMemory, maxCpus, tasks)
  {
    var sorted := SortByStep(tasks);
    var valid := CheckSteps(sorted);
    if !valid {
      return -1;
    }
    SortKeepsCpus(tasks);
    var samples := NewSamples(fileSizes);
    var jobs := BuildJobs(samples, sorted);
    var feasible := CheckFeasible(jobs, maxMemory, maxCpus);
    if !feasible {
      return -1;
    }
    assert jobs == AllJobs(fileSizes, tasks);
    BuiltJobsArePlan(fileSizes, sorted, maxMemory, maxCpus);
    var e := Init(jobs, samples, maxCpus, maxMemory);
    InitKeeps(jobs, samples, maxCpus, maxMemory);
    ghost var final := Run(jobs, maxCpus, maxMemory, e);
    assert final == FinalState(fileSizes, maxMemory, maxCpus, tasks);
    while e.remaining > 0
      invariant HeadInv(jobs, maxCpus, maxMemory, e)
      invariant Run(jobs, maxCpus, maxMemory, e) == final
      decreases Measure(e)
    {
      StepKeeps(jobs, maxCpus, maxMemory, e);
      var retired := RetirePhase(jobs, e.(nextT := None));
      var admitted := AdmitPhase(jobs, retired);
      e := Advance(admitted);
    }
    return e.makespan;
  }

  /** The inputs pass both checks exactly when the steps are `0..N-1` each once, in any
      order, and every file's memory footprint and every task's CPUs fit the machine. */
  lemma AcceptsExactly(fileSizes: seq<nat>, maxMemory: int, maxCpus: int, tasks: seq<PipelineTask>)
    requires StepsValid(SortByStep(tasks)) && |fileSizes| > 0 ==> CpusPositive(tasks)
    ensures (StepsValid(SortByStep(tasks)) && AllFit(AllJobs(fileSizes, tasks), maxMemory, maxCpus)) <==>
      StepsArePermutation(tasks) && InputsFit(fileSizes, tasks, maxMemory, maxCpus)
  {
    ValidIffStepsArePermutation(tasks);
    var sorted := SortByStep(tasks);
    if StepsValid(sorted) {
      SortKeepsCpus(tasks);
      assert AllJobs(fileSizes, tasks) == BuildJobs(NewSamples(fileSizes), sorted);
      FeasibleIffInputsFit(fileSizes, sorted, maxMemory, maxCpus);
      SameTasks(tasks, sorted, fileSizes, maxMemory, maxCpus);
    }
  }

  /** The result does not depend on the order in which tasks are given, only on their
      steps, and it is -1 exactly when the steps are not `0..N-1` each once, or some file
      needs more memory for some task than the machine has, or some task needs more CPUs. */
  lemma RejectsExactly(fileSizes: seq<nat>, maxMemory: int, maxCpus: int, tasks: seq<PipelineTask>)
    requires StepsValid(SortByStep(tasks)) && |fileSizes| > 0 ==> CpusPositive(tasks)
    ensures Simulate(fileSizes, maxMemory, maxCpus, tasks) == -1 <==>
      !StepsArePermutation(tasks) || !InputsFit(fileSizes, tasks, maxMemory, maxCpus)
  {
    AcceptsExactly(fileSizes, maxMemory, maxCpus, tasks);
  }

  /** A sorted copy holds the same tasks, so they fit the machine in one order exactly when
      they fit it in the other. */
  lemma SameTasks(tasks: seq<PipelineTask>, sorted: seq<PipelineTask>, fileSizes: seq<nat>, maxMemory: int, maxCpus: int)
    requires multiset(sorted) == multiset(tasks)
    ensures InputsFit(fileSizes, tasks, maxMemory, maxCpus) <==> InputsFit(fileSizes, sorted, maxMemory, maxCpus)
  {
    if !InputsFit(fileSizes, tasks, maxMemory, maxCpus) {
      var k, s :| 0 <= k < |tasks| && 0 <= s < |fileSizes| &&
        !(fileSizes[s] * tasks[k].spaceFactor <= maxMemory && tasks[k].cpus <= maxCpus);
      assert tasks[k] in multiset(sorted);
      var k' :| 0 <= k' < |sorted| && sorted[k'] == tasks[k];
      assert !(fileSizes[s] * sorted[k'].spaceFactor <= maxMemory && sorted[k'].cpus <= maxCpus);
    }
    if !InputsFit(fileSizes, sorted, maxMemory, maxCpus) {
      var k, s :| 0 <= k < |sorted| && 0 <= s < |fileSizes| &&
        !(fileSizes[s] * sorted[k].spaceFactor <= maxMemory && sorted[k].cpus <= maxCpus);
      assert sorted[k] in multiset(tasks);
      var k' :| 0 <= k' < |tasks| && tasks[k'] == sorted[k];
      assert !(fileSizes[s] * tasks[k'].spaceFactor <= maxMemory && tasks[k'].cpus <= maxCpus);
    }
  }

  /** For an input that passes both checks, the result is the makespan of the final state. */
  lemma SimulateIsFinal(fileSizes: seq<nat>, maxMemory: int, maxCpus: int, tasks: seq<PipelineTask>)
    requires |fileSizes| > 0 ==> CpusPositive(tasks)
    requires StepsValid(SortByStep(tasks)) && AllFit(AllJobs(fileSizes, tasks), maxMemory, maxCpus)
    ensures Simulate(fileSizes, maxMemory, maxCpus, tasks) == FinalState(fileSizes, maxMemory, maxCpus, tasks).makespan
  {
  }

  /** With no tasks there is nothing to schedule, whatever the files: the makespan is 0. */
  lemma NoTasks(fileSizes: seq<nat>, maxMemory: int, maxCpus: int, tasks: seq<PipelineTask>)
    requires |tasks| == 0
    ensures Simulate(fileSizes, maxMemory, maxCpus, tasks) == 0
  {
    assert StepsValid(SortByStep(tasks)) && AllFit(AllJobs(fileSizes, tasks), maxMemory, maxCpus);
    SimulateIsFinal(fileSizes, maxMemory, maxCpus, tasks);
    EmptyFinalState(fileSizes, maxMemory, maxCpus, tasks);
  }

  /** With valid steps and no files there is nothing to schedule either: the makespan is 0. */
  lemma NoSamples(fileSizes: seq<nat>, maxMemory: int, maxCpus: int, tasks: seq<PipelineTask>)
    requires |fileSizes| == 0 && StepsValid(SortByStep(tasks))
    ensures Simulate(fileSizes, maxMemory, maxCpus, tasks) == 0
  {
    assert AllFit(AllJobs(fileSizes, tasks), maxMemory, maxCpus);
    SimulateIsFinal(fileSizes, maxMemory, maxCpus, tasks);
    EmptyFinalState(fileSizes, maxMemory, maxCpus, tasks);
  }

  /** The loop ends with a makespan of 0 when there is no task or no sample. */
  lemma EmptyFinalState(fileSizes: seq<nat>, maxMemory: int, maxCpus: int, tasks: seq<PipelineTask>)
    requires |fileSizes| > 0 ==> CpusPositive(tasks)
    requires StepsValid(SortByStep(tasks)) && AllFit(AllJobs(fileSizes, tasks), maxMemory, maxCpus)
    requires |tasks| == 0 || |fileSizes| == 0
    ensures FinalState(fileSizes, maxMemory, maxCpus, tasks).makespan == 0
  {
    MakespanBounds(AllJobs(fileSizes, tasks), maxCpus, maxMemory, FinalState(fileSizes, maxMemory, maxCpus, tasks));
  }

  /** When the input passes both checks and every job takes at least one time unit, the loop
      runs every job exactly once: it ends with no job left, every sample through all of its
      steps, and every job finished, with the cost it was built with, in the schedule once. */
  lemma RunsEveryJob(fileSizes: seq<nat>, maxMemory: int, maxCpus: int, tasks: seq<PipelineTask>)
    requires |fileSizes| > 0 ==> CpusPositive(tasks)
    requires StepsValid(SortByStep(tasks)) && AllFit(AllJobs(fileSizes, tasks), maxMemory, maxCpus)
    requires AllDurationsPositive(AllJobs(fileSizes, tasks))
    ensures var e := FinalState(fileSizes, maxMemory, maxCpus, tasks);
      var jobs := AllJobs(fileSizes, tasks);
      && e.remaining == 0
      && (forall s :: 0 <= s < |e.samples| ==> e.samples[s].stepsCompleted == |jobs|)
      && (forall k, s :: 0 <= k < |jobs| && 0 <= s < |e.samples| ==>
            Finished(e.run[k][s]) && RecordOk(jobs[k][s], e.run[k][s]) && JobId(k, s) in e.schedule)
      && NoDuplicates(e.schedule)
  {
    var e := FinalState(fileSizes, maxMemory, maxCpus, tasks);
    Completion(AllJobs(fileSizes, tasks), maxCpus, maxMemory, e);
  }

  /** Under the same conditions every sample's jobs ran in step order, and all CPUs and memory
      are free again at the end. */
  lemma OrderedAndReleased(fileSizes: seq<nat>, maxMemory: int, maxCpus: int, tasks: seq<PipelineTask>)
    requires |fileSizes| > 0 ==> CpusPositive(tasks)
    requires StepsValid(SortByStep(tasks)) && AllFit(AllJobs(fileSizes, tasks), maxMemory, maxCpus)
    requires AllDurationsPositive(AllJobs(fileSizes, tasks))
    ensures var e := FinalState(fileSizes, maxMemory, maxCpus, tasks);
      && Precedence(e.run)
      && e.availableCpus == maxCpus && e.availableMem == maxMemory
  {
    var e := FinalState(fileSizes, maxMemory, maxCpus, tasks);
    Completion(AllJobs(fileSizes, tasks), maxCpus, maxMemory, e);
  }

  /** For every accepted input, jobs of length zero included, the result is the latest end
      time over the admitted jobs, and also over all jobs (one never admitted counts as ending
      at 0). */
  lemma ResultIsLatestEnd(fileSizes: seq<nat>, maxMemory: int, maxCpus: int, tasks: seq<PipelineTask>)
    requires |fileSizes| > 0 ==> CpusPositive(tasks)
    requires StepsValid(SortByStep(tasks)) && AllFit(AllJobs(fileSizes, tasks), maxMemory, maxCpus)
    ensures var e := FinalState(fileSizes, maxMemory, maxCpus, tasks);
      e.makespan == MaxEnd(e.run, e.schedule)
    ensures var e := FinalState(fileSizes, maxMemory, maxCpus, tasks);
      var jobs := AllJobs(fileSizes, tasks);
      && (forall k, s :: 0 <= k < |jobs| && 0 <= s < |e.samples| ==> EndOf(e.run[k][s]) <= e.makespan)
      && (|jobs| > 0 && |e.samples| > 0 ==>
            exists k, s :: 0 <= k < |jobs| && 0 <= s < |e.samples| && EndOf(e.run[k][s]) == e.makespan)
  {
    var e := FinalState(fileSizes, maxMemory, maxCpus, tasks);
    MakespanIsLatestEnd(AllJobs(fileSizes, tasks), e);
  }
}
