/** The discrete-event loop of `calc_makespan`. One pass of `while num_remaining_jobs > 0`
    retires the jobs that end now, greedily admits the jobs that may start now, and moves the
    clock to the earliest pending end time. The passes and phases are functions on a `State`
    value; the loops of the source are the methods `RetirePhase` and `AdmitPhase` (here) and
    `CalcMakespan` (module Makespan), each proved to compute these functions. */
module EventLoop {
  import opened Wrappers
  import opened Jobs

  /** A job of `all_jobs`: row `task` (its task's position after sorting), column `sample`. */
  datatype JobId = JobId(task: nat, sample: nat)

  /** The run-time fields of a job object: `is_running`, `start_time`, `end_time`
      (both times `None` until the job is admitted). */
  datatype RunState = RunState(isRunning: bool, startTime: Option<int>, endTime: Option<int>)

  const Unscheduled: RunState := RunState(false, None, None)

  /** The variables of the simulation. `run[k][s]` holds the run-time fields of
      `all_jobs[k][s]`; `samples[s]` the sample objects; `schedule` the admitted jobs in
      admission order; `nextT` the candidate next event time of the current pass. */
  datatype State = State(
    samples: seq<Sample>,
    run: seq<seq<RunState>>,
    schedule: seq<JobId>,
    availableCpus: int,
    availableMem: int,
    remaining: int,
    makespan: int,
    t: int,
    nextT: Option<int>)

  /** The state fits the job matrix: one run-time record per job, and every scheduled job
      and every job's sample reference is in range. */
  predicate Shaped(jobs: seq<seq<Job>>, e: State)
  {
    && |e.run| == |jobs|
    && (forall k :: 0 <= k < |jobs| ==> |jobs[k]| == |e.samples| && |e.run[k]| == |e.samples|)
    && (forall k, s :: 0 <= k < |jobs| && 0 <= s < |jobs[k]| ==> jobs[k][s].sample == s)
    && (forall i :: 0 <= i < |e.schedule| ==>
          e.schedule[i].task < |jobs| && e.schedule[i].sample < |e.samples|)
  }

  function SetRun(run: seq<seq<RunState>>, id: JobId, r: RunState): (run': seq<seq<RunState>>)
    requires id.task < |run| && id.sample < |run[id.task]|
    ensures |run'| == |run|
    ensures forall k :: 0 <= k < |run| ==> |run'[k]| == |run[k]|
    ensures forall k, s :: 0 <= k < |run| && 0 <= s < |run[k]| ==>
      run'[k][s] == if JobId(k, s) == id then r else run[k][s]
  {
    run[id.task := run[id.task][id.sample := r]]
  }

  /** The state before the first pass: nothing admitted, all resources free, the clock at 0
      and `num_steps * num_samples` jobs to go. */
  function Init(jobs: seq<seq<Job>>, samples: seq<Sample>, maxCpus: int, maxMemory: int): (e: State)
    requires forall k :: 0 <= k < |jobs| ==> |jobs[k]| == |samples|
    requires forall k, s :: 0 <= k < |jobs| && 0 <= s < |jobs[k]| ==> jobs[k][s].sample == s
    ensures Shaped(jobs, e)
    ensures forall k, s :: 0 <= k < |jobs| && 0 <= s < |samples| ==> e.run[k][s] == Unscheduled
    ensures e.schedule == [] && e.remaining == |jobs| * |samples| && e.t == 0 && e.makespan == 0
    ensures e.samples == samples && e.availableCpus == maxCpus && e.availableMem == maxMemory
    ensures e.nextT == None
  {
    State(samples, seq(|jobs|, k => seq(|samples|, s => Unscheduled)), [],
          maxCpus, maxMemory, |jobs| * |samples|, 0, 0, None)
  }

  // ---------------------------------------------------------------- retire phase

  /** The body of the retire loop for `schedule[i]`. A job whose end time is now gives back
      its CPUs and memory and advances its sample, whether or not it is still marked running
      (the source does not test `is_running` here). A running job that ends later is a
      candidate for the next event time. */
  function RetireAt(jobs: seq<seq<Job>>, e: State, i: nat): (e': State)
    requires Shaped(jobs, e) && i < |e.schedule|
    ensures Shaped(jobs, e')
    ensures e'.schedule == e.schedule && |e'.samples| == |e.samples| && e'.t == e.t
  {
    var id := e.schedule[i];
    var job := jobs[id.task][id.sample];
    var r := e.run[id.task][id.sample];
    if r.endTime == Some(e.t) then
      var sample := e.samples[job.sample];
      e.(run := SetRun(e.run, id, r.(isRunning := false)),
         availableCpus := e.availableCpus + job.cpus,
         availableMem := e.availableMem + job.memory,
         samples := e.samples[job.sample := sample.(stepsCompleted := sample.stepsCompleted + 1)],
         remaining := e.remaining - 1)
    else if r.endTime.Some? && r.endTime.value > e.t && r.isRunning then
      e.(nextT := Some(MinNext(e.nextT, r.endTime.value)))
    else
      e
  }

  /** The retire loop from `schedule[i]` onwards. */
  function RetireFrom(jobs: seq<seq<Job>>, e: State, i: nat): (e': State)
    requires Shaped(jobs, e) && i <= |e.schedule|
    ensures Shaped(jobs, e')
    ensures e'.schedule == e.schedule && |e'.samples| == |e.samples| && e'.t == e.t
    decreases |e.schedule| - i
  {
    if i == |e.schedule| then e else RetireFrom(jobs, RetireAt(jobs, e, i), i + 1)
  }

  /** `for job in schedule: ...`, the retire loop. */
  method RetirePhase(jobs: seq<seq<Job>>, e: State) returns (e': State)
    requires Shaped(jobs, e)
    ensures e' == RetireFrom(jobs, e, 0)
  {
    e' := e;
    for i := 0 to |e.schedule|
      invariant Shaped(jobs, e') && e'.schedule == e.schedule
      invariant RetireFrom(jobs, e', i) == RetireFrom(jobs, e, 0)
    {
      e' := RetireAt(jobs, e', i);
    }
  }

  // ---------------------------------------------------------------- admit phase

  /** The job may start now as far as its pipeline is concerned: it is not running and its
      sample has completed exactly the steps before this one. */
  predicate Eligible(jobs: seq<seq<Job>>, e: State, k: nat, s: nat)
    requires Shaped(jobs, e) && k < |jobs| && s < |e.samples|
  {
    !e.run[k][s].isRunning && e.samples[jobs[k][s].sample].stepsCompleted == jobs[k][s].step
  }

  /** The job's demand fits in what is still free. */
  predicate FitsFree(job: Job, e: State)
  {
    job.cpus <= e.availableCpus && job.memory <= e.availableMem
  }

  /** The body of the admit loop for `all_jobs[k][s]`: an eligible job that fits starts now,
      its resources are taken at once, its end time becomes a candidate next event time,
      the makespan covers it, and it joins the schedule. */
  function AdmitAt(jobs: seq<seq<Job>>, e: State, k: nat, s: nat): (e': State)
    requires Shaped(jobs, e) && k < |jobs| && s < |e.samples|
    ensures Shaped(jobs, e')
    ensures e'.samples == e.samples && e'.t == e.t && e'.remaining == e.remaining
    ensures |e'.schedule| >= |e.schedule|
  {
    var job := jobs[k][s];
    if Eligible(jobs, e, k, s) && FitsFree(job, e) then
      var end := e.t + job.duration;
      e.(run := SetRun(e.run, JobId(k, s), RunState(true, Some(e.t), Some(end))),
         availableCpus := e.availableCpus - job.cpus,
         availableMem := e.availableMem - job.memory,
         nextT := Some(MinNext(e.nextT, end)),
         makespan := Max(e.makespan, end),
         schedule := e.schedule + [JobId(k, s)])
    else
      e
  }

  /** The admission test decides the step: a job joins the schedule exactly when it is
      eligible and fits what is free, and then it starts now, ends after its duration, takes
      its demand out of the pools (which stay non-negative), extends the makespan to its end
      and offers its end as the next event time; no other job's record changes. Otherwise
      nothing changes. */
  lemma AdmissionTest(jobs: seq<seq<Job>>, e: State, k: nat, s: nat)
    requires Shaped(jobs, e) && k < |jobs| && s < |e.samples|
    ensures |AdmitAt(jobs, e, k, s).schedule| > |e.schedule| <==>
      Eligible(jobs, e, k, s) && FitsFree(jobs[k][s], e)
    ensures Eligible(jobs, e, k, s) && FitsFree(jobs[k][s], e) ==>
      var e', job := AdmitAt(jobs, e, k, s), jobs[k][s];
      && e'.schedule == e.schedule + [JobId(k, s)]
      && e'.run[k][s] == RunState(true, Some(e.t), Some(e.t + job.duration))
      && e'.availableCpus == e.availableCpus - job.cpus && e'.availableCpus >= 0
      && e'.availableMem == e.availableMem - job.memory && e'.availableMem >= 0
      && e'.makespan == Max(e.makespan, e.t + job.duration)
      && e'.nextT == Some(MinNext(e.nextT, e.t + job.duration))
      && (forall k', s' :: 0 <= k' < |jobs| && 0 <= s' < |e.samples| && (k', s') != (k, s) ==>
            e'.run[k'][s'] == e.run[k'][s'])
    ensures !(Eligible(jobs, e, k, s) && FitsFree(jobs[k][s], e)) ==> AdmitAt(jobs, e, k, s) == e
  {
  }

  /** The admit scan from position `(k, s)` onwards: tasks in ascending step, and within a
      task the samples in input order. */
  function AdmitFrom(jobs: seq<seq<Job>>, e: State, k: nat, s: nat): (e': State)
    requires Shaped(jobs, e) && k <= |jobs| && s <= |e.samples|
    ensures Shaped(jobs, e')
    ensures e'.samples == e.samples && e'.t == e.t && e'.remaining == e.remaining
    ensures |e'.schedule| >= |e.schedule|
    decreases |jobs| - k, |e.samples| - s
  {
    if k == |jobs| then e
    else if s == |e.samples| then AdmitFrom(jobs, e, k + 1, 0)
    else AdmitFrom(jobs, AdmitAt(jobs, e, k, s), k, s + 1)
  }

  /** `for step in all_jobs: for job in step: ...`, the admit loop. */
  method AdmitPhase(jobs: seq<seq<Job>>, e: State) returns (e': State)
    requires Shaped(jobs, e)
    ensures e' == AdmitFrom(jobs, e, 0, 0)
  {
    e' := e;
    for k := 0 to |jobs|
      invariant Shaped(jobs, e') && e'.samples == e.samples
      invariant AdmitFrom(jobs, e', k, 0) == AdmitFrom(jobs, e, 0, 0)
    {
      for s := 0 to |jobs[k]|
        invariant Shaped(jobs, e') && e'.samples == e.samples
        invariant AdmitFrom(jobs, e', k, s) == AdmitFrom(jobs, e, 0, 0)
      {
        e' := AdmitAt(jobs, e', k, s);
      }
    }
  }

  // ---------------------------------------------------------------- one pass

  /** `t = next_t`: move the clock to the candidate time. Without a candidate the source
      sets the clock to infinity; no job is left then (see
      `AdmitProofs.NoNextEventOnlyWhenDone`), the loop ends, and the clock is never read
      again, so the model leaves it where it was. */
  function Advance(e: State): (e': State)
    ensures e'.samples == e.samples && e'.run == e.run && e'.schedule == e.schedule
    ensures e'.remaining == e.remaining && e'.makespan == e.makespan && e'.nextT == e.nextT
    ensures e'.availableCpus == e.availableCpus && e'.availableMem == e.availableMem
    ensures e'.t == if e.nextT.Some? then e.nextT.value else e.t
  {
    if e.nextT.Some? then e.(t := e.nextT.value) else e
  }

  /** `next_t = inf`, then the retire loop and the admit loop of one pass. */
  function Phases(jobs: seq<seq<Job>>, e: State): (e': State)
    requires Shaped(jobs, e)
    ensures Shaped(jobs, e') && |e'.samples| == |e.samples| && e'.t == e.t
  {
    AdmitFrom(jobs, RetireFrom(jobs, e.(nextT := None), 0), 0, 0)
  }

  /** One pass of the event loop: reset the candidate time, retire, admit, move the clock. */
  function Step(jobs: seq<seq<Job>>, e: State): (e': State)
    requires Shaped(jobs, e)
    ensures Shaped(jobs, e') && |e'.samples| == |e.samples|
  {
    Advance(Phases(jobs, e))
  }

  /** Bounds the number of passes still to come: every pass but the first retires a job. */
  function Measure(e: State): int
  {
    e.remaining + (if e.schedule == [] then 1 else 0)
  }
}
