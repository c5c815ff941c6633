/** Sums and maxima over the simulator's state: the resources held by running jobs, the
    latest end time among scheduled jobs, and the total number of completed steps. */
module Accounting {
  import opened Wrappers
  import opened Jobs
  import opened EventLoop

  /** The two pools the machine shares out. */
  datatype Resource = Cpus | Memory

  function Demand(job: Job, res: Resource): nat
  {
    match res
    case Cpus => job.cpus
    case Memory => job.memory
  }

  function Available(e: State, res: Resource): int
  {
    match res
    case Cpus => e.availableCpus
    case Memory => e.availableMem
  }

  function Capacity(maxCpus: int, maxMemory: int, res: Resource): int
  {
    match res
    case Cpus => maxCpus
    case Memory => maxMemory
  }

  /** Every entry of `schedule` names a job of the matrix and a run-time record. */
  predicate IdsIn(jobs: seq<seq<Job>>, run: seq<seq<RunState>>, schedule: seq<JobId>)
  {
    forall i :: 0 <= i < |schedule| ==>
      && schedule[i].task < |jobs| && schedule[i].task < |run|
      && schedule[i].sample < |jobs[schedule[i].task]| && schedule[i].sample < |run[schedule[i].task]|
  }

  predicate NoDuplicates(schedule: seq<JobId>)
  {
    forall i, j :: 0 <= i < j < |schedule| ==> schedule[i] != schedule[j]
  }

  /** What a job with run-time record `r` holds of `res`: its demand while it is marked
      running, nothing otherwise. */
  function HeldBy(job: Job, r: RunState, res: Resource): nat
  {
    if r.isRunning then Demand(job, res) else 0
  }

  /** The amount of `res` held by the scheduled jobs that are marked running. */
  function InUse(jobs: seq<seq<Job>>, run: seq<seq<RunState>>, schedule: seq<JobId>, res: Resource): (u: int)
    requires IdsIn(jobs, run, schedule)
    ensures u >= 0
    decreases |schedule|
  {
    if schedule == [] then 0
    else
      var n := |schedule| - 1;
      var id := schedule[n];
      InUse(jobs, run, schedule[..n], res) + HeldBy(jobs[id.task][id.sample], run[id.task][id.sample], res)
  }

  lemma InUseAppend(jobs: seq<seq<Job>>, run: seq<seq<RunState>>, schedule: seq<JobId>, id: JobId, res: Resource)
    requires IdsIn(jobs, run, schedule)
    requires id.task < |jobs| && id.task < |run| && id.sample < |jobs[id.task]| && id.sample < |run[id.task]|
    ensures IdsIn(jobs, run, schedule + [id])
    ensures InUse(jobs, run, schedule + [id], res) ==
      InUse(jobs, run, schedule, res) + HeldBy(jobs[id.task][id.sample], run[id.task][id.sample], res)
  {
    assert (schedule + [id])[..|schedule|] == schedule;
  }

  /** Changing the run-time record of a job that is not scheduled leaves what is in use
      unchanged. */
  lemma {:induction false} InUseUpdateUnscheduled(jobs: seq<seq<Job>>, run: seq<seq<RunState>>, schedule: seq<JobId>,
                                                  id: JobId, r: RunState, res: Resource)
    requires IdsIn(jobs, run, schedule) && id !in schedule
    requires id.task < |run| && id.sample < |run[id.task]|
    ensures IdsIn(jobs, SetRun(run, id, r), schedule)
    ensures InUse(jobs, SetRun(run, id, r), schedule, res) == InUse(jobs, run, schedule, res)
  {
    if schedule != [] {
      var n := |schedule| - 1;
      assert schedule[n] != id;
      InUseUpdateUnscheduled(jobs, run, schedule[..n], id, r, res);
    }
  }

  /** Changing the run-time record of a job scheduled exactly once changes what is in use by
      exactly the change in what that job holds. */
  lemma {:induction false} InUseUpdate(jobs: seq<seq<Job>>, run: seq<seq<RunState>>, schedule: seq<JobId>,
                                       id: JobId, r: RunState, res: Resource)
    requires IdsIn(jobs, run, schedule) && NoDuplicates(schedule) && id in schedule
    requires id.task < |jobs| && id.task < |run| && id.sample < |jobs[id.task]| && id.sample < |run[id.task]|
    ensures IdsIn(jobs, SetRun(run, id, r), schedule)
    ensures InUse(jobs, SetRun(run, id, r), schedule, res) ==
      InUse(jobs, run, schedule, res) + HeldBy(jobs[id.task][id.sample], r, res)
        - HeldBy(jobs[id.task][id.sample], run[id.task][id.sample], res)
  {
    var n := |schedule| - 1;
    var front := schedule[..n];
    assert schedule == front + [schedule[n]];
    if schedule[n] == id {
      assert id !in front;
      InUseUpdateUnscheduled(jobs, run, front, id, r, res);
    } else {
      assert id in front;
      InUseUpdate(jobs, run, front, id, r, res);
    }
  }

  /** Nothing is in use when no scheduled job is marked running. */
  lemma {:induction false} InUseIdle(jobs: seq<seq<Job>>, run: seq<seq<RunState>>, schedule: seq<JobId>, res: Resource)
    requires IdsIn(jobs, run, schedule)
    requires forall i :: 0 <= i < |schedule| ==> !run[schedule[i].task][schedule[i].sample].isRunning
    ensures InUse(jobs, run, schedule, res) == 0
  {
    if schedule != [] {
      var n := |schedule| - 1;
      InUseIdle(jobs, run, schedule[..n], res);
    }
  }

  /** Something is in use only while some scheduled job is marked running. */
  lemma {:induction false} InUseBusy(jobs: seq<seq<Job>>, run: seq<seq<RunState>>, schedule: seq<JobId>, res: Resource)
    requires IdsIn(jobs, run, schedule)
    ensures InUse(jobs, run, schedule, res) > 0 ==>
      exists i :: 0 <= i < |schedule| && run[schedule[i].task][schedule[i].sample].isRunning
  {
    if schedule != [] {
      var n := |schedule| - 1;
      InUseBusy(jobs, run, schedule[..n], res);
      if InUse(jobs, run, schedule[..n], res) > 0 {
        var i :| 0 <= i < n && run[schedule[..n][i].task][schedule[..n][i].sample].isRunning;
        assert schedule[..n][i] == schedule[i];
      }
    }
  }

  function EndOf(r: RunState): int
  {
    if r.endTime.Some? then r.endTime.value else 0
  }

  function StartOf(r: RunState): int
  {
    if r.startTime.Some? then r.startTime.value else 0
  }

  /** The latest end time among the scheduled jobs, and 0 for an empty schedule. */
  function MaxEnd(run: seq<seq<RunState>>, schedule: seq<JobId>): (m: int)
    requires forall i :: 0 <= i < |schedule| ==>
      schedule[i].task < |run| && schedule[i].sample < |run[schedule[i].task]|
    ensures m >= 0
    ensures forall i :: 0 <= i < |schedule| ==> EndOf(run[schedule[i].task][schedule[i].sample]) <= m
    ensures m == 0 || exists i :: 0 <= i < |schedule| && EndOf(run[schedule[i].task][schedule[i].sample]) == m
    decreases |schedule|
  {
    if schedule == [] then 0
    else
      var n := |schedule| - 1;
      var m := MaxEnd(run, schedule[..n]);
      var last := EndOf(run[schedule[n].task][schedule[n].sample]);
      assert forall i :: 0 <= i < n ==> schedule[..n][i] == schedule[i];
      Max(m, last)
  }

  /** The maximum depends only on the end times of the scheduled jobs. */
  lemma {:induction false} MaxEndSameEnds(run: seq<seq<RunState>>, run': seq<seq<RunState>>, schedule: seq<JobId>)
    requires forall i :: 0 <= i < |schedule| ==>
      schedule[i].task < |run| && schedule[i].sample < |run[schedule[i].task]|
    requires forall i :: 0 <= i < |schedule| ==>
      schedule[i].task < |run'| && schedule[i].sample < |run'[schedule[i].task]|
    requires forall i :: 0 <= i < |schedule| ==>
      run'[schedule[i].task][schedule[i].sample].endTime == run[schedule[i].task][schedule[i].sample].endTime
    ensures MaxEnd(run', schedule) == MaxEnd(run, schedule)
  {
    if schedule != [] {
      MaxEndSameEnds(run, run', schedule[..|schedule| - 1]);
    }
  }

  lemma MaxEndAppend(run: seq<seq<RunState>>, schedule: seq<JobId>, id: JobId)
    requires forall i :: 0 <= i < |schedule| ==>
      schedule[i].task < |run| && schedule[i].sample < |run[schedule[i].task]|
    requires id.task < |run| && id.sample < |run[id.task]|
    ensures MaxEnd(run, schedule + [id]) == Max(MaxEnd(run, schedule), EndOf(run[id.task][id.sample]))
  {
    assert (schedule + [id])[..|schedule|] == schedule;
  }

  /** The total number of pipeline steps completed over all samples. */
  function TotalCompleted(samples: seq<Sample>): int
    decreases |samples|
  {
    if samples == [] then 0
    else TotalCompleted(samples[..|samples| - 1]) + samples[|samples| - 1].stepsCompleted
  }

  lemma {:induction false} TotalCompletedIncrement(samples: seq<Sample>, s: nat)
    requires s < |samples|
    ensures TotalCompleted(samples[s := samples[s].(stepsCompleted := samples[s].stepsCompleted + 1)])
      == TotalCompleted(samples) + 1
  {
    var samples' := samples[s := samples[s].(stepsCompleted := samples[s].stepsCompleted + 1)];
    var n := |samples| - 1;
    if s < n {
      assert samples'[..n] == samples[..n][s := samples[s].(stepsCompleted := samples[s].stepsCompleted + 1)];
      TotalCompletedIncrement(samples[..n], s);
    } else {
      assert samples'[..n] == samples[..n];
    }
  }

  /** If every sample has completed at least `n` steps, at least `n` steps per sample have
      been completed in total. */
  lemma {:induction false} TotalCompletedAtLeast(samples: seq<Sample>, n: int)
    requires forall s :: 0 <= s < |samples| ==> samples[s].stepsCompleted >= n
    ensures TotalCompleted(samples) >= n * |samples|
  {
    if samples != [] {
      TotalCompletedAtLeast(samples[..|samples| - 1], n);
    }
  }

  /** If fewer than `n` steps per sample have been completed in total, some sample has
      completed fewer than `n`. */
  lemma {:induction false} SomeSampleBehind(samples: seq<Sample>, n: int)
    ensures TotalCompleted(samples) < n * |samples| ==>
      exists s :: 0 <= s < |samples| && samples[s].stepsCompleted < n
  {
    if samples != [] {
      var m := |samples| - 1;
      SomeSampleBehind(samples[..m], n);
      if samples[m].stepsCompleted >= n && TotalCompleted(samples) < n * |samples| {
        var s :| 0 <= s < m && samples[..m][s].stepsCompleted < n;
        assert samples[..m][s] == samples[s];
      }
    }
  }

  /** If no sample has completed more than `n` steps, at most `n` steps per sample have been
      completed in total, and exactly that many only when every sample has completed `n`. */
  lemma {:induction false} TotalCompletedAtMost(samples: seq<Sample>, n: int)
    requires forall s :: 0 <= s < |samples| ==> samples[s].stepsCompleted <= n
    ensures TotalCompleted(samples) <= n * |samples|
    ensures TotalCompleted(samples) == n * |samples| ==>
      forall s :: 0 <= s < |samples| ==> samples[s].stepsCompleted == n
  {
    if samples != [] {
      var m := |samples| - 1;
      TotalCompletedAtMost(samples[..m], n);
      if TotalCompleted(samples) == n * |samples| {
        assert samples[m].stepsCompleted == n;
        assert TotalCompleted(samples[..m]) == n * m;
        forall s | 0 <= s < |samples| ensures samples[s].stepsCompleted == n {
          if s < m {
            assert samples[..m][s] == samples[s];
          }
        }
      }
    }
  }
}
