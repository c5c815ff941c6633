/** What holds of the simulator's state at the head of `while num_remaining_jobs > 0` and
    inside its two phases.

    `Inv` holds for every input the source accepts, including jobs of zero length. Its exact
    half, `Ordered` together with resource conservation as an equality, is stated under
    `AllDurationsPositive`: with a zero-length job the retire loop can hand back the
    resources of a job that had already finished (see module Hazard). */
module Invariants {
  import opened Wrappers
  import opened Jobs
  import opened EventLoop
  import opened Accounting

  /** A job is admitted once it has an end time. */
  predicate Started(r: RunState)
  {
    r.endTime.Some?
  }

  /** Running: admitted and not yet retired. Finished: admitted and retired. */
  predicate Finished(r: RunState)
  {
    Started(r) && !r.isRunning
  }

  /** A job's record is untouched, or it was admitted at a time `>= 0` and ends
      `duration` later. */
  predicate RecordOk(job: Job, r: RunState)
  {
    if r.endTime.None? then r == Unscheduled
    else r.startTime.Some? && r.startTime.value >= 0 && r.endTime.value == r.startTime.value + job.duration
  }

  function RunAt(e: State, id: JobId): RunState
    requires id.task < |e.run| && id.sample < |e.run[id.task]|
  {
    e.run[id.task][id.sample]
  }

  predicate Records(jobs: seq<seq<Job>>, e: State)
  {
    && Shaped(jobs, e)
    && forall k, s :: 0 <= k < |jobs| && 0 <= s < |e.samples| ==> RecordOk(jobs[k][s], e.run[k][s])
  }

  /** The schedule lists every admitted job exactly once, and nothing else. */
  predicate Scheduled(jobs: seq<seq<Job>>, e: State)
  {
    && Shaped(jobs, e)
    && IdsIn(jobs, e.run, e.schedule)
    && NoDuplicates(e.schedule)
    && (forall i :: 0 <= i < |e.schedule| ==> Started(RunAt(e, e.schedule[i])))
    && (forall k, s {:trigger JobId(k, s) in e.schedule} ::
          0 <= k < |jobs| && 0 <= s < |e.samples| && Started(e.run[k][s]) ==> JobId(k, s) in e.schedule)
  }

  /** No job has been admitted ahead of its sample, and the job of a sample's current step,
      once admitted, is still running. */
  predicate Progress(jobs: seq<seq<Job>>, e: State)
  {
    && Shaped(jobs, e)
    && (forall s :: 0 <= s < |e.samples| ==> e.samples[s].stepsCompleted >= 0)
    && (forall k, s :: 0 <= k < |jobs| && 0 <= s < |e.samples| && Started(e.run[k][s]) ==>
          k <= e.samples[s].stepsCompleted)
    && (forall k, s ::
          (0 <= k < |jobs| && 0 <= s < |e.samples| && Started(e.run[k][s]) && k == e.samples[s].stepsCompleted) ==>
          e.run[k][s].isRunning)
  }

  /** The pool of `res` never goes negative, and together with what running jobs hold it
      makes up at least the machine's capacity; exactly the capacity when `exact`. */
  predicate Pool(jobs: seq<seq<Job>>, maxCpus: int, maxMemory: int, e: State, res: Resource, exact: bool)
  {
    && IdsIn(jobs, e.run, e.schedule)
    && (Capacity(maxCpus, maxMemory, res) >= 0 ==> Available(e, res) >= 0)
    && Available(e, res) + InUse(jobs, e.run, e.schedule, res) >= Capacity(maxCpus, maxMemory, res)
    && (exact ==> Available(e, res) + InUse(jobs, e.run, e.schedule, res) == Capacity(maxCpus, maxMemory, res))
  }

  predicate Pools(jobs: seq<seq<Job>>, maxCpus: int, maxMemory: int, e: State)
  {
    && Pool(jobs, maxCpus, maxMemory, e, Cpus, AllDurationsPositive(jobs))
    && Pool(jobs, maxCpus, maxMemory, e, Memory, AllDurationsPositive(jobs))
  }

  /** `num_remaining_jobs` counts the retirements still to come, `makespan` is the latest end
      time scheduled so far, and the clock is not negative. */
  predicate Counters(jobs: seq<seq<Job>>, e: State)
  {
    && Shaped(jobs, e)
    && e.remaining == |jobs| * |e.samples| - TotalCompleted(e.samples)
    && e.makespan == MaxEnd(e.run, e.schedule)
    && e.t >= 0
  }

  /** With every duration at least 1: the steps a sample has completed are exactly its
      finished jobs, all of which ended by now, and each stage of a sample started no
      earlier than the previous stage ended. */
  predicate Ordered(jobs: seq<seq<Job>>, e: State)
  {
    && Shaped(jobs, e)
    && (forall s :: 0 <= s < |e.samples| ==> e.samples[s].stepsCompleted <= |jobs|)
    && (forall k, s :: 0 <= k < |jobs| && 0 <= s < |e.samples| && k < e.samples[s].stepsCompleted ==>
          Finished(e.run[k][s]) && EndOf(e.run[k][s]) <= e.t)
    && Precedence(e.run)
  }

  /** Every stage of a sample that has started began no earlier than the end of each of
      the sample's earlier stages, all of which have started. */
  predicate Precedence(run: seq<seq<RunState>>)
  {
    forall k, k', s ::
      (0 <= k < k' < |run| && 0 <= s < |run[k']| && s < |run[k]| && Started(run[k'][s])) ==>
      Started(run[k][s]) && EndOf(run[k][s]) <= StartOf(run[k'][s])
  }

  /** Holds at every phase boundary and throughout both phases. */
  predicate Inv(jobs: seq<seq<Job>>, maxCpus: int, maxMemory: int, e: State)
  {
    && Plan(jobs, |e.samples|, maxMemory, maxCpus)
    && Records(jobs, e)
    && Scheduled(jobs, e)
    && Progress(jobs, e)
    && Pools(jobs, maxCpus, maxMemory, e)
    && Counters(jobs, e)
    && (AllDurationsPositive(jobs) ==> Ordered(jobs, e))
  }

  /** No running job has passed its end time. */
  predicate RunningNotBefore(jobs: seq<seq<Job>>, e: State)
    requires Shaped(jobs, e)
  {
    forall k, s :: 0 <= k < |jobs| && 0 <= s < |e.samples| && e.run[k][s].isRunning ==>
      EndOf(e.run[k][s]) >= e.t
  }

  /** The schedule entry `id` ends exactly now. */
  predicate Due(e: State, id: JobId)
    requires id.task < |e.run| && id.sample < |e.run[id.task]|
  {
    RunAt(e, id).endTime == Some(e.t)
  }

  /** While jobs remain, the clock stands at the end time of a running job (except before the
      first pass), and with positive durations every finished job ended strictly earlier. */
  predicate Live(jobs: seq<seq<Job>>, e: State)
    requires Shaped(jobs, e)
  {
    && (e.schedule == [] ||
        exists i :: 0 <= i < |e.schedule| && RunAt(e, e.schedule[i]).isRunning && Due(e, e.schedule[i]))
    && (AllDurationsPositive(jobs) ==>
          forall k, s :: 0 <= k < |jobs| && 0 <= s < |e.samples| && Finished(e.run[k][s]) ==>
            EndOf(e.run[k][s]) < e.t)
  }

  /** The invariant of `while num_remaining_jobs > 0`. */
  predicate HeadInv(jobs: seq<seq<Job>>, maxCpus: int, maxMemory: int, e: State)
  {
    && Inv(jobs, maxCpus, maxMemory, e)
    && RunningNotBefore(jobs, e)
    && (e.remaining > 0 ==> Live(jobs, e))
  }

  /** Inside the retire loop, before `schedule[i]`. `r0` is `num_remaining_jobs` at the start
      of the pass and `due` says that some scheduled job ended exactly now. */
  predicate RetireInv(jobs: seq<seq<Job>>, maxCpus: int, maxMemory: int, e: State, i: nat, r0: int, due: bool)
  {
    && Inv(jobs, maxCpus, maxMemory, e)
    && RunningNotBefore(jobs, e)
    && i <= |e.schedule|
    && Candidate(jobs, e, i)
    && Retiring(jobs, e, i, r0, due)
    && (AllDurationsPositive(jobs) ==> FinishedBefore(jobs, e, i))
  }

  /** The jobs `schedule[..i]` that still run end after now, the candidate next event time
      is no later than any of them, and it is the end time of one of them. */
  predicate Candidate(jobs: seq<seq<Job>>, e: State, i: nat)
  {
    && Shaped(jobs, e)
    && i <= |e.schedule|
    && (forall j :: 0 <= j < i && RunAt(e, e.schedule[j]).isRunning ==>
          EndOf(RunAt(e, e.schedule[j])) > e.t && e.nextT.Some? && e.nextT.value <= EndOf(RunAt(e, e.schedule[j])))
    && (e.nextT.Some? ==>
          && e.nextT.value > e.t
          && exists j :: 0 <= j < i && RunAt(e, e.schedule[j]).isRunning && EndOf(RunAt(e, e.schedule[j])) == e.nextT.value)
  }

  /** The pass never adds to `num_remaining_jobs`, and if a job was due when it started, it
      has retired one or a due job is still ahead. */
  predicate Retiring(jobs: seq<seq<Job>>, e: State, i: nat, r0: int, due: bool)
  {
    && Shaped(jobs, e)
    && i <= |e.schedule|
    && e.remaining <= r0
    && (due ==> e.remaining < r0 || exists j :: i <= j < |e.schedule| && Due(e, e.schedule[j]))
  }

  /** The finished jobs not yet looked at ended before now. */
  predicate FinishedBefore(jobs: seq<seq<Job>>, e: State, i: nat)
  {
    && Shaped(jobs, e)
    && forall j :: i <= j < |e.schedule| && Finished(RunAt(e, e.schedule[j])) ==> EndOf(RunAt(e, e.schedule[j])) < e.t
  }

  /** The scan has passed position `(k, s)` when it has finished row `k`'s predecessors, or
      it is in row `k` past column `s`. */
  predicate Scanned(k: nat, s: nat, k': nat, s': nat)
  {
    k' < k || (k' == k && s' < s)
  }

  /** Inside the admit loop, before `all_jobs[k][s]`. */
  predicate AdmitInv(jobs: seq<seq<Job>>, maxCpus: int, maxMemory: int, e: State, k: nat, s: nat)
  {
    && Inv(jobs, maxCpus, maxMemory, e)
    && k <= |jobs| && s <= |e.samples|
    && Covered(jobs, e)
    && Greedy(jobs, e, k, s)
  }

  /** Every running job ends now or later, the candidate next event time is no later than
      any of them, and it is the end time of one of them (strictly after now when durations
      are positive). */
  predicate Covered(jobs: seq<seq<Job>>, e: State)
  {
    && Shaped(jobs, e)
    && (forall k, s :: 0 <= k < |jobs| && 0 <= s < |e.samples| && e.run[k][s].isRunning ==>
          EndOf(e.run[k][s]) >= e.t && e.nextT.Some? && e.nextT.value <= EndOf(e.run[k][s]))
    && (e.nextT.Some? ==>
          && e.nextT.value >= e.t
          && exists i :: 0 <= i < |e.schedule| && RunAt(e, e.schedule[i]).isRunning &&
               EndOf(RunAt(e, e.schedule[i])) == e.nextT.value)
    && (AllDurationsPositive(jobs) && e.nextT.Some? ==> e.nextT.value > e.t)
  }

  /** Greedy admission: no job the scan has passed could still start with what is free. */
  predicate Greedy(jobs: seq<seq<Job>>, e: State, k: nat, s: nat)
  {
    && Shaped(jobs, e)
    && forall k', s' ::
         (0 <= k' < |jobs| && 0 <= s' < |e.samples| && Scanned(k, s, k', s') && Eligible(jobs, e, k', s')) ==>
         !FitsFree(jobs[k'][s'], e)
  }
}
