# Pipeline makespan simulator

A Dafny model of `calc_makespan`, the discrete-event simulator that estimates how long a
pipeline of tasks takes to process a set of input files on one machine with a fixed number
of CPUs and a fixed amount of memory.

The simulator works as follows:

- It sorts its tasks by step and rejects the input (returns -1) unless the steps are
  `0..N-1`.
- It builds one job per (task, file) pair. A job's duration is `size * time_factor // cpus`,
  its memory is `size * space_factor`, and its CPUs are its task's.
- It rejects the input if any single job needs more memory or CPUs than the machine has.
- Otherwise it runs an event loop. Each pass of the loop:
  - retires the jobs whose end time equals the clock, giving back their resources and
    advancing their file's step count;
  - scans the jobs task-major (all files of step 0, then step 1, and so on) and greedily
    admits every job whose file is at the job's step and whose demand fits what is free;
  - moves the clock to the earliest end time of a running job.
- The result is the latest end time of any admitted job.

Modules, in dependency order:

- `Wrappers`: `Option`, the `min`/`max` helpers of the loop.
- `Tasks`: `PipelineTask`, the default duration function, the stable sort by step, and the
  step check.
- `Jobs`: `Sample`, `Job`, the job matrix `all_jobs`, and the feasibility check.
- `EventLoop`: the simulator's variables as a `State` value.
  - The retire loop and the admit loop are methods (`RetirePhase`, `AdmitPhase`). Each is
    proved to compute a recursive function (`RetireFrom`, `AdmitFrom`).
  - `Step` is one pass of `while num_remaining_jobs > 0`.
- `Accounting`: resources held by running jobs, the latest end time, and completed-step
  totals.
- `Invariants`: what holds at the loop head and inside both phases:
  - every admitted job is scheduled once;
  - no pool goes negative;
  - resources are conserved;
  - the greedy scan leaves nothing admissible behind;
  - each file's stages run in order.
- `RetireProofs`, `AdmitProofs`, `StepProofs`: each phase and each pass keeps those
  invariants. The loop ends.
- `Makespan`: the whole `calc_makespan` as the function `Simulate` and the method
  `CalcMakespan`, with the accept/reject characterisation and the end-of-run properties.
- `Examples`: the one-file example (20) and the two-files-one-CPU example (30), each followed
  pass by pass.
- `Hazard`: an input on which a job that already finished is retired a second time.

Zero-length jobs: the retire loop gives back a job's resources whenever its end time equals
the clock, and it does not check whether the job is still running. A job of length zero
(possible when `size * time_factor < cpus`) admitted at time `t` keeps the clock at `t` for
one more pass. In that pass a job already retired at `t` is retired a second time. The model
keeps this behaviour.

- The general invariants hold for every input the simulator accepts:
  - pools never go negative;
  - available plus held resources are at least the capacity;
  - the schedule has no duplicates;
  - the loop terminates.
- The exact invariants are proved only under `AllDurationsPositive`:
  - resources are conserved as an equality;
  - completed steps match finished jobs;
  - stages run in order;
  - every job runs once.
- `Hazard.FinishedJobRetiredAgain` shows an accepted input on which the loop returns 10
  where the two back-to-back jobs of length 10 need 20. The loop also ends with two free CPUs
  on a one-CPU machine.

## Model

| member | source | states |
|---|---|---|
| Wrappers.MinNext | calc_makespan.py:74 | `min(next_t, end)` with a missing `next_t` as infinity: the result is at most `end` and at most `next_t` when there is one, and it is one of the two |
| Wrappers.Max | calc_makespan.py:90 | `max(makespan, end)`: at least both arguments and equal to one of them |
| Tasks.DefaultParallel | calc_makespan.py:104 | the default duration `d` is the floor of `size * time / cpus`: `d * cpus <= size * time < (d + 1) * cpus` |
| Tasks.DefaultParallelZero | calc_makespan.py:104 | a job has duration 0 exactly when `size * time < cpus` |
| Tasks.InsertByStep | calc_makespan.py:32 | inserting a task into a step-sorted list keeps it sorted and adds exactly that task (and its step) |
| Tasks.SortByStep | calc_makespan.py:32 | the sorted list is ordered by step and is a permutation of the input (same multiset of tasks, and of steps) |
| Tasks.CheckSteps | calc_makespan.py:35-37 | the validation loop returns true exactly when position `i` holds step `i` for every `i` |
| Tasks.SortedPermutationOfRange | calc_makespan.py:32-37 | a non-decreasing sequence holding exactly the values `0..n-1` is `0, 1, ..., n-1` |
| Tasks.ValidIffStepsArePermutation | calc_makespan.py:32-37 | sort-then-validate passes exactly when the supplied steps are `0..N-1`, each once, in any order |
| Jobs.NewSamples | calc_makespan.py:29 | sample `i` has id `i`, size `file_sizes[i]` and no completed steps |
| Jobs.NewJob | calc_makespan.py:133-150 | a job's sample, step and CPUs come from its sample and task, its duration is the floor of work over CPUs, its memory is size times space factor |
| Jobs.BuildJobs | calc_makespan.py:41 | one row per task and one column per sample, and job `[k][s]` is costed from sample `s` and task `k` |
| Jobs.CheckFeasible | calc_makespan.py:44-48 | the feasibility loop returns true exactly when every job's memory and CPUs fit the machine |
| Jobs.FeasibleIffInputsFit | calc_makespan.py:41-48 | the matrix is feasible exactly when every file's memory for every task, and every task's CPUs, fit the machine |
| Jobs.PositiveDurationsIffWorkCoversCpus | calc_makespan.py:144-145 | every job takes at least one unit exactly when every file's work for every task is at least that task's CPUs |
| Jobs.BuiltJobsArePlan | calc_makespan.py:35-48 | after both checks pass, every job points back to its own column's sample and its row's step, and fits the machine |
| EventLoop.Init | calc_makespan.py:42-56 | before the loop nothing is scheduled, no job has times, `num_remaining_jobs` is tasks times samples, and the clock and makespan are 0. Both pools are full (`max_cpus`, `max_memory`), the samples are the given ones, and there is no next-event candidate |
| EventLoop.RetireAt | calc_makespan.py:67-74 | retiring or skipping one scheduled job keeps the schedule and the clock |
| EventLoop.RetireFrom | calc_makespan.py:66-74 | the rest of the retire loop keeps the schedule and the clock |
| EventLoop.RetirePhase | calc_makespan.py:66-74 | the retire `for` loop computes `RetireFrom` from the first scheduled job |
| EventLoop.AdmitAt | calc_makespan.py:80-91 | examining one job leaves samples, clock and remaining count alone and can only grow the schedule |
| EventLoop.Eligible | calc_makespan.py:80 | (predicate, no contract) the pipeline half of the admission test: the job is not running and its sample has completed exactly the steps before it |
| EventLoop.FitsFree | calc_makespan.py:81 | (predicate, no contract) the resource half of the admission test: the job's CPUs and memory are at most what is free |
| EventLoop.AdmissionTest | calc_makespan.py:80-91 | a job joins the schedule exactly when it passes both halves of the test. It then starts now, ends after its duration, takes its demand from the pools (which stay non-negative), sets the makespan to `max(makespan, end)` and the candidate to `min(next_t, end)`, and no other job's record changes. Otherwise the state is unchanged |
| EventLoop.AdmitFrom | calc_makespan.py:78-91 | the rest of the admit scan (task-major order) does the same |
| EventLoop.AdmitPhase | calc_makespan.py:78-91 | the nested admit loops compute `AdmitFrom` from task 0, sample 0 |
| EventLoop.Advance | calc_makespan.py:93 | only the clock moves, to the candidate next time when there is one |
| EventLoop.Phases | calc_makespan.py:62-91 | the retire and admit phases keep the state's shape and the clock |
| EventLoop.Step | calc_makespan.py:59-93 | one pass keeps the state's shape and the number of samples |
| RetireProofs.RetireDuePool | calc_makespan.py:67-72 | retiring a job that ends now keeps each pool non-negative and available plus held at least the capacity (exactly, with positive durations) |
| RetireProofs.RetireStart | calc_makespan.py:59-66 | a pass starts the retire loop from the loop-head invariant with no candidate time |
| RetireProofs.RetireFromKeeps | calc_makespan.py:66-74 | the retire loop keeps the invariant. Afterwards the candidate is the earliest end among running jobs, it exists exactly when one runs, and a pass that found a job due has retired one |
| AdmitProofs.EligibleIsFresh | calc_makespan.py:80 | a job that passes the admission test has never been admitted, and its sample stands at its step |
| AdmitProofs.AdmitPool | calc_makespan.py:82-87 | admitting a job deducts its demand, keeps each pool non-negative, and keeps available plus held at least the capacity (exactly, with positive durations) |
| AdmitProofs.AdmitGreedy | calc_makespan.py:78-91 | after an admission, no eligible job the scan has passed fits what is still free |
| AdmitProofs.AdmitTake | calc_makespan.py:80-91 | admitting an eligible job that fits keeps the admit-loop invariant |
| AdmitProofs.AdmitFromKeeps | calc_makespan.py:78-91 | the admit scan keeps the invariant. At its end, no job that is eligible could start with what is free (greedy) |
| AdmitProofs.RetireEndIsAdmitStart | calc_makespan.py:74-78 | at the end of the retire loop the admit-loop invariant holds: the candidate is no later than any running job's end, and every running job ends strictly after now |
| AdmitProofs.BlockedByRunning | calc_makespan.py:80-81 | a job that fits the machine but not what is free is waiting on a running job |
| AdmitProofs.PendingJobExists | calc_makespan.py:59-80 | while jobs remain, some job is running or eligible |
| AdmitProofs.NoNextEventOnlyWhenDone | calc_makespan.py:62-93 | after the admit scan, `next_t` stays infinite only when no job remains, so the infinite clock is never used |
| StepProofs.AdvanceKeeps | calc_makespan.py:93 | moving the clock restores the loop-head invariant, never moves the clock back, and with positive durations moves it strictly forward to the candidate |
| StepProofs.PhasesKeep | calc_makespan.py:62-91 | retire-then-admit keeps the invariant, never raises the remaining count, and lowers it once anything was scheduled |
| StepProofs.StepKeeps | calc_makespan.py:59-93 | a pass keeps the invariant and strictly lowers the termination measure. The clock never goes back, and with positive durations it strictly advances whenever jobs remain after the pass |
| StepProofs.InitKeeps | calc_makespan.py:42-56 | the loop starts in a state meeting the loop-head invariant, with measure tasks times samples plus one |
| StepProofs.Run | calc_makespan.py:59-93 | the `while` loop terminates, keeps the invariant, and ends with no job remaining |
| StepProofs.MakespanBounds | calc_makespan.py:55-90 | the makespan is never negative, and it is 0 with no tasks or no samples |
| StepProofs.PoolsRestored | calc_makespan.py:69-87 | with positive durations, once nothing runs every CPU and all memory are free |
| StepProofs.AllStepsCompleted | calc_makespan.py:71-72 | with positive durations, when the loop ends every sample has completed every step |
| StepProofs.AllJobsFinished | calc_makespan.py:59-91 | with positive durations, at the end every job was admitted, ran its duration from a start time `>= 0`, and finished |
| StepProofs.MakespanIsLatestEnd | calc_makespan.py:90 | whatever the durations, the makespan bounds every job's end time (0 for a job never admitted) and, when there is a job, equals one of them |
| StepProofs.Completion | calc_makespan.py:59-95 | with positive durations, the end of the loop: every job ran once, each file's steps in order, and every resource is back |
| Makespan.SortKeepsCpus | calc_makespan.py:32 | sorting keeps every task's CPUs positive |
| Makespan.AllJobs | calc_makespan.py:32-41 | the matrix built after sorting has one row per task and one column per file |
| Makespan.FinalState | calc_makespan.py:50-93 | the loop, run from the initial state, ends in a state meeting the loop-head invariant with no job remaining |
| Makespan.Simulate | calc_makespan.py:11-95 | the result is -1 when the steps are invalid; with valid steps it is -1 exactly when some job does not fit; it is never below -1 |
| Makespan.CalcMakespan | calc_makespan.py:11-95 | the method (sort, validation loop, feasibility loop, event loop) returns `Simulate` of its inputs |
| Makespan.AcceptsExactly | calc_makespan.py:32-48 | both checks pass exactly when the steps are a permutation of `0..N-1` and all inputs fit the machine |
| Makespan.RejectsExactly | calc_makespan.py:32-48 | the result is -1 exactly when the steps are not a permutation of `0..N-1` or some file/task demand exceeds the machine |
| Makespan.SameTasks | calc_makespan.py:44-48 | whether a list of tasks fits does not depend on their order |
| Makespan.SimulateIsFinal | calc_makespan.py:95 | for accepted input the result is the makespan of the final state |
| Makespan.NoTasks | calc_makespan.py:42-59 | with no tasks the result is 0 |
| Makespan.NoSamples | calc_makespan.py:42-59 | with valid steps and no files the result is 0 |
| Makespan.EmptyFinalState | calc_makespan.py:42-59 | the loop ends with makespan 0 when there is no task or no file |
| Makespan.RunsEveryJob | calc_makespan.py:59-93 | with positive durations, the run ends with no job left. Every sample has completed all steps, and every job finished with its built cost and is in the schedule exactly once |
| Makespan.OrderedAndReleased | calc_makespan.py:66-91 | with positive durations, each file's stage starts no earlier than its earlier stages end, and all CPUs and memory are free at the end |
| Makespan.ResultIsLatestEnd | calc_makespan.py:90-95 | for every accepted input, zero-length jobs included, the result is the latest end time over the admitted jobs (`MaxEnd` of the schedule). It also bounds every job's end time and equals one of them |
| Examples.SimulateTrace | calc_makespan.py:59-95 | a concrete pass-by-pass trace from the initial state ends in the state whose makespan is the result |
| Examples.OneFileOneTask | calc_makespan.py:11-95 | one file of size 10 and one task (time factor 2, one CPU) on 4 CPUs give 20 |
| Examples.TwoFilesFinal | calc_makespan.py:59-93 | on the second example the loop stops with the first job run from 0 to 20 and the second from 20 to 30, both finished, and every resource free |
| Examples.TwoFilesOneCpu | calc_makespan.py:11-95 | files of sizes 10 and 5 with the same task on one CPU run back to back and give 30 |
| Hazard.FinishedJobRetiredAgain | calc_makespan.py:66-72 | on an accepted input, a zero-length job admitted at 10 holds the clock there, and a length-10 job that ended at 10 is retired again. The run ends with two free CPUs on a one-CPU machine, a job never admitted, and result 10 instead of 20 |

## Left out

- Task names, `__repr__` and the `log2`/`sqrt` imports are not modelled; they do not affect
  the result.
- A caller-supplied `parallel_func` is not modelled: every task uses the default
  `size * time // cpus`.
- Integer inputs: sizes, factors and task CPU counts are natural numbers, and steps,
  capacities and times are unbounded integers. Python integers do not overflow, so there is
  no wrap-around to model. Negative sizes, factors or task CPU counts are not modelled. With
  negative CPUs, Python's `//` would give a negative duration.
- Division by zero: when the steps are valid and there is a file, every task must have
  positive CPUs (`CpusPositive`). With zero CPUs the source fails with a division error. The
  model requires it only where the source divides.
- `Tasks.SortByStep`: the in-place list sort is modelled as a function on a value. Its
  contract does not state stability. Tasks with equal steps make the step check fail, so
  their relative order never reaches the loop.
- The `Job` and `Sample` objects, and the references between them, are values indexed by
  position. `run[k][s]` holds the mutable fields of `all_jobs[k][s]`, `samples[s]` the step
  count, and a job's sample reference is the index `s`. Aliasing between job objects is not
  modelled; none exists in the source.
- `next_t = inf`: an absent candidate is `None`. The model leaves the clock where it was,
  because the loop then ends and the clock is never read (`NoNextEventOnlyWhenDone`).
- The exact invariants are proved only under `AllDurationsPositive`. These cover conservation
  as an equality, precedence, and every job running once.
  The zero-length case is shown concretely by `Hazard.FinishedJobRetiredAgain`.
- `Makespan.RunsEveryJob`, `Makespan.OrderedAndReleased`: these hold only when every job has a
  positive duration. With a zero-length job the source can break each of them: on the input
  of `Hazard.FinishedJobRetiredAgain` a job is never admitted and two CPUs are free on a
  one-CPU machine.
- Running time, output and any caller of `calc_makespan` are outside this model.
