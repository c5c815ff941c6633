/** Samples, the per-(task, sample) job cost model, the job matrix and the feasibility check
    that `calc_makespan` runs before its event loop. */
module Jobs {
  import opened Tasks

  /** One input file. `stepsCompleted` is the only field the simulator changes. */
  datatype Sample = Sample(id: nat, fileSize: nat, stepsCompleted: int)

  /** The costs of one (sample, task) pair, fixed when the job is built. `sample` stands for
      the job's reference to its Sample object: the index of that sample. `step` is the step
      of the job's task. The run-time fields (`is_running`, `start_time`, `end_time`) live in
      the event loop's state. */
  datatype Job = Job(sample: nat, step: int, duration: nat, memory: nat, cpus: nat)

  /** `samples = [Sample(i, file_sizes[i]) for i in range(num_samples)]` */
  function NewSamples(fileSizes: seq<nat>): (r: seq<Sample>)
    ensures |r| == |fileSizes|
    ensures forall i :: 0 <= i < |r| ==> r[i] == Sample(i, fileSizes[i], 0)
  {
    seq(|fileSizes|, i requires 0 <= i < |fileSizes| => Sample(i, fileSizes[i], 0))
  }

  /** `Job(sample, task)` under the default `parallel_func`: the duration is the floor of the
      single-CPU work divided by its task's CPUs, the memory is linear in the file size, and
      the CPU demand is its task's. */
  function NewJob(sample: Sample, task: PipelineTask): (j: Job)
    requires task.cpus > 0
    ensures j.sample == sample.id && j.step == task.step && j.cpus == task.cpus
    ensures j.duration * task.cpus <= sample.fileSize * task.timeFactor < (j.duration + 1) * task.cpus
    ensures j.memory == sample.fileSize * task.spaceFactor
  {
    Job(sample.id, task.step, DefaultParallel(sample.fileSize, task.timeFactor, task.cpus),
        sample.fileSize * task.spaceFactor, task.cpus)
  }

  /** `all_jobs`: row `k` holds the jobs of the `k`-th task, one per sample in input order.
      Costing a job divides by its task's CPUs; with no samples no job is built. */
  function BuildJobs(samples: seq<Sample>, tasks: seq<PipelineTask>): (jobs: seq<seq<Job>>)
    requires |samples| > 0 ==> CpusPositive(tasks)
    ensures |jobs| == |tasks|
    ensures forall k :: 0 <= k < |jobs| ==> |jobs[k]| == |samples|
    ensures forall k, s :: 0 <= k < |jobs| && 0 <= s < |samples| ==> jobs[k][s] == NewJob(samples[s], tasks[k])
  {
    seq(|tasks|, k requires 0 <= k < |tasks| =>
      seq(|samples|, s requires 0 <= s < |samples| => NewJob(samples[s], tasks[k])))
  }

  predicate Fits(job: Job, maxMemory: int, maxCpus: int)
  {
    job.memory <= maxMemory && job.cpus <= maxCpus
  }

  /** No single job needs more than the whole machine. */
  predicate AllFit(jobs: seq<seq<Job>>, maxMemory: int, maxCpus: int)
  {
    forall k, s :: 0 <= k < |jobs| && 0 <= s < |jobs[k]| ==> Fits(jobs[k][s], maxMemory, maxCpus)
  }

  /** The feasibility loop of `calc_makespan`: scans the whole matrix, every task and not only
      the first, and stops at the first job whose memory or CPU demand exceeds the machine. */
  method CheckFeasible(jobs: seq<seq<Job>>, maxMemory: int, maxCpus: int) returns (ok: bool)
    ensures ok <==> AllFit(jobs, maxMemory, maxCpus)
  {
    for k := 0 to |jobs|
      invariant forall k', s :: 0 <= k' < k && 0 <= s < |jobs[k']| ==> Fits(jobs[k'][s], maxMemory, maxCpus)
    {
      for s := 0 to |jobs[k]|
        invariant forall s' :: 0 <= s' < s ==> Fits(jobs[k][s'], maxMemory, maxCpus)
      {
        if jobs[k][s].memory > maxMemory || jobs[k][s].cpus > maxCpus {
          return false;
        }
      }
    }
    return true;
  }

  /** Every (task, file) memory footprint fits the machine's memory, and, when there is a
      file, every task's CPUs fit its CPUs. */
  predicate InputsFit(fileSizes: seq<nat>, tasks: seq<PipelineTask>, maxMemory: int, maxCpus: int)
  {
    forall k, s :: 0 <= k < |tasks| && 0 <= s < |fileSizes| ==>
      fileSizes[s] * tasks[k].spaceFactor <= maxMemory && tasks[k].cpus <= maxCpus
  }

  /** Feasibility in terms of the inputs. */
  lemma FeasibleIffInputsFit(fileSizes: seq<nat>, tasks: seq<PipelineTask>, maxMemory: int, maxCpus: int)
    requires |fileSizes| > 0 ==> CpusPositive(tasks)
    ensures AllFit(BuildJobs(NewSamples(fileSizes), tasks), maxMemory, maxCpus) <==>
      InputsFit(fileSizes, tasks, maxMemory, maxCpus)
  {
    var jobs: seq<seq<Job>> := BuildJobs(NewSamples(fileSizes), tasks);
    if AllFit(jobs, maxMemory, maxCpus) {
      forall k, s | 0 <= k < |tasks| && 0 <= s < |fileSizes|
        ensures fileSizes[s] * tasks[k].spaceFactor <= maxMemory && tasks[k].cpus <= maxCpus
      {
        assert Fits(jobs[k][s], maxMemory, maxCpus);
      }
    }
    if InputsFit(fileSizes, tasks, maxMemory, maxCpus) {
      forall k, s | 0 <= k < |jobs| && 0 <= s < |jobs[k]| ensures Fits(jobs[k][s], maxMemory, maxCpus) {
        assert jobs[k][s].memory == fileSizes[s] * tasks[k].spaceFactor && jobs[k][s].cpus == tasks[k].cpus;
      }
    }
  }

  /** Every job takes at least one time unit. */
  predicate AllDurationsPositive(jobs: seq<seq<Job>>)
  {
    forall k, s :: 0 <= k < |jobs| && 0 <= s < |jobs[k]| ==> jobs[k][s].duration >= 1
  }

  /** A job of zero length exists exactly when some file is so small, relative to its task,
      that its single-CPU work is below its task's CPU count. */
  lemma PositiveDurationsIffWorkCoversCpus(fileSizes: seq<nat>, tasks: seq<PipelineTask>)
    requires |fileSizes| > 0 ==> CpusPositive(tasks)
    ensures AllDurationsPositive(BuildJobs(NewSamples(fileSizes), tasks)) <==>
      forall k, s :: 0 <= k < |tasks| && 0 <= s < |fileSizes| ==>
        fileSizes[s] * tasks[k].timeFactor >= tasks[k].cpus
  {
    var jobs: seq<seq<Job>> := BuildJobs(NewSamples(fileSizes), tasks);
    forall k, s | 0 <= k < |tasks| && 0 <= s < |fileSizes|
      ensures jobs[k][s].duration >= 1 <==> fileSizes[s] * tasks[k].timeFactor >= tasks[k].cpus
    {
      DefaultParallelZero(fileSizes[s], tasks[k].timeFactor, tasks[k].cpus);
    }
  }

  /** The shape the event loop relies on: `m` samples per row, each job pointing back to its
      column's sample and to its row's step, and every job fitting the machine. */
  predicate Plan(jobs: seq<seq<Job>>, m: nat, maxMemory: int, maxCpus: int)
  {
    && (forall k :: 0 <= k < |jobs| ==> |jobs[k]| == m)
    && (forall k, s :: 0 <= k < |jobs| && 0 <= s < |jobs[k]| ==>
          jobs[k][s].sample == s && jobs[k][s].step == k)
    && AllFit(jobs, maxMemory, maxCpus)
  }

  /** Once steps are validated and feasibility has passed, the matrix has the shape the event
      loop relies on. */
  lemma BuiltJobsArePlan(fileSizes: seq<nat>, sorted: seq<PipelineTask>, maxMemory: int, maxCpus: int)
    requires (|fileSizes| > 0 ==> CpusPositive(sorted)) && StepsValid(sorted)
    requires AllFit(BuildJobs(NewSamples(fileSizes), sorted), maxMemory, maxCpus)
    ensures Plan(BuildJobs(NewSamples(fileSizes), sorted), |fileSizes|, maxMemory, maxCpus)
  {
  }
}
