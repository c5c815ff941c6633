/** One pass of `while num_remaining_jobs > 0` keeps the loop-head invariant and lowers
    `Measure`, so the loop ends; when it ends with every duration positive, every job has run
    exactly once, in pipeline order, and the makespan is the latest end time. */
module StepProofs {
  import opened Wrappers
  import opened Jobs
  import opened EventLoop
  import opened Accounting
  import opened Invariants
  import opened RetireProofs
  import opened AdmitProofs

  /** Moving the clock forward keeps the invariant. */
  lemma InvAdvance(jobs: seq<seq<Job>>, maxCpus: int, maxMemory: int, e: State, x: int)
    requires Inv(jobs, maxCpus, maxMemory, e) && x >= e.t
    ensures Inv(jobs, maxCpus, maxMemory, e.(t := x))
  {
    var e' := e.(t := x);
    assert Pool(jobs, maxCpus, maxMemory, e', Cpus, AllDurationsPositive(jobs));
    assert Pool(jobs, maxCpus, maxMemory, e', Memory, AllDurationsPositive(jobs));
  }

  /** A finished job is behind its sample's current step. */
  lemma FinishedIsCompleted(jobs: seq<seq<Job>>, e: State, k: nat, s: nat)
    requires Progress(jobs, e) && k < |jobs| && s < |e.samples| && Finished(e.run[k][s])
    ensures k < e.samples[s].stepsCompleted
  {
  }

  /** With a candidate, moving the clock to it keeps the invariant. */
  lemma AdvanceInv(jobs: seq<seq<Job>>, maxCpus: int, maxMemory: int, a: State)
    requires Inv(jobs, maxCpus, maxMemory, a) && Covered(jobs, a) && a.nextT.Some?
    ensures Inv(jobs, maxCpus, maxMemory, Advance(a))
    ensures a.t <= Advance(a).t
    ensures AllDurationsPositive(jobs) ==> a.t < Advance(a).t
  {
    InvAdvance(jobs, maxCpus, maxMemory, a, a.nextT.value);
  }

  /** With a candidate, no running job has passed its end time once the clock moves to it. */
  lemma AdvanceRunning(jobs: seq<seq<Job>>, a: State)
    requires Covered(jobs, a) && a.nextT.Some?
    ensures RunningNotBefore(jobs, Advance(a))
  {
  }

  /** With a candidate, after moving the clock to it some running job is due, and with
      positive durations every finished job ended strictly earlier. */
  lemma AdvanceLive(jobs: seq<seq<Job>>, maxCpus: int, maxMemory: int, a: State)
    requires AdmitInv(jobs, maxCpus, maxMemory, a, |jobs|, 0) && a.nextT.Some?
    ensures Live(jobs, Advance(a))
  {
    var e' := Advance(a);
    var i :| 0 <= i < |a.schedule| && RunAt(a, a.schedule[i]).isRunning && EndOf(RunAt(a, a.schedule[i])) == a.nextT.value;
    var id := a.schedule[i];
    assert RecordOk(jobs[id.task][id.sample], a.run[id.task][id.sample]);
    assert Due(e', e'.schedule[i]);
    if AllDurationsPositive(jobs) {
      forall k, s | 0 <= k < |jobs| && 0 <= s < |e'.samples| && Finished(e'.run[k][s])
        ensures EndOf(e'.run[k][s]) < e'.t
      {
        FinishedIsCompleted(jobs, a, k, s);
      }
    }
  }

  /** Moving the clock after the admit loop yields the loop-head invariant. Without a
      candidate, no job is left. */
  lemma AdvanceKeeps(jobs: seq<seq<Job>>, maxCpus: int, maxMemory: int, a: State)
    requires AdmitInv(jobs, maxCpus, maxMemory, a, |jobs|, 0)
    ensures HeadInv(jobs, maxCpus, maxMemory, Advance(a))
    ensures a.t <= Advance(a).t
    ensures AllDurationsPositive(jobs) && a.nextT.Some? ==> a.t < Advance(a).t
    ensures a.nextT.None? ==> a.remaining <= 0
    ensures a.nextT.Some? ==> a.schedule != []
  {
    if a.nextT.Some? {
      AdvanceInv(jobs, maxCpus, maxMemory, a);
      AdvanceRunning(jobs, a);
      AdvanceLive(jobs, maxCpus, maxMemory, a);
    } else {
      NoNextEventOnlyWhenDone(jobs, maxCpus, maxMemory, a);
    }
  }

  /** The retire loop runs over the whole schedule, from the loop-head invariant. */
  lemma RetireLoopKeeps(jobs: seq<seq<Job>>, maxCpus: int, maxMemory: int, e: State)
    requires HeadInv(jobs, maxCpus, maxMemory, e) && e.remaining > 0
    ensures RetireInv(jobs, maxCpus, maxMemory, RetireFrom(jobs, e.(nextT := None), 0),
                      |e.schedule|, e.remaining, e.schedule != [])
  {
    RetireStart(jobs, maxCpus, maxMemory, e);
    RetireFromKeeps(jobs, maxCpus, maxMemory, e.(nextT := None), 0, e.remaining, e.schedule != []);
  }

  /** After the retire loop the admit loop can start, no job has been added to
      `num_remaining_jobs`, and if any job was scheduled one has retired. */
  lemma RetirePassKeeps(jobs: seq<seq<Job>>, maxCpus: int, maxMemory: int, e: State)
    requires HeadInv(jobs, maxCpus, maxMemory, e) && e.remaining > 0
    ensures var r := RetireFrom(jobs, e.(nextT := None), 0);
      && AdmitInv(jobs, maxCpus, maxMemory, r, 0, 0)
      && r.t == e.t && r.schedule == e.schedule
      && r.remaining <= e.remaining
      && (e.schedule != [] ==> r.remaining < e.remaining)
  {
    var r := RetireFrom(jobs, e.(nextT := None), 0);
    RetireLoopKeeps(jobs, maxCpus, maxMemory, e);
    RetireEndIsAdmitStart(jobs, maxCpus, maxMemory, r, e.remaining, e.schedule != []);
  }

  /** The retire and admit phases of one pass, from the loop-head invariant. */
  lemma PhasesKeep(jobs: seq<seq<Job>>, maxCpus: int, maxMemory: int, e: State)
    requires HeadInv(jobs, maxCpus, maxMemory, e) && e.remaining > 0
    ensures var a := Phases(jobs, e);
      && AdmitInv(jobs, maxCpus, maxMemory, a, |jobs|, 0)
      && a.t == e.t
      && a.remaining <= e.remaining
      && (e.schedule != [] ==> a.remaining < e.remaining && a.schedule != [])
  {
    var r := RetireFrom(jobs, e.(nextT := None), 0);
    RetirePassKeeps(jobs, maxCpus, maxMemory, e);
    AdmitFromKeeps(jobs, maxCpus, maxMemory, r, 0, 0);
  }

  /** One pass keeps the loop-head invariant, never raises `num_remaining_jobs`, strictly
      lowers `Measure`, and never moves the clock back; with positive durations the clock
      strictly advances while jobs remain. */
  lemma StepKeeps(jobs: seq<seq<Job>>, maxCpus: int, maxMemory: int, e: State)
    requires HeadInv(jobs, maxCpus, maxMemory, e) && e.remaining > 0
    ensures HeadInv(jobs, maxCpus, maxMemory, Step(jobs, e))
    ensures Step(jobs, e).remaining <= e.remaining
    ensures Measure(Step(jobs, e)) < Measure(e)
    ensures Step(jobs, e).t >= e.t
    ensures AllDurationsPositive(jobs) && Step(jobs, e).remaining > 0 ==> Step(jobs, e).t > e.t
  {
    var a := Phases(jobs, e);
    PhasesKeep(jobs, maxCpus, maxMemory, e);
    AdvanceKeeps(jobs, maxCpus, maxMemory, a);
  }

  /** The state before the first pass: nothing admitted, every pool full. */
  lemma InitInv(jobs: seq<seq<Job>>, samples: seq<Sample>, maxCpus: int, maxMemory: int)
    requires Plan(jobs, |samples|, maxMemory, maxCpus)
    requires forall s :: 0 <= s < |samples| ==> samples[s].stepsCompleted == 0
    ensures var e := Init(jobs, samples, maxCpus, maxMemory);
      && Records(jobs, e) && Scheduled(jobs, e) && Progress(jobs, e) && Ordered(jobs, e)
      && Pools(jobs, maxCpus, maxMemory, e)
  {
    InitPools(jobs, samples, maxCpus, maxMemory);
  }

  /** Before the first pass no job holds anything, so each pool is the machine's capacity. */
  lemma InitPools(jobs: seq<seq<Job>>, samples: seq<Sample>, maxCpus: int, maxMemory: int)
    requires Plan(jobs, |samples|, maxMemory, maxCpus)
    ensures Pools(jobs, maxCpus, maxMemory, Init(jobs, samples, maxCpus, maxMemory))
  {
    var e := Init(jobs, samples, maxCpus, maxMemory);
    assert Pool(jobs, maxCpus, maxMemory, e, Cpus, AllDurationsPositive(jobs));
    assert Pool(jobs, maxCpus, maxMemory, e, Memory, AllDurationsPositive(jobs));
  }

  /** Before the first pass every job is still to come. */
  lemma InitCounters(jobs: seq<seq<Job>>, samples: seq<Sample>, maxCpus: int, maxMemory: int)
    requires Plan(jobs, |samples|, maxMemory, maxCpus)
    requires forall s :: 0 <= s < |samples| ==> samples[s].stepsCompleted == 0
    ensures Counters(jobs, Init(jobs, samples, maxCpus, maxMemory))
  {
    TotalCompletedAtLeast(samples, 0);
    TotalCompletedAtMost(samples, 0);
  }

  /** Before the first pass the loop-head invariant holds, and `Measure` is one more than the
      number of jobs. */
  lemma InitKeeps(jobs: seq<seq<Job>>, samples: seq<Sample>, maxCpus: int, maxMemory: int)
    requires Plan(jobs, |samples|, maxMemory, maxCpus)
    requires forall s :: 0 <= s < |samples| ==> samples[s].stepsCompleted == 0
    ensures HeadInv(jobs, maxCpus, maxMemory, Init(jobs, samples, maxCpus, maxMemory))
    ensures Measure(Init(jobs, samples, maxCpus, maxMemory)) == |jobs| * |samples| + 1
  {
    InitInv(jobs, samples, maxCpus, maxMemory);
    InitCounters(jobs, samples, maxCpus, maxMemory);
  }

  /** `while num_remaining_jobs > 0`, run to its end: it ends, keeps the loop-head
      invariant, leaves no job remaining, and never moves the clock back. */
  function Run(jobs: seq<seq<Job>>, maxCpus: int, maxMemory: int, e: State): (e': State)
    requires HeadInv(jobs, maxCpus, maxMemory, e)
    ensures HeadInv(jobs, maxCpus, maxMemory, e')
    ensures e'.remaining <= 0 && e'.t >= e.t && |e'.samples| == |e.samples|
    decreases Measure(e)
  {
    if e.remaining <= 0 then e
    else
      StepKeeps(jobs, maxCpus, maxMemory, e);
      Run(jobs, maxCpus, maxMemory, Step(jobs, e))
  }

  /** Whatever the durations, the makespan is never negative, and it is 0 when there are no
      tasks or no samples. */
  lemma MakespanBounds(jobs: seq<seq<Job>>, maxCpus: int, maxMemory: int, e: State)
    requires HeadInv(jobs, maxCpus, maxMemory, e)
    ensures e.makespan >= 0
    ensures |jobs| == 0 || |e.samples| == 0 ==> e.makespan == 0
  {
    assert Scheduled(jobs, e) && Counters(jobs, e);
  }

  /** With every duration positive, once no scheduled job runs every resource is back in
      its pool. */
  lemma PoolsRestored(jobs: seq<seq<Job>>, maxCpus: int, maxMemory: int, e: State)
    requires Pools(jobs, maxCpus, maxMemory, e) && AllDurationsPositive(jobs)
    requires forall i :: 0 <= i < |e.schedule| ==> !e.run[e.schedule[i].task][e.schedule[i].sample].isRunning
    ensures e.availableCpus == maxCpus && e.availableMem == maxMemory
  {
    InUseIdle(jobs, e.run, e.schedule, Cpus);
    InUseIdle(jobs, e.run, e.schedule, Memory);
    assert Pool(jobs, maxCpus, maxMemory, e, Cpus, true);
    assert Pool(jobs, maxCpus, maxMemory, e, Memory, true);
  }

  /** With positive durations, when no job remains every sample has completed every step. */
  lemma AllStepsCompleted(jobs: seq<seq<Job>>, e: State)
    requires Counters(jobs, e) && Ordered(jobs, e) && e.remaining <= 0
    ensures e.remaining == 0
    ensures forall s :: 0 <= s < |e.samples| ==> e.samples[s].stepsCompleted == |jobs|
  {
    TotalCompletedAtMost(e.samples, |jobs|);
  }

  /** With positive durations, once every sample has completed every step, every job was
      admitted, ran for its duration from a start time `>= 0`, and has finished. */
  lemma AllJobsFinished(jobs: seq<seq<Job>>, e: State)
    requires Records(jobs, e) && Scheduled(jobs, e) && Ordered(jobs, e)
    requires forall s :: 0 <= s < |e.samples| ==> e.samples[s].stepsCompleted == |jobs|
    ensures forall k, s :: 0 <= k < |jobs| && 0 <= s < |e.samples| ==>
      Finished(e.run[k][s]) && RecordOk(jobs[k][s], e.run[k][s]) && JobId(k, s) in e.schedule
  {
    forall k, s | 0 <= k < |jobs| && 0 <= s < |e.samples|
      ensures Finished(e.run[k][s]) && RecordOk(jobs[k][s], e.run[k][s]) && JobId(k, s) in e.schedule
    {
      assert k < e.samples[s].stepsCompleted;
    }
  }

  /** Whatever the durations, the makespan is the latest end time over all jobs, counting a
      job never admitted as ending at 0. */
  lemma MakespanIsLatestEnd(jobs: seq<seq<Job>>, e: State)
    requires Records(jobs, e) && Scheduled(jobs, e) && Counters(jobs, e)
    ensures forall k, s :: 0 <= k < |jobs| && 0 <= s < |e.samples| ==> EndOf(e.run[k][s]) <= e.makespan
    ensures |jobs| > 0 && |e.samples| > 0 ==>
      exists k, s :: 0 <= k < |jobs| && 0 <= s < |e.samples| && EndOf(e.run[k][s]) == e.makespan
  {
    forall k, s | 0 <= k < |jobs| && 0 <= s < |e.samples|
      ensures EndOf(e.run[k][s]) <= e.makespan
    {
      if Started(e.run[k][s]) {
        assert JobId(k, s) in e.schedule;
        var i :| 0 <= i < |e.schedule| && e.schedule[i] == JobId(k, s);
        assert EndOf(e.run[e.schedule[i].task][e.schedule[i].sample]) <= e.makespan;
      }
    }
    if |jobs| > 0 && |e.samples| > 0 {
      if e.makespan == 0 {
        assert RecordOk(jobs[0][0], e.run[0][0]);
        assert EndOf(e.run[0][0]) == e.makespan;
      } else {
        var i :| 0 <= i < |e.schedule| && EndOf(e.run[e.schedule[i].task][e.schedule[i].sample]) == e.makespan;
        var id := e.schedule[i];
        assert EndOf(e.run[id.task][id.sample]) == e.makespan;
      }
    }
  }

  /** When the loop has ended and every job takes at least one time unit: no job remains,
      every sample has completed every step, every job was admitted exactly once, ran for
      its duration from a start time `>= 0`, and has finished; each stage of a sample started
      no earlier than its earlier stages ended; every resource is back in its pool; and the
      makespan is the latest end time over all jobs. */
  lemma Completion(jobs: seq<seq<Job>>, maxCpus: int, maxMemory: int, e: State)
    requires HeadInv(jobs, maxCpus, maxMemory, e) && e.remaining <= 0 && AllDurationsPositive(jobs)
    ensures e.remaining == 0
    ensures forall s :: 0 <= s < |e.samples| ==> e.samples[s].stepsCompleted == |jobs|
    ensures forall k, s :: 0 <= k < |jobs| && 0 <= s < |e.samples| ==>
      Finished(e.run[k][s]) && RecordOk(jobs[k][s], e.run[k][s]) && JobId(k, s) in e.schedule
    ensures NoDuplicates(e.schedule)
    ensures Precedence(e.run)
    ensures e.availableCpus == maxCpus && e.availableMem == maxMemory
    ensures forall k, s :: 0 <= k < |jobs| && 0 <= s < |e.samples| ==> EndOf(e.run[k][s]) <= e.makespan
    ensures |jobs| > 0 && |e.samples| > 0 ==>
      exists k, s :: 0 <= k < |jobs| && 0 <= s < |e.samples| && EndOf(e.run[k][s]) == e.makespan
  {
    AllStepsCompleted(jobs, e);
    AllJobsFinished(jobs, e);
    MakespanIsLatestEnd(jobs, e);
    forall i | 0 <= i < |e.schedule| ensures !e.run[e.schedule[i].task][e.schedule[i].sample].isRunning {
      var id := e.schedule[i];
      assert Finished(e.run[id.task][id.sample]);
    }
    PoolsRestored(jobs, maxCpus, maxMemory, e);
  }
}
