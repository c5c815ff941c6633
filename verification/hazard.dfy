/** The retire loop of `calc_makespan` gives back a job's resources whenever its end time
    equals the clock, without asking whether the job is still running. A job of length zero
    admitted at time `t` keeps the clock at `t` for one more pass, and in that pass a job
    already retired at `t` is retired a second time. Its CPUs and memory are counted twice
    and its sample's step count runs ahead, so a later task's job of that sample is never
    admitted. This module follows one such input pass by
    pass: two files of sizes 0 and 10, two one-CPU tasks taking one time unit per size unit
    and no memory, and a single CPU. The jobs of the second file take 10 units each and
    cannot overlap, so the evident intended makespan is 20; the loop as written returns 10
    and ends with two free CPUs on a one-CPU machine. */
module Hazard {
  import opened Wrappers
  import opened Tasks
  import opened Jobs
  import opened EventLoop
  import opened Makespan
  import opened Examples

  const First: PipelineTask := PipelineTask(0, 1, 0, 1)
  const Second: PipelineTask := PipelineTask(1, 1, 0, 1)

  /** Two tasks already in step order pass the step check unchanged. */
  lemma TwoTasksSorted()
    ensures SortByStep([First, Second]) == [First, Second] && StepsValid([First, Second])
  {
    SortTwoInOrder(First, Second);
  }

  /** The file of size 0 gives jobs of length 0; the file of size 10 gives jobs of length 10;
      none needs memory. */
  lemma HazardMatrix()
    ensures BuildJobs(NewSamples([0, 10]), [First, Second]) ==
      [[Job(0, 0, 0, 0, 1), Job(1, 0, 10, 0, 1)], [Job(0, 1, 0, 0, 1), Job(1, 1, 10, 0, 1)]]
  {
    var samples := NewSamples([0, 10]);
    assert samples == [Sample(0, 0, 0), Sample(1, 10, 0)];
    var jobs := BuildJobs(samples, [First, Second]);
    assert DefaultParallel(0, 1, 1) == 0 && DefaultParallel(10, 1, 1) == 10;
    assert jobs[0] == [Job(0, 0, 0, 0, 1), Job(1, 0, 10, 0, 1)];
    assert jobs[1] == [Job(0, 1, 0, 0, 1), Job(1, 1, 10, 0, 1)];
  }

  /** The job matrix `calc_makespan` builds for the input. */
  lemma HazardJobs()
    ensures CpusPositive([First, Second])
    ensures AllJobs([0, 10], [First, Second]) ==
      [[Job(0, 0, 0, 0, 1), Job(1, 0, 10, 0, 1)], [Job(0, 1, 0, 0, 1), Job(1, 1, 10, 0, 1)]]
  {
    TwoTasksSorted();
    AllJobsOfSorted([0, 10], [First, Second]);
    HazardMatrix();
  }

  /** Every job of the input fits a machine with one CPU and 100 memory. */
  lemma HazardFits()
    ensures AllFit([[Job(0, 0, 0, 0, 1), Job(1, 0, 10, 0, 1)], [Job(0, 1, 0, 0, 1), Job(1, 1, 10, 0, 1)]], 100, 1)
  {
  }

  /** The input passes both checks on one CPU and 100 memory. */
  lemma HazardChecks()
    ensures StepsValid(SortByStep([First, Second])) && AllFit(AllJobs([0, 10], [First, Second]), 100, 1)
  {
    TwoTasksSorted();
    HazardJobs();
    HazardFits();
  }

  /** Updating one record of a two-by-two matrix. */
  lemma SetGridRun(a: RunState, b: RunState, c: RunState, d: RunState, r: RunState)
    ensures SetRun([[a, b], [c, d]], JobId(0, 0), r) == [[r, b], [c, d]]
    ensures SetRun([[a, b], [c, d]], JobId(0, 1), r) == [[a, r], [c, d]]
    ensures SetRun([[a, b], [c, d]], JobId(1, 0), r) == [[a, b], [r, d]]
  {
    var run0 := SetRun([[a, b], [c, d]], JobId(0, 0), r);
    assert run0[0] == [r, b] && run0[1] == [c, d];
    var run1 := SetRun([[a, b], [c, d]], JobId(0, 1), r);
    assert run1[0] == [a, r] && run1[1] == [c, d];
    var run2 := SetRun([[a, b], [c, d]], JobId(1, 0), r);
    assert run2[0] == [a, b] && run2[1] == [r, d];
  }

  /** Pass 1 at 0: the zero-length job of the first file starts and ends at 0 and takes the
      only CPU. */
  lemma HazardPass1()
    ensures Step([[Job(0, 0, 0, 0, 1), Job(1, 0, 10, 0, 1)], [Job(0, 1, 0, 0, 1), Job(1, 1, 10, 0, 1)]],
                 State([Sample(0, 0, 0), Sample(1, 10, 0)], [[Unscheduled, Unscheduled], [Unscheduled, Unscheduled]],
                       [], 1, 100, 4, 0, 0, None)) ==
      State([Sample(0, 0, 0), Sample(1, 10, 0)],
            [[RunState(true, Some(0), Some(0)), Unscheduled], [Unscheduled, Unscheduled]],
            [JobId(0, 0)], 0, 100, 4, 0, 0, Some(0))
  {
    var jobs := [[Job(0, 0, 0, 0, 1), Job(1, 0, 10, 0, 1)], [Job(0, 1, 0, 0, 1), Job(1, 1, 10, 0, 1)]];
    var e := State([Sample(0, 0, 0), Sample(1, 10, 0)], [[Unscheduled, Unscheduled], [Unscheduled, Unscheduled]],
                   [], 1, 100, 4, 0, 0, None);
    var a := State([Sample(0, 0, 0), Sample(1, 10, 0)],
                   [[RunState(true, Some(0), Some(0)), Unscheduled], [Unscheduled, Unscheduled]],
                   [JobId(0, 0)], 0, 100, 4, 0, 0, Some(0));
    assert RetireFrom(jobs, e, 0) == e;
    SetGridRun(Unscheduled, Unscheduled, Unscheduled, Unscheduled, RunState(true, Some(0), Some(0)));
    assert AdmitAt(jobs, e, 0, 0) == a;
    assert AdmitAt(jobs, a, 0, 1) == a;
    assert AdmitAt(jobs, a, 1, 0) == a;
    assert AdmitAt(jobs, a, 1, 1) == a;
    assert AdmitFrom(jobs, a, 2, 0) == a;
    assert AdmitFrom(jobs, a, 1, 2) == a;
    assert AdmitFrom(jobs, a, 1, 0) == a;
    assert AdmitFrom(jobs, a, 0, 2) == a;
    assert AdmitFrom(jobs, a, 0, 1) == a;
    assert Phases(jobs, e) == a;
  }

  /** Pass 2, still at 0: the zero-length job retires and the second file's first job takes
      the CPU until 10. */
  lemma HazardPass2()
    ensures Step([[Job(0, 0, 0, 0, 1), Job(1, 0, 10, 0, 1)], [Job(0, 1, 0, 0, 1), Job(1, 1, 10, 0, 1)]],
                 State([Sample(0, 0, 0), Sample(1, 10, 0)],
                       [[RunState(true, Some(0), Some(0)), Unscheduled], [Unscheduled, Unscheduled]],
                       [JobId(0, 0)], 0, 100, 4, 0, 0, Some(0))) ==
      State([Sample(0, 0, 1), Sample(1, 10, 0)],
            [[RunState(false, Some(0), Some(0)), RunState(true, Some(0), Some(10))], [Unscheduled, Unscheduled]],
            [JobId(0, 0), JobId(0, 1)], 0, 100, 3, 10, 10, Some(10))
  {
    var jobs := [[Job(0, 0, 0, 0, 1), Job(1, 0, 10, 0, 1)], [Job(0, 1, 0, 0, 1), Job(1, 1, 10, 0, 1)]];
    var e := State([Sample(0, 0, 0), Sample(1, 10, 0)],
                   [[RunState(true, Some(0), Some(0)), Unscheduled], [Unscheduled, Unscheduled]],
                   [JobId(0, 0)], 0, 100, 4, 0, 0, None);
    var r := State([Sample(0, 0, 1), Sample(1, 10, 0)],
                   [[RunState(false, Some(0), Some(0)), Unscheduled], [Unscheduled, Unscheduled]],
                   [JobId(0, 0)], 1, 100, 3, 0, 0, None);
    var a := State([Sample(0, 0, 1), Sample(1, 10, 0)],
                   [[RunState(false, Some(0), Some(0)), RunState(true, Some(0), Some(10))], [Unscheduled, Unscheduled]],
                   [JobId(0, 0), JobId(0, 1)], 0, 100, 3, 10, 0, Some(10));
    SetGridRun(RunState(true, Some(0), Some(0)), Unscheduled, Unscheduled, Unscheduled, RunState(false, Some(0), Some(0)));
    assert e.samples[0 := Sample(0, 0, 1)] == r.samples;
    assert RetireAt(jobs, e, 0) == r;
    assert RetireFrom(jobs, r, 1) == r;
    assert AdmitAt(jobs, r, 0, 0) == r;
    SetGridRun(RunState(false, Some(0), Some(0)), Unscheduled, Unscheduled, Unscheduled, RunState(true, Some(0), Some(10)));
    assert AdmitAt(jobs, r, 0, 1) == a;
    assert AdmitAt(jobs, a, 1, 0) == a;
    assert AdmitAt(jobs, a, 1, 1) == a;
    assert AdmitFrom(jobs, a, 2, 0) == a;
    assert AdmitFrom(jobs, a, 1, 2) == a;
    assert AdmitFrom(jobs, a, 1, 0) == a;
    assert AdmitFrom(jobs, a, 0, 2) == a;
    assert AdmitFrom(jobs, r, 0, 0) == a;
    assert Phases(jobs, e) == a;
  }

  /** Pass 3 at 10: the second file's first job retires and the first file's second job
      starts, again of length zero, on the freed CPU; the clock stays at 10. */
  lemma HazardPass3()
    ensures Step([[Job(0, 0, 0, 0, 1), Job(1, 0, 10, 0, 1)], [Job(0, 1, 0, 0, 1), Job(1, 1, 10, 0, 1)]],
                 State([Sample(0, 0, 1), Sample(1, 10, 0)],
                       [[RunState(false, Some(0), Some(0)), RunState(true, Some(0), Some(10))], [Unscheduled, Unscheduled]],
                       [JobId(0, 0), JobId(0, 1)], 0, 100, 3, 10, 10, Some(10))) ==
      State([Sample(0, 0, 1), Sample(1, 10, 1)],
            [[RunState(false, Some(0), Some(0)), RunState(false, Some(0), Some(10))],
             [RunState(true, Some(10), Some(10)), Unscheduled]],
            [JobId(0, 0), JobId(0, 1), JobId(1, 0)], 0, 100, 2, 10, 10, Some(10))
  {
    var jobs := [[Job(0, 0, 0, 0, 1), Job(1, 0, 10, 0, 1)], [Job(0, 1, 0, 0, 1), Job(1, 1, 10, 0, 1)]];
    var e := State([Sample(0, 0, 1), Sample(1, 10, 0)],
                   [[RunState(false, Some(0), Some(0)), RunState(true, Some(0), Some(10))], [Unscheduled, Unscheduled]],
                   [JobId(0, 0), JobId(0, 1)], 0, 100, 3, 10, 10, None);
    var r := State([Sample(0, 0, 1), Sample(1, 10, 1)],
                   [[RunState(false, Some(0), Some(0)), RunState(false, Some(0), Some(10))], [Unscheduled, Unscheduled]],
                   [JobId(0, 0), JobId(0, 1)], 1, 100, 2, 10, 10, None);
    var a := State([Sample(0, 0, 1), Sample(1, 10, 1)],
                   [[RunState(false, Some(0), Some(0)), RunState(false, Some(0), Some(10))],
                    [RunState(true, Some(10), Some(10)), Unscheduled]],
                   [JobId(0, 0), JobId(0, 1), JobId(1, 0)], 0, 100, 2, 10, 10, Some(10));
    assert RetireAt(jobs, e, 0) == e;
    SetGridRun(RunState(false, Some(0), Some(0)), RunState(true, Some(0), Some(10)), Unscheduled, Unscheduled,
               RunState(false, Some(0), Some(10)));
    assert e.samples[1 := Sample(1, 10, 1)] == r.samples;
    assert RetireAt(jobs, e, 1) == r;
    assert RetireFrom(jobs, r, 2) == r;
    assert RetireFrom(jobs, e, 0) == r;
    assert AdmitAt(jobs, r, 0, 0) == r;
    assert AdmitAt(jobs, r, 0, 1) == r;
    SetGridRun(RunState(false, Some(0), Some(0)), RunState(false, Some(0), Some(10)), Unscheduled, Unscheduled,
               RunState(true, Some(10), Some(10)));
    assert AdmitAt(jobs, r, 1, 0) == a;
    assert AdmitAt(jobs, a, 1, 1) == a;
    assert AdmitFrom(jobs, a, 2, 0) == a;
    assert AdmitFrom(jobs, a, 1, 2) == a;
    assert AdmitFrom(jobs, r, 1, 0) == a;
    assert AdmitFrom(jobs, r, 0, 2) == a;
    assert AdmitFrom(jobs, r, 0, 0) == a;
    assert Phases(jobs, e) == a;
  }

  /** Pass 4, still at 10: the second file's first job, finished in pass 3, ends "now" again
      and is retired a second time, next to the zero-length job that really ends now. Two
      CPUs are handed back on a one-CPU machine, the second file's step count jumps to 2,
      no job is left to count, and the second file's second job is never admitted. */
  lemma HazardPass4()
    ensures Step([[Job(0, 0, 0, 0, 1), Job(1, 0, 10, 0, 1)], [Job(0, 1, 0, 0, 1), Job(1, 1, 10, 0, 1)]],
                 State([Sample(0, 0, 1), Sample(1, 10, 1)],
                       [[RunState(false, Some(0), Some(0)), RunState(false, Some(0), Some(10))],
                        [RunState(true, Some(10), Some(10)), Unscheduled]],
                       [JobId(0, 0), JobId(0, 1), JobId(1, 0)], 0, 100, 2, 10, 10, Some(10))) ==
      State([Sample(0, 0, 2), Sample(1, 10, 2)],
            [[RunState(false, Some(0), Some(0)), RunState(false, Some(0), Some(10))],
             [RunState(false, Some(10), Some(10)), Unscheduled]],
            [JobId(0, 0), JobId(0, 1), JobId(1, 0)], 2, 100, 0, 10, 10, None)
  {
    var jobs := [[Job(0, 0, 0, 0, 1), Job(1, 0, 10, 0, 1)], [Job(0, 1, 0, 0, 1), Job(1, 1, 10, 0, 1)]];
    var run := [[RunState(false, Some(0), Some(0)), RunState(false, Some(0), Some(10))],
                [RunState(true, Some(10), Some(10)), Unscheduled]];
    var run' := [[RunState(false, Some(0), Some(0)), RunState(false, Some(0), Some(10))],
                 [RunState(false, Some(10), Some(10)), Unscheduled]];
    var sched := [JobId(0, 0), JobId(0, 1), JobId(1, 0)];
    var e := State([Sample(0, 0, 1), Sample(1, 10, 1)], run, sched, 0, 100, 2, 10, 10, None);
    var r1 := State([Sample(0, 0, 1), Sample(1, 10, 2)], run, sched, 1, 100, 1, 10, 10, None);
    var r2 := State([Sample(0, 0, 2), Sample(1, 10, 2)], run', sched, 2, 100, 0, 10, 10, None);
    assert RetireAt(jobs, e, 0) == e;
    SetGridRun(run[0][0], run[0][1], run[1][0], run[1][1], RunState(false, Some(0), Some(10)));
    assert e.samples[1 := Sample(1, 10, 2)] == r1.samples;
    assert RetireAt(jobs, e, 1) == r1;
    SetGridRun(run[0][0], run[0][1], run[1][0], run[1][1], RunState(false, Some(10), Some(10)));
    assert r1.samples[0 := Sample(0, 0, 2)] == r2.samples;
    assert RetireAt(jobs, r1, 2) == r2;
    assert RetireFrom(jobs, r2, 3) == r2;
    assert RetireFrom(jobs, r1, 2) == r2;
    assert RetireFrom(jobs, e, 0) == r2;
    assert AdmitAt(jobs, r2, 0, 0) == r2;
    assert AdmitAt(jobs, r2, 0, 1) == r2;
    assert AdmitAt(jobs, r2, 1, 0) == r2;
    assert AdmitAt(jobs, r2, 1, 1) == r2;
    assert AdmitFrom(jobs, r2, 2, 0) == r2;
    assert AdmitFrom(jobs, r2, 1, 2) == r2;
    assert AdmitFrom(jobs, r2, 1, 1) == r2;
    assert AdmitFrom(jobs, r2, 1, 0) == r2;
    assert AdmitFrom(jobs, r2, 0, 2) == r2;
    assert AdmitFrom(jobs, r2, 0, 1) == r2;
    assert AdmitFrom(jobs, r2, 0, 0) == r2;
    assert Phases(jobs, e) == r2;
  }

  /** From the state after pass 2 the loop passes through two more states and stops. */
  lemma HazardTail()
    ensures Leads([[Job(0, 0, 0, 0, 1), Job(1, 0, 10, 0, 1)], [Job(0, 1, 0, 0, 1), Job(1, 1, 10, 0, 1)]],
      State([Sample(0, 0, 1), Sample(1, 10, 0)],
            [[RunState(false, Some(0), Some(0)), RunState(true, Some(0), Some(10))], [Unscheduled, Unscheduled]],
            [JobId(0, 0), JobId(0, 1)], 0, 100, 3, 10, 10, Some(10)),
      [State([Sample(0, 0, 1), Sample(1, 10, 1)],
            [[RunState(false, Some(0), Some(0)), RunState(false, Some(0), Some(10))],
             [RunState(true, Some(10), Some(10)), Unscheduled]],
            [JobId(0, 0), JobId(0, 1), JobId(1, 0)], 0, 100, 2, 10, 10, Some(10)),
       State([Sample(0, 0, 2), Sample(1, 10, 2)],
            [[RunState(false, Some(0), Some(0)), RunState(false, Some(0), Some(10))],
             [RunState(false, Some(10), Some(10)), Unscheduled]],
            [JobId(0, 0), JobId(0, 1), JobId(1, 0)], 2, 100, 0, 10, 10, None)])
  {
    var jobs := [[Job(0, 0, 0, 0, 1), Job(1, 0, 10, 0, 1)], [Job(0, 1, 0, 0, 1), Job(1, 1, 10, 0, 1)]];
    var e3 := State([Sample(0, 0, 1), Sample(1, 10, 1)],
               [[RunState(false, Some(0), Some(0)), RunState(false, Some(0), Some(10))],
                [RunState(true, Some(10), Some(10)), Unscheduled]],
               [JobId(0, 0), JobId(0, 1), JobId(1, 0)], 0, 100, 2, 10, 10, Some(10));
    var e4 := State([Sample(0, 0, 2), Sample(1, 10, 2)],
               [[RunState(false, Some(0), Some(0)), RunState(false, Some(0), Some(10))],
                [RunState(false, Some(10), Some(10)), Unscheduled]],
               [JobId(0, 0), JobId(0, 1), JobId(1, 0)], 2, 100, 0, 10, 10, None);
    HazardPass3();
    HazardPass4();
    assert [e3, e4][1..] == [e4];
    assert Leads(jobs, e4, []);
    assert Leads(jobs, e3, [e4]);
  }

  /** The state before the first pass. */
  lemma HazardInit()
    ensures Init([[Job(0, 0, 0, 0, 1), Job(1, 0, 10, 0, 1)], [Job(0, 1, 0, 0, 1), Job(1, 1, 10, 0, 1)]], NewSamples([0, 10]), 1, 100) ==
      State([Sample(0, 0, 0), Sample(1, 10, 0)], [[Unscheduled, Unscheduled], [Unscheduled, Unscheduled]],
            [], 1, 100, 4, 0, 0, None)
  {
    var jobs := [[Job(0, 0, 0, 0, 1), Job(1, 0, 10, 0, 1)], [Job(0, 1, 0, 0, 1), Job(1, 1, 10, 0, 1)]];
    assert NewSamples([0, 10]) == [Sample(0, 0, 0), Sample(1, 10, 0)];
    var init := Init(jobs, [Sample(0, 0, 0), Sample(1, 10, 0)], 1, 100);
    assert init.run[0] == [Unscheduled, Unscheduled] && init.run[1] == [Unscheduled, Unscheduled];
  }

  /** From the state after pass 1 the loop passes through three more states and stops. */
  lemma HazardMiddle()
    ensures Leads([[Job(0, 0, 0, 0, 1), Job(1, 0, 10, 0, 1)], [Job(0, 1, 0, 0, 1), Job(1, 1, 10, 0, 1)]],
      State([Sample(0, 0, 0), Sample(1, 10, 0)],
            [[RunState(true, Some(0), Some(0)), Unscheduled], [Unscheduled, Unscheduled]],
            [JobId(0, 0)], 0, 100, 4, 0, 0, Some(0)),
      [State([Sample(0, 0, 1), Sample(1, 10, 0)],
            [[RunState(false, Some(0), Some(0)), RunState(true, Some(0), Some(10))], [Unscheduled, Unscheduled]],
            [JobId(0, 0), JobId(0, 1)], 0, 100, 3, 10, 10, Some(10)),
       State([Sample(0, 0, 1), Sample(1, 10, 1)],
            [[RunState(false, Some(0), Some(0)), RunState(false, Some(0), Some(10))],
             [RunState(true, Some(10), Some(10)), Unscheduled]],
            [JobId(0, 0), JobId(0, 1), JobId(1, 0)], 0, 100, 2, 10, 10, Some(10)),
       State([Sample(0, 0, 2), Sample(1, 10, 2)],
            [[RunState(false, Some(0), Some(0)), RunState(false, Some(0), Some(10))],
             [RunState(false, Some(10), Some(10)), Unscheduled]],
            [JobId(0, 0), JobId(0, 1), JobId(1, 0)], 2, 100, 0, 10, 10, None)])
  {
    var jobs := [[Job(0, 0, 0, 0, 1), Job(1, 0, 10, 0, 1)], [Job(0, 1, 0, 0, 1), Job(1, 1, 10, 0, 1)]];
    var e2 := State([Sample(0, 0, 1), Sample(1, 10, 0)],
               [[RunState(false, Some(0), Some(0)), RunState(true, Some(0), Some(10))], [Unscheduled, Unscheduled]],
               [JobId(0, 0), JobId(0, 1)], 0, 100, 3, 10, 10, Some(10));
    var e3 := State([Sample(0, 0, 1), Sample(1, 10, 1)],
               [[RunState(false, Some(0), Some(0)), RunState(false, Some(0), Some(10))],
                [RunState(true, Some(10), Some(10)), Unscheduled]],
               [JobId(0, 0), JobId(0, 1), JobId(1, 0)], 0, 100, 2, 10, 10, Some(10));
    var e4 := State([Sample(0, 0, 2), Sample(1, 10, 2)],
               [[RunState(false, Some(0), Some(0)), RunState(false, Some(0), Some(10))],
                [RunState(false, Some(10), Some(10)), Unscheduled]],
               [JobId(0, 0), JobId(0, 1), JobId(1, 0)], 2, 100, 0, 10, 10, None);
    HazardPass2();
    HazardTail();
    assert [e2, e3, e4][1..] == [e3, e4];
  }

  /** From the initial state the loop passes through four states and stops. */
  lemma HazardLeads()
    ensures Leads([[Job(0, 0, 0, 0, 1), Job(1, 0, 10, 0, 1)], [Job(0, 1, 0, 0, 1), Job(1, 1, 10, 0, 1)]],
      Init([[Job(0, 0, 0, 0, 1), Job(1, 0, 10, 0, 1)], [Job(0, 1, 0, 0, 1), Job(1, 1, 10, 0, 1)]], NewSamples([0, 10]), 1, 100),
      [State([Sample(0, 0, 0), Sample(1, 10, 0)],
            [[RunState(true, Some(0), Some(0)), Unscheduled], [Unscheduled, Unscheduled]],
            [JobId(0, 0)], 0, 100, 4, 0, 0, Some(0)),
       State([Sample(0, 0, 1), Sample(1, 10, 0)],
            [[RunState(false, Some(0), Some(0)), RunState(true, Some(0), Some(10))], [Unscheduled, Unscheduled]],
            [JobId(0, 0), JobId(0, 1)], 0, 100, 3, 10, 10, Some(10)),
       State([Sample(0, 0, 1), Sample(1, 10, 1)],
            [[RunState(false, Some(0), Some(0)), RunState(false, Some(0), Some(10))],
             [RunState(true, Some(10), Some(10)), Unscheduled]],
            [JobId(0, 0), JobId(0, 1), JobId(1, 0)], 0, 100, 2, 10, 10, Some(10)),
       State([Sample(0, 0, 2), Sample(1, 10, 2)],
            [[RunState(false, Some(0), Some(0)), RunState(false, Some(0), Some(10))],
             [RunState(false, Some(10), Some(10)), Unscheduled]],
            [JobId(0, 0), JobId(0, 1), JobId(1, 0)], 2, 100, 0, 10, 10, None)])
  {
    var e1 := State([Sample(0, 0, 0), Sample(1, 10, 0)],
               [[RunState(true, Some(0), Some(0)), Unscheduled], [Unscheduled, Unscheduled]],
               [JobId(0, 0)], 0, 100, 4, 0, 0, Some(0));
    var e2 := State([Sample(0, 0, 1), Sample(1, 10, 0)],
               [[RunState(false, Some(0), Some(0)), RunState(true, Some(0), Some(10))], [Unscheduled, Unscheduled]],
               [JobId(0, 0), JobId(0, 1)], 0, 100, 3, 10, 10, Some(10));
    var e3 := State([Sample(0, 0, 1), Sample(1, 10, 1)],
               [[RunState(false, Some(0), Some(0)), RunState(false, Some(0), Some(10))],
                [RunState(true, Some(10), Some(10)), Unscheduled]],
               [JobId(0, 0), JobId(0, 1), JobId(1, 0)], 0, 100, 2, 10, 10, Some(10));
    var e4 := State([Sample(0, 0, 2), Sample(1, 10, 2)],
               [[RunState(false, Some(0), Some(0)), RunState(false, Some(0), Some(10))],
                [RunState(false, Some(10), Some(10)), Unscheduled]],
               [JobId(0, 0), JobId(0, 1), JobId(1, 0)], 2, 100, 0, 10, 10, None);
    HazardInit();
    HazardPass1();
    HazardMiddle();
    assert [e1, e2, e3, e4][1..] == [e2, e3, e4];
  }

  /** As written, `calc_makespan` returns 10 for this input, not the 20 that its two
      back-to-back jobs of length 10 need, and the loop ends with two free CPUs on a one-CPU
      machine, the second file's step count at 2 after a single completed job, and that
      file's second job never admitted. */
  lemma FinishedJobRetiredAgain()
    ensures StepsValid(SortByStep([First, Second])) && AllFit(AllJobs([0, 10], [First, Second]), 100, 1)
    ensures FinalState([0, 10], 100, 1, [First, Second]) ==
      State([Sample(0, 0, 2), Sample(1, 10, 2)],
            [[RunState(false, Some(0), Some(0)), RunState(false, Some(0), Some(10))],
             [RunState(false, Some(10), Some(10)), Unscheduled]],
            [JobId(0, 0), JobId(0, 1), JobId(1, 0)], 2, 100, 0, 10, 10, None)
    ensures Simulate([0, 10], 100, 1, [First, Second]) == 10
  {
    HazardJobs();
    HazardChecks();
    HazardLeads();
    var e1 := State([Sample(0, 0, 0), Sample(1, 10, 0)],
               [[RunState(true, Some(0), Some(0)), Unscheduled], [Unscheduled, Unscheduled]],
               [JobId(0, 0)], 0, 100, 4, 0, 0, Some(0));
    var e2 := State([Sample(0, 0, 1), Sample(1, 10, 0)],
               [[RunState(false, Some(0), Some(0)), RunState(true, Some(0), Some(10))], [Unscheduled, Unscheduled]],
               [JobId(0, 0), JobId(0, 1)], 0, 100, 3, 10, 10, Some(10));
    var e3 := State([Sample(0, 0, 1), Sample(1, 10, 1)],
               [[RunState(false, Some(0), Some(0)), RunState(false, Some(0), Some(10))],
                [RunState(true, Some(10), Some(10)), Unscheduled]],
               [JobId(0, 0), JobId(0, 1), JobId(1, 0)], 0, 100, 2, 10, 10, Some(10));
    var e4 := State([Sample(0, 0, 2), Sample(1, 10, 2)],
               [[RunState(false, Some(0), Some(0)), RunState(false, Some(0), Some(10))],
                [RunState(false, Some(10), Some(10)), Unscheduled]],
               [JobId(0, 0), JobId(0, 1), JobId(1, 0)], 2, 100, 0, 10, 10, None);
    FinalTrace([0, 10], 100, 1, [First, Second],
               [[Job(0, 0, 0, 0, 1), Job(1, 0, 10, 0, 1)], [Job(0, 1, 0, 0, 1), Job(1, 1, 10, 0, 1)]], [e1, e2, e3, e4]);
    SimulateIsFinal([0, 10], 100, 1, [First, Second]);
  }
}
