/** The admit loop keeps `AdmitInv`: an admitted job takes its resources at once, starts now,
    joins the schedule and becomes a candidate next event; and once the scan is complete, no
    job that may start still fits in what is free. */
module AdmitProofs {
  import opened Wrappers
  import opened Jobs
  import opened EventLoop
  import opened Accounting
  import opened Invariants

  /** An eligible job has not been admitted before, and its sample stands at its step. */
  lemma EligibleIsFresh(jobs: seq<seq<Job>>, maxCpus: int, maxMemory: int, e: State, k: nat, s: nat)
    requires Inv(jobs, maxCpus, maxMemory, e) && k < |jobs| && s < |e.samples| && Eligible(jobs, e, k, s)
    ensures e.run[k][s] == Unscheduled && JobId(k, s) !in e.schedule
    ensures e.samples[s].stepsCompleted == k
  {
    assert RecordOk(jobs[k][s], e.run[k][s]);
    assert !Started(e.run[k][s]);
    assert forall i :: 0 <= i < |e.schedule| ==> e.schedule[i] != JobId(k, s);
  }

  /** What admitting job `(k, s)` does to the state, spelled out for the lemmas below. */
  predicate Admitted(jobs: seq<seq<Job>>, e: State, k: nat, s: nat, e': State)
    requires Shaped(jobs, e) && k < |jobs| && s < |e.samples|
  {
    var job := jobs[k][s];
    var end := e.t + job.duration;
    && e' == AdmitAt(jobs, e, k, s)
    && e.run[k][s] == Unscheduled && JobId(k, s) !in e.schedule
    && e'.run == SetRun(e.run, JobId(k, s), RunState(true, Some(e.t), Some(end)))
    && e'.schedule == e.schedule + [JobId(k, s)]
    && e'.availableCpus == e.availableCpus - job.cpus && e'.availableMem == e.availableMem - job.memory
    && e'.nextT == Some(MinNext(e.nextT, end)) && e'.makespan == Max(e.makespan, end)
    && e'.samples == e.samples && e'.t == e.t && e'.remaining == e.remaining
    && FitsFree(job, e)
    && e.samples[s].stepsCompleted == k
  }

  lemma AdmittedFacts(jobs: seq<seq<Job>>, maxCpus: int, maxMemory: int, e: State, k: nat, s: nat)
    requires Inv(jobs, maxCpus, maxMemory, e) && k < |jobs| && s < |e.samples|
    requires Eligible(jobs, e, k, s) && FitsFree(jobs[k][s], e)
    ensures Admitted(jobs, e, k, s, AdmitAt(jobs, e, k, s))
  {
    EligibleIsFresh(jobs, maxCpus, maxMemory, e, k, s);
  }

  lemma AdmitRecords(jobs: seq<seq<Job>>, e: State, k: nat, s: nat, e': State)
    requires Records(jobs, e) && Counters(jobs, e) && k < |jobs| && s < |e.samples| && Admitted(jobs, e, k, s, e')
    ensures Records(jobs, e')
  {
  }

  lemma AdmitScheduled(jobs: seq<seq<Job>>, e: State, k: nat, s: nat, e': State)
    requires Scheduled(jobs, e) && k < |jobs| && s < |e.samples| && Admitted(jobs, e, k, s, e')
    ensures Scheduled(jobs, e')
  {
    var id := JobId(k, s);
    forall i | 0 <= i < |e'.schedule| ensures Started(RunAt(e', e'.schedule[i])) {
      if i < |e.schedule| {
        assert e'.schedule[i] == e.schedule[i] && e.schedule[i] != id;
        assert Started(RunAt(e, e.schedule[i]));
      }
    }
    forall k', s' | 0 <= k' < |jobs| && 0 <= s' < |e'.samples| && Started(e'.run[k'][s'])
      ensures JobId(k', s') in e'.schedule
    {
      if JobId(k', s') != id {
        assert JobId(k', s') in e.schedule;
      } else {
        assert e'.schedule[|e.schedule|] == id;
      }
    }
  }

  lemma AdmitProgress(jobs: seq<seq<Job>>, e: State, k: nat, s: nat, e': State)
    requires Progress(jobs, e) && k < |jobs| && s < |e.samples| && Admitted(jobs, e, k, s, e')
    ensures Progress(jobs, e')
  {
  }

  lemma AdmitCounters(jobs: seq<seq<Job>>, e: State, k: nat, s: nat, e': State)
    requires Counters(jobs, e) && Scheduled(jobs, e) && k < |jobs| && s < |e.samples| && Admitted(jobs, e, k, s, e')
    ensures Counters(jobs, e')
  {
    var id := JobId(k, s);
    forall i | 0 <= i < |e.schedule|
      ensures e'.run[e.schedule[i].task][e.schedule[i].sample].endTime == e.run[e.schedule[i].task][e.schedule[i].sample].endTime
    {
      assert e.schedule[i] != id;
    }
    MaxEndSameEnds(e.run, e'.run, e.schedule);
    MaxEndAppend(e'.run, e.schedule, id);
  }

  lemma AdmitPool(jobs: seq<seq<Job>>, maxCpus: int, maxMemory: int, e: State, k: nat, s: nat, e': State,
                  res: Resource)
    requires Inv(jobs, maxCpus, maxMemory, e) && k < |jobs| && s < |e.samples| && Admitted(jobs, e, k, s, e')
    ensures Pool(jobs, maxCpus, maxMemory, e', res, AllDurationsPositive(jobs))
  {
    var id := JobId(k, s);
    var r' := RunState(true, Some(e.t), Some(e.t + jobs[k][s].duration));
    assert Pool(jobs, maxCpus, maxMemory, e, res, AllDurationsPositive(jobs));
    InUseUpdateUnscheduled(jobs, e.run, e.schedule, id, r', res);
    InUseAppend(jobs, e'.run, e.schedule, id, res);
    assert Available(e', res) == Available(e, res) - Demand(jobs[k][s], res);
  }

  lemma AdmitOrdered(jobs: seq<seq<Job>>, e: State, k: nat, s: nat, e': State)
    requires Ordered(jobs, e) && Progress(jobs, e) && Records(jobs, e)
    requires k < |jobs| && s < |e.samples| && Admitted(jobs, e, k, s, e')
    ensures Ordered(jobs, e')
  {
    forall k1, k2, s' | 0 <= k1 < k2 < |e'.run| && 0 <= s' < |e'.run[k2]| && s' < |e'.run[k1]| && Started(e'.run[k2][s'])
      ensures Started(e'.run[k1][s']) && EndOf(e'.run[k1][s']) <= StartOf(e'.run[k2][s'])
    {
      if k2 == k && s' == s {
        assert k1 < e.samples[s].stepsCompleted;
      }
    }
  }

  lemma AdmitCovered(jobs: seq<seq<Job>>, e: State, k: nat, s: nat, e': State)
    requires Covered(jobs, e) && Scheduled(jobs, e) && k < |jobs| && s < |e.samples| && Admitted(jobs, e, k, s, e')
    ensures Covered(jobs, e')
  {
    var id := JobId(k, s);
    var end := e.t + jobs[k][s].duration;
    if e.nextT.Some? && e'.nextT.value == e.nextT.value {
      var i :| 0 <= i < |e.schedule| && RunAt(e, e.schedule[i]).isRunning && EndOf(RunAt(e, e.schedule[i])) == e.nextT.value;
      assert e.schedule[i] != id && e'.schedule[i] == e.schedule[i];
      assert RunAt(e', e'.schedule[i]) == RunAt(e, e.schedule[i]);
    } else {
      assert e'.schedule[|e.schedule|] == id;
      assert RunAt(e', e'.schedule[|e.schedule|]).isRunning && EndOf(RunAt(e', e'.schedule[|e.schedule|])) == end;
    }
  }

  lemma AdmitGreedy(jobs: seq<seq<Job>>, e: State, k: nat, s: nat, e': State)
    requires Greedy(jobs, e, k, s) && k < |jobs| && s < |e.samples| && Admitted(jobs, e, k, s, e')
    ensures Greedy(jobs, e', k, s + 1)
  {
    forall k', s' | 0 <= k' < |jobs| && 0 <= s' < |e'.samples| && Scanned(k, s + 1, k', s') && Eligible(jobs, e', k', s')
      ensures !FitsFree(jobs[k'][s'], e')
    {
      assert Eligible(jobs, e, k', s');
    }
  }

  lemma AdmitTake(jobs: seq<seq<Job>>, maxCpus: int, maxMemory: int, e: State, k: nat, s: nat)
    requires AdmitInv(jobs, maxCpus, maxMemory, e, k, s) && k < |jobs| && s < |e.samples|
    requires Eligible(jobs, e, k, s) && FitsFree(jobs[k][s], e)
    ensures AdmitInv(jobs, maxCpus, maxMemory, AdmitAt(jobs, e, k, s), k, s + 1)
  {
    var e' := AdmitAt(jobs, e, k, s);
    AdmittedFacts(jobs, maxCpus, maxMemory, e, k, s);
    AdmitRecords(jobs, e, k, s, e');
    AdmitScheduled(jobs, e, k, s, e');
    AdmitProgress(jobs, e, k, s, e');
    AdmitCounters(jobs, e, k, s, e');
    AdmitPool(jobs, maxCpus, maxMemory, e, k, s, e', Cpus);
    AdmitPool(jobs, maxCpus, maxMemory, e, k, s, e', Memory);
    if AllDurationsPositive(jobs) {
      AdmitOrdered(jobs, e, k, s, e');
    }
    AdmitCovered(jobs, e, k, s, e');
    AdmitGreedy(jobs, e, k, s, e');
  }

  lemma SkipGreedy(jobs: seq<seq<Job>>, e: State, k: nat, s: nat)
    requires Greedy(jobs, e, k, s) && k < |jobs| && s < |e.samples|
    requires !(Eligible(jobs, e, k, s) && FitsFree(jobs[k][s], e))
    ensures Greedy(jobs, e, k, s + 1)
  {
  }

  lemma AdmitSkip(jobs: seq<seq<Job>>, maxCpus: int, maxMemory: int, e: State, k: nat, s: nat)
    requires AdmitInv(jobs, maxCpus, maxMemory, e, k, s) && k < |jobs| && s < |e.samples|
    requires !(Eligible(jobs, e, k, s) && FitsFree(jobs[k][s], e))
    ensures AdmitInv(jobs, maxCpus, maxMemory, AdmitAt(jobs, e, k, s), k, s + 1)
  {
    assert AdmitAt(jobs, e, k, s) == e;
    SkipGreedy(jobs, e, k, s);
  }

  lemma AdmitAtKeeps(jobs: seq<seq<Job>>, maxCpus: int, maxMemory: int, e: State, k: nat, s: nat)
    requires AdmitInv(jobs, maxCpus, maxMemory, e, k, s) && k < |jobs| && s < |e.samples|
    ensures AdmitInv(jobs, maxCpus, maxMemory, AdmitAt(jobs, e, k, s), k, s + 1)
  {
    if Eligible(jobs, e, k, s) && FitsFree(jobs[k][s], e) {
      AdmitTake(jobs, maxCpus, maxMemory, e, k, s);
    } else {
      AdmitSkip(jobs, maxCpus, maxMemory, e, k, s);
    }
  }

  lemma GreedyRowEnd(jobs: seq<seq<Job>>, e: State, k: nat)
    requires Greedy(jobs, e, k, |e.samples|)
    ensures Greedy(jobs, e, k + 1, 0)
  {
  }

  lemma GreedyScanEnd(jobs: seq<seq<Job>>, e: State, s: nat)
    requires Greedy(jobs, e, |jobs|, s)
    ensures Greedy(jobs, e, |jobs|, 0)
  {
  }

  lemma AdmitRowEnd(jobs: seq<seq<Job>>, maxCpus: int, maxMemory: int, e: State, k: nat)
    requires AdmitInv(jobs, maxCpus, maxMemory, e, k, |e.samples|) && k < |jobs|
    ensures AdmitInv(jobs, maxCpus, maxMemory, e, k + 1, 0)
  {
    GreedyRowEnd(jobs, e, k);
  }

  lemma AdmitScanEnd(jobs: seq<seq<Job>>, maxCpus: int, maxMemory: int, e: State, s: nat)
    requires AdmitInv(jobs, maxCpus, maxMemory, e, |jobs|, s)
    ensures AdmitInv(jobs, maxCpus, maxMemory, e, |jobs|, 0)
  {
    GreedyScanEnd(jobs, e, s);
  }

  /** The whole admit scan keeps the invariant; at its end every job has been scanned. */
  lemma {:induction false} AdmitFromKeeps(jobs: seq<seq<Job>>, maxCpus: int, maxMemory: int, e: State, k: nat, s: nat)
    requires AdmitInv(jobs, maxCpus, maxMemory, e, k, s)
    ensures AdmitInv(jobs, maxCpus, maxMemory, AdmitFrom(jobs, e, k, s), |jobs|, 0)
    decreases |jobs| - k, |e.samples| - s, 1
  {
    if k == |jobs| {
      AdmitScanEnd(jobs, maxCpus, maxMemory, e, s);
    } else if s == |e.samples| {
      AdmitFromRowEnd(jobs, maxCpus, maxMemory, e, k);
    } else {
      AdmitFromNext(jobs, maxCpus, maxMemory, e, k, s);
    }
  }

  lemma {:induction false} AdmitFromRowEnd(jobs: seq<seq<Job>>, maxCpus: int, maxMemory: int, e: State, k: nat)
    requires AdmitInv(jobs, maxCpus, maxMemory, e, k, |e.samples|) && k < |jobs|
    ensures AdmitInv(jobs, maxCpus, maxMemory, AdmitFrom(jobs, e, k, |e.samples|), |jobs|, 0)
    decreases |jobs| - k, 0, 0
  {
    AdmitRowEnd(jobs, maxCpus, maxMemory, e, k);
    AdmitFromKeeps(jobs, maxCpus, maxMemory, e, k + 1, 0);
  }

  lemma {:induction false} AdmitFromNext(jobs: seq<seq<Job>>, maxCpus: int, maxMemory: int, e: State, k: nat, s: nat)
    requires AdmitInv(jobs, maxCpus, maxMemory, e, k, s) && k < |jobs| && s < |e.samples|
    ensures AdmitInv(jobs, maxCpus, maxMemory, AdmitFrom(jobs, e, k, s), |jobs|, 0)
    decreases |jobs| - k, |e.samples| - s, 0
  {
    AdmitAtKeeps(jobs, maxCpus, maxMemory, e, k, s);
    AdmitFromKeeps(jobs, maxCpus, maxMemory, AdmitAt(jobs, e, k, s), k, s + 1);
  }

  /** At the end of the retire loop every running job ends later than now and the candidate
      covers it, which is what the admit scan starts from. */
  lemma RetireEndIsAdmitStart(jobs: seq<seq<Job>>, maxCpus: int, maxMemory: int, e: State, r0: int, due: bool)
    requires RetireInv(jobs, maxCpus, maxMemory, e, |e.schedule|, r0, due)
    ensures AdmitInv(jobs, maxCpus, maxMemory, e, 0, 0)
    ensures forall k, s :: 0 <= k < |jobs| && 0 <= s < |e.samples| && e.run[k][s].isRunning ==>
      EndOf(e.run[k][s]) > e.t
  {
    forall k, s | 0 <= k < |jobs| && 0 <= s < |e.samples| && e.run[k][s].isRunning
      ensures EndOf(e.run[k][s]) > e.t && e.nextT.Some? && e.nextT.value <= EndOf(e.run[k][s])
    {
      assert RecordOk(jobs[k][s], e.run[k][s]);
      assert JobId(k, s) in e.schedule;
      var j :| 0 <= j < |e.schedule| && e.schedule[j] == JobId(k, s);
      assert RunAt(e, e.schedule[j]) == e.run[k][s];
    }
  }

  /** A job that fits the machine but not what is free is waiting on resources that some
      running job holds. */
  lemma BlockedByRunning(jobs: seq<seq<Job>>, maxCpus: int, maxMemory: int, e: State, k: nat, s: nat)
    requires Pools(jobs, maxCpus, maxMemory, e) && AllFit(jobs, maxMemory, maxCpus)
    requires k < |jobs| && s < |jobs[k]| && !FitsFree(jobs[k][s], e)
    ensures exists i :: 0 <= i < |e.schedule| && e.run[e.schedule[i].task][e.schedule[i].sample].isRunning
  {
    assert Fits(jobs[k][s], maxMemory, maxCpus);
    var res := if jobs[k][s].cpus > e.availableCpus then Cpus else Memory;
    assert Pool(jobs, maxCpus, maxMemory, e, res, AllDurationsPositive(jobs));
    InUseBusy(jobs, e.run, e.schedule, res);
  }

  /** While jobs remain, some sample is short of its last step, and the job of its current
      step is running or blocked. */
  lemma PendingJobExists(jobs: seq<seq<Job>>, maxCpus: int, maxMemory: int, e: State)
    requires Inv(jobs, maxCpus, maxMemory, e) && e.remaining > 0
    ensures exists k, s :: 0 <= k < |jobs| && 0 <= s < |e.samples| && (e.run[k][s].isRunning || Eligible(jobs, e, k, s))
  {
    SomeSampleBehind(e.samples, |jobs|);
    var s :| 0 <= s < |e.samples| && e.samples[s].stepsCompleted < |jobs|;
    var k := e.samples[s].stepsCompleted;
    assert 0 <= k;
    assert e.run[k][s].isRunning || Eligible(jobs, e, k, s);
  }

  /** After the admit scan, a pass finds no next event only when no job remains: if one
      did, some sample would be short of its last step, and its next job would either be
      running (so its end is a candidate) or fail to fit, which needs a running job holding
      resources. The source then sets the clock to infinity and the loop ends. */
  lemma NoNextEventOnlyWhenDone(jobs: seq<seq<Job>>, maxCpus: int, maxMemory: int, e: State)
    requires AdmitInv(jobs, maxCpus, maxMemory, e, |jobs|, 0)
    ensures e.remaining > 0 ==> e.nextT.Some?
  {
    if e.remaining > 0 {
      PendingJobExists(jobs, maxCpus, maxMemory, e);
      var k, s :| 0 <= k < |jobs| && 0 <= s < |e.samples| && (e.run[k][s].isRunning || Eligible(jobs, e, k, s));
      if !e.run[k][s].isRunning {
        assert Scanned(|jobs|, 0, k, s);
        BlockedByRunning(jobs, maxCpus, maxMemory, e, k, s);
        var i :| 0 <= i < |e.schedule| && e.run[e.schedule[i].task][e.schedule[i].sample].isRunning;
        k, s := e.schedule[i].task, e.schedule[i].sample;
      }
      RunningGivesNext(jobs, e, k, s);
    }
  }

  /** A running job's end is a candidate, so there is a next event. */
  lemma RunningGivesNext(jobs: seq<seq<Job>>, e: State, k: nat, s: nat)
    requires Covered(jobs, e) && k < |jobs| && s < |e.samples| && e.run[k][s].isRunning
    ensures e.nextT.Some?
  {
  }
}
