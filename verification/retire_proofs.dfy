/** The retire loop keeps `RetireInv`: a job that ends now is retired, a running job that ends
    later pulls the candidate next event time down to its end, and nothing else moves. */
module RetireProofs {
  import opened Wrappers
  import opened Jobs
  import opened EventLoop
  import opened Accounting
  import opened Invariants

  /** The invariant does not mention the candidate next event time. */
  lemma InvIgnoresNextT(jobs: seq<seq<Job>>, maxCpus: int, maxMemory: int, e: State, next: Option<int>)
    requires Inv(jobs, maxCpus, maxMemory, e) && RunningNotBefore(jobs, e)
    ensures Inv(jobs, maxCpus, maxMemory, e.(nextT := next)) && RunningNotBefore(jobs, e.(nextT := next))
  {
    var e' := e.(nextT := next);
    assert Pool(jobs, maxCpus, maxMemory, e', Cpus, AllDurationsPositive(jobs));
    assert Pool(jobs, maxCpus, maxMemory, e', Memory, AllDurationsPositive(jobs));
  }

  /** The job a due retirement touches was running unless durations may be zero. */
  lemma DueWasRunning(jobs: seq<seq<Job>>, maxCpus: int, maxMemory: int, e: State, i: nat, r0: int, due: bool)
    requires RetireInv(jobs, maxCpus, maxMemory, e, i, r0, due) && i < |e.schedule|
    requires Due(e, e.schedule[i]) && AllDurationsPositive(jobs)
    ensures RunAt(e, e.schedule[i]).isRunning
    ensures e.schedule[i].task == e.samples[e.schedule[i].sample].stepsCompleted
  {
    var id := e.schedule[i];
    assert Started(RunAt(e, id));
  }

  lemma RetireDuePool(jobs: seq<seq<Job>>, maxCpus: int, maxMemory: int, e: State, i: nat, r0: int, due: bool,
                      res: Resource)
    requires RetireInv(jobs, maxCpus, maxMemory, e, i, r0, due) && i < |e.schedule|
    requires Due(e, e.schedule[i])
    ensures Pool(jobs, maxCpus, maxMemory, RetireAt(jobs, e, i), res, AllDurationsPositive(jobs))
  {
    var id := e.schedule[i];
    var job := jobs[id.task][id.sample];
    var r := RunAt(e, id);
    var e' := RetireAt(jobs, e, i);
    assert e'.run == SetRun(e.run, id, r.(isRunning := false));
    assert Available(e', res) == Available(e, res) + Demand(job, res);
    assert id in e.schedule;
    InUseUpdate(jobs, e.run, e.schedule, id, r.(isRunning := false), res);
    assert Pool(jobs, maxCpus, maxMemory, e, res, AllDurationsPositive(jobs));
    if AllDurationsPositive(jobs) {
      DueWasRunning(jobs, maxCpus, maxMemory, e, i, r0, due);
    }
  }

  lemma RetireDueRecords(jobs: seq<seq<Job>>, e: State, i: nat)
    requires Records(jobs, e) && i < |e.schedule| && Due(e, e.schedule[i])
    ensures Records(jobs, RetireAt(jobs, e, i))
  {
    var id := e.schedule[i];
    var r := RunAt(e, id);
    assert RetireAt(jobs, e, i).run == SetRun(e.run, id, r.(isRunning := false));
  }

  lemma RetireDueScheduled(jobs: seq<seq<Job>>, e: State, i: nat)
    requires Scheduled(jobs, e) && i < |e.schedule| && Due(e, e.schedule[i])
    ensures Scheduled(jobs, RetireAt(jobs, e, i))
  {
    var id := e.schedule[i];
    var r := RunAt(e, id);
    var e' := RetireAt(jobs, e, i);
    assert e'.run == SetRun(e.run, id, r.(isRunning := false));
    forall j | 0 <= j < |e'.schedule| ensures Started(RunAt(e', e'.schedule[j])) {
      assert Started(RunAt(e, e.schedule[j]));
    }
  }

  lemma RetireDueProgress(jobs: seq<seq<Job>>, e: State, i: nat)
    requires Progress(jobs, e) && i < |e.schedule| && Due(e, e.schedule[i])
    ensures Progress(jobs, RetireAt(jobs, e, i))
  {
    var id := e.schedule[i];
    var r := RunAt(e, id);
    var e' := RetireAt(jobs, e, i);
    var s := id.sample;
    assert e'.run == SetRun(e.run, id, r.(isRunning := false));
    assert e'.samples == e.samples[s := e.samples[s].(stepsCompleted := e.samples[s].stepsCompleted + 1)];
  }

  lemma RetireDueCounters(jobs: seq<seq<Job>>, e: State, i: nat)
    requires Counters(jobs, e) && i < |e.schedule| && Due(e, e.schedule[i])
    ensures Counters(jobs, RetireAt(jobs, e, i))
  {
    var id := e.schedule[i];
    var r := RunAt(e, id);
    var e' := RetireAt(jobs, e, i);
    var s := id.sample;
    assert e'.run == SetRun(e.run, id, r.(isRunning := false));
    assert e'.samples == e.samples[s := e.samples[s].(stepsCompleted := e.samples[s].stepsCompleted + 1)];
    TotalCompletedIncrement(e.samples, s);
    MaxEndSameEnds(e.run, e'.run, e.schedule);
  }

  lemma RetireDueOrdered(jobs: seq<seq<Job>>, e: State, i: nat)
    requires Ordered(jobs, e) && Progress(jobs, e) && i < |e.schedule| && Due(e, e.schedule[i])
    requires RunAt(e, e.schedule[i]).isRunning
    ensures Ordered(jobs, RetireAt(jobs, e, i))
  {
    var id := e.schedule[i];
    var r := RunAt(e, id);
    var e' := RetireAt(jobs, e, i);
    var s := id.sample;
    assert Started(e.run[id.task][s]);
    assert id.task == e.samples[s].stepsCompleted;
    assert e'.run == SetRun(e.run, id, r.(isRunning := false));
    assert e'.samples == e.samples[s := e.samples[s].(stepsCompleted := e.samples[s].stepsCompleted + 1)];
    forall k, s' | 0 <= k < |jobs| && 0 <= s' < |e.samples|
      ensures StartOf(e'.run[k][s']) == StartOf(e.run[k][s'])
      ensures EndOf(e'.run[k][s']) == EndOf(e.run[k][s']) && Started(e'.run[k][s']) == Started(e.run[k][s'])
    {
    }
  }

  /** Retiring `schedule[i]` leaves every other schedule entry's record alone. */
  lemma RetireDueOthers(jobs: seq<seq<Job>>, e: State, i: nat)
    requires Scheduled(jobs, e) && i < |e.schedule| && Due(e, e.schedule[i])
    ensures forall j :: 0 <= j < |e.schedule| && j != i ==>
      RunAt(RetireAt(jobs, e, i), e.schedule[j]) == RunAt(e, e.schedule[j])
    ensures !RunAt(RetireAt(jobs, e, i), e.schedule[i]).isRunning
  {
    var id := e.schedule[i];
    var e' := RetireAt(jobs, e, i);
    assert e'.run == SetRun(e.run, id, RunAt(e, id).(isRunning := false));
    forall j | 0 <= j < |e.schedule| && j != i ensures RunAt(e', e.schedule[j]) == RunAt(e, e.schedule[j]) {
      assert e.schedule[j] != id;
    }
  }

  lemma RetireDueCandidate(jobs: seq<seq<Job>>, e: State, i: nat)
    requires Scheduled(jobs, e) && Candidate(jobs, e, i) && i < |e.schedule| && Due(e, e.schedule[i])
    ensures Candidate(jobs, RetireAt(jobs, e, i), i + 1)
  {
    var e' := RetireAt(jobs, e, i);
    RetireDueOthers(jobs, e, i);
    if e.nextT.Some? {
      var j :| 0 <= j < i && RunAt(e, e.schedule[j]).isRunning && EndOf(RunAt(e, e.schedule[j])) == e.nextT.value;
      assert RunAt(e', e'.schedule[j]) == RunAt(e, e.schedule[j]);
    }
  }

  lemma RetireDueFinishedBefore(jobs: seq<seq<Job>>, e: State, i: nat)
    requires Scheduled(jobs, e) && FinishedBefore(jobs, e, i) && i < |e.schedule| && Due(e, e.schedule[i])
    ensures FinishedBefore(jobs, RetireAt(jobs, e, i), i + 1)
  {
    RetireDueOthers(jobs, e, i);
  }

  lemma RetireDueNext(jobs: seq<seq<Job>>, maxCpus: int, maxMemory: int, e: State, i: nat, r0: int, due: bool)
    requires RetireInv(jobs, maxCpus, maxMemory, e, i, r0, due) && i < |e.schedule|
    requires Due(e, e.schedule[i])
    ensures RetireInv(jobs, maxCpus, maxMemory, RetireAt(jobs, e, i), i + 1, r0, due)
  {
    RetireDuePool(jobs, maxCpus, maxMemory, e, i, r0, due, Cpus);
    RetireDuePool(jobs, maxCpus, maxMemory, e, i, r0, due, Memory);
    RetireDueRecords(jobs, e, i);
    RetireDueScheduled(jobs, e, i);
    RetireDueProgress(jobs, e, i);
    RetireDueCounters(jobs, e, i);
    RetireDueCandidate(jobs, e, i);
    RetireDueRest(jobs, e, i, r0, due);
    if AllDurationsPositive(jobs) {
      DueWasRunning(jobs, maxCpus, maxMemory, e, i, r0, due);
      RetireDueOrdered(jobs, e, i);
      RetireDueFinishedBefore(jobs, e, i);
    }
  }

  /** A due retirement stops a job and takes one from the count, so no running job is late
      and the pass has retired one. */
  lemma RetireDueRest(jobs: seq<seq<Job>>, e: State, i: nat, r0: int, due: bool)
    requires Shaped(jobs, e) && RunningNotBefore(jobs, e) && Retiring(jobs, e, i, r0, due)
    requires i < |e.schedule| && Due(e, e.schedule[i])
    ensures RunningNotBefore(jobs, RetireAt(jobs, e, i))
    ensures Retiring(jobs, RetireAt(jobs, e, i), i + 1, r0, due)
  {
  }

  lemma RetireLaterCandidate(jobs: seq<seq<Job>>, e: State, i: nat)
    requires Records(jobs, e) && RunningNotBefore(jobs, e) && Candidate(jobs, e, i)
    requires i < |e.schedule| && !Due(e, e.schedule[i])
    ensures Candidate(jobs, RetireAt(jobs, e, i), i + 1)
  {
    var r := RunAt(e, e.schedule[i]);
    var e' := RetireAt(jobs, e, i);
    if r.endTime.Some? && r.endTime.value > e.t && r.isRunning {
      var next := Some(MinNext(e.nextT, r.endTime.value));
      assert e' == e.(nextT := next);
      if e.nextT.Some? && next.value == e.nextT.value {
        var j :| 0 <= j < i && RunAt(e, e.schedule[j]).isRunning && EndOf(RunAt(e, e.schedule[j])) == e.nextT.value;
        assert RunAt(e', e'.schedule[j]).isRunning && EndOf(RunAt(e', e'.schedule[j])) == e'.nextT.value;
      } else {
        assert RunAt(e', e'.schedule[i]).isRunning && EndOf(RunAt(e', e'.schedule[i])) == e'.nextT.value;
      }
    } else {
      assert e' == e;
      assert RecordOk(jobs[e.schedule[i].task][e.schedule[i].sample], r);
    }
  }

  lemma RetireLaterNext(jobs: seq<seq<Job>>, maxCpus: int, maxMemory: int, e: State, i: nat, r0: int, due: bool)
    requires RetireInv(jobs, maxCpus, maxMemory, e, i, r0, due) && i < |e.schedule|
    requires !Due(e, e.schedule[i])
    ensures RetireInv(jobs, maxCpus, maxMemory, RetireAt(jobs, e, i), i + 1, r0, due)
  {
    var e' := RetireAt(jobs, e, i);
    RetireLaterCandidate(jobs, e, i);
    assert e' == e.(nextT := e'.nextT);
    InvIgnoresNextT(jobs, maxCpus, maxMemory, e, e'.nextT);
    RetireLaterRest(jobs, e, i, r0, due, e'.nextT);
  }

  /** Passing over a job that is not due changes nothing the pass has promised about the
      jobs ahead. */
  lemma RetireLaterRest(jobs: seq<seq<Job>>, e: State, i: nat, r0: int, due: bool, next: Option<int>)
    requires Retiring(jobs, e, i, r0, due) && i < |e.schedule| && !Due(e, e.schedule[i])
    requires AllDurationsPositive(jobs) ==> FinishedBefore(jobs, e, i)
    ensures Retiring(jobs, e.(nextT := next), i + 1, r0, due)
    ensures AllDurationsPositive(jobs) ==> FinishedBefore(jobs, e.(nextT := next), i + 1)
  {
    if due && e.remaining >= r0 {
      var j :| i <= j < |e.schedule| && Due(e, e.schedule[j]);
      assert j != i;
    }
  }

  lemma RetireAtKeeps(jobs: seq<seq<Job>>, maxCpus: int, maxMemory: int, e: State, i: nat, r0: int, due: bool)
    requires RetireInv(jobs, maxCpus, maxMemory, e, i, r0, due) && i < |e.schedule|
    ensures RetireInv(jobs, maxCpus, maxMemory, RetireAt(jobs, e, i), i + 1, r0, due)
  {
    if Due(e, e.schedule[i]) {
      RetireDueNext(jobs, maxCpus, maxMemory, e, i, r0, due);
    } else {
      RetireLaterNext(jobs, maxCpus, maxMemory, e, i, r0, due);
    }
  }

  /** The whole retire loop keeps the invariant, and at its end every job still running ends
      later than now and no earlier than the candidate, a candidate exists exactly when some
      job is still running, and a pass that found a job due has retired at least one. */
  lemma {:induction false} RetireFromKeeps(jobs: seq<seq<Job>>, maxCpus: int, maxMemory: int, e: State, i: nat,
                                           r0: int, due: bool)
    requires RetireInv(jobs, maxCpus, maxMemory, e, i, r0, due)
    ensures RetireInv(jobs, maxCpus, maxMemory, RetireFrom(jobs, e, i), |e.schedule|, r0, due)
    decreases |e.schedule| - i
  {
    if i < |e.schedule| {
      RetireAtKeeps(jobs, maxCpus, maxMemory, e, i, r0, due);
      RetireFromKeeps(jobs, maxCpus, maxMemory, RetireAt(jobs, e, i), i + 1, r0, due);
    }
  }

  /** A pass starts the retire loop from the loop-head invariant with the candidate reset. */
  lemma RetireStart(jobs: seq<seq<Job>>, maxCpus: int, maxMemory: int, e: State)
    requires HeadInv(jobs, maxCpus, maxMemory, e) && e.remaining > 0
    ensures RetireInv(jobs, maxCpus, maxMemory, e.(nextT := None), 0, e.remaining, e.schedule != [])
  {
    InvIgnoresNextT(jobs, maxCpus, maxMemory, e, None);
    var e' := e.(nextT := None);
    if AllDurationsPositive(jobs) {
      forall j | 0 <= j < |e'.schedule| && Finished(RunAt(e', e'.schedule[j]))
        ensures EndOf(RunAt(e', e'.schedule[j])) < e'.t
      {
        var id := e.schedule[j];
        assert Finished(e.run[id.task][id.sample]);
      }
    }
    if e.schedule != [] {
      var j :| 0 <= j < |e.schedule| && RunAt(e, e.schedule[j]).isRunning && Due(e, e.schedule[j]);
      assert Due(e', e'.schedule[j]);
    }
  }
}
