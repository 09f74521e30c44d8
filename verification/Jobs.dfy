/** The persistent job queue and run history. Each transaction of the store is one function on the
    tables; `JobStore` performs the transactions in place. */
module Jobs {
  import opened Model

  datatype JobState = Queued | Running | Preempting | Succeeded | Failed | Cancelled

  datatype Outcome = WasPreempted | WasCancelled | DidSucceed | DidFail

  datatype JobSpec = JobSpec(priority: int, gpuMem: nat, ram: nat, gpuModels: seq<string>)

  /** A row of the jobs table. */
  datatype Job = Job(
    spec: JobSpec, state: JobState, attempts: nat, preemptions: nat,
    gpu: Option<GpuId>, container: Option<ContainerId>,
    submittedAt: Time, startedAt: Option<Time>, finishedAt: Option<Time>, exitCode: Option<int>)

  /** A row of the runs table. */
  datatype Run = Run(
    job: JobId, attempt: nat, gpu: GpuId, container: ContainerId, startedAt: Time,
    finishedAt: Option<Time>, outcome: Option<Outcome>)

  datatype Tables = Tables(
    jobs: map<JobId, Job>, runs: seq<Run>, nextId: JobId, pausedNode: bool, pausedGpus: set<GpuId>)
  {
    /** Ids are handed out in increasing order and never reused. */
    ghost predicate WellFormed() {
      forall j :: j in jobs <==> 1 <= j < nextId
    }

    /** Every job that may still hold a GPU has its GPU and its container on record. */
    ghost predicate Leased() {
      forall j | j in jobs && IsActive(jobs[j]) :: jobs[j].gpu.Some? && jobs[j].container.Some?
    }
  }

  const EMPTY: Tables := Tables(map[], [], 1, false, {})

  /** The job's container may still hold a GPU: running, preempting, or cancelled but still stopping. */
  predicate IsActive(job: Job) {
    || job.state == Running || job.state == Preempting
    || (job.state == Cancelled && job.container.Some? && job.finishedAt.None?)
  }

  predicate IsLive(job: Job) { job.state == Queued || job.state == Running || job.state == Preempting }

  // ---- queries ----

  function RowOf(id: JobId, job: Job): RunningSpot
    requires job.gpu.Some? && job.container.Some?
  {
    RunningSpot(id, job.gpu.value, job.container.value, job.state != Running)
  }

  /** The active jobs below id `n`, in id order. */
  function ActiveBelow(t: Tables, n: nat): (rows: seq<RunningSpot>)
    requires t.Leased()
    ensures forall r :: r in rows <==>
      r.jobId < n && r.jobId in t.jobs && IsActive(t.jobs[r.jobId]) && r == RowOf(r.jobId, t.jobs[r.jobId])
    ensures forall i, k | 0 <= i < k < |rows| :: rows[i].jobId < rows[k].jobId
  {
    if n == 0 then []
    else
      var front := ActiveBelow(t, n - 1);
      if n - 1 in t.jobs && IsActive(t.jobs[n - 1]) then front + [RowOf(n - 1, t.jobs[n - 1])] else front
  }

  function ActiveRows(t: Tables): (rows: seq<RunningSpot>)
    requires t.Leased()
  {
    ActiveBelow(t, t.nextId)
  }

  function QueuedIdsBelow(t: Tables, n: nat): (ids: seq<JobId>)
    ensures forall j :: j in ids <==> j < n && j in t.jobs && t.jobs[j].state == Queued
    ensures forall i, k | 0 <= i < k < |ids| :: ids[i] < ids[k]
  {
    if n == 0 then []
    else
      var front := QueuedIdsBelow(t, n - 1);
      assert forall i | 0 <= i < |front| :: front[i] in front;
      if n - 1 in t.jobs && t.jobs[n - 1].state == Queued then front + [n - 1] else front
  }

  function AsQueued(id: JobId, job: Job, defaultRam: nat): QueuedJob {
    QueuedJob(id, job.spec.priority, job.submittedAt, job.spec.gpuMem,
              if job.spec.ram != 0 then job.spec.ram else defaultRam, job.spec.gpuModels)
  }

  // ---- transactions ----

  function Submitted(t: Tables, spec: JobSpec, now: Time): Tables {
    t.(jobs := t.jobs[t.nextId := Job(spec, Queued, 0, 0, None, None, now, None, None, None)], nextId := t.nextId + 1)
  }

  function MarkedRunning(t: Tables, id: JobId, gpu: GpuId, container: ContainerId, now: Time): Tables
    requires id in t.jobs
  {
    var job := t.jobs[id];
    t.(jobs := t.jobs[id := job.(state := Running, attempts := job.attempts + 1, gpu := Some(gpu),
                                 container := Some(container), startedAt := Some(now))],
       runs := t.runs + [Run(id, job.attempts + 1, gpu, container, now, None, None)])
  }

  function MarkedPreempting(t: Tables, id: JobId): Tables {
    if id in t.jobs && t.jobs[id].state == Running
    then t.(jobs := t.jobs[id := t.jobs[id].(state := Preempting)])
    else t
  }

  function MarkedFailed(t: Tables, id: JobId, now: Time): Tables {
    if id in t.jobs then t.(jobs := t.jobs[id := t.jobs[id].(state := Failed, finishedAt := Some(now))]) else t
  }

  /** How a run that ended is classified. */
  function Ending(job: Job, exitCode: Option<int>, maxAttempts: int, vanished: bool): (JobState, Outcome) {
    if job.state == Cancelled then (Cancelled, WasCancelled)
    else if job.state == Preempting || vanished then
      (if job.attempts >= maxAttempts then Failed else Queued, WasPreempted)
    else if exitCode == Some(0) then (Succeeded, DidSucceed)
    else (Failed, DidFail)
  }

  function EndedJob(job: Job, exitCode: Option<int>, maxAttempts: int, vanished: bool, now: Time): Job {
    var state := Ending(job, exitCode, maxAttempts, vanished).0;
    job.(state := state,
         exitCode := exitCode,
         preemptions := job.preemptions + (if job.state == Preempting || vanished then 1 else 0),
         finishedAt := if state == Queued then None else Some(now),
         gpu := if state == Queued then None else job.gpu,
         container := if state == Queued then None else job.container)
  }

  predicate IsOpenRun(r: Run, job: JobId, attempt: nat) {
    r.job == job && r.attempt == attempt && r.finishedAt.None?
  }

  /** The runs with the open rows of one attempt closed. */
  function CloseRuns(runs: seq<Run>, job: JobId, attempt: nat, now: Time, outcome: Outcome): (r: seq<Run>)
    ensures |r| == |runs|
    ensures forall i | 0 <= i < |runs| ::
      r[i] == if IsOpenRun(runs[i], job, attempt)
              then runs[i].(finishedAt := Some(now), outcome := Some(outcome)) else runs[i]
  {
    if runs == [] then []
    else
      var last := runs[|runs| - 1];
      CloseRuns(runs[..|runs| - 1], job, attempt, now, outcome)
      + [if IsOpenRun(last, job, attempt) then last.(finishedAt := Some(now), outcome := Some(outcome)) else last]
  }

  function Finished(t: Tables, id: JobId, exitCode: Option<int>, maxAttempts: int, vanished: bool, now: Time): Tables
    requires id in t.jobs
  {
    var job := t.jobs[id];
    t.(jobs := t.jobs[id := EndedJob(job, exitCode, maxAttempts, vanished, now)],
       runs := CloseRuns(t.runs, id, job.attempts, now, Ending(job, exitCode, maxAttempts, vanished).1))
  }

  predicate CanCancel(t: Tables, id: JobId) { id in t.jobs && IsLive(t.jobs[id]) }

  function MarkedCancelled(t: Tables, id: JobId, now: Time): Tables
    requires CanCancel(t, id)
  {
    var job := t.jobs[id];
    t.(jobs := t.jobs[id := job.(state := Cancelled,
                                 finishedAt := if job.state == Queued then Some(now) else job.finishedAt)])
  }

  function SetPause(t: Tables, paused: bool, gpu: Option<GpuId>): Tables {
    if gpu.None? then t.(pausedNode := paused)
    else t.(pausedGpus := if paused then t.pausedGpus + {gpu.value} else t.pausedGpus - {gpu.value})
  }

  // ---- the store ----

  class JobStore {
    var jobs: map<JobId, Job>
    var runs: seq<Run>
    var nextId: JobId
    var pausedNode: bool
    var pausedGpus: set<GpuId>

    constructor ()
      ensures Table() == EMPTY
    {
      jobs, runs, nextId := map[], [], 1;
      pausedNode, pausedGpus := false, {};
    }

    function Table(): Tables
      reads this
    {
      Tables(jobs, runs, nextId, pausedNode, pausedGpus)
    }

    method Submit(spec: JobSpec, now: Time) returns (id: JobId)
      modifies this
      ensures Table() == Submitted(old(Table()), spec, now)
      ensures id == old(nextId)
    {
      id := nextId;
      jobs := jobs[id := Job(spec, JobState.Queued, 0, 0, None, None, now, None, None, None)];
      nextId := nextId + 1;
    }

    function Get(id: JobId): Option<Job>
      reads this
    {
      if id in jobs then Some(jobs[id]) else None
    }

    /** The planner's view of the queue: exactly the queued jobs, in id order. */
    method Queued(defaultRam: nat) returns (result: seq<QueuedJob>)
      requires Table().WellFormed()
      ensures forall q :: q in result <==>
        q.jobId in jobs && jobs[q.jobId].state == JobState.Queued && q == AsQueued(q.jobId, jobs[q.jobId], defaultRam)
      ensures forall i, k | 0 <= i < k < |result| :: result[i].jobId < result[k].jobId
    {
      result := [];
      var rows := QueuedIdsBelow(Table(), nextId);
      for i := 0 to |rows|
        invariant |result| == i
        invariant forall k | 0 <= k < i :: result[k] == AsQueued(rows[k], jobs[rows[k]], defaultRam)
      {
        result := result + [AsQueued(rows[i], jobs[rows[i]], defaultRam)];
      }
      forall q: QueuedJob | q.jobId in jobs && jobs[q.jobId].state == JobState.Queued
            && q == AsQueued(q.jobId, jobs[q.jobId], defaultRam)
        ensures q in result
      {
        assert q.jobId in rows;
        var k :| 0 <= k < |rows| && rows[k] == q.jobId;
        assert result[k] == q;
      }
    }

    function Active(): (rows: seq<RunningSpot>)
      requires Table().Leased()
      reads this
    {
      ActiveRows(Table())
    }

    /** QUEUED to RUNNING; refuses (the source raises) when the job is not queued. */
    method MarkRunning(id: JobId, gpu: GpuId, container: ContainerId, now: Time) returns (attempt: Option<nat>)
      modifies this
      ensures attempt.Some? <==> id in old(jobs) && old(jobs)[id].state == JobState.Queued
      ensures attempt.Some? ==> Table() == MarkedRunning(old(Table()), id, gpu, container, now)
      ensures attempt.Some? ==> attempt.value == old(jobs)[id].attempts + 1
      ensures attempt.None? ==> Table() == old(Table())
    {
      if id !in jobs || jobs[id].state != JobState.Queued {
        return None;
      }
      var next := jobs[id].attempts + 1;
      jobs := jobs[id := jobs[id].(state := Running, attempts := next, gpu := Some(gpu),
                                   container := Some(container), startedAt := Some(now))];
      runs := runs + [Run(id, next, gpu, container, now, None, None)];
      attempt := Some(next);
    }

    function NextAttempt(id: JobId): nat
      requires id in jobs
      reads this
    {
      jobs[id].attempts + 1
    }

    method MarkPreempting(id: JobId)
      modifies this
      ensures Table() == MarkedPreempting(old(Table()), id)
    {
      if id in jobs && jobs[id].state == Running {
        jobs := jobs[id := jobs[id].(state := Preempting)];
      }
    }

    method Fail(id: JobId, now: Time)
      modifies this
      ensures Table() == MarkedFailed(old(Table()), id, now)
    {
      if id in jobs {
        jobs := jobs[id := jobs[id].(state := Failed, finishedAt := Some(now))];
      }
    }

    /** The end of the current run; refuses an unknown job. */
    method Finish(id: JobId, exitCode: Option<int>, maxAttempts: int, vanished: bool, now: Time)
      returns (newState: Option<JobState>)
      modifies this
      ensures newState.None? <==> id !in old(jobs)
      ensures newState.None? ==> Table() == old(Table())
      ensures newState.Some? ==> Table() == Finished(old(Table()), id, exitCode, maxAttempts, vanished, now)
      ensures newState.Some? ==> id in jobs && jobs[id].state == newState.value
    {
      if id !in jobs {
        return None;
      }
      var row := jobs[id];
      var preempted := row.state == Preempting || vanished;
      var state: JobState, outcome: Outcome;
      if row.state == Cancelled {
        state, outcome := Cancelled, WasCancelled;
      } else if preempted {
        if row.attempts >= maxAttempts {
          state, outcome := Failed, WasPreempted;
        } else {
          state, outcome := JobState.Queued, WasPreempted;
        }
      } else if exitCode == Some(0) {
        state, outcome := Succeeded, DidSucceed;
      } else {
        state, outcome := Failed, DidFail;
      }
      var requeued := state == JobState.Queued;
      jobs := jobs[id := row.(state := state, exitCode := exitCode,
                              preemptions := row.preemptions + (if preempted then 1 else 0),
                              finishedAt := if requeued then None else Some(now),
                              gpu := if requeued then None else row.gpu,
                              container := if requeued then None else row.container)];
      runs := CloseRuns(runs, id, row.attempts, now, outcome);
      newState := Some(state);
    }

    /** Cancels a live job and says which container is to be stopped; refuses any other job. */
    method Cancel(id: JobId, now: Time) returns (accepted: bool, container: Option<ContainerId>)
      modifies this
      ensures accepted <==> CanCancel(old(Table()), id)
      ensures !accepted ==> Table() == old(Table()) && container == None
      ensures accepted ==> Table() == MarkedCancelled(old(Table()), id, now)
      ensures accepted ==> container == if IsActive(old(jobs)[id]) then old(jobs)[id].container else None
    {
      if id !in jobs || !IsLive(jobs[id]) {
        return false, None;
      }
      var row := jobs[id];
      jobs := jobs[id := row.(state := Cancelled,
                              finishedAt := if row.state == JobState.Queued then Some(now) else row.finishedAt)];
      return true, if row.state == JobState.Queued then None else row.container;
    }

    function Paused(): (bool, set<GpuId>)
      reads this
    {
      (pausedNode, pausedGpus)
    }

    method SetPaused(paused: bool, gpu: Option<GpuId>)
      modifies this
      ensures Table() == SetPause(old(Table()), paused, gpu)
    {
      if gpu.None? {
        pausedNode := paused;
        return;
      }
      if paused {
        pausedGpus := pausedGpus + {gpu.value};
      } else {
        pausedGpus := pausedGpus - {gpu.value};
      }
    }
  }
}
