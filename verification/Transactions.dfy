/** What each transaction leaves in the rows, column by column, and the steps of the controller that end a job. */
module Transactions {
  import opened Model
  import opened Jobs
  import opened JobsLedger
  import opened Leases
  import opened Protocol
  import opened ProtocolInvariant
  import opened ProtocolSteps

  /** Only the row of `id` in the jobs table, and the runs, may differ. */
  ghost predicate OthersStay(t: Tables, u: Tables, id: JobId) {
    && u.jobs.Keys == t.jobs.Keys + {id}
    && (forall j | j in t.jobs && j != id :: u.jobs[j] == t.jobs[j])
    && u.pausedNode == t.pausedNode && u.pausedGpus == t.pausedGpus
  }

  // ---- the end of a run ----

  /** How a run ended, in the columns of its job: what the job became, and what it still holds. */
  ghost predicate EndsAs(before: Job, after: Job, exitCode: Option<int>, vanished: bool, maxAttempts: int, now: Time) {
    && (after.state == Succeeded <==>
          before.state != Cancelled && before.state != Preempting && !vanished && exitCode == Some(0))
    && (after.state == JobState.Queued <==>
          before.state != Cancelled && (before.state == Preempting || vanished) && before.attempts < maxAttempts)
    && (after.state == Cancelled <==> before.state == Cancelled)
    && after.state != Running && after.state != Preempting
    && after.exitCode == exitCode
    && after.preemptions == before.preemptions + (if vanished || before.state == Preempting then 1 else 0)
    && (after.state == JobState.Queued ==> after.gpu == None && after.container == None && after.finishedAt == None)
    && (after.state != JobState.Queued ==>
          after.gpu == before.gpu && after.container == before.container && after.finishedAt == Some(now))
    && after.spec == before.spec && after.attempts == before.attempts
    && after.submittedAt == before.submittedAt && after.startedAt == before.startedAt
  }

  /** The outcome written into the run, for what became of the job. */
  ghost predicate OutcomeTells(outcome: Outcome, before: Job, after: Job, vanished: bool) {
    && (outcome == WasCancelled <==> before.state == Cancelled)
    && (outcome == WasPreempted <==> before.state != Cancelled && (before.state == Preempting || vanished))
    && (outcome == DidSucceed <==> after.state == Succeeded)
  }

  /** The end of a run: the job succeeded, waits again, stays cancelled or failed, as the source says; its open run
      is closed at that time with an outcome to match; nothing else changes. */
  lemma FinishInColumns(t: Tables, id: JobId, exitCode: Option<int>, maxAttempts: int, vanished: bool, now: Time)
    requires id in t.jobs
    ensures var u := Finished(t, id, exitCode, maxAttempts, vanished, now);
            && OthersStay(t, u, id) && u.nextId == t.nextId
            && EndsAs(t.jobs[id], u.jobs[id], exitCode, vanished, maxAttempts, now)
            && |u.runs| == |t.runs|
            && forall k | 0 <= k < |t.runs| ::
                 var r, s := t.runs[k], u.runs[k];
                 if r.job == id && r.attempt == t.jobs[id].attempts && r.finishedAt == None then
                   && s.outcome.Some? && s == r.(finishedAt := Some(now), outcome := s.outcome)
                   && OutcomeTells(s.outcome.value, t.jobs[id], u.jobs[id], vanished)
                 else s == r
  {}

  /** A row is closed exactly when Docker did not list its container as running: by the exit code Docker listed, or
      as vanished when it listed none. */
  lemma ClosedByWhatDockerListed(trace: seq<World>, actions: seq<Action>, maxAttempts: int, i: nat)
    requires Execution(trace, actions, maxAttempts) && i < |actions| && actions[i].CloseOne?
    ensures trace[i].pc.Closing? && trace[i].pc.todo != []
    ensures var t, u := trace[i].t, trace[i + 1].t;
            var id, c, listing := trace[i].pc.todo[0].jobId, trace[i].pc.todo[0].container, trace[i].pc.listing;
            && id in t.jobs && id in u.jobs && OthersStay(t, u, id)
            && (t.jobs[id].state == Running || t.jobs[id].state == Preempting || t.jobs[id].state == Cancelled)
            && (c in listing ==> !listing[c].running)
            && (u.jobs[id].state == Succeeded <==>
                  t.jobs[id].state == Running && c in listing && listing[c].exitCode == 0)
            && (u.jobs[id].state == JobState.Queued <==>
                  && t.jobs[id].attempts < maxAttempts
                  && (t.jobs[id].state == Preempting || (t.jobs[id].state == Running && c !in listing)))
            && (u.jobs[id].state == Cancelled <==> t.jobs[id].state == Cancelled)
            && u.jobs[id].exitCode == (if c in listing then Some(listing[c].exitCode) else None)
            && trace[i + 1].stopIssued == trace[i].stopIssued - {c}
  {
    InvHoldsAlways(trace, actions, maxAttempts, i);
    ClosesActiveJob(trace[i], actions[i].now, maxAttempts);
    var w := trace[i];
    var row, listing := w.pc.todo[0], w.pc.listing;
    var exitCode := if row.container in listing then Some(listing[row.container].exitCode) else None;
    assert trace[i + 1] == Apply(w, actions[i], maxAttempts);
    FinishInColumns(w.t, row.jobId, exitCode, maxAttempts, row.container !in listing, actions[i].now);
    hide Execution, Inv, Finished, EndsAs;
    assert trace[i + 1].t == Finished(w.t, row.jobId, exitCode, maxAttempts, row.container !in listing, actions[i].now);
    EndedStates(w.t.jobs[row.jobId], trace[i + 1].t.jobs[row.jobId], exitCode, row.container !in listing, maxAttempts,
                actions[i].now);
  }

  /** A row is kept exactly when Docker listed its container as running, and then nothing changes. */
  lemma KeptWhenListedRunning(trace: seq<World>, actions: seq<Action>, maxAttempts: int, i: nat)
    requires Execution(trace, actions, maxAttempts) && i < |actions| && actions[i].KeepOne?
    ensures trace[i].pc.Closing? && trace[i].pc.todo != []
    ensures var c, listing := trace[i].pc.todo[0].container, trace[i].pc.listing;
            && c in listing && listing[c].running
            && trace[i + 1] == trace[i].(pc := trace[i + 1].pc)
  {}

  lemma EndedStates(before: Job, after: Job, exitCode: Option<int>, vanished: bool, maxAttempts: int, now: Time)
    requires EndsAs(before, after, exitCode, vanished, maxAttempts, now) && IsActive(before)
    ensures after.state == Succeeded <==> before.state == Running && !vanished && exitCode == Some(0)
    ensures after.state == JobState.Queued <==>
              && before.attempts < maxAttempts
              && (before.state == Preempting || (before.state == Running && vanished))
    ensures after.state == Cancelled <==> before.state == Cancelled
    ensures after.exitCode == exitCode
  {}

  lemma ClosesActiveJob(w: World, now: Time, maxAttempts: int)
    requires Inv(w, maxAttempts) && Enabled(w, CloseOne(now))
    ensures w.pc.todo[0].jobId in w.t.jobs && IsActive(w.t.jobs[w.pc.todo[0].jobId])
  {
    ClosingHead(w);
  }

  // ---- the other transactions ----

  /** A submitted job waits in the queue with what was asked for, the default RAM if it asked for none. */
  lemma SubmittedIsQueued(t: Tables, spec: JobSpec, now: Time, defaultRam: nat)
    requires t.WellFormed()
    ensures var u, id := Submitted(t, spec, now), t.nextId;
            && id !in t.jobs && OthersStay(t, u, id) && u.nextId == id + 1 && u.runs == t.runs
            && u.jobs[id].state == JobState.Queued && u.jobs[id].attempts == 0 && u.jobs[id].preemptions == 0
            && !IsActive(u.jobs[id])
            && var q := AsQueued(id, u.jobs[id], defaultRam);
               && q.jobId == id && q.priority == spec.priority && q.submittedAt == now
               && q.gpuMem == spec.gpuMem && q.gpuModels == spec.gpuModels
               && (spec.ram != 0 ==> q.ram == spec.ram) && (spec.ram == 0 ==> q.ram == defaultRam)
  {}

  /** The planner sees of any queued job what was asked for, with the default RAM where nothing was. */
  lemma QueueInColumns(id: JobId, job: Job, defaultRam: nat)
    ensures var q := AsQueued(id, job, defaultRam);
            && q.jobId == id && q.priority == job.spec.priority && q.submittedAt == job.submittedAt
            && q.gpuMem == job.spec.gpuMem && q.gpuModels == job.spec.gpuModels
            && (job.spec.ram != 0 ==> q.ram == job.spec.ram) && (job.spec.ram == 0 ==> q.ram == defaultRam)
  {}

  /** A start puts the job on its GPU and in its container, as one more attempt, and opens the run of that attempt. */
  lemma StartInColumns(t: Tables, id: JobId, gpu: GpuId, container: ContainerId, now: Time)
    requires id in t.jobs
    ensures var u := MarkedRunning(t, id, gpu, container, now);
            var before, after := t.jobs[id], u.jobs[id];
            && OthersStay(t, u, id) && u.nextId == t.nextId
            && after.state == Running && after.gpu == Some(gpu) && after.container == Some(container)
            && after.attempts == before.attempts + 1 && after.startedAt == Some(now)
            && after.spec == before.spec && after.preemptions == before.preemptions
            && after.submittedAt == before.submittedAt
            && |u.runs| == |t.runs| + 1 && u.runs[..|t.runs|] == t.runs
            && var r := u.runs[|t.runs|];
               && r.job == id && r.attempt == after.attempts && r.gpu == gpu && r.container == container
               && r.startedAt == now && r.finishedAt == None && r.outcome == None
  {}

  /** A preemption mark, a failure and a cancellation change the state, and when the job is over its end; a running
      or preempting job that is cancelled goes on holding its GPU. */
  lemma MarksInColumns(t: Tables, id: JobId, now: Time)
    requires id in t.jobs
    ensures var u := MarkedPreempting(t, id);
            && OthersStay(t, u, id) && u.runs == t.runs && u.nextId == t.nextId
            && u.jobs[id] == t.jobs[id].(state := u.jobs[id].state)
            && (u.jobs[id].state != t.jobs[id].state ==> t.jobs[id].state == Running && u.jobs[id].state == Preempting)
            && u.jobs[id].state != Running
    ensures var u := MarkedFailed(t, id, now);
            && OthersStay(t, u, id) && u.runs == t.runs && u.nextId == t.nextId
            && u.jobs[id].state == Failed && u.jobs[id].finishedAt == Some(now)
            && u.jobs[id] == t.jobs[id].(state := Failed, finishedAt := Some(now))
    ensures CanCancel(t, id) <==>
              t.jobs[id].state == JobState.Queued || t.jobs[id].state == Running || t.jobs[id].state == Preempting
    ensures CanCancel(t, id) ==>
              var u := MarkedCancelled(t, id, now);
              && OthersStay(t, u, id) && u.runs == t.runs && u.nextId == t.nextId
              && u.jobs[id].state == Cancelled
              && (t.jobs[id].state == JobState.Queued ==> u.jobs[id].finishedAt == Some(now))
              && (t.jobs[id].state != JobState.Queued ==> u.jobs[id].finishedAt == t.jobs[id].finishedAt)
              && u.jobs[id] == t.jobs[id].(state := Cancelled, finishedAt := u.jobs[id].finishedAt)
  {}

  /** Pausing the node or a GPU blocks it, resuming frees it, and nothing else changes. */
  lemma PauseAndResume(t: Tables, paused: bool, gpu: Option<GpuId>)
    ensures var u := SetPause(t, paused, gpu);
            && u.jobs == t.jobs && u.runs == t.runs && u.nextId == t.nextId
            && (gpu == None ==> u.pausedGpus == t.pausedGpus && (u.pausedNode <==> paused))
            && (gpu != None ==> (u.pausedNode <==> t.pausedNode) && (gpu.value in u.pausedGpus <==> paused))
            && (forall g: GpuId | gpu != Some(g) :: g in u.pausedGpus <==> g in t.pausedGpus)
    ensures var there := SetPause(t, true, gpu);
            (gpu == None ==> !t.pausedNode) && (gpu != None ==> gpu.value !in t.pausedGpus) ==>
              SetPause(there, false, gpu) == t
  {}

  /** The jobs that hold a GPU, and the rows the controller reads of them: running and preempting jobs, and cancelled
      ones whose container has not ended; all but the running ones are to be stopped. */
  lemma ActiveInColumns(t: Tables, maxAttempts: int, j: JobId)
    requires Ledger(t, maxAttempts)
    ensures t.Leased()
    ensures j in Holding(t) <==>
              && j in t.jobs
              && (|| t.jobs[j].state == Running || t.jobs[j].state == Preempting
                  || (t.jobs[j].state == Cancelled && t.jobs[j].container != None && t.jobs[j].finishedAt == None))
    ensures j in Holding(t) ==>
              && t.jobs[j].gpu == Some(Holding(t)[j].gpu) && t.jobs[j].container == Some(Holding(t)[j].container)
              && RunningSpot(j, Holding(t)[j].gpu, Holding(t)[j].container, t.jobs[j].state != Running) in ActiveRows(t)
    ensures j !in Holding(t) ==> forall r | r in ActiveRows(t) :: r.jobId != j
  {
    LedgerMeansLeased(t, maxAttempts);
    assert t.WellFormed();
  }

  // ---- the steps of a launch ----

  /** A planned launch is started exactly when its job is still queued; it is named after the next attempt. */
  lemma LaunchesStartQueuedJobs(trace: seq<World>, actions: seq<Action>, maxAttempts: int, i: nat)
    requires Execution(trace, actions, maxAttempts) && i < |actions| && actions[i].CheckLaunch?
    ensures trace[i].pc.Acting? && trace[i].pc.launches != []
    ensures var w, v, l := trace[i], trace[i + 1], trace[i].pc.launches[0];
            && (v.pc.Starting? <==> l.jobId in w.t.jobs && w.t.jobs[l.jobId].state == JobState.Queued)
            && (v.pc.Starting? ==> v.pc.launch == l && v.pc.attempt == w.t.jobs[l.jobId].attempts + 1)
            && v == w.(pc := v.pc)
  {}

  /** What `docker run` did ends up in the jobs table: when it failed the job has failed; when it worked the job runs on
      the launch's GPU in the container it created, if it was still queued, and is left alone otherwise. */
  lemma LaunchesAreRecorded(trace: seq<World>, actions: seq<Action>, maxAttempts: int, i: nat)
    requires Execution(trace, actions, maxAttempts) && i < |actions|
    ensures actions[i].RecordFailure? ==>
              trace[i].pc.Failing? &&
              var u, id := trace[i + 1].t, trace[i].pc.launch.jobId;
              id in trace[i].t.jobs ==> id in u.jobs && u.jobs[id].state == Failed
    ensures actions[i].RecordRunning? ==>
              trace[i].pc.Started? &&
              var t, u, l := trace[i].t, trace[i + 1].t, trace[i].pc.launch;
              if l.jobId in t.jobs && t.jobs[l.jobId].state == JobState.Queued then
                && l.jobId in u.jobs && u.jobs[l.jobId].state == Running
                && u.jobs[l.jobId].gpu == Some(l.gpu) && u.jobs[l.jobId].container == Some(trace[i].pc.container)
              else u == t && trace[i + 1].pc == Broken
  {
    hide ActiveRows, PendingStops;
  }

  /** The launch under way is named after the attempt its job would make. */
  ghost predicate NamedAfterAttempt(w: World) {
    match w.pc
    case Starting(l, attempt, _) => l.jobId in w.t.jobs && w.t.jobs[l.jobId].attempts + 1 == attempt
    case Started(l, c, _) =>
      && l.jobId in w.t.jobs
      && (c in w.docker ==> w.docker[c].name == Name(l.jobId, w.t.jobs[l.jobId].attempts + 1))
    case _ => true
  }

  lemma StepKeepsNames(w: World, a: Action, maxAttempts: int)
    requires w.t.WellFormed() && Enabled(w, a) && NamedAfterAttempt(w)
    ensures NamedAfterAttempt(Apply(w, a, maxAttempts))
  {
    if IsEnvironment(a) {
      OthersKeepNames(w, a, maxAttempts);
    } else if a.CheckLaunch? || a.RunContainer? {
      hide InUse;
    } else {
      NothingUnderWay(w, a, maxAttempts);
    }
  }

  lemma OthersKeepNames(w: World, a: Action, maxAttempts: int)
    requires w.t.WellFormed() && Enabled(w, a) && IsEnvironment(a) && NamedAfterAttempt(w)
    ensures NamedAfterAttempt(Apply(w, a, maxAttempts))
  {}

  lemma NothingUnderWay(w: World, a: Action, maxAttempts: int)
    requires Enabled(w, a) && !IsEnvironment(a) && !a.CheckLaunch? && !a.RunContainer?
    ensures !Apply(w, a, maxAttempts).pc.Starting? && !Apply(w, a, maxAttempts).pc.Started?
  {
    hide Finished, ActiveRows, PendingStops, InUse, GoodPlan, MarkedPreempting, MarkedFailed, MarkedRunning;
  }

  lemma InvIsWellFormed(w: World, maxAttempts: int)
    requires Inv(w, maxAttempts)
    ensures w.t.WellFormed()
  {}

  lemma {:induction false} NamesAreAttempts(trace: seq<World>, actions: seq<Action>, maxAttempts: int, i: nat)
    requires Execution(trace, actions, maxAttempts) && i < |trace|
    ensures NamedAfterAttempt(trace[i])
  {
    hide Enabled, Apply, Inv, NamedAfterAttempt;
    if i == 0 {
      assert NamedAfterAttempt(START) by { StartsUnnamed(); }
    } else {
      NamesAreAttempts(trace, actions, maxAttempts, i - 1);
      InvHoldsAlways(trace, actions, maxAttempts, i - 1);
      InvIsWellFormed(trace[i - 1], maxAttempts);
      StepKeepsNames(trace[i - 1], actions[i - 1], maxAttempts);
    }
  }

  lemma StartsUnnamed()
    ensures NamedAfterAttempt(START)
  {}

  /** Whatever users do meanwhile, a job that is recorded as running has the container that is named after the job and
      the attempt now counted, if that container is still there. */
  lemma RunningContainerIsNamed(trace: seq<World>, actions: seq<Action>, maxAttempts: int, i: nat)
    requires Execution(trace, actions, maxAttempts) && i < |actions| && actions[i].RecordRunning?
    ensures trace[i].pc.Started?
    ensures var v, id, c := trace[i + 1], trace[i].pc.launch.jobId, trace[i].pc.container;
            v.pc != Broken && c in v.docker ==>
              id in v.t.jobs && v.docker[c].name == Name(id, v.t.jobs[id].attempts)
  {
    NamesAreAttempts(trace, actions, maxAttempts, i);
  }
}
