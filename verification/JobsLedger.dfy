/** Exact accounting: how the jobs table and the run history agree, and that every transaction keeps it. */
module JobsLedger {
  import opened Model
  import opened Jobs

  /** The runs of one job, in order. */
  function RunsOf(runs: seq<Run>, id: JobId): seq<Run> {
    if runs == [] then []
    else
      var last := runs[|runs| - 1];
      RunsOf(runs[..|runs| - 1], id) + if last.job == id then [last] else []
  }

  function CountPreempted(rows: seq<Run>): nat {
    if rows == [] then 0
    else CountPreempted(rows[..|rows| - 1]) + if rows[|rows| - 1].outcome == Some(WasPreempted) then 1 else 0
  }

  /** The number of attempts a job may use: the first one is always allowed. */
  function AttemptCap(maxAttempts: int): int { Max(maxAttempts, 1) }

  /** The first `n` runs ended by preemption. */
  ghost predicate PreemptedUpTo(rows: seq<Run>, n: nat)
    requires n <= |rows|
  {
    forall k | 0 <= k < n :: rows[k].outcome == Some(WasPreempted)
  }

  /** One job against its runs: attempts 1..n, all but the last preempted, the last open iff active. */
  ghost predicate Accounts(id: JobId, job: Job, rows: seq<Run>, maxAttempts: int) {
    var n := |rows|;
    && n == job.attempts <= AttemptCap(maxAttempts)
    && (forall k | 0 <= k < n :: rows[k].job == id && rows[k].attempt == k + 1)
    && (forall k | 0 <= k < n :: rows[k].finishedAt.Some? <==> rows[k].outcome.Some?)
    && (n > 0 ==> PreemptedUpTo(rows, n - 1))
    && (IsActive(job) <==> n > 0 && rows[n - 1].outcome.None?)
    && (job.finishedAt.None? <==> IsLive(job) || IsActive(job))
    && (IsActive(job) ==>
          && job.attempts == job.preemptions + 1
          && job.gpu == Some(rows[n - 1].gpu) && job.container == Some(rows[n - 1].container))
    && match job.state
       case Queued =>
         job.attempts == job.preemptions && PreemptedUpTo(rows, n) && job.gpu.None? && job.container.None?
         && (n == 0 || n < maxAttempts)
       case Running => true
       case Preempting => true
       case Succeeded => n > 0 && job.attempts == job.preemptions + 1 && rows[n - 1].outcome == Some(DidSucceed)
       case Failed =>
         || (job.attempts == job.preemptions && PreemptedUpTo(rows, n))
         || (n > 0 && job.attempts == job.preemptions + 1 && rows[n - 1].outcome == Some(DidFail))
       case Cancelled =>
         || IsActive(job)
         || (job.attempts == job.preemptions && PreemptedUpTo(rows, n) && job.container.None?)
         || (n > 0 && rows[n - 1].outcome == Some(WasCancelled) && job.container.Some?
             && job.preemptions <= job.attempts <= job.preemptions + 1)
  }

  /** The whole database is in order. */
  ghost predicate Ledger(t: Tables, maxAttempts: int) {
    && t.WellFormed()
    && (forall r | r in t.runs :: r.job in t.jobs)
    && (forall j | j in t.jobs :: Accounts(j, t.jobs[j], RunsOf(t.runs, j), maxAttempts))
  }

  lemma LedgerMeansLeased(t: Tables, maxAttempts: int)
    requires Ledger(t, maxAttempts)
    ensures t.Leased()
  {
    forall j | j in t.jobs && IsActive(t.jobs[j]) ensures t.jobs[j].gpu.Some? && t.jobs[j].container.Some? {
      assert Accounts(j, t.jobs[j], RunsOf(t.runs, j), maxAttempts);
    }
  }

  lemma {:induction false} CountAllPreempted(rows: seq<Run>, n: nat)
    requires n <= |rows| && PreemptedUpTo(rows, n)
    ensures CountPreempted(rows[..n]) == n
  {
    if n > 0 {
      CountAllPreempted(rows, n - 1);
      assert rows[..n][..n - 1] == rows[..n - 1];
    } else {
      assert rows[..n] == [];
    }
  }

  /** Run accounting as a user reads it: preemptions counts the preempted runs, exactly for every job
      that is not cancelled and with an excess of at most one for a cancelled job. */
  lemma PreemptionsCountPreemptedRuns(t: Tables, id: JobId, maxAttempts: int)
    requires Ledger(t, maxAttempts) && id in t.jobs
    ensures var job, counted := t.jobs[id], CountPreempted(RunsOf(t.runs, id));
            && |RunsOf(t.runs, id)| == job.attempts
            && (job.state != Cancelled ==> job.preemptions == counted)
            && (job.state == Cancelled ==> counted <= job.preemptions <= counted + 1)
  {
    CountOfAccount(id, t.jobs[id], RunsOf(t.runs, id), maxAttempts);
  }

  lemma CountOfAccount(id: JobId, job: Job, rows: seq<Run>, maxAttempts: int)
    requires Accounts(id, job, rows, maxAttempts)
    ensures var counted := CountPreempted(rows);
            && |rows| == job.attempts
            && (job.state != Cancelled ==> job.preemptions == counted)
            && (job.state == Cancelled ==> counted <= job.preemptions <= counted + 1)
  {
    var n := |rows|;
    if n > 0 {
      CountAllPreempted(rows, n - 1);
    }
  }

  // ---- the run history under the two updates ----

  lemma RunsOfAppend(runs: seq<Run>, r: Run, id: JobId)
    ensures RunsOf(runs + [r], id) == RunsOf(runs, id) + if r.job == id then [r] else []
  {
    assert (runs + [r])[..|runs|] == runs;
  }

  lemma {:induction false} RunsOfUnknown(runs: seq<Run>, id: JobId)
    requires forall r | r in runs :: r.job != id
    ensures RunsOf(runs, id) == []
  {
    if runs != [] {
      assert runs[|runs| - 1] in runs;
      RunsOfUnknown(runs[..|runs| - 1], id);
    }
  }

  lemma {:induction false} RunsOfCloseOther(runs: seq<Run>, job: JobId, attempt: nat, now: Time, outcome: Outcome,
                                            id: JobId)
    requires id != job
    ensures RunsOf(CloseRuns(runs, job, attempt, now, outcome), id) == RunsOf(runs, id)
  {
    if runs != [] {
      var front := runs[..|runs| - 1];
      RunsOfCloseOther(front, job, attempt, now, outcome, id);
      assert CloseRuns(runs, job, attempt, now, outcome)[..|runs| - 1] == CloseRuns(front, job, attempt, now, outcome);
    }
  }

  lemma {:induction false} RunsOfCloseSame(runs: seq<Run>, job: JobId, attempt: nat, now: Time, outcome: Outcome)
    ensures RunsOf(CloseRuns(runs, job, attempt, now, outcome), job)
         == CloseRuns(RunsOf(runs, job), job, attempt, now, outcome)
  {
    hide CloseRuns, RunsOf;
    if runs == [] {
      RunsOfUnknown(runs, job);
      assert CloseRuns(runs, job, attempt, now, outcome) == runs;
    } else {
      var front, last := runs[..|runs| - 1], runs[|runs| - 1];
      assert front + [last] == runs;
      var closed := CloseRuns([last], job, attempt, now, outcome);
      assert closed == [closed[0]];
      calc {
        RunsOf(CloseRuns(runs, job, attempt, now, outcome), job);
        { CloseAppend(front, last, job, attempt, now, outcome); }
        RunsOf(CloseRuns(front, job, attempt, now, outcome) + [closed[0]], job);
        { RunsOfAppend(CloseRuns(front, job, attempt, now, outcome), closed[0], job); }
        RunsOf(CloseRuns(front, job, attempt, now, outcome), job) + (if last.job == job then closed else []);
        { RunsOfCloseSame(front, job, attempt, now, outcome); }
        CloseRuns(RunsOf(front, job), job, attempt, now, outcome) + (if last.job == job then closed else []);
        { CloseAppend(RunsOf(front, job), last, job, attempt, now, outcome); }
        CloseRuns(RunsOf(front, job) + (if last.job == job then [last] else []), job, attempt, now, outcome);
        { RunsOfAppend(front, last, job); }
        CloseRuns(RunsOf(runs, job), job, attempt, now, outcome);
      }
    }
  }

  lemma CloseAppend(runs: seq<Run>, r: Run, job: JobId, attempt: nat, now: Time, outcome: Outcome)
    ensures CloseRuns(runs + [r], job, attempt, now, outcome)
         == CloseRuns(runs, job, attempt, now, outcome) + CloseRuns([r], job, attempt, now, outcome)
  {
    assert (runs + [r])[..|runs|] == runs;
  }

  lemma {:induction false} CloseKeepsJobs(runs: seq<Run>, job: JobId, attempt: nat, now: Time, outcome: Outcome)
    ensures forall r | r in CloseRuns(runs, job, attempt, now, outcome) :: exists q | q in runs :: q.job == r.job
  {
    var closed := CloseRuns(runs, job, attempt, now, outcome);
    forall r | r in closed ensures exists q | q in runs :: q.job == r.job {
      var i :| 0 <= i < |closed| && closed[i] == r;
      assert runs[i] in runs && runs[i].job == r.job;
    }
  }

  // ---- one job's account under each update ----

  /** A job in the state a launch finds it in: queued, or cancelled while still in the queue. */
  ghost predicate NotStarted(job: Job) {
    job.state == Queued || (job.state == Cancelled && job.container.None?)
  }

  lemma AccountsStart(id: JobId, job: Job, rows: seq<Run>, gpu: GpuId, container: ContainerId, now: Time,
                      maxAttempts: int)
    requires Accounts(id, job, rows, maxAttempts) && job.state == Queued
    ensures Accounts(id, job.(state := Running, attempts := job.attempts + 1, gpu := Some(gpu),
                              container := Some(container), startedAt := Some(now)),
                     rows + [Run(id, job.attempts + 1, gpu, container, now, None, None)], maxAttempts)
  {}

  lemma AccountsPreempt(id: JobId, job: Job, rows: seq<Run>, maxAttempts: int)
    requires Accounts(id, job, rows, maxAttempts) && job.state == Running
    ensures Accounts(id, job.(state := Preempting), rows, maxAttempts)
  {}

  lemma AccountsFail(id: JobId, job: Job, rows: seq<Run>, now: Time, maxAttempts: int)
    requires Accounts(id, job, rows, maxAttempts) && NotStarted(job)
    ensures Accounts(id, job.(state := Failed, finishedAt := Some(now)), rows, maxAttempts)
  {}

  lemma AccountsCancel(id: JobId, job: Job, rows: seq<Run>, now: Time, maxAttempts: int)
    requires Accounts(id, job, rows, maxAttempts) && IsLive(job)
    ensures Accounts(id, job.(state := Cancelled,
                              finishedAt := if job.state == Queued then Some(now) else job.finishedAt),
                     rows, maxAttempts)
  {}

  /** Closing the last, open row of a job's runs. */
  lemma CloseLast(id: JobId, job: Job, rows: seq<Run>, now: Time, outcome: Outcome, maxAttempts: int)
    requires Accounts(id, job, rows, maxAttempts) && IsActive(job)
    ensures var n := |rows|;
            n > 0 && CloseRuns(rows, id, job.attempts, now, outcome)
                     == rows[n - 1 := rows[n - 1].(finishedAt := Some(now), outcome := Some(outcome))]
  {}

  lemma AccountsFinish(id: JobId, job: Job, rows: seq<Run>, exitCode: Option<int>, vanished: bool, now: Time,
                       maxAttempts: int)
    requires Accounts(id, job, rows, maxAttempts) && IsActive(job)
    ensures var outcome := Ending(job, exitCode, maxAttempts, vanished).1;
            Accounts(id, EndedJob(job, exitCode, maxAttempts, vanished, now),
                     CloseRuns(rows, id, job.attempts, now, outcome), maxAttempts)
  {
    CloseLast(id, job, rows, now, Ending(job, exitCode, maxAttempts, vanished).1, maxAttempts);
  }

  // ---- every transaction keeps the ledger ----

  /** A transaction on one job: the other jobs keep their rows and their runs. */
  ghost predicate OnlyTouches(t: Tables, after: Tables, id: JobId) {
    && id in t.jobs && after.jobs.Keys == t.jobs.Keys && after.nextId == t.nextId
    && (forall r | r in after.runs :: r.job in t.jobs)
    && (forall j | j in t.jobs && j != id :: after.jobs[j] == t.jobs[j] && RunsOf(after.runs, j) == RunsOf(t.runs, j))
  }

  lemma OneAccountAtATime(t: Tables, after: Tables, id: JobId, maxAttempts: int)
    requires Ledger(t, maxAttempts) && OnlyTouches(t, after, id)
    requires Accounts(id, after.jobs[id], RunsOf(after.runs, id), maxAttempts)
    ensures Ledger(after, maxAttempts)
  {
    hide Accounts;
    forall j | j in after.jobs ensures Accounts(j, after.jobs[j], RunsOf(after.runs, j), maxAttempts) {
      if j != id {
        assert Accounts(j, t.jobs[j], RunsOf(t.runs, j), maxAttempts);
      }
    }
  }

  lemma SubmitKeepsLedger(t: Tables, spec: JobSpec, now: Time, maxAttempts: int)
    requires Ledger(t, maxAttempts) && t.nextId >= 1
    ensures Ledger(Submitted(t, spec, now), maxAttempts)
  {
    RunsOfUnknown(t.runs, t.nextId);
  }

  lemma MarkRunningKeepsLedger(t: Tables, id: JobId, gpu: GpuId, container: ContainerId, now: Time, maxAttempts: int)
    requires Ledger(t, maxAttempts) && id in t.jobs && t.jobs[id].state == Queued
    ensures Ledger(MarkedRunning(t, id, gpu, container, now), maxAttempts)
  {
    hide Accounts;
    var after := MarkedRunning(t, id, gpu, container, now);
    var added := Run(id, t.jobs[id].attempts + 1, gpu, container, now, None, None);
    forall j ensures RunsOf(after.runs, j) == RunsOf(t.runs, j) + if j == id then [added] else [] {
      RunsOfAppend(t.runs, added, j);
    }
    AccountsStart(id, t.jobs[id], RunsOf(t.runs, id), gpu, container, now, maxAttempts);
    OneAccountAtATime(t, after, id, maxAttempts);
  }

  lemma MarkPreemptingKeepsLedger(t: Tables, id: JobId, maxAttempts: int)
    requires Ledger(t, maxAttempts)
    ensures Ledger(MarkedPreempting(t, id), maxAttempts)
  {
    hide Accounts;
    if id in t.jobs && t.jobs[id].state == Running {
      AccountsPreempt(id, t.jobs[id], RunsOf(t.runs, id), maxAttempts);
      OneAccountAtATime(t, MarkedPreempting(t, id), id, maxAttempts);
    }
  }

  lemma FailKeepsLedger(t: Tables, id: JobId, now: Time, maxAttempts: int)
    requires Ledger(t, maxAttempts)
    requires id in t.jobs && NotStarted(t.jobs[id])
    ensures Ledger(MarkedFailed(t, id, now), maxAttempts)
  {
    hide Accounts;
    AccountsFail(id, t.jobs[id], RunsOf(t.runs, id), now, maxAttempts);
    OneAccountAtATime(t, MarkedFailed(t, id, now), id, maxAttempts);
  }

  /** `fail` checks nothing. It keeps the accounting if and only if the job had not started or had failed
      already: failing an active job leaves its run open, and a success or a cancelled run would not match. */
  lemma FailKeepsLedgerExactly(t: Tables, id: JobId, now: Time, maxAttempts: int)
    requires Ledger(t, maxAttempts)
    ensures Ledger(MarkedFailed(t, id, now), maxAttempts)
       <==> (id in t.jobs ==> NotStarted(t.jobs[id]) || t.jobs[id].state == Failed)
  {
    hide Accounts;
    if id in t.jobs {
      var after := MarkedFailed(t, id, now);
      FailedAccount(id, t.jobs[id], RunsOf(t.runs, id), now, maxAttempts);
      if Accounts(id, after.jobs[id], RunsOf(t.runs, id), maxAttempts) {
        OneAccountAtATime(t, after, id, maxAttempts);
      }
    }
  }

  lemma FailedAccount(id: JobId, job: Job, rows: seq<Run>, now: Time, maxAttempts: int)
    requires Accounts(id, job, rows, maxAttempts)
    ensures Accounts(id, job.(state := Failed, finishedAt := Some(now)), rows, maxAttempts)
       <==> NotStarted(job) || job.state == Failed
  {}

  lemma CancelKeepsLedger(t: Tables, id: JobId, now: Time, maxAttempts: int)
    requires Ledger(t, maxAttempts) && CanCancel(t, id)
    ensures Ledger(MarkedCancelled(t, id, now), maxAttempts)
  {
    hide Accounts;
    AccountsCancel(id, t.jobs[id], RunsOf(t.runs, id), now, maxAttempts);
    OneAccountAtATime(t, MarkedCancelled(t, id, now), id, maxAttempts);
  }

  lemma FinishKeepsLedger(t: Tables, id: JobId, exitCode: Option<int>, maxAttempts: int, vanished: bool, now: Time)
    requires Ledger(t, maxAttempts) && id in t.jobs && IsActive(t.jobs[id])
    ensures Ledger(Finished(t, id, exitCode, maxAttempts, vanished, now), maxAttempts)
  {
    hide Accounts, RunsOf, CloseRuns, EndedJob, Ending;
    var after := Finished(t, id, exitCode, maxAttempts, vanished, now);
    var job := t.jobs[id];
    var outcome := Ending(job, exitCode, maxAttempts, vanished).1;
    AccountsFinish(id, job, RunsOf(t.runs, id), exitCode, vanished, now, maxAttempts);
    RunsOfCloseSame(t.runs, id, job.attempts, now, outcome);
    CloseKeepsJobs(t.runs, id, job.attempts, now, outcome);
    forall j | j != id ensures RunsOf(after.runs, j) == RunsOf(t.runs, j) {
      RunsOfCloseOther(t.runs, id, job.attempts, now, outcome, j);
    }
    OneAccountAtATime(t, after, id, maxAttempts);
  }

  /** A finished run is closed exactly once: of all runs, only the job's last row changes. */
  lemma FinishClosesOneRun(t: Tables, id: JobId, exitCode: Option<int>, maxAttempts: int, vanished: bool, now: Time)
    requires Ledger(t, maxAttempts) && id in t.jobs && IsActive(t.jobs[id])
    ensures var before := RunsOf(t.runs, id);
            var after := RunsOf(Finished(t, id, exitCode, maxAttempts, vanished, now).runs, id);
            var n := |before|;
            && n > 0 && |after| == n && after[..n - 1] == before[..n - 1]
            && before[n - 1].outcome.None? && after[n - 1].outcome.Some? && after[n - 1].finishedAt == Some(now)
    ensures forall j | j != id ::
      RunsOf(Finished(t, id, exitCode, maxAttempts, vanished, now).runs, j) == RunsOf(t.runs, j)
  {
    var job := t.jobs[id];
    var outcome := Ending(job, exitCode, maxAttempts, vanished).1;
    assert Accounts(id, job, RunsOf(t.runs, id), maxAttempts);
    CloseLast(id, job, RunsOf(t.runs, id), now, outcome, maxAttempts);
    RunsOfCloseSame(t.runs, id, job.attempts, now, outcome);
    forall j | j != id
      ensures RunsOf(Finished(t, id, exitCode, maxAttempts, vanished, now).runs, j) == RunsOf(t.runs, j)
    {
      RunsOfCloseOther(t.runs, id, job.attempts, now, outcome, j);
    }
  }

  /** The exception in the accounting, exactly: ending a cancelled job counts one preemption too many if and
      only if its container had vanished, for the run itself is recorded as cancelled. */
  lemma VanishedCancelIsOvercounted(t: Tables, id: JobId, exitCode: Option<int>, maxAttempts: int, vanished: bool,
                                    now: Time)
    requires Ledger(t, maxAttempts) && id in t.jobs && IsActive(t.jobs[id]) && t.jobs[id].state == Cancelled
    ensures var u := Finished(t, id, exitCode, maxAttempts, vanished, now);
            u.jobs[id].preemptions == CountPreempted(RunsOf(u.runs, id)) + if vanished then 1 else 0
  {
    hide RunsOf, CountPreempted, CloseRuns;
    var job, rows := t.jobs[id], RunsOf(t.runs, id);
    var n := |rows|;
    assert Accounts(id, job, rows, maxAttempts);
    CloseLast(id, job, rows, now, WasCancelled, maxAttempts);
    RunsOfCloseSame(t.runs, id, job.attempts, now, WasCancelled);
    var closed := rows[n - 1].(finishedAt := Some(now), outcome := Some(WasCancelled));
    assert rows[n - 1 := closed] == rows[..n - 1] + [closed];
    CountAllPreempted(rows, n - 1);
    CountAppend(rows[..n - 1], closed);
  }

  lemma CountAppend(rows: seq<Run>, r: Run)
    ensures CountPreempted(rows + [r]) == CountPreempted(rows) + if r.outcome == Some(WasPreempted) then 1 else 0
  {
    assert (rows + [r])[..|rows|] == rows;
  }

  // ---- bounded retries ----

  /** How far a job is from its end; every lifecycle transition makes it smaller. */
  function Distance(job: Job, maxAttempts: int): int {
    3 * (AttemptCap(maxAttempts) - job.attempts)
    + match job.state
      case Running => 5
      case Preempting => 4
      case Queued => 3
      case Cancelled => if IsActive(job) then 2 else 1
      case Succeeded => 0
      case Failed => 0
  }

  /** The phase of a job, as the lifecycle counts it. */
  function Phase(job: Job): (JobState, bool) { (job.state, IsActive(job)) }
}
