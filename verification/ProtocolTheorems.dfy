/** What every execution guarantees. */
module ProtocolTheorems {
  import opened Model
  import opened Jobs
  import opened JobsLedger
  import opened Leases
  import opened Protocol
  import opened ProtocolInvariant
  import opened ProtocolSteps

  // ---- exclusivity ----

  /** No two active jobs hold the same GPU, and no two spot containers exist on one GPU unless the
      removal of one of them has failed: in every state of every execution, with users, exits, outages,
      failed launches, crashes and restarts interleaved in any order. */
  lemma GpusAreNeverShared(trace: seq<World>, actions: seq<Action>, maxAttempts: int, i: nat)
    requires Execution(trace, actions, maxAttempts) && i < |trace|
    ensures var jobs := trace[i].t.jobs;
            forall j, k | j in jobs && k in jobs && j != k && IsActive(jobs[j]) && IsActive(jobs[k]) ::
              jobs[j].gpu.Some? && jobs[k].gpu.Some? && jobs[j].gpu != jobs[k].gpu
                    && jobs[j].container != jobs[k].container
    ensures var docker := trace[i].docker;
            forall c, d | c in docker && d in docker && c != d && docker[c].gpu == docker[d].gpu ::
              c in trace[i].stuck || d in trace[i].stuck
  {
    InvHoldsAlways(trace, actions, maxAttempts, i);
    Exclusive(trace[i], maxAttempts);
  }

  lemma Exclusive(w: World, maxAttempts: int)
    requires Inv(w, maxAttempts)
    ensures var jobs := w.t.jobs;
            forall j, k | j in jobs && k in jobs && j != k && IsActive(jobs[j]) && IsActive(jobs[k]) ::
              jobs[j].gpu.Some? && jobs[k].gpu.Some? && jobs[j].gpu != jobs[k].gpu
                    && jobs[j].container != jobs[k].container
    ensures AloneOnGpu(w)
  {
    LedgerMeansLeased(w.t, maxAttempts);
    hide Ledger;
    var h := Holding(w.t);
    forall j, k | j in w.t.jobs && k in w.t.jobs && j != k && IsActive(w.t.jobs[j]) && IsActive(w.t.jobs[k])
      ensures w.t.jobs[j].gpu != w.t.jobs[k].gpu && w.t.jobs[j].container != w.t.jobs[k].container
    {
      assert j in h && k in h;
    }
  }

  predicate IsFailedRemoval(a: Action) {
    a == Archive(false) || (a.SweepOne? && !a.removed)
  }

  /** Only a failed `docker rm -f` leaves a container stuck. */
  lemma {:induction false} StuckNeedsFailedRemoval(trace: seq<World>, actions: seq<Action>, maxAttempts: int, i: nat)
    requires Execution(trace, actions, maxAttempts) && i < |trace|
    requires forall k | 0 <= k < i :: !IsFailedRemoval(actions[k])
    ensures trace[i].stuck == {}
  {
    if i > 0 {
      StuckNeedsFailedRemoval(trace, actions, maxAttempts, i - 1);
      StuckGrowsByFailure(trace[i - 1], actions[i - 1], maxAttempts);
    }
  }

  lemma StuckGrowsByFailure(w: World, a: Action, maxAttempts: int)
    requires Enabled(w, a) && !IsFailedRemoval(a)
    ensures Apply(w, a, maxAttempts).stuck == w.stuck
  {}

  /** As long as removals succeed, no GPU ever has two spot containers, running or not. */
  lemma OneContainerPerGpu(trace: seq<World>, actions: seq<Action>, maxAttempts: int, i: nat)
    requires Execution(trace, actions, maxAttempts) && i < |trace|
    requires forall k | 0 <= k < i :: !IsFailedRemoval(actions[k])
    ensures var docker := trace[i].docker;
            forall c, d | c in docker && d in docker && c != d :: docker[c].gpu != docker[d].gpu
  {
    GpusAreNeverShared(trace, actions, maxAttempts, i);
    StuckNeedsFailedRemoval(trace, actions, maxAttempts, i);
  }

  // ---- no resurrection ----

  /** One step on one job that exists: what its state can become. */
  ghost predicate Lifecycle(before: Job, after: Job, maxAttempts: int) {
    && (!IsLive(before) ==> !IsLive(after))
    && (before.state == Succeeded ==> after.state == Succeeded)
    && (before.state == Failed ==> after.state == Failed)
    && (Phase(after) == Phase(before) ==> Distance(after, maxAttempts) == Distance(before, maxAttempts))
    && (Phase(after) != Phase(before) ==> Distance(after, maxAttempts) < Distance(before, maxAttempts))
  }

  /** Every job of `t` follows the lifecycle into `u`. */
  ghost predicate AllFollow(t: Tables, u: Tables, maxAttempts: int) {
    forall j | j in t.jobs :: j in u.jobs && Lifecycle(t.jobs[j], u.jobs[j], maxAttempts)
  }

  lemma SubmitFollows(t: Tables, spec: JobSpec, now: Time, maxAttempts: int)
    requires t.WellFormed()
    ensures AllFollow(t, Submitted(t, spec, now), maxAttempts)
  {}

  lemma CancelFollows(t: Tables, id: JobId, now: Time, maxAttempts: int)
    requires Ledger(t, maxAttempts) && CanCancel(t, id)
    ensures AllFollow(t, MarkedCancelled(t, id, now), maxAttempts)
  {
    LiveJobShape(t, id, maxAttempts);
    hide Ledger;
  }

  lemma PreemptFollows(t: Tables, id: JobId, maxAttempts: int)
    ensures AllFollow(t, MarkedPreempting(t, id), maxAttempts)
  {}

  lemma FailFollows(t: Tables, id: JobId, now: Time, maxAttempts: int)
    requires IsPending(t, id)
    ensures AllFollow(t, MarkedFailed(t, id, now), maxAttempts)
  {}

  lemma StartFollows(t: Tables, id: JobId, gpu: GpuId, c: ContainerId, now: Time, maxAttempts: int)
    requires id in t.jobs && t.jobs[id].state == Queued
    ensures AllFollow(t, MarkedRunning(t, id, gpu, c, now), maxAttempts)
  {}

  lemma FinishFollows(t: Tables, id: JobId, exitCode: Option<int>, maxAttempts: int, vanished: bool, now: Time)
    requires id in t.jobs && IsActive(t.jobs[id])
    ensures AllFollow(t, Finished(t, id, exitCode, maxAttempts, vanished, now), maxAttempts)
  {
    hide CloseRuns;
  }

  lemma CloseOneFollows(w: World, now: Time, maxAttempts: int)
    requires Inv(w, maxAttempts) && Enabled(w, CloseOne(now))
    ensures AllFollow(w.t, Apply(w, CloseOne(now), maxAttempts).t, maxAttempts)
  {
    hide Lifecycle, Ledger, Base, AllFollow, Finished;
    ClosingHead(w);
    var row, listing := w.pc.todo[0], w.pc.listing;
    var listed := row.container in listing;
    FinishFollows(w.t, row.jobId, if listed then Some(listing[row.container].exitCode) else None,
                  maxAttempts, !listed, now);
  }

  lemma RecordFailureFollows(w: World, now: Time, maxAttempts: int)
    requires Inv(w, maxAttempts) && Enabled(w, RecordFailure(now))
    ensures AllFollow(w.t, Apply(w, RecordFailure(now), maxAttempts).t, maxAttempts)
  {
    hide Lifecycle, Ledger, Base, AllFollow, MarkedFailed;
    FailFollows(w.t, w.pc.launch.jobId, now, maxAttempts);
  }

  lemma RecordRunningFollows(w: World, now: Time, maxAttempts: int)
    requires Enabled(w, RecordRunning(now))
    ensures AllFollow(w.t, Apply(w, RecordRunning(now), maxAttempts).t, maxAttempts)
  {
    hide Lifecycle, AllFollow, MarkedRunning;
    var l := w.pc.launch;
    if l.jobId in w.t.jobs && w.t.jobs[l.jobId].state == Queued {
      StartFollows(w.t, l.jobId, l.gpu, w.pc.container, now, maxAttempts);
    } else {
      SameFollows(w.t, maxAttempts);
    }
  }

  lemma UserStepFollows(w: World, a: Action, maxAttempts: int)
    requires Ledger(w.t, maxAttempts) && Enabled(w, a) && (a.Submit? || a.Cancel? || a.Pause?)
    ensures AllFollow(w.t, Apply(w, a, maxAttempts).t, maxAttempts)
  {
    LedgerIsWellFormed(w.t, maxAttempts);
    hide Lifecycle, Ledger, AllFollow, Submitted, MarkedCancelled, SetPause;
    match a {
      case Cancel(id, now) => CancelFollows(w.t, id, now, maxAttempts);
      case Submit(spec, now) => SubmitFollows(w.t, spec, now, maxAttempts);
      case Pause(paused, gpu) => PauseFollows(w.t, paused, gpu, maxAttempts);
    }
  }

  lemma PreemptStepFollows(w: World, a: Action, maxAttempts: int)
    requires Enabled(w, a) && (a.MarkReclaim? || a.DrainMark?)
    ensures AllFollow(w.t, Apply(w, a, maxAttempts).t, maxAttempts)
  {
    hide Lifecycle, AllFollow, MarkedPreempting;
    PreemptFollows(w.t, if a.MarkReclaim? then w.pc.reclaims[0].jobId else w.pc.rows[0].jobId, maxAttempts);
  }

  lemma InvHasLedger(w: World, maxAttempts: int)
    requires Inv(w, maxAttempts)
    ensures Ledger(w.t, maxAttempts)
  {}

  /** Every step moves every job along its lifecycle. */
  lemma StepFollowsLifecycle(w: World, a: Action, maxAttempts: int)
    requires Inv(w, maxAttempts) && Enabled(w, a)
    ensures AllFollow(w.t, Apply(w, a, maxAttempts).t, maxAttempts)
  {
    InvHasLedger(w, maxAttempts);
    hide *;
    match a {
      case CloseOne(now) => CloseOneFollows(w, now, maxAttempts);
      case RecordFailure(now) => RecordFailureFollows(w, now, maxAttempts);
      case RecordRunning(now) => RecordRunningFollows(w, now, maxAttempts);
      case Cancel(_, _) => UserStepFollows(w, a, maxAttempts);
      case Submit(_, _) => UserStepFollows(w, a, maxAttempts);
      case Pause(_, _) => UserStepFollows(w, a, maxAttempts);
      case MarkReclaim => PreemptStepFollows(w, a, maxAttempts);
      case DrainMark => PreemptStepFollows(w, a, maxAttempts);
      case _ => OtherStepsKeepTables(w, a, maxAttempts); SameFollows(w.t, maxAttempts);
    }
  }

  lemma LedgerIsWellFormed(t: Tables, maxAttempts: int)
    requires Ledger(t, maxAttempts)
    ensures t.WellFormed()
  {}

  lemma SameFollows(t: Tables, maxAttempts: int)
    ensures AllFollow(t, t, maxAttempts)
  {}

  lemma PauseFollows(t: Tables, paused: bool, gpu: Option<GpuId>, maxAttempts: int)
    ensures AllFollow(t, SetPause(t, paused, gpu), maxAttempts)
  {}

  lemma OtherStepsKeepTables(w: World, a: Action, maxAttempts: int)
    requires Enabled(w, a)
    requires !(a.CloseOne? || a.RecordFailure? || a.RecordRunning? || a.Cancel? || a.Submit? || a.Pause?
          || a.MarkReclaim? || a.DrainMark?)
    ensures Apply(w, a, maxAttempts).t == w.t
  {}

  /** A finished job is never queued, running or preempting again; success and failure are final. */
  lemma {:induction false} DeadStaysDead(trace: seq<World>, actions: seq<Action>, maxAttempts: int, i: nat, k: nat,
                                         j: JobId)
    requires Execution(trace, actions, maxAttempts) && i <= k < |trace|
    requires IsDead(trace[i].t, j)
    ensures IsDead(trace[k].t, j)
    ensures trace[i].t.jobs[j].state != Cancelled ==> trace[k].t.jobs[j].state == trace[i].t.jobs[j].state
  {
    hide Inv, Enabled, Apply;
    if i < k {
      DeadStaysDead(trace, actions, maxAttempts, i, k - 1, j);
      InvHoldsAlways(trace, actions, maxAttempts, k - 1);
      StepFollowsLifecycle(trace[k - 1], actions[k - 1], maxAttempts);
    }
  }

  // ---- bounded retries ----

  /** How often job `j` changes its phase between states `i` and `k`. */
  ghost function PhaseChanges(trace: seq<World>, j: JobId, i: nat, k: nat): nat
    requires i <= k < |trace|
    requires forall n | i <= n <= k :: j in trace[n].t.jobs
    decreases k
  {
    if i == k then 0
    else PhaseChanges(trace, j, i, k - 1)
         + if Phase(trace[k].t.jobs[j]) != Phase(trace[k - 1].t.jobs[j]) then 1 else 0
  }

  lemma {:induction false} JobsAreNeverDeleted(trace: seq<World>, actions: seq<Action>, maxAttempts: int, i: nat,
                                               k: nat, j: JobId)
    requires Execution(trace, actions, maxAttempts) && i <= k < |trace| && j in trace[i].t.jobs
    ensures j in trace[k].t.jobs
  {
    hide Inv, Enabled, Apply;
    if i < k {
      JobsAreNeverDeleted(trace, actions, maxAttempts, i, k - 1, j);
      InvHoldsAlways(trace, actions, maxAttempts, k - 1);
      StepFollowsLifecycle(trace[k - 1], actions[k - 1], maxAttempts);
    }
  }

  lemma {:induction false} ChangesUseUpDistance(trace: seq<World>, actions: seq<Action>, maxAttempts: int, i: nat,
                                                k: nat, j: JobId)
    requires Execution(trace, actions, maxAttempts) && i <= k < |trace|
    requires forall n | i <= n <= k :: j in trace[n].t.jobs
    ensures PhaseChanges(trace, j, i, k) + Distance(trace[k].t.jobs[j], maxAttempts)
         <= Distance(trace[i].t.jobs[j], maxAttempts)
    decreases k
  {
    hide Inv, Enabled, Apply;
    if i < k {
      ChangesUseUpDistance(trace, actions, maxAttempts, i, k - 1, j);
      InvHoldsAlways(trace, actions, maxAttempts, k - 1);
      StepFollowsLifecycle(trace[k - 1], actions[k - 1], maxAttempts);
    }
  }

  /** A job uses at most `max(max_attempts, 1)` attempts and changes its phase at most three times per
      attempt plus three, however long the execution. */
  lemma JobsHaveBoundedLives(trace: seq<World>, actions: seq<Action>, maxAttempts: int, i: nat, k: nat, j: JobId)
    requires Execution(trace, actions, maxAttempts) && i <= k < |trace|
    requires j in trace[i].t.jobs && trace[i].t.jobs[j].state == Queued && trace[i].t.jobs[j].attempts == 0
    ensures forall n | i <= n <= k :: j in trace[n].t.jobs
    ensures trace[k].t.jobs[j].attempts <= AttemptCap(maxAttempts)
    ensures PhaseChanges(trace, j, i, k) <= 3 * AttemptCap(maxAttempts) + 3
  {
    hide Enabled, Apply, Accounts;
    forall n | i <= n <= k ensures j in trace[n].t.jobs {
      JobsAreNeverDeleted(trace, actions, maxAttempts, i, n, j);
    }
    ChangesUseUpDistance(trace, actions, maxAttempts, i, k, j);
    InvHoldsAlways(trace, actions, maxAttempts, k);
    AttemptsAreCapped(trace[k].t, j, maxAttempts);
  }

  lemma AttemptsAreCapped(t: Tables, j: JobId, maxAttempts: int)
    requires Ledger(t, maxAttempts) && j in t.jobs
    ensures t.jobs[j].attempts <= AttemptCap(maxAttempts)
  {
    AccountOf(t, j, maxAttempts);
  }

  // ---- reconcile ----

  /** When a reconcile ends, active jobs and existing spot containers agree: every container (other than
      one whose removal failed) belongs to an active job, every active job was listed with a running
      container, and no two of them share a container. */
  lemma ReconcileRestoresAgreement(trace: seq<World>, actions: seq<Action>, maxAttempts: int, i: nat)
    requires Execution(trace, actions, maxAttempts) && i < |actions| && actions[i] == EndSweep
    ensures trace[i].pc.Sweeping?
    ensures var w := trace[i]; var h := Holding(w.t);
            && (forall c | c in w.docker && c !in w.stuck :: exists j :: j in h && h[j].container == c)
            && (forall j | j in h :: SeenRunning(h, j, w.pc.listing))
            && (forall j, k | j in h && k in h && j != k :: h[j].container != h[k].container)
  {
    InvHoldsAlways(trace, actions, maxAttempts, i);
    hide Ledger;
  }

  /** Without a recorded start, active jobs only become fewer, and keep their GPU and container. */
  lemma {:induction false} NoStartNoLease(trace: seq<World>, actions: seq<Action>, maxAttempts: int, i: nat, k: nat)
    requires Execution(trace, actions, maxAttempts) && i <= k < |trace|
    requires forall n | i <= n < k :: !actions[n].RecordRunning?
    ensures forall j | j in Holding(trace[k].t) ::
      j in Holding(trace[i].t) && Holding(trace[k].t)[j] == Holding(trace[i].t)[j]
  {
    hide Inv, Enabled, Apply, Holding;
    if i < k {
      NoStartNoLease(trace, actions, maxAttempts, i, k - 1);
      InvHoldsAlways(trace, actions, maxAttempts, k - 1);
      HoldingAfterStep(trace[k - 1], actions[k - 1], maxAttempts);
    }
  }

  /** Draining: once nothing is started any more, a reconcile whose listing shows none of the containers
      held then as running ends with no active job at all. */
  lemma DrainingEmpties(trace: seq<World>, actions: seq<Action>, maxAttempts: int, i: nat, k: nat)
    requires Execution(trace, actions, maxAttempts) && i <= k < |actions| && actions[k] == EndSweep
    requires forall n | i <= n < k :: !actions[n].RecordRunning?
    requires trace[k].pc.Sweeping? ==>
      var listing := trace[k].pc.listing;
      forall c | c in HeldContainers(Holding(trace[i].t)) && c in listing :: !listing[c].running
    ensures forall j | j in trace[k].t.jobs :: !IsActive(trace[k].t.jobs[j])
  {
    ReconcileRestoresAgreement(trace, actions, maxAttempts, k);
    NoStartNoLease(trace, actions, maxAttempts, i, k);
    InvHoldsAlways(trace, actions, maxAttempts, k);
    hide Execution, Holding, HeldContainers;
    NothingHeld(Holding(trace[k].t), Holding(trace[i].t), trace[k].pc.listing);
    forall j | j in trace[k].t.jobs ensures !IsActive(trace[k].t.jobs[j]) {
      LiveJobShape(trace[k].t, j, maxAttempts);
    }
  }

  lemma NothingHeld(h: map<JobId, Lease>, before: map<JobId, Lease>, listing: Listing)
    requires forall j | j in h :: j in before && h[j] == before[j]
    requires forall j | j in h :: SeenRunning(h, j, listing)
    requires forall c | c in HeldContainers(before) && c in listing :: !listing[c].running
    ensures h == map[]
  {
    assert forall j | j in before :: before[j].container in HeldContainers(before);
  }

  /** Where a controller can be that has not taken a listing since it last rested. */
  predicate Blind(pc: Pc) {
    || pc.Resting? || pc.Broken? || pc.Draining?
    || (pc.Ready? && pc.listed.None?) || (pc.Stopping? && pc.listed.None?)
    || (pc.Acting? && pc.launches == [])
  }

  /** The steps that close, remove, start or record anything. */
  predicate Commits(a: Action) {
    a.CloseOne? || a.Archive? || a.SweepOne? || a.RunContainer? || a.RunFails? || a.RecordFailure? || a.RecordRunning?
  }

  lemma BlindStep(w: World, a: Action, maxAttempts: int)
    requires Enabled(w, a) && Blind(w.pc) && !a.TakeListing?
    ensures !Commits(a) && Blind(Apply(w, a, maxAttempts).pc)
  {
    hide Finished, MarkedRunning, MarkedPreempting, MarkedFailed, MarkedCancelled, Submitted, SetPause, ActiveRows,
      PendingStops;
  }

  lemma {:induction false} BlindUntilListing(trace: seq<World>, actions: seq<Action>, maxAttempts: int, i: nat, k: nat)
    requires Execution(trace, actions, maxAttempts) && i <= k < |trace| && Blind(trace[i].pc)
    requires forall n | i <= n < k :: !actions[n].TakeListing?
    ensures Blind(trace[k].pc)
    ensures forall n | i <= n < k :: !Commits(actions[n])
  {
    hide Enabled, Apply, Blind, Commits;
    if i < k {
      BlindUntilListing(trace, actions, maxAttempts, i, k - 1);
      BlindStep(trace[k - 1], actions[k - 1], maxAttempts);
    }
  }

  /** While Docker does not answer, nothing is closed, requeued, removed or started: every active job
      keeps its GPU and its container, through any number of ticks, failures and crashes. */
  lemma DockerDownChangesNoLease(trace: seq<World>, actions: seq<Action>, maxAttempts: int, i: nat, k: nat)
    requires Execution(trace, actions, maxAttempts) && i <= k < |trace| && trace[i].pc.Resting?
    requires forall n | i <= n < k :: !actions[n].TakeListing?
    ensures forall n | i <= n < k :: !Commits(actions[n])
    ensures Holding(trace[k].t) == Holding(trace[i].t)
  {
    BlindUntilListing(trace, actions, maxAttempts, i, k);
    NoCommitNoChange(trace, actions, maxAttempts, i, k);
  }

  lemma {:induction false} NoCommitNoChange(trace: seq<World>, actions: seq<Action>, maxAttempts: int, i: nat, k: nat)
    requires Execution(trace, actions, maxAttempts) && i <= k < |trace|
    requires forall n | i <= n < k :: !Commits(actions[n])
    ensures Holding(trace[k].t) == Holding(trace[i].t)
  {
    hide Inv, Enabled, Apply, Holding;
    if i < k {
      NoCommitNoChange(trace, actions, maxAttempts, i, k - 1);
      InvHoldsAlways(trace, actions, maxAttempts, k - 1);
      HoldingAfterStep(trace[k - 1], actions[k - 1], maxAttempts);
    }
  }

  /** No removal ever takes the container of an active job. */
  lemma RemovalsSpareActiveJobs(trace: seq<World>, actions: seq<Action>, maxAttempts: int, i: nat)
    requires Execution(trace, actions, maxAttempts) && i < |actions|
    ensures actions[i].Archive? ==> trace[i].pc.Archiving? && trace[i].pc.target !in HeldContainers(Holding(trace[i].t))
    ensures actions[i].SweepOne? ==> actions[i].c !in HeldContainers(Holding(trace[i].t))
  {
    InvHoldsAlways(trace, actions, maxAttempts, i);
    RemovesOnlyUnheld(trace[i], actions[i], maxAttempts);
  }

  /** A reconcile closes only active jobs, once each: the job's one open run row is closed, no other run
      changes, and the job is active no more while all others keep their GPUs. */
  lemma EndedJobsAreClosedOnce(trace: seq<World>, actions: seq<Action>, maxAttempts: int, i: nat)
    requires Execution(trace, actions, maxAttempts) && i < |actions| && actions[i].CloseOne?
    ensures trace[i].pc.Closing? && trace[i].pc.todo != []
    ensures var id := trace[i].pc.todo[0].jobId;
            && id in trace[i].t.jobs && IsActive(trace[i].t.jobs[id])
            && Holding(trace[i + 1].t) == Holding(trace[i].t) - {id}
            && OneRunClosed(RunsOf(trace[i].t.runs, id), RunsOf(trace[i + 1].t.runs, id), actions[i].now)
            && forall j | j != id :: RunsOf(trace[i + 1].t.runs, j) == RunsOf(trace[i].t.runs, j)
  {
    hide Inv, Apply, RunsOf, Holding, OneRunClosed;
    InvHoldsAlways(trace, actions, maxAttempts, i);
    CloseEndsOneJob(trace[i], actions[i].now, maxAttempts);
  }

  lemma RemovesOnlyUnheld(w: World, a: Action, maxAttempts: int)
    requires Inv(w, maxAttempts) && Enabled(w, a)
    ensures a.Archive? ==> w.pc.Archiving? && w.pc.target !in HeldContainers(Holding(w.t))
    ensures a.SweepOne? ==> a.c !in HeldContainers(Holding(w.t))
  {
    hide Ledger, Base;
  }

  lemma CloseEndsOneJob(w: World, now: Time, maxAttempts: int)
    requires Inv(w, maxAttempts) && Enabled(w, CloseOne(now))
    ensures var id := w.pc.todo[0].jobId; var v := Apply(w, CloseOne(now), maxAttempts);
            && id in w.t.jobs && IsActive(w.t.jobs[id])
            && Holding(v.t) == Holding(w.t) - {id}
            && OneRunClosed(RunsOf(w.t.runs, id), RunsOf(v.t.runs, id), now)
            && forall j | j != id :: RunsOf(v.t.runs, j) == RunsOf(w.t.runs, j)
  {
    hide Ledger, RunsOf, Base, Finished, ClosingInv, Holding;
    ClosingHead(w);
    var row := w.pc.todo[0];
    var listed := row.container in w.pc.listing;
    var exitCode := if listed then Some(w.pc.listing[row.container].exitCode) else None;
    FinishClosesOneRun(w.t, row.jobId, exitCode, maxAttempts, !listed, now);
    FinishEndsLease(w.t, row.jobId, exitCode, maxAttempts, !listed, now);
  }

  ghost predicate OneRunClosed(before: seq<Run>, after: seq<Run>, now: Time) {
    var n := |before|;
    && n > 0 && |after| == n && after[..n - 1] == before[..n - 1]
    && before[n - 1].outcome.None? && after[n - 1].outcome.Some? && after[n - 1].finishedAt == Some(now)
  }

  // ---- lost races and stops ----

  /** A container that no active job holds and that is not about to be recorded. */
  ghost predicate Orphaned(w: World, c: ContainerId) {
    && c < w.nextContainer && c !in HeldContainers(Holding(w.t))
    && !(w.pc.Started? && w.pc.container == c)
  }

  lemma StepKeepsOrphan(w: World, a: Action, c: ContainerId, maxAttempts: int)
    requires Inv(w, maxAttempts) && Enabled(w, a) && Orphaned(w, c)
    ensures Orphaned(Apply(w, a, maxAttempts), c)
  {
    HoldingAfterStep(w, a, maxAttempts);
    StartedAfterStep(w, a, maxAttempts);
    hide Inv, Holding, Enabled, Apply;
  }

  /** A container waits to be recorded only from its start on. */
  lemma StartedAfterStep(w: World, a: Action, maxAttempts: int)
    requires Enabled(w, a)
    ensures var v := Apply(w, a, maxAttempts);
            && w.nextContainer <= v.nextContainer
            && (a.RecordRunning? ==> w.pc.Started?)
            && (v.pc.Started? ==>
                  v.pc.container == w.nextContainer || (w.pc.Started? && v.pc.container == w.pc.container))
  {
    hide Finished, MarkedRunning, MarkedPreempting, MarkedFailed, MarkedCancelled, Submitted, SetPause, ActiveRows,
      PendingStops;
  }

  lemma HoldingAfterRecord(w: World, now: Time, maxAttempts: int)
    requires Enabled(w, RecordRunning(now))
    ensures var v := Apply(w, RecordRunning(now), maxAttempts);
            || Holding(v.t) == Holding(w.t)
            || Holding(v.t) == Holding(w.t)[w.pc.launch.jobId := Lease(w.pc.launch.gpu, w.pc.container)]
  {
    hide MarkedRunning, Holding;
    var l := w.pc.launch;
    if l.jobId in w.t.jobs && w.t.jobs[l.jobId].state == Queued {
      StartAddsLease(w.t, l.jobId, l.gpu, w.pc.container, now);
    }
  }

  /** A step adds a lease only when it records a started container, and ends one only in reconcile. */
  lemma HoldingAfterStep(w: World, a: Action, maxAttempts: int)
    requires Inv(w, maxAttempts) && Enabled(w, a)
    ensures var v := Apply(w, a, maxAttempts);
            || Holding(v.t) == Holding(w.t)
            || (a.CloseOne? && Holding(v.t) == Holding(w.t) - {w.pc.todo[0].jobId})
            || (a.RecordRunning?
                && Holding(v.t) == Holding(w.t)[w.pc.launch.jobId := Lease(w.pc.launch.gpu, w.pc.container)])
  {
    hide Ledger, Base, Holding;
    match a {
      case CloseOne(now) => hide Finished; CloseOneFacts(w, now, maxAttempts);
      case RecordFailure(now) => FailIsQuiet(w.t, w.pc.launch.jobId, now, maxAttempts);
      case RecordRunning(now) => HoldingAfterRecord(w, now, maxAttempts);
      case Cancel(id, now) => CancelIsQuiet(w.t, id, now, maxAttempts);
      case Submit(spec, now) => SubmitIsQuiet(w.t, spec, now, maxAttempts);
      case Pause(paused, gpu) => PauseIsQuiet(w.t, paused, gpu);
      case MarkReclaim => PreemptIsQuiet(w.t, w.pc.reclaims[0].jobId);
      case DrainMark => PreemptIsQuiet(w.t, w.pc.rows[0].jobId);
      case _ => OtherStepsKeepTables(w, a, maxAttempts);
    }
  }

  lemma {:induction false} OrphansStayOrphans(trace: seq<World>, actions: seq<Action>, maxAttempts: int, i: nat,
                                              k: nat, c: ContainerId)
    requires Execution(trace, actions, maxAttempts) && i <= k < |trace| && Orphaned(trace[i], c)
    ensures Orphaned(trace[k], c)
  {
    hide Inv, Enabled, Apply, Orphaned;
    if i < k {
      OrphansStayOrphans(trace, actions, maxAttempts, i, k - 1, c);
      InvHoldsAlways(trace, actions, maxAttempts, k - 1);
      StepKeepsOrphan(trace[k - 1], actions[k - 1], c, maxAttempts);
    }
  }

  /** The lost race: when the job was cancelled while its container started, recording the start changes
      no table, the container never belongs to an active job, and once any later reconcile has ended it
      is gone (unless its removal failed). */
  lemma LostRaceLeavesAnOrphan(trace: seq<World>, actions: seq<Action>, maxAttempts: int, i: nat, k: nat)
    requires Execution(trace, actions, maxAttempts) && i < k < |trace| && actions[i].RecordRunning?
    requires trace[i].pc.launch.jobId !in trace[i].t.jobs || trace[i].t.jobs[trace[i].pc.launch.jobId].state != Queued
    ensures trace[i + 1].t == trace[i].t && trace[i + 1].pc == Broken
    ensures trace[i].pc.container !in HeldContainers(Holding(trace[k].t))
    ensures k < |actions| && actions[k] == EndSweep ==>
              trace[i].pc.container !in trace[k].docker || trace[i].pc.container in trace[k].stuck
  {
    var c := trace[i].pc.container;
    InvHoldsAlways(trace, actions, maxAttempts, i);
    StartedIsNotHeld(trace[i], maxAttempts);
    OrphansStayOrphans(trace, actions, maxAttempts, i + 1, k, c);
    InvHoldsAlways(trace, actions, maxAttempts, k);
    if k < |actions| && actions[k] == EndSweep {
      ReconcileRestoresAgreement(trace, actions, maxAttempts, k);
    }
  }

  lemma StartedIsNotHeld(w: World, maxAttempts: int)
    requires Inv(w, maxAttempts) && w.pc.Started?
    ensures w.pc.container < w.nextContainer && w.pc.container !in HeldContainers(Holding(w.t))
  {}

  /** The container a tick is about to stop, if this action issues a stop. */
  function StopTarget(w: World, a: Action): Option<ContainerId> {
    if a.StopPending? && w.pc.Stopping? && w.pc.stops != [] then Some(w.pc.stops[0])
    else if a.StopReclaimed? && w.pc.Acting? then w.pc.stop
    else None
  }

  /** `docker stop` is asked for by exactly the stop steps, once each and for the container they are due for. */
  lemma StopStepsAreCalls(w: World, a: Action, maxAttempts: int)
    requires Enabled(w, a)
    ensures Apply(w, a, maxAttempts).stops == w.stops +
              match a
              case StopPending(started) => [StopCall(w.pc.stops[0], started)]
              case StopReclaimed(started) => [StopCall(w.pc.stop.value, started)]
              case DrainStop(started) => [StopCall(w.pc.rows[0].container, started)]
              case _ => []
  {
    hide Finished, MarkedRunning, MarkedPreempting, MarkedFailed, MarkedCancelled, Submitted, SetPause, ActiveRows,
      PendingStops, InUse;
  }

  ghost predicate StoppedForGood(w: World, c: ContainerId) {
    c in w.stopIssued || Orphaned(w, c)
  }

  lemma TickStopIsDue(w: World, a: Action, maxAttempts: int)
    requires Inv(w, maxAttempts) && Enabled(w, a) && StopTarget(w, a).Some?
    ensures StopOk(w, StopTarget(w, a).value)
    ensures StopTarget(w, a).value in Apply(w, a, maxAttempts).stopIssued
  {
    hide Ledger, Base;
    if a.StopPending? {
      assert w.pc.stops[0] in w.pc.stops;
    }
  }

  lemma StepKeepsStopped(w: World, a: Action, c: ContainerId, maxAttempts: int)
    requires Inv(w, maxAttempts) && Enabled(w, a) && !a.Crash? && StoppedForGood(w, c)
    ensures StoppedForGood(Apply(w, a, maxAttempts), c)
  {
    if Orphaned(w, c) {
      hide Inv, Enabled, Apply, Orphaned;
      StepKeepsOrphan(w, a, c, maxAttempts);
    } else if a.CloseOne? {
      hide Inv, Finished, Orphaned;
      ClosedContainerIsOrphan(w, a.now, maxAttempts);
    } else {
      hide Inv, Orphaned;
      StopsOnlyGrow(w, a, maxAttempts);
    }
  }

  lemma StopsOnlyGrow(w: World, a: Action, maxAttempts: int)
    requires Enabled(w, a) && !a.Crash? && !a.CloseOne?
    ensures w.stopIssued <= Apply(w, a, maxAttempts).stopIssued
  {}

  lemma ClosedContainerIsOrphan(w: World, now: Time, maxAttempts: int)
    requires Inv(w, maxAttempts) && Enabled(w, CloseOne(now))
    ensures Orphaned(CloseRow(w, now, maxAttempts), w.pc.todo[0].container)
  {
    hide Ledger, Finished;
    CloseOneFacts(w, now, maxAttempts);
    EndLease(Holding(w.t), w.pc.todo[0].jobId);
  }

  lemma {:induction false} StoppedStaysStopped(trace: seq<World>, actions: seq<Action>, maxAttempts: int, i: nat,
                                               k: nat, c: ContainerId)
    requires Execution(trace, actions, maxAttempts) && i <= k < |trace| && StoppedForGood(trace[i], c)
    requires forall n | i <= n < k :: !actions[n].Crash?
    ensures StoppedForGood(trace[k], c)
  {
    hide Inv, Enabled, Apply, StoppedForGood;
    if i < k {
      StoppedStaysStopped(trace, actions, maxAttempts, i, k - 1, c);
      InvHoldsAlways(trace, actions, maxAttempts, k - 1);
      StepKeepsStopped(trace[k - 1], actions[k - 1], c, maxAttempts);
    }
  }

  lemma TickStopIsOneCall(w: World, a: Action, maxAttempts: int)
    requires Enabled(w, a) && StopTarget(w, a).Some?
    ensures a.StopPending? || a.StopReclaimed?
    ensures Apply(w, a, maxAttempts).stops == w.stops + [StopCall(StopTarget(w, a).value, a.started)]
  {
    StopStepsAreCalls(w, a, maxAttempts);
    hide Apply;
  }

  /** Within one controller lifetime, ticks ask for at most one `docker stop` of a container. */
  lemma TicksStopOnce(trace: seq<World>, actions: seq<Action>, maxAttempts: int, i: nat, k: nat)
    requires Execution(trace, actions, maxAttempts) && i < k < |actions|
    requires forall n | i <= n < k :: !actions[n].Crash?
    requires StopTarget(trace[i], actions[i]).Some? && StopTarget(trace[k], actions[k]).Some?
    ensures StopTarget(trace[i], actions[i]) != StopTarget(trace[k], actions[k])
    ensures forall n | n in {i, k} ::
      trace[n + 1].stops == trace[n].stops + [StopCall(StopTarget(trace[n], actions[n]).value, actions[n].started)]
  {
    TickStopIsOneCall(trace[i], actions[i], maxAttempts);
    TickStopIsOneCall(trace[k], actions[k], maxAttempts);
    hide Inv, Enabled, Apply, StopTarget;
    var c := StopTarget(trace[i], actions[i]).value;
    InvHoldsAlways(trace, actions, maxAttempts, i);
    TickStopIsDue(trace[i], actions[i], maxAttempts);
    assert StoppedForGood(trace[i + 1], c);
    StoppedStaysStopped(trace, actions, maxAttempts, i + 1, k, c);
    InvHoldsAlways(trace, actions, maxAttempts, k);
    TickStopIsDue(trace[k], actions[k], maxAttempts);
  }

  /** A running job has no stop on record, so `RUNNING` and `stop_issued` never overlap. */
  lemma RunningJobsAreNotBeingStopped(trace: seq<World>, actions: seq<Action>, maxAttempts: int, i: nat, j: JobId)
    requires Execution(trace, actions, maxAttempts) && i < |trace| && IsRunning(trace[i].t, j)
    ensures j in Holding(trace[i].t) && Holding(trace[i].t)[j].container !in trace[i].stopIssued
  {
    InvHoldsAlways(trace, actions, maxAttempts, i);
    LiveJobShape(trace[i].t, j, maxAttempts);
    hide Ledger;
  }

  /** Run accounting in every reachable state. */
  lemma AccountsAreExact(trace: seq<World>, actions: seq<Action>, maxAttempts: int, i: nat, j: JobId)
    requires Execution(trace, actions, maxAttempts) && i < |trace| && j in trace[i].t.jobs
    ensures var t := trace[i].t; Accounts(j, t.jobs[j], RunsOf(t.runs, j), maxAttempts)
    ensures var t := trace[i].t; var job, counted := t.jobs[j], CountPreempted(RunsOf(t.runs, j));
            && (job.state != Cancelled ==> job.preemptions == counted)
            && (job.state == Cancelled ==> counted <= job.preemptions <= counted + 1)
  {
    hide Accounts, CountPreempted;
    InvHoldsAlways(trace, actions, maxAttempts, i);
    AccountOf(trace[i].t, j, maxAttempts);
    PreemptionsCountPreemptedRuns(trace[i].t, j, maxAttempts);
  }
}
