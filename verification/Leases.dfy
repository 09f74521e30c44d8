/** Who holds which GPU according to the jobs table, and how each transaction changes that. */
module Leases {
  import opened Model
  import opened Jobs
  import opened JobsLedger

  datatype Lease = Lease(gpu: GpuId, container: ContainerId)

  /** The GPU and the container of every active job. */
  function Holding(t: Tables): map<JobId, Lease> {
    map j | j in t.jobs && IsActive(t.jobs[j]) && t.jobs[j].gpu.Some? && t.jobs[j].container.Some?
      :: Lease(t.jobs[j].gpu.value, t.jobs[j].container.value)
  }

  predicate IsRunning(t: Tables, j: JobId) { j in t.jobs && t.jobs[j].state == Running }

  /** Finished one way or another: never to be scheduled again. */
  predicate IsDead(t: Tables, j: JobId) { j in t.jobs && !IsLive(t.jobs[j]) }

  ghost predicate IsPending(t: Tables, j: JobId) { j in t.jobs && NotStarted(t.jobs[j]) }

  /** A change of the tables that takes no GPU and starts no job. */
  ghost predicate QuietChange(t: Tables, u: Tables) {
    && Holding(u) == Holding(t)
    && (forall j | IsRunning(u, j) :: IsRunning(t, j))
    && (forall j | IsPending(t, j) :: IsPending(u, j))
  }

  lemma AccountOf(t: Tables, j: JobId, maxAttempts: int)
    requires Ledger(t, maxAttempts) && j in t.jobs
    ensures Accounts(j, t.jobs[j], RunsOf(t.runs, j), maxAttempts)
  {}

  /** A queued job has no GPU or container; a running one is not finished. */
  lemma LiveJobShape(t: Tables, j: JobId, maxAttempts: int)
    requires Ledger(t, maxAttempts) && j in t.jobs
    ensures t.jobs[j].state == Queued ==> t.jobs[j].gpu.None? && t.jobs[j].container.None? && t.jobs[j].finishedAt.None?
    ensures IsActive(t.jobs[j]) ==> j in Holding(t) && t.jobs[j].finishedAt.None?
    ensures IsPending(t, j) ==> j !in Holding(t)
  {
    AccountOf(t, j, maxAttempts);
  }

  lemma SubmitIsQuiet(t: Tables, spec: JobSpec, now: Time, maxAttempts: int)
    requires Ledger(t, maxAttempts)
    ensures QuietChange(t, Submitted(t, spec, now))
  {}

  lemma CancelIsQuiet(t: Tables, id: JobId, now: Time, maxAttempts: int)
    requires Ledger(t, maxAttempts) && CanCancel(t, id)
    ensures QuietChange(t, MarkedCancelled(t, id, now))
  {
    hide Ledger;
    LiveJobShape(t, id, maxAttempts);
  }

  lemma PreemptIsQuiet(t: Tables, id: JobId)
    ensures QuietChange(t, MarkedPreempting(t, id))
    ensures !IsRunning(MarkedPreempting(t, id), id)
  {}

  lemma FailIsQuiet(t: Tables, id: JobId, now: Time, maxAttempts: int)
    requires Ledger(t, maxAttempts) && IsPending(t, id)
    ensures Holding(MarkedFailed(t, id, now)) == Holding(t)
    ensures forall j | IsRunning(MarkedFailed(t, id, now), j) :: IsRunning(t, j)
    ensures forall j | j != id && IsPending(t, j) :: IsPending(MarkedFailed(t, id, now), j)
  {
    hide Ledger;
    LiveJobShape(t, id, maxAttempts);
  }

  lemma PauseIsQuiet(t: Tables, paused: bool, gpu: Option<GpuId>)
    ensures QuietChange(t, SetPause(t, paused, gpu))
  {}

  lemma StartAddsLease(t: Tables, id: JobId, gpu: GpuId, container: ContainerId, now: Time)
    requires id in t.jobs && t.jobs[id].state == Queued
    ensures Holding(MarkedRunning(t, id, gpu, container, now)) == Holding(t)[id := Lease(gpu, container)]
  {}

  lemma FinishEndsLease(t: Tables, id: JobId, exitCode: Option<int>, maxAttempts: int, vanished: bool, now: Time)
    requires id in t.jobs && IsActive(t.jobs[id])
    ensures Holding(Finished(t, id, exitCode, maxAttempts, vanished, now)) == Holding(t) - {id}
    ensures forall j | IsRunning(Finished(t, id, exitCode, maxAttempts, vanished, now), j) :: IsRunning(t, j) && j != id
  {}

  // ---- rows read from the tables ----

  ghost predicate IsRow(h: map<JobId, Lease>, r: RunningSpot) {
    r.jobId in h && h[r.jobId] == Lease(r.gpu, r.container)
  }

  function IdsOf(rows: seq<RunningSpot>): set<JobId> { set r | r in rows :: r.jobId }

  function HeldContainers(h: map<JobId, Lease>): set<ContainerId> { set j | j in h :: h[j].container }

  ghost predicate ById(rows: seq<RunningSpot>) {
    forall i, k | 0 <= i < k < |rows| :: rows[i].jobId < rows[k].jobId
  }

  /** `active()` reads exactly the leases. */
  lemma ActiveRowsReadLeases(t: Tables, maxAttempts: int)
    requires Ledger(t, maxAttempts)
    ensures t.Leased()
    ensures var rows := ActiveRows(t);
            && (forall r | r in rows :: IsRow(Holding(t), r) && (r.reclaiming <==> !IsRunning(t, r.jobId)))
            && IdsOf(rows) == Holding(t).Keys && ById(rows)
  {
    LedgerMeansLeased(t, maxAttempts);
    assert t.WellFormed();
    hide Ledger;
    var rows := ActiveRows(t);
    forall j | j in Holding(t) ensures j in IdsOf(rows) {
      assert RowOf(j, t.jobs[j]) in rows;
    }
  }
}
