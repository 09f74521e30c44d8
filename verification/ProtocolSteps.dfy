/** Every step of the controller keeps the invariant. */
module ProtocolSteps {
  import opened Model
  import opened Jobs
  import opened JobsLedger
  import opened Leases
  import opened Protocol
  import opened ProtocolInvariant

  // ---- reconcile ----

  lemma ListingKeepsInv(w: World, maxAttempts: int)
    requires Inv(w, maxAttempts) && Enabled(w, TakeListing)
    ensures Inv(Apply(w, TakeListing, maxAttempts), maxAttempts)
  {
    hide Ledger;
  }

  lemma BeginReconcileKeepsInv(w: World, maxAttempts: int)
    requires Inv(w, maxAttempts) && Enabled(w, BeginReconcile)
    ensures Inv(Apply(w, BeginReconcile, maxAttempts), maxAttempts)
  {
    hide Ledger, ActiveRows;
    ActiveRowsReadLeases(w.t, maxAttempts);
  }

  /** Dropping the first row of a list in id order. */
  lemma RestOfRows(rows: seq<RunningSpot>)
    requires rows != [] && ById(rows)
    ensures ById(rows[1..]) && IdsOf(rows[1..]) == IdsOf(rows) - {rows[0].jobId}
    ensures forall r | r in rows[1..] :: r in rows && r.jobId != rows[0].jobId
  {
    forall r | r in rows[1..] ensures r in rows && r.jobId != rows[0].jobId {
      var i :| 0 <= i < |rows| - 1 && rows[1..][i] == r;
      assert rows[i + 1] == r;
    }
    forall id ensures id in IdsOf(rows[1..]) <==> id in IdsOf(rows) - {rows[0].jobId} {
      if id in IdsOf(rows) - {rows[0].jobId} {
        var r :| r in rows && r.jobId == id;
        assert r in rows[1..];
      }
    }
  }

  lemma KeepOneKeepsInv(w: World, maxAttempts: int)
    requires Inv(w, maxAttempts) && Enabled(w, KeepOne)
    ensures Inv(Apply(w, KeepOne, maxAttempts), maxAttempts)
  {
    hide Ledger, Base, ClosingInv;
    var v := Apply(w, KeepOne, maxAttempts);
    BasePcFree(w, v);
    BaseIsExclusive(w);
    ClosingHead(w);
    ClosingKeeps(w, v, w.pc.todo[0], w.pc.listing, w.pc.todo[1..], w.pc.known);
  }

  lemma ClosingKeeps(w: World, v: World, row: RunningSpot, listing: Listing, rest: seq<RunningSpot>,
                     known: set<ContainerId>)
    requires ExclusiveLeases(Holding(w.t)) && ClosingInv(w, listing, [row] + rest, known, None)
    requires v == w.(pc := v.pc) && StillRunning(listing, row)
    ensures ClosingInv(v, listing, rest, known + {row.container}, None)
  {
    var h := Holding(w.t);
    RestOfRows([row] + rest);
    assert ([row] + rest)[1..] == rest;
    assert row in [row] + rest && IsRow(h, row);
    forall r | r in rest ensures IsRow(h, r) && r.container !in known + {row.container} {
      assert IsRow(h, r);
    }
    assert h[row.jobId].container in HeldContainers(h);
  }

  /** Ending one lease: the others stay, and the container of the ended one is held no more. */
  lemma EndLease(h: map<JobId, Lease>, id: JobId)
    requires ExclusiveLeases(h) && id in h
    ensures ExclusiveLeases(h - {id})
    ensures HeldContainers(h - {id}) == HeldContainers(h) - {h[id].container}
  {
    forall c ensures c in HeldContainers(h - {id}) <==> c in HeldContainers(h) - {h[id].container} {
      if c in HeldContainers(h) - {h[id].container} {
        var j :| j in h && h[j].container == c;
        assert j in h - {id};
      }
    }
  }

  lemma CloseOneKeepsInv(w: World, now: Time, maxAttempts: int)
    requires Inv(w, maxAttempts) && Enabled(w, CloseOne(now))
    ensures Inv(Apply(w, CloseOne(now), maxAttempts), maxAttempts)
  {
    hide Ledger, Finished, ClosingInv;
    var row, listing, rest := w.pc.todo[0], w.pc.listing, w.pc.todo[1..];
    CloseOneFacts(w, now, maxAttempts);
    var v := CloseRow(w, now, maxAttempts);
    CloseOneKeepsBase(w, v, row.jobId);
  }

  lemma CloseOneKeepsBase(w: World, v: World, id: JobId)
    requires Base(w) && id in Holding(w.t)
    requires Holding(v.t) == Holding(w.t) - {id} && v.docker == w.docker && v.stuck == w.stuck
          && v.nextContainer == w.nextContainer
    requires v.stopIssued == w.stopIssued - {Holding(w.t)[id].container}
    requires forall j | IsRunning(v.t, j) :: IsRunning(w.t, j)
    ensures Base(v)
  {
    EndLease(Holding(w.t), id);
  }

  lemma CloseOneFacts(w: World, now: Time, maxAttempts: int)
    requires Inv(w, maxAttempts) && Enabled(w, CloseOne(now))
    ensures var row := w.pc.todo[0]; var v := CloseRow(w, now, maxAttempts);
            && row.jobId in Holding(w.t) && Holding(w.t)[row.jobId] == Lease(row.gpu, row.container)
            && Holding(v.t) == Holding(w.t) - {row.jobId}
            && (forall j | IsRunning(v.t, j) :: IsRunning(w.t, j))
            && Ledger(v.t, maxAttempts) && v.t.nextId == w.t.nextId
            && PcInv(v)
  {
    hide Ledger, Finished, Base, ClosingInv, Holding;
    var row, listing, known := w.pc.todo[0], w.pc.listing, w.pc.known;
    var listed := row.container in listing;
    var exitCode := if listed then Some(listing[row.container].exitCode) else None;
    ClosingHead(w);
    FinishKeepsLedger(w.t, row.jobId, exitCode, maxAttempts, !listed, now);
    FinishEndsLease(w.t, row.jobId, exitCode, maxAttempts, !listed, now);
    FinishKeepsIds(w.t, row.jobId, exitCode, maxAttempts, !listed, now);
    BaseIsExclusive(w);
    ClosingMovesOn(w, CloseRow(w, now, maxAttempts), row, listing, w.pc.todo[1..], known);
  }

  lemma ClosingHead(w: World)
    requires w.pc.Closing? && w.pc.todo != [] && PcInv(w)
    ensures var row := w.pc.todo[0];
            && ClosingInv(w, w.pc.listing, [row] + w.pc.todo[1..], w.pc.known, None)
            && row.jobId in Holding(w.t) && Holding(w.t)[row.jobId] == Lease(row.gpu, row.container)
            && row.jobId in w.t.jobs && IsActive(w.t.jobs[row.jobId])
  {
    var row := w.pc.todo[0];
    assert [row] + w.pc.todo[1..] == w.pc.todo;
    assert row in w.pc.todo && IsRow(Holding(w.t), row);
  }

  lemma BaseIsExclusive(w: World)
    requires Base(w)
    ensures ExclusiveLeases(Holding(w.t))
  {}

  lemma FinishKeepsIds(t: Tables, id: JobId, exitCode: Option<int>, maxAttempts: int, vanished: bool, now: Time)
    requires id in t.jobs
    ensures Finished(t, id, exitCode, maxAttempts, vanished, now).nextId == t.nextId
  {}

  lemma ClosingMovesOn(w: World, v: World, row: RunningSpot, listing: Listing, rest: seq<RunningSpot>,
                       known: set<ContainerId>)
    requires ExclusiveLeases(Holding(w.t)) && IsRow(Holding(w.t), row)
    requires ClosingInv(w, listing, [row] + rest, known, None)
    requires Holding(v.t) == Holding(w.t) - {row.jobId} && v.docker == w.docker && v.stuck == w.stuck
    ensures row.container in listing ==>
              ClosingInv(v, listing, rest, known + {row.container}, Some(row.container))
    ensures row.container !in listing ==> ClosingInv(v, listing, rest, known, None)
  {
    RestOfRows([row] + rest);
    assert ([row] + rest)[1..] == rest;
    EndLease(Holding(w.t), row.jobId);
    var h := Holding(w.t);
    forall r | r in rest ensures IsRow(Holding(v.t), r) && r.container !in known + {row.container} {
      assert IsRow(h, r);
      assert h[r.jobId].container != h[row.jobId].container;
    }
  }

  lemma RemovalShrinks(w: World, c: ContainerId, removed: bool)
    ensures Shrinks(w, Remove(w, c, removed)) && QuietChange(w.t, Remove(w, c, removed).t)
    ensures c !in Remove(w, c, removed).docker || c in Remove(w, c, removed).stuck
  {}

  lemma ArchiveKeepsInv(w: World, removed: bool, maxAttempts: int)
    requires Inv(w, maxAttempts) && Enabled(w, Archive(removed))
    ensures Inv(Apply(w, Archive(removed), maxAttempts), maxAttempts)
  {
    hide Ledger, Base;
    var u := Remove(w, w.pc.target, removed);
    RemovalShrinks(w, w.pc.target, removed);
    InterferenceKeepsInv(w, u, maxAttempts);
    BasePcFree(u, Apply(w, Archive(removed), maxAttempts));
  }

  /** `Base` does not look at the program counter. */
  lemma BasePcFree(w: World, v: World)
    requires Base(w) && v == w.(pc := v.pc)
    ensures Base(v)
  {}

  lemma BeginSweepKeepsInv(w: World, maxAttempts: int)
    requires Inv(w, maxAttempts) && Enabled(w, BeginSweep)
    ensures Inv(Apply(w, BeginSweep, maxAttempts), maxAttempts)
  {
    hide Ledger, Base;
    BasePcFree(w, Apply(w, BeginSweep, maxAttempts));
    assert IdsOf([]) == {};
  }

  lemma SweepOneKeepsInv(w: World, c: ContainerId, removed: bool, maxAttempts: int)
    requires Inv(w, maxAttempts) && Enabled(w, SweepOne(c, removed))
    ensures Inv(Apply(w, SweepOne(c, removed), maxAttempts), maxAttempts)
  {
    hide Ledger, Base;
    var u := Remove(w, c, removed);
    RemovalShrinks(w, c, removed);
    InterferenceKeepsInv(w, u, maxAttempts);
    BasePcFree(u, Apply(w, SweepOne(c, removed), maxAttempts));
  }

  lemma EndSweepKeepsInv(w: World, maxAttempts: int)
    requires Inv(w, maxAttempts) && Enabled(w, EndSweep)
    ensures Inv(Apply(w, EndSweep, maxAttempts), maxAttempts)
  {
    hide Ledger, Base;
    BasePcFree(w, Apply(w, EndSweep, maxAttempts));
  }

  // ---- stops ----

  lemma {:induction false} PendingStopsAreRows(rows: seq<RunningSpot>, issued: set<ContainerId>)
    ensures forall c | c in PendingStops(rows, issued) ::
              c !in issued && exists r | r in rows :: r.container == c && r.reclaiming
    ensures forall r | r in rows && r.reclaiming && r.container !in issued :: r.container in PendingStops(rows, issued)
  {
    if rows != [] {
      PendingStopsAreRows(rows[1..], issued);
      assert rows == [rows[0]] + rows[1..];
    }
  }

  ghost predicate NoRepeats(cs: seq<ContainerId>) {
    forall i, k | 0 <= i < k < |cs| :: cs[i] != cs[k]
  }

  lemma {:induction false} PendingStopsAreDistinct(rows: seq<RunningSpot>, issued: set<ContainerId>)
    requires forall i, k | 0 <= i < k < |rows| :: rows[i].container != rows[k].container
    ensures NoRepeats(PendingStops(rows, issued))
  {
    if rows != [] {
      PendingStopsAreDistinct(rows[1..], issued);
      PendingStopsAreRows(rows[1..], issued);
      forall r | r in rows[1..] ensures r.container != rows[0].container {
        var i :| 0 <= i < |rows| - 1 && rows[1..][i] == r;
        assert rows[i + 1] == r;
      }
      var later := PendingStops(rows[1..], issued);
      forall i | 0 <= i < |later| ensures later[i] != rows[0].container {
        assert later[i] in later;
      }
    }
  }

  lemma RowsHaveDistinctContainers(h: map<JobId, Lease>, rows: seq<RunningSpot>)
    requires ExclusiveLeases(h) && ById(rows) && forall r | r in rows :: IsRow(h, r)
    ensures forall i, k | 0 <= i < k < |rows| :: rows[i].container != rows[k].container && rows[i].gpu != rows[k].gpu
  {
    forall i, k | 0 <= i < k < |rows| ensures rows[i].container != rows[k].container && rows[i].gpu != rows[k].gpu {
      assert rows[i] in rows && rows[k] in rows;
    }
  }

  lemma TakeSnapshotKeepsInv(w: World, maxAttempts: int)
    requires Inv(w, maxAttempts) && Enabled(w, TakeSnapshot)
    ensures Inv(Apply(w, TakeSnapshot, maxAttempts), maxAttempts)
  {
    hide Ledger, ActiveRows, Reconciled, PendingStops;
    var v := Apply(w, TakeSnapshot, maxAttempts);
    ActiveRowsReadLeases(w.t, maxAttempts);
    SnapshotStops(w, ActiveRows(w.t));
    ReconciledIsStable(w, v, w.pc.listed);
  }

  /** The stops found pending in a fresh snapshot are due, and concern no running row. */
  lemma SnapshotStops(w: World, rows: seq<RunningSpot>)
    requires Base(w) && ById(rows) && IdsOf(rows) == Holding(w.t).Keys
    requires forall r | r in rows :: IsRow(Holding(w.t), r) && (r.reclaiming <==> !IsRunning(w.t, r.jobId))
    ensures StoppingInv(w, None, rows, PendingStops(rows, w.stopIssued))
  {
    hide PendingStops;
    var h := Holding(w.t);
    RowsHaveDistinctContainers(h, rows);
    PendingStopsAreRows(rows, w.stopIssued);
    PendingStopsAreDistinct(rows, w.stopIssued);
    var stops := PendingStops(rows, w.stopIssued);
    forall c | c in stops ensures StopOk(w, c) {
      var r :| r in rows && r.container == c && r.reclaiming;
      assert IsRow(h, r);
      assert h[r.jobId].container == c;
    }
    forall r | r in rows && !r.reclaiming ensures r.container !in w.stopIssued && r.container !in stops {
      assert IsRow(h, r);
      forall q | q in rows && q.container == r.container ensures !q.reclaiming {
        assert IsRow(h, q);
        assert q.jobId == r.jobId;
      }
    }
  }

  lemma StopPendingKeepsInv(w: World, started: bool, maxAttempts: int)
    requires Inv(w, maxAttempts) && Enabled(w, StopPending(started))
    ensures Inv(Apply(w, StopPending(started), maxAttempts), maxAttempts)
  {
    hide Ledger, Reconciled;
    var c, v := w.pc.stops[0], Apply(w, StopPending(started), maxAttempts);
    assert c in w.pc.stops && StopOk(w, c);
    IssueStopKeepsBase(w, v, c);
    ReconciledIsStable(w, v, w.pc.listed);
    forall i | 1 <= i < |w.pc.stops| ensures w.pc.stops[1..][i - 1] == w.pc.stops[i] && w.pc.stops[i] != c {}
    forall d | d in w.pc.stops[1..] ensures StopOk(v, d) {
      assert StopOk(w, d);
    }
  }

  lemma IssueStopKeepsBase(w: World, v: World, c: ContainerId)
    requires Base(w) && StopOk(w, c)
    requires v == w.(stopIssued := w.stopIssued + {c}, stops := v.stops, pc := v.pc)
    ensures Base(v)
  {}

  // ---- reclaims and launches ----

  lemma DecideKeepsInv(w: World, reclaims: seq<Reclaim>, launches: seq<Launch>, maxAttempts: int)
    requires Inv(w, maxAttempts) && Enabled(w, Decide(reclaims, launches))
    ensures Inv(Apply(w, Decide(reclaims, launches), maxAttempts), maxAttempts)
  {
    hide Ledger, Base;
    var v := Apply(w, Decide(reclaims, launches), maxAttempts);
    BasePcFree(w, v);
    var h, snap := Holding(w.t), w.pc.snap;
    forall r | r in reclaims
      ensures r.jobId in h && h[r.jobId].container == r.container && r.container !in w.stopIssued
    {
      var row := RunningSpot(r.jobId, r.gpu, r.container, false);
      assert row in snap && IsRow(h, row);
    }
    forall j | j in h ensures h[j].gpu !in LaunchGpus(launches) {
      assert j in IdsOf(snap);
      var r :| r in snap && r.jobId == j;
      assert IsRow(h, r) && r.gpu in SnapGpus(snap);
    }
    VacantIfClean(w, LaunchGpus(launches), launches != []);
    assert launches == [] ==> LaunchGpus(launches) == {};
  }

  lemma VacantIfClean(w: World, gpus: set<GpuId>, clean: bool)
    requires Base(w) && (clean ==> Clean(w)) && (!clean ==> gpus == {})
    requires forall j | j in Holding(w.t) :: Holding(w.t)[j].gpu !in gpus
    ensures Vacant(w, gpus)
  {
    forall c | c in w.docker && c !in w.stuck ensures w.docker[c].gpu !in gpus {
      if clean {
        assert c in HeldContainers(Holding(w.t));
        var j :| j in Holding(w.t) && Holding(w.t)[j].container == c;
      }
    }
  }

  lemma MarkReclaimKeepsInv(w: World, maxAttempts: int)
    requires Inv(w, maxAttempts) && Enabled(w, MarkReclaim)
    ensures Inv(Apply(w, MarkReclaim, maxAttempts), maxAttempts)
  {
    hide Ledger, MarkedPreempting, Vacant, Base;
    var v := Apply(w, MarkReclaim, maxAttempts);
    var r := w.pc.reclaims[0];
    MarkPreemptingKeepsLedger(w.t, r.jobId, maxAttempts);
    PreemptIsQuiet(w.t, r.jobId);
    PreemptKeepsIds(w.t, r.jobId);
    assert r in w.pc.reclaims;
    BaseIsExclusive(w);
    BaseIsStable(w, v);
    VacantIsStable(w, v, LaunchGpus(w.pc.launches));
    NowStoppable(w, v, r.jobId);
    forall i | 1 <= i < |w.pc.reclaims| ensures w.pc.reclaims[1..][i - 1] == w.pc.reclaims[i]
                                                && w.pc.reclaims[i].container != r.container {}
  }

  lemma PreemptKeepsIds(t: Tables, id: JobId)
    ensures MarkedPreempting(t, id).nextId == t.nextId
  {}

  /** After the preempting mark, the job's container may be stopped. */
  lemma NowStoppable(w: World, v: World, id: JobId)
    requires ExclusiveLeases(Holding(w.t)) && id in Holding(w.t) && Holding(w.t)[id].container !in w.stopIssued
    requires Holding(v.t) == Holding(w.t) && !IsRunning(v.t, id) && v.stopIssued == w.stopIssued
    ensures StopOk(v, Holding(w.t)[id].container)
  {}

  lemma StopReclaimedKeepsInv(w: World, started: bool, maxAttempts: int)
    requires Inv(w, maxAttempts) && Enabled(w, StopReclaimed(started))
    ensures Inv(Apply(w, StopReclaimed(started), maxAttempts), maxAttempts)
  {
    hide Ledger, Vacant;
    var v := Apply(w, StopReclaimed(started), maxAttempts);
    IssueStopKeepsBase(w, v, w.pc.stop.value);
    VacantIsStable(w, v, LaunchGpus(w.pc.launches));
  }

  lemma FewerLaunches(launches: seq<Launch>)
    requires launches != [] && DistinctGpus(launches)
    ensures DistinctGpus(launches[1..]) && LaunchGpus(launches[1..]) <= LaunchGpus(launches)
    ensures launches == [launches[0]] + launches[1..]
  {
    forall l | l in launches[1..] ensures l in launches {}
  }

  lemma CheckLaunchKeepsInv(w: World, maxAttempts: int)
    requires Inv(w, maxAttempts) && Enabled(w, CheckLaunch)
    ensures Inv(Apply(w, CheckLaunch, maxAttempts), maxAttempts)
  {
    hide Ledger, Base;
    var v := Apply(w, CheckLaunch, maxAttempts);
    BasePcFree(w, v);
    FewerLaunches(w.pc.launches);
  }

  lemma SplitFirst(l: Launch, rest: seq<Launch>)
    requires DistinctGpus([l] + rest)
    ensures DistinctGpus(rest) && LaunchGpus([l] + rest) == {l.gpu} + LaunchGpus(rest)
    ensures l.gpu !in LaunchGpus(rest)
  {
    var all := [l] + rest;
    assert all[1..] == rest;
    FewerLaunches(all);
    forall m | m in rest ensures m in all && m.gpu != l.gpu {
      var i :| 0 <= i < |rest| && rest[i] == m;
      assert all[i + 1] == m && all[0] == l;
    }
    forall g ensures g in LaunchGpus(all) <==> g in {l.gpu} + LaunchGpus(rest) {
      assert l in all;
    }
  }

  lemma CreateKeepsBase(w: World, l: Launch, attempt: nat)
    requires Base(w) && Vacant(w, {l.gpu})
    ensures Base(Create(w, l, attempt))
  {}

  lemma RunContainerKeepsInv(w: World, maxAttempts: int)
    requires Inv(w, maxAttempts) && Enabled(w, RunContainer)
    ensures Inv(Apply(w, RunContainer, maxAttempts), maxAttempts)
  {
    hide Ledger;
    var l, rest := w.pc.launch, w.pc.rest;
    SplitFirst(l, rest);
    CreateKeepsBase(w, l, w.pc.attempt);
    BasePcFree(Create(w, l, w.pc.attempt), Apply(w, RunContainer, maxAttempts));
  }

  lemma RunFailsKeepsInv(w: World, leftover: bool, maxAttempts: int)
    requires Inv(w, maxAttempts) && Enabled(w, RunFails(leftover))
    ensures Inv(Apply(w, RunFails(leftover), maxAttempts), maxAttempts)
  {
    hide Ledger, Base;
    var l, rest := w.pc.launch, w.pc.rest;
    SplitFirst(l, rest);
    CreateKeepsBase(w, l, w.pc.attempt);
    BasePcFree(if leftover then Create(w, l, w.pc.attempt) else w, Apply(w, RunFails(leftover), maxAttempts));
  }

  lemma RecordFailureKeepsInv(w: World, now: Time, maxAttempts: int)
    requires Inv(w, maxAttempts) && Enabled(w, RecordFailure(now))
    ensures Inv(Apply(w, RecordFailure(now), maxAttempts), maxAttempts)
  {
    hide Ledger, Vacant;
    var v := Apply(w, RecordFailure(now), maxAttempts);
    FailKeepsLedger(w.t, w.pc.launch.jobId, now, maxAttempts);
    FailIsQuiet(w.t, w.pc.launch.jobId, now, maxAttempts);
    VacantIsStable(w, v, LaunchGpus(w.pc.rest));
  }

  lemma RecordRunningKeepsInv(w: World, now: Time, maxAttempts: int)
    requires Inv(w, maxAttempts) && Enabled(w, RecordRunning(now))
    ensures Inv(Apply(w, RecordRunning(now), maxAttempts), maxAttempts)
  {
    hide Ledger, MarkedRunning;
    var l, c, v := w.pc.launch, w.pc.container, Apply(w, RecordRunning(now), maxAttempts);
    if l.jobId in w.t.jobs && w.t.jobs[l.jobId].state == Queued {
      MarkRunningKeepsLedger(w.t, l.jobId, l.gpu, c, now, maxAttempts);
      StartAddsLease(w.t, l.jobId, l.gpu, c, now);
      StartKeepsIds(w.t, l.jobId, l.gpu, c, now);
      LiveJobShape(w.t, l.jobId, maxAttempts);
      SplitFirst(l, w.pc.rest);
      assert l in [l] + w.pc.rest;
      NewLease(w, v, l, c);
    } else {
      BasePcFree(w, v);
    }
  }

  lemma StartKeepsIds(t: Tables, id: JobId, gpu: GpuId, c: ContainerId, now: Time)
    requires id in t.jobs
    ensures MarkedRunning(t, id, gpu, c, now).nextId == t.nextId
    ensures forall j | IsRunning(MarkedRunning(t, id, gpu, c, now), j) :: j == id || IsRunning(t, j)
  {}

  /** Recording a started container: its GPU and its container were free until now. */
  lemma NewLease(w: World, v: World, l: Launch, c: ContainerId)
    requires w.pc.Started? && w.pc == Started(l, c, w.pc.rest) && Base(w) && StartedInv(w, l, c, w.pc.rest)
    requires l.jobId !in Holding(w.t) && l.gpu !in LaunchGpus(w.pc.rest)
    requires LaunchGpus([l] + w.pc.rest) == {l.gpu} + LaunchGpus(w.pc.rest) && DistinctGpus(w.pc.rest)
    requires Holding(v.t) == Holding(w.t)[l.jobId := Lease(l.gpu, c)]
    requires forall j | IsRunning(v.t, j) :: j == l.jobId || IsRunning(w.t, j)
    requires v == w.(t := v.t, pc := Acting(None, [], w.pc.rest))
    ensures Base(v) && PcInv(v)
  {
    var h, k := Holding(w.t), Holding(v.t);
    forall j | j in h ensures k[j] == h[j] && h[j].gpu != l.gpu && h[j].container != c {
      assert h[j].container in HeldContainers(h);
    }
    forall d | d in HeldContainers(h) ensures d in HeldContainers(k) {
      var j :| j in h && h[j].container == d;
      assert j in k && k[j].container == d;
    }
  }

  // ---- giving everything back ----

  lemma BeginDrainKeepsInv(w: World, maxAttempts: int)
    requires Inv(w, maxAttempts) && Enabled(w, BeginDrain)
    ensures Inv(Apply(w, BeginDrain, maxAttempts), maxAttempts)
  {
    hide Ledger, ActiveRows, Base;
    BasePcFree(w, Apply(w, BeginDrain, maxAttempts));
    ActiveRowsReadLeases(w.t, maxAttempts);
  }

  lemma DrainMarkKeepsInv(w: World, maxAttempts: int)
    requires Inv(w, maxAttempts) && Enabled(w, DrainMark)
    ensures Inv(Apply(w, DrainMark, maxAttempts), maxAttempts)
  {
    hide Ledger, MarkedPreempting, Base;
    var v := Apply(w, DrainMark, maxAttempts);
    var r, rest := w.pc.rows[0], w.pc.rows[1..];
    MarkPreemptingKeepsLedger(w.t, r.jobId, maxAttempts);
    PreemptIsQuiet(w.t, r.jobId);
    PreemptKeepsIds(w.t, r.jobId);
    BaseIsStable(w, v);
    RestOfRows(w.pc.rows);
    assert r in w.pc.rows;
    forall i, k | 0 <= i < k < |v.pc.rows| ensures v.pc.rows[i].jobId < v.pc.rows[k].jobId {
      assert v.pc.rows[k] == w.pc.rows[k];
      assert v.pc.rows[i].jobId == w.pc.rows[i].jobId;
    }
  }

  lemma DrainStopKeepsInv(w: World, started: bool, maxAttempts: int)
    requires Inv(w, maxAttempts) && Enabled(w, DrainStop(started))
    ensures Inv(Apply(w, DrainStop(started), maxAttempts), maxAttempts)
  {
    hide Ledger;
    RestOfRows(w.pc.rows);
    var r := w.pc.rows[0];
    assert r in w.pc.rows && IsRow(Holding(w.t), r);
    assert Holding(w.t)[r.jobId].container in HeldContainers(Holding(w.t));
  }

  // ---- all steps ----

  lemma RestKeepsInv(w: World, a: Action, maxAttempts: int)
    requires Inv(w, maxAttempts) && Enabled(w, a)
    requires a.Crash? || a.SkipListing? || a.EndTick? || a.Break? || a.EndDrain?
    ensures Inv(Apply(w, a, maxAttempts), maxAttempts)
  {
    hide Ledger;
  }

  lemma StepKeepsInv(w: World, a: Action, maxAttempts: int)
    requires Inv(w, maxAttempts) && Enabled(w, a)
    ensures Inv(Apply(w, a, maxAttempts), maxAttempts)
  {
    hide *;
    match a
    case Submit(_, _) => EnvironmentStep(w, a, maxAttempts);
    case Cancel(_, _) => EnvironmentStep(w, a, maxAttempts);
    case Pause(_, _) => EnvironmentStep(w, a, maxAttempts);
    case Exit(_, _) => EnvironmentStep(w, a, maxAttempts);
    case Vanish(_) => EnvironmentStep(w, a, maxAttempts);
    case Crash => RestKeepsInv(w, a, maxAttempts);
    case TakeListing => ListingKeepsInv(w, maxAttempts);
    case SkipListing => RestKeepsInv(w, a, maxAttempts);
    case BeginReconcile => BeginReconcileKeepsInv(w, maxAttempts);
    case KeepOne => KeepOneKeepsInv(w, maxAttempts);
    case CloseOne(now) => CloseOneKeepsInv(w, now, maxAttempts);
    case Archive(removed) => ArchiveKeepsInv(w, removed, maxAttempts);
    case BeginSweep => BeginSweepKeepsInv(w, maxAttempts);
    case SweepOne(c, removed) => SweepOneKeepsInv(w, c, removed, maxAttempts);
    case EndSweep => EndSweepKeepsInv(w, maxAttempts);
    case TakeSnapshot => TakeSnapshotKeepsInv(w, maxAttempts);
    case StopPending(started) => StopPendingKeepsInv(w, started, maxAttempts);
    case Decide(reclaims, launches) => DecideKeepsInv(w, reclaims, launches, maxAttempts);
    case MarkReclaim => MarkReclaimKeepsInv(w, maxAttempts);
    case StopReclaimed(started) => StopReclaimedKeepsInv(w, started, maxAttempts);
    case CheckLaunch => CheckLaunchKeepsInv(w, maxAttempts);
    case RunContainer => RunContainerKeepsInv(w, maxAttempts);
    case RunFails(leftover) => RunFailsKeepsInv(w, leftover, maxAttempts);
    case RecordFailure(now) => RecordFailureKeepsInv(w, now, maxAttempts);
    case RecordRunning(now) => RecordRunningKeepsInv(w, now, maxAttempts);
    case EndTick => RestKeepsInv(w, a, maxAttempts);
    case Break => RestKeepsInv(w, a, maxAttempts);
    case BeginDrain => BeginDrainKeepsInv(w, maxAttempts);
    case DrainMark => DrainMarkKeepsInv(w, maxAttempts);
    case DrainStop(started) => DrainStopKeepsInv(w, started, maxAttempts);
    case EndDrain => RestKeepsInv(w, a, maxAttempts);
  }

  lemma EnvironmentStep(w: World, a: Action, maxAttempts: int)
    requires Inv(w, maxAttempts) && Enabled(w, a)
    requires a.Submit? || a.Cancel? || a.Pause? || a.Exit? || a.Vanish?
    ensures Inv(Apply(w, a, maxAttempts), maxAttempts)
  {
    hide Inv, Enabled, Apply;
    EnvironmentKeepsInv(w, a, maxAttempts);
  }

  lemma StartHasInv(maxAttempts: int)
    ensures Inv(START, maxAttempts)
  {}

  /** The invariant holds in every state of every execution. */
  lemma {:induction false} InvHoldsAlways(trace: seq<World>, actions: seq<Action>, maxAttempts: int, i: nat)
    requires Execution(trace, actions, maxAttempts) && i < |trace|
    ensures Inv(trace[i], maxAttempts)
  {
    hide Inv, Enabled, Apply;
    if i == 0 {
      StartHasInv(maxAttempts);
    } else {
      InvHoldsAlways(trace, actions, maxAttempts, i - 1);
      StepKeepsInv(trace[i - 1], actions[i - 1], maxAttempts);
    }
  }

  lemma RunHasInv(log: Log, maxAttempts: int)
    requires log.Runs(maxAttempts)
    ensures Inv(log.Now(), maxAttempts)
  {
    hide Inv, Enabled, Apply;
    InvHoldsAlways(log.trace, log.actions, maxAttempts, |log.trace| - 1);
  }
}
