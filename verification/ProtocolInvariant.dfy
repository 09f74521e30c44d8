/** The inductive invariant of the protocol and its preservation by every step. */
module ProtocolInvariant {
  import opened Model
  import opened Jobs
  import opened JobsLedger
  import opened Leases
  import opened Protocol

  // ---- what holds in every state ----

  /** No two active jobs share a GPU or a container. */
  ghost predicate ExclusiveLeases(h: map<JobId, Lease>) {
    forall j, k | j in h && k in h && j != k :: h[j].gpu != h[k].gpu && h[j].container != h[k].container
  }

  /** Container ids in use were handed out before. */
  ghost predicate Aged(w: World) {
    && (forall c | c in w.docker :: c < w.nextContainer)
    && (forall j | j in Holding(w.t) :: Holding(w.t)[j].container < w.nextContainer)
  }

  /** An active job's container runs on the job's GPU. */
  ghost predicate OnOwnGpu(w: World) {
    forall j | j in Holding(w.t) && Holding(w.t)[j].container in w.docker ::
      w.docker[Holding(w.t)[j].container].gpu == Holding(w.t)[j].gpu
  }

  /** Two spot containers exist on one GPU only if the removal of one of them has failed. */
  ghost predicate AloneOnGpu(w: World) {
    forall c, d | c in w.docker && d in w.docker && c != d && w.docker[c].gpu == w.docker[d].gpu ::
      c in w.stuck || d in w.stuck
  }

  /** Stops are remembered only for active jobs, and never for a running one. */
  ghost predicate StopsAreCurrent(w: World) {
    && w.stopIssued <= HeldContainers(Holding(w.t))
    && forall j | j in Holding(w.t) && IsRunning(w.t, j) :: Holding(w.t)[j].container !in w.stopIssued
  }

  // ---- what the controller may rely on at each point of a tick ----

  /** No active job and no container (other than a stuck one) is on these GPUs. */
  ghost predicate Vacant(w: World, gpus: set<GpuId>) {
    && (forall j | j in Holding(w.t) :: Holding(w.t)[j].gpu !in gpus)
    && (forall c | c in w.docker && c !in w.stuck :: w.docker[c].gpu !in gpus)
  }

  /** Every container (other than a stuck one) belongs to an active job. */
  ghost predicate Clean(w: World) {
    forall c | c in w.docker && c !in w.stuck :: c in HeldContainers(Holding(w.t))
  }

  /** After a reconcile over a listing: clean, and every active job was listed as running. */
  ghost predicate Reconciled(w: World, listed: Option<Listing>) {
    listed.Some? ==> Clean(w) && forall j | j in Holding(w.t) :: SeenRunning(Holding(w.t), j, listed.value)
  }

  /** The listing still covers every container, and has seen every one that runs as running. */
  ghost predicate Covers(w: World, listing: Listing) {
    forall c | c in w.docker :: c in listing && (w.docker[c].running ==> listing[c].running)
  }

  /** The active job `j` was listed as running. */
  ghost predicate SeenRunning(h: map<JobId, Lease>, j: JobId, listing: Listing)
    requires j in h
  {
    h[j].container in listing && listing[h[j].container].running
  }

  ghost predicate StopOk(w: World, c: ContainerId) {
    && c in HeldContainers(Holding(w.t)) && c !in w.stopIssued
    && forall j | j in Holding(w.t) && Holding(w.t)[j].container == c :: !IsRunning(w.t, j)
  }

  ghost predicate ClosingInv(w: World, listing: Listing, todo: seq<RunningSpot>, known: set<ContainerId>,
                             target: Option<ContainerId>)
  {
    var h := Holding(w.t);
    && Covers(w, listing) && ById(todo)
    && (forall r | r in todo :: IsRow(h, r) && r.container !in known)
    && (forall j | j in h :: j in IdsOf(todo) || (h[j].container in known && SeenRunning(h, j, listing)))
    && (forall c | c in known ::
          c in listing && (c in HeldContainers(h) || c !in w.docker || c in w.stuck || Some(c) == target))
    && (target.Some? ==> target.value in known && target.value !in HeldContainers(h))
  }

  ghost predicate SweepingInv(w: World, listing: Listing, doomed: set<ContainerId>) {
    var h := Holding(w.t);
    && (forall c | c in w.docker :: c in doomed || c in w.stuck || c in HeldContainers(h))
    && doomed !! HeldContainers(h)
    && (forall j | j in h :: SeenRunning(h, j, listing))
  }

  ghost predicate StoppingInv(w: World, listed: Option<Listing>, snap: seq<RunningSpot>, stops: seq<ContainerId>) {
    var h := Holding(w.t);
    && Reconciled(w, listed)
    && ById(snap) && IdsOf(snap) == h.Keys
    && (forall r | r in snap :: IsRow(h, r)
          && (!r.reclaiming ==> r.container !in w.stopIssued && r.container !in stops))
    && (forall c | c in stops :: StopOk(w, c))
    && (forall i, k | 0 <= i < k < |stops| :: stops[i] != stops[k])
  }

  ghost predicate ActingInv(w: World, stop: Option<ContainerId>, reclaims: seq<Reclaim>, launches: seq<Launch>) {
    var h := Holding(w.t);
    && DistinctContainers(reclaims)
    && (forall r | r in reclaims ::
          r.jobId in h && h[r.jobId].container == r.container && r.container !in w.stopIssued
                && Some(r.container) != stop)
    && (stop.Some? ==> StopOk(w, stop.value))
    && DistinctGpus(launches) && Vacant(w, LaunchGpus(launches))
  }

  ghost predicate StartingInv(w: World, l: Launch, rest: seq<Launch>) {
    DistinctGpus([l] + rest) && Vacant(w, LaunchGpus([l] + rest)) && IsPending(w.t, l.jobId)
  }

  ghost predicate StartedInv(w: World, l: Launch, c: ContainerId, rest: seq<Launch>) {
    var h := Holding(w.t);
    var gpus := LaunchGpus([l] + rest);
    && DistinctGpus([l] + rest) && IsPending(w.t, l.jobId)
    && c < w.nextContainer && c !in HeldContainers(h) && c !in w.stopIssued
    && (c in w.docker ==> w.docker[c].gpu == l.gpu)
    && (forall j | j in h :: h[j].gpu !in gpus)
    && (forall d | d in w.docker && d !in w.stuck && d != c :: w.docker[d].gpu !in gpus)
  }

  ghost predicate FailingInv(w: World, l: Launch, rest: seq<Launch>) {
    DistinctGpus(rest) && Vacant(w, LaunchGpus(rest)) && IsPending(w.t, l.jobId)
  }

  ghost predicate DrainingInv(w: World, rows: seq<RunningSpot>) {
    && ById(rows)
    && forall r | r in rows :: IsRow(Holding(w.t), r) && (r.reclaiming ==> !IsRunning(w.t, r.jobId))
  }

  ghost predicate PcInv(w: World) {
    match w.pc
    case Resting => true
    case Listed(listing) => Covers(w, listing)
    case Closing(listing, todo, known) => ClosingInv(w, listing, todo, known, None)
    case Archiving(listing, todo, known, target) => ClosingInv(w, listing, todo, known, Some(target))
    case Sweeping(listing, doomed) => SweepingInv(w, listing, doomed)
    case Ready(listed) => Reconciled(w, listed)
    case Stopping(listed, snap, stops) => StoppingInv(w, listed, snap, stops)
    case Acting(stop, reclaims, launches) => ActingInv(w, stop, reclaims, launches)
    case Starting(l, _, rest) => StartingInv(w, l, rest)
    case Started(l, c, rest) => StartedInv(w, l, c, rest)
    case Failing(l, rest) => FailingInv(w, l, rest)
    case Broken => true
    case Draining(rows) => DrainingInv(w, rows)
  }

  ghost predicate Base(w: World) {
    ExclusiveLeases(Holding(w.t)) && Aged(w) && OnOwnGpu(w) && AloneOnGpu(w) && StopsAreCurrent(w)
  }

  ghost predicate Inv(w: World, maxAttempts: int) {
    Ledger(w.t, maxAttempts) && w.t.nextId >= 1 && Base(w) && PcInv(w)
  }

  // ---- interference: nothing the environment does disturbs what the controller relies on ----

  /** Docker only loses containers, or sees them stop; more removals may have failed. */
  ghost predicate Shrinks(w: World, v: World) {
    && v.docker.Keys <= w.docker.Keys && w.stuck <= v.stuck
    && v.nextContainer == w.nextContainer
    && forall c | c in v.docker ::
         v.docker[c].gpu == w.docker[c].gpu && v.docker[c].name == w.docker[c].name
               && (v.docker[c].running ==> w.docker[c].running)
  }

  lemma BaseIsStable(w: World, v: World)
    requires Base(w) && QuietChange(w.t, v.t) && Shrinks(w, v) && v.stopIssued == w.stopIssued
    ensures Base(v)
  {}

  lemma VacantIsStable(w: World, v: World, gpus: set<GpuId>)
    requires Vacant(w, gpus) && Holding(v.t) == Holding(w.t) && Shrinks(w, v)
    ensures Vacant(v, gpus)
  {}

  lemma ReconciledIsStable(w: World, v: World, listed: Option<Listing>)
    requires Reconciled(w, listed) && Holding(v.t) == Holding(w.t) && Shrinks(w, v)
    ensures Reconciled(v, listed)
  {}

  lemma StopOkIsStable(w: World, v: World, c: ContainerId)
    requires StopOk(w, c) && QuietChange(w.t, v.t) && v.stopIssued == w.stopIssued
    ensures StopOk(v, c)
  {}

  lemma ClosingIsStable(w: World, v: World, listing: Listing, todo: seq<RunningSpot>, known: set<ContainerId>,
                        target: Option<ContainerId>)
    requires ClosingInv(w, listing, todo, known, target) && Holding(v.t) == Holding(w.t) && Shrinks(w, v)
    ensures ClosingInv(v, listing, todo, known, target)
  {}

  lemma SweepingIsStable(w: World, v: World, listing: Listing, doomed: set<ContainerId>)
    requires SweepingInv(w, listing, doomed) && Holding(v.t) == Holding(w.t) && Shrinks(w, v)
    ensures SweepingInv(v, listing, doomed)
  {}

  lemma StoppingIsStable(w: World, v: World, listed: Option<Listing>, snap: seq<RunningSpot>, stops: seq<ContainerId>)
    requires StoppingInv(w, listed, snap, stops) && QuietChange(w.t, v.t) && Shrinks(w, v)
          && v.stopIssued == w.stopIssued
    ensures StoppingInv(v, listed, snap, stops)
  {
    hide StopOk, Reconciled;
    ReconciledIsStable(w, v, listed);
    forall c | c in stops ensures StopOk(v, c) {
      StopOkIsStable(w, v, c);
    }
  }

  lemma ActingIsStable(w: World, v: World, stop: Option<ContainerId>, reclaims: seq<Reclaim>, launches: seq<Launch>)
    requires ActingInv(w, stop, reclaims, launches) && QuietChange(w.t, v.t) && Shrinks(w, v)
          && v.stopIssued == w.stopIssued
    ensures ActingInv(v, stop, reclaims, launches)
  {
    hide StopOk, Vacant;
    if stop.Some? { StopOkIsStable(w, v, stop.value); }
    VacantIsStable(w, v, LaunchGpus(launches));
  }

  lemma StartedIsStable(w: World, v: World, l: Launch, c: ContainerId, rest: seq<Launch>)
    requires StartedInv(w, l, c, rest) && QuietChange(w.t, v.t) && Shrinks(w, v) && v.stopIssued == w.stopIssued
    ensures StartedInv(v, l, c, rest)
  {}

  /** Rely: a quiet change of the tables while Docker shrinks keeps the whole invariant, wherever the
      controller is. */
  lemma InterferenceKeepsInv(w: World, v: World, maxAttempts: int)
    requires Inv(w, maxAttempts)
    requires Ledger(v.t, maxAttempts) && v.t.nextId >= 1
    requires QuietChange(w.t, v.t) && Shrinks(w, v) && v.stopIssued == w.stopIssued && v.pc == w.pc
    ensures Inv(v, maxAttempts)
  {
    hide Ledger, Base, ClosingInv, SweepingInv, StoppingInv, ActingInv, StartedInv, Vacant, Reconciled;
    BaseIsStable(w, v);
    match w.pc
    case Resting =>
    case Listed(listing) =>
    case Closing(listing, todo, known) => ClosingIsStable(w, v, listing, todo, known, None);
    case Archiving(listing, todo, known, target) => ClosingIsStable(w, v, listing, todo, known, Some(target));
    case Sweeping(listing, doomed) => SweepingIsStable(w, v, listing, doomed);
    case Ready(listed) => ReconciledIsStable(w, v, listed);
    case Stopping(listed, snap, stops) => StoppingIsStable(w, v, listed, snap, stops);
    case Acting(stop, reclaims, launches) => ActingIsStable(w, v, stop, reclaims, launches);
    case Starting(l, _, rest) => VacantIsStable(w, v, LaunchGpus([l] + rest));
    case Started(l, c, rest) => StartedIsStable(w, v, l, c, rest);
    case Failing(l, rest) => VacantIsStable(w, v, LaunchGpus(rest));
    case Broken =>
    case Draining(rows) =>
  }

  /** What the environment may do to the tables and to Docker while the controller is between two steps. */
  ghost predicate Undisturbed(w: World, v: World) {
    && QuietChange(w.t, v.t) && Shrinks(w, v)
    && v.stuck == w.stuck && v.stopIssued == w.stopIssued && v.stops == w.stops && v.lifeStart == w.lifeStart
    && v.pc == w.pc
  }

  lemma UndisturbedTwice(w: World, v: World, u: World)
    requires Undisturbed(w, v) && Undisturbed(v, u)
    ensures Undisturbed(w, u)
  {
    hide Holding;
  }

  lemma EnvironmentDisturbsNothing(w: World, a: Action, maxAttempts: int)
    requires Ledger(w.t, maxAttempts) && w.t.nextId >= 1 && Enabled(w, a) && IsEnvironment(a)
    ensures Undisturbed(w, Apply(w, a, maxAttempts))
    ensures Ledger(Apply(w, a, maxAttempts).t, maxAttempts) && Apply(w, a, maxAttempts).t.nextId >= 1
  {
    hide Ledger;
    match a {
      case Submit(spec, now) =>
        SubmitKeepsLedger(w.t, spec, now, maxAttempts);
        SubmitIsQuiet(w.t, spec, now, maxAttempts);
      case Cancel(id, now) =>
        CancelKeepsLedger(w.t, id, now, maxAttempts);
        CancelIsQuiet(w.t, id, now, maxAttempts);
      case Pause(paused, gpu) =>
        PauseKeepsLedger(w.t, paused, gpu, maxAttempts);
        PauseIsQuiet(w.t, paused, gpu);
      case Exit(c, code) =>
      case Vanish(c) =>
    }
  }

  lemma EnvironmentKeepsInv(w: World, a: Action, maxAttempts: int)
    requires Inv(w, maxAttempts) && Enabled(w, a) && IsEnvironment(a)
    ensures Inv(Apply(w, a, maxAttempts), maxAttempts)
  {
    hide Ledger, Base, PcInv, Apply, Enabled;
    EnvironmentDisturbsNothing(w, a, maxAttempts);
    InterferenceKeepsInv(w, Apply(w, a, maxAttempts), maxAttempts);
  }

  lemma PauseKeepsLedger(t: Tables, paused: bool, gpu: Option<GpuId>, maxAttempts: int)
    requires Ledger(t, maxAttempts)
    ensures Ledger(SetPause(t, paused, gpu), maxAttempts)
  {
    hide Accounts;
    var u := SetPause(t, paused, gpu);
    assert u.jobs == t.jobs && u.runs == t.runs && u.nextId == t.nextId;
  }
}
