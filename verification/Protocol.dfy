/** The lending protocol as a step system: one controller, cut at its transaction boundaries, against
    users, containers and Docker acting in between. */
module Protocol {
  import opened Model
  import opened Jobs
  import opened JobsLedger
  import opened Leases

  /** What names a spot container: the job and its attempt. Docker refuses a name that is in use. */
  datatype Name = Name(job: JobId, attempt: nat)

  /** A spot container as Docker knows it. */
  datatype Container = Container(name: Name, gpu: GpuId, running: bool, exitCode: int)

  type Listing = map<ContainerId, Container>

  predicate InUse(name: Name, docker: Listing) { exists c | c in docker :: docker[c].name == name }

  /** One `docker stop` asked for, and whether its process could be started. */
  datatype StopCall = StopCall(container: ContainerId, started: bool)

  /** Where the controller is inside a tick, with the values it read earlier and still relies on. */
  datatype Pc =
    | Resting
    | Listed(listing: Listing)
    | Closing(listing: Listing, todo: seq<RunningSpot>, known: set<ContainerId>)
    | Archiving(listing: Listing, todo: seq<RunningSpot>, known: set<ContainerId>, target: ContainerId)
    | Sweeping(listing: Listing, doomed: set<ContainerId>)
    | Ready(listed: Option<Listing>)
    | Stopping(listed: Option<Listing>, snap: seq<RunningSpot>, stops: seq<ContainerId>)
    | Acting(stop: Option<ContainerId>, reclaims: seq<Reclaim>, launches: seq<Launch>)
    | Starting(launch: Launch, attempt: nat, rest: seq<Launch>)
    | Started(launch: Launch, container: ContainerId, rest: seq<Launch>)
    | Failing(launch: Launch, rest: seq<Launch>)
    | Broken
    | Draining(rows: seq<RunningSpot>)

  datatype World = World(
    t: Tables,
    docker: Listing,                  // the spot containers that exist
    nextContainer: ContainerId,       // fresh container ids start here
    stuck: set<ContainerId>,          // containers whose removal was attempted and failed
    stopIssued: set<ContainerId>,
    stops: seq<StopCall>,             // every `docker stop` asked for
    lifeStart: nat,                   // how many of them before this controller started
    pc: Pc)

  const START: World := World(EMPTY, map[], 0, {}, {}, [], 0, Resting)

  datatype Action =
    // the environment
    | Submit(spec: JobSpec, now: Time)
    | Cancel(id: JobId, now: Time)
    | Pause(paused: bool, gpu: Option<GpuId>)
    | Exit(c: ContainerId, code: int)
    | Vanish(c: ContainerId)
    // the controller
    | Crash
    | TakeListing
    | SkipListing
    | BeginReconcile
    | KeepOne
    | CloseOne(now: Time)
    | Archive(removed: bool)
    | BeginSweep
    | SweepOne(c: ContainerId, removed: bool)
    | EndSweep
    | TakeSnapshot
    | StopPending(started: bool)
    | Decide(reclaims: seq<Reclaim>, launches: seq<Launch>)
    | MarkReclaim
    | StopReclaimed(started: bool)
    | CheckLaunch
    | RunContainer
    | RunFails(leftover: bool)
    | RecordFailure(now: Time)
    | RecordRunning(now: Time)
    | EndTick
    | Break
    | BeginDrain
    | DrainMark
    | DrainStop(started: bool)
    | EndDrain

  predicate IsEnvironment(a: Action) { a.Submit? || a.Cancel? || a.Pause? || a.Exit? || a.Vanish? }

  /** Containers of reclaiming rows for which no stop was issued yet. */
  function PendingStops(rows: seq<RunningSpot>, issued: set<ContainerId>): seq<ContainerId> {
    if rows == [] then []
    else if rows[0].reclaiming && rows[0].container !in issued then
      [rows[0].container] + PendingStops(rows[1..], issued)
    else PendingStops(rows[1..], issued)
  }

  function LaunchGpus(launches: seq<Launch>): set<GpuId> { set l | l in launches :: l.gpu }

  ghost predicate DistinctGpus(launches: seq<Launch>) {
    forall i, k | 0 <= i < k < |launches| :: launches[i].gpu != launches[k].gpu
  }

  ghost predicate DistinctContainers(reclaims: seq<Reclaim>) {
    forall i, k | 0 <= i < k < |reclaims| :: reclaims[i].container != reclaims[k].container
  }

  /** The reclaim is for a row of the snapshot that was not being reclaimed. */
  ghost predicate ReclaimsRow(r: Reclaim, snap: seq<RunningSpot>) {
    RunningSpot(r.jobId, r.gpu, r.container, false) in snap
  }

  function SnapGpus(snap: seq<RunningSpot>): set<GpuId> { set s | s in snap :: s.gpu }

  /** What the plan promises the protocol: launches only after a clean reconcile, on distinct GPUs that no
      job of the snapshot holds; reclaims only of running rows, each at most once. */
  ghost predicate GoodPlan(clean: bool, snap: seq<RunningSpot>, reclaims: seq<Reclaim>, launches: seq<Launch>) {
    && (launches != [] ==> clean)
    && DistinctGpus(launches) && LaunchGpus(launches) !! SnapGpus(snap)
    && (forall r | r in reclaims :: ReclaimsRow(r, snap))
    && DistinctContainers(reclaims)
  }

  predicate StillRunning(listing: Listing, row: RunningSpot) {
    row.container in listing && listing[row.container].running
  }

  ghost predicate Enabled(w: World, a: Action) {
    match a
    case Submit(_, _) => true
    case Cancel(id, _) => CanCancel(w.t, id)
    case Pause(_, _) => true
    case Exit(c, _) => c in w.docker && w.docker[c].running
    case Vanish(c) => c in w.docker
    case Crash => true
    case TakeListing => w.pc == Resting
    case SkipListing => w.pc == Resting
    case BeginReconcile => w.pc.Listed? && w.t.Leased()
    case KeepOne => w.pc.Closing? && w.pc.todo != [] && StillRunning(w.pc.listing, w.pc.todo[0])
    case CloseOne(_) =>
      w.pc.Closing? && w.pc.todo != [] && !StillRunning(w.pc.listing, w.pc.todo[0]) && w.pc.todo[0].jobId in w.t.jobs
    case Archive(_) => w.pc.Archiving?
    case BeginSweep => w.pc.Closing? && w.pc.todo == []
    case SweepOne(c, _) => w.pc.Sweeping? && c in w.pc.doomed
    case EndSweep => w.pc.Sweeping? && w.pc.doomed == {}
    case TakeSnapshot => w.pc.Ready? && w.t.Leased()
    case StopPending(_) => w.pc.Stopping? && w.pc.stops != []
    case Decide(reclaims, launches) => w.pc.Stopping? && w.pc.stops == []
          && GoodPlan(w.pc.listed.Some?, w.pc.snap, reclaims, launches)
    case MarkReclaim => w.pc.Acting? && w.pc.stop.None? && w.pc.reclaims != []
    case StopReclaimed(_) => w.pc.Acting? && w.pc.stop.Some?
    case CheckLaunch => w.pc.Acting? && w.pc.stop.None? && w.pc.reclaims == [] && w.pc.launches != []
    case RunContainer => w.pc.Starting? && !InUse(Name(w.pc.launch.jobId, w.pc.attempt), w.docker)
    case RunFails(leftover) =>
      w.pc.Starting? && (leftover ==> !InUse(Name(w.pc.launch.jobId, w.pc.attempt), w.docker))
    case RecordFailure(_) => w.pc.Failing?
    case RecordRunning(_) => w.pc.Started?
    case EndTick => w.pc == Acting(None, [], [])
    case Break => true
    case BeginDrain => (w.pc == Resting || w.pc == Broken) && w.t.Leased()
    case DrainMark => w.pc.Draining? && w.pc.rows != [] && !w.pc.rows[0].reclaiming
    case DrainStop(_) => w.pc.Draining? && w.pc.rows != [] && w.pc.rows[0].reclaiming
    case EndDrain => w.pc.Draining? || w.pc == Broken
  }

  /** `docker rm -f`: the container goes, or stays behind as stuck. */
  function Remove(w: World, c: ContainerId, removed: bool): World {
    if removed then w.(docker := w.docker - {c}) else w.(stuck := w.stuck + {c})
  }

  /** `docker run` for an attempt of a launched job. */
  function Create(w: World, l: Launch, attempt: nat): World {
    w.(docker := w.docker[w.nextContainer := Container(Name(l.jobId, attempt), l.gpu, true, 0)],
       nextContainer := w.nextContainer + 1)
  }

  /** `_stop`: the stop is recorded, then asked for. */
  function IssueStop(w: World, c: ContainerId, started: bool): World {
    w.(stopIssued := w.stopIssued + {c}, stops := w.stops + [StopCall(c, started)])
  }

  function CloseRow(w: World, now: Time, maxAttempts: int): World
    requires Enabled(w, CloseOne(now))
  {
    var row, listing, rest := w.pc.todo[0], w.pc.listing, w.pc.todo[1..];
    var listed := row.container in listing;
    var exitCode := if listed then Some(listing[row.container].exitCode) else None;
    w.(t := Finished(w.t, row.jobId, exitCode, maxAttempts, !listed, now),
       stopIssued := w.stopIssued - {row.container},
       pc := if listed then Archiving(listing, rest, w.pc.known + {row.container}, row.container)
             else Closing(listing, rest, w.pc.known))
  }

  function Apply(w: World, a: Action, maxAttempts: int): World
    requires Enabled(w, a)
  {
    match a
    case Submit(spec, now) => w.(t := Submitted(w.t, spec, now))
    case Cancel(id, now) => w.(t := MarkedCancelled(w.t, id, now))
    case Pause(paused, gpu) => w.(t := SetPause(w.t, paused, gpu))
    case Exit(c, code) => w.(docker := w.docker[c := w.docker[c].(running := false, exitCode := code)])
    case Vanish(c) => w.(docker := w.docker - {c})
    case Crash => w.(stopIssued := {}, lifeStart := |w.stops|, pc := Resting)
    case TakeListing => w.(pc := Listed(w.docker))
    case SkipListing => w.(pc := Ready(None))
    case BeginReconcile => w.(pc := Closing(w.pc.listing, ActiveRows(w.t), {}))
    case KeepOne => w.(pc := Closing(w.pc.listing, w.pc.todo[1..], w.pc.known + {w.pc.todo[0].container}))
    case CloseOne(now) => CloseRow(w, now, maxAttempts)
    case Archive(removed) => Remove(w, w.pc.target, removed).(pc := Closing(w.pc.listing, w.pc.todo, w.pc.known))
    case BeginSweep => w.(pc := Sweeping(w.pc.listing, w.pc.listing.Keys - w.pc.known))
    case SweepOne(c, removed) => Remove(w, c, removed).(pc := w.pc.(doomed := w.pc.doomed - {c}))
    case EndSweep => w.(pc := Ready(Some(w.pc.listing)))
    case TakeSnapshot =>
      w.(pc := Stopping(w.pc.listed, ActiveRows(w.t), PendingStops(ActiveRows(w.t), w.stopIssued)))
    case StopPending(started) => IssueStop(w, w.pc.stops[0], started).(pc := w.pc.(stops := w.pc.stops[1..]))
    case Decide(reclaims, launches) => w.(pc := Acting(None, reclaims, launches))
    case MarkReclaim =>
      var r := w.pc.reclaims[0];
      w.(t := MarkedPreempting(w.t, r.jobId), pc := w.pc.(stop := Some(r.container), reclaims := w.pc.reclaims[1..]))
    case StopReclaimed(started) => IssueStop(w, w.pc.stop.value, started).(pc := w.pc.(stop := None))
    case CheckLaunch =>
      var l, rest := w.pc.launches[0], w.pc.launches[1..];
      w.(pc := if l.jobId in w.t.jobs && w.t.jobs[l.jobId].state == Queued
               then Starting(l, w.t.jobs[l.jobId].attempts + 1, rest)
               else w.pc.(launches := rest))
    case RunContainer =>
      Create(w, w.pc.launch, w.pc.attempt).(pc := Started(w.pc.launch, w.nextContainer, w.pc.rest))
    case RunFails(leftover) =>
      (if leftover then Create(w, w.pc.launch, w.pc.attempt) else w).(pc := Failing(w.pc.launch, w.pc.rest))
    case RecordFailure(now) => w.(t := MarkedFailed(w.t, w.pc.launch.jobId, now), pc := Acting(None, [], w.pc.rest))
    case RecordRunning(now) =>
      var l := w.pc.launch;
      if l.jobId in w.t.jobs && w.t.jobs[l.jobId].state == Queued
      then w.(t := MarkedRunning(w.t, l.jobId, l.gpu, w.pc.container, now), pc := Acting(None, [], w.pc.rest))
      else w.(pc := Broken)
    case EndTick => w.(pc := Resting)
    case Break => w.(pc := Broken)
    case BeginDrain => w.(pc := Draining(ActiveRows(w.t)))
    case DrainMark =>
      var r := w.pc.rows[0];
      w.(t := MarkedPreempting(w.t, r.jobId), pc := Draining([r.(reclaiming := true)] + w.pc.rows[1..]))
    case DrainStop(started) => IssueStop(w, w.pc.rows[0].container, started).(pc := Draining(w.pc.rows[1..]))
    case EndDrain => w.(pc := Resting)
  }

  // ---- executions ----

  /** `trace` starts with nothing submitted and no container, and follows `actions` one by one. */
  ghost predicate Execution(trace: seq<World>, actions: seq<Action>, maxAttempts: int) {
    && |trace| == |actions| + 1 && trace[0] == START
    && forall i | 0 <= i < |actions| ::
         Enabled(trace[i], actions[i]) && trace[i + 1] == Apply(trace[i], actions[i], maxAttempts)
  }

  /** An execution so far. */
  datatype Log = Log(trace: seq<World>, actions: seq<Action>)
  {
    ghost predicate Runs(maxAttempts: int) { Execution(trace, actions, maxAttempts) }

    /** The state it has led to. */
    function Now(): World
      requires trace != []
    {
      trace[|trace| - 1]
    }

    function Then(a: Action, after: World): Log { Log(trace + [after], actions + [a]) }
  }

  const NOTHING_YET: Log := Log([START], [])

  lemma NothingYetRuns(maxAttempts: int)
    ensures NOTHING_YET.Runs(maxAttempts) && NOTHING_YET.Now() == START
  {}

  lemma StepExtends(log: Log, a: Action, maxAttempts: int)
    requires log.Runs(maxAttempts) && Enabled(log.Now(), a)
    ensures var next := log.Then(a, Apply(log.Now(), a, maxAttempts));
            next.Runs(maxAttempts) && next.Now() == Apply(log.Now(), a, maxAttempts)
  {
    hide Enabled, Apply;
    var w := log.Now();
    var next := log.Then(a, Apply(w, a, maxAttempts));
    forall i | 0 <= i < |next.actions|
      ensures Enabled(next.trace[i], next.actions[i])
           && next.trace[i + 1] == Apply(next.trace[i], next.actions[i], maxAttempts)
    {
      if i < |log.actions| {
        assert next.trace[i] == log.trace[i] && next.trace[i + 1] == log.trace[i + 1]
              && next.actions[i] == log.actions[i];
      } else {
        assert next.trace[i] == w && next.actions[i] == a;
      }
    }
  }

  // ---- what one controller does between two points of an execution ----

  /** The launch the controller is carrying out. */
  function LaunchAt(pc: Pc): Option<Launch> {
    match pc
    case Starting(l, _, _) => Some(l)
    case Started(l, _, _) => Some(l)
    case Failing(l, _) => Some(l)
    case _ => None
  }

  /** The steps that start a job, or record that it started or could not be started. */
  predicate IsStart(a: Action) { a.RunContainer? || a.RunFails? || a.RecordFailure? || a.RecordRunning? }

  /** The controller lives on, and starts nothing but the launches in `lent`. */
  ghost predicate Permitted(w: World, a: Action, lent: set<Launch>) {
    !a.Crash? && (IsStart(a) ==> LaunchAt(w.pc).Some? && LaunchAt(w.pc).value in lent)
  }

  /** `m` continues `l` within one controller lifetime and starts nothing but `lent`. */
  ghost predicate Goes(l: Log, m: Log, lent: set<Launch>) {
    && l.trace <= m.trace && l.actions <= m.actions && |m.trace| == |m.actions| + 1
    && forall n | |l.actions| <= n < |m.actions| :: Permitted(m.trace[n], m.actions[n], lent)
  }

  lemma GoesNowhere(l: Log, lent: set<Launch>)
    requires |l.trace| == |l.actions| + 1
    ensures Goes(l, l, lent)
  {}

  lemma GoesOn(l: Log, m: Log, n: Log, first: set<Launch>, second: set<Launch>, lent: set<Launch>)
    requires Goes(l, m, first) && Goes(m, n, second) && first <= lent && second <= lent
    ensures Goes(l, n, lent)
  {
    hide Permitted;
    forall k | |l.actions| <= k < |n.actions| ensures Permitted(n.trace[k], n.actions[k], lent) {
      if k < |m.actions| {
        assert n.actions[k] == m.actions[k] && n.trace[k] == m.trace[k];
        assert Permitted(m.trace[k], m.actions[k], first);
        PermittedMore(m.trace[k], m.actions[k], first, lent);
      } else {
        assert Permitted(n.trace[k], n.actions[k], second);
        PermittedMore(n.trace[k], n.actions[k], second, lent);
      }
    }
  }

  lemma PermittedMore(w: World, a: Action, less: set<Launch>, more: set<Launch>)
    requires Permitted(w, a, less) && less <= more
    ensures Permitted(w, a, more)
  {}

  lemma OneStepGoes(log: Log, a: Action, after: World, lent: set<Launch>)
    requires log.trace != [] && |log.trace| == |log.actions| + 1 && Permitted(log.Now(), a, lent)
    ensures Goes(log, log.Then(a, after), lent)
  {
    hide Permitted;
    var next := log.Then(a, after);
    assert next.trace[|log.actions|] == log.Now();
  }
}
