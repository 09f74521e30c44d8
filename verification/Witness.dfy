/** Two executions that show where the promises end. Each is kept with a diary of the GPU's tracker and of the
    time: in every controller lifetime there is one tracker, shown one look per decision at growing times, and
    every decision is what the detector makes of that tracker's history and the planner of the queue. */
module Witness {
  import opened Model
  import opened Ordering
  import opened Detector
  import opened DetectorProofs
  import opened Planner
  import opened Observer
  import opened Jobs
  import opened Leases
  import opened Protocol
  import opened ProtocolFrames
  import opened TickSpec

  const MAX: int := 20
  const CFG: Config := Config(
    IdleConfig(1800.0, 5, 512 * MIB, 0.0, 120.0), ReclaimConfig(2 * GIB), false, GIB, 0, MAX)
  const ANY: Matcher := (model, patterns) => true

  const SPEC: JobSpec := JobSpec(0, 0, 0, [])
  const GPU: GpuInfo := GpuInfo(0, 0, "A100", 24 * GIB)
  const FREE: GpuSnapshot := GpuSnapshot(GPU, 0, [])
  const HELD: GpuSnapshot := GpuSnapshot(GPU, 4 * GIB, [GpuProcess(77, 4 * GIB, 90)])

  /** A tick at `now` without owners, with the GPU as in `snap` and process 77 in container 0. */
  function At(now: Time, snap: GpuSnapshot): TickInput {
    TickInput(now, false, true, [], Some([GPU]), map[0 := Read(snap, map[77 := 0])], map[], Some(64 * GIB), true)
  }

  function Seen(snap: GpuSnapshot): GpuObservation {
    GpuObservation(0, true, "A100", 24 * GIB, snap.usedMemory,
                   if snap == FREE then [] else [ClassifiedProcess(77, Spot, Some(0), 4 * GIB, 90)], {}, None)
  }

  function Looked(snap: GpuSnapshot, now: Time): Sighting { Sighting(Seen(snap), now, CFG.idle) }

  /** The decision is what the detector, from this history of the GPU's tracker ending with this look, and the
      planner, from the queue, come to in state `w`. */
  ghost predicate Decides(w: World, input: TickInput, h: History, v: GpuVerdict, a: Action) {
    && w.pc.Stopping? && a.Decide?
    && Judged(map[0 := v], map[0 := h], input, w.pc.listed, CFG, w.pc.snap, w.t.pausedNode, {})
    && a.reclaims == Reclaims(w.pc.snap, map[0 := v])
    && LaunchesFirstFit(a.launches, map[0 := v], w.pc.snap, w.t, input, CFG, ANY)
  }

  /** What is on the controller's mind besides the state of the protocol: the history of the GPU's tracker, if it
      has one yet, and the time. */
  datatype Page = Page(history: Option<History>, clock: Time)

  /** The tracker after one more look; the first look creates it. */
  function Grown(h: Option<History>, look: Sighting): History {
    if h.None? then History(look.obs, look.now, [look]) else h.value.Push(look)
  }

  function TimeOf(a: Action): Option<Time> {
    match a
    case Submit(_, now) => Some(now)
    case Cancel(_, now) => Some(now)
    case CloseOne(now) => Some(now)
    case RecordFailure(now) => Some(now)
    case RecordRunning(now) => Some(now)
    case _ => None
  }

  /** One step: time goes on; a decision is made on one more look; a crash loses the tracker. */
  ghost predicate Turns(p: Page, q: Page, w: World, a: Action) {
    && p.clock <= q.clock && (TimeOf(a).Some? ==> q.clock == TimeOf(a).value)
    && if a.Decide? then
         exists snap, v ::
           q.history == Some(Grown(p.history, Looked(snap, q.clock)))
           && Decides(w, At(q.clock, snap), q.history.value, v, a)
       else q.history == if a.Crash? then None else p.history
  }

  datatype Life = Life(log: Log, pages: seq<Page>)
  {
    function Now(): World
      requires log.trace != []
    {
      log.Now()
    }

    function Last(): Page { if pages == [] then Page(None, 0.0) else pages[|pages| - 1] }

    function Then(a: Action, after: World, page: Page): Life { Life(log.Then(a, after), pages + [page]) }
  }

  const BIRTH: Life := Life(NOTHING_YET, [Page(None, 0.0)])

  /** An execution with its diary. */
  ghost predicate Real(life: Life) {
    && life.log.Runs(MAX) && |life.pages| == |life.log.trace| && life.pages[0] == BIRTH.pages[0]
    && forall n | 0 <= n < |life.log.actions| ::
         Turns(life.pages[n], life.pages[n + 1], life.log.trace[n], life.log.actions[n])
  }

  lemma Step(life: Life, a: Action, page: Page)
    requires Real(life) && Enabled(life.Now(), a) && Turns(life.Last(), page, life.Now(), a)
    ensures life.log.trace != []
    ensures var next := life.Then(a, Apply(life.Now(), a, MAX), page);
            Real(next) && next.Now() == Apply(life.Now(), a, MAX) && next.Last() == page
  {
    hide Enabled, Apply, Turns;
    StepExtends(life.log, a, MAX);
    var next := life.Then(a, Apply(life.Now(), a, MAX), page);
    forall n | 0 <= n < |next.log.actions|
      ensures Turns(next.pages[n], next.pages[n + 1], next.log.trace[n], next.log.actions[n])
    {
      if n < |life.log.actions| {
        assert next.log.trace[n] == life.log.trace[n] && next.log.actions[n] == life.log.actions[n];
        assert next.pages[n] == life.pages[n] && next.pages[n + 1] == life.pages[n + 1];
      } else {
        assert next.log.trace[n] == life.Now() && next.pages[n] == life.Last();
      }
    }
  }

  // ---- what the detector and the planner say ----

  /** Looks at a GPU that only a spot uses. */
  ghost predicate Calm(h: History) {
    && (h.first == Seen(FREE) || h.first == Seen(HELD))
    && forall i | 0 <= i < |h.updates| ::
         (h.updates[i].obs == Seen(FREE) || h.updates[i].obs == Seen(HELD)) && h.updates[i].idle == CFG.idle
  }

  lemma CalmLook(obs: GpuObservation)
    requires obs == Seen(FREE) || obs == Seen(HELD)
    ensures obs.ok && obs.OwnerMemory() == 0 && obs.OwnerUtil() == 0 && !obs.HasUnknown() && obs.ownerContainers == {}
  {
    if obs == Seen(HELD) {
      var c := ClassifiedProcess(77, Spot, Some(0), 4 * GIB, 90);
      assert FREE != HELD && obs.processes == [c] && [c][1..] == [];
      assert MemoryOf([c], Owner) == 0 && UtilOf([c], Owner) == 0;
    }
  }

  lemma {:induction false} CalmMeansQuiet(h: History, n: nat)
    requires Calm(h) && n <= |h.updates|
    ensures LastActiveIndex(h, n) == -1 && LeastMemory(h, -1, n) == 0 && LastDisturbed(h, n) == h.born
    ensures forall i | 0 <= i < n :: !Active(h, i)
  {
    CalmLook(h.first);
    if n > 0 {
      CalmMeansQuiet(h, n - 1);
      CalmLook(h.updates[n - 1].obs);
      assert Baseline(h, n - 1) == 0;
      assert !Active(h, n - 1);
    }
  }

  predicate ListedOnGpu(docker: Listing) { 0 in docker && docker[0].running && docker[0].gpu == 0 }

  lemma ShowsSpot(now: Time, snap: GpuSnapshot, listing: Listing)
    requires snap == FREE || (snap == HELD && ListedOnGpu(listing))
    ensures Shows(Seen(snap), At(now, snap), Some(listing))
  {
    var input, spots := At(now, snap), SpotGpus(listing);
    assert OwnersOn(0, [], [GPU]) == {};
    assert SortedIds({}) == [];
    if snap == HELD {
      assert Classified(GpuProcess(77, 4 * GIB, 90), 0, map[77 := 0], {}, spots)
          == ClassifiedProcess(77, Spot, Some(0), 4 * GIB, 90);
    }
    assert Observes(Seen(snap), snap, map[77 := 0], {}, spots, map[]);
    assert GPU in [GPU];
  }

  /** The verdict on the GPU after calm looks: lent out or not, it depends on the clock and on blocks only. */
  function VerdictOn(snap: GpuSnapshot, idleFor: real, lent: bool, reclaiming: bool, blocked: bool): GpuVerdict {
    var room := 22 * GIB - snap.usedMemory;
    if lent then
      GpuVerdict(0, if reclaiming || blocked then Reclaiming else Lent, false, blocked && !reclaiming,
                 if blocked then [BlockedByAdmin] else [], 0, idleFor, "A100")
    else if blocked || idleFor < 120.0 then
      GpuVerdict(0, Idle, false, false, if blocked then [BlockedByAdmin] else [], 0, idleFor, "A100")
    else GpuVerdict(0, Lendable, true, false, [], room, idleFor, "A100")
  }

  lemma VerdictFollows(h: History, now: Time, snap: GpuSnapshot, active: seq<RunningSpot>, blocked: bool)
    requires Calm(h) && Chronological(h) && |h.updates| > 0 && (snap == FREE || snap == HELD)
    requires h.updates[|h.updates| - 1] == Looked(snap, now)
    ensures FollowsFrom(VerdictOn(snap, now - h.born, IsLent(active, 0), IsReclaiming(active, 0), blocked),
                        h, 0, now, CFG, active, blocked)
  {
    CalmMeansQuiet(h, |h.updates|);
    hide LastDisturbed, Active, Calm, OnGpu, LastActiveIndex, LeastMemory;
    assert Seen(snap).FreeMemory() == 24 * GIB - snap.usedMemory && snap.usedMemory <= 4 * GIB;
  }

  lemma JudgedSo(w: World, h: History, now: Time, snap: GpuSnapshot)
    requires w.pc.Stopping? && w.pc.listed.Some? && Calm(h) && Chronological(h) && |h.updates| > 0
    requires h.updates[|h.updates| - 1] == Looked(snap, now)
    requires snap == FREE || (snap == HELD && ListedOnGpu(w.pc.listed.value))
    ensures var v := VerdictOn(snap, now - h.born, IsLent(w.pc.snap, 0), IsReclaiming(w.pc.snap, 0), w.t.pausedNode);
            Judged(map[0 := v], map[0 := h], At(now, snap), w.pc.listed, CFG, w.pc.snap, w.t.pausedNode, {})
  {
    VerdictFollows(h, now, snap, w.pc.snap, w.t.pausedNode);
    ShowsSpot(now, snap, w.pc.listed.value);
    hide Shows, FollowsFrom, Calm, Chronological, VerdictOn, Seen, IsLent, IsReclaiming;
    assert LastLook(h) == Seen(snap);
  }

  lemma NothingToLend(v: GpuVerdict, active: seq<RunningSpot>, queue: seq<QueuedJob>, t: Tables, input: TickInput)
    requires !Open(0, map[0 := v], Occupied(active)) && IsQueueOf(queue, t, input, CFG) && input.hookPresent
    ensures LaunchesFirstFit([], map[0 := v], active, t, input, CFG, ANY)
  {
    assert FirstFit([], {0}, map[0 := v], Occupied(active), queue, RamBudget(input, CFG), ANY);
    assert map[0 := v].Keys == {0};
  }

  lemma LendToOnly(v: GpuVerdict, job: QueuedJob, t: Tables, input: TickInput)
    requires v.lendable && IsQueueOf([job], t, input, CFG) && input.hookPresent
    requires Fits(job, v, RamBudget(input, CFG), ANY)
    ensures LaunchesFirstFit([Launch(job.jobId, 0, v.lendableMemory, job.ram)], map[0 := v], [], t, input, CFG, ANY)
  {
    var launches := [Launch(job.jobId, 0, v.lendableMemory, job.ram)];
    var verdicts := map[0 := v];
    assert launches[..0] == [] && JobsOf([]) == {} && RamOf([]) == 0;
    assert Candidate(job, 0, [], verdicts, [job], RamBudget(input, CFG), ANY);
    assert FirstCandidate(launches[0], launches[..0], verdicts, [job], RamBudget(input, CFG), ANY);
    forall g, k: nat | g == 0 ensures !SplitsAt(launches, k, g) {
      assert launches[0].gpu == 0;
    }
    assert verdicts.Keys == {0};
    assert FirstFit(launches, {0}, verdicts, Occupied([]), [job], RamBudget(input, CFG), ANY);
  }

  /** Only job `id` waits, and nothing is active. */
  ghost predicate OneWaits(t: Tables, id: JobId) {
    && t.Leased() && ActiveRows(t) == [] && !t.pausedNode
    && id in t.jobs && t.jobs[id].spec == SPEC
    && forall j | j in t.jobs :: t.jobs[j].state == JobState.Queued <==> j == id
  }

  lemma QueueOfOne(t: Tables, id: JobId, input: TickInput)
    requires OneWaits(t, id) && input.dockerUp
    ensures IsQueueOf([AsQueued(id, t.jobs[id], GIB)], t, input, CFG)
  {
    var queue := [AsQueued(id, t.jobs[id], GIB)];
    forall q: QueuedJob
      ensures q in queue <==> q.jobId in t.jobs && t.jobs[q.jobId].state == JobState.Queued
                              && q == AsQueued(q.jobId, t.jobs[q.jobId], GIB) {}
  }

  // ---- the steps of these runs ----

  /** One step to a given state at a given time; decisions have their own lemma. */
  lemma TakeAt(life: Life, a: Action, after: World, now: Time) returns (next: Life)
    requires Real(life) && Enabled(life.Now(), a) && !a.Decide? && Apply(life.Now(), a, MAX) == after
    requires life.Last().clock <= now && (TimeOf(a).Some? ==> TimeOf(a).value == now)
    ensures Real(next) && next.Now() == after
    ensures next.Last() == Page(if a.Crash? then None else life.Last().history, now)
    ensures next.log.actions == life.log.actions + [a]
  {
    var page := Page(if a.Crash? then None else life.Last().history, now);
    hide Real, Enabled, Apply;
    Step(life, a, page);
    next := life.Then(a, after, page);
  }

  lemma Take(life: Life, a: Action, after: World) returns (next: Life)
    requires Real(life) && Enabled(life.Now(), a) && !a.Decide? && !a.Crash? && TimeOf(a).None?
    requires Apply(life.Now(), a, MAX) == after
    ensures Real(next) && next.Now() == after && next.Last() == life.Last()
    ensures next.log.actions == life.log.actions + [a]
  {
    hide Real, Enabled, Apply, TimeOf;
    next := TakeAt(life, a, after, life.Last().clock);
  }

  /** A decision, on one more look at the GPU. */
  lemma TakeDecision(life: Life, a: Action, after: World, snap: GpuSnapshot, now: Time, v: GpuVerdict)
    returns (next: Life)
    requires Real(life) && Enabled(life.Now(), a) && a.Decide? && life.Last().clock <= now
    requires Decides(life.Now(), At(now, snap), Grown(life.Last().history, Looked(snap, now)), v, a)
    requires Apply(life.Now(), a, MAX) == after
    ensures Real(next) && next.Now() == after
    ensures next.Last() == Page(Some(Grown(life.Last().history, Looked(snap, now))), now)
  {
    var page := Page(Some(Grown(life.Last().history, Looked(snap, now))), now);
    hide Enabled, Apply, Decides, Looked, At, Grown;
    assert Turns(life.Last(), page, life.Now(), a);
    hide Real, Turns;
    Step(life, a, page);
    next := life.Then(a, after, page);
  }

  lemma ListsAndReads(life: Life, rows: seq<RunningSpot>) returns (next: Life)
    requires Real(life) && life.Now().pc == Resting && life.Now().t.Leased() && ActiveRows(life.Now().t) == rows
    ensures Real(next) && next.Last() == life.Last()
    ensures next.Now() == life.Now().(pc := Closing(life.Now().docker, rows, {}))
  {
    var w := life.Now();
    hide Real, ActiveRows;
    next := Take(life, TakeListing, w.(pc := Listed(w.docker)));
    next := Take(next, BeginReconcile, w.(pc := Closing(w.docker, rows, {})));
  }

  lemma Keeps(life: Life, row: RunningSpot) returns (next: Life)
    requires Real(life) && StillRunning(life.Now().docker, row)
    requires life.Now().pc == Closing(life.Now().docker, [row], {})
    ensures Real(next) && next.Last() == life.Last()
    ensures next.Now() == life.Now().(pc := Closing(life.Now().docker, [], {row.container}))
  {
    var w := life.Now();
    hide Real;
    assert [row][1..] == [] && {} + {row.container} == {row.container};
    next := Take(life, KeepOne, w.(pc := Closing(w.docker, [], {row.container})));
  }

  lemma Sweeps(life: Life, known: set<ContainerId>) returns (next: Life)
    requires Real(life) && life.Now().pc == Closing(life.Now().docker, [], known)
    ensures Real(next) && next.Last() == life.Last()
    ensures next.Now() == life.Now().(pc := Sweeping(life.Now().docker, life.Now().docker.Keys - known))
  {
    var w := life.Now();
    hide Real;
    next := Take(life, BeginSweep, w.(pc := Sweeping(w.docker, w.docker.Keys - known)));
  }

  lemma RemovalFails(life: Life) returns (next: Life)
    requires Real(life) && life.Now().pc == Sweeping(life.Now().docker, {0})
    ensures Real(next) && next.Last() == life.Last()
    ensures next.Now() == life.Now().(stuck := life.Now().stuck + {0}, pc := Sweeping(life.Now().docker, {}))
  {
    var w := life.Now();
    hide Real;
    assert {0} - {0} == {};
    next := Take(life, SweepOne(0, false), w.(stuck := w.stuck + {0}, pc := Sweeping(w.docker, {})));
  }

  lemma Snapshots(life: Life, rows: seq<RunningSpot>) returns (next: Life)
    requires Real(life) && life.Now().pc == Sweeping(life.Now().docker, {})
    requires life.Now().t.Leased() && ActiveRows(life.Now().t) == rows
    requires PendingStops(rows, life.Now().stopIssued) == []
    ensures Real(next) && next.Last() == life.Last()
    ensures next.Now() == life.Now().(pc := Stopping(Some(life.Now().docker), rows, []))
  {
    var w := life.Now();
    hide Real, ActiveRows, PendingStops;
    next := SweepEnds(life);
    next := Take(next, TakeSnapshot, w.(pc := Stopping(Some(w.docker), rows, [])));
  }

  lemma SweepEnds(life: Life) returns (next: Life)
    requires Real(life) && life.Now().pc == Sweeping(life.Now().docker, {})
    ensures Real(next) && next.Last() == life.Last()
    ensures next.Now() == life.Now().(pc := Ready(Some(life.Now().docker)))
  {
    var w := life.Now();
    hide Real;
    next := Take(life, EndSweep, w.(pc := Ready(Some(w.docker))));
  }

  lemma DecidesReclaims(life: Life, reclaims: seq<Reclaim>, snap: GpuSnapshot, now: Time, v: GpuVerdict)
    returns (next: Life)
    requires Real(life) && life.Now().pc.Stopping? && life.Now().pc.stops == [] && life.Last().clock <= now
    requires GoodPlan(life.Now().pc.listed.Some?, life.Now().pc.snap, reclaims, [])
    requires Decides(life.Now(), At(now, snap), Grown(life.Last().history, Looked(snap, now)), v, Decide(reclaims, []))
    ensures Real(next) && next.Now() == life.Now().(pc := Acting(None, reclaims, []))
    ensures next.Last() == Page(Some(Grown(life.Last().history, Looked(snap, now))), now)
  {
    var w := life.Now();
    hide Real, Decides, GoodPlan, Looked, At, Grown;
    next := TakeDecision(life, Decide(reclaims, []), w.(pc := Acting(None, reclaims, [])), snap, now, v);
  }

  lemma DecidesNothing(life: Life, snap: GpuSnapshot, now: Time, v: GpuVerdict) returns (next: Life)
    requires Real(life) && life.Now().pc.Stopping? && life.Now().pc.stops == [] && life.Last().clock <= now
    requires Decides(life.Now(), At(now, snap), Grown(life.Last().history, Looked(snap, now)), v, Decide([], []))
    ensures Real(next) && next.Now() == life.Now().(pc := Acting(None, [], []))
    ensures next.Last() == Page(Some(Grown(life.Last().history, Looked(snap, now))), now)
  {
    var w := life.Now();
    assert GoodPlan(w.pc.listed.Some?, w.pc.snap, [], []);
    hide Real, Decides, GoodPlan, Looked, At, Grown;
    next := DecidesReclaims(life, [], snap, now, v);
  }

  lemma Rests(life: Life) returns (next: Life)
    requires Real(life) && life.Now().pc == Acting(None, [], [])
    ensures Real(next) && next.Last() == life.Last() && next.Now() == life.Now().(pc := Resting)
    ensures next.log.actions == life.log.actions + [EndTick]
  {
    var w := life.Now();
    hide Real;
    next := Take(life, EndTick, w.(pc := Resting));
  }

  lemma StartsJob(life: Life, l: Launch, snap: GpuSnapshot, now: Time, v: GpuVerdict) returns (next: Life)
    requires Real(life) && life.Now().pc == Stopping(Some(life.Now().docker), [], []) && life.Last().clock <= now
    requires l.jobId in life.Now().t.jobs && life.Now().t.jobs[l.jobId].state == JobState.Queued
    requires Decides(life.Now(), At(now, snap), Grown(life.Last().history, Looked(snap, now)), v, Decide([], [l]))
    requires !InUse(Name(l.jobId, life.Now().t.jobs[l.jobId].attempts + 1), life.Now().docker)
    ensures Real(next) && next.Last() == Page(Some(Grown(life.Last().history, Looked(snap, now))), now)
    ensures var w := life.Now();
            next.Now() == Create(w, l, w.t.jobs[l.jobId].attempts + 1).(pc := Started(l, w.nextContainer, []))
  {
    var w := life.Now();
    hide Real, Decides, InUse, Looked, At, Grown;
    var attempt := w.t.jobs[l.jobId].attempts + 1;
    assert GoodPlan(true, [], [], [l]);
    next := TakeDecision(life, Decide([], [l]), w.(pc := Acting(None, [], [l])), snap, now, v);
    next := RunsJob(next, w, l, attempt);
  }

  lemma RunsJob(life: Life, w: World, l: Launch, attempt: nat) returns (next: Life)
    requires Real(life) && life.Now() == w.(pc := Acting(None, [], [l]))
    requires l.jobId in w.t.jobs && w.t.jobs[l.jobId].state == JobState.Queued
    requires attempt == w.t.jobs[l.jobId].attempts + 1 && !InUse(Name(l.jobId, attempt), w.docker)
    ensures Real(next) && next.Last() == life.Last()
    ensures next.Now() == Create(w, l, attempt).(pc := Started(l, w.nextContainer, []))
  {
    hide Real, InUse;
    assert [l][1..] == [];
    next := Take(life, CheckLaunch, w.(pc := Starting(l, attempt, [])));
    next := Take(next, RunContainer, Create(w, l, attempt).(pc := Started(l, w.nextContainer, [])));
  }

  /** Reconcile and snapshot with nothing active; the removals of what Docker lists all fail. */
  lemma FailingReconcile(life: Life) returns (next: Life)
    requires Real(life) && life.Now().pc == Resting && life.Now().docker.Keys <= {0}
    requires life.Now().t.Leased() && ActiveRows(life.Now().t) == []
    ensures Real(next) && next.Last() == life.Last()
    ensures next.Now() == life.Now().(stuck := life.Now().stuck + life.Now().docker.Keys,
                                     pc := Stopping(Some(life.Now().docker), [], []))
  {
    var w := life.Now();
    hide Real, ActiveRows;
    next := ListsAndReads(life, []);
    next := Sweeps(next, {});
    assert w.docker.Keys - {} == w.docker.Keys;
    if 0 in w.docker {
      assert w.docker.Keys == {0};
      next := RemovalFails(next);
    } else {
      assert w.docker.Keys == {} && w.stuck + {} == w.stuck;
    }
    assert PendingStops([], w.stopIssued) == [];
    next := Snapshots(next, []);
  }

  /** A tick that lends nothing because the clock started less than a wait ago. */
  lemma TooEarly(life: Life, id: JobId, h: History, now: Time, snap: GpuSnapshot) returns (next: Life)
    requires Real(life) && life.Last().clock <= now && h == Grown(life.Last().history, Looked(snap, now))
    requires life.Now().pc == Stopping(Some(life.Now().docker), [], [])
    requires OneWaits(life.Now().t, id) && Calm(h) && Chronological(h) && |h.updates| > 0
    requires h.updates[|h.updates| - 1] == Looked(snap, now) && now - h.born < 120.0
    requires snap == FREE || (snap == HELD && ListedOnGpu(life.Now().docker))
    ensures Real(next) && next.Last() == Page(Some(h), now) && next.Now() == life.Now().(pc := Resting)
  {
    IsTooEarly(life.Now(), id, h, now, snap);
    hide Real, Decides, OneWaits, Calm, Chronological, ListedOnGpu, Looked, Grown;
    next := DecidesNothing(life, snap, now, VerdictOn(snap, now - h.born, false, false, false));
    next := Rests(next);
  }

  lemma IsTooEarly(w: World, id: JobId, h: History, now: Time, snap: GpuSnapshot)
    requires w.pc == Stopping(Some(w.docker), [], []) && OneWaits(w.t, id)
    requires Calm(h) && Chronological(h) && |h.updates| > 0
    requires h.updates[|h.updates| - 1] == Looked(snap, now) && now - h.born < 120.0
    requires snap == FREE || (snap == HELD && ListedOnGpu(w.docker))
    ensures Decides(w, At(now, snap), h, VerdictOn(snap, now - h.born, false, false, false), Decide([], []))
  {
    var v, input := VerdictOn(snap, now - h.born, false, false, false), At(now, snap);
    JudgedSo(w, h, now, snap);
    QueueOfOne(w.t, id, input);
    NothingToLend(v, [], [AsQueued(id, w.t.jobs[id], GIB)], w.t, input);
    hide Judged, Calm, LaunchesFirstFit, OneWaits, IsQueueOf;
  }

  /** A tick that lends the GPU to the one job that waits, up to the start of its container. */
  lemma LendsNow(life: Life, id: JobId, h: History, now: Time, snap: GpuSnapshot) returns (next: Life)
    requires Real(life) && life.Last().clock <= now && h == Grown(life.Last().history, Looked(snap, now))
    requires life.Now().pc == Stopping(Some(life.Now().docker), [], [])
    requires OneWaits(life.Now().t, id) && Calm(h) && Chronological(h) && |h.updates| > 0
    requires h.updates[|h.updates| - 1] == Looked(snap, now) && now - h.born >= 120.0
    requires snap == FREE || (snap == HELD && ListedOnGpu(life.Now().docker))
    requires !InUse(Name(id, life.Now().t.jobs[id].attempts + 1), life.Now().docker)
    ensures var w := life.Now();
            var l := Launch(id, 0, 22 * GIB - snap.usedMemory, GIB);
            && Real(next) && next.Last() == Page(Some(h), now)
            && next.Now() == Create(w, l, w.t.jobs[id].attempts + 1).(pc := Started(l, w.nextContainer, []))
  {
    var l := Launch(id, 0, 22 * GIB - snap.usedMemory, GIB);
    IsLendable(life.Now(), id, h, now, snap);
    hide Real, Decides, Calm, Chronological, InUse, ListedOnGpu, Looked, Grown, ActiveRows;
    next := StartsJob(life, l, snap, now, VerdictOn(snap, now - h.born, false, false, false));
  }

  lemma IsLendable(w: World, id: JobId, h: History, now: Time, snap: GpuSnapshot)
    requires w.pc == Stopping(Some(w.docker), [], []) && OneWaits(w.t, id)
    requires Calm(h) && Chronological(h) && |h.updates| > 0
    requires h.updates[|h.updates| - 1] == Looked(snap, now) && now - h.born >= 120.0
    requires snap == FREE || (snap == HELD && ListedOnGpu(w.docker))
    ensures Decides(w, At(now, snap), h, VerdictOn(snap, now - h.born, false, false, false),
                    Decide([], [Launch(id, 0, 22 * GIB - snap.usedMemory, GIB)]))
  {
    var v, input := VerdictOn(snap, now - h.born, false, false, false), At(now, snap);
    assert !w.t.pausedNode && id in w.t.jobs && w.t.jobs[id].spec == SPEC;
    assert IsLent([], 0) == false;
    LendsTheOne(w.t, id, v, input);
    hide Judged, Calm, Chronological, LaunchesFirstFit, OneWaits, IsQueueOf, ListedOnGpu, Looked, ActiveRows;
    JudgedSo(w, h, now, snap);
  }

  lemma LendsTheOne(t: Tables, id: JobId, v: GpuVerdict, input: TickInput)
    requires OneWaits(t, id) && input.dockerUp && input.hookPresent
    requires v.lendable && v.lendableMemory >= GIB && RamBudget(input, CFG) >= GIB
    ensures LaunchesFirstFit([Launch(id, 0, v.lendableMemory, GIB)], map[0 := v], [], t, input, CFG, ANY)
  {
    QueueOfOne(t, id, input);
    var job := AsQueued(id, t.jobs[id], GIB);
    assert job.gpuMem == 0 && job.ram == GIB && job.gpuModels == [];
    hide LaunchesFirstFit, OneWaits, IsQueueOf;
    LendToOnly(v, job, t, input);
  }

  // ---- a failed removal ----

  const LIMIT: int := 22 * GIB

  /** The tracker after these looks. */
  function Tracker(looks: seq<Sighting>): History
    requires looks != []
  {
    History(looks[0].obs, looks[0].now, looks)
  }

  lemma OneMoreLook(looks: seq<Sighting>, look: Sighting)
    requires looks != []
    ensures Grown(Some(Tracker(looks)), look) == Tracker(looks + [look])
    ensures Grown(None, look) == Tracker([look])
  {}

  /** Looks with nothing but a spot on the GPU, in order. */
  ghost predicate Quiet(looks: seq<Sighting>) {
    && (forall i | 0 <= i < |looks| :: looks[i] == Looked(FREE, looks[i].now) || looks[i] == Looked(HELD, looks[i].now))
    && forall i, k | 0 <= i < k < |looks| :: looks[i].now <= looks[k].now
  }

  lemma QuietTracker(looks: seq<Sighting>)
    requires looks != [] && Quiet(looks)
    ensures Calm(Tracker(looks)) && Chronological(Tracker(looks))
  {}

  /** A new tracker looks twice, at least two minutes apart; the second look lends the GPU. */
  lemma WaitAndLend(life: Life, id: JobId, snap: GpuSnapshot, t0: Time, t1: Time) returns (next: Life)
    requires Real(life) && life.Now().pc == Resting && life.Now().docker.Keys <= {0} && OneWaits(life.Now().t, id)
    requires life.Last().history == None && life.Last().clock <= t0 && t0 + 120.0 <= t1
    requires snap == FREE || (snap == HELD && ListedOnGpu(life.Now().docker))
    requires !InUse(Name(id, life.Now().t.jobs[id].attempts + 1), life.Now().docker)
    ensures Real(next) && next.Last() == Page(Some(Tracker([Looked(snap, t0), Looked(snap, t1)])), t1)
    ensures var w := life.Now();
            var u := w.(stuck := w.stuck + w.docker.Keys + w.docker.Keys);
            var l := Launch(id, 0, 22 * GIB - snap.usedMemory, GIB);
            next.Now() == Create(u, l, w.t.jobs[id].attempts + 1).(pc := Started(l, w.nextContainer, []))
  {
    var w := life.Now();
    var look0, look1 := Looked(snap, t0), Looked(snap, t1);
    QuietTracker([look0]);
    QuietTracker([look0, look1]);
    OneMoreLook([look0], look0);
    OneMoreLook([look0], look1);
    assert [look0] + [look1] == [look0, look1];
    WaitsShows(w.t, id);
    hide Real, OneWaits, ActiveRows, Calm, Chronological, Grown, Quiet, InUse, ListedOnGpu, Seen;
    next := LooksTooEarly(life, id, Tracker([look0]), t0, snap);
    next := ThenLends(next, id, Tracker([look0, look1]), t1, snap);
    assert w.stuck + w.docker.Keys + w.docker.Keys == (w.stuck + w.docker.Keys) + w.docker.Keys;
  }

  /** One tick, too early to lend. */
  lemma LooksTooEarly(life: Life, id: JobId, h: History, now: Time, snap: GpuSnapshot) returns (next: Life)
    requires Real(life) && life.Now().pc == Resting && life.Now().docker.Keys <= {0} && OneWaits(life.Now().t, id)
    requires life.Last().clock <= now && h == Grown(life.Last().history, Looked(snap, now))
    requires Calm(h) && Chronological(h) && |h.updates| > 0
    requires h.updates[|h.updates| - 1] == Looked(snap, now) && now - h.born < 120.0
    requires snap == FREE || (snap == HELD && ListedOnGpu(life.Now().docker))
    ensures Real(next) && next.Last() == Page(Some(h), now)
    ensures next.Now() == life.Now().(stuck := life.Now().stuck + life.Now().docker.Keys, pc := Resting)
  {
    WaitsShows(life.Now().t, id);
    hide Real, OneWaits, ActiveRows, Calm, Chronological, Grown, ListedOnGpu, Looked;
    next := FailingReconcile(life);
    next := TooEarly(next, id, h, now, snap);
  }

  /** One tick that lends. */
  lemma ThenLends(life: Life, id: JobId, h: History, now: Time, snap: GpuSnapshot) returns (next: Life)
    requires Real(life) && life.Now().pc == Resting && life.Now().docker.Keys <= {0} && OneWaits(life.Now().t, id)
    requires life.Last().clock <= now && h == Grown(life.Last().history, Looked(snap, now))
    requires Calm(h) && Chronological(h) && |h.updates| > 0
    requires h.updates[|h.updates| - 1] == Looked(snap, now) && now - h.born >= 120.0
    requires snap == FREE || (snap == HELD && ListedOnGpu(life.Now().docker))
    requires id in life.Now().t.jobs
    requires !InUse(Name(id, life.Now().t.jobs[id].attempts + 1), life.Now().docker)
    ensures Real(next) && next.Last() == Page(Some(h), now)
    ensures var w := life.Now();
            var u := w.(stuck := w.stuck + w.docker.Keys);
            var l := Launch(id, 0, 22 * GIB - snap.usedMemory, GIB);
            next.Now() == Create(u, l, w.t.jobs[id].attempts + 1).(pc := Started(l, w.nextContainer, []))
  {
    WaitsShows(life.Now().t, id);
    hide Real, OneWaits, ActiveRows, Calm, Chronological, Grown, ListedOnGpu, Looked, InUse;
    next := FailingReconcile(life);
    next := LendsNow(next, id, h, now, snap);
  }

  lemma WaitsShows(t: Tables, id: JobId)
    requires OneWaits(t, id)
    ensures t.Leased() && ActiveRows(t) == [] && id in t.jobs
  {}

  /** Job 1 is submitted; two minutes after the controller started its container is started on the GPU. */
  lemma FirstLaunch() returns (life: Life)
    ensures var t := Submitted(EMPTY, SPEC, 0.0);
            Real(life) && life.Now() ==
              World(t, map[0 := Container(Name(1, 1), 0, true, 0)], 1, {}, {}, [], 0,
                    Started(Launch(1, 0, LIMIT, GIB), 0, []))
    ensures life.Last() == Page(Some(Tracker([Looked(FREE, 0.0), Looked(FREE, 120.0)])), 120.0)
  {
    NothingYetRuns(MAX);
    var t := Submitted(EMPTY, SPEC, 0.0);
    assert ActiveBelow(t, 0) == [] && ActiveBelow(t, 1) == [];
    assert ActiveBelow(t, 2) == [];
    assert OneWaits(t, 1);
    life := TakeAt(BIRTH, Submit(SPEC, 0.0), START.(t := t), 0.0);
    hide Real, OneWaits, ActiveRows, Looked, Tracker;
    assert START.stuck + START.docker.Keys + START.docker.Keys == {};
    life := WaitAndLend(life, 1, FREE, 0.0, 120.0);
  }

  /** The controller crashes, the job is cancelled and another one submitted. */
  lemma CrashAndResubmit() returns (life: Life)
    ensures Real(life) && life.Last() == Page(None, 140.0)
    ensures var w := life.Now();
            && w.pc == Resting && w.docker == map[0 := Container(Name(1, 1), 0, true, 0)] && w.nextContainer == 1
            && w.stuck == {} && OneWaits(w.t, 2) && w.t.jobs[2].attempts == 0
  {
    life := FirstLaunch();
    var w0 := life.Now();
    var t1 := MarkedCancelled(w0.t, 1, 130.0);
    var t2 := Submitted(t1, SPEC, 140.0);
    assert OneWaits(t2, 2) by {
      assert ActiveBelow(t2, 0) == [] && ActiveBelow(t2, 1) == [];
      assert ActiveBelow(t2, 2) == [];
      assert ActiveBelow(t2, 3) == [];
    }
    hide Real, OneWaits, ActiveRows;
    life := TakeAt(life, Crash, w0.(pc := Resting), 125.0);
    life := TakeAt(life, Cancel(1, 130.0), w0.(t := t1, pc := Resting), 130.0);
    life := TakeAt(life, Submit(SPEC, 140.0), w0.(t := t2, pc := Resting), 140.0);
  }

  /** Why the exclusivity of containers needs successful removals. The controller crashes before it records
      the container of job 1; the job is cancelled and job 2 submitted; the removals of the stray container
      fail, which the code only logs. To the new controller the GPU looks idle, for the stray counts as a spot:
      it is judged lendable, job 2 is the first fit, and two spot containers run on one GPU. */
  lemma FailedRemovalLendsTwice() returns (life: Life)
    ensures Real(life)
    ensures var w := life.Now(); exists c, d ::
      && c != d && c in w.docker && d in w.docker && c in w.stuck
      && w.docker[c].running && w.docker[d].running && w.docker[c].gpu == w.docker[d].gpu
      && w.docker[c].name != w.docker[d].name
  {
    life := CrashAndResubmit();
    var w := life.Now();
    assert w.docker.Keys == {0} && {} + {0} + {0} == {0};
    assert !InUse(Name(2, 1), w.docker) && ListedOnGpu(w.docker);
    hide Real, ActiveRows, InUse, OneWaits, Looked, Tracker;
    life := WaitAndLend(life, 2, HELD, 200.0, 320.0);
    assert 0 in life.Now().docker && 1 in life.Now().docker;
  }

  // ---- a failed stop ----

  /** Only job 1 is active, in container 0, the only one there is and running; no job waits. */
  ghost predicate OneRuns(t: Tables, docker: Listing, reclaiming: bool) {
    && t.Leased() && ActiveRows(t) == [RowOne(reclaiming)] && t.pausedNode
    && 1 in Holding(t) && Holding(t)[1] == Lease(0, 0)
    && (forall j | j in t.jobs :: t.jobs[j].state != JobState.Queued)
    && docker.Keys == {0} && ListedOnGpu(docker)
  }

  function RowOne(reclaiming: bool): RunningSpot { RunningSpot(1, 0, 0, reclaiming) }

  lemma RowsOfOne(t: Tables, reclaiming: bool)
    requires t.jobs.Keys == {1} && t.nextId == 2 && t.jobs[1].gpu == Some(0) && t.jobs[1].container == Some(0)
    requires t.jobs[1].state == if reclaiming then Preempting else Running
    ensures t.Leased() && ActiveRows(t) == [RowOne(reclaiming)]
    ensures 1 in Holding(t) && Holding(t)[1] == Lease(0, 0)
  {
    assert ActiveBelow(t, 0) == [] && ActiveBelow(t, 1) == [];
    assert ActiveBelow(t, 2) == [RowOne(reclaiming)];
  }

  /** Reconcile and snapshot with one running job and no stop due. */
  lemma KeepingReconcile(life: Life, reclaiming: bool) returns (next: Life)
    requires Real(life) && life.Now().pc == Resting && OneRuns(life.Now().t, life.Now().docker, reclaiming)
    requires reclaiming ==> 0 in life.Now().stopIssued
    ensures Real(next) && next.Last() == life.Last()
    ensures next.Now() == life.Now().(pc := Stopping(Some(life.Now().docker), [RowOne(reclaiming)], []))
  {
    var w, row := life.Now(), RowOne(reclaiming);
    assert [row][1..] == [] && PendingStops([], w.stopIssued) == [];
    assert PendingStops([row], w.stopIssued) == [] && w.docker.Keys - {0} == {};
    hide Real, ActiveRows, PendingStops, Holding;
    next := ListsAndReads(life, [row]);
    next := Keeps(next, row);
    next := Sweeps(next, {0});
    next := Snapshots(next, [row]);
  }

  lemma LentToOne(reclaiming: bool)
    ensures IsLent([RowOne(reclaiming)], 0) && IsReclaiming([RowOne(reclaiming)], 0) == reclaiming
    ensures !Open(0, map[0 := VerdictOn(HELD, 0.0, true, reclaiming, true)], Occupied([RowOne(reclaiming)]))
    ensures Occupied([RowOne(reclaiming)]) == {0}
  {
    assert RowOne(reclaiming) in [RowOne(reclaiming)];
    assert OnGpu([RowOne(reclaiming)], 0) == {RowOne(reclaiming)};
  }

  lemma ReclaimsOne(reclaiming: bool, v: GpuVerdict)
    requires v.mustReclaim == !reclaiming
    ensures Reclaims([RowOne(reclaiming)], map[0 := v]) == if reclaiming then [] else [Reclaim(1, 0, 0, v.reasons)]
  {
    assert [RowOne(reclaiming)][..0] == [];
    assert Reclaims([], map[0 := v]) == [];
  }

  /** What a tick decides about the running job while the node is paused. */
  lemma DecidesOnOne(w: World, reclaiming: bool, h: History, now: Time)
    requires w.pc == Stopping(Some(w.docker), [RowOne(reclaiming)], []) && OneRuns(w.t, w.docker, reclaiming)
    requires Calm(h) && Chronological(h) && |h.updates| > 0
    requires h.updates[|h.updates| - 1] == Looked(HELD, now)
    ensures var v := VerdictOn(HELD, now - h.born, true, reclaiming, true);
            Decides(w, At(now, HELD), h, v,
                    Decide(if reclaiming then [] else [Reclaim(1, 0, 0, [BlockedByAdmin])], []))
  {
    var row, input := RowOne(reclaiming), At(now, HELD);
    var v := VerdictOn(HELD, now - h.born, true, reclaiming, true);
    LentToOne(reclaiming);
    JudgedSo(w, h, now, HELD);
    ReclaimsOne(reclaiming, v);
    assert IsQueueOf([], w.t, input, CFG);
    NothingToLend(v, [row], [], w.t, input);
    hide Judged, Calm, ActiveRows, LaunchesFirstFit, Reclaims, Holding, Chronological, IsQueueOf;
  }

  lemma RecordsStart(life: Life, now: Time) returns (next: Life)
    requires Real(life) && life.Now().pc == Started(Launch(1, 0, LIMIT, GIB), 0, []) && life.Last().clock <= now
    requires 1 in life.Now().t.jobs && life.Now().t.jobs[1].state == JobState.Queued
    ensures Real(next) && next.Last() == Page(life.Last().history, now)
    ensures next.Now() == life.Now().(t := MarkedRunning(life.Now().t, 1, 0, 0, now), pc := Acting(None, [], []))
  {
    var w := life.Now();
    hide Real, MarkedRunning;
    var marked := w.(t := MarkedRunning(w.t, 1, 0, 0, now), pc := Acting(None, [], []));
    next := TakeAt(life, RecordRunning(now), marked, now);
  }

  lemma PausesNode(life: Life) returns (next: Life)
    requires Real(life)
    ensures Real(next) && next.Last() == life.Last()
    ensures next.Now() == life.Now().(t := life.Now().t.(pausedNode := true))
  {
    var w := life.Now();
    hide Real;
    next := Take(life, Pause(true, None), w.(t := w.t.(pausedNode := true)));
  }

  const THERE: Listing := map[0 := Container(Name(1, 1), 0, true, 0)]

  lemma PausedRuns(t0: Tables) returns (t: Tables)
    requires t0 == Submitted(EMPTY, SPEC, 0.0)
    ensures t == MarkedRunning(t0, 1, 0, 0, 121.0).(pausedNode := true)
    ensures OneRuns(t, THERE, false) && OneRuns(MarkedPreempting(t, 1), THERE, true)
  {
    t := MarkedRunning(t0, 1, 0, 0, 121.0).(pausedNode := true);
    RowsOfOne(t, false);
    RowsOfOne(MarkedPreempting(t, 1), true);
    hide ActiveRows, Holding;
    assert THERE.Keys == {0};
  }

  /** The job is recorded as running, the tick ends, and the node is paused. */
  lemma RunningThenPaused() returns (life: Life, t: Tables)
    ensures life.Last() == Page(Some(Tracker([Looked(FREE, 0.0), Looked(FREE, 120.0)])), 121.0)
    ensures Real(life) && life.Now() == World(t, THERE, 1, {}, {}, [], 0, Resting)
    ensures OneRuns(t, THERE, false) && OneRuns(MarkedPreempting(t, 1), THERE, true)
  {
    life := FirstLaunch();
    var t0 := Submitted(EMPTY, SPEC, 0.0);
    t := PausedRuns(t0);
    assert 1 in t0.jobs && t0.jobs[1].state == JobState.Queued;
    hide Real, MarkedRunning, Submitted, OneRuns, MarkedPreempting;
    life := RecordsStart(life, 121.0);
    life := Rests(life);
    life := PausesNode(life);
  }

  lemma MarksReclaim(life: Life) returns (next: Life)
    requires Real(life) && life.Now().pc == Acting(None, [Reclaim(1, 0, 0, [BlockedByAdmin])], [])
    ensures Real(next) && next.Last() == life.Last()
    ensures next.Now() == life.Now().(t := MarkedPreempting(life.Now().t, 1), pc := Acting(Some(0), [], []))
  {
    var w := life.Now();
    hide Real, MarkedPreempting;
    assert [Reclaim(1, 0, 0, [BlockedByAdmin])][1..] == [];
    next := Take(life, MarkReclaim, w.(t := MarkedPreempting(w.t, 1), pc := Acting(Some(0), [], [])));
  }

  lemma StopFails(life: Life) returns (next: Life)
    requires Real(life) && life.Now().pc == Acting(Some(0), [], [])
    ensures Real(next) && next.Last() == life.Last() && next.Now() == IssueStop(life.Now(), 0, false).(pc := Broken)
  {
    var w := life.Now();
    hide Real, IssueStop;
    next := StopsReclaimed(life);
    next := Take(next, Break, IssueStop(w, 0, false).(pc := Broken));
  }

  lemma StopsReclaimed(life: Life) returns (next: Life)
    requires Real(life) && life.Now().pc == Acting(Some(0), [], [])
    ensures Real(next) && next.Last() == life.Last()
    ensures next.Now() == IssueStop(life.Now(), 0, false).(pc := Acting(None, [], []))
  {
    var w := life.Now();
    hide Real;
    next := Take(life, StopReclaimed(false), IssueStop(w, 0, false).(pc := Acting(None, [], [])));
  }

  lemma GoodReclaim()
    ensures GoodPlan(true, [RowOne(false)], [Reclaim(1, 0, 0, [BlockedByAdmin])], [])
  {}

  lemma DecidesReclaim(life: Life, h: History, now: Time) returns (next: Life)
    requires Real(life) && life.Last().clock <= now && h == Grown(life.Last().history, Looked(HELD, now))
    requires life.Now().pc == Stopping(Some(life.Now().docker), [RowOne(false)], [])
    requires OneRuns(life.Now().t, life.Now().docker, false)
    requires Calm(h) && Chronological(h) && |h.updates| > 0
    requires h.updates[|h.updates| - 1] == Looked(HELD, now)
    ensures Real(next) && next.Last() == Page(Some(h), now)
    ensures next.Now() == life.Now().(pc := Acting(None, [Reclaim(1, 0, 0, [BlockedByAdmin])], []))
  {
    var w := life.Now();
    DecidesOnOne(w, false, h, now);
    GoodReclaim();
    hide Real, Calm, Chronological, Decides, Looked, Grown, OneRuns, GoodPlan, VerdictOn, At;
    next := DecidesReclaims(life, [Reclaim(1, 0, 0, [BlockedByAdmin])], HELD, now,
                            VerdictOn(HELD, now - h.born, true, false, true));
  }

  /** A tick decides to reclaim the job, and its stop fails to start. */
  lemma FirstFailure(h: History) returns (life: Life, t: Tables)
    requires Calm(h) && Chronological(h) && |h.updates| > 0 && h.updates[|h.updates| - 1] == Looked(HELD, 150.0)
    requires h == Grown(Some(Tracker([Looked(FREE, 0.0), Looked(FREE, 120.0)])), Looked(HELD, 150.0))
    ensures life.Last() == Page(Some(h), 150.0)
    ensures Real(life) && life.Now() == World(t, THERE, 1, {}, {0}, [StopCall(0, false)], 0, Broken)
    ensures OneRuns(t, THERE, true)
  {
    var t0;
    life, t0 := RunningThenPaused();
    hide Real, Calm, Chronological, OneRuns, MarkedPreempting, Seen, Grown, Looked;
    t := MarkedPreempting(t0, 1);
    life := KeepingReconcile(life, false);
    life := DecidesReclaim(life, h, 150.0);
    life := MarksReclaim(life);
    life := StopFails(life);
    assert {} + {0} == {0} && [] + [StopCall(0, false)] == [StopCall(0, false)];
  }

  lemma BeginsToDrain(life: Life, rows: seq<RunningSpot>) returns (next: Life)
    requires Real(life) && life.Now().pc == Broken && life.Now().t.Leased() && ActiveRows(life.Now().t) == rows
    ensures Real(next) && next.Last() == life.Last() && next.Now() == life.Now().(pc := Draining(rows))
  {
    var w := life.Now();
    hide Real, ActiveRows, Tables.Leased;
    next := Take(life, BeginDrain, w.(pc := Draining(rows)));
  }

  lemma DrainFails(life: Life) returns (next: Life)
    requires Real(life) && life.Now().pc == Draining([RowOne(true)])
    ensures Real(next) && next.Last() == life.Last() && next.Now() == IssueStop(life.Now(), 0, false).(pc := Resting)
  {
    var w := life.Now();
    hide Real, IssueStop;
    next := StopsDraining(life);
    next := Take(next, EndDrain, IssueStop(w, 0, false).(pc := Resting));
  }

  lemma StopsDraining(life: Life) returns (next: Life)
    requires Real(life) && life.Now().pc == Draining([RowOne(true)])
    ensures Real(next) && next.Last() == life.Last()
    ensures next.Now() == IssueStop(life.Now(), 0, false).(pc := Draining([]))
  {
    var w := life.Now();
    hide Real;
    assert [RowOne(true)][1..] == [];
    next := Take(life, DrainStop(false), IssueStop(w, 0, false).(pc := Draining([])));
  }

  /** Giving everything back asks for the stop once more, which fails again. */
  lemma SecondFailure(h: History) returns (life: Life, t: Tables)
    requires Calm(h) && Chronological(h) && |h.updates| > 0 && h.updates[|h.updates| - 1] == Looked(HELD, 150.0)
    requires h == Grown(Some(Tracker([Looked(FREE, 0.0), Looked(FREE, 120.0)])), Looked(HELD, 150.0))
    ensures life.Last() == Page(Some(h), 150.0)
    ensures Real(life) && OneRuns(t, THERE, true)
    ensures life.Now() == World(t, THERE, 1, {}, {0}, [StopCall(0, false)] + [StopCall(0, false)], 0, Resting)
  {
    life, t := FirstFailure(h);
    OneRunsShows(t, THERE);
    hide Real, OneRuns, ActiveRows, Holding, Grown, Looked;
    life := BeginsToDrain(life, [RowOne(true)]);
    life := DrainFails(life);
    assert {0} + {0} == {0};
  }

  /** The stop of a running job fails to start in a tick, and again when everything is given back. The stop is
      on record all the same, so the next tick asks for none and completes: the node is paused, the job's
      container runs on, and no stop of it was ever started. */
  lemma FailedStopIsNeverRetried() returns (life: Life)
    ensures Real(life) && life.log.actions != [] && life.log.actions[|life.log.actions| - 1] == EndTick
    ensures var w := life.Now();
            && w.t.pausedNode && 1 in Holding(w.t) && Holding(w.t)[1] == Lease(0, 0)
            && 0 in w.docker && w.docker[0].running && 0 in w.stopIssued
            && StopFailed(0, w.stops, w.lifeStart) && !StopStarted(0, w.stops, w.lifeStart)
  {
    var h0, h1 := CalmLooks();
    var t;
    hide Real, Calm, Chronological, OneRuns, Seen, Holding, Looked, Grown, StopFailed, StopStarted, ListedOnGpu;
    life, t := SecondFailure(h0);
    StopWasLost(World(t, THERE, 1, {}, {0}, [StopCall(0, false)] + [StopCall(0, false)], 0, Resting), t);
    life := LastTick(life, h1);
  }

  lemma StopWasLost(w: World, t: Tables)
    requires w == World(t, THERE, 1, {}, {0}, [StopCall(0, false)] + [StopCall(0, false)], 0, Resting)
    requires OneRuns(t, THERE, true)
    ensures w.t.pausedNode && 1 in Holding(w.t) && Holding(w.t)[1] == Lease(0, 0)
    ensures 0 in w.docker && w.docker[0].running && 0 in w.stopIssued
    ensures StopFailed(0, w.stops, w.lifeStart) && !StopStarted(0, w.stops, w.lifeStart)
  {
    OneRunsShows(t, THERE);
    hide OneRuns, ActiveRows, Holding;
    assert w.stops[0] == StopCall(0, false);
  }

  lemma CalmLooks() returns (h0: History, h1: History)
    ensures Calm(h0) && Chronological(h0) && |h0.updates| > 0 && h0.updates[|h0.updates| - 1] == Looked(HELD, 150.0)
    ensures Calm(h1) && Chronological(h1) && |h1.updates| > 0 && h1.updates[|h1.updates| - 1] == Looked(HELD, 180.0)
    ensures h0 == Grown(Some(Tracker([Looked(FREE, 0.0), Looked(FREE, 120.0)])), Looked(HELD, 150.0))
    ensures h1 == Grown(Some(h0), Looked(HELD, 180.0))
  {
    var looks := [Looked(FREE, 0.0), Looked(FREE, 120.0)];
    var more := looks + [Looked(HELD, 150.0)];
    h0, h1 := Tracker(more), Tracker(more + [Looked(HELD, 180.0)]);
    OneMoreLook(looks, Looked(HELD, 150.0));
    OneMoreLook(more, Looked(HELD, 180.0));
    QuietTracker(more);
    QuietTracker(more + [Looked(HELD, 180.0)]);
  }

  lemma OneRunsShows(t: Tables, docker: Listing)
    requires OneRuns(t, docker, true)
    ensures t.Leased() && ActiveRows(t) == [RowOne(true)]
    ensures t.pausedNode && 1 in Holding(t) && Holding(t)[1] == Lease(0, 0) && ListedOnGpu(docker)
  {}

  lemma LastTick(life: Life, h: History) returns (next: Life)
    requires Real(life) && life.Now().pc == Resting && 0 in life.Now().stopIssued
    requires OneRuns(life.Now().t, life.Now().docker, true)
    requires Calm(h) && Chronological(h) && |h.updates| > 0
    requires h.updates[|h.updates| - 1] == Looked(HELD, 180.0)
    requires life.Last().clock <= 180.0 && h == Grown(life.Last().history, Looked(HELD, 180.0))
    ensures Real(next) && next.Now() == life.Now()
    ensures next.log.actions != [] && next.log.actions[|next.log.actions| - 1] == EndTick
  {
    var w := life.Now();
    hide Real, Calm, Chronological, Decides, OneRuns, Looked, Grown, At, VerdictOn, RowOne;
    next := KeepingReconcile(life, true);
    next := CompletesWithNothing(next, h, 180.0);
  }

  lemma CompletesWithNothing(life: Life, h: History, now: Time) returns (next: Life)
    requires Real(life) && life.Last().clock <= now && h == Grown(life.Last().history, Looked(HELD, now))
    requires life.Now().pc == Stopping(Some(life.Now().docker), [RowOne(true)], [])
    requires OneRuns(life.Now().t, life.Now().docker, true)
    requires Calm(h) && Chronological(h) && |h.updates| > 0 && h.updates[|h.updates| - 1] == Looked(HELD, now)
    ensures Real(next) && next.Last() == Page(Some(h), now) && next.Now() == life.Now().(pc := Resting)
    ensures next.log.actions != [] && next.log.actions[|next.log.actions| - 1] == EndTick
  {
    DecidesOnOne(life.Now(), true, h, now);
    hide Real, Calm, Chronological, Decides, OneRuns, Looked, Grown, At, VerdictOn, RowOne;
    next := DecidesNothing(life, HELD, now, VerdictOn(HELD, now - h.born, true, true, true));
    next := Rests(next);
  }
}
