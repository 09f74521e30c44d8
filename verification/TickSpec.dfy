/** What one tick of the controller must do, said about its inputs, the tables and the trackers' histories. */
module TickSpec {
  import opened Model
  import opened Detector
  import opened DetectorProofs
  import opened Planner
  import opened PlannerProofs
  import opened Observer
  import opened Jobs
  import opened Leases
  import opened Protocol
  import opened ProtocolInvariant
  import opened ProtocolFrames

  datatype Config = Config(
    idle: IdleConfig, reclaim: ReclaimConfig,
    allowUnenforced: bool, defaultRam: nat, hostRamReserve: nat, maxAttempts: int)

  /** Everything one tick reads from outside the store and the container runtime. */
  datatype TickInput = TickInput(
    now: Time,
    killSwitch: bool,
    dockerUp: bool,
    owners: seq<OwnerContainer>,
    gpus: Option<seq<GpuInfo>>,          // None: NVML unavailable
    readings: map<nat, Reading>,
    ownerCpu: map<ContainerId, real>,
    ramAvailable: Option<int>,           // None: /proc/meminfo unreadable
    hookPresent: bool)

  // ---- detecting ----

  function OnGpu(active: seq<RunningSpot>, u: GpuId): set<RunningSpot> { set a | a in active && a.gpu == u }

  predicate IsLent(active: seq<RunningSpot>, u: GpuId) { OnGpu(active, u) != {} }

  predicate IsReclaiming(active: seq<RunningSpot>, u: GpuId) {
    IsLent(active, u) && forall a | a in OnGpu(active, u) :: a.reclaiming
  }

  /** The verdict on `u` follows from the whole history of its tracker, ending with this tick's look. */
  ghost predicate FollowsFrom(v: GpuVerdict, h: History, u: GpuId, now: Time, cfg: Config,
                              active: seq<RunningSpot>, blocked: bool)
  {
    && Chronological(h) && |h.updates| > 0
    && var n := |h.updates| - 1; var last := h.updates[n];
       && last.now == now && last.obs.uuid == u && last.idle == cfg.idle
       && Judges(v, last.obs, Active(h, n), LastDisturbed(h, n + 1), now, cfg.idle, cfg.reclaim,
                 IsLent(active, u), IsReclaiming(active, u), blocked)
  }

  /** Where each running spot container was assigned. */
  function SpotGpus(spots: Listing): map<ContainerId, GpuId> {
    map c | c in spots && spots[c].running :: spots[c].gpu
  }

  /** The observation a tracker was shown last. */
  ghost function LastLook(h: History): GpuObservation {
    if h.updates == [] then h.first else h.updates[|h.updates| - 1].obs
  }

  lemma HistoryGrows(h: History, u: Sighting)
    requires Chronological(h) && h.born <= u.now
    requires forall i | 0 <= i < |h.updates| :: h.updates[i].now <= u.now
    ensures Chronological(h.Push(u)) && LastLook(h.Push(u)) == u.obs
    ensures forall i | 0 <= i < |h.Push(u).updates| :: h.Push(u).updates[i].now <= u.now
  {}

  /** Trackers keep what they were shown before; whatever is new was shown at `now`. */
  ghost predicate NothingForgotten(before: map<GpuId, History>, after: map<GpuId, History>, now: Time) {
    forall u | u in before :: u in after && Extends(before[u], after[u], now)
  }

  ghost predicate Extends(h: History, k: History, now: Time) {
    var n := |h.updates|;
    && k.first == h.first && k.born == h.born
    && n <= |k.updates| && k.updates[..n] == h.updates
    && forall i | n <= i < |k.updates| :: k.updates[i].now == now
  }

  lemma AllRemembered(histories: map<GpuId, History>, now: Time)
    ensures NothingForgotten(histories, histories, now)
  {}

  lemma OneLookRemembered(first: map<GpuId, History>, before: map<GpuId, History>, after: map<GpuId, History>,
                          u: Sighting)
    requires NothingForgotten(first, before, u.now)
    requires forall g | g in before :: g in after && (after[g] == before[g] || after[g] == before[g].Push(u))
    ensures NothingForgotten(first, after, u.now)
  {
    forall g | g in first ensures Extends(first[g], after[g], u.now) {
      assert before[g].Push(u).updates[..|before[g].updates|] == before[g].updates;
      assert before[g].Push(u).updates[..|first[g].updates|] == before[g].updates[..|first[g].updates|];
    }
  }

  /** How many looks were known. */
  ghost function Known(before: map<GpuId, History>, u: GpuId): nat {
    if u in before then |before[u].updates| else 0
  }

  /** Trackers were shown nothing but these observations, each by the tracker of its GPU; a new one starts with one. */
  ghost predicate OnlyLooks(before: map<GpuId, History>, after: map<GpuId, History>, seen: seq<GpuObservation>,
                            now: Time, idle: IdleConfig)
  {
    && (forall u | u in after && u !in before ::
          after[u].born == now && after[u].first in seen && after[u].first.uuid == u)
    && (forall u | u in after :: forall i | Known(before, u) <= i < |after[u].updates| ::
          after[u].updates[i].obs in seen && IsLook(after[u].updates[i], u, now, idle))
  }

  ghost predicate IsLook(s: Sighting, u: GpuId, now: Time, idle: IdleConfig) {
    s.obs.uuid == u && s.now == now && s.idle == idle
  }

  /** Nothing was forgotten, and nothing but these observations was shown. */
  ghost predicate WereShown(before: map<GpuId, History>, after: map<GpuId, History>, seen: seq<GpuObservation>,
                            now: Time, idle: IdleConfig)
  {
    before.Keys <= after.Keys && NothingForgotten(before, after, now) && OnlyLooks(before, after, seen, now, idle)
  }

  lemma NoneShown(histories: map<GpuId, History>, seen: seq<GpuObservation>, now: Time, idle: IdleConfig)
    ensures WereShown(histories, histories, seen, now, idle)
  {
    AllRemembered(histories, now);
  }

  /** The history of the look's GPU with that look, a new one if there is none. */
  ghost function Next(histories: map<GpuId, History>, u: Sighting): History {
    (if u.obs.uuid in histories then histories[u.obs.uuid] else History(u.obs, u.now, [])).Push(u)
  }

  lemma OneMoreShown(first: map<GpuId, History>, before: map<GpuId, History>, seen: seq<GpuObservation>, u: Sighting)
    requires WereShown(first, before, seen, u.now, u.idle) && u.obs in seen
    ensures WereShown(first, before[u.obs.uuid := Next(before, u)], seen, u.now, u.idle)
  {
    var after := before[u.obs.uuid := Next(before, u)];
    OneLookRemembered(first, before, after, u);
    OneMoreLook(first, before, after, seen, u);
  }

  lemma OneMoreLook(first: map<GpuId, History>, before: map<GpuId, History>, after: map<GpuId, History>,
                    seen: seq<GpuObservation>, u: Sighting)
    requires OnlyLooks(first, before, seen, u.now, u.idle) && u.obs in seen && first.Keys <= before.Keys
    requires after.Keys == before.Keys + {u.obs.uuid}
    requires forall g | g in before && g != u.obs.uuid :: after[g] == before[g]
    requires after[u.obs.uuid]
          == (if u.obs.uuid in before then before[u.obs.uuid] else History(u.obs, u.now, [])).Push(u)
    ensures OnlyLooks(first, after, seen, u.now, u.idle)
  {
    forall g | g in after
      ensures g !in first ==> after[g].born == u.now && after[g].first in seen && after[g].first.uuid == g
      ensures forall i | Known(first, g) <= i < |after[g].updates| ::
                after[g].updates[i].obs in seen && IsLook(after[g].updates[i], g, u.now, u.idle)
    {
      if g == u.obs.uuid {
        var k := if g in before then before[g] else History(u.obs, u.now, []);
        assert after[g].updates == k.updates + [u];
      }
    }
  }

  /** The observation is what this tick could read of a listed GPU; a failure without NVML or Docker. */
  ghost predicate Shows(obs: GpuObservation, input: TickInput, listed: Option<Listing>) {
    if input.gpus.Some? && input.dockerUp && listed.Some? then
      exists g | g in input.gpus.value ::
        g.uuid == obs.uuid
        && SeesGpu(obs, g, input.gpus.value, input.readings, input.owners, SpotGpus(listed.value), input.ownerCpu)
    else !obs.ok
  }

  /** Trackers were shown nothing but what this tick could read. */
  ghost predicate OnlyShown(before: map<GpuId, History>, after: map<GpuId, History>, input: TickInput,
                            listed: Option<Listing>, cfg: Config)
  {
    && (forall u | u in after && u !in before ::
          after[u].born == input.now && Shows(after[u].first, input, listed) && after[u].first.uuid == u)
    && (forall u | u in after :: forall i | Known(before, u) <= i < |after[u].updates| ::
          Shows(after[u].updates[i].obs, input, listed) && IsLook(after[u].updates[i], u, input.now, cfg.idle))
  }

  lemma AllShown(before: map<GpuId, History>, after: map<GpuId, History>, seen: seq<GpuObservation>,
                 input: TickInput, listed: Option<Listing>, cfg: Config)
    requires OnlyLooks(before, after, seen, input.now, cfg.idle)
    requires forall o | o in seen :: Shows(o, input, listed)
    ensures OnlyShown(before, after, input, listed, cfg)
  {
    hide Shows, IsLook;
  }

  /** A look that succeeded shows a listed GPU as it was read, with its processes told apart by the containers that
      Docker listed as running on this GPU, and by the owners that were given it. */
  lemma ShownInFull(obs: GpuObservation, input: TickInput, listed: Option<Listing>) returns (g: GpuInfo)
    requires Shows(obs, input, listed) && obs.ok
    ensures input.dockerUp && listed.Some? && input.gpus.Some? && g in input.gpus.value
    ensures g.index in input.readings && input.readings[g.index].Read?
    ensures var snap, containers := input.readings[g.index].snap, input.readings[g.index].containers;
            && obs.uuid == g.uuid == snap.info.uuid && obs.model == snap.info.name
            && obs.totalMemory == snap.info.totalMemory && obs.usedMemory == snap.usedMemory
            && |obs.processes| == |snap.processes|
            && (forall c :: c in obs.ownerContainers <==>
                  exists o | o in input.owners :: o.id == c && Refers(o.refs, input.gpus.value, g.uuid))
            && (forall i | 0 <= i < |snap.processes| ::
                  var p, q := snap.processes[i], obs.processes[i];
                  var cid := ContainerOf(p.pid, containers);
                  && q.pid == p.pid && q.usedMemory == p.usedMemory && q.smUtil == p.smUtil && q.container == cid
                  && (q.kind == Spot <==>
                        cid.Some? && cid.value in listed.value && listed.value[cid.value].running
                        && listed.value[cid.value].gpu == g.uuid)
                  && (q.kind == Owner <==>
                        cid.Some? && !(cid.value in listed.value && listed.value[cid.value].running)
                        && cid.value in obs.ownerContainers))
  {
    var spots := SpotGpus(listed.value);
    g :| g in input.gpus.value && g.uuid == obs.uuid
      && SeesGpu(obs, g, input.gpus.value, input.readings, input.owners, spots, input.ownerCpu);
    assert Readable(g, input.readings);
    var r := input.readings[g.index];
    hide Refers;
    forall i | 0 <= i < |r.snap.processes|
      ensures obs.processes[i] == Classified(r.snap.processes[i], g.uuid, r.containers, obs.ownerContainers, spots)
    {}
  }

  /** Every verdict of the tick follows from its tracker's history, which ends with this tick's look. */
  ghost predicate Judged(verdicts: map<GpuId, GpuVerdict>, histories: map<GpuId, History>, input: TickInput,
                         listed: Option<Listing>, cfg: Config, active: seq<RunningSpot>, pausedNode: bool,
                         pausedGpus: set<GpuId>)
  {
    forall u | u in verdicts ::
      && u in histories
      && FollowsFrom(verdicts[u], histories[u], u, input.now, cfg, active,
                     (input.killSwitch || pausedNode) || u in pausedGpus)
      && Shows(LastLook(histories[u]), input, listed)
  }

  lemma AllJudged(verdicts: map<GpuId, GpuVerdict>, histories: map<GpuId, History>, observations: seq<GpuObservation>,
                  input: TickInput, listed: Option<Listing>, cfg: Config, active: seq<RunningSpot>, pausedNode: bool,
                  pausedGpus: set<GpuId>)
    requires forall u | u in verdicts ::
      && u in histories
      && FollowsFrom(verdicts[u], histories[u], u, input.now, cfg, active,
                     (input.killSwitch || pausedNode) || u in pausedGpus)
      && LastLook(histories[u]) in observations
    requires forall o | o in observations :: Shows(o, input, listed)
    ensures Judged(verdicts, histories, input, listed, cfg, active, pausedNode, pausedGpus)
  {
    hide FollowsFrom, LastLook, Shows;
  }

  /** The RAM that may be promised to new jobs; none when it cannot be read. */
  function RamBudget(input: TickInput, cfg: Config): int {
    if input.ramAvailable.Some? then input.ramAvailable.value - cfg.hostRamReserve else 0
  }

  /** Exactly the queued jobs of the tables, or nothing while Docker does not answer. */
  ghost predicate IsQueueOf(queue: seq<QueuedJob>, t: Tables, input: TickInput, cfg: Config) {
    if input.dockerUp then
      forall q :: q in queue <==>
        q.jobId in t.jobs && t.jobs[q.jobId].state == JobState.Queued
              && q == AsQueued(q.jobId, t.jobs[q.jobId], cfg.defaultRam)
    else queue == []
  }

  /** The launches serve the queue of the tables first fit; none without the enforcement hook. */
  ghost predicate LaunchesFirstFit(launches: seq<Launch>, verdicts: map<GpuId, GpuVerdict>, active: seq<RunningSpot>,
                                   t: Tables, input: TickInput, cfg: Config, matches: Matcher)
  {
    exists queue ::
      && IsQueueOf(queue, t, input, cfg)
      && if input.hookPresent || cfg.allowUnenforced then
           FirstFit(launches, verdicts.Keys, verdicts, Occupied(active), queue, RamBudget(input, cfg), matches)
         else launches == []
  }

  lemma FirstFitIsOpen(launches: seq<Launch>, verdicts: map<GpuId, GpuVerdict>, active: seq<RunningSpot>,
                       t: Tables, input: TickInput, cfg: Config, matches: Matcher)
    requires LaunchesFirstFit(launches, verdicts, active, t, input, cfg, matches)
    ensures forall l | l in launches ::
      Open(l.gpu, verdicts, Occupied(active)) && l.gpuMemLimit == verdicts[l.gpu].lendableMemory
  {
    hide FirstFit;
    var queue :| IsQueueOf(queue, t, input, cfg)
      && if input.hookPresent || cfg.allowUnenforced then
           FirstFit(launches, verdicts.Keys, verdicts, Occupied(active), queue, RamBudget(input, cfg), matches)
         else launches == [];
    if launches != [] {
      PlanIsSound(launches, verdicts, Occupied(active), queue, RamBudget(input, cfg), matches);
    }
  }

  // ---- the same in terms of the tables and the configuration ----

  /** The RAM that may be promised to new jobs is what is available beyond the host's reserve. */
  ghost predicate WithinRam(launches: seq<Launch>, input: TickInput, cfg: Config) {
    && (input.ramAvailable.Some? ==> RamOf(launches) <= Max(input.ramAvailable.value - cfg.hostRamReserve, 0))
    && (input.ramAvailable.None? ==> RamOf(launches) == 0)
  }

  /** The job has room on the GPU: enough memory, 1 GiB if it named none; a wanted model; and RAM, the default if
      it named none, beyond the reserve and what `earlier` launches were promised. */
  predicate RoomFor(job: Job, v: GpuVerdict, earlier: seq<Launch>, input: TickInput, cfg: Config, matches: Matcher) {
    && (if job.spec.gpuMem != 0 then job.spec.gpuMem else 0x4000_0000) <= v.lendableMemory
    && (|job.spec.gpuModels| > 0 ==> matches(v.model, job.spec.gpuModels))
    && RamOf(earlier) + (if job.spec.ram != 0 then job.spec.ram else cfg.defaultRam)
       <= match input.ramAvailable case Some(n) => n - cfg.hostRamReserve case None => 0
  }

  /** A higher priority, or the same and submitted earlier, or at the same time with a smaller id. */
  predicate Outranks(i: JobId, a: Job, j: JobId, b: Job) {
    || a.spec.priority > b.spec.priority
    || (a.spec.priority == b.spec.priority && a.submittedAt < b.submittedAt)
    || (a.spec.priority == b.spec.priority && a.submittedAt == b.submittedAt && i < j)
  }

  ghost predicate Waits(j: JobId, t: Tables, launches: seq<Launch>) {
    j in t.jobs && t.jobs[j].state == JobState.Queued && forall l | l in launches :: l.jobId != j
  }

  /** Every launched job was queued and had room at its turn, and outranks every waiting job that had. */
  ghost predicate ServesInOrder(launches: seq<Launch>, verdicts: map<GpuId, GpuVerdict>, t: Tables, input: TickInput,
                                cfg: Config, matches: Matcher)
  {
    forall k | 0 <= k < |launches| ::
      && var l := launches[k];
      && l.gpu in verdicts && l.jobId in t.jobs && t.jobs[l.jobId].state == JobState.Queued
      && RoomFor(t.jobs[l.jobId], verdicts[l.gpu], launches[..k], input, cfg, matches)
      && forall j | Waits(j, t, launches) && RoomFor(t.jobs[j], verdicts[l.gpu], launches[..k], input, cfg, matches) ::
           Outranks(l.jobId, t.jobs[l.jobId], j, t.jobs[j])
  }

  /** No waiting job has room on a lendable GPU that is left empty. */
  ghost predicate NoneLeftOut(launches: seq<Launch>, verdicts: map<GpuId, GpuVerdict>, active: seq<RunningSpot>,
                              t: Tables, input: TickInput, cfg: Config, matches: Matcher)
  {
    forall u, j |
      && u in verdicts && verdicts[u].lendable && (forall a | a in active :: a.gpu != u)
      && (forall l | l in launches :: l.gpu != u) && Waits(j, t, launches) ::
      !RoomFor(t.jobs[j], verdicts[u], launches, input, cfg, matches)
  }

  /** First fit, as a user of the queue sees it. */
  lemma FirstFitServes(launches: seq<Launch>, verdicts: map<GpuId, GpuVerdict>, active: seq<RunningSpot>, t: Tables,
                       input: TickInput, cfg: Config, matches: Matcher)
    requires LaunchesFirstFit(launches, verdicts, active, t, input, cfg, matches)
    ensures WithinRam(launches, input, cfg)
    ensures !input.hookPresent && !cfg.allowUnenforced ==> launches == []
    ensures ServesInOrder(launches, verdicts, t, input, cfg, matches)
    ensures input.dockerUp && (input.hookPresent || cfg.allowUnenforced) ==>
      NoneLeftOut(launches, verdicts, active, t, input, cfg, matches)
  {
    hide FirstFit, IsQueueOf;
    if input.hookPresent || cfg.allowUnenforced {
      var queue :| IsQueueOf(queue, t, input, cfg)
                && FirstFit(launches, verdicts.Keys, verdicts, Occupied(active), queue, RamBudget(input, cfg), matches);
      PlanIsSound(launches, verdicts, Occupied(active), queue, RamBudget(input, cfg), matches);
      InOrderServed(launches, verdicts, active, queue, t, input, cfg, matches);
      if input.dockerUp {
        EveryoneServed(launches, verdicts, active, queue, t, input, cfg, matches);
      }
    }
  }

  lemma InOrderServed(launches: seq<Launch>, verdicts: map<GpuId, GpuVerdict>, active: seq<RunningSpot>,
                      queue: seq<QueuedJob>, t: Tables, input: TickInput, cfg: Config, matches: Matcher)
    requires IsQueueOf(queue, t, input, cfg)
    requires FirstFit(launches, verdicts.Keys, verdicts, Occupied(active), queue, RamBudget(input, cfg), matches)
    ensures ServesInOrder(launches, verdicts, t, input, cfg, matches)
  {
    hide RamOf;
    var budget := RamBudget(input, cfg);
    forall k | 0 <= k < |launches|
      ensures launches[k].gpu in verdicts && launches[k].jobId in t.jobs
      ensures t.jobs[launches[k].jobId].state == JobState.Queued
      ensures RoomFor(t.jobs[launches[k].jobId], verdicts[launches[k].gpu], launches[..k], input, cfg, matches)
      ensures forall j | Waits(j, t, launches)
                && RoomFor(t.jobs[j], verdicts[launches[k].gpu], launches[..k], input, cfg, matches) ::
                Outranks(launches[k].jobId, t.jobs[launches[k].jobId], j, t.jobs[j])
    {
      var job := LaunchesInFull(launches, k, verdicts, active, queue, budget, matches);
      var l := launches[k];
      assert job == AsQueued(l.jobId, t.jobs[l.jobId], cfg.defaultRam);
      forall j | Waits(j, t, launches) && RoomFor(t.jobs[j], verdicts[l.gpu], launches[..k], input, cfg, matches)
        ensures Outranks(l.jobId, t.jobs[l.jobId], j, t.jobs[j])
      {
        WaitsInQueue(j, t, launches, queue, input, cfg);
        NoPriorityInversion(launches, k, job, AsQueued(j, t.jobs[j], cfg.defaultRam), verdicts, queue, budget, matches);
      }
    }
  }

  lemma WaitsInQueue(j: JobId, t: Tables, launches: seq<Launch>, queue: seq<QueuedJob>, input: TickInput, cfg: Config)
    requires IsQueueOf(queue, t, input, cfg) && Waits(j, t, launches) && input.dockerUp
    ensures AsQueued(j, t.jobs[j], cfg.defaultRam) in queue && j !in JobsOf(launches)
  {}

  lemma EveryoneServed(launches: seq<Launch>, verdicts: map<GpuId, GpuVerdict>, active: seq<RunningSpot>,
                       queue: seq<QueuedJob>, t: Tables, input: TickInput, cfg: Config, matches: Matcher)
    requires IsQueueOf(queue, t, input, cfg) && input.dockerUp
    requires FirstFit(launches, verdicts.Keys, verdicts, Occupied(active), queue, RamBudget(input, cfg), matches)
    ensures NoneLeftOut(launches, verdicts, active, t, input, cfg, matches)
  {
    hide FirstFit, RamOf, IsQueueOf;
    forall u, j |
      && u in verdicts && verdicts[u].lendable && (forall a | a in active :: a.gpu != u)
      && (forall l | l in launches :: l.gpu != u) && Waits(j, t, launches)
      ensures !RoomFor(t.jobs[j], verdicts[u], launches, input, cfg, matches)
    {
      WaitsInQueue(j, t, launches, queue, input, cfg);
      WorkIsConserved(launches, u, AsQueued(j, t.jobs[j], cfg.defaultRam), verdicts, Occupied(active), queue,
                      RamBudget(input, cfg), matches);
    }
  }

  /** A verdict of the tick, from its inputs: the GPU is lendable exactly when no active job is on it, it was read,
      is not active and not blocked, has more than the reserve free, and was quiet long enough for its owners; its
      jobs must go exactly when one of them is not going yet and the GPU is unread, active, low or blocked. */
  lemma VerdictsInFull(u: GpuId, verdicts: map<GpuId, GpuVerdict>, histories: map<GpuId, History>, input: TickInput,
                       listed: Option<Listing>, cfg: Config, active: seq<RunningSpot>, pausedNode: bool,
                       pausedGpus: set<GpuId>)
    requires Judged(verdicts, histories, input, listed, cfg, active, pausedNode, pausedGpus) && u in verdicts
    ensures u in histories && |histories[u].updates| > 0
    ensures var h := histories[u]; var n := |h.updates| - 1; var obs := h.updates[n].obs;
            var blocked := input.killSwitch || pausedNode || u in pausedGpus;
            var free := obs.totalMemory - obs.usedMemory;
            && (verdicts[u].lendable <==>
                  && obs.ok && !Active(h, n) && !blocked && (forall a | a in active :: a.gpu != u)
                  && free > cfg.reclaim.memReserve
                  && (obs.ownerContainers != {} ==> QuietWithOwners(h, n + 1, cfg.idle.idleSeconds))
                  && (obs.ownerContainers == {} ==> QuietWithOwners(h, n + 1, cfg.idle.unclaimedGraceSeconds)))
            && (verdicts[u].mustReclaim <==>
                  && (exists a | a in active :: a.gpu == u && !a.reclaiming)
                  && (!obs.ok || Active(h, n) || blocked || free < cfg.reclaim.memReserve / 2))
  {
    hide Active, LastDisturbed, QuietWithOwners, Shows;
    var h := histories[u];
    var blocked := input.killSwitch || pausedNode || u in pausedGpus;
    LendableMeansQuiet(h, verdicts[u], cfg.reclaim, IsLent(active, u), IsReclaiming(active, u), blocked);
    assert forall a | a in active && a.gpu == u :: a in OnGpu(active, u);
    assert IsLent(active, u) ==> exists a :: a in OnGpu(active, u);
  }

  /** The verdict on `u` is LENT: the GPU was observed now, showed no activity and enough free memory. */
  ghost predicate StillLent(u: GpuId, verdicts: map<GpuId, GpuVerdict>, histories: map<GpuId, History>, now: Time,
                            cfg: Config)
  {
    && u in verdicts && verdicts[u].state == Lent && u in histories
    && var h := histories[u];
       && |h.updates| > 0 && h.updates[|h.updates| - 1].now == now
       && LastLook(h).ok && !Active(h, |h.updates| - 1)
       && LastLook(h).FreeMemory() >= cfg.reclaim.memReserve / 2
  }

  /** The launch goes to a GPU that was observed and quiet for the whole idle wait, with every owner present
      now present throughout it, or without owners for the grace period, and gets what is free beyond the reserve. */
  ghost predicate LentQuietly(l: Launch, histories: map<GpuId, History>, now: Time, cfg: Config) {
    && l.gpu in histories
    && var h := histories[l.gpu];
       && |h.updates| > 0 && LastLook(h).ok && h.updates[|h.updates| - 1].now == now
       && l.gpuMemLimit == LastLook(h).totalMemory - LastLook(h).usedMemory - cfg.reclaim.memReserve > 0
       && (LastLook(h).ownerContainers != {} ==> QuietWithOwners(h, |h.updates|, cfg.idle.idleSeconds))
       && (LastLook(h).ownerContainers == {} ==> QuietWithOwners(h, |h.updates|, cfg.idle.unclaimedGraceSeconds))
  }

  /** The first `n` looks. */
  ghost function UpTo(h: History, n: nat): History
    requires n <= |h.updates|
  {
    History(h.first, h.born, h.updates[..n])
  }

  /** At some earlier look the launch went to its GPU quietly. */
  ghost predicate WasLentQuietly(l: Launch, histories: map<GpuId, History>, cfg: Config) {
    && l.gpu in histories
    && exists n: nat, now ::
         n <= |histories[l.gpu].updates| && LentQuietly(l, map[l.gpu := UpTo(histories[l.gpu], n)], now, cfg)
  }

  lemma LentQuietlyNow(l: Launch, histories: map<GpuId, History>, now: Time, cfg: Config)
    requires LentQuietly(l, histories, now, cfg)
    ensures WasLentQuietly(l, histories, cfg)
  {
    hide QuietWindow;
    var h := histories[l.gpu];
    assert UpTo(h, |h.updates|) == h;
    assert LentQuietly(l, map[l.gpu := UpTo(h, |h.updates|)], now, cfg);
  }

  lemma LentQuietlyStill(l: Launch, before: map<GpuId, History>, after: map<GpuId, History>, t: Time, cfg: Config)
    requires WasLentQuietly(l, before, cfg) && NothingForgotten(before, after, t)
    ensures WasLentQuietly(l, after, cfg)
  {
    hide LentQuietly;
    var h, k := before[l.gpu], after[l.gpu];
    var n: nat, now :| n <= |h.updates| && LentQuietly(l, map[l.gpu := UpTo(h, n)], now, cfg);
    assert Extends(h, k, t);
    assert h.updates[..n] == k.updates[..|h.updates|][..n] == k.updates[..n];
    assert UpTo(k, n) == UpTo(h, n);
  }

  /** A running job left alone by the plan sits on a GPU judged LENT, unless everything is blocked or unseen. */
  lemma UnstoppedJobsAreLent(active: seq<RunningSpot>, verdicts: map<GpuId, GpuVerdict>, histories: map<GpuId, History>,
                             input: TickInput, listed: Option<Listing>, cfg: Config, pausedNode: bool,
                             pausedGpus: set<GpuId>)
    requires Judged(verdicts, histories, input, listed, cfg, active, pausedNode, pausedGpus)
    ensures forall a | a in active && !a.reclaiming && !MustGo(a, verdicts) ::
      && a.gpu !in pausedGpus
      && StillLent(a.gpu, verdicts, histories, input.now, cfg)
      && !Doubtful(input, pausedNode)
  {
    hide LastDisturbed;
    forall a | a in active && !a.reclaiming && !MustGo(a, verdicts)
      ensures a.gpu !in pausedGpus && StillLent(a.gpu, verdicts, histories, input.now, cfg)
      ensures !Doubtful(input, pausedNode)
    {
      assert a in OnGpu(active, a.gpu);
      assert a.gpu in verdicts && !verdicts[a.gpu].mustReclaim;
    }
  }

  /** A planned launch goes to a GPU that was judged lendable, hence quiet and not blocked. */
  lemma LaunchesAreQuiet(launches: seq<Launch>, active: seq<RunningSpot>, verdicts: map<GpuId, GpuVerdict>,
                         histories: map<GpuId, History>, input: TickInput, listed: Option<Listing>, cfg: Config,
                         pausedNode: bool, pausedGpus: set<GpuId>)
    requires Judged(verdicts, histories, input, listed, cfg, active, pausedNode, pausedGpus)
    requires forall l | l in launches ::
      Open(l.gpu, verdicts, Occupied(active)) && l.gpuMemLimit == verdicts[l.gpu].lendableMemory
    ensures forall l | l in launches :: LentQuietly(l, histories, input.now, cfg)
    ensures Doubtful(input, pausedNode) ==> launches == []
  {
    hide LastDisturbed, Active;
    forall l | l in launches
      ensures LentQuietly(l, histories, input.now, cfg)
      ensures !Doubtful(input, pausedNode)
    {
      var u := l.gpu;
      LendableMeansQuiet(histories[u], verdicts[u], cfg.reclaim, IsLent(active, u), IsReclaiming(active, u),
                         (input.killSwitch || pausedNode) || u in pausedGpus);
    }
    assert launches != [] ==> launches[0] in launches;
  }

  lemma {:induction false} ReclaimsAreDistinct(running: seq<RunningSpot>, verdicts: map<GpuId, GpuVerdict>)
    requires forall i, k | 0 <= i < k < |running| :: running[i].container != running[k].container
    ensures DistinctContainers(Reclaims(running, verdicts))
  {
    if running != [] {
      var front, last := running[..|running| - 1], running[|running| - 1];
      ReclaimsAreDistinct(front, verdicts);
      var before := Reclaims(front, verdicts);
      forall i | 0 <= i < |before| ensures before[i].container != last.container {
        assert before[i] in before;
        var s :| s in front && MustGo(s, verdicts) && before[i] == ReclaimFor(s, verdicts);
        var k :| 0 <= k < |front| && front[k] == s;
        assert running[k] == s;
      }
    }
  }

  /** The planner keeps what the protocol asks of a plan. */
  lemma PlanIsGood(p: Plan, listed: bool, active: seq<RunningSpot>, verdicts: map<GpuId, GpuVerdict>,
                   queue: seq<QueuedJob>, budget: int, enforced: bool, matches: Matcher)
    requires p.reclaims == Reclaims(active, verdicts)
    requires !enforced ==> p.launches == []
    requires enforced ==> FirstFit(p.launches, verdicts.Keys, verdicts, Occupied(active), queue, budget, matches)
    requires !listed ==> queue == []
    requires forall i, k | 0 <= i < k < |active| :: active[i].container != active[k].container
    ensures GoodPlan(listed, active, p.reclaims, p.launches)
  {
    ReclaimsAreDistinct(active, verdicts);
    forall r | r in p.reclaims ensures ReclaimsRow(r, active) {
      var s :| s in active && MustGo(s, verdicts) && r == ReclaimFor(s, verdicts);
      assert s == RunningSpot(r.jobId, r.gpu, r.container, false);
    }
    if enforced {
      PlanIsSound(p.launches, verdicts, Occupied(active), queue, budget, matches);
    }
    forall g | g in LaunchGpus(p.launches) ensures g !in SnapGpus(active) {
      var l :| l in p.launches && l.gpu == g;
      assert Open(l.gpu, verdicts, Occupied(active));
    }
    if p.launches != [] {
      var job := JobOfLaunch(p.launches, 0, verdicts, queue, budget, matches);
    }
  }

  // ---- giving back ----

  /** No active job's container is still running. */
  ghost predicate Drained(w: World) {
    forall j | j in Holding(w.t) && Holding(w.t)[j].container in w.docker ::
      !w.docker[Holding(w.t)[j].container].running
  }

  /** A stop of the container is on record, but none was started in this controller lifetime: no tick asks again. */
  ghost predicate Lost(c: ContainerId, issued: set<ContainerId>, stops: seq<StopCall>, lifeStart: nat) {
    c in issued && !StopStarted(c, stops, lifeStart)
  }

  /** A stop of the container was started in this controller lifetime, unless it was lost before the tick. */
  ghost predicate ToldToStop(c: ContainerId, issuedBefore: set<ContainerId>, stopsBefore: seq<StopCall>,
                             stops: seq<StopCall>, lifeStart: nat)
  {
    StopStarted(c, stops, lifeStart) || Lost(c, issuedBefore, stopsBefore, lifeStart)
  }

  /** What is on record after a tick whose own stops all started was told to stop. */
  lemma RecordedMeansTold(before: set<ContainerId>, after: set<ContainerId>, s: seq<StopCall>, t: seq<StopCall>,
                          lifeStart: nat)
    requires lifeStart <= |s| && NewStopsStarted(before, after, s, t)
    ensures forall c | c in after :: ToldToStop(c, before, s, t, lifeStart)
  {
    hide StopStarted;
    forall c | c in after ensures ToldToStop(c, before, s, t, lifeStart) {
      if StopStarted(c, t, |s|) {
        LaterStopStarted(c, t, t, lifeStart, |s|);
      } else if StopStarted(c, s, lifeStart) {
        LaterStopStarted(c, s, t, lifeStart, lifeStart);
      }
    }
  }

  /** The job of the row is to be stopped: it is being reclaimed, or its verdict calls for it. */
  predicate ToBeStopped(a: RunningSpot, verdicts: map<GpuId, GpuVerdict>) { a.reclaiming || MustGo(a, verdicts) }

  /** Exactly the stops that were not lost before have been started, of all jobs to be stopped. */
  ghost predicate StoppedUnlessLost(active: seq<RunningSpot>, verdicts: map<GpuId, GpuVerdict>,
                                    issuedBefore: set<ContainerId>, stopsBefore: seq<StopCall>,
                                    stops: seq<StopCall>, lifeStart: nat)
  {
    forall a | a in active && ToBeStopped(a, verdicts) ::
      StopStarted(a.container, stops, lifeStart) <==> !Lost(a.container, issuedBefore, stopsBefore, lifeStart)
  }

  ghost predicate Due(c: ContainerId, active: seq<RunningSpot>, verdicts: map<GpuId, GpuVerdict>,
                      issued: set<ContainerId>)
  {
    c !in issued && exists a | a in active :: a.container == c && ToBeStopped(a, verdicts)
  }

  /** New stops are asked for only where one is due, and none is on record. */
  ghost predicate OnlyDueStops(active: seq<RunningSpot>, verdicts: map<GpuId, GpuVerdict>, issued: set<ContainerId>,
                               s: seq<StopCall>, t: seq<StopCall>)
  {
    s <= t && forall n | |s| <= n < |t| :: Due(t[n].container, active, verdicts, issued)
  }

  /** New stops are asked for the reclaims only. */
  ghost predicate OnlyFor(reclaims: seq<Reclaim>, s: seq<StopCall>, t: seq<StopCall>) {
    s <= t && forall n | |s| <= n < |t| :: exists r | r in reclaims :: r.container == t[n].container
  }

  lemma OneMoreDue(active: seq<RunningSpot>, verdicts: map<GpuId, GpuVerdict>, issued: set<ContainerId>,
                   s: seq<StopCall>, t: seq<StopCall>, a: RunningSpot, started: bool)
    requires OnlyDueStops(active, verdicts, issued, s, t)
    requires a in active && ToBeStopped(a, verdicts) && a.container !in issued
    ensures OnlyDueStops(active, verdicts, issued, s, t + [StopCall(a.container, started)])
  {
    hide ToBeStopped;
    assert Due(a.container, active, verdicts, issued);
    hide Due;
    var u := t + [StopCall(a.container, started)];
    forall n | |s| <= n < |u| ensures Due(u[n].container, active, verdicts, issued) {
      if n < |t| { assert u[n] == t[n]; }
    }
  }

  lemma ReclaimStopsAreDue(active: seq<RunningSpot>, verdicts: map<GpuId, GpuVerdict>, issued: set<ContainerId>,
                           s: seq<StopCall>, t: seq<StopCall>, u: seq<StopCall>)
    requires OnlyDueStops(active, verdicts, issued, s, t) && OnlyFor(Reclaims(active, verdicts), t, u)
    requires forall a | a in active && !a.reclaiming :: a.container !in issued
    ensures OnlyDueStops(active, verdicts, issued, s, u)
  {
    forall n | |s| <= n < |u| ensures Due(u[n].container, active, verdicts, issued) {
      if n < |t| {
        assert u[n] == t[n];
      } else {
        var c := u[n].container;
        var r :| r in Reclaims(active, verdicts) && r.container == c;
        var a :| a in active && MustGo(a, verdicts) && r == ReclaimFor(a, verdicts);
        assert ToBeStopped(a, verdicts);
      }
    }
  }

  /** Rows of jobs that were stopped for good earlier are on record now. */
  lemma DueSinceTheStart(active: seq<RunningSpot>, verdicts: map<GpuId, GpuVerdict>, before: set<ContainerId>,
                         issued: set<ContainerId>, s: seq<StopCall>, t: seq<StopCall>)
    requires OnlyDueStops(active, verdicts, issued, s, t)
    requires forall a | a in active && a.container in before :: a.container in issued
    ensures OnlyDueStops(active, verdicts, before, s, t)
  {
    hide ToBeStopped;
    forall n | |s| <= n < |t| ensures Due(t[n].container, active, verdicts, before) {
      assert Due(t[n].container, active, verdicts, issued);
    }
  }

  /** Whether a stop of a container on record was started does not change. */
  lemma NoneRepeated(active: seq<RunningSpot>, verdicts: map<GpuId, GpuVerdict>, issued: set<ContainerId>,
                     s: seq<StopCall>, t: seq<StopCall>, lifeStart: nat)
    requires OnlyDueStops(active, verdicts, issued, s, t)
    ensures forall c | c in issued :: StopStarted(c, t, lifeStart) <==> StopStarted(c, s, lifeStart)
  {
    hide StopStarted;
    forall c | c in issued ensures StopStarted(c, t, lifeStart) <==> StopStarted(c, s, lifeStart) {
      assert forall n | |s| <= n < |t| :: Due(t[n].container, active, verdicts, issued);
      NotStartedByOthers(c, s, t, lifeStart);
    }
  }

  // ---- what a tick did, in the log ----

  /** The states in which a tick listed the containers, read the active jobs, and planned. */
  datatype Moments = Moments(listing: World, reading: World, planning: World)

  /** The rows are the active jobs as they were read since step `from`, after the reconcile with what was listed. */
  ghost predicate ReadIn(log: Log, from: nat, snap: seq<RunningSpot>, listed: Option<Listing>, at: Moments) {
    && Took(log, from, at.reading, TakeSnapshot) && at.reading.pc == Ready(listed)
    && at.reading.t.Leased() && snap == ActiveRows(at.reading.t)
    && (listed.Some? ==> Took(log, from, at.listing, TakeListing) && listed.value == at.listing.docker)
  }

  /** The plan of these rows, verdicts and launches was made since step `from`, when no stop was pending any more;
      if `all`, it was carried out to the end without a break. */
  ghost predicate PlannedIn(log: Log, from: nat, snap: seq<RunningSpot>, listed: Option<Listing>, at: Moments,
                            verdicts: map<GpuId, GpuVerdict>, launches: seq<Launch>, all: bool)
  {
    && at.planning.pc == Stopping(listed, snap, [])
    && Planned(log, from, at.planning, Decide(Reclaims(snap, verdicts), launches), all)
  }

  /** What was decided follows from what was read: the rows and the listing as they were read, the verdicts from
      these and all looks at the GPUs, the plan from the verdicts and the queue. */
  ghost predicate Grounded(log: Log, from: nat, w: World, snap: seq<RunningSpot>, listed: Option<Listing>, at: Moments,
                           verdicts: map<GpuId, GpuVerdict>, histories: map<GpuId, History>, launches: seq<Launch>,
                           input: TickInput, cfg: Config, matches: Matcher, completed: bool)
  {
    && (listed.Some? <==> input.dockerUp)
    && ReadIn(log, from, snap, listed, at)
    && Judged(verdicts, histories, input, listed, cfg, snap, w.t.pausedNode, w.t.pausedGpus)
    && (completed || launches != [] ==>
          && PlannedIn(log, from, snap, listed, at, verdicts, launches, completed)
          && LaunchesFirstFit(launches, verdicts, snap, at.planning.t, input, cfg, matches))
  }

  lemma StillGrounded(l: Log, log: Log, lent: set<Launch>, from: nat, w: World, snap: seq<RunningSpot>,
                      listed: Option<Listing>, at: Moments, verdicts: map<GpuId, GpuVerdict>,
                      histories: map<GpuId, History>, launches: seq<Launch>, input: TickInput, cfg: Config,
                      matches: Matcher)
    requires Goes(l, log, lent)
    requires Grounded(l, from, w, snap, listed, at, verdicts, histories, launches, input, cfg, matches, false)
    ensures Grounded(log, from, w, snap, listed, at, verdicts, histories, launches, input, cfg, matches, false)
  {
    hide Took, Planned, ActiveRows, Reclaims, Judged, LaunchesFirstFit;
    TookEarlier(l, log, lent, from, at.reading, TakeSnapshot);
    if listed.Some? {
      TookEarlier(l, log, lent, from, at.listing, TakeListing);
    }
    if launches != [] {
      StillPlanned(l, log, lent, from, at.planning, Decide(Reclaims(snap, verdicts), launches));
    }
  }

  // ---- what a tick leaves of every lease ----

  ghost predicate RowFor(snap: seq<RunningSpot>, j: JobId, lease: Lease) {
    exists a | a in snap :: a.jobId == j && a.gpu == lease.gpu && a.container == lease.container
  }

  /** Every lease is a row of the snapshot, or that of a launch. */
  ghost predicate Covered(h: map<JobId, Lease>, snap: seq<RunningSpot>, lent: set<Launch>) {
    forall j | j in h :: RowFor(snap, j, h[j]) || OneOf(j, h[j], lent)
  }

  /** The job was told to stop between the two states, or was so before with that stop lost. */
  ghost predicate Told(c: ContainerId, w: World, v: World) {
    ToldToStop(c, w.stopIssued, w.stops, v.stops, v.lifeStart)
  }

  /** Every active job was told to stop. */
  ghost predicate AllTold(w: World, v: World) { forall j | j in Holding(v.t) :: Told(Holding(v.t)[j].container, w, v) }

  /** Every active job was told to stop, or sits on an unblocked GPU judged LENT now, or was just launched. */
  ghost predicate HeldSafely(w: World, v: World, lent: set<Launch>, verdicts: map<GpuId, GpuVerdict>,
                             histories: map<GpuId, History>, now: Time, cfg: Config)
  {
    forall j | j in Holding(v.t) ::
      || Told(Holding(v.t)[j].container, w, v)
      || (Holding(v.t)[j].gpu !in w.t.pausedGpus && StillLent(Holding(v.t)[j].gpu, verdicts, histories, now, cfg))
      || OneOf(j, Holding(v.t)[j], lent)
  }

  lemma RowsMakeLeasesSafe(snap: seq<RunningSpot>, w: World, v: World, lent: set<Launch>,
                           verdicts: map<GpuId, GpuVerdict>, histories: map<GpuId, History>, now: Time, cfg: Config)
    requires Covered(Holding(v.t), snap, lent)
    requires forall a | a in snap ::
      Told(a.container, w, v) || (a.gpu !in w.t.pausedGpus && StillLent(a.gpu, verdicts, histories, now, cfg))
    ensures HeldSafely(w, v, lent, verdicts, histories, now, cfg)
  {
    hide Holding, Told, StillLent, OneOf;
  }

  lemma RowsMakeLeasesTold(snap: seq<RunningSpot>, w: World, v: World)
    requires Covered(Holding(v.t), snap, {}) && forall a | a in snap :: Told(a.container, w, v)
    ensures AllTold(w, v)
  {
    hide Holding, Told;
  }

  /** The active jobs that a listing shows as running. */
  ghost function Kept(h: map<JobId, Lease>, listing: Listing): map<JobId, Lease> {
    map j | j in h && SeenRunning(h, j, listing) :: h[j]
  }

  /** A listing taken after `docker` was seen, with nothing started in between. */
  ghost predicate TakenAfter(listing: Listing, docker: Listing) {
    forall c | c in listing :: c in docker && (listing[c].running ==> docker[c].running)
  }

  /** When nothing that was held is running any more, a listing taken after that shows no active job as running. */
  lemma DrainedMeansNoneKept(w: World, listing: Listing, h: map<JobId, Lease>)
    requires Drained(w) && TakenAfter(listing, w.docker)
    requires forall j | j in h :: j in Holding(w.t) && h[j] == Holding(w.t)[j] && SeenRunning(h, j, listing)
    ensures h == map[]
  {
    hide Holding;
  }

  /** Without starts, containers that stopped running stay so. */
  lemma DrainedStays(w: World, v: World)
    requires Drained(w) && DockerFrom(w, v, {}) && LeasesFrom(Holding(w.t), Holding(v.t), {})
    ensures Drained(v)
  {
    hide Holding;
  }

  /** There is a reason not to lend anything: an administrator's block, or no view of containers or GPUs. */
  predicate Doubtful(input: TickInput, pausedNode: bool) {
    input.killSwitch || pausedNode || !input.dockerUp || input.gpus.None?
  }
}
