/** The controller itself. Its methods act on the store, on Docker and on their own fields. A ghost log holds
    the execution of the protocol so far: every method extends it step by step, whatever happens between its
    own steps, so what is proved of executions holds of the controller from its first step to its last. */
module Daemon {
  import opened Model
  import opened Ordering
  import opened Detector
  import opened DetectorProofs
  import opened Planner
  import opened PlannerProofs
  import opened Observer
  import opened Jobs
  import opened JobsLedger
  import opened Leases
  import opened Protocol
  import opened ProtocolInvariant
  import opened ProtocolSteps
  import opened ProtocolTheorems
  import opened ProtocolFrames
  import opened Containers
  import opened TickSpec

  /** The tracker agrees with its history, which is in order and ends no later than `t`. */
  ghost predicate TrackerOk(tracker: GpuTracker, t: Time)
    reads tracker
  {
    && tracker.Valid() && Chronological(tracker.history)
    && tracker.history.born <= t
    && forall i | 0 <= i < |tracker.history.updates| :: tracker.history.updates[i].now <= t
  }

  /** `l` is the first launch that step `n` looks at. */
  ghost predicate ConsideredAt(log: Log, n: nat, l: Launch) {
    && n < |log.actions| && n < |log.trace| && log.actions[n] == CheckLaunch
    && log.trace[n].pc.Acting? && log.trace[n].pc.launches != [] && log.trace[n].pc.launches[0] == l
  }

  ghost predicate Considered(log: Log, from: nat, l: Launch) {
    exists n :: from <= n && ConsideredAt(log, n, l)
  }

  function LaunchSet(launches: seq<Launch>): set<Launch> { set l | l in launches }

  class Controller {
    const cfg: Config
    const store: JobStore
    const docker: Docker
    const matches: Matcher
    var trackers: map<GpuId, GpuTracker>
    var stopIssued: set<ContainerId>
    var gpuList: seq<GpuInfo>
    var lastVerdicts: map<GpuId, GpuVerdict>
    ghost var pc: Pc
    ghost var log: Log
    ghost var lifeStart: nat
    ghost var lastTick: Time

    /** The state of the protocol this controller is in. */
    ghost function Current(): World
      reads this`stopIssued, this`lifeStart, this`pc, store, docker
    {
      World(store.Table(), docker.containers, docker.nextContainer, docker.stuck, stopIssued, docker.stops, lifeStart,
            pc)
    }

    /** The log is an execution that ends where the controller is. */
    ghost predicate Sound()
      reads this`stopIssued, this`lifeStart, this`pc, this`log, store, docker
    {
      log.Runs(cfg.maxAttempts) && log.Now() == Current()
    }

    /** Trackers are separate objects whose histories are in order and end before `t`. */
    ghost predicate TrackersValid(t: Time)
      reads this`trackers, trackers.Values
    {
      && (forall u | u in trackers :: TrackerOk(trackers[u], t))
      && (forall u, v | u in trackers && v in trackers && u != v :: trackers[u] != trackers[v])
    }

    /** The histories of all trackers. */
    ghost function Histories(): map<GpuId, History>
      reads this`trackers, trackers.Values
    {
      map u | u in trackers :: trackers[u].history
    }

    /** A fresh controller process over an existing store and container runtime: the state that a crash of the
        last one, after the execution `before`, leaves behind, with no trackers and no stop on record. */
    constructor (cfg: Config, store: JobStore, docker: Docker, matches: Matcher, ghost before: Log)
      requires before.Runs(cfg.maxAttempts)
      requires before.Now().t == store.Table() && before.Now().docker == docker.containers
      requires before.Now().nextContainer == docker.nextContainer && before.Now().stuck == docker.stuck
      requires before.Now().stops == docker.stops
      ensures this.cfg == cfg && this.store == store && this.docker == docker
      ensures Sound() && log == before.Then(Crash, Current())
      ensures pc == Resting && stopIssued == {} && lifeStart == |docker.stops|
      ensures trackers == map[] && TrackersValid(lastTick)
    {
      this.cfg, this.store, this.docker, this.matches := cfg, store, docker, matches;
      trackers, stopIssued, gpuList, lastVerdicts := map[], {}, [], map[];
      pc, lastTick, lifeStart := Resting, 0.0, |docker.stops|;
      log := before;
      new;
      StepExtends(before, Crash, cfg.maxAttempts);
      log := before.Then(Crash, Current());
    }

    // ---- steps ----

    /** Enters the step `a` from state `w`, which led to the state the controller is in now. */
    ghost method Record(w: World, a: Action, lent: set<Launch>)
      requires log.Runs(cfg.maxAttempts) && log.Now() == w
      requires Enabled(w, a) && Permitted(w, a, lent) && Current() == Apply(w, a, cfg.maxAttempts)
      modifies this`log
      ensures Sound() && log == old(log).Then(a, Current())
      ensures Goes(old(log), log, lent) && NextIs(old(log), log, a)
      ensures CarriesOn(a) ==> StraightFrom(log, |old(log).actions|)
    {
      hide Enabled, Apply, Permitted, Execution;
      LogShape(log, cfg.maxAttempts);
      StepExtends(log, a, cfg.maxAttempts);
      OneStepGoes(log, a, Current(), lent);
      log := log.Then(a, Current());
    }

    /** A step that only moves the program counter. */
    ghost method Advance(a: Action)
      requires Sound() && Enabled(Current(), a) && Permitted(Current(), a, {})
      requires Apply(Current(), a, cfg.maxAttempts) == Current().(pc := Apply(Current(), a, cfg.maxAttempts).pc)
      modifies this`pc, this`log
      ensures Sound() && pc == Apply(old(Current()), a, cfg.maxAttempts).pc
      ensures Goes(old(log), log, {}) && NextIs(old(log), log, a)
    {
      hide Execution, Enabled, Apply, Permitted;
      ghost var w := Current();
      pc := Apply(w, a, cfg.maxAttempts).pc;
      Record(w, a, {});
    }

    /** An exception leaves the tick wherever it was. */
    ghost method Raise()
      requires Sound()
      modifies this`pc, this`log
      ensures Sound() && pc == Broken && Goes(old(log), log, {})
    {
      Advance(Break);
    }

    /** Users and containers act: any number of submissions, cancellations, pauses, exits and
        disappearances, in any order. */
    method Interleave()
      requires Sound()
      modifies this`log, store, docker`containers
      ensures Sound() && Goes(old(log), log, {}) && Undisturbed(old(Current()), Current())
      ensures StraightFrom(log, |old(log).actions|)
    {
      hide Execution, Goes, Undisturbed, StraightFrom;
      StandStill();
      var steps: nat := *;
      while steps > 0
        invariant Sound() && Goes(old(log), log, {}) && Undisturbed(old(Current()), Current())
        invariant StraightFrom(log, |old(log).actions|)
      {
        ghost var before, w := log, Current();
        var a: Action := *;
        Disturb(a);
        GoesOn(old(log), before, log, {}, {}, {});
        StraightTwice(before, log, |old(log).actions|, {});
        UndisturbedTwice(old(Current()), w, Current());
        steps := steps - 1;
      }
    }

    lemma StandStill()
      requires Sound()
      ensures Goes(log, log, {}) && Undisturbed(Current(), Current()) && StraightFrom(log, |log.actions|)
    {
      LogShape(log, cfg.maxAttempts);
      GoesNowhere(log, {});
    }

    method Disturb(a: Action)
      requires Sound()
      modifies this`log, store, docker`containers
      ensures Sound() && Goes(old(log), log, {}) && Undisturbed(old(Current()), Current())
      ensures StraightFrom(log, |old(log).actions|)
    {
      RunHasInv(log, cfg.maxAttempts);
      StandStill();
      ghost var w := Current();
      hide Execution, Goes, Undisturbed, Ledger, Base, PcInv, Enabled, Apply, StraightFrom;
      var done := Affect(a);
      if done {
        EnvironmentDisturbsNothing(w, a, cfg.maxAttempts);
        Record(w, a, {});
      }
    }

    /** Whatever a user or a container may do, if it can be done now. */
    method Affect(a: Action) returns (done: bool)
      modifies store, docker`containers
      ensures done ==> IsEnvironment(a) && Enabled(old(Current()), a)
      ensures done ==> Current() == Apply(old(Current()), a, cfg.maxAttempts)
      ensures !done ==> Current() == old(Current())
    {
      done := false;
      match a {
        case Submit(spec, now) =>
          var _ := store.Submit(spec, now);
          done := true;
        case Cancel(id, now) =>
          var accepted, _ := store.Cancel(id, now);
          done := accepted;
        case Pause(paused, gpu) =>
          store.SetPaused(paused, gpu);
          done := true;
        case Exit(c, code) =>
          if c in docker.containers && docker.containers[c].running {
            docker.containers := docker.containers[c := docker.containers[c].(running := false, exitCode := code)];
            done := true;
          }
        case Vanish(c) =>
          if c in docker.containers {
            docker.containers := docker.containers - {c};
            done := true;
          }
        case _ =>
      }
    }

    /** Enters the step `a`, then lets the others act. */
    method Commit(ghost w: World, ghost a: Action, ghost lent: set<Launch>)
      requires log.Runs(cfg.maxAttempts) && log.Now() == w
      requires Enabled(w, a) && Permitted(w, a, lent) && Current() == Apply(w, a, cfg.maxAttempts)
      modifies this`log, store, docker`containers
      ensures Sound() && Goes(old(log), log, lent) && NextIs(old(log), log, a)
      ensures RefusedIn(log, |old(log).actions|) <==> Refuses(w, a)
      ensures CarriesOn(a) ==> StraightFrom(log, |old(log).actions|)
      ensures StraightFrom(log, |old(log).actions| + 1)
      ensures Undisturbed(old(Current()), Current())
    {
      hide Execution, Enabled, Apply, Permitted, Undisturbed, RefusedIn, Refuses, CarriesOn;
      LogShape(log, cfg.maxAttempts);
      Record(w, a, lent);
      ghost var before := log;
      RefusedByStep(old(log), a, Current());
      Interleave();
      NothingRefused(before, log);
      RefusedTwice(old(log), before, log, lent, {});
      GoesOn(old(log), before, log, lent, {}, lent);
      assert log.actions[|old(log).actions|] == before.actions[|old(log).actions|];
    }

    // ---- reconcile ----

    /** Closes finished runs and removes the spot containers that belong to no active job. Afterwards exactly
        the jobs listed as running are still active, and every container belongs to one of them. */
    method Reconcile(spots: Listing)
      requires Sound() && pc == Listed(spots)
      modifies this`stopIssued, this`pc, this`log, store, docker`containers, docker`stuck
      ensures Sound() && pc == Ready(Some(spots)) && Goes(old(log), log, {})
      ensures stopIssued <= old(stopIssued)
      ensures Holding(store.Table()) == Kept(Holding(old(store.Table())), spots)
      ensures Clean(Current())
    {
      hide Execution, Goes, Holding, ActiveRows, Kept, Clean;
      ghost var h := Holding(store.Table());
      var rows := BeginClosing(spots);
      var known: set<ContainerId> := {};
      assert rows[0..] == rows;
      NoneEnded(h, rows, spots);
      for i := 0 to |rows|
        invariant Sound() && pc == Closing(spots, rows[i..], known) && Goes(old(log), log, {})
        invariant stopIssued <= old(stopIssued)
        invariant Holding(store.Table()) == h - Ended(rows[..i], spots)
      {
        assert rows[i..] == [rows[i]] + rows[i + 1..];
        ghost var before := log;
        ghost var now;
        known, now := CloseOrKeep(spots, rows[i], rows[i + 1..], known);
        GoesOn(old(log), before, log, {}, {}, {});
        OneMoreEnded(h, rows, i, spots);
      }
      AllEnded(h, rows, spots);
      ghost var before := log;
      Sweep(spots, known);
      GoesOn(old(log), before, log, {}, {}, {});
    }

    method BeginClosing(spots: Listing) returns (rows: seq<RunningSpot>)
      requires Sound() && pc == Listed(spots)
      modifies this`pc, this`log, store, docker`containers
      ensures Sound() && pc == Closing(spots, rows, {}) && Goes(old(log), log, {})
      ensures Holding(store.Table()) == Holding(old(store.Table())) && ReadFrom(rows, Holding(store.Table()))
    {
      ActiveRowsAreLeases(log, cfg.maxAttempts);
      hide Execution, Goes, Holding, ReadFrom;
      ghost var w := Current();
      rows := store.Active();
      pc := Closing(spots, rows, {});
      Commit(w, BeginReconcile, {});
    }

    /** One round of the first loop: the row's run goes on, or it is closed, with its exit code or as vanished,
        and its container removed. No other lease changes. */
    method CloseOrKeep(spots: Listing, row: RunningSpot, ghost rest: seq<RunningSpot>, known: set<ContainerId>)
      returns (nowKnown: set<ContainerId>, ghost now: Time)
      requires Sound() && pc == Closing(spots, [row] + rest, known)
      modifies this`stopIssued, this`pc, this`log, store, docker`containers, docker`stuck
      ensures Sound() && pc == Closing(spots, rest, nowKnown) && Goes(old(log), log, {})
      ensures NextIs(old(log), log, if StillRunning(spots, row) then KeepOne else CloseOne(now))
      ensures stopIssued == old(stopIssued) - (if StillRunning(spots, row) then {} else {row.container})
      ensures Holding(store.Table())
           == if StillRunning(spots, row) then Holding(old(store.Table()))
              else Holding(old(store.Table())) - {row.jobId}
    {
      hide Execution, Goes, Holding, Finished;
      ghost var w := Current();
      assert ([row] + rest)[0] == row && ([row] + rest)[1..] == rest;
      nowKnown := if row.container in spots then known + {row.container} else known;
      if row.container in spots && spots[row.container].running {
        pc := Closing(spots, rest, nowKnown);
        Record(w, KeepOne, {});
        now := 0.0;
        return;
      }
      ClosingEndsLease(log, cfg.maxAttempts);
      var time: Time := *;
      now := time;
      var exitCode := if row.container in spots then Some(spots[row.container].exitCode) else None;
      var _ := store.Finish(row.jobId, exitCode, cfg.maxAttempts, row.container !in spots, time);
      stopIssued := stopIssued - {row.container};
      pc := if row.container in spots then Archiving(spots, rest, nowKnown, row.container)
            else Closing(spots, rest, nowKnown);
      assert Current() == CloseRow(w, now, cfg.maxAttempts);
      assert Holding(store.Table()) == Holding(w.t) - {row.jobId};
      Commit(w, CloseOne(now), {});
      if row.container in spots {
        ghost var before := log;
        ArchiveClosed(spots, rest, nowKnown, row.container);
        GoesOn(old(log), before, log, {}, {}, {});
        NextStays(old(log), before, log, CloseOne(now));
      }
    }

    method ArchiveClosed(spots: Listing, ghost rest: seq<RunningSpot>, ghost known: set<ContainerId>, c: ContainerId)
      requires Sound() && pc == Archiving(spots, rest, known, c)
      modifies this`pc, this`log, store, docker`containers, docker`stuck
      ensures Sound() && pc == Closing(spots, rest, known) && Goes(old(log), log, {})
      ensures Holding(store.Table()) == Holding(old(store.Table()))
    {
      hide Execution, Goes, Holding;
      ghost var w := Current();
      ghost var removed := docker.SaveLogsAndRemove(c);
      pc := Closing(spots, rest, known);
      Commit(w, Archive(removed), {});
    }

    /** The second loop: removes every listed container that no row accounted for. */
    method Sweep(spots: Listing, known: set<ContainerId>)
      requires Sound() && pc == Closing(spots, [], known)
      modifies this`pc, this`log, store, docker`containers, docker`stuck
      ensures Sound() && pc == Ready(Some(spots)) && Goes(old(log), log, {})
      ensures Holding(store.Table()) == Holding(old(store.Table()))
      ensures Clean(Current())
    {
      hide Execution, Goes, Doomed, Enabled, Apply, Holding, Clean;
      var ids := SortedIds(spots.Keys);
      StartSweep(spots, ids, known);
      for i := 0 to |ids|
        invariant Sound() && pc == Sweeping(spots, Doomed(ids[i..], known)) && Goes(old(log), log, {})
        invariant Holding(store.Table()) == Holding(old(store.Table()))
      {
        DoomedNext(ids, i, known);
        if ids[i] in known { continue; }
        ghost var before := log;
        RemoveUnmanaged(spots, Doomed(ids[i..], known), ids[i]);
        GoesOn(old(log), before, log, {}, {}, {});
      }
      ghost var before := log;
      FinishSweep(spots, ids, known);
      GoesOn(old(log), before, log, {}, {}, {});
      SweptIsClean(log, cfg.maxAttempts);
    }

    ghost method StartSweep(spots: Listing, ids: seq<ContainerId>, known: set<ContainerId>)
      requires Sound() && pc == Closing(spots, [], known) && forall c :: c in ids <==> c in spots.Keys
      modifies this`pc, this`log
      ensures Sound() && pc == Sweeping(spots, Doomed(ids[0..], known)) && Goes(old(log), log, {})
    {
      hide Execution, Goes;
      DoomedAtFirst(ids, spots.Keys, known);
      Advance(BeginSweep);
    }

    ghost method FinishSweep(spots: Listing, ids: seq<ContainerId>, known: set<ContainerId>)
      requires Sound() && pc == Sweeping(spots, Doomed(ids[|ids|..], known))
      modifies this`pc, this`log
      ensures Sound() && pc == Ready(Some(spots)) && Goes(old(log), log, {})
    {
      hide Execution, Goes;
      assert ids[|ids|..] == [] && Doomed([], known) == {};
      Advance(EndSweep);
    }

    method RemoveUnmanaged(spots: Listing, ghost doomed: set<ContainerId>, c: ContainerId)
      requires Sound() && pc == Sweeping(spots, doomed) && c in doomed
      modifies this`pc, this`log, store, docker`containers, docker`stuck
      ensures Sound() && pc == Sweeping(spots, doomed - {c}) && Goes(old(log), log, {})
      ensures Holding(store.Table()) == Holding(old(store.Table()))
    {
      hide Execution, Goes, Holding;
      ghost var w := Current();
      ghost var removed := docker.SaveLogsAndRemove(c);
      pc := Sweeping(spots, doomed - {c});
      Commit(w, SweepOne(c, removed), {});
    }

    // ---- stops ----

    /** Records a stop, then asks Docker for it; says whether it could be started. */
    method Stop(c: ContainerId) returns (started: bool)
      modifies this`stopIssued, docker`stops
      ensures stopIssued == old(stopIssued) + {c}
      ensures docker.stops == old(docker.stops) + [StopCall(c, started)]
    {
      stopIssued := stopIssued + {c};
      started := docker.StopAsync(c);
    }

    method TakeActive(ghost listed: Option<Listing>) returns (active: seq<RunningSpot>)
      requires Sound() && pc == Ready(listed)
      modifies this`pc, this`log, store, docker`containers
      ensures Sound() && pc == Stopping(listed, active, PendingStops(active, stopIssued)) && Goes(old(log), log, {})
      ensures Holding(store.Table()) == Holding(old(store.Table())) && ReadFrom(active, Holding(store.Table()))
      ensures NextIs(old(log), log, TakeSnapshot)
      ensures old(store.Table()).Leased() && active == ActiveRows(old(store.Table()))
    {
      ActiveRowsAreLeases(log, cfg.maxAttempts);
      hide Execution, Goes, Holding, ReadFrom;
      ghost var w := Current();
      active := store.Active();
      pc := Stopping(listed, active, PendingStops(active, stopIssued));
      Commit(w, TakeSnapshot, {});
    }

    /** Stops that are wanted but not yet issued: user cancels, restarts in the middle of a preemption. */
    method StopPendingOnes(ghost listed: Option<Listing>, active: seq<RunningSpot>) returns (ok: bool)
      requires Sound() && pc == Stopping(listed, active, PendingStops(active, stopIssued))
      modifies this`stopIssued, this`pc, this`log, store, docker`containers, docker`stops
      ensures Sound() && Goes(old(log), log, {})
      ensures ok ==> pc == Stopping(listed, active, [])
      ensures ok ==> forall a | a in active && a.reclaiming :: a.container in stopIssued
      ensures ok ==> NewStopsStarted(old(stopIssued), stopIssued, old(docker.stops), docker.stops)
      ensures !ok ==> pc == Broken
      ensures ok <==> AllStarted(docker.stops, |old(docker.stops)|)
      ensures OnlyDueStops(active, lastVerdicts, old(stopIssued), old(docker.stops), docker.stops)
    {
      SnapshotIsDistinct(log, cfg.maxAttempts);
      StandStill();
      assert AllStarted(docker.stops, |docker.stops|);
      hide Execution, Goes, NewStopsStarted, Undisturbed, OnlyDueStops, AllStarted, StraightFrom, StopStarted, Holding,
        MustGo, Inv;
      NoNewStops(stopIssued, docker.stops);
      NoneDueYet(active, lastVerdicts, stopIssued, docker.stops);
      for i := 0 to |active|
        invariant Sound() && Goes(old(log), log, {}) && old(stopIssued) <= stopIssued
        invariant pc == Stopping(listed, active, PendingStops(active[i..], stopIssued))
        invariant NewStopsStarted(old(stopIssued), stopIssued, old(docker.stops), docker.stops)
        invariant forall k | 0 <= k < i && active[k].reclaiming :: active[k].container in stopIssued
        invariant |old(docker.stops)| <= |docker.stops| && AllStarted(docker.stops, |old(docker.stops)|)
        invariant OnlyDueStops(active, lastVerdicts, old(stopIssued), old(docker.stops), docker.stops)
      {
        assert active[i..][0] == active[i] && active[i..][1..] == active[i + 1..];
        if active[i].reclaiming && active[i].container !in stopIssued {
          PendingStopsIgnore(active[i + 1..], stopIssued, active[i].container);
          ghost var before, issued, stops := log, stopIssued, docker.stops;
          ok := StopOnePending(listed, active, active[i].container, PendingStops(active[i + 1..], stopIssued));
          GoesOn(old(log), before, log, {}, {}, {});
          OneMorePending(active, i, lastVerdicts, old(stopIssued), issued, old(docker.stops), stops, ok);
          if !ok { return; }
        }
      }
      assert active[|active|..] == [];
      ok := true;
    }

    method StopOnePending(ghost listed: Option<Listing>, ghost active: seq<RunningSpot>, c: ContainerId,
                          ghost rest: seq<ContainerId>) returns (ok: bool)
      requires Sound() && pc == Stopping(listed, active, [c] + rest)
      modifies this`stopIssued, this`pc, this`log, store, docker`containers, docker`stops
      ensures Sound() && Goes(old(log), log, {})
      ensures stopIssued == old(stopIssued) + {c} && docker.stops == old(docker.stops) + [StopCall(c, ok)]
      ensures pc == if ok then Stopping(listed, active, rest) else Broken
    {
      hide Execution, Goes, Undisturbed;
      assert ([c] + rest)[0] == c && ([c] + rest)[1..] == rest;
      ghost var w := Current();
      ok := Stop(c);
      pc := Stopping(listed, active, rest);
      Commit(w, StopPending(ok), {});
      if !ok {
        ghost var before := log;
        Raise();
        GoesOn(old(log), before, log, {}, {}, {});
      }
    }

    // ---- observe and detect ----

    /** The observations of this tick; without NVML or Docker every known GPU counts as unobserved. */
    method ObserveGpus(input: TickInput, spots: Listing) returns (observations: seq<GpuObservation>)
      modifies this`gpuList
      ensures gpuList == if input.gpus.Some? then input.gpus.value else old(gpuList)
      ensures |observations| == |gpuList|
      ensures forall i | 0 <= i < |gpuList| :: observations[i].uuid == gpuList[i].uuid
      ensures input.gpus.Some? && input.dockerUp ==>
        forall i | 0 <= i < |gpuList| ::
          SeesGpu(observations[i], gpuList[i], gpuList, input.readings, input.owners, SpotGpus(spots), input.ownerCpu)
      ensures forall o | o in observations :: Shows(o, input, if input.dockerUp then Some(spots) else None)
    {
      if input.gpus.Some? {
        gpuList := input.gpus.value;
        if input.dockerUp {
          observations := Observe(gpuList, input.readings, input.owners, SpotGpus(spots), input.ownerCpu);
          return;
        }
      }
      observations := [];
      for i := 0 to |gpuList|
        invariant |observations| == i
        invariant forall k | 0 <= k < i :: observations[k] == FailedObservation(gpuList[k].uuid, gpuList[k].name)
      {
        observations := observations + [FailedObservation(gpuList[i].uuid, gpuList[i].name)];
      }
    }

    /** Shows one observation to a tracker. */
    method Look(tracker: GpuTracker, obs: GpuObservation, active: seq<RunningSpot>, now: Time, blocked: bool)
      returns (v: GpuVerdict)
      requires TrackerOk(tracker, now)
      modifies tracker
      ensures TrackerOk(tracker, now)
      ensures FollowsFrom(v, tracker.history, obs.uuid, now, cfg, active, blocked)
      ensures LastLook(tracker.history) == obs
      ensures tracker.history == old(tracker.history).Push(Sighting(obs, now, cfg.idle))
    {
      var lent := IsLent(active, obs.uuid);
      var reclaiming := IsReclaiming(active, obs.uuid);
      HistoryGrows(tracker.history, Sighting(obs, now, cfg.idle));
      v := tracker.Update(obs, now, cfg.idle, cfg.reclaim, lent, reclaiming, blocked);
    }

    /** The tracker of an observed GPU, created on first sight. */
    method TrackerFor(obs: GpuObservation, now: Time) returns (tracker: GpuTracker)
      requires TrackersValid(now)
      modifies this`trackers
      ensures TrackersValid(now)
      ensures trackers == old(trackers)[obs.uuid := tracker]
      ensures if obs.uuid in old(trackers) then tracker == old(trackers)[obs.uuid] else fresh(tracker)
      ensures obs.uuid !in old(trackers) ==> tracker.history == History(obs, now, [])
    {
      if obs.uuid in trackers {
        return trackers[obs.uuid];
      }
      tracker := new GpuTracker(obs, now);
      trackers := trackers[obs.uuid := tracker];
    }

    /** Shows one observation to the tracker of its GPU and to no other tracker. */
    method DetectOne(obs: GpuObservation, active: seq<RunningSpot>, now: Time, blocked: bool) returns (v: GpuVerdict)
      requires TrackersValid(now)
      modifies this`trackers, if obs.uuid in trackers then {trackers[obs.uuid]} else {}
      ensures TrackersValid(now)
      ensures trackers.Keys == old(trackers).Keys + {obs.uuid}
      ensures forall u | u in old(trackers) :: trackers[u] == old(trackers)[u]
      ensures obs.uuid !in old(trackers) ==> fresh(trackers[obs.uuid])
      ensures forall u | u in old(trackers) && u != obs.uuid :: trackers[u].history == old(trackers[u].history)
      ensures FollowsFrom(v, trackers[obs.uuid].history, obs.uuid, now, cfg, active, blocked)
      ensures LastLook(trackers[obs.uuid].history) == obs
      ensures trackers[obs.uuid].history
           == (if obs.uuid in old(trackers) then old(trackers[obs.uuid].history) else History(obs, now, []))
              .Push(Sighting(obs, now, cfg.idle))
      ensures Histories() == old(Histories())[obs.uuid := Next(old(Histories()), Sighting(obs, now, cfg.idle))]
    {
      hide TrackerOk, FollowsFrom, LastLook;
      var tracker := TrackerFor(obs, now);
      assert trackers[obs.uuid] == tracker && TrackerOk(trackers[obs.uuid], now);
      v := Look(tracker, obs, active, now, blocked);
    }

    method Detect(observations: seq<GpuObservation>, active: seq<RunningSpot>, now: Time,
                  pausedAll: bool, pausedGpus: set<GpuId>) returns (verdicts: map<GpuId, GpuVerdict>)
      requires TrackersValid(now)
      modifies this`trackers, trackers.Values
      ensures TrackersValid(now)
      ensures fresh(trackers.Values - old(trackers.Values))
      ensures WereShown(old(Histories()), Histories(), observations, now, cfg.idle)
      ensures forall o | o in observations :: o.uuid in verdicts
      ensures forall u | u in verdicts ::
        && u in trackers
        && FollowsFrom(verdicts[u], trackers[u].history, u, now, cfg, active, pausedAll || u in pausedGpus)
        && LastLook(trackers[u].history) in observations
    {
      hide TrackersValid, Histories, FollowsFrom, LastLook, WereShown, Next;
      NoneShown(Histories(), observations, now, cfg.idle);
      verdicts := map[];
      for i := 0 to |observations|
        invariant TrackersValid(now)
        invariant fresh(trackers.Values - old(trackers.Values))
        invariant WereShown(old(Histories()), Histories(), observations, now, cfg.idle)
        invariant forall k | 0 <= k < i :: observations[k].uuid in verdicts
        invariant forall u | u in verdicts ::
          && u in trackers
          && FollowsFrom(verdicts[u], trackers[u].history, u, now, cfg, active, pausedAll || u in pausedGpus)
          && LastLook(trackers[u].history) in observations
      {
        var obs := observations[i];
        ghost var before := Histories();
        var v := DetectOne(obs, active, now, pausedAll || obs.uuid in pausedGpus);
        OneMoreShown(old(Histories()), before, observations, Sighting(obs, now, cfg.idle));
        verdicts := verdicts[obs.uuid := v];
      }
    }

    // ---- reclaim and launch ----

    /** Marks the job as preempting, then stops its container. */
    method ReclaimOne(r: Reclaim, ghost rest: seq<Reclaim>, ghost launches: seq<Launch>) returns (ok: bool)
      requires Sound() && pc == Acting(None, [r] + rest, launches)
      modifies this`stopIssued, this`pc, this`log, store, docker`containers, docker`stops
      ensures Sound() && Goes(old(log), log, {}) && NextIs(old(log), log, MarkReclaim)
      ensures stopIssued == old(stopIssued) + {r.container}
      ensures docker.stops == old(docker.stops) + [StopCall(r.container, ok)]
      ensures !IsRunning(store.Table(), r.jobId)
      ensures pc == if ok then Acting(None, rest, launches) else Broken
      ensures ok ==> StraightFrom(log, |old(log).actions|)
    {
      hide Execution, Goes, Holding, StraightFrom;
      assert ([r] + rest)[0] == r && ([r] + rest)[1..] == rest;
      ghost var w := Current();
      store.MarkPreempting(r.jobId);
      pc := Acting(Some(r.container), rest, launches);
      PreemptIsQuiet(w.t, r.jobId);
      Commit(w, MarkReclaim, {});
      ghost var before := log;
      ok := StopMarked(r.container, rest, launches);
      GoesOn(old(log), before, log, {}, {}, {});
      NextStays(old(log), before, log, MarkReclaim);
      if ok { StraightTwice(before, log, |old(log).actions|, {}); }
    }

    method StopMarked(c: ContainerId, ghost rest: seq<Reclaim>, ghost launches: seq<Launch>) returns (ok: bool)
      requires Sound() && pc == Acting(Some(c), rest, launches)
      modifies this`stopIssued, this`pc, this`log, store, docker`containers, docker`stops
      ensures Sound() && Goes(old(log), log, {})
      ensures stopIssued == old(stopIssued) + {c} && docker.stops == old(docker.stops) + [StopCall(c, ok)]
      ensures forall j | IsRunning(store.Table(), j) :: IsRunning(old(store.Table()), j)
      ensures pc == if ok then Acting(None, rest, launches) else Broken
      ensures ok ==> StraightFrom(log, |old(log).actions|)
    {
      hide Execution, Goes, Holding, StraightFrom;
      ghost var w := Current();
      ok := Stop(c);
      pc := Acting(None, rest, launches);
      Commit(w, StopReclaimed(ok), {});
      if !ok {
        ghost var before := log;
        Raise();
        GoesOn(old(log), before, log, {}, {}, {});
      }
    }

    /** Starts one planned job. Between the check, `docker run` and the record the job may be cancelled. Only
        this launch can leave a new container or a new active job, on its own GPU. */
    method LaunchOne(l: Launch, ghost rest: seq<Launch>) returns (ok: bool)
      requires Sound() && pc == Acting(None, [], [l] + rest)
      modifies this`pc, this`log, store, docker`containers, docker`nextContainer
      ensures Sound() && pc == if ok then Acting(None, [], rest) else Broken
      ensures ok <==> !RefusedIn(log, |old(log).actions|)
      ensures Goes(old(log), log, {l}) && ConsideredAt(log, |old(log).actions|, l)
      ensures DockerFrom(old(Current()), Current(), {l})
      ensures LeasesFrom(Holding(old(store.Table())), Holding(store.Table()), {l})
      ensures StraightFrom(log, |old(log).actions|)
    {
      hide Execution, Goes, DockerFrom, LeasesFrom, Holding, Undisturbed, RefusedIn;
      assert ([l] + rest)[0] == l && ([l] + rest)[1..] == rest;
      ghost var w := Current();
      LogShape(log, cfg.maxAttempts);
      var rec := store.Get(l.jobId);
      if rec.None? || rec.value.state != Queued {
        pc := Acting(None, [], rest);
        Record(w, CheckLaunch, {l});
        RefusedByStep(old(log), CheckLaunch, Current());
        NextConsidered(old(log), log, l, {l});
        OnlyTheseAreLent(old(log), log, {l}, cfg.maxAttempts);
        return true;
      }
      var attempt := store.NextAttempt(l.jobId);
      pc := Starting(l, attempt, rest);
      Commit(w, CheckLaunch, {l});
      NextConsidered(old(log), log, l, {l});
      ghost var before := log;
      ok := StartOne(l, attempt, rest);
      RefusedTwice(old(log), before, log, {l}, {l});
      GoesOn(old(log), before, log, {l}, {l}, {l});
      StillConsidered(before, log, |old(log).actions|, l, {l});
      StraightTwice(before, log, |old(log).actions|, {l});
      OnlyTheseAreLent(old(log), log, {l}, cfg.maxAttempts);
    }

    method StartOne(l: Launch, attempt: nat, ghost rest: seq<Launch>) returns (ok: bool)
      requires Sound() && pc == Starting(l, attempt, rest)
      modifies this`pc, this`log, store, docker`containers, docker`nextContainer
      ensures Sound() && pc == (if ok then Acting(None, [], rest) else Broken) && Goes(old(log), log, {l})
      ensures ok <==> !RefusedIn(log, |old(log).actions|)
      ensures StraightFrom(log, |old(log).actions|)
    {
      hide Execution, Goes, RefusedIn, StraightFrom;
      var container := RunSpot(l, attempt, rest);
      ghost var before := log;
      if container.None? {
        RecordFailed(l, rest);
        ok := true;
      } else {
        ok := RecordStarted(l, container.value, rest);
      }
      StraightTwice(before, log, |old(log).actions|, {l});
      RefusedTwice(old(log), before, log, {l}, {l});
      GoesOn(old(log), before, log, {l}, {l}, {l});
    }

    method RunSpot(l: Launch, attempt: nat, ghost rest: seq<Launch>) returns (container: Option<ContainerId>)
      requires Sound() && pc == Starting(l, attempt, rest)
      modifies this`pc, this`log, store, docker`containers, docker`nextContainer
      ensures Sound() && Goes(old(log), log, {l}) && !RefusedIn(log, |old(log).actions|)
      ensures pc == if container.Some? then Started(l, container.value, rest) else Failing(l, rest)
      ensures StraightFrom(log, |old(log).actions|)
    {
      hide Execution, Goes, Undisturbed, InUse, RefusedIn, StraightFrom;
      ghost var w := Current();
      var leftover;
      container, leftover := docker.Run(Name(l.jobId, attempt), l.gpu);
      pc := if container.Some? then Started(l, container.value, rest) else Failing(l, rest);
      Commit(w, if container.Some? then RunContainer else RunFails(leftover), {l});
    }

    method RecordFailed(l: Launch, ghost rest: seq<Launch>)
      requires Sound() && pc == Failing(l, rest)
      modifies this`pc, this`log, store, docker`containers
      ensures Sound() && pc == Acting(None, [], rest) && Goes(old(log), log, {l})
      ensures !RefusedIn(log, |old(log).actions|) && StraightFrom(log, |old(log).actions|)
    {
      hide Execution, Goes, Undisturbed, RefusedIn, StraightFrom;
      ghost var w := Current();
      var now: Time := *;
      store.Fail(l.jobId, now);
      pc := Acting(None, [], rest);
      Commit(w, RecordFailure(now), {l});
    }

    /** Records the start; when the job is no longer queued the store refuses and the tick fails. */
    method RecordStarted(l: Launch, c: ContainerId, ghost rest: seq<Launch>) returns (ok: bool)
      requires Sound() && pc == Started(l, c, rest)
      modifies this`pc, this`log, store, docker`containers
      ensures Sound() && pc == (if ok then Acting(None, [], rest) else Broken) && Goes(old(log), log, {l})
      ensures ok <==> !RefusedIn(log, |old(log).actions|)
      ensures StraightFrom(log, |old(log).actions|)
    {
      hide Execution, Goes, Undisturbed, RefusedIn, StraightFrom;
      ghost var w := Current();
      var now: Time := *;
      var attempt := store.MarkRunning(l.jobId, l.gpu, c, now);
      ok := attempt.Some?;
      pc := if ok then Acting(None, [], rest) else Broken;
      Commit(w, RecordRunning(now), {l});
    }

    /** Reclaims first, then launches: every reclaim is stopped and every launch considered. */
    method Act(p: Plan) returns (ok: bool)
      requires Sound() && pc == Acting(None, p.reclaims, p.launches)
      modifies this`stopIssued, this`pc, this`log, store, docker`containers, docker`nextContainer, docker`stops
      ensures Sound() && pc == if ok then Resting else Broken
      ensures Goes(old(log), log, LaunchSet(p.launches)) && old(stopIssued) <= stopIssued
      ensures ok ==> forall r | r in p.reclaims :: r.container in stopIssued
      ensures ok ==> NewStopsStarted(old(stopIssued), stopIssued, old(docker.stops), docker.stops)
      ensures ok ==> forall l | l in p.launches :: Considered(log, |old(log).actions|, l)
      ensures ok <==> AllStarted(docker.stops, |old(docker.stops)|) && !RefusedIn(log, |old(log).actions|)
      ensures OnlyFor(p.reclaims, old(docker.stops), docker.stops)
      ensures ok ==> StraightFrom(log, |old(log).actions|)
    {
      hide Execution, Goes, NewStopsStarted, Considered, AllStarted, RefusedIn, OnlyFor, StraightFrom;
      ok := ReclaimThem(p.reclaims, p.launches);
      ghost var before := log;
      NothingRefused(old(log), log);
      if !ok {
        GoesMore(old(log), log, {}, LaunchSet(p.launches));
        return;
      }
      ok := LaunchThem(p.launches);
      RefusedTwice(old(log), before, log, {}, LaunchSet(p.launches));
      GoesOn(old(log), before, log, {}, LaunchSet(p.launches), LaunchSet(p.launches));
      if !ok { return; }
      ConsideredSince(old(log), before, log, p.launches);
      StraightTwice(before, log, |old(log).actions|, LaunchSet(p.launches));
      before := log;
      EndTheTick();
      StraightTwice(before, log, |old(log).actions|, {});
      NothingRefused(before, log);
      RefusedTwice(old(log), before, log, LaunchSet(p.launches), {});
      GoesOn(old(log), before, log, LaunchSet(p.launches), {}, LaunchSet(p.launches));
      ConsideredLater(before, log, |old(log).actions|, p.launches, {});
    }

    ghost method EndTheTick()
      requires Sound() && pc == Acting(None, [], [])
      modifies this`pc, this`log
      ensures Sound() && pc == Resting && Goes(old(log), log, {}) && StraightFrom(log, |old(log).actions|)
    {
      hide Execution, Goes;
      ghost var w := Current();
      pc := Resting;
      Record(w, EndTick, {});
    }

    method ReclaimThem(reclaims: seq<Reclaim>, ghost launches: seq<Launch>) returns (ok: bool)
      requires Sound() && pc == Acting(None, reclaims, launches)
      modifies this`stopIssued, this`pc, this`log, store, docker`containers, docker`stops
      ensures Sound() && pc == if ok then Acting(None, [], launches) else Broken
      ensures Goes(old(log), log, {}) && old(stopIssued) <= stopIssued
      ensures ok ==> forall r | r in reclaims :: r.container in stopIssued
      ensures ok ==> NewStopsStarted(old(stopIssued), stopIssued, old(docker.stops), docker.stops)
      ensures ok <==> AllStarted(docker.stops, |old(docker.stops)|)
      ensures OnlyFor(reclaims, old(docker.stops), docker.stops)
      ensures ok ==> StraightFrom(log, |old(log).actions|)
    {
      StandStill();
      assert AllStarted(docker.stops, |docker.stops|) && OnlyFor(reclaims, docker.stops, docker.stops);
      hide Execution, Goes, NewStopsStarted, StraightFrom, AllStarted, StopStarted, OnlyFor;
      NoNewStops(stopIssued, docker.stops);
      for i := 0 to |reclaims|
        invariant |old(docker.stops)| <= |docker.stops| && AllStarted(docker.stops, |old(docker.stops)|)
        invariant OnlyFor(reclaims, old(docker.stops), docker.stops)
        invariant Sound() && pc == Acting(None, reclaims[i..], launches)
        invariant Goes(old(log), log, {}) && old(stopIssued) <= stopIssued
        invariant NewStopsStarted(old(stopIssued), stopIssued, old(docker.stops), docker.stops)
        invariant StraightFrom(log, |old(log).actions|)
        invariant forall k | 0 <= k < i :: reclaims[k].container in stopIssued
      {
        assert reclaims[i..] == [reclaims[i]] + reclaims[i + 1..];
        ghost var before, issued, stops := log, stopIssued, docker.stops;
        ok := ReclaimOne(reclaims[i], reclaims[i + 1..], launches);
        GoesOn(old(log), before, log, {}, {}, {});
        OneMoreStarted(stops, reclaims[i].container, ok, |old(docker.stops)|);
        OneMoreFor(reclaims, i, old(docker.stops), stops, ok);
        if !ok { return; }
        StraightTwice(before, log, |old(log).actions|, {});
        OneStopStarted(issued, stops, reclaims[i].container);
        NewStopsTwice(old(stopIssued), issued, stopIssued, old(docker.stops), stops, docker.stops);
      }
      assert reclaims[|reclaims|..] == [];
      ok := true;
    }

    method LaunchThem(launches: seq<Launch>) returns (ok: bool)
      requires Sound() && pc == Acting(None, [], launches)
      modifies this`pc, this`log, store, docker`containers, docker`nextContainer
      ensures Sound() && pc == if ok then Acting(None, [], []) else Broken
      ensures Goes(old(log), log, LaunchSet(launches))
      ensures ok ==> forall l | l in launches :: Considered(log, |old(log).actions|, l)
      ensures ok <==> !RefusedIn(log, |old(log).actions|)
      ensures StraightFrom(log, |old(log).actions|)
    {
      StandStill();
      NothingRefused(log, log);
      hide Execution, Goes, Considered, ConsideredAt, DockerFrom, LeasesFrom, RefusedIn, StraightFrom, LaunchSet;
      GoesMore(log, log, {}, LaunchSet(launches));
      assert launches[0..] == launches;
      for i := 0 to |launches|
        invariant Sound() && pc == Acting(None, [], launches[i..])
        invariant Goes(old(log), log, LaunchSet(launches))
        invariant forall l | l in launches[..i] :: Considered(log, |old(log).actions|, l)
        invariant !RefusedIn(log, |old(log).actions|) && StraightFrom(log, |old(log).actions|)
      {
        assert launches[i..] == [launches[i]] + launches[i + 1..];
        ghost var before := log;
        ok := LaunchOne(launches[i], launches[i + 1..]);
        OneMoreLaunched(old(log), before, log, launches, i);
        if !ok { return; }
      }
      assert launches[|launches|..] == [] && launches[..|launches|] == launches;
      ok := true;
    }

    // ---- giving everything back ----

    /** Asks for a stop of every job that is active now, on shutdown or after a failed tick. When every stop
        could be started, no job is active any more whose container was not told to stop. */
    method ReclaimAll() returns (ok: bool)
      requires Sound() && (pc == Resting || pc == Broken)
      modifies this`stopIssued, this`pc, this`log, store, docker`containers, docker`stops
      ensures Sound() && pc == Resting && Goes(old(log), log, {})
      ensures old(docker.stops) <= docker.stops
      ensures ok ==> forall j | j in Holding(store.Table()) ::
        StopStarted(Holding(store.Table())[j].container, docker.stops, |old(docker.stops)|)
      ensures ok <==> AllStarted(docker.stops, |old(docker.stops)|)
      ensures NextIs(old(log), log, BeginDrain)
    {
      hide Execution, Goes, Enabled, Apply, Holding, ReadFrom, StopStarted, StraightFrom, NextIs;
      ghost var h := Holding(store.Table());
      LogShape(log, cfg.maxAttempts);
      var active := BeginDraining();
      assert active[0..] == active;
      for i := 0 to |active|
        invariant Sound() && pc == Draining(active[i..]) && Goes(old(log), log, {})
        invariant old(docker.stops) <= docker.stops && AllStarted(docker.stops, |old(docker.stops)|)
        invariant NextIs(old(log), log, BeginDrain)
        invariant forall k | 0 <= k < i :: StopStarted(active[k].container, docker.stops, |old(docker.stops)|)
      {
        assert active[i..] == [active[i]] + active[i + 1..];
        ghost var before, stops := log, docker.stops;
        ok := DrainOne(active[i], active[i + 1..]);
        GoesOn(old(log), before, log, {}, {}, {});
        NextStays(old(log), before, log, BeginDrain);
        OneMoreStarted(stops, active[i].container, ok, |old(docker.stops)|);
        if !ok {
          before := log;
          EndDraining();
          GoesOn(old(log), before, log, {}, {}, {});
          NextStays(old(log), before, log, BeginDrain);
          return;
        }
        StoppedSince(active, i, stops, docker.stops, |old(docker.stops)|);
      }
      ghost var before := log;
      EndDraining();
      GoesOn(old(log), before, log, {}, {}, {});
      NextStays(old(log), before, log, BeginDrain);
      OnlyTheseAreLent(old(log), log, {}, cfg.maxAttempts);
      EveryRowStopped(h, Holding(store.Table()), active, docker.stops, |old(docker.stops)|);
      ok := true;
    }

    method BeginDraining() returns (active: seq<RunningSpot>)
      requires Sound() && (pc == Resting || pc == Broken)
      modifies this`pc, this`log, store, docker`containers
      ensures Sound() && pc == Draining(active) && Goes(old(log), log, {})
      ensures ReadFrom(active, Holding(old(store.Table()))) && NextIs(old(log), log, BeginDrain)
    {
      ActiveRowsAreLeases(log, cfg.maxAttempts);
      hide Execution, Goes, ReadFrom, Undisturbed;
      ghost var w := Current();
      active := store.Active();
      pc := Draining(active);
      Commit(w, BeginDrain, {});
    }

    ghost method EndDraining()
      requires Sound() && pc.Draining?
      modifies this`pc, this`log
      ensures Sound() && pc == Resting && Goes(old(log), log, {})
    {
      hide Execution, Goes;
      Advance(EndDrain);
    }

    method DrainOne(a: RunningSpot, ghost rest: seq<RunningSpot>) returns (ok: bool)
      requires Sound() && pc == Draining([a] + rest)
      modifies this`stopIssued, this`pc, this`log, store, docker`containers, docker`stops
      ensures Sound() && pc == Draining(rest) && Goes(old(log), log, {})
      ensures stopIssued == old(stopIssued) + {a.container}
      ensures docker.stops == old(docker.stops) + [StopCall(a.container, ok)]
    {
      StandStill();
      hide Execution, Goes, Undisturbed;
      ghost var row := a.(reclaiming := true);
      MarkDraining(a, rest);
      ghost var w, before := Current(), log;
      assert ([row] + rest)[0] == row && ([row] + rest)[1..] == rest;
      ok := Stop(a.container);
      pc := Draining(rest);
      Commit(w, DrainStop(ok), {});
      GoesOn(old(log), before, log, {}, {}, {});
    }

    method MarkDraining(a: RunningSpot, ghost rest: seq<RunningSpot>)
      requires Sound() && pc == Draining([a] + rest)
      modifies this`pc, this`log, store, docker`containers
      ensures Sound() && pc == Draining([a.(reclaiming := true)] + rest) && Goes(old(log), log, {})
    {
      StandStill();
      hide Execution, Goes, Undisturbed;
      assert ([a] + rest)[0] == a && ([a] + rest)[1..] == rest;
      if !a.reclaiming {
        ghost var w := Current();
        store.MarkPreempting(a.jobId);
        pc := Draining([a.(reclaiming := true)] + rest);
        Commit(w, DrainMark, {});
      } else {
        assert a.(reclaiming := true) == a;
      }
    }

    // ---- one tick ----

    /** Asks Docker for the spot containers; without an answer nothing is reconciled or launched. */
    method ListSpots(dockerUp: bool) returns (spots: Listing)
      requires Sound() && pc == Resting
      modifies this`pc, this`log, store, docker`containers
      ensures Sound() && pc == (if dockerUp then Listed(spots) else Ready(None)) && Goes(old(log), log, {})
      ensures spots == if dockerUp then old(docker.containers) else map[]
      ensures NextIs(old(log), log, if dockerUp then TakeListing else SkipListing)
      ensures Holding(store.Table()) == Holding(old(store.Table()))
    {
      hide Execution, Goes, Holding;
      ghost var w := Current();
      spots := map[];
      if dockerUp {
        spots := docker.containers;
        pc := Listed(spots);
        Commit(w, TakeListing, {});
      } else {
        pc := Ready(None);
        Commit(w, SkipListing, {});
      }
    }

    /** Plans on the snapshot, the verdicts of this tick and the queue as it is now. */
    method MakePlan(input: TickInput, ghost listed: Option<Listing>, active: seq<RunningSpot>) returns (p: Plan)
      requires Sound() && pc == Stopping(listed, active, [])
      requires listed.Some? <==> input.dockerUp
      modifies this`pc, this`log, store, docker`containers
      ensures Sound() && pc == Acting(None, p.reclaims, p.launches) && Goes(old(log), log, {})
      ensures p.reclaims == Reclaims(active, lastVerdicts)
      ensures NextIs(old(log), log, Decide(p.reclaims, p.launches)) && StraightFrom(log, |old(log).actions| + 1)
      ensures LaunchesFirstFit(p.launches, lastVerdicts, active, old(store.Table()), input, cfg, matches)
      ensures WithinRam(p.launches, input, cfg)
      ensures !input.hookPresent && !cfg.allowUnenforced ==> p.launches == []
    {
      hide Execution, Goes, Undisturbed, LaunchesFirstFit, GoodPlan, StraightFrom, Refuses, RefusedIn, WithinRam;
      p := PlanNow(input, listed, active);
      ghost var w := Current();
      pc := Acting(None, p.reclaims, p.launches);
      Commit(w, Decide(p.reclaims, p.launches), {});
    }

    /** The plan for the tables as they are. */
    method PlanNow(input: TickInput, ghost listed: Option<Listing>, active: seq<RunningSpot>) returns (p: Plan)
      requires Sound() && pc == Stopping(listed, active, [])
      requires listed.Some? <==> input.dockerUp
      ensures p.reclaims == Reclaims(active, lastVerdicts)
      ensures LaunchesFirstFit(p.launches, lastVerdicts, active, store.Table(), input, cfg, matches)
      ensures WithinRam(p.launches, input, cfg)
      ensures !input.hookPresent && !cfg.allowUnenforced ==> p.launches == []
      ensures GoodPlan(listed.Some?, active, p.reclaims, p.launches)
    {
      StoreIsWellFormed(log, cfg.maxAttempts);
      SnapshotIsDistinct(log, cfg.maxAttempts);
      hide Execution, FirstFit, GoodPlan, WithinRam, ServesInOrder, NoneLeftOut;
      var budget := RamBudget(input, cfg);
      var queue: seq<QueuedJob> := [];
      if input.dockerUp {
        queue := store.Queued(cfg.defaultRam);
      }
      var enforced := input.hookPresent || cfg.allowUnenforced;
      p := PlanActions(lastVerdicts, active, queue, budget, enforced, matches);
      PlanIsGood(p, listed.Some?, active, lastVerdicts, queue, budget, enforced, matches);
      assert IsQueueOf(queue, store.Table(), input, cfg);
      FirstFitServes(p.launches, lastVerdicts, active, store.Table(), input, cfg, matches);
    }

    /** The first half of a tick: observe, reconcile, read the active jobs, judge every observed GPU. Nothing
        is started, and no stop is asked for. */
    method JudgeGpus(input: TickInput)
      returns (active: seq<RunningSpot>, ghost listed: Option<Listing>, ghost at: Moments)
      requires Sound() && pc == Resting && TrackersValid(lastTick) && lastTick <= input.now
      modifies this, store, docker`containers, docker`stuck, trackers.Values
      ensures Sound() && pc == Stopping(listed, active, PendingStops(active, stopIssued))
      ensures Goes(old(log), log, {}) && lifeStart == old(lifeStart) && stopIssued <= old(stopIssued)
      ensures listed.Some? <==> input.dockerUp
      ensures listed.Some? ==> TakenAfter(listed.value, old(docker.containers))
      ensures ReadIn(log, |old(log).actions|, active, listed, at)
      ensures TrackersValid(lastTick) && lastTick == input.now
      ensures fresh(trackers.Values - old(trackers.Values))
      ensures NothingForgotten(old(Histories()), Histories(), lastTick)
      ensures OnlyShown(old(Histories()), Histories(), input, listed, cfg)
      ensures Judged(lastVerdicts, Histories(), input, listed, cfg, active,
                     old(store.pausedNode), old(store.pausedGpus))
      ensures gpuList == (if input.gpus.Some? then input.gpus.value else old(gpuList))
      ensures forall g | g in gpuList :: g.uuid in lastVerdicts
    {
      hide Execution, Goes, TrackerOk, Judged, Shows, PendingStops, NothingForgotten, TakenAfter, ReadIn, OnlyShown;
      var (pausedNode, pausedGpus) := store.Paused();
      var observations;
      observations, active, listed, at := ObserveAndReconcile(input);
      Judge(input, listed, observations, active, pausedNode, pausedGpus);
    }

    /** Looks at the GPUs, then cleans up what ended, then reads the active jobs. */
    method ObserveAndReconcile(input: TickInput)
      returns (observations: seq<GpuObservation>, active: seq<RunningSpot>, ghost listed: Option<Listing>,
               ghost at: Moments)
      requires Sound() && pc == Resting
      modifies this`gpuList, this`stopIssued, this`pc, this`log, store, docker`containers, docker`stuck
      ensures Sound() && pc == Stopping(listed, active, PendingStops(active, stopIssued))
      ensures Goes(old(log), log, {}) && stopIssued <= old(stopIssued)
      ensures listed.Some? <==> input.dockerUp
      ensures listed.Some? ==> TakenAfter(listed.value, old(docker.containers))
      ensures ReadIn(log, |old(log).actions|, active, listed, at)
      ensures gpuList == (if input.gpus.Some? then input.gpus.value else old(gpuList))
      ensures |observations| == |gpuList| && forall i | 0 <= i < |gpuList| :: observations[i].uuid == gpuList[i].uuid
      ensures forall o | o in observations :: Shows(o, input, listed)
    {
      hide Execution, Goes, Shows, PendingStops, Clean, Kept, QuietChange, Holding, ReadFrom, ReadIn, NextIs,
        ActiveRows;
      Interleave();
      ghost var first, listing := log, Current();
      var spots := ListSpots(input.dockerUp);
      ghost var before, looked := first, log;
      StandStill();
      GoesOn(old(log), before, log, {}, {}, {});
      observations := ObserveGpus(input, spots);
      if input.dockerUp {
        before := log;
        Reconcile(spots);
        GoesOn(old(log), before, log, {}, {}, {});
      }
      listed := if input.dockerUp then Some(spots) else None;
      before := log;
      ghost var reading := Current();
      active := TakeActive(listed);
      at := Moments(listing, reading, reading);
      WhatWasRead(old(log), first, looked, before, log, active, listed, at, cfg.maxAttempts);
      GoesOn(old(log), before, log, {}, {}, {});
    }

    /** Replaces the verdicts by those of this tick. */
    method Judge(input: TickInput, ghost listed: Option<Listing>, observations: seq<GpuObservation>,
                 active: seq<RunningSpot>, pausedNode: bool, pausedGpus: set<GpuId>)
      requires TrackersValid(lastTick) && lastTick <= input.now
      requires forall o | o in observations :: Shows(o, input, listed)
      modifies this`trackers, this`lastVerdicts, this`lastTick, trackers.Values
      ensures TrackersValid(lastTick) && lastTick == input.now
      ensures fresh(trackers.Values - old(trackers.Values))
      ensures NothingForgotten(old(Histories()), Histories(), lastTick)
      ensures OnlyShown(old(Histories()), Histories(), input, listed, cfg)
      ensures forall o | o in observations :: o.uuid in lastVerdicts
      ensures Judged(lastVerdicts, Histories(), input, listed, cfg, active, pausedNode, pausedGpus)
    {
      hide TrackerOk, Judged, Shows, NothingForgotten, OnlyShown;
      var verdicts := JudgeObserved(input, listed, observations, active, pausedNode, pausedGpus);
      lastVerdicts := verdicts;
      lastTick := input.now;
    }

    /** Turns this tick's observations into verdicts. */
    method JudgeObserved(input: TickInput, ghost listed: Option<Listing>, observations: seq<GpuObservation>,
                         active: seq<RunningSpot>, pausedNode: bool, pausedGpus: set<GpuId>)
      returns (verdicts: map<GpuId, GpuVerdict>)
      requires TrackersValid(lastTick) && lastTick <= input.now
      requires forall o | o in observations :: Shows(o, input, listed)
      modifies this`trackers, trackers.Values
      ensures TrackersValid(input.now)
      ensures fresh(trackers.Values - old(trackers.Values))
      ensures NothingForgotten(old(Histories()), Histories(), input.now)
      ensures OnlyShown(old(Histories()), Histories(), input, listed, cfg)
      ensures forall o | o in observations :: o.uuid in verdicts
      ensures Judged(verdicts, Histories(), input, listed, cfg, active, pausedNode, pausedGpus)
    {
      TrackersAge(trackers, lastTick, input.now);
      hide TrackerOk, FollowsFrom, LastLook, Judged, Shows, NothingForgotten, OnlyLooks, OnlyShown;
      verdicts := Detect(observations, active, input.now, input.killSwitch || pausedNode, pausedGpus);
      AllShown(old(Histories()), Histories(), observations, input, listed, cfg);
      AllJudged(verdicts, Histories(), observations, input, listed, cfg, active, pausedNode, pausedGpus);
    }

    /** The second half: pending stops, then the plan, made in the state `planning`. */
    method ActOnVerdicts(input: TickInput, active: seq<RunningSpot>, ghost listed: Option<Listing>)
      returns (completed: bool, ghost launches: seq<Launch>, ghost planning: World)
      requires Sound() && pc == Stopping(listed, active, PendingStops(active, stopIssued))
      requires listed.Some? <==> input.dockerUp
      modifies this`stopIssued, this`pc, this`log, store, docker`containers, docker`nextContainer, docker`stops
      ensures Sound() && pc == (if completed then Resting else Broken)
      ensures Goes(old(log), log, LaunchSet(launches))
      ensures completed ==> forall a | a in active ::
        a.container in stopIssued || (!a.reclaiming && !MustGo(a, lastVerdicts))
      ensures completed ==> NewStopsStarted(old(stopIssued), stopIssued, old(docker.stops), docker.stops)
      ensures completed || launches != [] ==>
        && LaunchesFirstFit(launches, lastVerdicts, active, planning.t, input, cfg, matches)
        && planning.pc == Stopping(listed, active, [])
        && Planned(log, |old(log).actions|, planning, Decide(Reclaims(active, lastVerdicts), launches), completed)
      ensures completed ==> forall l | l in launches :: Considered(log, |old(log).actions|, l)
      ensures completed <==> AllStarted(docker.stops, |old(docker.stops)|) && !RefusedIn(log, |old(log).actions|)
      ensures OnlyDueStops(active, lastVerdicts, old(stopIssued), old(docker.stops), docker.stops)
    {
      RunningRowsAreNotOnRecord(log, cfg.maxAttempts);
      hide Execution, Goes, LaunchesFirstFit, NewStopsStarted, Considered, RefusedIn, OnlyDueStops, OnlyFor, AllStarted,
        MustGo, Reclaims, PendingStops, Planned, LaunchSet, StopStarted;
      launches := [];
      completed := StopPendingOnes(listed, active);
      planning := Current();
      NothingRefused(old(log), log);
      if !completed {
        GoesMore(old(log), log, {}, LaunchSet([]));
        return;
      }
      ghost var before, issued, stops := log, stopIssued, docker.stops;
      completed, launches := PlanAndAct(input, active, listed);
      ReclaimStopsAreDue(active, lastVerdicts, old(stopIssued), old(docker.stops), stops, docker.stops);
      AllStartedTwice(old(docker.stops), stops, docker.stops);
      RefusedTwice(old(log), before, log, {}, LaunchSet(launches));
      GoesOn(old(log), before, log, {}, LaunchSet(launches), LaunchSet(launches));
      PlannedSince(log, |old(log).actions|, |before.actions|, planning,
                   Decide(Reclaims(active, lastVerdicts), launches), completed);
      if completed {
        NewStopsTwice(old(stopIssued), issued, stopIssued, old(docker.stops), stops, docker.stops);
        ConsideredSince(old(log), before, log, launches);
      }
    }

    /** Plans and carries the plan out. */
    method PlanAndAct(input: TickInput, active: seq<RunningSpot>, ghost listed: Option<Listing>)
      returns (completed: bool, ghost launches: seq<Launch>)
      requires Sound() && pc == Stopping(listed, active, [])
      requires listed.Some? <==> input.dockerUp
      modifies this`stopIssued, this`pc, this`log, store, docker`containers, docker`nextContainer, docker`stops
      ensures Sound() && pc == (if completed then Resting else Broken)
      ensures Goes(old(log), log, LaunchSet(launches)) && old(stopIssued) <= stopIssued
      ensures completed ==> forall a | a in active && MustGo(a, lastVerdicts) :: a.container in stopIssued
      ensures completed ==> NewStopsStarted(old(stopIssued), stopIssued, old(docker.stops), docker.stops)
      ensures LaunchesFirstFit(launches, lastVerdicts, active, old(store.Table()), input, cfg, matches)
      ensures Planned(log, |old(log).actions|, old(Current()), Decide(Reclaims(active, lastVerdicts), launches),
                      completed)
      ensures completed ==> forall l | l in launches :: Considered(log, |old(log).actions|, l)
      ensures completed <==> AllStarted(docker.stops, |old(docker.stops)|) && !RefusedIn(log, |old(log).actions|)
      ensures OnlyFor(Reclaims(active, lastVerdicts), old(docker.stops), docker.stops)
    {
      hide Execution, Goes, LaunchesFirstFit, NewStopsStarted, Considered, RefusedIn, OnlyFor, AllStarted, MustGo,
        Reclaims, StraightFrom, Planned, NextIs, WithinRam, LaunchSet, StopStarted, Undisturbed, Holding;
      ghost var start := log;
      var p := MakePlan(input, listed, active);
      launches := p.launches;
      ghost var before := log;
      completed := Act(p);
      WhatThePlanDid(start, before, log, p, completed, cfg.maxAttempts);
      if completed {
        AllReclaimed(active, lastVerdicts, stopIssued);
      }
    }

    /** One iteration: observe, reconcile, detect, plan, act. `snap` holds the active jobs the tick judged,
        `launches` what it started, `listed` what Docker had listed, `at` the states in which it read and planned. */
    method Tick(input: TickInput)
      returns (completed: bool, ghost snap: seq<RunningSpot>, ghost launches: seq<Launch>,
               ghost listed: Option<Listing>, ghost at: Moments)
      requires Sound() && pc == Resting && TrackersValid(lastTick) && lastTick <= input.now
      modifies this, store, docker, trackers.Values
      ensures Sound() && pc == (if completed then Resting else Broken) && lifeStart == old(lifeStart)
      ensures TrackersValid(lastTick) && lastTick == input.now
      // it read the active jobs and what Docker listed, made its plan of that, and carried it out to the end
      ensures ReadIn(log, |old(log).actions|, snap, listed, at)
      ensures completed || launches != [] ==>
        PlannedIn(log, |old(log).actions|, snap, listed, at, lastVerdicts, launches, completed)
      // every lease it leaves is one it read, or that of a launch
      ensures Covered(Holding(store.Table()), snap, LaunchSet(launches))
      // every listed GPU is judged, on what was read from it now and on its whole history
      ensures fresh(trackers.Values - old(trackers.Values))
      ensures NothingForgotten(old(Histories()), Histories(), lastTick)
      ensures OnlyShown(old(Histories()), Histories(), input, listed, cfg)
      ensures gpuList == (if input.gpus.Some? then input.gpus.value else old(gpuList))
      ensures forall g | g in gpuList :: g.uuid in lastVerdicts
      ensures Judged(lastVerdicts, Histories(), input, listed, cfg, snap, old(store.pausedNode), old(store.pausedGpus))
      // nothing but the launches is started: new containers and newly active jobs are on their GPUs
      ensures Goes(old(log), log, LaunchSet(launches))
      ensures DockerFrom(old(Current()), Current(), LaunchSet(launches))
      ensures LeasesFrom(Holding(old(store.Table())), Holding(store.Table()), LaunchSet(launches))
      // owner first: a GPU is lent only after a proven quiet window
      ensures forall l | l in launches :: LentQuietly(l, Histories(), lastTick, cfg)
      // fail safe: a job that was not told to stop sits on a GPU seen, calm, roomy enough and not blocked
      ensures completed ==> forall a | a in snap ::
        || ToldToStop(a.container, old(stopIssued), old(docker.stops), docker.stops, lifeStart)
        || (a.gpu !in old(store.pausedGpus) && StillLent(a.gpu, lastVerdicts, Histories(), lastTick, cfg))
      // every job to be stopped has a stop started, if and only if its stop was not lost before
      ensures completed ==>
        StoppedUnlessLost(snap, lastVerdicts, old(stopIssued), old(docker.stops), docker.stops, lifeStart)
      // it asks for a stop only where one is due, and never for one that was on record before
      ensures OnlyDueStops(snap, lastVerdicts, old(stopIssued), old(docker.stops), docker.stops)
      ensures forall c | c in old(stopIssued) ::
        StopStarted(c, docker.stops, lifeStart) <==> StopStarted(c, old(docker.stops), lifeStart)
      // it fails exactly when one of its stops could not be started or a start was refused
      ensures completed <==> AllStarted(docker.stops, |old(docker.stops)|) && !RefusedIn(log, |old(log).actions|)
      // on any doubt nothing is lent, nothing becomes active and everything is given back
      ensures Doubtful(input, old(store.pausedNode)) ==>
        && launches == [] && docker.nextContainer == old(docker.nextContainer)
        && (forall j | j in Holding(store.Table()) ::
              j in Holding(old(store.Table())) && Holding(store.Table())[j] == Holding(old(store.Table()))[j])
        && (completed ==> forall a | a in snap ::
              ToldToStop(a.container, old(stopIssued), old(docker.stops), docker.stops, lifeStart))
      // draining: once no active job's container runs, a tick with Docker leaves no active job it did not start
      ensures input.dockerUp && Drained(old(Current())) ==>
        LeasesFrom(map[], Holding(store.Table()), LaunchSet(launches))
      // otherwise the queue is served first fit, and every launch is carried through
      ensures completed || launches != [] ==>
        LaunchesFirstFit(launches, lastVerdicts, snap, at.planning.t, input, cfg, matches)
      ensures completed ==> forall l | l in launches :: Considered(log, |old(log).actions|, l)
      // in terms of the tables: by priority, within the RAM beyond the host's reserve, leaving out nothing that fits
      ensures WithinRam(launches, input, cfg)
      ensures !input.hookPresent && !cfg.allowUnenforced ==> launches == []
      ensures completed || launches != [] ==>
        ServesInOrder(launches, lastVerdicts, at.planning.t, input, cfg, matches)
      ensures completed && input.dockerUp && (input.hookPresent || cfg.allowUnenforced) ==>
        NoneLeftOut(launches, lastVerdicts, snap, at.planning.t, input, cfg, matches)
      // jobs judged after a reconcile were listed as running: ended ones are out of the way
      ensures listed.Some? <==> input.dockerUp
      ensures listed.Some? ==> forall a | a in snap :: StillRunning(listed.value, a)
    {
      hide Execution, Goes, TrackerOk, Judged, LaunchesFirstFit, NothingForgotten, Considered, DockerFrom, LeasesFrom,
        Holding, NewStopsStarted, ToldToStop, StillLent, LentQuietly, PendingStops, TakenAfter, Drained, MustGo,
        TrackersValid, Histories, OnlyDueStops, AllStarted, RefusedIn, StopStarted, StopFailed, Doubtful, NextIs,
        WithinRam, ServesInOrder, NoneLeftOut, StoppedUnlessLost, ReadIn, Planned, Covered, Reclaims, OnlyShown;
      ghost var start, w := log, Current();
      AllStopsWereAsked(log, cfg.maxAttempts);
      var active: seq<RunningSpot>;
      ghost var planning;
      active, listed, at := JudgeGpus(input);
      snap := active;
      ghost var judged, issued, histories := log, stopIssued, Histories();
      SnapshotWasListed(log, cfg.maxAttempts);
      completed, launches, planning := ActOnVerdicts(input, active, listed);
      assert Histories() == histories;
      WhatTheTickRead(start, judged, log, active, listed, at, lastVerdicts, launches, planning, completed);
      at := at.(planning := planning);
      WhatTheTickLent(start, judged, log, listed, launches, cfg.maxAttempts);
      WhatTheTickStopped(start, judged, log, active, lastVerdicts, launches, issued, cfg.maxAttempts);
      if completed {
        WhatIsOnRecord(active, lastVerdicts, w.stopIssued, issued, stopIssued, w.stops, docker.stops, lifeStart);
        ConsideredSince(start, judged, log, launches);
      }
      WhatTheVerdictsMean(launches, active, lastVerdicts, histories, input, listed, planning.t, cfg, matches,
                          old(store.pausedNode), old(store.pausedGpus));
    }

    /** One round of the daemon loop: a tick, and if it fails, everything is given back. */
    method RunOnce(input: TickInput)
      returns (completed: bool, recovered: bool, ghost snap: seq<RunningSpot>, ghost launches: seq<Launch>,
               ghost listed: Option<Listing>, ghost at: Moments)
      requires Sound() && pc == Resting && TrackersValid(lastTick) && lastTick <= input.now
      modifies this, store, docker, trackers.Values
      ensures Sound() && pc == Resting && TrackersValid(lastTick) && lastTick == input.now
      ensures fresh(trackers.Values - old(trackers.Values)) && lifeStart == old(lifeStart)
      ensures NothingForgotten(old(Histories()), Histories(), lastTick)
      // what is decided follows from what could be read, now and before
      ensures OnlyShown(old(Histories()), Histories(), input, listed, cfg)
      ensures Grounded(log, |old(log).actions|, old(Current()), snap, listed, at, lastVerdicts, Histories(), launches,
                       input, cfg, matches, completed)
      ensures Goes(old(log), log, LaunchSet(launches))
      ensures forall l | l in launches :: LentQuietly(l, Histories(), lastTick, cfg)
      ensures Doubtful(input, old(store.pausedNode)) ==> launches == []
      ensures input.dockerUp && Drained(old(Current())) ==>
        LeasesFrom(map[], Holding(store.Table()), LaunchSet(launches))
      // after a round that completes every active job was told to stop, or is lent safely; on any doubt all were told
      ensures completed ==>
        HeldSafely(old(Current()), Current(), LaunchSet(launches), lastVerdicts, Histories(), lastTick, cfg)
      ensures completed && Doubtful(input, old(store.pausedNode)) ==> AllTold(old(Current()), Current())
      // it fails exactly when a stop could not be started or a start was refused
      ensures completed <==> AllStarted(docker.stops, |old(docker.stops)|) && !RefusedIn(log, |old(log).actions|)
      // then everything is given back, and every job still active told to stop, unless a stop of that fails
      ensures !completed ==> GaveBack(log, |old(log).actions|, Broken, docker.stops, recovered)
      ensures !completed && recovered ==> forall j | j in Holding(store.Table()) ::
        StopStarted(Holding(store.Table())[j].container, docker.stops, |old(docker.stops)|)
    {
      hide Execution, Goes, TrackerOk, NothingForgotten, LeasesFrom, Holding, LentQuietly, Drained, StopStarted,
        AllStarted, RefusedIn, GaveBack, HeldSafely, AllTold, Doubtful, OnlyShown, Grounded;
      ghost var start, stops, w := log, docker.stops, Current();
      completed, snap, launches, listed, at := TryTick(input);
      recovered := false;
      if !completed {
        ghost var histories, failed := Histories(), log;
        recovered := GiveBack(start, stops, launches);
        assert Histories() == histories;
        StillGrounded(failed, log, {}, |start.actions|, w, snap, listed, at, lastVerdicts, histories, launches, input,
                      cfg, matches);
      }
    }

    /** The tick of a round, as far as the rounds depend on it. */
    method TryTick(input: TickInput)
      returns (completed: bool, ghost snap: seq<RunningSpot>, ghost launches: seq<Launch>,
               ghost listed: Option<Listing>, ghost at: Moments)
      requires Sound() && pc == Resting && TrackersValid(lastTick) && lastTick <= input.now
      modifies this, store, docker, trackers.Values
      ensures Sound() && pc == (if completed then Resting else Broken)
      ensures TrackersValid(lastTick) && lastTick == input.now
      ensures fresh(trackers.Values - old(trackers.Values)) && lifeStart == old(lifeStart)
      ensures NothingForgotten(old(Histories()), Histories(), lastTick)
      // what is decided follows from what could be read, now and before
      ensures OnlyShown(old(Histories()), Histories(), input, listed, cfg)
      ensures Grounded(log, |old(log).actions|, old(Current()), snap, listed, at, lastVerdicts, Histories(), launches,
                       input, cfg, matches, completed)
      ensures Goes(old(log), log, LaunchSet(launches))
      ensures forall l | l in launches :: LentQuietly(l, Histories(), lastTick, cfg)
      ensures Doubtful(input, old(store.pausedNode)) ==> launches == []
      ensures input.dockerUp && Drained(old(Current())) ==>
        LeasesFrom(map[], Holding(store.Table()), LaunchSet(launches))
      // after a round that completes every active job was told to stop, or is lent safely; on any doubt all were told
      ensures completed ==>
        HeldSafely(old(Current()), Current(), LaunchSet(launches), lastVerdicts, Histories(), lastTick, cfg)
      ensures completed && Doubtful(input, old(store.pausedNode)) ==> AllTold(old(Current()), Current())
      ensures completed <==> AllStarted(docker.stops, |old(docker.stops)|) && !RefusedIn(log, |old(log).actions|)
    {
      hide Execution, Goes, TrackerOk, Judged, LaunchesFirstFit, NothingForgotten, Considered, DockerFrom, LeasesFrom,
        Holding, ToldToStop, StillLent, LentQuietly, Drained, StopStarted, OnlyDueStops, AllStarted, RefusedIn,
        HeldSafely, AllTold, Covered, ReadIn, PlannedIn, Doubtful, StoppedUnlessLost, OnlyShown;
      ghost var w := Current();
      completed, snap, launches, listed, at := Tick(input);
      if completed {
        RowsMakeLeasesSafe(snap, w, Current(), LaunchSet(launches), lastVerdicts, Histories(), lastTick, cfg);
        if Doubtful(input, w.t.pausedNode) {
          assert LaunchSet(launches) == {};
          RowsMakeLeasesTold(snap, w, Current());
        }
      }
    }

    /** After a failed tick: everything is given back. */
    method GiveBack(ghost start: Log, ghost stops: seq<StopCall>, ghost launches: seq<Launch>) returns (recovered: bool)
      requires Sound() && pc == Broken
      requires start.Runs(cfg.maxAttempts) && start.Now().stops == stops && Goes(start, log, LaunchSet(launches))
      requires !(AllStarted(docker.stops, |stops|) && !RefusedIn(log, |start.actions|))
      modifies this`stopIssued, this`pc, this`log, store, docker`containers, docker`stops
      ensures Sound() && pc == Resting && Goes(start, log, LaunchSet(launches)) && Goes(old(log), log, {})
      ensures LeasesFrom(map[], Holding(old(store.Table())), LaunchSet(launches)) ==>
        LeasesFrom(map[], Holding(store.Table()), LaunchSet(launches))
      ensures !(AllStarted(docker.stops, |stops|) && !RefusedIn(log, |start.actions|))
      ensures GaveBack(log, |start.actions|, Broken, docker.stops, recovered)
      ensures recovered ==> forall j | j in Holding(store.Table()) ::
        StopStarted(Holding(store.Table())[j].container, docker.stops, |stops|)
    {
      hide Execution, Goes, LeasesFrom, DockerFrom, Holding, StopStarted, AllStarted, RefusedIn, GaveBack;
      ghost var before, h, mid := log, Holding(store.Table()), docker.stops;
      LogShape(start, cfg.maxAttempts);
      OnlyTheseAreLent(start, before, LaunchSet(launches), cfg.maxAttempts);
      recovered := ReclaimAll();
      AfterGivingBack(start, before, log, h, Holding(store.Table()), launches, cfg.maxAttempts);
      StillFailed(start, before, log, launches, stops, mid, docker.stops);
      GivesBack(start, before, log, LaunchSet(launches), mid, docker.stops, recovered, cfg.maxAttempts);
      if recovered {
        LaterStops(Holding(store.Table()), docker.stops, |stops|, |mid|);
      }
    }

    /** The daemon loop: one round after another until it is told to stop, then everything is given back. */
    method RunForever(inputs: seq<TickInput>)
      returns (recovered: bool, ghost lent: set<Launch>, ghost rounds: seq<Round>)
      requires Sound() && pc == Resting && TrackersValid(lastTick)
      requires forall i | 0 <= i < |inputs| :: lastTick <= inputs[i].now
      requires forall i, k | 0 <= i < k < |inputs| :: inputs[i].now <= inputs[k].now
      modifies this, store, docker, trackers.Values
      ensures Sound() && pc == Resting && Goes(old(log), log, lent)
      ensures DockerFrom(old(Current()), Current(), lent)
      ensures LeasesFrom(Holding(old(store.Table())), Holding(store.Table()), lent)
      // fail safe, over all rounds: one round is run for each input, each from where the last one ended
      ensures AreRounds(rounds, inputs, old(log), old(Histories()), cfg, matches)
      ensures Histories() == KnownAfter(old(Histories()), rounds) && lent == AllLaunches(rounds)
      // owner first, over all rounds: whatever was lent was lent after a quiet window
      ensures forall l | l in lent :: WasLentQuietly(l, Histories(), cfg)
      // while the kill switch or the node pause holds, nothing is lent and nothing becomes active
      ensures Blocked(inputs, log, |old(log).actions|) ==> lent == {}
      // and once the containers of the active jobs run no more, a round with Docker empties the active set
      ensures Blocked(inputs, log, |old(log).actions|) && Drained(old(Current())) && DockerAnswers(inputs) ==>
        Holding(store.Table()) == map[]
      // at the end every job that is still active is told to stop, unless a stop of that fails
      ensures Goes(EndOf(old(log), rounds), log, {})
      ensures GaveBack(log, |EndOf(old(log), rounds).actions|, Resting, docker.stops, recovered)
      ensures recovered ==> forall j | j in Holding(store.Table()) ::
        StopStarted(Holding(store.Table())[j].container, docker.stops, |old(docker.stops)|)
      // no finished job ever came back
      ensures forall j | IsDead(old(store.Table()), j) :: IsDead(store.Table(), j)
    {
      hide Execution, Goes, TrackerOk, DockerFrom, LeasesFrom, Holding, Drained, StopStarted, Blocked, DockerAnswers,
        IsDead, WasLentQuietly, GaveBack, AllStarted, AreRounds, EndOf, AllLaunches, KnownAfter;
      ghost var start, w := log, Current();
      lent, rounds := RunRounds(inputs);
      ghost var before, stops, histories := log, docker.stops, Histories();
      LogShape(start, cfg.maxAttempts);
      OnlyTheseAreLent(start, before, lent, cfg.maxAttempts);
      recovered := ReclaimAll();
      assert Histories() == histories;
      GoesOn(start, before, log, lent, {}, lent);
      LastGivingBack(inputs, start, before, log, lent, cfg.maxAttempts);
      GivesBack(before, before, log, {}, stops, docker.stops, recovered, cfg.maxAttempts) by {
        LogShape(before, cfg.maxAttempts);
        GoesNowhere(before, {});
      }
      if recovered {
        LaterStops(Holding(store.Table()), docker.stops, |w.stops|, |stops|);
      }
    }

    /** The same round, as a whole. */
    method OneRound(input: TickInput) returns (ghost r: Round)
      requires Sound() && pc == Resting && TrackersValid(lastTick) && lastTick <= input.now
      modifies this, store, docker, trackers.Values
      ensures Sound() && pc == Resting && TrackersValid(lastTick) && lastTick == input.now
      ensures fresh(trackers.Values - old(trackers.Values))
      ensures r.start == old(log) && r.end == log && r.before == old(Histories()) && r.histories == Histories()
      ensures r.start.Runs(cfg.maxAttempts) && r.end.Runs(cfg.maxAttempts) && IsRound(r, input, cfg, matches)
    {
      hide Execution, Goes, TrackerOk, LeasesFrom, Holding, Drained, StopStarted, NothingForgotten, LentQuietly,
        GaveBack, AllStarted, RefusedIn, HeldSafely, AllTold, Doubtful, IsRound, OnlyShown, Grounded;
      ghost var start, w, before := log, Current(), Histories();
      var completed, recovered, snap, launches, listed, at := RunOnce(input);
      r := Round(start, log, before, Histories(), completed, recovered, snap, launches, listed, at, lastVerdicts);
      LogShape(start, cfg.maxAttempts);
      LogShape(log, cfg.maxAttempts);
      assert r.start.Now() == w && r.end.Now() == Current();
      ItWasARound(r, input, cfg, matches);
    }

    method RunRounds(inputs: seq<TickInput>) returns (ghost lent: set<Launch>, ghost rounds: seq<Round>)
      requires Sound() && pc == Resting && TrackersValid(lastTick)
      requires forall i | 0 <= i < |inputs| :: lastTick <= inputs[i].now
      requires forall i, k | 0 <= i < k < |inputs| :: inputs[i].now <= inputs[k].now
      modifies this, store, docker, trackers.Values
      ensures Sound() && pc == Resting && Goes(old(log), log, lent)
      ensures RoundsSoFar(rounds, lent, inputs, old(log), log, old(Histories()), Histories(), cfg, matches)
    {
      StandStill();
      ghost var start, known := log, Histories();
      assert start.Runs(cfg.maxAttempts);
      hide *;
      lent, rounds := {}, [];
      NoRounds(inputs, start, known, cfg, matches);
      for i := 0 to |inputs|
        invariant Sound() && pc == Resting && TrackersValid(lastTick) && Goes(start, log, lent)
        invariant fresh(trackers.Values - old(trackers.Values))
        invariant forall k | i <= k < |inputs| :: lastTick <= inputs[k].now
        invariant RoundsSoFar(rounds, lent, inputs[..i], start, log, known, Histories(), cfg, matches)
      {
        ghost var objects := trackers.Values;
        rounds, lent := RoundOf(inputs, i, rounds, lent, start, known);
        assert fresh(trackers.Values - old(trackers.Values)) by {
          assert trackers.Values - old(trackers.Values)
              <= (trackers.Values - objects) + (objects - old(trackers.Values));
        }
      }
      assert inputs[..|inputs|] == inputs;
    }

    /** The round for input `i`, after the rounds before it. */
    method RoundOf(inputs: seq<TickInput>, i: nat, ghost before: seq<Round>, ghost lentBefore: set<Launch>,
                   ghost start: Log, ghost known: map<GpuId, History>)
      returns (ghost rounds: seq<Round>, ghost lent: set<Launch>)
      requires Sound() && pc == Resting && TrackersValid(lastTick) && i < |inputs| && lastTick <= inputs[i].now
      requires start.Runs(cfg.maxAttempts) && Goes(start, log, lentBefore)
      requires RoundsSoFar(before, lentBefore, inputs[..i], start, log, known, Histories(), cfg, matches)
      modifies this, store, docker, trackers.Values
      ensures Sound() && pc == Resting && TrackersValid(lastTick) && lastTick == inputs[i].now
      ensures fresh(trackers.Values - old(trackers.Values)) && Goes(start, log, lent)
      ensures RoundsSoFar(rounds, lent, inputs[..i + 1], start, log, known, Histories(), cfg, matches)
    {
      hide *;
      var r := OneRound(inputs[i]);
      NextRound(before, r, lentBefore, inputs, i, start, known, cfg, matches);
      rounds, lent := before + [r], lentBefore + LaunchSet(r.launches);
    }
  }

  /** Since step `from`, at a point where the controller was at `pc`, it began to give everything back, and this
      succeeded if and only if every stop asked for from then on could be started. */
  ghost predicate GaveBack(log: Log, from: nat, pc: Pc, stops: seq<StopCall>, ok: bool) {
    exists n | from <= n < |log.actions| :: n < |log.trace| && BeginsAt(log, n, pc)
      && (ok <==> AllStarted(stops, |log.trace[n].stops|))
  }

  ghost predicate BeginsAt(log: Log, n: nat, pc: Pc)
    requires n < |log.actions| && n < |log.trace|
  {
    log.actions[n] == BeginDrain && log.trace[n].pc == pc
  }

  lemma GivesBack(start: Log, before: Log, log: Log, lent: set<Launch>, mid: seq<StopCall>, stops: seq<StopCall>,
                  ok: bool, maxAttempts: int)
    requires before.Runs(maxAttempts) && Goes(start, before, lent) && Goes(before, log, {})
    requires NextIs(before, log, BeginDrain) && before.Now().stops == mid
    requires ok <==> AllStarted(stops, |mid|)
    ensures GaveBack(log, |start.actions|, before.Now().pc, stops, ok)
  {
    hide AllStarted;
    LogShape(before, maxAttempts);
    assert log.trace[|before.actions|] == before.Now();
    assert BeginsAt(log, |before.actions|, before.Now().pc);
  }

  /** What failed a tick is still there after everything was given back. */
  lemma StillFailed(start: Log, before: Log, log: Log, launches: seq<Launch>, stops: seq<StopCall>, mid: seq<StopCall>,
                    now: seq<StopCall>)
    requires Goes(start, before, LaunchSet(launches)) && Goes(before, log, {}) && mid <= now
    requires !(AllStarted(mid, |stops|) && !RefusedIn(before, |start.actions|))
    ensures !(AllStarted(now, |stops|) && !RefusedIn(log, |start.actions|))
  {
    RefusedTwice(start, before, log, LaunchSet(launches), {});
    hide RefusedIn, Goes;
    if !AllStarted(mid, |stops|) {
      var n :| |stops| <= n < |mid| && !mid[n].started;
      assert now[n] == mid[n];
    }
  }

  lemma QuietSoFar(lent: set<Launch>, launches: seq<Launch>, before: map<GpuId, History>, after: map<GpuId, History>,
                   now: Time, cfg: Config)
    requires forall l | l in lent :: WasLentQuietly(l, before, cfg)
    requires forall l | l in launches :: LentQuietly(l, after, now, cfg)
    requires NothingForgotten(before, after, now)
    ensures forall l | l in lent + LaunchSet(launches) :: WasLentQuietly(l, after, cfg)
  {
    hide WasLentQuietly, LentQuietly, NothingForgotten;
    forall l | l in lent + LaunchSet(launches) ensures WasLentQuietly(l, after, cfg) {
      if l in lent {
        LentQuietlyStill(l, before, after, now, cfg);
      } else {
        LentQuietlyNow(l, after, now, cfg);
      }
    }
  }

  // ---- rounds ----

  /** One round of the loop: the log and the histories before and after it, and what it read, judged and did. */
  datatype Round = Round(start: Log, end: Log, before: map<GpuId, History>, histories: map<GpuId, History>,
                         completed: bool, recovered: bool, snap: seq<RunningSpot>, launches: seq<Launch>,
                         listed: Option<Listing>, at: Moments, verdicts: map<GpuId, GpuVerdict>)

  /** A round on this input decides on what it could read, and lends quietly and never on any doubt. If it
      completes, every active job was told to stop or is lent safely; otherwise everything is given back. */
  ghost predicate IsRound(r: Round, input: TickInput, cfg: Config, matches: Matcher) {
    && r.start.trace != [] && r.end.trace != [] && Goes(r.start, r.end, LaunchSet(r.launches))
    && NothingForgotten(r.before, r.histories, input.now) && OnlyShown(r.before, r.histories, input, r.listed, cfg)
    && Grounded(r.end, |r.start.actions|, r.start.Now(), r.snap, r.listed, r.at, r.verdicts, r.histories, r.launches,
                input, cfg, matches, r.completed)
    && var w, v := r.start.Now(), r.end.Now();
       && w.pc == Resting && v.pc == Resting
       && (forall l | l in r.launches :: LentQuietly(l, r.histories, input.now, cfg))
       && (Doubtful(input, w.t.pausedNode) ==> r.launches == [])
       && (input.dockerUp && Drained(w) ==> LeasesFrom(map[], Holding(v.t), LaunchSet(r.launches)))
       && (r.completed <==> AllStarted(v.stops, |w.stops|) && !RefusedIn(r.end, |r.start.actions|))
       && (r.completed ==> HeldSafely(w, v, LaunchSet(r.launches), r.verdicts, r.histories, input.now, cfg))
       && (r.completed && Doubtful(input, w.t.pausedNode) ==> AllTold(w, v))
       && (!r.completed ==> GaveBack(r.end, |r.start.actions|, Broken, v.stops, r.recovered))
       && (!r.completed && r.recovered ==>
             forall j | j in Holding(v.t) :: StopStarted(Holding(v.t)[j].container, v.stops, |w.stops|))
  }

  ghost function EndOf(start: Log, rounds: seq<Round>): Log {
    if rounds == [] then start else rounds[|rounds| - 1].end
  }

  ghost function AllLaunches(rounds: seq<Round>): set<Launch> {
    set i, l | 0 <= i < |rounds| && l in rounds[i].launches :: l
  }

  ghost function KnownAfter(known: map<GpuId, History>, rounds: seq<Round>): map<GpuId, History> {
    if rounds == [] then known else rounds[|rounds| - 1].histories
  }

  /** One round for each input, each beginning where the last one ended, with what was known then. */
  ghost predicate AreRounds(rounds: seq<Round>, inputs: seq<TickInput>, start: Log, known: map<GpuId, History>,
                            cfg: Config, matches: Matcher)
  {
    && |rounds| == |inputs|
    && forall i | 0 <= i < |rounds| ::
         && rounds[i].start == EndOf(start, rounds[..i])
         && rounds[i].before == KnownAfter(known, rounds[..i])
         && IsRound(rounds[i], inputs[i], cfg, matches)
  }

  /** All that holds after the rounds on these inputs. */
  ghost predicate RoundsSoFar(rounds: seq<Round>, lent: set<Launch>, inputs: seq<TickInput>, start: Log, log: Log,
                              known: map<GpuId, History>, histories: map<GpuId, History>, cfg: Config,
                              matches: Matcher)
  {
    && start.trace != [] && log.trace != []
    && AreRounds(rounds, inputs, start, known, cfg, matches)
    && log == EndOf(start, rounds) && histories == KnownAfter(known, rounds) && lent == AllLaunches(rounds)
    && (forall l | l in lent :: WasLentQuietly(l, histories, cfg))
    && (Blocked(inputs, log, |start.actions|) ==> lent == {})
    && (Blocked(inputs, log, |start.actions|) && Drained(start.Now()) && DockerAnswers(inputs) ==>
          Holding(log.Now().t) == map[])
  }

  lemma NoRounds(inputs: seq<TickInput>, start: Log, known: map<GpuId, History>, cfg: Config, matches: Matcher)
    requires start.Runs(cfg.maxAttempts)
    ensures RoundsSoFar([], {}, inputs[..0], start, start, known, known, cfg, matches)
  {
    LogShape(start, cfg.maxAttempts);
    hide Blocked, Drained, Holding;
  }

  lemma ItWasARound(r: Round, input: TickInput, cfg: Config, matches: Matcher)
    requires r.start.Runs(cfg.maxAttempts) && r.end.Runs(cfg.maxAttempts)
    requires Goes(r.start, r.end, LaunchSet(r.launches))
    requires NothingForgotten(r.before, r.histories, input.now)
    requires OnlyShown(r.before, r.histories, input, r.listed, cfg)
    requires Grounded(r.end, |r.start.actions|, r.start.Now(), r.snap, r.listed, r.at, r.verdicts, r.histories,
                      r.launches, input, cfg, matches, r.completed)
    requires r.start.Now().pc == Resting && r.end.Now().pc == Resting
    requires forall l | l in r.launches :: LentQuietly(l, r.histories, input.now, cfg)
    requires Doubtful(input, r.start.Now().t.pausedNode) ==> r.launches == []
    requires input.dockerUp && Drained(r.start.Now()) ==>
      LeasesFrom(map[], Holding(r.end.Now().t), LaunchSet(r.launches))
    requires r.completed <==>
      AllStarted(r.end.Now().stops, |r.start.Now().stops|) && !RefusedIn(r.end, |r.start.actions|)
    requires r.completed ==>
      HeldSafely(r.start.Now(), r.end.Now(), LaunchSet(r.launches), r.verdicts, r.histories, input.now, cfg)
    requires r.completed && Doubtful(input, r.start.Now().t.pausedNode) ==> AllTold(r.start.Now(), r.end.Now())
    requires !r.completed ==> GaveBack(r.end, |r.start.actions|, Broken, r.end.Now().stops, r.recovered)
    requires !r.completed && r.recovered ==> forall j | j in Holding(r.end.Now().t) ::
      StopStarted(Holding(r.end.Now().t)[j].container, r.end.Now().stops, |r.start.Now().stops|)
    ensures IsRound(r, input, cfg, matches)
  {
    hide NothingForgotten, OnlyShown, Grounded, Goes, LentQuietly, Doubtful, AllStarted, RefusedIn, HeldSafely,
      AllTold, GaveBack, Holding, StopStarted, Drained, LeasesFrom;
  }

  lemma NextRound(rounds: seq<Round>, r: Round, lent: set<Launch>, inputs: seq<TickInput>, i: nat, start: Log,
                  known: map<GpuId, History>, cfg: Config, matches: Matcher)
    requires i < |inputs| && start.Runs(cfg.maxAttempts) && r.start.Runs(cfg.maxAttempts) && r.end.Runs(cfg.maxAttempts)
    requires RoundsSoFar(rounds, lent, inputs[..i], start, r.start, known, r.before, cfg, matches)
    requires Goes(start, r.start, lent) && IsRound(r, inputs[i], cfg, matches)
    ensures RoundsSoFar(rounds + [r], lent + LaunchSet(r.launches), inputs[..i + 1], start, r.end, known, r.histories,
                        cfg, matches)
    ensures Goes(start, r.end, lent + LaunchSet(r.launches))
  {
    LogShape(start, cfg.maxAttempts);
    LogShape(r.start, cfg.maxAttempts);
    LogShape(r.end, cfg.maxAttempts);
    RoundsGrow(rounds, r, inputs, i, start, known, cfg, matches);
    hide Execution, Goes, AreRounds, EndOf, KnownAfter, AllLaunches, OnlyShown, Grounded, WasLentQuietly, LentQuietly,
      NothingForgotten, HeldSafely, AllTold, GaveBack, AllStarted, RefusedIn, Holding, Drained, LeasesFrom, Blocked,
      DockerAnswers, Doubtful, StopStarted;
    GoesOn(start, r.start, r.end, lent, LaunchSet(r.launches), lent + LaunchSet(r.launches));
    OneMoreRound(inputs, i, start, r.start, r.end, r.launches, lent, cfg.maxAttempts);
    QuietSoFar(lent, r.launches, r.before, r.histories, inputs[i].now, cfg);
  }

  lemma RoundsGrow(rounds: seq<Round>, r: Round, inputs: seq<TickInput>, i: nat, start: Log,
                   known: map<GpuId, History>, cfg: Config, matches: Matcher)
    requires i < |inputs| && AreRounds(rounds, inputs[..i], start, known, cfg, matches)
    requires r.start == EndOf(start, rounds) && r.before == KnownAfter(known, rounds)
    requires IsRound(r, inputs[i], cfg, matches)
    ensures AreRounds(rounds + [r], inputs[..i + 1], start, known, cfg, matches)
    ensures EndOf(start, rounds + [r]) == r.end && KnownAfter(known, rounds + [r]) == r.histories
    ensures AllLaunches(rounds + [r]) == AllLaunches(rounds) + LaunchSet(r.launches)
  {
    hide IsRound;
    var more := rounds + [r];
    assert |rounds| == i && more[..i] == rounds;
    forall k | 0 <= k < |more|
      ensures more[k].start == EndOf(start, more[..k]) && more[k].before == KnownAfter(known, more[..k])
      ensures IsRound(more[k], inputs[..i + 1][k], cfg, matches)
    {
      if k < i {
        assert more[..k] == rounds[..k] && more[k] == rounds[k] && inputs[..i][k] == inputs[..i + 1][k];
      }
    }
    LaunchesSoFar(rounds, r);
  }

  lemma LaunchesSoFar(rounds: seq<Round>, r: Round)
    ensures AllLaunches(rounds + [r]) == AllLaunches(rounds) + LaunchSet(r.launches)
  {
    var more := rounds + [r];
    forall l | l in AllLaunches(rounds) + LaunchSet(r.launches) ensures l in AllLaunches(more) {
      if l in r.launches {
        assert l in more[|rounds|].launches;
      } else {
        var i :| 0 <= i < |rounds| && l in rounds[i].launches;
        assert l in more[i].launches;
      }
    }
  }

  /** The kill switch is on in every round, or the node pause holds throughout. */
  ghost predicate Blocked(inputs: seq<TickInput>, log: Log, from: nat) {
    || (forall x | x in inputs :: x.killSwitch)
    || (forall n | from <= n < |log.trace| :: log.trace[n].t.pausedNode)
  }

  ghost predicate DockerAnswers(inputs: seq<TickInput>) { exists x | x in inputs :: x.dockerUp }

  /** A block that holds now held before, and in the round that lies between. */
  lemma BlockedBefore(inputs: seq<TickInput>, i: nat, before: Log, log: Log, from: nat, lent: set<Launch>)
    requires i < |inputs| && Blocked(inputs[..i + 1], log, from) && Goes(before, log, lent)
    requires before.trace != [] && from < |before.trace|
    ensures Blocked(inputs[..i], before, from)
    ensures inputs[i].killSwitch || before.Now().t.pausedNode
  {
    assert inputs[..i + 1] == inputs[..i] + [inputs[i]];
    if forall x | x in inputs[..i + 1] :: x.killSwitch {
      assert inputs[i] in inputs[..i + 1];
      assert forall x | x in inputs[..i] :: x in inputs[..i + 1];
    } else {
      forall n | from <= n < |before.trace| ensures before.trace[n].t.pausedNode {
        assert log.trace[n] == before.trace[n];
      }
      assert log.trace[|before.trace| - 1] == before.Now();
    }
  }

  /** One more round keeps what the daemon loop promises while it is blocked. */
  lemma OneMoreRound(inputs: seq<TickInput>, i: nat, start: Log, before: Log, log: Log, launches: seq<Launch>,
                     lent: set<Launch>, maxAttempts: int)
    requires i < |inputs| && start.Runs(maxAttempts) && before.Runs(maxAttempts) && log.Runs(maxAttempts)
    requires Goes(start, before, lent) && Goes(before, log, LaunchSet(launches))
    requires Doubtful(inputs[i], before.Now().t.pausedNode) ==> launches == []
    requires inputs[i].dockerUp && Drained(before.Now()) ==>
      LeasesFrom(map[], Holding(log.Now().t), LaunchSet(launches))
    requires Blocked(inputs[..i], before, |start.actions|) ==> lent == {}
    requires Blocked(inputs[..i], before, |start.actions|) && Drained(start.Now()) && DockerAnswers(inputs[..i]) ==>
      Holding(before.Now().t) == map[]
    ensures Blocked(inputs[..i + 1], log, |start.actions|) ==> lent == {} && LaunchSet(launches) == {}
    ensures Blocked(inputs[..i + 1], log, |start.actions|) && Drained(start.Now()) && DockerAnswers(inputs[..i + 1]) ==>
      Holding(log.Now().t) == map[]
  {
    hide Execution, DockerFrom, Holding, Drained, Blocked;
    LogShape(start, maxAttempts);
    LogShape(before, maxAttempts);
    if Blocked(inputs[..i + 1], log, |start.actions|) {
      BlockedBefore(inputs, i, before, log, |start.actions|, LaunchSet(launches));
      assert launches == [] && LaunchSet(launches) == {};
      OnlyTheseAreLent(start, before, {}, maxAttempts);
      OnlyTheseAreLent(before, log, {}, maxAttempts);
      if Drained(start.Now()) && DockerAnswers(inputs[..i + 1]) {
        DrainedStays(start.Now(), before.Now());
        assert inputs[..i + 1] == inputs[..i] + [inputs[i]];
        assert inputs[i].dockerUp || DockerAnswers(inputs[..i]);
      }
    }
  }

  lemma LastGivingBack(inputs: seq<TickInput>, start: Log, before: Log, log: Log, lent: set<Launch>, maxAttempts: int)
    requires start.Runs(maxAttempts) && before.Runs(maxAttempts) && log.Runs(maxAttempts)
    requires Goes(start, log, lent) && Goes(before, log, {})
    requires Blocked(inputs, before, |start.actions|) ==> lent == {}
    requires Blocked(inputs, before, |start.actions|) && Drained(start.Now()) && DockerAnswers(inputs) ==>
      Holding(before.Now().t) == map[]
    ensures DockerFrom(start.Now(), log.Now(), lent)
    ensures LeasesFrom(Holding(start.Now().t), Holding(log.Now().t), lent)
    ensures Blocked(inputs, log, |start.actions|) ==> lent == {}
    ensures Blocked(inputs, log, |start.actions|) && Drained(start.Now()) && DockerAnswers(inputs) ==>
      Holding(log.Now().t) == map[]
    ensures forall j | IsDead(start.Now().t, j) :: IsDead(log.Now().t, j)
  {
    hide DockerFrom, Holding, Drained, DockerAnswers, IsDead;
    LogShape(start, maxAttempts);
    LogShape(before, maxAttempts);
    OnlyTheseAreLent(start, log, lent, maxAttempts);
    OnlyTheseAreLent(before, log, {}, maxAttempts);
    assert Blocked(inputs, log, |start.actions|) ==> Blocked(inputs, before, |start.actions|) by {
      assert forall n | 0 <= n < |before.trace| :: before.trace[n] == log.trace[n];
    }
    assert log.trace[|start.trace| - 1] == start.Now();
    forall j | IsDead(start.Now().t, j) ensures IsDead(log.Now().t, j) {
      DeadStaysDead(log.trace, log.actions, maxAttempts, |start.trace| - 1, |log.trace| - 1, j);
    }
  }

  lemma AfterGivingBack(start: Log, before: Log, log: Log, h: map<JobId, Lease>, k: map<JobId, Lease>,
                        launches: seq<Launch>, maxAttempts: int)
    requires before.Runs(maxAttempts) && log.Runs(maxAttempts)
    requires Goes(start, before, LaunchSet(launches)) && Goes(before, log, {})
    requires h == Holding(before.Now().t) && k == Holding(log.Now().t)
    ensures Goes(start, log, LaunchSet(launches))
    ensures LeasesFrom(map[], h, LaunchSet(launches)) ==> LeasesFrom(map[], k, LaunchSet(launches))
  {
    hide Goes, LeasesFrom, DockerFrom, Holding, Execution;
    LogShape(before, maxAttempts);
    GoesOn(start, before, log, LaunchSet(launches), {}, LaunchSet(launches));
    OnlyTheseAreLent(before, log, {}, maxAttempts);
    MoreLent(h, k, {}, LaunchSet(launches));
    if LeasesFrom(map[], h, LaunchSet(launches)) {
      LeasesTwice(map[], h, k, LaunchSet(launches));
    }
  }

  lemma LaterStops(h: map<JobId, Lease>, stops: seq<StopCall>, from: nat, to: nat)
    requires from <= to && forall j | j in h :: StopStarted(h[j].container, stops, to)
    ensures forall j | j in h :: StopStarted(h[j].container, stops, from)
  {
    hide StopStarted;
    forall j | j in h ensures StopStarted(h[j].container, stops, from) {
      LaterStopStarted(h[j].container, stops, stops, from, to);
    }
  }

  /** Everything the tick lent, and that a tick with Docker ends the jobs whose containers run no more. */
  lemma WhatTheTickLent(start: Log, judged: Log, log: Log, listed: Option<Listing>, launches: seq<Launch>,
                        maxAttempts: int)
    requires start.Runs(maxAttempts) && judged.Runs(maxAttempts) && log.Runs(maxAttempts)
    requires Goes(start, judged, {}) && Goes(judged, log, LaunchSet(launches))
    requires judged.Now().pc.Stopping? && judged.Now().pc.listed == listed
    requires listed.Some? ==> TakenAfter(listed.value, start.Now().docker)
    ensures var w, v := start.Now(), log.Now();
            && Goes(start, log, LaunchSet(launches))
            && DockerFrom(w, v, LaunchSet(launches))
            && LeasesFrom(Holding(w.t), Holding(v.t), LaunchSet(launches))
            && (launches == [] ==>
                 && v.nextContainer == w.nextContainer
                 && forall j | j in Holding(v.t) :: j in Holding(w.t) && Holding(v.t)[j] == Holding(w.t)[j])
            && Covered(Holding(v.t), judged.Now().pc.snap, LaunchSet(launches))
            && (listed.Some? && Drained(w) ==> LeasesFrom(map[], Holding(v.t), LaunchSet(launches)))
  {
    SnapshotIsHeld(judged, maxAttempts);
    CoveredBy(judged.Now().pc.snap, Holding(judged.Now().t), Holding(log.Now().t), LaunchSet(launches)) by {
      OnlyTheseAreLent(judged, log, LaunchSet(launches), maxAttempts);
    }
    hide Covered, ReadFrom, Goes, DockerFrom, LeasesFrom, Holding, Execution, Drained, TakenAfter;
    LogShape(start, maxAttempts);
    LogShape(judged, maxAttempts);
    LogShape(log, maxAttempts);
    GoesOn(start, judged, log, {}, LaunchSet(launches), LaunchSet(launches));
    OnlyTheseAreLent(start, log, LaunchSet(launches), maxAttempts);
    OnlyTheseAreLent(judged, log, LaunchSet(launches), maxAttempts);
    if launches == [] {
      assert LaunchSet(launches) == {};
      NothingLent(start.Now(), log.Now(), Holding(start.Now().t), Holding(log.Now().t));
    }
    if listed.Some? && Drained(start.Now()) {
      OnlyTheseAreLent(start, judged, {}, maxAttempts);
      NothingLent(start.Now(), judged.Now(), Holding(start.Now().t), Holding(judged.Now().t));
      SnapshotWasSeen(judged, maxAttempts);
      DrainedMeansNoneKept(start.Now(), listed.value, Holding(judged.Now().t));
    }
  }

  lemma CoveredBy(snap: seq<RunningSpot>, h: map<JobId, Lease>, k: map<JobId, Lease>, lent: set<Launch>)
    requires ReadFrom(snap, h) && LeasesFrom(h, k, lent)
    ensures Covered(k, snap, lent)
  {
    hide OneOf;
    forall j | j in k && !OneOf(j, k[j], lent) ensures RowFor(snap, j, k[j]) {
      assert j in IdsOf(snap);
      var a :| a in snap && a.jobId == j;
      assert IsRow(h, a);
    }
  }

  /** Everything the first half read is in the log, from the step that listed the containers on. */
  lemma WhatWasRead(start: Log, first: Log, looked: Log, before: Log, log: Log, active: seq<RunningSpot>,
                    listed: Option<Listing>, at: Moments, maxAttempts: int)
    requires start.Runs(maxAttempts) && first.Runs(maxAttempts) && before.Runs(maxAttempts)
    requires Goes(start, first, {}) && Goes(first, looked, {}) && Goes(looked, before, {}) && Goes(before, log, {})
    requires NextIs(before, log, TakeSnapshot) && before.Now() == at.reading && at.reading.pc == Ready(listed)
    requires at.reading.t.Leased() && active == ActiveRows(at.reading.t)
    requires listed.Some? ==>
      NextIs(first, looked, TakeListing) && first.Now() == at.listing && at.listing.docker == listed.value
    ensures ReadIn(log, |start.actions|, active, listed, at)
  {
    hide Took, StepIs, ActiveRows, NextIs;
    LogShape(first, maxAttempts);
    LogShape(before, maxAttempts);
    NextTook(before, log, {}, TakeSnapshot);
    TookSince(log, |start.actions|, |before.actions|, at.reading, TakeSnapshot);
    if listed.Some? {
      NextTook(first, looked, {}, TakeListing);
      GoesOn(looked, before, log, {}, {}, {});
      TookEarlier(looked, log, {}, |first.actions|, at.listing, TakeListing);
      TookSince(log, |start.actions|, |first.actions|, at.listing, TakeListing);
    }
  }

  lemma PlanWasCarriedOut(start: Log, stopped: Log, planned: Log, log: Log, p: Plan, all: bool, maxAttempts: int)
    requires stopped.Runs(maxAttempts) && Goes(start, stopped, {})
    requires Goes(stopped, planned, {}) && Goes(planned, log, LaunchSet(p.launches))
    requires NextIs(stopped, planned, Decide(p.reclaims, p.launches))
    requires StraightFrom(planned, |stopped.actions| + 1) && (all ==> StraightFrom(log, |planned.actions|))
    ensures Planned(log, |start.actions|, stopped.Now(), Decide(p.reclaims, p.launches), all)
  {
    hide Execution, NextIs, StraightFrom, Planned;
    LogShape(stopped, maxAttempts);
    PlanCarriedOut(stopped, planned, log, |start.actions|, {}, LaunchSet(p.launches), Decide(p.reclaims, p.launches),
                   all);
  }

  lemma WhatThePlanDid(start: Log, planned: Log, log: Log, p: Plan, all: bool, maxAttempts: int)
    requires start.Runs(maxAttempts) && Goes(start, planned, {}) && Goes(planned, log, LaunchSet(p.launches))
    requires NextIs(start, planned, Decide(p.reclaims, p.launches)) && StraightFrom(planned, |start.actions| + 1)
    requires all ==> StraightFrom(log, |planned.actions|)
    requires all ==> forall l | l in p.launches :: Considered(log, |planned.actions|, l)
    ensures Planned(log, |start.actions|, start.Now(), Decide(p.reclaims, p.launches), all)
    ensures Goes(start, log, LaunchSet(p.launches))
    ensures RefusedIn(log, |start.actions|) <==> RefusedIn(log, |planned.actions|)
    ensures all ==> forall l | l in p.launches :: Considered(log, |start.actions|, l)
  {
    LogShape(start, maxAttempts);
    GoesNowhere(start, {});
    hide Execution, NextIs, StraightFrom, Planned, Considered, RefusedIn, Goes, LaunchSet;
    NothingRefused(start, planned);
    PlanWasCarriedOut(start, start, planned, log, p, all, maxAttempts);
    RefusedTwice(start, planned, log, {}, LaunchSet(p.launches));
    GoesOn(start, planned, log, {}, LaunchSet(p.launches), LaunchSet(p.launches));
    if all {
      ConsideredSince(start, planned, log, p.launches);
    }
  }

  /** What was read and planned in the two halves was so in the tick. */
  lemma WhatTheTickRead(start: Log, judged: Log, log: Log, active: seq<RunningSpot>, listed: Option<Listing>,
                        at: Moments, verdicts: map<GpuId, GpuVerdict>, launches: seq<Launch>, planning: World,
                        completed: bool)
    requires Goes(start, judged, {}) && Goes(judged, log, LaunchSet(launches))
    requires ReadIn(judged, |start.actions|, active, listed, at)
    requires completed || launches != [] ==>
      && planning.pc == Stopping(listed, active, [])
      && Planned(log, |judged.actions|, planning, Decide(Reclaims(active, verdicts), launches), completed)
    ensures ReadIn(log, |start.actions|, active, listed, at.(planning := planning))
    ensures completed || launches != [] ==>
      PlannedIn(log, |start.actions|, active, listed, at.(planning := planning), verdicts, launches, completed)
  {
    hide Took, Planned, ActiveRows, Reclaims;
    TookEarlier(judged, log, LaunchSet(launches), |start.actions|, at.reading, TakeSnapshot);
    if listed.Some? {
      TookEarlier(judged, log, LaunchSet(launches), |start.actions|, at.listing, TakeListing);
    }
    if completed || launches != [] {
      PlannedSince(log, |start.actions|, |judged.actions|, planning, Decide(Reclaims(active, verdicts), launches),
                   completed);
    }
  }

  /** The tick asked for due stops only, repeated none, and was refused a start only after it had judged. */
  lemma WhatTheTickStopped(start: Log, judged: Log, log: Log, active: seq<RunningSpot>,
                           verdicts: map<GpuId, GpuVerdict>, launches: seq<Launch>, issued: set<ContainerId>,
                           maxAttempts: int)
    requires start.Runs(maxAttempts) && judged.Runs(maxAttempts) && log.Runs(maxAttempts)
    requires Goes(start, judged, {}) && Goes(judged, log, LaunchSet(launches))
    requires judged.Now().pc.Stopping? && judged.Now().pc.snap == active && judged.Now().stopIssued == issued
    requires start.Now().stops == judged.Now().stops
    requires OnlyDueStops(active, verdicts, issued, judged.Now().stops, log.Now().stops)
    ensures var w, v := start.Now(), log.Now();
            && OnlyDueStops(active, verdicts, w.stopIssued, w.stops, v.stops)
            && (forall c | c in w.stopIssued ::
                  StopStarted(c, v.stops, w.lifeStart) <==> StopStarted(c, w.stops, w.lifeStart))
            && (RefusedIn(log, |start.actions|) <==> RefusedIn(log, |judged.actions|))
  {
    hide OnlyDueStops, StopStarted, RefusedIn, Goes, Execution;
    LogShape(start, maxAttempts);
    LogShape(judged, maxAttempts);
    LogShape(log, maxAttempts);
    var w, v := start.Now(), log.Now();
    NothingRefused(start, judged);
    RefusedTwice(start, judged, log, {}, LaunchSet(launches));
    StillOnRecord(start, judged, maxAttempts);
    DueSinceTheStart(active, verdicts, w.stopIssued, issued, w.stops, v.stops);
    NoneRepeated(active, verdicts, w.stopIssued, w.stops, v.stops, w.lifeStart);
  }

  lemma WhatIsOnRecord(active: seq<RunningSpot>, verdicts: map<GpuId, GpuVerdict>, before: set<ContainerId>,
                       issued: set<ContainerId>, after: set<ContainerId>, s: seq<StopCall>, t: seq<StopCall>,
                       lifeStart: nat)
    requires issued <= before && NewStopsStarted(issued, after, s, t) && lifeStart <= |s|
    requires forall a | a in active :: a.container in after || (!a.reclaiming && !MustGo(a, verdicts))
    requires forall c | c in before :: StopStarted(c, t, lifeStart) <==> StopStarted(c, s, lifeStart)
    ensures forall c | c in after :: ToldToStop(c, before, s, t, lifeStart)
    ensures StoppedUnlessLost(active, verdicts, before, s, t, lifeStart)
  {
    hide StopStarted, MustGo;
    RecordedMeansTold(before, after, s, t, lifeStart);
  }

  lemma WhatTheVerdictsMean(launches: seq<Launch>, active: seq<RunningSpot>, verdicts: map<GpuId, GpuVerdict>,
                            histories: map<GpuId, History>, input: TickInput, listed: Option<Listing>, planned: Tables,
                            cfg: Config, matches: Matcher, pausedNode: bool, pausedGpus: set<GpuId>)
    requires Judged(verdicts, histories, input, listed, cfg, active, pausedNode, pausedGpus)
    requires launches == [] || LaunchesFirstFit(launches, verdicts, active, planned, input, cfg, matches)
    ensures forall a | a in active && !a.reclaiming && !MustGo(a, verdicts) ::
      a.gpu !in pausedGpus && StillLent(a.gpu, verdicts, histories, input.now, cfg) && !Doubtful(input, pausedNode)
    ensures forall l | l in launches :: LentQuietly(l, histories, input.now, cfg)
    ensures Doubtful(input, pausedNode) ==> launches == []
    ensures WithinRam(launches, input, cfg)
    ensures !input.hookPresent && !cfg.allowUnenforced ==> launches == []
    ensures LaunchesFirstFit(launches, verdicts, active, planned, input, cfg, matches) ==>
      && ServesInOrder(launches, verdicts, planned, input, cfg, matches)
      && (input.dockerUp && (input.hookPresent || cfg.allowUnenforced) ==>
            NoneLeftOut(launches, verdicts, active, planned, input, cfg, matches))
  {
    if LaunchesFirstFit(launches, verdicts, active, planned, input, cfg, matches) {
      FirstFitServes(launches, verdicts, active, planned, input, cfg, matches);
    }
    hide Judged, LaunchesFirstFit, StillLent, LentQuietly, MustGo, ServesInOrder, NoneLeftOut;
    UnstoppedJobsAreLent(active, verdicts, histories, input, listed, cfg, pausedNode, pausedGpus);
    if launches != [] {
      FirstFitIsOpen(launches, verdicts, active, planned, input, cfg, matches);
      LaunchesAreQuiet(launches, active, verdicts, histories, input, listed, cfg, pausedNode, pausedGpus);
    }
  }

  // ---- logs ----

  lemma LogShape(log: Log, maxAttempts: int)
    requires log.Runs(maxAttempts)
    ensures log.trace != [] && |log.trace| == |log.actions| + 1
  {}

  lemma GoesMore(l: Log, m: Log, less: set<Launch>, more: set<Launch>)
    requires Goes(l, m, less) && less <= more
    ensures Goes(l, m, more)
  {
    hide Permitted;
    forall n | |l.actions| <= n < |m.actions| ensures Permitted(m.trace[n], m.actions[n], more) {
      PermittedMore(m.trace[n], m.actions[n], less, more);
    }
  }

  lemma NextStays(l: Log, mid: Log, m: Log, a: Action)
    requires NextIs(l, mid, a) && Goes(mid, m, {})
    ensures NextIs(l, m, a)
  {
    assert m.actions[|l.actions|] == mid.actions[|l.actions|];
  }

  lemma NextConsidered(l: Log, m: Log, launch: Launch, lent: set<Launch>)
    requires l.trace != [] && |l.trace| == |l.actions| + 1 && Goes(l, m, lent) && NextIs(l, m, CheckLaunch)
    requires l.Now().pc.Acting? && l.Now().pc.launches != [] && l.Now().pc.launches[0] == launch
    ensures ConsideredAt(m, |l.actions|, launch)
  {
    assert m.trace[|l.actions|] == l.trace[|l.actions|];
  }

  lemma StillConsidered(l: Log, m: Log, n: nat, launch: Launch, lent: set<Launch>)
    requires ConsideredAt(l, n, launch) && Goes(l, m, lent)
    ensures ConsideredAt(m, n, launch)
  {
    assert m.trace[n] == l.trace[n] && m.actions[n] == l.actions[n];
  }

  lemma ConsideredLater(l: Log, m: Log, from: nat, launches: seq<Launch>, lent: set<Launch>)
    requires Goes(l, m, lent) && forall x | x in launches :: Considered(l, from, x)
    ensures forall x | x in launches :: Considered(m, from, x)
  {
    hide Goes, ConsideredAt;
    forall x | x in launches ensures Considered(m, from, x) {
      var n :| from <= n && ConsideredAt(l, n, x);
      assert n >= 0;
      StillConsidered(l, m, n, x, lent);
    }
  }

  /** What holds of the log after one more launch. */
  lemma OneMoreLaunched(start: Log, before: Log, log: Log, launches: seq<Launch>, i: nat)
    requires i < |launches| && Goes(start, before, LaunchSet(launches)) && Goes(before, log, {launches[i]})
    requires StraightFrom(before, |start.actions|) && StraightFrom(log, |before.actions|)
    requires !RefusedIn(before, |start.actions|) && ConsideredAt(log, |before.actions|, launches[i])
    requires forall l | l in launches[..i] :: Considered(before, |start.actions|, l)
    ensures Goes(start, log, LaunchSet(launches)) && StraightFrom(log, |start.actions|)
    ensures RefusedIn(log, |start.actions|) <==> RefusedIn(log, |before.actions|)
    ensures forall l | l in launches[..i + 1] :: Considered(log, |start.actions|, l)
  {
    hide Goes, StraightFrom, RefusedIn, ConsideredAt, Considered;
    assert launches[i] in LaunchSet(launches);
    RefusedTwice(start, before, log, LaunchSet(launches), {launches[i]});
    StraightTwice(before, log, |start.actions|, {launches[i]});
    GoesOn(start, before, log, LaunchSet(launches), {launches[i]}, LaunchSet(launches));
    ConsideredLater(before, log, |start.actions|, launches[..i], {launches[i]});
    NowConsidered(start, before, log, launches[i], LaunchSet(launches));
    assert launches[..i + 1] == launches[..i] + [launches[i]];
  }

  lemma NowConsidered(start: Log, l: Log, m: Log, x: Launch, lent: set<Launch>)
    requires Goes(start, l, lent) && ConsideredAt(m, |l.actions|, x)
    ensures Considered(m, |start.actions|, x)
  {
    hide ConsideredAt;
  }

  lemma ConsideredSince(start: Log, l: Log, m: Log, launches: seq<Launch>)
    requires Goes(start, l, {}) && forall x | x in launches :: Considered(m, |l.actions|, x)
    ensures forall x | x in launches :: Considered(m, |start.actions|, x)
  {
    hide ConsideredAt;
  }

  // ---- rows ----

  /** The rows are exactly the leases. */
  ghost predicate ReadFrom(rows: seq<RunningSpot>, h: map<JobId, Lease>) {
    && (forall r | r in rows :: IsRow(h, r)) && IdsOf(rows) == h.Keys
  }

  /** The jobs of rows whose container the listing does not show as running. */
  ghost function Ended(rows: seq<RunningSpot>, listing: Listing): set<JobId> {
    set r | r in rows && !StillRunning(listing, r) :: r.jobId
  }

  lemma NoneEnded(h: map<JobId, Lease>, rows: seq<RunningSpot>, listing: Listing)
    ensures h - Ended(rows[..0], listing) == h
  {}

  lemma OneMoreEnded(h: map<JobId, Lease>, rows: seq<RunningSpot>, i: nat, listing: Listing)
    requires i < |rows|
    ensures h - Ended(rows[..i + 1], listing)
         == (h - Ended(rows[..i], listing)) - if StillRunning(listing, rows[i]) then {} else {rows[i].jobId}
  {
    assert rows[..i + 1] == rows[..i] + [rows[i]];
  }

  lemma AllEnded(h: map<JobId, Lease>, rows: seq<RunningSpot>, listing: Listing)
    requires ReadFrom(rows, h)
    ensures h - Ended(rows[..|rows|], listing) == Kept(h, listing)
  {
    assert rows[..|rows|] == rows;
    forall j | j in h ensures j in Ended(rows, listing) <==> !SeenRunning(h, j, listing) {
      assert j in IdsOf(rows);
      var r :| r in rows && r.jobId == j;
      assert IsRow(h, r);
      forall q | q in rows && q.jobId == j ensures StillRunning(listing, q) == StillRunning(listing, r) {
        assert IsRow(h, q);
      }
    }
  }

  lemma StoppedSince(active: seq<RunningSpot>, i: nat, stops: seq<StopCall>, now: seq<StopCall>, from: nat)
    requires i < |active| && from <= |stops| && now == stops + [StopCall(active[i].container, true)]
    requires forall k | 0 <= k < i :: StopStarted(active[k].container, stops, from)
    ensures forall k | 0 <= k < i + 1 :: StopStarted(active[k].container, now, from)
  {
    assert now[|stops|] == StopCall(active[i].container, true);
    forall k | 0 <= k < i ensures StopStarted(active[k].container, now, from) {
      LaterStopStarted(active[k].container, stops, now, from, from);
    }
  }

  lemma EveryRowStopped(h: map<JobId, Lease>, k: map<JobId, Lease>, active: seq<RunningSpot>, stops: seq<StopCall>,
                        from: nat)
    requires ReadFrom(active, h) && LeasesFrom(h, k, {})
    requires forall i | 0 <= i < |active| :: StopStarted(active[i].container, stops, from)
    ensures forall j | j in k :: StopStarted(k[j].container, stops, from)
  {
    hide StopStarted;
    forall j | j in k ensures StopStarted(k[j].container, stops, from) {
      assert j in IdsOf(active);
      var i :| 0 <= i < |active| && active[i].jobId == j;
      assert active[i] in active && IsRow(h, active[i]);
    }
  }

  lemma NoneDueYet(active: seq<RunningSpot>, verdicts: map<GpuId, GpuVerdict>, issued: set<ContainerId>,
                   stops: seq<StopCall>)
    ensures OnlyDueStops(active, verdicts, issued, stops, stops)
  {}

  /** What one more pending stop adds to the calls. */
  lemma OneMorePending(active: seq<RunningSpot>, i: nat, verdicts: map<GpuId, GpuVerdict>, first: set<ContainerId>,
                       issued: set<ContainerId>, s: seq<StopCall>, t: seq<StopCall>, started: bool)
    requires i < |active| && active[i].reclaiming && active[i].container !in first
    requires OnlyDueStops(active, verdicts, first, s, t) && NewStopsStarted(first, issued, s, t)
    requires |s| <= |t| && AllStarted(t, |s|)
    ensures var c := active[i].container; var u := t + [StopCall(c, started)];
            && OnlyDueStops(active, verdicts, first, s, u) && (AllStarted(u, |s|) <==> started)
            && (started ==> NewStopsStarted(first, issued + {c}, s, u))
  {
    var c := active[i].container;
    hide OnlyDueStops, NewStopsStarted, AllStarted;
    OneMoreDue(active, verdicts, first, s, t, active[i], started);
    OneMoreStarted(t, c, started, |s|);
    if started {
      OneStopStarted(issued, t, c);
      NewStopsTwice(first, issued, issued + {c}, s, t, t + [StopCall(c, true)]);
    }
  }

  lemma OneMoreFor(reclaims: seq<Reclaim>, i: nat, s: seq<StopCall>, t: seq<StopCall>, started: bool)
    requires i < |reclaims| && OnlyFor(reclaims, s, t)
    ensures OnlyFor(reclaims, s, t + [StopCall(reclaims[i].container, started)])
  {
    assert reclaims[i] in reclaims;
  }

  lemma OneMoreStarted(stops: seq<StopCall>, c: ContainerId, started: bool, from: nat)
    requires from <= |stops| && AllStarted(stops, from)
    ensures AllStarted(stops + [StopCall(c, started)], from) <==> started
  {
    var now := stops + [StopCall(c, started)];
    assert now[|stops|].started == started;
  }

  lemma AllReclaimed(active: seq<RunningSpot>, verdicts: map<GpuId, GpuVerdict>, issued: set<ContainerId>)
    requires forall r | r in Reclaims(active, verdicts) :: r.container in issued
    ensures forall a | a in active && MustGo(a, verdicts) :: a.container in issued
  {
    hide MustGo;
    forall a | a in active && MustGo(a, verdicts) ensures a.container in issued {
      assert ReclaimFor(a, verdicts) in Reclaims(active, verdicts);
    }
  }

  lemma AllStartedTwice(s: seq<StopCall>, t: seq<StopCall>, u: seq<StopCall>)
    requires s <= t && t <= u && AllStarted(t, |s|)
    ensures AllStarted(u, |s|) <==> AllStarted(u, |t|)
  {
    forall n | |s| <= n < |t| ensures u[n].started {
      assert u[n] == t[n];
    }
  }

  lemma NoNewStops(issued: set<ContainerId>, stops: seq<StopCall>)
    ensures NewStopsStarted(issued, issued, stops, stops)
  {}

  lemma TrackersAge(trackers: map<GpuId, GpuTracker>, t: Time, now: Time)
    requires t <= now && forall u | u in trackers :: TrackerOk(trackers[u], t)
    ensures forall u | u in trackers :: TrackerOk(trackers[u], now)
  {}

  /** The listed containers still to be removed. */
  ghost function Doomed(ids: seq<ContainerId>, known: set<ContainerId>): set<ContainerId> {
    set c | c in ids && c !in known
  }

  lemma DoomedAtFirst(ids: seq<ContainerId>, listed: set<ContainerId>, known: set<ContainerId>)
    requires forall c :: c in ids <==> c in listed
    ensures Doomed(ids[0..], known) == listed - known
  {
    assert ids[0..] == ids;
  }

  lemma DoomedNext(ids: seq<ContainerId>, i: nat, known: set<ContainerId>)
    requires i < |ids| && forall j, k | 0 <= j < k < |ids| :: ids[j] < ids[k]
    ensures ids[i] in known ==> Doomed(ids[i + 1..], known) == Doomed(ids[i..], known)
    ensures ids[i] !in known ==>
      ids[i] in Doomed(ids[i..], known) && Doomed(ids[i + 1..], known) == Doomed(ids[i..], known) - {ids[i]}
  {
    assert ids[i..] == [ids[i]] + ids[i + 1..];
    assert ids[i] !in ids[i + 1..];
  }

  // ---- facts about the protocol that the methods lean on ----

  lemma ActiveRowsAreLeases(log: Log, maxAttempts: int)
    requires log.Runs(maxAttempts)
    ensures log.Now().t.Leased() && ReadFrom(ActiveRows(log.Now().t), Holding(log.Now().t))
  {
    RunHasInv(log, maxAttempts);
    ActiveRowsReadLeases(log.Now().t, maxAttempts);
  }

  lemma ClosingEndsLease(log: Log, maxAttempts: int)
    requires log.Runs(maxAttempts) && log.Now().pc.Closing? && log.Now().pc.todo != []
    ensures var t, id := log.Now().t, log.Now().pc.todo[0].jobId;
            && id in t.jobs
            && forall exitCode, vanished, now ::
                 Holding(Finished(t, id, exitCode, maxAttempts, vanished, now)) == Holding(t) - {id}
  {
    RunHasInv(log, maxAttempts);
    ClosingHead(log.Now());
    var t, id := log.Now().t, log.Now().pc.todo[0].jobId;
    hide Execution, Inv, Holding, Finished;
    forall exitCode, vanished, now
      ensures Holding(Finished(t, id, exitCode, maxAttempts, vanished, now)) == Holding(t) - {id}
    {
      FinishEndsLease(t, id, exitCode, maxAttempts, vanished, now);
    }
  }

  lemma SweptIsClean(log: Log, maxAttempts: int)
    requires log.Runs(maxAttempts) && log.Now().pc.Ready? && log.Now().pc.listed.Some?
    ensures Clean(log.Now())
  {
    RunHasInv(log, maxAttempts);
  }

  lemma SnapshotIsDistinct(log: Log, maxAttempts: int)
    requires log.Runs(maxAttempts) && log.Now().pc.Stopping?
    ensures var snap := log.Now().pc.snap; forall i, k | 0 <= i < k < |snap| :: snap[i].container != snap[k].container
  {
    RunHasInv(log, maxAttempts);
    RowsHaveDistinctContainers(Holding(log.Now().t), log.Now().pc.snap);
  }

  lemma SnapshotIsHeld(log: Log, maxAttempts: int)
    requires log.Runs(maxAttempts) && log.Now().pc.Stopping?
    ensures ReadFrom(log.Now().pc.snap, Holding(log.Now().t))
  {
    RunHasInv(log, maxAttempts);
    hide Holding;
  }

  lemma SnapshotWasListed(log: Log, maxAttempts: int)
    requires log.Runs(maxAttempts) && log.Now().pc.Stopping?
    ensures var pc := log.Now().pc;
            pc.listed.Some? ==> forall a | a in pc.snap :: StillRunning(pc.listed.value, a)
  {
    RunHasInv(log, maxAttempts);
    var w := log.Now();
    hide Execution;
    forall a | a in w.pc.snap ensures IsRow(Holding(w.t), a) {}
  }

  lemma SnapshotWasSeen(log: Log, maxAttempts: int)
    requires log.Runs(maxAttempts) && log.Now().pc.Stopping? && log.Now().pc.listed.Some?
    ensures var h := Holding(log.Now().t); forall j | j in h :: SeenRunning(h, j, log.Now().pc.listed.value)
  {
    RunHasInv(log, maxAttempts);
  }

  /** No stop of a running job of the snapshot is on record. */
  lemma RunningRowsAreNotOnRecord(log: Log, maxAttempts: int)
    requires log.Runs(maxAttempts) && log.Now().pc.Stopping?
    ensures forall a | a in log.Now().pc.snap && !a.reclaiming :: a.container !in log.Now().stopIssued
  {
    RunHasInv(log, maxAttempts);
  }

  /** A stop of a job of the snapshot that was on record earlier in this controller lifetime still is. */
  lemma StillOnRecord(start: Log, judged: Log, maxAttempts: int)
    requires start.Runs(maxAttempts) && judged.Runs(maxAttempts) && Goes(start, judged, {})
    requires judged.Now().pc.Stopping?
    ensures forall a | a in judged.Now().pc.snap && a.container in start.Now().stopIssued ::
              a.container in judged.Now().stopIssued
  {
    RunHasInv(judged, maxAttempts);
    var i, k := |start.trace| - 1, |judged.trace| - 1;
    assert judged.trace[i] == start.Now();
    forall n | i <= n < k ensures !judged.actions[n].Crash? {
      assert Permitted(judged.trace[n], judged.actions[n], {});
    }
    forall a | a in judged.Now().pc.snap && a.container in start.Now().stopIssued
      ensures a.container in judged.Now().stopIssued
    {
      RowIsHeld(judged.Now(), a, maxAttempts);
      StoppedStaysStopped(judged.trace, judged.actions, maxAttempts, i, k, a.container);
    }
  }

  lemma RowIsHeld(w: World, a: RunningSpot, maxAttempts: int)
    requires Inv(w, maxAttempts) && w.pc.Stopping? && a in w.pc.snap
    ensures a.container in HeldContainers(Holding(w.t))
  {
    assert IsRow(Holding(w.t), a);
  }

  lemma StoreIsWellFormed(log: Log, maxAttempts: int)
    requires log.Runs(maxAttempts)
    ensures log.Now().t.WellFormed()
  {
    RunHasInv(log, maxAttempts);
  }

  lemma AllStopsWereAsked(log: Log, maxAttempts: int)
    requires log.Runs(maxAttempts)
    ensures StopsWereAsked(log.Now())
  {
    IssuedStopsWereAsked(log.trace, log.actions, maxAttempts, |log.trace| - 1);
  }

  lemma {:induction false} PendingStopsIgnore(rows: seq<RunningSpot>, issued: set<ContainerId>, c: ContainerId)
    requires forall i | 0 <= i < |rows| :: rows[i].container != c
    ensures PendingStops(rows, issued + {c}) == PendingStops(rows, issued)
  {
    if rows != [] {
      PendingStopsIgnore(rows[1..], issued, c);
    }
  }
}
