/** The per-GPU idle/activity state machine. `GpuTracker` keeps three fields; what they mean is said by
    functions that look back over the whole history of updates, and `Valid` ties the two together. */
module Detector {
  import opened Model

  /** One call of `update`: the observation, the time and the idle settings in force. */
  datatype Sighting = Sighting(obs: GpuObservation, now: Time, idle: IdleConfig)

  /** Everything one tracker has ever been shown. */
  datatype History = History(first: GpuObservation, born: Time, updates: seq<Sighting>)
  {
    function Push(u: Sighting): History { History(first, born, updates + [u]) }
  }

  /** The activity rules, against the memory baseline and the owner set remembered so far. */
  predicate IsActivity(obs: GpuObservation, baseline: int, owners: set<ContainerId>, idle: IdleConfig) {
    || obs.OwnerUtil() > idle.ownerUtilThreshold
    || obs.OwnerMemory() > baseline + idle.ownerMemDelta
    || (idle.ownerCpuThreshold > 0.0 && obs.ownerCpuCores.Some? && obs.ownerCpuCores.value > idle.ownerCpuThreshold)
    || obs.HasUnknown()
    || !(obs.ownerContainers <= owners)
  }

  /** The activity rules one by one. */
  predicate Fires(r: Reason, obs: GpuObservation, baseline: int, owners: set<ContainerId>, idle: IdleConfig) {
    match r
    case OwnerUtilHigh => obs.OwnerUtil() > idle.ownerUtilThreshold
    case OwnerMemoryGrew => obs.OwnerMemory() > baseline + idle.ownerMemDelta
    case OwnerCpuHigh =>
      idle.ownerCpuThreshold > 0.0 && obs.ownerCpuCores.Some? && obs.ownerCpuCores.value > idle.ownerCpuThreshold
    case UnknownProcess => obs.HasUnknown()
    case NewOwner => !(obs.ownerContainers <= owners)
    case _ => false
  }

  // ---- the history-based specification ----

  /** Update `n` was observed and counted as owner activity. */
  ghost predicate Active(h: History, n: nat)
    requires n < |h.updates|
    decreases n, 2
  {
    var u := h.updates[n];
    u.obs.ok && IsActivity(u.obs, Baseline(h, n), Owners(h, n), u.idle)
  }

  /** Update `n` restarts the idle clock: it failed, or it counted as activity. */
  ghost predicate Disturbs(h: History, n: nat)
    requires n < |h.updates|
  {
    !h.updates[n].obs.ok || Active(h, n)
  }

  /** The index of the last active update among the first `n`, or -1 for the creation of the tracker. */
  ghost function LastActiveIndex(h: History, n: nat): (i: int)
    requires n <= |h.updates|
    ensures -1 <= i < n
    decreases n, 0
  {
    if n == 0 then -1 else if Active(h, n - 1) then n - 1 else LastActiveIndex(h, n - 1)
  }

  /** Owner memory recorded at index `i` (-1: at creation, where a failed first look counts as 0). */
  ghost function MemoryAt(h: History, i: int): int
    requires -1 <= i < |h.updates|
  {
    if i == -1 then if h.first.ok then h.first.OwnerMemory() else 0
    else h.updates[i].obs.OwnerMemory()
  }

  /** The least owner memory over index `from` and the successful updates in `(from, n)`. */
  ghost function LeastMemory(h: History, from: int, n: nat): int
    requires -1 <= from < n <= |h.updates|
    decreases n
  {
    if n == from + 1 then MemoryAt(h, from)
    else
      var least := LeastMemory(h, from, n - 1);
      if h.updates[n - 1].obs.ok then Min(least, h.updates[n - 1].obs.OwnerMemory()) else least
  }

  /** The owner memory that update `n` is compared with. */
  ghost function Baseline(h: History, n: nat): int
    requires n <= |h.updates|
    decreases n, 1
  {
    LeastMemory(h, LastActiveIndex(h, n), n)
  }

  /** The owner set of the last successful observation before update `n`. */
  ghost function Owners(h: History, n: nat): set<ContainerId>
    requires n <= |h.updates|
    decreases n
  {
    if n == 0 then if h.first.ok then h.first.ownerContainers else {}
    else if h.updates[n - 1].obs.ok then h.updates[n - 1].obs.ownerContainers
    else Owners(h, n - 1)
  }

  /** The time of the latest disturbance among the first `n` updates, or of the creation. */
  ghost function LastDisturbed(h: History, n: nat): Time
    requires n <= |h.updates|
    decreases n
  {
    if n == 0 then h.born
    else if Disturbs(h, n - 1) then h.updates[n - 1].now
    else LastDisturbed(h, n - 1)
  }

  /** Two histories that agree on their first `n` updates. */
  ghost predicate AgreeUpTo(h: History, k: History, n: nat) {
    && n <= |h.updates| && n <= |k.updates|
    && h.first == k.first && h.born == k.born
    && h.updates[..n] == k.updates[..n]
  }

  /** What update `n` is judged against depends on the earlier updates only. */
  lemma {:induction false} SpecIsCausal(h: History, k: History, n: nat)
    requires AgreeUpTo(h, k, n)
    ensures LastActiveIndex(h, n) == LastActiveIndex(k, n)
    ensures Baseline(h, n) == Baseline(k, n)
    ensures Owners(h, n) == Owners(k, n)
    ensures LastDisturbed(h, n) == LastDisturbed(k, n)
  {
    if n > 0 {
      assert h.updates[n - 1] == h.updates[..n][n - 1] == k.updates[n - 1];
      assert h.updates[..n - 1] == h.updates[..n][..n - 1] == k.updates[..n - 1];
      SpecIsCausal(h, k, n - 1);
    }
    LeastMemoryIsCausal(h, k, LastActiveIndex(h, n), n, n);
  }

  lemma {:induction false} LeastMemoryIsCausal(h: History, k: History, from: int, m: nat, n: nat)
    requires AgreeUpTo(h, k, n) && m <= n
    requires -1 <= from < m
    ensures LeastMemory(h, from, m) == LeastMemory(k, from, m)
    decreases m
  {
    forall i | 0 <= i < n ensures h.updates[i] == k.updates[i] {
      assert h.updates[i] == h.updates[..n][i];
    }
    if m != from + 1 {
      LeastMemoryIsCausal(h, k, from, m - 1, n);
    }
  }

  // ---- the verdict ----

  /** The required wait before an idle GPU may be lent. */
  function Wait(obs: GpuObservation, idle: IdleConfig): real {
    if obs.ownerContainers != {} then idle.idleSeconds else idle.unclaimedGraceSeconds
  }

  /** What a verdict says, given the idle clock after the update and whether the update was activity. */
  ghost predicate Judges(v: GpuVerdict, obs: GpuObservation, active: bool, lastActive: Time, now: Time,
                         idle: IdleConfig, reclaim: ReclaimConfig, lent: bool, reclaiming: bool, blocked: bool)
  {
    var low := obs.FreeMemory() < reclaim.memReserve / 2;
    && v.uuid == obs.uuid && v.model == obs.model
    && (v.lendable <==>
        obs.ok && !lent && !active && !blocked && now - lastActive >= Wait(obs, idle)
        && obs.FreeMemory() > reclaim.memReserve)
    && v.lendableMemory == (if v.lendable then obs.FreeMemory() - reclaim.memReserve else 0)
    && (v.mustReclaim <==> lent && !reclaiming && (!obs.ok || active || low || blocked))
    && (v.state == Unobserved <==> !obs.ok)
    && (v.state == Busy <==> obs.ok && !lent && active)
    && (v.state == Lendable <==> v.lendable)
    && (v.state == Lent <==> obs.ok && lent && !reclaiming && !active && !low && !blocked)
    && (v.state == Reclaiming <==> obs.ok && lent && (reclaiming || active || low || blocked))
    && v.idleFor == (if obs.ok then now - lastActive else 0.0)
    && (v.mustReclaim ==> v.reasons != [])
  }

  lemma AnyRuleFires(obs: GpuObservation, baseline: int, owners: set<ContainerId>, idle: IdleConfig)
    ensures IsActivity(obs, baseline, owners, idle) <==> exists r :: Fires(r, obs, baseline, owners, idle)
  {
    if IsActivity(obs, baseline, owners, idle) {
      assert Fires(OwnerUtilHigh, obs, baseline, owners, idle) || Fires(OwnerMemoryGrew, obs, baseline, owners, idle)
          || Fires(OwnerCpuHigh, obs, baseline, owners, idle) || Fires(UnknownProcess, obs, baseline, owners, idle)
          || Fires(NewOwner, obs, baseline, owners, idle);
    }
  }

  /** Exactly the reasons a verdict gives. */
  ghost predicate Explains(v: GpuVerdict, obs: GpuObservation, baseline: int, owners: set<ContainerId>,
                           idle: IdleConfig,
                           reclaim: ReclaimConfig, lent: bool, blocked: bool)
  {
    var active := IsActivity(obs, baseline, owners, idle);
    forall r :: r in v.reasons <==>
      if !obs.ok then r == ObservationFailed
      else
        || ((lent || active) && Fires(r, obs, baseline, owners, idle))
        || (lent && r == LowFreeMemory && obs.FreeMemory() < reclaim.memReserve / 2)
        || ((lent || !active) && r == BlockedByAdmin && blocked)
  }

  class GpuTracker {
    const uuid: GpuId
    var lastActive: Time
    var memBaseline: int
    var prevOwners: set<ContainerId>
    ghost var history: History

    /** The three fields are exactly what the history says. */
    ghost predicate Valid()
      reads this
    {
      var n := |history.updates|;
      && lastActive == LastDisturbed(history, n)
      && memBaseline == Baseline(history, n)
      && prevOwners == Owners(history, n)
    }

    /** A new tracker treats its GPU as just used. */
    constructor (first: GpuObservation, now: Time)
      ensures Valid()
      ensures uuid == first.uuid && history == History(first, now, [])
    {
      uuid := first.uuid;
      lastActive := now;
      memBaseline := if first.ok then first.OwnerMemory() else 0;
      prevOwners := if first.ok then first.ownerContainers else {};
      history := History(first, now, []);
    }

    method ActivityReasons(obs: GpuObservation, idle: IdleConfig) returns (reasons: seq<Reason>)
      ensures reasons != [] <==> IsActivity(obs, memBaseline, prevOwners, idle)
      ensures forall r :: r in reasons <==> Fires(r, obs, memBaseline, prevOwners, idle)
    {
      reasons := [];
      if obs.OwnerUtil() > idle.ownerUtilThreshold {
        reasons := reasons + [OwnerUtilHigh];
      }
      if obs.OwnerMemory() > memBaseline + idle.ownerMemDelta {
        reasons := reasons + [OwnerMemoryGrew];
      }
      if idle.ownerCpuThreshold > 0.0 && obs.ownerCpuCores.Some? && obs.ownerCpuCores.value > idle.ownerCpuThreshold {
        reasons := reasons + [OwnerCpuHigh];
      }
      if obs.HasUnknown() {
        reasons := reasons + [UnknownProcess];
      }
      var newOwners := obs.ownerContainers - prevOwners;
      if newOwners != {} {
        reasons := reasons + [NewOwner];
        var c :| c in newOwners;
        assert c in obs.ownerContainers && c !in prevOwners;
      } else {
        assert forall c | c in obs.ownerContainers :: c !in newOwners;
      }
      assert IsActivity(obs, memBaseline, prevOwners, idle) <==>
        exists r :: Fires(r, obs, memBaseline, prevOwners, idle) by {
        AnyRuleFires(obs, memBaseline, prevOwners, idle);
      }
    }

    /** One observation. The new fields again agree with the extended history, and the verdict is the
        one the specification prescribes for it. */
    method Update(obs: GpuObservation, now: Time, idle: IdleConfig, reclaim: ReclaimConfig,
                  lent: bool, reclaiming: bool, blocked: bool) returns (verdict: GpuVerdict)
      requires Valid()
      modifies this
      ensures Valid()
      ensures history == old(history).Push(Sighting(obs, now, idle))
      ensures var n := |old(history).updates|;
              Judges(verdict, obs, Active(history, n), LastDisturbed(history, n + 1), now,
                     idle, reclaim, lent, reclaiming, blocked)
              && Explains(verdict, obs, Baseline(history, n), Owners(history, n), idle, reclaim, lent, blocked)
    {
      ghost var before, n := history, |history.updates|;
      history := history.Push(Sighting(obs, now, idle));
      SpecIsCausal(before, history, n);
      verdict := Decide(obs, now, idle, reclaim, lent, reclaiming, blocked);
    }

    method Decide(obs: GpuObservation, now: Time, idle: IdleConfig, reclaim: ReclaimConfig,
                  lent: bool, reclaiming: bool, blocked: bool) returns (verdict: GpuVerdict)
      requires |history.updates| > 0
      requires var n := |history.updates| - 1;
               && history.updates[n] == Sighting(obs, now, idle)
               && lastActive == LastDisturbed(history, n)
               && memBaseline == Baseline(history, n)
               && prevOwners == Owners(history, n)
      modifies this`lastActive, this`memBaseline, this`prevOwners
      ensures Valid()
      ensures var n := |history.updates| - 1;
              Judges(verdict, obs, Active(history, n), LastDisturbed(history, n + 1), now,
                     idle, reclaim, lent, reclaiming, blocked)
              && Explains(verdict, obs, Baseline(history, n), Owners(history, n), idle, reclaim, lent, blocked)
    {
      if !obs.ok {
        lastActive := now;
        return GpuVerdict(obs.uuid, Unobserved, false, lent && !reclaiming, [ObservationFailed], 0, 0.0, obs.model);
      }
      var activity := ActivityReasons(obs, idle);
      prevOwners := obs.ownerContainers;
      if activity != [] {
        lastActive := now;
        memBaseline := obs.OwnerMemory();
      } else {
        memBaseline := Min(memBaseline, obs.OwnerMemory());
      }
      var idleFor := now - lastActive;
      var lendableMemory := Max(obs.FreeMemory() - reclaim.memReserve, 0);
      if lent {
        var reasons := activity;
        if obs.FreeMemory() < reclaim.memReserve / 2 {
          reasons := reasons + [LowFreeMemory];
        }
        if blocked {
          reasons := reasons + [BlockedByAdmin];
        }
        var must := reasons != [] && !reclaiming;
        var state := if reclaiming || must then Reclaiming else Lent;
        return GpuVerdict(obs.uuid, state, false, must, reasons, 0, idleFor, obs.model);
      }
      if activity != [] {
        return GpuVerdict(obs.uuid, Busy, false, false, activity, 0, idleFor, obs.model);
      }
      var wait := if obs.ownerContainers != {} then idle.idleSeconds else idle.unclaimedGraceSeconds;
      if blocked || idleFor < wait || lendableMemory <= 0 {
        return GpuVerdict(obs.uuid, Idle, false, false, if blocked then [BlockedByAdmin] else [], 0, idleFor,
                          obs.model);
      }
      return GpuVerdict(obs.uuid, Lendable, true, false, [], lendableMemory, idleFor, obs.model);
    }
  }
}
