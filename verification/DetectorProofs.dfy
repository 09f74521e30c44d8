/** What the detector guarantees over a whole history of observations. */
module DetectorProofs {
  import opened Model
  import opened Detector

  /** Tick times never go backwards. */
  ghost predicate Chronological(h: History) {
    && (forall i | 0 <= i < |h.updates| :: h.born <= h.updates[i].now)
    && (forall i, j | 0 <= i < j < |h.updates| :: h.updates[i].now <= h.updates[j].now)
  }

  /** No update in `[from, to)` was activity. */
  ghost predicate NoActivity(h: History, from: nat, to: nat)
    requires to <= |h.updates|
  {
    forall k | from <= k < to :: !Active(h, k)
  }

  // ---- what the three remembered fields mean ----

  /** `LastActiveIndex` is the latest active update. */
  lemma {:induction false} LastActiveIndexIsLatest(h: History, n: nat)
    requires n <= |h.updates|
    ensures var i := LastActiveIndex(h, n);
            && (i >= 0 ==> Active(h, i))
            && NoActivity(h, i + 1, n)
  {
    if n > 0 && !Active(h, n - 1) {
      LastActiveIndexIsLatest(h, n - 1);
    }
  }

  lemma {:induction false} LeastMemoryIsLeast(h: History, from: int, n: nat)
    requires -1 <= from < n <= |h.updates|
    ensures LeastMemory(h, from, n) <= MemoryAt(h, from)
    ensures forall k | from < k < n && h.updates[k].obs.ok :: LeastMemory(h, from, n) <= h.updates[k].obs.OwnerMemory()
    ensures LeastMemory(h, from, n) == MemoryAt(h, from)
            || exists k :: from < k < n && h.updates[k].obs.ok
                  && LeastMemory(h, from, n) == h.updates[k].obs.OwnerMemory()
    decreases n
  {
    if n > from + 1 {
      LeastMemoryIsLeast(h, from, n - 1);
    }
  }

  /** The memory baseline is the minimum of the owner memory over the successful updates since, and
      including, the last active one (or since the creation): a lower bound that is attained. */
  lemma {:induction false} BaselineIsMinimum(h: History, n: nat)
    requires n <= |h.updates|
    ensures var i := LastActiveIndex(h, n);
            && Baseline(h, n) <= MemoryAt(h, i)
            && (forall k | i < k < n && h.updates[k].obs.ok :: Baseline(h, n) <= h.updates[k].obs.OwnerMemory())
            && (Baseline(h, n) == MemoryAt(h, i)
                || exists k :: i < k < n && h.updates[k].obs.ok && Baseline(h, n) == h.updates[k].obs.OwnerMemory())
  {
    LeastMemoryIsLeast(h, LastActiveIndex(h, n), n);
  }

  /** The idle clock starts at the latest disturbance: at the creation if nothing was disturbed since,
      otherwise at some disturbed update after which every update was calm. */
  lemma {:induction false} ClockStartsAtLatestDisturbance(h: History, n: nat) returns (i: int)
    requires n <= |h.updates|
    ensures -1 <= i < n
    ensures i == -1 ==> LastDisturbed(h, n) == h.born
    ensures i >= 0 ==> Disturbs(h, i) && LastDisturbed(h, n) == h.updates[i].now
    ensures forall k | i < k < n :: !Disturbs(h, k)
  {
    if n == 0 {
      i := -1;
    } else if Disturbs(h, n - 1) {
      i := n - 1;
    } else {
      i := ClockStartsAtLatestDisturbance(h, n - 1);
    }
  }

  // ---- quiet window ----

  /** The tracker already existed `wait` before `now`, and every one of its first `n` updates received
      later than that was successful and inactive. */
  ghost predicate QuietWindow(h: History, n: nat, now: Time, wait: real)
    requires n <= |h.updates|
  {
    && h.born <= now - wait
    && forall k | 0 <= k < n && h.updates[k].now > now - wait :: h.updates[k].obs.ok && !Active(h, k)
  }

  /** The idle clock reaches `wait` exactly when the window of that length was quiet. */
  lemma {:induction false} IdleClockMeansQuietWindow(h: History, n: nat, now: Time, wait: real)
    requires Chronological(h) && n <= |h.updates|
    ensures now - LastDisturbed(h, n) >= wait <==> QuietWindow(h, n, now, wait)
  {
    var i := ClockStartsAtLatestDisturbance(h, n);
    if now - LastDisturbed(h, n) >= wait {
      assert h.born <= LastDisturbed(h, n);
      forall k | 0 <= k < n && h.updates[k].now > now - wait ensures !Disturbs(h, k) {
        assert i < 0 || h.updates[i].now <= now - wait;
      }
    } else if i >= 0 {
      assert Disturbs(h, i);
    }
  }

  /** Along quiet successful updates owner sets only shrink. */
  lemma {:induction false} OwnersOnlyShrink(h: History, i: nat, j: nat)
    requires i <= j < |h.updates|
    requires forall k | i <= k <= j :: h.updates[k].obs.ok && !Active(h, k)
    ensures h.updates[j].obs.ownerContainers <= h.updates[i].obs.ownerContainers
    decreases j
  {
    if i < j {
      OwnersOnlyShrink(h, i, j - 1);
      assert Owners(h, j) == h.updates[j - 1].obs.ownerContainers;
    }
  }

  /** The window was quiet, and every owner of the last of the `n` updates was present throughout it. */
  ghost predicate QuietWithOwners(h: History, n: nat, wait: real)
    requires 0 < n <= |h.updates|
  {
    var u := h.updates[n - 1];
    && QuietWindow(h, n, u.now, wait)
    && forall k | 0 <= k < n && h.updates[k].now > u.now - wait ::
         u.obs.ownerContainers <= h.updates[k].obs.ownerContainers
  }

  /** Owner first: the last update is judged lendable exactly when the GPU is not lent and not blocked,
      leaves more than the reserve free, and has been quiet for `idleSeconds` with the owners it has now, or
      without owners for `unclaimedGraceSeconds`. */
  lemma {:induction false} LendableMeansQuiet(h: History, v: GpuVerdict, reclaim: ReclaimConfig,
                                              lent: bool, reclaiming: bool, blocked: bool)
    requires Chronological(h) && |h.updates| > 0
    requires var n := |h.updates| - 1; var u := h.updates[n];
             Judges(v, u.obs, Active(h, n), LastDisturbed(h, n + 1), u.now, u.idle, reclaim, lent, reclaiming, blocked)
    ensures var n := |h.updates| - 1; var u := h.updates[n];
            v.lendable <==>
              && u.obs.ok && !Active(h, n) && !lent && !blocked
              && u.obs.totalMemory - u.obs.usedMemory > reclaim.memReserve
              && (u.obs.ownerContainers != {} ==> QuietWithOwners(h, n + 1, u.idle.idleSeconds))
              && (u.obs.ownerContainers == {} ==> QuietWithOwners(h, n + 1, u.idle.unclaimedGraceSeconds))
  {
    var n := |h.updates| - 1;
    var u := h.updates[n];
    hide Active, LastDisturbed;
    IdleClockMeansQuietWindow(h, n + 1, u.now, u.idle.idleSeconds);
    IdleClockMeansQuietWindow(h, n + 1, u.now, u.idle.unclaimedGraceSeconds);
    if u.obs.ok && !Active(h, n) {
      OwnersStayed(h, u.idle.idleSeconds);
      OwnersStayed(h, u.idle.unclaimedGraceSeconds);
    }
  }

  lemma OwnersStayed(h: History, wait: real)
    requires Chronological(h) && |h.updates| > 0
    requires var n := |h.updates| - 1; h.updates[n].obs.ok && !Active(h, n)
    ensures var n := |h.updates|;
            QuietWindow(h, n, h.updates[n - 1].now, wait) ==> QuietWithOwners(h, n, wait)
  {
    hide Active;
    var n := |h.updates| - 1;
    var u := h.updates[n];
    if QuietWindow(h, n + 1, u.now, wait) {
      forall k | 0 <= k <= n && h.updates[k].now > u.now - wait
        ensures u.obs.ownerContainers <= h.updates[k].obs.ownerContainers
      {
        forall m | k <= m <= n ensures h.updates[m].obs.ok && !Active(h, m) {
          assert h.updates[k].now <= h.updates[m].now;
        }
        OwnersOnlyShrink(h, k, n);
      }
    }
  }

  // ---- what counts as activity ----

  /** No update strictly between `k` and `n` was activity. */
  ghost predicate CalmBetween(h: History, k: int, n: nat)
    requires -1 <= k < n <= |h.updates|
  {
    forall m | k < m < n :: !Active(h, m)
  }

  /** Owner memory exceeds what was held at some look since the last activity (and including it), or at the
      creation if there was none, by more than the delta. */
  ghost predicate GrewSince(h: History, n: nat, memory: int, delta: int)
    requires n <= |h.updates|
  {
    || (exists k | 0 <= k < n ::
          h.updates[k].obs.ok && CalmBetween(h, k, n) && memory > h.updates[k].obs.OwnerMemory() + delta)
    || (CalmBetween(h, -1, n) && memory > (if h.first.ok then h.first.OwnerMemory() else 0) + delta)
  }

  /** The container owned the GPU when it was last seen before update `n`. */
  ghost predicate WasOwner(h: History, n: nat, c: ContainerId)
    requires n <= |h.updates|
  {
    || (exists k | 0 <= k < n ::
          h.updates[k].obs.ok && c in h.updates[k].obs.ownerContainers && forall m | k < m < n :: !h.updates[m].obs.ok)
    || (h.first.ok && c in h.first.ownerContainers && forall m | 0 <= m < n :: !h.updates[m].obs.ok)
  }

  lemma {:induction false} OwnersAreLastSeen(h: History, n: nat, c: ContainerId)
    requires n <= |h.updates|
    ensures c in Owners(h, n) <==> WasOwner(h, n, c)
  {
    if n > 0 {
      OwnersAreLastSeen(h, n - 1, c);
    }
  }

  lemma ExceededMeansGrown(h: History, n: nat, memory: int, delta: int)
    requires n <= |h.updates| && memory > Baseline(h, n) + delta
    ensures GrewSince(h, n, memory, delta)
  {
    var i := LastActiveIndex(h, n);
    LastActiveIndexIsLatest(h, n);
    BaselineIsMinimum(h, n);
    assert i >= 0 ==> h.updates[i].obs.ok;
    hide Active, Baseline, LastActiveIndex, MemoryOf;
    if i >= 0 && Baseline(h, n) == h.updates[i].obs.OwnerMemory() {
      assert CalmBetween(h, i, n);
    } else if k :| i < k < n && h.updates[k].obs.ok && Baseline(h, n) == h.updates[k].obs.OwnerMemory() {
      assert CalmBetween(h, k, n);
    }
  }

  lemma NotExceededMeansNotGrown(h: History, n: nat, memory: int, delta: int)
    requires n <= |h.updates| && memory <= Baseline(h, n) + delta
    ensures !GrewSince(h, n, memory, delta)
  {
    var i := LastActiveIndex(h, n);
    LastActiveIndexIsLatest(h, n);
    BaselineIsMinimum(h, n);
    forall k | -1 <= k < n && CalmBetween(h, k, n) ensures i <= k {}
    hide *;
    assert i >= 0 ==> MemoryAt(h, i) == h.updates[i].obs.OwnerMemory() by { MemoryThen(h, i); }
    forall k | 0 <= k < n && h.updates[k].obs.ok && CalmBetween(h, k, n)
      ensures memory <= h.updates[k].obs.OwnerMemory() + delta
    {
      assert k == i || k > i;
    }
    MemoryThen(h, -1);
    NotGrown(h, n, memory, delta);
  }

  lemma MemoryThen(h: History, i: int)
    requires -1 <= i < |h.updates|
    ensures i >= 0 ==> MemoryAt(h, i) == h.updates[i].obs.OwnerMemory()
    ensures i == -1 ==> MemoryAt(h, i) == if h.first.ok then h.first.OwnerMemory() else 0
  {}

  lemma NotGrown(h: History, n: nat, memory: int, delta: int)
    requires n <= |h.updates|
    requires forall k | 0 <= k < n && h.updates[k].obs.ok && CalmBetween(h, k, n) ::
               memory <= h.updates[k].obs.OwnerMemory() + delta
    requires CalmBetween(h, -1, n) ==> memory <= (if h.first.ok then h.first.OwnerMemory() else 0) + delta
    ensures !GrewSince(h, n, memory, delta)
  {}

  lemma BaselineIsExceeded(h: History, n: nat, memory: int, delta: int)
    requires n <= |h.updates|
    ensures memory > Baseline(h, n) + delta <==> GrewSince(h, n, memory, delta)
  {
    if memory > Baseline(h, n) + delta {
      ExceededMeansGrown(h, n, memory, delta);
    } else {
      NotExceededMeansNotGrown(h, n, memory, delta);
    }
  }

  lemma NewOwnersInFull(h: History, n: nat, owners: set<ContainerId>)
    requires n <= |h.updates|
    ensures owners <= Owners(h, n) <==> !exists c | c in owners :: !WasOwner(h, n, c)
  {
    forall c ensures c in Owners(h, n) <==> WasOwner(h, n, c) {
      OwnersAreLastSeen(h, n, c);
    }
    hide WasOwner, Owners;
  }

  lemma UnknownInFull(obs: GpuObservation)
    ensures obs.HasUnknown() <==> exists i | 0 <= i < |obs.processes| :: obs.processes[i].kind == Unknown
  {
    if p :| p in obs.processes && p.kind == Unknown {
      var i :| 0 <= i < |obs.processes| && obs.processes[i] == p;
    }
  }

  /** A look is activity exactly when the GPU was read and: its owners together use more SM than the threshold,
      or hold more memory than at some look since the last activity plus the delta, or measurably use more CPU
      than a positive threshold; or some process is unknown; or some owner is new since the GPU was last seen. */
  lemma ActivityInFull(h: History, n: nat)
    requires n < |h.updates|
    ensures var u := h.updates[n];
            Active(h, n) <==> (u.obs.ok && (
              || UtilOf(u.obs.processes, Owner) > u.idle.ownerUtilThreshold
              || GrewSince(h, n, MemoryOf(u.obs.processes, Owner), u.idle.ownerMemDelta)
              || (u.idle.ownerCpuThreshold > 0.0 && u.obs.ownerCpuCores.Some?
                    && u.obs.ownerCpuCores.value > u.idle.ownerCpuThreshold)
              || (exists i | 0 <= i < |u.obs.processes| :: u.obs.processes[i].kind == Unknown)
              || (exists c | c in u.obs.ownerContainers :: !WasOwner(h, n, c))))
  {
    var u := h.updates[n];
    BaselineIsExceeded(h, n, u.obs.OwnerMemory(), u.idle.ownerMemDelta);
    NewOwnersInFull(h, n, u.obs.ownerContainers);
    UnknownInFull(u.obs);
    hide GrewSince, WasOwner, Baseline, Owners, MemoryOf, UtilOf;
  }

  lemma ReasonGiven(r: Reason, v: GpuVerdict, obs: GpuObservation, baseline: int, owners: set<ContainerId>,
                    idle: IdleConfig, reclaim: ReclaimConfig, lent: bool, blocked: bool)
    requires Explains(v, obs, baseline, owners, idle, reclaim, lent, blocked)
    ensures r in v.reasons <==>
              if !obs.ok then r == ObservationFailed
              else
                || Fires(r, obs, baseline, owners, idle)
                || (r == LowFreeMemory && lent && obs.FreeMemory() < reclaim.memReserve / 2)
                || (r == BlockedByAdmin && blocked && (lent || !IsActivity(obs, baseline, owners, idle)))
  {
    AnyRuleFires(obs, baseline, owners, idle);
    hide Fires, IsActivity;
  }

  /** Every reason a verdict gives is true, and every true one that matters is given: activity always, low memory for
      a lent GPU, a block unless an unlent GPU is busy anyway; of a failed look only the failure. */
  lemma ReasonsInFull(h: History, n: nat, v: GpuVerdict, reclaim: ReclaimConfig, lent: bool, blocked: bool)
    requires n < |h.updates|
    requires var u := h.updates[n];
             Explains(v, u.obs, Baseline(h, n), Owners(h, n), u.idle, reclaim, lent, blocked)
    ensures var u := h.updates[n]; var seen := u.obs.ok;
            && (ObservationFailed in v.reasons <==> !seen)
            && (UnknownProcess in v.reasons <==>
                  seen && exists i | 0 <= i < |u.obs.processes| :: u.obs.processes[i].kind == Unknown)
            && (NewOwner in v.reasons <==> seen && exists c | c in u.obs.ownerContainers :: !WasOwner(h, n, c))
            && (OwnerMemoryGrew in v.reasons <==>
                  seen && GrewSince(h, n, MemoryOf(u.obs.processes, Owner), u.idle.ownerMemDelta))
            && (OwnerUtilHigh in v.reasons <==>
                  seen && UtilOf(u.obs.processes, Owner) > u.idle.ownerUtilThreshold)
            && (OwnerCpuHigh in v.reasons <==>
                  && seen && u.idle.ownerCpuThreshold > 0.0
                  && u.obs.ownerCpuCores.Some? && u.obs.ownerCpuCores.value > u.idle.ownerCpuThreshold)
            && (LowFreeMemory in v.reasons <==>
                  seen && lent && u.obs.totalMemory - u.obs.usedMemory < reclaim.memReserve / 2)
            && (BlockedByAdmin in v.reasons <==> seen && blocked && (lent || !Active(h, n)))
            && GpuVanished !in v.reasons
  {
    var u := h.updates[n];
    BaselineIsExceeded(h, n, u.obs.OwnerMemory(), u.idle.ownerMemDelta);
    NewOwnersInFull(h, n, u.obs.ownerContainers);
    UnknownInFull(u.obs);
    assert Active(h, n) <==> u.obs.ok && IsActivity(u.obs, Baseline(h, n), Owners(h, n), u.idle);
    hide GrewSince, WasOwner, Baseline, Owners, MemoryOf, UtilOf, Explains, IsActivity, Active,
      GpuObservation.HasUnknown;
    var base, owners := Baseline(h, n), Owners(h, n);
    ReasonGiven(ObservationFailed, v, u.obs, base, owners, u.idle, reclaim, lent, blocked);
    ReasonGiven(LowFreeMemory, v, u.obs, base, owners, u.idle, reclaim, lent, blocked);
    ReasonGiven(BlockedByAdmin, v, u.obs, base, owners, u.idle, reclaim, lent, blocked);
    ReasonGiven(GpuVanished, v, u.obs, base, owners, u.idle, reclaim, lent, blocked);
    RulesAsReasons(v, u.obs, base, owners, u.idle, reclaim, lent, blocked);
  }

  lemma RulesAsReasons(v: GpuVerdict, obs: GpuObservation, base: int, owners: set<ContainerId>, idle: IdleConfig,
                       reclaim: ReclaimConfig, lent: bool, blocked: bool)
    requires Explains(v, obs, base, owners, idle, reclaim, lent, blocked)
    ensures UnknownProcess in v.reasons <==> obs.ok && obs.HasUnknown()
    ensures NewOwner in v.reasons <==> obs.ok && !(obs.ownerContainers <= owners)
    ensures OwnerMemoryGrew in v.reasons <==> obs.ok && obs.OwnerMemory() > base + idle.ownerMemDelta
    ensures OwnerUtilHigh in v.reasons <==> obs.ok && obs.OwnerUtil() > idle.ownerUtilThreshold
    ensures OwnerCpuHigh in v.reasons <==>
              && obs.ok && idle.ownerCpuThreshold > 0.0
              && obs.ownerCpuCores.Some? && obs.ownerCpuCores.value > idle.ownerCpuThreshold
  {
    hide Explains, IsActivity, MemoryOf, UtilOf;
    ReasonGiven(UnknownProcess, v, obs, base, owners, idle, reclaim, lent, blocked);
    ReasonGiven(NewOwner, v, obs, base, owners, idle, reclaim, lent, blocked);
    ReasonGiven(OwnerMemoryGrew, v, obs, base, owners, idle, reclaim, lent, blocked);
    ReasonGiven(OwnerUtilHigh, v, obs, base, owners, idle, reclaim, lent, blocked);
    ReasonGiven(OwnerCpuHigh, v, obs, base, owners, idle, reclaim, lent, blocked);
  }

  /** The memory and the utilisation of a kind are the sums over its processes. */
  lemma {:induction false} UseAddsUp(ps: seq<ClassifiedProcess>, qs: seq<ClassifiedProcess>, kind: ProcKind)
    ensures MemoryOf(ps + qs, kind) == MemoryOf(ps, kind) + MemoryOf(qs, kind)
    ensures UtilOf(ps + qs, kind) == UtilOf(ps, kind) + UtilOf(qs, kind)
    ensures forall p: ClassifiedProcess ::
              && MemoryOf([p], kind) == (if p.kind == kind then p.usedMemory else 0)
              && UtilOf([p], kind) == if p.kind == kind then p.smUtil else 0
  {
    forall p: ClassifiedProcess
      ensures MemoryOf([p], kind) == (if p.kind == kind then p.usedMemory else 0)
      ensures UtilOf([p], kind) == if p.kind == kind then p.smUtil else 0
    {
      OneProcessCounts(p, kind);
    }
    if ps == [] {
      assert ps + qs == qs;
    } else {
      assert (ps + qs)[0] == ps[0] && (ps + qs)[1..] == ps[1..] + qs;
      UseAddsUp(ps[1..], qs, kind);
    }
  }

  lemma OneProcessCounts(p: ClassifiedProcess, kind: ProcKind)
    ensures MemoryOf([p], kind) == (if p.kind == kind then p.usedMemory else 0)
    ensures UtilOf([p], kind) == if p.kind == kind then p.smUtil else 0
  {
    assert [p][1..] == [];
  }

  /** After a failed look the wait starts over: an unlent GPU seen again is busy only if it shows activity
      (being seen again is not activity), and otherwise idle, with its clock at the failure. */
  lemma {:induction false} RecoveredGpuWaitsAgain(h: History, n: nat, v: GpuVerdict, reclaim: ReclaimConfig,
                                                  blocked: bool)
    requires 0 < n < |h.updates| && !h.updates[n - 1].obs.ok && h.updates[n].obs.ok
    requires var u := h.updates[n];
             Judges(v, u.obs, Active(h, n), LastDisturbed(h, n + 1), u.now, u.idle, reclaim, false, false, blocked)
    ensures v.state == Busy <==> Active(h, n)
    ensures !Active(h, n) ==> v.idleFor == h.updates[n].now - h.updates[n - 1].now
    ensures v.lendable ==>
      var u := h.updates[n];
      u.now - h.updates[n - 1].now
        >= if u.obs.ownerContainers != {} then u.idle.idleSeconds else u.idle.unclaimedGraceSeconds
  {
    assert LastDisturbed(h, n) == h.updates[n - 1].now;
  }

  // ---- spot load is invisible ----

  function WithoutSpot(ps: seq<ClassifiedProcess>): (r: seq<ClassifiedProcess>)
    ensures forall p :: p in r <==> p in ps && p.kind != Spot
  {
    if ps == [] then []
    else if ps[0].kind == Spot then WithoutSpot(ps[1..])
    else [ps[0]] + WithoutSpot(ps[1..])
  }

  /** What is left is a sub-list: the other processes, in their order, as often as they occur. */
  lemma {:induction false} WithoutSpotKeepsTheRest(ps: seq<ClassifiedProcess>, qs: seq<ClassifiedProcess>)
    ensures WithoutSpot(ps + qs) == WithoutSpot(ps) + WithoutSpot(qs)
    ensures forall p :: multiset(WithoutSpot(ps))[p] == if p.kind == Spot then 0 else multiset(ps)[p]
  {
    if ps == [] {
      assert ps + qs == qs;
    } else {
      assert (ps + qs)[1..] == ps[1..] + qs;
      assert ps == [ps[0]] + ps[1..];
      WithoutSpotKeepsTheRest(ps[1..], qs);
    }
  }

  /** The same GPU as seen by its owners: spot processes and total memory use may differ freely. */
  ghost predicate SameOwnerView(a: GpuObservation, b: GpuObservation) {
    && a.ok == b.ok
    && (a.ok ==>
        && WithoutSpot(a.processes) == WithoutSpot(b.processes)
        && a.ownerContainers == b.ownerContainers
        && a.ownerCpuCores == b.ownerCpuCores)
  }

  ghost predicate SameOwnerHistory(h: History, k: History) {
    && SameOwnerView(h.first, k.first) && h.born == k.born
    && |h.updates| == |k.updates|
    && forall i | 0 <= i < |h.updates| ::
      && SameOwnerView(h.updates[i].obs, k.updates[i].obs)
      && h.updates[i].now == k.updates[i].now
      && h.updates[i].idle == k.updates[i].idle
  }

  lemma {:induction false} OwnerSumsIgnoreSpot(ps: seq<ClassifiedProcess>)
    ensures MemoryOf(ps, Owner) == MemoryOf(WithoutSpot(ps), Owner)
    ensures UtilOf(ps, Owner) == UtilOf(WithoutSpot(ps), Owner)
  {
    if ps != [] {
      OwnerSumsIgnoreSpot(ps[1..]);
    }
  }

  lemma OwnerViewDecidesActivity(a: GpuObservation, b: GpuObservation, baseline: int,
                                 owners: set<ContainerId>, idle: IdleConfig)
    requires SameOwnerView(a, b) && a.ok
    ensures a.OwnerMemory() == b.OwnerMemory()
    ensures IsActivity(a, baseline, owners, idle) == IsActivity(b, baseline, owners, idle)
  {
    OwnerSumsIgnoreSpot(a.processes);
    OwnerSumsIgnoreSpot(b.processes);
    UnknownIgnoresSpot(a.processes);
    UnknownIgnoresSpot(b.processes);
  }

  lemma UnknownIgnoresSpot(ps: seq<ClassifiedProcess>)
    ensures (exists p | p in ps :: p.kind == Unknown) <==> (exists p | p in WithoutSpot(ps) :: p.kind == Unknown)
  {
    if p :| p in ps && p.kind == Unknown {
      assert p in WithoutSpot(ps);
    }
  }

  lemma {:induction false} LeastMemoryIgnoresSpot(h: History, k: History, from: int, n: nat)
    requires SameOwnerHistory(h, k)
    requires -1 <= from < n <= |h.updates|
    requires from >= 0 ==> h.updates[from].obs.ok
    ensures LeastMemory(h, from, n) == LeastMemory(k, from, n)
    decreases n
  {
    if n == from + 1 {
      var a := if from == -1 then h.first else h.updates[from].obs;
      var b := if from == -1 then k.first else k.updates[from].obs;
      if a.ok {
        OwnerSumsIgnoreSpot(a.processes);
        OwnerSumsIgnoreSpot(b.processes);
      }
    } else {
      LeastMemoryIgnoresSpot(h, k, from, n - 1);
      if h.updates[n - 1].obs.ok {
        OwnerSumsIgnoreSpot(h.updates[n - 1].obs.processes);
        OwnerSumsIgnoreSpot(k.updates[n - 1].obs.processes);
      }
    }
  }

  /** Non-interference: whatever spot jobs do to a GPU, and however it was lent, reclaimed or blocked,
      two trackers shown the same owners remember the same three values at every step. */
  lemma {:induction false} SpotLoadIsInvisible(h: History, k: History, n: nat)
    requires SameOwnerHistory(h, k) && n <= |h.updates|
    ensures LastActiveIndex(h, n) == LastActiveIndex(k, n)
    ensures LastDisturbed(h, n) == LastDisturbed(k, n)
    ensures Baseline(h, n) == Baseline(k, n)
    ensures Owners(h, n) == Owners(k, n)
    ensures forall i | 0 <= i < n :: Active(h, i) == Active(k, i)
  {
    if n > 0 {
      SpotLoadIsInvisible(h, k, n - 1);
      var a, b := h.updates[n - 1], k.updates[n - 1];
      if a.obs.ok {
        OwnerViewDecidesActivity(a.obs, b.obs, Baseline(h, n - 1), Owners(h, n - 1), a.idle);
      }
      assert Active(h, n - 1) == Active(k, n - 1);
    }
    var i := LastActiveIndex(h, n);
    LastActiveIndexIsLatest(h, n);
    LeastMemoryIgnoresSpot(h, k, i, n);
  }

  // ---- owner memory headroom ----

  /** Memory used by neither owners nor spots. */
  function OverheadOf(obs: GpuObservation): int {
    obs.usedMemory - obs.OwnerMemory() - obs.SpotMemory()
  }

  /** The limit that the container really gets: whole MiB, and never below one. */
  function EnforcedLimit(gpuMemLimit: int): int {
    Max(gpuMemLimit / MIB, 1) * MIB
  }

  lemma {:induction false} EnforcedLimitFits(gpuMemLimit: int)
    requires gpuMemLimit >= 0
    ensures EnforcedLimit(gpuMemLimit) <= gpuMemLimit <==> gpuMemLimit >= MIB
    ensures EnforcedLimit(gpuMemLimit) <= Max(gpuMemLimit, MIB)
    ensures gpuMemLimit - MIB < EnforcedLimit(gpuMemLimit)
  {
    assert gpuMemLimit == gpuMemLimit / MIB * MIB + gpuMemLimit % MIB;
  }

  /** However slowly the owner grows, a quiet owner stays within the delta of what it held at `m`. */
  lemma {:induction false} QuietOwnerGrowthIsBounded(h: History, m: nat, t: nat)
    requires m < t < |h.updates|
    requires h.updates[m].obs.ok && h.updates[t].obs.ok && NoActivity(h, m, t + 1)
    ensures h.updates[t].obs.OwnerMemory() <= h.updates[m].obs.OwnerMemory() + h.updates[t].idle.ownerMemDelta
  {
    LastActiveIndexIsLatest(h, t);
    BaselineIsMinimum(h, t);
    assert LastActiveIndex(h, t) < m;
    assert !Active(h, t);
  }

  /** Headroom: a job launched at update `m` with the limit `total - used - reserve`, staying within the
      limit its container got, leaves at least `reserve - delta` free at every quiet update `t` (less only
      what the 1 MiB floor added to the limit), if nothing else on the GPU grew. So with a delta of at
      most `reserve - reserve / 2` the low-memory rule never fires against a quiet owner. */
  lemma {:induction false} HeadroomIsKept(h: History, m: nat, t: nat, reclaim: ReclaimConfig)
    requires m < t < |h.updates|
    requires var l, u := h.updates[m].obs, h.updates[t].obs;
             && l.ok && u.ok && NoActivity(h, m, t + 1)
             && l.FreeMemory() > reclaim.memReserve
             && u.totalMemory == l.totalMemory
             && OverheadOf(u) <= OverheadOf(l)
             && u.SpotMemory() <= EnforcedLimit(l.FreeMemory() - reclaim.memReserve)
    ensures var l, u := h.updates[m].obs, h.updates[t].obs;
            var limit, delta := l.FreeMemory() - reclaim.memReserve, h.updates[t].idle.ownerMemDelta;
            && (u.FreeMemory() >= reclaim.memReserve - delta - Max(MIB - limit, 0))
            && (limit >= MIB ==> u.FreeMemory() >= reclaim.memReserve - delta)
            && (limit >= MIB && delta <= reclaim.memReserve - reclaim.memReserve / 2 ==>
                  u.FreeMemory() >= reclaim.memReserve / 2)
  {
    QuietOwnerGrowthIsBounded(h, m, t);
    EnforcedLimitFits(h.updates[m].obs.FreeMemory() - reclaim.memReserve);
  }

  /** Hence such a GPU, lent and neither blocked nor being reclaimed, stays lent. */
  lemma QuietLentGpuStaysLent(h: History, m: nat, t: nat, reclaim: ReclaimConfig, v: GpuVerdict)
    requires m < t < |h.updates|
    requires var l, u := h.updates[m].obs, h.updates[t].obs;
             && l.ok && u.ok && NoActivity(h, m, t + 1)
             && l.FreeMemory() >= reclaim.memReserve + MIB
             && u.totalMemory == l.totalMemory
             && OverheadOf(u) <= OverheadOf(l)
             && u.SpotMemory() <= EnforcedLimit(l.FreeMemory() - reclaim.memReserve)
             && h.updates[t].idle.ownerMemDelta <= reclaim.memReserve - reclaim.memReserve / 2
    requires var u := h.updates[t];
             Judges(v, u.obs, Active(h, t), LastDisturbed(h, t + 1), u.now, u.idle, reclaim, true, false, false)
    ensures v.state == Lent && !v.mustReclaim
  {
    HeadroomIsKept(h, m, t, reclaim);
    assert !Active(h, t);
  }
}
