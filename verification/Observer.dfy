/** Assembling per-GPU observations from NVML, Docker and the process table. */
module Observer {
  import opened Model
  import opened Ordering

  datatype GpuInfo = GpuInfo(index: nat, uuid: GpuId, name: string, totalMemory: nat)

  datatype GpuProcess = GpuProcess(pid: nat, usedMemory: nat, smUtil: nat)

  datatype GpuSnapshot = GpuSnapshot(info: GpuInfo, usedMemory: nat, processes: seq<GpuProcess>)

  /** What reading one GPU gave: nothing, or a snapshot with the containers of its processes. */
  datatype Reading = Unreadable | Read(snap: GpuSnapshot, containers: map<nat, ContainerId>)

  /** How a container names its GPUs: all of them, one by UUID, or one by NVML index. */
  datatype GpuRef = AllGpus | ByUuid(uuid: GpuId) | ByIndex(index: nat)

  datatype OwnerContainer = OwnerContainer(id: ContainerId, refs: seq<GpuRef>)

  // ---- references ----

  function Uuids(gpus: seq<GpuInfo>): set<GpuId> { set g | g in gpus :: g.uuid }

  /** The dictionary from NVML index to UUID; a later GPU wins. */
  function IndexMap(gpus: seq<GpuInfo>): map<nat, GpuId> {
    if gpus == [] then map[]
    else IndexMap(gpus[..|gpus| - 1])[gpus[|gpus| - 1].index := gpus[|gpus| - 1].uuid]
  }

  /** The GPUs one reference stands for; an unknown one stands for none. */
  function Meaning(r: GpuRef, gpus: seq<GpuInfo>): set<GpuId> {
    match r
    case AllGpus => Uuids(gpus)
    case ByUuid(u) => if u in Uuids(gpus) then {u} else {}
    case ByIndex(i) => if i in IndexMap(gpus) then {IndexMap(gpus)[i]} else {}
  }

  ghost predicate Refers(refs: seq<GpuRef>, gpus: seq<GpuInfo>, u: GpuId) {
    exists r | r in refs :: u in Meaning(r, gpus)
  }

  lemma {:induction false} IndexMapIsKnown(gpus: seq<GpuInfo>)
    ensures forall i | i in IndexMap(gpus) :: IndexMap(gpus)[i] in Uuids(gpus)
  {
    if gpus != [] {
      var front, last := gpus[..|gpus| - 1], gpus[|gpus| - 1];
      IndexMapIsKnown(front);
      assert gpus == front + [last];
      assert last in gpus;
      forall u | u in Uuids(front) ensures u in Uuids(gpus) {
        var g :| g in front && g.uuid == u;
        assert g in gpus;
      }
    }
  }

  lemma RefersAppend(refs: seq<GpuRef>, i: nat, gpus: seq<GpuInfo>)
    requires i < |refs|
    ensures forall u :: Refers(refs[..i + 1], gpus, u) <==> Refers(refs[..i], gpus, u) || u in Meaning(refs[i], gpus)
  {
    assert refs[..i + 1] == refs[..i] + [refs[i]];
    assert refs[i] in refs[..i + 1];
    forall u | Refers(refs[..i], gpus, u) ensures Refers(refs[..i + 1], gpus, u) {
      var r :| r in refs[..i] && u in Meaning(r, gpus);
      assert r in refs[..i + 1];
    }
  }

  method ResolveGpuRefs(refs: seq<GpuRef>, gpus: seq<GpuInfo>) returns (result: set<GpuId>)
    ensures forall u :: u in result <==> Refers(refs, gpus, u)
    ensures result <= Uuids(gpus)
  {
    var byIndex := IndexMap(gpus);
    var uuids := Uuids(gpus);
    IndexMapIsKnown(gpus);
    result := {};
    for i := 0 to |refs|
      invariant forall u :: u in result <==> Refers(refs[..i], gpus, u)
      invariant result <= uuids
    {
      var ref := refs[i];
      RefersAppend(refs, i, gpus);
      if ref == AllGpus {
        assert ref in refs;
        forall u | Refers(refs, gpus, u) ensures u in uuids {
          var r :| r in refs && u in Meaning(r, gpus);
        }
        return uuids;
      }
      if ref.ByUuid? && ref.uuid in uuids {
        result := result + {ref.uuid};
      } else if ref.ByIndex? && ref.index in byIndex {
        result := result + {byIndex[ref.index]};
      }
    }
    assert refs[..|refs|] == refs;
  }

  // ---- classification ----

  function ContainerOf(pid: nat, containers: map<nat, ContainerId>): Option<ContainerId> {
    if pid in containers then Some(containers[pid]) else None
  }

  /** A running spot's process belongs to the spot only on the spot's own GPU; an owner's only on a GPU
      the owner was given; everything else is unknown. */
  function KindOf(cid: Option<ContainerId>, uuid: GpuId, owners: set<ContainerId>,
                  spotGpu: map<ContainerId, GpuId>): ProcKind
  {
    if cid.Some? && cid.value in spotGpu then if spotGpu[cid.value] == uuid then Spot else Unknown
    else if cid.Some? && cid.value in owners then Owner
    else Unknown
  }

  function Classified(p: GpuProcess, uuid: GpuId, containers: map<nat, ContainerId>, owners: set<ContainerId>,
                      spotGpu: map<ContainerId, GpuId>): ClassifiedProcess
  {
    var cid := ContainerOf(p.pid, containers);
    ClassifiedProcess(p.pid, KindOf(cid, uuid, owners, spotGpu), cid, p.usedMemory, p.smUtil)
  }

  /** CPU used by the measured owners of a GPU; unmeasurable when none could be measured. */
  function OwnerCpu(owners: seq<ContainerId>, cpu: map<ContainerId, real>): Option<real> {
    if owners == [] then None
    else
      var rest := OwnerCpu(owners[..|owners| - 1], cpu);
      var last := owners[|owners| - 1];
      if last !in cpu then rest else Some(cpu[last] + if rest.Some? then rest.value else 0.0)
  }

  ghost predicate Observes(obs: GpuObservation, snap: GpuSnapshot, containers: map<nat, ContainerId>,
                           owners: set<ContainerId>, spotGpu: map<ContainerId, GpuId>, cpu: map<ContainerId, real>)
  {
    && obs.uuid == snap.info.uuid && obs.ok && obs.model == snap.info.name
    && obs.totalMemory == snap.info.totalMemory && obs.usedMemory == snap.usedMemory
    && obs.ownerContainers == owners && obs.ownerCpuCores == OwnerCpu(SortedIds(owners), cpu)
    && |obs.processes| == |snap.processes|
    && forall i | 0 <= i < |snap.processes| ::
         obs.processes[i] == Classified(snap.processes[i], snap.info.uuid, containers, owners, spotGpu)
  }

  method BuildObservation(snap: GpuSnapshot, containers: map<nat, ContainerId>, owners: set<ContainerId>,
                          spotGpu: map<ContainerId, GpuId>, cpu: map<ContainerId, real>) returns (obs: GpuObservation)
    ensures Observes(obs, snap, containers, owners, spotGpu, cpu)
  {
    var uuid := snap.info.uuid;
    var processes: seq<ClassifiedProcess> := [];
    for i := 0 to |snap.processes|
      invariant |processes| == i
      invariant forall k | 0 <= k < i ::
        processes[k] == Classified(snap.processes[k], uuid, containers, owners, spotGpu)
    {
      var p := snap.processes[i];
      var cid := ContainerOf(p.pid, containers);
      var kind: ProcKind;
      if cid.Some? && cid.value in spotGpu {
        kind := if spotGpu[cid.value] == uuid then Spot else Unknown;
      } else if cid.Some? && cid.value in owners {
        kind := Owner;
      } else {
        kind := Unknown;
      }
      processes := processes + [ClassifiedProcess(p.pid, kind, cid, p.usedMemory, p.smUtil)];
    }
    var ids := SortedIds(owners);
    var cores: Option<real> := None;
    for i := 0 to |ids|
      invariant cores == OwnerCpu(ids[..i], cpu)
    {
      assert ids[..i + 1][..i] == ids[..i];
      if ids[i] in cpu {
        cores := Some(cpu[ids[i]] + if cores.Some? then cores.value else 0.0);
      }
    }
    assert ids[..|ids|] == ids;
    obs := GpuObservation(uuid, true, snap.info.name, snap.info.totalMemory, snap.usedMemory, processes, owners, cores);
  }

  // ---- all GPUs ----

  /** The owner containers attached to a GPU. */
  ghost function OwnersOn(u: GpuId, owners: seq<OwnerContainer>, gpus: seq<GpuInfo>): set<ContainerId> {
    set o | o in owners && Refers(o.refs, gpus, u) :: o.id
  }

  /** Whether the GPU could be read and is still the GPU that was listed. */
  predicate Readable(g: GpuInfo, readings: map<nat, Reading>) {
    g.index in readings && readings[g.index].Read? && readings[g.index].snap.info.uuid == g.uuid
  }

  /** `obs` is what a tick must see of GPU `g`. */
  ghost predicate SeesGpu(obs: GpuObservation, g: GpuInfo, gpus: seq<GpuInfo>, readings: map<nat, Reading>,
                          owners: seq<OwnerContainer>, spotGpu: map<ContainerId, GpuId>, cpu: map<ContainerId, real>)
  {
    if Readable(g, readings) then
      Observes(obs, readings[g.index].snap, readings[g.index].containers, OwnersOn(g.uuid, owners, gpus), spotGpu, cpu)
    else obs == FailedObservation(g.uuid, g.name)
  }

  method OwnersByGpu(gpus: seq<GpuInfo>, owners: seq<OwnerContainer>) returns (byGpu: map<GpuId, set<ContainerId>>)
    ensures byGpu.Keys == Uuids(gpus)
    ensures forall u | u in byGpu :: byGpu[u] == OwnersOn(u, owners, gpus)
  {
    byGpu := map u | u in Uuids(gpus) :: {};
    for i := 0 to |owners|
      invariant byGpu.Keys == Uuids(gpus)
      invariant forall u | u in byGpu :: byGpu[u] == OwnersOn(u, owners[..i], gpus)
    {
      var o := owners[i];
      ghost var before := byGpu;
      var refs := ResolveGpuRefs(o.refs, gpus);
      byGpu := AttachOwner(byGpu, o.id, refs);
      forall u | u in byGpu ensures byGpu[u] == OwnersOn(u, owners[..i + 1], gpus) {
        OneMoreOwner(u, owners, i, gpus);
        assert u in refs <==> Refers(o.refs, gpus, u);
        assert byGpu[u] == before[u] + if u in refs then {o.id} else {};
      }
    }
    assert owners[..|owners|] == owners;
  }

  /** Enters one owner under each of its GPUs. */
  method AttachOwner(byGpu: map<GpuId, set<ContainerId>>, id: ContainerId, refs: set<GpuId>)
    returns (r: map<GpuId, set<ContainerId>>)
    requires refs <= byGpu.Keys
    ensures r.Keys == byGpu.Keys
    ensures forall u | u in r :: r[u] == if u in refs then byGpu[u] + {id} else byGpu[u]
  {
    r := byGpu;
    var todo := SortedIds(refs);
    ghost var done: set<GpuId> := {};
    for k := 0 to |todo|
      invariant r.Keys == byGpu.Keys
      invariant forall x :: x in done <==> x in todo[..k]
      invariant forall u | u in r :: r[u] == if u in done then byGpu[u] + {id} else byGpu[u]
    {
      var u := todo[k];
      assert u in refs;
      assert todo[..k + 1] == todo[..k] + [u];
      r := r[u := r[u] + {id}];
      done := done + {u};
    }
    assert todo[..|todo|] == todo;
  }

  lemma OneMoreOwner(u: GpuId, owners: seq<OwnerContainer>, i: nat, gpus: seq<GpuInfo>)
    requires i < |owners|
    ensures OwnersOn(u, owners[..i + 1], gpus)
         == OwnersOn(u, owners[..i], gpus) + if Refers(owners[i].refs, gpus, u) then {owners[i].id} else {}
  {
    assert owners[..i + 1] == owners[..i] + [owners[i]];
  }

  method Observe(gpus: seq<GpuInfo>, readings: map<nat, Reading>, owners: seq<OwnerContainer>,
                 spotGpu: map<ContainerId, GpuId>,
                 cpu: map<ContainerId, real>) returns (observations: seq<GpuObservation>)
    ensures |observations| == |gpus|
    ensures forall i | 0 <= i < |gpus| :: SeesGpu(observations[i], gpus[i], gpus, readings, owners, spotGpu, cpu)
  {
    var byGpu := OwnersByGpu(gpus, owners);
    observations := [];
    for i := 0 to |gpus|
      invariant |observations| == i
      invariant forall k | 0 <= k < i :: SeesGpu(observations[k], gpus[k], gpus, readings, owners, spotGpu, cpu)
    {
      var g := gpus[i];
      if g.index !in readings || readings[g.index].Unreadable? || readings[g.index].snap.info.uuid != g.uuid {
        observations := observations + [FailedObservation(g.uuid, g.name)];
        continue;
      }
      var r := readings[g.index];
      var obs := BuildObservation(r.snap, r.containers, byGpu[g.uuid], spotGpu, cpu);
      observations := observations + [obs];
    }
  }
}

/** What classification means for owners and spots. */
module ObserverProofs {
  import opened Model
  import opened Detector
  import opened DetectorProofs
  import opened Observer

  /** A process of a spot running on its assigned GPU. */
  predicate IsSpotHere(p: GpuProcess, uuid: GpuId, containers: map<nat, ContainerId>,
                       spotGpu: map<ContainerId, GpuId>)
  {
    p.pid in containers && containers[p.pid] in spotGpu && spotGpu[containers[p.pid]] == uuid
  }

  function Others(ps: seq<GpuProcess>, uuid: GpuId, containers: map<nat, ContainerId>,
                  spotGpu: map<ContainerId, GpuId>):
    seq<(GpuProcess, Option<ContainerId>)>
  {
    if ps == [] then []
    else if IsSpotHere(ps[0], uuid, containers, spotGpu) then Others(ps[1..], uuid, containers, spotGpu)
    else [(ps[0], ContainerOf(ps[0].pid, containers))] + Others(ps[1..], uuid, containers, spotGpu)
  }

  /** The observation of processes that are not the spot's. */
  function Reclassified(others: seq<(GpuProcess, Option<ContainerId>)>, uuid: GpuId, owners: set<ContainerId>,
                        spotGpu: map<ContainerId, GpuId>): seq<ClassifiedProcess>
  {
    if others == [] then []
    else
      var (p, cid) := others[0];
      [ClassifiedProcess(p.pid, KindOf(cid, uuid, owners, spotGpu), cid, p.usedMemory, p.smUtil)]
      + Reclassified(others[1..], uuid, owners, spotGpu)
  }

  lemma {:induction false} SpotDropsOut(cs: seq<ClassifiedProcess>, ps: seq<GpuProcess>, uuid: GpuId,
                                        containers: map<nat, ContainerId>, owners: set<ContainerId>,
                                        spotGpu: map<ContainerId, GpuId>)
    requires |cs| == |ps|
    requires forall i | 0 <= i < |ps| :: cs[i] == Classified(ps[i], uuid, containers, owners, spotGpu)
    ensures WithoutSpot(cs) == Reclassified(Others(ps, uuid, containers, spotGpu), uuid, owners, spotGpu)
  {
    if ps != [] {
      SpotDropsOut(cs[1..], ps[1..], uuid, containers, owners, spotGpu);
      assert cs[0] == Classified(ps[0], uuid, containers, owners, spotGpu);
      var others := Others(ps, uuid, containers, spotGpu);
      if !IsSpotHere(ps[0], uuid, containers, spotGpu) {
        assert others[1..] == Others(ps[1..], uuid, containers, spotGpu);
      }
    }
  }

  /** Two readings of a GPU that agree on everything but the processes of the spot lent that GPU, and on
      total memory use, give observations that no owner rule can tell apart. */
  lemma SpotProcessesAreInvisible(a: GpuObservation, b: GpuObservation, s: GpuSnapshot, t: GpuSnapshot,
                                  cs: map<nat, ContainerId>, ct: map<nat, ContainerId>, owners: set<ContainerId>,
                                  spotGpu: map<ContainerId, GpuId>, cpu: map<ContainerId, real>)
    requires Observes(a, s, cs, owners, spotGpu, cpu) && Observes(b, t, ct, owners, spotGpu, cpu)
    requires s.info == t.info
    requires Others(s.processes, s.info.uuid, cs, spotGpu) == Others(t.processes, t.info.uuid, ct, spotGpu)
    ensures SameOwnerView(a, b)
  {
    SpotDropsOut(a.processes, s.processes, s.info.uuid, cs, owners, spotGpu);
    SpotDropsOut(b.processes, t.processes, t.info.uuid, ct, owners, spotGpu);
  }

  /** A process counts as unknown, and so as owner activity, exactly when it is neither the process of an
      owner given this GPU nor of a spot lent this GPU; spots take precedence over owners. */
  lemma KindsAreExclusive(obs: GpuObservation, snap: GpuSnapshot, containers: map<nat, ContainerId>,
                          owners: set<ContainerId>, spotGpu: map<ContainerId, GpuId>, cpu: map<ContainerId, real>,
                          i: nat)
    requires Observes(obs, snap, containers, owners, spotGpu, cpu) && i < |snap.processes|
    ensures var p, c := snap.processes[i], obs.processes[i];
            && (c.kind == Spot <==> IsSpotHere(p, snap.info.uuid, containers, spotGpu))
            && (c.kind == Owner <==>
                  p.pid in containers && containers[p.pid] !in spotGpu && containers[p.pid] in owners)
            && (c.kind == Unknown ==> obs.HasUnknown())
  {
    assert obs.processes[i] in obs.processes;
  }

  // ---- what an observation says of the reading ----

  /** The UUID entered for an index is that of the last GPU listed with it. */
  lemma LastWithIndexDecides(gpus: seq<GpuInfo>, i: nat)
    ensures i in IndexMap(gpus) <==> exists k :: 0 <= k < |gpus| && gpus[k].index == i
    ensures forall k | IsLastWithIndex(gpus, k) && gpus[k].index == i ::
              i in IndexMap(gpus) && IndexMap(gpus)[i] == gpus[k].uuid
  {
    IndexIsEntered(gpus, i);
    forall k | IsLastWithIndex(gpus, k) && gpus[k].index == i ensures IndexMap(gpus)[i] == gpus[k].uuid {
      LastIsEntered(gpus, k);
    }
  }

  lemma {:induction false} IndexIsEntered(gpus: seq<GpuInfo>, i: nat)
    ensures i in IndexMap(gpus) <==> exists k :: 0 <= k < |gpus| && gpus[k].index == i
  {
    if gpus != [] {
      var front := gpus[..|gpus| - 1];
      IndexIsEntered(front, i);
      if k :| 0 <= k < |front| && front[k].index == i {
        assert gpus[k].index == i;
      }
      if k :| 0 <= k < |gpus| && gpus[k].index == i && gpus[|gpus| - 1].index != i {
        assert front[k].index == i;
      }
    }
  }

  lemma {:induction false} LastIsEntered(gpus: seq<GpuInfo>, k: int)
    requires IsLastWithIndex(gpus, k)
    ensures gpus[k].index in IndexMap(gpus) && IndexMap(gpus)[gpus[k].index] == gpus[k].uuid
    decreases |gpus|
  {
    var n := |gpus| - 1;
    if k < n {
      var front := gpus[..n];
      assert front[k] == gpus[k] && gpus[n].index != gpus[k].index;
      LastIsEntered(front, k);
    }
  }

  ghost predicate IsLastWithIndex(gpus: seq<GpuInfo>, k: int) {
    0 <= k < |gpus| && forall j | k < j < |gpus| :: gpus[j].index != gpus[k].index
  }

  lemma {:induction false} SomeLastWithIndex(gpus: seq<GpuInfo>, i: nat, n: nat) returns (k: int)
    requires n <= |gpus| && exists j :: 0 <= j < n && gpus[j].index == i
    requires forall j | n <= j < |gpus| :: gpus[j].index != i
    ensures IsLastWithIndex(gpus, k) && gpus[k].index == i
  {
    if gpus[n - 1].index == i {
      k := n - 1;
    } else {
      k := SomeLastWithIndex(gpus, i, n - 1);
    }
  }

  /** A container has a GPU exactly when it was listed and the container names all GPUs, or this one's UUID, or the
      index that this one is the last to have. */
  lemma RefersInFull(refs: seq<GpuRef>, gpus: seq<GpuInfo>, u: GpuId)
    ensures Refers(refs, gpus, u) <==>
      exists r, k | r in refs && 0 <= k < |gpus| && gpus[k].uuid == u ::
        r == AllGpus || r == ByUuid(u) || (r == ByIndex(gpus[k].index) && IsLastWithIndex(gpus, k))
  {
    if Refers(refs, gpus, u) {
      var r :| r in refs && u in Meaning(r, gpus);
      if r.ByIndex? {
        LastWithIndexDecides(gpus, r.index);
        var k := SomeLastWithIndex(gpus, r.index, |gpus|);
        assert gpus[k].uuid == u;
      } else {
        var g :| g in gpus && g.uuid == u;
        var k :| 0 <= k < |gpus| && gpus[k] == g;
        assert gpus[k].uuid == u;
      }
    }
    if r, k :| r in refs && 0 <= k < |gpus| && gpus[k].uuid == u
               && (r == AllGpus || r == ByUuid(u) || (r == ByIndex(gpus[k].index) && IsLastWithIndex(gpus, k))) {
      assert gpus[k] in gpus;
      if r.ByIndex? {
        LastWithIndexDecides(gpus, r.index);
      }
      assert u in Meaning(r, gpus);
    }
  }

  /** Each process keeps its id, memory and utilisation, and counts as the spot's on the spot's own GPU only, as an
      owner's when its container is an attached owner and no running spot, and otherwise as unknown. */
  lemma ProcessesInFull(obs: GpuObservation, snap: GpuSnapshot, containers: map<nat, ContainerId>,
                        owners: set<ContainerId>, spotGpu: map<ContainerId, GpuId>, cpu: map<ContainerId, real>, i: nat)
    requires Observes(obs, snap, containers, owners, spotGpu, cpu) && i < |snap.processes|
    ensures i < |obs.processes|
    ensures var p, c := snap.processes[i], obs.processes[i];
            var known := p.pid in containers;
            && c.pid == p.pid && c.usedMemory == p.usedMemory && c.smUtil == p.smUtil
            && (known ==> c.container == Some(containers[p.pid])) && (!known ==> c.container == None)
            && (c.kind == Spot <==>
                  known && containers[p.pid] in spotGpu && spotGpu[containers[p.pid]] == snap.info.uuid)
            && (c.kind == Owner <==> known && containers[p.pid] !in spotGpu && containers[p.pid] in owners)
  {}

  /** A listed GPU is seen exactly when it could be read and is still the GPU that was listed. */
  lemma SeenWhenRead(obs: GpuObservation, g: GpuInfo, gpus: seq<GpuInfo>, readings: map<nat, Reading>,
                     owners: seq<OwnerContainer>, spotGpu: map<ContainerId, GpuId>, cpu: map<ContainerId, real>)
    requires SeesGpu(obs, g, gpus, readings, owners, spotGpu, cpu)
    ensures obs.uuid == g.uuid
    ensures obs.ok <==>
              g.index in readings && readings[g.index] != Unreadable && readings[g.index].snap.info.uuid == g.uuid
  {}

  /** The CPU of the owners adds up the measured ones. */
  lemma OwnerCpuAddsUp(ids: seq<ContainerId>, c: ContainerId, cpu: map<ContainerId, real>)
    ensures OwnerCpu(ids + [c], cpu) ==
              if c !in cpu then OwnerCpu(ids, cpu)
              else if OwnerCpu(ids, cpu).None? then Some(cpu[c])
              else Some(OwnerCpu(ids, cpu).value + cpu[c])
  {
    assert (ids + [c])[..|ids|] == ids;
  }

  /** It is unknown exactly when none was measured. */
  lemma {:induction false} OwnerCpuIsUnknown(ids: seq<ContainerId>, cpu: map<ContainerId, real>)
    ensures OwnerCpu(ids, cpu).None? <==> forall c | c in ids :: c !in cpu
  {
    if ids != [] {
      var front, last := ids[..|ids| - 1], ids[|ids| - 1];
      OwnerCpuIsUnknown(front, cpu);
      OwnerCpuAddsUp(front, last, cpu);
      assert ids == front + [last];
    }
  }
}
