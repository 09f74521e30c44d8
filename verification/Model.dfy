/** The plain values exchanged between the observer, the detector, the planner and the controller.
    GPU UUIDs and container ids enter the protocol only through equality and, for UUIDs, through
    their sorting order, so both are natural numbers here. */
module Model {

  datatype Option<+T> = None | Some(value: T)

  type GpuId = nat
  type ContainerId = nat
  type JobId = nat
  type Time = real

  const MIB: int := 0x10_0000
  const GIB: int := 0x4000_0000

  function Max(a: int, b: int): int { if a >= b then a else b }

  function Min(a: int, b: int): int { if a <= b then a else b }

  datatype ProcKind = Owner | Spot | Unknown

  datatype ClassifiedProcess = ClassifiedProcess(
    pid: nat, kind: ProcKind, container: Option<ContainerId>, usedMemory: nat, smUtil: nat)

  /** Memory of the processes of one kind. */
  function MemoryOf(ps: seq<ClassifiedProcess>, kind: ProcKind): nat {
    if ps == [] then 0
    else (if ps[0].kind == kind then ps[0].usedMemory else 0) + MemoryOf(ps[1..], kind)
  }

  /** SM utilisation of the processes of one kind. */
  function UtilOf(ps: seq<ClassifiedProcess>, kind: ProcKind): nat {
    if ps == [] then 0
    else (if ps[0].kind == kind then ps[0].smUtil else 0) + UtilOf(ps[1..], kind)
  }

  /** Everything the detector knows about one GPU for one tick; `!ok` means the observation failed. */
  datatype GpuObservation = GpuObservation(
    uuid: GpuId,
    ok: bool,
    model: string,
    totalMemory: int,
    usedMemory: int,
    processes: seq<ClassifiedProcess>,
    ownerContainers: set<ContainerId>,
    ownerCpuCores: Option<real>)
  {
    function FreeMemory(): int { totalMemory - usedMemory }

    function OwnerUtil(): nat { UtilOf(processes, Owner) }

    function OwnerMemory(): nat { MemoryOf(processes, Owner) }

    function SpotMemory(): nat { MemoryOf(processes, Spot) }

    predicate HasUnknown() { exists p | p in processes :: p.kind == Unknown }
  }

  /** The observation of a GPU that could not be read. */
  function FailedObservation(uuid: GpuId, model: string): GpuObservation {
    GpuObservation(uuid, false, model, 0, 0, [], {}, None)
  }

  datatype GpuState = Busy | Idle | Lendable | Lent | Reclaiming | Unobserved

  datatype Reason =
    | OwnerUtilHigh | OwnerMemoryGrew | OwnerCpuHigh | UnknownProcess | NewOwner
    | LowFreeMemory | BlockedByAdmin | ObservationFailed | GpuVanished

  datatype GpuVerdict = GpuVerdict(
    uuid: GpuId, state: GpuState, lendable: bool, mustReclaim: bool, reasons: seq<Reason>,
    lendableMemory: int, idleFor: real, model: string)

  datatype RunningSpot = RunningSpot(
    jobId: JobId, gpu: GpuId, container: ContainerId, reclaiming: bool)

  datatype QueuedJob = QueuedJob(
    jobId: JobId, priority: int, submittedAt: Time, gpuMem: nat, ram: nat, gpuModels: seq<string>)

  datatype Launch = Launch(jobId: JobId, gpu: GpuId, gpuMemLimit: int, ram: nat)

  datatype Reclaim = Reclaim(jobId: JobId, gpu: GpuId, container: ContainerId, reasons: seq<Reason>)

  datatype IdleConfig = IdleConfig(
    idleSeconds: real, ownerUtilThreshold: int, ownerMemDelta: int, ownerCpuThreshold: real,
    unclaimedGraceSeconds: real)

  datatype ReclaimConfig = ReclaimConfig(memReserve: int)
}
