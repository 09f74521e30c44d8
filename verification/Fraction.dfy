/** Share-to-limit arithmetic for fractional GPU allocation. Shares are exact rationals. */
module Fraction {
  import opened Model
  import opened Ordering

  /** The limits of one attached device; none when it is attached whole. */
  datatype DeviceLimit = DeviceLimit(
    localIndex: nat, device: nat, uuid: GpuId, share: real, fraction: real, memoryLimit: Option<int>,
    smLimit: Option<int>)

  /** Truncation toward zero. */
  function Trunc(x: real): int { if x >= 0.0 then x.Floor else -((-x).Floor) }

  function Ceil(x: real): int { -((-x).Floor) }

  /** The memory limit of a fraction below one: whole MiB, at least one. */
  function MemoryLimit(fraction: real, totalMemory: nat, reserved: nat): int {
    Max((Trunc(fraction * totalMemory as real) - reserved) / MIB, 1) * MIB
  }

  function SmLimit(fraction: real): int { Min(Max(Ceil(fraction * 100.0), 1), 100) }

  /** What a share is limited to: nothing when it is the whole device or more; otherwise to whole MiB, as many as it
      is worth less the reserve, but at least one, and to the least whole SM percentage that grants it. */
  ghost predicate IsLimit(l: DeviceLimit, share: real, sharesPerDevice: real, totalMemory: nat, reserved: nat) {
    && l.share == share && l.fraction * sharesPerDevice == share
    && (l.memoryLimit.None? <==> share >= sharesPerDevice)
    && (l.smLimit.None? <==> share >= sharesPerDevice)
    && (share < sharesPerDevice ==>
          && var worth := l.fraction * totalMemory as real - reserved as real;
          && l.memoryLimit.value % 0x10_0000 == 0
          && (worth >= 1048576.0 ==> 0.0 <= worth - l.memoryLimit.value as real < 1048576.0)
          && (worth < 1048576.0 ==> l.memoryLimit.value == 0x10_0000)
          && (share > 0.0 ==>
                1 <= l.smLimit.value <= 100 && 0.0 <= l.smLimit.value as real - l.fraction * 100.0 < 1.0)
          && (share <= 0.0 ==> l.smLimit.value == 1))
  }

  function ComputeLimit(localIndex: nat, device: nat, uuid: GpuId, share: real, sharesPerDevice: real,
                        totalMemory: nat, reserved: nat): (l: DeviceLimit)
    requires sharesPerDevice > 0.0
    ensures l.device == device && l.localIndex == localIndex && l.uuid == uuid
    ensures IsLimit(l, share, sharesPerDevice, totalMemory, reserved)
  {
    var fraction := share / sharesPerDevice;
    LimitsAreExact(share, sharesPerDevice, totalMemory, reserved);
    if fraction >= 1.0 then DeviceLimit(localIndex, device, uuid, share, fraction, None, None)
    else DeviceLimit(localIndex, device, uuid, share, fraction,
                     Some(MemoryLimit(fraction, totalMemory, reserved)), Some(SmLimit(fraction)))
  }

  lemma LimitsAreExact(share: real, sharesPerDevice: real, totalMemory: nat, reserved: nat)
    requires sharesPerDevice > 0.0
    ensures var f := share / sharesPerDevice;
            && f * sharesPerDevice == share && (f >= 1.0 <==> share >= sharesPerDevice) && (f > 0.0 <==> share > 0.0)
            && (f < 1.0 ==>
                  var worth, m := f * totalMemory as real - reserved as real, MemoryLimit(f, totalMemory, reserved);
                  && m % 0x10_0000 == 0
                  && (worth >= 1048576.0 ==> 0.0 <= worth - m as real < 1048576.0)
                  && (worth < 1048576.0 ==> m == 0x10_0000))
            && (0.0 < f < 1.0 ==> 1 <= SmLimit(f) <= 100 && 0.0 <= SmLimit(f) as real - f * 100.0 < 1.0)
            && (f <= 0.0 ==> SmLimit(f) == 1)
  {
    var f := share / sharesPerDevice;
    Quotient(share, sharesPerDevice);
    if 0.0 <= f < 1.0 {
      LimitIsExactToOneMiB(f, totalMemory, reserved);
    } else if f < 0.0 {
      NoShareGetsTheLeast(f, totalMemory, reserved);
    }
    if 0.0 < f < 1.0 {
      SmLimitIsLeastPercentage(f);
    }
    if f <= 0.0 {
      CeilBounds(f * 100.0);
    }
  }

  lemma NoShareGetsTheLeast(f: real, totalMemory: nat, reserved: nat)
    requires f < 0.0
    ensures MemoryLimit(f, totalMemory, reserved) == 0x10_0000 && f * totalMemory as real - reserved as real < 1048576.0
  {
    ScaleIsMonotone(f, 0.0, totalMemory);
    FloorBounds(-(f * totalMemory as real));
    DivIsMonotone(Trunc(f * totalMemory as real) - reserved, 0);
  }

  // ---- one device ----

  lemma FloorBounds(x: real)
    ensures x.Floor as real <= x < x.Floor as real + 1.0
  {}

  /** What the share is worth in bytes, and when the 1 MiB floor is not in play: then the limit is whole
      MiB, never above the share, and short of it by less than 1 MiB. Below the floor it exceeds it. */
  lemma {:induction false} LimitIsExactToOneMiB(fraction: real, totalMemory: nat, reserved: nat)
    requires 0.0 <= fraction < 1.0
    ensures var worth := fraction * totalMemory as real - reserved as real;
            var limit := MemoryLimit(fraction, totalMemory, reserved);
            && limit % MIB == 0 && limit >= MIB
            && (worth >= MIB as real <==> limit as real <= worth)
            && (worth >= MIB as real ==> worth < limit as real + MIB as real)
            && (worth < MIB as real ==> limit == MIB)
  {
    var x := fraction * totalMemory as real;
    assert x >= 0.0;
    var bytes := x.Floor - reserved;
    FloorBounds(x);
    var q := bytes / MIB;
    assert bytes == q * MIB + bytes % MIB && 0 <= bytes % MIB < MIB;
  }

  lemma CeilBounds(x: real)
    ensures Ceil(x) as real - 1.0 < x <= Ceil(x) as real
  {}

  /** The SM limit is the least whole percentage that grants the share. */
  lemma {:induction false} SmLimitIsLeastPercentage(fraction: real)
    requires 0.0 < fraction < 1.0
    ensures var sm := SmLimit(fraction);
            && 1 <= sm <= 100 && sm == Ceil(fraction * 100.0)
            && fraction * 100.0 <= sm as real < fraction * 100.0 + 1.0
  {
    CeilBounds(fraction * 100.0);
  }

  lemma ScaleIsMonotone(a: real, b: real, t: nat)
    requires a <= b
    ensures a * t as real <= b * t as real
  {}

  lemma {:induction false} DivIsMonotone(a: int, b: int)
    requires a <= b
    ensures a / MIB <= b / MIB
  {
    assert a == a / MIB * MIB + a % MIB && b == b / MIB * MIB + b % MIB;
  }

  lemma RoundingIsMonotone(x: real, y: real)
    requires 0.0 <= x <= y
    ensures Trunc(x) <= Trunc(y) && Ceil(x) <= Ceil(y)
  {
    FloorBounds(x);
    FloorBounds(y);
    CeilBounds(x);
    CeilBounds(y);
  }

  /** A larger share never gets smaller limits. */
  lemma {:induction false} LimitsAreMonotone(a: real, b: real, totalMemory: nat, reserved: nat)
    requires 0.0 <= a <= b < 1.0
    ensures MemoryLimit(a, totalMemory, reserved) <= MemoryLimit(b, totalMemory, reserved)
    ensures SmLimit(a) <= SmLimit(b)
  {
    hide Trunc, Ceil;
    ScaleIsMonotone(a, b, totalMemory);
    ScaleIsMonotone(0.0, a, totalMemory);
    var x, y := a * totalMemory as real, b * totalMemory as real;
    RoundingIsMonotone(x, y);
    DivIsMonotone(Trunc(x) - reserved, Trunc(y) - reserved);
    RoundingIsMonotone(a * 100.0, b * 100.0);
  }

  // ---- all the shares of one device ----

  function SumOf(fs: seq<real>): real {
    if fs == [] then 0.0 else SumOf(fs[..|fs| - 1]) + fs[|fs| - 1]
  }

  /** The device fractions that shares stand for. */
  function Fractions(shares: seq<real>, sharesPerDevice: real): (fs: seq<real>)
    requires sharesPerDevice > 0.0
    ensures |fs| == |shares|
  {
    seq(|shares|, i requires 0 <= i < |shares| => shares[i] / sharesPerDevice)
  }

  function MemorySum(fs: seq<real>, totalMemory: nat, reserved: nat): int {
    if fs == [] then 0
    else MemorySum(fs[..|fs| - 1], totalMemory, reserved) + MemoryLimit(fs[|fs| - 1], totalMemory, reserved)
  }

  function SmSum(fs: seq<real>): int {
    if fs == [] then 0 else SmSum(fs[..|fs| - 1]) + SmLimit(fs[|fs| - 1])
  }

  /** The fraction is worth at least 1 MiB once the reserve is taken off. */
  predicate AboveFloor(fraction: real, totalMemory: nat, reserved: nat) {
    fraction * totalMemory as real - reserved as real >= MIB as real
  }

  lemma {:induction false} FractionsSum(shares: seq<real>, sharesPerDevice: real)
    requires sharesPerDevice > 0.0
    ensures SumOf(Fractions(shares, sharesPerDevice)) == SumOf(shares) / sharesPerDevice
  {
    if shares != [] {
      var front, fs := shares[..|shares| - 1], Fractions(shares, sharesPerDevice);
      FractionsSum(front, sharesPerDevice);
      assert fs[..|fs| - 1] == Fractions(front, sharesPerDevice);
    }
  }

  lemma Distribute(a: real, b: real, t: real)
    ensures (a + b) * t == a * t + b * t
  {}

  lemma {:induction false} MemorySumBound(fs: seq<real>, totalMemory: nat, reserved: nat)
    requires forall i | 0 <= i < |fs| :: 0.0 <= fs[i] < 1.0 && AboveFloor(fs[i], totalMemory, reserved)
    ensures MemorySum(fs, totalMemory, reserved) as real
         <= SumOf(fs) * totalMemory as real - (|fs| * reserved) as real
  {
    hide MemoryLimit;
    if fs == [] {
      Distribute(0.0, 0.0, totalMemory as real);
    } else {
      var front, f := fs[..|fs| - 1], fs[|fs| - 1];
      MemorySumBound(front, totalMemory, reserved);
      LimitWithinShare(f, totalMemory, reserved);
      Distribute(SumOf(front), f, totalMemory as real);
      assert |fs| * reserved == |front| * reserved + reserved;
    }
  }

  lemma LimitWithinShare(fraction: real, totalMemory: nat, reserved: nat)
    requires 0.0 <= fraction < 1.0 && AboveFloor(fraction, totalMemory, reserved)
    ensures MemoryLimit(fraction, totalMemory, reserved) as real <= fraction * totalMemory as real - reserved as real
  {
    LimitIsExactToOneMiB(fraction, totalMemory, reserved);
  }

  lemma {:induction false} SmSumBound(fs: seq<real>)
    requires forall i | 0 <= i < |fs| :: 0.0 < fs[i] < 1.0
    ensures SmSum(fs) as real <= SumOf(fs) * 100.0 + |fs| as real
    ensures fs != [] ==> SmSum(fs) as real < SumOf(fs) * 100.0 + |fs| as real
  {
    if fs != [] {
      var front, f := fs[..|fs| - 1], fs[|fs| - 1];
      SmSumBound(front);
      SmLimitIsLeastPercentage(f);
    }
  }

  /** No oversubscription: shares of one device that sum to at most its share count get memory limits that
      sum to at most its memory less every reserve, as long as each is worth 1 MiB. */
  lemma MemoryIsNotOversubscribed(shares: seq<real>, sharesPerDevice: real, totalMemory: nat, reserved: nat)
    requires sharesPerDevice > 0.0 && SumOf(shares) <= sharesPerDevice
    requires forall i | 0 <= i < |shares| :: 0.0 < shares[i] < sharesPerDevice
    requires forall i | 0 <= i < |shares| :: AboveFloor(shares[i] / sharesPerDevice, totalMemory, reserved)
    ensures MemorySum(Fractions(shares, sharesPerDevice), totalMemory, reserved) <= totalMemory - |shares| * reserved
  {
    hide AboveFloor, MemorySum, SumOf;
    var fs := Fractions(shares, sharesPerDevice);
    FractionsSum(shares, sharesPerDevice);
    WholeAtMost(SumOf(shares), sharesPerDevice);
    forall i | 0 <= i < |fs| ensures 0.0 <= fs[i] < 1.0 {
      FractionIsProper(shares[i], sharesPerDevice);
    }
    MemorySumBound(fs, totalMemory, reserved);
    ScaleIsMonotone(SumOf(fs), 1.0, totalMemory);
    AsIntegers(MemorySum(fs, totalMemory, reserved), totalMemory, |shares| * reserved);
  }

  /** The SM limits of such shares exceed 100 percent by less than one percent per share. */
  lemma SmIsBarelyOversubscribed(shares: seq<real>, sharesPerDevice: real)
    requires sharesPerDevice > 0.0 && SumOf(shares) <= sharesPerDevice && shares != []
    requires forall i | 0 <= i < |shares| :: 0.0 < shares[i] < sharesPerDevice
    ensures SmSum(Fractions(shares, sharesPerDevice)) <= 100 + |shares| - 1
  {
    var fs := Fractions(shares, sharesPerDevice);
    FractionsSum(shares, sharesPerDevice);
    WholeAtMost(SumOf(shares), sharesPerDevice);
    forall i | 0 <= i < |fs| ensures 0.0 < fs[i] < 1.0 {
      FractionIsProper(shares[i], sharesPerDevice);
    }
    SmSumBound(fs);
    assert SmSum(fs) as real < (100 + |shares|) as real;
  }

  lemma SignOfProduct(x: real, b: real)
    requires b > 0.0
    ensures (x * b > 0.0 <==> x > 0.0) && (x * b >= 0.0 <==> x >= 0.0)
  {}

  lemma Quotient(a: real, b: real)
    requires b > 0.0
    ensures var q := a / b; (q >= 1.0 <==> a >= b) && (q > 1.0 <==> a > b) && (q > 0.0 <==> a > 0.0)
  {
    var q := a / b;
    var d := q - 1.0;
    assert q * b == a;
    assert d * b == a - b;
    SignOfProduct(q, b);
    SignOfProduct(d, b);
    assert d >= 0.0 <==> a - b >= 0.0;
  }

  lemma FractionIsProper(share: real, sharesPerDevice: real)
    requires 0.0 < share < sharesPerDevice
    ensures 0.0 < share / sharesPerDevice < 1.0
  {
    Quotient(share, sharesPerDevice);
  }

  lemma WholeAtMost(total: real, sharesPerDevice: real)
    requires total <= sharesPerDevice && sharesPerDevice > 0.0
    ensures total / sharesPerDevice <= 1.0
  {
    Quotient(total, sharesPerDevice);
  }

  lemma AsIntegers(a: int, b: int, c: int)
    requires a as real <= b as real - c as real
    ensures a <= b - c
  {
    assert a as real <= (b - c) as real;
  }

  // ---- the limits that containers sharing a device get ----

  /** The memory and the SM percentage that some limits grant together. */
  function MemoryGranted(limits: seq<DeviceLimit>): int {
    if limits == [] then 0
    else
      var last := limits[|limits| - 1];
      MemoryGranted(limits[..|limits| - 1]) + if last.memoryLimit.Some? then last.memoryLimit.value else 0
  }

  function SmGranted(limits: seq<DeviceLimit>): int {
    if limits == [] then 0
    else
      var last := limits[|limits| - 1];
      SmGranted(limits[..|limits| - 1]) + if last.smLimit.Some? then last.smLimit.value else 0
  }

  /** The limits are those of these proper shares of one device. */
  ghost predicate AreLimits(limits: seq<DeviceLimit>, shares: seq<real>, sharesPerDevice: real, totalMemory: nat,
                            reserved: nat)
  {
    && |limits| == |shares|
    && forall i | 0 <= i < |limits| ::
         0.0 < shares[i] < sharesPerDevice && IsLimit(limits[i], shares[i], sharesPerDevice, totalMemory, reserved)
  }

  lemma OnlyOneLimit(l: DeviceLimit, share: real, sharesPerDevice: real, totalMemory: nat, reserved: nat)
    requires 0.0 < share < sharesPerDevice && IsLimit(l, share, sharesPerDevice, totalMemory, reserved)
    ensures l.fraction == share / sharesPerDevice
    ensures l.memoryLimit == Some(MemoryLimit(share / sharesPerDevice, totalMemory, reserved))
    ensures l.smLimit == Some(SmLimit(share / sharesPerDevice))
  {
    hide MemoryLimit, SmLimit;
    var f := share / sharesPerDevice;
    LimitsAreExact(share, sharesPerDevice, totalMemory, reserved);
    FractionIsProper(share, sharesPerDevice);
    SameQuotient(l.fraction, f, sharesPerDevice);
    OnlyOneMemoryLimit(l.memoryLimit.value, MemoryLimit(f, totalMemory, reserved),
                       f * totalMemory as real - reserved as real);
    SameCeiling(l.smLimit.value, SmLimit(f), f * 100.0);
  }

  lemma OnlyOneMemoryLimit(m: int, k: int, worth: real)
    requires m % 0x10_0000 == 0 && k % 0x10_0000 == 0
    requires worth >= 1048576.0 ==> 0.0 <= worth - m as real < 1048576.0 && 0.0 <= worth - k as real < 1048576.0
    requires worth < 1048576.0 ==> m == 0x10_0000 == k
    ensures m == k
  {
    if worth >= 1048576.0 {
      SameMultiple(m, k, worth);
    }
  }

  lemma SameMultiple(m: int, k: int, worth: real)
    requires m % MIB == 0 && k % MIB == 0
    requires 0.0 <= worth - m as real < 1048576.0 && 0.0 <= worth - k as real < 1048576.0
    ensures m == k
  {
    assert -1048576.0 < (m - k) as real < 1048576.0;
    assert m == m / MIB * MIB && k == k / MIB * MIB;
  }

  lemma SameCeiling(a: int, b: int, x: real)
    requires 0.0 <= a as real - x < 1.0 && 0.0 <= b as real - x < 1.0
    ensures a == b
  {
    assert -1.0 < (a - b) as real < 1.0;
  }

  lemma SameQuotient(a: real, b: real, c: real)
    requires c > 0.0 && a * c == b * c
    ensures a == b
  {
    assert (a - b) * c == 0.0;
  }

  lemma {:induction false} GrantedIsSum(limits: seq<DeviceLimit>, shares: seq<real>, sharesPerDevice: real,
                                        totalMemory: nat, reserved: nat)
    requires sharesPerDevice > 0.0 && AreLimits(limits, shares, sharesPerDevice, totalMemory, reserved)
    ensures MemoryGranted(limits) == MemorySum(Fractions(shares, sharesPerDevice), totalMemory, reserved)
    ensures SmGranted(limits) == SmSum(Fractions(shares, sharesPerDevice))
  {
    hide MemoryLimit, SmLimit, IsLimit;
    if limits != [] {
      var n := |limits| - 1;
      var fs := Fractions(shares, sharesPerDevice);
      OnlyOneLimit(limits[n], shares[n], sharesPerDevice, totalMemory, reserved);
      GrantedIsSum(limits[..n], shares[..n], sharesPerDevice, totalMemory, reserved);
      assert fs[..n] == Fractions(shares[..n], sharesPerDevice);
    }
  }

  /** The limits of containers sharing a device never exceed it: their memory is within the device's less every
      reserve, if each share is worth 1 MiB, and their SM limits exceed 100 by less than one percent per share. */
  lemma SharedDeviceIsNotOversubscribed(limits: seq<DeviceLimit>, shares: seq<real>, sharesPerDevice: real,
                                        totalMemory: nat, reserved: nat)
    requires sharesPerDevice > 0.0 && SumOf(shares) <= sharesPerDevice && shares != []
    requires AreLimits(limits, shares, sharesPerDevice, totalMemory, reserved)
    ensures SmGranted(limits) <= 100 + |limits| - 1
    ensures (forall l | l in limits :: l.fraction * totalMemory as real - reserved as real >= 1048576.0) ==>
              MemoryGranted(limits) <= totalMemory - |limits| * reserved
  {
    hide SumOf, MemoryGranted, SmGranted, MemorySum, SmSum, Fractions;
    GrantedIsSum(limits, shares, sharesPerDevice, totalMemory, reserved);
    SmIsBarelyOversubscribed(shares, sharesPerDevice);
    if forall l | l in limits :: l.fraction * totalMemory as real - reserved as real >= 1048576.0 {
      AllAboveFloor(limits, shares, sharesPerDevice, totalMemory, reserved);
      hide AboveFloor, IsLimit;
      MemoryIsNotOversubscribed(shares, sharesPerDevice, totalMemory, reserved);
    }
  }

  lemma AllAboveFloor(limits: seq<DeviceLimit>, shares: seq<real>, sharesPerDevice: real, totalMemory: nat,
                      reserved: nat)
    requires sharesPerDevice > 0.0 && AreLimits(limits, shares, sharesPerDevice, totalMemory, reserved)
    requires forall l | l in limits :: l.fraction * totalMemory as real - reserved as real >= 1048576.0
    ensures forall i | 0 <= i < |shares| :: AboveFloor(shares[i] / sharesPerDevice, totalMemory, reserved)
  {
    hide IsLimit;
    forall i | 0 <= i < |shares| ensures AboveFloor(shares[i] / sharesPerDevice, totalMemory, reserved) {
      OnlyOneLimit(limits[i], shares[i], sharesPerDevice, totalMemory, reserved);
      assert limits[i] in limits;
    }
  }

  /** The 1 MiB condition is needed: on a 1 MiB device two halves are granted twice its memory. */
  lemma FloorCanOversubscribe()
    ensures SumOf([0.5, 0.5]) == 1.0 && MemorySum([0.5, 0.5], 0x10_0000, 0) == 2 * 0x10_0000
  {
    var halves := [0.5, 0.5];
    assert halves[..1] == [0.5] && [0.5][..0] == [];
    LimitIsExactToOneMiB(0.5, 0x10_0000, 0);
    assert SumOf([0.5]) == 0.5;
    assert MemorySum([0.5], 0x10_0000, 0) == 0x10_0000;
  }

  // ---- the devices of one container ----

  /** Limits for every device with a share, numbered from zero in device order. */
  method ComputeLimits(shares: map<nat, real>, sharesPerDevice: real, memory: map<nat, nat>, uuids: map<nat, GpuId>,
                       reserved: nat)
    returns (limits: seq<DeviceLimit>)
    requires sharesPerDevice > 0.0 && forall d | d in shares && shares[d] > 0.0 :: d in memory && d in uuids
    ensures forall d: nat :: (exists l | l in limits :: l.device == d) <==> d in shares && shares[d] > 0.0
    ensures forall i: nat | i < |limits| :: (
              && var d := limits[i].device;
              && d in shares && d in memory && d in uuids && limits[i].uuid == uuids[d] && limits[i].localIndex == i
              && IsLimit(limits[i], shares[d], sharesPerDevice, memory[d], reserved))
    ensures forall i, k | 0 <= i < k < |limits| :: limits[i].device < limits[k].device
  {
    hide ComputeLimit, IsLimit;
    var active := SortedIds(set d | d in shares && shares[d] > 0.0);
    limits := [];
    for i := 0 to |active|
      invariant |limits| == i
      invariant forall k: nat | k < i :: (
                  && var d := active[k];
                  && d in shares && d in memory && d in uuids
                  && limits[k].device == d && limits[k].uuid == uuids[d] && limits[k].localIndex == k
                  && IsLimit(limits[k], shares[d], sharesPerDevice, memory[d], reserved))
    {
      var d := active[i];
      assert d in active;
      limits := limits + [ComputeLimit(i, d, uuids[d], shares[d], sharesPerDevice, memory[d], reserved)];
    }
    DevicesAreListed(limits, active);
    forall d: nat ensures (exists l | l in limits :: l.device == d) <==> d in shares && shares[d] > 0.0 {
      assert d in active <==> d in shares && shares[d] > 0.0;
    }
  }

  lemma DevicesAreListed(limits: seq<DeviceLimit>, active: seq<nat>)
    requires |limits| == |active| && forall k | 0 <= k < |active| :: limits[k].device == active[k]
    ensures forall d: nat :: (exists l | l in limits :: l.device == d) <==> d in active
  {
    forall d: nat ensures (exists l | l in limits :: l.device == d) <==> d in active {
      if d in active {
        var k :| 0 <= k < |active| && active[k] == d;
        assert limits[k] in limits;
      }
      if l :| l in limits && l.device == d {
        var k :| 0 <= k < |limits| && limits[k] == l;
        assert active[k] in active;
      }
    }
  }

  /** The HAMi-core settings: one memory limit in MiB per fractional device, one SM limit for all. */
  datatype HamiEnv = HamiEnv(memoryMiB: map<nat, int>, sharedCache: bool, smPercent: Option<int>)

  /** The SM limit counted for a device; one without a limit, or with 0, counts as unlimited. */
  function SmOr100(l: DeviceLimit): int {
    if l.smLimit.None? || l.smLimit.value == 0 then 100 else l.smLimit.value
  }

  /** Limit `k` sets the memory entry of its local index: it is fractional, and no later one sets it again. */
  predicate SetsEntry(limits: seq<DeviceLimit>, k: nat) {
    && k < |limits| && limits[k].memoryLimit.Some?
    && forall j | k < j < |limits| && limits[j].memoryLimit.Some? :: limits[j].localIndex != limits[k].localIndex
  }

  ghost predicate EntryOf(limits: seq<DeviceLimit>, k: nat, i: nat, value: int) {
    SetsEntry(limits, k) && limits[k].localIndex == i && value == limits[k].memoryLimit.value / MIB
  }

  /** The memory entries are those of the fractional devices, by local index. */
  ghost predicate Entries(limits: seq<DeviceLimit>, memory: map<nat, int>) {
    && (forall l | l in limits && l.memoryLimit.Some? :: l.localIndex in memory)
    && forall i | i in memory :: exists k: nat :: EntryOf(limits, k, i, memory[i])
  }

  /** The largest SM limit of the fractional devices, if there are any. */
  ghost predicate Largest(limits: seq<DeviceLimit>, most: Option<int>) {
    && (most.Some? <==> exists l | l in limits :: l.memoryLimit.Some?)
    && (forall l | l in limits && l.memoryLimit.Some? :: most.Some? && SmOr100(l) <= most.value)
    && (most.Some? ==> exists l | l in limits :: l.memoryLimit.Some? && SmOr100(l) == most.value)
  }

  /** The settings grant exactly the limits: of devices with different local indices, each fractional one gets its
      memory limit, and the SM limit is the largest of theirs, where none, or 0, stands for 100. */
  lemma SettingsGrantLimits(limits: seq<DeviceLimit>, memory: map<nat, int>, most: Option<int>)
    requires Entries(limits, memory) && Largest(limits, most)
    requires forall i, k | 0 <= i < k < |limits| :: limits[i].localIndex != limits[k].localIndex
    requires forall l | l in limits && l.memoryLimit.Some? ::
               l.memoryLimit.value % 0x10_0000 == 0
    ensures forall l | l in limits && l.memoryLimit.Some? ::
              && l.localIndex in memory && memory[l.localIndex] * 0x10_0000 == l.memoryLimit.value
              && most.Some?
              && (if l.smLimit.Some? && l.smLimit.value != 0 then l.smLimit.value else 100) <= most.value
    ensures most.Some? ==>
      exists l | l in limits && l.memoryLimit.Some? ::
        most.value == if l.smLimit.Some? && l.smLimit.value != 0 then l.smLimit.value else 100
  {
    forall l | l in limits && l.memoryLimit.Some?
      ensures l.localIndex in memory && memory[l.localIndex] * 0x10_0000 == l.memoryLimit.value
    {
      var j: nat :| EntryOf(limits, j, l.localIndex, memory[l.localIndex]);
      assert limits[j] == l;
    }
    if most.Some? {
      var l :| l in limits && l.memoryLimit.Some? && SmOr100(l) == most.value;
    }
  }

  method BuildHamiEnviron(limits: seq<DeviceLimit>, smLimit: bool) returns (env: HamiEnv)
    ensures Entries(limits, env.memoryMiB)
    ensures env.sharedCache <==> exists l | l in limits :: l.memoryLimit.Some?
    ensures env.smPercent.Some? <==> smLimit && env.sharedCache
    ensures env.smPercent.Some? ==> Largest(limits, env.smPercent)
  {
    hide EntryOf, SmOr100;
    var memory: map<nat, int> := map[];
    var most: Option<int> := None;
    for k := 0 to |limits|
      invariant Entries(limits[..k], memory) && Largest(limits[..k], most)
    {
      var l := limits[k];
      ghost var before, previous := memory, most;
      if l.memoryLimit.Some? {
        memory := memory[l.localIndex := l.memoryLimit.value / MIB];
        most := Some(if most.None? then SmOr100(l) else Max(most.value, SmOr100(l)));
      }
      assert limits[..k + 1] == limits[..k] + [l];
      OneMoreEntry(limits[..k], l, limits[..k + 1], before, memory);
      OneMoreLimit(limits[..k], l, limits[..k + 1], previous, most);
    }
    assert limits[..|limits|] == limits;
    env := HamiEnv(memory, most.Some?, if smLimit then most else None);
  }

  lemma OneMoreLimit(limits: seq<DeviceLimit>, l: DeviceLimit, more: seq<DeviceLimit>, before: Option<int>,
                     after: Option<int>)
    requires more == limits + [l] && Largest(limits, before)
    requires after == if l.memoryLimit.None? then before
                      else Some(if before.None? then SmOr100(l) else Max(before.value, SmOr100(l)))
    ensures Largest(more, after)
  {
    hide SmOr100;
    assert l in more && forall x | x in limits :: x in more;
  }

  lemma OneMoreEntry(limits: seq<DeviceLimit>, l: DeviceLimit, more: seq<DeviceLimit>, before: map<nat, int>,
                     after: map<nat, int>)
    requires more == limits + [l] && Entries(limits, before)
    requires after == if l.memoryLimit.None? then before else before[l.localIndex := l.memoryLimit.value / MIB]
    ensures Entries(more, after)
  {
    forall i | i in after ensures exists j: nat :: EntryOf(more, j, i, after[i]) {
      if l.memoryLimit.Some? && l.localIndex == i {
        assert EntryOf(more, |limits|, i, after[i]);
      } else {
        var j: nat :| EntryOf(limits, j, i, before[i]);
        assert EntryOf(more, j, i, after[i]);
      }
    }
  }
}
