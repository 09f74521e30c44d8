/** Attributing the GPU memory and utilisation of processes to the containers they run in. Container ids
    are strings here, because they are matched by their first twelve characters. */
module Attribution {
  import opened Model
  import opened Observer

  /** One process seen on one GPU. */
  datatype Use = Use(gpu: nat, process: GpuProcess)

  datatype Quantity = Memory | Utilisation

  datatype Measurement = Measurement(value: nat, capacity: nat)

  function Amount(p: GpuProcess, q: Quantity): nat { if q.Memory? then p.usedMemory else p.smUtil }

  function UsesOn(snap: GpuSnapshot): seq<Use> {
    seq(|snap.processes|, i requires 0 <= i < |snap.processes| => Use(snap.info.index, snap.processes[i]))
  }

  /** Every process of every snapshot, in the order the snapshots list them. */
  function AllUses(snaps: seq<GpuSnapshot>): seq<Use> {
    if snaps == [] then [] else AllUses(snaps[..|snaps| - 1]) + UsesOn(snaps[|snaps| - 1])
  }

  // ---- whose process it is ----

  function Short(id: string): string { if |id| <= 12 then id else id[..12] }

  /** The requested containers by their short id; a later one wins. */
  function Wanted(ids: seq<string>): map<string, string> {
    if ids == [] then map[] else Wanted(ids[..|ids| - 1])[Short(ids[|ids| - 1]) := ids[|ids| - 1]]
  }

  function ContainerFor(u: Use, containers: map<nat, string>, wanted: map<string, string>): Option<string> {
    if u.process.pid !in containers || containers[u.process.pid] == "" then None
    else
      var short := Short(containers[u.process.pid]);
      if short in wanted then Some(wanted[short]) else None
  }

  ghost predicate IsLastWithPrefix(ids: seq<string>, k: nat) {
    k < |ids| && forall j | k < j < |ids| :: Short(ids[j]) != Short(ids[k])
  }

  lemma {:induction false} WantedIsLast(ids: seq<string>, short: string)
    ensures short in Wanted(ids) <==> exists id | id in ids :: Short(id) == short
    ensures short in Wanted(ids) ==>
              exists k: nat :: IsLastWithPrefix(ids, k) && Wanted(ids)[short] == ids[k] && Short(ids[k]) == short
  {
    if ids != [] {
      var n := |ids| - 1;
      var front := ids[..n];
      WantedIsLast(front, short);
      assert ids == front + [ids[n]];
      if Short(ids[n]) == short {
        assert ids[n] in ids;
        assert IsLastWithPrefix(ids, n);
      } else if short in Wanted(front) {
        var k: nat :| IsLastWithPrefix(front, k) && Wanted(front)[short] == front[k] && Short(front[k]) == short;
        assert front[k] in ids;
        assert IsLastWithPrefix(ids, k);
      }
    }
  }

  /** A process is counted for a container exactly when its own container has that container's prefix and
      that container is the last one requested with the prefix. */
  lemma PrefixDecides(u: Use, containers: map<nat, string>, ids: seq<string>, c: string)
    ensures ContainerFor(u, containers, Wanted(ids)) == Some(c)
        <==> && u.process.pid in containers && containers[u.process.pid] != ""
             && Short(containers[u.process.pid]) == Short(c)
             && exists k: nat :: IsLastWithPrefix(ids, k) && ids[k] == c
  {
    WantedIsLast(ids, Short(c));
    if u.process.pid in containers {
      WantedIsLast(ids, Short(containers[u.process.pid]));
    }
    forall k: nat | IsLastWithPrefix(ids, k) && ids[k] == c
      ensures Short(c) in Wanted(ids) && Wanted(ids)[Short(c)] == c
    {
      assert ids[k] in ids;
      var last: nat :| IsLastWithPrefix(ids, last) && Wanted(ids)[Short(c)] == ids[last]
            && Short(ids[last]) == Short(c);
      assert last == k;
    }
  }

  /** So when the requested containers have different prefixes, containers never mix. */
  lemma ContainersNeverMix(u: Use, containers: map<nat, string>, ids: seq<string>, k: nat)
    requires k < |ids|
    requires forall i, j | 0 <= i < j < |ids| :: Short(ids[i]) != Short(ids[j])
    ensures ContainerFor(u, containers, Wanted(ids)) == Some(ids[k])
        <==> u.process.pid in containers && containers[u.process.pid] != ""
             && Short(containers[u.process.pid]) == Short(ids[k])
  {
    PrefixDecides(u, containers, ids, ids[k]);
    assert IsLastWithPrefix(ids, k);
  }

  /** Both ids end before position `k`, or both have the same character there. */
  ghost predicate SameAt(a: string, b: string, k: nat) { (k < |a| <==> k < |b|) && (k < |a| ==> a[k] == b[k]) }

  /** Two ids have the same short id exactly when they agree on their first twelve characters. */
  lemma ShortMeansTwelve(a: string, b: string)
    ensures Short(a) == Short(b) <==> forall k | 0 <= k < 12 :: SameAt(a, b, k)
  {
    if forall k | 0 <= k < 12 :: SameAt(a, b, k) {
      if |a| < 12 { assert SameAt(a, b, |a|); }
      if |b| < 12 { assert SameAt(a, b, |b|); }
      forall k | 0 <= k < |Short(a)| ensures Short(a)[k] == Short(b)[k] { assert SameAt(a, b, k); }
    } else {
      var k :| 0 <= k < 12 && !SameAt(a, b, k);
      assert k < |a| ==> Short(a)[k] == a[k];
      assert k < |b| ==> Short(b)[k] == b[k];
    }
  }

  /** Every process of every snapshot is looked at, once, in order, as one on the snapshot's GPU. */
  lemma {:induction false} EveryProcessIsSeen(a: seq<GpuSnapshot>, b: seq<GpuSnapshot>)
    ensures AllUses(a + b) == AllUses(a) + AllUses(b) && AllUses([]) == []
    ensures forall s: GpuSnapshot :: |AllUses([s])| == |s.processes|
    ensures forall s: GpuSnapshot, i | 0 <= i < |s.processes| ::
              AllUses([s])[i].gpu == s.info.index && AllUses([s])[i].process == s.processes[i]
  {
    forall s: GpuSnapshot ensures AllUses([s]) == UsesOn(s) {
      assert [s][..0] == [];
    }
    if b == [] {
      assert a + b == a;
    } else {
      var n := |b| - 1;
      EveryProcessIsSeen(a, b[..n]);
      assert (a + b)[..|a + b| - 1] == a + b[..n];
    }
  }

  // ---- sums ----

  /** What the processes of one container use; those of no requested container, for `None`. */
  function Used(uses: seq<Use>, c: Option<string>, containers: map<nat, string>, wanted: map<string, string>,
                q: Quantity): nat
  {
    if uses == [] then 0
    else
      var last := uses[|uses| - 1];
      Used(uses[..|uses| - 1], c, containers, wanted, q)
      + if ContainerFor(last, containers, wanted) == c then Amount(last.process, q) else 0
  }

  lemma UsedStep(uses: seq<Use>, u: Use, c: Option<string>, containers: map<nat, string>, wanted: map<string, string>,
                 q: Quantity)
    ensures Used(uses + [u], c, containers, wanted, q)
         == Used(uses, c, containers, wanted, q)
            + if ContainerFor(u, containers, wanted) == c then Amount(u.process, q) else 0
  {
    assert (uses + [u])[..|uses|] == uses;
  }

  /** One process counts with its memory, or its SM utilisation, for the container it belongs to. */
  lemma OneUseInFull(u: Use, c: Option<string>, containers: map<nat, string>, wanted: map<string, string>)
    ensures ContainerFor(u, containers, wanted) == c ==>
              && Used([u], c, containers, wanted, Memory) == u.process.usedMemory
              && Used([u], c, containers, wanted, Utilisation) == u.process.smUtil
    ensures ContainerFor(u, containers, wanted) != c ==> forall q :: Used([u], c, containers, wanted, q) == 0
    ensures Total([u], Memory) == u.process.usedMemory && Total([u], Utilisation) == u.process.smUtil
  {
    assert [u][..0] == [];
  }

  function Total(uses: seq<Use>, q: Quantity): nat {
    if uses == [] then 0 else Total(uses[..|uses| - 1], q) + Amount(uses[|uses| - 1].process, q)
  }

  /** The GPUs a container's processes were seen on. */
  function Seen(uses: seq<Use>, c: string, containers: map<nat, string>, wanted: map<string, string>): set<nat> {
    set u | u in uses && ContainerFor(u, containers, wanted) == Some(c) :: u.gpu
  }

  /** The sum of a map's values over some of its keys. */
  ghost function Sum<K>(keys: set<K>, m: map<K, nat>): nat
    requires keys <= m.Keys
    decreases |keys|
  {
    if keys == {} then 0
    else
      var k :| k in keys;
      m[k] + Sum(keys - {k}, m)
  }

  lemma {:induction false} SumTakesAny<K>(keys: set<K>, m: map<K, nat>, k: K)
    requires keys <= m.Keys && k in keys
    ensures Sum(keys, m) == m[k] + Sum(keys - {k}, m)
    decreases |keys|
  {
    var first :| first in keys && Sum(keys, m) == m[first] + Sum(keys - {first}, m);
    if first != k {
      SumTakesAny(keys - {first}, m, k);
      SumTakesAny(keys - {k}, m, first);
      assert keys - {first} - {k} == keys - {k} - {first};
    }
  }

  lemma {:induction false} SumAgrees<K>(keys: set<K>, m: map<K, nat>, n: map<K, nat>)
    requires keys <= m.Keys && keys <= n.Keys && forall k | k in keys :: m[k] == n[k]
    ensures Sum(keys, m) == Sum(keys, n)
    decreases |keys|
  {
    if keys != {} {
      var k :| k in keys;
      SumTakesAny(keys, m, k);
      SumTakesAny(keys, n, k);
      SumAgrees(keys - {k}, m, n);
    }
  }

  /** What each of some containers uses. */
  ghost function Shares(keys: set<string>, uses: seq<Use>, containers: map<nat, string>, wanted: map<string, string>,
                        q: Quantity): map<string, nat>
  {
    map c | c in keys :: Used(uses, Some(c), containers, wanted, q)
  }

  /** Conservation: what the containers use and what no requested container uses add up to everything. */
  lemma {:induction false} UsageIsConserved(keys: set<string>, uses: seq<Use>, containers: map<nat, string>,
                                            wanted: map<string, string>, q: Quantity)
    requires forall u | u in uses && ContainerFor(u, containers, wanted).Some? ::
               ContainerFor(u, containers, wanted).value in keys
    ensures Sum(keys, Shares(keys, uses, containers, wanted, q)) + Used(uses, None, containers, wanted, q)
         == Total(uses, q)
  {
    var after := Shares(keys, uses, containers, wanted, q);
    if uses == [] {
      NothingUsed(keys, after);
    } else {
      var n := |uses| - 1;
      var front, last := uses[..n], uses[n];
      assert last in uses;
      UsageIsConserved(keys, front, containers, wanted, q);
      var before := Shares(keys, front, containers, wanted, q);
      match ContainerFor(last, containers, wanted)
      case None => SumAgrees(keys, before, after);
      case Some(c) =>
        SumTakesAny(keys, before, c);
        SumTakesAny(keys, after, c);
        SumAgrees(keys - {c}, before, after);
    }
  }

  lemma {:induction false} NothingUsed(keys: set<string>, m: map<string, nat>)
    requires keys <= m.Keys && forall k | k in keys :: m[k] == 0
    ensures Sum(keys, m) == 0
    decreases |keys|
  {
    if keys != {} {
      var k :| k in keys;
      SumTakesAny(keys, m, k);
      NothingUsed(keys - {k}, m);
    }
  }

  // ---- capacity ----

  /** The capacity of each GPU; a later snapshot with the same index wins. */
  function CapacityByIndex(snaps: seq<GpuSnapshot>): map<nat, nat> {
    if snaps == [] then map[]
    else
      var last := snaps[|snaps| - 1].info;
      CapacityByIndex(snaps[..|snaps| - 1])[last.index := last.totalMemory]
  }

  predicate DistinctIndices(snaps: seq<GpuSnapshot>) {
    forall i, j | 0 <= i < j < |snaps| :: snaps[i].info.index != snaps[j].info.index
  }

  lemma {:induction false} UsedAppend(a: seq<Use>, b: seq<Use>, c: Option<string>, containers: map<nat, string>,
                                      wanted: map<string, string>, q: Quantity)
    ensures Used(a + b, c, containers, wanted, q)
         == Used(a, c, containers, wanted, q) + Used(b, c, containers, wanted, q)
  {
    if b == [] {
      assert a + b == a;
    } else {
      var n := |b| - 1;
      assert (a + b)[..|a + b| - 1] == a + b[..n];
      UsedAppend(a, b[..n], c, containers, wanted, q);
    }
  }

  lemma {:induction false} UsedAtMostTotal(uses: seq<Use>, c: Option<string>, containers: map<nat, string>,
                                           wanted: map<string, string>, q: Quantity)
    ensures Used(uses, c, containers, wanted, q) <= Total(uses, q)
    ensures (forall u | u in uses :: ContainerFor(u, containers, wanted) != c) ==>
              Used(uses, c, containers, wanted, q) == 0
  {
    if uses != [] {
      var n := |uses| - 1;
      UsedAtMostTotal(uses[..n], c, containers, wanted, q);
      assert uses[n] in uses;
      assert forall u | u in uses[..n] :: u in uses;
    }
  }

  predicate HasIndex(snaps: seq<GpuSnapshot>, index: nat) { exists s | s in snaps :: s.info.index == index }

  lemma {:induction false} UsesAreOnListedGpus(snaps: seq<GpuSnapshot>)
    ensures forall u | u in AllUses(snaps) :: HasIndex(snaps, u.gpu)
  {
    if snaps != [] {
      var n := |snaps| - 1;
      var front, last := snaps[..n], snaps[n];
      UsesAreOnListedGpus(front);
      assert snaps == front + [last];
      forall u | u in AllUses(snaps) ensures HasIndex(snaps, u.gpu) {
        if u in AllUses(front) {
          HasIndexLater(front, last, u.gpu);
        } else {
          assert u in UsesOn(last) && last in snaps;
        }
      }
    }
  }

  lemma HasIndexLater(front: seq<GpuSnapshot>, last: GpuSnapshot, index: nat)
    requires HasIndex(front, index)
    ensures HasIndex(front + [last], index)
  {
    var s :| s in front && s.info.index == index;
    assert s in front + [last];
  }

  lemma {:induction false} EveryIndexHasCapacity(snaps: seq<GpuSnapshot>)
    ensures forall index: nat :: index in CapacityByIndex(snaps) <==> HasIndex(snaps, index)
  {
    if snaps != [] {
      var n := |snaps| - 1;
      var front, last := snaps[..n], snaps[n];
      EveryIndexHasCapacity(front);
      assert snaps == front + [last];
      forall index: nat ensures HasIndex(snaps, index) <==> index == last.info.index || HasIndex(front, index) {
        if HasIndex(front, index) { HasIndexLater(front, last, index); }
        assert last in snaps;
      }
    }
  }

  lemma {:induction false} CapacityIsTotalMemory(snaps: seq<GpuSnapshot>, i: nat)
    requires DistinctIndices(snaps) && i < |snaps|
    ensures snaps[i].info.index in CapacityByIndex(snaps)
    ensures CapacityByIndex(snaps)[snaps[i].info.index] == snaps[i].info.totalMemory
  {
    var n := |snaps| - 1;
    if i < n {
      assert snaps[..n][i] == snaps[i];
      CapacityIsTotalMemory(snaps[..n], i);
    }
  }

  /** A container's share is bounded by the capacity of the GPUs it was seen on, when GPUs have different
      indices and no GPU's processes exceed its capacity `cap`. */
  lemma {:induction false} UsageWithinCapacity(snaps: seq<GpuSnapshot>, c: string, containers: map<nat, string>,
                                               wanted: map<string, string>, q: Quantity, cap: map<nat, nat>)
    requires DistinctIndices(snaps)
    requires forall s | s in snaps :: s.info.index in cap && Total(UsesOn(s), q) <= cap[s.info.index]
    ensures var uses := AllUses(snaps);
            && Seen(uses, c, containers, wanted) <= cap.Keys
            && Used(uses, Some(c), containers, wanted, q) <= Sum(Seen(uses, c, containers, wanted), cap)
  {
    hide ContainerFor, Used, Total, UsesOn, Seen;
    var uses := AllUses(snaps);
    if snaps == [] {
      NoUses(c, containers, wanted, q);
    } else {
      var n := |snaps| - 1;
      var front, last := snaps[..n], snaps[n];
      assert last in snaps && forall s | s in front :: s in snaps;
      UsageWithinCapacity(front, c, containers, wanted, q, cap);
      var here, there := UsesOn(last), AllUses(front);
      UsedAppend(there, here, Some(c), containers, wanted, q);
      UsedAtMostTotal(here, Some(c), containers, wanted, q);
      SeenOneMoreGpu(front, last, c, containers, wanted);
      var seen, seenBefore := Seen(uses, c, containers, wanted), Seen(there, c, containers, wanted);
      var index := last.info.index;
      assert index !in seenBefore by { NotSeenBefore(snaps, n, c, containers, wanted); }
      if seen != seenBefore {
        SumTakesAny(seen, cap, index);
        assert seen - {index} == seenBefore;
      }
    }
  }

  lemma NoUses(c: string, containers: map<nat, string>, wanted: map<string, string>, q: Quantity)
    ensures Used([], Some(c), containers, wanted, q) == 0 && Seen([], c, containers, wanted) == {}
  {}

  lemma NotSeenBefore(snaps: seq<GpuSnapshot>, n: nat, c: string, containers: map<nat, string>,
                      wanted: map<string, string>)
    requires DistinctIndices(snaps) && n < |snaps|
    ensures snaps[n].info.index !in Seen(AllUses(snaps[..n]), c, containers, wanted)
  {
    hide ContainerFor;
    UsesAreOnListedGpus(snaps[..n]);
    assert !HasIndex(snaps[..n], snaps[n].info.index);
  }

  /** A further GPU is added to those a container was seen on exactly when the container uses it. */
  lemma SeenOneMoreGpu(front: seq<GpuSnapshot>, last: GpuSnapshot, c: string, containers: map<nat, string>,
                       wanted: map<string, string>)
    ensures var here, there := UsesOn(last), AllUses(front);
            var seen := Seen(there + here, c, containers, wanted);
            if exists u | u in here :: ContainerFor(u, containers, wanted) == Some(c) then
              seen == Seen(there, c, containers, wanted) + {last.info.index}
            else seen == Seen(there, c, containers, wanted)
                  && forall q :: Used(here, Some(c), containers, wanted, q) == 0
  {
    hide ContainerFor, AllUses;
    var here := UsesOn(last);
    assert forall u | u in here :: u.gpu == last.info.index;
    if forall u | u in here :: ContainerFor(u, containers, wanted) != Some(c) {
      forall q ensures Used(here, Some(c), containers, wanted, q) == 0 {
        UsedAtMostTotal(here, Some(c), containers, wanted, q);
      }
    } else {
      var u :| u in here && ContainerFor(u, containers, wanted) == Some(c);
      assert u in AllUses(front) + here;
    }
  }

  /** What is reported for a container never exceeds its reported capacity, when GPUs have different indices
      and no GPU's processes use more than the GPU has. */
  lemma MemoryWithinReportedCapacity(snaps: seq<GpuSnapshot>, c: string, containers: map<nat, string>,
                                     wanted: map<string, string>)
    requires DistinctIndices(snaps)
    requires forall s | s in snaps :: Total(UsesOn(s), Memory) <= s.info.totalMemory
    ensures var uses := AllUses(snaps);
            && Seen(uses, c, containers, wanted) <= CapacityByIndex(snaps).Keys
            && Used(uses, Some(c), containers, wanted, Memory)
               <= Sum(Seen(uses, c, containers, wanted), CapacityByIndex(snaps))
  {
    forall s | s in snaps
      ensures s.info.index in CapacityByIndex(snaps) && CapacityByIndex(snaps)[s.info.index] == s.info.totalMemory
    {
      var i :| 0 <= i < |snaps| && snaps[i] == s;
      CapacityIsTotalMemory(snaps, i);
    }
    UsageWithinCapacity(snaps, c, containers, wanted, Memory, CapacityByIndex(snaps));
  }

  lemma {:induction false} SumOfConstant(keys: set<nat>, m: map<nat, nat>, amount: nat)
    requires keys <= m.Keys && forall k | k in keys :: m[k] == amount
    ensures Sum(keys, m) == |keys| * amount
    decreases |keys|
  {
    if keys != {} {
      var k :| k in keys;
      SumTakesAny(keys, m, k);
      SumOfConstant(keys - {k}, m, amount);
      assert |keys| * amount == |keys - {k}| * amount + amount;
    }
  }

  lemma UtilisationWithinReportedCapacity(snaps: seq<GpuSnapshot>, c: string, containers: map<nat, string>,
                                          wanted: map<string, string>)
    requires DistinctIndices(snaps)
    requires forall s | s in snaps :: Total(UsesOn(s), Utilisation) <= 100
    ensures var uses := AllUses(snaps);
            Used(uses, Some(c), containers, wanted, Utilisation) <= |Seen(uses, c, containers, wanted)| * 100
  {
    EveryIndexHasCapacity(snaps);
    var full := map i | i in CapacityByIndex(snaps) :: 100;
    UsageWithinCapacity(snaps, c, containers, wanted, Utilisation, full);
    SumOfConstant(Seen(AllUses(snaps), c, containers, wanted), full, 100);
  }

  // ---- the measurement ----

  /** The containers some process was attributed to. */
  ghost function Attributed(uses: seq<Use>, containers: map<nat, string>, wanted: map<string, string>): set<string> {
    set u | u in uses && ContainerFor(u, containers, wanted).Some? :: ContainerFor(u, containers, wanted).value
  }

  /** The three running dictionaries hold the tally of the processes visited so far. */
  ghost predicate Tallies(mem: map<string, nat>, util: map<string, nat>, gpus: map<string, set<nat>>, uses: seq<Use>,
                          containers: map<nat, string>, wanted: map<string, string>)
  {
    && mem.Keys == util.Keys == gpus.Keys == Attributed(uses, containers, wanted)
    && (forall c | c in mem :: mem[c] == Used(uses, Some(c), containers, wanted, Memory))
    && (forall c | c in util :: util[c] == Used(uses, Some(c), containers, wanted, Utilisation))
    && forall c | c in gpus :: gpus[c] == Seen(uses, c, containers, wanted)
  }

  /** How one more process changes whom the tally knows and where they were seen. */
  lemma OneMoreUse(uses: seq<Use>, u: Use, containers: map<nat, string>, wanted: map<string, string>)
    ensures Attributed(uses + [u], containers, wanted)
         == Attributed(uses, containers, wanted)
            + match ContainerFor(u, containers, wanted) case Some(c) => {c} case None => {}
    ensures forall c :: (
              Seen(uses + [u], c, containers, wanted)
           == Seen(uses, c, containers, wanted)
              + if ContainerFor(u, containers, wanted) == Some(c) then {u.gpu} else {})
  {
    hide ContainerFor;
  }

  /** A container without processes has an empty tally. */
  lemma Unattributed(uses: seq<Use>, c: string, containers: map<nat, string>, wanted: map<string, string>)
    requires c !in Attributed(uses, containers, wanted)
    ensures forall q :: Used(uses, Some(c), containers, wanted, q) == 0
    ensures Seen(uses, c, containers, wanted) == {}
  {
    hide ContainerFor;
    assert forall u | u in uses :: ContainerFor(u, containers, wanted) != Some(c);
    forall q ensures Used(uses, Some(c), containers, wanted, q) == 0 {
      UsedAtMostTotal(uses, Some(c), containers, wanted, q);
    }
  }

  lemma TallySkips(mem: map<string, nat>, util: map<string, nat>, gpus: map<string, set<nat>>, uses: seq<Use>, u: Use,
                   containers: map<nat, string>, wanted: map<string, string>)
    requires Tallies(mem, util, gpus, uses, containers, wanted) && ContainerFor(u, containers, wanted).None?
    ensures Tallies(mem, util, gpus, uses + [u], containers, wanted)
  {
    hide Used, Seen, Attributed, ContainerFor;
    OneMoreUse(uses, u, containers, wanted);
    forall c, q ensures Used(uses + [u], Some(c), containers, wanted, q) == Used(uses, Some(c), containers, wanted, q) {
      UsedStep(uses, u, Some(c), containers, wanted, q);
    }
  }

  function Get<V>(m: map<string, V>, c: string, default: V): V { if c in m then m[c] else default }

  lemma TallyCounts(mem: map<string, nat>, util: map<string, nat>, gpus: map<string, set<nat>>, uses: seq<Use>, u: Use,
                    c: string, containers: map<nat, string>, wanted: map<string, string>)
    requires Tallies(mem, util, gpus, uses, containers, wanted) && ContainerFor(u, containers, wanted) == Some(c)
    ensures Tallies(mem[c := Get(mem, c, 0) + u.process.usedMemory], util[c := Get(util, c, 0) + u.process.smUtil],
                    gpus[c := Get(gpus, c, {}) + {u.gpu}], uses + [u], containers, wanted)
  {
    hide Used, Seen, Attributed, ContainerFor;
    OneMoreUse(uses, u, containers, wanted);
    if c !in mem {
      Unattributed(uses, c, containers, wanted);
    }
    var known := Attributed(uses, containers, wanted) + {c};
    var mem1, util1, gpus1 := mem[c := Get(mem, c, 0) + u.process.usedMemory],
                              util[c := Get(util, c, 0) + u.process.smUtil], gpus[c := Get(gpus, c, {}) + {u.gpu}];
    assert mem1.Keys == util1.Keys == gpus1.Keys == known;
    assert known == Attributed(uses + [u], containers, wanted);
    forall d | d in known
      ensures mem1[d] == Used(uses + [u], Some(d), containers, wanted, Memory)
      ensures util1[d] == Used(uses + [u], Some(d), containers, wanted, Utilisation)
    {
      UsedStep(uses, u, Some(d), containers, wanted, Memory);
      UsedStep(uses, u, Some(d), containers, wanted, Utilisation);
    }
  }

  function Values(ms: map<string, Measurement>): map<string, nat> { map c | c in ms :: ms[c].value }

  method SumCapacity(gpus: set<nat>, capacity: map<nat, nat>) returns (total: nat)
    requires gpus <= capacity.Keys
    ensures total == Sum(gpus, capacity)
  {
    total := 0;
    var todo := gpus;
    while todo != {}
      invariant todo <= gpus
      invariant total + Sum(todo, capacity) == Sum(gpus, capacity)
      decreases |todo|
    {
      var i :| i in todo;
      SumTakesAny(todo, capacity, i);
      total := total + capacity[i];
      todo := todo - {i};
    }
  }

  /** Per container: what its processes use, and the capacity of the GPUs they were seen on. */
  method GatherContainerMeasures(snaps: seq<GpuSnapshot>, containers: map<nat, string>, ids: seq<string>)
    returns (memory: map<string, Measurement>, utilisation: map<string, Measurement>)
    ensures var uses, wanted := AllUses(snaps), Wanted(ids);
            && memory.Keys == utilisation.Keys == Attributed(uses, containers, wanted)
            && forall c | c in memory ::
                 && Seen(uses, c, containers, wanted) <= CapacityByIndex(snaps).Keys
                 && memory[c] == Measurement(Used(uses, Some(c), containers, wanted, Memory),
                                             Sum(Seen(uses, c, containers, wanted), CapacityByIndex(snaps)))
                 && utilisation[c] == Measurement(Used(uses, Some(c), containers, wanted, Utilisation),
                                                  |Seen(uses, c, containers, wanted)| * 100)
    ensures Sum(memory.Keys, Values(memory)) + Used(AllUses(snaps), None, containers, Wanted(ids), Memory)
         == Total(AllUses(snaps), Memory)
  {
    var wanted := Wanted(ids);
    var mem: map<string, nat>, util: map<string, nat>, gpusSeen: map<string, set<nat>> := map[], map[], map[];
    for i := 0 to |snaps|
      invariant Tallies(mem, util, gpusSeen, AllUses(snaps[..i]), containers, wanted)
    {
      mem, util, gpusSeen := TallySnapshot(snaps[i], mem, util, gpusSeen, AllUses(snaps[..i]), containers, wanted);
      assert snaps[..i + 1][..i] == snaps[..i];
    }
    assert snaps[..|snaps|] == snaps;
    var capacity := CapacityByIndex(snaps);
    UsesAreOnListedGpus(snaps);
    EveryIndexHasCapacity(snaps);
    memory, utilisation := Measures(mem, util, gpusSeen, capacity);
    ghost var keys := memory.Keys;
    UsageIsConserved(keys, AllUses(snaps), containers, wanted, Memory);
    SumAgrees(keys, Values(memory), Shares(keys, AllUses(snaps), containers, wanted, Memory));
  }

  method TallySnapshot(snap: GpuSnapshot, mem0: map<string, nat>, util0: map<string, nat>, gpus0: map<string, set<nat>>,
                       ghost before: seq<Use>, containers: map<nat, string>, wanted: map<string, string>)
    returns (mem: map<string, nat>, util: map<string, nat>, gpusSeen: map<string, set<nat>>)
    requires Tallies(mem0, util0, gpus0, before, containers, wanted)
    ensures Tallies(mem, util, gpusSeen, before + UsesOn(snap), containers, wanted)
  {
    hide Tallies;
    mem, util, gpusSeen := mem0, util0, gpus0;
    ghost var here := UsesOn(snap);
    assert before + here[..0] == before;
    for j := 0 to |snap.processes|
      invariant Tallies(mem, util, gpusSeen, before + here[..j], containers, wanted)
    {
      var u := Use(snap.info.index, snap.processes[j]);
      assert before + here[..j + 1] == before + here[..j] + [u];
      var cid := ContainerFor(u, containers, wanted);
      if cid == None {
        TallySkips(mem, util, gpusSeen, before + here[..j], u, containers, wanted);
        continue;
      }
      TallyCounts(mem, util, gpusSeen, before + here[..j], u, cid.value, containers, wanted);
      mem := mem[cid.value := Get(mem, cid.value, 0) + u.process.usedMemory];
      util := util[cid.value := Get(util, cid.value, 0) + u.process.smUtil];
      gpusSeen := gpusSeen[cid.value := Get(gpusSeen, cid.value, {}) + {u.gpu}];
    }
    assert here[..|snap.processes|] == here;
  }

  method Measures(mem: map<string, nat>, util: map<string, nat>, gpusSeen: map<string, set<nat>>,
                  capacity: map<nat, nat>)
    returns (memory: map<string, Measurement>, utilisation: map<string, Measurement>)
    requires mem.Keys == util.Keys == gpusSeen.Keys
    requires forall c | c in gpusSeen :: gpusSeen[c] <= capacity.Keys
    ensures memory.Keys == utilisation.Keys == mem.Keys
    ensures forall c | c in memory :: memory[c] == Measurement(mem[c], Sum(gpusSeen[c], capacity))
    ensures forall c | c in memory :: utilisation[c] == Measurement(util[c], |gpusSeen[c]| * 100)
  {
    hide Sum;
    var capacities := Capacities(gpusSeen, capacity);
    memory := map c | c in mem :: Measurement(mem[c], capacities[c]);
    utilisation := map c | c in util :: Measurement(util[c], |gpusSeen[c]| * 100);
  }

  method Capacities(gpusSeen: map<string, set<nat>>, capacity: map<nat, nat>) returns (totals: map<string, nat>)
    requires forall c | c in gpusSeen :: gpusSeen[c] <= capacity.Keys
    ensures totals.Keys == gpusSeen.Keys && forall c | c in totals :: totals[c] == Sum(gpusSeen[c], capacity)
  {
    hide Sum;
    totals := map[];
    var todo := gpusSeen.Keys;
    while todo != {}
      invariant todo <= gpusSeen.Keys && totals.Keys == gpusSeen.Keys - todo
      invariant forall c | c in totals :: totals[c] == Sum(gpusSeen[c], capacity)
      decreases |todo|
    {
      var c :| c in todo;
      var total := SumCapacity(gpusSeen[c], capacity);
      totals := totals[c := total];
      todo := todo - {c};
    }
  }
}
