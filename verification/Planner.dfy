/** From verdicts, running spots and the queue to reclaims and launches. */
module Planner {
  import opened Model
  import opened Ordering

  const DEFAULT_JOB_GPU_MEM: int := GIB

  /** Whether a GPU model name matches one of a job's patterns (shell globbing, case folded). */
  type Matcher = (string, seq<string>) -> bool

  datatype Plan = Plan(reclaims: seq<Reclaim>, launches: seq<Launch>)

  // ---- ordering ----

  /** The queue order: higher priority first, then earlier submission, then smaller id. */
  predicate Precedes(a: QueuedJob, b: QueuedJob) {
    || a.priority > b.priority
    || (a.priority == b.priority &&
        (a.submittedAt < b.submittedAt || (a.submittedAt == b.submittedAt && a.jobId <= b.jobId)))
  }

  ghost predicate InQueueOrder(s: seq<QueuedJob>) {
    forall i, j | 0 <= i < j < |s| :: Precedes(s[i], s[j])
  }

  function Insert(x: QueuedJob, s: seq<QueuedJob>): (r: seq<QueuedJob>)
    requires InQueueOrder(s)
    ensures InQueueOrder(r)
    ensures |r| == |s| + 1 && forall j :: j in r <==> j == x || j in s
  {
    if s == [] || Precedes(x, s[0]) then [x] + s
    else
      var tail := Insert(x, s[1..]);
      assert s == [s[0]] + s[1..];
      assert forall j | j in s[1..] :: Precedes(s[0], j);
      assert forall k | 0 <= k < |tail| :: tail[k] in tail && Precedes(s[0], tail[k]);
      [s[0]] + tail
  }

  /** The stable sort by `Precedes`. */
  function SortQueue(q: seq<QueuedJob>): (r: seq<QueuedJob>)
    ensures InQueueOrder(r)
    ensures |r| == |q| && forall j :: j in r <==> j in q
  {
    if q == [] then [] else Insert(q[0], SortQueue(q[1..]))
  }

  lemma {:induction false} InsertKeepsAll(x: QueuedJob, s: seq<QueuedJob>)
    requires InQueueOrder(s)
    ensures multiset(Insert(x, s)) == multiset(s) + multiset{x}
  {
    if s != [] && !Precedes(x, s[0]) {
      InsertKeepsAll(x, s[1..]);
      assert s == [s[0]] + s[1..];
    }
  }

  /** Sorting reorders the queue, by descending priority, then submission time, then id: nothing is lost and
      nothing is doubled. */
  lemma {:induction false} SortQueueKeepsAll(q: seq<QueuedJob>)
    ensures InQueueOrder(SortQueue(q)) && multiset(SortQueue(q)) == multiset(q)
    ensures forall i, k | 0 <= i < k < |SortQueue(q)| ::
              var a, b := SortQueue(q)[i], SortQueue(q)[k];
              && a.priority >= b.priority
              && (a.priority == b.priority ==> a.submittedAt <= b.submittedAt)
              && (a.priority == b.priority && a.submittedAt == b.submittedAt ==> a.jobId <= b.jobId)
  {
    if q != [] {
      SortQueueKeepsAll(q[1..]);
      InsertKeepsAll(q[0], SortQueue(q[1..]));
      assert q == [q[0]] + q[1..];
    }
  }

  // ---- what a plan has to be ----

  function NeededGpuMemory(job: QueuedJob): int {
    if job.gpuMem != 0 then job.gpuMem else DEFAULT_JOB_GPU_MEM
  }

  /** The job fits the GPU and the RAM left. */
  predicate Fits(job: QueuedJob, v: GpuVerdict, budget: int, matches: Matcher) {
    && NeededGpuMemory(job) <= v.lendableMemory
    && job.ram <= budget
    && (job.gpuModels == [] || matches(v.model, job.gpuModels))
  }

  function JobsOf(launches: seq<Launch>): set<JobId> { set l | l in launches :: l.jobId }

  function GpusOf(launches: seq<Launch>): set<GpuId> { set l | l in launches :: l.gpu }

  function RamOf(launches: seq<Launch>): nat {
    if launches == [] then 0 else RamOf(launches[..|launches| - 1]) + launches[|launches| - 1].ram
  }

  function Occupied(running: seq<RunningSpot>): set<GpuId> { set s | s in running :: s.gpu }

  /** A GPU that may receive a job. */
  predicate Open(g: GpuId, verdicts: map<GpuId, GpuVerdict>, occupied: set<GpuId>) {
    g in verdicts && verdicts[g].lendable && g !in occupied
  }

  /** `job` may be launched on `g` after `earlier`: it is not taken yet and fits what is left. */
  ghost predicate Candidate(job: QueuedJob, g: GpuId, earlier: seq<Launch>, verdicts: map<GpuId, GpuVerdict>,
                            queue: seq<QueuedJob>, ramBudget: int, matches: Matcher)
    requires g in verdicts
  {
    && job in queue
    && job.jobId !in JobsOf(earlier)
    && Fits(job, verdicts[g], ramBudget - RamOf(earlier), matches)
  }

  /** Launch `l` after `earlier` gives its GPU the first candidate in queue order. */
  ghost predicate FirstCandidate(l: Launch, earlier: seq<Launch>, verdicts: map<GpuId, GpuVerdict>,
                                 queue: seq<QueuedJob>, ramBudget: int, matches: Matcher)
    requires l.gpu in verdicts
  {
    exists job ::
      && Candidate(job, l.gpu, earlier, verdicts, queue, ramBudget, matches)
      && l == Launch(job.jobId, l.gpu, verdicts[l.gpu].lendableMemory, job.ram)
      && forall other :: Candidate(other, l.gpu, earlier, verdicts, queue, ramBudget, matches) ==> Precedes(job, other)
  }

  /** The launches before GPU `g` are exactly the first `k`. */
  ghost predicate SplitsAt(launches: seq<Launch>, k: nat, g: GpuId) {
    && k <= |launches|
    && (forall i | 0 <= i < k :: launches[i].gpu < g)
    && (forall i | k <= i < |launches| :: launches[i].gpu > g)
  }

  /** Every launch goes to an open GPU in `scope`, in ascending order. */
  ghost predicate Ascending(launches: seq<Launch>, scope: set<GpuId>, verdicts: map<GpuId, GpuVerdict>,
                            occupied: set<GpuId>)
  {
    && (forall k | 0 <= k < |launches| :: launches[k].gpu in scope && Open(launches[k].gpu, verdicts, occupied))
    && (forall i, k | 0 <= i < k < |launches| :: launches[i].gpu < launches[k].gpu)
  }

  /** Every launch takes the first candidate left by the launches before it. */
  ghost predicate EachFirst(launches: seq<Launch>, verdicts: map<GpuId, GpuVerdict>, queue: seq<QueuedJob>,
                            ramBudget: int, matches: Matcher)
  {
    forall k | 0 <= k < |launches| ::
      launches[k].gpu in verdicts && FirstCandidate(launches[k], launches[..k], verdicts, queue, ramBudget, matches)
  }

  /** An open GPU of `scope` without a launch had no candidate at its turn. */
  ghost predicate NoneSkipped(launches: seq<Launch>, scope: set<GpuId>, verdicts: map<GpuId, GpuVerdict>,
                              occupied: set<GpuId>, queue: seq<QueuedJob>, ramBudget: int, matches: Matcher)
  {
    forall g, k: nat, job | g in scope && Open(g, verdicts, occupied) && SplitsAt(launches, k, g) ::
      !Candidate(job, g, launches[..k], verdicts, queue, ramBudget, matches)
  }

  /** First fit over the GPUs in `scope`: open GPUs in ascending order, each given its first candidate,
      and a GPU skipped only when it had no candidate at its turn. Says nothing of how to compute it. */
  ghost predicate FirstFit(launches: seq<Launch>, scope: set<GpuId>, verdicts: map<GpuId, GpuVerdict>,
                           occupied: set<GpuId>, queue: seq<QueuedJob>, ramBudget: int, matches: Matcher)
  {
    && Ascending(launches, scope, verdicts, occupied)
    && EachFirst(launches, verdicts, queue, ramBudget, matches)
    && NoneSkipped(launches, scope, verdicts, occupied, queue, ramBudget, matches)
  }

  /** A running spot is reclaimed when its GPU is gone from the verdicts or its verdict says so. */
  predicate MustGo(s: RunningSpot, verdicts: map<GpuId, GpuVerdict>) {
    !s.reclaiming && (s.gpu !in verdicts || verdicts[s.gpu].mustReclaim)
  }

  function ReclaimFor(s: RunningSpot, verdicts: map<GpuId, GpuVerdict>): Reclaim {
    Reclaim(s.jobId, s.gpu, s.container, if s.gpu in verdicts then verdicts[s.gpu].reasons else [GpuVanished])
  }

  /** The reclaims, in the order of the running spots. */
  function Reclaims(running: seq<RunningSpot>, verdicts: map<GpuId, GpuVerdict>): (r: seq<Reclaim>)
    ensures forall x :: x in r <==> exists s | s in running :: MustGo(s, verdicts) && x == ReclaimFor(s, verdicts)
  {
    if running == [] then []
    else
      var last := running[|running| - 1];
      var front := Reclaims(running[..|running| - 1], verdicts);
      assert running == running[..|running| - 1] + [last];
      if MustGo(last, verdicts) then front + [ReclaimFor(last, verdicts)] else front
  }

  // ---- the planner ----

  method PlanActions(verdicts: map<GpuId, GpuVerdict>, running: seq<RunningSpot>, queue: seq<QueuedJob>,
                     ramBudget: int, enforced: bool, matches: Matcher) returns (p: Plan)
    ensures p.reclaims == Reclaims(running, verdicts)
    ensures !enforced ==> p.launches == []
    ensures enforced ==>
      FirstFit(p.launches, verdicts.Keys, verdicts, Occupied(running), queue, ramBudget, matches)
  {
    hide FirstFit;
    var reclaims: seq<Reclaim> := [];
    for i := 0 to |running|
      invariant reclaims == Reclaims(running[..i], verdicts)
    {
      var spot := running[i];
      assert running[..i + 1][..i] == running[..i];
      if spot.reclaiming { continue; }
      if spot.gpu !in verdicts {
        reclaims := reclaims + [Reclaim(spot.jobId, spot.gpu, spot.container, [GpuVanished])];
      } else if verdicts[spot.gpu].mustReclaim {
        reclaims := reclaims + [Reclaim(spot.jobId, spot.gpu, spot.container, verdicts[spot.gpu].reasons)];
      }
    }
    assert running[..|running|] == running;
    if !enforced {
      return Plan(reclaims, []);
    }
    var launches := PlanLaunches(verdicts, Occupied(running), queue, ramBudget, matches);
    p := Plan(reclaims, launches);
  }

  /** The nested loops: open GPUs in UUID order, jobs in queue order, a running budget and a taken set. */
  method PlanLaunches(verdicts: map<GpuId, GpuVerdict>, occupied: set<GpuId>, queue: seq<QueuedJob>,
                      ramBudget: int, matches: Matcher) returns (launches: seq<Launch>)
    ensures FirstFit(launches, verdicts.Keys, verdicts, occupied, queue, ramBudget, matches)
  {
    hide FirstFit, FirstCandidate, Candidate, JobsOf, RamOf, SortQueue, SortedIds, Prefix;
    launches := [];
    EmptyPlan(verdicts, occupied, queue, ramBudget, matches);
    var ordered := SortQueue(queue);
    var taken: set<JobId> := {};
    var budget := ramBudget;
    var gpus := SortedIds(verdicts.Keys);
    for i := 0 to |gpus|
      invariant FirstFit(launches, Prefix(gpus, i), verdicts, occupied, queue, ramBudget, matches)
      invariant taken == JobsOf(launches)
      invariant budget == ramBudget - RamOf(launches)
    {
      var uuid := gpus[i];
      var verdict := verdicts[uuid];
      PrefixGrows(gpus, i);
      if !verdict.lendable || uuid in occupied {
        SkipGpu(launches, Prefix(gpus, i), uuid, verdicts, occupied, queue, ramBudget, matches);
        continue;
      }
      var found := PickJob(ordered, uuid, launches, taken, budget, verdicts, queue, ramBudget, matches);
      if found.Some? {
        var job := found.value;
        var launch := Launch(job.jobId, uuid, verdict.lendableMemory, job.ram);
        AppendLaunch(launches, launch, Prefix(gpus, i), verdicts, occupied, queue, ramBudget, matches);
        AppendTotals(launches, launch);
        launches := launches + [launch];
        taken := taken + {job.jobId};
        budget := budget - job.ram;
      } else {
        SkipGpu(launches, Prefix(gpus, i), uuid, verdicts, occupied, queue, ramBudget, matches);
      }
    }
    WholePrefix(gpus, verdicts.Keys);
  }

  lemma EmptyPlan(verdicts: map<GpuId, GpuVerdict>, occupied: set<GpuId>, queue: seq<QueuedJob>, ramBudget: int,
                  matches: Matcher)
    ensures FirstFit([], {}, verdicts, occupied, queue, ramBudget, matches)
    ensures JobsOf([]) == {} && RamOf([]) == 0
    ensures forall gpus: seq<GpuId> :: Prefix(gpus, 0) == {}
  {}

  lemma WholePrefix(gpus: seq<GpuId>, s: set<GpuId>)
    requires forall g :: g in gpus <==> g in s
    ensures Prefix(gpus, |gpus|) == s
  {
    forall g ensures g in Prefix(gpus, |gpus|) <==> g in s {
      if g in s { var i :| 0 <= i < |gpus| && gpus[i] == g; }
    }
  }

  lemma AppendTotals(launches: seq<Launch>, l: Launch)
    ensures JobsOf(launches + [l]) == JobsOf(launches) + {l.jobId}
    ensures GpusOf(launches + [l]) == GpusOf(launches) + {l.gpu}
    ensures RamOf(launches + [l]) == RamOf(launches) + l.ram
  {
    var longer := launches + [l];
    assert longer[..|launches|] == launches;
    forall x ensures x in longer <==> x in launches || x == l {}
    forall id ensures id in JobsOf(longer) <==> id in JobsOf(launches) + {l.jobId} {
      assert l in longer;
    }
    forall g ensures g in GpusOf(longer) <==> g in GpusOf(launches) + {l.gpu} {
      assert l in longer;
    }
  }

  /** The inner loop: the first untaken job in queue order that fits the GPU and the budget. */
  method PickJob(ordered: seq<QueuedJob>, uuid: GpuId, ghost launches: seq<Launch>, taken: set<JobId>, budget: int,
                 verdicts: map<GpuId, GpuVerdict>, ghost queue: seq<QueuedJob>, ghost ramBudget: int, matches: Matcher)
    returns (found: Option<QueuedJob>)
    requires uuid in verdicts && InQueueOrder(ordered)
    requires forall job :: job in ordered <==> job in queue
    requires taken == JobsOf(launches) && budget == ramBudget - RamOf(launches)
    ensures found.None? ==> forall job :: !Candidate(job, uuid, launches, verdicts, queue, ramBudget, matches)
    ensures found.Some? ==>
      FirstCandidate(Launch(found.value.jobId, uuid, verdicts[uuid].lendableMemory, found.value.ram), launches,
                     verdicts, queue, ramBudget, matches)
  {
    var verdict := verdicts[uuid];
    for j := 0 to |ordered|
      invariant forall k | 0 <= k < j :: !Candidate(ordered[k], uuid, launches, verdicts, queue, ramBudget, matches)
    {
      var job := ordered[j];
      if job.jobId in taken { continue; }
      var needGpu := if job.gpuMem != 0 then job.gpuMem else DEFAULT_JOB_GPU_MEM;
      if needGpu > verdict.lendableMemory || job.ram > budget { continue; }
      if job.gpuModels != [] && !matches(verdict.model, job.gpuModels) { continue; }
      FirstInOrder(ordered, j, uuid, launches, verdicts, queue, ramBudget, matches);
      return Some(job);
    }
    NoneInOrder(ordered, uuid, launches, verdicts, queue, ramBudget, matches);
    found := None;
  }

  ghost function Prefix(gpus: seq<GpuId>, n: nat): set<GpuId>
    requires n <= |gpus|
  {
    set i | 0 <= i < n :: gpus[i]
  }

  lemma PrefixGrows(gpus: seq<GpuId>, i: nat)
    requires i < |gpus| && forall j, k | 0 <= j < k < |gpus| :: gpus[j] < gpus[k]
    ensures Prefix(gpus, i + 1) == Prefix(gpus, i) + {gpus[i]}
    ensures forall x | x in Prefix(gpus, i) :: x < gpus[i]
  {}

  lemma NoneInOrder(ordered: seq<QueuedJob>, g: GpuId, launches: seq<Launch>, verdicts: map<GpuId, GpuVerdict>,
                    queue: seq<QueuedJob>, ramBudget: int, matches: Matcher)
    requires g in verdicts && forall job :: job in ordered <==> job in queue
    requires forall k | 0 <= k < |ordered| :: !Candidate(ordered[k], g, launches, verdicts, queue, ramBudget, matches)
    ensures forall job :: !Candidate(job, g, launches, verdicts, queue, ramBudget, matches)
  {
    forall job | job in queue ensures !Candidate(job, g, launches, verdicts, queue, ramBudget, matches) {
      assert job in ordered;
    }
  }

  /** The first candidate met along the sorted queue is the first one in queue order. */
  lemma FirstInOrder(ordered: seq<QueuedJob>, j: nat, g: GpuId, launches: seq<Launch>, verdicts: map<GpuId, GpuVerdict>,
                     queue: seq<QueuedJob>, ramBudget: int, matches: Matcher)
    requires j < |ordered| && InQueueOrder(ordered) && g in verdicts
    requires forall job :: job in ordered <==> job in queue
    requires forall k | 0 <= k < j :: !Candidate(ordered[k], g, launches, verdicts, queue, ramBudget, matches)
    requires Candidate(ordered[j], g, launches, verdicts, queue, ramBudget, matches)
    ensures FirstCandidate(Launch(ordered[j].jobId, g, verdicts[g].lendableMemory, ordered[j].ram), launches,
                           verdicts, queue, ramBudget, matches)
  {
    forall other | Candidate(other, g, launches, verdicts, queue, ramBudget, matches)
      ensures Precedes(ordered[j], other)
    {
      assert other in ordered;
      var k :| 0 <= k < |ordered| && ordered[k] == other;
      assert k >= j;
    }
  }

  /** Extending the scope by a later GPU that is closed or has no candidate. */
  lemma SkipGpu(launches: seq<Launch>, scope: set<GpuId>, g: GpuId, verdicts: map<GpuId, GpuVerdict>,
                occupied: set<GpuId>, queue: seq<QueuedJob>, ramBudget: int, matches: Matcher)
    requires FirstFit(launches, scope, verdicts, occupied, queue, ramBudget, matches)
    requires forall x | x in scope :: x < g
    requires Open(g, verdicts, occupied) ==>
      forall job :: !Candidate(job, g, launches, verdicts, queue, ramBudget, matches)
    ensures FirstFit(launches, scope + {g}, verdicts, occupied, queue, ramBudget, matches)
  {
    forall k: nat, job | Open(g, verdicts, occupied)
      ensures SplitsAt(launches, k, g) ==> !Candidate(job, g, launches[..k], verdicts, queue, ramBudget, matches)
    {
      if k < |launches| {
        assert launches[k].gpu < g;
      } else if k == |launches| {
        assert launches[..k] == launches;
      }
    }
  }

  /** Extending the scope by a later open GPU together with its launch. */
  lemma AppendLaunch(launches: seq<Launch>, l: Launch, scope: set<GpuId>, verdicts: map<GpuId, GpuVerdict>,
                     occupied: set<GpuId>, queue: seq<QueuedJob>, ramBudget: int, matches: Matcher)
    requires FirstFit(launches, scope, verdicts, occupied, queue, ramBudget, matches)
    requires forall x | x in scope :: x < l.gpu
    requires Open(l.gpu, verdicts, occupied)
    requires FirstCandidate(l, launches, verdicts, queue, ramBudget, matches)
    ensures FirstFit(launches + [l], scope + {l.gpu}, verdicts, occupied, queue, ramBudget, matches)
  {
    AppendEachFirst(launches, l, verdicts, queue, ramBudget, matches);
    AppendNoneSkipped(launches, l, scope, verdicts, occupied, queue, ramBudget, matches);
  }

  lemma AppendEachFirst(launches: seq<Launch>, l: Launch, verdicts: map<GpuId, GpuVerdict>, queue: seq<QueuedJob>,
                        ramBudget: int, matches: Matcher)
    requires EachFirst(launches, verdicts, queue, ramBudget, matches)
    requires l.gpu in verdicts && FirstCandidate(l, launches, verdicts, queue, ramBudget, matches)
    ensures EachFirst(launches + [l], verdicts, queue, ramBudget, matches)
  {
    var longer := launches + [l];
    forall k | 0 <= k < |longer|
      ensures longer[k].gpu in verdicts && FirstCandidate(longer[k], longer[..k], verdicts, queue, ramBudget, matches)
    {
      if k < |launches| {
        assert longer[k] == launches[k] && longer[..k] == launches[..k];
      } else {
        assert longer[k] == l && longer[..k] == launches;
      }
    }
  }

  lemma AppendNoneSkipped(launches: seq<Launch>, l: Launch, scope: set<GpuId>, verdicts: map<GpuId, GpuVerdict>,
                          occupied: set<GpuId>, queue: seq<QueuedJob>, ramBudget: int, matches: Matcher)
    requires NoneSkipped(launches, scope, verdicts, occupied, queue, ramBudget, matches)
    requires forall x | x in scope :: x < l.gpu
    ensures NoneSkipped(launches + [l], scope + {l.gpu}, verdicts, occupied, queue, ramBudget, matches)
  {
    var longer := launches + [l];
    forall g, k: nat, job | g in scope + {l.gpu} && Open(g, verdicts, occupied) && SplitsAt(longer, k, g)
      ensures !Candidate(job, g, longer[..k], verdicts, queue, ramBudget, matches)
    {
      SplitBeforeLast(launches, l, k, g);
    }
  }

  /** A split point of the longer list at a GPU no later than its last one is a split point of the rest. */
  lemma SplitBeforeLast(launches: seq<Launch>, l: Launch, k: nat, g: GpuId)
    requires SplitsAt(launches + [l], k, g) && g <= l.gpu
    ensures k <= |launches| && SplitsAt(launches, k, g)
    ensures (launches + [l])[..k] == launches[..k]
    ensures g < l.gpu
  {
    var longer := launches + [l];
    assert longer[|launches|] == l;
    forall i | 0 <= i < |launches| ensures longer[i] == launches[i] {}
  }
}
