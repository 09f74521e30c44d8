/** What first fit amounts to, whoever computes it. */
module PlannerProofs {
  import opened Model
  import opened Planner

  /** Job ids identify jobs (they are the primary key of the jobs table). */
  ghost predicate DistinctIds(queue: seq<QueuedJob>) {
    forall a, b | a in queue && b in queue && a.jobId == b.jobId :: a == b
  }

  /** The queued job that a launch takes. */
  ghost predicate Takes(l: Launch, job: QueuedJob, verdicts: map<GpuId, GpuVerdict>) {
    l.gpu in verdicts && l == Launch(job.jobId, l.gpu, verdicts[l.gpu].lendableMemory, job.ram)
  }

  lemma JobInPrefix(launches: seq<Launch>, k: nat, id: JobId)
    requires k <= |launches|
    ensures id in JobsOf(launches[..k]) <==> exists i :: 0 <= i < k && launches[i].jobId == id
  {
    if id in JobsOf(launches[..k]) {
      var l :| l in launches[..k] && l.jobId == id;
      var i :| 0 <= i < k && launches[..k][i] == l;
      assert launches[i].jobId == id;
    }
    if i :| 0 <= i < k && launches[i].jobId == id {
      assert launches[..k][i] in launches[..k];
    }
  }

  /** The job behind a launch: a candidate at its turn, and the first one. */
  lemma JobOfLaunch(launches: seq<Launch>, k: nat, verdicts: map<GpuId, GpuVerdict>, queue: seq<QueuedJob>,
                    ramBudget: int, matches: Matcher) returns (job: QueuedJob)
    requires k < |launches| && EachFirst(launches, verdicts, queue, ramBudget, matches)
    ensures launches[k].gpu in verdicts
    ensures Candidate(job, launches[k].gpu, launches[..k], verdicts, queue, ramBudget, matches)
    ensures Takes(launches[k], job, verdicts)
    ensures forall other :: Candidate(other, launches[k].gpu, launches[..k], verdicts, queue, ramBudget, matches)
                            ==> Precedes(job, other)
  {
    var g, earlier := launches[k].gpu, launches[..k];
    assert FirstCandidate(launches[k], earlier, verdicts, queue, ramBudget, matches);
    job :| && Candidate(job, g, earlier, verdicts, queue, ramBudget, matches)
           && launches[k] == Launch(job.jobId, g, verdicts[g].lendableMemory, job.ram)
           && forall other :: Candidate(other, g, earlier, verdicts, queue, ramBudget, matches) ==>
                Precedes(job, other);
  }

  // ---- determinism ----

  /** Two first-fit lists over queues with the same jobs cannot part at position `k`. */
  lemma NoFork(a: seq<Launch>, b: seq<Launch>, k: nat, verdicts: map<GpuId, GpuVerdict>, occupied: set<GpuId>,
               q: seq<QueuedJob>, r: seq<QueuedJob>, ramBudget: int, matches: Matcher)
    requires FirstFit(a, verdicts.Keys, verdicts, occupied, q, ramBudget, matches)
    requires FirstFit(b, verdicts.Keys, verdicts, occupied, r, ramBudget, matches)
    requires DistinctIds(q) && forall j :: j in q <==> j in r
    requires k <= |a| && k <= |b| && a[..k] == b[..k]
    ensures (k < |a| <==> k < |b|)
    ensures k < |a| ==> a[k].gpu == b[k].gpu
  {
    if k < |a| && (k < |b| ==> a[k].gpu < b[k].gpu) {
      EarlierGpuIsServed(a, b, k, verdicts, occupied, q, r, ramBudget, matches);
    }
    if k < |b| && (k < |a| ==> b[k].gpu < a[k].gpu) {
      EarlierGpuIsServed(b, a, k, verdicts, occupied, r, q, ramBudget, matches);
    }
  }

  /** If `a` serves a GPU next, `b` does not pass it over. */
  lemma EarlierGpuIsServed(a: seq<Launch>, b: seq<Launch>, k: nat, verdicts: map<GpuId, GpuVerdict>,
                           occupied: set<GpuId>, q: seq<QueuedJob>, r: seq<QueuedJob>, ramBudget: int, matches: Matcher)
    requires FirstFit(a, verdicts.Keys, verdicts, occupied, q, ramBudget, matches)
    requires FirstFit(b, verdicts.Keys, verdicts, occupied, r, ramBudget, matches)
    requires forall j :: j in q <==> j in r
    requires k < |a| && k <= |b| && a[..k] == b[..k]
    ensures k < |b| && b[k].gpu <= a[k].gpu
  {
    var g := a[k].gpu;
    var job :| Candidate(job, g, a[..k], verdicts, q, ramBudget, matches);
    assert Candidate(job, g, b[..k], verdicts, r, ramBudget, matches);
    forall i | 0 <= i < k ensures b[i].gpu < g {
      assert a[i] == a[..k][i] == b[..k][i] == b[i];
    }
    assert !SplitsAt(b, k, g);
  }

  lemma SameLaunchAt(a: seq<Launch>, b: seq<Launch>, k: nat, verdicts: map<GpuId, GpuVerdict>,
                     q: seq<QueuedJob>, r: seq<QueuedJob>, ramBudget: int, matches: Matcher)
    requires EachFirst(a, verdicts, q, ramBudget, matches) && EachFirst(b, verdicts, r, ramBudget, matches)
    requires DistinctIds(q) && forall j :: j in q <==> j in r
    requires k < |a| && k < |b| && a[..k] == b[..k] && a[k].gpu == b[k].gpu
    ensures a[k] == b[k]
  {
    var x := JobOfLaunch(a, k, verdicts, q, ramBudget, matches);
    var y := JobOfLaunch(b, k, verdicts, r, ramBudget, matches);
    SameFirst(x, y, a[k].gpu, a[..k], verdicts, q, r, ramBudget, matches);
  }

  lemma SameFirst(x: QueuedJob, y: QueuedJob, g: GpuId, earlier: seq<Launch>, verdicts: map<GpuId, GpuVerdict>,
                  q: seq<QueuedJob>, r: seq<QueuedJob>, ramBudget: int, matches: Matcher)
    requires g in verdicts && DistinctIds(q) && forall j :: j in q <==> j in r
    requires Candidate(x, g, earlier, verdicts, q, ramBudget, matches)
    requires Candidate(y, g, earlier, verdicts, r, ramBudget, matches)
    requires forall z :: Candidate(z, g, earlier, verdicts, q, ramBudget, matches) ==> Precedes(x, z)
    requires forall z :: Candidate(z, g, earlier, verdicts, r, ramBudget, matches) ==> Precedes(y, z)
    ensures x == y
  {
    assert Candidate(y, g, earlier, verdicts, q, ramBudget, matches);
    assert Candidate(x, g, earlier, verdicts, r, ramBudget, matches);
    assert x.jobId == y.jobId;
  }

  /** The plan is a function of the set of queued jobs and of the verdict map: first fit has exactly one
      outcome, so neither the order of the queue nor any implementation choice can change it. */
  lemma {:induction false} FirstFitIsUnique(a: seq<Launch>, b: seq<Launch>, verdicts: map<GpuId, GpuVerdict>,
                                            occupied: set<GpuId>, q: seq<QueuedJob>, r: seq<QueuedJob>,
                                            ramBudget: int, matches: Matcher)
    requires FirstFit(a, verdicts.Keys, verdicts, occupied, q, ramBudget, matches)
    requires FirstFit(b, verdicts.Keys, verdicts, occupied, r, ramBudget, matches)
    requires DistinctIds(q) && forall j :: j in q <==> j in r
    ensures a == b
  {
    AgreeOnPrefix(a, b, |a|, verdicts, occupied, q, r, ramBudget, matches);
    NoFork(a, b, |a|, verdicts, occupied, q, r, ramBudget, matches);
    assert a[..|a|] == a && b[..|a|] == b;
  }

  lemma {:induction false} AgreeOnPrefix(a: seq<Launch>, b: seq<Launch>, k: nat, verdicts: map<GpuId, GpuVerdict>,
                                         occupied: set<GpuId>, q: seq<QueuedJob>, r: seq<QueuedJob>,
                                         ramBudget: int, matches: Matcher)
    requires FirstFit(a, verdicts.Keys, verdicts, occupied, q, ramBudget, matches)
    requires FirstFit(b, verdicts.Keys, verdicts, occupied, r, ramBudget, matches)
    requires DistinctIds(q) && forall j :: j in q <==> j in r
    requires k <= |a|
    ensures k <= |b| && a[..k] == b[..k]
  {
    if k > 0 {
      AgreeOnPrefix(a, b, k - 1, verdicts, occupied, q, r, ramBudget, matches);
      NoFork(a, b, k - 1, verdicts, occupied, q, r, ramBudget, matches);
      SameLaunchAt(a, b, k - 1, verdicts, q, r, ramBudget, matches);
      OneMore(a, b, k);
    }
  }

  lemma OneMore(a: seq<Launch>, b: seq<Launch>, k: nat)
    requires 0 < k <= |a| && k <= |b| && a[..k - 1] == b[..k - 1] && a[k - 1] == b[k - 1]
    ensures a[..k] == b[..k]
  {
    assert a[..k] == a[..k - 1] + [a[k - 1]] && b[..k] == b[..k - 1] + [b[k - 1]];
  }

  // ---- budget ----

  lemma {:induction false} RamOfPrefix(launches: seq<Launch>, k: nat)
    requires k <= |launches|
    ensures RamOf(launches[..k]) <= RamOf(launches)
    decreases |launches| - k
  {
    if k == |launches| {
      assert launches[..k] == launches;
    } else {
      RamOfPrefix(launches, k + 1);
      assert launches[..k + 1] == launches[..k] + [launches[k]];
      AppendTotals(launches[..k], launches[k]);
    }
  }

  /** Launched jobs come from the queue, are pairwise distinct, go to pairwise distinct open GPUs, and
      their RAM stays within the budget. */
  lemma {:induction false} PlanIsSound(launches: seq<Launch>, verdicts: map<GpuId, GpuVerdict>, occupied: set<GpuId>,
                                       queue: seq<QueuedJob>, ramBudget: int, matches: Matcher)
    requires FirstFit(launches, verdicts.Keys, verdicts, occupied, queue, ramBudget, matches)
    ensures forall l | l in launches ::
      Open(l.gpu, verdicts, occupied) && l.gpuMemLimit == verdicts[l.gpu].lendableMemory
    ensures forall l | l in launches :: exists job :: job in queue && Takes(l, job, verdicts)
    ensures forall i, k | 0 <= i < k < |launches| ::
              launches[i].gpu != launches[k].gpu && launches[i].jobId != launches[k].jobId
    ensures RamOf(launches) <= Max(ramBudget, 0)
  {
    forall l | l in launches ensures exists job :: job in queue && Takes(l, job, verdicts) {
      var k :| 0 <= k < |launches| && launches[k] == l;
      var job := JobOfLaunch(launches, k, verdicts, queue, ramBudget, matches);
    }
    forall i, k | 0 <= i < k < |launches| ensures launches[i].jobId != launches[k].jobId {
      var job := JobOfLaunch(launches, k, verdicts, queue, ramBudget, matches);
      JobInPrefix(launches, k, job.jobId);
    }
    RamWithinBudget(launches, verdicts, queue, ramBudget, matches);
  }

  lemma RamWithinBudget(launches: seq<Launch>, verdicts: map<GpuId, GpuVerdict>, queue: seq<QueuedJob>,
                        ramBudget: int, matches: Matcher)
    requires EachFirst(launches, verdicts, queue, ramBudget, matches)
    ensures RamOf(launches) <= Max(ramBudget, 0)
  {
    if launches != [] {
      var n := |launches| - 1;
      var job := JobOfLaunch(launches, n, verdicts, queue, ramBudget, matches);
      assert launches == launches[..n] + [launches[n]];
      AppendTotals(launches[..n], launches[n]);
    }
  }

  /** What the source asks of a job before it is launched. */
  lemma FitsInFull(job: QueuedJob, v: GpuVerdict, budget: int, matches: Matcher)
    ensures Fits(job, v, budget, matches) <==>
      && job.ram <= budget
      && (job.gpuMem != 0 ==> job.gpuMem <= v.lendableMemory)
      && (job.gpuMem == 0 ==> 0x4000_0000 <= v.lendableMemory)
      && (|job.gpuModels| > 0 ==> matches(v.model, job.gpuModels))
  {}

  /** Every launch takes a queued job to a GPU judged lendable on which no spot runs, with all its lendable
      memory, of a wanted model, large enough, and within the RAM left by the launches before it. */
  lemma LaunchesInFull(launches: seq<Launch>, k: nat, verdicts: map<GpuId, GpuVerdict>, running: seq<RunningSpot>,
                       queue: seq<QueuedJob>, ramBudget: int, matches: Matcher) returns (job: QueuedJob)
    requires k < |launches|
    requires FirstFit(launches, verdicts.Keys, verdicts, Occupied(running), queue, ramBudget, matches)
    ensures var l := launches[k];
            && job in queue && l.jobId == job.jobId && l.ram == job.ram
            && (forall i | 0 <= i < k :: launches[i].jobId != job.jobId)
            && (forall s | s in running :: s.gpu != l.gpu)
            && l.gpu in verdicts && verdicts[l.gpu].lendable && l.gpuMemLimit == verdicts[l.gpu].lendableMemory
            && (if job.gpuMem != 0 then job.gpuMem else 0x4000_0000) <= l.gpuMemLimit
            && (|job.gpuModels| > 0 ==> matches(verdicts[l.gpu].model, job.gpuModels))
            && RamOf(launches[..k]) + job.ram <= ramBudget
  {
    hide RamOf, JobsOf;
    job := JobOfLaunch(launches, k, verdicts, queue, ramBudget, matches);
    JobInPrefix(launches, k, job.jobId);
    forall s | s in running ensures s.gpu != launches[k].gpu {
      assert s.gpu in Occupied(running);
    }
  }

  /** A running spot is reclaimed exactly when it is not being reclaimed already and its GPU has no verdict, or
      a verdict that calls for it; the reasons are the verdict's. */
  lemma ReclaimsInFull(running: seq<RunningSpot>, verdicts: map<GpuId, GpuVerdict>, r: Reclaim)
    ensures r in Reclaims(running, verdicts) <==>
      exists s | s in running ::
        && !s.reclaiming && (s.gpu in verdicts ==> verdicts[s.gpu].mustReclaim)
        && r.jobId == s.jobId && r.gpu == s.gpu && r.container == s.container
        && r.reasons == if s.gpu in verdicts then verdicts[s.gpu].reasons else [GpuVanished]
  {
    if r in Reclaims(running, verdicts) {
      var s :| s in running && MustGo(s, verdicts) && r == ReclaimFor(s, verdicts);
    }
    if s :| s in running && !s.reclaiming && (s.gpu in verdicts ==> verdicts[s.gpu].mustReclaim)
            && r.jobId == s.jobId && r.gpu == s.gpu && r.container == s.container
            && r.reasons == if s.gpu in verdicts then verdicts[s.gpu].reasons else [GpuVanished] {
      assert MustGo(s, verdicts) && r == ReclaimFor(s, verdicts);
    }
  }

  /** No priority inversion: if `job` was launched on `g` while `other` was not launched at all but fitted `g` and
      the RAM left at that moment, then `job` has the higher priority, or was submitted earlier, or first. */
  lemma NoPriorityInversion(launches: seq<Launch>, k: nat, job: QueuedJob, other: QueuedJob,
                            verdicts: map<GpuId, GpuVerdict>, queue: seq<QueuedJob>, ramBudget: int, matches: Matcher)
    requires EachFirst(launches, verdicts, queue, ramBudget, matches)
    requires DistinctIds(queue) && k < |launches|
    requires job in queue && Takes(launches[k], job, verdicts)
    requires other in queue && other.jobId !in JobsOf(launches)
    requires (if other.gpuMem != 0 then other.gpuMem else 0x4000_0000) <= verdicts[launches[k].gpu].lendableMemory
    requires |other.gpuModels| > 0 ==> matches(verdicts[launches[k].gpu].model, other.gpuModels)
    requires RamOf(launches[..k]) + other.ram <= ramBudget
    ensures || job.priority > other.priority
            || (job.priority == other.priority && job.submittedAt < other.submittedAt)
            || (job.priority == other.priority && job.submittedAt == other.submittedAt && job.jobId < other.jobId)
  {
    FitsInFull(other, verdicts[launches[k].gpu], ramBudget - RamOf(launches[..k]), matches);
    hide RamOf, JobsOf, Fits;
    var g := launches[k].gpu;
    var first := JobOfLaunch(launches, k, verdicts, queue, ramBudget, matches);
    assert first == job;
    NotLaunchedEarlier(launches, k, other.jobId);
    LaunchedJob(launches, k);
    assert Candidate(other, g, launches[..k], verdicts, queue, ramBudget, matches);
  }

  lemma LaunchedJob(launches: seq<Launch>, k: nat)
    requires k < |launches|
    ensures launches[k].jobId in JobsOf(launches)
  {
    assert launches[k] in launches;
  }

  lemma NotLaunchedEarlier(launches: seq<Launch>, k: nat, id: JobId)
    requires k <= |launches| && id !in JobsOf(launches)
    ensures id !in JobsOf(launches[..k])
  {
    JobInPrefix(launches, k, id);
    JobInPrefix(launches, |launches|, id);
    assert launches[..|launches|] == launches;
  }

  lemma {:induction false} SplitPoint(launches: seq<Launch>, g: GpuId, n: nat) returns (k: nat)
    requires n <= |launches|
    requires forall i, j | 0 <= i < j < |launches| :: launches[i].gpu < launches[j].gpu
    requires forall i | 0 <= i < |launches| :: launches[i].gpu != g
    requires forall i | n <= i < |launches| :: launches[i].gpu > g
    ensures SplitsAt(launches, k, g)
  {
    if n == 0 || launches[n - 1].gpu < g {
      k := n;
    } else {
      k := SplitPoint(launches, g, n - 1);
    }
  }

  /** Work conservation: an open GPU left without a launch can host no unlaunched job, even under the
      RAM left over at the very end. */
  lemma WorkIsConserved(launches: seq<Launch>, g: GpuId, job: QueuedJob, verdicts: map<GpuId, GpuVerdict>,
                        occupied: set<GpuId>, queue: seq<QueuedJob>, ramBudget: int, matches: Matcher)
    requires FirstFit(launches, verdicts.Keys, verdicts, occupied, queue, ramBudget, matches)
    requires g in verdicts && verdicts[g].lendable && g !in occupied && g !in GpusOf(launches)
    requires job in queue && job.jobId !in JobsOf(launches)
    ensures || (if job.gpuMem != 0 then job.gpuMem else 0x4000_0000) > verdicts[g].lendableMemory
            || job.ram > ramBudget - RamOf(launches)
            || (|job.gpuModels| > 0 && !matches(verdicts[g].model, job.gpuModels))
  {
    hide FirstFit, RamOf, JobsOf, GpusOf;
    LeftoverDoesNotFit(launches, g, job, verdicts, occupied, queue, ramBudget, matches);
    FitsInFull(job, verdicts[g], ramBudget - RamOf(launches), matches);
  }

  lemma LeftoverDoesNotFit(launches: seq<Launch>, g: GpuId, job: QueuedJob, verdicts: map<GpuId, GpuVerdict>,
                           occupied: set<GpuId>, queue: seq<QueuedJob>, ramBudget: int, matches: Matcher)
    requires FirstFit(launches, verdicts.Keys, verdicts, occupied, queue, ramBudget, matches)
    requires Open(g, verdicts, occupied) && g !in GpusOf(launches)
    requires job in queue && job.jobId !in JobsOf(launches)
    ensures !Fits(job, verdicts[g], ramBudget - RamOf(launches), matches)
  {
    hide RamOf, JobsOf, Fits, EachFirst;
    forall i | 0 <= i < |launches| ensures launches[i].gpu != g {
      assert launches[i] in launches;
    }
    var k := SplitPoint(launches, g, |launches|);
    SkippedMeansUnfit(launches, k, g, job, verdicts, occupied, queue, ramBudget, matches);
  }

  lemma SkippedMeansUnfit(launches: seq<Launch>, k: nat, g: GpuId, job: QueuedJob, verdicts: map<GpuId, GpuVerdict>,
                          occupied: set<GpuId>, queue: seq<QueuedJob>, ramBudget: int, matches: Matcher)
    requires NoneSkipped(launches, verdicts.Keys, verdicts, occupied, queue, ramBudget, matches)
    requires Open(g, verdicts, occupied) && SplitsAt(launches, k, g)
    requires job in queue && job.jobId !in JobsOf(launches)
    ensures !Fits(job, verdicts[g], ramBudget - RamOf(launches), matches)
  {
    hide RamOf, JobsOf;
    NotLaunchedEarlier(launches, k, job.jobId);
    RamOfPrefix(launches, k);
    assert !Candidate(job, g, launches[..k], verdicts, queue, ramBudget, matches);
  }

  /** Reclaimed jobs and launched GPUs never meet: a GPU with a running spot is not open. */
  lemma ReclaimsAndLaunchesAreDisjoint(running: seq<RunningSpot>, launches: seq<Launch>,
                                       verdicts: map<GpuId, GpuVerdict>,
                                       queue: seq<QueuedJob>, ramBudget: int, matches: Matcher)
    requires FirstFit(launches, verdicts.Keys, verdicts, Occupied(running), queue, ramBudget, matches)
    ensures forall r, l | r in Reclaims(running, verdicts) && l in launches :: r.gpu != l.gpu
  {
    forall r, l | r in Reclaims(running, verdicts) && l in launches ensures r.gpu != l.gpu {
      var s :| s in running && MustGo(s, verdicts) && r == ReclaimFor(s, verdicts);
      var k :| 0 <= k < |launches| && launches[k] == l;
      assert s.gpu in Occupied(running);
    }
  }
}
