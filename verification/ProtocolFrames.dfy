/** What a stretch of an execution within one controller lifetime can have changed. */
module ProtocolFrames {
  import opened Model
  import opened Jobs
  import opened JobsLedger
  import opened Leases
  import opened Protocol
  import opened ProtocolInvariant
  import opened ProtocolSteps
  import opened ProtocolTheorems

  // ---- what was started ----

  ghost predicate IsFor(c: Container, lent: set<Launch>) {
    exists l | l in lent :: l.gpu == c.gpu && l.jobId == c.name.job
  }

  ghost predicate OneOf(j: JobId, lease: Lease, lent: set<Launch>) {
    exists l | l in lent :: l.jobId == j && l.gpu == lease.gpu
  }

  /** Every container that is new carries one of the launches, on its GPU; an old one is as it was, or has
      stopped running. Without launches not even a container id was used. */
  ghost predicate DockerFrom(w: World, v: World, lent: set<Launch>) {
    && w.nextContainer <= v.nextContainer
    && (lent == {} ==> v.nextContainer == w.nextContainer)
    && (forall c | c in v.docker && c < w.nextContainer ::
          c in w.docker && v.docker[c].gpu == w.docker[c].gpu && v.docker[c].name == w.docker[c].name
          && (v.docker[c].running ==> w.docker[c].running))
    && (forall c | c in v.docker && w.nextContainer <= c :: IsFor(v.docker[c], lent))
  }

  /** Every active job was active before, with the same GPU and container, or holds the GPU of its launch. */
  ghost predicate LeasesFrom(h: map<JobId, Lease>, k: map<JobId, Lease>, lent: set<Launch>) {
    forall j | j in k :: (j in h && k[j] == h[j]) || OneOf(j, k[j], lent)
  }

  lemma DockerTwice(w: World, v: World, u: World, lent: set<Launch>)
    requires DockerFrom(w, v, lent) && DockerFrom(v, u, lent)
    ensures DockerFrom(w, u, lent)
  {
    hide IsFor;
    forall c | c in u.docker && w.nextContainer <= c ensures IsFor(u.docker[c], lent) {
      if c < v.nextContainer {
        assert IsFor(v.docker[c], lent);
        SameCarrier(v.docker[c], u.docker[c], lent);
      }
    }
  }

  lemma SameCarrier(c: Container, d: Container, lent: set<Launch>)
    requires IsFor(c, lent) && d.gpu == c.gpu && d.name == c.name
    ensures IsFor(d, lent)
  {}

  lemma LeasesTwice(h: map<JobId, Lease>, k: map<JobId, Lease>, m: map<JobId, Lease>, lent: set<Launch>)
    requires LeasesFrom(h, k, lent) && LeasesFrom(k, m, lent)
    ensures LeasesFrom(h, m, lent)
  {
    hide OneOf;
  }

  lemma StepStartsDocker(w: World, a: Action, lent: set<Launch>, maxAttempts: int)
    requires (forall c | c in w.docker :: c < w.nextContainer) && Enabled(w, a) && Permitted(w, a, lent)
    ensures DockerFrom(w, Apply(w, a, maxAttempts), lent)
  {
    hide Finished, MarkedRunning, MarkedPreempting, MarkedFailed, MarkedCancelled, Submitted, SetPause, ActiveRows,
      PendingStops, InUse;
  }

  lemma StepStartsLeases(w: World, a: Action, lent: set<Launch>, maxAttempts: int)
    requires Inv(w, maxAttempts) && Enabled(w, a) && Permitted(w, a, lent)
    ensures LeasesFrom(Holding(w.t), Holding(Apply(w, a, maxAttempts).t), lent)
  {
    HoldingAfterStep(w, a, maxAttempts);
    StartedAfterStep(w, a, maxAttempts);
    hide Inv, Holding, Enabled, Apply;
  }

  lemma StepKeepsStops(w: World, a: Action, lent: set<Launch>, maxAttempts: int)
    requires Enabled(w, a) && Permitted(w, a, lent)
    ensures w.stops <= Apply(w, a, maxAttempts).stops && Apply(w, a, maxAttempts).lifeStart == w.lifeStart
  {
    hide Finished, MarkedRunning, MarkedPreempting, MarkedFailed, MarkedCancelled, Submitted, SetPause, ActiveRows,
      PendingStops, InUse;
  }

  lemma InvIsAged(w: World, maxAttempts: int)
    requires Inv(w, maxAttempts)
    ensures forall c | c in w.docker :: c < w.nextContainer
    ensures forall j | j in Holding(w.t) :: Holding(w.t)[j].container < w.nextContainer
  {}

  lemma {:induction false} StretchStarts(m: Log, i: nat, k: nat, lent: set<Launch>, maxAttempts: int)
    requires m.Runs(maxAttempts) && i <= k < |m.trace|
    requires forall n | i <= n < k :: Permitted(m.trace[n], m.actions[n], lent)
    ensures DockerFrom(m.trace[i], m.trace[k], lent)
    ensures LeasesFrom(Holding(m.trace[i].t), Holding(m.trace[k].t), lent)
    ensures m.trace[i].stops <= m.trace[k].stops && m.trace[i].lifeStart == m.trace[k].lifeStart
  {
    hide Inv, Enabled, Apply, Permitted, Holding, DockerFrom, LeasesFrom;
    if i == k {
      SameStarts(m.trace[i], lent, maxAttempts) by { InvHoldsAlways(m.trace, m.actions, maxAttempts, i); }
    } else {
      var w, a := m.trace[k - 1], m.actions[k - 1];
      StretchStarts(m, i, k - 1, lent, maxAttempts);
      InvHoldsAlways(m.trace, m.actions, maxAttempts, k - 1);
      InvIsAged(w, maxAttempts);
      StepStartsDocker(w, a, lent, maxAttempts);
      StepStartsLeases(w, a, lent, maxAttempts);
      StepKeepsStops(w, a, lent, maxAttempts);
      DockerTwice(m.trace[i], w, m.trace[k], lent);
      LeasesTwice(Holding(m.trace[i].t), Holding(w.t), Holding(m.trace[k].t), lent);
    }
  }

  lemma SameStarts(w: World, lent: set<Launch>, maxAttempts: int)
    requires Inv(w, maxAttempts)
    ensures DockerFrom(w, w, lent) && LeasesFrom(Holding(w.t), Holding(w.t), lent)
  {
    InvIsAged(w, maxAttempts);
    hide Inv, Holding;
  }

  /** What the controller starts is what it lends: over any stretch of an execution that starts nothing but
      `lent`, new containers carry launches of `lent` on their GPUs, and whoever became active holds the GPU
      of its launch, whatever users and containers did meanwhile. */
  lemma OnlyTheseAreLent(l: Log, m: Log, lent: set<Launch>, maxAttempts: int)
    requires l.trace != [] && |l.trace| == |l.actions| + 1 && m.Runs(maxAttempts) && Goes(l, m, lent)
    ensures DockerFrom(l.Now(), m.Now(), lent)
    ensures LeasesFrom(Holding(l.Now().t), Holding(m.Now().t), lent)
    ensures l.Now().stops <= m.Now().stops && l.Now().lifeStart == m.Now().lifeStart
  {
    hide Permitted, Holding, DockerFrom, LeasesFrom;
    var i := |l.trace| - 1;
    assert m.trace[i] == l.trace[i];
    StretchStarts(m, i, |m.trace| - 1, lent, maxAttempts);
  }

  lemma MoreLent(h: map<JobId, Lease>, k: map<JobId, Lease>, less: set<Launch>, more: set<Launch>)
    requires LeasesFrom(h, k, less) && less <= more
    ensures LeasesFrom(h, k, more)
  {
    forall j | j in k && OneOf(j, k[j], less) ensures OneOf(j, k[j], more) {}
  }

  lemma NothingLent(w: World, v: World, h: map<JobId, Lease>, k: map<JobId, Lease>)
    requires DockerFrom(w, v, {}) && LeasesFrom(h, k, {})
    ensures v.nextContainer == w.nextContainer
    ensures forall j | j in k :: j in h && k[j] == h[j]
    ensures h == map[] ==> k == map[]
  {}

  // ---- stops ----

  /** A stop of `c` was asked for and its process started, at call `from` or later. */
  ghost predicate StopStarted(c: ContainerId, stops: seq<StopCall>, from: nat) {
    exists n | from <= n < |stops| :: stops[n] == StopCall(c, true)
  }

  ghost predicate StopFailed(c: ContainerId, stops: seq<StopCall>, from: nat) {
    exists n | from <= n < |stops| :: stops[n] == StopCall(c, false)
  }

  /** Every stop on record was asked for in this controller lifetime. */
  ghost predicate StopsWereAsked(w: World) {
    && w.lifeStart <= |w.stops|
    && forall c | c in w.stopIssued :: StopStarted(c, w.stops, w.lifeStart) || StopFailed(c, w.stops, w.lifeStart)
  }

  lemma IssuedStopWasAsked(w: World, c: ContainerId, started: bool)
    requires StopsWereAsked(w)
    ensures StopsWereAsked(IssueStop(w, c, started))
  {
    var v := IssueStop(w, c, started);
    assert v.stops[|w.stops|] == StopCall(c, started);
    forall d | d in w.stopIssued ensures StopStarted(d, v.stops, v.lifeStart) || StopFailed(d, v.stops, v.lifeStart) {
      var ok: bool, n :| w.lifeStart <= n < |w.stops| && w.stops[n] == StopCall(d, ok);
      assert v.stops[n] == StopCall(d, ok);
    }
  }

  lemma StepKeepsStopsAsked(w: World, a: Action, maxAttempts: int)
    requires Enabled(w, a) && StopsWereAsked(w)
    ensures StopsWereAsked(Apply(w, a, maxAttempts))
  {
    hide Finished, MarkedRunning, MarkedPreempting, MarkedFailed, MarkedCancelled, Submitted, SetPause, ActiveRows,
      PendingStops, InUse, StopStarted, StopFailed;
    match a {
      case StopPending(started) => IssuedStopWasAsked(w, w.pc.stops[0], started);
      case StopReclaimed(started) => IssuedStopWasAsked(w, w.pc.stop.value, started);
      case DrainStop(started) => IssuedStopWasAsked(w, w.pc.rows[0].container, started);
      case _ =>
    }
  }

  /** `stop_issued` never names a container whose stop was not asked for since the controller started. */
  lemma {:induction false} IssuedStopsWereAsked(trace: seq<World>, actions: seq<Action>, maxAttempts: int, i: nat)
    requires Execution(trace, actions, maxAttempts) && i < |trace|
    ensures StopsWereAsked(trace[i])
  {
    hide Enabled, Apply, StopsWereAsked;
    if i == 0 {
      assert StopsWereAsked(START) by { NothingAsked(); }
    } else {
      IssuedStopsWereAsked(trace, actions, maxAttempts, i - 1);
      StepKeepsStopsAsked(trace[i - 1], actions[i - 1], maxAttempts);
    }
  }

  lemma NothingAsked()
    ensures StopsWereAsked(START)
  {}

  /** Of the containers on record now, each was on record before or a stop of it was started since. */
  ghost predicate NewStopsStarted(before: set<ContainerId>, after: set<ContainerId>, s: seq<StopCall>,
                                  t: seq<StopCall>)
  {
    s <= t && forall c | c in after :: c in before || StopStarted(c, t, |s|)
  }

  lemma NewStopsTwice(a: set<ContainerId>, b: set<ContainerId>, c: set<ContainerId>,
                      s: seq<StopCall>, t: seq<StopCall>, u: seq<StopCall>)
    requires NewStopsStarted(a, b, s, t) && NewStopsStarted(b, c, t, u)
    ensures NewStopsStarted(a, c, s, u)
  {
    forall x | x in c && x !in a ensures StopStarted(x, u, |s|) {
      if x in b {
        var n :| |s| <= n < |t| && t[n] == StopCall(x, true);
        assert u[n] == t[n];
      } else {
        var n :| |t| <= n < |u| && u[n] == StopCall(x, true);
      }
    }
  }

  lemma OneStopStarted(issued: set<ContainerId>, s: seq<StopCall>, c: ContainerId)
    ensures NewStopsStarted(issued, issued + {c}, s, s + [StopCall(c, true)])
  {
    assert (s + [StopCall(c, true)])[|s|] == StopCall(c, true);
  }

  lemma LaterStopStarted(c: ContainerId, s: seq<StopCall>, t: seq<StopCall>, from: nat, to: nat)
    requires StopStarted(c, s, to) && from <= to && s <= t
    ensures StopStarted(c, t, from)
  {
    var n :| to <= n < |s| && s[n] == StopCall(c, true);
    assert t[n] == s[n];
  }

  // ---- stops that are not asked for again ----

  lemma StopsAskedByStep(w: World, a: Action, c: ContainerId, maxAttempts: int)
    requires Inv(w, maxAttempts) && Enabled(w, a) && !a.DrainStop? && StoppedForGood(w, c)
    ensures var stops := Apply(w, a, maxAttempts).stops;
            || stops == w.stops
            || (|stops| == |w.stops| + 1 && stops[..|w.stops|] == w.stops && stops[|w.stops|].container != c)
  {
    StopStepsAreCalls(w, a, maxAttempts);
    if StopTarget(w, a).Some? {
      TickStopIsDue(w, a, maxAttempts);
    }
    hide Inv, Apply, Holding;
  }

  /** A stop on record is not asked for again in this controller lifetime, in any number of ticks: only giving
      everything back does that. So whether a stop of the container was started cannot change meanwhile. */
  lemma {:induction false} TicksNeverRepeatStops(trace: seq<World>, actions: seq<Action>, maxAttempts: int, i: nat,
                                                 k: nat, c: ContainerId, from: nat)
    requires Execution(trace, actions, maxAttempts) && i <= k < |trace| && StoppedForGood(trace[i], c)
    requires forall n | i <= n < k :: !actions[n].Crash? && !actions[n].DrainStop?
    ensures trace[i].stops <= trace[k].stops
    ensures forall n | |trace[i].stops| <= n < |trace[k].stops| :: trace[k].stops[n].container != c
    ensures StopStarted(c, trace[k].stops, from) <==> StopStarted(c, trace[i].stops, from)
  {
    hide Inv, Enabled, Apply, StoppedForGood;
    if i < k {
      TicksNeverRepeatStops(trace, actions, maxAttempts, i, k - 1, c, from);
      InvHoldsAlways(trace, actions, maxAttempts, k - 1);
      StoppedStaysStopped(trace, actions, maxAttempts, i, k - 1, c);
      StopsAskedByStep(trace[k - 1], actions[k - 1], c, maxAttempts);
      NotStartedByOthers(c, trace[i].stops, trace[k].stops, from);
    }
  }

  /** Calls for other containers do not start a stop of `c`. */
  lemma NotStartedByOthers(c: ContainerId, s: seq<StopCall>, t: seq<StopCall>, from: nat)
    requires s <= t && forall n | |s| <= n < |t| :: t[n].container != c
    ensures StopStarted(c, t, from) <==> StopStarted(c, s, from)
  {
    if StopStarted(c, s, from) {
      var n :| from <= n < |s| && s[n] == StopCall(c, true);
      assert t[n] == s[n];
    }
    if StopStarted(c, t, from) {
      var n :| from <= n < |t| && t[n] == StopCall(c, true);
      assert t[n] == s[n];
    }
  }

  // ---- what makes a tick fail ----

  /** Every stop asked for since call `from` could be started. */
  ghost predicate AllStarted(stops: seq<StopCall>, from: nat) {
    forall n | from <= n < |stops| :: stops[n].started
  }

  /** The store refuses to record a start: the job is no longer queued. */
  predicate Refuses(w: World, a: Action) {
    && a.RecordRunning? && w.pc.Started?
    && !(w.pc.launch.jobId in w.t.jobs && w.t.jobs[w.pc.launch.jobId].state == JobState.Queued)
  }

  /** Some start was refused since step `from`. */
  ghost predicate RefusedIn(log: Log, from: nat) {
    exists n | from <= n < |log.actions| :: n < |log.trace| && Refuses(log.trace[n], log.actions[n])
  }

  lemma NothingRefused(l: Log, m: Log)
    requires Goes(l, m, {})
    ensures !RefusedIn(m, |l.actions|)
  {
    forall n | |l.actions| <= n < |m.actions| && n < |m.trace| ensures !Refuses(m.trace[n], m.actions[n]) {
      assert Permitted(m.trace[n], m.actions[n], {});
    }
  }

  lemma RefusedByStep(log: Log, a: Action, after: World)
    requires log.trace != [] && |log.trace| == |log.actions| + 1
    ensures RefusedIn(log.Then(a, after), |log.actions|) <==> Refuses(log.Now(), a)
  {
    var next := log.Then(a, after);
    assert next.trace[|log.actions|] == log.Now() && next.actions[|log.actions|] == a;
  }

  lemma RefusedTwice(l: Log, m: Log, n: Log, first: set<Launch>, second: set<Launch>)
    requires Goes(l, m, first) && Goes(m, n, second)
    ensures RefusedIn(n, |l.actions|) <==> RefusedIn(m, |l.actions|) || RefusedIn(n, |m.actions|)
  {
    hide Refuses, Permitted;
    if RefusedIn(m, |l.actions|) {
      var k :| |l.actions| <= k < |m.actions| && k < |m.trace| && Refuses(m.trace[k], m.actions[k]);
      assert n.trace[k] == m.trace[k] && n.actions[k] == m.actions[k];
    }
    if RefusedIn(n, |l.actions|) {
      var k :| |l.actions| <= k < |n.actions| && k < |n.trace| && Refuses(n.trace[k], n.actions[k]);
      if k < |m.actions| {
        assert n.trace[k] == m.trace[k] && n.actions[k] == m.actions[k];
      }
    }
  }

  // ---- what a stretch went through ----

  /** The next step after `l` in `m`. */
  ghost predicate NextIs(l: Log, m: Log, a: Action) { |l.actions| < |m.actions| && m.actions[|l.actions|] == a }

  ghost predicate StepIs(log: Log, n: nat, w: World, a: Action) {
    n < |log.actions| && n < |log.trace| && log.trace[n] == w && log.actions[n] == a
  }

  /** Since step `from`, in state `w`, the step `a` was taken. */
  ghost predicate Took(log: Log, from: nat, w: World, a: Action) { exists n :: from <= n && StepIs(log, n, w, a) }

  /** A step of the others, or one that carries out a plan. */
  predicate CarriesOn(a: Action) {
    || IsEnvironment(a) || a.MarkReclaim? || a.StopReclaimed? || a.CheckLaunch? || a.RunContainer? || a.RunFails?
    || a.RecordFailure? || a.RecordRunning? || a.EndTick?
  }

  /** Since step `from` nothing was done but carrying out the plan. */
  ghost predicate StraightFrom(log: Log, from: nat) {
    forall n | from <= n < |log.actions| :: CarriesOn(log.actions[n])
  }

  /** The plan was made in state `w` since step `from`; if `all`, it was carried out to the end without a break. */
  ghost predicate Planned(log: Log, from: nat, w: World, a: Action, all: bool) {
    exists n :: from <= n && StepIs(log, n, w, a) && (all ==> StraightFrom(log, n + 1))
  }

  lemma NextTook(l: Log, m: Log, lent: set<Launch>, a: Action)
    requires l.trace != [] && |l.trace| == |l.actions| + 1 && Goes(l, m, lent) && NextIs(l, m, a)
    ensures StepIs(m, |l.actions|, l.Now(), a) && Took(m, |l.actions|, l.Now(), a)
  {
    assert m.trace[|l.actions|] == l.Now();
    assert StepIs(m, |l.actions|, l.Now(), a);
  }

  lemma TookEarlier(l: Log, m: Log, lent: set<Launch>, from: nat, w: World, a: Action)
    requires Goes(l, m, lent) && Took(l, from, w, a)
    ensures Took(m, from, w, a)
  {
    var n :| from <= n && StepIs(l, n, w, a);
    assert StepIs(m, n, w, a);
  }

  lemma TookSince(log: Log, from: nat, later: nat, w: World, a: Action)
    requires from <= later && Took(log, later, w, a)
    ensures Took(log, from, w, a)
  {
    hide StepIs;
  }

  lemma PlannedSince(log: Log, from: nat, later: nat, w: World, a: Action, all: bool)
    requires from <= later && Planned(log, later, w, a, all)
    ensures Planned(log, from, w, a, all)
  {
    hide StepIs, StraightFrom;
  }

  lemma StillPlanned(l: Log, m: Log, lent: set<Launch>, from: nat, w: World, a: Action)
    requires Goes(l, m, lent) && Planned(l, from, w, a, false)
    ensures Planned(m, from, w, a, false)
  {
    hide StraightFrom;
    var n :| from <= n && StepIs(l, n, w, a);
    assert StepIs(m, n, w, a);
  }

  lemma StraightTwice(m: Log, n: Log, from: nat, lent: set<Launch>)
    requires Goes(m, n, lent) && StraightFrom(m, from) && StraightFrom(n, |m.actions|)
    ensures StraightFrom(n, from)
  {
    hide CarriesOn, Permitted;
    forall k | from <= k < |n.actions| ensures CarriesOn(n.actions[k]) {
      if k < |m.actions| { assert n.actions[k] == m.actions[k]; }
    }
  }

  /** The plan was made in one step, and whatever came after carried it out. */
  lemma PlanCarriedOut(before: Log, planned: Log, log: Log, from: nat, first: set<Launch>, second: set<Launch>,
                       a: Action, all: bool)
    requires before.trace != [] && |before.trace| == |before.actions| + 1 && from <= |before.actions|
    requires Goes(before, planned, first) && NextIs(before, planned, a) && Goes(planned, log, second)
    requires StraightFrom(planned, |before.actions| + 1) && (all ==> StraightFrom(log, |planned.actions|))
    ensures Planned(log, from, before.Now(), a, all)
  {
    NextTook(before, planned, first, a);
    assert StepIs(log, |before.actions|, before.Now(), a);
    if all {
      StraightTwice(planned, log, |before.actions| + 1, second);
    }
  }

  // ---- each job is closed once ----

  /** Reconcile has only rows of later jobs to go. */
  ghost predicate PastRow(pc: Pc, id: JobId) {
    (pc.Closing? || pc.Archiving?) ==> forall r | r in pc.todo :: id < r.jobId
  }

  lemma StepStaysPast(w: World, a: Action, id: JobId, maxAttempts: int)
    requires Enabled(w, a) && PastRow(w.pc, id) && !a.BeginReconcile?
    ensures PastRow(Apply(w, a, maxAttempts).pc, id)
  {
    hide Finished, MarkedRunning, MarkedPreempting, MarkedFailed, MarkedCancelled, Submitted, SetPause, ActiveRows,
      PendingStops, InUse;
  }

  lemma ClosingGoesPast(w: World, now: Time, maxAttempts: int)
    requires Inv(w, maxAttempts) && Enabled(w, CloseOne(now))
    ensures PastRow(Apply(w, CloseOne(now), maxAttempts).pc, w.pc.todo[0].jobId)
  {
    hide Ledger, Base, Finished, Holding;
  }

  lemma {:induction false} StaysPast(trace: seq<World>, actions: seq<Action>, maxAttempts: int, i: nat, k: nat,
                                     id: JobId)
    requires Execution(trace, actions, maxAttempts) && i <= k < |trace| && PastRow(trace[i].pc, id)
    requires forall n | i <= n < k :: !actions[n].BeginReconcile?
    ensures PastRow(trace[k].pc, id)
  {
    hide Enabled, Apply, PastRow;
    if i < k {
      StaysPast(trace, actions, maxAttempts, i, k - 1, id);
      StepStaysPast(trace[k - 1], actions[k - 1], id, maxAttempts);
    }
  }

  /** One reconcile never closes the same job twice: it closes jobs in ascending order. */
  lemma ReconcileClosesEachJobOnce(trace: seq<World>, actions: seq<Action>, maxAttempts: int, i: nat, k: nat)
    requires Execution(trace, actions, maxAttempts) && i < k < |actions|
    requires actions[i].CloseOne? && actions[k].CloseOne?
    requires forall n | i < n < k :: !actions[n].BeginReconcile?
    ensures trace[i].pc.Closing? && trace[i].pc.todo != [] && trace[k].pc.Closing? && trace[k].pc.todo != []
    ensures trace[i].pc.todo[0].jobId < trace[k].pc.todo[0].jobId
  {
    hide Inv, Apply;
    var id := trace[i].pc.todo[0].jobId;
    InvHoldsAlways(trace, actions, maxAttempts, i);
    ClosingGoesPast(trace[i], actions[i].now, maxAttempts);
    assert PastRow(trace[i + 1].pc, id);
    StaysPast(trace, actions, maxAttempts, i + 1, k, id);
    assert trace[k].pc.todo[0] in trace[k].pc.todo;
  }
}
