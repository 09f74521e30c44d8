# Verified model of the spot-lending controller

labgpu lends idle GPUs of running sessions to queued *spot* jobs and takes them back as soon as the owner,
an administrator or any doubt asks for it. This project models that controller in Dafny and proves its
promise, *owner first*: a GPU is lent only after a proven quiet window, never to two spot jobs, and given
back on any doubt. It also covers the two other places where the repository does arithmetic that people
rely on: share-to-limit computation for fractional GPUs, and the attribution of GPU use to containers.

## How the project is built

| file | role |
|---|---|
| `Model.dfy`, `Ordering.dfy` | shared values; ids in ascending order |
| `Detector.dfy`, `DetectorProofs.dfy` | class `GpuTracker`, the history it stands for, and what that guarantees |
| `Planner.dfy`, `PlannerProofs.dfy` | the nested loops of `plan`, proved to be first fit; consequences of first fit |
| `Observer.dfy` | assembling observations; spot load is invisible to owner rules |
| `Jobs.dfy`, `JobsLedger.dfy`, `Leases.dfy` | class `JobStore`, each transaction as a function on the tables; run accounting; who holds what |
| `Transactions.dfy` | what each transaction and each step that ends or starts a job leaves in the columns |
| `Protocol.dfy` | the step system: one controller cut at its transaction boundaries, against users, containers and Docker; executions and their logs |
| `ProtocolInvariant.dfy`, `ProtocolSteps.dfy` | the inductive invariant and its preservation by every step |
| `ProtocolTheorems.dfy`, `ProtocolFrames.dfy` | what holds in every execution, and what a stretch of one can have changed |
| `TickSpec.dfy` | what a tick must do, said about inputs, tables and histories |
| `Containers.dfy`, `Daemon.dfy` | class `Docker`; class `Controller`, the real loops over the store, Docker and the trackers |
| `Witness.dfy` | two runs of the controller that show where the promises end |
| `Fraction.dfy`, `Attribution.dfy` | shares to limits; processes to containers |

Three layers meet in `Daemon.dfy`. The methods of `Controller` change `JobStore`, `Docker` and their own
fields in place, as the source does. A ghost `log` holds the execution of the protocol so far, state by state and
step by step, and `Sound()` says that it is one and ends in the controller's own state. Every method extends the
log it was given (`Goes`), within one controller lifetime, and says which launches it may start; between any two
of its steps `Interleave()` lets users submit, cancel and pause, and containers exit or vanish, any number of
times. So what is proved of executions, including what relates two of their states, holds from any point of the
controller's life to any later one, across crashes too: a new controller continues the log of the old one.

`Tick`, `RunOnce` and `RunForever` state what this comes to for the store, Docker and the histories. A tick is tied to
its log: the rows it judges are the active jobs as its snapshot step read them, the listing is what Docker held when it
was listed, the histories grow by nothing but what could be read, and a tick that completes made its plan of exactly
these rows and verdicts and carried it out without a break (`ReadIn`, `OnlyShown`, `PlannedIn`). Every lease it leaves
is such a row or that of one of its launches (`Covered`). New containers and newly active jobs are on the GPUs of its
launches, each with a quiet window behind it; every other active job was told to stop, or sits on an unblocked GPU
judged LENT now (`HeldSafely`); on any doubt nothing is started and all are told to stop (`AllTold`). A tick fails
exactly when a stop of its own could not be started or a start was refused, and then everything is given back, which
fails exactly when a stop of that cannot be started. `RunForever` runs one such round for each input, each from where
the last one ended (`AreRounds`), and while the kill switch or the node pause holds the active set only shrinks, and
empties once the containers have exited.

An execution (`Execution`) starts from empty tables and takes any enabled steps in any order: `Submit`,
`Cancel`, `Pause`, `Exit`, `Vanish`, `Crash` (which also restarts), every step of a tick, failures of
`docker run`, `docker stop` and `docker rm`, an exception at any point (`Break`), and the give-back that
follows one. Cancellation can land between the check, `docker run` and the record of `_launch`.

## Assumptions

- Tick times never decrease, Docker container ids are fresh, and a listing that succeeds is complete.
- Removals may fail. Exclusivity of *jobs* holds anyway; exclusivity of *containers* holds except for
  containers whose removal failed (`stuck`), and `FailedRemovalLendsTwice` shows that it cannot hold without
  that exception.
- Starting a `docker stop` may fail. A job is then given back all the same when the failed tick gives everything
  back. If that fails too, no later tick of the controller asks again: a stop on record is never asked for again
  except by giving everything back (`TicksNeverRepeatStops`), and `FailedStopIsNeverRetried` is a run in which a
  tick completes under a pause without any stop started. So a completed tick leaves a job that is to be stopped with
  a started stop if and only if its stop was not lost before the tick: on record, with none started in this
  controller lifetime (`Lost`; `StoppedUnlessLost` in `Tick`).
- A `docker run` that fails and leaves a container behind has created it by the time it fails, not after the next
  listing.
- One controller runs at a time, and all of them with the same `max_attempts`.

## Where the code and its documentation differ

The code is followed.

- By section 2.4 of the repository's design document a GPU whose observation recovers, and every GPU at start,
  becomes BUSY. The code restarts the idle clock but reports IDLE unless there is activity
  (`RecoveredGpuWaitsAgain`, `Judges`).
- By section 2.7 a reclaimed job's `attempts` go up. The code counts an attempt when it starts.
- By section 2.10 a job whose container is gone returns to the queue. The code fails it when its
  attempts are used up, and leaves it cancelled when it was cancelled.
- Section 2.5 orders the queue by priority and submission time. The code breaks ties by id, which is what
  makes the plan unique.
- Ending a cancelled job whose container vanished adds a preemption although the run is recorded as cancelled
  (`VanishedCancelIsOvercounted`).

## Model

| member | source | states |
|---|---|---|
| Detector.GpuTracker.constructor | src/labgpu/spot/detector.py:14-19 | a new tracker agrees with the empty history: the clock starts now, a failed first look counts as no owners and no memory |
| Detector.GpuTracker.ActivityReasons | src/labgpu/spot/detector.py:90-113 | each of the five reasons is given exactly when its rule fires |
| Detector.GpuTracker.Update | src/labgpu/spot/detector.py:21-33 | the three fields again equal the functions of the whole history extended by this look, and the verdict, with exactly its reasons, is the one the specification prescribes |
| Detector.GpuTracker.Decide | src/labgpu/spot/detector.py:35-88 | the same for the body of the update: fields agree with the history, every verdict field as `Judges` and `Explains` lay down for all branches |
| Detector.SpecIsCausal | src/labgpu/spot/detector.py:46-62 | what a look is judged against depends on earlier looks only |
| DetectorProofs.LastActiveIndexIsLatest | src/labgpu/spot/detector.py:58-60 | the index used for the baseline is that of the latest active look |
| DetectorProofs.BaselineIsMinimum | src/labgpu/spot/detector.py:58-62 | `mem_baseline` is the least owner memory over the successful looks since and including the last active one, and is attained |
| DetectorProofs.ClockStartsAtLatestDisturbance | src/labgpu/spot/detector.py:46-64 | `last_active` is the time of the latest failed or active look, or of the creation, with only calm looks after it |
| DetectorProofs.IdleClockMeansQuietWindow | src/labgpu/spot/detector.py:64-88 | the idle clock has reached the wait if and only if the tracker existed that long ago and every look within the window was successful and inactive |
| DetectorProofs.OwnersOnlyShrink | src/labgpu/spot/detector.py:57-62 | along quiet looks the owner set only shrinks |
| DetectorProofs.ActivityInFull | src/labgpu/spot/detector.py:46-62 | a look is activity if and only if the owners exceed the SM threshold, or hold more than at some look since the last activity plus the delta, or measurably exceed a positive CPU threshold, or a process is unknown, or an owner is one that was not there when the GPU was last seen |
| DetectorProofs.ReasonsInFull | src/labgpu/spot/detector.py:48-113 | each of the eight reasons is given if and only if it is true and matters: activity always, low memory on a lent GPU, a block unless an unlent GPU is busy anyway, of a failed look only the failure |
| DetectorProofs.UseAddsUp | src/labgpu/spot/model.py:43-49 | memory and utilisation of a kind are the sums over all its processes |
| DetectorProofs.LendableMeansQuiet | src/labgpu/spot/detector.py:80-88 | lendable if and only if seen, inactive, unlent, unblocked, more than the reserve free, and either owned now and quiet for all of `idle_seconds` with every present owner present throughout, or without owners and quiet for `unclaimed_grace_seconds` |
| DetectorProofs.RecoveredGpuWaitsAgain | src/labgpu/spot/detector.py:46-54 | after a failed look the wait starts over, `idle_seconds` with owners and `unclaimed_grace_seconds` without; the GPU is busy only if it shows activity |
| DetectorProofs.WithoutSpotKeepsTheRest | src/labgpu/spot/model.py:43-53 | leaving out the spot keeps all other processes, in order and as often as they occur |
| DetectorProofs.OwnerViewDecidesActivity | src/labgpu/spot/model.py:43-53 | two observations that differ only in spot processes and total use have the same owner memory and fire the same rules |
| DetectorProofs.SpotLoadIsInvisible | src/labgpu/spot/detector.py:56-62 | non-interference: two histories that agree on owners, whatever spots do and however the GPU was lent or blocked, leave the tracker in the same state after every step |
| DetectorProofs.EnforcedLimitFits | src/labgpu/spot/docker.py:151 | the limit given to the container is within the planned one if and only if that is at least 1 MiB, and loses less than 1 MiB |
| DetectorProofs.QuietOwnerGrowthIsBounded | src/labgpu/spot/detector.py:56-62 | however slowly a quiet owner grows, it stays within the delta of what it held earlier |
| DetectorProofs.HeadroomIsKept | src/labgpu/spot/detector.py:65-78 | a spot within its limit leaves at least reserve minus delta free at every quiet look, so with a delta up to reserve minus half of it the low-memory rule cannot fire |
| DetectorProofs.QuietLentGpuStaysLent | src/labgpu/spot/detector.py:67-78 | such a GPU, not blocked, is judged LENT and is not reclaimed |
| Planner.SortQueueKeepsAll | src/labgpu/spot/planner.py:49 | the sorted queue is ordered by descending priority, then submission time, then id, and is a permutation of the queue |
| Planner.Reclaims | src/labgpu/spot/planner.py:34-42 | exactly the running spots that are not yet reclaiming and whose GPU is gone or must be reclaimed |
| Planner.PlanActions | src/labgpu/spot/planner.py:21-68 | the reclaims, no launches without enforcement, otherwise first fit as defined by its rule and not by a loop |
| Planner.PlanLaunches | src/labgpu/spot/planner.py:48-67 | the nested loops with `taken` and the running budget give first fit: open GPUs in order, each the first candidate, none skipped that had one |
| Planner.PickJob | src/labgpu/spot/planner.py:56-67 | the first untaken fitting job in queue order, or proof that no job fits |
| PlannerProofs.FirstFitIsUnique | src/labgpu/spot/planner.py:48-67 | first fit has one outcome, so the order of the queue and of the verdicts cannot change the launches |
| PlannerProofs.PlanIsSound | src/labgpu/spot/planner.py:48-68 | launched jobs come from the queue, jobs and GPUs are pairwise distinct, GPUs are open, RAM stays within max(budget, 0) |
| PlannerProofs.LaunchesInFull | src/labgpu/spot/planner.py:48-67 | every launch takes a queued job not launched before to a lendable GPU without a spot, with all its lendable memory, which is enough for the job (1 GiB if it named none), of a wanted model, and within the RAM left by the launches before it |
| PlannerProofs.ReclaimsInFull | src/labgpu/spot/planner.py:34-42 | a running spot is reclaimed if and only if it is not being reclaimed yet and its GPU has no verdict or one that calls for it, for the reasons of the verdict |
| PlannerProofs.NoPriorityInversion | src/labgpu/spot/planner.py:49-67 | if a job is launched while another one, not launched at all, fitted that GPU and the RAM left at that moment, then the first has the higher priority, or the same and was submitted earlier, or at the same time with the smaller id |
| PlannerProofs.WorkIsConserved | src/labgpu/spot/planner.py:50-67 | for an open GPU left empty every unlaunched job is too large, of another model, or needs more RAM than is left at the end |
| PlannerProofs.ReclaimsAndLaunchesAreDisjoint | src/labgpu/spot/planner.py:48-55 | no GPU is both reclaimed and launched on |
| Observer.ResolveGpuRefs | src/labgpu/spot/observer.py:15-29 | exactly the known GPUs that some reference stands for, with `all` and unknown references |
| Observer.BuildObservation | src/labgpu/spot/observer.py:32-69 | every process is classified by the running spots and the owners of this GPU; CPU is the sum of what could be measured |
| Observer.OwnersByGpu | src/labgpu/spot/observer.py:80-83 | each GPU's owners are the containers with a reference to it |
| Observer.Observe | src/labgpu/spot/observer.py:72-109 | one observation per listed GPU, failed when it cannot be read or changed identity |
| ObserverProofs.SpotProcessesAreInvisible | src/labgpu/spot/observer.py:44-55 | two readings that differ only in the processes of the spot lent that GPU give the same owner view |
| ObserverProofs.KindsAreExclusive | src/labgpu/spot/observer.py:44-55 | a process is a spot's only on the spot's GPU, an owner's only on a GPU the owner was given, and otherwise makes the observation contain an unknown |
| ObserverProofs.ProcessesInFull | src/labgpu/spot/observer.py:42-55 | every process keeps its id, container, memory and utilisation, and its kind follows from running spots, their GPUs and attached owners |
| ObserverProofs.RefersInFull | src/labgpu/spot/observer.py:15-29 | a container has a GPU if and only if it names all GPUs, or its UUID, or the index it is the last to be listed with |
| ObserverProofs.SeenWhenRead | src/labgpu/spot/observer.py:87-98 | a GPU is seen if and only if it could be read and kept its identity |
| ObserverProofs.OwnerCpuAddsUp | src/labgpu/spot/observer.py:57-68 | the CPU of the owners is the sum of the measured ones |
| ObserverProofs.OwnerCpuIsUnknown | src/labgpu/spot/observer.py:57-68 | it is unknown if and only if none was measured |
| Jobs.ActiveBelow | src/labgpu/spot/jobs.py:145-157 | exactly the running, preempting and still stopping cancelled jobs, once each, in id order |
| Jobs.CloseRuns | src/labgpu/spot/jobs.py:198-248 | only the open rows of that attempt are closed, all other rows stay |
| Jobs.JobStore.Submit | src/labgpu/spot/jobs.py:107-114 | the whole new database, and the fresh id |
| Jobs.JobStore.Queued | src/labgpu/spot/jobs.py:130-143 | exactly the queued jobs, with the default RAM where none was asked for |
| Jobs.JobStore.MarkRunning | src/labgpu/spot/jobs.py:159-177 | starts a queued job and opens its run; refuses any other job and changes nothing |
| Jobs.JobStore.MarkPreempting | src/labgpu/spot/jobs.py:183-188 | the whole new database; only a running job changes |
| Jobs.JobStore.Fail | src/labgpu/spot/jobs.py:190-196 | the whole new database, whatever state the job was in |
| Jobs.JobStore.Finish | src/labgpu/spot/jobs.py:198-248 | the whole new database for every combination of state, exit code, vanished container and attempts; refuses an unknown job |
| Jobs.JobStore.Cancel | src/labgpu/spot/jobs.py:250-264 | accepts exactly live jobs, says which container to stop, leaves anything else untouched |
| Jobs.JobStore.SetPaused | src/labgpu/spot/jobs.py:274-288 | the whole new database for node and GPU pauses |
| JobsLedger.SubmitKeepsLedger | src/labgpu/spot/jobs.py:107-114 | submission keeps the run accounting of all jobs |
| JobsLedger.MarkRunningKeepsLedger | src/labgpu/spot/jobs.py:159-177 | so does a start |
| JobsLedger.MarkPreemptingKeepsLedger | src/labgpu/spot/jobs.py:183-188 | so does a preemption mark |
| JobsLedger.FailKeepsLedgerExactly | src/labgpu/spot/jobs.py:190-196 | `fail` accepts any job; it keeps the accounting if and only if the job had not started or had failed already |
| JobsLedger.CancelKeepsLedger | src/labgpu/spot/jobs.py:250-264 | so does a cancellation |
| JobsLedger.FinishKeepsLedger | src/labgpu/spot/jobs.py:198-248 | so does the end of a run |
| JobsLedger.FinishClosesOneRun | src/labgpu/spot/jobs.py:226-247 | the end of a run closes the job's one open row and no other |
| JobsLedger.PreemptionsCountPreemptedRuns | src/labgpu/spot/jobs.py:198-248 | `preemptions` equals the number of preempted runs, with an excess of at most one for cancelled jobs |
| JobsLedger.VanishedCancelIsOvercounted | src/labgpu/spot/jobs.py:209-211 | ending a cancelled job counts one too many if and only if its container had vanished |
| Leases.ActiveRowsReadLeases | src/labgpu/spot/jobs.py:145-157 | `active()` reads exactly who holds which GPU and container |
| Leases.StartAddsLease | src/labgpu/spot/jobs.py:159-177 | a start adds that one lease |
| Leases.FinishEndsLease | src/labgpu/spot/jobs.py:198-248 | the end of a run takes away that one lease and starts nothing |
| Transactions.FinishInColumns | src/labgpu/spot/jobs.py:198-248 | after the end of a run the job has SUCCEEDED if and only if it was neither cancelled nor preempting, had not vanished and exited with 0; is QUEUED, without GPU and container, if and only if not cancelled, preempted or vanished, and attempts are left; stays CANCELLED; and has FAILED otherwise; exit code, end and preemptions are stored, the open run gets the outcome to match, nothing else changes |
| Transactions.ClosedByWhatDockerListed | src/labgpu/spot/daemon.py:164-183 | in every execution a row is closed only when its container was not listed as running, with the exit code Docker listed, as vanished when it listed none, and ends accordingly |
| Transactions.KeptWhenListedRunning | src/labgpu/spot/daemon.py:164-170 | and a row is kept only when its container was listed as running |
| Transactions.SubmittedIsQueued | src/labgpu/spot/jobs.py:107-114 | a submitted job is queued under a fresh id and reaches the planner with its priority, time and needs, the default RAM if it named none |
| Transactions.QueueInColumns | src/labgpu/spot/jobs.py:130-143 | so does every queued job |
| Transactions.StartInColumns | src/labgpu/spot/jobs.py:159-177 | a start stores GPU, container, time and the next attempt, and opens the run of that attempt with the same |
| Transactions.MarksInColumns | src/labgpu/spot/jobs.py:183-264 | what a preemption mark, a failure and a cancellation change, and that nothing else does; exactly live jobs can be cancelled |
| Transactions.PauseAndResume | src/labgpu/spot/jobs.py:268-288 | pausing the node or a GPU blocks it, resuming frees it again and restores the tables, nothing else changes |
| Transactions.ActiveInColumns | src/labgpu/spot/jobs.py:145-157 | a job holds its GPU if and only if it is running, preempting, or cancelled with a container that has not ended, and is read as being reclaimed unless it is running |
| Transactions.LaunchesStartQueuedJobs | src/labgpu/spot/daemon.py:211-215 | a planned launch is started if and only if its job is still queued |
| Transactions.LaunchesAreRecorded | src/labgpu/spot/daemon.py:216-235 | a failed `docker run` fails the job; a started container is recorded with the GPU of the launch if the job is still queued, and otherwise the record is refused |
| Transactions.RunningContainerIsNamed | src/labgpu/spot/daemon.py:211-235 | whatever users do meanwhile, the container of a job recorded as running is named after the attempt then counted |
| ProtocolInvariant.InterferenceKeepsInv | src/labgpu/spot/daemon.py:73-134 | nothing users, containers or Docker do in between disturbs what the controller relies on, wherever it is in a tick |
| ProtocolInvariant.EnvironmentDisturbsNothing | src/labgpu/spot/jobs.py:250-288 | submissions, cancellations, pauses, exits and vanishing containers take no GPU, start no job, and leave stops and containers as they were or gone |
| ProtocolInvariant.EnvironmentKeepsInv | src/labgpu/spot/jobs.py:250-288 | so they keep the invariant |
| ProtocolSteps.StepKeepsInv | src/labgpu/spot/daemon.py:73-253 | every step of controller and environment keeps the inductive invariant |
| ProtocolSteps.RunHasInv | src/labgpu/spot/daemon.py:73-253 | so it holds wherever an execution leads |
| ProtocolTheorems.GpusAreNeverShared | src/labgpu/spot/daemon.py:85-134 | in every state of every execution no two active jobs share a GPU or a container, and two containers share a GPU only if the removal of one failed |
| ProtocolTheorems.StuckNeedsFailedRemoval | src/labgpu/spot/docker.py:219-234 | only a failed `docker rm -f` leaves a container stuck |
| ProtocolTheorems.OneContainerPerGpu | src/labgpu/spot/daemon.py:160-188 | while removals succeed no GPU ever has two spot containers |
| Witness.FailedRemovalLendsTwice | src/labgpu/spot/docker.py:231-234 | a run, with one tracker history in each controller lifetime and every decision made from it by detector and planner, in which failed removals of a stray container end with a second job's container running on its GPU |
| Witness.FailedStopIsNeverRetried | src/labgpu/spot/daemon.py:194-196 | such a run in which the stop of a job fails to start twice and the next tick completes under a node pause with the container running and no stop ever started |
| ProtocolTheorems.StepFollowsLifecycle | src/labgpu/spot/jobs.py:159-264 | every step moves every job along its lifecycle and strictly lowers its distance to the end whenever its phase changes |
| ProtocolTheorems.DeadStaysDead | src/labgpu/spot/jobs.py:159-264 | a finished job is never queued, running or preempting again under any race; success and failure are final |
| ProtocolTheorems.JobsHaveBoundedLives | src/labgpu/spot/jobs.py:198-248 | a job uses at most max(max_attempts, 1) attempts and changes its phase at most three times per attempt plus three |
| ProtocolTheorems.AccountsAreExact | src/labgpu/spot/jobs.py:159-264 | in every reachable state a job's runs are attempts 1..n, all closed but the last, which is open if and only if the job is active; queued, running and ended states as accounted |
| ProtocolTheorems.ReconcileRestoresAgreement | src/labgpu/spot/daemon.py:160-188 | when a reconcile ends every container belongs to an active job (unless its removal failed) and every active job was listed as running |
| ProtocolTheorems.RemovalsSpareActiveJobs | src/labgpu/spot/daemon.py:160-192 | no removal ever takes the container of an active job |
| ProtocolTheorems.EndedJobsAreClosedOnce | src/labgpu/spot/daemon.py:164-180 | a closing step ends an active job, closing its one open run row and touching no other job's lease or runs |
| ProtocolFrames.ReconcileClosesEachJobOnce | src/labgpu/spot/daemon.py:164-180 | one reconcile never closes the same job twice |
| ProtocolTheorems.DockerDownChangesNoLease | src/labgpu/spot/daemon.py:77-87 | while Docker does not answer nothing is closed, requeued, removed or started, through any number of ticks, failures and crashes |
| ProtocolTheorems.NoStartNoLease | src/labgpu/spot/daemon.py:118-134 | without a recorded start the active set never gains a job; that nothing is started under a block is `Tick` and `RunForever` |
| ProtocolFrames.OnlyTheseAreLent | src/labgpu/spot/daemon.py:131-134 | over any stretch of an execution that starts only given launches, new containers carry those launches on their GPUs, and whoever became active holds the GPU of its launch |
| ProtocolTheorems.DrainingEmpties | src/labgpu/spot/daemon.py:160-188 | when nothing is started and the held containers are no longer listed as running, the reconcile ends with no active job |
| ProtocolTheorems.LostRaceLeavesAnOrphan | src/labgpu/spot/daemon.py:211-235 | a job cancelled while its container starts stays cancelled; the container never belongs to an active job and is gone after any later reconcile |
| ProtocolTheorems.StopStepsAreCalls | src/labgpu/spot/daemon.py:194-196 | `docker stop` is asked for by the stop steps only, once each, for the container they concern |
| ProtocolTheorems.TicksStopOnce | src/labgpu/spot/daemon.py:113-116 | in one controller lifetime ticks ask for at most one `docker stop` per container |
| ProtocolFrames.TicksNeverRepeatStops | src/labgpu/spot/daemon.py:113-116 | once a stop is on record no number of ticks asks for it again in this controller lifetime, so whether one was started changes only when everything is given back |
| ProtocolFrames.IssuedStopsWereAsked | src/labgpu/spot/daemon.py:194-196 | `stop_issued` names only containers whose stop was asked for since the controller started |
| ProtocolTheorems.RunningJobsAreNotBeingStopped | src/labgpu/spot/daemon.py:194-196 | a RUNNING job's container is never in `stop_issued` |
| Containers.Docker.Run | src/labgpu/spot/docker.py:203-206 | a new running container under a fresh id, or a failure that may leave one behind; a name in use is refused |
| Containers.Docker.StopAsync | src/labgpu/spot/docker.py:208-217 | every stop asked for is on record with whether its process started |
| Containers.Docker.SaveLogsAndRemove | src/labgpu/spot/docker.py:219-234 | the container goes, or stays behind as stuck |
| Daemon.Controller.constructor | src/labgpu/spot/daemon.py:45-69 | a controller over the store and runtime that any execution left, continuing its log with a crash: no trackers, no stop on record |
| Daemon.Controller.Interleave | src/labgpu/spot/jobs.py:250-288 | users and containers extend the log by any steps of theirs, taking no GPU and starting no job |
| Daemon.Controller.Reconcile | src/labgpu/spot/daemon.py:160-188 | afterwards exactly the jobs whose containers were listed as running are still active, and every container not stuck belongs to one of them |
| Daemon.Controller.CloseOrKeep | src/labgpu/spot/daemon.py:164-183 | the row listed as running is kept; any other is ended, with its exit code or as vanished, and its lease and recorded stop alone go |
| Daemon.Controller.Sweep | src/labgpu/spot/daemon.py:184-188 | no lease changes, and no container is left, other than a stuck one, that no active job holds |
| Daemon.Controller.Stop | src/labgpu/spot/daemon.py:194-196 | the stop is recorded and asked for exactly once |
| Daemon.Controller.ObserveGpus | src/labgpu/spot/daemon.py:136-158 | what could be read of every listed GPU, and failed observations of all known GPUs without NVML or Docker |
| Daemon.Controller.DetectOne | src/labgpu/spot/daemon.py:91-109 | only the tracker of the observed GPU changes, by exactly this look, and the verdict follows from its whole history |
| Daemon.Controller.Detect | src/labgpu/spot/daemon.py:90-109 | the same for all observations of a tick; trackers are never dropped, never share an object, keep all they were shown before and are shown nothing but these observations |
| Daemon.Controller.StopPendingOnes | src/labgpu/spot/daemon.py:113-116 | every reclaiming job of the snapshot has a stop on record, and one was started for each that was not yet on record; stops are asked for nobody else; it fails if and only if one of these stops could not be started |
| Daemon.Controller.MakePlan | src/labgpu/spot/daemon.py:118-131 | the planned launches are first fit for exactly the queued jobs of that moment, within the RAM available beyond the host's reserve, none without Docker or enforcement; the plan of these rows and verdicts is the next step |
| Daemon.Controller.PlanAndAct | src/labgpu/spot/daemon.py:118-134 | the plan is made of these rows, verdicts and the queue, and if the tick goes on to its end it was carried out without a break: every row that must go has a stop that started, every launch was considered |
| Daemon.Controller.ReclaimOne | src/labgpu/spot/daemon.py:198-209 | the job is no longer running, its stop is recorded and asked for exactly once |
| Daemon.Controller.LaunchOne | src/labgpu/spot/daemon.py:211-235 | the job is checked; only this launch can leave a new container or a new active job, on its own GPU; it fails if and only if the record of its start was refused because the job was no longer queued |
| Daemon.Controller.Act | src/labgpu/spot/daemon.py:132-134 | every reclaim is stopped with a stop that started, every launch is considered, and nothing else is stopped, started or done in between; it fails if and only if a stop could not be started or a record was refused |
| Daemon.Controller.ObserveAndReconcile | src/labgpu/spot/daemon.py:73-89 | observations of every listed GPU as it could be read, then exactly the active jobs as read after the cleanup with what Docker held when it was listed |
| Daemon.Controller.JudgeGpus | src/labgpu/spot/daemon.py:73-110 | every listed GPU has a verdict that follows from its tracker's history, which grew by nothing but what this tick could read; nothing is started and no stop asked for |
| Daemon.Controller.Tick | src/labgpu/spot/daemon.py:73-134 | it judges the active jobs as it read them, plans on these and on the queue, and carries the plan out to the end. Owner first: new containers and newly active jobs are on GPUs of the launches, each quiet for its whole wait. Fail safe: every lease it leaves is a row it read or that of a launch; a row not told to stop is on an unblocked GPU judged LENT; a row to be stopped has a stop started if and only if its stop was not lost before; stops are asked only where due and never again. It fails if and only if one of its stops could not be started or a start was refused. On any doubt no container is created, no job becomes active and all rows are told to stop. First fit over the queue as it was when planned, every launch carried through: by priority, submission and id, within the RAM available beyond the host's reserve, and with no waiting job left out that has room on an empty lendable GPU |
| Daemon.Controller.ReclaimAll | src/labgpu/spot/daemon.py:247-253 | it reports success if and only if every stop it asked for started, and then every job still active had a stop started since; nothing is started |
| Daemon.Controller.RunOnce | src/labgpu/spot/daemon.py:278-288 | a round decides on what it could read, and starts only its launches, each after a quiet window, none on any doubt. When it completes, every active job was told to stop, sits on an unblocked GPU judged LENT now, or was just launched; on any doubt all were told. It fails if and only if a stop could not be started or a start was refused; then everything is given back, and every job still active had a stop started in this round, unless a stop of the give-back could not be started |
| Daemon.Controller.RunForever | src/labgpu/spot/daemon.py:267-292 | one such round is run for each input, each from the log and the histories the last one left; every launch was lent after a quiet window; under the kill switch or a node pause the active set only shrinks, and it ends empty when the containers of the active jobs had exited and Docker answered; no finished job comes back; after the last round everything is given back and every job still active told to stop, unless a stop of that could not be started |
| TickSpec.UnstoppedJobsAreLent | src/labgpu/spot/daemon.py:89-134 | a job left alone by the plan is on a GPU judged LENT, and nothing is blocked or unseen |
| TickSpec.LaunchesAreQuiet | src/labgpu/spot/daemon.py:117-134 | a planned launch has a quiet window behind it and no block in force |
| TickSpec.VerdictsInFull | src/labgpu/spot/daemon.py:89-109 | when a GPU is lendable, and when its jobs must go, from the blocks, the active jobs and all looks at it |
| TickSpec.ShownInFull | src/labgpu/spot/daemon.py:136-158 | a successful look shows the listed GPU as read, its processes told apart by the containers listed as running on it and the owners attached to it |
| TickSpec.FirstFitServes | src/labgpu/spot/daemon.py:118-131 | first fit in terms of the tables and the configuration: order, room and RAM of launched and waiting jobs |
| TickSpec.PlanIsGood | src/labgpu/spot/daemon.py:118-134 | the planner's output meets everything the protocol asks of a plan |
| Fraction.LimitIsExactToOneMiB | src/labgpu/fraction.py:50-51 | the limit is whole MiB and loses less than 1 MiB of the share less the reserve; it exceeds that if and only if that is below 1 MiB |
| Fraction.SmLimitIsLeastPercentage | src/labgpu/fraction.py:52 | the SM limit is the least whole percentage that grants the share |
| Fraction.LimitsAreMonotone | src/labgpu/fraction.py:50-52 | a larger share never gets smaller limits |
| Fraction.MemoryIsNotOversubscribed | src/labgpu/fraction.py:47-53 | shares of one device that sum to at most its share count get memory limits within its memory less every reserve, if each is worth 1 MiB |
| Fraction.SmIsBarelyOversubscribed | src/labgpu/fraction.py:47-53 | their SM limits sum to at most 100 plus the number of shares less one |
| Fraction.FloorCanOversubscribe | src/labgpu/fraction.py:51 | two halves of a 1 MiB device are granted twice its memory, so the 1 MiB condition is needed |
| Fraction.SharedDeviceIsNotOversubscribed | src/labgpu/fraction.py:37-53 | the limits that containers sharing a device get never sum to more than its memory less every reserve, if each is worth 1 MiB, and exceed 100 percent by less than one per share |
| Fraction.ComputeLimit | src/labgpu/fraction.py:37-53 | no limits if and only if the share is the whole device; otherwise whole MiB, short of the worth less the reserve by less than 1 MiB, or exactly 1 MiB if that is worth less, and the least whole SM percentage |
| Fraction.ComputeLimits | src/labgpu/fraction.py:56-77 | such a limit for exactly the devices with a share, each for its own UUID, share and memory, numbered from zero in device order |
| Fraction.BuildHamiEnviron | src/labgpu/fraction.py:80-97 | a memory entry for exactly the local indices of fractional devices, the last one of an index deciding; the SM entry is the largest of their limits, a missing one counting as 100 |
| Fraction.SettingsGrantLimits | src/labgpu/fraction.py:80-97 | the settings grant exactly the limits: every fractional device its memory, and together the largest SM limit |
| Attribution.WantedIsLast | src/labgpu/accelerator/plugin.py:490 | a short id stands for the last requested container that has it |
| Attribution.ShortMeansTwelve | src/labgpu/accelerator/plugin.py:490 | short ids agree if and only if the ids agree on their first twelve characters |
| Attribution.EveryProcessIsSeen | src/labgpu/accelerator/plugin.py:495-496 | every process of every snapshot is counted once, on its GPU |
| Attribution.OneUseInFull | src/labgpu/accelerator/plugin.py:501-503 | a process counts with its memory and its SM utilisation for the one container it belongs to |
| Attribution.PrefixDecides | src/labgpu/accelerator/plugin.py:490-500 | a process counts for a container if and only if its own container has that prefix and the container is the last one requested with it |
| Attribution.ContainersNeverMix | src/labgpu/accelerator/plugin.py:486-500 | with different prefixes co-located containers never mix |
| Attribution.UsageIsConserved | src/labgpu/accelerator/plugin.py:492-503 | what containers use and what no container uses add up to what all processes use |
| Attribution.MemoryWithinReportedCapacity | src/labgpu/accelerator/plugin.py:504-517 | reported memory is within reported capacity, when indices differ and no GPU's processes exceed the GPU |
| Attribution.UtilisationWithinReportedCapacity | src/labgpu/accelerator/plugin.py:519-527 | the same for utilisation at 100 per GPU |
| Attribution.TallySnapshot | src/labgpu/accelerator/plugin.py:496-503 | one snapshot's processes are added to the three dictionaries |
| Attribution.GatherContainerMeasures | src/labgpu/accelerator/plugin.py:483-529 | values and capacities of exactly the containers seen, and conservation of memory |

## Left out

- Containers.Docker.Run: the assembly of `docker run` arguments, including the memory limit given to the container
  (`DetectorProofs.EnforcedLimit` models its value); what is left behind by a failure runs until it exits.
- Containers.Docker.SaveLogsAndRemove: saving logs, and a failure to create their directory, which leaves the tick
  as an exception does; the protocol has it as `Break`, the class does not.
- ProtocolTheorems.TicksStopOnce: covers the stops that ticks ask for; `reclaim_all` may ask for a second one, as
  the source does.
- ProtocolTheorems.DeadStaysDead: a cancelled job may still become FAILED, because `fail` is unconditional and a
  cancellation can land before it.
- ProtocolTheorems.NoStartNoLease: assumes that nothing is started; `Daemon.Controller.Tick` and
  `Daemon.Controller.RunForever` prove that under a block nothing is.
- ProtocolTheorems.DrainingEmpties: assumes the same.
- Daemon.Controller.Tick: its fail-safe and first-fit clauses are about ticks that complete; a tick that does not is
  followed by `ReclaimAll`. A tick can fail here for the two reasons it states only; an exception at any other point
  is `Break` in the protocol.
- Daemon.Controller.RunOnce: `write_status`, which can also make a round fail, and the waits between rounds.
- Errors of the database other than a refused record: in the protocol they are a `Break`, in the class they do not
  occur.
- DetectorProofs.QuietWindow: ranges over the looks a tracker received: a GPU missing from a successful listing gets no look, and
  its jobs are reclaimed by the planner instead.
- DetectorProofs.HeadroomIsKept: holds within one controller lifetime, since a restart takes the owner's current memory as baseline.
- Fraction.MemoryIsNotOversubscribed: shares are exact rationals; the 28-digit rounding of `Decimal` is not modelled.
- Fraction.ComputeLimits: device ids are natural numbers in numeric order; the ordering key for other id formats is not
  modelled.
- A spot container without a GPU label, whose processes count as unknown: every listed container has a GPU here.
- GPU UUIDs, container ids and job ids are natural numbers (only equality and order matter), except in
  `Attribution`, where container ids are strings; times are real numbers.
- Shell globbing of GPU model names is an arbitrary function (`Matcher`) handed to the planner.
- The text of reasons and log messages: only whether a reason exists, and of which kind.
- SQLite, SQL text and JSON: tables are maps and sequences, each transaction one atomic step; uid, gid, name and
  image of a job are not kept.
- Reading NVML, Docker, `/proc`, cgroups and the kill-switch file, sampling CPU, signals and threads: their
  results are inputs of a tick, and all outcomes of Docker commands are possible.
- Liveness: the code does not retry a failed stop within a tick, and backfill may starve a large job, so no claim
  is made that every stop succeeds or every job starts.
- The command line, configuration, size parsing, job files, mount validation, GPU claims and the rest of the
  accelerator plugin: they would add easy members only.
