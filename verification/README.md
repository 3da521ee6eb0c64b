# ReUperf scheduler: a verified model

ReUperf is a daemon that schedules single threads on Android. For every thread a rule matches it
takes over up to three dimensions, namely the cpuset group together with the CPU affinity, the
scheduler policy with its priority, and the cpuctl group with its limits. It remembers what the
thread had before, re-applies what drifted, and gives everything back when the rule no longer asks
for it, when the configuration is reloaded and when it stops. Every system call on the way may fail,
and process and thread ids are reused.

This project models that machinery in Dafny and proves what it keeps. `dafny verify dfyconfig.toml`
checks all of it.

## Layout

- `Types`, `Kernel`, `Takeover`, `Engine`: one thread. A call happens at a tick of a logical clock
  and its outcome is an arbitrary function of the tick: any call may fail at any time and a failed
  call may leave its own dimension with any value. The engine is the specification of
  `core/scan_worker.hpp` and the setters, and keeps a log of all calls.
- `Order`, `TakeoverRecovery`, `CachedMatch`: which operations are made in which order, what the
  recovery and the second attempt of a take-over achieve, and which match result a dispatch acts on.
- `Restorability`, `Convergence`, `Deployment`: what one dispatch or restore pass keeps, and what it
  achieves when calls succeed.
- `Limits`, `StaleResult`, `FailingRuns`: where promises of the source stop, with exact conditions and
  concrete failing runs.
- `Daemon`, `Exactness`, `Recovery`, `GivingBack`: all threads, the cache and runs of any events, with
  reused ids, and what a dispatch or a restore pass achieves after any run once calls succeed again.
- `ThreadCache`, `Setters`, `ScanWorker`: the classes of the source with their loops and in-place
  updates, each method proved against the engine.
- `Sorting`, `ScanSpec`, `ScanDispatch`, `CgroupState`, `FullScan`, `ScanMeaning`: the resumable scans, the
  five-phase cycle, the states read off cgroup paths, and what all that means for a snapshot of /proc.
- `Decimal`, `CpuList`, `Utf8Name`, `ConfigParser`, `ConfigRoundTrip`: numbers, CPU lists, names, the
  configuration and its round trip.
- `Matcher`, `MatchCache`, `Groups`, `MatchMeaning`: matching, its cache, where a match can send a thread,
  and what it asks for in terms of the configuration.
- `CgroupInit`, `Reload`: control files as a transaction and the reload of the whole scheduler.
- `EventRouter`, `WorkQueue`, `FileCache`: three stateful helpers, each against a simple specification.

## Standing assumptions

- Only ReUperf changes the modelled state of a thread; identity reads are exact; a dead identity
  (pid, tid and both start times) never returns, and two live ones never share a (pid, tid).
- The original affinity of a thread is not empty and fits its original cpuset. Any read of ReUperf's,
  of the affinity too, may fail at any time.
- In a run, a full restore pass finds no live thread whose baseline holds a cpuset but no affinity.
  All other events are unrestricted in this respect. `Limits.RestorePassSafeIffPaired` and
  `Limits.UndoSafeIffPaired` show that this is exactly what a restore pass needs.
- A pid reset only hits pids whose cached identities are dead or hold no baseline, and a full scan
  sees cached live threads as they are. For the second, `FullScan.ScanFeedsRetention` derives the
  retention step's assumption from the snapshot.
- The convergence results are about a dispatch from which on every call and read succeeds, of a
  thread the kernel shows in every dimension, with a mask that shares a CPU with its group. Whether
  the group allows the whole mask, and what earlier failures left behind, is part of what they say.
- A control file that was written successfully reads back what was written.

## Where the source's promises stop

1. "A dimension that is not managed has its original value" can fail. A full restore pass gives back
   every captured dimension, also those not managed, and keeps the flags when it fails; a call that
   fails with an effect then leaves an unmanaged dimension changed (`Recovery.UnmanagedNotOriginal`).
   The original stays stored, so a later pass repairs it, but a rule that comes back first does not:
   its dispatches succeed and leave the dimension as it is (`FailingRuns.SchedulerLeftChanged`).
   `Limits.RestorePassKeepsExactIff` and `Limits.UndoKeepsExactIff` have the exact condition for the
   pass, `Convergence.DispatchConverges` that for the dispatch, and `Exactness.UnmanagedIsOriginal` the
   property for all runs without such a pass.
2. A dispatch whose last applied result equals the cached one returns once that result's own
   dimensions show no drift. That misses a dimension that another result's unfinished take-over left
   managed: `StaleResult.PriorityLeftBehind` is a run after which a real-time priority stays although
   the rule manages none. It also misses a wrong group path while the cgroup check is not due
   (`FailingRuns.WrongPathUnseen`). `Limits.EarlyReturnIff` says when one such return is right, and
   `Limits.SkipRightIff` when it is right for every state consistent with the entry.
3. A cpuset captured without its affinity is restored by a move that may overwrite the affinity, with
   nothing left to put it back. `FailingRuns.AffinityLost` is a run with one failed read;
   `Limits.RestorePassSafeIffPaired` and `Limits.UndoSafeIffPaired` have the exact condition.
4. The identity is checked before each setter operation, not before each write. A group move repeats
   its write up to the configured number of tries, and a nice value is written after the policy, without
   another check (`Limits.RetryAfterDeath`). `Kernel.MoveToMask`, `Kernel.SetPriority` and
   `Kernel.RestoreSched` say exactly when an operation writes again, and
   `Daemon.RunEachWriteGuardedIff` lifts that to runs.
5. A mask may name CPUs that its group does not allow, since offline CPUs are accepted. A take-over of
   such a mask never verifies, and every dispatch starts it again
   (`Convergence.RepeatedDispatchIsSilentIff`).
6. The matcher's cache key joins its texts with `#|#`. Thread names may contain that, so two threads
   can share a key and one can get the other's rule (`MatchCache.NamesWithHashCollide`,
   `MatchCache.WrongAnswer`). `MatchCache.SharedKeyIff` says exactly when a query shares its key.
7. ReUperf must not infer a process' state from its own cgroup paths. Its cpuctl paths contain the
   rule's name, and a name with `top-app`, `foreground` or `background` in it is read as that state
   (`CgroupState.MisleadingName`); `CgroupState.OwnCpuPathIff` and `FullScan.OwnedStateKeptIff` have
   the exact condition.
8. The cached match of a thread is kept as long as its name, command line and state stay the same. The
   process' name, which rules are matched against too, is not looked at (`CachedMatch.Remembered`), so
   a process that renames itself keeps the rule of its old name; `CachedMatch.RunRemembers` says what is
   remembered instead.

## Model

| member | source | states |
|---|---|---|
| Takeover.RunTakeover | scheduler/cpuset_setter.hpp:123-165 | For any outcomes and any bound on the attempts: every setter operation directly follows an identity check that returned true, nothing is started after one that returned false, at most 7 operations per attempt, and success holds iff the last attempt verified both the cpuset and the affinity; then the thread really is in the group with exactly the mask's CPUs |
| Takeover.RunAttempt | scheduler/cpuset_setter.hpp:133-162 | One attempt starts at most 7 setter operations, all guarded, repeats at most two moves' worth of writes, and is cut short exactly when an identity check fails in it |
| Takeover.MoveOrRecover | scheduler/cpuset_setter.hpp:140-153 | The move, with the detour over the parent group when it fails, starts at most 5 operations, all guarded, touches nothing but cpuset and affinity, and gives up exactly when an identity check fails in it |
| TakeoverRecovery.AttemptRecovers | scheduler/cpuset_setter.hpp:133-162 | Whatever the first move of an attempt did: if every later call succeeds, the thread ends in the group on the CPUs of the mask the group allows, and the attempt counts as a success iff these are all |
| TakeoverRecovery.TakeoverRecovers | scheduler/cpuset_setter.hpp:123-165 | The same of the whole sequence, for any bound on the attempts |
| TakeoverRecovery.LaterAttemptSucceeds | scheduler/cpuset_setter.hpp:133-165 | Any number of attempts that ran to their end and failed are made good by a later one within the bound, if calls succeed from then on |
| TakeoverRecovery.ApplyTriesAgain | scheduler/cpuset_setter.hpp:132-165 | The setter makes two attempts: with calls succeeding after a first one that failed, the affinity is applied iff the group allows the whole mask |
| TakeoverRecovery.VerdictMeans | scheduler/cpuset_setter.hpp:156-160 | The two verifications of an attempt succeed iff the cpuset, and the affinity, could be read and is the one asked for |
| Order.AttemptOrder | scheduler/cpuset_setter.hpp:136-158 | For any outcomes, an attempt that is not cut short makes exactly these operations in this order: affinity, move, the four of the recovery iff the move failed, affinity |
| Order.ApplyOrder | core/scan_worker.hpp:526-569 | For any outcomes, a thread that is there to the end gets a scheduler and a cpuctl operation, if they are demanded, after those of the placement: no failure suppresses a later dimension |
| Order.GiveBackOrder | core/scan_worker.hpp:428-473 | For any outcomes, a full restore pass that does not find the thread gone tries every captured dimension, in the order cpuctl, scheduler, cpuset, affinity |
| Order.UndoOrder | main.cpp:732-763 | The same of one baseline given back on reload or exit |
| Setters.Machine.RunTakeoverSequence | scheduler/cpuset_setter.hpp:123-165 | The loop over the attempts leaves the kernel, the clock and the call log exactly as the specification of the sequence does |
| Setters.Machine.MoveToMask | scheduler/cpuset_setter.hpp:59-83 | The retry loop of a group move leaves kernel, clock and log as its recursive specification does, with every write of the loop in the log |
| Setters.Machine.SetPriority | scheduler/priority_setter.hpp:116-187 | Setting a priority value does what its specification does, range by range, with both writes of a nice range in the log, and touches only the scheduler state of its own thread |
| Setters.Machine.RestoreSched | scheduler/priority_setter.hpp:189-210 | Restoring a captured scheduler state equals its specification |
| Kernel.SetPriority | scheduler/priority_setter.hpp:74-187 | A successful call leaves a state that the drift check for the same value accepts; only scheduler state changes, the operation is guarded, and it makes a second write iff the value is a nice value and the first succeeds |
| Kernel.RestoreSched | scheduler/priority_setter.hpp:189-210 | A successful restoration leaves the captured state up to a nice value that the policy ignores; a second write is made iff nice counts and the first succeeds |
| Kernel.PriorityMeans | scheduler/priority_setter.hpp:74-187 | The table of priority values in policies, priorities and nice values: what a successful call leaves, what counts as no drift, and which values are refused without a call |
| Kernel.RestoredSchedMeans | scheduler/priority_setter.hpp:189-210 | A restored state has the captured policy and priority, and the captured nice value under the three policies that use it |
| Kernel.MoveToMask | scheduler/cpuset_setter.hpp:59-83 | Success leaves the thread in the group; a write is repeated without another identity check iff the group is ready, there is a second try, and the first write fails; a move to a ready group fails only after all its tries |
| Kernel.EachWriteGuardedIff | scheduler/cpuset_setter.hpp:59-83 | In a log whose setter operations are guarded, every single write is guarded too iff no operation repeated a write |
| Limits.RetryAfterDeath | scheduler/cpuset_setter.hpp:67-78 | A concrete trace: the thread dies after the check, and the move writes its id a second time without checking again |
| Kernel.SetAffinity | utils/cpu_mask.hpp:70-88 | At most one guarded call, never repeated; success with a non-empty request leaves exactly the requested CPUs that the cpuset allows |
| Kernel.CheckIdentity | core/scan_worker.hpp:572-576 | The check changes nothing, is true exactly while this identity lives, and is what the log's guard looks for |
| Engine.RestoreAffinity | core/scan_worker.hpp:382-402 | Cpuset first, then affinity; a complete restoration leaves the captured path and the captured CPUs that this path allows |
| Engine.Dispatch | core/scan_worker.hpp:578-636 | Every setter operation of a dispatch is guarded; it only ever stores an entry of its own identity, and replaces another identity's entry only while its own is alive |
| CachedMatch.MatchedAnew | core/scan_worker.hpp:628-635 | If the slot is empty, another identity's, or differs from the task in name, command line or state, the thread is matched anew: an entry left behind has the task's identity, name, command line and state and the matcher's result |
| CachedMatch.MatchedAnewConverges | core/scan_worker.hpp:628-635 | In calm, that dispatch meets what the matcher found, under the condition of DispatchConverges |
| CachedMatch.Remembered | core/thread_cache.hpp:70-85 | If the slot agrees in all of these, nothing depends on what the matcher would say or on the process' name, and the entry keeps its result |
| CachedMatch.UnappliedConverges | core/scan_worker.hpp:601-626 | In calm, a remembered result that was not applied completely is met after the dispatch, under the same condition |
| CachedMatch.DriftIsRepaired | core/scan_worker.hpp:604-626 | In calm, an applied result is met again after a dispatch that finds the affinity, the scheduler or, when due, a group path elsewhere, under the same condition |
| CachedMatch.ThrottledOrGone | core/scan_worker.hpp:588-600 | A throttled task changes nothing; one whose thread is gone takes only its own entry with it |
| CachedMatch.RunRemembers | core/scan_worker.hpp:601-635 | On every run, across reloads, a cached result is what the matcher in force says of the entry's own name, command line and state |
| CachedMatch.ClearedIsMatchedAnew | core/thread_cache.hpp:261-274 | An entry that clearing leaves is matched anew, unless the thread has neither a name nor a command line |
| Engine.Undo | main.cpp:703-778 | Giving back one stored baseline keeps every setter operation guarded |
| GivingBack.UndoNeverFails | main.cpp:703-778 | If calls on the thread succeed while it is there, giving back a faithful baseline never fails: it restores the thread, to its original if the baseline is paired, unless the thread goes meanwhile |
| GivingBack.PassGivesBack | main.cpp:703-778 | A restore_all_thread_baselines on a restorable world returns true, leaves no stored baseline and every live thread at its original, if calls on threads that are there succeed |
| GivingBack.FirstAttemptGivesBack | core/restoration_retry.hpp:8-23 | Then the first attempt of the retry is the last one and gives everything back |
| Restorability.CaptureKeeps | core/scan_worker.hpp:359-380 | Capturing into an entry keeps the thread restorable whichever reads fail: what is captured is the original, what was captured stays |
| Restorability.FreeKeeps | core/scan_worker.hpp:494-524 | Giving back the dimensions a new result no longer manages keeps the thread restorable, and a flag is dropped only with its dimension at the original |
| Restorability.TakeOverKeeps | core/scan_worker.hpp:526-569 | Taking over keeps the thread restorable whichever calls and reads fail with whatever effect, keeps the stored baseline, and keeps "not managed means original"; the entry disappears only with its thread |
| Restorability.RestoreBaselineKeeps | core/scan_worker.hpp:428-473 | A full restore pass over a baseline that has an affinity if it has a cpuset keeps the thread restorable; it drops the baseline only with every dimension at the original, and keeps "not managed means original" if it completes or captured only what it manages |
| Restorability.UndoKeeps | main.cpp:703-778 | Restoring one such stored baseline: restored means every dimension is at the original, failed leaves the thread restorable, stale means the identity is gone |
| Restorability.ApplyResultKeeps | core/scan_worker.hpp:475-570 | Applying any match result keeps the thread restorable in all branches; only the branch of a full restore pass asks for the affinity beside a captured cpuset |
| Restorability.DispatchKeeps | core/scan_worker.hpp:578-636 | Whatever a dispatch does and whichever of its calls and reads fail with whatever effect, a thread still there afterwards can be given back: every captured value is the original, every dimension that differs or is managed is captured; only a full restore pass needs a captured cpuset to come with its affinity; an entry disappears only with its thread |
| Restorability.DispatchKeepsExact | core/scan_worker.hpp:578-636 | "Not managed means original" also survives a dispatch unless it is a full restore pass that captured more than it manages and does not complete |
| Convergence.CalmAttempt | scheduler/cpuset_setter.hpp:133-162 | With every call succeeding and a group that shares a CPU with the mask, an attempt puts the thread into the group on the CPUs both have, and succeeds iff the group allows the whole mask |
| Convergence.DispatchConverges | core/scan_worker.hpp:475-636 | A dispatch that acts, with every call succeeding from now on, meets its rule (managed dimensions pass their drift checks, every other one is at the original) iff the group allows the whole mask and either the rule manages nothing or every dimension that neither the rule nor the entry manages was at its original already; earlier failures are not excluded |
| Convergence.RepeatedDispatchIsSilentIff | core/scan_worker.hpp:578-636 | The same dispatch again, whether or not the cgroup check is due, makes no call that could change the thread iff the rule manages nothing or the group allows the whole mask; a mask that is not allowed as a whole is pushed again every time |
| Convergence.CalmSetPriority | scheduler/priority_setter.hpp:96-187 | With every call succeeding, setting any valid priority value succeeds |
| Convergence.CalmNoDrift | core/scan_worker.hpp:284-307 | A state that meets the rule shows no drift to any of the three drift checks |
| Convergence.UnreadableIsDrift | core/scan_worker.hpp:284-307 | What cannot be read counts as drift, in each dimension that is checked |
| Recovery.ConvergesAfterAnyRun | core/scan_worker.hpp:475-636 | After any run from the start, whatever failed in it, once calls succeed the next dispatch of a thread that acts meets its rule, and the one after it is silent, under exactly these conditions |
| Recovery.ConvergesAfterCarefulRun | core/scan_worker.hpp:475-636 | After a run without a full restore pass that gave up on more than it managed, the dispatch meets its rule iff the group allows the whole mask |
| Recovery.UnmanagedNotOriginal | core/scan_worker.hpp:428-473 | A concrete run of the daemon from an untouched world, two dispatches with one failing call, after which a dimension that is not managed is off its original |
| Deployment.MatchIsFeasible | core/thread_matcher.hpp:277-405 | For every parsed configuration, whatever the matcher returns is feasible if the group of its mask has some CPU of the mask: a mask with CPUs, a valid priority value, a thread rule for a limit |
| Deployment.FirstDispatchSettles | core/scan_worker.hpp:578-636 | From configuration to kernel: the first dispatch of an untouched thread, with every call succeeding, meets the rule that matches it iff the group allows the whole mask, and a second one is silent iff the rule manages nothing or the group allows the whole mask |
| Limits.RestorePassKeepsExactIff | core/scan_worker.hpp:428-473 | "Not managed means original" survives a full restore pass for every kernel behaviour iff the entry captured nothing it does not manage; a failing pass is the counterexample otherwise |
| Limits.UndoKeepsExactIff | main.cpp:703-778 | The same for one stored baseline given back on reload or exit |
| FailingRuns.SchedulerLeftChanged | core/scan_worker.hpp:428-473 | A concrete run from the original state: a restore pass fails in one call, the rule comes back, every call succeeds from then on, and the scheduler, which the rule does not manage, stays off its original at every later dispatch |
| Limits.RestorePassSafeIffPaired | core/scan_worker.hpp:382-402 | A restore pass over any restorable thread keeps it restorable for every kernel behaviour iff the affinity was captured along with the cpuset |
| Limits.UndoSafeIffPaired | main.cpp:703-778 | One stored baseline given back on reload or exit leads, if reported restored, to the original for every kernel behaviour iff it holds the affinity along with the cpuset |
| FailingRuns.AffinityLost | core/scan_worker.hpp:359-402 | A concrete run in which one read of the affinity fails and every call succeeds: the rule comes and goes, the thread is left on another CPU, and nothing is stored that could bring it back |
| Limits.EarlyReturnIff | core/scan_worker.hpp:601-622 | A dispatch that finds its applied result unchanged and sees no drift changes nothing, and its rule is met iff every dimension the result does not manage is at its original and the group paths it did not read are right |
| Limits.SkipRightIff | core/scan_worker.hpp:284-622 | This return leaves the rule met for every thread state and kernel behaviour consistent with the entry iff the entry manages nothing beyond the applied result and every demanded group path is read, that is, the cgroup check is due and a limit names its rule |
| FailingRuns.WrongPathUnseen | core/scan_worker.hpp:284-307 | A concrete state in which the entry manages only what the applied result does, the thread is in another cpuctl group, and a dispatch whose cgroup check is not due leaves it there |
| StaleResult.PriorityLeftBehind | core/scan_worker.hpp:494-622 | A concrete run of three dispatches after which the rule manages no priority, the thread still has the old one, and every later dispatch under the rule, at any time and whether or not its checks are due, changes nothing |
| Daemon.DispatchSafe | core/scan_worker.hpp:578-636 | A dispatch of any thread keeps every thread of the system restorable, also when a recycled (pid, tid) takes over a cache slot |
| Daemon.RetainDropsNoLiveBaseline | core/thread_cache.hpp:227-259 | The retention step after a full scan drops no baseline of a thread that still exists |
| Daemon.RetainDropsExactly | core/thread_cache.hpp:227-259 | It drops exactly the entries unchanged since the scan began whose process is gone or recycled, or whose thread is recycled, or gone without a baseline; the others stay as they are |
| Daemon.RestoreAllKeeps | main.cpp:703-778 | Restoring any list of returnable stored baselines keeps every thread restorable and removes baselines only |
| Daemon.RestoreAllRestores | main.cpp:703-778 | True: no baseline is stored and every live thread is at its original. False: every live thread not at its original keeps its baseline. Either way the stored baselines only shrink; that it does return true is GivingBack.PassGivesBack |
| Daemon.NextSafe | core/scan_worker.hpp:578-636 | Every event (wait, dispatch, retention, restore pass, reload clearing, pid reset) keeps every live thread restorable, whichever calls and reads fail |
| Daemon.RunSafe | core/scan_worker.hpp:578-636 | The same over every run of events |
| Daemon.EveryDeviationIsStored | core/scan_worker.hpp:359-570 | On every run from the start, a live thread that differs from its original in some dimension, or is managed in it, has its original stored for that dimension |
| Daemon.NothingStored | main.cpp:703-778 | A live thread without a stored baseline is at its original |
| Daemon.SettledThrough | core/restoration_retry.hpp:8-23 | Attempts with waits between them leave what one attempt would |
| Daemon.RunGuarded | core/scan_worker.hpp:572-576 | On every run, each setter operation directly follows a successful check of that thread's identity, and each further write of an operation directly follows a write of it |
| Daemon.RunEachWriteGuardedIff | scheduler/cpuset_setter.hpp:59-83 | On every run, each single write directly follows such a check iff no operation of the run repeated a write |
| Exactness.NextExact | core/scan_worker.hpp:578-636 | Every event keeps "not managed means original" for every live thread, unless it is a full restore pass that gives up on an entry that captured more than it manages |
| Exactness.UnmanagedIsOriginal | core/scan_worker.hpp:359-570 | On every run from the start without such a pass, a dimension that is not managed is at its original |
| ThreadCache.ThreadCache.Update | core/thread_cache.hpp:86-106 | An entry of the same identity keeps its baseline, flags and applied result; any other is replaced by a blank one |
| ThreadCache.ThreadCache.SetBaseline | core/thread_cache.hpp:142-169 | A dimension captured before is never overwritten; missing ones are added |
| ThreadCache.ThreadCache.RetainLiveThreads | core/thread_cache.hpp:227-259 | The erase-while-iterating loop keeps exactly the entries changed since the scan began, seen alive, or holding a baseline of a live process |
| ThreadCache.ThreadCache.ClearSchedulingState | core/thread_cache.hpp:261-274 | Entries without a baseline go; the others lose everything but the baseline |
| ThreadCache.ThreadCache.ResetForPid | core/thread_cache.hpp:286-292 | Exactly the entries of that pid go |
| ThreadCache.ThreadCache.GetAllBaselines | core/thread_cache.hpp:204-215 | The stored baselines, each once, and no others |
| ThreadCache.ThreadCache.EraseIfIdentity | core/thread_cache.hpp:276-284 | Only an entry of exactly this identity is erased |
| ScanWorker.ScanWorker.RestoreAffinityBaseline | core/scan_worker.hpp:382-402 | Kernel and log afterwards are those of the specification |
| ScanWorker.ScanWorker.CaptureBaselineIfNeeded | core/scan_worker.hpp:359-380 | Kernel, log and cache slot afterwards are those of the specification, and no other thread or slot changes |
| ScanWorker.ScanWorker.RestoreBaseline | core/scan_worker.hpp:428-473 | Likewise for a full restore pass |
| ScanWorker.ScanWorker.ApplyResult | core/scan_worker.hpp:475-570 | Likewise for applying a match result |
| ScanWorker.ScanWorker.CheckDrift | core/scan_worker.hpp:604-622 | The three drift checks, none suppressing another, equal their specification |
| ScanWorker.ScanWorker.ProcessDispatchTask | core/scan_worker.hpp:578-636 | The method changes the system exactly as one dispatch step of a run does, of which CachedMatch says whose result it acts on |
| ScanWorker.ScanWorker.DispatchIsStep | core/scan_worker.hpp:578-636 | What the method leaves is the dispatch event of the run-level model, so everything proved over runs holds of it |
| ScanWorker.Restorer.RestoreAllThreadBaselines | main.cpp:703-778 | The loop over a snapshot of the baselines is one restore pass of the run-level model; from a restorable world, returning true leaves no stored baseline and every live thread at its original, returning false keeps a baseline for every live thread not restored |
| ScanWorker.Restorer.RunRestorationWithRetry | core/restoration_retry.hpp:8-23 | It makes attempts with pauses between them until one succeeds or the bound is reached, none for a bound of zero or less; all attempts together settle a restorable world as one would |
| ScanSpec.PassWhat | main.cpp:544-649 | A pass over a set of processes enqueues exactly the readable threads not yet processed, each once |
| ScanSpec.CycleWhat | main.cpp:1299-1338 | A five-phase cycle enqueues every readable thread of every listed process exactly once, with the state of the first phase that lists its process, and nothing else |
| ScanDispatch.ScanCursor.EnumerateTids | core/scan_cursor.hpp:83-126 | However often it is interrupted, a finished enumeration holds the sorted distinct thread ids of the directory; only a budget that ran out in this call leaves it unfinished |
| ScanDispatch.Dispatcher.DispatchTids | main.cpp:593-640 | What one call enqueues and what is left at the cursor are together what was left before; only a budget that ran out or a worker that refused in this call stops it, and every refusal asks for a new full scan |
| ScanDispatch.Dispatcher.DispatchPids | main.cpp:544-649 | Interrupted by budget or full queues anywhere, the calls together enqueue the sequence of one uninterrupted pass; false is returned only when nothing is left, true only if the budget ran out or a worker refused in this call |
| ScanDispatch.FullCycle.Advance | main.cpp:1299-1338 | One main-loop iteration of the five phases enqueues a prefix of what the cycle has left, and ends the cycle unless its budget ran out or a worker refused |
| ScanDispatch.FullCycle.Run | main.cpp:1299-1338 | Any number of iterations; if they finish the cycle they have enqueued exactly what one uninterrupted cycle enqueues, in order, and they finish it unless every one of them was stopped |
| ScanDispatch.SentSoFar | main.cpp:1299-1338 | Wherever a cycle stands, it has enqueued no thread twice and each with the state of the first phase that lists its process; with nothing left it has enqueued every readable thread listed |
| ScanMeaning.CycleSends | main.cpp:544-649 | A cycle sends a thread iff a phase lists its process, name and start time of both can be read and the task directory lists it; the task carries what was read and the state of the first such phase |
| FullScan.FindsOne | main.cpp:432-542 | Two complete scans of one snapshot find the same sets, maps and states |
| FullScan.FullScanState.EnumeratePids | main.cpp:303-345 | Cut or failed at any point, the enumeration ends with the sorted distinct pids |
| FullScan.FullScanState.Advance | main.cpp:432-542 | However often the scan was cut before, a call that returns true leaves exactly what the snapshot determines; false is returned only if the budget ran out or /proc could not be read in this call |
| FullScan.FullScanState.Run | main.cpp:1281-1297 | The same over any number of main-loop iterations, which end the scan unless every one of them was stopped |
| ScanMeaning.FoundMeans | main.cpp:466-536 | What the scan's sets are in terms of the snapshot: in particular a listed, readable background process is dispatched iff it holds a baseline, or a rule matches it and it is no kernel thread under the default rule |
| ScanMeaning.DeadAndThreads | main.cpp:452-500 | The dead are the listed processes with a start time and no name; live threads are those listed under a readable process whose start time can be read |
| ScanMeaning.StateIs | main.cpp:466-479 | The state its paths tell; for a process ReUperf moved, the state the same process was last seen in; else background |
| ScanMeaning.PathsTell | utils/file_utils.hpp:538-588 | The cpu path decides if it tells a state, else the cpuset path does unless one of the two is ReUperf's own; top-app before foreground before background |
| ScanMeaning.SentState | main.cpp:1299-1338 | A thread is sent as top if its process is at the top, or is matched by a pinned rule, or by a topfore rule that counts it as top; else with its process' state |
| ScanMeaning.MatchedThreadsAreSent | main.cpp:1299-1338 | After a scan one cycle reaches every readable thread of every process a rule matches, except of kernel threads under the default rule |
| FullScan.StatesDisjoint | main.cpp:474-487 | Top, foreground and background are pairwise disjoint |
| FullScan.OwnedStateKeptIff | main.cpp:466-479 | A process ReUperf moved into a thread rule's group is seen in the state it was last seen in iff the rule's name is not itself read as a state |
| CgroupState.OwnCpuPathIff | utils/file_utils.hpp:538-588 | A thread rule's own cpu path tells no state iff the rule's name contains none of the three words that name one |
| CgroupState.ContainsParts | utils/file_utils.hpp:538-550 | A word without '/' is found in a path iff it is in one of its components |
| CgroupState.MisleadingName | utils/file_utils.hpp:538-588 | A rule named "background apps" makes its own processes look like background ones |
| FullScan.NoBaselineOrphaned | core/thread_matcher.hpp:37-44 | A live process that held a baseline when the scan began is in one of the three sets |
| FullScan.BaselineThreadsAreSent | main.cpp:1299-1338 | So one cycle hands every readable thread of it to the workers |
| FullScan.ScanFeedsRetention | main.cpp:538-541 | What a scan found justifies the retention step: a live cached thread is never mistaken for a dead or recycled one |
| Utf8Name.IsSafe | config/config_parser.hpp:57-112 | The validator accepts a byte string iff it has 1 to 128 bytes, is not "." or "..", has no leading or trailing ASCII space, and is the encoding (RFC 3629, sections 3 and 4) of a sequence of allowed code points |
| Utf8Name.FrontComplete | config/config_parser.hpp:70-111 | Decoding an encoded scalar value gives it back, with its width |
| Utf8Name.FrontSound | config/config_parser.hpp:70-111 | What is decoded and not overlong is what the code point would be encoded as |
| Utf8Name.FrontStep | config/config_parser.hpp:70-111 | One decoding step off the front decides the rest: encodable iff the first code point is acceptable and the remainder is encodable |
| Utf8Name.MasksAreRanges | config/config_parser.hpp:73-92 | The bit masks of the decoder select exactly the byte ranges of the model |
| Utf8Name.ShiftsAreProducts | config/config_parser.hpp:93-97 | The decoder's shift-and-or step is the model's product and sum, for every value the decoder reaches |
| Utf8Name.SafeNameIsComponent | config/config_parser.hpp:57-112 | An accepted name is a single path component |
| ConfigParser.Config.ParseSched | config/config_parser.hpp:133-217 | The parse and the validation of references give exactly the specified configuration, and it is lawful |
| ConfigParser.ParsedIsLawful | config/config_parser.hpp:261-547 | Whatever the document says: masks are named safely, sorted, without duplicates and in range; scenes name existing masks; priority values are valid; rule names are safe and pairwise different; every class is known or automatic |
| ConfigParser.Config.ParseRules | config/config_parser.hpp:401-511 | The loop over the rules, with a name taken even by a rule that is dropped for its regex |
| ConfigParser.Config.ValidateReferences | config/config_parser.hpp:524-547 | Unknown masks are cleared and unknown classes become automatic; nothing else changes |
| ConfigParser.RulesInOk | config/config_parser.hpp:411-431 | Rules that survive have pairwise different safe names and bounded limits |
| ConfigRoundTrip.DocumentParsesBack | config/config_parser.hpp:133-547 | Every lawful configuration can be written down: the document with its parts under the parser's keys parses back to exactly that configuration |
| ConfigRoundTrip.TouchIsTop | config/config_parser.hpp:336-391 | A touch entry takes the place of top |
| ConfigRoundTrip.Defaults | config/config_parser.hpp:418-499 | What parts that are missing stand for |
| ConfigRoundTrip.MalformedPartsAreDropped | config/config_parser.hpp:280-295 | Parts of the wrong type and CPUs out of range are dropped one by one and leave the others alone |
| ConfigRoundTrip.NumbersOutOfRange | config/config_parser.hpp:478-495 | Limits and priority values out of range are dropped |
| ConfigRoundTrip.NumbersWrap | config/config_parser.hpp:287 | Numbers are read modulo 32 bits |
| ConfigRoundTrip.ReferencesMean | config/config_parser.hpp:524-547 | A reference to an unknown mask is cleared, one to an unknown class becomes automatic, everything else stays |
| ConfigRoundTrip.NameIsTaken | config/config_parser.hpp:426-441 | A second rule of a name is dropped even if the first was dropped for having no regex |
| CpuList.Print | utils/cpu_mask.hpp:42-64 | The printer loop prints the runs of the sorted list |
| CpuList.Parse | utils/cpu_mask.hpp:112-156 | The parser loop, with its error exits, equals the list grammar read item by item with the conversion rules of stoi |
| CpuList.ItemMeans | utils/cpu_mask.hpp:112-156 | A number stands for itself iff it is a CPU id, a range for its numbers iff it ascends and all are |
| CpuList.StoiMeans | utils/cpu_mask.hpp:112-156 | Blanks and signs before the digits are read, what follows them is not, and a text that starts otherwise is no number |
| CpuList.ItemThenRest | utils/cpu_mask.hpp:112-156 | An item before a comma is read on its own and so is the rest, also if there is none |
| CpuList.ParsedAreIds | utils/cpu_mask.hpp:112-156 | Whatever text is accepted lists CPU ids only |
| CpuList.ChunksAreMaximal | utils/cpu_mask.hpp:42-64 | No printed range could be longer |
| CpuList.RoundTrip | utils/cpu_mask.hpp:42-156 | For every list of CPU ids, in any order and with duplicates, parsing the printed text gives the list back sorted |
| CpuList.TextDetermines | utils/cpu_mask.hpp:42-64 | Two lists with the same text have the same CPUs equally often |
| CpuList.ThroughMask | utils/cpu_mask.hpp:21-40 | A list that goes through a CPU mask comes back sorted and without duplicates |
| Matcher.Compile | core/thread_matcher.hpp:104-164 | Rules that do not compile are skipped and the others keep their place in the configuration |
| Matcher.CompiledFirst | core/thread_matcher.hpp:317-333 | The first compiled rule that hits is the first configured one that applies |
| Matcher.KeptFirst | core/thread_matcher.hpp:349-384 | The source index of the first compiled thread rule that hits is the index of the first configured thread rule that applies |
| Matcher.MatchCompiled | core/thread_matcher.hpp:317-387 | The two match loops over the compiled rules return the match defined on the configured rules |
| MatchMeaning.MatchMeans | core/thread_matcher.hpp:317-387 | The result carries the first rule that fires and in it the first thread rule that fires, said of patterns and searches directly; pinned counts as top, topfore in the foreground too; the mask is the class' for that state |
| MatchMeaning.NothingMatches | core/thread_matcher.hpp:277-316 | Without a rule that fires, and for a process that is gone, the result is blank and asks for nothing |
| MatchMeaning.DemandMeans | core/scan_worker.hpp:475-570 | What a match asks of the setters: the named mask's group directory and CPUs, the class' priority in the effective state, the directory of its own thread rule's limit |
| MatchMeaning.DemandedGroupsHold | core/cgroup_init.hpp:256-366 | After a successful initialisation, the directories in a match's demand exist and hold its limits and exactly its CPUs |
| MatchCache.SharedKeyIff | core/thread_matcher.hpp:283-286 | Another query shares the cache key iff the three joined texts can be cut at other separators |
| MatchCache.PlainKeysDiffer | core/thread_matcher.hpp:283-286 | Queries whose process and thread names hold no '#' have different keys |
| MatchCache.CachingMatcher.MatchImpl | core/thread_matcher.hpp:277-405 | A fresh entry is used, anything else is matched anew and stored if it matches; the answer is always that of some query asked under the same key; no bucket exceeds 256 entries |
| MatchCache.CachingMatcher.CacheResult | core/thread_matcher.hpp:483-509 | Expired entries of the bucket go, then an oldest one if there is no room, the new entry can be found until it expires, and no bucket exceeds 256 entries |
| MatchCache.CachingMatcher.MatchAll | core/thread_matcher.hpp:277-405 | For every sequence of queries of names without '#' and all clock values, the cache cannot be noticed |
| MatchCache.NamesWithHashCollide | core/thread_matcher.hpp:283-286 | Two threads of different names share a key though a rule tells them apart |
| MatchCache.WrongAnswer | core/thread_matcher.hpp:297-314 | So one matcher asked both gives the second the first one's rule |
| Groups.RequiresCpuset | core/cgroup_init.hpp:96-111 | True iff some thread rule names an affinity class with a mask in some state |
| Groups.RequiresCpuctl | core/cgroup_init.hpp:113-122 | True iff some thread rule has its limit enabled |
| Groups.CpuctlGroupInjective | core/cgroup_init.hpp:337-350 | Different thread rules have different cpuctl groups; this rests on rule names being single path components |
| Groups.AffinityTargetExists | core/thread_matcher.hpp:192-213 | A match that asks for an affinity names a configured mask, and then the configuration requires the cpuset hierarchy |
| Groups.LimitTargetIsOwn | scheduler/cpuctl_setter.hpp:32-48 | A match that asks for a limit was made from one thread rule, whose group is no other thread rule's, whatever rules were skipped as uncompilable |
| CgroupInit.ControlFileTransaction.Write | core/cgroup_init.hpp:32-44 | Only this file changes and success leaves the value in it; unless a snapshot is waived, its value from the beginning of the transaction stays recoverable |
| CgroupInit.ControlFileTransaction.Rollback | core/cgroup_init.hpp:46-59 | It succeeds if no write is refused; then each file is as it was when the transaction began, even where a failed write left garbage, except those written without a snapshot |
| CgroupInit.SetupMask | core/cgroup_init.hpp:256-309 | Success leaves the group with the mask's CPUs and the parent's mems and not exclusive; only files of this group change; only a group that was not ready is written without a snapshot; it succeeds if the group has or gets its files and nothing is refused |
| CgroupInit.WriteOptionalLimit | core/cgroup_init.hpp:196-224 | Success leaves the configured value, or the parent's where none is configured |
| CgroupInit.InitCpuset | core/cgroup_init.hpp:226-316 | Success with a configuration that needs cpusets leaves every mask's group ready; it succeeds if the hierarchy has what the groups need and nothing is refused |
| CgroupInit.InitCpuctl | core/cgroup_init.hpp:318-372 | Success with a configuration that needs limits leaves every such thread rule's group with its limits; only the cpuctl hierarchy changes; it succeeds if the hierarchy has what the groups need and nothing is refused |
| CgroupInit.Init | core/cgroup_init.hpp:72-84 | Success: all groups the configuration asks for are prepared. Failure with a complete rollback: every control file outside groups that were not ready holds its value from before the call. If nothing is refused it succeeds where the hierarchies have what the groups need, and any failure is rolled back completely |
| CgroupInit.LimitGroupHoldsLimits | core/cgroup_init.hpp:337-366 | After success, the group a limited match sends its thread to holds that match's own limits |
| CgroupInit.AffinityGroupHoldsCpus | core/cgroup_init.hpp:256-309 | After success, the group a match sends its thread to holds exactly the CPUs of the matched class, in a text that parses back to them |
| Reload.StartAll | main.cpp:793-811 | All workers are started, or none is left started, also after an exception; the latter only if some worker could not be started |
| Reload.Scheduler.Boot | main.cpp:896-934 | The daemon runs only with initialised groups and all workers started, and does run if nothing is refused and the hierarchies have what the groups need |
| Reload.Scheduler.Replace | main.cpp:1128-1153 | The replacement is ready only with baselines restored, groups initialised and all new workers started; from a restorable world, restored means that no baseline is stored and every live thread is at its original; otherwise no new worker runs, and without restoration no control file was touched; it is ready if nothing on the way refuses or throws |
| Reload.Scheduler.Recover | main.cpp:1155-1182 | The old scheduler goes on only with control files initialised for the old configuration and all its workers started, and does go on if the workers start and the control files were not touched or can be initialised; otherwise the daemon stops with none started |
| Reload.Scheduler.Reload | main.cpp:1098-1228 | After any attempt (parse failure, disabled, failed restoration, failed or throwing initialisation or start, failed recovery, late exception), if the daemon runs then configuration, matcher, setters and workers are of one generation, all workers are started, the control files are those of that configuration, and no worker of another generation runs; a restorable world stays restorable, and the configuration changes only with every live thread back at its original; a file that does not parse changes nothing, one that disables the scheduler ends it, and any other takes over unless something on the way refuses or throws |
| EventRouter.ReplayByLast | core/event_router.hpp:176-190 | The last event of a pid decides whether it is tracked |
| EventRouter.EventRouter.AddEvent | core/event_router.hpp:111-137 | At most 4096 pids are pending, each a true summary of its events; an event is refused only for a pid not pending at the limit, and then the batch carries the dropped flag |
| EventRouter.EventRouter.Flush | core/event_router.hpp:152-196 | New, dead and recycled are exactly what the batch's events say, and the tracked set is that of event-by-event replay |
| EventRouter.ReportsAreDisjoint | core/event_router.hpp:174-190 | Recycled pids are new, new and dead exclude each other, and every exit is reported as dead or recycled in its own batch |
| EventRouter.EventRouter.RunBatches | core/event_router.hpp:111-196 | For any split of a stream into batches without drops, the tracked set is the replay of the whole stream and each report is exact for its batch |
| WorkQueue.AlwaysOrdered | core/scan_worker.hpp:131-180 | After any interleaving of offers, deliveries, starts and stops the waiting keys are different, at most 4096, in the order in which they were accepted, and each has the payload of its newest offer |
| WorkQueue.EachAcceptanceEndsOnce | core/scan_worker.hpp:131-180 | In any interleaving, every acceptance of a key has ended in exactly one delivery or one discard by a stop, except that of a key still waiting |
| WorkQueue.DeliveryIsOldestAndNewest | core/scan_worker.hpp:309-334 | In any interleaving, a delivery hands out the waiting key accepted first, with the payload of the newest offer of that key |
| WorkQueue.OfferIsTaken | core/scan_worker.hpp:158-180 | An offer to a running queue is taken, in place if its key waits and at the end if there is room for one of 4096; it is refused only by a stopped or a full queue, and no other task is touched |
| WorkQueue.StartAndStop | core/scan_worker.hpp:118-147 | A start opens the queue, a stop closes and empties it, and what was delivered stays delivered |
| WorkQueue.TaskQueue.Enqueue | core/scan_worker.hpp:158-180 | The fields stand where the history with this offer leads (a waiting key keeps its place and gets the newest payload, a new one goes last if there is room, a stopped queue refuses); the answer says which |
| WorkQueue.TaskQueue.Take | core/scan_worker.hpp:309-334 | The fields stand where the history with this delivery leads; the oldest waiting task is returned, or none |
| WorkQueue.TaskQueue.Drain | core/scan_worker.hpp:309-334 | Delivering until nothing waits hands out every waiting task once, in queue order, with different keys |
| WorkQueue.TaskQueue.Stop | core/scan_worker.hpp:131-147 | The fields stand where the history with this stop leads: the queue is stopped and what still waited is discarded, nothing else |
| FileCache.FileCache.Touch | utils/file_utils.hpp:150-157 | The path moves to the end of the recency list, once, and the index still finds every node |
| FileCache.FileCache.Erase | utils/file_utils.hpp:159-166 | The path leaves all three structures |
| FileCache.FileCache.Lookup | utils/file_utils.hpp:174-186 | An entry younger than the limit is used and touched; otherwise nothing changes |
| FileCache.FileCache.Store | utils/file_utils.hpp:202-212 | Only a new path at the limit evicts, and only the path whose last use is the earliest of all |
| FileCache.FileCache.SamePaths | utils/file_utils.hpp:150-210 | Content map, index and list hold the same paths, the list has no duplicates, and there are at most 1000 |
| FileCache.WithoutOrdered | utils/file_utils.hpp:150-166 | Removing a path keeps the list in order of last use |

## Left out

- Throttling and check cadence: whether a dispatch is throttled and whether the cgroup check is due are arbitrary inputs of a dispatch, so the time tables behind them are not modelled.
- Group readiness: the timed cache of group checks in the cpuset setter is an arbitrary answer per call.
- Real threads and locks: one dispatch, one restored baseline and each mutex-protected section are atomic steps; races of a stale task inside one system-call window are not modelled.
- Exceptions inside a dispatch or inside a restore pass; an exception out of the restoration of a reload comes after its pass, and one out of cgroup initialisation is treated as a failure whose writes are taken back.
- Scheduler state is read with one answer for policy, priority and nice together.
- The take-over's per-operation success flags, which are only logged.
- The fields for the cpuset and cpuctl base paths of a cache entry, which are never read.
- ScanDispatch.Dispatcher.DispatchTids: the check that the process start time is unchanged in the middle of its threads, and the same check in FullScan.FullScanState.Advance; over a fixed snapshot of /proc it cannot fire.
- Directory entries of /proc and of task directories are already numbers or skipped; an unreadable task directory is empty.
- Reading the controller paths of a process out of its cgroup file, and the timed cache of such paths.
- The high-speed path between full scans and the event callback's own dispatch, which reuse the proved dispatch pass.
- Matcher.MatchCompiled: regular expressions are uninterpreted; expansion of the launcher macro and case folding are part of the uninterpreted predicates.
- MatchCache.CachingMatcher: the hash function is arbitrary and the 16 bucket locks are not modelled.
- ConfigParser: the JSON library, the metadata, timing and log sections, and whether the scheduler is enabled.
- CgroupInit.CgroupFs: file-system polling for control files to appear and the report of stale groups; creating a directory adds its control files at once, the same ones whenever it is created.
- FileCache: paths under /proc, /dev/cpuset and /dev/cpuctl, which bypass the cache, and the stripping of trailing newlines.
- WorkQueue.TaskQueue.Take: the branch for a queued key without a pending task, which the invariant rules out.
- EventRouter: the throttle deadline and exceptions thrown by the handler.
- Reload: the retry delay for a configuration that failed and the hash and time checks that trigger a reload.
- ProcMonitor, the configuration file watcher, the launcher finder, the logger, packaging: file-descriptor, poll and fork plumbing.
- Daemon.RunSafe: runs in which a full restore pass meets a live thread's baseline with a cpuset but no affinity are not covered; `FailingRuns.AffinityLost` shows what such a pass can do.
- CachedMatch.RunRemembers: runs in which a process changes its name, but not its command line, and the matcher answers differently for it are not covered; `CachedMatch.Remembered` shows that the cache keeps the old answer then.
