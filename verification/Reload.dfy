// The configuration reload of main.cpp: workers, setters, configuration and control files change
// generation together or not at all.
module Reload {
  import opened Types
  import opened CgroupInit
  import opened ScanWorker
  import ConfigParser
  import Daemon
  import GivingBack

  datatype Config = Config(generation: nat, enable: bool, sched: SchedConfig)

  // A matcher or a setter, by the configuration it was built from.
  datatype Part = Part(generation: nat)

  datatype Outcome = Done | Refused | Threw

  class Worker {
    const matcher: Part
    const cpuset: Part
    const prio: Part
    const cpuctl: Part
    var started: bool
    ghost var refusals: nat        // how often its thread could not be started

    constructor (matcher: Part, cpuset: Part, prio: Part, cpuctl: Part)
      ensures this.matcher == matcher && this.cpuset == cpuset && this.prio == prio && this.cpuctl == cpuctl && !started
      ensures refusals == 0
    {
      this.matcher, this.cpuset, this.prio, this.cpuctl, started, refusals := matcher, cpuset, prio, cpuctl, false, 0;
    }

    predicate Of(generation: nat) {
      matcher.generation == generation && cpuset.generation == generation && prio.generation == generation
      && cpuctl.generation == generation
    }

    method Start() returns (r: Outcome)
      modifies this
      ensures r == Done ==> started
      ensures r != Done ==> !started || old(started)
      ensures refusals == old(refusals) + (if r == Done then 0 else 1)
    {
      if started { return Done; }
      var failure: Outcome := *;
      if failure != Done {
        refusals := refusals + 1;
        return failure;
      }
      started := true;
      return Done;
    }

    // The flag goes down first, so it is down even if joining the thread throws.
    method Stop()
      modifies this
      ensures !started && refusals == old(refusals)
    {
      started := false;
    }
  }

  method StopAll(workers: seq<Worker>)
    modifies workers
    ensures forall w :: w in workers ==> !w.started && w.refusals == old(w.refusals)
  {
    for i := 0 to |workers|
      invariant forall k :: 0 <= k < i ==> !workers[k].started
      invariant forall w :: w in workers ==> w.refusals == old(w.refusals)
    {
      workers[i].Stop();
    }
  }

  // All are started, or none is left started; that none is, is some worker's refusal.
  method StartAll(workers: seq<Worker>) returns (ok: bool)
    modifies workers
    ensures forall w :: w in workers ==> w.started == ok && w.refusals >= old(w.refusals)
    ensures !ok ==> exists w :: w in workers && w.refusals > old(w.refusals)
  {
    for i := 0 to |workers|
      invariant forall k :: 0 <= k < i ==> workers[k].started
      invariant forall w :: w in workers ==> w.refusals == old(w.refusals)
    {
      var r := workers[i].Start();
      if r != Done {
        assert workers[i].refusals > old(workers[i].refusals);
        StopAll(workers);
        return false;
      }
    }
    return true;
  }

  // An exception out of init has taken the writes back on its way, like a refusal.
  method InitGroups(config: Config, fs: CgroupFs) returns (r: Outcome)
    requires ConfigParser.Lawful(config.sched)
    modifies fs
    ensures r == Done ==> Prepared(config.sched, fs.dirs, fs.files)
    ensures fs.refusals >= old(fs.refusals)
    ensures fs.refusals == old(fs.refusals) && old(Usable(config.sched, fs.dirs, fs.files, fs.added)) ==> r == Done
  {
    hide Usable, Prepared, ConfigParser.Lawful;
    var ok, undone := Init(config.sched, fs);
    if ok { return Done; }
    var threw: bool := *;
    return if threw then Threw else Refused;
  }

  class Scheduler {
    const fs: CgroupFs
    const restorer: Restorer       // the threads and the thread cache, which outlive every reload
    var running: bool
    var config: Config
    var matcher: Part
    var cpuset: Part
    var prio: Part
    var cpuctl: Part
    var workers: seq<Worker>
    ghost var made: set<Worker>    // every worker of any generation
    ghost var exceptions: nat      // how many were thrown outside the parts above

    // The objects main builds before anything runs.
    constructor (config: Config, fs: CgroupFs, restorer: Restorer)
      ensures this.fs == fs && this.restorer == restorer && this.config == config && !running && OneGeneration() && Tidy() && fresh(made)
      ensures |workers| == 4 && forall w :: w in workers ==> !w.started
    {
      var part := Part(config.generation);
      var four := MakeWorkers(part);
      this.fs, this.restorer, this.config, running := fs, restorer, config, false;
      matcher, cpuset, prio, cpuctl := part, part, part, part;
      workers, made, exceptions := four, set w | w in four, 0;
    }

    // Start-up: only with initialised groups and all workers started does the daemon run.
    method Boot() returns (ok: bool)
      requires ConfigParser.Lawful(config.sched) && OneGeneration() && Tidy()
      requires |workers| == 4 && forall w :: w in workers ==> !w.started
      modifies `running, workers, fs
      ensures ok == running && Tidy() && (running ==> Running())
      ensures fs.refusals == old(fs.refusals) && old(Usable(config.sched, fs.dirs, fs.files, fs.added)) && Willing(workers) ==> ok
    {
      hide Usable;
      running := false;
      var r := InitGroups(config, fs);
      if r != Done { return false; }
      ok := StartAll(workers);
      running := ok;
    }

    // None has refused to start since.
    twostate predicate Willing(candidates: seq<Worker>)
      reads candidates
    {
      forall w :: w in candidates ==> w.refusals == old(w.refusals)
    }

    ghost predicate OneGeneration()
      reads this
    {
      var g := config.generation;
      && matcher.generation == g && cpuset.generation == g && prio.generation == g && cpuctl.generation == g
      && forall w :: w in workers ==> w.Of(g)
    }

    // What holds between reload attempts while the daemon runs.
    ghost predicate Running()
      reads this, fs, workers
    {
      && OneGeneration() && |workers| == 4 && (forall w :: w in workers ==> w.started)
      && ConfigParser.Lawful(config.sched) && Prepared(config.sched, fs.dirs, fs.files)
    }

    // Only current workers run.
    ghost predicate Tidy()
      reads this, made
    {
      && (forall w :: w in workers ==> w in made)
      && (forall w :: w in made && w.started ==> w in workers)
    }

    // Four workers of one generation.
    static method MakeWorkers(part: Part) returns (r: seq<Worker>)
      ensures |r| == 4 && forall w :: w in r ==> fresh(w) && w.Of(part.generation) && !w.started && w.refusals == 0
    {
      r := [];
      for i := 0 to 4
        invariant |r| == i && forall w :: w in r ==> fresh(w) && w.Of(part.generation) && !w.started && w.refusals == 0
      {
        var w := new Worker(part, part, part, part);
        r := r + [w];
      }
    }

    ghost function World(): Daemon.World
      reads restorer.machine, restorer.cache
    {
      restorer.World()
    }

    ghost predicate Restorable()
      reads restorer.machine, restorer.cache
    {
      Daemon.Restorable(restorer.machine.setting, World())
    }

    // No baseline is stored and every live thread is at its original.
    ghost predicate GivenBack()
      reads restorer.machine, restorer.cache
    {
      Daemon.GivenBack(restorer.machine.setting, World())
    }

    ghost predicate CacheOk()
      reads restorer.machine, restorer.cache
    {
      Daemon.CacheOk(restorer.machine.setting, World())
    }

    // restore_all_thread_baselines on the stopped scheduler, which may also throw after its pass; it
    // moves threads and writes no control file.
    method RestoreBaselines() returns (restored: bool)
      requires CacheOk()
      modifies `exceptions, restorer.machine, restorer.cache
      ensures CacheOk() && (old(Restorable()) ==> Restorable() && (restored ==> GivenBack()))
      ensures exceptions >= old(exceptions)
      ensures exceptions == old(exceptions) && old(Restorable() && AllWork()) ==> restored
    {
      hide Daemon.Safe, Daemon.CacheOk, Daemon.StoredReturnable, Daemon.RestorePass, GivingBack.AllWork;
      ghost var before, s := World(), restorer.machine.setting;
      restored := restorer.RestoreAllThreadBaselines();
      if Daemon.Restorable(s, before) {
        Daemon.SettledSafe(s, before, World(), restored);
        if GivingBack.AllWork(s, before) { GivingBack.PassGivesBack(s, before, World(), restored); }
      }
      var threw: bool := *;
      if threw { restored, exceptions := false, exceptions + 1; }
    }

    // From now on every call on a thread succeeds.
    ghost predicate AllWork()
      reads restorer.machine, restorer.cache
    {
      GivingBack.AllWork(restorer.machine.setting, World())
    }

    // Nothing but the new configuration decides about the reload.
    ghost predicate Promising(next: Config)
      reads fs, restorer.machine, restorer.cache
    {
      Restorable() && AllWork() && Usable(next.sched, fs.dirs, fs.files, fs.added)
    }

    // Since then nothing was thrown, no control file refused a write and no new worker to start.
    twostate predicate Smooth()
      reads this, fs, made
    {
      exceptions == old(exceptions) && fs.refusals == old(fs.refusals) && forall w :: w in made && w !in old(made) ==> w.refusals == 0
    }

    // One reload attempt; `parsed` is None if the file does not parse. A file that does not parse changes
    // nothing, one that disables the scheduler ends it, and any other takes over unless something on the
    // way refuses or throws.
    method Reload(parsed: Option<Config>) returns (succeeded: bool)
      requires running && Running() && Tidy() && CacheOk()
      requires parsed.Some? ==> ConfigParser.Lawful(parsed.value.sched) && parsed.value.generation != config.generation
      modifies this, made, fs, restorer.machine, restorer.cache
      ensures CacheOk() && (old(Restorable()) ==> Restorable() && (config != old(config) ==> GivenBack()))
      ensures Tidy() && (running ==> Running())
      ensures fresh(made - old(made))
      ensures running ==> config == old(config) || (parsed.Some? && config == parsed.value && parsed.value.enable)
      ensures running && config == old(config) ==> workers == old(workers) && !succeeded
      ensures succeeded ==> parsed.Some? && (if parsed.value.enable then running && config == parsed.value else !running)
      ensures parsed.None? ==> running && World() == old(World()) && fs.dirs == old(fs.dirs) && fs.files == old(fs.files)
      ensures parsed.Some? && !parsed.value.enable ==> succeeded && World() == old(World()) && fs.dirs == old(fs.dirs) && fs.files == old(fs.files)
      ensures parsed.Some? && old(Promising(parsed.value)) && Smooth() ==> succeeded
    {
      hide Prepared, ConfigParser.Lawful, OneGeneration, CacheOk, Restorable, GivenBack, Promising;
      if parsed.None? { return false; }
      var next := parsed.value;
      if !next.enable {
        running := false;
        return true;
      }
      succeeded := SwitchTo(next);
    }

    method SwitchTo(next: Config) returns (succeeded: bool)
      requires running && Running() && Tidy() && ConfigParser.Lawful(next.sched) && CacheOk()
      requires next.generation != config.generation
      modifies this, made, fs, restorer.machine, restorer.cache
      ensures CacheOk() && (old(Restorable()) ==> Restorable() && (config != old(config) ==> GivenBack()))
      ensures Tidy() && (running ==> Running()) && fresh(made - old(made))
      ensures running ==> config == old(config) || config == next
      ensures running && config == old(config) ==> workers == old(workers) && !succeeded
      ensures succeeded ==> running && config == next
      ensures old(Promising(next)) && Smooth() ==> succeeded
    {
      hide Prepared, ConfigParser.Lawful, ConfigParser.RulesOk, CacheOk, Restorable, GivenBack, Worker.Of, Promising;
      var part := Part(next.generation);
      var newWorkers := NextGeneration(part);
      var ready, restored := HandOver(next, newWorkers);
      if !ready {
        Recover(restored);
        return false;
      }
      Adopt(next, part, newWorkers);
      // Clearing the scans and reopening the log may still throw.
      var threw: bool := *;
      if threw { exceptions := exceptions + 1; }
      return !threw;
    }

    // The workers of the next generation.
    method NextGeneration(part: Part) returns (newWorkers: seq<Worker>)
      requires Tidy() && OneGeneration()
      modifies `made
      ensures Tidy() && OneGeneration() && |newWorkers| == 4 && made == old(made) + set w | w in newWorkers
      ensures forall w :: w in newWorkers ==> fresh(w) && w.Of(part.generation) && !w.started && w.refusals == 0
    {
      newWorkers := MakeWorkers(part);
      made := made + set w | w in newWorkers;
    }

    // The old workers stop before the replacement prepares itself.
    method HandOver(next: Config, newWorkers: seq<Worker>) returns (ready: bool, restored: bool)
      requires ConfigParser.Lawful(next.sched) && Prepared(config.sched, fs.dirs, fs.files) && CacheOk() && Tidy()
      requires forall w :: w in newWorkers ==> !w.started && w !in workers
      modifies `exceptions, fs, workers, newWorkers, restorer.machine, restorer.cache
      ensures CacheOk() && (old(Restorable()) ==> Restorable() && (restored ==> GivenBack()))
      ensures exceptions >= old(exceptions) && fs.refusals >= old(fs.refusals)
      ensures old(Promising(next)) && exceptions == old(exceptions) && fs.refusals == old(fs.refusals) && Willing(newWorkers) ==> ready
      ensures ready ==> restored && Prepared(next.sched, fs.dirs, fs.files)
      ensures !restored ==> Prepared(config.sched, fs.dirs, fs.files)
      ensures (forall w :: w in workers ==> !w.started) && (forall w :: w in newWorkers ==> w.started == ready)
      ensures forall w :: w in made && w.started ==> w in newWorkers
    {
      hide Prepared, ConfigParser.Lawful, CacheOk, Restorable, GivenBack, AllWork, Usable;
      StopAll(workers);
      ready, restored := Replace(next, newWorkers);
    }

    // clear_scheduling_state_preserving_baselines
    method ClearCache()
      requires CacheOk()
      modifies restorer.cache
      ensures CacheOk() && (old(Restorable()) ==> Restorable() && (old(GivenBack()) ==> GivenBack()))
    {
      hide Daemon.Safe;
      ghost var before := World();
      restorer.cache.ClearSchedulingState();
      if Daemon.Restorable(restorer.machine.setting, before) {
        Daemon.ClearedStays(restorer.machine.setting, before);
      }
    }

    // The replacement becomes the scheduler.
    method Adopt(next: Config, part: Part, newWorkers: seq<Worker>)
      requires CacheOk() && part.generation == next.generation && |newWorkers| == 4
      requires forall w :: w in newWorkers ==> w.Of(part.generation) && w.started && w in made
      requires forall w :: w in made && w.started ==> w in newWorkers
      requires ConfigParser.Lawful(next.sched) && Prepared(next.sched, fs.dirs, fs.files)
      modifies `workers, `config, `matcher, `cpuset, `prio, `cpuctl, restorer.cache
      ensures workers == newWorkers && config == next && Running() && Tidy()
      ensures CacheOk() && (old(Restorable()) ==> Restorable() && (old(GivenBack()) ==> GivenBack()))
    {
      hide CacheOk, Restorable, GivenBack, Prepared, ConfigParser.Lawful;
      Install(next, part, newWorkers);
      ClearCache();
    }

    method Install(next: Config, part: Part, newWorkers: seq<Worker>)
      modifies `workers, `config, `matcher, `cpuset, `prio, `cpuctl
      ensures workers == newWorkers && config == next
      ensures matcher == part && cpuset == part && prio == part && cpuctl == part
    {
      workers, config := newWorkers, next;
      matcher, cpuset, prio, cpuctl := part, part, part, part;
    }

    // The replacement's own preparation: restore, initialise, start. A failure anywhere, by result
    // or by exception, leaves the new workers stopped.
    method Replace(next: Config, newWorkers: seq<Worker>) returns (ready: bool, restored: bool)
      requires ConfigParser.Lawful(next.sched) && (forall w :: w in newWorkers ==> !w.started) && CacheOk()
      modifies `exceptions, fs, newWorkers, restorer.machine, restorer.cache
      ensures CacheOk() && (old(Restorable()) ==> Restorable() && (restored ==> GivenBack()))
      ensures exceptions >= old(exceptions) && fs.refusals >= old(fs.refusals)
      ensures old(Promising(next)) && exceptions == old(exceptions) && fs.refusals == old(fs.refusals) && Willing(newWorkers) ==> ready
      ensures ready ==> restored && Prepared(next.sched, fs.dirs, fs.files)
      ensures forall w :: w in newWorkers ==> w.started == ready
      ensures !restored ==> fs.dirs == old(fs.dirs) && fs.files == old(fs.files)
    {
      hide CacheOk, Restorable, GivenBack, AllWork, Usable;
      restored := RestoreBaselines();
      if !restored { return false, false; }
      var r := InitGroups(next, fs);
      if r != Done { return false, true; }
      ready := StartAll(newWorkers);
    }

    // The old scheduler goes on if its control files can be trusted and its workers start again.
    method Recover(restored: bool)
      requires |workers| == 4 && OneGeneration() && ConfigParser.Lawful(config.sched)
      requires forall w :: w in workers ==> !w.started
      requires !restored ==> Prepared(config.sched, fs.dirs, fs.files)
      requires running
      modifies `running, workers, fs
      ensures running ==> Running()
      ensures !running ==> forall w :: w in workers ==> !w.started
      ensures fs.refusals >= old(fs.refusals)
      ensures Willing(workers) ==>
        (!restored || (fs.refusals == old(fs.refusals) && old(Usable(config.sched, fs.dirs, fs.files, fs.added))) ==> running)
    {
      hide Usable;
      var groupsReady, started := !restored, false;
      if !groupsReady {
        var r := InitGroups(config, fs);
        groupsReady := r == Done;
      }
      if groupsReady { started := StartAll(workers); }
      if !groupsReady || !started { running := false; }
    }
  }
}
