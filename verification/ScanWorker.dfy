// ScanWorker's dispatch as the source writes it: methods that act on the kernel and on the shared
// thread cache, proved to compute the functions of Engine; and main.cpp's restore of all baselines
// with its bounded retry (core/restoration_retry.hpp).
module ScanWorker {
  import opened Types
  import opened Kernel
  import opened Takeover
  import opened Engine
  import opened Restorability
  import opened Daemon
  import opened GivingBack
  import opened ThreadCache
  import opened Setters

  class ScanWorker {
    const machine: Machine
    const cache: ThreadCache

    constructor (machine: Machine, cache: ThreadCache)
      ensures this.machine == machine && this.cache == cache
    {
      this.machine := machine;
      this.cache := cache;
    }

    ghost function World(): World
      reads machine, cache
    {
      Daemon.World(machine.threads, machine.now, machine.log, cache.entries)
    }

    method RestoreAffinityBaseline(id: Ident, b: Baseline) returns (ok: bool)
      requires id in machine.threads
      modifies machine
      ensures id in machine.threads && machine.Only(id)
      ensures Step(machine.At(id), ok) == RestoreAffinity(machine.Env(id), old(machine.At(id)), b)
    {
      hide CheckIdentity, MoveCpuset, SetAffinity;
      var restored := true;
      if b.cpuset.Some? {
        var current := machine.CheckIdentity(id);
        if !current { return false; }
        restored := machine.MoveCpuset(id, b.cpuset.value);
      }
      if b.affinity.Some? {
        var current := machine.CheckIdentity(id);
        if !current { return false; }
        if b.affinity.value == {} { return false; }
        var narrowed := machine.SetAffinity(id, b.affinity.value);
        if !narrowed { restored := false; }
      }
      if !restored { return false; }
      ok := machine.CheckIdentity(id);
    }

    method RestoreSchedulerBaseline(id: Ident, b: Baseline) returns (ok: bool)
      requires id in machine.threads
      modifies machine
      ensures id in machine.threads && machine.Only(id)
      ensures Step(machine.At(id), ok) == RestoreScheduler(machine.Env(id), old(machine.At(id)), b)
    {
      hide CheckIdentity, RestoreSched;
      ok := machine.CheckIdentity(id);
      if !ok || b.sched.None? { return false; }
      ok := machine.RestoreSched(id, b.sched.value);
      if !ok { return false; }
      ok := machine.CheckIdentity(id);
    }

    method RestoreCpuctlBaseline(id: Ident, b: Baseline) returns (ok: bool)
      requires id in machine.threads
      modifies machine
      ensures id in machine.threads && machine.Only(id)
      ensures Step(machine.At(id), ok) == RestoreCpuctl(machine.Env(id), old(machine.At(id)), b)
    {
      hide CheckIdentity, MoveCpuctl;
      ok := machine.CheckIdentity(id);
      if !ok || b.cpuctl.None? { return false; }
      ok := machine.MoveCpuctl(id, b.cpuctl.value);
      if !ok { return false; }
      ok := machine.CheckIdentity(id);
    }

    // Calls on `id` have ended in `o`: the thread, the clock and the slot of its key are as `o` says
    // and nothing else has changed.
    twostate predicate Became(id: Ident, o: Out)
      reads machine, cache
      requires id in machine.threads
    {
      machine.Only(id) && machine.At(id) == o.x && cache.entries == Put(old(cache.entries), KeyOf(id), o.e)
    }

    // The cache holds the entry of this identity.
    ghost predicate Mine(id: Ident)
      reads machine, cache
    {
      id in machine.threads && KeyOf(id) in cache.entries && cache.entries[KeyOf(id)].id == id
    }

    ghost function EntryAt(id: Ident): Entry
      reads cache
      requires KeyOf(id) in cache.entries
    {
      cache.entries[KeyOf(id)]
    }

    method ReadState(id: Ident) returns (b: Baseline)
      requires id in machine.threads
      modifies machine
      ensures id in machine.threads && machine.Only(id)
      ensures Seen(machine.At(id), b) == Engine.ReadState(machine.Env(id), old(machine.At(id)))
    {
      var env, k := machine.Env(id), machine.threads[id];
      var affinity := if env.Alive(machine.now) && env.outcome(machine.now).readsAffinity && k.affinity != {}
        then Some(k.affinity) else None;
      machine.ReadCall(id);
      var sched := if env.Alive(machine.now) && env.outcome(machine.now).readsSched && k.sched.policy >= 0
        then Some(k.sched.(nice := if NiceCounts(k.sched.policy) then k.sched.nice else 0)) else None;
      machine.ReadCall(id);
      var readable := env.Alive(machine.now) && env.outcome(machine.now).readsCgroup;
      var cpuset := if readable && k.cpuset != "" then Some(CPUSET_ROOT + k.cpuset) else None;
      var cpuctl := if readable && k.cpuctl != "" then Some(CPUCTL_ROOT + k.cpuctl) else None;
      machine.ReadCall(id);
      return Baseline(affinity, sched, cpuset, cpuctl);
    }

    method CaptureBaselineIfNeeded(id: Ident)
      requires Mine(id)
      modifies machine, cache
      ensures Mine(id)
      ensures var c := Capture(machine.Env(id), old(machine.At(id)), old(EntryAt(id)));
        Became(id, Out(c.x, Some(c.e)))
    {
      hide CheckIdentity, Engine.ReadState;
      var b := ReadState(id);
      var current := machine.CheckIdentity(id);
      if current {
        cache.SetBaseline(KeyOf(id), b);
      }
    }

    method GiveBack(id: Ident, b: Baseline) returns (v: Engine.Verdict)
      requires id in machine.threads
      modifies machine
      ensures id in machine.threads && machine.Only(id)
      ensures Undone(machine.At(id), v) == Engine.GiveBack(machine.Env(id), old(machine.At(id)), b)
    {
      hide CheckIdentity, RestoreAffinity, RestoreScheduler, RestoreCpuctl;
      var current := machine.CheckIdentity(id);
      if !current { return Stale; }
      var restored := true;
      if b.cpuctl.Some? {
        restored := RestoreCpuctlBaseline(id, b);
      }
      current := machine.CheckIdentity(id);
      if !current { return Stale; }
      if b.sched.Some? {
        var ok := RestoreSchedulerBaseline(id, b);
        if !ok { restored := false; }
      }
      current := machine.CheckIdentity(id);
      if !current { return Stale; }
      var ok := RestoreAffinityBaseline(id, b);
      if !ok { restored := false; }
      current := machine.CheckIdentity(id);
      if !current { return Stale; }
      return if restored then Restored else Failed;
    }

    method RestoreBaseline(id: Ident)
      requires Mine(id)
      modifies machine, cache
      ensures id in machine.threads
      ensures Became(id, Engine.RestoreBaseline(machine.Env(id), old(machine.At(id)), old(EntryAt(id))))
    {
      hide Engine.GiveBack;
      var key := KeyOf(id);
      var baseline := cache.GetBaseline(key);
      if baseline.None? {
        cache.SetApplied(key, None);
        cache.SetManaged(key, UNMANAGED);
        return;
      }
      var v := GiveBack(id, baseline.value);
      if v == Stale {
        cache.EraseIfIdentity(id);
      } else if v == Restored {
        cache.Release(key);
      }
    }

    // The first half of the take-over: give back what the new rule does not manage.
    method FreeAffinity(id: Ident, d: Demand, b: Baseline) returns (ok: bool)
      requires Mine(id)
      modifies machine, cache
      ensures Mine(id)
      ensures var f := Engine.FreeAffinity(machine.Env(id), d, old(machine.At(id)), old(EntryAt(id)).managed, b);
        ok == f.ok && Became(id, Out(f.x, Some(old(EntryAt(id)).(managed := f.m))))
    {
      hide RestoreAffinity;
      var managed := cache.entries[KeyOf(id)].managed;
      if !managed.affinity || d.affinity { return true; }
      ok := RestoreAffinityBaseline(id, b);
      if !ok { return false; }
      cache.SetManaged(KeyOf(id), managed.(affinity := false));
    }

    method FreePriority(id: Ident, d: Demand, b: Baseline) returns (ok: bool)
      requires Mine(id)
      modifies machine, cache
      ensures Mine(id)
      ensures var f := Engine.FreePriority(machine.Env(id), d, old(machine.At(id)), old(EntryAt(id)).managed, b);
        ok == f.ok && Became(id, Out(f.x, Some(old(EntryAt(id)).(managed := f.m))))
    {
      hide RestoreScheduler;
      var managed := cache.entries[KeyOf(id)].managed;
      if !managed.priority || d.prio != 0 { return true; }
      ok := RestoreSchedulerBaseline(id, b);
      if !ok { return false; }
      cache.SetManaged(KeyOf(id), managed.(priority := false));
    }

    method FreeCpuctl(id: Ident, d: Demand, b: Baseline) returns (ok: bool)
      requires Mine(id)
      modifies machine, cache
      ensures Mine(id)
      ensures var f := Engine.FreeCpuctl(machine.Env(id), d, old(machine.At(id)), old(EntryAt(id)).managed, b);
        ok == f.ok && Became(id, Out(f.x, Some(old(EntryAt(id)).(managed := f.m))))
    {
      hide RestoreCpuctl;
      var managed := cache.entries[KeyOf(id)].managed;
      if !managed.cpuctl || d.limit { return true; }
      ok := RestoreCpuctlBaseline(id, b);
      if !ok { return false; }
      cache.SetManaged(KeyOf(id), managed.(cpuctl := false));
    }

    method FreeUnneeded(id: Ident, d: Demand, b: Baseline) returns (ok: bool)
      requires Mine(id)
      modifies machine, cache
      ensures Mine(id)
      ensures var f := Free(machine.Env(id), d, old(machine.At(id)), old(EntryAt(id)).managed, b);
        ok == f.ok && Became(id, Out(f.x, Some(old(EntryAt(id)).(managed := f.m))))
    {
      hide Engine.FreeAffinity, Engine.FreePriority, Engine.FreeCpuctl, Guards;
      ok := FreeAffinity(id, d, b);
      if !ok { return false; }
      ok := FreePriority(id, d, b);
      if !ok { return false; }
      ok := FreeCpuctl(id, d, b);
    }

    method ApplyAffinity(id: Ident, d: Demand) returns (ok: bool)
      requires id in machine.threads
      modifies machine
      ensures id in machine.threads && machine.Only(id)
      ensures Step(machine.At(id), ok) == Engine.ApplyAffinity(machine.Env(id), d, old(machine.At(id)))
    {
      hide RunTakeover;
      if !d.matched || !d.affinity { return true; }
      if d.target.cpus == {} { return false; }
      var attempts: nat;
      ok, attempts := machine.RunTakeoverSequence(id, d.target, MAX_ATTEMPTS);
    }

    method ApplyCpuctl(id: Ident, d: Demand) returns (ok: bool)
      requires id in machine.threads
      modifies machine
      ensures id in machine.threads && machine.Only(id)
      ensures Step(machine.At(id), ok) == Engine.ApplyCpuctl(machine.Env(id), d, old(machine.At(id)))
    {
      hide MoveCpuctl;
      if !d.matched || !d.limit { return true; }
      if d.index < 0 { return false; }
      ok := machine.MoveCpuctl(id, d.cpuctlDir);
    }

    method ApplyAll(id: Ident, d: Demand) returns (there: bool, complete: bool)
      requires id in machine.threads
      modifies machine
      ensures id in machine.threads && machine.Only(id)
      ensures Took(machine.At(id), there, complete) == Engine.ApplyAll(machine.Env(id), d, old(machine.At(id)))
    {
      hide CheckIdentity, Engine.ApplyAffinity, SetPriority, Engine.ApplyCpuctl;
      var affinityApplied := ApplyAffinity(id, d);
      there := machine.CheckIdentity(id);
      if !there { return false, false; }
      var priorityApplied := true;
      if d.matched {
        priorityApplied := machine.SetPriority(id, d.prio);
      }
      there := machine.CheckIdentity(id);
      if !there { return false, false; }
      var cpuctlApplied := ApplyCpuctl(id, d);
      there := machine.CheckIdentity(id);
      complete := (!d.affinity || affinityApplied) && priorityApplied && cpuctlApplied;
    }

    method TakeOverDimensions(id: Ident, d: Demand, r: MatchResult)
      requires Mine(id)
      modifies machine, cache
      ensures id in machine.threads
      ensures Became(id, TakeOver(machine.Env(id), d, r, old(machine.At(id)), old(EntryAt(id))))
    {
      hide CheckIdentity, Engine.ApplyAll, Guards;
      var key := KeyOf(id);
      var managed := cache.entries[key].managed;
      var there, complete := ApplyAll(id, d);
      managed := Managed(managed.affinity || d.affinity, managed.priority || d.prio != 0, managed.cpuctl || d.limit);
      if !there {
        cache.EraseIfIdentity(id);
        return;
      }
      cache.SetManaged(key, managed);
      if complete {
        cache.SetApplied(key, Some(r));
        return;
      }
      var current := machine.CheckIdentity(id);
      if !current {
        cache.EraseIfIdentity(id);
      }
    }

    method ApplyResult(id: Ident, d: Demand, r: MatchResult)
      requires Mine(id)
      modifies machine, cache
      ensures id in machine.threads
      ensures Became(id, Engine.ApplyResult(machine.Env(id), d, r, old(machine.At(id)), old(EntryAt(id))))
    {
      hide Capture, Free, TakeOver, Engine.RestoreBaseline, Guards;
      if !d.NeedsManaging() {
        RestoreBaseline(id);
        return;
      }
      CaptureBaselineIfNeeded(id);
      var baseline := cache.GetBaseline(KeyOf(id));
      if !Sufficient(baseline, d) { return; }
      var ok := FreeUnneeded(id, d, baseline.value);
      if !ok { return; }
      TakeOverDimensions(id, d, r);
    }

    // The drift checks against the last applied result, none suppressing another.
    method CheckDrift(id: Ident, d: Demand, due: bool) returns (drift: bool)
      requires id in machine.threads
      modifies machine
      ensures id in machine.threads && machine.Only(id)
      ensures Engine.Checked(machine.At(id), drift) == Engine.CheckDrift(machine.Env(id), d, due, old(machine.At(id)))
    {
      var env, k := machine.Env(id), machine.threads[id];
      var affinityChanged := false;
      if d.affinity {
        affinityChanged := !(d.target.cpus != {} && env.Alive(machine.now)
          && env.outcome(machine.now).readsAffinity && k.affinity == d.target.cpus);
        machine.ReadCall(id);
      }
      var schedChanged := false;
      if d.prio != 0 {
        schedChanged := !(env.Alive(machine.now) && env.outcome(machine.now).readsSched) || SchedDrifted(k.sched, d.prio);
        machine.ReadCall(id);
      }
      var cgroupChanged := false;
      var checkCpuctl := d.limit && d.index >= 0;
      if (d.affinity || checkCpuctl) && due {
        if !(env.Alive(machine.now) && env.outcome(machine.now).readsCgroup) {
          cgroupChanged := true;
        } else if d.affinity && k.cpuset != KernelPath(CPUSET_ROOT, d.target.dir) {
          cgroupChanged := true;
        } else {
          cgroupChanged := checkCpuctl && k.cpuctl != KernelPath(CPUCTL_ROOT, d.cpuctlDir);
        }
        machine.ReadCall(id);
      }
      drift := affinityChanged || schedChanged || cgroupChanged;
    }

    // A dispatch as this worker runs it is the Dispatched event of Daemon.
    twostate lemma DispatchIsStep(t: Task, inp: Inputs)
      requires old(t.id in machine.threads) && t.id in machine.threads
      requires Became(t.id, Dispatch(machine.Env(t.id), t, inp, old(machine.At(t.id)), old(cache.Slot(KeyOf(t.id)))))
      ensures World() == DispatchStep(machine.setting, old(World()), t, inp)
    {
      hide Dispatch;
      assert machine.threads == old(machine.threads)[t.id := machine.threads[t.id]];
    }

    // process_dispatch_task
    method ProcessDispatchTask(t: Task, inp: Inputs)
      requires t.id in machine.threads
      modifies machine, cache
      ensures t.id in machine.threads
      ensures Became(t.id, Dispatch(machine.Env(t.id), t, inp, old(machine.At(t.id)), old(cache.Slot(KeyOf(t.id)))))
    {
      hide CheckIdentity, Engine.ApplyResult, Engine.CheckDrift, DemandOf;
      var current := machine.CheckIdentity(t.id);
      if !current {
        cache.EraseIfIdentity(t.id);
        return;
      }
      if inp.throttled { return; }
      var found := cache.Lookup(t);
      if found.Some? {
        var e := found.value;
        if e.applied == Some(e.result) {
          var d := inp.Demands(e.result);
          if !d.NeedsManaging() { return; }
          var drift := CheckDrift(t.id, d, inp.due);
          if !drift { return; }
        }
        ApplyResult(t.id, inp.Demands(e.result), e.result);
        return;
      }
      cache.Update(t, inp.found);
      ApplyResult(t.id, inp.Demands(inp.found), inp.found);
    }
  }

  // main.cpp's restoration of every stored baseline, while no worker runs.
  class Restorer {
    const machine: Machine
    const cache: ThreadCache

    constructor (machine: Machine, cache: ThreadCache)
      ensures this.machine == machine && this.cache == cache
    {
      this.machine := machine;
      this.cache := cache;
    }

    ghost function World(): World
      reads machine, cache
    {
      Daemon.World(machine.threads, machine.now, machine.log, cache.entries)
    }

    method UndoLimits(id: Ident, b: Baseline) returns (there: bool, restored: bool)
      requires id in machine.threads
      modifies machine
      ensures id in machine.threads && machine.Only(id)
      ensures Took(machine.At(id), there, restored) == Engine.UndoLimits(machine.Env(id), old(machine.At(id)), b)
    {
      hide CheckIdentity, MoveCpuctl, RestoreSched;
      there := machine.CheckIdentity(id);
      if !there { return false, false; }
      restored := true;
      if b.cpuctl.Some? {
        there := machine.CheckIdentity(id);
        if !there { return false, false; }
        restored := machine.MoveCpuctl(id, b.cpuctl.value);
      }
      there := machine.CheckIdentity(id);
      if !there { return false, false; }
      if b.sched.Some? {
        var ok := machine.RestoreSched(id, b.sched.value);
        if !ok { restored := false; }
      }
      there := machine.CheckIdentity(id);
    }

    method UndoPlacement(id: Ident, b: Baseline) returns (there: bool, restored: bool)
      requires id in machine.threads && machine.log.Checked(machine.Env(id).id)
      modifies machine
      ensures id in machine.threads && machine.Only(id)
      ensures Took(machine.At(id), there, restored) == Engine.UndoPlacement(machine.Env(id), old(machine.At(id)), b)
    {
      hide CheckIdentity, MoveCpuset, SetAffinity;
      restored := true;
      if b.cpuset.Some? {
        restored := machine.MoveCpuset(id, b.cpuset.value);
      }
      there := machine.CheckIdentity(id);
      if !there { return false, false; }
      if b.affinity.Some? {
        var ok := false;
        if b.affinity.value != {} { ok := machine.SetAffinity(id, b.affinity.value); }
        if !ok { restored := false; }
      }
      there := machine.CheckIdentity(id);
    }

    method Undo(id: Ident, b: Baseline) returns (v: Engine.Verdict)
      requires id in machine.threads
      modifies machine
      ensures id in machine.threads && machine.Only(id)
      ensures Undone(machine.At(id), v) == Engine.Undo(machine.Env(id), old(machine.At(id)), b)
    {
      hide Engine.UndoLimits, Engine.UndoPlacement;
      var there, limits := UndoLimits(id, b);
      if !there { return Stale; }
      var placement;
      there, placement := UndoPlacement(id, b);
      return if !there then Stale else if limits && placement then Restored else Failed;
    }

    method UndoOne(one: Saved) returns (ok: bool)
      requires one.id in machine.threads
      modifies machine, cache
      ensures machine.threads.Keys == old(machine.threads).Keys
      ensures (World(), ok) == UndoStep(machine.setting, old(World()), one)
    {
      hide Engine.Undo;
      var v := Undo(one.id, one.baseline);
      if v == Stale {
        cache.EraseIfIdentity(one.id);
      } else if v == Restored {
        cache.Release(KeyOf(one.id));
      }
      assert machine.threads == old(machine.threads)[one.id := machine.threads[one.id]];
      return v != Failed;
    }

    // restore_all_thread_baselines: a loop over a snapshot of the baselines.
    method RestoreAllThreadBaselines() returns (allRestored: bool)
      requires CacheOk(machine.setting, World())
      modifies machine, cache
      ensures CacheOk(machine.setting, World()) && RestorePass(machine.setting, old(World()), World(), allRestored)
      ensures old(Restorable(machine.setting, World())) ==> Settled(machine.setting, old(World()), World(), allRestored)
    {
      hide Safe, UndoStep, Settled, StoredReturnable;
      var saved := cache.GetAllBaselines();
      ghost var w0 := World();
      assert Lists(saved, w0);
      hide CacheOk;
      allRestored := true;
      var i := 0;
      while i < |saved|
        invariant 0 <= i <= |saved| && machine.threads.Keys == w0.threads.Keys && CacheOk(machine.setting, World())
        invariant Daemon.RestoreAll(machine.setting, w0, saved)
          == (Daemon.RestoreAll(machine.setting, World(), saved[i..]).0,
              allRestored && Daemon.RestoreAll(machine.setting, World(), saved[i..]).1)
      {
        assert saved[i..][0] == saved[i] && saved[i..][1..] == saved[i + 1..];
        UndoStepCache(machine.setting, World(), saved[i]);
        var ok := UndoOne(saved[i]);
        if !ok { allRestored := false; }
        i := i + 1;
      }
      if Restorable(machine.setting, w0) {
        ListsReturnable(machine.setting, w0, saved);
        RestoreAllRestores(machine.setting, w0, saved);
      }
    }

    // run_restoration_with_retry: stop at the first success, pause between two attempts, and give up
    // after the last. Baselines only disappear with threads restored or dead, over all attempts.
    method RunRestorationWithRetry(maxAttempts: int, pause: nat) returns (restored: bool, ghost attempts: nat)
      requires CacheOk(machine.setting, World())
      modifies machine, cache
      ensures CacheOk(machine.setting, World()) && Attempts(machine.setting, old(World()), World(), attempts, restored)
      ensures if maxAttempts <= 0 then attempts == 0 else 0 < attempts <= maxAttempts && (restored || attempts == maxAttempts)
      ensures maxAttempts > 0 && old(Restorable(machine.setting, World())) ==>
        Settled(machine.setting, old(World()), World(), restored)
    {
      hide Settled, Safe, StoredReturnable, RestorePass, CacheOk, Restorable;
      ghost var first, tried, s := World(), World(), machine.setting;
      if maxAttempts <= 0 { return false, 0; }
      var attempt := 1;
      while attempt <= maxAttempts
        invariant 1 <= attempt <= maxAttempts + 1 && CacheOk(s, World())
        invariant attempt == 1 ==> World() == first
        invariant attempt > 1 ==> Attempts(s, first, tried, attempt - 1, false) && Paused(tried, World())
        invariant attempt > maxAttempts ==> World() == tried
        invariant attempt > 1 && Restorable(s, first) ==> Settled(s, first, World(), false)
      {
        ghost var before := World();
        if attempt > 1 && Restorable(s, first) { StillRestorable(s, first, before); }
        restored := RestoreAllThreadBaselines();
        if attempt > 1 { OneMore(s, first, tried, before, World(), attempt - 1, restored); }
        if attempt > 1 && Restorable(s, first) { ThroughAgain(s, first, before, World(), restored); }
        if restored { return true, attempt; }
        tried := World();
        if attempt < maxAttempts {
          machine.Wait(pause);
          CacheLater(s, tried, World());
          if Restorable(s, first) { SettledWait(s, first, tried, World()); }
        }
        attempt := attempt + 1;
      }
      return false, maxAttempts;
    }

    lemma StillRestorable(s: Setting, first: World, before: World)
      requires Restorable(s, first) && Settled(s, first, before, false)
      ensures Restorable(s, before)
    {
      SettledSafe(s, first, before, false);
    }

    lemma ThroughAgain(s: Setting, first: World, before: World, after: World, ok: bool)
      requires Restorable(s, first) && Settled(s, first, before, false) && Settled(s, before, after, ok)
      ensures Settled(s, first, after, ok)
    {
      SettledThrough(s, first, before, before, after, ok);
    }

    lemma CacheLater(s: Setting, w: World, w': World)
      requires CacheOk(s, w) && w.now <= w'.now && w' == w.(now := w'.now)
      ensures CacheOk(s, w')
    {
    }
  }
}
