// The kernel as mutable state and the three setters that act on it (scheduler/*.hpp). Every method
// is proved to do exactly what the functions of Kernel and Takeover say.
module Setters {
  import opened Types
  import opened Kernel
  import opened Takeover
  import opened Daemon

  class Machine {
    const setting: Setting
    var threads: map<Ident, KThread>
    var now: nat
    ghost var log: Log

    constructor (setting: Setting, threads: map<Ident, KThread>)
      ensures this.setting == setting && this.threads == threads && now == 0 && log == Start
    {
      this.setting := setting;
      this.threads := threads;
      now := 0;
      log := Start;
    }

    function Env(id: Ident): Env { setting.env(id) }

    ghost function At(id: Ident): Ctx
      reads this
      requires id in threads
    {
      Ctx(threads[id], now, log)
    }

    // Only `id` was acted on.
    twostate predicate Only(id: Ident)
      reads this
      requires id in threads
    {
      threads.Keys == old(threads).Keys && forall other :: other in threads && other != id ==> threads[other] == old(threads)[other]
    }

    // Time passes and nothing else happens.
    method Wait(pause: nat)
      modifies this
      ensures threads == old(threads) && log == old(log) && now == old(now) + pause
    {
      now := now + pause;
    }

    method CheckIdentity(id: Ident) returns (ok: bool)
      requires id in threads
      modifies this
      ensures id in threads && Only(id) && Step(At(id), ok) == Kernel.CheckIdentity(Env(id), old(At(id)))
    {
      ok := Env(id).Alive(now);
      log := Then(log, Identity(Env(id).id, ok));
      now := now + 1;
    }

    method ReadCall(id: Ident)
      requires id in threads
      modifies this
      ensures id in threads && Only(id) && At(id) == Kernel.ReadCall(Env(id), old(At(id)))
    {
      log := Then(log, Read(Env(id).id));
      now := now + 1;
    }

    method SetAffinity(id: Ident, cpus: set<int>) returns (ok: bool)
      requires id in threads
      modifies this
      ensures id in threads && Only(id) && Step(At(id), ok) == Kernel.SetAffinity(Env(id), old(At(id)), cpus)
    {
      if cpus == {} { return true; }
      var o := Env(id).outcome(now);
      var effective := cpus * Env(id).allowed(threads[id].cpuset);
      ok := Env(id).Alive(now) && o.ok && effective != {};
      log := Then(log, Affinity(Env(id).id, cpus));
      if Env(id).Alive(now) {
        threads := threads[id := threads[id].(affinity := if ok then effective else o.affinity)];
      }
      now := now + 1;
    }

    // One write of the TID to the tasks file of a cpuset group.
    method WriteCpuset(id: Ident, dir: string) returns (ok: bool)
      requires id in threads
      modifies this
      ensures id in threads && Only(id) && Step(At(id), ok) == Kernel.WriteCpuset(Env(id), old(At(id)), dir)
    {
      var o := Env(id).outcome(now);
      ok := Env(id).Alive(now) && o.ok;
      if Env(id).Alive(now) {
        threads := threads[id := threads[id].(
          cpuset := if ok then KernelPath(CPUSET_ROOT, dir) else o.cpuset, affinity := o.affinity)];
      }
      now := now + 1;
    }

    method MoveCpuset(id: Ident, dir: string) returns (ok: bool)
      requires id in threads
      modifies this
      ensures id in threads && Only(id) && Step(At(id), ok) == Kernel.MoveCpuset(Env(id), old(At(id)), dir)
    {
      log := Then(log, Cpuset(Env(id).id, dir));
      ok := WriteCpuset(id, dir);
    }

    // CpusetSetter::move_to_cpuset_cgroup
    method MoveToMask(id: Ident, dir: string, tries: nat) returns (ok: bool)
      requires id in threads
      modifies this
      ensures id in threads && Only(id) && Step(At(id), ok) == Kernel.MoveToMask(Env(id), old(At(id)), dir, tries)
    {
      hide Kernel.WriteCpuset, KernelPath;
      log := Then(log, Cpuset(Env(id).id, dir));
      if !Env(id).outcome(now).groupReady {
        now := now + 1;
        return false;
      }
      ghost var start := At(id);
      var retry := 0;
      while retry < tries
        invariant retry <= tries && id in threads && Only(id)
        invariant retry < tries || retry == 0 ==>
          WriteCpusetRetrying(Env(id), start, dir, tries) == WriteCpusetRetrying(Env(id), At(id), dir, tries - retry)
        invariant retry == tries > 0 ==> WriteCpusetRetrying(Env(id), start, dir, tries) == Step(At(id), false)
      {
        var written := WriteCpuset(id, dir);
        if written { return true; }
        retry := retry + 1;
        if retry < tries { log := Then(log, Again(Env(id).id)); }
      }
      return false;
    }

    method MoveCpuctl(id: Ident, dir: string) returns (ok: bool)
      requires id in threads
      modifies this
      ensures id in threads && Only(id) && Step(At(id), ok) == Kernel.MoveCpuctl(Env(id), old(At(id)), dir)
    {
      var o := Env(id).outcome(now);
      ok := Env(id).Alive(now) && o.ok;
      log := Then(log, Cpuctl(Env(id).id, dir));
      if Env(id).Alive(now) {
        threads := threads[id := threads[id].(cpuctl := if ok then KernelPath(CPUCTL_ROOT, dir) else o.cpuctl)];
      }
      now := now + 1;
    }

    method SetPolicy(id: Ident, policy: int, rtPriority: int) returns (ok: bool)
      requires id in threads
      modifies this
      ensures id in threads && Only(id) && Step(At(id), ok) == Kernel.SetPolicy(Env(id), old(At(id)), policy, rtPriority)
    {
      var o := Env(id).outcome(now);
      ok := Env(id).Alive(now) && o.ok;
      if Env(id).Alive(now) {
        threads := threads[id := threads[id].(
          sched := if ok then Sched(policy, rtPriority, threads[id].sched.nice) else o.sched)];
      }
      now := now + 1;
    }

    method SetNice(id: Ident, nice: int) returns (ok: bool)
      requires id in threads
      modifies this
      ensures id in threads && Only(id) && Step(At(id), ok) == Kernel.SetNice(Env(id), old(At(id)), nice)
    {
      var o := Env(id).outcome(now);
      ok := Env(id).Alive(now) && o.ok;
      if Env(id).Alive(now) {
        threads := threads[id := threads[id].(sched := if ok then threads[id].sched.(nice := nice) else o.sched)];
      }
      now := now + 1;
    }

    // PrioritySetter::restore_scheduler
    method RestoreSched(id: Ident, to: Sched) returns (ok: bool)
      requires id in threads
      modifies this
      ensures id in threads && Only(id) && Step(At(id), ok) == Kernel.RestoreSched(Env(id), old(At(id)), to)
    {
      if to.policy < 0 { return false; }
      log := Then(log, Scheduler(Env(id).id));
      ok := SetPolicy(id, to.policy, to.rtPriority);
      if !ok { return false; }
      if NiceCounts(to.policy) {
        log := Then(log, Again(Env(id).id));
        ok := SetNice(id, to.nice);
      }
    }

    // PrioritySetter::set_priority
    method SetPriority(id: Ident, prio: int) returns (ok: bool)
      requires id in threads
      modifies this
      ensures id in threads && Only(id) && Step(At(id), ok) == Kernel.SetPriority(Env(id), old(At(id)), prio)
    {
      if prio == 0 { return true; }
      if !ValidPrio(prio) { return false; }
      log := Then(log, Scheduler(Env(id).id));
      if 1 <= prio <= 98 {
        ok := SetPolicy(id, SCHED_FIFO, prio);
      } else if 100 <= prio <= 139 {
        ok := SetPolicy(id, SCHED_NORMAL, 0);
        if !ok { return false; }
        log := Then(log, Again(Env(id).id));
        ok := SetNice(id, prio - 120);
      } else if prio == -1 {
        ok := SetPolicy(id, SCHED_NORMAL, 0);
      } else if prio == -2 {
        ok := SetPolicy(id, SCHED_BATCH, 0);
      } else {
        ok := SetPolicy(id, SCHED_IDLE, 0);
      }
    }

    // One attempt of run_takeover_sequence after its first identity check.
    method TakeoverAttempt(id: Ident, t: Target) returns (verdict: Option<Verdict>)
      requires id in threads && log.Checked(Env(id).id)
      modifies this
      ensures id in threads && Only(id) && Attempt(At(id), verdict) == RunAttempt(Env(id), t, old(At(id)))
    {
      hide Kernel.SetAffinity, Kernel.CheckIdentity, Takeover.MoveOrRecover, Kernel.ReadCall, GuardedRun, SetterCall, KernelPath, CpusetReads, AffinityReads;
      var pre := SetAffinity(id, t.cpus);
      var ok := CheckIdentity(id);
      if !ok { return None; }
      ok := MoveOrRecover(id, t);
      if !ok { return None; }
      ok := CheckIdentity(id);
      if !ok { return None; }
      var post := SetAffinity(id, t.cpus);
      ok := CheckIdentity(id);
      if !ok { return None; }
      var v := VerifyTakeover(id, t);
      return Some(v);
    }

    // The two verifications that end an attempt.
    method VerifyTakeover(id: Ident, t: Target) returns (v: Verdict)
      requires id in threads
      modifies this
      ensures id in threads && Only(id)
      ensures var x := old(At(id)); var r1 := Kernel.ReadCall(Env(id), x);
        At(id) == Kernel.ReadCall(Env(id), r1)
        && v == Verdict(CpusetReads(Env(id), x, t.dir), AffinityReads(Env(id), r1, t.cpus))
    {
      var cpuset := Env(id).Alive(now) && Env(id).outcome(now).readsCgroup
        && threads[id].cpuset == KernelPath(CPUSET_ROOT, t.dir);
      ReadCall(id);
      var affinity := t.cpus != {} && Env(id).Alive(now) && Env(id).outcome(now).readsAffinity
        && threads[id].affinity == t.cpus;
      ReadCall(id);
      v := Verdict(cpuset, affinity);
    }

    method MoveOrRecover(id: Ident, t: Target) returns (ok: bool)
      requires id in threads && log.Checked(Env(id).id)
      modifies this
      ensures id in threads && Only(id) && Step(At(id), ok) == Takeover.MoveOrRecover(Env(id), t, old(At(id)))
    {
      hide Kernel.MoveToMask, Recover;
      ok := MoveToMask(id, t.dir, t.tries);
      if !ok {
        ok := TakeoverRecover(id, t);
      }
    }

    method TakeoverRecover(id: Ident, t: Target) returns (ok: bool)
      requires id in threads
      modifies this
      ensures id in threads && Only(id) && Step(At(id), ok) == Recover(Env(id), t, old(At(id)))
    {
      hide Kernel.SetAffinity, Kernel.CheckIdentity, Kernel.MoveCpuset, Kernel.MoveToMask, Kernel.ReadCall;
      ok := CheckIdentity(id);
      if !ok { return; }
      var pre := SetAffinity(id, t.cpus);
      ok := CheckIdentity(id);
      if !ok { return; }
      var parent := MoveCpuset(id, CPUSET_PARENT);
      ok := CheckIdentity(id);
      if !ok { return; }
      var again := SetAffinity(id, t.cpus);
      ok := CheckIdentity(id);
      if !ok { return; }
      var moved := MoveToMask(id, t.dir, t.tries);
    }

    // run_takeover_sequence
    method RunTakeoverSequence(id: Ident, t: Target, maxAttempts: nat) returns (success: bool, attempts: nat)
      requires id in threads
      modifies this
      ensures id in threads && Only(id)
      ensures var out := RunTakeover(Env(id), t, old(At(id)), maxAttempts);
        At(id) == out.x && success == out.flags.Success() && attempts == out.attempts
    {
      hide Kernel.CheckIdentity, RunAttempt;
      attempts := 0;
      var flags := Verdict(false, false);
      ghost var last: Option<Verdict> := None;
      var attempt := 0;
      while attempt < maxAttempts
        invariant attempt <= maxAttempts && id in threads && Only(id) && !flags.Success()
        invariant last != Some(Verdict(true, true))
        invariant RunTakeover(Env(id), t, old(At(id)), maxAttempts)
          == RunFrom(Env(id), t, Taken(At(id), attempts, flags, last), maxAttempts - attempt)
      {
        var ok := CheckIdentity(id);
        if !ok { break; }
        attempts := attempts + 1;
        var verdict := TakeoverAttempt(id, t);
        if verdict.None? { break; }
        flags, last := verdict.value, verdict;
        if flags.Success() { break; }
        attempt := attempt + 1;
      }
      success := flags.Success();
    }
  }
}
