// One thread as the kernel sees it, and every call ReUperf makes on it.
//
// A call happens at one tick of a logical clock. What it does is decided by `Env.outcome`, an
// arbitrary function of the tick: a call may fail at any time, and a failed call may leave its own
// dimension with any value. A thread exists from `born` until `dies` and a call on a thread that
// does not exist changes nothing. Lemmas that hold for every Env hold for every behaviour.
module Kernel {
  import opened Types

  const SCHED_NORMAL := 0
  const SCHED_FIFO := 1
  const SCHED_BATCH := 3
  const SCHED_IDLE := 5

  datatype Ident = Ident(pid: nat, tid: nat, processStart: nat, threadStart: nat)

  datatype Sched = Sched(policy: int, rtPriority: int, nice: int)

  // cpuset and cpuctl are the paths of /proc/<pid>/task/<tid>/cgroup, relative to their hierarchy.
  datatype KThread = KThread(cpuset: string, affinity: set<int>, sched: Sched, cpuctl: string)

  predicate NiceCounts(policy: int) {
    policy == SCHED_NORMAL || policy == SCHED_BATCH || policy == SCHED_IDLE
  }

  // Equality of scheduler state as the setter compares it: nice is ignored under a real-time policy.
  predicate SameSched(a: Sched, b: Sched) {
    a.policy == b.policy && a.rtPriority == b.rtPriority && (NiceCounts(a.policy) ==> a.nice == b.nice)
  }

  datatype Outcome = Outcome(
    ok: bool, readsAffinity: bool, readsSched: bool, readsCgroup: bool, groupReady: bool,
    affinity: set<int>, cpuset: string, sched: Sched, cpuctl: string)

  datatype Env = Env(
    id: Ident, born: nat, dies: Option<nat>, outcome: nat -> Outcome, allowed: string -> set<int>)
  {
    predicate Alive(now: nat) { born <= now && (dies.Some? ==> now < dies.value) }

    predicate Dead(now: nat) { dies.Some? && dies.value <= now }
  }

  // A setter operation is logged with its first system call; `Again` is a further write of the same
  // operation, made without another identity check: a retried write to a tasks file, or the nice
  // value after the policy.
  datatype Call =
    | Identity(id: Ident, ok: bool)
    | Read(id: Ident)
    | Affinity(id: Ident, cpus: set<int>)
    | Cpuset(id: Ident, dir: string)
    | Scheduler(id: Ident)
    | Cpuctl(id: Ident, dir: string)
    | Again(id: Ident)

  // The call could change a thread.
  predicate Writes(c: Call) { !c.Identity? && !c.Read? }

  // The call starts a setter operation.
  predicate Mutates(c: Call) { Writes(c) && !c.Again? }

  // The calls made so far, newest last.
  datatype Log = Start | Then(earlier: Log, call: Call)
  {
    // Every setter operation comes straight after an identity check of its thread that succeeded,
    // and every further write straight after a write of the same operation.
    predicate Guarded() {
      Then? ==>
        && earlier.Guarded()
        && (Mutates(call) ==> earlier.Checked(call.id))
        && (call.Again? ==> earlier.Wrote())
    }

    // Every single write comes straight after such a check.
    predicate EachWriteGuarded() {
      Then? ==> earlier.EachWriteGuarded() && (Writes(call) ==> earlier.Checked(call.id))
    }

    // The newest call is a write.
    predicate Wrote() { Then? && Writes(call) }

    // The newest call is a successful identity check of `id`.
    predicate Checked(id: Ident) { Then? && call == Identity(id, true) }

    // The newest call is an identity check that failed.
    predicate Refused() { Then? && call.Identity? && !call.ok }

    // How many setter operations were started.
    function Mutations(): nat {
      if Start? then 0 else earlier.Mutations() + (if Mutates(call) then 1 else 0)
    }

    // How many writes were made beyond the first of their operation.
    function Repeats(): nat {
      if Start? then 0 else earlier.Repeats() + (if call.Again? then 1 else 0)
    }

    // How many identity checks failed.
    function Refusals(): nat {
      if Start? then 0 else earlier.Refusals() + (if Refused() then 1 else 0)
    }
  }

  // The thread, the clock and the log of calls made so far.
  datatype Ctx = Ctx(k: KThread, now: nat, log: Log)
  {
    function Called(c: Call): Ctx { this.(log := Then(log, c)) }
    function Ticked(next: KThread): Ctx { this.(k := next, now := now + 1) }
  }

  // A call's effect: the new state and whether the call reported success.
  datatype Step = Step(x: Ctx, ok: bool)

  // Guarded setter operations leave single writes unguarded exactly where they repeat a write.
  lemma {:induction false} EachWriteGuardedIff(log: Log)
    requires log.Guarded()
    ensures log.EachWriteGuarded() <==> log.Repeats() == 0
  {
    if log.Then? {
      EachWriteGuardedIff(log.earlier);
    }
  }

  // One setter operation: time does not run back, at most one operation is logged, and it is guarded
  // if the caller has just checked the identity.
  ghost predicate SetterCall(env: Env, x: Ctx, y: Ctx) {
    && x.now <= y.now
    && y.log.Refusals() == x.log.Refusals()
    && x.log.Repeats() <= y.log.Repeats()
    && x.log.Mutations() <= y.log.Mutations() <= x.log.Mutations() + 1
    && (x.log.Guarded() && x.log.Checked(env.id) ==> y.log.Guarded())
  }

  // is_current_task_identity: both start times and the thread group still match.
  function CheckIdentity(env: Env, x: Ctx): (s: Step)
    ensures s.x.k == x.k && s.x.now == x.now + 1
    ensures s.ok == env.Alive(x.now)
    ensures if s.ok then s.x.log.Checked(env.id) else s.x.log.Refused()
    ensures s.x.log.Mutations() == x.log.Mutations() && s.x.log.Repeats() == x.log.Repeats()
    ensures s.x.log.Refusals() == x.log.Refusals() + (if s.ok then 0 else 1)
    ensures s.x.log.Guarded() == x.log.Guarded()
  {
    Step(x.Called(Identity(env.id, env.Alive(x.now))).Ticked(x.k), env.Alive(x.now))
  }

  // Reading /proc or a scheduler getter changes nothing.
  function ReadCall(env: Env, x: Ctx): (y: Ctx)
    ensures y.k == x.k && y.now == x.now + 1
    ensures y.log.Mutations() == x.log.Mutations() && y.log.Repeats() == x.log.Repeats()
    ensures y.log.Refusals() == x.log.Refusals()
    ensures y.log.Guarded() == x.log.Guarded()
  {
    x.Called(Read(env.id)).Ticked(x.k)
  }

  // sched_setaffinity. The kernel intersects the request with the CPUs of the thread's cpuset and
  // refuses an empty result. An empty request makes no call and succeeds.
  function SetAffinity(env: Env, x: Ctx, cpus: set<int>): (s: Step)
    ensures s.x.k == x.k.(affinity := s.x.k.affinity) && SetterCall(env, x, s.x)
    ensures cpus != {} && s.ok ==> s.x.k.affinity == cpus * env.allowed(x.k.cpuset)
    ensures s.x.log.Repeats() == x.log.Repeats()
    ensures cpus != {} ==> s.x.log.Mutations() == x.log.Mutations() + 1
  {
    if cpus == {} then Step(x, true)
    else
      var y := x.Called(Affinity(env.id, cpus));
      var o := env.outcome(x.now);
      var effective := cpus * env.allowed(x.k.cpuset);
      if !env.Alive(x.now) then Step(y.Ticked(x.k), false)
      else if o.ok && effective != {} then Step(y.Ticked(x.k.(affinity := effective)), true)
      else Step(y.Ticked(x.k.(affinity := o.affinity)), false)
  }

  function KernelPath(root: string, dir: string): string {
    if root <= dir then dir[|root|..] else ""
  }

  lemma KernelPathOf(root: string, path: string)
    ensures KernelPath(root, root + path) == path
  {
    assert (root + path)[|root|..] == path;
  }

  // One write of the TID to `dir`/tasks of the cpuset hierarchy. Moving a thread makes the kernel
  // recompute its affinity, so the affinity afterwards may be anything, also on failure.
  function WriteCpuset(env: Env, x: Ctx, dir: string): (s: Step)
    ensures s.x.k == x.k.(affinity := s.x.k.affinity, cpuset := s.x.k.cpuset) && x.now <= s.x.now
    ensures s.x.log == x.log
    ensures s.ok ==> s.x.k.cpuset == KernelPath(CPUSET_ROOT, dir)
  {
    var o := env.outcome(x.now);
    if !env.Alive(x.now) then Step(x.Ticked(x.k), false)
    else if o.ok then
      Step(x.Ticked(x.k.(cpuset := KernelPath(CPUSET_ROOT, dir), affinity := o.affinity)), true)
    else Step(x.Ticked(x.k.(cpuset := o.cpuset, affinity := o.affinity)), false)
  }

  // Up to `tries` writes, with no identity check between them.
  function WriteCpusetRetrying(env: Env, x: Ctx, dir: string, tries: nat): (s: Step)
    ensures s.x.k == x.k.(affinity := s.x.k.affinity, cpuset := s.x.k.cpuset) && x.now <= s.x.now
    ensures s.x.log.Mutations() == x.log.Mutations() && s.x.log.Refusals() == x.log.Refusals()
    ensures x.log.Repeats() <= s.x.log.Repeats() && (x.log.Repeats() == s.x.log.Repeats() ==> s.x.log == x.log)
    ensures x.log.Repeats() == s.x.log.Repeats() <==> tries <= 1 || WriteCpuset(env, x, dir).ok
    ensures s.x.log.Repeats() <= x.log.Repeats() + tries
    ensures !s.ok && tries > 0 ==> s.x.log.Repeats() == x.log.Repeats() + tries - 1
    ensures x.log.Guarded() && x.log.Wrote() ==> s.x.log.Guarded()
    ensures s.ok ==> s.x.k.cpuset == KernelPath(CPUSET_ROOT, dir)
    decreases tries
  {
    if tries == 0 then Step(x, false)
    else
      var s := WriteCpuset(env, x, dir);
      if s.ok || tries == 1 then s else WriteCpusetRetrying(env, s.x.Called(Again(env.id)), dir, tries - 1)
  }

  // restore_cpuset_cgroup and move_to_top_app_parent: a single write.
  function MoveCpuset(env: Env, x: Ctx, dir: string): (s: Step)
    ensures s.x.k == x.k.(affinity := s.x.k.affinity, cpuset := s.x.k.cpuset) && SetterCall(env, x, s.x)
    ensures s.x.log.Repeats() == x.log.Repeats()
    ensures s.ok ==> s.x.k.cpuset == KernelPath(CPUSET_ROOT, dir)
  {
    WriteCpuset(env, x.Called(Cpuset(env.id, dir)), dir)
  }

  // move_to_cpuset_cgroup: refused while the group is not ready, otherwise up to `tries` writes.
  // A write is repeated exactly if there is a second try and the first write fails, and a move to a
  // ready group fails only after all tries.
  function MoveToMask(env: Env, x: Ctx, dir: string, tries: nat): (s: Step)
    ensures s.x.k == x.k.(affinity := s.x.k.affinity, cpuset := s.x.k.cpuset) && SetterCall(env, x, s.x)
    ensures s.x.log.Repeats() <= x.log.Repeats() + tries
    ensures !s.ok && tries > 0 && env.outcome(x.now).groupReady ==> s.x.log.Repeats() == x.log.Repeats() + tries - 1
    ensures s.x.log.Repeats() == x.log.Repeats() <==>
      !env.outcome(x.now).groupReady || tries <= 1 || (env.Alive(x.now) && env.outcome(x.now).ok)
    ensures s.ok ==> s.x.k.cpuset == KernelPath(CPUSET_ROOT, dir)
  {
    var y := x.Called(Cpuset(env.id, dir));
    if !env.outcome(x.now).groupReady then Step(y.Ticked(x.k), false)
    else WriteCpusetRetrying(env, y, dir, tries)
  }

  // A write of the TID to `dir`/tasks of the cpuctl hierarchy.
  function MoveCpuctl(env: Env, x: Ctx, dir: string): (s: Step)
    ensures s.x.k == x.k.(cpuctl := s.x.k.cpuctl) && SetterCall(env, x, s.x)
    ensures s.x.log.Repeats() == x.log.Repeats()
    ensures s.ok ==> s.x.k.cpuctl == KernelPath(CPUCTL_ROOT, dir)
  {
    var y := x.Called(Cpuctl(env.id, dir));
    var o := env.outcome(x.now);
    if !env.Alive(x.now) then Step(y.Ticked(x.k), false)
    else if o.ok then Step(y.Ticked(x.k.(cpuctl := KernelPath(CPUCTL_ROOT, dir))), true)
    else Step(y.Ticked(x.k.(cpuctl := o.cpuctl)), false)
  }

  // sched_setscheduler keeps the nice value.
  function SetPolicy(env: Env, x: Ctx, policy: int, rtPriority: int): (s: Step)
    ensures s.x.k == x.k.(sched := s.x.k.sched) && x.now <= s.x.now && s.x.log == x.log
    ensures s.ok ==> s.x.k.sched == Sched(policy, rtPriority, x.k.sched.nice)
  {
    var o := env.outcome(x.now);
    if !env.Alive(x.now) then Step(x.Ticked(x.k), false)
    else if o.ok then Step(x.Ticked(x.k.(sched := Sched(policy, rtPriority, x.k.sched.nice))), true)
    else Step(x.Ticked(x.k.(sched := o.sched)), false)
  }

  // setpriority
  function SetNice(env: Env, x: Ctx, nice: int): (s: Step)
    ensures s.x.k == x.k.(sched := s.x.k.sched) && x.now <= s.x.now && s.x.log == x.log
    ensures s.ok ==> s.x.k.sched == x.k.sched.(nice := nice)
  {
    var o := env.outcome(x.now);
    if !env.Alive(x.now) then Step(x.Ticked(x.k), false)
    else if o.ok then Step(x.Ticked(x.k.(sched := x.k.sched.(nice := nice))), true)
    else Step(x.Ticked(x.k.(sched := o.sched)), false)
  }

  // restore_scheduler: policy first, nice only where it counts. Afterwards the thread compares
  // equal to the state asked for.
  function RestoreSched(env: Env, x: Ctx, to: Sched): (s: Step)
    ensures s.x.k == x.k.(sched := s.x.k.sched) && SetterCall(env, x, s.x)
    ensures s.ok ==> SameSched(s.x.k.sched, to)
    ensures s.x.log.Repeats() == x.log.Repeats() <==>
      to.policy < 0 || !NiceCounts(to.policy) || !env.Alive(x.now) || !env.outcome(x.now).ok
  {
    if to.policy < 0 then Step(x, false)
    else
      var s := SetPolicy(env, x.Called(Scheduler(env.id)), to.policy, to.rtPriority);
      if s.ok && NiceCounts(to.policy) then SetNice(env, s.x.Called(Again(env.id)), to.nice) else s
  }

  predicate ValidPrio(prio: int) {
    1 <= prio <= 98 || 100 <= prio <= 139 || prio == -1 || prio == -2 || prio == -3
  }

  function ExpectedPolicy(prio: int): Option<int> {
    if 1 <= prio <= 98 then Some(SCHED_FIFO)
    else if 100 <= prio <= 139 || prio == -1 then Some(SCHED_NORMAL)
    else if prio == -2 then Some(SCHED_BATCH)
    else if prio == -3 then Some(SCHED_IDLE)
    else None
  }

  // PrioritySetter::get_current_sched folds nice into the priority where nice counts.
  function CurrentPrio(s: Sched): int {
    if NiceCounts(s.policy) then s.nice + 120 else s.rtPriority
  }

  // PrioritySetter::is_sched_changed on a readable thread.
  predicate SchedDrifted(s: Sched, prio: int) {
    (ExpectedPolicy(prio).Some? && s.policy != ExpectedPolicy(prio).value)
    || ((1 <= prio <= 98 || 100 <= prio <= 139) && CurrentPrio(s) != prio)
  }

  // PrioritySetter::set_priority. A successful call leaves no drift against `prio`.
  function SetPriority(env: Env, x: Ctx, prio: int): (s: Step)
    ensures s.x.k == x.k.(sched := s.x.k.sched) && SetterCall(env, x, s.x)
    ensures s.ok && prio != 0 ==> !SchedDrifted(s.x.k.sched, prio)
    ensures prio == 0 ==> s == Step(x, true)
    ensures s.x.log.Repeats() == x.log.Repeats() <==>
      !(100 <= prio <= 139) || !env.Alive(x.now) || !env.outcome(x.now).ok
  {
    var y := x.Called(Scheduler(env.id));
    if prio == 0 then Step(x, true)
    else if 1 <= prio <= 98 then SetPolicy(env, y, SCHED_FIFO, prio)
    else if 100 <= prio <= 139 then
      var s := SetPolicy(env, y, SCHED_NORMAL, 0);
      if s.ok then SetNice(env, s.x.Called(Again(env.id)), prio - 120) else s
    else if prio == -1 then SetPolicy(env, y, SCHED_NORMAL, 0)
    else if prio == -2 then SetPolicy(env, y, SCHED_BATCH, 0)
    else if prio == -3 then SetPolicy(env, y, SCHED_IDLE, 0)
    else Step(x, false)
  }

  // The table of priority values: what a successful call leaves, and what counts as no drift. Any
  // other value is refused without a call.
  lemma PriorityMeans(env: Env, x: Ctx, prio: int, seen: Sched)
    ensures var s, was := SetPriority(env, x, prio), x.k.sched;
      && (s.ok && 1 <= prio <= 98 ==> s.x.k.sched == Sched(1, prio, was.nice))
      && (s.ok && 100 <= prio <= 139 ==> s.x.k.sched == Sched(0, 0, prio - 120))
      && (s.ok && prio == -1 ==> s.x.k.sched == Sched(0, 0, was.nice))
      && (s.ok && prio == -2 ==> s.x.k.sched == Sched(3, 0, was.nice))
      && (s.ok && prio == -3 ==> s.x.k.sched == Sched(5, 0, was.nice))
      && (prio == 0 || prio == 99 || prio < -3 || prio > 139 ==> s == Step(x, prio == 0))
    ensures !SchedDrifted(seen, prio) <==>
      && (1 <= prio <= 98 ==> seen.policy == 1 && seen.rtPriority == prio)
      && (100 <= prio <= 139 ==> seen.policy == 0 && seen.nice == prio - 120)
      && (prio == -1 ==> seen.policy == 0) && (prio == -2 ==> seen.policy == 3) && (prio == -3 ==> seen.policy == 5)
  {
  }

  // Giving a scheduler state back: the policy and priority always, nice under the three policies that use it.
  lemma RestoredSchedMeans(env: Env, x: Ctx, to: Sched)
    ensures var s := RestoreSched(env, x, to);
      && (s.ok ==> to.policy >= 0 && s.x.k.sched == Sched(to.policy, to.rtPriority,
                                                          if to.policy in {0, 3, 5} then to.nice else x.k.sched.nice))
      && (to.policy < 0 ==> s == Step(x, false))
  {
  }
}
