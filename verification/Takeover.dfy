// CpusetSetter::run_takeover_sequence: push a thread into its cpuset group and onto its CPUs,
// checking the thread's identity before every state-changing operation.
module Takeover {
  import opened Types
  import opened Kernel

  // What to take over: the group directory, the CPU mask and the write retries of the setter.
  datatype Target = Target(dir: string, cpus: set<int>, tries: nat)

  // One attempt: the state it ended in and, unless an identity check cut it short, what the two
  // verifications said.
  datatype Attempt = Attempt(x: Ctx, verdict: Option<Verdict>)

  datatype Verdict = Verdict(cpuset: bool, affinity: bool)
  {
    predicate Success() { cpuset && affinity }
  }

  // A stretch of guarded operations that a failed identity check ends: at most `bound` of them, and a
  // failed check, if there was one, is the last call of the stretch.
  ghost predicate GuardedRun(x: Ctx, y: Ctx, bound: nat) {
    && x.now <= y.now
    && (x.log.Guarded() ==> y.log.Guarded())
    && x.log.Mutations() <= y.log.Mutations() <= x.log.Mutations() + bound
    && x.log.Repeats() <= y.log.Repeats()
    && x.log.Refusals() <= y.log.Refusals() <= x.log.Refusals() + 1
    && (y.log.Refusals() == x.log.Refusals() + 1 ==> y.log.Refused())
  }

  predicate CpusetReads(env: Env, x: Ctx, dir: string) {
    env.Alive(x.now) && env.outcome(x.now).readsCgroup && x.k.cpuset == KernelPath(CPUSET_ROOT, dir)
  }

  // !CpuMask::is_affinity_changed
  predicate AffinityReads(env: Env, x: Ctx, cpus: set<int>) {
    cpus != {} && env.Alive(x.now) && env.outcome(x.now).readsAffinity && x.k.affinity == cpus
  }

  // The four recovery calls after the first move failed. `None` when an identity check failed.
  function Recover(env: Env, t: Target, x: Ctx): (s: Step)
    ensures s.x.k == x.k.(affinity := s.x.k.affinity, cpuset := s.x.k.cpuset) && GuardedRun(x, s.x, 4)
    ensures s.x.log.Repeats() <= x.log.Repeats() + t.tries
    ensures s.ok <==> s.x.log.Refusals() == x.log.Refusals()
  {
    var i1 := CheckIdentity(env, x);
    if !i1.ok then i1 else
    var a1 := SetAffinity(env, i1.x, t.cpus);
    var i2 := CheckIdentity(env, a1.x);
    if !i2.ok then i2 else
    var p := MoveCpuset(env, i2.x, CPUSET_PARENT);
    var i3 := CheckIdentity(env, p.x);
    if !i3.ok then i3 else
    var a2 := SetAffinity(env, i3.x, t.cpus);
    var i4 := CheckIdentity(env, a2.x);
    if !i4.ok then i4 else
    Step(MoveToMask(env, i4.x, t.dir, t.tries).x, true)
  }

  // The move to the group, with the recovery if it fails. Not ok means an identity check failed.
  function MoveOrRecover(env: Env, t: Target, x: Ctx): (s: Step)
    requires x.log.Checked(env.id)
    ensures s.x.k == x.k.(affinity := s.x.k.affinity, cpuset := s.x.k.cpuset) && GuardedRun(x, s.x, 5)
    ensures s.x.log.Repeats() <= x.log.Repeats() + 2 * t.tries
    ensures s.ok <==> s.x.log.Refusals() == x.log.Refusals()
  {
    var first := MoveToMask(env, x, t.dir, t.tries);
    if first.ok then first else Recover(env, t, first.x)
  }

  function RunAttempt(env: Env, t: Target, x: Ctx): (a: Attempt)
    requires x.log.Checked(env.id)
    ensures a.x.k == x.k.(affinity := a.x.k.affinity, cpuset := a.x.k.cpuset) && GuardedRun(x, a.x, 7)
    ensures a.x.log.Repeats() <= x.log.Repeats() + 2 * t.tries
    ensures t.cpus != {} ==> a.x.log.Mutations() > x.log.Mutations()
    ensures a.verdict.Some? <==> a.x.log.Refusals() == x.log.Refusals()
    ensures a.verdict.Some? && a.verdict.value.Success() ==>
      a.x.k.cpuset == KernelPath(CPUSET_ROOT, t.dir) && a.x.k.affinity == t.cpus
  {
    var pre := SetAffinity(env, x, t.cpus);
    var i1 := CheckIdentity(env, pre.x);
    if !i1.ok then Attempt(i1.x, None) else
    var moved := MoveOrRecover(env, t, i1.x);
    if !moved.ok then Attempt(moved.x, None) else
    var i2 := CheckIdentity(env, moved.x);
    if !i2.ok then Attempt(i2.x, None) else
    var post := SetAffinity(env, i2.x, t.cpus);
    var i3 := CheckIdentity(env, post.x);
    if !i3.ok then Attempt(i3.x, None) else
    var r1 := ReadCall(env, i3.x);
    var r2 := ReadCall(env, r1);
    Attempt(r2, Some(Verdict(CpusetReads(env, i3.x, t.dir), AffinityReads(env, r1, t.cpus))))
  }

  // The whole sequence: `flags` is what the two verifications said when they last ran, `last` what
  // they said in the last attempt started, `None` if an identity check cut that attempt short.
  datatype Taken = Taken(x: Ctx, attempts: nat, flags: Verdict, last: Option<Verdict>)

  // The attempts from `r` on, with `left` attempts remaining.
  function RunFrom(env: Env, t: Target, r: Taken, left: nat): (out: Taken)
    requires r.flags.Success() <==> r.last == Some(Verdict(true, true))
    ensures out.x.k == r.x.k.(affinity := out.x.k.affinity, cpuset := out.x.k.cpuset)
    ensures r.attempts <= out.attempts <= r.attempts + left
    ensures GuardedRun(r.x, out.x, 7 * (out.attempts - r.attempts))
    ensures t.cpus != {} && out.attempts > r.attempts ==> out.x.log.Mutations() > r.x.log.Mutations()
    ensures out.flags.Success() <==> out.last == Some(Verdict(true, true))
    ensures out.flags.Success() && !r.flags.Success() ==>
      out.x.k.cpuset == KernelPath(CPUSET_ROOT, t.dir) && out.x.k.affinity == t.cpus
    decreases left
  {
    if left == 0 || r.flags.Success() then r
    else
      var i := CheckIdentity(env, r.x);
      if !i.ok then r.(x := i.x)
      else
        var a := RunAttempt(env, t, i.x);
        if a.verdict.None? then Taken(a.x, r.attempts + 1, r.flags, None)
        else RunFrom(env, t, Taken(a.x, r.attempts + 1, a.verdict.value, a.verdict), left - 1)
  }

  const MAX_ATTEMPTS := 2

  // run_takeover_sequence with any bound on the attempts.
  function RunTakeover(env: Env, t: Target, x: Ctx, maxAttempts: nat): (out: Taken)
    ensures out.x.k == x.k.(affinity := out.x.k.affinity, cpuset := out.x.k.cpuset)
    ensures out.attempts <= maxAttempts
    ensures GuardedRun(x, out.x, 7 * out.attempts)
    ensures t.cpus != {} && out.attempts > 0 ==> out.x.log.Mutations() > x.log.Mutations()
    ensures maxAttempts > 0 && env.Alive(x.now) ==> out.attempts > 0
    ensures out.flags.Success() <==> out.last == Some(Verdict(true, true))
    ensures out.flags.Success() ==>
      out.x.k.cpuset == KernelPath(CPUSET_ROOT, t.dir) && out.x.k.affinity == t.cpus
  {
    RunFrom(env, t, Taken(x, 0, Verdict(false, false), None), maxAttempts)
  }
}
