// What the recovery and the second attempt of a take-over are for: once calls succeed again, a move
// that failed before does not matter.
module TakeoverRecovery {
  import opened Types
  import opened Kernel
  import opened Takeover
  import opened Engine
  import opened Convergence

  // The group shares a CPU with the mask.
  predicate Possible(env: Env, t: Target) {
    t.cpus != {} && t.tries > 0 && t.cpus * env.allowed(KernelPath(CPUSET_ROOT, t.dir)) != {}
  }

  lemma CalmMove(env: Env, x: Ctx, dir: string, tries: nat)
    requires Calm(env, x.now) && tries > 0
    ensures var s := MoveToMask(env, x, dir, tries); s.ok && s.x.k.cpuset == KernelPath(CPUSET_ROOT, dir)
  {
    assert env.outcome(x.now).groupReady && env.outcome(x.now).ok;
  }

  // Wherever the first move left the thread, the recovery brings it into the group.
  lemma CalmRecover(env: Env, t: Target, x: Ctx)
    requires Calm(env, x.now) && t.tries > 0
    ensures var s := Recover(env, t, x); s.ok && s.x.k.cpuset == KernelPath(CPUSET_ROOT, t.dir)
  {
    hide MoveToMask, SetAffinity, MoveCpuset;
    var a1 := SetAffinity(env, CheckIdentity(env, x).x, t.cpus);
    var p := MoveCpuset(env, CheckIdentity(env, a1.x).x, CPUSET_PARENT);
    var a2 := SetAffinity(env, CheckIdentity(env, p.x).x, t.cpus);
    CalmMove(env, CheckIdentity(env, a2.x).x, t.dir, t.tries);
  }

  // Where the first move of an attempt ends.
  function FirstMove(env: Env, t: Target, x: Ctx): Step {
    MoveToMask(env, CheckIdentity(env, SetAffinity(env, x, t.cpus).x).x, t.dir, t.tries)
  }

  // An attempt whose first move failed, or not, and in which every later call succeeds: the thread ends
  // in the group on the CPUs of the mask that the group allows, and it counts as a success exactly if
  // these are all.
  lemma AttemptRecovers(env: Env, t: Target, x: Ctx)
    requires x.log.Checked(env.id) && env.born <= x.now && Possible(env, t) && Calm(env, FirstMove(env, t, x).x.now)
    ensures var a, allowed := RunAttempt(env, t, x), env.allowed(KernelPath(CPUSET_ROOT, t.dir));
      && a.verdict == Some(Verdict(true, t.cpus <= allowed))
      && a.x.k == x.k.(cpuset := KernelPath(CPUSET_ROOT, t.dir), affinity := t.cpus * allowed)
  {
    hide MoveToMask, Recover;
    var allowed := env.allowed(KernelPath(CPUSET_ROOT, t.dir));
    assert t.cpus <= allowed <==> t.cpus * allowed == t.cpus;
    var i1 := CheckIdentity(env, SetAffinity(env, x, t.cpus).x);
    var first := FirstMove(env, t, x);
    if !first.ok { CalmRecover(env, t, first.x); }
    var moved := MoveOrRecover(env, t, i1.x);
    assert moved.ok && moved.x.k.cpuset == KernelPath(CPUSET_ROOT, t.dir) && first.x.now <= moved.x.now;
    var i2 := CheckIdentity(env, moved.x);
    assert env.outcome(i2.x.now).ok;
    var post := SetAffinity(env, i2.x, t.cpus);
    var i3 := CheckIdentity(env, post.x);
    assert env.outcome(i3.x.now).readsCgroup && env.outcome(i3.x.now + 1).readsAffinity;
  }

  // So a take-over of which every call after the first move succeeds, succeeds exactly if the group
  // allows the whole mask, whatever the bound on the attempts.
  lemma TakeoverRecovers(env: Env, t: Target, x: Ctx, maxAttempts: nat)
    requires maxAttempts > 0 && env.born <= x.now && Possible(env, t)
    requires Calm(env, FirstMove(env, t, CheckIdentity(env, x).x).x.now)
    ensures var out, allowed := RunTakeover(env, t, x, maxAttempts), env.allowed(KernelPath(CPUSET_ROOT, t.dir));
      && (out.flags.Success() <==> t.cpus <= allowed)
      && out.x.k == x.k.(cpuset := KernelPath(CPUSET_ROOT, t.dir), affinity := t.cpus * allowed)
  {
    hide RunAttempt, FirstMove;
    var r := Taken(x, 0, Verdict(false, false), None);
    var i := CheckIdentity(env, x);
    AttemptRecovers(env, t, i.x);
    var a := RunAttempt(env, t, i.x);
    FirstMoveEarlier(env, t, i.x);
    var next := Taken(a.x, 1, a.verdict.value, a.verdict);
    assert RunFrom(env, t, r, maxAttempts) == RunFrom(env, t, next, maxAttempts - 1);
    if maxAttempts > 1 && !next.flags.Success() { CalmTakeover(env, t, next, maxAttempts - 1); }
  }

  lemma FirstMoveEarlier(env: Env, t: Target, x: Ctx)
    requires x.log.Checked(env.id)
    ensures RunAttempt(env, t, x).verdict.Some? ==> FirstMove(env, t, x).x.now <= RunAttempt(env, t, x).x.now
  {
    hide MoveToMask, SetAffinity, Recover;
  }

  // What the two verifications say at the end of an attempt: each dimension is where it should be and could
  // be read.
  lemma VerdictMeans(env: Env, t: Target, x: Ctx)
    requires x.log.Checked(env.id) && RunAttempt(env, t, x).verdict.Some? && env.Alive(RunAttempt(env, t, x).x.now)
    ensures var a := RunAttempt(env, t, x);
      && a.x.now >= 2
      && (a.verdict.value.cpuset <==>
            env.outcome(a.x.now - 2).readsCgroup && a.x.k.cpuset == KernelPath(CPUSET_ROOT, t.dir))
      && (a.verdict.value.affinity <==>
            t.cpus != {} && env.outcome(a.x.now - 1).readsAffinity && a.x.k.affinity == t.cpus)
  {
    hide MoveToMask, SetAffinity, Recover, KernelPath, GuardedRun, SetterCall;
  }

  // ---- Later attempts ------------------------------------------------------------------------------------

  // A sequence that was not cut short goes on where it stopped.
  lemma {:induction false} RunSplits(env: Env, t: Target, r: Taken, first: nat, more: nat)
    requires r.flags.Success() <==> r.last == Some(Verdict(true, true))
    requires RunFrom(env, t, r, first).attempts == r.attempts + first && (first > 0 ==> RunFrom(env, t, r, first).last.Some?)
    ensures RunFrom(env, t, r, first + more) == RunFrom(env, t, RunFrom(env, t, r, first), more)
    decreases first
  {
    hide RunAttempt, GuardedRun;
    if first > 0 {
      var i := CheckIdentity(env, r.x);
      var a := RunAttempt(env, t, i.x);
      var next := Taken(a.x, r.attempts + 1, a.verdict.value, a.verdict);
      assert RunFrom(env, t, r, first) == RunFrom(env, t, next, first - 1);
      RunSplits(env, t, next, first - 1, more);
      assert RunFrom(env, t, r, first + more) == RunFrom(env, t, next, first - 1 + more);
    }
  }

  // Failed attempts are made good by a later one, if there is one and every call of it succeeds.
  lemma LaterAttemptSucceeds(env: Env, t: Target, x: Ctx, failed: nat, maxAttempts: nat)
    requires failed < maxAttempts && Possible(env, t)
    requires var r := RunTakeover(env, t, x, failed);
      r.attempts == failed && (failed > 0 ==> r.last.Some?) && !r.flags.Success() && Calm(env, r.x.now)
    ensures var out, allowed := RunTakeover(env, t, x, maxAttempts), env.allowed(KernelPath(CPUSET_ROOT, t.dir));
      && (out.flags.Success() <==> t.cpus <= allowed)
      && out.x.k == x.k.(cpuset := KernelPath(CPUSET_ROOT, t.dir), affinity := t.cpus * allowed)
  {
    hide RunFrom;
    var r := RunTakeover(env, t, x, failed);
    RunSplits(env, t, Taken(x, 0, Verdict(false, false), None), failed, maxAttempts - failed);
    CalmTakeover(env, t, r, maxAttempts - failed);
  }

  // The setter makes two attempts: a first one that ran to its end and failed is made good.
  lemma ApplyTriesAgain(env: Env, d: Demand, x: Ctx)
    requires d.matched && d.affinity && env.Alive(x.now) && Possible(env, d.target)
    requires var a := RunAttempt(env, d.target, CheckIdentity(env, x).x);
      a.verdict.Some? && !a.verdict.value.Success() && Calm(env, a.x.now)
    ensures ApplyAffinity(env, d, x).ok <==> MaskAllowed(env, d)
  {
    hide RunAttempt;
    var t, r := d.target, Taken(x, 0, Verdict(false, false), None);
    var a := RunAttempt(env, t, CheckIdentity(env, x).x);
    assert RunFrom(env, t, r, 1) == RunFrom(env, t, Taken(a.x, 1, a.verdict.value, a.verdict), 0);
    LaterAttemptSucceeds(env, t, x, 1, 2);
  }
}
