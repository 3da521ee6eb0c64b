// What a dispatch achieves when every call works from now on, whatever went wrong before.
module Convergence {
  import opened Types
  import opened Kernel
  import opened Takeover
  import opened Engine
  import opened Restorability

  // From `from` on every call and every read succeeds, and the thread lives on.
  ghost predicate Calm(env: Env, from: nat) {
    && env.dies.None? && env.born <= from
    && forall t :: from <= t ==> var o := env.outcome(t);
        o.ok && o.readsAffinity && o.readsSched && o.readsCgroup && o.groupReady
  }

  // What the parsed configuration gives the setters, and a group that shares a CPU with the mask.
  predicate Feasible(env: Env, d: Demand) {
    && (d.affinity ==> d.target.cpus != {} && d.target.tries > 0)
    && (d.affinity ==> d.target.cpus * env.allowed(KernelPath(CPUSET_ROOT, d.target.dir)) != {})
    && (d.prio != 0 ==> ValidPrio(d.prio))
    && (d.limit ==> d.index >= 0)
  }

  // The group lets a thread use all CPUs of the mask.
  predicate MaskAllowed(env: Env, d: Demand) {
    d.affinity ==> d.target.cpus <= env.allowed(KernelPath(CPUSET_ROOT, d.target.dir))
  }

  // The kernel shows something in every dimension, so each can be captured.
  predicate Visible(k: KThread) {
    k.cpuset != "" && k.affinity != {} && k.cpuctl != "" && k.sched.policy >= 0
  }

  // The dimensions the demand manages pass their drift checks.
  predicate Passes(d: Demand, k: KThread) {
    && (d.affinity ==> k.cpuset == KernelPath(CPUSET_ROOT, d.target.dir) && k.affinity == d.target.cpus)
    && (d.prio != 0 ==> !SchedDrifted(k.sched, d.prio))
    && (d.limit ==> k.cpuctl == KernelPath(CPUCTL_ROOT, d.cpuctlDir))
  }

  // The dimensions neither demanded nor managed are at their originals.
  predicate RestHome(d: Demand, m: Managed, k: KThread, o: KThread) {
    && (!d.affinity && !m.affinity ==> AffinityHome(k, o))
    && (d.prio == 0 && !m.priority ==> SchedHome(k, o))
    && (!d.limit && !m.cpuctl ==> CpuctlHome(k, o))
  }

  // The demand is met: managed dimensions pass, every other one is at its original.
  predicate Met(d: Demand, k: KThread, o: KThread) { Passes(d, k) && RestHome(d, UNMANAGED, k, o) }

  // ---- Applying ------------------------------------------------------------------------------------

  // An attempt ends in the group on the CPUs of the mask that the group allows, and counts as a
  // success exactly if these are all.
  lemma CalmAttempt(env: Env, t: Target, x: Ctx)
    requires Calm(env, x.now) && x.log.Checked(env.id)
    requires t.cpus != {} && t.tries > 0 && t.cpus * env.allowed(KernelPath(CPUSET_ROOT, t.dir)) != {}
    ensures var a, allowed := RunAttempt(env, t, x), env.allowed(KernelPath(CPUSET_ROOT, t.dir));
      && a.verdict == Some(Verdict(true, t.cpus <= allowed))
      && a.x.k == x.k.(cpuset := KernelPath(CPUSET_ROOT, t.dir), affinity := t.cpus * allowed)
  {
    var allowed := env.allowed(KernelPath(CPUSET_ROOT, t.dir));
    assert t.cpus <= allowed <==> t.cpus * allowed == t.cpus;
    var pre := SetAffinity(env, x, t.cpus);
    var i1 := CheckIdentity(env, pre.x);
    var y := i1.x.Called(Cpuset(env.id, t.dir));
    assert env.outcome(i1.x.now).groupReady;
    assert env.outcome(y.now).ok;
    assert WriteCpusetRetrying(env, y, t.dir, t.tries).ok;
    var first := MoveToMask(env, i1.x, t.dir, t.tries);
    var i2 := CheckIdentity(env, first.x);
    assert env.outcome(i2.x.now).ok;
    var post := SetAffinity(env, i2.x, t.cpus);
    var i3 := CheckIdentity(env, post.x);
    assert env.outcome(i3.x.now).readsCgroup;
    assert env.outcome(i3.x.now + 1).readsAffinity;
  }

  lemma {:induction false} CalmTakeover(env: Env, t: Target, r: Taken, left: nat)
    requires Calm(env, r.x.now) && left > 0 && !r.flags.Success() && r.last != Some(Verdict(true, true))
    requires t.cpus != {} && t.tries > 0 && t.cpus * env.allowed(KernelPath(CPUSET_ROOT, t.dir)) != {}
    ensures var out, allowed := RunFrom(env, t, r, left), env.allowed(KernelPath(CPUSET_ROOT, t.dir));
      && (out.flags.Success() <==> t.cpus <= allowed) && out.attempts > r.attempts
      && out.x.k == r.x.k.(cpuset := KernelPath(CPUSET_ROOT, t.dir), affinity := t.cpus * allowed)
    decreases left
  {
    hide RunAttempt;
    var i := CheckIdentity(env, r.x);
    CalmAttempt(env, t, i.x);
    var a := RunAttempt(env, t, i.x);
    var next := Taken(a.x, r.attempts + 1, a.verdict.value, a.verdict);
    assert RunFrom(env, t, r, left) == RunFrom(env, t, next, left - 1);
    if left > 1 && !next.flags.Success() { CalmTakeover(env, t, next, left - 1); }
  }

  lemma CalmApplyAffinity(env: Env, d: Demand, x: Ctx)
    requires Calm(env, x.now) && Feasible(env, d) && d.matched && d.affinity
    ensures var s, dir := ApplyAffinity(env, d, x), KernelPath(CPUSET_ROOT, d.target.dir);
      && (s.ok <==> MaskAllowed(env, d))
      && s.x.k == x.k.(cpuset := dir, affinity := d.target.cpus * env.allowed(dir))
      && s.x.log.Mutations() > x.log.Mutations()
  {
    CalmTakeover(env, d.target, Taken(x, 0, Verdict(false, false), None), MAX_ATTEMPTS);
  }

  lemma CalmSetPriority(env: Env, x: Ctx, prio: int)
    requires Calm(env, x.now) && ValidPrio(prio)
    ensures SetPriority(env, x, prio).ok
  {
    assert env.outcome(x.now).ok && env.outcome(x.now + 1).ok;
  }

  // Nothing is managed that the demand does not ask for.
  predicate NoneElse(m: Managed, d: Demand) {
    (m.affinity ==> d.affinity) && (m.priority ==> d.prio != 0) && (m.cpuctl ==> d.limit)
  }

  function Demanded(d: Demand): Managed { Managed(d.affinity, d.prio != 0, d.limit) }

  // The three setters: every demanded dimension ends where it can, no other one moves.
  lemma CalmApplyAll(env: Env, d: Demand, o: KThread, x: Ctx)
    requires Calm(env, x.now) && Feasible(env, d) && d.matched
    ensures var t := ApplyAll(env, d, x);
      && t.there && (t.complete <==> MaskAllowed(env, d))
      && (Met(d, t.x.k, o) <==> MaskAllowed(env, d) && RestHome(d, UNMANAGED, x.k, o))
      && (d.affinity ==> t.x.log.Mutations() > x.log.Mutations())
      && (d.affinity && !MaskAllowed(env, d) ==> t.x.k.affinity != d.target.cpus)
  {
    hide RunTakeover;
    if d.affinity {
      CalmApplyAffinity(env, d, x);
      var allowed := env.allowed(KernelPath(CPUSET_ROOT, d.target.dir));
      assert d.target.cpus <= allowed <==> d.target.cpus * allowed == d.target.cpus;
    }
    var a := ApplyAffinity(env, d, x);
    var i1 := CheckIdentity(env, a.x);
    if d.prio != 0 { CalmSetPriority(env, i1.x, d.prio); }
    var p := SetPriority(env, i1.x, d.prio);
    var i2 := CheckIdentity(env, p.x);
    assert env.outcome(i2.x.now).ok;
    hide ApplyAffinity, SetPriority;
  }

  // ---- Giving back ---------------------------------------------------------------------------------

  lemma CalmRestoreAffinity(env: Env, x: Ctx, b: Baseline)
    requires Calm(env, x.now)
    requires b.affinity.Some? ==> b.affinity.value * env.allowed(
        if b.cpuset.Some? then KernelPath(CPUSET_ROOT, b.cpuset.value) else x.k.cpuset) != {}
    ensures RestoreAffinity(env, x, b).ok
  {
    var i := CheckIdentity(env, x);
    assert env.outcome(i.x.now).ok;
    var c := if b.cpuset.None? then Step(x, true) else MoveCpuset(env, i.x, b.cpuset.value);
    var j := CheckIdentity(env, c.x);
    assert env.outcome(j.x.now).ok;
  }

  lemma CalmRestoreScheduler(env: Env, x: Ctx, b: Baseline)
    requires Calm(env, x.now) && b.sched.Some? && b.sched.value.policy >= 0
    ensures RestoreScheduler(env, x, b).ok
  {
    assert env.outcome(x.now + 1).ok && env.outcome(x.now + 2).ok;
  }

  lemma CalmRestoreCpuctl(env: Env, x: Ctx, b: Baseline)
    requires Calm(env, x.now) && b.cpuctl.Some?
    ensures RestoreCpuctl(env, x, b).ok
  {
    assert env.outcome(x.now + 1).ok;
  }

  // What was managed and is no longer demanded goes home; what is neither stays as it is.
  lemma CalmFree(env: Env, d: Demand, o: KThread, x: Ctx, m: Managed, b: Baseline)
    requires Calm(env, x.now) && Sound(env, o) && o.sched.policy >= 0 && Covered(o, x.k, b, m)
    ensures var f := Free(env, d, x, m, b);
      f.ok && NoneElse(f.m, d) && (RestHome(d, UNMANAGED, f.x.k, o) <==> RestHome(d, m, x.k, o))
  {
    PathsOf(o);
    assert o.affinity * env.allowed(o.cpuset) == o.affinity;
    if m.affinity && !d.affinity {
      CalmRestoreAffinity(env, x, b);
      RestoreAffinityKeeps(env, o, x, b);
    }
    FreeAffinityKeeps(env, d, o, x, m, b);
    var f1 := FreeAffinity(env, d, x, m, b);
    FreePriorityKeeps(env, d, o, f1.x, f1.m, b);
    if m.priority && d.prio == 0 { CalmRestoreScheduler(env, f1.x, b); }
    var f2 := FreePriority(env, d, f1.x, f1.m, b);
    FreeCpuctlKeeps(env, d, o, f2.x, f2.m, b);
    if m.cpuctl && !d.limit { CalmRestoreCpuctl(env, f2.x, b); }
    hide RestoreAffinity, RestoreScheduler, RestoreCpuctl;
  }

  lemma CalmRestoreBaseline(env: Env, o: KThread, x: Ctx, e: Entry)
    requires Calm(env, x.now) && Sound(env, o) && o.sched.policy >= 0
    requires Covered(o, x.k, e.Held(), e.managed) && Paired(e.Held())
    ensures var r := RestoreBaseline(env, x, e);
      && r.e == Some(e.(baseline := None, applied := None, managed := UNMANAGED))
      && Home(r.x.k, o)
  {
    RestoreBaselineKeeps(env, o, x, e);
    if e.baseline.Some? {
      var b := e.baseline.value;
      PathsOf(o);
      assert o.affinity * env.allowed(o.cpuset) == o.affinity;
      var i0 := CheckIdentity(env, x);
      if b.cpuctl.Some? { CalmRestoreCpuctl(env, i0.x, b); }
      var s1 := if b.cpuctl.Some? then RestoreCpuctl(env, i0.x, b) else Step(i0.x, true);
      var i1 := CheckIdentity(env, s1.x);
      if b.sched.Some? { CalmRestoreScheduler(env, i1.x, b); }
      var s2 := if b.sched.Some? then RestoreScheduler(env, i1.x, b) else Step(i1.x, true);
      var i2 := CheckIdentity(env, s2.x);
      CalmRestoreAffinity(env, i2.x, b);
    }
  }

  lemma CalmCapture(env: Env, d: Demand, x: Ctx, e: Entry)
    requires Calm(env, x.now) && Visible(x.k)
    ensures Sufficient(Capture(env, x, e).e.baseline, d)
  {
    assert env.outcome(x.now).readsAffinity;
    assert env.outcome(x.now + 1).readsSched;
    assert env.outcome(x.now + 2).readsCgroup;
  }

  // ---- A whole application -----------------------------------------------------------------------------

  // The entry an application of `d` leaves behind.
  predicate Leaves(env: Env, d: Demand, r: MatchResult, t: Out, e: Entry) {
    && t.e.Some?
    && (t.e.value.id, t.e.value.name, t.e.value.cmdline, t.e.value.state, t.e.value.result)
       == (e.id, e.name, e.cmdline, e.state, e.result)
    && (if d.NeedsManaging() then
          && Sufficient(t.e.value.baseline, d) && t.e.value.managed == Demanded(d)
          && t.e.value.applied == if MaskAllowed(env, d) then Some(r) else e.applied
        else t.e.value.applied == None && t.e.value.baseline == None)
  }

  lemma CalmTakeOver(env: Env, d: Demand, r: MatchResult, o: KThread, x: Ctx, e: Entry)
    requires Calm(env, x.now) && Feasible(env, d) && d.matched && NoneElse(e.managed, d)
    ensures var t := TakeOver(env, d, r, x, e);
      && t.e == Some(e.(managed := Demanded(d), applied := if MaskAllowed(env, d) then Some(r) else e.applied))
      && (Met(d, t.x.k, o) <==> MaskAllowed(env, d) && RestHome(d, UNMANAGED, x.k, o))
      && (d.affinity ==> t.x.log.Mutations() > x.log.Mutations())
      && (d.affinity && !MaskAllowed(env, d) ==> t.x.k.affinity != d.target.cpus)
  {
    hide ApplyAll, Feasible, Met, RestHome;
    CalmApplyAll(env, d, o, x);
  }

  // Applying a result, with every call succeeding, meets the demand exactly if the group allows the
  // whole mask and either everything is given back or whatever is neither demanded nor managed was
  // at its original before: nothing else would bring it back.
  lemma CalmApplyResult(env: Env, d: Demand, r: MatchResult, o: KThread, x: Ctx, e: Entry)
    requires Calm(env, x.now) && Sound(env, o) && o.sched.policy >= 0 && Visible(x.k)
    requires Covered(o, x.k, e.Held(), e.managed) && (d.NeedsManaging() || Paired(e.Held()))
    requires Feasible(env, d) && Blank(d)
    ensures var t := ApplyResult(env, d, r, x, e);
      && Leaves(env, d, r, t, e)
      && (Met(d, t.x.k, o) <==> MaskAllowed(env, d) && (!d.NeedsManaging() || RestHome(d, e.managed, x.k, o)))
      && (!MaskAllowed(env, d) ==> t.x.k.affinity != d.target.cpus)
  {
    hide TakeOver, Free, Capture, RestoreBaseline, Feasible;
    if !d.NeedsManaging() {
      CalmRestoreBaseline(env, o, x, e);
    } else {
      CaptureKeeps(env, o, x, e);
      CalmCapture(env, d, x, e);
      var c := Capture(env, x, e);
      var b := c.e.baseline.value;
      CalmFree(env, d, o, c.x, c.e.managed, b);
      var f := Free(env, d, c.x, c.e.managed, b);
      CalmTakeOver(env, d, r, o, f.x, c.e.(managed := f.m));
    }
  }

  // ---- A whole dispatch ------------------------------------------------------------------------------------

  // The dispatch gets past the throttle and past the "nothing drifted" return.
  predicate Acts(env: Env, t: Task, inp: Inputs, x: Ctx, e: Option<Entry>) {
    var i := CheckIdentity(env, x);
    && !inp.throttled
    && !(Hit(e, t) && e.value.applied == Some(e.value.result)
         && (var d := inp.Demands(e.value.result);
             !d.NeedsManaging() || !CheckDrift(env, d, inp.due, i.x).drift))
  }

  // The matcher leaves an unmatched result blank.
  predicate Blank(d: Demand) { !d.matched ==> !d.affinity && d.prio == 0 && !d.limit }

  // The entry and the state in which a dispatch that acts calls apply_result.
  function StartEntry(t: Task, inp: Inputs, e: Option<Entry>): Entry {
    if Hit(e, t) then e.value else Updated(e, t, inp.found)
  }

  function StartCtx(env: Env, t: Task, inp: Inputs, x: Ctx, e: Option<Entry>): (y: Ctx)
    ensures y.k == x.k && x.now <= y.now
  {
    var i := CheckIdentity(env, x);
    if Hit(e, t) && e.value.applied == Some(e.value.result)
    then CheckDrift(env, inp.Demands(e.value.result), inp.due, i.x).x else i.x
  }

  lemma ActsIsApply(env: Env, t: Task, inp: Inputs, x: Ctx, e: Option<Entry>)
    requires env.Alive(x.now) && Acts(env, t, inp, x, e)
    ensures Dispatch(env, t, inp, x, e) == ApplyResult(
        env, inp.Demands(Goal(t, inp, e)), Goal(t, inp, e), StartCtx(env, t, inp, x, e), StartEntry(t, inp, e))
    ensures GivesBack(t, inp, e) <==> !inp.Demands(Goal(t, inp, e)).NeedsManaging()
  {
  }

  // The situation of the two results below: the thread can be given back, and the configuration
  // asks for something that is possible.
  ghost predicate Ready(env: Env, t: Task, inp: Inputs, o: KThread, x: Ctx, e: Option<Entry>) {
    var d := inp.Demands(Goal(t, inp, e));
    && Calm(env, x.now) && env.id == t.id && Sound(env, o) && o.sched.policy >= 0 && Visible(x.k)
    && Covered(o, x.k, Own(e, t).Held(), Own(e, t).managed)
    && (GivesBack(t, inp, e) ==> Paired(Own(e, t).Held()))
    && Feasible(env, d) && Blank(d)
  }

  // A dispatch that acts, with every call succeeding from now on, meets the rule exactly if the
  // group allows the whole mask and either the rule manages nothing or whatever neither the rule nor
  // the entry manages was at its original already.
  lemma DispatchConverges(env: Env, t: Task, inp: Inputs, o: KThread, x: Ctx, e: Option<Entry>)
    requires Ready(env, t, inp, o, x, e) && Acts(env, t, inp, x, e)
    ensures var d, r := inp.Demands(Goal(t, inp, e)), Dispatch(env, t, inp, x, e);
      && Leaves(env, d, Goal(t, inp, e), r, StartEntry(t, inp, e))
      && (Met(d, r.x.k, o) <==>
            MaskAllowed(env, d) && (!d.NeedsManaging() || RestHome(d, Own(e, t).managed, x.k, o)))
      && (!MaskAllowed(env, d) ==> r.x.k.affinity != d.target.cpus)
  {
    ActsIsApply(env, t, inp, x, e);
    hide ApplyResult, CheckDrift, DemandOf;
    CalmApplyResult(env, inp.Demands(Goal(t, inp, e)), Goal(t, inp, e), o,
                    StartCtx(env, t, inp, x, e), StartEntry(t, inp, e));
  }

  // No call that could change anything was made.
  ghost predicate Silent(before: Ctx, after: Ctx) {
    after.k == before.k && after.log.Mutations() == before.log.Mutations() && after.log.Repeats() == before.log.Repeats()
  }

  // The same dispatch again, whether or not the cgroup check is due by then, is silent exactly if
  // the rule manages nothing or the group allows the whole mask.
  lemma RepeatedDispatchIsSilentIff(env: Env, t: Task, inp: Inputs, o: KThread, x: Ctx, e: Option<Entry>, due: bool)
    requires Ready(env, t, inp, o, x, e) && Acts(env, t, inp, x, e)
    ensures var d, r := inp.Demands(Goal(t, inp, e)), Dispatch(env, t, inp, x, e);
      Silent(r.x, Dispatch(env, t, inp.(due := due), r.x, r.e).x) <==> !d.NeedsManaging() || MaskAllowed(env, d)
  {
    DispatchConverges(env, t, inp, o, x, e);
    DispatchPasses(env, t, inp, o, x, e);
    var r := Dispatch(env, t, inp, x, e);
    var d := inp.Demands(Goal(t, inp, e));
    if !d.NeedsManaging() || MaskAllowed(env, d) {
      ApplyIsSilent(env, t, inp.(due := due), Goal(t, inp, e), r, StartEntry(t, inp, e));
    } else {
      ApplyIsRetried(env, t, inp.(due := due), Goal(t, inp, e), r, StartEntry(t, inp, e));
    }
  }

  // With the whole mask allowed, the demanded dimensions pass, whatever the others do.
  lemma DispatchPasses(env: Env, t: Task, inp: Inputs, o: KThread, x: Ctx, e: Option<Entry>)
    requires Ready(env, t, inp, o, x, e) && Acts(env, t, inp, x, e)
    ensures var d, r := inp.Demands(Goal(t, inp, e)), Dispatch(env, t, inp, x, e);
      && env.born <= r.x.now && x.now <= r.x.now
      && (d.NeedsManaging() && MaskAllowed(env, d) ==> Passes(d, r.x.k))
  {
    hide Dispatch, CheckDrift, DemandOf, ApplyResult, Acts, Feasible, MaskAllowed, Passes;
    ActsIsApply(env, t, inp, x, e);
    var y, s := StartCtx(env, t, inp, x, e), StartEntry(t, inp, e);
    var d := inp.Demands(Goal(t, inp, e));
    if d.NeedsManaging() { ApplyPasses(env, d, Goal(t, inp, e), o, y, s); }
  }

  lemma ApplyPasses(env: Env, d: Demand, r: MatchResult, o: KThread, x: Ctx, e: Entry)
    requires Calm(env, x.now) && Sound(env, o) && o.sched.policy >= 0 && Visible(x.k)
    requires Covered(o, x.k, e.Held(), e.managed) && d.NeedsManaging() && Feasible(env, d)
    ensures MaskAllowed(env, d) ==> Passes(d, ApplyResult(env, d, r, x, e).x.k)
  {
    hide TakeOver, Free, Capture;
    CaptureKeeps(env, o, x, e);
    CalmCapture(env, d, x, e);
    var c := Capture(env, x, e);
    CalmFree(env, d, o, c.x, c.e.managed, c.e.baseline.value);
    var f := Free(env, d, c.x, c.e.managed, c.e.baseline.value);
    // With the state before as its own original, what is not demanded is trivially at home.
    CalmTakeOver(env, d, r, f.x.k, f.x, c.e.(managed := f.m));
  }

  lemma ApplyIsSilent(env: Env, t: Task, inp: Inputs, goal: MatchResult, r: Out, start: Entry)
    requires Calm(env, r.x.now) && !inp.throttled && Feasible(env, inp.Demands(goal))
    requires Leaves(env, inp.Demands(goal), goal, r, start) && Hit(Some(start), t) && start.result == goal
    requires !inp.Demands(goal).NeedsManaging() || (MaskAllowed(env, inp.Demands(goal)) && Passes(inp.Demands(goal), r.x.k))
    ensures Silent(r.x, Dispatch(env, t, inp, r.x, r.e).x)
  {
    var i := CheckIdentity(env, r.x);
    if inp.Demands(goal).NeedsManaging() {
      CalmNoDrift(env, inp.Demands(goal), inp.due, i.x);
    }
  }

  lemma CalmNoDrift(env: Env, d: Demand, due: bool, x: Ctx)
    requires Calm(env, x.now) && Feasible(env, d) && Passes(d, x.k)
    ensures !CheckDrift(env, d, due, x).drift
  {
    assert env.outcome(x.now).readsAffinity && env.outcome(x.now).readsSched && env.outcome(x.now).readsCgroup;
    assert env.outcome(x.now + 1).readsSched && env.outcome(x.now + 1).readsCgroup;
    assert env.outcome(x.now + 2).readsCgroup;
  }

  // What cannot be read counts as drift, in each dimension that is checked.
  lemma UnreadableIsDrift(env: Env, d: Demand, due: bool, x: Ctx)
    requires || (d.affinity && forall t :: x.now <= t ==> !env.outcome(t).readsAffinity)
             || (d.prio != 0 && forall t :: x.now <= t ==> !env.outcome(t).readsSched)
             || (due && (d.affinity || (d.limit && d.index >= 0)) && forall t :: x.now <= t ==> !env.outcome(t).readsCgroup)
    ensures CheckDrift(env, d, due, x).drift
  {
    var x1 := if d.affinity then ReadCall(env, x) else x;
    var x2 := if d.prio != 0 then ReadCall(env, x1) else x1;
    assert x.now <= x1.now <= x2.now;
  }

  // A mask that is not allowed as a whole is pushed again by every dispatch.
  lemma ApplyIsRetried(env: Env, t: Task, inp: Inputs, goal: MatchResult, r: Out, start: Entry)
    requires Calm(env, r.x.now) && !inp.throttled && Feasible(env, inp.Demands(goal))
    requires Leaves(env, inp.Demands(goal), goal, r, start) && Hit(Some(start), t) && start.result == goal
    requires inp.Demands(goal).NeedsManaging() && !MaskAllowed(env, inp.Demands(goal))
    requires r.x.k.affinity != inp.Demands(goal).target.cpus
    ensures Dispatch(env, t, inp, r.x, r.e).x.log.Mutations() > r.x.log.Mutations()
  {
    hide ApplyResult, CheckDrift, DemandOf, Calm, Feasible;
    var d, e := inp.Demands(goal), r.e.value;
    var i := CheckIdentity(env, r.x);
    OffMaskDrifts(env, d, inp.due, i.x);
    assert env.Alive(r.x.now) by { StillThere(env, r.x); }
    var y := if e.applied == Some(e.result) then CheckDrift(env, d, inp.due, i.x).x else i.x;
    assert Dispatch(env, t, inp, r.x, r.e) == ApplyResult(env, d, goal, y, e);
    hide Dispatch;
    CalmLater(env, r.x.now, y.now);
    RetryMutates(env, d, goal, y, e);
  }

  lemma OffMaskDrifts(env: Env, d: Demand, due: bool, x: Ctx)
    requires d.affinity && x.k.affinity != d.target.cpus
    ensures CheckDrift(env, d, due, x).drift
  {
  }

  lemma StillThere(env: Env, x: Ctx)
    requires Calm(env, x.now)
    ensures env.Alive(x.now)
  {
  }

  lemma CalmLater(env: Env, from: nat, later: nat)
    requires Calm(env, from) && from <= later
    ensures Calm(env, later)
  {
  }

  lemma RetryMutates(env: Env, d: Demand, r: MatchResult, x: Ctx, e: Entry)
    requires Calm(env, x.now) && Feasible(env, d) && d.NeedsManaging() && d.affinity
    requires Sufficient(e.baseline, d) && e.managed == Demanded(d)
    ensures ApplyResult(env, d, r, x, e).x.log.Mutations() > x.log.Mutations()
  {
    hide ReadState, TakeOver, RestoreAffinity, RestoreScheduler, RestoreCpuctl;
    var c := Capture(env, x, e);
    assert Sufficient(c.e.baseline, d);
    var f := Free(env, d, c.x, c.e.managed, c.e.baseline.value);
    assert f == Freed(c.x, c.e.managed, true);
    CalmTakeOver(env, d, r, x.k, f.x, c.e.(managed := f.m));
  }
}
