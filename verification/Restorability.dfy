// What every dispatch and every restore pass keeps for one thread, whatever the kernel answers.
module Restorability {
  import opened Types
  import opened Kernel
  import opened Takeover
  import opened Engine

  // `o` is the thread's original state, before ReUperf touched it.
  predicate AffinityHome(k: KThread, o: KThread) { k.cpuset == o.cpuset && k.affinity == o.affinity }
  predicate SchedHome(k: KThread, o: KThread) { SameSched(k.sched, o.sched) }
  predicate CpuctlHome(k: KThread, o: KThread) { k.cpuctl == o.cpuctl }

  predicate Home(k: KThread, o: KThread) { AffinityHome(k, o) && SchedHome(k, o) && CpuctlHome(k, o) }

  // Each captured dimension is the original one.
  predicate Faithful(b: Baseline, o: KThread) {
    && (b.affinity.Some? ==> b.affinity.value == o.affinity)
    && (b.sched.Some? ==> SameSched(b.sched.value, o.sched))
    && (b.cpuset.Some? ==> b.cpuset.value == CPUSET_ROOT + o.cpuset)
    && (b.cpuctl.Some? ==> b.cpuctl.value == CPUCTL_ROOT + o.cpuctl)
  }

  // A captured cpuset comes with a captured affinity.
  predicate Paired(b: Baseline) { b.cpuset.Some? ==> b.affinity.Some? }

  // Each dimension that differs from the original is captured.
  predicate Accounted(b: Baseline, k: KThread, o: KThread) {
    && (k.affinity != o.affinity ==> b.affinity.Some?)
    && (!SchedHome(k, o) ==> b.sched.Some?)
    && (k.cpuset != o.cpuset ==> b.cpuset.Some?)
    && (k.cpuctl != o.cpuctl ==> b.cpuctl.Some?)
  }

  // Each managed dimension is captured.
  predicate Recorded(b: Baseline, m: Managed) {
    && (m.affinity ==> b.affinity.Some? && b.cpuset.Some?)
    && (m.priority ==> b.sched.Some?)
    && (m.cpuctl ==> b.cpuctl.Some?)
  }

  // The thread can be given back: the stored baseline is the original state of everything that
  // may differ from it and of everything that is managed.
  predicate Covered(o: KThread, k: KThread, b: Baseline, m: Managed) {
    Faithful(b, o) && Accounted(b, k, o) && Recorded(b, m)
  }

  // Each dimension that is not managed is at its original.
  predicate Exact(o: KThread, k: KThread, m: Managed) {
    && (!m.affinity ==> AffinityHome(k, o))
    && (!m.priority ==> SchedHome(k, o))
    && (!m.cpuctl ==> CpuctlHome(k, o))
  }

  // Every captured dimension is managed.
  predicate OnlyManaged(b: Baseline, m: Managed) {
    && (b.affinity.Some? || b.cpuset.Some? ==> m.affinity)
    && (b.sched.Some? ==> m.priority)
    && (b.cpuctl.Some? ==> m.cpuctl)
  }

  // The original affinity fits the original cpuset.
  predicate Sound(env: Env, o: KThread) { o.affinity != {} && o.affinity <= env.allowed(o.cpuset) }

  // ---- The pieces ---------------------------------------------------------------------------------

  lemma PathsOf(o: KThread)
    ensures KernelPath(CPUSET_ROOT, CPUSET_ROOT + o.cpuset) == o.cpuset
    ensures KernelPath(CPUCTL_ROOT, CPUCTL_ROOT + o.cpuctl) == o.cpuctl
  {
    KernelPathOf(CPUSET_ROOT, o.cpuset);
    KernelPathOf(CPUCTL_ROOT, o.cpuctl);
  }

  lemma RestoreAffinityKeeps(env: Env, o: KThread, x: Ctx, b: Baseline)
    requires Sound(env, o) && Faithful(b, o) && Paired(b) && Accounted(b, x.k, o)
    ensures var s := RestoreAffinity(env, x, b);
      Accounted(b, s.x.k, o) && (s.ok ==> AffinityHome(s.x.k, o))
  {
    PathsOf(o);
    assert o.affinity * env.allowed(o.cpuset) == o.affinity;
  }

  lemma CaptureKeeps(env: Env, o: KThread, x: Ctx, e: Entry)
    requires Covered(o, x.k, e.Held(), e.managed) && env.born <= x.now
    ensures var c := Capture(env, x, e); Covered(o, x.k, c.e.Held(), c.e.managed)
  {
  }

  lemma FreeAffinityKeeps(env: Env, d: Demand, o: KThread, x: Ctx, m: Managed, b: Baseline)
    requires Sound(env, o) && Covered(o, x.k, b, m)
    ensures var f := FreeAffinity(env, d, x, m, b);
      && Covered(o, f.x.k, b, f.m) && (Exact(o, x.k, m) ==> Exact(o, f.x.k, f.m))
      && f.m == m.(affinity := f.m.affinity) && (f.ok && f.m.affinity ==> d.affinity)
  {
    hide RestoreAffinity;
    if m.affinity { RestoreAffinityKeeps(env, o, x, b); }
  }

  lemma FreePriorityKeeps(env: Env, d: Demand, o: KThread, x: Ctx, m: Managed, b: Baseline)
    requires Covered(o, x.k, b, m)
    ensures var f := FreePriority(env, d, x, m, b);
      && Covered(o, f.x.k, b, f.m) && (Exact(o, x.k, m) ==> Exact(o, f.x.k, f.m))
      && f.m == m.(priority := f.m.priority) && (f.ok && f.m.priority ==> d.prio != 0)
  {
    hide RestoreScheduler;
  }

  lemma FreeCpuctlKeeps(env: Env, d: Demand, o: KThread, x: Ctx, m: Managed, b: Baseline)
    requires Covered(o, x.k, b, m)
    ensures var f := FreeCpuctl(env, d, x, m, b);
      && Covered(o, f.x.k, b, f.m) && (Exact(o, x.k, m) ==> Exact(o, f.x.k, f.m))
      && f.m == m.(cpuctl := f.m.cpuctl) && (f.ok && f.m.cpuctl ==> d.limit)
  {
    hide RestoreCpuctl;
    PathsOf(o);
  }

  lemma FreeKeeps(env: Env, d: Demand, o: KThread, x: Ctx, m: Managed, b: Baseline)
    requires Sound(env, o) && Covered(o, x.k, b, m)
    ensures var f := Free(env, d, x, m, b);
      && Covered(o, f.x.k, b, f.m)
      && (Exact(o, x.k, m) ==> Exact(o, f.x.k, f.m))
      && (f.ok ==> (f.m.affinity ==> d.affinity) && (f.m.priority ==> d.prio != 0) && (f.m.cpuctl ==> d.limit))
  {
    hide FreeAffinity, FreePriority, FreeCpuctl, Covered, Exact;
    FreeAffinityKeeps(env, d, o, x, m, b);
    var f1 := FreeAffinity(env, d, x, m, b);
    FreePriorityKeeps(env, d, o, f1.x, f1.m, b);
    var f2 := FreePriority(env, d, f1.x, f1.m, b);
    FreeCpuctlKeeps(env, d, o, f2.x, f2.m, b);
  }

  lemma TakeOverKeeps(env: Env, d: Demand, r: MatchResult, o: KThread, x: Ctx, e: Entry)
    requires Covered(o, x.k, e.Held(), e.managed) && Sufficient(e.baseline, d) && env.born <= x.now
    ensures var t := TakeOver(env, d, r, x, e);
      if t.e.None? then env.Dead(t.x.now)
      else
        && t.e.value.id == e.id && t.e.value.baseline == e.baseline
        && Covered(o, t.x.k, e.Held(), t.e.value.managed)
        && (Exact(o, x.k, e.managed) ==> Exact(o, t.x.k, t.e.value.managed))
  {
  }

  lemma RestoreBaselineKeeps(env: Env, o: KThread, x: Ctx, e: Entry)
    requires Sound(env, o) && Covered(o, x.k, e.Held(), e.managed) && env.born <= x.now
    requires Paired(e.Held())
    ensures var r := RestoreBaseline(env, x, e);
      if r.e.None? then env.Dead(r.x.now)
      else
        && r.e.value.id == e.id
        && Covered(o, r.x.k, r.e.value.Held(), r.e.value.managed)
        && (r.e.value.baseline.None? ==> Home(r.x.k, o))
        && (OnlyManaged(e.Held(), e.managed) ==> Exact(o, r.x.k, r.e.value.managed))
  {
    if e.baseline.Some? {
      var b := e.baseline.value;
      PathsOf(o);
      var i0 := CheckIdentity(env, x);
      var s1 := if b.cpuctl.Some? then RestoreCpuctl(env, i0.x, b) else Step(i0.x, true);
      var i1 := CheckIdentity(env, s1.x);
      var s2 := if b.sched.Some? then RestoreScheduler(env, i1.x, b) else Step(i1.x, true);
      var i2 := CheckIdentity(env, s2.x);
      if i0.ok && i1.ok && i2.ok {
        RestoreAffinityKeeps(env, o, i2.x, b);
      }
    }
  }

  lemma UndoLimitsKeeps(env: Env, o: KThread, x: Ctx, b: Baseline)
    requires Faithful(b, o) && Accounted(b, x.k, o) && env.born <= x.now
    ensures var t := UndoLimits(env, x, b);
      && Accounted(b, t.x.k, o) && (!t.there ==> env.Dead(t.x.now))
      && (t.complete ==> SchedHome(t.x.k, o) && CpuctlHome(t.x.k, o))
  {
    PathsOf(o);
  }

  lemma UndoPlacementKeeps(env: Env, o: KThread, x: Ctx, b: Baseline)
    requires Sound(env, o) && Faithful(b, o) && Paired(b) && Accounted(b, x.k, o) && env.born <= x.now
    requires x.log.Checked(env.id)
    ensures var t := UndoPlacement(env, x, b);
      && Accounted(b, t.x.k, o) && (!t.there ==> env.Dead(t.x.now))
      && t.x.k == x.k.(cpuset := t.x.k.cpuset, affinity := t.x.k.affinity)
      && (t.complete ==> AffinityHome(t.x.k, o))
  {
    PathsOf(o);
    assert o.affinity * env.allowed(o.cpuset) == o.affinity;
  }

  lemma UndoKeeps(env: Env, o: KThread, x: Ctx, b: Baseline)
    requires Sound(env, o) && Faithful(b, o) && Paired(b) && Accounted(b, x.k, o) && env.born <= x.now
    ensures var u := Undo(env, x, b);
      && Accounted(b, u.x.k, o)
      && (u.verdict.Stale? ==> env.Dead(u.x.now))
      && (u.verdict.Restored? ==> Home(u.x.k, o))
  {
    hide UndoLimits, UndoPlacement, Sound, Faithful, Accounted;
    UndoLimitsKeeps(env, o, x, b);
    var t := UndoLimits(env, x, b);
    if t.there { UndoPlacementKeeps(env, o, t.x, b); }
  }

  // A pass over an entry that captured nothing it does not manage disturbs nothing unmanaged.
  lemma UndoKeepsExact(env: Env, o: KThread, x: Ctx, b: Baseline, m: Managed)
    requires OnlyManaged(b, m) && Exact(o, x.k, m)
    ensures Exact(o, Undo(env, x, b).x.k, m)
  {
  }

  // ---- A whole dispatch -----------------------------------------------------------------------------

  lemma ApplyResultKeeps(env: Env, d: Demand, r: MatchResult, o: KThread, x: Ctx, e: Entry)
    requires Sound(env, o) && Covered(o, x.k, e.Held(), e.managed) && env.born <= x.now
    requires d.NeedsManaging() || Paired(e.Held())
    ensures var t := ApplyResult(env, d, r, x, e);
      if t.e.None? then env.Dead(t.x.now)
      else
        && t.e.value.id == e.id
        && Covered(o, t.x.k, t.e.value.Held(), t.e.value.managed)
        && (Exact(o, x.k, e.managed) && (d.NeedsManaging() || OnlyManaged(e.Held(), e.managed))
            ==> Exact(o, t.x.k, t.e.value.managed))
  {
    if !d.NeedsManaging() {
      RestoreBaselineKeeps(env, o, x, e);
    } else {
      CaptureKeeps(env, o, x, e);
      var c := Capture(env, x, e);
      if Sufficient(c.e.baseline, d) {
        FreeKeeps(env, d, o, c.x, c.e.managed, c.e.baseline.value);
        var f := Free(env, d, c.x, c.e.managed, c.e.baseline.value);
        if f.ok {
          TakeOverKeeps(env, d, r, o, f.x, c.e.(managed := f.m));
        }
      }
    }
  }

  // The entry a task works on: its own identity's, or a blank one.
  function Own(e: Option<Entry>, t: Task): Entry { Updated(e, t, Unmatched(t.state)) }

  // The result the dispatch works towards: the cached one on a hit, the matcher's otherwise.
  function Goal(t: Task, inp: Inputs, e: Option<Entry>): MatchResult {
    if Hit(e, t) then e.value.result else inp.found
  }

  // The dispatch, if its thread is there, is a full restore pass.
  predicate GivesBack(t: Task, inp: Inputs, e: Option<Entry>) {
    && !inp.throttled && !inp.Demands(Goal(t, inp, e)).NeedsManaging()
    && !(Hit(e, t) && e.value.applied == Some(e.value.result))
  }

  // Whatever a dispatch does, and whichever of its calls and reads fail with whatever effect, a
  // thread that is still there afterwards can be given back; only a full restore pass needs the
  // captured cpuset to come with an affinity. An entry disappears only with its thread.
  lemma DispatchKeeps(env: Env, t: Task, inp: Inputs, o: KThread, x: Ctx, e: Option<Entry>)
    requires env.id == t.id && env.born <= x.now && Sound(env, o)
    requires Covered(o, x.k, Own(e, t).Held(), Own(e, t).managed)
    requires GivesBack(t, inp, e) ==> Paired(Own(e, t).Held())
    ensures var r := Dispatch(env, t, inp, x, e);
      || env.Dead(r.x.now)
      || (&& Covered(o, r.x.k, Own(r.e, t).Held(), Own(r.e, t).managed)
          && (r.e.Some? && r.e != e ==> r.e.value.id == t.id)
          && (e.Some? ==> r.e.Some?))
  {
    DispatchApplies(env, t, inp, o, x, e);
  }

  // What apply_result keeps, for the call of it a dispatch makes, if it makes one.
  lemma DispatchApplies(env: Env, t: Task, inp: Inputs, o: KThread, x: Ctx, e: Option<Entry>)
    requires env.id == t.id && env.born <= x.now && Sound(env, o)
    requires Covered(o, x.k, Own(e, t).Held(), Own(e, t).managed)
    requires GivesBack(t, inp, e) ==> Paired(Own(e, t).Held())
    ensures var r := Dispatch(env, t, inp, x, e);
      || (r.x.k == x.k && (r.e == e || env.Dead(r.x.now)))
      || (if r.e.None? then env.Dead(r.x.now)
          else && r.e.value.id == t.id && Covered(o, r.x.k, r.e.value.Held(), r.e.value.managed)
               && (Exact(o, x.k, Own(e, t).managed)
                   && (!GivesBack(t, inp, e) || OnlyManaged(Own(e, t).Held(), Own(e, t).managed))
                   ==> Exact(o, r.x.k, r.e.value.managed)))
  {
    hide ApplyResult, Covered, Exact, OnlyManaged, Paired;
    var i := CheckIdentity(env, x);
    if i.ok && !inp.throttled {
      if !Hit(e, t) {
        ApplyResultKeeps(env, inp.Demands(inp.found), inp.found, o, i.x, Updated(e, t, inp.found));
      } else {
        var d := inp.Demands(e.value.result);
        if e.value.applied == Some(e.value.result) {
          if d.NeedsManaging() { ApplyResultKeeps(env, d, e.value.result, o, CheckDrift(env, d, inp.due, i.x).x, e.value); }
        } else {
          ApplyResultKeeps(env, d, e.value.result, o, i.x, e.value);
        }
      }
    }
  }

  lemma CoveredHome(o: KThread, k: KThread, m: Managed)
    ensures Covered(o, k, NO_BASELINE, m) ==> Exact(o, k, m)
  {
  }

  // "Not managed means original" also survives a dispatch, unless the dispatch is a full restore
  // pass that captured more than it manages and does not complete.
  lemma DispatchKeepsExact(env: Env, t: Task, inp: Inputs, o: KThread, x: Ctx, e: Option<Entry>)
    requires env.id == t.id && env.born <= x.now && Sound(env, o)
    requires Covered(o, x.k, Own(e, t).Held(), Own(e, t).managed) && Exact(o, x.k, Own(e, t).managed)
    requires GivesBack(t, inp, e) ==> Paired(Own(e, t).Held())
    requires var r := Dispatch(env, t, inp, x, e);
      || !GivesBack(t, inp, e) || OnlyManaged(Own(e, t).Held(), Own(e, t).managed)
      || (r.e.Some? && r.e.value.baseline.None?)
    ensures var r := Dispatch(env, t, inp, x, e);
      env.Dead(r.x.now) || Exact(o, r.x.k, Own(r.e, t).managed)
  {
    var r := Dispatch(env, t, inp, x, e);
    CoveredHome(o, r.x.k, Own(r.e, t).managed);
    hide Dispatch, Covered, Exact;
    DispatchKeeps(env, t, inp, o, x, e);
    DispatchApplies(env, t, inp, o, x, e);
  }
}
