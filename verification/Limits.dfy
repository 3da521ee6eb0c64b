// Promises the source makes that do not hold on every run, each with the exact condition.
module Limits {
  import opened Types
  import opened Kernel
  import opened Takeover
  import opened Engine
  import opened Restorability
  import opened Convergence

  // An environment this thread may meet from `now` on.
  ghost predicate Possible(env: Env, o: KThread, now: nat) { env.born <= now && Sound(env, o) }

  // ---- A full restore pass and the dimensions it does not manage ------------------------------------

  function OtherCpus(cpus: set<int>): (r: set<int>)
    ensures r != cpus && r != {}
  {
    if cpus == {0} then {1} else {0}
  }

  // A state that differs from `o` in every dimension.
  function Elsewhere(o: KThread): KThread {
    KThread(o.cpuset + "/x", OtherCpus(o.affinity), o.sched.(policy := o.sched.policy + 1), o.cpuctl + "/x")
  }

  // Every call fails, leaving its dimension elsewhere.
  function Broken(id: Ident, o: KThread): Env {
    var w := Elsewhere(o);
    Env(id, 0, None, _ => Outcome(false, true, true, true, true, w.affinity, w.cpuset, w.sched, w.cpuctl),
        _ => o.affinity)
  }

  lemma BrokenCalls(id: Ident, o: KThread, x: Ctx, b: Baseline)
    ensures var env, w := Broken(id, o), Elsewhere(o);
      var s1, s2, s3 := RestoreCpuctl(env, x, b), RestoreScheduler(env, x, b), RestoreAffinity(env, x, b);
      && (b.cpuctl.Some? ==> !s1.ok && s1.x.k == x.k.(cpuctl := w.cpuctl))
      && (b.sched.Some? && b.sched.value.policy >= 0 ==> !s2.ok && s2.x.k == x.k.(sched := w.sched))
      && (b.cpuset.Some? ==> !s3.ok && s3.x.k.cpuset == w.cpuset)
      && (b.affinity.Some? && b.affinity.value != {} ==> !s3.ok && s3.x.k.affinity == w.affinity)
  {
    hide KernelPath, Guards;
  }

  lemma BrokenPass(o: KThread, x: Ctx, e: Entry)
    requires o.affinity != {} && o.sched.policy >= 0
    requires Covered(o, x.k, e.Held(), e.managed) && Exact(o, x.k, e.managed)
    ensures Possible(Broken(e.id, o), o, x.now)
    ensures !OnlyManaged(e.Held(), e.managed) ==>
      var r := RestoreBaseline(Broken(e.id, o), x, e);
      r.e == Some(e) && !Exact(o, r.x.k, e.managed)
  {
    hide KernelPath, Guards, ReadCall, RestoreCpuctl, RestoreScheduler, RestoreAffinity;
    forall y: Ctx, b: Baseline { BrokenCalls(e.id, o, y, b); }
    var w := Elsewhere(o);
    assert w.cpuset != o.cpuset && w.cpuctl != o.cpuctl by {
      assert |w.cpuset| != |o.cpuset| && |w.cpuctl| != |o.cpuctl|;
    }
  }

  // restore_baseline gives back every captured dimension, managed or not, and keeps the managed
  // flags when it fails. So "not managed means original" survives the pass for every behaviour of
  // the kernel exactly when the entry captured nothing it does not manage.
  lemma RestorePassKeepsExactIff(o: KThread, x: Ctx, e: Entry)
    requires o.affinity != {} && o.sched.policy >= 0
    requires Covered(o, x.k, e.Held(), e.managed) && Exact(o, x.k, e.managed)
    ensures OnlyManaged(e.Held(), e.managed) <==>
      forall env: Env :: Possible(env, o, x.now) ==>
        var r := RestoreBaseline(env, x, e);
        r.e.Some? ==> Exact(o, r.x.k, r.e.value.managed)
  {
    BrokenPass(o, x, e);
    forall env: Env | OnlyManaged(e.Held(), e.managed) && Possible(env, o, x.now)
      ensures var r := RestoreBaseline(env, x, e); r.e.Some? ==> Exact(o, r.x.k, r.e.value.managed)
    {
      RestoreBaselineKeeps(env, o, x, e);
    }
  }

  // The same of one baseline that restore_all_thread_baselines gives back.
  lemma UndoKeepsExactIff(o: KThread, x: Ctx, id: Ident, b: Baseline, m: Managed)
    requires o.affinity != {} && o.sched.policy >= 0
    requires Covered(o, x.k, b, m) && Exact(o, x.k, m)
    ensures OnlyManaged(b, m) <==>
      forall env: Env :: Possible(env, o, x.now) ==>
        var u := Undo(env, x, b);
        u.verdict.Failed? ==> Exact(o, u.x.k, m)
  {
    BrokenUndo(o, x, id, b, m);
    forall env: Env | OnlyManaged(b, m) && Possible(env, o, x.now)
      ensures Exact(o, Undo(env, x, b).x.k, m)
    {
      UndoKeepsExact(env, o, x, b, m);
    }
  }

  lemma BrokenUndo(o: KThread, x: Ctx, id: Ident, b: Baseline, m: Managed)
    requires o.affinity != {} && o.sched.policy >= 0
    requires Covered(o, x.k, b, m) && Exact(o, x.k, m)
    ensures Possible(Broken(id, o), o, x.now)
    ensures !OnlyManaged(b, m) ==>
      var u := Undo(Broken(id, o), x, b);
      u.verdict.Failed? && !Exact(o, u.x.k, m)
  {
    hide KernelPath, Guards, ReadCall;
    var w := Elsewhere(o);
    assert w.cpuset != o.cpuset && w.cpuctl != o.cpuctl by {
      assert |w.cpuset| != |o.cpuset| && |w.cpuctl| != |o.cpuctl|;
    }
  }

  // ---- A cpuset captured without its affinity ----------------------------------------------------------

  // Every call succeeds; a cpuset move resets the affinity to other CPUs.
  function Clobbering(id: Ident, o: KThread): Env {
    Env(id, 0, None, _ => Outcome(true, true, true, true, true, OtherCpus(o.affinity), o.cpuset, o.sched, o.cpuctl),
        _ => o.affinity)
  }

  // Restoring the cpuset may overwrite the affinity. A restore pass keeps a thread restorable for
  // every behaviour of the kernel exactly when the baseline captured the affinity along with the cpuset.
  lemma RestorePassSafeIffPaired(o: KThread, x: Ctx, e: Entry)
    requires o.affinity != {} && o.sched.policy >= 0 && e.baseline.Some?
    requires Covered(o, x.k, e.Held(), e.managed)
    ensures Paired(e.Held()) <==>
      forall env: Env :: Possible(env, o, x.now) ==>
        var r := RestoreBaseline(env, x, e);
        r.e.Some? ==> Accounted(r.e.value.Held(), r.x.k, o)
  {
    PathsOf(o);
    var env := Clobbering(e.id, o);
    assert Possible(env, o, x.now);
    if !Paired(e.Held()) {
      var r := RestoreBaseline(env, x, e);
      assert r.e.value.baseline.None? && r.x.k.affinity != o.affinity;
    }
    forall env: Env | Paired(e.Held()) && Possible(env, o, x.now)
      ensures var r := RestoreBaseline(env, x, e); r.e.Some? ==> Accounted(r.e.value.Held(), r.x.k, o)
    {
      RestoreBaselineKeeps(env, o, x, e);
    }
  }

  // The same of restore_all_thread_baselines, which drops the baseline when it reports success.
  lemma UndoSafeIffPaired(o: KThread, x: Ctx, id: Ident, b: Baseline)
    requires o.affinity != {} && o.sched.policy >= 0
    requires Faithful(b, o) && Accounted(b, x.k, o)
    ensures Paired(b) <==>
      forall env: Env :: Possible(env, o, x.now) ==>
        var u := Undo(env, x, b);
        u.verdict.Restored? ==> Home(u.x.k, o)
  {
    PathsOf(o);
    var env := Clobbering(id, o);
    assert Possible(env, o, x.now);
    if !Paired(b) {
      var u := Undo(env, x, b);
      assert u.verdict.Restored? && u.x.k.affinity != o.affinity;
    }
    forall env: Env | Paired(b) && Possible(env, o, x.now)
      ensures var u := Undo(env, x, b); u.verdict.Restored? ==> Home(u.x.k, o)
    {
      UndoKeeps(env, o, x, b);
    }
  }

  // ---- The "nothing drifted" return ---------------------------------------------------------------------

  // The dispatch finds its last applied result unchanged and sees no drift.
  predicate Returns(env: Env, t: Task, inp: Inputs, x: Ctx, e: Option<Entry>) {
    && env.Alive(x.now) && !inp.throttled && Hit(e, t) && e.value.applied == Some(e.value.result)
    && !Acts(env, t, inp, x, e)
  }

  // The group paths this dispatch does not read are right anyway.
  predicate UncheckedRight(d: Demand, due: bool, k: KThread) {
    && (d.affinity && !due ==> k.cpuset == KernelPath(CPUSET_ROOT, d.target.dir))
    && (d.limit && !(due && d.index >= 0) ==> k.cpuctl == KernelPath(CPUCTL_ROOT, d.cpuctlDir))
  }

  // A dispatch that returns early leaves everything as it is, and that is right exactly if every
  // dimension the result does not manage is at its original and the group paths it did not read,
  // because the check was not due, are right.
  lemma EarlyReturnIff(env: Env, t: Task, inp: Inputs, o: KThread, x: Ctx, e: Option<Entry>)
    requires Returns(env, t, inp, x, e) && Blank(inp.Demands(e.value.result))
    ensures var d, r := inp.Demands(e.value.result), Dispatch(env, t, inp, x, e);
      && r.e == e && Silent(x, r.x)
      && (Met(d, r.x.k, o) <==> RestHome(d, UNMANAGED, x.k, o) && UncheckedRight(d, inp.due, x.k))
  {
    hide DemandOf;
  }

  // Every group path the demand is about is read.
  predicate AllChecked(d: Demand, due: bool) { (d.affinity ==> due) && (d.limit ==> due && d.index >= 0) }

  // A state that passes the checks that are made and is away from the original wherever `m` allows,
  // and from the demanded groups wherever no check looks.
  function Passing(d: Demand, o: KThread, m: Managed, due: bool): KThread {
    var w := Elsewhere(o);
    KThread(
      if d.affinity then KernelPath(CPUSET_ROOT, d.target.dir) + Stray(due) else if m.affinity then w.cpuset else o.cpuset,
      if d.affinity then d.target.cpus else if m.affinity then w.affinity else o.affinity,
      if 1 <= d.prio <= 98 then Sched(SCHED_FIFO, d.prio, 0)
      else if 100 <= d.prio <= 139 then Sched(SCHED_NORMAL, 0, d.prio - 120)
      else if d.prio == -2 then Sched(SCHED_BATCH, 0, 0)
      else if d.prio == -3 then Sched(SCHED_IDLE, 0, 0)
      else if d.prio != 0 then Sched(SCHED_NORMAL, 0, 0)
      else if m.priority then w.sched else o.sched,
      if d.limit then KernelPath(CPUCTL_ROOT, d.cpuctlDir) + Stray(due && d.index >= 0) else if m.cpuctl then w.cpuctl else o.cpuctl)
  }

  function Stray(checked: bool): string { if checked then "" else "/x" }

  // Every read succeeds.
  function Quiet(id: Ident, o: KThread): Env {
    Env(id, 0, None, _ => Outcome(true, true, true, true, true, o.affinity, o.cpuset, o.sched, o.cpuctl), _ => o.affinity)
  }

  ghost predicate Consistent(env: Env, o: KThread, x: Ctx, e: Entry) {
    Possible(env, o, x.now) && Covered(o, x.k, e.Held(), e.managed) && Exact(o, x.k, e.managed)
  }

  // The early return is right for every thread state consistent with the entry exactly when the
  // entry manages nothing beyond the result and every demanded group path is read: a dimension left
  // managed by an unfinished take-over under another result is never given back here, and a path
  // that went wrong goes unseen until the check is due.
  lemma SkipRightIff(t: Task, inp: Inputs, o: KThread, e: Entry)
    requires o.affinity != {} && !inp.throttled && Hit(Some(e), t) && e.applied == Some(e.result)
    requires Faithful(e.Held(), o) && Recorded(e.Held(), e.managed)
    requires var d := inp.Demands(e.result);
      && Blank(d) && (d.affinity ==> d.target.cpus != {} && e.managed.affinity)
      && (d.prio != 0 ==> e.managed.priority) && (d.limit ==> e.managed.cpuctl)
    ensures var d := inp.Demands(e.result);
      NoneElse(e.managed, d) && AllChecked(d, inp.due) <==>
      forall env: Env, x: Ctx :: Consistent(env, o, x, e) && Returns(env, t, inp, x, Some(e)) ==>
        Met(d, Dispatch(env, t, inp, x, Some(e)).x.k, o)
  {
    hide DemandOf, Dispatch;
    var d := inp.Demands(e.result);
    forall env: Env, x: Ctx | NoneElse(e.managed, d) && AllChecked(d, inp.due)
      && Consistent(env, o, x, e) && Returns(env, t, inp, x, Some(e))
      ensures Met(d, Dispatch(env, t, inp, x, Some(e)).x.k, o)
    {
      EarlyReturnIff(env, t, inp, o, x, Some(e));
    }
    if !(NoneElse(e.managed, d) && AllChecked(d, inp.due)) {
      var env, x := Quiet(t.id, o), Ctx(Passing(d, o, e.managed, inp.due), 0, Start);
      WrongReturn(t, inp, o, e);
      EarlyReturnIff(env, t, inp, o, x, Some(e));
    }
  }

  lemma WrongReturn(t: Task, inp: Inputs, o: KThread, e: Entry)
    requires o.affinity != {} && !inp.throttled && Hit(Some(e), t) && e.applied == Some(e.result)
    requires Faithful(e.Held(), o) && Recorded(e.Held(), e.managed)
    requires var d := inp.Demands(e.result);
      && Blank(d) && (d.affinity ==> d.target.cpus != {} && e.managed.affinity)
      && (d.prio != 0 ==> e.managed.priority) && (d.limit ==> e.managed.cpuctl)
      && !(NoneElse(e.managed, d) && AllChecked(d, inp.due))
    ensures var d := inp.Demands(e.result);
      var env, x := Quiet(t.id, o), Ctx(Passing(d, o, e.managed, inp.due), 0, Start);
      && Consistent(env, o, x, e) && Returns(env, t, inp, x, Some(e))
      && !(RestHome(d, UNMANAGED, x.k, o) && UncheckedRight(d, inp.due, x.k))
  {
    hide DemandOf;
    var w := Elsewhere(o);
    assert w.cpuset != o.cpuset && w.cpuctl != o.cpuctl by {
      assert |w.cpuset| != |o.cpuset| && |w.cpuctl| != |o.cpuctl|;
    }
    var d := inp.Demands(e.result);
    Strayed(KernelPath(CPUSET_ROOT, d.target.dir));
    Strayed(KernelPath(CPUCTL_ROOT, d.cpuctlDir));
  }

  lemma Strayed(path: string)
    ensures path + "/x" != path && path + "" == path
  {
    assert |path + "/x"| != |path|;
  }

  // ---- Writes after the first of an operation -------------------------------------------------------------

  // The setters check the identity before each operation, not before each write: the retry of a group
  // move is made without a check, here after the thread has gone.
  lemma RetryAfterDeath(id: Ident, k: KThread, dir: string)
    ensures var env := Env(id, 0, Some(2), _ => Outcome(false, true, true, true, true, k.affinity, k.cpuset, k.sched, k.cpuctl),
                           _ => k.affinity);
      var start := CheckIdentity(env, Ctx(k, 0, Start));
      var moved := MoveToMask(env, start.x, dir, 2);
      && start.ok && moved.x.log == Then(Then(start.x.log, Cpuset(id, dir)), Again(id))
      && env.Dead(start.x.now + 1) && moved.x.log.Guarded() && !moved.x.log.EachWriteGuarded()
  {
    var env := Env(id, 0, Some(2), _ => Outcome(false, true, true, true, true, k.affinity, k.cpuset, k.sched, k.cpuctl),
                   _ => k.affinity);
    var start := CheckIdentity(env, Ctx(k, 0, Start));
    var y := start.x.Called(Cpuset(id, dir));
    var first := WriteCpuset(env, y, dir);
    assert WriteCpusetRetrying(env, y, dir, 2) == WriteCpusetRetrying(env, first.x.Called(Again(id)), dir, 1);
  }
}
