// Giving everything back does succeed: what restore_all_thread_baselines and its retry reach when
// calls succeed.
module GivingBack {
  import opened Types
  import opened Kernel
  import opened Engine
  import opened Restorability
  import opened Daemon

  // From `from` on every call on a thread that is there succeeds; the thread may go at any time.
  ghost predicate Works(env: Env, from: nat) {
    env.born <= from && forall t :: from <= t ==> env.outcome(t).ok
  }

  // A call that ends with the thread still there succeeded.
  lemma CallsWork(env: Env, x: Ctx, dir: string, cpus: set<int>, to: Sched)
    requires Works(env, x.now)
    ensures var s := MoveCpuctl(env, x, dir); env.Alive(s.x.now) ==> s.ok
    ensures var s := MoveCpuset(env, x, dir); env.Alive(s.x.now) ==> s.ok
    ensures var s := RestoreSched(env, x, to); to.policy >= 0 && env.Alive(s.x.now) ==> s.ok
    ensures var s := SetAffinity(env, x, cpus);
      cpus * env.allowed(x.k.cpuset) != {} && env.Alive(s.x.now) ==> s.ok
  {
    assert env.outcome(x.now).ok && env.outcome(x.now + 1).ok;
  }

  lemma WorksLater(env: Env, from: nat, later: nat)
    requires Works(env, from) && from <= later
    ensures Works(env, later)
  {
  }

  lemma LimitsWork(env: Env, o: KThread, x: Ctx, b: Baseline)
    requires Works(env, x.now) && Faithful(b, o) && o.sched.policy >= 0
    ensures var t := UndoLimits(env, x, b); t.there ==> t.complete
  {
    hide MoveCpuctl, RestoreSched, Works;
    var i0 := CheckIdentity(env, x);
    var ic := CheckIdentity(env, i0.x);
    WorksLater(env, x.now, ic.x.now);
    if b.cpuctl.Some? { CallsWork(env, ic.x, b.cpuctl.value, {}, Sched(0, 0, 0)); }
    var s1 := if b.cpuctl.Some? then MoveCpuctl(env, ic.x, b.cpuctl.value) else Step(i0.x, true);
    var i1 := CheckIdentity(env, s1.x);
    WorksLater(env, x.now, i1.x.now);
    if b.sched.Some? { CallsWork(env, i1.x, "", {}, b.sched.value); }
  }

  lemma PlacementWorks(env: Env, o: KThread, x: Ctx, b: Baseline)
    requires Works(env, x.now) && x.log.Checked(env.id) && Sound(env, o) && Faithful(b, o) && Accounted(b, x.k, o)
    ensures var t := UndoPlacement(env, x, b); t.there ==> t.complete
  {
    hide MoveCpuset, SetAffinity, Works;
    PathsOf(o);
    assert o.affinity * env.allowed(o.cpuset) == o.affinity;
    if b.cpuset.Some? { CallsWork(env, x, b.cpuset.value, {}, Sched(0, 0, 0)); }
    var s3 := if b.cpuset.Some? then MoveCpuset(env, x, b.cpuset.value) else Step(x, true);
    var i3 := CheckIdentity(env, s3.x);
    WorksLater(env, x.now, i3.x.now);
    if b.affinity.Some? { CallsWork(env, i3.x, "", b.affinity.value, Sched(0, 0, 0)); }
  }

  // A faithful baseline is given back, unless the thread goes meanwhile.
  lemma UndoNeverFails(env: Env, o: KThread, x: Ctx, b: Baseline)
    requires Works(env, x.now) && Sound(env, o) && o.sched.policy >= 0 && Faithful(b, o) && Accounted(b, x.k, o)
    ensures Undo(env, x, b).verdict != Failed
    ensures env.dies.None? ==> Undo(env, x, b).verdict == Restored
    ensures env.dies.None? && Paired(b) ==> Home(Undo(env, x, b).x.k, o)
  {
    hide UndoPlacement, UndoLimits, Works;
    LimitsWork(env, o, x, b);
    UndoLimitsKeeps(env, o, x, b) by { WorksBorn(env, x.now); }
    var t := UndoLimits(env, x, b);
    WorksLater(env, x.now, t.x.now);
    if t.there { PlacementWorks(env, o, t.x, b); }
    WorksBorn(env, x.now);
    if env.dies.None? { NeverStale(env, x, b); }
    if env.dies.None? && Paired(b) { UndoKeeps(env, o, x, b); }
  }

  lemma WorksBorn(env: Env, from: nat)
    requires Works(env, from)
    ensures env.born <= from
  {
  }

  lemma NeverStale(env: Env, x: Ctx, b: Baseline)
    requires env.dies.None? && env.born <= x.now
    ensures Undo(env, x, b).verdict != Stale
  {
    hide MoveCpuset, MoveCpuctl, RestoreSched, SetAffinity;
  }

  // ---- All threads ----------------------------------------------------------------------------------------

  // From now on every call on a thread that is there succeeds, and originals are valid scheduler states.
  ghost predicate AllWork(s: Setting, w: World) {
    && (forall id, t :: id in w.threads && w.now <= t ==> s.env(id).outcome(t).ok)
    && (forall id :: id in w.threads ==> s.home(id).sched.policy >= 0)
  }

  lemma AllWorkLater(s: Setting, w: World, w': World)
    requires AllWork(s, w) && w'.threads.Keys == w.threads.Keys && w.now <= w'.now
    ensures AllWork(s, w')
  {
    assert forall id :: id in w'.threads ==> id in w.threads.Keys;
  }

  lemma WorksFor(s: Setting, w: World, id: Ident)
    requires AllWork(s, w) && id in w.threads && s.env(id).born <= w.now
    ensures Works(s.env(id), w.now) && s.home(id).sched.policy >= 0
  {
  }

  lemma UndoStepSucceeds(s: Setting, w: World, one: Saved)
    requires Safe(s, w) && AllWork(s, w) && Current(w, one)
    ensures UndoStep(s, w, one).1
  {
    Around(s, w, one.id);
    UndoStepIs(s, w, one);
    WorksFor(s, w, one.id);
    hide Undo, UndoStep, Safe, AllWork, Works;
    if s.env(one.id).Dead(w.now) {
      DeadIsStale(s.env(one.id), w.At(one.id), one.baseline);
    } else {
      UndoNeverFails(s.env(one.id), s.home(one.id), w.At(one.id), one.baseline);
    }
  }

  lemma DeadIsStale(env: Env, x: Ctx, b: Baseline)
    requires env.Dead(x.now)
    ensures Undo(env, x, b).verdict == Stale
  {
  }

  lemma {:induction false} RestoreAllSucceeds(s: Setting, w: World, saved: seq<Saved>)
    requires Safe(s, w) && AllWork(s, w) && AllCurrent(w, saved) && AllReturnable(s, w, saved)
    requires forall i, j :: 0 <= i < j < |saved| ==> KeyOf(saved[i].id) != KeyOf(saved[j].id)
    ensures RestoreAll(s, w, saved).1
    decreases |saved|
  {
    hide Safe, AllWork, UndoStep;
    if saved != [] {
      var one := saved[0];
      var (w1, ok1) := UndoStep(s, w, one);
      assert Current(w, one);
      Around(s, w, one.id);
      UndoStepSafe(s, w, one);
      UndoStepTouches(s, w, one);
      UndoStepSucceeds(s, w, one);
      AllWorkLater(s, w, w1);
      forall j | 0 <= j < |saved[1..]|
        ensures Current(w1, saved[1..][j]) && Returnable(s, w1, saved[1..][j].id, saved[1..][j].baseline)
      {
        assert Current(w, saved[j + 1]) && Returnable(s, w, saved[j + 1].id, saved[j + 1].baseline);
        assert KeyOf(saved[0].id) != KeyOf(saved[j + 1].id);
        assert w1.Found(KeyOf(saved[j + 1].id)) == w.Found(KeyOf(saved[j + 1].id));
      }
      RestoreAllSucceeds(s, w1, saved[1..]);
    }
  }

  // One call of restore_all_thread_baselines on a restorable world succeeds and gives everything
  // back if every call on a thread that is there succeeds.
  lemma PassGivesBack(s: Setting, w: World, w': World, ok: bool)
    requires Restorable(s, w) && AllWork(s, w) && RestorePass(s, w, w', ok)
    ensures ok && GivenBack(s, w')
  {
    hide Safe, AllWork, RestoreAll, Home;
    var saved :| Lists(saved, w) && Daemon.RestoreAll(s, w, saved) == (w', ok);
    ListsReturnable(s, w, saved);
    RestoreAllSucceeds(s, w, saved);
    RestoreAllRestores(s, w, saved);
  }

  // `n` attempts with waits between them, of which all but the last failed.
  ghost predicate Attempts(s: Setting, w: World, w': World, n: nat, ok: bool)
    decreases n
  {
    if n == 0 then w' == w && !ok
    else if n == 1 then RestorePass(s, w, w', ok)
    else exists w1, w2 :: Attempts(s, w, w1, n - 1, false) && Paused(w1, w2) && RestorePass(s, w2, w', ok)
  }

  predicate Paused(w: World, w': World) { w.now <= w'.now && w' == w.(now := w'.now) }

  // One more attempt after a wait.
  lemma {:induction false} OneMore(s: Setting, w: World, w1: World, w2: World, w': World, n: nat, ok: bool)
    requires n > 0 && Attempts(s, w, w1, n, false) && Paused(w1, w2) && RestorePass(s, w2, w', ok)
    ensures Attempts(s, w, w', n + 1, ok)
  {
    hide RestorePass;
  }

  // If every call succeeds the first attempt is the last, and everything is given back.
  lemma {:induction false} FirstAttemptGivesBack(s: Setting, w: World, w': World, n: nat, ok: bool)
    requires n > 0 && Restorable(s, w) && AllWork(s, w) && Attempts(s, w, w', n, ok)
    ensures n == 1 && ok && GivenBack(s, w')
    decreases n
  {
    hide Safe, AllWork, GivenBack, Restorable, RestorePass;
    if n == 1 {
      PassGivesBack(s, w, w', ok);
    } else {
      var w1, w2 :| Attempts(s, w, w1, n - 1, false) && Paused(w1, w2) && RestorePass(s, w2, w', ok);
      FirstAttemptGivesBack(s, w, w1, n - 1, false);
    }
  }
}
