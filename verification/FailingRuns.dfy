// Runs of one thread under a rule with a limit only, from the thread's original state, that end where
// Limits.dfy says a restore pass or an early return may go wrong.
module FailingRuns {
  import opened Types
  import opened Kernel
  import opened Takeover
  import opened Engine
  import opened Restorability
  import opened Convergence
  import Decimal

  const CONFIG := SchedConfig(map[], map[], map[], [])

  // In the foreground the rule limits the thread; in the background no rule matches.
  const LIMITED := MatchResult(true, "", "", "", None, Some(512), true, FG, "app", 0, false, false)

  const ID := Ident(10, 11, 100, 200)
  const ORIGINAL := KThread("/top-app", {0}, Sched(SCHED_NORMAL, 0, 0), "/apps")
  const LIMIT_PATH := KernelPath(CPUCTL_ROOT, CpuctlGroup("app", 0))

  function TaskIn(state: ProcessState): Task { Task(ID, "worker", state, "app", "app") }

  function InputsFor(r: MatchResult, due: bool): Inputs { Inputs(CONFIG, 3, r, false, due) }

  const LIMIT_DEMAND := Demand(true, false, Target(CpusetGroup(""), {}, 3), 0, true, 0, CpuctlGroup("app", 0))

  lemma Demands(due: bool)
    ensures InputsFor(LIMITED, due).Demands(LIMITED) == LIMIT_DEMAND
    ensures !InputsFor(Unmatched(BG), due).Demands(Unmatched(BG)).NeedsManaging()
  {
    hide CpuctlGroup, CpusetGroup;
    assert (set c | c in CpusFor(CONFIG, "", FG)) == {};
  }

  predicate Reaches(o: Out, k: KThread, now: nat, e: Entry) { o.x.k == k && o.x.now == now && o.e == Some(e) }

  function EntryIn(state: ProcessState, r: MatchResult, applied: Option<MatchResult>, m: Managed, b: Option<Baseline>): Entry {
    Entry(ID, "worker", "app", state, r, applied, m, b)
  }

  const LIMIT_MANAGED := Managed(false, false, true)

  // The state, policy and paths of ORIGINAL as a capture stores them, with the affinity or without.
  function Held(affinity: Option<set<int>>): Baseline {
    Baseline(affinity, Some(Sched(SCHED_NORMAL, 0, 0)), Some("/dev/cpuset/top-app"), Some("/dev/cpuctl/apps"))
  }

  lemma Paths()
    ensures CPUSET_ROOT + "/top-app" == "/dev/cpuset/top-app" && CPUCTL_ROOT + "/apps" == "/dev/cpuctl/apps"
    ensures KernelPath(CPUSET_ROOT, "/dev/cpuset/top-app") == "/top-app" && KernelPath(CPUCTL_ROOT, "/dev/cpuctl/apps") == "/apps"
  {
    KernelPathOf(CPUSET_ROOT, "/top-app");
    KernelPathOf(CPUCTL_ROOT, "/apps");
  }

  // The first dispatch under the rule, on the thread as it was: it captures everything, without the
  // affinity if that cannot be read, and moves the thread into the limit's group.
  lemma FirstLimited(env: Env, log: Log, due: bool)
    requires env.id == ID && env.born == 0 && env.dies.None? && env.outcome(7).ok
    requires env.outcome(2).readsSched && env.outcome(3).readsCgroup
    ensures var held := Held(if env.outcome(1).readsAffinity then Some({0}) else None);
      Reaches(Dispatch(env, TaskIn(FG), InputsFor(LIMITED, due), Ctx(ORIGINAL, 0, log), None),
              ORIGINAL.(cpuctl := LIMIT_PATH), 9, EntryIn(FG, LIMITED, Some(LIMITED), LIMIT_MANAGED, Some(held)))
  {
    Demands(due);
    Paths();
    hide CpuctlGroup, CpusetGroup, KernelPath, DemandOf;
    var i := CheckIdentity(env, Ctx(ORIGINAL, 0, log));
    var e := Updated(None, TaskIn(FG), LIMITED);
    var c := Capture(env, i.x, e);
    var held := Held(if env.outcome(1).readsAffinity then Some({0}) else None);
    assert c.e == e.(baseline := Some(held)) && c.x.now == 5;
    assert ApplyResult(env, LIMIT_DEMAND, LIMITED, i.x, e) == TakeOver(env, LIMIT_DEMAND, LIMITED, c.x, c.e);
  }

  // ---- A restore pass that fails -----------------------------------------------------------------------

  // One call fails: the second dispatch, a full restore pass, cannot set the policy back, and the call
  // leaves the thread with a real-time one.
  const UNRESTORED := Env(ID, 0, None,
    (t: nat) => Outcome(t != 16, true, true, true, true, {0}, "/top-app", Sched(SCHED_FIFO, 10, 0), "/apps"),
    (path: string) => {0})

  const CHANGED := ORIGINAL.(sched := Sched(SCHED_FIFO, 10, 0))

  lemma LimitGoesBack(x: Ctx)
    requires x.k == ORIGINAL.(cpuctl := LIMIT_PATH) && x.now == 11
    ensures var s := RestoreCpuctl(UNRESTORED, x, Held(Some({0}))); s.ok && s.x.k == ORIGINAL && s.x.now == 14
  {
    Paths();
    hide KernelPath;
  }

  lemma PolicyDoesNot(x: Ctx)
    requires x.k == ORIGINAL && x.now == 15
    ensures var s := RestoreScheduler(UNRESTORED, x, Held(Some({0}))); !s.ok && s.x.k == CHANGED && s.x.now == 17
  {
  }

  lemma PlacementGoesBack(x: Ctx)
    requires x.k == CHANGED && x.now == 18
    ensures var s := RestoreAffinity(UNRESTORED, x, Held(Some({0}))); s.x.k == CHANGED && s.x.now == 23
  {
    Paths();
    hide KernelPath;
    var i := CheckIdentity(UNRESTORED, x);
    var c := MoveCpuset(UNRESTORED, i.x, "/dev/cpuset/top-app");
    assert c.ok && c.x.k == CHANGED && c.x.now == 20;
    assert {0} * {0} == {0};
  }

  lemma FailingPass(log: Log, due: bool)
    ensures var start := EntryIn(FG, LIMITED, Some(LIMITED), LIMIT_MANAGED, Some(Held(Some({0}))));
      Reaches(Dispatch(UNRESTORED, TaskIn(BG), InputsFor(Unmatched(BG), due), Ctx(ORIGINAL.(cpuctl := LIMIT_PATH), 9, log), Some(start)),
              CHANGED, 24, EntryIn(BG, Unmatched(BG), Some(LIMITED), LIMIT_MANAGED, Some(Held(Some({0})))))
  {
    Demands(due);
    hide DemandOf, CpuctlGroup, CpusetGroup, KernelPath, RestoreCpuctl, RestoreScheduler, RestoreAffinity;
    var b := Held(Some({0}));
    var i := CheckIdentity(UNRESTORED, Ctx(ORIGINAL.(cpuctl := LIMIT_PATH), 9, log));
    var i0 := CheckIdentity(UNRESTORED, i.x);
    LimitGoesBack(i0.x);
    var i1 := CheckIdentity(UNRESTORED, RestoreCpuctl(UNRESTORED, i0.x, b).x);
    PolicyDoesNot(i1.x);
    var i2 := CheckIdentity(UNRESTORED, RestoreScheduler(UNRESTORED, i1.x, b).x);
    PlacementGoesBack(i2.x);
  }

  // The rule returns, and every call succeeds.
  lemma RuleReturns(log: Log, due: bool)
    ensures var start := EntryIn(BG, Unmatched(BG), Some(LIMITED), LIMIT_MANAGED, Some(Held(Some({0}))));
      var r := Dispatch(UNRESTORED, TaskIn(FG), InputsFor(LIMITED, due), Ctx(CHANGED, 24, log), Some(start));
      && r.x.k == CHANGED.(cpuctl := LIMIT_PATH) && r.x.now >= 24
      && r.e == Some(EntryIn(FG, LIMITED, Some(LIMITED), LIMIT_MANAGED, Some(Held(Some({0})))))
  {
    Demands(due);
    hide DemandOf, CpuctlGroup, CpusetGroup, KernelPath, Guards;
    var i := CheckIdentity(UNRESTORED, Ctx(CHANGED, 24, log));
    var e := EntryIn(FG, LIMITED, Some(LIMITED), LIMIT_MANAGED, Some(Held(Some({0}))));
    var c := Capture(UNRESTORED, i.x, e);
    assert c.e == e && c.x.now == 29;
    assert ApplyResult(UNRESTORED, LIMIT_DEMAND, LIMITED, i.x, e) == TakeOver(UNRESTORED, LIMIT_DEMAND, LIMITED, c.x, e);
  }

  // From then on every dispatch of the thread under the rule returns at once.
  lemma StaysChanged(later: Ctx, due: bool)
    requires later.k == CHANGED.(cpuctl := LIMIT_PATH) && later.now >= 24
    ensures var e := Some(EntryIn(FG, LIMITED, Some(LIMITED), LIMIT_MANAGED, Some(Held(Some({0})))));
      var r := Dispatch(UNRESTORED, TaskIn(FG), InputsFor(LIMITED, due), later, e);
      Silent(later, r.x) && r.e == e && r.x.now >= later.now
  {
    Demands(due);
    hide DemandOf, CpuctlGroup, CpusetGroup, KernelPath;
  }

  // The restore pass of the second dispatch fails in one call, and leaves a dimension that is not
  // managed off its original.
  lemma UnmanagedChanged(due1: bool, due2: bool)
    ensures
      var r1 := Dispatch(UNRESTORED, TaskIn(FG), InputsFor(LIMITED, due1), Ctx(ORIGINAL, 0, Start), None);
      var r2 := Dispatch(UNRESTORED, TaskIn(BG), InputsFor(Unmatched(BG), due2), r1.x, r1.e);
      && Reaches(r2, CHANGED, 24, EntryIn(BG, Unmatched(BG), Some(LIMITED), LIMIT_MANAGED, Some(Held(Some({0})))))
      && !Exact(ORIGINAL, r2.x.k, r2.e.value.managed)
  {
    hide Dispatch;
    FirstLimited(UNRESTORED, Start, due1);
    var r1 := Dispatch(UNRESTORED, TaskIn(FG), InputsFor(LIMITED, due1), Ctx(ORIGINAL, 0, Start), None);
    assert r1.x == Ctx(ORIGINAL.(cpuctl := LIMIT_PATH), 9, r1.x.log);
    FailingPass(r1.x.log, due2);
  }

  // Then the rule is back and every call succeeds, yet the scheduler, which the rule does not manage,
  // stays off its original at every later dispatch.
  lemma SchedulerLeftChanged(due1: bool, due2: bool, due3: bool)
    ensures
      var r1 := Dispatch(UNRESTORED, TaskIn(FG), InputsFor(LIMITED, due1), Ctx(ORIGINAL, 0, Start), None);
      var r2 := Dispatch(UNRESTORED, TaskIn(BG), InputsFor(Unmatched(BG), due2), r1.x, r1.e);
      var r3 := Dispatch(UNRESTORED, TaskIn(FG), InputsFor(LIMITED, due3), r2.x, r2.e);
      && Calm(UNRESTORED, r2.x.now) && !Met(LIMIT_DEMAND, r3.x.k, ORIGINAL)
      && forall later: Ctx, due :: later.k == r3.x.k && later.now >= r3.x.now ==>
           var r := Dispatch(UNRESTORED, TaskIn(FG), InputsFor(LIMITED, due), later, r3.e);
           Silent(later, r.x) && r.e == r3.e && r.x.now >= later.now
  {
    hide Dispatch, CpuctlGroup, KernelPath, Met, Calm, InputsFor, Silent;
    UnmanagedChanged(due1, due2);
    var r1 := Dispatch(UNRESTORED, TaskIn(FG), InputsFor(LIMITED, due1), Ctx(ORIGINAL, 0, Start), None);
    var r2 := Dispatch(UNRESTORED, TaskIn(BG), InputsFor(Unmatched(BG), due2), r1.x, r1.e);
    assert r2.x == Ctx(CHANGED, 24, r2.x.log);
    RuleReturns(r2.x.log, due3);
    var r3 := Dispatch(UNRESTORED, TaskIn(FG), InputsFor(LIMITED, due3), r2.x, r2.e);
    CalmButUnmet();
    forall later: Ctx, due | later.k == r3.x.k && later.now >= r3.x.now
      ensures var r := Dispatch(UNRESTORED, TaskIn(FG), InputsFor(LIMITED, due), later, r3.e);
        Silent(later, r.x) && r.e == r3.e && r.x.now >= later.now
    {
      StaysChanged(later, due);
    }
  }

  lemma CalmButUnmet()
    ensures Calm(UNRESTORED, 24) && !Met(LIMIT_DEMAND, CHANGED.(cpuctl := LIMIT_PATH), ORIGINAL)
  {
    hide CpuctlGroup, KernelPath;
  }

  // ---- A capture that misses the affinity ------------------------------------------------------------------

  // Every call succeeds, but the first dispatch cannot read the affinity; moving the thread between
  // cpusets puts it on CPU 7.
  const UNREAD := Env(ID, 0, None,
    (t: nat) => Outcome(true, t != 1, true, true, true, {7}, "/top-app", Sched(SCHED_NORMAL, 0, 0), "/apps"),
    (path: string) => {0, 7})

  lemma UnpairedPass(log: Log, due: bool)
    ensures var start := EntryIn(FG, LIMITED, Some(LIMITED), LIMIT_MANAGED, Some(Held(None)));
      var r := Dispatch(UNREAD, TaskIn(BG), InputsFor(Unmatched(BG), due), Ctx(ORIGINAL.(cpuctl := LIMIT_PATH), 9, log), Some(start));
      r.x.k == ORIGINAL.(affinity := {7}) && r.e == Some(EntryIn(BG, Unmatched(BG), None, UNMANAGED, None))
  {
    Demands(due);
    Paths();
    hide DemandOf, CpuctlGroup, CpusetGroup, KernelPath, Guards;
    var b := Held(None);
    var i := CheckIdentity(UNREAD, Ctx(ORIGINAL.(cpuctl := LIMIT_PATH), 9, log));
    var i0 := CheckIdentity(UNREAD, i.x);
    var s1 := RestoreCpuctl(UNREAD, i0.x, b);
    assert s1.ok && s1.x.k == ORIGINAL;
    var i1 := CheckIdentity(UNREAD, s1.x);
    var s2 := RestoreScheduler(UNREAD, i1.x, b);
    assert s2.ok && s2.x.k == ORIGINAL;
    var i2 := CheckIdentity(UNREAD, s2.x);
    var s3 := RestoreAffinity(UNREAD, i2.x, b);
    assert s3.ok && s3.x.k == ORIGINAL.(affinity := {7});
  }

  // The rule comes and goes, every call succeeds, and the thread is left on another CPU with nothing
  // stored that could bring it back.
  lemma AffinityLost(due1: bool, due2: bool)
    ensures
      var r1 := Dispatch(UNREAD, TaskIn(FG), InputsFor(LIMITED, due1), Ctx(ORIGINAL, 0, Start), None);
      var r2 := Dispatch(UNREAD, TaskIn(BG), InputsFor(Unmatched(BG), due2), r1.x, r1.e);
      && (forall t :: UNREAD.outcome(t).ok) && Sound(UNREAD, ORIGINAL)
      && r2.x.k.affinity != ORIGINAL.affinity && r2.e.Some? && r2.e.value.baseline.None?
  {
    FirstLimited(UNREAD, Start, due1);
    var r1 := Dispatch(UNREAD, TaskIn(FG), InputsFor(LIMITED, due1), Ctx(ORIGINAL, 0, Start), None);
    assert r1.x == Ctx(ORIGINAL.(cpuctl := LIMIT_PATH), 9, r1.x.log);
    UnpairedPass(r1.x.log, due2);
  }

  // ---- A path that goes wrong unseen -----------------------------------------------------------------------

  // The thread is in another cpuctl group than its rule's limit asks for, as after a restore pass that
  // failed elsewhere and a move back that failed too. While the cgroup check is not due, a dispatch of
  // the applied rule changes nothing, although nothing else is managed and every call would succeed.
  lemma WrongPathUnseen(later: nat, log: Log)
    ensures var e := EntryIn(FG, LIMITED, Some(LIMITED), LIMIT_MANAGED, Some(Held(Some({0}))));
      var x := Ctx(ORIGINAL, later, log);
      var r := Dispatch(UNRESTORED, TaskIn(FG), InputsFor(LIMITED, false), x, Some(e));
      && Covered(ORIGINAL, x.k, e.Held(), e.managed) && Exact(ORIGINAL, x.k, e.managed) && NoneElse(e.managed, LIMIT_DEMAND)
      && Silent(x, r.x) && r.e == Some(e) && !Met(LIMIT_DEMAND, r.x.k, ORIGINAL)
  {
    Demands(false);
    Paths();
    hide DemandOf, CpusetGroup;
    OtherPath();
  }

  lemma OtherPath()
    ensures LIMIT_PATH != "/apps"
  {
    var rest := "/ReUperf/app/A" + Decimal.Text(1);
    assert CpuctlGroup("app", 0) == CPUCTL_ROOT + rest;
    KernelPathOf(CPUCTL_ROOT, rest);
    assert |rest| > |"/apps"|;
  }
}
