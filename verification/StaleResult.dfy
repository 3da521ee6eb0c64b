// A run of three dispatches of one thread that leaves a scheduler priority behind for good, although
// the current rule manages no priority and no later dispatch meets a failing call.
module StaleResult {
  import opened Types
  import opened Kernel
  import opened Takeover
  import opened Engine
  import opened Restorability
  import opened Convergence

  const CONFIG := SchedConfig(
    map["big" := [7]], map["fast" := AffinityScene("big", "big", "big")],
    map["rt" := PrioScene(0, 0, 10)], [])

  // In the foreground the rule asks for CPUs only; at the top for the same CPUs and a priority.
  const IN_FG := MatchResult(true, "fast", "rt", "big", None, None, false, FG, "app", 0, false, false)
  const AT_TOP := MatchResult(true, "fast", "rt", "big", None, None, false, TOP, "app", 0, false, false)

  const ID := Ident(10, 11, 100, 200)
  const ORIGINAL := KThread("/top-app", {0}, Sched(SCHED_NORMAL, 0, 0), "/apps")

  // Three calls fail: the second dispatch cannot read the cgroup file to verify its take-over
  // (ticks 29 and 38), and the third cannot set the policy back (tick 51).
  const WORLD := Env(ID, 0, None,
    (t: nat) => Outcome(t != 51, true, true, t != 29 && t != 38, true, {7}, "/top-app/ReUperf_big",
                        Sched(SCHED_FIFO, 10, 0), "/apps"),
    (path: string) => {0, 7})

  function TaskIn(state: ProcessState): Task { Task(ID, "worker", state, "app", "app") }
  function InputsFor(r: MatchResult): Inputs { Inputs(CONFIG, 3, r, false, true) }

  const TARGET := Target(CpusetGroup("big"), {7}, 3)

  lemma Demands()
    ensures InputsFor(IN_FG).Demands(IN_FG) == Demand(true, true, TARGET, 0, false, 0, CpuctlGroup("app", 0))
    ensures InputsFor(AT_TOP).Demands(AT_TOP) == Demand(true, true, TARGET, 10, false, 0, CpuctlGroup("app", 0))
    ensures KernelPath(CPUSET_ROOT, TARGET.dir) == "/top-app/ReUperf_big"
  {
    assert (set c | c in [7]) == {7};
    assert CpusetGroup("big") == CPUSET_ROOT + "/top-app/ReUperf_big";
    KernelPathOf(CPUSET_ROOT, "/top-app/ReUperf_big");
  }

  const HELD := Baseline(Some({0}), Some(Sched(SCHED_NORMAL, 0, 0)), Some("/dev/cpuset/top-app"), Some("/dev/cpuctl/apps"))
  const TAKEN := KThread("/top-app/ReUperf_big", {7}, Sched(SCHED_NORMAL, 0, 0), "/apps")

  function EntryIn(state: ProcessState, r: MatchResult, priority: bool): Entry {
    Entry(ID, "worker", "app", state, r, Some(IN_FG), Managed(true, priority, false), Some(HELD))
  }

  predicate Reaches(o: Out, k: KThread, now: nat, e: Entry) { o.x.k == k && o.x.now == now && o.e == Some(e) }

  // An attempt started at tick `x.now` takes eight ticks and reads the cgroup file at the seventh.
  lemma AttemptAt(x: Ctx)
    requires x.log.Checked(ID) && x.now + 8 < 51
    ensures var a := RunAttempt(WORLD, TARGET, x);
      && a.x.k == x.k.(cpuset := TAKEN.cpuset, affinity := {7}) && a.x.now == x.now + 8
      && a.verdict == Some(Verdict(x.now + 6 != 29 && x.now + 6 != 38, true))
  {
    Demands();
    assert forall path :: {7} * WORLD.allowed(path) == {7};
    var pre := SetAffinity(WORLD, x, {7});
    var i1 := CheckIdentity(WORLD, pre.x);
    assert WriteCpusetRetrying(WORLD, i1.x.Called(Cpuset(ID, TARGET.dir)), TARGET.dir, 3).ok;
    var first := MoveToMask(WORLD, i1.x, TARGET.dir, 3);
    assert first.ok && first.x.now == x.now + 3;
  }

  lemma TakeoverAt(x: Ctx)
    requires x.now == 5 || x.now == 22
    ensures var t := RunTakeover(WORLD, TARGET, x, 2);
      && t.x.k == x.k.(cpuset := TAKEN.cpuset, affinity := {7})
      && t.x.now == (if x.now == 5 then 14 else 40) && t.flags.Success() == (x.now == 5)
  {
    var r0 := Taken(x, 0, Verdict(false, false), None);
    var i := CheckIdentity(WORLD, x);
    AttemptAt(i.x);
    var a := RunAttempt(WORLD, TARGET, i.x);
    var r1 := Taken(a.x, 1, a.verdict.value, a.verdict);
    assert RunFrom(WORLD, TARGET, r0, 2) == RunFrom(WORLD, TARGET, r1, 1);
    if x.now == 22 {
      var j := CheckIdentity(WORLD, a.x);
      AttemptAt(j.x);
      var b := RunAttempt(WORLD, TARGET, j.x);
      assert RunFrom(WORLD, TARGET, r1, 1) == RunFrom(WORLD, TARGET, Taken(b.x, 2, b.verdict.value, b.verdict), 0);
    }
  }

  lemma CaptureAt(x: Ctx, e: Entry)
    requires (x.k == ORIGINAL && e.baseline.None? && x.now < 20) || e.baseline == Some(HELD)
    ensures var c := Capture(WORLD, x, e); c.x.k == x.k && c.x.now == x.now + 4 && c.e == e.(baseline := Some(HELD))
  {
    assert CPUSET_ROOT + "/top-app" == "/dev/cpuset/top-app" && CPUCTL_ROOT + "/apps" == "/dev/cpuctl/apps";
  }

  function DemandFor(prio: int): Demand { Demand(true, true, TARGET, prio, false, 0, CpuctlGroup("app", 0)) }

  lemma TakeOverAt(x: Ctx, e: Entry, r: MatchResult)
    requires x.now == 5 || x.now == 22
    ensures var prio := if x.now == 5 then 0 else 10;
      var o := TakeOver(WORLD, DemandFor(prio), r, x, e);
      && o.x.k == (if prio == 0 then x.k else x.k.(sched := Sched(SCHED_FIFO, 10, x.k.sched.nice))).(
            cpuset := TAKEN.cpuset, affinity := {7})
      && o.x.now == (if prio == 0 then 17 else 45)
      && o.e == Some(e.(managed := Managed(true, e.managed.priority || prio != 0, e.managed.cpuctl),
                        applied := if prio == 0 then Some(r) else e.applied))
  {
    hide RunTakeover, CpuctlGroup, CpusetGroup;
    TakeoverAt(x);
    var prio := if x.now == 5 then 0 else 10;
    var d := DemandFor(prio);
    var a := ApplyAffinity(WORLD, d, x);
    assert a == Step(RunTakeover(WORLD, TARGET, x, 2).x, prio == 0);
    var i1 := CheckIdentity(WORLD, a.x);
    var p := SetPriority(WORLD, i1.x, prio);
    assert p.ok && p.x.now == i1.x.now + (if prio == 0 then 0 else 1);
  }

  lemma ApplyAt(x: Ctx, e: Entry, r: MatchResult)
    requires || (x.now == 1 && x.k == ORIGINAL && e.baseline.None? && e.managed == UNMANAGED)
             || (x.now == 18 && e.baseline == Some(HELD) && e.managed == Managed(true, false, false))
    ensures var prio := if x.now == 1 then 0 else 10;
      var y, m := Capture(WORLD, x, e).x, e.(baseline := Some(HELD));
      y.now == x.now + 4 && y.k == x.k
      && ApplyResult(WORLD, DemandFor(prio), r, x, e) == TakeOver(WORLD, DemandFor(prio), r, y, m)
  {
    CaptureAt(x, e);
  }

  lemma First(log: Log)
    ensures Reaches(Dispatch(WORLD, TaskIn(FG), InputsFor(IN_FG), Ctx(ORIGINAL, 0, log), None),
                    TAKEN, 17, EntryIn(FG, IN_FG, false))
  {
    hide Capture, TakeOver, ApplyResult, CpuctlGroup, CpusetGroup, KernelPath, Guards;
    Demands();
    var i := CheckIdentity(WORLD, Ctx(ORIGINAL, 0, log));
    var e := Updated(None, TaskIn(FG), IN_FG);
    ApplyAt(i.x, e, IN_FG);
    TakeOverAt(Capture(WORLD, i.x, e).x, e.(baseline := Some(HELD)), IN_FG);
  }

  lemma Second(log: Log)
    ensures Reaches(Dispatch(WORLD, TaskIn(TOP), InputsFor(AT_TOP), Ctx(TAKEN, 17, log), Some(EntryIn(FG, IN_FG, false))),
                    TAKEN.(sched := Sched(SCHED_FIFO, 10, 0)), 45, EntryIn(TOP, AT_TOP, true))
  {
    hide Capture, TakeOver, ApplyResult, CpuctlGroup, CpusetGroup, KernelPath, Guards;
    Demands();
    var i := CheckIdentity(WORLD, Ctx(TAKEN, 17, log));
    var e := Updated(Some(EntryIn(FG, IN_FG, false)), TaskIn(TOP), AT_TOP);
    ApplyAt(i.x, e, AT_TOP);
    TakeOverAt(Capture(WORLD, i.x, e).x, e.(baseline := Some(HELD)), AT_TOP);
  }

  const PRIORITISED := TAKEN.(sched := Sched(SCHED_FIFO, 10, 0))

  lemma Third(log: Log)
    ensures Reaches(Dispatch(WORLD, TaskIn(FG), InputsFor(IN_FG), Ctx(PRIORITISED, 45, log), Some(EntryIn(TOP, AT_TOP, true))),
                    PRIORITISED, 52, EntryIn(FG, IN_FG, true))
  {
    Demands();
    hide Guards, KernelPath, CpuctlGroup, CpusetGroup;
    var i := CheckIdentity(WORLD, Ctx(PRIORITISED, 45, log));
    var e := Updated(Some(EntryIn(TOP, AT_TOP, true)), TaskIn(FG), IN_FG);
    CaptureAt(i.x, e);
    var c := Capture(WORLD, i.x, e);
    hide Capture;
    FreeFails(c.x);
    hide Free;
  }

  // The policy cannot be set back.
  lemma FreeFails(x: Ctx)
    requires x.k == PRIORITISED && x.now == 50
    ensures var f := Free(WORLD, DemandFor(0), x, Managed(true, true, false), HELD);
      f == Freed(f.x, Managed(true, true, false), false) && f.x.k == PRIORITISED && f.x.now == 52
  {
    hide CpuctlGroup, CpusetGroup, RestoreAffinity;
  }

  // From then on every dispatch of the thread under the rule returns at once.
  lemma Later(later: Ctx, inp: Inputs)
    requires later.k == PRIORITISED && later.now >= 52 && inp.cfg == CONFIG && inp.tries == 3
    ensures var r := Dispatch(WORLD, TaskIn(FG), inp, later, Some(EntryIn(FG, IN_FG, true)));
      Silent(later, r.x) && r.e == Some(EntryIn(FG, IN_FG, true)) && r.x.now >= later.now
  {
    Demands();
    assert inp.Demands(IN_FG) == InputsFor(IN_FG).Demands(IN_FG);
    var i := CheckIdentity(WORLD, later);
    assert !CheckDrift(WORLD, inp.Demands(IN_FG), inp.due, i.x).drift;
  }

  // After the third dispatch the rule manages no priority, the thread still has the old one, and no
  // later dispatch under the rule, whenever it comes and whether or not its checks are due, changes
  // the thread or the entry.
  lemma PriorityLeftBehind()
    ensures
      var r1 := Dispatch(WORLD, TaskIn(FG), InputsFor(IN_FG), Ctx(ORIGINAL, 0, Start), None);
      var r2 := Dispatch(WORLD, TaskIn(TOP), InputsFor(AT_TOP), r1.x, r1.e);
      var r3 := Dispatch(WORLD, TaskIn(FG), InputsFor(IN_FG), r2.x, r2.e);
      && InputsFor(IN_FG).Demands(IN_FG).prio == 0 && !SchedHome(r3.x.k, ORIGINAL)
      && forall later: Ctx, inp: Inputs :: later.k == r3.x.k && later.now >= r3.x.now && inp.cfg == CONFIG && inp.tries == 3 ==>
           var r := Dispatch(WORLD, TaskIn(FG), inp, later, r3.e);
           Silent(later, r.x) && r.e == r3.e && r.x.now >= later.now
  {
    hide Dispatch;
    First(Start);
    var r1 := Dispatch(WORLD, TaskIn(FG), InputsFor(IN_FG), Ctx(ORIGINAL, 0, Start), None);
    assert r1.x == Ctx(TAKEN, 17, r1.x.log);
    Second(r1.x.log);
    var r2 := Dispatch(WORLD, TaskIn(TOP), InputsFor(AT_TOP), r1.x, r1.e);
    assert r2.x == Ctx(PRIORITISED, 45, r2.x.log);
    Third(r2.x.log);
    var r3 := Dispatch(WORLD, TaskIn(FG), InputsFor(IN_FG), r2.x, r2.e);
    Demands();
    forall later: Ctx, inp: Inputs | later.k == r3.x.k && later.now >= r3.x.now && inp.cfg == CONFIG && inp.tries == 3
      ensures var r := Dispatch(WORLD, TaskIn(FG), inp, later, r3.e);
        Silent(later, r.x) && r.e == r3.e && r.x.now >= later.now
    {
      Later(later, inp);
    }
  }
}
