// The setter operations of each piece of the scheduler, in the order in which they are made, for any
// outcomes: what fails on the way suppresses nothing that the source goes on with.
module Order {
  import opened Types
  import opened Kernel
  import opened Takeover
  import opened Engine

  // The setter operations of a log, oldest first.
  function Ops(log: Log): seq<Call> {
    if log.Start? then [] else Ops(log.earlier) + (if Mutates(log.call) then [log.call] else [])
  }

  function If(c: bool, call: Call): seq<Call> { if c then [call] else [] }

  // ---- One setter operation -----------------------------------------------------------------------------

  lemma {:induction false} RetriesAddNone(env: Env, x: Ctx, dir: string, tries: nat)
    ensures Ops(WriteCpusetRetrying(env, x, dir, tries).x.log) == Ops(x.log)
    decreases tries
  {
    if tries > 1 {
      var s := WriteCpuset(env, x, dir);
      assert Ops(s.x.Called(Again(env.id)).log) == Ops(x.log);
      RetriesAddNone(env, s.x.Called(Again(env.id)), dir, tries - 1);
    }
  }

  lemma MoveToMaskOps(env: Env, x: Ctx, dir: string, tries: nat)
    ensures Ops(MoveToMask(env, x, dir, tries).x.log) == Ops(x.log) + [Cpuset(env.id, dir)]
  {
    RetriesAddNone(env, x.Called(Cpuset(env.id, dir)), dir, tries);
  }

  lemma CheckOps(env: Env, x: Ctx)
    ensures Ops(CheckIdentity(env, x).x.log) == Ops(x.log) == Ops(ReadCall(env, x).log)
  {
  }

  // An affinity request and the check after it.
  lemma AffinityOps(env: Env, x: Ctx, cpus: set<int>)
    ensures var s := SetAffinity(env, x, cpus);
      Ops(CheckIdentity(env, s.x).x.log) == Ops(s.x.log) == Ops(x.log) + If(cpus != {}, Affinity(env.id, cpus))
  {
  }

  // A move and the check after it.
  lemma MoveOps(env: Env, x: Ctx, dir: string)
    ensures var s := MoveCpuset(env, x, dir);
      Ops(CheckIdentity(env, s.x).x.log) == Ops(s.x.log) == Ops(x.log) + [Cpuset(env.id, dir)]
    ensures var s := MoveCpuctl(env, x, dir);
      Ops(CheckIdentity(env, s.x).x.log) == Ops(s.x.log) == Ops(x.log) + [Cpuctl(env.id, dir)]
  {
  }

  lemma SchedulerOps(env: Env, x: Ctx, prio: int, to: Sched)
    ensures var s := SetPriority(env, x, prio);
      Ops(CheckIdentity(env, s.x).x.log) == Ops(s.x.log) == Ops(x.log) + If(ValidPrio(prio), Scheduler(env.id))
    ensures var s := RestoreSched(env, x, to);
      Ops(CheckIdentity(env, s.x).x.log) == Ops(s.x.log) == Ops(x.log) + If(to.policy >= 0, Scheduler(env.id))
  {
  }

  // ---- The take-over ------------------------------------------------------------------------------------

  // What the recovery from a failed move does.
  function RecoveryOps(id: Ident, t: Target): seq<Call> {
    If(t.cpus != {}, Affinity(id, t.cpus)) + [Cpuset(id, CPUSET_PARENT)]
    + If(t.cpus != {}, Affinity(id, t.cpus)) + [Cpuset(id, t.dir)]
  }

  lemma RecoverOrder(env: Env, t: Target, x: Ctx)
    requires Recover(env, t, x).ok
    ensures Ops(Recover(env, t, x).x.log) == Ops(x.log) + RecoveryOps(env.id, t)
  {
    hide CheckIdentity, SetAffinity, MoveCpuset, MoveToMask, Ops, GuardedRun, SetterCall;
    var i1 := CheckIdentity(env, x);
    CheckOps(env, x);
    AffinityOps(env, i1.x, t.cpus);
    var i2 := CheckIdentity(env, SetAffinity(env, i1.x, t.cpus).x);
    MoveOps(env, i2.x, CPUSET_PARENT);
    var i3 := CheckIdentity(env, MoveCpuset(env, i2.x, CPUSET_PARENT).x);
    AffinityOps(env, i3.x, t.cpus);
    var i4 := CheckIdentity(env, SetAffinity(env, i3.x, t.cpus).x);
    MoveToMaskOps(env, i4.x, t.dir, t.tries);
  }

  // An attempt that no identity check cuts short: the affinity, the move, the recovery exactly if the
  // move failed, and the affinity again.
  lemma AttemptOrder(env: Env, t: Target, x: Ctx)
    requires x.log.Checked(env.id) && RunAttempt(env, t, x).verdict.Some?
    ensures var pre := CheckIdentity(env, SetAffinity(env, x, t.cpus).x);
      var moved := MoveToMask(env, pre.x, t.dir, t.tries);
      Ops(RunAttempt(env, t, x).x.log) == Ops(x.log)
        + If(t.cpus != {}, Affinity(env.id, t.cpus)) + [Cpuset(env.id, t.dir)]
        + (if moved.ok then [] else RecoveryOps(env.id, t)) + If(t.cpus != {}, Affinity(env.id, t.cpus))
  {
    hide CheckIdentity, SetAffinity, MoveToMask, Ops, Recover, ReadCall, RecoveryOps, GuardedRun, SetterCall, CpusetReads, AffinityReads;
    AffinityOps(env, x, t.cpus);
    var i1 := CheckIdentity(env, SetAffinity(env, x, t.cpus).x);
    var first := MoveToMask(env, i1.x, t.dir, t.tries);
    MoveToMaskOps(env, i1.x, t.dir, t.tries);
    if !first.ok { RecoverOrder(env, t, first.x); }
    var moved := MoveOrRecover(env, t, i1.x);
    CheckOps(env, moved.x);
    var i2 := CheckIdentity(env, moved.x);
    AffinityOps(env, i2.x, t.cpus);
    var i3 := CheckIdentity(env, SetAffinity(env, i2.x, t.cpus).x);
    CheckOps(env, i3.x);
    CheckOps(env, ReadCall(env, i3.x));
  }

  // ---- The three setters of a take-over -------------------------------------------------------------------

  // A thread that is there to the end gets an operation in every demanded dimension, after all of the
  // placement's, whatever failed before it.
  lemma ApplyOrder(env: Env, d: Demand, x: Ctx)
    requires ApplyAll(env, d, x).there && d.matched
    ensures Ops(ApplyAll(env, d, x).x.log) == Ops(ApplyAffinity(env, d, x).x.log)
      + If(ValidPrio(d.prio), Scheduler(env.id)) + If(d.limit && d.index >= 0, Cpuctl(env.id, d.cpuctlDir))
  {
    hide CheckIdentity, SetPriority, MoveCpuctl, Ops, ApplyAffinity, SetterCall, Guards;
    var a := ApplyAffinity(env, d, x);
    CheckOps(env, a.x);
    var i1 := CheckIdentity(env, a.x);
    SchedulerOps(env, i1.x, d.prio, Sched(0, 0, 0));
    var i2 := CheckIdentity(env, SetPriority(env, i1.x, d.prio).x);
    MoveOps(env, i2.x, d.cpuctlDir);
    CheckOps(env, i2.x);
  }

  // ---- Giving back ---------------------------------------------------------------------------------------

  // The operations that give a baseline back: the cpuctl group, the scheduler, the cpuset, the affinity.
  function GiveBackOps(id: Ident, b: Baseline): seq<Call> {
    (if b.cpuctl.Some? then [Cpuctl(id, b.cpuctl.value)] else [])
    + If(b.sched.Some? && b.sched.value.policy >= 0, Scheduler(id))
    + (if b.cpuset.Some? then [Cpuset(id, b.cpuset.value)] else [])
    + (if b.affinity.Some? && b.affinity.value != {} then [Affinity(id, b.affinity.value)] else [])
  }

  lemma RestoreOps(env: Env, x: Ctx, b: Baseline)
    requires env.Alive(x.now)
    ensures b.cpuctl.Some? ==> Ops(RestoreCpuctl(env, x, b).x.log) == Ops(x.log) + [Cpuctl(env.id, b.cpuctl.value)]
    ensures b.sched.Some? ==>
      Ops(RestoreScheduler(env, x, b).x.log) == Ops(x.log) + If(b.sched.value.policy >= 0, Scheduler(env.id))
  {
    hide MoveCpuctl, RestoreSched, Ops, SetterCall, Guards;
    CheckOps(env, x);
    var i := CheckIdentity(env, x);
    if b.cpuctl.Some? { MoveOps(env, i.x, b.cpuctl.value); }
    if b.sched.Some? { SchedulerOps(env, i.x, 0, b.sched.value); }
  }

  lemma MoveLater(env: Env, x: Ctx, dir: string)
    ensures x.now <= MoveCpuset(env, x, dir).x.now
  {
    hide MoveCpuset;
  }

  lemma PlacementOps(env: Env, x: Ctx, b: Baseline)
    requires CheckIdentity(env, RestoreAffinity(env, x, b).x).ok && env.born <= x.now
    ensures Ops(RestoreAffinity(env, x, b).x.log) == Ops(x.log)
      + (if b.cpuset.Some? then [Cpuset(env.id, b.cpuset.value)] else [])
      + (if b.affinity.Some? && b.affinity.value != {} then [Affinity(env.id, b.affinity.value)] else [])
  {
    hide MoveCpuset, SetAffinity, Ops, SetterCall, Guards;
    CheckOps(env, x);
    var i := CheckIdentity(env, x);
    if b.cpuset.Some? { MoveOps(env, i.x, b.cpuset.value); MoveLater(env, i.x, b.cpuset.value); }
    var c := if b.cpuset.Some? then MoveCpuset(env, i.x, b.cpuset.value) else Step(x, true);
    CheckOps(env, c.x);
    var j := CheckIdentity(env, c.x);
    assert b.affinity.Some? ==> j.ok;
    if b.affinity.Some? && b.affinity.value != {} { AffinityOps(env, j.x, b.affinity.value); }
    var a := if b.affinity.None? then Step(c.x, true)
             else if b.affinity.value == {} then Step(j.x, false) else SetAffinity(env, j.x, b.affinity.value);
    CheckOps(env, a.x);
  }

  // A full restore pass that does not find the thread gone tries every captured dimension.
  lemma GiveBackOrder(env: Env, x: Ctx, b: Baseline)
    requires GiveBack(env, x, b).verdict != Stale
    ensures Ops(GiveBack(env, x, b).x.log) == Ops(x.log) + GiveBackOps(env.id, b)
  {
    hide RestoreCpuctl, RestoreScheduler, RestoreAffinity, Ops, Guards, If, GiveBackOps;
    CheckOps(env, x);
    var i0 := CheckIdentity(env, x);
    var s1 := if b.cpuctl.Some? then RestoreCpuctl(env, i0.x, b) else Step(i0.x, true);
    CheckOps(env, s1.x);
    var i1 := CheckIdentity(env, s1.x);
    var s2 := if b.sched.Some? then RestoreScheduler(env, i1.x, b) else Step(i1.x, true);
    CheckOps(env, s2.x);
    var i2 := CheckIdentity(env, s2.x);
    CheckOps(env, RestoreAffinity(env, i2.x, b).x);
    Later(env, i0.x, b);
    AliveBefore(env, i0.x, s1.x);
    RestoreOps(env, i0.x, b);
    Later(env, i1.x, b);
    AliveBefore(env, i1.x, s2.x);
    RestoreOps(env, i1.x, b);
    PlacementOps(env, i2.x, b);
    InOrder(env.id, b, Ops(x.log), Ops(s1.x.log), Ops(s2.x.log), Ops(RestoreAffinity(env, i2.x, b).x.log));
  }

  lemma InOrder(id: Ident, b: Baseline, a0: seq<Call>, a1: seq<Call>, a2: seq<Call>, a3: seq<Call>)
    requires a1 == if b.cpuctl.Some? then a0 + [Cpuctl(id, b.cpuctl.value)] else a0
    requires a2 == if b.sched.Some? then a1 + If(b.sched.value.policy >= 0, Scheduler(id)) else a1
    requires a3 == a2 + (if b.cpuset.Some? then [Cpuset(id, b.cpuset.value)] else [])
      + (if b.affinity.Some? && b.affinity.value != {} then [Affinity(id, b.affinity.value)] else [])
    ensures a3 == a0 + GiveBackOps(id, b)
  {
  }

  lemma Later(env: Env, x: Ctx, b: Baseline)
    ensures x.now <= RestoreCpuctl(env, x, b).x.now && x.now <= RestoreScheduler(env, x, b).x.now
  {
    hide RestoreCpuctl, RestoreScheduler;
  }

  // A thread that is there at a later check was there before.
  lemma AliveBefore(env: Env, x: Ctx, y: Ctx)
    requires CheckIdentity(env, y).ok && env.born <= x.now <= y.now
    ensures env.Alive(x.now)
  {
  }

  lemma UndoLimitsOrder(env: Env, x: Ctx, b: Baseline)
    requires UndoLimits(env, x, b).there
    ensures Ops(UndoLimits(env, x, b).x.log) == Ops(x.log)
      + (if b.cpuctl.Some? then [Cpuctl(env.id, b.cpuctl.value)] else [])
      + If(b.sched.Some? && b.sched.value.policy >= 0, Scheduler(env.id))
  {
    hide MoveCpuctl, RestoreSched, Ops, SetterCall, Guards;
    CheckOps(env, x);
    var i0 := CheckIdentity(env, x);
    CheckOps(env, i0.x);
    var ic := CheckIdentity(env, i0.x);
    if b.cpuctl.Some? { MoveOps(env, ic.x, b.cpuctl.value); }
    var s1 := if b.cpuctl.Some? then MoveCpuctl(env, ic.x, b.cpuctl.value) else Step(i0.x, true);
    CheckOps(env, s1.x);
    var i1 := CheckIdentity(env, s1.x);
    if b.sched.Some? { SchedulerOps(env, i1.x, 0, b.sched.value); }
    var s2 := if b.sched.Some? then RestoreSched(env, i1.x, b.sched.value) else Step(i1.x, true);
    CheckOps(env, s2.x);
  }

  lemma UndoPlacementOrder(env: Env, x: Ctx, b: Baseline)
    requires x.log.Checked(env.id) && UndoPlacement(env, x, b).there
    ensures Ops(UndoPlacement(env, x, b).x.log) == Ops(x.log)
      + (if b.cpuset.Some? then [Cpuset(env.id, b.cpuset.value)] else [])
      + (if b.affinity.Some? && b.affinity.value != {} then [Affinity(env.id, b.affinity.value)] else [])
  {
    hide MoveCpuset, SetAffinity, Ops, SetterCall, Guards;
    if b.cpuset.Some? { MoveOps(env, x, b.cpuset.value); }
    var s3 := if b.cpuset.Some? then MoveCpuset(env, x, b.cpuset.value) else Step(x, true);
    CheckOps(env, s3.x);
    var i3 := CheckIdentity(env, s3.x);
    if b.affinity.Some? { AffinityOps(env, i3.x, b.affinity.value); }
    CheckOps(env, i3.x);
  }

  // So does restore_all_thread_baselines.
  lemma UndoOrder(env: Env, x: Ctx, b: Baseline)
    requires Undo(env, x, b).verdict != Stale
    ensures Ops(Undo(env, x, b).x.log) == Ops(x.log) + GiveBackOps(env.id, b)
  {
    hide UndoLimits, UndoPlacement, Ops, Guards;
    UndoLimitsOrder(env, x, b);
    UndoPlacementOrder(env, UndoLimits(env, x, b).x, b);
  }
}
