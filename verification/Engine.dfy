// ScanWorker's dispatch of one thread: capture the original state, restore what the rule no longer
// manages, take over what it does, and give everything back when nothing is managed any more
// (core/scan_worker.hpp), together with the per-thread part of restore_all_thread_baselines.
//
// Each function follows the source call by call over a `Ctx`; the imperative worker in
// ScanWorker.dfy is proved to compute exactly these functions.
module Engine {
  import opened Types
  import opened Kernel
  import opened Takeover

  datatype Baseline = Baseline(
    affinity: Option<set<int>>, sched: Option<Sched>, cpuset: Option<string>, cpuctl: Option<string>)

  const NO_BASELINE := Baseline(None, None, None, None)

  datatype Managed = Managed(affinity: bool, priority: bool, cpuctl: bool)

  const UNMANAGED := Managed(false, false, false)

  datatype Entry = Entry(
    id: Ident, name: string, cmdline: string, state: ProcessState, result: MatchResult,
    applied: Option<MatchResult>, managed: Managed, baseline: Option<Baseline>)
  {
    // The captured dimensions, none if there is no baseline.
    function Held(): Baseline { if baseline.Some? then baseline.value else NO_BASELINE }
  }

  // What a match result asks of the setters.
  datatype Demand = Demand(
    matched: bool, affinity: bool, target: Target, prio: int, limit: bool, index: int, cpuctlDir: string)
  {
    predicate NeedsManaging() { matched && (affinity || prio != 0 || limit) }
  }

  function DemandOf(cfg: SchedConfig, tries: nat, r: MatchResult): Demand {
    Demand(r.matched, HasResolvedAffinity(r),
           Target(CpusetGroup(r.cpumaskName),
                  (set c | c in CpusFor(cfg, r.affinityClass, r.effectiveState)), tries),
           PrioFor(cfg, r.prioClass, r.effectiveState), r.enableLimit, r.threadRuleIndex,
           if r.threadRuleIndex < 0 then "" else CpuctlGroup(r.ruleName, r.threadRuleIndex))
  }

  // Time does not run back, every setter operation stays guarded, and no call is forgotten.
  ghost predicate Guards(x: Ctx, y: Ctx) {
    && x.now <= y.now && (x.log.Guarded() ==> y.log.Guarded())
    && x.log.Mutations() <= y.log.Mutations() && x.log.Repeats() <= y.log.Repeats()
  }

  // ---- Restoring one dimension -----------------------------------------------------------------

  // restore_affinity_baseline: cpuset first, because the move may overwrite the affinity.
  function RestoreAffinity(env: Env, x: Ctx, b: Baseline): (s: Step)
    ensures s.x.k == x.k.(affinity := s.x.k.affinity, cpuset := s.x.k.cpuset) && Guards(x, s.x)
    ensures b.cpuset.None? ==> s.x.k.cpuset == x.k.cpuset
    ensures b.cpuset.None? && b.affinity.None? ==> s.x.k == x.k
    ensures s.ok && b.cpuset.Some? ==> s.x.k.cpuset == KernelPath(CPUSET_ROOT, b.cpuset.value)
    ensures s.ok && b.affinity.Some? ==> s.x.k.affinity == b.affinity.value * env.allowed(s.x.k.cpuset)
  {
    var c := if b.cpuset.None? then Step(x, true) else
      var i := CheckIdentity(env, x);
      if i.ok then MoveCpuset(env, i.x, b.cpuset.value) else i;
    if b.cpuset.Some? && !env.Alive(x.now) then c else
    var i := CheckIdentity(env, c.x);
    if b.affinity.Some? && !i.ok then i else
    var a := if b.affinity.None? then Step(c.x, true)
             else if b.affinity.value == {} then Step(i.x, false)
             else SetAffinity(env, i.x, b.affinity.value);
    if c.ok && a.ok then CheckIdentity(env, a.x) else Step(a.x, false)
  }

  function RestoreScheduler(env: Env, x: Ctx, b: Baseline): (s: Step)
    ensures s.x.k == x.k.(sched := s.x.k.sched) && Guards(x, s.x)
    ensures s.ok ==> b.sched.Some? && SameSched(s.x.k.sched, b.sched.value)
    ensures b.sched.None? ==> s.x.k == x.k
  {
    var i := CheckIdentity(env, x);
    if !i.ok || b.sched.None? then Step(i.x, false) else
    var r := RestoreSched(env, i.x, b.sched.value);
    if r.ok then CheckIdentity(env, r.x) else r
  }

  function RestoreCpuctl(env: Env, x: Ctx, b: Baseline): (s: Step)
    ensures s.x.k == x.k.(cpuctl := s.x.k.cpuctl) && Guards(x, s.x)
    ensures s.ok ==> b.cpuctl.Some? && s.x.k.cpuctl == KernelPath(CPUCTL_ROOT, b.cpuctl.value)
    ensures b.cpuctl.None? ==> s.x.k == x.k
  {
    var i := CheckIdentity(env, x);
    if !i.ok || b.cpuctl.None? then Step(i.x, false) else
    var r := MoveCpuctl(env, i.x, b.cpuctl.value);
    if r.ok then CheckIdentity(env, r.x) else r
  }

  // ---- Capturing ---------------------------------------------------------------------------------

  function CaptureAffinity(env: Env, x: Ctx): Option<set<int>> {
    if env.Alive(x.now) && env.outcome(x.now).readsAffinity && x.k.affinity != {}
    then Some(x.k.affinity) else None
  }

  function CaptureSched(env: Env, x: Ctx): Option<Sched> {
    if env.Alive(x.now) && env.outcome(x.now).readsSched && x.k.sched.policy >= 0
    then Some(x.k.sched.(nice := if NiceCounts(x.k.sched.policy) then x.k.sched.nice else 0)) else None
  }

  function CapturePath(env: Env, x: Ctx, root: string, path: string): Option<string> {
    if env.Alive(x.now) && env.outcome(x.now).readsCgroup && path != "" then Some(root + path) else None
  }

  // ThreadCache::set_baseline: a dimension that is already captured is never overwritten.
  function Merge(kept: Option<Baseline>, seen: Baseline): Baseline {
    if kept.None? then seen else
    Baseline(if kept.value.affinity.Some? then kept.value.affinity else seen.affinity,
             if kept.value.sched.Some? then kept.value.sched else seen.sched,
             if kept.value.cpuset.Some? then kept.value.cpuset else seen.cpuset,
             if kept.value.cpuctl.Some? then kept.value.cpuctl else seen.cpuctl)
  }

  datatype Captured = Captured(x: Ctx, e: Entry)

  datatype Seen = Seen(x: Ctx, b: Baseline)

  // What can be read of the thread's present state.
  function ReadState(env: Env, x: Ctx): (s: Seen)
    ensures s.x.k == x.k && Guards(x, s.x) && s.x.now == x.now + 3
  {
    var x1 := ReadCall(env, x);
    var x2 := ReadCall(env, x1);
    Seen(ReadCall(env, x2),
         Baseline(CaptureAffinity(env, x), CaptureSched(env, x1),
                  CapturePath(env, x2, CPUSET_ROOT, x.k.cpuset),
                  CapturePath(env, x2, CPUCTL_ROOT, x.k.cpuctl)))
  }

  // capture_baseline_if_needed
  function Capture(env: Env, x: Ctx, e: Entry): (c: Captured)
    ensures c.x.k == x.k && Guards(x, c.x)
    ensures c.e == e.(baseline := c.e.baseline)
  {
    var seen := ReadState(env, x);
    var i := CheckIdentity(env, seen.x);
    Captured(i.x, if i.ok then e.(baseline := Some(Merge(e.baseline, seen.b))) else e)
  }

  // ---- Applying a result ----------------------------------------------------------------------------

  // A thread's state after a dispatch; `None` means its cache entry was erased.
  datatype Out = Out(x: Ctx, e: Option<Entry>)

  datatype Verdict = Stale | Restored | Failed

  datatype Undone = Undone(x: Ctx, verdict: Verdict)

  // Give back every captured dimension, in the reverse of the apply order.
  function GiveBack(env: Env, x: Ctx, b: Baseline): (u: Undone)
    ensures Guards(x, u.x)
  {
    var i0 := CheckIdentity(env, x);
    if !i0.ok then Undone(i0.x, Stale) else
    var s1 := if b.cpuctl.Some? then RestoreCpuctl(env, i0.x, b) else Step(i0.x, true);
    var i1 := CheckIdentity(env, s1.x);
    if !i1.ok then Undone(i1.x, Stale) else
    var s2 := if b.sched.Some? then RestoreScheduler(env, i1.x, b) else Step(i1.x, true);
    var i2 := CheckIdentity(env, s2.x);
    if !i2.ok then Undone(i2.x, Stale) else
    var s3 := RestoreAffinity(env, i2.x, b);
    var i3 := CheckIdentity(env, s3.x);
    Undone(i3.x, if !i3.ok then Stale else if s1.ok && s2.ok && s3.ok then Restored else Failed)
  }

  // What a pass over its baseline makes of an entry.
  function Passed(v: Verdict, e: Entry): (p: Option<Entry>)
    ensures p.Some? ==> p.value.id == e.id
  {
    match v
    case Stale => None
    case Restored => Some(e.(baseline := None, applied := None, managed := UNMANAGED))
    case Failed => Some(e)
  }

  // restore_baseline
  function RestoreBaseline(env: Env, x: Ctx, e: Entry): (o: Out)
    ensures Guards(x, o.x)
    ensures o.e.Some? ==> o.e.value.id == e.id
  {
    if e.baseline.None? then Out(x, Some(e.(applied := None, managed := UNMANAGED))) else
    var u := GiveBack(env, x, e.baseline.value);
    Out(u.x, Passed(u.verdict, e))
  }

  // The result of giving back the dimensions the new rule does not manage.
  datatype Freed = Freed(x: Ctx, m: Managed, ok: bool)

  function FreeAffinity(env: Env, d: Demand, x: Ctx, m: Managed, b: Baseline): Freed {
    if m.affinity && !d.affinity then
      var s := RestoreAffinity(env, x, b);
      Freed(s.x, if s.ok then m.(affinity := false) else m, s.ok)
    else Freed(x, m, true)
  }

  function FreePriority(env: Env, d: Demand, x: Ctx, m: Managed, b: Baseline): Freed {
    if m.priority && d.prio == 0 then
      var s := RestoreScheduler(env, x, b);
      Freed(s.x, if s.ok then m.(priority := false) else m, s.ok)
    else Freed(x, m, true)
  }

  function FreeCpuctl(env: Env, d: Demand, x: Ctx, m: Managed, b: Baseline): Freed {
    if m.cpuctl && !d.limit then
      var s := RestoreCpuctl(env, x, b);
      Freed(s.x, if s.ok then m.(cpuctl := false) else m, s.ok)
    else Freed(x, m, true)
  }

  // The first failure ends the dispatch.
  function Free(env: Env, d: Demand, x: Ctx, m: Managed, b: Baseline): (f: Freed)
    ensures Guards(x, f.x)
  {
    var f1 := FreeAffinity(env, d, x, m, b);
    if !f1.ok then f1 else
    var f2 := FreePriority(env, d, f1.x, f1.m, b);
    if !f2.ok then f2 else
    FreeCpuctl(env, d, f2.x, f2.m, b)
  }

  // CpusetSetter::apply_with_result
  function ApplyAffinity(env: Env, d: Demand, x: Ctx): (s: Step)
    ensures s.x.k == x.k.(affinity := s.x.k.affinity, cpuset := s.x.k.cpuset) && Guards(x, s.x)
    ensures !d.affinity ==> s == Step(x, true)
    ensures d.matched && d.affinity && s.ok ==>
      s.x.k.cpuset == KernelPath(CPUSET_ROOT, d.target.dir) && s.x.k.affinity == d.target.cpus
  {
    if !d.matched || !d.affinity then Step(x, true)
    else if d.target.cpus == {} then Step(x, false)
    else
      var t := RunTakeover(env, d.target, x, MAX_ATTEMPTS);
      Step(t.x, t.flags.Success())
  }

  // CpuctlSetter::apply_with_result
  function ApplyCpuctl(env: Env, d: Demand, x: Ctx): (s: Step)
    ensures s.x.k == x.k.(cpuctl := s.x.k.cpuctl) && SetterCall(env, x, s.x)
    ensures !d.limit ==> s == Step(x, true)
    ensures d.matched && d.limit && s.ok ==>
      d.index >= 0 && s.x.k.cpuctl == KernelPath(CPUCTL_ROOT, d.cpuctlDir)
  {
    if !d.matched || !d.limit then Step(x, true)
    else if d.index < 0 then Step(x, false)
    else MoveCpuctl(env, x, d.cpuctlDir)
  }

  // The three setters with the identity checks between and after them: whether the thread is still
  // there and whether every requested dimension was applied.
  datatype Took = Took(x: Ctx, there: bool, complete: bool)

  function ApplyAll(env: Env, d: Demand, x: Ctx): (t: Took)
    ensures Guards(x, t.x)
  {
    var a := ApplyAffinity(env, d, x);
    var i1 := CheckIdentity(env, a.x);
    if !i1.ok then Took(i1.x, false, false) else
    var p := if d.matched then SetPriority(env, i1.x, d.prio) else Step(i1.x, true);
    var i2 := CheckIdentity(env, p.x);
    if !i2.ok then Took(i2.x, false, false) else
    var c := ApplyCpuctl(env, d, i2.x);
    var i3 := CheckIdentity(env, c.x);
    Took(i3.x, i3.ok, (!d.affinity || a.ok) && p.ok && c.ok)
  }

  // The state-changing half of apply_result. No failure suppresses a later dimension, and every
  // attempted dimension counts as managed.
  function TakeOver(env: Env, d: Demand, r: MatchResult, x: Ctx, e: Entry): (o: Out)
    ensures Guards(x, o.x)
    ensures o.e.Some? ==> o.e.value.id == e.id
  {
    var t := ApplyAll(env, d, x);
    var m := Managed(e.managed.affinity || d.affinity, e.managed.priority || d.prio != 0,
                     e.managed.cpuctl || d.limit);
    if !t.there then Out(t.x, None)
    else if t.complete then Out(t.x, Some(e.(managed := m, applied := Some(r))))
    else
      var i := CheckIdentity(env, t.x);
      Out(i.x, if i.ok then Some(e.(managed := m)) else None)
  }

  // Every dimension the rule needs has been captured.
  predicate Sufficient(b: Option<Baseline>, d: Demand) {
    && b.Some?
    && (d.affinity ==> b.value.affinity.Some? && b.value.cpuset.Some?)
    && (d.prio != 0 ==> b.value.sched.Some?)
    && (d.limit ==> b.value.cpuctl.Some?)
  }

  // apply_result
  function ApplyResult(env: Env, d: Demand, r: MatchResult, x: Ctx, e: Entry): (o: Out)
    ensures Guards(x, o.x)
    ensures o.e.Some? ==> o.e.value.id == e.id
  {
    if !d.NeedsManaging() then RestoreBaseline(env, x, e) else
    var c := Capture(env, x, e);
    if !Sufficient(c.e.baseline, d) then Out(c.x, Some(c.e)) else
    var f := Free(env, d, c.x, c.e.managed, c.e.baseline.value);
    var e' := c.e.(managed := f.m);
    if !f.ok then Out(f.x, Some(e')) else TakeOver(env, d, r, f.x, e')
  }

  // ---- One entry of restore_all_thread_baselines ----------------------------------------------------

  // The cpuctl group and the scheduler, up to the identity check that follows them.
  function UndoLimits(env: Env, x: Ctx, b: Baseline): (t: Took)
    ensures Guards(x, t.x)
    ensures t.there ==> t.x.log.Checked(env.id)
  {
    var i0 := CheckIdentity(env, x);
    if !i0.ok then Took(i0.x, false, false) else
    var ic := CheckIdentity(env, i0.x);
    if b.cpuctl.Some? && !ic.ok then Took(ic.x, false, false) else
    var s1 := if b.cpuctl.Some? then MoveCpuctl(env, ic.x, b.cpuctl.value) else Step(i0.x, true);
    var i1 := CheckIdentity(env, s1.x);
    if !i1.ok then Took(i1.x, false, false) else
    var s2 := if b.sched.Some? then RestoreSched(env, i1.x, b.sched.value) else Step(i1.x, true);
    var i2 := CheckIdentity(env, s2.x);
    Took(i2.x, i2.ok, s1.ok && s2.ok)
  }

  // The cpuset and then the affinity.
  function UndoPlacement(env: Env, x: Ctx, b: Baseline): (t: Took)
    requires x.log.Checked(env.id)
    ensures Guards(x, t.x)
  {
    var s3 := if b.cpuset.Some? then MoveCpuset(env, x, b.cpuset.value) else Step(x, true);
    var i3 := CheckIdentity(env, s3.x);
    if !i3.ok then Took(i3.x, false, false) else
    var s4 := if b.affinity.None? then Step(i3.x, true)
              else if b.affinity.value == {} then Step(i3.x, false)
              else SetAffinity(env, i3.x, b.affinity.value);
    var i4 := CheckIdentity(env, s4.x);
    Took(i4.x, i4.ok, s3.ok && s4.ok)
  }

  function Undo(env: Env, x: Ctx, b: Baseline): (u: Undone)
    ensures Guards(x, u.x)
  {
    var t := UndoLimits(env, x, b);
    if !t.there then Undone(t.x, Stale) else
    var p := UndoPlacement(env, t.x, b);
    Undone(p.x, if !p.there then Stale else if t.complete && p.complete then Restored else Failed)
  }

  // ---- Dispatch ---------------------------------------------------------------------------------------

  datatype Task = Task(id: Ident, name: string, state: ProcessState, procName: string, cmdline: string)

  // ThreadCache::lookup
  predicate Hit(e: Option<Entry>, t: Task) {
    e.Some? && e.value.id == t.id && e.value.name == t.name && e.value.cmdline == t.cmdline
    && e.value.state == t.state
  }

  // ThreadCache::update: keeps baseline and managed components of the same identity only.
  function Updated(e: Option<Entry>, t: Task, r: MatchResult): Entry {
    if e.Some? && e.value.id == t.id then
      e.value.(name := t.name, cmdline := t.cmdline, state := t.state, result := r)
    else Entry(t.id, t.name, t.cmdline, t.state, r, None, UNMANAGED, None)
  }

  // The drift checks against the last applied result. `due` says whether the cgroup check's cadence
  // has come round; an unreadable value counts as drift.
  datatype Checked = Checked(x: Ctx, drift: bool)

  function CheckDrift(env: Env, d: Demand, due: bool, x: Ctx): (c: Checked)
    ensures c.x.k == x.k && Guards(x, c.x) && c.x.log.Mutations() == x.log.Mutations()
    ensures c.x.log.Repeats() == x.log.Repeats()
  {
    var x1 := if d.affinity then ReadCall(env, x) else x;
    var x2 := if d.prio != 0 then ReadCall(env, x1) else x1;
    var limit := d.limit && d.index >= 0;
    var readsGroups := (d.affinity || limit) && due;
    Checked(if readsGroups then ReadCall(env, x2) else x2,
            || (d.affinity && !AffinityReads(env, x, d.target.cpus))
            || (d.prio != 0 && (!(env.Alive(x1.now) && env.outcome(x1.now).readsSched)
                                || SchedDrifted(x.k.sched, d.prio)))
            || (readsGroups && (!(env.Alive(x2.now) && env.outcome(x2.now).readsCgroup)
                          || (d.affinity && x.k.cpuset != KernelPath(CPUSET_ROOT, d.target.dir))
                          || (limit && x.k.cpuctl != KernelPath(CPUCTL_ROOT, d.cpuctlDir)))))
  }

  // The match outcome, the setters' configuration and the two timing answers of one dispatch.
  datatype Inputs = Inputs(cfg: SchedConfig, tries: nat, found: MatchResult, throttled: bool, due: bool)
  {
    function Demands(r: MatchResult): Demand { DemandOf(cfg, tries, r) }
  }

  // process_dispatch_task, on the cache entry found under the task's (pid, tid).
  function Dispatch(env: Env, t: Task, inp: Inputs, x: Ctx, e: Option<Entry>): (o: Out)
    ensures Guards(x, o.x)
    ensures o.e.Some? && o.e != e ==> o.e.value.id == t.id
    ensures e.Some? && e.value.id != t.id && o.e != e ==> env.Alive(x.now)
  {
    var i := CheckIdentity(env, x);
    if !i.ok then Out(i.x, if e.Some? && e.value.id == t.id then None else e)
    else if inp.throttled then Out(i.x, e)
    else if !Hit(e, t) then
      ApplyResult(env, inp.Demands(inp.found), inp.found, i.x, Updated(e, t, inp.found))
    else if e.value.applied == Some(e.value.result) then
      var d := inp.Demands(e.value.result);
      if !d.NeedsManaging() then Out(i.x, e) else
      var c := CheckDrift(env, d, inp.due, i.x);
      if c.drift then ApplyResult(env, d, e.value.result, c.x, e.value) else Out(c.x, e)
    else ApplyResult(env, inp.Demands(e.value.result), e.value.result, i.x, e.value)
  }
}
