// What a full scan and a cycle come to, said of the snapshot of /proc itself.
module ScanMeaning {
  import opened Types
  import opened Sorting
  import opened ScanSpec
  import opened ScanDispatch
  import opened CgroupState
  import opened FullScan

  // /proc lists the process, and its name and start time can be read.
  predicate Listed(snap: Snapshot, pid: int) {
    && (exists i :: 0 <= i < |snap.pidDir| && snap.pidDir[i] == Id(pid))
    && pid in snap.proc.processes && snap.proc.processes[pid].name != "[dead]" && snap.proc.processes[pid].start != 0
  }

  lemma {:induction false} CollectedIs(dir: seq<DirEntry>, id: int)
    ensures id in Collected(dir) <==> exists i :: 0 <= i < |dir| && dir[i] == Id(id)
  {
    if dir != [] {
      var before := dir[..|dir| - 1];
      CollectedIs(before, id);
      assert dir == before + [dir[|dir| - 1]];
      if i :| 0 <= i < |before| && before[i] == Id(id) { assert dir[i] == Id(id); }
    }
  }

  lemma ListedIs(snap: Snapshot, pid: int)
    ensures Listed(snap, pid) <==> pid in snap.Pids() && snap.proc.Readable(pid)
  {
    CollectedIs(snap.pidDir, pid);
  }

  // A process is in the state its paths tell; one ReUperf has moved in the state it was last seen in,
  // if it is still the same process; and any other in the background.
  lemma StateIs(snap: Snapshot, previous: States, pid: int)
    requires Listed(snap, pid)
    ensures var c, start, state := snap.cgroup(pid), snap.proc.processes[pid].start, StateOf(snap, previous, pid);
      && (c.state.Some? ==> state == c.state.value)
      && (c.state.None? ==>
            if c.owned && pid in previous && previous[pid].0 == start then state == previous[pid].1 else state == BG)
  {
  }

  // The state two paths tell: the cpu path decides if it tells one; else the cpuset path does, unless
  // one of the two is ReUperf's own.
  lemma PathsTell(cpu: string, cpuset: string)
    ensures var c := StateInfo(cpu, cpuset);
      && c.owned == ("/ReUperf/" <= cpu || "/top-app/ReUperf_" <= cpuset || "/ReUperf_" <= cpuset)
      && (Told(cpu).Some? ==> c.state == Told(cpu))
      && (Told(cpu).None? && c.owned ==> c.state == None)
      && (Told(cpu).None? && !c.owned ==> c.state == Told(cpuset))
  {
    SystemBackground(cpu);
    SystemBackground(cpuset);
  }

  // top-app before foreground before background.
  function Told(path: string): Option<ProcessState> {
    if Contains(path, "top-app") then Some(TOP)
    else if Contains(path, "foreground") then Some(FG)
    else if Contains(path, "background") then Some(BG)
    else None
  }

  // What the scan's sets are, of the processes and the rule that matches each as a whole.
  lemma FoundMeans(snap: Snapshot, previous: States, baselines: set<int>, r: ScanResult, pid: int)
    requires Finds(snap, previous, baselines, r)
    ensures pid in r.top <==> Listed(snap, pid) && StateOf(snap, previous, pid) == TOP
    ensures pid in r.foreground <==> Listed(snap, pid) && StateOf(snap, previous, pid) == FG
    ensures pid in r.processes <==> Listed(snap, pid)
    ensures pid in r.processes ==> r.processes[pid] == snap.proc.processes[pid].start
    ensures pid in r.observed <==> Listed(snap, pid)
    ensures pid in r.observed ==> r.observed[pid] == (snap.proc.processes[pid].start, StateOf(snap, previous, pid))
    ensures Listed(snap, pid) ==>
      var p := snap.proc.processes[pid];
      var m := snap.rule(p.name, StateOf(snap, previous, pid), p.cmdline);
      && (pid in r.pinned <==> m.matched && m.pinned)
      && (pid in r.topfore <==> m.matched && m.topfore && m.effectiveState == TOP)
      && (pid in r.background <==> (StateOf(snap, previous, pid) == BG
            && (pid in baselines || (m.matched && !(p.cmdline == "" && m.ruleName == "Default rule")))))
    ensures !Listed(snap, pid) ==> pid !in r.pinned && pid !in r.topfore && pid !in r.background
  {
    ListedIs(snap, pid);
    hide StateOf, SortUnique, Collected, Snapshot.Pids, Listed, DeadName, LiveThread;
  }

  // The dead are the listed processes that have a start time and no name; a thread counts as live if its
  // process does, its directory lists it, and its start time can be read.
  lemma DeadAndThreads(snap: Snapshot, previous: States, baselines: set<int>, r: ScanResult, pid: int, tid: int)
    requires Finds(snap, previous, baselines, r)
    ensures pid in r.dead <==> ((exists i :: 0 <= i < |snap.pidDir| && snap.pidDir[i] == Id(pid))
      && pid in snap.proc.processes && snap.proc.processes[pid].start != 0 && snap.proc.processes[pid].name == "[dead]")
    ensures (pid, tid) in r.threads <==> (Listed(snap, pid) && Lists(snap.proc.processes[pid], tid)
      && tid in snap.proc.processes[pid].threads && snap.proc.processes[pid].threads[tid].start != 0)
    ensures (pid, tid) in r.threads ==> r.threads[(pid, tid)] == snap.proc.processes[pid].threads[tid].start
  {
    ListedIs(snap, pid);
    CollectedIs(snap.pidDir, pid);
    TidsAre(snap.proc, pid, tid);
    hide InState, InBackground, Pinned, Topfore, Collected, SortUnique, Proc.Tids, Listed, Lists;
    assert (pid, tid) in r.threads <==> pid in snap.Pids() && LiveThread(snap, pid, tid);
  }

  // The task directory can be opened and lists the thread.
  predicate Lists(p: Process, tid: int) {
    p.dir.Some? && exists i :: 0 <= i < |p.dir.value| && p.dir.value[i] == Id(tid)
  }

  lemma TidsAre(proc: Proc, pid: int, tid: int)
    ensures tid in proc.Tids(pid) <==> pid in proc.processes && Lists(proc.processes[pid], tid)
  {
    if pid in proc.processes && proc.processes[pid].dir.Some? { CollectedIs(proc.processes[pid].dir.value, tid); }
  }

  // The task says what was read of the thread, with the state of phase `i`, the first for its process.
  ghost predicate SentIn(proc: Proc, phases: seq<Phase>, pid: int, tid: int, t: ScanSpec.Task, i: int) {
    && FirstPhase(phases, pid, i) && Sendable(proc, pid, tid)
    && var p, th := proc.processes[pid], proc.processes[pid].threads[tid];
       t == Task(pid, tid, p.start, th.start, th.name, phases[i].state, p.name, p.cmdline)
  }

  // One cycle over given phases sends a thread exactly if some phase lists its process, process and
  // thread can be read, and the task directory lists it; with the state of the first such phase and the
  // names and start times read.
  lemma {:induction false} CycleSends(proc: Proc, phases: seq<Phase>, pid: int, tid: int)
    requires OneOwner(proc) && forall i :: 0 <= i < |phases| ==> Strict(phases[i].pids)
    ensures (exists t :: t in Cycle(proc, phases, {}) && t.pid == pid && t.tid == tid) <==>
      (exists k :: 0 <= k < |phases| && pid in phases[k].pids) && Sendable(proc, pid, tid)
    ensures forall t :: t in Cycle(proc, phases, {}) && t.pid == pid && t.tid == tid ==> exists i :: SentIn(proc, phases, pid, tid, t, i)
  {
    hide Cycle, OneOwner, Strict;
    CycleWhat(proc, phases, {});
    SendableIs(proc, pid, tid);
    if k :| 0 <= k < |phases| && pid in phases[k].pids && Sendable(proc, pid, tid) {
      var i := SomePhaseIsFirst(phases, pid, k);
      assert CycleWanted(proc, phases, {}, TaskOf(proc, pid, tid, phases[i].state));
    }
    forall t | t in Cycle(proc, phases, {}) && t.pid == pid && t.tid == tid
      ensures exists i :: SentIn(proc, phases, pid, tid, t, i)
    {
      var i :| FirstPhase(phases, t.pid, i) && Eligible(proc, t.pid, t.tid) && t == TaskOf(proc, t.pid, t.tid, phases[i].state);
      assert SentIn(proc, phases, pid, tid, t, i);
    }
  }

  predicate Sendable(proc: Proc, pid: int, tid: int) {
    && pid in proc.processes && proc.processes[pid].name != "[dead]" && proc.processes[pid].start != 0
    && Lists(proc.processes[pid], tid) && tid in proc.processes[pid].threads
    && proc.processes[pid].threads[tid].name != "[dead]" && proc.processes[pid].threads[tid].start != 0
  }

  lemma SendableIs(proc: Proc, pid: int, tid: int)
    ensures Sendable(proc, pid, tid) <==> Eligible(proc, pid, tid)
  {
    TidsAre(proc, pid, tid);
    hide Lists, Proc.Tids;
  }

  // The state a thread is sent with after a scan: top for processes at the top, pinned or, where it
  // counts, topfore; else that of the process.
  lemma {:induction false} SentState(snap: Snapshot, previous: States, baselines: set<int>, r: ScanResult, phases: seq<Phase>, t: ScanSpec.Task)
    requires Finds(snap, previous, baselines, r) && Dispatches(phases, r) && OneOwner(snap.proc)
    requires t in Cycle(snap.proc, phases, {})
    ensures Listed(snap, t.pid)
    ensures var p := snap.proc.processes[t.pid];
      var state := StateOf(snap, previous, t.pid);
      var m := snap.rule(p.name, state, p.cmdline);
      t.state == if m.matched && (m.pinned || (m.topfore && m.effectiveState == TOP)) then TOP else state
  {
    hide Cycle, OneOwner, StateOf, Finds, Dispatches, Strict, Listed, FirstPhase;
    AllStrict(phases, r);
    CycleSends(snap.proc, phases, t.pid, t.tid);
    FoundMeans(snap, previous, baselines, r, t.pid);
    var i :| SentIn(snap.proc, phases, t.pid, t.tid, t, i);
    FirstPhaseState(phases, r, t.pid, i);
  }

  lemma FirstPhaseState(phases: seq<Phase>, r: ScanResult, pid: int, i: int)
    requires Dispatches(phases, r) && FirstPhase(phases, pid, i)
    ensures phases[i].state == if pid in r.top + r.pinned + r.topfore then TOP else if pid in r.foreground then FG else BG
    ensures pid in r.top + r.pinned + r.topfore + r.foreground + r.background
  {
    assert phases[i] == PhasesOf(phases[0].pids, phases[1].pids, phases[2].pids, phases[3].pids, phases[4].pids)[i];
  }

  lemma AllStrict(phases: seq<Phase>, r: ScanResult)
    requires Dispatches(phases, r)
    ensures forall i :: 0 <= i < |phases| ==> Strict(phases[i].pids)
  {
  }

  // So after a scan one cycle reaches every readable thread of every process that a rule matches,
  // except of kernel threads matched by the default rule only.
  lemma {:induction false} MatchedThreadsAreSent(snap: Snapshot, previous: States, baselines: set<int>, r: ScanResult,
                              phases: seq<Phase>, pid: int, tid: int)
    requires Finds(snap, previous, baselines, r) && Dispatches(phases, r) && OneOwner(snap.proc)
    requires Listed(snap, pid) && Sendable(snap.proc, pid, tid)
    requires var p := snap.proc.processes[pid];
      var m := snap.rule(p.name, StateOf(snap, previous, pid), p.cmdline);
      m.matched && !(p.cmdline == "" && m.ruleName == "Default rule")
    ensures exists t :: t in Cycle(snap.proc, phases, {}) && t.pid == pid && t.tid == tid
  {
    FoundMeans(snap, previous, baselines, r, pid);
    hide Finds, Cycle, OneOwner, StateOf, Listed, Sendable, Dispatches;
    var k := OwnPhase(phases, r, pid);
    CycleSends(snap.proc, phases, pid, tid);
  }
}
