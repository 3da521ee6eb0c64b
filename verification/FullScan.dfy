// advance_full_scan and FullScanState (main.cpp): reading all of /proc in slices a time budget may
// cut anywhere, over a fixed snapshot.
module FullScan {
  import opened Types
  import opened Sorting
  import opened ScanSpec
  import opened ScanDispatch
  import opened CgroupState
  import opened Utf8Name
  import Daemon

  // `rule` is the process-only match of (name, state, command line).
  datatype Snapshot = Snapshot(
    proc: Proc, pidDir: seq<DirEntry>, cgroup: int -> CgroupInfo,
    rule: (string, ProcessState, string) -> MatchResult)
  {
    function Pids(): seq<int> { SortUnique(Collected(pidDir)) }

    // FileUtils::is_valid_pid holds of every number taken from the directory.
    ghost predicate Lawful() { forall pid :: pid in Pids() ==> pid > 0 }
  }

  type States = map<int, (nat, ProcessState)>

  // A visible state wins; else a process ReUperf moved keeps the state it was last seen in.
  function StateOf(snap: Snapshot, previous: States, pid: int): ProcessState {
    var c := snap.cgroup(pid);
    if c.state.Some? then c.state.value
    else if c.owned && pid in previous && previous[pid].0 == snap.proc.At(pid).start then previous[pid].1
    else BG
  }

  // A process ReUperf moved into a thread rule's group is seen in whatever state it was last seen in,
  // exactly if the rule's name is not itself read as a state.
  lemma OwnedStateKeptIff(snap: Snapshot, pid: int, rule: string, k: nat, cpusetPath: string)
    requires SafeName(rule) && snap.cgroup(pid) == StateInfo(OwnPath(rule, k), cpusetPath)
    ensures !NamesState(rule) <==>
      forall last: ProcessState :: StateOf(snap, map[pid := (snap.proc.At(pid).start, last)], pid) == last
  {
    hide SafeName, OwnPath, NamesState;
    OwnCpuPathIff(rule, k, cpusetPath);
    OwnedPath(rule, k, cpusetPath);
    if snap.cgroup(pid).state.Some? {
      var other := if snap.cgroup(pid).state.value == TOP then BG else TOP;
      assert StateOf(snap, map[pid := (snap.proc.At(pid).start, other)], pid) != other;
    }
  }

  lemma OwnedPath(rule: string, k: nat, cpusetPath: string)
    ensures StateInfo(OwnPath(rule, k), cpusetPath).owned
  {
  }

  function RuleOf(snap: Snapshot, previous: States, pid: int): MatchResult {
    snap.rule(snap.proc.At(pid).name, StateOf(snap, previous, pid), snap.proc.At(pid).cmdline)
  }

  predicate ShouldDispatchBackground(r: MatchResult, hasBaseline: bool, kernelThread: bool) {
    !(kernelThread && !hasBaseline && r.ruleName == "Default rule") && (r.matched || hasBaseline)
  }

  datatype ScanResult = ScanResult(
    top: set<int>, foreground: set<int>, background: set<int>, pinned: set<int>, topfore: set<int>, dead: set<int>,
    processes: map<int, nat>, threads: map<(int, int), nat>, observed: States)

  predicate InState(snap: Snapshot, previous: States, pid: int, state: ProcessState) {
    snap.proc.Readable(pid) && StateOf(snap, previous, pid) == state
  }

  predicate InBackground(snap: Snapshot, previous: States, baselines: set<int>, pid: int) {
    InState(snap, previous, pid, BG)
    && ShouldDispatchBackground(RuleOf(snap, previous, pid), pid in baselines, snap.proc.At(pid).cmdline == "")
  }

  predicate Pinned(snap: Snapshot, previous: States, pid: int) {
    snap.proc.Readable(pid) && RuleOf(snap, previous, pid).matched && RuleOf(snap, previous, pid).pinned
  }

  predicate Topfore(snap: Snapshot, previous: States, pid: int) {
    var r := RuleOf(snap, previous, pid);
    snap.proc.Readable(pid) && r.matched && r.topfore && r.effectiveState == TOP
  }

  predicate DeadName(snap: Snapshot, pid: int) { snap.proc.At(pid).start != 0 && snap.proc.At(pid).name == DEAD }

  predicate LiveThread(snap: Snapshot, pid: int, tid: int) {
    snap.proc.Readable(pid) && tid in snap.proc.Tids(pid) && snap.proc.Thread(pid, tid).start != 0
  }

  // What a scan finds, in terms of the snapshot alone.
  ghost predicate Finds(snap: Snapshot, previous: States, baselines: set<int>, r: ScanResult) {
    var pids := snap.Pids();
    && (forall p {:trigger p in r.top} :: p in r.top <==> p in pids && InState(snap, previous, p, TOP))
    && (forall p {:trigger p in r.foreground} :: p in r.foreground <==> p in pids && InState(snap, previous, p, FG))
    && (forall p {:trigger p in r.background} :: p in r.background <==> p in pids && InBackground(snap, previous, baselines, p))
    && (forall p {:trigger p in r.pinned} :: p in r.pinned <==> p in pids && Pinned(snap, previous, p))
    && (forall p {:trigger p in r.topfore} :: p in r.topfore <==> p in pids && Topfore(snap, previous, p))
    && (forall p {:trigger p in r.dead} :: p in r.dead <==> p in pids && DeadName(snap, p))
    && (forall p {:trigger p in r.processes} :: p in r.processes <==> p in pids && snap.proc.Readable(p))
    && (forall p {:trigger p in r.processes} :: p in r.processes ==> r.processes[p] == snap.proc.At(p).start)
    && (forall k: (int, int) {:trigger k in r.threads} :: k in r.threads <==> k.0 in pids && LiveThread(snap, k.0, k.1))
    && (forall k: (int, int) {:trigger k in r.threads} :: k in r.threads ==> r.threads[k] == snap.proc.Thread(k.0, k.1).start)
    && (forall p {:trigger p in r.observed} :: p in r.observed <==> p in pids && snap.proc.Readable(p))
    && (forall p {:trigger p in r.observed} :: p in r.observed ==> r.observed[p] == (snap.proc.At(p).start, StateOf(snap, previous, p)))
  }

  // Two scans of the same snapshot find the same, however they were cut.
  lemma FindsOne(snap: Snapshot, previous: States, baselines: set<int>, a: ScanResult, b: ScanResult)
    requires Finds(snap, previous, baselines, a) && Finds(snap, previous, baselines, b)
    ensures a == b
  {
    hide InState, InBackground, Pinned, Topfore, DeadName, LiveThread, StateOf, SortUnique, Collected;
    forall p: int
      ensures (p in a.top <==> p in b.top) && (p in a.foreground <==> p in b.foreground)
      ensures (p in a.background <==> p in b.background) && (p in a.pinned <==> p in b.pinned)
      ensures (p in a.topfore <==> p in b.topfore) && (p in a.dead <==> p in b.dead)
      ensures (p in a.processes <==> p in b.processes) && (p in a.observed <==> p in b.observed)
      ensures p in a.processes ==> a.processes[p] == b.processes[p]
      ensures p in a.observed ==> a.observed[p] == b.observed[p]
    {
    }
    forall k: (int, int)
      ensures (k in a.threads <==> k in b.threads) && (k in a.threads ==> a.threads[k] == b.threads[k])
    {
    }
    assert a.top == b.top && a.foreground == b.foreground && a.background == b.background;
    assert a.pinned == b.pinned && a.topfore == b.topfore && a.dead == b.dead;
    assert a.processes == b.processes && a.observed == b.observed && a.threads == b.threads;
  }

  lemma StatesDisjoint(snap: Snapshot, previous: States, baselines: set<int>, r: ScanResult)
    requires Finds(snap, previous, baselines, r)
    ensures r.top !! r.foreground && r.top !! r.background && r.foreground !! r.background
  {
    forall p: int
      ensures !(p in r.top && p in r.foreground) && !(p in r.top && p in r.background) && !(p in r.foreground && p in r.background)
    {
    }
  }

  // A live process that held a baseline when the scan began is handed to the workers.
  lemma NoBaselineOrphaned(snap: Snapshot, previous: States, baselines: set<int>, r: ScanResult, pid: int)
    requires Finds(snap, previous, baselines, r)
    requires pid in snap.Pids() && snap.proc.Readable(pid) && pid in baselines
    ensures pid in r.top + r.foreground + r.background
  {
    assert InState(snap, previous, pid, StateOf(snap, previous, pid));
  }

  // The phases that dispatch a scan's result.
  ghost predicate Dispatches(phases: seq<Phase>, r: ScanResult) {
    && PhasesOk(phases) && |phases| == 5
    && phases == PhasesOf(phases[0].pids, phases[1].pids, phases[2].pids, phases[3].pids, phases[4].pids)
    && (forall p :: p in phases[0].pids <==> p in r.top)
    && (forall p :: p in phases[1].pids <==> p in r.pinned)
    && (forall p :: p in phases[2].pids <==> p in r.topfore)
    && (forall p :: p in phases[3].pids <==> p in r.foreground)
    && (forall p :: p in phases[4].pids <==> p in r.background)
  }

  lemma {:induction false} SomePhaseIsFirst(phases: seq<Phase>, pid: int, k: nat) returns (i: nat)
    requires k < |phases| && pid in phases[k].pids
    ensures FirstPhase(phases, pid, i)
  {
    i := 0;
    while pid !in phases[i].pids
      invariant i <= k && forall j :: 0 <= j < i ==> pid !in phases[j].pids
      decreases k - i
    {
      i := i + 1;
    }
  }

  lemma OwnPhase(phases: seq<Phase>, r: ScanResult, pid: int) returns (k: nat)
    requires Dispatches(phases, r) && pid in r.top + r.foreground + r.background
    ensures k < |phases| && pid in phases[k].pids
    ensures forall i :: 0 <= i < |phases| ==> Strict(phases[i].pids)
  {
    k := if pid in r.top then 0 else if pid in r.foreground then 3 else 4;
  }

  // After a scan, one cycle sends every readable thread of every live process that held a baseline,
  // so its worker can give the baseline back.
  lemma {:induction false} BaselineThreadsAreSent(snap: Snapshot, previous: States, baselines: set<int>, r: ScanResult,
                               phases: seq<Phase>, pid: int, tid: int)
    requires Finds(snap, previous, baselines, r) && Dispatches(phases, r) && OneOwner(snap.proc)
    requires pid in snap.Pids() && pid in baselines && Eligible(snap.proc, pid, tid)
    ensures exists i :: (FirstPhase(phases, pid, i)
                         && TaskOf(snap.proc, pid, tid, phases[i].state) in Cycle(snap.proc, phases, {}))
  {
    hide Finds, Cycle, OneOwner, FirstPhase, Dispatches, Strict;
    NoBaselineOrphaned(snap, previous, baselines, r, pid);
    var k := OwnPhase(phases, r, pid);
    var i := SomePhaseIsFirst(phases, pid, k);
    CycleWhat(snap.proc, phases, {});
    assert CycleWanted(snap.proc, phases, {}, TaskOf(snap.proc, pid, tid, phases[i].state));
  }

  // What the snapshot shows of a cached thread that still exists is true.
  ghost predicate Shows(s: Daemon.Setting, w: Daemon.World, snap: Snapshot) {
    forall key :: key in w.cache && !s.env(w.cache[key].id).Dead(w.now) ==>
      var id := w.cache[key].id;
      && id.pid in snap.Pids() && snap.proc.Readable(id.pid) && snap.proc.At(id.pid).start == id.processStart
      && (LiveThread(snap, id.pid, id.tid) ==> snap.proc.Thread(id.pid, id.tid).start == id.threadStart)
  }

  // The retention step after a scan may rely on what the scan found.
  lemma ScanFeedsRetention(s: Daemon.Setting, w: Daemon.World, snap: Snapshot, previous: States, baselines: set<int>,
                           r: ScanResult, processes: map<nat, nat>, live: map<Daemon.Key, nat>, start: map<Daemon.Key, (nat, nat)>)
    requires Finds(snap, previous, baselines, r) && Shows(s, w, snap) && Daemon.CacheOk(s, w)
    requires forall p: nat :: p in r.processes ==> p in processes && processes[p] == r.processes[p]
    requires forall p: nat, t: nat :: (p, t) in live ==> (p as int, t as int) in r.threads && live[(p, t)] == r.threads[(p as int, t as int)]
    ensures Daemon.ScanExact(s, w, processes, live, start)
  {
    hide LiveThread, InState, InBackground, Pinned, Topfore, DeadName, StateOf, SortUnique, Collected;
    forall key | key in w.cache && !s.env(w.cache[key].id).Dead(w.now)
      ensures var id := w.cache[key].id;
        && id.pid in processes && processes[id.pid] == id.processStart
        && (key in live ==> live[key] == id.threadStart)
    {
      var id := w.cache[key].id;
      assert key == (id.pid, id.tid);
      assert id.pid in r.processes;
      if key in live { assert (id.pid as int, id.tid as int) in r.threads; }
    }
  }

  // ---- The scan itself ---------------------------------------------------------------------------------

  // What has been found when the processes `visited` are finished and `current`, if not 0, has been
  // entered and its threads `read`.
  datatype Progress = Progress(visited: set<int>, current: int, read: set<int>)
  {
    ghost predicate Seen(p: int) { p in visited || (current != 0 && p == current) }
  }

  ghost predicate SetsOk(snap: Snapshot, previous: States, baselines: set<int>, at: Progress, r: ScanResult) {
    && (forall p {:trigger p in r.top} :: p in r.top <==> at.Seen(p) && InState(snap, previous, p, TOP))
    && (forall p {:trigger p in r.foreground} :: p in r.foreground <==> at.Seen(p) && InState(snap, previous, p, FG))
    && (forall p {:trigger p in r.background} :: p in r.background <==> p in at.visited && InBackground(snap, previous, baselines, p))
    && (forall p {:trigger p in r.pinned} :: p in r.pinned <==> p in at.visited && Pinned(snap, previous, p))
    && (forall p {:trigger p in r.topfore} :: p in r.topfore <==> p in at.visited && Topfore(snap, previous, p))
    && (forall p {:trigger p in r.dead} :: p in r.dead <==> p in at.visited && DeadName(snap, p))
  }

  ghost predicate MapsOk(snap: Snapshot, previous: States, at: Progress, r: ScanResult) {
    && (forall p {:trigger p in r.processes} :: p in r.processes <==> at.Seen(p) && snap.proc.Readable(p))
    && (forall p {:trigger p in r.processes} :: p in r.processes ==> r.processes[p] == snap.proc.At(p).start)
    && (forall p {:trigger p in r.observed} :: p in r.observed <==> at.Seen(p) && snap.proc.Readable(p))
    && (forall p {:trigger p in r.observed} :: p in r.observed ==>
          r.observed[p] == (snap.proc.At(p).start, StateOf(snap, previous, p)))
  }

  ghost predicate ThreadsOk(snap: Snapshot, at: Progress, r: ScanResult) {
    && (forall k: (int, int) {:trigger k in r.threads} :: k in r.threads <==>
          (k.0 in at.visited && LiveThread(snap, k.0, k.1))
          || (at.current != 0 && k.0 == at.current && k.1 in at.read && snap.proc.Thread(k.0, k.1).start != 0))
    && (forall k: (int, int) {:trigger k in r.threads} :: k in r.threads ==>
          r.threads[k] == snap.proc.Thread(k.0, k.1).start)
  }

  ghost predicate Sound(snap: Snapshot, previous: States, baselines: set<int>, at: Progress, r: ScanResult) {
    SetsOk(snap, previous, baselines, at, r) && MapsOk(snap, previous, at, r) && ThreadsOk(snap, at, r)
  }

  const NOTHING_FOUND := ScanResult({}, {}, {}, {}, {}, {}, map[], map[], map[])

  // Reading a process' state.
  function Enter(snap: Snapshot, previous: States, pid: int, r: ScanResult): ScanResult {
    var state := StateOf(snap, previous, pid);
    r.(processes := r.processes[pid := snap.proc.At(pid).start],
       observed := r.observed[pid := (snap.proc.At(pid).start, state)],
       top := With(r.top, pid, state == TOP), foreground := With(r.foreground, pid, state == FG))
  }

  function ReadThread(snap: Snapshot, pid: int, tid: int, r: ScanResult): ScanResult {
    var start := snap.proc.Thread(pid, tid).start;
    if start != 0 && (pid, tid) !in r.threads then r.(threads := r.threads[(pid, tid) := start]) else r
  }

  // Matching a process whose threads have all been read.
  function Leave(snap: Snapshot, previous: States, baselines: set<int>, pid: int, r: ScanResult): ScanResult {
    var state, m := StateOf(snap, previous, pid), RuleOf(snap, previous, pid);
    r.(background := With(r.background, pid, state == BG
         && ShouldDispatchBackground(m, pid in baselines, snap.proc.At(pid).cmdline == "")),
       pinned := With(r.pinned, pid, m.matched && m.pinned),
       topfore := With(r.topfore, pid, m.matched && m.topfore && m.effectiveState == TOP))
  }

  function With(s: set<int>, x: int, add: bool): (r: set<int>)
    ensures forall y :: y in r <==> y in s || (add && y == x)
  {
    if add then s + {x} else s
  }

  lemma EnterSound(snap: Snapshot, previous: States, baselines: set<int>, at: Progress, pid: int, r: ScanResult)
    requires Sound(snap, previous, baselines, at, r) && at.current == 0 && pid != 0 && snap.proc.Readable(pid)
    ensures Sound(snap, previous, baselines, Progress(at.visited, pid, {}), Enter(snap, previous, pid, r))
  {
    hide StateOf, InBackground, Pinned, Topfore, DeadName, LiveThread, With, Proc.At, Proc.Thread;
  }

  // A process that cannot be read belongs to no set but, maybe, the dead.
  lemma Unreadable(snap: Snapshot, previous: States, baselines: set<int>, pid: int)
    requires !snap.proc.Readable(pid)
    ensures forall state :: !InState(snap, previous, pid, state)
    ensures !InBackground(snap, previous, baselines, pid) && !Pinned(snap, previous, pid) && !Topfore(snap, previous, pid)
    ensures forall tid :: !LiveThread(snap, pid, tid)
  {
    hide StateOf, RuleOf;
  }

  lemma SkipSound(snap: Snapshot, previous: States, baselines: set<int>, at: Progress, pid: int, r: ScanResult)
    requires Sound(snap, previous, baselines, at, r) && at.current == 0 && !snap.proc.Readable(pid)
    ensures Sound(snap, previous, baselines, Progress(at.visited + {pid}, 0, {}),
      if DeadName(snap, pid) then r.(dead := r.dead + {pid}) else r)
  {
    hide StateOf, RuleOf, InState, InBackground, Pinned, Topfore, LiveThread, DeadName, Proc.Thread, Proc.Readable, Proc.At;
    Unreadable(snap, previous, baselines, pid);
    var at' := Progress(at.visited + {pid}, 0, {});
    var r' := if DeadName(snap, pid) then r.(dead := r.dead + {pid}) else r;
    assert SetsOk(snap, previous, baselines, at', r') by { hide MapsOk, ThreadsOk; }
    assert MapsOk(snap, previous, at', r') by { hide SetsOk, ThreadsOk; }
    assert ThreadsOk(snap, at', r') by { hide SetsOk, MapsOk; }
  }

  lemma ReadThreadSound(snap: Snapshot, previous: States, baselines: set<int>, at: Progress, tid: int, r: ScanResult)
    requires Sound(snap, previous, baselines, at, r) && at.current != 0
    ensures Sound(snap, previous, baselines, Progress(at.visited, at.current, at.read + {tid}), ReadThread(snap, at.current, tid, r))
  {
    hide StateOf, InState, InBackground, Pinned, Topfore, DeadName, LiveThread;
  }

  // The sets a readable process belongs to.
  lemma Readable(snap: Snapshot, previous: States, baselines: set<int>, pid: int)
    requires snap.proc.Readable(pid)
    ensures var m := RuleOf(snap, previous, pid);
      && (InBackground(snap, previous, baselines, pid) <==>
            (StateOf(snap, previous, pid) == BG
             && ShouldDispatchBackground(m, pid in baselines, snap.proc.At(pid).cmdline == "")))
      && (Pinned(snap, previous, pid) <==> m.matched && m.pinned)
      && (Topfore(snap, previous, pid) <==> m.matched && m.topfore && m.effectiveState == TOP)
    ensures !DeadName(snap, pid)
    ensures forall tid :: LiveThread(snap, pid, tid) <==> tid in snap.proc.Tids(pid) && snap.proc.Thread(pid, tid).start != 0
  {
    hide StateOf, RuleOf, ShouldDispatchBackground;
  }

  lemma LeaveSets(snap: Snapshot, previous: States, baselines: set<int>, at: Progress, r: ScanResult)
    requires SetsOk(snap, previous, baselines, at, r) && at.current != 0 && snap.proc.Readable(at.current)
    ensures SetsOk(snap, previous, baselines, Progress(at.visited + {at.current}, 0, {}), Leave(snap, previous, baselines, at.current, r))
  {
    Readable(snap, previous, baselines, at.current);
    hide StateOf, RuleOf, ShouldDispatchBackground, InState, InBackground, Pinned, Topfore, DeadName;
    hide Proc.At, Proc.Readable, Proc.Thread, Proc.Tids, LiveThread, With;
  }

  lemma LeaveMaps(snap: Snapshot, previous: States, baselines: set<int>, at: Progress, r: ScanResult)
    requires MapsOk(snap, previous, at, r) && at.current != 0
    ensures MapsOk(snap, previous, Progress(at.visited + {at.current}, 0, {}), Leave(snap, previous, baselines, at.current, r))
  {
    hide StateOf, RuleOf, ShouldDispatchBackground, Proc.At, Proc.Readable;
  }

  lemma LeaveThreads(snap: Snapshot, previous: States, baselines: set<int>, at: Progress, r: ScanResult)
    requires ThreadsOk(snap, at, r) && at.current != 0 && snap.proc.Readable(at.current)
    requires forall tid :: tid in at.read <==> tid in snap.proc.Tids(at.current)
    ensures ThreadsOk(snap, Progress(at.visited + {at.current}, 0, {}), Leave(snap, previous, baselines, at.current, r))
  {
    hide StateOf, RuleOf, ShouldDispatchBackground, Proc.At, Proc.Readable, Proc.Tids, Proc.Thread;
  }

  lemma LeaveSound(snap: Snapshot, previous: States, baselines: set<int>, at: Progress, r: ScanResult)
    requires Sound(snap, previous, baselines, at, r) && at.current != 0 && snap.proc.Readable(at.current)
    requires forall tid :: tid in at.read <==> tid in snap.proc.Tids(at.current)
    ensures Sound(snap, previous, baselines, Progress(at.visited + {at.current}, 0, {}), Leave(snap, previous, baselines, at.current, r))
  {
    hide SetsOk, MapsOk, ThreadsOk, Leave, Proc.Tids;
    LeaveSets(snap, previous, baselines, at, r);
    LeaveMaps(snap, previous, baselines, at, r);
    LeaveThreads(snap, previous, baselines, at, r);
  }

  class FullScanState {
    const snap: Snapshot
    const baselines: set<int>       // processes with baselines when the scan began
    const previous: States
    var procDir: Option<nat>        // position in the open /proc directory
    var pidsComplete: bool
    var pids: seq<int>
    var pidIndex: nat
    var currentPid: int
    var taskDir: Option<nat>
    var tidsComplete: bool
    var currentTids: seq<int>
    var tidIndex: nat
    var result: ScanResult
    ghost var troubles: nat         // how often /proc could not be opened or read

    // FullScanState::begin
    constructor (snap: Snapshot, baselines: set<int>, previous: States)
      requires snap.Lawful()
      ensures this.snap == snap && this.baselines == baselines && this.previous == previous && Valid() && troubles == 0
    {
      this.snap, this.baselines, this.previous := snap, baselines, previous;
      procDir, pidsComplete, pids, pidIndex := None, false, [], 0;
      currentPid, taskDir, tidsComplete, currentTids, tidIndex := 0, None, false, [], 0;
      result, troubles := NOTHING_FOUND, 0;
    }

    // The budget ran out or /proc could not be read since.
    twostate predicate Stopped(budget: ScanBudget)
      reads this, budget
    {
      budget.spent > old(budget.spent) || troubles > old(troubles)
    }

    twostate predicate Counted(budget: ScanBudget)
      reads this, budget
    {
      budget.spent >= old(budget.spent) && troubles >= old(troubles)
    }

    ghost predicate PidsOk()
      reads this
    {
      && snap.Lawful() && pidIndex <= |pids|
      && (pidsComplete ==> pids == snap.Pids())
      && (!pidsComplete ==> pidIndex == 0 && currentPid == 0)
      && (!pidsComplete && procDir.Some? ==> procDir.value <= |snap.pidDir| && pids == Collected(snap.pidDir[..procDir.value]))
      && (!pidsComplete && procDir.None? ==> pids == [])
    }

    // What is remembered of the current process is true of it.
    ghost predicate CurrentOk()
      reads this
    {
      if currentPid == 0 then taskDir == None && !tidsComplete && currentTids == [] && tidIndex == 0
      else pidIndex < |pids| && currentPid == pids[pidIndex] && snap.proc.Readable(currentPid) && TidsOk()
    }

    ghost predicate TidsOk()
      reads this
    {
      && tidIndex <= |currentTids|
      && (tidsComplete ==> currentTids == snap.proc.Tids(currentPid))
      && (!tidsComplete ==> tidIndex == 0)
      && (!tidsComplete && taskDir.Some? ==>
            var dir := snap.proc.At(currentPid).dir;
            dir.Some? && taskDir.value <= |dir.value| && currentTids == Collected(dir.value[..taskDir.value]))
      && (!tidsComplete && taskDir.None? ==> currentTids == [])
    }

    ghost function At(): Progress
      reads this
      requires pidIndex <= |pids| && tidIndex <= |currentTids|
    {
      Progress(Prefix(pids, pidIndex), currentPid, Prefix(currentTids, tidIndex))
    }

    ghost predicate Valid()
      reads this
    {
      PidsOk() && CurrentOk() && tidIndex <= |currentTids| && Sound(snap, previous, baselines, At(), result)
    }

    // enumerate_pids. Opening or reading /proc may fail, which only costs another attempt.
    method EnumeratePids(budget: ScanBudget) returns (done: bool)
      requires Valid()
      modifies this`procDir, this`pids, this`pidsComplete, this`troubles, budget
      ensures Valid() && done == pidsComplete && Counted(budget) && (!done ==> Stopped(budget))
    {
      hide Sound, SortUnique, Snapshot.Lawful;
      if pidsComplete { return true; }
      if procDir.None? {
        var readable: bool := *;
        if !readable {
          troubles := troubles + 1;
          return false;
        }
        procDir, pids := Some(0), [];
        assert snap.pidDir[..0] == [];
      }
      done := ReadPids(budget);
    }

    method ReadPids(budget: ScanBudget) returns (done: bool)
      requires Valid() && !pidsComplete && procDir.Some?
      modifies this`procDir, this`pids, this`pidsComplete, this`troubles, budget
      ensures Valid() && done == pidsComplete && Counted(budget) && (!done ==> Stopped(budget))
    {
      hide Sound, SortUnique, Snapshot.Lawful;
      while true
        invariant Valid() && !pidsComplete && procDir.Some? && Counted(budget)
        decreases |snap.pidDir| - procDir.value
      {
        var out := budget.Exhausted();
        if out { return false; }
        var failed: bool := *;
        if failed {
          procDir, pids, troubles := None, [], troubles + 1;
          return false;
        }
        var at := procDir.value;
        if at == |snap.pidDir| {
          assert snap.pidDir[..at] == snap.pidDir;
          procDir, pids, pidsComplete := None, SortUnique(pids), true;
          return true;
        }
        assert snap.pidDir[..at + 1][..at] == snap.pidDir[..at];
        if snap.pidDir[at].Id? { pids := pids + [snap.pidDir[at].id]; }
        procDir := Some(at + 1);
      }
    }

    // enumerate_current_tids
    method EnumerateCurrentTids(budget: ScanBudget) returns (done: bool)
      requires Valid() && currentPid != 0
      modifies this`taskDir, this`tidsComplete, this`currentTids, budget
      ensures Valid() && done == tidsComplete && Counted(budget) && (!done ==> Stopped(budget))
    {
      hide Sound, SortUnique, Snapshot.Lawful;
      if tidsComplete { return true; }
      var dir := snap.proc.At(currentPid).dir;
      if taskDir.None? {
        if dir.None? {
          tidsComplete := true;
          return true;
        }
        taskDir, currentTids := Some(0), [];
        assert dir.value[..0] == [];
      }
      while true
        invariant Valid() && currentPid != 0 && !tidsComplete && taskDir.Some? && Counted(budget)
        decreases |dir.value| - taskDir.value
      {
        var out := budget.Exhausted();
        if out { return false; }
        var at := taskDir.value;
        if at == |dir.value| {
          assert dir.value[..at] == dir.value;
          taskDir, currentTids, tidsComplete := None, SortUnique(currentTids), true;
          return true;
        }
        assert dir.value[..at + 1][..at] == dir.value[..at];
        if dir.value[at].Id? { currentTids := currentTids + [dir.value[at].id]; }
        taskDir := Some(at + 1);
      }
    }

    method ClearCurrentPid()
      modifies this`taskDir, this`tidsComplete, this`currentTids, this`tidIndex, this`currentPid
      ensures currentPid == 0 && taskDir == None && !tidsComplete && currentTids == [] && tidIndex == 0
    {
      currentPid, taskDir, tidsComplete, currentTids, tidIndex := 0, None, false, [], 0;
    }

    // A process comes under the index: skip it, note it as dead, or read its state.
    method BeginPid() returns (entered: bool)
      requires Valid() && pidsComplete && pidIndex < |pids| && currentPid != pids[pidIndex]
      modifies this
      ensures troubles == old(troubles)
      ensures Valid() && pidsComplete && pids == old(pids)
      ensures if entered then pidIndex == old(pidIndex) && currentPid == pids[pidIndex]
              else pidIndex == old(pidIndex) + 1 && currentPid == 0
    {
      hide Sound, SortUnique;
      var pid := pids[pidIndex];
      ghost var at := At();
      ClearCurrentPid();
      currentPid := pid;
      PrefixNext(pids, pidIndex);
      if snap.proc.At(pid).start == 0 {
        SkipSound(snap, previous, baselines, at, pid, result);
        pidIndex := pidIndex + 1;
        ClearCurrentPid();
        return false;
      }
      if snap.proc.At(pid).name == DEAD {
        SkipSound(snap, previous, baselines, at, pid, result);
        result := result.(dead := result.dead + {pid});
        pidIndex := pidIndex + 1;
        ClearCurrentPid();
        return false;
      }
      EnterSound(snap, previous, baselines, at, pid, result);
      result := Enter(snap, previous, pid, result);
      return true;
    }

    method ReadThreads(budget: ScanBudget) returns (done: bool)
      requires Valid() && currentPid != 0 && tidsComplete
      modifies this`tidIndex, this`result, budget
      ensures Valid() && (done ==> tidIndex == |currentTids|) && Counted(budget) && (!done ==> Stopped(budget))
    {
      hide Sound, SortUnique, Snapshot.Lawful;
      while tidIndex < |currentTids|
        invariant Valid() && Counted(budget)
      {
        var out := budget.Exhausted();
        if out { return false; }
        var tid := currentTids[tidIndex];
        ReadThreadSound(snap, previous, baselines, At(), tid, result);
        PrefixNext(currentTids, tidIndex);
        result := ReadThread(snap, currentPid, tid, result);
        tidIndex := tidIndex + 1;
      }
      return true;
    }

    method FinishPid()
      requires Valid() && currentPid != 0 && pidsComplete && tidsComplete && tidIndex == |currentTids|
      modifies this
      ensures troubles == old(troubles)
      ensures Valid() && pidsComplete && pids == old(pids) && pidIndex == old(pidIndex) + 1 && currentPid == 0
    {
      hide Sound, SortUnique;
      PrefixAll(currentTids);
      LeaveSound(snap, previous, baselines, At(), result);
      PrefixNext(pids, pidIndex);
      result := Leave(snap, previous, baselines, currentPid, result);
      pidIndex := pidIndex + 1;
      ClearCurrentPid();
    }

    // advance_full_scan, up to the retention step. However often it was cut before, a call that
    // returns true leaves what the snapshot determines, and only one that is stopped returns false.
    method Advance(budget: ScanBudget) returns (done: bool)
      requires Valid()
      modifies this, budget
      ensures Valid() && (done ==> Finds(snap, previous, baselines, result))
      ensures Counted(budget) && (!done ==> Stopped(budget))
    {
      hide Sound, SortUnique, CurrentOk, Finds;
      var enumerated := EnumeratePids(budget);
      if !enumerated { return false; }
      while pidIndex < |pids|
        invariant Valid() && pidsComplete && Counted(budget)
        decreases |pids| - pidIndex
      {
        var out := budget.Exhausted();
        if out { return false; }
        if currentPid != pids[pidIndex] {
          var entered := BeginPid();
          if !entered { continue; }
        }
        NonZero();
        var listed := EnumerateCurrentTids(budget);
        if !listed { return false; }
        var read := ReadThreads(budget);
        if !read { return false; }
        out := budget.Exhausted();
        if out { return false; }
        FinishPid();
      }
      AtEnd();
      return true;
    }

    lemma NonZero()
      requires Valid() && pidIndex < |pids| && currentPid == pids[pidIndex] && pidsComplete
      ensures currentPid != 0
    {
      assert pids[pidIndex] in pids;
    }

    lemma AtEnd()
      requires Valid() && pidsComplete && pidIndex == |pids|
      ensures Finds(snap, previous, baselines, result)
    {
      hide SortUnique, InState, InBackground, Pinned, Topfore, DeadName, LiveThread, StateOf, Collected;
      PrefixAll(pids);
    }

    // Any number of main-loop iterations; any two complete scans agree by FindsOne. The scan ends
    // unless every iteration was stopped by its budget (`cut`) or by /proc.
    method Run(iterations: nat) returns (done: bool, ghost cut: nat)
      requires Valid()
      modifies this
      ensures Valid() && (done ==> Finds(snap, previous, baselines, result))
      ensures troubles >= old(troubles) && (done || iterations <= cut + (troubles - old(troubles)))
    {
      hide Valid, Finds;
      done, cut := false, 0;
      for i := 0 to iterations
        invariant Valid() && (done ==> Finds(snap, previous, baselines, result))
        invariant troubles >= old(troubles) && i <= cut + (troubles - old(troubles))
      {
        var budget := new ScanBudget();
        done := Advance(budget);
        if done { return true, cut; }
        cut := cut + (if budget.spent > 0 then 1 else 0);
      }
    }
  }

  ghost function Prefix(s: seq<int>, n: nat): (r: set<int>)
    requires n <= |s|
    ensures n == 0 ==> r == {}
  {
    set i | 0 <= i < n :: s[i]
  }

  lemma PrefixNext(s: seq<int>, n: nat)
    requires n < |s|
    ensures Prefix(s, n + 1) == Prefix(s, n) + {s[n]}
  {
  }

  lemma PrefixAll(s: seq<int>)
    ensures forall x :: x in Prefix(s, |s|) <==> x in s
  {
  }
}
