// What one pass over a set of processes enqueues, and what a whole five-phase cycle enqueues, over a
// fixed snapshot of /proc (dispatch_pids_to_workers and the full-scan phases in main.cpp).
module ScanSpec {
  import opened Types
  import opened Sorting

  // A name in /proc or in a task directory is a valid process or thread id, or something to skip.
  datatype DirEntry = Id(id: int) | Skipped

  datatype ThreadInfo = ThreadInfo(name: string, start: nat)

  // `dir` is None when the task directory cannot be opened.
  datatype Process = Process(
    name: string, start: nat, cmdline: string, dir: Option<seq<DirEntry>>, threads: map<int, ThreadInfo>)

  const DEAD := "[dead]"

  datatype Proc = Proc(processes: map<int, Process>)
  {
    function At(pid: int): Process {
      if pid in processes then processes[pid] else Process(DEAD, 0, "", None, map[])
    }

    function Thread(pid: int, tid: int): ThreadInfo {
      if tid in At(pid).threads then At(pid).threads[tid] else ThreadInfo(DEAD, 0)
    }

    // The sorted thread ids a complete enumeration yields.
    function Tids(pid: int): seq<int> {
      if At(pid).dir.None? then [] else SortUnique(Collected(At(pid).dir.value))
    }

    predicate Readable(pid: int) { At(pid).name != DEAD && At(pid).start != 0 }

    predicate ReadableThread(pid: int, tid: int) { Thread(pid, tid).name != DEAD && Thread(pid, tid).start != 0 }
  }

  function Collected(entries: seq<DirEntry>): seq<int> {
    if entries == [] then [] else
    var last := entries[|entries| - 1];
    Collected(entries[..|entries| - 1]) + (if last.Id? then [last.id] else [])
  }

  datatype Task = Task(pid: int, tid: int, processStart: nat, threadStart: nat, threadName: string,
                       state: ProcessState, procName: string, cmdline: string)

  function TaskOf(proc: Proc, pid: int, tid: int, state: ProcessState): Task {
    var p, t := proc.At(pid), proc.Thread(pid, tid);
    Task(pid, tid, p.start, t.start, t.name, state, p.name, p.cmdline)
  }

  function TidsOf(tasks: seq<Task>): (tids: set<int>) { set i | 0 <= i < |tasks| :: tasks[i].tid }

  // The enqueues for the threads `tids` of one process.
  function Sends(proc: Proc, state: ProcessState, pid: int, tids: seq<int>, done: set<int>): seq<Task> {
    if tids == [] then []
    else if tids[0] in done || !proc.ReadableThread(pid, tids[0]) then Sends(proc, state, pid, tids[1..], done)
    else [TaskOf(proc, pid, tids[0], state)] + Sends(proc, state, pid, tids[1..], done + {tids[0]})
  }

  function PidSends(proc: Proc, state: ProcessState, pid: int, from: nat, done: set<int>): seq<Task>
    requires from <= |proc.Tids(pid)|
  {
    if proc.Readable(pid) then Sends(proc, state, pid, proc.Tids(pid)[from..], done) else []
  }

  // The enqueues of an uninterrupted pass over `pids`.
  function Pass(proc: Proc, state: ProcessState, pids: seq<int>, done: set<int>): seq<Task> {
    if pids == [] then []
    else
      var sends := PidSends(proc, state, pids[0], 0, done);
      sends + Pass(proc, state, pids[1..], done + TidsOf(sends))
  }

  datatype Phase = Phase(state: ProcessState, pids: seq<int>)

  // The enqueues of an uninterrupted cycle over all phases.
  function Cycle(proc: Proc, phases: seq<Phase>, done: set<int>): seq<Task> {
    if phases == [] then []
    else
      var sends := Pass(proc, phases[0].state, phases[0].pids, done);
      sends + Cycle(proc, phases[1..], done + TidsOf(sends))
  }

  // ---- What a cycle enqueues ---------------------------------------------------------------------------

  // A thread belongs to one process.
  ghost predicate OneOwner(proc: Proc) {
    forall p, q, tid :: p != q ==> !(tid in proc.Tids(p) && tid in proc.Tids(q))
  }

  predicate Eligible(proc: Proc, pid: int, tid: int) {
    proc.Readable(pid) && tid in proc.Tids(pid) && proc.ReadableThread(pid, tid)
  }

  // The tasks are of pairwise different threads, none of them done before.
  ghost predicate Fresh(tasks: seq<Task>, done: set<int>) {
    && (forall i :: 0 <= i < |tasks| ==> tasks[i].tid !in done)
    && (forall i, j :: 0 <= i < j < |tasks| ==> tasks[i].tid != tasks[j].tid)
  }

  lemma FreshAppend(a: seq<Task>, b: seq<Task>, done: set<int>)
    requires Fresh(a, done) && Fresh(b, done + TidsOf(a))
    ensures Fresh(a + b, done)
  {
    forall i, j | 0 <= i < j < |a + b|
      ensures (a + b)[i].tid != (a + b)[j].tid
    {
      if i < |a| <= j {
        assert a[i].tid in TidsOf(a);
        assert b[j - |a|].tid !in done + TidsOf(a);
      }
    }
    forall i | 0 <= i < |a + b|
      ensures (a + b)[i].tid !in done
    {
      if i >= |a| { assert b[i - |a|].tid !in done + TidsOf(a); }
    }
  }

  lemma {:induction false} SendsWhat(proc: Proc, state: ProcessState, pid: int, tids: seq<int>, done: set<int>)
    requires Strict(tids)
    ensures var s := Sends(proc, state, pid, tids, done);
      && Fresh(s, done)
      && (forall t :: t in s <==> exists tid :: tid in tids && tid !in done && proc.ReadableThread(pid, tid)
                                                && t == TaskOf(proc, pid, tid, state))
    decreases |tids|
  {
    if tids != [] {
      var first, rest := tids[0], tids[1..];
      assert forall tid :: tid in tids <==> tid == first || tid in rest;
      assert first !in rest;
      if first in done || !proc.ReadableThread(pid, first) {
        SendsWhat(proc, state, pid, rest, done);
      } else {
        SendsWhat(proc, state, pid, rest, done + {first});
        var one := [TaskOf(proc, pid, first, state)];
        assert TidsOf(one) == {first} by { assert one[0].tid in TidsOf(one); }
        FreshAppend(one, Sends(proc, state, pid, rest, done + {first}), done);
      }
    }
  }

  // The threads a pass over `pids` has to send.
  ghost predicate Wanted(proc: Proc, pids: seq<int>, done: set<int>, state: ProcessState, t: Task) {
    t.pid in pids && t.tid !in done && Eligible(proc, t.pid, t.tid) && t == TaskOf(proc, t.pid, t.tid, state)
  }

  lemma PidSendsWhat(proc: Proc, state: ProcessState, pid: int, done: set<int>)
    ensures var s := PidSends(proc, state, pid, 0, done);
      Fresh(s, done) && forall t :: t in s <==> Wanted(proc, [pid], done, state, t)
  {
    SendsWhat(proc, state, pid, proc.Tids(pid), done);
    assert proc.Tids(pid)[0..] == proc.Tids(pid);
    forall t: Task
      ensures t in PidSends(proc, state, pid, 0, done) <==> Wanted(proc, [pid], done, state, t)
    {
      if Wanted(proc, [pid], done, state, t) { assert t.tid in proc.Tids(pid); }
    }
  }

  lemma {:induction false} PassWhat(proc: Proc, state: ProcessState, pids: seq<int>, done: set<int>)
    requires OneOwner(proc) && Strict(pids)
    ensures var s := Pass(proc, state, pids, done);
      Fresh(s, done) && forall t :: t in s <==> Wanted(proc, pids, done, state, t)
    decreases |pids|
  {
    if pids != [] {
      var pid, rest := pids[0], pids[1..];
      var s := PidSends(proc, state, pid, 0, done);
      var more := Pass(proc, state, rest, done + TidsOf(s));
      PidSendsWhat(proc, state, pid, done);
      PassWhat(proc, state, rest, done + TidsOf(s));
      FreshAppend(s, more, done);
      forall t: Task
        ensures t in s + more <==> Wanted(proc, pids, done, state, t)
      {
        assert t.pid in pids <==> t.pid == pid || t.pid in rest;
        if t.pid in rest && t.tid in TidsOf(s) {
          var i :| 0 <= i < |s| && s[i].tid == t.tid;
          assert s[i] in s;
          assert !(t.tid in proc.Tids(pid) && t.tid in proc.Tids(t.pid));
        }
      }
    }
  }

  // The first phase whose set holds the process.
  ghost predicate FirstPhase(phases: seq<Phase>, pid: int, i: int) {
    0 <= i < |phases| && pid in phases[i].pids && forall j :: 0 <= j < i ==> pid !in phases[j].pids
  }

  ghost predicate CycleWanted(proc: Proc, phases: seq<Phase>, done: set<int>, t: Task) {
    exists i :: FirstPhase(phases, t.pid, i) && t.tid !in done && Eligible(proc, t.pid, t.tid)
                && t == TaskOf(proc, t.pid, t.tid, phases[i].state)
  }

  // A cycle enqueues every readable thread of every listed process exactly once, with the state of
  // the first phase that lists its process, and nothing else.
  lemma {:induction false} CycleWhat(proc: Proc, phases: seq<Phase>, done: set<int>)
    requires OneOwner(proc) && forall i :: 0 <= i < |phases| ==> Strict(phases[i].pids)
    ensures var s := Cycle(proc, phases, done);
      Fresh(s, done) && forall t :: t in s <==> CycleWanted(proc, phases, done, t)
    decreases |phases|
  {
    if phases != [] {
      var first, rest := phases[0], phases[1..];
      var s := Pass(proc, first.state, first.pids, done);
      var more := Cycle(proc, rest, done + TidsOf(s));
      PassWhat(proc, first.state, first.pids, done);
      CycleWhat(proc, rest, done + TidsOf(s));
      FreshAppend(s, more, done);
      forall t: Task
        ensures t in s + more <==> CycleWanted(proc, phases, done, t)
      {
        CycleStep(proc, phases, done, s, t);
      }
    }
  }

  lemma CycleStep(proc: Proc, phases: seq<Phase>, done: set<int>, s: seq<Task>, t: Task)
    requires OneOwner(proc) && phases != []
    requires forall u :: u in s <==> Wanted(proc, phases[0].pids, done, phases[0].state, u)
    ensures t in s || CycleWanted(proc, phases[1..], done + TidsOf(s), t) <==> CycleWanted(proc, phases, done, t)
  {
    var first, rest := phases[0], phases[1..];
    TidsOfTasks(s);
    if t in s { assert FirstPhase(phases, t.pid, 0); }
    if CycleWanted(proc, rest, done + TidsOf(s), t) {
      var i :| FirstPhase(rest, t.pid, i) && t.tid !in done + TidsOf(s) && Eligible(proc, t.pid, t.tid)
               && t == TaskOf(proc, t.pid, t.tid, rest[i].state);
      var u := TaskOf(proc, t.pid, t.tid, first.state);
      assert t.pid in first.pids ==> Wanted(proc, first.pids, done, first.state, u);
      assert FirstPhase(phases, t.pid, i + 1);
    }
    if CycleWanted(proc, phases, done, t) && t !in s {
      var i :| FirstPhase(phases, t.pid, i) && t.tid !in done && Eligible(proc, t.pid, t.tid)
               && t == TaskOf(proc, t.pid, t.tid, phases[i].state);
      assert i == 0 ==> Wanted(proc, first.pids, done, first.state, t);
      assert FirstPhase(rest, t.pid, i - 1);
      assert forall u :: u in s ==> u.pid != t.pid && u.tid in proc.Tids(u.pid);
      assert forall u :: u in s ==> !(u.tid in proc.Tids(u.pid) && u.tid in proc.Tids(t.pid));
    }
  }

  lemma TidsOfTasks(s: seq<Task>)
    ensures forall u :: u in s ==> u.tid in TidsOf(s)
    ensures forall tid :: tid in TidsOf(s) ==> exists u :: u in s && u.tid == tid
  {
  }
}
