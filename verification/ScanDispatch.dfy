// dispatch_pids_to_workers, its resumable cursor (core/scan_cursor.hpp) and the five-phase full
// cycle, over a fixed snapshot of /proc. The time budget and the workers' queues may say no at any
// point; nothing is lost or repeated by it.
module ScanDispatch {
  import opened Types
  import opened Sorting
  import opened ScanSpec

  // ScanBudget: out of time at any moment.
  class ScanBudget {
    ghost var spent: nat  // how often it said so

    constructor ()
      ensures spent == 0
    {
      spent := 0;
    }

    method Exhausted() returns (b: bool)
      modifies this
      ensures spent == old(spent) + (if b then 1 else 0)
    {
      b := *;
      if b { spent := spent + 1; }
    }
  }

  class ScanCursor {
    var pid: int
    var taskDir: Option<nat>  // position in the open task directory
    var complete: bool
    var tids: seq<int>
    var tidIndex: nat
    var name: Option<string>
    var start: Option<nat>
    var cmdline: Option<string>

    constructor ()
      ensures Blank()
    {
      pid, taskDir, complete, tids, tidIndex, name, start, cmdline := 0, None, false, [], 0, None, None, None;
    }

    ghost predicate Blank()
      reads this
    {
      pid == 0 && Unread()
    }

    ghost predicate Unread()
      reads this
    {
      taskDir == None && !complete && tids == [] && tidIndex == 0 && name == None && start == None && cmdline == None
    }

    // Everything the cursor remembers is true of its process.
    ghost predicate Valid(proc: Proc)
      reads this
    {
      && (pid == 0 ==> Unread())
      && (complete ==> taskDir == None && tids == proc.Tids(pid) && tidIndex <= |tids|)
      && (!complete ==> tidIndex == 0 && name == None)
      && (taskDir.Some? ==> proc.At(pid).dir.Some? && taskDir.value <= |proc.At(pid).dir.value|
                            && tids == Collected(proc.At(pid).dir.value[..taskDir.value]))
      && (name.Some? ==> name.value == proc.At(pid).name)
      && (start.Some? ==> start.value == proc.At(pid).start)
      && (cmdline.Some? ==> cmdline.value == proc.At(pid).cmdline)
    }

    lemma BlankIsValid(proc: Proc)
      ensures Blank() <==> Valid(proc) && pid == 0
      ensures Blank() ==> tidIndex == 0
    {
    }

    lemma InRange(proc: Proc)
      requires Valid(proc)
      ensures tidIndex <= |proc.Tids(pid)|
    {
    }

    method Reset()
      modifies this
      ensures Blank()
    {
      pid, taskDir, complete, tids, tidIndex, name, start, cmdline := 0, None, false, [], 0, None, None, None;
    }

    method BeginPid(next: int)
      modifies this
      ensures pid == next && Unread()
    {
      Reset();
      pid := next;
    }

    // enumerate_tids: read the directory entry by entry, as long as the budget lasts.
    method EnumerateTids(proc: Proc, budget: ScanBudget) returns (done: bool)
      requires Valid(proc) && pid > 0
      modifies this, budget
      ensures Valid(proc) && pid == old(pid) && done == complete
      ensures budget.spent >= old(budget.spent) && (!done ==> budget.spent > old(budget.spent))
      ensures tidIndex == old(tidIndex) && name == old(name)
    {
      hide SortUnique, Proc.Readable;
      if complete { return true; }
      var dir := proc.At(pid).dir;
      if taskDir.None? {
        if dir.None? {
          complete, tids := true, [];
          return true;
        }
        taskDir, tids := Some(0), [];
        assert dir.value[..0] == [];
      }
      while true
        invariant Valid(proc) && pid == old(pid) && !complete && taskDir.Some? && name == old(name)
        invariant budget.spent == old(budget.spent)
        decreases |dir.value| - taskDir.value
      {
        var out := budget.Exhausted();
        if out { return false; }
        var at := taskDir.value;
        if at == |dir.value| {
          assert dir.value[..at] == dir.value;
          tids := SortUnique(tids);
          taskDir, complete, tidIndex := None, true, 0;
          return true;
        }
        assert dir.value[..at + 1][..at] == dir.value[..at];
        if dir.value[at].Id? {
          tids := tids + [dir.value[at].id];
        }
        taskDir := Some(at + 1);
      }
    }
  }

  // What is left of a pass when the cursor stands in process `pid` before its thread number `from`.
  function Rest(proc: Proc, state: ProcessState, pids: seq<int>, pid: int, from: nat, done: set<int>): seq<Task>
    requires from <= |proc.Tids(pid)|
  {
    if pids == [] then []
    else if pids[0] < pid then Rest(proc, state, pids[1..], pid, from, done)
    else if pids[0] == pid then
      var sends := PidSends(proc, state, pid, from, done);
      sends + Pass(proc, state, pids[1..], done + TidsOf(sends))
    else Pass(proc, state, pids, done)
  }

  lemma {:induction false} RestEmpty(proc: Proc, state: ProcessState, pids: seq<int>, pid: int, from: nat, done: set<int>)
    requires from <= |proc.Tids(pid)| && pids == []
    ensures Rest(proc, state, pids, pid, from, done) == []
  {
  }

  lemma {:induction false} RestEnd(proc: Proc, state: ProcessState, pids: seq<int>, i: nat, done: set<int>)
    requires i == |pids|
    ensures Rest(proc, state, pids[i..], 0, 0, done) == []
  {
  }

  // In the process at index i.
  lemma {:induction false} RestAt(proc: Proc, state: ProcessState, pids: seq<int>, i: nat, from: nat, done: set<int>)
    requires i < |pids| && from <= |proc.Tids(pids[i])|
    ensures var sends := PidSends(proc, state, pids[i], from, done);
      Rest(proc, state, pids[i..], pids[i], from, done) == sends + Pass(proc, state, pids[i + 1..], done + TidsOf(sends))
  {
    assert pids[i..][1..] == pids[i + 1..];
  }

  // A fresh cursor at index i stands before the whole pass from there.
  lemma {:induction false} RestFresh(proc: Proc, state: ProcessState, pids: seq<int>, i: nat, done: set<int>)
    requires i <= |pids| && forall j :: 0 <= j < |pids| ==> pids[j] > 0
    ensures Rest(proc, state, pids[i..], 0, 0, done) == Pass(proc, state, pids[i..], done)
    ensures i < |pids| ==> Rest(proc, state, pids[i..], pids[i], 0, done) == Pass(proc, state, pids[i..], done)
  {
    if i < |pids| { assert pids[i..][0] == pids[i]; }
  }

  // A cursor whose process is gone from the set goes on with the next one.
  lemma {:induction false} RestSkips(proc: Proc, state: ProcessState, pids: seq<int>, i: nat, pid: int, from: nat, done: set<int>)
    requires i < |pids| && 0 < pid < pids[i] && from <= |proc.Tids(pid)|
    ensures Rest(proc, state, pids[i..], pid, from, done) == Rest(proc, state, pids[i..], 0, 0, done)
  {
    assert pids[i..][0] == pids[i];
  }

  // Processes before the cursor's own do not matter.
  lemma {:induction false} RestDrops(proc: Proc, state: ProcessState, pids: seq<int>, j: nat, from: nat, done: set<int>)
    requires j < |pids| && Strict(pids) && from <= |proc.Tids(pids[j])|
    ensures Rest(proc, state, pids[j..], pids[j], from, done) == Rest(proc, state, pids, pids[j], from, done)
    decreases j
  {
    if j > 0 {
      var rest := pids[1..];
      assert rest[j - 1..] == pids[j..];
      RestDrops(proc, state, rest, j - 1, from, done);
    }
  }

  // A process that is finished leaves the pass over the following ones.
  lemma {:induction false} RestNext(proc: Proc, state: ProcessState, pids: seq<int>, i: nat, from: nat, done: set<int>, more: seq<Task>)
    requires i < |pids| && from <= |proc.Tids(pids[i])| && (forall j :: 0 <= j < |pids| ==> pids[j] > 0)
    requires more == PidSends(proc, state, pids[i], from, done)
    ensures Rest(proc, state, pids[i..], pids[i], from, done)
      == more + Rest(proc, state, pids[i + 1..], 0, 0, done + TidsOf(more))
  {
    hide TidsOf, Pass, PidSends, Rest;
    RestAt(proc, state, pids, i, from, done);
    RestFresh(proc, state, pids, i + 1, done + TidsOf(more));
  }

  // What one process sent and what it has left make up what it had.
  lemma {:induction false} RestSplit(proc: Proc, state: ProcessState, pids: seq<int>, i: nat, from: nat, to: nat, done: set<int>,
                  done': set<int>, more: seq<Task>)
    requires i < |pids| && from <= |proc.Tids(pids[i])| && to <= |proc.Tids(pids[i])|
    requires done' == done + TidsOf(more)
    requires more + PidSends(proc, state, pids[i], to, done') == PidSends(proc, state, pids[i], from, done)
    ensures more + Rest(proc, state, pids[i..], pids[i], to, done') == Rest(proc, state, pids[i..], pids[i], from, done)
  {
    hide TidsOf, Pass, PidSends, Rest;
    var left := PidSends(proc, state, pids[i], to, done');
    RestAt(proc, state, pids, i, from, done);
    RestAt(proc, state, pids, i, to, done');
    TidsOfConcat(more, left);
    var tail := Pass(proc, state, pids[i + 1..], done' + TidsOf(left));
    assert done + TidsOf(more + left) == done' + TidsOf(left);
    assert more + (left + tail) == (more + left) + tail;
  }

  lemma Associative(a: seq<Task>, b: seq<Task>, c: seq<Task>)
    ensures a + (b + c) == (a + b) + c
  {
  }

  lemma TidsOfConcat(a: seq<Task>, b: seq<Task>)
    ensures TidsOf(a + b) == TidsOf(a) + TidsOf(b)
  {
    forall t | t in TidsOf(b)
      ensures t in TidsOf(a + b)
    {
      var i :| 0 <= i < |b| && b[i].tid == t;
      assert (a + b)[|a| + i].tid == t;
    }
    forall t | t in TidsOf(a)
      ensures t in TidsOf(a + b)
    {
      var i :| 0 <= i < |a| && a[i].tid == t;
      assert (a + b)[i].tid == t;
    }
  }

  lemma TidsOfNone()
    ensures TidsOf([]) == {}
  {
  }

  lemma TidsOfMore(a: seq<Task>, t: Task)
    ensures TidsOf(a + [t]) == TidsOf(a) + {t.tid}
  {
    assert TidsOf([t]) == {t.tid} by { assert [t][0].tid in TidsOf([t]); }
    TidsOfConcat(a, [t]);
  }

  lemma {:induction false} SendsStep(proc: Proc, state: ProcessState, pid: int, tids: seq<int>, i: nat, done: set<int>)
    requires i < |tids|
    ensures Sends(proc, state, pid, tids[i..], done)
      == if tids[i] in done || !proc.ReadableThread(pid, tids[i]) then Sends(proc, state, pid, tids[i + 1..], done)
         else [TaskOf(proc, pid, tids[i], state)] + Sends(proc, state, pid, tids[i + 1..], done + {tids[i]})
  {
    assert tids[i..][1..] == tids[i + 1..];
  }

  lemma {:induction false} SendsNone(proc: Proc, state: ProcessState, pid: int, tids: seq<int>, i: nat, done: set<int>)
    requires i == |tids|
    ensures Sends(proc, state, pid, tids[i..], done) == []
  {
  }

  lemma TidOfTask(proc: Proc, pid: int, tid: int, state: ProcessState)
    ensures TaskOf(proc, pid, tid, state).tid == tid
  {
  }

  datatype Tried = PassedOver | Enqueued | NotNow

  datatype Known = Unreadable | Identified | Cut

  class Dispatcher {
    const proc: Proc
    const workers: nat
    var sent: seq<Task>            // successful enqueues, in order
    var processed: set<int>
    var fullRescanNeeded: bool
    ghost var refusals: nat        // how often a worker refused a task

    constructor (proc: Proc, workers: nat)
      ensures this.proc == proc && this.workers == workers && sent == [] && processed == {}
      ensures refusals == 0 && !fullRescanNeeded
    {
      this.proc, this.workers := proc, workers;
      sent, processed, fullRescanNeeded, refusals := [], {}, false, 0;
    }

    // ScanWorker::enqueue may find the queue full or the worker stopped.
    method Enqueue(t: Task) returns (accepted: bool)
      modifies this
      ensures processed == old(processed) && fullRescanNeeded == old(fullRescanNeeded)
      ensures sent == if accepted then old(sent) + [t] else old(sent)
      ensures refusals == old(refusals) + (if accepted then 0 else 1)
    {
      accepted := *;
      if accepted { sent := sent + [t]; } else { refusals := refusals + 1; }
    }

    // The tasks enqueued since the log was `before`.
    twostate predicate Sent(added: seq<Task>)
      reads this
    {
      sent == old(sent) + added && processed == old(processed) + TidsOf(added)
    }

    // A worker refused or the budget ran out since.
    twostate predicate Stopped(budget: ScanBudget)
      reads this, budget
    {
      refusals > old(refusals) || budget.spent > old(budget.spent)
    }

    // Every refusal asks for a new full scan, and nothing else does.
    twostate predicate Counted(budget: ScanBudget)
      reads this, budget
    {
      && refusals >= old(refusals) && budget.spent >= old(budget.spent)
      && (fullRescanNeeded <==> old(fullRescanNeeded) || refusals > old(refusals))
    }

    // The name, start time and command line of a listed process; one that cannot be read is passed over.
    method Identify(cursor: ScanCursor, budget: ScanBudget) returns (r: Known)
      requires cursor.Valid(proc) && cursor.complete && cursor.pid > 0
      modifies cursor`name, cursor`start, cursor`cmdline, budget
      ensures cursor.Valid(proc) && budget.spent >= old(budget.spent)
      ensures r == Cut ==> budget.spent > old(budget.spent)
      ensures r == Unreadable ==> !proc.Readable(cursor.pid)
      ensures r == Identified ==> proc.Readable(cursor.pid)
      ensures var p := proc.At(cursor.pid);
        r == Identified ==> (cursor.name, cursor.start, cursor.cmdline) == (Some(p.name), Some(p.start), Some(p.cmdline))
    {
      hide Collected, SortUnique;
      var out := budget.Exhausted();
      if out { return Cut; }
      var pid := cursor.pid;
      if cursor.name.None? { cursor.name := Some(proc.At(pid).name); }
      if cursor.name.value == DEAD { return Unreadable; }
      out := budget.Exhausted();
      if out { return Cut; }
      if cursor.start.None? { cursor.start := Some(proc.At(pid).start); }
      if cursor.start.value == 0 { return Unreadable; }
      out := budget.Exhausted();
      if out { return Cut; }
      if cursor.cmdline.None? { cursor.cmdline := Some(proc.At(pid).cmdline); }
      return Identified;
    }

    // The threads of one process, from the cursor on.
    method DispatchPid(state: ProcessState, cursor: ScanCursor, budget: ScanBudget) returns (incomplete: bool, ghost added: seq<Task>)
      requires cursor.Valid(proc) && cursor.pid > 0
      modifies this, cursor, budget
      ensures cursor.Valid(proc) && cursor.pid == old(cursor.pid) && Sent(added)
      ensures Counted(budget) && (incomplete ==> Stopped(budget))
      ensures var all := PidSends(proc, state, cursor.pid, old(cursor.tidIndex), old(processed));
        if incomplete then added + PidSends(proc, state, cursor.pid, cursor.tidIndex, processed) == all
        else added == all
    {
      hide TidsOf, Sends, Collected, Strict, SortUnique, Proc.Readable;
      TidsOfNone();
      var enumerated := cursor.EnumerateTids(proc, budget);
      if !enumerated { return true, []; }
      var known := Identify(cursor, budget);
      if known == Cut { return true, []; }
      if known == Unreadable { return false, []; }
      incomplete, added := DispatchTids(state, cursor, budget);
    }

    // One thread: passed over, enqueued, or not this time.
    method TryThread(tid: int, state: ProcessState, cursor: ScanCursor, budget: ScanBudget) returns (r: Tried)
      requires var p := proc.At(cursor.pid); (cursor.name, cursor.start, cursor.cmdline) == (Some(p.name), Some(p.start), Some(p.cmdline))
      modifies this, budget
      ensures r != Enqueued ==> sent == old(sent) && processed == old(processed)
      ensures Counted(budget) && (r == NotNow ==> Stopped(budget))
      ensures r == PassedOver ==> tid in processed || !proc.ReadableThread(cursor.pid, tid)
      ensures r == Enqueued ==> tid !in old(processed) && proc.ReadableThread(cursor.pid, tid)
      ensures r == Enqueued ==> sent == old(sent) + [TaskOf(proc, cursor.pid, tid, state)] && processed == old(processed) + {tid}
    {
      if tid in processed { return PassedOver; }
      var threadName := proc.Thread(cursor.pid, tid).name;
      if threadName == DEAD { return PassedOver; }
      var out := budget.Exhausted();
      if out { return NotNow; }
      var threadStart := proc.Thread(cursor.pid, tid).start;
      if threadStart == 0 { return PassedOver; }
      out := budget.Exhausted();
      if out { return NotNow; }
      var task := Task(cursor.pid, tid, cursor.start.value, threadStart, threadName, state,
                       cursor.name.value, cursor.cmdline.value);
      var accepted := Enqueue(task);
      if !accepted {
        fullRescanNeeded := true;
        return NotNow;
      }
      processed := processed + {tid};
      return Enqueued;
    }

    method DispatchTids(state: ProcessState, cursor: ScanCursor, budget: ScanBudget) returns (incomplete: bool, ghost added: seq<Task>)
      requires cursor.tidIndex <= |cursor.tids|
      requires var p := proc.At(cursor.pid); (cursor.name, cursor.start, cursor.cmdline) == (Some(p.name), Some(p.start), Some(p.cmdline))
      modifies this, cursor`tidIndex, budget
      ensures cursor.tidIndex <= |cursor.tids| && Sent(added)
      ensures Counted(budget) && (incomplete ==> Stopped(budget))
      ensures var all := Sends(proc, state, cursor.pid, cursor.tids[old(cursor.tidIndex)..], old(processed));
        if incomplete then added + Sends(proc, state, cursor.pid, cursor.tids[cursor.tidIndex..], processed) == all
        else added == all
    {
      hide TidsOf, Sends, TaskOf, Proc.ReadableThread;
      added := [];
      TidsOfNone();
      ghost var all := Sends(proc, state, cursor.pid, cursor.tids[cursor.tidIndex..], processed);
      while cursor.tidIndex < |cursor.tids|
        invariant cursor.tidIndex <= |cursor.tids| && Sent(added) && Counted(budget)
        invariant added + Sends(proc, state, cursor.pid, cursor.tids[cursor.tidIndex..], processed) == all
      {
        var out := budget.Exhausted();
        if out { return true, added; }
        var tid := cursor.tids[cursor.tidIndex];
        SendsStep(proc, state, cursor.pid, cursor.tids, cursor.tidIndex, processed);
        cursor.tidIndex := cursor.tidIndex + 1;
        var tried := TryThread(tid, state, cursor, budget);
        if tried == NotNow {
          cursor.tidIndex := cursor.tidIndex - 1;
          return true, added;
        }
        if tried == Enqueued {
          ghost var task := TaskOf(proc, cursor.pid, tid, state);
          TidOfTask(proc, cursor.pid, tid, state);
          TidsOfMore(added, task);
          Associative(added, [task], Sends(proc, state, cursor.pid, cursor.tids[cursor.tidIndex..], processed));
          added := added + [task];
        }
      }
      SendsNone(proc, state, cursor.pid, cursor.tids, cursor.tidIndex, processed);
      return false, added;
    }

    // std::set::lower_bound of the cursor's process.
    method LowerBound(pids: seq<int>, pid: int, ghost state: ProcessState, ghost from: nat) returns (i: nat)
      requires from <= |proc.Tids(pid)|
      ensures i <= |pids| && (i < |pids| ==> pid <= pids[i])
      ensures Rest(proc, state, pids[i..], pid, from, processed) == Rest(proc, state, pids, pid, from, processed)
    {
      i := 0;
      while i < |pids| && pids[i] < pid
        invariant i <= |pids|
        invariant Rest(proc, state, pids[i..], pid, from, processed) == Rest(proc, state, pids, pid, from, processed)
      {
        assert pids[i..][1..] == pids[i + 1..];
        i := i + 1;
      }
    }

    // The process at index `i`, in which the cursor stands or which it enters now.
    method DispatchAt(pids: seq<int>, i: nat, state: ProcessState, cursor: ScanCursor, budget: ScanBudget)
      returns (incomplete: bool, ghost added: seq<Task>)
      requires cursor.Valid(proc) && i < |pids| && (forall j :: 0 <= j < |pids| ==> pids[j] > 0)
      requires cursor.pid == 0 || cursor.pid == pids[i]
      modifies this, cursor, budget
      ensures cursor.Valid(proc) && Sent(added)
      ensures Counted(budget) && (incomplete ==> Stopped(budget))
      ensures var all := Rest(proc, state, pids[i..], old(cursor.pid), old(cursor.tidIndex), old(processed));
        if incomplete then cursor.pid == pids[i] && added + Rest(proc, state, pids[i..], cursor.pid, cursor.tidIndex, processed) == all
        else cursor.pid == 0 && cursor.tidIndex == 0 && added + Rest(proc, state, pids[i + 1..], 0, 0, processed) == all
    {
      hide TidsOf, Rest, Pass, PidSends, Collected, SortUnique;
      var pid := pids[i];
      if cursor.pid != pid {
        RestFresh(proc, state, pids, i, processed);
        cursor.BeginPid(pid);
      }
      ghost var done, from := processed, cursor.tidIndex;
      incomplete, added := DispatchPid(state, cursor, budget);
      if incomplete {
        RestSplit(proc, state, pids, i, from, cursor.tidIndex, done, processed, added);
        return;
      }
      RestNext(proc, state, pids, i, from, done, added);
      cursor.Reset();
    }

    // The loop over the processes from index `first` on; the cursor is in the first or fresh.
    method DispatchFrom(pids: seq<int>, first: nat, state: ProcessState, cursor: ScanCursor, budget: ScanBudget)
      returns (incomplete: bool, ghost added: seq<Task>, ghost at: nat)
      requires cursor.Valid(proc) && (forall i :: 0 <= i < |pids| ==> pids[i] > 0)
      requires first <= |pids| && (cursor.pid == 0 || (first < |pids| && cursor.pid == pids[first]))
      modifies this, cursor, budget
      ensures cursor.Valid(proc) && cursor.pid >= 0 && Sent(added)
      ensures Counted(budget) && (incomplete ==> Stopped(budget))
      ensures incomplete ==> at < |pids| && cursor.pid == pids[at]
      ensures var all := Rest(proc, state, pids[first..], old(cursor.pid), old(cursor.tidIndex), old(processed));
        if incomplete then added + Rest(proc, state, pids[at..], cursor.pid, cursor.tidIndex, processed) == all
        else cursor.pid == 0 && added == all
    {
      hide TidsOf, Rest, Pass, PidSends, Collected, SortUnique;
      added := [];
      TidsOfNone();
      ghost var all := Rest(proc, state, pids[first..], cursor.pid, cursor.tidIndex, processed);
      var i := first;
      while i < |pids|
        invariant first <= i <= |pids| && cursor.Valid(proc) && Sent(added) && Counted(budget)
        invariant cursor.pid == 0 || (i < |pids| && cursor.pid == pids[i])
        invariant added + Rest(proc, state, pids[i..], cursor.pid, cursor.tidIndex, processed) == all
      {
        ghost var more, before := [], added;
        incomplete, more := DispatchAt(pids, i, state, cursor, budget);
        added := before + more;
        TidsOfConcat(before, more);
        Associative(before, more, Rest(proc, state, pids[if incomplete then i else i + 1..], cursor.pid, cursor.tidIndex, processed));
        if incomplete { return true, added, i; }
        i := i + 1;
      }
      RestEnd(proc, state, pids, i, processed);
      return false, added, 0;
    }

    // dispatch_pids_to_workers. What this call enqueues and what remains at the cursor are together
    // what remained before; only a call that leaves nothing returns false, and only one in which the
    // budget ran out or a worker refused returns true.
    method DispatchPids(pids: seq<int>, state: ProcessState, cursor: ScanCursor, budget: ScanBudget)
      returns (incomplete: bool, ghost added: seq<Task>)
      requires cursor.Valid(proc) && cursor.pid >= 0 && Strict(pids) && (forall i :: 0 <= i < |pids| ==> pids[i] > 0)
      modifies this, cursor, budget
      ensures cursor.Valid(proc) && cursor.pid >= 0 && Sent(added)
      ensures Counted(budget) && (incomplete ==> Stopped(budget))
      ensures var all := Rest(proc, state, pids, old(cursor.pid), old(cursor.tidIndex), old(processed));
        if incomplete then added + Rest(proc, state, pids, cursor.pid, cursor.tidIndex, processed) == all
        else cursor.pid == 0 && added == if workers == 0 then [] else all
    {
      hide TidsOf, Rest, Pass, PidSends, Collected, SortUnique;
      TidsOfNone();
      if workers == 0 || pids == [] {
        if pids == [] { RestEmpty(proc, state, pids, cursor.pid, cursor.tidIndex, processed); }
        cursor.Reset();
        return false, [];
      }
      var i := LowerBound(pids, cursor.pid, state, cursor.tidIndex);
      if i == |pids| {
        RestEmpty(proc, state, pids[i..], cursor.pid, cursor.tidIndex, processed);
        cursor.Reset();
        return false, [];
      }
      if cursor.pid > 0 && pids[i] != cursor.pid {
        RestSkips(proc, state, pids, i, cursor.pid, cursor.tidIndex, processed);
        cursor.Reset();
      }
      ghost var at: nat;
      incomplete, added, at := DispatchFrom(pids, i, state, cursor, budget);
      if incomplete {
        RestDrops(proc, state, pids, at, cursor.tidIndex, processed);
      }
    }
  }

  // The phases of a full cycle, in order: top, pinned, topfore, foreground, background.
  function PhasesOf(top: seq<int>, pinned: seq<int>, topfore: seq<int>, foreground: seq<int>, background: seq<int>): seq<Phase> {
    [Phase(TOP, top), Phase(TOP, pinned), Phase(TOP, topfore), Phase(FG, foreground), Phase(BG, background)]
  }

  ghost predicate PhasesOk(phases: seq<Phase>) {
    forall i :: 0 <= i < |phases| ==> Strict(phases[i].pids) && forall j :: 0 <= j < |phases[i].pids| ==> phases[i].pids[j] > 0
  }

  // What is left of a cycle in phase `at` with its cursor at (pid, from).
  function CycleRest(proc: Proc, phases: seq<Phase>, at: nat, pid: int, from: nat, done: set<int>): seq<Task>
    requires at <= |phases| && from <= |proc.Tids(pid)|
  {
    if at == |phases| then []
    else
      var rest := Rest(proc, phases[at].state, phases[at].pids, pid, from, done);
      rest + Cycle(proc, phases[at + 1..], done + TidsOf(rest))
  }

  lemma {:induction false} CycleRestStart(proc: Proc, phases: seq<Phase>, at: nat, done: set<int>)
    requires at <= |phases| && PhasesOk(phases)
    ensures CycleRest(proc, phases, at, 0, 0, done) == Cycle(proc, phases[at..], done)
  {
    if at < |phases| {
      assert phases[at..][0] == phases[at] && phases[at..][1..] == phases[at + 1..];
      RestFresh(proc, phases[at].state, phases[at].pids, 0, done);
      assert phases[at].pids[0..] == phases[at].pids;
    }
  }

  lemma PhaseOk(phases: seq<Phase>, at: nat)
    requires PhasesOk(phases) && at < |phases|
    ensures Strict(phases[at].pids) && forall j :: 0 <= j < |phases[at].pids| ==> phases[at].pids[j] > 0
  {
  }

  lemma {:induction false} CycleNone(proc: Proc, phases: seq<Phase>, done: set<int>)
    ensures phases == [] ==> Cycle(proc, phases, done) == []
  {
  }

  // A phase that is finished leaves the phases after it.
  lemma {:induction false} CycleRestNext(proc: Proc, phases: seq<Phase>, at: nat, pid: int, from: nat, done: set<int>, added: seq<Task>)
    requires at < |phases| && from <= |proc.Tids(pid)| && PhasesOk(phases)
    requires added == Rest(proc, phases[at].state, phases[at].pids, pid, from, done)
    ensures CycleRest(proc, phases, at, pid, from, done) == added + Cycle(proc, phases[at + 1..], done + TidsOf(added))
    ensures CycleRest(proc, phases, at + 1, 0, 0, done + TidsOf(added)) == Cycle(proc, phases[at + 1..], done + TidsOf(added))
    ensures at + 1 == |phases| ==> Cycle(proc, phases[at + 1..], done + TidsOf(added)) == []
  {
    hide TidsOf, Rest;
    CycleRestStart(proc, phases, at + 1, done + TidsOf(added));
  }

  lemma {:induction false} CycleRestIs(proc: Proc, phases: seq<Phase>, at: nat, pid: int, from: nat, done: set<int>)
    requires at < |phases| && from <= |proc.Tids(pid)|
    ensures var rest := Rest(proc, phases[at].state, phases[at].pids, pid, from, done);
      CycleRest(proc, phases, at, pid, from, done) == rest + Cycle(proc, phases[at + 1..], done + TidsOf(rest))
  {
    hide TidsOf, Rest, Cycle;
  }

  // The part of a phase that was sent now, followed by what it has left.
  lemma {:induction false} CycleRestSplit(proc: Proc, phases: seq<Phase>, at: nat, pid: int, from: nat, pid': int, from': nat,
                       done: set<int>, added: seq<Task>)
    requires at < |phases| && from <= |proc.Tids(pid)| && from' <= |proc.Tids(pid')|
    requires var p := phases[at];
      added + Rest(proc, p.state, p.pids, pid', from', done + TidsOf(added)) == Rest(proc, p.state, p.pids, pid, from, done)
    ensures added + CycleRest(proc, phases, at, pid', from', done + TidsOf(added)) == CycleRest(proc, phases, at, pid, from, done)
  {
    hide TidsOf, Rest, Cycle, CycleRest;
    var p := phases[at];
    var left := Rest(proc, p.state, p.pids, pid', from', done + TidsOf(added));
    CycleRestIs(proc, phases, at, pid, from, done);
    CycleRestIs(proc, phases, at, pid', from', done + TidsOf(added));
    TidsOfConcat(added, left);
    assert done + TidsOf(added + left) == done + TidsOf(added) + TidsOf(left);
    Associative(added, left, Cycle(proc, phases[at + 1..], done + TidsOf(added) + TidsOf(left)));
  }

  // What an interrupted cycle has sent so far: no thread twice, each with the state of the first phase
  // that lists its process. With nothing left, that is every readable thread listed.
  lemma {:induction false} SentSoFar(proc: Proc, phases: seq<Phase>, done: set<int>, sent: seq<Task>, left: seq<Task>)
    requires OneOwner(proc) && PhasesOk(phases) && sent + left == Cycle(proc, phases, done)
    ensures Fresh(sent, done) && forall t :: t in sent ==> CycleWanted(proc, phases, done, t)
    ensures left == [] ==> forall t :: CycleWanted(proc, phases, done, t) ==> t in sent
  {
    hide Cycle, CycleWanted;
    CycleWhat(proc, phases, done);
    assert forall i :: 0 <= i < |sent| ==> sent[i] == (sent + left)[i];
    assert left == [] ==> sent + left == sent;
  }

  // The full scan's dispatch half: five phases, each with its own cursor, over as many calls as the
  // budgets make it take.
  class FullCycle {
    const dispatcher: Dispatcher
    const phases: seq<Phase>
    const cursors: seq<ScanCursor>
    var phase: nat

    constructor (dispatcher: Dispatcher, phases: seq<Phase>, cursors: seq<ScanCursor>)
      requires PhasesOk(phases) && |phases| == |cursors| && dispatcher.workers > 0
      requires forall i, j :: 0 <= i < j < |cursors| ==> cursors[i] != cursors[j]
      requires forall c :: c in cursors ==> c.Blank()
      ensures this.dispatcher == dispatcher && this.phases == phases && this.cursors == cursors && phase == 0
      ensures Valid() && Left() == Cycle(dispatcher.proc, phases, dispatcher.processed)
    {
      this.dispatcher, this.phases, this.cursors, phase := dispatcher, phases, cursors, 0;
      new;
      hide Cycle, Rest, CycleRest, PhasesOk, ScanCursor.Blank, ScanCursor.Valid, Proc.Tids;
      forall i | 0 <= i < |cursors|
        ensures cursors[i].Valid(dispatcher.proc) && cursors[i].pid == 0 && cursors[i].tidIndex == 0
      {
        assert cursors[i] in cursors;
        cursors[i].BlankIsValid(dispatcher.proc);
      }
      CycleRestStart(dispatcher.proc, phases, 0, dispatcher.processed);
      assert phases[0..] == phases;
      CycleNone(dispatcher.proc, phases, dispatcher.processed);
    }

    ghost predicate Valid()
      reads this, dispatcher, cursors
    {
      && PhasesOk(phases) && |phases| == |cursors| && phase <= |phases| && dispatcher.workers > 0
      && (forall i, j :: 0 <= i < j < |cursors| ==> cursors[i] != cursors[j])
      && (forall i :: 0 <= i < |cursors| ==> if i == phase then cursors[i].Valid(dispatcher.proc) && cursors[i].pid >= 0
                                             else cursors[i].Blank())
    }

    // What is left of the cycle.
    ghost function Left(): seq<Task>
      reads this, dispatcher, cursors
      requires Valid()
    {
      if phase == |phases| then []
      else CycleRest(dispatcher.proc, phases, phase, cursors[phase].pid, cursors[phase].tidIndex, dispatcher.processed)
    }

    // One call of dispatch_pids_to_workers on the current phase.
    method DispatchPhase(budget: ScanBudget) returns (incomplete: bool, ghost added: seq<Task>)
      requires Valid() && phase < |phases|
      modifies this, dispatcher, cursors, budget
      ensures Valid() && dispatcher.Sent(added) && added + Left() == old(Left())
      ensures phase == old(phase) + (if incomplete then 0 else 1) <= |phases|
      ensures dispatcher.Counted(budget) && (incomplete ==> dispatcher.Stopped(budget))
    {
      hide TidsOf, Rest, Cycle, CycleRest, Pass, PhasesOk, ScanCursor.Blank, ScanCursor.Valid;
      PhaseOk(phases, phase);
      var cursor, p := cursors[phase], phases[phase];
      ghost var pid, from, done := cursor.pid, cursor.tidIndex, dispatcher.processed;
      cursor.InRange(dispatcher.proc);
      incomplete, added := dispatcher.DispatchPids(p.pids, p.state, cursor, budget);
      cursor.BlankIsValid(dispatcher.proc);
      if phase + 1 < |phases| { cursors[phase + 1].BlankIsValid(dispatcher.proc); }
      cursor.InRange(dispatcher.proc);
      if incomplete {
        CycleRestSplit(dispatcher.proc, phases, phase, pid, from, cursor.pid, cursor.tidIndex, done, added);
      } else {
        CycleRestNext(dispatcher.proc, phases, phase, pid, from, done, added);
        phase := phase + 1;
      }
    }

    // The dispatch part of one main-loop iteration. It ends the cycle unless it is stopped.
    method Advance(budget: ScanBudget) returns (ghost added: seq<Task>)
      requires Valid()
      modifies this, dispatcher, cursors, budget
      ensures Valid() && dispatcher.Sent(added) && added + Left() == old(Left()) && old(phase) <= phase <= |phases|
      ensures dispatcher.Counted(budget) && (phase == |phases| || dispatcher.Stopped(budget))
    {
      hide Valid, Left;
      InRange();
      added := [];
      TidsOfNone();
      var incomplete := false;
      var out := budget.Exhausted();
      while !incomplete && !out && phase < |phases|
        invariant Valid() && dispatcher.Sent(added) && added + Left() == old(Left()) && old(phase) <= phase <= |phases|
        invariant dispatcher.Counted(budget) && (incomplete || out ==> dispatcher.Stopped(budget))
        decreases |phases| - phase, !incomplete
      {
        ghost var more, before := [], added;
        incomplete, more := DispatchPhase(budget);
        added := before + more;
        TidsOfConcat(before, more);
        assert before + (more + Left()) == added + Left();
        out := budget.Exhausted();
      }
    }

    // Any number of main-loop iterations. If they reach the end of the cycle, they have enqueued
    // exactly what one uninterrupted cycle enqueues, in the same order; and they do reach it unless
    // every one of them was stopped by its budget (`cut`) or a worker.
    method Run(iterations: nat) returns (finished: bool, ghost added: seq<Task>, ghost cut: nat)
      requires Valid()
      modifies this, dispatcher, cursors
      ensures Valid() && dispatcher.Sent(added) && added + Left() == old(Left())
      ensures finished ==> added == old(Left())
      ensures finished || iterations <= cut + (dispatcher.refusals - old(dispatcher.refusals))
      ensures dispatcher.refusals >= old(dispatcher.refusals)
    {
      hide Valid, Left;
      added, cut := [], 0;
      TidsOfNone();
      for i := 0 to iterations
        invariant Valid() && dispatcher.Sent(added) && added + Left() == old(Left())
        invariant dispatcher.refusals >= old(dispatcher.refusals)
        invariant phase == |phases| || i <= cut + (dispatcher.refusals - old(dispatcher.refusals))
      {
        var budget := new ScanBudget();
        ghost var before := added;
        ghost var more := Advance(budget);
        cut := cut + (if budget.spent > 0 then 1 else 0);
        added := before + more;
        TidsOfConcat(before, more);
        assert before + (more + Left()) == added + Left();
      }
      finished := phase == |phases|;
      LeftAtEnd();
    }

    lemma InRange()
      requires Valid()
      ensures phase <= |phases|
    {
    }

    lemma LeftAtEnd()
      requires Valid()
      ensures phase == |phases| ==> Left() == []
    {
    }
  }
}
