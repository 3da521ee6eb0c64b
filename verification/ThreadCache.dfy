// ThreadCache as the source keeps it: a map changed in place, erased from while it is iterated.
module ThreadCache {
  import opened Types
  import opened Kernel
  import opened Engine
  import opened Daemon

  // The map with the slot of `key` set to `e`.
  function Put(m: map<Key, Entry>, key: Key, e: Option<Entry>): map<Key, Entry> {
    if e.Some? then m[key := e.value] else m - {key}
  }

  class ThreadCache {
    var entries: map<Key, Entry>

    constructor ()
      ensures entries == map[]
    {
      entries := map[];
    }

    function Slot(key: Key): Option<Entry>
      reads this
    {
      if key in entries then Some(entries[key]) else None
    }

    method Lookup(t: Task) returns (e: Option<Entry>)
      ensures e == if Hit(Slot(KeyOf(t.id)), t) then Slot(KeyOf(t.id)) else None
    {
      var key := KeyOf(t.id);
      if key !in entries || entries[key].id != t.id { return None; }
      if entries[key].name == t.name && entries[key].cmdline == t.cmdline && entries[key].state == t.state {
        return Some(entries[key]);
      }
      return None;
    }

    method Update(t: Task, r: MatchResult)
      modifies this
      ensures entries == old(entries)[KeyOf(t.id) := Updated(old(Slot(KeyOf(t.id))), t, r)]
    {
      var key := KeyOf(t.id);
      if key in entries && entries[key].id == t.id {
        entries := entries[key := entries[key].(name := t.name, cmdline := t.cmdline, state := t.state, result := r)];
      } else {
        entries := entries[key := Entry(t.id, t.name, t.cmdline, t.state, r, None, UNMANAGED, None)];
      }
    }

    method SetBaseline(key: Key, b: Baseline)
      modifies this
      ensures key !in old(entries) ==> entries == old(entries)
      ensures key in old(entries) ==> entries == old(entries)[
          key := old(entries)[key].(baseline := Some(Merge(old(entries)[key].baseline, b)))]
    {
      if key !in entries { return; }
      var e := entries[key];
      if e.baseline.None? {
        entries := entries[key := e.(baseline := Some(b))];
        return;
      }
      var kept := e.baseline.value;
      if kept.affinity.None? && b.affinity.Some? { kept := kept.(affinity := b.affinity); }
      if kept.sched.None? && b.sched.Some? { kept := kept.(sched := b.sched); }
      if kept.cpuset.None? && b.cpuset.Some? { kept := kept.(cpuset := b.cpuset); }
      if kept.cpuctl.None? && b.cpuctl.Some? { kept := kept.(cpuctl := b.cpuctl); }
      entries := entries[key := e.(baseline := Some(kept))];
    }

    method GetBaseline(key: Key) returns (b: Option<Baseline>)
      ensures b == if key in entries then entries[key].baseline else None
    {
      b := if key in entries then entries[key].baseline else None;
    }

    method SetManaged(key: Key, m: Managed)
      modifies this
      ensures entries == if key in old(entries) then old(entries)[key := old(entries)[key].(managed := m)] else old(entries)
    {
      if key in entries { entries := entries[key := entries[key].(managed := m)]; }
    }

    method SetApplied(key: Key, r: Option<MatchResult>)
      modifies this
      ensures entries == if key in old(entries) then old(entries)[key := old(entries)[key].(applied := r)] else old(entries)
    {
      if key in entries { entries := entries[key := entries[key].(applied := r)]; }
    }

    method ClearBaseline(key: Key)
      modifies this
      ensures entries == if key in old(entries) then old(entries)[key := old(entries)[key].(baseline := None)] else old(entries)
    {
      if key in entries { entries := entries[key := entries[key].(baseline := None)]; }
    }

    // The three clears that follow a completed restore pass.
    method Release(key: Key)
      modifies this
      ensures entries == if key in old(entries)
        then old(entries)[key := old(entries)[key].(baseline := None, applied := None, managed := UNMANAGED)]
        else old(entries)
    {
      ClearBaseline(key);
      SetApplied(key, None);
      SetManaged(key, UNMANAGED);
    }

    // erase_thread_if_identity
    method EraseIfIdentity(id: Ident)
      modifies this
      ensures entries == if KeyOf(id) in old(entries) && old(entries)[KeyOf(id)].id == id
        then old(entries) - {KeyOf(id)} else old(entries)
    {
      var key := KeyOf(id);
      if key in entries && entries[key].id == id {
        entries := entries - {key};
      }
    }

    // The iteration order of the map is any order.
    method RetainLiveThreads(processes: map<nat, nat>, live: map<Key, nat>, start: map<Key, (nat, nat)>)
      modifies this
      ensures entries == Retain(old(entries), processes, live, start)
    {
      var todo := entries.Keys;
      while todo != {}
        invariant todo <= entries.Keys <= old(entries).Keys
        invariant forall key :: key in entries ==> entries[key] == old(entries)[key]
        invariant forall key :: key in old(entries) && key !in todo ==>
          (key in entries <==> Retains(old(entries)[key], key, processes, live, start))
        decreases |todo|
      {
        var key :| key in todo;
        todo := todo - {key};
        var e := entries[key];
        if key !in start || start[key].0 != e.id.processStart || start[key].1 != e.id.threadStart {
          continue;
        }
        if e.id.pid !in processes || processes[e.id.pid] != e.id.processStart {
          entries := entries - {key};
        } else if key in live && live[key] != e.id.threadStart {
          entries := entries - {key};
        } else if key !in live && e.baseline.None? {
          entries := entries - {key};
        }
      }
    }

    // clear_scheduling_state_preserving_baselines
    method ClearSchedulingState()
      modifies this
      ensures entries == Cleared(old(entries))
    {
      var todo := entries.Keys;
      while todo != {}
        invariant todo <= entries.Keys <= old(entries).Keys
        invariant forall key :: key in todo ==> entries[key] == old(entries)[key]
        invariant forall key :: key in old(entries) && key !in todo ==>
          if old(entries)[key].baseline.None? then key !in entries
          else key in entries && entries[key] == old(entries)[key].(name := "", cmdline := "", applied := None, managed := UNMANAGED)
        decreases |todo|
      {
        var key :| key in todo;
        todo := todo - {key};
        var e := entries[key];
        if e.baseline.None? {
          entries := entries - {key};
        } else {
          entries := entries[key := e.(name := "", cmdline := "", applied := None, managed := UNMANAGED)];
        }
      }
    }

    // reset_for_pid
    method ResetForPid(pid: nat)
      modifies this
      ensures entries == map key | key in old(entries) && key.0 != pid :: old(entries)[key]
    {
      var todo := entries.Keys;
      while todo != {}
        invariant todo <= entries.Keys <= old(entries).Keys
        invariant forall key :: key in entries ==> entries[key] == old(entries)[key]
        invariant forall key :: key in old(entries) && key !in todo ==> (key in entries <==> key.0 != pid)
        decreases |todo|
      {
        var key :| key in todo;
        todo := todo - {key};
        if key.0 == pid { entries := entries - {key}; }
      }
    }

    // get_all_baselines, in the map's iteration order.
    method GetAllBaselines() returns (saved: seq<Saved>)
      requires forall key :: key in entries ==> KeyOf(entries[key].id) == key
      ensures forall i :: 0 <= i < |saved| ==>
        Slot(KeyOf(saved[i].id)) != None && entries[KeyOf(saved[i].id)].id == saved[i].id
        && entries[KeyOf(saved[i].id)].baseline == Some(saved[i].baseline)
      ensures forall i, j :: 0 <= i < j < |saved| ==> KeyOf(saved[i].id) != KeyOf(saved[j].id)
      ensures forall key :: key in entries && entries[key].baseline.Some? ==>
        exists i :: 0 <= i < |saved| && KeyOf(saved[i].id) == key
    {
      saved := [];
      var todo := entries.Keys;
      while todo != {}
        invariant todo <= entries.Keys
        invariant forall i :: 0 <= i < |saved| ==>
          KeyOf(saved[i].id) in entries && KeyOf(saved[i].id) !in todo && entries[KeyOf(saved[i].id)].id == saved[i].id
          && entries[KeyOf(saved[i].id)].baseline == Some(saved[i].baseline)
        invariant forall i, j :: 0 <= i < j < |saved| ==> KeyOf(saved[i].id) != KeyOf(saved[j].id)
        invariant forall key :: key in entries && key !in todo && entries[key].baseline.Some? ==>
          exists i :: 0 <= i < |saved| && KeyOf(saved[i].id) == key
        decreases |todo|
      {
        var key :| key in todo;
        todo := todo - {key};
        if entries[key].baseline.Some? {
          ghost var before := saved;
          saved := saved + [Saved(entries[key].id, entries[key].baseline.value)];
          assert KeyOf(saved[|before|].id) == key;
          forall k | k in entries && k !in todo && entries[k].baseline.Some?
            ensures exists i :: 0 <= i < |saved| && KeyOf(saved[i].id) == k
          {
            if k != key {
              var i :| 0 <= i < |before| && KeyOf(before[i].id) == k;
              assert KeyOf(saved[i].id) == k;
            }
          }
        }
      }
    }
  }
}
