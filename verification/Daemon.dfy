// The daemon over all threads: the thread cache (core/thread_cache.hpp), dispatches by the workers,
// the retention step that ends a full scan, restore_all_thread_baselines and the reload and event
// resets (main.cpp). One event is one atomic step; a run is any sequence of events.
module Daemon {
  import opened Types
  import opened Kernel
  import opened Engine
  import opened Restorability

  type Key = (nat, nat)

  function KeyOf(id: Ident): Key { (id.pid, id.tid) }

  datatype World = World(threads: map<Ident, KThread>, now: nat, log: Log, cache: map<Key, Entry>)
  {
    function At(id: Ident): Ctx requires id in threads { Ctx(threads[id], now, log) }

    // The world after a run of calls on `id`.
    function Moved(id: Ident, x: Ctx): World { this.(threads := threads[id := x.k], now := x.now, log := x.log) }

    // The entry stored under a key.
    function Found(key: Key): Option<Entry> { if key in cache then Some(cache[key]) else None }

    function Stored(key: Key, e: Option<Entry>): World {
      this.(cache := if e.Some? then cache[key := e.value] else cache - {key})
    }

    // The entry of exactly this identity.
    function EntryOf(id: Ident): Option<Entry> {
      if KeyOf(id) in cache && cache[KeyOf(id)].id == id then Some(cache[KeyOf(id)]) else None
    }

    function HeldOf(id: Ident): Baseline { if EntryOf(id).Some? then EntryOf(id).value.Held() else NO_BASELINE }

    function ManagedOf(id: Ident): Managed { if EntryOf(id).Some? then EntryOf(id).value.managed else UNMANAGED }
  }

  // How each thread's kernel calls turn out, and its state before ReUperf touched it.
  datatype Setting = Setting(env: Ident -> Env, home: Ident -> KThread)

  // Two identities never share a (pid, tid) at the same time.
  ghost predicate Lawful(s: Setting, w: World) {
    && (forall id :: id in w.threads ==> s.env(id).id == id && Sound(s.env(id), s.home(id)))
    && (forall a, b, t :: a in w.threads && b in w.threads && a != b && KeyOf(a) == KeyOf(b) ==>
          !(s.env(a).Alive(t) && s.env(b).Alive(t)))
  }

  ghost predicate CacheOk(s: Setting, w: World) {
    forall key :: key in w.cache ==>
      var id := w.cache[key].id;
      KeyOf(id) == key && id in w.threads && s.env(id).born <= w.now
  }

  ghost predicate ThreadOk(s: Setting, w: World, id: Ident)
    requires id in w.threads
  {
    s.env(id).Dead(w.now) || Covered(s.home(id), w.threads[id], w.HeldOf(id), w.ManagedOf(id))
  }

  // Every thread that still exists can be given back.
  ghost predicate Safe(s: Setting, w: World) {
    Lawful(s, w) && CacheOk(s, w) && forall id :: id in w.threads ==> ThreadOk(s, w, id)
  }

  ghost predicate ThreadExact(s: Setting, w: World, id: Ident)
    requires id in w.threads
  {
    s.env(id).Dead(w.now) || Exact(s.home(id), w.threads[id], w.ManagedOf(id))
  }

  // Every dimension not managed is at its original.
  ghost predicate AllExact(s: Setting, w: World) { forall id :: id in w.threads ==> ThreadExact(s, w, id) }

  // ---- Events ------------------------------------------------------------------------------------------

  datatype Saved = Saved(id: Ident, baseline: Baseline)

  datatype Event =
    | Waited(until: nat)
    | Dispatched(t: Task, inp: Inputs)
    | Retained(processes: map<nat, nat>, live: map<Key, nat>, start: map<Key, (nat, nat)>)
    | RestoredAll(saved: seq<Saved>, replaced: bool)
    | PidReset(pid: nat)

  function DispatchStep(s: Setting, w: World, t: Task, inp: Inputs): World
    requires t.id in w.threads
  {
    var o := Dispatch(s.env(t.id), t, inp, w.At(t.id), w.Found(KeyOf(t.id)));
    w.Moved(t.id, o.x).Stored(KeyOf(t.id), o.e)
  }

  // ThreadCache::retain_live_threads: only an entry that is unchanged since the scan began may go.
  predicate Retains(e: Entry, key: Key, processes: map<nat, nat>, live: map<Key, nat>, start: map<Key, (nat, nat)>) {
    || key !in start || start[key] != (e.id.processStart, e.id.threadStart)
    || (&& e.id.pid in processes && processes[e.id.pid] == e.id.processStart
        && (if key in live then live[key] == e.id.threadStart else e.baseline.Some?))
  }

  function Retain(cache: map<Key, Entry>, processes: map<nat, nat>, live: map<Key, nat>,
                  start: map<Key, (nat, nat)>): map<Key, Entry> {
    map key | key in cache && Retains(cache[key], key, processes, live, start) :: cache[key]
  }

  // What the scan saw of a cached thread that still exists is true.
  ghost predicate ScanExact(s: Setting, w: World, processes: map<nat, nat>, live: map<Key, nat>, start: map<Key, (nat, nat)>) {
    forall key :: key in w.cache && !s.env(w.cache[key].id).Dead(w.now) ==>
      var id := w.cache[key].id;
      key in start && start[key] == (id.processStart, id.threadStart) ==>
        && id.pid in processes && processes[id.pid] == id.processStart
        && (key in live ==> live[key] == id.threadStart)
  }

  // clear_scheduling_state_preserving_baselines
  function Cleared(cache: map<Key, Entry>): map<Key, Entry> {
    map key | key in cache && cache[key].baseline.Some? ::
      cache[key].(name := "", cmdline := "", applied := None, managed := UNMANAGED)
  }

  // One entry of restore_all_thread_baselines, and what it does to the cache.
  function UndoStep(s: Setting, w: World, one: Saved): (World, bool)
    requires one.id in w.threads
  {
    var key := KeyOf(one.id);
    var u := Undo(s.env(one.id), w.At(one.id), one.baseline);
    var w1 := w.Moved(one.id, u.x);
    match u.verdict
    case Stale => (if w.EntryOf(one.id).Some? then w1.Stored(key, None) else w1, true)
    case Restored =>
      (if key in w.cache
       then w1.Stored(key, Some(w.cache[key].(baseline := None, applied := None, managed := UNMANAGED)))
       else w1, true)
    case Failed => (w1, false)
  }

  // restore_all_thread_baselines over the entries `saved`.
  function RestoreAll(s: Setting, w: World, saved: seq<Saved>): (World, bool)
    requires forall i :: 0 <= i < |saved| ==> saved[i].id in w.threads
    decreases |saved|
  {
    if saved == [] then (w, true)
    else
      var (w1, ok) := UndoStep(s, w, saved[0]);
      var (w2, rest) := RestoreAll(s, w1, saved[1..]);
      (w2, ok && rest)
  }

  // The saved baseline is the one the cache holds for that identity.
  ghost predicate Current(w: World, one: Saved) {
    one.id in w.threads && w.EntryOf(one.id).Some? && w.EntryOf(one.id).value.baseline == Some(one.baseline)
  }

  ghost predicate AllCurrent(w: World, saved: seq<Saved>) {
    forall i :: 0 <= i < |saved| ==> Current(w, saved[i])
  }

  // get_all_baselines: the stored baselines, each once, in any order.
  ghost predicate Lists(saved: seq<Saved>, w: World) {
    && AllCurrent(w, saved)
    && (forall i, j :: 0 <= i < j < |saved| ==> KeyOf(saved[i].id) != KeyOf(saved[j].id))
    && (forall key :: Holds(w, key) ==>
          exists i :: 0 <= i < |saved| && KeyOf(saved[i].id) == key)
  }

  // A baseline with a cpuset but no affinity cannot be given back safely; a dead thread's no longer matters.
  ghost predicate Returnable(s: Setting, w: World, id: Ident, b: Baseline) { s.env(id).Dead(w.now) || Paired(b) }

  ghost predicate AllReturnable(s: Setting, w: World, saved: seq<Saved>) {
    forall i :: 0 <= i < |saved| ==> Returnable(s, w, saved[i].id, saved[i].baseline)
  }

  // The same of everything that is stored.
  ghost predicate StoredReturnable(s: Setting, w: World) {
    forall key :: Holds(w, key) ==> Returnable(s, w, w.cache[key].id, w.cache[key].baseline.value)
  }

  // The surroundings an event assumes; a restore pass finds returnable baselines.
  ghost predicate Legal(s: Setting, w: World, ev: Event) {
    match ev
    case Waited(until) => w.now <= until
    case Dispatched(t, inp) =>
      && t.id in w.threads && s.env(t.id).born <= w.now
      && (GivesBack(t, inp, w.Found(KeyOf(t.id))) ==> Returnable(s, w, t.id, Own(w.Found(KeyOf(t.id)), t).Held()))
    case Retained(processes, live, start) => ScanExact(s, w, processes, live, start)
    case RestoredAll(saved, replaced) => Lists(saved, w) && AllReturnable(s, w, saved)
    case PidReset(pid) =>
      forall key :: key in w.cache && key.0 == pid ==> s.env(w.cache[key].id).Dead(w.now) || w.cache[key].baseline.None?
  }

  // A reload restores everything and, if that and the replacement succeed, clears the cache.
  ghost function Next(s: Setting, w: World, ev: Event): World
    requires Legal(s, w, ev)
  {
    match ev
    case Waited(until) => w.(now := until)
    case Dispatched(t, inp) => DispatchStep(s, w, t, inp)
    case Retained(processes, live, start) => w.(cache := Retain(w.cache, processes, live, start))
    case RestoredAll(saved, replaced) =>
      var (w1, ok) := RestoreAll(s, w, saved);
      if ok && replaced then w1.(cache := Cleared(w1.cache)) else w1
    case PidReset(pid) => w.(cache := map key | key in w.cache && key.0 != pid :: w.cache[key])
  }

  // ---- One step --------------------------------------------------------------------------------------------

  // Calls on `id` and a new entry of `id` in its slot leave every other thread as it was, unless the
  // slot was an older thread's, which is then dead.
  lemma OtherKept(s: Setting, w: World, id: Ident, x: Ctx, e: Option<Entry>, other: Ident)
    requires Lawful(s, w) && id in w.threads && other in w.threads && other != id && ThreadOk(s, w, other)
    requires w.now <= x.now && (KeyOf(other) == KeyOf(id) ==> s.env(other).born <= w.now || w.EntryOf(other).None?)
    requires e.Some? && e != w.Found(KeyOf(id)) ==> e.value.id == id
    requires w.EntryOf(other).Some? && KeyOf(other) == KeyOf(id) && e != w.Found(KeyOf(id)) ==> s.env(id).Alive(w.now)
    ensures ThreadOk(s, w.Moved(id, x).Stored(KeyOf(id), e), other)
  {
    hide Covered;
    var w' := w.Moved(id, x).Stored(KeyOf(id), e);
    if KeyOf(other) == KeyOf(id) && w.EntryOf(other).Some? && e != w.Found(KeyOf(id)) {
      assert !(s.env(other).Alive(w.now) && s.env(id).Alive(w.now));
    } else {
      assert w'.EntryOf(other) == w.EntryOf(other);
    }
  }

  // Calls on `id` that end in `x` with slot `e` keep the world safe if they keep `id` restorable.
  lemma StoreSafe(s: Setting, w: World, id: Ident, x: Ctx, e: Option<Entry>)
    requires Safe(s, w) && id in w.threads && w.now <= x.now
    requires e.Some? && e != w.Found(KeyOf(id)) ==> e.value.id == id && s.env(id).born <= w.now
    requires w.Found(KeyOf(id)).Some? && w.Found(KeyOf(id)).value.id != id && e != w.Found(KeyOf(id)) ==> s.env(id).Alive(w.now)
    requires ThreadOk(s, w.Moved(id, x).Stored(KeyOf(id), e), id)
    ensures Safe(s, w.Moved(id, x).Stored(KeyOf(id), e))
  {
    hide Covered, Sound;
    var w' := w.Moved(id, x).Stored(KeyOf(id), e);
    assert w'.threads.Keys == w.threads.Keys;
    assert Lawful(s, w') && CacheOk(s, w') by { hide ThreadOk; }
    forall other | other in w'.threads
      ensures ThreadOk(s, w', other)
    {
      if other != id {
        hide Lawful;
        assert ThreadOk(s, w, other);
        OtherKept(s, w, id, x, e, other);
      }
    }
  }

  lemma DispatchSafe(s: Setting, w: World, t: Task, inp: Inputs)
    requires Safe(s, w) && Legal(s, w, Dispatched(t, inp))
    ensures Safe(s, DispatchStep(s, w, t, inp))
  {
    hide Dispatch;
    var env, e, x := s.env(t.id), w.Found(KeyOf(t.id)), w.At(t.id);
    var r := Dispatch(env, t, inp, x, e);
    assert ThreadOk(s, w, t.id);
    if !env.Dead(w.now) {
      DispatchKeeps(env, t, inp, s.home(t.id), x, e);
    }
    assert ThreadOk(s, w.Moved(t.id, r.x).Stored(KeyOf(t.id), r.e), t.id);
    StoreSafe(s, w, t.id, r.x, r.e);
  }

  lemma Around(s: Setting, w: World, id: Ident)
    requires Safe(s, w) && id in w.threads
    ensures CacheOk(s, w) && ThreadOk(s, w, id) && s.env(id).id == id && Sound(s.env(id), s.home(id))
  {
  }

  lemma UndoStepIs(s: Setting, w: World, one: Saved)
    requires CacheOk(s, w) && Current(w, one)
    ensures var u, key := Undo(s.env(one.id), w.At(one.id), one.baseline), KeyOf(one.id);
      UndoStep(s, w, one) == (w.Moved(one.id, u.x).Stored(key, Passed(u.verdict, w.cache[key])), !u.verdict.Failed?)
  {
    hide Undo;
    assert w.cache[KeyOf(one.id) := w.cache[KeyOf(one.id)]] == w.cache;
  }

  lemma UndoStands(env: Env, o: KThread, x: Ctx, e: Entry)
    requires Sound(env, o) && e.baseline.Some? && env.born <= x.now
    requires env.Dead(x.now) || (Covered(o, x.k, e.Held(), e.managed) && Paired(e.baseline.value))
    ensures var u := Undo(env, x, e.baseline.value);
      var slot := Passed(u.verdict, e);
      env.Dead(u.x.now) || (slot.Some? && Covered(o, u.x.k, slot.value.Held(), slot.value.managed))
  {
    hide Undo;
    if !env.Dead(x.now) {
      UndoKeeps(env, o, x, e.baseline.value);
    }
  }

  lemma UndoStepSafe(s: Setting, w: World, one: Saved)
    requires Safe(s, w) && Current(w, one) && Returnable(s, w, one.id, one.baseline)
    ensures Safe(s, UndoStep(s, w, one).0)
  {
    Around(s, w, one.id);
    UndoStepIs(s, w, one);
    hide Safe, Lawful, Undo, UndoStep, Covered, Passed;
    var key, e := KeyOf(one.id), w.cache[KeyOf(one.id)];
    var u := Undo(s.env(one.id), w.At(one.id), one.baseline);
    var slot := Passed(u.verdict, e);
    UndoStands(s.env(one.id), s.home(one.id), w.At(one.id), e);
    assert ThreadOk(s, w.Moved(one.id, u.x).Stored(key, slot), one.id);
    StoreSafe(s, w, one.id, u.x, slot);
  }

  // A step touches its own key only, and either leaves the entry or removes the baseline.
  lemma UndoStepTouches(s: Setting, w: World, one: Saved)
    requires CacheOk(s, w) && Current(w, one)
    ensures var (w', ok) := UndoStep(s, w, one);
      && w'.threads.Keys == w.threads.Keys && w.now <= w'.now
      && (forall key :: key != KeyOf(one.id) ==> w'.Found(key) == w.Found(key))
      && (ok ==> !Holds(w', KeyOf(one.id)))
      && (w'.Found(KeyOf(one.id)) == w.Found(KeyOf(one.id)) || !Holds(w', KeyOf(one.id)))
  {
    hide Undo;
  }

  // A step leaves the cache as consistent as it was, whatever is stored.
  lemma UndoStepCache(s: Setting, w: World, one: Saved)
    requires CacheOk(s, w) && one.id in w.threads
    ensures CacheOk(s, UndoStep(s, w, one).0) && UndoStep(s, w, one).0.threads.Keys == w.threads.Keys
  {
    hide Undo;
  }

  // A baseline is stored under `key`.
  predicate Holds(w: World, key: Key) { key in w.cache && w.cache[key].baseline.Some? }

  // What restore_all_thread_baselines leaves: a safe world in which every key either kept its entry
  // or has no baseline any more, and, if it reports success, none of the given ones has.
  lemma {:induction false} RestoreAllKeeps(s: Setting, w: World, saved: seq<Saved>)
    requires Safe(s, w) && AllCurrent(w, saved) && AllReturnable(s, w, saved)
    requires forall i, j :: 0 <= i < j < |saved| ==> KeyOf(saved[i].id) != KeyOf(saved[j].id)
    ensures var (w', ok) := RestoreAll(s, w, saved);
      && Safe(s, w') && w'.threads.Keys == w.threads.Keys && w.now <= w'.now
      && (forall key :: w'.Found(key) == w.Found(key) || !Holds(w', key))
      && (ok ==> forall i :: 0 <= i < |saved| ==> !Holds(w', KeyOf(saved[i].id)))
    decreases |saved|
  {
    hide Safe, UndoStep;
    if saved != [] {
      var one := saved[0];
      var (w1, ok1) := UndoStep(s, w, one);
      assert Current(w, one);
      Around(s, w, one.id);
      UndoStepSafe(s, w, one);
      UndoStepTouches(s, w, one);
      forall j | 0 <= j < |saved[1..]|
        ensures Current(w1, saved[1..][j]) && Returnable(s, w1, saved[1..][j].id, saved[1..][j].baseline)
      {
        assert Current(w, saved[j + 1]) && Returnable(s, w, saved[j + 1].id, saved[j + 1].baseline);
        assert KeyOf(saved[0].id) != KeyOf(saved[j + 1].id);
        assert w1.Found(KeyOf(saved[j + 1].id)) == w.Found(KeyOf(saved[j + 1].id));
      }
      RestoreAllKeeps(s, w1, saved[1..]);
      var (w2, ok2) := RestoreAll(s, w1, saved[1..]);
      assert RestoreAll(s, w, saved) == (w2, ok1 && ok2);
      forall i | 0 <= i < |saved| && ok1 && ok2
        ensures !Holds(w2, KeyOf(saved[i].id))
      {
        if i > 0 { assert saved[i] == saved[1..][i - 1]; }
      }
    }
  }

  // The same thread and baseline, with as much or nothing managed.
  predicate Demoted(e: Entry, e': Entry) {
    e'.id == e.id && e'.baseline == e.baseline && (e'.managed == e.managed || e'.managed == UNMANAGED)
  }

  // Dropping or clearing entries without touching a thread is safe for every thread whose entry
  // stays as restorable as it was.
  lemma CacheStepSafe(s: Setting, w: World, cache: map<Key, Entry>)
    requires Safe(s, w)
    requires forall key :: key in cache ==> key in w.cache && Demoted(w.cache[key], cache[key])
    requires forall key :: key in w.cache && key !in cache ==>
      s.env(w.cache[key].id).Dead(w.now) || w.cache[key].baseline.None?
    ensures Safe(s, w.(cache := cache))
  {
    hide Covered, Sound;
    var w' := w.(cache := cache);
    forall id | id in w'.threads
      ensures ThreadOk(s, w', id)
    {
      assert ThreadOk(s, w, id);
      DemotedOk(s, w, w', id);
    }
  }

  lemma DemotedOk(s: Setting, w: World, w': World, id: Ident)
    requires id in w.threads && ThreadOk(s, w, id) && w'.threads == w.threads && w'.now == w.now
    requires var key := KeyOf(id);
      if key in w'.cache then key in w.cache && Demoted(w.cache[key], w'.cache[key])
      else key in w.cache ==> s.env(w.cache[key].id).Dead(w.now) || w.cache[key].baseline.None?
    ensures ThreadOk(s, w', id)
  {
  }

  // A baseline never leaves the cache with a full scan while its thread exists.
  lemma RetainDropsNoLiveBaseline(s: Setting, w: World, processes: map<nat, nat>, live: map<Key, nat>,
                                  start: map<Key, (nat, nat)>, key: Key)
    requires ScanExact(s, w, processes, live, start)
    requires key in w.cache && key !in Retain(w.cache, processes, live, start)
    ensures s.env(w.cache[key].id).Dead(w.now) || w.cache[key].baseline.None?
  {
  }

  // With a scan that saw everything, what goes is exactly what was there unchanged since the scan began and
  // is of a process that is gone or recycled, or of a thread that is recycled, or gone without a baseline.
  lemma RetainDropsExactly(cache: map<Key, Entry>, processes: map<nat, nat>, live: map<Key, nat>, start: map<Key, (nat, nat)>, key: Key)
    requires key in cache
    ensures var id := cache[key].id;
      var stable := key in start && start[key].0 == id.processStart && start[key].1 == id.threadStart;
      var processGone := id.pid !in processes || processes[id.pid] != id.processStart;
      key !in Retain(cache, processes, live, start) <==> (stable
        && (processGone || (key in live && live[key] != id.threadStart) || (key !in live && cache[key].baseline == None)))
    ensures key in Retain(cache, processes, live, start) ==> Retain(cache, processes, live, start)[key] == cache[key]
  {
  }

  // ---- One event and whole runs ------------------------------------------------------------------------

  lemma WaitSafe(s: Setting, w: World, until: nat)
    requires Safe(s, w) && w.now <= until
    ensures Safe(s, w.(now := until))
  {
    forall id | id in w.threads
      ensures ThreadOk(s, w.(now := until), id)
    {
      assert ThreadOk(s, w, id);
    }
  }

  lemma NextSafe(s: Setting, w: World, ev: Event)
    requires Safe(s, w) && Legal(s, w, ev)
    ensures Safe(s, Next(s, w, ev)) && w.now <= Next(s, w, ev).now
  {
    hide Safe, DispatchStep, RestoreAll;
    match ev
    case Waited(until) => WaitSafe(s, w, until);
    case Dispatched(t, inp) =>
      DispatchSafe(s, w, t, inp);
      DispatchForward(s, w, t, inp);
    case Retained(processes, live, start) =>
      CacheStepSafe(s, w, Retain(w.cache, processes, live, start));
    case RestoredAll(saved, replaced) =>
      RestoreAllKeeps(s, w, saved);
      var (w1, ok) := RestoreAll(s, w, saved);
      CacheStepSafe(s, w1, Cleared(w1.cache));
    case PidReset(pid) =>
      CacheStepSafe(s, w, Next(s, w, ev).cache);
  }

  lemma DispatchForward(s: Setting, w: World, t: Task, inp: Inputs)
    requires t.id in w.threads
    ensures w.now <= DispatchStep(s, w, t, inp).now
  {
    hide Dispatch;
  }

  ghost predicate LegalRun(s: Setting, w: World, evs: seq<Event>)
    decreases |evs|
  {
    evs != [] ==> Legal(s, w, evs[0]) && LegalRun(s, Next(s, w, evs[0]), evs[1..])
  }

  ghost function Run(s: Setting, w: World, evs: seq<Event>): World
    requires LegalRun(s, w, evs)
    decreases |evs|
  {
    if evs == [] then w else Run(s, Next(s, w, evs[0]), evs[1..])
  }

  // No thread is touched yet and nothing is cached.
  ghost predicate Initial(s: Setting, w: World) {
    Lawful(s, w) && w.cache == map[] && forall id :: id in w.threads ==> w.threads[id] == s.home(id)
  }

  lemma {:induction false} RunSafe(s: Setting, w: World, evs: seq<Event>)
    requires Safe(s, w) && LegalRun(s, w, evs)
    ensures Safe(s, Run(s, w, evs))
    decreases |evs|
  {
    hide Safe, Next, Legal;
    if evs != [] {
      NextSafe(s, w, evs[0]);
      RunSafe(s, Next(s, w, evs[0]), evs[1..]);
    }
  }

  // On every run from the start, a thread that still exists and differs from its original in some
  // dimension, or is managed in it, has its original stored for that dimension.
  lemma {:induction false} EveryDeviationIsStored(s: Setting, w: World, evs: seq<Event>, id: Ident)
    requires Initial(s, w) && LegalRun(s, w, evs) && id in Run(s, w, evs).threads
    ensures var e := Run(s, w, evs);
      s.env(id).Dead(e.now) || Covered(s.home(id), e.threads[id], e.HeldOf(id), e.ManagedOf(id))
  {
    InitialSafe(s, w);
    RunSafe(s, w, evs);
    assert ThreadOk(s, Run(s, w, evs), id);
  }

  lemma InitialSafe(s: Setting, w: World)
    requires Initial(s, w)
    ensures Safe(s, w)
  {
    forall id | id in w.threads
      ensures ThreadOk(s, w, id)
    {
    }
  }

  // Every thread and every stored baseline of the world can be given back.
  ghost predicate Restorable(s: Setting, w: World) { Safe(s, w) && StoredReturnable(s, w) }

  // What any number of restore attempts leaves of a restorable world.
  ghost predicate Settled(s: Setting, w: World, w': World, ok: bool) {
    && Safe(s, w') && w'.threads.Keys == w.threads.Keys && w.now <= w'.now
    && (ok ==> forall key :: !Holds(w', key))
    && (ok ==> forall id :: id in w'.threads && !s.env(id).Dead(w'.now) ==> Home(w'.threads[id], s.home(id)))
    && (forall id :: id in w'.threads && !s.env(id).Dead(w'.now) && !Home(w'.threads[id], s.home(id)) ==>
          w'.EntryOf(id).Some? && w'.EntryOf(id) == w.EntryOf(id) && Holds(w', KeyOf(id)))
    && (forall key :: Holds(w', key) ==> Holds(w, key) && w'.cache[key] == w.cache[key])
  }

  // One call of restore_all_thread_baselines.
  ghost predicate RestorePass(s: Setting, w: World, w': World, ok: bool) {
    exists saved :: Lists(saved, w) && RestoreAll(s, w, saved) == (w', ok)
  }

  // restore_all_thread_baselines. Success leaves no stored baseline and every thread that still
  // exists at its original; after a failure every thread that still exists and is not at its
  // original keeps its baseline. Either way baselines only disappear with the restored or dead.
  lemma {:induction false} RestoreAllRestores(s: Setting, w: World, saved: seq<Saved>)
    requires Safe(s, w) && Lists(saved, w) && AllReturnable(s, w, saved)
    ensures var (w', ok) := RestoreAll(s, w, saved); Settled(s, w, w', ok)
  {
    hide Safe, RestoreAll;
    RestoreAllKeeps(s, w, saved);
    var (w', ok) := RestoreAll(s, w, saved);
    forall key
      ensures ok ==> !Holds(w', key)
      ensures Holds(w', key) ==> Holds(w, key) && w'.cache[key] == w.cache[key]
    {
      assert w'.Found(key) == w.Found(key) || !Holds(w', key);
      if ok && Holds(w, key) {
        var i :| 0 <= i < |saved| && KeyOf(saved[i].id) == key;
        assert !Holds(w', KeyOf(saved[i].id));
      }
    }
    forall id | id in w'.threads && !s.env(id).Dead(w'.now)
      ensures Home(w'.threads[id], s.home(id)) || (Holds(w', KeyOf(id)) && w'.EntryOf(id).Some?)
    {
      Around(s, w', id);
    }
  }

  // Nothing is stored and every thread that still exists is at its original.
  ghost predicate GivenBack(s: Setting, w: World) {
    && (forall key :: !Holds(w, key))
    && (forall id :: id in w.threads && !s.env(id).Dead(w.now) ==> Home(w.threads[id], s.home(id)))
  }

  // Clearing the scheduling state after a reload keeps what the restore pass achieved.
  lemma ClearedStays(s: Setting, w: World)
    requires Safe(s, w)
    ensures Restorable(s, w) ==> Restorable(s, w.(cache := Cleared(w.cache)))
    ensures GivenBack(s, w) ==> GivenBack(s, w.(cache := Cleared(w.cache)))
  {
    CacheStepSafe(s, w, Cleared(w.cache));
    hide Safe, Home;
    var w' := w.(cache := Cleared(w.cache));
    assert forall key :: Holds(w', key) ==> Holds(w, key) && w'.cache[key].baseline == w.cache[key].baseline && w'.cache[key].id == w.cache[key].id;
  }

  // In a safe world, a thread without a stored baseline is at its original.
  lemma NothingStored(s: Setting, w: World, id: Ident)
    requires Safe(s, w) && id in w.threads && w.HeldOf(id) == NO_BASELINE
    ensures s.env(id).Dead(w.now) || Home(w.threads[id], s.home(id))
  {
    Around(s, w, id);
  }

  // What is stored stays returnable, since baselines only disappear.
  lemma SettledReturnable(s: Setting, w: World, w': World, ok: bool)
    requires StoredReturnable(s, w) && Settled(s, w, w', ok)
    ensures StoredReturnable(s, w')
  {
    hide Safe, Home;
  }

  lemma ListsReturnable(s: Setting, w: World, saved: seq<Saved>)
    requires Lists(saved, w) && StoredReturnable(s, w)
    ensures AllReturnable(s, w, saved)
  {
    forall i | 0 <= i < |saved|
      ensures Returnable(s, w, saved[i].id, saved[i].baseline)
    {
      assert Current(w, saved[i]);
      assert Holds(w, KeyOf(saved[i].id));
    }
  }

  // Two attempts with a wait between them leave what one would.
  lemma SettledThrough(s: Setting, w: World, w1: World, w2: World, w': World, ok: bool)
    requires Safe(s, w) && Settled(s, w, w1, false) && w1.now <= w2.now && w2 == w1.(now := w2.now)
    requires Settled(s, w2, w', ok)
    ensures Settled(s, w, w', ok)
  {
    hide Home, Safe;
  }

  lemma SettledSafe(s: Setting, w: World, w': World, ok: bool)
    requires StoredReturnable(s, w) && Settled(s, w, w', ok)
    ensures Restorable(s, w')
  {
    SettledReturnable(s, w, w', ok);
  }

  lemma SettledWait(s: Setting, w: World, w1: World, w2: World)
    requires Settled(s, w, w1, false) && w1.now <= w2.now && w2 == w1.(now := w2.now)
    ensures Settled(s, w, w2, false) && Safe(s, w2)
  {
    hide Safe, Home;
    WaitSafe(s, w1, w2.now);
  }

  // ---- Guarded calls ----------------------------------------------------------------------------------------

  lemma {:induction false} RestoreAllGuarded(s: Setting, w: World, saved: seq<Saved>)
    requires forall i :: 0 <= i < |saved| ==> saved[i].id in w.threads
    ensures w.log.Guarded() ==> RestoreAll(s, w, saved).0.log.Guarded()
    decreases |saved|
  {
    hide Undo;
    if saved != [] {
      var (w1, ok1) := UndoStep(s, w, saved[0]);
      RestoreAllGuarded(s, w1, saved[1..]);
    }
  }

  // On every run, each setter operation directly follows a successful check of its thread's identity.
  lemma {:induction false} RunGuarded(s: Setting, w: World, evs: seq<Event>)
    requires LegalRun(s, w, evs) && w.log.Guarded()
    ensures Run(s, w, evs).log.Guarded()
    decreases |evs|
  {
    if evs != [] {
      NextGuarded(s, w, evs[0]);
      RunGuarded(s, Next(s, w, evs[0]), evs[1..]);
    }
  }

  // Single writes do too exactly on the runs in which no operation repeats a write.
  lemma {:induction false} RunEachWriteGuardedIff(s: Setting, w: World, evs: seq<Event>)
    requires LegalRun(s, w, evs) && w.log.Guarded()
    ensures var log := Run(s, w, evs).log; log.EachWriteGuarded() <==> log.Repeats() == 0
  {
    RunGuarded(s, w, evs);
    EachWriteGuardedIff(Run(s, w, evs).log);
  }

  lemma NextGuarded(s: Setting, w: World, ev: Event)
    requires Legal(s, w, ev) && w.log.Guarded()
    ensures Next(s, w, ev).log.Guarded()
  {
    hide Dispatch, RestoreAll, Retain, Cleared;
    if ev.RestoredAll? { RestoreAllGuarded(s, w, ev.saved); }
  }
}
