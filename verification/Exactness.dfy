// "A dimension that is not managed is at its original" over whole runs: it holds after every run in
// which no full restore pass gives up on an entry that captured more than it manages. Limits.dfy
// shows that this condition cannot be dropped.
module Exactness {
  import opened Types
  import opened Kernel
  import opened Engine
  import opened Restorability
  import opened Daemon

  // The event is no full restore pass that gives up on an entry that captured more than it manages.
  ghost predicate Careful(s: Setting, w: World, ev: Event)
    requires Legal(s, w, ev)
  {
    match ev
    case Dispatched(t, inp) =>
      var e := w.Found(KeyOf(t.id));
      var r := Dispatch(s.env(t.id), t, inp, w.At(t.id), e);
      || !GivesBack(t, inp, e) || OnlyManaged(Own(e, t).Held(), Own(e, t).managed)
      || (r.e.Some? && r.e.value.baseline.None?)
    case RestoredAll(saved, replaced) =>
      RestoreAll(s, w, saved).1 || forall i :: 0 <= i < |saved| ==> OnlyManaged(saved[i].baseline, w.ManagedOf(saved[i].id))
    case _ => true
  }

  lemma OtherExact(s: Setting, w: World, id: Ident, x: Ctx, e: Option<Entry>, other: Ident)
    requires id in w.threads && other in w.threads && other != id && ThreadExact(s, w, other) && w.now <= x.now
    requires e.Some? && e != w.Found(KeyOf(id)) ==> e.value.id == id
    requires w.EntryOf(other).Some? && KeyOf(other) == KeyOf(id) && e != w.Found(KeyOf(id)) ==> s.env(other).Dead(w.now)
    ensures ThreadExact(s, w.Moved(id, x).Stored(KeyOf(id), e), other)
  {
  }

  // Two identities with one (pid, tid): when one is alive, an older one is dead.
  lemma OlderDead(s: Setting, w: World, id: Ident, other: Ident)
    requires Lawful(s, w) && CacheOk(s, w) && id in w.threads && other in w.threads && other != id
    requires KeyOf(other) == KeyOf(id) && w.EntryOf(other).Some? && s.env(id).Alive(w.now)
    ensures s.env(other).Dead(w.now)
  {
    assert !(s.env(other).Alive(w.now) && s.env(id).Alive(w.now));
  }

  lemma DispatchExact(s: Setting, w: World, t: Task, inp: Inputs)
    requires Safe(s, w) && AllExact(s, w) && Legal(s, w, Dispatched(t, inp)) && Careful(s, w, Dispatched(t, inp))
    ensures AllExact(s, DispatchStep(s, w, t, inp))
  {
    hide Dispatch, Covered, Exact;
    var env, e, x := s.env(t.id), w.Found(KeyOf(t.id)), w.At(t.id);
    var r := Dispatch(env, t, inp, x, e);
    Around(s, w, t.id);
    assert ThreadExact(s, w, t.id);
    if !env.Dead(w.now) {
      DispatchKeepsExact(env, t, inp, s.home(t.id), x, e);
    }
    var w' := DispatchStep(s, w, t, inp);
    forall other | other in w'.threads
      ensures ThreadExact(s, w', other)
    {
      if other != t.id {
        assert ThreadExact(s, w, other);
        if KeyOf(other) == KeyOf(t.id) && w.EntryOf(other).Some? && r.e != e { OlderDead(s, w, t.id, other); }
        OtherExact(s, w, t.id, r.x, r.e, other);
      }
    }
  }

  lemma UndoOwnExact(s: Setting, w: World, one: Saved)
    requires Safe(s, w) && Current(w, one) && ThreadExact(s, w, one.id)
    requires OnlyManaged(one.baseline, w.ManagedOf(one.id)) && Safe(s, UndoStep(s, w, one).0)
    ensures one.id in UndoStep(s, w, one).0.threads && ThreadExact(s, UndoStep(s, w, one).0, one.id)
  {
    hide Undo, Lawful, Covered;
    var u, w' := Undo(s.env(one.id), w.At(one.id), one.baseline), UndoStep(s, w, one).0;
    UndoStepIs(s, w, one);
    if u.verdict.Failed? {
      if !s.env(one.id).Dead(w.now) {
        UndoKeepsExact(s.env(one.id), s.home(one.id), w.At(one.id), one.baseline, w.ManagedOf(one.id));
      }
    } else {
      NothingStored(s, w', one.id);
    }
  }

  lemma UndoStepExact(s: Setting, w: World, one: Saved)
    requires Safe(s, w) && AllExact(s, w) && Current(w, one) && Returnable(s, w, one.id, one.baseline)
    requires OnlyManaged(one.baseline, w.ManagedOf(one.id))
    ensures AllExact(s, UndoStep(s, w, one).0)
  {
    assert ThreadExact(s, w, one.id);
    UndoStepIs(s, w, one);
    UndoStepSafe(s, w, one);
    UndoStepTouches(s, w, one);
    UndoOwnExact(s, w, one);
    hide Undo, UndoStep, Covered, Exact, Safe, Passed;
    var u, e := Undo(s.env(one.id), w.At(one.id), one.baseline), w.cache[KeyOf(one.id)];
    var w' := UndoStep(s, w, one).0;
    forall id | id in w'.threads
      ensures ThreadExact(s, w', id)
    {
      if id != one.id {
        assert ThreadExact(s, w, id);
        OtherExact(s, w, one.id, u.x, Passed(u.verdict, e), id);
      }
    }
  }

  lemma HomeIsExact(o: KThread, k: KThread, m: Managed)
    requires Home(k, o)
    ensures Exact(o, k, m)
  {
  }

  lemma {:induction false} RestoreAllExact(s: Setting, w: World, saved: seq<Saved>)
    requires Safe(s, w) && AllExact(s, w) && AllCurrent(w, saved) && AllReturnable(s, w, saved)
    requires forall i, j :: 0 <= i < j < |saved| ==> KeyOf(saved[i].id) != KeyOf(saved[j].id)
    requires forall i :: 0 <= i < |saved| ==> OnlyManaged(saved[i].baseline, w.ManagedOf(saved[i].id))
    ensures AllExact(s, RestoreAll(s, w, saved).0)
    decreases |saved|
  {
    hide Safe, AllExact, UndoStep;
    if saved != [] {
      var one := saved[0];
      assert Current(w, one);
      Around(s, w, one.id);
      UndoStepSafe(s, w, one);
      UndoStepExact(s, w, one);
      UndoStepTouches(s, w, one);
      var w1 := UndoStep(s, w, one).0;
      forall j | 0 <= j < |saved[1..]|
        ensures Current(w1, saved[1..][j]) && Returnable(s, w1, saved[1..][j].id, saved[1..][j].baseline)
        ensures w1.ManagedOf(saved[1..][j].id) == w.ManagedOf(saved[1..][j].id)
      {
        assert Current(w, saved[j + 1]) && Returnable(s, w, saved[j + 1].id, saved[j + 1].baseline);
        assert KeyOf(saved[0].id) != KeyOf(saved[j + 1].id);
        assert w1.Found(KeyOf(saved[j + 1].id)) == w.Found(KeyOf(saved[j + 1].id));
      }
      RestoreAllExact(s, w1, saved[1..]);
    }
  }

  lemma NextExact(s: Setting, w: World, ev: Event)
    requires Safe(s, w) && AllExact(s, w) && Legal(s, w, ev) && Careful(s, w, ev)
    ensures AllExact(s, Next(s, w, ev))
  {
    NextSafe(s, w, ev);
    match ev
    case Dispatched(t, inp) => DispatchExact(s, w, t, inp);
    case RestoredAll(saved, replaced) => ReloadExact(s, w, saved, replaced);
    case _ =>
      forall id | id in w.threads
        ensures ThreadExact(s, Next(s, w, ev), id)
      {
        assert ThreadExact(s, w, id);
        Around(s, w, id);
      }
  }

  lemma ReloadExact(s: Setting, w: World, saved: seq<Saved>, replaced: bool)
    requires Safe(s, w) && AllExact(s, w) && Legal(s, w, RestoredAll(saved, replaced)) && Careful(s, w, RestoredAll(saved, replaced))
    requires Safe(s, Next(s, w, RestoredAll(saved, replaced)))
    ensures AllExact(s, Next(s, w, RestoredAll(saved, replaced)))
  {
    RestoreAllRestores(s, w, saved);
    var (w1, ok) := RestoreAll(s, w, saved);
    if !ok {
      RestoreAllExact(s, w, saved);
    } else {
      hide RestoreAll, Covered, Exact;
      forall id | id in w1.threads && !s.env(id).Dead(w1.now)
        ensures forall m :: Exact(s.home(id), w1.threads[id], m)
      {
        forall m ensures Exact(s.home(id), w1.threads[id], m) { HomeIsExact(s.home(id), w1.threads[id], m); }
      }
    }
  }

  ghost predicate CarefulRun(s: Setting, w: World, evs: seq<Event>)
    requires LegalRun(s, w, evs)
    decreases |evs|
  {
    evs != [] ==> Careful(s, w, evs[0]) && CarefulRun(s, Next(s, w, evs[0]), evs[1..])
  }

  lemma {:induction false} RunExact(s: Setting, w: World, evs: seq<Event>)
    requires Safe(s, w) && AllExact(s, w) && LegalRun(s, w, evs) && CarefulRun(s, w, evs)
    ensures AllExact(s, Run(s, w, evs))
    decreases |evs|
  {
    hide Safe, AllExact, Next, Legal, Careful;
    if evs != [] {
      NextSafe(s, w, evs[0]);
      NextExact(s, w, evs[0]);
      RunExact(s, Next(s, w, evs[0]), evs[1..]);
    }
  }

  // On every careful run from the start, a dimension that is not managed is at its original.
  lemma {:induction false} UnmanagedIsOriginal(s: Setting, w: World, evs: seq<Event>, id: Ident)
    requires Initial(s, w) && LegalRun(s, w, evs) && CarefulRun(s, w, evs) && id in Run(s, w, evs).threads
    ensures var e := Run(s, w, evs);
      s.env(id).Dead(e.now) || Exact(s.home(id), e.threads[id], e.ManagedOf(id))
  {
    InitialSafe(s, w);
    RunExact(s, w, evs);
    assert ThreadExact(s, Run(s, w, evs), id);
  }
}
