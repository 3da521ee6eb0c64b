// Convergence after any run: once calls succeed again, what the next dispatch of a thread achieves
// depends only on what earlier failures left unmanaged.
module Recovery {
  import opened Types
  import opened Kernel
  import opened Engine
  import opened Restorability
  import opened Convergence
  import opened Daemon
  import Exactness
  import FailingRuns

  // The dispatch of a thread that lives on in a world where every call succeeds from now on.
  ghost predicate Calmed(s: Setting, w: World, t: Task, inp: Inputs) {
    && Legal(s, w, Dispatched(t, inp)) && Calm(s.env(t.id), w.now)
    && s.home(t.id).sched.policy >= 0 && Visible(w.threads[t.id])
    && Acts(s.env(t.id), t, inp, w.At(t.id), w.Found(KeyOf(t.id)))
    && var d := inp.Demands(Goal(t, inp, w.Found(KeyOf(t.id)))); Feasible(s.env(t.id), d) && Blank(d)
  }

  lemma OwnIs(s: Setting, w: World, t: Task)
    requires CacheOk(s, w)
    ensures var own := Own(w.Found(KeyOf(t.id)), t); own.Held() == w.HeldOf(t.id) && own.managed == w.ManagedOf(t.id)
  {
  }

  lemma ReadyNow(s: Setting, w: World, t: Task, inp: Inputs)
    requires Safe(s, w) && Calmed(s, w, t, inp)
    ensures Ready(s.env(t.id), t, inp, s.home(t.id), w.At(t.id), w.Found(KeyOf(t.id)))
  {
    Around(s, w, t.id);
    OwnIs(s, w, t);
    hide Covered, Acts, DemandOf;
  }

  // After any run, with any failures, the next dispatch that acts in calm meets its rule exactly if
  // the group allows the whole mask and either the rule manages nothing or no dimension outside rule
  // and entry had been left off its original; and the one after it is silent exactly if the rule
  // manages nothing or the group allows the whole mask.
  lemma {:induction false} ConvergesAfterAnyRun(s: Setting, start: World, evs: seq<Event>, t: Task, inp: Inputs, due: bool)
    requires Initial(s, start) && LegalRun(s, start, evs) && Calmed(s, Run(s, start, evs), t, inp)
    ensures var w := Run(s, start, evs);
      var d, env := inp.Demands(Goal(t, inp, w.Found(KeyOf(t.id)))), s.env(t.id);
      var r := Dispatch(env, t, inp, w.At(t.id), w.Found(KeyOf(t.id)));
      && (Met(d, DispatchStep(s, w, t, inp).threads[t.id], s.home(t.id)) <==>
            MaskAllowed(env, d) && (!d.NeedsManaging() || RestHome(d, w.ManagedOf(t.id), w.threads[t.id], s.home(t.id))))
      && (Silent(r.x, Dispatch(env, t, inp.(due := due), r.x, r.e).x) <==> !d.NeedsManaging() || MaskAllowed(env, d))
  {
    InitialSafe(s, start);
    RunSafe(s, start, evs);
    var w := Run(s, start, evs);
    ReadyNow(s, w, t, inp);
    Around(s, w, t.id);
    OwnIs(s, w, t);
    hide Dispatch, Acts, DemandOf, Safe, Calmed, Ready, Met, RestHome, MaskAllowed, LegalRun, Run;
    DispatchConverges(s.env(t.id), t, inp, s.home(t.id), w.At(t.id), w.Found(KeyOf(t.id)));
    RepeatedDispatchIsSilentIff(s.env(t.id), t, inp, s.home(t.id), w.At(t.id), w.Found(KeyOf(t.id)), due);
  }

  // After a careful run nothing is left behind, so the mask alone decides.
  lemma {:induction false} ConvergesAfterCarefulRun(s: Setting, start: World, evs: seq<Event>, t: Task, inp: Inputs)
    requires Initial(s, start) && LegalRun(s, start, evs) && Exactness.CarefulRun(s, start, evs)
    requires Calmed(s, Run(s, start, evs), t, inp)
    ensures var w := Run(s, start, evs);
      var d := inp.Demands(Goal(t, inp, w.Found(KeyOf(t.id))));
      Met(d, DispatchStep(s, w, t, inp).threads[t.id], s.home(t.id)) <==> MaskAllowed(s.env(t.id), d)
  {
    ConvergesAfterAnyRun(s, start, evs, t, inp, false);
    Exactness.UnmanagedIsOriginal(s, start, evs, t.id);
    hide DispatchStep, Acts, DemandOf, Met, MaskAllowed, Legal, LegalRun, Run, Exactness.CarefulRun;
  }

  // ---- The failing runs, as runs of the daemon ------------------------------------------------------------

  function Alone(env: Env, o: KThread): Setting { Setting(_ => env, _ => o) }

  const UNTOUCHED := World(map[FailingRuns.ID := FailingRuns.ORIGINAL], 0, Start, map[])

  // One dispatch of the only thread, in terms of what it makes of thread and entry.
  lemma OnlyThread(env: Env, o: KThread, w: World, t: Task, inp: Inputs)
    requires w.threads.Keys == {t.id} && w.cache.Keys <= {KeyOf(t.id)}
    ensures var s := Alone(env, o);
      var w', r := DispatchStep(s, w, t, inp), Dispatch(env, t, inp, w.At(t.id), w.Found(KeyOf(t.id)));
      && w'.threads.Keys == {t.id} && w'.cache.Keys <= {KeyOf(t.id)}
      && w'.At(t.id) == r.x && w'.Found(KeyOf(t.id)) == r.e
  {
    hide Dispatch;
  }

  lemma {:induction false} TwoEvents(s: Setting, w: World, a: Event, b: Event)
    requires Legal(s, w, a) && Legal(s, Next(s, w, a), b)
    ensures LegalRun(s, w, [a, b]) && Run(s, w, [a, b]) == Next(s, Next(s, w, a), b)
  {
    hide Legal, Next;
    var w1 := Next(s, w, a);
    assert [a, b][1..] == [b] && [b][1..] == [];
    assert LegalRun(s, Next(s, w1, b), []) && LegalRun(s, w1, [b]);
    assert Run(s, w1, [b]) == Run(s, Next(s, w1, b), []);
  }

  function FailedSetting(): Setting { Alone(FailingRuns.UNRESTORED, FailingRuns.ORIGINAL) }

  function Limited(): Event { Dispatched(FailingRuns.TaskIn(FG), FailingRuns.InputsFor(FailingRuns.LIMITED, true)) }

  function Returned(): Event { Dispatched(FailingRuns.TaskIn(BG), FailingRuns.InputsFor(Unmatched(BG), true)) }

  const KEY := KeyOf(FailingRuns.ID)
  const HELD := Some(FailingRuns.Held(Some({0})))

  lemma AfterLimited()
    ensures Legal(FailedSetting(), UNTOUCHED, Limited())
    ensures var w := Next(FailedSetting(), UNTOUCHED, Limited());
      && w.threads.Keys == {FailingRuns.ID} && w.cache.Keys <= {KEY} && w.now == 9
      && w.Found(KEY) == Some(FailingRuns.EntryIn(FG, FailingRuns.LIMITED, Some(FailingRuns.LIMITED), FailingRuns.LIMIT_MANAGED, HELD))
      && w.threads[FailingRuns.ID] == FailingRuns.ORIGINAL.(cpuctl := FailingRuns.LIMIT_PATH)
  {
    hide Dispatch, FailingRuns.InputsFor;
    var inp := FailingRuns.InputsFor(FailingRuns.LIMITED, true);
    OnlyThread(FailingRuns.UNRESTORED, FailingRuns.ORIGINAL, UNTOUCHED, FailingRuns.TaskIn(FG), inp);
    FailingRuns.FirstLimited(FailingRuns.UNRESTORED, Start, true);
    assert Own(UNTOUCHED.Found(KEY), FailingRuns.TaskIn(FG)).Held() == NO_BASELINE;
  }

  lemma AfterReturned(w: World)
    requires w.threads.Keys == {FailingRuns.ID} && w.cache.Keys <= {KEY} && w.now == 9
    requires w.threads[FailingRuns.ID] == FailingRuns.ORIGINAL.(cpuctl := FailingRuns.LIMIT_PATH)
    requires w.Found(KEY) == Some(FailingRuns.EntryIn(FG, FailingRuns.LIMITED, Some(FailingRuns.LIMITED), FailingRuns.LIMIT_MANAGED, HELD))
    ensures Legal(FailedSetting(), w, Returned())
    ensures var w2 := Next(FailedSetting(), w, Returned());
      && w2.threads.Keys == {FailingRuns.ID} && w2.now == 24 && w2.threads[FailingRuns.ID] == FailingRuns.CHANGED
      && w2.ManagedOf(FailingRuns.ID) == FailingRuns.LIMIT_MANAGED
  {
    var t, inp := FailingRuns.TaskIn(BG), FailingRuns.InputsFor(Unmatched(BG), true);
    hide Dispatch, FailingRuns.InputsFor, GivesBack;
    FailingRuns.FailingPass(w.log, true);
    OnlyThread(FailingRuns.UNRESTORED, FailingRuns.ORIGINAL, w, t, inp);
    assert Paired(Own(w.Found(KEY), t).Held());
    hide DispatchStep, FailingRuns.LIMIT_PATH;
  }

  lemma Untouched()
    ensures Initial(FailedSetting(), UNTOUCHED)
  {
  }

  lemma Changed(w: World)
    requires w.threads.Keys == {FailingRuns.ID} && w.now == 24 && w.threads[FailingRuns.ID] == FailingRuns.CHANGED
    requires w.ManagedOf(FailingRuns.ID) == FailingRuns.LIMIT_MANAGED
    ensures !AllExact(FailedSetting(), w)
  {
    assert !ThreadExact(FailedSetting(), w, FailingRuns.ID);
  }

  // From an untouched world, two dispatches, the second a restore pass with one failing call, leave a
  // dimension that is not managed off its original.
  lemma UnmanagedNotOriginal()
    ensures Initial(FailedSetting(), UNTOUCHED) && LegalRun(FailedSetting(), UNTOUCHED, [Limited(), Returned()])
    ensures !AllExact(FailedSetting(), Run(FailedSetting(), UNTOUCHED, [Limited(), Returned()]))
  {
    hide Next, Legal, Initial, AllExact, DispatchStep, Dispatch, FailingRuns.InputsFor, Limited, Returned, FailedSetting;
    Untouched();
    AfterLimited();
    var w := Next(FailedSetting(), UNTOUCHED, Limited());
    AfterReturned(w);
    TwoEvents(FailedSetting(), UNTOUCHED, Limited(), Returned());
    Changed(Next(FailedSetting(), w, Returned()));
  }
}
