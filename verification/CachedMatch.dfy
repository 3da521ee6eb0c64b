// Which match result a dispatch acts on: the matcher's whenever the cached one is not of this very
// thread under this very name, command line and state, and the cached one otherwise.
module CachedMatch {
  import opened Types
  import opened Kernel
  import opened Engine
  import opened Restorability
  import opened Convergence
  import opened Daemon

  // ---- One dispatch -------------------------------------------------------------------------------------

  // What the entry of this identity holds and manages.
  function HeldBy(e: Option<Entry>, id: Ident): Baseline {
    if e.Some? && e.value.id == id && e.value.baseline.Some? then e.value.baseline.value else NO_BASELINE
  }

  function ManagedBy(e: Option<Entry>, id: Ident): Managed {
    if e.Some? && e.value.id == id then e.value.managed else UNMANAGED
  }

  // Applying a result keeps what the entry says of its thread.
  lemma ApplyKeepsTask(env: Env, d: Demand, r: MatchResult, x: Ctx, e: Entry)
    requires env.born <= x.now
    ensures var o := ApplyResult(env, d, r, x, e);
      if o.e.None? then env.Dead(o.x.now)
      else (o.e.value.id, o.e.value.name, o.e.value.cmdline, o.e.value.state, o.e.value.result)
           == (e.id, e.name, e.cmdline, e.state, e.result)
  {
    hide RestoreAffinity, RestoreScheduler, RestoreCpuctl, ReadState, ApplyAffinity, ApplyCpuctl, Free, SetPriority;
  }

  // The slot is empty, another thread's, or differs from the task in name, command line or state:
  // the thread is matched anew, and what is left of the entry carries the new result.
  lemma MatchedAnew(env: Env, t: Task, inp: Inputs, x: Ctx, e: Option<Entry>)
    requires env.Alive(x.now) && !inp.throttled
    requires e.None? || e.value.id != t.id || e.value.name != t.name || e.value.cmdline != t.cmdline || e.value.state != t.state
    ensures var r := Dispatch(env, t, inp, x, e);
      if r.e.None? then env.Dead(r.x.now)
      else (r.e.value.id, r.e.value.name, r.e.value.cmdline, r.e.value.state, r.e.value.result)
           == (t.id, t.name, t.cmdline, t.state, inp.found)
  {
    hide ApplyResult, DemandOf;
    var i := CheckIdentity(env, x);
    ApplyKeepsTask(env, inp.Demands(inp.found), inp.found, i.x, Updated(e, t, inp.found));
  }

  // In calm it meets what the matcher found, under the condition of DispatchConverges.
  lemma MatchedAnewConverges(env: Env, t: Task, inp: Inputs, o: KThread, x: Ctx, e: Option<Entry>)
    requires Calm(env, x.now) && env.id == t.id && Sound(env, o) && o.sched.policy >= 0 && Visible(x.k) && !inp.throttled
    requires Covered(o, x.k, HeldBy(e, t.id), ManagedBy(e, t.id))
    requires var d := inp.Demands(inp.found);
      Feasible(env, d) && Blank(d) && (!d.NeedsManaging() ==> Paired(HeldBy(e, t.id)))
    requires e.None? || e.value.id != t.id || e.value.name != t.name || e.value.cmdline != t.cmdline || e.value.state != t.state
    ensures var d, r := inp.Demands(inp.found), Dispatch(env, t, inp, x, e);
      Met(d, r.x.k, o) <==> MaskAllowed(env, d) && (!d.NeedsManaging() || RestHome(d, ManagedBy(e, t.id), x.k, o))
  {
    hide Dispatch, DemandOf, Met, MaskAllowed, Feasible, Blank, Covered, RestHome;
    DispatchConverges(env, t, inp, o, x, e);
  }

  // The slot is the task's in all four: the matcher is not asked, and nothing depends on what it would
  // say or on the process' name, which the cache does not look at.
  lemma Remembered(env: Env, t: Task, inp: Inputs, x: Ctx, e: Entry, procName: string, found: MatchResult)
    requires env.born <= x.now
    requires (e.id, e.name, e.cmdline, e.state) == (t.id, t.name, t.cmdline, t.state)
    ensures Dispatch(env, t.(procName := procName), inp.(found := found), x, Some(e)) == Dispatch(env, t, inp, x, Some(e))
    ensures var r := Dispatch(env, t, inp, x, Some(e));
      if r.e.None? then env.Dead(r.x.now)
      else (r.e.value.id, r.e.value.name, r.e.value.cmdline, r.e.value.state, r.e.value.result)
           == (e.id, e.name, e.cmdline, e.state, e.result)
  {
    hide ApplyResult, DemandOf, CheckDrift;
    var i, d := CheckIdentity(env, x), inp.Demands(e.result);
    ApplyKeepsTask(env, d, e.result, i.x, e);
    ApplyKeepsTask(env, d, e.result, CheckDrift(env, d, inp.due, i.x).x, e);
  }

  // A remembered result that was not applied completely is applied.
  lemma UnappliedConverges(env: Env, t: Task, inp: Inputs, o: KThread, x: Ctx, e: Entry)
    requires Calm(env, x.now) && env.id == t.id && Sound(env, o) && o.sched.policy >= 0 && Visible(x.k) && !inp.throttled
    requires (e.id, e.name, e.cmdline, e.state) == (t.id, t.name, t.cmdline, t.state) && e.applied != Some(e.result)
    requires Covered(o, x.k, e.Held(), e.managed)
    requires var d := inp.Demands(e.result);
      Feasible(env, d) && Blank(d) && (!d.NeedsManaging() ==> Paired(e.Held()))
    ensures var d, r := inp.Demands(e.result), Dispatch(env, t, inp, x, Some(e));
      Met(d, r.x.k, o) <==> MaskAllowed(env, d) && (!d.NeedsManaging() || RestHome(d, e.managed, x.k, o))
  {
    hide Dispatch, DemandOf, Met, MaskAllowed, Feasible, Blank, Covered, RestHome;
    DispatchConverges(env, t, inp, o, x, Some(e));
  }

  // One that was is applied again once a check that is made finds the thread elsewhere.
  lemma DriftIsRepaired(env: Env, t: Task, inp: Inputs, o: KThread, x: Ctx, e: Entry)
    requires Calm(env, x.now) && env.id == t.id && Sound(env, o) && o.sched.policy >= 0 && Visible(x.k) && !inp.throttled
    requires (e.id, e.name, e.cmdline, e.state) == (t.id, t.name, t.cmdline, t.state) && e.applied == Some(e.result)
    requires Covered(o, x.k, e.Held(), e.managed)
    requires var d := inp.Demands(e.result);
      && Feasible(env, d) && Blank(d) && d.NeedsManaging()
      && (|| (d.affinity && x.k.affinity != d.target.cpus)
          || (d.prio != 0 && SchedDrifted(x.k.sched, d.prio))
          || (inp.due && d.affinity && x.k.cpuset != KernelPath(CPUSET_ROOT, d.target.dir))
          || (inp.due && d.limit && x.k.cpuctl != KernelPath(CPUCTL_ROOT, d.cpuctlDir)))
    ensures var d, r := inp.Demands(e.result), Dispatch(env, t, inp, x, Some(e));
      Met(d, r.x.k, o) <==> MaskAllowed(env, d) && RestHome(d, e.managed, x.k, o)
  {
    hide Dispatch, DemandOf, Met, MaskAllowed, Blank, Covered, RestHome;
    DispatchConverges(env, t, inp, o, x, Some(e));
  }

  // A throttled task does nothing; one whose thread is gone only takes its own entry with it.
  lemma ThrottledOrGone(env: Env, t: Task, inp: Inputs, x: Ctx, e: Option<Entry>)
    requires inp.throttled || !env.Alive(x.now)
    ensures var r := Dispatch(env, t, inp, x, e);
      && Silent(x, r.x)
      && (env.Alive(x.now) ==> r.e == e)
      && (!env.Alive(x.now) ==> r.e == if e.Some? && e.value.id == t.id then None else e)
  {
  }

  // ---- Whole runs -----------------------------------------------------------------------------------------

  // What the matcher says of a thread under a name, a command line and a state.
  type Rule = (Ident, string, string, ProcessState) -> MatchResult

  // The matcher's answer in this event is the rule's.
  predicate AnswersBy(ev: Event, rule: Rule) {
    ev.Dispatched? ==> ev.inp.found == rule(ev.t.id, ev.t.name, ev.t.cmdline, ev.t.state)
  }

  // Every cached result is the rule's answer for the entry's own name, command line and state.
  ghost predicate Remembers(w: World, rule: Rule) {
    forall key :: key in w.cache ==> RemembersOne(w.cache[key], rule)
  }

  predicate RemembersOne(e: Entry, rule: Rule) { e.result == rule(e.id, e.name, e.cmdline, e.state) }

  lemma DispatchRemembers(s: Setting, w: World, t: Task, inp: Inputs, rule: Rule)
    requires CacheOk(s, w) && Legal(s, w, Dispatched(t, inp)) && s.env(t.id).id == t.id
    requires Remembers(w, rule) && AnswersBy(Dispatched(t, inp), rule)
    ensures Remembers(DispatchStep(s, w, t, inp), rule)
  {
    hide Dispatch;
    var env, e, x := s.env(t.id), w.Found(KeyOf(t.id)), w.At(t.id);
    var r := Dispatch(env, t, inp, x, e);
    if inp.throttled || !env.Alive(x.now) {
      ThrottledOrGone(env, t, inp, x, e);
    } else if e.None? || e.value.id != t.id || e.value.name != t.name || e.value.cmdline != t.cmdline || e.value.state != t.state {
      MatchedAnew(env, t, inp, x, e);
    } else {
      Remembered(env, t, inp, x, e.value, t.procName, inp.found);
    }
  }

  // After a completed reload nothing is cached.
  lemma {:induction false} ReloadForgets(s: Setting, w: World, saved: seq<Saved>)
    requires Safe(s, w) && Legal(s, w, RestoredAll(saved, true)) && RestoreAll(s, w, saved).1
    ensures Next(s, w, RestoredAll(saved, true)).cache == map[]
  {
    hide Safe, RestoreAll;
    RestoreAllRestores(s, w, saved);
    var (w1, ok) := RestoreAll(s, w, saved);
    assert forall key :: !Holds(w1, key);
    assert forall key :: key !in Cleared(w1.cache);
  }

  // The rule may change with the event exactly if it is a completed reload.
  ghost predicate RuleChange(s: Setting, w: World, ev: Event, rule: Rule, rule': Rule)
    requires Legal(s, w, ev)
  {
    rule' == rule || (ev.RestoredAll? && ev.replaced && RestoreAll(s, w, ev.saved).1)
  }

  lemma NextRemembers(s: Setting, w: World, ev: Event, rule: Rule, rule': Rule)
    requires Safe(s, w) && Legal(s, w, ev) && Remembers(w, rule) && AnswersBy(ev, rule) && RuleChange(s, w, ev, rule, rule')
    ensures Remembers(Next(s, w, ev), rule')
  {
    hide Safe, DispatchStep, RestoreAll;
    match ev
    case Dispatched(t, inp) =>
      Around(s, w, t.id);
      DispatchRemembers(s, w, t, inp, rule);
    case RestoredAll(saved, replaced) =>
      if replaced && RestoreAll(s, w, saved).1 {
        ReloadForgets(s, w, saved);
      } else {
        UndoneRemembers(s, w, saved, rule);
      }
    case _ =>
  }

  lemma {:induction false} UndoneRemembers(s: Setting, w: World, saved: seq<Saved>, rule: Rule)
    requires Remembers(w, rule) && forall i :: 0 <= i < |saved| ==> saved[i].id in w.threads
    ensures Remembers(RestoreAll(s, w, saved).0, rule)
    decreases |saved|
  {
    hide Undo;
    if saved != [] {
      UndoneRemembers(s, UndoStep(s, w, saved[0]).0, saved[1..], rule);
    }
  }

  // The rules in force before each event and after the last, each answering its own event.
  ghost predicate RuledBy(s: Setting, w: World, evs: seq<Event>, rules: seq<Rule>)
    requires LegalRun(s, w, evs)
    decreases |evs|
  {
    && |rules| == |evs| + 1
    && (evs != [] ==>
          && AnswersBy(evs[0], rules[0]) && RuleChange(s, w, evs[0], rules[0], rules[1])
          && RuledBy(s, Next(s, w, evs[0]), evs[1..], rules[1..]))
  }

  // On every run, across reloads, what is cached for a thread is what the matcher now in force says of
  // the name, command line and state the entry stands for.
  lemma {:induction false} RunRemembers(s: Setting, w: World, evs: seq<Event>, rules: seq<Rule>)
    requires Safe(s, w) && LegalRun(s, w, evs) && RuledBy(s, w, evs, rules) && Remembers(w, rules[0])
    ensures Remembers(Run(s, w, evs), rules[|evs|])
    decreases |evs|
  {
    hide Safe, Next, Legal, Remembers, AnswersBy, RuleChange;
    if evs != [] {
      NextSafe(s, w, evs[0]);
      NextRemembers(s, w, evs[0], rules[0], rules[1]);
      RunRemembers(s, Next(s, w, evs[0]), evs[1..], rules[1..]);
    }
  }

  // What a reload's clearing would leave of an entry is matched anew, unless the thread has neither a
  // name nor a command line.
  lemma ClearedIsMatchedAnew(env: Env, t: Task, inp: Inputs, x: Ctx, cache: map<Key, Entry>)
    requires env.Alive(x.now) && !inp.throttled && (t.name != "" || t.cmdline != "")
    ensures var key, kept := KeyOf(t.id), Cleared(cache);
      var r := Dispatch(env, t, inp, x, if key in kept then Some(kept[key]) else None);
      if r.e.None? then env.Dead(r.x.now) else r.e.value.result == inp.found
  {
    hide Dispatch;
    var key, kept := KeyOf(t.id), Cleared(cache);
    MatchedAnew(env, t, inp, x, if key in kept then Some(kept[key]) else None);
  }
}
