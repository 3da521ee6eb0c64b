// Configuration, matcher and take-over together: what a dispatch does to a thread nobody touched yet.
module Deployment {
  import opened Types
  import opened Kernel
  import opened Engine
  import opened Restorability
  import opened Convergence
  import opened Groups
  import opened Matcher
  import ConfigParser

  // The group of the demanded mask, if any, lets a thread use some CPU of the mask. Masks may name
  // CPUs that are offline or that the parent group lacks, so more cannot be expected of them.
  predicate Overlaps(env: Env, d: Demand) {
    d.affinity ==> d.target.cpus * env.allowed(KernelPath(CPUSET_ROOT, d.target.dir)) != {}
  }

  // Whatever a parsed configuration matches is feasible.
  lemma MatchIsFeasible(cfg: SchedConfig, rx: Regexes, q: Query, tries: nat, env: Env)
    requires ConfigParser.Lawful(cfg) && tries > 0 && Overlaps(env, DemandOf(cfg, tries, Match(cfg, rx, q)))
    ensures var d := DemandOf(cfg, tries, Match(cfg, rx, q)); Feasible(env, d) && Blank(d)
  {
    var r := Match(cfg, rx, q);
    hide ConfigParser.Lawful, NeedsCpuset, CpusetGroup, CpuctlGroup;
    if HasResolvedAffinity(r) {
      AffinityTargetExists(cfg, rx, q);
      MaskHasCpus(cfg, r.cpumaskName);
      MaskNamed(cfg, rx, q);
      assert cfg.cpumask[r.cpumaskName][0] in DemandOf(cfg, tries, r).target.cpus;
    }
    PrioIsValid(cfg, r);
    IndexIsSet(cfg, rx, q);
    Unasked(cfg, rx, q);
  }

  lemma MaskNamed(cfg: SchedConfig, rx: Regexes, q: Query)
    requires HasResolvedAffinity(Match(cfg, rx, q))
    ensures var r := Match(cfg, rx, q); r.cpumaskName == MaskNameFor(cfg, r.affinityClass, r.effectiveState)
  {
    hide FirstRule, FirstThread;
  }

  lemma MaskHasCpus(cfg: SchedConfig, name: string)
    requires ConfigParser.Lawful(cfg) && name in cfg.cpumask
    ensures cfg.cpumask[name] != []
  {
  }

  lemma PrioIsValid(cfg: SchedConfig, r: MatchResult)
    requires ConfigParser.Lawful(cfg)
    ensures var p := PrioFor(cfg, r.prioClass, r.effectiveState); p == 0 || ValidPrio(p)
  {
    hide ConfigParser.MasksOk, ConfigParser.RulesOk, ConfigParser.ScenesOk;
  }

  lemma IndexIsSet(cfg: SchedConfig, rx: Regexes, q: Query)
    ensures Match(cfg, rx, q).enableLimit ==> Match(cfg, rx, q).threadRuleIndex >= 0
  {
    hide FirstRule, FirstThread;
  }

  lemma Unasked(cfg: SchedConfig, rx: Regexes, q: Query)
    ensures var r := Match(cfg, rx, q);
      !r.matched ==> !HasResolvedAffinity(r) && PrioFor(cfg, r.prioClass, r.effectiveState) == 0 && !r.enableLimit
  {
    hide FirstRule, FirstThread;
  }

  // The first dispatch of a thread nobody touched, with every call succeeding: the dimensions of the
  // rule that matches it pass their checks and the others stay at the original exactly if the group
  // allows the whole mask, and then dispatching it again changes nothing.
  lemma FirstDispatchSettles(cfg: SchedConfig, rx: Regexes, q: Query, tries: nat, env: Env, t: Task, due: bool, again: bool, x: Ctx)
    requires ConfigParser.Lawful(cfg) && tries > 0 && Overlaps(env, DemandOf(cfg, tries, Match(cfg, rx, q)))
    requires Calm(env, x.now) && env.id == t.id && Sound(env, x.k) && Visible(x.k)
    ensures var r := Match(cfg, rx, q);
      var d, inp := DemandOf(cfg, tries, r), Inputs(cfg, tries, r, false, due);
      var first := Dispatch(env, t, inp, x, None);
      var second := Dispatch(env, t, inp.(due := again), first.x, first.e);
      && (Met(d, first.x.k, x.k) <==> MaskAllowed(env, d))
      && (Silent(first.x, second.x) <==> !d.NeedsManaging() || MaskAllowed(env, d))
  {
    MatchIsFeasible(cfg, rx, q, tries, env);
    hide Match, Dispatch, Met, Feasible, MaskAllowed, ConfigParser.Lawful, DemandOf;
    var inp := Inputs(cfg, tries, Match(cfg, rx, q), false, due);
    DispatchConverges(env, t, inp, x.k, x, None);
    RepeatedDispatchIsSilentIff(env, t, inp, x.k, x, None, again);
  }
}
