// The cgroup directories a configuration asks for, and where a match can send a thread.
module Groups {
  import opened Types
  import opened Decimal
  import opened Utf8Name
  import opened ConfigParser
  import opened Matcher

  const RULES_ROOT := CPUCTL_ROOT + "/ReUperf/"

  function RuleGroup(rule: string): string { RULES_ROOT + rule }

  predicate AsksAffinity(cfg: SchedConfig, t: ThreadRule) {
    !Auto(t.affinityClass) && t.affinityClass in cfg.affinity
    && (cfg.affinity[t.affinityClass].bg != "" || cfg.affinity[t.affinityClass].fg != "" || cfg.affinity[t.affinityClass].top != "")
  }

  predicate SomeThreadRule(cfg: SchedConfig, p: ThreadRule -> bool) {
    exists i, k :: 0 <= i < |cfg.rules| && 0 <= k < |cfg.rules[i].threadRules| && p(cfg.rules[i].threadRules[k])
  }

  predicate NeedsCpuset(cfg: SchedConfig) { SomeThreadRule(cfg, t => AsksAffinity(cfg, t)) }

  predicate NeedsCpuctl(cfg: SchedConfig) { SomeThreadRule(cfg, (t: ThreadRule) => t.enableLimit) }

  method RequiresCpuset(cfg: SchedConfig) returns (r: bool)
    ensures r == NeedsCpuset(cfg)
  {
    for i := 0 to |cfg.rules|
      invariant forall a, k :: 0 <= a < i && 0 <= k < |cfg.rules[a].threadRules| ==> !AsksAffinity(cfg, cfg.rules[a].threadRules[k])
    {
      var threadRules := cfg.rules[i].threadRules;
      for k := 0 to |threadRules|
        invariant forall b :: 0 <= b < k ==> !AsksAffinity(cfg, threadRules[b])
      {
        if Auto(threadRules[k].affinityClass) { continue; }
        if threadRules[k].affinityClass in cfg.affinity {
          var scene := cfg.affinity[threadRules[k].affinityClass];
          if scene.bg != "" || scene.fg != "" || scene.top != "" { return true; }
        }
      }
    }
    return false;
  }

  method RequiresCpuctl(cfg: SchedConfig) returns (r: bool)
    ensures r == NeedsCpuctl(cfg)
  {
    for i := 0 to |cfg.rules|
      invariant forall a, k :: 0 <= a < i && 0 <= k < |cfg.rules[a].threadRules| ==> !cfg.rules[a].threadRules[k].enableLimit
    {
      var threadRules := cfg.rules[i].threadRules;
      for k := 0 to |threadRules|
        invariant forall b :: 0 <= b < k ==> !threadRules[b].enableLimit
      {
        if threadRules[k].enableLimit { return true; }
      }
    }
    return false;
  }

  // ---- Different rules have different groups ---------------------------------------------------------------

  lemma CpusetGroupInjective(a: string, b: string)
    requires CpusetGroup(a) == CpusetGroup(b)
    ensures a == b
  {
    var prefix := CPUSET_PARENT + "/ReUperf_";
    assert CpusetGroup(a)[|prefix|..] == a && CpusetGroup(b)[|prefix|..] == b;
  }

  // The part of a cpuctl path below the common root.
  lemma Below(path: string)
    ensures (RULES_ROOT + path)[|RULES_ROOT|..] == path
  {
  }

  // Two texts that agree and whose parts before the first '/' are slash-free have the same parts.
  lemma SplitAtSlash(a: string, x: string, b: string, y: string)
    requires '/' !in a && '/' !in b && a + "/" + x == b + "/" + y
    ensures a == b && x == y
  {
    var s := a + "/" + x;
    assert s[|a|] == '/' && s[|b|] == '/';
    assert forall k :: 0 <= k < |a| ==> s[k] == a[k] && s[k] != '/';
    assert forall k :: 0 <= k < |b| ==> s[k] == b[k] && s[k] != '/';
    assert s[..|a|] == a && s[..|b|] == b && s[|a| + 1..] == x && s[|b| + 1..] == y;
  }

  function Leaf(k: nat): string { "A" + Text(k + 1) }

  lemma CpuctlParts(rule: string, k: nat)
    ensures CpuctlGroup(rule, k) == RULES_ROOT + (rule + "/" + Leaf(k))
  {
    hide Text;
  }

  lemma LeafInjective(i: nat, j: nat)
    requires Leaf(i) == Leaf(j)
    ensures i == j
  {
    hide Text;
    assert Leaf(i)[1..] == Text(i + 1) && Leaf(j)[1..] == Text(j + 1);
    TextInjective(i + 1, j + 1);
  }

  lemma CpuctlGroupInjective(a: string, i: nat, b: string, j: nat)
    requires SafeName(a) && SafeName(b) && CpuctlGroup(a, i) == CpuctlGroup(b, j)
    ensures a == b && i == j
  {
    SafeNameIsComponent(a);
    SafeNameIsComponent(b);
    hide *;
    CpuctlParts(a, i);
    CpuctlParts(b, j);
    Below(a + "/" + Leaf(i));
    Below(b + "/" + Leaf(j));
    SplitAtSlash(a, Leaf(i), b, Leaf(j));
    LeafInjective(i, j);
  }

  // The group of a thread rule is no process rule's own directory.
  lemma GroupIsNoRuleGroup(a: string, i: nat, b: string)
    requires SafeName(a) && SafeName(b)
    ensures CpuctlGroup(a, i) != RuleGroup(b)
  {
    SafeNameIsComponent(b);
    hide SafeName, CpuctlGroup, Leaf;
    CpuctlParts(a, i);
    var s := a + "/" + Leaf(i);
    Below(s);
    Below(b);
    assert s[|a|] == '/';
    assert s == b ==> '/' in b;
  }

  lemma ParentIsNoGroup(mask: string)
    ensures CPUSET_PARENT != CpusetGroup(mask)
  {
    assert |CpusetGroup(mask)| > |CPUSET_PARENT|;
  }

  // ---- Where a match can send a thread -----------------------------------------------------------------------

  // Rule `i` and its thread rule `k` are the ones `r` was made from.
  predicate MadeFrom(cfg: SchedConfig, r: MatchResult, i: int, k: int) {
    && 0 <= i < |cfg.rules| && 0 <= k < |cfg.rules[i].threadRules|
    && r.ruleName == cfg.rules[i].name && r.threadRuleIndex == k
    && var t := cfg.rules[i].threadRules[k];
       r.enableLimit == t.enableLimit && r.uclampMax == t.uclampMax && r.cpuShare == t.cpuShare
       && r.affinityClass == t.affinityClass && r.prioClass == t.prioClass
  }

  // A match that asks for an affinity names a mask of the configuration, and the configuration
  // needs the cpuset hierarchy.
  lemma AffinityTargetExists(cfg: SchedConfig, rx: Regexes, q: Query)
    requires ConfigParser.Lawful(cfg) && HasResolvedAffinity(Match(cfg, rx, q))
    ensures Match(cfg, rx, q).cpumaskName in cfg.cpumask && NeedsCpuset(cfg)
  {
    hide MasksOk, PriosOk, RulesOk;
    var i := FirstRule(rx, cfg.rules, q, 0);
    var k := FirstThread(rx, cfg.rules[i].threadRules, q, 0);
    var t := cfg.rules[i].threadRules[k];
    assert cfg.affinity[t.affinityClass].For(EffectiveState(cfg.rules[i], q.state)) != "";
    assert AsksAffinity(cfg, t);
  }

  // A match that asks for a limit was made from one thread rule, the configuration needs the cpuctl
  // hierarchy, and no other thread rule has the group the thread is sent to, whatever rules were
  // skipped because their patterns do not compile.
  lemma LimitTargetIsOwn(cfg: SchedConfig, rx: Regexes, q: Query) returns (i: nat, k: nat)
    requires ConfigParser.Lawful(cfg) && Match(cfg, rx, q).enableLimit
    ensures var r := Match(cfg, rx, q);
      && MadeFrom(cfg, r, i, k) && cfg.rules[i].threadRules[k].enableLimit && NeedsCpuctl(cfg)
      && ProcessApplies(rx, cfg.rules[i], q.procName, q.cmdline)
      && ThreadApplies(rx, cfg.rules[i].threadRules[k], q.threadName, q.main)
    ensures forall a: nat, b: nat :: (a < |cfg.rules| && b < |cfg.rules[a].threadRules|
      && CpuctlGroup(cfg.rules[a].name, b) == CpuctlGroup(cfg.rules[i].name, k)) ==> (a, b) == (i, k)
  {
    hide MasksOk, ScenesOk, PriosOk, SafeName, CpuctlGroup, ProcessApplies, ThreadApplies;
    i := FirstRule(rx, cfg.rules, q, 0);
    k := FirstThread(rx, cfg.rules[i].threadRules, q, 0);
    forall a: nat, b: nat | a < |cfg.rules| && b < |cfg.rules[a].threadRules|
      && CpuctlGroup(cfg.rules[a].name, b) == CpuctlGroup(cfg.rules[i].name, k)
      ensures (a, b) == (i, k)
    {
      CpuctlGroupInjective(cfg.rules[a].name, b, cfg.rules[i].name, k);
    }
  }
}
