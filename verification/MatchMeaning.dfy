// What a match is and what it asks of the setters, said of the configuration itself.
module MatchMeaning {
  import opened Types
  import opened Decimal
  import opened CpuList
  import opened Matcher
  import opened Engine
  import opened Groups
  import opened CgroupInit
  import ConfigParser

  // The rule's pattern compiles, neither search throws, and one hits; an empty command line is not searched.
  predicate Fires(rx: Regexes, r: ProcessRule, q: Query) {
    && rx.usable(r.regex)
    && rx.processSearch(r.regex, q.procName) != Threw
    && (q.cmdline != "" ==> rx.processSearch(r.regex, q.cmdline) != Threw)
    && (rx.processSearch(r.regex, q.procName) == Search.Hit || (q.cmdline != "" && rx.processSearch(r.regex, q.cmdline) == Search.Hit))
  }

  // The keyword names the main thread and this is it, or is a pattern that compiles and hits the name.
  predicate ThreadFires(rx: Regexes, t: ThreadRule, q: Query) {
    if t.keyword == "/MAIN_THREAD/" || t.keyword == "(?i)/MAIN_THREAD/" then q.main
    else rx.usable(t.keyword) && rx.threadSearch(t.keyword, q.threadName) == Search.Hit
  }

  lemma FiresIs(rx: Regexes, r: ProcessRule, t: ThreadRule, q: Query)
    ensures Fires(rx, r, q) <==> ProcessApplies(rx, r, q.procName, q.cmdline)
    ensures ThreadFires(rx, t, q) <==> ThreadApplies(rx, t, q.threadName, q.main)
  {
    var k := t.keyword;
    if "(?i)" <= k {
      assert k == "(?i)" + k[4..] && k[0] == '(';
      assert k[4..] == "/MAIN_THREAD/" ==> k == "(?i)/MAIN_THREAD/";
      assert k == "(?i)/MAIN_THREAD/" ==> k[4..] == "/MAIN_THREAD/";
      assert "/MAIN_THREAD/"[0] == '/';
    } else {
      assert "(?i)" <= "(?i)/MAIN_THREAD/";
    }
  }

  // Rule `i` is the first that fires.
  ghost predicate First(cfg: SchedConfig, rx: Regexes, q: Query, i: nat) {
    && i <= |cfg.rules| && (i < |cfg.rules| ==> Fires(rx, cfg.rules[i], q))
    && (forall j :: 0 <= j < i ==> !Fires(rx, cfg.rules[j], q))
  }

  // Thread rule `k` is the first of `r` that fires.
  ghost predicate FirstIn(r: ProcessRule, rx: Regexes, q: Query, k: nat) {
    && k <= |r.threadRules| && (k < |r.threadRules| ==> ThreadFires(rx, r.threadRules[k], q))
    && (forall j :: 0 <= j < k ==> !ThreadFires(rx, r.threadRules[j], q))
  }

  lemma {:induction false} FirstRuleIs(cfg: SchedConfig, rx: Regexes, q: Query, i: nat)
    requires First(cfg, rx, q, i)
    ensures FirstRule(rx, cfg.rules, q, 0) == i
  {
    hide ProcessApplies, Fires, FirstRule;
    var none := ThreadRule("", "", "", None, None, false);
    forall j | 0 <= j < |cfg.rules|
      ensures Fires(rx, cfg.rules[j], q) <==> ProcessApplies(rx, cfg.rules[j], q.procName, q.cmdline)
    {
      FiresIs(rx, cfg.rules[j], none, q);
    }
  }

  lemma {:induction false} FirstThreadIs(r: ProcessRule, rx: Regexes, q: Query, k: nat)
    requires FirstIn(r, rx, q, k)
    ensures FirstThread(rx, r.threadRules, q, 0) == k
  {
    hide ThreadApplies, ThreadFires, FirstThread;
    forall j | 0 <= j < |r.threadRules|
      ensures ThreadFires(rx, r.threadRules[j], q) <==> ThreadApplies(rx, r.threadRules[j], q.threadName, q.main)
    {
      FiresIs(rx, r, r.threadRules[j], q);
    }
  }

  // A pinned rule's processes count as being at the top, and those of a topfore rule when they are in
  // the foreground.
  predicate CountsAs(r: ProcessRule, seen: ProcessState, effective: ProcessState) {
    if r.pinned then effective == TOP
    else if seen == FG && r.topfore then effective == TOP
    else effective == seen
  }

  // What the three states name in a scene.
  predicate Selects(scene: AffinityScene, state: ProcessState, mask: string) {
    && (state == TOP ==> mask == scene.top) && (state == FG ==> mask == scene.fg) && (state == BG ==> mask == scene.bg)
  }

  predicate Prioritises(scene: PrioScene, state: ProcessState, prio: int) {
    && (state == TOP ==> prio == scene.top) && (state == FG ==> prio == scene.fg) && (state == BG ==> prio == scene.bg)
  }

  // The result of a process rule: its own marks, the effective state, and of the first thread rule that
  // fires its classes, limits and place.
  lemma MatchMeans(cfg: SchedConfig, rx: Regexes, q: Query, i: nat, k: nat)
    requires q.procName != "[dead]" && First(cfg, rx, q, i) && i < |cfg.rules| && FirstIn(cfg.rules[i], rx, q, k)
    ensures var r, rule := Match(cfg, rx, q), cfg.rules[i];
      && r.matched && r.ruleName == rule.name && r.pinned == rule.pinned && r.topfore == rule.topfore
      && CountsAs(rule, q.state, r.effectiveState)
      && (if k < |rule.threadRules| then
            var t := rule.threadRules[k];
            && (r.affinityClass, r.prioClass, r.uclampMax, r.cpuShare, r.enableLimit, r.threadRuleIndex)
               == (t.affinityClass, t.prioClass, t.uclampMax, t.cpuShare, t.enableLimit, k)
            && (if t.affinityClass == "" || t.affinityClass == "auto" || t.affinityClass !in cfg.affinity then r.cpumaskName == ""
                else Selects(cfg.affinity[t.affinityClass], r.effectiveState, r.cpumaskName))
          else
            (r.affinityClass, r.prioClass, r.cpumaskName, r.uclampMax, r.cpuShare, r.enableLimit, r.threadRuleIndex)
            == ("", "", "", None, None, false, -1))
  {
    FirstRuleIs(cfg, rx, q, i);
    FirstThreadIs(cfg.rules[i], rx, q, k);
  }

  // Without a rule that fires, and for a process that is gone, nothing matches and nothing is asked for.
  lemma NothingMatches(cfg: SchedConfig, rx: Regexes, q: Query, tries: nat)
    requires q.procName == "[dead]" || First(cfg, rx, q, |cfg.rules|)
    ensures Match(cfg, rx, q) == MatchResult(false, "", "", "", None, None, false, q.state, "", -1, false, false)
    ensures !DemandOf(cfg, tries, Match(cfg, rx, q)).NeedsManaging()
  {
    if q.procName != "[dead]" { FirstRuleIs(cfg, rx, q, |cfg.rules|); }
  }

  // What a match asks of the setters: the mask's group and CPUs, the class' priority in the effective
  // state, and the group of the thread rule with the limit.
  lemma {:induction false} DemandMeans(cfg: SchedConfig, rx: Regexes, q: Query, tries: nat, i: nat, k: nat)
    requires q.procName != "[dead]" && First(cfg, rx, q, i) && i < |cfg.rules| && FirstIn(cfg.rules[i], rx, q, k)
    requires k < |cfg.rules[i].threadRules|
    ensures var d, rule := DemandOf(cfg, tries, Match(cfg, rx, q)), cfg.rules[i];
      var t := rule.threadRules[k];
      && d.matched && d.target.tries == tries
      && (d.limit <==> t.enableLimit) && d.index == k && d.cpuctlDir == "/dev/cpuctl/ReUperf/" + rule.name + "/A" + Text(k + 1)
    ensures var d, t := DemandOf(cfg, tries, Match(cfg, rx, q)), cfg.rules[i].threadRules[k];
      if t.affinityClass == "" || t.affinityClass == "auto" || t.affinityClass !in cfg.affinity then !d.affinity
      else exists state, mask :: CountsAs(cfg.rules[i], q.state, state) && Selects(cfg.affinity[t.affinityClass], state, mask)
                                 && Places(cfg, d, mask)
    ensures var d, t := DemandOf(cfg, tries, Match(cfg, rx, q)), cfg.rules[i].threadRules[k];
      if t.prioClass == "" || t.prioClass == "auto" || t.prioClass !in cfg.prio then d.prio == 0
      else exists state :: CountsAs(cfg.rules[i], q.state, state) && Prioritises(cfg.prio[t.prioClass], state, d.prio)
  {
    hide Match, CpusetGroup, CpuctlGroup;
    MatchMeans(cfg, rx, q, i, k);
    DirectoriesAre(cfg.rules[i].name, k, Match(cfg, rx, q).cpumaskName);
    var r, t := Match(cfg, rx, q), cfg.rules[i].threadRules[k];
    if t.affinityClass != "" && t.affinityClass != "auto" && t.affinityClass in cfg.affinity {
      assert Places(cfg, DemandOf(cfg, tries, r), r.cpumaskName);
    }
  }

  lemma {:induction false} DirectoriesAre(rule: string, k: nat, mask: string)
    ensures CpuctlGroup(rule, k) == "/dev/cpuctl/ReUperf/" + rule + "/A" + Text(k + 1)
    ensures CpusetGroup(mask) == "/dev/cpuset/top-app/ReUperf_" + mask
    ensures RuleGroup(rule) == "/dev/cpuctl/ReUperf/" + rule
  {
    assert "/dev/cpuctl" + "/ReUperf/" == "/dev/cpuctl/ReUperf/";
    assert "/dev/cpuset/top-app" + "/ReUperf_" == "/dev/cpuset/top-app/ReUperf_";
  }

  // The demand is for the group and the CPUs of a mask, or for no placement if there is no mask.
  ghost predicate Places(cfg: SchedConfig, d: Demand, mask: string) {
    && (d.affinity <==> mask != "")
    && d.target.dir == "/dev/cpuset/top-app/ReUperf_" + mask
    && (forall c :: c in d.target.cpus <==> mask != "" && mask in cfg.cpumask && c in cfg.cpumask[mask])
  }

  // After a successful initialisation, the groups a match's own demand names hold what it asks for.
  lemma DemandedGroupsHold(cfg: SchedConfig, rx: Regexes, q: Query, tries: nat, dirs: set<string>, files: map<File, string>)
    requires ConfigParser.Lawful(cfg) && Prepared(cfg, dirs, files)
    ensures var r := Match(cfg, rx, q);
      var d := DemandOf(cfg, tries, r);
      && (d.limit ==>
            && d.index >= 0 && d.cpuctlDir in dirs
            && LimitSet(files, d.cpuctlDir, RuleGroup(r.ruleName), UCLAMP, r.uclampMax)
            && LimitSet(files, d.cpuctlDir, RuleGroup(r.ruleName), SHARES, r.cpuShare))
      && (d.affinity ==>
            && d.target.dir in dirs && (d.target.dir, "cpus") in files && d.target.cpus != {}
            && var cpus := ParseText(files[(d.target.dir, "cpus")]);
               cpus.Some? && forall c :: c in cpus.value <==> c in d.target.cpus)
  {
    hide ConfigParser.Lawful, Prepared, Match, LimitSet, CpuText, ParseText, CpusetGroup, CpuctlGroup, RuleGroup, Ids;
    if Match(cfg, rx, q).enableLimit { LimitGroupHoldsLimits(cfg, rx, q, dirs, files); }
    if HasResolvedAffinity(Match(cfg, rx, q)) {
      AffinityGroupHoldsCpus(cfg, rx, q, dirs, files);
      var r := Match(cfg, rx, q);
      assert CpusFor(cfg, r.affinityClass, r.effectiveState)[0] in DemandOf(cfg, tries, r).target.cpus;
    }
  }
}
