// core/thread_matcher.hpp: compiling the rules and matching a thread against them. Regular
// expressions stay uninterpreted.
module Matcher {
  import opened Types

  datatype Search = Hit | Miss | Threw

  // What the regex engine does with the configured patterns.
  datatype Regexes = Regexes(
    usable: string -> bool,                   // short enough and compiles
    processSearch: (string, string) -> Search,
    threadSearch: (string, string) -> Search)

  datatype Query = Query(procName: string, threadName: string, state: ProcessState, cmdline: string, main: bool)

  const MAIN_THREAD := "/MAIN_THREAD/"

  // parse_regex_pattern drops a leading (?i).
  function Pattern(keyword: string): string {
    if "(?i)" <= keyword then keyword[4..] else keyword
  }

  predicate MainThreadRule(t: ThreadRule) { Pattern(t.keyword) == MAIN_THREAD }

  // ---- What a match is, on the configured rules -----------------------------------------------------------

  // Both searches are made before either counts, so one that throws loses the rule.
  predicate ProcessHit(rx: Regexes, r: ProcessRule, procName: string, cmdline: string) {
    var c := if cmdline == "" then Miss else rx.processSearch(r.regex, cmdline);
    var p := rx.processSearch(r.regex, procName);
    c != Threw && p != Threw && (c == Hit || p == Hit)
  }

  predicate ProcessApplies(rx: Regexes, r: ProcessRule, procName: string, cmdline: string) {
    rx.usable(r.regex) && ProcessHit(rx, r, procName, cmdline)
  }

  predicate ThreadUsable(rx: Regexes, t: ThreadRule) { MainThreadRule(t) || rx.usable(t.keyword) }

  predicate ThreadHit(rx: Regexes, t: ThreadRule, threadName: string, main: bool) {
    if MainThreadRule(t) then main else rx.threadSearch(t.keyword, threadName) == Hit
  }

  predicate ThreadApplies(rx: Regexes, t: ThreadRule, threadName: string, main: bool) {
    ThreadUsable(rx, t) && ThreadHit(rx, t, threadName, main)
  }

  // The first rule that applies to the process, and in it the first that applies to the thread.
  function FirstRule(rx: Regexes, rules: seq<ProcessRule>, q: Query, from: nat): (i: nat)
    requires from <= |rules|
    ensures from <= i <= |rules|
    ensures i < |rules| ==> ProcessApplies(rx, rules[i], q.procName, q.cmdline)
    ensures forall j :: from <= j < i ==> !ProcessApplies(rx, rules[j], q.procName, q.cmdline)
    decreases |rules| - from
  {
    if from == |rules| || ProcessApplies(rx, rules[from], q.procName, q.cmdline) then from
    else FirstRule(rx, rules, q, from + 1)
  }

  function FirstThread(rx: Regexes, rules: seq<ThreadRule>, q: Query, from: nat): (k: nat)
    requires from <= |rules|
    ensures from <= k <= |rules|
    ensures k < |rules| ==> ThreadApplies(rx, rules[k], q.threadName, q.main)
    ensures forall j :: from <= j < k ==> !ThreadApplies(rx, rules[j], q.threadName, q.main)
    decreases |rules| - from
  {
    if from == |rules| || ThreadApplies(rx, rules[from], q.threadName, q.main) then from
    else FirstThread(rx, rules, q, from + 1)
  }

  function EffectiveState(r: ProcessRule, state: ProcessState): ProcessState {
    if r.pinned || (r.topfore && state == FG) then TOP else state
  }

  // The result of a process rule whose thread rule `k`, if any, applies.
  function Outcome(cfg: SchedConfig, r: ProcessRule, k: nat, state: ProcessState): MatchResult {
    var effective := EffectiveState(r, state);
    if k < |r.threadRules| then
      var t := r.threadRules[k];
      MatchResult(true, t.affinityClass, t.prioClass, MaskNameFor(cfg, t.affinityClass, effective),
                  t.uclampMax, t.cpuShare, t.enableLimit, effective, r.name, k, r.pinned, r.topfore)
    else MatchResult(true, "", "", "", None, None, false, effective, r.name, -1, r.pinned, r.topfore)
  }

  const DEAD := "[dead]"

  function Match(cfg: SchedConfig, rx: Regexes, q: Query): MatchResult {
    var i := FirstRule(rx, cfg.rules, q, 0);
    if q.procName == DEAD || i == |cfg.rules| then Unmatched(q.state)
    else Outcome(cfg, cfg.rules[i], FirstThread(rx, cfg.rules[i].threadRules, q, 0), q.state)
  }

  // ---- The compiled rules -------------------------------------------------------------------------------------

  datatype CompiledThreadRule = CompiledThreadRule(rule: ThreadRule, source: nat, main: bool)

  datatype CompiledRule = CompiledRule(rule: ProcessRule, threads: seq<CompiledThreadRule>)

  function Kept(rx: Regexes, rules: seq<ThreadRule>, n: nat): seq<CompiledThreadRule>
    requires n <= |rules|
  {
    if n == 0 then [] else
    Kept(rx, rules, n - 1)
    + (if ThreadUsable(rx, rules[n - 1]) then [CompiledThreadRule(rules[n - 1], n - 1, MainThreadRule(rules[n - 1]))] else [])
  }

  function Compiled(rx: Regexes, rules: seq<ProcessRule>, n: nat): seq<CompiledRule>
    requires n <= |rules|
  {
    if n == 0 then [] else
    var r := rules[n - 1];
    Compiled(rx, rules, n - 1)
    + (if rx.usable(r.regex) then [CompiledRule(r, Kept(rx, r.threadRules, |r.threadRules|))] else [])
  }

  method CompileThreads(rx: Regexes, rules: seq<ThreadRule>) returns (r: seq<CompiledThreadRule>)
    ensures r == Kept(rx, rules, |rules|)
  {
    r := [];
    for i := 0 to |rules|
      invariant r == Kept(rx, rules, i)
    {
      if Pattern(rules[i].keyword) == MAIN_THREAD {
        r := r + [CompiledThreadRule(rules[i], i, true)];
      } else {
        if !rx.usable(rules[i].keyword) { continue; }
        r := r + [CompiledThreadRule(rules[i], i, false)];
      }
    }
  }

  // The ThreadMatcher constructor: rules that do not compile are skipped, and what follows them
  // keeps its place in the configuration.
  method Compile(rx: Regexes, rules: seq<ProcessRule>) returns (r: seq<CompiledRule>)
    ensures r == Compiled(rx, rules, |rules|)
  {
    r := [];
    for i := 0 to |rules|
      invariant r == Compiled(rx, rules, i)
    {
      if !rx.usable(rules[i].regex) { continue; }
      var threads := CompileThreads(rx, rules[i].threadRules);
      r := r + [CompiledRule(rules[i], threads)];
    }
  }

  // The first kept thread rule that hits is the first configured one that applies.
  predicate Searched(rx: Regexes, rules: seq<CompiledThreadRule>, q: Query, i: nat) {
    i <= |rules| && forall j :: 0 <= j < i ==> !ThreadHit(rx, rules[j].rule, q.threadName, q.main)
  }

  lemma {:induction false} KeptFirst(rx: Regexes, rules: seq<ThreadRule>, q: Query, n: nat, i: nat)
    requires n <= |rules| && Searched(rx, Kept(rx, rules, n), q, i)
    requires i < |Kept(rx, rules, n)| ==> ThreadHit(rx, Kept(rx, rules, n)[i].rule, q.threadName, q.main)
    ensures var kept, k := Kept(rx, rules, n), FirstThread(rx, rules, q, 0);
      if i < |kept| then k == kept[i].source && k < n && kept[i].rule == rules[k] else k >= n
  {
    hide FirstThread, MainThreadRule, ThreadHit, ThreadUsable;
    if n > 0 {
      var before, kept, last := Kept(rx, rules, n - 1), Kept(rx, rules, n), rules[n - 1];
      assert before <= kept;
      var at := if i <= |before| then i else |before|;
      assert Searched(rx, before, q, at);
      KeptFirst(rx, rules, q, n - 1, at);
      if i >= |before| {
        assert ThreadUsable(rx, last) ==> kept[|before|].rule == last;
        assert ThreadApplies(rx, last, q.threadName, q.main) <==> i < |kept|;
      }
    }
  }

  predicate RulesSearched(rx: Regexes, rules: seq<CompiledRule>, q: Query, i: nat) {
    i <= |rules| && forall j :: 0 <= j < i ==> !ProcessHit(rx, rules[j].rule, q.procName, q.cmdline)
  }

  lemma {:induction false} CompiledFirst(rx: Regexes, rules: seq<ProcessRule>, q: Query, n: nat, i: nat)
    requires n <= |rules| && RulesSearched(rx, Compiled(rx, rules, n), q, i)
    requires i < |Compiled(rx, rules, n)| ==> ProcessHit(rx, Compiled(rx, rules, n)[i].rule, q.procName, q.cmdline)
    ensures var compiled, k := Compiled(rx, rules, n), FirstRule(rx, rules, q, 0);
      if i < |compiled| then
        k < n && compiled[i].rule == rules[k] && compiled[i].threads == Kept(rx, rules[k].threadRules, |rules[k].threadRules|)
      else k >= n
  {
    hide Kept, FirstRule, ProcessHit;
    if n > 0 {
      var before, compiled, last := Compiled(rx, rules, n - 1), Compiled(rx, rules, n), rules[n - 1];
      assert before <= compiled;
      var at := if i <= |before| then i else |before|;
      assert RulesSearched(rx, before, q, at);
      CompiledFirst(rx, rules, q, n - 1, at);
      if i >= |before| {
        assert rx.usable(last.regex) ==> compiled[|before|].rule == last;
        assert ProcessApplies(rx, last, q.procName, q.cmdline) <==> i < |compiled|;
      }
    }
  }

  // The two loops of match_impl over the compiled rules.
  method MatchCompiled(cfg: SchedConfig, rx: Regexes, compiled: seq<CompiledRule>, q: Query) returns (r: MatchResult)
    requires compiled == Compiled(rx, cfg.rules, |cfg.rules|) && q.procName != DEAD
    ensures r == Match(cfg, rx, q)
  {
    hide Compiled, Kept, FirstRule, FirstThread, ProcessHit;
    var i := 0;
    while i < |compiled| && !ProcessHit(rx, compiled[i].rule, q.procName, q.cmdline)
      invariant i <= |compiled| && RulesSearched(rx, compiled, q, i)
    {
      i := i + 1;
    }
    CompiledFirst(rx, cfg.rules, q, |cfg.rules|, i);
    if i == |compiled| { return Unmatched(q.state); }
    var rule, threads := compiled[i].rule, compiled[i].threads;
    var effective := q.state;
    if rule.pinned {
      effective := TOP;
    } else if rule.topfore && q.state == FG {
      effective := TOP;
    }
    r := Unmatched(q.state).(matched := true, ruleName := rule.name, effectiveState := effective, pinned := rule.pinned,
                             topfore := rule.topfore);
    var k := FindThread(rx, rule.threadRules, threads, q);
    if k < |threads| {
      var t := threads[k].rule;
      r := r.(affinityClass := t.affinityClass, prioClass := t.prioClass, uclampMax := t.uclampMax, cpuShare := t.cpuShare,
              enableLimit := t.enableLimit, threadRuleIndex := threads[k].source);
    }
    r := r.(cpumaskName := MaskNameFor(cfg, r.affinityClass, effective));
  }

  method FindThread(rx: Regexes, ghost rules: seq<ThreadRule>, threads: seq<CompiledThreadRule>, q: Query) returns (k: nat)
    requires threads == Kept(rx, rules, |rules|)
    ensures k <= |threads|
    ensures var first := FirstThread(rx, rules, q, 0);
      if k < |threads| then first < |rules| && threads[k].source == first && threads[k].rule == rules[first]
      else first == |rules|
  {
    KeptMain(rx, rules, |rules|);
    k := 0;
    while k < |threads|
      invariant k <= |threads| && Searched(rx, threads, q, k)
    {
      if threads[k].main {
        if q.main { break; }
      } else if rx.threadSearch(threads[k].rule.keyword, q.threadName) == Hit {
        break;
      }
      k := k + 1;
    }
    KeptFirst(rx, rules, q, |rules|, k);
  }

  lemma {:induction false} KeptMain(rx: Regexes, rules: seq<ThreadRule>, n: nat)
    requires n <= |rules|
    ensures forall j :: 0 <= j < |Kept(rx, rules, n)| ==> Kept(rx, rules, n)[j].main == MainThreadRule(Kept(rx, rules, n)[j].rule)
  {
    if n > 0 { KeptMain(rx, rules, n - 1); }
  }
}
