// Every lawful configuration can be written down: the document with its parts under the parser's keys
// parses back to it.
module ConfigRoundTrip {
  import opened Types
  import opened Sorting
  import opened CpuList
  import opened Utf8Name
  import opened ConfigParser

  // ---- The document ---------------------------------------------------------------------------------------

  function IntsDoc(cpus: seq<int>): seq<Json> { seq(|cpus|, i requires 0 <= i < |cpus| => Int(cpus[i])) }

  function SceneDoc(scene: AffinityScene): Json {
    Obj(map["bg" := Str(scene.bg), "fg" := Str(scene.fg), "top" := Str(scene.top)])
  }

  function PrioDoc(scene: PrioScene): Json {
    Obj(map["bg" := Int(scene.bg), "fg" := Int(scene.fg), "top" := Int(scene.top)])
  }

  function LimitDoc(v: Option<int>): Json { if v.Some? then Int(v.value) else Null }

  function ThreadRuleDoc(t: ThreadRule): Json {
    Obj(map["k" := Str(t.keyword), "ac" := Str(t.affinityClass), "pc" := Str(t.prioClass),
            "uclamp_max" := LimitDoc(t.uclampMax), "cpu_share" := LimitDoc(t.cpuShare), "enable_limit" := Bool(t.enableLimit)])
  }

  function RuleDoc(r: ProcessRule): Json {
    Obj(map["name" := Str(r.name), "regex" := Str(r.regex), "pinned" := Bool(r.pinned), "topfore" := Bool(r.topfore),
            "rules" := Arr(seq(|r.threadRules|, i requires 0 <= i < |r.threadRules| => ThreadRuleDoc(r.threadRules[i])))])
  }

  function RulesDoc(rules: seq<ProcessRule>): seq<Json> { seq(|rules|, i requires 0 <= i < |rules| => RuleDoc(rules[i])) }

  function Doc(c: SchedConfig): Json {
    Obj(map[
      "cpumask" := Obj(map name | name in c.cpumask :: Arr(IntsDoc(c.cpumask[name]))),
      "affinity" := Obj(map name | name in c.affinity :: SceneDoc(c.affinity[name])),
      "prio" := Obj(map name | name in c.prio :: PrioDoc(c.prio[name])),
      "rules" := Arr(RulesDoc(c.rules))])
  }

  // ---- Reading it back --------------------------------------------------------------------------------------

  lemma {:induction false} IntsBack(cpus: seq<int>)
    requires Ids(cpus)
    ensures CpusIn(IntsDoc(cpus)) == cpus
  {
    if cpus != [] {
      var n := |cpus| - 1;
      assert IntsDoc(cpus)[..n] == IntsDoc(cpus[..n]);
      IntsBack(cpus[..n]);
      assert cpus == cpus[..n] + [cpus[n]];
    }
  }

  lemma StrictStays(s: seq<int>)
    requires Strict(s)
    ensures SortUnique(s) == s
  {
    SortStays(s);
    UniqueStays(s);
  }

  lemma SceneBack(scene: AffinityScene, prio: PrioScene)
    requires ValidPrioValue(prio.bg) && ValidPrioValue(prio.fg) && ValidPrioValue(prio.top)
    ensures SceneOf(SceneDoc(scene)) == scene && PrioOf(PrioDoc(prio)) == prio
  {
    hide SceneOf, SceneDoc, PrioOf, PrioDoc;
    AffinityBack(scene);
    PrioBack(prio);
  }

  lemma AffinityBack(scene: AffinityScene)
    ensures SceneOf(SceneDoc(scene)) == scene
  {
  }

  lemma PrioBack(prio: PrioScene)
    requires ValidPrioValue(prio.bg) && ValidPrioValue(prio.fg) && ValidPrioValue(prio.top)
    ensures PrioOf(PrioDoc(prio)) == prio
  {
    hide PrioValue, ValidPrioValue;
    ValueBack(prio.bg);
    ValueBack(prio.fg);
    ValueBack(prio.top);
  }

  lemma ValueBack(v: int)
    requires ValidPrioValue(v)
    ensures PrioValue(Int(v)) == v
  {
  }

  lemma ThreadRuleBack(t: ThreadRule)
    requires (t.uclampMax.Some? ==> 0 <= t.uclampMax.value <= 100) && (t.cpuShare.Some? ==> 0 <= t.cpuShare.value <= 1024)
    ensures ThreadRuleOf(ThreadRuleDoc(t)) == t
  {
  }

  lemma {:induction false} ThreadRulesBack(ts: seq<ThreadRule>, docs: seq<Json>)
    requires |docs| == |ts| && forall i :: 0 <= i < |ts| ==> docs[i] == ThreadRuleDoc(ts[i])
    requires forall i :: 0 <= i < |ts| ==>
      (ts[i].uclampMax.Some? ==> 0 <= ts[i].uclampMax.value <= 100) && (ts[i].cpuShare.Some? ==> 0 <= ts[i].cpuShare.value <= 1024)
    ensures ThreadRulesIn(docs) == ts
  {
    hide ThreadRuleOf;
    if ts != [] {
      var n := |ts| - 1;
      ThreadRulesBack(ts[..n], docs[..n]);
      ThreadRuleBack(ts[n]);
      assert ts == ts[..n] + [ts[n]];
    }
  }

  lemma RuleBack(r: ProcessRule)
    requires BoundedRules(r)
    ensures RuleOf(RuleDoc(r)) == r
  {
    hide ThreadRulesIn, ThreadRuleDoc;
    ThreadRulesBack(r.threadRules, RuleDoc(r).Get("rules").items);
  }

  function Names(rules: seq<ProcessRule>): set<string> { set i | 0 <= i < |rules| :: rules[i].name }

  lemma {:induction false} RulesBack(rules: seq<ProcessRule>)
    requires forall i :: 0 <= i < |rules| ==> SafeName(rules[i].name) && rules[i].regex != "" && BoundedRules(rules[i])
    requires forall i, j :: 0 <= i < j < |rules| ==> rules[i].name != rules[j].name
    ensures RulesIn(RulesDoc(rules)) == Rules(rules, Names(rules))
  {
    hide RuleOf, BoundedRules, SafeName;
    if rules != [] {
      var n := |rules| - 1;
      var before, docs := rules[..n], RulesDoc(rules);
      assert docs[..n] == RulesDoc(before);
      RulesBack(before);
      RuleBack(rules[n]);
      assert rules == before + [rules[n]];
      assert Names(rules) == Names(before) + {rules[n].name};
    }
  }

  lemma MasksBack(c: SchedConfig)
    requires MasksOk(c)
    ensures Masks(Doc(c).Get("cpumask")) == c.cpumask
  {
    hide SafeName, CpusIn, SortUnique, IntsDoc, SceneDoc, PrioDoc, RulesDoc;
    var m := Masks(Doc(c).Get("cpumask"));
    forall name | name in c.cpumask
      ensures name in m && m[name] == c.cpumask[name]
    {
      IntsBack(c.cpumask[name]);
      StrictStays(c.cpumask[name]);
    }
  }

  lemma ClassesBack(c: SchedConfig)
    requires PriosOk(c)
    ensures Scenes(Doc(c).Get("affinity")) == c.affinity && Prios(Doc(c).Get("prio")) == c.prio
  {
    hide SceneOf, PrioOf, IntsDoc, RulesDoc;
    forall name | name in c.affinity
      ensures SceneOf(SceneDoc(c.affinity[name])) == c.affinity[name]
    {
      SceneBack(c.affinity[name], PrioScene(0, 0, 0));
    }
    forall name | name in c.prio
      ensures PrioOf(PrioDoc(c.prio[name])) == c.prio[name]
    {
      PriosValid(c, name);
      SceneBack(AffinityScene("", "", ""), c.prio[name]);
    }
  }

  lemma PriosValid(c: SchedConfig, name: string)
    requires PriosOk(c) && name in c.prio
    ensures ValidPrioValue(c.prio[name].bg) && ValidPrioValue(c.prio[name].fg) && ValidPrioValue(c.prio[name].top)
  {
    assert ValidPrioValue(c.prio[name].For(BG)) && ValidPrioValue(c.prio[name].For(FG)) && ValidPrioValue(c.prio[name].For(TOP));
  }

  // Validating the references of a lawful configuration changes nothing.
  lemma LawfulStays(c: SchedConfig)
    requires Lawful(c)
    ensures Validated(c) == c
  {
    hide SafeName, Ids, Strict;
    forall name | name in c.affinity
      ensures KnownScene(c.affinity[name], c.cpumask) == c.affinity[name]
    {
      var a := c.affinity[name];
      assert (a.For(BG) == "" || a.For(BG) in c.cpumask) && (a.For(FG) == "" || a.For(FG) in c.cpumask)
             && (a.For(TOP) == "" || a.For(TOP) in c.cpumask);
    }
    forall i | 0 <= i < |c.rules|
      ensures KnownRule(c.rules[i], c.affinity, c.prio) == c.rules[i]
    {
      forall k | 0 <= k < |c.rules[i].threadRules|
        ensures KnownClasses(c.rules[i].threadRules[k], c.affinity, c.prio) == c.rules[i].threadRules[k]
      {
        assert ThreadRuleOk(c, c.rules[i].threadRules[k]);
      }
    }
  }

  lemma LawfulRules(c: SchedConfig)
    requires RulesOk(c)
    ensures forall i :: 0 <= i < |c.rules| ==> SafeName(c.rules[i].name) && c.rules[i].regex != "" && BoundedRules(c.rules[i])
    ensures forall i, j :: 0 <= i < j < |c.rules| ==> c.rules[i].name != c.rules[j].name
  {
    hide SafeName;
    forall i, k | 0 <= i < |c.rules| && 0 <= k < |c.rules[i].threadRules|
      ensures ThreadRuleOk(c, c.rules[i].threadRules[k])
    {
    }
  }

  lemma DocumentParsesBack(c: SchedConfig)
    requires Lawful(c)
    ensures Parsed(Doc(c)) == c
  {
    hide Masks, Scenes, Prios, RulesIn, RulesDoc, SceneDoc, PrioDoc, IntsDoc, Validated, SafeName, BoundedRules;
    LawfulRules(c);
    hide RulesOk, MasksOk, ScenesOk, PriosOk;
    MasksBack(c);
    ClassesBack(c);
    RulesBack(c.rules);
    LawfulStays(c);
  }

  // ---- What is missing, renamed or malformed --------------------------------------------------------------

  // A "touch" entry takes the place of "top".
  lemma TouchIsTop(top: Json, touch: Json)
    ensures touch.Str? ==> SceneOf(Obj(map["top" := top, "touch" := touch])).top == touch.s
    ensures !touch.Str? && top.Str? ==> SceneOf(Obj(map["top" := top, "touch" := touch])).top == top.s
    ensures PrioOf(Obj(map["top" := top, "touch" := touch])).top == PrioOf(Obj(map["top" := touch])).top
  {
  }

  // A thread rule without a keyword matches any name, one without classes leaves both to themselves, and
  // nothing is limited, pinned or topfore unless it says so.
  lemma Defaults()
    ensures ThreadRuleOf(Obj(map[])) == ThreadRule(".", "auto", "auto", None, None, false)
    ensures RuleOf(Obj(map[])) == ProcessRule("", "", false, false, [])
    ensures SceneOf(Obj(map[])) == AffinityScene("", "", "") && PrioOf(Obj(map[])) == PrioScene(0, 0, 0)
  {
  }

  // Parts of the wrong type and numbers out of range are dropped one by one.
  lemma {:induction false} MalformedPartsAreDropped(items: seq<Json>, j: Json, v: int)
    requires -0x8000_0000 <= v < 0x8000_0000
    ensures CpusIn(items + [Int(v)]) == CpusIn(items) + (if 0 <= v < 1024 then [v] else [])
    ensures !j.Int? ==> CpusIn(items + [j]) == CpusIn(items)
    ensures !j.Obj? ==> ThreadRulesIn(items + [j]) == ThreadRulesIn(items) && RulesIn(items + [j]) == RulesIn(items)
  {
    hide ThreadRuleOf, Rules.Ok, RuleOf, SafeName;
    Last(items, Int(v));
    Last(items, j);
  }

  lemma Last(items: seq<Json>, j: Json)
    ensures (items + [j])[..|items|] == items && (items + [j])[|items|] == j
  {
  }

  // Numbers are read modulo 32 bits, as they are if they fit.
  lemma NumbersWrap(n: int, k: int)
    ensures -0x8000_0000 <= n < 0x8000_0000 ==> AsInt(n + k * 0x1_0000_0000) == n
  {
    var m := n + 0x8000_0000;
    if 0 <= m < 0x1_0000_0000 { ModuloMultiple(m, k); }
  }

  lemma ModuloMultiple(m: int, k: int)
    requires 0 <= m < 0x1_0000_0000
    ensures (m + k * 0x1_0000_0000) % 0x1_0000_0000 == m
  {
    var q := (m + k * 0x1_0000_0000) / 0x1_0000_0000;
    var r := (m + k * 0x1_0000_0000) % 0x1_0000_0000;
    assert m + k * 0x1_0000_0000 == q * 0x1_0000_0000 + r;
    assert m - r == (q - k) * 0x1_0000_0000;
  }

  // A reference to an unknown mask is cleared, one to an unknown class becomes automatic, any other stays.
  lemma ReferencesMean(c: SchedConfig, name: string, i: nat, k: nat)
    requires i < |c.rules| && k < |c.rules[i].threadRules|
    ensures var v, t := Validated(c), c.rules[i].threadRules[k];
      && |v.rules| == |c.rules| && |v.rules[i].threadRules| == |c.rules[i].threadRules|
      && v.rules[i].(threadRules := []) == c.rules[i].(threadRules := [])
      && (var u := v.rules[i].threadRules[k];
          && u.affinityClass == (if t.affinityClass in c.affinity || t.affinityClass == "" then t.affinityClass else "auto")
          && u.prioClass == (if t.prioClass in c.prio || t.prioClass == "" then t.prioClass else "auto")
          && u.(affinityClass := "", prioClass := "") == t.(affinityClass := "", prioClass := ""))
    ensures var v := Validated(c);
      && v.cpumask == c.cpumask && v.prio == c.prio && v.affinity.Keys == c.affinity.Keys
      && (name in c.affinity ==>
            var a, b := c.affinity[name], v.affinity[name];
            && b.bg == (if a.bg in c.cpumask then a.bg else "") && b.fg == (if a.fg in c.cpumask then a.fg else "")
            && b.top == (if a.top in c.cpumask then a.top else ""))
  {
  }

  // A name is taken by the first rule that has it, even if that rule is dropped for having no regex.
  lemma NameIsTaken(first: ProcessRule, second: ProcessRule)
    requires SafeName(first.name) && second.name == first.name && BoundedRules(first) && BoundedRules(second)
    ensures RulesIn([RuleDoc(first), RuleDoc(second)]).rules == if first.regex == "" then [] else [first]
  {
    hide RuleOf, SafeName, BoundedRules;
    RuleBack(first);
    RuleBack(second);
    var docs := [RuleDoc(first), RuleDoc(second)];
    assert docs[..1] == [RuleDoc(first)] && docs[..1][..0] == [];
    assert RulesIn([]) == Rules([], {});
    assert RulesIn(docs[..1]) == RulesIn([]).With(RuleDoc(first));
  }

  lemma NumbersOutOfRange(v: int)
    requires -0x8000_0000 <= v < 0x8000_0000
    ensures ThreadRuleOf(Obj(map["uclamp_max" := Int(v)])).uclampMax == if 0 <= v <= 100 then Some(v) else None
    ensures ThreadRuleOf(Obj(map["cpu_share" := Int(v)])).cpuShare == if 0 <= v <= 1024 then Some(v) else None
    ensures PrioOf(Obj(map["bg" := Int(v)])).bg ==
      if 1 <= v <= 98 || 100 <= v <= 139 || -3 <= v <= -1 then v else 0
  {
  }
}
