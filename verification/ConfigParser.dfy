// The scheduling part of config/config_parser.hpp: masks, affinity and priority classes, rules, and
// the validation of references between them.
module ConfigParser {
  import opened Types
  import opened Sorting
  import opened CpuList
  import opened Utf8Name
  import Kernel

  // The JSON document; a number is an integer of any size or something else.
  datatype Json = Null | Bool(b: bool) | Int(n: int) | Real | Str(s: string) | Arr(items: seq<Json>) | Obj(fields: map<string, Json>)
  {
    function Get(name: string): Json { if Obj? && name in fields then fields[name] else Null }
  }

  // A number read into an int keeps its low 32 bits.
  function AsInt(n: int): int { (n + 0x8000_0000) % 0x1_0000_0000 - 0x8000_0000 }

  function StrOr(j: Json, default: string): string { if j.Str? then j.s else default }

  function BoolOr(j: Json, default: bool): bool { if j.Bool? then j.b else default }

  // ---- Masks -----------------------------------------------------------------------------------------

  function CpusIn(items: seq<Json>): (r: seq<int>)
    ensures Ids(r)
  {
    if items == [] then [] else
    var last := items[|items| - 1];
    CpusIn(items[..|items| - 1]) + (if last.Int? && 0 <= AsInt(last.n) < CPU_SETSIZE then [AsInt(last.n)] else [])
  }

  predicate HasMask(j: Json) { j.Arr? && CpusIn(j.items) != [] }

  ghost function Masks(j: Json): map<string, seq<int>> {
    if !j.Obj? then map[]
    else map name | name in j.fields && SafeName(name) && HasMask(j.fields[name]) :: SortUnique(CpusIn(j.fields[name].items))
  }

  // ---- Classes ---------------------------------------------------------------------------------------

  function SceneOf(j: Json): AffinityScene {
    AffinityScene(StrOr(j.Get("bg"), ""), StrOr(j.Get("fg"), ""),
                  if j.Get("touch").Str? then j.Get("touch").s else StrOr(j.Get("top"), ""))
  }

  function Scenes(j: Json): map<string, AffinityScene> {
    if !j.Obj? then map[] else map name | name in j.fields && j.fields[name].Obj? :: SceneOf(j.fields[name])
  }

  predicate ValidPrioValue(v: int) { v == 0 || Kernel.ValidPrio(v) }

  function PrioValue(j: Json): (r: int)
    ensures ValidPrioValue(r)
  {
    if j.Int? && ValidPrioValue(AsInt(j.n)) then AsInt(j.n) else 0
  }

  function PrioOf(j: Json): PrioScene {
    PrioScene(PrioValue(j.Get("bg")), PrioValue(j.Get("fg")),
              PrioValue(if j.Obj? && "touch" in j.fields then j.Get("touch") else j.Get("top")))
  }

  function Prios(j: Json): map<string, PrioScene> {
    if !j.Obj? then map[] else map name | name in j.fields && j.fields[name].Obj? :: PrioOf(j.fields[name])
  }

  // ---- Rules -----------------------------------------------------------------------------------------

  function Bounded(j: Json, high: int): Option<int> {
    if j.Int? && 0 <= AsInt(j.n) <= high then Some(AsInt(j.n)) else None
  }

  function ThreadRuleOf(j: Json): ThreadRule {
    ThreadRule(StrOr(j.Get("k"), "."), StrOr(j.Get("ac"), "auto"), StrOr(j.Get("pc"), "auto"),
               Bounded(j.Get("uclamp_max"), 100), Bounded(j.Get("cpu_share"), 1024), BoolOr(j.Get("enable_limit"), false))
  }

  function ThreadRulesIn(items: seq<Json>): seq<ThreadRule> {
    if items == [] then [] else
    var last := items[|items| - 1];
    ThreadRulesIn(items[..|items| - 1]) + (if last.Obj? then [ThreadRuleOf(last)] else [])
  }

  function RuleOf(j: Json): ProcessRule {
    ProcessRule(StrOr(j.Get("name"), ""), StrOr(j.Get("regex"), ""), BoolOr(j.Get("pinned"), false), BoolOr(j.Get("topfore"), false),
                if j.Get("rules").Arr? then ThreadRulesIn(j.Get("rules").items) else [])
  }

  // The rules accepted and the names taken so far: a name is taken even by a rule without a regex.
  datatype Rules = Rules(rules: seq<ProcessRule>, names: set<string>)
  {
    ghost function With(j: Json): Rules {
      var rule := RuleOf(j);
      if !j.Obj? || !SafeName(rule.name) || rule.name in names then this
      else Rules(if rule.regex == "" then rules else rules + [rule], names + {rule.name})
    }

    ghost predicate Ok() {
      && (forall i :: 0 <= i < |rules| ==> rules[i].name in names && SafeName(rules[i].name) && rules[i].regex != "")
      && (forall i :: 0 <= i < |rules| ==> BoundedRules(rules[i]))
      && (forall i, j :: 0 <= i < j < |rules| ==> rules[i].name != rules[j].name)
    }
  }

  ghost function RulesIn(items: seq<Json>): Rules {
    if items == [] then Rules([], {}) else RulesIn(items[..|items| - 1]).With(items[|items| - 1])
  }

  // ---- References ------------------------------------------------------------------------------------

  function KnownMask(mask: string, masks: map<string, seq<int>>): string { if mask != "" && mask !in masks then "" else mask }

  function KnownScene(scene: AffinityScene, masks: map<string, seq<int>>): AffinityScene {
    AffinityScene(KnownMask(scene.bg, masks), KnownMask(scene.fg, masks), KnownMask(scene.top, masks))
  }

  function KnownClasses(t: ThreadRule, affinity: map<string, AffinityScene>, prio: map<string, PrioScene>): ThreadRule {
    t.(affinityClass := if !Auto(t.affinityClass) && t.affinityClass !in affinity then "auto" else t.affinityClass,
       prioClass := if !Auto(t.prioClass) && t.prioClass !in prio then "auto" else t.prioClass)
  }

  function KnownRule(r: ProcessRule, affinity: map<string, AffinityScene>, prio: map<string, PrioScene>): ProcessRule {
    r.(threadRules := seq(|r.threadRules|, i requires 0 <= i < |r.threadRules| => KnownClasses(r.threadRules[i], affinity, prio)))
  }

  function Validated(c: SchedConfig): SchedConfig {
    c.(affinity := map name | name in c.affinity :: KnownScene(c.affinity[name], c.cpumask),
       rules := seq(|c.rules|, i requires 0 <= i < |c.rules| => KnownRule(c.rules[i], c.affinity, c.prio)))
  }

  ghost function Parsed(sched: Json): SchedConfig {
    Validated(SchedConfig(Masks(sched.Get("cpumask")), Scenes(sched.Get("affinity")), Prios(sched.Get("prio")),
                          if sched.Get("rules").Arr? then RulesIn(sched.Get("rules").items).rules else []))
  }

  // ---- What a parsed configuration satisfies -----------------------------------------------------------

  predicate KnownOrAuto<T>(className: string, known: map<string, T>) { Auto(className) || className in known }

  ghost predicate ThreadRuleOk(c: SchedConfig, t: ThreadRule) {
    && KnownOrAuto(t.affinityClass, c.affinity) && KnownOrAuto(t.prioClass, c.prio)
    && (t.uclampMax.Some? ==> 0 <= t.uclampMax.value <= 100) && (t.cpuShare.Some? ==> 0 <= t.cpuShare.value <= 1024)
  }

  ghost predicate MasksOk(c: SchedConfig) {
    forall name :: name in c.cpumask ==>
      SafeName(name) && c.cpumask[name] != [] && Ids(c.cpumask[name]) && Strict(c.cpumask[name])
  }

  ghost predicate ScenesOk(c: SchedConfig) {
    forall name, state :: name in c.affinity ==>
      c.affinity[name].For(state) == "" || c.affinity[name].For(state) in c.cpumask
  }

  ghost predicate PriosOk(c: SchedConfig) {
    forall name, state :: name in c.prio ==> ValidPrioValue(c.prio[name].For(state))
  }

  ghost predicate RulesOk(c: SchedConfig) {
    && (forall i :: 0 <= i < |c.rules| ==> SafeName(c.rules[i].name) && c.rules[i].regex != "")
    && (forall i, j :: 0 <= i < j < |c.rules| ==> c.rules[i].name != c.rules[j].name)
    && (forall i, k :: 0 <= i < |c.rules| && 0 <= k < |c.rules[i].threadRules| ==> ThreadRuleOk(c, c.rules[i].threadRules[k]))
  }

  ghost predicate Lawful(c: SchedConfig) { MasksOk(c) && ScenesOk(c) && PriosOk(c) && RulesOk(c) }

  lemma {:induction false} ThreadRulesBounded(items: seq<Json>)
    ensures forall k :: 0 <= k < |ThreadRulesIn(items)| ==>
      var t := ThreadRulesIn(items)[k];
      (t.uclampMax.Some? ==> 0 <= t.uclampMax.value <= 100) && (t.cpuShare.Some? ==> 0 <= t.cpuShare.value <= 1024)
  {
    if items != [] {
      ThreadRulesBounded(items[..|items| - 1]);
    }
  }

  predicate BoundedRules(r: ProcessRule) {
    forall k :: 0 <= k < |r.threadRules| ==>
      var t := r.threadRules[k];
      (t.uclampMax.Some? ==> 0 <= t.uclampMax.value <= 100) && (t.cpuShare.Some? ==> 0 <= t.cpuShare.value <= 1024)
  }

  lemma WithOk(r: Rules, j: Json)
    requires r.Ok()
    ensures r.With(j).Ok()
  {
    hide SafeName, ThreadRulesIn;
    assert BoundedRules(RuleOf(j)) by {
      if j.Get("rules").Arr? { ThreadRulesBounded(j.Get("rules").items); }
    }
    hide RuleOf, BoundedRules;
  }

  lemma {:induction false} RulesInOk(items: seq<Json>)
    ensures RulesIn(items).Ok()
  {
    hide Rules.Ok, Rules.With;
    if items == [] {
      assert RulesIn(items).Ok() by { NoRulesOk(); }
    } else {
      RulesInOk(items[..|items| - 1]);
      WithOk(RulesIn(items[..|items| - 1]), items[|items| - 1]);
    }
  }

  lemma NoRulesOk()
    ensures Rules([], {}).Ok()
  {
  }

  lemma SortUniqueIds(cpus: seq<int>)
    requires Ids(cpus) && cpus != []
    ensures SortUnique(cpus) != [] && Ids(SortUnique(cpus)) && Strict(SortUnique(cpus))
  {
    assert cpus[0] in SortUnique(cpus);
    forall i | 0 <= i < |SortUnique(cpus)|
      ensures 0 <= SortUnique(cpus)[i] < CPU_SETSIZE
    {
      assert SortUnique(cpus)[i] in cpus;
    }
  }

  lemma MasksLawful(sched: Json)
    ensures MasksOk(Parsed(sched))
  {
    hide SafeName, RulesIn, CpusIn, SortUnique, KnownScene, KnownRule;
    var c := Parsed(sched);
    forall name | name in c.cpumask
      ensures SafeName(name) && c.cpumask[name] != [] && Ids(c.cpumask[name]) && Strict(c.cpumask[name])
    {
      SortUniqueIds(CpusIn(sched.Get("cpumask").fields[name].items));
    }
  }

  lemma ScenesLawful(c: SchedConfig)
    ensures ScenesOk(Validated(c))
  {
    hide KnownRule;
  }

  lemma PriosLawful(sched: Json)
    ensures PriosOk(Parsed(sched))
  {
    hide SafeName, RulesIn, KnownScene, KnownRule, PrioOf, Masks;
    var c := Parsed(sched);
    forall name, state | name in c.prio
      ensures ValidPrioValue(c.prio[name].For(state))
    {
      PrioOfValid(sched.Get("prio").fields[name], state);
    }
  }

  lemma RulesLawful(c: SchedConfig, r: Rules)
    requires r.Ok() && c.rules == r.rules
    ensures RulesOk(Validated(c))
  {
    hide SafeName, KnownScene;
  }

  // Whatever the document says, what is parsed from it is lawful.
  lemma ParsedIsLawful(sched: Json)
    ensures Lawful(Parsed(sched))
  {
    hide MasksOk, ScenesOk, PriosOk, RulesOk, Rules.Ok, RulesIn;
    var rules := sched.Get("rules");
    var r := if rules.Arr? then RulesIn(rules.items) else Rules([], {});
    if rules.Arr? { RulesInOk(rules.items); } else { NoRulesOk(); }
    var c := SchedConfig(Masks(sched.Get("cpumask")), Scenes(sched.Get("affinity")), Prios(sched.Get("prio")), r.rules);
    assert Parsed(sched) == Validated(c);
    MasksLawful(sched);
    ScenesLawful(c);
    PriosLawful(sched);
    RulesLawful(c, r);
  }

  lemma PrioOfValid(j: Json, state: ProcessState)
    ensures ValidPrioValue(PrioOf(j).For(state))
  {
  }

  // ---- The parser --------------------------------------------------------------------------------------

  class Config {
    var cpumask: map<string, seq<int>>
    var affinity: map<string, AffinityScene>
    var prio: map<string, PrioScene>
    var rules: seq<ProcessRule>

    constructor ()
      ensures cpumask == map[] && affinity == map[] && prio == map[] && rules == []
    {
      cpumask, affinity, prio, rules := map[], map[], map[], [];
    }

    function Value(): SchedConfig
      reads this
    {
      SchedConfig(cpumask, affinity, prio, rules)
    }

    // The scheduling part of parse_sched.
    method ParseSched(sched: Json)
      requires cpumask == map[] && affinity == map[] && prio == map[] && rules == []
      modifies this
      ensures Value() == Parsed(sched) && Lawful(Value())
    {
      ParseCpumask(sched.Get("cpumask"));
      ParseAffinity(sched.Get("affinity"));
      ParsePrio(sched.Get("prio"));
      ParseRules(sched.Get("rules"));
      ValidateReferences();
      ParsedIsLawful(sched);
    }

    method ParseCpumask(j: Json)
      requires cpumask == map[]
      modifies this`cpumask
      ensures cpumask == Masks(j)
    {
      hide SortUnique, SafeName, CpusIn, Ids;
      if !j.Obj? { return; }
      var names := j.fields.Keys;
      while names != {}
        invariant names <= j.fields.Keys
        invariant cpumask == map name | name in Masks(j) && name !in names :: Masks(j)[name]
        decreases |names|
      {
        var name :| name in names;
        names := names - {name};
        var safe := IsSafeName(name);
        if !safe || !j.fields[name].Arr? { continue; }
        var cpus := ReadCpus(j.fields[name].items);
        if cpus == [] { continue; }
        cpumask := cpumask[name := SortUnique(cpus)];
      }
    }

    method ReadCpus(items: seq<Json>) returns (cpus: seq<int>)
      ensures cpus == CpusIn(items)
    {
      cpus := [];
      for i := 0 to |items|
        invariant cpus == CpusIn(items[..i])
      {
        assert items[..i + 1][..i] == items[..i];
        if !items[i].Int? { continue; }
        var value := AsInt(items[i].n);
        if value < 0 || value >= CPU_SETSIZE { continue; }
        cpus := cpus + [value];
      }
      assert items[..|items|] == items;
    }

    method ParseAffinity(j: Json)
      requires affinity == map[]
      modifies this`affinity
      ensures affinity == Scenes(j)
    {
      if !j.Obj? { return; }
      var names := j.fields.Keys;
      while names != {}
        invariant names <= j.fields.Keys
        invariant affinity == map name | name in Scenes(j) && name !in names :: Scenes(j)[name]
        decreases |names|
      {
        var name :| name in names;
        names := names - {name};
        if !j.fields[name].Obj? { continue; }
        affinity := affinity[name := SceneOf(j.fields[name])];
      }
    }

    method ParsePrio(j: Json)
      requires prio == map[]
      modifies this`prio
      ensures prio == Prios(j)
    {
      if !j.Obj? { return; }
      var names := j.fields.Keys;
      while names != {}
        invariant names <= j.fields.Keys
        invariant prio == map name | name in Prios(j) && name !in names :: Prios(j)[name]
        decreases |names|
      {
        var name :| name in names;
        names := names - {name};
        if !j.fields[name].Obj? { continue; }
        prio := prio[name := PrioOf(j.fields[name])];
      }
    }

    method ParseRules(j: Json)
      requires rules == []
      modifies this`rules
      ensures rules == if j.Arr? then RulesIn(j.items).rules else []
    {
      if !j.Arr? { return; }
      var names: set<string> := {};
      for i := 0 to |j.items|
        invariant Rules(rules, names) == RulesIn(j.items[..i])
      {
        assert j.items[..i + 1][..i] == j.items[..i];
        var item := j.items[i];
        if !item.Obj? { continue; }
        var name := StrOr(item.Get("name"), "");
        var safe := IsSafeName(name);
        if !safe || name in names { continue; }
        names := names + {name};
        if !item.Get("regex").Str? || item.Get("regex").s == "" { continue; }
        var threadRules := [];
        if item.Get("rules").Arr? { threadRules := ParseThreadRules(item.Get("rules").items); }
        rules := rules + [ProcessRule(name, item.Get("regex").s, BoolOr(item.Get("pinned"), false),
                                      BoolOr(item.Get("topfore"), false), threadRules)];
      }
      assert j.items[..|j.items|] == j.items;
    }

    method ParseThreadRules(items: seq<Json>) returns (threadRules: seq<ThreadRule>)
      ensures threadRules == ThreadRulesIn(items)
    {
      threadRules := [];
      for i := 0 to |items|
        invariant threadRules == ThreadRulesIn(items[..i])
      {
        assert items[..i + 1][..i] == items[..i];
        if !items[i].Obj? { continue; }
        threadRules := threadRules + [ThreadRuleOf(items[i])];
      }
      assert items[..|items|] == items;
    }

    // validate_references
    method ValidateReferences()
      modifies this`affinity, this`rules
      ensures Value() == Validated(old(Value()))
    {
      ghost var before := Value();
      ValidateScenes();
      for i := 0 to |rules|
        invariant |rules| == |before.rules| && affinity == Validated(before).affinity
        invariant forall k :: 0 <= k < |rules| ==>
          rules[k] == if k < i then KnownRule(before.rules[k], before.affinity, prio) else before.rules[k]
      {
        rules := rules[i := ValidatedRule(rules[i])];
      }
    }

    // Validating the scenes keeps the class names, which is all the rules refer to.
    function ValidatedRule(r: ProcessRule): ProcessRule
      reads this
    {
      KnownRule(r, affinity, prio)
    }

    method ValidateScenes()
      modifies this`affinity
      ensures affinity == map name | name in old(affinity) :: KnownScene(old(affinity)[name], cpumask)
    {
      var names := affinity.Keys;
      while names != {}
        invariant names <= affinity.Keys == old(affinity).Keys
        invariant forall name :: name in affinity ==>
          affinity[name] == if name in names then old(affinity)[name] else KnownScene(old(affinity)[name], cpumask)
        decreases |names|
      {
        var name :| name in names;
        names := names - {name};
        affinity := affinity[name := KnownScene(affinity[name], cpumask)];
      }
    }
  }
}
