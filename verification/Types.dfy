// Values shared by the whole model: the parsed configuration (config/config_types.hpp), the
// result of matching one thread (core/thread_matcher.hpp) and the matcher's pure look-ups.
module Types {
  import opened Decimal

  datatype Option<+T> = None | Some(value: T)

  datatype ProcessState = BG | FG | TOP

  datatype ThreadRule = ThreadRule(
    keyword: string, affinityClass: string, prioClass: string,
    uclampMax: Option<int>, cpuShare: Option<int>, enableLimit: bool)

  datatype ProcessRule = ProcessRule(
    name: string, regex: string, pinned: bool, topfore: bool, threadRules: seq<ThreadRule>)

  datatype AffinityScene = AffinityScene(bg: string, fg: string, top: string)
  {
    function For(state: ProcessState): string {
      match state case BG => bg case FG => fg case TOP => top
    }
  }

  datatype PrioScene = PrioScene(bg: int, fg: int, top: int)
  {
    function For(state: ProcessState): int {
      match state case BG => bg case FG => fg case TOP => top
    }
  }

  datatype SchedConfig = SchedConfig(
    cpumask: map<string, seq<int>>, affinity: map<string, AffinityScene>,
    prio: map<string, PrioScene>, rules: seq<ProcessRule>)

  datatype MatchResult = MatchResult(
    matched: bool, affinityClass: string, prioClass: string, cpumaskName: string,
    uclampMax: Option<int>, cpuShare: Option<int>, enableLimit: bool,
    effectiveState: ProcessState, ruleName: string, threadRuleIndex: int,
    pinned: bool, topfore: bool)

  function Unmatched(state: ProcessState): MatchResult {
    MatchResult(false, "", "", "", None, None, false, state, "", -1, false, false)
  }

  // A class name that asks for nothing.
  predicate Auto(className: string) { className == "" || className == "auto" }

  predicate HasResolvedAffinity(r: MatchResult) {
    !Auto(r.affinityClass) && r.cpumaskName != ""
  }

  function MaskNameFor(cfg: SchedConfig, affinityClass: string, state: ProcessState): string {
    if Auto(affinityClass) || affinityClass !in cfg.affinity then ""
    else cfg.affinity[affinityClass].For(state)
  }

  function CpusFor(cfg: SchedConfig, affinityClass: string, state: ProcessState): seq<int> {
    var name := MaskNameFor(cfg, affinityClass, state);
    if name == "" || name !in cfg.cpumask then [] else cfg.cpumask[name]
  }

  function PrioFor(cfg: SchedConfig, prioClass: string, state: ProcessState): int {
    if Auto(prioClass) || prioClass !in cfg.prio then 0 else cfg.prio[prioClass].For(state)
  }

  const CPUSET_ROOT := "/dev/cpuset"
  const CPUCTL_ROOT := "/dev/cpuctl"
  const CPUSET_PARENT := "/dev/cpuset/top-app"

  function CpusetGroup(mask: string): string { CPUSET_PARENT + "/ReUperf_" + mask }

  // /dev/cpuctl/ReUperf/<rule>/A<thread rule index + 1>
  function CpuctlGroup(rule: string, index: nat): string {
    CPUCTL_ROOT + "/ReUperf/" + rule + "/A" + Text(index + 1)
  }
}
