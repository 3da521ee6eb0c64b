// utils/file_utils.hpp: the state a process' controller paths tell, and why ReUperf's own paths
// should tell none.
module CgroupState {
  import opened Types
  import opened Utf8Name
  import opened Groups
  import Decimal

  // The state two controller paths tell, if any, and whether one of them is ReUperf's own.
  datatype CgroupInfo = CgroupInfo(state: Option<ProcessState>, owned: bool)

  // std::string::find succeeds
  predicate Contains(s: string, word: string) { exists i :: 0 <= i <= |s| && At(s, word, i) }

  predicate At(s: string, word: string, i: int) { 0 <= i <= |s| - |word| && s[i..i + |word|] == word }

  const TOP_WORD := "top-app"
  const FG_WORD := "foreground"
  const BG_WORD := "background"

  // cgroup_path_to_state
  function PathState(path: string): Option<ProcessState> {
    if Contains(path, TOP_WORD) then Some(TOP)
    else if Contains(path, FG_WORD) then Some(FG)
    else if Contains(path, BG_WORD) || Contains(path, "system-background") then Some(BG)
    else None
  }

  // is_reuperf_cpuset_path
  predicate OwnCpuset(path: string) { "/top-app/ReUperf_" <= path || "/ReUperf_" <= path }

  predicate OwnCpu(path: string) { "/ReUperf/" <= path }

  // cgroup_paths_to_state_info: a cpu path that tells a state wins; else the cpuset path counts
  // unless one of the two is ReUperf's own.
  function StateInfo(cpuPath: string, cpusetPath: string): CgroupInfo {
    var owned := OwnCpu(cpuPath) || OwnCpuset(cpusetPath);
    var cpuState := PathState(cpuPath);
    if cpuState.Some? then CgroupInfo(cpuState, owned)
    else if owned then CgroupInfo(None, true)
    else CgroupInfo(PathState(cpusetPath), false)
  }

  // ---- Words in paths -------------------------------------------------------------------------------------

  lemma AtPrefix(a: string, rest: string, word: string, i: int)
    requires 0 <= i <= |a| - |word|
    ensures At(a + rest, word, i) <==> At(a, word, i)
  {
    assert (a + rest)[i..i + |word|] == a[i..i + |word|];
  }

  lemma AtSuffix(first: string, b: string, word: string, i: int)
    requires 0 <= i <= |b| - |word|
    ensures At(first + b, word, |first| + i) <==> At(b, word, i)
  {
    assert (first + b)[|first| + i..|first| + i + |word|] == b[i..i + |word|];
  }

  lemma NotAcross(s: string, word: string, i: int, at: int)
    requires '/' !in word && At(s, word, i) && 0 <= at < |s| && s[at] == '/'
    ensures at < i || i + |word| <= at
  {
    assert forall j :: i <= j < i + |word| ==> s[j] == word[j - i] && word[j - i] in word;
  }

  // A word without '/' is in a path iff it is in one of its parts.
  lemma ContainsParts(a: string, b: string, word: string)
    requires '/' !in word
    ensures Contains(a + "/" + b, word) <==> Contains(a, word) || Contains(b, word)
  {
    hide At;
    var s, n := a + "/" + b, |word|;
    assert s == a + ("/" + b);
    forall i | 0 <= i <= |a| && At(a, word, i)
      ensures At(s, word, i)
    {
      AtFits(a, word, i);
      AtPrefix(a, "/" + b, word, i);
    }
    forall i | 0 <= i <= |b| && At(b, word, i)
      ensures At(s, word, |a| + 1 + i)
    {
      AtFits(b, word, i);
      AtSuffix(a + "/", b, word, i);
    }
    forall i | 0 <= i <= |s| && At(s, word, i)
      ensures (i <= |a| && At(a, word, i)) || (0 <= i - |a| - 1 <= |b| && At(b, word, i - |a| - 1))
    {
      AtFits(s, word, i);
      NotAcross(s, word, i, |a|);
      if i + n <= |a| {
        AtPrefix(a, "/" + b, word, i);
      } else {
        AtSuffix(a + "/", b, word, i - |a| - 1);
      }
    }
  }

  lemma AtFits(s: string, word: string, i: int)
    requires At(s, word, i)
    ensures 0 <= i <= |s| - |word|
  {
  }

  lemma ShortHasNone(s: string, word: string)
    requires |s| < |word| || (word != "" && word[0] !in s)
    ensures !Contains(s, word)
  {
    forall i | 0 <= i <= |s|
      ensures !At(s, word, i)
    {
      if 0 <= i <= |s| - |word| { assert s[i..i + |word|][0] in s; }
    }
  }

  // The path of a thread rule's group in /proc, without the hierarchy's root.
  function OwnPath(rule: string, k: nat): string { "/ReUperf/" + rule + "/" + Leaf(k) }

  lemma OwnPathWords(rule: string, k: nat, word: string)
    requires '/' !in word && word != "" && word[0] !in Leaf(k) && (|word| > 7 || word[0] !in "ReUperf")
    ensures Contains(OwnPath(rule, k), word) <==> Contains(rule, word)
  {
    hide Contains, Leaf;
    assert OwnPath(rule, k) == "/ReUperf" + "/" + rule + "/" + Leaf(k);
    ContainsParts("/ReUperf" + "/" + rule, Leaf(k), word);
    ContainsParts("/ReUperf", rule, word);
    assert "/ReUperf" == "" + "/" + "ReUperf";
    ContainsParts("", "ReUperf", word);
    ShortHasNone("", word);
    ShortHasNone("ReUperf", word);
    ShortHasNone(Leaf(k), word);
  }

  predicate NamesState(rule: string) { Contains(rule, TOP_WORD) || Contains(rule, FG_WORD) || Contains(rule, BG_WORD) }

  lemma LeafLetters(k: nat)
    ensures forall c :: c in Leaf(k) ==> c == 'A' || '0' <= c <= '9'
  {
    assert Decimal.AllDigits(Decimal.Text(k + 1));
  }

  // The source means never to read a state off ReUperf's own path. Of the cpu path of a thread
  // rule's group that is true exactly for rule names without the words that name a state.
  lemma OwnCpuPathIff(rule: string, k: nat, cpusetPath: string)
    requires SafeName(rule)
    ensures StateInfo(OwnPath(rule, k), cpusetPath) == CgroupInfo(None, true) <==> !NamesState(rule)
  {
    hide SafeName;
    LeafLetters(k);
    OwnPathWords(rule, k, TOP_WORD);
    OwnPathWords(rule, k, FG_WORD);
    OwnPathWords(rule, k, BG_WORD);
    hide Leaf;
    SystemBackground(OwnPath(rule, k));
    assert OwnCpu(OwnPath(rule, k));
  }

  lemma SystemBackground(path: string)
    ensures Contains(path, "system-background") ==> Contains(path, BG_WORD)
  {
    forall i | At(path, "system-background", i)
      ensures At(path, BG_WORD, i + 7)
    {
      assert path[i + 7..i + 17] == path[i..i + 17][7..];
    }
  }

  // A rule whose name is read as a state.
  lemma MisleadingName()
    ensures StateInfo(OwnPath("background apps", 0), "/top-app") == CgroupInfo(Some(BG), true)
  {
    hide Leaf, Contains;
    LeafLetters(0);
    OwnPathWords("background apps", 0, TOP_WORD);
    OwnPathWords("background apps", 0, FG_WORD);
    OwnPathWords("background apps", 0, BG_WORD);
    NamesBackground();
  }

  lemma NamesBackground()
    ensures Contains("background apps", BG_WORD)
    ensures !Contains("background apps", TOP_WORD) && !Contains("background apps", FG_WORD)
  {
    assert At("background apps", BG_WORD, 0);
    ShortHasNone("background apps", TOP_WORD);
    ShortHasNone("background apps", FG_WORD);
  }
}
