// core/cgroup_init.hpp: creating the configured cgroups and writing their control files, with the
// transaction that takes the writes back when something fails.
module CgroupInit {
  import opened Types
  import opened Decimal
  import opened CpuList
  import opened ConfigParser
  import opened Groups
  import opened Matcher
  import Sorting

  // A control file by directory and name.
  type File = (string, string)

  // The control files, by name, that the kernel puts into a new directory.
  type Added = string -> map<string, string>

  // The files once there is a directory `dir`.
  function Made(dirs: set<string>, files: map<File, string>, added: Added, dir: string): map<File, string> {
    if dir in dirs then files
    else (map name | name in added(dir) && (dir, name) !in files :: (dir, name) := added(dir)[name]) + files
  }

  // The cgroup file systems. Reads are exact; creating a directory makes the kernel add whatever
  // control files it wants; a call may fail, and a failed write may leave anything in its file.
  class CgroupFs {
    const added: Added
    var dirs: set<string>
    var files: map<File, string>
    ghost var refusals: nat         // how many calls failed

    constructor (dirs: set<string>, files: map<File, string>, added: Added)
      ensures this.dirs == dirs && this.files == files && this.added == added && refusals == 0
    {
      this.dirs, this.files, this.added, refusals := dirs, files, added, 0;
    }

    // FileUtils::read_file, "" if there is no such file
    function Read(f: File): string
      reads this
    {
      ReadIn(files, f)
    }

    method MakeDirectory(dir: string) returns (ok: bool)
      modifies this
      ensures if ok then dirs == old(dirs) + {dir} else dirs == old(dirs)
      ensures files == if ok then Made(old(dirs), old(files), added, dir) else old(files)
      ensures refusals == old(refusals) + (if ok then 0 else 1)
    {
      if dir in dirs { return true; }
      ok := *;
      if ok {
        files := Made(dirs, files, added, dir);
        dirs := dirs + {dir};
      } else {
        refusals := refusals + 1;
      }
    }

    // write_kernel_control_file
    method Write(f: File, value: string) returns (ok: bool)
      modifies this`files, this`refusals
      ensures files.Keys == old(files).Keys && refusals >= old(refusals)
      ensures f in files && refusals == old(refusals) ==> ok
      ensures forall g :: g in files && g != f ==> files[g] == old(files)[g]
      ensures ok ==> f in files && files[f] == value
    {
      if f !in files { return false; }
      ok := *;
      if ok {
        files := files[f := value];
      } else {
        var left: string := *;
        files, refusals := files[f := left], refusals + 1;
      }
    }
  }

  function ReadIn(files: map<File, string>, f: File): string { if f in files then files[f] else "" }

  // ---- ControlFileTransaction ----------------------------------------------------------------------------

  class ControlFileTransaction {
    const fs: CgroupFs
    ghost const begin: map<File, string>   // the files when the transaction began
    var originals: map<File, string>
    var order: seq<File>
    var finalized: bool
    ghost var exempt: set<File>            // written without a snapshot

    constructor (fs: CgroupFs)
      ensures this.fs == fs && begin == fs.files && Valid() && !finalized && exempt == {}
    {
      this.fs, begin := fs, fs.files;
      originals, order, finalized, exempt := map[], [], false, {};
    }

    ghost predicate Valid()
      reads this, fs
    {
      && (forall f :: f in originals <==> f in order) && (forall f :: f in originals ==> f in fs.files)
      && (forall i, j :: 0 <= i < j < |order| ==> order[i] != order[j])
      && (forall f :: f in originals && f in begin && f !in exempt ==> originals[f] == begin[f])
      && (forall f :: f in begin ==> f in fs.files && (f in originals || f in exempt || fs.files[f] == begin[f]))
    }

    method Write(f: File, value: string, rollbackRequired: bool) returns (ok: bool)
      requires Valid()
      modifies this`originals, this`order, this`exempt, fs`files, fs`refusals
      ensures Valid() && fs.files.Keys == old(fs.files).Keys && fs.refusals >= old(fs.refusals)
      ensures fs.refusals == old(fs.refusals) && f in fs.files && (rollbackRequired ==> old(fs.Read(f)) != "") ==> ok
      ensures forall g :: g in fs.files && g != f ==> fs.files[g] == old(fs.files)[g]
      ensures ok ==> f in fs.files && fs.files[f] == value
      ensures exempt == if rollbackRequired then old(exempt) else old(exempt) + {f}
    {
      if rollbackRequired {
        if f !in originals {
          var original := fs.Read(f);
          if original == "" { return false; }
          originals, order := originals[f := original], order + [f];
        }
      } else {
        exempt := exempt + {f};
      }
      ok := fs.Write(f, value);
    }

    // Written values are taken back newest first. It succeeds if no write is refused, and then all files
    // of the beginning are as they were, except those written without a snapshot.
    method Rollback() returns (ok: bool)
      requires Valid() && !finalized
      modifies this`finalized, fs`files, fs`refusals
      ensures finalized && fs.files.Keys == old(fs.files).Keys
      ensures fs.refusals >= old(fs.refusals) && (fs.refusals == old(fs.refusals) ==> ok)
      ensures ok ==> forall f :: f in begin && f !in exempt ==> fs.files[f] == begin[f]
    {
      finalized := true;
      ok := true;
      for i := |order| downto 0
        invariant finalized && fs.files.Keys == old(fs.files).Keys
        invariant fs.refusals >= old(fs.refusals) && (fs.refusals == old(fs.refusals) ==> ok)
        invariant forall f :: f in begin && f !in originals && f !in exempt ==> fs.files[f] == begin[f]
        invariant ok ==> forall j :: i <= j < |order| ==> order[j] in fs.files && fs.files[order[j]] == originals[order[j]]
      {
        assert order[i] in originals;
        var done := fs.Write(order[i], originals[order[i]]);
        if !done { ok := false; }
      }
    }

    method Commit()
      modifies this`finalized
      ensures finalized
    {
      finalized := true;
    }
  }

  // ---- What a finished initialisation has established -----------------------------------------------------

  // cpuset_group_requires_rollback
  ghost predicate GroupReady(dirs: set<string>, files: map<File, string>, dir: string) {
    dir in dirs && ReadIn(files, (dir, "cpus")) != "" && ReadIn(files, (dir, "mems")) != ""
  }

  const EXCLUSIVE := ["cpu_exclusive", "mem_exclusive"]

  // The group of a mask holds its CPUs and the parent's memory nodes and is not exclusive.
  ghost predicate MaskReady(dirs: set<string>, files: map<File, string>, name: string, cpus: seq<int>) {
    var d := CpusetGroup(name);
    && Ids(cpus) && d in dirs && (d, "cpus") in files && (d, "mems") in files && (d, "tasks") in files
    && files[(d, "cpus")] == CpuText(cpus) && files[(d, "mems")] == ReadIn(files, (CPUSET_PARENT, "mems"))
    && (forall x :: x in EXCLUSIVE && (d, x) in files ==> files[(d, x)] == "0")
  }

  function IntText(v: int): string { if v < 0 then "-" + Text(-v) else Text(v) }

  // A configured limit is in its file; one that is not is inherited from the parent, if there is a file.
  ghost predicate LimitSet(files: map<File, string>, child: string, parent: string, file: string, configured: Option<int>) {
    match configured
    case Some(v) => (child, file) in files && files[(child, file)] == IntText(v)
    case None => (child, file) in files ==> files[(child, file)] == ReadIn(files, (parent, file))
  }

  const UCLAMP := "cpu.uclamp.max"
  const SHARES := "cpu.shares"

  ghost predicate LimitReady(dirs: set<string>, files: map<File, string>, rule: string, t: ThreadRule, k: nat) {
    var d := CpuctlGroup(rule, k);
    t.enableLimit ==>
      && d in dirs && RuleGroup(rule) in dirs
      && LimitSet(files, d, RuleGroup(rule), UCLAMP, t.uclampMax) && LimitSet(files, d, RuleGroup(rule), SHARES, t.cpuShare)
  }

  ghost predicate MasksReady(cfg: SchedConfig, dirs: set<string>, files: map<File, string>) {
    forall name :: name in cfg.cpumask ==> MaskReady(dirs, files, name, cfg.cpumask[name])
  }

  ghost predicate LimitsReady(cfg: SchedConfig, dirs: set<string>, files: map<File, string>) {
    forall i, k: nat :: 0 <= i < |cfg.rules| && k < |cfg.rules[i].threadRules| ==>
      LimitReady(dirs, files, cfg.rules[i].name, cfg.rules[i].threadRules[k], k)
  }

  ghost predicate Prepared(cfg: SchedConfig, dirs: set<string>, files: map<File, string>) {
    && (NeedsCpuset(cfg) ==> MasksReady(cfg, dirs, files))
    && (NeedsCpuctl(cfg) ==> LimitsReady(cfg, dirs, files))
  }

  // The group of a mask has, or gets when it is made, the files that are written; those of a group that
  // was ready can be taken back.
  ghost predicate MaskUsable(dirs: set<string>, files: map<File, string>, added: Added, name: string) {
    var d := CpusetGroup(name);
    var made := Made(dirs, files, added, d);
    && (d, "cpus") in made && (d, "mems") in made && (d, "tasks") in made
    && (GroupReady(dirs, files, d) ==> forall x :: x in EXCLUSIVE && (d, x) in made ==> made[(d, x)] != "")
  }

  // A configured limit has a file, one that is not is inherited from a parent that has one, and what the
  // file holds can be taken back.
  ghost predicate FileUsable(files: map<File, string>, child: string, parent: string, file: string, configured: Option<int>) {
    if (child, file) !in files then configured.None?
    else files[(child, file)] != "" && (configured.None? ==> ReadIn(files, (parent, file)) != "")
  }

  ghost predicate LimitUsable(dirs: set<string>, files: map<File, string>, added: Added, rule: string, t: ThreadRule, k: nat) {
    var child, parent := CpuctlGroup(rule, k), RuleGroup(rule);
    var made := Made(dirs, Made(dirs, files, added, parent), added, child);
    t.enableLimit ==> FileUsable(made, child, parent, UCLAMP, t.uclampMax) && FileUsable(made, child, parent, SHARES, t.cpuShare)
  }

  // The hierarchies the configuration needs are there, with everything its groups need.
  ghost predicate Usable(cfg: SchedConfig, dirs: set<string>, files: map<File, string>, added: Added) {
    CpusetUsable(cfg, dirs, files, added) && CpuctlUsable(cfg, dirs, files, added)
  }

  ghost predicate CpusetUsable(cfg: SchedConfig, dirs: set<string>, files: map<File, string>, added: Added) {
    NeedsCpuset(cfg) ==>
      && "/dev/cpuset" in dirs && CPUSET_PARENT in dirs && (CPUSET_PARENT, "cpus") in files
      && ReadIn(files, (CPUSET_PARENT, "cpus")) != "" && ReadIn(files, (CPUSET_PARENT, "mems")) != ""
      && MasksUsable(cfg.cpumask.Keys, dirs, files, added)
  }

  ghost predicate CpuctlUsable(cfg: SchedConfig, dirs: set<string>, files: map<File, string>, added: Added) {
    NeedsCpuctl(cfg) ==> CPUCTL_ROOT in dirs && LimitsUsable(cfg, dirs, files, added, 0, 0)
  }

  ghost predicate MasksUsable(names: set<string>, dirs: set<string>, files: map<File, string>, added: Added) {
    forall name :: name in names ==> MaskUsable(dirs, files, added, name)
  }

  // The groups of the thread rules from rule i's number k on.
  ghost predicate LimitsUsable(cfg: SchedConfig, dirs: set<string>, files: map<File, string>, added: Added, i: nat, k: nat) {
    forall a, b: nat :: 0 <= a < |cfg.rules| && b < |cfg.rules[a].threadRules| && (a > i || (a == i && b >= k)) ==>
      LimitUsable(dirs, files, added, cfg.rules[a].name, cfg.rules[a].threadRules[b], b)
  }

  // Only files of directory `dir` differ or are new.
  ghost predicate Touches(before: map<File, string>, after: map<File, string>, dir: string) {
    && (forall f :: f in before ==> f in after && (f.0 != dir ==> after[f] == before[f]))
    && (forall f :: f in after && f !in before ==> f.0 == dir)
  }

  // ---- Cpuset groups ---------------------------------------------------------------------------------------

  // Setting up the group of one mask.
  method SetupMask(t: ControlFileTransaction, name: string, cpus: seq<int>, parentMems: string) returns (ok: bool)
    requires t.Valid() && Ids(cpus) && cpus != [] && parentMems == t.fs.Read((CPUSET_PARENT, "mems"))
    modifies t`originals, t`order, t`exempt, t.fs
    ensures t.Valid() && Touches(old(t.fs.files), t.fs.files, CpusetGroup(name))
    ensures old(t.fs.dirs) <= t.fs.dirs <= old(t.fs.dirs) + {CpusetGroup(name)}
    ensures old(t.exempt) <= t.exempt
    ensures forall f :: f in t.exempt && f !in old(t.exempt) ==>
      f.0 == CpusetGroup(name) && !GroupReady(old(t.fs.dirs), old(t.fs.files), f.0)
    ensures ok ==> MaskReady(t.fs.dirs, t.fs.files, name, cpus)
    ensures t.fs.refusals >= old(t.fs.refusals)
    ensures t.fs.refusals == old(t.fs.refusals) && old(MaskUsable(t.fs.dirs, t.fs.files, t.fs.added, name)) ==> ok
  {
    hide CpuText, Ids, CpusetGroup, ControlFileTransaction.Valid, Made, MaskUsable;
    TextOfSome(cpus);
    ParentDiffers(name);
    var fs, dir := t.fs, CpusetGroup(name);
    MadeTouches(fs.dirs, fs.files, fs.added, dir);
    if MaskUsable(fs.dirs, fs.files, fs.added, name) { UsableFiles(fs.dirs, fs.files, fs.added, name); }
    var wasReady := dir in fs.dirs && fs.Read((dir, "cpus")) != "" && fs.Read((dir, "mems")) != "";
    var made := MakeGroup(t, dir);
    if !made { return false; }
    ok := FillMask(t, dir, cpus, parentMems, wasReady);
  }

  // What SetupMask does once there is a directory.
  method FillMask(t: ControlFileTransaction, dir: string, cpus: seq<int>, parentMems: string, wasReady: bool) returns (ok: bool)
    requires t.Valid() && Ids(cpus) && CpuText(cpus) != ""
    modifies t`originals, t`order, t`exempt, t.fs`files, t.fs`refusals
    ensures t.Valid() && t.fs.files.Keys == old(t.fs.files).Keys
    ensures forall g :: g in t.fs.files && (g.0 != dir || g.1 == "tasks") ==> t.fs.files[g] == old(t.fs.files)[g]
    ensures old(t.exempt) <= t.exempt && (wasReady ==> t.exempt == old(t.exempt))
    ensures forall f :: f in t.exempt && f !in old(t.exempt) ==> f.0 == dir
    ensures ok ==> (dir, "cpus") in t.fs.files && (dir, "mems") in t.fs.files && (dir, "tasks") in t.fs.files
    ensures ok ==> t.fs.files[(dir, "cpus")] == CpuText(cpus) && t.fs.files[(dir, "mems")] == parentMems
    ensures ok ==> forall x :: x in EXCLUSIVE && (dir, x) in t.fs.files ==> t.fs.files[(dir, x)] == "0"
    ensures t.fs.refusals >= old(t.fs.refusals)
    ensures t.fs.refusals == old(t.fs.refusals) && Fillable(old(t.fs.files), dir, wasReady) ==> ok
  {
    hide ControlFileTransaction.Valid, CpuText, Ids;
    var fs := t.fs;
    if (dir, "cpus") !in fs.files || (dir, "mems") !in fs.files || (dir, "tasks") !in fs.files { return false; }
    var text := Print(cpus);
    if text == "" { return false; }
    ok := WriteMask(t, dir, text, parentMems, wasReady);
  }

  // The three files are there, and what will be overwritten can be taken back if need be.
  ghost predicate Fillable(files: map<File, string>, dir: string, wasReady: bool) {
    (dir, "tasks") in files && WritesBack(files, dir, wasReady)
  }

  lemma UsableFiles(dirs: set<string>, files: map<File, string>, added: Added, name: string)
    requires MaskUsable(dirs, files, added, name)
    ensures var d := CpusetGroup(name);
      Fillable(Made(dirs, files, added, d), d, d in dirs && ReadIn(files, (d, "cpus")) != "" && ReadIn(files, (d, "mems")) != "")
  {
    hide CpusetGroup;
    MadeTouches(dirs, files, added, CpusetGroup(name));
  }

  lemma TextOfSome(cpus: seq<int>)
    requires Ids(cpus) && cpus != []
    ensures CpuText(cpus) != ""
  {
    hide CpuText, ParseText, Ids;
    RoundTrip(cpus);
    ParseTextEmpty();
  }

  // Making a directory adds files of its own and changes none there is.
  lemma MadeTouches(dirs: set<string>, files: map<File, string>, added: Added, dir: string)
    ensures var made := Made(dirs, files, added, dir);
      Touches(files, made, dir) && (dir in dirs ==> made == files) && forall f :: f in files ==> f in made && made[f] == files[f]
  {
  }

  method MakeGroup(t: ControlFileTransaction, dir: string) returns (ok: bool)
    requires t.Valid()
    modifies t.fs
    ensures t.Valid() && t.fs.dirs == if ok then old(t.fs.dirs) + {dir} else old(t.fs.dirs)
    ensures t.fs.files == if ok then Made(old(t.fs.dirs), old(t.fs.files), t.fs.added, dir) else old(t.fs.files)
    ensures Touches(old(t.fs.files), t.fs.files, dir) && (forall f :: f in old(t.fs.files) ==> t.fs.files[f] == old(t.fs.files)[f])
    ensures t.fs.refusals == old(t.fs.refusals) + (if ok then 0 else 1)
  {
    MadeTouches(t.fs.dirs, t.fs.files, t.fs.added, dir);
    ok := t.fs.MakeDirectory(dir);
  }

  // The writes of one mask's group.
  method WriteMask(t: ControlFileTransaction, dir: string, text: string, parentMems: string, wasReady: bool) returns (ok: bool)
    requires t.Valid()
    modifies t`originals, t`order, t`exempt, t.fs`files, t.fs`refusals
    ensures t.Valid() && t.fs.files.Keys == old(t.fs.files).Keys
    ensures forall g :: g in t.fs.files && (g.0 != dir || g.1 == "tasks") ==> t.fs.files[g] == old(t.fs.files)[g]
    ensures old(t.exempt) <= t.exempt && (wasReady ==> t.exempt == old(t.exempt))
    ensures forall f :: f in t.exempt && f !in old(t.exempt) ==> f.0 == dir
    ensures ok ==> (dir, "cpus") in t.fs.files && (dir, "mems") in t.fs.files
    ensures ok ==> t.fs.files[(dir, "cpus")] == text && t.fs.files[(dir, "mems")] == parentMems
    ensures ok ==> forall x :: x in EXCLUSIVE && (dir, x) in t.fs.files ==> t.fs.files[(dir, x)] == "0"
    ensures t.fs.refusals >= old(t.fs.refusals)
    ensures t.fs.refusals == old(t.fs.refusals) && WritesBack(old(t.fs.files), dir, wasReady) ==> ok
  {
    hide ControlFileTransaction.Valid;
    assert "cpus" !in EXCLUSIVE && "mems" !in EXCLUSIVE && "tasks" !in EXCLUSIVE;
    ok := t.Write((dir, "cpus"), text, wasReady);
    if !ok { return; }
    ok := t.Write((dir, "mems"), parentMems, wasReady);
    if !ok { return; }
    hide ExclusiveWritesBack;
    ok := DisableBoth(t, dir, wasReady);
  }

  // What will be overwritten can be taken back if that is asked for.
  ghost predicate WritesBack(files: map<File, string>, dir: string, wasReady: bool) {
    && (dir, "cpus") in files && (dir, "mems") in files
    && (wasReady ==> files[(dir, "cpus")] != "" && files[(dir, "mems")] != "" && ExclusiveWritesBack(files, dir))
  }

  ghost predicate ExclusiveWritesBack(files: map<File, string>, dir: string) {
    forall x :: x in EXCLUSIVE && (dir, x) in files ==> files[(dir, x)] != ""
  }

  // Both exclusive flags go down, one independent of the other.
  method DisableBoth(t: ControlFileTransaction, dir: string, wasReady: bool) returns (ok: bool)
    requires t.Valid()
    modifies t`originals, t`order, t`exempt, t.fs`files, t.fs`refusals
    ensures t.Valid() && t.fs.files.Keys == old(t.fs.files).Keys
    ensures forall g :: g in t.fs.files && (g.0 != dir || g.1 !in EXCLUSIVE) ==> t.fs.files[g] == old(t.fs.files)[g]
    ensures old(t.exempt) <= t.exempt && (wasReady ==> t.exempt == old(t.exempt))
    ensures forall f :: f in t.exempt && f !in old(t.exempt) ==> f.0 == dir
    ensures ok ==> forall x :: x in EXCLUSIVE && (dir, x) in t.fs.files ==> t.fs.files[(dir, x)] == "0"
    ensures t.fs.refusals >= old(t.fs.refusals)
    ensures t.fs.refusals == old(t.fs.refusals) && (wasReady ==> ExclusiveWritesBack(old(t.fs.files), dir)) ==> ok
  {
    hide ControlFileTransaction.Valid;
    ok := true;
    for i := 0 to 2
      invariant t.Valid() && t.fs.files.Keys == old(t.fs.files).Keys
      invariant forall g :: g in t.fs.files && (g.0 != dir || g.1 !in EXCLUSIVE) ==> t.fs.files[g] == old(t.fs.files)[g]
      invariant old(t.exempt) <= t.exempt && (wasReady ==> t.exempt == old(t.exempt))
      invariant forall f :: f in t.exempt && f !in old(t.exempt) ==> f.0 == dir
      invariant t.fs.refusals >= old(t.fs.refusals)
      invariant forall k :: i <= k < 2 && (dir, EXCLUSIVE[k]) in t.fs.files ==> t.fs.files[(dir, EXCLUSIVE[k])] == old(t.fs.files)[(dir, EXCLUSIVE[k])]
      invariant t.fs.refusals == old(t.fs.refusals) && (wasReady ==> ExclusiveWritesBack(old(t.fs.files), dir)) ==> ok
      invariant ok ==> forall k :: 0 <= k < i && (dir, EXCLUSIVE[k]) in t.fs.files ==> t.fs.files[(dir, EXCLUSIVE[k])] == "0"
    {
      assert EXCLUSIVE[i] in EXCLUSIVE && EXCLUSIVE[0] != EXCLUSIVE[1];
      var disabled := DisableExclusive(t, dir, EXCLUSIVE[i], wasReady);
      if !disabled { ok := false; }
    }
  }

  lemma ParentDiffers(name: string)
    ensures CPUSET_PARENT != CpusetGroup(name)
  {
    ParentIsNoGroup(name);
  }

  method DisableExclusive(t: ControlFileTransaction, dir: string, file: string, wasReady: bool) returns (ok: bool)
    requires t.Valid()
    modifies t`originals, t`order, t`exempt, t.fs`files, t.fs`refusals
    ensures t.Valid() && t.fs.files.Keys == old(t.fs.files).Keys
    ensures forall g :: g in t.fs.files && g != (dir, file) ==> t.fs.files[g] == old(t.fs.files)[g]
    ensures ok && (dir, file) in t.fs.files ==> t.fs.files[(dir, file)] == "0"
    ensures old(t.exempt) <= t.exempt <= old(t.exempt) + {(dir, file)} && (wasReady ==> t.exempt == old(t.exempt))
    ensures t.fs.refusals >= old(t.fs.refusals)
    ensures t.fs.refusals == old(t.fs.refusals) && (wasReady && (dir, file) in old(t.fs.files) ==> old(t.fs.files)[(dir, file)] != "") ==> ok
  {
    if (dir, file) !in t.fs.files { return true; }
    ok := t.Write((dir, file), "0", wasReady);
  }

  // Files of the groups of `names` only.
  ghost predicate OfMasks(before: map<File, string>, after: map<File, string>, names: set<string>) {
    && (forall f :: f in before ==> f in after && ((forall m :: m in names ==> f.0 != CpusetGroup(m)) ==> after[f] == before[f]))
    && (forall f :: f in after && f !in before ==> exists m :: m in names && f.0 == CpusetGroup(m))
  }

  // Only files of groups of masks that were not ready were written without a snapshot.
  ghost predicate ExemptOk(cfg: SchedConfig, dirs: set<string>, files: map<File, string>, exempt: set<File>) {
    forall f :: f in exempt ==> exists m :: m in cfg.cpumask && f.0 == CpusetGroup(m) && !GroupReady(dirs, files, f.0)
  }

  // The masks not in `left` are done.
  ghost predicate ReadyBut(cfg: SchedConfig, left: set<string>, dirs: set<string>, files: map<File, string>) {
    forall m :: m in cfg.cpumask && m !in left ==> MaskReady(dirs, files, m, cfg.cpumask[m])
  }

  // The groups of the masks in `left` are as ready as they were.
  ghost predicate AsReady(left: set<string>, dirs: set<string>, files: map<File, string>, dirs': set<string>, files': map<File, string>) {
    forall m :: m in left ==> GroupReady(dirs', files', CpusetGroup(m)) == GroupReady(dirs, files, CpusetGroup(m))
  }

  lemma MaskStep(cfg: SchedConfig, left: set<string>, name: string, dirs: set<string>, files: map<File, string>,
                 dirs1: set<string>, files1: map<File, string>, dirs2: set<string>, files2: map<File, string>)
    requires name in left && Touches(files1, files2, CpusetGroup(name)) && dirs1 <= dirs2 <= dirs1 + {CpusetGroup(name)}
    requires AsReady(left, dirs, files, dirs1, files1)
    ensures AsReady(left - {name}, dirs, files, dirs2, files2)
    ensures name in cfg.cpumask && ReadyBut(cfg, left, dirs1, files1) && MaskReady(dirs2, files2, name, cfg.cpumask[name]) ==>
      ReadyBut(cfg, left - {name}, dirs2, files2)
  {
    hide CpusetGroup, MaskReady, GroupReady, Touches;
    forall m | m != name
      ensures GroupReady(dirs2, files2, CpusetGroup(m)) == GroupReady(dirs1, files1, CpusetGroup(m))
      ensures m in cfg.cpumask && MaskReady(dirs1, files1, m, cfg.cpumask[m]) ==> MaskReady(dirs2, files2, m, cfg.cpumask[m])
    {
      OtherMaskKept(dirs1, files1, dirs2, files2, name, m, if m in cfg.cpumask then cfg.cpumask[m] else []);
    }
  }

  lemma ExemptMore(cfg: SchedConfig, left: set<string>, name: string, dirs: set<string>, files: map<File, string>,
                   dirs1: set<string>, files1: map<File, string>, exempt: set<File>, exempt': set<File>)
    requires name in left && name in cfg.cpumask && AsReady(left, dirs, files, dirs1, files1)
    requires ExemptOk(cfg, dirs, files, exempt)
    requires forall f :: f in exempt' && f !in exempt ==> f.0 == CpusetGroup(name) && !GroupReady(dirs1, files1, f.0)
    ensures ExemptOk(cfg, dirs, files, exempt')
  {
    hide CpusetGroup, GroupReady;
  }

  method InitCpuset(cfg: SchedConfig, t: ControlFileTransaction) returns (ok: bool)
    requires t.Valid() && MasksOk(cfg) && t.exempt == {}
    modifies t`originals, t`order, t`exempt, t.fs
    ensures t.Valid() && OfMasks(old(t.fs.files), t.fs.files, cfg.cpumask.Keys)
    ensures ExemptOk(cfg, old(t.fs.dirs), old(t.fs.files), t.exempt)
    ensures ok && NeedsCpuset(cfg) ==> MasksReady(cfg, t.fs.dirs, t.fs.files)
    ensures t.fs.refusals >= old(t.fs.refusals)
    ensures t.fs.refusals == old(t.fs.refusals) && old(CpusetUsable(cfg, t.fs.dirs, t.fs.files, t.fs.added)) ==> ok
    ensures old(t.fs.dirs) <= t.fs.dirs && forall d :: d in t.fs.dirs && d !in old(t.fs.dirs) ==> exists m :: m in cfg.cpumask && d == CpusetGroup(m)
  {
    var needed := RequiresCpuset(cfg);
    if !needed { return true; }
    var fs := t.fs;
    if "/dev/cpuset" !in fs.dirs { return false; }
    if CPUSET_PARENT !in fs.dirs || (CPUSET_PARENT, "cpus") !in fs.files { return false; }
    if fs.Read((CPUSET_PARENT, "cpus")) == "" { return false; }
    var parentMems := fs.Read((CPUSET_PARENT, "mems"));
    if parentMems == "" { return false; }
    ok := SetupMasks(cfg, t, parentMems);
  }

  method SetupMasks(cfg: SchedConfig, t: ControlFileTransaction, parentMems: string) returns (ok: bool)
    requires t.Valid() && MasksOk(cfg) && t.exempt == {} && parentMems == t.fs.Read((CPUSET_PARENT, "mems"))
    modifies t`originals, t`order, t`exempt, t.fs
    ensures t.Valid() && OfMasks(old(t.fs.files), t.fs.files, cfg.cpumask.Keys)
    ensures ExemptOk(cfg, old(t.fs.dirs), old(t.fs.files), t.exempt)
    ensures ok ==> MasksReady(cfg, t.fs.dirs, t.fs.files)
    ensures t.fs.refusals >= old(t.fs.refusals)
    ensures t.fs.refusals == old(t.fs.refusals) && old(MasksUsable(cfg.cpumask.Keys, t.fs.dirs, t.fs.files, t.fs.added)) ==> ok
    ensures old(t.fs.dirs) <= t.fs.dirs && forall d :: d in t.fs.dirs && d !in old(t.fs.dirs) ==> exists m :: m in cfg.cpumask && d == CpusetGroup(m)
  {
    hide CpusetGroup, ControlFileTransaction.Valid, MaskReady, GroupReady, OfMasks, Touches, ExemptOk, AsReady, ReadyBut, MasksReady, MasksOk;
    hide Ids, MasksUsable, MaskUsable;
    OfNoMasks(t.fs.files);
    ghost var dirs, files := t.fs.dirs, t.fs.files;
    var names, failed := cfg.cpumask.Keys, 0;
    NothingDone(cfg, dirs, files);
    while names != {}
      invariant names <= cfg.cpumask.Keys && t.Valid() && failed >= 0
      invariant OfMasks(files, t.fs.files, cfg.cpumask.Keys - names)
      invariant parentMems == t.fs.Read((CPUSET_PARENT, "mems"))
      invariant AsReady(names, dirs, files, t.fs.dirs, t.fs.files) && ExemptOk(cfg, dirs, files, t.exempt)
      invariant failed == 0 ==> ReadyBut(cfg, names, t.fs.dirs, t.fs.files)
      invariant t.fs.refusals >= old(t.fs.refusals)
      invariant t.fs.refusals == old(t.fs.refusals) && MasksUsable(cfg.cpumask.Keys, dirs, files, t.fs.added) ==>
        failed == 0 && MasksUsable(names, t.fs.dirs, t.fs.files, t.fs.added)
      invariant dirs <= t.fs.dirs && forall d :: d in t.fs.dirs && d !in dirs ==> exists m :: m in cfg.cpumask && d == CpusetGroup(m)
      decreases |names|
    {
      var name :| name in names;
      ghost var dirs1, files1, exempt1 := t.fs.dirs, t.fs.files, t.exempt;
      IdsOf(cfg, name);
      if MasksUsable(names, dirs1, files1, t.fs.added) { OneUsable(names, name, dirs1, files1, t.fs.added); }
      var done := SetupMask(t, name, cfg.cpumask[name], parentMems);
      if MasksUsable(names, dirs1, files1, t.fs.added) { UsableStep(names, name, dirs1, files1, t.fs.dirs, t.fs.files, t.fs.added); }
      MaskStep(cfg, names, name, dirs, files, dirs1, files1, t.fs.dirs, t.fs.files);
      ExemptMore(cfg, names, name, dirs, files, dirs1, files1, exempt1, t.exempt);
      ParentKept(files1, t.fs.files, name);
      OfMasksMore(files, files1, t.fs.files, cfg.cpumask.Keys - names, name);
      assert cfg.cpumask.Keys - names + {name} == cfg.cpumask.Keys - (names - {name});
      if !done { failed := failed + 1; }
      names := names - {name};
    }
    assert cfg.cpumask.Keys - {} == cfg.cpumask.Keys;
    AllDone(cfg, t.fs.dirs, t.fs.files);
    return failed == 0;
  }

  lemma AllDone(cfg: SchedConfig, dirs: set<string>, files: map<File, string>)
    ensures ReadyBut(cfg, {}, dirs, files) ==> MasksReady(cfg, dirs, files)
  {
  }

  lemma IdsOf(cfg: SchedConfig, name: string)
    requires MasksOk(cfg) && name in cfg.cpumask
    ensures Ids(cfg.cpumask[name]) && cfg.cpumask[name] != []
  {
  }

  lemma OneUsable(names: set<string>, name: string, dirs: set<string>, files: map<File, string>, added: Added)
    requires MasksUsable(names, dirs, files, added) && name in names
    ensures MaskUsable(dirs, files, added, name)
  {
  }

  // Setting up one mask's group leaves the others' as usable as they were.
  lemma UsableStep(names: set<string>, name: string, dirs: set<string>, files: map<File, string>,
                   dirs': set<string>, files': map<File, string>, added: Added)
    requires MasksUsable(names, dirs, files, added) && Touches(files, files', CpusetGroup(name)) && dirs <= dirs' <= dirs + {CpusetGroup(name)}
    ensures MasksUsable(names - {name}, dirs', files', added)
  {
    hide MaskUsable, CpusetGroup, Touches;
    forall m | m in names && m != name
      ensures MaskUsable(dirs', files', added, m)
    {
      OtherUsable(name, m, dirs, files, dirs', files', added);
    }
  }

  lemma OtherUsable(name: string, m: string, dirs: set<string>, files: map<File, string>,
                    dirs': set<string>, files': map<File, string>, added: Added)
    requires m != name && MaskUsable(dirs, files, added, m)
    requires Touches(files, files', CpusetGroup(name)) && dirs <= dirs' <= dirs + {CpusetGroup(name)}
    ensures MaskUsable(dirs', files', added, m)
  {
    if CpusetGroup(m) == CpusetGroup(name) { CpusetGroupInjective(m, name); }
    OtherMaskKept(dirs, files, dirs', files', name, m, []);
    hide CpusetGroup;
    var d := CpusetGroup(m);
    assert forall x :: (d, x) in Made(dirs', files', added, d) <==> (d, x) in Made(dirs, files, added, d);
  }

  lemma NothingDone(cfg: SchedConfig, dirs: set<string>, files: map<File, string>)
    ensures cfg.cpumask.Keys - cfg.cpumask.Keys == {} && AsReady(cfg.cpumask.Keys, dirs, files, dirs, files)
    ensures ExemptOk(cfg, dirs, files, {}) && ReadyBut(cfg, cfg.cpumask.Keys, dirs, files)
  {
  }

  lemma OfNoMasks(files: map<File, string>)
    ensures OfMasks(files, files, {})
  {
  }

  lemma ParentKept(before: map<File, string>, after: map<File, string>, name: string)
    requires Touches(before, after, CpusetGroup(name))
    ensures ReadIn(after, (CPUSET_PARENT, "mems")) == ReadIn(before, (CPUSET_PARENT, "mems"))
  {
    ParentDiffers(name);
  }

  lemma OfMasksMore(a: map<File, string>, b: map<File, string>, c: map<File, string>, names: set<string>, name: string)
    requires OfMasks(a, b, names) && Touches(b, c, CpusetGroup(name))
    ensures OfMasks(a, c, names + {name})
  {
    hide CpusetGroup;
  }

  lemma OtherMaskKept(dirs: set<string>, files: map<File, string>, dirs': set<string>, files': map<File, string>,
                      name: string, m: string, cpus: seq<int>)
    requires m != name && Touches(files, files', CpusetGroup(name)) && dirs <= dirs' <= dirs + {CpusetGroup(name)}
    ensures GroupReady(dirs', files', CpusetGroup(m)) == GroupReady(dirs, files, CpusetGroup(m))
    ensures MaskReady(dirs, files, m, cpus) ==> MaskReady(dirs', files', m, cpus)
  {
    if CpusetGroup(m) == CpusetGroup(name) { CpusetGroupInjective(m, name); }
    ParentDiffers(name);
    hide CpusetGroup, CpuText, Ids;
  }

  // ---- Cpuctl groups -----------------------------------------------------------------------------------------

  method WriteOptionalLimit(t: ControlFileTransaction, child: string, parent: string, file: string, configured: Option<int>)
    returns (ok: bool)
    requires t.Valid() && child != parent
    modifies t`originals, t`order, t`exempt, t.fs`files, t.fs`refusals
    ensures t.Valid() && t.fs.files.Keys == old(t.fs.files).Keys && t.exempt == old(t.exempt)
    ensures t.fs.refusals >= old(t.fs.refusals)
    ensures t.fs.refusals == old(t.fs.refusals) && FileUsable(old(t.fs.files), child, parent, file, configured) ==> ok
    ensures forall g :: g in t.fs.files && g != (child, file) ==> t.fs.files[g] == old(t.fs.files)[g]
    ensures ok ==> LimitSet(t.fs.files, child, parent, file, configured)
  {
    hide ControlFileTransaction.Valid, Text;
    if (child, file) !in t.fs.files { return configured.None?; }
    var inherited := "";
    if configured.None? {
      inherited := t.fs.Read((parent, file));
      if inherited == "" { return false; }
    }
    var desired := if configured.Some? then IntText(configured.value) else inherited;
    ok := t.Write((child, file), desired, true);
  }

  // The group of one thread rule with a limit.
  method ConfigureGroup(t: ControlFileTransaction, rule: string, tr: ThreadRule, k: nat) returns (ok: bool)
    requires t.Valid() && CpuctlGroup(rule, k) != RuleGroup(rule) && RuleGroup(rule) in t.fs.dirs
    modifies t`originals, t`order, t`exempt, t.fs
    ensures t.Valid() && t.exempt == old(t.exempt)
    ensures Touches(old(t.fs.files), t.fs.files, CpuctlGroup(rule, k))
    ensures old(t.fs.dirs) <= t.fs.dirs <= old(t.fs.dirs) + {CpuctlGroup(rule, k)}
    ensures ok ==> LimitReady(t.fs.dirs, t.fs.files, rule, tr, k)
    ensures t.fs.refusals >= old(t.fs.refusals)
    ensures t.fs.refusals == old(t.fs.refusals) && tr.enableLimit && old(LimitUsable(t.fs.dirs, t.fs.files, t.fs.added, rule, tr, k)) ==> ok
  {
    hide ControlFileTransaction.Valid, CpuctlGroup, RuleGroup, Made;
    MadeTouches(t.fs.dirs, t.fs.files, t.fs.added, RuleGroup(rule));
    var child, parent := CpuctlGroup(rule, k), RuleGroup(rule);
    var made := MakeGroup(t, child);
    if !made { return false; }
    var uclamp := WriteOptionalLimit(t, child, parent, UCLAMP, tr.uclampMax);
    var shares := WriteOptionalLimit(t, child, parent, SHARES, tr.cpuShare);
    return uclamp && shares;
  }

  predicate InCpuctl(dir: string) { CPUCTL_ROOT <= dir }

  // Only the cpuctl hierarchy differs.
  ghost predicate CpuctlOnly(dirs: set<string>, files: map<File, string>, dirs': set<string>, files': map<File, string>) {
    && dirs <= dirs' && (forall d :: d in dirs' && d !in dirs ==> InCpuctl(d))
    && (forall f :: f in files ==> f in files' && (!InCpuctl(f.0) ==> files'[f] == files[f]))
    && (forall f :: f in files' && f !in files ==> InCpuctl(f.0))
  }

  lemma CpuctlStep(dirs: set<string>, files: map<File, string>, dirs1: set<string>, files1: map<File, string>,
                   dirs2: set<string>, files2: map<File, string>, d: string)
    requires CpuctlOnly(dirs, files, dirs1, files1) && Touches(files1, files2, d) && dirs1 <= dirs2 <= dirs1 + {d} && InCpuctl(d)
    ensures CpuctlOnly(dirs, files, dirs2, files2)
  {
    hide InCpuctl;
  }

  // The groups of the thread rules before rule i's number k.
  ghost predicate ReadyBefore(cfg: SchedConfig, dirs: set<string>, files: map<File, string>, i: nat, k: nat) {
    forall a, b: nat :: 0 <= a < |cfg.rules| && b < |cfg.rules[a].threadRules| && (a < i || (a == i && b < k)) ==>
      LimitReady(dirs, files, cfg.rules[a].name, cfg.rules[a].threadRules[b], b)
  }

  // Steps in a directory that is not theirs keep the groups that are ready.
  lemma ReadyKept(cfg: SchedConfig, dirs: set<string>, files: map<File, string>, dirs': set<string>, files': map<File, string>,
                  d: string, i: nat, k: nat)
    requires ReadyBefore(cfg, dirs, files, i, k) && Touches(files, files', d) && dirs <= dirs'
    requires forall a, b: nat :: 0 <= a < |cfg.rules| && b < |cfg.rules[a].threadRules| && (a < i || (a == i && b < k)) ==>
      d != RuleGroup(cfg.rules[a].name) && d != CpuctlGroup(cfg.rules[a].name, b)
    ensures ReadyBefore(cfg, dirs', files', i, k)
  {
    hide CpuctlGroup, RuleGroup;
  }

  // Creating a directory changes no file there is.
  lemma ReadyGrows(cfg: SchedConfig, dirs: set<string>, files: map<File, string>, dirs': set<string>, files': map<File, string>,
                   d: string, i: nat, k: nat)
    requires ReadyBefore(cfg, dirs, files, i, k) && Touches(files, files', d) && dirs <= dirs'
    requires (forall f :: f in files ==> files'[f] == files[f]) && (d in dirs ==> files' == files)
    ensures ReadyBefore(cfg, dirs', files', i, k)
  {
    hide CpuctlGroup, RuleGroup;
  }

  // ---- What later groups need is left alone -----------------------------------------------------------------

  // The same files of directory `d`.
  ghost predicate Agree(files: map<File, string>, files': map<File, string>, d: string) {
    forall x :: ((d, x) in files <==> (d, x) in files') && ((d, x) in files ==> files'[(d, x)] == files[(d, x)])
  }

  lemma MadeAgrees(dirs: set<string>, files: map<File, string>, dirs': set<string>, files': map<File, string>,
                   added: Added, d: string, e: string)
    requires (d in dirs <==> d in dirs') && Agree(files, files', d) && Agree(files, files', e)
    ensures Agree(Made(dirs, files, added, d), Made(dirs', files', added, d), e)
  {
  }

  lemma LimitUsableAgrees(dirs: set<string>, files: map<File, string>, dirs': set<string>, files': map<File, string>,
                          added: Added, rule: string, t: ThreadRule, k: nat)
    requires LimitUsable(dirs, files, added, rule, t, k)
    requires Agree(files, files', RuleGroup(rule)) && Agree(files, files', CpuctlGroup(rule, k))
    requires (RuleGroup(rule) in dirs <==> RuleGroup(rule) in dirs') && (CpuctlGroup(rule, k) in dirs <==> CpuctlGroup(rule, k) in dirs')
    ensures LimitUsable(dirs', files', added, rule, t, k)
  {
    hide CpuctlGroup, RuleGroup, Made;
    var child, parent := CpuctlGroup(rule, k), RuleGroup(rule);
    MadeAgrees(dirs, files, dirs', files', added, parent, parent);
    MadeAgrees(dirs, files, dirs', files', added, parent, child);
    var made, made' := Made(dirs, files, added, parent), Made(dirs', files', added, parent);
    MadeAgrees(dirs, made, dirs', made', added, child, parent);
    MadeAgrees(dirs, made, dirs', made', added, child, child);
  }

  lemma LimitUsableKept(dirs: set<string>, files: map<File, string>, dirs': set<string>, files': map<File, string>,
                        added: Added, d: string, rule: string, t: ThreadRule, k: nat)
    requires LimitUsable(dirs, files, added, rule, t, k) && Touches(files, files', d) && dirs <= dirs' <= dirs + {d}
    requires d != RuleGroup(rule) && d != CpuctlGroup(rule, k)
    ensures LimitUsable(dirs', files', added, rule, t, k)
  {
    hide CpuctlGroup, RuleGroup, LimitUsable;
    LimitUsableAgrees(dirs, files, dirs', files', added, rule, t, k);
  }

  // Once the process rule's own directory is made, making it again would add nothing.
  lemma LimitUsableParent(dirs: set<string>, files: map<File, string>, added: Added, rule: string, t: ThreadRule, k: nat)
    requires LimitUsable(dirs, files, added, rule, t, k) && CpuctlGroup(rule, k) != RuleGroup(rule)
    ensures LimitUsable(dirs + {RuleGroup(rule)}, Made(dirs, files, added, RuleGroup(rule)), added, rule, t, k)
  {
    hide CpuctlGroup, RuleGroup, Made;
    MadeTouches(dirs + {RuleGroup(rule)}, Made(dirs, files, added, RuleGroup(rule)), added, RuleGroup(rule));
    MadeSame(dirs, dirs + {RuleGroup(rule)}, Made(dirs, files, added, RuleGroup(rule)), added, CpuctlGroup(rule, k));
  }

  lemma MadeSame(dirs: set<string>, dirs': set<string>, files: map<File, string>, added: Added, d: string)
    requires d in dirs <==> d in dirs'
    ensures Made(dirs, files, added, d) == Made(dirs', files, added, d)
  {
  }

  // A step in another directory, or the making of a process rule's own.
  lemma LimitsUsableStep(cfg: SchedConfig, dirs: set<string>, files: map<File, string>, dirs': set<string>, files': map<File, string>,
                         added: Added, d: string, i: nat, k: nat)
    requires RulesOk(cfg) && LimitsUsable(cfg, dirs, files, added, i, k) && Touches(files, files', d) && dirs <= dirs' <= dirs + {d}
    requires (exists a: nat :: a < |cfg.rules| && d == RuleGroup(cfg.rules[a].name)) ==> dirs' == dirs + {d} && files' == Made(dirs, files, added, d)
    requires forall a, b: nat :: 0 <= a < |cfg.rules| && b < |cfg.rules[a].threadRules| && (a > i || (a == i && b >= k)) ==>
      d != CpuctlGroup(cfg.rules[a].name, b)
    ensures LimitsUsable(cfg, dirs', files', added, i, k)
  {
    hide LimitUsable, Touches, Made, CpuctlGroup, RuleGroup, RulesOk;
    forall a, b: nat | 0 <= a < |cfg.rules| && b < |cfg.rules[a].threadRules| && (a > i || (a == i && b >= k))
      ensures LimitUsable(dirs', files', added, cfg.rules[a].name, cfg.rules[a].threadRules[b], b)
    {
      OwnGroup(cfg, a, b);
      if d == RuleGroup(cfg.rules[a].name) {
        LimitUsableParent(dirs, files, added, cfg.rules[a].name, cfg.rules[a].threadRules[b], b);
      } else {
        LimitUsableKept(dirs, files, dirs', files', added, d, cfg.rules[a].name, cfg.rules[a].threadRules[b], b);
      }
    }
  }

  lemma LimitsUsableNext(cfg: SchedConfig, dirs: set<string>, files: map<File, string>, added: Added, i: nat, k: nat)
    requires LimitsUsable(cfg, dirs, files, added, i, k) && i < |cfg.rules|
    ensures k < |cfg.rules[i].threadRules| ==>
      LimitUsable(dirs, files, added, cfg.rules[i].name, cfg.rules[i].threadRules[k], k) && LimitsUsable(cfg, dirs, files, added, i, k + 1)
    ensures k >= |cfg.rules[i].threadRules| ==> LimitsUsable(cfg, dirs, files, added, i + 1, 0)
  {
  }

  method InitCpuctl(cfg: SchedConfig, t: ControlFileTransaction) returns (ok: bool)
    requires t.Valid() && RulesOk(cfg)
    modifies t`originals, t`order, t`exempt, t.fs
    ensures t.Valid() && t.exempt == old(t.exempt)
    ensures CpuctlOnly(old(t.fs.dirs), old(t.fs.files), t.fs.dirs, t.fs.files)
    ensures ok && NeedsCpuctl(cfg) ==> LimitsReady(cfg, t.fs.dirs, t.fs.files)
    ensures t.fs.refusals >= old(t.fs.refusals)
    ensures t.fs.refusals == old(t.fs.refusals) && old(CpuctlUsable(cfg, t.fs.dirs, t.fs.files, t.fs.added)) ==> ok
  {
    hide ControlFileTransaction.Valid, RulesOk, NeedsCpuctl, LimitReady, LimitsUsable, Made, RuleGroup, CpuctlGroup;
    var needed := RequiresCpuctl(cfg);
    if !needed { return true; }
    if CPUCTL_ROOT !in t.fs.dirs { return false; }
    ghost var dirs, files, usable := t.fs.dirs, t.fs.files, LimitsUsable(cfg, t.fs.dirs, t.fs.files, t.fs.added, 0, 0);
    var made := MakeGroup(t, CPUCTL_ROOT + "/ReUperf");
    CpuctlStep(dirs, files, dirs, files, t.fs.dirs, t.fs.files, CPUCTL_ROOT + "/ReUperf");
    if !made { return false; }
    RootIsNoGroup(cfg);
    if usable { LimitsUsableStep(cfg, dirs, files, t.fs.dirs, t.fs.files, t.fs.added, CPUCTL_ROOT + "/ReUperf", 0, 0); }
    var failed := 0;
    for i := 0 to |cfg.rules|
      invariant t.Valid() && t.exempt == old(t.exempt) && failed >= 0
      invariant CpuctlOnly(dirs, files, t.fs.dirs, t.fs.files)
      invariant failed == 0 ==> ReadyBefore(cfg, t.fs.dirs, t.fs.files, i, 0)
      invariant t.fs.refusals >= old(t.fs.refusals)
      invariant usable && t.fs.refusals == old(t.fs.refusals) ==> failed == 0 && LimitsUsable(cfg, t.fs.dirs, t.fs.files, t.fs.added, i, 0)
    {
      ghost var dirs1, files1 := t.fs.dirs, t.fs.files;
      var bad := PrepareRule(cfg, t, i, failed == 0);
      CpuctlThrough(dirs, files, dirs1, files1, t.fs.dirs, t.fs.files);
      failed := failed + bad;
    }
    return failed == 0;
  }

  // One process rule: its own directory, then its thread rules' groups.
  method PrepareRule(cfg: SchedConfig, t: ControlFileTransaction, i: nat, ghost soFar: bool) returns (bad: nat)
    requires t.Valid() && RulesOk(cfg) && i < |cfg.rules|
    requires soFar ==> ReadyBefore(cfg, t.fs.dirs, t.fs.files, i, 0)
    modifies t`originals, t`order, t`exempt, t.fs
    ensures t.Valid() && t.exempt == old(t.exempt)
    ensures CpuctlOnly(old(t.fs.dirs), old(t.fs.files), t.fs.dirs, t.fs.files)
    ensures soFar && bad == 0 ==> ReadyBefore(cfg, t.fs.dirs, t.fs.files, i + 1, 0)
    ensures t.fs.refusals >= old(t.fs.refusals)
    ensures t.fs.refusals == old(t.fs.refusals) && old(LimitsUsable(cfg, t.fs.dirs, t.fs.files, t.fs.added, i, 0)) ==>
      bad == 0 && LimitsUsable(cfg, t.fs.dirs, t.fs.files, t.fs.added, i + 1, 0)
  {
    hide ControlFileTransaction.Valid, RulesOk, LimitReady, LimitsUsable, Made, RuleGroup, CpuctlGroup, ReadyBefore;
    ghost var dirs, files := t.fs.dirs, t.fs.files;
    var rulePath := RuleGroup(cfg.rules[i].name);
    MadeTouches(dirs, files, t.fs.added, rulePath);
    var made := MakeGroup(t, rulePath);
    InHierarchy(cfg.rules[i].name);
    CpuctlStep(dirs, files, dirs, files, t.fs.dirs, t.fs.files, rulePath);
    RuleGroupIsNoGroup(cfg, i);
    if made && LimitsUsable(cfg, dirs, files, t.fs.added, i, 0) {
      LimitsUsableStep(cfg, dirs, files, t.fs.dirs, t.fs.files, t.fs.added, rulePath, i, 0);
    }
    if soFar { ReadyGrows(cfg, dirs, files, t.fs.dirs, t.fs.files, rulePath, i, 0); }
    if !made { return 1; }
    ghost var dirs1, files1 := t.fs.dirs, t.fs.files;
    bad := ConfigureRule(cfg, t, i, soFar);
    CpuctlThrough(dirs, files, dirs1, files1, t.fs.dirs, t.fs.files);
  }

  lemma CpuctlThrough(dirs: set<string>, files: map<File, string>, dirs1: set<string>, files1: map<File, string>,
                      dirs2: set<string>, files2: map<File, string>)
    requires CpuctlOnly(dirs, files, dirs1, files1) && CpuctlOnly(dirs1, files1, dirs2, files2)
    ensures CpuctlOnly(dirs, files, dirs2, files2)
  {
    hide InCpuctl;
  }

  // The groups of one process rule.
  method ConfigureRule(cfg: SchedConfig, t: ControlFileTransaction, i: nat, ghost soFar: bool) returns (bad: nat)
    requires t.Valid() && RulesOk(cfg) && i < |cfg.rules| && RuleGroup(cfg.rules[i].name) in t.fs.dirs
    requires soFar ==> ReadyBefore(cfg, t.fs.dirs, t.fs.files, i, 0)
    modifies t`originals, t`order, t`exempt, t.fs
    ensures t.Valid() && t.exempt == old(t.exempt)
    ensures CpuctlOnly(old(t.fs.dirs), old(t.fs.files), t.fs.dirs, t.fs.files)
    ensures soFar && bad == 0 ==> ReadyBefore(cfg, t.fs.dirs, t.fs.files, i + 1, 0)
    ensures t.fs.refusals >= old(t.fs.refusals)
    ensures t.fs.refusals == old(t.fs.refusals) && old(LimitsUsable(cfg, t.fs.dirs, t.fs.files, t.fs.added, i, 0)) ==>
      bad == 0 && LimitsUsable(cfg, t.fs.dirs, t.fs.files, t.fs.added, i + 1, 0)
  {
    hide ControlFileTransaction.Valid, RulesOk, LimitReady, CpuctlGroup, RuleGroup, LimitsUsable, LimitUsable;
    ghost var dirs, files, usable := t.fs.dirs, t.fs.files, LimitsUsable(cfg, t.fs.dirs, t.fs.files, t.fs.added, i, 0);
    var rule := cfg.rules[i];
    bad := 0;
    for k := 0 to |rule.threadRules|
      invariant t.Valid() && t.exempt == old(t.exempt) && RuleGroup(rule.name) in t.fs.dirs
      invariant CpuctlOnly(dirs, files, t.fs.dirs, t.fs.files)
      invariant soFar && bad == 0 ==> ReadyBefore(cfg, t.fs.dirs, t.fs.files, i, k)
      invariant t.fs.refusals >= old(t.fs.refusals)
      invariant usable && t.fs.refusals == old(t.fs.refusals) ==> bad == 0 && LimitsUsable(cfg, t.fs.dirs, t.fs.files, t.fs.added, i, k)
    {
      if usable && t.fs.refusals == old(t.fs.refusals) { LimitsUsableNext(cfg, t.fs.dirs, t.fs.files, t.fs.added, i, k); }
      if !rule.threadRules[k].enableLimit {
        assert LimitReady(t.fs.dirs, t.fs.files, rule.name, rule.threadRules[k], k) by { NoLimit(t.fs.dirs, t.fs.files, rule.name, rule.threadRules[k], k); }
        continue;
      }
      ghost var dirs1, files1 := t.fs.dirs, t.fs.files;
      OwnGroup(cfg, i, k);
      var done := ConfigureGroup(t, rule.name, rule.threadRules[k], k);
      CpuctlStep(dirs, files, dirs1, files1, t.fs.dirs, t.fs.files, CpuctlGroup(rule.name, k));
      if LimitsUsable(cfg, dirs1, files1, t.fs.added, i, k + 1) {
        LimitsUsableStep(cfg, dirs1, files1, t.fs.dirs, t.fs.files, t.fs.added, CpuctlGroup(rule.name, k), i, k + 1);
      }
      if soFar && bad == 0 {
        ReadyKept(cfg, dirs1, files1, t.fs.dirs, t.fs.files, CpuctlGroup(rule.name, k), i, k);
      }
      if !done { bad := bad + 1; }
    }
    if usable && t.fs.refusals == old(t.fs.refusals) { LimitsUsableNext(cfg, t.fs.dirs, t.fs.files, t.fs.added, i, |rule.threadRules|); }
  }

  lemma InHierarchy(rule: string)
    ensures InCpuctl(RuleGroup(rule))
  {
  }

  // The directory above all rules' is none of theirs.
  lemma RootIsNoGroup(cfg: SchedConfig)
    ensures forall i: nat :: i < |cfg.rules| ==> CPUCTL_ROOT + "/ReUperf" != RuleGroup(cfg.rules[i].name)
    ensures forall i, k: nat :: 0 <= i < |cfg.rules| && k < |cfg.rules[i].threadRules| ==>
      CPUCTL_ROOT + "/ReUperf" != CpuctlGroup(cfg.rules[i].name, k)
  {
    forall i: nat | i < |cfg.rules|
      ensures CPUCTL_ROOT + "/ReUperf" != RuleGroup(cfg.rules[i].name)
    {
      assert |RuleGroup(cfg.rules[i].name)| > |CPUCTL_ROOT + "/ReUperf"|;
    }
    forall i, k: nat | 0 <= i < |cfg.rules| && k < |cfg.rules[i].threadRules|
      ensures CPUCTL_ROOT + "/ReUperf" != CpuctlGroup(cfg.rules[i].name, k)
    {
      assert |CpuctlGroup(cfg.rules[i].name, k)| > |CPUCTL_ROOT + "/ReUperf"|;
    }
  }

  lemma RuleGroupIsNoGroup(cfg: SchedConfig, i: nat)
    requires RulesOk(cfg) && i < |cfg.rules|
    ensures forall a, b: nat :: 0 <= a < |cfg.rules| && b < |cfg.rules[a].threadRules| ==>
      RuleGroup(cfg.rules[i].name) != CpuctlGroup(cfg.rules[a].name, b)
  {
    hide RuleGroup, CpuctlGroup, RulesOk;
    forall a, b: nat | 0 <= a < |cfg.rules| && b < |cfg.rules[a].threadRules|
      ensures RuleGroup(cfg.rules[i].name) != CpuctlGroup(cfg.rules[a].name, b)
    {
      OwnGroup(cfg, a, b);
    }
  }

  lemma NoLimit(dirs: set<string>, files: map<File, string>, rule: string, t: ThreadRule, k: nat)
    requires !t.enableLimit
    ensures LimitReady(dirs, files, rule, t, k)
  {
  }

  // The group of a thread rule is no other's and no process rule's.
  lemma OwnGroup(cfg: SchedConfig, i: nat, k: nat)
    requires RulesOk(cfg) && i < |cfg.rules| && k < |cfg.rules[i].threadRules|
    ensures var d := CpuctlGroup(cfg.rules[i].name, k);
      && InCpuctl(d)
      && (forall a: nat :: a < |cfg.rules| ==> d != RuleGroup(cfg.rules[a].name))
      && (forall a, b: nat :: 0 <= a < |cfg.rules| && b < |cfg.rules[a].threadRules| && (a, b) != (i, k) ==>
            d != CpuctlGroup(cfg.rules[a].name, b))
  {
    var d := CpuctlGroup(cfg.rules[i].name, k);
    assert InCpuctl(d);
    hide CpuctlGroup, RuleGroup, InCpuctl;
    forall a: nat | a < |cfg.rules|
      ensures d != RuleGroup(cfg.rules[a].name)
    {
      GroupIsNoRuleGroup(cfg.rules[i].name, k, cfg.rules[a].name);
    }
    forall a, b: nat | 0 <= a < |cfg.rules| && b < |cfg.rules[a].threadRules| && (a, b) != (i, k)
      ensures d != CpuctlGroup(cfg.rules[a].name, b)
    {
      if d == CpuctlGroup(cfg.rules[a].name, b) {
        CpuctlGroupInjective(cfg.rules[i].name, k, cfg.rules[a].name, b);
      }
    }
  }

  // ---- The whole initialisation ----------------------------------------------------------------------------

  // Files outside the groups of masks that were not ready are as they were.
  ghost predicate Restored(cfg: SchedConfig, dirs: set<string>, files: map<File, string>, files': map<File, string>) {
    forall f :: f in files && (forall m :: m in cfg.cpumask && f.0 == CpusetGroup(m) ==> GroupReady(dirs, files, f.0)) ==>
      f in files' && files'[f] == files[f]
  }

  // CgroupInitializer::init. It succeeds if what it needs is there and nothing is refused. `undone` tells
  // whether, after a failure, every write was taken back; it was if nothing was refused.
  method Init(cfg: SchedConfig, fs: CgroupFs) returns (ok: bool, ghost undone: bool)
    requires ConfigParser.Lawful(cfg)
    modifies fs
    ensures ok ==> Prepared(cfg, fs.dirs, fs.files)
    ensures !ok && undone ==> Restored(cfg, old(fs.dirs), old(fs.files), fs.files)
    ensures fs.refusals >= old(fs.refusals)
    ensures fs.refusals == old(fs.refusals) ==> (ok || undone) && (old(Usable(cfg, fs.dirs, fs.files, fs.added)) ==> ok)
  {
    hide MasksReady, LimitsReady, MasksOk, RulesOk, ScenesOk, PriosOk, NeedsCpuset, NeedsCpuctl, CpusetGroup, OfMasks, CpusetUsable, CpuctlUsable;
    ghost var dirs, files := fs.dirs, fs.files;
    var t := new ControlFileTransaction(fs);
    ok := InitCpuset(cfg, t);
    if ok {
      ghost var dirs1, files1 := fs.dirs, fs.files;
      CpuctlUnaffected(cfg, dirs, files, dirs1, files1, fs.added);
      ok := InitCpuctl(cfg, t);
      if ok {
        if NeedsCpuset(cfg) { MasksStayReady(cfg, dirs1, files1, fs.dirs, fs.files); }
        t.Commit();
        return true, false;
      }
    }
    undone := t.Rollback();
    return false, undone;
  }

  lemma MasksStayReady(cfg: SchedConfig, dirs: set<string>, files: map<File, string>, dirs': set<string>, files': map<File, string>)
    requires MasksReady(cfg, dirs, files) && CpuctlOnly(dirs, files, dirs', files')
    ensures MasksReady(cfg, dirs', files')
  {
    hide CpuText, Ids;
    forall name | name in cfg.cpumask
      ensures MaskReady(dirs', files', name, cfg.cpumask[name])
    {
      CpusetIsNotCpuctl(name);
      hide CpusetGroup, InCpuctl;
      assert MaskReady(dirs, files, name, cfg.cpumask[name]);
    }
  }

  // Preparing the masks' groups leaves what the limits' groups need.
  lemma CpuctlUnaffected(cfg: SchedConfig, dirs: set<string>, files: map<File, string>, dirs': set<string>, files': map<File, string>, added: Added)
    requires OfMasks(files, files', cfg.cpumask.Keys) && dirs <= dirs'
    requires forall d :: d in dirs' && d !in dirs ==> exists m :: m in cfg.cpumask && d == CpusetGroup(m)
    ensures CpuctlUsable(cfg, dirs, files, added) ==> CpuctlUsable(cfg, dirs', files', added)
  {
    hide NeedsCpuctl, RuleGroup, CpuctlGroup, LimitUsable, OfMasks;
    forall rule: string, k: nat, t: ThreadRule | LimitUsable(dirs, files, added, rule, t, k)
      ensures LimitUsable(dirs', files', added, rule, t, k)
    {
      GroupsInCpuctl(rule, k);
      OutsideMasks(cfg, dirs, files, dirs', files', RuleGroup(rule));
      OutsideMasks(cfg, dirs, files, dirs', files', CpuctlGroup(rule, k));
      LimitUsableAgrees(dirs, files, dirs', files', added, rule, t, k);
    }
  }

  lemma OutsideMasks(cfg: SchedConfig, dirs: set<string>, files: map<File, string>, dirs': set<string>, files': map<File, string>, d: string)
    requires OfMasks(files, files', cfg.cpumask.Keys) && dirs <= dirs' && InCpuctl(d)
    requires forall d :: d in dirs' && d !in dirs ==> exists m :: m in cfg.cpumask && d == CpusetGroup(m)
    ensures Agree(files, files', d) && (d in dirs <==> d in dirs')
  {
    forall m { CpusetIsNotCpuctl(m); }
    hide InCpuctl, CpusetGroup;
  }

  lemma GroupsInCpuctl(rule: string, k: nat)
    ensures InCpuctl(CpuctlGroup(rule, k)) && InCpuctl(RuleGroup(rule))
  {
    hide Text;
  }

  lemma CpusetIsNotCpuctl(name: string)
    ensures !InCpuctl(CpusetGroup(name)) && !InCpuctl(CPUSET_PARENT)
  {
    assert CpusetGroup(name)[8] == 's' && CPUSET_PARENT[8] == 's' && CPUCTL_ROOT[8] == 'c';
  }

  // After a successful initialisation, a match that asks for a limit sends its thread to a group
  // that holds that match's own limits.
  lemma LimitGroupHoldsLimits(cfg: SchedConfig, rx: Regexes, q: Query, dirs: set<string>, files: map<File, string>)
    requires ConfigParser.Lawful(cfg) && Prepared(cfg, dirs, files) && Match(cfg, rx, q).enableLimit
    ensures var r := Match(cfg, rx, q);
      r.threadRuleIndex >= 0 &&
      var d := CpuctlGroup(r.ruleName, r.threadRuleIndex);
      && d in dirs
      && LimitSet(files, d, RuleGroup(r.ruleName), UCLAMP, r.uclampMax)
      && LimitSet(files, d, RuleGroup(r.ruleName), SHARES, r.cpuShare)
  {
    hide ConfigParser.Lawful, CpuctlGroup, RuleGroup, Match, NeedsCpuctl, NeedsCpuset, LimitSet, MasksReady;
    var i, k := LimitTargetIsOwn(cfg, rx, q);
    assert LimitReady(dirs, files, cfg.rules[i].name, cfg.rules[i].threadRules[k], k);
  }

  // After a successful initialisation, a match that asks for an affinity sends its thread to a
  // group that holds exactly the CPUs it asks for.
  lemma AffinityGroupHoldsCpus(cfg: SchedConfig, rx: Regexes, q: Query, dirs: set<string>, files: map<File, string>)
    requires ConfigParser.Lawful(cfg) && Prepared(cfg, dirs, files) && HasResolvedAffinity(Match(cfg, rx, q))
    ensures var r := Match(cfg, rx, q);
      var d, cpus := CpusetGroup(r.cpumaskName), CpusFor(cfg, r.affinityClass, r.effectiveState);
      && Ids(cpus) && cpus != [] && d in dirs && (d, "cpus") in files && files[(d, "cpus")] == CpuText(cpus)
      && ParseText(files[(d, "cpus")]) == Some(cpus)
  {
    AffinityTargetExists(cfg, rx, q);
    var r := Match(cfg, rx, q);
    assert MaskReady(dirs, files, r.cpumaskName, cfg.cpumask[r.cpumaskName]);
    hide NeedsCpuset, NeedsCpuctl, CpuText, ParseText, CpusetGroup, LimitsReady;
    MaskOfMatch(cfg, rx, q);
    var cpus := cfg.cpumask[r.cpumaskName];
    RoundTrip(cpus);
    Sorting.SortStays(cpus);
  }

  lemma MaskOfMatch(cfg: SchedConfig, rx: Regexes, q: Query)
    requires HasResolvedAffinity(Match(cfg, rx, q))
    ensures var r := Match(cfg, rx, q); r.cpumaskName == MaskNameFor(cfg, r.affinityClass, r.effectiveState)
  {
    hide FirstRule, FirstThread;
  }
}
