/** The methods that src/zenmake/zm/waf/build.py adds to waf's
    `BuildContext`: loading the per-task environments from the cache of tasks,
    the step printed before a build, and the variant check.

    `asmethod` is not part of this model; the order of a wrapped method and
    its original follows its `callOrigFirst` flag. The `db` module, waf's
    own `load_envs` and `execute_build`, `produceExternalDeps` and `log` are
    not part of this model either: the cache is given as a map from paths
    to records, and the other calls are recorded as events. */
module WafBuild {
  import opened PyValues

  /** waf's `ConfigSet`: a table of variables with an optional parent that
      is read through for variables the table lacks. */
  class Env {
    var table: map<string, Value>
    var parent: Env?
    ghost var Repr: set<Env>

    ghost predicate Valid()
      reads this, Repr
      decreases Repr
    {
      && this in Repr
      && (parent != null ==>
            && parent in Repr && parent.Repr < Repr && this !in parent.Repr
            && parent.Valid())
    }

    /** `ConfigSet()` */
    constructor Root(table: map<string, Value>)
      ensures Valid() && fresh(Repr)
      ensures this.table == table && parent == null
    {
      this.table := table;
      parent := null;
      Repr := {this};
    }

    /** `env = ConfigSet(); env.table = table; env.parent = parent` */
    constructor Derive(table: map<string, Value>, parent: Env)
      requires parent.Valid()
      ensures Valid() && Repr == {this} + parent.Repr
      ensures this.table == table && this.parent == parent
    {
      this.table := table;
      this.parent := parent;
      Repr := {this} + parent.Repr;
    }

    /** An env whose footprint is itself and its valid parent's is valid. */
    static lemma DerivedValid(e: Env)
      requires e.parent != null && e.parent.Valid()
      requires e.Repr == {e} + e.parent.Repr && e !in e.parent.Repr
      ensures e.Valid()
    {
    }

    /** `env[key]`: the first table on the chain holding a value other than
        `None`; `None` here where waf answers `[]`. */
    function Get(key: string): Option<Value>
      requires Valid()
      reads this, Repr
      decreases Repr
    {
      if key in table && table[key] != PyNone then Some(table[key])
      else if parent == null then None
      else parent.Get(key)
    }

    /** `env[key] = v` */
    method Set(key: string, v: Value)
      requires Valid()
      modifies this
      ensures Valid() && Repr == old(Repr)
      ensures table == old(table)[key := v] && parent == old(parent)
    {
      table := table[key := v];
    }
  }

  /** A variable set in the child is read from the child; one the child
      lacks is read from the parent. */
  lemma ChildReadsThrough(child: Env, key: string)
    requires child.Valid() && child.parent != null
    ensures key in child.table && child.table[key] != PyNone ==> child.Get(key) == Some(child.table[key])
    ensures !(key in child.table && child.table[key] != PyNone) ==> child.Get(key) == child.parent.Get(key)
  {
  }

  /** A later update of the parent is visible through a child that does not
      set the variable itself. */
  method UpdateParent(child: Env, key: string, v: Value)
    requires child.Valid() && child.parent != null && v != PyNone
    requires !(key in child.table && child.table[key] != PyNone)
    modifies child.parent
    ensures child.Valid() && child.Get(key) == Some(v)
  {
    child.parent.Set(key, v);
  }

  /** The parameters of one task in the cache of tasks; only the variant is
      read here. */
  datatype TaskParams = TaskParams(variant: string, params: map<string, Value>)

  /** What the cache of tasks of a build type holds. */
  datatype TasksRecord = TasksRecord(
    tasks: seq<(string, TaskParams)>,
    taskenvs: map<string, map<string, Value>>,
    depconfs: Value)

  /** The variants of `tasks`. */
  function Variants(tasks: seq<(string, TaskParams)>): (r: set<string>)
    ensures forall v :: v in r <==> exists i :: 0 <= i < |tasks| && tasks[i].1.variant == v
  {
    if |tasks| == 0 then {}
    else
      var init := tasks[..|tasks| - 1];
      assert forall i :: 0 <= i < |init| ==> init[i] == tasks[i];
      Variants(init) + {tasks[|tasks| - 1].1.variant}
  }

  /** Every task's variant has its environment table in the record. */
  predicate VariantsKnown(rec: TasksRecord) {
    forall i :: 0 <= i < |rec.tasks| ==> rec.tasks[i].1.variant in rec.taskenvs
  }

  /** `after` is `before` with an entry for every variant of `tasks`; no
      other key changes. */
  predicate KeysForTasks(before: map<string, Env>, tasks: seq<(string, TaskParams)>, after: map<string, Env>) {
    && after.Keys == before.Keys + Variants(tasks)
    && (forall k :: k in before && k !in Variants(tasks) ==> after[k] == before[k])
  }

  lemma VariantsStep(tasks: seq<(string, TaskParams)>, i: nat)
    requires i < |tasks|
    ensures Variants(tasks[..i + 1]) == Variants(tasks[..i]) + {tasks[i].1.variant}
  {
    assert tasks[..i + 1][..i] == tasks[..i];
  }

  /** What waf and the wrappers do besides changing fields. */
  datatype BuildEvent =
    | OrigLoadEnvs
    | ProducedExternalDeps
    | PrintedStep(msg: string)
    | OrigExecuteBuild

  /** The commands that produce external dependencies and print a step. */
  predicate IsBuildCommand(cmd: string) {
    cmd == "build" || cmd == "install" || cmd == "uninstall" || cmd == "clean"
  }

  function ToUpper(c: char): char {
    if 'a' <= c <= 'z' then (c as int - 'a' as int + 'A' as int) as char else c
  }

  function ToLower(c: char): char {
    if 'A' <= c <= 'Z' then (c as int - 'A' as int + 'a' as int) as char else c
  }

  function LowerAll(s: string): (r: string)
    ensures |r| == |s| && forall i :: 0 <= i < |s| ==> r[i] == ToLower(s[i])
  {
    if |s| == 0 then "" else [ToLower(s[0])] + LowerAll(s[1..])
  }

  /** `str.capitalize` on ASCII letters. */
  function Capitalize(s: string): (r: string)
    ensures |r| == |s|
    ensures |s| > 0 ==> r[0] == ToUpper(s[0]) && r[1..] == LowerAll(s[1..])
  {
    if |s| == 0 then "" else [ToUpper(s[0])] + LowerAll(s[1..])
  }

  /** The events `_executeBuild` adds before the original `execute_build`. */
  function BuildSteps(cmd: string): seq<BuildEvent> {
    if IsBuildCommand(cmd) then [ProducedExternalDeps, PrintedStep(Capitalize(cmd) + "ing")] else []
  }

  /** External dependencies are produced, and a step printed, for the four
      build commands only. */
  lemma BuildStepsOnlyForBuildCommands(cmd: string)
    ensures ProducedExternalDeps in BuildSteps(cmd) <==> IsBuildCommand(cmd)
    ensures (exists m :: PrintedStep(m) in BuildSteps(cmd)) <==> IsBuildCommand(cmd)
  {
    if IsBuildCommand(cmd) {
      assert BuildSteps(cmd)[1] == PrintedStep(Capitalize(cmd) + "ing");
    }
  }

  /** The step printed for a build command is the command with its first
      letter raised, followed by "ing" ("Building", "Cleaning", ...). */
  lemma BuildStepNamesCommand(cmd: string)
    requires IsBuildCommand(cmd)
    ensures BuildSteps(cmd)[1] == PrintedStep([ToUpper(cmd[0])] + cmd[1..] + "ing")
    ensures 'A' <= ToUpper(cmd[0]) <= 'Z'
  {
    CapitalizeLower(cmd);
  }

  /** A word without capitals is capitalized by raising its first letter. */
  lemma CapitalizeLower(s: string)
    requires |s| > 0 && forall i :: 0 <= i < |s| ==> !('A' <= s[i] <= 'Z')
    ensures Capitalize(s) == [ToUpper(s[0])] + s[1..]
  {
    assert LowerAll(s[1..]) == s[1..];
  }

  /** The error `self.fatal` raises when the cache of tasks is missing. */
  function MissingBuildTypeMessage(buildtype: string): string {
    "Buildtype " + Quote(buildtype) + " not found! Was step 'configure' missed?"
  }

  /** The loop of `_loadTasks`: `envs` with one fresh env per task, stored
      under the task's variant, whose table is the variant's table in
      `taskenvs` and whose parent is the root env `envs[""]`. */
  method DeriveTaskEnvs(envs: map<string, Env>, tasks: seq<(string, TaskParams)>,
                        taskenvs: map<string, map<string, Value>>) returns (r: map<string, Env>)
    requires "" in envs && envs[""].Valid()
    requires forall i :: 0 <= i < |tasks| ==> tasks[i].1.variant in taskenvs
    ensures KeysForTasks(envs, tasks, r)
    ensures forall k :: k in Variants(tasks) ==>
      && fresh(r[k]) && r[k].Valid()
      && r[k].table == taskenvs[k] && r[k].parent == envs[""]
  {
    var rootenv := envs[""];
    r := envs;
    ghost var done: set<string> := {};
    var i := 0;
    while i < |tasks|
      invariant 0 <= i <= |tasks|
      invariant rootenv.Valid()
      invariant done == Variants(tasks[..i])
      invariant r.Keys == envs.Keys + done
      invariant forall k :: k in envs && k !in done ==> r[k] == envs[k]
      invariant forall k :: k in done ==>
        && fresh(r[k]) && r[k].Repr == {r[k]} + rootenv.Repr && r[k] !in rootenv.Repr
        && r[k].table == taskenvs[k] && r[k].parent == rootenv
    {
      var taskVariant := tasks[i].1.variant;
      var env := new Env.Derive(taskenvs[taskVariant], rootenv);
      VariantsStep(tasks, i);
      r := r[taskVariant := env];
      done := done + {taskVariant};
      i := i + 1;
    }
    assert tasks[..i] == tasks;
    forall k | k in Variants(tasks) ensures r[k].Valid() {
      Env.DerivedValid(r[k]);
    }
  }

  /** waf's `BuildContext` with the fields ZenMake adds. */
  class BuildContext {
    var cmd: string
    var variant: Option<string>
    var allEnvs: map<string, Env>
    var zmtasks: seq<(string, TaskParams)>
    var zmdepconfs: Value
    var events: seq<BuildEvent>

    constructor (cmd: string, variant: Option<string>)
      ensures this.cmd == cmd && this.variant == variant
      ensures allEnvs == map[] && zmtasks == [] && zmdepconfs == PyMap([]) && events == []
    {
      this.cmd, this.variant := cmd, variant;
      allEnvs, zmtasks, zmdepconfs, events := map[], [], PyMap([]), [];
    }

    /** `_loadTasks`, reading the cache file `cachePath` of `buildtype`. */
    method LoadTasks(cache: map<string, TasksRecord>, cachePath: string, buildtype: string)
      returns (r: Result<(), string>)
      requires cachePath in cache ==>
        "" in allEnvs && allEnvs[""].Valid() && VariantsKnown(cache[cachePath])
      modifies this
      ensures cmd == old(cmd) && variant == old(variant) && events == old(events)
      ensures cachePath !in cache ==>
        && zmtasks == [] && zmdepconfs == PyMap([]) && allEnvs == old(allEnvs)
        && (cmd == "clean" ==> r == Ok(()))
        && (cmd != "clean" ==> r == Failure(MissingBuildTypeMessage(buildtype)))
      ensures cachePath in cache ==>
        && r == Ok(())
        && zmtasks == cache[cachePath].tasks && zmdepconfs == cache[cachePath].depconfs
        && KeysForTasks(old(allEnvs), zmtasks, allEnvs)
      ensures cachePath in cache ==>
        forall k :: k in Variants(zmtasks) ==>
          && fresh(allEnvs[k]) && allEnvs[k].Valid()
          && allEnvs[k].table == cache[cachePath].taskenvs[k] && allEnvs[k].parent == old(allEnvs)[""]
    {
      zmtasks := [];
      zmdepconfs := PyMap([]);
      if cachePath !in cache {
        if cmd == "clean" {
          return Ok(());
        }
        return Failure(MissingBuildTypeMessage(buildtype));
      }
      var rec := cache[cachePath];
      zmtasks := rec.tasks;
      InstallTaskEnvs(rec.tasks, rec.taskenvs);
      zmdepconfs := rec.depconfs;
      r := Ok(());
    }


    /** Stores the envs of the tasks in `all_envs`. */
    method InstallTaskEnvs(tasks: seq<(string, TaskParams)>, taskenvs: map<string, map<string, Value>>)
      requires "" in allEnvs && allEnvs[""].Valid()
      requires forall i :: 0 <= i < |tasks| ==> tasks[i].1.variant in taskenvs
      modifies this
      ensures cmd == old(cmd) && variant == old(variant) && events == old(events)
      ensures zmtasks == old(zmtasks) && zmdepconfs == old(zmdepconfs)
      ensures KeysForTasks(old(allEnvs), tasks, allEnvs)
      ensures forall k :: k in Variants(tasks) ==>
        && fresh(allEnvs[k]) && allEnvs[k].Valid()
        && allEnvs[k].table == taskenvs[k] && allEnvs[k].parent == old(allEnvs)[""]
    {
      allEnvs := DeriveTaskEnvs(allEnvs, tasks, taskenvs);
    }

    /** The wrapped `load_envs`: waf's own load, which leaves `loaded` in
        `all_envs`, then `_loadTasks`. */
    method LoadEnvs(loaded: map<string, Env>, cache: map<string, TasksRecord>, cachePath: string, buildtype: string)
      returns (r: Result<(), string>)
      requires cachePath in cache ==>
        "" in loaded && loaded[""].Valid() && VariantsKnown(cache[cachePath])
      modifies this
      ensures cmd == old(cmd) && variant == old(variant)
      ensures events == old(events) + [OrigLoadEnvs]
      ensures cachePath !in cache ==>
        && zmtasks == [] && zmdepconfs == PyMap([]) && allEnvs == loaded
        && (cmd == "clean" ==> r == Ok(()))
        && (cmd != "clean" ==> r == Failure(MissingBuildTypeMessage(buildtype)))
      ensures cachePath in cache ==>
        && r == Ok(())
        && zmtasks == cache[cachePath].tasks && zmdepconfs == cache[cachePath].depconfs
        && KeysForTasks(loaded, zmtasks, allEnvs)
      ensures cachePath in cache ==>
        forall k :: k in Variants(zmtasks) ==>
          && fresh(allEnvs[k]) && allEnvs[k].Valid()
          && allEnvs[k].table == cache[cachePath].taskenvs[k] && allEnvs[k].parent == loaded[""]
    {
      allEnvs := loaded;
      events := events + [OrigLoadEnvs];
      r := LoadTasks(cache, cachePath, buildtype);
    }

    /** The wrapped `execute_build`: `_executeBuild`, then waf's own. */
    method ExecuteBuild()
      modifies this
      ensures events == old(events) + BuildSteps(cmd) + [OrigExecuteBuild]
      ensures cmd == old(cmd) && variant == old(variant)
      ensures allEnvs == old(allEnvs) && zmtasks == old(zmtasks) && zmdepconfs == old(zmdepconfs)
    {
      if cmd == "build" || cmd == "install" || cmd == "uninstall" || cmd == "clean" {
        events := events + [ProducedExternalDeps];
        events := events + [PrintedStep(Capitalize(cmd) + "ing")];
      }
      events := events + [OrigExecuteBuild];
    }

    /** `_validateVariant` */
    method ValidateVariant() returns (r: Result<string, string>)
      ensures variant.None? <==> r == Failure("No variant!")
      ensures variant.Some? ==> r == Ok(variant.value)
    {
      if variant.None? {
        return Failure("No variant!");
      }
      r := Ok(variant.value);
    }
  }
}
