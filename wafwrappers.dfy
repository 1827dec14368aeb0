/** The wrappers of zm/wafwrappers.py around waf's build-context commands:
    the decision whether to run `configure` before a command, the handling
    of a project whose lock file is not in the top directory, and the
    process-wide guard against endless re-entry.

    Loading a waf `ConfigSet`, reading files, the hash of `mkHashOfStrings`,
    the variant and cache-file naming of `assist`, and
    `Scripting.run_command` are not part of this model: loads are given as
    their outcome, the hash and the naming as functions, and a command run
    is recorded as an event. */
module WafWrappers {
  import opened PyValues

  /** The outcome of loading a waf `ConfigSet` from a file. */
  datatype Load<+T> = Loaded(data: T) | EnvironmentError

  /** The variables of the lock file that the wrappers read; an empty
      string stands for a variable that is unset. */
  datatype LockEnv = LockEnv(runDir: string, topDir: string, outDir: string, configCmd: string)

  /** `_hash`: the integer 0 it starts from, then a digest. */
  datatype Hash = Zero | Digest(bytes: seq<bv8>)

  /** The ZenMake common file: the monitored files and their recorded hash. */
  datatype MetaRecord = MetaRecord(monitfiles: seq<string>, monithash: Hash)

  /** The project as the wrappers find it on disk. */
  datatype Project = Project(
    autoconfig: bool,                 // features['autoconfig'] of the build configuration
    lockFile: Load<LockEnv>,          // the lock file in the wscript output directory
    meta: Load<MetaRecord>,           // the ZenMake common file
    contents: map<string, seq<bv8>>,  // the files that can be read, with their bytes
    existing: set<string>,            // the paths that exist
    wscriptdir: string,
    zmcachedir: string,
    tasks: seq<string>,               // names of the tasks of the build configuration
    buildtype: string)                // the build type selected on the command line

  /** `mkHashOfStrings`, `getTaskVariantName` and `makeCacheConfFileName`. */
  datatype Hooks = Hooks(
    hash: (Hash, seq<bv8>) -> seq<bv8>,
    variantName: (string, string) -> string,
    cacheFileName: (string, string) -> string)

  /** A command issued through `Scripting.run_command`, or a run of the
      wrapped build-context method. */
  datatype Event = RunCommand(cmd: string) | RanMethod(cmd: string)

  datatype WafError = NotConfigured | InfiniteRecursion

  /** The process-wide state the wrappers read and write: waf's
      `Context.run_dir`, `Context.top_dir` and `Context.out_dir` (empty when
      unset), `wrapBldCtxAutoConf.callCounter`, and the events so far. */
  datatype Globals = Globals(runDir: string, topDir: string, outDir: string, callCounter: nat, events: seq<Event>)

  // ---------------------------------------------------------------------
  // The checks

  /** `_loadLockfileEnv`: the loaded environment, or `None` when loading
      raises `EnvironmentError`. */
  function LoadLockfileEnv(lock: Load<LockEnv>): (r: Option<LockEnv>)
    ensures r.None? <==> lock.EnvironmentError?
    ensures lock.Loaded? ==> r == Some(lock.data)
  {
    match lock
    case Loaded(env) => Some(env)
    case EnvironmentError => None
  }

  /** The fold of `_areFilesChanged` from `acc` over `files`; `None` when a
      file cannot be read. */
  function FoldHash(hooks: Hooks, acc: Hash, files: seq<string>, contents: map<string, seq<bv8>>): Option<Hash>
    decreases |files|
  {
    if |files| == 0 then Some(acc)
    else if files[0] !in contents then None
    else FoldHash(hooks, Digest(hooks.hash(acc, contents[files[0]])), files[1..], contents)
  }

  /** What `_areFilesChanged` answers. */
  predicate FilesChanged(p: Project, hooks: Hooks) {
    match p.meta
    case EnvironmentError => true
    case Loaded(meta) =>
      var h := FoldHash(hooks, Zero, meta.monitfiles, p.contents);
      h.None? || h.value != meta.monithash
  }

  /** `_areFilesChanged`, with its loop. */
  method AreFilesChanged(p: Project, hooks: Hooks) returns (changed: bool)
    ensures changed == FilesChanged(p, hooks)
  {
    if p.meta.EnvironmentError? {
      return true;
    }
    var meta := p.meta.data;
    var h := Zero;
    var i := 0;
    while i < |meta.monitfiles|
      invariant 0 <= i <= |meta.monitfiles|
      invariant FoldHash(hooks, h, meta.monitfiles[i..], p.contents) == FoldHash(hooks, Zero, meta.monitfiles, p.contents)
    {
      assert meta.monitfiles[i..][1..] == meta.monitfiles[i + 1..];
      var file := meta.monitfiles[i];
      if file !in p.contents {
        return true;
      }
      h := Digest(hooks.hash(h, p.contents[file]));
      i := i + 1;
    }
    changed := h != meta.monithash;
  }

  /** Only the monitored files take part in the change detection. */
  lemma {:induction false} FoldReadsOnlyMonitored(hooks: Hooks, acc: Hash, files: seq<string>,
                                                 c1: map<string, seq<bv8>>, c2: map<string, seq<bv8>>)
    requires forall f :: f in files ==> (f in c1 <==> f in c2) && (f in c1 ==> c1[f] == c2[f])
    ensures FoldHash(hooks, acc, files, c1) == FoldHash(hooks, acc, files, c2)
    decreases |files|
  {
    if |files| > 0 && files[0] in c1 {
      assert forall f :: f in files[1..] ==> f in files;
      FoldReadsOnlyMonitored(hooks, Digest(hooks.hash(acc, c1[files[0]])), files[1..], c1, c2);
    }
  }

  /** The change detection answers "unchanged" exactly when the common file
      loads, every monitored file can be read and the fold matches the
      recorded hash. */
  lemma UnchangedMeansRecordedHash(p: Project, hooks: Hooks)
    ensures !FilesChanged(p, hooks) <==>
      p.meta.Loaded? && (forall f :: f in p.meta.data.monitfiles ==> f in p.contents)
      && FoldHash(hooks, Zero, p.meta.data.monitfiles, p.contents) == Some(p.meta.data.monithash)
  {
    if p.meta.Loaded? {
      FoldSomeIffReadable(hooks, Zero, p.meta.data.monitfiles, p.contents);
    }
  }

  lemma {:induction false} FoldSomeIffReadable(hooks: Hooks, acc: Hash, files: seq<string>, contents: map<string, seq<bv8>>)
    ensures FoldHash(hooks, acc, files, contents).Some? <==> forall f :: f in files ==> f in contents
    decreases |files|
  {
    if |files| > 0 {
      assert forall f :: f in files <==> f == files[0] || f in files[1..];
      if files[0] in contents {
        FoldSomeIffReadable(hooks, Digest(hooks.hash(acc, contents[files[0]])), files[1..], contents);
      }
    }
  }

  /** The cache file of task `tasks[j]` for the selected build type. */
  function TaskCacheFile(p: Project, hooks: Hooks, j: nat): string
    requires j < |p.tasks|
  {
    hooks.cacheFileName(p.zmcachedir, hooks.variantName(p.buildtype, p.tasks[j]))
  }

  /** `_areBuildTypesNotConfigured`, scanning tasks from `i`. */
  function BuildTypesNotConfigured(p: Project, hooks: Hooks, i: nat): (r: bool)
    requires i <= |p.tasks|
    ensures r <==> exists j :: i <= j < |p.tasks| && TaskCacheFile(p, hooks, j) !in p.existing
    decreases |p.tasks| - i
  {
    if i == |p.tasks| then false
    else if TaskCacheFile(p, hooks, i) !in p.existing then true
    else BuildTypesNotConfigured(p, hooks, i + 1)
  }

  // ---------------------------------------------------------------------
  // The decisions, as functions of the process-wide state

  /** `_handleNoLockInTop(ctx, envGetter)` for the command `cmd`, where `env`
      is what `envGetter` would return. */
  function NoLockInTop(g: Globals, cmd: string, env: Option<LockEnv>): (Result<bool, WafError>, Globals) {
    if g.topDir != "" && g.outDir != "" then (Ok(false), g)
    else match env
      case None => if cmd != "build" then (Ok(true), g) else (Failure(NotConfigured), g)
      case Some(e) =>
        (Ok(true), g.(runDir := e.runDir, topDir := e.topDir, outDir := e.outDir,
                      events := g.events + [RunCommand(cmd)]))
  }

  /** `if not _handleNoLockInTop(...): method(self)` */
  function NoLockThenMethod(g: Globals, cmd: string, env: Option<LockEnv>): (Result<(), WafError>, Globals) {
    var (r, g') := NoLockInTop(g, cmd, env);
    match r
    case Failure(e) => (Failure(e), g')
    case Ok(handled) => if handled then (Ok(()), g') else (Ok(()), g'.(events := g'.events + [RanMethod(cmd)]))
  }

  /** `env.config_cmd or 'configure'`; a fresh `ConfigSet` has no
      `config_cmd`. */
  function ConfigCommand(env: Option<LockEnv>): string {
    if env.Some? && env.value.configCmd != "" then env.value.configCmd else "configure"
  }

  /** `runConfigAndCommand(self, env)` */
  function RunConfigAndCommand(g: Globals, env: Option<LockEnv>, cmd: string): Globals {
    g.(events := g.events + [RunCommand(ConfigCommand(env)), RunCommand(cmd)])
  }

  /** The checks that send an autoconfigured command through `configure`
      first, in the order they run. */
  predicate NeedsReconfigure(p: Project, hooks: Hooks) {
    var env := LoadLockfileEnv(p.lockFile);
    env.None? || env.value.runDir != p.wscriptdir || FilesChanged(p, hooks) || BuildTypesNotConfigured(p, hooks, 0)
  }

  /** The `execute` that `wrapBldCtxAutoConf` installs. */
  function AutoConfExecute(g: Globals, p: Project, cmd: string, hooks: Hooks): (Result<(), WafError>, Globals) {
    var g1 := g.(callCounter := g.callCounter + 1);
    if g1.callCounter > 10 then (Failure(InfiniteRecursion), g1)
    else if !p.autoconfig then NoLockThenMethod(g1, cmd, LoadLockfileEnv(p.lockFile))
    else
      var env := LoadLockfileEnv(p.lockFile);
      if env.None? then (Ok(()), RunConfigAndCommand(g1, None, cmd))
      else if env.value.runDir != p.wscriptdir then (Ok(()), RunConfigAndCommand(g1, env, cmd))
      else if FilesChanged(p, hooks) then (Ok(()), RunConfigAndCommand(g1, env, cmd))
      else if BuildTypesNotConfigured(p, hooks, 0) then (Ok(()), RunConfigAndCommand(g1, env, cmd))
      else NoLockThenMethod(g1, cmd, env)
  }

  // ---------------------------------------------------------------------
  // Properties of the decisions

  /** `_handleNoLockInTop` keeps the directories when both are set; without
      a lock environment it refuses `build` and lets every other command
      through silently; otherwise it adopts the lock's directories and
      re-runs the command. */
  lemma NoLockInTopCases(g: Globals, cmd: string, env: Option<LockEnv>)
    ensures var (r, g') := NoLockInTop(g, cmd, env);
      && (r == Ok(false) <==> g.topDir != "" && g.outDir != "")
      && (r == Ok(false) ==> g' == g)
      && (r == Failure(NotConfigured) <==> !(g.topDir != "" && g.outDir != "") && env.None? && cmd == "build")
      && (r.Failure? ==> r.error == NotConfigured && g' == g)
      && (r == Ok(true) && env.None? ==> g' == g)
      && (r == Ok(true) && env.Some? ==>
            g'.runDir == env.value.runDir && g'.topDir == env.value.topDir && g'.outDir == env.value.outDir
            && g'.events == g.events + [RunCommand(cmd)])
      && g'.callCounter == g.callCounter
  {
  }

  /** After `_handleNoLockInTop` and the wrapped method, at most one event
      has been added. */
  lemma NoLockAddsAtMostOne(g: Globals, cmd: string, env: Option<LockEnv>)
    ensures var g' := NoLockThenMethod(g, cmd, env).1;
      g'.callCounter == g.callCounter && |g.events| <= |g'.events| <= |g.events| + 1
      && g'.events[..|g.events|] == g.events
  {
  }

  /** Every call counts, and the call that takes the counter above 10 fails
      without doing anything else. */
  lemma RecursionGuard(g: Globals, p: Project, cmd: string, hooks: Hooks)
    ensures var (r, g') := AutoConfExecute(g, p, cmd, hooks);
      && g'.callCounter == g.callCounter + 1
      && (r == Failure(InfiniteRecursion) <==> g.callCounter >= 10)
      && (g.callCounter >= 10 ==> g'.events == g.events && g'.topDir == g.topDir && g'.outDir == g.outDir)
  {
    NoLockInTopCases(g.(callCounter := g.callCounter + 1), cmd, LoadLockfileEnv(p.lockFile));
    NoLockAddsAtMostOne(g.(callCounter := g.callCounter + 1), cmd, LoadLockfileEnv(p.lockFile));
  }

  /** With autoconfig on, the command goes through `configure` first
      exactly when one of the checks is true; it then issues exactly two
      commands, the configure command and the command itself. */
  lemma ReconfigureDecision(g: Globals, p: Project, cmd: string, hooks: Hooks)
    requires g.callCounter < 10 && p.autoconfig
    ensures var (r, g') := AutoConfExecute(g, p, cmd, hooks);
      var env := LoadLockfileEnv(p.lockFile);
      (r.Ok? && g'.events == g.events + [RunCommand(ConfigCommand(env)), RunCommand(cmd)]) <==> NeedsReconfigure(p, hooks)
  {
    var g1 := g.(callCounter := g.callCounter + 1);
    var env := LoadLockfileEnv(p.lockFile);
    if !NeedsReconfigure(p, hooks) {
      NoLockAddsAtMostOne(g1, cmd, env);
      var g' := NoLockThenMethod(g1, cmd, env).1;
      assert |g'.events| < |g.events + [RunCommand(ConfigCommand(env)), RunCommand(cmd)]|;
    }
  }

  /** Where no reconfiguration happens, the wrapped method runs exactly when
      `_handleNoLockInTop` declines, that is when `top_dir` and `out_dir`
      are both set. */
  lemma MethodRunsIffNotHandled(g: Globals, p: Project, cmd: string, hooks: Hooks)
    requires g.callCounter < 10
    requires !p.autoconfig || !NeedsReconfigure(p, hooks)
    ensures var (r, g') := AutoConfExecute(g, p, cmd, hooks);
      var env := LoadLockfileEnv(p.lockFile);
      (g'.events == g.events + [RanMethod(cmd)] <==> NoLockInTop(g.(callCounter := g.callCounter + 1), cmd, env).0 == Ok(false))
      && (g'.events == g.events + [RanMethod(cmd)] <==> g.topDir != "" && g.outDir != "")
  {
    var g1 := g.(callCounter := g.callCounter + 1);
    var env := LoadLockfileEnv(p.lockFile);
    NoLockInTopCases(g1, cmd, env);
    var g' := NoLockInTop(g1, cmd, env).1;
    if env.Some? && !(g.topDir != "" && g.outDir != "") {
      assert g'.events[|g.events|] == RunCommand(cmd);
    }
  }

  /** Without autoconfig, the command `build` on a project with no lock
      file and no directories set is refused as not configured, while every
      other command is skipped without an error. */
  lemma NoAutoconfigWithoutLock(g: Globals, p: Project, cmd: string, hooks: Hooks)
    requires g.callCounter < 10 && !p.autoconfig && p.lockFile.EnvironmentError?
    requires !(g.topDir != "" && g.outDir != "")
    ensures var (r, g') := AutoConfExecute(g, p, cmd, hooks);
      (cmd == "build" ==> r == Failure(NotConfigured))
      && (cmd != "build" ==> r.Ok? && g'.events == g.events)
  {
  }

  // ---------------------------------------------------------------------
  // The process

  /** The running waf process: the globals of `waf.Context`, the counter on
      `wrapBldCtxAutoConf`, and the commands issued so far. */
  class WafProcess {
    var runDir: string
    var topDir: string
    var outDir: string
    var callCounter: nat
    var events: seq<Event>

    constructor (runDir: string, topDir: string, outDir: string)
      ensures State() == Globals(runDir, topDir, outDir, 0, [])
    {
      this.runDir, this.topDir, this.outDir := runDir, topDir, outDir;
      callCounter, events := 0, [];
    }

    function State(): Globals
      reads this
    {
      Globals(runDir, topDir, outDir, callCounter, events)
    }

    /** `_handleNoLockInTop(self, lambda: env)` */
    method HandleNoLockInTop(cmd: string, env: Option<LockEnv>) returns (r: Result<bool, WafError>)
      modifies this
      ensures (r, State()) == NoLockInTop(old(State()), cmd, env)
    {
      if topDir != "" && outDir != "" {
        return Ok(false);
      }
      if env.None? {
        if cmd != "build" {
          return Ok(true);
        }
        return Failure(NotConfigured);
      }
      runDir, topDir, outDir := env.value.runDir, env.value.topDir, env.value.outDir;
      events := events + [RunCommand(cmd)];
      r := Ok(true);
    }

    /** `if not _handleNoLockInTop(self, getter): method(self)` */
    method NoLockThenRun(cmd: string, env: Option<LockEnv>) returns (r: Result<(), WafError>)
      modifies this
      ensures (r, State()) == NoLockThenMethod(old(State()), cmd, env)
    {
      var handled := HandleNoLockInTop(cmd, env);
      if handled.Failure? {
        return Failure(handled.error);
      }
      if !handled.value {
        events := events + [RanMethod(cmd)];
      }
      r := Ok(());
    }

    /** The `execute` that `wrapBldCtxNoLockInTop` installs. */
    method ExecuteNoLockInTop(p: Project, cmd: string) returns (r: Result<(), WafError>)
      modifies this
      ensures (r, State()) == NoLockThenMethod(old(State()), cmd, LoadLockfileEnv(p.lockFile))
    {
      r := NoLockThenRun(cmd, LoadLockfileEnv(p.lockFile));
    }

    /** `runConfigAndCommand(self, env)` */
    method RunConfigThenCommand(env: Option<LockEnv>, cmd: string)
      modifies this
      ensures State() == RunConfigAndCommand(old(State()), env, cmd)
    {
      events := events + [RunCommand(ConfigCommand(env))];
      events := events + [RunCommand(cmd)];
    }

    /** The `execute` that `wrapBldCtxAutoConf` installs. */
    method ExecuteAutoConf(p: Project, cmd: string, hooks: Hooks) returns (r: Result<(), WafError>)
      modifies this
      ensures (r, State()) == AutoConfExecute(old(State()), p, cmd, hooks)
    {
      callCounter := callCounter + 1;
      if callCounter > 10 {
        return Failure(InfiniteRecursion);
      }
      if !p.autoconfig {
        r := NoLockThenRun(cmd, LoadLockfileEnv(p.lockFile));
        return;
      }
      var env := LoadLockfileEnv(p.lockFile);
      if env.None? {
        RunConfigThenCommand(None, cmd);
        return Ok(());
      }
      if env.value.runDir != p.wscriptdir {
        RunConfigThenCommand(env, cmd);
        return Ok(());
      }
      var changed := AreFilesChanged(p, hooks);
      if changed {
        RunConfigThenCommand(env, cmd);
        return Ok(());
      }
      if BuildTypesNotConfigured(p, hooks, 0) {
        RunConfigThenCommand(env, cmd);
        return Ok(());
      }
      r := NoLockThenRun(cmd, env);
    }
  }

  /** A fresh process lets ten wrapped calls through and refuses the
      eleventh, whatever the project: none of the first ten results is the
      infinite-recursion error, the eleventh is. */
  method EleventhCallRefused(p: Project, cmd: string, hooks: Hooks)
    returns (firstTen: seq<Result<(), WafError>>, last: Result<(), WafError>)
    ensures |firstTen| == 10
    ensures forall k :: 0 <= k < |firstTen| ==> firstTen[k] != Failure(InfiniteRecursion)
    ensures last == Failure(InfiniteRecursion)
  {
    var process := new WafProcess("", "", "");
    firstTen := [];
    var i := 0;
    while i < 10
      invariant 0 <= i <= 10
      invariant process.callCounter == i
      invariant |firstTen| == i
      invariant forall k :: 0 <= k < |firstTen| ==> firstTen[k] != Failure(InfiniteRecursion)
      modifies process
    {
      ghost var before := process.State();
      var r := process.ExecuteAutoConf(p, cmd, hooks);
      RecursionGuard(before, p, cmd, hooks);
      firstTen := firstTen + [r];
      i := i + 1;
    }
    last := process.ExecuteAutoConf(p, cmd, hooks);
  }
}
