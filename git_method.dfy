/**
 * GitMethod: deploys a host by pulling its git working copy, names backups
 * after the checked-out version, and clones the repository when an app is
 * created. Commands run on the shell passed in (the host's shell for `deploy`
 * and the backups, the context's `outerShell`, which defaults to the host's
 * shell, for `appCreate`), so what the handler does is read off that shell's
 * log; command results come from the shell's oracle.
 */
module GitMethod {
  import opened Common
  import opened Context
  import opened ShellProvider
  import opened Validation

  const Name := "git"
  const DescribeCommand := "#!git describe --always --tags"
  const DiffCommand := "#!git diff --exit-code --quiet"
  const StatusCommand := "#!git status"
  const SubmoduleUpdate := "#!git submodule update --init"
  const SubmoduleSync := "#!git submodule sync"
  const MissingStage := "Missing currentStage on context!"
  const MissingRepository := "Missing `repository` in fabfile! Cannot proceed!"

  /** `supports` */
  predicate Supports(methodName: string)
  {
    methodName == Name
  }

  /** `getDefaultConfig`; `gitOptions` is the global setting of that name. */
  function DefaultConfig(host: map<string, Value>, gitOptionsSetting: Value): (r: map<string, Value>)
    ensures r.Keys == {"branch", "gitRootFolder", "ignoreSubmodules", "gitOptions"}
    ensures r["branch"] == Str("develop") && r["ignoreSubmodules"] == Bool(false)
    ensures r["gitRootFolder"] == Lookup(host, "rootFolder") && r["gitOptions"] == gitOptionsSetting
  {
    map["branch" := Str("develop"), "gitRootFolder" := Lookup(host, "rootFolder"),
        "ignoreSubmodules" := Bool(false), "gitOptions" := gitOptionsSetting]
  }

  /** `validateConfig` */
  function ValidateConfig(config: map<string, Value>): (r: seq<Issue>)
    ensures r == [] <==> IsSet(config, "gitRootFolder") && IsSet(config, "branch")
  {
    HasKey(config, "gitRootFolder", "gitRootFolder should point to your gits root folder.") +
    HasKey(config, "branch", "git needs a branch-name so it can run deployments.")
  }

  /** The version `getVersion` reads off `git describe`: the first line with `/` made `-`, or "" on failure. */
  function VersionOf(r: CommandResult): string
  {
    if r.Succeeded() && r.output != [] then ReplaceChar(r.output[0], '/', '-') else ""
  }

  /** A version is a safe file-name component: it never holds a `/`. */
  lemma VersionHasNoSlash(r: CommandResult)
    ensures forall k :: 0 <= k < |VersionOf(r)| ==> VersionOf(r)[k] != '/'
    ensures r.Failed() ==> VersionOf(r) == ""
    ensures r.Succeeded() && r.output != [] ==> |VersionOf(r)| == |r.output[0]|
  {
  }

  /** `getVersion` */
  method GetVersion(host: map<string, Value>, shell: Shell) returns (version: string)
    modifies shell`log, shell`workingDir
    ensures shell.log == old(shell.log) + [ChangedDir(Text(host, "gitRootFolder")), Ran(DescribeCommand)]
    ensures version == VersionOf(shell.answer(|old(shell.log)| + 1, DescribeCommand))
  {
    shell.Cd(Text(host, "gitRootFolder"));
    var result := shell.Run(DescribeCommand);
    version := VersionOf(result);
  }

  /** `isWorkingcopyClean` */
  method IsWorkingcopyClean(host: map<string, Value>, shell: Shell) returns (clean: bool)
    modifies shell`log, shell`workingDir
    ensures shell.log == old(shell.log) + [ChangedDir(Text(host, "gitRootFolder")), Ran(DiffCommand)]
    ensures clean <==> shell.answer(|old(shell.log)| + 1, DiffCommand).Succeeded()
  {
    shell.Cd(Text(host, "gitRootFolder"));
    var result := shell.Run(DiffCommand);
    clean := result.Succeeded();
  }

  /** The branch `deploy` checks out: the context's `branch` variable, else the host's. */
  function DeployBranch(host: map<string, Value>, vars: map<string, Value>): string
  {
    ToStr(VarOr(vars, "branch", Lookup(host, "branch")))
  }

  /** The `gitOptions.pull` setting of the host, as the words of the pull command. */
  function PullOptions(host: map<string, Value>): seq<string>
  {
    Strings(Field(Lookup(host, "gitOptions"), "pull"))
  }

  /** What `deploy` runs on a clean working copy, in order. */
  function DeployCommands(host: map<string, Value>, branch: string): (r: seq<string>)
    ensures |r| >= 4 && r[0] == "#!git fetch -q origin" && r[1] == "#!git checkout " + branch
    ensures r[2] == "#!git fetch --tags" && r[3] == "#!git pull -q " + Join(PullOptions(host), " ") + " origin " + branch
  {
    ["#!git fetch -q origin", "#!git checkout " + branch, "#!git fetch --tags",
     "#!git pull -q " + Join(PullOptions(host), " ") + " origin " + branch] +
    (if Empty(Lookup(host, "ignoreSubmodules")) then [SubmoduleUpdate, SubmoduleSync] else [])
  }

  /** Submodules are updated and synced exactly when the host does not ignore them. */
  lemma SubmodulesIffNotIgnored(host: map<string, Value>, branch: string)
    ensures Empty(Lookup(host, "ignoreSubmodules")) ==> DeployCommands(host, branch)[4..] == [SubmoduleUpdate, SubmoduleSync]
    ensures !Empty(Lookup(host, "ignoreSubmodules")) ==> |DeployCommands(host, branch)| == 4
    ensures InList(SubmoduleSync, DeployCommands(host, branch)) <==> Empty(Lookup(host, "ignoreSubmodules"))
  {
    var r := DeployCommands(host, branch);
    assert forall j :: 0 <= j < 4 ==> r[j][6] != SubmoduleSync[6];
    if InList(SubmoduleSync, r) {
      var k :| 0 <= k < |r| && r[k] == SubmoduleSync;
      assert k >= 4;
    }
    if Empty(Lookup(host, "ignoreSubmodules")) {
      assert r[5] == SubmoduleSync;
    }
  }

  /**
   * `deploy`: a dirty working copy shows `git status` and exits the task early,
   * before anything is fetched; a clean one is fetched, checked out and pulled.
   */
  method Deploy(host: map<string, Value>, ctx: TaskContext, shell: Shell) returns (err: Option<Error>)
    modifies shell`log, shell`workingDir
    ensures var root := Text(host, "gitRootFolder");
            var prefix := old(shell.log) + [ChangedDir(root), ChangedDir(root), Ran(DiffCommand)];
            if shell.answer(|old(shell.log)| + 2, DiffCommand).Succeeded() then
              err.None? && shell.log == prefix + RanOps(DeployCommands(host, DeployBranch(host, ctx.vars)))
            else
              err == Some(EarlyTaskExit) && shell.log == prefix + [Ran(StatusCommand)]
  {
    shell.Cd(Text(host, "gitRootFolder"));
    var clean := IsWorkingcopyClean(host, shell);
    AppendOneThenTwo(old(shell.log), ChangedDir(Text(host, "gitRootFolder")), ChangedDir(Text(host, "gitRootFolder")),
                     Ran(DiffCommand));
    if !clean {
      var _ := shell.Run(StatusCommand);
      return Some(EarlyTaskExit);
    }
    var branch := DeployBranch(host, ctx.vars);
    var commands := DeployCommands(host, branch);
    ghost var start := shell.log;
    var i := 0;
    while i < |commands|
      invariant 0 <= i <= |commands|
      invariant shell.log == start + RanOps(commands[..i])
    {
      var _ := shell.Run(commands[i]);
      RanOpsSnoc(commands, i);
      i := i + 1;
    }
    assert commands[..i] == commands;
    err := None;
  }

  /** The commands a deploy runs, read off the log: a dirty copy is never fetched, checked out or pulled. */
  lemma DeployCommandsRun(host: map<string, Value>, branch: string, log: seq<Op>, root: string)
    ensures var prefix := log + [ChangedDir(root), ChangedDir(root), Ran(DiffCommand)];
            Commands(prefix + [Ran(StatusCommand)]) == Commands(log) + [DiffCommand, StatusCommand]
    ensures var prefix := log + [ChangedDir(root), ChangedDir(root), Ran(DiffCommand)];
            Commands(prefix + RanOps(DeployCommands(host, branch))) == Commands(log) + [DiffCommand] + DeployCommands(host, branch)
  {
    var tail := [ChangedDir(root), ChangedDir(root), Ran(DiffCommand)];
    CommandsAppend(log, tail);
    assert Commands(tail) == [DiffCommand] by {
      assert tail[1..][1..] == [Ran(DiffCommand)];
      assert Commands([Ran(DiffCommand)]) == [DiffCommand] by {
        assert [Ran(DiffCommand)][1..] == [];
      }
    }
    CommandsAppend(log + tail, [Ran(StatusCommand)]);
    assert Commands([Ran(StatusCommand)]) == [StatusCommand] by {
      assert [Ran(StatusCommand)][1..] == [];
    }
    CommandsAppend(log + tail, RanOps(DeployCommands(host, branch)));
    CommandsOfRanOps(DeployCommands(host, branch));
  }

  /** `array_splice($xs, 1, 0, $v)`: insert `v` at index 1, or at the end of a shorter list. */
  function Spliced(xs: seq<Value>, v: Value): seq<Value>
  {
    if |xs| >= 1 then xs[..1] + [v] + xs[1..] else xs + [v]
  }

  /** The splice inserts exactly `v`, at index 1 (or the end), and keeps every other item in order. */
  lemma SplicedInserts(xs: seq<Value>, v: Value)
    ensures var at := if |xs| >= 1 then 1 else |xs|;
            var r := Spliced(xs, v);
            |r| == |xs| + 1 && r[at] == v && r[..at] + r[at + 1..] == xs
  {
    var r := Spliced(xs, v);
    if |xs| >= 1 {
      assert r[..1] + r[2..] == xs[..1] + xs[1..];
    }
  }

  /** `backupPrepare`: a truthy version is spliced into the backup's `basename`. */
  method BackupPrepare(host: map<string, Value>, ctx: TaskContext, shell: Shell)
    modifies shell`log, shell`workingDir, ctx`results
    ensures shell.log == old(shell.log) + [ChangedDir(Text(host, "gitRootFolder")), Ran(DescribeCommand)]
    ensures var version := VersionOf(shell.answer(|old(shell.log)| + 1, DescribeCommand));
            ctx.results == if TruthyString(version)
                           then old(ctx.results)["basename" := List(Spliced(Items(ResultOr(old(ctx.results), "basename", List([]))), Str(version)))]
                           else old(ctx.results)
  {
    var hash := GetVersion(host, shell);
    if TruthyString(hash) {
      var basename := Items(ctx.GetResult("basename", List([])));
      ctx.SetResult("basename", List(Spliced(basename, Str(hash))));
    }
  }

  /** `appCheckExisting`: the install dir defaults to the git root, and a truthy one is kept. */
  method AppCheckExisting(host: map<string, Value>, ctx: TaskContext)
    modifies ctx`results
    ensures Empty(ResultOr(old(ctx.results), "appInstallDir", Bool(false))) ==>
              ctx.results == old(ctx.results)["appInstallDir" := Lookup(host, "gitRootFolder")]
    ensures !Empty(ResultOr(old(ctx.results), "appInstallDir", Bool(false))) ==> ctx.results == old(ctx.results)
  {
    if Empty(ctx.GetResult("appInstallDir", Bool(false))) {
      ctx.SetResult("appInstallDir", Lookup(host, "gitRootFolder"));
    }
  }

  /** What `appCreate` does in the `installCode` stage, starting in working directory `cwd`. */
  function CreateOps(host: map<string, Value>, repository: Value, installDir: string, cwd: string): seq<Op>
  {
    [Ran("#!git clone -b " + Text(host, "branch") + " " + ToStr(repository) + " " + installDir)] +
    (if Empty(Lookup(host, "ignoreSubmodules")) then [ChangedDir(installDir), Ran(SubmoduleUpdate)] else []) +
    [Ran("touch .projectCreated"), ChangedDir(cwd)]
  }

  /** The clone comes first and the project is marked created last; submodules only when not ignored. */
  lemma CreateCommands(host: map<string, Value>, repository: Value, installDir: string, cwd: string)
    ensures var clone := "#!git clone -b " + Text(host, "branch") + " " + ToStr(repository) + " " + installDir;
            Commands(CreateOps(host, repository, installDir, cwd)) ==
              [clone] + (if Empty(Lookup(host, "ignoreSubmodules")) then [SubmoduleUpdate] else []) + ["touch .projectCreated"]
    ensures var ops := CreateOps(host, repository, installDir, cwd);
            ops[|ops| - 1] == ChangedDir(cwd)
  {
    var clone := "#!git clone -b " + Text(host, "branch") + " " + ToStr(repository) + " " + installDir;
    var mid: seq<Op> := if Empty(Lookup(host, "ignoreSubmodules")) then [ChangedDir(installDir), Ran(SubmoduleUpdate)] else [];
    var last: seq<Op> := [Ran("touch .projectCreated"), ChangedDir(cwd)];
    CommandsAppend([Ran(clone)], mid);
    CommandsAppend([Ran(clone)] + mid, last);
    assert Commands([Ran(clone)]) == [clone] by { assert [Ran(clone)][1..] == []; }
    assert Commands(last) == ["touch .projectCreated"] by { assert last[1..][1..] == []; }
    if mid != [] {
      assert Commands(mid) == [SubmoduleUpdate] by { assert mid[1..][1..] == []; }
    }
  }

  /**
   * `appCreate`: needs a current stage; only the `installCode` stage clones,
   * and only with a `repository` setting. `shell` is the context's `outerShell`,
   * defaulting to the host's shell. The working directory is restored.
   */
  method AppCreate(host: map<string, Value>, ctx: TaskContext, shell: Shell, repository: Value) returns (err: Option<Error>)
    modifies shell`log, shell`workingDir
    ensures var stage := VarOr(ctx.vars, "currentStage", Bool(false));
            var installDir := ToStr(VarOr(ctx.vars, "installDir", Lookup(host, "gitRootFolder")));
            if Empty(stage) then err == Some(InvalidArgument(MissingStage)) && shell.log == old(shell.log)
            else if Field(stage, "stage") != Str("installCode") then err.None? && shell.log == old(shell.log)
            else if Empty(repository) then err == Some(InvalidArgument(MissingRepository)) && shell.log == old(shell.log)
            else err.None? && shell.log == old(shell.log) + CreateOps(host, repository, installDir, old(shell.workingDir)) &&
                 shell.workingDir == old(shell.workingDir)
  {
    var stage := ctx.Get("currentStage", Bool(false));
    if Empty(stage) {
      return Some(InvalidArgument(MissingStage));
    }
    if Field(stage, "stage") != Str("installCode") {
      return None;
    }
    var installDir := ToStr(ctx.Get("installDir", Lookup(host, "gitRootFolder")));
    if Empty(repository) {
      return Some(InvalidArgument(MissingRepository));
    }
    var _ := shell.Run("#!git clone -b " + Text(host, "branch") + " " + ToStr(repository) + " " + installDir);
    var cwd := shell.GetWorkingDir();
    if Empty(Lookup(host, "ignoreSubmodules")) {
      shell.Cd(installDir);
      var _ := shell.Run(SubmoduleUpdate);
    }
    var _ := shell.Run("touch .projectCreated");
    shell.Cd(cwd);
    err := None;
  }
}
