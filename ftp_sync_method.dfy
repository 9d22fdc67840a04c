/**
 * FtpSyncMethod: deploys a host by building the app in a temporary folder and
 * mirroring it to an FTP server with lftp. The lftp commands are written to a
 * command file on the shell, run, and the command file and the temporary
 * install folder are removed afterwards.
 *
 * The password manager and PHP's `time()` are parameters: the manager is a
 * function of (host, port, user), and each of the two `time()` calls is a
 * number passed in.
 */
module FtpSyncMethod {
  import opened Common
  import opened Context
  import opened ShellProvider
  import opened Validation
  import opened Scripts

  const Name := "ftp-sync"

  /** The files never uploaded, unless the settings say otherwise. */
  const DefaultExcludes: seq<string> := [".git/", "node_modules/", "fabfile.yaml"]
  const DefaultLftpOptions: seq<string> := ["--verbose=1", "--no-perms", "--no-symlinks", "-P 20"]

  const DrushIncompatible := "The method `ftp-sync` is incompatible with the `drush`-method!"
  const DeployMethodRequired := "deployMethod must be `ftp-sync`!"
  const CredentialsRequired := "Please provide ftp-credentials!"
  const FtpKeys: seq<(string, string)> := [
    ("user", "the ftp user-name"),
    ("host", "the ftp host to connect to"),
    ("port", "the port to connect to"),
    ("rootFolder", "the rootfolder of your app on the remote file-system")
  ]

  /** The keys of the cloned host that point at the install folder while the app is built. */
  const FolderKeys: seq<string> := ["rootFolder", "composerRootFolder", "gitRootFolder"]

  /** `getPasswordFor($host, $port, $user)` of the password manager. */
  type PasswordManager = (Value, Value, Value) -> Value

  /** `supports` */
  predicate Supports(methodName: string)
  {
    methodName == Name
  }

  /** `getGlobalSettings`: the uploads exclude the git folder, node modules and the fabfile. */
  function GlobalSettings(parent: map<string, Value>): (r: map<string, Value>)
    ensures r.Keys == parent.Keys + {"excludeFiles"}
    ensures forall k :: k in parent && k != "excludeFiles" ==> r[k] == parent[k]
    ensures Field(r["excludeFiles"], "ftpSync") == StrList(DefaultExcludes)
    ensures forall k :: k != "ftpSync" ==> Field(r["excludeFiles"], k) == Field(Lookup(parent, "excludeFiles"), k)
  {
    var excludes := DictEntries(Lookup(parent, "excludeFiles"));
    parent["excludeFiles" := Dict(excludes["ftpSync" := StrList(DefaultExcludes)])]
  }

  /** The `ftp` entry of the defaults: port 21 and the default lftp options, nothing else. */
  function DefaultFtp(): Value
  {
    Dict(map["port" := Int(21), "lftpOptions" := StrList(DefaultLftpOptions)])
  }

  /** `getDefaultConfig`: the `ftp` entry replaces whatever the parent's defaults held there. */
  function DefaultConfig(parent: map<string, Value>): (r: map<string, Value>)
    ensures r.Keys == parent.Keys + {"tmpFolder", "executables", "deployMethod", "ftp"}
    ensures forall k :: k in parent && k !in {"tmpFolder", "executables", "deployMethod", "ftp"} ==> r[k] == parent[k]
    ensures r["deployMethod"] == Str(Name) && r["tmpFolder"] == Str("/tmp")
    ensures r["executables"] == Dict(map["lftp" := Str("lftp")])
    ensures r["ftp"] == DefaultFtp()
  {
    parent["tmpFolder" := Str("/tmp")]
          ["executables" := Dict(map["lftp" := Str("lftp")])]
          ["deployMethod" := Str(Name)]
          ["ftp" := DefaultFtp()]
  }

  // ---------------------------------------------------------------------------
  // Validation.

  /** All four connection entries are set. */
  predicate FtpComplete(ftp: map<string, Value>)
  {
    IsSet(ftp, "user") && IsSet(ftp, "host") && IsSet(ftp, "port") && IsSet(ftp, "rootFolder")
  }

  /** `validateConfig` (without the parent's checks). */
  function ValidateConfig(config: map<string, Value>): (r: seq<Issue>)
  {
    (if InList("drush", Strings(Lookup(config, "needs"))) then [Error("needs", DrushIncompatible)] else []) +
    (if Lookup(config, "deployMethod") != Str(Name) then [Error("deployMethod", DeployMethodRequired)] else []) +
    IsArrayKey(config, "ftp", CredentialsRequired) +
    (if !Empty(Lookup(config, "ftp")) then HasKeys(DictEntries(config["ftp"]), FtpKeys) else [])
  }

  lemma FtpKeysComplete(ftp: map<string, Value>)
    ensures (forall k :: 0 <= k < |FtpKeys| ==> IsSet(ftp, FtpKeys[k].0)) <==> FtpComplete(ftp)
  {
    assert FtpKeys[0].0 == "user" && FtpKeys[1].0 == "host";
    assert FtpKeys[2].0 == "port" && FtpKeys[3].0 == "rootFolder";
  }

  /**
   * A configuration is free of errors iff it does not also need drush, its
   * deploy method is ftp-sync, `ftp` is an array and, when non-empty, names
   * user, host, port and remote root folder.
   */
  lemma ValidateConfigErrors(config: map<string, Value>)
    ensures !HasErrors(ValidateConfig(config)) <==>
              !InList("drush", Strings(Lookup(config, "needs"))) &&
              Lookup(config, "deployMethod") == Str(Name) &&
              IsSet(config, "ftp") && IsArray(config["ftp"]) &&
              (!Empty(Lookup(config, "ftp")) ==> FtpComplete(DictEntries(config["ftp"])))
  {
    var needs := if InList("drush", Strings(Lookup(config, "needs"))) then [Error("needs", DrushIncompatible)] else [];
    var deployMethod := if Lookup(config, "deployMethod") != Str(Name) then [Error("deployMethod", DeployMethodRequired)] else [];
    var isArray := IsArrayKey(config, "ftp", CredentialsRequired);
    var keys := if !Empty(Lookup(config, "ftp")) then HasKeys(DictEntries(config["ftp"]), FtpKeys) else [];
    HasErrorsConcat(needs + deployMethod + isArray, keys);
    HasErrorsConcat(needs + deployMethod, isArray);
    HasErrorsConcat(needs, deployMethod);
    assert needs != [] ==> needs[0].Error?;
    assert deployMethod != [] ==> deployMethod[0].Error?;
    assert isArray != [] ==> isArray[0].Error?;
    if !Empty(Lookup(config, "ftp")) {
      FtpKeysComplete(DictEntries(config["ftp"]));
    }
  }

  /** An `ftp` entry naming only the port and the options lacks user, host and remote root folder. */
  lemma PortOnlyMissing(ftp: map<string, Value>)
    requires ftp.Keys == {"port", "lftpOptions"} && ftp["port"] != Null
    ensures HasKeys(ftp, FtpKeys) ==
              [Error("user", FtpKeys[0].1), Error("host", FtpKeys[1].1), Error("rootFolder", FtpKeys[3].1)]
  {
    assert !IsSet(ftp, "user") && !IsSet(ftp, "host") && IsSet(ftp, "port") && !IsSet(ftp, "rootFolder");
    assert FtpKeys[3..][1..] == [];
    assert HasKeys(ftp, FtpKeys[3..]) == [Error("rootFolder", FtpKeys[3].1)];
    assert HasKeys(ftp, FtpKeys[2..]) == HasKeys(ftp, FtpKeys[3..]) by {
      assert FtpKeys[2..][1..] == FtpKeys[3..];
    }
    assert HasKeys(ftp, FtpKeys[1..]) == [Error("host", FtpKeys[1].1)] + HasKeys(ftp, FtpKeys[2..]) by {
      assert FtpKeys[1..][1..] == FtpKeys[2..];
    }
  }

  /**
   * The defaults alone satisfy every check but the credentials: a host that
   * does not need drush is told exactly that user, host and remote root folder
   * are missing (the port defaults to 21).
   */
  lemma DefaultsLackOnlyCredentials(parent: map<string, Value>)
    requires !InList("drush", Strings(Lookup(DefaultConfig(parent), "needs")))
    ensures ValidateConfig(DefaultConfig(parent)) ==
              [Error("user", FtpKeys[0].1), Error("host", FtpKeys[1].1), Error("rootFolder", FtpKeys[3].1)]
  {
    var config := DefaultConfig(parent);
    assert "port" in DictEntries(DefaultFtp());
    assert IsArrayKey(config, "ftp", CredentialsRequired) == [];
    PortOnlyMissing(DictEntries(DefaultFtp()));
  }

  // ---------------------------------------------------------------------------
  // The host the deployment works with.

  /** The deployment's host: the password is asked for only when the `ftp` entry has none. */
  function WithPassword(host: map<string, Value>, passwords: PasswordManager): (r: map<string, Value>)
    ensures var ftp := Lookup(host, "ftp");
            Field(Lookup(r, "ftp"), "password") ==
              if Empty(Field(ftp, "password")) then passwords(Field(ftp, "host"), Field(ftp, "port"), Field(ftp, "user"))
              else Field(ftp, "password")
    ensures !Empty(Field(Lookup(host, "ftp"), "password")) ==> r == host
    ensures r.Keys <= host.Keys + {"ftp"}
    ensures forall k :: k in host && k != "ftp" ==> k in r && r[k] == host[k]
    ensures Lookup(host, "ftp").Dict? ==>
              forall k :: k != "password" ==> Field(Lookup(r, "ftp"), k) == Field(Lookup(host, "ftp"), k)
  {
    var ftp := Lookup(host, "ftp");
    if Empty(Field(ftp, "password")) then
      var password := passwords(Field(ftp, "host"), Field(ftp, "port"), Field(ftp, "user"));
      host["ftp" := Dict(DictEntries(ftp)["password" := password])]
    else host
  }

  /** `$tmpFolder/$configName-$time`: the folder the app is built in. */
  function InstallDir(host: map<string, Value>, time: nat): string
  {
    Text(host, "tmpFolder") + "/" + Text(host, "configName") + "-" + IntToString(time)
  }

  /** `$tmpFolder/lftp_commands_$time.x`: the lftp command file. */
  function CommandFile(host: map<string, Value>, time: nat): string
  {
    Text(host, "tmpFolder") + "/lftp_commands_" + IntToString(time) + ".x"
  }

  /** `m` with every key of `keys` set to `v`, one key after the other. */
  function SetKeys(m: map<string, Value>, keys: seq<string>, v: Value): (r: map<string, Value>)
    ensures r.Keys == m.Keys + set k | k in keys
    ensures forall k :: k in keys ==> r[k] == v
    ensures forall k :: k in m && k !in keys ==> r[k] == m[k]
  {
    if keys == [] then m
    else
      var r := SetKeys(m, keys[..|keys| - 1], v)[keys[|keys| - 1] := v];
      assert forall k :: k in keys ==> k in keys[..|keys| - 1] || k == keys[|keys| - 1];
      r
  }

  // ---------------------------------------------------------------------------
  // The lftp options and commands.

  /** The setting `excludeFiles.ftpSync`, empty when missing. */
  function ExcludeList(settings: Value): seq<string>
  {
    Strings(Field(Field(settings, "excludeFiles"), "ftpSync"))
  }

  /** The host's `ftp.lftpOptions`. */
  function LftpOptions(host: map<string, Value>): seq<string>
  {
    Strings(Field(Lookup(host, "ftp"), "lftpOptions"))
  }

  /** One ` --exclude X` per excluded entry, in order. */
  function ExcludeFlags(excludes: seq<string>): string
  {
    if excludes == [] then "" else " --exclude " + excludes[0] + ExcludeFlags(excludes[1..])
  }

  /** The mirror options: the lftp options separated by spaces, then the excludes. */
  function SyncOptions(host: map<string, Value>, settings: Value): string
  {
    Join(LftpOptions(host), " ") + ExcludeFlags(ExcludeList(settings))
  }

  /** Joining a non-empty list with ` --exclude ` and prefixing one more gives one flag per entry. */
  lemma {:induction false} ExcludeJoin(excludes: seq<string>)
    requires excludes != []
    ensures " --exclude " + Join(excludes, " --exclude ") == ExcludeFlags(excludes)
    decreases |excludes|
  {
    var sep := " --exclude ";
    if |excludes| == 1 {
      assert excludes[1..] == [];
    } else {
      var rest := excludes[1..];
      ExcludeJoin(rest);
      calc {
        sep + Join(excludes, sep);
        sep + (excludes[0] + sep + Join(rest, sep));
        { AppendAssoc(sep, excludes[0], sep + Join(rest, sep)); }
        sep + excludes[0] + (sep + Join(rest, sep));
        sep + excludes[0] + ExcludeFlags(rest);
      }
    }
  }

  function Touch(file: string): string
  {
    "touch " + file
  }

  /** `echo "<line>" >> <file>` */
  function AppendTo(line: string, file: string): string
  {
    "echo \"" + line + "\" >> " + file
  }

  function OpenLine(ftp: Value): string
  {
    "open -u " + ToStr(Field(ftp, "user")) + "," + ToStr(Field(ftp, "password")) +
    " -p" + ToStr(Field(ftp, "port")) + " " + ToStr(Field(ftp, "host"))
  }

  /** lftp's reverse mirror of the install folder onto the remote root folder (two spaces before the folder). */
  function MirrorLine(options: string, installDir: string, ftp: Value): string
  {
    "mirror " + options + " -c -e -R  " + installDir + " " + ToStr(Field(ftp, "rootFolder"))
  }

  const ExitLine := "exit"

  function RunLftp(file: string): string
  {
    "#!lftp -f " + file
  }

  function RemoveCommandFile(file: string): string
  {
    "rm " + file
  }

  function RemoveTree(dir: string): string
  {
    "rm -rf " + dir
  }

  /** The commands of the upload, in the order `deploy` runs them. */
  function SyncCommands(host: map<string, Value>, settings: Value, installDir: string, file: string): seq<string>
  {
    UploadCommands(Lookup(host, "ftp"), SyncOptions(host, settings), installDir, file)
  }

  function UploadCommands(ftp: Value, options: string, installDir: string, file: string): (r: seq<string>)
    ensures |r| == 7
  {
    [Touch(file),
     AppendTo(OpenLine(ftp), file),
     AppendTo(MirrorLine(options, installDir, ftp), file),
     AppendTo(ExitLine, file),
     RunLftp(file),
     RemoveCommandFile(file),
     RemoveTree(installDir)]
  }

  // ---------------------------------------------------------------------------
  // What the commands do to the command file.

  /** The text `cmd` appends to `file` when it is `echo "<text>" >> <file>` (read literally, without shell expansion). */
  function EchoedTo(cmd: string, file: string): Option<string>
  {
    var pre := "echo \"";
    var post := "\" >> " + file;
    if |cmd| >= |pre| + |post| && cmd[..|pre|] == pre && cmd[|cmd| - |post|..] == post
    then Some(cmd[|pre|..|cmd| - |post|])
    else None
  }

  /** The lines of `file` after `cmd`, from the lines before it (`None`: no such file). */
  function FileStep(lines: Option<seq<string>>, cmd: string, file: string): Option<seq<string>>
  {
    var current := if lines.Some? then lines.value else [];
    if cmd == Touch(file) then Some(current)
    else if cmd == RemoveCommandFile(file) then None
    else match EchoedTo(cmd, file)
      case Some(line) => Some(current + [line])
      case None => lines
  }

  /** The lines of `file` after `cmds` ran on a shell where it did not exist. */
  function FileAfter(cmds: seq<string>, file: string): Option<seq<string>>
  {
    if cmds == [] then None else FileStep(FileAfter(cmds[..|cmds| - 1], file), cmds[|cmds| - 1], file)
  }

  lemma EchoedLine(line: string, file: string)
    ensures EchoedTo(AppendTo(line, file), file) == Some(line)
  {
    var cmd := AppendTo(line, file);
    var post := "\" >> " + file;
    assert cmd == "echo \"" + line + post;
    assert cmd[..6] == "echo \"";
    assert cmd[|cmd| - |post|..] == post;
    assert cmd[6..|cmd| - |post|] == line;
  }

  /** Running one more command is one more step on the file. */
  lemma FileAfterSnoc(cmds: seq<string>, k: nat, file: string)
    requires k < |cmds|
    ensures FileAfter(cmds[..k + 1], file) == FileStep(FileAfter(cmds[..k], file), cmds[k], file)
  {
    assert cmds[..k + 1][..k] == cmds[..k];
  }

  /** An echo appends its line to the file, creating it when missing. */
  lemma EchoStep(lines: Option<seq<string>>, line: string, file: string)
    ensures FileStep(lines, AppendTo(line, file), file) == Some((if lines.Some? then lines.value else []) + [line])
  {
    EchoedLine(line, file);
    assert AppendTo(line, file)[0] == 'e' && Touch(file)[0] == 't' && RemoveCommandFile(file)[0] == 'r';
  }

  /** Running lftp leaves the file as it is. */
  lemma LftpStep(lines: Option<seq<string>>, file: string)
    ensures FileStep(lines, RunLftp(file), file) == lines
  {
    var cmd := RunLftp(file);
    assert cmd[0] == '#' && Touch(file)[0] == 't' && RemoveCommandFile(file)[0] == 'r';
    if |cmd| >= 6 {
      assert cmd[..6][0] == '#';
    }
  }

  /** The file effects of any command list shaped like the upload's. */
  lemma FileThroughUpload(cmds: seq<string>, file: string, open: string, mirror: string)
    requires |cmds| >= 6 && cmds[0] == Touch(file) && cmds[1] == AppendTo(open, file)
    requires cmds[2] == AppendTo(mirror, file) && cmds[3] == AppendTo(ExitLine, file)
    requires cmds[4] == RunLftp(file) && cmds[5] == RemoveCommandFile(file)
    ensures FileAfter(cmds[..4], file) == Some([open, mirror, ExitLine])
    ensures FileAfter(cmds[..5], file) == FileAfter(cmds[..4], file)
    ensures FileAfter(cmds[..6], file) == None
  {
    FileAfterSnoc(cmds, 0, file);
    assert cmds[..0] == [];
    assert FileAfter(cmds[..1], file) == Some([]);
    FileAfterSnoc(cmds, 1, file);
    EchoStep(Some([]), open, file);
    assert [] + [open] == [open];
    assert FileAfter(cmds[..2], file) == Some([open]);
    FileAfterSnoc(cmds, 2, file);
    EchoStep(Some([open]), mirror, file);
    assert [open] + [mirror] == [open, mirror];
    assert FileAfter(cmds[..3], file) == Some([open, mirror]);
    FileAfterSnoc(cmds, 3, file);
    EchoStep(Some([open, mirror]), ExitLine, file);
    assert [open, mirror] + [ExitLine] == [open, mirror, ExitLine];
    assert FileAfter(cmds[..4], file) == Some([open, mirror, ExitLine]);
    FileAfterSnoc(cmds, 4, file);
    LftpStep(FileAfter(cmds[..4], file), file);
    FileAfterSnoc(cmds, 5, file);
  }

  /**
   * When lftp runs, the command file holds exactly the open line, the mirror
   * line and `exit`, in that order; the next command removes it, and the last
   * one removes the install folder the mirror line uploaded.
   */
  lemma CommandFileHolds(host: map<string, Value>, settings: Value, installDir: string, file: string)
    ensures var cmds := SyncCommands(host, settings, installDir, file);
            var ftp := Lookup(host, "ftp");
            FileAfter(cmds[..4], file) == Some([OpenLine(ftp), MirrorLine(SyncOptions(host, settings), installDir, ftp), ExitLine]) &&
            cmds[4] == RunLftp(file) && FileAfter(cmds[..5], file) == FileAfter(cmds[..4], file) &&
            FileAfter(cmds[..6], file) == None && cmds[6] == RemoveTree(installDir)
  {
    var ftp := Lookup(host, "ftp");
    FileThroughUpload(SyncCommands(host, settings, installDir, file), file, OpenLine(ftp),
                      MirrorLine(SyncOptions(host, settings), installDir, ftp));
  }

  lemma JoinFour(a: string, b: string, c: string, d: string, sep: string)
    ensures Join([a, b, c, d], sep) == a + sep + b + sep + c + sep + d
  {
    assert [a, b, c, d][1..] == [b, c, d];
    assert [b, c, d][1..] == [c, d];
    assert [c, d][1..] == [d];
    assert Join([c, d], sep) == c + sep + d;
    AppendAssoc(b + sep, c + sep, d);
    AppendAssoc(b + sep, c, sep);
    var bcd := b + sep + c + sep + d;
    assert Join([b, c, d], sep) == bcd;
    AppendAssoc(a + sep, b + sep + c + sep, d);
    AppendAssoc(a + sep, b + sep + c, sep);
    AppendAssoc(a + sep, b + sep, c);
    AppendAssoc(a + sep, b, sep);
  }

  lemma ExcludeFlagsThree(a: string, b: string, c: string)
    ensures ExcludeFlags([a, b, c]) == " --exclude " + a + " --exclude " + b + " --exclude " + c
  {
    var x := " --exclude ";
    assert [a, b, c][1..] == [b, c];
    assert [b, c][1..] == [c];
    assert [c][1..] == [];
    assert ExcludeFlags([c]) == x + c;
    AppendAssoc(x + b, x, c);
    assert ExcludeFlags([b, c]) == x + b + x + c;
    AppendAssoc(x + a, x + b + x, c);
    AppendAssoc(x + a, x + b, x);
    AppendAssoc(x + a, x, b);
  }

  /** With the global settings and the default `ftp` entry, the three excludes follow the four default options. */
  lemma DefaultSyncOptions(parent: map<string, Value>, settings: map<string, Value>)
    ensures SyncOptions(DefaultConfig(parent), Dict(GlobalSettings(settings))) ==
              "--verbose=1" + " " + "--no-perms" + " " + "--no-symlinks" + " " + "-P 20" +
              " --exclude " + ".git/" + " --exclude " + "node_modules/" + " --exclude " + "fabfile.yaml"
  {
    StringsOfStrList(DefaultLftpOptions);
    StringsOfStrList(DefaultExcludes);
    JoinFour("--verbose=1", "--no-perms", "--no-symlinks", "-P 20", " ");
    ExcludeFlagsThree(".git/", "node_modules/", "fabfile.yaml");
  }

  // ---------------------------------------------------------------------------
  // The deployment, as specification functions over a script state.

  /** The host `createAppCode` builds the app with: its three folders are the install folder. */
  function Cloned(host: map<string, Value>, installDir: string): map<string, Value>
  {
    SetKeys(host, FolderKeys, Str(installDir))
  }

  /** The context variable holding the shell the app is built from. */
  const OuterShellVar := "outerShell"

  /**
   * `AppDefaultStages` is not part of this model: `createCode` is its
   * `CREATE_CODE` list, and `run` is `executeStages` running a list of stages
   * of a host against the script state.
   */
  datatype Stages = Stages(createCode: Value, run: (map<string, Value>, Value, State) -> StageRun)

  /**
   * What `executeStages` did: the shell operations it appended, the context's
   * variables, results and last command result afterwards, the interpreter's
   * flag afterwards, and what it raised.
   */
  datatype StageRun = StageRun(ops: seq<Op>, vars: map<string, Value>, results: map<string, Value>,
                               last: Option<CommandResult>, flag: bool, raised: Option<Error>)

  /** The setting `appStages.createCode`, `CREATE_CODE` when missing. */
  function StageList(stages: Stages, settings: Value): (r: Value)
    ensures Field(Field(settings, "appStages"), "createCode") != Null ==> r == Field(Field(settings, "appStages"), "createCode")
    ensures Field(Field(settings, "appStages"), "createCode") == Null ==> r == stages.createCode
  {
    var v := Field(Field(settings, "appStages"), "createCode");
    if v == Null then stages.createCode else v
  }

  /** The state after the stages ran: their operations follow the log so far. */
  function AfterStages(run: StageRun, st: State): State
  {
    State(st.log + run.ops, run.vars, run.results, run.last, run.flag)
  }

  /** The state the stages start from: in the temporary folder, with the outer shell in the context. */
  function Entered(st: State, cloned: map<string, Value>, outer: Value): State
  {
    st.(log := st.log + [ChangedDir(Text(cloned, "tmpFolder"))], vars := st.vars[OuterShellVar := outer])
  }

  /** The state the deploy scripts start from: `variables` and `rootFolder` name the install folder. */
  function WithInstallFolder(st: State, installDir: string): State
  {
    st.(vars := st.vars["variables" := Dict(map["installFolder" := Str(installDir)])]["rootFolder" := Str(installDir)])
  }

  /** The end of `createAppCode`: `skipResetStep` is set unless the scripts raised. */
  function Finish(out: ScriptOutcome): (r: ScriptOutcome)
    ensures r.err.None? ==> "skipResetStep" in r.state.results && r.state.results["skipResetStep"] == Bool(true)
  {
    if out.err.Some? then out
    else ScriptOutcome(out.state.(results := out.state.results["skipResetStep" := Bool(true)]), None)
  }

  /** The end of `createAppCode`: the install folder in the context, the deploy scripts, the skip flag. */
  function DeployScripts(o: Oracle, u: Utilities, cloned: map<string, Value>, common: Value, settings: Value,
                         installDir: string, st: State): ScriptOutcome
  {
    Finish(TaskScriptsSpec(o, u, cloned, "deploy", common, settings, WithInstallFolder(st, installDir)))
  }

  /**
   * `createAppCode` on the script state: the cloned host points its three
   * folders at the install folder, the shell changes to the temporary folder,
   * `outerShell` names the shell, the `createCode` stages run on the cloned
   * host, then `variables` and `rootFolder` name the install folder, the host's
   * `deploy` scripts run, and `skipResetStep` is set unless they raised. An
   * exception of the stages ends it before the scripts.
   */
  function CreateAppCodeSpec(o: Oracle, u: Utilities, stages: Stages, outer: Value, host: map<string, Value>,
                             common: Value, settings: Value, installDir: string, st: State): (r: ScriptOutcome)
    ensures r.err.None? ==> "skipResetStep" in r.state.results && r.state.results["skipResetStep"] == Bool(true)
  {
    var cloned := Cloned(host, installDir);
    var entered := Entered(st, cloned, outer);
    var run := stages.run(cloned, StageList(stages, settings), entered);
    if run.raised.Some? then ScriptOutcome(AfterStages(run, entered), run.raised)
    else DeployScripts(o, u, cloned, common, settings, installDir, AfterStages(run, entered))
  }

  lemma DeployScriptsFinish(o: Oracle, u: Utilities, cloned: map<string, Value>, common: Value, settings: Value,
                            installDir: string, st: State, out: ScriptOutcome)
    requires out == TaskScriptsSpec(o, u, cloned, "deploy", common, settings, WithInstallFolder(st, installDir))
    ensures DeployScripts(o, u, cloned, common, settings, installDir, st) == Finish(out)
  {
  }

  lemma CreateAppCodeConcludes(o: Oracle, u: Utilities, stages: Stages, outer: Value, host: map<string, Value>,
                                common: Value, settings: Value, installDir: string, st: State,
                                cloned: map<string, Value>, staged: ScriptOutcome, final: ScriptOutcome)
    requires cloned == Cloned(host, installDir)
    requires var run := stages.run(cloned, StageList(stages, settings), Entered(st, cloned, outer));
             staged.state == AfterStages(run, Entered(st, cloned, outer)) && staged.err == run.raised
    requires staged.err.Some? ==> final == staged
    requires staged.err.None? ==> final == DeployScripts(o, u, cloned, common, settings, installDir, staged.state)
    ensures final == CreateAppCodeSpec(o, u, stages, outer, host, common, settings, installDir, st)
  {
  }

  /**
   * The stages run on the cloned host, from the temporary folder, with the
   * outer shell in the context. When they raise, no deploy script runs and
   * `skipResetStep` is left as the stages left it: the outcome is their state
   * and their exception.
   */
  lemma StagesRunFirst(o: Oracle, u: Utilities, stages: Stages, outer: Value, host: map<string, Value>,
                       common: Value, settings: Value, installDir: string, st: State)
    returns (cloned: map<string, Value>, entered: State)
    ensures forall k :: k in FolderKeys ==> k in cloned && cloned[k] == Str(installDir)
    ensures forall k :: k in host && k !in FolderKeys ==> k in cloned && cloned[k] == host[k]
    ensures entered.log == st.log + [ChangedDir(Text(host, "tmpFolder"))]
    ensures entered.vars == st.vars[OuterShellVar := outer]
    ensures entered.results == st.results && entered.flag == st.flag
    ensures var run := stages.run(cloned, StageList(stages, settings), entered);
            var r := CreateAppCodeSpec(o, u, stages, outer, host, common, settings, installDir, st);
            run.raised.Some? ==>
              r.err == run.raised && r.state.log == entered.log + run.ops &&
              r.state.vars == run.vars && r.state.results == run.results
  {
    cloned := Cloned(host, installDir);
    entered := Entered(st, cloned, outer);
    assert "tmpFolder" !in FolderKeys;
  }

  /**
   * When the stages raise nothing, the deploy scripts run on the cloned host
   * from the state the stages left, with `variables.installFolder` and
   * `rootFolder` naming the install folder, and `createAppCode` ends as they do.
   */
  lemma DeployScriptsSeeInstallFolder(o: Oracle, u: Utilities, stages: Stages, outer: Value, host: map<string, Value>,
                                      common: Value, settings: Value, installDir: string, st: State)
    returns (cloned: map<string, Value>, seen: State)
    requires stages.run(Cloned(host, installDir), StageList(stages, settings), Entered(st, Cloned(host, installDir), outer)).raised.None?
    ensures forall k :: k in FolderKeys ==> k in cloned && cloned[k] == Str(installDir)
    ensures forall k :: k in host && k !in FolderKeys ==> k in cloned && cloned[k] == host[k]
    ensures var run := stages.run(cloned, StageList(stages, settings), Entered(st, cloned, outer));
            seen.log == st.log + [ChangedDir(Text(host, "tmpFolder"))] + run.ops &&
            seen.vars == run.vars["variables" := Dict(map["installFolder" := Str(installDir)])]["rootFolder" := Str(installDir)] &&
            seen.results == run.results
    ensures CreateAppCodeSpec(o, u, stages, outer, host, common, settings, installDir, st) ==
              Finish(TaskScriptsSpec(o, u, cloned, "deploy", common, settings, seen))
  {
    cloned := Cloned(host, installDir);
    seen := WithInstallFolder(AfterStages(stages.run(cloned, StageList(stages, settings), Entered(st, cloned, outer)),
                                          Entered(st, cloned, outer)), installDir);
    assert "tmpFolder" !in FolderKeys;
  }

  /** The end of `deploy` after the app was built: the upload commands run and no next tasks are wanted. */
  function Uploaded(created: ScriptOutcome, cmds: seq<string>): (r: ScriptOutcome)
  {
    if created.err.Some? then created
    else
      var s := created.state;
      ScriptOutcome(s.(log := s.log + RanOps(cmds), results := s.results[RunNextTasks := List([])]), None)
  }

  /** `deploy` on the script state: nothing unless the deploy method is ftp-sync. */
  function DeploySpec(o: Oracle, u: Utilities, stages: Stages, outer: Value, host: map<string, Value>, passwords: PasswordManager,
                      installTime: nat, commandTime: nat, common: Value, settings: Value, st: State): ScriptOutcome
  {
    if Lookup(host, "deployMethod") != Str(Name) then ScriptOutcome(st, None)
    else
      var h := WithPassword(host, passwords);
      var dir := InstallDir(h, installTime);
      Uploaded(CreateAppCodeSpec(o, u, stages, outer, h, common, settings, dir, st.(vars := st.vars["installDir" := Str(dir)])),
               SyncCommands(h, settings, dir, CommandFile(h, commandTime)))
  }

  /** `deploy`'s outcome, from the outcome of building the app. */
  lemma DeployUploads(o: Oracle, u: Utilities, stages: Stages, outer: Value, host: map<string, Value>, passwords: PasswordManager,
                      installTime: nat, commandTime: nat, common: Value, settings: Value, st: State, created: ScriptOutcome)
    requires Lookup(host, "deployMethod") == Str(Name)
    requires var h := WithPassword(host, passwords);
             var dir := InstallDir(h, installTime);
             created == CreateAppCodeSpec(o, u, stages, outer, h, common, settings, dir, st.(vars := st.vars["installDir" := Str(dir)]))
    ensures var h := WithPassword(host, passwords);
            DeploySpec(o, u, stages, outer, host, passwords, installTime, commandTime, common, settings, st) ==
              Uploaded(created, SyncCommands(h, settings, InstallDir(h, installTime), CommandFile(h, commandTime)))
  {
  }

  lemma UploadedIs(created: ScriptOutcome, cmds: seq<string>, after: State)
    requires created.err.None?
    requires after == created.state.(log := created.state.log + RanOps(cmds),
                                     results := created.state.results[RunNextTasks := List([])])
    ensures Uploaded(created, cmds) == ScriptOutcome(after, None)
  {
  }

  /** A completed upload leaves the skip flag set, no next tasks, and the upload commands last in the log. */
  lemma UploadedEffects(created: ScriptOutcome, cmds: seq<string>)
    requires created.err.None? ==> "skipResetStep" in created.state.results &&
                                   created.state.results["skipResetStep"] == Bool(true)
    ensures var r := Uploaded(created, cmds);
            r.err.None? ==>
              r.state.results[RunNextTasks] == List([]) &&
              r.state.results["skipResetStep"] == Bool(true) &&
              |r.state.log| >= |cmds| && r.state.log[|r.state.log| - |cmds|..] == RanOps(cmds) &&
              Commands(r.state.log[|r.state.log| - |cmds|..]) == cmds
  {
    if created.err.None? {
      var s := created.state;
      assert (s.log + RanOps(cmds))[|s.log|..] == RanOps(cmds);
      CommandsOfRanOps(cmds);
    }
  }

  /**
   * A deployment of another method changes nothing. A completed one records
   * that no next tasks run and that the reset step is skipped, and its log ends
   * with the upload commands, run against the host with its password.
   */
  lemma DeployEffects(o: Oracle, u: Utilities, stages: Stages, outer: Value, host: map<string, Value>, passwords: PasswordManager,
                      installTime: nat, commandTime: nat, common: Value, settings: Value, st: State)
    ensures Lookup(host, "deployMethod") != Str(Name) ==>
              DeploySpec(o, u, stages, outer, host, passwords, installTime, commandTime, common, settings, st) == ScriptOutcome(st, None)
    ensures var out := DeploySpec(o, u, stages, outer, host, passwords, installTime, commandTime, common, settings, st);
            var h := WithPassword(host, passwords);
            var cmds := SyncCommands(h, settings, InstallDir(h, installTime), CommandFile(h, commandTime));
            Lookup(host, "deployMethod") == Str(Name) && out.err.None? ==>
              out.state.results[RunNextTasks] == List([]) &&
              out.state.results["skipResetStep"] == Bool(true) &&
              |out.state.log| >= |cmds| && out.state.log[|out.state.log| - |cmds|..] == RanOps(cmds) &&
              Commands(out.state.log[|out.state.log| - |cmds|..]) == cmds
  {
    if Lookup(host, "deployMethod") == Str(Name) {
      var h := WithPassword(host, passwords);
      var dir := InstallDir(h, installTime);
      var created := CreateAppCodeSpec(o, u, stages, outer, h, common, settings, dir, st.(vars := st.vars["installDir" := Str(dir)]));
      DeployUploads(o, u, stages, outer, host, passwords, installTime, commandTime, common, settings, st, created);
      UploadedEffects(created, SyncCommands(h, settings, dir, CommandFile(h, commandTime)));
    }
  }

  lemma RanSeven(log: seq<Op>, cmds: seq<string>)
    requires |cmds| == 7
    ensures log + [Ran(cmds[0])] + [Ran(cmds[1])] + [Ran(cmds[2])] + [Ran(cmds[3])] + [Ran(cmds[4])]
                + [Ran(cmds[5])] + [Ran(cmds[6])] == log + RanOps(cmds)
  {
    assert RanOps(cmds) == [Ran(cmds[0]), Ran(cmds[1]), Ran(cmds[2]), Ran(cmds[3]), Ran(cmds[4]), Ran(cmds[5]), Ran(cmds[6])];
  }

  // ---------------------------------------------------------------------------
  // The handler's methods.

  /** The `foreach` of `createAppCode`: every key of `keys` set to `v`, in order. */
  method SetAll(m: map<string, Value>, keys: seq<string>, v: Value) returns (r: map<string, Value>)
    ensures r == SetKeys(m, keys, v)
  {
    r := m;
    var i := 0;
    while i < |keys|
      invariant 0 <= i <= |keys|
      invariant r == SetKeys(m, keys[..i], v)
    {
      assert keys[..i + 1][..i] == keys[..i];
      r := r[keys[i] := v];
      i := i + 1;
    }
    assert keys[..i] == keys;
  }

  /** `AppDefaultStages::executeStages`: its effect on the shell, the context and the interpreter is applied. */
  method ExecuteStages(scripts: ScriptMethod, stages: Stages, host: map<string, Value>, list: Value,
                       ctx: TaskContext, shell: Shell) returns (err: Option<Error>)
    modifies scripts, ctx`vars, ctx`results, ctx`commandResult, shell`log
    ensures var run := stages.run(host, list, old(scripts.StateOf(ctx, shell)));
            scripts.StateOf(ctx, shell) == AfterStages(run, old(scripts.StateOf(ctx, shell))) && err == run.raised
  {
    var run := stages.run(host, list, scripts.StateOf(ctx, shell));
    shell.log := shell.log + run.ops;
    ctx.Restore(Ctx(run.vars, run.results));
    ctx.commandResult := run.last;
    scripts.SetBreakOnFirstError(run.flag);
    err := run.raised;
  }

  /** The first half of `createAppCode`: the cloned host, the temporary folder, the outer shell and the stages. */
  method EnterAndStage(scripts: ScriptMethod, stages: Stages, outer: Value, host: map<string, Value>, ctx: TaskContext,
                       shell: Shell, settings: Value, installDir: string) returns (cloned: map<string, Value>, err: Option<Error>)
    modifies scripts, ctx`vars, ctx`results, ctx`commandResult, shell`log, shell`workingDir
    ensures cloned == Cloned(host, installDir)
    ensures var entered := Entered(old(scripts.StateOf(ctx, shell)), cloned, outer);
            var run := stages.run(cloned, StageList(stages, settings), entered);
            scripts.StateOf(ctx, shell) == AfterStages(run, entered) && err == run.raised
  {
    cloned := SetAll(host, FolderKeys, Str(installDir));
    shell.Cd(Text(cloned, "tmpFolder"));
    ctx.Set(OuterShellVar, outer);
    err := ExecuteStages(scripts, stages, cloned, StageList(stages, settings), ctx, shell);
  }

  /** The second half of `createAppCode`: the install folder in the context, the deploy scripts, the skip flag. */
  method ScriptsAndFinish(scripts: ScriptMethod, cloned: map<string, Value>, ctx: TaskContext, shell: Shell,
                          u: Utilities, common: Value, settings: Value, installDir: string) returns (err: Option<Error>)
    modifies scripts, ctx`vars, ctx`results, ctx`commandResult, shell`log, shell`workingDir
    ensures ScriptOutcome(scripts.StateOf(ctx, shell), err) ==
              DeployScripts(Oracle(shell.answer, shell.present), u, cloned, common, settings, installDir,
                            old(scripts.StateOf(ctx, shell)))
  {
    ctx.Set("variables", Dict(map["installFolder" := Str(installDir)]));
    ctx.Set("rootFolder", Str(installDir));
    err := scripts.RunTaskSpecificScripts(cloned, "deploy", common, settings, ctx, shell, u);
    ghost var out := ScriptOutcome(scripts.StateOf(ctx, shell), err);
    DeployScriptsFinish(Oracle(shell.answer, shell.present), u, cloned, common, settings, installDir,
                        old(scripts.StateOf(ctx, shell)), out);
    if err.Some? {
      return;
    }
    ctx.SetResult("skipResetStep", Bool(true));
    assert ScriptOutcome(scripts.StateOf(ctx, shell), err) == Finish(out);
  }

  /** `createAppCode`; `outer` is the shell as the context holds it. */
  method CreateAppCode(scripts: ScriptMethod, stages: Stages, outer: Value, host: map<string, Value>, ctx: TaskContext,
                       shell: Shell, u: Utilities, common: Value, settings: Value, installDir: string)
    returns (err: Option<Error>)
    modifies scripts, ctx`vars, ctx`results, ctx`commandResult, shell`log, shell`workingDir
    ensures ScriptOutcome(scripts.StateOf(ctx, shell), err) ==
              CreateAppCodeSpec(Oracle(shell.answer, shell.present), u, stages, outer, host, common, settings, installDir,
                                old(scripts.StateOf(ctx, shell)))
  {
    ghost var st := scripts.StateOf(ctx, shell);
    var cloned;
    cloned, err := EnterAndStage(scripts, stages, outer, host, ctx, shell, settings, installDir);
    ghost var staged := ScriptOutcome(scripts.StateOf(ctx, shell), err);
    if err.None? {
      err := ScriptsAndFinish(scripts, cloned, ctx, shell, u, common, settings, installDir);
    }
    CreateAppCodeConcludes(Oracle(shell.answer, shell.present), u, stages, outer, host, common, settings, installDir,
                           st, cloned, staged, ScriptOutcome(scripts.StateOf(ctx, shell), err));
  }

  /** The lftp options of `deploy`: the configured options, then one flag per excluded file. */
  method Options(host: map<string, Value>, settings: Value) returns (options: string)
    ensures options == SyncOptions(host, settings)
  {
    var exclude := ExcludeList(settings);
    options := Join(LftpOptions(host), " ");
    if |exclude| > 0 {
      options := options + " --exclude " + Join(exclude, " --exclude ");
      ExcludeJoin(exclude);
      AppendAssoc(Join(LftpOptions(host), " "), " --exclude ", Join(exclude, " --exclude "));
    }
  }

  /** The seven shell commands of `deploy`, in order. */
  method RunUpload(ftp: Value, options: string, installDir: string, file: string, shell: Shell)
    modifies shell`log
    ensures shell.log == old(shell.log) + RanOps(UploadCommands(ftp, options, installDir, file))
  {
    var _ := shell.Run(Touch(file));
    var _ := shell.Run(AppendTo(OpenLine(ftp), file));
    var _ := shell.Run(AppendTo(MirrorLine(options, installDir, ftp), file));
    var _ := shell.Run(AppendTo(ExitLine, file));
    var _ := shell.Run(RunLftp(file));
    var _ := shell.Run(RemoveCommandFile(file));
    var _ := shell.Run(RemoveTree(installDir));
    RanSeven(old(shell.log), UploadCommands(ftp, options, installDir, file));
  }

  method Upload(host: map<string, Value>, settings: Value, installDir: string, commandTime: nat, shell: Shell)
    modifies shell`log
    ensures shell.log == old(shell.log) + RanOps(SyncCommands(host, settings, installDir, CommandFile(host, commandTime)))
  {
    var options := Options(host, settings);
    var file := Text(host, "tmpFolder") + "/lftp_commands_" + IntToString(commandTime) + ".x";
    RunUpload(Lookup(host, "ftp"), options, installDir, file, shell);
  }

  /** Asks the password manager for the ftp password when the configuration has none. */
  method FetchPassword(host: map<string, Value>, passwords: PasswordManager) returns (updated: map<string, Value>)
    ensures updated == WithPassword(host, passwords)
  {
    updated := host;
    if Empty(Field(Lookup(host, "ftp"), "password")) {
      var ftp := Lookup(host, "ftp");
      ftp := Dict(DictEntries(ftp)["password" := passwords(Field(ftp, "host"), Field(ftp, "port"), Field(ftp, "user"))]);
      updated := host["ftp" := ftp];
    }
  }

  /**
   * The first half of `deploy`: the password, the install folder and the app.
   * `updated` is the host configuration as the caller sees it afterwards (the
   * method writes the fetched password into it).
   */
  method Build(scripts: ScriptMethod, stages: Stages, outer: Value, host: map<string, Value>, passwords: PasswordManager,
               installTime: nat,
               ctx: TaskContext, shell: Shell, u: Utilities, common: Value, settings: Value)
    returns (updated: map<string, Value>, installDir: string, err: Option<Error>)
    modifies scripts, ctx`vars, ctx`results, ctx`commandResult, shell`log, shell`workingDir
    ensures updated == WithPassword(host, passwords) && installDir == InstallDir(updated, installTime)
    ensures var st := old(scripts.StateOf(ctx, shell));
            ScriptOutcome(scripts.StateOf(ctx, shell), err) ==
              CreateAppCodeSpec(Oracle(shell.answer, shell.present), u, stages, outer, updated, common, settings, installDir,
                                st.(vars := st.vars["installDir" := Str(installDir)]))
  {
    updated := FetchPassword(host, passwords);
    installDir := Text(updated, "tmpFolder") + "/" + Text(updated, "configName") + "-" + IntToString(installTime);
    ctx.Set("installDir", Str(installDir));
    err := CreateAppCode(scripts, stages, outer, updated, ctx, shell, u, common, settings, installDir);
  }

  /** The second half of `deploy`: the upload, then no next tasks. */
  method UploadAndFinish(scripts: ScriptMethod, host: map<string, Value>, settings: Value, installDir: string,
                         commandTime: nat, ctx: TaskContext, shell: Shell)
    modifies ctx`results, shell`log
    ensures var st := old(scripts.StateOf(ctx, shell));
            scripts.StateOf(ctx, shell) ==
              st.(log := st.log + RanOps(SyncCommands(host, settings, installDir, CommandFile(host, commandTime))),
                  results := st.results[RunNextTasks := List([])])
  {
    Upload(host, settings, installDir, commandTime, shell);
    ctx.SetResult(RunNextTasks, List([]));
  }

  /**
   * `deploy`: `updated` is the host configuration as the caller sees it
   * afterwards (the method writes the fetched password into it).
   */
  method Deploy(scripts: ScriptMethod, stages: Stages, outer: Value, host: map<string, Value>, passwords: PasswordManager,
                installTime: nat, commandTime: nat, ctx: TaskContext, shell: Shell, u: Utilities,
                common: Value, settings: Value) returns (updated: map<string, Value>, err: Option<Error>)
    modifies scripts, ctx`vars, ctx`results, ctx`commandResult, shell`log, shell`workingDir
    ensures updated == if Lookup(host, "deployMethod") == Str(Name) then WithPassword(host, passwords) else host
    ensures ScriptOutcome(scripts.StateOf(ctx, shell), err) ==
              DeploySpec(Oracle(shell.answer, shell.present), u, stages, outer, host, passwords, installTime, commandTime,
                         common, settings, old(scripts.StateOf(ctx, shell)))
  {
    if Lookup(host, "deployMethod") != Str(Name) {
      return host, None;
    }
    ghost var st := scripts.StateOf(ctx, shell);
    var installDir;
    updated, installDir, err := Build(scripts, stages, outer, host, passwords, installTime, ctx, shell, u, common, settings);
    ghost var created := ScriptOutcome(scripts.StateOf(ctx, shell), err);
    DeployUploads(Oracle(shell.answer, shell.present), u, stages, outer, host, passwords, installTime, commandTime, common, settings,
                  st, created);
    if err.Some? {
      return;
    }
    UploadAndFinish(scripts, updated, settings, installDir, commandTime, ctx, shell);
    UploadedIs(created, SyncCommands(updated, settings, installDir, CommandFile(updated, commandTime)),
               scripts.StateOf(ctx, shell));
  }
}
